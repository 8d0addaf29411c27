/** `window.onload` and what calling it does. `bindEvent` wraps the handler
    it finds; the wrapper calls the old handler first and then defers
    `logPackage` to `requestIdleCallback`, or to `setTimeout` without one. */
module Scheduler {
  import opened Reporter

  /** The event object the browser passes to `onload`. */
  datatype LoadEvent = LoadEvent(id: nat)

  /** The primitive `logPackage` is handed to. */
  datatype Deferral = IdleCallback | ZeroTimeout

  /** What the page observes: a page handler ran, `logPackage` was deferred,
      or `fetch` was called. */
  datatype Event =
    | HandlerRan(handler: nat, e: LoadEvent)
    | Scheduled(via: Deferral)
    | Fetch(request: Request)

  /** The value of `window.onload`: unset (`null`), set to something that is
      not a function, a handler of the page that returns normally, one that
      throws, or the wrapper `bindEvent` installed around the value it found. */
  datatype Handler =
    | Absent
    | NotAFunction
    | PageHandler(id: nat)
    | ThrowingHandler(id: nat)
    | Wrapper(previous: Handler)

  /** `oldOnload && typeof oldOnload === 'function'`. */
  predicate IsFunction(h: Handler) {
    h.PageHandler? || h.ThrowingHandler? || h.Wrapper?
  }

  function DeferralFor(hasIdleCallback: bool): Deferral {
    if hasIdleCallback then IdleCallback else ZeroTimeout
  }

  /** What calling a handler did: the events it produced, and whether the
      call ended by throwing. */
  datatype Outcome = Outcome(events: seq<Event>, threw: bool)

  /** The outcome of calling `h(e)`; a value that is not a function is not
      called. A wrapper whose previous handler throws stops there: the
      exception leaves the wrapper before it defers anything. */
  function Invoke(h: Handler, e: LoadEvent, hasIdleCallback: bool): Outcome {
    match h
    case Absent => Outcome([], false)
    case NotAFunction => Outcome([], false)
    case PageHandler(id) => Outcome([HandlerRan(id, e)], false)
    case ThrowingHandler(id) => Outcome([HandlerRan(id, e)], true)
    case Wrapper(previous) =>
      var before := if IsFunction(previous) then Invoke(previous, e, hasIdleCallback) else Outcome([], false);
      if before.threw then before
      else Outcome(before.events + [Scheduled(DeferralFor(hasIdleCallback))], false)
  }

  /** How many times `bindEvent` wrapped the handler. */
  function Depth(h: Handler): nat {
    if h.Wrapper? then 1 + Depth(h.previous) else 0
  }

  /** Some handler in the chain throws when it is called. */
  predicate HasThrower(h: Handler) {
    match h
    case ThrowingHandler(_) => true
    case Wrapper(previous) => HasThrower(previous)
    case _ => false
  }

  /** Calling `onload` throws exactly when some handler in the chain throws. */
  lemma {:induction false} InvokeThrowsIff(h: Handler, e: LoadEvent, hasIdleCallback: bool)
    ensures Invoke(h, e, hasIdleCallback).threw <==> HasThrower(h)
  {
    if h.Wrapper? && IsFunction(h.previous) {
      InvokeThrowsIff(h.previous, e, hasIdleCallback);
    }
  }

  /** The wrapper runs everything the previous handler did, first. When that
      returns normally it then defers `logPackage` exactly once, by the
      primitive the browser offers; when it throws, the wrapper defers
      nothing and throws too. */
  lemma WrapperRunsPreviousFirst(previous: Handler, e: LoadEvent, hasIdleCallback: bool)
    ensures !HasThrower(previous) ==>
      Invoke(Wrapper(previous), e, hasIdleCallback) ==
        Outcome(Invoke(previous, e, hasIdleCallback).events + [Scheduled(DeferralFor(hasIdleCallback))], false)
    ensures HasThrower(previous) ==>
      Invoke(Wrapper(previous), e, hasIdleCallback) == Invoke(previous, e, hasIdleCallback)
  {
    InvokeThrowsIff(previous, e, hasIdleCallback);
  }

  /** A page handler that was there before `bindEvent` runs before the report
      is deferred, and sees the same event. */
  lemma PageHandlerRunsFirst(id: nat, e: LoadEvent, hasIdleCallback: bool)
    ensures Invoke(Wrapper(PageHandler(id)), e, hasIdleCallback) ==
      Outcome([HandlerRan(id, e), Scheduled(if hasIdleCallback then IdleCallback else ZeroTimeout)], false)
  {
  }

  /** A page handler that throws keeps the report from being deferred: it
      runs, and the exception leaves the wrapper. */
  lemma ThrowingHandlerStopsReport(id: nat, e: LoadEvent, hasIdleCallback: bool)
    ensures Invoke(Wrapper(ThrowingHandler(id)), e, hasIdleCallback) == Outcome([HandlerRan(id, e)], true)
  {
  }

  /** Calling `onload` never reports by itself: every `fetch` happens later,
      in the deferred `logPackage`, so the load event is not held up. */
  lemma {:induction false} InvokeNeverFetches(h: Handler, e: LoadEvent, hasIdleCallback: bool)
    ensures forall ev :: ev in Invoke(h, e, hasIdleCallback).events ==> !ev.Fetch?
  {
    if h.Wrapper? && IsFunction(h.previous) {
      InvokeNeverFetches(h.previous, e, hasIdleCallback);
    }
  }

  /** Every page handler in the chain receives the event `onload` was called with. */
  lemma {:induction false} InvokePassesEvent(h: Handler, e: LoadEvent, hasIdleCallback: bool)
    ensures forall ev :: ev in Invoke(h, e, hasIdleCallback).events && ev.HandlerRan? ==> ev.e == e
  {
    if h.Wrapper? && IsFunction(h.previous) {
      InvokePassesEvent(h.previous, e, hasIdleCallback);
    }
  }

  /** One deferred report per `bindEvent`, all by the same primitive, when no
      handler in the chain throws; none at all when one does. A page whose
      handler was never wrapped (no `init`) schedules no report. */
  lemma {:induction false} ScheduledOncePerBind(h: Handler, e: LoadEvent, hasIdleCallback: bool, via: Deferral)
    ensures multiset(Invoke(h, e, hasIdleCallback).events)[Scheduled(via)] ==
      if via == DeferralFor(hasIdleCallback) && !HasThrower(h) then Depth(h) else 0
  {
    if h.Wrapper? {
      if IsFunction(h.previous) {
        ScheduledOncePerBind(h.previous, e, hasIdleCallback, via);
        InvokeThrowsIff(h.previous, e, hasIdleCallback);
      } else {
        assert Depth(h.previous) == 0;
      }
    }
  }
}
