/** The resource-timing entries and `getTimeoutRes`: the names of the
    resources whose load took at least the time limit. */
module Timeouts {
  import opened Js

  /** One `performance.getEntriesByType('resource')` entry, as far as the
      monitor reads it. */
  datatype Resource = Resource(name: string, startTime: int, responseEnd: int)

  const SEC: int := 1000
  /** The limit used when none is given: ten seconds. */
  const TIMEOUT: int := 10 * SEC

  /** `setTime(limit = TIMEOUT)`: the predicate "this duration is a timeout";
      the bound is inclusive. */
  function SetTime(limit: Option<int>): int -> bool {
    var bound := limit.GetOr(TIMEOUT);
    time => time >= bound
  }

  /** The inner `getLoadTime`: how long one resource took. */
  function LoadTime(r: Resource): int {
    r.responseEnd - r.startTime
  }

  /** `getName`. */
  function GetName(r: Resource): string {
    r.name
  }

  /** `resourceTimes.filter(item => isTimeout(getLoadTime(item)))`. */
  function KeepTimedOut(resources: seq<Resource>, isTimeout: int -> bool): (kept: seq<Resource>)
    ensures |kept| <= |resources|
    ensures forall r :: r in kept <==> r in resources && isTimeout(LoadTime(r))
  {
    if resources == [] then []
    else
      var rest := KeepTimedOut(resources[1..], isTimeout);
      assert forall r :: r in resources <==> r == resources[0] || r in resources[1..];
      if isTimeout(LoadTime(resources[0])) then [resources[0]] + rest else rest
  }

  /** `.map(getName)`. */
  function Names(resources: seq<Resource>): seq<string> {
    seq(|resources|, i requires 0 <= i < |resources| => GetName(resources[i]))
  }

  /** `getTimeoutRes(limit)` over the resource entries of the page. */
  function TimeoutNames(resources: seq<Resource>, limit: Option<int>): (names: seq<string>)
    ensures |names| <= |resources|
  {
    Names(KeepTimedOut(resources, SetTime(limit)))
  }

  /** The effective limit: the one given, or ten seconds. */
  function Threshold(limit: Option<int>): int {
    if limit.Some? then limit.value else 10000
  }

  /** A name is reported exactly when some resource of that name took at
      least the limit; a duration equal to the limit counts. */
  lemma TimeoutNamesIff(resources: seq<Resource>, limit: Option<int>, name: string)
    ensures name in TimeoutNames(resources, limit) <==>
      exists r :: r in resources && r.name == name && LoadTime(r) >= Threshold(limit)
  {
    var kept := KeepTimedOut(resources, SetTime(limit));
    if name in TimeoutNames(resources, limit) {
      var i :| 0 <= i < |kept| && Names(kept)[i] == name;
      assert kept[i] in kept;
    }
    forall r | r in resources && r.name == name && LoadTime(r) >= Threshold(limit)
      ensures name in TimeoutNames(resources, limit)
    {
      var i :| 0 <= i < |kept| && kept[i] == r;
      assert Names(kept)[i] == name;
    }
  }

  /** Filtering a concatenation filters each part and keeps their order: the
      result lists the kept resources in the order the page loaded them. */
  lemma {:induction false} KeepTimedOutAppend(a: seq<Resource>, b: seq<Resource>, isTimeout: int -> bool)
    ensures KeepTimedOut(a + b, isTimeout) == KeepTimedOut(a, isTimeout) + KeepTimedOut(b, isTimeout)
  {
    if a == [] {
      assert a + b == b;
    } else {
      assert (a + b)[1..] == a[1..] + b;
      KeepTimedOutAppend(a[1..], b, isTimeout);
    }
  }

  /** Duplicates are kept: every entry that qualifies appears as many times
      as it was loaded, every other entry not at all. */
  lemma {:induction false} KeepTimedOutCount(resources: seq<Resource>, isTimeout: int -> bool, r: Resource)
    ensures multiset(KeepTimedOut(resources, isTimeout))[r] ==
      if isTimeout(LoadTime(r)) then multiset(resources)[r] else 0
  {
    if resources != [] {
      KeepTimedOutCount(resources[1..], isTimeout, r);
      assert resources == [resources[0]] + resources[1..];
    }
  }

  /** The names come out in the order of their entries, one per entry kept. */
  lemma NamesAppend(a: seq<Resource>, b: seq<Resource>)
    ensures Names(a + b) == Names(a) + Names(b)
  {
  }

  /** Together with `TimeoutNamesOne`, this pins the report down completely:
      the names of the slow entries of each part, part after part. */
  lemma TimeoutNamesAppend(a: seq<Resource>, b: seq<Resource>, limit: Option<int>)
    ensures TimeoutNames(a + b, limit) == TimeoutNames(a, limit) + TimeoutNames(b, limit)
  {
    var isTimeout := SetTime(limit);
    KeepTimedOutAppend(a, b, isTimeout);
    NamesAppend(KeepTimedOut(a, isTimeout), KeepTimedOut(b, isTimeout));
  }

  /** A single entry is reported, by name, exactly when its duration reaches the limit. */
  lemma TimeoutNamesOne(r: Resource, limit: Option<int>)
    ensures TimeoutNames([r], limit) == if LoadTime(r) >= Threshold(limit) then [r.name] else []
  {
  }

  /** An omitted limit (`undefined`, as before `init`) behaves as ten seconds. */
  lemma DefaultLimit(resources: seq<Resource>)
    ensures TimeoutNames(resources, None) == TimeoutNames(resources, Some(10000))
  {
  }

  /** With limit 0 every resource of non-negative duration is reported. */
  lemma ZeroLimitKeepsNonNegative(resources: seq<Resource>, r: Resource)
    requires r in resources && LoadTime(r) >= 0
    ensures r.name in TimeoutNames(resources, Some(0))
  {
    TimeoutNamesIff(resources, Some(0), r.name);
  }
}
