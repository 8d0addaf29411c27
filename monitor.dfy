/** The exported monitor object. On a browser without `window.performance`
    it is `base`, whose operations do nothing; otherwise it is `pMonitor`,
    which reads the timing entries, keeps the configuration `init` stored and
    reports through `fetch`. */
module Monitor {
  import opened Js
  import opened Timing
  import opened Timeouts
  import opened Reporter
  import opened Scheduler

  /** What `window.performance` exposes to the monitor: `performance.timing`,
      `getEntriesByType('navigation')` and `getEntriesByType('resource')`. */
  datatype Performance = Performance(
    timing: NavigationTiming,
    navigationEntries: seq<NavigationTiming>,
    resources: seq<Resource>)

  /** The options `init` reads, and the `config` it stores: `{url, timeoutUrl,
      method, timeout}`; `None` is a missing (undefined) property. */
  datatype Config = Config(
    url: Option<string>,
    timeoutUrl: Option<string>,
    httpMethod: Option<string>,
    timeout: Option<int>)

  /** `let config = {}`: the configuration before `init`. */
  const Unset: Config := Config(None, None, None, None)

  /** The object `{timeoutRes}` sent to `timeoutUrl`. */
  function TimeoutReport(timeoutRes: seq<string>): JsObject {
    Put(Empty, "timeoutRes", NameList(timeoutRes))
  }

  /** The requests one `logPackage` issues: the metrics to `url`, then the
      slow resources to `timeoutUrl` when there are any. */
  function PackageRequests(config: Config, performance: Performance): seq<Request> {
    var times := Times(performance.timing);
    var timeoutRes := TimeoutNames(performance.resources, config.timeout);
    [BuildRequest(config.url, Some(times), config.httpMethod)] +
    (if |timeoutRes| > 0
     then [BuildRequest(config.timeoutUrl, Some(TimeoutReport(timeoutRes)), config.httpMethod)]
     else [])
  }

  function Fetches(requests: seq<Request>): seq<Event> {
    seq(|requests|, i requires 0 <= i < |requests| => Fetch(requests[i]))
  }

  class PMonitor {
    /** `window.performance`, fixed when the module is loaded. */
    const performance: Option<Performance>
    /** Whether `window.requestIdleCallback` exists. */
    const hasIdleCallback: bool
    /** `window.onload`. */
    var onload: Handler
    /** The module-level `config`. */
    var config: Config
    /** Everything the page observed the monitor do, oldest first. */
    var trace: seq<Event>

    /** The module is loaded: `pm` becomes `base` or a fresh `pMonitor` with
        `config = {}`; nothing is reported and `onload` is left alone. */
    constructor (performance: Option<Performance>, hasIdleCallback: bool, onload: Handler)
      ensures this.performance == performance && this.hasIdleCallback == hasIdleCallback
      ensures this.onload == onload && config == Unset && trace == []
    {
      this.performance := performance;
      this.hasIdleCallback := hasIdleCallback;
      this.onload := onload;
      config := Unset;
      trace := [];
    }

    /** The monitor is `pMonitor` rather than `base`. */
    predicate Supported() {
      performance.Some?
    }

    /** `pMonitor.getLoadTime`: `domComplete` of the first navigation entry;
        destructuring an empty entry list throws. `base` returns `undefined`. */
    function GetLoadTime(): (r: Completion<Option<int>>)
      ensures !Supported() ==> r == Normal(None)
      ensures Supported() ==> (r.TypeError? <==> performance.value.navigationEntries == [])
      ensures Supported() && performance.value.navigationEntries != [] ==>
        r == Normal(Some(performance.value.navigationEntries[0].domComplete))
    {
      match performance
      case None => Normal(None)
      case Some(p) =>
        if p.navigationEntries == [] then TypeError
        else Normal(Some(p.navigationEntries[0].domComplete))
    }

    /** `getTimeoutRes(limit)`; `undefined` from `base`. */
    function GetTimeoutRes(limit: Option<int>): (r: Option<seq<string>>)
      ensures r.Some? <==> Supported()
      ensures r.Some? ==> r.value == TimeoutNames(performance.value.resources, limit)
    {
      match performance
      case None => None
      case Some(p) => Some(TimeoutNames(p.resources, limit))
    }

    /** `getTimes`; `undefined` when there is no `performance`. */
    function GetTimes(): (r: Option<JsObject>)
      ensures r.Some? <==> Supported()
      ensures r.Some? ==> r.value == Times(performance.value.timing)
    {
      match performance
      case None => None
      case Some(p) => Some(Times(p.timing))
    }

    /** `log(url, data = {}, type = 'POST')`: one `fetch`, built as
        `BuildRequest` says; `base.log` does nothing. */
    method Log(url: Option<string>, data: Option<JsObject>, requestType: Option<string>)
      modifies this`trace
      ensures trace == old(trace) + if Supported() then [Fetch(BuildRequest(url, data, requestType))] else []
    {
      if !Supported() {
        return;
      }
      var verb := ToLower(requestType.GetOr("POST"));
      var d := data.GetOr(Empty);
      var request;
      if verb == "get" {
        request := Request(JsString(url) + "?" + JsString(MakerItStr(d)), verb, None);
      } else {
        var formData := Convert2FormData(d);
        request := Request(JsString(url), verb, Some(formData.entries));
      }
      trace := trace + [Fetch(request)];
    }

    /** `logPackage`: the metrics report, then the timeout report when some
        resource was slow; it reads `config` as it is when it runs. */
    method LogPackage()
      modifies this`trace
      ensures Supported() ==> trace == old(trace) + Fetches(PackageRequests(config, performance.value))
      ensures !Supported() ==> trace == old(trace)
    {
      if !Supported() {
        return;
      }
      var times := GetTimes();
      var timeoutRes := GetTimeoutRes(config.timeout).value;
      Log(config.url, times, config.httpMethod);
      if |timeoutRes| > 0 {
        Log(config.timeoutUrl, Some(TimeoutReport(timeoutRes)), config.httpMethod);
      }
      assert trace == old(trace) + Fetches(PackageRequests(config, performance.value));
    }

    /** `bindEvent`: wrap the current `onload`. */
    method BindEvent()
      modifies this`onload
      ensures onload == if Supported() then Wrapper(old(onload)) else old(onload)
    {
      if Supported() {
        onload := Wrapper(onload);
      }
    }

    /** The browser fires the load event: it calls whatever `onload` holds
        with `e`, and the page observes what that call does. */
    method FireLoad(e: LoadEvent) returns (threw: bool)
      modifies this`trace
      ensures trace == old(trace) + Invoke(onload, e, hasIdleCallback).events
      ensures threw == Invoke(onload, e, hasIdleCallback).threw
    {
      var outcome := Invoke(onload, e, hasIdleCallback);
      trace := trace + outcome.events;
      threw := outcome.threw;
    }

    /** `init(option)`: store the options, `method` defaulting to 'POST' and
        `timeout` to 10000, then bind once. Destructuring a missing option
        object throws before anything changes. */
    method Init(option: Option<Config>) returns (threw: bool)
      modifies this`config, this`onload
      ensures threw <==> Supported() && option.None?
      ensures Supported() && option.Some? ==>
        config == Config(option.value.url, option.value.timeoutUrl,
                         Some(option.value.httpMethod.GetOr("POST")),
                         Some(option.value.timeout.GetOr(10000))) &&
        onload == Wrapper(old(onload))
      ensures !(Supported() && option.Some?) ==> config == old(config) && onload == old(onload)
    {
      threw := false;
      if !Supported() {
        return;
      }
      if option.None? {
        threw := true;
        return;
      }
      var o := option.value;
      config := Config(o.url, o.timeoutUrl, Some(o.httpMethod.GetOr("POST")), Some(o.timeout.GetOr(10000)));
      BindEvent();
    }
  }

  /** One `logPackage` issues one or two requests: always the metrics to
      `url`, and a second, to `timeoutUrl` with `{timeoutRes}`, exactly when
      some resource took at least the limit. */
  lemma PackageRequestsShape(config: Config, performance: Performance)
    ensures var requests := PackageRequests(config, performance);
      1 <= |requests| <= 2 &&
      requests[0] == BuildRequest(config.url, Some(Times(performance.timing)), config.httpMethod) &&
      (|requests| == 2 <==>
        exists r :: r in performance.resources && LoadTime(r) >= Threshold(config.timeout)) &&
      (|requests| == 2 ==>
        requests[1] == BuildRequest(config.timeoutUrl,
          Some(TimeoutReport(TimeoutNames(performance.resources, config.timeout))), config.httpMethod))
  {
    var timeoutRes := TimeoutNames(performance.resources, config.timeout);
    if |timeoutRes| > 0 {
      TimeoutNamesIff(performance.resources, config.timeout, timeoutRes[0]);
    } else {
      forall r | r in performance.resources ensures LoadTime(r) < Threshold(config.timeout) {
        TimeoutNamesIff(performance.resources, config.timeout, r.name);
      }
    }
  }

  /** A page whose only resource took 500 ms, limit 10000: one report, to
      `url`, and `timeoutUrl` is never used. */
  lemma FastPageOneReport(config: Config, timing: NavigationTiming,
                          entries: seq<NavigationTiming>, name: string, start: int)
    requires config.timeout == Some(10000)
    ensures PackageRequests(config, Performance(timing, entries, [Resource(name, start, start + 500)])) ==
      [BuildRequest(config.url, Some(Times(timing)), config.httpMethod)]
  {
  }

  /** Resources of 12000 ms and 300 ms, limit 10000: the metrics to `url`,
      then `{timeoutRes: [first]}` to `timeoutUrl`. */
  lemma SlowResourceTwoReports(config: Config, timing: NavigationTiming, entries: seq<NavigationTiming>,
                               slow: string, fast: string, s1: int, s2: int)
    requires config.timeout == Some(10000)
    ensures PackageRequests(config, Performance(timing, entries,
                [Resource(slow, s1, s1 + 12000), Resource(fast, s2, s2 + 300)])) ==
      [BuildRequest(config.url, Some(Times(timing)), config.httpMethod),
       BuildRequest(config.timeoutUrl, Some(TimeoutReport([slow])), config.httpMethod)]
  {
    var a, b := Resource(slow, s1, s1 + 12000), Resource(fast, s2, s2 + 300);
    TimeoutNamesAppend([a], [b], config.timeout);
    TimeoutNamesOne(a, config.timeout);
    TimeoutNamesOne(b, config.timeout);
    assert [a] + [b] == [a, b];
  }

  /** `logPackage` running before `init` reads `config = {}`: it reports as a
      POST with limit 10000, to the URL "undefined". */
  lemma UnsetConfigUsesDefaults(performance: Performance)
    ensures PackageRequests(Unset, performance) ==
      PackageRequests(Config(None, None, Some("POST"), Some(10000)), performance)
    ensures PackageRequests(Unset, performance)[0].url == "undefined"
    ensures PackageRequests(Unset, performance)[0].verb == "post"
  {
  }

  /** Without `window.performance` the monitor is `base`: whatever is called,
      nothing is fetched, `onload` is untouched and the getters return `undefined`. */
  method WithoutPerformance(hasIdleCallback: bool, onload: Handler, option: Option<Config>,
                            url: Option<string>, data: Option<JsObject>, limit: Option<int>)
    returns (trace: seq<Event>, handler: Handler, timeoutRes: Option<seq<string>>,
             loadTime: Completion<Option<int>>, threw: bool)
    ensures trace == [] && handler == onload && !threw
    ensures timeoutRes == None && loadTime == Normal(None)
  {
    var pm := new PMonitor(None, hasIdleCallback, onload);
    threw := pm.Init(option);
    pm.BindEvent();
    pm.Log(url, data, Some("GET"));
    pm.Log(url, data, None);
    pm.LogPackage();
    trace, handler := pm.trace, pm.onload;
    timeoutRes, loadTime := pm.GetTimeoutRes(limit), pm.GetLoadTime();
  }

  /** A page that set its own `onload` before `init`: when the load event
      fires, that handler runs first with the event, then `logPackage` is
      deferred once; when it runs it reports the metrics to the configured
      `url` with the default method, so the page sees handler, deferral,
      report, in that order. */
  method ExistingHandlerThenReport(performance: Performance, hasIdleCallback: bool, id: nat,
                                   e: LoadEvent, url: string, timeoutUrl: string)
    returns (trace: seq<Event>, threw: bool)
    ensures !threw
    ensures 3 <= |trace| <= 4
    ensures trace[..2] == [HandlerRan(id, e), Scheduled(if hasIdleCallback then IdleCallback else ZeroTimeout)]
    ensures trace[2] == Fetch(BuildRequest(Some(url), Some(Times(performance.timing)), Some("POST")))
  {
    var pm := new PMonitor(Some(performance), hasIdleCallback, PageHandler(id));
    var _ := pm.Init(Some(Config(Some(url), Some(timeoutUrl), None, None)));
    PageHandlerRunsFirst(id, e, hasIdleCallback);
    threw := pm.FireLoad(e);
    pm.LogPackage();
    trace := pm.trace;
    PackageRequestsShape(pm.config, performance);
  }

  /** A page whose own `onload` throws: after `init`, firing the load event
      runs that handler and throws out of the wrapper, so `logPackage` is
      never deferred and nothing is reported. */
  method ThrowingHandlerNoReport(performance: Performance, hasIdleCallback: bool, id: nat,
                                 e: LoadEvent, option: Config)
    returns (trace: seq<Event>, threw: bool)
    ensures threw
    ensures trace == [HandlerRan(id, e)]
  {
    var pm := new PMonitor(Some(performance), hasIdleCallback, ThrowingHandler(id));
    var _ := pm.Init(Some(option));
    ThrowingHandlerStopsReport(id, e, hasIdleCallback);
    threw := pm.FireLoad(e);
    trace := pm.trace;
  }
}
