/** The navigation-timing record the browser exposes as `performance.timing`,
    and the ten durations `getTimes` derives from it. */
module Timing {
  import opened Js

  /** Absolute millisecond timestamps of one page load. */
  datatype NavigationTiming = NavigationTiming(
    navigationStart: int,
    unloadEventStart: int,
    unloadEventEnd: int,
    redirectStart: int,
    redirectEnd: int,
    fetchStart: int,
    domainLookupStart: int,
    domainLookupEnd: int,
    connectStart: int,
    connectEnd: int,
    requestStart: int,
    responseStart: int,
    responseEnd: int,
    domComplete: int,
    loadEventStart: int,
    loadEventEnd: int)

  /** The names of the timestamp fields, so that a metric can say which two it uses. */
  datatype Field =
    | NavigationStart | UnloadEventStart | UnloadEventEnd | RedirectStart | RedirectEnd
    | FetchStart | DomainLookupStart | DomainLookupEnd | ConnectStart | ConnectEnd
    | RequestStart | ResponseStart | ResponseEnd | DomComplete | LoadEventStart | LoadEventEnd

  function FieldValue(t: NavigationTiming, f: Field): int {
    match f
    case NavigationStart => t.navigationStart
    case UnloadEventStart => t.unloadEventStart
    case UnloadEventEnd => t.unloadEventEnd
    case RedirectStart => t.redirectStart
    case RedirectEnd => t.redirectEnd
    case FetchStart => t.fetchStart
    case DomainLookupStart => t.domainLookupStart
    case DomainLookupEnd => t.domainLookupEnd
    case ConnectStart => t.connectStart
    case ConnectEnd => t.connectEnd
    case RequestStart => t.requestStart
    case ResponseStart => t.responseStart
    case ResponseEnd => t.responseEnd
    case DomComplete => t.domComplete
    case LoadEventStart => t.loadEventStart
    case LoadEventEnd => t.loadEventEnd
  }

  /** A derived metric: its key in the report and the two fields it subtracts. */
  datatype Metric = Metric(name: string, end: Field, start: Field)

  /** The metrics report, key by key in the order they are sent. */
  const MetricTable: seq<Metric> := [
    Metric("loadPage", LoadEventEnd, NavigationStart),
    Metric("domReady", DomComplete, ResponseEnd),
    Metric("redirect", RedirectEnd, RedirectStart),
    Metric("lookupDomain", DomainLookupEnd, DomainLookupStart),
    Metric("ttfb", ResponseStart, NavigationStart),
    Metric("request", ResponseEnd, RequestStart),
    Metric("loadEvent", LoadEventEnd, LoadEventStart),
    Metric("appcache", DomainLookupStart, FetchStart),
    Metric("unloadEvent", UnloadEventEnd, UnloadEventStart),
    Metric("connect", ConnectEnd, ConnectStart)
  ]

  function MetricNames(): seq<string> {
    seq(|MetricTable|, i requires 0 <= i < |MetricTable| => MetricTable[i].name)
  }

  /** The value a metric takes on a timing record: end minus start, with no
      rounding and no clamping, so a zero (unset) field can make it negative. */
  function MetricValue(t: NavigationTiming, m: Metric): int {
    FieldValue(t, m.end) - FieldValue(t, m.start)
  }

  /** The ten property assignments of `getTimes`, in source order. */
  function Assignments(t: NavigationTiming): seq<(string, Value)> {
    [ ("loadPage", Num(t.loadEventEnd - t.navigationStart)),
      ("domReady", Num(t.domComplete - t.responseEnd)),
      ("redirect", Num(t.redirectEnd - t.redirectStart)),
      ("lookupDomain", Num(t.domainLookupEnd - t.domainLookupStart)),
      ("ttfb", Num(t.responseStart - t.navigationStart)),
      ("request", Num(t.responseEnd - t.requestStart)),
      ("loadEvent", Num(t.loadEventEnd - t.loadEventStart)),
      ("appcache", Num(t.domainLookupStart - t.fetchStart)),
      ("unloadEvent", Num(t.unloadEventEnd - t.unloadEventStart)),
      ("connect", Num(t.connectEnd - t.connectStart)) ]
  }

  /** `getTimes` on a browser that has `performance`: a fresh object `{}`
      filled by the ten assignments. */
  function Times(t: NavigationTiming): JsObject {
    PutAll(Empty, Assignments(t))
  }

  /** The i-th assignment of `getTimes` is the i-th metric of the table. */
  lemma AssignmentFollowsTable(t: NavigationTiming, i: nat)
    requires i < |MetricTable|
    ensures Assignments(t)[i] == (MetricTable[i].name, Num(MetricValue(t, MetricTable[i])))
  {
  }

  /** The report has exactly the ten keys of the table, in table order, and
      each holds end minus start of its two fields of the same record. */
  lemma TimesFollowsTable(t: NavigationTiming)
    ensures Times(t).keys == MetricNames()
    ensures |Times(t).keys| == 10
    ensures forall i :: 0 <= i < |MetricTable| ==>
      MetricTable[i].name in Times(t).values &&
      Times(t).values[MetricTable[i].name] == Num(MetricValue(t, MetricTable[i]))
  {
    var assignments := Assignments(t);
    assert KeysOf(assignments) == MetricNames() == ["loadPage", "domReady", "redirect",
      "lookupDomain", "ttfb", "request", "loadEvent", "appcache", "unloadEvent", "connect"];
    PutAllKeys(Empty, assignments);
    forall i | 0 <= i < |MetricTable|
      ensures MetricTable[i].name in Times(t).values
      ensures Times(t).values[MetricTable[i].name] == Num(MetricValue(t, MetricTable[i]))
    {
      AssignmentFollowsTable(t, i);
      PutAllValues(Empty, assignments, i);
    }
  }

  /** A metric depends on its own two fields and on nothing else: two records
      that agree on them give the same value for it. */
  lemma TimesIsLocal(t1: NavigationTiming, t2: NavigationTiming, i: nat)
    requires i < |MetricTable|
    requires FieldValue(t1, MetricTable[i].end) == FieldValue(t2, MetricTable[i].end)
    requires FieldValue(t1, MetricTable[i].start) == FieldValue(t2, MetricTable[i].start)
    ensures MetricTable[i].name in Times(t1).values && MetricTable[i].name in Times(t2).values
    ensures Times(t1).values[MetricTable[i].name] == Times(t2).values[MetricTable[i].name]
  {
    TimesFollowsTable(t1);
    TimesFollowsTable(t2);
  }

  /** No clamping: a record whose load event has not ended (field still 0)
      reports a negative `loadPage`. */
  lemma UnsetFieldGivesNegative(t: NavigationTiming)
    requires t.loadEventEnd == 0 && t.navigationStart > 0
    ensures "loadPage" in Times(t).values
    ensures Times(t).values["loadPage"].Num? && Times(t).values["loadPage"].ms < 0
  {
    TimesFollowsTable(t);
    assert MetricTable[0].name == "loadPage";
  }
}
