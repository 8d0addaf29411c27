# pMonitor: page-performance monitor, modelled in Dafny

`monitor/plugin/pMonitor.js` exports one object, `pm`. On a browser without
`window.performance` it is `base`, whose six operations do nothing. Otherwise
it is `pMonitor`, which:

- derives ten durations (`getTimes`) from `performance.timing`;
- lists the resources whose `responseEnd − startTime` reached a limit
  (`getTimeoutRes`, 10 000 ms by default);
- sends the durations, and the slow resources when there are any, with
  `fetch` (`log`, `logPackage`);
- defers that report until after the load event by wrapping `window.onload`
  (`bindEvent`), once `init` has stored the configuration.

The model has six modules:

- `Js` (js.dfy): JavaScript's `undefined` (`Option.None`), string coercion,
  ASCII lower-casing, and plain objects whose keys keep insertion order.
- `Timing` (timing.dfy): the navigation-timing record and `getTimes`.
- `Timeouts` (timeouts.dfy): resource entries, `setTime`, the inner
  `getLoadTime`, `getName` and the filter/map chain of `getTimeoutRes`.
- `Reporter` (reporter.dfy): `FormData`, `convert2FormData`, `makerItStr`,
  and the request `log` hands to `fetch`.
- `Scheduler` (scheduler.dfy): the value of `window.onload` and the events
  that calling it produces.
- `Monitor` (monitor.dfy): the exported object as the class `PMonitor`.
  It has the browser's `performance` and `requestIdleCallback` as
  constants, and `onload`, `config` and a trace of observable events as
  fields. `base` is the same class built without `performance`: then
  `Init`, `BindEvent`, `Log` and `LogPackage` leave every field unchanged,
  and the getters return undefined. `FireLoad`, the browser's dispatch of
  the load event, still runs whatever handler the page set.

Network calls and deferred callbacks are not executed. Each `fetch` is an
event `Fetch(request)` appended to the trace. Each `requestIdleCallback` or
`setTimeout` call is an event `Scheduled(via)`, produced when `onload` is
called.

Two behaviours of the code are worth stating up front:

- `makerItStr` returns nothing: its arrow has a block body with no
  `return`, and the function has no `return` either. So a GET report goes
  to `url + "?undefined"` with no body, whatever the data
  (`Reporter.GetDropsData`).
- `init` does not check `url` or `timeoutUrl`, and every `init` call wraps
  `onload` again. Each wrapping defers one more `logPackage`
  (`Scheduler.ScheduledOncePerBind`). `logPackage` run before `init`
  reports to the URL "undefined" as a POST, with a 10 000 ms limit
  (`Monitor.UnsetConfigUsesDefaults`).

## Model

| member | source | states |
|---|---|---|
| `Js.PutAllKeys` | monitor/plugin/pMonitor.js:67-120 | a run of property assignments of distinct new keys appends those keys after the existing ones, in assignment order |
| `Js.PutAllValues` | monitor/plugin/pMonitor.js:67-120 | after a run of assignments of distinct new keys, each key holds the value assigned to it |
| `Js.PutAllUntouched` | monitor/plugin/pMonitor.js:67-120 | a property the run does not assign keeps its value |
| `Timing.TimesFollowsTable` | monitor/plugin/pMonitor.js:66-122 | `getTimes` returns exactly the ten keys loadPage, domReady, redirect, lookupDomain, ttfb, request, loadEvent, appcache, unloadEvent, connect, in that order; each value is end minus start of the metric's two fields, as given by an independent metric/field table |
| `Timing.TimesIsLocal` | monitor/plugin/pMonitor.js:71-120 | each metric depends only on its own two fields of the same record: two records that agree on those fields give that metric the same value |
| `Timing.UnsetFieldGivesNegative` | monitor/plugin/pMonitor.js:71 | there is no clamping: an unset (zero) `loadEventEnd` gives a negative `loadPage` |
| `Timeouts.KeepTimedOut` | monitor/plugin/pMonitor.js:52-53 | the filter keeps a resource if and only if it is in the input and its duration passes the predicate; the result is no longer than the input |
| `Timeouts.TimeoutNamesIff` | monitor/plugin/pMonitor.js:49-55 | a name is returned if and only if some resource of that name has `responseEnd − startTime >= limit`, where the limit defaults to 10000; the boundary is inclusive |
| `Timeouts.KeepTimedOutAppend` | monitor/plugin/pMonitor.js:52-53 | filtering a concatenation gives the concatenation of the filtered parts, so input order is kept |
| `Timeouts.KeepTimedOutCount` | monitor/plugin/pMonitor.js:52-53 | duplicates are kept: a qualifying entry appears exactly as often as in the input, and any other entry never appears |
| `Timeouts.TimeoutNamesAppend` | monitor/plugin/pMonitor.js:52-54 | the returned names of a concatenation are the names of each part, in order |
| `Timeouts.TimeoutNamesOne` | monitor/plugin/pMonitor.js:25-27 | a single resource yields `[name]` when its duration reaches the limit, and `[]` otherwise |
| `Timeouts.DefaultLimit` | monitor/plugin/pMonitor.js:23-25 | an omitted (undefined) limit gives the same result as 10000 |
| `Timeouts.ZeroLimitKeepsNonNegative` | monitor/plugin/pMonitor.js:25-26 | with limit 0, every resource with a non-negative duration is reported |
| `Reporter.FormData.Append` | monitor/plugin/pMonitor.js:33 | `append` adds one field at the end |
| `Reporter.Convert2FormData` | monitor/plugin/pMonitor.js:31-35 | the fresh `FormData` holds one field per key of the data, in key order, with that key's value |
| `Reporter.FormFieldsRoundTrip` | monitor/plugin/pMonitor.js:31-35 | reading a field back from the form body gives the data's value for that key, and `null` for a key the data lacks |
| `Reporter.PostCarriesData` | monitor/plugin/pMonitor.js:126-133 | when the lower-cased method is not "get", the request goes to `url` unchanged; its body carries every key in key order, and each key reads back as its value |
| `Reporter.GetDropsData` | monitor/plugin/pMonitor.js:126-129 | when the method lower-cases to "get", the request has no body and its URL is `url + "?undefined"`, whatever the data |
| `Reporter.DefaultIsPost` | monitor/plugin/pMonitor.js:126-127 | an omitted method is 'POST': the request is identical to one with 'POST', its method is "post" and it has a body |
| `Reporter.MethodIgnoresCase` | monitor/plugin/pMonitor.js:127-129 | two methods that agree after lower-casing give the same request |
| `Scheduler.InvokeThrowsIff` | monitor/plugin/pMonitor.js:164-168 | calling `onload` throws if and only if some handler in the wrapped chain throws: the wrapper catches nothing |
| `Scheduler.WrapperRunsPreviousFirst` | monitor/plugin/pMonitor.js:163-176 | calling the installed handler first produces everything the previous handler produces; if that returns normally, exactly one deferral follows, by `requestIdleCallback` if present and otherwise by `setTimeout`; if it throws, the wrapper defers nothing and throws the same way |
| `Scheduler.PageHandlerRunsFirst` | monitor/plugin/pMonitor.js:164-174 | a page handler set before binding that returns normally runs with the same event, then `logPackage` is deferred, and the call returns normally |
| `Scheduler.ThrowingHandlerStopsReport` | monitor/plugin/pMonitor.js:164-174 | a page handler set before binding that throws runs with the event, and the call throws with no deferral |
| `Scheduler.InvokeNeverFetches` | monitor/plugin/pMonitor.js:165-175 | calling `onload` never issues a request itself: reporting happens only in the deferred callback |
| `Scheduler.InvokePassesEvent` | monitor/plugin/pMonitor.js:165-167 | every earlier handler in the chain receives the event `onload` was called with |
| `Scheduler.ScheduledOncePerBind` | monitor/plugin/pMonitor.js:163-176 | calling `onload` defers `logPackage` once per `bindEvent` that wrapped it, always by the same primitive, when no handler in the chain throws; when one throws, or with no binding, it defers nothing |
| `Monitor.PMonitor.constructor` | monitor/plugin/pMonitor.js:16-20 | loading the module sets `config = {}`, issues nothing, and leaves `onload` alone |
| `Monitor.PMonitor.GetLoadTime` | monitor/plugin/pMonitor.js:44-47 | returns `domComplete` of the first navigation entry when there is one; throws a TypeError exactly when there is none; returns undefined from `base` |
| `Monitor.PMonitor.GetTimeoutRes` | monitor/plugin/pMonitor.js:49-55 | returns the timeout names of the page's resources, and undefined from `base` |
| `Monitor.PMonitor.GetTimes` | monitor/plugin/pMonitor.js:57-64 | returns the metrics object of `performance.timing`, and undefined when there is no `performance` |
| `Monitor.PMonitor.Log` | monitor/plugin/pMonitor.js:126-138 | appends exactly one request, as `BuildRequest` describes it; `base.log` appends nothing |
| `Monitor.PMonitor.LogPackage` | monitor/plugin/pMonitor.js:141-159 | appends exactly the requests of `PackageRequests` for the current config; `base` appends nothing |
| `Monitor.PMonitor.BindEvent` | monitor/plugin/pMonitor.js:163-176 | wraps the current `onload` exactly once; `base` leaves it alone |
| `Monitor.PMonitor.FireLoad` | monitor/plugin/pMonitor.js:164-175 | the load event calls the current `onload`: the trace gains exactly the events of that call, and the call throws exactly when it does |
| `Monitor.PMonitor.Init` | monitor/plugin/pMonitor.js:186-196 | stores `url` and `timeoutUrl` unchanged, `method` defaulting to 'POST' and `timeout` to 10000, then wraps `onload` once. A missing option object throws before anything changes. `base` changes nothing |
| `Monitor.PackageRequestsShape` | monitor/plugin/pMonitor.js:141-159 | `logPackage` issues one or two requests. The first always carries the metrics to `url`. A second, with `{timeoutRes}` to `timeoutUrl`, is issued exactly when some resource reached the limit |
| `Monitor.FastPageOneReport` | monitor/plugin/pMonitor.js:145-158 | one 500 ms resource with limit 10000 gives exactly one report, to `url` |
| `Monitor.SlowResourceTwoReports` | monitor/plugin/pMonitor.js:145-158 | resources of 12000 ms and 300 ms with limit 10000 give the metrics to `url`, then `{timeoutRes: [first name]}` to `timeoutUrl` |
| `Monitor.UnsetConfigUsesDefaults` | monitor/plugin/pMonitor.js:141-148 | `logPackage` before `init` behaves as method 'POST' with limit 10000, reporting to the URL "undefined" |
| `Monitor.WithoutPerformance` | monitor/plugin/pMonitor.js:1-18 | without `performance`, calling init, bindEvent, log and logPackage issues nothing, does not throw and leaves `onload` alone; getTimeoutRes and getLoadTime return undefined |
| `Monitor.ExistingHandlerThenReport` | monitor/plugin/pMonitor.js:163-196 | after `init` on a page with its own `onload`, one trace shows the page handler with the event, then one deferral, then the deferred `logPackage` reporting the metrics to the configured `url` as a POST, and nothing throws |
| `Monitor.ThrowingHandlerNoReport` | monitor/plugin/pMonitor.js:163-196 | after `init` on a page whose own `onload` throws, the load event runs that handler and throws; nothing is deferred and nothing is reported |

## Left out

- monitor/webpack.config.js is not part of this model: it is build configuration only.
- `fetch` itself, its `.catch` and every `console.log` are left out. They are network I/O and diagnostics; a request is an event in the trace.
- The event loop is left out. `requestIdleCallback` and `setTimeout` become a `Scheduled` event, and the deferred `logPackage` runs when a caller invokes `LogPackage`. The browser's dispatch of the load event is `Monitor.PMonitor.FireLoad`, which appends the events of `Scheduler.Invoke` to the trace. Handlers added with `addEventListener` are not modelled.
- Timestamps are integer milliseconds. Floating-point `DOMHighResTimeStamp` values and `NaN` are not modelled; the code only subtracts.
- `FormData.append` converts each value to a string (a number to its decimal form, an array to comma-separated names). The model keeps the value uncoerced.
- Js.Put: `Object.keys` lists array-index keys ("0", "1", …) first, in numeric order. The model keeps insertion order for every key, which is exact for the keys the monitor writes, none of which is an array index.
- A handler that throws is modelled as throwing once it has run; what it did before throwing is one `HandlerRan` event. The browser's reporting of the uncaught exception is left out.
- `toLowerCase` is modelled for ASCII letters only.
- A non-string `method` option would make `toLowerCase` throw. Options of other JavaScript types (`null`, numbers as URLs) are not modelled: a property is either absent or of its documented type.
- Monitor.PMonitor.GetTimes: on an old browser `pm` is `base`, which has no `getTimes`, so `pm.getTimes()` throws. The model returns undefined there instead, which is the branch at lines 58-64 of `getTimes`.
- `performance.getEntriesByType` and `performance.timing` are inputs: the `Performance` value the monitor is built with.
