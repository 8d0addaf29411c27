/** `log`: how one report becomes a `fetch` request. A POST carries the data
    as a form body; a GET puts what `makerItStr` returns after a `?`. */
module Reporter {
  import opened Js

  /** The browser's `FormData`: an ordered list of named fields. */
  class FormData {
    var entries: seq<(string, Value)>

    constructor ()
      ensures entries == []
    {
      entries := [];
    }

    /** `formData.append(name, value)`: a new field at the end. */
    method Append(name: string, value: Value)
      modifies this
      ensures entries == old(entries) + [(name, value)]
    {
      entries := entries + [(name, value)];
    }
  }

  /** The fields a form body holds for `data`: one per key, in key order. */
  function FormFields(data: JsObject): seq<(string, Value)> {
    seq(|data.keys|, i requires 0 <= i < |data.keys| => (data.keys[i], data.values[data.keys[i]]))
  }

  /** `convert2FormData`: append every key of `data` with its value, in the
      order of `Object.keys`. */
  method Convert2FormData(data: JsObject) returns (formData: FormData)
    ensures fresh(formData)
    ensures formData.entries == FormFields(data)
  {
    formData := new FormData();
    var keys := data.keys;
    for i := 0 to |keys|
      invariant formData.entries == FormFields(data)[..i]
    {
      formData.Append(keys[i], data.values[keys[i]]);
      assert FormFields(data)[..i + 1] == FormFields(data)[..i] + [(keys[i], data.values[keys[i]])];
    }
    assert FormFields(data)[..|keys|] == FormFields(data);
  }

  /** `formData.get(name)`: the first field of that name, `None` for `null`. */
  function FormGet(entries: seq<(string, Value)>, name: string): Option<Value> {
    if entries == [] then None
    else if entries[0].0 == name then Some(entries[0].1)
    else FormGet(entries[1..], name)
  }

  /** A field found at index i with no earlier field of its name is what `get` returns. */
  lemma {:induction false} FormGetFirst(entries: seq<(string, Value)>, i: nat)
    requires i < |entries|
    requires forall j :: 0 <= j < i ==> entries[j].0 != entries[i].0
    ensures FormGet(entries, entries[i].0) == Some(entries[i].1)
  {
    if i > 0 {
      FormGetFirst(entries[1..], i - 1);
    }
  }

  /** A name no field carries gives `null`. */
  lemma {:induction false} FormGetAbsent(entries: seq<(string, Value)>, name: string)
    requires forall j :: 0 <= j < |entries| ==> entries[j].0 != name
    ensures FormGet(entries, name) == None
  {
    if entries != [] {
      FormGetAbsent(entries[1..], name);
    }
  }

  /** Reading the form body back gives the object it was built from: every
      key with its value, and nothing else. */
  lemma FormFieldsRoundTrip(data: JsObject, name: string)
    ensures |FormFields(data)| == |data.keys|
    ensures FormGet(FormFields(data), name) ==
      if name in data.values then Some(data.values[name]) else None
  {
    var fields := FormFields(data);
    if name in data.values {
      var i :| 0 <= i < |data.keys| && data.keys[i] == name;
      FormGetFirst(fields, i);
    } else {
      FormGetAbsent(fields, name);
    }
  }

  /** `makerItStr`: the arrow passed to `map` has a block body without
      `return`, and the function itself returns nothing, so the result is
      `undefined` whatever `data` holds. */
  function MakerItStr(data: JsObject): Option<string> {
    None
  }

  /** The arguments `log` hands to `fetch`: the URL, the lower-cased method,
      and the form body (`None` when the option object has no `body`). */
  datatype Request = Request(url: string, verb: string, body: Option<seq<(string, Value)>>)

  /** `log(url, data = {}, type = 'POST')`, as the request it issues. */
  function BuildRequest(url: Option<string>, data: Option<JsObject>, requestType: Option<string>): Request {
    var verb := ToLower(requestType.GetOr("POST"));
    var d := data.GetOr(Empty);
    if verb == "get" then Request(JsString(url) + "?" + JsString(MakerItStr(d)), verb, None)
    else Request(JsString(url), verb, Some(FormFields(d)))
  }

  /** A non-GET report goes to `url` unchanged, carries every key of the data
      in key order with its value, and the method keeps its case-folded name. */
  lemma PostCarriesData(url: Option<string>, data: JsObject, requestType: Option<string>)
    requires ToLower(requestType.GetOr("POST")) != "get"
    ensures BuildRequest(url, Some(data), requestType).url == JsString(url)
    ensures BuildRequest(url, Some(data), requestType).body.Some?
    ensures var fields := BuildRequest(url, Some(data), requestType).body.value;
      |fields| == |data.keys| &&
      (forall i :: 0 <= i < |fields| ==> fields[i].0 == data.keys[i]) &&
      forall name :: FormGet(fields, name) ==
        if name in data.values then Some(data.values[name]) else None
  {
    forall name ensures FormGet(FormFields(data), name) ==
      if name in data.values then Some(data.values[name]) else None
    {
      FormFieldsRoundTrip(data, name);
    }
  }

  /** A GET report, whatever the case of its method, has no body and the URL
      `url + "?undefined"`: the data never reaches the request. */
  lemma GetDropsData(url: Option<string>, d1: JsObject, d2: JsObject, requestType: string)
    requires ToLower(requestType) == "get"
    ensures BuildRequest(url, Some(d1), Some(requestType)) == BuildRequest(url, Some(d2), Some(requestType))
    ensures BuildRequest(url, Some(d1), Some(requestType)).url == JsString(url) + "?undefined"
    ensures BuildRequest(url, Some(d1), Some(requestType)).body == None
  {
  }

  /** Without a method the report is a POST. */
  lemma DefaultIsPost(url: Option<string>, data: Option<JsObject>)
    ensures BuildRequest(url, data, None) == BuildRequest(url, data, Some("POST"))
    ensures BuildRequest(url, data, None).verb == "post"
    ensures BuildRequest(url, data, None).body.Some?
  {
  }

  /** Only the case-folded method matters. */
  lemma MethodIgnoresCase(url: Option<string>, data: Option<JsObject>, m1: string, m2: string)
    requires ToLower(m1) == ToLower(m2)
    ensures BuildRequest(url, data, Some(m1)) == BuildRequest(url, data, Some(m2))
  {
  }
}
