/** JavaScript values as the monitor sees them: `undefined`, plain objects
    whose keys keep insertion order, string coercion and ASCII lower-casing. */
module Js {

  /** `None` stands for JavaScript's `undefined`. */
  datatype Option<+T> = None | Some(value: T) {
    /** A default parameter `(x = d)`: `d` replaces `undefined`. */
    function GetOr(default: T): T {
      match this
      case Some(v) => v
      case None => default
    }
  }

  /** How a call finished: with a value, or by throwing a `TypeError`. */
  datatype Completion<+T> = Normal(value: T) | TypeError

  /** String coercion as done by a template literal or by `fetch` on its
      first argument: `undefined` becomes the text "undefined". */
  function JsString(s: Option<string>): string {
    s.GetOr("undefined")
  }

  /** The values stored in the objects the monitor builds: a number of
      milliseconds, or an array of resource names. */
  datatype Value = Num(ms: int) | NameList(names: seq<string>)

  predicate Distinct(keys: seq<string>) {
    forall i, j :: 0 <= i < j < |keys| ==> keys[i] != keys[j]
  }

  /** A plain object: `keys` is the order `Object.keys` reports (insertion
      order), `values` the property lookup. */
  datatype RawObject = RawObject(keys: seq<string>, values: map<string, Value>) {
    ghost predicate Valid() {
      Distinct(keys) && forall k :: k in values <==> k in keys
    }
  }

  type JsObject = o: RawObject | o.Valid() witness RawObject([], map[])

  /** The object literal `{}`. */
  const Empty: JsObject := RawObject([], map[])

  /** The assignment `o.k = v` for a key that is not an array index (every
      key the monitor writes): a new key goes last, an existing key keeps its
      place. */
  function Put(o: JsObject, k: string, v: Value): (r: JsObject)
    ensures k in o.keys ==> r.keys == o.keys
    ensures k !in o.keys ==> r.keys == o.keys + [k]
    ensures r.values == o.values[k := v]
  {
    if k in o.keys then RawObject(o.keys, o.values[k := v])
    else
      var r := RawObject(o.keys + [k], o.values[k := v]);
      assert forall i :: 0 <= i < |o.keys| ==> r.keys[i] == o.keys[i];
      r
  }

  function KeysOf(assignments: seq<(string, Value)>): seq<string> {
    seq(|assignments|, i requires 0 <= i < |assignments| => assignments[i].0)
  }

  /** A run of assignments `o.k1 = v1; o.k2 = v2; ...`, in order. */
  function PutAll(o: JsObject, assignments: seq<(string, Value)>): JsObject
    decreases |assignments|
  {
    if assignments == [] then o
    else PutAll(Put(o, assignments[0].0, assignments[0].1), assignments[1..])
  }

  predicate FreshKeys(o: JsObject, assignments: seq<(string, Value)>) {
    Distinct(KeysOf(assignments)) &&
    forall i :: 0 <= i < |assignments| ==> assignments[i].0 !in o.keys
  }

  /** The first of a run of fresh assignments leaves the rest fresh for the
      object it produces. */
  lemma PutFirstKeepsFresh(o: JsObject, assignments: seq<(string, Value)>)
    requires assignments != [] && FreshKeys(o, assignments)
    ensures FreshKeys(Put(o, assignments[0].0, assignments[0].1), assignments[1..])
    ensures Put(o, assignments[0].0, assignments[0].1).keys == o.keys + [assignments[0].0]
    ensures KeysOf(assignments) == [assignments[0].0] + KeysOf(assignments[1..])
  {
    var keys := KeysOf(assignments);
    var rest := assignments[1..];
    assert KeysOf(rest) == keys[1..];
    assert keys == [keys[0]] + keys[1..];
    forall i | 0 <= i < |rest|
      ensures rest[i].0 !in Put(o, assignments[0].0, assignments[0].1).keys
    {
      assert rest[i].0 == keys[i + 1] != keys[0];
    }
  }

  /** Assigning distinct keys the object does not have appends them in order. */
  lemma {:induction false} PutAllKeys(o: JsObject, assignments: seq<(string, Value)>)
    requires FreshKeys(o, assignments)
    ensures PutAll(o, assignments).keys == o.keys + KeysOf(assignments)
    decreases |assignments|
  {
    if assignments != [] {
      var k := assignments[0].0;
      var o' := Put(o, k, assignments[0].1);
      PutFirstKeepsFresh(o, assignments);
      PutAllKeys(o', assignments[1..]);
      var keys := KeysOf(assignments);
      assert keys == [k] + KeysOf(assignments[1..]);
      assert o.keys + keys == (o.keys + [k]) + KeysOf(assignments[1..]);
    }
  }

  /** ... and each of them ends up holding the value assigned to it. */
  lemma {:induction false} PutAllValues(o: JsObject, assignments: seq<(string, Value)>, i: nat)
    requires FreshKeys(o, assignments) && i < |assignments|
    ensures assignments[i].0 in PutAll(o, assignments).values
    ensures PutAll(o, assignments).values[assignments[i].0] == assignments[i].1
    decreases |assignments|
  {
    var o' := Put(o, assignments[0].0, assignments[0].1);
    PutFirstKeepsFresh(o, assignments);
    if i == 0 {
      PutAllUntouched(o', assignments[1..], assignments[0].0);
    } else {
      PutAllValues(o', assignments[1..], i - 1);
    }
  }

  /** Properties the run does not assign keep their values. */
  lemma {:induction false} PutAllUntouched(o: JsObject, assignments: seq<(string, Value)>, k: string)
    requires FreshKeys(o, assignments) && k in o.values
    ensures k in PutAll(o, assignments).values
    ensures PutAll(o, assignments).values[k] == o.values[k]
    decreases |assignments|
  {
    if assignments != [] {
      var o' := Put(o, assignments[0].0, assignments[0].1);
      PutFirstKeepsFresh(o, assignments);
      assert k != assignments[0].0;
      PutAllUntouched(o', assignments[1..], k);
    }
  }

  /** ASCII lower-casing, as `toLowerCase` does on ASCII text. */
  function LowerChar(c: char): char {
    if 'A' <= c <= 'Z' then (c as int - 'A' as int + 'a' as int) as char else c
  }

  function ToLower(s: string): string {
    seq(|s|, i requires 0 <= i < |s| => LowerChar(s[i]))
  }
}
