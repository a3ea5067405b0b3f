/** Plain JavaScript objects as the client manipulates them: own string-keyed
    properties in insertion order, property assignment, and object spread
    (`{ ...a, ...b }`). */
module JsObjects {
  import opened Strings

  /** The values the client handles: filter values and decoded JSON bodies.
      Numbers are integral. */
  datatype JsValue = Undefined | Null | Str(s: string) | Num(n: int) | Obj(fields: seq<(string, JsValue)>)

  const ObjectText: string := "[object Object]"

  /** `String(value)`, which is also what a template literal inserts. */
  function ToJsString(v: JsValue): (r: string)
    ensures v.Str? ==> r == v.s
    ensures v.Num? ==> r == IntToString(v.n)
    ensures v.Undefined? ==> r == "undefined"
    ensures v.Null? ==> r == "null"
    ensures v.Obj? ==> r == ObjectText
  {
    match v
    case Undefined => "undefined"
    case Null => "null"
    case Str(s) => s
    case Num(n) => IntToString(n)
    case Obj(_) => ObjectText
  }

  /** An object's own properties, in insertion order (`Object.entries`). */
  type JsObject = seq<(string, JsValue)>

  predicate Has(o: JsObject, key: string) {
    exists i :: 0 <= i < |o| && o[i].0 == key
  }

  /** No key is listed twice, as in any real object. */
  predicate WellFormed(o: JsObject) {
    forall i, j :: 0 <= i < j < |o| ==> o[i].0 != o[j].0
  }

  /** `o[key]`: `undefined` for a missing key. */
  function Get(o: JsObject, key: string): (v: JsValue)
    ensures !Has(o, key) ==> v == Undefined
    ensures Has(o, key) ==> exists i :: 0 <= i < |o| && o[i].0 == key && o[i].1 == v
  {
    if o == [] then Undefined
    else if o[0].0 == key then o[0].1
    else
      assert forall i :: 1 <= i < |o| ==> o[1..][i - 1] == o[i];
      Get(o[1..], key)
  }

  /** `o[key] = v`: an existing key keeps its place, a new one goes last. */
  function Assign(o: JsObject, key: string, v: JsValue): (r: JsObject)
    ensures !Has(o, key) ==> r == o + [(key, v)]
    ensures Has(o, key) ==> |r| == |o|
    ensures forall i :: 0 <= i < |o| ==> r[i].0 == o[i].0
  {
    if o == [] then [(key, v)]
    else if o[0].0 == key then [(key, v)] + o[1..]
    else
      assert forall i :: 1 <= i < |o| ==> o[1..][i - 1] == o[i];
      [o[0]] + Assign(o[1..], key, v)
  }

  /** After `o[key] = v` the object has exactly its old keys and `key`. */
  lemma AssignKeys(o: JsObject, key: string, v: JsValue, k: string)
    ensures Has(Assign(o, key, v), k) <==> Has(o, k) || k == key
  {
    var r := Assign(o, key, v);
    if Has(o, key) {
      var j :| 0 <= j < |o| && o[j].0 == key;
      assert r[j].0 == key;
    } else {
      assert r[|o|].0 == key;
    }
    if Has(o, k) {
      var j :| 0 <= j < |o| && o[j].0 == k;
      assert r[j].0 == k;
    }
    if Has(r, k) && !Has(o, k) {
      var j :| 0 <= j < |r| && r[j].0 == k;
      if j >= |o| {
        assert r[j] == (key, v);
      }
    }
  }

  /** `o[key] = v` reads back `v` at `key` and leaves every other key alone. */
  lemma {:induction false} AssignGet(o: JsObject, key: string, v: JsValue, k: string)
    ensures Get(Assign(o, key, v), k) == if k == key then v else Get(o, k)
  {
    if o != [] && o[0].0 != key {
      AssignGet(o[1..], key, v, k);
    }
  }

  /** Assignment never duplicates a key. */
  lemma {:induction false} AssignWellFormed(o: JsObject, key: string, v: JsValue)
    requires WellFormed(o)
    ensures WellFormed(Assign(o, key, v))
  {
    var r := Assign(o, key, v);
    if !Has(o, key) {
      forall i, j | 0 <= i < j < |r| ensures r[i].0 != r[j].0 {
        if j == |o| {
          assert r[i].0 == o[i].0;
        }
      }
    }
  }

  /** `{ ...a, ...b }`: `b`'s properties assigned onto a copy of `a`, in `b`'s
      order, an explicitly `undefined` one included. */
  function Spread(a: JsObject, b: JsObject): (r: JsObject)
    ensures |r| >= |a| && forall i :: 0 <= i < |a| ==> r[i].0 == a[i].0
    decreases |b|
  {
    if b == [] then a
    else Spread(Assign(a, b[0].0, b[0].1), b[1..])
  }

  /** A spread has exactly the keys of both objects, and none twice. */
  lemma {:induction false} SpreadKeys(a: JsObject, b: JsObject, k: string)
    ensures Has(Spread(a, b), k) <==> Has(a, k) || Has(b, k)
    ensures WellFormed(a) ==> WellFormed(Spread(a, b))
    decreases |b|
  {
    if b != [] {
      var tail := b[1..];
      assert forall i :: 1 <= i < |b| ==> tail[i - 1] == b[i];
      AssignKeys(a, b[0].0, b[0].1, k);
      if WellFormed(a) {
        AssignWellFormed(a, b[0].0, b[0].1);
      }
      SpreadKeys(Assign(a, b[0].0, b[0].1), tail, k);
      assert Has(b, k) <==> b[0].0 == k || Has(tail, k);
    }
  }

  /** After a spread a key reads from `b` if `b` has it, and from `a` otherwise. */
  lemma {:induction false} SpreadGet(a: JsObject, b: JsObject, key: string)
    requires WellFormed(b)
    ensures Get(Spread(a, b), key) == if Has(b, key) then Get(b, key) else Get(a, key)
    decreases |b|
  {
    if b != [] {
      var tail := b[1..];
      assert forall i :: 1 <= i < |b| ==> tail[i - 1] == b[i];
      assert WellFormed(tail);
      SpreadGet(Assign(a, b[0].0, b[0].1), tail, key);
      AssignGet(a, b[0].0, b[0].1, key);
      if key == b[0].0 {
        assert !Has(tail, key);
      } else {
        assert Has(b, key) <==> Has(tail, key);
        if Has(tail, key) {
          assert Get(b, key) == Get(tail, key);
        }
      }
    }
  }
}
