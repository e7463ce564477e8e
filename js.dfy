/** Loosely shaped JSON values as the client receives them from the backend, with the few
    JavaScript operators the normalising code applies to them: truthiness, `||`, `??`,
    property access with and without `?.`, `typeof ... === 'number'`, `Array.isArray` and
    `String(...)`. Numbers are integers here. */
module Js {
  import opened Common

  datatype Value =
    | Undefined
    | Null
    | Str(s: string)
    | Num(n: int)
    | Bool(b: bool)
    | Arr(items: seq<Value>)
    | Obj(fields: map<string, Value>)

  /** A sample post: one of the static objects of the sample data, as its fields. */
  type Sample = map<string, Value>

  /** `undefined` and `null`, the values `??` and `?.` look for. */
  predicate Nullish(v: Value) {
    v.Undefined? || v.Null?
  }

  /** JavaScript truthiness: `undefined`, `null`, `''`, `0` and `false` are falsy; arrays
      and objects, even empty ones, are truthy. */
  predicate JsTruthy(v: Value) {
    match v
    case Undefined => false
    case Null => false
    case Str(s) => s != ""
    case Num(n) => n != 0
    case Bool(b) => b
    case Arr(_) => true
    case Obj(_) => true
  }

  /** `a || b` */
  function JsOr(a: Value, b: Value): (r: Value)
    ensures JsTruthy(a) ==> r == a
    ensures !JsTruthy(a) ==> r == b
  {
    if JsTruthy(a) then a else b
  }

  /** `a ?? b` */
  function Coalesce(a: Value, b: Value): (r: Value)
    ensures !Nullish(a) ==> r == a
    ensures Nullish(a) ==> r == b
  {
    if Nullish(a) then b else a
  }

  /** `v.key` on a value that is not `null` or `undefined`: an object's own entry (or
      `undefined`), the `length` of an array or a string, and `undefined` otherwise. */
  function Prop(v: Value, key: string): (r: Value)
    ensures v.Obj? && key in v.fields ==> r == v.fields[key]
    ensures v.Obj? && key !in v.fields ==> r.Undefined?
    ensures v.Arr? ==> r == (if key == "length" then Num(|v.items|) else Undefined)
    ensures v.Str? ==> r == (if key == "length" then Num(|v.s|) else Undefined)
  {
    match v
    case Obj(fields) => if key in fields then fields[key] else Undefined
    case Arr(items) => if key == "length" then Num(|items|) else Undefined
    case Str(s) => if key == "length" then Num(|s|) else Undefined
    case _ => Undefined
  }

  /** `v?.key`: `undefined` when `v` is `null` or `undefined`. */
  function OptProp(v: Value, key: string): (r: Value)
    ensures Nullish(v) ==> r.Undefined?
    ensures !Nullish(v) ==> r == Prop(v, key)
  {
    if Nullish(v) then Undefined else Prop(v, key)
  }

  /** `v.key` where `v` may be `null` or `undefined`, which throws a `TypeError`. */
  function Get(v: Value, key: string): (r: Option<Value>)
    ensures r.None? <==> Nullish(v)
    ensures r.Some? ==> r.value == Prop(v, key)
  {
    if Nullish(v) then None else Some(Prop(v, key))
  }

  /** `String(n)` for an integer. */
  function IntToString(n: int): (r: string)
    ensures n >= 0 ==> r == NatToString(n)
    ensures n < 0 ==> r == "-" + NatToString(-n)
  {
    if n < 0 then "-" + NatToString(-n) else NatToString(n)
  }

  /** `String(v)`. */
  function ToString(v: Value): string
    decreases v, 1
  {
    match v
    case Undefined => "undefined"
    case Null => "null"
    case Str(s) => s
    case Num(n) => IntToString(n)
    case Bool(b) => if b then "true" else "false"
    case Arr(items) => JoinItems(v, items)
    case Obj(_) => "[object Object]"
  }

  /** `items.join(',')` as `String` of an array renders it: `null` and `undefined` items
      become empty. */
  function JoinItems(ghost whole: Value, items: seq<Value>): string
    requires forall i :: 0 <= i < |items| ==> items[i] < whole
    decreases whole, 0, |items|
  {
    if items == [] then ""
    else
      var first := if Nullish(items[0]) then "" else ToString(items[0]);
      if |items| == 1 then first else first + "," + JoinItems(whole, items[1..])
  }

  // ---------------------------------------------------------------------------
  // JSON text
  // ---------------------------------------------------------------------------

  /** Whether `undefined` occurs anywhere in the value, at the top or nested. */
  predicate NoUndefined(v: Value) {
    match v
    case Undefined => false
    case Arr(items) => forall i :: 0 <= i < |items| ==> NoUndefined(items[i])
    case Obj(fields) => forall k :: k in fields ==> NoUndefined(fields[k])
    case _ => true
  }

  /** `JSON.parse(JSON.stringify(v))` for a value nested in an array or an object: an
      `undefined` array item comes back as `null`, an object entry whose value is
      `undefined` is dropped, and everything else comes back as it was. */
  function Reparsed(v: Value): Value {
    match v
    case Undefined => Null
    case Arr(items) => Arr(seq(|items|, i requires 0 <= i < |items| => Reparsed(items[i])))
    case Obj(fields) => Obj(map k | k in fields && !fields[k].Undefined? :: Reparsed(fields[k]))
    case _ => v
  }

  /** `JSON.stringify(v)` parsed back at the top level: a top-level `undefined` gives no
      JSON text at all. */
  function JsonRoundTrip(v: Value): Option<Value> {
    if v.Undefined? then None else Some(Reparsed(v))
  }

  /** A nested value comes back unchanged exactly when it holds no `undefined`. */
  lemma {:induction false} ReparsedIdentity(v: Value)
    ensures Reparsed(v) == v <==> NoUndefined(v)
  {
    match v
    case Undefined =>
    case Arr(items) =>
      var back := seq(|items|, i requires 0 <= i < |items| => Reparsed(items[i]));
      assert Reparsed(v) == Arr(back);
      forall i | 0 <= i < |items| {
        ReparsedIdentity(items[i]);
      }
      if NoUndefined(v) {
        assert back == items;
      } else {
        var i :| 0 <= i < |items| && !NoUndefined(items[i]);
        assert back[i] != items[i];
      }
    case Obj(fields) =>
      var back := map k | k in fields && !fields[k].Undefined? :: Reparsed(fields[k]);
      assert Reparsed(v) == Obj(back);
      forall k | k in fields {
        ReparsedIdentity(fields[k]);
      }
      if NoUndefined(v) {
        assert back == fields;
      } else {
        var k :| k in fields && !NoUndefined(fields[k]);
        if fields[k].Undefined? {
          assert k !in back;
        } else {
          assert back[k] != fields[k];
        }
      }
    case Null =>
    case Str(_) =>
    case Num(_) =>
    case Bool(_) =>
  }

  /** The JSON text of a value reads back as that value exactly when it holds no
      `undefined`. */
  lemma JsonRoundTripIff(v: Value)
    ensures JsonRoundTrip(v) == Some(v) <==> NoUndefined(v)
    ensures JsonRoundTrip(v).None? <==> v.Undefined?
  {
    if !v.Undefined? {
      ReparsedIdentity(v);
    }
  }

  /** What JSON loses, on concrete values: an `undefined` entry vanishes, an `undefined`
      item becomes `null`, and a nested `null` survives. */
  lemma JsonLosses()
    ensures JsonRoundTrip(Obj(map["image" := Undefined])) == Some(Obj(map[]))
    ensures JsonRoundTrip(Arr([Undefined, Num(1)])) == Some(Arr([Null, Num(1)]))
    ensures JsonRoundTrip(Obj(map["image" := Null])) == Some(Obj(map["image" := Null]))
  {
    var back := seq(2, i requires 0 <= i < 2 => Reparsed([Undefined, Num(1)][i]));
    assert back == [Null, Num(1)];
    var m := map["image" := Undefined];
    assert forall k :: k !in Reparsed(Obj(m)).fields;
    var n := map["image" := Null];
    var nb := map k | k in n && !n[k].Undefined? :: Reparsed(n[k]);
    assert nb == n;
  }
}
