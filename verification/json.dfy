/** JavaScript values as the handler sees them after JSON parsing, with the
    truthiness, `||` and property-read rules the handler relies on. */
module Json {
  import opened Base

  /** A parsed JSON value; `Undefined` stands for a key that is absent. */
  datatype Value =
    | Undefined
    | Null
    | Bool(b: bool)
    | Num(n: real)
    | Str(s: string)
    | Arr(items: seq<Value>)
    | Obj(members: seq<(string, Value)>)

  /** JavaScript truthiness (JSON cannot carry NaN). */
  predicate Truthy(v: Value) {
    match v
    case Undefined => false
    case Null => false
    case Bool(b) => b
    case Num(n) => n != 0.0
    case Str(s) => s != ""
    case Arr(_) => true
    case Obj(_) => true
  }

  /** `a || b`: one of the operands, truthy exactly when one of them is. */
  function Or(a: Value, b: Value): (r: Value)
    ensures r == a || r == b
    ensures Truthy(r) <==> Truthy(a) || Truthy(b)
    ensures Truthy(a) ==> r == a
  {
    if Truthy(a) then a else b
  }

  /** What `vs[0] || vs[1] || ... || vs[n-1]` evaluates to: the first truthy
      value, or the last value when none is truthy. */
  function FirstTruthy(vs: seq<Value>): (r: Value)
    requires |vs| > 0
    ensures r in vs
    ensures Truthy(r) <==> exists i | 0 <= i < |vs| :: Truthy(vs[i])
    ensures forall i | 0 <= i < |vs| && Truthy(vs[i]) ::
              (forall j | 0 <= j < i :: !Truthy(vs[j])) ==> r == vs[i]
    ensures (forall i | 0 <= i < |vs| :: !Truthy(vs[i])) ==> r == vs[|vs| - 1]
    decreases |vs|
  {
    if |vs| == 1 || Truthy(vs[0]) then vs[0]
    else
      var rest := vs[1..];
      assert forall i | 0 <= i < |rest| :: rest[i] == vs[i + 1];
      FirstTruthy(rest)
  }

  /** Extending a `||` chain on the right: `(vs[0] || ... || vs[n-1]) || v`. */
  lemma {:induction false} OrExtendsChain(vs: seq<Value>, v: Value)
    requires |vs| > 0
    ensures Or(FirstTruthy(vs), v) == FirstTruthy(vs + [v])
    decreases |vs|
  {
    var ws := vs + [v];
    if !Truthy(vs[0]) {
      assert ws[0] == vs[0] && ws[1..] == vs[1..] + [v];
      if |vs| > 1 {
        OrExtendsChain(vs[1..], v);
      }
    }
  }

  /** `a || b || c || d` picks the first truthy operand, else `d`. */
  lemma OrChainOfFour(a: Value, b: Value, c: Value, d: Value)
    ensures Or(Or(Or(a, b), c), d) == FirstTruthy([a, b, c, d])
  {
    assert FirstTruthy([a]) == a;
    OrExtendsChain([a], b);
    assert [a] + [b] == [a, b];
    OrExtendsChain([a, b], c);
    assert [a, b] + [c] == [a, b, c];
    OrExtendsChain([a, b, c], d);
    assert [a, b, c] + [d] == [a, b, c, d];
  }

  /** `a || b` picks `a` when it is truthy, else `b`. */
  lemma OrChainOfTwo(a: Value, b: Value)
    ensures Or(a, b) == FirstTruthy([a, b])
  {
    assert FirstTruthy([a]) == a;
    OrExtendsChain([a], b);
    assert [a] + [b] == [a, b];
  }

  /** The value of member `key` of a parsed object; as with `JSON.parse`, the
      last of several members with that key wins. */
  function Lookup(members: seq<(string, Value)>, key: string): (v: Value)
    ensures (forall i | 0 <= i < |members| :: members[i].0 != key) ==> v == Undefined
    ensures forall i | 0 <= i < |members| && members[i].0 == key ::
              (forall j | i < j < |members| :: members[j].0 != key) ==> v == members[i].1
    decreases |members|
  {
    if |members| == 0 then Undefined
    else
      var last := |members| - 1;
      if members[last].0 == key then members[last].1
      else
        var init := members[..last];
        assert forall i | 0 <= i < last :: init[i] == members[i];
        Lookup(init, key)
  }

  /** `v.key` on a value that is neither `null` nor `undefined`: members of an
      object, and no member of the names the handler reads on anything else. */
  function Field(v: Value, key: string): Value {
    if v.Obj? then Lookup(v.members, key) else Undefined
  }

  /** `null` or `undefined`: the values a property read throws on. */
  predicate Nullish(v: Value) {
    v.Null? || v.Undefined?
  }

  /** Message of the TypeError a property read on `null`/`undefined` throws (V8 wording). */
  function ReadError(what: string, key: string): string {
    "Cannot read properties of " + what + " (reading '" + key + "')"
  }

  /** `v.key`: throws on `null` and `undefined`, reads the member otherwise. */
  function Get(v: Value, key: string): (r: Result<Value, string>)
    ensures r.Failure? <==> Nullish(v)
    ensures r.Success? ==> r.value == Field(v, key)
    ensures Nullish(v) ==> r == Failure(ReadError(if v.Null? then "null" else "undefined", key))
  {
    match v
    case Undefined => Failure(ReadError("undefined", key))
    case Null => Failure(ReadError("null", key))
    case _ => Success(Field(v, key))
  }
}
