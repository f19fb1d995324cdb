/**
 * Decoded JSON values as the API client hands them to the services, with the
 * pieces of Python semantics the services rely on: truthiness, `dict.get`,
 * `str()` of a value, and the hashable projection used for de-duplication.
 */
module JsonValue {
  import opened Wrappers

  /** A decoded JSON document. Objects are unordered, as Python dict equality is. */
  datatype Json =
    | JNull
    | JBool(b: bool)
    | JInt(n: int)
    | JStr(s: string)
    | JArr(items: seq<Json>)
    | JObj(fields: map<string, Json>)

  /** Python's `bool(value)`. */
  predicate Truthy(j: Json)
  {
    match j
    case JNull => false
    case JBool(b) => b
    case JInt(n) => n != 0
    case JStr(s) => s != ""
    case JArr(items) => items != []
    case JObj(fields) => fields != map[]
  }

  /** Python's `d.get(key, default)`. */
  function Get(d: map<string, Json>, key: string, default: Json): (r: Json)
    ensures key in d ==> r == d[key]
    ensures key !in d ==> r == default
  {
    if key in d then d[key] else default
  }

  predicate IsDigit(c: char) { '0' <= c <= '9' }

  function DigitChar(d: nat): (c: char)
    requires d < 10
    ensures IsDigit(c)
  {
    "0123456789"[d]
  }

  /** Decimal rendering of a natural number, as Python's `str(n)`. */
  function NatToString(n: nat): (r: string)
    ensures |r| > 0
    ensures forall i :: 0 <= i < |r| ==> IsDigit(r[i])
    ensures n < 10 <==> |r| == 1
    decreases n
  {
    if n < 10 then [DigitChar(n)] else NatToString(n / 10) + [DigitChar(n % 10)]
  }

  /** Decimal rendering of an integer, with a leading `-` when negative. */
  function IntToString(n: int): (r: string)
    ensures |r| > 0
    ensures n >= 0 <==> r[0] != '-'
  {
    if n < 0 then "-" + NatToString(-n) else NatToString(n)
  }

  /** The value of the digit string `s`: the inverse of `NatToString`. */
  function DigitsValue(s: string): nat
    requires forall i :: 0 <= i < |s| ==> IsDigit(s[i])
  {
    if s == [] then 0
    else
      assert IsDigit(s[|s| - 1]);
      DigitsValue(s[..|s| - 1]) * 10 + (s[|s| - 1] as int - '0' as int)
  }

  lemma {:induction false} NatToStringRoundTrip(n: nat)
    ensures DigitsValue(NatToString(n)) == n
    decreases n
  {
    var r := NatToString(n);
    if n >= 10 {
      NatToStringRoundTrip(n / 10);
      assert r[..|r| - 1] == NatToString(n / 10);
    }
  }

  /** Distinct numbers render differently: page numbers in a path are unambiguous. */
  lemma NatToStringInjective(m: nat, n: nat)
    requires NatToString(m) == NatToString(n)
    ensures m == n
  {
    NatToStringRoundTrip(m);
    NatToStringRoundTrip(n);
  }

  /**
   * Python's `str(value)` for the scalar values the services put into paths
   * and display strings: `None`, `True`/`False`, decimal integers, strings as
   * they are. Lists and objects get a fixed placeholder (see README).
   */
  function Display(j: Json): string
  {
    match j
    case JNull => "None"
    case JBool(b) => if b then "True" else "False"
    case JInt(n) => IntToString(n)
    case JStr(s) => s
    case JArr(_) => "[...]"
    case JObj(_) => "{...}"
  }

  /**
   * The hashable projection `__make_hashable__` builds: dicts become frozen
   * sets of (key, projection) pairs (a map, since dict keys are unique),
   * lists become tuples, scalars stay. Python compares `True == 1` and
   * `False == 0`, and hashes them alike, so booleans project onto integers.
   */
  datatype Key =
    | KNone
    | KInt(n: int)
    | KStr(s: string)
    | KTuple(items: seq<Key>)
    | KFrozen(pairs: map<string, Key>)

  function MakeHashable(j: Json): Key
  {
    match j
    case JNull => KNone
    case JBool(b) => KInt(if b then 1 else 0)
    case JInt(n) => KInt(n)
    case JStr(s) => KStr(s)
    case JArr(items) => KTuple(seq(|items|, i requires 0 <= i < |items| => MakeHashable(items[i])))
    case JObj(fields) => KFrozen(map k | k in fields :: MakeHashable(fields[k]))
  }

  /** A value with no boolean anywhere inside it. */
  predicate BoolFree(j: Json)
  {
    match j
    case JBool(_) => false
    case JArr(items) => forall i :: 0 <= i < |items| ==> BoolFree(items[i])
    case JObj(fields) => forall k :: k in fields ==> BoolFree(fields[k])
    case _ => true
  }

  /**
   * On values without booleans, two values have the same hashable projection
   * exactly when they are structurally equal: de-duplication then compares
   * records by full structural equality.
   */
  lemma {:induction false} MakeHashableInjective(a: Json, b: Json)
    requires BoolFree(a) && BoolFree(b)
    ensures MakeHashable(a) == MakeHashable(b) <==> a == b
    decreases a
  {
    if MakeHashable(a) == MakeHashable(b) {
      match a
      case JNull =>
      case JInt(_) =>
      case JStr(_) =>
      case JArr(xs) =>
        var ys := b.items;
        assert |xs| == |MakeHashable(a).items| == |MakeHashable(b).items| == |ys|;
        forall i | 0 <= i < |xs| ensures xs[i] == ys[i] {
          assert MakeHashable(a).items[i] == MakeHashable(b).items[i];
          MakeHashableInjective(xs[i], ys[i]);
        }
      case JObj(m) =>
        var n := b.fields;
        assert m.Keys == MakeHashable(a).pairs.Keys == MakeHashable(b).pairs.Keys == n.Keys;
        forall k | k in m ensures m[k] == n[k] {
          assert MakeHashable(a).pairs[k] == MakeHashable(b).pairs[k];
          MakeHashableInjective(m[k], n[k]);
        }
    }
  }

  /** With booleans the projection is coarser: `{"a": true}` and `{"a": 1}` collide. */
  lemma BoolIntCollide()
    ensures JObj(map["a" := JBool(true)]) != JObj(map["a" := JInt(1)])
    ensures MakeHashable(JObj(map["a" := JBool(true)])) == MakeHashable(JObj(map["a" := JInt(1)]))
  {
    var m1 := map["a" := JBool(true)];
    var m2 := map["a" := JInt(1)];
    assert m1["a"] != m2["a"];
    assert MakeHashable(JObj(m1)).pairs == MakeHashable(JObj(m2)).pairs;
  }

  // ---------------------------------------------------------------------------
  // Operators the services apply to response values

  /**
   * The elements `list.extend(v)` takes from `v`: the items of a list, the
   * characters of a string as one-character strings. `None` when `v` is not
   * iterable (TypeError), and for an object, whose key order is not modelled.
   */
  function Elements(v: Json): (r: Option<seq<Json>>)
    ensures v.JArr? ==> r == Some(v.items)
    ensures r.None? <==> !v.JArr? && !v.JStr?
    ensures v.JStr? ==> r.Some? && |r.value| == |v.s| && forall i :: 0 <= i < |v.s| ==> r.value[i] == JStr([v.s[i]])
  {
    match v
    case JArr(items) => Some(items)
    case JStr(s) => Some(seq(|s|, i requires 0 <= i < |s| => JStr([s[i]])))
    case _ => None
  }

  /** Python's `n < v` for an integer `n`; `None` when the comparison raises TypeError. */
  function LessThan(n: int, v: Json): Option<bool>
  {
    match v
    case JInt(m) => Some(n < m)
    case JBool(b) => Some(n < if b then 1 else 0)
    case _ => None
  }

  /** Python's `v + 1`; `None` when the addition raises TypeError (as for `None + 1`). */
  function PlusOne(v: Json): Option<Json>
  {
    match v
    case JInt(m) => Some(JInt(m + 1))
    case JBool(b) => Some(JInt(if b then 2 else 1))
    case _ => None
  }

  /** The integer Python sees in a value that takes part in arithmetic: an int, or a bool as 0 or 1. */
  function Number(v: Json): Option<int>
  {
    match v
    case JInt(m) => Some(m)
    case JBool(b) => Some(if b then 1 else 0)
    case _ => None
  }

  /**
   * `n < v`, `v + 1` and `bool(v)` on a number are the integer operations on
   * the number it holds, and both operators raise TypeError on every other
   * value.
   */
  lemma NumericOperators(n: int, v: Json)
    ensures Number(v).None? ==> LessThan(n, v).None? && PlusOne(v).None?
    ensures Number(v).Some? ==>
      LessThan(n, v) == Some(n < Number(v).value) &&
      PlusOne(v) == Some(JInt(Number(v).value + 1)) &&
      (Truthy(v) <==> Number(v).value != 0)
  {
  }

  /** A total that a non-negative count is still below is truthy, and `+ 1` moves past it. */
  lemma BelowTotalIsTruthy(n: nat, v: Json)
    requires LessThan(n, v) == Some(true)
    ensures Truthy(v) && Number(v).Some? && n < Number(v).value
    ensures PlusOne(v).Some? && LessThan(Number(v).value, PlusOne(v).value) == Some(true)
  {
  }

  /** A list or a string is truthy exactly when `list.extend` takes something from it. */
  lemma TruthyIsNonEmpty(v: Json)
    requires v.JArr? || v.JStr?
    ensures Elements(v).Some? && (Truthy(v) <==> Elements(v).value != [])
  {
  }

  /**
   * `str()` of an integer reads back: a non-negative number is its digits,
   * a negative one a `-` and the digits of its magnitude.
   */
  lemma DisplayIntReadsBack(n: int)
    ensures n >= 0 ==>
      (forall i :: 0 <= i < |Display(JInt(n))| ==> IsDigit(Display(JInt(n))[i])) &&
      DigitsValue(Display(JInt(n))) == n
    ensures n < 0 ==>
      Display(JInt(n))[0] == '-' &&
      (forall i :: 1 <= i < |Display(JInt(n))| ==> IsDigit(Display(JInt(n))[i])) &&
      DigitsValue(Display(JInt(n))[1..]) == -n
  {
    if n >= 0 {
      NatToStringRoundTrip(n);
    } else {
      var d := NatToString(-n);
      NatToStringRoundTrip(-n);
      assert Display(JInt(n))[1..] == d;
    }
  }
}
