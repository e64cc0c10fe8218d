/** JSON values as Python's `json.loads` produces them, and the few Python
    operations on them that the engine relies on: dict lookup and
    assignment (insertion order kept), truthiness, `str()`, iteration, and
    arithmetic with Python's int/float promotion. */
module Json {
  import opened Strings

  datatype Option<+T> = None | Some(value: T)

  /** A Python exception that escapes to the top level of the run. */
  datatype Outcome<+T> = Ok(value: T) | Crash(reason: string) {
    predicate IsFailure() { Crash? }
    function PropagateFailure<U>(): Outcome<U>
      requires Crash?
    {
      Crash(reason)
    }
    function Extract(): T
      requires Ok?
    {
      value
    }
  }

  /** Objects are association lists: Python dicts keep insertion order,
      and the engine's tie-breaks depend on it. */
  datatype Json =
    | JNull
    | JBool(b: bool)
    | JInt(i: int)
    | JFloat(r: real)
    | JStr(s: string)
    | JList(items: seq<Json>)
    | JObj(fields: seq<(string, Json)>)

  type Fields = seq<(string, Json)>

  // ---------------------------------------------------------------- size

  function Sum(s: seq<nat>): nat {
    if s == [] then 0 else s[0] + Sum(s[1..])
  }

  lemma {:induction false} SumAt(s: seq<nat>, i: nat)
    requires i < |s|
    ensures s[i] <= Sum(s)
  {
    if i > 0 {
      SumAt(s[1..], i - 1);
    }
  }

  /** A measure for recursion over JSON trees. */
  function Size(j: Json): nat {
    match j
    case JList(xs) => 1 + Sum(seq(|xs|, i requires 0 <= i < |xs| => Size(xs[i])))
    case JObj(fs) => 1 + Sum(seq(|fs|, i requires 0 <= i < |fs| => Size(fs[i].1)))
    case _ => 1
  }

  lemma ItemSmaller(xs: seq<Json>, i: nat)
    requires i < |xs|
    ensures Size(xs[i]) < Size(JList(xs))
  {
    SumAt(seq(|xs|, i requires 0 <= i < |xs| => Size(xs[i])), i);
  }

  lemma FieldSmaller(fs: Fields, i: nat)
    requires i < |fs|
    ensures Size(fs[i].1) < Size(JObj(fs))
  {
    SumAt(seq(|fs|, i requires 0 <= i < |fs| => Size(fs[i].1)), i);
  }

  // ----------------------------------------------------- dict operations

  function Keys(fs: Fields): (r: seq<string>)
    ensures |r| == |fs|
    ensures forall i :: 0 <= i < |fs| ==> r[i] == fs[i].0
  {
    if fs == [] then [] else [fs[0].0] + Keys(fs[1..])
  }

  /** `k in d` */
  predicate Has(fs: Fields, k: string) {
    k in Keys(fs)
  }

  /** Position of the first entry with key k. */
  function IndexOf(fs: Fields, k: string): (i: nat)
    requires Has(fs, k)
    ensures i < |fs| && fs[i].0 == k
    ensures forall j :: 0 <= j < i ==> fs[j].0 != k
  {
    if fs[0].0 == k then 0 else IndexOf(fs[1..], k) + 1
  }

  /** `d.get(k)`: the value of the first entry with key k. */
  function Get(fs: Fields, k: string): (r: Option<Json>)
    ensures r.Some? <==> Has(fs, k)
    ensures r.Some? ==> r.value == fs[IndexOf(fs, k)].1
  {
    if fs == [] then None
    else if fs[0].0 == k then Some(fs[0].1)
    else Get(fs[1..], k)
  }

  /** `d.get(k, default)` */
  function GetOr(fs: Fields, k: string, default: Json): Json {
    match Get(fs, k)
    case Some(v) => v
    case None => default
  }

  /** `d.get(k)` with Python's None for a missing key. */
  function GetJ(fs: Fields, k: string): Json {
    GetOr(fs, k, JNull)
  }

  lemma GetSmaller(fs: Fields, k: string)
    requires Has(fs, k)
    ensures Size(GetJ(fs, k)) < Size(JObj(fs))
  {
    FieldSmaller(fs, IndexOf(fs, k));
  }

  /** `d[k] = v`: an existing key keeps its place, a new key goes last. */
  function Put(fs: Fields, k: string, v: Json): (r: Fields)
    ensures Keys(r) == if Has(fs, k) then Keys(fs) else Keys(fs) + [k]
  {
    if fs == [] then [(k, v)]
    else if fs[0].0 == k then [(k, v)] + fs[1..]
    else [fs[0]] + Put(fs[1..], k, v)
  }

  /** After `d[k] = v`, k maps to v and every other key to what it did. */
  lemma {:induction false} PutGet(fs: Fields, k: string, v: Json, x: string)
    ensures Get(Put(fs, k, v), x) == if x == k then Some(v) else Get(fs, x)
  {
    if fs != [] && fs[0].0 != k {
      PutGet(fs[1..], k, v, x);
    }
  }

  /** A key not yet present is appended at the end. */
  lemma {:induction false} PutNew(fs: Fields, k: string, v: Json)
    requires !Has(fs, k)
    ensures Put(fs, k, v) == fs + [(k, v)]
  {
    if fs != [] {
      PutNew(fs[1..], k, v);
    }
  }

  /** No key occurs twice, as in any Python dict. */
  predicate UniqueKeys(fs: Fields) {
    forall i, j :: 0 <= i < j < |fs| ==> fs[i].0 != fs[j].0
  }

  lemma {:induction false} PutUnique(fs: Fields, k: string, v: Json)
    requires UniqueKeys(fs)
    ensures UniqueKeys(Put(fs, k, v))
  {
    var r := Put(fs, k, v);
    assert Keys(r) == if Has(fs, k) then Keys(fs) else Keys(fs) + [k];
    forall i, j | 0 <= i < j < |r| ensures r[i].0 != r[j].0 {
      assert r[i].0 == Keys(r)[i] && r[j].0 == Keys(r)[j];
      if j == |fs| {
        assert k !in Keys(fs);
        assert Keys(fs)[i] in Keys(fs);
      } else {
        assert Keys(fs)[i] == fs[i].0 && Keys(fs)[j] == fs[j].0;
      }
    }
  }

  /** `d.update(other)`: the other dict's values win. */
  function Update(fs: Fields, other: Fields): (r: Fields)
    decreases |other|
  {
    if other == [] then fs else Update(Put(fs, other[0].0, other[0].1), other[1..])
  }

  /** After `d.update(other)` a key has other's value if other has it, and
      its old value otherwise. */
  lemma {:induction false} UpdateGet(fs: Fields, other: Fields, k: string)
    requires UniqueKeys(other)
    ensures Get(Update(fs, other), k) == if Has(other, k) then Get(other, k) else Get(fs, k)
    decreases |other|
  {
    if other != [] {
      var rest := other[1..];
      assert UniqueKeys(rest) by {
        forall i, j | 0 <= i < j < |rest| ensures rest[i].0 != rest[j].0 {
          assert rest[i] == other[i + 1] && rest[j] == other[j + 1];
        }
      }
      UpdateGet(Put(fs, other[0].0, other[0].1), rest, k);
      PutGet(fs, other[0].0, other[0].1, k);
      assert Keys(other) == [other[0].0] + Keys(rest);
    }
  }

  // ------------------------------------------------------ Python semantics

  /** Python truthiness: None, False, 0, 0.0, "", [] and {} are false. */
  predicate Truthy(j: Json) {
    match j
    case JNull => false
    case JBool(b) => b
    case JInt(i) => i != 0
    case JFloat(r) => r != 0.0
    case JStr(s) => s != ""
    case JList(xs) => xs != []
    case JObj(fs) => fs != []
  }

  function TypeName(j: Json): string {
    match j
    case JNull => "NoneType"
    case JBool(_) => "bool"
    case JInt(_) => "int"
    case JFloat(_) => "float"
    case JStr(_) => "str"
    case JList(_) => "list"
    case JObj(_) => "dict"
  }

  /** Python `round()` on an exact value: to the nearest integer, ties to even. */
  function RoundHalfEven(x: real): (n: int)
    ensures x - 1.0 / 2.0 <= n as real <= x + 1.0 / 2.0
    ensures (x - n as real == 1.0 / 2.0 || n as real - x == 1.0 / 2.0) ==> n % 2 == 0
  {
    var f := x.Floor;
    var d := x - f as real;
    if d < 1.0 / 2.0 then f
    else if d > 1.0 / 2.0 then f + 1
    else if f % 2 == 0 then f else f + 1
  }

  /** The nearest integer with ties to even is the only one: any integer
      within a half of x, even when exactly a half away, is the rounding. */
  lemma RoundUnique(x: real, m: int)
    requires x - 1.0 / 2.0 <= m as real <= x + 1.0 / 2.0
    requires (x - m as real == 1.0 / 2.0 || m as real - x == 1.0 / 2.0) ==> m % 2 == 0
    ensures m == RoundHalfEven(x)
  {
  }

  /** `"%.1f" % x`: one decimal, rounded to nearest with ties to even on the
      exact value (the sign is kept even when the digits round to zero). */
  function Fixed1(x: real): string {
    if x < 0.0 then "-" + Fixed1Abs(-x) else Fixed1Abs(x)
  }

  function Fixed1Abs(x: real): string
    requires x >= 0.0
  {
    var t := RoundHalfEven(x * 10.0);
    var n: nat := t;
    NatToString(n / 10) + "." + [DigitChar(n % 10)]
  }

  predicate IsIntegral(r: real) { r.Floor as real == r }

  /** `str(x)` of a float: integral values print with ".0"; other values are
      printed with one decimal (Python prints the shortest round-trip digits). */
  function FloatText(r: real): string {
    if IsIntegral(r) then IntToString(r.Floor) + ".0" else Fixed1(r)
  }

  /** `repr` of a value inside a container (strings quoted, not escaped). */
  function Repr(j: Json): string
    decreases Size(j), 1
  {
    match j
    case JStr(s) => "'" + s + "'"
    case JList(xs) => "[" + ReprItems(xs) + "]"
    case JObj(fs) => "{" + ReprFields(fs) + "}"
    case _ => ScalarStr(j)
  }

  function ReprItems(xs: seq<Json>): string
    decreases Size(JList(xs)), 0, |xs|
  {
    if xs == [] then ""
    else
      ItemSmaller(xs, 0);
      var head := Repr(xs[0]);
      if |xs| == 1 then head
      else
        assert Size(JList(xs[1..])) <= Size(JList(xs)) by { TailNotLarger(xs); }
        head + ", " + ReprItems(xs[1..])
  }

  function ReprFields(fs: Fields): string
    decreases Size(JObj(fs)), 0, |fs|
  {
    if fs == [] then ""
    else
      FieldSmaller(fs, 0);
      var head := "'" + fs[0].0 + "': " + Repr(fs[0].1);
      if |fs| == 1 then head
      else
        assert Size(JObj(fs[1..])) <= Size(JObj(fs)) by { TailFieldsNotLarger(fs); }
        head + ", " + ReprFields(fs[1..])
  }

  lemma TailNotLarger(xs: seq<Json>)
    requires |xs| > 0
    ensures Size(JList(xs[1..])) <= Size(JList(xs))
  {
    var s := seq(|xs|, i requires 0 <= i < |xs| => Size(xs[i]));
    assert seq(|xs| - 1, i requires 0 <= i < |xs| - 1 => Size(xs[1..][i])) == s[1..];
  }

  lemma TailFieldsNotLarger(fs: Fields)
    requires |fs| > 0
    ensures Size(JObj(fs[1..])) <= Size(JObj(fs))
  {
    var s := seq(|fs|, i requires 0 <= i < |fs| => Size(fs[i].1));
    assert seq(|fs| - 1, i requires 0 <= i < |fs| - 1 => Size(fs[1..][i].1)) == s[1..];
  }

  function ScalarStr(j: Json): string
    requires !j.JList? && !j.JObj?
  {
    match j
    case JNull => "None"
    case JBool(b) => if b then "True" else "False"
    case JInt(i) => IntToString(i)
    case JFloat(r) => FloatText(r)
    case JStr(s) => s
  }

  /** `str(x)`, which is also what an f-string inserts. */
  function PyStr(j: Json): string {
    if j.JList? || j.JObj? then Repr(j) else ScalarStr(j)
  }

  /** Values usable as dict keys (`x in d` raises TypeError otherwise). */
  predicate Hashable(j: Json) { !j.JList? && !j.JObj? }

  /** `for x in v`: a list yields its items, a dict its keys, a string its
      characters; anything else raises TypeError. */
  function Items(j: Json): (r: Outcome<seq<Json>>)
    ensures r.Ok? <==> j.JList? || j.JObj? || j.JStr?
    ensures j.JList? ==> r == Ok(j.items)
    ensures r.Ok? ==> forall x :: x in r.value && x.JObj? ==> Size(x) < Size(j)
  {
    match j
    case JList(xs) =>
      assert forall x :: x in xs ==> Size(x) < Size(j) by {
        forall x | x in xs ensures Size(x) < Size(j) {
          var i :| 0 <= i < |xs| && xs[i] == x;
          ItemSmaller(xs, i);
        }
      }
      Ok(xs)
    case JObj(fs) => Ok(seq(|fs|, i requires 0 <= i < |fs| => JStr(fs[i].0)))
    case JStr(s) => Ok(seq(|s|, i requires 0 <= i < |s| => JStr([s[i]])))
    case _ => Crash("TypeError: '" + TypeName(j) + "' object is not iterable")
  }

  /** `v.lower()` on a JSON value: AttributeError unless it is a string. */
  function LowerOf(j: Json): (r: Outcome<string>)
    ensures r.Ok? <==> j.JStr?
    ensures j.JStr? ==> r.value == Lower(j.s)
  {
    if j.JStr? then Ok(Lower(j.s)) else Crash(NoAttribute(j, "lower"))
  }

  function NoAttribute(j: Json, attr: string): string {
    "'" + TypeName(j) + "' object has no attribute '" + attr + "'"
  }

  // ------------------------------------------------------------ numbers

  /** A Python number: int (bool counts as int) or float. */
  datatype Num = IntV(i: int) | RealV(r: real)

  /** `isinstance(v, (int, float))`, which bool also passes. */
  predicate IsNumeric(j: Json) { j.JInt? || j.JFloat? || j.JBool? }

  function NumOf(j: Json): (r: Option<Num>)
    ensures r.Some? <==> IsNumeric(j)
  {
    match j
    case JInt(i) => Some(IntV(i))
    case JFloat(r) => Some(RealV(r))
    case JBool(b) => Some(IntV(if b then 1 else 0))
    case _ => None
  }

  function ToJson(n: Num): Json {
    match n
    case IntV(i) => JInt(i)
    case RealV(r) => JFloat(r)
  }

  function AsReal(n: Num): real {
    match n
    case IntV(i) => i as real
    case RealV(r) => r
  }

  function Add(a: Num, b: Num): (r: Num)
    ensures AsReal(r) == AsReal(a) + AsReal(b)
  {
    if a.IntV? && b.IntV? then IntV(a.i + b.i) else RealV(AsReal(a) + AsReal(b))
  }

  function Sub(a: Num, b: Num): (r: Num)
    ensures AsReal(r) == AsReal(a) - AsReal(b)
  {
    if a.IntV? && b.IntV? then IntV(a.i - b.i) else RealV(AsReal(a) - AsReal(b))
  }

  /** Python `*` on numbers; its value as a real is stated by `MulReal`,
      kept apart so that the product is only in view where it is needed. */
  function Mul(a: Num, b: Num): (r: Num)
    ensures a.IntV? && b.IntV? ==> r.IntV?
  {
    if a.IntV? && b.IntV? then IntV(a.i * b.i) else RealV(AsReal(a) * AsReal(b))
  }

  lemma MulReal(a: Num, b: Num)
    ensures AsReal(Mul(a, b)) == AsReal(a) * AsReal(b)
  {
  }

  /** Python `/`: always a float. */
  function Div(a: Num, d: real): (r: Num)
    requires d != 0.0
    ensures r.RealV? && r.r == AsReal(a) / d
  {
    RealV(AsReal(a) / d)
  }

  /** Python `int()` of a number: truncation toward zero. */
  function Trunc(n: Num): (r: int)
    ensures n.IntV? ==> r == n.i
  {
    match n
    case IntV(i) => i
    case RealV(x) => if x >= 0.0 then x.Floor else -((-x).Floor)
  }

  /** `base + inc * (level - 1)`, the level-scaling law; a non-numeric
      operand raises TypeError. */
  function Scaled(base: Json, inc: Json, level: Json): (r: Outcome<Num>)
    ensures r.Ok? <==> IsNumeric(base) && IsNumeric(inc) && IsNumeric(level)
    ensures r.Ok? && base.JInt? && inc.JInt? && level.JInt? ==> r.value.IntV?
  {
    match (NumOf(base), NumOf(inc), NumOf(level))
    case (Some(b), Some(i), Some(l)) => Ok(Add(b, Mul(i, Sub(l, IntV(1)))))
    case _ => Crash("TypeError: unsupported operand type(s)")
  }

  /** The value of `Scaled` as a real: base + inc × (level - 1). */
  lemma ScaledLaw(base: Json, inc: Json, level: Json)
    ensures Scaled(base, inc, level).Ok? ==>
      AsReal(Scaled(base, inc, level).value) ==
        AsReal(NumOf(base).value) + AsReal(NumOf(inc).value) * (AsReal(NumOf(level).value) - 1.0)
  {
    if Scaled(base, inc, level).Ok? {
      MulReal(NumOf(inc).value, Sub(NumOf(level).value, IntV(1)));
    }
  }

  /** `d.get(k, default)` with a text default: the value the callers then
      lower with `.lower()`. */
  function GetStr(fs: Fields, k: string, default: string): Json {
    GetOr(fs, k, JStr(default))
  }
}
