/** `find_and_calculate_value`: the number (or text) a placeholder stands
    for in a data block. Override rules come first; otherwise a scored
    search over the flattened block picks a field, which is then scaled to
    the skill's maximum level. Also `get_hero_final_stats`. */
module Values {
  import opened Strings
  import opened Json
  import opened Tables
  import opened Flatten

  /** The value found (None when nothing applies) and the tag the source
      returns beside it: the chosen flat key, a rule description, or None. */
  datatype Found = Found(value: Option<Json>, tag: Option<string>)

  // ------------------------------------------------- int() and float() of text

  predicate IsDigit(c: char) { '0' <= c <= '9' }

  predicate AllDigits(s: string) {
    s != [] && forall i :: 0 <= i < |s| ==> IsDigit(s[i])
  }

  function DigitsValue(s: string): nat
    requires forall i :: 0 <= i < |s| ==> IsDigit(s[i])
  {
    if s == [] then 0
    else
      assert IsDigit(s[|s| - 1]);
      DigitsValue(s[..|s| - 1]) * 10 + (s[|s| - 1] as int - '0' as int)
  }

  /** `int(s)`: optional surrounding whitespace, an optional sign, then
      ASCII digits. */
  function ParseInt(s: string): Option<int> {
    ParseSigned(Strip(s))
  }

  function ParseSigned(t: string): Option<int> {
    if t != [] && (t[0] == '-' || t[0] == '+') then
      if AllDigits(t[1..]) then
        var v: int := DigitsValue(t[1..]);
        Some(if t[0] == '-' then -v else v)
      else None
    else if AllDigits(t) then Some(DigitsValue(t))
    else None
  }

  function Pow10(n: nat): (r: nat)
    ensures r > 0
  {
    if n == 0 then 1 else 10 * Pow10(n - 1)
  }

  predicate DigitsOrEmpty(s: string) { forall i :: 0 <= i < |s| ==> IsDigit(s[i]) }

  /** An unsigned decimal `a.b` with at least one digit. */
  function ParseDecimal(t: string): Option<real> {
    if '.' in t then
      var i := IndexOfChar(t, '.');
      var a, b := t[..i], t[i + 1..];
      if DigitsOrEmpty(a) && DigitsOrEmpty(b) && |a| + |b| > 0 then
        Some(DigitsValue(a) as real + DigitsValue(b) as real / Pow10(|b|) as real)
      else None
    else if AllDigits(t) then Some(DigitsValue(t) as real)
    else None
  }

  function IndexOfChar(s: string, c: char): (i: nat)
    requires c in s
    ensures i < |s| && s[i] == c && c !in s[..i]
  {
    if s[0] == c then 0
    else
      var j := IndexOfChar(s[1..], c);
      assert s[..j + 1] == [s[0]] + s[1..][..j];
      j + 1
  }

  /** `float(s)` for plain decimal text (with optional whitespace and sign). */
  function ParseFloat(s: string): Option<real> {
    var t := Strip(s);
    if t != [] && (t[0] == '-' || t[0] == '+') then
      match ParseDecimal(t[1..])
      case Some(x) => Some(if t[0] == '-' then -x else x)
      case None => None
    else ParseDecimal(t)
  }

  lemma {:induction false} DigitsOfNat(n: nat)
    ensures forall i :: 0 <= i < |NatToString(n)| ==> IsDigit(NatToString(n)[i])
    ensures DigitsValue(NatToString(n)) == n
  {
    var s := NatToString(n);
    if n >= 10 {
      DigitsOfNat(n / 10);
      assert s[..|s| - 1] == NatToString(n / 10);
    }
  }

  lemma StripUnpadded(s: string)
    requires s != [] && !IsSpace(s[0]) && !IsSpace(s[|s| - 1])
    ensures Strip(s) == s
  {
    assert StripLeft(s) == s;
  }

  lemma ParseSignedOfText(n: int)
    ensures ParseSigned(IntToString(n)) == Some(n)
  {
    var d := NatToString(if n < 0 then -n else n);
    DigitsOfNat(if n < 0 then -n else n);
    var m: int := DigitsValue(d);
    if n < 0 {
      SignedNegative(d);
      assert ParseSigned("-" + d) == Some(-m) == Some(n);
      assert IntToString(n) == "-" + d;
    } else {
      SignedPlain(d);
      assert ParseSigned(d) == Some(m) == Some(n);
      assert IntToString(n) == d;
    }
  }

  lemma SignedNegative(d: string)
    requires AllDigits(d)
    ensures ParseSigned("-" + d) == Some(-(DigitsValue(d) as int))
  {
    assert ("-" + d)[1..] == d;
  }

  lemma SignedPlain(d: string)
    requires AllDigits(d)
    ensures ParseSigned(d) == Some(DigitsValue(d))
  {
    assert IsDigit(d[0]);
  }

  /** `int(str(n)) == n` */
  lemma ParseIntOfText(n: int)
    ensures ParseInt(IntToString(n)) == Some(n)
  {
    var s := IntToString(n);
    ParseSignedOfText(n);
    if n < 0 {
      DigitsOfNat(-n);
      var d := NatToString(-n);
      assert s == "-" + d;
      assert s[|s| - 1] == d[|d| - 1];
    } else {
      DigitsOfNat(n);
    }
    assert IsDigit(s[|s| - 1]);
    StripUnpadded(s);
  }

  /** The value a `fixed` rule gives: int if the text parses as one, else
      float, else the text itself; a rule without a value gives None. */
  function FixedValue(text: Option<string>): (r: Option<Json>)
    ensures text.None? <==> r.None?
    ensures text.Some? && ParseInt(text.value).Some? ==> r == Some(JInt(ParseInt(text.value).value))
    ensures text.Some? && ParseInt(text.value).None? && ParseFloat(text.value).Some? ==>
      r == Some(JFloat(ParseFloat(text.value).value))
    ensures text.Some? && ParseInt(text.value).None? && ParseFloat(text.value).None? ==> r == Some(JStr(text.value))
  {
    match text
    case None => None
    case Some(s) =>
      match ParseInt(s)
      case Some(n) => Some(JInt(n))
      case None =>
        match ParseFloat(s)
        case Some(x) => Some(JFloat(x))
        case None => Some(JStr(s))
  }

  // --------------------------------------------------------- override rules

  /** The flat keys ending with a name, in flat order. */
  function EndingWith(ks: seq<string>, suffix: string): (r: seq<string>)
    ensures forall k :: k in r <==> k in ks && EndsWith(k, suffix)
  {
    if ks == [] then []
    else (if EndsWith(ks[0], suffix) then [ks[0]] else []) + EndingWith(ks[1..], suffix)
  }

  function KeyText(k: Option<string>): string {
    if k.Some? then k.value else "None"
  }

  /** What a rule gives: `fixed` rules their value; `key` rules the single
      numeric flat value whose key ends with the rule's key, `/10` for a
      per-mil key and truncated to int otherwise, with no level scaling. */
  function ApplyRule(rule: Rule, block: Json): (r: Found)
    ensures rule.calcMode == Some("fixed") ==> r == Found(FixedValue(rule.value), Some("Fixed Rule"))
    ensures r.value.Some? && rule.calcMode != Some("fixed") ==>
      rule.key.Some? && var m := EndingWith(Keys(Flat(block)), rule.key.value);
      |m| == 1 && r.tag == Some("Exception Rule: " + m[0]) &&
      IsNumeric(GetJ(Flat(block), m[0])) &&
      r.value.value == if Contains(Lower(m[0]), "permil") then ToJson(Div(NumOf(GetJ(Flat(block), m[0])).value, 10.0))
                       else JInt(Trunc(NumOf(GetJ(Flat(block), m[0])).value))
    ensures (rule.calcMode != Some("fixed") && rule.key.Some? && rule.key.value != "") ==>
      var m := EndingWith(Keys(Flat(block)), rule.key.value);
      (|m| == 1 && IsNumeric(GetJ(Flat(block), m[0])) ==> r.value.Some?)
  {
    if rule.calcMode == Some("fixed") then Found(FixedValue(rule.value), Some("Fixed Rule"))
    else if rule.key.Some? && rule.key.value != "" then
      var flat := Flat(block);
      var m := EndingWith(Keys(flat), rule.key.value);
      if |m| == 1 && IsNumeric(GetJ(flat, m[0])) then
        var v := NumOf(GetJ(flat, m[0])).value;
        var tag := Some("Exception Rule: " + m[0]);
        if Contains(Lower(m[0]), "permil") then Found(Some(ToJson(Div(v, 10.0))), tag)
        else Found(Some(JInt(Trunc(v))), tag)
      else Found(None, Some("Exception rule key '" + rule.key.value + "' not found or ambiguous"))
    else Found(None, Some("Exception rule key '" + KeyText(rule.key) + "' not found or ambiguous"))
  }

  // ------------------------------------------------------ keyword heuristic

  /** `re.findall('[A-Z][^A-Z]*', s)`: each capital letter with the run of
      non-capitals after it; text before the first capital is dropped. */
  function Fragments(s: string): (r: seq<string>)
    ensures forall i :: 0 <= i < |r| ==> r[i] != [] && IsUpperChar(r[i][0])
    ensures forall i, j :: 0 <= i < |r| && 0 < j < |r[i]| ==> !IsUpperChar(r[i][j])
    decreases |s|
  {
    if s == [] then []
    else if IsUpperChar(s[0]) then
      var n := NonUpperRun(s[1..]);
      [[s[0]] + s[1..1 + n]] + Fragments(s[1 + n..])
    else Fragments(s[1..])
  }

  function NonUpperRun(s: string): (n: nat)
    ensures n <= |s| && (n < |s| ==> IsUpperChar(s[n]))
    ensures forall j :: 0 <= j < n ==> !IsUpperChar(s[j])
  {
    if s == [] || IsUpperChar(s[0]) then 0 else 1 + NonUpperRun(s[1..])
  }

  /** The string from its first capital letter on. */
  function FromFirstUpper(s: string): (r: string)
    ensures r == [] || IsUpperChar(r[0])
  {
    if s == [] || IsUpperChar(s[0]) then s else FromFirstUpper(s[1..])
  }

  /** The fragments, put back together, are the string from its first
      capital letter on: nothing after it is lost. */
  lemma {:induction false} FragmentsRebuild(s: string)
    ensures Join(Fragments(s), "") == FromFirstUpper(s)
    decreases |s|
  {
    if s != [] {
      if IsUpperChar(s[0]) {
        var n := NonUpperRun(s[1..]);
        FragmentsHead(s);
        FragmentsRebuild(s[1 + n..]);
        JoinCons(s[..1 + n], Fragments(s[1 + n..]));
        TakeDrop(s, 1 + n);
      } else {
        FragmentsRebuild(s[1..]);
      }
    }
  }

  /** A string that starts with a capital splits into its first fragment
      and the fragments of what follows, which starts with a capital. */
  lemma FragmentsHead(s: string)
    requires s != [] && IsUpperChar(s[0])
    ensures var n := NonUpperRun(s[1..]);
      Fragments(s) == [s[..1 + n]] + Fragments(s[1 + n..]) &&
      FromFirstUpper(s) == s && FromFirstUpper(s[1 + n..]) == s[1 + n..]
  {
    var n := NonUpperRun(s[1..]);
    assert [s[0]] + s[1..1 + n] == s[..1 + n];
  }

  lemma TakeDrop(s: string, k: nat)
    requires k <= |s|
    ensures s[..k] + s[k..] == s
  {
  }

  lemma JoinCons(a: string, rest: seq<string>)
    ensures Join([a] + rest, "") == a + Join(rest, "")
  {
    if rest == [] {
      assert a + "" == a;
    } else {
      assert ([a] + rest)[1..] == rest;
    }
  }

  function LowerAll(xs: seq<string>): (r: seq<string>)
    ensures |r| == |xs| && forall i :: 0 <= i < |xs| ==> r[i] == Lower(xs[i])
  {
    if xs == [] then [] else [Lower(xs[0])] + LowerAll(xs[1..])
  }

  /** The placeholder's search keywords: its lower-cased fragments, or the
      whole lower-cased name when it has no capital letter. */
  function PhKeywords(p: string): seq<string> {
    var f := Fragments(p);
    if f == [] then [Lower(p)] else LowerAll(f)
  }

  predicate AllCaps(s: string) {
    forall i :: 0 <= i < |s| ==> IsUpperChar(s[i])
  }

  /** An all-capitals placeholder falls apart into its single letters. */
  lemma {:induction false} AllCapsAreLetters(s: string)
    requires AllCaps(s)
    ensures Fragments(s) == seq(|s|, i requires 0 <= i < |s| => [s[i]])
    decreases |s|
  {
    if s != [] {
      assert NonUpperRun(s[1..]) == 0;
      assert [s[0]] + s[1..1] == [s[0]];
      assert s[1 + 0..] == s[1..];
      AllCapsAreLetters(s[1..]);
      var rest := seq(|s| - 1, i requires 0 <= i < |s| - 1 => [s[1..][i]]);
      assert seq(|s|, i requires 0 <= i < |s| => [s[i]]) == [[s[0]]] + rest;
    }
  }

  /** So an all-capitals placeholder such as `DAMAGE` is searched for by
      its single lower-case letters. */
  lemma AllCapsKeywords(s: string)
    requires AllCaps(s) && s != []
    ensures |PhKeywords(s)| == |s|
    ensures forall i :: 0 <= i < |s| ==> PhKeywords(s)[i] == [LowerChar(s[i])]
  {
    AllCapsAreLetters(s);
    var f := Fragments(s);
    assert f[0] == [s[0]];
    forall i | 0 <= i < |s| ensures Lower(f[i]) == [LowerChar(s[i])] {
      assert f[i] == [s[i]];
    }
  }

  /** `del flat_data[k]` for every key containing an ignored keyword. */
  function RemoveIgnored(flat: Fields, ignore: seq<string>): (r: Fields)
    ensures forall i :: 0 <= i < |r| ==> r[i] in flat && !HasIgnored(r[i].0, ignore)
    ensures forall e :: e in flat && !HasIgnored(e.0, ignore) ==> e in r
  {
    if flat == [] then []
    else (if HasIgnored(flat[0].0, ignore) then [] else [flat[0]]) + RemoveIgnored(flat[1..], ignore)
  }

  predicate HasIgnored(k: string, ignore: seq<string>) {
    exists i :: 0 <= i < |ignore| && Contains(Lower(k), ignore[i])
  }

  datatype Cand = Cand(key: string, score: real)

  /** How many of the keywords occur in the text (repeated keywords count
      each time). */
  function CountIn(kws: seq<string>, s: string): (n: nat)
    ensures n <= |kws|
  {
    if kws == [] then 0 else (if Contains(s, kws[0]) then 1 else 0) + CountIn(kws[1..], s)
  }

  /** 10 per keyword matched, +5 for `power` or `modifier`, +3 for `permil`. */
  function ScoreOf(key: string, kws: seq<string>): int {
    var kl := Lower(key);
    CountIn(kws, kl) * 10 +
    (if Contains(kl, "power") || Contains(kl, "modifier") then 5 else 0) +
    (if Contains(kl, "permil") then 3 else 0)
  }

  /** The candidates among the first n flat entries: numeric values whose
      key matches at least one keyword. */
  function CandidatesUpTo(flat: Fields, kws: seq<string>, n: nat): (r: seq<Cand>)
    requires n <= |flat|
    ensures forall i :: 0 <= i < |r| ==> Has(flat, r[i].key) && IsNumeric(GetJ(flat, r[i].key))
  {
    if n == 0 then []
    else
      var k := flat[n - 1].0;
      assert k in Keys(flat) by { assert Keys(flat)[n - 1] == k; }
      CandidatesUpTo(flat, kws, n - 1) + CandAt(flat, kws, n - 1)
  }

  /** What the i-th flat entry adds to `candidates`. */
  function CandAt(flat: Fields, kws: seq<string>, i: nat): seq<Cand>
    requires i < |flat|
  {
    if IsCandEntry(flat, kws, i) then [Cand(flat[i].0, ScoreOf(flat[i].0, kws) as real)] else []
  }

  /** One more entry adds what `CandAt` says it adds. */
  lemma CandidatesStep(flat: Fields, kws: seq<string>, i: nat)
    requires i < |flat|
    ensures CandidatesUpTo(flat, kws, i + 1) == CandidatesUpTo(flat, kws, i) + CandAt(flat, kws, i)
  {
  }

  /** Every candidate shares a keyword with the placeholder and carries
      its key's score. */
  lemma {:induction false} CandidatesScored(flat: Fields, kws: seq<string>, n: nat)
    requires n <= |flat|
    ensures forall c :: c in CandidatesUpTo(flat, kws, n) ==>
      c.score == ScoreOf(c.key, kws) as real && CountIn(kws, Lower(c.key)) > 0
  {
    if n > 0 {
      CandidatesScored(flat, kws, n - 1);
    }
  }

  /** The i-th entry makes a candidate: its value is numeric and its key
      shares a keyword. */
  predicate IsCandEntry(flat: Fields, kws: seq<string>, i: nat)
    requires i < |flat|
  {
    IsNumeric(GetJ(flat, flat[i].0)) && CountIn(kws, Lower(flat[i].0)) > 0
  }

  /** `idx` lists, strictly increasing, exactly the entries among the
      first n that make candidates, and the candidates come from them in
      that order. */
  predicate FromEntries(cs: seq<Cand>, flat: Fields, kws: seq<string>, n: nat, idx: seq<nat>)
    requires n <= |flat|
  {
    |idx| == |cs| &&
    (forall k :: 0 <= k < |idx| ==> idx[k] < n && cs[k].key == flat[idx[k]].0 && IsCandEntry(flat, kws, idx[k])) &&
    (forall k, l :: 0 <= k < l < |idx| ==> idx[k] < idx[l]) &&
    (forall i :: 0 <= i < n && IsCandEntry(flat, kws, i) ==> i in idx)
  }

  /** The candidates are exactly the candidate entries, in entry order:
      none is missed, none is invented, and the order is kept. */
  lemma {:induction false} CandidatesInOrder(flat: Fields, kws: seq<string>, n: nat) returns (idx: seq<nat>)
    requires n <= |flat|
    ensures FromEntries(CandidatesUpTo(flat, kws, n), flat, kws, n, idx)
  {
    if n == 0 {
      idx := [];
    } else {
      var pidx := CandidatesInOrder(flat, kws, n - 1);
      idx := EntriesStep(flat, kws, n - 1, pidx);
    }
  }

  /** One more entry extends the index witness by that entry exactly when
      it makes a candidate. */
  lemma EntriesStep(flat: Fields, kws: seq<string>, n: nat, idx: seq<nat>) returns (idx': seq<nat>)
    requires n < |flat| && FromEntries(CandidatesUpTo(flat, kws, n), flat, kws, n, idx)
    ensures FromEntries(CandidatesUpTo(flat, kws, n + 1), flat, kws, n + 1, idx')
  {
    var cs, cs' := CandidatesUpTo(flat, kws, n), CandidatesUpTo(flat, kws, n + 1);
    CandidatesStep(flat, kws, n);
    if IsCandEntry(flat, kws, n) {
      idx' := idx + [n];
      assert cs'[..|cs|] == cs;
      EntriesSnoc(cs, cs', flat, kws, n, idx);
    } else {
      idx' := idx;
      EntriesSkip(cs, flat, kws, n, idx);
    }
  }

  lemma EntriesSnoc(cs: seq<Cand>, cs': seq<Cand>, flat: Fields, kws: seq<string>, n: nat, idx: seq<nat>)
    requires n < |flat| && FromEntries(cs, flat, kws, n, idx)
    requires IsCandEntry(flat, kws, n) && |cs'| == |cs| + 1 && cs'[..|cs|] == cs && cs'[|cs|].key == flat[n].0
    ensures FromEntries(cs', flat, kws, n + 1, idx + [n])
  {
    var idx' := idx + [n];
    forall k | 0 <= k < |idx'|
      ensures idx'[k] < n + 1 && cs'[k].key == flat[idx'[k]].0 && IsCandEntry(flat, kws, idx'[k])
    {
      if k < |idx| {
        assert cs'[k] == cs[k] && idx'[k] == idx[k];
      }
    }
    forall i | 0 <= i < n + 1 && IsCandEntry(flat, kws, i) ensures i in idx' {
      if i < n {
        assert i in idx;
      }
    }
  }

  lemma EntriesSkip(cs: seq<Cand>, flat: Fields, kws: seq<string>, n: nat, idx: seq<nat>)
    requires n < |flat| && FromEntries(cs, flat, kws, n, idx) && !IsCandEntry(flat, kws, n)
    ensures FromEntries(cs, flat, kws, n + 1, idx)
  {
  }

  /** Strictly preferred by `sorted(key=(-score, len(key)))`. */
  predicate Better(a: Cand, b: Cand) {
    a.score > b.score || (a.score == b.score && |a.key| < |b.key|)
  }

  /** `sorted(...)[0]`: highest score, then shortest key, then first. */
  function BestCand(cs: seq<Cand>): (r: Cand)
    requires cs != []
    ensures r in cs
    ensures forall c :: c in cs ==> !Better(c, r)
    ensures exists i :: 0 <= i < |cs| && cs[i] == r && forall j :: 0 <= j < i ==> Better(r, cs[j])
  {
    if |cs| == 1 then cs[0]
    else
      var b := BestCand(cs[1..]);
      if Better(b, cs[0]) then
        var i :| 0 <= i < |cs[1..]| && cs[1..][i] == b && forall j :: 0 <= j < i ==> Better(b, cs[1..][j]);
        assert cs[i + 1] == b && forall j :: 1 <= j < i + 1 ==> Better(b, cs[j]);
        b
      else
        assert forall c :: c in cs[1..] ==> !Better(c, cs[0]);
        cs[0]
  }

  predicate Falsy(k: Option<string>) { k.None? || k.value == "" }

  /** Python's `re.sub('([a-z])([A-Z])', r'\1IncrementPerLevel\2', s)`. */
  function CamelInsert(s: string): string
    decreases |s|
  {
    if |s| < 2 then s
    else if IsLowerChar(s[0]) && IsUpperChar(s[1]) then [s[0]] + "IncrementPerLevel" + CamelInsert(s[1..])
    else [s[0]] + CamelInsert(s[1..])
  }

  /** The increment key of a chosen key: `PerMil` becomes `PerLevelPerMil`
      (only for keys ending in `PerMil`), else `IncrementPerLevelPerMil`,
      else `IncrementPerLevel` is inserted; the first one present wins. */
  function IncKey(flat: Fields, k: string): Option<string> {
    var k1 := if EndsWith(k, "PerMil") then Try(flat, None, ReplaceAll(k, "PerMil", "PerLevelPerMil")) else None;
    var k2 := if Falsy(k1) then Try(flat, k1, ReplaceAll(k, "PerMil", "IncrementPerLevelPerMil")) else k1;
    if Falsy(k2) then
      Try(flat, k2, if IsLowerString(k) then k + "incrementperlevel" else CamelInsert(k))
    else k2
  }

  function Try(flat: Fields, cur: Option<string>, potential: string): Option<string> {
    if Has(flat, potential) then Some(potential) else cur
  }

  /** `flat_data.get(inc_key, 0)`, with 0 for a non-numeric value. */
  function IncValue(flat: Fields, inc: Option<string>): Num {
    if inc.Some? && IsNumeric(GetJ(flat, inc.value)) then NumOf(GetJ(flat, inc.value)).value
    else IntV(0)
  }

  /** A key without `PerMil` in it is its own increment key. */
  lemma SelfIncrement(flat: Fields, k: string)
    requires !Contains(k, "PerMil") && Has(flat, k) && k != ""
    ensures IncKey(flat, k) == Some(k)
  {
    if EndsWith(k, "PerMil") {
      assert k[|k| - 6..] == "PerMil";
      ContainsAt(k, "PerMil", |k| - 6);
    }
    ReplaceAbsent(k, "PerMil", "IncrementPerLevelPerMil");
  }

  /** The level-scaling law and unit conversion: modifiers (the caller's
      flag, or a key whose lowered form holds `modifier`) are offset by
      1000 and, like per-mil keys, divided by 10; other values are
      truncated to int. */
  function Scale(base: Num, inc: Num, level: Json, modifier: bool, perMil: bool): (r: Outcome<Num>)
    ensures r.Ok? <==> IsNumeric(level)
    ensures r.Ok? && (modifier || perMil) ==> r.value.RealV?
    ensures r.Ok? && !modifier && !perMil ==> r.value.IntV?
  {
    match NumOf(level)
    case None => Crash("TypeError: unsupported operand type(s) for -: '" + TypeName(level) + "' and 'int'")
    case Some(l) =>
      var steps := Mul(inc, Sub(l, IntV(1)));
      var total := Add(base, steps);
      if modifier then Ok(Div(Add(Sub(base, IntV(1000)), steps), 10.0))
      else if perMil then Ok(Div(total, 10.0))
      else Ok(IntV(Trunc(total)))
  }

  /** The flags `Scale` takes for a chosen key. */
  function AsModifier(isModifier: bool, key: string): bool {
    isModifier || Contains(Lower(key), "modifier")
  }

  function IsPerMil(key: string): bool {
    Contains(Lower(key), "permil")
  }

  lemma MulStep(a: Num, l: Num)
    ensures AsReal(Mul(a, Sub(l, IntV(1)))) == AsReal(a) * (AsReal(l) - 1.0)
  {
    var s := Sub(l, IntV(1));
    MulReal(a, s);
    assert AsReal(s) == AsReal(l) - 1.0;
  }

  /** The level-scaling law as reals. */
  lemma ScaleLaw(base: Num, inc: Num, level: Json, modifier: bool, perMil: bool)
    ensures (Scale(base, inc, level, modifier, perMil).Ok? && modifier) ==>
      AsReal(Scale(base, inc, level, modifier, perMil).value) ==
        ((AsReal(base) - 1000.0) + AsReal(inc) * (AsReal(NumOf(level).value) - 1.0)) / 10.0
    ensures (Scale(base, inc, level, modifier, perMil).Ok? && !modifier && perMil) ==>
      AsReal(Scale(base, inc, level, modifier, perMil).value) ==
        (AsReal(base) + AsReal(inc) * (AsReal(NumOf(level).value) - 1.0)) / 10.0
  {
    if IsNumeric(level) {
      MulStep(inc, NumOf(level).value);
    }
  }

  /** Outside the modifier and per-mil cases the scaled value is truncated
      toward zero, as `int()` does. */
  lemma ScaleTruncates(base: Num, inc: Num, level: Json, modifier: bool, perMil: bool)
    requires !modifier && !perMil && Scale(base, inc, level, modifier, perMil).Ok?
    ensures TruncOf(Scale(base, inc, level, modifier, perMil).value.i,
                    AsReal(base) + AsReal(inc) * (AsReal(NumOf(level).value) - 1.0))
  {
    var l := NumOf(level).value;
    var total := Add(base, Mul(inc, Sub(l, IntV(1))));
    assert Scale(base, inc, level, modifier, perMil).value == IntV(Trunc(total));
    MulStep(inc, l);
    TruncAt(total, AsReal(base) + AsReal(inc) * (AsReal(l) - 1.0));
  }

  lemma TruncAt(n: Num, x: real)
    requires AsReal(n) == x
    ensures TruncOf(Trunc(n), x)
  {
    TruncBounds(n);
  }

  /** `n` is `x` truncated toward zero, as Python's `int()` of a float. */
  predicate TruncOf(n: int, x: real) {
    (x >= 0.0 ==> n as real <= x < n as real + 1.0) &&
    (x < 0.0 ==> n as real - 1.0 < x <= n as real)
  }

  lemma TruncBounds(n: Num)
    ensures TruncOf(Trunc(n), AsReal(n))
  {
  }

  /** With its own key as increment, an int value scales to base × level. */
  lemma SelfIncrementTotal(b: int, level: int)
    ensures Add(IntV(b), Mul(IntV(b), Sub(IntV(level), IntV(1)))) == IntV(b * level)
  {
    assert b + b * (level - 1) == b * level;
  }

  /** The heuristic path: no rule applies. */
  function Heuristic(p: string, block: Json, level: Json, isModifier: bool, ignore: seq<string>): (r: Outcome<Found>)
    ensures r.Ok? && r.value.value.Some? ==>
      (block.JObj? && r.value.tag.Some? &&
       var flat := RemoveIgnored(Flat(block), ignore);
       var cs := CandidatesUpTo(flat, PhKeywords(p), |flat|);
       cs != [] && r.value.tag.value == BestCand(cs).key)
    ensures r.Ok? && r.value.value.None? ==> r.value.tag.None?
  {
    if !block.JObj? then Ok(Found(None, None))
    else
      var flat := RemoveIgnored(Flat(block), ignore);
      var cs := CandidatesUpTo(flat, PhKeywords(p), |flat|);
      if cs == [] then Ok(Found(None, None))
      else
        var k := BestCand(cs).key;
        var base := NumOf(GetJ(flat, k)).value;
        var v :- Scale(base, IncValue(flat, IncKey(flat, k)), level, AsModifier(isModifier, k), IsPerMil(k));
        Ok(Found(Some(ToJson(v)), Some(k)))
  }

  /** `find_and_calculate_value(p_holder, data_block, max_level, hero_id,
      rules, is_modifier, ignore_keywords)`; a non-numeric level raises
      TypeError once a field is chosen. */
  function FindValue(p: string, block: Json, level: Json, heroId: string, rules: Rules,
                     isModifier: bool, ignore: seq<string>): (r: Outcome<Found>)
    ensures RuleFor(rules, heroId, Upper(p)).Some? ==>
      r == Ok(ApplyRule(RuleFor(rules, heroId, Upper(p)).value, block))
    ensures RuleFor(rules, heroId, Upper(p)).None? ==> r == Heuristic(p, block, level, isModifier, ignore)
  {
    match RuleFor(rules, heroId, Upper(p))
    case Some(rule) => Ok(ApplyRule(rule, block))
    case None => Heuristic(p, block, level, isModifier, ignore)
  }

  /** A rule, once found, decides alone: neither the level, the modifier
      flag nor the ignored keywords matter, and nothing can fail. */
  lemma RuleSuppressesHeuristic(p: string, block: Json, l1: Json, l2: Json, heroId: string, rules: Rules,
                                m1: bool, m2: bool, ig1: seq<string>, ig2: seq<string>)
    requires RuleFor(rules, heroId, Upper(p)).Some?
    ensures FindValue(p, block, l1, heroId, rules, m1, ig1).Ok?
    ensures FindValue(p, block, l1, heroId, rules, m1, ig1) == FindValue(p, block, l2, heroId, rules, m2, ig2)
  {
  }

  /** A hero's own rule wins over the common rule for the same placeholder. */
  lemma SpecificRuleFirst(p: string, block: Json, level: Json, heroId: string, rules: Rules,
                          isModifier: bool, ignore: seq<string>)
    requires heroId in rules.heroSpecific && Upper(p) in rules.heroSpecific[heroId]
    ensures FindValue(p, block, level, heroId, rules, isModifier, ignore) ==
      Ok(ApplyRule(rules.heroSpecific[heroId][Upper(p)], block))
  {
  }

  /** A chosen key without `PerMil`, outside the modifier and per-mil cases,
      yields base × level rather than the base value. */
  lemma HeuristicSelfScaled(p: string, fs: Fields, level: int, isModifier: bool, ignore: seq<string>)
    requires var flat := RemoveIgnored(Flat(JObj(fs)), ignore);
      var cs := CandidatesUpTo(flat, PhKeywords(p), |flat|);
      cs != [] && var k := BestCand(cs).key;
      k != "" && !Contains(k, "PerMil") && GetJ(flat, k).JInt? &&
      !isModifier && !Contains(Lower(k), "modifier") && !Contains(Lower(k), "permil")
    ensures var flat := RemoveIgnored(Flat(JObj(fs)), ignore);
      var k := BestCand(CandidatesUpTo(flat, PhKeywords(p), |flat|)).key;
      Heuristic(p, JObj(fs), JInt(level), isModifier, ignore) ==
        Ok(Found(Some(JInt(GetJ(flat, k).i * level)), Some(k)))
  {
    var flat := RemoveIgnored(Flat(JObj(fs)), ignore);
    var k := BestCand(CandidatesUpTo(flat, PhKeywords(p), |flat|)).key;
    SelfIncrement(flat, k);
    ScaleSelf(flat, k, level, AsModifier(isModifier, k), IsPerMil(k));
    HeuristicChosen(p, JObj(fs), JInt(level), isModifier, ignore);
  }

  /** The heuristic once a key is chosen: its value scaled, tagged with the
      key. */
  lemma HeuristicChosen(p: string, block: Json, level: Json, isModifier: bool, ignore: seq<string>)
    requires block.JObj? && CandidatesUpTo(RemoveIgnored(Flat(block), ignore), PhKeywords(p), |RemoveIgnored(Flat(block), ignore)|) != []
    ensures var flat := RemoveIgnored(Flat(block), ignore);
      var k := BestCand(CandidatesUpTo(flat, PhKeywords(p), |flat|)).key;
      var v := Scale(NumOf(GetJ(flat, k)).value, IncValue(flat, IncKey(flat, k)), level, AsModifier(isModifier, k), IsPerMil(k));
      v.Ok? ==> Heuristic(p, block, level, isModifier, ignore) == Ok(Found(Some(ToJson(v.value)), Some(k)))
  {
  }

  /** An int that is its own increment, outside the modifier and per-mil
      cases, scales to base × level. */
  lemma ScaleSelf(flat: Fields, k: string, level: int, modifier: bool, perMil: bool)
    requires IncKey(flat, k) == Some(k) && GetJ(flat, k).JInt? && !modifier && !perMil
    ensures Scale(NumOf(GetJ(flat, k)).value, IncValue(flat, IncKey(flat, k)), JInt(level), modifier, perMil) ==
      Ok(IntV(GetJ(flat, k).i * level))
  {
    var b := GetJ(flat, k).i;
    assert IncValue(flat, IncKey(flat, k)) == IntV(b);
    SelfIncrementTotal(b, level);
  }

  // ------------------------------------------------------ imperative form

  /** The deletion loop over `keys_to_remove`. */
  method RemoveIgnoredKeys(flat: Fields, ignore: seq<string>) returns (res: Fields)
    ensures res == RemoveIgnored(flat, ignore)
  {
    res := [];
    var i := |flat|;
    while i > 0
      invariant 0 <= i <= |flat|
      invariant res == RemoveIgnored(flat[i..], ignore)
    {
      i := i - 1;
      assert flat[i..][1..] == flat[i + 1..];
      if !HasIgnored(flat[i].0, ignore) {
        res := [flat[i]] + res;
      }
    }
    assert flat[0..] == flat;
  }

  /** The loop that builds `candidates`. */
  method CollectCandidates(flat: Fields, kws: seq<string>) returns (cs: seq<Cand>)
    ensures cs == CandidatesUpTo(flat, kws, |flat|)
  {
    cs := [];
    var i := 0;
    while i < |flat|
      invariant 0 <= i <= |flat|
      invariant cs == CandidatesUpTo(flat, kws, i)
    {
      CandidatesStep(flat, kws, i);
      cs := cs + CandAt(flat, kws, i);
      i := i + 1;
    }
  }

  method FindAndCalculateValue(p: string, block: Json, level: Json, heroId: string, rules: Rules,
                               isModifier: bool, ignore: seq<string>) returns (r: Outcome<Found>)
    ensures r == FindValue(p, block, level, heroId, rules, isModifier, ignore)
  {
    var rule := RuleFor(rules, heroId, Upper(p));
    if rule.Some? {
      return Ok(ApplyRule(rule.value, block));
    }
    if !block.JObj? {
      return Ok(Found(None, None));
    }
    var flat := FlattenJson(block);
    flat := RemoveIgnoredKeys(flat, ignore);
    var cs := CollectCandidates(flat, PhKeywords(p));
    if cs == [] {
      return Ok(Found(None, None));
    }
    var k := BestCand(cs).key;
    var base := NumOf(GetJ(flat, k)).value;
    var v :- Scale(base, IncValue(flat, IncKey(flat, k)), level, AsModifier(isModifier, k), IsPerMil(k));
    r := Ok(Found(Some(ToJson(v)), Some(k)));
  }

  // ----------------------------------------------------------- hero stats

  /** A cell of the hero statistics table; `Missing` is pandas' NaN. */
  datatype Cell = Missing | Val(v: Json)

  type StatsRow = map<string, Cell>

  datatype Stats = Stats(maxAttack: int, name: Cell)

  /** The attack column: the highest costume-bonus level `CB4`…`CB1` with a
      value, else the base column. */
  function AttackColumn(row: StatsRow, i: nat): (col: string)
    requires i <= 4
    ensures col == "Max level: Attack" ||
      exists j :: 1 <= j <= i && col == CbColumn(j) && HasCb(row, j)
  {
    if i == 0 then "Max level: Attack"
    else if HasCb(row, i) then CbColumn(i)
    else AttackColumn(row, i - 1)
  }

  /** The column chosen is the highest costume-bonus level with a value,
      and the base column only when none has one. */
  lemma {:induction false} AttackColumnHighest(row: StatsRow, i: nat) returns (j: nat)
    requires i <= 4
    ensures j <= i && forall m :: j < m <= i ==> !HasCb(row, m)
    ensures j == 0 ==> AttackColumn(row, i) == "Max level: Attack"
    ensures j > 0 ==> AttackColumn(row, i) == CbColumn(j) && HasCb(row, j)
  {
    if i == 0 {
      j := 0;
    } else if HasCb(row, i) {
      j := i;
    } else {
      j := AttackColumnHighest(row, i - 1);
    }
  }

  function CbColumn(i: nat): (col: string)
    ensures col != "Max level: Attack"
  {
    var col := "Max level CB" + IntToString(i) + ": Attack";
    assert col[9] == ' ';
    col
  }

  /** The costume-bonus column `CB<j>` has a value. */
  predicate HasCb(row: StatsRow, j: nat) {
    CbColumn(j) in row && row[CbColumn(j)].Val?
  }

  /** `int(x)` of a table cell: NaN and text that is not an integer raise
      ValueError. */
  function CellInt(c: Cell): Outcome<int> {
    match c
    case Missing => Crash("ValueError: cannot convert float NaN to integer")
    case Val(v) =>
      if IsNumeric(v) then Ok(Trunc(NumOf(v).value))
      else if v.JStr? && ParseInt(v.s).Some? then Ok(ParseInt(v.s).value)
      else Crash("ValueError: invalid literal for int()")
  }

  /** `get_hero_final_stats`: an unknown hero or an empty row gives
      attack 0 and name "N/A". */
  function HeroFinalStats(heroId: string, db: map<string, StatsRow>): (r: Outcome<Stats>)
    ensures (heroId !in db || db[heroId] == map[]) ==> r == Ok(Stats(0, Val(JStr("N/A"))))
    ensures heroId in db && db[heroId] != map[] ==>
      var row := db[heroId];
      var col := AttackColumn(row, 4);
      (r.Crash? <==> col in row && CellInt(row[col]).Crash?) &&
      (r.Ok? ==> r.value.maxAttack == (if col in row then CellInt(row[col]).value else 0) &&
                 r.value.name == if "Name" in row then row["Name"] else Val(JStr("N/A")))
  {
    if heroId !in db || db[heroId] == map[] then Ok(Stats(0, Val(JStr("N/A"))))
    else
      var row := db[heroId];
      var col := AttackColumn(row, 4);
      var attack :- if col in row then CellInt(row[col]) else Ok(0);
      Ok(Stats(attack, if "Name" in row then row["Name"] else Val(JStr("N/A"))))
  }

  /** The column search loop of `get_hero_final_stats`. */
  method GetHeroFinalStats(heroId: string, db: map<string, StatsRow>) returns (r: Outcome<Stats>)
    ensures r == HeroFinalStats(heroId, db)
  {
    if heroId !in db || db[heroId] == map[] {
      return Ok(Stats(0, Val(JStr("N/A"))));
    }
    var row := db[heroId];
    var col := "Max level: Attack";
    var i := 4;
    while i > 0
      invariant 0 <= i <= 4
      invariant col == "Max level: Attack" && AttackColumn(row, i) == AttackColumn(row, 4)
    {
      if HasCb(row, i) {
        col := CbColumn(i);
        break;
      }
      i := i - 1;
    }
    assert col == AttackColumn(row, 4);
    var attack :- if col in row then CellInt(row[col]) else Ok(0);
    r := Ok(Stats(attack, if "Name" in row then row["Name"] else Val(JStr("N/A"))));
  }
}
