/** String operations with the meaning Python's `str` methods give them.
    Only ASCII letters are cased (Python also folds other scripts);
    whitespace is the set Python's `str.isspace` accepts. */
module Strings {

  predicate IsUpperChar(c: char) { 'A' <= c <= 'Z' }
  predicate IsLowerChar(c: char) { 'a' <= c <= 'z' }

  function LowerChar(c: char): (r: char)
    ensures !IsUpperChar(r)
    ensures !IsUpperChar(c) ==> r == c
  {
    if IsUpperChar(c) then (c as int + 32) as char else c
  }

  function UpperChar(c: char): (r: char)
    ensures !IsLowerChar(r)
    ensures !IsLowerChar(c) ==> r == c
  {
    if IsLowerChar(c) then (c as int - 32) as char else c
  }

  /** `s.lower()` */
  function Lower(s: string): (r: string)
    ensures |r| == |s|
  {
    if s == [] then [] else [LowerChar(s[0])] + Lower(s[1..])
  }

  /** Each character of `s.lower()` is the lowered character of s. */
  lemma {:induction false} LowerAt(s: string)
    ensures forall i :: 0 <= i < |s| ==> Lower(s)[i] == LowerChar(s[i])
  {
    if s != [] {
      LowerAt(s[1..]);
    }
  }

  /** `s.upper()` */
  function Upper(s: string): (r: string)
    ensures |r| == |s|
    ensures forall i :: 0 <= i < |s| ==> r[i] == UpperChar(s[i])
  {
    if s == [] then [] else [UpperChar(s[0])] + Upper(s[1..])
  }

  /** Text without lower-case letters is its own upper case. */
  lemma UpperKeeps(s: string)
    requires forall i :: 0 <= i < |s| ==> !IsLowerChar(s[i])
    ensures Upper(s) == s
  {
  }

  /** `s.islower()`: at least one cased character and none of them upper case. */
  predicate IsLowerString(s: string) {
    (exists i :: 0 <= i < |s| && IsLowerChar(s[i])) &&
    (forall i :: 0 <= i < |s| ==> !IsUpperChar(s[i]))
  }

  /** `s.startswith(p)` */
  predicate StartsWith(s: string, p: string) { p <= s }

  lemma PrefixStarts(p: string, s: string)
    ensures StartsWith(p + s, p)
  {
    assert (p + s)[..|p|] == p;
  }

  /** Every line of a + b starts with p when every line of a and of b
      does. */
  lemma AllStart(a: seq<string>, b: seq<string>, p: string)
    requires forall w :: w in a ==> StartsWith(w, p)
    requires forall w :: w in b ==> StartsWith(w, p)
    ensures forall w :: w in a + b ==> StartsWith(w, p)
  {
  }

  /** An element of the suffix from i is the i-th or one after it. */
  lemma InSuffix(ps: seq<string>, i: nat)
    requires i < |ps|
    ensures forall k :: k in ps[i..] <==> k == ps[i] || k in ps[i + 1..]
  {
    assert ps[i..] == [ps[i]] + ps[i + 1..];
  }

  /** `s.endswith(p)` */
  predicate EndsWith(s: string, p: string) {
    |p| <= |s| && s[|s| - |p|..] == p
  }

  /** `sub in s` */
  predicate Contains(s: string, sub: string)
    decreases |s|
  {
    sub <= s || (|s| > 0 && Contains(s[1..], sub))
  }

  lemma {:induction false} ContainsAt(s: string, sub: string, i: nat)
    requires i + |sub| <= |s| && s[i..i + |sub|] == sub
    ensures Contains(s, sub)
    decreases i
  {
    if i == 0 {
      assert sub <= s;
    } else {
      assert s[1..][i - 1..i - 1 + |sub|] == s[i..i + |sub|];
      ContainsAt(s[1..], sub, i - 1);
    }
  }

  lemma {:induction false} ContainsWitness(s: string, sub: string) returns (i: nat)
    requires Contains(s, sub)
    ensures i + |sub| <= |s| && s[i..i + |sub|] == sub
    decreases |s|
  {
    if sub <= s {
      i := 0;
    } else {
      var j := ContainsWitness(s[1..], sub);
      assert s[1..][j..j + |sub|] == s[j + 1..j + 1 + |sub|];
      i := j + 1;
    }
  }

  /** A substring of s is a substring of any string with s inside it. */
  lemma ContainsInConcat(a: string, s: string, b: string, sub: string)
    requires Contains(s, sub)
    ensures Contains(a + s + b, sub)
  {
    var i := ContainsWitness(s, sub);
    assert (a + s + b)[|a| + i..|a| + i + |sub|] == s[i..i + |sub|];
    ContainsAt(a + s + b, sub, |a| + i);
  }

  /** `s.replace(pat, rep)` for a non-empty pattern: every non-overlapping
      occurrence, scanning from the left. */
  function ReplaceAll(s: string, pat: string, rep: string): (r: string)
    requires |pat| > 0
    decreases |s|
  {
    if |s| < |pat| then s
    else if pat <= s then rep + ReplaceAll(s[|pat|..], pat, rep)
    else [s[0]] + ReplaceAll(s[1..], pat, rep)
  }

  /** Replacing a pattern that does not occur leaves the string as it was. */
  lemma {:induction false} ReplaceAbsent(s: string, pat: string, rep: string)
    requires |pat| > 0 && !Contains(s, pat)
    ensures ReplaceAll(s, pat, rep) == s
    decreases |s|
  {
    if |s| >= |pat| {
      ReplaceAbsent(s[1..], pat, rep);
    }
  }

  /** A prefix that does not hold the pattern's first character is copied
      as it is. */
  lemma {:induction false} ReplaceSkips(pre: string, s: string, pat: string, rep: string)
    requires |pat| > 0 && pat[0] !in pre
    ensures ReplaceAll(pre + s, pat, rep) == pre + ReplaceAll(s, pat, rep)
    decreases |pre|
  {
    if pre == [] {
      assert pre + s == s;
    } else {
      assert (pre + s)[1..] == pre[1..] + s;
      ReplaceSkips(pre[1..], s, pat, rep);
      if |pre + s| >= |pat| {
        assert !(pat <= pre + s) by { assert (pre + s)[0] == pre[0]; }
        assert ReplaceAll(pre + s, pat, rep) == [pre[0]] + ReplaceAll(pre[1..] + s, pat, rep);
        assert [pre[0]] + pre[1..] == pre;
      } else {
        ReplaceShort(s, pat, rep);
      }
    }
  }

  /** A string shorter than the pattern is left as it is. */
  lemma ReplaceShort(s: string, pat: string, rep: string)
    requires 0 < |pat| && |s| < |pat|
    ensures ReplaceAll(s, pat, rep) == s
  {
  }

  /** `s.replace(pat, rep, 1)` */
  function ReplaceFirst(s: string, pat: string, rep: string): (r: string)
    requires |pat| > 0
    decreases |s|
  {
    if |s| < |pat| then s
    else if pat <= s then rep + s[|pat|..]
    else [s[0]] + ReplaceFirst(s[1..], pat, rep)
  }

  /** `s.split(sep)` for a one-character separator. */
  function Split(s: string, sep: char): (r: seq<string>)
    ensures |r| > 0
    decreases |s|
  {
    if s == [] then [""]
    else if s[0] == sep then [""] + Split(s[1..], sep)
    else var rest := Split(s[1..], sep); [[s[0]] + rest[0]] + rest[1..]
  }

  /** `sep.join(parts)` */
  function Join(parts: seq<string>, sep: string): string {
    if parts == [] then ""
    else if |parts| == 1 then parts[0]
    else parts[0] + sep + Join(parts[1..], sep)
  }

  /** Concatenation regrouped. */
  lemma Regroup<T>(a: seq<T>, b: seq<T>, c: seq<T>, d: seq<T>)
    ensures a + (b + c + d) == a + b + c + d
  {
  }

  /** Two and four parts joined with a separator. */
  lemma JoinTwo(a: string, b: string, sep: string)
    ensures Join([a, b], sep) == a + sep + b
  {
    assert [a, b][1..] == [b];
  }

  lemma JoinFour(a: string, b: string, c: string, d: string, sep: string)
    ensures Join([a, b, c, d], sep) == a + sep + b + sep + c + sep + d
  {
    assert [a, b, c, d][1..] == [b, c, d];
    assert [b, c, d][1..] == [c, d];
    JoinTwo(c, d, sep);
    assert Join([b, c, d], sep) == b + sep + (c + sep + d);
  }

  /** Splitting on a character and joining with it gives the string back. */
  lemma {:induction false} JoinSplit(s: string, sep: char)
    ensures Join(Split(s, sep), [sep]) == s
    decreases |s|
  {
    if s == [] {
    } else if s[0] == sep {
      JoinSplit(s[1..], sep);
      assert s == [sep] + s[1..];
    } else {
      JoinSplit(s[1..], sep);
      var rest := Split(s[1..], sep);
      if |rest| == 1 {
        assert s == [s[0]] + rest[0];
      } else {
        assert rest == [rest[0]] + rest[1..];
        assert Join(rest, [sep]) == rest[0] + [sep] + Join(rest[1..], [sep]);
        assert s == [s[0]] + (rest[0] + [sep] + Join(rest[1..], [sep]));
      }
    }
  }

  /** Splitting never yields a segment containing the separator. */
  lemma {:induction false} SplitSegments(s: string, sep: char)
    ensures forall i :: 0 <= i < |Split(s, sep)| ==> sep !in Split(s, sep)[i]
    decreases |s|
  {
    if s != [] {
      SplitSegments(s[1..], sep);
    }
  }

  function DigitChar(d: nat): char
    requires d < 10
  {
    "0123456789"[d]
  }

  function NatToString(n: nat): (r: string)
    ensures |r| > 0
    ensures forall i :: 0 <= i < |r| ==> '0' <= r[i] <= '9'
  {
    if n < 10 then [DigitChar(n)] else NatToString(n / 10) + [DigitChar(n % 10)]
  }

  /** `str(n)` for an int */
  function IntToString(n: int): string {
    if n < 0 then "-" + NatToString(-n) else NatToString(n)
  }

  /** The characters Python's `str.isspace` (and so `\s` and `str.strip`) accepts. */
  predicate IsSpace(c: char) {
    ('\t' <= c <= '\r') || ('\U{001c}' <= c <= ' ') || c == '\U{0085}' || c == '\U{00a0}' ||
    c == '\U{1680}' || ('\U{2000}' <= c <= '\U{200a}') || c == '\U{2028}' || c == '\U{2029}' ||
    c == '\U{202f}' || c == '\U{205f}' || c == '\U{3000}'
  }

  function StripLeft(s: string): (r: string)
    ensures |r| <= |s| && r == s[|s| - |r|..]
    ensures r == [] || !IsSpace(r[0])
  {
    if s != [] && IsSpace(s[0]) then StripLeft(s[1..]) else s
  }

  function StripRight(s: string): (r: string)
    ensures |r| <= |s| && r == s[..|r|]
    ensures r == [] || !IsSpace(r[|r| - 1])
  {
    if s != [] && IsSpace(s[|s| - 1]) then StripRight(s[..|s| - 1]) else s
  }

  /** `s.strip()` */
  function Strip(s: string): (r: string)
    ensures r == [] || (!IsSpace(r[0]) && !IsSpace(r[|r| - 1]))
  {
    StripRight(StripLeft(s))
  }

  /** Python's `\w` restricted to ASCII: letters, digits and underscore. */
  predicate IsWordChar(c: char) {
    IsUpperChar(c) || IsLowerChar(c) || ('0' <= c <= '9') || c == '_'
  }

  /** First element of minimal length (`min(xs, key=len)`). */
  function Shortest(xs: seq<string>): (r: string)
    requires |xs| > 0
    ensures r in xs
    ensures forall x :: x in xs ==> |r| <= |x|
    ensures exists i :: 0 <= i < |xs| && xs[i] == r && forall j :: 0 <= j < i ==> |r| < |xs[j]|
  {
    if |xs| == 1 then xs[0]
    else
      var rest := Shortest(xs[1..]);
      if |rest| < |xs[0]| then
        var i :| 0 <= i < |xs| - 1 && xs[1..][i] == rest && forall j :: 0 <= j < i ==> |rest| < |xs[1..][j]|;
        assert xs[i + 1] == rest && forall j :: 0 <= j < i + 1 ==> |rest| < |xs[j]|;
        rest
      else
        xs[0]
  }

  /** The elements that satisfy `p`, in their order. */
  function Keep(xs: seq<string>, p: string -> bool): (r: seq<string>)
    ensures forall x :: x in r <==> x in xs && p(x)
  {
    if xs == [] then []
    else
      var rest := Keep(xs[1..], p);
      assert forall x :: x in xs <==> x == xs[0] || x in xs[1..];
      if p(xs[0]) then [xs[0]] + rest else rest
  }

  /** `min(kept, key=len)` is, among the kept elements, the first of the
      least length in the order of `xs`. */
  lemma {:induction false} KeepShortest(xs: seq<string>, p: string -> bool)
    requires Keep(xs, p) != []
    ensures exists i ::
              0 <= i < |xs| && xs[i] == Shortest(Keep(xs, p)) &&
              forall j :: 0 <= j < i && p(xs[j]) ==> |xs[i]| < |xs[j]|
  {
    var rest := Keep(xs[1..], p);
    KeepCons(xs, p);
    if p(xs[0]) {
      ShortestCons(xs[0], rest);
    }
    if p(xs[0]) && (rest == [] || |Shortest(rest)| >= |xs[0]|) {
      assert Shortest(Keep(xs, p)) == xs[0];
    } else {
      assert Shortest(Keep(xs, p)) == Shortest(rest);
      KeepShortest(xs[1..], p);
      var i :| 0 <= i < |xs| - 1 && xs[1..][i] == Shortest(rest) &&
        (forall j :: 0 <= j < i && p(xs[1..][j]) ==> |xs[1..][i]| < |xs[1..][j]|);
      forall j | 0 <= j < i + 1 && p(xs[j]) ensures |xs[i + 1]| < |xs[j]| {
        if j > 0 {
          assert xs[j] == xs[1..][j - 1];
        }
      }
    }
  }

  lemma KeepCons(xs: seq<string>, p: string -> bool)
    requires xs != []
    ensures Keep(xs, p) == if p(xs[0]) then [xs[0]] + Keep(xs[1..], p) else Keep(xs[1..], p)
  {
  }

  lemma ShortestCons(x: string, ys: seq<string>)
    ensures Shortest([x] + ys) == if ys != [] && |Shortest(ys)| < |x| then Shortest(ys) else x
  {
    assert ([x] + ys)[1..] == ys;
  }

  /** The distinct elements, in first-occurrence order. */
  function Dedup(xs: seq<string>): (r: seq<string>)
    ensures forall x :: x in r <==> x in xs
    ensures forall i, j :: 0 <= i < j < |r| ==> r[i] != r[j]
  {
    if xs == [] then []
    else
      var r := Dedup(xs[..|xs| - 1]);
      assert forall x :: x in xs <==> x in xs[..|xs| - 1] || x == xs[|xs| - 1];
      if xs[|xs| - 1] in r then r else r + [xs[|xs| - 1]]
  }

  /** `a` is `b` with some elements left out. */
  predicate SubSeq(a: seq<string>, b: seq<string>)
    decreases |b|
  {
    a == [] || (b != [] && ((a[0] == b[0] && SubSeq(a[1..], b[1..])) || SubSeq(a, b[1..])))
  }

  lemma {:induction false} SubSeqRefl(a: seq<string>)
    ensures SubSeq(a, a)
  {
    if a != [] {
      SubSeqRefl(a[1..]);
    }
  }

  lemma {:induction false} SubSeqTrans(a: seq<string>, b: seq<string>, c: seq<string>)
    requires SubSeq(a, b) && SubSeq(b, c)
    ensures SubSeq(a, c)
    decreases |c|
  {
    if a != [] {
      if SubSeq(b, c[1..]) {
        SubSeqTrans(a, b, c[1..]);
      } else if a[0] == b[0] && SubSeq(a[1..], b[1..]) {
        SubSeqTrans(a[1..], b[1..], c[1..]);
      } else {
        SubSeqTrans(a, b[1..], c[1..]);
      }
    }
  }

  lemma {:induction false} SubSeqPrefix(a: seq<string>, b: seq<string>)
    ensures SubSeq(a, a + b)
  {
    if a != [] {
      SubSeqPrefix(a[1..], b);
      assert (a + b)[1..] == a[1..] + b;
    }
  }

  lemma {:induction false} SubSeqSuffix(a: seq<string>, b: seq<string>)
    ensures SubSeq(b, a + b)
  {
    if a == [] {
      SubSeqRefl(b);
      assert a + b == b;
    } else {
      SubSeqSuffix(a[1..], b);
      assert (a + b)[1..] == a[1..] + b;
    }
  }
}
