/** Text filling: the `{NAME}` placeholders of a template, the display form
    of numbers, template substitution, the bullet normalisation of tooltip
    texts and the lookup of a record's extra tooltip. */
module Describe {
  import opened Strings
  import opened Json
  import opened Tables
  import opened Values
  import opened Records
  import opened Params
  import opened Matcher

  // ------------------------------------------------------- placeholders

  /** The length of the run of word characters at the start of s. */
  function WordRun(s: string): (n: nat)
    ensures n <= |s|
    ensures forall i :: 0 <= i < n ==> IsWordChar(s[i])
    ensures n < |s| ==> !IsWordChar(s[n])
  {
    if s != [] && IsWordChar(s[0]) then 1 + WordRun(s[1..]) else 0
  }

  /** s starts with `{`, a non-empty run of word characters and `}`. */
  predicate TokenAtStart(s: string) {
    |s| > 0 && s[0] == '{' && 0 < WordRun(s[1..]) < |s| - 1 && s[1 + WordRun(s[1..])] == '}'
  }

  /** `re.findall(r'\{(\w+)\}', s)`: the names of the tokens, scanning
      from the left without overlap. */
  function Scan(s: string): (r: seq<string>)
    decreases |s|
  {
    if s == [] then []
    else if TokenAtStart(s) then
      var n := WordRun(s[1..]);
      [s[1..1 + n]] + Scan(s[n + 2..])
    else Scan(s[1..])
  }

  /** t is a placeholder name written as `{t}` somewhere in s. */
  predicate IsToken(s: string, t: string) {
    |t| > 0 && (forall i :: 0 <= i < |t| ==> IsWordChar(t[i])) && Contains(s, "{" + t + "}")
  }

  /** A substring of a suffix is a substring of the whole. */
  lemma {:induction false} ContainsInSuffix(s: string, k: nat, sub: string)
    requires k <= |s| && Contains(s[k..], sub)
    ensures Contains(s, sub)
    decreases k
  {
    if k > 0 {
      assert s[1..][k - 1..] == s[k..];
      ContainsInSuffix(s[1..], k - 1, sub);
    }
  }

  /** Every scanned name is a placeholder written in the text. */
  lemma {:induction false} ScanSound(s: string)
    ensures forall t :: t in Scan(s) ==> IsToken(s, t)
    decreases |s|
  {
    if s != [] {
      if TokenAtStart(s) {
        var n := WordRun(s[1..]);
        var w := s[1..1 + n];
        ScanSound(s[n + 2..]);
        assert s[0..|"{" + w + "}"|] == "{" + w + "}";
        ContainsAt(s, "{" + w + "}", 0);
        forall t | t in Scan(s[n + 2..]) ensures IsToken(s, t) {
          ContainsInSuffix(s, n + 2, "{" + t + "}");
        }
      } else {
        ScanSound(s[1..]);
      }
    }
  }

  /** A token written at the start is the one the scan takes there. */
  lemma TokenAtZero(s: string, t: string)
    requires |t| > 0 && forall j :: 0 <= j < |t| ==> IsWordChar(t[j])
    requires |t| + 2 <= |s| && s[..|t| + 2] == "{" + t + "}"
    ensures TokenAtStart(s) && WordRun(s[1..]) == |t| && s[1..1 + |t|] == t
  {
    var pat := "{" + t + "}";
    assert forall j :: 0 <= j < |t| ==> s[1..][j] == t[j] by {
      forall j | 0 <= j < |t| ensures s[1..][j] == t[j] {
        assert s[1 + j] == pat[1 + j];
      }
    }
    assert s[1..][|t|] == pat[|t| + 1] == '}';
    assert s[0] == pat[0];
    assert s[1..1 + |t|] == t by {
      forall j | 0 <= j < |t| ensures s[1..1 + |t|][j] == t[j] {
        assert s[1 + j] == pat[1 + j];
      }
    }
  }

  /** A token the scan takes at the start covers no later `{` before its end. */
  lemma TokenSkips(s: string, i: nat)
    requires TokenAtStart(s) && 0 < i < |s| && s[i] == '{'
    ensures i >= WordRun(s[1..]) + 2
  {
    var n := WordRun(s[1..]);
    assert forall j :: 1 <= j <= n ==> s[j] == s[1..][j - 1];
  }

  /** A placeholder written at position i is scanned. */
  lemma {:induction false} ScanFinds(s: string, t: string, i: nat)
    requires |t| > 0 && forall j :: 0 <= j < |t| ==> IsWordChar(t[j])
    requires i + |t| + 2 <= |s| && s[i..i + |t| + 2] == "{" + t + "}"
    ensures t in Scan(s)
    decreases |s|
  {
    assert s[i] == s[i..i + |t| + 2][0] == '{';
    if i == 0 {
      TokenAtZero(s, t);
    } else if TokenAtStart(s) {
      var n := WordRun(s[1..]);
      TokenSkips(s, i);
      SliceOfSuffix(s, n + 2, i, |t| + 2);
      ScanFinds(s[n + 2..], t, i - (n + 2));
    } else {
      SliceOfSuffix(s, 1, i, |t| + 2);
      ScanFinds(s[1..], t, i - 1);
    }
  }

  /** The slice at i of s is the slice at i - k of the suffix from k. */
  lemma SliceOfSuffix(s: string, k: nat, i: nat, m: nat)
    requires k <= i && i + m <= |s|
    ensures s[k..][i - k..i - k + m] == s[i..i + m]
  {
  }

  /** `set(re.findall(r'\{(\w+)\}', s))`, iterated in first-occurrence
      order. */
  function Placeholders(s: string): (r: seq<string>)
    ensures forall i, j :: 0 <= i < j < |r| ==> r[i] != r[j]
  {
    Dedup(Scan(s))
  }

  /** The placeholders are exactly the word-character names written
      between braces in the text. */
  lemma PlaceholdersExact(s: string, t: string)
    ensures t in Placeholders(s) <==> IsToken(s, t)
  {
    ScanSound(s);
    if IsToken(s, t) {
      var i := ContainsWitness(s, "{" + t + "}");
      ScanFinds(s, t, i);
    }
  }

  // ------------------------------------------------------ number display

  /** `format_value`: an integral float becomes an int, another float the
      one-decimal text, and anything else is kept. */
  function FormatValue(v: Json): (r: Json)
    ensures v.JFloat? && IsIntegral(v.r) ==> r.JInt? && r.i as real == v.r
    ensures v.JFloat? && !IsIntegral(v.r) ==> r == JStr(Fixed1(v.r))
    ensures !v.JFloat? ==> r == v
  {
    match v
    case JFloat(x) => if IsIntegral(x) then JInt(x.Floor) else JStr(Fixed1(x))
    case _ => v
  }

  /** Formatting twice is formatting once. */
  lemma FormatIdempotent(v: Json)
    ensures FormatValue(FormatValue(v)) == FormatValue(v)
  {
  }

  /** An integral float prints as its int with ".0" after it; formatting
      drops the ".0". */
  lemma FormatDropsPointZero(x: real)
    requires IsIntegral(x)
    ensures PyStr(JFloat(x)) == PyStr(FormatValue(JFloat(x))) + ".0"
  {
  }

  /** `{k: format_value(v) for k, v in params.items()}` */
  function FormatAll(fs: Fields): (r: Fields)
    ensures |r| == |fs|
    ensures forall i :: 0 <= i < |fs| ==> r[i] == (fs[i].0, FormatValue(fs[i].1))
  {
    if fs == [] then [] else [(fs[0].0, FormatValue(fs[0].1))] + FormatAll(fs[1..])
  }

  /** Formatting keeps the keys and formats each value. */
  lemma {:induction false} FormatAllGet(fs: Fields, k: string)
    ensures Keys(FormatAll(fs)) == Keys(fs)
    ensures Get(FormatAll(fs), k) == if Has(fs, k) then Some(FormatValue(Get(fs, k).value)) else None
  {
    if fs != [] {
      FormatAllGet(fs[1..], k);
      assert FormatAll(fs)[1..] == FormatAll(fs[1..]);
      assert Keys(FormatAll(fs)) == [fs[0].0] + Keys(FormatAll(fs[1..]));
      assert Keys(fs) == [fs[0].0] + Keys(fs[1..]);
    }
  }

  // ----------------------------------------------------- template filling

  /** The `en` and `ja` texts of a description. */
  datatype Texts = Texts(en: string, ja: string)

  /** The token that stands for a parameter. */
  function Token(k: string): (r: string)
    ensures |r| == |k| + 2 && r[0] == '{'
  {
    "{" + k + "}"
  }

  /** Each parameter in turn, every `{key}` replaced by `str(value)`. */
  function FillText(t: string, params: Fields): string
    decreases |params|
  {
    if params == [] then t
    else FillText(ReplaceAll(t, Token(params[0].0), PyStr(params[0].1)), params[1..])
  }

  /** `generate_description(lang_id, params, lang_db)`: a missing template
      is replaced by `NO_TEMPLATE_FOR_<id>` in both languages (a template
      without a text reads ""), and both texts are then filled. */
  function Description(langId: string, params: Fields, db: LangDb): (r: Texts)
    ensures !InLang(db, langId) ==>
      r == Texts(FillText("NO_TEMPLATE_FOR_" + langId, params), FillText("NO_TEMPLATE_FOR_" + langId, params))
    ensures InLang(db, langId) ==>
      r == Texts(FillText(TextOr(LangGet(db, langId).value.en), params),
                 FillText(TextOr(LangGet(db, langId).value.ja), params))
  {
    match LangGet(db, langId)
    case None => Texts(FillText("NO_TEMPLATE_FOR_" + langId, params), FillText("NO_TEMPLATE_FOR_" + langId, params))
    case Some(e) => Texts(FillText(TextOr(e.en), params), FillText(TextOr(e.ja), params))
  }

  /** The default text of a missing template is filled too: an id holding
      `{A}` reads with the value of `A` in its place. */
  lemma NoTemplateFilled(db: LangDb)
    requires !InLang(db, "x{A}")
    ensures Description("x{A}", [("A", JInt(1))], db) == Texts("NO_TEMPLATE_FOR_x1", "NO_TEMPLATE_FOR_x1")
  {
    assert "NO_TEMPLATE_FOR_" + "x{A}" == "NO_TEMPLATE_FOR_x" + "{A}";
    ReplaceSkips("NO_TEMPLATE_FOR_x", "{A}", Token("A"), PyStr(JInt(1)));
    assert PyStr(JInt(1)) == "1";
  }

  /** Only tokens of the parameters' keys are replaced: a text that holds
      none of them is left as it is. */
  lemma {:induction false} FillUnused(t: string, params: Fields)
    requires forall i :: 0 <= i < |params| ==> !Contains(t, Token(params[i].0))
    ensures FillText(t, params) == t
    decreases |params|
  {
    if params != [] {
      ReplaceAbsent(t, Token(params[0].0), PyStr(params[0].1));
      assert forall i :: 0 <= i < |params[1..]| ==> params[1..][i] == params[i + 1];
      FillUnused(t, params[1..]);
    }
  }

  /** Empty parameters give the template text back. */
  lemma NoParamsKeepText(langId: string, db: LangDb)
    requires InLang(db, langId)
    ensures Description(langId, [], db) ==
      Texts(TextOr(LangGet(db, langId).value.en), TextOr(LangGet(db, langId).value.ja))
  {
  }

  /** A token between brace-free texts is replaced by the value's text. */
  lemma {:induction false} ReplaceBetween(a: string, k: string, v: string, b: string)
    requires '{' !in a && '{' !in b
    ensures ReplaceAll(a + Token(k) + b, Token(k), v) == a + v + b
    decreases |a|
  {
    var pat := Token(k);
    if a == [] {
      assert a + pat + b == pat + b;
      assert (pat + b)[|pat|..] == b;
      MissingCharAbsent(b, pat, '{');
      ReplaceAbsent(b, pat, v);
    } else {
      var s := a + pat + b;
      assert s[0] == a[0] != '{';
      assert !(pat <= s);
      assert s[1..] == a[1..] + pat + b;
      ReplaceBetween(a[1..], k, v, b);
      assert a == [a[0]] + a[1..];
    }
  }

  /** A template with one token among brace-free text is filled with the
      value's text in its place. */
  lemma FillSingle(a: string, k: string, v: Json, b: string)
    requires '{' !in a && '{' !in b
    ensures FillText(a + Token(k) + b, [(k, v)]) == a + PyStr(v) + b
  {
    ReplaceBetween(a, k, PyStr(v), b);
  }

  // ------------------------------------------------- bullet normalisation

  /** The length of the run of whitespace at the start of s. */
  function SpaceRun(s: string): (n: nat)
    ensures n <= |s|
  {
    if s != [] && IsSpace(s[0]) then 1 + SpaceRun(s[1..]) else 0
  }

  /** The last index below n holding a line break, -1 when there is none. */
  function LastNewline(s: string, n: nat): (r: int)
    requires n <= |s|
    ensures -1 <= r < n
    ensures r >= 0 ==> s[r] == '\n'
  {
    if n == 0 then -1 else if s[n - 1] == '\n' then n - 1 else LastNewline(s, n - 1)
  }

  /** `re.sub(r'\[\*\]|\n\s*\n', '\n・', s)`: a `[*]` marker, or a line
      break followed by whitespace up to and including the last line break
      in that whitespace, becomes a line break and a bullet. */
  function Bullets(s: string): (r: string)
    decreases |s|
  {
    if s == [] then []
    else if StartsWith(s, "[*]") then "\n・" + Bullets(s[3..])
    else if s[0] == '\n' && LastNewline(s[1..], SpaceRun(s[1..])) >= 0 then
      "\n・" + Bullets(s[LastNewline(s[1..], SpaceRun(s[1..])) + 2..])
    else [s[0]] + Bullets(s[1..])
  }

  /** A text without a line break and without a bracket is unchanged. */
  lemma {:induction false} BulletsPlain(s: string)
    requires '\n' !in s && '[' !in s
    ensures Bullets(s) == s
    decreases |s|
  {
    if s != [] {
      assert s[0] in s;
      assert !StartsWith(s, "[*]");
      assert forall c :: c in s[1..] ==> c in s;
      BulletsPlain(s[1..]);
    }
  }

  /** The first character of the result is a line break or the first
      character of the text. */
  lemma BulletsFirst(s: string)
    requires s != []
    ensures Bullets(s) != [] && (Bullets(s)[0] == '\n' || Bullets(s) == [s[0]] + Bullets(s[1..]))
  {
  }

  /** A text whose result starts with `*]` starts with `*]` itself. */
  lemma BulletsStarClose(s: string)
    requires |Bullets(s)| >= 2 && Bullets(s)[0] == '*' && Bullets(s)[1] == ']'
    ensures |s| >= 2 && s[0] == '*' && s[1] == ']'
  {
    BulletsFirst(s);
    assert Bullets(s) == [s[0]] + Bullets(s[1..]);
    BulletsFirst(s[1..]);
  }

  /** A `[` followed by a text whose result starts with `*]` starts a
      marker. */
  lemma MarkerFromRest(s: string)
    requires |s| > 0 && s[0] == '['
    requires "[*]" <= [s[0]] + Bullets(s[1..])
    ensures StartsWith(s, "[*]")
  {
    var rest := Bullets(s[1..]);
    assert "[*]"[1] == ([s[0]] + rest)[1] == rest[0];
    assert "[*]"[2] == ([s[0]] + rest)[2] == rest[1];
    BulletsStarClose(s[1..]);
    assert s[..3] == "[*]";
  }

  /** A text whose first characters cannot start sub, followed by a text
      without sub, has no sub. */
  lemma {:induction false} NoneAcross(a: string, b: string, sub: string)
    requires |sub| > 0 && sub[0] !in a && !Contains(b, sub)
    ensures !Contains(a + b, sub)
    decreases |a|
  {
    if a == [] {
      assert a + b == b;
    } else {
      assert a[0] in a;
      assert (a + b)[0] == a[0];
      assert (a + b)[1..] == a[1..] + b;
      assert forall c :: c in a[1..] ==> c in a;
      NoneAcross(a[1..], b, sub);
    }
  }

  /** No `[*]` marker survives the normalisation. */
  lemma {:induction false} BulletsNoMarker(s: string)
    ensures !Contains(Bullets(s), "[*]")
    decreases |s|
  {
    if s != [] {
      if StartsWith(s, "[*]") {
        BulletsNoMarker(s[3..]);
        NoneAcross("\n・", Bullets(s[3..]), "[*]");
      } else if s[0] == '\n' && LastNewline(s[1..], SpaceRun(s[1..])) >= 0 {
        BulletsNoMarker(s[LastNewline(s[1..], SpaceRun(s[1..])) + 2..]);
        NoneAcross("\n・", Bullets(s[LastNewline(s[1..], SpaceRun(s[1..])) + 2..]), "[*]");
      } else {
        var rest := Bullets(s[1..]);
        BulletsNoMarker(s[1..]);
        if s[0] != '[' {
          NoneAcross([s[0]], rest, "[*]");
        } else {
          if "[*]" <= [s[0]] + rest {
            MarkerFromRest(s);
            assert false;
          }
          assert ([s[0]] + rest)[1..] == rest;
        }
      }
    }
  }

  /** The tooltip form of a text: bullets normalised, then stripped. */
  function TooltipText(s: string): (r: string)
    ensures !Contains(StripLeft(Bullets(s)), "[*]") &&
      (r == [] || (!IsSpace(r[0]) && !IsSpace(r[|r| - 1])))
  {
    BulletsNoMarker(s);
    var b := Bullets(s);
    SuffixSplit(b, StripLeft(b));
    NoneSuffix(b[..|b| - |StripLeft(b)|], StripLeft(b), "[*]");
    Strip(b)
  }

  lemma SuffixSplit(s: string, t: string)
    requires |t| <= |s| && t == s[|s| - |t|..]
    ensures s == s[..|s| - |t|] + t
  {
  }

  /** A suffix of a text without sub has no sub. */
  lemma NoneSuffix(a: string, b: string, sub: string)
    requires !Contains(a + b, sub)
    ensures !Contains(b, sub)
  {
    assert a + b + [] == a + b;
    if Contains(b, sub) {
      ContainsInConcat(a, b, [], sub);
    }
  }

  // ------------------------------------------------------ extra tooltip

  /** The key is a tooltip template for the skill in one of the categories. */
  predicate ExtraCandidate(key: string, skill: string, categories: seq<string>) {
    Contains(key, skill) && Contains(key, ".extra") &&
    exists i :: 0 <= i < |categories| && Contains(key, categories[i])
  }

  /** The first tooltip template for the skill in one of the categories. */
  function ExtraLangId(ids: seq<string>, skill: string, categories: seq<string>): (r: Option<string>)
    ensures r.Some? ==> exists i :: (0 <= i < |ids| && ids[i] == r.value &&
      ExtraCandidate(ids[i], skill, categories) &&
      forall j :: 0 <= j < i ==> !ExtraCandidate(ids[j], skill, categories))
    ensures r.None? <==> forall i :: 0 <= i < |ids| ==> !ExtraCandidate(ids[i], skill, categories)
  {
    if ids == [] then None
    else if ExtraCandidate(ids[0], skill, categories) then Some(ids[0])
    else
      var r := ExtraLangId(ids[1..], skill, categories);
      assert forall i :: 0 < i < |ids| ==> ids[i] == ids[1..][i - 1];
      r
  }

  /** The parameters the main record already has for the first n
      placeholders, in placeholder order. */
  function Picked(ps: seq<string>, n: nat, main: Fields): (r: Fields)
    requires n <= |ps|
    ensures forall k :: Has(r, k) <==> k in ps[..n] && Has(main, k)
    ensures forall k :: Has(r, k) ==> Get(r, k) == Get(main, k)
  {
    if n == 0 then []
    else
      var acc := Picked(ps, n - 1, main);
      assert ps[..n] == ps[..n - 1] + [ps[n - 1]];
      var p := ps[n - 1];
      if Has(main, p) then
        FreshKey(acc, p, Get(main, p).value);
        PutGet(acc, p, Get(main, p).value, p);
        Put(acc, p, Get(main, p).value)
      else acc
  }

  /** `_find_and_parse_extra_description(categories, skill, search_context,
      main_params, ...)`: the first tooltip template among `extra_lang_ids`
      for the skill, filled from the main record's parameters first and the
      value resolver (on the search context and its `maxLevel`) for the
      rest; none without a skill, a category or a template. */
  function ExtraFor(categories: seq<string>, skill: string, ctx: Fields, main: Fields, env: Env,
                    extraIds: seq<string>): (r: Outcome<Option<Extra>>)
    ensures skill == [] || categories == [] ==> r == Ok(None)
    ensures r.Ok? && r.value.Some? ==>
      r.value.value.langId in extraIds && InLang(env.lang, r.value.value.langId) &&
      ExtraCandidate(r.value.value.langId, Lower(skill), categories)
    ensures r.Ok? && r.value.Some? ==> forall k ::
      k in Placeholders(EnText(env.lang, r.value.value.langId)) && Has(main, k) ==>
      Get(r.value.value.params, k) == Get(main, k)
    ensures r.Ok? && r.value.Some? ==> ExtraLangId(extraIds, Lower(skill), categories) == Some(r.value.value.langId)
    ensures (skill != [] && categories != [] &&
             (ExtraLangId(extraIds, Lower(skill), categories).None? ||
              !InLang(env.lang, ExtraLangId(extraIds, Lower(skill), categories).value))) ==> r == Ok(None)
    ensures (skill != [] && categories != [] && ExtraLangId(extraIds, Lower(skill), categories).Some? &&
             InLang(env.lang, ExtraLangId(extraIds, Lower(skill), categories).value)) ==>
      (r.Ok? <==> ExtraFilled(ExtraLangId(extraIds, Lower(skill), categories).value, ctx, main, env).Ok?) &&
      (r.Ok? ==> r.value == Some(ExtraFilled(ExtraLangId(extraIds, Lower(skill), categories).value, ctx, main, env).value))
  {
    if skill == [] || categories == [] then Ok(None)
    else match ExtraLangId(extraIds, Lower(skill), categories)
      case None => Ok(None)
      case Some(id) =>
        if !InLang(env.lang, id) then Ok(None)
        else
          var extra :- ExtraFilled(id, ctx, main, env);
          Ok(Some(extra))
  }

  /** The tooltip with template `id`: the main record's parameters for its
      placeholders, then the value resolver (on the search context and its
      `maxLevel`) for the rest. */
  function ExtraFilled(id: string, ctx: Fields, main: Fields, env: Env): (r: Outcome<Extra>)
    ensures r.Ok? ==> r.value.langId == id
    ensures r.Ok? ==> forall k :: k in Placeholders(EnText(env.lang, id)) && Has(main, k) ==>
      Get(r.value.params, k) == Get(main, k)
  {
    var ps := Placeholders(EnText(env.lang, id));
    var find := Finder(JObj(ctx), GetOr(ctx, "maxLevel", JInt(8)), env, false, []);
    PickedAll(ps, main);
    var params :- FillParams(ps, Picked(ps, |ps|, main), find, env.stats.maxAttack, Plain);
    var texts := Description(id, FormatAll(params), env.lang);
    Ok(Extra(id, params, TooltipText(texts.en), TooltipText(texts.ja)))
  }

  /** A tooltip placeholder the main record does not have holds what the
      value resolver found for it on the search context. */
  lemma ExtraResolved(id: string, ctx: Fields, main: Fields, env: Env, k: string)
    requires k in Placeholders(EnText(env.lang, id)) && !Has(main, k)
    requires ExtraFilled(id, ctx, main, env).Ok?
    ensures var find := Finder(JObj(ctx), GetOr(ctx, "maxLevel", JInt(8)), env, false, []);
      find(k).Ok? && Get(ExtraFilled(id, ctx, main, env).value.params, k) == find(k).value.value
  {
    var ps := Placeholders(EnText(env.lang, id));
    var find := Finder(JObj(ctx), GetOr(ctx, "maxLevel", JInt(8)), env, false, []);
    var seed := Picked(ps, |ps|, main);
    var i :| 0 <= i < |ps| && ps[i] == k;
    assert !Has(seed, k);
    FilledValue(ps, seed, find, env.stats.maxAttack, Plain, i);
  }

  /** Every placeholder the main record has is picked, with its value. */
  lemma PickedAll(ps: seq<string>, main: Fields)
    ensures forall k :: k in ps && Has(main, k) ==>
      Has(Picked(ps, |ps|, main), k) && Get(Picked(ps, |ps|, main), k) == Get(main, k)
  {
    assert ps[..|ps|] == ps;
  }

  /** The lookup as the source writes it: a search loop that stops at the
      first tooltip template, a loop copying the main record's parameters
      and the placeholder loop for the rest. */
  method FindExtraDescription(categories: seq<string>, skill: string, ctx: Fields, main: Fields, env: Env,
                              extraIds: seq<string>) returns (r: Outcome<Option<Extra>>)
    ensures r == ExtraFor(categories, skill, ctx, main, env, extraIds)
  {
    if skill == [] || categories == [] {
      return Ok(None);
    }
    var lowered := Lower(skill);
    var found: Option<string> := None;
    var i := 0;
    while i < |extraIds|
      invariant 0 <= i <= |extraIds|
      invariant forall j :: 0 <= j < i ==> !ExtraCandidate(extraIds[j], lowered, categories)
      invariant found.None?
    {
      if ExtraCandidate(extraIds[i], lowered, categories) {
        found := Some(extraIds[i]);
        break;
      }
      i := i + 1;
    }
    assert found == ExtraLangId(extraIds, lowered, categories);
    if found.None? || !InLang(env.lang, found.value) {
      return Ok(None);
    }
    var extra :- FillExtra(found.value, ctx, main, env);
    r := Ok(Some(extra));
  }

  /** The loop copying the main record's parameters for the placeholders. */
  method PickParams(ps: seq<string>, main: Fields) returns (seed: Fields)
    ensures seed == Picked(ps, |ps|, main)
  {
    seed := [];
    var k := 0;
    while k < |ps|
      invariant 0 <= k <= |ps|
      invariant seed == Picked(ps, k, main)
    {
      PickedStep(ps, k, main);
      if Has(main, ps[k]) {
        seed := Put(seed, ps[k], Get(main, ps[k]).value);
      }
      k := k + 1;
    }
  }

  /** One more placeholder is copied exactly when the main record has it. */
  lemma PickedStep(ps: seq<string>, k: nat, main: Fields)
    requires k < |ps|
    ensures Picked(ps, k + 1, main) ==
      if Has(main, ps[k]) then Put(Picked(ps, k, main), ps[k], Get(main, ps[k]).value)
      else Picked(ps, k, main)
  {
  }

  /** The loop copying the main record's parameters, then the placeholder
      loop for the rest. */
  method FillExtra(id: string, ctx: Fields, main: Fields, env: Env) returns (r: Outcome<Extra>)
    ensures r == ExtraFilled(id, ctx, main, env)
  {
    var ps := Placeholders(EnText(env.lang, id));
    var seed := PickParams(ps, main);
    var find := Finder(JObj(ctx), GetOr(ctx, "maxLevel", JInt(8)), env, false, []);
    var params :- ComputeParams(ps, seed, find, env.stats.maxAttack, Plain);
    var texts := Description(id, FormatAll(params), env.lang);
    r := Ok(Extra(id, params, TooltipText(texts.en), TooltipText(texts.ja)));
  }
}
