/** The passive-skill parser: a title template chosen by keyword score, a
    description template derived from it, and both filled from the same
    parameters. */
module Passives {
  import opened Strings
  import opened Json
  import opened Tables
  import opened Values
  import opened Records
  import opened Params
  import opened Describe
  import opened Matcher

  const TitlePrefix := "herocard.passive_skill.title."
  const DescPrefix := "herocard.passive_skill.description."

  /** The keyword names collected from a block (the source's set
      comprehension), without duplicates. */
  function Keywords(block: Fields): (r: seq<string>)
    ensures forall i, j :: 0 <= i < j < |r| ==> r[i] != r[j]
  {
    var kws := Collect(JObj(block), 0);
    Dedup(seq(|kws|, i requires 0 <= i < |kws| => kws[i].0))
  }

  /** How many of the keywords are dot-segments of the key. */
  function SegmentMatches(kws: seq<string>, key: string): (n: nat)
    ensures n <= |kws|
    ensures n == 0 <==> forall i :: 0 <= i < |kws| ==> kws[i] !in Split(key, '.')
  {
    if kws == [] then 0
    else
      var rest := SegmentMatches(kws[1..], key);
      assert forall i :: 0 < i < |kws| ==> kws[i] == kws[1..][i - 1];
      (if kws[0] in Split(key, '.') then 1 else 0) + rest
  }

  /** The scored title candidates, in language-table order. */
  function TitleScores(cs: seq<string>, kws: seq<string>): (r: seq<Cand>)
    ensures |r| == |cs|
    ensures forall i :: 0 <= i < |cs| ==> r[i] == Cand(cs[i], SegmentMatches(kws, cs[i]) as real)
  {
    seq(|cs|, i requires 0 <= i < |cs| => Cand(cs[i], SegmentMatches(kws, cs[i]) as real))
  }

  /** The title template: among the title keys for the skill type, the
      highest score, then the shortest key, then the first; none when there
      is no title key for the type. */
  function TitleId(db: LangDb, stype: string, kws: seq<string>): (r: Option<string>)
    ensures r.None? <==> KeysWithPrefix(db, TitlePrefix + stype) == []
    ensures r.Some? ==> r.value in KeysWithPrefix(db, TitlePrefix + stype)
    ensures r.Some? ==> forall c :: c in KeysWithPrefix(db, TitlePrefix + stype) ==>
      SegmentMatches(kws, c) < SegmentMatches(kws, r.value) ||
      (SegmentMatches(kws, c) == SegmentMatches(kws, r.value) && |r.value| <= |c|)
    ensures r.Some? ==> var cs := KeysWithPrefix(db, TitlePrefix + stype);
      exists i :: 0 <= i < |cs| && cs[i] == r.value && forall j :: 0 <= j < i ==>
        SegmentMatches(kws, cs[j]) < SegmentMatches(kws, r.value) ||
        (SegmentMatches(kws, cs[j]) == SegmentMatches(kws, r.value) && |r.value| < |cs[j]|)
  {
    var cs := KeysWithPrefix(db, TitlePrefix + stype);
    if cs == [] then None
    else
      var scores := TitleScores(cs, kws);
      var best := BestCand(scores);
      assert forall c :: c in cs ==> Cand(c, SegmentMatches(kws, c) as real) in scores by {
        forall c | c in cs ensures Cand(c, SegmentMatches(kws, c) as real) in scores {
          var i :| 0 <= i < |cs| && cs[i] == c;
          assert scores[i] == Cand(c, SegmentMatches(kws, c) as real);
        }
      }
      var i :| 0 <= i < |scores| && scores[i] == best && forall j :: 0 <= j < i ==> Better(best, scores[j]);
      assert cs[i] == best.key;
      Some(best.key)
  }

  /** The keys with a keyword as one of their dot-segments. */
  function Sharing(cs: seq<string>, kws: seq<string>): (r: seq<string>)
    ensures forall c :: c in r <==> c in cs && SegmentMatches(kws, c) > 0
  {
    Keep(cs, c => SegmentMatches(kws, c) > 0)
  }

  /** The title id with its first `.title.` turned into `.description.`. */
  function IdealDescription(title: string): string {
    ReplaceFirst(title, ".title.", ".description.")
  }

  /** The description template: the title's own description when the
      table has it; otherwise the shortest description key for the type
      that shares a keyword segment, else the shortest one. */
  function DescId(db: LangDb, stype: string, title: string, kws: seq<string>): (r: Option<string>)
    ensures InLang(db, IdealDescription(title)) ==> r == Some(IdealDescription(title))
    ensures !InLang(db, IdealDescription(title)) ==>
      (r.None? <==> KeysWithPrefix(db, DescPrefix + stype) == [])
    ensures !InLang(db, IdealDescription(title)) && r.Some? ==>
      (r.value in KeysWithPrefix(db, DescPrefix + stype) &&
       forall c :: c in KeysWithPrefix(db, DescPrefix + stype) && SegmentMatches(kws, c) > 0 ==>
         SegmentMatches(kws, r.value) > 0 && |r.value| <= |c|)
    ensures !InLang(db, IdealDescription(title)) && r.Some? && SegmentMatches(kws, r.value) == 0 ==>
      forall c :: c in KeysWithPrefix(db, DescPrefix + stype) ==> SegmentMatches(kws, c) == 0 && |r.value| <= |c|
    ensures !InLang(db, IdealDescription(title)) && r.Some? ==>
      r.value == ShortestSharing(KeysWithPrefix(db, DescPrefix + stype), kws)
  {
    var ideal := IdealDescription(title);
    if InLang(db, ideal) then Some(ideal)
    else
      var cs := KeysWithPrefix(db, DescPrefix + stype);
      if cs == [] then None
      else
        Some(ShortestSharing(cs, kws))
  }

  /** `min(refined, key=len)` when `refined` is non-empty, else
      `min(candidates, key=len)`: the first key of least length among
      those sharing a keyword segment, or among all keys when none does. */
  function ShortestSharing(cs: seq<string>, kws: seq<string>): (r: string)
    requires cs != []
    ensures r in cs
    ensures SegmentMatches(kws, r) > 0 <==> Sharing(cs, kws) != []
    ensures SegmentMatches(kws, r) > 0 ==>
      exists i ::
        0 <= i < |cs| && cs[i] == r &&
        forall j :: 0 <= j < i && SegmentMatches(kws, cs[j]) > 0 ==> |r| < |cs[j]|
    ensures SegmentMatches(kws, r) > 0 ==>
      forall c :: c in cs && SegmentMatches(kws, c) > 0 ==> |r| <= |c|
    ensures SegmentMatches(kws, r) == 0 ==>
      exists i :: 0 <= i < |cs| && cs[i] == r && forall j :: 0 <= j < i ==> |r| < |cs[j]|
    ensures SegmentMatches(kws, r) == 0 ==> forall c :: c in cs ==> |r| <= |c|
  {
    var refined := Sharing(cs, kws);
    if refined != [] then
      KeepShortest(cs, c => SegmentMatches(kws, c) > 0);
      Shortest(refined)
    else Shortest(cs)
  }

  /** `Could not resolve passive lang_ids for skill '<id>'` */
  function PassiveWarning(id: Json): string {
    "Could not resolve passive lang_ids for skill '" + PyStr(id) + "'"
  }

  /** The parameters of a passive: the placeholders of the title and the
      description text together, from the value resolver on the skill with
      the context's level, `DAMAGE` from a per-mil key taken from the
      hero's attack. */
  function PassiveParams(skill: Fields, title: string, desc: string, level: Json, env: Env): (r: Outcome<Fields>)
    ensures r.Ok? ==> forall k :: Has(r.value, k) ==> k in Placeholders(EnText(env.lang, title) + EnText(env.lang, desc))
  {
    var ps := Placeholders(EnText(env.lang, title) + EnText(env.lang, desc));
    var params :- FillParams(ps, [], Finder(JObj(SearchContext(skill, level)), level, env, false, []),
                             env.stats.maxAttack, FromAttack);
    Ok(params)
  }

  /** Every placeholder of the two texts holds the value the resolver found
      for it, `DAMAGE` from a per-mil key converted from the hero's attack. */
  lemma PassiveValues(skill: Fields, title: string, desc: string, level: Json, env: Env, p: string)
    requires p in Placeholders(EnText(env.lang, title) + EnText(env.lang, desc))
    requires PassiveParams(skill, title, desc, level, env).Ok?
    ensures var find := Finder(JObj(SearchContext(skill, level)), level, env, false, []);
      find(p).Ok? && Converted(p, find(p).value, env.stats.maxAttack, FromAttack).Ok? &&
      Get(PassiveParams(skill, title, desc, level, env).value, p) ==
        Converted(p, find(p).value, env.stats.maxAttack, FromAttack).value
  {
    var ps := Placeholders(EnText(env.lang, title) + EnText(env.lang, desc));
    var find := Finder(JObj(SearchContext(skill, level)), level, env, false, []);
    var i :| 0 <= i < |ps| && ps[i] == p;
    assert PassiveParams(skill, title, desc, level, env) == FillParams(ps, [], find, env.stats.maxAttack, FromAttack);
    FilledValue(ps, [], find, env.stats.maxAttack, FromAttack, i);
  }

  /** One passive skill: nothing without a truthy id and a type; a failure
      record and one warning when either template is missing; otherwise
      the title and description texts filled from the same parameters. A
      `passiveSkillType` that is not text raises AttributeError. */
  function PassiveOne(skill: Fields, env: Env, level: Json): (r: Outcome<(seq<Item>, seq<string>)>)
    ensures r.Ok? ==> LowerOf(GetOr(skill, "passiveSkillType", JStr(""))).Ok?
    ensures r.Ok? && (!Truthy(GetJ(skill, "id")) || LowerOf(GetOr(skill, "passiveSkillType", JStr(""))).value == "") ==>
      r.value == ([], [])
    ensures r.Ok? && r.value.0 != [] && r.value.0[0].PassiveFailed? ==>
      r.value == ([PassiveFailed(GetJ(skill, "id"))], [PassiveWarning(GetJ(skill, "id"))])
    ensures r.Ok? ==> |r.value.0| <= 1 && (r.value.1 != [] ==> r.value.0 != [] && r.value.0[0].PassiveFailed?)
    ensures r.Ok? && r.value.0 != [] ==> r.value.0[0].PassiveFailed? || r.value.0[0].Passive?
    ensures r.Ok? && Truthy(GetJ(skill, "id")) && LowerOf(GetOr(skill, "passiveSkillType", JStr(""))).value != "" ==>
      |r.value.0| == 1 && r.value.0[0].id == GetJ(skill, "id")
    ensures r.Ok? && Truthy(GetJ(skill, "id")) && LowerOf(GetOr(skill, "passiveSkillType", JStr(""))).value != "" ==>
      (var stype := LowerOf(GetOr(skill, "passiveSkillType", JStr(""))).value;
       var title := TitleId(env.lang, stype, Keywords(skill));
       (title.None? || DescId(env.lang, stype, title.value, Keywords(skill)).None?) <==>
         r.value == ([PassiveFailed(GetJ(skill, "id"))], [PassiveWarning(GetJ(skill, "id"))]))
    ensures r.Ok? && r.value.0 != [] && r.value.0[0].Passive? ==>
      (var stype := LowerOf(GetOr(skill, "passiveSkillType", JStr(""))).value;
       var title := TitleId(env.lang, stype, Keywords(skill));
       title.Some? && DescId(env.lang, stype, title.value, Keywords(skill)).Some? &&
       (var desc := DescId(env.lang, stype, title.value, Keywords(skill)).value;
        var it := r.value.0[0];
        PassiveParams(skill, title.value, desc, level, env) == Ok(it.params) &&
        Description(title.value, FormatAll(it.params), env.lang) == Texts(it.titleEn, it.titleJa) &&
        Description(desc, FormatAll(it.params), env.lang) == Texts(it.descEn, it.descJa)))
  {
    var id := GetJ(skill, "id");
    var stype :- LowerOf(GetOr(skill, "passiveSkillType", JStr("")));
    if !Truthy(id) || stype == "" then Ok(([], []))
    else PassiveFound(skill, stype, env, level)
  }

  /** A skill with a truthy id and a type: the failure record and its
      warning when either template is missing, else the filled record. */
  function PassiveFound(skill: Fields, stype: string, env: Env, level: Json): (r: Outcome<(seq<Item>, seq<string>)>)
    ensures r.Ok? ==>
      |r.value.0| == 1 && (r.value.0[0].PassiveFailed? || r.value.0[0].Passive?) &&
      r.value.0[0].id == GetJ(skill, "id")
    ensures r.Ok? && r.value.0[0].PassiveFailed? ==>
      r.value == ([PassiveFailed(GetJ(skill, "id"))], [PassiveWarning(GetJ(skill, "id"))])
    ensures r.Ok? && r.value.1 != [] ==> r.value.0[0].PassiveFailed?
    ensures r.Ok? ==>
      (var title := TitleId(env.lang, stype, Keywords(skill));
       (title.None? || DescId(env.lang, stype, title.value, Keywords(skill)).None?) <==>
         r.value == ([PassiveFailed(GetJ(skill, "id"))], [PassiveWarning(GetJ(skill, "id"))]))
    ensures r.Ok? && r.value.0[0].Passive? ==>
      (var title := TitleId(env.lang, stype, Keywords(skill));
       title.Some? && DescId(env.lang, stype, title.value, Keywords(skill)).Some? &&
       (var desc := DescId(env.lang, stype, title.value, Keywords(skill)).value;
        var it := r.value.0[0];
        PassiveParams(skill, title.value, desc, level, env) == Ok(it.params) &&
        Description(title.value, FormatAll(it.params), env.lang) == Texts(it.titleEn, it.titleJa) &&
        Description(desc, FormatAll(it.params), env.lang) == Texts(it.descEn, it.descJa)))
  {
    var id := GetJ(skill, "id");
    var kws := Keywords(skill);
    var title := TitleId(env.lang, stype, kws);
    var desc := if title.Some? then DescId(env.lang, stype, title.value, kws) else None;
    if title.None? || desc.None? then Ok(([PassiveFailed(id)], [PassiveWarning(id)]))
    else
      var params :- PassiveParams(skill, title.value, desc.value, level, env);
      var t := Description(title.value, FormatAll(params), env.lang);
      var d := Description(desc.value, FormatAll(params), env.lang);
      Ok(([Passive(id, t.en, t.ja, d.en, d.ja, params)], []))
  }

  /** `parse_passive_skills(passive_skills_list, ...)`: nothing for a falsy
      list; otherwise the records of the dict entries in order, at the
      context's `main_max_level`. The context is left as it was. */
  function PassivesOf(list: Json, env: Env, st: State): (r: Outcome<Parsed>)
    ensures !Truthy(list) ==> r == Ok(Parsed([], [], st))
    ensures r.Ok? ==> r.value.st == st
    ensures r.Ok? ==> |r.value.warnings| <= |r.value.items|
  {
    if !Truthy(list) then Ok(Parsed([], [], st))
    else
      var xs :- Items(list);
      var out :- PassivesFold(xs, |xs|, env, LevelOf(st));
      Ok(Parsed(out.0, out.1, st))
  }

  /** Each skill dict with a truthy `id` and a type gives one record
      carrying that `id`, in list order; the others give none. */
  lemma PassivesIds(list: Json, env: Env, st: State)
    requires Truthy(list) && PassivesOf(list, env, st).Ok?
    ensures Items(list).Ok?
    ensures Ids(PassivesOf(list, env, st).value.items) == PassiveIds(Items(list).value, |Items(list).value|)
  {
  }

  /** The loop over the first n entries. */
  function PassivesFold(xs: seq<Json>, n: nat, env: Env, level: Json): (r: Outcome<(seq<Item>, seq<string>)>)
    requires n <= |xs|
    ensures r.Ok? ==> |r.value.1| <= |r.value.0| <= n
    ensures r.Ok? ==> Ids(r.value.0) == PassiveIds(xs, n)
  {
    if n == 0 then Ok(([], []))
    else
      var acc :- PassivesFold(xs, n - 1, env, level);
      var x := xs[n - 1];
      if !x.JObj? then Ok(acc)
      else
        var one :- PassiveOne(x.fields, env, level);
        IdsOfOne(one.0);
        IdsConcat(acc.0, one.0);
        Ok((acc.0 + one.0, acc.1 + one.1))
  }

  /** A skill dict that gives a record: a truthy `id` and a non-empty
      lowered `passiveSkillType`. */
  predicate GivesPassive(x: Json) {
    x.JObj? && Truthy(GetJ(x.fields, "id")) &&
    LowerOf(GetOr(x.fields, "passiveSkillType", JStr(""))).Ok? &&
    LowerOf(GetOr(x.fields, "passiveSkillType", JStr(""))).value != ""
  }

  /** The `id`s of the skills among the first n that give a record, in
      order. */
  function PassiveIds(xs: seq<Json>, n: nat): (r: seq<Json>)
    requires n <= |xs|
    ensures |r| <= n
  {
    if n == 0 then []
    else PassiveIds(xs, n - 1) + (if GivesPassive(xs[n - 1]) then [GetJ(xs[n - 1].fields, "id")] else [])
  }

  /** `s.replace(pat, rep, 1)` where the first occurrence of `pat` is right
      after `a`. */
  lemma {:induction false} ReplaceFirstAt(a: string, pat: string, rep: string, b: string)
    requires |pat| > 0
    requires forall i :: 0 <= i < |a| ==> !(pat <= (a + pat + b)[i..])
    ensures ReplaceFirst(a + pat + b, pat, rep) == a + rep + b
  {
    var s := a + pat + b;
    if a == [] {
      assert s == pat + b;
      assert pat <= s;
    } else {
      assert !(pat <= s[0..]);
      assert s[0..] == s;
      assert s[1..] == a[1..] + pat + b;
      forall i | 0 <= i < |a[1..]| ensures !(pat <= (a[1..] + pat + b)[i..]) {
        assert (a[1..] + pat + b)[i..] == s[i + 1..];
      }
      ReplaceFirstAt(a[1..], pat, rep, b);
      assert [a[0]] + a[1..] == a;
    }
  }

  /** No occurrence of `pat` starts inside `x + [pat[0]] + y` when neither
      part holds `pat[0]` and `y` does not go on like `pat`. */
  lemma NoEarlyMatch(x: string, y: string, pat: string, b: string)
    requires |pat| >= 2 && pat[0] !in x && pat[0] !in y && y != [] && y[0] != pat[1]
    ensures forall i :: 0 <= i < |x + [pat[0]] + y| ==> !(pat <= (x + [pat[0]] + y + pat + b)[i..])
  {
    var a := x + [pat[0]] + y;
    var s := a + pat + b;
    forall i | 0 <= i < |a| ensures !(pat <= s[i..]) {
      if i < |x| {
        assert s[i] == x[i];
      } else if i == |x| {
        assert s[i + 1] == y[0];
      } else {
        assert s[i] == y[i - |x| - 1];
      }
    }
  }

  /** The part of the passive templates' ids before `.title.` or
      `.description.`. */
  const PassiveStem := "herocard.passive_skill"

  /** The id after the stem is found at the stem's end. */
  lemma StemFirstMatch(rest: string)
    ensures ReplaceFirst(PassiveStem + ".title." + rest, ".title.", ".description.") ==
      PassiveStem + ".description." + rest
  {
    var x, y := "herocard", "passive_skill";
    assert PassiveStem == x + ['.'] + y;
    NoEarlyMatch(x, y, ".title.", rest);
    ReplaceFirstAt(PassiveStem, ".title.", ".description.", rest);
  }

  lemma StemPrefixes(rest: string)
    ensures TitlePrefix + rest == PassiveStem + ".title." + rest
    ensures DescPrefix + rest == PassiveStem + ".description." + rest
  {
    assert TitlePrefix == PassiveStem + ".title.";
    assert DescPrefix == PassiveStem + ".description.";
  }

  /** A title key for the type has the description key for the same type
      and suffix as its ideal description. */
  lemma IdealOfTitle(rest: string)
    ensures IdealDescription(TitlePrefix + rest) == DescPrefix + rest
  {
    StemPrefixes(rest);
    StemFirstMatch(rest);
  }
}
