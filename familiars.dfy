/** The familiar parser: one summon record per familiar, and the parser of
    a single simple familiar effect. */
module Familiars {
  import opened Strings
  import opened Json
  import opened Tables
  import opened Values
  import opened Records
  import opened Params
  import opened Describe
  import opened Matcher
  import opened Status

  const FamiliarPrefix := "specials.v2.familiar."
  const FamiliarStatusPrefix := "familiar.statuseffect."
  const EffectPrefix := "familiar.effect."

  /** The deterministic template ids of a familiar, in the order tried. */
  function FamiliarPatterns(ftype: string, id: Json, target: string): (r: seq<string>)
    ensures |r| == 3
  {
    ["specials.v2." + ftype + "." + PyStr(id) + "." + target,
     FamiliarPrefix + ftype + "." + PyStr(id) + "." + target,
     FamiliarPrefix + PyStr(id)]
  }

  /** The first of the ids that the language table has. */
  function FirstPresent(db: LangDb, ids: seq<string>): (r: Option<string>)
    ensures r.Some? ==> exists i :: (0 <= i < |ids| && ids[i] == r.value && InLang(db, ids[i]) &&
      forall j :: 0 <= j < i ==> !InLang(db, ids[j]))
    ensures r.None? <==> forall i :: 0 <= i < |ids| ==> !InLang(db, ids[i])
  {
    if ids == [] then None
    else if InLang(db, ids[0]) then Some(ids[0])
    else
      var r := FirstPresent(db, ids[1..]);
      assert forall i :: 0 < i < |ids| ==> ids[i] == ids[1..][i - 1];
      r
  }

  /** `[k for k in keys if familiar_id in k]`: TypeError for an id that is
      not text, as soon as there is a key to test. */
  function WithId(keys: seq<string>, id: Json): (r: Outcome<seq<string>>)
    ensures r.Crash? <==> keys != [] && !id.JStr?
    ensures r.Ok? ==> forall k :: k in r.value <==> k in keys && id.JStr? && Contains(k, id.s)
  {
    if keys == [] then Ok([])
    else if !id.JStr? then Crash("TypeError: 'in <string>' requires string as left operand, not " + TypeName(id))
    else Ok(KeysContaining(keys, id.s))
  }

  /** The candidates of the fallback matcher: the familiar keys that
      contain the id, or all familiar keys when none does. */
  function FallbackCandidates(db: LangDb, id: Json): (r: Outcome<seq<string>>)
    ensures r.Ok? ==> forall k :: k in r.value ==> k in KeysWithPrefix(db, FamiliarPrefix)
    ensures r.Crash? <==> KeysWithPrefix(db, FamiliarPrefix) != [] && !id.JStr?
    ensures r.Ok? && id.JStr? && (exists k :: k in KeysWithPrefix(db, FamiliarPrefix) && Contains(k, id.s)) ==>
      forall k :: k in r.value <==> k in KeysWithPrefix(db, FamiliarPrefix) && Contains(k, id.s)
    ensures r.Ok? && !(id.JStr? && exists k :: k in KeysWithPrefix(db, FamiliarPrefix) && Contains(k, id.s)) ==>
      r.value == KeysWithPrefix(db, FamiliarPrefix)
  {
    var all := KeysWithPrefix(db, FamiliarPrefix);
    var primary :- WithId(all, id);
    assert primary != [] ==> primary[0] in primary;
    Ok(if primary != [] then primary else all)
  }

  /** The summon template of a familiar with the matcher's warnings and the
      new dict; "" when there is none. `familiarType` and
      `familiarTargetType` that are not text raise AttributeError. */
  function FamiliarLangId(f: Fields, id: Json, env: Env, st: State): (r: Outcome<(string, seq<string>, State)>)
    requires Truthy(id)
    ensures r.Ok? ==> LogOnly(st, r.value.2)
    ensures r.Ok? ==> LowerField(f, "familiarType", "").Ok? && LowerField(f, "familiarTargetType", "single").Ok?
    ensures r.Ok? && LowerField(f, "familiarType", "").value != "" &&
            FirstPresent(env.lang, FamiliarPatterns(LowerField(f, "familiarType", "").value, id,
                                                    LowerField(f, "familiarTargetType", "single").value)).Some? ==>
      r.value == (FirstPresent(env.lang, FamiliarPatterns(LowerField(f, "familiarType", "").value, id,
                                                          LowerField(f, "familiarTargetType", "single").value)).value, [], st)
    ensures r.Ok? ==> |r.value.1| <= 1 && (r.value.1 != [] ==> r.value.0 == "")
    ensures r.Ok? && (LowerField(f, "familiarType", "").value == "" ||
                      FirstPresent(env.lang, FamiliarPatterns(LowerField(f, "familiarType", "").value, id,
                                                              LowerField(f, "familiarTargetType", "single").value)).None?) ==>
      FallbackCandidates(env.lang, id).Ok? && Match(f, FallbackCandidates(env.lang, id).value, None, st).Ok? &&
      (var m := Match(f, FallbackCandidates(env.lang, id).value, None, st).value;
       r.value == (ChosenKey(m.0), Warnings(m.0, ""), m.1))
  {
    var ftype :- LowerField(f, "familiarType", "");
    var target :- LowerField(f, "familiarTargetType", "single");
    var det := if ftype != "" then FirstPresent(env.lang, FamiliarPatterns(ftype, id, target)) else None;
    if det.Some? then Ok((det.value, [], st))
    else
      var cands :- FallbackCandidates(env.lang, id);
      var m :- Match(f, cands, None, st);
      Ok((ChosenKey(m.0), Warnings(m.0, ""), m.1))
  }

  /** `x.lower()` of a field read with a text default. */
  function LowerField(fs: Fields, k: string, default: string): Outcome<string> {
    LowerOf(GetOr(fs, k, JStr(default)))
  }

  /** `(base + inc * (L - 1)) / 10.0` of two per-mil fields. */
  function PerMilPercent(fs: Fields, base: string, inc: string, level: Json): (r: Outcome<Json>)
    ensures r.Ok? <==> Scaled(GetOr(fs, base, JInt(0)), GetOr(fs, inc, JInt(0)), level).Ok?
    ensures r.Ok? ==> r.value == JFloat(AsReal(Scaled(GetOr(fs, base, JInt(0)), GetOr(fs, inc, JInt(0)), level).value) / 10.0)
  {
    var v :- Scaled(GetOr(fs, base, JInt(0)), GetOr(fs, inc, JInt(0)), level);
    Ok(ToJson(Div(v, 10.0)))
  }

  /** The effect is a `Damage` effect with `attackPercentPerMil`. */
  predicate AttackEffect(e: Json) {
    e.JObj? && GetJ(e.fields, "effectType") == JStr("Damage") && Has(e.fields, "attackPercentPerMil")
  }

  /** The position of the first attack effect, |xs| without one. */
  function FirstAttackAt(xs: seq<Json>): (i: nat)
    ensures i <= |xs|
    ensures forall j :: 0 <= j < i ==> !AttackEffect(xs[j])
    ensures i < |xs| ==> AttackEffect(xs[i])
  {
    if xs == [] then 0
    else if AttackEffect(xs[0]) then 0
    else
      var i := FirstAttackAt(xs[1..]);
      assert forall j :: 0 < j < |xs| ==> xs[j] == xs[1..][j - 1];
      i + 1
  }

  /** `FAMILIARATTACK` from the first attack effect, none without one. */
  function FirstAttack(xs: seq<Json>, level: Json): (r: Outcome<Option<Json>>)
    ensures FirstAttackAt(xs) == |xs| ==> r == Ok(None)
    ensures FirstAttackAt(xs) < |xs| ==>
      r == (var v :- PerMilPercent(xs[FirstAttackAt(xs)].fields, "attackPercentPerMil",
                                     "attackPercentIncrementPerLevelPerMil", level); Ok(Some(v)))
  {
    var i := FirstAttackAt(xs);
    if i == |xs| then Ok(None)
    else
      var v :- PerMilPercent(xs[i].fields, "attackPercentPerMil", "attackPercentIncrementPerLevelPerMil", level);
      Ok(Some(v))
  }

  /** The parameters a familiar starts from: always
      `FAMILIARHEALTHPERCENT`, and `FAMILIARATTACK` when an attack effect
      has one. */
  function FamiliarSeed(f: Fields, level: Json): (r: Outcome<Fields>)
    ensures r.Ok? ==> (PerMilPercent(f, "healthPerMil", "healthPerLevelPerMil", level).Ok? &&
      Get(r.value, "FAMILIARHEALTHPERCENT") == Some(PerMilPercent(f, "healthPerMil", "healthPerLevelPerMil", level).value))
    ensures r.Ok? ==> forall k :: Has(r.value, k) ==> k == "FAMILIARHEALTHPERCENT" || k == "FAMILIARATTACK"
    ensures r.Ok? && !Truthy(GetJ(f, "effects")) ==> !Has(r.value, "FAMILIARATTACK")
    ensures r.Ok? && Truthy(GetJ(f, "effects")) ==>
      Items(GetJ(f, "effects")).Ok? && FirstAttack(Items(GetJ(f, "effects")).value, level).Ok? &&
      Get(r.value, "FAMILIARATTACK") == FirstAttack(Items(GetJ(f, "effects")).value, level).value
  {
    var health :- PerMilPercent(f, "healthPerMil", "healthPerLevelPerMil", level);
    var seed: Fields := [("FAMILIARHEALTHPERCENT", health)];
    var effects := GetJ(f, "effects");
    if !Truthy(effects) then Ok(seed)
    else
      var xs :- Items(effects);
      var attack :- FirstAttack(xs, level);
      if attack.Some? then
        PutGet(seed, "FAMILIARATTACK", attack.value, "FAMILIARHEALTHPERCENT");
        FreshKey(seed, "FAMILIARATTACK", attack.value);
        Ok(Put(seed, "FAMILIARATTACK", attack.value))
      else Ok(seed)
  }

  /** A familiar's parameters: the seed, then the value resolver on the
      familiar itself with keys mentioning `monster` ignored. */
  function FamiliarParams(f: Fields, langId: string, level: Json, env: Env): (r: Outcome<Fields>)
    ensures r.Ok? ==> (FamiliarSeed(f, level).Ok? &&
      Get(r.value, "FAMILIARHEALTHPERCENT") == Get(FamiliarSeed(f, level).value, "FAMILIARHEALTHPERCENT"))
    ensures r.Ok? && Has(FamiliarSeed(f, level).value, "FAMILIARATTACK") ==>
      Get(r.value, "FAMILIARATTACK") == Get(FamiliarSeed(f, level).value, "FAMILIARATTACK")
  {
    var seed :- FamiliarSeed(f, level);
    var ps := Placeholders(EnText(env.lang, langId));
    FillParams(ps, seed, Finder(JObj(f), level, env, false, ["monster"]), env.stats.maxAttack, Plain)
  }

  /** The effect adds status effects. */
  predicate AddsStatus(e: Json) {
    e.JObj? && GetOr(e.fields, "effectType", JStr("")) == JStr("AddStatusEffects")
  }

  /** The status-effect records of the first n effects: only
      `AddStatusEffects` effects with a truthy `statusEffects` contribute. */
  function FamiliarNested(xs: seq<Json>, n: nat, special: Fields, env: Env, st: State): (r: Outcome<Parsed>)
    requires n <= |xs|
    ensures (forall i :: 0 <= i < n ==> !AddsStatus(xs[i])) ==> r == Ok(Parsed([], [], st))
    ensures r.Ok? ==> LogOnly(st, r.value.st)
    ensures r.Ok? ==> forall it :: it in r.value.items ==> StatusRecord(it)
  {
    if n == 0 then Ok(Parsed([], [], st))
    else
      var acc :- FamiliarNested(xs, n - 1, special, env, st);
      var e := xs[n - 1];
      if !AddsStatus(e) || !Truthy(GetOr(e.fields, "statusEffects", JList([]))) then Ok(acc)
      else
        var ses :- StatusEffects(GetOr(e.fields, "statusEffects", JList([])), special, env, acc.st, FamiliarStatusPrefix);
        LogOnlyTrans(st, acc.st, ses.st);
        Ok(Parsed(acc.items + ses.items, acc.warnings + ses.warnings, ses.st))
  }

  /** `Could not find summon description for familiar '<id>'` */
  function NotFoundWarning(id: Json): string {
    "Could not find summon description for familiar '" + PyStr(id) + "'"
  }

  /** `FAIL_LANG_ID: Familiar '<id>'` */
  function FailText(id: Json): string {
    "FAIL_LANG_ID: Familiar '" + PyStr(id) + "'"
  }

  /** One familiar dict: nothing without a truthy id; a failure record and
      a warning without a template; otherwise its summon record, whose
      nested records are present only when there are any. */
  function FamiliarOne(f: Fields, special: Fields, env: Env, st: State): (r: Outcome<Parsed>)
    ensures !Truthy(GetJ(f, "id")) ==> r == Ok(Parsed([], [], st))
    ensures r.Ok? ==> LogOnly(st, r.value.st)
    ensures r.Ok? && Truthy(GetJ(f, "id")) ==>
      |r.value.items| == 1 && (r.value.items[0].Failed? || r.value.items[0].Described?) &&
      r.value.items[0].id == GetJ(f, "id")
    ensures r.Ok? && Truthy(GetJ(f, "id")) && r.value.items[0].Failed? ==>
      r.value.items[0].text == FailText(GetJ(f, "id")) && r.value.warnings != [] &&
      r.value.warnings[|r.value.warnings| - 1] == NotFoundWarning(GetJ(f, "id"))
  {
    var id := GetJ(f, "id");
    if !Truthy(id) then Ok(Parsed([], [], st))
    else
      var chosen :- FamiliarLangId(f, id, env, st);
      if chosen.0 == "" then
        Ok(Parsed([Failed(id, FailText(id))], chosen.1 + [NotFoundWarning(id)], chosen.2))
      else
        var summon :- FamiliarSummon(f, id, chosen.0, special, env, chosen.2);
        LogOnlyTrans(st, chosen.2, summon.st);
        Ok(Parsed(summon.items, chosen.1 + summon.warnings, summon.st))
  }

  /** The summon record of a familiar with template `langId`. */
  function FamiliarSummon(f: Fields, id: Json, langId: string, special: Fields, env: Env, st: State): (r: Outcome<Parsed>)
    ensures r.Ok? ==> LogOnly(st, r.value.st)
    ensures r.Ok? ==> |r.value.items| == 1 && r.value.items[0].Described? && r.value.items[0].id == id
    ensures r.Ok? ==> r.value.items[0].langId == langId
    ensures r.Ok? ==> (FamiliarParams(f, langId, MaxLevel(special), env).Ok? &&
      r.value.items[0].params == FamiliarParams(f, langId, MaxLevel(special), env).value)
    ensures r.Ok? && r.value.items[0].nested.Effects? ==> r.value.items[0].nested.items != []
    ensures r.Ok? ==> FamiliarEffects(f, special, env, st).Ok?
    ensures r.Ok? ==>
      (var nested := FamiliarEffects(f, special, env, st).value;
       r.value.items[0].nested == (if nested.items == [] then NoNested else Effects(nested.items)) &&
       r.value.warnings == nested.warnings && r.value.st == nested.st)
    ensures r.Ok? ==> Texts(r.value.items[0].en, r.value.items[0].ja) ==
                      Description(langId, FormatAll(r.value.items[0].params), env.lang)
  {
    var level := MaxLevel(special);
    var params :- FamiliarParams(f, langId, level, env);
    var texts := Description(langId, FormatAll(params), env.lang);
    var extra :- FamiliarExtra(f, level, params, env, st);
    var nested :- FamiliarEffects(f, special, env, st);
    var field := if nested.items == [] then NoNested else Effects(nested.items);
    Ok(Parsed([Described(id, langId, params, texts.en, texts.ja, field, extra)], nested.warnings, nested.st))
  }

  /** The tooltip of a familiar whose lowered `familiarType` is an extra
      description key. */
  function FamiliarExtra(f: Fields, level: Json, params: Fields, env: Env, st: State): (r: Outcome<Option<Extra>>)
    ensures r.Ok? && r.value.Some? ==> (LowerField(f, "familiarType", "").Ok? &&
      LowerField(f, "familiarType", "").value in env.extraKeys)
  {
    var ftype :- LowerField(f, "familiarType", "");
    if ftype in env.extraKeys
    then ExtraFor(["familiartype"], ftype, SearchContext(f, level), params, env, st.extraLangIds)
    else Ok(None)
  }

  /** The status-effect records of a familiar's `effects`. */
  function FamiliarEffects(f: Fields, special: Fields, env: Env, st: State): (r: Outcome<Parsed>)
    ensures !Truthy(GetJ(f, "effects")) ==> r == Ok(Parsed([], [], st))
    ensures r.Ok? ==> LogOnly(st, r.value.st)
    ensures r.Ok? ==> forall it :: it in r.value.items ==> StatusRecord(it)
  {
    var effects := GetJ(f, "effects");
    if !Truthy(effects) then Ok(Parsed([], [], st))
    else
      var xs :- Items(effects);
      FamiliarNested(xs, |xs|, special, env, st)
  }

  /** `parse_familiars(familiars_list, special_data, ...)`: nothing for a
      falsy list; otherwise the records of the familiars in order. An entry
      that is not a dict raises AttributeError (`.get`). */
  function FamiliarsOf(list: Json, special: Fields, env: Env, st: State): (r: Outcome<Parsed>)
    ensures !Truthy(list) ==> r == Ok(Parsed([], [], st))
    ensures r.Ok? ==> LogOnly(st, r.value.st)
    ensures r.Ok? && list.JList? ==> forall i :: 0 <= i < |list.items| ==> list.items[i].JObj?
  {
    if !Truthy(list) then Ok(Parsed([], [], st))
    else
      var xs :- Items(list);
      FamiliarsFold(xs, |xs|, special, env, st)
  }

  /** Each familiar with a truthy `id` gives one record carrying that
      `id`, in list order; the others give none. */
  lemma FamiliarsIds(list: Json, special: Fields, env: Env, st: State)
    requires Truthy(list) && FamiliarsOf(list, special, env, st).Ok?
    ensures Items(list).Ok?
    ensures Ids(FamiliarsOf(list, special, env, st).value.items) == TruthyIds(Items(list).value, |Items(list).value|)
  {
  }

  lemma DictsUpTo(xs: seq<Json>, n: nat)
    requires 0 < n <= |xs| && xs[n - 1].JObj?
    ensures (forall i :: 0 <= i < n - 1 ==> xs[i].JObj?) ==> forall i :: 0 <= i < n ==> xs[i].JObj?
  {
  }

  /** The loop over the first n familiars. */
  function FamiliarsFold(xs: seq<Json>, n: nat, special: Fields, env: Env, st: State): (r: Outcome<Parsed>)
    requires n <= |xs|
    ensures r.Ok? ==> LogOnly(st, r.value.st)
    ensures r.Ok? ==> forall i :: 0 <= i < n ==> xs[i].JObj?
    ensures r.Ok? ==> Ids(r.value.items) == TruthyIds(xs, n)
  {
    if n == 0 then Ok(Parsed([], [], st))
    else
      var acc :- FamiliarsFold(xs, n - 1, special, env, st);
      var x := xs[n - 1];
      if !x.JObj? then Crash(NoAttribute(x, "get"))
      else
        var one :- FamiliarOne(x.fields, special, env, acc.st);
        LogOnlyTrans(st, acc.st, one.st);
        IdsOfOne(one.items);
        IdsConcat(acc.items, one.items);
        DictsUpTo(xs, n);
        Ok(Parsed(acc.items + one.items, acc.warnings + one.warnings, one.st))
  }

  // ------------------------------------------------- simple familiar effect

  /** `FAIL_LANG_ID: FamiliarEffect '<id>'` */
  function EffectFailText(id: Json): string {
    "FAIL_LANG_ID: FamiliarEffect '" + PyStr(id) + "'"
  }

  /** The effect's parameters: the value resolver on the familiar merged
      with the effect, and `FAMILIAREFFECTFREQUENCY` as the familiar's
      `turnsBetweenNonDamageEffects` plus one when the template has it. */
  function EffectParams(ctx: Fields, familiar: Fields, langId: string, level: Json, env: Env): (r: Outcome<Fields>)
    ensures r.Ok? && "FAMILIAREFFECTFREQUENCY" in Placeholders(EnText(env.lang, langId)) &&
            Has(familiar, "turnsBetweenNonDamageEffects") ==>
      (IsNumeric(GetJ(familiar, "turnsBetweenNonDamageEffects")) &&
       Get(r.value, "FAMILIAREFFECTFREQUENCY") ==
         Some(ToJson(Add(NumOf(GetJ(familiar, "turnsBetweenNonDamageEffects")).value, IntV(1)))))
  {
    var ps := Placeholders(EnText(env.lang, langId));
    var params :- FillParams(ps, [], Finder(JObj(ctx), level, env, false, []), env.stats.maxAttack, Plain);
    if "FAMILIAREFFECTFREQUENCY" in ps && Has(familiar, "turnsBetweenNonDamageEffects") then
      var t := GetJ(familiar, "turnsBetweenNonDamageEffects");
      if !IsNumeric(t) then Crash("TypeError: can only concatenate " + TypeName(t) + " (not \"int\") to " + TypeName(t))
      else
        var v := ToJson(Add(NumOf(t).value, IntV(1)));
        PutGet(params, "FAMILIAREFFECTFREQUENCY", v, "FAMILIAREFFECTFREQUENCY");
        Ok(Put(params, "FAMILIAREFFECTFREQUENCY", v))
    else Ok(params)
  }

  /** `parse_simple_familiar_effect(effect_data, familiar_instance, ...)`:
      no record without an id; a failure record without a template;
      otherwise the filled template, with a tooltip when the lowered effect
      type is an extra description key. Returns the record, the matcher's
      warning and the new dict. */
  function SimpleEffect(effect: Fields, familiar: Fields, env: Env, st: State): (r: Outcome<(Option<Item>, seq<string>, State)>)
    ensures !Truthy(GetJ(effect, "id")) ==> r == Ok((None, [], st))
    ensures r.Ok? ==> LogOnly(st, r.value.2) && |r.value.1| <= 1
    ensures r.Ok? && Truthy(GetJ(effect, "id")) ==>
      r.value.0.Some? && (r.value.0.value.Failed? || r.value.0.value.Described?) && r.value.0.value.id == GetJ(effect, "id")
    ensures r.Ok? && r.value.0.Some? && r.value.0.value.Failed? ==> r.value.0.value.text == EffectFailText(GetJ(effect, "id"))
    ensures r.Ok? && r.value.0.Some? && r.value.0.value.Described? ==>
      (r.value.0.value.nested == NoNested && (r.value.1 == []) &&
       EffectParams(Update(familiar, effect), familiar, r.value.0.value.langId, LevelOf(st), env).Ok? &&
       r.value.0.value.params == EffectParams(Update(familiar, effect), familiar, r.value.0.value.langId, LevelOf(st), env).value)
  {
    var id := GetJ(effect, "id");
    if !Truthy(id) then Ok((None, [], st))
    else
      var level := LevelOf(st);
      var ctx := Update(familiar, effect);
      var kw :- LowerField(effect, "effectType", "");
      var m :- Match(ctx, EffectCandidates(env.lang, kw), None, st);
      var ws := Warnings(m.0, "");
      if ChosenKey(m.0) == "" then Ok((Some(Failed(id, EffectFailText(id))), ws, m.1))
      else
        var built :- SimpleBuilt(effect, familiar, id, kw, ChosenKey(m.0), env, level, m.1);
        Ok((Some(built), ws, m.1))
  }

  /** The effect templates whose ids contain the effect type, or all of
      them when none does. */
  function EffectCandidates(db: LangDb, kw: string): (r: seq<string>)
    ensures forall k :: k in r ==> k in KeysWithPrefix(db, EffectPrefix)
    ensures (exists k :: k in KeysWithPrefix(db, EffectPrefix) && Contains(k, kw)) ==>
      forall k :: k in r <==> k in KeysWithPrefix(db, EffectPrefix) && Contains(k, kw)
  {
    var all := KeysWithPrefix(db, EffectPrefix);
    var primary := KeysContaining(all, kw);
    if primary != [] then primary else all
  }

  /** The record of a simple effect with template `langId`. */
  function SimpleBuilt(effect: Fields, familiar: Fields, id: Json, kw: string, langId: string, env: Env,
                       level: Json, st: State): (r: Outcome<Item>)
    ensures r.Ok? ==> r.value.Described? && r.value.id == id && r.value.langId == langId && r.value.nested == NoNested
    ensures r.Ok? ==> (EffectParams(Update(familiar, effect), familiar, langId, level, env).Ok? &&
      r.value.params == EffectParams(Update(familiar, effect), familiar, langId, level, env).value)
    ensures r.Ok? && r.value.extra.Some? ==> kw in env.extraKeys
  {
    var ctx := Update(familiar, effect);
    var params :- EffectParams(ctx, familiar, langId, level, env);
    var texts := Description(langId, FormatAll(params), env.lang);
    var extra :- if kw in env.extraKeys
                 then ExtraFor(["familiareffect"], kw, SearchContext(ctx, level), params, env, st.extraLangIds)
                 else Ok(None);
    Ok(Described(id, langId, params, texts.en, texts.ja, NoNested, extra))
  }

  /** `[k for k in keys if sub in k]` */
  function KeysContaining(keys: seq<string>, sub: string): (r: seq<string>)
    ensures forall k :: k in r <==> k in keys && Contains(k, sub)
  {
    if keys == [] then []
    else
      assert forall k :: k in keys <==> k == keys[0] || k in keys[1..];
      (if Contains(keys[0], sub) then [keys[0]] else []) + KeysContaining(keys[1..], sub)
  }
}
