/** The status-effect parser: one record per status effect, with its
    nested `statusEffectsToAdd` and an optional tooltip. */
module Status {
  import opened Strings
  import opened Json
  import opened Tables
  import opened Values
  import opened Records
  import opened Params
  import opened Describe
  import opened Matcher

  /** What the source raises for an effect with no template: its failure
      branch reads names that the status-effect parser never defines. */
  const UndefinedName := "NameError: name 'property_type' is not defined"

  /** A record the status-effect parser emits: a filled template with a
      template id, a truthy id, nested records of the same kind and no
      other variant. */
  predicate StatusRecord(it: Item)
    decreases it
  {
    match it
    case Described(id, langId, _, _, _, nested, _) =>
      langId != "" && Truthy(id) &&
      (match nested
       case Effects(ns) => forall i :: 0 <= i < |ns| ==> StatusRecord(ns[i])
       case NoNested => false)
    case _ => false
  }

  /** The parsers' dict after a call: only the debug log grew. */
  predicate LogOnly(st: State, st': State) {
    st'.(debugLog := st.debugLog) == st && st.debugLog <= st'.debugLog
  }

  lemma LogOnlyTrans(a: State, b: State, c: State)
    requires LogOnly(a, b) && LogOnly(b, c)
    ensures LogOnly(a, c)
  {
  }

  /** `turns > 0` on a JSON value; TypeError unless it is a number. */
  function PositiveTurns(turns: Json): (r: Outcome<bool>)
    ensures r.Ok? <==> IsNumeric(turns)
    ensures r.Ok? ==> (r.value <==> AsReal(NumOf(turns).value) > 0.0)
  {
    if IsNumeric(turns) then Ok(AsReal(NumOf(turns).value) > 0.0)
    else Crash("TypeError: '>' not supported between instances of '" + TypeName(turns) + "' and 'int'")
  }

  /** The parameters an effect starts from: `TURNS` when it lasts. */
  function TurnsSeed(turns: Json, positive: bool): (r: Fields)
    ensures Has(r, "TURNS") <==> positive
    ensures positive ==> Get(r, "TURNS") == Some(turns)
  {
    if positive then [("TURNS", turns)] else []
  }

  /** `parse_status_effects(status_effects_list, special_data, ...,
      search_prefix)`: nothing for a falsy list; otherwise the records of
      the effects in order, their warnings, and the dict with the
      matcher's log entries added. */
  function StatusEffects(list: Json, special: Fields, env: Env, st: State, prefix: string): (r: Outcome<Parsed>)
    ensures !Truthy(list) ==> r == Ok(Parsed([], [], st))
    ensures r.Ok? ==> LogOnly(st, r.value.st)
    ensures r.Ok? ==> forall it :: it in r.value.items ==> StatusRecord(it)
    decreases Size(list), 2, 0
  {
    if !Truthy(list) then Ok(Parsed([], [], st))
    else
      var xs :- Items(list);
      StatusFold(list, xs, |xs|, special, env, st, prefix)
  }

  /** Each effect dict with a truthy `id` gives one record carrying that
      `id`, in list order; the others give none. */
  lemma StatusIds(list: Json, special: Fields, env: Env, st: State, prefix: string)
    requires Truthy(list) && StatusEffects(list, special, env, st, prefix).Ok?
    ensures Items(list).Ok?
    ensures Ids(StatusEffects(list, special, env, st, prefix).value.items) == TruthyIds(Items(list).value, |Items(list).value|)
  {
  }

  /** The loop over the first n effects. */
  function StatusFold(list: Json, xs: seq<Json>, n: nat, special: Fields, env: Env, st: State, prefix: string): (r: Outcome<Parsed>)
    requires n <= |xs|
    requires forall x :: x in xs && x.JObj? ==> Size(x) < Size(list)
    ensures r.Ok? ==> LogOnly(st, r.value.st)
    ensures r.Ok? ==> forall it :: it in r.value.items ==> StatusRecord(it)
    ensures r.Ok? ==> Ids(r.value.items) == TruthyIds(xs, n)
    decreases Size(list), 1, n
  {
    if n == 0 then Ok(Parsed([], [], st))
    else
      var acc :- StatusFold(list, xs, n - 1, special, env, st, prefix);
      var x := xs[n - 1];
      if !x.JObj? then Ok(acc)
      else
        var one :- StatusOne(x.fields, special, env, acc.st, prefix);
        LogOnlyTrans(st, acc.st, one.st);
        IdsOfOne(one.items);
        IdsConcat(acc.items, one.items);
        Ok(Parsed(acc.items + one.items, acc.warnings + one.warnings, one.st))
  }

  /** One effect: nothing without a truthy `id`; otherwise its filled
      template, the matcher's warning and those of its nested effects. A
      `turns` that is not a number, a missing template and a
      `statusEffect` that is not text raise. */
  function StatusOne(fs: Fields, special: Fields, env: Env, st: State, prefix: string): (r: Outcome<Parsed>)
    ensures !Truthy(GetJ(fs, "id")) ==> r == Ok(Parsed([], [], st))
    ensures r.Ok? ==> LogOnly(st, r.value.st)
    ensures r.Ok? ==> forall it :: it in r.value.items ==> StatusRecord(it)
    ensures r.Ok? ==> |r.value.items| <= 1
    ensures r.Ok? && Truthy(GetJ(fs, "id")) ==>
      |r.value.items| == 1 && r.value.items[0].Described? && r.value.items[0].id == GetJ(fs, "id")
    decreases Size(JObj(fs)), 3, 0
  {
    var id := GetJ(fs, "id");
    if !Truthy(id) then Ok(Parsed([], [], st))
    else
      var chosen :- LangIdFor(fs, id, KeysWithPrefix(env.lang, prefix), Some(special), "", env, st);
      var langId := chosen.0;
      if langId == "" then Crash(UndefinedName)
      else
        var built :- StatusBuilt(fs, id, langId, chosen.1, special, env, chosen.2, prefix);
        LogOnlyTrans(st, chosen.2, built.st);
        assert built.items == [built.items[0]];
        Ok(built)
  }

  /** The record of an effect with template `langId`, after the matcher's
      warnings `ws`. */
  function StatusBuilt(fs: Fields, id: Json, langId: string, ws: seq<string>, special: Fields, env: Env,
                       st: State, prefix: string): (r: Outcome<Parsed>)
    requires langId != "" && Truthy(id)
    ensures r.Ok? ==> LogOnly(st, r.value.st)
    ensures r.Ok? ==> |r.value.items| == 1 && StatusRecord(r.value.items[0]) && r.value.items[0].id == id
    ensures r.Ok? ==> r.value.items[0].langId == langId && ws <= r.value.warnings
    ensures r.Ok? ==> (StatusParams(fs, langId, special, env).Ok? &&
      r.value.items[0].params == StatusParams(fs, langId, special, env).value)
    ensures r.Ok? && r.value.items[0].extra.Some? ==>
      GetStr(fs, "statusEffect", "").JStr? && Lower(GetStr(fs, "statusEffect", "").s) in env.extraKeys
    ensures r.Ok? && !Has(fs, "statusEffectsToAdd") ==>
      r.value.items[0].nested == Effects([]) && r.value.warnings == ws && r.value.st == st
    ensures r.Ok? ==> StatusNested(fs, special, env, st, prefix).Ok?
    ensures r.Ok? ==>
      r.value.items[0].nested == Effects(StatusNested(fs, special, env, st, prefix).value.items) &&
      r.value.warnings == ws + StatusNested(fs, special, env, st, prefix).value.warnings
    ensures r.Ok? ==> Texts(r.value.items[0].en, r.value.items[0].ja) ==
                      Description(langId, FormatAll(r.value.items[0].params), env.lang)
    decreases Size(JObj(fs)), 2, 1
  {
    var params :- StatusParams(fs, langId, special, env);
    var ctx := SearchContext(fs, MaxLevel(special));
    var texts := Description(langId, FormatAll(params), env.lang);
    var nested :- StatusNested(fs, special, env, st, prefix);
    var extra :- StatusExtra(GetStr(fs, "statusEffect", ""), ctx, params, env, nested.st);
    assert forall i :: 0 <= i < |nested.items| ==> nested.items[i] in nested.items;
    assert !Has(fs, "statusEffectsToAdd") ==> ws + nested.warnings == ws;
    Ok(Parsed([Described(id, langId, params, texts.en, texts.ja, Effects(nested.items), extra)],
              ws + nested.warnings, nested.st))
  }

  /** The records of an effect's `statusEffectsToAdd`, parsed with the same
      special and prefix; none without that key. */
  function StatusNested(fs: Fields, special: Fields, env: Env, st: State, prefix: string): (r: Outcome<Parsed>)
    ensures !Has(fs, "statusEffectsToAdd") ==> r == Ok(Parsed([], [], st))
    ensures r.Ok? ==> LogOnly(st, r.value.st)
    ensures r.Ok? ==> forall it :: it in r.value.items ==> StatusRecord(it)
    decreases Size(JObj(fs)), 2, 0
  {
    if Has(fs, "statusEffectsToAdd") then
      GetSmaller(fs, "statusEffectsToAdd");
      StatusEffects(GetJ(fs, "statusEffectsToAdd"), special, env, st, prefix)
    else Ok(Parsed([], [], st))
  }

  /** The parameters of an effect: `TURNS` when it lasts, then the value
      resolver on the effect with the special's `maxLevel` for the other
      placeholders of the English template, with `DAMAGE` taken per turn
      from the hero's attack. */
  function StatusParams(fs: Fields, langId: string, special: Fields, env: Env): (r: Outcome<Fields>)
    ensures r.Ok? ==> IsNumeric(GetOr(fs, "turns", JInt(0)))
    ensures r.Ok? && AsReal(NumOf(GetOr(fs, "turns", JInt(0))).value) > 0.0 ==>
      Get(r.value, "TURNS") == Some(GetOr(fs, "turns", JInt(0)))
    ensures r.Ok? ==> forall k :: Has(r.value, k) ==>
      k in Placeholders(EnText(env.lang, langId)) || k == "TURNS"
  {
    var turns := GetOr(fs, "turns", JInt(0));
    var positive :- PositiveTurns(turns);
    var template := EnText(env.lang, langId);
    var ps := Placeholders(template);
    var level := MaxLevel(special);
    var find := KindFinder(JObj(SearchContext(fs, level)), level, env, GetStr(fs, "statusEffect", ""), []);
    var params :- FillParams(ps, TurnsSeed(turns, positive), find, env.stats.maxAttack,
                             PerTurn(template, NumOf(turns).value));
    Ok(params)
  }

  /** `DAMAGE` found under a per-mil key is the hero's attack times that
      per-mil value over 100, rounded down, and multiplied by the effect's
      turns (`turns or 1`) when the template says "over {TURNS} turns". */
  lemma StatusDamage(fs: Fields, langId: string, special: Fields, env: Env)
    requires "DAMAGE" in Placeholders(EnText(env.lang, langId))
    requires StatusParams(fs, langId, special, env).Ok?
    ensures var level := MaxLevel(special);
      var find := KindFinder(JObj(SearchContext(fs, level)), level, env, GetStr(fs, "statusEffect", ""), []);
      find("DAMAGE").Ok? &&
      (var f := find("DAMAGE").value;
       f.value.Some? && PerMilTag(f.tag) ==>
         IsNumeric(f.value.value) &&
         Get(StatusParams(fs, langId, special, env).value, "DAMAGE") ==
           Some(if Contains(EnText(env.lang, langId), "over {TURNS} turns")
                then ToJson(Mul(IntV(DamageOf(f.value.value, env.stats.maxAttack).value),
                                TurnsOr1(NumOf(GetOr(fs, "turns", JInt(0))).value)))
                else JInt(DamageOf(f.value.value, env.stats.maxAttack).value)))
  {
    var turns := GetOr(fs, "turns", JInt(0));
    var positive := PositiveTurns(turns).value;
    var template := EnText(env.lang, langId);
    var ps := Placeholders(template);
    var level := MaxLevel(special);
    var find := KindFinder(JObj(SearchContext(fs, level)), level, env, GetStr(fs, "statusEffect", ""), []);
    assert !Has(TurnsSeed(turns, positive), "DAMAGE");
    assert StatusParams(fs, langId, special, env) ==
           FillParams(ps, TurnsSeed(turns, positive), find, env.stats.maxAttack, PerTurn(template, NumOf(turns).value));
    PerTurnDamage(ps, TurnsSeed(turns, positive), find, env.stats.maxAttack, template, NumOf(turns).value);
  }

  /** The tooltip of an effect whose lowered `statusEffect` is an extra
      description key. */
  function StatusExtra(kind: Json, ctx: Fields, params: Fields, env: Env, st: State): (r: Outcome<Option<Extra>>)
    ensures r.Ok? <==> LowerOf(kind).Ok? && (LowerOf(kind).value in env.extraKeys ==>
      ExtraFor(["statuseffect"], LowerOf(kind).value, ctx, params, env, st.extraLangIds).Ok?)
    ensures r.Ok? && r.value.Some? ==> LowerOf(kind).value in env.extraKeys
  {
    var lowered :- LowerOf(kind);
    if lowered in env.extraKeys then ExtraFor(["statuseffect"], lowered, ctx, params, env, st.extraLangIds)
    else Ok(None)
  }

  /** An effect for which neither an override nor the matcher gives a
      template id raises NameError, which aborts the whole run. */
  lemma UnmatchedEffectCrashes(fs: Fields, special: Fields, env: Env, st: State, prefix: string)
    requires Truthy(GetJ(fs, "id")) && Hashable(GetJ(fs, "id"))
    requires LangOverride(env.rules, env.heroId, GetJ(fs, "id")).value.None?
    requires FindBest(fs, KeysWithPrefix(env.lang, prefix), Some(special)).Ok?
    requires FindBest(fs, KeysWithPrefix(env.lang, prefix), Some(special)).value.0.NoMatch?
    ensures StatusOne(fs, special, env, st, prefix) == Crash(UndefinedName)
  {
  }

  /** A lasting effect's record keeps its `turns` as `TURNS`. */
  lemma EffectTurns(fs: Fields, special: Fields, env: Env, st: State, prefix: string)
    requires StatusOne(fs, special, env, st, prefix).Ok? && Truthy(GetJ(fs, "id"))
    ensures IsNumeric(GetOr(fs, "turns", JInt(0)))
    ensures AsReal(NumOf(GetOr(fs, "turns", JInt(0))).value) > 0.0 ==>
      Get(StatusOne(fs, special, env, st, prefix).value.items[0].params, "TURNS") == Some(GetOr(fs, "turns", JInt(0)))
  {
    var id := GetJ(fs, "id");
    var chosen := LangIdFor(fs, id, KeysWithPrefix(env.lang, prefix), Some(special), "", env, st).value;
    var built := StatusBuilt(fs, id, chosen.0, chosen.1, special, env, chosen.2, prefix);
    assert StatusOne(fs, special, env, st, prefix) == built;
  }
}
