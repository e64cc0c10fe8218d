/** The chain-strike parser: an optional initial hit matched on its effect
    type and a chain hit whose template id is built from the property's
    modifiers. */
module Chain {
  import opened Strings
  import opened Json
  import opened Tables
  import opened Records
  import opened Describe
  import opened Matcher
  import opened Status

  const ChainPrefix := "[parse_chain_strike]: "
  const PropertyPrefix := "specials.v2.property."

  /** Python's `x == 1` for a value read with `dict.get`: a number (or
      `True`) equal to one. */
  predicate IsOne(j: Json) {
    IsNumeric(j) && AsReal(NumOf(j).value) == 1.0
  }

  /** The modifier names in their fixed order: `onehit`, `with_chance`,
      `strong_against_<element>` and `allowmaintargetinrandomtargets`. A
      truthy `strongAttackElement` that is not text raises
      AttributeError. */
  function Modifiers(ctx: Fields): (r: Outcome<seq<string>>)
    ensures r.Ok? <==> (Truthy(GetJ(ctx, "strongAttackElement")) ==> GetJ(ctx, "strongAttackElement").JStr?)
    ensures r.Ok? ==> |r.value| <= 4
    ensures r.Ok? ==> (r.value == [] <==>
      !IsOne(GetJ(ctx, "maxExtraHits")) && !Has(ctx, "extraHitChancePerMil") &&
      !Truthy(GetJ(ctx, "strongAttackElement")) && !Truthy(GetJ(ctx, "allowMainTargetInRandomTargets")))
    ensures r.Ok? ==> (IsOne(GetJ(ctx, "maxExtraHits")) <==> r.value != [] && r.value[0] == "onehit")
    ensures r.Ok? ==>
      r.value == (if IsOne(GetJ(ctx, "maxExtraHits")) then ["onehit"] else []) +
                 (if Has(ctx, "extraHitChancePerMil") then ["with_chance"] else []) +
                 StrongModifier(GetJ(ctx, "strongAttackElement")).value +
                 (if Truthy(GetJ(ctx, "allowMainTargetInRandomTargets")) then ["allowmaintargetinrandomtargets"] else [])
  {
    var one := if IsOne(GetJ(ctx, "maxExtraHits")) then ["onehit"] else [];
    var chance := if Has(ctx, "extraHitChancePerMil") then ["with_chance"] else [];
    var strong :- StrongModifier(GetJ(ctx, "strongAttackElement"));
    var main := if Truthy(GetJ(ctx, "allowMainTargetInRandomTargets")) then ["allowmaintargetinrandomtargets"] else [];
    var rest := chance + strong + main;
    assert rest != [] ==> |rest[0]| > 6;
    Regroup(one, chance, strong, main);
    Ok(one + rest)
  }

  /** `strong_against_<element>` for a truthy element. */
  function StrongModifier(color: Json): (r: Outcome<seq<string>>)
    ensures r.Ok? <==> (Truthy(color) ==> color.JStr?)
    ensures r.Ok? ==> (r.value == [] <==> !Truthy(color))
    ensures r.Ok? && r.value != [] ==> r.value == ["strong_against_" + LowerOf(color).value]
  {
    if Truthy(color) then
      var c :- LowerOf(color);
      Ok(["strong_against_" + c])
    else Ok([])
  }

  /** `specials.v2.property.<base>.<modifiers joined by dots>` */
  function FullKey(base: string, mods: seq<string>): string {
    PropertyPrefix + base + "." + Join(mods, ".")
  }

  /** The chain hit's template: the key with every modifier when there are
      modifiers and the table has it, else the bare property key when the
      table has that, else none. */
  function ChainLangId(base: string, mods: seq<string>, db: LangDb): (r: Option<string>)
    ensures r.Some? ==> InLang(db, r.value) && StartsWith(r.value, PropertyPrefix + base)
    ensures mods != [] && InLang(db, FullKey(base, mods)) ==> r == Some(FullKey(base, mods))
    ensures !(mods != [] && InLang(db, FullKey(base, mods))) ==>
      r == (if InLang(db, PropertyPrefix + base) then Some(PropertyPrefix + base) else None)
  {
    var full := FullKey(base, mods);
    var simple := PropertyPrefix + base;
    PrefixStarts(simple, "." + Join(mods, "."));
    assert full == simple + ("." + Join(mods, "."));
    PrefixStarts(simple, "");
    assert simple + "" == simple;
    if mods != [] && InLang(db, full) then Some(full)
    else if InLang(db, simple) then Some(simple)
    else None
  }

  /** The value of one chain placeholder at level `level`: `CHANCE` is the
      per-mil chance in percent, `DAMAGE` the level-scaled per-mil damage in
      percent, any other placeholder zero (see ChainValueMeaning). A
      non-numeric operand raises TypeError. */
  function ChainValue(p: string, ctx: Fields, level: Json): (r: Outcome<Json>)
    ensures r.Ok? ==> IsNumeric(level) && IsNumeric(r.value)
    ensures IsNumeric(level) && p != "CHANCE" && p != "DAMAGE" ==> r.Ok?
  {
    if p == "CHANCE" then
      var v :- Scaled(GetOr(ctx, "extraHitChancePerMil", JInt(0)), JInt(0), level);
      Ok(ToJson(Div(v, 10.0)))
    else if p == "DAMAGE" then
      var v :- Scaled(GetOr(ctx, "additionalHitDamagePerMil", JInt(0)),
                      GetOr(ctx, "additionalHitDamageIncrementPerLevelPerMil", JInt(0)), level);
      Ok(ToJson(Div(v, 10.0)))
    else
      var v :- Scaled(JInt(0), JInt(0), level);
      Ok(ToJson(v))
  }

  /** `CHANCE` is the per-mil chance in percent. */
  lemma ChanceValue(ctx: Fields, level: Json)
    requires ChainValue("CHANCE", ctx, level).Ok?
    ensures IsNumeric(GetOr(ctx, "extraHitChancePerMil", JInt(0)))
    ensures ChainValue("CHANCE", ctx, level).value.JFloat?
    ensures ChainValue("CHANCE", ctx, level).value.r ==
      AsReal(NumOf(GetOr(ctx, "extraHitChancePerMil", JInt(0))).value) / 10.0
  {
    var base := GetOr(ctx, "extraHitChancePerMil", JInt(0));
    var v := Scaled(base, JInt(0), level);
    assert ChainValue("CHANCE", ctx, level) == Ok(ToJson(Div(v.value, 10.0)));
    ScaledLaw(base, JInt(0), level);
    assert AsReal(v.value) == AsReal(NumOf(base).value) + 0.0 * (AsReal(NumOf(level).value) - 1.0);
  }

  /** `DAMAGE` is the level-scaled per-mil damage in percent. */
  lemma DamageValue(ctx: Fields, level: Json)
    requires ChainValue("DAMAGE", ctx, level).Ok?
    ensures Scaled(GetOr(ctx, "additionalHitDamagePerMil", JInt(0)),
                   GetOr(ctx, "additionalHitDamageIncrementPerLevelPerMil", JInt(0)), level).Ok?
    ensures ChainValue("DAMAGE", ctx, level).value ==
      JFloat(AsReal(Scaled(GetOr(ctx, "additionalHitDamagePerMil", JInt(0)),
                           GetOr(ctx, "additionalHitDamageIncrementPerLevelPerMil", JInt(0)), level).value) / 10.0)
  {
    var v := Scaled(GetOr(ctx, "additionalHitDamagePerMil", JInt(0)),
                    GetOr(ctx, "additionalHitDamageIncrementPerLevelPerMil", JInt(0)), level);
    assert ChainValue("DAMAGE", ctx, level) == Ok(ToJson(Div(v.value, 10.0)));
  }

  /** Any other chain placeholder is zero. */
  lemma OtherValue(p: string, ctx: Fields, level: Json)
    requires p != "CHANCE" && p != "DAMAGE" && ChainValue(p, ctx, level).Ok?
    ensures AsReal(NumOf(ChainValue(p, ctx, level).value).value) == 0.0
  {
  }

  /** `d[p] = v`: p holds v and every other key what it held. */
  function AssignStep(acc: Fields, p: string, v: Json): (r: Fields)
    ensures Get(r, p) == Some(v)
    ensures forall k :: k != p ==> Get(r, k) == Get(acc, k)
  {
    PutGet(acc, p, v, p);
    forall k | k != p ensures Get(Put(acc, p, v), k) == Get(acc, k) {
      PutGet(acc, p, v, k);
    }
    Put(acc, p, v)
  }

  /** The assignment loop from the i-th placeholder on, starting from the
      parameters `acc`; the first failing value raises. */
  function AssignFrom(ps: seq<string>, i: nat, ctx: Fields, level: Json, acc: Fields): Outcome<Fields>
    requires i <= |ps|
    decreases |ps| - i
  {
    if i == |ps| then Ok(acc)
    else
      var v :- ChainValue(ps[i], ctx, level);
      AssignFrom(ps, i + 1, ctx, level, AssignStep(acc, ps[i], v))
  }

  /** What the loop from the i-th placeholder leaves: each placeholder from
      there set to its value, every other key holding what `acc` held. */
  lemma {:induction false} AssignFromSets(ps: seq<string>, i: nat, ctx: Fields, level: Json, acc: Fields)
    requires i <= |ps| && AssignFrom(ps, i, ctx, level, acc).Ok?
    ensures forall k :: k in ps[i..] ==> ChainValue(k, ctx, level).Ok?
    ensures forall k :: k in ps[i..] ==>
      Get(AssignFrom(ps, i, ctx, level, acc).value, k) == Some(ChainValue(k, ctx, level).value)
    ensures forall k :: k !in ps[i..] ==> Get(AssignFrom(ps, i, ctx, level, acc).value, k) == Get(acc, k)
    decreases |ps| - i
  {
    if i < |ps| {
      var v := ChainValue(ps[i], ctx, level).value;
      InSuffix(ps, i);
      AssignFromSets(ps, i + 1, ctx, level, AssignStep(acc, ps[i], v));
    }
  }

  /** The chain hit's parameters: `lang_params[p] = <value of p>` for each
      placeholder. */
  function ChainParams(ps: seq<string>, ctx: Fields, level: Json): Outcome<Fields> {
    AssignFrom(ps, 0, ctx, level, [])
  }

  /** The chain hit's parameters are set for exactly the placeholders, each
      to its value. */
  lemma ChainParamsSet(ps: seq<string>, ctx: Fields, level: Json)
    requires ChainParams(ps, ctx, level).Ok?
    ensures forall k :: k in ps ==> ChainValue(k, ctx, level).Ok?
    ensures forall k :: k in ps ==> Get(ChainParams(ps, ctx, level).value, k) == Some(ChainValue(k, ctx, level).value)
    ensures forall k :: k !in ps ==> Get(ChainParams(ps, ctx, level).value, k) == None
  {
    assert ps[0..] == ps;
    AssignFromSets(ps, 0, ctx, level, []);
  }

  /** The source's loop over the chain template's placeholders. */
  method ComputeChainParams(ps: seq<string>, ctx: Fields, level: Json) returns (r: Outcome<Fields>)
    ensures r == ChainParams(ps, ctx, level)
  {
    ghost var total := ChainParams(ps, ctx, level);
    var acc: Fields := [];
    var i := 0;
    while i < |ps|
      invariant 0 <= i <= |ps|
      invariant total == AssignFrom(ps, i, ctx, level, acc)
    {
      var v := ChainValue(ps[i], ctx, level);
      AssignFromStep(ps, i, ctx, level, acc, v);
      if v.Crash? {
        return Crash(v.reason);
      }
      acc := AssignStep(acc, ps[i], v.value);
      i := i + 1;
    }
    return Ok(acc);
  }

  /** One turn of the assignment loop: the i-th value raises, or is set
      and the loop goes on. */
  lemma AssignFromStep(ps: seq<string>, i: nat, ctx: Fields, level: Json, acc: Fields, v: Outcome<Json>)
    requires i < |ps| && v == ChainValue(ps[i], ctx, level)
    ensures v.Crash? ==> AssignFrom(ps, i, ctx, level, acc) == Crash(v.reason)
    ensures v.Ok? ==> AssignFrom(ps, i, ctx, level, acc) == AssignFrom(ps, i + 1, ctx, level, AssignStep(acc, ps[i], v.value))
  {
  }

  /** The record id of a part: `<id>_initial` or `<id>_chain`. */
  function PartId(id: Json, suffix: string): Json {
    JStr(PyStr(id) + suffix)
  }

  function InitialWarning(id: Json, warning: string): (r: string)
    ensures StartsWith(r, ChainPrefix)
  {
    PrefixStarts(ChainPrefix, "Initial hit warning for '" + PyStr(id) + "': " + warning);
    ChainPrefix + ("Initial hit warning for '" + PyStr(id) + "': " + warning)
  }

  function InitialMissing(id: Json): (r: string)
    ensures StartsWith(r, ChainPrefix)
  {
    PrefixStarts(ChainPrefix, "Could not determine initial hit lang_id for " + PyStr(id));
    ChainPrefix + ("Could not determine initial hit lang_id for " + PyStr(id))
  }

  function ChainMissing(id: Json): (r: string)
    ensures StartsWith(r, ChainPrefix)
  {
    PrefixStarts(ChainPrefix, "Could not construct or find any lang_id for property '" + PyStr(id) + "'");
    ChainPrefix + ("Could not construct or find any lang_id for property '" + PyStr(id) + "'")
  }

  /** `HEALTH`: the level-scaled per-mil power of the initial hit, in
      percent. */
  function InitialHealth(ctx: Fields, level: Json): (r: Outcome<Json>)
    ensures r.Ok? ==> r.value.JFloat?
  {
    var v :- Scaled(GetOr(ctx, "powerMultiplierPerMil", JInt(0)),
                    GetOr(ctx, "powerMultiplierIncrementPerLevelPerMil", JInt(0)), level);
    Ok(ToJson(Div(v, 10.0)))
  }

  /** `HEALTH` is `(base + inc * (level - 1)) / 10`. */
  lemma InitialHealthMeaning(ctx: Fields, level: Json)
    requires InitialHealth(ctx, level).Ok?
    ensures Scaled(GetOr(ctx, "powerMultiplierPerMil", JInt(0)),
                   GetOr(ctx, "powerMultiplierIncrementPerLevelPerMil", JInt(0)), level).Ok?
    ensures InitialHealth(ctx, level).value ==
      JFloat(AsReal(Scaled(GetOr(ctx, "powerMultiplierPerMil", JInt(0)),
                           GetOr(ctx, "powerMultiplierIncrementPerLevelPerMil", JInt(0)), level).value) / 10.0)
  {
  }

  /** The subset the initial hit is matched in: the context's
      `prop_lang_subset`, else every property template. */
  function InitialSubset(st: State, db: LangDb): seq<string> {
    if st.propLangSubset.Some? then st.propLangSubset.value else KeysWithPrefix(db, PropertyPrefix)
  }

  /** The initial hit's record for template `key`: `HEALTH` only. */
  function InitialRecord(id: Json, key: string, ctx: Fields, level: Json, env: Env): (r: Outcome<Item>)
    ensures r.Ok? <==> InitialHealth(ctx, level).Ok?
    ensures r.Ok? ==> r.value.Described? && r.value.id == PartId(id, "_initial") && r.value.langId == key
    ensures r.Ok? ==> (Keys(r.value.params) == ["HEALTH"] &&
      InitialHealth(ctx, level) == Ok(Get(r.value.params, "HEALTH").value))
  {
    var health :- InitialHealth(ctx, level);
    var params := [("HEALTH", health)];
    var texts := Description(key, FormatAll(params), env.lang);
    Ok(Described(PartId(id, "_initial"), key, params, texts.en, texts.ja, NoNested, None))
  }

  /** The initial hit's record and warnings after the matcher's choice. */
  function InitialOf(id: Json, c: Choice, ctx: Fields, level: Json, env: Env): (r: Outcome<(Item, seq<string>)>)
    ensures r.Ok? ==> (r.value.0.Described? || r.value.0.Failed?) && r.value.0.id == PartId(id, "_initial")
    ensures r.Ok? && r.value.0.Described? ==>
      c.Chosen? && r.value.1 == [] && InitialRecord(id, c.key, ctx, level, env) == Ok(r.value.0)
    ensures r.Ok? && r.value.0.Failed? ==> r.value.1 != [] && r.value.1[|r.value.1| - 1] == InitialMissing(id)
    ensures r.Ok? ==> forall w :: w in r.value.1 ==> StartsWith(w, ChainPrefix)
  {
    var ws := if c.NoMatch? then [InitialWarning(id, c.warning)] else [];
    var key := ChosenKey(c);
    if key != "" then
      var item :- InitialRecord(id, key, ctx, level, env);
      Ok((item, ws))
    else
      Ok((Failed(PartId(id, "_initial"), "FAIL_LANG_ID: ChainStrike Initial Hit '" + PyStr(id) + "'"),
          ws + [InitialMissing(id)]))
  }

  /** The initial hit, when the property has `powerMultiplierPerMil`: the
      template the matcher picks for `{"propertyType": chainEffectType}`
      (default `Damage`) filled with `HEALTH`, or a failure record; the
      matcher's warning comes first. */
  function InitialHit(prop: Fields, ctx: Fields, level: Json, env: Env, st: State): (r: Outcome<Parsed>)
    ensures !Has(prop, "powerMultiplierPerMil") ==> r == Ok(Parsed([], [], st))
    ensures r.Ok? ==> LogOnly(st, r.value.st)
    ensures r.Ok? && Has(prop, "powerMultiplierPerMil") ==>
      |r.value.items| == 1 && (r.value.items[0].Described? || r.value.items[0].Failed?)
    ensures r.Ok? && Has(prop, "powerMultiplierPerMil") ==> r.value.items[0].id == PartId(GetJ(prop, "id"), "_initial")
    ensures r.Ok? && Has(prop, "powerMultiplierPerMil") && r.value.items[0].Described? ==>
      r.value.items[0].langId in InitialSubset(st, env.lang) && r.value.warnings == [] &&
      InitialRecord(GetJ(prop, "id"), r.value.items[0].langId, ctx, level, env) == Ok(r.value.items[0])
    ensures r.Ok? && Has(prop, "powerMultiplierPerMil") && r.value.items[0].Failed? ==>
      r.value.warnings != [] && r.value.warnings[|r.value.warnings| - 1] == InitialMissing(GetJ(prop, "id"))
    ensures r.Ok? ==> forall w :: w in r.value.warnings ==> StartsWith(w, ChainPrefix)
    ensures r.Ok? && Has(prop, "powerMultiplierPerMil") ==>
      Match([("propertyType", GetOr(prop, "chainEffectType", JStr("Damage")))], InitialSubset(st, env.lang), None, st).Ok?
    ensures r.Ok? && Has(prop, "powerMultiplierPerMil") ==>
      (var m := Match([("propertyType", GetOr(prop, "chainEffectType", JStr("Damage")))],
                      InitialSubset(st, env.lang), None, st).value;
       InitialOf(GetJ(prop, "id"), m.0, ctx, level, env) == Ok((r.value.items[0], r.value.warnings)) &&
       r.value.st == m.1 &&
       (r.value.items[0].Described? ==> r.value.items[0].langId == ChosenKey(m.0)))
  {
    if !Has(prop, "powerMultiplierPerMil") then Ok(Parsed([], [], st))
    else
      var kind := GetOr(prop, "chainEffectType", JStr("Damage"));
      var m :- Match([("propertyType", kind)], InitialSubset(st, env.lang), None, st);
      var one :- InitialOf(GetJ(prop, "id"), m.0, ctx, level, env);
      Ok(Parsed([one.0], one.1, m.1))
  }

  /** The chain hit: the template built from the lowered `propertyType` and
      the modifiers, its parameters and the tooltip for the property type;
      a failure record and one warning when no template exists. */
  function ChainHit(prop: Fields, ctx: Fields, level: Json, env: Env, st: State): (r: Outcome<(Item, seq<string>)>)
    ensures r.Ok? ==> LowerOf(GetStr(prop, "propertyType", "")).Ok?
    ensures r.Ok? ==> (r.value.0.Described? || r.value.0.Failed?) && r.value.0.id == PartId(GetJ(prop, "id"), "_chain")
    ensures r.Ok? && r.value.0.Described? ==> (r.value.1 == [] && Modifiers(ctx).Ok? &&
      ChainLangId(LowerOf(GetStr(prop, "propertyType", "")).value, Modifiers(ctx).value, env.lang) == Some(r.value.0.langId) &&
      ChainParams(Placeholders(EnText(env.lang, r.value.0.langId)), ctx, level) == Ok(r.value.0.params))
    ensures r.Ok? && r.value.0.Failed? ==> (r.value.1 == [ChainMissing(GetJ(prop, "id"))] &&
      Modifiers(ctx).Ok? && ChainLangId(LowerOf(GetStr(prop, "propertyType", "")).value, Modifiers(ctx).value, env.lang).None?)
    ensures r.Ok? ==> forall w :: w in r.value.1 ==> StartsWith(w, ChainPrefix)
  {
    var id := GetJ(prop, "id");
    var base :- LowerOf(GetStr(prop, "propertyType", ""));
    var mods :- Modifiers(ctx);
    match ChainLangId(base, mods, env.lang)
    case None =>
      Ok((Failed(PartId(id, "_chain"), "FAIL_LANG_ID: ChainStrike Chain Hit '" + PyStr(id) + "'"), [ChainMissing(id)]))
    case Some(key) =>
      var ps := Placeholders(EnText(env.lang, key));
      var params :- ChainParams(ps, ctx, level);
      var texts := Description(key, FormatAll(params), env.lang);
      var extra :- ExtraFor(["specialproperty", "property"], base, ctx, params, env, st.extraLangIds);
      Ok((Described(PartId(id, "_chain"), key, params, texts.en, texts.ja, NoNested, extra), []))
  }

  /** `parse_chain_strike(prop_data, special_data, ...)`: the initial hit
      when there is one, then the chain hit, at the special's `maxLevel`;
      only the matcher's log entries are added to the context. */
  function ChainStrike(prop: Fields, special: Fields, env: Env, st: State): (r: Outcome<Parsed>)
    ensures r.Ok? ==> LogOnly(st, r.value.st)
    ensures r.Ok? ==> |r.value.items| == (if Has(prop, "powerMultiplierPerMil") then 2 else 1)
    ensures r.Ok? ==> var last := r.value.items[|r.value.items| - 1];
      (last.Described? || last.Failed?) && last.id == PartId(GetJ(prop, "id"), "_chain")
    ensures r.Ok? && Has(prop, "powerMultiplierPerMil") ==> var first := r.value.items[0];
      (first.Described? || first.Failed?) && first.id == PartId(GetJ(prop, "id"), "_initial")
    ensures r.Ok? ==> forall w :: w in r.value.warnings ==> StartsWith(w, ChainPrefix)
  {
    var level := MaxLevel(special);
    var ctx := SearchContext(prop, level);
    var initial :- InitialHit(prop, ctx, level, env, st);
    var chain :- ChainHit(prop, ctx, level, env, initial.st);
    AllStart(initial.warnings, chain.1, ChainPrefix);
    Ok(Joined(initial, chain))
  }

  /** The initial hit's records followed by the chain hit's. */
  function Joined(initial: Parsed, chain: (Item, seq<string>)): (r: Parsed)
    ensures |r.items| == |initial.items| + 1 && r.items[|initial.items|] == chain.0
    ensures forall i :: 0 <= i < |initial.items| ==> r.items[i] == initial.items[i]
    ensures r.warnings == initial.warnings + chain.1 && r.st == initial.st
  {
    Parsed(initial.items + [chain.0], initial.warnings + chain.1, initial.st)
  }

  /** Reading the property through the search context is reading the
      property itself, for every key but `maxLevel`. */
  lemma ContextReads(prop: Fields, level: Json, k: string)
    requires k != "maxLevel"
    ensures Get(SearchContext(prop, level), k) == Get(prop, k)
  {
    PutGet(prop, "maxLevel", level, k);
  }

  /** The most specific template wins: with a modifier and the full key in
      the table, the chain hit uses the full key. */
  lemma MostSpecificWins(prop: Fields, special: Fields, env: Env, st: State)
    requires ChainStrike(prop, special, env, st).Ok?
    requires Modifiers(SearchContext(prop, MaxLevel(special))).Ok? && LowerOf(GetStr(prop, "propertyType", "")).Ok?
    requires Modifiers(SearchContext(prop, MaxLevel(special))).value != []
    requires InLang(env.lang, FullKey(LowerOf(GetStr(prop, "propertyType", "")).value,
                                      Modifiers(SearchContext(prop, MaxLevel(special))).value))
    ensures var items := ChainStrike(prop, special, env, st).value.items;
      items[|items| - 1].Described? &&
      items[|items| - 1].langId == FullKey(LowerOf(GetStr(prop, "propertyType", "")).value,
                                           Modifiers(SearchContext(prop, MaxLevel(special))).value)
  {
    var level := MaxLevel(special);
    var ctx := SearchContext(prop, level);
    var initial := InitialHit(prop, ctx, level, env, st).value;
    var chain := ChainHit(prop, ctx, level, env, initial.st).value;
    assert ChainStrike(prop, special, env, st).value.items == initial.items + [chain.0];
  }

  /** A property that asks for one extra hit gets the `onehit` modifier
      first. */
  lemma OneHitFirst(prop: Fields, level: Json)
    requires Modifiers(SearchContext(prop, level)).Ok?
    requires IsOne(GetJ(prop, "maxExtraHits"))
    ensures var mods := Modifiers(SearchContext(prop, level)).value; mods != [] && mods[0] == "onehit"
  {
    ContextReads(prop, level, "maxExtraHits");
  }
}
