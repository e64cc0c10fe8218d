/** The direct-effect parser: a template id built from the effect's type,
    target and side, and the one parameter its power gives. */
module Direct {
  import opened Strings
  import opened Json
  import opened Tables
  import opened Records
  import opened Describe

  /** `p_map.get(effect_type, "VALUE")` */
  function DirectPlaceholder(effectType: string): string {
    if effectType == "Damage" || effectType == "Heal" then "HEALTH"
    else if effectType == "HealthBoost" then "HEALTHBOOST"
    else if effectType == "AddMana" then "MANA"
    else "VALUE"
  }

  /** An optional id part: nothing when the field is falsy, its lowered
      text when it is text, and None when `.lower()` would fail. */
  function OptPart(e: Fields, k: string): (r: Option<seq<string>>)
    ensures !Truthy(GetJ(e, k)) ==> r == Some([])
    ensures Truthy(GetJ(e, k)) ==> (r.Some? <==> GetJ(e, k).JStr?)
  {
    var v := GetJ(e, k);
    if !Truthy(v) then Some([]) else if v.JStr? then Some([Lower(v.s)]) else None
  }

  /** The id parts: `specials.v2.directeffect`, the type, then the
      target and the side when given; None on an AttributeError. */
  function DirectParts(e: Fields): (r: Option<seq<string>>)
    ensures r.Some? ==> |r.value| >= 2 && r.value[0] == "specials.v2.directeffect"
    ensures r.Some? <==> (GetJ(e, "effectType").JStr? &&
      OptPart(e, "typeOfTarget").Some? && OptPart(e, "sideAffected").Some?)
  {
    var t := GetJ(e, "effectType");
    if !t.JStr? then None
    else match (OptPart(e, "typeOfTarget"), OptPart(e, "sideAffected"))
      case (Some(a), Some(b)) => Some(["specials.v2.directeffect", Lower(t.s)] + a + b)
      case _ => None
  }

  /** The sign suffix of an `AddMana` effect; comparing a value that is not
      a number with 0 raises TypeError. */
  function ManaSuffix(power: Json): (r: Outcome<string>)
    ensures r.Ok? <==> IsNumeric(power)
    ensures r.Ok? ==> (r.value == ".increment" <==> AsReal(NumOf(power).value) > 0.0)
    ensures r.Ok? ==> (r.value == ".decrement" <==> AsReal(NumOf(power).value) < 0.0)
    ensures r.Ok? ==> (r.value == "" <==> AsReal(NumOf(power).value) == 0.0)
  {
    match NumOf(power)
    case None => Crash("TypeError: '>' not supported between instances of '" + TypeName(power) + "' and 'int'")
    case Some(n) => Ok(if AsReal(n) > 0.0 then ".increment" else if AsReal(n) < 0.0 then ".decrement" else "")
  }

  /** The divisor of the total per mil: 1 with fixed power, 100 for mana,
      10 otherwise. */
  function Unit(fixed: bool, mana: bool): (u: real)
    ensures u > 0.0
  {
    if fixed then 1.0 else if mana then 100.0 else 10.0
  }

  function Abs(n: int): nat {
    if n < 0 then -n else n
  }

  /** The parameter of a direct effect: with a positive base or increment,
      the total per mil over the unit, rounded; with only negative ones, the
      size of the rounded total over 100; with both zero, none. */
  function DirectParams(placeholder: string, fixed: bool, mana: bool, base: Num, inc: Num, total: Num): (r: Fields)
    ensures r == [] <==> AsReal(base) == 0.0 && AsReal(inc) == 0.0
    ensures r != [] ==> |r| == 1 && r[0].0 == placeholder && r[0].1.JInt?
    ensures (AsReal(base) > 0.0 || AsReal(inc) > 0.0) ==>
      AsReal(total) / Unit(fixed, mana) - 1.0 / 2.0 <= r[0].1.i as real <= AsReal(total) / Unit(fixed, mana) + 1.0 / 2.0
    ensures (AsReal(base) > 0.0 || AsReal(inc) > 0.0) ==> r[0].1.i == RoundHalfEven(AsReal(total) / Unit(fixed, mana))
    ensures !(AsReal(base) > 0.0 || AsReal(inc) > 0.0) && r != [] ==>
      r[0].1.i >= 0 && r[0].1.i == Abs(RoundHalfEven(AsReal(total) / 100.0))
  {
    if AsReal(base) > 0.0 || AsReal(inc) > 0.0 then
      [(placeholder, JInt(RoundHalfEven(AsReal(total) / Unit(fixed, mana))))]
    else if AsReal(base) < 0.0 || AsReal(inc) < 0.0 then
      [(placeholder, JInt(Abs(RoundHalfEven(AsReal(total) / 100.0))))]
    else []
  }

  /** The template id: the parts joined by dots, the `AddMana` sign
      suffix, then `.fixedpower` when the power is fixed. */
  function DirectLangId(e: Fields, parts: seq<string>): (r: Outcome<string>)
    requires |parts| >= 2 && parts[0] == "specials.v2.directeffect" && GetJ(e, "effectType").JStr?
    ensures r.Crash? <==> (GetJ(e, "effectType").s == "AddMana" && !IsNumeric(Base(e)))
    ensures r.Ok? ==> StartsWith(r.value, "specials.v2.directeffect" + ".")
    ensures r.Ok? ==>
      r.value == Join(parts, ".") +
                 (if GetJ(e, "effectType").s == "AddMana" then ManaSuffix(Base(e)).value else "") +
                 (if Truthy(GetJ(e, "hasFixedPower")) then ".fixedpower" else "")
  {
    var etype := GetJ(e, "effectType").s;
    var mana :- if etype == "AddMana" then ManaSuffix(Base(e)) else Ok("");
    var head, fixed := Join(parts[1..], "."), if Truthy(GetJ(e, "hasFixedPower")) then ".fixedpower" else "";
    assert Join(parts, ".") == parts[0] + "." + head;
    PrefixStarts(parts[0] + ".", head + mana + fixed);
    Regroup(parts[0] + ".", head, mana, fixed);
    Ok(Join(parts, ".") + mana + fixed)
  }

  lemma Snoc2<T>(a: T, b: T, c: T, d: T)
    ensures [a, b] + [c] + [d] == [a, b, c, d]
  {
  }

  /** The power per mil and its increment per level, each 0 when absent. */
  function Base(e: Fields): Json { GetOr(e, "powerMultiplierPerMil", JInt(0)) }
  function Inc(e: Fields): Json { GetOr(e, "powerMultiplierIncrementPerLevelPerMil", JInt(0)) }

  /** The parameters of an effect at the special's level: TypeError when
      the power, the increment or the level is not a number, otherwise the
      one parameter its placeholder takes from the total. */
  function DirectValues(special: Fields, e: Fields, st: State): (r: Outcome<Fields>)
    requires GetJ(e, "effectType").JStr?
    ensures r.Ok? <==> Scaled(Base(e), Inc(e), GetOr(special, "maxLevel", LevelOf(st))).Ok?
    ensures r.Ok? ==> IsNumeric(Base(e)) && IsNumeric(Inc(e))
    ensures r.Ok? ==>
      r.value == DirectParams(DirectPlaceholder(GetJ(e, "effectType").s), Truthy(GetJ(e, "hasFixedPower")),
                              GetJ(e, "effectType").s == "AddMana", NumOf(Base(e)).value, NumOf(Inc(e)).value,
                              Scaled(Base(e), Inc(e), GetOr(special, "maxLevel", LevelOf(st))).value)
  {
    var etype := GetJ(e, "effectType").s;
    var total :- Scaled(Base(e), Inc(e), GetOr(special, "maxLevel", LevelOf(st)));
    Ok(DirectParams(DirectPlaceholder(etype), Truthy(GetJ(e, "hasFixedPower")), etype == "AddMana",
                    NumOf(Base(e)).value, NumOf(Inc(e)).value, total))
  }

  /** The record of an effect whose parts are text: its values, and the
      template filled with them. */
  function DirectRecord(special: Fields, e: Fields, langId: string, env: Env, st: State): (r: Outcome<Item>)
    requires GetJ(e, "effectType").JStr?
    ensures r.Ok? <==> DirectValues(special, e, st).Ok?
    ensures r.Ok? ==> r.value.Direct? && r.value.langId == langId && r.value.params == DirectValues(special, e, st).value
    ensures r.Ok? ==> Texts(r.value.en, r.value.ja) == Description(langId, r.value.params, env.lang)
  {
    var params :- DirectValues(special, e, st);
    var texts := Description(langId, params, env.lang);
    Ok(Direct(langId, params, texts.en, texts.ja))
  }

  /** `parse_direct_effect(special_data, ...)`: no record of a type
      without an effect or a type; an error record when a part is not text;
      otherwise the filled template. The level is the special's `maxLevel`,
      else the context's `main_max_level`, else 8. */
  function DirectEffect(special: Fields, env: Env, st: State): (r: Outcome<Item>)
    ensures !Truthy(GetJ(special, "directEffect")) ==> r == Ok(DirectNoType)
    ensures Truthy(GetJ(special, "directEffect")) && !GetJ(special, "directEffect").JObj? ==> r.Crash?
    ensures r.Ok? ==> r.value.DirectNoType? || r.value.DirectError? || r.value.Direct?
    ensures r.Ok? && r.value.Direct? ==> StartsWith(r.value.langId, "specials.v2.directeffect" + ".")
    ensures (Truthy(GetJ(special, "directEffect")) && GetJ(special, "directEffect").JObj? &&
             !Truthy(GetJ(GetJ(special, "directEffect").fields, "effectType"))) ==> r == Ok(DirectNoType)
    ensures r.Ok? && r.value.Direct? ==> GetJ(special, "directEffect").JObj?
    ensures r.Ok? && r.value.Direct? ==>
      (var e := GetJ(special, "directEffect").fields;
       GetJ(e, "effectType").JStr? && DirectParts(e).Some? &&
       DirectLangId(e, DirectParts(e).value) == Ok(r.value.langId) &&
       DirectRecord(special, e, r.value.langId, env, st) == r)
    ensures (Truthy(GetJ(special, "directEffect")) && GetJ(special, "directEffect").JObj? &&
             Truthy(GetJ(GetJ(special, "directEffect").fields, "effectType"))) ==>
      (r == Ok(DirectError) <==> DirectParts(GetJ(special, "directEffect").fields).None?)
  {
    var effect := GetJ(special, "directEffect");
    if !Truthy(effect) then Ok(DirectNoType)
    else if !effect.JObj? then Crash(NoAttribute(effect, "get"))
    else
      var e := effect.fields;
      if !Truthy(GetJ(e, "effectType")) then Ok(DirectNoType)
      else match DirectParts(e)
        case None => Ok(DirectError)
        case Some(parts) =>
          var langId :- DirectLangId(e, parts);
          DirectRecord(special, e, langId, env, st)
  }

  /** A plain effect type alone gives `specials.v2.directeffect.<type>`. */
  lemma DirectIdOfType(special: Fields, env: Env, st: State, e: Fields, t: string)
    requires GetJ(special, "directEffect") == JObj(e) && e != []
    requires GetJ(e, "effectType") == JStr(t) && t != "" && t != "AddMana"
    requires !Truthy(GetJ(e, "typeOfTarget")) && !Truthy(GetJ(e, "sideAffected")) && !Truthy(GetJ(e, "hasFixedPower"))
    requires DirectEffect(special, env, st).Ok?
    ensures DirectEffect(special, env, st).value.Direct?
    ensures DirectEffect(special, env, st).value.langId == "specials.v2.directeffect" + "." + Lower(t)
  {
    var parts := ["specials.v2.directeffect", Lower(t)];
    assert OptPart(e, "typeOfTarget") == Some([]) && OptPart(e, "sideAffected") == Some([]);
    assert DirectParts(e) == Some(parts) by {
      assert ["specials.v2.directeffect", Lower(t)] + [] + [] == parts;
    }
    DirectEffectOf(special, env, st, e, parts);
    JoinTwo("specials.v2.directeffect", Lower(t), ".");
    assert Join(parts, ".") + "" + "" == Join(parts, ".");
  }

  /** A type with a text target and side gives
      `specials.v2.directeffect.<type>.<target>.<side>`, then
      `.fixedpower` when the power is fixed. */
  lemma DirectIdOfParts(special: Fields, env: Env, st: State, e: Fields, t: string, x: string, y: string)
    requires GetJ(special, "directEffect") == JObj(e) && e != []
    requires GetJ(e, "effectType") == JStr(t) && t != "" && t != "AddMana"
    requires GetJ(e, "typeOfTarget") == JStr(x) && x != "" && GetJ(e, "sideAffected") == JStr(y) && y != ""
    requires DirectEffect(special, env, st).Ok?
    ensures DirectEffect(special, env, st).value.Direct?
    ensures DirectEffect(special, env, st).value.langId ==
      "specials.v2.directeffect" + "." + Lower(t) + "." + Lower(x) + "." + Lower(y) +
      (if Truthy(GetJ(e, "hasFixedPower")) then ".fixedpower" else "")
  {
    var parts := ["specials.v2.directeffect", Lower(t), Lower(x), Lower(y)];
    assert OptPart(e, "typeOfTarget") == Some([Lower(x)]) && OptPart(e, "sideAffected") == Some([Lower(y)]);
    Snoc2("specials.v2.directeffect", Lower(t), Lower(x), Lower(y));
    DirectEffectOf(special, env, st, e, parts);
    JoinFour("specials.v2.directeffect", Lower(t), Lower(x), Lower(y), ".");
    assert Join(parts, ".") + "" == Join(parts, ".");
  }

  /** An effect whose parts are text and whose template id is well formed
      gives the record with that id. */
  lemma DirectEffectOf(special: Fields, env: Env, st: State, e: Fields, parts: seq<string>)
    requires GetJ(special, "directEffect") == JObj(e) && e != [] && Truthy(GetJ(e, "effectType"))
    requires DirectParts(e) == Some(parts) && DirectLangId(e, parts).Ok?
    ensures DirectEffect(special, env, st) == DirectRecord(special, e, DirectLangId(e, parts).value, env, st)
  {
    var effect := GetJ(special, "directEffect");
    assert Truthy(effect) && effect.JObj? && effect.fields == e;
    assert DirectParts(e).Some? && DirectParts(e).value == parts;
  }

  /** A type that is not text gives the error record. */
  lemma DirectTypeNotText(special: Fields, env: Env, st: State, e: Fields)
    requires GetJ(special, "directEffect") == JObj(e) && e != []
    requires Truthy(GetJ(e, "effectType")) && !GetJ(e, "effectType").JStr?
    ensures DirectEffect(special, env, st) == Ok(DirectError)
  {
  }
}
