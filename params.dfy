/** Filling a template's parameters: the value resolver applied to each
    placeholder in turn, with the `DAMAGE` conversions of the status-effect
    and passive-skill parsers. */
module Params {
  import opened Strings
  import opened Json
  import opened Tables
  import opened Values
  import opened Records

  /** How a `DAMAGE` placeholder whose value came from a per-mil key is
      shown: as found, as damage per turn (times the turns when the
      template says `over {TURNS} turns`), or as the damage. */
  datatype Damage = Plain | PerTurn(template: string, turns: Num) | FromAttack

  /** `math.floor((value / 100) * max_attack)` */
  function DamageOf(v: Json, maxAttack: int): (r: Outcome<int>)
    ensures r.Ok? <==> IsNumeric(v)
    ensures r.Ok? ==> r.value as real <= AsReal(NumOf(v).value) / 100.0 * maxAttack as real < r.value as real + 1.0
  {
    if IsNumeric(v) then Ok((AsReal(NumOf(v).value) / 100.0 * maxAttack as real).Floor)
    else Crash("TypeError: unsupported operand type(s) for /: '" + TypeName(v) + "' and 'int'")
  }

  /** `turns or 1` */
  function TurnsOr1(turns: Num): (r: Num)
    ensures AsReal(r) != 0.0
    ensures AsReal(turns) != 0.0 ==> r == turns
  {
    if AsReal(turns) == 0.0 then IntV(1) else turns
  }

  /** The tag names a per-mil key. */
  predicate PerMilTag(tag: Option<string>) {
    Contains(Lower(if tag.Some? then tag.value else ""), "permil")
  }

  /** The placeholder is `DAMAGE` (in any case), its value came from a
      per-mil key, and the parser converts such values. */
  predicate ConvertsDamage(p: string, f: Found, mode: Damage) {
    !mode.Plain? && Upper(p) == "DAMAGE" && PerMilTag(f.tag)
  }

  /** The value stored for a placeholder, none when the resolver found
      nothing. */
  function Converted(p: string, f: Found, maxAttack: int, mode: Damage): (r: Outcome<Option<Json>>)
    ensures f.value.None? ==> r == Ok(None)
    ensures f.value.Some? && !ConvertsDamage(p, f, mode) ==> r == Ok(f.value)
    ensures f.value.Some? && ConvertsDamage(p, f, mode) ==> (r.Ok? <==> IsNumeric(f.value.value))
    ensures f.value.Some? && ConvertsDamage(p, f, mode) && mode.FromAttack? && r.Ok? ==>
      r.value == Some(JInt(DamageOf(f.value.value, maxAttack).value))
    ensures f.value.Some? && ConvertsDamage(p, f, mode) && mode.PerTurn? && r.Ok? ==>
      r.value == Some(if Contains(mode.template, "over {TURNS} turns")
                      then ToJson(Mul(IntV(DamageOf(f.value.value, maxAttack).value), TurnsOr1(mode.turns)))
                      else JInt(DamageOf(f.value.value, maxAttack).value))
    ensures r.Ok? ==> (r.value.Some? <==> f.value.Some?)
  {
    if f.value.None? then Ok(None)
    else if !ConvertsDamage(p, f, mode) then Ok(f.value)
    else
      var d :- DamageOf(f.value.value, maxAttack);
      match mode
      case PerTurn(template, turns) =>
        if Contains(template, "over {TURNS} turns") then Ok(Some(ToJson(Mul(IntV(d), TurnsOr1(turns)))))
        else Ok(Some(JInt(d)))
      case FromAttack => Ok(Some(JInt(d)))
  }

  /** The value resolver for one block, as a function of the placeholder
      (`find_and_calculate_value(p, block, level, hero_id, rules, ...)`). */
  function Finder(block: Json, level: Json, env: Env, isModifier: bool, ignore: seq<string>): string -> Outcome<Found> {
    p => FindValue(p, block, level, env.heroId, env.rules, isModifier, ignore)
  }

  /** The value resolver of a parser that decides `is_modifier` per
      placeholder from `kind.lower()`: the `lower()` raises AttributeError
      when `kind` is not text, before the resolver runs. */
  function KindFinder(block: Json, level: Json, env: Env, kind: Json, ignore: seq<string>): string -> Outcome<Found> {
    p => var k :- LowerOf(kind); FindValue(p, block, level, env.heroId, env.rules, Contains(k, "modifier"), ignore)
  }

  /** One placeholder: a key already present is kept; otherwise the
      resolved value, if any, is added. */
  function FillStep(acc: Fields, p: string, find: string -> Outcome<Found>, maxAttack: int, mode: Damage): (r: Outcome<Fields>)
    ensures Has(acc, p) ==> r == Ok(acc)
    ensures !Has(acc, p) && r.Ok? ==> find(p).Ok? && Converted(p, find(p).value, maxAttack, mode).Ok?
    ensures !Has(acc, p) && r.Ok? ==> Get(r.value, p) == Converted(p, find(p).value, maxAttack, mode).value
    ensures r.Ok? ==> forall k :: Has(acc, k) ==> Get(r.value, k) == Get(acc, k)
    ensures r.Ok? ==> forall k :: Has(r.value, k) ==> Has(acc, k) || k == p
  {
    if Has(acc, p) then Ok(acc)
    else
      var f :- find(p);
      var v :- Converted(p, f, maxAttack, mode);
      if v.Some? then
        FreshKey(acc, p, v.value);
        PutGet(acc, p, v.value, p);
        Ok(Put(acc, p, v.value))
      else Ok(acc)
  }

  lemma FreshKey(acc: Fields, p: string, v: Json)
    ensures forall k :: Has(acc, k) && k != p ==> Get(Put(acc, p, v), k) == Get(acc, k)
    ensures forall k :: Has(Put(acc, p, v), k) ==> Has(acc, k) || k == p
  {
    forall k | Has(acc, k) && k != p
      ensures Get(Put(acc, p, v), k) == Get(acc, k)
    {
      PutGet(acc, p, v, k);
    }
  }

  /** The placeholder loop from the i-th placeholder on, starting from the
      parameters `acc`: keys already set keep their values, and only
      placeholders from there on are added. */
  function FillFrom(ps: seq<string>, i: nat, acc: Fields, find: string -> Outcome<Found>, maxAttack: int, mode: Damage): (r: Outcome<Fields>)
    requires i <= |ps|
    ensures r.Ok? ==> forall k :: Has(acc, k) ==> Get(r.value, k) == Get(acc, k)
    ensures r.Ok? ==> forall k :: Has(r.value, k) ==> Has(acc, k) || k in ps[i..]
    decreases |ps| - i
  {
    if i == |ps| then Ok(acc)
    else
      var next :- FillStep(acc, ps[i], find, maxAttack, mode);
      InSuffix(ps, i);
      FillFrom(ps, i + 1, next, find, maxAttack, mode)
  }

  /** The parameters of a template with placeholders `ps`, starting from
      `seed` (the source's loop over the placeholders, skipping those
      already set): the seed's keys keep their values, and every other key
      is a placeholder. */
  function FillParams(ps: seq<string>, seed: Fields, find: string -> Outcome<Found>, maxAttack: int, mode: Damage): (r: Outcome<Fields>)
    ensures r.Ok? ==> forall k :: Has(seed, k) ==> Get(r.value, k) == Get(seed, k)
    ensures r.Ok? ==> forall k :: Has(r.value, k) ==> Has(seed, k) || k in ps
  {
    assert ps[0..] == ps;
    FillFrom(ps, 0, seed, find, maxAttack, mode)
  }

  /** Every placeholder the seed does not set ends up holding exactly the
      value the resolver found for it, after the `DAMAGE` conversion, and
      is left unset exactly when that value is `None`. */
  lemma FilledValue(ps: seq<string>, seed: Fields, find: string -> Outcome<Found>,
                    maxAttack: int, mode: Damage, i: nat)
    requires i < |ps| && !Has(seed, ps[i])
    requires FillParams(ps, seed, find, maxAttack, mode).Ok?
    ensures find(ps[i]).Ok? && Converted(ps[i], find(ps[i]).value, maxAttack, mode).Ok?
    ensures Get(FillParams(ps, seed, find, maxAttack, mode).value, ps[i]) ==
            Converted(ps[i], find(ps[i]).value, maxAttack, mode).value
  {
    assert ps[i] in ps[0..];
    FilledFrom(ps, 0, seed, find, maxAttack, mode, ps[i]);
  }

  /** With per-turn conversion, a `DAMAGE` placeholder the seed does not
      set and whose value comes from a per-mil key holds the attack-based
      damage, times the turns when the template says "over {TURNS} turns". */
  lemma PerTurnDamage(ps: seq<string>, seed: Fields, find: string -> Outcome<Found>,
                      maxAttack: int, template: string, turns: Num)
    requires "DAMAGE" in ps && !Has(seed, "DAMAGE")
    requires FillParams(ps, seed, find, maxAttack, PerTurn(template, turns)).Ok?
    ensures find("DAMAGE").Ok?
    ensures var f := find("DAMAGE").value;
      f.value.Some? && PerMilTag(f.tag) ==>
        IsNumeric(f.value.value) &&
        Get(FillParams(ps, seed, find, maxAttack, PerTurn(template, turns)).value, "DAMAGE") ==
          Some(if Contains(template, "over {TURNS} turns")
               then ToJson(Mul(IntV(DamageOf(f.value.value, maxAttack).value), TurnsOr1(turns)))
               else JInt(DamageOf(f.value.value, maxAttack).value))
  {
    var i :| 0 <= i < |ps| && ps[i] == "DAMAGE";
    FilledValue(ps, seed, find, maxAttack, PerTurn(template, turns), i);
    var f := find("DAMAGE").value;
    if f.value.Some? && PerMilTag(f.tag) {
      UpperKeeps("DAMAGE");
      assert ConvertsDamage("DAMAGE", f, PerTurn(template, turns));
    }
  }

  /** A placeholder is left unset if and only if the resolver found no
      value for it. */
  lemma UnsetMeansNotFound(ps: seq<string>, seed: Fields, find: string -> Outcome<Found>,
                           maxAttack: int, mode: Damage, i: nat)
    requires i < |ps| && !Has(seed, ps[i])
    requires FillParams(ps, seed, find, maxAttack, mode).Ok?
    ensures find(ps[i]).Ok?
    ensures !Has(FillParams(ps, seed, find, maxAttack, mode).value, ps[i]) <==> find(ps[i]).value.value.None?
  {
    FilledValue(ps, seed, find, maxAttack, mode, i);
  }

  lemma {:induction false} FilledFrom(ps: seq<string>, j: nat, acc: Fields, find: string -> Outcome<Found>,
                                      maxAttack: int, mode: Damage, p: string)
    requires j <= |ps| && p in ps[j..] && !Has(acc, p)
    requires FillFrom(ps, j, acc, find, maxAttack, mode).Ok?
    ensures find(p).Ok? && Converted(p, find(p).value, maxAttack, mode).Ok?
    ensures Get(FillFrom(ps, j, acc, find, maxAttack, mode).value, p) == Converted(p, find(p).value, maxAttack, mode).value
    decreases |ps| - j
  {
    var next := FilledStep(ps, j, acc, find, maxAttack, mode, p);
    var r := FillFrom(ps, j + 1, next, find, maxAttack, mode).value;
    if ps[j] == p && Has(next, p) {
      assert Get(r, p) == Get(next, p);
    } else if p in ps[j + 1..] {
      FilledFrom(ps, j + 1, next, find, maxAttack, mode, p);
    } else {
      assert !Has(r, p);
    }
  }

  /** The first step of the loop, seen from one placeholder `p` that is
      not yet set. */
  lemma FilledStep(ps: seq<string>, j: nat, acc: Fields, find: string -> Outcome<Found>,
                   maxAttack: int, mode: Damage, p: string) returns (next: Fields)
    requires j <= |ps| && p in ps[j..] && !Has(acc, p)
    requires FillFrom(ps, j, acc, find, maxAttack, mode).Ok?
    ensures j < |ps| && FillStep(acc, ps[j], find, maxAttack, mode) == Ok(next)
    ensures FillFrom(ps, j, acc, find, maxAttack, mode) == FillFrom(ps, j + 1, next, find, maxAttack, mode)
    ensures ps[j] != p ==> !Has(next, p) && p in ps[j + 1..]
    ensures ps[j] == p ==> find(p).Ok? && Converted(p, find(p).value, maxAttack, mode).Ok?
    ensures ps[j] == p ==> Get(next, p) == Converted(p, find(p).value, maxAttack, mode).value
  {
    FillFromOk(ps, j, acc, find, maxAttack, mode);
    next := FillStep(acc, ps[j], find, maxAttack, mode).value;
    FillFromStep(ps, j, acc, find, maxAttack, mode);
    if ps[j] != p {
      var k :| j <= k < |ps| && ps[k] == p;
      assert ps[k] in ps[j + 1..];
    }
  }

  /** One step of the loop: the placeholder's step, then the rest. */
  lemma FillFromStep(ps: seq<string>, j: nat, acc: Fields, find: string -> Outcome<Found>, maxAttack: int, mode: Damage)
    requires j < |ps| && FillStep(acc, ps[j], find, maxAttack, mode).Ok?
    ensures FillFrom(ps, j, acc, find, maxAttack, mode) ==
      FillFrom(ps, j + 1, FillStep(acc, ps[j], find, maxAttack, mode).value, find, maxAttack, mode)
  {
  }

  /** A loop that succeeds took its first step. */
  lemma FillFromOk(ps: seq<string>, j: nat, acc: Fields, find: string -> Outcome<Found>, maxAttack: int, mode: Damage)
    requires j < |ps| && FillFrom(ps, j, acc, find, maxAttack, mode).Ok?
    ensures FillStep(acc, ps[j], find, maxAttack, mode).Ok?
  {
  }

  /** A failing step ends the loop with its error. */
  lemma FillFromCrash(ps: seq<string>, j: nat, acc: Fields, find: string -> Outcome<Found>, maxAttack: int, mode: Damage)
    requires j < |ps| && FillStep(acc, ps[j], find, maxAttack, mode).Crash?
    ensures FillFrom(ps, j, acc, find, maxAttack, mode) == FillStep(acc, ps[j], find, maxAttack, mode)
  {
  }

  /** The body of the source's placeholder loop. */
  method FillOne(acc: Fields, p: string, find: string -> Outcome<Found>, maxAttack: int, mode: Damage)
    returns (r: Outcome<Fields>)
    ensures r == FillStep(acc, p, find, maxAttack, mode)
  {
    if Has(acc, p) {
      return Ok(acc);
    }
    var f := find(p);
    if f.Crash? {
      return Crash(f.reason);
    }
    var v := Converted(p, f.value, maxAttack, mode);
    if v.Crash? {
      return Crash(v.reason);
    }
    if v.value.Some? {
      FreshKey(acc, p, v.value.value);
      return Ok(Put(acc, p, v.value.value));
    }
    return Ok(acc);
  }

  /** The source's loop that fills `lang_params` key by key; `find` is the
      value resolver for the block being described. */
  method ComputeParams(ps: seq<string>, seed: Fields, find: string -> Outcome<Found>, maxAttack: int, mode: Damage)
    returns (r: Outcome<Fields>)
    ensures r == FillParams(ps, seed, find, maxAttack, mode)
  {
    var acc := seed;
    var i := 0;
    while i < |ps|
      invariant 0 <= i <= |ps|
      invariant FillParams(ps, seed, find, maxAttack, mode) == FillFrom(ps, i, acc, find, maxAttack, mode)
    {
      var next := FillOne(acc, ps[i], find, maxAttack, mode);
      if next.Crash? {
        FillFromCrash(ps, i, acc, find, maxAttack, mode);
        return next;
      }
      FillFromStep(ps, i, acc, find, maxAttack, mode);
      acc := next.value;
      i := i + 1;
    }
    return Ok(acc);
  }
}
