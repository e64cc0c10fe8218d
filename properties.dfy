/** The special-property parser, with the rotating and charged specials
    whose property holds whole sub-specials. */
module Properties {
  import opened Strings
  import opened Json
  import opened Tables
  import opened Records
  import opened Params
  import opened Describe
  import opened Matcher
  import opened Direct
  import opened Status

  const PropWarningPrefix := "[parse_properties]: "

  /** The property type that makes a property the container of a hero's
      mana-speed kind. */
  function ContainerType(speed: string): Option<string> {
    if speed == "changing_tides" then Some("RotatingSpecial")
    else if speed == "charge_ninja" || speed == "charge_magic" then Some("ChargedSpecial")
    else None
  }

  /** The container's template. */
  function ContainerLangId(speed: string): string {
    if speed == "changing_tides" then "specials.v2.property.evolving_special"
    else if speed == "charge_ninja" then "specials.v2.property.chargedspecial.3"
    else "specials.v2.property.chargedspecial.2"
  }

  function HeadingsEn(speed: string): seq<string> {
    if speed == "changing_tides" then ["1st:", "2nd:"]
    else if speed == "charge_ninja" then ["x1 Mana Charge:", "x2 Mana Charge:", "x3 Mana Charge:"]
    else if speed == "charge_magic" then ["x1 Mana Charge:", "x2 Mana Charge:"]
    else []
  }

  function HeadingsJa(speed: string): seq<string> {
    if speed == "changing_tides" then ["第1:", "第2:"]
    else if speed == "charge_ninja" then ["x1マナチャージ:", "x2マナチャージ:", "x3マナチャージ:"]
    else if speed == "charge_magic" then ["x1マナチャージ:", "x2マナチャージ:"]
    else []
  }

  /** The heading of the part at position i: the table's entry, else
      `Level <i+1>:` (`レベル <i+1>:`). */
  function HeadingOf(speed: string, i: nat): (r: Item)
    ensures r.Heading?
    ensures i < |HeadingsEn(speed)| ==> r.en == HeadingsEn(speed)[i]
    ensures i >= |HeadingsEn(speed)| ==> r.en == "Level " + NatToString(i + 1) + ":"
    ensures i >= |HeadingsJa(speed)| ==> r.ja == "レベル " + NatToString(i + 1) + ":"
  {
    Heading(if i < |HeadingsEn(speed)| then HeadingsEn(speed)[i] else "Level " + NatToString(i + 1) + ":",
            if i < |HeadingsJa(speed)| then HeadingsJa(speed)[i] else "レベル " + NatToString(i + 1) + ":")
  }

  /** The mana-speed kind when the property is the container of the
      hero's kind; a kind that cannot be a dict key raises TypeError. */
  function ContainerSpeed(st: State, propertyType: Json): (r: Outcome<Option<string>>)
    ensures r.Ok? && r.value.Some? ==>
      ContainerType(r.value.value).Some? && propertyType == JStr(ContainerType(r.value.value).value) &&
      st.heroManaSpeedId == Some(JStr(r.value.value))
    ensures st.heroManaSpeedId.None? ==> r == Ok(None)
    ensures r.Crash? <==> st.heroManaSpeedId.Some? && !Hashable(st.heroManaSpeedId.value)
    ensures forall s ::
      (st.heroManaSpeedId == Some(JStr(s)) && ContainerType(s).Some? && propertyType == JStr(ContainerType(s).value))
      ==> r == Ok(Some(s))
  {
    var speed := if st.heroManaSpeedId.Some? then st.heroManaSpeedId.value else JNull;
    if !Hashable(speed) then Crash("TypeError: unhashable type: '" + TypeName(speed) + "'")
    else if speed.JStr? && ContainerType(speed.s).Some? && propertyType == JStr(ContainerType(speed.s).value) then
      Ok(Some(speed.s))
    else Ok(None)
  }

  /** `FAIL_LANG_ID: type='<type>', id='<id>'` */
  function FailText(propertyType: Json, id: Json): (r: string)
    ensures StartsWith(r, "FAIL_LANG_ID: ")
  {
    PrefixStarts("FAIL_LANG_ID: ", "type='" + PyStr(propertyType) + "', id='" + PyStr(id) + "'");
    "FAIL_LANG_ID: " + ("type='" + PyStr(propertyType) + "', id='" + PyStr(id) + "'")
  }

  /** The parsers' dict after a call: `main_max_level` may be set and log
      entries added; nothing else changes. */
  predicate Keeps(st: State, st': State) {
    st'.(mainMaxLevel := st.mainMaxLevel, debugLog := st.debugLog) == st && st.debugLog <= st'.debugLog
  }

  /** A record the property parser emits, nested ones included. */
  predicate PropRecord(it: Item)
    decreases it, 0
  {
    match it
    case Described(_, langId, _, _, _, nested, _) =>
      langId != "" &&
      (match nested
       case Effects(ns) => forall i :: 0 <= i < |ns| ==> StatusRecord(ns[i])
       case NoNested => false)
    case Failed(_, text) => StartsWith(text, "FAIL_LANG_ID: ")
    case Container(_, _, _, _, parts) => forall i :: 0 <= i < |parts| ==> PartRecord(parts[i])
    case _ => false
  }

  /** A record inside a container: a heading, a direct effect, a property
      or a status effect. */
  predicate PartRecord(it: Item)
    decreases it, 1
  {
    it.Heading? || it.DirectNoType? || it.DirectError? || it.Direct? || PropRecord(it) || StatusRecord(it)
  }

  predicate AllProps(items: seq<Item>) {
    forall i :: 0 <= i < |items| ==> PropRecord(items[i])
  }

  predicate AllParts(items: seq<Item>) {
    forall i :: 0 <= i < |items| ==> PartRecord(items[i])
  }

  lemma AllPartsJoin(a: seq<Item>, b: seq<Item>, c: seq<Item>, d: seq<Item>)
    requires AllParts(a) && AllParts(b) && AllParts(c) && AllParts(d)
    ensures AllParts(a + b + c + d)
  {
    AllPartsConcat(a, b);
    AllPartsConcat(a + b, c);
    AllPartsConcat(a + b + c, d);
  }

  lemma AllPropsConcat(a: seq<Item>, b: seq<Item>)
    requires AllProps(a) && AllProps(b)
    ensures AllProps(a + b)
  {
    forall i | 0 <= i < |a + b| ensures PropRecord((a + b)[i]) {
      if i >= |a| {
        assert (a + b)[i] == b[i - |a|];
      }
    }
  }

  lemma SingleProp(items: seq<Item>)
    requires |items| == 1 && PropRecord(items[0])
    ensures AllProps(items)
  {
  }

  lemma AllPartsConcat(a: seq<Item>, b: seq<Item>)
    requires AllParts(a) && AllParts(b)
    ensures AllParts(a + b)
  {
    forall i | 0 <= i < |a + b| ensures PartRecord((a + b)[i]) {
      if i >= |a| {
        assert (a + b)[i] == b[i - |a|];
      }
    }
  }

  /** Properties and status effects may stand inside a container. */
  lemma PropsAreParts(items: seq<Item>)
    requires AllProps(items)
    ensures AllParts(items)
  {
    forall i | 0 <= i < |items| ensures PartRecord(items[i]) {
      assert PropRecord(items[i]);
    }
  }

  lemma StatusAreParts(items: seq<Item>)
    requires forall it :: it in items ==> StatusRecord(it)
    ensures AllParts(items)
  {
    forall i | 0 <= i < |items| ensures PartRecord(items[i]) {
      assert items[i] in items;
    }
  }

  /** `parse_properties(properties_list, special_data, ...)`: nothing for a
      falsy list; otherwise `main_max_level` becomes the special's level and
      each property dict gives one record (a container, a described
      property or a failure record), with nested records and warnings. */
  function Props(list: Json, special: Fields, env: Env, st: State): (r: Outcome<Parsed>)
    ensures !Truthy(list) ==> r == Ok(Parsed([], [], st))
    ensures r.Ok? ==> Keeps(st, r.value.st)
    ensures r.Ok? ==> AllProps(r.value.items)
    decreases Size(list), 1, 0
  {
    if !Truthy(list) then Ok(Parsed([], [], st))
    else
      var st1 := st.(mainMaxLevel := Some(MaxLevel(special)));
      var subset := if st.propLangSubset.Some? then st.propLangSubset.value else [];
      var xs :- Items(list);
      PropsFold(list, xs, |xs|, special, subset, env, st1)
  }

  /** Each property dict gives one record, carrying that dict's `id`, in
      list order. */
  lemma PropsIds(list: Json, special: Fields, env: Env, st: State)
    requires Truthy(list) && Props(list, special, env, st).Ok?
    ensures Items(list).Ok?
    ensures Ids(Props(list, special, env, st).value.items) == DictIds(Items(list).value, |Items(list).value|)
  {
  }

  /** The loop over the first n properties. */
  function PropsFold(list: Json, xs: seq<Json>, n: nat, special: Fields, subset: seq<string>, env: Env,
                     st: State): (r: Outcome<Parsed>)
    requires n <= |xs|
    requires forall x :: x in xs && x.JObj? ==> Size(x) < Size(list)
    ensures r.Ok? ==> Keeps(st, r.value.st)
    ensures r.Ok? ==> AllProps(r.value.items)
    ensures r.Ok? ==> Ids(r.value.items) == DictIds(xs, n)
    decreases Size(list), 0, n
  {
    if n == 0 then Ok(Parsed([], [], st))
    else
      var acc :- PropsFold(list, xs, n - 1, special, subset, env, st);
      var x := xs[n - 1];
      if !x.JObj? then Ok(acc)
      else
        var one :- PropOne(x.fields, special, subset, env, acc.st);
        SingleProp(one.items);
        AllPropsConcat(acc.items, one.items);
        IdsOfOne(one.items);
        IdsConcat(acc.items, one.items);
        Ok(Parsed(acc.items + one.items, acc.warnings + one.warnings, one.st))
  }

  /** One property dict: the container of the hero's mana-speed kind, or
      the template from an override or the matcher, or a failure record. */
  function PropOne(fs: Fields, special: Fields, subset: seq<string>, env: Env, st: State): (r: Outcome<Parsed>)
    ensures r.Ok? ==> Keeps(st, r.value.st)
    ensures r.Ok? ==> |r.value.items| == 1 && PropRecord(r.value.items[0])
    ensures r.Ok? ==> r.value.items[0].id == GetJ(fs, "id")
    ensures r.Ok? && ContainerSpeed(st, GetOr(fs, "propertyType", JStr(""))) == Ok(None) ==> LogOnly(st, r.value.st)
    ensures r.Ok? && r.value.items[0].Failed? ==>
      (r.value.items[0] == Failed(GetJ(fs, "id"), FailText(GetOr(fs, "propertyType", JStr("")), GetJ(fs, "id"))) &&
       forall w :: w in r.value.warnings ==> StartsWith(w, PropWarningPrefix))
    decreases Size(JObj(fs)), 4, 0
  {
    var id := GetJ(fs, "id");
    var ptype := GetOr(fs, "propertyType", JStr(""));
    var container :- ContainerSpeed(st, ptype);
    if container.Some? then PropContainer(fs, id, container.value, env, st)
    else
      var chosen :- LangIdFor(fs, id, subset, Some(special), PropWarningPrefix, env, st);
      if chosen.0 == "" then
        Ok(Parsed([Failed(id, FailText(ptype, id))], chosen.1, chosen.2))
      else
        var one :- PropBuilt(fs, id, chosen.0, chosen.1, ptype, special, env, chosen.2);
        Ok(one)
  }

  /** The container record: the container template's texts and the parts
      of its `specialIds`. */
  function PropContainer(fs: Fields, id: Json, speed: string, env: Env, st: State): (r: Outcome<Parsed>)
    ensures r.Ok? ==> Keeps(st, r.value.st)
    ensures r.Ok? ==> |r.value.items| == 1 && r.value.items[0].Container? && PropRecord(r.value.items[0])
    ensures r.Ok? ==> r.value.items[0].id == id && r.value.items[0].langId == ContainerLangId(speed)
    ensures r.Ok? ==> Items(GetOr(fs, "specialIds", JList([]))).Ok?
    ensures r.Ok? ==> (var ys := Items(GetOr(fs, "specialIds", JList([]))).value;
                       HeadingsIn(r.value.items[0].parts) == ExpectedHeadings(ys, |ys|, speed))
    decreases Size(JObj(fs)), 3, 1
  {
    GetPresent(fs, "specialIds");
    var cid := ContainerLangId(speed);
    var texts := Description(cid, [], env.lang);
    var ys :- Items(GetOr(fs, "specialIds", JList([])));
    var parts :- ContainerFold(fs, ys, |ys|, speed, env, st);
    Ok(Parsed([Container(id, cid, texts.en, texts.ja, parts.items)], parts.warnings, parts.st))
  }

  /** The value of a present key is smaller than the dict;
      otherwise the default is an empty list. */
  lemma GetPresent(fs: Fields, k: string)
    ensures Has(fs, k) ==> Size(GetOr(fs, k, JList([]))) < Size(JObj(fs)) && Size(GetJ(fs, k)) < Size(JObj(fs))
    ensures !Has(fs, k) ==> GetOr(fs, k, JList([])) == JList([])
  {
    if Has(fs, k) {
      GetSmaller(fs, k);
    }
  }

  /** The headings among records, in order. */
  function HeadingsIn(items: seq<Item>): (r: seq<Item>)
    ensures forall i :: 0 <= i < |r| ==> r[i].Heading?
  {
    if items == [] then []
    else (if items[0].Heading? then [items[0]] else []) + HeadingsIn(items[1..])
  }

  lemma {:induction false} HeadingsConcat(a: seq<Item>, b: seq<Item>)
    ensures HeadingsIn(a + b) == HeadingsIn(a) + HeadingsIn(b)
  {
    if a == [] {
      assert a + b == b;
    } else {
      assert (a + b)[1..] == a[1..] + b;
      HeadingsConcat(a[1..], b);
    }
  }

  predicate NoHeadings(items: seq<Item>) {
    forall i :: 0 <= i < |items| ==> !items[i].Heading?
  }

  /** A heading followed by records that are not headings. */
  lemma PartJoin(h: Item, d: seq<Item>, p: seq<Item>, s: seq<Item>)
    requires h.Heading? && AllParts(d) && AllParts(p) && AllParts(s)
    requires NoHeadings(d) && NoHeadings(p) && NoHeadings(s)
    ensures AllParts([h] + d + p + s) && NoHeadings(([h] + d + p + s)[1..])
  {
    AllPartsJoin([h], d, p, s);
    var x := [h] + d + p + s;
    assert x[1..] == d + p + s;
    forall j | 0 <= j < |d + p + s| ensures !(d + p + s)[j].Heading? {
      if j < |d| {
        assert (d + p + s)[j] == d[j];
      } else if j < |d| + |p| {
        assert (d + p + s)[j] == p[j - |d|];
      } else {
        assert (d + p + s)[j] == s[j - |d| - |p|];
      }
    }
  }

  /** Appending a part adds exactly its leading heading. */
  lemma HeadingsStep(acc: seq<Item>, part: seq<Item>)
    requires |part| > 0 && part[0].Heading? && NoHeadings(part[1..])
    ensures HeadingsIn(acc + part) == HeadingsIn(acc) + [part[0]]
  {
    HeadingsConcat(acc, part);
    HeadingsConcat([part[0]], part[1..]);
    NoHeadingsIn(part[1..]);
    assert part == [part[0]] + part[1..];
  }

  lemma {:induction false} NoHeadingsIn(items: seq<Item>)
    requires NoHeadings(items)
    ensures HeadingsIn(items) == []
  {
    if items != [] {
      assert NoHeadings(items[1..]) by {
        forall i | 0 <= i < |items[1..]| ensures !items[1..][i].Heading? {
          assert items[1..][i] == items[i + 1];
        }
      }
      NoHeadingsIn(items[1..]);
    }
  }

  /** One heading for each non-empty dict among the first n sub-specials,
      numbered by the dict's position in the list. */
  function ExpectedHeadings(ys: seq<Json>, n: nat, speed: string): seq<Item>
    requires n <= |ys|
  {
    if n == 0 then []
    else ExpectedHeadings(ys, n - 1, speed) +
         (if ys[n - 1].JObj? && ys[n - 1].fields != [] then [HeadingOf(speed, n - 1)] else [])
  }

  /** The parts of a container from its first n sub-specials; empty and
      non-dict entries are skipped but still count for the heading. */
  function ContainerFold(prop: Fields, ys: seq<Json>, n: nat, speed: string, env: Env, st: State): (r: Outcome<Parsed>)
    requires n <= |ys|
    requires forall y :: y in ys && y.JObj? ==> Size(y) < Size(JObj(prop))
    ensures r.Ok? ==> Keeps(st, r.value.st)
    ensures r.Ok? ==> AllParts(r.value.items)
    ensures r.Ok? ==> HeadingsIn(r.value.items) == ExpectedHeadings(ys, n, speed)
    decreases Size(JObj(prop)), 2, n
  {
    if n == 0 then Ok(Parsed([], [], st))
    else
      var acc :- ContainerFold(prop, ys, n - 1, speed, env, st);
      var y := ys[n - 1];
      if !y.JObj? || y.fields == [] then Ok(acc)
      else
        var part :- ContainerPart(y.fields, n - 1, speed, env, acc.st);
        AllPartsConcat(acc.items, part.items);
        HeadingsStep(acc.items, part.items);
        Ok(Parsed(acc.items + part.items, acc.warnings + part.warnings, part.st))
  }

  /** One sub-special of a container: its heading, then its direct effect,
      properties and status effects when it has them. */
  function ContainerPart(sub: Fields, i: nat, speed: string, env: Env, st: State): (r: Outcome<Parsed>)
    ensures r.Ok? ==> Keeps(st, r.value.st)
    ensures r.Ok? ==> |r.value.items| > 0 && r.value.items[0] == HeadingOf(speed, i)
    ensures r.Ok? ==> AllParts(r.value.items)
    ensures r.Ok? ==> NoHeadings(r.value.items[1..])
    ensures r.Ok? ==> PartDirect(sub, env, st).Ok? && PartProps(sub, env, st).Ok?
    ensures r.Ok? ==> SubStatus(sub, env, PartProps(sub, env, st).value.st).Ok?
    ensures r.Ok? ==>
      r.value.items == [HeadingOf(speed, i)] + PartDirect(sub, env, st).value + PartProps(sub, env, st).value.items +
                       SubStatus(sub, env, PartProps(sub, env, st).value.st).value.items
    decreases Size(JObj(sub)), 6, 0
  {
    var d :- PartDirect(sub, env, st);
    var p :- PartProps(sub, env, st);
    var s :- SubStatus(sub, env, p.st);
    PartJoin(HeadingOf(speed, i), d, p.items, s.items);
    Ok(Parsed([HeadingOf(speed, i)] + d + p.items + s.items, p.warnings + s.warnings, s.st))
  }

  /** A sub-special's direct effect, when it has one, as a part. */
  function PartDirect(sub: Fields, env: Env, st: State): (r: Outcome<seq<Item>>)
    ensures !Has(sub, "directEffect") ==> r == Ok([])
    ensures Has(sub, "directEffect") ==> r == SubDirect(sub, env, st)
    ensures r.Ok? ==> AllParts(r.value) && NoHeadings(r.value)
  {
    if Has(sub, "directEffect") then SubDirect(sub, env, st) else Ok([])
  }

  /** A sub-special's properties, when it has them, read by the property
      parser with the sub-special as the special. */
  function PartProps(sub: Fields, env: Env, st: State): (r: Outcome<Parsed>)
    ensures !Has(sub, "properties") ==> r == Ok(Parsed([], [], st))
    ensures r.Ok? ==> Keeps(st, r.value.st) && AllParts(r.value.items) && NoHeadings(r.value.items)
    decreases Size(JObj(sub)), 5, 0
  {
    GetPresent(sub, "properties");
    if Has(sub, "properties") then
      var p :- Props(GetJ(sub, "properties"), sub, env, st);
      PropsAreParts(p.items);
      assert forall j :: 0 <= j < |p.items| ==> PropRecord(p.items[j]);
      Ok(p)
    else Ok(Parsed([], [], st))
  }

  /** `parsers['status_effects'](sub_special_data, ...)` as parts; nothing
      when the sub-special has no `statusEffects`. */
  function SubStatus(sub: Fields, env: Env, st: State): (r: Outcome<Parsed>)
    ensures r.Ok? ==> Keeps(st, r.value.st) && AllParts(r.value.items) && NoHeadings(r.value.items)
    ensures !Has(sub, "statusEffects") ==> r == Ok(Parsed([], [], st))
  {
    if Has(sub, "statusEffects") then
      var s :- StatusEffects(GetJ(sub, "statusEffects"), sub, env, st, StatusPrefix);
      StatusAreParts(s.items);
      assert forall j :: 0 <= j < |s.items| ==> s.items[j] in s.items;
      Ok(s)
    else Ok(Parsed([], [], st))
  }

  /** `parsers['direct_effect'](sub_special_data, ...)` as a part. */
  function SubDirect(sub: Fields, env: Env, st: State): (r: Outcome<seq<Item>>)
    ensures r.Ok? ==> |r.value| == 1 && PartRecord(r.value[0]) && !r.value[0].Heading?
  {
    var e :- DirectEffect(sub, env, st);
    Ok([e])
  }

  /** A property with template `langId`: its parameters from the value
      resolver on the property with the special's `maxLevel`, its nested
      status effects and its tooltip when its lowered type is an extra
      description key. */
  function PropBuilt(fs: Fields, id: Json, langId: string, ws: seq<string>, ptype: Json, special: Fields,
                     env: Env, st: State): (r: Outcome<Parsed>)
    requires langId != ""
    ensures r.Ok? ==> LogOnly(st, r.value.st)
    ensures r.Ok? ==> |r.value.items| == 1 && r.value.items[0].Described? && PropRecord(r.value.items[0])
    ensures r.Ok? ==> r.value.items[0].id == id && r.value.items[0].langId == langId && ws <= r.value.warnings
    ensures r.Ok? ==> ptype.JStr?
    ensures r.Ok? ==> forall k :: Has(r.value.items[0].params, k) ==> k in Placeholders(EnText(env.lang, langId))
    ensures r.Ok? && r.value.items[0].extra.Some? ==> Lower(ptype.s) in env.extraKeys
    ensures r.Ok? ==>
      (var level := MaxLevel(special);
       var filled := FillParams(Placeholders(EnText(env.lang, langId)), [],
                                KindFinder(JObj(SearchContext(fs, level)), level, env, ptype, []), env.stats.maxAttack, Plain);
       filled.Ok? && r.value.items[0].params == filled.value)
    ensures r.Ok? ==> PropNested(fs, special, env, st).Ok?
    ensures r.Ok? ==>
      r.value.items[0].nested == Effects(PropNested(fs, special, env, st).value.items) &&
      r.value.warnings == ws + PropNested(fs, special, env, st).value.warnings
    ensures r.Ok? ==> Texts(r.value.items[0].en, r.value.items[0].ja) ==
                      Description(langId, FormatAll(r.value.items[0].params), env.lang)
  {
    var level := MaxLevel(special);
    var ctx := SearchContext(fs, level);
    var params :- FillParams(Placeholders(EnText(env.lang, langId)), [], KindFinder(JObj(ctx), level, env, ptype, []),
                             env.stats.maxAttack, Plain);
    var texts := Description(langId, FormatAll(params), env.lang);
    var nested :- PropNested(fs, special, env, st);
    var extra :- PropExtra(ptype, ctx, params, env, nested.st.extraLangIds);
    Ok(Parsed([Described(id, langId, params, texts.en, texts.ja, Effects(nested.items), extra)],
              ws + nested.warnings, nested.st))
  }

  /** The statuses a property nests under `statusEffects`, read by the
      status parser; none when the key is absent. */
  function PropNested(fs: Fields, special: Fields, env: Env, st: State): (r: Outcome<Parsed>)
    ensures r.Ok? ==> LogOnly(st, r.value.st)
    ensures r.Ok? ==> forall i :: 0 <= i < |r.value.items| ==> StatusRecord(r.value.items[i])
    ensures !Has(fs, "statusEffects") ==> r == Ok(Parsed([], [], st))
  {
    if Has(fs, "statusEffects") then
      var nested :- StatusEffects(GetJ(fs, "statusEffects"), special, env, st, StatusPrefix);
      assert forall i :: 0 <= i < |nested.items| ==> nested.items[i] in nested.items;
      Ok(nested)
    else Ok(Parsed([], [], st))
  }

  /** The extra description of a property whose lower-cased type is one of
      the configured extra keys; the type must be a string. */
  function PropExtra(ptype: Json, ctx: Fields, params: Fields, env: Env, known: seq<string>): (r: Outcome<Option<Extra>>)
    ensures r.Ok? <==> ptype.JStr? && (Lower(ptype.s) in env.extraKeys ==>
      ExtraFor(["specialproperty", "property"], Lower(ptype.s), ctx, params, env, known).Ok?)
    ensures r.Ok? && r.value.Some? ==> Lower(ptype.s) in env.extraKeys
  {
    var lowered :- LowerOf(ptype);
    if lowered in env.extraKeys then ExtraFor(["specialproperty", "property"], lowered, ctx, params, env, known)
    else Ok(None)
  }

  /** A property that is not a container and that neither an override nor
      the matcher gives a template becomes a failure record naming its
      type and id, with the matcher's warning under the parser's prefix. */
  lemma UnmatchedPropertyFails(fs: Fields, special: Fields, subset: seq<string>, env: Env, st: State)
    requires ContainerSpeed(st, GetOr(fs, "propertyType", JStr(""))) == Ok(None)
    requires LangOverride(env.rules, env.heroId, GetJ(fs, "id")) == Ok(None)
    requires FindBest(fs, subset, Some(special)).Ok? && FindBest(fs, subset, Some(special)).value.0.NoMatch?
    ensures PropOne(fs, special, subset, env, st).Ok?
    ensures PropOne(fs, special, subset, env, st).value.items ==
      [Failed(GetJ(fs, "id"), FailText(GetOr(fs, "propertyType", JStr("")), GetJ(fs, "id")))]
    ensures PropOne(fs, special, subset, env, st).value.warnings ==
      [PropWarningPrefix + FindBest(fs, subset, Some(special)).value.0.warning]
  {
  }

  /** No property of the list is the container of the hero's mana-speed
      kind. */
  predicate NoContainers(xs: seq<Json>, st: State) {
    forall i :: 0 <= i < |xs| && xs[i].JObj? ==>
      ContainerSpeed(st, GetOr(xs[i].fields, "propertyType", JStr(""))) == Ok(None)
  }

  /** `parsers["main_max_level"] = main_max_level`: after a list of
      properties none of which is a container (a container's sub-specials
      run the parser again with their own level), the parsers' dict holds
      the special's `maxLevel`. */
  lemma PropsSetsMaxLevel(list: Json, special: Fields, env: Env, st: State)
    requires Truthy(list) && Items(list).Ok? && NoContainers(Items(list).value, st)
    requires Props(list, special, env, st).Ok?
    ensures Props(list, special, env, st).value.st.mainMaxLevel == Some(MaxLevel(special))
  {
    var xs := Items(list).value;
    var subset := if st.propLangSubset.Some? then st.propLangSubset.value else [];
    PlainFold(list, xs, |xs|, special, subset, env, st.(mainMaxLevel := Some(MaxLevel(special))));
  }

  /** A loop over plain properties changes only the debug log. */
  lemma {:induction false} PlainFold(list: Json, xs: seq<Json>, n: nat, special: Fields, subset: seq<string>,
                                      env: Env, st: State)
    requires n <= |xs| && NoContainers(xs, st)
    requires forall x :: x in xs && x.JObj? ==> Size(x) < Size(list)
    requires PropsFold(list, xs, n, special, subset, env, st).Ok?
    ensures LogOnly(st, PropsFold(list, xs, n, special, subset, env, st).value.st)
  {
    if n > 0 {
      PlainFold(list, xs, n - 1, special, subset, env, st);
      var acc := PropsFold(list, xs, n - 1, special, subset, env, st).value;
      var x := xs[n - 1];
      if x.JObj? {
        assert ContainerSpeed(acc.st, GetOr(x.fields, "propertyType", JStr(""))) == Ok(None) by {
          assert acc.st.heroManaSpeedId == st.heroManaSpeedId;
        }
        LogOnlyTrans(st, acc.st, PropOne(x.fields, special, subset, env, acc.st).value.st);
      }
    }
  }

  /** Without a `prop_lang_subset` the matcher has no candidate, so a
      property that is not a container and has no override becomes the
      failure record naming its type and id. */
  lemma NoSubsetFails(fs: Fields, special: Fields, env: Env, st: State)
    requires ContainerSpeed(st, GetOr(fs, "propertyType", JStr(""))) == Ok(None)
    requires LangOverride(env.rules, env.heroId, GetJ(fs, "id")) == Ok(None)
    requires PropOne(fs, special, [], env, st).Ok?
    ensures PropOne(fs, special, [], env, st).value.items ==
      [Failed(GetJ(fs, "id"), FailText(GetOr(fs, "propertyType", JStr("")), GetJ(fs, "id")))]
  {
    var fb := FindBest(fs, [], Some(special));
    if fb.Ok? {
      assert fb.value.0.NoMatch?;
    }
  }

  /** A container property without `specialIds` has no parts. */
  lemma EmptyContainer(fs: Fields, special: Fields, subset: seq<string>, env: Env, st: State, speed: string)
    requires ContainerSpeed(st, GetOr(fs, "propertyType", JStr(""))) == Ok(Some(speed))
    requires !Has(fs, "specialIds")
    ensures PropOne(fs, special, subset, env, st) ==
      Ok(Parsed([Container(GetJ(fs, "id"), ContainerLangId(speed), Description(ContainerLangId(speed), [], env.lang).en,
                           Description(ContainerLangId(speed), [], env.lang).ja, [])], [], st))
  {
    GetPresent(fs, "specialIds");
    var ys: seq<Json> := [];
    assert Items(GetOr(fs, "specialIds", JList([]))) == Ok(ys);
    assert ContainerFold(fs, ys, 0, speed, env, st) == Ok(Parsed([], [], st));
  }
}
