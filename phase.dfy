/** The second phase of a run (`phase_two_parse_skills`): each hero's
    sections parsed in a fixed order, the parsers' warnings collected into
    a duplicate-free list and a set, and the shared `parsers` dict held in
    a `Context` object that the parsers' results are written back to. */
module Phase {
  import opened Strings
  import opened Json
  import opened Tables
  import opened Values
  import opened Records
  import opened Matcher
  import opened Status
  import opened Direct
  import opened ClearBuffs
  import opened Properties
  import opened Familiars
  import opened Passives
  import opened Chain

  /** The property type delegated to the chain-strike parser. */
  const ChainType := "DifferentExtraHitPowerChainStrike"

  // ------------------------------------------------------------ warnings

  function Elems(ws: seq<string>): set<string> {
    set w | w in ws
  }

  predicate NoDuplicates(ws: seq<string>) {
    forall i, j :: 0 <= i < j < |ws| ==> ws[i] != ws[j]
  }

  /** `warnings_list` has no duplicates and `unique_warnings_set` holds
      exactly its elements. */
  predicate WarningsValid(st: State) {
    NoDuplicates(st.warningsList) && st.uniqueWarnings == Elems(st.warningsList)
  }

  /** The warnings of `ws` that are not in `seen`, in order. */
  function Unseen(ws: seq<string>, seen: set<string>): (r: seq<string>)
    ensures forall w :: w in r <==> w in ws && w !in seen
  {
    if ws == [] then []
    else
      assert forall w :: w in ws <==> w in ws[..|ws| - 1] || w == ws[|ws| - 1];
      Unseen(ws[..|ws| - 1], seen) + (if ws[|ws| - 1] in seen then [] else [ws[|ws| - 1]])
  }

  /** `collect_warnings` after the first n new warnings: each one not yet
      in the set is added to the set and appended to the list. */
  function CollectUpTo(st: State, ws: seq<string>, n: nat): (r: State)
    requires n <= |ws|
    ensures r.(warningsList := st.warningsList, uniqueWarnings := st.uniqueWarnings) == st
    ensures r.uniqueWarnings == st.uniqueWarnings + Elems(ws[..n])
    ensures st.warningsList <= r.warningsList
  {
    if n == 0 then st
    else
      var acc := CollectUpTo(st, ws, n - 1);
      assert Elems(ws[..n]) == Elems(ws[..n - 1]) + {ws[n - 1]} by {
        assert ws[..n] == ws[..n - 1] + [ws[n - 1]];
      }
      if ws[n - 1] in acc.uniqueWarnings then acc
      else acc.(warningsList := acc.warningsList + [ws[n - 1]], uniqueWarnings := acc.uniqueWarnings + {ws[n - 1]})
  }

  function Collected(st: State, ws: seq<string>): State {
    CollectUpTo(st, ws, |ws|)
  }

  /** The list grows by the new warnings that were not seen before, each
      once, in the order they first occur. */
  lemma {:induction false} CollectAppends(st: State, ws: seq<string>, n: nat)
    requires n <= |ws|
    ensures CollectUpTo(st, ws, n).warningsList == st.warningsList + Dedup(Unseen(ws[..n], st.uniqueWarnings))
  {
    if n > 0 {
      CollectAppends(st, ws, n - 1);
      var w := ws[n - 1];
      var u := Unseen(ws[..n - 1], st.uniqueWarnings);
      var acc := CollectUpTo(st, ws, n - 1);
      UnseenSnoc(ws, n, st.uniqueWarnings);
      if w in st.uniqueWarnings {
        assert CollectUpTo(st, ws, n) == acc;
        assert Unseen(ws[..n], st.uniqueWarnings) == u;
      } else {
        DedupSnoc(u, w);
        var inFront := w in ws[..n - 1];
        assert inFront <==> w in Elems(ws[..n - 1]);
        assert inFront <==> w in Dedup(u);
        assert inFront <==> w in acc.uniqueWarnings;
        if inFront {
          assert CollectUpTo(st, ws, n) == acc;
          assert Dedup(Unseen(ws[..n], st.uniqueWarnings)) == Dedup(u);
        } else {
          assert CollectUpTo(st, ws, n).warningsList == acc.warningsList + [w];
          assert Dedup(Unseen(ws[..n], st.uniqueWarnings)) == Dedup(u) + [w];
          SnocAssoc(st.warningsList, Dedup(u), w);
        }
      }
    }
  }

  lemma SnocAssoc(a: seq<string>, b: seq<string>, w: string)
    ensures (a + b) + [w] == a + (b + [w])
  {
  }

  lemma UnseenSnoc(ws: seq<string>, n: nat, seen: set<string>)
    requires 0 < n <= |ws|
    ensures Unseen(ws[..n], seen) ==
      Unseen(ws[..n - 1], seen) + (if ws[n - 1] in seen then [] else [ws[n - 1]])
  {
    assert ws[..n][..n - 1] == ws[..n - 1];
  }

  lemma DedupSnoc(u: seq<string>, w: string)
    ensures Dedup(u + [w]) == Dedup(u) + (if w in Dedup(u) then [] else [w])
  {
    assert (u + [w])[..|u + [w]| - 1] == u;
  }

  /** `collect_warnings` keeps the list duplicate-free and the set equal
      to its elements. */
  lemma {:induction false} CollectKeepsValid(st: State, ws: seq<string>, n: nat)
    requires n <= |ws| && WarningsValid(st)
    ensures WarningsValid(CollectUpTo(st, ws, n))
  {
    if n > 0 {
      CollectKeepsValid(st, ws, n - 1);
      var acc := CollectUpTo(st, ws, n - 1);
      if ws[n - 1] !in acc.uniqueWarnings {
        AppendFresh(acc.warningsList, ws[n - 1]);
      }
    }
  }

  /** Appending a warning not yet listed keeps the list duplicate-free and
      adds it to the elements. */
  lemma AppendFresh(l: seq<string>, w: string)
    requires NoDuplicates(l) && w !in Elems(l)
    ensures NoDuplicates(l + [w]) && Elems(l + [w]) == Elems(l) + {w}
  {
    assert forall i :: 0 <= i < |l| ==> (l + [w])[i] == l[i] && l[i] in Elems(l);
  }

  lemma CollectedValid(st: State, ws: seq<string>)
    ensures WarningsValid(st) ==> WarningsValid(Collected(st, ws))
  {
    if WarningsValid(st) {
      CollectKeepsValid(st, ws, |ws|);
    }
  }

  /** After collecting, every new warning is in the list. */
  lemma CollectRecords(st: State, ws: seq<string>)
    requires WarningsValid(st)
    ensures forall w :: w in ws ==> w in Collected(st, ws).warningsList
  {
    CollectKeepsValid(st, ws, |ws|);
    assert ws[..|ws|] == ws;
    forall w | w in ws ensures w in Collected(st, ws).warningsList {
      assert w in Elems(ws);
    }
  }

  /** The reset at the start of the phase: empty warning list and set,
      empty familiar log. */
  function ResetLogs(st: State): (r: State)
    ensures WarningsValid(r) && r.warningsList == [] && r.debugLog == []
  {
    st.(warningsList := [], uniqueWarnings := {}, debugLog := [])
  }

  // ------------------------------------------------------------ sections

  /** A value of `skillDescriptions`: a list of records, one record (the
      direct effect), or a record or None (clear buffs). */
  datatype Section = ItemList(items: seq<Item>) | ItemDict(item: Item) | ItemOrNone(found: Option<Item>)

  /** `if v`: a list is kept when it is not empty, a record always (every
      record is a non-empty dict), the clear-buffs result when it is not
      None. */
  predicate Kept(s: Section) {
    match s
    case ItemList(items) => items != []
    case ItemDict(_) => true
    case ItemOrNone(found) => found.Some?
  }

  /** `{k: v for k, v in skill_descriptions.items() if v}` */
  function KeepTruthy(ss: seq<(string, Section)>): (r: seq<(string, Section)>)
    ensures forall e :: e in r <==> e in ss && Kept(e.1)
  {
    if ss == [] then []
    else (if Kept(ss[0].1) then [ss[0]] else []) + KeepTruthy(ss[1..])
  }

  function Names(ss: seq<(string, Section)>): (r: seq<string>)
    ensures |r| == |ss| && forall i :: 0 <= i < |ss| ==> r[i] == ss[i].0
  {
    if ss == [] then [] else [ss[0].0] + Names(ss[1..])
  }

  /** Dropping the falsy sections keeps the order of the others. */
  lemma {:induction false} KeepTruthyInOrder(ss: seq<(string, Section)>)
    ensures SubSeq(Names(KeepTruthy(ss)), Names(ss))
  {
    if ss != [] {
      KeepTruthyInOrder(ss[1..]);
      var a := Names(KeepTruthy(ss));
      var b := Names(ss);
      assert b[1..] == Names(ss[1..]);
      if Kept(ss[0].1) {
        assert KeepTruthy(ss) == [ss[0]] + KeepTruthy(ss[1..]);
        assert a[1..] == Names(KeepTruthy(ss[1..]));
        assert a[0] == b[0];
      } else {
        assert KeepTruthy(ss) == KeepTruthy(ss[1..]);
      }
    }
  }

  /** The section names in the order a hero's sections are parsed, when a
      chain strike was among its properties (`setdefault` puts
      `properties` first) and when none was. */
  const WithChain := ["properties", "directEffect", "clear_buffs", "statusEffects", "familiars"]
  const WithoutChain := ["directEffect", "clear_buffs", "properties", "statusEffects", "familiars"]

  /** One output record: a copy of the hero's fields, to which `name`,
      `_special_data_context` and `skillDescriptions` are assigned. */
  datatype Hero = Hero(data: Fields, name: Cell, specialContext: Json, skillDescriptions: seq<(string, Section)>)

  /** What the phase reads besides the heroes: the language table, the
      extra-description keys of the game data, the rule tables and the hero
      stats table. */
  datatype Inputs = Inputs(lang: LangDb, extraKeys: set<string>, rules: Rules, statsDb: map<string, StatsRow>)

  // ---------------------------------------------------------- delegation

  predicate IsChain(p: Fields) {
    GetJ(p, "propertyType") == JStr(ChainType)
  }

  /** The standard properties: the dicts that are not chain strikes, in
      order. */
  function Standard(ps: seq<Json>): (r: seq<Json>)
    ensures forall p :: p in r <==> p in ps && p.JObj? && !IsChain(p.fields)
  {
    if ps == [] then []
    else
      assert forall p :: p in ps <==> p == ps[0] || p in ps[1..];
      (if ps[0].JObj? && !IsChain(ps[0].fields) then [ps[0]] else []) + Standard(ps[1..])
  }

  /** The standard properties from the i-th on: the i-th when it is one,
      then those after it. */
  lemma StandardFrom(xs: seq<Json>, i: nat)
    requires i < |xs|
    ensures Standard(xs[i..]) ==
      (if xs[i].JObj? && !IsChain(xs[i].fields) then [xs[i]] else []) + Standard(xs[i + 1..])
  {
    assert xs[i..][1..] == xs[i + 1..];
  }

  /** Only the warning fields and the familiar log change. */
  predicate WarnsAndLogs(st: State, st': State) {
    st'.(warningsList := st.warningsList, uniqueWarnings := st.uniqueWarnings, debugLog := st.debugLog) == st
  }

  /** The delegation loop from the i-th property on: a chain strike is
      parsed at once and its warnings collected, the others are kept for
      the property parser. A property that is not a dict raises at
      `.get`. */
  function Delegate(xs: seq<Json>, i: nat, special: Fields, env: Env, st: State): (r: Outcome<(seq<Item>, seq<Json>, State)>)
    requires i <= |xs|
    ensures r.Ok? ==> forall j :: i <= j < |xs| ==> xs[j].JObj?
    ensures r.Ok? ==> r.value.1 == Standard(xs[i..])
    ensures r.Ok? ==> (r.value.0 == [] <==> forall j :: i <= j < |xs| ==> !IsChain(xs[j].fields))
    ensures r.Ok? ==> WarnsAndLogs(st, r.value.2)
    ensures r.Ok? && WarningsValid(st) ==> WarningsValid(r.value.2)
    decreases |xs| - i
  {
    if i == |xs| then Ok(([], [], st))
    else
      var x := xs[i];
      StandardFrom(xs, i);
      if !x.JObj? then Crash(NoAttribute(x, "get"))
      else if IsChain(x.fields) then
        var c :- ChainStrike(x.fields, special, env, st);
        CollectedValid(c.st, c.warnings);
        var rest :- Delegate(xs, i + 1, special, env, Collected(c.st, c.warnings));
        Ok((c.items + rest.0, rest.1, rest.2))
      else
        var rest :- Delegate(xs, i + 1, special, env, st);
        Ok((rest.0, [x] + rest.1, rest.2))
  }

  /** A chain strike's records come before those of the rest of the loop. */
  lemma DelegateChain(xs: seq<Json>, i: nat, special: Fields, env: Env, st: State, c: Parsed)
    requires i < |xs| && xs[i].JObj? && IsChain(xs[i].fields)
    requires ChainStrike(xs[i].fields, special, env, st) == Ok(c)
    ensures Delegate(xs, i, special, env, st) == Before(c.items, [], Delegate(xs, i + 1, special, env, Collected(c.st, c.warnings)))
  {
    var rest := Delegate(xs, i + 1, special, env, Collected(c.st, c.warnings));
    if rest.Ok? {
      DelegateChainOk(xs, i, special, env, st, c, rest.value);
      NilJson(rest.value.1);
    } else {
      DelegateChainThenCrash(xs, i, special, env, st, c, rest.reason);
    }
  }

  lemma DelegateChainOk(xs: seq<Json>, i: nat, special: Fields, env: Env, st: State, c: Parsed,
                        v: (seq<Item>, seq<Json>, State))
    requires i < |xs| && xs[i].JObj? && IsChain(xs[i].fields)
    requires ChainStrike(xs[i].fields, special, env, st) == Ok(c)
    requires Delegate(xs, i + 1, special, env, Collected(c.st, c.warnings)) == Ok(v)
    ensures Delegate(xs, i, special, env, st) == Ok((c.items + v.0, v.1, v.2))
  {
  }

  lemma NilJson(s: seq<Json>)
    ensures [] + s == s && s + [] == s
  {
  }

  lemma NilItems(s: seq<Item>)
    ensures [] + s == s && s + [] == s
  {
  }

  lemma DelegateChainThenCrash(xs: seq<Json>, i: nat, special: Fields, env: Env, st: State, c: Parsed, m: string)
    requires i < |xs| && xs[i].JObj? && IsChain(xs[i].fields)
    requires ChainStrike(xs[i].fields, special, env, st) == Ok(c)
    requires Delegate(xs, i + 1, special, env, Collected(c.st, c.warnings)) == Crash(m)
    ensures Delegate(xs, i, special, env, st) == Before(c.items, [], Crash(m))
  {
  }

  /** And a crash in the chain-strike parser ends the loop. */
  lemma DelegateChainCrash(xs: seq<Json>, i: nat, special: Fields, env: Env, st: State, m: string)
    requires i < |xs| && xs[i].JObj? && IsChain(xs[i].fields)
    requires ChainStrike(xs[i].fields, special, env, st) == Crash(m)
    ensures Delegate(xs, i, special, env, st) == Crash(m)
  {
  }

  /** A standard property is kept before those of the rest of the loop. */
  lemma DelegatePlain(xs: seq<Json>, i: nat, special: Fields, env: Env, st: State)
    requires i < |xs| && xs[i].JObj? && !IsChain(xs[i].fields)
    ensures Delegate(xs, i, special, env, st) == Before([], [xs[i]], Delegate(xs, i + 1, special, env, st))
  {
    var rest := Delegate(xs, i + 1, special, env, st);
    if rest.Ok? {
      assert [] + rest.value.0 == rest.value.0;
    }
  }

  /** The records and properties gathered so far, put before those of the
      rest of the loop. */
  function Before(items: seq<Item>, props: seq<Json>, r: Outcome<(seq<Item>, seq<Json>, State)>): Outcome<(seq<Item>, seq<Json>, State)> {
    match r
    case Ok(v) => Ok((items + v.0, props + v.1, v.2))
    case Crash(m) => Crash(m)
  }

  lemma BeforeNil(r: Outcome<(seq<Item>, seq<Json>, State)>)
    ensures Before([], [], r) == r
  {
    if r.Ok? {
      assert [] + r.value.0 == r.value.0 && [] + r.value.1 == r.value.1;
    }
  }

  lemma BeforeBefore(a: seq<Item>, b: seq<Json>, c: seq<Item>, d: seq<Json>, r: Outcome<(seq<Item>, seq<Json>, State)>)
    ensures Before(a, b, Before(c, d, r)) == Before(a + c, b + d, r)
  {
    if r.Ok? {
      assert a + (c + r.value.0) == (a + c) + r.value.0;
      assert b + (d + r.value.1) == (b + d) + r.value.1;
    }
  }

  /** The sections of a hero whose `specialId_details` is the dict
      `special`, in the order they are parsed (chain strikes, direct
      effect, clear buffs, the other properties, status effects,
      familiars), after `hero_mana_speed_id` is set to the hero's
      `manaSpeedId`. Each parser's warnings are collected as soon as it
      returns. */
  function SpecialSections(full: Fields, special: Fields, env: Env, st: State): (r: Outcome<(seq<(string, Section)>, State)>)
    ensures r.Ok? ==> Names(r.value.0) == WithChain || Names(r.value.0) == WithoutChain
    ensures r.Ok? ==> var all := Items(GetOr(special, "properties", JList([])));
      all.Ok? && (Names(r.value.0) == WithChain <==>
        exists j :: 0 <= j < |all.value| && all.value[j].JObj? && IsChain(all.value[j].fields))
    ensures r.Ok? ==> r.value.1.heroManaSpeedId == Some(GetJ(full, "manaSpeedId"))
    ensures r.Ok? && WarningsValid(st) ==> WarningsValid(r.value.1)
  {
    var st0 := st.(heroManaSpeedId := Some(GetJ(full, "manaSpeedId")));
    var all :- Items(GetOr(special, "properties", JList([])));
    var d :- Delegate(all, 0, special, env, st0);
    SpecialParsers(special, env, d.0, d.1, d.2)
  }

  /** The sections are those `SpecialParsers` builds from the chain-strike
      records, the standard properties and the context the delegation loop
      returns, after `hero_mana_speed_id` is set. */
  lemma SectionsFromDelegate(full: Fields, special: Fields, env: Env, st: State)
    requires SpecialSections(full, special, env, st).Ok?
    ensures Items(GetOr(special, "properties", JList([]))).Ok?
    ensures var d := Delegate(Items(GetOr(special, "properties", JList([]))).value, 0, special, env,
                              st.(heroManaSpeedId := Some(GetJ(full, "manaSpeedId"))));
      d.Ok? && SpecialSections(full, special, env, st) == SpecialParsers(special, env, d.value.0, d.value.1, d.value.2)
  {
  }

  /** The parsers that follow the delegation loop, given the chain-strike
      records and the standard properties it left. */
  function SpecialParsers(special: Fields, env: Env, chain: seq<Item>, standard: seq<Json>, st: State)
    : (r: Outcome<(seq<(string, Section)>, State)>)
    ensures r.Ok? ==> Names(r.value.0) == if chain != [] then WithChain else WithoutChain
    ensures r.Ok? ==> r.value.1.heroManaSpeedId == st.heroManaSpeedId
    ensures r.Ok? && WarningsValid(st) ==> WarningsValid(r.value.1)
  {
    var direct :- DirectEffect(special, env, st);
    var clear := ClearBuffsOf(special, env.lang);
    var st1 := Collected(st, clear.1);
    var props :- Props(JList(standard), special, env, st1);
    var st2 := Collected(props.st, props.warnings);
    var status :- StatusEffects(GetOr(special, "statusEffects", JList([])), special, env, st2, StatusPrefix);
    var st3 := Collected(status.st, status.warnings);
    var fams :- FamiliarsOf(GetOr(special, "summonedFamiliars", JList([])), special, env, st3);
    var st4 := Collected(fams.st, fams.warnings);
    CollectedValid(st, clear.1);
    CollectedValid(props.st, props.warnings);
    CollectedValid(status.st, status.warnings);
    CollectedValid(fams.st, fams.warnings);
    Ok((Arrange(chain, direct, clear.0, props.items, status.items, fams.items), st4))
  }

  /** Each section is its parser's result, the parsers run in order on the
      context each one leaves with its warnings collected: the direct
      effect, clear buffs, `Props` of the standard properties, the status
      effects and the familiars, placed by `Arrange`. */
  lemma ParsedSections(special: Fields, env: Env, chain: seq<Item>, standard: seq<Json>, st: State)
    requires SpecialParsers(special, env, chain, standard, st).Ok?
    ensures var r := SpecialParsers(special, env, chain, standard, st);
      DirectEffect(special, env, st).Ok? &&
      (var clear := ClearBuffsOf(special, env.lang);
       var props := Props(JList(standard), special, env, Collected(st, clear.1));
       props.Ok? &&
       (var status := StatusEffects(GetOr(special, "statusEffects", JList([])), special, env,
                                    Collected(props.value.st, props.value.warnings), StatusPrefix);
        status.Ok? &&
        (var fams := FamiliarsOf(GetOr(special, "summonedFamiliars", JList([])), special, env,
                                 Collected(status.value.st, status.value.warnings));
         fams.Ok? &&
         r.value == (Arrange(chain, DirectEffect(special, env, st).value, clear.0, props.value.items,
                             status.value.items, fams.value.items),
                     Collected(fams.value.st, fams.value.warnings)))))
  {
  }

  /** The sections in dict order: `properties` comes first when a chain
      strike put it there with `setdefault`, and holds the chain-strike
      records before the other properties' records. */
  function Arrange(chain: seq<Item>, direct: Item, clear: Option<Item>, props: seq<Item>, status: seq<Item>,
                   familiars: seq<Item>): (r: seq<(string, Section)>)
    ensures chain != [] ==> Names(r) == WithChain && r[0] == ("properties", ItemList(chain + props))
    ensures chain == [] ==> Names(r) == WithoutChain && r[2] == ("properties", ItemList(props))
    ensures chain != [] ==> r[1] == ("directEffect", ItemDict(direct)) && r[2] == ("clear_buffs", ItemOrNone(clear))
    ensures chain == [] ==> r[0] == ("directEffect", ItemDict(direct)) && r[1] == ("clear_buffs", ItemOrNone(clear))
    ensures r[|r| - 2] == ("statusEffects", ItemList(status)) && r[|r| - 1] == ("familiars", ItemList(familiars))
  {
    var tail := [("statusEffects", ItemList(status)), ("familiars", ItemList(familiars))];
    if chain != [] then
      [("properties", ItemList(chain + props)), ("directEffect", ItemDict(direct)), ("clear_buffs", ItemOrNone(clear))] + tail
    else
      [("directEffect", ItemDict(direct)), ("clear_buffs", ItemOrNone(clear)), ("properties", ItemList(props))] + tail
  }

  /** `passive_list + costume_passive_list`: the hero's `passiveSkills`
      (default []) and, when `costumeBonusesId_details` is a non-empty dict,
      its `passiveSkills` (default []). Python's `+` joins two lists or two
      strings, adds two numbers and raises TypeError otherwise. */
  function AllPassives(full: Fields): (r: Outcome<Json>)
    ensures GetOr(full, "passiveSkills", JList([])).JList? && !GetJ(full, "costumeBonusesId_details").JObj? ==>
      r == Ok(GetOr(full, "passiveSkills", JList([])))
    ensures r.Ok? && r.value.JList? ==>
      GetOr(full, "passiveSkills", JList([])).JList? && GetOr(full, "passiveSkills", JList([])).items <= r.value.items
    ensures var costume := GetJ(full, "costumeBonusesId_details");
      var extra := if Truthy(costume) && costume.JObj? then GetOr(costume.fields, "passiveSkills", JList([])) else JList([]);
      var own := GetOr(full, "passiveSkills", JList([]));
      (own.JList? && extra.JList? ==> r == Ok(JList(own.items + extra.items))) &&
      (r.Crash? <==> !((own.JList? && extra.JList?) || (own.JStr? && extra.JStr?) || (IsNumeric(own) && IsNumeric(extra))))
  {
    var costume := GetJ(full, "costumeBonusesId_details");
    var extra := if Truthy(costume) && costume.JObj? then GetOr(costume.fields, "passiveSkills", JList([])) else JList([]);
    var own := GetOr(full, "passiveSkills", JList([]));
    if own.JList? && extra.JList? then
      assert own.items + [] == own.items;
      Ok(JList(own.items + extra.items))
    else if own.JStr? && extra.JStr? then Ok(JStr(own.s + extra.s))
    else if IsNumeric(own) && IsNumeric(extra) then Ok(ToJson(Add(NumOf(own).value, NumOf(extra).value)))
    else Crash(ConcatError(own, extra))
  }

  function ConcatError(a: Json, b: Json): string {
    if a.JList? || a.JStr? then
      "TypeError: can only concatenate " + TypeName(a) + " (not \"" + TypeName(b) + "\") to " + TypeName(a)
    else "TypeError: unsupported operand type(s) for +: '" + TypeName(a) + "' and '" + TypeName(b) + "'"
  }

  /** The passive-skill section when the hero has passives. */
  function PassiveSection(all: Json, env: Env, st: State): (r: Outcome<(seq<(string, Section)>, State)>)
    ensures r.Ok? ==> Names(r.value.0) == ["passiveSkills"]
    ensures r.Ok? ==> r.value.1.(warningsList := st.warningsList, uniqueWarnings := st.uniqueWarnings) == st
    ensures r.Ok? && WarningsValid(st) ==> WarningsValid(r.value.1)
  {
    var p :- PassivesOf(all, env, st);
    CollectedValid(p.st, p.warnings);
    Ok(([("passiveSkills", ItemList(p.items))], Collected(p.st, p.warnings)))
  }

  /** What the loop body does with `name`: the copy of a list takes no
      string index, and other values have no `copy`. */
  function CopyError(full: Json): string {
    if full.JList? then "TypeError: list indices must be integers or slices, not str"
    else "AttributeError: " + NoAttribute(full, "copy")
  }

  /** One hero of the loop: its final stats, the copy of its record, the
      special's sections when `specialId_details` is truthy (a value that
      is not a dict raises at `.get`), then the passives when there are
      any; the sections kept are the truthy ones. */
  function HeroStep(heroId: string, full: Json, inp: Inputs, st: State): (r: Outcome<(Hero, State)>)
    ensures r.Ok? ==> full == JObj(r.value.0.data)
    ensures r.Ok? ==> forall e :: e in r.value.0.skillDescriptions ==> Kept(e.1)
    ensures r.Ok? ==> InOrder(Names(r.value.0.skillDescriptions))
    ensures r.Ok? && WarningsValid(st) ==> WarningsValid(r.value.1)
    ensures r.Ok? && !Truthy(GetJ(full.fields, "specialId_details")) ==>
      r.value.1.heroManaSpeedId == st.heroManaSpeedId && r.value.0.specialContext == JNull
    ensures r.Ok? && Truthy(GetJ(full.fields, "specialId_details")) ==>
      r.value.1.heroManaSpeedId == Some(GetJ(full.fields, "manaSpeedId")) &&
      r.value.0.specialContext == GetJ(full.fields, "specialId_details")
  {
    var stats :- HeroFinalStats(heroId, inp.statsDb);
    HeroBuilt(heroId, full, inp, stats, st)
  }

  /** One hero after its stats: the shallow `copy()` (which needs a dict), then
      its sections with the untruthy ones dropped. */
  function HeroBuilt(heroId: string, full: Json, inp: Inputs, stats: Stats, st: State): (r: Outcome<(Hero, State)>)
    ensures r.Ok? ==> full == JObj(r.value.0.data)
    ensures r.Ok? ==> forall e :: e in r.value.0.skillDescriptions ==> Kept(e.1)
    ensures r.Ok? ==> InOrder(Names(r.value.0.skillDescriptions))
    ensures r.Ok? && WarningsValid(st) ==> WarningsValid(r.value.1)
    ensures r.Ok? && !Truthy(GetJ(full.fields, "specialId_details")) ==>
      r.value.1.heroManaSpeedId == st.heroManaSpeedId && r.value.0.specialContext == JNull
    ensures r.Ok? && Truthy(GetJ(full.fields, "specialId_details")) ==>
      r.value.1.heroManaSpeedId == Some(GetJ(full.fields, "manaSpeedId")) &&
      r.value.0.specialContext == GetJ(full.fields, "specialId_details")
  {
    if !full.JObj? then Crash(CopyError(full))
    else
      var env := Env(inp.lang, inp.extraKeys, heroId, inp.rules, stats);
      var special := GetJ(full.fields, "specialId_details");
      var secs :- HeroSections(full.fields, env, st);
      Ok((Hero(full.fields, stats.name, if Truthy(special) then special else JNull, KeepTruthy(secs.0)), secs.1))
  }

  /** The sections of one hero before the untruthy ones are dropped: the
      special's (a `specialId_details` that is truthy but not a dict raises
      at `.get`), then the passives when there are any. */
  function HeroSections(full: Fields, env: Env, st: State): (r: Outcome<(seq<(string, Section)>, State)>)
    ensures r.Ok? ==> InOrder(Names(KeepTruthy(r.value.0)))
    ensures r.Ok? && WarningsValid(st) ==> WarningsValid(r.value.1)
    ensures r.Ok? && !Truthy(GetJ(full, "specialId_details")) ==> r.value.1.heroManaSpeedId == st.heroManaSpeedId
    ensures r.Ok? && Truthy(GetJ(full, "specialId_details")) ==>
      r.value.1.heroManaSpeedId == Some(GetJ(full, "manaSpeedId"))
  {
    var s :- SpecialPart(full, env, st);
    var all :- AllPassives(full);
    var p :- PassivePart(all, env, s.1);
    SectionsInOrder(s.0, p.0);
    Ok((s.0 + p.0, p.1))
  }

  /** `if special_data := ...`: no sections for an untruthy
      `specialId_details`, and `.get` raises on one that is not a dict. */
  function SpecialPart(full: Fields, env: Env, st: State): (r: Outcome<(seq<(string, Section)>, State)>)
    ensures r.Ok? ==> Names(r.value.0) == [] || Names(r.value.0) == WithChain || Names(r.value.0) == WithoutChain
    ensures r.Ok? && WarningsValid(st) ==> WarningsValid(r.value.1)
    ensures !Truthy(GetJ(full, "specialId_details")) ==> r == Ok(([], st))
    ensures r.Ok? && Truthy(GetJ(full, "specialId_details")) ==>
      r.value.1.heroManaSpeedId == Some(GetJ(full, "manaSpeedId"))
  {
    var special := GetJ(full, "specialId_details");
    if !Truthy(special) then Ok(([], st))
    else if special.JObj? then SpecialSections(full, special.fields, env, st)
    else Crash(NoAttribute(special, "get"))
  }

  /** `if passive_list:`: the passive section only when there are passives. */
  function PassivePart(all: Json, env: Env, st: State): (r: Outcome<(seq<(string, Section)>, State)>)
    ensures r.Ok? ==> Names(r.value.0) == [] || Names(r.value.0) == ["passiveSkills"]
    ensures r.Ok? ==> r.value.1.heroManaSpeedId == st.heroManaSpeedId
    ensures r.Ok? && WarningsValid(st) ==> WarningsValid(r.value.1)
    ensures !Truthy(all) ==> r == Ok(([], st))
  {
    if Truthy(all) then PassiveSection(all, env, st) else Ok(([], st))
  }

  /** The hero loop from the i-th hero on. */
  function HeroesFrom(heroes: Fields, i: nat, inp: Inputs, st: State): (r: Outcome<(seq<Hero>, State)>)
    requires i <= |heroes|
    ensures r.Ok? ==> |r.value.0| == |heroes| - i
    ensures r.Ok? ==> forall j :: i <= j < |heroes| ==> heroes[j].1 == JObj(r.value.0[j - i].data)
    ensures r.Ok? && WarningsValid(st) ==> WarningsValid(r.value.1)
    decreases |heroes| - i
  {
    if i == |heroes| then Ok(([], st))
    else
      var h :- HeroStep(heroes[i].0, heroes[i].1, inp, st);
      var rest :- HeroesFrom(heroes, i + 1, inp, h.1);
      ConsData(heroes, i, h.0, rest.0);
      Ok((Cons(h.0, rest.0), rest.1))
  }

  /** Each hero's record is the copy of its input, after one more hero. */
  lemma ConsData(heroes: Fields, i: nat, h: Hero, rest: seq<Hero>)
    requires i < |heroes| && heroes[i].1 == JObj(h.data) && |rest| == |heroes| - (i + 1)
    requires forall j :: i + 1 <= j < |heroes| ==> heroes[j].1 == JObj(rest[j - (i + 1)].data)
    ensures forall j :: i <= j < |heroes| ==> heroes[j].1 == JObj(Cons(h, rest)[j - i].data)
  {
    forall j | i < j < |heroes| ensures heroes[j].1 == JObj(Cons(h, rest)[j - i].data) {
      assert Cons(h, rest)[(j - (i + 1)) + 1] == rest[j - (i + 1)];
    }
  }

  /** A hero that goes through leaves the rest of the loop to the next one. */
  lemma HeroesFromStep(heroes: Fields, i: nat, inp: Inputs, st: State, h: Hero, st': State)
    requires i < |heroes|
    requires HeroStep(heroes[i].0, heroes[i].1, inp, st) == Ok((h, st'))
    ensures HeroesFrom(heroes, i, inp, st) == After([h], HeroesFrom(heroes, i + 1, inp, st'))
  {
  }

  /** A hero that raises ends the loop with its error. */
  lemma HeroesFromCrash(heroes: Fields, i: nat, inp: Inputs, st: State, reason: string)
    requires i < |heroes|
    requires HeroStep(heroes[i].0, heroes[i].1, inp, st) == Crash(reason)
    ensures HeroesFrom(heroes, i, inp, st) == Crash(reason)
  {
  }

  /** One hero record before the others. */
  function Cons(h: Hero, hs: seq<Hero>): (r: seq<Hero>)
    ensures |r| == |hs| + 1 && r[0] == h
    ensures forall j :: 0 <= j < |hs| ==> r[j + 1] == hs[j]
  {
    [h] + hs
  }

  /** The heroes processed so far, put before those of the rest of the
      loop. */
  function After(done: seq<Hero>, r: Outcome<(seq<Hero>, State)>): Outcome<(seq<Hero>, State)> {
    match r
    case Ok(v) => Ok((done + v.0, v.1))
    case Crash(m) => Crash(m)
  }

  lemma AfterNil(r: Outcome<(seq<Hero>, State)>)
    ensures After([], r) == r
  {
    if r.Ok? {
      assert [] + r.value.0 == r.value.0;
    }
  }

  lemma AfterAfter(a: seq<Hero>, b: seq<Hero>, r: Outcome<(seq<Hero>, State)>)
    ensures After(a, After(b, r)) == After(a + b, r)
  {
    if r.Ok? {
      assert a + (b + r.value.0) == (a + b) + r.value.0;
    }
  }

  /** `phase_two_parse_skills(debug_data, ...)`: the logs are reset, then
      each hero of the unified data gives one output record, in order; the
      warning list ends duplicate-free with the set holding exactly its
      elements. */
  function PhaseTwo(heroes: Fields, inp: Inputs, st: State): (r: Outcome<(seq<Hero>, State)>)
    ensures r.Ok? ==> |r.value.0| == |heroes|
    ensures r.Ok? ==> forall i :: 0 <= i < |heroes| ==> heroes[i].1 == JObj(r.value.0[i].data)
    ensures r.Ok? ==> WarningsValid(r.value.1)
  {
    HeroesFrom(heroes, 0, inp, ResetLogs(st))
  }

  // ------------------------------------------------------------- ordering

  lemma NamesConcat(a: seq<(string, Section)>, b: seq<(string, Section)>)
    ensures Names(a + b) == Names(a) + Names(b)
  {
  }

  /** The section names of a hero's record, passives last, follow one of
      the two parse orders. */
  predicate InOrder(names: seq<string>) {
    SubSeq(names, WithChain + ["passiveSkills"]) || SubSeq(names, WithoutChain + ["passiveSkills"])
  }

  /** Dropping the falsy sections of two groups, each empty or named
      `front` and `back`, keeps the order `front + back`. */
  lemma KeptInOrder(s: seq<(string, Section)>, p: seq<(string, Section)>, front: seq<string>, back: seq<string>)
    requires Names(s) == [] || Names(s) == front
    requires Names(p) == [] || Names(p) == back
    ensures SubSeq(Names(KeepTruthy(s + p)), front + back)
  {
    KeepTruthyInOrder(s + p);
    NamesConcat(s, p);
    var mid := Names(s + p);
    if Names(s) == [] && Names(p) == [] {
      assert mid == [];
    } else if Names(s) == [] {
      assert mid == back;
      SubSeqSuffix(front, back);
    } else if Names(p) == [] {
      assert mid == front;
      SubSeqPrefix(front, back);
    } else {
      assert mid == front + back;
      SubSeqRefl(front + back);
    }
    SubSeqTrans(Names(KeepTruthy(s + p)), mid, front + back);
  }

  /** Dropping the falsy sections from the special's sections followed by
      the passive section keeps them in one of the parse orders. */
  lemma SectionsInOrder(s: seq<(string, Section)>, p: seq<(string, Section)>)
    requires Names(s) == [] || Names(s) == WithChain || Names(s) == WithoutChain
    requires Names(p) == [] || Names(p) == ["passiveSkills"]
    ensures InOrder(Names(KeepTruthy(s + p)))
  {
    if Names(s) == WithChain {
      KeptInOrder(s, p, WithChain, ["passiveSkills"]);
    } else {
      KeptInOrder(s, p, WithoutChain, ["passiveSkills"]);
    }
  }

  // ------------------------------------------------------------- context

  /** `[key for key in language_db if '.extra' in key]` */
  function ExtraLangIds(keys: seq<string>): (r: seq<string>)
    ensures forall k :: k in r <==> k in keys && Contains(k, ".extra")
  {
    if keys == [] then []
    else (if Contains(keys[0], ".extra") then [keys[0]] else []) + ExtraLangIds(keys[1..])
  }

  /** The shared `parsers` dict. The parsers are modelled as functions of
      its contents (`Dict()`), and what they leave is written back. */
  class Context {
    var mainMaxLevel: Option<Json>
    var heroManaSpeedId: Option<Json>
    var propLangSubset: Option<seq<string>>
    var extraLangIds: seq<string>
    var warningsList: seq<string>
    var uniqueWarnings: set<string>
    var debugLog: seq<LogEntry>

    function Dict(): State
      reads this
    {
      State(mainMaxLevel, heroManaSpeedId, propLangSubset, extraLangIds, warningsList, uniqueWarnings, debugLog)
    }

    /** The dict `main` builds: the parser table, which is not modelled,
        and `extra_lang_ids`; no other key is set. */
    constructor (lang: LangDb)
      ensures Dict() == State(None, None, None, ExtraLangIds(LangKeys(lang)), [], {}, [])
    {
      mainMaxLevel := None;
      heroManaSpeedId := None;
      propLangSubset := None;
      extraLangIds := ExtraLangIds(LangKeys(lang));
      warningsList := [];
      uniqueWarnings := {};
      debugLog := [];
    }

    /** A parser leaves the dict holding `st`. */
    method Store(st: State)
      modifies this
      ensures Dict() == st
    {
      mainMaxLevel := st.mainMaxLevel;
      heroManaSpeedId := st.heroManaSpeedId;
      propLangSubset := st.propLangSubset;
      extraLangIds := st.extraLangIds;
      warningsList := st.warningsList;
      uniqueWarnings := st.uniqueWarnings;
      debugLog := st.debugLog;
    }

    /** The reset at the start of the phase. */
    method Reset()
      modifies this
      ensures Dict() == ResetLogs(old(Dict()))
    {
      warningsList := [];
      uniqueWarnings := {};
      debugLog := [];
    }

    /** `collect_warnings(new_warnings)` */
    method CollectWarnings(ws: seq<string>)
      modifies this
      ensures Dict() == Collected(old(Dict()), ws)
    {
      for i := 0 to |ws|
        invariant Dict() == CollectUpTo(old(Dict()), ws, i)
      {
        if ws[i] !in uniqueWarnings {
          uniqueWarnings := uniqueWarnings + {ws[i]};
          warningsList := warningsList + [ws[i]];
        }
      }
    }
  }

  // ------------------------------------------------------------- methods

  /** A method's outcome paired with the dict it leaves: the shape of the
      specification functions' results. A crash carries no dict. */
  function WithState<T>(r: Outcome<T>, st: State): Outcome<(T, State)> {
    if r.Crash? then Crash(r.reason) else Ok((r.value, st))
  }

  /** The delegation loop of the source. */
  method DelegateProperties(all: seq<Json>, special: Fields, env: Env, ctx: Context)
    returns (r: Outcome<(seq<Item>, seq<Json>)>)
    modifies ctx
    ensures r.Crash? ==> Delegate(all, 0, special, env, old(ctx.Dict())) == Crash(r.reason)
    ensures r.Ok? ==> Delegate(all, 0, special, env, old(ctx.Dict())) == Ok((r.value.0, r.value.1, ctx.Dict()))
  {
    ghost var st0 := ctx.Dict();
    var chainItems: seq<Item> := [];
    var standard: seq<Json> := [];
    BeforeNil(Delegate(all, 0, special, env, st0));
    for i := 0 to |all|
      invariant Delegate(all, 0, special, env, st0) == Before(chainItems, standard, Delegate(all, i, special, env, ctx.Dict()))
    {
      var prop := all[i];
      if !prop.JObj? {
        return Crash(NoAttribute(prop, "get"));
      }
      if IsChain(prop.fields) {
        var parsed := ChainStrike(prop.fields, special, env, ctx.Dict());
        if parsed.Crash? {
          DelegateChainCrash(all, i, special, env, ctx.Dict(), parsed.reason);
          return Crash(parsed.reason);
        }
        DelegateChain(all, i, special, env, ctx.Dict(), parsed.value);
        ctx.Store(parsed.value.st);
        ctx.CollectWarnings(parsed.value.warnings);
        BeforeBefore(chainItems, standard, parsed.value.items, [], Delegate(all, i + 1, special, env, ctx.Dict()));
        NilJson(standard);
        chainItems := chainItems + parsed.value.items;
      } else {
        DelegatePlain(all, i, special, env, ctx.Dict());
        BeforeBefore(chainItems, standard, [], [prop], Delegate(all, i + 1, special, env, ctx.Dict()));
        NilItems(chainItems);
        standard := standard + [prop];
      }
    }
    NilItems(chainItems);
    NilJson(standard);
    return Ok((chainItems, standard));
  }

  /** The body of `if special_data := ...`. */
  method ParseSpecial(full: Fields, special: Fields, env: Env, ctx: Context)
    returns (r: Outcome<seq<(string, Section)>>)
    modifies ctx
    ensures SpecialSections(full, special, env, old(ctx.Dict())) == WithState(r, ctx.Dict())
  {
    ctx.heroManaSpeedId := Some(GetJ(full, "manaSpeedId"));
    var all :- Items(GetOr(special, "properties", JList([])));
    var d :- DelegateProperties(all, special, env, ctx);
    r := RunSpecialParsers(special, env, d.0, d.1, ctx);
  }

  /** The parser calls after the delegation loop. */
  method RunSpecialParsers(special: Fields, env: Env, chain: seq<Item>, standard: seq<Json>, ctx: Context)
    returns (r: Outcome<seq<(string, Section)>>)
    modifies ctx
    ensures SpecialParsers(special, env, chain, standard, old(ctx.Dict())) == WithState(r, ctx.Dict())
  {
    var direct :- DirectEffect(special, env, ctx.Dict());
    var clear := ClearBuffsOf(special, env.lang);
    ctx.CollectWarnings(clear.1);
    var props :- Props(JList(standard), special, env, ctx.Dict());
    ctx.Store(props.st);
    ctx.CollectWarnings(props.warnings);
    var status :- StatusEffects(GetOr(special, "statusEffects", JList([])), special, env, ctx.Dict(), StatusPrefix);
    ctx.Store(status.st);
    ctx.CollectWarnings(status.warnings);
    var fams :- FamiliarsOf(GetOr(special, "summonedFamiliars", JList([])), special, env, ctx.Dict());
    ctx.Store(fams.st);
    ctx.CollectWarnings(fams.warnings);
    return Ok(Arrange(chain, direct, clear.0, props.items, status.items, fams.items));
  }

  /** The body of the hero loop. */
  method ParseHero(heroId: string, full: Json, inp: Inputs, ctx: Context) returns (r: Outcome<Hero>)
    modifies ctx
    ensures HeroStep(heroId, full, inp, old(ctx.Dict())) == WithState(r, ctx.Dict())
  {
    var stats :- GetHeroFinalStats(heroId, inp.statsDb);
    r := BuildHero(heroId, full, inp, stats, ctx);
  }

  /** The hero record once its stats are known. */
  method BuildHero(heroId: string, full: Json, inp: Inputs, stats: Stats, ctx: Context) returns (r: Outcome<Hero>)
    modifies ctx
    ensures HeroBuilt(heroId, full, inp, stats, old(ctx.Dict())) == WithState(r, ctx.Dict())
  {
    if !full.JObj? {
      return Crash(CopyError(full));
    }
    var env := Env(inp.lang, inp.extraKeys, heroId, inp.rules, stats);
    var special := GetJ(full.fields, "specialId_details");
    var sections :- ParseSections(full.fields, env, ctx);
    return Ok(Hero(full.fields, stats.name, if Truthy(special) then special else JNull, KeepTruthy(sections)));
  }

  /** The special's sections, then the passives'. */
  method ParseSections(full: Fields, env: Env, ctx: Context) returns (r: Outcome<seq<(string, Section)>>)
    modifies ctx
    ensures HeroSections(full, env, old(ctx.Dict())) == WithState(r, ctx.Dict())
  {
    var sections :- ParseSpecialPart(full, env, ctx);
    var all :- AllPassives(full);
    var extra :- ParsePassivePart(all, env, ctx);
    return Ok(sections + extra);
  }

  /** The special's sections, if it has any. */
  method ParseSpecialPart(full: Fields, env: Env, ctx: Context) returns (r: Outcome<seq<(string, Section)>>)
    modifies ctx
    ensures SpecialPart(full, env, old(ctx.Dict())) == WithState(r, ctx.Dict())
  {
    var special := GetJ(full, "specialId_details");
    if !Truthy(special) {
      return Ok([]);
    }
    if !special.JObj? {
      return Crash(NoAttribute(special, "get"));
    }
    r := ParseSpecial(full, special.fields, env, ctx);
  }

  /** The passives' section, if there are any. */
  method ParsePassivePart(all: Json, env: Env, ctx: Context) returns (r: Outcome<seq<(string, Section)>>)
    modifies ctx
    ensures PassivePart(all, env, old(ctx.Dict())) == WithState(r, ctx.Dict())
  {
    if !Truthy(all) {
      return Ok([]);
    }
    var passives :- PassivesOf(all, env, ctx.Dict());
    ctx.CollectWarnings(passives.warnings);
    return Ok([("passiveSkills", ItemList(passives.items))]);
  }

  /** `phase_two_parse_skills`: the processed heroes, with the context
      holding the collected warnings. */
  method PhaseTwoParseSkills(heroes: Fields, inp: Inputs, ctx: Context) returns (r: Outcome<seq<Hero>>)
    modifies ctx
    ensures PhaseTwo(heroes, inp, old(ctx.Dict())) == WithState(r, ctx.Dict())
  {
    ctx.Reset();
    ghost var st0 := ctx.Dict();
    var processed: seq<Hero> := [];
    AfterNil(HeroesFrom(heroes, 0, inp, st0));
    for i := 0 to |heroes|
      invariant HeroesFrom(heroes, 0, inp, st0) == After(processed, HeroesFrom(heroes, i, inp, ctx.Dict()))
    {
      ghost var before := ctx.Dict();
      var hero := ParseHero(heroes[i].0, heroes[i].1, inp, ctx);
      if hero.Crash? {
        HeroesFromCrash(heroes, i, inp, before, hero.reason);
        return Crash(hero.reason);
      }
      HeroesFromStep(heroes, i, inp, before, hero.value, ctx.Dict());
      AfterAfter(processed, [hero.value], HeroesFrom(heroes, i + 1, inp, ctx.Dict()));
      processed := processed + [hero.value];
    }
    assert processed + [] == processed;
    return Ok(processed);
  }
}
