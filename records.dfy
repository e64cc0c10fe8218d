/** The records the parsers produce, the tables they read and the shared
    parser context (`parsers`) as a value. */
module Records {
  import opened Strings
  import opened Json
  import opened Tables
  import opened Values
  import opened Matcher

  /** The `extra` tooltip of a record: its template id, its unformatted
      parameters and its normalised texts. */
  datatype Extra = Extra(langId: string, params: Fields, en: string, ja: string)

  /** The `nested_effects` field of a record: absent, or the records. */
  datatype Nested = NoNested | Effects(items: seq<Item>)

  /** One output record of a parser. `params` are the unformatted
      parameters (`json.dumps` of them is not modelled). */
  datatype Item =
      /** A filled template: `id`, `lang_id`, `params`, `en`, `ja`, the
          `nested_effects` when the record has that field, and `extra`. */
      Described(id: Json, langId: string, params: Fields, en: string, ja: string,
                nested: Nested, extra: Option<Extra>)
      /** A `SEARCH_FAILED` record whose `en` and `ja` are both `text`. */
    | Failed(id: Json, text: string)
      /** A rotating or charged special: its template texts and parts. */
    | Container(id: Json, langId: string, en: string, ja: string, parts: seq<Item>)
      /** The `heading` record before each part of a container. */
    | Heading(en: string, ja: string)
      /** A direct effect (it has no `id`). */
    | Direct(langId: string, params: Fields, en: string, ja: string)
      /** `direct_effect_no_type` */
    | DirectNoType
      /** `direct_effect_error` */
    | DirectError
      /** A passive skill: title and description texts. */
    | Passive(id: Json, titleEn: string, titleJa: string, descEn: string, descJa: string, params: Fields)
      /** `FAILED: <id>` */
    | PassiveFailed(id: Json)

  /** A record that carries an `id` field. */
  predicate HasId(it: Item) {
    it.Described? || it.Failed? || it.Container? || it.Passive? || it.PassiveFailed?
  }

  /** The `id`s of the records that carry one, in record order. */
  function Ids(items: seq<Item>): (r: seq<Json>)
    ensures |r| <= |items|
  {
    if items == [] then []
    else
      var last := items[|items| - 1];
      Ids(items[..|items| - 1]) + (if HasId(last) then [last.id] else [])
  }

  lemma {:induction false} IdsConcat(a: seq<Item>, b: seq<Item>)
    ensures Ids(a + b) == Ids(a) + Ids(b)
    decreases |b|
  {
    if b == [] {
      assert a + b == a;
    } else {
      var c := a + b;
      assert c[..|c| - 1] == a + b[..|b| - 1];
      IdsConcat(a, b[..|b| - 1]);
    }
  }

  lemma IdsOfOne(items: seq<Item>)
    ensures |items| == 1 && HasId(items[0]) ==> Ids(items) == [items[0].id]
  {
    if |items| == 1 {
      assert items[..0] == [];
    }
  }

  /** The `id`s of the dict entries among the first n, in order. */
  function DictIds(xs: seq<Json>, n: nat): (r: seq<Json>)
    requires n <= |xs|
    ensures |r| <= n
  {
    if n == 0 then []
    else DictIds(xs, n - 1) + (if xs[n - 1].JObj? then [GetJ(xs[n - 1].fields, "id")] else [])
  }

  /** The truthy `id`s of the dict entries among the first n, in order. */
  function TruthyIds(xs: seq<Json>, n: nat): (r: seq<Json>)
    requires n <= |xs|
    ensures |r| <= n
    ensures forall i :: 0 <= i < |r| ==> Truthy(r[i])
  {
    if n == 0 then []
    else
      var x := xs[n - 1];
      TruthyIds(xs, n - 1) + (if x.JObj? && Truthy(GetJ(x.fields, "id")) then [GetJ(x.fields, "id")] else [])
  }

  /** What a parser reads for one hero: the language table, the
      `extra_description_keys` of the game data, the hero id, the rule
      tables and the hero's final stats. */
  datatype Env = Env(lang: LangDb, extraKeys: set<string>, heroId: string, rules: Rules, stats: Stats)

  /** The contents of the shared `parsers` dict: `main_max_level`,
      `hero_mana_speed_id` and `prop_lang_subset` when set,
      `extra_lang_ids`, `warnings_list`, `unique_warnings_set` and
      `familiar_debug_log`. */
  datatype State = State(
    mainMaxLevel: Option<Json>,
    heroManaSpeedId: Option<Json>,
    propLangSubset: Option<seq<string>>,
    extraLangIds: seq<string>,
    warningsList: seq<string>,
    uniqueWarnings: set<string>,
    debugLog: seq<LogEntry>)

  /** `parsers.get("main_max_level", 8)` */
  function LevelOf(st: State): Json {
    if st.mainMaxLevel.Some? then st.mainMaxLevel.value else JInt(8)
  }

  /** `special_data.get("maxLevel", 8)` */
  function MaxLevel(special: Fields): Json {
    GetOr(special, "maxLevel", JInt(8))
  }

  /** `{**block, "maxLevel": level}` */
  function SearchContext(block: Fields, level: Json): Fields {
    Put(block, "maxLevel", level)
  }

  /** The matcher with the context's log: the choice, with the log entries
      appended to the state. */
  function Match(block: Fields, subset: seq<string>, parent: Option<Fields>, st: State): (r: Outcome<(Choice, State)>)
    ensures r.Ok? <==> FindBest(block, subset, parent).Ok?
    ensures r.Ok? ==> r.value.0 == FindBest(block, subset, parent).value.0
    ensures r.Ok? ==> r.value.1 == st.(debugLog := st.debugLog + FindBest(block, subset, parent).value.1)
  {
    var m :- FindBest(block, subset, parent);
    Ok((m.0, st.(debugLog := st.debugLog + m.1)))
  }

  /** The chosen key, "" when there is none (a falsy `lang_id`). */
  function ChosenKey(c: Choice): string {
    if c.Chosen? then c.key else ""
  }

  /** The matcher's warnings: none for a choice. */
  function Warnings(c: Choice, prefix: string): (r: seq<string>)
    ensures |r| <= 1 && (r == [] <==> c.Chosen?)
    ensures forall w :: w in r ==> StartsWith(w, prefix)
  {
    if c.NoMatch? then
      PrefixStarts(prefix, c.warning);
      [prefix + c.warning]
    else []
  }

  /** A parser's return value (its records and warnings) with the
      `parsers` dict as it leaves it. */
  datatype Parsed = Parsed(items: seq<Item>, warnings: seq<string>, st: State)

  /** The template id for a block that has `id`: a language override for
      the id first, else the matcher's choice, which may add one warning
      under the parser's prefix; "" when neither gives one. An id that
      cannot be a dict key raises TypeError. */
  function LangIdFor(block: Fields, id: Json, subset: seq<string>, parent: Option<Fields>, prefix: string,
                     env: Env, st: State): (r: Outcome<(string, seq<string>, State)>)
    ensures !Hashable(id) ==> r.Crash?
    ensures LangOverride(env.rules, env.heroId, id).Ok? && LangOverride(env.rules, env.heroId, id).value.Some? ==>
      r == Ok((LangOverride(env.rules, env.heroId, id).value.value, [], st))
    ensures r.Ok? && r.value.0 != "" && LangOverride(env.rules, env.heroId, id).value.None? ==> r.value.0 in subset
    ensures r.Ok? ==> |r.value.1| <= 1 && (r.value.1 != [] ==> r.value.0 == "")
    ensures r.Ok? ==> forall w :: w in r.value.1 ==> StartsWith(w, prefix)
    ensures r.Ok? ==> r.value.2.(debugLog := st.debugLog) == st && st.debugLog <= r.value.2.debugLog
  {
    var ov :- LangOverride(env.rules, env.heroId, id);
    if ov.Some? then Ok((ov.value, [], st))
    else
      var m :- Match(block, subset, parent, st);
      Ok((ChosenKey(m.0), Warnings(m.0, prefix), m.1))
  }
}
