/** The tables the engine reads: the language table and the rule tables.
    They are loaded by code outside this model and are inputs here. */
module Tables {
  import opened Strings
  import opened Json

  /** One language-table entry; a text missing from the entry reads as "". */
  datatype LangEntry = LangEntry(en: Option<string>, ja: Option<string>)

  /** The language table in its key order (a dict: the first entry for a key
      is the one that counts). */
  type LangDb = seq<(string, LangEntry)>

  function LangKeys(db: LangDb): (r: seq<string>)
    ensures |r| == |db|
    ensures forall i :: 0 <= i < |db| ==> r[i] == db[i].0
  {
    if db == [] then [] else [db[0].0] + LangKeys(db[1..])
  }

  /** `k in lang_db` */
  predicate InLang(db: LangDb, k: string) {
    k in LangKeys(db)
  }

  /** `lang_db.get(k)` */
  function LangGet(db: LangDb, k: string): (r: Option<LangEntry>)
    ensures r.Some? <==> InLang(db, k)
    ensures r.Some? ==> exists i :: 0 <= i < |db| && db[i] == (k, r.value)
  {
    if db == [] then None
    else if db[0].0 == k then Some(db[0].1)
    else
      var r := LangGet(db[1..], k);
      assert r.Some? ==> exists i :: 0 <= i < |db| - 1 && db[1..][i] == (k, r.value);
      r
  }

  function TextOr(t: Option<string>): string {
    if t.Some? then t.value else ""
  }

  /** `lang_db.get(k, {}).get("en", "")` */
  function EnText(db: LangDb, k: string): string {
    match LangGet(db, k)
    case Some(e) => TextOr(e.en)
    case None => ""
  }

  /** The keys, in table order, that start with a prefix. */
  function KeysWithPrefix(db: LangDb, prefix: string): (r: seq<string>)
    ensures forall k :: k in r <==> InLang(db, k) && StartsWith(k, prefix)
    ensures SubSeq(r, LangKeys(db))
  {
    Filter(LangKeys(db), prefix)
  }

  /** The keys that start with a prefix, in their order. */
  function Filter(ks: seq<string>, prefix: string): (r: seq<string>)
    ensures forall k :: k in r <==> k in ks && StartsWith(k, prefix)
    ensures SubSeq(r, ks)
  {
    if ks == [] then []
    else
      var rest := Filter(ks[1..], prefix);
      assert forall k :: k in ks <==> k == ks[0] || k in ks[1..];
      if StartsWith(ks[0], prefix) then
        assert ([ks[0]] + rest)[1..] == rest;
        [ks[0]] + rest
      else rest
  }

  /** An override rule for one placeholder (`calc`, `value` and `key`
      columns); a rule that is present counts as set. */
  datatype Rule = Rule(calcMode: Option<string>, value: Option<string>, key: Option<string>)

  /** `rules["hero_rules"]` and `rules["lang_overrides"]`, each with a
      per-hero part and a common part. */
  datatype Rules = Rules(
    heroSpecific: map<string, map<string, Rule>>,
    heroCommon: map<string, Rule>,
    langSpecific: map<string, map<string, string>>,
    langCommon: map<string, string>)

  /** The hero-specific rule for a placeholder, else the common one. */
  function RuleFor(rules: Rules, heroId: string, name: string): (r: Option<Rule>)
    ensures heroId in rules.heroSpecific && name in rules.heroSpecific[heroId] ==>
      r == Some(rules.heroSpecific[heroId][name])
    ensures !(heroId in rules.heroSpecific && name in rules.heroSpecific[heroId]) ==>
      r == if name in rules.heroCommon then Some(rules.heroCommon[name]) else None
  {
    if heroId in rules.heroSpecific && name in rules.heroSpecific[heroId] then
      Some(rules.heroSpecific[heroId][name])
    else if name in rules.heroCommon then Some(rules.heroCommon[name])
    else None
  }

  /** `specific.get(hero_id, {}).get(item_id) or common.get(item_id)`: an
      item id that cannot be a dict key raises TypeError; only a string id
      can be found; an empty override counts as none. */
  function LangOverride(rules: Rules, heroId: string, itemId: Json): (r: Outcome<Option<string>>)
    ensures r.Crash? <==> !Hashable(itemId)
    ensures r.Ok? && r.value.Some? ==> r.value.value != "" && itemId.JStr?
    ensures (r.Ok? && itemId.JStr? && heroId in rules.langSpecific &&
             itemId.s in rules.langSpecific[heroId] && rules.langSpecific[heroId][itemId.s] != "") ==>
      r.value == Some(rules.langSpecific[heroId][itemId.s])
    ensures (r.Ok? && itemId.JStr? && !(heroId in rules.langSpecific &&
             itemId.s in rules.langSpecific[heroId] && rules.langSpecific[heroId][itemId.s] != "")) ==>
      r.value == (if itemId.s in rules.langCommon && rules.langCommon[itemId.s] != ""
                  then Some(rules.langCommon[itemId.s]) else None)
  {
    if !Hashable(itemId) then Crash("TypeError: unhashable type: '" + TypeName(itemId) + "'")
    else if !itemId.JStr? then Ok(None)
    else
      var id := itemId.s;
      var specific := if heroId in rules.langSpecific && id in rules.langSpecific[heroId]
        then rules.langSpecific[heroId][id] else "";
      if specific != "" then Ok(Some(specific))
      else if id in rules.langCommon && rules.langCommon[id] != "" then Ok(Some(rules.langCommon[id]))
      else Ok(None)
  }
}
