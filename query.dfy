/** The read side of the project: the recursive block search that the API
    server's `/api/query` endpoint and the extraction tool share, the
    language-table search and the two hero endpoints. The in-memory tables
    (the unified hero data and the language table) are parameters. */
module Query {
  import opened Strings
  import opened Json
  import opened Tables

  /** An endpoint's answer: its body, or the `HTTPException(404)` it raises. */
  datatype Reply<T> = Reply(body: T) | NotFound(detail: string)

  // ------------------------------------------------------- block search

  /** `key_to_find in data and isinstance(data[key_to_find], str) and
      keyword.lower() in data[key_to_find].lower()` */
  predicate Matches(fs: Fields, key: string, keyword: string) {
    Has(fs, key) && GetJ(fs, key).JStr? && Contains(Lower(GetJ(fs, key).s), Lower(keyword))
  }

  /** The dicts `find_nested_properties(x, ...)` appends, in the order it
      appends them: a dict before what its values hold, dict values and
      list items in order. */
  function Found(x: Json, key: string, keyword: string): seq<Json>
    decreases Size(x), 1
  {
    match x
    case JObj(fs) => (if Matches(fs, key, keyword) then [x] else []) + FoundFields(fs, key, keyword, |fs|)
    case JList(xs) => FoundItems(xs, key, keyword, |xs|)
    case _ => []
  }

  /** What the search finds under the first n values of a dict. */
  function FoundFields(fs: Fields, key: string, keyword: string, n: nat): seq<Json>
    requires n <= |fs|
    decreases Size(JObj(fs)), 0, n
  {
    if n == 0 then []
    else
      FieldSmaller(fs, n - 1);
      FoundFields(fs, key, keyword, n - 1) + Found(fs[n - 1].1, key, keyword)
  }

  /** What the search finds under the first n items of a list. */
  function FoundItems(xs: seq<Json>, key: string, keyword: string, n: nat): seq<Json>
    requires n <= |xs|
    decreases Size(JList(xs)), 0, n
  {
    if n == 0 then []
    else
      ItemSmaller(xs, n - 1);
      FoundItems(xs, key, keyword, n - 1) + Found(xs[n - 1], key, keyword)
  }

  /** `y` is `x` or lies somewhere inside it, under dict values and list
      items. */
  predicate Within(y: Json, x: Json)
    decreases Size(x), 1
  {
    y == x ||
    (match x
     case JObj(fs) => WithinFields(y, fs, |fs|)
     case JList(xs) => WithinItems(y, xs, |xs|)
     case _ => false)
  }

  predicate WithinFields(y: Json, fs: Fields, n: nat)
    requires n <= |fs|
    decreases Size(JObj(fs)), 0, n
  {
    n > 0 && (FieldSmaller(fs, n - 1); WithinFields(y, fs, n - 1) || Within(y, fs[n - 1].1))
  }

  predicate WithinItems(y: Json, xs: seq<Json>, n: nat)
    requires n <= |xs|
    decreases Size(JList(xs)), 0, n
  {
    n > 0 && (ItemSmaller(xs, n - 1); WithinItems(y, xs, n - 1) || Within(y, xs[n - 1]))
  }

  /** The search finds exactly the matching dicts at any depth of its
      argument, the argument itself included. */
  lemma {:induction false} FoundIff(x: Json, key: string, keyword: string, y: Json)
    ensures y in Found(x, key, keyword) <==> Within(y, x) && y.JObj? && Matches(y.fields, key, keyword)
    decreases Size(x), 1
  {
    match x
    case JObj(fs) =>
      FoundFieldsIff(fs, key, keyword, |fs|, y);
    case JList(xs) =>
      FoundItemsIff(xs, key, keyword, |xs|, y);
    case _ =>
  }

  lemma {:induction false} FoundFieldsIff(fs: Fields, key: string, keyword: string, n: nat, y: Json)
    requires n <= |fs|
    ensures y in FoundFields(fs, key, keyword, n) <==> WithinFields(y, fs, n) && y.JObj? && Matches(y.fields, key, keyword)
    decreases Size(JObj(fs)), 0, n
  {
    if n > 0 {
      FieldSmaller(fs, n - 1);
      FoundFieldsIff(fs, key, keyword, n - 1, y);
      FoundIff(fs[n - 1].1, key, keyword, y);
    }
  }

  lemma {:induction false} FoundItemsIff(xs: seq<Json>, key: string, keyword: string, n: nat, y: Json)
    requires n <= |xs|
    ensures y in FoundItems(xs, key, keyword, n) <==> WithinItems(y, xs, n) && y.JObj? && Matches(y.fields, key, keyword)
    decreases Size(JList(xs)), 0, n
  {
    if n > 0 {
      ItemSmaller(xs, n - 1);
      FoundItemsIff(xs, key, keyword, n - 1, y);
      FoundIff(xs[n - 1], key, keyword, y);
    }
  }

  lemma {:induction false} WithinFieldsAt(y: Json, fs: Fields, n: nat, i: nat)
    requires i < n <= |fs| && Within(y, fs[i].1)
    ensures WithinFields(y, fs, n)
    decreases n
  {
    FieldSmaller(fs, n - 1);
    if i < n - 1 {
      WithinFieldsAt(y, fs, n - 1, i);
    }
  }

  /** A match nested inside a matching dict is found too, after the dict. */
  lemma NestedMatchFound(fs: Fields, i: nat, y: Json, key: string, keyword: string)
    requires Matches(fs, key, keyword) && i < |fs|
    requires Within(y, fs[i].1) && y.JObj? && Matches(y.fields, key, keyword)
    ensures |Found(JObj(fs), key, keyword)| > 0 && Found(JObj(fs), key, keyword)[0] == JObj(fs)
    ensures y in Found(JObj(fs), key, keyword)
  {
    WithinFieldsAt(y, fs, |fs|, i);
    FoundIff(JObj(fs), key, keyword, y);
  }

  lemma AppendAssoc<T>(a: seq<T>, b: seq<T>, c: seq<T>)
    ensures (a + b) + c == a + (b + c)
  {
  }

  /** `find_nested_properties(data, key_to_find, keyword, results)`: the
      list passed in comes back with the found dicts appended. */
  method FindNestedProperties(data: Json, key: string, keyword: string, results: seq<Json>) returns (res: seq<Json>)
    ensures res == results + Found(data, key, keyword)
    decreases Size(data), 1
  {
    match data {
      case JObj(fs) =>
        var own: seq<Json> := [];
        if Matches(fs, key, keyword) {
          own := [data];
        }
        res := SearchValues(fs, key, keyword, results + own);
        AppendAssoc(results, own, FoundFields(fs, key, keyword, |fs|));
      case JList(xs) =>
        res := SearchItems(xs, key, keyword, results);
      case _ =>
        res := results;
    }
  }

  /** `for value in data.values(): find_nested_properties(value, ...)` */
  method SearchValues(fs: Fields, key: string, keyword: string, results: seq<Json>) returns (res: seq<Json>)
    ensures res == results + FoundFields(fs, key, keyword, |fs|)
    decreases Size(JObj(fs)), 0
  {
    res := results;
    for i := 0 to |fs|
      invariant res == results + FoundFields(fs, key, keyword, i)
    {
      FieldSmaller(fs, i);
      res := FindNestedProperties(fs[i].1, key, keyword, res);
      AppendAssoc(results, FoundFields(fs, key, keyword, i), Found(fs[i].1, key, keyword));
    }
  }

  /** `for item in data: find_nested_properties(item, ...)` */
  method SearchItems(xs: seq<Json>, key: string, keyword: string, results: seq<Json>) returns (res: seq<Json>)
    ensures res == results + FoundItems(xs, key, keyword, |xs|)
    decreases Size(JList(xs)), 0
  {
    res := results;
    for i := 0 to |xs|
      invariant res == results + FoundItems(xs, key, keyword, i)
    {
      ItemSmaller(xs, i);
      res := FindNestedProperties(xs[i], key, keyword, res);
      AppendAssoc(results, FoundItems(xs, key, keyword, i), Found(xs[i], key, keyword));
    }
  }

  // ---------------------------------------------------- block collection

  /** The blocks found in one dict-valued hero: only its `specialId_details`
      is searched, and only when it is truthy. */
  function HeroFound(hero: Fields, key: string, keyword: string): seq<Json> {
    if Truthy(GetJ(hero, "specialId_details")) then Found(GetJ(hero, "specialId_details"), key, keyword) else []
  }

  /** What the search yields for each hero (nothing for a value that is not
      a dict, which the loop never gets to search). */
  function HeroFinds(heroes: Fields, key: string, keyword: string): (r: seq<seq<Json>>)
    ensures |r| == |heroes|
  {
    seq(|heroes|, j requires 0 <= j < |heroes| =>
      if heroes[j].1.JObj? then HeroFound(heroes[j].1.fields, key, keyword) else [])
  }

  lemma HeroFindsAt(heroes: Fields, key: string, keyword: string, j: nat)
    requires j < |heroes| && heroes[j].1.JObj?
    ensures HeroFinds(heroes, key, keyword)[j] == HeroFound(heroes[j].1.fields, key, keyword)
  {
  }

  /** Each block paired with the id of the hero it was found in. */
  function Tagged(heroId: string, blocks: seq<Json>): (r: seq<(string, Json)>)
    ensures |r| == |blocks| && forall j :: 0 <= j < |blocks| ==> r[j] == (heroId, blocks[j])
  {
    seq(|blocks|, j requires 0 <= j < |blocks| => (heroId, blocks[j]))
  }

  /** The collection loop over the first n heroes, given what the search
      yields for each: the pairs collected, or the error of the first hero
      value that is not a dict (it has no `.get`). */
  function Gather(heroes: Fields, finds: seq<seq<Json>>, n: nat): Outcome<seq<(string, Json)>>
    requires n <= |heroes| == |finds|
  {
    if n == 0 then Ok([])
    else
      var prev := Gather(heroes, finds, n - 1);
      if prev.Crash? then prev
      else if !heroes[n - 1].1.JObj? then Crash(NoAttribute(heroes[n - 1].1, "get"))
      else Ok(prev.value + Tagged(heroes[n - 1].0, finds[n - 1]))
  }

  /** `extracted_data` at the end of the loop, as (hero id, block) pairs. */
  function Blocks(heroes: Fields, key: string, keyword: string): Outcome<seq<(string, Json)>> {
    Gather(heroes, HeroFinds(heroes, key, keyword), |heroes|)
  }

  /** One of the first n heroes has the id `p.0` and yields the block `p.1`. */
  predicate YieldedBefore(heroes: Fields, finds: seq<seq<Json>>, n: nat, p: (string, Json))
    requires n <= |heroes| == |finds|
  {
    exists j :: 0 <= j < n && heroes[j].0 == p.0 && p.1 in finds[j]
  }

  lemma YieldedBeforeStep(heroes: Fields, finds: seq<seq<Json>>, n: nat, p: (string, Json))
    requires 0 < n <= |heroes| == |finds|
    ensures YieldedBefore(heroes, finds, n, p) <==>
      YieldedBefore(heroes, finds, n - 1, p) || (heroes[n - 1].0 == p.0 && p.1 in finds[n - 1])
  {
    if YieldedBefore(heroes, finds, n, p) {
      var j :| 0 <= j < n && heroes[j].0 == p.0 && p.1 in finds[j];
      if j < n - 1 {
        assert YieldedBefore(heroes, finds, n - 1, p);
      }
    }
  }

  lemma TaggedIn(heroId: string, blocks: seq<Json>, p: (string, Json))
    ensures p in Tagged(heroId, blocks) <==> heroId == p.0 && p.1 in blocks
  {
    if p.1 in blocks && heroId == p.0 {
      var j :| 0 <= j < |blocks| && blocks[j] == p.1;
      assert Tagged(heroId, blocks)[j] == p;
    }
  }

  lemma {:induction false} GatherIff(heroes: Fields, finds: seq<seq<Json>>, n: nat, p: (string, Json))
    requires n <= |heroes| == |finds| && Gather(heroes, finds, n).Ok?
    ensures p in Gather(heroes, finds, n).value <==> YieldedBefore(heroes, finds, n, p)
  {
    if n > 0 {
      GatherIff(heroes, finds, n - 1, p);
      TaggedIn(heroes[n - 1].0, finds[n - 1], p);
      YieldedBeforeStep(heroes, finds, n, p);
    }
  }

  /** One of the first n hero values is not a dict. */
  predicate NotDictBefore(heroes: Fields, n: nat)
    requires n <= |heroes|
  {
    exists j :: 0 <= j < n && !heroes[j].1.JObj?
  }

  lemma NotDictBeforeStep(heroes: Fields, n: nat)
    requires 0 < n <= |heroes|
    ensures NotDictBefore(heroes, n) <==> NotDictBefore(heroes, n - 1) || !heroes[n - 1].1.JObj?
  {
    if NotDictBefore(heroes, n) {
      var j :| 0 <= j < n && !heroes[j].1.JObj?;
      if j < n - 1 {
        assert NotDictBefore(heroes, n - 1);
      }
    }
  }

  lemma {:induction false} GatherCrash(heroes: Fields, finds: seq<seq<Json>>, n: nat)
    requires n <= |heroes| == |finds|
    ensures Gather(heroes, finds, n).Crash? <==> NotDictBefore(heroes, n)
  {
    if n > 0 {
      GatherCrash(heroes, finds, n - 1);
      NotDictBeforeStep(heroes, n);
    }
  }

  /** Once the loop has raised, the later heroes do not matter. */
  lemma {:induction false} CrashStays(heroes: Fields, finds: seq<seq<Json>>, i: nat, n: nat)
    requires i <= n <= |heroes| == |finds| && Gather(heroes, finds, i).Crash?
    ensures Gather(heroes, finds, n) == Gather(heroes, finds, i)
    decreases n
  {
    if n > i {
      CrashStays(heroes, finds, i, n - 1);
    }
  }

  /** The loop raises at the first hero value that is not a dict. */
  lemma GatherCrashAt(heroes: Fields, finds: seq<seq<Json>>, i: nat)
    requires i < |heroes| == |finds| && Gather(heroes, finds, i).Ok? && !heroes[i].1.JObj?
    ensures Gather(heroes, finds, |heroes|) == Crash(NoAttribute(heroes[i].1, "get"))
  {
    CrashStays(heroes, finds, i + 1, |heroes|);
  }

  /** A dict-valued hero adds what it yields to what has been collected. */
  lemma GatherStep(heroes: Fields, finds: seq<seq<Json>>, i: nat, extracted: seq<(string, Json)>)
    requires i < |heroes| == |finds| && Gather(heroes, finds, i) == Ok(extracted) && heroes[i].1.JObj?
    ensures Gather(heroes, finds, i + 1) == Ok(extracted + Tagged(heroes[i].0, finds[i]))
  {
  }

  /** Later heroes do not change what the loop has collected so far. */
  lemma {:induction false} GatherExtend(heroes: Fields, finds: seq<seq<Json>>, more: Fields, moreFinds: seq<seq<Json>>,
                                        n: nat)
    requires n <= |heroes| == |finds| && |more| == |moreFinds|
    ensures Gather(heroes + more, finds + moreFinds, n) == Gather(heroes, finds, n)
  {
    if n > 0 {
      GatherExtend(heroes, finds, more, moreFinds, n - 1);
      assert (heroes + more)[n - 1] == heroes[n - 1];
      assert (finds + moreFinds)[n - 1] == finds[n - 1];
    }
  }

  lemma HeroFoundIff(hero: Fields, key: string, keyword: string, b: Json)
    ensures b in HeroFound(hero, key, keyword) <==> FoundIn(JObj(hero), b, key, keyword)
  {
    if Truthy(GetJ(hero, "specialId_details")) {
      FoundIff(GetJ(hero, "specialId_details"), key, keyword, b);
    }
  }

  /** `b` is a block the search finds in the hero value `hero`. */
  predicate FoundIn(hero: Json, b: Json, key: string, keyword: string) {
    hero.JObj? && Truthy(GetJ(hero.fields, "specialId_details")) &&
    Within(b, GetJ(hero.fields, "specialId_details")) && b.JObj? && Matches(b.fields, key, keyword)
  }

  /** The hero entry `h` has the id `p.0` and holds the block `p.1`. */
  predicate Holds(h: (string, Json), p: (string, Json), key: string, keyword: string) {
    h.0 == p.0 && FoundIn(h.1, p.1, key, keyword)
  }

  /** The collected pairs are exactly the matching dicts inside the heroes'
      special details, each with its hero's id. */
  lemma BlocksIff(heroes: Fields, key: string, keyword: string, p: (string, Json))
    requires Blocks(heroes, key, keyword).Ok?
    ensures p in Blocks(heroes, key, keyword).value <==>
      exists j :: 0 <= j < |heroes| && Holds(heroes[j], p, key, keyword)
  {
    var finds := HeroFinds(heroes, key, keyword);
    GatherIff(heroes, finds, |heroes|, p);
    GatherCrash(heroes, finds, |heroes|);
    forall j | 0 <= j < |heroes|
      ensures (heroes[j].0 == p.0 && p.1 in finds[j]) <==> Holds(heroes[j], p, key, keyword)
    {
      assert heroes[j].1.JObj?;
      HeroFindsAt(heroes, key, keyword, j);
      HeroFoundIff(heroes[j].1.fields, key, keyword, p.1);
    }
  }

  /** The collection raises exactly when some hero value is not a dict. */
  lemma BlocksCrash(heroes: Fields, key: string, keyword: string)
    ensures Blocks(heroes, key, keyword).Crash? <==> exists j :: 0 <= j < |heroes| && !heroes[j].1.JObj?
  {
    GatherCrash(heroes, HeroFinds(heroes, key, keyword), |heroes|);
  }

  /** The output is ordered by hero: one more dict-valued hero adds what it
      yields at the end. */
  lemma GatherSnoc(heroes: Fields, finds: seq<seq<Json>>, h: (string, Json), f: seq<Json>)
    requires |heroes| == |finds| && Gather(heroes, finds, |heroes|).Ok? && h.1.JObj?
    ensures Gather(heroes + [h], finds + [f], |heroes| + 1) ==
      Ok(Gather(heroes, finds, |heroes|).value + Tagged(h.0, f))
  {
    GatherExtend(heroes, finds, [h], [f], |heroes|);
    assert (heroes + [h])[|heroes|] == h;
    assert (finds + [f])[|heroes|] == f;
  }

  /** `for block in found_blocks: extracted_data.append(...)` */
  method AppendTagged(extracted: seq<(string, Json)>, heroId: string, found: seq<Json>) returns (res: seq<(string, Json)>)
    ensures res == extracted + Tagged(heroId, found)
  {
    res := extracted;
    for j := 0 to |found|
      invariant res == extracted + Tagged(heroId, found[..j])
    {
      assert Tagged(heroId, found[..j + 1]) == Tagged(heroId, found[..j]) + [(heroId, found[j])];
      AppendAssoc(extracted, Tagged(heroId, found[..j]), [(heroId, found[j])]);
      res := res + [(heroId, found[j])];
    }
    assert found[..|found|] == found;
  }

  /** `if special_details: find_nested_properties(special_details, ...)` */
  method SearchHero(heroes: Fields, i: nat, key: string, keyword: string) returns (found: seq<Json>)
    requires i < |heroes| && heroes[i].1.JObj?
    ensures found == HeroFinds(heroes, key, keyword)[i]
  {
    HeroFindsAt(heroes, key, keyword, i);
    found := [];
    var special := GetJ(heroes[i].1.fields, "specialId_details");
    if Truthy(special) {
      found := FindNestedProperties(special, key, keyword, found);
      assert [] + Found(special, key, keyword) == Found(special, key, keyword);
    }
  }

  /** The loop over `all_hero_data.items()` that both the query endpoint and
      the extraction tool run. */
  method CollectBlocks(heroes: Fields, key: string, keyword: string) returns (r: Outcome<seq<(string, Json)>>)
    ensures r == Blocks(heroes, key, keyword)
  {
    ghost var finds := HeroFinds(heroes, key, keyword);
    var extracted: seq<(string, Json)> := [];
    for i := 0 to |heroes|
      invariant Gather(heroes, finds, i) == Ok(extracted)
    {
      var heroId := heroes[i].0;
      var heroData := heroes[i].1;
      if !heroData.JObj? {
        GatherCrashAt(heroes, finds, i);
        return Crash(NoAttribute(heroData, "get"));
      }
      var foundBlocks := SearchHero(heroes, i, key, keyword);
      GatherStep(heroes, finds, i, extracted);
      extracted := AppendTagged(extracted, heroId, foundBlocks);
    }
    return Ok(extracted);
  }

  /** `{"hero_id": hero_id, "property_block": block}` */
  function Record(p: (string, Json)): Json {
    JObj([("hero_id", JStr(p.0)), ("property_block", p.1)])
  }

  function Records(ps: seq<(string, Json)>): (r: seq<Json>)
    ensures |r| == |ps| && forall i :: 0 <= i < |ps| ==> r[i] == Record(ps[i])
  {
    seq(|ps|, i requires 0 <= i < |ps| => Record(ps[i]))
  }

  const QueryKeys := ["query", "count", "results"]

  /** `query_hero_data(key, keyword)`: the blocks of every hero with their
      number, or 404 when there are none. */
  method QueryHeroData(heroes: Fields, key: string, keyword: string) returns (r: Outcome<Reply<Json>>)
    ensures r.Crash? <==> Blocks(heroes, key, keyword).Crash?
    ensures r.Crash? <==> exists j :: 0 <= j < |heroes| && !heroes[j].1.JObj?
    ensures r.Ok? ==> (r.value.NotFound? <==> Blocks(heroes, key, keyword).value == [])
    ensures r.Ok? && r.value.NotFound? ==>
      r.value.detail == "No blocks found matching key='" + key + "' and keyword='" + keyword + "'"
    ensures r.Ok? && r.value.Reply? ==> r.value.body.JObj? && Keys(r.value.body.fields) == QueryKeys
    ensures r.Ok? && r.value.Reply? ==>
      GetJ(r.value.body.fields, "query") == JObj([("key", JStr(key)), ("keyword", JStr(keyword))]) &&
      GetJ(r.value.body.fields, "results") == JList(Records(Blocks(heroes, key, keyword).value)) &&
      GetJ(r.value.body.fields, "count") == JInt(|Blocks(heroes, key, keyword).value|)
  {
    BlocksCrash(heroes, key, keyword);
    var extracted :- CollectBlocks(heroes, key, keyword);
    if extracted == [] {
      return Ok(NotFound("No blocks found matching key='" + key + "' and keyword='" + keyword + "'"));
    }
    var results := Records(extracted);
    var body := [("query", JObj([("key", JStr(key)), ("keyword", JStr(keyword))])),
                 ("count", JInt(|results|)), ("results", JList(results))];
    assert Keys(body) == QueryKeys;
    return Ok(Reply(JObj(body)));
  }

  // ------------------------------------------------------ extraction tool

  /** `f"{args.keyword.lower()}_data.json"` */
  function OutputName(keyword: string): (r: string)
    ensures EndsWith(r, "_data.json") && |r| == |keyword| + 10
  {
    Lower(keyword) + "_data.json"
  }

  /** Two keywords share an output file exactly when they agree up to
      case. */
  lemma OutputNameSame(a: string, b: string)
    ensures OutputName(a) == OutputName(b) <==> Lower(a) == Lower(b)
  {
    if OutputName(a) == OutputName(b) {
      assert Lower(a) == OutputName(a)[..|a|];
      assert Lower(b) == OutputName(b)[..|b|];
    }
  }

  /** The extraction tool's `main` after loading the data: the file name and
      the list it writes, or nothing when no block matched. */
  method ExtractLearningData(heroes: Fields, key: string, keyword: string) returns (r: Outcome<Option<(string, Json)>>)
    ensures r.Crash? <==> Blocks(heroes, key, keyword).Crash?
    ensures r.Crash? <==> exists j :: 0 <= j < |heroes| && !heroes[j].1.JObj?
    ensures r.Ok? ==> (r.value.None? <==> Blocks(heroes, key, keyword).value == [])
    ensures r.Ok? && r.value.Some? ==>
      r.value.value == (OutputName(keyword), JList(Records(Blocks(heroes, key, keyword).value)))
  {
    BlocksCrash(heroes, key, keyword);
    var extracted :- CollectBlocks(heroes, key, keyword);
    if extracted == [] {
      return Ok(None);
    }
    return Ok(Some((OutputName(keyword), JList(Records(extracted)))));
  }

  // ------------------------------------------------------ language search

  /** `[k.strip().lower() for k in text.split(',') if k.strip()]` */
  function Keywords(text: string): (r: seq<string>)
    ensures forall i :: 0 <= i < |r| ==> r[i] != []
  {
    var cs := Cleaned(Split(text, ','));
    NonBlank(cs, |cs|)
  }

  /** Each part stripped and lower-cased. */
  function Cleaned(parts: seq<string>): (r: seq<string>)
    ensures |r| == |parts|
    ensures forall i :: 0 <= i < |parts| ==> r[i] == Lower(Strip(parts[i]))
  {
    seq(|parts|, i requires 0 <= i < |parts| => Lower(Strip(parts[i])))
  }

  /** The non-blank ones of the first n cleaned parts, in order. */
  function NonBlank(cs: seq<string>, n: nat): (r: seq<string>)
    requires n <= |cs|
    ensures forall i :: 0 <= i < |r| ==> r[i] != []
  {
    if n == 0 then []
    else NonBlank(cs, n - 1) + (if cs[n - 1] != [] then [cs[n - 1]] else [])
  }

  /** A keyword is one of the first n cleaned parts that is not blank, and
      every such part is a keyword. */
  lemma {:induction false} NonBlankIff(cs: seq<string>, n: nat, w: string)
    requires n <= |cs|
    ensures w in NonBlank(cs, n) <==> w != [] && w in cs[..n]
  {
    if n > 0 {
      NonBlankIff(cs, n - 1, w);
      assert cs[..n] == cs[..n - 1] + [cs[n - 1]];
    }
  }

  /** Which text of a language-table key a parameter searches. */
  datatype Field = IdField | EnField | JaField

  /** The lower-cased text the keywords must occur in: the key itself, or
      its `en` / `ja` text, "" when the entry has none. */
  function Haystack(db: LangDb, k: string, f: Field): string {
    match f
    case IdField => Lower(k)
    case EnField => Lower(match LangGet(db, k) case Some(e) => TextOr(e.en) case None => "")
    case JaField => Lower(match LangGet(db, k) case Some(e) => TextOr(e.ja) case None => "")
  }

  /** `all(kw in text for kw in keywords)` */
  predicate AllIn(kws: seq<string>, text: string) {
    forall i :: 0 <= i < |kws| ==> Contains(text, kws[i])
  }

  /** One comprehension of the search: the keys, in order, whose text holds
      every keyword. */
  function Narrow(db: LangDb, keys: seq<string>, kws: seq<string>, f: Field): (r: seq<string>)
    ensures forall k :: k in r <==> k in keys && AllIn(kws, Haystack(db, k, f))
    ensures SubSeq(r, keys)
  {
    if keys == [] then []
    else
      var rest := Narrow(db, keys[1..], kws, f);
      assert forall k :: k in keys <==> k == keys[0] || k in keys[1..];
      if AllIn(kws, Haystack(db, keys[0], f)) then
        assert ([keys[0]] + rest)[1..] == rest;
        [keys[0]] + rest
      else rest
  }

  /** A parameter whose keywords are all blank (say ", ,") filters nothing:
      `all` of an empty list is true. */
  lemma {:induction false} NarrowNoKeywords(db: LangDb, keys: seq<string>, f: Field)
    ensures Narrow(db, keys, [], f) == keys
  {
    if keys != [] {
      NarrowNoKeywords(db, keys[1..], f);
      assert [keys[0]] + keys[1..] == keys;
    }
  }

  /** A key passes a parameter that is missing or empty, or whose every
      keyword occurs in the key's text for that parameter. */
  predicate Passes(db: LangDb, k: string, q: Option<string>, f: Field) {
    q.None? || q.value == "" || AllIn(Keywords(q.value), Haystack(db, k, f))
  }

  /** `if text: candidate_keys = [...]` */
  function NarrowBy(db: LangDb, keys: seq<string>, q: Option<string>, f: Field): (r: seq<string>)
    ensures forall k :: k in r <==> k in keys && Passes(db, k, q, f)
    ensures SubSeq(r, keys)
  {
    if q.Some? && q.value != "" then Narrow(db, keys, Keywords(q.value), f)
    else SubSeqRefl(keys); keys
  }

  /** `candidate_keys` after the three filters. */
  function Candidates(db: LangDb, idQ: Option<string>, enQ: Option<string>, jaQ: Option<string>): (r: seq<string>)
    ensures forall k :: k in r <==>
      InLang(db, k) && Passes(db, k, idQ, IdField) && Passes(db, k, enQ, EnField) && Passes(db, k, jaQ, JaField)
    ensures SubSeq(r, LangKeys(db))
  {
    var byId := NarrowBy(db, LangKeys(db), idQ, IdField);
    var byEn := NarrowBy(db, byId, enQ, EnField);
    var byJa := NarrowBy(db, byEn, jaQ, JaField);
    SubSeqTrans(byJa, byEn, byId);
    SubSeqTrans(byJa, byId, LangKeys(db));
    byJa
  }

  /** `{key: language_db[key] for key in candidate_keys}` */
  function Entries(db: LangDb, keys: seq<string>): (r: seq<(string, LangEntry)>)
    requires forall k :: k in keys ==> InLang(db, k)
    ensures |r| == |keys|
    ensures forall i :: 0 <= i < |keys| ==> r[i].0 == keys[i] && LangGet(db, keys[i]) == Some(r[i].1)
  {
    seq(|keys|, i requires 0 <= i < |keys| && InLang(db, keys[i]) => (keys[i], LangGet(db, keys[i]).value))
  }

  /** `super_search_language_db(id_contains, en_contains, ja_contains)`: the
      entries of the keys that pass all three filters, in table order, or
      404 when none does. `count` is the number of entries. */
  function SuperSearch(db: LangDb, idQ: Option<string>, enQ: Option<string>, jaQ: Option<string>)
    : (r: Reply<seq<(string, LangEntry)>>)
    ensures r.NotFound? <==> Candidates(db, idQ, enQ, jaQ) == []
    ensures r.NotFound? ==> r.detail == "No language keys found matching all criteria."
    ensures r.Reply? ==> |r.body| == |Candidates(db, idQ, enQ, jaQ)|
    ensures r.Reply? ==> forall i :: 0 <= i < |r.body| ==>
      r.body[i].0 == Candidates(db, idQ, enQ, jaQ)[i] && LangGet(db, r.body[i].0) == Some(r.body[i].1)
  {
    var keys := Candidates(db, idQ, enQ, jaQ);
    if keys == [] then NotFound("No language keys found matching all criteria.")
    else Reply(Entries(db, keys))
  }

  /** A key is in the search result exactly when it is in the table and
      passes every given parameter; the result keeps table order. */
  lemma SuperSearchIff(db: LangDb, idQ: Option<string>, enQ: Option<string>, jaQ: Option<string>, k: string)
    requires SuperSearch(db, idQ, enQ, jaQ).Reply?
    ensures (exists i :: 0 <= i < |SuperSearch(db, idQ, enQ, jaQ).body| && SuperSearch(db, idQ, enQ, jaQ).body[i].0 == k) <==>
      InLang(db, k) && Passes(db, k, idQ, IdField) && Passes(db, k, enQ, EnField) && Passes(db, k, jaQ, JaField)
    ensures SubSeq(Candidates(db, idQ, enQ, jaQ), LangKeys(db))
  {
    var keys := Candidates(db, idQ, enQ, jaQ);
    var body := SuperSearch(db, idQ, enQ, jaQ).body;
    if k in keys {
      var i :| 0 <= i < |keys| && keys[i] == k;
      assert body[i].0 == k;
    }
  }

  // -------------------------------------------------------- hero endpoints

  /** Python's `<=` on strings: code point by code point, a prefix first. */
  predicate StrLe(a: string, b: string)
    decreases |a|
  {
    a == [] || (b != [] && (a[0] < b[0] || (a[0] == b[0] && StrLe(a[1..], b[1..]))))
  }

  lemma {:induction false} StrLeTotal(a: string, b: string)
    ensures StrLe(a, b) || StrLe(b, a)
    decreases |a|
  {
    if a != [] && b != [] && a[0] == b[0] {
      StrLeTotal(a[1..], b[1..]);
    }
  }

  lemma {:induction false} StrLeTrans(a: string, b: string, c: string)
    requires StrLe(a, b) && StrLe(b, c)
    ensures StrLe(a, c)
    decreases |a|
  {
    if a != [] && a[0] == b[0] && b[0] == c[0] {
      StrLeTrans(a[1..], b[1..], c[1..]);
    }
  }

  predicate Sorted(s: seq<string>) {
    forall i, j :: 0 <= i < j < |s| ==> StrLe(s[i], s[j])
  }

  /** `x` is at most every element of `s`. */
  predicate Below(x: string, s: seq<string>) {
    forall j :: 0 <= j < |s| ==> StrLe(x, s[j])
  }

  lemma SortedCons(x: string, s: seq<string>)
    requires Sorted(s) && Below(x, s)
    ensures Sorted([x] + s)
  {
    forall i, j | 0 <= i < j < |[x] + s| ensures StrLe(([x] + s)[i], ([x] + s)[j]) {
      if i > 0 {
        assert ([x] + s)[i] == s[i - 1];
      }
      assert ([x] + s)[j] == s[j - 1];
    }
  }

  lemma BelowSorted(x: string, s: seq<string>)
    requires Sorted(s) && s != [] && StrLe(x, s[0])
    ensures Below(x, s)
  {
    forall j | 0 <= j < |s| ensures StrLe(x, s[j]) {
      if j > 0 {
        StrLeTrans(x, s[0], s[j]);
      }
    }
  }

  lemma BelowPerm(x: string, s: seq<string>, t: seq<string>, y: string)
    requires Below(x, s) && StrLe(x, y) && multiset(t) == multiset(s) + multiset{y}
    ensures Below(x, t)
  {
    forall j | 0 <= j < |t| ensures StrLe(x, t[j]) {
      assert t[j] in multiset(t);
      if t[j] != y {
        assert t[j] in multiset(s);
        var k :| 0 <= k < |s| && s[k] == t[j];
      }
    }
  }

  /** One step of insertion sort. */
  function Insert(x: string, s: seq<string>): (r: seq<string>)
    requires Sorted(s)
    ensures Sorted(r) && multiset(r) == multiset(s) + multiset{x}
  {
    if s == [] then [x]
    else if StrLe(x, s[0]) then
      BelowSorted(x, s);
      SortedCons(x, s);
      [x] + s
    else
      StrLeTotal(x, s[0]);
      assert Below(s[0], s[1..]) && Sorted(s[1..]);
      var rest := Insert(x, s[1..]);
      BelowPerm(s[0], s[1..], rest, x);
      SortedCons(s[0], rest);
      assert s == [s[0]] + s[1..];
      [s[0]] + rest
  }

  /** `sorted(xs)` */
  function SortIds(xs: seq<string>): (r: seq<string>)
    ensures Sorted(r) && multiset(r) == multiset(xs)
  {
    if xs == [] then []
    else
      assert xs == [xs[0]] + xs[1..];
      Insert(xs[0], SortIds(xs[1..]))
  }

  /** `get_all_hero_ids()`: the hero ids in sorted order, each once per
      entry. */
  function GetAllHeroIds(heroes: Fields): (r: seq<string>)
    ensures Sorted(r) && multiset(r) == multiset(Keys(heroes))
  {
    SortIds(Keys(heroes))
  }

  /** `get_hero_data(hero_id)`: the hero's record, or 404 when the id is
      unknown or its record is empty. */
  function GetHeroData(heroes: Fields, heroId: string): (r: Reply<Json>)
    ensures r.NotFound? <==> !Truthy(GetJ(heroes, heroId))
    ensures r.NotFound? ==> r.detail == "Hero with ID '" + heroId + "' not found."
    ensures r.Reply? ==> r.body == JObj([("hero_id", JStr(heroId)), ("data", GetJ(heroes, heroId))])
  {
    var heroData := GetJ(heroes, heroId);
    if !Truthy(heroData) then NotFound("Hero with ID '" + heroId + "' not found.")
    else Reply(JObj([("hero_id", JStr(heroId)), ("data", heroData)]))
  }

  /** An id the data does not hold is a 404. */
  lemma UnknownHeroNotFound(heroes: Fields, heroId: string)
    requires !Has(heroes, heroId)
    ensures GetHeroData(heroes, heroId) == NotFound("Hero with ID '" + heroId + "' not found.")
  {
  }

  /** A listed hero with a non-empty record is served with that record. */
  lemma KnownHeroServed(heroes: Fields, i: nat)
    requires UniqueKeys(heroes) && i < |heroes| && Truthy(heroes[i].1)
    ensures GetHeroData(heroes, heroes[i].0) == Reply(JObj([("hero_id", JStr(heroes[i].0)), ("data", heroes[i].1)]))
  {
    assert heroes[i].0 in Keys(heroes);
    var k := IndexOf(heroes, heroes[i].0);
    assert k == i;
  }
}
