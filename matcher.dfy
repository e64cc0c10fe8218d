/** The template matcher: keyword collection from an effect block
    (`_collect_keywords_recursively`) and the choice of a language key for
    it (`find_best_lang_id`). */
module Matcher {
  import opened Strings
  import opened Json
  import opened Values

  /** `max_depth` of the keyword collection. */
  const MaxDepth: nat := 3

  /** `key.lower().replace("id", "").replace("type", "")` */
  function KeyKeyword(k: string): string {
    ReplaceAll(ReplaceAll(Lower(k), "id", ""), "type", "")
  }

  /** `_collect_keywords_recursively(x, depth)`: (keyword, depth) pairs in
      visiting order. A dict yields each processed key one level deeper and
      each string value at its own depth, and descends into list values
      only; a list yields its items' keywords at the same depth; nothing
      deeper than `MaxDepth` is visited. */
  function Collect(x: Json, depth: nat): (r: seq<(string, nat)>)
    ensures forall i :: 0 <= i < |r| ==> depth <= r[i].1 <= MaxDepth + 1
    decreases Size(x), 1, 0
  {
    if depth > MaxDepth then []
    else
      match x
      case JObj(fs) => CollectFields(fs, depth, |fs|)
      case JList(xs) => CollectItems(xs, depth, |xs|)
      case _ => []
  }

  /** The keywords of the first n fields of a dict. */
  function CollectFields(fs: Fields, depth: nat, n: nat): (r: seq<(string, nat)>)
    requires n <= |fs| && depth <= MaxDepth
    ensures forall i :: 0 <= i < |r| ==> depth <= r[i].1 <= MaxDepth + 1
    decreases Size(JObj(fs)), 0, n
  {
    if n == 0 then []
    else
      var k, v := fs[n - 1].0, fs[n - 1].1;
      FieldSmaller(fs, n - 1);
      CollectFields(fs, depth, n - 1) + [(KeyKeyword(k), depth + 1)] +
      (if v.JStr? then [(Lower(v.s), depth)]
       else if v.JList? then CollectItems(v.items, depth + 1, |v.items|)
       else [])
  }

  /** The keywords of the first n items of a list. */
  function CollectItems(xs: seq<Json>, depth: nat, n: nat): (r: seq<(string, nat)>)
    requires n <= |xs| && depth <= MaxDepth + 1
    ensures forall i :: 0 <= i < |r| ==> depth <= r[i].1 <= MaxDepth + 1
    decreases Size(JList(xs)), 0, n
  {
    if n == 0 then []
    else
      ItemSmaller(xs, n - 1);
      CollectItems(xs, depth, n - 1) + Collect(xs[n - 1], depth)
  }

  /** Two dicts that agree on their first n fields agree on those fields'
      keywords. */
  lemma {:induction false} CollectFieldsPrefix(a: Fields, b: Fields, depth: nat, n: nat)
    requires n <= |a| && n <= |b| && depth <= MaxDepth && a[..n] == b[..n]
    ensures CollectFields(a, depth, n) == CollectFields(b, depth, n)
  {
    if n > 0 {
      assert a[n - 1] == a[..n][n - 1] == b[..n][n - 1] == b[n - 1];
      assert a[..n - 1] == a[..n][..n - 1] == b[..n][..n - 1] == b[..n - 1];
      CollectFieldsPrefix(a, b, depth, n - 1);
    }
  }

  /** A dict-valued field contributes only its own key: the `"parent"`
      block added by the matcher yields the single keyword `"parent"`,
      whatever the parent holds. */
  lemma ParentOnlyName(fs: Fields, p: Json)
    requires !Has(fs, "parent") && p.JObj?
    ensures Collect(JObj(Put(fs, "parent", p)), 0) == Collect(JObj(fs), 0) + [("parent", 1)]
  {
    NewDictField(fs, "parent", p);
    ParentKeyword();
  }

  /** A new dict-valued field adds its key's keyword and nothing else. */
  lemma NewDictField(fs: Fields, k: string, p: Json)
    requires !Has(fs, k) && p.JObj?
    ensures Collect(JObj(Put(fs, k, p)), 0) == Collect(JObj(fs), 0) + [(KeyKeyword(k), 1)]
  {
    PutNew(fs, k, p);
    var ext := fs + [(k, p)];
    assert ext[..|fs|] == fs[..|fs|];
    CollectFieldsPrefix(ext, fs, 0, |fs|);
    assert CollectFields(ext, 0, |ext|) == CollectFields(ext, 0, |fs|) + [(KeyKeyword(k), 1)];
  }

  lemma ParentKeyword()
    ensures KeyKeyword("parent") == "parent"
  {
    assert Lower("parent") == "parent";
    assert 'i' in "id" && 'y' in "type";
    MissingCharAbsent("parent", "id", 'i');
    ReplaceAbsent("parent", "id", "");
    MissingCharAbsent("parent", "type", 'y');
    ReplaceAbsent("parent", "type", "");
  }

  /** A string holds no substring with a character it lacks. */
  lemma {:induction false} MissingCharAbsent(s: string, sub: string, c: char)
    requires c in sub && c !in s
    ensures !Contains(s, sub)
    decreases |s|
  {
    if |s| > 0 {
      MissingCharAbsent(s[1..], sub, c);
    }
  }

  // ------------------------------------------------------ seen keywords

  /** `seen_keywords` after the first n pairs: each keyword with the
      smallest depth it was collected at. */
  function MinDepths(kws: seq<(string, nat)>, n: nat): (m: map<string, nat>)
    requires n <= |kws|
    ensures forall k :: k in m <==> exists i :: 0 <= i < n && kws[i].0 == k
    ensures forall i :: 0 <= i < n ==> m[kws[i].0] <= kws[i].1
    ensures forall k :: k in m ==> exists i :: 0 <= i < n && kws[i] == (k, m[k])
  {
    if n == 0 then map[]
    else
      var m := MinDepths(kws, n - 1);
      var k, d := kws[n - 1].0, kws[n - 1].1;
      if k !in m || d < m[k] then m[k := d] else m
  }

  // ------------------------------------------------------------ scoring

  function Pow2(d: nat): (r: nat)
    ensures r >= 1
  {
    if d == 0 then 1 else 2 * Pow2(d - 1)
  }

  /** `100 / (2 ** depth)` */
  function Weight(d: nat): (w: real)
    ensures w > 0.0
  {
    100.0 / (Pow2(d) as real)
  }

  /** A keyword one level deeper weighs half as much. */
  lemma WeightHalves(d: nat)
    ensures Weight(d + 1) == Weight(d) / 2.0
  {
    var p := Pow2(d) as real;
    assert Pow2(d + 1) as real == 2.0 * p;
  }

  /** The depth part of a key's score. The source sums over the seen
      keywords that equal a segment; that is the sum over the distinct
      segments that are seen keywords. */
  function SegmentScore(ds: seq<string>, seen: map<string, nat>): (s: real)
    ensures s >= 0.0
  {
    if ds == [] then 0.0
    else (if ds[0] in seen then Weight(seen[ds[0]]) else 0.0) + SegmentScore(ds[1..], seen)
  }

  lemma {:induction false} SharedSegmentCounts(ds: seq<string>, seen: map<string, nat>, p: string)
    requires p in ds && p in seen
    ensures SegmentScore(ds, seen) >= Weight(seen[p])
  {
    if ds[0] != p {
      SharedSegmentCounts(ds[1..], seen, p);
    }
  }

  /** `lang_key.lower().split('.')` */
  function Segments(key: string): seq<string> {
    Split(Lower(key), '.')
  }

  /** Some value of the block is a negative number. */
  predicate HasNegative(block: Fields) {
    exists i :: 0 <= i < |block| && IsNumeric(block[i].1) && AsReal(NumOf(block[i].1).value) < 0.0
  }

  /** The score of one language key: the depth-weighted segment matches,
      +20 for a minion familiar and an `allies` key, +20 for a parasite and
      an `enemies` key, +3 for `fixedpower` when `hasfixedpower` was seen,
      +2 for `decrement` when the block holds a negative number. */
  function Score(key: string, seen: map<string, nat>, block: Fields, familiarType: string): (s: real)
    ensures s >= SegmentScore(Dedup(Segments(key)), seen)
  {
    var parts := Segments(key);
    SegmentScore(Dedup(parts), seen) +
    (if familiarType != "" && Contains(familiarType, "minion") && "allies" in parts then 20.0 else 0.0) +
    (if familiarType != "" && Contains(familiarType, "parasite") && "enemies" in parts then 20.0 else 0.0) +
    (if "fixedpower" in parts && "hasfixedpower" in seen then 3.0 else 0.0) +
    (if "decrement" in parts && HasNegative(block) then 2.0 else 0.0)
  }

  /** A key with a segment equal to a collected keyword scores above zero. */
  lemma SharedSegmentScores(key: string, seen: map<string, nat>, block: Fields, familiarType: string, p: string)
    requires p in Segments(key) && p in seen
    ensures Score(key, seen, block, familiarType) > 0.0
  {
    SharedSegmentCounts(Dedup(Segments(key)), seen, p);
  }

  /** The keys among the first n that score above zero, each with its
      score, in key order. */
  function Positives(keys: seq<string>, sc: string -> real, n: nat): (r: seq<Cand>)
    requires n <= |keys|
  {
    if n == 0 then []
    else
      var r := Positives(keys, sc, n - 1);
      r + (if sc(keys[n - 1]) > 0.0 then [Cand(keys[n - 1], sc(keys[n - 1]))] else [])
  }

  /** `idx` maps each positive candidate to the position of its key:
      positions rise, and every key scoring above zero has one. */
  predicate PositiveIndex(cs: seq<Cand>, keys: seq<string>, sc: string -> real, n: nat, idx: seq<nat>)
    requires n <= |keys|
  {
    |idx| == |cs| &&
    (forall k :: 0 <= k < |idx| ==>
       idx[k] < n && cs[k] == Cand(keys[idx[k]], sc(keys[idx[k]])) && sc(keys[idx[k]]) > 0.0) &&
    (forall k, l :: 0 <= k < l < |idx| ==> idx[k] < idx[l]) &&
    (forall i :: 0 <= i < n && sc(keys[i]) > 0.0 ==> i in idx)
  }

  /** The positive candidates keep the order of the keys. */
  lemma {:induction false} PositivesInOrder(keys: seq<string>, sc: string -> real, n: nat) returns (idx: seq<nat>)
    requires n <= |keys|
    ensures PositiveIndex(Positives(keys, sc, n), keys, sc, n, idx)
  {
    if n == 0 {
      idx := [];
    } else {
      var pidx := PositivesInOrder(keys, sc, n - 1);
      PositivesStep(keys, sc, n - 1);
      if sc(keys[n - 1]) > 0.0 {
        idx := pidx + [n - 1];
        PositiveIndexSnoc(Positives(keys, sc, n - 1), Positives(keys, sc, n), keys, sc, n - 1, pidx);
      } else {
        idx := pidx;
        PositiveIndexSkip(Positives(keys, sc, n - 1), keys, sc, n - 1, pidx);
      }
    }
  }

  /** Every positive candidate is a key with its score, and every key
      scoring above zero is a candidate. */
  lemma PositivesMembers(keys: seq<string>, sc: string -> real, n: nat)
    requires n <= |keys|
    ensures forall c :: c in Positives(keys, sc, n) ==> c.key in keys[..n] && c.score == sc(c.key) && c.score > 0.0
    ensures forall i :: 0 <= i < n && sc(keys[i]) > 0.0 ==> Cand(keys[i], sc(keys[i])) in Positives(keys, sc, n)
  {
    var cs := Positives(keys, sc, n);
    var idx := PositivesInOrder(keys, sc, n);
    forall c | c in cs ensures c.key in keys[..n] && c.score == sc(c.key) && c.score > 0.0 {
      var k :| 0 <= k < |cs| && cs[k] == c;
      assert keys[..n][idx[k]] == keys[idx[k]];
    }
    forall i | 0 <= i < n && sc(keys[i]) > 0.0 ensures Cand(keys[i], sc(keys[i])) in cs {
      var k :| 0 <= k < |idx| && idx[k] == i;
      assert cs[k] == Cand(keys[i], sc(keys[i]));
    }
  }

  lemma PositivesStep(keys: seq<string>, sc: string -> real, i: nat)
    requires i < |keys|
    ensures Positives(keys, sc, i + 1) ==
      Positives(keys, sc, i) + (if sc(keys[i]) > 0.0 then [Cand(keys[i], sc(keys[i]))] else [])
  {
  }

  lemma PositiveIndexSnoc(cs: seq<Cand>, cs': seq<Cand>, keys: seq<string>, sc: string -> real, n: nat, idx: seq<nat>)
    requires n < |keys| && PositiveIndex(cs, keys, sc, n, idx) && sc(keys[n]) > 0.0
    requires |cs'| == |cs| + 1 && cs'[..|cs|] == cs && cs'[|cs|] == Cand(keys[n], sc(keys[n]))
    ensures PositiveIndex(cs', keys, sc, n + 1, idx + [n])
  {
    var idx' := idx + [n];
    forall k | 0 <= k < |idx'|
      ensures idx'[k] < n + 1 && cs'[k] == Cand(keys[idx'[k]], sc(keys[idx'[k]])) && sc(keys[idx'[k]]) > 0.0
    {
      if k < |idx| {
        assert cs'[k] == cs[k] && idx'[k] == idx[k];
      }
    }
    forall i | 0 <= i < n + 1 && sc(keys[i]) > 0.0 ensures i in idx' {
      if i < n {
        assert i in idx;
      }
    }
  }

  lemma PositiveIndexSkip(cs: seq<Cand>, keys: seq<string>, sc: string -> real, n: nat, idx: seq<nat>)
    requires n < |keys| && PositiveIndex(cs, keys, sc, n, idx) && sc(keys[n]) <= 0.0
    ensures PositiveIndex(cs, keys, sc, n + 1, idx)
  {
  }

  /** The best positive candidate's key is the first, in key order, that no
      earlier key beats or ties: each earlier key scores less, or the same
      with a longer key. */
  lemma PositivesFirst(keys: seq<string>, sc: string -> real)
    requires Positives(keys, sc, |keys|) != []
    ensures var r := BestCand(Positives(keys, sc, |keys|)).key;
      exists i :: 0 <= i < |keys| && keys[i] == r && forall j :: 0 <= j < i ==>
        sc(keys[j]) < sc(r) || (sc(keys[j]) == sc(r) && |r| < |keys[j]|)
  {
    var idx := PositivesInOrder(keys, sc, |keys|);
    IndexedFirst(Positives(keys, sc, |keys|), keys, sc, |keys|, idx);
  }

  lemma IndexedFirst(cs: seq<Cand>, keys: seq<string>, sc: string -> real, n: nat, idx: seq<nat>)
    requires n <= |keys| && cs != [] && PositiveIndex(cs, keys, sc, n, idx)
    ensures var r := BestCand(cs).key;
      exists i :: 0 <= i < |keys| && keys[i] == r && forall j :: 0 <= j < i ==>
        sc(keys[j]) < sc(r) || (sc(keys[j]) == sc(r) && |r| < |keys[j]|)
  {
    var best := BestCand(cs);
    var m :| 0 <= m < |cs| && cs[m] == best && forall j :: 0 <= j < m ==> Better(best, cs[j]);
    EarlierKeys(cs, keys, sc, n, idx, m);
  }

  lemma EarlierKeys(cs: seq<Cand>, keys: seq<string>, sc: string -> real, n: nat, idx: seq<nat>, m: nat)
    requires n <= |keys| && PositiveIndex(cs, keys, sc, n, idx)
    requires m < |cs| && forall j :: 0 <= j < m ==> Better(cs[m], cs[j])
    ensures idx[m] < |keys| && keys[idx[m]] == cs[m].key
    ensures forall j :: 0 <= j < idx[m] ==>
      sc(keys[j]) < sc(cs[m].key) || (sc(keys[j]) == sc(cs[m].key) && |cs[m].key| < |keys[j]|)
  {
    var i := idx[m];
    assert cs[m] == Cand(keys[i], sc(keys[i])) && sc(keys[i]) > 0.0;
    forall j | 0 <= j < i
      ensures sc(keys[j]) < sc(keys[i]) || (sc(keys[j]) == sc(keys[i]) && |keys[i]| < |keys[j]|)
    {
      if sc(keys[j]) > 0.0 {
        var k :| 0 <= k < |idx| && idx[k] == j;
        RisingBefore(idx, k, m);
        BetterEarlier(cs[m], cs[k], keys[j], sc(keys[j]));
      }
    }
  }

  lemma BetterEarlier(best: Cand, c: Cand, key: string, score: real)
    requires Better(best, c) && c == Cand(key, score)
    ensures score < best.score || (score == best.score && |best.key| < |key|)
  {
  }

  /** In a strictly rising sequence, a smaller value sits earlier. */
  lemma RisingBefore(idx: seq<nat>, k: nat, m: nat)
    requires k < |idx| && m < |idx| && idx[k] < idx[m]
    requires forall a, b :: 0 <= a < b < |idx| ==> idx[a] < idx[b]
    ensures k < m
  {
  }

  /** The scores of the keys in one block's context. */
  function ScoreFn(seen: map<string, nat>, block: Fields, ft: string): string -> real {
    k => Score(k, seen, block, ft)
  }

  /** `potential_matches` over the first n keys: those scoring above zero. */
  function Matches(subset: seq<string>, seen: map<string, nat>, block: Fields, ft: string, n: nat): (r: seq<Cand>)
    requires n <= |subset|
    ensures forall c :: c in r ==> c.key in subset[..n] && c.score == Score(c.key, seen, block, ft) && c.score > 0.0
    ensures forall i :: 0 <= i < n && Score(subset[i], seen, block, ft) > 0.0 ==> Cand(subset[i], Score(subset[i], seen, block, ft)) in r
  {
    PositivesMembers(subset, ScoreFn(seen, block, ft), n);
    Positives(subset, ScoreFn(seen, block, ft), n)
  }

  // ------------------------------------------------------- the matcher

  /** `buff_map`: the intensity named by a buff, "" when there is none. */
  function BuffIntensity(buff: string): string {
    if buff == "MinorDebuff" || buff == "MinorBuff" then "minor"
    else if buff == "MajorDebuff" || buff == "MajorBuff" then "major"
    else if buff == "PermanentDebuff" || buff == "PermanentBuff" then "permanent"
    else ""
  }

  const StatusPrefix := "specials.v2.statuseffect."

  /** A text field lowered, "" when missing or not text. */
  function LoweredOr(fs: Fields, k: string): string {
    var v := GetOr(fs, k, JStr(""));
    if v.JStr? then Lower(v.s) else ""
  }

  /** The deterministic status-effect id, when intensity, effect, target
      and side all resolve; target and side come from the parent block when
      there is a non-empty one. An unhashable `buff` raises TypeError. */
  function StatusEffectId(block: Fields, parent: Option<Fields>): (r: Outcome<Option<string>>)
    ensures r.Crash? <==> !Hashable(GetJ(block, "buff"))
    ensures r.Ok? && r.value.Some? ==> StartsWith(r.value.value, StatusPrefix)
  {
    var buff := GetJ(block, "buff");
    if !Hashable(buff) then Crash("TypeError: unhashable type: '" + TypeName(buff) + "'")
    else
      var intensity := if buff.JStr? then BuffIntensity(buff.s) else "";
      var effect := LoweredOr(block, "statusEffect");
      var src := if parent.Some? && parent.value != [] then parent.value else block;
      var target := LoweredOr(src, "statusTargetType");
      var side := LoweredOr(src, "sideAffected");
      if intensity != "" && effect != "" && target != "" && side != "" then
        PrefixStarts(StatusPrefix, intensity + "." + effect + "." + target + "." + side);
        Ok(Some(StatusPrefix + (intensity + "." + effect + "." + target + "." + side)))
      else Ok(None)
  }

  /** The matcher's answer: a key, or the warning that none was found. */
  datatype Choice = Chosen(key: string) | NoMatch(warning: string)

  /** One `familiar_debug_log` entry (its top-candidate list is not
      modelled). */
  datatype LogEntry = LogEntry(familiarId: Json, chosen: string)

  /** Every key scoring above zero is among the matches. */
  lemma MatchesComplete(subset: seq<string>, seen: map<string, nat>, block: Fields, ft: string)
    ensures forall k :: k in subset && Score(k, seen, block, ft) > 0.0 ==>
      Cand(k, Score(k, seen, block, ft)) in Matches(subset, seen, block, ft, |subset|)
  {
    forall k | k in subset && Score(k, seen, block, ft) > 0.0
      ensures Cand(k, Score(k, seen, block, ft)) in Matches(subset, seen, block, ft, |subset|)
    {
      var i :| 0 <= i < |subset| && subset[i] == k;
    }
  }

  /** The best-scoring key: its score is positive, no key scores more, and
      an equal score goes to the shorter key; there is none exactly when no
      key scores above zero. */
  function Pick(subset: seq<string>, seen: map<string, nat>, block: Fields, ft: string): (r: Option<string>)
    ensures r.Some? ==> r.value in subset && Score(r.value, seen, block, ft) > 0.0
    ensures r.Some? ==> forall k :: k in subset ==>
      Score(k, seen, block, ft) <= Score(r.value, seen, block, ft) &&
      (Score(k, seen, block, ft) == Score(r.value, seen, block, ft) ==> |r.value| <= |k|)
    ensures r.None? <==> forall k :: k in subset ==> Score(k, seen, block, ft) <= 0.0
    ensures r.Some? ==>
      exists i :: 0 <= i < |subset| && subset[i] == r.value && forall j :: 0 <= j < i ==>
        Score(subset[j], seen, block, ft) < Score(r.value, seen, block, ft) ||
        (Score(subset[j], seen, block, ft) == Score(r.value, seen, block, ft) && |r.value| < |subset[j]|)
  {
    var ms := Matches(subset, seen, block, ft, |subset|);
    MatchesComplete(subset, seen, block, ft);
    assert subset[..|subset|] == subset;
    if ms == [] then None
    else
      PositivesFirst(subset, ScoreFn(seen, block, ft));
      Some(BestCand(ms).key)
  }

  /** `{**data_block, "parent": parent_block}` */
  function Contextual(block: Fields, parent: Option<Fields>): Fields {
    Put(block, "parent", if parent.Some? then JObj(parent.value) else JNull)
  }

  /** The seen keywords of a block in its context. */
  function SeenOf(block: Fields, parent: Option<Fields>): map<string, nat> {
    var kws := Collect(JObj(Contextual(block, parent)), 0);
    MinDepths(kws, |kws|)
  }

  /** `data_block.get("familiarType", "").lower()` */
  function FamiliarTypeText(block: Fields): Outcome<string> {
    LowerOf(GetOr(block, "familiarType", JStr("")))
  }

  /** The familiar type the scores use: it is read only when there is a
      key to score. */
  function TypeTextFor(block: Fields, subset: seq<string>): string {
    if subset == [] then ""
    else match FamiliarTypeText(block)
      case Ok(s) => s
      case Crash(_) => ""
  }

  /** `propertyType or statusEffect or familiarType or 'N/A'` */
  function PrimaryType(block: Fields): Json {
    if Truthy(GetJ(block, "propertyType")) then GetJ(block, "propertyType")
    else if Truthy(GetJ(block, "statusEffect")) then GetJ(block, "statusEffect")
    else if Truthy(GetJ(block, "familiarType")) then GetJ(block, "familiarType")
    else JStr("N/A")
  }

  function NoMatchWarning(block: Fields): string {
    "Could not find lang_id for skill '" + PyStr(GetOr(block, "id", JStr("UNKNOWN"))) +
    "' (type: " + PyStr(PrimaryType(block)) + ")"
  }

  /** The deterministic step applies. */
  predicate DeterministicHit(block: Fields, subset: seq<string>, parent: Option<Fields>) {
    Has(block, "statusEffect") && StatusEffectId(block, parent).Ok? &&
    StatusEffectId(block, parent).value.Some? && StatusEffectId(block, parent).value.value in subset
  }

  /** `find_best_lang_id(data_block, lang_key_subset, parsers, parent_block)`:
      the choice and the debug-log entries it appends (one for a familiar
      block chosen by scoring). */
  function FindBest(block: Fields, subset: seq<string>, parent: Option<Fields>): (r: Outcome<(Choice, seq<LogEntry>)>)
    ensures DeterministicHit(block, subset, parent) ==>
      r == Ok((Chosen(StatusEffectId(block, parent).value.value), []))
    ensures r.Ok? && !DeterministicHit(block, subset, parent) ==>
      r.value.0 == (if Pick(subset, SeenOf(block, parent), block, TypeTextFor(block, subset)).Some?
                    then Chosen(Pick(subset, SeenOf(block, parent), block, TypeTextFor(block, subset)).value)
                    else NoMatch(NoMatchWarning(block)))
    ensures r.Ok? && r.value.0.Chosen? ==> r.value.0.key in subset
    ensures r.Ok? ==> r.value.1 == if !DeterministicHit(block, subset, parent) && r.value.0.Chosen? &&
      Truthy(GetJ(block, "familiarType")) then [LogEntry(GetJ(block, "id"), r.value.0.key)] else []
    ensures r.Crash? <==>
      (Has(block, "statusEffect") && StatusEffectId(block, parent).Crash?) ||
      (!DeterministicHit(block, subset, parent) && subset != [] && FamiliarTypeText(block).Crash?)
  {
    var det :- if Has(block, "statusEffect") then StatusEffectId(block, parent) else Ok(None);
    if det.Some? && det.value in subset then Ok((Chosen(det.value), []))
    else
      var ft :- if subset == [] then Ok("") else FamiliarTypeText(block);
      match Pick(subset, SeenOf(block, parent), block, ft)
      case None => Ok((NoMatch(NoMatchWarning(block)), []))
      case Some(best) =>
        Ok((Chosen(best), if Truthy(GetJ(block, "familiarType")) then [LogEntry(GetJ(block, "id"), best)] else []))
  }

  /** Every key with a segment equal to a keyword of the block is a
      candidate, so the matcher never reports no match for it. */
  lemma SharedKeywordFinds(block: Fields, subset: seq<string>, parent: Option<Fields>, key: string, p: string)
    requires key in subset && p in Segments(key) && p in SeenOf(block, parent)
    requires FindBest(block, subset, parent).Ok?
    ensures FindBest(block, subset, parent).value.0.Chosen?
  {
    if !DeterministicHit(block, subset, parent) {
      SharedSegmentScores(key, SeenOf(block, parent), block, TypeTextFor(block, subset), p);
    }
  }
}
