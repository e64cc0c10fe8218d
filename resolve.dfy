/** Resolution of a hero record against the master table
    (`get_full_hero_data`, `_resolve_recursive`). The source works on a
    fresh JSON copy of every tree it touches, so the model works on values
    and returns the resolved tree. The set of master identifiers already
    expanded is threaded through the whole walk as the source shares it. */
module Resolve {
  import opened Strings
  import opened Json

  /** `game_db['master_db']`: identifier to master record. */
  type Master = map<string, Fields>

  /** A key that names a master identifier (`key.lower().endswith('id')`). */
  predicate IsIdKey(k: string) { EndsWith(Lower(k), "id") }

  function DetailsKey(k: string): string { k + "_details" }

  /** A `_details` key never looks like an identifier key, so inserting one
      cannot disturb the identifier fields. */
  lemma DetailsKeyIsNoIdKey(k: string)
    ensures !IsIdKey(DetailsKey(k))
  {
    var d := DetailsKey(k);
    assert d[|d| - 1] == 's';
    LowerAt(d);
    assert Lower(d)[|d| - 1] == LowerChar('s');
  }

  predicate IsContainer(j: Json) { j.JObj? || j.JList? }

  /** The master identifiers not yet expanded: the measure that makes the
      walk terminate on cyclic master data. */
  function Unexpanded(master: Master, seen: set<string>): nat {
    |master.Keys - seen|
  }

  lemma {:induction false} SubsetCard(a: set<string>, b: set<string>)
    requires a <= b
    ensures |a| <= |b|
    decreases |b|
  {
    if a != {} {
      var x :| x in a;
      SubsetCard(a - {x}, b - {x});
    }
  }

  lemma UnexpandedShrinks(master: Master, a: set<string>, b: set<string>)
    requires a <= b
    ensures Unexpanded(master, b) <= Unexpanded(master, a)
  {
    SubsetCard(master.Keys - b, master.Keys - a);
  }

  lemma ExpandShrinks(master: Master, a: set<string>, b: set<string>, id: string)
    requires a <= b && id in master && id !in b
    ensures Unexpanded(master, b + {id}) < Unexpanded(master, a)
  {
    var small, big := master.Keys - (b + {id}), master.Keys - a;
    assert id in big && small <= big - {id};
    SubsetCard(small, big - {id});
  }

  predicate Distinct(log: seq<string>) {
    forall i, j :: 0 <= i < j < |log| ==> log[i] != log[j]
  }

  /** The walk from `seen` to `seen'` expanded exactly the identifiers of
      `log`, each one once, each one a master identifier not seen before. */
  ghost predicate Expanded(master: Master, seen: set<string>, seen': set<string>, log: seq<string>) {
    Distinct(log) &&
    (forall id :: id in log ==> id in master && id !in seen) &&
    seen' == seen + (set id | id in log)
  }

  lemma ExpandedNothing(master: Master, seen: set<string>)
    ensures Expanded(master, seen, seen, [])
  {
  }

  lemma ExpandedChain(master: Master, s0: set<string>, s1: set<string>, s2: set<string>,
                      l1: seq<string>, l2: seq<string>)
    requires Expanded(master, s0, s1, l1) && Expanded(master, s1, s2, l2)
    ensures Expanded(master, s0, s2, l1 + l2)
  {
    var l := l1 + l2;
    forall i, j | 0 <= i < j < |l| ensures l[i] != l[j] {
      if j >= |l1| && i < |l1| {
        assert l[i] in l1 && l[j] in l2;
      } else if i >= |l1| {
        assert l[i] == l2[i - |l1|] && l[j] == l2[j - |l1|];
      }
    }
    assert (set id | id in l) == (set id | id in l1) + (set id | id in l2);
  }

  lemma ExpandedOne(master: Master, seen: set<string>, id: string)
    requires id in master && id !in seen
    ensures Expanded(master, seen, seen + {id}, [id])
  {
    assert (set x | x in [id]) == {id};
  }

  /** Every entry for key k holds a string. */
  predicate OnlyStrings(fs: Fields, k: string) {
    forall j :: 0 <= j < |fs| && fs[j].0 == k ==> fs[j].1.JStr?
  }

  predicate IsDetailsSibling(fs: Fields, k: string) {
    exists j :: 0 <= j < |fs| && IsIdKey(fs[j].0) && k == DetailsKey(fs[j].0)
  }

  /** What resolving a dict may do to it: keys stay, the only new keys are
      `_details` siblings of identifier keys, and string identifier fields
      keep their values. */
  ghost predicate KeptFields(fs: Fields, r: Fields) {
    (forall k :: Has(fs, k) ==> Has(r, k)) &&
    (forall k :: Has(r, k) ==> Has(fs, k) || IsDetailsSibling(fs, k)) &&
    (forall k :: IsIdKey(k) && OnlyStrings(fs, k) ==> Get(r, k) == Get(fs, k))
  }

  /** What resolving may do to a list element: dicts stay dicts, lists stay
      lists, a string may become a resolved record, other values stay. */
  predicate KeptItem(a: Json, b: Json) {
    (a.JObj? ==> b.JObj?) &&
    (a.JList? ==> b.JList?) &&
    (a.JStr? ==> b == a || b.JObj?) &&
    (!IsContainer(a) && !a.JStr? ==> b == a)
  }

  ghost predicate Resolves(x: Json, y: Json) {
    (x.JObj? ==> y.JObj? && KeptFields(x.fields, y.fields)) &&
    (x.JList? ==>
       y.JList? && |y.items| == |x.items| &&
       forall j :: 0 <= j < |x.items| ==> KeptItem(x.items[j], y.items[j])) &&
    (!IsContainer(x) ==> y == x)
  }

  /** The identifier a list element is looked up by. */
  function ItemId(item: Json): Json {
    if item.JStr? then item
    else if item.JObj? then GetJ(item.fields, "id")
    else JNull
  }

  /** The outcome of a walk and the identifiers processed once it ends. */
  datatype Walk<T> = Walk(out: Outcome<T>, seen: set<string>)

  /** The resolved copy of `x`, as a function: dicts and lists are walked,
      everything else is left as it is. */
  function Resolved(x: Json, master: Master, seen: set<string>): (w: Walk<Json>)
    ensures seen <= w.seen
    ensures w.out.Ok? && x.JObj? ==> w.out.value.JObj?
    decreases Unexpanded(master, seen), Size(x), 2
  {
    match x
    case JObj(fs) =>
      var w := ResolvedFrom(fs, 0, fs, {}, master, seen);
      Walk(if w.out.Ok? then Ok(JObj(w.out.value)) else Crash(w.out.reason), w.seen)
    case JList(xs) =>
      var w := ResolvedItemsFrom(xs, 0, xs, master, seen);
      Walk(if w.out.Ok? then Ok(JList(w.out.value)) else Crash(w.out.reason), w.seen)
    case _ => Walk(Ok(x), seen)
  }

  /** The walk of a dict from its i-th item on, over the snapshot `fs` of
      its items, with `cur` the dict so far and `replaced` the `_details`
      keys written so far. */
  function ResolvedFrom(fs: Fields, i: nat, cur: Fields, replaced: set<string>,
                        master: Master, seen: set<string>): (w: Walk<Fields>)
    requires i <= |fs|
    ensures seen <= w.seen
    decreases Unexpanded(master, seen), Size(JObj(fs)), 1, |fs| - i
  {
    if i == |fs| then Walk(Ok(cur), seen)
    else
      var st := FieldWalk(fs, i, cur, replaced, master, seen);
      if st.out.Crash? then Walk(Crash(st.out.reason), seen)
      else
        UnexpandedShrinks(master, seen, st.seen);
        ResolvedFrom(fs, i + 1, st.out.value.0, st.out.value.1, master, st.seen)
  }

  /** The i-th item of a dict: a string under an identifier key that
      names an unexpanded master record gets the resolved record as a
      `<key>_details` sibling, which joins `replaced` (a later walk of such
      a key changes only the detached old value); a dict or list value is
      walked and written back. */
  function FieldWalk(fs: Fields, i: nat, cur: Fields, replaced: set<string>,
                     master: Master, seen: set<string>): (w: Walk<(Fields, set<string>)>)
    requires i < |fs|
    ensures seen <= w.seen
    decreases Unexpanded(master, seen), Size(JObj(fs)), 0
  {
    var k, v := fs[i].0, fs[i].1;
    FieldSmaller(fs, i);
    if IsIdKey(k) && v.JStr? then
      if v.s in master && v.s !in seen then
        ExpandShrinks(master, seen, seen, v.s);
        var sub := Resolved(JObj(master[v.s]), master, seen + {v.s});
        if sub.out.Crash? then Walk(Crash(sub.out.reason), seen)
        else Walk(Ok((Put(cur, DetailsKey(k), sub.out.value), replaced + {DetailsKey(k)})), sub.seen)
      else Walk(Ok((cur, replaced)), seen)
    else if IsContainer(v) then
      var sub := Resolved(v, master, seen);
      if sub.out.Crash? then Walk(Crash(sub.out.reason), seen)
      else Walk(Ok((if k in replaced then cur else Put(cur, k, sub.out.value), replaced)), sub.seen)
    else Walk(Ok((cur, replaced)), seen)
  }

  /** The walk of a list from its i-th element on, `cur` the list so far. */
  function ResolvedItemsFrom(xs: seq<Json>, i: nat, cur: seq<Json>, master: Master, seen: set<string>): (w: Walk<seq<Json>>)
    requires i <= |xs| == |cur|
    ensures seen <= w.seen
    ensures w.out.Ok? ==> |w.out.value| == |cur| && w.out.value[..i] == cur[..i]
    decreases Unexpanded(master, seen), Size(JList(xs)), 1, |xs| - i
  {
    if i == |xs| then Walk(Ok(cur), seen)
    else
      ItemSmaller(xs, i);
      var e := ResolvedItem(xs[i], master, seen);
      if e.out.Crash? then Walk(Crash(e.out.reason), seen)
      else
        UnexpandedShrinks(master, seen, e.seen);
        var w := ResolvedItemsFrom(xs, i + 1, cur[i := e.out.value], master, e.seen);
        assert w.out.Ok? ==> w.out.value[..i] == w.out.value[..i + 1][..i];
        w
  }

  /** One list element: a string naming an unexpanded master record
      becomes the resolved record, a dict whose `id` names one is updated
      with it; everything else is walked. */
  function ResolvedItem(item: Json, master: Master, seen: set<string>): (w: Walk<Json>)
    ensures seen <= w.seen
    decreases Unexpanded(master, seen), Size(item), 3
  {
    var itemId := ItemId(item);
    if Truthy(itemId) && !Hashable(itemId) then
      Walk(Crash("TypeError: unhashable type: '" + TypeName(itemId) + "'"), seen)
    else if Truthy(itemId) && itemId.JStr? && itemId.s in master && itemId.s !in seen then
      ExpandShrinks(master, seen, seen, itemId.s);
      var sub := Resolved(JObj(master[itemId.s]), master, seen + {itemId.s});
      Walk(if sub.out.Crash? || item.JStr? then sub.out
           else Ok(JObj(Update(item.fields, sub.out.value.fields))), sub.seen)
    else Resolved(item, master, seen)
  }

  /** `<key>_details` names tell their keys apart. */
  lemma DetailsKeyInjective(a: string, b: string)
    requires DetailsKey(a) == DetailsKey(b)
    ensures a == b
  {
    assert a == DetailsKey(a)[..|a|] && b == DetailsKey(b)[..|b|];
  }

  /** A `_details` key already written is not touched again by the rest of
      the dict walk, as long as no identifier key still to come has it as
      its `_details` name. */
  lemma {:induction false} ReplacedKept(fs: Fields, i: nat, cur: Fields, replaced: set<string>,
                                         master: Master, seen: set<string>, d: string)
    requires i <= |fs| && d in replaced
    requires forall m :: i <= m < |fs| && IsIdKey(fs[m].0) ==> DetailsKey(fs[m].0) != d
    requires ResolvedFrom(fs, i, cur, replaced, master, seen).out.Ok?
    ensures Get(ResolvedFrom(fs, i, cur, replaced, master, seen).out.value, d) == Get(cur, d)
    decreases |fs| - i
  {
    if i < |fs| {
      FromStep(fs, i, cur, replaced, master, seen);
      var st := FieldWalk(fs, i, cur, replaced, master, seen);
      var next := st.out.value.0;
      WalkKeepsReplaced(fs, i, cur, replaced, master, seen, d);
      ReplacedKept(fs, i + 1, next, st.out.value.1, master, st.seen, d);
    }
  }

  /** A dict walk that succeeds took its i-th item and went on from there. */
  lemma FromStep(fs: Fields, i: nat, cur: Fields, replaced: set<string>, master: Master, seen: set<string>)
    requires i < |fs| && ResolvedFrom(fs, i, cur, replaced, master, seen).out.Ok?
    ensures FieldWalk(fs, i, cur, replaced, master, seen).out.Ok?
    ensures var st := FieldWalk(fs, i, cur, replaced, master, seen);
      ResolvedFrom(fs, i, cur, replaced, master, seen) ==
      ResolvedFrom(fs, i + 1, st.out.value.0, st.out.value.1, master, st.seen)
  {
  }

  /** One item of the dict walk leaves a written `_details` key alone
      unless the item is the identifier field it belongs to. */
  lemma WalkKeepsReplaced(fs: Fields, i: nat, cur: Fields, replaced: set<string>,
                          master: Master, seen: set<string>, d: string)
    requires i < |fs| && d in replaced
    requires IsIdKey(fs[i].0) ==> DetailsKey(fs[i].0) != d
    requires FieldWalk(fs, i, cur, replaced, master, seen).out.Ok?
    ensures var next := FieldWalk(fs, i, cur, replaced, master, seen).out.value;
      Get(next.0, d) == Get(cur, d) && d in next.1
  {
    var k, v := fs[i].0, fs[i].1;
    var next := FieldWalk(fs, i, cur, replaced, master, seen).out.value.0;
    if IsIdKey(k) && v.JStr? && v.s in master && v.s !in seen {
      var sub := Resolved(JObj(master[v.s]), master, seen + {v.s});
      PutGet(cur, DetailsKey(k), sub.out.value, d);
    } else if !(IsIdKey(k) && v.JStr?) && IsContainer(v) && k !in replaced {
      var sub := Resolved(v, master, seen);
      PutGet(cur, k, sub.out.value, d);
    }
  }

  /** The dict walk keeps `KeptFields`: it writes only `_details` siblings
      and walked container values. */
  lemma {:induction false} FromKept(fs: Fields, i: nat, cur: Fields, replaced: set<string>,
                                     master: Master, seen: set<string>)
    requires i <= |fs| && KeptFields(fs, cur)
    requires ResolvedFrom(fs, i, cur, replaced, master, seen).out.Ok?
    ensures KeptFields(fs, ResolvedFrom(fs, i, cur, replaced, master, seen).out.value)
    decreases |fs| - i
  {
    if i < |fs| {
      FromStep(fs, i, cur, replaced, master, seen);
      var st := FieldWalk(fs, i, cur, replaced, master, seen);
      WalkKept(fs, i, cur, replaced, master, seen);
      FromKept(fs, i + 1, st.out.value.0, st.out.value.1, master, st.seen);
    }
  }

  lemma WalkKept(fs: Fields, i: nat, cur: Fields, replaced: set<string>, master: Master, seen: set<string>)
    requires i < |fs| && KeptFields(fs, cur)
    requires FieldWalk(fs, i, cur, replaced, master, seen).out.Ok?
    ensures KeptFields(fs, FieldWalk(fs, i, cur, replaced, master, seen).out.value.0)
  {
    var k, v := fs[i].0, fs[i].1;
    if IsIdKey(k) && v.JStr? && v.s in master && v.s !in seen {
      PutKeeps(fs, cur, DetailsKey(k), Resolved(JObj(master[v.s]), master, seen + {v.s}).out.value, i);
    } else if !(IsIdKey(k) && v.JStr?) && IsContainer(v) && k !in replaced {
      PutKeeps(fs, cur, k, Resolved(v, master, seen).out.value, i);
    }
  }

  /** When the dict walk reaches an identifier field whose string names a
      master record not processed yet, the finished dict holds that
      record's resolved copy under `<key>_details`
      (`current_data[f"{key}_details"] = new_data`). */
  lemma DetailsResolved(fs: Fields, i: nat, cur: Fields, replaced: set<string>, master: Master, seen: set<string>)
    requires i < |fs| && UniqueKeys(fs)
    requires IsIdKey(fs[i].0) && fs[i].1.JStr? && fs[i].1.s in master && fs[i].1.s !in seen
    requires ResolvedFrom(fs, i, cur, replaced, master, seen).out.Ok?
    ensures Resolved(JObj(master[fs[i].1.s]), master, seen + {fs[i].1.s}).out.Ok?
    ensures Get(ResolvedFrom(fs, i, cur, replaced, master, seen).out.value, DetailsKey(fs[i].0)) ==
            Some(Resolved(JObj(master[fs[i].1.s]), master, seen + {fs[i].1.s}).out.value)
  {
    var d := DetailsKey(fs[i].0);
    FromStep(fs, i, cur, replaced, master, seen);
    var st := FieldWalk(fs, i, cur, replaced, master, seen);
    var sub := Resolved(JObj(master[fs[i].1.s]), master, seen + {fs[i].1.s});
    PutGet(cur, d, sub.out.value, d);
    forall m | i + 1 <= m < |fs| && IsIdKey(fs[m].0) ensures DetailsKey(fs[m].0) != d {
      if DetailsKey(fs[m].0) == d {
        DetailsKeyInjective(fs[m].0, fs[i].0);
      }
    }
    ReplacedKept(fs, i + 1, st.out.value.0, st.out.value.1, master, st.seen, d);
  }

  /** A string list element naming a master record not processed yet is
      replaced by that record's resolved copy (`current_data[i] = new_data`). */
  lemma StringItemResolved(id: string, master: Master, seen: set<string>)
    requires id != "" && id in master && id !in seen
    ensures ResolvedItem(JStr(id), master, seen) == Resolved(JObj(master[id]), master, seen + {id})
  {
  }

  /** A dict list element whose `id` names a master record not processed
      yet is updated with that record's resolved copy
      (`current_data[i].update(new_data)`): the record's fields win, and
      every other field keeps its value. */
  lemma DictItemUpdated(fs: Fields, master: Master, seen: set<string>, k: string)
    requires GetJ(fs, "id").JStr? && GetJ(fs, "id").s != ""
    requires GetJ(fs, "id").s in master && GetJ(fs, "id").s !in seen
    requires UniqueKeys(master[GetJ(fs, "id").s])
    requires ResolvedItem(JObj(fs), master, seen).out.Ok?
    ensures var rec := Resolved(JObj(master[GetJ(fs, "id").s]), master, seen + {GetJ(fs, "id").s}).out.value.fields;
      ResolvedItem(JObj(fs), master, seen).out.value == JObj(Update(fs, rec)) &&
      Get(Update(fs, rec), k) == if Has(rec, k) then Get(rec, k) else Get(fs, k)
  {
    var id := GetJ(fs, "id").s;
    var rec := Resolved(JObj(master[id]), master, seen + {id}).out.value.fields;
    ResolvedUnique(JObj(master[id]), master, seen + {id});
    UpdateGet(fs, rec, k);
  }

  /** Resolution keeps a dict's keys unique: it only writes with `Put`. */
  lemma {:induction false} ResolvedUnique(x: Json, master: Master, seen: set<string>)
    requires x.JObj? && UniqueKeys(x.fields)
    requires Resolved(x, master, seen).out.Ok?
    ensures UniqueKeys(Resolved(x, master, seen).out.value.fields)
  {
    FromUnique(x.fields, 0, x.fields, {}, master, seen);
  }

  lemma {:induction false} FromUnique(fs: Fields, i: nat, cur: Fields, replaced: set<string>,
                                       master: Master, seen: set<string>)
    requires i <= |fs| && UniqueKeys(cur)
    requires ResolvedFrom(fs, i, cur, replaced, master, seen).out.Ok?
    ensures UniqueKeys(ResolvedFrom(fs, i, cur, replaced, master, seen).out.value)
    decreases |fs| - i
  {
    if i < |fs| {
      FromStep(fs, i, cur, replaced, master, seen);
      var st := FieldWalk(fs, i, cur, replaced, master, seen);
      var next := st.out.value.0;
      assert UniqueKeys(next) by {
        if next != cur {
          var k := if IsIdKey(fs[i].0) && fs[i].1.JStr? then DetailsKey(fs[i].0) else fs[i].0;
          var sub := if IsIdKey(fs[i].0) && fs[i].1.JStr? then Resolved(JObj(master[fs[i].1.s]), master, seen + {fs[i].1.s})
                     else Resolved(fs[i].1, master, seen);
          assert next == Put(cur, k, sub.out.value);
          PutUnique(cur, k, sub.out.value);
        }
      }
      FromUnique(fs, i + 1, next, st.out.value.1, master, st.seen);
    }
  }

  /** `_resolve_recursive(x, master_db, processed_ids)` on a copy of x:
      dicts and lists are walked, everything else is left as it is. */
  method ResolveValue(x: Json, master: Master, seen: set<string>)
    returns (r: Outcome<Json>, seen': set<string>, ghost log: seq<string>)
    ensures r == Resolved(x, master, seen).out && seen' == Resolved(x, master, seen).seen
    ensures r.Ok? ==> Expanded(master, seen, seen', log)
    ensures r.Ok? ==> Resolves(x, r.value)
    ensures !IsContainer(x) ==> r == Ok(x) && seen' == seen && log == []
    decreases Unexpanded(master, seen), Size(x), 2
  {
    match x {
      case JObj(fs) =>
        var fs';
        fs', seen', log := ResolveFields(fs, master, seen);
        r := if fs'.Ok? then Ok(JObj(fs'.value)) else Crash(fs'.reason);
      case JList(xs) =>
        var xs';
        xs', seen', log := ResolveItems(xs, master, seen);
        r := if xs'.Ok? then Ok(JList(xs'.value)) else Crash(xs'.reason);
      case _ =>
        r, seen', log := Ok(x), seen, [];
    }
  }

  /** No value to walk and every identifier string already expanded or
      not in the master table: a reference to an identifier expanded
      earlier is left as it is. */
  predicate NothingToDo(fs: Fields, master: Master, seen: set<string>) {
    forall j :: 0 <= j < |fs| ==>
      !IsContainer(fs[j].1) &&
      !(IsIdKey(fs[j].0) && fs[j].1.JStr? && fs[j].1.s in master && fs[j].1.s !in seen)
  }

  /** The dict case: a string under an identifier key that names an
      unexpanded master record gets the resolved record as a `<key>_details`
      sibling; dict and list values are walked. The loop runs over a
      snapshot of the items, as `list(current_data.items())` does. */
  method ResolveFields(fs: Fields, master: Master, seen: set<string>)
    returns (r: Outcome<Fields>, seen': set<string>, ghost log: seq<string>)
    ensures r == ResolvedFrom(fs, 0, fs, {}, master, seen).out
    ensures seen' == ResolvedFrom(fs, 0, fs, {}, master, seen).seen
    ensures r.Ok? ==> Expanded(master, seen, seen', log)
    ensures r.Ok? ==> KeptFields(fs, r.value)
    ensures NothingToDo(fs, master, seen) ==> r == Ok(fs) && seen' == seen
    decreases Unexpanded(master, seen), Size(JObj(fs)), 1
  {
    seen' := seen;
    log := [];
    var cur := fs;
    // keys whose value was replaced by a `_details` write in this loop: a
    // later walk of such a key changes only the detached old value
    var replaced: set<string> := {};
    ghost var total := ResolvedFrom(fs, 0, fs, {}, master, seen);
    var i := 0;
    while i < |fs|
      invariant 0 <= i <= |fs|
      invariant total == ResolvedFrom(fs, i, cur, replaced, master, seen')
      invariant Expanded(master, seen, seen', log)
      invariant NothingToDo(fs, master, seen) ==> cur == fs && seen' == seen
    {
      UnexpandedShrinks(master, seen, seen');
      var step, s2, l2 := ResolveField(fs, i, cur, replaced, master, seen');
      if step.Crash? {
        r := Crash(step.reason);
        return;
      }
      ExpandedChain(master, seen, seen', s2, log, l2);
      cur, replaced, seen', log := step.value.0, step.value.1, s2, log + l2;
      i := i + 1;
    }
    r := Ok(cur);
    FromKept(fs, 0, fs, {}, master, seen);
  }

  /** The i-th item of the dict walk; `replaced` holds the `_details` keys
      written so far. */
  method ResolveField(fs: Fields, i: nat, cur: Fields, replaced: set<string>, master: Master, seen: set<string>)
    returns (r: Outcome<(Fields, set<string>)>, seen': set<string>, ghost log: seq<string>)
    requires i < |fs|
    ensures r == FieldWalk(fs, i, cur, replaced, master, seen).out
    ensures r.Ok? ==> seen' == FieldWalk(fs, i, cur, replaced, master, seen).seen
    ensures r.Ok? ==> Expanded(master, seen, seen', log)
    ensures !IsContainer(fs[i].1) && !(IsIdKey(fs[i].0) && fs[i].1.JStr? && fs[i].1.s in master && fs[i].1.s !in seen) ==>
      r == Ok((cur, replaced)) && seen' == seen && log == []
    decreases Unexpanded(master, seen), Size(JObj(fs)), 0
  {
    var k, v := fs[i].0, fs[i].1;
    FieldSmaller(fs, i);
    r, seen', log := Ok((cur, replaced)), seen, [];
    if IsIdKey(k) && v.JStr? {
      if v.s in master && v.s !in seen {
        ExpandShrinks(master, seen, seen, v.s);
        var sub, s2, l2 := ResolveValue(JObj(master[v.s]), master, seen + {v.s});
        if sub.Crash? {
          r := Crash(sub.reason);
          return;
        }
        ExpandedOne(master, seen, v.s);
        ExpandedChain(master, seen, seen + {v.s}, s2, [v.s], l2);
        r, seen', log := Ok((Put(cur, DetailsKey(k), sub.value), replaced + {DetailsKey(k)})), s2, [v.s] + l2;
      }
    } else if IsContainer(v) {
      var sub, s2, l2 := ResolveValue(v, master, seen);
      if sub.Crash? {
        r := Crash(sub.reason);
        return;
      }
      if k !in replaced {
        r := Ok((Put(cur, k, sub.value), replaced));
      }
      seen', log := s2, l2;
    }
  }

  /** The list case, element by element. */
  method ResolveItems(xs: seq<Json>, master: Master, seen: set<string>)
    returns (r: Outcome<seq<Json>>, seen': set<string>, ghost log: seq<string>)
    ensures r == ResolvedItemsFrom(xs, 0, xs, master, seen).out
    ensures seen' == ResolvedItemsFrom(xs, 0, xs, master, seen).seen
    ensures r.Ok? ==> Expanded(master, seen, seen', log)
    ensures r.Ok? ==> |r.value| == |xs| && forall j :: 0 <= j < |xs| ==> KeptItem(xs[j], r.value[j])
    decreases Unexpanded(master, seen), Size(JList(xs)), 1
  {
    seen' := seen;
    log := [];
    var cur := xs;
    ghost var total := ResolvedItemsFrom(xs, 0, xs, master, seen);
    var i := 0;
    while i < |xs|
      invariant 0 <= i <= |xs| == |cur|
      invariant total == ResolvedItemsFrom(xs, i, cur, master, seen')
      invariant Expanded(master, seen, seen', log)
      invariant forall j :: 0 <= j < i ==> KeptItem(xs[j], cur[j])
    {
      ItemSmaller(xs, i);
      UnexpandedShrinks(master, seen, seen');
      var e, s2, l2 := ResolveElement(xs[i], master, seen');
      if e.Crash? {
        r := Crash(e.reason);
        return;
      }
      ExpandedChain(master, seen, seen', s2, log, l2);
      seen', log := s2, log + l2;
      cur := cur[i := e.value];
      i := i + 1;
    }
    r := Ok(cur);
  }

  /** One list element: a string naming an unexpanded master record is
      replaced by the resolved record, and a dict whose `id` names one is
      updated with it (master fields win); other dicts and lists are
      walked. A truthy element id that cannot be a dict key raises
      TypeError. */
  method ResolveElement(item: Json, master: Master, seen: set<string>)
    returns (r: Outcome<Json>, seen': set<string>, ghost log: seq<string>)
    ensures r == ResolvedItem(item, master, seen).out && seen' == ResolvedItem(item, master, seen).seen
    ensures r.Ok? ==> Expanded(master, seen, seen', log)
    ensures r.Ok? ==> KeptItem(item, r.value)
    decreases Unexpanded(master, seen), Size(item), 3
  {
    var itemId := ItemId(item);
    if Truthy(itemId) && !Hashable(itemId) {
      r, seen', log := Crash("TypeError: unhashable type: '" + TypeName(itemId) + "'"), seen, [];
    } else if Truthy(itemId) && itemId.JStr? && itemId.s in master && itemId.s !in seen {
      var id := itemId.s;
      ExpandShrinks(master, seen, seen, id);
      var sub, s2, l2 := ResolveValue(JObj(master[id]), master, seen + {id});
      ExpandedOne(master, seen, id);
      if sub.Ok? {
        ExpandedChain(master, seen, seen + {id}, s2, [id], l2);
        assert sub.value.JObj?;
      }
      seen', log := s2, [id] + l2;
      r := if sub.Crash? then sub
        else if item.JStr? then sub
        else Ok(JObj(Update(item.fields, sub.value.fields)));
    } else {
      r, seen', log := ResolveValue(item, master, seen);
    }
  }

  /** One write into the dict under resolution keeps `KeptFields`, when
      the key written is either a `_details` sibling or a key whose value
      is a container. */
  lemma PutKeeps(fs: Fields, cur: Fields, k: string, v: Json, i: nat)
    requires KeptFields(fs, cur)
    requires i < |fs|
    requires (IsIdKey(fs[i].0) && k == DetailsKey(fs[i].0)) || (k == fs[i].0 && IsContainer(fs[i].1))
    ensures KeptFields(fs, Put(cur, k, v))
  {
    var r := Put(cur, k, v);
    DetailsKeyIsNoIdKey(fs[i].0);
    assert Keys(fs)[i] == fs[i].0;
    forall x | IsIdKey(x) && OnlyStrings(fs, x) ensures Get(r, x) == Get(fs, x) {
      PutGet(cur, k, v, x);
    }
  }

  /** `get_full_hero_data(base_data, game_db)`: the resolved copy; every
      master identifier is expanded at most once in the whole call. */
  method GetFullHeroData(base: Json, master: Master) returns (r: Outcome<Json>, ghost log: seq<string>)
    ensures r == Resolved(base, master, {}).out
    ensures r.Ok? ==> Distinct(log) && forall id :: id in log ==> id in master
    ensures r.Ok? ==> Resolves(base, r.value)
  {
    var seen;
    r, seen, log := ResolveValue(base, master, {});
  }
}
