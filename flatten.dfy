/** `flatten_json`: a JSON tree becomes a flat dict from `_`-joined paths of
    dict keys and list indices to the scalar leaves. */
module Flatten {
  import opened Strings
  import opened Json

  /** Python's `name[:-1]`. */
  function DropLast(s: string): (r: string)
    ensures s != [] ==> r + [s[|s| - 1]] == s
  {
    if s == [] then [] else s[..|s| - 1]
  }

  predicate Scalar(j: Json) { !j.JObj? && !j.JList? }

  /** The assignments `out[name[:-1]] = x` that `flatten(x, name)` makes, in
      the order it makes them. */
  function Leaves(x: Json, name: string): (r: seq<(string, Json)>)
    ensures forall i :: 0 <= i < |r| ==> Scalar(r[i].1)
    decreases Size(x), 1
  {
    match x
    case JObj(fs) => FieldLeaves(fs, name, |fs|)
    case JList(xs) => ItemLeaves(xs, name, |xs|)
    case _ => [(DropLast(name), x)]
  }

  /** The assignments made for the first n entries of a dict. */
  function FieldLeaves(fs: Fields, name: string, n: nat): (r: seq<(string, Json)>)
    requires n <= |fs|
    ensures forall i :: 0 <= i < |r| ==> Scalar(r[i].1)
    decreases Size(JObj(fs)), 0, n
  {
    if n == 0 then []
    else
      FieldSmaller(fs, n - 1);
      FieldLeaves(fs, name, n - 1) + Leaves(fs[n - 1].1, name + fs[n - 1].0 + "_")
  }

  /** The assignments made for the first n items of a list; item i is named
      by `str(i)`. */
  function ItemLeaves(xs: seq<Json>, name: string, n: nat): (r: seq<(string, Json)>)
    requires n <= |xs|
    ensures forall i :: 0 <= i < |r| ==> Scalar(r[i].1)
    decreases Size(JList(xs)), 0, n
  {
    if n == 0 then []
    else
      ItemSmaller(xs, n - 1);
      ItemLeaves(xs, name, n - 1) + Leaves(xs[n - 1], name + IntToString(n - 1) + "_")
  }

  /** Performing a sequence of dict assignments in order. */
  function PutAll(out: Fields, assigns: seq<(string, Json)>): Fields
    decreases |assigns|
  {
    if assigns == [] then out else PutAll(Put(out, assigns[0].0, assigns[0].1), assigns[1..])
  }

  lemma {:induction false} PutAllConcat(out: Fields, a: seq<(string, Json)>, b: seq<(string, Json)>)
    ensures PutAll(out, a + b) == PutAll(PutAll(out, a), b)
    decreases |a|
  {
    if a != [] {
      assert (a + b)[1..] == a[1..] + b;
      PutAllConcat(Put(out, a[0].0, a[0].1), a[1..], b);
    } else {
      assert a + b == b;
    }
  }

  lemma PutAllOne(out: Fields, k: string, v: Json)
    ensures PutAll(out, [(k, v)]) == Put(out, k, v)
  {
    assert [(k, v)][1..] == [];
  }

  /** `flatten_json(y)` */
  function Flat(y: Json): Fields {
    PutAll([], Leaves(y, ""))
  }

  // ------------------------------------------------------------ the walk

  /** `flatten(x, name)` adding to `out`. */
  method Walk(x: Json, name: string, out: Fields) returns (res: Fields)
    ensures res == PutAll(out, Leaves(x, name))
    decreases Size(x), 1
  {
    match x {
      case JObj(fs) =>
        res := WalkFields(fs, name, out);
      case JList(xs) =>
        res := WalkItems(xs, name, out);
      case _ =>
        PutAllOne(out, DropLast(name), x);
        res := Put(out, DropLast(name), x);
    }
  }

  /** One more dict entry: its leaves are assigned after the others. */
  lemma FieldStep(out: Fields, fs: Fields, name: string, i: nat)
    requires i < |fs|
    ensures PutAll(out, FieldLeaves(fs, name, i + 1)) ==
      PutAll(PutAll(out, FieldLeaves(fs, name, i)), Leaves(fs[i].1, name + fs[i].0 + "_"))
  {
    PutAllConcat(out, FieldLeaves(fs, name, i), Leaves(fs[i].1, name + fs[i].0 + "_"));
  }

  /** One more list item: its leaves are assigned after the others. */
  lemma ItemStep(out: Fields, xs: seq<Json>, name: string, i: nat)
    requires i < |xs|
    ensures PutAll(out, ItemLeaves(xs, name, i + 1)) ==
      PutAll(PutAll(out, ItemLeaves(xs, name, i)), Leaves(xs[i], name + IntToString(i) + "_"))
  {
    PutAllConcat(out, ItemLeaves(xs, name, i), Leaves(xs[i], name + IntToString(i) + "_"));
  }

  /** The loop of `flatten` over a dict's entries. */
  method WalkFields(fs: Fields, name: string, out: Fields) returns (res: Fields)
    ensures res == PutAll(out, FieldLeaves(fs, name, |fs|))
    decreases Size(JObj(fs)), 0
  {
    res := out;
    var i := 0;
    while i < |fs|
      invariant 0 <= i <= |fs|
      invariant res == PutAll(out, FieldLeaves(fs, name, i))
    {
      FieldSmaller(fs, i);
      var a := fs[i].0;
      res := Walk(fs[i].1, name + a + "_", res);
      FieldStep(out, fs, name, i);
      i := i + 1;
    }
  }

  /** The loop of `flatten` over a list's items. */
  method WalkItems(xs: seq<Json>, name: string, out: Fields) returns (res: Fields)
    ensures res == PutAll(out, ItemLeaves(xs, name, |xs|))
    decreases Size(JList(xs)), 0
  {
    res := out;
    var i := 0;
    while i < |xs|
      invariant 0 <= i <= |xs|
      invariant res == PutAll(out, ItemLeaves(xs, name, i))
    {
      ItemSmaller(xs, i);
      res := Walk(xs[i], name + IntToString(i) + "_", res);
      ItemStep(out, xs, name, i);
      i := i + 1;
    }
  }

  /** `flatten_json(y)` */
  method FlattenJson(y: Json) returns (out: Fields)
    ensures out == Flat(y)
  {
    out := Walk(y, "", []);
  }

  // ------------------------------------------- an independent description

  /** The path of every scalar leaf (dict keys and list indices as text),
      in pre-order. */
  function LeafPaths(x: Json): (r: seq<(seq<string>, Json)>)
    decreases Size(x), 1
  {
    match x
    case JObj(fs) => FieldPaths(fs, |fs|)
    case JList(xs) => ItemPaths(xs, |xs|)
    case _ => [([], x)]
  }

  function Under(seg: string, ps: seq<(seq<string>, Json)>): (r: seq<(seq<string>, Json)>)
    ensures |r| == |ps|
    ensures forall i :: 0 <= i < |ps| ==> r[i] == ([seg] + ps[i].0, ps[i].1)
  {
    seq(|ps|, i requires 0 <= i < |ps| => ([seg] + ps[i].0, ps[i].1))
  }

  function FieldPaths(fs: Fields, n: nat): seq<(seq<string>, Json)>
    requires n <= |fs|
    decreases Size(JObj(fs)), 0, n
  {
    if n == 0 then []
    else
      FieldSmaller(fs, n - 1);
      FieldPaths(fs, n - 1) + Under(fs[n - 1].0, LeafPaths(fs[n - 1].1))
  }

  function ItemPaths(xs: seq<Json>, n: nat): seq<(seq<string>, Json)>
    requires n <= |xs|
    decreases Size(JList(xs)), 0, n
  {
    if n == 0 then []
    else
      ItemSmaller(xs, n - 1);
      ItemPaths(xs, n - 1) + Under(IntToString(n - 1), LeafPaths(xs[n - 1]))
  }

  /** Every path segment followed by `_`. */
  function Suffixed(p: seq<string>): string {
    if p == [] then "" else p[0] + "_" + Suffixed(p[1..])
  }

  /** The flat key of a leaf reached from `name` along path p. */
  function KeyOf(name: string, p: seq<string>): string {
    DropLast(name + Suffixed(p))
  }

  function Render(name: string, ps: seq<(seq<string>, Json)>): (r: seq<(string, Json)>)
    ensures |r| == |ps|
    ensures forall i :: 0 <= i < |ps| ==> r[i] == (KeyOf(name, ps[i].0), ps[i].1)
  {
    seq(|ps|, i requires 0 <= i < |ps| => (KeyOf(name, ps[i].0), ps[i].1))
  }

  lemma RenderConcat(name: string, a: seq<(seq<string>, Json)>, b: seq<(seq<string>, Json)>)
    ensures Render(name, a + b) == Render(name, a) + Render(name, b)
  {
  }

  lemma RenderUnder(name: string, seg: string, ps: seq<(seq<string>, Json)>)
    ensures Render(name, Under(seg, ps)) == Render(name + seg + "_", ps)
  {
    forall i | 0 <= i < |ps|
      ensures KeyOf(name, [seg] + ps[i].0) == KeyOf(name + seg + "_", ps[i].0)
    {
      KeyUnder(name, seg, ps[i].0);
    }
  }

  /** A path under `seg` renders after `name` as the path itself after
      `name + seg + "_"`. */
  lemma KeyUnder(name: string, seg: string, p: seq<string>)
    ensures KeyOf(name, [seg] + p) == KeyOf(name + seg + "_", p)
  {
    assert ([seg] + p)[1..] == p;
    assert Suffixed([seg] + p) == seg + "_" + Suffixed(p);
    ConcatAssoc(name, seg + "_", Suffixed(p));
    ConcatAssoc(name, seg, "_");
  }

  lemma ConcatAssoc(a: string, b: string, c: string)
    ensures a + (b + c) == (a + b) + c
  {
  }

  /** `flatten` assigns, in order, exactly one entry per scalar leaf, whose
      key is the leaf's path rendered after `name`. */
  lemma {:induction false} LeavesArePaths(x: Json, name: string)
    ensures Leaves(x, name) == Render(name, LeafPaths(x))
    decreases Size(x), 1
  {
    match x
    case JObj(fs) => FieldLeavesArePaths(fs, name, |fs|);
    case JList(xs) => ItemLeavesArePaths(xs, name, |xs|);
    case _ => assert name + Suffixed([]) == name;
  }

  lemma {:induction false} FieldLeavesArePaths(fs: Fields, name: string, n: nat)
    requires n <= |fs|
    ensures FieldLeaves(fs, name, n) == Render(name, FieldPaths(fs, n))
    decreases Size(JObj(fs)), 0, n
  {
    if n > 0 {
      FieldSmaller(fs, n - 1);
      var (k, v) := fs[n - 1];
      FieldLeavesArePaths(fs, name, n - 1);
      LeavesArePaths(v, name + k + "_");
      RenderUnder(name, k, LeafPaths(v));
      RenderConcat(name, FieldPaths(fs, n - 1), Under(k, LeafPaths(v)));
    }
  }

  lemma {:induction false} ItemLeavesArePaths(xs: seq<Json>, name: string, n: nat)
    requires n <= |xs|
    ensures ItemLeaves(xs, name, n) == Render(name, ItemPaths(xs, n))
    decreases Size(JList(xs)), 0, n
  {
    if n > 0 {
      ItemSmaller(xs, n - 1);
      var seg := IntToString(n - 1);
      ItemLeavesArePaths(xs, name, n - 1);
      LeavesArePaths(xs[n - 1], name + seg + "_");
      RenderUnder(name, seg, LeafPaths(xs[n - 1]));
      RenderConcat(name, ItemPaths(xs, n - 1), Under(seg, LeafPaths(xs[n - 1])));
    }
  }

  lemma DropLastAppend(a: string, t: string)
    requires t != []
    ensures DropLast(a + t) == a + DropLast(t)
  {
    assert (a + t)[..|a + t| - 1] == a + t[..|t| - 1];
  }

  /** From the root, a leaf's key is its non-empty path joined with `_`. */
  lemma {:induction false} RootKeyIsJoin(p: seq<string>)
    requires p != []
    ensures KeyOf("", p) == Join(p, "_")
  {
    assert "" + Suffixed(p) == Suffixed(p);
    var t := Suffixed(p[1..]);
    assert Suffixed(p) == (p[0] + "_") + t;
    if |p| == 1 {
      assert t == "";
      assert (p[0] + "_") + t == p[0] + "_";
    } else {
      RootKeyIsJoin(p[1..]);
      assert "" + t == t;
      assert t != [];
      DropLastAppend(p[0] + "_", t);
    }
  }

  /** Empty dicts and lists contribute no entry, and every leaf value is a
      scalar. */
  lemma {:induction false} EmptyContainersGiveNothing(fs: Fields, name: string)
    requires forall i :: 0 <= i < |fs| ==> fs[i].1 == JObj([]) || fs[i].1 == JList([])
    ensures Leaves(JObj(fs), name) == []
  {
    FieldsEmpty(fs, name, |fs|);
  }

  lemma {:induction false} FieldsEmpty(fs: Fields, name: string, n: nat)
    requires n <= |fs|
    requires forall i :: 0 <= i < |fs| ==> fs[i].1 == JObj([]) || fs[i].1 == JList([])
    ensures FieldLeaves(fs, name, n) == []
  {
    if n > 0 {
      FieldsEmpty(fs, name, n - 1);
      var v := fs[n - 1].1;
      assert Leaves(v, name + fs[n - 1].0 + "_") == [];
    }
  }

  // ------------------------------------------------ from assignments to dict

  predicate DistinctKeys(a: seq<(string, Json)>) {
    forall i, j :: 0 <= i < j < |a| ==> a[i].0 != a[j].0
  }

  /** When no two leaves share a key, the flat dict is exactly the list of
      leaves, in order. */
  lemma {:induction false} PutAllDistinct(out: Fields, a: seq<(string, Json)>)
    requires DistinctKeys(a)
    requires forall i :: 0 <= i < |a| ==> !Has(out, a[i].0)
    ensures PutAll(out, a) == out + a
    decreases |a|
  {
    if a != [] {
      PutNew(out, a[0].0, a[0].1);
      var out' := out + [a[0]];
      DistinctTail(out, a);
      PutAllDistinct(out', a[1..]);
      SnocThenRest(out, a);
    }
  }

  lemma SnocThenRest(out: Fields, a: seq<(string, Json)>)
    requires a != []
    ensures (out + [a[0]]) + a[1..] == out + a
  {
    assert a == [a[0]] + a[1..];
  }

  /** After the first leaf is appended, the others still have distinct
      keys, none of them in the dict. */
  lemma DistinctTail(out: Fields, a: seq<(string, Json)>)
    requires a != [] && DistinctKeys(a)
    requires forall i :: 0 <= i < |a| ==> !Has(out, a[i].0)
    ensures DistinctKeys(a[1..])
    ensures forall i :: 0 <= i < |a[1..]| ==> !Has(out + [a[0]], a[1..][i].0)
  {
    var out' := out + [a[0]];
    assert Keys(out') == Keys(out) + [a[0].0];
    forall i | 0 <= i < |a[1..]| ensures !Has(out', a[1..][i].0) {
      assert a[1..][i] == a[i + 1];
    }
    forall i, j | 0 <= i < j < |a[1..]| ensures a[1..][i].0 != a[1..][j].0 {
      assert a[1..][i] == a[i + 1] && a[1..][j] == a[j + 1];
    }
  }

  lemma FlatIsLeaves(y: Json)
    requires DistinctKeys(Leaves(y, ""))
    ensures Flat(y) == Leaves(y, "")
  {
    PutAllDistinct([], Leaves(y, ""));
  }
}
