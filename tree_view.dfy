/** Hierarchical rendering of search results into a tree widget. The widget
    is a list of rows in the order they were added, each remembering its
    parent row; the forest the rows spell is specified by pure functions over
    the objects' "entries" (what the renderer reads of each object). */
module TreeView {
  import opened Wrappers
  import opened Json

  /** The Load button of an item: bound to a load action with the item's id,
      or left unconnected. */
  datatype Button = Unconnected | LoadsId(id: Json)

  /** An item: its Name and ID columns show `str()` of these values. */
  datatype Label = Label(name: Json, id: Json, button: Button)

  /** What the renderer reads of one object: the key it is filed under in
      the id lookup, its item, the ids its `for child_id in ...` loop visits
      (None when that value is not iterable), and whether it has no parents. */
  datatype Entry = Entry(key: Json, item: Label, children: Option<seq<Json>>, isRoot: bool)

  datatype Tree = Node(item: Label, kids: seq<Tree>)

  /** One item of the widget and the index of its parent item (None for a
      top-level item). */
  datatype Row = Row(item: Label, parent: Option<nat>)

  // ---------------------------------------------------------------------
  // The id lookup and the forest it induces
  // ---------------------------------------------------------------------

  /** `{obj.id: obj for obj in objects}`: a later object with the same id
      overwrites an earlier one. */
  function Index(entries: seq<Entry>): (m: map<Json, Entry>)
    ensures forall k :: k in m ==> m[k].key == k
  {
    if entries == [] then map[]
    else
      var n := |entries| - 1;
      Index(entries[..n])[entries[n].key := entries[n]]
  }

  /** With duplicate ids the lookup resolves to the LAST object with that id. */
  lemma {:induction false} IndexKeepsLast(entries: seq<Entry>, i: nat)
    requires i < |entries|
    requires forall j :: i < j < |entries| ==> entries[j].key != entries[i].key
    ensures entries[i].key in Index(entries) && Index(entries)[entries[i].key] == entries[i]
    decreases |entries|
  {
    var n := |entries| - 1;
    if i < n {
      assert entries[..n][i] == entries[i];
      IndexKeepsLast(entries[..n], i);
    }
  }

  /** `e` can be drawn: its children are iterable and hashable, and every
      child found in the lookup is ranked. A root needs no rank of its own:
      the recursion only ever reaches objects through the lookup. */
  ghost predicate Expandable(e: Entry, lookup: map<Json, Entry>, rank: map<Json, nat>)
  {
    && e.children.Some?
    && forall c :: c in e.children.value ==> Hashable(c) && (c in lookup ==> c in rank)
  }

  /** An object of the lookup can be drawn below another: it is expandable,
      and every child it resolves has a smaller rank than its own id. */
  ghost predicate Below(e: Entry, lookup: map<Json, Entry>, rank: map<Json, nat>)
  {
    && Expandable(e, lookup, rank)
    && e.key in rank
    && forall c :: c in e.children.value && c in lookup ==> rank[c] < rank[e.key]
  }

  /** The ranked part of the lookup is closed under resolved child edges and
      strictly decreasing along them: the child relation is acyclic on every
      object the recursion can reach. */
  ghost predicate Ranked(lookup: map<Json, Entry>, rank: map<Json, nat>)
  {
    forall k {:trigger lookup[k]} :: k in rank && k in lookup ==> lookup[k].key == k && Below(lookup[k], lookup, rank)
  }

  /** `ids` with the ids that the lookup does not resolve dropped. */
  function Resolved(ids: seq<Json>, lookup: map<Json, Entry>): (r: seq<Json>)
    ensures forall c :: c in r <==> c in ids && c in lookup
  {
    if ids == [] then []
    else
      var n := |ids| - 1;
      assert ids == ids[..n] + [ids[n]];
      Resolved(ids[..n], lookup) + (if ids[n] in lookup then [ids[n]] else [])
  }

  /** A bound just above the ranks of the children the lookup resolves. */
  ghost function ChildBound(ids: seq<Json>, lookup: map<Json, Entry>, rank: map<Json, nat>): (b: nat)
    requires forall c :: c in ids && c in lookup ==> c in rank
    ensures forall c :: c in ids && c in lookup ==> rank[c] < b
  {
    if ids == [] then 0
    else
      var n := |ids| - 1;
      assert ids == ids[..n] + [ids[n]];
      var front := ChildBound(ids[..n], lookup, rank);
      var last := if ids[n] in lookup then rank[ids[n]] + 1 else 0;
      if front < last then last else front
  }

  lemma {:induction false} ChildBoundAtMost(ids: seq<Json>, lookup: map<Json, Entry>, rank: map<Json, nat>, k: nat)
    requires forall c :: c in ids && c in lookup ==> c in rank && rank[c] < k
    ensures ChildBound(ids, lookup, rank) <= k
    decreases |ids|
  {
    if ids != [] {
      var n := |ids| - 1;
      assert forall c :: c in ids[..n] ==> c in ids;
      ChildBoundAtMost(ids[..n], lookup, rank, k);
    }
  }

  /** A child the lookup resolves can itself be expanded, with a smaller
      bound: the measure the drawing recursion descends on. */
  lemma ResolvedChildDescends(e: Entry, c: Json, lookup: map<Json, Entry>, rank: map<Json, nat>)
    requires Ranked(lookup, rank) && Expandable(e, lookup, rank)
    requires c in e.children.value && c in lookup
    ensures Expandable(lookup[c], lookup, rank)
    ensures ChildBound(lookup[c].children.value, lookup, rank) < ChildBound(e.children.value, lookup, rank)
  {
    ChildBoundAtMost(lookup[c].children.value, lookup, rank, rank[c]);
  }

  /** The subtree `_add_object_to_tree` draws for `e`. */
  function Subtree(e: Entry, lookup: map<Json, Entry>, ghost rank: map<Json, nat>): Tree
    requires Ranked(lookup, rank) && Expandable(e, lookup, rank)
    decreases ChildBound(e.children.value, lookup, rank) + 1, 0
  {
    Node(e.item, Subtrees(e.children.value, lookup, rank, ChildBound(e.children.value, lookup, rank)))
  }

  /** The subtrees of the resolved ids among `ids`, in order. */
  function Subtrees(ids: seq<Json>, lookup: map<Json, Entry>, ghost rank: map<Json, nat>, ghost bound: nat): seq<Tree>
    requires Ranked(lookup, rank)
    requires forall c :: c in ids && c in lookup ==> c in rank && rank[c] < bound
    decreases bound, |ids|
  {
    if ids == [] then []
    else
      var n := |ids| - 1;
      assert forall c :: c in ids[..n] ==> c in ids;
      var front := Subtrees(ids[..n], lookup, rank, bound);
      if ids[n] in lookup then
        ChildBoundAtMost(lookup[ids[n]].children.value, lookup, rank, rank[ids[n]]);
        front + [Subtree(lookup[ids[n]], lookup, rank)]
      else front
  }

  /** An item's children are the subtrees of its resolved child ids, in the
      order the ids are listed; ids the lookup does not resolve are skipped. */
  lemma {:induction false} SubtreesFollowResolved(ids: seq<Json>, lookup: map<Json, Entry>, rank: map<Json, nat>, bound: nat)
    requires Ranked(lookup, rank)
    requires forall c :: c in ids && c in lookup ==> c in rank && rank[c] < bound
    ensures var ts := Subtrees(ids, lookup, rank, bound);
      var rs := Resolved(ids, lookup);
      && |ts| == |rs|
      && forall j :: 0 <= j < |ts| ==> rs[j] in lookup && ts[j] == Subtree(lookup[rs[j]], lookup, rank)
    decreases |ids|
  {
    if ids != [] {
      var n := |ids| - 1;
      assert forall c :: c in ids[..n] ==> c in ids;
      SubtreesFollowResolved(ids[..n], lookup, rank, bound);
      var front := Subtrees(ids[..n], lookup, rank, bound);
      var rfront := Resolved(ids[..n], lookup);
      if ids[n] in lookup {
        var ts := front + [Subtree(lookup[ids[n]], lookup, rank)];
        var rs := rfront + [ids[n]];
        assert forall j :: 0 <= j < |front| ==> ts[j] == front[j] && rs[j] == rfront[j];
      } else {
        assert front + [] == front && rfront + [] == rfront;
      }
    }
  }

  /** The objects drawn at top level: all of them for a search result,
      otherwise those whose `parents` is empty, in input order. */
  function Roots(entries: seq<Entry>, isSearch: bool): seq<Entry>
  {
    if isSearch then entries else Parentless(entries)
  }

  function Parentless(entries: seq<Entry>): seq<Entry>
  {
    if entries == [] then []
    else
      var n := |entries| - 1;
      Parentless(entries[..n]) + (if entries[n].isRoot then [entries[n]] else [])
  }

  /** A search result draws every object at top level; otherwise exactly
      the objects without parents are drawn at top level. */
  lemma {:induction false} RootsAreParentless(entries: seq<Entry>, isSearch: bool)
    ensures forall e :: e in Roots(entries, isSearch) <==> e in entries && (isSearch || e.isRoot)
    decreases |entries|
  {
    if !isSearch && entries != [] {
      var n := |entries| - 1;
      assert entries == entries[..n] + [entries[n]];
      RootsAreParentless(entries[..n], false);
    }
  }

  /** Every one of `roots` can be drawn. */
  ghost predicate AllExpandable(roots: seq<Entry>, lookup: map<Json, Entry>, rank: map<Json, nat>)
  {
    forall r :: r in roots ==> Expandable(r, lookup, rank)
  }

  /** One subtree per root, in order. */
  function Forest(roots: seq<Entry>, lookup: map<Json, Entry>, ghost rank: map<Json, nat>): (ts: seq<Tree>)
    requires Ranked(lookup, rank)
    requires AllExpandable(roots, lookup, rank)
    ensures |ts| == |roots|
    ensures forall i :: 0 <= i < |roots| ==> ts[i] == Subtree(roots[i], lookup, rank)
  {
    if roots == [] then []
    else
      var n := |roots| - 1;
      assert forall e :: e in roots[..n] ==> e in roots;
      Forest(roots[..n], lookup, rank) + [Subtree(roots[n], lookup, rank)]
  }

  /** What `display_hierarchical_results` needs so that it neither raises
      nor recurses forever: hashable ids, and a rank under which every
      drawn root and everything it reaches can be drawn. */
  ghost predicate Renderable(entries: seq<Entry>, isSearch: bool, rank: map<Json, nat>)
  {
    && (forall i :: 0 <= i < |entries| ==> Hashable(entries[i].key))
    && Ranked(Index(entries), rank)
    && forall e :: e in entries && (isSearch || e.isRoot) ==> Expandable(e, Index(entries), rank)
  }

  /** The forest `display_hierarchical_results` draws. */
  function Render(entries: seq<Entry>, isSearch: bool, ghost rank: map<Json, nat>): seq<Tree>
    requires Renderable(entries, isSearch, rank)
  {
    RootsAreParentless(entries, isSearch);
    Forest(Roots(entries, isSearch), Index(entries), rank)
  }

  // ---------------------------------------------------------------------
  // Rows: the forest written out in the order items are added
  // ---------------------------------------------------------------------

  /** The rows that drawing `t` adds when the widget already holds `base`
      rows: the item itself, then its subtrees below it. */
  function FlattenTree(t: Tree, parent: Option<nat>, base: nat): seq<Row>
    decreases t
  {
    [Row(t.item, parent)] + FlattenForest(t.kids, Some(base), base + 1)
  }

  function FlattenForest(ts: seq<Tree>, parent: Option<nat>, base: nat): seq<Row>
    decreases ts
  {
    if ts == [] then []
    else
      var n := |ts| - 1;
      var front := FlattenForest(ts[..n], parent, base);
      front + FlattenTree(ts[n], parent, base + |front|)
  }

  // Appending one element at the end: the step each drawing loop takes.

  lemma SubtreesSnoc(ids: seq<Json>, c: Json, lookup: map<Json, Entry>, rank: map<Json, nat>, bound: nat)
    requires Ranked(lookup, rank)
    requires forall d :: d in ids && d in lookup ==> d in rank && rank[d] < bound
    requires c in lookup ==> c in rank && rank[c] < bound
    ensures Subtrees(ids + [c], lookup, rank, bound)
         == Subtrees(ids, lookup, rank, bound) + (if c in lookup then [Subtree(lookup[c], lookup, rank)] else [])
  {
    assert (ids + [c])[..|ids|] == ids;
  }

  lemma ForestSnoc(roots: seq<Entry>, e: Entry, lookup: map<Json, Entry>, rank: map<Json, nat>)
    requires Ranked(lookup, rank)
    requires AllExpandable(roots, lookup, rank)
    requires Expandable(e, lookup, rank)
    ensures Forest(roots + [e], lookup, rank) == Forest(roots, lookup, rank) + [Subtree(e, lookup, rank)]
  {
    assert (roots + [e])[..|roots|] == roots;
  }

  lemma RootsSnoc(entries: seq<Entry>, e: Entry, isSearch: bool)
    ensures Roots(entries + [e], isSearch) == Roots(entries, isSearch) + (if isSearch || e.isRoot then [e] else [])
  {
    assert (entries + [e])[..|entries|] == entries;
  }


  /** The rows added below `item` by the first `i` rounds of the loop over
      `e`'s children. */
  ghost function ChildRows(e: Entry, i: nat, lookup: map<Json, Entry>, rank: map<Json, nat>, item: nat): seq<Row>
    requires Ranked(lookup, rank) && Expandable(e, lookup, rank) && i <= |e.children.value|
  {
    var ids := e.children.value[..i];
    assert forall c :: c in ids ==> c in e.children.value;
    FlattenForest(Subtrees(ids, lookup, rank, ChildBound(e.children.value, lookup, rank)), Some(item), item + 1)
  }

  /** One more round adds the rows of the child's subtree, if the child id
      resolves, and nothing otherwise. */
  lemma ChildRowsStep(e: Entry, i: nat, lookup: map<Json, Entry>, rank: map<Json, nat>, item: nat)
    requires Ranked(lookup, rank) && Expandable(e, lookup, rank) && i < |e.children.value|
    ensures e.children.value[i] in lookup ==>
      var c := e.children.value[i];
      var front := ChildRows(e, i, lookup, rank, item);
      ChildRows(e, i + 1, lookup, rank, item)
      == front + FlattenTree(Subtree(lookup[c], lookup, rank), Some(item), item + 1 + |front|)
    ensures e.children.value[i] !in lookup ==>
      ChildRows(e, i + 1, lookup, rank, item) == ChildRows(e, i, lookup, rank, item)
  {
    var ids := e.children.value;
    var c := ids[i];
    assert ids[..i + 1] == ids[..i] + [c];
    assert forall d :: d in ids[..i] ==> d in ids;
    var bound := ChildBound(ids, lookup, rank);
    SubtreesSnoc(ids[..i], c, lookup, rank, bound);
    var before := Subtrees(ids[..i], lookup, rank, bound);
    if c in lookup {
      var t := Subtree(lookup[c], lookup, rank);
      assert (before + [t])[..|before|] == before;
    } else {
      assert before + [] == before;
    }
  }

  /** After the last round: the item followed by all its children's rows is
      the flattened subtree. */
  lemma ChildRowsAll(e: Entry, lookup: map<Json, Entry>, rank: map<Json, nat>, parent: Option<nat>, item: nat)
    requires Ranked(lookup, rank) && Expandable(e, lookup, rank)
    ensures FlattenTree(Subtree(e, lookup, rank), parent, item)
         == [Row(e.item, parent)] + ChildRows(e, |e.children.value|, lookup, rank, item)
  {
    assert e.children.value[..|e.children.value|] == e.children.value;
  }

  /** The rows drawn by the first `i` rounds of the loop over the objects. */
  ghost function RootRows(entries: seq<Entry>, isSearch: bool, rank: map<Json, nat>, i: nat): seq<Row>
    requires Renderable(entries, isSearch, rank) && i <= |entries|
  {
    assert forall e :: e in entries[..i] ==> e in entries;
    RootsAreParentless(entries[..i], isSearch);
    FlattenForest(Forest(Roots(entries[..i], isSearch), Index(entries), rank), None, 0)
  }

  /** One more round draws the object's subtree at top level when it is a
      root, and nothing otherwise. */
  lemma RootRowsStep(entries: seq<Entry>, isSearch: bool, rank: map<Json, nat>, i: nat)
    requires Renderable(entries, isSearch, rank) && i < |entries|
    ensures isSearch || entries[i].isRoot ==>
      var front := RootRows(entries, isSearch, rank, i);
      RootRows(entries, isSearch, rank, i + 1)
      == front + FlattenTree(Subtree(entries[i], Index(entries), rank), None, |front|)
    ensures !(isSearch || entries[i].isRoot) ==>
      RootRows(entries, isSearch, rank, i + 1) == RootRows(entries, isSearch, rank, i)
  {
    var e := entries[i];
    assert entries[..i + 1] == entries[..i] + [e];
    assert forall r :: r in entries[..i] ==> r in entries;
    RootsAreParentless(entries[..i], isSearch);
    RootsSnoc(entries[..i], e, isSearch);
    var roots := Roots(entries[..i], isSearch);
    if isSearch || e.isRoot {
      ForestSnoc(roots, e, Index(entries), rank);
      var ts := Forest(roots, Index(entries), rank);
      assert (ts + [Subtree(e, Index(entries), rank)])[..|ts|] == ts;
    } else {
      assert roots + [] == roots;
    }
  }

  lemma RootRowsAll(entries: seq<Entry>, isSearch: bool, rank: map<Json, nat>)
    requires Renderable(entries, isSearch, rank)
    ensures RootRows(entries, isSearch, rank, 0) == []
    ensures RootRows(entries, isSearch, rank, |entries|) == FlattenForest(Render(entries, isSearch, rank), None, 0)
  {
    assert entries[..0] == [];
    assert entries[..|entries|] == entries;
  }

  /** The items of the top-level rows, in order. */
  function TopLevel(rows: seq<Row>): seq<Label>
  {
    if rows == [] then []
    else
      var n := |rows| - 1;
      TopLevel(rows[..n]) + (if rows[n].parent.None? then [rows[n].item] else [])
  }

  function Labels(ts: seq<Tree>): (ls: seq<Label>)
    ensures |ls| == |ts| && forall i :: 0 <= i < |ts| ==> ls[i] == ts[i].item
  {
    seq(|ts|, i requires 0 <= i < |ts| => ts[i].item)
  }

  lemma TopLevelOne(r: Row)
    ensures TopLevel([r]) == if r.parent.None? then [r.item] else []
  {
    assert [r][..0] == [];
  }

  lemma {:induction false} TopLevelAppend(a: seq<Row>, b: seq<Row>)
    ensures TopLevel(a + b) == TopLevel(a) + TopLevel(b)
    decreases |b|
  {
    if b == [] {
      assert a + b == a;
    } else {
      var n := |b| - 1;
      assert (a + b)[..|a + b| - 1] == a + b[..n];
      TopLevelAppend(a, b[..n]);
    }
  }

  /** Rows drawn below a parent item are never top-level items. */
  lemma {:induction false} NestedRowsHaveParents(ts: seq<Tree>, p: nat, base: nat)
    ensures TopLevel(FlattenForest(ts, Some(p), base)) == []
    decreases ts
  {
    if ts != [] {
      var n := |ts| - 1;
      var front := FlattenForest(ts[..n], Some(p), base);
      var b := base + |front|;
      var kids := FlattenForest(ts[n].kids, Some(b), b + 1);
      NestedRowsHaveParents(ts[..n], p, base);
      NestedRowsHaveParents(ts[n].kids, b, b + 1);
      TopLevelOne(Row(ts[n].item, Some(p)));
      TopLevelAppend([Row(ts[n].item, Some(p))], kids);
      TopLevelAppend(front, FlattenTree(ts[n], Some(p), b));
    }
  }

  /** The widget's top-level items are exactly the roots of the forest, in
      order: every other row hangs below one of them. */
  lemma {:induction false} TopLevelRowsAreRoots(ts: seq<Tree>, base: nat)
    ensures TopLevel(FlattenForest(ts, None, base)) == Labels(ts)
    decreases |ts|
  {
    if ts != [] {
      var n := |ts| - 1;
      var front := FlattenForest(ts[..n], None, base);
      var b := base + |front|;
      var kids := FlattenForest(ts[n].kids, Some(b), b + 1);
      TopLevelRowsAreRoots(ts[..n], base);
      NestedRowsHaveParents(ts[n].kids, b, b + 1);
      TopLevelOne(Row(ts[n].item, None));
      TopLevelAppend([Row(ts[n].item, None)], kids);
      TopLevelAppend(front, FlattenTree(ts[n], None, b));
      assert Labels(ts) == Labels(ts[..n]) + [ts[n].item];
    }
  }

  /** Every row's parent lies before it, the rows being numbered from
      `base`. */
  ghost predicate ParentsBefore(rows: seq<Row>, base: nat)
  {
    forall j :: 0 <= j < |rows| && rows[j].parent.Some? ==> rows[j].parent.value < base + j
  }

  lemma ParentsBeforeAppend(a: seq<Row>, b: seq<Row>, base: nat)
    requires ParentsBefore(a, base) && ParentsBefore(b, base + |a|)
    ensures ParentsBefore(a + b, base)
  {
    forall j | 0 <= j < |a + b| && (a + b)[j].parent.Some?
      ensures (a + b)[j].parent.value < base + j
    {
      if j >= |a| {
        assert (a + b)[j] == b[j - |a|];
      }
    }
  }

  /** Drawing a forest below `parent` (or at top level) only ever attaches
      an item to an item added before it: the rows form a tree. */
  lemma {:induction false} RowsParentsPrecede(ts: seq<Tree>, parent: Option<nat>, base: nat)
    requires parent.Some? ==> parent.value < base
    ensures ParentsBefore(FlattenForest(ts, parent, base), base)
    decreases ts
  {
    if ts != [] {
      var n := |ts| - 1;
      var front := FlattenForest(ts[..n], parent, base);
      var b := base + |front|;
      var kids := FlattenForest(ts[n].kids, Some(b), b + 1);
      RowsParentsPrecede(ts[..n], parent, base);
      RowsParentsPrecede(ts[n].kids, Some(b), b + 1);
      ParentsBeforeAppend([Row(ts[n].item, parent)], kids, b);
      ParentsBeforeAppend(front, FlattenTree(ts[n], parent, b), base);
    }
  }

  function ItemsOf(es: seq<Entry>): (ls: seq<Label>)
    ensures |ls| == |es| && forall i :: 0 <= i < |es| ==> ls[i] == es[i].item
  {
    seq(|es|, i requires 0 <= i < |es| => es[i].item)
  }

  /** The widget's top-level items are the roots' items, in input order:
      every object for a search result, the parentless ones otherwise. */
  lemma TopLevelItemsAreRoots(entries: seq<Entry>, isSearch: bool, rank: map<Json, nat>)
    requires Renderable(entries, isSearch, rank)
    ensures TopLevel(FlattenForest(Render(entries, isSearch, rank), None, 0)) == ItemsOf(Roots(entries, isSearch))
  {
    var ts := Render(entries, isSearch, rank);
    TopLevelRowsAreRoots(ts, 0);
    assert Labels(ts) == ItemsOf(Roots(entries, isSearch));
  }

  /** Every value of the id lookup is one of the objects. */
  lemma {:induction false} IndexValuesAreEntries(entries: seq<Entry>)
    ensures forall k :: k in Index(entries) ==> Index(entries)[k] in entries
    decreases |entries|
  {
    if entries != [] {
      var n := |entries| - 1;
      IndexValuesAreEntries(entries[..n]);
      assert forall e :: e in entries[..n] ==> e in entries;
    }
  }

  /** Every item of `t` satisfies `P`. */
  ghost predicate TreeLabels(t: Tree, P: Label -> bool)
    decreases t
  {
    P(t.item) && forall k :: k in t.kids ==> TreeLabels(k, P)
  }

  lemma {:induction false} SubtreeLabels(e: Entry, lookup: map<Json, Entry>, rank: map<Json, nat>, P: Label -> bool)
    requires Ranked(lookup, rank) && Expandable(e, lookup, rank)
    requires P(e.item) && forall k :: k in lookup ==> P(lookup[k].item)
    ensures TreeLabels(Subtree(e, lookup, rank), P)
    decreases ChildBound(e.children.value, lookup, rank) + 1, 0
  {
    SubtreesLabels(e.children.value, lookup, rank, ChildBound(e.children.value, lookup, rank), P);
  }

  lemma {:induction false} SubtreesLabels(ids: seq<Json>, lookup: map<Json, Entry>, rank: map<Json, nat>, bound: nat, P: Label -> bool)
    requires Ranked(lookup, rank)
    requires forall c :: c in ids && c in lookup ==> c in rank && rank[c] < bound
    requires forall k :: k in lookup ==> P(lookup[k].item)
    ensures forall t :: t in Subtrees(ids, lookup, rank, bound) ==> TreeLabels(t, P)
    decreases bound, |ids|
  {
    if ids != [] {
      var n := |ids| - 1;
      assert forall c :: c in ids[..n] ==> c in ids;
      SubtreesLabels(ids[..n], lookup, rank, bound, P);
      if ids[n] in lookup {
        ChildBoundAtMost(lookup[ids[n]].children.value, lookup, rank, rank[ids[n]]);
        SubtreeLabels(lookup[ids[n]], lookup, rank, P);
      }
    }
  }

  lemma {:induction false} RowsCarryLabels(ts: seq<Tree>, parent: Option<nat>, base: nat, P: Label -> bool)
    requires forall t :: t in ts ==> TreeLabels(t, P)
    ensures forall r :: r in FlattenForest(ts, parent, base) ==> P(r.item)
    decreases ts
  {
    if ts != [] {
      var n := |ts| - 1;
      var front := FlattenForest(ts[..n], parent, base);
      var b := base + |front|;
      assert forall t :: t in ts[..n] ==> t in ts;
      RowsCarryLabels(ts[..n], parent, base, P);
      assert ts[n] in ts && TreeLabels(ts[n], P);
      RowsCarryLabels(ts[n].kids, Some(b), b + 1, P);
      assert FlattenForest(ts, parent, base)
        == front + ([Row(ts[n].item, parent)] + FlattenForest(ts[n].kids, Some(b), b + 1));
    }
  }

  /** Every row drawn shows the item of one of the objects: a property of
      all the objects' items holds of every row. */
  lemma RenderedRowsCarryLabels(entries: seq<Entry>, isSearch: bool, rank: map<Json, nat>, P: Label -> bool)
    requires Renderable(entries, isSearch, rank)
    requires forall e :: e in entries ==> P(e.item)
    ensures forall r :: r in FlattenForest(Render(entries, isSearch, rank), None, 0) ==> P(r.item)
  {
    var lookup := Index(entries);
    IndexValuesAreEntries(entries);
    RootsAreParentless(entries, isSearch);
    var roots := Roots(entries, isSearch);
    var ts := Render(entries, isSearch, rank);
    forall t | t in ts
      ensures TreeLabels(t, P)
    {
      var i :| 0 <= i < |ts| && ts[i] == t;
      SubtreeLabels(roots[i], lookup, rank, P);
    }
    RowsCarryLabels(ts, None, 0, P);
  }

  // Two objects, "1" the parent of "2".

  function Parent(la: Label): Entry { Entry(Str("1"), la, Some([Str("2")]), true) }
  function Child(lb: Label): Entry { Entry(Str("2"), lb, Some([]), false) }
  function PairRank(): map<Json, nat> { map[Str("1") := 1, Str("2") := 0] }

  lemma PairLookup(la: Label, lb: Label)
    ensures Index([Parent(la), Child(lb)]) == map[Str("1") := Parent(la), Str("2") := Child(lb)]
    ensures Renderable([Parent(la), Child(lb)], false, PairRank())
    ensures Renderable([Parent(la), Child(lb)], true, PairRank())
  {
    var a, b := Parent(la), Child(lb);
    assert [a, b][..1] == [a] && [a][..0] == [];
    assert Str("1") != Str("2") by {
      assert "1"[0] != "2"[0];
    }
    assert Index([a]) == map[Str("1") := a];
    var lookup := Index([a, b]);
    assert Below(a, lookup, PairRank()) && Below(b, lookup, PairRank());
  }

  lemma PairTrees(la: Label, lb: Label)
    ensures Renderable([Parent(la), Child(lb)], false, PairRank()) && Render([Parent(la), Child(lb)], false, PairRank()) == [Node(la, [Node(lb, [])])]
    ensures Renderable([Parent(la), Child(lb)], true, PairRank()) && Render([Parent(la), Child(lb)], true, PairRank()) == [Node(la, [Node(lb, [])]), Node(lb, [])]
  {
    PairLookup(la, lb);
    var a, b, rank := Parent(la), Child(lb), PairRank();
    var lookup := Index([a, b]);
    var tb := Subtree(b, lookup, rank);
    assert Subtrees([], lookup, rank, 0) == [];
    assert tb == Node(lb, []);
    assert [Str("2")][..0] == [];
    assert Subtrees([Str("2")], lookup, rank, 1) == Subtrees([], lookup, rank, 1) + [tb];
    var ta := Subtree(a, lookup, rank);
    assert ta == Node(la, [tb]);
    assert [a, b][..1] == [a] && [a][..0] == [];
    assert Parentless([a]) == [a];
    assert Forest([a], lookup, rank) == [ta];
    assert Forest([a, b], lookup, rank) == [ta, tb];
  }

  lemma PairRows(la: Label, lb: Label)
    ensures FlattenForest([Node(la, [Node(lb, [])])], None, 0) == [Row(la, None), Row(lb, Some(0))]
    ensures FlattenForest([Node(la, [Node(lb, [])]), Node(lb, [])], None, 0)
         == [Row(la, None), Row(lb, Some(0)), Row(lb, None)]
  {
    var tb := Node(lb, []);
    var ta := Node(la, [tb]);
    assert FlattenForest([], Some(1), 2) == [];
    assert FlattenTree(tb, Some(0), 1) == [Row(lb, Some(0))];
    assert [tb][..0] == [] && [ta][..0] == [] && [ta, tb][..1] == [ta];
    assert FlattenForest([tb], Some(0), 1) == [Row(lb, Some(0))];
    assert FlattenTree(ta, None, 0) == [Row(la, None), Row(lb, Some(0))];
    assert FlattenForest([ta], None, 0) == [Row(la, None), Row(lb, Some(0))];
    assert FlattenForest([], Some(2), 3) == [];
    assert FlattenTree(tb, None, 2) == [Row(lb, None)];
  }

  /** Browsing draws "1" with "2" below it; as a search result each object
      is also drawn at top level, so "2" appears twice: nothing records
      which objects were already drawn. */
  lemma SearchDrawsChildrenTwice(la: Label, lb: Label)
    ensures Renderable([Parent(la), Child(lb)], false, PairRank())
      && FlattenForest(Render([Parent(la), Child(lb)], false, PairRank()), None, 0)
      == [Row(la, None), Row(lb, Some(0))]
    ensures Renderable([Parent(la), Child(lb)], true, PairRank())
      && FlattenForest(Render([Parent(la), Child(lb)], true, PairRank()), None, 0)
      == [Row(la, None), Row(lb, Some(0)), Row(lb, None)]
  {
    PairTrees(la, lb);
    PairRows(la, lb);
  }

  /** A root shadowed in the lookup by a later object with its id is still
      drawn, and a child id equal to its own id resolves to that later
      object: `[{"id":"1","children":["1"]}, {"id":"1","children":[]}]` as a
      search result draws the first with the second below it, then the
      second, and stops. */
  lemma ShadowedRootIsDrawn(la: Label, lb: Label)
    ensures var a, b := Entry(Str("1"), la, Some([Str("1")]), true), Entry(Str("1"), lb, Some([]), true);
      && Renderable([a, b], true, map[Str("1") := 0])
      && FlattenForest(Render([a, b], true, map[Str("1") := 0]), None, 0)
      == [Row(la, None), Row(lb, Some(0)), Row(lb, None)]
  {
    var a, b := Entry(Str("1"), la, Some([Str("1")]), true), Entry(Str("1"), lb, Some([]), true);
    var rank: map<Json, nat> := map[Str("1") := 0];
    assert [a, b][..1] == [a] && [a][..0] == [];
    assert Index([a]) == map[Str("1") := a];
    var lookup := Index([a, b]);
    assert lookup == map[Str("1") := a][Str("1") := b] == map[Str("1") := b];
    assert Below(b, lookup, rank);
    var tb := Subtree(b, lookup, rank);
    assert ChildBound([], lookup, rank) == 0;
    assert Subtrees([], lookup, rank, 0) == [];
    assert tb == Node(lb, []);
    assert [Str("1")][..0] == [];
    assert ChildBound([Str("1")], lookup, rank) == 1;
    assert Subtrees([Str("1")], lookup, rank, 1) == Subtrees([], lookup, rank, 1) + [tb];
    var ta := Subtree(a, lookup, rank);
    assert ta == Node(la, [tb]);
    assert Forest([a], lookup, rank) == [ta];
    assert Forest([a, b], lookup, rank) == [ta, tb];
    PairRows(la, lb);
  }

  // ---------------------------------------------------------------------
  // The widget, grown in place
  // ---------------------------------------------------------------------

  /** A QTreeWidget: its items in the order they were added. */
  class TreeWidget {
    var rows: seq<Row>

    ghost predicate Valid()
      reads this
    {
      ParentsBefore(rows, 0)
    }

    constructor ()
      ensures Valid() && rows == []
    {
      rows := [];
    }

    /** `clear()`: all previous contents are discarded. */
    method Clear()
      modifies this
      ensures Valid() && rows == []
    {
      rows := [];
    }

    /** `addTopLevelItem(item)`; returns the new item's index. */
    method AddTopLevelItem(shown: Label) returns (item: nat)
      requires Valid()
      modifies this
      ensures Valid()
      ensures rows == old(rows) + [Row(shown, None)] && item == |old(rows)|
    {
      item := |rows|;
      rows := rows + [Row(shown, None)];
    }

    /** `parent_item.addChild(item)`; returns the new item's index. */
    method AddChild(parent: nat, shown: Label) returns (item: nat)
      requires Valid() && parent < |rows|
      modifies this
      ensures Valid()
      ensures rows == old(rows) + [Row(shown, Some(parent))] && item == |old(rows)|
    {
      item := |rows|;
      rows := rows + [Row(shown, Some(parent))];
    }

    /** `_add_object_to_tree`: add `e`'s item under `parent` (or at top
        level), then, for each child id in order, the subtree of the object
        the lookup resolves it to; unresolved ids are skipped. */
    method AddObjectToTree(e: Entry, lookup: map<Json, Entry>, parent: Option<nat>, ghost rank: map<Json, nat>)
      requires Ranked(lookup, rank) && Expandable(e, lookup, rank)
      requires Valid() && (parent.Some? ==> parent.value < |rows|)
      modifies this
      ensures Valid()
      ensures rows == old(rows) + FlattenTree(Subtree(e, lookup, rank), parent, |old(rows)|)
      decreases ChildBound(e.children.value, lookup, rank)
    {
      var item;
      if parent.None? {
        item := AddTopLevelItem(e.item);
      } else {
        item := AddChild(parent.value, e.item);
      }
      ghost var start := rows;
      var children := e.children.value;
      var i := 0;
      while i < |children|
        invariant 0 <= i <= |children|
        invariant |start| == item + 1
        invariant rows == start + ChildRows(e, i, lookup, rank, item)
        invariant Valid()
      {
        var childId := children[i];
        if childId in lookup {
          ChildRowsStep(e, i, lookup, rank, item);
          ResolvedChildDescends(e, childId, lookup, rank);
          AddObjectToTree(lookup[childId], lookup, Some(item), rank);
        } else {
          ChildRowsStep(e, i, lookup, rank, item);
        }
        i := i + 1;
      }
      ChildRowsAll(e, lookup, rank, parent, item);
    }

    /** `display_hierarchical_results`: clear the widget, then draw one
        subtree per root, in input order. */
    method DisplayHierarchy(entries: seq<Entry>, isSearch: bool, ghost rank: map<Json, nat>)
      requires Renderable(entries, isSearch, rank)
      modifies this
      ensures Valid()
      ensures rows == FlattenForest(Render(entries, isSearch, rank), None, 0)
    {
      Clear();
      var lookup := Index(entries);
      RootRowsAll(entries, isSearch, rank);
      if isSearch {
        for i := 0 to |entries|
          invariant rows == RootRows(entries, isSearch, rank, i)
          invariant Valid()
        {
          RootRowsStep(entries, isSearch, rank, i);
          AddObjectToTree(entries[i], lookup, None, rank);
        }
      } else {
        for i := 0 to |entries|
          invariant rows == RootRows(entries, isSearch, rank, i)
          invariant Valid()
        {
          var e := entries[i];
          if e.isRoot {
            RootRowsStep(entries, isSearch, rank, i);
            AddObjectToTree(e, lookup, None, rank);
          } else {
            RootRowsStep(entries, isSearch, rank, i);
          }
        }
      }
    }
  }
}
