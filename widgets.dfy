/** `ObjectTreeWidget`: the plugin's tree of parsed catalog records, one item
    per record, with a Load button per item. What the widget reads of a
    record is its entry; the drawing itself is `TreeView.TreeWidget`. */
module Widgets {
  import opened Wrappers
  import opened Json
  import opened Models
  import opened TreeView

  /** `_create_button_widget`: the button is connected to
      `load_callback(part_id)` only when a callback is given. */
  function LoadButton(id: Json, hasCallback: bool): Button
  {
    if hasCallback then LoadsId(id) else Unconnected
  }

  /** What the widget reads of a record: it is filed under `obj.id`, its item
      shows `obj.name` and `obj.id`, its children are whatever iterating
      `obj.children` yields, and it is a root when `obj.parents` is falsy. */
  function EntryOf(obj: BasicObject, hasCallback: bool): (e: Entry)
    ensures e.key == obj.id && e.item.id == obj.id && e.item.name == obj.name
    ensures hasCallback ==> e.item.button == LoadsId(obj.id)
    ensures !hasCallback ==> e.item.button == Unconnected
    ensures e.isRoot <==> !Truthy(obj.parents)
    ensures e.children.None? <==> obj.children.Null? || obj.children.Bool? || obj.children.Num?
    ensures obj.children.Arr? ==> e.children == Some(obj.children.items)
  {
    Entry(obj.id, Label(obj.name, obj.id, LoadButton(obj.id, hasCallback)), Iterate(obj.children), !Truthy(obj.parents))
  }

  function Entries(objects: seq<BasicObject>, hasCallback: bool): (es: seq<Entry>)
    ensures |es| == |objects|
    ensures forall i :: 0 <= i < |objects| ==> es[i] == EntryOf(objects[i], hasCallback)
  {
    seq(|objects|, i requires 0 <= i < |objects| => EntryOf(objects[i], hasCallback))
  }

  /** The records whose `parents` is falsy (None, [], {}, "", 0), in input
      order. */
  function ParentlessRecords(objects: seq<BasicObject>): seq<BasicObject>
  {
    if objects == [] then []
    else
      var n := |objects| - 1;
      ParentlessRecords(objects[..n]) + (if Truthy(objects[n].parents) then [] else [objects[n]])
  }

  /** In browse mode the roots are the entries of exactly the records with
      falsy `parents`, in input order. */
  lemma {:induction false} BrowseRootsAreParentlessRecords(objects: seq<BasicObject>, hasCallback: bool)
    ensures Roots(Entries(objects, hasCallback), false) == Entries(ParentlessRecords(objects), hasCallback)
    decreases |objects|
  {
    if objects != [] {
      var n := |objects| - 1;
      var es := Entries(objects, hasCallback);
      assert es[..n] == Entries(objects[..n], hasCallback);
      BrowseRootsAreParentlessRecords(objects[..n], hasCallback);
      var front := ParentlessRecords(objects[..n]);
      assert Parentless(es) == Parentless(es[..n]) + (if es[n].isRoot then [es[n]] else []);
      if Truthy(objects[n].parents) {
        assert ParentlessRecords(objects) == front;
        assert Parentless(es) == Parentless(es[..n]) + [];
      } else {
        assert ParentlessRecords(objects) == front + [objects[n]];
        assert Entries(front + [objects[n]], hasCallback) == Entries(front, hasCallback) + [es[n]];
      }
    }
  }

  /** The top-level items: one per record for a search result, one per
      parentless record otherwise, in input order. */
  lemma TopLevelRecords(objects: seq<BasicObject>, isSearch: bool, hasCallback: bool, rank: map<Json, nat>)
    requires Renderable(Entries(objects, hasCallback), isSearch, rank)
    ensures var shown := if isSearch then objects else ParentlessRecords(objects);
      TopLevel(FlattenForest(Render(Entries(objects, hasCallback), isSearch, rank), None, 0))
        == ItemsOf(Entries(shown, hasCallback))
  {
    TopLevelItemsAreRoots(Entries(objects, hasCallback), isSearch, rank);
    if !isSearch {
      BrowseRootsAreParentlessRecords(objects, hasCallback);
    }
  }

  /** Every item's Load button loads that item's own id when a callback is
      given, and no item's button is connected otherwise. */
  lemma LoadButtonsCarryOwnId(objects: seq<BasicObject>, isSearch: bool, hasCallback: bool, rank: map<Json, nat>)
    requires Renderable(Entries(objects, hasCallback), isSearch, rank)
    ensures forall r :: r in FlattenForest(Render(Entries(objects, hasCallback), isSearch, rank), None, 0) ==>
      if hasCallback then r.item.button == LoadsId(r.item.id) else r.item.button == Unconnected
  {
    var P := (l: Label) => l.button == LoadButton(l.id, hasCallback);
    RenderedRowsCarryLabels(Entries(objects, hasCallback), isSearch, rank, P);
  }

  /** A drawn record whose `children` is not iterable (a number, a bool,
      None) cannot be drawn: `for child_id in obj.children` raises. */
  lemma NonIterableChildrenBlockDrawing(objects: seq<BasicObject>, isSearch: bool, hasCallback: bool, rank: map<Json, nat>, i: nat)
    requires i < |objects| && Iterate(objects[i].children).None?
    requires isSearch || !Truthy(objects[i].parents)
    ensures !Renderable(Entries(objects, hasCallback), isSearch, rank)
  {
    var es := Entries(objects, hasCallback);
    assert es[i] in es;
  }

  /** The widget, a tree widget with the columns Name, ID and Actions. */
  class ObjectTreeWidget {
    const tree: TreeWidget

    ghost predicate Valid()
      reads this, tree
    {
      tree.Valid()
    }

    constructor()
      ensures Valid() && fresh(tree) && tree.rows == []
    {
      tree := new TreeWidget();
    }

    /** `display_hierarchical_results`: clears the tree and draws the
        records, every record at top level for a search result, the
        parentless ones otherwise, each with its resolved children below it. */
    method DisplayHierarchicalResults(objects: seq<BasicObject>, isSearchResult: bool, hasCallback: bool, ghost rank: map<Json, nat>)
      requires Renderable(Entries(objects, hasCallback), isSearchResult, rank)
      modifies tree
      ensures Valid()
      ensures tree.rows == FlattenForest(Render(Entries(objects, hasCallback), isSearchResult, rank), None, 0)
    {
      tree.DisplayHierarchy(Entries(objects, hasCallback), isSearchResult, rank);
    }
  }
}
