/**
  The drawing layer as a list of shapes, and the value-level operations the session performs
  on it in src/draw-canvas/draw-canvas.context.js: selection emphasis, removal, the snapshot
  that goes into the history, recreating the shapes of a snapshot, and the draggable flag.
*/
module Layer {
  import opened Wrappers
  import opened Shapes
  import opened History

  /** Opacity that marks the selected shape. */
  const SelectedOpacity: real := 0.8

  /** The shapes on the drawing layer, bottom to top. */
  type Layer = seq<Shape>

  predicate HasId(layer: Layer, id: ShapeId)
  {
    exists k :: 0 <= k < |layer| && layer[k].id == id
  }

  /** No two shapes on the layer are the same node. */
  predicate UniqueIds(layer: Layer)
  {
    forall j, k :: 0 <= j < |layer| && 0 <= k < |layer| && layer[j].id == layer[k].id ==> j == k
  }

  /** Every node was created before the id `bound` was handed out. */
  predicate IdsBelow(layer: Layer, bound: nat)
  {
    forall k :: 0 <= k < |layer| ==> layer[k].id < bound
  }

  predicate AllWellFormed(layer: Layer)
  {
    forall k :: 0 <= k < |layer| ==> WellFormed(layer[k].geometry)
  }

  /** The selected shape, and only it, is shown at the selection opacity; every other shape is opaque. */
  predicate Emphasis(layer: Layer, selected: Option<ShapeId>)
  {
    forall k :: 0 <= k < |layer| ==>
      layer[k].opacity == (if selected == Some(layer[k].id) then SelectedOpacity else UnselectedOpacity)
  }

  /** Every shape's draggable flag is `draggable`. */
  predicate AllDraggable(layer: Layer, draggable: bool)
  {
    forall k :: 0 <= k < |layer| ==> layer[k].draggable == draggable
  }

  /** What a snapshot may hold: consistent shapes, none of them emphasised. */
  predicate Storable(snapshot: Layer)
  {
    forall k :: 0 <= k < |snapshot| ==> snapshot[k].opacity == UnselectedOpacity && WellFormed(snapshot[k].geometry)
  }

  /** The geometry of the layer's shapes, in order: what the canvas shows apart from emphasis. */
  function Geometries(layer: Layer): (gs: seq<Geometry>)
    ensures |gs| == |layer|
  {
    seq(|layer|, k requires 0 <= k < |layer| => layer[k].geometry)
  }

  /** The position of the node `id` on the layer, if it is there. */
  function IndexOf(layer: Layer, id: ShapeId): (r: Option<nat>)
    ensures r.Some? ==> r.value < |layer| && layer[r.value].id == id
    ensures r.None? <==> !HasId(layer, id)
  {
    if layer == [] then None
    else if layer[0].id == id then Some(0)
    else
      var rest := IndexOf(layer[1..], id);
      if rest.None? then
        assert forall k :: 1 <= k < |layer| ==> layer[k] == layer[1..][k - 1];
        None
      else Some(rest.value + 1)
  }

  /** Sets the opacity of the node `id`, leaving every other shape as it is. */
  function SetOpacity(layer: Layer, id: ShapeId, opacity: real): Layer
  {
    seq(|layer|, k requires 0 <= k < |layer| => if layer[k].id == id then layer[k].(opacity := opacity) else layer[k])
  }

  /** `deselectShape`: the selected shape, if any, goes back to full opacity. */
  function Deselect(layer: Layer, selected: Option<ShapeId>): Layer
  {
    if selected.None? then layer else SetOpacity(layer, selected.value, UnselectedOpacity)
  }

  /**
    `selectShape`: nothing changes when `id` is already selected; otherwise the previous
    selection is cleared and `id` is shown at the selection opacity.
  */
  function Select(layer: Layer, selected: Option<ShapeId>, id: ShapeId): Layer
  {
    if selected == Some(id) then layer else SetOpacity(Deselect(layer, selected), id, SelectedOpacity)
  }

  /** Selection only changes opacities: the shapes, their order and their geometry stay. */
  lemma SelectionKeepsShapes(layer: Layer, selected: Option<ShapeId>, id: ShapeId)
    ensures var after := Select(layer, selected, id);
      |after| == |layer| && Geometries(after) == Geometries(layer)
      && (forall k :: 0 <= k < |layer| ==> after[k].id == layer[k].id && after[k].draggable == layer[k].draggable)
    ensures var after := Deselect(layer, selected);
      |after| == |layer| && Geometries(after) == Geometries(layer)
      && (forall k :: 0 <= k < |layer| ==> after[k].id == layer[k].id && after[k].draggable == layer[k].draggable)
  {
  }

  /** Selecting moves the emphasis to the new shape, and deselecting removes it. */
  lemma SelectionKeepsEmphasis(layer: Layer, selected: Option<ShapeId>, id: ShapeId)
    requires Emphasis(layer, selected)
    ensures Emphasis(Select(layer, selected, id), Some(id))
    ensures Emphasis(Deselect(layer, selected), None)
  {
  }

  /** With distinct nodes, at most one shape is ever shown at the selection opacity. */
  lemma {:induction false} AtMostOneEmphasised(layer: Layer, selected: Option<ShapeId>)
    requires Emphasis(layer, selected) && UniqueIds(layer)
    ensures forall j, k :: 0 <= j < |layer| && 0 <= k < |layer| && layer[j].opacity == SelectedOpacity && layer[k].opacity == SelectedOpacity ==> j == k
  {
    forall j, k | 0 <= j < |layer| && 0 <= k < |layer| && layer[j].opacity == SelectedOpacity && layer[k].opacity == SelectedOpacity
      ensures j == k
    {
      assert selected == Some(layer[j].id);
      assert selected == Some(layer[k].id);
    }
  }

  /** The layer without the node `id` (`shape.remove()`); the other shapes keep their order. */
  function Without(layer: Layer, id: ShapeId): (r: Layer)
    ensures !HasId(layer, id) ==> r == layer
    ensures HasId(layer, id) ==> |r| == |layer| - 1
    ensures forall s :: s in r ==> s in layer
    ensures forall s :: s in layer && s.id != id ==> s in r
    ensures UniqueIds(layer) ==> !HasId(r, id)
  {
    var i := IndexOf(layer, id);
    if i.None? then layer
    else
      var r := layer[..i.value] + layer[i.value + 1..];
      assert forall s :: s in r ==> s in layer by {
        forall s | s in r ensures s in layer {
          var j :| 0 <= j < |r| && r[j] == s;
          assert s == layer[if j < i.value then j else j + 1];
        }
      }
      assert forall s :: s in layer && s.id != id ==> s in r by {
        forall s | s in layer && s.id != id ensures s in r {
          var j :| 0 <= j < |layer| && layer[j] == s;
          assert j != i.value;
          assert s == r[if j < i.value then j else j - 1];
        }
      }
      r
  }

  /**
    Removing the selected shape leaves every other shape in order, no emphasis behind, the
    node gone, and the layer's invariants intact.
  */
  lemma RemoveSelectedKeepsInvariants(layer: Layer, id: ShapeId, bound: nat)
    requires Emphasis(layer, Some(id)) && UniqueIds(layer) && IdsBelow(layer, bound) && AllWellFormed(layer)
    requires HasId(layer, id)
    ensures var r := Without(layer, id);
      && |r| == |layer| - 1 && !HasId(r, id)
      && (forall k :: 0 <= k < |layer| && layer[k].id != id ==> layer[k] in r)
      && Emphasis(r, None) && UniqueIds(r) && IdsBelow(r, bound) && AllWellFormed(r)
  {
    var i := IndexOf(layer, id).value;
    var r := Without(layer, id);
    assert r == layer[..i] + layer[i + 1..];
    forall j | 0 <= j < |r|
      ensures r[j] == layer[if j < i then j else j + 1] && r[j].id != id
    {
      assert (if j < i then j else j + 1) != i;
    }
    assert Emphasis(r, None);
    assert UniqueIds(r);
  }

  /** Two layers holding the same nodes at the same positions (their attributes may differ). */
  predicate SameIds(a: Layer, b: Layer)
  {
    |a| == |b| && forall k :: 0 <= k < |a| ==> a[k].id == b[k].id
  }

  /** Facts about node identity carry over between layers with the same nodes. */
  lemma SameIdsKeepNodes(a: Layer, b: Layer, bound: nat)
    requires SameIds(a, b)
    ensures UniqueIds(a) ==> UniqueIds(b)
    ensures IdsBelow(a, bound) ==> IdsBelow(b, bound)
    ensures forall id :: HasId(a, id) ==> HasId(b, id)
  {
    forall id | HasId(a, id)
      ensures HasId(b, id)
    {
      var k :| 0 <= k < |a| && a[k].id == id;
      assert b[k].id == id;
    }
  }

  /**
    Adding a new node on top keeps every node where it was and the layer's invariants, as
    long as the node is newer than all others, consistent, not emphasised and draggable as
    the others are.
  */
  lemma AppendKeepsInvariants(layer: Layer, s: Shape, bound: nat, selected: Option<ShapeId>, draggable: bool)
    requires UniqueIds(layer) && IdsBelow(layer, bound) && AllWellFormed(layer)
    requires Emphasis(layer, selected) && AllDraggable(layer, draggable)
    requires selected.Some? ==> HasId(layer, selected.value)
    requires s.id == bound && WellFormed(s.geometry) && s.opacity == UnselectedOpacity && s.draggable == draggable
    ensures var r := layer + [s];
      && UniqueIds(r) && IdsBelow(r, bound + 1) && AllWellFormed(r)
      && Emphasis(r, selected) && AllDraggable(r, draggable)
      && HasId(r, s.id) && (forall k :: 0 <= k < |r| && r[k].id == s.id ==> k == |layer|)
      && (forall id :: HasId(layer, id) ==> HasId(r, id))
  {
    var r := layer + [s];
    assert r[|layer|].id == s.id;
    forall id | HasId(layer, id)
      ensures HasId(r, id)
    {
      var k :| 0 <= k < |layer| && layer[k].id == id;
      assert r[k].id == id;
    }
    if selected.Some? {
      var k :| 0 <= k < |layer| && layer[k].id == selected.value;
      assert selected.value < bound;
    }
  }

  /** Sets every shape's draggable flag (the loop over the layer's children). */
  function WithDraggable(layer: Layer, draggable: bool): Layer
  {
    seq(|layer|, k requires 0 <= k < |layer| => layer[k].(draggable := draggable))
  }

  /**
    The draggable loop makes every shape draggable exactly as asked and changes nothing else:
    not the geometry, the identity, the emphasis, or the layer's invariants.
  */
  lemma WithDraggableKeepsLayer(layer: Layer, draggable: bool, selected: Option<ShapeId>, bound: nat)
    ensures var r := WithDraggable(layer, draggable);
      && AllDraggable(r, draggable)
      && Geometries(r) == Geometries(layer)
      && (forall k :: 0 <= k < |r| ==> r[k].id == layer[k].id && r[k].opacity == layer[k].opacity)
      && (Emphasis(layer, selected) ==> Emphasis(r, selected))
      && (UniqueIds(layer) ==> UniqueIds(r))
      && (IdsBelow(layer, bound) ==> IdsBelow(r, bound))
      && (AllWellFormed(layer) ==> AllWellFormed(r))
      && (forall id :: HasId(layer, id) ==> HasId(r, id))
  {
    var r := WithDraggable(layer, draggable);
    forall id | HasId(layer, id)
      ensures HasId(r, id)
    {
      var k :| 0 <= k < |layer| && layer[k].id == id;
      assert r[k].id == id;
    }
  }

  /**
    The snapshot the history stores for the layer (`layer.toJSON()`), with the selection's
    emphasis left out: the layer as it looks once nothing is selected.
  */
  function SnapshotOf(layer: Layer, selected: Option<ShapeId>): (s: Layer)
    ensures |s| == |layer|
    ensures forall k :: 0 <= k < |s| ==>
      && s[k].id == layer[k].id && s[k].geometry == layer[k].geometry && s[k].draggable == layer[k].draggable
      && s[k].opacity == (if selected == Some(layer[k].id) then UnselectedOpacity else layer[k].opacity)
    ensures Emphasis(layer, selected) ==> Emphasis(s, None)
  {
    Deselect(layer, selected)
  }

  /** The snapshot the original code stores: the layer exactly as it is, emphasis included. */
  function SnapshotAsWritten(layer: Layer): Layer
  {
    layer
  }

  /** A snapshot taken while the emphasis invariant holds can be stored: no shape in it is emphasised. */
  lemma SnapshotIsStorable(layer: Layer, selected: Option<ShapeId>)
    requires Emphasis(layer, selected) && AllWellFormed(layer)
    ensures Storable(SnapshotOf(layer, selected))
    ensures Geometries(SnapshotOf(layer, selected)) == Geometries(layer)
  {
    SelectionKeepsEmphasis(layer, selected, 0);
  }

  /**
    The shapes `Konva.Node.create` builds from a snapshot: new nodes, numbered from
    `firstId`, with the stored attributes.
  */
  function Recreate(snapshot: Layer, firstId: nat): (r: Layer)
    ensures |r| == |snapshot|
    ensures forall k :: 0 <= k < |r| ==> r[k].id == firstId + k
  {
    seq(|snapshot|, k requires 0 <= k < |snapshot| => snapshot[k].(id := firstId + k))
  }

  /**
    The layer `restoreHistorySnapshot` leaves for a history entry: nothing for `EMPTY`,
    otherwise the recreated shapes, each draggable exactly when `draggable` says.
  */
  function Restored(entry: Entry<Layer>, firstId: nat, draggable: bool): Layer
  {
    match entry
    case Empty => []
    case Snapshot(snapshot) => WithDraggable(Recreate(snapshot, firstId), draggable)
  }

  /** The number of new nodes a restore creates. */
  function RestoredCount(entry: Entry<Layer>): nat
  {
    if entry.Empty? then 0 else |entry.value|
  }

  /**
    A restored layer satisfies the session's invariants: distinct nodes, all newer than any
    before the restore, consistent geometry, no emphasis, draggable as asked.
  */
  lemma RestoredIsValid(entry: Entry<Layer>, firstId: nat, draggable: bool)
    requires entry.Snapshot? ==> Storable(entry.value)
    ensures var r := Restored(entry, firstId, draggable);
      && |r| == RestoredCount(entry)
      && UniqueIds(r) && IdsBelow(r, firstId + RestoredCount(entry)) && AllWellFormed(r)
      && Emphasis(r, None) && AllDraggable(r, draggable)
      && (forall k :: 0 <= k < |r| ==> r[k].id >= firstId)
  {
  }

  /**
    Round trip: restoring the snapshot of a layer gives back the same shapes with the same
    geometry in the same order, unselected and draggable as the current tool says.
  */
  lemma SnapshotRestoreRoundTrip(layer: Layer, selected: Option<ShapeId>, firstId: nat, draggable: bool)
    requires Emphasis(layer, selected) && AllWellFormed(layer)
    ensures var r := Restored(Snapshot(SnapshotOf(layer, selected)), firstId, draggable);
      && Geometries(r) == Geometries(layer)
      && Emphasis(r, None) && AllDraggable(r, draggable)
  {
    SnapshotIsStorable(layer, selected);
    var snapshot := SnapshotOf(layer, selected);
    var r := Restored(Snapshot(snapshot), firstId, draggable);
    assert Geometries(r) == Geometries(snapshot);
    RestoredIsValid(Snapshot(snapshot), firstId, draggable);
  }

  /**
    What the stored emphasis does as written: a shape selected when its snapshot was taken
    comes back at the selection opacity although nothing is selected after the restore.
  */
  lemma AsWrittenRestoreShowsStaleEmphasis(g: Geometry)
    ensures var layer := [Shape(0, g, SelectedOpacity, true)];
      && Emphasis(layer, Some(0))
      && var r := Restored(Snapshot(SnapshotAsWritten(layer)), 1, true);
         r[0].opacity == SelectedOpacity && !Emphasis(r, None)
  {
  }
}
