/**
  Short event sequences run through a fresh session, each stating what the user sees at the
  end: which snapshots the history holds and what the layer looks like. The setup steps are
  helper methods that state the whole session they leave, so each sequence stays short.
*/
module Scenarios {
  import opened Wrappers
  import opened Points
  import opened Shapes
  import opened History
  import opened Layer
  import opened Context

  /** A new session created without a font size, with `tool` chosen and nothing drawn yet. */
  method SessionWithTool(tool: Tool) returns (session: Session)
    ensures fresh(session) && fresh(session.history) && session.Valid()
    ensures session.State() == SessionState(Some(tool), FontSizeDefault, "", [], None, false, None, None, None, None, 0)
    ensures session.history.View() == Log([], -1) && session.notified == []
  {
    session := new Session(None);
    session.ToolSetter(tool);
  }

  /** A pen press released without moving leaves a single point, which is not worth an undo step. */
  method PenClickLeavesNoHistory(p: Point) returns (entries: seq<Layer>, shapes: Layer)
    ensures entries == []
    ensures |shapes| == 1 && shapes[0].geometry == PenLine([p.x, p.y])
  {
    var session := SessionWithTool(Pen);
    session.HandleMouseDown(OnStage, p);
    session.HandleMouseUp();
    entries := session.DumpHistory();
    shapes := session.layer;
  }

  /** A pen stroke with one move far enough from the press is committed once, with both points. */
  method PenStrokeCommitsOnce(p: Point, q: Point) returns (entries: seq<Layer>)
    requires !(SquaredDistance(p, q) < MinPointDistance * MinPointDistance)
    ensures |entries| == 1 && |entries[0]| == 1
    ensures entries[0][0].geometry == PenLine([p.x, p.y, q.x, q.y])
    ensures entries[0][0].opacity == UnselectedOpacity
  {
    var session := SessionWithTool(Pen);
    session.HandleMouseDown(OnStage, p);
    session.HandleMouseMove(q);
    assert session.layer[0].geometry == PenLine([p.x, p.y, q.x, q.y]);
    session.HandleMouseUp();
    entries := session.DumpHistory();
  }

  /** The pin the pin tool places at `p` with an empty label, as node `id`. */
  function PinNode(id: ShapeId, p: Point, draggable: bool): Shape
  {
    Shape(id, PinFrom(p, ""), UnselectedOpacity, draggable)
  }

  /** A session whose pin tool has placed one pin at `p`; the placement is the one snapshot. */
  method OnePinSession(p: Point) returns (session: Session)
    ensures fresh(session) && fresh(session.history) && session.Valid()
    ensures session.State() == SessionState(Some(Pin), FontSizeDefault, "", [PinNode(0, p, false)], None, false, None, None, None, None, 1)
    ensures session.history.View() == Log([[PinNode(0, p, false)]], 0)
  {
    session := SessionWithTool(Pin);
    assert InstantiateShape(Some(Pin), 0, p, FontSizeDefault, "", "") == Success(PinNode(0, p, false));
    session.HandleMouseDown(OnStage, p);
    assert session.layer == [PinNode(0, p, false)];
  }

  /** A session holding one pin placed at `p`, selected with the drag tool. */
  method SelectedPinSession(p: Point) returns (session: Session)
    ensures fresh(session) && fresh(session.history) && session.Valid()
    ensures session.State() == SessionState(Some(Drag), FontSizeDefault, "", [Shape(0, PinFrom(p, ""), SelectedOpacity, true)], Some(0), false, None, None, None, None, 1)
    ensures session.history.View() == Log([[PinNode(0, p, false)]], 0)
  {
    session := OnePinSession(p);
    session.ToolSetter(Drag);
    assert session.layer == [PinNode(0, p, true)];
    assert session.layer[0].id == 0;
    session.HandleShapeMouseDown(0);
  }

  /**
    Deleting the selected shape removes it and commits the empty layer; a second delete has
    nothing selected and reports it.
  */
  method DeleteTwice(p: Point) returns (first: Outcome<SessionError>, second: Outcome<SessionError>, entries: seq<Layer>)
    ensures first.Pass? && second == Fail(NoShapeSelected)
    ensures |entries| == 2 && |entries[0]| == 1 && entries[1] == []
  {
    var session := SelectedPinSession(p);
    DeletedPinState(p);
    first := session.DelActive();
    second := session.DelActive();
    entries := session.DumpHistory();
  }

  /** Deleting the only pin leaves the empty layer, committed after the placement. */
  lemma DeletedPinState(p: Point)
    ensures Without([Shape(0, PinFrom(p, ""), SelectedOpacity, true)], 0) == []
    ensures Log([[PinNode(0, p, false)]], 0).Commit([], HistoryCapacity) == Log([[PinNode(0, p, false)], []], 1)
  {
  }

  /** The second pin is node 1 at `q`, and placing it commits both pins after the first placement. */
  lemma SecondPinState(p: Point, q: Point)
    ensures InstantiateShape(Some(Pin), 1, q, FontSizeDefault, "", "") == Success(PinNode(1, q, false))
    ensures var both := [PinNode(0, p, false), PinNode(1, q, false)];
      && [PinNode(0, p, false)] + [PinNode(1, q, false)] == both
      && Log([[PinNode(0, p, false)]], 0).Commit(SnapshotOf(both, None), HistoryCapacity)
         == Log([[PinNode(0, p, false)], both], 1)
  {
  }

  /** A session whose pin tool has placed a pin at `p` and then one at `q`, each committed. */
  method TwoPinSession(p: Point, q: Point) returns (session: Session)
    ensures fresh(session) && fresh(session.history) && session.Valid()
    ensures session.State() == SessionState(Some(Pin), FontSizeDefault, "", [PinNode(0, p, false), PinNode(1, q, false)], None, false, None, None, None, None, 2)
    ensures session.history.View() == Log([[PinNode(0, p, false)], [PinNode(0, p, false), PinNode(1, q, false)]], 1)
  {
    session := OnePinSession(p);
    SecondPinState(p, q);
    session.HandleMouseDown(OnStage, q);
  }

  /**
    Two pins, then undo: the layer shows only the first pin again, made as a new node, and
    redo brings the second back.
  */
  method UndoRedoPins(p: Point, q: Point) returns (afterUndo: Layer, afterRedo: Layer)
    ensures |afterUndo| == 1 && afterUndo[0].geometry == PinFrom(p, "")
    ensures |afterRedo| == 2 && afterRedo[0].geometry == PinFrom(p, "") && afterRedo[1].geometry == PinFrom(q, "")
    ensures forall k :: 0 <= k < |afterRedo| ==> afterRedo[k].opacity == UnselectedOpacity
  {
    var session := TwoPinSession(p, q);
    session.Undo();
    assert session.history.View().Current() == Snapshot([PinNode(0, p, false)]);
    afterUndo := session.layer;
    session.Redo();
    assert session.history.View().Current() == Snapshot([PinNode(0, p, false), PinNode(1, q, false)]);
    afterRedo := session.layer;
  }

  /** Ending the drag of the selected pin deselects it and commits it unemphasised after the placement. */
  lemma DraggedPinState(p: Point)
    ensures var selectedPin := [Shape(0, PinFrom(p, ""), SelectedOpacity, true)];
      && Deselect(selectedPin, Some(0)) == [PinNode(0, p, true)]
      && Log([[PinNode(0, p, false)]], 0).Commit(SnapshotOf(selectedPin, Some(0)), HistoryCapacity)
         == Log([[PinNode(0, p, false)], [PinNode(0, p, true)]], 1)
  {
  }

  /** The session of `SelectedPinSession` after the pin's drag ends: committed unemphasised, then deselected. */
  method DraggedPinSession(p: Point) returns (session: Session)
    ensures fresh(session) && fresh(session.history) && session.Valid()
    ensures session.State() == SessionState(Some(Drag), FontSizeDefault, "", [PinNode(0, p, true)], None, false, None, None, None, None, 1)
    ensures session.history.View() == Log([[PinNode(0, p, false)], [PinNode(0, p, true)]], 1)
  {
    session := SelectedPinSession(p);
    DraggedPinState(p);
    session.HandleDragEnd();
  }

  /**
    A shape dragged while selected, with the corrected snapshot of `Layer.SnapshotOf`: the
    drag-end commit is taken before the selection is cleared, yet undo followed by redo shows
    the shape at full opacity with nothing selected. `DragEndThenUndoRedoAsWritten` is the
    same sequence with the snapshot the original code takes.
  */
  method DragEndThenUndoRedo(p: Point) returns (restored: Layer, selection: Option<ShapeId>)
    ensures |restored| == 1 && restored[0].opacity == UnselectedOpacity && restored[0].draggable
    ensures selection.None?
  {
    var session := DraggedPinSession(p);
    session.Undo();
    session.Redo();
    assert session.history.View().Current() == Snapshot([PinNode(0, p, true)]);
    restored := session.layer;
    selection := session.selected;
  }

  /**
    The same drag-end, undo and redo with the snapshot as the original code takes it
    (`layer.toJSON()` of the layer as shown): the drag-end commit stores the pin at the
    selection opacity, so once undo and redo recreate it, it shows emphasised although the
    restore has cleared the selection.
  */
  lemma DragEndThenUndoRedoAsWritten(p: Point)
    ensures var selectedPin := Shape(0, PinFrom(p, ""), SelectedOpacity, true);
      var history := Log([[PinNode(0, p, false)]], 0).Commit(SnapshotAsWritten([selectedPin]), HistoryCapacity);
      var restored := Restored(history.Backward().Forward().Current(), 1, true);
      && history == Log([[PinNode(0, p, false)], [selectedPin]], 1)
      && |restored| == 1 && restored[0].opacity == SelectedOpacity && restored[0].draggable
      && !Emphasis(restored, None)
  {
  }
}
