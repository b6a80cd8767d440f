/**
  The drawing session of src/draw-canvas/draw-canvas.context.js: the refs and state the hook
  keeps (tool, font size, pin label, drawing layer, selection, gesture state, text-editor
  placement, history) and the handlers that turn pointer events and toolbar actions into
  changes of them.
*/
module Context {
  import opened Wrappers
  import opened Points
  import opened Shapes
  import opened History
  import opened Layer

  /** Where a press landed: on the empty canvas (the stage itself) or on a shape. */
  datatype Target = OnStage | OnShape(id: ShapeId)

  /** A failure reported to the user instead of changing anything. */
  datatype SessionError = NoShapeSelected

  /** Everything the session holds except the history object and the commit observer's log. */
  datatype SessionState = SessionState(
    tool: Option<Tool>,
    fontSize: real,
    pinText: string,
    layer: Layer,
    selected: Option<ShapeId>,
    isDrawing: bool,
    current: Option<ShapeId>,
    start: Option<Point>,
    last: Option<Point>,
    textEditorCoords: Option<Point>,
    nextId: nat)

  /** The state with the selection cleared (`deselectShape`). */
  function Deselected(s: SessionState): SessionState
  {
    s.(layer := Deselect(s.layer, s.selected), selected := None)
  }

  /** The state with a new node on top of the layer. */
  function Added(s: SessionState, shape: Shape): SessionState
  {
    s.(layer := s.layer + [shape], nextId := s.nextId + 1)
  }

  /** The shape the current tool creates at `pos`, for a tool that has a factory. */
  function Created(s: SessionState, pos: Point, text: string): Shape
    requires s.tool.Some? && s.tool.value != Drag
  {
    InstantiateShape(s.tool, s.nextId, pos, s.fontSize, s.pinText, text).value
  }

  /** Characters `String.prototype.trim` removes: white space and line terminators. */
  predicate IsTrimmed(c: char)
  {
    || c == '\U{9}' || c == '\U{A}' || c == '\U{B}' || c == '\U{C}' || c == '\U{D}' || c == ' '
    || c == '\U{A0}' || c == '\U{1680}' || ('\U{2000}' <= c <= '\U{200A}')
    || c == '\U{2028}' || c == '\U{2029}' || c == '\U{202F}' || c == '\U{205F}'
    || c == '\U{3000}' || c == '\U{FEFF}'
  }

  /** A text that trims to the empty string. */
  predicate Blank(text: string)
  {
    forall k :: 0 <= k < |text| ==> IsTrimmed(text[k])
  }

  /** `trimStart`: the text without its leading white space. */
  function TrimStart(text: string): (r: string)
    ensures |r| <= |text| && r == text[|text| - |r|..]
    ensures r == [] || !IsTrimmed(r[0])
  {
    if text == [] || !IsTrimmed(text[0]) then text else TrimStart(text[1..])
  }

  /** `trimEnd`: the text without its trailing white space. */
  function TrimEnd(text: string): (r: string)
    ensures |r| <= |text| && r == text[..|r|]
    ensures r == [] || !IsTrimmed(r[|r| - 1])
  {
    if text == [] || !IsTrimmed(text[|text| - 1]) then text else TrimEnd(text[..|text| - 1])
  }

  /** `String.prototype.trim`. */
  function Trim(text: string): string
  {
    TrimEnd(TrimStart(text))
  }

  /** Stripping leading white space leaves nothing exactly when the text is blank. */
  lemma {:induction false} TrimStartEmptyIffBlank(text: string)
    ensures TrimStart(text) == [] <==> Blank(text)
    decreases |text|
  {
    if text != [] && IsTrimmed(text[0]) {
      var rest := text[1..];
      TrimStartEmptyIffBlank(rest);
      assert forall k :: 1 <= k < |text| ==> text[k] == rest[k - 1];
    }
  }

  /** A text whose trailing white space is all there is, is blank. */
  lemma {:induction false} TrimEndEmptyOnlyIfBlank(text: string)
    ensures TrimEnd(text) == [] ==> Blank(text)
    decreases |text|
  {
    if text != [] && IsTrimmed(text[|text| - 1]) {
      var rest := text[..|text| - 1];
      TrimEndEmptyOnlyIfBlank(rest);
      assert forall k :: 0 <= k < |rest| ==> text[k] == rest[k];
    }
  }

  /** The guard of `commitText`: a text is blank exactly when it trims to the empty string. */
  lemma BlankIffTrimsToEmpty(text: string)
    ensures Blank(text) <==> Trim(text) == ""
  {
    TrimStartEmptyIffBlank(text);
    var t := TrimStart(text);
    if t != [] {
      TrimEndEmptyOnlyIfBlank(t);
    }
  }

  /** Bounds and default of the text tool's font size, in pixels. */
  const FontSizeMin: real := 8.0
  const FontSizeMax: real := 48.0
  const FontSizeDefault: real := 16.0

  /**
    The initial font size as the hook computes it: the second argument to the state hook is
    ignored, so the caller's size is taken as it is, and absent when the caller gives none.
  */
  function InitialFontSizeAsWritten(customFontSize: Option<real>): (size: Option<real>)
    ensures size.Some? <==> customFontSize.Some?
    ensures size.Some? ==> size.value == customFontSize.value
  {
    customFontSize
  }

  /** Without a size from the caller the session as written has no font size at all. */
  lemma AsWrittenHasNoFontSizeByDefault()
    ensures InitialFontSizeAsWritten(None).None?
    ensures InitialFontSizeAsWritten(None) != Some(FontSizeDefault)
  {
  }

  /**
    The initial font size as intended, like the stroke size beside it: the caller's size when
    one is given (a zero size counts as none, as `||` treats it), else the default.
  */
  function InitialFontSize(customFontSize: Option<real>): (size: real)
    ensures customFontSize.Some? && customFontSize.value != 0.0 ==> size == customFontSize.value
    ensures customFontSize.None? || customFontSize.value == 0.0 ==> size == FontSizeDefault
  {
    if customFontSize.Some? && customFontSize.value != 0.0 then customFontSize.value else FontSizeDefault
  }

  /** The corrected initial size is always a number, and within the picker's range unless the caller chose one outside it. */
  lemma InitialFontSizeInRange(customFontSize: Option<real>)
    requires customFontSize.Some? ==> FontSizeMin <= customFontSize.value <= FontSizeMax
    ensures FontSizeMin <= InitialFontSize(customFontSize) <= FontSizeMax
  {
  }

  /** One drawing session. */
  class Session {
    var tool: Option<Tool>
    var fontSize: real
    var pinText: string
    /** The shapes on the drawing layer, bottom to top. */
    var layer: Layer
    var selected: Option<ShapeId>
    var isDrawing: bool
    /** The shape the latest gesture created; `drawEnd` leaves it set. */
    var current: Option<ShapeId>
    var start: Option<Point>
    var last: Option<Point>
    var textEditorCoords: Option<Point>
    /** Identity the next created node gets. */
    var nextId: nat
    /** Every snapshot handed to the commit observer, in order. */
    var notified: seq<Layer>
    const history: CircularHistory<Layer>

    function State(): SessionState
      reads this
    {
      SessionState(tool, fontSize, pinText, layer, selected, isDrawing, current, start, last, textEditorCoords, nextId)
    }

    /** The node the current gesture is drawing. */
    function CurrentShape(): Shape
      reads this
      requires current.Some? && HasId(layer, current.value)
    {
      layer[IndexOf(layer, current.value).value]
    }

    /**
      During a gesture: the tool draws, and the current shape is on the layer, made by that
      tool, with the start and last pointer recorded.
    */
    predicate Drawing()
      reads this
    {
      && tool.Some? && !PreventsDraw(tool.value)
      && current.Some? && start.Some? && last.Some?
      && HasId(layer, current.value)
      && (forall k :: 0 <= k < |layer| && layer[k].id == current.value ==> ToolOf(layer[k].geometry) == tool.value)
    }

    /** The layer's nodes are distinct, consistent and emphasised only when selected. */
    predicate LayerValid()
      reads this
    {
      && UniqueIds(layer) && IdsBelow(layer, nextId) && AllWellFormed(layer)
      && (selected.Some? ==> HasId(layer, selected.value))
      && Emphasis(layer, selected)
      && AllDraggable(layer, tool == Some(Drag))
    }

    predicate Valid()
      reads this, history
    {
      && history.Valid() && history.capacity == HistoryCapacity
      && (forall snapshot :: snapshot in history.entries ==> Storable(snapshot))
      && LayerValid()
      && |pinText| <= PinTextMaxLength
      && (isDrawing ==> Drawing())
    }

    /** A session with an empty layer, no tool, nothing selected and an empty history. */
    constructor (customFontSize: Option<real>)
      ensures Valid() && fresh(history)
      ensures State() == SessionState(None, InitialFontSize(customFontSize), "", [], None, false, None, None, None, None, 0)
      ensures history.View() == Log([], -1) && notified == []
    {
      tool := None;
      fontSize := InitialFontSize(customFontSize);
      pinText := "";
      layer := [];
      selected := None;
      isDrawing := false;
      current := None;
      start := None;
      last := None;
      textEditorCoords := None;
      nextId := 0;
      notified := [];
      history := new CircularHistory(HistoryCapacity);
    }

    method SetFontSize(size: real)
      requires Valid()
      modifies this
      ensures Valid() && State() == old(State()).(fontSize := size)
      ensures history.View() == old(history.View()) && notified == old(notified)
    {
      fontSize := size;
    }

    /** The pin label; the label input only offers labels of at most four characters. */
    method SetPinText(text: string)
      requires Valid() && |text| <= PinTextMaxLength
      modifies this
      ensures Valid() && State() == old(State()).(pinText := text)
      ensures history.View() == old(history.View()) && notified == old(notified)
    {
      pinText := text;
    }

    // ----- Selection -----

    /** `deselectShape`: the selected shape goes back to full opacity and nothing is selected. */
    method DeselectShape()
      requires Valid()
      modifies this
      ensures Valid() && State() == Deselected(old(State()))
      ensures history.View() == old(history.View()) && notified == old(notified)
    {
      SelectionKeepsShapes(layer, selected, 0);
      SelectionKeepsEmphasis(layer, selected, 0);
      SameIdsKeepNodes(layer, Deselect(layer, selected), nextId);
      if selected.None? {
        return;
      }
      layer := SetOpacity(layer, selected.value, UnselectedOpacity);
      selected := None;
    }

    /**
      `selectShape`: selecting the selected shape changes nothing; otherwise the previous
      selection is cleared and `id` becomes the selected, emphasised shape.
    */
    method SelectShape(id: ShapeId)
      requires Valid() && HasId(layer, id)
      modifies this
      ensures Valid()
      ensures State() == old(State()).(layer := Select(old(layer), old(selected), id), selected := Some(id))
      ensures old(selected) == Some(id) ==> State() == old(State())
      ensures history.View() == old(history.View()) && notified == old(notified)
    {
      SelectionKeepsShapes(layer, selected, id);
      SelectionKeepsEmphasis(layer, selected, id);
      SameIdsKeepNodes(layer, Select(layer, selected, id), nextId);
      if selected == Some(id) {
        return;
      }
      DeselectShape();
      selected := Some(id);
      layer := SetOpacity(layer, id, SelectedOpacity);
    }

    /** A press on a shape: its own handler selects it and stops the event there. */
    method HandleShapeMouseDown(id: ShapeId)
      requires Valid() && HasId(layer, id)
      modifies this
      ensures Valid()
      ensures State() == old(State()).(layer := Select(old(layer), old(selected), id), selected := Some(id))
      ensures history.View() == old(history.View()) && notified == old(notified)
    {
      SelectShape(id);
    }

    // ----- History -----

    /**
      `commitHistorySnapshot`: with `check` set, nothing is stored unless the current tool's
      `shouldCommit` accepts the current shape; otherwise exactly one snapshot of the whole
      layer is committed and handed to the observer. The session's own state never changes.
    */
    method CommitHistorySnapshot(check: bool)
      requires Valid()
      requires check ==> current.Some? && HasId(layer, current.value) && tool == Some(ToolOf(CurrentShape().geometry))
      modifies this, history
      ensures Valid() && State() == old(State())
      ensures var snapshot := SnapshotOf(old(layer), old(selected));
        if !check || Committable(old(CurrentShape()).geometry) then
          history.View() == old(history.View()).Commit(snapshot, HistoryCapacity) && notified == old(notified) + [snapshot]
        else
          history.View() == old(history.View()) && notified == old(notified)
    {
      if check {
        var shape := layer[IndexOf(layer, current.value).value];
        var ok := ShouldCommitHistorySnapshot(shape.geometry, tool);
        if !ok.value {
          return;
        }
      }
      var snapshot := SnapshotOf(layer, selected);
      SnapshotIsStorable(layer, selected);
      history.Commit(snapshot);
      notified := notified + [snapshot];
    }

    /** The loop that sets every shape's draggable flag, nothing else. */
    method ApplyDraggable(draggable: bool)
      modifies this
      ensures State() == old(State()).(layer := WithDraggable(old(layer), draggable))
      ensures notified == old(notified)
    {
      var k := 0;
      while k < |layer|
        invariant 0 <= k <= |layer| == |old(layer)|
        invariant forall j :: 0 <= j < k ==> layer[j] == old(layer)[j].(draggable := draggable)
        invariant forall j :: k <= j < |layer| ==> layer[j] == old(layer)[j]
        invariant State() == old(State()).(layer := layer)
        invariant notified == old(notified)
      {
        layer := layer[k := layer[k].(draggable := draggable)];
        k := k + 1;
      }
    }

    /**
      `restoreHistorySnapshot`: the selection is cleared; `EMPTY` clears the layer; a
      snapshot replaces the layer with new nodes built from it, each draggable exactly when
      the tool is drag.
    */
    method RestoreHistorySnapshot(entry: Entry<Layer>)
      requires Valid() && !isDrawing
      requires entry.Snapshot? ==> Storable(entry.value)
      modifies this
      ensures Valid()
      ensures State() == old(State()).(layer := Restored(entry, old(nextId), old(tool) == Some(Drag)),
                                      selected := None, nextId := old(nextId) + RestoredCount(entry))
      ensures history.View() == old(history.View()) && notified == old(notified)
    {
      RestoredIsValid(entry, nextId, tool == Some(Drag));
      DeselectShape();
      if entry.Empty? {
        layer := [];
        return;
      }
      layer := Recreate(entry.value, nextId);
      nextId := nextId + |entry.value|;
      ApplyDraggable(tool == Some(Drag));
    }

    /** `undo`: one step back in the history, and the layer shows the snapshot there. */
    method Undo()
      requires Valid() && !isDrawing
      modifies this, history
      ensures Valid()
      ensures history.View() == old(history.View()).Backward()
      ensures State() == old(State()).(layer := Restored(history.View().Current(), old(nextId), old(tool) == Some(Drag)),
                                      selected := None, nextId := old(nextId) + RestoredCount(history.View().Current()))
      ensures notified == old(notified)
    {
      history.MoveBackward();
      var entry := history.Current();
      RestoreHistorySnapshot(entry);
    }

    /** `redo`: one step forward in the history, and the layer shows the snapshot there. */
    method Redo()
      requires Valid() && !isDrawing
      modifies this, history
      ensures Valid()
      ensures history.View() == old(history.View()).Forward()
      ensures State() == old(State()).(layer := Restored(history.View().Current(), old(nextId), old(tool) == Some(Drag)),
                                      selected := None, nextId := old(nextId) + RestoredCount(history.View().Current()))
      ensures notified == old(notified)
    {
      history.MoveForward();
      var entry := history.Current();
      RestoreHistorySnapshot(entry);
    }

    method GetCurrentHistorySnapshot() returns (entry: Entry<Layer>)
      requires Valid()
      ensures entry == history.View().Current()
      ensures entry.Snapshot? ==> Storable(entry.value)
    {
      entry := history.Current();
    }

    method DumpHistory() returns (all: seq<Layer>)
      requires Valid()
      ensures all == history.View().entries && |all| <= HistoryCapacity
    {
      all := history.Dump();
    }

    // ----- Drawing -----

    /** Puts a new node, made for the current tool, on top of the layer. */
    method AddShape(shape: Shape)
      requires Valid()
      requires shape.id == nextId && WellFormed(shape.geometry) && shape.opacity == UnselectedOpacity
      requires shape.draggable == (tool == Some(Drag))
      modifies this
      ensures Valid() && State() == Added(old(State()), shape)
      ensures forall k :: 0 <= k < |layer| && layer[k].id == shape.id ==> k == |old(layer)|
      ensures history.View() == old(history.View()) && notified == old(notified)
    {
      AppendKeepsInvariants(layer, shape, nextId, selected, tool == Some(Drag));
      layer := layer + [shape];
      nextId := nextId + 1;
    }

    /**
      `drawStart`: with no tool, the drag tool or the text tool nothing happens; otherwise a
      gesture starts with a new shape of the tool at the pointer, which is both the start and
      the last pointer.
    */
    method DrawStart(pos: Point)
      requires Valid()
      modifies this
      ensures Valid()
      ensures old(tool).None? || PreventsDraw(old(tool).value) ==> State() == old(State())
      ensures old(tool).Some? && !PreventsDraw(old(tool).value) ==>
        State() == Added(old(State()), Created(old(State()), pos, "")).(isDrawing := true,
          current := Some(old(nextId)), start := Some(pos), last := Some(pos))
      ensures history.View() == old(history.View()) && notified == old(notified)
    {
      if tool.None? || PreventsDraw(tool.value) {
        return;
      }
      var made := InstantiateShape(tool, nextId, pos, fontSize, pinText, "");
      var id := nextId;
      AddShape(made.value);
      isDrawing := true;
      current := Some(id);
      start := Some(pos);
      last := Some(pos);
      assert layer[|layer| - 1].id == id;
    }

    /**
      `draw`: outside a gesture, or when the pointer has not moved far enough from the last
      recorded pointer, nothing happens. Otherwise the current shape takes one `DrawStep`
      from the start to the pointer, which becomes the last pointer.
    */
    method Draw(pos: Point)
      requires Valid()
      modifies this
      ensures Valid()
      ensures !old(isDrawing) || !ShouldAddPoint(old(last), pos) ==> State() == old(State())
      ensures old(isDrawing) && ShouldAddPoint(old(last), pos) ==>
        var k := IndexOf(old(layer), old(current).value).value;
        State() == old(State()).(layer := old(layer)[k := old(layer)[k].(geometry := DrawStep(old(layer)[k].geometry, old(start).value, pos))],
                                 last := Some(pos))
      ensures history.View() == old(history.View()) && notified == old(notified)
    {
      if !isDrawing || !ShouldAddPoint(last, pos) {
        return;
      }
      var k := IndexOf(layer, current.value).value;
      var shape := layer[k];
      var next := shape.(geometry := DrawStep(shape.geometry, start.value, pos));
      SameIdsKeepNodes(layer, layer[k := next], nextId);
      layer := layer[k := next];
      last := Some(pos);
    }

    /**
      `drawEnd`: outside a gesture nothing happens. Otherwise the gesture ends and the layer
      is committed once if the tool's `shouldCommit` accepts the shape drawn, and not at all
      if it does not.
    */
    method DrawEnd()
      requires Valid()
      modifies this, history
      ensures Valid()
      ensures !old(isDrawing) ==> State() == old(State()) && history.View() == old(history.View()) && notified == old(notified)
      ensures old(isDrawing) ==> State() == old(State()).(isDrawing := false)
      ensures old(isDrawing) ==>
        var snapshot := SnapshotOf(old(layer), old(selected));
        if Committable(old(CurrentShape()).geometry) then
          history.View() == old(history.View()).Commit(snapshot, HistoryCapacity) && notified == old(notified) + [snapshot]
        else
          history.View() == old(history.View()) && notified == old(notified)
    {
      if !isDrawing {
        return;
      }
      isDrawing := false;
      CommitHistorySnapshot(true);
    }

    // ----- Text -----

    /** `instantiateTextEditor`: the editor opens at the pointer. */
    method InstantiateTextEditor(pos: Point)
      requires Valid()
      modifies this
      ensures Valid() && State() == old(State()).(textEditorCoords := Some(pos))
      ensures history.View() == old(history.View()) && notified == old(notified)
    {
      textEditorCoords := Some(pos);
    }

    /** `cancelText`: the editor closes. */
    method CancelText()
      requires Valid()
      modifies this
      ensures Valid() && State() == old(State()).(textEditorCoords := None)
      ensures history.View() == old(history.View()) && notified == old(notified)
    {
      textEditorCoords := None;
    }

    /**
      `commitText`: blank text only closes the editor. Otherwise the current tool's shape is
      created at the editor's position carrying the text, the editor closes and the layer is
      committed once; a tool without a factory fails and nothing changes.
    */
    method CommitText(text: string) returns (r: Outcome<ToolError>)
      requires Valid() && textEditorCoords.Some?
      modifies this, history
      ensures Valid()
      ensures Blank(text) ==>
        r.Pass? && State() == old(State()).(textEditorCoords := None)
        && history.View() == old(history.View()) && notified == old(notified)
      ensures !Blank(text) && (old(tool).None? || old(tool) == Some(Drag)) ==>
        r == Fail(NotImplemented(old(tool))) && State() == old(State())
        && history.View() == old(history.View()) && notified == old(notified)
      ensures !Blank(text) && old(tool).Some? && old(tool) != Some(Drag) ==>
        var after := Added(old(State()), Created(old(State()), old(textEditorCoords).value, text));
        var snapshot := SnapshotOf(after.layer, after.selected);
        r.Pass? && State() == after.(textEditorCoords := None)
        && history.View() == old(history.View()).Commit(snapshot, HistoryCapacity) && notified == old(notified) + [snapshot]
    {
      if Blank(text) {
        CancelText();
        return Pass;
      }
      var made := InstantiateShape(tool, nextId, textEditorCoords.value, fontSize, pinText, text);
      if made.Failure? {
        return Fail(made.error);
      }
      AddShape(made.value);
      CancelText();
      CommitHistorySnapshot(false);
      r := Pass;
    }

    // ----- Pin -----

    /** `drawPin`: a pin with the session's label is placed at the pointer and the layer is committed. */
    method DrawPin(pos: Point)
      requires Valid() && tool == Some(Pin)
      modifies this, history
      ensures Valid()
      ensures var after := Added(old(State()), Created(old(State()), pos, ""));
        var snapshot := SnapshotOf(after.layer, after.selected);
        State() == after
        && history.View() == old(history.View()).Commit(snapshot, HistoryCapacity) && notified == old(notified) + [snapshot]
    {
      var made := InstantiateShape(tool, nextId, pos, fontSize, pinText, "");
      AddShape(made.value);
      CommitHistorySnapshot(false);
    }

    // ----- Pointer events -----

    /**
      `handleMouseDown`: with the drag tool a press on the empty canvas only clears the
      selection; a press on a shape never draws; on the canvas the text tool opens the
      editor, the pin tool places a pin, and the other tools start a gesture. The handler
      does not look at `isDrawing`.
    */
    method HandleMouseDown(target: Target, pos: Point)
      requires Valid()
      modifies this, history
      ensures Valid()
      ensures target.OnStage? && old(tool) == Some(Drag) ==> State() == Deselected(old(State()))
      ensures target.OnShape? ==> State() == old(State())
      ensures target.OnStage? && old(tool) == Some(Text) ==> State() == old(State()).(textEditorCoords := Some(pos))
      ensures target.OnStage? && old(tool) == Some(Pin) ==>
        var after := Added(old(State()), Created(old(State()), pos, ""));
        var snapshot := SnapshotOf(after.layer, after.selected);
        State() == after
        && history.View() == old(history.View()).Commit(snapshot, HistoryCapacity) && notified == old(notified) + [snapshot]
      ensures target.OnStage? && old(tool).None? ==> State() == old(State())
      ensures target.OnStage? && old(tool).Some? && old(tool).value in {Pen, Line, Arrow, Circle, Rectangle} ==>
        State() == Added(old(State()), Created(old(State()), pos, "")).(isDrawing := true,
          current := Some(old(nextId)), start := Some(pos), last := Some(pos))
      ensures !(target.OnStage? && old(tool) == Some(Pin)) ==> history.View() == old(history.View()) && notified == old(notified)
    {
      if target.OnStage? && tool == Some(Drag) {
        DeselectShape();
        return;
      }
      if target.OnShape? {
        return;
      }
      if tool == Some(Text) {
        InstantiateTextEditor(pos);
        return;
      }
      if tool == Some(Pin) {
        DrawPin(pos);
        return;
      }
      if tool.None? || !PreventsDraw(tool.value) {
        DrawStart(pos);
      }
    }

    /** `handleMouseMove`: the pointer move goes to `draw`. */
    method HandleMouseMove(pos: Point)
      requires Valid()
      modifies this
      ensures Valid()
      ensures !old(isDrawing) || !ShouldAddPoint(old(last), pos) ==> State() == old(State())
      ensures old(isDrawing) && ShouldAddPoint(old(last), pos) ==>
        var k := IndexOf(old(layer), old(current).value).value;
        State() == old(State()).(layer := old(layer)[k := old(layer)[k].(geometry := DrawStep(old(layer)[k].geometry, old(start).value, pos))],
                                 last := Some(pos))
      ensures history.View() == old(history.View()) && notified == old(notified)
    {
      Draw(pos);
    }

    /** `handleMouseUp`: ends the gesture through `drawEnd`. */
    method HandleMouseUp()
      requires Valid()
      modifies this, history
      ensures Valid()
      ensures !old(isDrawing) ==> State() == old(State()) && history.View() == old(history.View()) && notified == old(notified)
      ensures old(isDrawing) ==> State() == old(State()).(isDrawing := false)
      ensures old(isDrawing) ==>
        var snapshot := SnapshotOf(old(layer), old(selected));
        if Committable(old(CurrentShape()).geometry) then
          history.View() == old(history.View()).Commit(snapshot, HistoryCapacity) && notified == old(notified) + [snapshot]
        else
          history.View() == old(history.View()) && notified == old(notified)
    {
      DrawEnd();
    }

    /** `handleMouseLeave`: leaving the canvas ends the gesture exactly as releasing the button does. */
    method HandleMouseLeave()
      requires Valid()
      modifies this, history
      ensures Valid()
      ensures !old(isDrawing) ==> State() == old(State()) && history.View() == old(history.View()) && notified == old(notified)
      ensures old(isDrawing) ==> State() == old(State()).(isDrawing := false)
      ensures old(isDrawing) ==>
        var snapshot := SnapshotOf(old(layer), old(selected));
        if Committable(old(CurrentShape()).geometry) then
          history.View() == old(history.View()).Commit(snapshot, HistoryCapacity) && notified == old(notified) + [snapshot]
        else
          history.View() == old(history.View()) && notified == old(notified)
    {
      DrawEnd();
    }

    /** A shape's drag-end handler: the layer is committed, then the selection is cleared. */
    method HandleDragEnd()
      requires Valid()
      modifies this, history
      ensures Valid() && State() == Deselected(old(State()))
      ensures var snapshot := SnapshotOf(old(layer), old(selected));
        history.View() == old(history.View()).Commit(snapshot, HistoryCapacity) && notified == old(notified) + [snapshot]
    {
      CommitHistorySnapshot(false);
      DeselectShape();
    }

    // ----- Deletion -----

    /** `deleteAll`: the selection is cleared, every shape is removed, and the empty layer is committed. */
    method DeleteAll()
      requires Valid() && !isDrawing
      modifies this, history
      ensures Valid() && State() == old(State()).(layer := [], selected := None)
      ensures history.View() == old(history.View()).Commit([], HistoryCapacity) && notified == old(notified) + [[]]
    {
      DeselectShape();
      layer := [];
      CommitHistorySnapshot(false);
    }

    /**
      `delActive`: with nothing selected it reports the error and changes nothing; otherwise
      it removes exactly the selected shape, clears the selection and commits once.
    */
    method DelActive() returns (r: Outcome<SessionError>)
      requires Valid() && !isDrawing
      modifies this, history
      ensures Valid()
      ensures old(selected).None? ==>
        r == Fail(NoShapeSelected) && State() == old(State())
        && history.View() == old(history.View()) && notified == old(notified)
      ensures old(selected).Some? ==>
        var remaining := Without(old(layer), old(selected).value);
        r.Pass? && State() == old(State()).(layer := remaining, selected := None)
        && !HasId(remaining, old(selected).value) && |remaining| == |old(layer)| - 1
        && history.View() == old(history.View()).Commit(remaining, HistoryCapacity) && notified == old(notified) + [remaining]
    {
      if selected.None? {
        return Fail(NoShapeSelected);
      }
      RemoveSelectedKeepsInvariants(layer, selected.value, nextId);
      layer := Without(layer, selected.value);
      selected := None;
      CommitHistorySnapshot(false);
      r := Pass;
    }

    // ----- Tool -----

    /**
      `toolSetter` with the draggable effect it triggers: the tool changes, the selection is
      cleared, and every shape becomes draggable exactly when the new tool is drag.
    */
    method ToolSetter(newTool: Tool)
      requires Valid() && !isDrawing
      modifies this
      ensures Valid()
      ensures State() == old(State()).(tool := Some(newTool), layer := WithDraggable(Deselect(old(layer), old(selected)), newTool == Drag), selected := None)
      ensures history.View() == old(history.View()) && notified == old(notified)
    {
      DeselectShape();
      WithDraggableKeepsLayer(layer, newTool == Drag, None, nextId);
      tool := Some(newTool);
      ApplyDraggable(newTool == Drag);
    }
  }
}
