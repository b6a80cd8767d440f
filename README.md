# draw-canvas drawing session, modelled in Dafny

This project models the engine behind the draw-canvas React component. The engine is the
`useDrawAreaContextValue` hook in `src/draw-canvas/draw-canvas.context.js` and the pure
helpers and per-tool shape factories in `src/draw-canvas/draw-canvas.utilities.js`.

- A drawing session holds a current tool and a font size.
- It holds a pin label and the drawing layer (the Konva shapes, bottom to top).
- It holds a selection and the state of the gesture in progress (drawing flag, current
  shape, start and last pointer).
- It holds where the text editor is open, and a bounded undo/redo history of layer snapshots.
- Pointer events and toolbar actions change this state. Finished actions commit a snapshot
  of the layer to the history and hand it to the `onHistoryCommit` observer.

Modules, in dependency order:

- `Wrappers` (`wrappers.dfy`): `Option`, `Result` and `Outcome`.
- `Points` (`points.dfy`): pointer positions and `shouldAddPoint`, the rule that drops
  pointer samples closer than 10 px to the last recorded one.
- `TextEditor` (`text_editor.dfy`): placement of the text editor. This covers its
  quadrant, the offsets of its buttons and the width of its textarea.
- `Shapes` (`shapes.dfy`): the seven tool shapes as values.
  - Their factories (`instantiateShape` and each tool's `from`), including the pin layout.
  - One pointer move applied to the shape being drawn, including the ellipse and rectangle
    fits of `CircleToolShape.draw` and `RectangleToolShape.draw`.
  - The per-tool `shouldCommit` predicates behind `shouldCommitHistorySnapshot`.
- `History` (`history.dfy`): the `CircularHistory` of capacity 50.
  - As a value, `Log`: the snapshots oldest first plus a cursor, where -1 is the `EMPTY`
    position.
  - As the class the session holds, `CircularHistory`.
- `Layer` (`layer.dfy`): the drawing layer as a sequence of shapes with node identities.
  - Selection emphasis (opacity 0.8 for the selected shape, 1.0 otherwise).
  - Removal and the draggable flag.
  - Snapshots and their restoration as new nodes.
- `Context` (`context.dfy`): the class `Session`, whose fields are the hook's refs and
  state.
  - Its methods are the hook's handlers, each stating the whole new state and the history
    it leaves.
  - `Valid()` is the invariant they all keep: distinct nodes, at most the selected shape
    emphasised, every shape draggable exactly when the tool is drag, snapshots free of
    emphasis, and a gesture only with a drawing tool whose shape is on the layer.
- `Scenarios` (`scenarios.dfy`): short event sequences on a fresh session, with what the
  history and layer hold at the end.

Modelling choices:

- JavaScript numbers are `real`.
- Konva nodes are values with an `id` standing for node identity. Nodes recreated from a
  snapshot get new ids.
- `CircularHistory` comes from an external package that is not part of this model. The
  model follows the behaviour the session relies on: a commit drops the redo branch and
  evicts the oldest entry beyond the capacity, and undo and redo clamp at the ends.
- The commit observer is the `notified` sequence, which records every snapshot handed to it.
- `requestAnimationFrame` in the drag-end handler is modelled as running at once.

Two behaviours of the code that may look unintended are kept as written:

- The pen's `shouldCommit` asks for more than two coordinates (`points.length > 2`).
- `drawEnd` leaves the current-shape reference set.

The session does not follow the code in two places, both recorded under "## Findings":

- The code's snapshot keeps the selection opacity of a selected shape. The session commits
  the corrected snapshot `Layer.SnapshotOf`, with the selection's emphasis removed. The code's
  snapshot is `Layer.SnapshotAsWritten`, and `Layer.AsWrittenRestoreShowsStaleEmphasis` and
  `Scenarios.DragEndThenUndoRedoAsWritten` show what it leads to.
- The code leaves the font size undefined when the caller gives none. The session starts
  from the corrected size `Context.InitialFontSize`, which falls back to 16.

## Model

| member | source | states |
|---|---|---|
| Points.SquaredDistance | src/draw-canvas/draw-canvas.utilities.js:29-33 | the squared distance of two pointers is never negative and zero for equal pointers |
| Points.ShouldAddPoint | src/draw-canvas/draw-canvas.utilities.js:27-34 | a sample is recorded whenever there is no previous one, and otherwise exactly when its squared distance from the last is at least 10² |
| Points.AcceptedAreSpaced | src/draw-canvas/draw-canvas.utilities.js:27-34 | over a run of moves, every recorded sample is at least 10 px from the one recorded before it, and with no previous sample the first move is recorded. During a gesture the press is the previous sample, so a first move closer than 10 px to it is dropped |
| Points.AcceptedAreSamples | src/draw-canvas/draw-canvas.utilities.js:27-34 | decimation only keeps moves that happened; it never invents positions |
| TextEditor.PositionOf | src/draw-canvas/draw-canvas.utilities.js:42-51 | the editor is in a top quadrant iff y is above the middle, and in a left quadrant iff x is left of the middle |
| TextEditor.PositionDeterminedByHalves | src/draw-canvas/draw-canvas.utilities.js:42-51 | the two halves determine the quadrant, so exactly one position applies |
| TextEditor.ActionsStyles | src/draw-canvas/draw-canvas.utilities.js:53-66 | no offsets without a position; otherwise left 0, and the buttons 30 px below the editor in the top half and above it in the bottom half |
| TextEditor.ActionsBelowInTopHalf | src/draw-canvas/draw-canvas.utilities.js:42-66 | for any click, the buttons hang below the editor exactly when the click was in the top half of the canvas |
| TextEditor.Split | src/draw-canvas/draw-canvas.utilities.js:70 | splitting on newlines gives at least one line, no line holds a newline, and joining the lines gives the text back |
| TextEditor.SplitJoin | src/draw-canvas/draw-canvas.utilities.js:70 | splitting joined newline-free lines gives those lines back (the other round trip) |
| TextEditor.LongestLine | src/draw-canvas/draw-canvas.utilities.js:69-71 | the result is at least the length of every line and equals the length of one of them |
| TextEditor.RowWidthMonotone | src/draw-canvas/draw-canvas.utilities.js:72 | with a non-negative font size, a longer row is never narrower |
| TextEditor.TextareaWidth | src/draw-canvas/draw-canvas.utilities.js:68-73 | the width is (length + 3) · fontSize / 2 for one line of the text, and with a non-negative font size it fits every line |
| Shapes.ToolOf | src/draw-canvas/draw-canvas.utilities.js:81-309 | every shape belongs to a drawing tool, never to the drag tool |
| Shapes.PinScale | src/draw-canvas/draw-canvas.utilities.js:241-246 | the pin scale is 1.6 for labels of at most one character, and 1.6 + 0.5 · length for longer labels |
| Shapes.PinScaleMonotone | src/draw-canvas/draw-canvas.utilities.js:241-246 | a longer label never gives a smaller pin |
| Shapes.PinScaleBounded | src/draw-canvas/draw-canvas.utilities.js:241-246 | labels of at most four characters give a scale between 1.6 and 3.6 |
| Shapes.PinFrom | src/draw-canvas/draw-canvas.utilities.js:239-306 | a pin built at a point is a consistent pin marker carrying the label, anchored at that point, never a single point |
| Shapes.PinFromLayout | src/draw-canvas/draw-canvas.utilities.js:239-306 | a pin is scaled by its label, keeps the marker's 14 × 26.92 proportions, and centres the marker horizontally on the press position |
| Shapes.InstantiateShape | src/draw-canvas/draw-canvas.context.js:394-471 | no tool and the drag tool fail with "not implemented". Every other tool gives a shape of its own kind at the pointer, at full opacity and not draggable. The drawing tools' shapes cover just that point. Text carries the text and the font size, and a pin carries the session's label |
| Shapes.CircleDraw | src/draw-canvas/draw-canvas.utilities.js:155-167 | the fitted ellipse's bounding box is exactly the box spanned by start and pointer, so both radii are non-negative |
| Shapes.RectangleDraw | src/draw-canvas/draw-canvas.utilities.js:196-214 | the fitted rectangle spans exactly from the smaller to the larger coordinate on each axis, with non-negative size |
| Shapes.DrawSymmetric | src/draw-canvas/draw-canvas.utilities.js:155-214 | dragging a→b or b→a gives the same ellipse and the same rectangle |
| Shapes.EllipseInscribedInRectangle | src/draw-canvas/draw-canvas.utilities.js:155-214 | the ellipse of a drag is inscribed in the rectangle of the same drag |
| Shapes.DrawExamples | src/draw-canvas/draw-canvas.utilities.js:155-214 | (10,10)→(2,40) gives the rectangle at (2,10) of 8×30; (0,0)→(10,20) gives centre (5,10) with radii 5 and 10 |
| Shapes.DrawStep | src/draw-canvas/draw-canvas.context.js:531-571 | one accepted move appends exactly the pointer to a pen stroke. A line or arrow keeps its first endpoint and moves the second to the pointer. An ellipse or rectangle is refitted to start and pointer, and text and pins are unchanged. The shape's kind and consistency are kept |
| Shapes.DrawStepOverwrites | src/draw-canvas/draw-canvas.context.js:536-567 | for every shape but a pen stroke, a later move overrides an earlier one |
| Shapes.Gesture | src/draw-canvas/draw-canvas.context.js:516-574 | a run of moves keeps the shape consistent and of its kind |
| Shapes.PenGestureRecordsAccepted | src/draw-canvas/draw-canvas.context.js:516-538 | a pen stroke holds exactly its points so far followed by the accepted moves, in order |
| Shapes.GestureKeepsLastAccepted | src/draw-canvas/draw-canvas.context.js:516-574 | any other shape ends as the last accepted move alone makes it, and unchanged when no move is accepted |
| Shapes.Committable | src/draw-canvas/draw-canvas.utilities.js:94-308 | the per-tool `shouldCommit`: lines, arrows, text and pins always qualify; a pen stroke qualifies exactly when it has recorded at least two points; any other qualifying shape covers more than a single point |
| Shapes.ShouldCommitHistorySnapshot | src/draw-canvas/draw-canvas.utilities.js:311-321 | the lookup fails for no tool and the drag tool; otherwise it answers the shape's own `shouldCommit` |
| Shapes.FreshShapeCommittable | src/draw-canvas/draw-canvas.utilities.js:81-321 | a shape as created is committable exactly for the line, arrow, text and pin tools |
| Shapes.PenCommitsAfterOneMove | src/draw-canvas/draw-canvas.utilities.js:94-97 | one accepted move makes a pen stroke committable |
| Shapes.FittedShapeCommittable | src/draw-canvas/draw-canvas.utilities.js:169-171 | a dragged ellipse or rectangle is committable exactly when the drag moved on both axes |
| History.Log.Current | src/draw-canvas/draw-canvas.context.js:369-371 | `EMPTY` exactly at the position before the oldest snapshot; otherwise a stored snapshot |
| History.Log.Commit | src/draw-canvas/draw-canvas.context.js:194-196 | the history stays within 50 entries, and the committed snapshot is newest and current. The entries before it are the newest part of those at or before the old cursor, and nothing else is kept |
| History.Log.Backward | src/draw-canvas/draw-canvas.context.js:359-362 | undo moves the cursor one step older and stops at `EMPTY` |
| History.Log.Forward | src/draw-canvas/draw-canvas.context.js:364-367 | redo moves the cursor one step newer and stops at the newest snapshot |
| History.BackwardNCursor | src/draw-canvas/draw-canvas.context.js:359-362 | n undos move the cursor n steps, clamped at `EMPTY` |
| History.ForwardNCursor | src/draw-canvas/draw-canvas.context.js:364-367 | n redos move the cursor n steps, clamped at the newest snapshot |
| History.UndoRedoRoundTrip | src/draw-canvas/draw-canvas.context.js:359-367 | n undos then n redos restore the history, when the undos did not pass `EMPTY` |
| History.CommitThenUndo | src/draw-canvas/draw-canvas.context.js:293-308 | undo after a commit shows what was current before it, and redo shows the commit again |
| History.CommitDiscardsRedoBranch | src/draw-canvas/draw-canvas.context.js:293-308 | a commit drops the undone snapshots and, while there is room, keeps everything before the cursor |
| History.BranchExample | src/draw-canvas/draw-canvas.context.js:293-308 | [S0,S1,S2] at S2, two undos and a commit of S3 give [S0,S3] at S3 |
| History.CommitEvictsOldest | src/draw-canvas/draw-canvas.context.js:194-196 | a commit to a full history at its newest entry evicts the oldest and keeps the order of the rest |
| History.CircularHistory.constructor | src/draw-canvas/draw-canvas.context.js:194-196 | a new history is empty and at `EMPTY` |
| History.CircularHistory.Commit | src/draw-canvas/draw-canvas.context.js:306 | the object's new state is `Log.Commit` of its old state |
| History.CircularHistory.MoveBackward | src/draw-canvas/draw-canvas.context.js:360 | the object's new state is `Log.Backward` of its old state |
| History.CircularHistory.MoveForward | src/draw-canvas/draw-canvas.context.js:365 | the object's new state is `Log.Forward` of its old state |
| History.CircularHistory.Current | src/draw-canvas/draw-canvas.context.js:370 | returns `EMPTY` exactly at the `EMPTY` position, else the snapshot under the cursor |
| History.CircularHistory.Dump | src/draw-canvas/draw-canvas.context.js:374 | returns every stored snapshot oldest first, at most 50 |
| Layer.IndexOf | src/draw-canvas/draw-canvas.context.js:526 | a node is found exactly when it is on the layer, at a position holding it |
| Layer.SelectionKeepsShapes | src/draw-canvas/draw-canvas.context.js:260-275 | selecting and deselecting change opacities only: shapes, order, geometry, identity and draggability stay |
| Layer.SelectionKeepsEmphasis | src/draw-canvas/draw-canvas.context.js:260-275 | after selecting, exactly the new shape is emphasised; after deselecting, none is |
| Layer.AtMostOneEmphasised | src/draw-canvas/draw-canvas.context.js:269-275 | with distinct nodes, at most one shape is at the selection opacity |
| Layer.Without | src/draw-canvas/draw-canvas.context.js:710 | removing a node on the layer removes exactly one shape; removing one that is absent changes nothing; no shape is added, every shape of another node stays, and on a layer of distinct nodes the node is gone |
| Layer.RemoveSelectedKeepsInvariants | src/draw-canvas/draw-canvas.context.js:705-714 | removing the selected shape removes that node, keeps every other shape, and leaves no emphasis, with the layer's invariants intact |
| Layer.SameIdsKeepNodes | src/draw-canvas/draw-canvas.context.js:260-275 | changing attributes in place keeps the nodes distinct and present |
| Layer.AppendKeepsInvariants | src/draw-canvas/draw-canvas.context.js:501 | adding a new node on top keeps the others and the layer's invariants, and the new node is found on top |
| Layer.WithDraggableKeepsLayer | src/draw-canvas/draw-canvas.context.js:754-763 | setting the draggable flag makes every shape draggable as asked and changes nothing else |
| Layer.SnapshotOf | src/draw-canvas/draw-canvas.context.js:303 | corrected snapshot of the first finding: every shape is kept in order with its node, geometry and draggable flag, the selected shape at full opacity, so a layer with correct emphasis gives a snapshot with none |
| Layer.SnapshotIsStorable | src/draw-canvas/draw-canvas.context.js:303 | a snapshot holds no emphasis and the layer's geometry |
| Layer.Recreate | src/draw-canvas/draw-canvas.context.js:347 | recreating a snapshot gives as many new nodes, numbered from the first free id |
| Layer.RestoredIsValid | src/draw-canvas/draw-canvas.context.js:334-357 | a restored layer has distinct new nodes, consistent shapes, no emphasis, and is draggable exactly as the tool says |
| Layer.SnapshotRestoreRoundTrip | src/draw-canvas/draw-canvas.context.js:293-357 | restoring a snapshot gives back the layer's shapes in order with the same geometry, unselected |
| Layer.AsWrittenRestoreShowsStaleEmphasis | src/draw-canvas/draw-canvas.context.js:303 | as written, a shape selected when its snapshot was taken is restored at opacity 0.8 with nothing selected |
| Context.AsWrittenHasNoFontSizeByDefault | src/draw-canvas/draw-canvas.context.js:235-238 | as written, a session created without a font size has none, not the default 16 |
| Context.InitialFontSize | src/draw-canvas/draw-canvas.context.js:235-238 | corrected: the caller's size when given (zero counts as absent), else 16 |
| Context.InitialFontSizeInRange | src/draw-canvas/draw-canvas.config.js:55-59 | the corrected initial size lies in the picker's range 8–48 whenever the caller's does |
| Context.Session.constructor | src/draw-canvas/draw-canvas.context.js:113-252 | a new session has no tool, an empty label and layer, nothing selected, no gesture, no editor, the initial font size, and an empty history of capacity 50. The font size is the corrected initial size of the second finding, not the code's |
| Context.Session.SetFontSize | src/draw-canvas/draw-canvas.context.js:235 | only the font size changes |
| Context.Session.SetPinText | src/draw-canvas/draw-canvas.context.js:252 | only the pin label changes, to a label of at most four characters |
| Context.Session.DeselectShape | src/draw-canvas/draw-canvas.context.js:260-267 | the selected shape returns to full opacity and nothing is selected; nothing else changes |
| Context.Session.SelectShape | src/draw-canvas/draw-canvas.context.js:269-275 | selecting the selected shape changes nothing; otherwise the previous selection is cleared and the shape is selected and emphasised |
| Context.Session.HandleShapeMouseDown | src/draw-canvas/draw-canvas.context.js:311-314 | a press on a shape selects it |
| Context.Session.CommitHistorySnapshot | src/draw-canvas/draw-canvas.context.js:293-308 | when checked, nothing is committed unless the current shape is committable; otherwise exactly one snapshot is committed and handed to the observer, and the session is unchanged. The snapshot is the corrected one of the first finding, without the selection's emphasis |
| Context.Session.ApplyDraggable | src/draw-canvas/draw-canvas.context.js:757-760 | every shape's draggable flag is set as asked and nothing else changes |
| Context.Session.RestoreHistorySnapshot | src/draw-canvas/draw-canvas.context.js:334-357 | the selection is cleared; `EMPTY` empties the layer; a snapshot becomes new nodes, draggable exactly when the tool is drag |
| Context.Session.Undo | src/draw-canvas/draw-canvas.context.js:359-362 | the history moves one step back and the layer shows the entry there |
| Context.Session.Redo | src/draw-canvas/draw-canvas.context.js:364-367 | the history moves one step forward and the layer shows the entry there |
| Context.Session.GetCurrentHistorySnapshot | src/draw-canvas/draw-canvas.context.js:369-371 | returns the entry under the history's cursor, which holds no emphasis because the session commits the corrected snapshot of the first finding |
| Context.Session.DumpHistory | src/draw-canvas/draw-canvas.context.js:373-375 | returns every stored snapshot, at most 50 |
| Context.Session.AddShape | src/draw-canvas/draw-canvas.context.js:501 | the new node is put on top of the layer, and the invariants are kept |
| Context.Session.DrawStart | src/draw-canvas/draw-canvas.context.js:489-503 | no tool, drag and text do nothing; otherwise a gesture starts with a new shape of the tool at the pointer, which is both start and last pointer |
| Context.Session.Draw | src/draw-canvas/draw-canvas.context.js:516-574 | outside a gesture or for a move closer than 10 px nothing changes; otherwise the current shape takes one `DrawStep` and the pointer becomes the last pointer |
| Context.Session.DrawEnd | src/draw-canvas/draw-canvas.context.js:576-580 | outside a gesture nothing changes; otherwise the gesture ends and the layer is committed once exactly when the shape is committable (corrected snapshot, first finding) |
| Context.Session.InstantiateTextEditor | src/draw-canvas/draw-canvas.context.js:592-597 | the editor opens at the pointer |
| Context.Session.CancelText | src/draw-canvas/draw-canvas.context.js:599-601 | the editor closes |
| Context.BlankIffTrimsToEmpty | src/draw-canvas/draw-canvas.context.js:608 | the blank-text guard holds exactly when the text trims to the empty string |
| Context.Session.CommitText | src/draw-canvas/draw-canvas.context.js:607-622 | blank text only closes the editor. A tool without a factory fails and nothing changes. Otherwise the current tool's shape is added at the editor's position (a text shape carries the text; under the pin tool it is a pin with the session's label), the editor closes, and one snapshot is committed (corrected snapshot, first finding) |
| Context.Session.DrawPin | src/draw-canvas/draw-canvas.context.js:636-641 | a pin with the session's label is added at the pointer and one snapshot is committed (corrected snapshot, first finding) |
| Context.Session.HandleMouseDown | src/draw-canvas/draw-canvas.context.js:649-676 | drag on the canvas only deselects; a press on a shape does nothing; text opens the editor; pin places a pin; the drawing tools start a gesture; only the pin commits (corrected snapshot, first finding) |
| Context.Session.HandleMouseMove | src/draw-canvas/draw-canvas.context.js:678-682 | the move has exactly the effect of `draw` |
| Context.Session.HandleMouseUp | src/draw-canvas/draw-canvas.context.js:684-686 | releasing has exactly the effect of `drawEnd`, including its corrected snapshot |
| Context.Session.HandleMouseLeave | src/draw-canvas/draw-canvas.context.js:688-690 | leaving the canvas has exactly the effect of `drawEnd`, including its corrected snapshot |
| Context.Session.HandleDragEnd | src/draw-canvas/draw-canvas.context.js:316-321 | the layer is committed once, then the selection is cleared; the committed snapshot is the corrected one of the first finding |
| Context.Session.DeleteAll | src/draw-canvas/draw-canvas.context.js:698-703 | the layer is emptied, nothing is selected, and the empty layer is committed |
| Context.Session.DelActive | src/draw-canvas/draw-canvas.context.js:705-714 | with nothing selected it reports the error and changes nothing. Otherwise exactly the selected shape is removed, the selection is cleared, and the remaining layer is committed |
| Context.Session.ToolSetter | src/draw-canvas/draw-canvas.context.js:735-738 | the tool changes, the selection is cleared, and every shape becomes draggable exactly when the new tool is drag |
| Scenarios.PenClickLeavesNoHistory | src/draw-canvas/draw-canvas.utilities.js:94-97 | a pen press released without moving leaves one point on the layer and nothing in the history |
| Scenarios.PenStrokeCommitsOnce | src/draw-canvas/draw-canvas.context.js:516-580 | a pen stroke with one move of at least 10 px commits one snapshot holding both points at full opacity |
| Scenarios.DeleteTwice | src/draw-canvas/draw-canvas.context.js:705-714 | deleting the selected pin commits the empty layer, and a second delete reports that nothing is selected |
| Scenarios.UndoRedoPins | src/draw-canvas/draw-canvas.context.js:359-367 | after two pins, undo shows the first pin alone and redo shows both again, unemphasised |
| Scenarios.DragEndThenUndoRedo | src/draw-canvas/draw-canvas.context.js:316-367 | corrected behaviour of the first finding: a shape dragged while selected comes back from undo and redo at full opacity, draggable, with nothing selected |
| Scenarios.DragEndThenUndoRedoAsWritten | src/draw-canvas/draw-canvas.context.js:293-367 | as written: the drag-end commit stores the selected pin at opacity 0.8, and after undo and redo it shows emphasised with nothing selected |

## Left out

- Exporting the image (`saveImage`) and the file download are left out. They are I/O.
- Colours, stroke size, contrast colours, custom shape metadata and their setters are left
  out, as are font family, line caps and fill. They are styling passed to Konva and have no
  effect on the session's logic.
- Konva is reduced to what the session reads back: the geometry of each shape, its opacity,
  its draggable flag and its identity. Rendering (`batchDraw`) and stage creation are left
  out.
- The pin's path, circles and text sub-shapes are collapsed into the group's scale, size and
  offset (`PinFrom`). The sub-shapes' own offsets are not modelled.
- Moving a shape by dragging it is left out. The drag-end commit is modelled, but shapes
  keep their positions, because Konva performs the move itself.
- `CircularHistory` internals are left out. The package is not part of this model.
- The history's second constructor argument and `dump`'s `true` argument concern
  serialisation and are not modelled.
- Snapshots are values, not JSON strings.
- `requestAnimationFrame` in the drag-end handler is left out. The commit and deselection
  run at once.
- The effects are modelled as follows:
  - The draggable effect on a tool change is folded into `Session.ToolSetter`.
  - The cursor-style effect is left out, because it only styles the stage.
  - The effect's `node.draggable` guard is always truthy for a Konva node and is not
    modelled.
- The `alert` in `delActive` is the result `Fail(NoShapeSelected)`.
- The guards for a missing layer, a missing stage, a missing snapshot and a missing
  pointer position are left out. In the session these are always present.
- The error thrown when the active shape is missing during `draw` is left out. It cannot
  happen under `Session.Valid()`.
- Tools are the eight named tools or none. An arbitrary string tool is not modelled.
  The "not implemented" error of `instantiateShape` covers no tool and the drag tool.
- `stringUtil.len` is modelled as the number of characters of the label.
- Context.Session.Undo: requires that no gesture is in progress. The same precondition
  holds for Redo, DeleteAll, DelActive and ToolSetter. The toolbar cannot be used while the
  pointer is pressed on the canvas, and this keeps the gesture invariant.
- Context.Session.DrawPin: requires the pin tool, which is the only tool
  `handleMouseDown` calls it with.
- Context.Session.CommitText: requires the editor to be open. The editor's buttons exist
  only then.
- Context.Session.SetPinText: requires a label of at most four characters, as the label
  input enforces.
- Context.Session.CommitHistorySnapshot: commits the corrected snapshot `SnapshotOf` of the
  first finding, with the selected shape back at full opacity. The code at
  `draw-canvas.context.js:303` stores the selected shape at opacity 0.8. The session does
  not model that stored emphasis; `Layer.SnapshotAsWritten` does.
- Context.Session.GetCurrentHistorySnapshot: promises a snapshot free of emphasis only
  because every commit uses the corrected snapshot. As written, the entry can hold a
  selected shape at 0.8.
- Context.Session.DrawEnd: commits the corrected snapshot of the first finding, not the
  layer as shown.
- Context.Session.DrawPin: commits the corrected snapshot of the first finding, not the
  layer as shown.
- Context.Session.CommitText: commits the corrected snapshot of the first finding, not the
  layer as shown.
- Context.Session.HandleMouseDown: commits (for the pin tool) the corrected snapshot of the
  first finding, not the layer as shown.
- Context.Session.HandleMouseUp: commits through `DrawEnd` the corrected snapshot of the
  first finding, not the layer as shown.
- Context.Session.HandleMouseLeave: commits through `DrawEnd` the corrected snapshot of the
  first finding, not the layer as shown.
- Context.Session.HandleDragEnd: commits the corrected snapshot of the first finding. As
  written, the drag-end commit runs before the deselection and stores the dragged shape at
  0.8; `Scenarios.DragEndThenUndoRedoAsWritten` shows that path on values.
- Context.Session.constructor: starts from the corrected font size `InitialFontSize` of the
  second finding, the default 16 when the caller gives none. As written the size is the
  caller's value, and undefined when the caller gives none; the session does not model an
  undefined font size.
- Shapes.Gesture and the other gesture lemmas apply moves to a shape value. The session
  applies them one `Draw` call at a time.

## Findings

| source | as written | input that shows it | evidently intended | confidence | as-written member | corrected member |
|---|---|---|---|---|---|---|
| src/draw-canvas/draw-canvas.context.js:303 | the snapshot is `layer.toJSON()` of the layer as displayed, so a selected shape is stored at the selection opacity 0.8 (for example drag-end commits before it deselects) | select a shape with the drag tool, drag it, then undo and redo: the restored shape shows at 0.8 while nothing is selected | snapshots store shapes unemphasised, so a restore never shows a stale selection | not executed | Layer.AsWrittenRestoreShowsStaleEmphasis | Layer.SnapshotRestoreRoundTrip |
| src/draw-canvas/draw-canvas.context.js:235-238 | `useState(customFontSize, DRAW_AREA_FONT_SIZE.default)` ignores its second argument, so without a caller's font size the session has none | render the component without a `fontSize` prop and commit a text: the shape's font size is undefined and its y becomes NaN | the caller's size, or else the configured default 16, as the stroke size does at lines 244-246 | not executed | Context.AsWrittenHasNoFontSizeByDefault | Context.InitialFontSize |
