/**
  Placement helpers for the text editor that opens where the text tool is clicked
  (`getTextEditorPosition`, `getTextEditorActionsStyles`, `getTextEditorTextareaWidth`
  in src/draw-canvas/draw-canvas.utilities.js).
*/
module TextEditor {
  import opened Wrappers

  /** The quadrant of the canvas the editor was opened in. */
  datatype EditorPosition = TopLeft | TopRight | BottomLeft | BottomRight

  predicate IsTop(p: EditorPosition) { p.TopLeft? || p.TopRight? }

  predicate IsLeft(p: EditorPosition) { p.TopLeft? || p.BottomLeft? }

  /**
    The quadrant of the point (x, y) within a rectangle of the given size: the editor is in
    the top half exactly when y is above the middle, and in the left half exactly when x is
    left of the middle.
  */
  function PositionOf(x: real, y: real, rectWidth: real, rectHeight: real): (p: EditorPosition)
    ensures IsTop(p) <==> y < rectHeight / 2.0
    ensures IsLeft(p) <==> x < rectWidth / 2.0
  {
    var halfWidth := rectWidth / 2.0;
    var halfHeight := rectHeight / 2.0;
    if y < halfHeight && x < halfWidth then TopLeft
    else if y < halfHeight && x >= halfWidth then TopRight
    else if y >= halfHeight && x < halfWidth then BottomLeft
    else BottomRight
  }

  /** A quadrant is determined by its two halves, so `PositionOf` yields exactly one. */
  lemma PositionDeterminedByHalves(p: EditorPosition, q: EditorPosition)
    requires IsTop(p) == IsTop(q) && IsLeft(p) == IsLeft(q)
    ensures p == q
  {
  }

  /** The CSS offsets of the editor's confirm/cancel buttons; an absent offset is unset. */
  datatype ActionsStyle = ActionsStyle(top: Option<int>, bottom: Option<int>, left: Option<int>)

  /** Offset, in pixels, that moves the buttons just outside the editor box. */
  const ActionsOffset: int := -30

  /**
    Before the quadrant is known no offset is set; afterwards the buttons sit below the
    editor when it is in the top half and above it in the bottom half, always left-aligned.
  */
  function ActionsStyles(position: Option<EditorPosition>): (s: ActionsStyle)
    ensures position.None? ==> s == ActionsStyle(None, None, None)
    ensures position.Some? ==> s.left == Some(0)
    ensures position.Some? ==> (s.bottom.Some? <==> IsTop(position.value)) && (s.top.Some? <==> !IsTop(position.value))
    ensures s.top.Some? ==> s.top.value == ActionsOffset
    ensures s.bottom.Some? ==> s.bottom.value == ActionsOffset
  {
    match position
    case None => ActionsStyle(None, None, None)
    case Some(TopLeft) => ActionsStyle(None, Some(ActionsOffset), Some(0))
    case Some(TopRight) => ActionsStyle(None, Some(ActionsOffset), Some(0))
    case Some(BottomLeft) => ActionsStyle(Some(ActionsOffset), None, Some(0))
    case Some(BottomRight) => ActionsStyle(Some(ActionsOffset), None, Some(0))
  }

  /** The buttons hang below the editor exactly when the editor was opened in the top half. */
  lemma ActionsBelowInTopHalf(x: real, y: real, rectWidth: real, rectHeight: real)
    ensures ActionsStyles(Some(PositionOf(x, y, rectWidth, rectHeight))).bottom.Some? <==> y < rectHeight / 2.0
  {
  }

  /** Joins lines with a newline between each two of them. */
  function Join(lines: seq<string>): string
    requires |lines| >= 1
  {
    if |lines| == 1 then lines[0] else lines[0] + "\n" + Join(lines[1..])
  }

  /**
    The lines of a text, as `text.split("\n")` yields them: never an empty list, no line
    holds a newline, and joining them back gives the text.
  */
  function Split(text: string): (lines: seq<string>)
    ensures |lines| >= 1
    ensures forall k :: 0 <= k < |lines| ==> '\n' !in lines[k]
    ensures Join(lines) == text
  {
    if text == [] then [""]
    else
      var rest := Split(text[1..]);
      if text[0] == '\n' then
        assert ([""] + rest)[1..] == rest;
        [""] + rest
      else
        var first := [text[0]] + rest[0];
        assert ([first] + rest[1..])[1..] == rest[1..];
        assert text == [text[0]] + text[1..];
        [first] + rest[1..]
  }

  /** Splitting a text that starts with a newline-free piece keeps that piece in front. */
  lemma {:induction false} SplitPrefix(prefix: string, text: string)
    requires '\n' !in prefix
    ensures Split(prefix + text) == [prefix + Split(text)[0]] + Split(text)[1..]
    decreases |prefix|
  {
    var tail := Split(text);
    if prefix == [] {
      assert prefix + text == text;
      assert prefix + tail[0] == tail[0];
      assert tail == [tail[0]] + tail[1..];
    } else {
      assert (prefix + text)[0] == prefix[0];
      assert (prefix + text)[1..] == prefix[1..] + text;
      SplitPrefix(prefix[1..], text);
      var rest := Split(prefix[1..] + text);
      assert rest == [prefix[1..] + tail[0]] + tail[1..];
      assert rest[0] == prefix[1..] + tail[0];
      assert rest[1..] == tail[1..];
      assert [prefix[0]] + (prefix[1..] + tail[0]) == prefix + tail[0];
    }
  }

  /** The other round trip: splitting joined newline-free lines gives the lines back. */
  lemma {:induction false} SplitJoin(lines: seq<string>)
    requires |lines| >= 1
    requires forall k :: 0 <= k < |lines| ==> '\n' !in lines[k]
    ensures Split(Join(lines)) == lines
    decreases |lines|
  {
    if |lines| == 1 {
      SplitPrefix(lines[0], "");
      assert lines[0] + "" == lines[0];
    } else {
      var tail := Join(lines[1..]);
      SplitJoin(lines[1..]);
      assert Split("\n" + tail) == [""] + Split(tail);
      SplitPrefix(lines[0], "\n" + tail);
      assert lines[0] + ("\n" + tail) == lines[0] + "\n" + tail;
      assert lines[0] + "" == lines[0];
      assert lines == [lines[0]] + lines[1..];
    }
  }

  /** The length of the longest line, in characters. */
  function LongestLine(lines: seq<string>): (n: nat)
    requires |lines| >= 1
    ensures forall k :: 0 <= k < |lines| ==> |lines[k]| <= n
    ensures exists k :: 0 <= k < |lines| && |lines[k]| == n
  {
    if |lines| == 1 then |lines[0]|
    else
      var m := LongestLine(lines[1..]);
      if |lines[0]| >= m then |lines[0]|
      else
        assert exists k :: 1 <= k < |lines| && |lines[k]| == m by {
          var j :| 0 <= j < |lines[1..]| && |lines[1..][j]| == m;
          assert |lines[j + 1]| == m;
        }
        m
  }

  /** The width taken by `chars` characters plus three, at half the font size per character. */
  function RowWidth(chars: nat, fontSize: real): real
  {
    (chars as real + 3.0) * (fontSize / 2.0)
  }

  lemma RowWidthMonotone(a: nat, b: nat, fontSize: real)
    requires a <= b && fontSize >= 0.0
    ensures RowWidth(a, fontSize) <= RowWidth(b, fontSize)
  {
    var f := fontSize / 2.0;
    assert (b as real + 3.0) * f - (a as real + 3.0) * f == (b as real - a as real) * f;
  }

  /**
    The width of the editor's textarea: room for the longest line plus three characters, at
    half the font size per character. It fits every line of the text and is the width of one
    of them.
  */
  function TextareaWidth(text: string, fontSize: real): (w: real)
    ensures exists k :: 0 <= k < |Split(text)| && w == RowWidth(|Split(text)[k]|, fontSize)
    ensures fontSize >= 0.0 ==> forall k :: 0 <= k < |Split(text)| ==> RowWidth(|Split(text)[k]|, fontSize) <= w
  {
    var lines := Split(text);
    var longest := LongestLine(lines);
    assert fontSize >= 0.0 ==> forall k :: 0 <= k < |lines| ==> RowWidth(|lines[k]|, fontSize) <= RowWidth(longest, fontSize) by {
      if fontSize >= 0.0 {
        forall k | 0 <= k < |lines| {
          RowWidthMonotone(|lines[k]|, longest, fontSize);
        }
      }
    }
    RowWidth(longest, fontSize)
  }
}
