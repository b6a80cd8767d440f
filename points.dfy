/**
  Pointer samples and their decimation while a gesture is in progress
  (`shouldAddPoint` in src/draw-canvas/draw-canvas.utilities.js).
*/
module Points {
  import opened Wrappers

  /** A pointer position in stage coordinates; JavaScript numbers are modelled as reals. */
  datatype Point = Point(x: real, y: real)

  /** Minimum travel, in pixels, between two recorded pointer samples. */
  const MinPointDistance: real := 10.0

  lemma SquareFacts(r: real)
    ensures r * r >= 0.0
  {
    if r < 0.0 {
      NegativeProduct(r, r);
    }
  }

  lemma NegativeProduct(a: real, b: real)
    requires a < 0.0 && b < 0.0
    ensures a * b > 0.0
  {
  }

  /** The squared Euclidean distance between two points: never negative, zero for equal points. */
  function SquaredDistance(a: Point, b: Point): (d: real)
    ensures d >= 0.0
    ensures a == b ==> d == 0.0
  {
    var dx := b.x - a.x;
    var dy := b.y - a.y;
    SquareFacts(dx);
    SquareFacts(dy);
    dx * dx + dy * dy
  }

  /**
    Whether a new pointer sample is recorded: always when there is no previous sample,
    otherwise exactly when it lies at least `MinPointDistance` away from the last one.
  */
  function ShouldAddPoint(last: Option<Point>, next: Point): (add: bool)
    ensures last.None? ==> add
    ensures last == Some(next) ==> !add
    ensures last.Some? ==> (add <==> SquaredDistance(last.value, next) >= MinPointDistance * MinPointDistance)
  {
    if last.None? then true
    else
      var dx := next.x - last.value.x;
      var dy := next.y - last.value.y;
      dx * dx + dy * dy >= MinPointDistance * MinPointDistance
  }

  /**
    The samples that a run of pointer moves records, starting from the last recorded
    position `last`: each move is kept when `ShouldAddPoint` accepts it, and a kept move
    becomes the new last position.
  */
  function Accepted(last: Option<Point>, samples: seq<Point>): seq<Point>
    decreases |samples|
  {
    if samples == [] then []
    else if ShouldAddPoint(last, samples[0]) then [samples[0]] + Accepted(Some(samples[0]), samples[1..])
    else Accepted(last, samples[1..])
  }

  /**
    Decimation: every recorded sample lies at least `MinPointDistance` from the sample
    recorded before it (or from `last`), and with no previous sample the first move is kept.
  */
  lemma {:induction false} AcceptedAreSpaced(last: Option<Point>, samples: seq<Point>)
    ensures var acc := Accepted(last, samples);
      && |acc| <= |samples|
      && (forall k :: 0 < k < |acc| ==> SquaredDistance(acc[k - 1], acc[k]) >= MinPointDistance * MinPointDistance)
      && (last.Some? && |acc| > 0 ==> SquaredDistance(last.value, acc[0]) >= MinPointDistance * MinPointDistance)
      && (last.None? && |samples| > 0 ==> |acc| > 0 && acc[0] == samples[0])
    decreases |samples|
  {
    if samples != [] {
      if ShouldAddPoint(last, samples[0]) {
        AcceptedAreSpaced(Some(samples[0]), samples[1..]);
      } else {
        AcceptedAreSpaced(last, samples[1..]);
      }
    }
  }

  /** Every recorded sample is one of the moves, so decimation never invents positions. */
  lemma {:induction false} AcceptedAreSamples(last: Option<Point>, samples: seq<Point>)
    ensures forall p :: p in Accepted(last, samples) ==> p in samples
    decreases |samples|
  {
    if samples != [] {
      if ShouldAddPoint(last, samples[0]) {
        AcceptedAreSamples(Some(samples[0]), samples[1..]);
      } else {
        AcceptedAreSamples(last, samples[1..]);
      }
    }
  }
}
