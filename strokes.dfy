/**
 * Stroke points and the line segments a canvas draws from them.
 *
 * A drawing is the ordered sequence of points a player's mouse produced.
 * Every canvas that shows a drawing (the opponent's live view, the voting
 * cards and the results cards) walks the sequence once: the first point only
 * moves the pen, and every later point is joined to its predecessor with the
 * later point's colour and brush size. The model replaces pixels by the list
 * of segments stroked, in stroke order.
 */
module Strokes {

  /** A canvas coordinate. The model does no geometry on it and treats it as an opaque value. */
  type Coord = int

  /** One sampled mouse position with the pen settings in force when it was sampled. */
  datatype Point = Point(x: Coord, y: Coord, color: string, size: int, kind: string)

  /** The only point kind the client produces. */
  const DrawKind: string := "draw"

  /** One stroked line: from (x0, y0) to (x1, y1) with the given colour and width. */
  datatype Segment = Segment(x0: Coord, y0: Coord, x1: Coord, y1: Coord, color: string, size: int)

  /** The segment stroked when the pen moves from `from` to `to`; the pen settings are those of `to`. */
  function Join(from: Point, to: Point): Segment {
    Segment(from.x, from.y, to.x, to.y, to.color, to.size)
  }

  /**
   * The segments a canvas shows for a drawing. Defined incrementally: appending
   * a point to a drawing of at least one point adds exactly one segment.
   */
  function Segments(pts: seq<Point>): (r: seq<Segment>)
    ensures |r| == if |pts| == 0 then 0 else |pts| - 1
    decreases |pts|
  {
    if |pts| <= 1 then []
    else Segments(pts[..|pts| - 1]) + [Join(pts[|pts| - 2], pts[|pts| - 1])]
  }

  /** Segment k runs from point k to point k + 1, with point k + 1's colour and size. */
  lemma {:induction false} SegmentAt(pts: seq<Point>, k: nat)
    requires k + 1 < |pts|
    ensures Segments(pts)[k] == Join(pts[k], pts[k + 1])
  {
    if k + 2 < |pts| {
      var init := pts[..|pts| - 1];
      SegmentAt(init, k);
      assert init[k] == pts[k] && init[k + 1] == pts[k + 1];
    }
  }

  /** A drawing of no point or of a single point draws nothing, and only those do. */
  lemma NothingDrawnIffShort(pts: seq<Point>)
    ensures Segments(pts) == [] <==> |pts| <= 1
  {
  }

  /**
   * Adding one point to a drawing adds at most one segment at the end, from the
   * previous last point to the new one, and leaves the earlier segments as they were.
   */
  lemma AppendPoint(pts: seq<Point>, p: Point)
    ensures Segments(pts + [p]) ==
      if pts == [] then [] else Segments(pts) + [Join(pts[|pts| - 1], p)]
  {
  }

  /**
   * Replaying a prefix of a drawing draws a prefix of the segments of the whole
   * drawing: a receiver that applies the growing drawing update by update sees
   * the same segments, in the same order, as one that replays the final drawing.
   */
  lemma {:induction false} PrefixSegments(pts: seq<Point>, n: nat)
    requires n <= |pts|
    ensures Segments(pts[..n]) == Segments(pts)[..if n == 0 then 0 else n - 1]
  {
    if n < |pts| {
      var init := pts[..|pts| - 1];
      PrefixSegments(init, n);
      assert init[..n] == pts[..n];
    } else {
      assert pts[..n] == pts;
    }
  }

  /**
   * The canvas walk: the first point moves the pen; every later point strokes a
   * line from the pen to itself with its own colour and size, then moves the pen there.
   */
  method Replay(pts: seq<Point>) returns (canvas: seq<Segment>)
    ensures canvas == Segments(pts)
  {
    canvas := [];
    var penX: Coord, penY: Coord := 0, 0;
    var i := 0;
    while i < |pts|
      invariant 0 <= i <= |pts|
      invariant canvas == Segments(pts[..i])
      invariant 0 < i ==> penX == pts[i - 1].x && penY == pts[i - 1].y
    {
      var p := pts[i];
      if i == 0 {
        penX, penY := p.x, p.y;
      } else {
        canvas := canvas + [Segment(penX, penY, p.x, p.y, p.color, p.size)];
        penX, penY := p.x, p.y;
      }
      assert pts[..i + 1][..i] == pts[..i];
      i := i + 1;
    }
    assert pts[..|pts|] == pts;
  }

  /**
   * The voting and results screens: one card per player, each canvas cleared and then
   * the player's drawing replayed on it, so every card shows exactly that drawing's segments.
   */
  method PaintCards(drawings: seq<seq<Point>>) returns (cards: seq<seq<Segment>>)
    ensures |cards| == |drawings|
    ensures forall i :: 0 <= i < |drawings| ==> cards[i] == Segments(drawings[i])
  {
    cards := [];
    for i := 0 to |drawings|
      invariant |cards| == i
      invariant forall j :: 0 <= j < i ==> cards[j] == Segments(drawings[j])
    {
      var card := Replay(drawings[i]);
      cards := cards + [card];
    }
  }
}
