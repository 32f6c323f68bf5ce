/** The dimension arithmetic of the cradle builder: three already-parsed
    integer parameters (ball count, spacing, rope length) determine the frame
    pieces, the rest centres of the balls, the rope anchors and the offset
    that starts the swing. Coordinates are reals because half of the frame
    thickness (15) and the left edge of the ball row can be half-integers. */
module Geometry {

  const Width: int := 800
  const Height: int := 600
  const BallSize: int := 40
  const FrameThickness: int := 15

  datatype Point = Point(x: real, y: real)

  /** An axis-aligned rectangle given by its centre and its size, as
      `Bodies.rectangle(x, y, w, h)` takes it. */
  datatype Rect = Rect(center: Point, width: real, height: real)

  datatype Params = Params(count: int, spacing: int, ropeLength: int)

  /** Everything the builder derives from the parameters: the four frame
      pieces, the rest centre of each ball, the anchor of each rope (in
      creation order) and the translation applied to the first ball. */
  datatype Scene = Scene(topBar: Rect, leftLeg: Rect, rightLeg: Rect, base: Rect,
                         rest: seq<Point>, anchors: seq<Point>, swing: Point)
  {
    function Frame(): seq<Rect> {
      [topBar, leftLeg, rightLeg, base]
    }
  }

  function Half(v: int): real {
    v as real / 2.0
  }

  /** The loop `for (i = 0; i < n; i++)` runs max(n, 0) times. */
  function BallCount(p: Params): nat {
    if p.count < 0 then 0 else p.count
  }

  /** Horizontal distance from one ball centre to the next. */
  function Pitch(p: Params): int {
    BallSize + p.spacing
  }

  function TotalBallWidth(p: Params): int {
    p.count * BallSize + (p.count - 1) * p.spacing
  }

  /** `Math.max(totalBallWidth + 100, 300)`: a margin of 100 around the
      balls, but never narrower than 300. */
  function FrameWidth(p: Params): (w: int)
    ensures w >= 300 && w >= TotalBallWidth(p) + 100
    ensures w == 300 || w == TotalBallWidth(p) + 100
  {
    if TotalBallWidth(p) + 100 >= 300 then TotalBallWidth(p) + 100 else 300
  }

  function FrameHeight(p: Params): int {
    p.ropeLength + BallSize * 3
  }

  function StartX(p: Params): real {
    Half(Width) - Half((p.count - 1) * Pitch(p))
  }

  function StartY(p: Params): real {
    Half(Height) - Half(p.ropeLength)
  }

  function TopBar(p: Params): Rect {
    Rect(Point(Half(Width), StartY(p) - Half(FrameThickness)),
         FrameWidth(p) as real, FrameThickness as real)
  }

  function LegY(p: Params): real {
    StartY(p) + Half(FrameHeight(p)) - Half(FrameThickness)
  }

  function LeftLeg(p: Params): Rect {
    Rect(Point(Half(Width) - Half(FrameWidth(p)) + Half(FrameThickness), LegY(p)),
         FrameThickness as real, FrameHeight(p) as real)
  }

  function RightLeg(p: Params): Rect {
    Rect(Point(Half(Width) + Half(FrameWidth(p)) - Half(FrameThickness), LegY(p)),
         FrameThickness as real, FrameHeight(p) as real)
  }

  function Base(p: Params): Rect {
    Rect(Point(Half(Width), StartY(p) + FrameHeight(p) as real - Half(FrameThickness)),
         (FrameWidth(p) + 40) as real, FrameThickness as real)
  }

  /** Rest centre of ball `i`: the i-th step of the row, one rope length
      below the anchor line. */
  function BallRest(p: Params, i: int): Point {
    Point(StartX(p) + (i * Pitch(p)) as real, StartY(p) + p.ropeLength as real)
  }

  /** Fixed end of rope `i`: on the anchor line, at the ball's x. */
  function RopeAnchor(p: Params, i: int): Point {
    Point(StartX(p) + (i * Pitch(p)) as real, StartY(p))
  }

  /** The translation applied to the first ball after construction. */
  function Swing(p: Params): Point {
    Point(-(2 * Pitch(p)) as real, -(BallSize as real))
  }

  function Translated(q: Point, d: Point): Point {
    Point(q.x + d.x, q.y + d.y)
  }

  /** The scene `createCradle` builds for `p`. */
  function Build(p: Params): (sc: Scene)
    ensures |sc.rest| == |sc.anchors| == BallCount(p)
    ensures sc.Frame() == [TopBar(p), LeftLeg(p), RightLeg(p), Base(p)]
    ensures forall i :: 0 <= i < |sc.rest| ==>
              sc.anchors[i].x == sc.rest[i].x &&
              sc.rest[i].y - sc.anchors[i].y == p.ropeLength as real
    ensures sc.swing == Point(-(2 * (BallSize + p.spacing)) as real, -(BallSize as real))
  {
    Scene(TopBar(p), LeftLeg(p), RightLeg(p), Base(p),
          seq(BallCount(p), i => BallRest(p, i)),
          seq(BallCount(p), i => RopeAnchor(p, i)),
          Swing(p))
  }

  /** Positions of the balls once the first one has been pulled aside:
      only the first ball moves, by `swing`; when there is no ball nothing
      moves. */
  function Displaced(sc: Scene): (r: seq<Point>)
    ensures |r| == |sc.rest|
    ensures |r| > 0 ==> r[0] == Point(sc.rest[0].x + sc.swing.x, sc.rest[0].y + sc.swing.y)
    ensures forall i :: 0 < i < |r| ==> r[i] == sc.rest[i]
  {
    if sc.rest == [] then [] else [Translated(sc.rest[0], sc.swing)] + sc.rest[1..]
  }

  // ---------------------------------------------------------------------
  // Properties of the layout

  /** Scaling an ordered pair of integers by a non-negative factor keeps the
      order; the strict version needs a positive factor. */
  lemma ScaleMonotone(a: int, b: int, c: int)
    requires a <= b && c >= 0
    ensures a * c <= b * c
    ensures a < b && c > 0 ==> a * c < b * c
  {
  }

  /** Two instances: five balls two apart give a 208-wide row in a 308-wide
      frame; a single ball gives the 300 floor whatever the spacing. */
  lemma FrameWidthExamples(s: int, L: int)
    ensures TotalBallWidth(Params(5, 2, L)) == 208 && FrameWidth(Params(5, 2, L)) == 308
    ensures TotalBallWidth(Params(1, s, L)) == 40 && FrameWidth(Params(1, s, L)) == 300
  {
  }

  /** Frame proportions: legs as tall as the frame (rope length + 120), the
      base 40 wider than the top bar, and the legs placed symmetrically about
      the centre line x = 400, half a thickness inside the frame's edges. */
  lemma FrameShape(p: Params)
    ensures FrameHeight(p) == p.ropeLength + 120
    ensures LeftLeg(p).height == RightLeg(p).height == (p.ropeLength + 120) as real
    ensures LeftLeg(p).width == RightLeg(p).width == TopBar(p).height == Base(p).height == 15.0
    ensures TopBar(p).width == FrameWidth(p) as real
    ensures Base(p).width == TopBar(p).width + 40.0
    ensures LeftLeg(p).center.x == 400.0 - (Half(FrameWidth(p)) - 7.5)
    ensures RightLeg(p).center.x == 400.0 + (Half(FrameWidth(p)) - 7.5)
    ensures LeftLeg(p).center.y == RightLeg(p).center.y
    ensures TopBar(p).center.x == Base(p).center.x == 400.0
  {
  }

  /** The pieces meet: each leg runs from the top bar's centre line down to
      the base's centre line, and the ropes hang from the top bar's lower
      edge. */
  lemma FrameJoins(p: Params)
    ensures LeftLeg(p).center.y - LeftLeg(p).height / 2.0 == TopBar(p).center.y
    ensures LeftLeg(p).center.y + LeftLeg(p).height / 2.0 == Base(p).center.y
    ensures TopBar(p).center.y + TopBar(p).height / 2.0 == StartY(p)
  {
  }

  /** Neighbouring balls are one pitch (ball size + spacing) apart, at the
      same height. */
  lemma EvenSpacing(p: Params, i: int)
    requires 0 <= i && i + 1 < BallCount(p)
    ensures Build(p).rest[i + 1].x - Build(p).rest[i].x == (BallSize + p.spacing) as real
    ensures Build(p).rest[i + 1].y == Build(p).rest[i].y
  {
  }

  /** With a non-negative spacing the row runs strictly left to right in
      creation order. */
  lemma StrictlyIncreasing(p: Params, i: int, j: int)
    requires p.spacing >= 0
    requires 0 <= i < j < BallCount(p)
    ensures Build(p).rest[i].x < Build(p).rest[j].x
  {
  }

  /** The row is centred: the first and last rest centres average to half
      the scene width. */
  lemma RowCentred(p: Params)
    requires BallCount(p) >= 1
    ensures (Build(p).rest[0].x + Build(p).rest[BallCount(p) - 1].x) / 2.0 == Half(Width)
  {
  }

  /** `totalBallWidth` is the distance from the left edge of the first ball
      to the right edge of the last. */
  lemma RowWidth(p: Params)
    requires BallCount(p) >= 1
    ensures (Build(p).rest[BallCount(p) - 1].x + Half(BallSize))
            - (Build(p).rest[0].x - Half(BallSize)) == TotalBallWidth(p) as real
  {
  }

  /** Every ball rests one rope length below its anchor; the anchor lies on
      the top bar's lower edge and, for a non-negative spacing, within the
      bar's length. */
  lemma RopeUnderBar(p: Params, i: int)
    requires p.spacing >= 0
    requires 0 <= i < BallCount(p)
    ensures Build(p).anchors[i].x == Build(p).rest[i].x
    ensures Build(p).rest[i].y - Build(p).anchors[i].y == p.ropeLength as real
    ensures Build(p).anchors[i].y == TopBar(p).center.y + TopBar(p).height / 2.0
    ensures TopBar(p).center.x - TopBar(p).width / 2.0 < Build(p).anchors[i].x
    ensures Build(p).anchors[i].x < TopBar(p).center.x + TopBar(p).width / 2.0
  {
    ScaleMonotone(0, i, Pitch(p));
    ScaleMonotone(i, p.count - 1, Pitch(p));
    assert TotalBallWidth(p) == (p.count - 1) * Pitch(p) + BallSize;
  }

  /** For a non-negative spacing every ball at rest lies strictly between
      the inner faces of the two legs. */
  lemma BallsInsideFrame(p: Params, i: int)
    requires p.spacing >= 0
    requires 0 <= i < BallCount(p)
    ensures LeftLeg(p).center.x + LeftLeg(p).width / 2.0 < Build(p).rest[i].x - Half(BallSize)
    ensures Build(p).rest[i].x + Half(BallSize) < RightLeg(p).center.x - RightLeg(p).width / 2.0
  {
    ScaleMonotone(0, i, Pitch(p));
    ScaleMonotone(i, p.count - 1, Pitch(p));
    assert TotalBallWidth(p) == (p.count - 1) * Pitch(p) + BallSize;
  }
}
