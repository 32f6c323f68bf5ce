/** The cradle builder and its rebuild step: the page keeps one world and
    one current cradle composite; every rebuild removes the current cradle
    from the world, assembles a new one from the layout in `Geometry`
    (four static frame pieces, then one ball and one rope per step of the
    loop), adds it to the world and pulls the first ball aside. */
module Cradle {
  import opened Geometry
  import opened Engine

  /** The mouse's drag spring: stiffness 0.2, not drawn. */
  const MouseDrag: Link := MouseSpring(0.2, false)

  /** Frame pieces: static, collision category 0x0002, mask 0 (they collide
      with nothing). */
  const FrameOptions: Options := StaticFrame(2, 0)

  /** Balls: restitution 1, no friction, no air friction, slop 1, infinite
      inertia. */
  const BobOptions: Options := Bob(1.0, 0.0, 0.0, 1.0, true)

  const BallTag: Label := Named("Ball")

  /** `bodies.filter(b => b.label === 'Ball')`. */
  function BallsOf(bodies: seq<Body>): (r: seq<Body>)
    ensures |r| <= |bodies|
    ensures forall k :: 0 <= k < |r| ==> r[k].tag == BallTag && r[k] in bodies
    ensures forall k :: 0 <= k < |bodies| && bodies[k].tag == BallTag ==> bodies[k] in r
  {
    if bodies == [] then []
    else if bodies[0].tag == BallTag then [bodies[0]] + BallsOf(bodies[1..])
    else BallsOf(bodies[1..])
  }

  /** Filtering a concatenation filters each part. */
  lemma {:induction false} BallsOfAppend(a: seq<Body>, b: seq<Body>)
    ensures BallsOf(a + b) == BallsOf(a) + BallsOf(b)
  {
    if a != [] {
      assert (a + b)[0] == a[0];
      assert (a + b)[1..] == a[1..] + b;
      BallsOfAppend(a[1..], b);
    } else {
      assert a + b == b;
    }
  }

  /** A sequence of balls passes the filter unchanged, in order. */
  lemma {:induction false} BallsOfAllBalls(s: seq<Body>)
    requires forall k :: 0 <= k < |s| ==> s[k].tag == BallTag
    ensures BallsOf(s) == s
  {
    if s != [] {
      BallsOfAllBalls(s[1..]);
    }
  }

  /** A sequence without balls filters to nothing. */
  lemma {:induction false} BallsOfNoBalls(s: seq<Body>)
    requires forall k :: 0 <= k < |s| ==> s[k].tag != BallTag
    ensures BallsOf(s) == []
  {
    if s != [] {
      BallsOfNoBalls(s[1..]);
    }
  }

  /** The layout's frame rectangle `r` as a body shape. */
  function RectShape(r: Rect): Shape {
    Rectangle(r.width, r.height)
  }

  /** No body appears twice. */
  ghost predicate Distinct(bodies: seq<Body>) {
    forall a, b :: 0 <= a < b < |bodies| ==> bodies[a] != bodies[b]
  }

  /** The first four bodies of `c` are the frame pieces for `p`, in the
      order top bar, left leg, right leg, base: static, non-colliding
      rectangles of the layout's sizes. */
  ghost predicate FrameShaped(c: Composite, p: Params)
    reads c
  {
    |c.bodies| >= 4 &&
    forall k :: 0 <= k < 4 ==>
      c.bodies[k].tag == Default && c.bodies[k].options == FrameOptions &&
      c.bodies[k].shape == RectShape(Build(p).Frame()[k])
  }

  /** The bodies of `c` after the frame are `i` balls, and rope `j` ties
      ball `j` to anchor `j`. */
  ghost predicate BallsShaped(c: Composite, p: Params, i: nat)
    reads c
    requires i <= BallCount(p)
  {
    |c.bodies| == 4 + i && |c.constraints| == i &&
    forall k :: 4 <= k < |c.bodies| ==>
      c.bodies[k].tag == BallTag && c.bodies[k].options == BobOptions &&
      c.bodies[k].shape == Circle(Half(BallSize)) &&
      c.constraints[k - 4] == Rope(Build(p).anchors[k - 4], c.bodies[k])
  }

  /** Structure of a cradle built for `p`: the four frame pieces, then one
      ball per loop step and one rope per ball, no body twice and no nested
      composite. Positions are left out: between rebuilds the engine moves
      the balls. */
  ghost predicate Shaped(c: Composite, p: Params)
    reads c
  {
    c.composites == [] && FrameShaped(c, p) && BallsShaped(c, p, BallCount(p)) && Distinct(c.bodies)
  }

  /** Every frame piece of `c` stands at its built position. */
  ghost predicate FrameAtRest(c: Composite, p: Params)
    reads c, c.bodies
    requires |c.bodies| >= 4
  {
    forall k :: 0 <= k < 4 ==> c.bodies[k].position == Build(p).Frame()[k].center
  }

  /** A cradle as it stands right after `createCradle(p)`: shaped for `p`,
      every frame piece at its built position, and the balls at their rest
      centres except the first, which is pulled aside by the swing. */
  ghost predicate Placed(c: Composite, p: Params)
    reads c, c.bodies
  {
    Shaped(c, p) && FrameAtRest(c, p) &&
    forall k :: 4 <= k < |c.bodies| ==> c.bodies[k].position == Displaced(Build(p))[k - 4]
  }

  /** The balls of a shaped cradle, as the filter finds them, are its bodies
      after the four frame pieces, in creation order; so the first of them
      is the first ball created. */
  lemma CradleBalls(c: Composite, p: Params)
    requires Shaped(c, p)
    ensures BallsOf(c.bodies) == c.bodies[4..]
    ensures |BallsOf(c.bodies)| == BallCount(p)
    ensures BallCount(p) > 0 ==> BallsOf(c.bodies)[0] == c.bodies[4]
  {
    assert c.bodies == c.bodies[..4] + c.bodies[4..];
    BallsOfAppend(c.bodies[..4], c.bodies[4..]);
    BallsOfAllBalls(c.bodies[4..]);
    BallsOfNoBalls(c.bodies[..4]);
  }

  /** The page's state: the world, which holds the drag spring and the
      current cradle, and the current cradle itself (none before the first
      build). */
  class App {
    var world: Composite
    var cradle: Composite?
    /** The parameters of the last rebuild. */
    ghost var params: Params

    ghost predicate Valid()
      reads this, world, cradle
    {
      world.bodies == [] && world.constraints == [MouseDrag] &&
      cradle != world &&
      world.composites == (if cradle == null then [] else [cradle]) &&
      (cradle != null ==> Shaped(cradle, params))
    }

    /** `init`: a fresh world holding the drag spring, then the first build. */
    constructor Init(n: int, s: int, L: int)
      ensures Valid() && fresh(world) && params == Params(n, s, L)
      ensures cradle != null && world.composites == [cradle]
      ensures Placed(cradle, params)
    {
      world := new Composite("World");
      cradle := null;
      new;
      world.AddConstraint(MouseDrag);
      CreateCradle(n, s, L);
    }

    /** `createCradle`: replaces the current cradle by a new one built for
        `(n, s, L)`. The world ends up holding the drag spring and exactly
        one cradle, the new one, so its bodies and constraints are those of
        one build, whatever was built before. */
    method CreateCradle(n: int, s: int, L: int)
      requires Valid()
      modifies this, world
      ensures Valid() && params == Params(n, s, L)
      ensures world == old(world) && cradle != null && fresh(cradle)
      ensures world.composites == [cradle]
      ensures old(cradle) != null ==> old(cradle) !in world.composites
      ensures Placed(cradle, params)
      ensures world.AllBodies() == cradle.bodies
      ensures forall k :: 0 <= k < |cradle.bodies| ==> fresh(cradle.bodies[k])
      ensures |world.AllBodies()| == 4 + BallCount(params)
      ensures |world.constraints| + |cradle.constraints| == 1 + BallCount(params)
    {
      if cradle != null {
        world.RemoveComposite(cradle);
      }
      var c := new Composite("Cradle");
      cradle := c;
      var p := Params(n, s, L);
      AddFrame(c, p);
      AddBalls(c, p);
      world.AddComposite(c);
      params := p;
      SwingFirstBall(c, p);
      assert world.composites[1..] == [];
      assert NestedBodies(world.composites) == c.bodies + NestedBodies([]);
      assert world.AllBodies() == c.bodies;
    }
  }

  /** The frame: four static rectangles added to the empty cradle `c`. */
  method AddFrame(c: Composite, p: Params)
    requires c.bodies == [] && c.constraints == [] && c.composites == []
    modifies c
    ensures FrameShaped(c, p) && FrameAtRest(c, p)
    ensures |c.bodies| == 4 && c.constraints == [] && c.composites == []
    ensures Distinct(c.bodies) && forall k :: 0 <= k < |c.bodies| ==> fresh(c.bodies[k])
  {
    var topBar := new Body(Default, RectShape(TopBar(p)), FrameOptions, TopBar(p).center);
    var leftLeg := new Body(Default, RectShape(LeftLeg(p)), FrameOptions, LeftLeg(p).center);
    var rightLeg := new Body(Default, RectShape(RightLeg(p)), FrameOptions, RightLeg(p).center);
    var base := new Body(Default, RectShape(Base(p)), FrameOptions, Base(p).center);
    c.AddBodies([topBar, leftLeg, rightLeg, base]);
  }

  /** The loop over the balls: for each index, a ball at its rest centre and
      a rope from the anchor above it, appended to `c` after the frame. */
  method AddBalls(c: Composite, p: Params)
    requires FrameShaped(c, p) && FrameAtRest(c, p)
    requires |c.bodies| == 4 && c.constraints == [] && c.composites == []
    requires Distinct(c.bodies)
    modifies c
    ensures Shaped(c, p) && FrameAtRest(c, p)
    ensures forall k :: 4 <= k < |c.bodies| ==> c.bodies[k].position == Build(p).rest[k - 4]
    ensures c.bodies[..4] == old(c.bodies)
    ensures forall k :: 4 <= k < |c.bodies| ==> fresh(c.bodies[k])
  {
    var i := 0;
    while i < p.count
      invariant 0 <= i <= BallCount(p)
      invariant FrameShaped(c, p) && FrameAtRest(c, p)
      invariant c.bodies[..4] == old(c.bodies) && c.composites == []
      invariant BallsShaped(c, p, i) && Distinct(c.bodies)
      invariant forall k :: 4 <= k < |c.bodies| ==> c.bodies[k].position == Build(p).rest[k - 4]
      invariant forall k :: 4 <= k < |c.bodies| ==> fresh(c.bodies[k])
    {
      var ballX := StartX(p) + (i * (BallSize + p.spacing)) as real;
      var ball := new Body(BallTag, Circle(Half(BallSize)), BobOptions,
                           Point(ballX, StartY(p) + p.ropeLength as real));
      var rope := Rope(Point(ballX, StartY(p)), ball);
      c.AddBody(ball);
      c.AddConstraint(rope);
      i := i + 1;
    }
  }

  /** The swing: the first body labelled as a ball is translated by the
      swing offset; with no ball, nothing moves. */
  method SwingFirstBall(c: Composite, p: Params)
    requires Shaped(c, p) && FrameAtRest(c, p)
    requires forall k :: 4 <= k < |c.bodies| ==> c.bodies[k].position == Build(p).rest[k - 4]
    modifies c.bodies
    ensures Placed(c, p)
  {
    var balls := BallsOf(c.bodies);
    CradleBalls(c, p);
    if |balls| > 0 {
      balls[0].Translate(Swing(p));
    }
  }

  /** Rebuilding twice with the same parameters leaves the world holding one
      cradle of that size, not two. */
  method RebuildTwice(app: App, n: int, s: int, L: int)
    requires app.Valid()
    modifies app, app.world
    ensures app.Valid() && app.world == old(app.world)
    ensures |app.world.composites| == 1
    ensures |app.world.AllBodies()| == 4 + BallCount(Params(n, s, L))
    ensures |app.world.constraints| + |app.cradle.constraints| == 1 + BallCount(Params(n, s, L))
    ensures app.params == Params(n, s, L) && Placed(app.cradle, app.params)
  {
    app.CreateCradle(n, s, L);
    app.CreateCradle(n, s, L);
  }

  /** A rebuild leaves nothing of the previous cradle behind: none of its
      frame pieces or balls is still among the world's bodies, and none of
      its ropes is still among the world's constraints. */
  method RebuildDetachesOld(app: App, n: int, s: int, L: int)
    requires app.Valid() && app.cradle != null
    modifies app, app.world
    ensures app.Valid() && app.world == old(app.world) && app.cradle != null
    ensures forall b :: b in old(app.cradle.bodies) ==> b !in app.world.AllBodies()
    ensures forall l :: l in old(app.cradle.constraints) ==>
              l !in app.world.constraints && l !in app.cradle.constraints
  {
    ghost var oldBodies := app.cradle.bodies;
    ghost var oldRopes := app.cradle.constraints;
    forall i | 0 <= i < |oldRopes|
      ensures oldRopes[i].Rope? && oldRopes[i].bodyB in oldBodies
    {
      assert oldBodies[i + 4] in oldBodies;
      assert oldRopes[(i + 4) - 4] == Rope(Build(app.params).anchors[i], oldBodies[i + 4]);
    }
    app.CreateCradle(n, s, L);
    ghost var newBodies := app.cradle.bodies;
    assert forall k :: 0 <= k < |newBodies| ==> newBodies[k] !in oldBodies;
    ghost var newRopes := app.cradle.constraints;
    forall i | 0 <= i < |newRopes|
      ensures newRopes[i].Rope? && newRopes[i].bodyB !in oldBodies
    {
      assert newRopes[(i + 4) - 4] == Rope(Build(app.params).anchors[i], newBodies[i + 4]);
    }
  }
}
