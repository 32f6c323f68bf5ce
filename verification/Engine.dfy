/** The part of the physics engine's object model that the cradle builder
    touches: bodies whose position can be translated in place, constraints,
    and composites (the world is one) that bodies, constraints and other
    composites are added to and removed from. Dynamics, rendering and the
    vertices of a body are not modelled. */
module Engine {
  import opened Geometry

  datatype Shape = Rectangle(width: real, height: real) | Circle(radius: real)

  /** A body's label: the library's own default unless the builder names it. */
  datatype Label = Default | Named(name: string)

  /** The physical options the builder passes, carried as tags: frame pieces
      are static with a collision category and mask; balls are perfectly
      elastic, frictionless bobs that do not rotate. */
  datatype Options =
    | StaticFrame(category: int, mask: int)
    | Bob(restitution: real, friction: real, frictionAir: real, slop: real, fixedRotation: bool)

  class Body {
    /** The body's `label` option. */
    const tag: Label
    const shape: Shape
    const options: Options
    var position: Point

    constructor (tag: Label, shape: Shape, options: Options, position: Point)
      ensures this.tag == tag && this.shape == shape && this.options == options
      ensures this.position == position
    {
      this.tag := tag;
      this.shape := shape;
      this.options := options;
      this.position := position;
    }

    /** `Body.translate`: shifts the body by `d`, in place. */
    method Translate(d: Point)
      modifies this
      ensures position == Translated(old(position), d)
    {
      position := Translated(position, d);
    }
  }

  /** A constraint: a rope from a fixed world point to a body, or the
      mouse's drag spring. */
  datatype Link =
    | Rope(pointA: Point, bodyB: Body)
    | MouseSpring(stiffness: real, visible: bool)

  /** Position of `c` in `cs`, or -1 when it is absent: the first
      occurrence, as the library's index lookup finds it. */
  function IndexOf(cs: seq<Composite>, c: Composite): (k: int)
    ensures -1 <= k < |cs|
    ensures k == -1 <==> c !in cs
    ensures k >= 0 ==> cs[k] == c && c !in cs[..k]
  {
    if cs == [] then -1
    else if cs[0] == c then 0
    else
      var k := IndexOf(cs[1..], c);
      assert cs[1..][..if k < 0 then 0 else k] == cs[1..if k < 0 then 1 else k + 1];
      if k < 0 then -1 else k + 1
  }

  /** The bodies held directly by each composite of `cs`, in order. */
  ghost function NestedBodies(cs: seq<Composite>): seq<Body>
    reads cs
  {
    if cs == [] then [] else cs[0].bodies + NestedBodies(cs[1..])
  }

  class Composite {
    /** The composite's `label` option. */
    const name: string
    var bodies: seq<Body>
    var constraints: seq<Link>
    var composites: seq<Composite>

    /** `Composite.create({ label })`: an empty composite. */
    constructor (name: string)
      ensures this.name == name
      ensures bodies == [] && constraints == [] && composites == []
    {
      this.name := name;
      bodies := [];
      constraints := [];
      composites := [];
    }

    /** Bodies of this composite and of the composites directly inside it. */
    ghost function AllBodies(): seq<Body>
      reads this, composites
    {
      bodies + NestedBodies(composites)
    }

    /** `Composite.add` with an array of bodies: appended in order. */
    method AddBodies(bs: seq<Body>)
      modifies this
      ensures bodies == old(bodies) + bs
      ensures constraints == old(constraints) && composites == old(composites)
    {
      bodies := bodies + bs;
    }

    /** `Composite.addBody`. */
    method AddBody(b: Body)
      modifies this
      ensures bodies == old(bodies) + [b]
      ensures constraints == old(constraints) && composites == old(composites)
    {
      bodies := bodies + [b];
    }

    /** `Composite.addConstraint`, and `World.add` of a mouse constraint,
        which adds the constraint it wraps. */
    method AddConstraint(l: Link)
      modifies this
      ensures constraints == old(constraints) + [l]
      ensures bodies == old(bodies) && composites == old(composites)
    {
      constraints := constraints + [l];
    }

    /** `World.add` of a composite. */
    method AddComposite(c: Composite)
      modifies this
      ensures composites == old(composites) + [c]
      ensures bodies == old(bodies) && constraints == old(constraints)
    {
      composites := composites + [c];
    }

    /** `Composite.remove` of a composite: its first occurrence goes, and
        everything it holds goes with it; removing one that is not there
        changes nothing. */
    method RemoveComposite(c: Composite)
      modifies this
      ensures var k := IndexOf(old(composites), c);
              composites == if k < 0 then old(composites)
                            else old(composites)[..k] + old(composites)[k + 1..]
      ensures multiset(composites) == multiset(old(composites)) - multiset{c}
      ensures bodies == old(bodies) && constraints == old(constraints)
    {
      var k := IndexOf(composites, c);
      if k >= 0 {
        assert composites == composites[..k] + [c] + composites[k + 1..];
        composites := composites[..k] + composites[k + 1..];
      }
    }
  }
}
