/** The grain silo builder: a corrugated cylinder body, reinforcement rings
    up its side, a conical roof with a cap, a concrete base and an access
    door, each laid out from one configuration record merged over the
    defaults. */
module SiloGeometry {
  import opened Common
  import opened GeometryParts

  datatype Field =
    | BodyRadius | BodyHeight | BodySegments | RoofHeight | BaseHeight | BaseTopRadius | BaseBottomRadius
    | RingCount | RingSpacing | DoorWidth | DoorHeight | CapRadius | CapHeight
    | BodyColor | RoofColor | BaseColor | RingColor | DoorColor | CapColor

  type Config = map<Field, real>

  /** DEFAULT_CONFIG. */
  function Default(f: Field): real {
    match f
    case BodyRadius => 7.65
    case BodyHeight => 14.8
    case BodySegments => 64.0
    case RoofHeight => 3.7
    case BaseHeight => 0.8
    case BaseTopRadius => 9.15
    case BaseBottomRadius => 9.65
    case RingCount => 12.0
    case RingSpacing => 1.23
    case DoorWidth => 0.9
    case DoorHeight => 1.8
    case CapRadius => 0.5
    case CapHeight => 0.3
    case BodyColor => 0xd0d0d0 as real
    case RoofColor => 0xb0b0b0 as real
    case BaseColor => 0x606060 as real
    case RingColor => 0x666666 as real
    case DoorColor => 0x303030 as real
    case CapColor => 0x555555 as real
  }
  /** Every field has a value. */
  predicate Complete(c: Config) {
    forall f: Field :: f in c
  }

  /** DEFAULT_CONFIG as a record holding every field. */
  const DefaultConfig: Config := map f: Field | true :: Default(f)

  /** `{ ...DEFAULT_CONFIG, ...config }`. */
  function Final(over: Config): (c: Config)
    ensures Complete(c)
    ensures forall f :: f in over ==> c[f] == over[f]
    ensures forall f :: f !in over ==> c[f] == Default(f)
  {
    Spread(DefaultConfig, over)
  }

  // ---------------------------------------------------------------------
  // The part lists each add* helper appends

  function BodyPart(c: Config): Part
    requires Complete(c)
  {
    Part(Body, Cylinder(c[BodyRadius], c[BodyRadius], c[BodyHeight], c[BodySegments]),
         Vec3(0.0, c[BodyHeight] / 2.0, 0.0), NoRotation, c[BodyColor])
  }

  /** Ring i of addReinforcementRings. */
  function RingPart(c: Config, i: nat): Part
    requires Complete(c)
  {
    Part(Ring, Torus(c[BodyRadius] + 0.05, 0.06, 6.0, 48.0),
         Vec3(0.0, 1.2 + (i as real) * c[RingSpacing], 0.0), Vec3(0.5, 0.0, 0.0), c[RingColor])
  }

  function Rings(c: Config): (rs: seq<Part>)
    requires Complete(c)
    ensures |rs| == LoopCount(c[RingCount])
  {
    seq(LoopCount(c[RingCount]), i requires 0 <= i => RingPart(c, i))
  }

  function RoofPart(c: Config): Part
    requires Complete(c)
  {
    Part(Roof, Cone(c[BodyRadius] + 0.2, c[RoofHeight], c[BodySegments]),
         Vec3(0.0, c[BodyHeight] + c[RoofHeight] / 2.0, 0.0), NoRotation, c[RoofColor])
  }

  function CapPart(c: Config): Part
    requires Complete(c)
  {
    Part(Cap, Cylinder(c[CapRadius], c[CapRadius], c[CapHeight], 16.0),
         Vec3(0.0, c[BodyHeight] + c[RoofHeight], 0.0), NoRotation, c[CapColor])
  }

  function BasePart(c: Config): Part
    requires Complete(c)
  {
    Part(Base, Cylinder(c[BaseTopRadius], c[BaseBottomRadius], c[BaseHeight], 32.0),
         Vec3(0.0, c[BaseHeight] / 2.0, 0.0), NoRotation, c[BaseColor])
  }

  function DoorPart(c: Config): Part
    requires Complete(c)
  {
    Part(Door, Plane(c[DoorWidth], c[DoorHeight]),
         Vec3(c[BodyRadius] - 0.01, 1.0, 0.0), Vec3(0.0, 0.5, 0.0), c[DoorColor])
  }

  /** Everything create adds, in its order. */
  function SiloParts(c: Config): seq<Part>
    requires Complete(c)
  {
    [BodyPart(c)] + Rings(c) + [RoofPart(c)] + [CapPart(c)] + [BasePart(c)] + [DoorPart(c)]
  }

  // ---------------------------------------------------------------------
  // The builders

  method AddBody(g: Group, c: Config)
    requires Complete(c)
    modifies g
    ensures g.parts == old(g.parts) + [BodyPart(c)]
  {
    g.Add(BodyPart(c));
  }

  /** `for (i = 0; i < ringCount; i++)`. */
  method AddReinforcementRings(g: Group, c: Config)
    requires Complete(c)
    modifies g
    ensures g.parts == old(g.parts) + Rings(c)
  {
    var n := LoopCount(c[RingCount]);
    var i := 0;
    while (i as real) < c[RingCount]
      invariant 0 <= i <= n
      invariant g.parts == old(g.parts) + Rings(c)[..i]
      decreases n - i
    {
      assert Rings(c)[..i + 1] == Rings(c)[..i] + [RingPart(c, i)];
      g.Add(RingPart(c, i));
      i := i + 1;
    }
    assert Rings(c)[..i] == Rings(c);
  }

  method AddRoof(g: Group, c: Config)
    requires Complete(c)
    modifies g
    ensures g.parts == old(g.parts) + [RoofPart(c)]
  {
    g.Add(RoofPart(c));
  }

  method AddRoofCap(g: Group, c: Config)
    requires Complete(c)
    modifies g
    ensures g.parts == old(g.parts) + [CapPart(c)]
  {
    g.Add(CapPart(c));
  }

  method AddBase(g: Group, c: Config)
    requires Complete(c)
    modifies g
    ensures g.parts == old(g.parts) + [BasePart(c)]
  {
    g.Add(BasePart(c));
  }

  method AddAccessDoor(g: Group, c: Config)
    requires Complete(c)
    modifies g
    ensures g.parts == old(g.parts) + [DoorPart(c)]
  {
    g.Add(DoorPart(c));
  }

  /** SiloGeometry.create. */
  method Create(over: Config) returns (g: Group)
    ensures fresh(g)
    ensures g.parts == SiloParts(Final(over))
  {
    var c := Final(over);
    g := new Group();
    AddBody(g, c);
    AddReinforcementRings(g, c);
    assert g.parts == [BodyPart(c)] + Rings(c);
    AddRoof(g, c);
    AddRoofCap(g, c);
    AddBase(g, c);
    AddAccessDoor(g, c);
  }

  /** The overrides of createSimplified, laid over the caller's. */
  function SimplifiedConfig(over: Config): (s: Config)
    ensures Complete(s)
    ensures s[BodySegments] == 32.0 && s[RingCount] == 6.0
    ensures forall f :: f != BodySegments && f != RingCount ==> s[f] == Final(over)[f]
  {
    Spread(Final(over), map[BodySegments := 32.0, RingCount := 6.0])
  }

  /** SiloGeometry.createSimplified: the config goes through create, which
      merges it over the defaults once more. */
  method CreateSimplified(over: Config) returns (g: Group)
    ensures fresh(g)
    ensures g.parts == SiloParts(Final(SimplifiedConfig(over)))
  {
    g := Create(SimplifiedConfig(over));
  }

  /** SiloGeometry.createBodyOnly. */
  method CreateBodyOnly(over: Config) returns (g: Group)
    ensures fresh(g)
    ensures g.parts == [BodyPart(Final(over))]
  {
    var c := Final(over);
    g := new Group();
    AddBody(g, c);
  }

  // ---------------------------------------------------------------------
  // Properties

  /** A caller's field overrides the default; every other field keeps it. */
  lemma OverridesWin(over: Config, f: Field)
    ensures f in over ==> Final(over)[f] == over[f]
    ensures f !in over ==> Final(over)[f] == Default(f)
  {
  }

  /** create lays out the body, ringCount rings, roof, cap, base and door
      in that order: ringCount + 5 parts. */
  lemma SiloLayout(c: Config)
    requires Complete(c)
    ensures var ps := SiloParts(c);
      && |ps| == LoopCount(c[RingCount]) + 5
      && ps[0].kind == Body
      && (forall i :: 1 <= i <= LoopCount(c[RingCount]) ==> ps[i].kind == Ring)
      && ps[|ps| - 4].kind == Roof && ps[|ps| - 3].kind == Cap
      && ps[|ps| - 2].kind == Base && ps[|ps| - 1].kind == Door
  {
    var rs := Rings(c);
    var tail := [RoofPart(c), CapPart(c), BasePart(c), DoorPart(c)];
    var ps := SiloParts(c);
    assert ps == [BodyPart(c)] + rs + tail;
    assert forall i :: 1 <= i <= |rs| ==> ps[i] == rs[i - 1];
    assert ps[|ps| - 4..] == tail;
  }

  /** Ring i sits at 1.2 + i * ringSpacing. */
  lemma RingHeights(over: Config, i: nat)
    requires i < LoopCount(Final(over)[RingCount])
    ensures SiloParts(Final(over))[1 + i].position.y == 1.2 + (i as real) * Final(over)[RingSpacing]
  {
    var c := Final(over);
    assert SiloParts(c)[1 + i] == Rings(c)[i];
  }

  /** The body stands on the ground, the roof starts at the body's top and
      the cap sits at the roof's apex. */
  lemma SiloStacking(over: Config)
    ensures var c := Final(over);
      && Bottom(BodyPart(c)) == 0.0
      && Bottom(RoofPart(c)) == Top(BodyPart(c)) == c[BodyHeight]
      && CapPart(c).position.y == c[BodyHeight] + c[RoofHeight] == Top(RoofPart(c))
      && Bottom(BasePart(c)) == 0.0
  {
  }

  /** The simplified silo has 32 body segments and 6 rings whatever the
      caller asks for, since its overrides survive create's merge. */
  lemma SimplifiedIsFixed(over: Config)
    ensures var c := Final(SimplifiedConfig(over));
      && c[BodySegments] == 32.0 && c[RingCount] == 6.0
      && |SiloParts(c)| == 11
      && SiloParts(c)[0].shape.radialSegments == 32.0
      && forall f :: f != BodySegments && f != RingCount ==> c[f] == Final(over)[f]
  {
    var c := Final(SimplifiedConfig(over));
    assert LoopCount(6.0) == 6;
  }

  /** The base's radii are configuration fields of their own: moving the
      body's radius leaves the base where it was. */
  lemma BaseIgnoresBodyRadius(over: Config, r: real)
    requires BaseTopRadius !in over && BaseBottomRadius !in over
    ensures BasePart(Final(over[BodyRadius := r])) == BasePart(Final(over))
    ensures BasePart(Final(over)).shape == Cylinder(9.15, 9.65, Final(over)[BaseHeight], 32.0)
  {
  }

  /** The body-only silo is the body alone. */
  lemma BodyOnlyIsFirst(over: Config)
    ensures [BodyPart(Final(over))] == SiloParts(Final(over))[..1]
  {
  }
}
