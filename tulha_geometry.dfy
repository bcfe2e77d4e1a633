/** The elevated grain bin ("tulha") builder: four support legs with three
    levels of bracing, a platform on the legs, the corrugated body on the
    platform, a conical roof, a discharge hopper under the platform and an
    access ladder with rungs. */
module TulhaGeometry {
  import opened Common
  import opened GeometryParts

  datatype Field =
    | LegHeight | LegRadius | LegSpacing | BodyRadius | BodyHeight | BodySegments | RoofHeight
    | PlatformSize | PlatformHeight | HopperRadius | HopperHeight | LadderWidth | LadderOffset
    | RungCount | RungSpacing | BraceRadius | BraceLength
    | BodyColor | RoofColor | LegColor | PlatformColor | HopperColor | LadderColor | BraceColor

  type Config = map<Field, real>

  /** DEFAULT_CONFIG. */
  function Default(f: Field): real {
    match f
    case LegHeight => 8.0
    case LegRadius => 0.3
    case LegSpacing => 3.0
    case BodyRadius => 4.0
    case BodyHeight => 6.0
    case BodySegments => 32.0
    case RoofHeight => 2.0
    case PlatformSize => 8.0
    case PlatformHeight => 0.3
    case HopperRadius => 1.2
    case HopperHeight => 2.0
    case LadderWidth => 0.08
    case LadderOffset => 0.5
    case RungCount => 15.0
    case RungSpacing => 0.5
    case BraceRadius => 0.1
    case BraceLength => 6.0
    case BodyColor => 0xd0d0d0 as real
    case RoofColor => 0xb0b0b0 as real
    case LegColor => 0x666666 as real
    case PlatformColor => 0x777777 as real
    case HopperColor => 0x888888 as real
    case LadderColor => 0x444444 as real
    case BraceColor => 0x555555 as real
  }
  /** The rung colour, fixed in the builder rather than configured. */
  const RungColor: real := 0x333333 as real

  predicate Complete(c: Config) {
    forall f: Field :: f in c
  }

  /** DEFAULT_CONFIG as a record holding every field. */
  const DefaultConfig: Config := map f: Field | true :: Default(f)

  /** `{ ...DEFAULT_CONFIG, ...config }`. */
  function Final(over: Config): (c: Config)
    ensures Complete(c)
    ensures forall f :: f in over ==> c[f] == over[f]
    ensures forall f :: f !in over ==> c[f] == Default(f)
  {
    Spread(DefaultConfig, over)
  }

  /** LEG_POSITIONS: the (x, z) of each leg. */
  const LegPositions: seq<(real, real)> := [(3.0, 3.0), (-3.0, 3.0), (3.0, -3.0), (-3.0, -3.0)]

  // ---------------------------------------------------------------------
  // The part lists each add* helper appends

  function LegPart(c: Config, pos: (real, real)): Part
    requires Complete(c)
  {
    Part(Leg, Cylinder(c[LegRadius], c[LegRadius], c[LegHeight], 16.0),
         Vec3(pos.0, c[LegHeight] / 2.0, pos.1), NoRotation, c[LegColor])
  }

  function Legs(c: Config): (ls: seq<Part>)
    requires Complete(c)
    ensures |ls| == 4
  {
    seq(4, i requires 0 <= i < 4 => LegPart(c, LegPositions[i]))
  }

  function BraceShape(c: Config): Shape
    requires Complete(c)
  {
    Cylinder(c[BraceRadius], c[BraceRadius], c[BraceLength], 8.0)
  }

  /** The braces one leg contributes at a level: a front-back brace for the
      first two legs, a left-right one for legs 0 and 2. */
  function BracesAt(c: Config, height: real, idx: nat): seq<Part>
    requires Complete(c) && idx < 4
  {
    var pos := LegPositions[idx];
    (if idx < 2 then [Part(Brace, BraceShape(c), Vec3(0.0, height, pos.1), Vec3(0.0, 0.0, 0.5), c[BraceColor])] else [])
    + (if idx == 0 || idx == 2 then [Part(Brace, BraceShape(c), Vec3(pos.0, height, 0.0), Vec3(0.5, 0.0, 0.0), c[BraceColor])] else [])
  }

  /** The braces of the first n legs at one level. */
  function LevelBraces(c: Config, height: real, n: nat): seq<Part>
    requires Complete(c) && n <= 4
  {
    if n == 0 then [] else LevelBraces(c, height, n - 1) + BracesAt(c, height, n - 1)
  }

  /** The height of level i: 2, 4, 6. */
  function LevelHeight(i: nat): real {
    2.0 + (i as real) * 2.0
  }

  /** The braces of the first n levels. */
  function Bracing(c: Config, n: nat): seq<Part>
    requires Complete(c) && n <= 3
  {
    if n == 0 then [] else Bracing(c, n - 1) + LevelBraces(c, LevelHeight(n - 1), 4)
  }

  function PlatformPart(c: Config): Part
    requires Complete(c)
  {
    Part(Platform, Box(c[PlatformSize], c[PlatformHeight], c[PlatformSize]),
         Vec3(0.0, c[LegHeight] + c[PlatformHeight] / 2.0, 0.0), NoRotation, c[PlatformColor])
  }

  function BodyPart(c: Config): Part
    requires Complete(c)
  {
    Part(Body, Cylinder(c[BodyRadius], c[BodyRadius], c[BodyHeight], c[BodySegments]),
         Vec3(0.0, c[LegHeight] + c[PlatformHeight] + c[BodyHeight] / 2.0, 0.0), NoRotation, c[BodyColor])
  }

  function RoofPart(c: Config): Part
    requires Complete(c)
  {
    Part(Roof, Cone(c[BodyRadius] + 0.1, c[RoofHeight], c[BodySegments]),
         Vec3(0.0, c[LegHeight] + c[PlatformHeight] + c[BodyHeight] + c[RoofHeight] / 2.0, 0.0),
         NoRotation, c[RoofColor])
  }

  function HopperPart(c: Config): Part
    requires Complete(c)
  {
    Part(Hopper, Cone(c[HopperRadius], c[HopperHeight], 8.0),
         Vec3(0.0, c[LegHeight] - 1.0, 0.0), Vec3(1.0, 0.0, 0.0), c[HopperColor])
  }

  /** The depth of the ladder: in front of the body by ladderOffset. */
  function LadderZ(c: Config): real
    requires Complete(c)
  {
    c[BodyRadius] + c[LadderOffset]
  }

  function RailPart(c: Config, x: real): Part
    requires Complete(c)
  {
    Part(Rail, Box(c[LadderWidth], c[LegHeight], c[LadderWidth]),
         Vec3(x, c[LegHeight] / 2.0, LadderZ(c)), NoRotation, c[LadderColor])
  }

  function RungPart(c: Config, i: nat): Part
    requires Complete(c)
  {
    Part(Rung, Cylinder(0.03, 0.03, 0.4, 8.0),
         Vec3(0.2, 0.5 + (i as real) * c[RungSpacing], LadderZ(c)), Vec3(0.0, 0.0, 0.5), RungColor)
  }

  function Rungs(c: Config): (rs: seq<Part>)
    requires Complete(c)
    ensures |rs| == LoopCount(c[RungCount])
  {
    seq(LoopCount(c[RungCount]), i requires 0 <= i => RungPart(c, i))
  }

  /** Both rails, then the rungs. */
  function LadderParts(c: Config): seq<Part>
    requires Complete(c)
  {
    [RailPart(c, 0.0), RailPart(c, 0.4)] + Rungs(c)
  }

  /** Everything create adds, in its order. */
  function TulhaParts(c: Config): seq<Part>
    requires Complete(c)
  {
    Legs(c) + Bracing(c, 3) + [PlatformPart(c)] + [BodyPart(c)] + [RoofPart(c)] + [HopperPart(c)]
    + LadderParts(c)
  }

  function SimplifiedParts(c: Config): seq<Part>
    requires Complete(c)
  {
    Legs(c) + [PlatformPart(c)] + [BodyPart(c)] + [RoofPart(c)]
  }

  function SupportParts(c: Config): seq<Part>
    requires Complete(c)
  {
    Legs(c) + Bracing(c, 3) + [PlatformPart(c)]
  }

  // ---------------------------------------------------------------------
  // The builders

  /** `LEG_POSITIONS.forEach(pos => group.add(leg at pos))`. */
  method AddSupportLegs(g: Group, c: Config)
    requires Complete(c)
    modifies g
    ensures g.parts == old(g.parts) + Legs(c)
  {
    var i := 0;
    while i < |LegPositions|
      invariant 0 <= i <= 4
      invariant g.parts == old(g.parts) + Legs(c)[..i]
    {
      assert Legs(c)[..i + 1] == Legs(c)[..i] + [LegPart(c, LegPositions[i])];
      g.Add(LegPart(c, LegPositions[i]));
      i := i + 1;
    }
    assert Legs(c)[..4] == Legs(c);
  }

  /** Three levels, and at each the forEach over the legs with its two tests. */
  method AddCrossBracing(g: Group, c: Config)
    requires Complete(c)
    modifies g
    ensures g.parts == old(g.parts) + Bracing(c, 3)
  {
    var i := 0;
    while i < 3
      invariant 0 <= i <= 3
      invariant g.parts == old(g.parts) + Bracing(c, i)
    {
      var height := 2.0 + (i as real) * 2.0;
      var idx := 0;
      ghost var before := g.parts;
      while idx < |LegPositions|
        invariant 0 <= idx <= 4
        invariant g.parts == before + LevelBraces(c, height, idx)
      {
        var pos := LegPositions[idx];
        if idx < 2 {
          g.Add(Part(Brace, BraceShape(c), Vec3(0.0, height, pos.1), Vec3(0.0, 0.0, 0.5), c[BraceColor]));
        }
        if idx == 0 || idx == 2 {
          g.Add(Part(Brace, BraceShape(c), Vec3(pos.0, height, 0.0), Vec3(0.5, 0.0, 0.0), c[BraceColor]));
        }
        idx := idx + 1;
      }
      i := i + 1;
    }
  }

  method AddPlatform(g: Group, c: Config)
    requires Complete(c)
    modifies g
    ensures g.parts == old(g.parts) + [PlatformPart(c)]
  {
    g.Add(PlatformPart(c));
  }

  method AddBody(g: Group, c: Config)
    requires Complete(c)
    modifies g
    ensures g.parts == old(g.parts) + [BodyPart(c)]
  {
    g.Add(BodyPart(c));
  }

  method AddRoof(g: Group, c: Config)
    requires Complete(c)
    modifies g
    ensures g.parts == old(g.parts) + [RoofPart(c)]
  {
    g.Add(RoofPart(c));
  }

  method AddDischargeHopper(g: Group, c: Config)
    requires Complete(c)
    modifies g
    ensures g.parts == old(g.parts) + [HopperPart(c)]
  {
    g.Add(HopperPart(c));
  }

  /** Two rails, then `for (i = 0; i < rungCount; i++)`. */
  method AddAccessLadder(g: Group, c: Config)
    requires Complete(c)
    modifies g
    ensures g.parts == old(g.parts) + LadderParts(c)
  {
    g.Add(RailPart(c, 0.0));
    g.Add(RailPart(c, 0.4));
    ghost var rails := g.parts;
    var n := LoopCount(c[RungCount]);
    var i := 0;
    while (i as real) < c[RungCount]
      invariant 0 <= i <= n
      invariant g.parts == rails + Rungs(c)[..i]
      decreases n - i
    {
      assert Rungs(c)[..i + 1] == Rungs(c)[..i] + [RungPart(c, i)];
      g.Add(RungPart(c, i));
      i := i + 1;
    }
    assert Rungs(c)[..i] == Rungs(c);
  }

  /** TulhaGeometry.create. */
  method Create(over: Config) returns (g: Group)
    ensures fresh(g)
    ensures g.parts == TulhaParts(Final(over))
  {
    var c := Final(over);
    g := new Group();
    AddSupportLegs(g, c);
    AddCrossBracing(g, c);
    AddPlatform(g, c);
    assert g.parts == Legs(c) + Bracing(c, 3) + [PlatformPart(c)];
    AddBody(g, c);
    AddRoof(g, c);
    AddDischargeHopper(g, c);
    AddAccessLadder(g, c);
  }

  /** The overrides of createSimplified, laid over the caller's. */
  function SimplifiedConfig(over: Config): (s: Config)
    ensures Complete(s)
    ensures s[BodySegments] == 16.0 && s[RungCount] == 8.0
    ensures forall f :: f != BodySegments && f != RungCount ==> s[f] == Final(over)[f]
  {
    Spread(Final(over), map[BodySegments := 16.0, RungCount := 8.0])
  }

  /** TulhaGeometry.createSimplified: legs, platform, body and roof only. */
  method CreateSimplified(over: Config) returns (g: Group)
    ensures fresh(g)
    ensures g.parts == SimplifiedParts(SimplifiedConfig(over))
  {
    var c := SimplifiedConfig(over);
    g := new Group();
    AddSupportLegs(g, c);
    AddPlatform(g, c);
    assert g.parts == Legs(c) + [PlatformPart(c)];
    AddBody(g, c);
    AddRoof(g, c);
  }

  /** TulhaGeometry.createSupportOnly: legs, bracing and platform. */
  method CreateSupportOnly(over: Config) returns (g: Group)
    ensures fresh(g)
    ensures g.parts == SupportParts(Final(over))
  {
    var c := Final(over);
    g := new Group();
    AddSupportLegs(g, c);
    AddCrossBracing(g, c);
    AddPlatform(g, c);
  }

  // ---------------------------------------------------------------------
  // Properties

  /** Every level holds four braces, but only two placements: two at
      (0, h, 3) across the front and two at (3, h, 0) down the side. */
  lemma LevelPlacements(c: Config, h: real)
    requires Complete(c)
    ensures var zb := Part(Brace, BraceShape(c), Vec3(0.0, h, 3.0), Vec3(0.0, 0.0, 0.5), c[BraceColor]);
            var xb := Part(Brace, BraceShape(c), Vec3(3.0, h, 0.0), Vec3(0.5, 0.0, 0.0), c[BraceColor]);
            LevelBraces(c, h, 4) == [zb, xb, zb, xb]
  {
    var zb := Part(Brace, BraceShape(c), Vec3(0.0, h, 3.0), Vec3(0.0, 0.0, 0.5), c[BraceColor]);
    var xb := Part(Brace, BraceShape(c), Vec3(3.0, h, 0.0), Vec3(0.5, 0.0, 0.0), c[BraceColor]);
    assert BracesAt(c, h, 0) == [zb, xb];
    assert BracesAt(c, h, 1) == [zb];
    assert BracesAt(c, h, 2) == [xb];
    assert BracesAt(c, h, 3) == [];
    assert LevelBraces(c, h, 1) == [zb, xb];
    assert LevelBraces(c, h, 2) == [zb, xb, zb];
    assert LevelBraces(c, h, 3) == [zb, xb, zb, xb];
  }

  /** Twelve braces, four at each of the heights 2, 4 and 6. */
  lemma BracingLevels(c: Config)
    requires Complete(c)
    ensures |Bracing(c, 3)| == 12
    ensures forall i :: 0 <= i < 12 ==> Bracing(c, 3)[i].position.y == LevelHeight(i / 4)
    ensures LevelHeight(0) == 2.0 && LevelHeight(1) == 4.0 && LevelHeight(2) == 6.0
  {
    var l0 := LevelBraces(c, LevelHeight(0), 4);
    var l1 := LevelBraces(c, LevelHeight(1), 4);
    var l2 := LevelBraces(c, LevelHeight(2), 4);
    LevelPlacements(c, LevelHeight(0));
    LevelPlacements(c, LevelHeight(1));
    LevelPlacements(c, LevelHeight(2));
    assert Bracing(c, 1) == l0;
    assert Bracing(c, 2) == l0 + l1;
    var b := Bracing(c, 3);
    assert b == l0 + l1 + l2;
    forall i | 0 <= i < 12
      ensures b[i].position.y == LevelHeight(i / 4)
    {
      if i < 4 {
        assert b[i] == l0[i];
      } else if i < 8 {
        assert b[i] == l1[i - 4];
      } else {
        assert b[i] == l2[i - 8];
      }
    }
  }

  /** The four legs stand at (±3, ±3), centred half-way up their height. */
  lemma LegLayout(c: Config)
    requires Complete(c)
    ensures forall i :: 0 <= i < 4 ==>
      var p := Legs(c)[i].position;
      (p.x == 3.0 || p.x == -3.0) && (p.z == 3.0 || p.z == -3.0) && p.y == c[LegHeight] / 2.0
    ensures forall i, j :: 0 <= i < j < 4 ==> Legs(c)[i].position != Legs(c)[j].position
  {
  }

  /** The legSpacing field is never read: no part depends on it. */
  lemma LegSpacingUnused(c: Config, v: real)
    requires Complete(c)
    ensures TulhaParts(c[LegSpacing := v]) == TulhaParts(c)
  {
    var d := c[LegSpacing := v];
    assert Legs(d) == Legs(c);
    assert BraceShape(d) == BraceShape(c);
    assert forall h, n :: 0 <= n <= 4 ==> LevelBraces(d, h, n) == LevelBraces(c, h, n) by {
      forall h, n | 0 <= n <= 4 ensures LevelBraces(d, h, n) == LevelBraces(c, h, n) {
        LevelBracesSame(c, d, h, n);
      }
    }
    assert Bracing(d, 1) == Bracing(c, 1);
    assert Bracing(d, 2) == Bracing(c, 2);
    assert forall i :: 0 <= i < |Rungs(c)| ==> Rungs(d)[i] == RungPart(c, i) == Rungs(c)[i];
    assert Rungs(d) == Rungs(c);
  }

  lemma {:induction false} LevelBracesSame(c: Config, d: Config, h: real, n: nat)
    requires Complete(c) && Complete(d) && n <= 4
    requires BraceShape(d) == BraceShape(c) && d[BraceColor] == c[BraceColor]
    ensures LevelBraces(d, h, n) == LevelBraces(c, h, n)
  {
    if n > 0 {
      LevelBracesSame(c, d, h, n - 1);
    }
  }

  /** Stacking: the platform rests on the legs, the body on the platform and
      the roof on the body; the legs reach the ground. */
  lemma TulhaStacking(c: Config)
    requires Complete(c)
    ensures Bottom(Legs(c)[0]) == 0.0 && Top(Legs(c)[0]) == c[LegHeight]
    ensures Bottom(PlatformPart(c)) == c[LegHeight]
    ensures Bottom(BodyPart(c)) == Top(PlatformPart(c))
    ensures Bottom(RoofPart(c)) == Top(BodyPart(c))
  {
  }

  /** Rung i sits at 0.5 + i * rungSpacing, in front of the body. */
  lemma RungPositions(c: Config, i: nat)
    requires Complete(c) && i < LoopCount(c[RungCount])
    ensures LadderParts(c)[2 + i].position == Vec3(0.2, 0.5 + (i as real) * c[RungSpacing], c[BodyRadius] + c[LadderOffset])
  {
    assert LadderParts(c)[2 + i] == Rungs(c)[i];
  }

  /** create yields 22 + rungCount parts, createSimplified 7 with 16 body
      segments whatever the caller passes, createSupportOnly 17. */
  lemma TulhaCounts(c: Config, over: Config)
    requires Complete(c)
    ensures |TulhaParts(c)| == 22 + LoopCount(c[RungCount])
    ensures |SimplifiedParts(SimplifiedConfig(over))| == 7
    ensures BodyPart(SimplifiedConfig(over)).shape.radialSegments == 16.0
    ensures RoofPart(SimplifiedConfig(over)).shape.radialSegments == 16.0
    ensures |SupportParts(c)| == 17
  {
    BracingLevels(c);
  }
}
