/** The bucket elevator builder: a tower on a concrete base with the motor
    housing on top, a pulley at each end, the belt with its buckets,
    platforms, a ladder with rungs, side braces, an inspection window, the
    discharge chute and the feed hopper. */
module ElevadorGeometry {
  import opened Common
  import opened GeometryParts

  datatype Field =
    | TowerWidth | TowerDepth | TowerHeight | BaseSize | BaseHeight | MotorWidth | MotorHeight | MotorDepth
    | PulleyRadius | PulleyHeight | BeltWidth | BeltThickness | BucketWidth | BucketHeight | BucketDepth
    | BucketSpacing | PlatformWidth | PlatformHeight | PlatformDepth | LadderWidth | LadderDepth
    | BraceRadius | BraceLength | WindowWidth | WindowHeight | ChuteWidth | ChuteHeight | ChuteDepth
    | HopperRadius | HopperHeight
    | TowerColor | BaseColor | MotorColor | PulleyColor | BeltColor | BucketColor | PlatformColor
    | LadderColor | BraceColor | WindowColor | ChuteColor | HopperColor

  type Config = map<Field, real>

  /** DEFAULT_CONFIG. */
  function Default(f: Field): real {
    match f
    case TowerWidth => 1.5
    case TowerDepth => 1.2
    case TowerHeight => 20.0
    case BaseSize => 3.0
    case BaseHeight => 1.0
    case MotorWidth => 2.0
    case MotorHeight => 1.5
    case MotorDepth => 1.8
    case PulleyRadius => 0.4
    case PulleyHeight => 0.3
    case BeltWidth => 0.15
    case BeltThickness => 0.05
    case BucketWidth => 0.25
    case BucketHeight => 0.2
    case BucketDepth => 0.2
    case BucketSpacing => 0.8
    case PlatformWidth => 2.5
    case PlatformHeight => 0.1
    case PlatformDepth => 1.5
    case LadderWidth => 0.1
    case LadderDepth => 0.3
    case BraceRadius => 0.08
    case BraceLength => 3.0
    case WindowWidth => 0.6
    case WindowHeight => 0.8
    case ChuteWidth => 1.0
    case ChuteHeight => 0.5
    case ChuteDepth => 1.5
    case HopperRadius => 0.8
    case HopperHeight => 1.2
    case TowerColor => 0x888888 as real
    case BaseColor => 0x606060 as real
    case MotorColor => 0x444444 as real
    case PulleyColor => 0x333333 as real
    case BeltColor => 0x222222 as real
    case BucketColor => 0x666666 as real
    case PlatformColor => 0x777777 as real
    case LadderColor => 0x444444 as real
    case BraceColor => 0x555555 as real
    case WindowColor => 0x87CEEB as real
    case ChuteColor => 0x666666 as real
    case HopperColor => 0x777777 as real
  }
  /** The rung colour, fixed in the builder rather than configured. */
  const RungColor: real := 0x333333 as real

  predicate Complete(c: Config) {
    forall f: Field :: f in c
  }

  /** DEFAULT_CONFIG as a record holding every field. */
  const DefaultConfig: Config := map f: Field | true :: Default(f)

  /** `{ ...DEFAULT_CONFIG, ...config }`. */
  function Final(over: Config): (c: Config)
    ensures Complete(c)
    ensures forall f :: f in over ==> c[f] == over[f]
    ensures forall f :: f !in over ==> c[f] == Default(f)
  {
    Spread(DefaultConfig, over)
  }

  /** The bucket loop ends: with a zero spacing and a positive height the
      bound is Infinity and the loop never stops. */
  predicate BucketLoopEnds(c: Config)
    requires Complete(c)
  {
    c[BucketSpacing] != 0.0 || c[TowerHeight] <= 0.0
  }

  // ---------------------------------------------------------------------
  // The part lists each add* helper appends

  function TowerPart(c: Config): Part
    requires Complete(c)
  {
    Part(Tower, Box(c[TowerWidth], c[TowerHeight], c[TowerDepth]),
         Vec3(0.0, c[TowerHeight] / 2.0, 0.0), NoRotation, c[TowerColor])
  }

  function BasePart(c: Config): Part
    requires Complete(c)
  {
    Part(Base, Box(c[BaseSize], c[BaseHeight], c[BaseSize]),
         Vec3(0.0, c[BaseHeight] / 2.0, 0.0), NoRotation, c[BaseColor])
  }

  function MotorPart(c: Config): Part
    requires Complete(c)
  {
    Part(Motor, Box(c[MotorWidth], c[MotorHeight], c[MotorDepth]),
         Vec3(0.0, c[TowerHeight] + c[MotorHeight] / 2.0, 0.0), NoRotation, c[MotorColor])
  }

  function PulleyPart(c: Config, y: real): Part
    requires Complete(c)
  {
    Part(Pulley, Cylinder(c[PulleyRadius], c[PulleyRadius], c[PulleyHeight], 16.0),
         Vec3(0.0, y, 0.0), Vec3(0.5, 0.0, 0.0), c[PulleyColor])
  }

  /** The top pulley above the motor, the bottom one at 1.5. */
  function Pulleys(c: Config): seq<Part>
    requires Complete(c)
  {
    [PulleyPart(c, c[TowerHeight] + c[MotorHeight] + c[PulleyHeight]), PulleyPart(c, 1.5)]
  }

  function BeltPart(c: Config, x: real): Part
    requires Complete(c)
  {
    Part(Belt, Box(c[BeltWidth], c[TowerHeight] - 1.0, c[BeltThickness]),
         Vec3(x, c[TowerHeight] / 2.0 + 0.5, 0.0), NoRotation, c[BeltColor])
  }

  function Belts(c: Config): seq<Part>
    requires Complete(c)
  {
    [BeltPart(c, 0.3), BeltPart(c, -0.3)]
  }

  /** `Math.floor(towerHeight / bucketSpacing)` as a loop bound: NaN (0 / 0)
      and negative bounds run no iteration. */
  function BucketCount(c: Config): nat
    requires Complete(c)
  {
    if c[BucketSpacing] == 0.0 then 0
    else LoopCount((c[TowerHeight] / c[BucketSpacing]).Floor as real)
  }

  function BucketPart(c: Config, i: nat): Part
    requires Complete(c)
  {
    Part(Bucket, Box(c[BucketWidth], c[BucketHeight], c[BucketDepth]),
         Vec3(0.4, 2.0 + (i as real) * c[BucketSpacing], 0.0), NoRotation, c[BucketColor])
  }

  function Buckets(c: Config): (bs: seq<Part>)
    requires Complete(c)
    ensures |bs| == BucketCount(c)
  {
    seq(BucketCount(c), i requires 0 <= i => BucketPart(c, i))
  }

  function PlatformPart(c: Config, y: real): Part
    requires Complete(c)
  {
    Part(Platform, Box(c[PlatformWidth], c[PlatformHeight], c[PlatformDepth]),
         Vec3(1.5, y, 0.0), NoRotation, c[PlatformColor])
  }

  /** The middle platform, then the top one 2 below the tower's top. */
  function Platforms(c: Config): seq<Part>
    requires Complete(c)
  {
    [PlatformPart(c, c[TowerHeight] / 2.0), PlatformPart(c, c[TowerHeight] - 2.0)]
  }

  function LadderPart(c: Config): Part
    requires Complete(c)
  {
    Part(Ladder, Box(c[LadderWidth], c[TowerHeight] - 2.0, c[LadderDepth]),
         Vec3(2.2, (c[TowerHeight] - 2.0) / 2.0 + 1.0, 0.0), NoRotation, c[LadderColor])
  }

  /** `Math.floor((towerHeight - 2) / 0.5)` as a loop bound. */
  function RungCount(c: Config): nat
    requires Complete(c)
  {
    LoopCount(((c[TowerHeight] - 2.0) / 0.5).Floor as real)
  }

  function RungPart(i: nat): Part {
    Part(Rung, Cylinder(0.03, 0.03, 0.4, 8.0), Vec3(2.0, 1.5 + (i as real) * 0.5, 0.0), Vec3(0.0, 0.0, 0.5), RungColor)
  }

  function Rungs(c: Config): (rs: seq<Part>)
    requires Complete(c)
    ensures |rs| == RungCount(c)
  {
    seq(RungCount(c), i requires 0 <= i => RungPart(i))
  }

  function LadderParts(c: Config): seq<Part>
    requires Complete(c)
  {
    [LadderPart(c)] + Rungs(c)
  }

  function BracePart(c: Config, height: real, z: real): Part
    requires Complete(c)
  {
    Part(Brace, Cylinder(c[BraceRadius], c[BraceRadius], c[BraceLength], 8.0),
         Vec3(1.2, height, z), Vec3(0.0, 0.0, 1.0 / 6.0), c[BraceColor])
  }

  /** The braces of the first n levels, two per level at 3 + 4i. */
  function Braces(c: Config, n: nat): (bs: seq<Part>)
    requires Complete(c)
    ensures |bs| == 2 * n
  {
    if n == 0 then []
    else Braces(c, n - 1) + [BracePart(c, 3.0 + ((n - 1) as real) * 4.0, 0.8),
                             BracePart(c, 3.0 + ((n - 1) as real) * 4.0, -0.8)]
  }

  function WindowPart(c: Config): Part
    requires Complete(c)
  {
    Part(Window, Plane(c[WindowWidth], c[WindowHeight]),
         Vec3(0.0, c[TowerHeight] / 2.0, c[TowerDepth] / 2.0 + 0.01), NoRotation, c[WindowColor])
  }

  function ChutePart(c: Config): Part
    requires Complete(c)
  {
    Part(Chute, Box(c[ChuteWidth], c[ChuteHeight], c[ChuteDepth]), Vec3(1.5, 1.25, 0.0), NoRotation, c[ChuteColor])
  }

  function HopperPart(c: Config): Part
    requires Complete(c)
  {
    Part(Hopper, Cone(c[HopperRadius], c[HopperHeight], 8.0), Vec3(-1.5, 1.6, 0.0), Vec3(1.0, 0.0, 0.0), c[HopperColor])
  }

  /** The parts of the first five add* helpers: tower, base, motor, pulleys, belts. */
  function DriveParts(c: Config): seq<Part>
    requires Complete(c)
  {
    [TowerPart(c)] + [BasePart(c)] + [MotorPart(c)] + Pulleys(c) + Belts(c)
  }

  /** The parts of the last three: window, chute, hopper. */
  function FittingParts(c: Config): seq<Part>
    requires Complete(c)
  {
    [WindowPart(c)] + [ChutePart(c)] + [HopperPart(c)]
  }

  /** Everything create adds, in its order. */
  function ElevadorParts(c: Config): seq<Part>
    requires Complete(c)
  {
    DriveParts(c) + Buckets(c) + Platforms(c) + LadderParts(c) + Braces(c, 4) + FittingParts(c)
  }

  function SimplifiedParts(c: Config): seq<Part>
    requires Complete(c)
  {
    [TowerPart(c)] + [BasePart(c)] + [MotorPart(c)] + Belts(c)
  }

  // ---------------------------------------------------------------------
  // The builders

  method AddTowerStructure(g: Group, c: Config)
    requires Complete(c)
    modifies g
    ensures g.parts == old(g.parts) + [TowerPart(c)]
  {
    g.Add(TowerPart(c));
  }

  method AddBase(g: Group, c: Config)
    requires Complete(c)
    modifies g
    ensures g.parts == old(g.parts) + [BasePart(c)]
  {
    g.Add(BasePart(c));
  }

  method AddMotorHousing(g: Group, c: Config)
    requires Complete(c)
    modifies g
    ensures g.parts == old(g.parts) + [MotorPart(c)]
  {
    g.Add(MotorPart(c));
  }

  method AddPulleys(g: Group, c: Config)
    requires Complete(c)
    modifies g
    ensures g.parts == old(g.parts) + Pulleys(c)
  {
    g.Add(PulleyPart(c, c[TowerHeight] + c[MotorHeight] + c[PulleyHeight]));
    g.Add(PulleyPart(c, 1.5));
  }

  method AddBeltSystem(g: Group, c: Config)
    requires Complete(c)
    modifies g
    ensures g.parts == old(g.parts) + Belts(c)
  {
    g.Add(BeltPart(c, 0.3));
    g.Add(BeltPart(c, -0.3));
  }

  /** `for (i = 0; i < bucketCount; i++)`. */
  method AddBuckets(g: Group, c: Config)
    requires Complete(c) && BucketLoopEnds(c)
    modifies g
    ensures g.parts == old(g.parts) + Buckets(c)
  {
    var n := BucketCount(c);
    var i := 0;
    while i < n
      invariant 0 <= i <= n
      invariant g.parts == old(g.parts) + Buckets(c)[..i]
    {
      assert Buckets(c)[..i + 1] == Buckets(c)[..i] + [BucketPart(c, i)];
      g.Add(BucketPart(c, i));
      i := i + 1;
    }
    assert Buckets(c)[..i] == Buckets(c);
  }

  method AddPlatforms(g: Group, c: Config)
    requires Complete(c)
    modifies g
    ensures g.parts == old(g.parts) + Platforms(c)
  {
    g.Add(PlatformPart(c, c[TowerHeight] / 2.0));
    g.Add(PlatformPart(c, c[TowerHeight] - 2.0));
  }

  /** The ladder, then `for (i = 0; i < rungCount; i++)`. */
  method AddAccessLadder(g: Group, c: Config)
    requires Complete(c)
    modifies g
    ensures g.parts == old(g.parts) + LadderParts(c)
  {
    g.Add(LadderPart(c));
    ghost var ladder := g.parts;
    var n := RungCount(c);
    var i := 0;
    while i < n
      invariant 0 <= i <= n
      invariant g.parts == ladder + Rungs(c)[..i]
    {
      assert Rungs(c)[..i + 1] == Rungs(c)[..i] + [RungPart(i)];
      g.Add(RungPart(i));
      i := i + 1;
    }
    assert Rungs(c)[..i] == Rungs(c);
  }

  /** `for (i = 0; i < 4; i++)`, two braces at 3 + 4i each time. */
  method AddSupportBraces(g: Group, c: Config)
    requires Complete(c)
    modifies g
    ensures g.parts == old(g.parts) + Braces(c, 4)
  {
    var i := 0;
    while i < 4
      invariant 0 <= i <= 4
      invariant g.parts == old(g.parts) + Braces(c, i)
    {
      var height := 3.0 + (i as real) * 4.0;
      g.Add(BracePart(c, height, 0.8));
      g.Add(BracePart(c, height, -0.8));
      i := i + 1;
    }
  }

  method AddInspectionWindows(g: Group, c: Config)
    requires Complete(c)
    modifies g
    ensures g.parts == old(g.parts) + [WindowPart(c)]
  {
    g.Add(WindowPart(c));
  }

  method AddDischargeChute(g: Group, c: Config)
    requires Complete(c)
    modifies g
    ensures g.parts == old(g.parts) + [ChutePart(c)]
  {
    g.Add(ChutePart(c));
  }

  method AddFeedHopper(g: Group, c: Config)
    requires Complete(c)
    modifies g
    ensures g.parts == old(g.parts) + [HopperPart(c)]
  {
    g.Add(HopperPart(c));
  }

  /** ElevadorGeometry.create. */
  method Create(over: Config) returns (g: Group)
    requires BucketLoopEnds(Final(over))
    ensures fresh(g)
    ensures g.parts == ElevadorParts(Final(over))
  {
    g := Assemble(Final(over));
  }

  /** The twelve add* calls of create, on the merged configuration. */
  method Assemble(c: Config) returns (g: Group)
    requires Complete(c) && BucketLoopEnds(c)
    ensures fresh(g)
    ensures g.parts == ElevadorParts(c)
  {
    g := new Group();
    AddDrive(g, c);
    AddCarriage(g, c);
    AddFittings(g, c);
  }

  /** The first five calls of create: tower, base, motor, pulleys, belts. */
  method AddDrive(g: Group, c: Config)
    requires Complete(c)
    modifies g
    ensures g.parts == old(g.parts) + DriveParts(c)
  {
    ghost var before := g.parts;
    AddTowerStructure(g, c);
    AddBase(g, c);
    AddMotorHousing(g, c);
    assert g.parts == before + [TowerPart(c)] + [BasePart(c)] + [MotorPart(c)];
    AddPulleys(g, c);
    AddBeltSystem(g, c);
  }

  /** The next four: buckets, platforms, ladder, braces. */
  method AddCarriage(g: Group, c: Config)
    requires Complete(c) && BucketLoopEnds(c)
    modifies g
    ensures g.parts == old(g.parts) + Buckets(c) + Platforms(c) + LadderParts(c) + Braces(c, 4)
  {
    ghost var before := g.parts;
    AddBuckets(g, c);
    AddPlatforms(g, c);
    assert g.parts == before + Buckets(c) + Platforms(c);
    AddAccessLadder(g, c);
    AddSupportBraces(g, c);
  }

  /** The last three: window, chute, hopper. */
  method AddFittings(g: Group, c: Config)
    requires Complete(c)
    modifies g
    ensures g.parts == old(g.parts) + FittingParts(c)
  {
    AddInspectionWindows(g, c);
    AddDischargeChute(g, c);
    AddFeedHopper(g, c);
  }

  /** ElevadorGeometry.createSimplified: tower, base, motor and belts only. */
  method CreateSimplified(over: Config) returns (g: Group)
    ensures fresh(g)
    ensures g.parts == SimplifiedParts(Final(over))
  {
    var c := Final(over);
    g := new Group();
    AddTowerStructure(g, c);
    AddBase(g, c);
    AddMotorHousing(g, c);
    AddBeltSystem(g, c);
  }

  // ---------------------------------------------------------------------
  // Properties

  /** create yields 21 parts plus the buckets and the rungs; the
      simplified elevator has 5. */
  lemma ElevadorCounts(c: Config)
    requires Complete(c)
    ensures |ElevadorParts(c)| == 21 + BucketCount(c) + RungCount(c)
    ensures |SimplifiedParts(c)| == 5
    ensures SimplifiedParts(c) == [TowerPart(c), BasePart(c), MotorPart(c), BeltPart(c, 0.3), BeltPart(c, -0.3)]
  {
  }

  /** With the default height 20 and spacing 0.8: 25 buckets, 36 rungs,
      82 parts. */
  lemma DefaultCounts(c: Config)
    requires Complete(c) && c[TowerHeight] == Default(TowerHeight) && c[BucketSpacing] == Default(BucketSpacing)
    ensures BucketCount(c) == 25 && RungCount(c) == 36
    ensures |ElevadorParts(c)| == 82
  {
    assert c[TowerHeight] == 20.0 && c[BucketSpacing] == 0.8;
    assert (20.0 / 0.8).Floor == 25;
    assert ((20.0 - 2.0) / 0.5).Floor == 36;
    ElevadorCounts(c);
  }

  /** The defaults themselves meet that: create() with no argument. */
  lemma NoOverridesAreDefaults()
    ensures Final(map[])[TowerHeight] == Default(TowerHeight)
    ensures Final(map[])[BucketSpacing] == Default(BucketSpacing)
    ensures BucketLoopEnds(Final(map[]))
  {
    assert Default(BucketSpacing) == 0.8;
  }

  /** Bucket i hangs on the front belt at 2 + i * bucketSpacing; rung i is
      at 1.5 + 0.5 i on the ladder. */
  lemma LoopPositions(c: Config, i: nat)
    requires Complete(c)
    ensures i < BucketCount(c) ==> Buckets(c)[i].position == Vec3(0.4, 2.0 + (i as real) * c[BucketSpacing], 0.0)
    ensures i < RungCount(c) ==> LadderParts(c)[1 + i].position == Vec3(2.0, 1.5 + (i as real) * 0.5, 0.0)
  {
    if i < RungCount(c) {
      assert LadderParts(c)[1 + i] == Rungs(c)[i];
    }
  }

  /** The bucket count is the floor of height over spacing. */
  lemma BucketCountIsFloor(c: Config)
    requires Complete(c) && c[BucketSpacing] != 0.0
    ensures BucketCount(c) == MaxInt(0, (c[TowerHeight] / c[BucketSpacing]).Floor)
  {
  }

  /** Stacking: the tower spans [0, towerHeight], the motor sits on it and
      the top pulley is at towerHeight + motorHeight + pulleyHeight. */
  lemma ElevadorStacking(c: Config)
    requires Complete(c)
    ensures Bottom(TowerPart(c)) == 0.0 && Top(TowerPart(c)) == c[TowerHeight]
    ensures Bottom(MotorPart(c)) == Top(TowerPart(c))
    ensures Pulleys(c)[0].position.y == c[TowerHeight] + c[MotorHeight] + c[PulleyHeight]
    ensures Bottom(BasePart(c)) == 0.0
  {
  }

  /** Eight braces, a pair at each of the heights 3, 7, 11 and 15, at
      z = 0.8 and z = -0.8. */
  lemma BraceLayout(c: Config)
    requires Complete(c)
    ensures var bs := Braces(c, 4);
      && |bs| == 8
      && forall i :: 0 <= i < 8 ==>
           bs[i].position == Vec3(1.2, 3.0 + ((i / 2) as real) * 4.0, if i % 2 == 0 then 0.8 else -0.8)
  {
    BracesPrefix(c, 4);
  }

  lemma {:induction false} BracesPrefix(c: Config, n: nat)
    requires Complete(c)
    ensures forall i :: 0 <= i < 2 * n ==>
      Braces(c, n)[i].position == Vec3(1.2, 3.0 + ((i / 2) as real) * 4.0, if i % 2 == 0 then 0.8 else -0.8)
  {
    if n > 0 {
      BracesPrefix(c, n - 1);
      var bs := Braces(c, n);
      assert forall i :: 0 <= i < 2 * (n - 1) ==> bs[i] == Braces(c, n - 1)[i];
      assert (2 * n - 2) / 2 == n - 1 && (2 * n - 1) / 2 == n - 1;
      assert (2 * n - 2) % 2 == 0 && (2 * n - 1) % 2 == 1;
    }
  }
}
