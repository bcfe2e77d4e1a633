/** The scene helpers of `SceneUtils`: the element-size fallback chain with
    its floors, the preset/custom configuration merge and the values the
    scene, camera and renderer constructors read from it, the resize guard,
    and the render-mode switch that walks an object tree and rewrites every
    Phong material of every mesh in place. three.js objects are reduced to
    the fields these helpers read or write. */
module SceneUtils {
  import opened Common

  // ---------------------------------------------------------------------
  // Element dimensions

  datatype Size = Size(width: real, height: real)

  /** The three size sources JavaScript consults, in order. */
  datatype ElementSizes = ElementSizes(rect: Size, client: Size, offset: Size)

  /** `a || b || c || fallback` on numbers: the first non-zero one. */
  function FirstNonZero(a: real, b: real, c: real, fallback: real): real {
    if a != 0.0 then a else if b != 0.0 then b else if c != 0.0 then c else fallback
  }

  const MinWidth: real := 300.0
  const MinHeight: real := 200.0

  /** getValidDimensions: each side is the first non-zero of the bounding
      rectangle, client and offset sizes (else 800 by 600), floored at
      300 by 200. */
  function ValidDimensions(e: ElementSizes): (d: Size)
    ensures d.width >= MinWidth && d.height >= MinHeight
    ensures d.width > 0.0 && d.height > 0.0
    ensures e.rect.width != 0.0 ==> d.width == Max(e.rect.width, MinWidth)
    ensures e.rect.width == 0.0 && e.client.width != 0.0 ==> d.width == Max(e.client.width, MinWidth)
    ensures e.rect.width == 0.0 && e.client.width == 0.0 && e.offset.width != 0.0 ==>
      d.width == Max(e.offset.width, MinWidth)
    ensures e.rect.width == 0.0 && e.client.width == 0.0 && e.offset.width == 0.0 ==> d.width == 800.0
    ensures e.rect.height != 0.0 ==> d.height == Max(e.rect.height, MinHeight)
    ensures e.rect.height == 0.0 && e.client.height != 0.0 ==> d.height == Max(e.client.height, MinHeight)
    ensures e.rect.height == 0.0 && e.client.height == 0.0 && e.offset.height != 0.0 ==>
      d.height == Max(e.offset.height, MinHeight)
    ensures e.rect.height == 0.0 && e.client.height == 0.0 && e.offset.height == 0.0 ==> d.height == 600.0
  {
    var width := FirstNonZero(e.rect.width, e.client.width, e.offset.width, 800.0);
    var height := FirstNonZero(e.rect.height, e.client.height, e.offset.height, 600.0);
    Size(Max(width, MinWidth), Max(height, MinHeight))
  }

  /** The only way to get both floors hit is a 300 by 200 answer: a result
      at most 300 wide and at most 200 high is exactly 300 by 200. */
  lemma SmallDimensionsAreTheFloor(e: ElementSizes)
    ensures ValidDimensions(e).width <= MinWidth && ValidDimensions(e).height <= MinHeight
      <==> ValidDimensions(e) == Size(MinWidth, MinHeight)
  {
  }

  // ---------------------------------------------------------------------
  // Configuration

  datatype Vec3 = Vec3(x: real, y: real, z: real)

  /** SceneConfig: every field optional; None is an absent key. */
  datatype SceneConfig = SceneConfig(
    backgroundColor: Option<int>,
    cameraPosition: Option<Vec3>,
    cameraLookAt: Option<Vec3>,
    fov: Option<real>,
    near: Option<real>,
    far: Option<real>,
    enableShadows: Option<bool>,
    shadowMapSize: Option<int>,
    pixelRatioLimit: Option<real>,
    gridSize: Option<real>,
    gridDivisions: Option<int>,
    gridColor1: Option<int>,
    gridColor2: Option<int>,
    axesSize: Option<real>,
    groundSize: Option<real>,
    groundOpacity: Option<real>)

  const EmptyConfig := SceneConfig(None, None, None, None, None, None, None, None,
                                   None, None, None, None, None, None, None, None)

  /** The value of a field after `{ ...base, ...over }`. */
  function Override<T>(base: Option<T>, over: Option<T>): (r: Option<T>)
    ensures over.Some? ==> r == over
    ensures over.None? ==> r == base
  {
    if over.Some? then over else base
  }

  /** `{ ...base, ...over }` field by field. */
  function Merge(base: SceneConfig, over: SceneConfig): (c: SceneConfig)
  {
    SceneConfig(
      Override(base.backgroundColor, over.backgroundColor),
      Override(base.cameraPosition, over.cameraPosition),
      Override(base.cameraLookAt, over.cameraLookAt),
      Override(base.fov, over.fov),
      Override(base.near, over.near),
      Override(base.far, over.far),
      Override(base.enableShadows, over.enableShadows),
      Override(base.shadowMapSize, over.shadowMapSize),
      Override(base.pixelRatioLimit, over.pixelRatioLimit),
      Override(base.gridSize, over.gridSize),
      Override(base.gridDivisions, over.gridDivisions),
      Override(base.gridColor1, over.gridColor1),
      Override(base.gridColor2, over.gridColor2),
      Override(base.axesSize, over.axesSize),
      Override(base.groundSize, over.groundSize),
      Override(base.groundOpacity, over.groundOpacity))
  }

  /** Custom fields win, unspecified fields keep the preset's value, an
      empty custom config changes nothing, and merging twice is merging
      the union. */
  lemma MergeLaws(p: SceneConfig, a: SceneConfig, b: SceneConfig)
    ensures Merge(p, EmptyConfig) == p
    ensures Merge(EmptyConfig, a) == a
    ensures Merge(Merge(p, a), b) == Merge(p, Merge(a, b))
    ensures Merge(Merge(p, a), a) == Merge(p, a)
    ensures a.fov.Some? ==> Merge(p, a).fov == a.fov
    ensures a.fov.None? ==> Merge(p, a).fov == p.fov
    ensures a.backgroundColor.Some? ==> Merge(p, a).backgroundColor == a.backgroundColor
    ensures a.backgroundColor.None? ==> Merge(p, a).backgroundColor == p.backgroundColor
  {
  }

  datatype PresetName = Industrial | Dark | Neutral

  function PresetFields(bg: int, pos: Vec3, look: Vec3, grid1: int, grid2: int): SceneConfig {
    EmptyConfig.(backgroundColor := Some(bg), cameraPosition := Some(pos), cameraLookAt := Some(look),
                 gridColor1 := Some(grid1), gridColor2 := Some(grid2))
  }

  /** SCENE_PRESETS. */
  function Preset(name: PresetName): (c: SceneConfig)
    ensures c.(backgroundColor := None, cameraPosition := None, cameraLookAt := None,
               gridColor1 := None, gridColor2 := None) == EmptyConfig
    ensures name == Industrial ==>
      && c.backgroundColor == Some(0x253831) && c.gridColor1 == Some(0x314d43) && c.gridColor2 == Some(0x253831)
      && c.cameraPosition == Some(Vec3(40.0, 25.0, 40.0)) && c.cameraLookAt == Some(Vec3(0.0, 10.0, 0.0))
    ensures name == Dark ==>
      && c.backgroundColor == Some(0x1e2a26) && c.gridColor1 == Some(0x314d43) && c.gridColor2 == Some(0x253831)
      && c.cameraPosition == Some(Vec3(40.0, 25.0, 40.0)) && c.cameraLookAt == Some(Vec3(0.0, 10.0, 0.0))
    ensures name == Neutral ==>
      && c.backgroundColor == Some(0x62736c) && c.gridColor1 == Some(0x4a7365) && c.gridColor2 == Some(0x314d43)
      && c.cameraPosition == Some(Vec3(30.0, 20.0, 30.0)) && c.cameraLookAt == Some(Vec3(0.0, 5.0, 0.0))
  {
    match name
    case Industrial => PresetFields(0x253831, Vec3(40.0, 25.0, 40.0), Vec3(0.0, 10.0, 0.0), 0x314d43, 0x253831)
    case Dark => PresetFields(0x1e2a26, Vec3(40.0, 25.0, 40.0), Vec3(0.0, 10.0, 0.0), 0x314d43, 0x253831)
    case Neutral => PresetFields(0x62736c, Vec3(30.0, 20.0, 30.0), Vec3(0.0, 5.0, 0.0), 0x4a7365, 0x314d43)
  }

  /** The camera createCamera builds. */
  datatype CameraSetup = CameraSetup(fov: real, aspect: real, near: real, far: real, position: Vec3, lookAt: Vec3)

  /** The renderer createRenderer builds. */
  datatype RendererSetup = RendererSetup(size: Size, pixelRatio: real, shadowsEnabled: bool)

  /** createCamera's defaults and its aspect ratio. */
  function CreateCamera(d: Size, c: SceneConfig): (cam: CameraSetup)
    requires d.height > 0.0
    ensures cam.aspect * d.height == d.width
    ensures c.fov.None? ==> cam.fov == 45.0
    ensures c.fov.Some? ==> cam.fov == c.fov.value
    ensures c.cameraPosition.None? ==> cam.position == Vec3(40.0, 25.0, 40.0)
    ensures c.cameraPosition.Some? ==> cam.position == c.cameraPosition.value
    ensures c.cameraLookAt.None? ==> cam.lookAt == Vec3(0.0, 10.0, 0.0)
    ensures c.cameraLookAt.Some? ==> cam.lookAt == c.cameraLookAt.value
    ensures c.near.None? ==> cam.near == 0.1
    ensures c.near.Some? ==> cam.near == c.near.value
    ensures c.far.None? ==> cam.far == 1000.0
    ensures c.far.Some? ==> cam.far == c.far.value
  {
    CameraSetup(c.fov.GetOr(45.0), d.width / d.height, c.near.GetOr(0.1), c.far.GetOr(1000.0),
                c.cameraPosition.GetOr(Vec3(40.0, 25.0, 40.0)), c.cameraLookAt.GetOr(Vec3(0.0, 10.0, 0.0)))
  }

  /** createRenderer: the size, the pixel ratio capped by pixelRatioLimit
      (default 2), shadows unless disabled. */
  function CreateRenderer(d: Size, c: SceneConfig, devicePixelRatio: real): (r: RendererSetup)
    ensures r.size == d
    ensures r.pixelRatio <= devicePixelRatio && r.pixelRatio <= c.pixelRatioLimit.GetOr(2.0)
    ensures r.pixelRatio == devicePixelRatio || r.pixelRatio == c.pixelRatioLimit.GetOr(2.0)
    ensures r.shadowsEnabled <==> c.enableShadows != Some(false)
  {
    RendererSetup(d, Min(devicePixelRatio, c.pixelRatioLimit.GetOr(2.0)), c.enableShadows.GetOr(true))
  }

  /** createScene's background, default 0x134e4a. */
  function SceneBackground(c: SceneConfig): int {
    c.backgroundColor.GetOr(0x134e4a)
  }

  datatype CompleteScene = CompleteScene(config: SceneConfig, background: int,
                                         camera: CameraSetup, renderer: RendererSetup)

  /** setupCompleteScene: merge the preset with the custom fields, size
      the camera and renderer from the element's valid dimensions. */
  function SetupCompleteScene(preset: PresetName, custom: SceneConfig, e: ElementSizes,
                              devicePixelRatio: real): (s: CompleteScene)
    ensures s.config == Merge(Preset(preset), custom)
    ensures s.camera == CreateCamera(ValidDimensions(e), s.config)
    ensures s.renderer == CreateRenderer(ValidDimensions(e), s.config, devicePixelRatio)
    ensures s.renderer.size == ValidDimensions(e)
    ensures s.camera.aspect * s.renderer.size.height == s.renderer.size.width
    ensures custom.backgroundColor.None? ==> s.background == Preset(preset).backgroundColor.value
    ensures custom.backgroundColor.Some? ==> s.background == custom.backgroundColor.value
  {
    var config := Merge(Preset(preset), custom);
    var d := ValidDimensions(e);
    CompleteScene(config, SceneBackground(config), CreateCamera(d, config),
                  CreateRenderer(d, config, devicePixelRatio))
  }

  // ---------------------------------------------------------------------
  // Resize

  class Camera {
    var aspect: real
    constructor (aspect0: real)
      ensures aspect == aspect0
    {
      aspect := aspect0;
    }
  }

  class Renderer {
    var size: Size
    constructor (size0: Size)
      ensures size == size0
    {
      size := size0;
    }
  }

  /** handleResize: the guard `width > 0 && height > 0` always holds for
      valid dimensions, so the aspect and size are always updated. */
  method HandleResize(renderer: Renderer, camera: Camera, e: ElementSizes)
    modifies renderer, camera
    ensures camera.aspect * renderer.size.height == renderer.size.width
    ensures renderer.size == ValidDimensions(e)
  {
    var d := ValidDimensions(e);
    if d.width > 0.0 && d.height > 0.0 {
      camera.aspect := d.width / d.height;
      renderer.size := d;
    }
  }

  // ---------------------------------------------------------------------
  // Render modes

  datatype RenderMode = Shaded | Wireframe | XRay

  /** The three fields the switch assigns, plus needsUpdate. */
  datatype MaterialFlags = MaterialFlags(wireframe: bool, transparent: bool, opacity: real, needsUpdate: bool)

  /** The switch of applyRenderMode: what a touched Phong material ends up
      with, whatever it held before. */
  function ModeFlags(mode: RenderMode): (f: MaterialFlags)
    ensures f.needsUpdate
    ensures f.wireframe <==> mode == Wireframe
    ensures f.transparent <==> mode == XRay
    ensures f.opacity == (if mode == XRay then 0.3 else 1.0)
  {
    match mode
    case Wireframe => MaterialFlags(true, false, 1.0, true)
    case XRay => MaterialFlags(false, true, 0.3, true)
    case Shaded => MaterialFlags(false, false, 1.0, true)
  }

  /** A material; `phong` is whether it is a MeshPhongMaterial. */
  class Material {
    const phong: bool
    var wireframe: bool
    var transparent: bool
    var opacity: real
    var needsUpdate: bool

    constructor (isPhong: bool, flags: MaterialFlags)
      ensures phong == isPhong && Flags() == flags
    {
      phong := isPhong;
      wireframe, transparent, opacity, needsUpdate := flags.wireframe, flags.transparent, flags.opacity, flags.needsUpdate;
    }

    function Flags(): MaterialFlags
      reads this
    {
      MaterialFlags(wireframe, transparent, opacity, needsUpdate)
    }
  }

  /** A node's material slot: none, one material, or an array of them. */
  datatype MaterialSlot = NoMaterial | Single(material: Material) | Multiple(materials: seq<Material>)

  /** An object of the scene graph: a mesh or another node, with its
      material slot and its children. */
  datatype Object3D = Object3D(isMesh: bool, slot: MaterialSlot, children: seq<Object3D>)

  function SlotMaterials(s: MaterialSlot): (ms: seq<Material>)
  {
    match s
    case NoMaterial => []
    case Single(m) => [m]
    case Multiple(ms) => ms
  }

  /** The materials applyRenderMode looks at on node o itself. */
  function Own(o: Object3D): set<Material>
  {
    if o.isMesh then set m | m in SlotMaterials(o.slot) else {}
  }

  /** The materials it looks at in the whole tree under o. */
  function Reached(o: Object3D): set<Material>
    decreases o, |o.children| + 1
  {
    Own(o) + ReachedBelow(o, |o.children|)
  }

  /** ... and in the first k subtrees of o. */
  function ReachedBelow(o: Object3D, k: nat): set<Material>
    requires k <= |o.children|
    decreases o, k
  {
    if k == 0 then {} else ReachedBelow(o, k - 1) + Reached(o.children[k - 1])
  }

  /** The materials the switch may write: only the Phong ones, so every
      other material, reached or not, is left as it was. */
  function PhongReached(o: Object3D): set<Material>
  {
    set m | m in Reached(o) && m.phong
  }

  lemma {:induction false} ReachedBelowGrows(o: Object3D, i: nat, k: nat)
    requires i < k <= |o.children|
    ensures Reached(o.children[i]) <= ReachedBelow(o, k)
    decreases k
  {
    if i < k - 1 {
      ReachedBelowGrows(o, i, k - 1);
    }
  }

  lemma {:induction false} ReachedAllocated(o: Object3D)
    ensures forall m :: m in Reached(o) ==> allocated(m)
    decreases o
  {
    forall i | 0 <= i < |o.children|
      ensures forall m :: m in Reached(o.children[i]) ==> allocated(m)
    {
      ReachedAllocated(o.children[i]);
    }
    forall m | m in Reached(o)
      ensures allocated(m)
    {
      if m !in Own(o) {
        var i := ReachedBelowWitness(o, |o.children|, m);
      }
    }
  }

  /** A material reached below the first k subtrees lies in one of them. */
  lemma {:induction false} ReachedBelowWitness(o: Object3D, k: nat, m: Material) returns (i: nat)
    requires k <= |o.children| && m in ReachedBelow(o, k)
    ensures i < k && m in Reached(o.children[i])
    decreases k
  {
    if m in Reached(o.children[k - 1]) {
      i := k - 1;
    } else {
      i := ReachedBelowWitness(o, k - 1, m);
    }
  }

  lemma {:induction false} ReachedBelowMonotone(o: Object3D, j: nat, k: nat)
    requires j <= k <= |o.children|
    ensures ReachedBelow(o, j) <= ReachedBelow(o, k)
    decreases k
  {
    if j < k {
      ReachedBelowMonotone(o, j, k - 1);
    }
  }

  lemma ChildReached(o: Object3D, i: nat)
    requires i < |o.children|
    ensures Reached(o.children[i]) <= Reached(o)
    ensures PhongReached(o.children[i]) <= PhongReached(o)
  {
    ReachedBelowGrows(o, i, |o.children|);
  }

  /** The materials loop of one mesh. */
  method ApplyToMaterials(ms: seq<Material>, mode: RenderMode)
    modifies set m | m in ms && m.phong
    ensures forall m :: m in ms && m.phong ==> m.Flags() == ModeFlags(mode)
  {
    var i := 0;
    while i < |ms|
      invariant 0 <= i <= |ms|
      invariant forall m :: m in ms[..i] && m.phong ==> m.Flags() == ModeFlags(mode)
    {
      var material := ms[i];
      if material.phong {
        match mode {
          case Wireframe =>
            material.wireframe := true;
            material.transparent := false;
            material.opacity := 1.0;
          case XRay =>
            material.wireframe := false;
            material.transparent := true;
            material.opacity := 0.3;
          case Shaded =>
            material.wireframe := false;
            material.transparent := false;
            material.opacity := 1.0;
        }
        material.needsUpdate := true;
      }
      assert ms[..i + 1] == ms[..i] + [ms[i]];
      i := i + 1;
    }
    assert ms[..|ms|] == ms;
  }

  /** applyRenderMode: visit o and then its subtrees; on every mesh with a
      material, every Phong material gets the mode's flags; nothing else
      in the tree changes. */
  method ApplyRenderMode(o: Object3D, mode: RenderMode)
    modifies PhongReached(o)
    ensures forall m :: m in Reached(o) && m.phong ==> m.Flags() == ModeFlags(mode)
    decreases o
  {
    if o.isMesh && !o.slot.NoMaterial? {
      ApplyToMaterials(SlotMaterials(o.slot), mode);
    }
    var i := 0;
    while i < |o.children|
      invariant 0 <= i <= |o.children|
      invariant forall m :: m in Own(o) + ReachedBelow(o, i) && m.phong ==> m.Flags() == ModeFlags(mode)
    {
      ChildReached(o, i);
      ReachedAllocated(o);
      ReachedBelowMonotone(o, i, |o.children|);
      label BeforeChild:
      ApplyRenderMode(o.children[i], mode);
      assert ReachedBelow(o, i + 1) == ReachedBelow(o, i) + Reached(o.children[i]);
      forall m | m in Own(o) + ReachedBelow(o, i) && m.phong && m !in Reached(o.children[i])
        ensures m.Flags() == ModeFlags(mode)
      {
        assert m.Flags() == old@BeforeChild(m.Flags());
      }
      i := i + 1;
    }
  }

  /** Switching modes twice leaves exactly the second mode: the earlier
      call leaves no trace on any reached Phong material. */
  method SwitchTwice(o: Object3D, first: RenderMode, second: RenderMode)
    modifies PhongReached(o)
    ensures forall m :: m in Reached(o) && m.phong ==> m.Flags() == ModeFlags(second)
  {
    ApplyRenderMode(o, first);
    ApplyRenderMode(o, second);
  }
}
