/** The orbit-camera control state of the `useMouseControls` hook: a mutable
    mouse record (pointer position, two target rotation angles, a mouse-down
    flag, the zoom distance) and two enable flags, updated in place by the
    pointer handlers, the zoom buttons, reset, the toggles and the per-frame
    auto-rotation step. The spherical camera placement that follows the
    auto-rotation step is not part of this model. */
module MouseControls {
  import opened Common

  /** The numeric and boolean options of the hook that its handlers read. */
  datatype ControlsConfig = ControlsConfig(
    initialZoom: real,
    minZoom: real,
    maxZoom: real,
    rotationSensitivity: real,
    maxVerticalRotation: real,
    autoRotationSpeed: real,
    enableAutoRotation: bool,
    enableRotation: bool)

  /** The hook's defaults; the vertical limit is the double nearest pi/3. */
  const DefaultConfig := ControlsConfig(40.0, 15.0, 80.0, 0.01, 1.0471975511965976, 0.0003, true, true)

  /** A configuration whose initial zoom lies in the zoom range and whose
      vertical limit is not negative. */
  predicate SaneConfig(c: ControlsConfig) {
    c.minZoom <= c.initialZoom <= c.maxZoom && 0.0 <= c.maxVerticalRotation
  }

  lemma DefaultConfigIsSane()
    ensures SaneConfig(DefaultConfig)
  {
  }

  class OrbitControls {
    const config: ControlsConfig

    // the mouse record, mutated in place by the handlers
    var x: real
    var y: real
    var targetRotationX: real
    var targetRotationY: real
    var mouseDown: bool
    var zoom: real

    // the enable flags, replaced by the toggles
    var rotationEnabled: bool
    var autoRotationEnabled: bool

    /** The invariant the clamping operations keep: zoom within
        [minZoom, maxZoom] and the vertical angle within +-maxVerticalRotation.
        The horizontal angle is never clamped. */
    predicate InBounds()
      reads this
    {
      && config.minZoom <= zoom <= config.maxZoom
      && -config.maxVerticalRotation <= targetRotationX <= config.maxVerticalRotation
    }

    constructor (c: ControlsConfig)
      ensures config == c
      ensures x == 0.0 && y == 0.0 && targetRotationX == 0.0 && targetRotationY == 0.0
      ensures !mouseDown && zoom == c.initialZoom
      ensures rotationEnabled == c.enableRotation && autoRotationEnabled == c.enableAutoRotation
      ensures SaneConfig(c) ==> InBounds()
    {
      config := c;
      x, y := 0.0, 0.0;
      targetRotationX, targetRotationY := 0.0, 0.0;
      mouseDown := false;
      zoom := c.initialZoom;
      rotationEnabled := c.enableRotation;
      autoRotationEnabled := c.enableAutoRotation;
    }

    /** handleMouseDown: press and remember the pointer. */
    method MouseDown(clientX: real, clientY: real)
      modifies this`mouseDown, this`x, this`y
      ensures mouseDown && x == clientX && y == clientY
    {
      mouseDown := true;
      x := clientX;
      y := clientY;
    }

    /** handleMouseUp: release; nothing else changes. */
    method MouseUp()
      modifies this`mouseDown
      ensures !mouseDown
    {
      mouseDown := false;
    }

    /** handleMouseMove: ignored unless the mouse is down and rotation is
        enabled; otherwise the pointer delta, scaled by the sensitivity, is
        added to the target angles, the vertical one is clamped, and the new
        pointer becomes the reference for the next delta. */
    method MouseMove(clientX: real, clientY: real)
      modifies this`targetRotationX, this`targetRotationY, this`x, this`y
      ensures !(old(mouseDown) && rotationEnabled) ==>
        && x == old(x) && y == old(y)
        && targetRotationX == old(targetRotationX) && targetRotationY == old(targetRotationY)
      ensures old(mouseDown) && rotationEnabled ==>
        && targetRotationY == old(targetRotationY) + (clientX - old(x)) * config.rotationSensitivity
        && targetRotationX == Clamp(-config.maxVerticalRotation, config.maxVerticalRotation,
                                    old(targetRotationX) + (clientY - old(y)) * config.rotationSensitivity)
        && x == clientX && y == clientY
      ensures old(InBounds()) ==> InBounds()
    {
      if !mouseDown || !rotationEnabled {
        return;
      }
      var deltaX := clientX - x;
      var deltaY := clientY - y;
      targetRotationY := targetRotationY + deltaX * config.rotationSensitivity;
      targetRotationX := targetRotationX + deltaY * config.rotationSensitivity;
      targetRotationX := Clamp(-config.maxVerticalRotation, config.maxVerticalRotation, targetRotationX);
      x := clientX;
      y := clientY;
    }

    /** The auto-rotation step at the start of updateCamera: advance the
        horizontal target angle while auto-rotation is on and the mouse is up. */
    method AutoRotationStep()
      modifies this`targetRotationY
      ensures autoRotationEnabled && !mouseDown ==>
        targetRotationY == old(targetRotationY) + config.autoRotationSpeed
      ensures !(autoRotationEnabled && !mouseDown) ==> targetRotationY == old(targetRotationY)
      ensures old(InBounds()) ==> InBounds()
    {
      if autoRotationEnabled && !mouseDown {
        targetRotationY := targetRotationY + config.autoRotationSpeed;
      }
    }

    /** resetControls: both angles to 0, zoom to the initial zoom, mouse up;
        the pointer position is kept. */
    method Reset()
      modifies this`targetRotationX, this`targetRotationY, this`zoom, this`mouseDown
      ensures targetRotationX == 0.0 && targetRotationY == 0.0
      ensures zoom == config.initialZoom && !mouseDown
      ensures SaneConfig(config) ==> InBounds()
    {
      targetRotationX := 0.0;
      targetRotationY := 0.0;
      zoom := config.initialZoom;
      mouseDown := false;
    }

    /** setZoom: store the argument clamped to the zoom range. */
    method SetZoom(z: real)
      modifies this`zoom
      ensures zoom == Clamp(config.minZoom, config.maxZoom, z)
      ensures config.minZoom <= config.maxZoom ==> config.minZoom <= zoom <= config.maxZoom
      ensures config.minZoom <= z <= config.maxZoom ==> zoom == z
      ensures old(InBounds()) ==> InBounds()
    {
      zoom := Clamp(config.minZoom, config.maxZoom, z);
    }

    /** setRotation: the vertical angle is clamped, the horizontal one is
        stored as given. */
    method SetRotation(rotationX: real, rotationY: real)
      modifies this`targetRotationX, this`targetRotationY
      ensures targetRotationX == Clamp(-config.maxVerticalRotation, config.maxVerticalRotation, rotationX)
      ensures targetRotationY == rotationY
      ensures old(InBounds()) ==> InBounds()
    {
      targetRotationX := Clamp(-config.maxVerticalRotation, config.maxVerticalRotation, rotationX);
      targetRotationY := rotationY;
    }

    /** zoomIn: five units closer, never below minZoom. */
    method ZoomIn()
      modifies this`zoom
      ensures zoom == Max(config.minZoom, old(zoom) - 5.0)
      ensures old(InBounds()) ==> InBounds()
    {
      zoom := Max(config.minZoom, zoom - 5.0);
    }

    /** zoomOut: five units farther, never above maxZoom. */
    method ZoomOut()
      modifies this`zoom
      ensures zoom == Min(config.maxZoom, old(zoom) + 5.0)
      ensures old(InBounds()) ==> InBounds()
    {
      zoom := Min(config.maxZoom, zoom + 5.0);
    }

    /** toggleRotation: set the flag to the argument, or negate it when the
        argument is absent; the auto-rotation flag is kept. */
    method ToggleRotation(enabled: Option<bool>)
      modifies this`rotationEnabled
      ensures enabled.Some? ==> rotationEnabled == enabled.value
      ensures enabled.None? ==> rotationEnabled == !old(rotationEnabled)
    {
      rotationEnabled := if enabled.Some? then enabled.value else !rotationEnabled;
    }

    /** toggleAutoRotation: the same rule for the auto-rotation flag. */
    method ToggleAutoRotation(enabled: Option<bool>)
      modifies this`autoRotationEnabled
      ensures enabled.Some? ==> autoRotationEnabled == enabled.value
      ensures enabled.None? ==> autoRotationEnabled == !old(autoRotationEnabled)
    {
      autoRotationEnabled := if enabled.Some? then enabled.value else !autoRotationEnabled;
    }
  }

  /** A client session: from a sane configuration, any run of drags, zoom
      steps and auto-rotation ticks keeps the bounds, while rotation toggled
      off makes a drag change nothing. */
  method ClampedSession(c: ControlsConfig, moves: seq<(real, real)>)
    requires SaneConfig(c)
  {
    var controls := new OrbitControls(c);
    controls.MouseDown(0.0, 0.0);
    var i := 0;
    while i < |moves|
      invariant 0 <= i <= |moves|
      invariant controls.config == c && controls.InBounds()
    {
      controls.MouseMove(moves[i].0, moves[i].1);
      controls.ZoomIn();
      controls.AutoRotationStep();
      controls.ZoomOut();
      i := i + 1;
    }
    assert controls.InBounds();
    controls.ToggleRotation(Some(false));
    var before := controls.targetRotationY;
    controls.MouseMove(100.0, 100.0);
    assert controls.targetRotationY == before;
  }
}
