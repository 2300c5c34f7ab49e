/**
 * The viewer's camera-mode state machine: the module-level state of the page script
 * (active mode, drag and movement flags, fly orientation, camera, orbit pivot, hotspot
 * elements) and the event handlers and frame callback that update it in place.
 */
module Viewer {
  import opened Wrappers
  import opened Geometry
  import opened FlyInput
  import opened Projection
  import opened Hotspots

  const OrbitMode: string := "orbit"
  const FlyMode: string := "fly"

  /** Fly speed in world units per second. */
  const FlySpeed: real := 15.0
  /** The lowest height a fly move may leave the camera at. */
  const MinFlyHeight: real := 0.5
  /** How far in front of the camera the orbit pivot is placed when leaving fly mode. */
  const PivotDistance: real := 10.0

  const OrbitHome: Vec3 := Vec3(12.0, 6.0, 12.0)
  const OrbitHomeTarget: Vec3 := Vec3(0.0, 2.5, 0.0)
  const FlyHome: Vec3 := Vec3(0.0, 2.0, 10.0)
  const Level: Euler := Euler(0.0, 0.0, 0.0)

  /** `Math.max` */
  function Max(a: real, b: real): real {
    if a > b then a else b
  }

  /**
   * The view handed to `orbit.update()` when the viewer leaves fly mode: the camera as it
   * is, and a pivot 10 units along its look direction.
   */
  function HandOffView(camera: Pose, lib: Library): (v: OrbitView)
    ensures v.camera == camera
    ensures Sub(v.target, camera.position) == Scale(LookDirection(camera.quaternion, lib), PivotDistance)
  {
    OrbitView(camera, Add(camera.position, Scale(LookDirection(camera.quaternion, lib), PivotDistance)))
  }

  /** The fly orientation seeded from the camera on entering fly mode: yaw and pitch kept, roll dropped. */
  function FlySeed(q: Quat, lib: Library): (e: Euler)
    ensures e.z == 0.0
    ensures e.x == lib.eulerFromQuaternion(q).x && e.y == lib.eulerFromQuaternion(q).y
    ensures Lawful(lib) ==> -HalfPi <= e.x <= HalfPi
  {
    lib.eulerFromQuaternion(q).(z := 0.0)
  }

  /**
   * The camera position after one fly frame of `dt` seconds: unchanged when the flags give
   * no direction, otherwise moved and kept at or above the minimum height.
   */
  function FlyStep(position: Vec3, q: Quat, ms: MoveState, dt: real, lib: Library): (p: Vec3)
    ensures Direction(ms) == Zero ==> p == position
    ensures Direction(ms) != Zero ==> p.y >= MinFlyHeight
  {
    var velocity := Direction(ms);
    AxisVectorLengthSq(velocity);
    if LengthSq(velocity) > 0.0 then
      var moved := Add(position, lib.applyQuaternion(Scale(lib.normalize(velocity), FlySpeed * dt), q));
      moved.(y := Max(MinFlyHeight, moved.y))
    else
      position
  }

  /**
   * Holding only the forward key for one second with the camera unrotated moves it 15 units
   * along -Z, given that the library normalises a unit axis to itself and the identity
   * rotation leaves a vector alone.
   */
  lemma FlyForwardOneSecond(position: Vec3, lib: Library)
    requires lib.normalize(Vec3(0.0, 0.0, -1.0)) == Vec3(0.0, 0.0, -1.0)
    requires lib.applyQuaternion(Vec3(0.0, 0.0, -15.0), Identity) == Vec3(0.0, 0.0, -15.0)
    requires position.y >= MinFlyHeight
    ensures FlyStep(position, Identity, Idle.(forward := true), 1.0, lib) == Add(position, Vec3(0.0, 0.0, -15.0))
  {
    assert Direction(Idle.(forward := true)) == Vec3(0.0, 0.0, -1.0);
  }

  /** Resetting in orbit mode: the home position and pivot, then `orbit.update()`. */
  function OrbitResetView(camera: Pose, lib: Library): OrbitView {
    lib.orbitUpdate(OrbitView(camera.(position := OrbitHome), OrbitHomeTarget))
  }

  /** Resetting in fly mode: the fly home position, level orientation. */
  function FlyResetPose(lib: Library): Pose {
    Pose(FlyHome, lib.quaternionFromEuler(Level))
  }

  /** The ASCII part of `String.prototype.toLowerCase`. */
  function LowerChar(c: char): char {
    if 'A' <= c <= 'Z' then (c as int + 32) as char else c
  }

  function LowerAscii(s: string): (r: string)
    ensures |r| == |s|
    ensures forall i :: 0 <= i < |s| ==> r[i] == LowerChar(s[i])
  {
    if s == [] then [] else [LowerChar(s[0])] + LowerAscii(s[1..])
  }

  /** The reset hotkey answers to both cases of its letter, the mode hotkeys to their digit only. */
  lemma HotkeyMatches(key: string)
    ensures LowerAscii(key) == "r" <==> key == "r" || key == "R"
    ensures LowerAscii(key) == "1" <==> key == "1"
    ensures LowerAscii(key) == "2" <==> key == "2"
  {
  }

  function IdsOf(hs: seq<Hotspot>): set<string> {
    set h | h in hs :: h.id
  }

  class Viewer {
    /** The Three.js operations the page calls. */
    const lib: Library
    /** The hotspot definitions. */
    const hotspots: seq<Hotspot>

    var activeControls: string
    /** `orbit.enabled` */
    var orbitEnabled: bool
    var isFlying: bool
    var isDragging: bool
    var moveState: MoveState
    var flyEuler: Euler
    var camera: Pose
    /** `orbit.target`, the orbit pivot */
    var target: Vec3
    /** `modelRoot.matrixWorld`, None while `modelRoot` is null */
    var modelMatrix: Option<Vec3 -> Vec3>
    /** The style of each hotspot element, keyed by hotspot id (`hotspotElems`) */
    var hotspotStyles: map<string, Style>

    /**
     * The mode flags agree with `activeControls`, the fly orientation never rolls and its
     * pitch stays in [-pi/2, pi/2].
     */
    ghost predicate Valid()
      reads this
    {
      && Lawful(lib)
      && orbitEnabled == (activeControls == OrbitMode)
      && isFlying == (activeControls == FlyMode)
      && flyEuler.z == 0.0
      && -HalfPi <= flyEuler.x <= HalfPi
    }

    /**
     * The page script's start-up: orbit pose at home and `orbit.update()`, then the hotspot
     * elements are built and orbit mode is activated (which re-targets the pivot).
     */
    constructor (lib: Library)
      requires Lawful(lib)
      ensures Valid()
      ensures this.lib == lib && hotspots == ViewerHotspots()
      ensures activeControls == OrbitMode && !isDragging && moveState == Idle && flyEuler == Level
      ensures modelMatrix.None?
      ensures hotspotStyles.Keys == IdsOf(hotspots)
      ensures forall id :: id in hotspotStyles ==> hotspotStyles[id] == NewStyle
      ensures var first := lib.orbitUpdate(OrbitView(Pose(OrbitHome, Identity), OrbitHomeTarget));
        OrbitView(camera, target) == lib.orbitUpdate(HandOffView(first.camera, lib))
    {
      this.lib := lib;
      hotspots := ViewerHotspots();
      orbitEnabled := true;
      target := OrbitHomeTarget;
      camera := Pose(OrbitHome, Identity);
      isFlying := false;
      isDragging := false;
      flyEuler := Level;
      moveState := Idle;
      activeControls := OrbitMode;
      modelMatrix := None;
      hotspotStyles := map[];
      new;
      UpdateOrbit();
      RebuildHotspots();
      SetActiveControls(OrbitMode);
    }

    /** `orbit.update()` */
    method UpdateOrbit()
      modifies this`camera, this`target
      ensures OrbitView(camera, target) == lib.orbitUpdate(OrbitView(old(camera), old(target)))
    {
      var v := lib.orbitUpdate(OrbitView(camera, target));
      camera, target := v.camera, v.target;
    }

    /** `rebuildHotspots`: one fresh element per hotspot, keyed by id. */
    method RebuildHotspots()
      modifies this`hotspotStyles
      ensures hotspotStyles.Keys == IdsOf(hotspots)
      ensures forall id :: id in hotspotStyles ==> hotspotStyles[id] == NewStyle
    {
      hotspotStyles := map[];
      for i := 0 to |hotspots|
        invariant hotspotStyles.Keys == IdsOf(hotspots[..i])
        invariant forall id :: id in hotspotStyles ==> hotspotStyles[id] == NewStyle
      {
        assert hotspots[..i + 1] == hotspots[..i] + [hotspots[i]];
        hotspotStyles := hotspotStyles[hotspots[i].id := NewStyle];
      }
      assert hotspots[..|hotspots|] == hotspots;
    }

    /**
     * `setActiveControls(mode)`: the mode flags follow `mode`; entering fly mode seeds yaw and
     * pitch from the camera with roll 0; any other mode re-targets the pivot 10 units in front
     * of the camera and runs `orbit.update()`.
     */
    method SetActiveControls(mode: string)
      requires Valid()
      modifies this`activeControls, this`orbitEnabled, this`isFlying, this`flyEuler, this`camera, this`target
      ensures Valid()
      ensures activeControls == mode
      ensures orbitEnabled == (mode == OrbitMode) && isFlying == (mode == FlyMode)
      ensures mode == FlyMode ==>
        flyEuler == FlySeed(old(camera).quaternion, lib) && camera == old(camera) && target == old(target)
      ensures mode != FlyMode ==>
        flyEuler == old(flyEuler) && OrbitView(camera, target) == lib.orbitUpdate(HandOffView(old(camera), lib))
    {
      activeControls := mode;
      orbitEnabled := mode == OrbitMode;
      isFlying := mode == FlyMode;
      if isFlying {
        flyEuler := lib.eulerFromQuaternion(camera.quaternion);
        flyEuler := flyEuler.(z := 0.0);
      } else {
        var direction := LookDirection(camera.quaternion, lib);
        target := Add(camera.position, Scale(direction, PivotDistance));
        UpdateOrbit();
      }
    }

    /** The `keydown` movement handler: the key's intent flag is set, in either mode. */
    method KeyDown(code: string)
      modifies this`moveState
      ensures IntentOf(code).Some? ==> moveState == WithIntent(old(moveState), IntentOf(code).value, true)
      ensures IntentOf(code).None? ==> moveState == old(moveState)
    {
      var intent := IntentOf(code);
      if intent.Some? {
        moveState := WithIntent(moveState, intent.value, true);
      }
    }

    /** The `keyup` movement handler: the key's intent flag is cleared, in either mode. */
    method KeyUp(code: string)
      modifies this`moveState
      ensures IntentOf(code).Some? ==> moveState == WithIntent(old(moveState), IntentOf(code).value, false)
      ensures IntentOf(code).None? ==> moveState == old(moveState)
    {
      var intent := IntentOf(code);
      if intent.Some? {
        moveState := WithIntent(moveState, intent.value, false);
      }
    }

    /** `mousedown` on the canvas: a left-button press starts a look-drag in fly mode only. */
    method MouseDown(button: int)
      modifies this`isDragging
      ensures isDragging == (old(isDragging) || (activeControls == FlyMode && button == 0))
    {
      if activeControls == FlyMode && button == 0 {
        isDragging := true;
      }
    }

    /** `mouseup` anywhere ends a look-drag. */
    method MouseUp()
      modifies this`isDragging
      ensures !isDragging
    {
      if isDragging {
        isDragging := false;
      }
    }

    /**
     * `mousemove` on the canvas: only during a look-drag in fly mode, turn yaw and pitch by the
     * deltas, clamp pitch and set the camera's orientation from them.
     */
    method MouseMove(e: PointerMove)
      requires Valid()
      modifies this`flyEuler, this`camera
      ensures Valid()
      ensures activeControls == FlyMode && isDragging ==>
        && flyEuler == Look(old(flyEuler), e)
        && camera == Pose(old(camera).position, lib.quaternionFromEuler(flyEuler))
      ensures !(activeControls == FlyMode && isDragging) ==> flyEuler == old(flyEuler) && camera == old(camera)
    {
      if activeControls == FlyMode && isDragging {
        var movementX := Movement(e.movementX, e.mozMovementX, e.webkitMovementX);
        var movementY := Movement(e.movementY, e.mozMovementY, e.webkitMovementY);
        flyEuler := flyEuler.(y := flyEuler.y - movementX * FlyLookSpeed);
        flyEuler := flyEuler.(x := flyEuler.x - movementY * FlyLookSpeed);
        flyEuler := flyEuler.(x := ClampPitch(flyEuler.x));
        camera := camera.(quaternion := lib.quaternionFromEuler(flyEuler));
      }
    }

    /**
     * The reset button: in orbit mode the home pose and pivot and `orbit.update()`; in any
     * other mode the fly home position with a level orientation.
     */
    method Reset()
      requires Valid()
      modifies this`camera, this`target, this`flyEuler
      ensures Valid()
      ensures activeControls == OrbitMode ==>
        flyEuler == old(flyEuler) && OrbitView(camera, target) == OrbitResetView(old(camera), lib)
      ensures activeControls != OrbitMode ==>
        flyEuler == Level && camera == FlyResetPose(lib) && target == old(target)
    {
      if activeControls == OrbitMode {
        camera := camera.(position := OrbitHome);
        target := OrbitHomeTarget;
        UpdateOrbit();
      } else {
        camera := camera.(position := FlyHome);
        flyEuler := Level;
        camera := camera.(quaternion := lib.quaternionFromEuler(flyEuler));
      }
    }

    /**
     * The hotkey `keydown` handler (ignored while typing in a text field): '1' and '2' switch
     * mode and then click the mode's button, whose handler switches again; 'r' clicks reset.
     */
    method OnHotkey(key: string, targetTag: string)
      requires Valid()
      modifies this`activeControls, this`orbitEnabled, this`isFlying, this`flyEuler, this`camera, this`target
      ensures Valid()
      ensures targetTag == "INPUT" || targetTag == "TEXTAREA" || LowerAscii(key) !in {"1", "2", "r"} ==>
        unchanged(this)
      ensures targetTag != "INPUT" && targetTag != "TEXTAREA" && LowerAscii(key) == "1" ==>
        && activeControls == OrbitMode && orbitEnabled && !isFlying
        && flyEuler == old(flyEuler) && moveState == old(moveState) && isDragging == old(isDragging)
        && var first := lib.orbitUpdate(HandOffView(old(camera), lib));
           OrbitView(camera, target) == lib.orbitUpdate(HandOffView(first.camera, lib))
      ensures targetTag != "INPUT" && targetTag != "TEXTAREA" && LowerAscii(key) == "2" ==>
        && activeControls == FlyMode && isFlying && !orbitEnabled
        && flyEuler == FlySeed(old(camera).quaternion, lib) && camera == old(camera) && target == old(target)
        && moveState == old(moveState) && isDragging == old(isDragging)
      ensures targetTag != "INPUT" && targetTag != "TEXTAREA" && LowerAscii(key) == "r" ==>
        && activeControls == old(activeControls) && moveState == old(moveState) && isDragging == old(isDragging)
        && (activeControls == OrbitMode ==>
              flyEuler == old(flyEuler) && OrbitView(camera, target) == OrbitResetView(old(camera), lib))
        && (activeControls != OrbitMode ==>
              flyEuler == Level && camera == FlyResetPose(lib) && target == old(target))
    {
      if targetTag == "INPUT" || targetTag == "TEXTAREA" {
        return;
      }
      var lower := LowerAscii(key);
      if lower == "1" {
        SetActiveControls(OrbitMode);
        SetActiveControls(OrbitMode);
      } else if lower == "2" {
        SetActiveControls(FlyMode);
        SetActiveControls(FlyMode);
      } else if lower == "r" {
        Reset();
      }
    }

    /**
     * The camera part of the frame callback: orbit mode runs `orbit.update()` and never reads
     * the movement flags; fly mode moves the camera by FlyStep; any other mode does nothing.
     */
    method Tick(dt: real)
      requires Valid()
      modifies this`camera, this`target
      ensures Valid()
      ensures activeControls == OrbitMode ==>
        OrbitView(camera, target) == lib.orbitUpdate(OrbitView(old(camera), old(target)))
      ensures activeControls == FlyMode ==>
        && target == old(target)
        && camera == Pose(FlyStep(old(camera).position, old(camera).quaternion, moveState, dt, lib), old(camera).quaternion)
      ensures activeControls != OrbitMode && activeControls != FlyMode ==> camera == old(camera) && target == old(target)
    {
      if activeControls == OrbitMode {
        UpdateOrbit();
      } else if activeControls == FlyMode {
        var velocity := BuildVelocity(moveState);
        if LengthSq(velocity) > 0.0 {
          velocity := lib.normalize(velocity);
          velocity := Scale(velocity, FlySpeed * dt);
          velocity := lib.applyQuaternion(velocity, camera.quaternion);
          camera := camera.(position := Add(camera.position, velocity));
          camera := camera.(position := camera.position.(y := Max(MinFlyHeight, camera.position.y)));
        }
      }
    }

    /** What the hotspot loop projects with in the current state, for a canvas of the given size. */
    function CurrentFrame(width: nat, height: nat): Frame
      reads this
    {
      Frame(lib.project, camera, modelMatrix, width, height)
    }

    /**
     * `updateHotspotsScreenPositions`: every hotspot with an element is hidden when behind the
     * camera and otherwise shown at its projected pixel; hotspots without an element are skipped.
     */
    method UpdateHotspotsScreenPositions(width: nat, height: nat)
      modifies this`hotspotStyles
      ensures hotspotStyles == PlaceAll(old(hotspotStyles), hotspots, CurrentFrame(width, height))
    {
      ghost var frame := CurrentFrame(width, height);
      for i := 0 to |hotspots|
        invariant hotspotStyles == PlaceAll(old(hotspotStyles), hotspots[..i], frame)
      {
        assert hotspots[..i + 1][..i] == hotspots[..i];
        var h := hotspots[i];
        if h.id in hotspotStyles {
          var anchor := h.position;
          if modelMatrix.Some? {
            anchor := modelMatrix.value(anchor);
          }
          var ndc := lib.project(anchor, camera);
          var style := hotspotStyles[h.id];
          if ndc.z > 1.0 || ndc.z < -1.0 {
            style := style.(display := Hidden);
          } else {
            var x := (ndc.x * 0.5 + 0.5) * width as real;
            var y := (-(ndc.y * 0.5) + 0.5) * height as real;
            style := Style(Block, Some(Pixel(x, y)));
            ghost var projected := Project(ndc, width, height);
            assert projected.value.left == x && projected.value.top == y;
          }
          assert ndc == NdcOf(h, frame);
          hotspotStyles := hotspotStyles[h.id := style];
        }
      }
      assert hotspots[..|hotspots|] == hotspots;
    }

    /** The frame callback: tick the camera, then re-place the hotspots for the canvas size. */
    method Render(dt: real, width: nat, height: nat)
      requires Valid()
      modifies this`camera, this`target, this`hotspotStyles
      ensures Valid()
      ensures activeControls == OrbitMode ==>
        OrbitView(camera, target) == lib.orbitUpdate(OrbitView(old(camera), old(target)))
      ensures activeControls == FlyMode ==>
        && target == old(target)
        && camera == Pose(FlyStep(old(camera).position, old(camera).quaternion, moveState, dt, lib), old(camera).quaternion)
      ensures activeControls != OrbitMode && activeControls != FlyMode ==> camera == old(camera) && target == old(target)
      ensures hotspotStyles == PlaceAll(old(hotspotStyles), hotspots, CurrentFrame(width, height))
    {
      Tick(dt);
      UpdateHotspotsScreenPositions(width, height);
    }

    /**
     * The model loader's success callback: the model root's transform now applies to hotspots,
     * the pivot returns home, the camera too in orbit mode, and `orbit.update()` runs in either mode.
     */
    method ModelLoaded(matrixWorld: Vec3 -> Vec3)
      requires Valid()
      modifies this`modelMatrix, this`camera, this`target
      ensures Valid()
      ensures modelMatrix == Some(matrixWorld)
      ensures activeControls == OrbitMode ==> OrbitView(camera, target) == OrbitResetView(old(camera), lib)
      ensures activeControls != OrbitMode ==>
        OrbitView(camera, target) == lib.orbitUpdate(OrbitView(old(camera), OrbitHomeTarget))
    {
      modelMatrix := Some(matrixWorld);
      target := OrbitHomeTarget;
      if activeControls == OrbitMode {
        camera := camera.(position := OrbitHome);
      }
      UpdateOrbit();
    }
  }
}
