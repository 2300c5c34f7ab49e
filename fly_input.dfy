/**
 * Input state of fly mode: the six movement intents set by the keyboard handlers,
 * the direction a frame builds from them, and the mouse-look arithmetic.
 */
module FlyInput {
  import opened Wrappers
  import opened Geometry

  /** One of the six movement intents of `moveState`. */
  datatype Intent = Forward | Backward | Left | Right | Up | Down

  /** `moveState`: one flag per intent, true while its key is held. */
  datatype MoveState = MoveState(forward: bool, backward: bool, left: bool, right: bool, up: bool, down: bool)

  const Idle: MoveState := MoveState(false, false, false, false, false, false)

  /** The `event.code` that drives each intent. */
  function KeyCode(i: Intent): string {
    match i
    case Forward => "KeyW"
    case Backward => "KeyS"
    case Left => "KeyA"
    case Right => "KeyD"
    case Up => "Space"
    case Down => "ShiftLeft"
  }

  /** The switch of the key handlers: the intent a key code drives, if any. */
  function IntentOf(code: string): (r: Option<Intent>)
    ensures r.Some? ==> KeyCode(r.value) == code
  {
    if code == "KeyW" then Some(Forward)
    else if code == "KeyS" then Some(Backward)
    else if code == "KeyA" then Some(Left)
    else if code == "KeyD" then Some(Right)
    else if code == "Space" then Some(Up)
    else if code == "ShiftLeft" then Some(Down)
    else None
  }

  /** Every intent is reached by its own key code, so IntentOf and KeyCode are inverse. */
  lemma IntentOfKeyCode(i: Intent)
    ensures IntentOf(KeyCode(i)) == Some(i)
  {
  }

  function Flag(ms: MoveState, i: Intent): bool {
    match i
    case Forward => ms.forward
    case Backward => ms.backward
    case Left => ms.left
    case Right => ms.right
    case Up => ms.up
    case Down => ms.down
  }

  /** Assigning one field of `moveState`: that flag becomes `active`, the other five keep their value. */
  function WithIntent(ms: MoveState, i: Intent, active: bool): (r: MoveState)
    ensures Flag(r, i) == active
    ensures forall j :: j != i ==> Flag(r, j) == Flag(ms, j)
  {
    match i
    case Forward => ms.(forward := active)
    case Backward => ms.(backward := active)
    case Left => ms.(left := active)
    case Right => ms.(right := active)
    case Up => ms.(up := active)
    case Down => ms.(down := active)
  }

  /** A repeated key event changes nothing more than the first one did. */
  lemma WithIntentIdempotent(ms: MoveState, i: Intent, active: bool)
    ensures WithIntent(WithIntent(ms, i, active), i, active) == WithIntent(ms, i, active)
  {
  }

  /** Releasing a key that was up before it was pressed restores the flags. */
  lemma KeyUpUndoesKeyDown(ms: MoveState, i: Intent)
    requires !Flag(ms, i)
    ensures WithIntent(WithIntent(ms, i, true), i, false) == ms
  {
  }

  /** The contribution of one pair of opposing intents to one axis of the velocity. */
  function Axis(plus: bool, minus: bool): (r: real)
    ensures r == -1.0 || r == 0.0 || r == 1.0
    ensures r == 0.0 <==> plus == minus
    ensures r == 1.0 <==> plus && !minus
    ensures r == -1.0 <==> minus && !plus
  {
    (if plus then 1.0 else 0.0) - (if minus then 1.0 else 0.0)
  }

  /**
   * The camera-local direction a fly frame builds from the flags: forward is -Z,
   * right is +X, up is +Y. Each component is -1, 0 or 1, and opposing intents cancel.
   */
  function Direction(ms: MoveState): (v: Vec3)
    ensures v.x == -1.0 || v.x == 0.0 || v.x == 1.0
    ensures v.y == -1.0 || v.y == 0.0 || v.y == 1.0
    ensures v.z == -1.0 || v.z == 0.0 || v.z == 1.0
    ensures v.x == 0.0 <==> ms.left == ms.right
    ensures v.y == 0.0 <==> ms.up == ms.down
    ensures v.z == 0.0 <==> ms.forward == ms.backward
    ensures v.x > 0.0 <==> ms.right && !ms.left
    ensures v.y > 0.0 <==> ms.up && !ms.down
    ensures v.z < 0.0 <==> ms.forward && !ms.backward
  {
    Vec3(Axis(ms.right, ms.left), Axis(ms.up, ms.down), Axis(ms.backward, ms.forward))
  }

  /** The direction is zero exactly when every pair of opposing intents agrees. */
  lemma DirectionZeroIff(ms: MoveState)
    ensures Direction(ms) == Zero <==> ms.forward == ms.backward && ms.left == ms.right && ms.up == ms.down
  {
  }

  /** The velocity accumulation at the start of a fly frame, one flag at a time. */
  method BuildVelocity(ms: MoveState) returns (velocity: Vec3)
    ensures velocity == Direction(ms)
  {
    velocity := Zero;
    if ms.forward {
      velocity := velocity.(z := velocity.z - 1.0);
    }
    if ms.backward {
      velocity := velocity.(z := velocity.z + 1.0);
    }
    if ms.left {
      velocity := velocity.(x := velocity.x - 1.0);
    }
    if ms.right {
      velocity := velocity.(x := velocity.x + 1.0);
    }
    if ms.up {
      velocity := velocity.(y := velocity.y + 1.0);
    }
    if ms.down {
      velocity := velocity.(y := velocity.y - 1.0);
    }
  }

  /** `Math.max(-Math.PI / 2, Math.min(Math.PI / 2, pitch))` */
  function ClampPitch(pitch: real): (r: real)
    ensures -HalfPi <= r <= HalfPi
    ensures -HalfPi <= pitch <= HalfPi ==> r == pitch
    ensures pitch > HalfPi ==> r == HalfPi
    ensures pitch < -HalfPi ==> r == -HalfPi
  {
    var upper := if HalfPi < pitch then HalfPi else pitch;
    if -HalfPi > upper then -HalfPi else upper
  }

  /** JavaScript truthiness of a possibly undefined number (NaN is not modelled). */
  predicate Truthy(v: Option<real>) {
    v.Some? && v.value != 0.0
  }

  /**
   * `e.movementX || e.mozMovementX || e.webkitMovementX || 0`: the first truthy
   * of the standard and the two vendor-prefixed deltas, else 0.
   */
  function Movement(standard: Option<real>, moz: Option<real>, webkit: Option<real>): (r: real)
    ensures r != 0.0 <==> Truthy(standard) || Truthy(moz) || Truthy(webkit)
    ensures Truthy(standard) ==> r == standard.value
    ensures !Truthy(standard) && Truthy(moz) ==> r == moz.value
    ensures !Truthy(standard) && !Truthy(moz) && Truthy(webkit) ==> r == webkit.value
  {
    if Truthy(standard) then standard.value
    else if Truthy(moz) then moz.value
    else if Truthy(webkit) then webkit.value
    else 0.0
  }

  /** The look speed of fly mode, in radians per pixel of mouse movement. */
  const FlyLookSpeed: real := 0.003

  /** A `mousemove` event's deltas, standard and vendor-prefixed, each possibly undefined. */
  datatype PointerMove = PointerMove(
    movementX: Option<real>, mozMovementX: Option<real>, webkitMovementX: Option<real>,
    movementY: Option<real>, mozMovementY: Option<real>, webkitMovementY: Option<real>)

  /**
   * The look-drag update of `flyEuler`: yaw turns by -dx and pitch by -dy times the look
   * speed, pitch is then clamped to [-pi/2, pi/2], and roll is left alone.
   */
  function Look(euler: Euler, e: PointerMove): (r: Euler)
    ensures -HalfPi <= r.x <= HalfPi
    ensures r.z == euler.z
    ensures r.y == euler.y - Movement(e.movementX, e.mozMovementX, e.webkitMovementX) * FlyLookSpeed
    ensures r.x == ClampPitch(euler.x - Movement(e.movementY, e.mozMovementY, e.webkitMovementY) * FlyLookSpeed)
  {
    var dx := Movement(e.movementX, e.mozMovementX, e.webkitMovementX);
    var dy := Movement(e.movementY, e.mozMovementY, e.webkitMovementY);
    Euler(ClampPitch(euler.x - dy * FlyLookSpeed), euler.y - dx * FlyLookSpeed, euler.z)
  }
}
