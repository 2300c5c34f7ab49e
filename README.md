# Camera modes and hotspot overlay of a browser 3D viewer

This Dafny project models the core of a single-page Three.js viewer for an architectural
model (`main.js`). The core has two parts:

- a camera-mode state machine with two modes. In orbit mode, Three.js `OrbitControls`
  drive the camera around a pivot. In fly mode, WASD, Space and Left-Shift move the camera
  and a left-button drag turns it.
- a per-frame loop that projects each point of interest (hotspot) to the screen. It hides
  the hotspot's element or moves it to the projected pixel.

The page script keeps its state in module-level variables that event handlers assign in
place. The model keeps that form: `Viewer.Viewer` is a class whose fields are those
variables, and whose methods are the handlers and the frame callback:

- `activeControls`, `orbit.enabled`, `isFlying`, `isDragging`;
- `moveState`, `flyEuler`;
- the camera pose, the orbit pivot `orbit.target`;
- `modelRoot`'s world matrix;
- the style of each hotspot element.

Each method states its whole new state in its `ensures`. The object invariant `Valid()` is
kept by every method: the mode flags agree with `activeControls`, roll is 0, and pitch lies
in [-pi/2, pi/2]. The pure rules each method follows are functions with their own
contracts, in four modules:

- `FlyInput`: key codes to intents, the six intent flags, the velocity direction, pitch
  clamping, the mouse-delta fallback chain.
- `Projection`: NDC to pixel.
- `Hotspots`: the hotspot loop as a fold over the hotspot list.
- `Viewer`: the mode hand-off, the fly step, the class.

Numbers are reals. Three.js operations are not defined here. They are arrow-typed fields of
`Geometry.Library`, handed to the viewer's constructor:

- `applyQuaternion`, `normalize`;
- `Euler.setFromQuaternion`, `Quaternion.setFromEuler`;
- `OrbitControls.update`;
- `Vector3.project`.

One fact about them is assumed, in `Geometry.Lawful`: the pitch that
`Euler.setFromQuaternion` returns in order 'YXZ' is an arcsine, so it lies in [-pi/2, pi/2].

Where the code does something a reader might not expect, the model follows the code:

- `setActiveControls` with a mode other than 'orbit' or 'fly' is not ignored. It stores the
  mode, disables the orbit controls, and re-targets the pivot like a switch to orbit does.
- The movement flags change on key events in either mode, not only in fly mode.
- A drag is not cancelled by a mode switch. Only `mouseup` clears `isDragging`. Look deltas
  are still ignored outside fly mode.
- Start-up ends with `setActiveControls('orbit')`. This replaces the initial pivot (0, 2.5, 0)
  with a point 10 units in front of the camera.
- Reset in a mode other than 'orbit' takes the fly branch.

## Model

| member | source | states |
|---|---|---|
| `Geometry.AxisVectorLengthSq` | main.js:511 | for a velocity whose components are each -1, 0 or 1, `lengthSq() > 0` holds exactly when the velocity is not zero |
| `FlyInput.IntentOf` | main.js:220-229 | a key code selects an intent only if it is that intent's own code (KeyW, KeyS, KeyA, KeyD, Space, ShiftLeft); every other code selects none |
| `FlyInput.IntentOfKeyCode` | main.js:231-240 | each of the six intents is selected by its key code, so codes and intents correspond one to one |
| `FlyInput.WithIntent` | main.js:222-238 | a key event sets exactly its own flag to the new value and leaves the other five as they were |
| `FlyInput.WithIntentIdempotent` | main.js:220-240 | repeating a key-down or key-up event changes nothing further |
| `FlyInput.KeyUpUndoesKeyDown` | main.js:220-240 | pressing and releasing a key that was up restores all six flags |
| `FlyInput.Axis` | main.js:504-509 | one axis of the velocity is -1, 0 or 1; it is 0 exactly when the two opposing intents agree, and its sign says which one is held alone |
| `FlyInput.Direction` | main.js:502-509 | every component of the fly direction is -1, 0 or 1; forward/backward, left/right and up/down each cancel to 0 when both or neither are held; forward alone is -Z, right alone +X, up alone +Y |
| `FlyInput.DirectionZeroIff` | main.js:502-511 | the direction is zero exactly when every pair of opposing intents agrees |
| `FlyInput.BuildVelocity` | main.js:502-509 | the flag-by-flag accumulation of the velocity yields the direction described by `Direction` |
| `FlyInput.ClampPitch` | main.js:213 | the clamped pitch lies in [-pi/2, pi/2], equals the input when that is already in range, and is the nearer bound otherwise |
| `FlyInput.Movement` | main.js:206-207 | a mouse delta is non-zero exactly when one of the standard, moz or webkit deltas is truthy, and it is the first truthy one in that order |
| `FlyInput.Look` | main.js:209-213 | a look-drag turns yaw by -dx times 0.003 and pitch by -dy times 0.003 before clamping it to [-pi/2, pi/2], and leaves roll alone; dx and dy are the first truthy of the standard and vendor-prefixed deltas |
| `Projection.Project` | main.js:543-552 | a hotspot is hidden exactly when its NDC depth is above 1 or below -1; otherwise it is placed at x = (ndc.x·0.5+0.5)·width, y = (0.5−ndc.y·0.5)·height |
| `Projection.ProjectCentre` | main.js:551-552 | NDC (0, 0) at any depth in [-1, 1] lands on the canvas centre (width/2, height/2) |
| `Projection.ProjectCorners` | main.js:551-552 | NDC (-1, 1) lands on the top-left corner (0, 0) and NDC (1, -1) on the bottom-right corner (width, height) |
| `Projection.ProjectInsideCanvas` | main.js:551-552 | a visible point with NDC x and y in [-1, 1] lands inside [0, width] × [0, height] |
| `Projection.ProjectOrientation` | main.js:551-552 | screen x grows with NDC x, while screen y shrinks as NDC y grows (the Y axis is flipped) |
| `Projection.UnprojectProject` | main.js:551-552 | for a non-empty canvas the pixel mapping is invertible: the inverse recovers NDC x and y of every visible point |
| `Projection.ProjectUnproject` | main.js:551-552 | every pixel is the image of the NDC point the inverse gives, at any depth in [-1, 1] |
| `Hotspots.Place` | main.js:544-555 | an element is set to 'none', keeping left/top, exactly when its depth is out of range; otherwise it is set to 'block' at the projected pixel |
| `Hotspots.PlaceOne` | main.js:535-555 | a hotspot without an element is skipped; otherwise only its own element's style changes |
| `Hotspots.PlaceAll` | main.js:534-556 | the loop over all hotspots neither creates nor removes elements |
| `Hotspots.PlaceAllUntouched` | main.js:534-536 | an element that no hotspot in the list names keeps its style |
| `Hotspots.PlaceAllEach` | main.js:534-556 | with distinct ids, each hotspot's element ends styled from that hotspot's own projection, regardless of the others |
| `Hotspots.PlaceAllHiddenIff` | main.js:543-552 | after the loop, with distinct ids, a hotspot's element is hidden exactly when its NDC depth is outside [-1, 1], and otherwise sits at the projected pixel |
| `Hotspots.NoModelUsesAnchor` | main.js:538-541 | before the model exists, a hotspot is projected from its anchor as given (no model transform) |
| `Hotspots.ViewerHotspotsDistinct` | main.js:405-420 | the two shipped hotspots have distinct ids |
| `Viewer.HandOffView` | main.js:176-180 | on leaving fly mode the camera is handed to the orbit controls unmoved, with a pivot exactly 10 units along its look direction |
| `Viewer.FlySeed` | main.js:167-170 | entering fly mode takes yaw and pitch from the camera's orientation and sets roll to 0; the pitch is in [-pi/2, pi/2] |
| `Viewer.FlyStep` | main.js:501-517 | a fly frame leaves the camera where it is when the direction is zero, and after any move the camera's height is at least 0.5 |
| `Viewer.FlyForwardOneSecond` | main.js:504-515 | forward alone for 1 s with an unrotated camera moves it by (0, 0, -15) |
| `Viewer.LowerAscii` | main.js:258 | lower-casing keeps the length and lower-cases each character on its own |
| `Viewer.HotkeyMatches` | main.js:258-272 | the reset hotkey answers to 'r' and 'R'; the mode hotkeys answer only to '1' and '2' |
| `Viewer.Viewer.constructor` | main.js:133-164 | start-up (with `rebuildHotspots()` at main.js:440-443 and the start-up calls at main.js:562-564): orbit mode, no drag, all flags clear, level fly orientation, no model, one fresh element per hotspot; the camera and pivot come from `orbit.update()` followed by the switch to orbit mode |
| `Viewer.Viewer.UpdateOrbit` | main.js:143 | `orbit.update()` replaces the camera pose and pivot with what the orbit controls compute from them |
| `Viewer.Viewer.RebuildHotspots` | main.js:440-443 | there is exactly one element per hotspot id, each freshly styled |
| `Viewer.Viewer.SetActiveControls` | main.js:162-187 | afterwards `activeControls` is the mode, `orbit.enabled` holds iff it is 'orbit' and `isFlying` iff it is 'fly'; entering fly seeds the orientation with roll 0 and moves neither camera nor pivot; any other mode hands the unmoved camera and the pivot 10 units ahead to `orbit.update()`; drag and movement flags are untouched |
| `Viewer.Viewer.KeyDown` | main.js:220-229 | in either mode, a movement key sets exactly its flag and any other code changes nothing |
| `Viewer.Viewer.KeyUp` | main.js:231-240 | in either mode, a movement key clears exactly its flag and any other code changes nothing |
| `Viewer.Viewer.MouseDown` | main.js:190-195 | a drag starts only on a left-button press in fly mode |
| `Viewer.Viewer.MouseUp` | main.js:197-202 | any mouse-up ends the drag |
| `Viewer.Viewer.MouseMove` | main.js:204-217 | look deltas change yaw, pitch and the camera orientation only while dragging in fly mode; the pitch stays in [-pi/2, pi/2] |
| `Viewer.Viewer.Reset` | main.js:290-301 | in orbit mode the camera goes to (12, 6, 12) and the pivot to (0, 2.5, 0) before `orbit.update()`; otherwise the camera goes to (0, 2, 10) with yaw = pitch = roll = 0 |
| `Viewer.Viewer.OnHotkey` | main.js:255-272 | outside text fields, '2' leaves the same state as one switch to fly mode (the second switch changes nothing); '1' switches to orbit twice, so the flags end as after one switch and the pivot is recomputed once more after `orbit.update()`; 'r' resets; other keys change nothing; no hotkey touches the model transform, the hotspot styles, the movement flags or the drag |
| `Viewer.Viewer.Tick` | main.js:495-518 | an orbit frame runs `orbit.update()` and does not depend on the movement flags; a fly frame moves the camera by `FlyStep` and keeps its orientation and the pivot; any other mode changes nothing |
| `Viewer.Viewer.UpdateHotspotsScreenPositions` | main.js:530-557 | the element styles become the result of the hotspot loop (`PlaceAll`) for the camera pose, model transform and canvas size held in the viewer's state; the one-frame lag of the page's camera matrix is listed under Left out |
| `Viewer.Viewer.Render` | main.js:495-522 | a frame first ticks the camera, then runs the hotspot loop on the ticked pose; in the page the loop projects through the camera matrix of the previous frame, as listed under Left out |
| `Viewer.Viewer.ModelLoaded` | main.js:356-393 | once the model loads, hotspots use its transform and the pivot returns to (0, 2.5, 0); in orbit mode the camera returns to (12, 6, 12); `orbit.update()` runs in either mode |

## Left out

- Renderer setup, lights, ground plane, HDR environment, shadow toggling (including the 's' hotkey), fullscreen ('f'), screenshot ('p'), lightbox, info panel, annotation list, button highlighting and cursor styles: scene configuration and DOM work with no state the camera core reads.
- Model loading itself (network I/O, Draco decoding, mesh traversal, centring and scaling): only the success callback's effect on the model transform, camera and pivot is modelled, in `ModelLoaded`; the failure path only writes a message.
- Three.js mathematics (quaternion rotation, normalisation, Euler/quaternion conversion, `Vector3.project`, `applyMatrix4`) and the internals of `OrbitControls.update` (damping, distance and polar-angle clamping, panning): these are library code. They enter as arrow-typed parameters. `OrbitControls.update` is treated as a function of the camera pose and pivot only. Its hidden damping state is not modelled, and neither is the update it runs when the controls are constructed.
- `Viewer.Viewer.SetActiveControls`: "switching to orbit does not move the camera" is proved of the view handed to `orbit.update()` (`HandOffView`), not of the state after it, because that library call may itself move the camera and the pivot.
- `Viewer.Viewer.Reset`: in orbit mode the camera (12, 6, 12) and pivot (0, 2.5, 0) are stated for the view handed to `orbit.update()`, for the same reason.
- `requestAnimationFrame`, `Clock` and `onResize`: the elapsed time and the canvas size are inputs. The camera's projection matrix (field of view, aspect, near and far planes) is part of the `project` parameter.
- `modelRoot.matrixWorld` is taken as current when the hotspot loop reads it. In the page it is refreshed by `renderer.render`, which runs after that loop.
- `Viewer.Viewer.Render` and `Viewer.Viewer.UpdateHotspotsScreenPositions`: `project` is applied to the current camera pose. The page's `Vector3.project` goes through the camera's cached `matrixWorldInverse`, and `renderer.render` refreshes it only after the hotspot loop. So in fly mode the hotspots are placed through the previous frame's camera, after a move or a mouse-look alike. In orbit mode they get the new position with the old orientation, because `lookAt` inside `orbit.update()` refreshes the matrix before it turns the camera. The model does not capture this one-frame lag.
- IEEE-754 rounding, and NaN as a falsy mouse delta: numbers are reals.
- `toLowerCase` is modelled for ASCII letters only. No other character lower-cases to '1', '2' or 'r', so hotkey matching is unaffected.
- `preventDefault` calls and the hotspot payload (title, text, image): they do not affect the state.
