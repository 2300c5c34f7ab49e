/**
 * Vectors and orientations of the viewer's camera, and the Three.js operations the
 * viewer calls without defining them. JavaScript numbers are modelled as reals.
 */
module Geometry {

  /** A Three.js `Vector3`. */
  datatype Vec3 = Vec3(x: real, y: real, z: real)

  const Zero: Vec3 := Vec3(0.0, 0.0, 0.0)

  function Add(a: Vec3, b: Vec3): Vec3 {
    Vec3(a.x + b.x, a.y + b.y, a.z + b.z)
  }

  function Sub(a: Vec3, b: Vec3): Vec3 {
    Vec3(a.x - b.x, a.y - b.y, a.z - b.z)
  }

  function Scale(v: Vec3, k: real): Vec3 {
    Vec3(v.x * k, v.y * k, v.z * k)
  }

  /** `Vector3.lengthSq` */
  function LengthSq(v: Vec3): real {
    v.x * v.x + v.y * v.y + v.z * v.z
  }

  /**
   * For a vector whose components are each -1, 0 or 1, as a fly frame's velocity is,
   * `lengthSq() > 0` holds exactly when the vector is not zero.
   */
  lemma AxisVectorLengthSq(v: Vec3)
    requires v.x == -1.0 || v.x == 0.0 || v.x == 1.0
    requires v.y == -1.0 || v.y == 0.0 || v.y == 1.0
    requires v.z == -1.0 || v.z == 0.0 || v.z == 1.0
    ensures LengthSq(v) > 0.0 <==> v != Zero
  {
  }

  /** A Three.js `Quaternion` (x, y, z, w); the default quaternion is the identity. */
  datatype Quat = Quat(x: real, y: real, z: real, w: real)

  const Identity: Quat := Quat(0.0, 0.0, 0.0, 1.0)

  /** A Three.js `Euler` in order 'YXZ': x is pitch, y is yaw, z is roll. */
  datatype Euler = Euler(x: real, y: real, z: real)

  /** The camera's transform: `camera.position` and `camera.quaternion`. */
  datatype Pose = Pose(position: Vec3, quaternion: Quat)

  /** What `OrbitControls.update()` reads and writes: the camera it drives and its pivot `target`. */
  datatype OrbitView = OrbitView(camera: Pose, target: Vec3)

  /**
   * The library operations the viewer calls. Each is an arrow supplied from outside:
   *  - applyQuaternion: `v.applyQuaternion(q)`, the rotation of v by q;
   *  - normalize: `v.normalize()`;
   *  - eulerFromQuaternion: `Euler.setFromQuaternion(q)` in order 'YXZ';
   *  - quaternionFromEuler: `Quaternion.setFromEuler(e)`;
   *  - orbitUpdate: `OrbitControls.update()`, damping and distance/polar clamping included;
   *  - project: `Vector3.project(camera)`, world point to normalised device coordinates
   *    through the camera with that pose and its projection matrix.
   */
  datatype Library = Library(
    applyQuaternion: (Vec3, Quat) -> Vec3,
    normalize: Vec3 -> Vec3,
    eulerFromQuaternion: Quat -> Euler,
    quaternionFromEuler: Euler -> Quat,
    orbitUpdate: OrbitView -> OrbitView,
    project: (Vec3, Pose) -> Vec3)

  /** `Math.PI` */
  const Pi: real := 3.141592653589793

  const HalfPi: real := Pi / 2.0

  /**
   * The one fact about the library the model relies on: the pitch that
   * `Euler.setFromQuaternion` computes in order 'YXZ' is an arcsine, so it lies in [-pi/2, pi/2].
   */
  ghost predicate Lawful(lib: Library) {
    forall q :: -HalfPi <= lib.eulerFromQuaternion(q).x <= HalfPi
  }

  /** The camera's look direction: (0, 0, -1) rotated by its orientation. */
  function LookDirection(q: Quat, lib: Library): Vec3 {
    lib.applyQuaternion(Vec3(0.0, 0.0, -1.0), q)
  }
}
