/**
 * The screen placement of a hotspot: normalised device coordinates (NDC) from
 * `Vector3.project` become CSS pixel offsets inside the renderer's canvas.
 */
module Projection {
  import opened Wrappers
  import opened Geometry

  /** A pixel position inside the canvas: `left` grows rightwards, `top` downwards. */
  datatype Pixel = Pixel(left: real, top: real)

  /** The depth test of the hotspot loop: NDC depth outside [-1, 1] counts as behind the camera. */
  predicate IsBehind(ndc: Vec3) {
    ndc.z > 1.0 || ndc.z < -1.0
  }

  /**
   * One hotspot's screen position for a canvas of `width` by `height` pixels
   * (`clientWidth`, `clientHeight`), or None when it is to be hidden.
   * X maps affinely from [-1, 1] to [0, width]; Y likewise to [0, height], flipped.
   */
  function Project(ndc: Vec3, width: nat, height: nat): (r: Option<Pixel>)
    ensures r.None? <==> IsBehind(ndc)
    ensures r.Some? ==> r.value == Pixel((ndc.x * 0.5 + 0.5) * width as real, (-(ndc.y * 0.5) + 0.5) * height as real)
  {
    if IsBehind(ndc) then None
    else Some(Pixel((ndc.x * 0.5 + 0.5) * width as real, (-(ndc.y * 0.5) + 0.5) * height as real))
  }

  /** The inverse mapping, from a pixel back to NDC x and y, for a canvas that is not empty. */
  function Unproject(p: Pixel, width: nat, height: nat): (ndc: (real, real))
    requires width > 0 && height > 0
  {
    (2.0 * (p.left / width as real) - 1.0, 1.0 - 2.0 * (p.top / height as real))
  }

  /** The centre of NDC maps to the centre of the canvas, at any depth inside the clip range. */
  lemma ProjectCentre(z: real, width: nat, height: nat)
    requires -1.0 <= z <= 1.0
    ensures Project(Vec3(0.0, 0.0, z), width, height) == Some(Pixel(width as real / 2.0, height as real / 2.0))
  {
    assert (0.0 * 0.5 + 0.5) * width as real == width as real / 2.0;
    assert (-(0.0 * 0.5) + 0.5) * height as real == height as real / 2.0;
  }

  /** NDC (-1, 1) is the top-left corner of the canvas and NDC (1, -1) the bottom-right one. */
  lemma ProjectCorners(z: real, width: nat, height: nat)
    requires -1.0 <= z <= 1.0
    ensures Project(Vec3(-1.0, 1.0, z), width, height) == Some(Pixel(0.0, 0.0))
    ensures Project(Vec3(1.0, -1.0, z), width, height) == Some(Pixel(width as real, height as real))
  {
  }

  /** A visible hotspot whose NDC x and y lie in [-1, 1] lands inside the canvas. */
  lemma ProjectInsideCanvas(ndc: Vec3, width: nat, height: nat)
    requires -1.0 <= ndc.x <= 1.0 && -1.0 <= ndc.y <= 1.0 && !IsBehind(ndc)
    ensures Project(ndc, width, height).Some?
    ensures 0.0 <= Project(ndc, width, height).value.left <= width as real
    ensures 0.0 <= Project(ndc, width, height).value.top <= height as real
  {
    var p := Project(ndc, width, height).value;
    var left := FractionOf(ndc.x * 0.5 + 0.5, width as real);
    var top := FractionOf(-(ndc.y * 0.5) + 0.5, height as real);
    assert p.left == left && p.top == top;
  }

  /** A fraction in [0, 1] of a non-negative length lies between 0 and that length. */
  lemma FractionOf(t: real, length: real) returns (v: real)
    requires 0.0 <= t <= 1.0 && 0.0 <= length
    ensures v == t * length && 0.0 <= v <= length
  {
    v := t * length;
    if length > 0.0 {
      assert v / length == t;
    }
  }

  /** Screen X grows with NDC x and screen Y shrinks as NDC y grows: the Y axis is flipped. */
  lemma ProjectOrientation(a: Vec3, b: Vec3, width: nat, height: nat)
    requires !IsBehind(a) && !IsBehind(b) && width > 0 && height > 0
    ensures a.x < b.x ==> Project(a, width, height).value.left < Project(b, width, height).value.left
    ensures a.y < b.y ==> Project(a, width, height).value.top > Project(b, width, height).value.top
  {
    var w, h := width as real, height as real;
    assert Project(b, width, height).value.left - Project(a, width, height).value.left == (b.x - a.x) * 0.5 * w;
    assert Project(a, width, height).value.top - Project(b, width, height).value.top == (b.y - a.y) * 0.5 * h;
  }

  /** Unproject recovers the NDC x and y of every visible hotspot. */
  lemma UnprojectProject(ndc: Vec3, width: nat, height: nat)
    requires !IsBehind(ndc) && width > 0 && height > 0
    ensures Unproject(Project(ndc, width, height).value, width, height) == (ndc.x, ndc.y)
  {
    var p := Project(ndc, width, height).value;
    Quotient(ndc.x * 0.5 + 0.5, width as real, p.left);
    Quotient(-(ndc.y * 0.5) + 0.5, height as real, p.top);
  }

  /** Every pixel of the canvas plane is the image of exactly the NDC point Unproject gives. */
  lemma ProjectUnproject(p: Pixel, z: real, width: nat, height: nat)
    requires -1.0 <= z <= 1.0 && width > 0 && height > 0
    ensures var (x, y) := Unproject(p, width, height); Project(Vec3(x, y, z), width, height) == Some(p)
  {
    var (x, y) := Unproject(p, width, height);
    Quotient(x * 0.5 + 0.5, width as real, p.left);
    Quotient(-(y * 0.5) + 0.5, height as real, p.top);
    assert p.left == (x * 0.5 + 0.5) * width as real;
    assert p.top == (-(y * 0.5) + 0.5) * height as real;
    var ndc := Vec3(x, y, z);
    assert !IsBehind(ndc);
    var r := Project(ndc, width, height);
    assert r.value.left == p.left;
    assert r.value.top == p.top;
  }

  /** `v` is `t` times a non-zero length exactly when `v` divided by that length is `t`. */
  lemma Quotient(t: real, length: real, v: real)
    requires length != 0.0
    ensures v == t * length <==> v / length == t
  {
  }
}
