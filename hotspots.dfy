/**
 * The hotspot overlay: each frame every hotspot that has a DOM element is projected
 * through the camera and its element is hidden or moved to the projected pixel.
 */
module Hotspots {
  import opened Wrappers
  import opened Geometry
  import opened Projection

  /** A point of interest: its id and its anchor in the model's own coordinates (title, text and image are not modelled). */
  datatype Hotspot = Hotspot(id: string, position: Vec3)

  /** The two hotspots the viewer ships with. */
  function ViewerHotspots(): seq<Hotspot> {
    [Hotspot("church", Vec3(0.0, 3.0, 13.0)), Hotspot("bell-tower", Vec3(27.0, 3.0, 12.0))]
  }

  /** `style.display` of a hotspot element: never written yet, 'none' or 'block'. */
  datatype Display = Unset | Hidden | Block

  /** The parts of a hotspot element's style the overlay writes: display, and left/top once set. */
  datatype Style = Style(display: Display, at: Option<Pixel>)

  /** The style of a freshly created hotspot element. */
  const NewStyle: Style := Style(Unset, None)

  /**
   * What one frame's projection needs: the camera's `Vector3.project` for the current pose,
   * the model root's world matrix once the model is loaded (None before), and the canvas size.
   */
  datatype Frame = Frame(project: (Vec3, Pose) -> Vec3, camera: Pose, modelMatrix: Option<Vec3 -> Vec3>, width: nat, height: nat)

  /** The anchor in world space: the model root's transform applies only once the model exists. */
  function WorldAnchor(h: Hotspot, modelMatrix: Option<Vec3 -> Vec3>): Vec3 {
    match modelMatrix
    case None => h.position
    case Some(m) => m(h.position)
  }

  function NdcOf(h: Hotspot, f: Frame): Vec3 {
    f.project(WorldAnchor(h, f.modelMatrix), f.camera)
  }

  /**
   * The new style of one hotspot element given its NDC: hidden (left and top kept) when
   * behind the camera, otherwise shown at the projected pixel.
   */
  function Place(current: Style, ndc: Vec3, width: nat, height: nat): (r: Style)
    ensures r.display == Hidden <==> IsBehind(ndc)
    ensures r.display == Hidden ==> r.at == current.at
    ensures r.display != Hidden ==> r.display == Block && r.at == Project(ndc, width, height)
  {
    match Project(ndc, width, height)
    case None => current.(display := Hidden)
    case Some(p) => Style(Block, Some(p))
  }

  /** One iteration of the hotspot loop: a hotspot without an element is skipped. */
  function PlaceOne(styles: map<string, Style>, h: Hotspot, f: Frame): (r: map<string, Style>)
    ensures r.Keys == styles.Keys
    ensures h.id !in styles ==> r == styles
    ensures h.id in styles ==> r == styles[h.id := Place(styles[h.id], NdcOf(h, f), f.width, f.height)]
  {
    if h.id in styles then styles[h.id := Place(styles[h.id], NdcOf(h, f), f.width, f.height)]
    else styles
  }

  /** The loop over `hotspots`, in order, as a function of its prefix. */
  function PlaceAll(styles: map<string, Style>, hs: seq<Hotspot>, f: Frame): (r: map<string, Style>)
    ensures r.Keys == styles.Keys
    decreases |hs|
  {
    if hs == [] then styles
    else PlaceOne(PlaceAll(styles, hs[..|hs| - 1], f), hs[|hs| - 1], f)
  }

  predicate DistinctIds(hs: seq<Hotspot>) {
    forall a, b :: 0 <= a < b < |hs| ==> hs[a].id != hs[b].id
  }

  predicate HasId(hs: seq<Hotspot>, id: string) {
    exists k :: 0 <= k < |hs| && hs[k].id == id
  }

  /** An element whose id no hotspot carries keeps its style. */
  lemma {:induction false} PlaceAllUntouched(styles: map<string, Style>, hs: seq<Hotspot>, f: Frame, id: string)
    requires id in styles && !HasId(hs, id)
    ensures id in PlaceAll(styles, hs, f) && PlaceAll(styles, hs, f)[id] == styles[id]
    decreases |hs|
  {
    if hs != [] {
      var init := hs[..|hs| - 1];
      assert !HasId(init, id);
      PlaceAllUntouched(styles, init, f, id);
    }
  }

  /**
   * With distinct ids, the loop leaves each hotspot's element styled from that hotspot's
   * own projection, whatever the other hotspots did.
   */
  lemma {:induction false} PlaceAllEach(styles: map<string, Style>, hs: seq<Hotspot>, f: Frame, k: nat)
    requires DistinctIds(hs) && k < |hs| && hs[k].id in styles
    ensures PlaceAll(styles, hs, f)[hs[k].id] == Place(styles[hs[k].id], NdcOf(hs[k], f), f.width, f.height)
    decreases |hs|
  {
    var init := hs[..|hs| - 1];
    var last := hs[|hs| - 1];
    if k == |hs| - 1 {
      assert !HasId(init, last.id);
      PlaceAllUntouched(styles, init, f, last.id);
    } else {
      assert init[k] == hs[k];
      assert last.id != hs[k].id;
      PlaceAllEach(styles, init, f, k);
    }
  }

  /**
   * After the loop, with distinct ids, a hotspot's element is hidden exactly when its NDC depth
   * lies outside [-1, 1], and otherwise sits at the projected pixel.
   */
  lemma PlaceAllHiddenIff(styles: map<string, Style>, hs: seq<Hotspot>, f: Frame, k: nat)
    requires DistinctIds(hs) && k < |hs| && hs[k].id in styles
    ensures var s := PlaceAll(styles, hs, f)[hs[k].id];
      && (s.display == Hidden <==> IsBehind(NdcOf(hs[k], f)))
      && (s.display != Hidden ==> s.at == Project(NdcOf(hs[k], f), f.width, f.height))
  {
    PlaceAllEach(styles, hs, f, k);
  }

  /** Before the model is loaded a hotspot is projected from its anchor as given. */
  lemma NoModelUsesAnchor(h: Hotspot, f: Frame)
    requires f.modelMatrix.None?
    ensures NdcOf(h, f) == f.project(h.position, f.camera)
  {
  }

  /** The shipped hotspots have distinct ids, so PlaceAllEach applies to them. */
  lemma ViewerHotspotsDistinct()
    ensures DistinctIds(ViewerHotspots())
  {
  }
}
