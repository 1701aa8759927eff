/** One output's allocation problem as a value, and the rules a placement must obey (alloc.c). */
module Scenes {
  import opened Props
  import opened Atomic
  import opened Hardware

  /** Planes in device order, layers in output order. */
  datatype Scene = Scene(planes: seq<PlaneInfo>, layers: seq<LayerFacts>, comp: Option<nat>,
                         crtcIndex: nat, crtcId: uint32)

  /** The layer chosen for each plane so far, as an index into the scene's layers. */
  type Alloc = seq<Option<nat>>

  predicate WellFormed(s: Scene) {
    && s.crtcIndex < 32
    && (s.comp.Some? ==> s.comp.value < |s.layers|)
    && AllBasic(s.planes) && DistinctIds(s.planes)
  }

  predicate Fits(s: Scene, a: Alloc) {
    && |a| <= |s.planes|
    && forall i :: 0 <= i < |a| && a[i].Some? ==> a[i].value < |s.layers|
  }

  /** A placed layer on a plane that is not a primary plane. */
  predicate OnOverlay(s: Scene, a: Alloc, i: nat)
    requires Fits(s, a)
  {
    i < |a| && a[i].Some? && s.planes[i].kind != PRIMARY
  }

  predicate Above(s: Scene, k: nat, j: nat)
    requires k < |s.layers| && j < |s.layers|
  {
    && s.layers[j].zpos.Some? && s.layers[k].zpos.Some?
    && s.layers[k].zpos.value > s.layers[j].zpos.value
    && Overlap(s.layers[j].rect, s.layers[k].rect)
  }

  /** has_composited_layer_over */
  ghost predicate CompositedOver(s: Scene, p: Alloc, j: nat)
    requires j < |s.layers|
  {
    exists k :: 0 <= k < |s.layers| && Some(k) !in p && Above(s, k, j)
  }

  /** has_allocated_layer_over */
  ghost predicate AllocatedOver(s: Scene, p: Alloc, j: nat)
    requires Fits(s, p) && j < |s.layers|
  {
    exists i :: 0 <= i < |p| && OnOverlay(s, p, i) && Above(s, j, p[i].value)
  }

  /** has_allocated_plane_under, for the plane that comes after the prefix `p` */
  ghost predicate PlaneUnder(s: Scene, p: Alloc, j: nat)
    requires Fits(s, p) && |p| < |s.planes| && j < |s.layers|
  {
    exists i :: 0 <= i < |p| && OnOverlay(s, p, i) && s.planes[|p|].zpos >= s.planes[i].zpos &&
                Overlap(s.layers[j].rect, s.layers[p[i].value].rect)
  }

  /** last_layer_zpos after the choices in `p` */
  function LastZpos(s: Scene, p: Alloc): int32
    requires Fits(s, p)
  {
    if |p| == 0 then INT_MAX
    else
      var c := p[|p| - 1];
      if c.Some? && s.planes[|p| - 1].kind != PRIMARY && s.layers[c.value].zpos.Some?
      then ToInt32(s.layers[c.value].zpos.value)
      else LastZpos(s, p[..|p| - 1])
  }

  /** check_layer_plane_compatible, without the test that has_allocated_layer_over decides */
  ghost predicate CompatibleWithoutVeto(s: Scene, p: Alloc, j: nat)
    requires Fits(s, p) && |p| < |s.planes| && j < |s.layers|
  {
    var z := s.layers[j].zpos;
    && Some(j) !in p
    && !(z.Some? && ToInt32(z.value) < LastZpos(s, p) && PlaneUnder(s, p, j))
    && (s.planes[|p|].kind != PRIMARY ==> !CompositedOver(s, p, j) && s.comp != Some(j))
  }

  /** check_layer_plane_compatible */
  ghost predicate Compatible(s: Scene, p: Alloc, j: nat)
    requires Fits(s, p) && |p| < |s.planes| && j < |s.layers|
  {
    var z := s.layers[j].zpos;
    && CompatibleWithoutVeto(s, p, j)
    && !(z.Some? && ToInt32(z.value) > LastZpos(s, p) && AllocatedOver(s, p, j))
  }

  /** A search: the scene, which planes nobody holds, and the request it starts from. */
  datatype Search = Search(scene: Scene, free: seq<bool>, base: seq<Entry>)

  predicate SearchOk(q: Search) {
    WellFormed(q.scene) && |q.free| == |q.scene.planes|
  }

  /** What the choice for plane number `i` adds to the request. */
  function ChoiceWrites(s: Scene, i: nat, c: Option<nat>): (w: seq<Entry>)
    requires WellFormed(s) && i < |s.planes| && (c.Some? ==> c.value < |s.layers|)
    ensures Only(w, s.planes[i].id)
  {
    assert HasBasics(s.planes[i]);
    if c.Some? then EnableWrites(s.planes[i], s.crtcId, s.layers[c.value].props) else []
  }

  /** The request after the choices in `a`. */
  function RequestFor(q: Search, a: Alloc): seq<Entry>
    requires SearchOk(q) && Fits(q.scene, a)
  {
    if |a| == 0 then q.base
    else RequestFor(q, a[..|a| - 1]) + ChoiceWrites(q.scene, |a| - 1, a[|a| - 1])
  }

  /** The plane after the prefix may be used at all. */
  predicate Usable(q: Search, i: nat)
    requires SearchOk(q) && i < |q.scene.planes|
  {
    q.free[i] && CanDrive(q.scene.planes[i], q.scene.crtcIndex)
  }

  /** The checks of one placement other than the kernel's. */
  ghost predicate Proposed(q: Search, p: Alloc, j: nat)
    requires SearchOk(q) && Fits(q.scene, p) && |p| < |q.scene.planes|
  {
    && j < |q.scene.layers|
    && Usable(q, |p|)
    && !q.scene.layers[j].forced && q.scene.layers[j].visible
    && Compatible(q.scene, p, j)
    && Supports(q.scene.planes[|p|], q.scene.layers[j].props)
  }

  /** Layer `j` passes every check for the plane after the prefix `p`, the test commit included:
      `ok` holds the requests the kernel accepts. */
  ghost predicate Placeable(q: Search, ok: iset<seq<Entry>>, p: Alloc, j: nat)
    requires SearchOk(q) && Fits(q.scene, p) && |p| < |q.scene.planes|
  {
    Proposed(q, p, j) && RequestFor(q, p + [Some(j)]) in ok
  }

  /** Every choice was possible after the choices before it. */
  ghost predicate Admissible(q: Search, ok: iset<seq<Entry>>, a: Alloc)
    requires SearchOk(q)
  {
    Fits(q.scene, a) &&
    forall i {:trigger Placeable(q, ok, a[..i], a[i].value)} :: 0 <= i < |a| && a[i].Some? ==>
      Placeable(q, ok, a[..i], a[i].value)
  }

  /** The number of layers in planes, the composition layer not counted. */
  function Score(s: Scene, a: Alloc): (r: nat)
    ensures r <= |a|
  {
    if |a| == 0 then 0
    else Score(s, a[..|a| - 1]) + if a[|a| - 1].Some? && a[|a| - 1] != s.comp then 1 else 0
  }

  predicate Composited(s: Scene, a: Alloc) {
    s.comp.Some? && s.comp in a
  }

  /** The layers that have to be shown somehow, the composition layer left out. */
  ghost function ToShow(s: Scene): set<nat> {
    set j | 0 <= j < |s.layers| && s.layers[j].visible && s.comp != Some(j)
  }

  /** check_alloc_valid */
  ghost predicate Acceptable(s: Scene, a: Alloc) {
    && !(s.comp.Some? && !Composited(s, a) && Score(s, a) != |ToShow(s)|)
    && !(Composited(s, a) && Score(s, a) == |ToShow(s)|)
  }

  lemma AdmissiblePrefix(q: Search, ok: iset<seq<Entry>>, a: Alloc, n: nat)
    requires SearchOk(q) && Admissible(q, ok, a) && n <= |a|
    ensures Admissible(q, ok, a[..n])
  {
    forall i | 0 <= i < n && a[..n][i].Some?
      ensures Placeable(q, ok, a[..n][..i], a[..n][i].value)
    {
      assert a[..n][..i] == a[..i];
    }
  }

  lemma AdmissibleExtend(q: Search, ok: iset<seq<Entry>>, p: Alloc, c: Option<nat>)
    requires SearchOk(q) && Admissible(q, ok, p) && |p| < |q.scene.planes|
    requires c.Some? ==> Placeable(q, ok, p, c.value)
    ensures Admissible(q, ok, p + [c])
  {
    var a := p + [c];
    forall i | 0 <= i < |a| && a[i].Some?
      ensures Placeable(q, ok, a[..i], a[i].value)
    {
      assert a[..i] == p[..i];
      if i == |p| {
        assert a[..i] == p;
      }
    }
  }

  lemma AdmissibleMonotone(q: Search, ok: iset<seq<Entry>>, ok': iset<seq<Entry>>, a: Alloc)
    requires SearchOk(q) && Admissible(q, ok, a) && ok <= ok'
    ensures Admissible(q, ok', a)
  {
    forall i | 0 <= i < |a| && a[i].Some?
      ensures Placeable(q, ok', a[..i], a[i].value)
    {
      assert Placeable(q, ok, a[..i], a[i].value);
    }
  }
}
