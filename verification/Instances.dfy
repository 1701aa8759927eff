/** Concrete devices and outputs on which the library misbehaves as the general theorems say it can. */
module Instances {
  import opened Props
  import opened Atomic
  import opened Hardware
  import opened Scenes
  import opened Stacking
  import opened Placements
  import opened Optimum
  import opened Cache
  import opened Registration
  import opened Objects
  import opened Applying

  // ----- two outputs and one plane -----

  /** An overlay without alpha that can drive the first CRTC only. */
  function PlainPlane(): DrmPlane {
    DrmPlane(7, 1, [DrmProp(FB_ID, 1, 0), DrmProp(CRTC_ID, 2, 0), DrmProp(TYPE, 3, OVERLAY)])
  }

  function PlainInfo(): PlaneInfo {
    PlaneInfo(7, 1, OVERLAY, 0, PlaneProps(PlainPlane().props))
  }

  lemma PlainPlaneIsPlain()
    ensures Described([], PlainPlane()) == Some(PlainInfo()) && Registered([], PlainPlane()) == [PlainInfo()]
    ensures HasBasics(PlainInfo()) && PropId(PlainInfo(), ALPHA) == None && CanDrive(PlainInfo(), 0)
  {
    var r, p := PlainPlane(), PlainInfo();
    NamesDiffer();
    assert FB_ID[0] == 'F' && CRTC_ID[0] == 'C' && TYPE[0] == 't' && ZPOS[0] == 'z' && ALPHA[0] == 'a';
    assert r.props[..2][..1] == r.props[..1] && r.props[..1][..0] == [] && r.props[..3] == r.props;
    assert Reported(r.props[..1], ZPOS) == None && Reported(r.props[..2], ZPOS) == None;
    assert p.props[0].name == FB_ID && p.props[1].name == CRTC_ID && p.props[2].name == TYPE;
    assert (1 as bv32) & ((1 as bv32) << 0) == 1;
  }

  function Opaque(): LayerState {
    LayerState([LayerProp(FB_ID, 7, 0), LayerProp(ALPHA, OPAQUE_ALPHA, 0)], false, true)
  }

  lemma BecomesOpaque(l: LayerState)
    requires l == LayerState([], false, false)
    ensures SetLayerProperty(SetLayerProperty(l, FB_ID, 7), ALPHA, OPAQUE_ALPHA) == Opaque()
    ensures Facts(Opaque()).visible && Facts(Opaque()).zpos == None && !Facts(Opaque()).forced
    ensures Supports(PlainInfo(), Opaque().props)
  {
    hide PlainInfo;
    NamesDiffer();
    assert FB_ID[0] == 'F' && CRTC_ID[0] == 'C' && ALPHA[0] == 'a' && ZPOS[0] == 'z';
    assert |FB_ID| == 5 && |ALPHA| == 5;
    var p := Opaque().props;
    assert p[0].name == FB_ID && p[1].name == ALPHA;
    OpaqueFits();
  }

  lemma OpaqueFits()
    ensures Supports(PlainInfo(), Opaque().props)
  {
    PlainPlaneIsPlain();
    var p := Opaque().props;
    assert PropFits(PlainInfo(), p[0]) && PropFits(PlainInfo(), p[1]);
  }

  lemma BecomesTranslucent()
    ensures !Supports(PlainInfo(), SetLayerProperty(MarkedClean(Opaque()), ALPHA, 0x8000).props)
  {
    NamesDiffer();
    PlainPlaneIsPlain();
    assert FB_ID[0] == 'F' && CRTC_ID[0] == 'C' && ALPHA[0] == 'a' && ZPOS[0] == 'z' && ROTATION[0] == 'r';
    var p := MarkedClean(Opaque()).props;
    assert p[0].name == FB_ID && p[1].name == ALPHA && Find(p, ALPHA) == 1;
    assert !PropFits(PlainInfo(), SetLayerProperty(MarkedClean(Opaque()), ALPHA, 0x8000).props[1]);
  }

  /** The first output before its first apply. */
  function Opened(): OutputState {
    OutputState([PlainInfo()], [Opaque()], None, 0, 10, true, [None])
  }

  /** One usable plane and one layer that fits it. */
  ghost predicate SinglePair(q: Search) {
    && SearchOk(q) && |q.scene.planes| == 1 && |q.scene.layers| == 1 && q.scene.comp == None && Usable(q, 0)
    && q.scene.layers[0].visible && !q.scene.layers[0].forced && q.scene.layers[0].zpos == None
    && Supports(q.scene.planes[0], q.scene.layers[0].props)
  }

  lemma SinglePairFits(q: Search, ok: iset<seq<Entry>>)
    requires SinglePair(q) && forall r :: r in ok
    ensures Admissible(q, ok, [Some(0)]) && Acceptable(q.scene, [Some(0)]) && Score(q.scene, [Some(0)]) == 1
  {
    hide Supports, WellFormed;
    var a: Alloc := [Some(0)];
    assert a[..0] == [] && Compatible(q.scene, [], 0);
    assert Placeable(q, ok, a[..0], 0);
  }

  /** A kernel that accepts everything lets the search place the layer. */
  lemma OnlyLayerIsPlaced(q: Search, ok: iset<seq<Entry>>, b: Best)
    requires SinglePair(q) && forall r :: r in ok
    requires Searched(q, ok, [], Best(-1, Nowhere(1)), b)
    ensures b.alloc == [Some(0)]
  {
    hide Supports, WellFormed, Admissible, Acceptable, Searched;
    SinglePairFits(q, ok);
    SearchedIsMaximum(q, ok, Best(-1, Nowhere(1)), b);
    assert |b.alloc| == 1;
    ScoreOfOne(q.scene, b.alloc);
    AdmissibleFits(q, ok, b.alloc);
  }

  lemma ScoreOfOne(s: Scene, a: Alloc)
    requires |a| == 1 && Score(s, a) > 0
    ensures a[0].Some?
  {
    assert a[..0] == [];
  }

  lemma AdmissibleFits(q: Search, ok: iset<seq<Entry>>, a: Alloc)
    requires SearchOk(q) && Admissible(q, ok, a)
    ensures Fits(q.scene, a)
  {
  }

  lemma OpenedIsSinglePair(q: Search)
    requires SearchOk(q) && q.scene == Current(Opened()) && q.free == [true]
    ensures SinglePair(q)
  {
    hide Facts, PlainInfo, Opaque, Supports, WellFormed;
    BecomesOpaque(LayerState([], false, false));
    PlainPlaneIsPlain();
    assert q.scene.layers == [Facts(Opaque())] by {
      assert Current(Opened()).layers[0] == Facts(Opaque());
    }
    assert Facts(Opaque()).props == Opaque().props by { SameProps(Opaque()); }
  }

  lemma SameProps(l: LayerState)
    ensures Facts(l).props == l.props
  {
  }

  /** A device with that plane and a kernel that accepts everything. */
  method NewDevice() returns (device: Device, plane: Plane)
    ensures fresh(device) && fresh(plane) && fresh(device.kernel)
    ensures device.Valid() && device.planes == [plane] && device.outputs == [] && device.crtcs == [10, 11]
    ensures plane.info == PlainInfo() && plane.layer == null
    ensures device.kernel.Valid() && forall n, r :: device.kernel.answer(n, r) == 0
  {
    hide PlainInfo, Described, View;
    PlainPlaneIsPlain();
    var kernel := new Kernel((n: nat, r: seq<Entry>) => 0);
    device := new Device([10, 11], kernel);
    var p, errno := device.CreatePlane(PlainPlane());
    assert Infos(device.planes) == [PlainInfo()];
    assert |device.planes| == 1 && device.planes[0] in device.planes;
    plane := p;
    assert device.planes == [plane];
  }

  /** An output that has no layer yet. */
  function Empty(crtcIndex: nat, crtcId: uint32): OutputState {
    OutputState([PlainInfo()], [], None, crtcIndex, crtcId, false, [None])
  }

  method NewOutputs(device: Device, plane: Plane) returns (first: Output, second: Output)
    requires device.Valid() && device.planes == [plane] && device.outputs == [] && device.crtcs == [10, 11]
    requires plane.info == PlainInfo() && plane.layer == null
    modifies device`outputs
    ensures fresh(first) && fresh(second) && first != second && first.device == device && second.device == device
    ensures device.Valid() && device.outputs == [second, first]
    ensures first.layers == [] && second.layers == [] && View(first) == Empty(0, 10)
  {
    hide PlainInfo, Device.Valid;
    var o := device.CreateOutput(10);
    first := o;
    assert View(first).mapping == [None];
    o := device.CreateOutput(11);
    second := o;
  }

  /** Gives the output its opaque layer. */
  method AddLayer(first: Output) returns (layer: Layer)
    requires first.device.Valid() && first in first.device.outputs && first.layers == []
    requires View(first) == Empty(0, 10)
    modifies first
    ensures fresh(layer) && layer.output == first && layer.ListedAt(0)
    ensures first.device.Valid() && first.layers == [layer] && View(first) == Opened()
  {
    hide PlainInfo, Opaque, SetLayerProperty, Device.Valid, View, WithPlane, Facts, Supports;
    layer := first.CreateLayer();
    BecomesOpaque(LayerState([], false, false));
    assert View(first).layers == [LayerState([], false, false)];
    assert layer.ListedAt(0);
    var _ := layer.SetProperty(FB_ID, 7, 0);
    var _ := layer.SetProperty(ALPHA, OPAQUE_ALPHA, 0);
    assert View(first).layers == [Opaque()];
  }

  /** The first apply puts the layer on the plane. */
  method ShowLayer(first: Output, plane: Plane, layer: Layer)
    requires first.device.Valid() && first in first.device.outputs && first.device.planes == [plane]
    requires plane.layer == null && first.layers == [layer] && layer.output == first && View(first) == Opened()
    requires first.device.kernel.Valid() && forall n, r :: first.device.kernel.answer(n, r) == 0
    modifies first`layersChanged, plane`layer, layer, first.device.kernel
    ensures first.device.Valid() && first.device.kernel.Valid()
    ensures View(first) == Reallocated(Opened(), [Some(0)]) && plane.layer == layer && layer.ListedAt(0)
  {
    hide PlainInfo, Opaque, View, Recomputed, OnlyOwnMoved, Reallocated, Holders, Current, Reusable, SearchFrom,
      ProblemOf;
    OpenedIsCached(first);
    assert OthersFit(first);
    var req := new Request();
    ghost var holders := Holders(first.device.planes);
    var o, reused, q, found := Applying.Apply(first, req);
    LayerShown(first, layer, plane, req.Contents(), q, found, holders, old(first.device.kernel.log));
  }

  lemma OpenedIsCached(first: Output)
    requires first.device.Valid() && first in first.device.outputs && View(first) == Opened()
    ensures Cached(View(first)) && Dirty(View(first))
  {
    ViewConsistent(first);
  }

  lemma LayerShown(first: Output, layer: Layer, plane: Plane, contents: seq<Entry>, q: Search, found: Best,
                   holders: seq<Layer?>, log: seq<Test>)
    requires Recomputed(first, contents, q, found, Opened(), holders, [], log) && holders == [null]
    requires first.device.planes == [plane] && first.layers == [layer]
    requires first.device.kernel.Valid() && forall n, r :: first.device.kernel.answer(n, r) == 0
    ensures View(first) == Reallocated(Opened(), [Some(0)]) && plane.layer == layer
  {
    hide PlainInfo, Opaque, Reallocated, Sound, Searched, Current, AllBasic;
    OpenedIsSinglePair(q);
    OnlyLayerIsPlaced(q, first.device.kernel.Accepts(), found);
    assert View(first).mapping == [Some(0)] by { MappingOfReallocated(Opened(), [Some(0)]); }
  }

  lemma MappingOfReallocated(v: OutputState, m: Alloc)
    ensures Reallocated(v, m).mapping == m
  {
  }

  method MakeTranslucent(first: Output, layer: Layer)
    requires layer.output == first && layer.ListedAt(0) && View(first) == Reallocated(Opened(), [Some(0)])
    modifies layer`props, layer`changed, layer`forceComposition
    ensures first.device.Valid() && !Supports(PlainInfo(), layer.props)
  {
    hide PlainInfo, Opaque, SetLayerProperty, Supports, MarkedClean, Device.Valid;
    BecomesTranslucent();
    assert View(first).layers[0] == MarkedClean(Opaque());
    var _ := layer.SetProperty(ALPHA, 0x8000, 0);
    assert View(first).layers[0] == layer.State();
  }

  /** Apply the first output, make its layer translucent, apply the second output: the assertion in
      apply_current fails, although the kernel accepts everything. */
  method SecondOutputAborts() returns (o: Outcome)
    ensures o == AssertionFailed
  {
    hide PlainInfo, Opaque, View, Reallocated, Supports, DistinctIds, Sorted, HasBasics, Recomputed, Reusable,
      SearchFrom, ProblemOf;
    var req := new Request();
    var device, plane := NewDevice();
    var first, second := NewOutputs(device, plane);
    var layer := AddLayer(first);
    ShowLayer(first, plane, layer);
    MakeTranslucent(first, layer);
    assert !HolderFits(second, plane);
    ghost var reused, q, found;
    o, reused, q, found := Applying.Apply(second, req);
  }
}
