/** One output with a composition layer on three planes, brought by calls of the library into states whose
    mapping is used again although it is no longer sound, or no longer follows the composition rule. */
module Desktops {
  import opened Sequences
  import opened Props
  import opened Atomic
  import opened Hardware
  import opened Scenes
  import opened Stacking
  import opened Composition
  import opened Placements
  import opened PlaneChanges
  import opened PlaneOrder
  import opened Optimum
  import opened Walks
  import opened Cache
  import opened Registration
  import opened Objects
  import opened Emission
  import opened Applying

  // ----- the planes -----

  function SizedDrm(id: uint32, kind: uint32, zpos: uint32): DrmPlane {
    DrmPlane(id, 1, [DrmProp(FB_ID, 1, 0), DrmProp(CRTC_ID, 2, 0), DrmProp(CRTC_W, 3, 0), DrmProp(CRTC_H, 4, 0),
                     DrmProp(TYPE, 5, kind), DrmProp(ZPOS, 6, zpos)])
  }

  function SizedPlane(id: uint32, kind: uint32, zpos: uint32): PlaneInfo {
    PlaneInfo(id, 1, kind, ToInt32(zpos), PlaneProps(SizedDrm(id, kind, zpos).props))
  }

  lemma SizedIsDescribed(planes: seq<PlaneInfo>, id: uint32, kind: uint32, zpos: uint32)
    ensures Described(planes, SizedDrm(id, kind, zpos)) == Some(SizedPlane(id, kind, zpos))
  {
    var p := SizedDrm(id, kind, zpos).props;
    assert TYPE[0] == 't' && ZPOS[0] == 'z';
    assert p[0].name == FB_ID && p[1].name == CRTC_ID && p[4].name == TYPE && p[5].name == ZPOS;
    assert Reported(p, ZPOS) == Some(zpos);
    assert p[..5][4] == p[4] && Reported(p[..5], TYPE) == Some(kind);
  }

  lemma SizedFits(id: uint32, kind: uint32, zpos: uint32, z: uint64)
    ensures var p := SizedPlane(id, kind, zpos);
            HasBasics(p) && CanDrive(p, 0) && Supports(p, Pixel(z)) && Supports(p, Bare())
  {
    var p := SizedPlane(id, kind, zpos);
    assert p.props[0].name == FB_ID && p.props[1].name == CRTC_ID;
    assert p.props[2].name == CRTC_W && p.props[3].name == CRTC_H;
    assert HasBasics(p) && HasSize(p);
    PixelsFit(p, z);
    assert PropFits(p, Bare()[0]);
    assert (1 as bv32) & ((1 as bv32) << 0) == 1;
  }

  lemma SizedShape(id: uint32, kind: uint32, zpos: uint32)
    requires zpos <= INT_MAX
    ensures SizedDrm(id, kind, zpos).id == id
    ensures var p := SizedPlane(id, kind, zpos); p.id == id && p.kind == kind && p.zpos == zpos
  {
  }

  function Planes(): seq<PlaneInfo> {
    [SizedPlane(1, PRIMARY, 0), SizedPlane(2, OVERLAY, 2), SizedPlane(3, OVERLAY, 1)]
  }

  /** Registering the overlays and then the primary plane gives this list. */
  lemma PlanesAreRegistered()
    ensures Registered([], SizedDrm(3, OVERLAY, 1)) == Planes()[2..]
    ensures Registered(Planes()[2..], SizedDrm(2, OVERLAY, 2)) == Planes()[1..]
    ensures Registered(Planes()[1..], SizedDrm(1, PRIMARY, 0)) == Planes()
  {
    hide Described, HasBasics, SizedPlane, SizedDrm;
    SizedShape(1, PRIMARY, 0);
    SizedShape(2, OVERLAY, 2);
    SizedShape(3, OVERLAY, 1);
    SizedIsDescribed([], 3, OVERLAY, 1);
    SizedIsDescribed(Planes()[2..], 2, OVERLAY, 2);
    SizedIsDescribed(Planes()[1..], 1, PRIMARY, 0);
  }

  // ----- the layers -----

  /** A visible layer with neither size nor zpos. */
  function Bare(): seq<LayerProp> {
    [LayerProp(FB_ID, 1, 1)]
  }

  lemma BareFacts()
    ensures FactsOf(Bare(), false) == LayerFacts(true, false, None, Rect(0, 0, 0, 0), Bare())
  {
    PixelNames();
    assert Bare()[0].name == FB_ID;
  }

  /** A layer that must be composited. */
  function Forced(): seq<LayerProp> {
    [LayerProp(FB_ID, 0, 0)]
  }

  lemma ForcedFacts()
    ensures FactsOf(Forced(), true).visible && FactsOf(Forced(), true).forced && FactsOf(Forced(), true).zpos == None
  {
    PixelNames();
    assert Forced()[0].name == FB_ID;
  }

  /** The same properties before anything was marked clean. */
  function Unsaved(props: seq<LayerProp>): (r: seq<LayerProp>)
    ensures |r| == |props|
  {
    seq(|props|, k requires 0 <= k < |props| => props[k].(prevValue := 0))
  }

  predicate Saved(props: seq<LayerProp>) {
    forall k :: 0 <= k < |props| ==> props[k].value == props[k].prevValue
  }

  lemma SavingLayer(props: seq<LayerProp>, forced: bool)
    requires Saved(props)
    ensures MarkedClean(LayerState(Unsaved(props), forced, true)) == LayerState(props, forced, false)
    ensures CleanedLayer(LayerState(props, forced, false)) == LayerState(props, forced, false)
    ensures !NeedsRealloc(LayerState(props, forced, false))
  {
    assert Cleaned(props) == props;
    assert MarkedClean(LayerState(Unsaved(props), forced, true)).props == props;
  }

  // ----- the output -----

  /** The composition layer, two overlapping layers, the upper one first, and one that must be composited. */
  function Kinds(): (r: seq<(seq<LayerProp>, bool)>)
    ensures |r| == 4
  {
    [(Bare(), false), (Pixel(2), false), (Pixel(1), false), (Forced(), true)]
  }

  /** Before the first apply. */
  function Prepared(): OutputState {
    OutputState(Planes(), seq(4, j requires 0 <= j < 4 => LayerState(Unsaved(Kinds()[j].0), Kinds()[j].1, true)),
                Some(0), 0, 10, true, [None, None, None])
  }

  /** The composition layer is on the primary plane and the overlapping layers are on the overlays. */
  function Desktop(): OutputState {
    OutputState(Planes(), seq(4, j requires 0 <= j < 4 => LayerState(Kinds()[j].0, Kinds()[j].1, false)),
                Some(0), 0, 10, false, [Some(0), Some(1), Some(2)])
  }

  lemma KindsAreSaved(j: nat)
    requires j < 4
    ensures Saved(Kinds()[j].0)
  {
  }

  lemma DesktopIsReallocated()
    ensures Reallocated(Prepared(), [Some(0), Some(1), Some(2)]) == Desktop()
    ensures Remembered(Desktop()) == Current(Desktop()) && !Dirty(Desktop())
    ensures SameScene(Current(Prepared()), Current(Desktop()))
  {
    hide Kinds, Planes, Facts, MarkedClean, Unsaved, NeedsRealloc;
    var v, w := Prepared(), Desktop();
    forall j | 0 <= j < 4
      ensures MarkedClean(v.layers[j]) == w.layers[j] && CleanedLayer(w.layers[j]) == w.layers[j]
      ensures !NeedsRealloc(w.layers[j])
    {
      KindsAreSaved(j);
      SavingLayer(Kinds()[j].0, Kinds()[j].1);
    }
    assert Reallocated(v, w.mapping).layers == w.layers;
    assert Remembered(w).layers == Current(w).layers;
    ReallocatedIsSame(v, w.mapping);
  }

  /** What matters about the scene of this output. */
  ghost predicate DesktopScene(s: Scene) {
    && |s.planes| == 3 && |s.layers| == 4 && s.comp == Some(0) && s.crtcIndex == 0
    && AllBasic(s.planes) && DistinctIds(s.planes)
    && s.planes[0].kind == PRIMARY && s.planes[1].kind == OVERLAY && s.planes[2].kind == OVERLAY
    && s.planes[1].zpos == 2 && s.planes[2].zpos == 1
    && s.layers[0].zpos == None && s.layers[1].zpos == Some(2) && s.layers[2].zpos == Some(1)
    && s.layers[3].zpos == None && Overlap(s.layers[2].rect, s.layers[1].rect)
    && (forall j :: 0 <= j < 4 ==> s.layers[j].visible && s.layers[j].forced == (j == 3))
    && (forall i :: 0 <= i < 3 ==> CanDrive(s.planes[i], 0) && Supports(s.planes[i], s.layers[i].props))
  }

  lemma PlanesFit()
    ensures AllBasic(Planes())
    ensures forall i, z :: 0 <= i < 3 ==>
      var p := Planes()[i]; CanDrive(p, 0) && Supports(p, Pixel(z)) && Supports(p, Bare())
  {
    hide Supports, Pixel, Bare, SizedPlane;
    forall z: uint64
      ensures forall i :: 0 <= i < 3 ==>
        var p := Planes()[i]; HasBasics(p) && CanDrive(p, 0) && Supports(p, Pixel(z)) && Supports(p, Bare())
    {
      SizedFits(1, PRIMARY, 0, z);
      SizedFits(2, OVERLAY, 2, z);
      SizedFits(3, OVERLAY, 1, z);
    }
    assert forall i :: 0 <= i < 3 ==> Supports(Planes()[i], Pixel(0));
  }

  lemma IdsDiffer()
    ensures DistinctIds(Planes())
  {
  }

  lemma PlaneKinds()
    ensures |Planes()| == 3 && Planes()[0].id == 1
    ensures Planes()[0].kind == PRIMARY && Planes()[1].kind == OVERLAY && Planes()[2].kind == OVERLAY
    ensures Planes()[1].zpos == 2 && Planes()[2].zpos == 1
  {
  }

  lemma DesktopHasScene()
    ensures DesktopScene(Current(Desktop())) && DesktopScene(Current(Prepared()))
  {
    hide FactsOf, Pixel, Bare, Forced, Supports, Planes;
    PlanesFit();
    IdsDiffer();
    PlaneKinds();
    BareFacts();
    ForcedFacts();
    PixelFacts(2);
    PixelFacts(1);
    assert DesktopScene(Current(Desktop()));
    DesktopIsReallocated();
    SceneIsAlike(Current(Prepared()), Current(Desktop()));
  }

  lemma SceneIsAlike(s: Scene, t: Scene)
    requires DesktopScene(t) && SameScene(s, t)
    ensures DesktopScene(s)
  {
    forall j | 0 <= j < 4
      ensures Alike(s.planes, s.layers[j], t.layers[j])
    {
    }
  }

  // ----- what the search finds -----

  lemma ScoreOfThree(s: Scene, a: Alloc)
    requires |a| == 3
    ensures Score(s, a) == (if a[0].Some? && a[0] != s.comp then 1 else 0) +
                           (if a[1].Some? && a[1] != s.comp then 1 else 0) +
                           (if a[2].Some? && a[2] != s.comp then 1 else 0)
  {
    assert a[..2][..1] == a[..1] && a[..1][..0] == [];
    assert Score(s, a[..1]) == if a[0].Some? && a[0] != s.comp then 1 else 0;
    assert Score(s, a[..2]) == Score(s, a[..1]) + if a[1].Some? && a[1] != s.comp then 1 else 0;
  }

  lemma DesktopMapping(s: Scene)
    requires DesktopScene(s)
    ensures var a := [Some(0), Some(1), Some(2)];
            && WellFormed(s) && Sound(s, a) && Sorted(s.planes) && IntZpos(s, a) && CompositionRule(s, a)
            && RuleStays(s, a, 1) && !CoversNothing(s, a, 1) && ToShow(s) != {} && Score(s, a) == 2
  {
    hide Supports, AllBasic, Overlap, Score;
    var a: Alloc := [Some(0), Some(1), Some(2)];
    assert Some(3) !in a && 3 in ToShow(s);
    assert Over(s, a, 1, 2);
    assert a[..2][1] == Some(1);
    ScoreOfThree(s, a);
  }

  /** No other sound mapping scores as much. */
  lemma DesktopIsUnique(s: Scene, a: Alloc)
    requires DesktopScene(s) && WellFormed(s) && Sound(s, a) && CompositionRule(s, a) && Score(s, a) >= 2
    ensures a == [Some(0), Some(1), Some(2)]
  {
    hide Supports, AllBasic, Separated, WellFormed;
    forall i: nat | i < 3 && a[i].Some?
      ensures a[i].value != 3 && (a[i].value == 0 ==> i == 0)
    {
      assert Scannable(s, i, a[i].value);
    }
    assert 3 in ToShow(s) && Some(3) !in a;
    ScoreOfThree(s, a);
    assert OnOverlay(s, a, 1) && a[..1] == [Some(0)];
    assert !Above(s, 1, a[1].value);
  }

  /** A search on this output whose requests the kernel accepts. */
  ghost predicate DesktopSearch(q: Search, ok: iset<seq<Entry>>) {
    SearchOk(q) && DesktopScene(q.scene) && q.free == [true, true, true] && forall r :: q.base <= r ==> r in ok
  }

  lemma DesktopZpos(s: Scene)
    requires DesktopScene(s)
    ensures var a := [Some(0), Some(1), Some(2)];
            Fits(s, a) && LastZpos(s, a[..0]) == INT_MAX && LastZpos(s, a[..1]) == INT_MAX && LastZpos(s, a[..2]) == 2
  {
    hide Supports, AllBasic, Overlap;
    var a: Alloc := [Some(0), Some(1), Some(2)];
    assert a[..1][..0] == [] && a[..2][..1] == a[..1];
  }

  lemma DesktopCompatible(s: Scene, t: nat)
    requires DesktopScene(s) && t < 3
    ensures var a := [Some(0), Some(1), Some(2)];
            Fits(s, a) && Compatible(s, a[..t], t)
  {
    hide Supports, AllBasic, Overlap, LastZpos;
    var a: Alloc := [Some(0), Some(1), Some(2)];
    DesktopZpos(s);
    assert t > 1 ==> a[..t][1] == Some(1);
  }

  lemma DesktopAdmissible(q: Search, ok: iset<seq<Entry>>)
    requires DesktopSearch(q, ok)
    ensures Admissible(q, ok, [Some(0), Some(1), Some(2)])
  {
    hide Supports, AllBasic, Overlap, Compatible, RequestFor;
    var a: Alloc := [Some(0), Some(1), Some(2)];
    forall t | 0 <= t < 3
      ensures Placeable(q, ok, a[..t], a[t].value)
    {
      DesktopCompatible(q.scene, t);
      RequestExtends(q, a[..t] + [a[t]]);
    }
  }

  lemma DesktopFound(q: Search, ok: iset<seq<Entry>>, b: Best)
    requires DesktopSearch(q, ok) && Searched(q, ok, [], Best(-1, Nowhere(3)), b)
    ensures b.alloc == [Some(0), Some(1), Some(2)]
  {
    hide Searched, Admissible, Sound, CompositionRule, Acceptable, DesktopScene, Score;
    var a: Alloc := [Some(0), Some(1), Some(2)];
    DesktopMapping(q.scene);
    DesktopAdmissible(q, ok);
    SoundIsAcceptable(q.scene, a);
    DesktopHasThree(q.scene);
    SearchedIsMaximum(q, ok, Best(-1, Nowhere(3)), b);
    SearchResultIsSound(q, ok, b.alloc);
    DesktopIsUnique(q.scene, b.alloc);
  }

  lemma DesktopHasThree(s: Scene)
    requires DesktopScene(s)
    ensures |s.planes| == 3
  {
  }

  lemma SoundIsAcceptable(s: Scene, a: Alloc)
    requires WellFormed(s) && Sound(s, a) && CompositionRule(s, a)
    ensures Acceptable(s, a)
  {
    PlacedVisible(s, a);
    AllOrComposite(s, a);
  }

  // ----- the driver -----

  /** A driver that accepts everything except requests that begin with a certain object, which it answers with
      an I/O error. */
  function Touchy(n: nat, r: seq<Entry>): int {
    if |r| > 0 && r[0].obj == 99 then -5 else 0
  }

  lemma {:induction false} FlattenStarts(w: seq<seq<Entry>>)
    requires |w| > 0 && |w[0]| > 0
    ensures |Flatten(w)| > 0 && Flatten(w)[0] == w[0][0]
  {
    if |w| > 1 {
      FlattenStarts(w[..|w| - 1]);
    } else {
      assert Flatten(w[..0]) == [];
    }
  }

  /** Writing every plane begins with the primary plane. */
  lemma WholeIsTolerated(planes: seq<PlaneInfo>, hs: seq<Option<Held>>)
    requires |hs| == |planes| > 0 && AllBasic(planes) && planes[0].id != 99
    ensures Touchy(0, Flatten(CurrentBatches(planes, hs))) == 0
  {
    var w := CurrentBatches(planes, hs);
    assert w[0] == CurrentWrites(planes[0], hs[0]);
    FlattenStarts(w);
  }

  /** And so does switching every plane off. */
  lemma OffIsTolerated(planes: seq<PlaneInfo>, free: seq<bool>, r: seq<Entry>)
    requires |free| == |planes| > 0 && AllBasic(planes) && planes[0].id != 99 && free[0]
    requires Flatten(DisableBatches(planes, free)) <= r
    ensures Touchy(0, r) == 0
  {
    var w := DisableBatches(planes, free);
    assert HasBasics(planes[0]) && w[0] == DisableWrites(planes[0]);
    FlattenStarts(w);
  }

  // ----- building it -----

  method NewDevice() returns (device: Device)
    ensures fresh(device) && fresh(device.kernel) && fresh(device.planes)
    ensures device.Valid() && device.outputs == [] && device.crtcs == [10] && Infos(device.planes) == Planes()
    ensures device.kernel.Valid() && device.kernel.answer == Touchy
  {
    hide SizedDrm, SizedPlane, Registered, Described, HasBasics, View, Device.Linked, Device.OutputsOk, Device.Listed;
    PlanesAreRegistered();
    PlanesFit();
    SizedIsDescribed([], 3, OVERLAY, 1);
    SizedIsDescribed(Planes()[2..], 2, OVERLAY, 2);
    SizedIsDescribed(Planes()[1..], 1, PRIMARY, 0);
    assert HasBasics(Planes()[0]) && HasBasics(Planes()[1]) && HasBasics(Planes()[2]);
    var kernel := new Kernel(Touchy);
    device := new Device([10], kernel);
    var lower, _ := device.CreatePlane(SizedDrm(3, OVERLAY, 1));
    var upper, _ := device.CreatePlane(SizedDrm(2, OVERLAY, 2));
    var primary, _ := device.CreatePlane(SizedDrm(1, PRIMARY, 0));
    assert forall p :: p in device.planes ==> p == lower || p == upper || p == primary;
    assert forall i :: 0 <= i < |device.planes| ==> device.planes[i] in device.planes;
  }

  /** Gives the output a layer with a framebuffer. */
  method AddBare(output: Output) returns (l: Layer)
    requires output.device.Valid() && output in output.device.outputs
    modifies output
    ensures output.device.Valid() && fresh(l) && l.output == output && output.layers == old(output.layers) + [l]
    ensures View(output) == Extended(old(View(output)), LayerState(Unsaved(Bare()), false, true))
  {
    hide View, Device.Valid, WithPlane, SetLayerProperty;
    ghost var j := |output.layers|;
    BareIsSet();
    l := output.CreateLayer();
    var _ := l.SetProperty(FB_ID, 1, j);
  }

  /** The output with one more layer. */
  function Extended(v: OutputState, l: LayerState): OutputState {
    v.(layers := v.layers + [l], layersChanged := true)
  }

  lemma BareIsSet()
    ensures SetLayerProperty(LayerState([], false, false), FB_ID, 1) == LayerState(Unsaved(Bare()), false, true)
  {
    assert |FB_ID| == 5 && FB_ID[0] == 'F' && CRTC_ID[0] == 'C';
  }

  method AddPixel(output: Output, zpos: uint64) returns (l: Layer)
    requires output.device.Valid() && output in output.device.outputs
    modifies output
    ensures output.device.Valid() && fresh(l) && l.output == output && output.layers == old(output.layers) + [l]
    ensures View(output) == Extended(old(View(output)), LayerState(Unsaved(Pixel(zpos)), false, true))
  {
    hide View, Device.Valid, WithPlane, SetLayerProperty;
    ghost var j := |output.layers|;
    PixelIsSet(zpos);
    l := output.CreateLayer();
    var _ := l.SetProperty(FB_ID, 1, j);
    var _ := l.SetProperty(ZPOS, zpos, j);
    var _ := l.SetProperty(CRTC_W, 1, j);
    var _ := l.SetProperty(CRTC_H, 1, j);
  }

  lemma PixelIsSet(zpos: uint64)
    ensures var l1 := SetLayerProperty(LayerState([], false, false), FB_ID, 1);
            var l2 := SetLayerProperty(l1, ZPOS, zpos);
            var l3 := SetLayerProperty(l2, CRTC_W, 1);
            SetLayerProperty(l3, CRTC_H, 1) == LayerState(Unsaved(Pixel(zpos)), false, true)
  {
    PixelNames();
    assert |FB_ID| == 5 && |ZPOS| == 4 && |CRTC_W| == 6 && |CRTC_H| == 6 && |CRTC_ID| == 7;
  }

  /** Gives the output a layer that must be composited. */
  method AddForced(output: Output) returns (l: Layer)
    requires output.device.Valid() && output in output.device.outputs
    modifies output
    ensures output.device.Valid() && fresh(l) && l.output == output && output.layers == old(output.layers) + [l]
    ensures View(output) == Extended(old(View(output)), LayerState(Unsaved(Forced()), true, true))
  {
    hide View, Device.Valid, WithPlane, SetLayerComposited;
    ghost var j := |output.layers|;
    ForcedIsSet();
    l := output.CreateLayer();
    l.SetFbComposited(j);
  }

  lemma ForcedIsSet()
    ensures SetLayerComposited(LayerState([], false, false)) == LayerState(Unsaved(Forced()), true, true)
  {
    assert |FB_ID| == 5 && FB_ID[0] == 'F' && CRTC_ID[0] == 'C';
  }

  /** Before it has any layers. */
  function Empty(): OutputState {
    OutputState(Planes(), [], None, 0, 10, false, [None, None, None])
  }

  method NewOutput() returns (output: Output)
    ensures fresh(output) && fresh(output.device) && fresh(output.device.kernel)
    ensures fresh(output.device.planes)
    ensures output.device.Valid() && output.device.outputs == [output] && output.layers == []
    ensures View(output) == Empty()
    ensures output.device.kernel.Valid() && output.device.kernel.answer == Touchy
  {
    hide Planes, Device.Valid;
    PlaneKinds();
    var device := NewDevice();
    var o := device.CreateOutput(10);
    output := o;
    assert View(output).mapping == Empty().mapping;
  }

  /** The output before its first apply. */
  method Prepare() returns (output: Output)
    ensures fresh(output) && fresh(output.device) && fresh(output.device.kernel)
    ensures fresh(output.layers) && fresh(output.device.planes)
    ensures output.device.Valid() && output.device.outputs == [output] && View(output) == Prepared()
    ensures output.device.kernel.Valid() && output.device.kernel.answer == Touchy
  {
    hide Planes, Device.Valid, View, Unsaved, Pixel, Forced, Bare;
    output := NewOutput();
    var composition := AddBare(output);
    var upper := AddPixel(output, 2);
    var lower := AddPixel(output, 1);
    var forced := AddForced(output);
    assert composition.ListedAt(0);
    output.SetCompositionLayer(composition, 0);
    assert View(output).layers == Prepared().layers;
  }

  // ----- the first apply -----

  lemma PreparedIsFitting(output: Output)
    requires output.device.Valid() && output in output.device.outputs && View(output) == Prepared()
    ensures Fitting(View(output)) && Dirty(View(output))
  {
    ViewConsistent(output);
  }

  /** A search that was given a request which the driver tolerates, whatever follows. */
  ghost predicate ToleratedBase(q: Search) {
    forall r :: q.base <= r ==> Touchy(0, r) == 0
  }

  lemma AllFree(output: Output, q: Search, v0: OutputState, holders: seq<Layer?>, start: seq<Entry>)
    requires ProblemOf(output, q, v0, holders, start) && v0.planes == Planes()
    requires forall i :: 0 <= i < |holders| && holders[i] != null ==> holders[i].output == output
    ensures SearchOk(q) && q.scene == Current(v0) && q.free == [true, true, true]
    ensures start == [] ==> ToleratedBase(q)
  {
    hide Planes, FreeFor, WellFormed, DisableBatches, Flatten;
    PlaneKinds();
    assert q.scene.planes == Planes();
    FreeEverywhere(output, holders, q.free);
    if start == [] {
      assert q.base == Flatten(DisableBatches(q.scene.planes, q.free));
      forall r | q.base <= r
        ensures Touchy(0, r) == 0
      {
        OffIsTolerated(q.scene.planes, q.free, r);
      }
    }
  }

  lemma FreeEverywhere(output: Output, holders: seq<Layer?>, free: seq<bool>)
    requires FreeFor(output, holders, free)
    requires forall i :: 0 <= i < |holders| && holders[i] != null ==> holders[i].output == output
    ensures forall i :: 0 <= i < |free| ==> free[i]
  {
  }

  lemma SingleOutputHolds(output: Output)
    requires output.device.Valid() && output.device.outputs == [output]
    ensures forall i :: 0 <= i < |Holders(output.device.planes)| && Holders(output.device.planes)[i] != null ==>
              Holders(output.device.planes)[i].output == output
  {
    assert forall p :: p in output.device.planes && p.layer != null ==> p.layer.output in output.device.outputs;
  }

  /** Such a search does not fail. */
  lemma NoError(q: Search, kernel: Kernel, from: nat, code: int)
    requires kernel.Valid() && kernel.answer == Touchy && ToleratedBase(q) && SearchTests(q, kernel.log, from, code)
    ensures code == 0
  {
    hide Inquiry;
    forall k | from <= k < |kernel.log|
      ensures kernel.log[k].answer == 0
    {
      InquiryExtends(q, kernel.log[k].request);
      assert Touchy(0, kernel.log[k].request) == 0;
    }
  }

  lemma DesktopIsFound(q: Search, kernel: Kernel, found: Best)
    requires SearchOk(q) && q.scene == Current(Prepared()) && q.free == [true, true, true] && ToleratedBase(q)
    requires kernel.answer == Touchy && Searched(q, kernel.Accepts(), [], Best(-1, Nowhere(3)), found)
    ensures found.alloc == [Some(0), Some(1), Some(2)]
  {
    hide Searched, WellFormed, DesktopScene, Current, Prepared;
    DesktopHasScene();
    DesktopFound(q, kernel.Accepts(), found);
  }

  lemma TouchyIsSteady(kernel: Kernel)
    requires kernel.answer == Touchy
    ensures kernel.Steady()
  {
  }

  method Settle(output: Output, req: Request)
    requires output.device.Valid() && output.device.outputs == [output] && View(output) == Prepared()
    requires output.device.kernel.Valid() && output.device.kernel.answer == Touchy
    requires req.Valid() && req.Contents() == []
    modifies output`layersChanged, output.device.planes`layer, output.layers, req, output.device.kernel
    ensures output.device.Valid() && output.device.kernel.Valid() && View(output) == Desktop()
  {
    hide Planes, Prepared, Desktop, Fitting, Dirty, View, Device.Valid, Reusable, SearchFrom, ProblemOf, Recomputed,
      Holders, ToleratedBase, SearchTests, Probed, OnlyOwnMoved, Applied;
    PreparedIsFitting(output);
    SingleOutputHolds(output);
    ghost var holders, from := Holders(output.device.planes), SearchFrom(output);
    var o, reused, q, found := Applying.Apply(output, req);
    PreparedPlanes();
    AllFree(output, q, Prepared(), holders, []);
    NoError(q, output.device.kernel, from, o.code);
    SettledView(output, q, found, holders, req.Contents(), old(output.device.kernel.log));
  }

  lemma PreparedPlanes()
    ensures Prepared().planes == Planes() && |Current(Prepared()).planes| == 3
  {
  }

  lemma SettledView(output: Output, q: Search, found: Best, holders: seq<Layer?>, contents: seq<Entry>, log: seq<Test>)
    requires Recomputed(output, contents, q, found, Prepared(), holders, [], log)
    requires output.device.kernel.answer == Touchy && q.free == [true, true, true] && ToleratedBase(q)
    ensures View(output) == Desktop()
  {
    hide View, Prepared, Desktop, Sound, Searched, AllBasic, ToleratedBase, Reallocated, WellFormed;
    TouchyIsSteady(output.device.kernel);
    PreparedPlanes();
    DesktopIsFound(q, output.device.kernel, found);
    DesktopIsReallocated();
  }

  // ----- the mapping is used again -----

  /** A request that begins with nothing in particular is tolerated, so a clean output is not recomputed. */
  lemma DesktopReuses(output: Output)
    requires output.device.Valid() && output.device.outputs == [output] && output.device.kernel.answer == Touchy
    requires Fitting(View(output)) && !Dirty(View(output))
    requires |output.device.planes| > 0 && output.device.planes[0].info.id != 99
    ensures output.device.PlanesOk() && Reusable(output, [])
  {
    hide Fitting, Dirty, View, Device.Valid, Flatten, Reusable, AllBasic;
    CleanSingleOutputReuses(output, []);
    var infos, hs := Infos(output.device.planes), Helds(output.device.planes);
    WholeIsTolerated(infos, hs);
    assert Whole(output.device, hs, []) == Flatten(CurrentBatches(infos, hs));
  }

  lemma DesktopIsCached()
    ensures var v := Desktop();
            && Cached(v) && !Dirty(v) && Sound(Current(v), v.mapping) && CompositionRule(Current(v), v.mapping)
            && Sorted(v.planes) && IntZpos(Current(v), v.mapping) && ToShow(Current(v)) != {} && |v.planes| == 3
            && RuleStays(Current(v), v.mapping, 1) && !CoversNothing(Current(v), v.mapping, 1)
  {
    hide Sound, Current, Remembered, CompositionRule, Dirty, WellFormed, RuleStays, CoversNothing, Planes, IntZpos;
    DesktopIsReallocated();
    DesktopHasScene();
    DesktopMapping(Current(Desktop()));
    PlaneKinds();
  }

  lemma AfterLoss()
    ensures Consistent(Desktop()) && |Desktop().planes| == 3
    ensures var w := WithoutPlane(Desktop(), 1);
            && Fitting(w) && !Dirty(w) && CompositionRule(Current(w), w.mapping) && !Stacked(Current(w), w.mapping)
            && |w.planes| > 0 && w.planes[0].id != 99
  {
    hide Sound, Current, CompositionRule, Stacked, Dirty, WellFormed, RuleStays, CoversNothing, Planes, IntZpos,
      Fitting, Cached;
    var v := Desktop();
    PlaneKinds();
    DesktopIsCached();
    CachedIsConsistent(v);
    CachedIsFitting(v);
    LostPlaneIsOverlooked(v, 1);
    StepKeepsFitting(Op.DestroyPlane(1), v, WithoutPlane(v, 1));
  }

  lemma CachedIsConsistent(v: OutputState)
    requires Cached(v)
    ensures Consistent(v)
  {
  }

  /** The output after its first apply. */
  method Begin() returns (output: Output)
    ensures fresh(output) && fresh(output.device) && fresh(output.device.kernel)
    ensures fresh(output.layers) && fresh(output.device.planes)
    ensures output.device.Valid() && output.device.outputs == [output] && View(output) == Desktop()
    ensures output.device.kernel.Valid() && output.device.kernel.answer == Touchy
  {
    hide Planes, View, Prepared, Desktop, Device.PlanesOk, Device.OutputsOk, Device.Linked;
    var req := new Request();
    output := Prepare();
    Settle(output, req);
  }

  method LoseOverlay(output: Output)
    requires output.device.Valid() && output.device.outputs == [output] && View(output) == Desktop()
    modifies output.device`planes, output.layers`plane
    ensures output.device.Valid() && output.device.outputs == [output]
    ensures output.device.planes == Dropped(old(output.device.planes), 1)
    ensures View(output) == WithoutPlane(Desktop(), 1)
  {
    hide Planes, View, IndexOf, DistinctIds, Sorted, HasBasics;
    PlaneKinds();
    ViewHasPlanes(output);
    var device := output.device;
    device.DestroyPlane(device.planes[1], 1);
  }

  /** Applying a clean output again uses its mapping again. */
  method UseAgain(output: Output, req: Request) returns (o: Outcome)
    requires output.device.Valid() && output.device.outputs == [output]
    requires output.device.kernel.Valid() && output.device.kernel.answer == Touchy
    requires Fitting(View(output)) && !Dirty(View(output)) && req.Valid() && req.Contents() == []
    requires |View(output).planes| > 0 && View(output).planes[0].id != 99
    modifies output`layersChanged, output.device.planes`layer, output.layers, req, output.device.kernel
    ensures o == Ret(0) && output.device.Valid() && View(output) == old(View(output))
  {
    hide View, Dirty, Fitting, Reusable, SearchFrom, ProblemOf, Recomputed, Holders, SearchTests, Probed, OnlyOwnMoved,
      Applied, Device.Valid;
    ViewHasPlanes(output);
    DesktopReuses(output);
    ghost var reused, q, found;
    o, reused, q, found := Applying.Apply(output, req);
  }

  /** The upper overlay is destroyed and the output applied again: the call succeeds with the old mapping. The
      composition rule still holds, but the upper layer is now composited underneath the plane of the lower. */
  method DesktopLosesOverlay() returns (output: Output, o: Outcome)
    ensures o == Ret(0) && output.device.Valid() && Consistent(View(output))
    ensures CompositionRule(Current(View(output)), View(output).mapping)
    ensures !Stacked(Current(View(output)), View(output).mapping)
  {
    hide Planes, View, Dirty, Stacked, CompositionRule, Current, Device.PlanesOk, Device.OutputsOk,
      Device.Linked, WellFormed, AllScannable, Desktop;
    AfterLoss();
    var req := new Request();
    output := Begin();
    LoseOverlay(output);
    o := UseAgain(output, req);
  }

  // ----- an apply that fails in between -----

  /** A request that begins with the object the driver trips over. */
  ghost predicate FaultyBase(q: Search) {
    forall r :: q.base <= r ==> Touchy(0, r) == -5
  }

  lemma BaseIsFaulty(output: Output, q: Search, v0: OutputState, holders: seq<Layer?>, start: seq<Entry>)
    requires ProblemOf(output, q, v0, holders, start) && |start| > 0 && start[0].obj == 99
    ensures FaultyBase(q)
  {
    assert q.base[0] == start[0];
  }

  lemma FaultyTests(q: Search, kernel: Kernel, from: nat, ret: int)
    requires kernel.Valid() && kernel.answer == Touchy && FaultyBase(q) && SearchTests(q, kernel.log, from, ret)
    ensures forall k :: from <= k < |kernel.log| ==> kernel.log[k].answer == -5
  {
    hide Inquiry;
    forall k | from <= k < |kernel.log|
      ensures kernel.log[k].answer == -5
    {
      InquiryExtends(q, kernel.log[k].request);
      assert Touchy(0, kernel.log[k].request) == -5;
    }
  }

  /** The composition layer is proposed for the primary plane at once. */
  lemma FirstProposal(q: Search)
    requires SearchOk(q) && DesktopScene(q.scene) && q.free == [true, true, true]
    ensures |q.scene.planes| > 0 && |q.scene.layers| > 0 && Fits(q.scene, []) && Fits(q.scene, [] + [Some(0)])
    ensures Proposed(q, [], 0)
  {
    hide Supports, AllBasic, Overlap;
    DesktopCompatible(q.scene, 0);
    var a: Alloc := [Some(0), Some(1), Some(2)];
    assert a[..0] == [];
  }

  /** So the search has tested something, and cannot have succeeded. */
  lemma FaultySearchFails(q: Search, kernel: Kernel, from: nat, ret: int)
    requires kernel.Valid() && kernel.answer == Touchy && FaultyBase(q) && SearchTests(q, kernel.log, from, ret)
    requires SearchOk(q) && DesktopScene(q.scene) && q.free == [true, true, true] && |q.scene.planes| > 0
    requires ret == 0 ==> Probed(q, kernel.log, from, [], |q.scene.layers|)
    ensures ret == -5
  {
    hide Proposed, RequestFor, DesktopScene, Inquiry, FaultyBase;
    FirstProposal(q);
    FaultyTests(q, kernel, from, ret);
    DesktopHasThree(q.scene);
    assert ret == 0 ==> Tested(kernel.log, from, RequestFor(q, [] + [Some(0)]));
  }
  lemma ViewHasPlanes(output: Output)
    ensures View(output).planes == Infos(output.device.planes)
  {
  }

  /** The output is applied again with a request that the driver answers with an I/O error. */
  method Fail(output: Output, req: Request) returns (o: Outcome)
    requires output.device.Valid() && output.device.outputs == [output] && View(output) == Desktop()
    requires output.device.kernel.Valid() && output.device.kernel.answer == Touchy
    requires req.Valid() && |req.Contents()| > 0 && req.Contents()[0].obj == 99
    modifies output`layersChanged, output.device.planes`layer, output.layers, req, output.device.kernel
    ensures o == Ret(-5) && output.device.Valid() && output.device.kernel.Valid()
    ensures Abandoned(Desktop(), View(output))
  {
    hide Planes, Desktop, Fitting, Dirty, View, Device.Valid, SearchFrom, ProblemOf, Recomputed, Abandoned,
      Holders, FaultyBase, SearchTests, Probed, OnlyOwnMoved, Applied, Cached, Reusable, DesktopScene, Current;
    DesktopIsCached();
    DesktopHasScene();
    CachedIsFitting(Desktop());
    SingleOutputHolds(output);
    FaultyIsNotReusable(output, req.Contents());
    ghost var holders, from, start := Holders(output.device.planes), SearchFrom(output), req.Contents();
    ghost var reused, q, found;
    o, reused, q, found := Applying.Apply(output, req);
    DesktopPlanesAre();
    AllFree(output, q, Desktop(), holders, start);
    BaseIsFaulty(output, q, Desktop(), holders, start);
    FaultySearchFails(q, output.device.kernel, from, o.code);
  }

  lemma DesktopPlanesAre()
    ensures Desktop().planes == Planes() && |Current(Desktop()).planes| == 3
  {
  }

  lemma FaultyIsNotReusable(output: Output, start: seq<Entry>)
    requires output.device.Valid() && output.device.outputs == [output] && output.device.kernel.answer == Touchy
    requires Fitting(View(output)) && !Dirty(View(output)) && |start| > 0 && start[0].obj == 99
    ensures output.device.PlanesOk() && !Reusable(output, start)
  {
    hide Fitting, Dirty, View, Device.Valid, Flatten, Reusable, AllBasic, CurrentBatches;
    CleanSingleOutputReuses(output, start);
    assert Whole(output.device, Helds(output.device.planes), start)[0] == start[0];
  }

  lemma AfterFailure(w: OutputState)
    requires Abandoned(Desktop(), w)
    ensures Fitting(w) && !Dirty(w) && w.comp == Some(0)
    ensures Nothing(w.mapping) && !CompositionRule(Current(w), w.mapping)
    ensures |w.planes| > 0 && w.planes[0].id != 99 && ToShow(Current(w)) != {}
  {
    hide Sound, Current, CompositionRule, Dirty, Planes, Cached, Fitting, ToShow;
    PlaneKinds();
    DesktopIsCached();
    CachedIsConsistent(Desktop());
    AbandonedIsCached(Desktop(), w);
    CachedIsFitting(w);
    EmptyMappingIsReused(Desktop(), w);
    SameCurrent(Desktop(), w);
  }

  lemma SameCurrent(v: OutputState, w: OutputState)
    requires Abandoned(v, w)
    ensures Current(w) == Current(v) && Dirty(w) == Dirty(v)
  {
  }

  /** The second apply fails, and the third one succeeds with an empty mapping although there are layers to show
      and a composition layer to show them on. */
  method DesktopIsAbandoned() returns (output: Output, o2: Outcome, o3: Outcome)
    ensures o2 == Ret(-5) && o3 == Ret(0) && output.device.Valid() && View(output).comp.Some?
    ensures Nothing(View(output).mapping) && !CompositionRule(Current(View(output)), View(output).mapping)
  {
    hide Planes, View, Dirty, CompositionRule, Current, Device.PlanesOk, Device.OutputsOk, Device.Linked, WellFormed,
      AllScannable, Desktop, Nothing, Abandoned, ToShow;
    var faulty := new Request();
    faulty.AddProperty(99, 1, 0);
    var req := new Request();
    output := Begin();
    o2 := Fail(output, faulty);
    AfterFailure(View(output));
    o3 := UseAgain(output, req);
  }

  // ----- a page flip -----

  lemma FlipIsLight()
    ensures var v, op := Desktop(), Op.SetProperty(1, "FB_ID", 5);
            Light(op, v) && Fitting(v) && !Dirty(v) && Fitting(Edited(op, v)) && !Dirty(Edited(op, v))
    ensures |Desktop().planes| > 0 && Desktop().planes[0].id != 99 && |Desktop().layers| == 4
  {
    hide Fitting, Dirty, Cached, Planes, Sound, Current, CompositionRule, IntZpos, RuleStays, CoversNothing, ToShow,
      Sorted;
    var v, op := Desktop(), Op.SetProperty(1, "FB_ID", 5);
    PlaneKinds();
    DesktopIsCached();
    CachedIsFitting(v);
    assert v.layers[1].props[0].name == "FB_ID";
    StepKeepsFitting(op, v, Edited(op, v));
    FlipStaysClean(v, 1, "FB_ID", 5);
  }

  /** A layer gets another framebuffer and the output is applied again: the mapping is used again. */
  method FlipDesktop() returns (output: Output, o: Outcome)
    ensures o == Ret(0) && View(output) == Edited(Op.SetProperty(1, "FB_ID", 5), Desktop())
    ensures View(output).mapping == [Some(0), Some(1), Some(2)]
  {
    hide Planes, View, Dirty, Fitting, Device.PlanesOk, Device.OutputsOk, Device.Linked, Light, SetLayerProperty;
    FlipIsLight();
    var req := new Request();
    output := Begin();
    assert |output.layers| == 4 by { ViewHasLayers(output); }
    var layer := output.layers[1];
    assert layer.output == output by { LayersAreOwn(output); }
    var _ := layer.SetProperty("FB_ID", 5, 1);
    o := UseAgain(output, req);
  }

  lemma ViewHasLayers(output: Output)
    ensures |View(output).layers| == |output.layers|
  {
  }

  lemma LayersAreOwn(output: Output)
    requires output.device.Valid() && output in output.device.outputs
    ensures forall l :: l in output.layers ==> l.output == output
  {
  }
}
