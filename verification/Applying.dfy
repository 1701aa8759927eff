/** liftoff_output_apply: reuse the mapping or compute it anew, then write every plane
    (alloc.c:476-780). */
module Applying {
  import opened Sequences
  import opened Props
  import opened Atomic
  import opened Hardware
  import opened Scenes
  import opened Stacking
  import opened Composition
  import opened Placements
  import opened Optimum
  import opened Walks
  import opened Cache
  import opened Objects
  import opened Emission
  import opened Searching

  /** How a call ends: with a return code, or in the assertion of apply_current. */
  datatype Outcome = Ret(code: int) | AssertionFailed

  /** The layer on a plane, as far as the request is concerned. */
  function HeldBy(p: Plane): Option<Held>
    reads p, p.layer
  {
    if p.layer == null then None else Some(Held(p.layer.output.crtcId, p.layer.props))
  }

  ghost predicate Holding(planes: seq<Plane>, hs: seq<Option<Held>>)
    reads planes, set p | p in planes && p.layer != null :: p.layer
  {
    |hs| == |planes| && forall i :: 0 <= i < |planes| ==> HeldBy(planes[i]) == hs[i]
  }

  ghost function Helds(planes: seq<Plane>): (hs: seq<Option<Held>>)
    reads planes, set p | p in planes && p.layer != null :: p.layer
    ensures Holding(planes, hs)
  {
    seq(|planes|, i requires 0 <= i < |planes| reads planes, set p | p in planes && p.layer != null :: p.layer
                  => HeldBy(planes[i]))
  }

  /** apply_current: every plane is written, or the assertion on a layer its plane cannot take fails. */
  method ApplyCurrent(device: Device, req: Request, ghost hs: seq<Option<Held>>) returns (o: Outcome)
    requires device.PlanesOk() && req.Valid() && Holding(device.planes, hs)
    modifies req
    ensures req.Valid() && old(req.Contents()) <= req.Contents()
    ensures AllBasic(Infos(device.planes))
    ensures o == if AllHeldFit(Infos(device.planes), hs) then Ret(0) else AssertionFailed
    ensures o == Ret(0) ==>
      req.Contents() == old(req.Contents()) + Flatten(CurrentBatches(Infos(device.planes), hs))
  {
    hide Supports, EnableWrites, DisableWrites, DistinctIds, Sorted, PropId, Only, PerPlane, Flatten, Distinct,
      CurrentBatches, Infos;
    ghost var start, infos := req.Contents(), Infos(device.planes);
    assert AllBasic(infos);
    ghost var w := CurrentBatches(infos, hs);
    FlattenStart(start, w);
    var i := 0;
    while i < |device.planes|
      invariant i <= |device.planes| && req.Valid()
      invariant forall k {:trigger hs[k]} :: 0 <= k < i ==> HeldFits(infos[k], hs[k])
      invariant req.Contents() == start + Flatten(w[..i])
    {
      var plane := device.planes[i];
      assert HasBasics(plane.info) && HeldBy(plane) == hs[i];
      assert w[i] == CurrentWrites(infos[i], hs[i]);
      var ret := plane.Apply(plane.layer, req);
      if ret == -EINVAL {
        assert !HeldFits(infos[i], hs[i]);
        return AssertionFailed;
      }
      FlattenNext(start, w, i);
      i := i + 1;
    }
    assert w[..i] == w;
    return Ret(0);
  }

  /** The planes held by layers of this output. */
  predicate HeldHere(output: Output, p: Plane)
    reads p
  {
    p.layer != null && p.layer.output == output
  }

  /** Only planes that were free or held by this output have a new layer, one of this output's. */
  predicate OnlyOwnMoved(output: Output, was: seq<Layer?>, now: seq<Layer?>) {
    && |was| == |now|
    && forall i {:trigger now[i]} :: 0 <= i < |was| ==>
         if was[i] != null && was[i].output != output then now[i] == was[i]
         else now[i] == null || now[i].output == output
  }

  /** Every layer of the output is off its plane; the planes still held are held by other outputs. */
  ghost predicate Unmapped(output: Output)
    reads output, output.device, output.device.planes, output.device.outputs, output.device.AllLayers()
  {
    && output.device.Valid() && output in output.device.outputs
    && (forall l :: l in output.layers ==> l.plane == null)
    && (forall p :: p in output.device.planes && p.layer != null ==> p.layer.output != output)
  }

  /** The planes other outputs hold show what they showed. */
  predicate ForeignKept(free: seq<bool>, hs0: seq<Option<Held>>, hs: seq<Option<Held>>) {
    && |hs| == |hs0| == |free|
    && forall i {:trigger hs[i]} :: 0 <= i < |hs| && !free[i] ==> hs[i] == hs0[i]
  }

  /** Parts a plane and the layer of this output that is on it. */
  method Release(output: Output, plane: Plane)
    requires output.device.Valid() && output in output.device.outputs && plane in output.device.planes
    requires plane.layer != null && plane.layer.output == output
    modifies plane`layer, plane.layer`plane
    ensures output.device.Valid() && plane.layer == null && old(plane.layer) in output.layers
  {
    hide Distinct, HasBasics, DistinctIds, Sorted;
    plane.layer.plane := null;
    plane.layer := null;
    assert output.device.Linked();
  }

  /** Takes every layer of the output off its plane. */
  method UnmapOutput(output: Output)
    requires output.device.Valid() && output in output.device.outputs
    modifies output.device.planes`layer, output.layers`plane
    ensures Unmapped(output)
    ensures OnlyOwnMoved(output, old(Holders(output.device.planes)), Holders(output.device.planes))
    ensures View(output) == old(View(output)).(mapping := View(output).mapping)
  {
    hide HasBasics, DistinctIds, Sorted, IndexOf;
    var device := output.device;
    var i := 0;
    while i < |device.planes|
      invariant i <= |device.planes|
      invariant device.Valid()
      invariant forall k :: 0 <= k < i ==>
        device.planes[k].layer ==
          if old(HeldHere(output, device.planes[k])) then null else old(device.planes[k].layer)
      invariant forall k :: i <= k < |device.planes| ==> device.planes[k].layer == old(device.planes[k].layer)
    {
      var plane := device.planes[i];
      if plane.layer != null && plane.layer.output == output {
        Release(output, plane);
      }
      i := i + 1;
    }
    assert View(output).layers == old(View(output)).layers;
  }

  /** The planes nobody holds. */
  ghost function Free(planes: seq<Plane>): (r: seq<bool>)
    reads planes
    ensures |r| == |planes|
    ensures forall i {:trigger r[i]} :: 0 <= i < |r| ==> r[i] == (planes[i].layer == null)
  {
    seq(|planes|, i requires 0 <= i < |planes| reads planes => planes[i].layer == null)
  }

  /** Switches off every plane the search may use. */
  method DisableFree(device: Device, req: Request)
    requires device.PlanesOk() && req.Valid()
    modifies req
    ensures req.Valid() && AllBasic(Infos(device.planes))
    ensures req.Contents() == old(req.Contents()) + Flatten(DisableBatches(Infos(device.planes), Free(device.planes)))
  {
    hide DisableWrites, HasBasics, DistinctIds, Sorted, PropId, Only, PerPlane, Flatten;
    ghost var start, infos := req.Contents(), Infos(device.planes);
    assert AllBasic(infos);
    ghost var free := Free(device.planes);
    ghost var w := DisableBatches(infos, free);
    FlattenStart(start, w);
    var i := 0;
    while i < |device.planes|
      invariant i <= |device.planes| && req.Valid()
      invariant req.Contents() == start + Flatten(w[..i])
    {
      var plane := device.planes[i];
      assert HasBasics(plane.info) && free[i] == (plane.layer == null);
      assert w[i] == if free[i] then DisableWrites(infos[i]) else [];
      ghost var before := req.Contents();
      if plane.layer == null {
        var _ := plane.Apply(null, req);
      } else {
        assert before + [] == before;
      }
      FlattenNext(start, w, i);
      i := i + 1;
    }
    assert w[..i] == w;
  }

  /** non_composition_layers_length */
  method NonCompositionLayersLength(output: Output, ghost s: Scene) returns (n: nat)
    requires Shows(output, s) && Distinct(output.layers)
    requires s.comp == IndexOf(output.layers, output.compositionLayer)
    requires output.compositionLayer != null ==> output.compositionLayer in output.layers
    ensures n == |ToShow(s)|
  {
    n := 0;
    ghost var counted: set<nat> := {};
    var i := 0;
    while i < |output.layers|
      invariant i <= |output.layers| && n == |counted|
      invariant forall j: nat :: j in counted <==> j < i && s.layers[j].visible && s.comp != Some(j)
    {
      var layer := output.layers[i];
      assert Depicted(layer, s.layers[i]);
      IndexUnique(output.layers, i);
      if Visible(layer.props, layer.forceComposition) && output.compositionLayer != layer {
        n := n + 1;
        counted := counted + {i};
      }
      i := i + 1;
    }
    assert counted == ToShow(s);
  }

  /** Puts a layer of this output on a plane; neither is taken. */
  method Occupy(output: Output, plane: Plane, layer: Layer)
    requires output.device.Valid() && output in output.device.outputs && plane in output.device.planes
    requires layer in output.layers && plane.layer == null && layer.plane == null
    modifies plane`layer, layer`plane
    ensures output.device.Valid() && plane.layer == layer && layer.plane == plane
  {
    hide Distinct, HasBasics, DistinctIds, Sorted;
    plane.layer := layer;
    layer.plane := plane;
    assert output.device.Linked();
  }

  /** Puts the chosen layers on their planes. */
  method Install(output: Output, best: array<Layer?>)
    requires output.device.Valid() && output in output.device.outputs
    requires best.Length == |output.device.planes| && Faithful(output.layers, best[..])
    requires forall l :: l in output.layers ==> l.plane == null
    requires forall i, k :: 0 <= i < k < best.Length && best[i] != null ==> best[i] != best[k]
    requires forall i :: 0 <= i < best.Length && best[i] != null ==> output.device.planes[i].layer == null
    modifies output.device.planes`layer, output.layers`plane
    ensures output.device.Valid()
    ensures forall i :: 0 <= i < best.Length ==>
      output.device.planes[i].layer == if best[i] != null then best[i] else old(output.device.planes[i].layer)
    ensures View(output) == old(View(output)).(mapping := View(output).mapping)
  {
    hide HasBasics, DistinctIds, Sorted, IndexOf, Device.Linked;
    var device := output.device;
    var i := 0;
    while i < |device.planes|
      invariant i <= |device.planes| && device.Valid()
      invariant forall k :: 0 <= k < i ==>
        device.planes[k].layer == if best[k] != null then best[k] else old(device.planes[k].layer)
      invariant forall k :: i <= k < |device.planes| ==> device.planes[k].layer == old(device.planes[k].layer)
      invariant forall k :: i <= k < best.Length && best[k] != null ==> best[k].plane == null
    {
      var plane, layer := device.planes[i], best[i];
      if layer != null {
        assert plane.layer == null && layer.plane == null;
        Occupy(output, plane, layer);
      }
      i := i + 1;
    }
    assert View(output).layers == old(View(output)).layers;
  }

  /** mark_layers_clean */
  method MarkLayersClean(output: Output)
    requires output.device.Valid() && output in output.device.outputs
    modifies output`layersChanged, output.layers`changed, output.layers`props
    ensures output.device.Valid()
    ensures View(output) == Reallocated(old(View(output)), old(View(output)).mapping)
    ensures Holders(output.device.planes) == old(Holders(output.device.planes))
  {
    hide MarkedClean, HasBasics, DistinctIds, Sorted, IndexOf;
    ghost var before := View(output);
    output.layersChanged := false;
    var i := 0;
    while i < |output.layers|
      invariant i <= |output.layers| && !output.layersChanged
      invariant forall k :: 0 <= k < i ==> output.layers[k].State() == MarkedClean(before.layers[k])
      invariant forall k :: i <= k < |output.layers| ==> output.layers[k].State() == before.layers[k]
    {
      output.layers[i].MarkClean();
      i := i + 1;
    }
    assert output.device.Linked();
    assert View(output).layers == AllMarkedClean(before.layers);
  }

  /** reuse_previous_alloc up to the first thing that has changed */
  method IsDirty(output: Output) returns (b: bool)
    ensures b == Dirty(View(output))
  {
    hide NeedsRealloc;
    if output.layersChanged {
      return true;
    }
    var i := 0;
    while i < |output.layers|
      invariant i <= |output.layers|
      invariant forall k :: 0 <= k < i ==> !NeedsRealloc(View(output).layers[k])
    {
      var needs := output.layers[i].NeedsReallocation();
      if needs {
        assert NeedsRealloc(View(output).layers[i]);
        return true;
      }
      i := i + 1;
    }
    return false;
  }

  /** The request that writes every plane after what the request holds already. */
  ghost function Whole(device: Device, hs: seq<Option<Held>>, start: seq<Entry>): seq<Entry>
    requires |hs| == |device.planes| && AllBasic(Infos(device.planes))
    reads device
  {
    start + Flatten(CurrentBatches(Infos(device.planes), hs))
  }

  /** How reuse_previous_alloc ends: EINVAL when something is dirty, the failed assertion when a layer does not
      fit its plane any more, and otherwise the kernel's answer to the whole request. */
  ghost function ReuseOutcome(output: Output, hs: seq<Option<Held>>, start: seq<Entry>): Outcome
    requires |hs| == |output.device.planes| && AllBasic(Infos(output.device.planes))
    reads output, output.device, output.device.planes, output.layers, output.device.kernel
  {
    if Dirty(View(output)) then Ret(-EINVAL)
    else if !AllHeldFit(Infos(output.device.planes), hs) then AssertionFailed
    else Ret(output.device.kernel.answer(output.device.kernel.commits, Whole(output.device, hs, start)))
  }

  /** Whether reuse_previous_alloc comes to its test. */
  ghost predicate ReuseTests(output: Output, hs: seq<Option<Held>>)
    reads output, output.device, output.device.planes, output.layers
  {
    !Dirty(View(output)) && AllHeldFit(Infos(output.device.planes), hs)
  }

  lemma BasicPlanes(device: Device)
    requires device.PlanesOk()
    ensures AllBasic(Infos(device.planes))
  {
    forall i | 0 <= i < |device.planes|
      ensures HasBasics(Infos(device.planes)[i])
    {
      assert HasBasics(device.planes[i].info);
    }
  }

  /** reuse_previous_alloc: on success the whole request has been tested, otherwise it is as before. */
  method ReusePreviousAlloc(output: Output, req: Request, ghost hs: seq<Option<Held>>) returns (o: Outcome)
    requires output.device.PlanesOk() && req.Valid() && output.device.kernel.Valid()
    requires Holding(output.device.planes, hs)
    modifies req, output.device.kernel
    ensures req.Valid() && output.device.kernel.Valid() && AllBasic(Infos(output.device.planes))
    ensures o == old(BasicPlanes(output.device); ReuseOutcome(output, hs, req.Contents()))
    ensures output.device.kernel.log ==
            if old(ReuseTests(output, hs))
            then old(output.device.kernel.log) + [Test(Whole(output.device, hs, old(req.Contents())), o.code)]
            else old(output.device.kernel.log)
    ensures o == Ret(0) ==> req.Contents() == Whole(output.device, hs, old(req.Contents()))
    ensures o.Ret? && o.code != 0 ==> req.Contents() == old(req.Contents())
  {
    hide Supports, HeldFits, Dirty, DistinctIds, Sorted, Flatten, CurrentBatches, Distinct, AllHeldFit;
    ghost var start := req.Contents();
    var dirty := IsDirty(output);
    BasicPlanes(output.device);
    if dirty {
      return Ret(-EINVAL);
    }
    var cursor := req.cursor;
    o := ApplyCurrent(output.device, req, hs);
    if o != Ret(0) {
      return;
    }
    var ret := output.device.kernel.TestCommit(req);
    if ret != 0 {
      assert req.Contents()[..cursor] == start;
      req.SetCursor(cursor);
    }
    return Ret(ret);
  }

  /** No layer on any plane. */
  function Nowhere(planes: nat): (a: Alloc)
    ensures |a| == planes && Nothing(a)
  {
    seq(planes, _ => None)
  }

  lemma ShowsCurrent(output: Output)
    ensures Shows(output, Current(View(output)))
  {
    var s := Current(View(output));
    forall j | 0 <= j < |output.layers|
      ensures Depicted(output.layers[j], s.layers[j])
    {
      assert View(output).layers[j] == output.layers[j].State();
    }
  }

  lemma NowDepicts(output: Output, q: Search)
    requires output.device.Valid() && output in output.device.outputs
    requires forall l :: l in output.layers ==> l.plane == null
    requires q.scene == Current(View(output)) && q.free == Free(output.device.planes)
    ensures SearchOk(q) && Depicts(output, q)
  {
    ViewConsistent(output);
    ShowsCurrent(output);
  }

  /** Sets up the search and runs it. */
  method SearchAllocation(output: Output, req: Request, ghost q: Search)
      returns (ret: int, best: array<Layer?>, ghost found: Best)
    requires output.device.Valid() && output in output.device.outputs
    requires forall l :: l in output.layers ==> l.plane == null
    requires req.Valid() && output.device.kernel.Valid()
    requires q == Search(Current(View(output)), Free(output.device.planes), req.Contents())
    modifies req, output.device.kernel
    ensures req.Valid() && output.device.kernel.Valid() && fresh(best)
    ensures best.Length == |output.device.planes| && Faithful(output.layers, best[..])
    ensures SearchOk(q) && found.alloc == Choices(output.layers, best[..])
    ensures old(output.device.kernel.log) <= output.device.kernel.log
    ensures |output.device.kernel.log| <
            |old(output.device.kernel.log)| + Budget(|output.layers|, |output.device.planes|)
    ensures ret == 0 ==>
      req.Contents() == old(req.Contents()) &&
      WalkedAll(q, output.device.kernel, |old(output.device.kernel.log)|, [],
                Progress(Best(-1, Nowhere(|output.device.planes|)), old(output.device.kernel.log)),
                Progress(found, output.device.kernel.log))
    ensures SearchTests(q, output.device.kernel.log, |old(output.device.kernel.log)|, ret)
    ensures ret == 0 && |q.scene.planes| > 0 ==>
      Probed(q, output.device.kernel.log, |old(output.device.kernel.log)|, [], |q.scene.layers|)
  {
    hide Walked, WalkedAll, WellFormed, Depicts, Distinct, Device.Valid, View, Free, Budget, Current, Admissible,
      RequestFor, DistinctIds, SearchTests, Probed;
    NowDepicts(output, q);
    ghost var from := |output.device.kernel.log|;
    var planesLen := |output.device.planes|;
    var alloc := new Layer?[planesLen](_ => null);
    var step := new AllocStep(alloc);
    var n := CountLayers(output, q);
    var result := new AllocResult(req, planesLen, output.compositionLayer != null, n);
    best := result.best;
    SearchStart(output, q, result, step, from);
    ghost var start := Now(output, result);
    assert start.best.alloc == Nowhere(planesLen);
    ret := ChooseLayers(output, result, step, q, from, []);
    found := Best(result.bestScore, Choices(output.layers, best[..]));
  }

  method CountLayers(output: Output, ghost q: Search) returns (n: nat)
    requires Depicts(output, q)
    ensures n == |ToShow(q.scene)|
  {
    n := NonCompositionLayersLength(output, q.scene);
  }

  lemma SearchStart(output: Output, q: Search, result: AllocResult, step: AllocStep, from: nat)
    requires SearchOk(q) && Depicts(output, q) && result.req.Valid() && output.device.kernel.Valid()
    requires result.best.Length == result.planesLen == step.alloc.Length == |q.scene.planes|
    requires forall i :: 0 <= i < result.best.Length ==> result.best[i] == null
    requires result.hasCompositionLayer == (output.compositionLayer != null)
    requires result.nonCompositionLayersLen == |ToShow(q.scene)|
    requires step.planeIdx == 0 && step.score == 0 && step.lastLayerZpos == INT_MAX && !step.composited
    requires result.best != step.alloc && result.req.Contents() == q.base && from == |output.device.kernel.log|
    ensures AtNode(output, q, result, step, from, [])
  {
    hide WellFormed;
    assert step.alloc[..0] == [];
    assert Prefix(output, step) == [];
  }

  lemma FoundFacts(q: Search, ok: iset<seq<Entry>>, none: Best, found: Best)
    requires SearchOk(q) && none.alloc == Nowhere(|q.scene.planes|) && Improved(q, ok, none, found)
    ensures Sound(q.scene, found.alloc)
    ensures forall i {:trigger found.alloc[i]} :: 0 <= i < |found.alloc| && found.alloc[i].Some? ==> q.free[i]
    ensures !Nothing(found.alloc) ==> RequestFor(q, found.alloc) in ok
  {
    if found == none {
      NothingIsSound(q.scene, found.alloc);
    } else {
      SearchResultIsSound(q, ok, found.alloc);
      forall i | 0 <= i < |found.alloc| && found.alloc[i].Some?
        ensures q.free[i]
      {
        assert Placeable(q, ok, found.alloc[..i], found.alloc[i].value);
      }
      if !Nothing(found.alloc) {
        PlacedMeansTested(q, ok, found.alloc);
      }
    }
  }

  /** The planes show allocation `a` of this output. */
  lemma InstalledHolds(output: Output, q: Search, a: Alloc, best: seq<Layer?>, hs: seq<Option<Held>>)
    requires SearchOk(q) && Shows(output, q.scene) && output.crtcId == q.scene.crtcId
    requires |best| == |output.device.planes| == |q.free| && Faithful(output.layers, best)
    requires a == Choices(output.layers, best) && Fits(q.scene, a)
    requires forall l :: l in output.layers ==> l.output == output
    requires forall i :: 0 <= i < |best| ==>
      output.device.planes[i].layer == if best[i] != null then best[i] else output.device.planes[i].layer
    requires forall i :: 0 <= i < |best| && q.free[i] && best[i] == null ==> output.device.planes[i].layer == null
    requires Holding(output.device.planes, hs)
    ensures Installed(q, a, hs)
  {
    hide WellFormed;
    forall i | 0 <= i < |a| && q.free[i]
      ensures hs[i] == if a[i].Some? then Some(Held(q.scene.crtcId, q.scene.layers[a[i].value].props)) else None
    {
      assert HeldBy(output.device.planes[i]) == hs[i];
      if a[i].Some? {
        assert Depicted(output.layers[a[i].value], q.scene.layers[a[i].value]);
      }
    }
  }

  /** Some plane held by another output cannot take what its layer asks for now. */
  ghost predicate Misfit(q: Search, hs: seq<Option<Held>>)
    requires |hs| == |q.free| == |q.scene.planes|
  {
    exists i {:trigger hs[i]} :: 0 <= i < |hs| && !q.free[i] && !HeldFits(q.scene.planes[i], hs[i])
  }

  /** The layers just installed fit. */
  lemma MisfitIsForeign(q: Search, a: Alloc, hs: seq<Option<Held>>)
    requires SearchOk(q) && Sound(q.scene, a) && |hs| == |q.scene.planes| && Installed(q, a, hs)
    ensures (forall i {:trigger hs[i]} :: 0 <= i < |hs| ==> HeldFits(q.scene.planes[i], hs[i])) <==> !Misfit(q, hs)
  {
    hide Supports, Stacked, Separated, CompositionRule, WellFormed;
    forall i | 0 <= i < |hs| && q.free[i]
      ensures HeldFits(q.scene.planes[i], hs[i])
    {
      if a[i].Some? {
        assert Scannable(q.scene, i, a[i].value);
      }
    }
  }

  /** No layer of this output is on a plane, and `q` is its allocation problem. */
  ghost predicate Cleared(output: Output, q: Search)
    reads output, output.device, output.device.planes, output.layers
  {
    && SearchOk(q) && Depicts(output, q) && q.scene == Current(View(output))
    && forall p :: p in output.device.planes && p.layer != null ==> p.layer.output != output
  }

  lemma MappingInstalled(output: Output, best: seq<Layer?>)
    requires |best| == |output.device.planes| && Faithful(output.layers, best)
    requires forall i :: 0 <= i < |best| ==>
      if best[i] != null then output.device.planes[i].layer == best[i]
      else output.device.planes[i].layer == null || output.device.planes[i].layer !in output.layers
    ensures View(output).mapping == Choices(output.layers, best)
  {
  }

  lemma ChosenOnce(layers: seq<Layer>, best: seq<Layer?>)
    requires Faithful(layers, best) && Injective(Choices(layers, best))
    ensures forall i, k :: 0 <= i < k < |best| && best[i] != null ==> best[i] != best[k]
  {
    var a := Choices(layers, best);
    forall i, k | 0 <= i < k < |best| && best[i] != null
      ensures best[i] != best[k]
    {
      assert a[i].Some? && a[i] != a[k];
    }
  }

  lemma OnlyOwnFilled(output: Output, best: seq<Layer?>, was: seq<Layer?>, now: seq<Layer?>)
    requires |best| == |was| == |now| && forall i :: 0 <= i < |best| && best[i] != null ==> best[i].output == output
    requires forall i :: 0 <= i < |was| && was[i] != null ==> was[i].output != output && best[i] == null
    requires forall i :: 0 <= i < |was| ==> now[i] == if best[i] != null then best[i] else was[i]
    ensures OnlyOwnMoved(output, was, now)
  {
  }

  /** Installs the allocation that was found. */
  method PlaceLayers(output: Output, best: array<Layer?>, ghost q: Search, ghost a: Alloc)
    requires output.device.Valid() && output in output.device.outputs && Cleared(output, q)
    requires best.Length == |output.device.planes| && Faithful(output.layers, best[..])
    requires a == Choices(output.layers, best[..]) && Fits(q.scene, a) && Injective(a)
    requires forall i {:trigger a[i]} :: 0 <= i < |a| && a[i].Some? ==> q.free[i]
    modifies output.device.planes`layer, output.layers`plane
    ensures output.device.Valid()
    ensures View(output) == old(View(output)).(mapping := a)
    ensures Shows(output, q.scene)
    ensures OnlyOwnMoved(output, old(Holders(output.device.planes)), Holders(output.device.planes))
    ensures forall i :: 0 <= i < best.Length ==>
      output.device.planes[i].layer == if best[i] != null then best[i] else old(output.device.planes[i].layer)
  {
    hide WellFormed, Distinct, Current, Device.Valid, Injective, IndexOf, Shows, OnlyOwnMoved;
    ghost var before, was := View(output), Holders(output.device.planes);
    ChosenOnce(output.layers, best[..]);
    assert forall l :: l in output.layers ==> l.output == output;
    assert forall i :: 0 <= i < |was| && was[i] != null ==> output.device.planes[i] in output.device.planes;
    Install(output, best);
    OnlyOwnFilled(output, best[..], was, Holders(output.device.planes));
    MappingInstalled(output, best[..]);
    CurrentIgnoresMapping(before, a);
    ShowsCurrent(output);
  }

  /** The same, with what the planes hold before and after. */
  method PlaceAndHold(output: Output, best: array<Layer?>, ghost q: Search, ghost a: Alloc,
                      ghost hs0: seq<Option<Held>>)
      returns (ghost hs: seq<Option<Held>>)
    requires output.device.Valid() && output in output.device.outputs && Cleared(output, q)
    requires best.Length == |output.device.planes| && Faithful(output.layers, best[..])
    requires a == Choices(output.layers, best[..]) && Fits(q.scene, a) && Injective(a)
    requires forall i {:trigger a[i]} :: 0 <= i < |a| && a[i].Some? ==> q.free[i]
    requires Holding(output.device.planes, hs0)
    modifies output.device.planes`layer, output.layers`plane
    ensures output.device.Valid() && Holding(output.device.planes, hs)
    ensures |hs| == |q.free| && Installed(q, a, hs) && ForeignKept(q.free, hs0, hs)
    ensures View(output) == old(View(output)).(mapping := a)
    ensures OnlyOwnMoved(output, old(Holders(output.device.planes)), Holders(output.device.planes))
  {
    hide WellFormed, Distinct, Current, Device.Valid, Injective, View, OnlyOwnMoved, Installed, Holders;
    assert forall i :: 0 <= i < |hs0| ==> HeldBy(output.device.planes[i]) == hs0[i];
    PlaceLayers(output, best, q, a);
    hs := Helds(output.device.planes);
    InstalledHolds(output, q, a, best[..], hs);
    forall i | 0 <= i < |q.free| && !q.free[i]
      ensures hs[i] == hs0[i]
    {
      assert a[i].None?;
      assert HeldBy(output.device.planes[i]) == old(HeldBy(output.device.planes[i]));
    }
  }

  lemma CurrentIgnoresMapping(v: OutputState, m: Alloc)
    ensures Current(v.(mapping := m)) == Current(v)
  {
  }

  /** apply_current changes nothing but the request. */
  method Emit(output: Output, req: Request, ghost hs: seq<Option<Held>>) returns (o: Outcome)
    requires output.device.Valid() && req.Valid() && Holding(output.device.planes, hs)
    modifies req
    ensures output.device.Valid() && Holding(output.device.planes, hs) && req.Valid()
    ensures AllBasic(Infos(output.device.planes))
    ensures o == if AllHeldFit(Infos(output.device.planes), hs) then Ret(0) else AssertionFailed
    ensures o == Ret(0) ==>
      req.Contents() == old(req.Contents()) + Flatten(CurrentBatches(Infos(output.device.planes), hs))
    ensures View(output) == old(View(output)) && Holders(output.device.planes) == old(Holders(output.device.planes))
  {
    hide Distinct, AllBasic, HeldFits, Flatten, CurrentBatches, IndexOf, DistinctIds, Sorted, HasBasics;
    o := ApplyCurrent(output.device, req, hs);
  }

  /** Installs the allocation that was found and writes every plane. */
  method InstallAndEmit(output: Output, req: Request, best: array<Layer?>,
                        ghost q: Search, ghost start: seq<Entry>, ghost a: Alloc, ghost hs0: seq<Option<Held>>)
      returns (o: Outcome, ghost hs: seq<Option<Held>>)
    requires Holding(output.device.planes, hs0)
    requires output.device.Valid() && output in output.device.outputs && req.Valid()
    requires SearchOk(q) && Cleared(output, q) && Infos(output.device.planes) == q.scene.planes
    requires best.Length == |output.device.planes| && Faithful(output.layers, best[..])
    requires a == Choices(output.layers, best[..]) && Sound(q.scene, a) && Fits(q.scene, a) && Injective(a)
    requires forall i {:trigger a[i]} :: 0 <= i < |a| && a[i].Some? ==> q.free[i]
    requires AllBasic(q.scene.planes) && req.Contents() == q.base
    requires q.base == start + Flatten(DisableBatches(q.scene.planes, q.free))
    modifies output.device.planes`layer, output.layers`plane, req
    ensures output.device.Valid() && req.Valid()
    ensures View(output) == old(View(output)).(mapping := a)
    ensures OnlyOwnMoved(output, old(Holders(output.device.planes)), Holders(output.device.planes))
    ensures ForeignKept(q.free, hs0, hs) && o == if Misfit(q, hs) then AssertionFailed else Ret(0)
    ensures o == Ret(0) ==> AgreesOn(q, req.Contents(), RequestFor(q, a))
    ensures Holding(output.device.planes, hs)
  {
    hide WellFormed, Distinct, Stacked, Separated, CompositionRule, AllScannable, Supports, HeldFits, Flatten,
      AgreesOn,
      Current, Device.Valid, DistinctIds, Sorted, Misfit, Installed, Choices, OnlyOwnMoved, Cleared, View, Holding,
      Faithful, Shows, Holders, Sound, AllBasic, CurrentBatches;
    hs := PlaceAndHold(output, best, q, a, hs0);
    FinalAgrees(q, start, a, hs);
    MisfitIsForeign(q, a, hs);
    o := Emit(output, req, hs);
  }

  /** UnmapOutput, with what the planes hold before and after. */
  method UnmapAndHold(output: Output, ghost hs0: seq<Option<Held>>) returns (ghost hs: seq<Option<Held>>)
    requires output.device.Valid() && output in output.device.outputs && Holding(output.device.planes, hs0)
    modifies output.device.planes`layer, output.layers`plane
    ensures Unmapped(output) && Holding(output.device.planes, hs)
    ensures ForeignKept(Free(output.device.planes), hs0, hs)
    ensures OnlyOwnMoved(output, old(Holders(output.device.planes)), Holders(output.device.planes))
    ensures View(output) == old(View(output)).(mapping := View(output).mapping)
  {
    hide Device.Valid, Unmapped, View;
    assert forall i :: 0 <= i < |hs0| ==> HeldBy(output.device.planes[i]) == hs0[i];
    ghost var was := Holders(output.device.planes);
    UnmapOutput(output);
    hs := Helds(output.device.planes);
    ghost var now := Holders(output.device.planes);
    ForeignStay(output, was);
    forall i | 0 <= i < |hs| && !Free(output.device.planes)[i]
      ensures hs[i] == hs0[i]
    {
      assert now[i] == was[i];
      assert HeldBy(output.device.planes[i]) == old(HeldBy(output.device.planes[i]));
    }
  }

  lemma ForeignStay(output: Output, was: seq<Layer?>)
    requires Unmapped(output) && OnlyOwnMoved(output, was, Holders(output.device.planes))
    ensures forall i {:trigger was[i]} :: 0 <= i < |was| && !Free(output.device.planes)[i] ==>
      was[i] != null && was[i].output != output && output.device.planes[i].layer == was[i]
  {
    hide Device.Valid;
    var now := Holders(output.device.planes);
    forall i | 0 <= i < |was| && !Free(output.device.planes)[i]
      ensures was[i] != null && was[i].output != output && now[i] == was[i]
    {
      assert now[i] == output.device.planes[i].layer && output.device.planes[i] in output.device.planes;
    }
  }

  method SwitchOffFree(output: Output, req: Request, ghost hs: seq<Option<Held>>)
    requires Unmapped(output) && req.Valid() && Holding(output.device.planes, hs)
    modifies req
    ensures Unmapped(output) && req.Valid() && AllBasic(Infos(output.device.planes))
    ensures Holding(output.device.planes, hs)
    ensures Current(View(output)).planes == Infos(output.device.planes)
    ensures req.Contents() == old(req.Contents()) +
      Flatten(DisableBatches(Infos(output.device.planes), Free(output.device.planes)))
    ensures View(output) == old(View(output)) && Holders(output.device.planes) == old(Holders(output.device.planes))
  {
    hide DisableBatches, Flatten, AllBasic, DistinctIds, Sorted, IndexOf;
    DisableFree(output.device, req);
  }

  method SearchUnmapped(output: Output, req: Request, ghost q: Search, ghost hs: seq<Option<Held>>)
      returns (ret: int, best: array<Layer?>, ghost found: Best)
    requires Holding(output.device.planes, hs)
    ensures Holding(output.device.planes, hs)
    requires Unmapped(output) && req.Valid() && output.device.kernel.Valid()
    requires q == Search(Current(View(output)), Free(output.device.planes), req.Contents())
    modifies req, output.device.kernel
    ensures Unmapped(output) && req.Valid() && output.device.kernel.Valid() && fresh(best)
    ensures output.device.Valid()
    ensures View(output) == old(View(output)) && Holders(output.device.planes) == old(Holders(output.device.planes))
    ensures q.free == Free(output.device.planes)
    ensures best.Length == |output.device.planes| && Faithful(output.layers, best[..])
    ensures SearchOk(q) && found.alloc == Choices(output.layers, best[..])
    ensures SearchEnded(output.device.kernel, q, old(output.device.kernel.log), found, ret)
    ensures ret == 0 ==> req.Contents() == q.base
  {
    hide WalkedAll, WellFormed, Flatten, Budget, Choices, Current, Faithful, DistinctIds, Sorted, IndexOf, SearchTests,
      Probed;
    ret, best, found := SearchAllocation(output, req, q);
  }

  /** What a search that started with an empty record and the log `log0` reports. */
  ghost predicate SearchEnded(kernel: Kernel, q: Search, log0: seq<Test>, found: Best, ret: int)
    reads kernel
  {
    && SearchOk(q) && log0 <= kernel.log
    && |kernel.log| < |log0| + Budget(|q.scene.layers|, |q.scene.planes|)
    && (ret == 0 ==> WalkedAll(q, kernel, |log0|, [], Progress(Best(-1, Nowhere(|q.scene.planes|)), log0),
                               Progress(found, kernel.log)))
    && SearchTests(q, kernel.log, |log0|, ret)
    && (ret == 0 && |q.scene.planes| > 0 ==> Probed(q, kernel.log, |log0|, [], |q.scene.layers|))
  }

  lemma EndedFacts(kernel: Kernel, q: Search, log0: seq<Test>, found: Best)
    requires SearchEnded(kernel, q, log0, found, 0)
    ensures Sound(q.scene, found.alloc) && Fits(q.scene, found.alloc)
    ensures forall i {:trigger found.alloc[i]} :: 0 <= i < |found.alloc| && found.alloc[i].Some? ==> q.free[i]
    ensures !Nothing(found.alloc) ==> RequestFor(q, found.alloc) in Accepted(kernel.log, |log0|)
  {
    FoundFacts(q, Accepted(kernel.log, |log0|), Best(-1, Nowhere(|q.scene.planes|)), found);
  }

  /** The first half of a full allocation: unmap, switch off, search. */
  method ClearAndSearch(output: Output, req: Request, ghost hs0: seq<Option<Held>>)
      returns (ret: int, best: array<Layer?>, ghost q: Search, ghost found: Best, ghost hs: seq<Option<Held>>)
    requires Holding(output.device.planes, hs0)
    ensures Holding(output.device.planes, hs) && ForeignKept(q.free, hs0, hs)
    requires output.device.Valid() && output in output.device.outputs
    requires req.Valid() && output.device.kernel.Valid()
    modifies output.device.planes`layer, output.layers`plane, req, output.device.kernel
    ensures Unmapped(output) && req.Valid() && output.device.kernel.Valid() && fresh(best)
    ensures output.device.Valid()
    ensures View(output) == old(View(output)).(mapping := View(output).mapping)
    ensures OnlyOwnMoved(output, old(Holders(output.device.planes)), Holders(output.device.planes))
    ensures best.Length == |output.device.planes| && Faithful(output.layers, best[..])
    ensures q.scene == Current(View(output)) && q.free == Free(output.device.planes)
    ensures SearchOk(q) && AllBasic(q.scene.planes) && found.alloc == Choices(output.layers, best[..])
    ensures Infos(output.device.planes) == q.scene.planes
    ensures q.base == old(req.Contents()) + Flatten(DisableBatches(q.scene.planes, q.free))
    ensures SearchEnded(output.device.kernel, q, old(output.device.kernel.log), found, ret)
    ensures ret == 0 ==> req.Contents() == q.base
  {
    hide WellFormed, Flatten, DisableBatches, Choices, Unmapped, SearchEnded, OnlyOwnMoved, AllBasic,
      Device.Valid, Faithful, View, Holders, Holding, ForeignKept;
    hs := UnmapAndHold(output, hs0);
    SwitchOffFree(output, req, hs);
    q := Search(Current(View(output)), Free(output.device.planes), req.Contents());
    ret, best, found := SearchUnmapped(output, req, q, hs);
  }

  /** Which planes an output may use: those not held by another output. */
  ghost predicate FreeFor(output: Output, was: seq<Layer?>, free: seq<bool>) {
    && |free| == |was|
    && forall i {:trigger free[i]} :: 0 <= i < |was| ==> free[i] == (was[i] == null || was[i].output == output)
  }

  lemma FreeAfterUnmap(output: Output, was: seq<Layer?>)
    requires Unmapped(output) && OnlyOwnMoved(output, was, Holders(output.device.planes))
    ensures FreeFor(output, was, Free(output.device.planes))
  {
    hide Device.Valid;
    var now := Holders(output.device.planes);
    forall i | 0 <= i < |was|
      ensures Free(output.device.planes)[i] == (was[i] == null || was[i].output == output)
    {
      assert now[i] == output.device.planes[i].layer;
    }
  }

  lemma OnlyOwnMovedTwice(output: Output, a: seq<Layer?>, b: seq<Layer?>, c: seq<Layer?>)
    requires OnlyOwnMoved(output, a, b) && OnlyOwnMoved(output, b, c)
    ensures OnlyOwnMoved(output, a, c)
  {
    forall i | 0 <= i < |a|
      ensures if a[i] != null && a[i].output != output then c[i] == a[i] else c[i] == null || c[i].output == output
    {
      assert b[i] == b[i];
    }
  }

  lemma ClearedNow(output: Output, q: Search)
    requires Unmapped(output) && q.scene == Current(View(output)) && q.free == Free(output.device.planes)
    ensures Cleared(output, q) && Infos(output.device.planes) == q.scene.planes
  {
    NowDepicts(output, q);
  }

  lemma MisfitKept(q: Search, hs0: seq<Option<Held>>, hs: seq<Option<Held>>)
    requires ForeignKept(q.free, hs0, hs) && |q.free| == |q.scene.planes|
    ensures |hs0| == |hs| == |q.free| && Misfit(q, hs0) == Misfit(q, hs)
  {
    hide HeldFits;
    assert forall i :: 0 <= i < |hs| && !q.free[i] ==> hs[i] == hs0[i];
  }

  /** The second half: install what was found, write every plane, mark the layers clean. */
  method Finish(output: Output, req: Request, best: array<Layer?>,
                ghost q: Search, ghost start: seq<Entry>, ghost a: Alloc, ghost hs0: seq<Option<Held>>)
      returns (o: Outcome)
    requires Holding(output.device.planes, hs0)
    requires Unmapped(output) && req.Valid()
    requires q.scene == Current(View(output)) && q.free == Free(output.device.planes)
    requires best.Length == |output.device.planes| && Faithful(output.layers, best[..])
    requires a == Choices(output.layers, best[..]) && SearchOk(q) && Sound(q.scene, a)
    requires forall i {:trigger a[i]} :: 0 <= i < |a| && a[i].Some? ==> q.free[i]
    requires AllBasic(q.scene.planes) && req.Contents() == q.base
    requires q.base == start + Flatten(DisableBatches(q.scene.planes, q.free))
    modifies output`layersChanged, output.device.planes`layer, output.layers, req
    ensures output.device.Valid() && req.Valid()
    ensures OnlyOwnMoved(output, old(Holders(output.device.planes)), Holders(output.device.planes))
    ensures |hs0| == |q.free| && o == if Misfit(q, hs0) then AssertionFailed else Ret(0)
    ensures o == Ret(0) ==> View(output) == Reallocated(old(View(output)), a)
    ensures o == Ret(0) ==> AgreesOn(q, req.Contents(), RequestFor(q, a))
  {
    hide WellFormed, Distinct, Stacked, Separated, CompositionRule, AllScannable, Flatten, AgreesOn, Holding,
      ForeignKept,
      Device.Valid, DistinctIds, Sorted, Misfit, Choices, OnlyOwnMoved, Cleared, View, Current,
      Faithful, AllBasic, DisableBatches;
    ClearedNow(output, q);
    ghost var hs;
    o, hs := InstallAndEmit(output, req, best, q, start, a, hs0);
    MisfitKept(q, hs0, hs);
    if o == Ret(0) {
      MarkLayersClean(output);
    }
  }

  /** A layer held on a plane by another output asks for something its plane cannot take. */
  ghost predicate ForeignMisfit(output: Output, holders: seq<Layer?>, hs: seq<Option<Held>>)
    requires |holders| == |hs| == |output.device.planes|
    reads output.device
  {
    exists i {:trigger hs[i]} :: 0 <= i < |hs| && holders[i] != null && holders[i].output != output &&
                !HeldFits(output.device.planes[i].info, hs[i])
  }

  /** The allocation problem of a full allocation that starts from the view `v` and the request `start`. */
  ghost predicate ProblemOf(output: Output, q: Search, v: OutputState, holders: seq<Layer?>, start: seq<Entry>) {
    && SearchOk(q) && q.scene == Current(v) && FreeFor(output, holders, q.free) && AllBasic(q.scene.planes)
    && q.base == start + Flatten(DisableBatches(q.scene.planes, q.free))
  }

  lemma MisfitForeign(output: Output, q: Search, was: seq<Layer?>, hs0: seq<Option<Held>>, hs: seq<Option<Held>>)
    requires FreeFor(output, was, q.free) && ForeignKept(q.free, hs0, hs)
    requires |q.free| == |q.scene.planes| && Infos(output.device.planes) == q.scene.planes
    ensures |was| == |hs0| == |hs| == |output.device.planes| == |q.free|
    ensures Misfit(q, hs) == ForeignMisfit(output, was, hs0)
  {
    hide HeldFits;
    if i :| 0 <= i < |hs0| && was[i] != null && was[i].output != output &&
            !HeldFits(output.device.planes[i].info, hs0[i]) {
      assert !q.free[i] && hs[i] == hs0[i];
    }
    if i :| 0 <= i < |hs| && !q.free[i] && !HeldFits(q.scene.planes[i], hs[i]) {
      assert hs[i] == hs0[i];
    }
  }

  lemma ReallocatedIgnoresMapping(v: OutputState, m: Alloc, a: Alloc)
    ensures Reallocated(v.(mapping := m), a) == Reallocated(v, a)
  {
  }

  /** Allocation `a` is in force, sound for the properties in `v0`, and the request agrees with the one
      that was accepted for it after the log `log0`. */
  ghost predicate Installs(output: Output, contents: seq<Entry>, q: Search, a: Alloc, v0: OutputState, log0: seq<Test>)
    requires SearchOk(q)
    reads output, output.device, output.device.planes, output.layers, output.device.kernel
  {
    && Sound(q.scene, a) && View(output) == Reallocated(v0, a)
    && AgreesOn(q, contents, RequestFor(q, a))
    && (!Nothing(a) ==> RequestFor(q, a) in Accepted(output.device.kernel.log, |log0|))
  }

  lemma UnmappedIsAbandoned(output: Output, v0: OutputState)
    requires Unmapped(output) && View(output) == v0.(mapping := View(output).mapping)
    requires |v0.mapping| == |output.device.planes|
    ensures Abandoned(v0, View(output))
  {
    hide Device.PlanesOk, Device.Linked;
    forall i | 0 <= i < |output.device.planes|
      ensures View(output).mapping[i] == None
    {
      assert output.device.planes[i] in output.device.planes;
    }
  }

  /** Everything liftoff_output_apply does when the old mapping is not used again. */
  method Reallocate(output: Output, req: Request, ghost hs0: seq<Option<Held>>)
      returns (o: Outcome, ghost q: Search, ghost found: Best)
    requires output.device.Valid() && output in output.device.outputs
    requires req.Valid() && output.device.kernel.Valid() && Holding(output.device.planes, hs0)
    modifies output`layersChanged, output.device.planes`layer, output.layers, req, output.device.kernel
    ensures output.device.Valid() && req.Valid() && output.device.kernel.Valid()
    ensures OnlyOwnMoved(output, old(Holders(output.device.planes)), Holders(output.device.planes))
    ensures ProblemOf(output, q, old(View(output)), old(Holders(output.device.planes)), old(req.Contents()))
    ensures SearchEnded(output.device.kernel, q, old(output.device.kernel.log), found, if o.Ret? then o.code else 0)
    ensures o == Ret(0) ==>
      Installs(output, req.Contents(), q, found.alloc, old(View(output)), old(output.device.kernel.log))
    ensures o == Ret(0) ==> !ForeignMisfit(output, old(Holders(output.device.planes)), hs0)
    ensures o.AssertionFailed? ==> ForeignMisfit(output, old(Holders(output.device.planes)), hs0)
    ensures o.Ret? && o.code != 0 ==> Abandoned(old(View(output)), View(output))
  {
    hide WellFormed, Flatten, DisableBatches, Unmapped, SearchEnded, OnlyOwnMoved, AllBasic, Device.Valid, Abandoned,
      Faithful, View, Holders, Holding, ForeignKept, Sound, AgreesOn, Current, Reallocated, Misfit, ForeignMisfit,
      Fits, Admissible, Free, FreeFor;
    ghost var was, before, log0 := Holders(output.device.planes), View(output), output.device.kernel.log;
    ghost var start := req.Contents();
    var ret, best;
    ghost var hs;
    ret, best, q, found, hs := ClearAndSearch(output, req, hs0);
    CurrentIgnoresMapping(before, View(output).mapping);
    FreeAfterUnmap(output, was);
    if ret != 0 {
      UnmappedIsAbandoned(output, before);
      return Ret(ret), q, found;
    }
    EndedFacts(output.device.kernel, q, log0, found);
    ghost var middle, mapping := Holders(output.device.planes), View(output).mapping;
    MisfitForeign(output, q, was, hs0, hs);
    o := Finish(output, req, best, q, start, found.alloc, hs);
    OnlyOwnMovedTwice(output, was, middle, Holders(output.device.planes));
    ReallocatedIgnoresMapping(before, mapping, found.alloc);
  }

  /** Every plane held by another output can take what its layer asks for now. */
  ghost predicate OthersFit(output: Output)
    reads output.device, output.device.planes
    reads set p | p in output.device.planes && p.layer != null :: p.layer
  {
    forall p {:trigger HolderFits(output, p)} :: p in output.device.planes ==> HolderFits(output, p)
  }

  ghost predicate HolderFits(output: Output, p: Plane)
    reads p, p.layer
  {
    p.layer != null && p.layer.output != output ==> Supports(p.info, p.layer.props)
  }

  lemma OthersFitMeans(output: Output, hs: seq<Option<Held>>)
    requires Holding(output.device.planes, hs)
    ensures OthersFit(output) <==> !ForeignMisfit(output, Holders(output.device.planes), hs)
  {
    hide Supports;
    forall i | 0 <= i < |hs|
      ensures HeldBy(output.device.planes[i]) == hs[i]
      ensures OthersFit(output) ==> HolderFits(output, output.device.planes[i])
    {
    }
    if !ForeignMisfit(output, Holders(output.device.planes), hs) {
      forall p | p in output.device.planes
        ensures HolderFits(output, p)
      {
        var i :| 0 <= i < |output.device.planes| && output.device.planes[i] == p;
        assert HeldBy(p) == hs[i];
      }
    }
  }

  /** While nothing is dirty the output's own planes fit, so only another output's can trip the
      assertion. */
  lemma ReuseMisfitIsForeign(output: Output, hs: seq<Option<Held>>)
    requires output.device.Valid() && output in output.device.outputs && Holding(output.device.planes, hs)
    requires Fitting(View(output)) && !Dirty(View(output)) && !AllHeldFit(Infos(output.device.planes), hs)
    ensures ForeignMisfit(output, Holders(output.device.planes), hs)
  {
    var v := View(output);
    CleanMeansFitting(v);
    var i :| 0 <= i < |hs| && !HeldFits(output.device.planes[i].info, hs[i]);
    assert HeldBy(output.device.planes[i]) == hs[i];
    if output.device.planes[i].layer.output == output {
      OwnPlaneFits(output, i);
    }
  }

  lemma OwnPlaneFits(output: Output, i: nat)
    requires output.device.Valid() && output in output.device.outputs && Consistent(View(output))
    requires AllScannable(Current(View(output)), View(output).mapping)
    requires i < |output.device.planes| && output.device.planes[i].layer != null
    requires output.device.planes[i].layer.output == output
    ensures HeldFits(output.device.planes[i].info, HeldBy(output.device.planes[i]))
  {
    hide Supports, WellFormed;
    var v := View(output);
    var p := output.device.planes[i];
    assert p in output.device.planes;
    var j := IndexOf(output.layers, p.layer).value;
    assert v.mapping[i] == Some(j) && v.layers[j] == output.layers[j].State();
    assert Scannable(Current(v), i, j);
  }

  /** reuse_previous_alloc leaves everything but the request and the kernel alone. */
  method TryReuse(output: Output, req: Request, ghost hs: seq<Option<Held>>) returns (o: Outcome)
    requires output.device.Valid() && req.Valid() && output.device.kernel.Valid()
    requires Holding(output.device.planes, hs) && AllBasic(Infos(output.device.planes))
    modifies req, output.device.kernel
    ensures output.device.Valid() && Holding(output.device.planes, hs) && req.Valid() && output.device.kernel.Valid()
    ensures View(output) == old(View(output)) && Holders(output.device.planes) == old(Holders(output.device.planes))
    ensures o == old(ReuseOutcome(output, hs, req.Contents()))
    ensures output.device.kernel.log ==
            if old(ReuseTests(output, hs))
            then old(output.device.kernel.log) + [Test(Whole(output.device, hs, old(req.Contents())), o.code)]
            else old(output.device.kernel.log)
    ensures o == Ret(0) ==> req.Contents() == Whole(output.device, hs, old(req.Contents()))
    ensures o.Ret? && o.code != 0 ==> req.Contents() == old(req.Contents())
    ensures forall o' :: o' in output.device.outputs && o' != output ==> View(o') == old(View(o'))
  {
    hide Distinct, AllBasic, HeldFits, Flatten, CurrentBatches, IndexOf, DistinctIds, Sorted, HasBasics, Dirty,
      AllHeldFit, Whole;
    o := ReusePreviousAlloc(output, req, hs);
  }

  lemma OtherViewsStay(output: Output, o: Output, was: seq<Layer?>)
    requires OnlyOwnMoved(output, was, Holders(o.device.planes))
    requires forall l :: l in o.layers ==> l.output != output
    ensures View(o).mapping == Choices(o.layers, was)
  {
    var now := Holders(o.device.planes);
    forall i | 0 <= i < |was|
      ensures IndexOf(o.layers, now[i]) == IndexOf(o.layers, was[i])
    {
    }
  }

  /** What a successful full allocation leaves: the best mapping the search can reach is installed, and
      the request agrees with the one the kernel accepted for it. `v0`, `holders0`, `start` and `log0`
      are the output, the planes, the request and the log before the call. */
  ghost predicate Recomputed(output: Output, contents: seq<Entry>, q: Search, found: Best,
                             v0: OutputState, holders0: seq<Layer?>, start: seq<Entry>, log0: seq<Test>)
    reads output, output.device, output.device.planes, output.layers, output.device.kernel
  {
    && ProblemOf(output, q, v0, holders0, start)
    && Installs(output, contents, q, found.alloc, v0, log0)
    && (output.device.kernel.Steady() ==>
          Searched(q, output.device.kernel.Accepts(), [], Best(-1, Nowhere(|q.scene.planes|)), found))
  }

  lemma RecomputedIsApplied(output: Output, contents: seq<Entry>, q: Search, found: Best,
                            v0: OutputState, holders0: seq<Layer?>, start: seq<Entry>, log0: seq<Test>)
    requires Recomputed(output, contents, q, found, v0, holders0, start, log0)
    ensures Applied(v0, View(output))
  {
    hide AgreesOn, Sound, View, Current, AllMarkedClean, WellFormed;
    assert View(output).mapping == found.alloc;
  }

  /** If no plane is held by another output and the kernel judges a request by its last writes, then the
      request handed back for a mapping that is not empty is itself accepted. */
  lemma RecomputedIsAccepted(output: Output, contents: seq<Entry>, q: Search, found: Best,
                             v0: OutputState, holders0: seq<Layer?>, start: seq<Entry>, log0: seq<Test>)
    requires Recomputed(output, contents, q, found, v0, holders0, start, log0)
    requires output.device.kernel.Valid() && output.device.kernel.Steady()
    requires ByLastWrites(output.device.kernel.Accepts())
    requires !Nothing(found.alloc) && forall i :: 0 <= i < |q.free| ==> q.free[i]
    ensures contents in output.device.kernel.Accepts()
  {
    hide View, Reallocated, Searched, LastWrite, Stacked, Separated, CompositionRule, AllScannable, WellFormed;
    output.device.kernel.AcceptedBySteady(|log0|);
    AgreeingIsAccepted(q, output.device.kernel.Accepts(), contents, RequestFor(q, found.alloc));
  }

  /** With a steady kernel the recomputed mapping follows the composition rule exactly if the search can reach
      an acceptable allocation; otherwise it is empty. */
  lemma RecomputedFollowsRule(output: Output, contents: seq<Entry>, q: Search, found: Best,
                              v0: OutputState, holders0: seq<Layer?>, start: seq<Entry>, log0: seq<Test>)
    requires Recomputed(output, contents, q, found, v0, holders0, start, log0) && output.device.kernel.Steady()
    ensures var a, ok := View(output).mapping, output.device.kernel.Accepts();
            && SearchOk(q) && q.scene == Current(v0) && (CompositionRule(q.scene, a) || Nothing(a))
            && (CompositionRule(q.scene, a) <==>
                  exists b :: |b| == |q.scene.planes| && Admissible(q, ok, b) && Acceptable(q.scene, b))
  {
    hide View, AgreesOn, Sound, CompositionRule, Acceptable, Searched, AllMarkedClean;
    RuleAfterSearch(q, output.device.kernel.Accepts(), Best(-1, Nowhere(|q.scene.planes|)), found);
  }

  lemma SearchEndedIsSearched(kernel: Kernel, q: Search, log0: seq<Test>, found: Best)
    requires SearchEnded(kernel, q, log0, found, 0) && kernel.Steady()
    ensures Searched(q, kernel.Accepts(), [], Best(-1, Nowhere(|q.scene.planes|)), found)
  {
    hide Challenged, Improved;
  }

  lemma AcceptedFromEarlier(log: seq<Test>, m: nat, n: nat)
    requires m <= n
    ensures Accepted(log, n) <= Accepted(log, m)
  {
  }

  /** Reallocate, with what it means for the other outputs. */
  method ReallocateApart(output: Output, req: Request, ghost hs0: seq<Option<Held>>)
      returns (o: Outcome, ghost q: Search, ghost found: Best)
    requires output.device.Valid() && output in output.device.outputs
    requires req.Valid() && output.device.kernel.Valid() && Holding(output.device.planes, hs0)
    modifies output`layersChanged, output.device.planes`layer, output.layers, req, output.device.kernel
    ensures output.device.Valid() && req.Valid() && output.device.kernel.Valid()
    ensures OnlyOwnMoved(output, old(Holders(output.device.planes)), Holders(output.device.planes))
    ensures ProblemOf(output, q, old(View(output)), old(Holders(output.device.planes)), old(req.Contents()))
    ensures SearchEnded(output.device.kernel, q, old(output.device.kernel.log), found, if o.Ret? then o.code else 0)
    ensures o == Ret(0) ==>
      Installs(output, req.Contents(), q, found.alloc, old(View(output)), old(output.device.kernel.log))
    ensures o == Ret(0) ==> !ForeignMisfit(output, old(Holders(output.device.planes)), hs0)
    ensures o.AssertionFailed? ==> ForeignMisfit(output, old(Holders(output.device.planes)), hs0)
    ensures o.Ret? && o.code != 0 ==> Abandoned(old(View(output)), View(output))
    ensures forall o' :: o' in output.device.outputs && o' != output ==> View(o') == old(View(o'))
  {
    hide AgreesOn, Sound, Current, Reallocated, Abandoned, SearchEnded, ProblemOf, ForeignMisfit, OnlyOwnMoved,
      Holding,
      Searched, RequestFor, IndexOf, Distinct, Installs;
    ghost var was := Holders(output.device.planes);
    assert forall o', l :: o' in output.device.outputs && o' != output && l in o'.layers ==>
      l.output != output && l !in output.layers;
    o, q, found := Reallocate(output, req, hs0);
    forall o' | o' in output.device.outputs && o' != output
      ensures View(o') == old(View(o'))
    {
      OtherViewsStay(output, o', was);
      assert o'.layers == old(o'.layers);
      forall j | 0 <= j < |o'.layers|
        ensures o'.layers[j].State() == old(o'.layers[j].State())
      {
        assert o'.layers[j] in o'.layers;
      }
      assert View(o').layers == old(View(o')).layers;
    }
  }

  /** ReallocateApart in a call whose log began as `log0`. */
  method ReallocateAfter(output: Output, req: Request, ghost hs0: seq<Option<Held>>, ghost log0: seq<Test>)
      returns (o: Outcome, ghost q: Search, ghost found: Best)
    requires output.device.Valid() && output in output.device.outputs
    requires req.Valid() && output.device.kernel.Valid() && Holding(output.device.planes, hs0)
    requires log0 <= output.device.kernel.log
    modifies output`layersChanged, output.device.planes`layer, output.layers, req, output.device.kernel
    ensures output.device.Valid() && req.Valid() && output.device.kernel.Valid()
    ensures OnlyOwnMoved(output, old(Holders(output.device.planes)), Holders(output.device.planes))
    ensures SearchEnded(output.device.kernel, q, old(output.device.kernel.log), found, if o.Ret? then o.code else 0)
    ensures |q.scene.layers| == |output.layers| && |q.scene.planes| == |output.device.planes|
    ensures SearchOk(q)
    ensures o == Ret(0) ==>
      Recomputed(output, req.Contents(), q, found, old(View(output)), old(Holders(output.device.planes)),
                 old(req.Contents()), log0)
    ensures ProblemOf(output, q, old(View(output)), old(Holders(output.device.planes)), old(req.Contents()))
    ensures o == Ret(0) ==> !ForeignMisfit(output, old(Holders(output.device.planes)), hs0)
    ensures o.AssertionFailed? ==> ForeignMisfit(output, old(Holders(output.device.planes)), hs0)
    ensures o.Ret? && o.code != 0 ==> Abandoned(old(View(output)), View(output))
    ensures forall o' :: o' in output.device.outputs && o' != output ==> View(o') == old(View(o'))
  {
    hide AgreesOn, Sound, View, Current, Reallocated, Abandoned, SearchEnded, ForeignMisfit, OnlyOwnMoved, Holding,
      Searched,
      Holders, RequestFor, FreeFor, AllBasic, Flatten, DisableBatches;
    ghost var was, log1 := Holders(output.device.planes), output.device.kernel.log;
    CurrentSizes(output);
    o, q, found := ReallocateApart(output, req, hs0);
    if o == Ret(0) {
      AcceptedFromEarlier(output.device.kernel.log, |log0|, |log1|);
      if output.device.kernel.Steady() {
        SearchEndedIsSearched(output.device.kernel, q, log1, found);
      }
    }
  }

  lemma CurrentSizes(output: Output)
    ensures |Current(View(output)).layers| == |output.layers|
    ensures |Current(View(output)).planes| == |output.device.planes|
  {
  }

  /** Whether the old mapping will be used again: nothing is dirty, every layer on a plane fits it, and the kernel
      is going to accept the request that writes every plane after `start`. */
  ghost predicate Reusable(output: Output, start: seq<Entry>)
    requires output.device.PlanesOk()
    reads output, output.device, output.device.planes, output.layers, output.device.kernel
    reads set p | p in output.device.planes && p.layer != null :: p.layer
  {
    BasicPlanes(output.device);
    ReuseOutcome(output, Helds(output.device.planes), start) == Ret(0)
  }

  /** Number of the first test that belongs to the search of a call: one test of the whole request comes first
      when nothing is dirty. */
  ghost function SearchFrom(output: Output): nat
    reads output, output.device, output.device.planes, output.layers, output.device.kernel
  {
    |output.device.kernel.log| + if Dirty(View(output)) then 0 else 1
  }

  /** liftoff_output_apply. `reused` tells which of its two ways was taken; `q` and `found` are the
      allocation problem and its solution when the mapping was computed. */
  method Apply(output: Output, req: Request)
      returns (o: Outcome, ghost reused: bool, ghost q: Search, ghost found: Best)
    requires output.device.Valid() && output in output.device.outputs
    requires req.Valid() && output.device.kernel.Valid()
    modifies output`layersChanged, output.device.planes`layer, output.layers, req, output.device.kernel
    ensures output.device.Valid() && req.Valid() && output.device.kernel.Valid()
    // other outputs keep their planes and see nothing, on any path
    ensures OnlyOwnMoved(output, old(Holders(output.device.planes)), Holders(output.device.planes))
    ensures forall o' :: o' in output.device.outputs && o' != output ==> View(o') == old(View(o'))
    // the old mapping is used again exactly when it can be
    ensures reused == old(Reusable(output, req.Contents())) && (reused ==> o == Ret(0))
    // success: a step of the cache's state machine
    ensures o == Ret(0) ==> Applied(old(View(output)), View(output))
    // success by reuse: the request itself has been accepted
    ensures reused ==>
      && !Dirty(old(View(output))) && View(output) == old(View(output))
      && req.Contents() in Accepted(output.device.kernel.log, |old(output.device.kernel.log)|)
    // success by recomputation: optimal, sound, and what is emitted is what was tested
    ensures o == Ret(0) && !reused ==>
      Recomputed(output, req.Contents(), q, found, old(View(output)), old(Holders(output.device.planes)),
                 old(req.Contents()), old(output.device.kernel.log))
    ensures !reused && o.Ret? ==>
      ProblemOf(output, q, old(View(output)), old(Holders(output.device.planes)), old(req.Contents()))
    // one test for the reuse, fewer than (L+1)^n for the search
    ensures |output.device.kernel.log| <=
            |old(output.device.kernel.log)| + Budget(|old(output.layers)|, |output.device.planes|)
    // the search succeeds unless an answer stops it, and then that answer is returned
    ensures !reused ==> SearchTests(q, output.device.kernel.log, old(SearchFrom(output)), if o.Ret? then o.code else 0)
    ensures o == Ret(0) && !reused && |q.scene.planes| > 0 ==>
      Probed(q, output.device.kernel.log, old(SearchFrom(output)), [], |q.scene.layers|)
    ensures o.Ret? && o.code != 0 ==> !output.device.kernel.Benign() && Abandoned(old(View(output)), View(output))
    // the assertion in apply_current
    ensures o == Ret(0) ==> old(OthersFit(output))
    ensures o.AssertionFailed? && Fitting(old(View(output))) ==> !old(OthersFit(output))
    ensures output.device.outputs == [output] && Fitting(old(View(output))) ==> !o.AssertionFailed?
  {
    hide View, Recomputed, Abandoned, OnlyOwnMoved, OthersFit, ForeignMisfit, Holders, Holding, Dirty, Fitting,
      Device.Valid, HeldFits, AllHeldFit, Whole, SearchTests, Probed, AllBasic, ProblemOf;
    reused, q, found := true, Search(Current(View(output)), [], []), Best(-1, []);
    ghost var hs, was, log0 := Helds(output.device.planes), Holders(output.device.planes), output.device.kernel.log;
    OthersFitMeans(output, hs);
    if output.device.outputs == [output] {
      SingleOutputFits(output);
    }
    PlanesAreBasic(output);
    OwnNeverMisfit(output, hs);
    StandStill(output, was);
    BudgetPositive(|output.layers|, |output.device.planes|);
    o := TryReuse(output, req, hs);
    reused := o == Ret(0);
    if o == Ret(0) {
      TestIsAccepted(log0, req.Contents());
      return;
    } else if o.AssertionFailed? {
      NoTests(q, log0, |log0| + 1);
      return;
    }
    ghost var from := |output.device.kernel.log|;
    o, q, found := ReallocateAfter(output, req, hs, log0);
    if o == Ret(0) {
      RecomputedIsApplied(output, req.Contents(), q, found, old(View(output)), was, old(req.Contents()), log0);
    } else if o.Ret? {
      ErrorComesFromDriver(q, output.device.kernel, from, o.code);
    }
  }

  lemma PlanesAreBasic(output: Output)
    requires output.device.Valid()
    ensures output.device.PlanesOk() && AllBasic(Infos(output.device.planes))
  {
    BasicPlanes(output.device);
  }

  // ----- what a recomputed mapping is good for -----

  /** The planes of a device on which only this output has layers show its mapping. */
  lemma OwnPlanesShow(output: Output, hs: seq<Option<Held>>, i: nat)
    requires output.device.Valid() && output in output.device.outputs && Holding(output.device.planes, hs)
    requires forall p :: p in output.device.planes && p.layer != null ==> p.layer.output == output
    requires i < |hs|
    ensures var v := View(output);
            && i < |v.mapping| && (v.mapping[i].Some? ==> v.mapping[i].value < |v.layers|)
            && hs[i] == if v.mapping[i].Some? then Some(Held(v.crtcId, v.layers[v.mapping[i].value].props)) else None
  {
    var p := output.device.planes[i];
    assert HeldBy(p) == hs[i] && p in output.device.planes;
    if p.layer != null {
      var j := IndexOf(output.layers, p.layer).value;
      assert View(output).layers[j] == output.layers[j].State();
    }
  }

  lemma CleanedValues(l: LayerState)
    ensures SameValues(l.props, MarkedClean(l).props)
  {
  }

  /** Marking the layers clean changes neither what they ask of their planes nor what is written for them. */
  lemma CleanedReemits(q: Search, v0: OutputState, a: Alloc, hs: seq<Option<Held>>)
    requires SearchOk(q) && q.scene == Current(v0) && Sound(q.scene, a) && |hs| == |a| && AllBasic(q.scene.planes)
    requires forall i {:trigger hs[i]} :: 0 <= i < |a| ==>
      hs[i] == if a[i].Some? then Some(Held(v0.crtcId, MarkedClean(v0.layers[a[i].value]).props)) else None
    ensures Reemits(q.scene, q.free, a, CurrentBatches(q.scene.planes, hs)) && AllHeldFit(q.scene.planes, hs)
  {
    hide Stacked, Separated, CompositionRule, MarkedClean, Supports, PropWrites;
    var w := CurrentBatches(q.scene.planes, hs);
    forall i | 0 <= i < |a|
      ensures HeldFits(q.scene.planes[i], hs[i])
      ensures w[i] == if a[i].Some? then ChoiceWrites(q.scene, i, a[i]) else DisableWrites(q.scene.planes[i])
    {
      assert HasBasics(q.scene.planes[i]) && w[i] == CurrentWrites(q.scene.planes[i], hs[i]);
      if a[i].Some? {
        var l := v0.layers[a[i].value];
        assert q.scene.layers[a[i].value] == Facts(l) && Scannable(q.scene, i, a[i].value);
        CleanedValues(l);
        SameValuesSameWrites(q.scene.planes[i], l.props, MarkedClean(l).props);
      }
    }
  }

  lemma PlacedHaveFb(s: Scene, v0: OutputState, a: Alloc)
    requires WellFormed(s) && s == Current(v0) && Sound(s, a)
    ensures forall i :: 0 <= i < |a| && a[i].Some? ==> Value(s.layers[a[i].value].props, FB_ID).Some?
  {
    hide Stacked, Separated, CompositionRule, Supports;
    forall i | 0 <= i < |a| && a[i].Some?
      ensures Value(s.layers[a[i].value].props, FB_ID).Some?
    {
      assert Scannable(s, i, a[i].value) && s.layers[a[i].value] == Facts(v0.layers[a[i].value]);
    }
  }

  /** After a recomputation that placed something, on a device where only this output has layers on planes and
      with a steady kernel that judges a request by its last writes: the next apply of the unchanged output,
      with a request that starts like the first one, uses the mapping again. */
  lemma ReusableAfterwards(output: Output, contents: seq<Entry>, q: Search, found: Best,
                           v0: OutputState, holders0: seq<Layer?>, start: seq<Entry>, log0: seq<Test>)
    requires Recomputed(output, contents, q, found, v0, holders0, start, log0)
    requires output.device.Valid() && output in output.device.outputs
    requires output.device.kernel.Valid() && output.device.kernel.Steady()
    requires ByLastWrites(output.device.kernel.Accepts())
    requires !Nothing(found.alloc) && forall i :: 0 <= i < |q.free| ==> q.free[i]
    requires forall p :: p in output.device.planes && p.layer != null ==> p.layer.output == output
    ensures Reusable(output, start)
  {
    hide Sound, View, Reallocated, Searched, LastWrite, ByLastWrites, Reemits, Current, WellFormed, Device.Valid,
      AgreesOn, Dirty, RequestFor, DisableBatches, CurrentBatches, MarkedClean, AllHeldFit, AllBasic;
    var hs, a, ok := Helds(output.device.planes), found.alloc, output.device.kernel.Accepts();
    PlanesAreBasic(output);
    SoundMeansFits(q.scene, a);
    RecomputedView(output, q, v0, a);
    forall i | 0 <= i < |hs|
      ensures hs[i] == if a[i].Some? then Some(Held(v0.crtcId, MarkedClean(v0.layers[a[i].value]).props)) else None
    {
      OwnPlanesShow(output, hs, i);
    }
    CleanedReemits(q, v0, a, hs);
    PlacedHaveFb(q.scene, v0, a);
    output.device.kernel.AcceptedBySteady(|log0|);
    WholeIsAccepted(q, ok, start, a, CurrentBatches(q.scene.planes, hs));
  }

  lemma SoundMeansFits(s: Scene, a: Alloc)
    requires WellFormed(s) && Sound(s, a)
    ensures Fits(s, a) && |a| == |s.planes|
  {
  }

  lemma RecomputedView(output: Output, q: Search, v0: OutputState, a: Alloc)
    requires q.scene == Current(v0) && View(output) == Reallocated(v0, a)
    ensures !Dirty(View(output)) && Infos(output.device.planes) == q.scene.planes && View(output).mapping == a
    ensures View(output).crtcId == v0.crtcId && |View(output).layers| == |v0.layers| == |q.scene.layers|
    ensures forall j :: 0 <= j < |v0.layers| ==> View(output).layers[j] == MarkedClean(v0.layers[j])
  {
    hide MarkedClean, Dirty;
    ReallocatedIsSame(v0, a);
  }

  lemma StandStill(output: Output, was: seq<Layer?>)
    requires output.device.Valid() && was == Holders(output.device.planes)
    ensures OnlyOwnMoved(output, was, was)
  {
  }

  /** Before anything is applied: if all planes fit then those of the others do, and while nothing is
      dirty a plane that does not fit is another output's. */
  lemma OwnNeverMisfit(output: Output, hs: seq<Option<Held>>)
    requires output.device.Valid() && output in output.device.outputs && Holding(output.device.planes, hs)
    ensures AllHeldFit(Infos(output.device.planes), hs) ==>
            !ForeignMisfit(output, Holders(output.device.planes), hs)
    ensures Fitting(View(output)) && !Dirty(View(output)) && !AllHeldFit(Infos(output.device.planes), hs) ==>
            ForeignMisfit(output, Holders(output.device.planes), hs)
  {
    hide Fitting, Dirty, HeldFits, Device.Valid, View;
    if Fitting(View(output)) && !Dirty(View(output)) && !AllHeldFit(Infos(output.device.planes), hs) {
      ReuseMisfitIsForeign(output, hs);
    }
  }

  /** On a device with a single output there is no other output whose plane could misfit. */
  lemma SingleOutputFits(output: Output)
    requires output.device.Valid() && output.device.outputs == [output]
    ensures OthersFit(output)
  {
    assert forall o :: o in output.device.outputs ==> o == output;
  }

  /** On such a device a clean output is one whose mapping will be used again, if the kernel agrees. */
  lemma CleanSingleOutputReuses(output: Output, start: seq<Entry>)
    requires output.device.Valid() && output.device.outputs == [output]
    requires Fitting(View(output)) && !Dirty(View(output))
    ensures output.device.PlanesOk() && AllBasic(Infos(output.device.planes))
    ensures var kernel, whole := output.device.kernel, Whole(output.device, Helds(output.device.planes), start);
            Reusable(output, start) <==> kernel.answer(kernel.commits, whole) == 0
  {
    hide Fitting, Dirty, View, Device.Valid, AllHeldFit, AllBasic, HeldFits, ForeignMisfit, Whole;
    var hs := Helds(output.device.planes);
    PlanesAreBasic(output);
    SingleOutputFits(output);
    OthersFitMeans(output, hs);
    OwnNeverMisfit(output, hs);
  }

  /** After a page flip, or any other change that calls for no new allocation, the mapping of a clean single output
      is used again exactly if the kernel accepts the request that writes every plane. */
  lemma FlippedIsReused(output: Output, v: OutputState, op: Op, start: seq<Entry>)
    requires output.device.Valid() && output.device.outputs == [output]
    requires Fitting(v) && !Dirty(v) && op.SetProperty? && Light(op, v) && View(output) == Edited(op, v)
    ensures View(output).mapping == v.mapping && output.device.PlanesOk() && AllBasic(Infos(output.device.planes))
    ensures var kernel, whole := output.device.kernel, Whole(output.device, Helds(output.device.planes), start);
            Reusable(output, start) <==> kernel.answer(kernel.commits, whole) == 0
  {
    hide Fitting, Dirty, View, Device.Valid, AllBasic, Whole, Reusable, SetLayerProperty;
    StepKeepsFitting(op, v, View(output));
    FlipStaysClean(v, op.j, op.name, op.value);
    CleanSingleOutputReuses(output, start);
  }

  /** liftoff_output_needs_composition in terms of the mapping. */
  lemma NeedsCompositionMeans(output: Output)
    requires output.device.Valid() && output in output.device.outputs
    ensures (exists l :: l in output.layers && l.NeedsComposition()) <==>
            SomeUnplaced(Current(View(output)), View(output).mapping)
  {
    var s, a := Current(View(output)), View(output).mapping;
    forall j: nat | j < |output.layers|
      ensures output.layers[j].NeedsComposition() <==> s.layers[j].visible && Some(j) !in a
    {
      LayerPlaceMeans(output, j);
      assert View(output).layers[j] == output.layers[j].State();
    }
    forall l | l in output.layers && l.NeedsComposition()
      ensures SomeUnplaced(s, a)
    {
      var j :| 0 <= j < |output.layers| && output.layers[j] == l;
      assert s.layers[j].visible && Some(j) !in a;
    }
    if SomeUnplaced(s, a) {
      var j: nat :| j < |s.layers| && s.layers[j].visible && Some(j) !in a;
      assert output.layers[j].NeedsComposition();
    }
  }

  lemma LayerPlaceMeans(output: Output, j: nat)
    requires output.device.Valid() && output in output.device.outputs && j < |output.layers|
    ensures output.layers[j].plane == null <==> Some(j) !in View(output).mapping
  {
    hide WellFormed;
    var l, a := output.layers[j], View(output).mapping;
    IndexUnique(output.layers, j);
    if l.plane != null {
      var i :| 0 <= i < |output.device.planes| && output.device.planes[i] == l.plane;
      assert a[i] == Some(j);
    }
    if Some(j) in a {
      var i :| 0 <= i < |a| && a[i] == Some(j);
      assert output.device.planes[i] in output.device.planes && output.device.planes[i].layer == l;
    }
  }
}
