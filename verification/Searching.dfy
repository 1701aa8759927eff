/** output_choose_layers and the checks it makes (alloc.c:70-474). */
module Searching {
  import opened Sequences
  import opened Props
  import opened Atomic
  import opened Hardware
  import opened Scenes
  import opened Stacking
  import opened Optimum
  import opened Cache
  import opened Objects
  import opened Walks

  /** Data of one whole allocation. */
  class AllocResult {
    const req: Request
    const best: array<Layer?>
    const planesLen: nat
    const hasCompositionLayer: bool
    const nonCompositionLayersLen: nat
    var bestScore: int

    constructor (req: Request, planesLen: nat, hasCompositionLayer: bool, nonCompositionLayersLen: nat)
      ensures this.req == req && this.planesLen == planesLen && this.hasCompositionLayer == hasCompositionLayer
      ensures this.nonCompositionLayersLen == nonCompositionLayersLen
      ensures bestScore == -1 && fresh(best) && best.Length == planesLen
      ensures forall i :: 0 <= i < planesLen ==> best[i] == null
    {
      this.req, this.planesLen := req, planesLen;
      this.hasCompositionLayer, this.nonCompositionLayersLen := hasCompositionLayer, nonCompositionLayersLen;
      bestScore := -1;
      best := new Layer?[planesLen](_ => null);
    }
  }

  /** Arguments of one step. All steps of a search write the same `alloc`, of which a step owns the
      entries below `planeIdx`. */
  class AllocStep {
    var planeIdx: nat
    const alloc: array<Layer?>
    var score: int
    var lastLayerZpos: int32
    var composited: bool

    constructor (alloc: array<Layer?>)
      ensures this.alloc == alloc
      ensures planeIdx == 0 && score == 0 && lastLayerZpos == INT_MAX && !composited
    {
      this.alloc := alloc;
      planeIdx, score, lastLayerZpos, composited := 0, 0, INT_MAX, false;
    }
  }

  predicate Faithful(layers: seq<Layer>, a: seq<Layer?>) {
    forall i :: 0 <= i < |a| && a[i] != null ==> a[i] in layers
  }

  ghost predicate Depicted(l: Layer, f: LayerFacts)
    reads l
  {
    Facts(l.State()) == f
  }

  /** `s` has the planes and the layers of this output. */
  ghost predicate Shows(output: Output, s: Scene)
    reads output, output.device, output.layers
  {
    && Infos(output.device.planes) == s.planes
    && |output.layers| == |s.layers|
    && forall j {:trigger Depicted(output.layers[j], s.layers[j])} :: 0 <= j < |output.layers| ==>
         Depicted(output.layers[j], s.layers[j])
  }

  /** `q` is the allocation problem of this output, none of whose layers has a plane. */
  ghost predicate Depicts(output: Output, q: Search)
    reads output, output.device, output.device.planes, output.layers
  {
    && SearchOk(q) && Shows(output, q.scene) && Distinct(output.layers)
    && (forall i :: 0 <= i < |q.free| ==> q.free[i] == (output.device.planes[i].layer == null))
    && (forall l :: l in output.layers ==> l.plane == null && l.output == output)
    && q.scene.comp == IndexOf(output.layers, output.compositionLayer)
    && (output.compositionLayer != null ==> output.compositionLayer in output.layers)
    && q.scene.crtcIndex == output.crtcIndex && q.scene.crtcId == output.crtcId
  }

  /** The choices a step owns, as layer positions. */
  ghost function Prefix(output: Output, step: AllocStep): Alloc
    requires step.planeIdx <= step.alloc.Length
    reads output, step, step.alloc
  {
    Choices(output.layers, step.alloc[..step.planeIdx])
  }

  /** The entries the step owns are layers of the output. */
  ghost predicate StepShape(output: Output, s: Scene, step: AllocStep)
    reads output, step, step.alloc
  {
    && step.planeIdx <= step.alloc.Length == |s.planes|
    && |output.layers| == |s.layers|
    && Faithful(output.layers, step.alloc[..step.planeIdx])
  }

  /** The step's running values are those of its prefix. */
  ghost predicate StepOk(output: Output, s: Scene, step: AllocStep)
    reads output, step, step.alloc
  {
    && StepShape(output, s, step)
    && var p := Prefix(output, step);
      && step.score == Score(s, p)
      && step.lastLayerZpos == LastZpos(s, p)
      && step.composited == Composited(s, p)
  }

  lemma AllocatedIs(layers: seq<Layer>, a: seq<Layer?>, j: nat)
    requires Distinct(layers) && j < |layers|
    ensures layers[j] in a <==> Some(j) in Choices(layers, a)
  {
    IndexUnique(layers, j);
    var c := Choices(layers, a);
    if layers[j] in a {
      var i :| 0 <= i < |a| && a[i] == layers[j];
      assert c[i] == Some(j);
    }
  }

  method IsLayerAllocated(step: AllocStep, layer: Layer) returns (b: bool)
    requires step.planeIdx <= step.alloc.Length
    ensures b <==> layer in step.alloc[..step.planeIdx]
  {
    var i := 0;
    while i < step.planeIdx
      invariant i <= step.planeIdx && layer !in step.alloc[..i]
    {
      if step.alloc[i] == layer {
        return true;
      }
      i := i + 1;
    }
    return false;
  }

  /** Whether `other` has a zpos, a greater one than `layer`'s property number `z`, and overlaps it. */
  method IsOver(output: Output, other: Layer, layer: Layer, z: nat, ghost s: Scene, ghost k: nat, ghost j: nat)
      returns (b: bool)
    requires Shows(output, s) && k < |output.layers| && j < |output.layers|
    requires output.layers[k] == other && output.layers[j] == layer
    requires z == Find(layer.props, ZPOS) < |layer.props|
    ensures b <==> Above(s, k, j)
  {
    assert Depicted(output.layers[k], s.layers[k]);
    assert Depicted(output.layers[j], s.layers[j]);
    var oz := other.GetProperty(ZPOS);
    b := oz < |other.props| && Overlap(RectOf(layer.props), RectOf(other.props)) &&
         other.props[oz].value > layer.props[z].value;
  }

  lemma NoZpos(output: Output, s: Scene, j: nat)
    requires Shows(output, s) && j < |output.layers|
    requires Find(output.layers[j].props, ZPOS) == |output.layers[j].props|
    ensures s.layers[j].zpos == None
  {
    assert Depicted(output.layers[j], s.layers[j]);
  }

  method HasCompositedLayerOver(output: Output, step: AllocStep, layer: Layer, ghost s: Scene, ghost j: nat)
      returns (b: bool)
    requires Shows(output, s) && Distinct(output.layers) && StepShape(output, s, step) && j < |output.layers|
    requires output.layers[j] == layer
    ensures b <==> CompositedOver(s, Prefix(output, step), j)
  {
    ghost var p := Prefix(output, step);
    var z := layer.GetProperty(ZPOS);
    if z == |layer.props| {
      NoZpos(output, s, j);
      return false;
    }
    var k := 0;
    while k < |output.layers|
      invariant k <= |output.layers|
      invariant forall m: nat :: m < k && Some(m) !in p ==> !Above(s, m, j)
    {
      var other := output.layers[k];
      var placed := IsLayerAllocated(step, other);
      AllocatedIs(output.layers, step.alloc[..step.planeIdx], k);
      if !placed {
        var over := IsOver(output, other, layer, z, s, k, j);
        if over {
          return true;
        }
      }
      k := k + 1;
    }
    return false;
  }

  method HasAllocatedLayerOver(output: Output, step: AllocStep, layer: Layer, ghost s: Scene, ghost j: nat)
      returns (b: bool)
    requires Shows(output, s) && Distinct(output.layers) && StepShape(output, s, step) && j < |output.layers|
    requires output.layers[j] == layer
    ensures b <==> AllocatedOver(s, Prefix(output, step), j)
  {
    ghost var p := Prefix(output, step);
    var z := layer.GetProperty(ZPOS);
    if z == |layer.props| {
      NoZpos(output, s, j);
      return false;
    }
    var i := 0;
    while i < step.planeIdx
      invariant i <= step.planeIdx
      invariant forall m: nat :: m < i && OnOverlay(s, p, m) ==> !Above(s, j, p[m].value)
    {
      var other := step.alloc[i];
      if output.device.planes[i].info.kind != PRIMARY && other != null {
        assert OnOverlay(s, p, i) && output.layers[p[i].value] == other;
        var oz := other.GetProperty(ZPOS);
        if oz < |other.props| {
          var over := IsOver(output, layer, other, oz, s, j, p[i].value);
          if over {
            return true;
          }
        } else {
          NoZpos(output, s, p[i].value);
        }
      }
      i := i + 1;
    }
    return false;
  }

  method HasAllocatedPlaneUnder(output: Output, step: AllocStep, layer: Layer, ghost s: Scene, ghost j: nat)
      returns (b: bool)
    requires Shows(output, s) && Distinct(output.layers) && StepShape(output, s, step) && j < |output.layers|
    requires output.layers[j] == layer
    requires step.planeIdx < |output.device.planes|
    ensures b <==> PlaneUnder(s, Prefix(output, step), j)
  {
    ghost var p := Prefix(output, step);
    var plane := output.device.planes[step.planeIdx];
    assert Depicted(layer, s.layers[j]);
    var i := 0;
    while i < step.planeIdx
      invariant i <= step.planeIdx
      invariant forall m: nat :: m < i && OnOverlay(s, p, m) ==>
        !(plane.info.zpos >= s.planes[m].zpos &&
          Overlap(s.layers[j].rect, s.layers[p[m].value].rect))
    {
      var other := step.alloc[i];
      if output.device.planes[i].info.kind != PRIMARY && other != null {
        assert OnOverlay(s, p, i) && output.layers[p[i].value] == other;
        assert Depicted(other, s.layers[p[i].value]);
        if plane.info.zpos >= output.device.planes[i].info.zpos &&
           Overlap(RectOf(layer.props), RectOf(other.props)) {
          return true;
        }
      }
      i := i + 1;
    }
    return false;
  }

  method CheckLayerPlaneCompatible(output: Output, step: AllocStep, layer: Layer, plane: Plane,
                                   ghost s: Scene, ghost j: nat)
      returns (b: bool)
    requires Shows(output, s) && Distinct(output.layers) && StepOk(output, s, step) && j < |output.layers|
    requires output.layers[j] == layer
    requires step.planeIdx < |output.device.planes| && output.device.planes[step.planeIdx] == plane
    requires layer.output == output && s.comp == IndexOf(output.layers, output.compositionLayer)
    ensures b <==> Compatible(s, Prefix(output, step), j)
  {
    AllocatedIs(output.layers, step.alloc[..step.planeIdx], j);
    var placed := IsLayerAllocated(step, layer);
    if placed {
      return false;
    }
    var z := layer.GetProperty(ZPOS);
    assert Depicted(layer, s.layers[j]);
    if z < |layer.props| {
      if ToInt32(layer.props[z].value) > step.lastLayerZpos {
        var over := HasAllocatedLayerOver(output, step, layer, s, j);
        if over {
          return false;
        }
      }
      if ToInt32(layer.props[z].value) < step.lastLayerZpos {
        var under := HasAllocatedPlaneUnder(output, step, layer, s, j);
        if under {
          return false;
        }
      }
    }
    if plane.info.kind != PRIMARY {
      var composited := HasCompositedLayerOver(output, step, layer, s, j);
      if composited {
        return false;
      }
      IndexUnique(output.layers, j);
      if layer == layer.output.compositionLayer {
        return false;
      }
    }
    return true;
  }

  method CheckAllocValid(output: Output, result: AllocResult, step: AllocStep, ghost s: Scene) returns (b: bool)
    requires StepOk(output, s, step)
    requires result.hasCompositionLayer == s.comp.Some? && result.nonCompositionLayersLen == |ToShow(s)|
    ensures b <==> Acceptable(s, Prefix(output, step))
  {
    if result.hasCompositionLayer && !step.composited && step.score != result.nonCompositionLayersLen {
      return false;
    }
    if step.composited && step.score == result.nonCompositionLayersLen {
      return false;
    }
    return true;
  }

  // ----- the step's running values -----

  lemma LastOf(s: Scene, p: Alloc, c: Option<nat>)
    requires Fits(s, p + [c])
    ensures var t := p + [c];
            && Score(s, t) == Score(s, p) + (if c.Some? && c != s.comp then 1 else 0)
            && Composited(s, t) == (Composited(s, p) || (c.Some? && c == s.comp))
            && LastZpos(s, t) == if c.Some? && s.planes[|p|].kind != PRIMARY && s.layers[c.value].zpos.Some?
                                 then ToInt32(s.layers[c.value].zpos.value) else LastZpos(s, p)
  {
    assert (p + [c])[..|p|] == p;
  }

  /** last_layer_zpos once `layer` is chosen for `plane` */
  method ZposAfter(output: Output, prev: AllocStep, layer: Layer?, plane: Plane, ghost s: Scene) returns (r: int32)
    requires Shows(output, s) && (layer != null ==> layer in output.layers)
    ensures r == var c := IndexOf(output.layers, layer);
                 if c.Some? && plane.info.kind != PRIMARY && s.layers[c.value].zpos.Some?
                 then ToInt32(s.layers[c.value].zpos.value) else prev.lastLayerZpos
  {
    if layer != null {
      var z := layer.GetProperty(ZPOS);
      ghost var c := IndexOf(output.layers, layer).value;
      assert Depicted(output.layers[c], s.layers[c]);
      if z < |layer.props| && plane.info.kind != PRIMARY {
        return ToInt32(layer.props[z].value);
      }
    }
    return prev.lastLayerZpos;
  }

  /** plane_step_init_next */
  method InitNext(step: AllocStep, prev: AllocStep, output: Output, layer: Layer?, ghost q: Search)
    requires Depicts(output, q) && StepOk(output, q.scene, prev) && prev.planeIdx < |output.device.planes|
    requires step != prev && step.alloc == prev.alloc
    requires layer != null ==> layer in output.layers
    requires layer != null && IndexOf(output.layers, layer) == q.scene.comp ==>
      !Composited(q.scene, Prefix(output, prev))
    modifies step, step.alloc
    ensures StepOk(output, q.scene, step) && step.planeIdx == prev.planeIdx + 1
    ensures step.alloc[..prev.planeIdx] == old(step.alloc[..prev.planeIdx])
    ensures Prefix(output, step) == old(Prefix(output, prev)) + [IndexOf(output.layers, layer)]
  {
    hide WellFormed, Score, LastZpos, Composited;
    ghost var p, c, s := Prefix(output, prev), IndexOf(output.layers, layer), q.scene;
    ghost var was := prev.alloc[..prev.planeIdx];
    var plane := output.device.planes[prev.planeIdx];
    LastOf(s, p, c);
    var lastLayerZpos := ZposAfter(output, prev, layer, plane, s);
    step.planeIdx := prev.planeIdx + 1;
    step.alloc[prev.planeIdx] := layer;
    assert step.alloc[..step.planeIdx] == was + [layer];
    assert Prefix(output, step) == p + [c];
    if layer != null && layer == layer.output.compositionLayer {
      assert !prev.composited;
      step.composited := true;
    } else {
      step.composited := prev.composited;
    }
    if layer != null && layer != layer.output.compositionLayer {
      step.score := prev.score + 1;
    } else {
      step.score := prev.score;
    }
    step.lastLayerZpos := lastLayerZpos;
  }

  // ----- one layer on one plane -----

  lemma RequestChild(q: Search, p: Alloc, j: nat)
    requires SearchOk(q) && Fits(q.scene, p) && |p| < |q.scene.planes| && j < |q.scene.layers|
    ensures HasBasics(q.scene.planes[|p|])
    ensures RequestFor(q, p + [Some(j)]) ==
            RequestFor(q, p) + EnableWrites(q.scene.planes[|p|], q.scene.crtcId, q.scene.layers[j].props)
  {
    var t := p + [Some(j)];
    assert t[..|t| - 1] == p;
    assert HasBasics(q.scene.planes[|p|]);
    assert RequestFor(q, t) == RequestFor(q, p) + ChoiceWrites(q.scene, |p|, Some(j));
  }

  /** The step is about plane number `planeIdx`, which this output may use. */
  ghost predicate AtPlane(output: Output, q: Search, step: AllocStep, plane: Plane)
    reads output, output.device, output.device.planes, output.layers, step, step.alloc
  {
    && Depicts(output, q) && StepOk(output, q.scene, step)
    && step.planeIdx < |output.device.planes| && output.device.planes[step.planeIdx] == plane
    && Usable(q, step.planeIdx)
  }

  /** The checks that need no request. */
  method Eligible(output: Output, step: AllocStep, plane: Plane, layer: Layer, ghost q: Search, ghost j: nat)
      returns (b: bool)
    requires AtPlane(output, q, step, plane) && j < |output.layers| && output.layers[j] == layer
    ensures b <==> !q.scene.layers[j].forced && q.scene.layers[j].visible &&
                   Compatible(q.scene, Prefix(output, step), j)
  {
    assert Depicted(output.layers[j], q.scene.layers[j]);
    if layer.plane != null || layer.forceComposition {
      return false;
    }
    if !Visible(layer.props, layer.forceComposition) {
      return false;
    }
    b := CheckLayerPlaneCompatible(output, step, layer, plane, q.scene, j);
  }

  /** Everything the loop body checks before it descends: the layer is put into the request and the
      request is tested. */
  method Propose(output: Output, req: Request, step: AllocStep, plane: Plane, layer: Layer,
                 ghost q: Search, ghost p: Alloc, ghost j: nat)
      returns (ret: int, accepted: bool)
    requires AtPlane(output, q, step, plane) && j < |output.layers| && output.layers[j] == layer
    requires req.Valid() && output.device.kernel.Valid()
    requires p == Prefix(output, step) && req.Contents() == RequestFor(q, p)
    modifies req, output.device.kernel
    ensures req.Valid() && output.device.kernel.Valid()
    ensures RequestFor(q, p) <= req.Contents()
    ensures !Proposed(q, p, j) ==> ret == 0 && !accepted && output.device.kernel.log == old(output.device.kernel.log)
    ensures Proposed(q, p, j) ==>
      var r := RequestFor(q, p + [Some(j)]);
      var answer := output.device.kernel.answer(old(output.device.kernel.commits), r);
      && req.Contents() == r && output.device.kernel.log == old(output.device.kernel.log) + [Test(r, answer)]
      && accepted == (answer == 0) && ret == if Tolerated(answer) then 0 else answer
    ensures ret == 0 && !accepted && output.device.kernel.Steady() ==>
      !Placeable(q, output.device.kernel.Accepts(), p, j)
  {
    accepted := false;
    var eligible := Eligible(output, step, plane, layer, q, j);
    if !eligible {
      return 0, false;
    }
    assert Depicted(output.layers[j], q.scene.layers[j]);
    RequestChild(q, p, j);
    ret := plane.Apply(layer, req);
    if ret == -EINVAL {
      return 0, false;
    } else if ret != 0 {
      return;
    }
    ret := output.device.kernel.TestCommit(req);
    if ret == 0 {
      accepted := true;
    } else if ret != -EINVAL && ret != -ERANGE && ret != -ENOSPC {
      return;
    } else {
      ret := 0;
    }
  }

  // ----- the search -----

  ghost predicate ResultOk(output: Output, q: Search, result: AllocResult, alloc: array<Layer?>)
    reads result, result.best, output
  {
    && result.best.Length == result.planesLen == |q.scene.planes|
    && result.hasCompositionLayer == q.scene.comp.Some? && result.nonCompositionLayersLen == |ToShow(q.scene)|
    && result.best != alloc && Faithful(output.layers, result.best[..])
  }

  /** The record and the log as they stand. */
  ghost function Now(output: Output, result: AllocResult): Progress
    reads result, result.best, output, output.device, output.device.kernel
  {
    Progress(Best(result.bestScore, Choices(output.layers, result.best[..])), output.device.kernel.log)
  }

  /** A node of the tree: the choices so far are `p`, all accepted, and the request holds them. */
  ghost predicate AtNode(output: Output, q: Search, result: AllocResult, step: AllocStep, from: nat, p: Alloc)
    reads output, output.device, output.device.planes, output.layers, step, step.alloc
    reads result, result.best, result.req, output.device.kernel
  {
    && Depicts(output, q) && StepOk(output, q.scene, step) && ResultOk(output, q, result, step.alloc)
    && result.req.Valid() && output.device.kernel.Valid()
    && p == Prefix(output, step) && result.req.Contents() == RequestFor(q, p)
    && from <= |output.device.kernel.log|
    && Admissible(q, Accepted(output.device.kernel.log, from), p)
  }

  function Budget(layers: nat, planes: nat): nat {
    Pow(layers + 1, planes)
  }

  lemma BudgetPositive(layers: nat, planes: nat)
    ensures Budget(layers, planes) > 0
  {
    PowPositive(layers + 1, planes);
  }

  method RecordBest(output: Output, result: AllocResult, step: AllocStep,
                    ghost q: Search, ghost from: nat, ghost p: Alloc)
    requires AtNode(output, q, result, step, from, p) && step.planeIdx == |output.device.planes|
    modifies result`bestScore, result.best
    ensures ResultOk(output, q, result, step.alloc)
    ensures Now(output, result).best ==
            var b := old(Now(output, result)).best;
            if Score(q.scene, p) > b.score && Acceptable(q.scene, p) then Best(Score(q.scene, p), p) else b
    ensures WalkedAll(q, output.device.kernel, from, p, old(Now(output, result)), Now(output, result))
  {
    ghost var before, kernel := Now(output, result), output.device.kernel;
    if kernel.Steady() {
      kernel.AcceptedBySteady(from);
      AdmissibleMonotone(q, Accepted(kernel.log, from), kernel.Accepts(), p);
    }
    if step.score > result.bestScore {
      var valid := CheckAllocValid(output, result, step, q.scene);
      if valid {
        result.bestScore := step.score;
        forall i | 0 <= i < result.planesLen {
          result.best[i] := step.alloc[i];
        }
        assert result.best[..] == step.alloc[..step.planeIdx];
      }
    }
    WalkLeaf(q, kernel, from, p, before, Now(output, result));
  }

  /** What a call at the node `p` leaves behind. `s0` is the progress before it. */
  ghost predicate LeftNode(output: Output, q: Search, result: AllocResult, step: AllocStep, from: nat, p: Alloc,
                           s0: Progress, budget: nat, ret: int)
    reads output, output.device, output.device.planes, output.layers, step, step.alloc
    reads result, result.best, result.req, output.device.kernel
  {
    var log := output.device.kernel.log;
    && Depicts(output, q) && Fits(q.scene, p) && ResultOk(output, q, result, step.alloc)
    && result.req.Valid() && output.device.kernel.Valid()
    && s0.log <= log && |log| < |s0.log| + budget
    && (ret == 0 ==>
          result.req.Contents() == RequestFor(q, p) &&
          WalkedAll(q, output.device.kernel, from, p, s0, Now(output, result)))
    && SearchTests(q, log, |s0.log|, ret)
    && (|p| == |q.scene.planes| || Hopeless(q, p, s0.best) ==> ret == 0 && log == s0.log)
    && (ret == 0 && |p| < |q.scene.planes| && !Hopeless(q, p, s0.best) ==>
          Probed(q, log, |s0.log|, p, |q.scene.layers|))
  }

  lemma NotYetComposited(q: Search, ok: iset<seq<Entry>>, p: Alloc, c: Option<nat>)
    requires SearchOk(q) && Admissible(q, ok, p + [c]) && c.Some? && c == q.scene.comp
    ensures !Composited(q.scene, p)
  {
    AdmissibleStep(q, ok, p + [c], |p|);
    assert (p + [c])[..|p|] == p;
  }

  /** plane_step_init_next and the recursive call. */
  method Descend(output: Output, result: AllocResult, step: AllocStep, next: AllocStep, layer: Layer?,
                 ghost q: Search, ghost from: nat, ghost p: Alloc, ghost c: Option<nat>)
      returns (ret: int)
    requires SearchOk(q) && Fits(q.scene, p + [c])
    requires Depicts(output, q) && StepOk(output, q.scene, step) && ResultOk(output, q, result, step.alloc)
    requires step.planeIdx < step.alloc.Length == |output.device.planes|
    requires p == Prefix(output, step) && result.req.Valid() && output.device.kernel.Valid()
    requires next != step && next.alloc == step.alloc
    requires c == IndexOf(output.layers, layer) && (layer != null ==> c.Some?)
    requires from <= |output.device.kernel.log|
    requires Admissible(q, Accepted(output.device.kernel.log, from), p + [c])
    requires result.req.Contents() == RequestFor(q, p + [c])
    modifies next, step.alloc, result`bestScore, result.best, result.req, output.device.kernel
    ensures next.alloc == step.alloc
    ensures step.alloc[..step.planeIdx] == old(step.alloc[..step.planeIdx])
    ensures LeftNode(output, q, result, step, from, p + [c], old(Now(output, result)),
                     Budget(|output.layers|, |output.device.planes| - step.planeIdx - 1), ret)
    decreases |output.device.planes| - step.planeIdx, 0
  {
    hide Walked, Admissible, Depicts, StepOk, Acceptable, SearchTests, Probed, WalkedAll, RequestFor, WellFormed;
    if c.Some? && c == q.scene.comp {
      NotYetComposited(q, Accepted(output.device.kernel.log, from), p, c);
    }
    InitNext(next, step, output, layer, q);
    ret := ChooseLayers(output, result, next, q, from, p + [c]);
  }

  /** Back at the node `p` after some of its children: the request is that of `p` again, unless an error
      ends the search. At most `cost` tests were made since the progress `s0`. */
  ghost predicate BackAt(output: Output, q: Search, result: AllocResult, step: AllocStep, p: Alloc,
                         s0: Progress, cost: nat, ret: int)
    reads output, output.device, output.device.planes, output.layers, step
    reads result, result.best, result.req, output.device.kernel
  {
    && SearchOk(q) && Depicts(output, q) && Fits(q.scene, p) && ResultOk(output, q, result, step.alloc)
    && result.req.Valid() && output.device.kernel.Valid()
    && s0.log <= output.device.kernel.log && |output.device.kernel.log| <= |s0.log| + cost
    && (ret == 0 ==> result.req.Contents() == RequestFor(q, p))
    && SearchTests(q, output.device.kernel.log, |s0.log|, ret)
  }

  /** The loop body once the layer is accepted: walk the subtree, then take the writes back. */
  method Enter(output: Output, result: AllocResult, step: AllocStep, next: AllocStep, layer: Layer, cursor: nat,
               ghost q: Search, ghost from: nat, ghost p: Alloc, ghost j: nat, ghost s0: Progress)
      returns (ret: int)
    requires SearchOk(q) && Fits(q.scene, p) && Fits(q.scene, p + [Some(j)])
    requires Depicts(output, q) && StepOk(output, q.scene, step) && ResultOk(output, q, result, step.alloc)
    requires step.planeIdx < step.alloc.Length == |output.device.planes|
    requires p == Prefix(output, step) && result.req.Valid() && output.device.kernel.Valid()
    requires next != step && next.alloc == step.alloc
    requires IndexOf(output.layers, layer) == Some(j)
    requires from <= |output.device.kernel.log|
    requires Admissible(q, Accepted(output.device.kernel.log, from), p + [Some(j)])
    requires result.req.Contents() == RequestFor(q, p + [Some(j)])
    requires RequestFor(q, p) <= RequestFor(q, p + [Some(j)]) && cursor == |RequestFor(q, p)|
    requires s0.log <= output.device.kernel.log && |output.device.kernel.log| == |s0.log| + 1
    requires SearchTests(q, output.device.kernel.log, |s0.log|, 0)
    requires s0.best == Now(output, result).best
    modifies next, step.alloc, result`bestScore, result.best, result.req, output.device.kernel
    ensures next.alloc == step.alloc
    ensures step.alloc[..step.planeIdx] == old(step.alloc[..step.planeIdx])
    ensures BackAt(output, q, result, step, p, s0,
                   Budget(|output.layers|, |output.device.planes| - step.planeIdx - 1), ret)
    ensures ret == 0 ==> WalkedAll(q, output.device.kernel, from, p + [Some(j)], s0, Now(output, result))
    ensures old(output.device.kernel.log) <= output.device.kernel.log
    decreases |output.device.planes| - step.planeIdx, 1
  {
    hide Walked, WalkedAll, Admissible, Depicts, StepOk, ResultOk, Faithful, WellFormed, Budget, RequestFor, Choices,
      IndexOf, Fits, SearchTests, Probed;
    ghost var tested := Now(output, result);
    ret := Descend(output, result, step, next, layer, q, from, p, Some(j));
    TestsLater(q, tested.log, output.device.kernel.log, |s0.log|, ret);
    if ret != 0 {
      return;
    }
    WalkedFromEarlier(q, output.device.kernel, from, p + [Some(j)], s0, tested, Now(output, result));
    result.req.SetCursor(cursor);
  }

  /** The loop body after a refusal, or an error that ends the search. */
  method Withdraw(output: Output, result: AllocResult, step: AllocStep, cursor: nat, ret: int,
                  ghost q: Search, ghost p: Alloc, ghost s0: Progress)
    requires SearchOk(q) && Fits(q.scene, p) && Depicts(output, q) && ResultOk(output, q, result, step.alloc)
    requires result.req.Valid() && output.device.kernel.Valid()
    requires RequestFor(q, p) <= result.req.Contents() && cursor == |RequestFor(q, p)|
    requires s0.log <= output.device.kernel.log && |output.device.kernel.log| <= |s0.log| + 1
    requires SearchTests(q, output.device.kernel.log, |s0.log|, ret)
    modifies result.req
    ensures BackAt(output, q, result, step, p, s0, 1, ret)
    ensures Now(output, result) == old(Now(output, result))
  {
    hide Depicts, ResultOk;
    if ret == 0 {
      result.req.SetCursor(cursor);
    }
  }

  lemma BackAtWithin(output: Output, q: Search, result: AllocResult, step: AllocStep, p: Alloc,
                     s0: Progress, cost: nat, cost': nat, ret: int)
    requires BackAt(output, q, result, step, p, s0, cost, ret) && cost <= cost'
    ensures BackAt(output, q, result, step, p, s0, cost', ret)
  {
    hide Depicts, ResultOk;
  }

  /** One round of the loop over the layers. */
  method TryLayer(output: Output, result: AllocResult, step: AllocStep, next: AllocStep, plane: Plane, layer: Layer,
                  ghost q: Search, ghost from: nat, ghost p: Alloc, ghost j: nat)
      returns (ret: int)
    requires SearchOk(q) && AtNode(output, q, result, step, from, p) && AtPlane(output, q, step, plane)
    requires j < |output.layers| == |q.scene.layers| && output.layers[j] == layer && Distinct(output.layers)
    requires |p| == step.planeIdx < step.alloc.Length == |output.device.planes| == |q.scene.planes|
    requires Fits(q.scene, p) && next != step && next.alloc == step.alloc
    modifies next, step.alloc, result`bestScore, result.best, result.req, output.device.kernel
    ensures next.alloc == step.alloc
    ensures step.alloc[..step.planeIdx] == old(step.alloc[..step.planeIdx])
    ensures BackAt(output, q, result, step, p, old(Now(output, result)),
                   Budget(|output.layers|, |output.device.planes| - step.planeIdx - 1), ret)
    ensures ret == 0 ==>
      WalkedAll(q, output.device.kernel, from, p + [Some(j)], old(Now(output, result)), Now(output, result))
    ensures Proposed(q, p, j) ==>
      Tested(output.device.kernel.log, |old(output.device.kernel.log)|, RequestFor(q, p + [Some(j)]))
    decreases |output.device.planes| - step.planeIdx, 2
  {
    hide Walked, Admissible, Placeable, Proposed, Depicts, StepOk, ResultOk, Faithful, WellFormed, Budget, AtPlane,
      BackAt, Fits, RequestFor, Distinct, IndexOf, Choices, WalkedAll, SearchTests, Tested, Tolerated;
    ghost var start, kernel := Now(output, result), output.device.kernel;
    ghost var cost := Budget(|output.layers|, |output.device.planes| - step.planeIdx - 1);
    BudgetPositive(|output.layers|, |output.device.planes| - step.planeIdx - 1);
    IndexUnique(output.layers, j);
    var cursor := result.req.cursor;
    var accepted;
    ret, accepted := Propose(output, result.req, step, plane, layer, q, p, j);
    ghost var tested := kernel.log;
    if Proposed(q, p, j) {
      OneProposal(q, start.log, tested[|start.log|], p, j);
    } else {
      NoTests(q, start.log, |start.log|);
    }
    if accepted {
      AcceptedStep(q, start.log, from, p, j);
      ret := Enter(output, result, step, next, layer, cursor, q, from, p, j, start);
      TestedGrows(tested, kernel.log, |start.log|, |start.log|, RequestFor(q, p + [Some(j)]));
    } else {
      if ret == 0 {
        WalkRefused(q, kernel, from, p, j, start, Now(output, result));
      }
      Withdraw(output, result, step, cursor, ret, q, p, start);
      BackAtWithin(output, q, result, step, p, start, 1, cost, ret);
    }
  }

  /** The children of `p` below rank `hi` have been walked, at most `cost` tests each. */
  ghost predicate Looped(output: Output, q: Search, result: AllocResult, step: AllocStep, from: nat, p: Alloc,
                         hi: nat, s0: Progress, cost: nat)
    reads output, output.device, output.device.planes, output.layers, step, step.alloc
    reads result, result.best, result.req, output.device.kernel
  {
    && SearchOk(q) && AtNode(output, q, result, step, from, p)
    && s0.log <= output.device.kernel.log && |output.device.kernel.log| <= |s0.log| + hi * cost
    && Walked(q, output.device.kernel, from, p, hi, s0, Now(output, result))
    && SearchTests(q, output.device.kernel.log, |s0.log|, 0)
    && Fits(q.scene, p) && |p| < |q.scene.planes| && Probed(q, output.device.kernel.log, |s0.log|, p, hi)
  }

  lemma StepValues(output: Output, s: Scene, step: AllocStep)
    requires StepOk(output, s, step)
    ensures Faithful(output.layers, step.alloc[..step.planeIdx]) && Fits(s, Prefix(output, step))
    ensures step.score == Score(s, Prefix(output, step)) && step.composited == Composited(s, Prefix(output, step))
    ensures step.lastLayerZpos == LastZpos(s, Prefix(output, step))
    ensures |output.layers| == |s.layers| && step.planeIdx <= step.alloc.Length == |s.planes|
  {
  }

  /** A step whose own entries are untouched stays what it was. */
  lemma StepUnchanged(output: Output, s: Scene, step: AllocStep, p: Alloc)
    requires step.planeIdx <= step.alloc.Length == |s.planes| && |output.layers| == |s.layers|
    requires Faithful(output.layers, step.alloc[..step.planeIdx])
    requires p == Choices(output.layers, step.alloc[..step.planeIdx])
    requires Fits(s, p) && step.score == Score(s, p) && step.lastLayerZpos == LastZpos(s, p)
    requires step.composited == Composited(s, p)
    ensures StepOk(output, s, step) && Prefix(output, step) == p
  {
  }

  lemma LoopNext(output: Output, q: Search, result: AllocResult, step: AllocStep, from: nat, p: Alloc,
                 k: nat, s0: Progress, s: Progress, cost: nat)
    requires SearchOk(q) && k < |q.scene.layers| && |p| < |q.scene.planes|
    requires |s.log| <= |s0.log| + k * cost && Walked(q, output.device.kernel, from, p, k, s0, s)
    requires from <= |s.log| && Admissible(q, Accepted(s.log, from), p)
    requires BackAt(output, q, result, step, p, s, cost, 0)
    requires WalkedAll(q, output.device.kernel, from, p + [Some(k)], s, Now(output, result))
    requires StepOk(output, q.scene, step) && Prefix(output, step) == p
    requires SearchTests(q, s.log, |s0.log|, 0) && Fits(q.scene, p) && Probed(q, s.log, |s0.log|, p, k)
    requires Proposed(q, p, k) ==> Tested(output.device.kernel.log, |s.log|, RequestFor(q, p + [Some(k)]))
    ensures Looped(output, q, result, step, from, p, k + 1, s0, cost)
  {
    hide SearchTests, Probed, Proposed, Tested, Admissible, Challenged, Improved, Depicts, ResultOk;
    TestsLater(q, s.log, output.device.kernel.log, |s0.log|, 0);
    ProbedNext(q, s0.log, s.log, output.device.kernel.log, p, k);
    WalkNext(q, output.device.kernel, from, p, Some(k), s0, s, Now(output, result));
    AcceptedGrows(s.log, output.device.kernel.log, from);
    AdmissibleMonotone(q, Accepted(s.log, from), Accepted(output.device.kernel.log, from), p);
    assert (k + 1) * cost == k * cost + cost;
  }

  lemma TimesMonotone(k: nat, n: nat, cost: nat)
    requires k < n
    ensures k * cost + cost <= n * cost
  {
    assert (k + 1) * cost <= n * cost;
  }

  lemma LoopAborted(output: Output, q: Search, result: AllocResult, step: AllocStep, p: Alloc,
                    k: nat, n: nat, s0: Progress, s: Progress, cost: nat, ret: int)
    requires k < n && s0.log <= s.log && |s.log| <= |s0.log| + k * cost && SearchTests(q, s.log, |s0.log|, 0)
    requires BackAt(output, q, result, step, p, s, cost, ret)
    ensures BackAt(output, q, result, step, p, s0, n * cost, ret)
  {
    hide Depicts, ResultOk, Fits, RequestFor, SearchTests;
    TimesMonotone(k, n, cost);
    TestsLater(q, s.log, output.device.kernel.log, |s0.log|, ret);
  }

  method TryLayers(output: Output, result: AllocResult, step: AllocStep, next: AllocStep, plane: Plane,
                   ghost q: Search, ghost from: nat, ghost p: Alloc, ghost cost: nat)
      returns (ret: int)
    requires SearchOk(q) && AtNode(output, q, result, step, from, p) && AtPlane(output, q, step, plane)
    requires |output.layers| == |q.scene.layers| && Distinct(output.layers)
    requires |p| == step.planeIdx < step.alloc.Length == |output.device.planes| == |q.scene.planes|
    requires Fits(q.scene, p) && next != step && next.alloc == step.alloc
    requires cost == Budget(|output.layers|, |output.device.planes| - step.planeIdx - 1)
    modifies next, step.alloc, result`bestScore, result.best, result.req, output.device.kernel
    ensures next.alloc == step.alloc
    ensures step.alloc[..step.planeIdx] == old(step.alloc[..step.planeIdx])
    ensures ret == 0 ==> Looped(output, q, result, step, from, p, |output.layers|, old(Now(output, result)), cost)
    ensures ret != 0 ==> BackAt(output, q, result, step, p, old(Now(output, result)), |output.layers| * cost, ret)
    decreases |output.device.planes| - step.planeIdx, 3
  {
    hide Walked, Admissible, Placeable, Depicts, ResultOk, WellFormed, Budget, BackAt, StepOk,
      Fits, RequestFor, Distinct, IndexOf, Choices, WalkedAll, Faithful, Score, LastZpos, Composited,
      SearchTests, Proposed, Tested;
    ghost var start := Now(output, result);
    ghost var was := step.alloc[..step.planeIdx];
    WalkStart(q, output.device.kernel, from, p, start);
    NoTests(q, start.log, |start.log|);
    StepValues(output, q.scene, step);
    var k := 0;
    while k < |output.layers|
      invariant k <= |output.layers| && next.alloc == step.alloc
      invariant AtPlane(output, q, step, plane) && step.alloc[..step.planeIdx] == was
      invariant Looped(output, q, result, step, from, p, k, start, cost)
    {
      ghost var s := Now(output, result);
      ret := TryLayer(output, result, step, next, plane, output.layers[k], q, from, p, k);
      if ret != 0 {
        LoopAborted(output, q, result, step, p, k, |output.layers|, start, s, cost, ret);
        return;
      }
      StepUnchanged(output, q.scene, step, p);
      LoopNext(output, q, result, step, from, p, k, start, s, cost);
      k := k + 1;
    }
    return 0;
  }

  lemma NotLooped(output: Output, q: Search, result: AllocResult, step: AllocStep, from: nat, p: Alloc, cost: nat)
    requires SearchOk(q) && AtNode(output, q, result, step, from, p) && |p| < |q.scene.planes|
    requires |output.layers| == |q.scene.layers| && !Usable(q, |p|)
    ensures Looped(output, q, result, step, from, p, |output.layers|, Now(output, result), cost)
  {
    hide Walked, Depicts, StepOk, ResultOk, Admissible;
    WalkStart(q, output.device.kernel, from, p, Now(output, result));
  }

  lemma BudgetSplits(layers: nat, planes: nat)
    ensures Budget(layers, planes + 1) == layers * Budget(layers, planes) + Budget(layers, planes)
  {
  }

  lemma NodeAborted(output: Output, q: Search, result: AllocResult, step: AllocStep, from: nat, p: Alloc,
                    s0: Progress, cost: nat, ret: int)
    requires |p| < |q.scene.planes| && |output.layers| == |q.scene.layers| && ret != 0
    requires cost == Budget(|output.layers|, |q.scene.planes| - |p| - 1)
    requires BackAt(output, q, result, step, p, s0, |output.layers| * cost, ret)
    requires !Hopeless(q, p, s0.best)
    ensures LeftNode(output, q, result, step, from, p, s0, Budget(|output.layers|, |q.scene.planes| - |p|), ret)
  {
    hide Walked, Depicts, ResultOk, Budget;
    BudgetSplits(|output.layers|, |q.scene.planes| - |p| - 1);
    BudgetPositive(|output.layers|, |q.scene.planes| - |p| - 1);
  }

  /** The subtree without a layer on the plane comes last. */
  lemma SkipDone(output: Output, q: Search, result: AllocResult, step: AllocStep, from: nat, p: Alloc,
                 s0: Progress, s: Progress, cost: nat, ret: int)
    requires SearchOk(q) && |p| < |q.scene.planes| && |output.layers| == |q.scene.layers|
    requires cost == Budget(|output.layers|, |q.scene.planes| - |p| - 1)
    requires s0.log <= s.log && |s.log| <= |s0.log| + |output.layers| * cost && SearchTests(q, s.log, |s0.log|, 0)
    requires Walked(q, output.device.kernel, from, p, |output.layers|, s0, s)
    requires Fits(q.scene, p) && Probed(q, s.log, |s0.log|, p, |q.scene.layers|)
    requires Fits(q.scene, p) && Fits(q.scene, p + [None]) && RequestFor(q, p + [None]) == RequestFor(q, p)
    requires LeftNode(output, q, result, step, from, p + [None], s, cost, ret)
    requires !Hopeless(q, p, s0.best)
    ensures LeftNode(output, q, result, step, from, p, s0, Budget(|output.layers|, |q.scene.planes| - |p|), ret)
  {
    hide Walked, Depicts, StepOk, ResultOk, Admissible, Budget, SearchTests, Probed;
    TestsLater(q, s.log, output.device.kernel.log, |s0.log|, ret);
    ProbedGrows(q, s.log, output.device.kernel.log, |s0.log|, p, |q.scene.layers|);
    BudgetSplits(|output.layers|, |q.scene.planes| - |p| - 1);
    if ret == 0 {
      WalkNext(q, output.device.kernel, from, p, None, s0, s, Now(output, result));
    }
  }

  /** The branch without a layer on the plane, and the end of the step. */
  method SkipPlane(output: Output, result: AllocResult, step: AllocStep, next: AllocStep, cursor: nat,
                   ghost q: Search, ghost from: nat, ghost p: Alloc, ghost s0: Progress, ghost cost: nat)
      returns (ret: int)
    requires SearchOk(q) && AtNode(output, q, result, step, from, p)
    requires Looped(output, q, result, step, from, p, |output.layers|, s0, cost)
    requires |output.layers| == |q.scene.layers| && |output.device.planes| == |q.scene.planes|
    requires |p| == step.planeIdx < step.alloc.Length == |output.device.planes|
    requires next != step && next.alloc == step.alloc && Fits(q.scene, p) && cursor == |RequestFor(q, p)|
    requires cost == Budget(|output.layers|, |q.scene.planes| - |p| - 1)
    requires !Hopeless(q, p, s0.best)
    modifies next, step.alloc, result`bestScore, result.best, result.req, output.device.kernel
    ensures step.alloc[..step.planeIdx] == old(step.alloc[..step.planeIdx])
    ensures LeftNode(output, q, result, step, from, p, s0, Budget(|output.layers|, |q.scene.planes| - |p|), ret)
    decreases |output.device.planes| - step.planeIdx, 1
  {
    hide Walked, Admissible, Depicts, WellFormed, Distinct, StepOk, ResultOk, Budget, Fits, SearchTests, Probed,
      Hopeless;
    ghost var looped := Now(output, result);
    SkippedStep(q, Accepted(looped.log, from), p);
    ret := Descend(output, result, step, next, null, q, from, p, None);
    if ret == 0 {
      result.req.SetCursor(cursor);
    }
    SkipDone(output, q, result, step, from, p, s0, looped, cost, ret);
  }

  /** From the first use of a plane to the end of its step. */
  method TryPlane(output: Output, result: AllocResult, step: AllocStep, plane: Plane,
                  ghost q: Search, ghost from: nat, ghost p: Alloc)
      returns (ret: int)
    requires SearchOk(q) && AtNode(output, q, result, step, from, p)
    requires |output.layers| == |q.scene.layers| && Distinct(output.layers)
    requires output.crtcIndex == q.scene.crtcIndex < 32
    requires |p| == step.planeIdx < step.alloc.Length == |output.device.planes| == |q.scene.planes|
    requires output.device.planes[step.planeIdx] == plane && plane.info == q.scene.planes[|p|]
    requires q.free[|p|] == (plane.layer == null) && Fits(q.scene, p)
    requires !Hopeless(q, p, Now(output, result).best)
    modifies step.alloc, result`bestScore, result.best, result.req, output.device.kernel
    ensures step.alloc[..step.planeIdx] == old(step.alloc[..step.planeIdx])
    ensures LeftNode(output, q, result, step, from, p, old(Now(output, result)),
                     Budget(|output.layers|, |output.device.planes| - step.planeIdx), ret)
    decreases |output.device.planes| - step.planeIdx, 4
  {
    hide Walked, Admissible, Depicts, WellFormed, Distinct, StepOk, ResultOk, Budget, BackAt, LeftNode, IndexOf,
      Choices, Fits;
    ghost var start := Now(output, result);
    ghost var cost := Budget(|output.layers|, |output.device.planes| - step.planeIdx - 1);
    var cursor := result.req.cursor;
    var next := new AllocStep(step.alloc);
    if plane.layer == null && CanDrive(plane.info, output.crtcIndex) {
      ret := TryLayers(output, result, step, next, plane, q, from, p, cost);
      if ret != 0 {
        NodeAborted(output, q, result, step, from, p, start, cost, ret);
        return;
      }
    } else {
      NotLooped(output, q, result, step, from, p, cost);
    }
    ret := SkipPlane(output, result, step, next, cursor, q, from, p, start, cost);
  }

  method ChooseLayers(output: Output, result: AllocResult, step: AllocStep,
                      ghost q: Search, ghost from: nat, ghost p: Alloc)
      returns (ret: int)
    requires AtNode(output, q, result, step, from, p)
    modifies step.alloc, result`bestScore, result.best, result.req, output.device.kernel
    ensures step.alloc[..step.planeIdx] == old(step.alloc[..step.planeIdx])
    ensures LeftNode(output, q, result, step, from, p, old(Now(output, result)),
                     Budget(|output.layers|, |output.device.planes| - step.planeIdx), ret)
    decreases |output.device.planes| - step.planeIdx, 5
  {
    hide Walked, Admissible, Distinct, DistinctIds, HasBasics, SearchTests, Probed, IndexOf;
    ghost var start := Now(output, result);
    NoTests(q, start.log, |start.log|);
    BudgetPositive(|output.layers|, |output.device.planes| - step.planeIdx);
    if step.planeIdx == |output.device.planes| {
      RecordBest(output, result, step, q, from, p);
      return 0;
    }
    var plane := output.device.planes[step.planeIdx];
    if result.bestScore >= step.score + result.planesLen - step.planeIdx {
      WalkPruned(q, output.device.kernel, from, p, start);
      return 0;
    }
    ret := TryPlane(output, result, step, plane, q, from, p);
  }
}
