/** Dirty tracking: when an output's previous mapping may be used again, and why that is sound over
    every run of the API (alloc.c, layer.c, output.c). */
module Cache {
  import opened Sequences
  import opened Props
  import opened Hardware
  import opened Scenes
  import opened Stacking
  import opened Composition
  import opened Placements
  import opened PlaneChanges
  import Registration

  datatype LayerState = LayerState(props: seq<LayerProp>, forced: bool, changed: bool)

  /** Everything one output holds, with the mapping given per plane. */
  datatype OutputState = OutputState(planes: seq<PlaneInfo>, layers: seq<LayerState>, comp: Option<nat>,
                                     crtcIndex: nat, crtcId: uint32, layersChanged: bool, mapping: Alloc)

  function Facts(l: LayerState): LayerFacts {
    FactsOf(l.props, l.forced)
  }

  /** The output as its properties stand now. */
  function Current(v: OutputState): (s: Scene)
    ensures |s.layers| == |v.layers|
  {
    Scene(v.planes, seq(|v.layers|, j requires 0 <= j < |v.layers| => Facts(v.layers[j])), v.comp,
          v.crtcIndex, v.crtcId)
  }

  /** The output as its properties stood when its layers were last marked clean. */
  function Remembered(v: OutputState): (s: Scene)
    ensures |s.layers| == |v.layers| && s.planes == v.planes
  {
    Scene(v.planes, seq(|v.layers|, j requires 0 <= j < |v.layers| => Facts(CleanedLayer(v.layers[j]))), v.comp,
          v.crtcIndex, v.crtcId)
  }

  function CleanedLayer(l: LayerState): LayerState {
    l.(props := Cleaned(l.props))
  }

  predicate Consistent(v: OutputState) {
    && WellFormed(Current(v)) && |v.mapping| == |v.planes| && Fits(Current(v), v.mapping)
  }

  // ----- layer_needs_realloc -----

  predicate PropNeedsRealloc(p: LayerProp) {
    p.value != p.prevValue &&
    if p.name == FB_ID then p.value == 0 || p.prevValue == 0
    else if p.name == ALPHA then
      p.value == 0 || p.prevValue == 0 || p.value == OPAQUE_ALPHA || p.prevValue == OPAQUE_ALPHA
    else p.name != IN_FENCE_FD && p.name != FB_DAMAGE_CLIPS
  }

  predicate NeedsRealloc(l: LayerState) {
    l.changed || exists k {:trigger PropNeedsRealloc(l.props[k])} :: 0 <= k < |l.props| && PropNeedsRealloc(l.props[k])
  }

  predicate Dirty(v: OutputState) {
    v.layersChanged || exists j {:trigger NeedsRealloc(v.layers[j])} :: 0 <= j < |v.layers| && NeedsRealloc(v.layers[j])
  }

  // ----- what the clean flags are worth -----

  predicate SettledProp(p: LayerProp) {
    p.name != FB_ID && p.name != ALPHA && p.name != IN_FENCE_FD && p.name != FB_DAMAGE_CLIPS
  }

  lemma NamesDiffer()
    ensures SettledProp(LayerProp(ZPOS, 0, 0)) && SettledProp(LayerProp(ROTATION, 0, 0))
    ensures SettledProp(LayerProp(CRTC_X, 0, 0)) && SettledProp(LayerProp(CRTC_Y, 0, 0))
    ensures SettledProp(LayerProp(CRTC_W, 0, 0)) && SettledProp(LayerProp(CRTC_H, 0, 0))
    ensures FB_ID != ALPHA && ALPHA != ROTATION
  {
    assert FB_ID[0] == 'F' && ALPHA[0] == 'a' && ZPOS[0] == 'z' && ROTATION[0] == 'r';
    assert IN_FENCE_FD[0] == 'I' && FB_DAMAGE_CLIPS[0] == 'F';
    assert CRTC_X[0] == 'C' && CRTC_Y[0] == 'C' && CRTC_W[0] == 'C' && CRTC_H[0] == 'C';
  }

  lemma SettledValue(l: LayerState, name: string)
    requires !NeedsRealloc(l) && SettledProp(LayerProp(name, 0, 0))
    ensures Value(Cleaned(l.props), name) == Value(l.props, name)
  {
    SameNamesSameFind(Cleaned(l.props), l.props, name);
    var i := Find(l.props, name);
    assert i < |l.props| ==> !PropNeedsRealloc(l.props[i]);
  }

  lemma SettledVisibility(l: LayerState)
    requires !NeedsRealloc(l)
    ensures Visible(Cleaned(l.props), l.forced) == Visible(l.props, l.forced)
  {
    NamesDiffer();
    SameNamesSameFind(Cleaned(l.props), l.props, FB_ID);
    SameNamesSameFind(Cleaned(l.props), l.props, ALPHA);
    var f, a := Find(l.props, FB_ID), Find(l.props, ALPHA);
    assert f < |l.props| ==> !PropNeedsRealloc(l.props[f]);
    assert a < |l.props| ==> !PropNeedsRealloc(l.props[a]);
  }

  lemma SettledSupport(l: LayerState, plane: PlaneInfo)
    requires !NeedsRealloc(l)
    ensures Supports(plane, Cleaned(l.props)) == Supports(plane, l.props)
  {
    forall k | 0 <= k < |l.props|
      ensures PropFits(plane, Cleaned(l.props)[k]) == PropFits(plane, l.props[k])
    {
      NamesDiffer();
      assert !PropNeedsRealloc(l.props[k]);
    }
  }

  lemma SettledLayer(l: LayerState, planes: seq<PlaneInfo>)
    requires !NeedsRealloc(l)
    ensures Alike(planes, Facts(CleanedLayer(l)), Facts(l))
  {
    NamesDiffer();
    SettledVisibility(l);
    SettledValue(l, ZPOS);
    SettledValue(l, CRTC_X);
    SettledValue(l, CRTC_Y);
    SettledValue(l, CRTC_W);
    SettledValue(l, CRTC_H);
    forall i | 0 <= i < |planes|
      ensures Supports(planes[i], Cleaned(l.props)) == Supports(planes[i], l.props)
    {
      SettledSupport(l, planes[i]);
    }
  }

  predicate Unflagged(v: OutputState) {
    !v.layersChanged && forall j :: 0 <= j < |v.layers| ==> !v.layers[j].changed
  }

  /** The cache invariant: unless a flag says otherwise, the mapping is sound for the remembered
      properties. */
  ghost predicate Cached(v: OutputState) {
    && Consistent(v)
    && (Unflagged(v) ==> WellFormed(Remembered(v)) && Sound(Remembered(v), v.mapping))
  }

  lemma CleanMeansSame(v: OutputState)
    requires !Dirty(v)
    ensures Unflagged(v) && SameScene(Remembered(v), Current(v))
  {
    var s, t := Remembered(v), Current(v);
    forall j | 0 <= j < |v.layers|
      ensures !v.layers[j].changed && Alike(s.planes, s.layers[j], t.layers[j])
    {
      assert !NeedsRealloc(v.layers[j]);
      SettledLayer(v.layers[j], v.planes);
    }
  }

  /** When nothing is dirty the old mapping is sound for the properties as they are now. */
  lemma CleanMeansSound(v: OutputState)
    requires Cached(v) && !Dirty(v)
    ensures Sound(Current(v), v.mapping)
  {
    CleanMeansSame(v);
    SoundnessTransfers(Remembered(v), Current(v), v.mapping);
  }

  // ----- the operations on an output, as seen by it -----

  function SetLayerProperty(l: LayerState, name: string, value: uint64): LayerState {
    if name == CRTC_ID then l
    else
      var i := Find(l.props, name);
      var props := if i < |l.props| then l.props[i := l.props[i].(value := value)]
                   else l.props + [LayerProp(Stored(name), value, 0)];
      var unforced := name == FB_ID && l.forced;
      LayerState(props, l.forced && !unforced, l.changed || i == |l.props| || unforced)
  }

  function SetLayerComposited(l: LayerState): LayerState {
    if l.forced then l else SetLayerProperty(l, FB_ID, 0).(forced := true, changed := true)
  }

  /** The mapping after layer `j` is gone and the layers behind it moved up. */
  function Without(c: Option<nat>, j: nat): Option<nat> {
    if c.None? || c.value < j then c else if c.value == j then None else Some(c.value - 1)
  }

  datatype Op =
    | SetProperty(j: nat, name: string, value: uint64)
    | SetFbComposited(j: nat)
    | CreateLayer
    | DestroyLayer(j: nat)
    | SetCompositionLayer(j: nat)
    | RegisterPlane(k: nat, info: PlaneInfo)
    | DestroyPlane(k: nat)
    | Apply
    | FailedApply
    | Elsewhere

  predicate Possible(op: Op, v: OutputState) {
    match op
    case SetProperty(j, _, _) => j < |v.layers|
    case SetFbComposited(j) => j < |v.layers|
    case DestroyLayer(j) => j < |v.layers|
    case SetCompositionLayer(j) => j < |v.layers|
    case RegisterPlane(k, info) =>
      && k <= |v.planes| && k <= |v.mapping| && HasBasics(info)
      && forall i :: 0 <= i < |v.planes| ==> v.planes[i].id != info.id
    case DestroyPlane(k) => k < |v.planes| && k < |v.mapping|
    case _ => true
  }

  /** The output after an operation that allocates nothing. */
  function Edited(op: Op, v: OutputState): OutputState
    requires Possible(op, v)
  {
    match op
    case SetProperty(j, name, value) => v.(layers := v.layers[j := SetLayerProperty(v.layers[j], name, value)])
    case SetFbComposited(j) => v.(layers := v.layers[j := SetLayerComposited(v.layers[j])])
    case CreateLayer => v.(layers := v.layers + [LayerState([], false, false)], layersChanged := true)
    case DestroyLayer(j) =>
      v.(layers := v.layers[..j] + v.layers[j + 1..], comp := Without(v.comp, j), layersChanged := true,
         mapping := seq(|v.mapping|, i requires 0 <= i < |v.mapping| => Without(v.mapping[i], j)))
    case SetCompositionLayer(j) => v.(comp := Some(j), layersChanged := v.layersChanged || v.comp != Some(j))
    case RegisterPlane(k, info) => WithPlane(v, k, info)
    case DestroyPlane(k) => WithoutPlane(v, k)
    case _ => v
  }

  /** The output once the device has another plane in front of plane number `k`. No flag tells. */
  function WithPlane(v: OutputState, k: nat, info: PlaneInfo): OutputState
    requires k <= |v.planes| && k <= |v.mapping|
  {
    v.(planes := InsertedAt(v.planes, k, info), mapping := InsertedAt(v.mapping, k, None))
  }

  /** The output after plane number `k` is gone. No flag tells. */
  function WithoutPlane(v: OutputState, k: nat): OutputState
    requires k < |v.planes| && k < |v.mapping|
  {
    v.(planes := Dropped(v.planes, k), mapping := Dropped(v.mapping, k))
  }

  function MarkedClean(l: LayerState): LayerState {
    LayerState(seq(|l.props|, k requires 0 <= k < |l.props| => l.props[k].(prevValue := l.props[k].value)),
               l.forced, false)
  }

  function AllMarkedClean(layers: seq<LayerState>): (r: seq<LayerState>)
    ensures |r| == |layers|
  {
    seq(|layers|, j requires 0 <= j < |layers| => MarkedClean(layers[j]))
  }

  /** The output after a full allocation that ended in mapping `m`. */
  function Reallocated(v: OutputState, m: Alloc): OutputState {
    v.(layers := AllMarkedClean(v.layers), layersChanged := false, mapping := m)
  }

  /** A successful apply: the mapping is kept because nothing is dirty, or it is computed anew. */
  ghost predicate Applied(v: OutputState, w: OutputState) {
    || (!Dirty(v) && w == v)
    || (WellFormed(Current(v)) && Sound(Current(v), w.mapping) && w == Reallocated(v, w.mapping))
  }

  /** An apply that returns an error: the output is left without a mapping and as dirty as it was. */
  predicate Abandoned(v: OutputState, w: OutputState) {
    w == v.(mapping := w.mapping) && |w.mapping| == |v.mapping| && Nothing(w.mapping)
  }

  ghost predicate Step(op: Op, v: OutputState, w: OutputState) {
    && Possible(op, v)
    && match op
       case Apply => Applied(v, w)
       case FailedApply => Abandoned(v, w)
       case _ => w == Edited(op, v)
  }

  // ----- every step keeps the cache invariant -----

  lemma EditKeepsNames(l: LayerState, name: string, value: uint64)
    ensures var m := SetLayerProperty(l, name, value);
            l.changed ==> m.changed
    ensures var m := SetLayerProperty(l, name, value);
            !m.changed ==> CleanedLayer(m) == CleanedLayer(l)
  {
    var m := SetLayerProperty(l, name, value);
    if !m.changed {
      assert Cleaned(m.props) == Cleaned(l.props);
    }
  }

  /** If no flag is up afterwards then none was before, and the mapping and what is remembered are the same. */
  ghost predicate KeepsMemory(v: OutputState, w: OutputState) {
    && Consistent(w)
    && (Unflagged(w) ==> Unflagged(v) && w.mapping == v.mapping && Remembered(w) == Remembered(v))
  }

  lemma LayerEditKeepsMemory(v: OutputState, j: nat, m: LayerState)
    requires Consistent(v) && j < |v.layers|
    requires v.layers[j].changed ==> m.changed
    requires !m.changed ==> CleanedLayer(m) == CleanedLayer(v.layers[j])
    ensures KeepsMemory(v, v.(layers := v.layers[j := m]))
  {
    var w := v.(layers := v.layers[j := m]);
    if Unflagged(w) {
      assert !w.layers[j].changed;
      forall k | 0 <= k < |v.layers|
        ensures !v.layers[k].changed
      {
        assert !w.layers[k].changed;
      }
      assert Remembered(w) == Remembered(v);
    }
  }

  predicate EditsLayers(op: Op) {
    !op.Apply? && !op.FailedApply? && !op.RegisterPlane? && !op.DestroyPlane?
  }

  lemma EditKeepsMemory(op: Op, v: OutputState)
    requires Consistent(v) && Possible(op, v) && EditsLayers(op)
    ensures KeepsMemory(v, Edited(op, v))
  {
    match op
    case SetProperty(j, name, value) =>
      EditKeepsNames(v.layers[j], name, value);
      LayerEditKeepsMemory(v, j, SetLayerProperty(v.layers[j], name, value));
    case SetFbComposited(j) =>
      LayerEditKeepsMemory(v, j, SetLayerComposited(v.layers[j]));
    case SetCompositionLayer(j) =>
      assert v.comp == Some(j) ==> Edited(op, v) == v;
    case _ =>
  }

  lemma RegistrationIsConsistent(k: nat, info: PlaneInfo, v: OutputState)
    requires Consistent(v) && Possible(RegisterPlane(k, info), v)
    ensures Consistent(WithPlane(v, k, info))
  {
    hide HasBasics, Facts;
    var w := WithPlane(v, k, info);
    forall i | 0 <= i < |w.planes|
      ensures HasBasics(w.planes[i])
    {
      if i != k {
        assert w.planes[i] == v.planes[Unshifted(k, i)] && HasBasics(v.planes[Unshifted(k, i)]);
      }
    }
    Registration.InsertKeepsIds(v.planes, k, info);
    assert forall i :: 0 <= i < |w.mapping| && i != k ==> w.mapping[i] == v.mapping[Unshifted(k, i)];
  }

  lemma RegistrationKeepsMemory(k: nat, info: PlaneInfo, v: OutputState)
    requires Consistent(v) && Possible(RegisterPlane(k, info), v)
    ensures var w := WithPlane(v, k, info);
            && k < |w.planes| && k < |w.mapping| && w.mapping[k] == None && Unflagged(w) == Unflagged(v)
            && Dropped(w.mapping, k) == v.mapping && Lacking(Remembered(w), k) == Remembered(v)
  {
    hide WellFormed, Facts, Fits;
    var w := WithPlane(v, k, info);
    DroppedInserted(v.planes, k, info);
    DroppedInserted(v.mapping, k, None);
    assert Lacking(Remembered(w), k) == Remembered(v);
  }

  lemma RememberedWellFormed(v: OutputState)
    requires Consistent(v)
    ensures WellFormed(Remembered(v))
  {
  }

  lemma RegistrationKeepsCache(k: nat, info: PlaneInfo, v: OutputState)
    requires Cached(v) && Possible(RegisterPlane(k, info), v)
    ensures Cached(WithPlane(v, k, info))
  {
    hide Sound, WellFormed, Remembered, Unflagged;
    var w := WithPlane(v, k, info);
    RegistrationIsConsistent(k, info, v);
    RegistrationKeepsMemory(k, info, v);
    if Unflagged(w) {
      RememberedWellFormed(w);
      SoundWithPlane(Remembered(w), w.mapping, k);
    }
  }

  /** The mapping is small enough in zpos for the allocator's int arithmetic, on planes in order. */
  ghost predicate Orderly(v: OutputState)
    requires Consistent(v)
  {
    Sorted(v.planes) && IntZpos(Remembered(v), v.mapping)
  }

  /** Composition is not newly needed without plane number `k`, the layer that was on it lies over nothing that
      is still scanned out, and it was not the plane that excused an unseparated pair. */
  ghost predicate Dispensable(s: Scene, a: Alloc, k: nat)
    requires Fits(s, a) && k < |a|
  {
    (Nothing(Dropped(a, k)) || RuleStays(s, a, k)) && CoversNothing(s, a, k) && SqueezeStays(s, a, k)
  }

  lemma LossIsConsistent(v: OutputState, k: nat)
    requires Consistent(v) && k < |v.planes|
    ensures var w := WithoutPlane(v, k);
            && Consistent(w) && Unflagged(w) == Unflagged(v)
            && Remembered(w) == Lacking(Remembered(v), k) && Current(w) == Lacking(Current(v), k)
  {
    hide Facts;
    var w := WithoutPlane(v, k);
    assert Current(w) == Lacking(Current(v), k);
    assert Remembered(w) == Lacking(Remembered(v), k);
    LackingWellFormed(Current(v), k);
    LackingFits(Current(v), v.mapping, k);
  }

  /** Losing a plane keeps the cache invariant exactly if a flag was up already or the plane was dispensable. */
  lemma LossKeepsCache(k: nat, v: OutputState)
    requires Cached(v) && k < |v.planes| && (Unflagged(v) ==> Orderly(v))
    ensures Cached(WithoutPlane(v, k)) <==> (Unflagged(v) ==> Dispensable(Remembered(v), v.mapping, k))
  {
    hide Sound, WellFormed, Remembered, Unflagged, Current, RuleStays, CoversNothing, SqueezeStays, IntZpos, Sorted;
    LossIsConsistent(v, k);
    if Unflagged(v) {
      RememberedWellFormed(WithoutPlane(v, k));
      SoundWithoutPlane(Remembered(v), v.mapping, k);
    }
  }

  /** The operation is not the loss of a plane that the mapping cannot do without. */
  ghost predicate Harmless(op: Op, v: OutputState) {
    op.DestroyPlane? && op.k < |v.mapping| && Consistent(v) && Unflagged(v) ==>
      Orderly(v) && Dispensable(Remembered(v), v.mapping, op.k)
  }

  lemma EditKeepsCache(op: Op, v: OutputState)
    requires Cached(v) && Possible(op, v) && !op.Apply? && !op.FailedApply? && Harmless(op, v)
    ensures Cached(Edited(op, v))
  {
    hide Sound, WellFormed, Remembered, Unflagged, Orderly, Dispensable;
    match op
    case RegisterPlane(k, info) => RegistrationKeepsCache(k, info, v);
    case DestroyPlane(k) => LossKeepsCache(k, v);
    case _ => EditKeepsMemory(op, v);
  }

  lemma ReallocatedIsSame(v: OutputState, m: Alloc)
    ensures var w := Reallocated(v, m);
            !Dirty(w) && Remembered(w) == Current(w) && SameScene(Current(v), Current(w))
  {
    var w := Reallocated(v, m);
    forall j | 0 <= j < |v.layers|
      ensures CleanedLayer(w.layers[j]) == w.layers[j] && !NeedsRealloc(w.layers[j])
      ensures Alike(v.planes, Facts(v.layers[j]), Facts(w.layers[j]))
    {
      MarkedCleanFacts(v.layers[j], v.planes);
    }
    assert Remembered(w) == Current(w);
  }

  lemma ReallocatedIsCached(v: OutputState, m: Alloc)
    requires Consistent(v) && Sound(Current(v), m)
    ensures Cached(Reallocated(v, m)) && !Dirty(Reallocated(v, m))
    ensures Sound(Current(Reallocated(v, m)), m)
  {
    ReallocatedIsSame(v, m);
    SoundnessTransfers(Current(v), Current(Reallocated(v, m)), m);
  }

  /** What an apply left as it was had nothing dirty. */
  lemma UnchangedIsClean(v: OutputState)
    requires Applied(v, v)
    ensures !Dirty(v)
  {
    ReallocatedIsSame(v, v.mapping);
  }

  lemma MarkedCleanFacts(l: LayerState, planes: seq<PlaneInfo>)
    ensures var m := MarkedClean(l);
            && Cleaned(m.props) == m.props && !NeedsRealloc(m)
            && Facts(m).(props := l.props) == Facts(l)
            && Alike(planes, Facts(l), Facts(m))
  {
    var m := MarkedClean(l);
    forall name
      ensures Value(m.props, name) == Value(l.props, name)
    {
      SameNamesSameFind(m.props, l.props, name);
    }
    forall i | 0 <= i < |planes|
      ensures Supports(planes[i], l.props) == Supports(planes[i], m.props)
    {
      assert forall k :: 0 <= k < |l.props| ==> PropFits(planes[i], m.props[k]) == PropFits(planes[i], l.props[k]);
    }
  }

  lemma AbandonedIsCached(v: OutputState, w: OutputState)
    requires Consistent(v) && Abandoned(v, w)
    ensures Cached(w)
  {
    hide Sound, NeedsRealloc;
    if WellFormed(Remembered(w)) {
      NothingIsSound(Remembered(w), w.mapping);
    }
  }

  lemma StepKeepsCache(op: Op, v: OutputState, w: OutputState)
    requires Cached(v) && Step(op, v, w) && Harmless(op, v)
    ensures Cached(w)
    ensures op.Apply? ==> Sound(Current(w), w.mapping)
  {
    hide Harmless, Sound, Dirty;
    if op.FailedApply? {
      AbandonedIsCached(v, w);
    } else if !op.Apply? {
      EditKeepsCache(op, v);
    } else if !Dirty(v) && w == v {
      CleanMeansSound(v);
    } else {
      ReallocatedIsCached(v, w.mapping);
    }
  }

  /** A fresh output: no layers, nothing mapped. */
  predicate Initial(v: OutputState) {
    Consistent(v) && v.layers == [] && v.comp == None && !v.layersChanged && Nothing(v.mapping)
  }

  ghost predicate Run(ops: seq<Op>, vs: seq<OutputState>) {
    && |vs| == |ops| + 1
    && forall i :: 0 <= i < |ops| ==> Step(ops[i], vs[i], vs[i + 1])
  }

  lemma FreshIsCached(v: OutputState)
    requires Initial(v)
    ensures Cached(v)
  {
    NothingIsSound(Remembered(v), v.mapping);
  }

  /** Over every run, failed applies, new planes and lost planes included: from a state in which the cache
      invariant holds, such as a fresh output, and as long as no plane is lost that the mapping cannot do
      without, the mapping after each successful apply, reused or recomputed, is sound for the properties the
      layers have at that moment. */
  lemma {:induction false} EveryApplyIsSound(ops: seq<Op>, vs: seq<OutputState>, from: nat, i: nat)
    requires Run(ops, vs) && from <= i <= |ops| && Cached(vs[from])
    requires forall t :: from <= t < i ==> Harmless(ops[t], vs[t])
    ensures Cached(vs[i])
    ensures i > from && ops[i - 1].Apply? ==> Sound(Current(vs[i]), vs[i].mapping)
  {
    hide Harmless, Cached, Sound, Step;
    if i > from {
      EveryApplyIsSound(ops, vs, from, i - 1);
      StepKeepsCache(ops[i - 1], vs[i - 1], vs[i]);
    }
  }

  // ----- the mapped layers fit their planes -----

  /** The part of the cache invariant that no loss of a plane breaks. */
  ghost predicate Fitting(v: OutputState) {
    && Consistent(v)
    && (Unflagged(v) ==>
          WellFormed(Remembered(v)) && Fits(Remembered(v), v.mapping) && AllScannable(Remembered(v), v.mapping))
  }

  lemma CachedIsFitting(v: OutputState)
    requires Cached(v)
    ensures Fitting(v)
  {
  }

  lemma ScannableStays(s: Scene, t: Scene, a: Alloc)
    requires WellFormed(s) && WellFormed(t) && SameScene(s, t) && Fits(s, a) && AllScannable(s, a)
    ensures Fits(t, a) && AllScannable(t, a)
  {
    forall i: nat | i < |a| && a[i].Some?
      ensures Scannable(t, i, a[i].value)
    {
      ScannableTransfers(s, t, i, a[i].value);
    }
  }

  /** When nothing is dirty the mapped layers fit their planes as they are now. */
  lemma CleanMeansFitting(v: OutputState)
    requires Fitting(v) && !Dirty(v)
    ensures AllScannable(Current(v), v.mapping)
  {
    hide AllScannable, WellFormed, Dirty;
    CleanMeansSame(v);
    ScannableStays(Remembered(v), Current(v), v.mapping);
  }

  lemma StepKeepsFitting(op: Op, v: OutputState, w: OutputState)
    requires Fitting(v) && Step(op, v, w)
    ensures Fitting(w)
  {
    hide AllScannable, Remembered, WellFormed, Unflagged, Sound, Dirty;
    match op
    case RegisterPlane(k, info) =>
      RegistrationIsConsistent(k, info, v);
      RegistrationKeepsMemory(k, info, v);
      if Unflagged(w) {
        RememberedWellFormed(w);
        RememberedFits(w);
        ScannableWithoutPlane(Remembered(w), w.mapping, k);
      }
    case DestroyPlane(k) =>
      LossIsConsistent(v, k);
      if Unflagged(v) {
        RememberedWellFormed(w);
        RememberedFits(w);
        ScannableWithoutPlane(Remembered(v), v.mapping, k);
      }
    case Apply =>
      if w != v {
        ReallocatedIsCached(v, w.mapping);
        CachedIsFitting(w);
      }
    case FailedApply =>
      AbandonedIsCached(v, w);
      CachedIsFitting(w);
    case _ =>
      EditKeepsMemory(op, v);
  }

  lemma RememberedFits(v: OutputState)
    requires Consistent(v)
    ensures Fits(Remembered(v), v.mapping)
  {
  }

  /** Over every run from a fresh output, whatever planes are lost, the mapped layers fit their planes while no
      flag is up. */
  lemma {:induction false} EveryRunFits(ops: seq<Op>, vs: seq<OutputState>, i: nat)
    requires Run(ops, vs) && Initial(vs[0]) && i <= |ops|
    ensures Fitting(vs[i])
  {
    hide Fitting, Step;
    if i == 0 {
      FreshIsCached(vs[0]);
      CachedIsFitting(vs[0]);
    } else {
      EveryRunFits(ops, vs, i - 1);
      StepKeepsFitting(ops[i - 1], vs[i - 1], vs[i]);
    }
  }

  /** A recomputation or a failed apply restores the cache invariant, whatever broke it. */
  lemma ApplyRestoresCache(ops: seq<Op>, vs: seq<OutputState>, i: nat)
    requires Run(ops, vs) && Initial(vs[0]) && i < |ops|
    requires ops[i].FailedApply? || (ops[i].Apply? && vs[i + 1] != vs[i])
    ensures Cached(vs[i + 1])
  {
    hide Sound, WellFormed, Dirty;
    EveryRunFits(ops, vs, i);
    assert Step(ops[i], vs[i], vs[i + 1]);
    if ops[i].FailedApply? {
      AbandonedIsCached(vs[i], vs[i + 1]);
    } else {
      ReallocatedIsCached(vs[i], vs[i + 1].mapping);
    }
  }

  // ----- the composition rule -----

  /** Unless a flag says otherwise, the mapping follows the composition rule for the remembered properties. */
  ghost predicate Ruled(v: OutputState) {
    Unflagged(v) ==> CompositionRule(Remembered(v), v.mapping)
  }

  /** An apply succeeds, if it had to recompute then the search reached an acceptable allocation, and no plane
      is lost that the mapping cannot do without. */
  ghost predicate Fulfilled(op: Op, v: OutputState, w: OutputState) {
    && !op.FailedApply? && (op.Apply? && w != v ==> CompositionRule(Current(v), w.mapping))
    && Harmless(op, v)
    && (op.DestroyPlane? && op.k < |v.mapping| && Unflagged(v) ==> RuleStays(Remembered(v), v.mapping, op.k))
  }

  lemma StepKeepsRule(op: Op, v: OutputState, w: OutputState)
    requires Cached(v) && Ruled(v) && Step(op, v, w) && Fulfilled(op, v, w)
    ensures Ruled(w)
    ensures op.Apply? ==> CompositionRule(Current(w), w.mapping)
  {
    hide Sound, WellFormed, CompositionRule, Remembered, Unflagged, SameScene, Dirty;
    match op
    case RegisterPlane(k, info) =>
      RegistrationKeepsMemory(k, info, v);
      RegistrationKeepsRule(v, w, k);
    case DestroyPlane(k) =>
      LossKeepsRule(v, k);
    case Apply =>
      if w == v {
        UnchangedIsClean(v);
        CleanMeansSame(v);
        RuleTransfers(Remembered(v), Current(v), v.mapping);
      } else {
        ReallocatedIsSame(v, w.mapping);
        RuleTransfers(Current(v), Current(w), w.mapping);
      }
    case _ =>
      EditKeepsMemory(op, v);
  }

  lemma LossKeepsRule(v: OutputState, k: nat)
    requires Cached(v) && Ruled(v) && k < |v.planes|
    requires Unflagged(v) ==> RuleStays(Remembered(v), v.mapping, k)
    ensures Ruled(WithoutPlane(v, k))
  {
    hide WellFormed, CompositionRule, Remembered, Unflagged, Stacked, Separated, RuleStays;
    LossIsConsistent(v, k);
    if Unflagged(v) {
      PlacedVisible(Remembered(v), v.mapping);
      RuleWithoutPlane(Remembered(v), v.mapping, k);
      SameRule(Remembered(v), k, Dropped(v.mapping, k));
    }
  }

  lemma RegistrationKeepsRule(v: OutputState, w: OutputState, k: nat)
    requires Ruled(v) && Unflagged(w) == Unflagged(v) && k < |w.mapping| && k < |w.planes| && w.mapping[k] == None
    requires Dropped(w.mapping, k) == v.mapping && Lacking(Remembered(w), k) == Remembered(v)
    ensures Ruled(w)
  {
    hide CompositionRule, Remembered, Unflagged;
    SameRule(Remembered(w), k, v.mapping);
    RuleWithPlane(Remembered(w), w.mapping, k);
  }

  /** Over every run from a fresh output in which every apply succeeds and every recomputation reaches an
      acceptable allocation, the composition rule holds after each apply. */
  lemma {:induction false} EveryApplyFollowsRule(ops: seq<Op>, vs: seq<OutputState>, i: nat)
    requires Run(ops, vs) && Initial(vs[0]) && i <= |ops|
    requires forall t :: 0 <= t < i ==> Fulfilled(ops[t], vs[t], vs[t + 1])
    ensures Ruled(vs[i])
    ensures i > 0 && ops[i - 1].Apply? ==> CompositionRule(Current(vs[i]), vs[i].mapping)
  {
    hide Step, Cached, Ruled, Harmless, CompositionRule, Sound;
    if i == 0 {
      FreshIsRuled(vs[0]);
    } else {
      EveryApplyFollowsRule(ops, vs, i - 1);
      FreshIsCached(vs[0]);
      forall t | 0 <= t < i
        ensures Harmless(ops[t], vs[t])
      {
        assert Fulfilled(ops[t], vs[t], vs[t + 1]);
      }
      EveryApplyIsSound(ops, vs, 0, i - 1);
      StepKeepsRule(ops[i - 1], vs[i - 1], vs[i]);
    }
  }

  lemma FreshIsRuled(v: OutputState)
    requires Initial(v)
    ensures Ruled(v)
  {
  }

  /** An apply that fails on a clean output empties the mapping and leaves the output clean, so the next apply
      may use the empty mapping again. The composition rule then holds exactly if there is nothing to show
      besides the composition layer. */
  lemma EmptyMappingIsReused(v: OutputState, w: OutputState)
    requires Cached(v) && !Dirty(v) && v.comp.Some? && Abandoned(v, w)
    ensures !Dirty(w) && Step(Op.Apply, w, w)
    ensures CompositionRule(Current(w), w.mapping) <==> ToShow(Current(v)) == {}
  {
    assert Current(w) == Current(v);
    if j :| j in ToShow(Current(v)) {
      assert Some(j) !in w.mapping;
    }
  }

  // ----- a plane goes away -----

  /** Losing a plane leaves a clean output clean, so its old mapping is used again. It is then still sound
      exactly if composition is not newly needed, the layer that lost its plane lies over nothing that is
      still scanned out, and the plane was not the one that excused an unseparated pair. */
  lemma LostPlaneIsOverlooked(v: OutputState, k: nat)
    requires Consistent(v) && k < |v.planes| && !Dirty(v)
    requires Sound(Current(v), v.mapping) && Sorted(v.planes) && IntZpos(Current(v), v.mapping)
    ensures var s, a, w := Current(v), v.mapping, WithoutPlane(v, k);
            && Consistent(w) && !Dirty(w)
            && (Stacked(Current(w), w.mapping) <==> CoversNothing(s, a, k))
            && (CompositionRule(s, a) ==> (CompositionRule(Current(w), w.mapping) <==> RuleStays(s, a, k)))
            && (Sound(Current(w), w.mapping) <==> Dispensable(s, a, k))
  {
    hide Sorted, Separated, IntZpos, CompositionRule, RuleStays, CoversNothing, SqueezeStays;
    var s, a, w := Current(v), v.mapping, WithoutPlane(v, k);
    assert Current(w) == Lacking(s, k);
    LackingWellFormed(s, k);
    StackedWithoutPlane(s, a, k);
    SoundWithoutPlane(s, a, k);
    PlacedVisible(s, a);
    SameRule(s, k, Dropped(a, k));
    if CompositionRule(s, a) {
      RuleWithoutPlane(s, a, k);
    }
  }

  // ----- further facts about runs -----

  lemma EditAddsNoCrtc(l: LayerState, name: string, value: uint64)
    requires NoOwnCrtc(l.props)
    ensures NoOwnCrtc(SetLayerProperty(l, name, value).props) && NoOwnCrtc(SetLayerComposited(l).props)
  {
    assert |CRTC_ID| == 7 && FB_ID[0] == 'F' && CRTC_ID[0] == 'C';
  }

  lemma CleaningAddsNoCrtc(l: LayerState)
    requires NoOwnCrtc(l.props)
    ensures NoOwnCrtc(MarkedClean(l).props)
  {
  }

  lemma FreshHasNoCrtc()
    ensures NoOwnCrtc([])
  {
  }

  /** set_property refuses CRTC_ID, so no layer ever has one: the CRTC a plane is told is its output's. */
  lemma {:induction false} NoLayerEverHasACrtc(ops: seq<Op>, vs: seq<OutputState>, i: nat, j: nat)
    requires Run(ops, vs) && Initial(vs[0]) && i <= |ops| && j < |vs[i].layers|
    ensures NoOwnCrtc(vs[i].layers[j].props)
  {
    hide Sound, Dirty, WellFormed, SetLayerProperty, SetLayerComposited, HasBasics, Consistent, MarkedClean,
      NoOwnCrtc, Dropped, InsertedAt;
    if i > 0 {
      var op, v, w := ops[i - 1], vs[i - 1], vs[i];
      assert Step(op, v, w);
      forall k: nat | k < |v.layers|
        ensures NoOwnCrtc(v.layers[k].props)
      {
        NoLayerEverHasACrtc(ops, vs, i - 1, k);
      }
      match op
      case SetProperty(k, name, value) => EditAddsNoCrtc(v.layers[k], name, value);
      case SetFbComposited(k) => EditAddsNoCrtc(v.layers[k], FB_ID, 0);
      case CreateLayer => FreshHasNoCrtc();
      case DestroyLayer(k) => assert w.layers[j] == v.layers[if j < k then j else j + 1];
      case Apply => CleaningAddsNoCrtc(v.layers[j]);
      case _ =>
    }
  }

  // ----- what setting a property does to a layer -----

  /** The value just set is read back, and every other property keeps its value. Names longer than the library
      stores are cut, which is another name. */
  lemma {:induction false} SetReadsBack(l: LayerState, name: string, value: uint64, other: string)
    requires name != "CRTC_ID" && |name| < 32
    ensures var m := SetLayerProperty(l, name, value);
            && Value(m.props, name) == Some(value)
            && (other != name ==> Value(m.props, other) == Value(l.props, other))
  {
    var i, m := Find(l.props, name), SetLayerProperty(l, name, value);
    if i < |l.props| {
      SameNamesSameFind(m.props, l.props, name);
      SameNamesSameFind(m.props, l.props, other);
    } else {
      FindAppended(l.props, LayerProp(Stored(name), value, 0), name);
      FindAppended(l.props, LayerProp(Stored(name), value, 0), other);
    }
  }

  lemma {:induction false} FindAppended(props: seq<LayerProp>, p: LayerProp, name: string)
    ensures Find(props + [p], name) ==
            if Find(props, name) < |props| then Find(props, name) else if p.name == name then |props| else |props| + 1
  {
    var all := props + [p];
    assert all[|props|] == p && forall k :: 0 <= k < |props| ==> all[k] == props[k];
    var i, j := Find(props, name), Find(all, name);
    assert i < |props| ==> all[i].name == name;
    assert j < |props| ==> props[j].name == name;
  }

  /** A name the library cannot store is never found again: setting it adds a property every time. */
  lemma {:induction false} LongNamesAreLost(l: LayerState, name: string, value: uint64)
    requires |name| >= 32 && forall k :: 0 <= k < |l.props| ==> |l.props[k].name| < 32
    ensures var m := SetLayerProperty(l, name, value);
            && |m.props| == |l.props| + 1 && m.changed && Value(m.props, name) == None
            && m.props[|l.props|].name == name[..31]
  {
    var m := SetLayerProperty(l, name, value);
    assert |CRTC_ID| == 7;
    assert forall k :: 0 <= k < |m.props| ==> |m.props[k].name| < 32;
    assert m.props[|l.props|].name == name[..31];
  }

  /** A framebuffer ends forced composition: unless it is fully transparent, the layer is visible and may have a
      plane again. */
  lemma {:induction false} FramebufferEndsForce(l: LayerState, n: uint64)
    requires l.forced && n != 0
    ensures var m := SetLayerProperty(l, "FB_ID", n);
            && !m.forced && m.changed && Value(m.props, "FB_ID") == Some(n)
            && (Value(l.props, "alpha") != Some(0) ==> Visible(m.props, m.forced))
  {
    assert |"FB_ID"| == 5 && |"CRTC_ID"| == 7 && "FB_ID"[0] == 'F' && "alpha"[0] == 'a';
    SetReadsBack(l, "FB_ID", n, "alpha");
    VisibleMeans(SetLayerProperty(l, "FB_ID", n).props, false);
  }

  /** No other property ends it, and none starts it. */
  lemma {:induction false} ForceStays(l: LayerState, name: string, value: uint64)
    requires name != "FB_ID" || !l.forced
    ensures SetLayerProperty(l, name, value).forced == l.forced
  {
  }

  /** Forcing takes the framebuffer away; unless it is fully transparent the layer stays visible. */
  lemma {:induction false} ForcedLosesFramebuffer(l: LayerState)
    requires !l.forced
    ensures var m := SetLayerComposited(l);
            && m.forced && m.changed && Value(m.props, "FB_ID") == Some(0)
            && (Visible(m.props, m.forced) <==> Value(l.props, "alpha") != Some(0))
            && SetLayerComposited(m) == m
  {
    assert |"FB_ID"| == 5 && |"CRTC_ID"| == 7 && "FB_ID"[0] == 'F' && "alpha"[0] == 'a';
    SetReadsBack(l, "FB_ID", 0, "alpha");
    VisibleMeans(SetLayerComposited(l).props, true);
  }

  // ----- which changes make an output dirty -----

  /** The changes from `was` to `now` that call for a new allocation. */
  predicate Matters(name: string, was: uint64, now: uint64) {
    if name == "FB_ID" then was != now && (was == 0 || now == 0)
    else if name == "alpha" then was != now && (was == 0 || now == 0 || was == 0xFFFF || now == 0xFFFF)
    else if name == "IN_FENCE_FD" || name == "FB_DAMAGE_CLIPS" then false
    else was != now
  }

  /** On a clean output, setting a property that a layer has already makes the output dirty exactly if the change
      from the remembered value matters, or if it ends forced composition. */
  lemma {:induction false} DirtyExactlyIf(v: OutputState, j: nat, name: string, value: uint64)
    requires !Dirty(v) && j < |v.layers| && name != "CRTC_ID" && Find(v.layers[j].props, name) < |v.layers[j].props|
    ensures var l := v.layers[j];
            Dirty(Edited(SetProperty(j, name, value), v)) <==>
            || Matters(name, l.props[Find(l.props, name)].prevValue, value)
            || (l.forced && name == "FB_ID")
  {
    var l := v.layers[j];
    var i, m, w := Find(l.props, name), SetLayerProperty(l, name, value), Edited(SetProperty(j, name, value), v);
    assert !NeedsRealloc(l);
    forall k | 0 <= k < |l.props| && k != i
      ensures !PropNeedsRealloc(m.props[k])
    {
      assert !PropNeedsRealloc(l.props[k]);
    }
    MattersMeans(m.props[i]);
    assert NeedsRealloc(m) <==> m.changed || PropNeedsRealloc(m.props[i]);
    forall k | 0 <= k < |v.layers| && k != j
      ensures !NeedsRealloc(w.layers[k])
    {
      assert !NeedsRealloc(v.layers[k]);
    }
    assert w.layers[j] == m;
    assert Dirty(w) <==> NeedsRealloc(w.layers[j]);
  }

  lemma {:induction false} MattersMeans(p: LayerProp)
    ensures PropNeedsRealloc(p) <==> Matters(p.name, p.prevValue, p.value)
  {
    NamesDiffer();
    assert FB_ID[0] == 'F' && ALPHA[0] == 'a' && IN_FENCE_FD[0] == 'I' && FB_DAMAGE_CLIPS[3] == 'D';
  }

  /** A property that a layer did not have makes the output dirty. */
  lemma {:induction false} NewPropertyDirties(v: OutputState, j: nat, name: string, value: uint64)
    requires j < |v.layers| && name != "CRTC_ID" && Find(v.layers[j].props, name) == |v.layers[j].props|
    ensures Dirty(Edited(SetProperty(j, name, value), v))
  {
    assert NeedsRealloc(Edited(SetProperty(j, name, value), v).layers[j]);
  }

  /** A page flip, a fence, damage, and fading between fully transparent and opaque leave an output clean. */
  lemma {:induction false} FlipStaysClean(v: OutputState, j: nat, name: string, value: uint64)
    requires !Dirty(v) && j < |v.layers| && Find(v.layers[j].props, name) < |v.layers[j].props|
    requires var was := v.layers[j].props[Find(v.layers[j].props, name)].prevValue;
             || (name == "FB_ID" && !v.layers[j].forced && was != 0 && value != 0)
             || name == "IN_FENCE_FD" || name == "FB_DAMAGE_CLIPS"
             || (name == "alpha" && 0 < was < 0xFFFF && 0 < value < 0xFFFF)
    ensures !Dirty(Edited(SetProperty(j, name, value), v))
  {
    assert "CRTC_ID"[0] == 'C' && "FB_ID"[0] == 'F' && "IN_FENCE_FD"[0] == 'I' && "FB_DAMAGE_CLIPS"[0] == 'F';
    assert "alpha"[0] == 'a' && "FB_ID"[3] == 'I' && "FB_DAMAGE_CLIPS"[3] == 'D';
    DirtyExactlyIf(v, j, name, value);
  }

  /** An operation that calls for no new allocation. */
  ghost predicate Light(op: Op, v: OutputState) {
    match op
    case SetProperty(j, name, value) =>
      && j < |v.layers| && Find(v.layers[j].props, name) < |v.layers[j].props|
      && var was := v.layers[j].props[Find(v.layers[j].props, name)].prevValue;
         || (name == "FB_ID" && !v.layers[j].forced && was != 0 && value != 0)
         || name == "IN_FENCE_FD" || name == "FB_DAMAGE_CLIPS"
         || (name == "alpha" && 0 < was < 0xFFFF && 0 < value < 0xFFFF)
    case Apply => true
    case Elsewhere => true
    case _ => false
  }

  /** Over every run of page flips, fences, damage, fading and successful applies from a clean state the output
      stays clean, so no apply of it is a recomputation unless the kernel refuses. */
  lemma {:induction false} LightRunStaysClean(ops: seq<Op>, vs: seq<OutputState>, i: nat)
    requires Run(ops, vs) && !Dirty(vs[0]) && i <= |ops|
    requires forall t :: 0 <= t < i ==> Light(ops[t], vs[t])
    ensures !Dirty(vs[i])
    ensures (forall t :: 0 <= t < i && ops[t].Apply? ==> vs[t + 1] == vs[t]) ==> vs[i].mapping == vs[0].mapping
  {
    hide Dirty, Sound, WellFormed;
    if i > 0 {
      LightRunStaysClean(ops, vs, i - 1);
      var op, v := ops[i - 1], vs[i - 1];
      assert Step(op, v, vs[i]) && Light(op, v);
      match op
      case SetProperty(j, name, value) => FlipStaysClean(v, j, name, value);
      case Apply =>
        if vs[i] != v {
          ReallocatedIsSame(v, vs[i].mapping);
        }
      case _ =>
    }
  }

  /** Naming the same composition layer again leaves an output clean; naming another one does not. */
  lemma {:induction false} CompositionLayerDirties(v: OutputState, j: nat)
    requires !Dirty(v) && j < |v.layers|
    ensures Dirty(Edited(SetCompositionLayer(j), v)) <==> v.comp != Some(j)
  {
    hide NeedsRealloc;
    assert Edited(SetCompositionLayer(j), v).layers == v.layers;
  }

  /** Creating or destroying a layer makes the output dirty. */
  lemma {:induction false} LayersDirty(v: OutputState, j: nat)
    ensures Dirty(Edited(CreateLayer, v))
    ensures j < |v.layers| ==> Dirty(Edited(DestroyLayer(j), v))
  {
  }
}
