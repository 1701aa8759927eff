/** What the z-order checks achieve: facts about every admissible allocation, whatever the kernel
    answered and whatever order the layers were tried in. */
module Stacking {
  import opened Props
  import opened Atomic
  import opened Hardware
  import opened Scenes

  predicate Injective(a: Alloc) {
    forall i, j :: 0 <= i < j < |a| && a[i].Some? ==> a[i] != a[j]
  }

  /** Nothing lies over a scanned-out layer except what is on a plane tried earlier. */
  ghost predicate Stacked(s: Scene, a: Alloc)
    requires Fits(s, a)
  {
    forall i: nat, k: nat {:trigger OnOverlay(s, a, i), Above(s, k, a[i].value)} ::
      OnOverlay(s, a, i) && k < |s.layers| && Above(s, k, a[i].value) ==> Some(k) in a[..i]
  }

  lemma AdmissibleIsInjective(q: Search, ok: iset<seq<Entry>>, a: Alloc)
    requires SearchOk(q) && Admissible(q, ok, a)
    ensures Injective(a)
  {
    forall i, j | 0 <= i < j < |a| && a[i].Some?
      ensures a[i] != a[j]
    {
      assert a[j].Some? ==> Placeable(q, ok, a[..j], a[j].value);
      assert a[..j][i] == a[i];
    }
  }

  lemma AdmissibleIsStacked(q: Search, ok: iset<seq<Entry>>, a: Alloc)
    requires SearchOk(q) && Admissible(q, ok, a)
    ensures Stacked(q.scene, a)
  {
    forall i: nat, k: nat | OnOverlay(q.scene, a, i) && k < |q.scene.layers| && Above(q.scene, k, a[i].value)
      ensures Some(k) in a[..i]
    {
      assert Placeable(q, ok, a[..i], a[i].value);
    }
  }

  /** Of two overlapping layers on non-primary planes the upper one is on the plane tried first. */
  lemma NoInversion(s: Scene, a: Alloc, i: nat, j: nat)
    requires Fits(s, a) && Injective(a) && Stacked(s, a)
    requires OnOverlay(s, a, i) && j < |a| && a[j].Some? && Above(s, a[j].value, a[i].value)
    ensures j < i
  {
    var d :| 0 <= d < i && a[..i][d] == a[j];
    assert a[d] == a[j];
  }

  // ----- has_allocated_layer_over never decides -----

  /** Layer `j`, still unplaced, lies over no layer already on a non-primary plane: placing that
      layer would have been refused because of `j`. */
  lemma VetoIsRedundant(s: Scene, p: Alloc, j: nat)
    requires Fits(s, p) && Stacked(s, p) && j < |s.layers| && Some(j) !in p
    ensures !AllocatedOver(s, p, j)
  {
    assert forall i :: 0 <= i < |p| && OnOverlay(s, p, i) ==> !Above(s, j, p[i].value);
  }

  ghost predicate PlaceableWithoutVeto(q: Search, ok: iset<seq<Entry>>, p: Alloc, j: nat)
    requires SearchOk(q) && Fits(q.scene, p) && |p| < |q.scene.planes|
  {
    && j < |q.scene.layers|
    && Usable(q, |p|)
    && !q.scene.layers[j].forced && q.scene.layers[j].visible
    && CompatibleWithoutVeto(q.scene, p, j)
    && Supports(q.scene.planes[|p|], q.scene.layers[j].props)
    && RequestFor(q, p + [Some(j)]) in ok
  }

  ghost predicate AdmissibleWithoutVeto(q: Search, ok: iset<seq<Entry>>, a: Alloc)
    requires SearchOk(q)
  {
    Fits(q.scene, a) &&
    forall i {:trigger PlaceableWithoutVeto(q, ok, a[..i], a[i].value)} :: 0 <= i < |a| && a[i].Some? ==>
      PlaceableWithoutVeto(q, ok, a[..i], a[i].value)
  }

  /** Deleting the check has_allocated_layer_over changes no search space. */
  lemma VetoChangesNothing(q: Search, ok: iset<seq<Entry>>, a: Alloc)
    requires SearchOk(q)
    ensures Admissible(q, ok, a) <==> AdmissibleWithoutVeto(q, ok, a)
  {
    if Admissible(q, ok, a) {
      forall i | 0 <= i < |a| && a[i].Some?
        ensures PlaceableWithoutVeto(q, ok, a[..i], a[i].value)
      {
        assert Placeable(q, ok, a[..i], a[i].value);
      }
    }
    if AdmissibleWithoutVeto(q, ok, a) {
      UnvetoedIsStacked(q, ok, a);
      forall i | 0 <= i < |a| && a[i].Some?
        ensures Placeable(q, ok, a[..i], a[i].value)
      {
        StackedPrefix(q.scene, a, i);
        VetoChangesNoStep(q, ok, a[..i], a[i].value);
      }
    }
  }

  lemma VetoChangesNoStep(q: Search, ok: iset<seq<Entry>>, p: Alloc, j: nat)
    requires SearchOk(q) && Fits(q.scene, p) && |p| < |q.scene.planes| && Stacked(q.scene, p)
    requires PlaceableWithoutVeto(q, ok, p, j)
    ensures Placeable(q, ok, p, j)
  {
    VetoIsRedundant(q.scene, p, j);
  }

  lemma UnvetoedIsStacked(q: Search, ok: iset<seq<Entry>>, a: Alloc)
    requires SearchOk(q) && AdmissibleWithoutVeto(q, ok, a)
    ensures Stacked(q.scene, a)
  {
    forall i: nat, k: nat | OnOverlay(q.scene, a, i) && k < |q.scene.layers| && Above(q.scene, k, a[i].value)
      ensures Some(k) in a[..i]
    {
      assert PlaceableWithoutVeto(q, ok, a[..i], a[i].value);
    }
  }

  lemma StackedPrefix(s: Scene, a: Alloc, n: nat)
    requires Fits(s, a) && Stacked(s, a) && n <= |a|
    ensures Stacked(s, a[..n])
  {
    forall i: nat, k: nat | OnOverlay(s, a[..n], i) && k < |s.layers| && Above(s, k, a[..n][i].value)
      ensures Some(k) in a[..n][..i]
    {
      assert OnOverlay(s, a, i);
      assert a[..n][..i] == a[..i];
    }
  }

  // ----- chains of overlapping layers -----

  /** Every layer of the chain overlaps the one before it and is strictly above it. */
  predicate Chain(s: Scene, c: seq<nat>) {
    && (forall t :: 0 <= t < |c| ==> c[t] < |s.layers|)
    && (forall t :: 0 <= t < |c| - 1 ==> Above(s, c[t + 1], c[t]))
  }

  /** The plane a placed layer is on. */
  function PlaneOf(a: Alloc, j: nat): (i: nat)
    requires Some(j) in a
    ensures i < |a| && a[i] == Some(j)
  {
    if a[0] == Some(j) then 0 else 1 + PlaneOf(a[1..], j)
  }

  predicate OnPrimary(s: Scene, a: Alloc, j: nat)
    requires Fits(s, a)
  {
    Some(j) in a && s.planes[PlaneOf(a, j)].kind == PRIMARY
  }

  /** If the bottom of a chain is on a non-primary plane, then every layer up to and including the
      first one on a primary plane is placed, each on a plane tried before the one below it. */
  lemma {:induction false} DominoClosure(s: Scene, a: Alloc, c: seq<nat>, t: nat)
    requires Fits(s, a) && Injective(a) && Stacked(s, a) && Chain(s, c)
    requires t < |c| && Some(c[0]) in a
    requires forall u :: 0 <= u < t ==> !OnPrimary(s, a, c[u])
    ensures Some(c[t]) in a
    ensures t > 0 ==> Some(c[t - 1]) in a && PlaneOf(a, c[t]) < PlaneOf(a, c[t - 1])
  {
    if t > 0 {
      DominoClosure(s, a, c, t - 1);
      var i := PlaneOf(a, c[t - 1]);
      assert !OnPrimary(s, a, c[t - 1]);
      assert OnOverlay(s, a, i) && Above(s, c[t], a[i].value);
      var d :| 0 <= d < i && a[..i][d] == Some(c[t]);
      assert a[d] == Some(c[t]);
    }
  }

  /** Hence a chain with more layers than there are planes, whose bottom is on a non-primary plane,
      has a layer on a primary plane. */
  lemma LongChainReachesPrimary(s: Scene, a: Alloc, c: seq<nat>)
    requires Fits(s, a) && Injective(a) && Stacked(s, a) && Chain(s, c)
    requires |c| > |a| && Some(c[0]) in a
    ensures exists u :: 0 <= u < |c| && OnPrimary(s, a, c[u])
  {
    if forall u :: 0 <= u < |c| ==> !OnPrimary(s, a, c[u]) {
      Descent(s, a, c, |a|);
    }
  }

  lemma {:induction false} Descent(s: Scene, a: Alloc, c: seq<nat>, t: nat)
    requires Fits(s, a) && Injective(a) && Stacked(s, a) && Chain(s, c)
    requires t < |c| && Some(c[0]) in a
    requires forall u :: 0 <= u < |c| ==> !OnPrimary(s, a, c[u])
    ensures Some(c[t]) in a && PlaneOf(a, c[t]) + t < |a|
  {
    DominoClosure(s, a, c, t);
    if t > 0 {
      Descent(s, a, c, t - 1);
    }
  }

  // ----- plane zpos of overlapping layers -----

  predicate Sorted(planes: seq<PlaneInfo>) {
    forall i, j :: 0 <= i < j < |planes| ==> InOrder(planes[i], planes[j])
  }

  /** Primary planes come first, the others by non-increasing zpos. */
  predicate InOrder(a: PlaneInfo, b: PlaneInfo) {
    if b.kind == PRIMARY then a.kind == PRIMARY else a.kind != PRIMARY ==> a.zpos >= b.zpos
  }

  /** A placed layer with a zpos on a non-primary plane. */
  predicate Marked(s: Scene, a: Alloc, i: nat)
    requires Fits(s, a)
  {
    OnOverlay(s, a, i) && s.layers[a[i].value].zpos.Some?
  }

  function Z(s: Scene, a: Alloc, i: nat): uint64
    requires Fits(s, a) && Marked(s, a, i)
  {
    s.layers[a[i].value].zpos.value
  }

  lemma {:induction false} LastMarked(s: Scene, a: Alloc, n: nat, i: nat) returns (m: nat)
    requires Fits(s, a) && i < n <= |a| && Marked(s, a, i)
    ensures i <= m < n && Marked(s, a, m) && LastZpos(s, a[..n]) == ToInt32(Z(s, a, m))
  {
    assert a[..n][..n - 1] == a[..n - 1];
    if Marked(s, a, n - 1) {
      m := n - 1;
    } else {
      m := LastMarked(s, a, n - 1, i);
    }
  }

  /** No zpos of a layer on a non-primary plane exceeds what an int holds. */
  ghost predicate IntZpos(s: Scene, a: Alloc)
    requires Fits(s, a)
  {
    forall i: nat {:trigger Marked(s, a, i)} :: Marked(s, a, i) ==> Z(s, a, i) <= INT_MAX
  }

  /** The layer on plane `i` overlaps the layer on plane `j` and is strictly above it; neither plane is
      a primary plane. */
  predicate Over(s: Scene, a: Alloc, i: nat, j: nat)
    requires Fits(s, a)
  {
    OnOverlay(s, a, i) && OnOverlay(s, a, j) && Above(s, a[i].value, a[j].value)
  }

  /** Plane `m` lies between `i` and `j`, all three have the same zpos, and the layer on `m` is not
      above the one on `j`. */
  predicate Squeezed(s: Scene, a: Alloc, i: nat, m: nat, j: nat)
    requires Fits(s, a)
  {
    && i < m < j && Marked(s, a, i) && Marked(s, a, m) && Marked(s, a, j) && Z(s, a, m) <= Z(s, a, j)
    && s.planes[i].zpos == s.planes[m].zpos == s.planes[j].zpos
  }

  /** An upper layer is on a plane of strictly greater zpos, unless a third plane squeezes in. */
  ghost predicate Separated(s: Scene, a: Alloc)
    requires Fits(s, a)
  {
    Sorted(s.planes) && IntZpos(s, a) ==>
      forall i: nat, j: nat {:trigger Over(s, a, i, j)} :: Over(s, a, i, j) ==>
        s.planes[i].zpos > s.planes[j].zpos || exists m: nat :: Squeezed(s, a, i, m, j)
  }

  lemma AdmissibleStep(q: Search, ok: iset<seq<Entry>>, a: Alloc, j: nat)
    requires SearchOk(q) && Admissible(q, ok, a) && j < |a| && a[j].Some?
    ensures Compatible(q.scene, a[..j], a[j].value)
  {
    assert Placeable(q, ok, a[..j], a[j].value);
  }

  /** Every placement was compatible with the placements before it. */
  ghost predicate Stepwise(s: Scene, a: Alloc)
    requires Fits(s, a)
  {
    forall j: nat {:trigger Compatible(s, a[..j], a[j].value)} :: j < |a| && a[j].Some? ==>
      Compatible(s, a[..j], a[j].value)
  }

  lemma StepwiseOver(s: Scene, a: Alloc, i: nat, j: nat)
    requires Fits(s, a) && Injective(a) && Stacked(s, a) && Stepwise(s, a) && Sorted(s.planes) && IntZpos(s, a)
    requires Over(s, a, i, j)
    ensures s.planes[i].zpos > s.planes[j].zpos || exists m: nat :: Squeezed(s, a, i, m, j)
  {
    NoInversion(s, a, j, i);
    var m := LastMarked(s, a, j, i);
    assert Compatible(s, a[..j], a[j].value);
    if Z(s, a, m) > Z(s, a, j) {
      assert OnOverlay(s, a[..j], i) && !PlaneUnder(s, a[..j], a[j].value);
    } else {
      assert InOrder(s.planes[i], s.planes[m]) && InOrder(s.planes[m], s.planes[j]);
      assert s.planes[i].zpos > s.planes[j].zpos || Squeezed(s, a, i, m, j);
    }
  }

  /** The order of plane zpos in whatever the search can build. */
  lemma AdmissibleIsSeparated(q: Search, ok: iset<seq<Entry>>, a: Alloc)
    requires SearchOk(q) && Admissible(q, ok, a)
    ensures Separated(q.scene, a)
  {
    AdmissibleIsInjective(q, ok, a);
    AdmissibleIsStacked(q, ok, a);
    forall j: nat | j < |a| && a[j].Some?
      ensures Compatible(q.scene, a[..j], a[j].value)
    {
      AdmissibleStep(q, ok, a, j);
    }
    if Sorted(q.scene.planes) && IntZpos(q.scene, a) {
      forall i: nat, j: nat | Over(q.scene, a, i, j)
        ensures q.scene.planes[i].zpos > q.scene.planes[j].zpos || exists m: nat :: Squeezed(q.scene, a, i, m, j)
      {
        StepwiseOver(q.scene, a, i, j);
      }
    }
  }

  /** Plane zpos follows layer zpos strictly wherever layers on non-primary planes overlap. */
  ghost predicate KeepsOrder(s: Scene, a: Alloc)
    requires Fits(s, a)
  {
    forall i: nat, j: nat {:trigger Over(s, a, i, j)} :: Over(s, a, i, j) ==> s.planes[i].zpos > s.planes[j].zpos
  }

  /** All layers with a zpos on non-primary planes overlap each other. */
  ghost predicate OverlappingStack(s: Scene, a: Alloc)
    requires Fits(s, a)
  {
    forall i: nat, j: nat :: Marked(s, a, i) && Marked(s, a, j) ==>
      Overlap(s.layers[a[i].value].rect, s.layers[a[j].value].rect)
  }

  lemma {:induction false} NothingSqueezes(s: Scene, a: Alloc, i: nat, j: nat)
    requires Fits(s, a) && Separated(s, a) && Sorted(s.planes) && IntZpos(s, a) && OverlappingStack(s, a)
    requires Over(s, a, i, j)
    ensures s.planes[i].zpos > s.planes[j].zpos
    decreases j
  {
    if m: nat :| Squeezed(s, a, i, m, j) {
      assert Over(s, a, i, m);
      NothingSqueezes(s, a, i, m);
    }
  }

  /** In a stack of layers that overlap pairwise the order is kept. */
  lemma OverlappingStackKeepsOrder(s: Scene, a: Alloc)
    requires Fits(s, a) && Separated(s, a) && Sorted(s.planes) && IntZpos(s, a) && OverlappingStack(s, a)
    ensures KeepsOrder(s, a)
  {
    forall i: nat, j: nat | Over(s, a, i, j)
      ensures s.planes[i].zpos > s.planes[j].zpos
    {
      NothingSqueezes(s, a, i, j);
    }
  }

  // ----- the checks in terms of the screen -----

  /** A pixel of a layer on a non-primary plane belongs to no layer of greater zpos, except to layers on planes
      tried earlier. */
  lemma NothingCoversAPixel(q: Search, ok: iset<seq<Entry>>, a: Alloc, i: nat, k: nat, x: int, y: int)
    requires SearchOk(q) && Admissible(q, ok, a) && i < |a| && a[i].Some? && k < |q.scene.layers|
    requires var j := a[i].value;
             && q.scene.planes[i].kind != 1
             && q.scene.layers[j].zpos.Some? && q.scene.layers[k].zpos.Some?
             && q.scene.layers[k].zpos.value > q.scene.layers[j].zpos.value
             && Covers(q.scene.layers[j].rect, x, y) && Covers(q.scene.layers[k].rect, x, y)
    ensures exists d :: 0 <= d < i && a[d] == Some(k)
  {
    AdmissibleIsStacked(q, ok, a);
    OverlapIsSharedPixel(q.scene.layers[a[i].value].rect, q.scene.layers[k].rect);
    assert OnOverlay(q.scene, a, i) && Above(q.scene, k, a[i].value);
    var d :| 0 <= d < i && a[..i][d] == Some(k);
    assert a[d] == Some(k);
  }

  /** last_layer_zpos is the greatest int as long as no layer with a zpos is on a non-primary plane, */
  lemma {:induction false} LastZposAtFirst(s: Scene, p: Alloc)
    requires Fits(s, p) && forall i: nat :: !Marked(s, p, i)
    ensures LastZpos(s, p) == 0x7FFF_FFFF
  {
    if |p| > 0 {
      var front := p[..|p| - 1];
      assert !Marked(s, p, |p| - 1);
      assert forall i: nat :: Marked(s, front, i) ==> Marked(s, p, i);
      LastZposAtFirst(s, front);
    }
  }

  /** and then the zpos, as an int, of the one placed last. */
  lemma {:induction false} LastZposMeans(s: Scene, p: Alloc, i: nat)
    requires Fits(s, p) && Marked(s, p, i) && forall k: nat :: i < k ==> !Marked(s, p, k)
    ensures (Z(s, p, i) - LastZpos(s, p)) % 0x1_0000_0000 == 0
  {
    var n := |p| - 1;
    if i < n {
      assert !Marked(s, p, n);
      assert forall k: nat :: Marked(s, p[..n], k) ==> Marked(s, p, k);
      assert p[..n][i] == p[i] && Marked(s, p[..n], i);
      LastZposMeans(s, p[..n], i);
    }
  }

  /** No unplaced layer of greater zpos intersects layer `j`. */
  ghost predicate Uncovered(s: Scene, p: Alloc, j: nat)
    requires j < |s.layers|
  {
    forall k: nat {:trigger s.layers[k]} ::
      k < |s.layers| && s.layers[k].zpos.Some? && s.layers[j].zpos.Some? &&
      s.layers[k].zpos.value > s.layers[j].zpos.value && Overlap(s.layers[j].rect, s.layers[k].rect) ==>
        Some(k) in p
  }

  /** The plane after `p` is strictly below every non-primary plane that has a layer which `j` intersects. */
  ghost predicate PlaneBelow(s: Scene, p: Alloc, j: nat)
    requires Fits(s, p) && |p| < |s.planes| && j < |s.layers|
  {
    forall i: nat {:trigger p[i]} ::
      i < |p| && p[i].Some? && s.planes[i].kind != 1 && Overlap(s.layers[j].rect, s.layers[p[i].value].rect) ==>
        s.planes[|p|].zpos < s.planes[i].zpos
  }

  /** The exact condition for a layer to be tried on the plane after the choices `p`, when these were made by the
      same rules. On a plane other than a primary one it must not be the composition layer, nor lie under an
      unplaced layer; and if its zpos is below that of the layer placed last then the plane must be strictly
      below the planes of all placed layers it intersects. */
  lemma ProposedMeans(q: Search, p: Alloc, j: nat)
    requires SearchOk(q) && Fits(q.scene, p) && |p| < |q.scene.planes| && Stacked(q.scene, p)
    ensures var s, plane := q.scene, q.scene.planes[|p|];
            Proposed(q, p, j) <==>
            && j < |s.layers| && q.free[|p|] && CanDrive(plane, s.crtcIndex)
            && s.layers[j].visible && !s.layers[j].forced && Supports(plane, s.layers[j].props)
            && Some(j) !in p
            && (plane.kind != 1 ==> s.comp != Some(j) && Uncovered(s, p, j))
            && (s.layers[j].zpos.Some? && ToInt32(s.layers[j].zpos.value) < LastZpos(s, p) ==> PlaneBelow(s, p, j))
  {
    hide LastZpos, Supports, CanDrive, CompositedOver, Uncovered, PlaneUnder, PlaneBelow, AllocatedOver, Stacked,
      AllBasic;
    if j < |q.scene.layers| && Some(j) !in p {
      VetoIsRedundant(q.scene, p, j);
    }
    if j < |q.scene.layers| {
      UncoveredMeans(q.scene, p, j);
      UnderMeans(q.scene, p, j);
    }
  }

  lemma UncoveredMeans(s: Scene, p: Alloc, j: nat)
    requires Fits(s, p) && j < |s.layers|
    ensures Uncovered(s, p, j) <==> !CompositedOver(s, p, j)
  {
    if !Uncovered(s, p, j) {
      var k: nat :| k < |s.layers| && s.layers[k].zpos.Some? && s.layers[j].zpos.Some? &&
                    s.layers[k].zpos.value > s.layers[j].zpos.value &&
                    Overlap(s.layers[j].rect, s.layers[k].rect) && Some(k) !in p;
      assert Above(s, k, j);
    }
  }

  lemma UnderMeans(s: Scene, p: Alloc, j: nat)
    requires Fits(s, p) && |p| < |s.planes| && j < |s.layers|
    ensures PlaneBelow(s, p, j) <==> !PlaneUnder(s, p, j)
  {
    hide Overlap;
    if PlaneBelow(s, p, j) {
      assert forall i :: 0 <= i < |p| && OnOverlay(s, p, i) ==> p[i].Some? && s.planes[i].kind != 1;
    } else {
      var i: nat :| i < |p| && p[i].Some? && s.planes[i].kind != 1 &&
                    Overlap(s.layers[j].rect, s.layers[p[i].value].rect) && !(s.planes[|p|].zpos < s.planes[i].zpos);
      assert OnOverlay(s, p, i);
    }
  }
}
