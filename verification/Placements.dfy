/** The specification of a layer-to-plane mapping. */
module Placements {
  import opened Props
  import opened Atomic
  import opened Hardware
  import opened Scenes
  import opened Stacking
  import opened Composition
  import opened Optimum

  /** The layer is shown, not forced to composition, and the plane can scan it out on this CRTC. */
  predicate Scannable(s: Scene, i: nat, j: nat)
    requires WellFormed(s) && i < |s.planes| && j < |s.layers|
  {
    && s.layers[j].visible && !s.layers[j].forced
    && CanDrive(s.planes[i], s.crtcIndex)
    && Supports(s.planes[i], s.layers[j].props)
    && (s.comp == Some(j) ==> s.planes[i].kind == PRIMARY)
  }

  ghost predicate AllScannable(s: Scene, a: Alloc)
    requires WellFormed(s) && Fits(s, a)
  {
    forall i: nat {:trigger Scannable(s, i, a[i].value)} :: i < |a| && a[i].Some? ==> Scannable(s, i, a[i].value)
  }

  predicate Nothing(a: Alloc) {
    forall i :: 0 <= i < |a| ==> a[i] == None
  }

  /** What every mapping in force satisfies. */
  ghost predicate Sound(s: Scene, a: Alloc)
    requires WellFormed(s)
  {
    && |a| == |s.planes| && Fits(s, a)
    && Injective(a)
    && AllScannable(s, a)
    && Stacked(s, a) && Separated(s, a)
    && (Nothing(a) || CompositionRule(s, a))
  }

  lemma SearchResultIsSound(q: Search, ok: iset<seq<Entry>>, a: Alloc)
    requires SearchOk(q) && |a| == |q.scene.planes| && Admissible(q, ok, a) && Acceptable(q.scene, a)
    ensures Sound(q.scene, a) && CompositionRule(q.scene, a)
  {
    AdmissibleIsInjective(q, ok, a);
    AdmissibleIsStacked(q, ok, a);
    forall i: nat | i < |a| && a[i].Some?
      ensures Scannable(q.scene, i, a[i].value)
    {
      assert Placeable(q, ok, a[..i], a[i].value);
    }
    AllOrComposite(q.scene, a);
    AdmissibleIsSeparated(q, ok, a);
  }

  /** A recomputation that starts from an empty record ends with a mapping that follows the composition rule
      exactly if the search can reach an acceptable allocation at all; otherwise the mapping is empty. */
  lemma RuleAfterSearch(q: Search, ok: iset<seq<Entry>>, b0: Best, b: Best)
    requires SearchOk(q) && Searched(q, ok, [], b0, b)
    requires b0.score == -1 && |b0.alloc| == |q.scene.planes| && Nothing(b0.alloc)
    ensures CompositionRule(q.scene, b.alloc) <==>
            exists a :: |a| == |q.scene.planes| && Admissible(q, ok, a) && Acceptable(q.scene, a)
    ensures CompositionRule(q.scene, b.alloc) || Nothing(b.alloc)
  {
    SearchedIsMaximum(q, ok, b0, b);
    if b.score != -1 {
      SearchResultIsSound(q, ok, b.alloc);
    } else {
      AllOrComposite(q.scene, b.alloc);
    }
  }

  lemma NothingIsSound(s: Scene, a: Alloc)
    requires WellFormed(s) && |a| == |s.planes| && Nothing(a)
    ensures Sound(s, a)
  {
  }

  /** Two layers that the specification of a mapping cannot tell apart on these planes. */
  predicate Alike(planes: seq<PlaneInfo>, l: LayerFacts, m: LayerFacts) {
    && l.visible == m.visible && l.forced == m.forced && l.zpos == m.zpos && l.rect == m.rect
    && forall i {:trigger Supports(planes[i], l.props)} {:trigger Supports(planes[i], m.props)} :: 0 <= i < |planes| ==>
         Supports(planes[i], l.props) == Supports(planes[i], m.props)
  }

  predicate SameScene(s: Scene, t: Scene) {
    && s.planes == t.planes && s.comp == t.comp && s.crtcIndex == t.crtcIndex
    && |s.layers| == |t.layers|
    && forall j {:trigger Alike(s.planes, s.layers[j], t.layers[j])} :: 0 <= j < |s.layers| ==>
         Alike(s.planes, s.layers[j], t.layers[j])
  }

  /** The composition layer is the same and the same layers have to be shown. */
  lemma SameToShow(s: Scene, t: Scene)
    requires SameScene(s, t)
    ensures ToShow(s) == ToShow(t)
  {
    forall j | 0 <= j < |s.layers|
      ensures s.layers[j].visible == t.layers[j].visible
    {
      assert Alike(s.planes, s.layers[j], t.layers[j]);
    }
  }

  lemma RuleTransfers(s: Scene, t: Scene, a: Alloc)
    requires SameScene(s, t)
    ensures CompositionRule(s, a) <==> CompositionRule(t, a)
  {
    SameToShow(s, t);
  }

  lemma SeparationTransfers(s: Scene, t: Scene, a: Alloc)
    requires SameScene(s, t) && Fits(s, a) && Fits(t, a) && Separated(s, a)
    ensures Separated(t, a)
  {
    forall i: nat | i < |a| && a[i].Some?
      ensures s.layers[a[i].value].zpos == t.layers[a[i].value].zpos
      ensures s.layers[a[i].value].rect == t.layers[a[i].value].rect
    {
      assert Alike(s.planes, s.layers[a[i].value], t.layers[a[i].value]);
    }
    if Sorted(t.planes) && IntZpos(t, a) {
      assert forall i: nat :: Marked(s, a, i) <==> Marked(t, a, i);
      assert IntZpos(s, a);
      forall i: nat, j: nat | Over(t, a, i, j)
        ensures t.planes[i].zpos > t.planes[j].zpos || exists m: nat :: Squeezed(t, a, i, m, j)
      {
        assert Over(s, a, i, j);
        if m: nat :| Squeezed(s, a, i, m, j) {
          assert Squeezed(t, a, i, m, j);
        }
      }
    }
  }

  lemma StackTransfers(s: Scene, t: Scene, a: Alloc)
    requires SameScene(s, t) && Fits(s, a) && Fits(t, a) && Stacked(s, a)
    ensures Stacked(t, a)
  {
    forall i: nat, k: nat | OnOverlay(t, a, i) && k < |t.layers| && Above(t, k, a[i].value)
      ensures Some(k) in a[..i]
    {
      assert OnOverlay(s, a, i);
      assert Alike(s.planes, s.layers[k], t.layers[k]);
      assert Alike(s.planes, s.layers[a[i].value], t.layers[a[i].value]);
      assert Above(s, k, a[i].value);
    }
  }

  lemma SoundnessTransfers(s: Scene, t: Scene, a: Alloc)
    requires WellFormed(s) && WellFormed(t) && SameScene(s, t) && Sound(s, a)
    ensures Sound(t, a)
  {
    hide Stacked, Separated, WellFormed, Injective, Alike, ToShow;
    StackTransfers(s, t, a);
    SeparationTransfers(s, t, a);
    SameToShow(s, t);
    forall i: nat | i < |a| && a[i].Some?
      ensures Scannable(t, i, a[i].value)
    {
      ScannableTransfers(s, t, i, a[i].value);
    }
  }

  lemma ScannableTransfers(s: Scene, t: Scene, i: nat, j: nat)
    requires WellFormed(s) && WellFormed(t) && SameScene(s, t)
    requires i < |s.planes| && j < |s.layers| && Scannable(s, i, j)
    ensures Scannable(t, i, j)
  {
    assert Alike(s.planes, s.layers[j], t.layers[j]);
  }
}
