/** The composition layer: what check_alloc_valid accepts, in terms of which layers are shown. */
module Composition {
  import opened Props
  import opened Atomic
  import opened Hardware
  import opened Scenes
  import opened Stacking

  ghost function PlacedSet(s: Scene, a: Alloc): set<nat>
    requires Fits(s, a)
  {
    set j | 0 <= j < |s.layers| && Some(j) in a && s.comp != Some(j)
  }

  /** The score is the number of distinct placed layers, the composition layer left out. */
  lemma {:induction false} ScoreCountsPlaced(s: Scene, a: Alloc)
    requires Fits(s, a) && Injective(a)
    ensures Score(s, a) == |PlacedSet(s, a)|
  {
    if |a| != 0 {
      var front, c := a[..|a| - 1], a[|a| - 1];
      assert a == front + [c];
      ScoreCountsPlaced(s, front);
      if c.Some? && c != s.comp {
        assert c !in front;
        assert PlacedSet(s, a) == PlacedSet(s, front) + {c.value};
      } else {
        assert PlacedSet(s, a) == PlacedSet(s, front);
      }
    } else {
      assert PlacedSet(s, a) == {};
    }
  }

  /** Either the composition layer is in a plane and some other visible layer is not, or it is in no
      plane and all the others are. Nothing is asked when there is no composition layer. */
  ghost predicate CompositionRule(s: Scene, a: Alloc) {
    s.comp.Some? ==>
      if s.comp in a then exists j :: j in ToShow(s) && Some(j) !in a
      else forall j :: j in ToShow(s) ==> Some(j) in a
  }

  lemma SubsetSameSize<T>(a: set<T>, b: set<T>)
    requires a <= b
    ensures |a| <= |b|
    ensures |a| == |b| ==> a == b
  {
    assert b == a + (b - a);
  }

  ghost predicate PlacedAreVisible(s: Scene, a: Alloc)
    requires Fits(s, a)
  {
    forall i :: 0 <= i < |a| && a[i].Some? ==> s.layers[a[i].value].visible
  }

  /** check_alloc_valid compares two counts; on the allocations the search builds that decides
      exactly the composition rule. */
  lemma AllOrComposite(s: Scene, a: Alloc)
    requires WellFormed(s) && Fits(s, a) && Injective(a) && PlacedAreVisible(s, a)
    ensures Acceptable(s, a) <==> CompositionRule(s, a)
  {
    ScoreCountsPlaced(s, a);
    var placed, all := PlacedSet(s, a), ToShow(s);
    forall j | j in placed
      ensures j in all
    {
      var i :| 0 <= i < |a| && a[i] == Some(j);
      assert s.layers[a[i].value].visible;
    }
    SubsetSameSize(placed, all);
    assert Score(s, a) == |all| <==> placed == all;
    if placed == all {
      assert forall j :: j in all ==> j in placed;
    } else {
      var j :| j in all && j !in placed;
      assert Some(j) !in a;
    }
  }

  /** In an admissible allocation the composition layer is on a primary plane or on none. */
  lemma CompositionOnPrimary(q: Search, ok: iset<seq<Entry>>, a: Alloc, i: nat)
    requires SearchOk(q) && Admissible(q, ok, a)
    requires i < |a| && a[i].Some? && a[i] == q.scene.comp
    ensures q.scene.planes[i].kind == PRIMARY
  {
    AdmissibleStep(q, ok, a, i);
  }

  /** liftoff_output_needs_composition: some visible layer has no plane. */
  ghost predicate SomeUnplaced(s: Scene, a: Alloc) {
    exists j: nat :: j < |s.layers| && s.layers[j].visible && Some(j) !in a
  }

  /** With a composition layer the answer says nothing about whether composition happens: it is true
      exactly when the composition layer is visible, even if every other layer has a plane. */
  lemma ReportFollowsCompositionLayer(s: Scene, a: Alloc)
    requires WellFormed(s) && Fits(s, a) && PlacedAreVisible(s, a) && CompositionRule(s, a) && s.comp.Some?
    ensures SomeUnplaced(s, a) <==> s.layers[s.comp.value].visible
  {
    if s.comp in a {
      var i :| 0 <= i < |a| && a[i] == s.comp;
      assert s.layers[a[i].value].visible;
      var j :| j in ToShow(s) && Some(j) !in a;
    } else {
      assert forall j: nat :: j < |s.layers| && s.layers[j].visible && s.comp != Some(j) ==> j in ToShow(s);
    }
  }
}
