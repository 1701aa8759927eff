/** What becomes of a mapping when a plane is added to the device or taken off it (plane.c). Nothing
    marks the outputs changed, so the mapping may be used again. */
module PlaneChanges {
  import opened Sequences
  import opened Props
  import opened Hardware
  import opened Scenes
  import opened Stacking
  import opened Composition
  import opened Placements

  /** The scene without plane number `k`. */
  function Lacking(s: Scene, k: nat): Scene
    requires k < |s.planes|
  {
    s.(planes := Dropped(s.planes, k))
  }

  lemma DroppedStaysSorted(infos: seq<PlaneInfo>, k: nat)
    requires k < |infos| && DistinctIds(infos)
    ensures DistinctIds(Dropped(infos, k)) && (Sorted(infos) ==> Sorted(Dropped(infos, k)))
  {
    var t := Dropped(infos, k);
    forall i, j | 0 <= i < j < |t|
      ensures t[i].id != t[j].id && (Sorted(infos) ==> InOrder(t[i], t[j]))
    {
      var a, b := Shifted(k, i), Shifted(k, j);
      assert infos[a].id != infos[b].id;
    }
  }

  lemma LackingWellFormed(s: Scene, k: nat)
    requires WellFormed(s) && k < |s.planes|
    ensures WellFormed(Lacking(s, k))
  {
    DroppedStaysSorted(s.planes, k);
    forall i | 0 <= i < |s.planes| - 1
      ensures HasBasics(Dropped(s.planes, k)[i])
    {
      assert HasBasics(s.planes[Shifted(k, i)]);
    }
  }

  lemma LackingFits(s: Scene, a: Alloc, k: nat)
    requires Fits(s, a) && |a| == |s.planes| && k < |a|
    ensures Fits(Lacking(s, k), Dropped(a, k))
  {
  }

  lemma StillAmong(a: Alloc, k: nat, j: nat)
    requires k < |a| && (a[k] == None || Injective(a))
    ensures Some(j) in Dropped(a, k) <==> Some(j) in a && a[k] != Some(j)
  {
    var b := Dropped(a, k);
    if i :| 0 <= i < |b| && b[i] == Some(j) {
      assert a[Shifted(k, i)] == Some(j);
    }
    if i :| 0 <= i < |a| && a[i] == Some(j) && i != k {
      assert b[Unshifted(k, i)] == Some(j);
    }
  }

  lemma StillBefore(a: Alloc, k: nat, j: nat, n: nat)
    requires Injective(a) && k < |a| && n < |a|
    ensures Some(j) in Dropped(a, k)[..n] <==> Some(j) in a[..Shifted(k, n)] && a[k] != Some(j)
  {
    var b := Dropped(a, k);
    if i :| 0 <= i < n && b[i] == Some(j) {
      assert a[..Shifted(k, n)][Shifted(k, i)] == Some(j);
    }
    if i :| 0 <= i < Shifted(k, n) && a[i] == Some(j) && i != k {
      assert b[..n][Unshifted(k, i)] == Some(j);
    }
  }

  // ----- z-order -----

  /** The layer on plane `k`, if any, lies over no layer on another non-primary plane. */
  ghost predicate CoversNothing(s: Scene, a: Alloc, k: nat)
    requires Fits(s, a) && k < |a|
  {
    a[k].Some? ==>
      forall i: nat {:trigger OnOverlay(s, a, i)} :: i != k && OnOverlay(s, a, i) ==>
        !Above(s, a[k].value, a[i].value)
  }

  lemma StackedWithoutPlane(s: Scene, a: Alloc, k: nat)
    requires Fits(s, a) && |a| == |s.planes| && k < |a| && Injective(a) && Stacked(s, a)
    ensures Stacked(Lacking(s, k), Dropped(a, k)) <==> CoversNothing(s, a, k)
  {
    var t, b := Lacking(s, k), Dropped(a, k);
    if CoversNothing(s, a, k) {
      forall i: nat, y: nat | OnOverlay(t, b, i) && y < |t.layers| && Above(t, y, b[i].value)
        ensures Some(y) in b[..i]
      {
        assert OnOverlay(s, a, Shifted(k, i)) && Above(s, y, a[Shifted(k, i)].value);
        StillBefore(a, k, y, i);
      }
    }
    if Stacked(t, b) && a[k].Some? {
      forall i: nat | i != k && OnOverlay(s, a, i)
        ensures !Above(s, a[k].value, a[i].value)
      {
        assert OnOverlay(t, b, Unshifted(k, i));
        StillBefore(a, k, a[k].value, Unshifted(k, i));
        assert !Above(t, a[k].value, b[Unshifted(k, i)].value);
      }
    }
  }

  lemma StackedWithPlane(s: Scene, a: Alloc, k: nat)
    requires Fits(s, a) && |a| == |s.planes| && k < |a| && Injective(a) && a[k] == None
    requires Stacked(Lacking(s, k), Dropped(a, k))
    ensures Stacked(s, a)
  {
    var t, b := Lacking(s, k), Dropped(a, k);
    forall i: nat, y: nat | OnOverlay(s, a, i) && y < |s.layers| && Above(s, y, a[i].value)
      ensures Some(y) in a[..i]
    {
      assert OnOverlay(t, b, Unshifted(k, i)) && Above(t, y, b[Unshifted(k, i)].value);
      StillBefore(a, k, y, Unshifted(k, i));
    }
  }

  // ----- plane zpos -----

  lemma OverShifts(s: Scene, a: Alloc, k: nat, i: nat, j: nat)
    requires Fits(s, a) && |a| == |s.planes| && k < |a|
    ensures var t, b := Lacking(s, k), Dropped(a, k);
            Over(t, b, i, j) <==> Over(s, a, Shifted(k, i), Shifted(k, j))
  {
  }

  lemma SqueezedShifts(s: Scene, a: Alloc, k: nat, i: nat, m: nat, j: nat)
    requires Fits(s, a) && |a| == |s.planes| && k < |a|
    ensures var t, b := Lacking(s, k), Dropped(a, k);
            Squeezed(t, b, i, m, j) <==> Squeezed(s, a, Shifted(k, i), Shifted(k, m), Shifted(k, j))
  {
  }

  lemma SqueezeRises(s: Scene, a: Alloc, k: nat, i: nat, j: nat)
    requires Fits(s, a) && |a| == |s.planes| && k < |a|
    ensures var t, b := Lacking(s, k), Dropped(a, k);
            (exists m: nat :: Squeezed(t, b, i, m, j)) <==>
            (exists m: nat :: m != k && Squeezed(s, a, Shifted(k, i), m, Shifted(k, j)))
  {
    hide Squeezed;
    var t, b := Lacking(s, k), Dropped(a, k);
    if m: nat :| Squeezed(t, b, i, m, j) {
      SqueezedShifts(s, a, k, i, m, j);
    }
    if m: nat :| m != k && Squeezed(s, a, Shifted(k, i), m, Shifted(k, j)) {
      SqueezedShifts(s, a, k, i, Unshifted(k, m), j);
    }
  }

  /** Wherever a pair of layers on other planes is not separated by the planes' zpos, a plane other than `k`
      squeezes in. */
  ghost predicate SqueezeStays(s: Scene, a: Alloc, k: nat)
    requires Fits(s, a)
  {
    forall i: nat, j: nat {:trigger Over(s, a, i, j)} ::
      i != k && j != k && Over(s, a, i, j) && s.planes[i].zpos <= s.planes[j].zpos ==>
        exists m: nat :: m != k && Squeezed(s, a, i, m, j)
  }

  lemma IntZposWithoutPlane(s: Scene, a: Alloc, k: nat)
    requires Fits(s, a) && |a| == |s.planes| && k < |a|
    ensures IntZpos(s, a) ==> IntZpos(Lacking(s, k), Dropped(a, k))
    ensures a[k] == None && IntZpos(Lacking(s, k), Dropped(a, k)) ==> IntZpos(s, a)
  {
    var t, b := Lacking(s, k), Dropped(a, k);
    forall i: nat
      ensures Marked(t, b, i) <==> Marked(s, a, Shifted(k, i))
    {
    }
    assert forall i: nat :: Marked(s, a, i) && i != k ==> Marked(t, b, Unshifted(k, i));
  }

  lemma SeparatedWithoutPlane(s: Scene, a: Alloc, k: nat)
    requires Fits(s, a) && |a| == |s.planes| && k < |a| && DistinctIds(s.planes)
    requires Sorted(s.planes) && IntZpos(s, a)
    ensures Separated(Lacking(s, k), Dropped(a, k)) <==> SqueezeStays(s, a, k)
  {
    hide Squeezed, Sorted, IntZpos, Above;
    var t, b := Lacking(s, k), Dropped(a, k);
    DroppedStaysSorted(s.planes, k);
    IntZposWithoutPlane(s, a, k);
    if Separated(t, b) {
      forall i: nat, j: nat | i != k && j != k && Over(s, a, i, j) && s.planes[i].zpos <= s.planes[j].zpos
        ensures exists m: nat :: m != k && Squeezed(s, a, i, m, j)
      {
        OverShifts(s, a, k, Unshifted(k, i), Unshifted(k, j));
        SqueezeRises(s, a, k, Unshifted(k, i), Unshifted(k, j));
      }
    }
    if SqueezeStays(s, a, k) {
      forall i: nat, j: nat | Over(t, b, i, j)
        ensures t.planes[i].zpos > t.planes[j].zpos || exists m: nat :: Squeezed(t, b, i, m, j)
      {
        OverShifts(s, a, k, i, j);
        SqueezeRises(s, a, k, i, j);
      }
    }
  }

  lemma SeparatedWithPlane(s: Scene, a: Alloc, k: nat)
    requires Fits(s, a) && |a| == |s.planes| && k < |a| && DistinctIds(s.planes) && a[k] == None
    requires Separated(Lacking(s, k), Dropped(a, k))
    ensures Separated(s, a)
  {
    hide Sorted, IntZpos;
    if Sorted(s.planes) && IntZpos(s, a) {
      DroppedStaysSorted(s.planes, k);
      IntZposWithoutPlane(s, a, k);
      SeparatedWithoutPlane(s, a, k);
    }
  }

  // ----- composition -----

  /** The plane was empty, or layers are composited already on another plane. */
  predicate RuleStays(s: Scene, a: Alloc, k: nat)
    requires k < |a|
  {
    s.comp.Some? ==> a[k].None? || (s.comp in a && a[k] != s.comp)
  }

  lemma RuleWithoutPlane(s: Scene, a: Alloc, k: nat)
    requires WellFormed(s) && Fits(s, a) && Injective(a) && PlacedAreVisible(s, a) && k < |a|
    requires CompositionRule(s, a)
    ensures CompositionRule(s, Dropped(a, k)) <==> RuleStays(s, a, k)
  {
    forall j: nat
      ensures Some(j) in Dropped(a, k) <==> Some(j) in a && a[k] != Some(j)
    {
      StillAmong(a, k, j);
    }
    if s.comp.Some? && s.comp in a {
      var j :| j in ToShow(s) && Some(j) !in a;
      assert s.comp == Some(s.comp.value);
    } else if s.comp.Some? && a[k].Some? {
      assert a[k].value in ToShow(s) && Some(a[k].value) !in Dropped(a, k);
    }
  }

  lemma SameRule(s: Scene, k: nat, a: Alloc)
    requires k < |s.planes|
    ensures CompositionRule(Lacking(s, k), a) <==> CompositionRule(s, a)
  {
    assert ToShow(Lacking(s, k)) == ToShow(s);
  }

  // ----- the whole specification -----

  lemma ScannableWithoutPlane(s: Scene, a: Alloc, k: nat)
    requires Fits(s, a) && |a| == |s.planes| && k < |a| && WellFormed(s) && WellFormed(Lacking(s, k))
    ensures AllScannable(s, a) ==> AllScannable(Lacking(s, k), Dropped(a, k))
    ensures a[k] == None && AllScannable(Lacking(s, k), Dropped(a, k)) ==> AllScannable(s, a)
  {
    hide WellFormed, Supports;
    var t, b := Lacking(s, k), Dropped(a, k);
    forall i: nat | i < |b| && b[i].Some?
      ensures Scannable(t, i, b[i].value) <==> Scannable(s, Shifted(k, i), a[Shifted(k, i)].value)
    {
    }
    assert forall i: nat :: i < |a| && i != k ==> b[Unshifted(k, i)] == a[i];
  }

  /** Taking plane number `k` off the device leaves a sound mapping sound exactly if composition is not newly
      needed, the layer that lost its plane covers nothing that is still scanned out, and the plane was not
      the one that excused an unseparated pair. */
  lemma SoundWithoutPlane(s: Scene, a: Alloc, k: nat)
    requires k < |s.planes| && WellFormed(s) && WellFormed(Lacking(s, k)) && Sound(s, a)
    requires Sorted(s.planes) && IntZpos(s, a)
    ensures Sound(Lacking(s, k), Dropped(a, k)) <==>
            (Nothing(Dropped(a, k)) || RuleStays(s, a, k)) && CoversNothing(s, a, k) && SqueezeStays(s, a, k)
  {
    hide Supports, Stacked, Separated, CompositionRule, IntZpos, Sorted, CoversNothing, SqueezeStays, Scannable,
      AllBasic;
    StackedWithoutPlane(s, a, k);
    SeparatedWithoutPlane(s, a, k);
    ScannableWithoutPlane(s, a, k);
    SameRule(s, k, Dropped(a, k));
    PlacedVisible(s, a);
    if Nothing(a) {
      assert Nothing(Dropped(a, k));
    } else {
      RuleWithoutPlane(s, a, k);
    }
  }

  lemma PlacedVisible(s: Scene, a: Alloc)
    requires WellFormed(s) && Fits(s, a) && AllScannable(s, a)
    ensures PlacedAreVisible(s, a)
  {
    forall i | 0 <= i < |a| && a[i].Some?
      ensures s.layers[a[i].value].visible
    {
      assert Scannable(s, i, a[i].value);
    }
  }

  /** An additional empty plane never hurts. */
  lemma SoundWithPlane(s: Scene, a: Alloc, k: nat)
    requires WellFormed(s) && k < |s.planes| == |a| && a[k] == None
    requires WellFormed(Lacking(s, k)) && Sound(Lacking(s, k), Dropped(a, k))
    ensures Sound(s, a)
  {
    hide Supports, Stacked, Separated, CompositionRule, AllScannable;
    var b := Dropped(a, k);
    assert forall i :: 0 <= i < |a| && i != k ==> b[Unshifted(k, i)] == a[i];
    StackedWithPlane(s, a, k);
    SeparatedWithPlane(s, a, k);
    ScannableWithoutPlane(s, a, k);
    SameRule(s, k, b);
    RuleWithPlane(s, a, k);
  }

  lemma RuleWithPlane(s: Scene, a: Alloc, k: nat)
    requires k < |a| && a[k] == None
    ensures Nothing(Dropped(a, k)) <==> Nothing(a)
    ensures CompositionRule(s, Dropped(a, k)) <==> CompositionRule(s, a)
  {
    var b := Dropped(a, k);
    assert forall i :: 0 <= i < |a| && i != k ==> b[Unshifted(k, i)] == a[i];
    forall j: nat
      ensures Some(j) in b <==> Some(j) in a
    {
      StillAmong(a, k, j);
    }
    assert s.comp.Some? ==> s.comp == Some(s.comp.value);
  }
}
