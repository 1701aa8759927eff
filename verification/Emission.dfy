/** The request an apply hands back against the requests the kernel tested (alloc.c:687-771). */
module Emission {
  import opened Props
  import opened Atomic
  import opened Hardware
  import opened Scenes
  import opened Placements

  /** One batch of writes per plane, one plane after the other. */
  function Flatten(w: seq<seq<Entry>>): seq<Entry> {
    if |w| == 0 then [] else Flatten(w[..|w| - 1]) + w[|w| - 1]
  }

  /** Batch number k addresses only plane number k. */
  predicate PerPlane(planes: seq<PlaneInfo>, w: seq<seq<Entry>>) {
    |w| <= |planes| && forall k :: 0 <= k < |w| ==> Only(w[k], planes[k].id)
  }

  /** Batches of other planes do not show through. */
  lemma {:induction false} FlattenAtPlane(planes: seq<PlaneInfo>, w: seq<seq<Entry>>, i: nat, prop: uint32)
    requires PerPlane(planes, w) && DistinctIds(planes) && i < |planes|
    ensures LastWrite(Flatten(w), planes[i].id, prop) ==
            if i < |w| then LastWrite(w[i], planes[i].id, prop) else None
  {
    if |w| != 0 {
      var n := |w| - 1;
      FlattenAtPlane(planes, w[..n], i, prop);
      LastWriteConcat(Flatten(w[..n]), w[n], planes[i].id, prop);
      if i != n {
        OtherObjectUntouched(w[n], planes[n].id, planes[i].id, prop);
      }
    }
  }

  lemma {:induction false} FlattenElsewhere(planes: seq<PlaneInfo>, w: seq<seq<Entry>>, obj: uint32, prop: uint32)
    requires PerPlane(planes, w) && forall i :: 0 <= i < |planes| ==> planes[i].id != obj
    ensures LastWrite(Flatten(w), obj, prop) == None
  {
    if |w| != 0 {
      var n := |w| - 1;
      FlattenElsewhere(planes, w[..n], obj, prop);
      LastWriteConcat(Flatten(w[..n]), w[n], obj, prop);
      OtherObjectUntouched(w[n], planes[n].id, obj, prop);
    }
  }

  /** The writes that switch off the planes nobody holds. */
  function DisableBatches(planes: seq<PlaneInfo>, free: seq<bool>): (w: seq<seq<Entry>>)
    requires |free| <= |planes| && AllBasic(planes)
    ensures |w| == |free| && PerPlane(planes, w)
  {
    seq(|free|, i requires 0 <= i < |free| =>
      assert HasBasics(planes[i]); if free[i] then DisableWrites(planes[i]) else [])
  }

  /** The writes of a search's choices. */
  function ChoiceBatches(s: Scene, a: Alloc): (w: seq<seq<Entry>>)
    requires WellFormed(s) && Fits(s, a)
    ensures |w| == |a| && PerPlane(s.planes, w)
  {
    seq(|a|, i requires 0 <= i < |a| => ChoiceWrites(s, i, a[i]))
  }

  lemma ChoiceBatchesPrefix(s: Scene, a: Alloc)
    requires WellFormed(s) && Fits(s, a) && |a| > 0
    ensures ChoiceBatches(s, a)[..|a| - 1] == ChoiceBatches(s, a[..|a| - 1])
    ensures ChoiceBatches(s, a)[|a| - 1] == ChoiceWrites(s, |a| - 1, a[|a| - 1])
  {
  }

  lemma Associative(a: seq<Entry>, b: seq<Entry>, c: seq<Entry>)
    ensures (a + b) + c == a + (b + c)
  {
  }

  lemma RequestGrows(q: Search, a: Alloc)
    requires SearchOk(q) && Fits(q.scene, a) && |a| > 0
    ensures RequestFor(q, a) == RequestFor(q, a[..|a| - 1]) + ChoiceWrites(q.scene, |a| - 1, a[|a| - 1])
  {
  }

  lemma {:induction false} RequestIsFlat(q: Search, a: Alloc)
    requires SearchOk(q) && Fits(q.scene, a)
    ensures RequestFor(q, a) == q.base + Flatten(ChoiceBatches(q.scene, a))
  {
    if |a| == 0 {
      assert q.base + [] == q.base;
    } else {
      var front, all := a[..|a| - 1], ChoiceBatches(q.scene, a);
      RequestIsFlat(q, front);
      ChoiceBatchesPrefix(q.scene, a);
      RequestGrows(q, a);
      Associative(q.base, Flatten(all[..|a| - 1]), all[|a| - 1]);
    }
  }

  /** Writes for every plane: on a plane nobody else holds, the writes that enable the chosen layer or
      switch the plane off; on a plane held by another output, anything addressed to it. */
  predicate Reemits(s: Scene, free: seq<bool>, a: Alloc, w: seq<seq<Entry>>)
    requires WellFormed(s) && Fits(s, a) && |free| == |a| == |s.planes|
  {
    && |w| == |a| && PerPlane(s.planes, w)
    && forall i :: 0 <= i < |a| && free[i] ==>
         w[i] == if a[i].Some? then ChoiceWrites(s, i, a[i]) else DisableWrites(s.planes[i])
  }

  /** Switching everything off, searching, rolling back and then writing every plane again gives
      every object the values of the request with the choices alone, except the planes held by
      other outputs. */
  lemma EmittedAsTested(q: Search, start: seq<Entry>, a: Alloc, w: seq<seq<Entry>>, obj: uint32, prop: uint32)
    requires SearchOk(q) && Fits(q.scene, a) && |a| == |q.scene.planes|
    requires q.base == start + Flatten(DisableBatches(q.scene.planes, q.free))
    requires Reemits(q.scene, q.free, a, w)
    requires forall i :: 0 <= i < |q.free| && !q.free[i] ==> q.scene.planes[i].id != obj
    ensures LastWrite(q.base + Flatten(w), obj, prop) == LastWrite(RequestFor(q, a), obj, prop)
  {
    var s := q.scene;
    var off, chosen := DisableBatches(s.planes, q.free), ChoiceBatches(s, a);
    RequestIsFlat(q, a);
    LastWriteConcat(q.base, Flatten(w), obj, prop);
    LastWriteConcat(q.base, Flatten(chosen), obj, prop);
    LastWriteConcat(start, Flatten(off), obj, prop);
    if i :| 0 <= i < |s.planes| && s.planes[i].id == obj {
      FlattenAtPlane(s.planes, w, i, prop);
      FlattenAtPlane(s.planes, chosen, i, prop);
      FlattenAtPlane(s.planes, off, i, prop);
    } else {
      FlattenElsewhere(s.planes, w, obj, prop);
      FlattenElsewhere(s.planes, chosen, obj, prop);
    }
  }

  lemma PlacedLastMeansTested(q: Search, ok: iset<seq<Entry>>, a: Alloc)
    requires SearchOk(q) && Admissible(q, ok, a) && |a| > 0 && a[|a| - 1].Some?
    ensures RequestFor(q, a) in ok
  {
    var n := |a| - 1;
    assert Placeable(q, ok, a[..n], a[n].value);
    assert a == a[..n] + [Some(a[n].value)];
  }

  /** An admissible allocation that places something was itself the subject of an accepted test. */
  lemma {:induction false} PlacedMeansTested(q: Search, ok: iset<seq<Entry>>, a: Alloc)
    requires SearchOk(q) && Admissible(q, ok, a) && !Nothing(a)
    ensures RequestFor(q, a) in ok
  {
    var n := |a| - 1;
    if a[n].Some? {
      PlacedLastMeansTested(q, ok, a);
    } else {
      AdmissiblePrefix(q, ok, a, n);
      PlacedMeansTested(q, ok, a[..n]);
      RequestGrows(q, a);
      assert RequestFor(q, a[..n]) + [] == RequestFor(q, a[..n]);
    }
  }

  // ----- what the final request means for one plane -----

  lemma FinalAtPlane(q: Search, a: Alloc, w: seq<seq<Entry>>, i: nat, prop: uint32)
    requires SearchOk(q) && Fits(q.scene, a) && |a| == |q.scene.planes| && Reemits(q.scene, q.free, a, w)
    requires i < |a| && q.free[i]
    ensures LastWrite(q.base + Flatten(w), q.scene.planes[i].id, prop) ==
            if LastWrite(w[i], q.scene.planes[i].id, prop).Some? then LastWrite(w[i], q.scene.planes[i].id, prop)
            else LastWrite(q.base, q.scene.planes[i].id, prop)
  {
    LastWriteConcat(q.base, Flatten(w), q.scene.planes[i].id, prop);
    FlattenAtPlane(q.scene.planes, w, i, prop);
  }

  /** A plane with a layer is told the output's CRTC and the value of every property the layer has and
      the plane supports; what the layer does not mention keeps the value it had. */
  lemma PlaneShowsLayer(q: Search, a: Alloc, w: seq<seq<Entry>>, i: nat, name: string)
    requires SearchOk(q) && Fits(q.scene, a) && |a| == |q.scene.planes| && Reemits(q.scene, q.free, a, w)
    requires i < |a| && q.free[i] && a[i].Some? && DistinctPropIds(q.scene.planes[i])
    requires NoOwnCrtc(q.scene.layers[a[i].value].props)
    requires name != ZPOS && PropId(q.scene.planes[i], name).Some?
    ensures var plane, props := q.scene.planes[i], q.scene.layers[a[i].value].props;
            var prop := PropId(plane, name).value;
            LastWrite(q.base + Flatten(w), plane.id, prop) ==
            if name == CRTC_ID then Some(q.scene.crtcId)
            else if LastValue(props, name).Some? then LastValue(props, name)
            else LastWrite(q.base, plane.id, prop)
  {
    var plane, props := q.scene.planes[i], q.scene.layers[a[i].value].props;
    assert HasBasics(plane);
    var prop, crtc := PropId(plane, name).value, [Entry(plane.id, PropId(plane, CRTC_ID).value, q.scene.crtcId)];
    NoOwnCrtcValue(props);
    FinalAtPlane(q, a, w, i, prop);
    PropWritesLand(plane, props, name);
    LastWriteConcat(crtc, PropWrites(plane, props), plane.id, prop);
    assert crtc[..0] == [];
    DifferentProps(plane, name, CRTC_ID);
  }

  lemma DifferentProps(plane: PlaneInfo, a: string, b: string)
    requires DistinctPropIds(plane) && PropId(plane, a).Some? && PropId(plane, b).Some?
    ensures PropId(plane, a) == PropId(plane, b) <==> a == b
  {
    var i, j := FindProp(plane.props, a), FindProp(plane.props, b);
    assert plane.props[i].name == a && plane.props[j].name == b;
  }

  /** A plane the output may use but does not is switched off. */
  lemma PlaneIsOff(q: Search, a: Alloc, w: seq<seq<Entry>>, i: nat)
    requires SearchOk(q) && Fits(q.scene, a) && |a| == |q.scene.planes| && Reemits(q.scene, q.free, a, w)
    requires i < |a| && q.free[i] && a[i].None? && HasBasics(q.scene.planes[i])
    ensures var plane := q.scene.planes[i];
            && LastWrite(q.base + Flatten(w), plane.id, PropId(plane, FB_ID).value) == Some(0)
            && LastWrite(q.base + Flatten(w), plane.id, PropId(plane, CRTC_ID).value) == Some(0)
  {
    var plane := q.scene.planes[i];
    FinalAtPlane(q, a, w, i, PropId(plane, FB_ID).value);
    FinalAtPlane(q, a, w, i, PropId(plane, CRTC_ID).value);
    assert w[i][..1] == [Entry(plane.id, PropId(plane, FB_ID).value, 0)];
    LastWriteConcat(w[i][..1], [w[i][1]], plane.id, PropId(plane, FB_ID).value);
  }

  // ----- what apply_current writes -----

  /** A layer on a plane, as far as the request is concerned. */
  datatype Held = Held(crtcId: uint32, props: seq<LayerProp>)

  predicate HeldFits(plane: PlaneInfo, h: Option<Held>) {
    h.Some? ==> Supports(plane, h.value.props)
  }

  /** Every layer on a plane fits it. */
  ghost predicate AllHeldFit(planes: seq<PlaneInfo>, hs: seq<Option<Held>>) {
    |hs| == |planes| && forall i {:trigger hs[i]} :: 0 <= i < |hs| ==> HeldFits(planes[i], hs[i])
  }

  function CurrentWrites(plane: PlaneInfo, h: Option<Held>): (w: seq<Entry>)
    requires HasBasics(plane)
    ensures Only(w, plane.id)
  {
    if h.Some? then EnableWrites(plane, h.value.crtcId, h.value.props) else DisableWrites(plane)
  }

  function CurrentBatches(planes: seq<PlaneInfo>, hs: seq<Option<Held>>): (w: seq<seq<Entry>>)
    requires |hs| == |planes| && AllBasic(planes)
    ensures |w| == |planes| && PerPlane(planes, w)
    ensures forall i {:trigger w[i]} :: 0 <= i < |w| ==> HasBasics(planes[i]) && w[i] == CurrentWrites(planes[i], hs[i])
  {
    seq(|planes|, i requires 0 <= i < |planes| => assert HasBasics(planes[i]); CurrentWrites(planes[i], hs[i]))
  }

  lemma FlattenStart(start: seq<Entry>, w: seq<seq<Entry>>)
    ensures start + Flatten(w[..0]) == start
  {
  }

  lemma FlattenNext(start: seq<Entry>, w: seq<seq<Entry>>, i: nat)
    requires i < |w|
    ensures (start + Flatten(w[..i])) + w[i] == start + Flatten(w[..i + 1])
  {
    assert w[..i + 1][..i] == w[..i];
    Associative(start, Flatten(w[..i]), w[i]);
  }

  /** The two requests give the same values to everything but the planes other outputs hold. */
  ghost predicate AgreesOn(q: Search, r1: seq<Entry>, r2: seq<Entry>)
    requires SearchOk(q)
  {
    forall obj, prop {:trigger LastWrite(r1, obj, prop)} ::
      (forall i :: 0 <= i < |q.free| && !q.free[i] ==> q.scene.planes[i].id != obj) ==>
      LastWrite(r1, obj, prop) == LastWrite(r2, obj, prop)
  }

  /** Requests that give every property the same last value are both accepted or both refused. */
  ghost predicate ByLastWrites(ok: iset<seq<Entry>>) {
    forall r1, r2 {:trigger SameLastWrites(r1, r2)} :: r1 in ok && SameLastWrites(r1, r2) ==> r2 in ok
  }

  ghost predicate SameLastWrites(r1: seq<Entry>, r2: seq<Entry>) {
    forall obj, prop {:trigger LastWrite(r1, obj, prop)} :: LastWrite(r1, obj, prop) == LastWrite(r2, obj, prop)
  }

  /** Where no plane is held by another output, agreeing with an accepted request is being accepted. */
  lemma AgreeingIsAccepted(q: Search, ok: iset<seq<Entry>>, r1: seq<Entry>, r2: seq<Entry>)
    requires SearchOk(q) && (forall i :: 0 <= i < |q.free| ==> q.free[i])
    requires ByLastWrites(ok) && AgreesOn(q, r1, r2) && r2 in ok
    ensures r1 in ok
  {
    hide LastWrite;
    assert SameLastWrites(r2, r1) by {
      assert forall obj, prop {:trigger LastWrite(r2, obj, prop)} ::
        LastWrite(r1, obj, prop) == LastWrite(r2, obj, prop);
    }
  }

  /** What is on the planes once allocation `a` is installed. */
  ghost predicate Installed(q: Search, a: Alloc, hs: seq<Option<Held>>)
    requires SearchOk(q) && Fits(q.scene, a)
  {
    && |hs| == |a| == |q.scene.planes|
    && forall i {:trigger hs[i]} :: 0 <= i < |a| && q.free[i] ==>
         hs[i] == if a[i].Some? then Some(Held(q.scene.crtcId, q.scene.layers[a[i].value].props)) else None
  }

  lemma CurrentReemits(q: Search, a: Alloc, hs: seq<Option<Held>>)
    requires SearchOk(q) && Fits(q.scene, a) && Installed(q, a, hs) && AllBasic(q.scene.planes)
    ensures Reemits(q.scene, q.free, a, CurrentBatches(q.scene.planes, hs))
  {
    hide EnableWrites, DisableWrites, HasBasics, DistinctIds;
    var w := CurrentBatches(q.scene.planes, hs);
    forall i | 0 <= i < |a| && q.free[i]
      ensures w[i] == if a[i].Some? then ChoiceWrites(q.scene, i, a[i]) else DisableWrites(q.scene.planes[i])
    {
      assert HasBasics(q.scene.planes[i]) && w[i] == CurrentWrites(q.scene.planes[i], hs[i]);
    }
  }

  lemma ReemitsAgrees(q: Search, start: seq<Entry>, a: Alloc, w: seq<seq<Entry>>)
    requires SearchOk(q) && Fits(q.scene, a) && |a| == |q.scene.planes|
    requires q.base == start + Flatten(DisableBatches(q.scene.planes, q.free))
    requires Reemits(q.scene, q.free, a, w)
    ensures AgreesOn(q, q.base + Flatten(w), RequestFor(q, a))
  {
    hide Reemits, DisableBatches, LastWrite, RequestFor, Flatten;
    forall obj, prop | forall i :: 0 <= i < |q.free| && !q.free[i] ==> q.scene.planes[i].id != obj
      ensures LastWrite(q.base + Flatten(w), obj, prop) == LastWrite(RequestFor(q, a), obj, prop)
    {
      EmittedAsTested(q, start, a, w, obj, prop);
    }
  }

  /** The request handed back agrees with the one tested for the best allocation. */
  lemma FinalAgrees(q: Search, start: seq<Entry>, a: Alloc, hs: seq<Option<Held>>)
    requires SearchOk(q) && Fits(q.scene, a) && Installed(q, a, hs) && AllBasic(q.scene.planes)
    requires |hs| == |a| == |q.scene.planes|
    requires q.base == start + Flatten(DisableBatches(q.scene.planes, q.free))
    ensures AgreesOn(q, q.base + Flatten(CurrentBatches(q.scene.planes, hs)), RequestFor(q, a))
  {
    hide Installed, Reemits, CurrentBatches, DisableBatches, LastWrite, RequestFor, Flatten;
    CurrentReemits(q, a, hs);
    ReemitsAgrees(q, start, a, CurrentBatches(q.scene.planes, hs));
  }

  // ----- the same mapping without switching anything off first -----

  lemma OffOverwritten(s: Scene, free: seq<bool>, a: Alloc, w: seq<seq<Entry>>, i: nat, prop: uint32)
    requires WellFormed(s) && Fits(s, a) && |free| == |a| == |s.planes| && Reemits(s, free, a, w)
    requires i < |a| && HasBasics(s.planes[i]) && free[i]
    requires a[i].Some? ==> Value(s.layers[a[i].value].props, FB_ID).Some?
    requires LastWrite(DisableWrites(s.planes[i]), s.planes[i].id, prop).Some?
    ensures LastWrite(w[i], s.planes[i].id, prop).Some?
  {
    if a[i].Some? {
      EnableOverwritesDisable(s.planes[i], s.crtcId, s.layers[a[i].value].props, prop);
    }
  }

  /** Writing every plane overwrites all that switching planes off before had written. */
  lemma OffsOverwritten(q: Search, start: seq<Entry>, a: Alloc, w: seq<seq<Entry>>, obj: uint32, prop: uint32)
    requires SearchOk(q) && Fits(q.scene, a) && |a| == |q.scene.planes| && Reemits(q.scene, q.free, a, w)
    requires q.base == start + Flatten(DisableBatches(q.scene.planes, q.free))
    requires forall i :: 0 <= i < |a| && a[i].Some? ==> Value(q.scene.layers[a[i].value].props, FB_ID).Some?
    ensures LastWrite(q.base + Flatten(w), obj, prop) == LastWrite(start + Flatten(w), obj, prop)
  {
    hide LastWrite, Flatten, DisableWrites, ChoiceWrites;
    var s := q.scene;
    var off := DisableBatches(s.planes, q.free);
    LastWriteConcat(q.base, Flatten(w), obj, prop);
    LastWriteConcat(start, Flatten(w), obj, prop);
    LastWriteConcat(start, Flatten(off), obj, prop);
    if i :| 0 <= i < |s.planes| && s.planes[i].id == obj {
      FlattenAtPlane(s.planes, w, i, prop);
      FlattenAtPlane(s.planes, off, i, prop);
      NothingLasts(obj, prop);
      if LastWrite(off[i], obj, prop).Some? {
        assert q.free[i] && HasBasics(s.planes[i]);
        OffOverwritten(s, q.free, a, w, i, prop);
      }
    } else {
      FlattenElsewhere(s.planes, w, obj, prop);
      FlattenElsewhere(s.planes, off, obj, prop);
    }
  }

  lemma NothingLasts(obj: uint32, prop: uint32)
    ensures LastWrite([], obj, prop) == None
  {
  }

  /** If the kernel judges by last writes and no plane is held by another output, then writing every plane
      right away is accepted as well. */
  lemma WholeIsAccepted(q: Search, ok: iset<seq<Entry>>, start: seq<Entry>, a: Alloc, w: seq<seq<Entry>>)
    requires SearchOk(q) && Fits(q.scene, a) && |a| == |q.scene.planes| && Reemits(q.scene, q.free, a, w)
    requires q.base == start + Flatten(DisableBatches(q.scene.planes, q.free))
    requires forall i :: 0 <= i < |a| && a[i].Some? ==> Value(q.scene.layers[a[i].value].props, FB_ID).Some?
    requires (forall i :: 0 <= i < |q.free| ==> q.free[i]) && ByLastWrites(ok) && RequestFor(q, a) in ok
    ensures start + Flatten(w) in ok
  {
    hide Reemits, LastWrite, Flatten, DisableBatches, RequestFor;
    ReemitsAgrees(q, start, a, w);
    AgreeingIsAccepted(q, ok, q.base + Flatten(w), RequestFor(q, a));
    forall obj, prop
      ensures LastWrite(q.base + Flatten(w), obj, prop) == LastWrite(start + Flatten(w), obj, prop)
    {
      OffsOverwritten(q, start, a, w, obj, prop);
    }
    assert SameLastWrites(q.base + Flatten(w), start + Flatten(w));
  }
}
