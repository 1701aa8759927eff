/** Where a newly registered plane goes in the device's list (plane.c:7-142). */
module Registration {
  import opened Sequences
  import opened Props
  import opened Hardware
  import opened Stacking

  const EEXIST := 17

  /** A property of a DRM plane together with its current value. */
  datatype DrmProp = DrmProp(name: string, id: uint32, value: uint64)

  datatype DrmPlane = DrmPlane(id: uint32, possibleCrtcs: bv32, props: seq<DrmProp>)

  const TYPE := "type"

  /** The value of the last property called `name`. */
  function Reported(props: seq<DrmProp>, name: string): Option<uint64> {
    if |props| == 0 then None
    else if props[|props| - 1].name == name then Some(props[|props| - 1].value)
    else Reported(props[..|props| - 1], name)
  }

  function PlaneProps(props: seq<DrmProp>): (r: seq<PlaneProp>)
    ensures |r| == |props|
  {
    seq(|props|, k requires 0 <= k < |props| => PlaneProp(props[k].name, props[k].id))
  }

  function ToUint32(v: uint64): uint32 {
    v % 0x1_0000_0000
  }

  function GuessedZpos(planes: seq<PlaneInfo>, id: uint32, kind: uint32): int32 {
    if kind == PRIMARY then 0
    else if kind == CURSOR then 2
    else if kind == OVERLAY then
      if planes == [] then 0 else if id < planes[0].id then -1 else 1
    else 0
  }

  /** The plane as it is registered, or nothing when DRM reports no type. */
  function Described(planes: seq<PlaneInfo>, r: DrmPlane): Option<PlaneInfo> {
    var kind, zpos := Reported(r.props, TYPE), Reported(r.props, ZPOS);
    if kind.None? then None
    else
      Some(PlaneInfo(r.id, r.possibleCrtcs, ToUint32(kind.value),
                     if zpos.Some? then ToInt32(zpos.value)
                     else GuessedZpos(planes, r.id, ToUint32(kind.value)),
                     PlaneProps(r.props)))
  }

  /** A registered plane has the basic properties exactly if DRM lists them. */
  lemma DescribedHasBasics(planes: seq<PlaneInfo>, r: DrmPlane)
    requires Described(planes, r).Some?
    ensures HasBasics(Described(planes, r).value) <==>
            (exists k :: 0 <= k < |r.props| && r.props[k].name == FB_ID) &&
            (exists k :: 0 <= k < |r.props| && r.props[k].name == CRTC_ID)
  {
    var props := PlaneProps(r.props);
    var f, c := FindProp(props, FB_ID), FindProp(props, CRTC_ID);
    assert f < |props| ==> r.props[f].name == FB_ID;
    assert c < |props| ==> r.props[c].name == CRTC_ID;
    assert forall k :: 0 <= k < |r.props| ==> props[k].name == r.props[k].name;
  }

  /** The plane goes in front of `cur`. */
  predicate GoesBefore(p: PlaneInfo, cur: PlaneInfo) {
    p.kind == PRIMARY || (cur.kind != PRIMARY && p.zpos >= cur.zpos)
  }

  /** Position of the first plane that `p` goes in front of, or the length. */
  function Slot(planes: seq<PlaneInfo>, p: PlaneInfo): (k: nat)
    ensures k <= |planes|
    ensures forall i :: 0 <= i < k ==> !GoesBefore(p, planes[i])
    ensures k < |planes| ==> GoesBefore(p, planes[k])
  {
    if |planes| == 0 || GoesBefore(p, planes[0]) then 0 else 1 + Slot(planes[1..], p)
  }

  lemma InsertKeepsIds(planes: seq<PlaneInfo>, k: nat, p: PlaneInfo)
    requires k <= |planes| && DistinctIds(planes)
    requires forall i :: 0 <= i < |planes| ==> planes[i].id != p.id
    ensures DistinctIds(InsertedAt(planes, k, p))
  {
  }

  lemma BelongsInSlot(planes: seq<PlaneInfo>, p: PlaneInfo, i: nat)
    requires Sorted(planes) && i < |planes|
    ensures if i < Slot(planes, p) then InOrder(planes[i], p) else InOrder(p, planes[i])
  {
    var k := Slot(planes, p);
    if i < k {
      assert !GoesBefore(p, planes[i]);
    } else {
      assert i == k || InOrder(planes[k], planes[i]);
    }
  }

  lemma InsertKeepsOrder(planes: seq<PlaneInfo>, p: PlaneInfo)
    requires Sorted(planes)
    ensures Sorted(InsertedAt(planes, Slot(planes, p), p))
  {
    var k := Slot(planes, p);
    var t := InsertedAt(planes, k, p);
    forall i, j | 0 <= i < j < |t|
      ensures InOrder(t[i], t[j])
    {
      if i == k {
        BelongsInSlot(planes, p, j - 1);
      } else if j == k {
        BelongsInSlot(planes, p, i);
      }
    }
  }

  /** What registering one DRM plane does to the list; refused registrations leave it alone. */
  function Registered(planes: seq<PlaneInfo>, r: DrmPlane): seq<PlaneInfo> {
    var d := Described(planes, r);
    if (exists i :: 0 <= i < |planes| && planes[i].id == r.id) || d.None? then planes
    else InsertedAt(planes, Slot(planes, d.value), d.value)
  }

  function RegisteredAll(planes: seq<PlaneInfo>, rs: seq<DrmPlane>): seq<PlaneInfo>
    decreases |rs|
  {
    if |rs| == 0 then planes else RegisteredAll(Registered(planes, rs[0]), rs[1..])
  }

  /** Whatever is registered in whatever order, with or without a zpos property: ids stay distinct,
      primary planes come first, the others by non-increasing zpos. */
  lemma {:induction false} RegistrationSorts(planes: seq<PlaneInfo>, rs: seq<DrmPlane>)
    requires Sorted(planes) && DistinctIds(planes)
    ensures Sorted(RegisteredAll(planes, rs)) && DistinctIds(RegisteredAll(planes, rs))
    decreases |rs|
  {
    if |rs| != 0 {
      var d := Described(planes, rs[0]);
      if d.Some? && forall i :: 0 <= i < |planes| ==> planes[i].id != rs[0].id {
        InsertKeepsOrder(planes, d.value);
        InsertKeepsIds(planes, Slot(planes, d.value), d.value);
      }
      RegistrationSorts(Registered(planes, rs[0]), rs[1..]);
    }
  }

  // ----- what is guessed for a plane without zpos -----

  /** What DRM reports last counts. */
  lemma {:induction false} ReportedMeans(props: seq<DrmProp>, k: nat)
    requires k < |props| && forall i :: k < i < |props| ==> props[i].name != props[k].name
    ensures Reported(props, props[k].name) == Some(props[k].value)
  {
    if k < |props| - 1 {
      ReportedMeans(props[..|props| - 1], k);
    }
  }

  /** A plane is registered exactly if DRM reports a type, with the id, CRTC mask and properties DRM gives. */
  lemma {:induction false} DescribedMeans(planes: seq<PlaneInfo>, r: DrmPlane)
    ensures Described(planes, r).Some? <==> exists k :: 0 <= k < |r.props| && r.props[k].name == "type"
    ensures Described(planes, r).Some? ==>
      var p := Described(planes, r).value;
      && p.id == r.id && p.possibleCrtcs == r.possibleCrtcs && |p.props| == |r.props|
      && (forall k :: 0 <= k < |r.props| ==> p.props[k].name == r.props[k].name && p.props[k].id == r.props[k].id)
      && Reported(r.props, "type").Some? && p.kind == Reported(r.props, "type").value % 0x1_0000_0000
  {
    ReportedAtAll(r.props, "type");
  }

  lemma {:induction false} ReportedAtAll(props: seq<DrmProp>, name: string)
    ensures Reported(props, name).Some? <==> exists k :: 0 <= k < |props| && props[k].name == name
  {
    if |props| > 0 {
      ReportedAtAll(props[..|props| - 1], name);
    }
  }

  /** The zpos DRM reports, as a signed number. */
  lemma ReportedZpos(planes: seq<PlaneInfo>, r: DrmPlane)
    requires Described(planes, r).Some? && Reported(r.props, "zpos").Some?
    ensures (Reported(r.props, "zpos").value - Described(planes, r).value.zpos) % 0x1_0000_0000 == 0
  {
  }

  /** DRM reports type number `kind` (0 overlay, 1 primary, 2 cursor) and no zpos. */
  predicate Unranked(r: DrmPlane, kind: uint32) {
    Reported(r.props, "type") == Some(kind) && Reported(r.props, "zpos") == None
  }

  /** From far to close to the eye: primary, overlay, cursor, whatever was registered before; but an overlay whose
      id is below that of the first plane is guessed to be behind the primary planes. */
  lemma {:induction false} GuessesRank(before: seq<PlaneInfo>, r: DrmPlane, before': seq<PlaneInfo>, r': DrmPlane)
    requires Unranked(r, 0) && Unranked(r', 2)
    ensures Described(before, r).Some? && Described(before', r').Some?
    ensures Described(before, r).value.zpos < Described(before', r').value.zpos
    ensures before != [] ==> Described(before, r).value.zpos != 0
    ensures before != [] ==> (Described(before, r).value.zpos > 0 <==> r.id >= before[0].id)
    ensures before == [] ==> Described(before, r).value.zpos == 0
  {
  }

  lemma {:induction false} PrimaryGuess(before: seq<PlaneInfo>, r: DrmPlane)
    requires Unranked(r, 1)
    ensures Described(before, r).Some? && Described(before, r).value.zpos == 0
  {
  }

  /** The plane is how DRM plane `r` was registered at some time. */
  ghost predicate RegisteredAs(p: PlaneInfo, r: DrmPlane) {
    exists before :: Described(before, r) == Some(p)
  }

  ghost predicate FromDrm(p: PlaneInfo, rs: seq<DrmPlane>) {
    exists k {:trigger rs[k]} :: 0 <= k < |rs| && RegisteredAs(p, rs[k])
  }

  lemma RegisteredElements(planes: seq<PlaneInfo>, r: DrmPlane, p: PlaneInfo)
    requires p in Registered(planes, r)
    ensures p in planes || RegisteredAs(p, r)
  {
    var d := Described(planes, r);
    if p !in planes {
      assert d.Some? && p in InsertedAt(planes, Slot(planes, d.value), d.value);
      assert p == d.value;
    }
  }

  lemma {:induction false} Provenance(planes: seq<PlaneInfo>, rs: seq<DrmPlane>, p: PlaneInfo)
    requires p in RegisteredAll(planes, rs)
    ensures p in planes || FromDrm(p, rs)
    decreases |rs|
  {
    if |rs| != 0 {
      Provenance(Registered(planes, rs[0]), rs[1..], p);
      if p in Registered(planes, rs[0]) {
        RegisteredElements(planes, rs[0], p);
        assert RegisteredAs(p, rs[0]) ==> FromDrm(p, rs);
      } else {
        var k :| 0 <= k < |rs[1..]| && RegisteredAs(p, rs[1..][k]);
        assert rs[k + 1] == rs[1..][k];
      }
    }
  }

  /** Among planes registered without zpos, whatever the order of registration, the cursor planes come before
      the overlays in the list, and the primary planes before both. */
  lemma {:induction false} CursorsBeforeOverlays(rs: seq<DrmPlane>, i: nat, j: nat)
    requires forall k :: 0 <= k < |rs| ==> Unranked(rs[k], 0) || Unranked(rs[k], 1) || Unranked(rs[k], 2)
    requires i < |RegisteredAll([], rs)| && j < |RegisteredAll([], rs)|
    requires RegisteredAll([], rs)[i].kind == 2 && RegisteredAll([], rs)[j].kind == 0
    ensures i < j
    ensures forall m :: 0 <= m < |RegisteredAll([], rs)| && RegisteredAll([], rs)[m].kind == 1 ==> m < i
  {
    hide Described, Reported;
    var l := RegisteredAll([], rs);
    RegistrationSorts([], rs);
    RankOfRegistered(rs, l[i]);
    RankOfRegistered(rs, l[j]);
    assert i != j;
    assert j < i ==> InOrder(l[j], l[i]);
    forall m | 0 <= m < |l| && l[m].kind == 1
      ensures m < i
    {
      assert i < m ==> InOrder(l[i], l[m]);
    }
  }

  lemma {:induction false} RankOfRegistered(rs: seq<DrmPlane>, p: PlaneInfo)
    requires forall k :: 0 <= k < |rs| ==> Unranked(rs[k], 0) || Unranked(rs[k], 1) || Unranked(rs[k], 2)
    requires p in RegisteredAll([], rs)
    ensures p.kind == 2 ==> p.zpos == 2
    ensures p.kind == 0 ==> p.zpos <= 1
  {
    Provenance([], rs, p);
    var k :| 0 <= k < |rs| && RegisteredAs(p, rs[k]);
    var before :| Described(before, rs[k]) == Some(p);
  }

  /** Where a plane goes in a sorted list: a primary plane first, another one behind the primary planes and
      everything of greater zpos, and before everything of equal zpos. */
  lemma {:induction false} SlotMeans(planes: seq<PlaneInfo>, p: PlaneInfo, i: nat)
    requires Sorted(planes) && i < |planes|
    ensures p.kind == 1 ==> Slot(planes, p) == 0
    ensures p.kind != 1 ==> (i < Slot(planes, p) <==> planes[i].kind == 1 || planes[i].zpos > p.zpos)
  {
    BelongsInSlot(planes, p, i);
    if i >= Slot(planes, p) {
      assert GoesBefore(p, planes[Slot(planes, p)]);
      assert i == Slot(planes, p) || InOrder(planes[Slot(planes, p)], planes[i]);
    } else {
      assert !GoesBefore(p, planes[i]);
    }
  }
}
