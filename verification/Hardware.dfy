/** Planes as KMS describes them, and the writes that point a plane at a layer (plane.c). */
module Hardware {
  import opened Props
  import opened Atomic

  const OVERLAY: uint32 := 0
  const PRIMARY: uint32 := 1
  const CURSOR: uint32 := 2

  datatype PlaneProp = PlaneProp(name: string, id: uint32)

  datatype PlaneInfo = PlaneInfo(id: uint32, possibleCrtcs: bv32, kind: uint32, zpos: int32,
                                 props: seq<PlaneProp>)

  /** Position of the first property called `name`, or the length when there is none. */
  function FindProp(props: seq<PlaneProp>, name: string): (i: nat)
    ensures i <= |props|
    ensures forall k :: 0 <= k < i ==> props[k].name != name
    ensures i < |props| ==> props[i].name == name
  {
    if |props| == 0 || props[0].name == name then 0 else 1 + FindProp(props[1..], name)
  }

  function PropId(plane: PlaneInfo, name: string): Option<uint32> {
    var i := FindProp(plane.props, name);
    if i < |plane.props| then Some(plane.props[i].id) else None
  }

  predicate CanDrive(plane: PlaneInfo, crtcIndex: nat)
    requires crtcIndex < 32
  {
    plane.possibleCrtcs & ((1 as bv32) << crtcIndex) != 0
  }

  /** The bits of a CRTC mask in the order of the CRTCs. */
  const CRTC_BITS: seq<bv32> := [
    0x1, 0x2, 0x4, 0x8, 0x10, 0x20, 0x40, 0x80,
    0x100, 0x200, 0x400, 0x800, 0x1000, 0x2000, 0x4000, 0x8000,
    0x10000, 0x20000, 0x40000, 0x80000, 0x100000, 0x200000, 0x400000, 0x800000,
    0x1000000, 0x2000000, 0x4000000, 0x8000000, 0x10000000, 0x20000000, 0x40000000, 0x80000000
  ]

  /** A plane can drive a CRTC exactly if the mask has the bit of that number. */
  lemma MaskBit(plane: PlaneInfo, i: nat)
    requires i < 32
    ensures CanDrive(plane, i) <==> plane.possibleCrtcs & CRTC_BITS[i] != 0
  {
    SingleBit(i);
  }

  lemma SingleBit(i: nat)
    requires i < 32
    ensures (1 as bv32) << i == CRTC_BITS[i]
  {
    if i < 8 {
      Bits0(i);
    } else if i < 16 {
      Bits8(i);
    } else if i < 24 {
      Bits16(i);
    } else {
      Bits24(i);
    }
  }

  lemma Bits0(i: nat)
    requires 0 <= i < 8
    ensures (1 as bv32) << i == CRTC_BITS[i]
  {
  }

  lemma Bits8(i: nat)
    requires 8 <= i < 16
    ensures (1 as bv32) << i == CRTC_BITS[i]
  {
  }

  lemma Bits16(i: nat)
    requires 16 <= i < 24
    ensures (1 as bv32) << i == CRTC_BITS[i]
  {
  }

  lemma Bits24(i: nat)
    requires 24 <= i < 32
    ensures (1 as bv32) << i == CRTC_BITS[i]
  {
  }

  predicate DistinctIds(planes: seq<PlaneInfo>) {
    forall i, j :: 0 <= i < j < |planes| ==> planes[i].id != planes[j].id
  }

  /** What every KMS plane has. */
  predicate HasBasics(plane: PlaneInfo) {
    PropId(plane, FB_ID).Some? && PropId(plane, CRTC_ID).Some?
  }

  predicate AllBasic(planes: seq<PlaneInfo>) {
    forall i {:trigger HasBasics(planes[i])} :: 0 <= i < |planes| ==> HasBasics(planes[i])
  }

  /** The property needs no write on a plane that lacks it. */
  predicate Exempt(p: LayerProp) {
    || (p.name == ALPHA && p.value == OPAQUE_ALPHA)
    || (p.name == ROTATION && p.value == ROTATE_0)
  }

  predicate PropFits(plane: PlaneInfo, p: LayerProp) {
    p.name == ZPOS || PropId(plane, p.name).Some? || Exempt(p)
  }

  /** The plane can take all these properties at their current values. */
  predicate Supports(plane: PlaneInfo, props: seq<LayerProp>) {
    forall k {:trigger PropFits(plane, props[k])} :: 0 <= k < |props| ==> PropFits(plane, props[k])
  }

  predicate Has(plane: PlaneInfo, name: string) {
    exists k {:trigger plane.props[k]} :: 0 <= k < |plane.props| && plane.props[k].name == name
  }

  lemma HasPropId(plane: PlaneInfo, name: string)
    ensures PropId(plane, name).Some? <==> Has(plane, name)
  {
  }

  /** What one more layer property asks of a plane: nothing if it is zpos, full opacity or no rotation, and
      otherwise a plane property of that name. */
  lemma SupportsOneMore(plane: PlaneInfo, props: seq<LayerProp>, p: LayerProp)
    ensures Supports(plane, props + [p]) <==>
            && Supports(plane, props)
            && (|| p.name == "zpos" || (p.name == "alpha" && p.value == 0xFFFF)
                || (p.name == "rotation" && p.value == 1) || Has(plane, p.name))
    ensures Supports(plane, [])
  {
    HasPropId(plane, p.name);
    var all := props + [p];
    assert all[|props|] == p;
    assert forall k :: 0 <= k < |props| ==> all[k] == props[k];
    assert PropFits(plane, all[|props|]) == PropFits(plane, p);
    if Supports(plane, all) {
      forall k | 0 <= k < |props|
        ensures PropFits(plane, props[k])
      {
        assert PropFits(plane, all[k]);
      }
    }
  }

  /** The write a property turns into, if any. */
  function PropWrite(plane: PlaneInfo, p: LayerProp): (w: seq<Entry>)
    ensures Only(w, plane.id)
  {
    var id := PropId(plane, p.name);
    if p.name != ZPOS && id.Some? then [Entry(plane.id, id.value, p.value)] else []
  }

  function PropWrites(plane: PlaneInfo, props: seq<LayerProp>): (w: seq<Entry>)
    ensures Only(w, plane.id)
  {
    if |props| == 0 then []
    else PropWrites(plane, props[..|props| - 1]) + PropWrite(plane, props[|props| - 1])
  }

  /** The writes that put a layer with these properties on the plane. */
  function EnableWrites(plane: PlaneInfo, crtcId: uint32, props: seq<LayerProp>): (w: seq<Entry>)
    requires PropId(plane, CRTC_ID).Some?
    ensures Only(w, plane.id)
  {
    [Entry(plane.id, PropId(plane, CRTC_ID).value, crtcId)] + PropWrites(plane, props)
  }

  /** The writes that switch the plane off. */
  function DisableWrites(plane: PlaneInfo): (w: seq<Entry>)
    requires HasBasics(plane)
    ensures Only(w, plane.id)
  {
    [Entry(plane.id, PropId(plane, FB_ID).value, 0), Entry(plane.id, PropId(plane, CRTC_ID).value, 0)]
  }

  /** zpos is never written, nor is a property the plane does not have; any other is written with its value. */
  lemma PropWriteMeans(plane: PlaneInfo, p: LayerProp)
    ensures p.name == "zpos" || !Has(plane, p.name) ==> PropWrite(plane, p) == []
    ensures p.name != "zpos" && Has(plane, p.name) ==>
              exists k {:trigger plane.props[k]} :: 0 <= k < |plane.props| && plane.props[k].name == p.name &&
                PropWrite(plane, p) == [Entry(plane.id, plane.props[k].id, p.value)]
  {
    HasPropId(plane, p.name);
    var k := FindProp(plane.props, p.name);
    assert k < |plane.props| ==> plane.props[k].name == p.name;
  }

  /** The CRTC comes first. */
  lemma EnableBegins(plane: PlaneInfo, crtcId: uint32, props: seq<LayerProp>)
    requires PropId(plane, "CRTC_ID").Some?
    ensures var w := EnableWrites(plane, crtcId, props);
            && |w| > 0 && w[0] == Entry(plane.id, PropId(plane, "CRTC_ID").value, crtcId)
            && w[1..] == PropWrites(plane, props)
  {
  }

  /** How many of the properties need a write. */
  function WriteCount(plane: PlaneInfo, props: seq<LayerProp>): nat {
    if |props| == 0 then 0
    else WriteCount(plane, props[..|props| - 1]) + |PropWrite(plane, props[|props| - 1])|
  }

  /** One write per supported property other than zpos, in the layer's order. */
  lemma {:induction false} PropWritesInOrder(plane: PlaneInfo, props: seq<LayerProp>, k: nat)
    requires k < |props| && props[k].name != ZPOS && PropId(plane, props[k].name).Some?
    ensures |PropWrites(plane, props)| == WriteCount(plane, props)
    ensures WriteCount(plane, props[..k]) < WriteCount(plane, props)
    ensures PropWrites(plane, props)[WriteCount(plane, props[..k])] ==
            Entry(plane.id, PropId(plane, props[k].name).value, props[k].value)
  {
    var front := props[..|props| - 1];
    PropWritesCounted(plane, front);
    if k < |front| {
      PropWritesInOrder(plane, front, k);
      assert front[..k] == props[..k];
    }
  }

  lemma {:induction false} PropWritesCounted(plane: PlaneInfo, props: seq<LayerProp>)
    ensures |PropWrites(plane, props)| == WriteCount(plane, props)
  {
    if |props| != 0 {
      PropWritesCounted(plane, props[..|props| - 1]);
    }
  }

  /** The same properties at the same values; when they last changed does not matter. */
  predicate SameValues(a: seq<LayerProp>, b: seq<LayerProp>) {
    |a| == |b| && forall k :: 0 <= k < |a| ==> a[k].name == b[k].name && a[k].value == b[k].value
  }

  lemma {:induction false} SameValuesSameWrites(plane: PlaneInfo, a: seq<LayerProp>, b: seq<LayerProp>)
    requires SameValues(a, b)
    ensures PropWrites(plane, a) == PropWrites(plane, b)
    ensures Supports(plane, a) == Supports(plane, b)
  {
    assert forall k :: 0 <= k < |a| ==> PropFits(plane, a[k]) == PropFits(plane, b[k]);
    if |a| != 0 {
      SameValuesSameWrites(plane, a[..|a| - 1], b[..|b| - 1]);
    }
  }

  /** Putting a layer with a framebuffer on the plane overwrites all that switching it off wrote. */
  lemma EnableOverwritesDisable(plane: PlaneInfo, crtcId: uint32, props: seq<LayerProp>, prop: uint32)
    requires HasBasics(plane) && Value(props, FB_ID).Some?
    requires LastWrite(DisableWrites(plane), plane.id, prop).Some?
    ensures LastWrite(EnableWrites(plane, crtcId, props), plane.id, prop).Some?
  {
    var off, on, k := DisableWrites(plane), EnableWrites(plane, crtcId, props), Find(props, FB_ID);
    assert FB_ID[0] == 'F' && ZPOS[0] == 'z';
    WrittenSomewhere(off, plane.id, prop);
    PropWritesInOrder(plane, props, k);
    assert on[0].prop == PropId(plane, CRTC_ID).value;
    assert on[1 + WriteCount(plane, props[..k])].prop == PropId(plane, FB_ID).value;
    WrittenSomewhere(on, plane.id, prop);
  }

  predicate DistinctPropIds(plane: PlaneInfo) {
    forall i, j :: 0 <= i < j < |plane.props| ==> plane.props[i].id != plane.props[j].id
  }

  /** The layer has no CRTC_ID of its own. */
  predicate NoOwnCrtc(props: seq<LayerProp>) {
    forall k :: 0 <= k < |props| ==> props[k].name != CRTC_ID
  }

  lemma {:induction false} NoOwnCrtcValue(props: seq<LayerProp>)
    requires NoOwnCrtc(props)
    ensures LastValue(props, CRTC_ID) == None
  {
    if |props| > 0 {
      NoOwnCrtcValue(props[..|props| - 1]);
    }
  }

  /** After the writes of a layer, a plane property holds the value of the last layer property of
      that name, and a property the layer does not have is left alone. */
  lemma {:induction false} PropWritesLand(plane: PlaneInfo, props: seq<LayerProp>, name: string)
    requires DistinctPropIds(plane) && name != ZPOS && PropId(plane, name).Some?
    ensures LastWrite(PropWrites(plane, props), plane.id, PropId(plane, name).value) == LastValue(props, name)
  {
    if |props| != 0 {
      var last := props[|props| - 1];
      var front := PropWrites(plane, props[..|props| - 1]);
      PropWritesLand(plane, props[..|props| - 1], name);
      LastWriteConcat(front, PropWrite(plane, last), plane.id, PropId(plane, name).value);
      var w := PropWrite(plane, last);
      if w != [] {
        assert w[..0] == [];
        var i, j := FindProp(plane.props, name), FindProp(plane.props, last.name);
        assert i < j || j < i || last.name == name;
      }
    }
  }

  /** The value of the last property called `name`. */
  function LastValue(props: seq<LayerProp>, name: string): Option<uint64> {
    if |props| == 0 then None
    else if props[|props| - 1].name == name then Some(props[|props| - 1].value)
    else LastValue(props[..|props| - 1], name)
  }
}
