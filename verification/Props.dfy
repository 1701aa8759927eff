/** Layer properties as a layer stores them, and what the library reads off them
    (layer.c): geometry, visibility, stacking position. */
module Props {

  datatype Option<+T> = None | Some(value: T)

  type uint32 = x: int | 0 <= x < 0x1_0000_0000
  type uint64 = x: int | 0 <= x < 0x1_0000_0000_0000_0000
  type int32 = x: int | -0x8000_0000 <= x < 0x8000_0000

  const INT_MAX: int32 := 0x7FFF_FFFF

  lemma WholeWords(k: int)
    ensures (k * 0x1_0000_0000) % 0x1_0000_0000 == 0
  {
  }

  /** The C conversion from uint64_t to int. */
  function ToInt32(v: uint64): (r: int32)
    ensures v <= INT_MAX ==> r == v
    ensures (v - r) % 0x1_0000_0000 == 0
  {
    var m := v % 0x1_0000_0000;
    WholeWords(v / 0x1_0000_0000);
    WholeWords(v / 0x1_0000_0000 + 1);
    if m < 0x8000_0000 then m else m - 0x1_0000_0000
  }

  const FB_ID := "FB_ID"
  const CRTC_ID := "CRTC_ID"
  const CRTC_X := "CRTC_X"
  const CRTC_Y := "CRTC_Y"
  const CRTC_W := "CRTC_W"
  const CRTC_H := "CRTC_H"
  const ZPOS := "zpos"
  const ALPHA := "alpha"
  const ROTATION := "rotation"
  const IN_FENCE_FD := "IN_FENCE_FD"
  const FB_DAMAGE_CLIPS := "FB_DAMAGE_CLIPS"

  const OPAQUE_ALPHA: uint64 := 0xFFFF
  const ROTATE_0: uint64 := 1

  /** Size of a stored property name, terminator included. */
  const DRM_PROP_NAME_LEN := 32

  /** What strncpy keeps of a name. */
  function Stored(name: string): (r: string)
    ensures r <= name && |r| == if |name| <= 31 then |name| else 31
  {
    if |name| < DRM_PROP_NAME_LEN then name else name[..DRM_PROP_NAME_LEN - 1]
  }

  datatype LayerProp = LayerProp(name: string, value: uint64, prevValue: uint64)

  /** Position of the first property called `name`, or the length when there is none. */
  function Find(props: seq<LayerProp>, name: string): (i: nat)
    ensures i <= |props|
    ensures forall k :: 0 <= k < i ==> props[k].name != name
    ensures i < |props| ==> props[i].name == name
  {
    if |props| == 0 || props[0].name == name then 0 else 1 + Find(props[1..], name)
  }

  function Value(props: seq<LayerProp>, name: string): Option<uint64> {
    var i := Find(props, name);
    if i < |props| then Some(props[i].value) else None
  }

  /** The properties as they were when the layer was last marked clean. */
  function Cleaned(props: seq<LayerProp>): (r: seq<LayerProp>)
    ensures |r| == |props|
  {
    seq(|props|, k requires 0 <= k < |props| => props[k].(value := props[k].prevValue))
  }

  predicate SameNames(a: seq<LayerProp>, b: seq<LayerProp>) {
    |a| == |b| && forall k :: 0 <= k < |a| ==> a[k].name == b[k].name
  }

  lemma SameNamesSameFind(a: seq<LayerProp>, b: seq<LayerProp>, name: string)
    requires SameNames(a, b)
    ensures Find(a, name) == Find(b, name)
  {
    var i, j := Find(a, name), Find(b, name);
    assert i < |a| ==> b[i].name == name;
  }

  datatype Rect = Rect(x: int32, y: int32, width: int32, height: int32)

  function Coordinate(props: seq<LayerProp>, name: string): int32 {
    var v := Value(props, name);
    if v.Some? then ToInt32(v.value) else 0
  }

  function RectOf(props: seq<LayerProp>): Rect {
    Rect(Coordinate(props, CRTC_X), Coordinate(props, CRTC_Y),
         Coordinate(props, CRTC_W), Coordinate(props, CRTC_H))
  }

  /** The coordinate `name` of a layer is `n`: 0 when it was not set, and otherwise what 32 bits of the
      property mean as a signed number. */
  predicate Measures(props: seq<LayerProp>, name: string, n: int32) {
    var v := Value(props, name);
    if v.Some? then (v.value - n) % 0x1_0000_0000 == 0 else n == 0
  }

  lemma SignedIsUnique(v: uint64, n: int32)
    requires (v - n) % 0x1_0000_0000 == 0
    ensures ToInt32(v) == n
  {
    var a, b := (v - n) / 0x1_0000_0000, (v - ToInt32(v)) / 0x1_0000_0000;
    assert n - ToInt32(v) == (b - a) * 0x1_0000_0000;
  }

  lemma MeasuredCoordinate(props: seq<LayerProp>, name: string, n: int32)
    requires Measures(props, name, n)
    ensures Coordinate(props, name) == n
  {
    var v := Value(props, name);
    if v.Some? {
      SignedIsUnique(v.value, n);
    }
  }

  predicate Overlap(a: Rect, b: Rect) {
    && a.x < b.x + b.width && a.y < b.y + b.height
    && a.x + a.width > b.x && a.y + a.height > b.y
  }

  /** The pixel in column `x` and row `y` belongs to the rectangle. */
  predicate Covers(r: Rect, x: int, y: int) {
    r.x <= x < r.x + r.width && r.y <= y < r.y + r.height
  }

  /** Rectangles that are not empty intersect exactly if they share a pixel. */
  lemma OverlapIsSharedPixel(a: Rect, b: Rect)
    requires a.width > 0 && a.height > 0 && b.width > 0 && b.height > 0
    ensures Overlap(a, b) <==>
            exists x, y :: Covers(a, x, y) && Covers(b, x, y)
  {
    if Overlap(a, b) {
      var x, y := if a.x < b.x then b.x else a.x, if a.y < b.y then b.y else a.y;
      assert Covers(a, x, y) && Covers(b, x, y);
    }
  }

  /** An empty rectangle intersects whatever it is strictly inside of. */
  lemma EmptyOverlap(a: Rect, b: Rect)
    requires a.width == 0 && a.height == 0
    ensures Overlap(a, b) <==> b.x < a.x < b.x + b.width && b.y < a.y < b.y + b.height
  {
  }

  /** Two layers whose sizes are positive intersect exactly if they share a pixel of the screen, as their
      properties place them on it. */
  lemma LayersShareAPixel(p: seq<LayerProp>, q: seq<LayerProp>, a: Rect, b: Rect)
    requires Measures(p, "CRTC_X", a.x) && Measures(p, "CRTC_Y", a.y)
    requires Measures(p, "CRTC_W", a.width) && Measures(p, "CRTC_H", a.height)
    requires Measures(q, "CRTC_X", b.x) && Measures(q, "CRTC_Y", b.y)
    requires Measures(q, "CRTC_W", b.width) && Measures(q, "CRTC_H", b.height)
    requires a.width > 0 && a.height > 0 && b.width > 0 && b.height > 0
    ensures Overlap(RectOf(p), RectOf(q)) <==>
            exists x, y :: Covers(a, x, y) && Covers(b, x, y)
  {
    MeasuredRect(p, a);
    MeasuredRect(q, b);
    OverlapIsSharedPixel(a, b);
  }

  lemma MeasuredRect(p: seq<LayerProp>, r: Rect)
    requires Measures(p, "CRTC_X", r.x) && Measures(p, "CRTC_Y", r.y)
    requires Measures(p, "CRTC_W", r.width) && Measures(p, "CRTC_H", r.height)
    ensures RectOf(p) == r
  {
    MeasuredCoordinate(p, "CRTC_X", r.x);
    MeasuredCoordinate(p, "CRTC_Y", r.y);
    MeasuredCoordinate(p, "CRTC_W", r.width);
    MeasuredCoordinate(p, "CRTC_H", r.height);
  }

  predicate HasFb(props: seq<LayerProp>) {
    var fb := Value(props, FB_ID);
    fb.Some? && fb.value != 0
  }

  predicate Visible(props: seq<LayerProp>, forced: bool) {
    var alpha := Value(props, ALPHA);
    if alpha.Some? && alpha.value == 0 then false else forced || HasFb(props)
  }

  /** A layer is shown unless it is fully transparent, if it has a framebuffer or must be composited. */
  lemma VisibleMeans(props: seq<LayerProp>, forced: bool)
    ensures Value(props, "alpha") == Some(0) ==> !Visible(props, forced)
    ensures Value(props, "FB_ID") == Some(0) || Value(props, "FB_ID") == None ==> !Visible(props, false)
    ensures Value(props, "alpha") != Some(0) ==> Visible(props, true)
    ensures Value(props, "alpha") != Some(0) && Value(props, "FB_ID").Some? && Value(props, "FB_ID").value != 0 ==>
              Visible(props, forced)
  {
  }

  /** Everything the plane allocator looks at in one layer. */
  datatype LayerFacts = LayerFacts(visible: bool, forced: bool, zpos: Option<uint64>, rect: Rect,
                                   props: seq<LayerProp>)

  function FactsOf(props: seq<LayerProp>, forced: bool): LayerFacts {
    LayerFacts(Visible(props, forced), forced, Value(props, ZPOS), RectOf(props), props)
  }
}
