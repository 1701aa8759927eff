/** Which devices let overlapping layers end up on planes that do not separate them: exactly those on
    which three non-primary planes that the output may use share a zpos. */
module PlaneOrder {
  import opened Props
  import opened Atomic
  import opened Hardware
  import opened Scenes
  import opened Stacking
  import opened Placements
  import opened Optimum

  /** A non-primary plane that the output may use. */
  predicate Candidate(planes: seq<PlaneInfo>, free: seq<bool>, crtcIndex: nat, t: nat)
    requires |free| == |planes| && crtcIndex < 32
  {
    t < |planes| && free[t] && CanDrive(planes[t], crtcIndex) && planes[t].kind != PRIMARY
  }

  predicate Crowd(planes: seq<PlaneInfo>, free: seq<bool>, crtcIndex: nat, i: nat, m: nat, j: nat)
    requires |free| == |planes| && crtcIndex < 32
  {
    && i < m < j && Candidate(planes, free, crtcIndex, i) && Candidate(planes, free, crtcIndex, m)
    && Candidate(planes, free, crtcIndex, j)
    && planes[i].zpos == planes[m].zpos == planes[j].zpos
  }

  /** Three candidates share a zpos. */
  ghost predicate Crowded(planes: seq<PlaneInfo>, free: seq<bool>, crtcIndex: nat)
    requires |free| == |planes| && crtcIndex < 32
  {
    exists i: nat, m: nat, j: nat :: Crowd(planes, free, crtcIndex, i, m, j)
  }

  /** Where there is no crowd, a separated mapping keeps the order. */
  lemma UncrowdedKeepsOrder(s: Scene, free: seq<bool>, a: Alloc)
    requires Fits(s, a) && Sorted(s.planes) && IntZpos(s, a) && Separated(s, a)
    requires |free| == |s.planes| && s.crtcIndex < 32 && !Crowded(s.planes, free, s.crtcIndex)
    requires forall t :: 0 <= t < |a| && a[t].Some? ==> free[t] && CanDrive(s.planes[t], s.crtcIndex)
    ensures KeepsOrder(s, a)
  {
    forall i: nat, j: nat | Over(s, a, i, j)
      ensures s.planes[i].zpos > s.planes[j].zpos
    {
      if m: nat :| Squeezed(s, a, i, m, j) {
        assert Crowd(s.planes, free, s.crtcIndex, i, m, j);
      }
    }
  }

  /** A mapping in force keeps the order if no three planes that could drive the CRTC form a crowd. */
  lemma SoundKeepsOrder(s: Scene, a: Alloc)
    requires WellFormed(s) && Sound(s, a) && Sorted(s.planes) && IntZpos(s, a)
    requires !Crowded(s.planes, seq(|s.planes|, _ => true), s.crtcIndex)
    ensures KeepsOrder(s, a)
  {
    hide Separated, Stacked, Supports;
    forall t | 0 <= t < |a| && a[t].Some?
      ensures CanDrive(s.planes[t], s.crtcIndex)
    {
      assert Scannable(s, t, a[t].value);
    }
    UncrowdedKeepsOrder(s, seq(|s.planes|, _ => true), a);
  }

  /** What a layer object with these properties looks like; its zpos does not exceed an int. */
  predicate GenuineLayer(l: LayerFacts) {
    l == FactsOf(l.props, l.forced) && (l.zpos.Some? ==> l.zpos.value <= INT_MAX)
  }

  predicate Genuine(layers: seq<LayerFacts>) {
    forall l {:trigger GenuineLayer(l)} :: l in layers ==> GenuineLayer(l)
  }

  /** `q` is a search of an output with this CRTC on these planes. */
  predicate SearchOn(q: Search, planes: seq<PlaneInfo>, free: seq<bool>, crtcIndex: nat) {
    && SearchOk(q) && q.scene.planes == planes && q.free == free && q.scene.crtcIndex == crtcIndex
    && Genuine(q.scene.layers)
  }

  /** Whatever the layers and whatever the kernel accepts, every allocation a search can build keeps the
      order. */
  ghost predicate SearchesKeepOrder(planes: seq<PlaneInfo>, free: seq<bool>, crtcIndex: nat) {
    forall q: Search, ok: iset<seq<Entry>>, a: Alloc {:trigger Admissible(q, ok, a)} ::
      SearchOn(q, planes, free, crtcIndex) && Admissible(q, ok, a) ==> KeepsOrder(q.scene, a)
  }

  /** The plane has the size properties, as every KMS plane does. */
  predicate HasSize(plane: PlaneInfo) {
    PropId(plane, CRTC_W).Some? && PropId(plane, CRTC_H).Some?
  }

  predicate AllSized(planes: seq<PlaneInfo>) {
    forall i {:trigger HasSize(planes[i])} :: 0 <= i < |planes| ==> HasSize(planes[i])
  }

  /** And so does every allocation a search ends with. */
  ghost predicate OutcomesKeepOrder(planes: seq<PlaneInfo>, free: seq<bool>, crtcIndex: nat) {
    forall q: Search, ok: iset<seq<Entry>>, b0: Best, b: Best {:trigger Searched(q, ok, [], b0, b)} ::
      (SearchOn(q, planes, free, crtcIndex) && Searched(q, ok, [], b0, b) && b0.score == -1 && b.score != -1 &&
       Fits(q.scene, b.alloc)) ==> KeepsOrder(q.scene, b.alloc)
  }

  /** The exact condition, to be read off the planes before any call. */
  lemma StrictPlaneOrder(planes: seq<PlaneInfo>, free: seq<bool>, crtcIndex: nat)
    requires AllBasic(planes) && AllSized(planes) && DistinctIds(planes) && Sorted(planes)
    requires |free| == |planes| && crtcIndex < 32
    ensures SearchesKeepOrder(planes, free, crtcIndex) <==> !Crowded(planes, free, crtcIndex)
    ensures OutcomesKeepOrder(planes, free, crtcIndex) <==> !Crowded(planes, free, crtcIndex)
  {
    if i: nat, m: nat, j: nat :| Crowd(planes, free, crtcIndex, i, m, j) {
      LostInCrowd(planes, free, crtcIndex, i, m, j);
    } else {
      forall q: Search, ok: iset<seq<Entry>>, a: Alloc |
        SearchOn(q, planes, free, crtcIndex) && Admissible(q, ok, a)
        ensures KeepsOrder(q.scene, a)
      {
        WithoutCrowd(q, ok, a);
      }
      forall q: Search, ok: iset<seq<Entry>>, b0: Best, b: Best |
        SearchOn(q, planes, free, crtcIndex) && Searched(q, ok, [], b0, b) && b0.score == -1 && b.score != -1 &&
        Fits(q.scene, b.alloc)
        ensures KeepsOrder(q.scene, b.alloc)
      {
        SearchedIsMaximum(q, ok, b0, b);
        WithoutCrowd(q, ok, b.alloc);
      }
    }
  }

  lemma LostInCrowd(planes: seq<PlaneInfo>, free: seq<bool>, crtcIndex: nat, i: nat, m: nat, j: nat)
    requires AllBasic(planes) && AllSized(planes) && DistinctIds(planes)
    requires |free| == |planes| && crtcIndex < 32 && Crowd(planes, free, crtcIndex, i, m, j)
    ensures !SearchesKeepOrder(planes, free, crtcIndex) && !OutcomesKeepOrder(planes, free, crtcIndex)
  {
    hide Searched, Admissible;
    var q, ok, a := CrowdLosesOrder(planes, free, crtcIndex, i, m, j);
    AdmissibleHasThem(q, ok, a);
    assert Admissible(q, ok, a) && Searched(q, ok, [], Best(-1, []), Best(3, a)) && !KeepsOrder(q.scene, a);
  }

  lemma WithoutCrowd(q: Search, ok: iset<seq<Entry>>, a: Alloc)
    requires SearchOk(q) && Genuine(q.scene.layers) && Admissible(q, ok, a) && Sorted(q.scene.planes)
    requires !Crowded(q.scene.planes, q.free, q.scene.crtcIndex)
    ensures KeepsOrder(q.scene, a)
  {
    hide Crowded, Separated, KeepsOrder, Supports;
    AdmissibleIsSeparated(q, ok, a);
    forall t | 0 <= t < |a| && a[t].Some?
      ensures Usable(q, t)
    {
      assert Placeable(q, ok, a[..t], a[t].value);
    }
    assert forall t: nat {:trigger Marked(q.scene, a, t)} :: Marked(q.scene, a, t) ==>
      GenuineLayer(q.scene.layers[a[t].value]);
    UncrowdedKeepsOrder(q.scene, q.free, a);
  }

  // ----- a crowd loses the order -----

  /** The requests on the way to this allocation. */
  ghost function PathRequests(q: Search, a: Alloc): iset<seq<Entry>>
    requires SearchOk(q) && Fits(q.scene, a)
  {
    iset t: nat | t < |a| && a[t].Some? :: RequestFor(q, a[..t + 1])
  }

  /** The properties of a visible layer of one pixel. */
  function Pixel(zpos: uint64): seq<LayerProp> {
    [LayerProp(FB_ID, 1, 1), LayerProp(ZPOS, zpos, zpos), LayerProp(CRTC_W, 1, 1), LayerProp(CRTC_H, 1, 1)]
  }

  /** The properties of a visible layer whose size was not set. */
  function Point(zpos: uint64): seq<LayerProp> {
    [LayerProp(FB_ID, 1, 1), LayerProp(ZPOS, zpos, zpos)]
  }

  lemma PixelFacts(zpos: uint64)
    ensures FactsOf(Pixel(zpos), false) == LayerFacts(true, false, Some(zpos), Rect(0, 0, 1, 1), Pixel(zpos))
  {
    PixelNames();
    var p := Pixel(zpos);
    assert p[0].name == FB_ID && p[1].name == ZPOS && p[2].name == CRTC_W && p[3].name == CRTC_H;
  }

  lemma PointFacts(zpos: uint64)
    ensures FactsOf(Point(zpos), false) == LayerFacts(true, false, Some(zpos), Rect(0, 0, 0, 0), Point(zpos))
  {
    PixelNames();
    var p := Point(zpos);
    assert p[0].name == FB_ID && p[1].name == ZPOS;
  }

  lemma PixelNames()
    ensures FB_ID != ZPOS && FB_ID != CRTC_W && FB_ID != CRTC_H && ZPOS != CRTC_W && ZPOS != CRTC_H
    ensures CRTC_W != CRTC_H && CRTC_X != CRTC_W && CRTC_X != CRTC_H && CRTC_Y != CRTC_W && CRTC_Y != CRTC_H
    ensures CRTC_X != FB_ID && CRTC_X != ZPOS && CRTC_Y != FB_ID && CRTC_Y != ZPOS
    ensures ALPHA != FB_ID && ALPHA != ZPOS && ALPHA != CRTC_W && ALPHA != CRTC_H
  {
    assert FB_ID[0] == 'F' && ZPOS[0] == 'z' && ALPHA[0] == 'a';
    assert CRTC_W[0] == 'C' && CRTC_H[0] == 'C' && CRTC_X[0] == 'C' && CRTC_Y[0] == 'C';
    assert CRTC_W[5] == 'W' && CRTC_H[5] == 'H' && CRTC_X[5] == 'X' && CRTC_Y[5] == 'Y';
  }

  lemma PixelsFit(plane: PlaneInfo, zpos: uint64)
    requires HasBasics(plane) && HasSize(plane)
    ensures Supports(plane, Pixel(zpos)) && Supports(plane, Point(zpos))
  {
    forall k | 0 <= k < 4
      ensures PropFits(plane, Pixel(zpos)[k])
    {
    }
    forall k | 0 <= k < 2
      ensures PropFits(plane, Point(zpos)[k])
    {
    }
  }

  /** Layers of zpos 5, 1 and 3; the first and the last overlap, the second is beside them. */
  predicate Trio(layers: seq<LayerFacts>) {
    && |layers| == 3
    && layers[0].zpos == Some(5) && layers[1].zpos == Some(1) && layers[2].zpos == Some(3)
    && Overlap(layers[2].rect, layers[0].rect)
    && !Overlap(layers[0].rect, layers[1].rect) && !Overlap(layers[1].rect, layers[0].rect)
    && !Overlap(layers[2].rect, layers[1].rect) && !Overlap(layers[1].rect, layers[2].rect)
  }

  lemma SomeTrio() returns (layers: seq<LayerFacts>)
    ensures Trio(layers) && Genuine(layers)
    ensures forall t :: 0 <= t < 3 ==> layers[t].visible && !layers[t].forced
    ensures layers[0].props == Pixel(5) && layers[1].props == Point(1) && layers[2].props == Pixel(3)
  {
    hide FactsOf, Pixel, Point;
    PixelFacts(5);
    PointFacts(1);
    PixelFacts(3);
    layers := [FactsOf(Pixel(5), false), FactsOf(Point(1), false), FactsOf(Pixel(3), false)];
    assert layers[0].props == Pixel(5) && layers[1].props == Point(1) && layers[2].props == Pixel(3);
  }

  /** The trio is on planes `i`, `m` and `j`, which are no primary planes, and the others are empty. */
  predicate Spread(s: Scene, a: Alloc, i: nat, m: nat, j: nat) {
    && Trio(s.layers) && |a| == |s.planes| && i < m < j < |a|
    && s.planes[i].kind != PRIMARY && s.planes[m].kind != PRIMARY && s.planes[j].kind != PRIMARY
    && a[i] == Some(0) && a[m] == Some(1) && a[j] == Some(2)
    && forall t :: 0 <= t < |a| && t != i && t != m && t != j ==> a[t] == None
  }

  /** Planes left empty do not change last_layer_zpos. */
  lemma {:induction false} EmptyPlanes(s: Scene, a: Alloc, lo: nat, hi: nat)
    requires Fits(s, a) && lo <= hi <= |a| && forall t :: lo <= t < hi ==> a[t] == None
    ensures LastZpos(s, a[..hi]) == LastZpos(s, a[..lo])
  {
    if lo < hi {
      EmptyPlanes(s, a, lo, hi - 1);
      assert a[..hi][..hi - 1] == a[..hi - 1];
    }
  }

  lemma AfterLayer(s: Scene, a: Alloc, i: nat)
    requires Fits(s, a) && Marked(s, a, i)
    ensures LastZpos(s, a[..i + 1]) == ToInt32(Z(s, a, i))
  {
    assert a[..i + 1][..i] == a[..i];
  }

  lemma SpreadZpos(s: Scene, a: Alloc, i: nat, m: nat, j: nat)
    requires Fits(s, a) && Spread(s, a, i, m, j)
    ensures LastZpos(s, a[..i]) == INT_MAX && LastZpos(s, a[..m]) == 5 && LastZpos(s, a[..j]) == 1
  {
    EmptyPlanes(s, a, 0, i);
    AfterLayer(s, a, i);
    EmptyPlanes(s, a, i + 1, m);
    AfterLayer(s, a, m);
    EmptyPlanes(s, a, m + 1, j);
  }

  /** Each of the three passes the checks after the ones before it. */
  lemma SpreadCompatible(s: Scene, a: Alloc, i: nat, m: nat, j: nat, t: nat)
    requires Fits(s, a) && Spread(s, a, i, m, j) && s.comp == None && t < |a| && a[t].Some?
    ensures Compatible(s, a[..t], a[t].value)
  {
    hide LastZpos;
    SpreadZpos(s, a, i, m, j);
    assert t > i ==> a[..t][i] == Some(0);
    assert t > m ==> a[..t][m] == Some(1);
  }

  // ----- the search ends there if only the requests on the way are accepted -----

  lemma {:induction false} PathSkips(q: Search, a: Alloc, lo: nat, hi: nat)
    requires SearchOk(q) && Fits(q.scene, a) && lo <= hi <= |a| && forall t :: lo <= t < hi ==> a[t] == None
    ensures RequestFor(q, a[..hi]) == RequestFor(q, a[..lo])
  {
    hide WellFormed;
    if lo < hi {
      PathSkips(q, a, lo, hi - 1);
      assert a[..hi][..hi - 1] == a[..hi - 1];
      assert RequestFor(q, a[..hi - 1]) + [] == RequestFor(q, a[..hi - 1]);
    }
  }

  lemma PathStep(q: Search, a: Alloc, t: nat)
    requires SearchOk(q) && Fits(q.scene, a) && t < |a|
    ensures RequestFor(q, a[..t + 1]) == RequestFor(q, a[..t]) + ChoiceWrites(q.scene, t, a[t])
  {
    assert a[..t + 1][..t] == a[..t];
  }

  /** Two layers that look alike in a request, and a smaller one. */
  ghost predicate Shapes(s: Scene) {
    && WellFormed(s) && Trio(s.layers) && AllSized(s.planes)
    && s.layers[0].props == Pixel(5) && s.layers[1].props == Point(1) && s.layers[2].props == Pixel(3)
  }

  function Size(x: nat): nat {
    if x == 1 then 2 else 4
  }

  lemma WritesShape(s: Scene, t: nat, x: nat)
    requires Shapes(s) && t < |s.planes| && x < 3
    ensures var w := ChoiceWrites(s, t, Some(x)); |w| == Size(x) && w[0].obj == s.planes[t].id
  {
    hide PropWrites;
    var plane, props := s.planes[t], s.layers[x].props;
    assert HasBasics(plane) && HasSize(plane);
    PixelNames();
    if x == 1 {
      TwoWrites(plane, props);
    } else {
      FourWrites(plane, props);
    }
  }

  lemma TwoWrites(plane: PlaneInfo, p: seq<LayerProp>)
    requires |p| == 2
    ensures |PropWrites(plane, p)| == |PropWrite(plane, p[0])| + |PropWrite(plane, p[1])|
  {
    assert PropWrites(plane, p[..1][..0]) == [];
    assert PropWrites(plane, p[..1]) == PropWrites(plane, p[..1][..0]) + PropWrite(plane, p[0]);
  }

  lemma FourWrites(plane: PlaneInfo, p: seq<LayerProp>)
    requires |p| == 4
    ensures |PropWrites(plane, p)| ==
            |PropWrite(plane, p[0])| + |PropWrite(plane, p[1])| + |PropWrite(plane, p[2])| + |PropWrite(plane, p[3])|
  {
    TwoWrites(plane, p[..2]);
    assert p[..3][..2] == p[..2];
    assert PropWrites(plane, p[..3]) == PropWrites(plane, p[..2]) + PropWrite(plane, p[2]);
  }

  lemma PathValues(q: Search, a: Alloc, i: nat, m: nat, j: nat)
    requires SearchOk(q) && Fits(q.scene, a) && Spread(q.scene, a, i, m, j) && q.base == []
    ensures var s := q.scene;
            var ri := ChoiceWrites(s, i, Some(0));
            var rm := ri + ChoiceWrites(s, m, Some(1));
            var rj := rm + ChoiceWrites(s, j, Some(2));
            && RequestFor(q, a[..i + 1]) == ri && RequestFor(q, a[..m + 1]) == rm && RequestFor(q, a[..j + 1]) == rj
            && forall r :: r in PathRequests(q, a) ==> r == ri || r == rm || r == rj
  {
    hide ChoiceWrites, RequestFor, Trio;
    EmptyRequest(q);
    PathSkips(q, a, 0, i);
    PathStep(q, a, i);
    PathSkips(q, a, i + 1, m);
    PathStep(q, a, m);
    PathSkips(q, a, m + 1, j);
    PathStep(q, a, j);
    assert a[..0] == [];
  }

  lemma EmptyRequest(q: Search)
    requires SearchOk(q)
    ensures RequestFor(q, []) == q.base
  {
  }

  /** Where a layer of the trio may be when only the requests on the way to `a` are accepted. */
  predicate OnPath(b: Alloc, t: nat, i: nat, m: nat, j: nat)
    requires t < |b|
  {
    b[t].Some? ==> if b[t].value == 1 then t == m else t == i || t == j
  }

  /** One step of a search along the way. */
  lemma NextOnPath(q: Search, a: Alloc, i: nat, m: nat, j: nat, r: seq<Entry>, t: nat, x: nat)
    requires SearchOk(q) && Fits(q.scene, a) && Spread(q.scene, a, i, m, j) && q.base == [] && Shapes(q.scene)
    requires t < |q.scene.planes| && x < 3 && r + ChoiceWrites(q.scene, t, Some(x)) in PathRequests(q, a)
    requires r == [] || r in PathRequests(q, a)
    ensures if x == 1 then t == m else t == i || t == j
  {
    hide ChoiceWrites, RequestFor, Trio, PathRequests, Shapes;
    var s := q.scene;
    var wi, wm, wj := ChoiceWrites(s, i, Some(0)), ChoiceWrites(s, m, Some(1)), ChoiceWrites(s, j, Some(2));
    var w := ChoiceWrites(s, t, Some(x));
    PathValues(q, a, i, m, j);
    WritesShape(s, i, 0);
    WritesShape(s, m, 1);
    WritesShape(s, j, 2);
    WritesShape(s, t, x);
    assert (r + w)[|r|] == w[0];
    assert (wi + wm)[4] == wm[0] && (wi + wm + wj)[6] == wj[0] && (wi + wm + wj)[4] == wm[0];
  }

  lemma {:induction false} StaysOnPath(q: Search, a: Alloc, b: Alloc, i: nat, m: nat, j: nat, n: nat)
    requires SearchOk(q) && Fits(q.scene, a) && Spread(q.scene, a, i, m, j) && q.base == [] && Shapes(q.scene)
    requires Admissible(q, PathRequests(q, a), b) && n <= |b|
    ensures RequestFor(q, b[..n]) == [] || RequestFor(q, b[..n]) in PathRequests(q, a)
    ensures forall t :: 0 <= t < n ==> OnPath(b, t, i, m, j)
  {
    hide PathRequests, Spread, Shapes, RequestFor, ChoiceWrites, Compatible, Supports, Usable, WellFormed;
    if n == 0 {
      EmptyRequest(q);
    } else {
      StaysOnPath(q, a, b, i, m, j, n - 1);
      PathStep(q, b, n - 1);
      if b[n - 1].Some? {
        assert Placeable(q, PathRequests(q, a), b[..n - 1], b[n - 1].value);
        assert b[..n - 1] + [Some(b[n - 1].value)] == b[..n];
        NextWithin(q, a, b, i, m, j, n - 1);
      } else {
        PathSkips(q, b, n - 1, n);
      }
    }
  }

  lemma NextWithin(q: Search, a: Alloc, b: Alloc, i: nat, m: nat, j: nat, t: nat)
    requires SearchOk(q) && Fits(q.scene, a) && Spread(q.scene, a, i, m, j) && q.base == [] && Shapes(q.scene)
    requires Fits(q.scene, b) && t < |b| && b[t].Some? && RequestFor(q, b[..t + 1]) in PathRequests(q, a)
    requires RequestFor(q, b[..t]) == [] || RequestFor(q, b[..t]) in PathRequests(q, a)
    ensures OnPath(b, t, i, m, j)
  {
    hide PathRequests, Spread, RequestFor, ChoiceWrites;
    PathStep(q, b, t);
    NextOnPath(q, a, i, m, j, RequestFor(q, b[..t]), t, b[t].value);
  }

  lemma {:induction false} ScoreOnPath(s: Scene, b: Alloc, i: nat, m: nat, j: nat, n: nat)
    requires n <= |b| && i < m < j && forall t :: 0 <= t < |b| ==> OnPath(b, t, i, m, j)
    ensures Score(s, b[..n]) <= (if i < n && b[i].Some? then 1 else 0) + (if m < n && b[m].Some? then 1 else 0) +
                                (if j < n && b[j].Some? then 1 else 0)
  {
    if n > 0 {
      ScoreOnPath(s, b, i, m, j, n - 1);
      assert b[..n][..n - 1] == b[..n - 1] && OnPath(b, n - 1, i, m, j);
    }
  }

  lemma {:induction false} ScoreOfSpread(s: Scene, a: Alloc, i: nat, m: nat, j: nat, n: nat)
    requires Spread(s, a, i, m, j) && s.comp == None && n <= |a|
    ensures Score(s, a[..n]) == (if i < n then 1 else 0) + (if m < n then 1 else 0) + (if j < n then 1 else 0)
  {
    hide Trio;
    if n > 0 {
      ScoreOfSpread(s, a, i, m, j, n - 1);
      assert a[..n][..n - 1] == a[..n - 1];
    }
  }

  /** Nothing else that is admissible scores as much. */
  lemma OnlySpread(q: Search, a: Alloc, b: Alloc, i: nat, m: nat, j: nat)
    requires SearchOk(q) && Fits(q.scene, a) && Spread(q.scene, a, i, m, j) && q.base == [] && Shapes(q.scene)
    requires Admissible(q, PathRequests(q, a), b) && |b| == |a| && Score(q.scene, b) >= 3
    ensures b == a
  {
    hide PathRequests, Shapes, RequestFor, Admissible;
    StaysOnPath(q, a, b, i, m, j, |b|);
    assert b[..|b|] == b;
    ScoreOnPath(q.scene, b, i, m, j, |b|);
    AdmissibleIsInjective(q, PathRequests(q, a), b);
    AdmissibleIsStacked(q, PathRequests(q, a), b);
    AdmissibleHasThem(q, PathRequests(q, a), b);
    assert OnPath(b, i, i, m, j) && OnPath(b, m, i, m, j) && OnPath(b, j, i, m, j);
    assert OnOverlay(q.scene, b, i) && Above(q.scene, 0, 2);
    var front := b[..i];
    forall t | 0 <= t < i
      ensures front[t] != Some(0)
    {
      assert OnPath(b, t, i, m, j);
    }
    assert !Above(q.scene, 0, b[i].value);
    forall t | 0 <= t < |b|
      ensures b[t] == a[t]
    {
      assert OnPath(b, t, i, m, j);
    }
  }

  lemma AdmissibleHasThem(q: Search, ok: iset<seq<Entry>>, b: Alloc)
    requires SearchOk(q) && Admissible(q, ok, b)
    ensures Fits(q.scene, b)
  {
  }

  lemma SpreadAdmissible(q: Search, a: Alloc, i: nat, m: nat, j: nat)
    requires SearchOk(q) && Fits(q.scene, a) && Spread(q.scene, a, i, m, j) && Shapes(q.scene) && q.scene.comp == None
    requires forall x :: 0 <= x < 3 ==> q.scene.layers[x].visible && !q.scene.layers[x].forced
    requires Usable(q, i) && Usable(q, m) && Usable(q, j)
    ensures Admissible(q, PathRequests(q, a), a)
  {
    hide Compatible, RequestFor, Pixel, Point, Supports;
    forall t | 0 <= t < |a| && a[t].Some?
      ensures Placeable(q, PathRequests(q, a), a[..t], a[t].value)
    {
      SpreadCompatible(q.scene, a, i, m, j, t);
      assert a[..t] + [Some(a[t].value)] == a[..t + 1];
      assert HasBasics(q.scene.planes[t]) && HasSize(q.scene.planes[t]);
      PixelsFit(q.scene.planes[t], 5);
      PixelsFit(q.scene.planes[t], 1);
      PixelsFit(q.scene.planes[t], 3);
    }
  }

  lemma SpreadIsFound(q: Search, a: Alloc, i: nat, m: nat, j: nat)
    requires SearchOk(q) && Fits(q.scene, a) && Spread(q.scene, a, i, m, j) && Shapes(q.scene) && q.scene.comp == None
    requires q.base == [] && Admissible(q, PathRequests(q, a), a)
    ensures Acceptable(q.scene, a) && Searched(q, PathRequests(q, a), [], Best(-1, []), Best(3, a))
  {
    hide PathRequests, Spread, Shapes, Admissible, RequestFor;
    var ok, hi := PathRequests(q, a), |q.scene.layers| + 1;
    ScoreOfSpread(q.scene, a, i, m, j, |a|);
    SpreadShape(q.scene, a, i, m, j);
    assert a[..|a|] == a;
    forall b | Competes(q, ok, [], hi, b)
      ensures Score(q.scene, b) <= 3 && (Score(q.scene, b) == 3 ==> b == a)
    {
      if Score(q.scene, b) >= 3 {
        OnlySpread(q, a, b, i, m, j);
      }
    }
    assert Competes(q, ok, [], hi, a);
    NotBeforeItself(|q.scene.layers|, a);
  }

  lemma SpreadShape(s: Scene, a: Alloc, i: nat, m: nat, j: nat)
    requires Spread(s, a, i, m, j)
    ensures |a| == |s.planes| && i < m < j < |a| && |s.layers| == 3
  {
  }

  lemma NotBeforeItself(layers: nat, a: Alloc)
    ensures !Before(layers, a, a)
  {
  }

  /** A crowd lets a search end with an overlapping pair on planes that do not separate it. */
  lemma CrowdLosesOrder(planes: seq<PlaneInfo>, free: seq<bool>, crtcIndex: nat, i: nat, m: nat, j: nat)
      returns (q: Search, ok: iset<seq<Entry>>, a: Alloc)
    requires AllBasic(planes) && AllSized(planes) && DistinctIds(planes)
    requires |free| == |planes| && crtcIndex < 32 && Crowd(planes, free, crtcIndex, i, m, j)
    ensures SearchOn(q, planes, free, crtcIndex)
    ensures |a| == |planes| && Admissible(q, ok, a) && Acceptable(q.scene, a)
    ensures Searched(q, ok, [], Best(-1, []), Best(3, a))
    ensures Over(q.scene, a, i, j) && planes[i].zpos == planes[j].zpos
  {
    hide FactsOf, Compatible, PropFits, Pixel, Point, Admissible, Searched, RequestFor;
    var layers := SomeTrio();
    var s := Scene(planes, layers, None, crtcIndex, 0);
    a := seq(|planes|, t => if t == i then Some(0) else if t == m then Some(1) else if t == j then Some(2) else None);
    q := Search(s, free, []);
    ok := PathRequests(q, a);
    SpreadAdmissible(q, a, i, m, j);
    SpreadIsFound(q, a, i, m, j);
  }
}
