/** The library's objects and the API operations other than apply: layers, planes, outputs and the
    device they belong to (layer.c, plane.c, output.c). */
module Objects {
  import opened Sequences
  import opened Props
  import opened Atomic
  import opened Hardware
  import opened Scenes
  import opened Stacking
  import opened PlaneChanges
  import opened Cache
  import opened Registration

  /** Position of `l` in a list of layers. */
  ghost function IndexOf(layers: seq<Layer>, l: Layer?): (r: Option<nat>)
    ensures r.Some? ==> r.value < |layers| && layers[r.value] == l
    ensures r.None? ==> l == null || l !in layers
  {
    if l != null && l in layers then
      var j :| 0 <= j < |layers| && layers[j] == l; Some(j)
    else None
  }

  lemma IndexUnique(layers: seq<Layer>, j: nat)
    requires Distinct(layers) && j < |layers|
    ensures IndexOf(layers, layers[j]) == Some(j)
  {
  }

  lemma IndexOfDropped(layers: seq<Layer>, j: nat, l: Layer?)
    requires Distinct(layers) && j < |layers| && l != layers[j]
    ensures IndexOf(Dropped(layers, j), l) == Without(IndexOf(layers, l), j)
  {
    var t := Dropped(layers, j);
    assert Distinct(t);
    if l != null && l in layers {
      var k := IndexOf(layers, l).value;
      var k' := if k < j then k else k - 1;
      assert t[k'] == l;
      IndexUnique(t, k');
    }
  }

  lemma IndexOfAppended(layers: seq<Layer>, n: Layer, l: Layer?)
    requires Distinct(layers + [n]) && l != n
    ensures IndexOf(layers + [n], l) == IndexOf(layers, l)
  {
    if l != null && l in layers {
      var k := IndexOf(layers, l).value;
      assert (layers + [n])[k] == l;
      IndexUnique(layers + [n], k);
    }
  }

  class Plane {
    const info: PlaneInfo
    var layer: Layer?

    constructor (info: PlaneInfo)
      ensures this.info == info && layer == null
    {
      this.info := info;
      layer := null;
    }

    /** Position of a property, or the number of properties when the plane does not have it. */
    method GetProperty(name: string) returns (i: nat)
      ensures i == FindProp(info.props, name)
    {
      i := 0;
      while i < |info.props|
        invariant i <= |info.props|
        invariant forall k :: 0 <= k < i ==> info.props[k].name != name
      {
        if info.props[i].name == name {
          return;
        }
        i := i + 1;
      }
    }

    method SetPropStr(req: Request, name: string, value: uint64) returns (ret: int)
      requires req.Valid()
      modifies req
      ensures req.Valid() && ret == if PropId(info, name).Some? then 0 else -EINVAL
      ensures req.Contents() ==
              if PropId(info, name).Some? then old(req.Contents()) + [Entry(info.id, PropId(info, name).value, value)]
              else old(req.Contents())
    {
      var i := GetProperty(name);
      if i == |info.props| {
        return -EINVAL;
      }
      req.AddProperty(info.id, info.props[i].id, value);
      return 0;
    }

    /** plane_apply(plane, NULL, req). There is no rollback when only FB_ID could be written. */
    method Disable(req: Request) returns (ret: int)
      requires req.Valid()
      modifies req
      ensures req.Valid()
      ensures ret == if HasBasics(info) then 0 else -EINVAL
      ensures HasBasics(info) ==> req.Contents() == old(req.Contents()) + DisableWrites(info)
      ensures PropId(info, FB_ID).None? ==> req.Contents() == old(req.Contents())
      ensures PropId(info, FB_ID).Some? && PropId(info, CRTC_ID).None? ==>
        req.Contents() == old(req.Contents()) + [Entry(info.id, PropId(info, FB_ID).value, 0)]
    {
      ret := SetPropStr(req, FB_ID, 0);
      if ret != 0 {
        return;
      }
      ret := SetPropStr(req, CRTC_ID, 0);
    }

    /** One round of plane_apply's loop. */
    method SetLayerProp(req: Request, p: LayerProp) returns (ret: int)
      requires req.Valid()
      modifies req
      ensures req.Valid() && ret == if PropFits(info, p) then 0 else -EINVAL
      ensures req.Contents() == old(req.Contents()) + PropWrite(info, p)
    {
      if p.name == ZPOS {
        return 0;
      }
      var k := GetProperty(p.name);
      if k == |info.props| {
        if p.name == ALPHA && p.value == OPAQUE_ALPHA {
          return 0;
        }
        if p.name == ROTATION && p.value == ROTATE_0 {
          return 0;
        }
        return -EINVAL;
      }
      req.AddProperty(info.id, info.props[k].id, p.value);
      return 0;
    }

    /** plane_apply's loop, up to the first property that does not fit. */
    method SetLayerProps(req: Request, props: seq<LayerProp>) returns (ret: int)
      requires req.Valid()
      modifies req
      ensures req.Valid() && old(req.Contents()) <= req.Contents()
      ensures ret == if Supports(info, props) then 0 else -EINVAL
      ensures ret == 0 ==> req.Contents() == old(req.Contents()) + PropWrites(info, props)
    {
      ghost var start := req.Contents();
      ret := 0;
      var i := 0;
      while i < |props|
        invariant i <= |props| && req.Valid() && ret == 0
        invariant req.Contents() == start + PropWrites(info, props[..i])
        invariant forall k {:trigger PropFits(info, props[k])} :: 0 <= k < i ==> PropFits(info, props[k])
      {
        assert props[..i + 1][..i] == props[..i];
        ret := SetLayerProp(req, props[i]);
        if ret != 0 {
          return;
        }
        i := i + 1;
      }
      assert props[..i] == props;
    }

    /** plane_apply with a layer: all its writes, or an error and none of them. */
    method Enable(layer: Layer, req: Request) returns (ret: int)
      requires req.Valid()
      modifies req
      ensures req.Valid()
      ensures ret == if PropId(info, CRTC_ID).Some? && Supports(info, layer.props) then 0 else -EINVAL
      ensures req.Contents() ==
              if ret == 0 then old(req.Contents()) + EnableWrites(info, layer.output.crtcId, layer.props)
              else old(req.Contents())
    {
      hide Supports, PropWrites, PropId, Only;
      var cursor := req.cursor;
      ghost var start := req.Contents();
      ret := SetPropStr(req, CRTC_ID, layer.output.crtcId);
      if ret != 0 {
        return;
      }
      ghost var begun := req.Contents();
      ret := SetLayerProps(req, layer.props);
      if ret != 0 {
        assert start == begun[..cursor];
        req.SetCursor(cursor);
      }
    }

    method Apply(layer: Layer?, req: Request) returns (ret: int)
      requires req.Valid()
      modifies req
      ensures req.Valid()
      ensures layer == null ==>
        && ret == (if HasBasics(info) then 0 else -EINVAL)
        && (ret == 0 ==> req.Contents() == old(req.Contents()) + DisableWrites(info))
        && old(req.Contents()) <= req.Contents()
      ensures layer != null ==>
        && ret == (if PropId(info, CRTC_ID).Some? && Supports(info, layer.props) then 0 else -EINVAL)
        && req.Contents() ==
           if ret == 0 then old(req.Contents()) + EnableWrites(info, layer.output.crtcId, layer.props)
           else old(req.Contents())
    {
      if layer == null {
        ret := Disable(req);
      } else {
        ret := Enable(layer, req);
      }
    }
  }

  function Infos(planes: seq<Plane>): (r: seq<PlaneInfo>)
    ensures |r| == |planes|
    ensures forall i :: 0 <= i < |planes| ==> r[i] == planes[i].info
  {
    seq(|planes|, i requires 0 <= i < |planes| => planes[i].info)
  }

  lemma InfosDropped(planes: seq<Plane>, k: nat)
    requires k < |planes|
    ensures Infos(Dropped(planes, k)) == Dropped(Infos(planes), k)
  {
  }

  lemma PlanesShrink(planes: seq<Plane>, k: nat)
    requires Distinct(planes) && k < |planes| && DistinctIds(Infos(planes)) && Sorted(Infos(planes))
    ensures var t := Unlinked(planes, planes[k]);
            && Distinct(t) && DistinctIds(Infos(t)) && Sorted(Infos(t))
            && forall p :: p in t <==> p in planes && p != planes[k]
  {
    UnlinkedMembers(planes, planes[k]);
    UnlinkedIsDropped(planes, k);
    DroppedStaysSorted(Infos(planes), k);
    InfosDropped(planes, k);
  }

  lemma PlanesGrow(planes: seq<Plane>, i: nat, plane: Plane)
    requires Distinct(planes) && i <= |planes| && plane !in planes
    ensures Infos(InsertedAt(planes, i, plane)) == InsertedAt(Infos(planes), i, plane.info)
    ensures forall p :: p in InsertedAt(planes, i, plane) <==> p == plane || p in planes
    ensures Distinct(InsertedAt(planes, i, plane))
  {
    var t := InsertedAt(planes, i, plane);
    forall p | p in planes
      ensures p in t
    {
      var k :| 0 <= k < |planes| && planes[k] == p;
      assert t[if k < i then k else k + 1] == p;
    }
    assert t[i] == plane;
  }

  class Layer {
    const output: Output
    var props: seq<LayerProp>
    var forceComposition: bool
    var plane: Plane?
    var changed: bool

    constructor (output: Output)
      ensures this.output == output
      ensures props == [] && !forceComposition && plane == null && !changed
    {
      this.output := output;
      props, forceComposition, plane, changed := [], false, null, false;
    }

    function State(): LayerState
      reads this
    {
      LayerState(props, forceComposition, changed)
    }

    /** The layer is number `j` of its output, which is one of a consistent device. */
    ghost predicate ListedAt(j: nat)
      reads output, output.device, output.device.planes, output.device.outputs, output.device.AllLayers()
    {
      output.device.Valid() && output in output.device.outputs &&
      j < |output.layers| && output.layers[j] == this
    }

    /** Position of a property, or the number of properties when the layer does not have it. */
    method GetProperty(name: string) returns (i: nat)
      ensures i == Find(props, name)
    {
      i := 0;
      while i < |props|
        invariant i <= |props|
        invariant forall k :: 0 <= k < i ==> props[k].name != name
      {
        if props[i].name == name {
          return;
        }
        i := i + 1;
      }
    }

    /** The body of set_property: what it does to the layer itself. */
    method Assign(name: string, value: uint64) returns (ret: int)
      modifies this`props, this`changed, this`forceComposition
      ensures ret == if name == CRTC_ID then -EINVAL else 0
      ensures State() == SetLayerProperty(old(State()), name, value)
    {
      if name == CRTC_ID {
        return -EINVAL;
      }
      var i := GetProperty(name);
      if i == |props| {
        props := props + [LayerProp(Stored(name), 0, 0)];
        changed := true;
      }
      props := props[i := props[i].(value := value)];
      if name == FB_ID && forceComposition {
        forceComposition := false;
        changed := true;
      }
      return 0;
    }

    method SetProperty(name: string, value: uint64, ghost j: nat) returns (ret: int)
      requires ListedAt(j)
      modifies this`props, this`changed, this`forceComposition
      ensures ret == if name == CRTC_ID then -EINVAL else 0
      ensures ListedAt(j)
      ensures View(output) == Edited(Op.SetProperty(j, name, value), old(View(output)))
      ensures forall o :: o in output.device.outputs && o != output ==> View(o) == old(View(o))
    {
      ghost var before := View(output);
      ret := Assign(name, value);
      assert output.device.Linked();
      LayerReplaced(output, j, before);
    }

    /** The body of set_fb_composited. */
    method Force()
      modifies this`props, this`changed, this`forceComposition
      ensures State() == SetLayerComposited(old(State()))
    {
      if forceComposition {
        return;
      }
      var _ := Assign(FB_ID, 0);
      forceComposition := true;
      changed := true;
    }

    method SetFbComposited(ghost j: nat)
      requires ListedAt(j)
      modifies this`props, this`changed, this`forceComposition
      ensures ListedAt(j)
      ensures View(output) == Edited(Op.SetFbComposited(j), old(View(output)))
      ensures forall o :: o in output.device.outputs && o != output ==> View(o) == old(View(o))
    {
      ghost var before := View(output);
      Force();
      assert output.device.Linked();
      LayerReplaced(output, j, before);
    }

    method MarkClean()
      modifies this`changed, this`props
      ensures State() == MarkedClean(old(State()))
    {
      changed := false;
      var i := 0;
      while i < |props|
        invariant i <= |props| == |old(props)|
        invariant forall k :: 0 <= k < i ==> props[k] == old(props)[k].(prevValue := old(props)[k].value)
        invariant forall k :: i <= k < |props| ==> props[k] == old(props)[k]
        invariant !changed
      {
        props := props[i := props[i].(prevValue := props[i].value)];
        i := i + 1;
      }
    }

    method NeedsReallocation() returns (b: bool)
      ensures b == NeedsRealloc(State())
    {
      if changed {
        return true;
      }
      var i := 0;
      while i < |props|
        invariant i <= |props|
        invariant forall k :: 0 <= k < i ==> !PropNeedsRealloc(props[k])
      {
        var p := props[i];
        i := i + 1;
        if p.value == p.prevValue {
          continue;
        }
        if p.name == FB_ID {
          if p.value == 0 || p.prevValue == 0 {
            assert PropNeedsRealloc(props[i - 1]);
            return true;
          }
          continue;
        }
        if p.name == ALPHA {
          if p.value == 0 || p.prevValue == 0 || p.value == OPAQUE_ALPHA || p.prevValue == OPAQUE_ALPHA {
            assert PropNeedsRealloc(props[i - 1]);
            return true;
          }
          continue;
        }
        if p.name == IN_FENCE_FD || p.name == FB_DAMAGE_CLIPS {
          continue;
        }
        assert PropNeedsRealloc(props[i - 1]);
        return true;
      }
      return false;
    }

    predicate NeedsComposition()
      reads this
    {
      Props.Visible(props, forceComposition) && plane == null
    }

    /** The body of layer_destroy. */
    method Unlink(ghost j: nat)
      requires ListedAt(j)
      modifies output, if plane == null then {} else {plane}
      ensures output.layersChanged && output.layers == Unlinked(old(output.layers), this)
      ensures output.compositionLayer ==
              if old(output.compositionLayer) == this then null else old(output.compositionLayer)
      ensures GivenUp(this, old(Holders(output.device.planes)), Holders(output.device.planes))
      ensures output.device.Valid()
    {
      UnlinkedMembers(output.layers, this);
      output.layersChanged := true;
      if plane != null {
        plane.layer := null;
      }
      if output.compositionLayer == this {
        output.compositionLayer := null;
      }
      output.layers := Unlinked(output.layers, this);
      assert output.device.OutputsOk();
      assert output.device.Linked();
    }

    /** Takes the layer out of its output. The object itself is gone afterwards. */
    method Destroy(ghost j: nat)
      requires ListedAt(j)
      modifies output, if plane == null then {} else {plane}
      ensures output.device.Valid()
      ensures output.layers == Unlinked(old(output.layers), this)
      ensures View(output) == Edited(Op.DestroyLayer(j), old(View(output)))
      ensures forall o :: o in output.device.outputs && o != output ==> View(o) == old(View(o))
    {
      ghost var before, layers, comp := View(output), output.layers, output.compositionLayer;
      ghost var d := output.device;
      ghost var held := Holders(d.planes);
      Unlink(j);
      forall o | o in d.outputs && o != output
        ensures View(o) == old(View(o))
      {
        OthersKeepMapping(this, o, held);
      }
      DestroyedView(this, j, layers, comp, before, held);
    }
  }

  class Output {
    const device: Device
    const crtcId: uint32
    const crtcIndex: nat
    var compositionLayer: Layer?
    var layers: seq<Layer>
    var layersChanged: bool

    constructor (device: Device, crtcId: uint32, crtcIndex: nat)
      ensures this.device == device && this.crtcId == crtcId && this.crtcIndex == crtcIndex
      ensures compositionLayer == null && layers == [] && !layersChanged
    {
      this.device, this.crtcId, this.crtcIndex := device, crtcId, crtcIndex;
      compositionLayer, layers, layersChanged := null, [], false;
    }

    ghost predicate Ok()
      reads this
    {
      && crtcIndex < 32
      && Distinct(layers)
      && (forall l :: l in layers ==> l.output == this)
      && (compositionLayer != null ==> compositionLayer in layers)
    }

    method CreateLayer() returns (l: Layer)
      requires device.Valid() && this in device.outputs
      modifies this`layers, this`layersChanged
      ensures device.Valid() && fresh(l) && l.output == this && layers == old(layers) + [l]
      ensures View(this) == Edited(Op.CreateLayer, old(View(this)))
      ensures forall o :: o in device.outputs && o != this ==> View(o) == old(View(o))
    {
      ghost var before := View(this);
      l := new Layer(this);
      layers := layers + [l];
      layersChanged := true;
      assert Distinct(layers);
      forall i | 0 <= i < |device.planes|
        ensures IndexOf(layers, device.planes[i].layer) == IndexOf(old(layers), device.planes[i].layer)
      {
        IndexOfAppended(old(layers), l, device.planes[i].layer);
      }
      IndexOfAppended(old(layers), l, compositionLayer);
      assert View(this).layers == Edited(Op.CreateLayer, before).layers;
      assert View(this).mapping == before.mapping;
    }

    method SetCompositionLayer(layer: Layer, ghost j: nat)
      requires layer.output == this && layer.ListedAt(j)
      modifies this`compositionLayer, this`layersChanged
      ensures device.Valid() && compositionLayer == layer
      ensures View(this) == Edited(Op.SetCompositionLayer(j), old(View(this)))
      ensures forall o :: o in device.outputs && o != this ==> View(o) == old(View(o))
    {
      if layer != compositionLayer {
        layersChanged := true;
      }
      compositionLayer := layer;
      IndexUnique(layers, j);
    }

    method NeedsComposition() returns (b: bool)
      ensures b <==> exists l :: l in layers && l.NeedsComposition()
    {
      var i := 0;
      while i < |layers|
        invariant i <= |layers|
        invariant forall k :: 0 <= k < i ==> !layers[k].NeedsComposition()
      {
        if layers[i].NeedsComposition() {
          return true;
        }
        i := i + 1;
      }
      return false;
    }
  }

  class Device {
    var planes: seq<Plane>
    var outputs: seq<Output>
    const crtcs: seq<uint32>
    const kernel: Kernel

    ghost function AllLayers(): set<Layer>
      reads this, outputs
    {
      set o, l | o in outputs && l in o.layers :: l
    }

    ghost predicate Listed()
      reads this
    {
      Distinct(planes) && DistinctIds(Infos(planes)) && Sorted(Infos(planes))
    }

    ghost predicate PlanesOk()
      reads this
    {
      Listed() && forall p {:trigger HasBasics(p.info)} :: p in planes ==> HasBasics(p.info)
    }

    ghost predicate OutputsOk()
      reads this, outputs
    {
      && Distinct(outputs)
      && forall o :: o in outputs ==> o.device == this && o.Ok()
    }

    /** plane.layer == l if and only if l.plane == plane */
    ghost predicate Linked()
      reads this, planes, outputs, AllLayers()
    {
      && (forall p :: p in planes && p.layer != null ==>
            p.layer.output in outputs && p.layer in p.layer.output.layers && p.layer.plane == p)
      && (forall o, l :: o in outputs && l in o.layers && l.plane != null ==>
            l.plane in planes && l.plane.layer == l)
    }

    /** Everything but the properties of the planes is as it should be. */
    ghost predicate Ordered()
      reads this, planes, outputs, AllLayers()
    {
      Listed() && OutputsOk() && Linked()
    }

    ghost predicate Valid()
      reads this, planes, outputs, AllLayers()
    {
      PlanesOk() && OutputsOk() && Linked()
    }

    constructor (crtcs: seq<uint32>, kernel: Kernel)
      ensures Valid() && planes == [] && outputs == [] && this.crtcs == crtcs && this.kernel == kernel
    {
      this.crtcs, this.kernel := crtcs, kernel;
      planes, outputs := [], [];
    }

    method FindCrtc(crtcId: uint32) returns (i: nat)
      ensures i <= |crtcs| && crtcId !in crtcs[..i] && (i < |crtcs| ==> crtcs[i] == crtcId)
    {
      i := 0;
      while i < |crtcs| && crtcs[i] != crtcId
        invariant i <= |crtcs| && crtcId !in crtcs[..i]
      {
        i := i + 1;
      }
    }

    method CreateOutput(crtcId: uint32) returns (o: Output?)
      requires Valid()
      modifies this`outputs
      ensures o == null || o.crtcIndex < 32 ==> Valid()
      ensures o == null <==> crtcId !in crtcs
      ensures o == null ==> outputs == old(outputs)
      ensures o != null ==> fresh(o) && outputs == [o] + old(outputs) && o.device == this
      ensures o != null && o.crtcIndex < 32 ==> Initial(View(o))
      ensures o != null ==>
        o.crtcId == crtcId && o.crtcIndex < |crtcs| && crtcs[o.crtcIndex] == crtcId && crtcId !in crtcs[..o.crtcIndex]
      ensures forall o' :: o' in old(outputs) ==> View(o') == old(View(o'))
    {
      var i := FindCrtc(crtcId);
      if i == |crtcs| {
        return null;
      }
      o := new Output(this, crtcId, i);
      outputs := [o] + outputs;
      assert forall o' :: o' in outputs <==> o' == o || o' in old(outputs);
      assert i < 32 ==> OutputsOk();
      assert Linked();
    }

    /** Puts the plane into its slot. */
    method Add(plane: Plane)
      requires Ordered() && plane.layer == null && plane !in planes
      requires forall p :: p in planes ==> p.info.id != plane.info.id
      modifies this`planes
      ensures Ordered() && (old(Valid()) && HasBasics(plane.info) ==> Valid())
      ensures planes == InsertedAt(old(planes), Slot(old(Infos(planes)), plane.info), plane)
      ensures Infos(planes) == InsertedAt(old(Infos(planes)), Slot(old(Infos(planes)), plane.info), plane.info)
      ensures forall p :: p in planes <==> p == plane || p in old(planes)
    {
      ghost var infos := Infos(planes);
      var i := 0;
      while i < |planes| && !GoesBefore(plane.info, planes[i].info)
        invariant i <= |planes|
        invariant forall k :: 0 <= k < i ==> !GoesBefore(plane.info, infos[k])
      {
        i := i + 1;
      }
      assert i == Slot(infos, plane.info);
      InsertKeepsOrder(infos, plane.info);
      InsertKeepsIds(infos, i, plane.info);
      PlanesGrow(planes, i, plane);
      planes := InsertedAt(planes, i, plane);
      assert Listed();
    }

    method CreatePlane(r: DrmPlane) returns (plane: Plane?, errno: int)
      requires Ordered()
      modifies this`planes
      ensures Ordered() && (old(Valid()) && (plane == null || HasBasics(plane.info)) ==> Valid())
      ensures Infos(planes) == Registered(old(Infos(planes)), r)
      ensures plane == null <==> planes == old(planes)
      ensures plane == null ==>
        errno == if (exists p :: p in old(planes) && p.info.id == r.id) then EEXIST else EINVAL
      ensures plane != null ==> fresh(plane) && plane.layer == null
      ensures plane != null ==> forall p :: p in planes <==> p == plane || p in old(planes)
      ensures plane == null ==> forall o :: o in outputs ==> View(o) == old(View(o))
      ensures plane != null ==>
        Described(old(Infos(planes)), r) == Some(plane.info) &&
        forall o :: o in outputs ==>
          View(o) == WithPlane(old(View(o)), Slot(old(Infos(planes)), plane.info), plane.info)
    {
      hide WithPlane, View, Sorted, DistinctIds;
      ghost var infos := Infos(planes);
      errno := 0;
      var i := 0;
      while i < |planes|
        invariant i <= |planes|
        invariant forall k :: 0 <= k < i ==> planes[k].info.id != r.id
      {
        if planes[i].info.id == r.id {
          assert infos[i].id == r.id;
          return null, EEXIST;
        }
        i := i + 1;
      }
      var d := Described(Infos(planes), r);
      if d.None? {
        return null, EINVAL;
      }
      plane := new Plane(d.value);
      Register(plane);
    }

    /** Puts the plane into its slot; every output sees one more empty plane there. */
    method Register(plane: Plane)
      requires Ordered() && plane.layer == null && plane !in planes
      requires forall p :: p in planes ==> p.info.id != plane.info.id
      modifies this`planes
      ensures Ordered() && (old(Valid()) && HasBasics(plane.info) ==> Valid())
      ensures Infos(planes) == InsertedAt(old(Infos(planes)), Slot(old(Infos(planes)), plane.info), plane.info)
      ensures forall p :: p in planes <==> p == plane || p in old(planes)
      ensures forall o :: o in outputs ==>
        View(o) == WithPlane(old(View(o)), Slot(old(Infos(planes)), plane.info), plane.info)
    {
      hide Distinct, DistinctIds, Sorted, HasBasics, IndexOf, Choices, Holders, Infos, InsertedAt, Device.PlanesOk,
        Device.Listed, Device.Linked;
      ghost var holders, k := Holders(planes), Slot(Infos(planes), plane.info);
      Add(plane);
      HoldersInserted(old(planes), planes, k, plane, holders);
      forall o | o in outputs
        ensures View(o) == WithPlane(old(View(o)), k, plane.info)
      {
        PlaneInserted(o, k, plane.info, old(View(o)), holders);
      }
    }

    /** The body of plane_destroy. */
    method Detach(plane: Plane, ghost k: nat)
      requires Valid() && k < |planes| && planes[k] == plane
      modifies this`planes, (if plane.layer == null then {} else {plane.layer})`plane
      ensures Valid() && planes == Dropped(old(planes), k)
      ensures old(plane.layer) != null ==> old(plane.layer).plane == null
    {
      hide HasBasics, DistinctIds, Sorted, Unlinked, Dropped, Infos;
      PlanesShrink(planes, k);
      UnlinkedIsDropped(planes, k);
      if plane.layer != null {
        plane.layer.plane := null;
      }
      planes := Unlinked(planes, plane);
      assert PlanesOk();
      assert OutputsOk();
      assert Linked();
    }

    /** Takes a plane off the device; the layer on it loses its plane. */
    method DestroyPlane(plane: Plane, ghost k: nat)
      requires Valid() && k < |planes| && planes[k] == plane
      modifies this`planes, (if plane.layer == null then {} else {plane.layer})`plane
      ensures Valid() && planes == Dropped(old(planes), k)
      ensures old(plane.layer) != null ==> old(plane.layer).plane == null
      ensures forall o :: o in outputs ==> View(o) == WithoutPlane(old(View(o)), k)
    {
      hide Distinct, DistinctIds, Sorted, HasBasics, IndexOf, Choices, Holders, Infos, Dropped, Device.PlanesOk,
        Device.Linked;
      ghost var holders := Holders(planes);
      InfosDropped(planes, k);
      Detach(plane, k);
      HoldersDropped(old(planes), planes, k, holders);
      forall o | o in outputs
        ensures View(o) == WithoutPlane(old(View(o)), k)
      {
        PlaneDropped(o, k, old(View(o)), holders);
      }
    }
  }

  /** All that one output holds, as a value. */
  ghost function View(o: Output): (v: OutputState)
    reads o, o.device, o.device.planes, o.layers
    ensures |v.layers| == |o.layers| && |v.mapping| == |o.device.planes|
  {
    OutputState(Infos(o.device.planes),
                seq(|o.layers|, j requires 0 <= j < |o.layers| reads o, o.layers => o.layers[j].State()),
                IndexOf(o.layers, o.compositionLayer), o.crtcIndex, o.crtcId, o.layersChanged,
                Choices(o.layers, Holders(o.device.planes)))
  }

  /** The layers on the planes. */
  function Holders(planes: seq<Plane>): (r: seq<Layer?>)
    reads planes
    ensures |r| == |planes|
    ensures forall i :: 0 <= i < |r| ==> r[i] == planes[i].layer
  {
    seq(|planes|, i requires 0 <= i < |planes| reads planes => planes[i].layer)
  }

  /** Layers as positions in a list. */
  ghost function Choices(layers: seq<Layer>, a: seq<Layer?>): (r: Alloc)
    ensures |r| == |a|
    ensures forall i :: 0 <= i < |a| ==> r[i] == IndexOf(layers, a[i])
  {
    seq(|a|, i requires 0 <= i < |a| => IndexOf(layers, a[i]))
  }

  lemma ViewConsistent(o: Output)
    requires o.device.Valid() && o in o.device.outputs
    ensures Consistent(View(o))
  {
  }

  /** Only the state of layer number `j` changed. */
  lemma LayerReplaced(o: Output, j: nat, before: OutputState)
    requires j < |o.layers| && |before.layers| == |o.layers|
    requires View(o).(layers := []) == before.(layers := [])
    requires forall k :: 0 <= k < |o.layers| && k != j ==> o.layers[k].State() == before.layers[k]
    ensures View(o) == before.(layers := before.layers[j := o.layers[j].State()])
  {
    assert View(o).layers == before.layers[j := o.layers[j].State()];
  }

  lemma HoldersInserted(before: seq<Plane>, now: seq<Plane>, k: nat, plane: Plane, holders: seq<Layer?>)
    requires k <= |before| == |holders| && now == InsertedAt(before, k, plane) && plane.layer == null
    requires forall i :: 0 <= i < |before| ==> holders[i] == before[i].layer
    ensures Holders(now) == InsertedAt(holders, k, null)
  {
  }

  /** An empty plane came in front of plane number `k`, and nothing else changed for the output. */
  lemma PlaneInserted(o: Output, k: nat, info: PlaneInfo, before: OutputState, holders: seq<Layer?>)
    requires k <= |before.planes| == |holders| && before.mapping == Choices(o.layers, holders)
    requires Infos(o.device.planes) == InsertedAt(before.planes, k, info)
    requires Holders(o.device.planes) == InsertedAt(holders, k, null)
    requires View(o).(planes := before.planes, mapping := before.mapping) == before
    ensures View(o) == WithPlane(before, k, info)
  {
    assert View(o).mapping == WithPlane(before, k, info).mapping;
  }

  lemma HoldersDropped(before: seq<Plane>, now: seq<Plane>, k: nat, holders: seq<Layer?>)
    requires k < |before| == |holders| && now == Dropped(before, k)
    requires forall i :: 0 <= i < |before| && i != k ==> holders[i] == before[i].layer
    ensures Holders(now) == Dropped(holders, k)
  {
  }

  /** Plane number `k` went, and nothing else of what the output holds. */
  lemma PlaneDropped(o: Output, k: nat, before: OutputState, holders: seq<Layer?>)
    requires k < |before.planes| == |holders| && before.mapping == Choices(o.layers, holders)
    requires Infos(o.device.planes) == Dropped(before.planes, k) && Holders(o.device.planes) == Dropped(holders, k)
    requires View(o).(planes := before.planes, mapping := before.mapping) == before
    ensures View(o) == WithoutPlane(before, k)
  {
    assert View(o).mapping == WithoutPlane(before, k).mapping;
  }

  /** The layer's plane gave it up and the other planes hold what they held. */
  ghost predicate GivenUp(l: Layer, held: seq<Layer?>, now: seq<Layer?>) {
    && |now| == |held|
    && forall i :: 0 <= i < |held| ==> now[i] == if held[i] == l then null else held[i]
  }

  lemma OthersKeepMapping(l: Layer, o: Output, held: seq<Layer?>)
    requires l !in o.layers && GivenUp(l, held, Holders(o.device.planes))
    ensures View(o).mapping == Choices(o.layers, held)
  {
  }

  lemma IndexWithout(layers: seq<Layer>, j: nat, c: Layer?)
    requires Distinct(layers) && j < |layers|
    ensures IndexOf(Dropped(layers, j), if c == layers[j] then null else c) == Without(IndexOf(layers, c), j)
  {
    if c == layers[j] {
      IndexUnique(layers, j);
    } else {
      IndexOfDropped(layers, j, c);
    }
  }

  lemma DestroyedView(l: Layer, j: nat, layers: seq<Layer>, comp: Layer?, before: OutputState, held: seq<Layer?>)
    requires Distinct(layers) && j < |layers| && layers[j] == l
    requires l.output.layers == Unlinked(layers, l) && l.output.layersChanged
    requires |before.layers| == |layers| && before.mapping == Choices(layers, held)
    requires forall k :: 0 <= k < |layers| ==> layers[k].State() == before.layers[k]
    requires GivenUp(l, held, Holders(l.output.device.planes))
    requires before.comp == IndexOf(layers, comp) && l.output.compositionLayer == if comp == l then null else comp
    requires before.planes == Infos(l.output.device.planes)
    requires before.crtcIndex == l.output.crtcIndex && before.crtcId == l.output.crtcId
    ensures View(l.output) == Edited(Op.DestroyLayer(j), before)
  {
    hide WithPlane, SetLayerProperty, SetLayerComposited, HasBasics, IndexOf, Without, Distinct, Unlinked;
    var o := l.output;
    var after := Edited(Op.DestroyLayer(j), before);
    UnlinkedIsDropped(layers, j);
    forall k | 0 <= k < |o.layers|
      ensures o.layers[k].State() == after.layers[k]
    {
      assert o.layers[k] == layers[Shifted(j, k)];
    }
    assert View(o).layers == after.layers;
    forall i | 0 <= i < |held|
      ensures View(o).mapping[i] == after.mapping[i]
    {
      IndexWithout(layers, j, held[i]);
    }
    assert View(o).mapping == after.mapping;
    IndexWithout(layers, j, comp);
  }
}
