/**
 * The view controller of each globe in the multi-view frame (RescModel):
 * which data layer a view shows, the elevation and time sliders it builds for
 * that layer and links to the other views' sliders, how slider events are
 * routed to the layer, and which views receive a point query.
 *
 * The frame's list of views (MultiGlobeFrame.getAllModels) is a sequence and
 * a view is named by its index in it. Slider widgets, data layers and the
 * linked-view state are abstract: a slider is its limits, value, range,
 * orientation and links; a data layer is its kind, its cursor and the calls
 * made on it.
 */
module Views {
  import opened Edal
  import opened LayerNames
  import opened Catalogue

  const ElevationSliderId: string := "depth-slider"
  const TimeSliderId: string := "time-slider"

  /** An EdalGridDataLayer or an EdalProfileDataLayer. */
  datatype LayerKind = Grid | Profile

  /** A call made on a data layer. */
  datatype LayerCall =
    | SetElevationCall(elevation: real, range: Extent<real>)
    | SetTimeCall(time: int, timeRange: Extent<int>)
    | CacheFromCurrentCall
    | DestroyCall

  /** A data layer: its kind, the layer it shows, its metadata, the elevation
      and time it currently plots, and every call made on it, in order. */
  datatype DataLayer = DataLayer(
    kind: LayerKind, name: string, metadata: Option<VariableMetadata>,
    elevation: real, time: int, calls: seq<LayerCall>)
  {
    function SetElevation(z: real, range: Extent<real>): (r: DataLayer)
      ensures r.elevation == z && r.calls == calls + [SetElevationCall(z, range)]
      ensures r.kind == kind && r.name == name && r.metadata == metadata && r.time == time
    {
      this.(elevation := z, calls := calls + [SetElevationCall(z, range)])
    }

    function SetTime(t: int, range: Extent<int>): (r: DataLayer)
      ensures r.time == t && r.calls == calls + [SetTimeCall(t, range)]
      ensures r.kind == kind && r.name == name && r.metadata == metadata && r.elevation == elevation
    {
      this.(time := t, calls := calls + [SetTimeCall(t, range)])
    }

    function CacheFromCurrent(): (r: DataLayer)
      ensures r == this.(calls := calls + [CacheFromCurrentCall])
    {
      this.(calls := calls + [CacheFromCurrentCall])
    }

    function Destroy(): (r: DataLayer)
      ensures r == this.(calls := calls + [DestroyCall])
    {
      this.(calls := calls + [DestroyCall])
    }
  }

  /** A SliderWidgetAnnotation: its id, limits, value, selected range, whether
      it runs downwards, and the views whose sliders it is linked to. */
  datatype Slider = Slider(
    id: string, low: real, high: real, value: real, range: Extent<real>,
    reversed: bool, links: set<nat>)

  /** A slider as created: its range spans its limits, it is not reversed
      and not linked. */
  function NewSlider(id: string, low: real, high: real): (s: Slider)
    ensures s.id == id && s.low == low && s.high == high && !s.reversed && s.links == {}
  {
    Slider(id, low, high, low, Extent(low, high), false, {})
  }

  predicate EqualLimits(a: Slider, b: Slider) {
    a.low == b.low && a.high == b.high
  }

  /** getSliderRange converted to milliseconds with `longValue`. */
  function MillisRange(r: Extent<real>): (m: Extent<int>)
    ensures m.low == Truncate(r.low) && m.high == Truncate(r.high)
  {
    Extent(Truncate(r.low), Truncate(r.high))
  }

  datatype LinkedViewState = Unlinked | Linked | Antilinked

  /** One RescModel: its data layer and layer name, its sliders, the units of
      its elevation axis, the linked-view state of its window, and the layers
      it has destroyed, in order. */
  datatype View = View(
    layer: Option<DataLayer>, layerName: Option<string>,
    elevationSlider: Option<Slider>, timeSlider: Option<Slider>,
    elevationUnits: string, linkState: LinkedViewState, retired: seq<DataLayer>)

  /** A view as constructed: no layer and no sliders. */
  function InitialView(linkState: LinkedViewState): (v: View)
    ensures v.layer.None? && v.layerName.None? && v.elevationSlider.None? && v.timeSlider.None?
    ensures v.elevationUnits == "" && v.linkState == linkState && v.retired == []
  {
    View(None, None, None, None, "", linkState, [])
  }

  /** How an operation ends: normally or with an exception. */
  datatype Outcome = Done | Threw(error: Failure)

  // ---------------------------------------------------------------------------
  // Linking a new slider to the other views' sliders

  datatype Axis = Vertical | Temporal

  function SliderOn(v: View, axis: Axis): Option<Slider> {
    if axis.Vertical? then v.elevationSlider else v.timeSlider
  }

  /** View j is another view whose slider on the axis has the limits of `s`. */
  predicate Partner(views: seq<View>, self: nat, axis: Axis, s: Slider, j: nat)
    requires j < |views|
  {
    j != self && SliderOn(views[j], axis).Some? && EqualLimits(SliderOn(views[j], axis).value, s)
  }

  /** A partner that also shows a data layer: its value is adopted. */
  predicate Adopts(views: seq<View>, self: nat, axis: Axis, s: Slider, j: nat)
    requires j < |views|
  {
    Partner(views, self, axis, s, j) && views[j].layer.Some?
  }

  /** The partner's value applied to the layer: setElevation with the
      partner's range, or setTime with both truncated to milliseconds. */
  function Adopt(axis: Axis, l: DataLayer, partner: Slider): (r: DataLayer)
    ensures axis.Vertical? ==> r == l.SetElevation(partner.value, partner.range)
    ensures axis.Temporal? ==> r == l.SetTime(Truncate(partner.value), MillisRange(partner.range))
  {
    if axis.Vertical? then l.SetElevation(partner.value, partner.range)
    else l.SetTime(Truncate(partner.value), MillisRange(partner.range))
  }

  datatype Linking = Linking(slider: Slider, layer: DataLayer)

  /** One turn of the linking loop, for view j. */
  function LinkStep(views: seq<View>, self: nat, axis: Axis, acc: Linking, j: nat): Linking
    requires j < |views|
  {
    if !Partner(views, self, axis, acc.slider, j) then acc
    else
      var partner := SliderOn(views[j], axis).value;
      var linked := acc.slider.(links := acc.slider.links + {j});
      if views[j].layer.Some? then Linking(linked.(value := partner.value), Adopt(axis, acc.layer, partner))
      else Linking(linked, acc.layer)
  }

  /** The slider and the layer after the linking loop has seen views 0 .. n-1.
      The loop never changes the slider's id, limits, range or orientation,
      nor the layer's identity or its cursor on the other axis. */
  function Link(views: seq<View>, self: nat, axis: Axis, s: Slider, l: DataLayer, n: nat): (r: Linking)
    requires n <= |views|
    ensures r.slider.id == s.id && r.slider.low == s.low && r.slider.high == s.high
    ensures r.slider.range == s.range && r.slider.reversed == s.reversed
    ensures r.layer.kind == l.kind && r.layer.name == l.name && r.layer.metadata == l.metadata
    ensures axis.Vertical? ==> r.layer.time == l.time
    ensures axis.Temporal? ==> r.layer.elevation == l.elevation
    decreases n
  {
    if n == 0 then Linking(s, l)
    else LinkStep(views, self, axis, Link(views, self, axis, s, l, n - 1), n - 1)
  }

  /** The partners among views 0 .. n-1. */
  function PartnerSet(views: seq<View>, self: nat, axis: Axis, s: Slider, n: nat): set<nat>
    requires n <= |views|
  {
    set j: nat | j < n && Partner(views, self, axis, s, j)
  }

  /** The last view before n whose value is adopted, if any. */
  function LastAdopter(views: seq<View>, self: nat, axis: Axis, s: Slider, n: nat): (r: Option<nat>)
    requires n <= |views|
    ensures r.Some? ==> r.value < n && Adopts(views, self, axis, s, r.value)
    ensures r.Some? ==> forall k :: r.value < k < n ==> !Adopts(views, self, axis, s, k)
    ensures r.None? ==> forall k :: 0 <= k < n ==> !Adopts(views, self, axis, s, k)
  {
    if n == 0 then None
    else if Adopts(views, self, axis, s, n - 1) then Some(n - 1)
    else LastAdopter(views, self, axis, s, n - 1)
  }

  /** The layer's cursor on the axis shows the slider value. */
  predicate CursorAt(axis: Axis, l: DataLayer, value: real) {
    if axis.Vertical? then l.elevation == value else l.time == Truncate(value)
  }

  /** The slider is linked to exactly the partners, on top of its old links. */
  lemma {:induction false} LinkedToEveryPartner(views: seq<View>, self: nat, axis: Axis, s: Slider, l: DataLayer, n: nat)
    requires n <= |views|
    ensures Link(views, self, axis, s, l, n).slider.links == s.links + PartnerSet(views, self, axis, s, n)
  {
    if n > 0 {
      LinkedToEveryPartner(views, self, axis, s, l, n - 1);
      var acc := Link(views, self, axis, s, l, n - 1);
      assert Partner(views, self, axis, acc.slider, n - 1) == Partner(views, self, axis, s, n - 1);
      var before := PartnerSet(views, self, axis, s, n - 1);
      if Partner(views, self, axis, s, n - 1) {
        assert PartnerSet(views, self, axis, s, n) == before + {n - 1};
      } else {
        assert PartnerSet(views, self, axis, s, n) == before;
      }
    }
  }

  /** The last partner with a data layer wins: the slider takes its value and
      the layer's cursor follows. With no such partner neither changes. */
  lemma {:induction false} LastAdopterWins(views: seq<View>, self: nat, axis: Axis, s: Slider, l: DataLayer, n: nat)
    requires n <= |views|
    ensures var r := Link(views, self, axis, s, l, n);
      match LastAdopter(views, self, axis, s, n)
      case None => r.slider.value == s.value && r.layer == l
      case Some(j) => r.slider.value == SliderOn(views[j], axis).value.value && CursorAt(axis, r.layer, r.slider.value)
  {
    if n > 0 {
      LastAdopterWins(views, self, axis, s, l, n - 1);
      var acc := Link(views, self, axis, s, l, n - 1);
      assert Partner(views, self, axis, acc.slider, n - 1) == Partner(views, self, axis, s, n - 1);
    }
  }

  // ---------------------------------------------------------------------------
  // addSliders

  /** The elevation slider for a vertical domain: the view's slider with new
      limits, or a new one; reversed unless the axis is positive upwards; set
      to the layer's elevation. */
  function ElevationSliderFor(current: Option<Slider>, vd: VerticalDomain, elevation: real): (s: Slider)
    ensures s.low == vd.extent.low && s.high == vd.extent.high && s.value == elevation
    ensures s.reversed <==> vd.crs.Some? && !vd.crs.value.positiveUpwards
    ensures current.None? ==> s.id == ElevationSliderId && s.links == {}
    ensures current.Some? ==> s.id == current.value.id && s.links == current.value.links
  {
    var base := if current.None? then NewSlider(ElevationSliderId, vd.extent.low, vd.extent.high)
                else current.value.(low := vd.extent.low, high := vd.extent.high);
    base.(reversed := vd.crs.Some? && !vd.crs.value.positiveUpwards, value := elevation)
  }

  /** The time slider for a temporal domain, in milliseconds, set to the
      layer's time. */
  function TimeSliderFor(current: Option<Slider>, td: Extent<int>, time: int): (s: Slider)
    ensures s.low == td.low as real && s.high == td.high as real && s.value == time as real
    ensures current.None? ==> s.id == TimeSliderId && s.links == {} && !s.reversed
    ensures current.Some? ==> s.id == current.value.id && s.links == current.value.links
  {
    var base := if current.None? then NewSlider(TimeSliderId, td.low as real, td.high as real)
                else current.value.(low := td.low as real, high := td.high as real);
    base.(value := time as real)
  }

  /** The elevation units after a vertical domain is shown: those of its CRS
      when it names any, else the previous ones. */
  function UnitsFor(units: string, vd: VerticalDomain): (r: string)
    ensures vd.crs.Some? && vd.crs.value.units.Some? ==> r == vd.crs.value.units.value
    ensures vd.crs.None? || vd.crs.value.units.None? ==> r == units
  {
    if vd.crs.Some? && vd.crs.value.units.Some? then vd.crs.value.units.value else units
  }

  /** View `self` after addSliders(md): a slider for each axis the layer has
      and none for the others, each linked to the other views' sliders. */
  function AddSlidersSpec(views: seq<View>, self: nat, md: VariableMetadata): (r: View)
    requires self < |views| && views[self].layer.Some?
    ensures r.elevationSlider.Some? <==> md.verticalDomain.Some?
    ensures r.timeSlider.Some? <==> md.temporalDomain.Some?
    ensures md.verticalDomain.Some? ==>
      var vd := md.verticalDomain.value;
      && r.elevationSlider.value.low == vd.extent.low && r.elevationSlider.value.high == vd.extent.high
      && (r.elevationSlider.value.reversed <==> vd.crs.Some? && !vd.crs.value.positiveUpwards)
      && r.elevationUnits == UnitsFor(views[self].elevationUnits, vd)
    ensures md.verticalDomain.None? ==> r.elevationUnits == views[self].elevationUnits
    ensures md.temporalDomain.Some? ==>
      r.timeSlider.value.low == md.temporalDomain.value.low as real &&
      r.timeSlider.value.high == md.temporalDomain.value.high as real
    ensures r.layer.Some? && r.layer.value.kind == views[self].layer.value.kind
    ensures r.layer.value.name == views[self].layer.value.name
    ensures r.layerName == views[self].layerName && r.linkState == views[self].linkState
    ensures r.retired == views[self].retired
  {
    var v := views[self];
    var l0 := v.layer.value;
    var vertical :=
      if md.verticalDomain.None? then None
      else Some(Link(views, self, Vertical, ElevationSliderFor(v.elevationSlider, md.verticalDomain.value, l0.elevation), l0, |views|));
    var l1 := if vertical.Some? then vertical.value.layer else l0;
    var temporal :=
      if md.temporalDomain.None? then None
      else Some(Link(views, self, Temporal, TimeSliderFor(v.timeSlider, md.temporalDomain.value, l1.time), l1, |views|));
    var l2 := if temporal.Some? then temporal.value.layer else l1;
    v.(layer := Some(l2),
       elevationSlider := if vertical.Some? then Some(vertical.value.slider) else None,
       timeSlider := if temporal.Some? then Some(temporal.value.slider) else None,
       elevationUnits := if md.verticalDomain.Some? then UnitsFor(v.elevationUnits, md.verticalDomain.value) else v.elevationUnits)
  }

  /** After addSliders each slider shows the layer's cursor on its axis:
      either the layer's own value or the adopted partner value. */
  lemma SlidersShowLayerCursor(views: seq<View>, self: nat, md: VariableMetadata)
    requires self < |views| && views[self].layer.Some?
    ensures var r := AddSlidersSpec(views, self, md);
      && (md.verticalDomain.Some? ==> r.layer.value.elevation == r.elevationSlider.value.value)
      && (md.temporalDomain.Some? ==> r.layer.value.time == Truncate(r.timeSlider.value.value))
  {
    var v := views[self];
    var l0 := v.layer.value;
    var l1 := l0;
    if md.verticalDomain.Some? {
      var s := ElevationSliderFor(v.elevationSlider, md.verticalDomain.value, l0.elevation);
      LastAdopterWins(views, self, Vertical, s, l0, |views|);
      l1 := Link(views, self, Vertical, s, l0, |views|).layer;
    }
    if md.temporalDomain.Some? {
      var s := TimeSliderFor(v.timeSlider, md.temporalDomain.value, l1.time);
      LastAdopterWins(views, self, Temporal, s, l1, |views|);
      TruncateIntegral(l1.time);
    }
  }

  // ---------------------------------------------------------------------------
  // setDataLayer

  /** The map feature type of the named layer's variable: the layer name must
      split into two parts, the dataset must be loaded and report a type for
      the variable, or the lookup throws. */
  function FeatureTypeOf(catalogue: VideoWallCatalogue, name: string): (r: Result<FeatureType>)
    reads catalogue
    ensures ParseLayerName(name).Err? ==> r == Err(LayerNotFound)
    ensures ParseLayerName(name).Ok? ==>
      var ref := ParseLayerName(name).value;
      && (ref.datasetId !in catalogue.datasets ==> r == Err(NullPointer))
      && (ref.datasetId in catalogue.datasets ==>
            var types := catalogue.datasets[ref.datasetId].mapFeatureTypes;
            r == if ref.variableId in types then Ok(types[ref.variableId]) else Err(NullPointer))
  {
    match catalogue.GetDatasetFromLayerName(name)
    case Err(e) => Err(e)
    case Ok(None) => Err(NullPointer)
    case Ok(Some(ds)) =>
      var varId := GetVariableIdFromLayerName(name).value;
      if varId in ds.mapFeatureTypes then Ok(ds.mapFeatureTypes[varId]) else Err(NullPointer)
  }

  /** What constructing the new grid or profile layer yields: its metadata
      and the elevation and time it starts at. */
  datatype LayerStart = LayerStart(metadata: Option<VariableMetadata>, elevation: real, time: int)

  datatype Step = Step(views: seq<View>, outcome: Outcome)

  /** The view's layers destroyed so far, plus its current one. */
  function Retire(v: View): (r: seq<DataLayer>)
    ensures v.layer.None? ==> r == v.retired
    ensures v.layer.Some? ==> r == v.retired + [v.layer.value.Destroy()]
  {
    if v.layer.Some? then v.retired + [v.layer.value.Destroy()] else v.retired
  }

  /** The views once the new layer is in place in view `self`: the old layer
      destroyed, sliders built from the new layer's metadata when it has any,
      and the name recorded. */
  function Install(views: seq<View>, self: nat, name: string, kind: LayerKind, start: LayerStart): (r: seq<View>)
    requires self < |views|
    ensures |r| == |views| && forall j :: 0 <= j < |views| && j != self ==> r[j] == views[j]
    ensures r[self].layerName == Some(name) && r[self].retired == Retire(views[self])
    ensures r[self].layer.Some? && r[self].layer.value.kind == kind && r[self].layer.value.name == name
    ensures r[self].linkState == views[self].linkState
    ensures start.metadata.Some? ==>
      && (r[self].elevationSlider.Some? <==> start.metadata.value.verticalDomain.Some?)
      && (r[self].timeSlider.Some? <==> start.metadata.value.temporalDomain.Some?)
    ensures start.metadata.None? ==>
      r[self].elevationSlider == views[self].elevationSlider && r[self].timeSlider == views[self].timeSlider
  {
    var v := views[self];
    var newLayer := DataLayer(kind, name, start.metadata, start.elevation, start.time, []);
    var placed := views[self := v.(layer := Some(newLayer), retired := Retire(v))];
    var shown := if start.metadata.Some? then AddSlidersSpec(placed, self, start.metadata.value) else placed[self];
    views[self := shown.(layerName := Some(name))]
  }

  /** setDataLayer(layerName) as it is meant to behave, given what
      constructing the new layer yields (None when it throws): the layer is
      replaced only once a new grid or profile layer exists. */
  function SetDataLayerSpec(catalogue: VideoWallCatalogue, views: seq<View>, self: nat,
                            layerName: Option<string>, build: Option<LayerStart>): (r: Step)
    requires self < |views|
    reads catalogue
    ensures layerName.None? || layerName == views[self].layerName ==> r == Step(views, Done)
    ensures build.None? || r.outcome.Threw? ==> r.views == views
    ensures |r.views| == |views| && forall j :: 0 <= j < |views| && j != self ==> r.views[j] == views[j]
    ensures r.outcome.Threw? <==>
      layerName.Some? && layerName != views[self].layerName && FeatureTypeOf(catalogue, layerName.value).Err?
    ensures r.outcome.Threw? ==> r.outcome.error == FeatureTypeOf(catalogue, layerName.value).error
    ensures r.views != views ==>
      && r.outcome == Done && build.Some? && layerName.Some?
      && r.views[self].layerName == layerName
      && r.views[self].layer.Some? && r.views[self].layer.value.name == layerName.value
      && r.views[self].retired == Retire(views[self])
  {
    if layerName.None? || layerName == views[self].layerName then Step(views, Done)
    else
      var name := layerName.value;
      match FeatureTypeOf(catalogue, name)
      case Err(e) => Step(views, Threw(e))
      case Ok(MapType) =>
        if build.None? then Step(views, Done) else Step(Install(views, self, name, Grid, build.value), Done)
      case Ok(ProfileType) =>
        if build.None? then Step(views, Done) else Step(Install(views, self, name, Profile, build.value), Done)
      case Ok(OtherType) => Step(views, Done)
  }

  /** A new layer of a grid or profile type is installed whenever it can be
      built: the old one is destroyed and the name taken. */
  lemma NewLayerInstalled(catalogue: VideoWallCatalogue, views: seq<View>, self: nat, name: string, start: LayerStart)
    requires self < |views| && Some(name) != views[self].layerName
    requires FeatureTypeOf(catalogue, name) == Ok(MapType) || FeatureTypeOf(catalogue, name) == Ok(ProfileType)
    ensures var r := SetDataLayerSpec(catalogue, views, self, Some(name), Some(start));
      && r.outcome == Done
      && r.views[self].layerName == Some(name)
      && r.views[self].layer.Some? && r.views[self].layer.value.name == name
      && (r.views[self].layer.value.kind == Grid <==> FeatureTypeOf(catalogue, name) == Ok(MapType))
      && r.views[self].retired == Retire(views[self])
  {
  }

  /** setDataLayer as written: for a feature type that is neither a map nor a
      profile type no layer is built, yet the old one is destroyed, the view
      is left without a layer and the metadata lookup on it throws. */
  function SetDataLayerAsWritten(catalogue: VideoWallCatalogue, views: seq<View>, self: nat,
                                 layerName: Option<string>, build: Option<LayerStart>): (r: Step)
    requires self < |views|
    reads catalogue
    ensures layerName.Some? && layerName != views[self].layerName && FeatureTypeOf(catalogue, layerName.value) == Ok(OtherType) ==>
      r == Step(views[self := views[self].(layer := None, retired := Retire(views[self]))], Threw(NullPointer))
    ensures !(layerName.Some? && layerName != views[self].layerName && FeatureTypeOf(catalogue, layerName.value) == Ok(OtherType)) ==>
      r == SetDataLayerSpec(catalogue, views, self, layerName, build)
  {
    if layerName.Some? && layerName != views[self].layerName && FeatureTypeOf(catalogue, layerName.value) == Ok(OtherType) then
      Step(views[self := views[self].(layer := None, retired := Retire(views[self]))], Threw(NullPointer))
    else SetDataLayerSpec(catalogue, views, self, layerName, build)
  }

  /** The discrepancy: as written, selecting a layer of another feature type
      destroys the shown layer, throws, and keeps the stale layer name, so
      the view claims a layer it no longer has; as intended nothing changes. */
  lemma UnplottableTypeLosesLayer(catalogue: VideoWallCatalogue, views: seq<View>, self: nat, name: string, build: Option<LayerStart>)
    requires self < |views| && views[self].layer.Some? && Some(name) != views[self].layerName
    requires FeatureTypeOf(catalogue, name) == Ok(OtherType)
    ensures var w := SetDataLayerAsWritten(catalogue, views, self, Some(name), build);
      && w.outcome == Threw(NullPointer)
      && w.views[self].layer.None?
      && w.views[self].retired == views[self].retired + [views[self].layer.value.Destroy()]
      && w.views[self].layerName == views[self].layerName
    ensures SetDataLayerSpec(catalogue, views, self, Some(name), build) == Step(views, Done)
  {
  }

  // ---------------------------------------------------------------------------
  // Slider events

  /** The view once the user has dragged slider `id` to `value` and `range`:
      the widget holds them before it raises the change event. */
  function Dragged(v: View, id: string, value: real, range: Extent<real>): (r: View)
    ensures id == ElevationSliderId && v.elevationSlider.Some? ==>
      r == v.(elevationSlider := Some(v.elevationSlider.value.(value := value, range := range)))
    ensures id == TimeSliderId && v.timeSlider.Some? ==>
      r == v.(timeSlider := Some(v.timeSlider.value.(value := value, range := range)))
    ensures !(id == ElevationSliderId && v.elevationSlider.Some?) && !(id == TimeSliderId && v.timeSlider.Some?) ==> r == v
  {
    if id == ElevationSliderId && v.elevationSlider.Some? then
      v.(elevationSlider := Some(v.elevationSlider.value.(value := value, range := range)))
    else if id == TimeSliderId && v.timeSlider.Some? then
      v.(timeSlider := Some(v.timeSlider.value.(value := value, range := range)))
    else v
  }

  /** sliderChanged, after the drag: the elevation slider moves any layer's
      elevation, the time slider moves a grid layer's time; nothing else is
      touched. */
  function OnSliderChanged(v: View, id: string, value: real, range: Extent<real>): (r: View)
    ensures r == Dragged(v, id, value, range).(layer := r.layer)
    ensures r.layer.Some? <==> v.layer.Some?
    ensures id == ElevationSliderId && v.layer.Some? ==>
      r.layer.value == v.layer.value.SetElevation(value, range)
    ensures id == TimeSliderId && v.layer.Some? && v.layer.value.kind == Grid ==>
      r.layer.value == v.layer.value.SetTime(Truncate(value), MillisRange(range))
    ensures id != ElevationSliderId && !(id == TimeSliderId && v.layer.Some? && v.layer.value.kind == Grid) ==>
      r.layer == v.layer
  {
    var w := Dragged(v, id, value, range);
    if id == ElevationSliderId then
      if v.layer.Some? then w.(layer := Some(v.layer.value.SetElevation(value, range))) else w
    else if id == TimeSliderId then
      if v.layer.Some? && v.layer.value.kind == Grid then
        w.(layer := Some(v.layer.value.SetTime(Truncate(value), MillisRange(range))))
      else w
    else w
  }

  /** sliderSettled: a grid layer caches around its cursor whatever the slider;
      a profile layer re-applies the time slider's value and range when the
      time slider settles, which throws when the view has no time slider. */
  function OnSliderSettled(v: View, id: string): (r: Result<View>)
    ensures r.Err? <==> v.layer.Some? && v.layer.value.kind == Profile && id == TimeSliderId && v.timeSlider.None?
    ensures r.Err? ==> r.error == NullPointer
    ensures r.Ok? ==> r.value == v.(layer := r.value.layer)
    ensures v.layer.Some? && v.layer.value.kind == Grid ==> r == Ok(v.(layer := Some(v.layer.value.CacheFromCurrent())))
    ensures v.layer.Some? && v.layer.value.kind == Profile && id == TimeSliderId && v.timeSlider.Some? ==>
      var ts := v.timeSlider.value;
      r == Ok(v.(layer := Some(v.layer.value.SetTime(Truncate(ts.value), MillisRange(ts.range)))))
    ensures v.layer.None? || (v.layer.value.kind == Profile && id != TimeSliderId) ==> r == Ok(v)
  {
    if v.layer.Some? && v.layer.value.kind == Grid then Ok(v.(layer := Some(v.layer.value.CacheFromCurrent())))
    else if v.layer.Some? && v.layer.value.kind == Profile && id == TimeSliderId then
      if v.timeSlider.None? then Err(NullPointer)
      else
        var ts := v.timeSlider.value;
        Ok(v.(layer := Some(v.layer.value.SetTime(Truncate(ts.value), MillisRange(ts.range)))))
    else Ok(v)
  }

  /** Dragging the time slider to `value` and letting it settle leaves the
      layer of either kind at that time, in milliseconds: a grid layer moves
      on the change, a profile layer on the settle, from the slider. */
  lemma TimeFollowsSettledSlider(v: View, value: real, range: Extent<real>)
    requires v.layer.Some? && v.timeSlider.Some?
    ensures var settled := OnSliderSettled(OnSliderChanged(v, TimeSliderId, value, range), TimeSliderId);
      && settled.Ok?
      && settled.value.timeSlider.value.value == value
      && settled.value.layer.value.time == Truncate(value)
      && (v.layer.value.kind == Profile ==>
            settled.value.layer.value == v.layer.value.SetTime(Truncate(value), MillisRange(range)))
  {
  }

  /** Dragging the elevation slider moves the slider and the layer's elevation
      to the same value, and settling does not move it back. */
  lemma ElevationFollowsSlider(v: View, value: real, range: Extent<real>)
    requires v.layer.Some? && v.elevationSlider.Some?
    ensures var settled := OnSliderSettled(OnSliderChanged(v, ElevationSliderId, value, range), ElevationSliderId);
      && settled.Ok?
      && settled.value.elevationSlider.value.value == value
      && settled.value.layer.value.elevation == value
  {
  }

  // ---------------------------------------------------------------------------
  // showFeatureInfo

  /** View j shows the same time as view `self` in the same linked-view state. */
  predicate InSync(views: seq<View>, self: nat, j: nat)
    requires self < |views| && j < |views| && views[self].timeSlider.Some?
  {
    j != self && views[j].timeSlider.Some?
    && views[j].timeSlider.value.value == views[self].timeSlider.value.value
    && views[j].linkState == views[self].linkState
  }

  /** The views before n in sync with view `self`, in order. */
  function InSyncBefore(views: seq<View>, self: nat, n: nat): seq<nat>
    requires self < |views| && n <= |views| && views[self].timeSlider.Some?
    decreases n
  {
    if n == 0 then []
    else InSyncBefore(views, self, n - 1) + (if InSync(views, self, n - 1) then [n - 1] else [])
  }

  /** Exactly the views in sync, each once and in increasing order. */
  lemma {:induction false} InSyncBeforeExact(views: seq<View>, self: nat, n: nat)
    requires self < |views| && n <= |views| && views[self].timeSlider.Some?
    ensures var r := InSyncBefore(views, self, n);
      && (forall k :: k in r <==> 0 <= k < n && InSync(views, self, k))
      && (forall i :: 0 <= i < |r| ==> r[i] < n)
      && (forall a, b :: 0 <= a < b < |r| ==> r[a] < r[b])
    decreases n
  {
    if n > 0 {
      InSyncBeforeExact(views, self, n - 1);
    }
  }

  predicate ShowsLayer(v: View) {
    v.layerName.Some? && v.layerName.value != ""
  }

  /** The views that showFeatureInfo on view `self` queries, in order, as
      intended: none unless a layer is shown; then the view itself, and, when
      its window is linked or antilinked and it has a time slider, every
      other view with a time slider in sync with it. */
  function FeatureInfoTargets(views: seq<View>, self: nat): (r: seq<nat>)
    requires self < |views|
  {
    var v := views[self];
    if !ShowsLayer(v) then []
    else if (v.linkState == Linked || v.linkState == Antilinked) && v.timeSlider.Some? then [self] + InSyncBefore(views, self, |views|)
    else [self]
  }

  /** Membership in the fan-out, both ways. */
  lemma FeatureInfoTargetsExact(views: seq<View>, self: nat, j: nat)
    requires self < |views|
    ensures j in FeatureInfoTargets(views, self) <==>
      ShowsLayer(views[self]) &&
      (j == self ||
       (j < |views| && (views[self].linkState == Linked || views[self].linkState == Antilinked)
        && views[self].timeSlider.Some? && InSync(views, self, j)))
    ensures FeatureInfoTargets(views, self) != [] ==> FeatureInfoTargets(views, self)[0] == self
  {
    if ShowsLayer(views[self]) && views[self].timeSlider.Some? {
      InSyncBeforeExact(views, self, |views|);
    }
  }

  /** The views from j on in sync with view `self`, in order. */
  function InSyncFrom(views: seq<View>, self: nat, j: nat): seq<nat>
    requires self < |views| && j <= |views| && views[self].timeSlider.Some?
    decreases |views| - j
  {
    if j == |views| then []
    else (if InSync(views, self, j) then [j] else []) + InSyncFrom(views, self, j + 1)
  }

  /** Scanning forwards from j finishes what scanning backwards to j began. */
  lemma {:induction false} InSyncSplit(views: seq<View>, self: nat, j: nat)
    requires self < |views| && j <= |views| && views[self].timeSlider.Some?
    ensures InSyncBefore(views, self, |views|) == InSyncBefore(views, self, j) + InSyncFrom(views, self, j)
    decreases |views| - j
  {
    if j < |views| {
      InSyncSplit(views, self, j + 1);
      var mid := if InSync(views, self, j) then [j] else [];
      assert InSyncBefore(views, self, j + 1) == InSyncBefore(views, self, j) + mid;
      assert InSyncFrom(views, self, j) == mid + InSyncFrom(views, self, j + 1);
      assert InSyncBefore(views, self, j) + mid + InSyncFrom(views, self, j + 1)
          == InSyncBefore(views, self, j) + (mid + InSyncFrom(views, self, j + 1));
    }
  }

  datatype FanOut = FanOut(queried: seq<nat>, outcome: Outcome)

  /** The loop of showFeatureInfo as written, from view j on, having queried
      `acc`: another view's time slider is read without a null check, and so
      is this view's. */
  function ScanAsWritten(views: seq<View>, self: nat, j: nat, acc: seq<nat>): (r: FanOut)
    requires self < |views|
    ensures acc <= r.queried
    decreases |views| - j
  {
    if j >= |views| then FanOut(acc, Done)
    else if j == self then ScanAsWritten(views, self, j + 1, acc)
    else if views[j].timeSlider.None? || views[self].timeSlider.None? then FanOut(acc, Threw(NullPointer))
    else if views[j].timeSlider.value.value == views[self].timeSlider.value.value && views[j].linkState == views[self].linkState then
      ScanAsWritten(views, self, j + 1, acc + [j])
    else ScanAsWritten(views, self, j + 1, acc)
  }

  /** showFeatureInfo as written: Java's precedence makes its gate
      LINKED || (ANTILINKED && timeSlider != null). */
  function FeatureInfoFanOutAsWritten(views: seq<View>, self: nat): (r: FanOut)
    requires self < |views|
    ensures !ShowsLayer(views[self]) ==> r == FanOut([], Done)
    ensures ShowsLayer(views[self]) ==> |r.queried| >= 1 && r.queried[0] == self
  {
    var v := views[self];
    if !ShowsLayer(v) then FanOut([], Done)
    else if v.linkState == Linked || (v.linkState == Antilinked && v.timeSlider.Some?) then
      ScanAsWritten(views, self, 0, [self])
    else FanOut([self], Done)
  }

  /** The gate of showFeatureInfo as written. */
  predicate GateAsWritten(v: View) {
    v.linkState == Linked || (v.linkState == Antilinked && v.timeSlider.Some?)
  }

  /** Reading view k's time slider in the loop dereferences null. */
  predicate UncheckedNull(views: seq<View>, self: nat, k: nat)
    requires self < |views| && k < |views|
  {
    k != self && (views[k].timeSlider.None? || views[self].timeSlider.None?)
  }

  /** The loop as written throws exactly when some view it has still to
      visit, other than `self`, has no time slider or `self` has none. */
  lemma {:induction false} ScanThrowsExactly(views: seq<View>, self: nat, j: nat, acc: seq<nat>)
    requires self < |views|
    ensures var r := ScanAsWritten(views, self, j, acc);
      && (r.outcome.Threw? <==> exists k :: j <= k < |views| && UncheckedNull(views, self, k))
      && (r.outcome.Threw? ==> r.outcome.error == NullPointer)
    decreases |views| - j
  {
    if j < |views| {
      ScanThrowsExactly(views, self, j + 1, acc);
      ScanThrowsExactly(views, self, j + 1, acc + [j]);
      if j != self && UncheckedNull(views, self, j) {
        assert j <= j < |views| && UncheckedNull(views, self, j);
      } else {
        assert !UncheckedNull(views, self, j);
      }
    }
  }

  /** With a time slider on `self`, the loop as written queries a prefix of
      the views in sync from j on, and all of them when it finishes. */
  lemma {:induction false} ScanQueriesInSync(views: seq<View>, self: nat, j: nat, acc: seq<nat>)
    requires self < |views| && j <= |views| && views[self].timeSlider.Some?
    ensures var r := ScanAsWritten(views, self, j, acc);
      && r.queried <= acc + InSyncFrom(views, self, j)
      && (r.outcome == Done ==> r.queried == acc + InSyncFrom(views, self, j))
    decreases |views| - j
  {
    if j < |views| {
      var mid := if InSync(views, self, j) then [j] else [];
      assert InSyncFrom(views, self, j) == mid + InSyncFrom(views, self, j + 1);
      assert acc + mid + InSyncFrom(views, self, j + 1) == acc + (mid + InSyncFrom(views, self, j + 1));
      ScanQueriesInSync(views, self, j + 1, acc + mid);
    } else {
      assert acc + [] == acc;
    }
  }

  /** Without a time slider on `self`, the loop as written queries nothing. */
  lemma {:induction false} ScanWithoutTimeSliderQueriesNothing(views: seq<View>, self: nat, j: nat, acc: seq<nat>)
    requires self < |views| && views[self].timeSlider.None?
    ensures ScanAsWritten(views, self, j, acc).queried == acc
    decreases |views| - j
  {
    if j < |views| {
      ScanWithoutTimeSliderQueriesNothing(views, self, j + 1, acc);
    }
  }

  /** For all inputs, showFeatureInfo as written queries the intended views in
      order up to the point where it throws: a prefix of them, and all of them
      when it does not throw. */
  lemma FeatureInfoAsWrittenQueriesIntendedPrefix(views: seq<View>, self: nat)
    requires self < |views|
    ensures var r := FeatureInfoFanOutAsWritten(views, self);
      && r.queried <= FeatureInfoTargets(views, self)
      && (r.outcome == Done ==> r.queried == FeatureInfoTargets(views, self))
  {
    var v := views[self];
    if ShowsLayer(v) && GateAsWritten(v) {
      if v.timeSlider.Some? {
        ScanQueriesInSync(views, self, 0, [self]);
        InSyncSplit(views, self, 0);
      } else {
        ScanWithoutTimeSliderQueriesNothing(views, self, 0, [self]);
      }
    }
  }

  /** For all inputs, showFeatureInfo as written throws exactly when a layer
      is shown, the gate as written opens, and the loop meets another view
      while this view or that one has no time slider. The intended fan-out
      never throws. */
  lemma FeatureInfoAsWrittenThrowsExactly(views: seq<View>, self: nat)
    requires self < |views|
    ensures var r := FeatureInfoFanOutAsWritten(views, self);
      && (r.outcome.Threw? <==>
            ShowsLayer(views[self]) && GateAsWritten(views[self])
            && exists k :: 0 <= k < |views| && UncheckedNull(views, self, k))
      && (r.outcome.Threw? ==> r.outcome.error == NullPointer)
  {
    ScanThrowsExactly(views, self, 0, [self]);
  }

  /** A linked view showing a layer but without a time slider, beside one
      other view: as written the loop dereferences the missing slider. */
  lemma LinkedWithoutTimeSliderThrows()
    ensures var s := NewSlider(TimeSliderId, 0.0, 1.0);
      var views := [View(None, Some("d/v"), None, None, "", Linked, []),
                    View(None, Some("d/v"), None, Some(s), "", Linked, [])];
      && FeatureInfoFanOutAsWritten(views, 0) == FanOut([0], Threw(NullPointer))
      && FeatureInfoTargets(views, 0) == [0]
  {
    var s := NewSlider(TimeSliderId, 0.0, 1.0);
    var views := [View(None, Some("d/v"), None, None, "", Linked, []),
                  View(None, Some("d/v"), None, Some(s), "", Linked, [])];
    assert ScanAsWritten(views, 0, 1, [0]) == FanOut([0], Threw(NullPointer));
  }

  /** An antilinked view with a time slider beside a view without one: as
      written the loop dereferences the other view's missing slider. */
  lemma OtherViewWithoutTimeSliderThrows()
    ensures var s := NewSlider(TimeSliderId, 0.0, 1.0);
      var views := [View(None, Some("d/v"), None, Some(s), "", Antilinked, []),
                    View(None, None, None, None, "", Antilinked, [])];
      && FeatureInfoFanOutAsWritten(views, 0) == FanOut([0], Threw(NullPointer))
      && FeatureInfoTargets(views, 0) == [0]
  {
    var s := NewSlider(TimeSliderId, 0.0, 1.0);
    var views := [View(None, Some("d/v"), None, Some(s), "", Antilinked, []),
                  View(None, None, None, None, "", Antilinked, [])];
    assert ScanAsWritten(views, 0, 1, [0]) == FanOut([0], Threw(NullPointer));
    assert InSyncBefore(views, 0, 2) == [];
  }

  // ---------------------------------------------------------------------------
  // Profiles plotted in the feature-info balloon

  /** A grid layer plots only the first profile (the nearest point); any other
      layer plots them all. */
  function ProfilesToPlot(kind: Option<LayerKind>, profiles: seq<Feature>): (r: seq<Feature>)
    requires |profiles| > 0
    ensures 1 <= |r| && r <= profiles
    ensures kind == Some(Grid) ==> r == [profiles[0]]
    ensures kind != Some(Grid) ==> r == profiles
  {
    if kind == Some(Grid) then profiles[..1] else profiles
  }

  // ---------------------------------------------------------------------------
  // The frame and its views

  /** The multi-view frame: the shared catalogue and every view, in the order
      getAllModels lists them. */
  class MultiGlobeFrame {
    const catalogue: VideoWallCatalogue
    var views: seq<View>

    /** One new view per window, in the windows' linked-view states. */
    constructor (catalogue: VideoWallCatalogue, linkStates: seq<LinkedViewState>)
      ensures this.catalogue == catalogue && |views| == |linkStates|
      ensures forall j :: 0 <= j < |views| ==> views[j] == InitialView(linkStates[j])
    {
      this.catalogue := catalogue;
      views := seq(|linkStates|, j requires 0 <= j < |linkStates| => InitialView(linkStates[j]));
    }

    /** setDataLayer on view `self`; `build` is what constructing the grid or
        profile layer yields (None when it throws). */
    method SetDataLayer(self: nat, layerName: Option<string>, build: Option<LayerStart>) returns (outcome: Outcome)
      requires self < |views|
      modifies this
      ensures Step(views, outcome) == SetDataLayerSpec(catalogue, old(views), self, layerName, build)
    {
      if layerName.None? || layerName == views[self].layerName {
        return Done;
      }
      var name := layerName.value;
      var found := catalogue.GetDatasetFromLayerName(name);
      if found.Err? {
        return Threw(found.error);
      }
      if found.value.None? {
        return Threw(NullPointer);
      }
      var ds := found.value.value;
      var varId := GetVariableIdFromLayerName(name).value;
      if varId !in ds.mapFeatureTypes {
        return Threw(NullPointer);
      }
      var kind: LayerKind;
      match ds.mapFeatureTypes[varId] {
        case MapType => kind := Grid;
        case ProfileType => kind := Profile;
        case OtherType => return Done;
      }
      if build.None? {
        return Done;
      }
      var start := build.value;
      var v := views[self];
      var newLayer := DataLayer(kind, name, start.metadata, start.elevation, start.time, []);
      views := views[self := v.(layer := Some(newLayer), retired := Retire(v))];
      if start.metadata.Some? {
        AddSliders(self, start.metadata.value);
      }
      views := views[self := views[self].(layerName := layerName)];
      return Done;
    }

    /** addSliders on view `self`, whose layer is in place. */
    method AddSliders(self: nat, md: VariableMetadata)
      requires self < |views| && views[self].layer.Some?
      modifies this
      ensures views == old(views)[self := AddSlidersSpec(old(views), self, md)]
    {
      var v := views[self];
      var layer := v.layer.value;
      var elevationSlider: Option<Slider> := None;
      var units := v.elevationUnits;
      if md.verticalDomain.Some? {
        var vd := md.verticalDomain.value;
        var s := ElevationSliderFor(v.elevationSlider, vd, layer.elevation);
        units := UnitsFor(units, vd);
        ghost var s0, l0 := s, layer;
        var i := 0;
        while i < |views|
          invariant 0 <= i <= |views| && views == old(views)
          invariant Linking(s, layer) == Link(views, self, Vertical, s0, l0, i)
        {
          if i != self && views[i].elevationSlider.Some? && EqualLimits(views[i].elevationSlider.value, s) {
            var partner := views[i].elevationSlider.value;
            s := s.(links := s.links + {i});
            if views[i].layer.Some? {
              s := s.(value := partner.value);
              layer := layer.SetElevation(partner.value, partner.range);
            }
          }
          i := i + 1;
        }
        elevationSlider := Some(s);
      }
      var timeSlider: Option<Slider> := None;
      if md.temporalDomain.Some? {
        var s := TimeSliderFor(v.timeSlider, md.temporalDomain.value, layer.time);
        ghost var s0, l0 := s, layer;
        var i := 0;
        while i < |views|
          invariant 0 <= i <= |views| && views == old(views)
          invariant Linking(s, layer) == Link(views, self, Temporal, s0, l0, i)
        {
          if i != self && views[i].timeSlider.Some? && EqualLimits(views[i].timeSlider.value, s) {
            var partner := views[i].timeSlider.value;
            s := s.(links := s.links + {i});
            if views[i].layer.Some? {
              s := s.(value := partner.value);
              layer := layer.SetTime(Truncate(partner.value), MillisRange(partner.range));
            }
          }
          i := i + 1;
        }
        timeSlider := Some(s);
      }
      views := views[self := v.(layer := Some(layer), elevationSlider := elevationSlider,
                                timeSlider := timeSlider, elevationUnits := units)];
    }

    /** sliderChanged on view `self`, once the widget holds the new value. */
    method SliderChanged(self: nat, id: string, value: real, range: Extent<real>)
      requires self < |views|
      modifies this
      ensures views == old(views)[self := OnSliderChanged(old(views)[self], id, value, range)]
    {
      var v := views[self];
      if id == ElevationSliderId && v.elevationSlider.Some? {
        v := v.(elevationSlider := Some(v.elevationSlider.value.(value := value, range := range)));
      } else if id == TimeSliderId && v.timeSlider.Some? {
        v := v.(timeSlider := Some(v.timeSlider.value.(value := value, range := range)));
      }
      if id == ElevationSliderId {
        if v.layer.Some? {
          v := v.(layer := Some(v.layer.value.SetElevation(value, range)));
        }
      } else if id == TimeSliderId {
        if v.layer.Some? && v.layer.value.kind == Grid {
          var time := Truncate(value);
          var millis := MillisRange(range);
          v := v.(layer := Some(v.layer.value.SetTime(time, millis)));
        }
      }
      views := views[self := v];
    }

    /** sliderSettled on view `self`. */
    method SliderSettled(self: nat, id: string) returns (outcome: Outcome)
      requires self < |views|
      modifies this
      ensures var r := OnSliderSettled(old(views)[self], id);
        && (r.Err? ==> outcome == Threw(r.error) && views == old(views))
        && (r.Ok? ==> outcome == Done && views == old(views)[self := r.value])
    {
      var v := views[self];
      outcome := Done;
      if v.layer.Some? && v.layer.value.kind == Grid {
        views := views[self := v.(layer := Some(v.layer.value.CacheFromCurrent()))];
      } else if v.layer.Some? && v.layer.value.kind == Profile {
        if id == TimeSliderId {
          if v.timeSlider.None? {
            return Threw(NullPointer);
          }
          var ts := v.timeSlider.value;
          views := views[self := v.(layer := Some(v.layer.value.SetTime(Truncate(ts.value), MillisRange(ts.range))))];
        }
      }
    }

    /** The views showFeatureInfo on view `self` queries, in order. */
    method ShowFeatureInfo(self: nat) returns (queried: seq<nat>)
      requires self < |views|
      ensures queried == FeatureInfoTargets(views, self)
    {
      var v := views[self];
      if !ShowsLayer(v) {
        return [];
      }
      if (v.linkState == Linked || v.linkState == Antilinked) && v.timeSlider.Some? {
        var others: seq<nat> := [];
        var j := 0;
        while j < |views|
          invariant 0 <= j <= |views|
          invariant others == InSyncBefore(views, self, j)
        {
          if InSync(views, self, j) {
            others := others + [j];
          }
          j := j + 1;
        }
        queried := [self] + others;
      } else {
        queried := [self];
      }
    }
  }
}
