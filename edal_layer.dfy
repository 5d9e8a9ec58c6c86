/**
 * The tiled layer that shows one EDAL variable and can switch variable
 * (SingleEdalDataLayer): its data state, the write-once tile files it renders
 * into the shared file store, and the choice between a blank, a drawn and a
 * placeholder tile.
 *
 * The catalogue's scale-range lookup and MapImage drawing are parameters.
 */
module EdalLayer {
  import opened Edal
  import opened Catalogue

  /** The initial time, 2010-07-15T12:00:00Z, in milliseconds since the epoch. */
  const DefaultTime: int := 1279195200000
  const DefaultElevation: real := 5.0

  /** The MapImage set up by setData: one raster layer of that name, coloured
      over the layer's scale range. */
  datatype MapImage = MapImage(layerName: string, scaleRange: Extent<real>)

  /** A texture tile: where its file lives, its size in pixels and its sector. */
  datatype Tile = Tile(path: string, width: nat, height: nat, sector: BoundingBox)

  /** A tile image: an untouched blank one, the red cross on white drawn when
      drawing fails, or one the MapImage drew. */
  datatype Image =
    | Blank(width: nat, height: nat)
    | RedCross(width: nat, height: nat)
    | Drawn(layerName: string, params: DomainParams)

  /** MapImage.drawImage: an image, or None when it raises an EdalException. */
  type Drawer = (MapImage, DomainParams) -> Option<Image>

  /** The time kept when a layer with temporal domain `dom` is selected: a time
      outside the domain is replaced by its high bound. */
  function ClampTime(t: int, dom: Option<Extent<int>>): (r: int)
    ensures dom.None? || ContainsTime(dom.value, t) ==> r == t
    ensures dom.Some? && !ContainsTime(dom.value, t) ==> r == dom.value.high
    ensures dom.Some? && dom.value.low <= dom.value.high ==> ContainsTime(dom.value, r)
  {
    if dom.Some? && !ContainsTime(dom.value, t) then dom.value.high else t
  }

  /** The elevation kept when a layer with vertical domain `dom` is selected:
      an elevation outside the domain is replaced by its low bound. */
  function ClampElevation(z: real, dom: Option<VerticalDomain>): (r: real)
    ensures dom.None? || ContainsElevation(dom.value.extent, z) ==> r == z
    ensures dom.Some? && !ContainsElevation(dom.value.extent, z) ==> r == dom.value.extent.low
    ensures dom.Some? && dom.value.extent.low <= dom.value.extent.high ==> ContainsElevation(dom.value.extent, r)
  {
    if dom.Some? && !ContainsElevation(dom.value.extent, z) then dom.value.extent.low else z
  }

  /** Clamping twice is clamping once. */
  lemma ClampIdempotent(t: int, z: real, md: VariableMetadata)
    requires md.temporalDomain.Some? ==> md.temporalDomain.value.low <= md.temporalDomain.value.high
    requires md.verticalDomain.Some? ==> md.verticalDomain.value.extent.low <= md.verticalDomain.value.extent.high
    ensures ClampTime(ClampTime(t, md.temporalDomain), md.temporalDomain) == ClampTime(t, md.temporalDomain)
    ensures ClampElevation(ClampElevation(z, md.verticalDomain), md.verticalDomain) == ClampElevation(z, md.verticalDomain)
  {
  }

  /** The plotting domain a tile is drawn for: its size, its sector, and the
      layer's current elevation and time. */
  function TileParams(tile: Tile, elevation: real, time: int): (p: DomainParams)
    ensures p.width == tile.width && p.height == tile.height && p.bbox == Some(tile.sector)
    ensures p.zExtent.None? && p.tExtent.None? && p.targetPosition.None?
    ensures p.targetZ == Some(elevation) && p.targetT == Some(time)
  {
    DomainParams(tile.width, tile.height, Some(tile.sector), None, None, None, Some(elevation), Some(time))
  }

  /** The tile files after a request for `path`: a file that exists already, or
      a path the store gives no file for, is left alone; otherwise the image is
      written, unless writing fails. */
  function StoreTile(files: map<string, Image>, unavailable: set<string>, path: string,
                     image: Image, written: bool): (r: map<string, Image>)
    ensures path in files ==> r == files
    ensures forall p :: p in files ==> p in r && r[p] == files[p]
    ensures forall p :: p in r && p != path ==> p in files
    ensures path in r && path !in files ==> r[path] == image
    ensures path in r <==> path in files || (path !in unavailable && written)
  {
    if path in unavailable || path in files || !written then files else files[path := image]
  }

  /** A tile file is created at most once: a second request for the same path
      changes nothing, whatever image it would have drawn. */
  lemma TileWrittenOnce(files: map<string, Image>, unavailable: set<string>, path: string,
                        first: Image, second: Image, written1: bool, written2: bool)
    requires path in StoreTile(files, unavailable, path, first, written1)
    ensures var once := StoreTile(files, unavailable, path, first, written1);
      StoreTile(once, unavailable, path, second, written2) == once
  {
  }

  /** WorldWind's shared data file store, reduced to the tile files it holds.
      `unavailable` are the paths for which it hands out no file. */
  class FileStore {
    var files: map<string, Image>
    const unavailable: set<string>

    constructor (unavailable: set<string>)
      ensures files == map[] && this.unavailable == unavailable
    {
      files := map[];
      this.unavailable := unavailable;
    }
  }

  /** The state of a SingleEdalDataLayer as a value. */
  datatype LayerState = LayerState(
    currentLayerName: Option<string>, time: int, elevation: real,
    mapImage: Option<MapImage>, enabled: bool)

  class SingleEdalDataLayer {
    const catalogue: VideoWallCatalogue
    var mapImage: Option<MapImage>
    var currentLayerName: Option<string>
    var time: int
    var elevation: real
    var enabled: bool

    /** A new layer shows nothing and is disabled. */
    constructor (catalogue: VideoWallCatalogue)
      ensures this.catalogue == catalogue
      ensures mapImage.None? && currentLayerName.None? && !enabled
      ensures time == DefaultTime && elevation == DefaultElevation
      ensures !IsShowingData()
    {
      this.catalogue := catalogue;
      mapImage := None;
      currentLayerName := None;
      time := DefaultTime;
      elevation := DefaultElevation;
      enabled := false;
    }

    function State(): (s: LayerState)
      reads this
      ensures s.currentLayerName == currentLayerName && s.time == time && s.elevation == elevation
      ensures s.mapImage == mapImage && s.enabled == enabled
    {
      LayerState(currentLayerName, time, elevation, mapImage, enabled)
    }

    /** isShowingData: a layer name is set and it is not empty. */
    predicate IsShowingData()
      reads this
      ensures IsShowingData() <==> currentLayerName.Some? && currentLayerName.value != ""
    {
      !(currentLayerName.None? || currentLayerName.value == "")
    }

    /** setData(layerName), given what the catalogue's scale-range lookup
        returns for it (None when it raises). */
    method SetData(layerName: Option<string>, scaleRange: Option<Extent<real>>)
      modifies this
      // null: display no data, but keep the name, time and elevation
      ensures layerName.None? ==>
        && !enabled && mapImage.None?
        && currentLayerName == old(currentLayerName) && time == old(time) && elevation == old(elevation)
        && IsShowingData() == old(IsShowingData())
      // a failed scale-range lookup, or the name already shown: nothing changes
      ensures layerName.Some? && (scaleRange.None? || layerName == old(currentLayerName)) ==>
        State() == old(State())
      // otherwise the name is taken at once, so a second call is a no-op
      ensures layerName.Some? && scaleRange.Some? ==> currentLayerName == layerName
      ensures layerName.Some? && scaleRange.Some? && layerName != old(currentLayerName) ==>
        match catalogue.GetVariableMetadataForLayer(layerName.value)
        case Err(_) =>
          time == old(time) && elevation == old(elevation) && mapImage == old(mapImage) && enabled == old(enabled)
        case Ok(md) =>
          && time == ClampTime(old(time), md.temporalDomain)
          && elevation == ClampElevation(old(elevation), md.verticalDomain)
          && mapImage == Some(MapImage(layerName.value, scaleRange.value))
          && enabled
          && (layerName.value != "" ==> IsShowingData())
    {
      if layerName.None? {
        enabled := false;
        mapImage := None;
        return;
      }
      var name := layerName.value;
      if scaleRange.None? {
        return;
      }
      if layerName == currentLayerName {
        return;
      } else {
        currentLayerName := layerName;
      }
      var metadata := catalogue.GetVariableMetadataForLayer(name);
      if metadata.Err? {
        return;
      }
      var md := metadata.value;
      if md.temporalDomain.Some? && !ContainsTime(md.temporalDomain.value, time) {
        time := md.temporalDomain.value.high;
      }
      if md.verticalDomain.Some? && !ContainsElevation(md.verticalDomain.value.extent, elevation) {
        elevation := md.verticalDomain.value.extent.low;
      }
      mapImage := Some(MapImage(name, scaleRange.value));
      enabled := true;
    }

    /** createTileImage: the blank image when nothing is configured, the
        drawn image, or the red-cross placeholder when drawing fails. */
    function CreateTileImage(tile: Tile, draw: Drawer): (r: Image)
      reads this
      ensures mapImage.None? ==> r == Blank(tile.width, tile.height)
      ensures mapImage.Some? ==>
        var drawn := draw(mapImage.value, TileParams(tile, elevation, time));
        && (drawn.Some? ==> r == drawn.value)
        && (drawn.None? ==> r == RedCross(tile.width, tile.height))
    {
      if mapImage.None? then Blank(tile.width, tile.height)
      else
        match draw(mapImage.value, TileParams(tile, elevation, time))
        case Some(image) => image
        case None => RedCross(tile.width, tile.height)
    }

    /** retrieveRemoteTexture: render the tile into a new file of the store,
        unless that file exists already or the store gives none; `written`
        tells whether writing the PNG succeeds. */
    method RetrieveRemoteTexture(tile: Tile, store: FileStore, draw: Drawer, written: bool)
      modifies store
      ensures store.files == StoreTile(old(store.files), store.unavailable, tile.path,
                                       CreateTileImage(tile, draw), written)
    {
      if tile.path in store.unavailable {
        return;
      }
      if tile.path in store.files {
        return;
      }
      var image := CreateTileImage(tile, draw);
      if written {
        store.files := store.files[tile.path := image];
      }
    }
  }
}
