/**
 * The video-wall catalogue (VideoWallCatalogue): resolves layer names to
 * datasets and variables, answers point, profile and timeseries queries with
 * soft fall-backs, and builds the layer menu.
 *
 * Calls into a dataset's extraction methods and into GISUtils are parameters.
 */
module Catalogue {
  import opened Edal
  import opened LayerNames

  /** A LayerMenuItem: title, id, whether it can be plotted, children in order. */
  datatype MenuNode = MenuNode(title: string, id: string, plottable: bool, children: seq<MenuNode>)

  datatype FeaturesAndMemberName = FeaturesAndMemberName(features: seq<Feature>, memberName: string)

  /** The title of the root menu node and its id. */
  const RootTitle: string := "Datasets"
  const RootId: string := "root"

  // ---------------------------------------------------------------------------
  // The layer menu as values

  /** The menu entry createMenuNode builds for a variable and its children;
      a layer without a title is a NullPointerException. */
  function VariableMenu(md: VariableMetadata, titles: map<string, string>): Result<MenuNode>
    decreases md, 1
  {
    var layerId := LayerName(md.datasetId, md.id);
    if layerId !in titles then Err(NullPointer)
    else
      match VariableMenus(md.children, titles)
      case Err(e) => Err(e)
      case Ok(kids) => Ok(MenuNode(titles[layerId], layerId, true, kids))
  }

  /** The entries for a list of variables, built in order; the first failure wins. */
  function VariableMenus(mds: seq<VariableMetadata>, titles: map<string, string>): Result<seq<MenuNode>>
    decreases mds, 0
  {
    if mds == [] then Ok([])
    else
      match VariableMenus(mds[..|mds| - 1], titles)
      case Err(e) => Err(e)
      case Ok(front) =>
        match VariableMenu(mds[|mds| - 1], titles)
        case Err(e) => Err(e)
        case Ok(n) => Ok(front + [n])
  }

  /** The entry addDatasetToMenu builds for a dataset: not plottable, one child
      per top-level variable. */
  function DatasetMenu(ds: Dataset, datasetTitles: map<string, string>, titles: map<string, string>): Result<MenuNode>
  {
    if ds.id !in datasetTitles then Err(NullPointer)
    else
      match VariableMenus(ds.topLevelVariables, titles)
      case Err(e) => Err(e)
      case Ok(kids) => Ok(MenuNode(datasetTitles[ds.id], ds.id, false, kids))
  }

  /** Every layer of the variable tree has a title. */
  ghost predicate Titled(md: VariableMetadata, titles: map<string, string>)
    decreases md
  {
    LayerName(md.datasetId, md.id) in titles &&
    forall c :: c in md.children ==> Titled(c, titles)
  }

  /** Building a menu fails exactly when some layer of the tree has no title. */
  lemma {:induction false} VariableMenuDefined(md: VariableMetadata, titles: map<string, string>)
    ensures VariableMenu(md, titles).Ok? <==> Titled(md, titles)
    decreases md, 1
  {
    VariableMenusDefined(md.children, titles);
  }

  lemma {:induction false} VariableMenusDefined(mds: seq<VariableMetadata>, titles: map<string, string>)
    ensures VariableMenus(mds, titles).Ok? <==> forall c :: c in mds ==> Titled(c, titles)
    decreases mds, 0
  {
    if mds != [] {
      var front := mds[..|mds| - 1];
      var last := mds[|mds| - 1];
      VariableMenusDefined(front, titles);
      VariableMenuDefined(last, titles);
      assert mds == front + [last];
      assert forall c :: c in mds <==> c in front || c == last;
    }
  }

  /** The entries for a list of variables correspond one to one with the list. */
  lemma {:induction false} VariableMenusPointwise(mds: seq<VariableMetadata>, titles: map<string, string>)
    requires VariableMenus(mds, titles).Ok?
    ensures |VariableMenus(mds, titles).value| == |mds|
    ensures forall i :: 0 <= i < |mds| ==> VariableMenu(mds[i], titles) == Ok(VariableMenus(mds, titles).value[i])
    decreases |mds|
  {
    if mds != [] {
      var front := mds[..|mds| - 1];
      VariableMenusPointwise(front, titles);
      forall i | 0 <= i < |mds| - 1 ensures mds[i] == front[i] { }
    }
  }

  /** A variable's entry carries its layer name, is plottable, has its title
      and one entry per child variable; the id parses back to the variable. */
  lemma VariableMenuShape(md: VariableMetadata, titles: map<string, string>)
    requires VariableMenu(md, titles).Ok?
    ensures var n := VariableMenu(md, titles).value;
      && n.id == LayerName(md.datasetId, md.id)
      && n.plottable
      && n.title == titles[n.id]
      && |n.children| == |md.children|
      && (forall i :: 0 <= i < |md.children| ==> VariableMenu(md.children[i], titles) == Ok(n.children[i]))
      && (Slash !in md.datasetId && Slash !in md.id && md.id != "" ==>
            ParseLayerName(n.id) == Ok(LayerRef(md.datasetId, md.id)))
  {
    VariableMenusPointwise(md.children, titles);
    if Slash !in md.datasetId && Slash !in md.id && md.id != "" {
      LayerNameRoundTrip(md.datasetId, md.id);
    }
  }

  /** A failure building the entries of a prefix is the failure of the whole list. */
  lemma {:induction false} VariableMenusPrefixFailure(mds: seq<VariableMetadata>, j: nat, titles: map<string, string>)
    requires j <= |mds| && VariableMenus(mds[..j], titles).Err?
    ensures VariableMenus(mds, titles) == VariableMenus(mds[..j], titles)
    decreases |mds|
  {
    if j < |mds| {
      var front := mds[..|mds| - 1];
      assert front[..j] == mds[..j];
      VariableMenusPrefixFailure(front, j, titles);
    } else {
      assert mds[..j] == mds;
    }
  }

  // ---------------------------------------------------------------------------
  // Point queries, given what extraction returned

  /** getLayerValue's choice on the extracted features: the first one decides. */
  function FirstFeatureValue(features: seq<Feature>, z: Option<real>,
                             closest: (Option<real>, seq<real>) -> int): (r: Result<Option<real>>)
    ensures features == [] ==> r == Ok(None)
    ensures features != [] && features[0].MapFeature? ==> r == Ok(features[0].originValue)
    ensures features != [] && features[0].ProfileFeature? ==>
      var idx := closest(z, features[0].elevations);
      (r.Ok? <==> 0 <= idx < |features[0].values|) &&
      (r.Ok? ==> r.value == features[0].values[idx]) &&
      (r.Err? ==> r.error == IndexOutOfBounds)
    ensures features != [] && (features[0].PointSeriesFeature? || features[0].OtherFeature?) ==> r == Ok(None)
  {
    if features == [] then Ok(None)
    else
      match features[0]
      case MapFeature(v) => Ok(v)
      case ProfileFeature(elevations, values) =>
        var idx := closest(z, elevations);
        if 0 <= idx < |values| then Ok(values[idx]) else Err(IndexOutOfBounds)
      case _ => Ok(None)
  }

  /** The outcome of an extraction call that propagates every exception. */
  function Propagate(e: Extraction): (r: Result<seq<Feature>>)
    ensures e.Extracted? <==> r.Ok?
    ensures e.Extracted? ==> r.value == e.features
    ensures e.Unsupported? ==> r == Err(UnsupportedOperation)
    ensures e.ReadFailure? ==> r == Err(DataReading)
  {
    match e
    case Extracted(fs) => Ok(fs)
    case Unsupported => Err(UnsupportedOperation)
    case ReadFailure => Err(DataReading)
  }

  class VideoWallCatalogue {
    /** Loaded datasets by id. */
    var datasets: map<string, Dataset>
    /** In-memory grid features by layer name. */
    var gridFeatures: map<string, GridFeature>
    /** The configured title of each dataset, by dataset id. */
    var datasetTitles: map<string, string>
    /** The title of each layer, by layer name. */
    var layerTitles: map<string, string>
    /** The root of the layer menu. */
    var rootMenuNode: MenuNode

    /** A catalogue over loaded datasets, with an empty menu and no in-memory
        grid features. */
    constructor (datasets: map<string, Dataset>, datasetTitles: map<string, string>, layerTitles: map<string, string>)
      ensures this.datasets == datasets && this.datasetTitles == datasetTitles && this.layerTitles == layerTitles
      ensures gridFeatures == map[]
      ensures rootMenuNode == MenuNode(RootTitle, RootId, false, [])
    {
      this.datasets := datasets;
      this.gridFeatures := map[];
      this.datasetTitles := datasetTitles;
      this.layerTitles := layerTitles;
      this.rootMenuNode := MenuNode(RootTitle, RootId, false, []);
    }

    /** getDatasetFromLayerName: WmsLayerNotFoundException unless the name
        splits into two parts; otherwise the dataset named by the first part,
        or null when no such dataset is loaded. */
    function GetDatasetFromLayerName(name: string): (r: Result<Option<Dataset>>)
      reads this
      ensures r.Err? <==> |Split(name)| != 2
      ensures r.Err? ==> r.error == LayerNotFound
      ensures r.Ok? ==> (r.value.Some? <==> Split(name)[0] in datasets)
      ensures r.Ok? && r.value.Some? ==> r.value.value == datasets[Split(name)[0]]
    {
      match ParseLayerName(name)
      case Err(e) => Err(e)
      case Ok(ref) => if ref.datasetId in datasets then Ok(Some(datasets[ref.datasetId])) else Ok(None)
    }

    /** getVariableMetadataForLayer: the metadata of the named variable; an
        unknown dataset is WmsLayerNotFoundException. */
    function GetVariableMetadataForLayer(name: string): (r: Result<VariableMetadata>)
      reads this
      ensures ParseLayerName(name).Err? ==> r == Err(LayerNotFound)
      ensures ParseLayerName(name).Ok? ==>
        var ref := ParseLayerName(name).value;
        && (ref.datasetId !in datasets ==> r == Err(LayerNotFound))
        && (ref.datasetId in datasets && ref.variableId !in datasets[ref.datasetId].variables ==> r == Err(VariableNotFound))
        && (ref.datasetId in datasets && ref.variableId in datasets[ref.datasetId].variables ==>
              r == Ok(datasets[ref.datasetId].variables[ref.variableId]))
      ensures r.Ok? ==> r.value in datasets[Split(name)[0]].variables.Values
    {
      match GetDatasetFromLayerName(name)
      case Err(e) => Err(e)
      case Ok(None) => Err(LayerNotFound)
      case Ok(Some(ds)) =>
        var varId := Split(name)[1];
        if varId in ds.variables then Ok(ds.variables[varId]) else Err(VariableNotFound)
    }

    /** getFeaturesForLayer: an in-memory grid feature is subset when there is
        one for the layer; otherwise the dataset is asked to extract. Either way
        the member name is the variable id. `subset` is the grid feature's
        extractMapFeature: the map feature's value at cell (0, 0), or the
        exception it raises. */
    function GetFeaturesForLayer(id: string, params: DomainParams, extractMap: Extractor,
                                 subset: (GridFeature, string, DomainParams) -> Result<Option<real>>): (r: Result<FeaturesAndMemberName>)
      reads this
      ensures ParseLayerName(id).Err? ==> r == Err(LayerNotFound)
      ensures r.Ok? ==> r.value.memberName == GetVariableIdFromLayerName(id).value
      ensures ParseLayerName(id).Ok? && id in gridFeatures ==>
        var varId := GetVariableIdFromLayerName(id).value;
        match subset(gridFeatures[id], varId, params)
        case Ok(origin) => r == Ok(FeaturesAndMemberName([MapFeature(origin)], varId))
        case Err(e) => r == Err(e)
      ensures ParseLayerName(id).Ok? && id !in gridFeatures ==>
        var ref := ParseLayerName(id).value;
        && (ref.datasetId !in datasets ==> r == Err(NullPointer))
        && (ref.datasetId in datasets ==>
              match Propagate(extractMap(datasets[ref.datasetId], ref.variableId, params))
              case Ok(fs) => r == Ok(FeaturesAndMemberName(fs, ref.variableId))
              case Err(e) => r == Err(e))
    {
      match ParseLayerName(id)
      case Err(e) => Err(e)
      case Ok(ref) =>
        var varId := ref.variableId;
        if id in gridFeatures then
          match subset(gridFeatures[id], varId, params)
          case Err(e) => Err(e)
          case Ok(origin) => Ok(FeaturesAndMemberName([MapFeature(origin)], varId))
        else
          if ref.datasetId !in datasets then Err(NullPointer)
          else
            match Propagate(extractMap(datasets[ref.datasetId], varId, params))
            case Err(e) => Err(e)
            case Ok(fs) => Ok(FeaturesAndMemberName(fs, varId))
    }

    /** getLayerValue: extract the map features in the sensitivity window
        around the position and read the value of the first one. */
    function GetLayerValue(layerId: string, position: Position, z: Option<real>, time: Option<int>,
                           zRange: Option<Extent<real>>, tRange: Option<Extent<int>>, sensitivity: real,
                           extractMap: Extractor, closest: (Option<real>, seq<real>) -> int): (r: Result<Option<real>>)
      reads this
      ensures ParseLayerName(layerId).Err? ==> r == Err(LayerNotFound)
      ensures ParseLayerName(layerId).Ok? ==>
        var ref := ParseLayerName(layerId).value;
        var params := DomainParams(1, 1, Some(Around(position, sensitivity)), zRange, tRange, None, None, None);
        && (ref.datasetId !in datasets ==> r == Err(NullPointer))
        && (ref.datasetId in datasets ==>
              match Propagate(extractMap(datasets[ref.datasetId], ref.variableId, params))
              case Ok(fs) => r == FirstFeatureValue(fs, z, closest)
              case Err(e) => r == Err(e))
    {
      match GetDatasetFromLayerName(layerId)
      case Err(e) => Err(e)
      case Ok(None) => Err(NullPointer)
      case Ok(Some(ds)) =>
        var varId := Split(layerId)[1];
        var params := DomainParams(1, 1, Some(Around(position, sensitivity)), zRange, tRange, None, None, None);
        match Propagate(extractMap(ds, varId, params))
        case Err(e) => Err(e)
        case Ok(fs) => FirstFeatureValue(fs, z, closest)
    }

    /** getProfiles: an empty list, without extracting, when the dataset does
        not support profile extraction for the variable. */
    function GetProfiles(layerId: string, position: Position, elevationRange: Option<Extent<real>>,
                         timeRange: Option<Extent<int>>, sensitivity: real,
                         extractProfiles: Extractor): (r: Result<seq<Feature>>)
      reads this
      ensures ParseLayerName(layerId).Err? ==> r == Err(LayerNotFound)
      ensures ParseLayerName(layerId).Ok? ==>
        var ref := ParseLayerName(layerId).value;
        var params := DomainParams(1, 1, Some(Around(position, sensitivity)), elevationRange, timeRange,
                                   Some(position), None, None);
        && (ref.datasetId !in datasets ==> r == Err(NullPointer))
        && (ref.datasetId in datasets && ref.variableId !in datasets[ref.datasetId].profileVariables ==> r == Ok([]))
        && (ref.datasetId in datasets && ref.variableId in datasets[ref.datasetId].profileVariables ==>
              r == Propagate(extractProfiles(datasets[ref.datasetId], ref.variableId, params)))
    {
      match GetDatasetFromLayerName(layerId)
      case Err(e) => Err(e)
      case Ok(None) => Err(NullPointer)
      case Ok(Some(ds)) =>
        var varId := Split(layerId)[1];
        if varId !in ds.profileVariables then Ok([])
        else
          Propagate(extractProfiles(ds, varId, DomainParams(1, 1, Some(Around(position, sensitivity)),
                                                           elevationRange, timeRange, Some(position), None, None)))
    }

    /** getTimeseries: the timeseries at the position at the elevation closest
        to the surface; an empty list when extraction is unsupported. */
    function GetTimeseries(layerId: string, position: Position, elevation: Option<real>,
                           extractTimeseries: Extractor,
                           closestToSurface: Option<VerticalDomain> -> Option<real>): (r: Result<seq<Feature>>)
      reads this
      ensures ParseLayerName(layerId).Err? ==> r == Err(LayerNotFound)
      ensures ParseLayerName(layerId).Ok? ==>
        var ref := ParseLayerName(layerId).value;
        && (ref.datasetId !in datasets ==> r == Err(NullPointer))
        && (ref.datasetId in datasets && ref.variableId !in datasets[ref.datasetId].variables ==> r == Err(VariableNotFound))
        && (ref.datasetId in datasets && ref.variableId in datasets[ref.datasetId].variables ==>
              var ds := datasets[ref.datasetId];
              var surface := closestToSurface(ds.variables[ref.variableId].verticalDomain);
              var params := DomainParams(1, 1, None, None, None, Some(position), surface, None);
              match extractTimeseries(ds, ref.variableId, params)
              case Extracted(fs) => r == Ok(fs)
              case Unsupported => r == Ok([])
              case ReadFailure => r == Err(DataReading))
    {
      match GetDatasetFromLayerName(layerId)
      case Err(e) => Err(e)
      case Ok(None) => Err(NullPointer)
      case Ok(Some(ds)) =>
        var varId := Split(layerId)[1];
        if varId !in ds.variables then Err(VariableNotFound)
        else
          var surface := closestToSurface(ds.variables[varId].verticalDomain);
          match extractTimeseries(ds, varId, DomainParams(1, 1, None, None, None, Some(position), surface, None))
          case Extracted(fs) => Ok(fs)
          case Unsupported => Ok([])
          case ReadFailure => Err(DataReading)
    }

    /** createMenuNode: the entry for a variable, its children built in order. */
    method CreateMenuNode(md: VariableMetadata) returns (r: Result<MenuNode>)
      ensures r == VariableMenu(md, layerTitles)
      decreases md
    {
      var layerId := LayerName(md.datasetId, md.id);
      if layerId !in layerTitles {
        return Err(NullPointer);
      }
      var kids: seq<MenuNode> := [];
      var i := 0;
      while i < |md.children|
        invariant 0 <= i <= |md.children|
        invariant VariableMenus(md.children[..i], layerTitles) == Ok(kids)
      {
        assert md.children[i] in md.children;
        var child := CreateMenuNode(md.children[i]);
        assert md.children[..i + 1][..i] == md.children[..i];
        assert md.children[..i + 1][i] == md.children[i];
        if child.Err? {
          VariableMenusPrefixFailure(md.children, i + 1, layerTitles);
          return child;
        }
        kids := kids + [child.value];
        i := i + 1;
      }
      assert md.children[..i] == md.children;
      r := Ok(MenuNode(layerTitles[layerId], layerId, true, kids));
    }

    /** addDatasetToMenu: the dataset's entry, with one child per top-level
        variable, is appended to the root; when building it fails the root is
        left as it was. */
    method AddDatasetToMenu(ds: Dataset) returns (r: Result<MenuNode>)
      modifies this`rootMenuNode
      ensures r == DatasetMenu(ds, datasetTitles, layerTitles)
      ensures rootMenuNode == if r.Ok? then old(rootMenuNode).(children := old(rootMenuNode).children + [r.value])
                              else old(rootMenuNode)
    {
      if ds.id !in datasetTitles {
        return Err(NullPointer);
      }
      var variables := ds.topLevelVariables;
      var kids: seq<MenuNode> := [];
      var i := 0;
      while i < |variables|
        invariant 0 <= i <= |variables|
        invariant VariableMenus(variables[..i], layerTitles) == Ok(kids)
        invariant rootMenuNode == old(rootMenuNode)
      {
        var child := CreateMenuNode(variables[i]);
        assert variables[..i + 1][..i] == variables[..i];
        assert variables[..i + 1][i] == variables[i];
        if child.Err? {
          VariableMenusPrefixFailure(variables, i + 1, layerTitles);
          return child;
        }
        kids := kids + [child.value];
        i := i + 1;
      }
      assert variables[..i] == variables;
      var datasetNode := MenuNode(datasetTitles[ds.id], ds.id, false, kids);
      rootMenuNode := rootMenuNode.(children := rootMenuNode.children + [datasetNode]);
      r := Ok(datasetNode);
    }
  }
}
