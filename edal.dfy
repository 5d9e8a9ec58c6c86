/**
 * Value types of the EDAL library that the video-wall core consumes: outcome
 * wrappers for Java's exceptions and nulls, extents, positions, the plotting
 * domain passed to extraction calls, variable metadata, datasets and the
 * features that extraction returns.
 */
module Edal {

  datatype Option<+T> = None | Some(value: T)

  /** The exceptions the core raises or lets through. */
  datatype Failure =
    | LayerNotFound        // WmsLayerNotFoundException
    | VariableNotFound     // the dataset has no such variable
    | NullPointer          // a null reference is dereferenced
    | UnsupportedOperation // UnsupportedOperationException from an extraction
    | DataReading          // any other EdalException from an extraction
    | IndexOutOfBounds     // a list index outside the list

  /** A value or the exception that replaced it. */
  datatype Result<+T> = Ok(value: T) | Err(error: Failure)

  /** A closed range [low, high], as `Extent` is in EDAL. */
  datatype Extent<T> = Extent(low: T, high: T)

  /** The domain `contains` test, taken to mean low <= x <= high. */
  predicate ContainsTime(e: Extent<int>, t: int) {
    e.low <= t <= e.high
  }

  predicate ContainsElevation(e: Extent<real>, z: real) {
    e.low <= z <= e.high
  }

  datatype Position = Position(longitude: real, latitude: real)

  /** A query box: either the square of half-width `halfWidth` around a point
      (the "sensitivity" window) or the sector of a map tile. */
  datatype BoundingBox =
    | Around(centre: Position, halfWidth: real)
    | SectorBox(minLon: real, minLat: real, maxLon: real, maxLat: real)

  /** The fields of a PlottingDomainParams, in its constructor's order. */
  datatype DomainParams = DomainParams(
    width: int, height: int,
    bbox: Option<BoundingBox>,
    zExtent: Option<Extent<real>>,
    tExtent: Option<Extent<int>>,
    targetPosition: Option<Position>,
    targetZ: Option<real>,
    targetT: Option<int>)

  datatype VerticalCrs = VerticalCrs(positiveUpwards: bool, units: Option<string>)

  datatype VerticalDomain = VerticalDomain(extent: Extent<real>, crs: Option<VerticalCrs>)

  /** A variable of a dataset (times in milliseconds since the epoch). Child
      variables are listed in the order the model iterates them. */
  datatype VariableMetadata = VariableMetadata(
    id: string,
    datasetId: string,
    temporalDomain: Option<Extent<int>>,
    verticalDomain: Option<VerticalDomain>,
    children: seq<VariableMetadata>)

  /** The class of feature a dataset's `getMapFeatureType` reports. */
  datatype FeatureType = MapType | ProfileType | OtherType

  /** What the core needs to know of a Dataset. */
  datatype Dataset = Dataset(
    id: string,
    variables: map<string, VariableMetadata>,
    topLevelVariables: seq<VariableMetadata>,
    mapFeatureTypes: map<string, FeatureType>,
    profileVariables: set<string>)   // variables supporting profile extraction

  /** A discrete feature returned by an extraction; a missing number is None. */
  datatype Feature =
    | MapFeature(originValue: Option<real>)                          // value at grid cell (0, 0)
    | ProfileFeature(elevations: seq<real>, values: seq<Option<real>>)
    | PointSeriesFeature(times: seq<int>, values: seq<Option<real>>)
    | OtherFeature

  /** An in-memory grid feature, identified by its layer. */
  datatype GridFeature = GridFeature(layerId: string)

  /** How a call into a dataset's extraction ends. */
  datatype Extraction =
    | Extracted(features: seq<Feature>)
    | Unsupported            // UnsupportedOperationException
    | ReadFailure            // EdalException

  /** The extraction methods of a dataset: (dataset, variable id, params). */
  type Extractor = (Dataset, string, DomainParams) -> Extraction

  /** Java's `(long) x` for a double in range: truncation toward zero. */
  function Truncate(x: real): (r: int)
    ensures x >= 0.0 ==> 0 <= r && r as real <= x < r as real + 1.0
    ensures x < 0.0 ==> r <= 0 && r as real - 1.0 < x <= r as real
  {
    if x >= 0.0 then x.Floor else -((-x).Floor)
  }

  lemma TruncateIntegral(t: int)
    ensures Truncate(t as real) == t
  {
  }
}
