# Video-wall viewer core: a Dafny model

This project models three pieces of the multi-view geospatial viewer's in-memory logic:

- **The catalogue** (`VideoWallCatalogue`).
  - Layer names of the form `<datasetId>/<variableId>` are built, and taken apart again with Java's `String.split("/")` rule.
  - The dataset, variable and metadata lookups built on them raise `WmsLayerNotFoundException` for a malformed name.
  - Point, profile and timeseries queries fall back softly.
  - In-memory grid features are preferred over extraction.
  - The layer menu is built recursively.
- **The single-variable tiled layer** (`SingleEdalDataLayer`).
  - `setData` is a state machine over the layer name, time, elevation, map image and enabled flag.
  - Tiles are rendered into a write-once file store keyed by tile path.
  - A tile is blank, drawn, or a red-cross placeholder.
- **The view controller** (`RescModel`), over the frame's list of views.
  - `setDataLayer` replaces the layer only once a new grid or profile layer exists.
  - `addSliders` creates elevation and time sliders from the layer's domains. It links each slider to every other view's slider with equal limits, and adopts that view's value.
  - Slider events are routed by slider id and layer kind.
  - `showFeatureInfo` chooses which views receive a point query.
  - Grid layers plot only their nearest profile.

Modules:

- `Edal` (`edal.dfy`): the EDAL value types the core consumes.
  - Results that stand for Java exceptions and nulls.
  - Extents, positions and plotting-domain parameters.
  - Variable metadata, datasets and features.
  - Java's `(long)` cast, which truncates toward zero.
- `LayerNames` (`layer_names.dfy`): Java's split, `getLayerName`, and the two-part check.
- `Catalogue` (`catalogue.dfy`): the menu as values, and the class `VideoWallCatalogue`.
- `EdalLayer` (`edal_layer.dfy`): the class `SingleEdalDataLayer` and the class `FileStore`, which stands for the shared data file store.
- `Views` (`resc_model.dfy`): views, sliders and data layers as values, and the class `MultiGlobeFrame`.
  - The class holds every view in `getAllModels` order.
  - Each `RescModel` method is a method on the frame that takes the view's index.

Calls into code outside the core are parameters of the operations that make them:

- a dataset's extraction methods;
- `GISUtils`;
- `MapImage.drawImage`;
- the catalogue's scale-range lookup;
- the grid and profile layer constructors;
- whether a PNG write succeeds.

Times are integer milliseconds since the epoch. Elevations and slider values are `real`.

Two places where the code decides a question, and the model follows the code:

- **Clamping in `setData`.** A time outside the new layer's domain becomes the domain's *high* bound. An elevation outside it becomes the *low* bound. Neither is moved to the nearest bound.
- **Linking in `addSliders`.** When several views match, the last one in view order decides the adopted value.
- **Links are only added.** A reused slider keeps its old links after `setLimits` (src/main/java/uk/ac/rdg/resc/RescModel.java:242, 263 and 295). A view that moves to a different domain therefore stays linked to views whose limits no longer match it.

## Model

| member | source | states |
|---|---|---|
| Edal.Truncate | src/main/java/uk/ac/rdg/resc/RescModel.java:542-544 | `(long)` of a double: the integer part, toward zero, for either sign |
| LayerNames.Split | src/main/java/uk/ac/rdg/resc/VideoWallCatalogue.java:267 | `split("/")`: no part contains a separator; when the name has a separator, the last part is non-empty (trailing empty fields dropped) |
| LayerNames.LayerName | src/main/java/uk/ac/rdg/resc/VideoWallCatalogue.java:289-291 | the name is the dataset id, one '/', then the variable id |
| LayerNames.ParseLayerName | src/main/java/uk/ac/rdg/resc/VideoWallCatalogue.java:266-271 | fails with layer-not-found exactly when the split does not give two parts; otherwise gives both parts |
| LayerNames.GetVariableIdFromLayerName | src/main/java/uk/ac/rdg/resc/VideoWallCatalogue.java:275-282 | layer-not-found exactly when the split does not give two parts; otherwise the second part, which is non-empty and has no separator |
| LayerNames.TrailingSlashesAccepted | src/main/java/uk/ac/rdg/resc/VideoWallCatalogue.java:266-282 | a well-formed name followed by any number of '/' still splits into exactly its two parts (so "a/b/" is accepted) |
| LayerNames.LayerNameRoundTrip | src/main/java/uk/ac/rdg/resc/VideoWallCatalogue.java:266-291 | with separator-free ids and a non-empty variable id, both accessors give back the ids that getLayerName joined |
| LayerNames.AcceptedNamesAreLayerNames | src/main/java/uk/ac/rdg/resc/VideoWallCatalogue.java:266-282 | conversely, every accepted name is getLayerName of its two parts followed only by separators |
| LayerNames.EmptyVariableRejected | src/main/java/uk/ac/rdg/resc/VideoWallCatalogue.java:275-282 | a name with an empty variable part ("a/") is rejected by both accessors |
| Catalogue.VariableMenuDefined | src/main/java/uk/ac/rdg/resc/VideoWallCatalogue.java:253-263 | building a variable's menu entry succeeds exactly when every layer of its subtree has a title; a missing title is a null dereference |
| Catalogue.VariableMenusDefined | src/main/java/uk/ac/rdg/resc/VideoWallCatalogue.java:257-261 | a list of entries builds exactly when every variable in it is fully titled |
| Catalogue.VariableMenusPointwise | src/main/java/uk/ac/rdg/resc/VideoWallCatalogue.java:257-261 | the children are built one per variable, in order, each the variable's own entry |
| Catalogue.VariableMenuShape | src/main/java/uk/ac/rdg/resc/VideoWallCatalogue.java:253-263 | an entry has the layer name as id, is plottable, has the layer's title and one child per child variable; its id parses back to the variable |
| Catalogue.VariableMenusPrefixFailure | src/main/java/uk/ac/rdg/resc/VideoWallCatalogue.java:257-261 | the first child that fails decides the failure of the whole list |
| Catalogue.FirstFeatureValue | src/main/java/uk/ac/rdg/resc/VideoWallCatalogue.java:152-166 | no features gives null; a map feature gives its value at (0, 0); a profile feature gives its value at the closest-elevation index, or an index error; any other feature gives null |
| Catalogue.VideoWallCatalogue.constructor | src/main/java/uk/ac/rdg/resc/VideoWallCatalogue.java:75-81 | no in-memory grid features; the root menu node is ("Datasets", "root", not plottable) with no children |
| Catalogue.VideoWallCatalogue.GetDatasetFromLayerName | src/main/java/uk/ac/rdg/resc/VideoWallCatalogue.java:265-273 | layer-not-found exactly when the split does not give two parts; otherwise the dataset named by the first part, or null when none is loaded |
| Catalogue.VideoWallCatalogue.GetVariableMetadataForLayer | src/main/java/uk/ac/rdg/resc/VideoWallCatalogue.java:226-236 | layer-not-found for a malformed name or an unknown dataset; variable-not-found for an unknown variable; otherwise that dataset's metadata for the variable |
| Catalogue.VideoWallCatalogue.GetFeaturesForLayer | src/main/java/uk/ac/rdg/resc/VideoWallCatalogue.java:119-138 | an in-memory grid feature is subset into one map feature when there is one for the name, and its exception propagates; otherwise the dataset extracts; both results carry the variable id as member name |
| Catalogue.VideoWallCatalogue.GetLayerValue | src/main/java/uk/ac/rdg/resc/VideoWallCatalogue.java:140-167 | extraction over a 1x1 grid in the sensitivity window with the given ranges; the value is the first feature's, as FirstFeatureValue says; extraction errors propagate |
| Catalogue.VideoWallCatalogue.GetProfiles | src/main/java/uk/ac/rdg/resc/VideoWallCatalogue.java:169-192 | an empty list without extracting when the dataset does not support profiles for the variable; otherwise the extraction at the position |
| Catalogue.VideoWallCatalogue.GetTimeseries | src/main/java/uk/ac/rdg/resc/VideoWallCatalogue.java:194-215 | extraction at the position and the elevation closest to the surface; an empty list when extraction is unsupported; other errors propagate |
| Catalogue.VideoWallCatalogue.CreateMenuNode | src/main/java/uk/ac/rdg/resc/VideoWallCatalogue.java:253-263 | the loop builds exactly the recursive menu entry of the variable |
| Catalogue.VideoWallCatalogue.AddDatasetToMenu | src/main/java/uk/ac/rdg/resc/VideoWallCatalogue.java:242-251 | the dataset's entry (titled, not plottable, one child per top-level variable) is appended to the root's children; on failure the root is unchanged |
| EdalLayer.ClampTime | src/main/java/uk/ac/rdg/resc/SingleEdalDataLayer.java:116-119 | a time inside the domain is kept, one outside becomes the high bound; the result lies in any non-empty domain |
| EdalLayer.ClampElevation | src/main/java/uk/ac/rdg/resc/SingleEdalDataLayer.java:120-123 | an elevation inside the domain is kept, one outside becomes the low bound; the result lies in any non-empty domain |
| EdalLayer.ClampIdempotent | src/main/java/uk/ac/rdg/resc/SingleEdalDataLayer.java:116-123 | clamping twice to a non-empty domain is clamping once |
| EdalLayer.TileParams | src/main/java/uk/ac/rdg/resc/SingleEdalDataLayer.java:187-197 | a tile is drawn at its own size over its sector, at the layer's elevation and time, with no ranges and no target position |
| EdalLayer.StoreTile | src/main/java/uk/ac/rdg/resc/SingleEdalDataLayer.java:162-179 | an existing file or a path without a file handle is left alone; otherwise the image is stored if the write succeeds; no other entry changes |
| EdalLayer.TileWrittenOnce | src/main/java/uk/ac/rdg/resc/SingleEdalDataLayer.java:162-169 | once a tile file exists, a later request for it changes nothing, whatever it would draw |
| EdalLayer.SingleEdalDataLayer.constructor | src/main/java/uk/ac/rdg/resc/SingleEdalDataLayer.java:54-74 | a new layer has no name and no map image, is disabled, starts at 2010-07-15T12:00Z and elevation 5.0, and shows no data |
| EdalLayer.SingleEdalDataLayer.IsShowingData | src/main/java/uk/ac/rdg/resc/SingleEdalDataLayer.java:80-82 | data is shown exactly when a name is set and is not empty |
| EdalLayer.SingleEdalDataLayer.SetData | src/main/java/uk/ac/rdg/resc/SingleEdalDataLayer.java:84-153 | null disables and drops the map image and keeps name, time and elevation; a failed range lookup or the current name changes nothing; otherwise the name is taken at once; a failed metadata lookup changes nothing more; on success time and elevation are clamped, the map image is set and the layer enabled |
| EdalLayer.SingleEdalDataLayer.CreateTileImage | src/main/java/uk/ac/rdg/resc/SingleEdalDataLayer.java:182-213 | the blank tile when no map image is configured; the drawn image; the red-cross placeholder when drawing fails |
| EdalLayer.SingleEdalDataLayer.RetrieveRemoteTexture | src/main/java/uk/ac/rdg/resc/SingleEdalDataLayer.java:155-180 | the file store changes exactly as StoreTile says, with the image CreateTileImage chooses |
| Views.MillisRange | src/main/java/uk/ac/rdg/resc/RescModel.java:322-329 | a slider range in milliseconds: both ends truncated toward zero |
| Views.NewSlider | src/main/java/uk/ac/rdg/resc/RescModel.java:238-240 | a new slider has the given id and limits, is not reversed and not linked |
| Views.InitialView | src/main/java/uk/ac/rdg/resc/RescModel.java:88-99 | a new view has no layer, no layer name, no sliders and empty units |
| Views.Link | src/main/java/uk/ac/rdg/resc/RescModel.java:267-278 | the linking loop keeps the slider's id, limits, range and orientation, the layer's identity, and the cursor on the other axis |
| Views.LastAdopter | src/main/java/uk/ac/rdg/resc/RescModel.java:268-277 | the last view in order that is a partner with a data layer, or none: no later view adopts |
| Views.LinkedToEveryPartner | src/main/java/uk/ac/rdg/resc/RescModel.java:267-278 | the slider's links become its previous links plus exactly the other views whose slider on that axis has equal limits; links are never removed, so a reused slider keeps links to views whose limits no longer match |
| Views.LastAdopterWins | src/main/java/uk/ac/rdg/resc/RescModel.java:300-312 | the slider takes the value of the last partner with a data layer and the layer's cursor follows; with no such partner neither changes |
| Views.ElevationSliderFor | src/main/java/uk/ac/rdg/resc/RescModel.java:237-265 | the reused or new slider gets the domain's limits, is reversed exactly when a CRS is present and not positive-upwards, and shows the layer's elevation |
| Views.TimeSliderFor | src/main/java/uk/ac/rdg/resc/RescModel.java:290-298 | the reused or new slider gets the domain's limits in milliseconds and shows the layer's time |
| Views.UnitsFor | src/main/java/uk/ac/rdg/resc/RescModel.java:257-259 | the CRS's units when it names any, otherwise the previous units |
| Views.AddSlidersSpec | src/main/java/uk/ac/rdg/resc/RescModel.java:234-320 | an elevation slider exists exactly when there is a vertical domain, a time slider exactly when there is a temporal domain; limits, orientation and units follow the domains; the layer keeps its kind and name |
| Views.SlidersShowLayerCursor | src/main/java/uk/ac/rdg/resc/RescModel.java:265-310 | after addSliders each slider's value is the layer's cursor on that axis (the time truncated to milliseconds) |
| Views.FeatureTypeOf | src/main/java/uk/ac/rdg/resc/RescModel.java:175-177 | layer-not-found for a malformed name; a null dereference for an unknown dataset or a variable without a feature type; otherwise that type |
| Views.Retire | src/main/java/uk/ac/rdg/resc/RescModel.java:205-211 | the current layer, if any, is destroyed and kept after the previously destroyed ones |
| Views.Install | src/main/java/uk/ac/rdg/resc/RescModel.java:205-230 | the new layer of the given kind and name replaces the old one, which is destroyed; sliders follow the metadata if there is any and are otherwise untouched; the name is recorded; other views are unchanged |
| Views.SetDataLayerSpec | src/main/java/uk/ac/rdg/resc/RescModel.java:172-232 | no change for a null or unchanged name; the lookup exceptions, and nothing else, propagate and leave every view unchanged; a failed build changes nothing; a change means the new name, a layer of that name and the old layer destroyed; other views never change |
| Views.NewLayerInstalled | src/main/java/uk/ac/rdg/resc/RescModel.java:179-230 | a buildable grid or profile layer is installed: grid exactly for map features, old layer destroyed, name taken |
| Views.SetDataLayerAsWritten | src/main/java/uk/ac/rdg/resc/RescModel.java:179-223 | for a type that is neither map nor profile: the old layer is destroyed, the view has no layer and the call throws |
| Views.UnplottableTypeLosesLayer | src/main/java/uk/ac/rdg/resc/RescModel.java:179-230 | as written a foreign feature type loses the shown layer, throws and keeps the stale name; as intended nothing changes |
| Views.OnSliderChanged | src/main/java/uk/ac/rdg/resc/RescModel.java:531-552 | the dragged slider holds the new value and range; the elevation slider moves any layer's elevation with the slider's range; the time slider moves only a grid layer's time, truncated; other ids, or no layer, leave the layer alone |
| Views.OnSliderSettled | src/main/java/uk/ac/rdg/resc/RescModel.java:568-594 | a grid layer caches around its cursor; a profile layer re-applies the time slider's value and range when the time slider settles, and throws if the view has none; otherwise nothing happens |
| Views.TimeFollowsSettledSlider | src/main/java/uk/ac/rdg/resc/RescModel.java:539-589 | after dragging the time slider to x and letting it settle, the slider shows x and the layer, of either kind, plots time (long) x; a profile layer gets it only on the settle, with the slider's range |
| Views.ElevationFollowsSlider | src/main/java/uk/ac/rdg/resc/RescModel.java:533-537 | after dragging the elevation slider to z and letting it settle, the slider and the layer both stand at z |
| Views.InSyncBeforeExact | src/main/java/uk/ac/rdg/resc/RescModel.java:344-356 | the other views queried are exactly those with a time slider at the same value in the same linked-view state, each once, in view order |
| Views.FeatureInfoTargetsExact | src/main/java/uk/ac/rdg/resc/RescModel.java:331-359 | as intended: no view unless a layer name is shown; then this view first, and, when linked or antilinked with a time slider, exactly the views in sync with it |
| Views.ScanAsWritten | src/main/java/uk/ac/rdg/resc/RescModel.java:344-356 | the loop as written only appends to the views already queried |
| Views.ScanThrowsExactly | src/main/java/uk/ac/rdg/resc/RescModel.java:344-356 | the loop as written throws a null dereference exactly when a view it still has to visit, other than this one, lacks a time slider, or this view lacks one |
| Views.ScanQueriesInSync | src/main/java/uk/ac/rdg/resc/RescModel.java:344-356 | with a time slider on this view, the loop queries a prefix of the in-sync views from its position on, and all of them when it does not throw |
| Views.ScanWithoutTimeSliderQueriesNothing | src/main/java/uk/ac/rdg/resc/RescModel.java:344-356 | without a time slider on this view, the loop queries no other view |
| Views.InSyncSplit | src/main/java/uk/ac/rdg/resc/RescModel.java:343-356 | the in-sync views before j followed by those from j on are all the in-sync views |
| Views.FeatureInfoFanOutAsWritten | src/main/java/uk/ac/rdg/resc/RescModel.java:335-357 | as written: nothing without a shown layer, otherwise this view is queried first |
| Views.FeatureInfoAsWrittenQueriesIntendedPrefix | src/main/java/uk/ac/rdg/resc/RescModel.java:334-357 | for all inputs, the code as written queries a prefix of the intended views, in order, and exactly the intended views when it does not throw |
| Views.FeatureInfoAsWrittenThrowsExactly | src/main/java/uk/ac/rdg/resc/RescModel.java:334-357 | for all inputs, the code as written throws a null dereference exactly when a layer is shown, the gate as parsed (`LINKED \|\| (ANTILINKED && timeSlider != null)`) holds, and some other view exists while this view or that one has no time slider |
| Views.LinkedWithoutTimeSliderThrows | src/main/java/uk/ac/rdg/resc/RescModel.java:341-351 | a linked view without a time slider, beside another view, throws in the loop as written, but queries only itself as intended |
| Views.OtherViewWithoutTimeSliderThrows | src/main/java/uk/ac/rdg/resc/RescModel.java:350-351 | another view without a time slider makes the loop as written throw; as intended it is skipped |
| Views.ProfilesToPlot | src/main/java/uk/ac/rdg/resc/RescModel.java:476-486 | a non-empty prefix of the profiles: only the first for a grid layer, all of them otherwise |
| Views.MultiGlobeFrame.constructor | src/main/java/uk/ac/rdg/resc/RescModel.java:109-114 | one view per window, each as InitialView says, in its window's linked-view state |
| Views.MultiGlobeFrame.SetDataLayer | src/main/java/uk/ac/rdg/resc/RescModel.java:172-232 | the new views and the outcome are those of SetDataLayerSpec |
| Views.MultiGlobeFrame.AddSliders | src/main/java/uk/ac/rdg/resc/RescModel.java:234-320 | only this view changes, to AddSlidersSpec; the two loops compute Link |
| Views.MultiGlobeFrame.SliderChanged | src/main/java/uk/ac/rdg/resc/RescModel.java:531-552 | only this view changes, to OnSliderChanged: the slider holds the dragged value and the layer follows |
| Views.MultiGlobeFrame.SliderSettled | src/main/java/uk/ac/rdg/resc/RescModel.java:568-594 | this view changes to OnSliderSettled, or the call throws and nothing changes |
| Views.MultiGlobeFrame.ShowFeatureInfo | src/main/java/uk/ac/rdg/resc/RescModel.java:331-359 | the views queried, in order, are FeatureInfoTargets |

## Left out

- I/O is not modelled: configuration reading, the hard-coded configuration path, `datasetLoaded`, and logging.
  - The data file store is a map from tile path to image.
  - A failed PNG write is modelled as no file, so a partly written file is not modelled.
- Rendering is opaque; only which tile outcome is chosen is modelled. This covers `MapImage.drawImage`, colour schemes, `Graphics2D` and `ImageIO`.
- Not modelled:
  - `setExpiryTime`;
  - `makeLevels`;
  - `firePropertyChange`;
  - globe and map switching;
  - annotation layers, legends, palette handlers and feature-info balloons.
  These are calls into WorldWind and the user interface.
- The body of `doShowFeatureInfo` is not modelled, except the rule that a grid layer plots one profile. It runs on an executor thread and builds charts into files. `ShowFeatureInfo` returns which views are queried, and takes no query position.
- The sensitivity-window arithmetic is not modelled; the window is the position and half-width. Also not modelled: `DecimalFormat` and time formatting in `formatSliderValue`, and the NaN test on values.
- Doubles and floats are unbounded `real`s; rounding, NaN and infinities are not modelled. Java's `long` is an unbounded `int`, truncated toward zero.
- `Dataset.getVariableMetadata` is foreign, and its source is not part of this model. The model takes an unknown variable id to raise an `EdalException` (`VariableNotFound`), which the `catch` in `setData` (src/main/java/uk/ac/rdg/resc/SingleEdalDataLayer.java:111-124) then catches. The source shows no such exception: `getVariableMetadataForLayer` declares only `WmsLayerNotFoundException`. If the call returned `null` instead, `setData` and `getTimeseries` would dereference it; the model does not capture that path.
- `layerIsGridded` is not modelled. It is a type test on foreign metadata.
- `SliderWidgetAnnotation`, `EdalGridDataLayer`, `EdalProfileDataLayer` and `LinkedView` are not part of this model; they are represented by abstract values.
  - Equal limits are taken to mean equal low and high.
  - A new slider's range is taken to be its limits, and `setLimits` to keep the value, range and links.
  - A dragged slider is taken to hold the new value and range before it raises `sliderChanged`; `Views.Dragged` models that.
  - `linkSlider` records the partner's index on this slider only.
  - A layer's `setElevation`/`setTime` are taken to move the cursor its getters report.
- `Views.MultiGlobeFrame.AddSliders`, `Views.Link`: a linked partner's slider is not changed. The model does not capture any two-way linking the widget performs.
- Constructing the grid or profile layer in `setDataLayer` is a parameter. It either yields the layer's metadata, elevation and time, or fails.
- Nothing in this code fills `gridFeatures`: the preload at src/main/java/uk/ac/rdg/resc/VideoWallCatalogue.java:95-106 is commented out. The model keeps the field and the branch that reads it.
- The closest-elevation lookup in `getLayerValue` (`GISUtils`) is a parameter. An index it returns outside the profile is an exception.
- Java's `Set` iteration order of top-level and child variables is a fixed `seq` order.
- Slider ids are non-null strings, so the Java `switch` cannot throw on them.

## Findings

| source | as written | input that shows it | evidently intended | confidence | as-written member | corrected member |
|---|---|---|---|---|---|---|
| src/main/java/uk/ac/rdg/resc/RescModel.java:341-343 | the gate parses as `LINKED \|\| (ANTILINKED && timeSlider != null)`, so a linked view without a time slider enters the loop and dereferences its missing slider | a linked view showing "d/v" with no time slider, and one other view with a time slider | fan out only when the view is linked or antilinked and has a time slider | not executed | Views.FeatureInfoFanOutAsWritten, Views.LinkedWithoutTimeSliderThrows | Views.FeatureInfoTargets, Views.FeatureInfoTargetsExact |
| src/main/java/uk/ac/rdg/resc/RescModel.java:350-351 | the loop reads every other view's time slider without a null check | an antilinked view with a time slider, beside a view that has none | views without a time slider are skipped | not executed | Views.FeatureInfoFanOutAsWritten, Views.OtherViewWithoutTimeSliderThrows | Views.FeatureInfoTargets, Views.FeatureInfoTargetsExact |
| src/main/java/uk/ac/rdg/resc/RescModel.java:179-223 | for a map feature type that is neither a map nor a profile type, no layer is built, yet the old one is destroyed and replaced by null, and `getVariableMetadata` on it throws, leaving the stale name | a view showing a layer, then `setDataLayer` with a new layer name whose variable reports another feature type | keep the previous layer when no new layer was built | not executed | Views.SetDataLayerAsWritten, Views.UnplottableTypeLosesLayer | Views.SetDataLayerSpec, Views.NewLayerInstalled |
