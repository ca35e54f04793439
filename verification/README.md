# Quick-QGIS canvas layer management, modelled in Dafny

Quick-QGIS is a desktop map viewer built on the QGIS engine. Almost all of it
is glue to QGIS and Qt. The part it implements itself is the management of the
map canvas's ordered layer list:

- **Basemap switching** is implemented twice, by `LayerManager.load_basemap_by`
  and `BasemapService.load_basemap`. The key is normalised (`None` becomes `""`,
  then upper-cased) and looked up in `BASEMAP_SOURCES`. The engine is asked
  whether the new raster layer is valid. Every canvas layer whose name is a
  basemap display name is then dropped from the canvas and the project. The new
  layer is appended last (the bottom of the drawing order) and recorded in
  `basemap_layers`.
- **Viewport selection** (`set_canvas_extent`) is a bounding-box union over the
  layer extents that are neither null nor empty, with `DEFAULT_EXTENT` as the
  fallback.
- **Sample data** (`create_sample_data`, `add_sample_vector_data`) creates up to
  three memory layers in point, line, polygon order and appends the ones created
  after the existing canvas layers.
- **Constant data** comes from `src/constants.py`: the basemap table, the default
  extent, the sample cities, the window title and the log levels.

## Layout

| file | module | models |
|---|---|---|
| `wrappers.dfy` | `Wrappers` | `Option`, used for Python's `None` |
| `text.dfy` | `Text` | `str.upper` on ASCII letters; equality up to case |
| `ordered_dict.dfy` | `OrderedDict` | insertion-ordered dictionaries as association lists |
| `geometry.dfy` | `Geometry` | points, rectangles, union of extents, the closed ring of a rectangle |
| `constants.dfy` | `Constants` | `src/constants.py` (re-exported by `src/config.py`) |
| `engine.dfy` | `Engine` | the engine objects the core touches: `Layer`, `Canvas`, `Project` |
| `basemaps.dfy` | `Basemaps` | the switching specification, on values |
| `extents.dfy` | `Extents` | the extent fold and the chosen viewport |
| `sample_data.dfy` | `SampleData` | the three sample-layer creators and their collection |
| `layer_manager.dfy` | `LayerManagement` | class `LayerManager` (`src/layer_manager.py`) |
| `basemap_service.dfy` | `BasemapServices` | class `BasemapService` (`src/services/basemap_service.py`) |
| `data_manager.dfy` | `DataManagement` | class `DataManager` (`src/core/data_manager.py`) |

The three manager classes follow the source's form. Each has a `const canvas`,
a `const project` and the dictionary or list that the source updates in place.
Their methods state the whole new state in terms of the old one, using the
specification functions in `Basemaps`, `Extents` and `SampleData`. The
properties are proved about those functions as lemmas.

Layers are objects, so a layer's presence on the canvas (Python's `in` on
engine layers) is reference identity. The engine's answers are inputs:

- `RasterAnswer` says whether a new raster layer is valid, and gives its extent.
- `Creation` says whether building a memory layer raised, or gives the extent
  it reports.
- `isNull` and `isEmpty` are parameters of type `Rect -> bool`.

The QGIS project singleton is passed to each manager's constructor. The
engine's own operations are modelled by `Engine.Canvas.SetLayers`,
`Engine.Canvas.SetExtent`, `Engine.Project.AddMapLayer`,
`Engine.Project.RemoveMapLayer` and `Engine.Layer.AddFeatures`.

Switching removes every canvas layer whose name is a basemap display name,
whichever manager added it, not only the layer recorded in `basemap_layers`
(`Basemaps.KeptLayers`).

## Model

| member | source | states |
|---|---|---|
| `Text.Upper` | src/layer_manager.py:22 | the result has no lower-case letter and equals the key up to case |
| `Text.UpperIgnoresCase` | src/layer_manager.py:22 | keys that differ only in case normalise to the same key |
| `Text.UpperFixesUpperCase` | src/constants.py:26-39 | an upper-case key is its own normal form |
| `Text.UpperIdempotent` | src/layer_manager.py:22 | normalising twice is normalising once |
| `OrderedDict.Get` | src/layer_manager.py:23-27 | a lookup finds a value exactly when the key is present; the value is the one stored under it |
| `OrderedDict.Put` | src/services/basemap_service.py:81 | after `d[k] = v` the entry `(k, v)` is present and every other entry was already in `d` |
| `OrderedDict.PutInPlace` | src/layer_manager.py:99 | a present key is overwritten in its place and a new key is appended last; no other entry changes |
| `OrderedDict.PutKeepsDistinct` | src/services/basemap_service.py:81 | assignment keeps the dictionary's keys distinct |
| `OrderedDict.PutThenGet` | src/services/basemap_service.py:81 | `d[k]` reads back `v`; other keys keep their values and none is removed |
| `Geometry.Combine` | src/layer_manager.py:231-234 | the union contains both extents, is contained in every rectangle containing both, and has area when either has |
| `Geometry.Ring` | src/core/data_manager.py:105-111 | five points starting at the bottom-left corner, closed, every point a corner, every edge axis-parallel |
| `Geometry.RingIsCounterClockwise` | src/core/data_manager.py:105-111 | for a rectangle with area the four corners are distinct and the ring runs counter-clockwise around its area |
| `Constants.SourceKeysAreUpperCase` | src/constants.py:26-39 | the basemap keys are distinct and already upper-case, so normalisation can reach each of them |
| `Constants.DisplayNamesDistinct` | src/constants.py:26-39 | no two basemaps share a display name |
| `Constants.DefaultExtentHasArea` | src/constants.py:18-23 | `DEFAULT_EXTENT` has xmin < xmax and ymin < ymax |
| `Constants.WindowTitleParts` | src/constants.py:7-14 | the window title is the application name, " - ", then the version |
| `Constants.LogLevelsIncrease` | src/constants.py:51-56 | the levels are DEBUG, INFO, WARNING, ERROR, with strictly increasing values |
| `Constants.SampleCitiesDistinct` | src/constants.py:42-48 | there are five sample cities with distinct names |
| `Basemaps.NormaliseKey` | src/layer_manager.py:22 | `None` becomes "", and a given key becomes its upper-case form |
| `Basemaps.LookupSource` | src/layer_manager.py:23-27 | a source is found exactly for the keys of `BASEMAP_SOURCES`, and it is that key's source |
| `Basemaps.AcceptedKeys` | src/layer_manager.py:22-25 | a key is accepted exactly when it equals a basemap key up to case; `None` is never accepted |
| `Basemaps.KnownNames` | src/layer_manager.py:68 | there is one display name per basemap, and "" is not one of them, so a layer whose name raises is kept |
| `Basemaps.SourceNameIsKnown` | src/constants.py:26-39 | the display name of every basemap key is a known basemap name |
| `Basemaps.KeptLayers` | src/layer_manager.py:71-78 | the kept layers are exactly the canvas layers not named after a basemap |
| `Basemaps.BasemapsIn` | src/layer_manager.py:81-83 | the removed layers are exactly the canvas layers named after a basemap |
| `Basemaps.KeptLayersAppend` | src/layer_manager.py:78 | filtering distributes over concatenation, so kept layers keep their relative order |
| `Basemaps.BasemapsInAppend` | src/services/basemap_service.py:63-65 | the removed layers are likewise taken in canvas order |
| `Basemaps.KeptLayersWithoutBasemaps` | src/services/basemap_service.py:60 | a layer list without basemaps is kept whole |
| `Basemaps.KeptLayersIdempotent` | src/services/basemap_service.py:60 | removing old basemaps a second time removes nothing |
| `Basemaps.SwitchLeavesOneBasemap` | src/layer_manager.py:51-58 | after a switch the canvas is the previous non-basemap layers in order, then exactly one basemap, the new one, last |
| `Basemaps.SwitchTwice` | src/services/basemap_service.py:35-39 | two switches equal one switch to the second basemap, so basemaps never accumulate |
| `Basemaps.PutKeepsStored` | src/layer_manager.py:88-99 | recording a basemap's layer under its key keeps every recorded layer named after its key's basemap |
| `Basemaps.StoredIsBasemap` | src/services/basemap_service.py:70-81 | every recorded layer carries a basemap display name |
| `Basemaps.FirstOnCanvas` | src/services/basemap_service.py:92-95 | the position of the first entry in insertion order whose layer is on the canvas, or the length when there is none |
| `Basemaps.StoredOffSwitched` | src/services/basemap_service.py:48-68 | no previously recorded layer stays on the canvas after a switch |
| `Basemaps.CurrentAfterSwitch` | src/services/basemap_service.py:36-39 | after a successful switch to `k`, the current basemap is `k` |
| `Extents.CombinedExtent` | src/layer_manager.py:225-234 | None exactly when no extent is usable (not null, not empty); otherwise a rectangle containing every usable extent |
| `Extents.CombinedExtentIsLeast` | src/layer_manager.py:231-234 | the union is contained in every rectangle containing all usable extents |
| `Extents.CombinedExtentHasArea` | src/layer_manager.py:228-234 | when empty means no area, the union of usable extents has area |
| `Extents.TotalExtent` | src/layer_manager.py:225-234 | the loop raises exactly when some layer's `name()` raises; otherwise it computes the union of the usable extents in canvas order |
| `Extents.ViewportExtent` | src/layer_manager.py:223-242 | the viewport is `DEFAULT_EXTENT`, or a usable rectangle containing every usable layer extent; it is the union itself exactly when a union was formed and is usable, and `DEFAULT_EXTENT` otherwise (no usable layer extent, or a union that the null or empty test rejects) |
| `Extents.ViewportForRectangles` | src/layer_manager.py:236-242 | with rectangle-like tests, the default is used exactly when no extent is usable, otherwise the least cover; the viewport always has area |
| `SampleData.ConnectionLineJoinsCities` | src/core/data_manager.py:83 | the sample line runs from the first sample city (Beijing) to the second (Shanghai) |
| `SampleData.SampleRingShape` | src/core/data_manager.py:105-111 | the polygon ring has five points, starts and ends at (110, 20), visits the four corners of `DEFAULT_EXTENT` and runs counter-clockwise |
| `SampleData.LayerSetAppend` | src/core/data_manager.py:24-39 | appending a layer adds exactly that layer to the set of collected layers |
| `SampleData.CreateCityPointsLayer` | src/core/data_manager.py:52-73 | on success, a fresh registered memory layer with one point feature per sample city, in order, with the city name as attribute; on failure, nothing |
| `SampleData.CreateConnectionLinesLayer` | src/core/data_manager.py:75-95 | on success, a fresh registered memory layer holding the Beijing-Shanghai line; on failure, nothing |
| `SampleData.CreateSamplePolygonLayer` | src/core/data_manager.py:97-123 | on success, a fresh registered memory layer holding the polygon over `DEFAULT_EXTENT`; on failure, nothing |
| `SampleData.CollectSampleLayers` | src/core/data_manager.py:24-39 | the created layers in point, line, polygon order, skipping failures, each carrying the extent the engine reported for it, all fresh and distinct, and all registered |
| `LayerManagement.LayerManager.constructor` | src/layer_manager.py:16-18 | the manager starts with no recorded basemap |
| `LayerManagement.LayerManager.LoadBasemapBy` | src/layer_manager.py:20-64 | the call succeeds exactly for a known key and a valid layer; on failure nothing changes; on success the canvas is switched, the project loses the old basemaps and gains the new layer, and the key's record is overwritten |
| `LayerManagement.LayerManager.RemoveOldBasemaps` | src/layer_manager.py:66-86 | the canvas keeps exactly its non-basemap layers in order, and the project loses exactly the removed ones |
| `LayerManagement.LayerManager.AddBasemapLayer` | src/layer_manager.py:88-102 | the layer is registered, appended last with earlier layers unchanged, and recorded under the key |
| `LayerManagement.LayerManager.AddSampleVectorData` | src/layer_manager.py:104-139 | the canvas prefix is unchanged and is followed by the created layers in point, line, polygon order, with the extents the engine reported for them; with none created the canvas is untouched |
| `LayerManagement.LayerManager.SetCanvasExtent` | src/layer_manager.py:214-249 | when every layer answers `name()`, the canvas shows the union of the usable layer extents, or `DEFAULT_EXTENT`; when some layer's `name()` raises, the extent is left as it was; its layers are unchanged |
| `LayerManagement.LayerManager.SetDefaultExtent` | src/layer_manager.py:251-260 | the canvas shows `DEFAULT_EXTENT` |
| `BasemapServices.BasemapService.constructor` | src/services/basemap_service.py:12-14 | the service starts with no recorded basemap |
| `BasemapServices.BasemapService.LoadBasemap` | src/services/basemap_service.py:16-46 | as for `LoadBasemapBy`; in addition, after a successful switch the current basemap is the normalised key |
| `BasemapServices.BasemapService.RemoveOldBasemaps` | src/services/basemap_service.py:48-68 | the canvas keeps exactly its non-basemap layers in order, and the project loses exactly the removed ones |
| `BasemapServices.BasemapService.AddBasemapLayer` | src/services/basemap_service.py:70-84 | the layer is registered, appended last, and recorded under the key; other keys are kept in place |
| `BasemapServices.BasemapService.GetAvailableBasemaps` | src/services/basemap_service.py:86-88 | the keys OSM, GAODE, ARCGIS in declaration order: exactly the keys with a source, each accepted as it is |
| `BasemapServices.BasemapService.GetCurrentBasemap` | src/services/basemap_service.py:90-95 | the first key in insertion order whose recorded layer is on the canvas, or None when there is no such key |
| `DataManagement.DataManager.constructor` | src/core/data_manager.py:15-17 | the manager starts with no vector layers |
| `DataManagement.DataManager.CreateSampleData` | src/core/data_manager.py:19-50 | the canvas and `vector_layers` are both extended by exactly the created layers, in point, line, polygon order, with the extents the engine reported for them; with none created neither changes |
| `DataManagement.DataManager.AddLayersToCanvas` | src/core/data_manager.py:125-130 | the given layers are appended after the existing canvas layers |
| `DataManagement.DataManager.GetLayers` | src/core/data_manager.py:132-134 | the layers created so far: memory layers, none listed twice |

## Left out

- Printing is not modelled: the provider list, error summaries and tracebacks (src/layer_manager.py:28-35, 40-48), and `debug_canvas_status`. Logging is left out too.
- `canvas.refresh()` is not modelled. Rendering and tile fetching belong to the engine.
- Exceptions raised in the middle of a switch (src/layer_manager.py:60-64, src/services/basemap_service.py:44-46) are not modelled. They depend on engine failures and could leave the state partly updated. The outer `try` blocks of `add_sample_vector_data` and `create_sample_data` are left out for the same reason. In `set_canvas_extent` only a raising `name()` is modelled (`Extents.TotalExtent`); it ends the method before any extent is set.
- A failed sample-layer creator is modelled as raising before `addMapLayer`, so the project is unchanged. A failure after registration is not modelled.
- Basemaps.NormaliseKey, Text.Upper, Basemaps.AcceptedKeys: upper-case ASCII letters only, and compare keys up to ASCII case. Python's `str.upper` also maps other characters, for example 'ſ' to 'S', so the source accepts a few non-ASCII spellings of a key, such as "oſm" and "arcgıs", that the model rejects.
- The engine's validity verdict and a new layer's extent are inputs (`RasterAnswer`, `Creation`), because they are QGIS behaviour. The extent that `updateExtents` computes is not modelled.
- Extents.CombinedExtent: `combineExtentWith` has a special case for a null receiver, which is not modelled. The accumulator always starts from a usable extent, and the model treats the union as plain min/max.
- `isNull` and `isEmpty` are abstract parameters. QGIS's tolerance in comparing doubles is not modelled, and coordinates are exact reals.
- `QgsMapCanvas.setExtent` may widen the extent to fit the widget's aspect ratio. The model records the requested extent.
- `removeMapLayer` also deletes the layer object, so `basemap_layers` can keep references to deleted layers. The model keeps them as plain references.
- Layers are modelled as not renaming themselves after creation, so `name` is constant.
- The truthiness test `if total_extent` is read as "a union was formed". It is always followed by the null and empty tests.
- `APP_DESCRIPTION`, `DEFAULT_WINDOW_WIDTH` and `DEFAULT_WINDOW_HEIGHT` are declared, but no property is stated about them.
- The UI (src/ui_manager.py, src/bridge.py), the bootstrap (src/app.py, main.py), src/core/map_engine.py, src/utils/logger.py and the smoke scripts are not part of this model.
