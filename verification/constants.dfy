/** The application's constant data (src/constants.py, re-exported by src/config.py). */
module Constants {
  import opened Geometry
  import opened OrderedDict
  import opened Text

  const APP_NAME: string := "Quick-QGIS"
  const APP_VERSION: string := "2.0.0"
  const APP_DESCRIPTION: string := "基于QGIS的快速地图显示应用程序"

  const DEFAULT_WINDOW_WIDTH: nat := 1000
  const DEFAULT_WINDOW_HEIGHT: nat := 700
  const DEFAULT_WINDOW_TITLE: string := APP_NAME + " - " + APP_VERSION

  const DEFAULT_CRS: string := "EPSG:4326"
  const DEFAULT_EXTENT: Rect := Rect(110.0, 20.0, 130.0, 45.0)

  /** One tile source: the display name of its layer and the XYZ request for the "wms" provider. */
  datatype BasemapSource = BasemapSource(name: string, url: string)

  const BASEMAP_SOURCES: Dict<string, BasemapSource> := [
    ("OSM", BasemapSource("OpenStreetMap",
      "type=xyz&url=https://tile.openstreetmap.org/{z}/{x}/{y}.png")),
    ("GAODE", BasemapSource("高德街道图",
      "type=xyz&url=https://webrd01.is.autonavi.com/appmaptile?lang=zh_cn&size=1&scale=1&style=8&x={x}&y={y}&z={z}")),
    ("ARCGIS", BasemapSource("ArcGIS中国地图",
      "type=xyz&url=https://map.geoq.cn/ArcGIS/rest/services/ChinaOnlineCommunity/MapServer/tile/{z}/{y}/{x}"))
  ]

  datatype City = City(name: string, lon: real, lat: real)

  const SAMPLE_CITIES: seq<City> := [
    City("北京", 116.4074, 39.9042),
    City("上海", 121.4737, 31.2304),
    City("广州", 113.2644, 23.1291),
    City("深圳", 114.0579, 22.5431),
    City("杭州", 120.1551, 30.2741)
  ]

  const LOG_LEVELS: Dict<string, int> := [("DEBUG", 10), ("INFO", 20), ("WARNING", 30), ("ERROR", 40)]

  /** Every basemap key is upper-case already, so upper-casing a request can match each of them. */
  lemma SourceKeysAreUpperCase()
    ensures DistinctKeys(BASEMAP_SOURCES)
    ensures forall i :: 0 <= i < |BASEMAP_SOURCES| ==> Upper(BASEMAP_SOURCES[i].0) == BASEMAP_SOURCES[i].0
  {
    forall i | 0 <= i < |BASEMAP_SOURCES|
      ensures Upper(BASEMAP_SOURCES[i].0) == BASEMAP_SOURCES[i].0
    {
      UpperFixesUpperCase(BASEMAP_SOURCES[i].0);
    }
  }

  /** No two basemaps share a display name, so a layer's name identifies its basemap. */
  lemma DisplayNamesDistinct()
    ensures forall i, j :: 0 <= i < j < |BASEMAP_SOURCES| ==> BASEMAP_SOURCES[i].1.name != BASEMAP_SOURCES[j].1.name
  {
  }

  /** The fallback extent has area: xmin < xmax and ymin < ymax. */
  lemma DefaultExtentHasArea()
    ensures DEFAULT_EXTENT.xmin < DEFAULT_EXTENT.xmax && DEFAULT_EXTENT.ymin < DEFAULT_EXTENT.ymax
    ensures !Degenerate(DEFAULT_EXTENT)
  {
  }

  /** The window title is the application name, " - ", then the version. */
  lemma WindowTitleParts()
    ensures DEFAULT_WINDOW_TITLE[..|APP_NAME|] == APP_NAME
    ensures DEFAULT_WINDOW_TITLE[|APP_NAME|..|APP_NAME| + 3] == " - "
    ensures DEFAULT_WINDOW_TITLE[|APP_NAME| + 3..] == APP_VERSION
  {
  }

  /** The log levels are declared in strictly increasing severity: DEBUG < INFO < WARNING < ERROR. */
  lemma LogLevelsIncrease()
    ensures Keys(LOG_LEVELS) == ["DEBUG", "INFO", "WARNING", "ERROR"]
    ensures forall i, j :: 0 <= i < j < |LOG_LEVELS| ==> LOG_LEVELS[i].1 < LOG_LEVELS[j].1
  {
  }

  /** There are five sample cities and no two share a name. */
  lemma SampleCitiesDistinct()
    ensures |SAMPLE_CITIES| == 5
    ensures forall i, j :: 0 <= i < j < |SAMPLE_CITIES| ==> SAMPLE_CITIES[i].name != SAMPLE_CITIES[j].name
  {
  }
}
