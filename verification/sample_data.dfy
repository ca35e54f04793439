/**
 * The three sample vector layers (city points, the Beijing-Shanghai line and
 * the eastern-China polygon) and their collection in point, line, polygon
 * order. Both LayerManager and DataManager build them the same way.
 */
module SampleData {
  import opened Wrappers
  import opened Geometry
  import opened Constants
  import opened Engine

  const POINT_LAYER_NAME: string := "中国主要城市"
  const LINE_LAYER_NAME: string := "城市连接线"
  const POLYGON_LAYER_NAME: string := "示例区域"
  const LINE_LABEL: string := "北京-上海"
  const POLYGON_LABEL: string := "中国东部区域"

  /** The point feature of one city, with the city's name as its only attribute. */
  function CityFeature(c: City): Feature {
    Feature(PointShape(Point(c.lon, c.lat)), [c.name])
  }

  /** The feature of the connection line layer. */
  function ConnectionLine(): Feature {
    Feature(LineShape([Point(116.4074, 39.9042), Point(121.4737, 31.2304)]), [LINE_LABEL])
  }

  /** The ring of the sample polygon: the corners of DEFAULT_EXTENT, from the bottom-left, closed. */
  function SampleRing(): seq<Point> {
    Ring(DEFAULT_EXTENT)
  }

  function RegionPolygon(): Feature {
    Feature(PolygonShape([SampleRing()]), [POLYGON_LABEL])
  }

  /** The line joins the first two sample cities (Beijing and Shanghai). */
  lemma ConnectionLineJoinsCities()
    ensures ConnectionLine().shape.vertices ==
      [CityFeature(SAMPLE_CITIES[0]).shape.at, CityFeature(SAMPLE_CITIES[1]).shape.at]
  {
  }

  /**
   * The sample polygon's ring has five points, starts at the bottom-left
   * corner (110, 20), closes on itself and runs counter-clockwise around the
   * whole default extent.
   */
  lemma SampleRingShape()
    ensures |SampleRing()| == 5 && SampleRing()[0] == SampleRing()[4] == Point(110.0, 20.0)
    ensures forall i :: 0 <= i < 5 ==> IsCorner(SampleRing()[i], DEFAULT_EXTENT)
    ensures forall i, j :: 0 <= i < j < 4 ==> SampleRing()[i] != SampleRing()[j]
    ensures TwiceSignedArea(SampleRing()) == 2.0 * 20.0 * 25.0
  {
    DefaultExtentHasArea();
    RingIsCounterClockwise(DEFAULT_EXTENT);
  }

  /** A layer created by one of the three sample-layer creators, with its content. */
  ghost predicate SampleLayer(l: Layer)
    reads l
  {
    l.provider == "memory" &&
    ((l.name == Some(POINT_LAYER_NAME) && l.source == "Point?crs=" + DEFAULT_CRS &&
      |l.features| == |SAMPLE_CITIES| &&
      forall i :: 0 <= i < |SAMPLE_CITIES| ==> l.features[i] == CityFeature(SAMPLE_CITIES[i]))
    || (l.name == Some(LINE_LAYER_NAME) && l.source == "LineString?crs=" + DEFAULT_CRS &&
        l.features == [ConnectionLine()])
    || (l.name == Some(POLYGON_LAYER_NAME) && l.source == "Polygon?crs=" + DEFAULT_CRS &&
        l.features == [RegionPolygon()]))
  }

  /** The names of the layers that the creators produce, given which of them succeed, in creation order. */
  function ExpectedNames(point: Creation, line: Creation, polygon: Creation): seq<Option<string>> {
    (if point.Created? then [Some(POINT_LAYER_NAME)] else []) +
    (if line.Created? then [Some(LINE_LAYER_NAME)] else []) +
    (if polygon.Created? then [Some(POLYGON_LAYER_NAME)] else [])
  }

  function Names(layers: seq<Layer>): (names: seq<Option<string>>)
    ensures |names| == |layers|
  {
    seq(|layers|, i requires 0 <= i < |layers| => layers[i].name)
  }

  /** The extents the engine reports for the created layers, in creation order. */
  function ExpectedExtents(point: Creation, line: Creation, polygon: Creation): seq<Rect> {
    (if point.Created? then [point.extent] else []) +
    (if line.Created? then [line.extent] else []) +
    (if polygon.Created? then [polygon.extent] else [])
  }

  function ExtentsOf(layers: seq<Layer>): (extents: seq<Rect>)
    ensures |extents| == |layers|
  {
    seq(|layers|, i requires 0 <= i < |layers| => layers[i].extent)
  }

  function LayerSet(layers: seq<Layer>): set<Layer> {
    set i | 0 <= i < |layers| :: layers[i]
  }

  lemma LayerSetAppend(layers: seq<Layer>, l: Layer)
    ensures LayerSet(layers + [l]) == LayerSet(layers) + {l}
  {
    var s := layers + [l];
    assert s[|layers|] == l;
    forall x | x in LayerSet(layers)
      ensures x in LayerSet(s)
    {
      var i :| 0 <= i < |layers| && layers[i] == x;
      assert s[i] == x;
    }
  }

  /** _create_city_points_layer: one point feature per sample city, in order. */
  method CreateCityPointsLayer(project: Project, outcome: Creation) returns (layer: Option<Layer>)
    modifies project
    ensures outcome.Failed? ==> layer.None? && project.layers == old(project.layers)
    ensures outcome.Created? ==>
      layer.Some? && fresh(layer.value) && SampleLayer(layer.value) &&
      layer.value.name == Some(POINT_LAYER_NAME) && layer.value.extent == outcome.extent &&
      project.layers == old(project.layers) + {layer.value}
  {
    if outcome.Failed? {
      return None;
    }
    var l := new Layer("Point?crs=" + DEFAULT_CRS, Some(POINT_LAYER_NAME), "memory", outcome.extent);
    for i := 0 to |SAMPLE_CITIES|
      invariant |l.features| == i
      invariant project.layers == old(project.layers)
      invariant forall j :: 0 <= j < i ==> l.features[j] == CityFeature(SAMPLE_CITIES[j])
    {
      var city := SAMPLE_CITIES[i];
      l.AddFeatures([Feature(PointShape(Point(city.lon, city.lat)), [city.name])]);
    }
    project.AddMapLayer(l);
    return Some(l);
  }

  /** _create_connection_lines_layer: one line from Beijing to Shanghai. */
  method CreateConnectionLinesLayer(project: Project, outcome: Creation) returns (layer: Option<Layer>)
    modifies project
    ensures outcome.Failed? ==> layer.None? && project.layers == old(project.layers)
    ensures outcome.Created? ==>
      layer.Some? && fresh(layer.value) && SampleLayer(layer.value) &&
      layer.value.name == Some(LINE_LAYER_NAME) && layer.value.extent == outcome.extent &&
      project.layers == old(project.layers) + {layer.value}
  {
    if outcome.Failed? {
      return None;
    }
    var l := new Layer("LineString?crs=" + DEFAULT_CRS, Some(LINE_LAYER_NAME), "memory", outcome.extent);
    l.AddFeatures([ConnectionLine()]);
    project.AddMapLayer(l);
    return Some(l);
  }

  /** _create_sample_polygon_layer: one polygon whose ring outlines DEFAULT_EXTENT. */
  method CreateSamplePolygonLayer(project: Project, outcome: Creation) returns (layer: Option<Layer>)
    modifies project
    ensures outcome.Failed? ==> layer.None? && project.layers == old(project.layers)
    ensures outcome.Created? ==>
      layer.Some? && fresh(layer.value) && SampleLayer(layer.value) &&
      layer.value.name == Some(POLYGON_LAYER_NAME) && layer.value.extent == outcome.extent &&
      project.layers == old(project.layers) + {layer.value}
  {
    if outcome.Failed? {
      return None;
    }
    var l := new Layer("Polygon?crs=" + DEFAULT_CRS, Some(POLYGON_LAYER_NAME), "memory", outcome.extent);
    var ring := [
      Point(DEFAULT_EXTENT.xmin, DEFAULT_EXTENT.ymin),
      Point(DEFAULT_EXTENT.xmax, DEFAULT_EXTENT.ymin),
      Point(DEFAULT_EXTENT.xmax, DEFAULT_EXTENT.ymax),
      Point(DEFAULT_EXTENT.xmin, DEFAULT_EXTENT.ymax),
      Point(DEFAULT_EXTENT.xmin, DEFAULT_EXTENT.ymin)
    ];
    l.AddFeatures([Feature(PolygonShape([ring]), [POLYGON_LABEL])]);
    project.AddMapLayer(l);
    return Some(l);
  }

  /**
   * Runs the three creators and collects the layers that were created, in
   * point, line, polygon order, skipping the ones that failed.
   */
  method CollectSampleLayers(project: Project, point: Creation, line: Creation, polygon: Creation)
    returns (layers: seq<Layer>)
    modifies project
    ensures Names(layers) == ExpectedNames(point, line, polygon)
    ensures ExtentsOf(layers) == ExpectedExtents(point, line, polygon)
    ensures forall i :: 0 <= i < |layers| ==> fresh(layers[i]) && SampleLayer(layers[i])
    ensures forall i, j :: 0 <= i < j < |layers| ==> layers[i] != layers[j]
    ensures project.layers == old(project.layers) + LayerSet(layers)
  {
    layers := [];
    var pointLayer := CreateCityPointsLayer(project, point);
    if pointLayer.Some? {
      LayerSetAppend(layers, pointLayer.value);
      layers := layers + [pointLayer.value];
    }
    var lineLayer := CreateConnectionLinesLayer(project, line);
    if lineLayer.Some? {
      assert forall i :: 0 <= i < |layers| ==> layers[i] != lineLayer.value;
      LayerSetAppend(layers, lineLayer.value);
      layers := layers + [lineLayer.value];
    }
    var polygonLayer := CreateSamplePolygonLayer(project, polygon);
    if polygonLayer.Some? {
      assert forall i :: 0 <= i < |layers| ==> layers[i] != polygonLayer.value;
      LayerSetAppend(layers, polygonLayer.value);
      layers := layers + [polygonLayer.value];
    }
  }
}
