/**
 * The parts of the GIS engine the core touches: map layers, the map canvas
 * (its ordered layer list and its extent) and the project's layer registry.
 * Rendering, tile fetching and coordinate systems are outside this model.
 */
module Engine {
  import opened Wrappers
  import opened Geometry

  datatype Shape = PointShape(at: Point) | LineShape(vertices: seq<Point>) | PolygonShape(rings: seq<seq<Point>>)

  /** A feature: its geometry and its attribute values. */
  datatype Feature = Feature(shape: Shape, attributes: seq<string>)

  /** What the engine reports for a new raster layer: not valid, or valid with its extent. */
  datatype RasterAnswer = Invalid | Loaded(extent: Rect)

  /** How creating a memory layer ends: it raised, or it produced a layer with this extent. */
  datatype Creation = Failed | Created(extent: Rect)

  /**
   * A map layer. Layers are compared by identity, as the engine's layer
   * objects are. `name` is None for a layer whose `name()` raises.
   */
  class Layer {
    const source: string
    const name: Option<string>
    const provider: string
    const extent: Rect
    var features: seq<Feature>

    constructor (source: string, name: Option<string>, provider: string, extent: Rect)
      ensures this.source == source && this.name == name && this.provider == provider
      ensures this.extent == extent && features == []
    {
      this.source := source;
      this.name := name;
      this.provider := provider;
      this.extent := extent;
      features := [];
    }

    /** The data provider's addFeatures: the features are stored after the existing ones. */
    method AddFeatures(fs: seq<Feature>)
      modifies this
      ensures features == old(features) + fs
    {
      features := features + fs;
    }
  }

  /** The name used to classify a layer: its name, or "" when asking for it raises. */
  function NameOf(l: Layer): string {
    l.name.GetOr("")
  }

  /** The map canvas: the layers it draws, in order, and the extent it shows. */
  class Canvas {
    var layers: seq<Layer>
    var extent: Rect

    constructor (extent: Rect)
      ensures layers == [] && this.extent == extent
    {
      layers := [];
      this.extent := extent;
    }

    method SetLayers(ls: seq<Layer>)
      modifies this
      ensures layers == ls && extent == old(extent)
    {
      layers := ls;
    }

    method SetExtent(r: Rect)
      modifies this
      ensures extent == r && layers == old(layers)
    {
      extent := r;
    }
  }

  /** The project's registry of map layers. */
  class Project {
    var layers: set<Layer>

    constructor ()
      ensures layers == {}
    {
      layers := {};
    }

    method AddMapLayer(l: Layer)
      modifies this
      ensures layers == old(layers) + {l}
    {
      layers := layers + {l};
    }

    method RemoveMapLayer(l: Layer)
      modifies this
      ensures layers == old(layers) - {l}
    {
      layers := layers - {l};
    }
  }
}
