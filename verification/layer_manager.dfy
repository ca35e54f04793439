/** LayerManager: basemap switching, sample vector layers and the canvas extent. */
module LayerManagement {
  import opened Wrappers
  import opened OrderedDict
  import opened Geometry
  import opened Constants
  import opened Engine
  import opened Basemaps
  import opened Extents
  import opened SampleData

  class LayerManager {
    const canvas: Canvas
    const project: Project
    /** `basemap_layers`: the layer recorded for each basemap key, in insertion order. */
    var basemapLayers: Dict<string, Layer>

    /**
     * The invariant of `basemap_layers`, the same one BasemapService keeps;
     * this class has no current-basemap query that relies on it.
     */
    ghost predicate Valid()
      reads this
    {
      StoredBasemaps(basemapLayers)
    }

    constructor (canvas: Canvas, project: Project)
      ensures Valid()
      ensures this.canvas == canvas && this.project == project && basemapLayers == []
    {
      this.canvas := canvas;
      this.project := project;
      basemapLayers := [];
    }

    /**
     * load_basemap_by: switch to the basemap of `key`, compared without case.
     * `answer` is the engine's verdict on the new raster layer.
     */
    method LoadBasemapBy(key: Option<string>, answer: RasterAnswer) returns (ok: bool)
      requires Valid()
      modifies this, canvas, project
      ensures Valid()
      ensures ok <==> LookupSource(NormaliseKey(key)).Some? && answer.Loaded?
      ensures !ok ==>
        canvas.layers == old(canvas.layers) && project.layers == old(project.layers) &&
        basemapLayers == old(basemapLayers)
      ensures ok ==>
        |canvas.layers| > 0 &&
        var src := LookupSource(NormaliseKey(key)).value;
        var nl := canvas.layers[|canvas.layers| - 1];
        fresh(nl) &&
        nl.name == Some(src.name) && nl.source == src.url && nl.provider == "wms" &&
        nl.extent == answer.extent &&
        canvas.layers == Switched(old(canvas.layers), nl) &&
        project.layers == old(project.layers) - BasemapSet(old(canvas.layers)) + {nl} &&
        basemapLayers == Put(old(basemapLayers), NormaliseKey(key), nl)
      ensures canvas.extent == old(canvas.extent)
    {
      var k := NormaliseKey(key);
      var src := LookupSource(k);
      if src.None? {
        return false;
      }
      if answer.Invalid? {
        return false;
      }
      var layer := new Layer(src.value.url, Some(src.value.name), "wms", answer.extent);
      PutKeepsStored(basemapLayers, k, layer);
      RemoveOldBasemaps();
      AddBasemapLayer(layer, k);
      assert canvas.layers == Switched(old(canvas.layers), layer);
      assert canvas.layers[|canvas.layers| - 1] == layer;
      return true;
    }

    /** _remove_old_basemaps: drop every layer named after a basemap from the canvas and the project. */
    method RemoveOldBasemaps()
      modifies canvas, project
      ensures canvas.layers == KeptLayers(old(canvas.layers))
      ensures project.layers == old(project.layers) - BasemapSet(old(canvas.layers))
      ensures canvas.extent == old(canvas.extent)
    {
      var current := canvas.layers;
      var kept := KeptLayers(current);
      for i := 0 to |current|
        invariant project.layers == old(project.layers) - BasemapSet(current[..i])
        invariant canvas.layers == current && canvas.extent == old(canvas.extent)
      {
        assert current[..i + 1] == current[..i] + [current[i]];
        if IsBasemapLayer(current[i]) {
          project.RemoveMapLayer(current[i]);
        }
      }
      assert current[..|current|] == current;
      canvas.SetLayers(kept);
    }

    /** _add_basemap_layer: register the layer, put it last on the canvas and record it under `key`. */
    method AddBasemapLayer(layer: Layer, key: string)
      modifies this, canvas, project
      ensures project.layers == old(project.layers) + {layer}
      ensures canvas.layers == old(canvas.layers) + [layer] && canvas.extent == old(canvas.extent)
      ensures basemapLayers == Put(old(basemapLayers), key, layer)
    {
      project.AddMapLayer(layer);
      var current := canvas.layers;
      canvas.SetLayers(current + [layer]);
      basemapLayers := Put(basemapLayers, key, layer);
    }

    /**
     * add_sample_vector_data: the sample layers that were created are appended
     * after the existing canvas layers; when none was, the canvas is untouched.
     */
    method AddSampleVectorData(point: Creation, line: Creation, polygon: Creation)
      modifies canvas, project
      ensures |canvas.layers| >= |old(canvas.layers)|
      ensures canvas.layers[..|old(canvas.layers)|] == old(canvas.layers)
      ensures var added := canvas.layers[|old(canvas.layers)|..];
        Names(added) == ExpectedNames(point, line, polygon) &&
        ExtentsOf(added) == ExpectedExtents(point, line, polygon) &&
        (forall i :: 0 <= i < |added| ==> fresh(added[i]) && SampleLayer(added[i])) &&
        project.layers == old(project.layers) + LayerSet(added)
      ensures canvas.extent == old(canvas.extent)
    {
      var layers := CollectSampleLayers(project, point, line, polygon);
      if |layers| > 0 {
        var current := canvas.layers;
        canvas.SetLayers(current + layers);
        assert canvas.layers[|current|..] == layers;
      } else {
        assert canvas.layers[|canvas.layers|..] == layers;
      }
    }

    /**
     * set_canvas_extent: show the union of the usable layer extents, or the
     * default extent. When a layer's `name()` raises, the exception ends the
     * method before any extent is set.
     */
    method SetCanvasExtent(isNull: Rect -> bool, isEmpty: Rect -> bool)
      modifies canvas
      ensures canvas.layers == old(canvas.layers)
      ensures AllNamed(canvas.layers) ==> canvas.extent == ViewportExtent(canvas.layers, isNull, isEmpty)
      ensures !AllNamed(canvas.layers) ==> canvas.extent == old(canvas.extent)
    {
      var layers := canvas.layers;
      if |layers| > 0 {
        var raised, total := TotalExtent(layers, isNull, isEmpty);
        if raised {
          return;
        }
        if total.Some? && !isNull(total.value) && !isEmpty(total.value) {
          canvas.SetExtent(total.value);
        } else {
          SetDefaultExtent();
        }
      } else {
        SetDefaultExtent();
      }
    }

    /** _set_default_extent. */
    method SetDefaultExtent()
      modifies canvas
      ensures canvas.extent == DEFAULT_EXTENT && canvas.layers == old(canvas.layers)
    {
      canvas.SetExtent(Rect(DEFAULT_EXTENT.xmin, DEFAULT_EXTENT.ymin, DEFAULT_EXTENT.xmax, DEFAULT_EXTENT.ymax));
    }
  }
}
