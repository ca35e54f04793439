/** BasemapService: loading and switching basemaps, and the basemap queries. */
module BasemapServices {
  import opened Wrappers
  import opened OrderedDict
  import opened Constants
  import opened Engine
  import opened Basemaps

  class BasemapService {
    const canvas: Canvas
    const project: Project
    /** `basemap_layers`: the layer recorded for each basemap key, in insertion order. */
    var basemapLayers: Dict<string, Layer>

    ghost predicate Valid()
      reads this
    {
      StoredBasemaps(basemapLayers)
    }

    constructor (canvas: Canvas, project: Project)
      ensures Valid()
      ensures this.canvas == canvas && this.project == project && basemapLayers == []
    {
      this.canvas := canvas;
      this.project := project;
      basemapLayers := [];
    }

    /**
     * load_basemap: switch to the basemap of `key`, compared without case.
     * `answer` is the engine's verdict on the new raster layer. After a
     * successful switch the switched-to key is the current basemap.
     */
    method LoadBasemap(key: Option<string>, answer: RasterAnswer) returns (ok: bool)
      requires Valid()
      modifies this, canvas, project
      ensures Valid()
      ensures ok <==> LookupSource(NormaliseKey(key)).Some? && answer.Loaded?
      ensures !ok ==>
        canvas.layers == old(canvas.layers) && project.layers == old(project.layers) &&
        basemapLayers == old(basemapLayers)
      ensures ok ==>
        |canvas.layers| > 0 &&
        var src := LookupSource(NormaliseKey(key)).value;
        var nl := canvas.layers[|canvas.layers| - 1];
        fresh(nl) &&
        nl.name == Some(src.name) && nl.source == src.url && nl.provider == "wms" &&
        nl.extent == answer.extent &&
        canvas.layers == Switched(old(canvas.layers), nl) &&
        project.layers == old(project.layers) - BasemapSet(old(canvas.layers)) + {nl} &&
        basemapLayers == Put(old(basemapLayers), NormaliseKey(key), nl)
      ensures ok ==> CurrentBasemap(basemapLayers, canvas.layers) == Some(NormaliseKey(key))
      ensures canvas.extent == old(canvas.extent)
    {
      var k := NormaliseKey(key);
      var src := LookupSource(k);
      if src.None? {
        return false;
      }
      if answer.Invalid? {
        return false;
      }
      var layer := new Layer(src.value.url, Some(src.value.name), "wms", answer.extent);
      assert forall i :: 0 <= i < |basemapLayers| ==> basemapLayers[i].1 != layer;
      PutKeepsStored(basemapLayers, k, layer);
      StoredIsBasemap(k, layer);
      CurrentAfterSwitch(basemapLayers, canvas.layers, k, layer);
      RemoveOldBasemaps();
      AddBasemapLayer(layer, k);
      assert canvas.layers == Switched(old(canvas.layers), layer);
      assert canvas.layers[|canvas.layers| - 1] == layer;
      return true;
    }

    /** _remove_old_basemaps: drop every layer named after a basemap from the canvas and the project. */
    method RemoveOldBasemaps()
      modifies canvas, project
      ensures canvas.layers == KeptLayers(old(canvas.layers))
      ensures project.layers == old(project.layers) - BasemapSet(old(canvas.layers))
      ensures canvas.extent == old(canvas.extent)
    {
      var current := canvas.layers;
      var kept := KeptLayers(current);
      for i := 0 to |current|
        invariant project.layers == old(project.layers) - BasemapSet(current[..i])
        invariant canvas.layers == current && canvas.extent == old(canvas.extent)
      {
        assert current[..i + 1] == current[..i] + [current[i]];
        if IsBasemapLayer(current[i]) {
          project.RemoveMapLayer(current[i]);
        }
      }
      assert current[..|current|] == current;
      canvas.SetLayers(kept);
    }

    /** _add_basemap_layer: register the layer, put it last on the canvas and record it under `key`. */
    method AddBasemapLayer(layer: Layer, key: string)
      modifies this, canvas, project
      ensures project.layers == old(project.layers) + {layer}
      ensures canvas.layers == old(canvas.layers) + [layer] && canvas.extent == old(canvas.extent)
      ensures basemapLayers == Put(old(basemapLayers), key, layer)
    {
      project.AddMapLayer(layer);
      var current := canvas.layers;
      canvas.SetLayers(current + [layer]);
      basemapLayers := Put(basemapLayers, key, layer);
    }

    /**
     * get_available_basemaps: the basemap keys in declaration order. Each is
     * accepted by LoadBasemap as it is, and no other key is.
     */
    function GetAvailableBasemaps(): (keys: seq<string>)
      ensures keys == ["OSM", "GAODE", "ARCGIS"]
      ensures forall k :: k in keys <==> LookupSource(k).Some?
      ensures forall i :: 0 <= i < |keys| ==> NormaliseKey(Some(keys[i])) == keys[i]
    {
      SourceKeysAreUpperCase();
      Keys(BASEMAP_SOURCES)
    }

    /** get_current_basemap: the first key, in insertion order, whose recorded layer is on the canvas. */
    method GetCurrentBasemap() returns (current: Option<string>)
      ensures current.None? <==> forall i :: 0 <= i < |basemapLayers| ==> basemapLayers[i].1 !in canvas.layers
      ensures current.Some? ==>
        exists i :: 0 <= i < |basemapLayers| &&
          basemapLayers[i].0 == current.value && basemapLayers[i].1 in canvas.layers &&
          forall j :: 0 <= j < i ==> basemapLayers[j].1 !in canvas.layers
      ensures current == CurrentBasemap(basemapLayers, canvas.layers)
    {
      for i := 0 to |basemapLayers|
        invariant forall j :: 0 <= j < i ==> basemapLayers[j].1 !in canvas.layers
      {
        if basemapLayers[i].1 in canvas.layers {
          return Some(basemapLayers[i].0);
        }
      }
      return None;
    }
  }
}
