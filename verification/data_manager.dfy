/** DataManager: creates the sample vector layers and keeps the list of them. */
module DataManagement {
  import opened Engine
  import opened SampleData

  class DataManager {
    const canvas: Canvas
    const project: Project
    /** `vector_layers`: every sample layer created so far, in creation order. */
    var vectorLayers: seq<Layer>

    /** The recorded layers are sample layers, each recorded once. */
    ghost predicate Valid()
      reads this
    {
      (forall i :: 0 <= i < |vectorLayers| ==> vectorLayers[i].provider == "memory") &&
      (forall i, j :: 0 <= i < j < |vectorLayers| ==> vectorLayers[i] != vectorLayers[j])
    }

    constructor (canvas: Canvas, project: Project)
      ensures Valid()
      ensures this.canvas == canvas && this.project == project && vectorLayers == []
    {
      this.canvas := canvas;
      this.project := project;
      vectorLayers := [];
    }

    /**
     * create_sample_data: the layers that were created, in point, line, polygon
     * order, are appended to the canvas and to `vector_layers`; when none was,
     * neither changes.
     */
    method CreateSampleData(point: Creation, line: Creation, polygon: Creation)
      requires Valid()
      modifies this, canvas, project
      ensures Valid()
      ensures |canvas.layers| >= |old(canvas.layers)|
      ensures canvas.layers[..|old(canvas.layers)|] == old(canvas.layers)
      ensures var added := canvas.layers[|old(canvas.layers)|..];
        Names(added) == ExpectedNames(point, line, polygon) &&
        ExtentsOf(added) == ExpectedExtents(point, line, polygon) &&
        (forall i :: 0 <= i < |added| ==> fresh(added[i]) && SampleLayer(added[i])) &&
        vectorLayers == old(vectorLayers) + added &&
        project.layers == old(project.layers) + LayerSet(added)
      ensures point.Failed? && line.Failed? && polygon.Failed? ==>
        canvas.layers == old(canvas.layers) && vectorLayers == old(vectorLayers)
      ensures canvas.extent == old(canvas.extent)
    {
      var layers := CollectSampleLayers(project, point, line, polygon);
      if |layers| > 0 {
        var current := canvas.layers;
        AddLayersToCanvas(layers);
        assert canvas.layers[|current|..] == layers;
        vectorLayers := vectorLayers + layers;
      } else {
        assert canvas.layers[|canvas.layers|..] == layers;
      }
    }

    /** _add_layers_to_canvas: the given layers go after the existing ones. */
    method AddLayersToCanvas(layers: seq<Layer>)
      modifies canvas
      ensures canvas.layers == old(canvas.layers) + layers && canvas.extent == old(canvas.extent)
    {
      var current := canvas.layers;
      canvas.SetLayers(current + layers);
    }

    /** get_layers: the sample layers created so far, each a memory layer, none twice. */
    function GetLayers(): (layers: seq<Layer>)
      requires Valid()
      reads this
      ensures layers == vectorLayers
      ensures forall i :: 0 <= i < |layers| ==> layers[i].provider == "memory"
      ensures forall i, j :: 0 <= i < j < |layers| ==> layers[i] != layers[j]
    {
      vectorLayers
    }
  }
}
