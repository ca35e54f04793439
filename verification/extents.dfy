/**
 * Choosing the canvas extent: the union of the layer extents that are
 * neither null nor empty, or the default extent when there is none.
 * The engine's isNull and isEmpty tests are parameters.
 */
module Extents {
  import opened Wrappers
  import opened Geometry
  import opened Constants
  import opened Engine

  /** An extent that takes part in the union: neither null nor empty. */
  predicate Usable(r: Rect, isNull: Rect -> bool, isEmpty: Rect -> bool) {
    !isNull(r) && !isEmpty(r)
  }

  /**
   * The running union after visiting `layers` from first to last: None until a
   * usable extent is seen, then the union of all usable extents so far.
   */
  function CombinedExtent(layers: seq<Layer>, isNull: Rect -> bool, isEmpty: Rect -> bool): (total: Option<Rect>)
    ensures total.None? <==> forall i :: 0 <= i < |layers| ==> !Usable(layers[i].extent, isNull, isEmpty)
    ensures total.Some? ==>
      forall i :: 0 <= i < |layers| && Usable(layers[i].extent, isNull, isEmpty) ==> Contains(total.value, layers[i].extent)
    decreases |layers|
  {
    if |layers| == 0 then None
    else
      var prefix := CombinedExtent(layers[..|layers| - 1], isNull, isEmpty);
      var e := layers[|layers| - 1].extent;
      if !Usable(e, isNull, isEmpty) then prefix
      else if prefix.None? then Some(e)
      else Some(Combine(prefix.value, e))
  }

  /** The union is the smallest rectangle containing every usable extent. */
  lemma {:induction false} CombinedExtentIsLeast(layers: seq<Layer>, isNull: Rect -> bool, isEmpty: Rect -> bool, c: Rect)
    requires forall i :: 0 <= i < |layers| && Usable(layers[i].extent, isNull, isEmpty) ==> Contains(c, layers[i].extent)
    ensures CombinedExtent(layers, isNull, isEmpty).Some? ==> Contains(c, CombinedExtent(layers, isNull, isEmpty).value)
    decreases |layers|
  {
    if |layers| > 0 {
      var front := layers[..|layers| - 1];
      assert forall i :: 0 <= i < |front| ==> front[i] == layers[i];
      CombinedExtentIsLeast(front, isNull, isEmpty, c);
    }
  }

  /** Every union of rectangles with area has area. */
  lemma {:induction false} CombinedExtentHasArea(layers: seq<Layer>, isNull: Rect -> bool, isEmpty: Rect -> bool)
    requires forall r :: isEmpty(r) <==> Degenerate(r)
    ensures CombinedExtent(layers, isNull, isEmpty).Some? ==> !Degenerate(CombinedExtent(layers, isNull, isEmpty).value)
    decreases |layers|
  {
    if |layers| > 0 {
      CombinedExtentHasArea(layers[..|layers| - 1], isNull, isEmpty);
    }
  }

  /** Every layer answers `name()`; a layer whose `name()` raises has no name. */
  predicate AllNamed(layers: seq<Layer>) {
    forall i :: 0 <= i < |layers| ==> layers[i].name.Some?
  }

  /**
   * The loop of set_canvas_extent: fold the union over the layers in canvas
   * order. The loop asks each layer for its name, so it raises at the first
   * layer whose `name()` raises, and the union is lost.
   */
  method TotalExtent(layers: seq<Layer>, isNull: Rect -> bool, isEmpty: Rect -> bool) returns (raised: bool, total: Option<Rect>)
    ensures raised <==> !AllNamed(layers)
    ensures !raised ==> total == CombinedExtent(layers, isNull, isEmpty)
  {
    total := None;
    for i := 0 to |layers|
      invariant AllNamed(layers[..i])
      invariant total == CombinedExtent(layers[..i], isNull, isEmpty)
    {
      assert layers[..i + 1][..i] == layers[..i];
      var extent := layers[i].extent;
      if layers[i].name.None? {
        return true, None;
      }
      if !isNull(extent) && !isEmpty(extent) {
        if total.None? {
          total := Some(extent);
        } else {
          total := Some(Combine(total.value, extent));
        }
      }
    }
    assert layers[..|layers|] == layers;
    raised := false;
  }

  /**
   * The extent set_canvas_extent gives the canvas: the union when there are
   * layers and the union is usable, DEFAULT_EXTENT otherwise.
   */
  function ViewportExtent(layers: seq<Layer>, isNull: Rect -> bool, isEmpty: Rect -> bool): (r: Rect)
    ensures r == DEFAULT_EXTENT ||
      (Usable(r, isNull, isEmpty) &&
       forall i :: 0 <= i < |layers| && Usable(layers[i].extent, isNull, isEmpty) ==> Contains(r, layers[i].extent))
    ensures (forall i :: 0 <= i < |layers| ==> !Usable(layers[i].extent, isNull, isEmpty)) ==> r == DEFAULT_EXTENT
    ensures CombinedExtent(layers, isNull, isEmpty).Some? && Usable(CombinedExtent(layers, isNull, isEmpty).value, isNull, isEmpty) ==>
      r == CombinedExtent(layers, isNull, isEmpty).value
    ensures CombinedExtent(layers, isNull, isEmpty).None? || !Usable(CombinedExtent(layers, isNull, isEmpty).value, isNull, isEmpty) ==>
      r == DEFAULT_EXTENT
  {
    if |layers| == 0 then DEFAULT_EXTENT
    else
      var total := CombinedExtent(layers, isNull, isEmpty);
      if total.Some? && !isNull(total.value) && !isEmpty(total.value) then total.value else DEFAULT_EXTENT
  }

  /**
   * With the engine's tests behaving as for rectangles (empty means no area,
   * null implies empty): the default is used exactly when no layer has a
   * usable extent; otherwise the extent is the least rectangle covering every
   * usable layer extent. Either way it has area.
   */
  lemma ViewportForRectangles(layers: seq<Layer>, isNull: Rect -> bool, isEmpty: Rect -> bool)
    requires forall r :: isEmpty(r) <==> Degenerate(r)
    requires forall r :: isNull(r) ==> Degenerate(r)
    ensures !Degenerate(ViewportExtent(layers, isNull, isEmpty))
    ensures (exists i :: 0 <= i < |layers| && Usable(layers[i].extent, isNull, isEmpty)) ==>
      ViewportExtent(layers, isNull, isEmpty) == CombinedExtent(layers, isNull, isEmpty).value &&
      forall c :: (forall i :: 0 <= i < |layers| && Usable(layers[i].extent, isNull, isEmpty) ==> Contains(c, layers[i].extent))
        ==> Contains(c, ViewportExtent(layers, isNull, isEmpty))
  {
    DefaultExtentHasArea();
    CombinedExtentHasArea(layers, isNull, isEmpty);
    forall c | forall i :: 0 <= i < |layers| && Usable(layers[i].extent, isNull, isEmpty) ==> Contains(c, layers[i].extent)
      ensures CombinedExtent(layers, isNull, isEmpty).Some? ==> Contains(c, CombinedExtent(layers, isNull, isEmpty).value)
    {
      CombinedExtentIsLeast(layers, isNull, isEmpty, c);
    }
  }
}
