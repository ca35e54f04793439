/**
 * What basemap switching does to the canvas, stated on values: key
 * normalisation and lookup, the filter that drops every layer named after a
 * basemap, the switched layer list, and the "current basemap" query.
 * Both LayerManager and BasemapService are proved against these definitions.
 */
module Basemaps {
  import opened Wrappers
  import opened OrderedDict
  import opened Text
  import opened Constants
  import opened Engine

  /** `(key or "").upper()`: None becomes "", then every letter is upper-cased. */
  function NormaliseKey(key: Option<string>): (k: string)
    ensures NoLowerCase(k)
    ensures key.None? ==> k == ""
    ensures key.Some? ==> EqualIgnoringCase(k, key.value)
  {
    Upper(key.GetOr(""))
  }

  /** `BASEMAP_SOURCES[key]`, or None when the key is unknown. */
  function LookupSource(key: string): (src: Option<BasemapSource>)
    ensures src.Some? <==> HasKey(BASEMAP_SOURCES, key)
    ensures src.Some? ==> (key, src.value) in BASEMAP_SOURCES
  {
    Get(BASEMAP_SOURCES, key)
  }

  /**
   * A requested key is accepted exactly when it equals one of the basemap keys
   * up to case; a missing key (None) is never accepted.
   */
  lemma AcceptedKeys(key: Option<string>)
    ensures LookupSource(NormaliseKey(key)).Some? <==>
      key.Some? && exists i :: 0 <= i < |BASEMAP_SOURCES| && EqualIgnoringCase(key.value, BASEMAP_SOURCES[i].0)
  {
    SourceKeysAreUpperCase();
    var k := NormaliseKey(key);
    if LookupSource(k).Some? {
      var i :| 0 <= i < |BASEMAP_SOURCES| && BASEMAP_SOURCES[i].0 == k;
      assert EqualIgnoringCase(key.value, BASEMAP_SOURCES[i].0) by {
        assert EqualIgnoringCase(k, key.value);
      }
    }
    if key.Some? && exists i :: 0 <= i < |BASEMAP_SOURCES| && EqualIgnoringCase(key.value, BASEMAP_SOURCES[i].0) {
      var i :| 0 <= i < |BASEMAP_SOURCES| && EqualIgnoringCase(key.value, BASEMAP_SOURCES[i].0);
      UpperIgnoresCase(key.value, BASEMAP_SOURCES[i].0);
      assert k == BASEMAP_SOURCES[i].0;
      assert HasKey(BASEMAP_SOURCES, k);
    }
  }

  /** The display names of all basemaps (`known_names`). */
  function KnownNames(): (names: set<string>)
    ensures |names| == |BASEMAP_SOURCES|
    ensures "" !in names
  {
    var names := set i | 0 <= i < |BASEMAP_SOURCES| :: BASEMAP_SOURCES[i].1.name;
    assert names == {BASEMAP_SOURCES[0].1.name, BASEMAP_SOURCES[1].1.name, BASEMAP_SOURCES[2].1.name};
    names
  }

  lemma SourceNameIsKnown(k: string)
    requires LookupSource(k).Some?
    ensures LookupSource(k).value.name in KnownNames()
  {
    var i :| 0 <= i < |BASEMAP_SOURCES| && BASEMAP_SOURCES[i] == (k, LookupSource(k).value);
  }

  /** A layer counts as a basemap when its name is one of the basemap display names. */
  predicate IsBasemapLayer(l: Layer) {
    NameOf(l) in KnownNames()
  }

  /** The layers `_remove_old_basemaps` keeps: every non-basemap layer, in order. */
  function KeptLayers(layers: seq<Layer>): (kept: seq<Layer>)
    ensures forall i :: 0 <= i < |kept| ==> kept[i] in layers && !IsBasemapLayer(kept[i])
    ensures forall i :: 0 <= i < |layers| && !IsBasemapLayer(layers[i]) ==> layers[i] in kept
    ensures |kept| <= |layers|
  {
    if |layers| == 0 then []
    else (if IsBasemapLayer(layers[0]) then [] else [layers[0]]) + KeptLayers(layers[1..])
  }

  /** The basemap layers among `layers`, in order. */
  function BasemapsIn(layers: seq<Layer>): (bs: seq<Layer>)
    ensures forall i :: 0 <= i < |bs| ==> bs[i] in layers && IsBasemapLayer(bs[i])
    ensures forall i :: 0 <= i < |layers| && IsBasemapLayer(layers[i]) ==> layers[i] in bs
  {
    if |layers| == 0 then []
    else (if IsBasemapLayer(layers[0]) then [layers[0]] else []) + BasemapsIn(layers[1..])
  }

  /** The basemap layers among `layers`, as the set removed from the project. */
  function BasemapSet(layers: seq<Layer>): set<Layer> {
    set l | l in layers && IsBasemapLayer(l)
  }

  /** The canvas after a successful switch to `nl`: the kept layers, then `nl` at the bottom. */
  function Switched(layers: seq<Layer>, nl: Layer): seq<Layer> {
    KeptLayers(layers) + [nl]
  }

  /** Filtering distributes over concatenation, so the kept layers keep their relative order. */
  lemma {:induction false} KeptLayersAppend(a: seq<Layer>, b: seq<Layer>)
    ensures KeptLayers(a + b) == KeptLayers(a) + KeptLayers(b)
  {
    if |a| == 0 {
      assert a + b == b;
    } else {
      assert (a + b)[0] == a[0];
      assert (a + b)[1..] == a[1..] + b;
      KeptLayersAppend(a[1..], b);
    }
  }

  lemma {:induction false} BasemapsInAppend(a: seq<Layer>, b: seq<Layer>)
    ensures BasemapsIn(a + b) == BasemapsIn(a) + BasemapsIn(b)
  {
    if |a| == 0 {
      assert a + b == b;
    } else {
      assert (a + b)[0] == a[0];
      assert (a + b)[1..] == a[1..] + b;
      BasemapsInAppend(a[1..], b);
    }
  }

  /** A list without basemaps is kept whole and holds no basemap. */
  lemma {:induction false} KeptLayersWithoutBasemaps(layers: seq<Layer>)
    requires forall l :: l in layers ==> !IsBasemapLayer(l)
    ensures KeptLayers(layers) == layers
    ensures BasemapsIn(layers) == []
  {
    if |layers| > 0 {
      assert layers[0] in layers;
      KeptLayersWithoutBasemaps(layers[1..]);
    }
  }

  /** Removing old basemaps twice removes nothing more. */
  lemma KeptLayersIdempotent(layers: seq<Layer>)
    ensures KeptLayers(KeptLayers(layers)) == KeptLayers(layers)
  {
    KeptLayersWithoutBasemaps(KeptLayers(layers));
  }

  /**
   * After a switch to the basemap layer `nl`, the canvas holds exactly one
   * basemap, `nl`, last; its other layers are the previous non-basemap layers
   * in their order.
   */
  lemma SwitchLeavesOneBasemap(layers: seq<Layer>, nl: Layer)
    requires IsBasemapLayer(nl)
    ensures BasemapsIn(Switched(layers, nl)) == [nl]
    ensures KeptLayers(Switched(layers, nl)) == KeptLayers(layers)
    ensures Switched(layers, nl)[|Switched(layers, nl)| - 1] == nl
  {
    KeptLayersAppend(KeptLayers(layers), [nl]);
    BasemapsInAppend(KeptLayers(layers), [nl]);
    KeptLayersWithoutBasemaps(KeptLayers(layers));
    assert [nl][1..] == [];
  }

  /** Switching twice is switching once to the second basemap: basemaps never accumulate. */
  lemma SwitchTwice(layers: seq<Layer>, a: Layer, b: Layer)
    requires IsBasemapLayer(a)
    ensures Switched(Switched(layers, a), b) == Switched(layers, b)
  {
    SwitchLeavesOneBasemap(layers, a);
  }

  /** Every stored basemap layer is named after its key's source. */
  predicate StoredFor(k: string, l: Layer) {
    LookupSource(k).Some? && l.name == Some(LookupSource(k).value.name)
  }

  /** The `basemap_layers` dictionary: distinct keys, each mapped to a layer of that basemap. */
  predicate StoredBasemaps(d: Dict<string, Layer>) {
    DistinctKeys(d) && forall i :: 0 <= i < |d| ==> StoredFor(d[i].0, d[i].1)
  }

  /** Recording a layer of key `k`'s basemap under `k` keeps the dictionary well formed. */
  lemma PutKeepsStored(d: Dict<string, Layer>, k: string, l: Layer)
    requires StoredBasemaps(d) && StoredFor(k, l)
    ensures StoredBasemaps(Put(d, k, l))
  {
    var d' := Put(d, k, l);
    PutKeepsDistinct(d, k, l);
    forall i | 0 <= i < |d'|
      ensures StoredFor(d'[i].0, d'[i].1)
    {
      assert d'[i] in d';
    }
  }

  lemma StoredIsBasemap(k: string, l: Layer)
    requires StoredFor(k, l)
    ensures IsBasemapLayer(l)
  {
    SourceNameIsKnown(k);
  }

  /** The position of the first entry, in insertion order, whose layer is on the canvas; |d| if none is. */
  function FirstOnCanvas(d: Dict<string, Layer>, layers: seq<Layer>): (i: nat)
    ensures i <= |d|
    ensures forall j :: 0 <= j < i ==> d[j].1 !in layers
    ensures i < |d| ==> d[i].1 in layers
  {
    if |d| == 0 then 0
    else if d[0].1 in layers then 0
    else 1 + FirstOnCanvas(d[1..], layers)
  }

  /** `get_current_basemap`: the first key whose stored layer is on the canvas, or None. */
  function CurrentBasemap(d: Dict<string, Layer>, layers: seq<Layer>): Option<string> {
    var i := FirstOnCanvas(d, layers);
    if i < |d| then Some(d[i].0) else None
  }

  /** No layer recorded in a well-formed dictionary survives a switch to another layer. */
  lemma StoredOffSwitched(d: Dict<string, Layer>, layers: seq<Layer>, nl: Layer)
    requires StoredBasemaps(d)
    requires forall i :: 0 <= i < |d| ==> d[i].1 != nl
    ensures forall i :: 0 <= i < |d| ==> d[i].1 !in Switched(layers, nl)
  {
    forall i | 0 <= i < |d|
      ensures d[i].1 !in Switched(layers, nl)
    {
      StoredIsBasemap(d[i].0, d[i].1);
    }
  }

  /**
   * After a successful switch to key `k` with the new layer `nl` (not recorded
   * before), the current basemap is `k`.
   */
  lemma CurrentAfterSwitch(d: Dict<string, Layer>, layers: seq<Layer>, k: string, nl: Layer)
    requires StoredBasemaps(d)
    requires forall i :: 0 <= i < |d| ==> d[i].1 != nl
    ensures CurrentBasemap(Put(d, k, nl), Switched(layers, nl)) == Some(k)
  {
    var d', canvas := Put(d, k, nl), Switched(layers, nl);
    StoredOffSwitched(d, layers, nl);
    var w :| 0 <= w < |d'| && d'[w] == (k, nl);
    assert canvas[|canvas| - 1] == nl;
    var i := FirstOnCanvas(d', canvas);
    assert i <= w && d'[i] in d';
  }
}
