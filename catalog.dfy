/**
 * The style preset catalog. Preset layers merge from low to high precedence: global
 * defaults, style base, preset, optional variant; the resolver's IR values come later.
 */
module Catalog {
  import opened Wrappers
  import opened Ir
  import opened Text

  /** A recursive dict merge: patch values win except where both sides are dicts, which merge. */
  function DeepMerge(base: Obj, patch: Obj): (r: Obj)
    decreases JObj(patch)
  {
    map k | k in base.Keys + patch.Keys ::
      if k in patch then
        if patch[k].JObj? && k in base && base[k].JObj? then JObj(DeepMerge(base[k].fields, patch[k].fields))
        else patch[k]
      else base[k]
  }

  /** `_deep_merge`: a copy of `base`, then each patch key written once. */
  method DeepMergeInto(base: Obj, patch: Obj) returns (merged: Obj)
    ensures merged == DeepMerge(base, patch)
    decreases JObj(patch)
  {
    merged := base;
    var todo := patch.Keys;
    while todo != {}
      invariant todo <= patch.Keys
      invariant merged.Keys == base.Keys + (patch.Keys - todo)
      invariant forall k :: k in merged && k !in patch.Keys - todo ==> k in base && merged[k] == base[k]
      invariant forall k :: k in patch.Keys - todo ==> merged[k] == DeepMerge(base, patch)[k]
      decreases todo
    {
      var key :| key in todo;
      var value := patch[key];
      if value.JObj? && key in merged && merged[key].JObj? {
        var sub := DeepMergeInto(merged[key].fields, value.fields);
        merged := merged[key := JObj(sub)];
      } else {
        merged := merged[key := value];
      }
      todo := todo - {key};
    }
  }

  /** Keys of both; base-only keys keep their values, patch leaves win, dicts on both sides merge. */
  lemma DeepMergeKeys(base: Obj, patch: Obj)
    ensures DeepMerge(base, patch).Keys == base.Keys + patch.Keys
    ensures forall k :: k in base && k !in patch ==> DeepMerge(base, patch)[k] == base[k]
    ensures forall k :: k in patch && !(patch[k].JObj? && k in base && base[k].JObj?) ==>
      DeepMerge(base, patch)[k] == patch[k]
  {
  }

  /** Merging into an empty dict copies the patch. */
  lemma DeepMergeIntoEmpty(patch: Obj)
    ensures DeepMerge(map[], patch) == patch
  {
  }

  /** Merging an empty patch changes nothing. */
  lemma DeepMergeEmptyPatch(base: Obj)
    ensures DeepMerge(base, map[]) == base
  {
  }

  /** Merging a dict with itself gives it back, at every depth. */
  lemma {:induction false} DeepMergeSelf(m: Obj)
    ensures DeepMerge(m, m) == m
    decreases JObj(m)
  {
    forall k | k in m && m[k].JObj?
      ensures DeepMerge(m[k].fields, m[k].fields) == m[k].fields
    {
      DeepMergeSelf(m[k].fields);
    }
    assert DeepMerge(m, m) == m;
  }

  datatype PresetDefinition = PresetDefinition(base: Obj, variants: map<string, Obj>)

  datatype StyleDefinition = StyleDefinition(default_preset_id: string, base: Obj, presets: map<string, PresetDefinition>)

  datatype PresetLayer = PresetLayer(layer_id: string, values: Obj)

  function Dict(m: Obj): Json { JObj(m) }

  /** `_GLOBAL_DEFAULTS`; `None` is `JNull`. */
  const GlobalDefaults: Obj := map[
    "arms" := Dict(map["width_mm" := JNum(120.0), "profile" := JStr("box")]),
    "legs" := Dict(map["family" := JStr("block"), "height_mm" := JNum(160.0), "params" := Dict(map[])]),
    "back" := Dict(map[
      "mode" := JStr("panel"),
      "frame" := Dict(map[
        "offset_y_mm" := JNum(0.0),
        "margin_x_mm" := JNum(40.0),
        "margin_z_mm" := JNum(30.0),
        "rail_inset_mm" := JNum(0.0),
        "rail_width_mm" := JNum(35.0),
        "rail_depth_mm" := JNum(35.0),
        "rail_height_mm" := JNum(35.0),
        "bottom_rail_split" := JBool(false),
        "bottom_rail_gap_mm" := JNum(60.0),
        "split_center" := JBool(false),
        "frame_layout" := JStr("single"),
        "bottom_rail_attach_mode" := JStr("seat_rear_beam"),
        "bottom_rail_height_mm" := JNum(18.0),
        "center_post_width_mm" := JNull,
        "center_post" := Dict(map["enabled" := JBool(false), "thickness_mm" := JNum(35.0), "inset_y_mm" := JNum(0.0)])]),
      "slats" := Dict(map[
        "orientation" := JStr("vertical"),
        "layout" := JStr("full"),
        "count" := JNum(10.0),
        "width_mm" := JNum(35.0),
        "thickness_mm" := JNum(10.0),
        "arc_height_mm" := JNum(0.0),
        "arc_sign" := JNum(-1.0),
        "gap_mm" := JNum(0.0),
        "center_gap_mm" := JNum(0.0)]),
      "straps" := Dict(map["count" := JNum(6.0), "width_mm" := JNum(30.0), "thickness_mm" := JNum(6.0)])])]

  const ScandiStraightBase: Obj := map[
    "back" := Dict(map[
      "mode" := JStr("slats"),
      "frame" := Dict(map["frame_layout" := JStr("split_2"), "split_center" := JBool(true)]),
      "slats" := Dict(map["orientation" := JStr("horizontal"), "layout" := JStr("split_center")])])]

  /** `_STYLE_DEFINITIONS`. */
  const StyleDefinitions: map<string, StyleDefinition> := map[
    "scandi" := StyleDefinition("scandi_straight_v1", map[],
                                map["scandi_straight_v1" := PresetDefinition(ScandiStraightBase, map[])])]

  /** `_normalize_style`: trimmed and lower-cased, "default" when empty (`None` is the empty text). */
  function NormalizeStyle(style: string): (r: string)
    ensures r != ""
    ensures Canon(style) != "" ==> r == Canon(style)
  {
    if Canon(style) == "" then "default" else Canon(style)
  }

  /** `default_preset_id`: the style's configured id, trimmed, or "default". */
  function DefaultPresetId(table: map<string, StyleDefinition>, style: string): (r: string)
    ensures r != ""
    ensures NormalizeStyle(style) !in table ==> r == "default"
  {
    var ns := NormalizeStyle(style);
    if ns !in table then "default"
    else if Strip(table[ns].default_preset_id) == "" then "default"
    else Strip(table[ns].default_preset_id)
  }

  /** `_normalize_preset_id`: the trimmed id, or the style's default when it is empty. */
  function NormalizePresetId(table: map<string, StyleDefinition>, style: string, preset_id: string): (r: string)
    ensures r != ""
    ensures Strip(preset_id) != "" ==> r == Strip(preset_id)
    ensures Strip(preset_id) == "" ==> r == DefaultPresetId(table, style)
  {
    if Strip(preset_id) != "" then Strip(preset_id) else DefaultPresetId(table, style)
  }

  /** The preset `get_preset_layers` selects: the requested one, else the style's default unless "default" was asked for. */
  function SelectPreset(table: map<string, StyleDefinition>, ns: string, np: string): (r: (string, Option<PresetDefinition>))
    requires ns in table
    ensures np in table[ns].presets ==> r == (np, Some(table[ns].presets[np]))
    ensures r.1.Some? ==> r.0 in table[ns].presets && r.1.value == table[ns].presets[r.0]
    ensures np !in table[ns].presets && np != "default" ==> r.0 == DefaultPresetId(table, ns)
    ensures r.1.None? ==> np !in table[ns].presets
  {
    var presets := table[ns].presets;
    if np in presets then (np, Some(presets[np]))
    else if np == "default" then (np, None)
    else
      var fallback := DefaultPresetId(table, ns);
      (fallback, if fallback in presets then Some(presets[fallback]) else None)
  }

  function GlobalLayer(): PresetLayer { PresetLayer("global", GlobalDefaults) }

  /** The global layer, then the style's base when it is non-empty. */
  function StyleLayers(ns: string, sd: StyleDefinition): (r: seq<PresetLayer>)
    ensures |r| == 1 + (if sd.base != map[] then 1 else 0) && r[0] == GlobalLayer()
    ensures sd.base != map[] ==> r[1] == PresetLayer("style:" + ns, sd.base)
  {
    [GlobalLayer()] + (if sd.base != map[] then [PresetLayer("style:" + ns, sd.base)] else [])
  }

  /** The selected preset's base when non-empty, then the variant's patch when it names a non-empty one. */
  function PresetPart(selected_id: string, p: PresetDefinition, nv: string): (r: seq<PresetLayer>)
    ensures var has := nv != "" && nv in p.variants && p.variants[nv] != map[];
      |r| == (if p.base != map[] then 1 else 0) + (if has then 1 else 0) &&
      (p.base != map[] ==> r[0] == PresetLayer("preset:" + selected_id, p.base)) &&
      (has ==> r[|r| - 1] == PresetLayer("variant:" + selected_id + ":" + nv, p.variants[nv]))
  {
    (if p.base != map[] then [PresetLayer("preset:" + selected_id, p.base)] else []) +
    (if nv != "" && nv in p.variants && p.variants[nv] != map[] then
       [PresetLayer("variant:" + selected_id + ":" + nv, p.variants[nv])] else [])
  }

  /** `get_preset_layers`. `None` arguments are the empty text. */
  function PresetLayers(table: map<string, StyleDefinition>, style: string, preset_id: string, variant_id: string)
    : seq<PresetLayer>
  {
    var ns := NormalizeStyle(style);
    if ns !in table then [GlobalLayer()]
    else
      var sel := SelectPreset(table, ns, NormalizePresetId(table, ns, preset_id));
      StyleLayers(ns, table[ns]) + (if sel.1.Some? then PresetPart(sel.0, sel.1.value, Strip(variant_id)) else [])
  }

  /** The left fold of `DeepMerge` over the layers. */
  function FoldMerge(layers: seq<PresetLayer>): Obj {
    if layers == [] then map[] else DeepMerge(FoldMerge(layers[..|layers| - 1]), layers[|layers| - 1].values)
  }

  /** The merge loop of `get_preset`: each layer merged over the result so far. */
  method MergeLayers(layers: seq<PresetLayer>) returns (merged: Obj)
    ensures merged == FoldMerge(layers)
  {
    merged := map[];
    var i := 0;
    while i < |layers|
      invariant 0 <= i <= |layers|
      invariant merged == FoldMerge(layers[..i])
    {
      assert layers[..i + 1][..i] == layers[..i];
      merged := DeepMergeInto(merged, layers[i].values);
      i := i + 1;
    }
    assert layers[..|layers|] == layers;
  }

  /** `get_preset`: the merged preset defaults for a style, preset and variant. */
  method GetPreset(table: map<string, StyleDefinition>, style: string, preset_id: string, variant_id: string)
    returns (merged: Obj)
    ensures merged == FoldMerge(PresetLayers(table, style, preset_id, variant_id))
  {
    var layers := PresetLayers(table, style, preset_id, variant_id);
    merged := MergeLayers(layers);
  }

  /** Unknown styles get "default"; scandi gets its straight preset. */
  lemma DefaultPresetIds()
    ensures DefaultPresetId(StyleDefinitions, "scandi") == "scandi_straight_v1"
    ensures DefaultPresetId(StyleDefinitions, "default") == "default"
  {
    ScandiDefaultPreset();
    UnknownStyleDefaultPreset();
  }

  lemma ScandiDefaultPreset()
    ensures DefaultPresetId(StyleDefinitions, "scandi") == "scandi_straight_v1"
  {
    CanonOfLowerWord("scandi");
    StripScandiId();
    ScandiEntry();
    DefaultPresetIdIs(StyleDefinitions, "scandi", "scandi_straight_v1");
  }

  lemma UnknownStyleDefaultPreset()
    ensures DefaultPresetId(StyleDefinitions, "default") == "default"
  {
    CanonOfLowerWord("default");
    assert "default"[0] != "scandi"[0];
    assert StyleDefinitions.Keys == {"scandi"};
  }

  lemma ScandiEntry()
    ensures "scandi" in StyleDefinitions && StyleDefinitions["scandi"].default_preset_id == "scandi_straight_v1"
  {
  }

  lemma StripScandiId()
    ensures Strip("scandi_straight_v1") == "scandi_straight_v1"
  {
    assert TrimLeft("scandi_straight_v1") == "scandi_straight_v1";
    assert TrimRight("scandi_straight_v1") == "scandi_straight_v1";
  }

  /** A known style whose configured id is already trimmed and non-empty defaults to that id. */
  lemma DefaultPresetIdIs(table: map<string, StyleDefinition>, style: string, id: string)
    requires NormalizeStyle(style) == style && style in table && table[style].default_preset_id == id
    requires Strip(id) == id && id != ""
    ensures DefaultPresetId(table, style) == id
  {
  }

  /** The global layer always comes first, and is the only layer of an unknown style. */
  lemma LayersStartWithGlobal(table: map<string, StyleDefinition>, style: string, preset_id: string, variant_id: string)
    ensures var ls := PresetLayers(table, style, preset_id, variant_id);
      |ls| >= 1 && ls[0] == GlobalLayer() &&
      (NormalizeStyle(style) !in table ==> ls == [GlobalLayer()])
  {
  }

  /**
   * An unknown preset id falls back to the style's default preset; if that is missing too (or
   * "default" itself was asked for), no preset or variant layer follows the style layers.
   */
  lemma UnknownPresetFallsBack(table: map<string, StyleDefinition>, style: string, preset_id: string, variant_id: string)
    requires NormalizeStyle(style) in table
    requires NormalizePresetId(table, NormalizeStyle(style), preset_id) !in table[NormalizeStyle(style)].presets
    ensures var ns := NormalizeStyle(style); var sd := table[ns]; var fallback := DefaultPresetId(table, ns);
      var ls := PresetLayers(table, style, preset_id, variant_id);
      var styled := 1 + (if sd.base != map[] then 1 else 0);
      (NormalizePresetId(table, ns, preset_id) == "default" || fallback !in sd.presets ==> |ls| == styled) &&
      ((NormalizePresetId(table, ns, preset_id) != "default" && fallback in sd.presets &&
        sd.presets[fallback].base != map[]) ==>
         ls[styled] == PresetLayer("preset:" + fallback, sd.presets[fallback].base))
  {
  }

  /** A variant layer comes last, and only for a non-empty variant id that names a non-empty patch of the selected preset. */
  lemma VariantLayerLast(table: map<string, StyleDefinition>, style: string, preset_id: string, variant_id: string)
    requires NormalizeStyle(style) in table
    ensures var ns := NormalizeStyle(style); var np := NormalizePresetId(table, ns, preset_id);
      var sel := SelectPreset(table, ns, np); var nv := Strip(variant_id);
      var ls := PresetLayers(table, style, preset_id, variant_id);
      var has := sel.1.Some? && nv != "" && nv in sel.1.value.variants && sel.1.value.variants[nv] != map[];
      (has ==> ls[|ls| - 1] == PresetLayer("variant:" + sel.0 + ":" + nv, sel.1.value.variants[nv])) &&
      |ls| == 1 + (if table[ns].base != map[] then 1 else 0) +
              (if sel.1.Some? && sel.1.value.base != map[] then 1 else 0) + (if has then 1 else 0)
  {
  }

  /** A later layer wins every leaf it sets: the fold's value there is the last layer's. */
  lemma LastLayerWins(layers: seq<PresetLayer>, key: string)
    requires layers != [] && key in layers[|layers| - 1].values && !layers[|layers| - 1].values[key].JObj?
    ensures key in FoldMerge(layers) && FoldMerge(layers)[key] == layers[|layers| - 1].values[key]
  {
    DeepMergeKeys(FoldMerge(layers[..|layers| - 1]), layers[|layers| - 1].values);
  }

  /** A key no later layer touches keeps the earlier layers' value. */
  lemma UntouchedKeyKept(layers: seq<PresetLayer>, key: string)
    requires layers != [] && key !in layers[|layers| - 1].values && key in FoldMerge(layers[..|layers| - 1])
    ensures key in FoldMerge(layers) && FoldMerge(layers)[key] == FoldMerge(layers[..|layers| - 1])[key]
  {
    DeepMergeKeys(FoldMerge(layers[..|layers| - 1]), layers[|layers| - 1].values);
  }

  /** The global `arms` defaults: a width and a profile, no type. */
  lemma GlobalArms()
    ensures "arms" in GlobalDefaults && GlobalDefaults["arms"].JObj?
    ensures GlobalDefaults["arms"].fields.Keys == {"width_mm", "profile"}
    ensures "type" !in GlobalDefaults["arms"].fields
  {
    assert "arms"[0] != "legs"[0] && "arms"[0] != "back"[0];
    assert "width_mm"[0] != "profile"[0];
    assert "type"[0] != "width_mm"[0] && "type"[0] != "profile"[0];
  }

  /** When no layer after the global one mentions `arms`, the merged `arms` is the global one. */
  lemma {:induction false} ArmsFromGlobalOnly(layers: seq<PresetLayer>)
    requires |layers| >= 1 && layers[0] == GlobalLayer()
    requires forall i :: 1 <= i < |layers| ==> "arms" !in layers[i].values
    ensures "arms" in FoldMerge(layers) && FoldMerge(layers)["arms"] == GlobalDefaults["arms"]
  {
    GlobalArms();
    if |layers| == 1 {
      assert layers[..0] == [];
      DeepMergeIntoEmpty(GlobalDefaults);
    } else {
      var front := layers[..|layers| - 1];
      assert front[0] == GlobalLayer();
      ArmsFromGlobalOnly(front);
      UntouchedKeyKept(layers, "arms");
    }
  }

  /** No style base, preset base or variant patch of the table sets `key`. */
  predicate LeavesKey(table: map<string, StyleDefinition>, key: string) {
    forall ns :: ns in table ==>
      key !in table[ns].base &&
      forall pid :: pid in table[ns].presets ==>
        key !in table[ns].presets[pid].base &&
        forall v :: v in table[ns].presets[pid].variants ==> key !in table[ns].presets[pid].variants[v]
  }

  /** Then no layer after the global one sets it either. */
  lemma LayersLeaveKey(table: map<string, StyleDefinition>, key: string, style: string, preset_id: string, variant_id: string)
    requires LeavesKey(table, key)
    ensures var ls := PresetLayers(table, style, preset_id, variant_id);
      forall i :: 1 <= i < |ls| ==> key !in ls[i].values
  {
    var ns := NormalizeStyle(style);
    if ns in table {
      var sd := table[ns];
      var sel := SelectPreset(table, ns, NormalizePresetId(table, ns, preset_id));
      var rest := if sel.1.Some? then PresetPart(sel.0, sel.1.value, Strip(variant_id)) else [];
      StyleLayersLeaveKey(ns, sd, key);
      if sel.1.Some? {
        PresetPartLeavesKey(sel.0, sel.1.value, Strip(variant_id), key);
      }
      LayersConcatLeaveKey(StyleLayers(ns, sd), rest, key);
    }
  }

  lemma StyleLayersLeaveKey(ns: string, sd: StyleDefinition, key: string)
    requires key !in sd.base
    ensures forall i :: 1 <= i < |StyleLayers(ns, sd)| ==> key !in StyleLayers(ns, sd)[i].values
  {
  }

  lemma LayersConcatLeaveKey(a: seq<PresetLayer>, b: seq<PresetLayer>, key: string)
    requires forall i :: 1 <= i < |a| ==> key !in a[i].values
    requires forall i :: 0 <= i < |b| ==> key !in b[i].values
    ensures forall i :: 1 <= i < |a + b| ==> key !in (a + b)[i].values
  {
    forall i | 1 <= i < |a + b| ensures key !in (a + b)[i].values {
      if i >= |a| {
        assert (a + b)[i] == b[i - |a|];
      }
    }
  }

  lemma PresetPartLeavesKey(selected_id: string, p: PresetDefinition, nv: string, key: string)
    requires key !in p.base && forall v :: v in p.variants ==> key !in p.variants[v]
    ensures forall i :: 0 <= i < |PresetPart(selected_id, p, nv)| ==> key !in PresetPart(selected_id, p, nv)[i].values
  {
  }

  /** The catalog's styles and presets never mention `arms`. */
  lemma CatalogLeavesArms()
    ensures LeavesKey(StyleDefinitions, "arms")
  {
    assert StyleDefinitions.Keys == {"scandi"};
    var sd := StyleDefinitions["scandi"];
    assert sd.presets.Keys == {"scandi_straight_v1"};
    assert ScandiStraightBase.Keys == {"back"};
    assert "arms"[0] != "back"[0];
  }

  /** Whatever the style, preset and variant, the catalog never sets `arms.type`. */
  lemma PresetsNeverSetArmsType(style: string, preset_id: string, variant_id: string)
    ensures var merged := FoldMerge(PresetLayers(StyleDefinitions, style, preset_id, variant_id));
      "arms" in merged && merged["arms"].JObj? && "type" !in merged["arms"].fields
  {
    var ls := PresetLayers(StyleDefinitions, style, preset_id, variant_id);
    LayersStartWithGlobal(StyleDefinitions, style, preset_id, variant_id);
    CatalogLeavesArms();
    LayersLeaveKey(StyleDefinitions, "arms", style, preset_id, variant_id);
    ArmsFromGlobalOnly(ls);
    GlobalArms();
    var arms := FoldMerge(ls)["arms"];
    assert arms == GlobalDefaults["arms"];
  }
}
