/**
 * The modifier expectations of the debug validator. The IR's `debug.expect_modifiers` names, per
 * object-name prefix, the modifiers every mesh of that group should carry ("ARRAY",
 * "SIMPLE_DEFORM:BEND", ...). MOD_EXPECTATION_MISSING reports meshes that lack one;
 * MOD_EXPECTATION_NO_EFFECT reports modifiers that are present but changed nothing measurable.
 */
module ValidatorModifiers {
  import opened Wrappers
  import opened Text
  import opened Numeric
  import opened Ir
  import opened PlanTypes
  import opened Metrics
  import opened Sorting
  import opened ValidatorCore
  import opened ValidatorBend
  import opened Lists

  // ----- Modifier keys -----

  /** `s.replace(" ", "")`. */
  function RemoveSpaces(s: string): (r: string)
    ensures |r| <= |s|
  {
    if s == [] then []
    else if s[0] == ' ' then RemoveSpaces(s[1..])
    else [s[0]] + RemoveSpaces(s[1..])
  }

  /** What is left has no space, and every character of it comes from the text. */
  lemma {:induction false} RemoveSpacesShape(s: string)
    ensures forall i :: 0 <= i < |RemoveSpaces(s)| ==> RemoveSpaces(s)[i] != ' ' && RemoveSpaces(s)[i] in s
  {
    if s != [] {
      RemoveSpacesShape(s[1..]);
    }
  }

  /** Text without spaces is left as it is. */
  lemma {:induction false} RemoveSpacesKeeps(s: string)
    requires forall i :: 0 <= i < |s| ==> s[i] != ' '
    ensures RemoveSpaces(s) == s
  {
    if s != [] {
      RemoveSpacesKeeps(s[1..]);
    }
  }

  /**
   * The colon rule of `_normalize_modifier_key` on a compacted key: split at the first colon, and
   * when nothing follows it, keep only the part before it ("ARRAY:" is "ARRAY").
   */
  function SplitColon(compact: string): (r: string)
    ensures StartsWith(compact, r)
  {
    match IndexOfChar(compact, ':')
    case None => compact
    case Some(i) =>
      var left, right := compact[..i], compact[i + 1..];
      if right != "" then
        assert left + ":" + right == compact;
        left + ":" + right
      else left
  }

  /**
   * `_normalize_modifier_key`: stripped and upper-cased, spaces removed, and a colon that ends the
   * key right after its type dropped ("simple_deform : bend" is "SIMPLE_DEFORM:BEND", "array:" is
   * "ARRAY"). Blank text gives the empty key.
   */
  function NormalizeModifierKey(key: string): string {
    var raw := Upper(Strip(key));
    if raw == "" then "" else SplitColon(RemoveSpaces(raw))
  }

  /** The type part of a key: everything before its first colon. */
  function ModType(key: string): (r: string)
    ensures StartsWith(key, r)
    ensures forall i :: 0 <= i < |r| ==> r[i] != ':'
  {
    match IndexOfChar(key, ':')
    case None => key
    case Some(i) => key[..i]
  }

  /** A key's colon, if it has one, is followed by something. */
  predicate ColonFollowed(s: string) {
    IndexOfChar(s, ':').Some? ==> IndexOfChar(s, ':').value < |s| - 1
  }

  /** A key normalization leaves alone: no white space, upper case, no lone trailing colon. */
  predicate Canonical(s: string) {
    s != [] && (forall i :: 0 <= i < |s| ==> !IsSpace(s[i]) && UpperChar(s[i]) == s[i]) && ColonFollowed(s)
  }

  lemma UpperCharIdempotent(c: char)
    ensures UpperChar(UpperChar(c)) == UpperChar(c)
    ensures !IsSpace(c) ==> !IsSpace(UpperChar(c))
  {
  }

  /** Every character of the stripped text comes from the text. */
  lemma StripChars(s: string)
    ensures forall i :: 0 <= i < |Strip(s)| ==> Strip(s)[i] in s
  {
    var l := TrimLeft(s);
    var r := TrimRight(l);
    assert r == Strip(s);
    var off := |s| - |l|;
    forall i | 0 <= i < |r| ensures r[i] in s {
      assert r[i] == l[i] == s[off + i];
    }
  }

  /** A key whose colon is followed by something keeps it; one without a colon is kept too. */
  lemma SplitColonKeeps(s: string)
    requires ColonFollowed(s)
    ensures SplitColon(s) == s
  {
  }

  /** After the colon rule, a colon that remains is followed by something. */
  lemma SplitColonFollowed(s: string)
    ensures ColonFollowed(SplitColon(s))
  {
    match IndexOfChar(s, ':')
    case None =>
    case Some(i) =>
      if s[i + 1..] == "" {
        var r := s[..i];
        assert forall j :: 0 <= j < |r| ==> r[j] != ':';
        assert IndexOfChar(r, ':').None?;
      }
  }

  /** A canonical key normalizes to itself. */
  lemma NormalizeCanonical(s: string)
    requires Canonical(s)
    ensures NormalizeModifierKey(s) == s
  {
    StripKeeps(s);
    UpperKeeps(s);
    RemoveSpacesKeeps(s);
    SplitColonKeeps(s);
  }

  /** The characters of a normalized key written without tabs or line breaks. */
  lemma NormalizedChars(key: string)
    requires forall i :: 0 <= i < |key| ==> key[i] == ' ' || !IsSpace(key[i])
    ensures var r := NormalizeModifierKey(key);
      forall i :: 0 <= i < |r| ==> !IsSpace(r[i]) && UpperChar(r[i]) == r[i]
  {
    var stripped := Strip(key);
    var raw := Upper(stripped);
    if raw != "" {
      var compact := RemoveSpaces(raw);
      var r := SplitColon(compact);
      StripChars(key);
      UpperAt(stripped);
      RemoveSpacesShape(raw);
      forall i | 0 <= i < |r| ensures !IsSpace(r[i]) && UpperChar(r[i]) == r[i]
      {
        assert r[i] == compact[i];
        var k :| 0 <= k < |raw| && raw[k] == compact[i];
        assert stripped[k] in key;
        UpperCharIdempotent(stripped[k]);
      }
    }
  }

  /**
   * Normalization of a key written without tabs or line breaks is idempotent, so the validator's
   * repeated normalization of an expected key reads it the same way each time.
   */
  lemma NormalizeIdempotent(key: string)
    requires forall i :: 0 <= i < |key| ==> key[i] == ' ' || !IsSpace(key[i])
    ensures NormalizeModifierKey(NormalizeModifierKey(key)) == NormalizeModifierKey(key)
  {
    var r := NormalizeModifierKey(key);
    if r != "" {
      NormalizedChars(key);
      SplitColonFollowed(RemoveSpaces(Upper(Strip(key))));
      NormalizeCanonical(r);
    }
  }

  /**
   * `_normalize_modifier_key(item)` on one list item: text by the key normalization, null as
   * "NONE", booleans as "TRUE" and "FALSE", whole numbers as their digits; any other item has no
   * modelled text and gives no key.
   */
  function ItemKey(item: Json): string {
    match item
    case JStr(s) => NormalizeModifierKey(s)
    case JNull => "NONE"
    case JBool(b) => if b then "TRUE" else "FALSE"
    case JNum(n) => if n.Floor as real == n then IntToString(n.Floor) else ""
    case _ => ""
  }

  /** The key of an item is the normalization of its `str()` text, wherever that text is modelled. */
  lemma ItemKeyIsNormalizedText(item: Json)
    ensures PyStr(item).Some? ==> ItemKey(item) == NormalizeModifierKey(PyStr(item).value)
    ensures PyStr(item).None? ==> ItemKey(item) == ""
  {
    match item
    case JNull => NoneKey();
    case JBool(b) => BoolKey(b);
    case JNum(n) =>
      if n.Floor as real == n {
        NormalizeIntText(n.Floor);
      }
    case _ =>
  }

  /** A stripped word whose upper-case form is canonical normalizes to that form. */
  lemma NormalizeWord(w: string, u: string)
    requires w != [] && !IsSpace(w[0]) && !IsSpace(w[|w| - 1])
    requires |u| == |w| && forall i :: 0 <= i < |w| ==> UpperChar(w[i]) == u[i]
    requires Canonical(u)
    ensures NormalizeModifierKey(w) == u
  {
    StripKeeps(w);
    assert Upper(w) == u;
    RemoveSpacesKeeps(u);
    SplitColonKeeps(u);
  }

  /** `str(None)` normalizes to "NONE". */
  lemma NoneKey()
    ensures NormalizeModifierKey("None") == "NONE"
  {
    var w, u := "None", "NONE";
    assert UpperChar(w[1]) == u[1] && UpperChar(w[2]) == u[2] && UpperChar(w[3]) == u[3];
    NormalizeWord(w, u);
  }

  /** `str(True)` and `str(False)` normalize to "TRUE" and "FALSE". */
  lemma BoolKey(b: bool)
    ensures NormalizeModifierKey(if b then "True" else "False") == (if b then "TRUE" else "FALSE")
  {
    if b { TrueKey(); } else { FalseKey(); }
  }

  lemma TrueKey()
    ensures NormalizeModifierKey("True") == "TRUE"
  {
    var w, u := "True", "TRUE";
    assert UpperChar(w[1]) == u[1] && UpperChar(w[2]) == u[2] && UpperChar(w[3]) == u[3];
    NormalizeWord(w, u);
  }

  lemma FalseKey()
    ensures NormalizeModifierKey("False") == "FALSE"
  {
    var w, u := "False", "FALSE";
    assert UpperChar(w[1]) == u[1] && UpperChar(w[2]) == u[2] && UpperChar(w[3]) == u[3] && UpperChar(w[4]) == u[4];
    NormalizeWord(w, u);
  }

  /** The text of an integer is already a canonical key. */
  lemma NormalizeIntText(n: int)
    ensures NormalizeModifierKey(IntToString(n)) == IntToString(n)
  {
    var t := IntToString(n);
    IntToStringShape(n);
    assert forall i :: 0 <= i < |t| ==> t[i] != ':';
    NormalizeCanonical(t);
  }

  /** The normalized key of each item, in order. */
  function ItemKeys(items: seq<Json>): (r: seq<string>)
    ensures |r| == |items|
  {
    seq(|items|, i requires 0 <= i < |items| => ItemKey(items[i]))
  }

  /**
   * The expected keys of one group: the items' normalized keys without blanks, each kept once at
   * its first occurrence.
   */
  function ExpectedKeys(items: seq<Json>): (r: seq<string>)
    ensures forall i, j :: 0 <= i < j < |r| ==> r[i] != r[j]
    ensures forall k :: k in r ==> k != "" && k in ItemKeys(items)
    ensures forall k :: k in ItemKeys(items) && k != "" ==> k in r
    ensures FirstOccurrenceOrdered(r, ItemKeys(items))
  {
    DedupFirstOccurrenceOrder(ItemKeys(items), "");
    Dedup(ItemKeys(items), "")
  }

  /** The inner loop of `_expected_modifiers_map`. */
  method NormalizeExpected(items: seq<Json>) returns (normalized: seq<string>)
    ensures normalized == ExpectedKeys(items)
  {
    ghost var keys := ItemKeys(items);
    normalized := [];
    var i := 0;
    while i < |items|
      invariant 0 <= i <= |items|
      invariant normalized == Dedup(keys[..i], "")
    {
      assert keys[..i + 1][..i] == keys[..i];
      var key := ItemKey(items[i]);
      if key != "" && key !in normalized {
        normalized := normalized + [key];
      }
      i := i + 1;
    }
    assert keys[..i] == keys;
  }

  /**
   * `_expected_modifiers_map`: for each group listed under `debug.expect_modifiers` as a list,
   * its expected keys, when there is at least one.
   */
  function ExpectedModifiersMap(ir: Obj): (r: map<string, seq<string>>)
    ensures forall g :: g in r ==> r[g] != []
  {
    var debug := GetOr(ir, "debug", JObj(map[]));
    if !debug.JObj? then map[]
    else
      var expected := GetOr(debug.fields, "expect_modifiers", JObj(map[]));
      if !expected.JObj? then map[]
      else
        map g | g in expected.fields && expected.fields[g].JArr? && ExpectedKeys(expected.fields[g].items) != []
          :: ExpectedKeys(expected.fields[g].items)
  }

  /**
   * `_modifier_key_from_payload`: the normalized type, and for a SIMPLE_DEFORM its normalized
   * method after a colon when there is one.
   */
  function PayloadKey(mod: ModifierInfo): (r: string)
    ensures NormalizeModifierKey(mod.kind) != "SIMPLE_DEFORM" ==> r == NormalizeModifierKey(mod.kind)
    ensures NormalizeModifierKey(mod.kind) == "SIMPLE_DEFORM" ==> StartsWith(r, "SIMPLE_DEFORM") && r != ""
  {
    var mod_type := NormalizeModifierKey(mod.kind);
    if mod_type != "SIMPLE_DEFORM" then mod_type
    else
      var deform_method := NormalizeModifierKey(mod.deform_method);
      if deform_method != "" then "SIMPLE_DEFORM:" + deform_method else "SIMPLE_DEFORM"
  }

  function ListedKey(s: string): set<string> {
    var k := NormalizeModifierKey(s);
    if k == "" then {} else {k}
  }

  function PayloadKeySet(mod: ModifierInfo): set<string> {
    var k := PayloadKey(mod);
    if k == "" then {} else {k}
  }

  /**
   * `_object_modifier_keys`: the normalized `modifier_keys` of the object, or when none is
   * usable, the keys of its modifier records.
   */
  function ObjectModifierKeys(o: ObjectMetrics): set<string> {
    var listed := UnionMap(o.modifier_keys, ListedKey);
    if listed != {} then listed else UnionMap(o.modifiers, PayloadKeySet)
  }

  /** The listed keys are exactly the non-blank normalized entries of `modifier_keys`. */
  lemma ListedKeysMembers(raw: seq<string>)
    ensures forall k :: k in UnionMap(raw, ListedKey) ==> k != "" && exists i :: 0 <= i < |raw| && NormalizeModifierKey(raw[i]) == k
    ensures forall i :: 0 <= i < |raw| && NormalizeModifierKey(raw[i]) != "" ==> NormalizeModifierKey(raw[i]) in UnionMap(raw, ListedKey)
  {
    UnionMapMembers(raw, ListedKey);
    forall i | 0 <= i < |raw| && NormalizeModifierKey(raw[i]) != ""
      ensures NormalizeModifierKey(raw[i]) in UnionMap(raw, ListedKey)
    {
      assert NormalizeModifierKey(raw[i]) in ListedKey(raw[i]);
    }
  }

  /** The record keys are exactly the non-blank keys of the modifier records. */
  lemma PayloadKeysMembers(mods: seq<ModifierInfo>)
    ensures forall k :: k in UnionMap(mods, PayloadKeySet) ==> k != "" && exists i :: 0 <= i < |mods| && PayloadKey(mods[i]) == k
    ensures forall i :: 0 <= i < |mods| && PayloadKey(mods[i]) != "" ==> PayloadKey(mods[i]) in UnionMap(mods, PayloadKeySet)
  {
    UnionMapMembers(mods, PayloadKeySet);
    forall i | 0 <= i < |mods| && PayloadKey(mods[i]) != ""
      ensures PayloadKey(mods[i]) in UnionMap(mods, PayloadKeySet)
    {
      assert PayloadKey(mods[i]) in PayloadKeySet(mods[i]);
    }
  }

  /** The object's keys are never empty text; listed keys win over the modifier records. */
  lemma ObjectModifierKeysShape(o: ObjectMetrics)
    ensures "" !in ObjectModifierKeys(o)
    ensures UnionMap(o.modifier_keys, ListedKey) != {} ==> ObjectModifierKeys(o) == UnionMap(o.modifier_keys, ListedKey)
    ensures UnionMap(o.modifier_keys, ListedKey) == {} ==> ObjectModifierKeys(o) == UnionMap(o.modifiers, PayloadKeySet)
  {
    ListedKeysMembers(o.modifier_keys);
    PayloadKeysMembers(o.modifiers);
  }

  /** Adds a key unless it is empty. */
  method AddKey(keys: set<string>, key: string) returns (r: set<string>)
    ensures r == keys + (if key == "" then {} else {key})
  {
    r := keys;
    if key != "" {
      r := r + {key};
    }
  }

  /** The first loop of `_object_modifier_keys`: the normalized listed keys. */
  method CollectListedKeys(raw: seq<string>) returns (keys: set<string>)
    ensures keys == UnionMap(raw, ListedKey)
  {
    keys := {};
    var i := 0;
    while i < |raw|
      invariant 0 <= i <= |raw|
      invariant keys == UnionMap(raw[..i], ListedKey)
    {
      assert raw[..i + 1][..i] == raw[..i];
      keys := AddKey(keys, NormalizeModifierKey(raw[i]));
      i := i + 1;
    }
    assert raw[..i] == raw;
  }

  /** The second loop of `_object_modifier_keys`: the keys of the modifier records. */
  method CollectPayloadKeys(mods: seq<ModifierInfo>) returns (keys: set<string>)
    ensures keys == UnionMap(mods, PayloadKeySet)
  {
    keys := {};
    var i := 0;
    while i < |mods|
      invariant 0 <= i <= |mods|
      invariant keys == UnionMap(mods[..i], PayloadKeySet)
    {
      assert mods[..i + 1][..i] == mods[..i];
      keys := AddKey(keys, PayloadKey(mods[i]));
      i := i + 1;
    }
    assert mods[..i] == mods;
  }

  /** `_object_modifier_keys`: the listed keys, or when there are none, the records' keys. */
  method CollectObjectModifierKeys(o: ObjectMetrics) returns (keys: set<string>)
    ensures keys == ObjectModifierKeys(o)
  {
    keys := CollectListedKeys(o.modifier_keys);
    if keys != {} {
      return;
    }
    keys := CollectPayloadKeys(o.modifiers);
  }

  /**
   * `_has_expected_modifier`: the normalized expectation is present itself; or, when it names a
   * method, its type is present; or, when it names only a type, some present key is that type
   * with a method.
   */
  predicate HasExpectedModifier(present: set<string>, expected: string) {
    var key := NormalizeModifierKey(expected);
    if key == "" then false
    else if key in present then true
    else if IndexOfChar(key, ':').Some? then ModType(key) in present
    else exists k :: k in present && StartsWith(k, key + ":")
  }

  /**
   * An expectation is met only by a non-empty key and some present key; it is met by its own
   * normalized key, and stays met when more keys are present.
   */
  lemma HasExpectedModifierShape(present: set<string>, more: set<string>, expected: string)
    ensures HasExpectedModifier(present, expected) ==> NormalizeModifierKey(expected) != "" && present != {}
    ensures NormalizeModifierKey(expected) != "" && NormalizeModifierKey(expected) in present ==>
      HasExpectedModifier(present, expected)
    ensures present <= more && HasExpectedModifier(present, expected) ==> HasExpectedModifier(more, expected)
  {
  }

  // ----- Observable effect -----

  /** `_verts_delta_abs`: how far the vertex count moved from the base mesh, when that is known. */
  function VertsDeltaAbs(o: ObjectMetrics): (r: Option<int>)
    ensures r.Some? <==> o.verts_base.Some?
    ensures r.Some? ==> r.value >= 0 && (r.value == o.verts - o.verts_base.value || r.value == o.verts_base.value - o.verts)
  {
    match o.verts_base
    case None => None
    case Some(base) => Some(if o.verts >= base then o.verts - base else base - o.verts)
  }

  datatype Effect = Effect(no_effect: bool, severity: int, reason: string, bend_angle: real)

  const WarnTypes: set<string> := {"BEVEL", "SUBSURF", "WEIGHTED_NORMAL", "BOOLEAN", "SHRINKWRAP", "CURVE", "LATTICE"}

  /** The types whose missing effect is an error rather than a warning. */
  predicate StrictType(key: string) {
    key == "SIMPLE_DEFORM:BEND" || ModType(key) == "ARRAY" || ModType(key) == "MIRROR" || ModType(key) == "SOLIDIFY"
  }

  /**
   * `_modifier_no_effect_for_object`: whether an expected modifier left no trace. A bend needs a box
   * change or a real bend angle; an array a box change or more vertices; a mirror or a solidify
   * (and the warned types) are judged only when the base vertex count is known; any other type needs
   * a box change or more vertices. Bends, arrays, mirrors and solidifies are errors, the rest warnings.
   */
  function ModifierNoEffect(o: ObjectMetrics, expected: string, eps_m: real, verts_eps: int): (r: Effect)
    ensures r.no_effect <==> r.severity > 0
    ensures r.severity == 0 || r.severity == 1 || r.severity == 2
    ensures r.severity == 2 <==> r.no_effect && StrictType(NormalizeModifierKey(expected))
    ensures r.no_effect && ModType(NormalizeModifierKey(expected)) != "MIRROR" ==> MaxDeltaAbs(o) < eps_m
    ensures r.no_effect && NormalizeModifierKey(expected) != "SIMPLE_DEFORM:BEND" && VertsDeltaAbs(o).Some? ==>
      VertsDeltaAbs(o).value <= verts_eps
    ensures NormalizeModifierKey(expected) != "SIMPLE_DEFORM:BEND" ==> r.bend_angle == 0.0
  {
    var mod_key := NormalizeModifierKey(expected);
    var mod_type := ModType(mod_key);
    var max_delta := MaxDeltaAbs(o);
    var verts_delta := VertsDeltaAbs(o);
    var has_geom_delta := max_delta >= eps_m;
    var has_verts_delta := verts_delta.Some? && verts_delta.value > verts_eps;
    if mod_key == "SIMPLE_DEFORM:BEND" then
      var summary := BendSummary(o.modifiers);
      if has_geom_delta || (summary.0 && summary.1 > BendModAngleEps) then Effect(false, 0, "", summary.1)
      else if summary.1 > BendModAngleEps then Effect(false, 0, "", summary.1)
      else Effect(true, 2, "bbox_delta too small", summary.1)
    else if mod_type == "ARRAY" then
      if has_geom_delta || has_verts_delta then Effect(false, 0, "", 0.0)
      else if verts_delta.None? then Effect(true, 2, "bbox_delta too small", 0.0)
      else Effect(true, 2, "bbox_delta and verts delta too small", 0.0)
    else if mod_type == "MIRROR" then
      if verts_delta.None? then Effect(false, 0, "verts_base unavailable", 0.0)
      else if verts_delta.value > verts_eps then Effect(false, 0, "", 0.0)
      else Effect(true, 2, "verts did not increase versus base mesh", 0.0)
    else if mod_type == "SOLIDIFY" then
      if verts_delta.None? then Effect(false, 0, "verts_base unavailable", 0.0)
      else if max_delta < eps_m && verts_delta.value <= verts_eps then Effect(true, 2, "bbox_delta and verts delta too small", 0.0)
      else Effect(false, 0, "", 0.0)
    else if mod_type in WarnTypes then
      if verts_delta.None? then Effect(false, 0, "verts_base unavailable", 0.0)
      else if max_delta < eps_m && verts_delta.value <= verts_eps then Effect(true, 1, "bbox_delta and verts delta too small", 0.0)
      else Effect(false, 0, "", 0.0)
    else if has_geom_delta || has_verts_delta then Effect(false, 0, "", 0.0)
    else Effect(true, 1, "bbox_delta and verts delta too small", 0.0)
  }

  // ----- MOD_EXPECTATION_MISSING -----

  /** The expected keys an object's present keys do not satisfy, in expectation order. */
  function MissingKeys(present: set<string>, expected: seq<string>): (r: seq<string>)
    ensures forall k :: k in r <==> k in expected && !HasExpectedModifier(present, k)
  {
    if expected == [] then []
    else
      var init, last := expected[..|expected| - 1], expected[|expected| - 1];
      assert expected == init + [last];
      MissingKeys(present, init) + (if HasExpectedModifier(present, last) then [] else [last])
  }

  /** The entry of one object: its name and missing keys, when something is missing. */
  function ObjectEntry(o: ObjectMetrics, expected: seq<string>): (r: seq<MissingEntry>)
    ensures |r| <= 1
    ensures r == [] <==> MissingKeys(ObjectModifierKeys(o), expected) == []
    ensures r != [] ==> r[0].name == o.name && r[0].missing == MissingKeys(ObjectModifierKeys(o), expected)
  {
    var missing := MissingKeys(ObjectModifierKeys(o), expected);
    if missing != [] then [MissingEntry(o.name, missing)] else []
  }

  function EntryOf(expected: seq<string>): ObjectMetrics -> seq<MissingEntry> {
    o => ObjectEntry(o, expected)
  }

  /** The objects with something missing, each with its missing keys, in object order. */
  function MissingEntries(objects: seq<ObjectMetrics>, expected: seq<string>): (r: seq<MissingEntry>)
    ensures |r| <= |objects|
    ensures forall e :: e in r ==> e.missing != []
  {
    ConcatMapAtMostOne(objects, EntryOf(expected));
    ConcatMapMembers(objects, EntryOf(expected));
    ConcatMap(objects, EntryOf(expected))
  }

  /** A group has no entry exactly when none of its objects misses an expected key. */
  lemma MissingEntriesEmpty(objects: seq<ObjectMetrics>, expected: seq<string>)
    ensures MissingEntries(objects, expected) == [] ==>
      forall i :: 0 <= i < |objects| ==> MissingKeys(ObjectModifierKeys(objects[i]), expected) == []
    ensures (forall i :: 0 <= i < |objects| ==> MissingKeys(ObjectModifierKeys(objects[i]), expected) == []) ==>
      MissingEntries(objects, expected) == []
  {
    ConcatMapEmpty(objects, EntryOf(expected));
  }

  /** The loop over a group's objects in `_validate_modifier_expectation_missing`. */
  method MissingByObject(objects: seq<ObjectMetrics>, expected: seq<string>) returns (entries: seq<MissingEntry>)
    ensures entries == MissingEntries(objects, expected)
  {
    entries := [];
    var i := 0;
    while i < |objects|
      invariant 0 <= i <= |objects|
      invariant entries == MissingEntries(objects[..i], expected)
    {
      ConcatMapStep(objects, EntryOf(expected), i);
      var present := CollectObjectModifierKeys(objects[i]);
      var missing := MissingKeys(present, expected);
      if missing != [] {
        entries := entries + [MissingEntry(objects[i].name, missing)];
      }
      i := i + 1;
    }
    assert objects[..i] == objects;
  }

  /** The problem one group contributes: none without meshes or without a mesh missing something. */
  function GroupMissing(m: MetricsPayload, group: string, expected: seq<string>): (r: seq<Problem>)
    ensures |r| <= 1
    ensures r != [] ==> (r[0].code == "MOD_EXPECTATION_MISSING" && r[0].severity == 2 && r[0].details.MissingDetails? &&
      r[0].details.missing_by_object != [] && r[0].details.objects_with_missing == |r[0].details.missing_by_object| <= r[0].details.objects)
  {
    var objects := MeshObjectsByPrefix(m.objects, group);
    if objects == [] then []
    else
      var entries := MissingEntries(objects, expected);
      if entries == [] then []
      else [Problem("MOD_EXPECTATION_MISSING", 2, "Expected modifiers are missing for group '" + group + "'.",
                    MissingDetails(group, expected, entries, |objects|, |entries|))]
  }

  /** The problems of the groups, in the given order. */
  function MissingOver(m: MetricsPayload, expected: map<string, seq<string>>, groups: seq<string>): (r: seq<Problem>)
    requires forall g :: g in groups ==> g in expected
    ensures |r| <= |groups|
    ensures forall p :: p in r ==> (p.code == "MOD_EXPECTATION_MISSING" && p.severity == 2 && p.details.MissingDetails? &&
      p.details.missing_by_object != [])
  {
    if groups == [] then []
    else
      var init, last := groups[..|groups| - 1], groups[|groups| - 1];
      assert forall g :: g in init ==> g in groups;
      MissingOver(m, expected, init) + GroupMissing(m, last, expected[last])
  }

  /** The groups in the order the validator visits them. */
  function GroupOrder(expected: map<string, seq<string>>): (r: seq<string>)
    ensures forall g :: g in r <==> g in expected
  {
    SortedStrings(expected.Keys)
  }

  lemma MissingOverStep(m: MetricsPayload, expected: map<string, seq<string>>, groups: seq<string>, i: int)
    requires forall g :: g in groups ==> g in expected
    requires 0 <= i < |groups|
    ensures MissingOver(m, expected, groups[..i + 1]) == MissingOver(m, expected, groups[..i]) + GroupMissing(m, groups[i], expected[groups[i]])
  {
    assert groups[..i + 1][..i] == groups[..i];
  }

  /** The body of the group loop in `_validate_modifier_expectation_missing`. */
  method GroupMissingLoop(m: MetricsPayload, group: string, expected: seq<string>) returns (problems: seq<Problem>)
    ensures problems == GroupMissing(m, group, expected)
  {
    problems := [];
    var objects := MeshObjectsByPrefix(m.objects, group);
    if objects != [] {
      var entries := MissingByObject(objects, expected);
      if entries != [] {
        problems := [Problem("MOD_EXPECTATION_MISSING", 2, "Expected modifiers are missing for group '" + group + "'.",
                             MissingDetails(group, expected, entries, |objects|, |entries|))];
      }
    }
  }

  /** `_validate_modifier_expectation_missing`. */
  method ValidateModifierExpectationMissing(ir: Obj, m: MetricsPayload) returns (problems: seq<Problem>)
    ensures var expected := ExpectedModifiersMap(ir); problems == MissingOver(m, expected, GroupOrder(expected))
  {
    var expected := ExpectedModifiersMap(ir);
    var groups := GroupOrder(expected);
    problems := [];
    var i := 0;
    while i < |groups|
      invariant 0 <= i <= |groups|
      invariant problems == MissingOver(m, expected, groups[..i])
    {
      MissingOverStep(m, expected, groups, i);
      var found := GroupMissingLoop(m, groups[i], expected[groups[i]]);
      problems := problems + found;
      i := i + 1;
    }
    assert groups[..i] == groups;
  }

  // ----- MOD_EXPECTATION_NO_EFFECT -----

  /** The problem one expected key of one object contributes. */
  function KeyNoEffect(group: string, o: ObjectMetrics, key: string, eps_m: real, verts_eps: int): (r: seq<Problem>)
    ensures |r| <= 1
    ensures r != [] <==> HasExpectedModifier(ObjectModifierKeys(o), key) && ModifierNoEffect(o, key, eps_m, verts_eps).no_effect
    ensures r != [] ==> r[0].code == "MOD_EXPECTATION_NO_EFFECT" && r[0].severity == ModifierNoEffect(o, key, eps_m, verts_eps).severity
  {
    if !HasExpectedModifier(ObjectModifierKeys(o), key) then []
    else
      var effect := ModifierNoEffect(o, key, eps_m, verts_eps);
      if !effect.no_effect || effect.severity <= 0 then []
      else
        var name := NormalizeModifierKey(key);
        [Problem("MOD_EXPECTATION_NO_EFFECT", effect.severity, "Modifier " + name + " has no observable effect.",
                 NoEffectDetails(group, o.name, name, effect.reason, o.bbox_delta, o.verts, o.verts_base, o.polys,
                                 o.polys_base, eps_m, verts_eps,
                                 if name == "SIMPLE_DEFORM:BEND" then Some(effect.bend_angle) else None))]
  }

  predicate NoEffectProblem(p: Problem) {
    p.code == "MOD_EXPECTATION_NO_EFFECT" && (p.severity == 1 || p.severity == 2)
  }

  /** The problems of one object's expected keys, in expectation order. */
  function KeysNoEffect(group: string, o: ObjectMetrics, keys: seq<string>, eps_m: real, verts_eps: int): (r: seq<Problem>)
    ensures |r| <= |keys|
    ensures forall p :: p in r ==> NoEffectProblem(p)
  {
    if keys == [] then []
    else KeysNoEffect(group, o, keys[..|keys| - 1], eps_m, verts_eps) + KeyNoEffect(group, o, keys[|keys| - 1], eps_m, verts_eps)
  }

  lemma KeysNoEffectStep(group: string, o: ObjectMetrics, keys: seq<string>, eps_m: real, verts_eps: int, i: int)
    requires 0 <= i < |keys|
    ensures KeysNoEffect(group, o, keys[..i + 1], eps_m, verts_eps) ==
      KeysNoEffect(group, o, keys[..i], eps_m, verts_eps) + KeyNoEffect(group, o, keys[i], eps_m, verts_eps)
  {
    assert keys[..i + 1][..i] == keys[..i];
  }

  /** The problems of one object: none when it has no modifier key at all. */
  function ObjectNoEffect(group: string, o: ObjectMetrics, keys: seq<string>, eps_m: real, verts_eps: int): seq<Problem> {
    if ObjectModifierKeys(o) == {} then [] else KeysNoEffect(group, o, keys, eps_m, verts_eps)
  }

  /** The problems of a group's objects, in object order. */
  function GroupNoEffect(group: string, objects: seq<ObjectMetrics>, keys: seq<string>, eps_m: real, verts_eps: int): (r: seq<Problem>)
    ensures forall p :: p in r ==> NoEffectProblem(p)
  {
    if objects == [] then []
    else GroupNoEffect(group, objects[..|objects| - 1], keys, eps_m, verts_eps) +
         ObjectNoEffect(group, objects[|objects| - 1], keys, eps_m, verts_eps)
  }

  /** The problems of the groups, in the given order. */
  function NoEffectOver(m: MetricsPayload, expected: map<string, seq<string>>, groups: seq<string>, eps_m: real, verts_eps: int): (r: seq<Problem>)
    requires forall g :: g in groups ==> g in expected
    ensures forall p :: p in r ==> NoEffectProblem(p)
  {
    if groups == [] then []
    else
      var init, last := groups[..|groups| - 1], groups[|groups| - 1];
      assert forall g :: g in init ==> g in groups;
      NoEffectOver(m, expected, init, eps_m, verts_eps) +
      GroupNoEffect(last, MeshObjectsByPrefix(m.objects, last), expected[last], eps_m, verts_eps)
  }

  lemma NoEffectOverStep(m: MetricsPayload, expected: map<string, seq<string>>, groups: seq<string>, eps_m: real, verts_eps: int, i: int)
    requires forall g :: g in groups ==> g in expected
    requires 0 <= i < |groups|
    ensures NoEffectOver(m, expected, groups[..i + 1], eps_m, verts_eps) == NoEffectOver(m, expected, groups[..i], eps_m, verts_eps) +
      GroupNoEffect(groups[i], MeshObjectsByPrefix(m.objects, groups[i]), expected[groups[i]], eps_m, verts_eps)
  {
    assert groups[..i + 1][..i] == groups[..i];
  }

  lemma GroupNoEffectStep(group: string, objects: seq<ObjectMetrics>, keys: seq<string>, eps_m: real, verts_eps: int, i: int)
    requires 0 <= i < |objects|
    ensures GroupNoEffect(group, objects[..i + 1], keys, eps_m, verts_eps) ==
      GroupNoEffect(group, objects[..i], keys, eps_m, verts_eps) + ObjectNoEffect(group, objects[i], keys, eps_m, verts_eps)
  {
    assert objects[..i + 1][..i] == objects[..i];
  }

  /** The loop over an object's expected keys in `_validate_modifier_expectation_no_effect`. */
  method ObjectNoEffectLoop(group: string, o: ObjectMetrics, keys: seq<string>, eps_m: real, verts_eps: int)
    returns (problems: seq<Problem>)
    ensures problems == ObjectNoEffect(group, o, keys, eps_m, verts_eps)
  {
    problems := [];
    var present := CollectObjectModifierKeys(o);
    if present == {} {
      return;
    }
    var i := 0;
    while i < |keys|
      invariant 0 <= i <= |keys|
      invariant problems == KeysNoEffect(group, o, keys[..i], eps_m, verts_eps)
    {
      KeysNoEffectStep(group, o, keys, eps_m, verts_eps, i);
      problems := problems + KeyNoEffect(group, o, keys[i], eps_m, verts_eps);
      i := i + 1;
    }
    assert keys[..i] == keys;
  }

  /** The loop over a group's objects. */
  method GroupNoEffectLoop(group: string, objects: seq<ObjectMetrics>, keys: seq<string>, eps_m: real, verts_eps: int)
    returns (problems: seq<Problem>)
    ensures problems == GroupNoEffect(group, objects, keys, eps_m, verts_eps)
  {
    problems := [];
    var i := 0;
    while i < |objects|
      invariant 0 <= i <= |objects|
      invariant problems == GroupNoEffect(group, objects[..i], keys, eps_m, verts_eps)
    {
      GroupNoEffectStep(group, objects, keys, eps_m, verts_eps, i);
      var found := ObjectNoEffectLoop(group, objects[i], keys, eps_m, verts_eps);
      problems := problems + found;
      i := i + 1;
    }
    assert objects[..i] == objects;
  }

  /** `_validate_modifier_expectation_no_effect`. */
  method ValidateModifierExpectationNoEffect(ir: Obj, m: MetricsPayload, eps_m: real, verts_eps: int)
    returns (problems: seq<Problem>)
    ensures var expected := ExpectedModifiersMap(ir);
      problems == NoEffectOver(m, expected, GroupOrder(expected), eps_m, verts_eps)
  {
    var expected := ExpectedModifiersMap(ir);
    var groups := GroupOrder(expected);
    problems := [];
    var i := 0;
    while i < |groups|
      invariant 0 <= i <= |groups|
      invariant problems == NoEffectOver(m, expected, groups[..i], eps_m, verts_eps)
    {
      NoEffectOverStep(m, expected, groups, eps_m, verts_eps, i);
      var group := groups[i];
      var found := GroupNoEffectLoop(group, MeshObjectsByPrefix(m.objects, group), expected[group], eps_m, verts_eps);
      problems := problems + found;
      i := i + 1;
    }
    assert groups[..i] == groups;
  }
}
