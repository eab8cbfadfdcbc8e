/**
 * The pure half of the debug visualisation: the scene box the debug camera frames, which objects
 * the validator's problems name as offenders, and the colour each mesh object is painted.
 */
module Visualize {
  import opened Text
  import opened Numeric
  import opened Ir
  import opened Lists

  // ---------------------------------------------------------------------------------------------
  // Boxes
  // ---------------------------------------------------------------------------------------------

  /** `_valid_bbox`: a dict whose "min" and "max" are lists of at least three entries. */
  predicate ValidBbox(b: Json) {
    && b.JObj? && "min" in b.fields && "max" in b.fields
    && b.fields["min"].JArr? && b.fields["max"].JArr?
    && |b.fields["min"].items| >= 3 && |b.fields["max"].items| >= 3
  }

  /** `_safe_float(b[key][k])`. */
  function Corner(b: Json, key: string, k: int): real
    requires ValidBbox(b) && (key == "min" || key == "max") && 0 <= k < 3
  {
    AsFloat(b.fields[key].items[k], 0.0)
  }

  lemma ValidIsTruthy(b: Json)
    requires ValidBbox(b)
    ensures Truthy(b)
  {
    assert "min" in b.fields;
  }

  /** Both boxes valid, and `outer` holds `inner` on every axis. */
  predicate Encloses(outer: Json, inner: Json) {
    && ValidBbox(outer) && ValidBbox(inner)
    && forall k :: 0 <= k < 3 ==>
         Corner(outer, "min", k) <= Corner(inner, "min", k) && Corner(inner, "max", k) <= Corner(outer, "max", k)
  }

  /**
   * `_bbox_union`: the other box when one side is empty (`None` or `{}`), otherwise a fresh box of the
   * componentwise minimum and maximum.
   */
  function BboxUnion(a: Json, b: Json): (r: Json)
    requires !Truthy(a) || ValidBbox(a)
    requires !Truthy(b) || ValidBbox(b)
    ensures !Truthy(a) ==> r == b
    ensures Truthy(a) && !Truthy(b) ==> r == a
    ensures Truthy(a) && Truthy(b) ==> Encloses(r, a) && Encloses(r, b)
    ensures Truthy(a) && Truthy(b) ==> forall k :: 0 <= k < 3 ==>
      (Corner(r, "min", k) == Corner(a, "min", k) || Corner(r, "min", k) == Corner(b, "min", k)) &&
      (Corner(r, "max", k) == Corner(a, "max", k) || Corner(r, "max", k) == Corner(b, "max", k))
  {
    if !Truthy(a) then b
    else if !Truthy(b) then a
    else
      var lo := seq(3, k requires 0 <= k < 3 => JNum(Min(Corner(a, "min", k), Corner(b, "min", k))));
      var hi := seq(3, k requires 0 <= k < 3 => JNum(Max(Corner(a, "max", k), Corner(b, "max", k))));
      JObj(map["min" := JArr(lo), "max" := JArr(hi)])
  }

  /** The running union over candidate boxes, skipping the invalid ones, from a starting box. */
  function UnionAll(acc: Json, cands: seq<Json>): (r: Json)
    requires !Truthy(acc) || ValidBbox(acc)
    ensures !Truthy(r) || ValidBbox(r)
  {
    if cands == [] then acc
    else
      var prev := UnionAll(acc, cands[..|cands| - 1]);
      var last := cands[|cands| - 1];
      if ValidBbox(last) then (ValidIsTruthy(last); BboxUnion(prev, last)) else prev
  }

  lemma UnionAllStep(acc: Json, cands: seq<Json>, i: int)
    requires !Truthy(acc) || ValidBbox(acc)
    requires 0 <= i < |cands|
    ensures UnionAll(acc, cands[..i + 1]) ==
      var prev := UnionAll(acc, cands[..i]);
      if ValidBbox(cands[i]) then (ValidIsTruthy(cands[i]); BboxUnion(prev, cands[i])) else prev
  {
    assert cands[..i + 1][..i] == cands[..i];
  }

  /**
   * The union is empty exactly when the start is empty and no candidate is valid; otherwise it
   * encloses the start and every valid candidate.
   */
  lemma {:induction false} UnionAllEncloses(acc: Json, cands: seq<Json>)
    requires !Truthy(acc) || ValidBbox(acc)
    ensures var r := UnionAll(acc, cands);
      && (Truthy(r) <==> Truthy(acc) || exists i :: 0 <= i < |cands| && ValidBbox(cands[i]))
      && (!Truthy(r) ==> r == acc)
      && (Truthy(acc) ==> Encloses(r, acc))
      && forall i :: 0 <= i < |cands| && ValidBbox(cands[i]) ==> Encloses(r, cands[i])
  {
    if cands != [] {
      var init := cands[..|cands| - 1];
      var last := cands[|cands| - 1];
      UnionAllEncloses(acc, init);
      var prev := UnionAll(acc, init);
      var r := UnionAll(acc, cands);
      assert forall i :: 0 <= i < |init| ==> init[i] == cands[i];
      if ValidBbox(last) {
        ValidIsTruthy(last);
        if Truthy(prev) {
          forall i | 0 <= i < |cands| && ValidBbox(cands[i])
            ensures Encloses(r, cands[i])
          {
            if i < |init| {
              assert Encloses(prev, cands[i]);
            }
          }
        } else {
          assert !Truthy(acc);
        }
      }
    }
  }

  const TargetGroups: seq<string> := ["frame_", "slat_", "back_slat_", "arm_", "leg_"]

  /** `groups.get(key, {}).get("bbox_world")` when that payload is a dict. */
  function GroupCandidate(groups: Obj, key: string): Json {
    var payload := GetOr(groups, key, JObj(map[]));
    if payload.JObj? then GetOr(payload.fields, "bbox_world", JNull) else JNull
  }

  function GroupCandidates(groups: Obj): (r: seq<Json>)
    ensures |r| == |TargetGroups|
    ensures forall i :: 0 <= i < |r| ==> r[i] == GroupCandidate(groups, TargetGroups[i])
  {
    seq(|TargetGroups|, i requires 0 <= i < |TargetGroups| => GroupCandidate(groups, TargetGroups[i]))
  }

  /** `str(obj.get("type", "")).upper() == "MESH"`; a type that is not text never reads as "MESH". */
  predicate IsMesh(obj: Obj) {
    var t := GetOr(obj, "type", JStr(""));
    t.JStr? && Upper(t.s) == "MESH"
  }

  /** The box of a MESH object dict, null for anything else. */
  function ObjectCandidate(obj: Json): Json {
    if obj.JObj? && IsMesh(obj.fields) then GetOr(obj.fields, "bbox_world", JNull) else JNull
  }

  function ObjectCandidates(objects: seq<Json>): (r: seq<Json>)
    ensures |r| == |objects|
    ensures forall i :: 0 <= i < |r| ==> r[i] == ObjectCandidate(objects[i])
  {
    seq(|objects|, i requires 0 <= i < |objects| => ObjectCandidate(objects[i]))
  }

  /** The union of the valid target-group boxes; null when `groups` is not a dict. */
  function GroupsBbox(metrics: Obj): (r: Json)
    ensures !Truthy(r) || ValidBbox(r)
  {
    var groups := GetOr(metrics, "groups", JObj(map[]));
    if groups.JObj? then UnionAll(JNull, GroupCandidates(groups.fields)) else JNull
  }

  /**
   * `_scene_bbox_from_metrics`: the union of the target groups' boxes, and only when there is none,
   * the union of the MESH objects' boxes; null for metrics that are not a dict or objects that are
   * not a list.
   */
  function SceneBbox(metrics: Json): Json {
    if !metrics.JObj? then JNull
    else
      var fromGroups := GroupsBbox(metrics.fields);
      if Truthy(fromGroups) then fromGroups
      else
        var objects := GetOr(metrics.fields, "objects", JArr([]));
        if objects.JArr? then UnionAll(fromGroups, ObjectCandidates(objects.items)) else JNull
  }

  /** Some target group of a metrics dict carries a valid box. */
  predicate HasGroupBox(metrics: Obj) {
    var groups := GetOr(metrics, "groups", JObj(map[]));
    groups.JObj? && exists i :: 0 <= i < |TargetGroups| && ValidBbox(GroupCandidate(groups.fields, TargetGroups[i]))
  }

  /**
   * The scene box is null or valid. When some target group has a valid box it encloses every such
   * box and ignores the objects; otherwise it encloses every valid MESH object box, and it is null
   * exactly when there is none.
   */
  lemma SceneBboxShape(metrics: Obj)
    ensures var r := SceneBbox(JObj(metrics));
      var groups := GetOr(metrics, "groups", JObj(map[]));
      var objects := GetOr(metrics, "objects", JArr([]));
      && (r == JNull || ValidBbox(r))
      && (HasGroupBox(metrics) ==>
            && r == GroupsBbox(metrics)
            && forall i :: 0 <= i < |TargetGroups| && ValidBbox(GroupCandidate(groups.fields, TargetGroups[i])) ==>
                 Encloses(r, GroupCandidate(groups.fields, TargetGroups[i])))
      && (!HasGroupBox(metrics) && objects.JArr? ==>
            && (r == JNull <==> forall i :: 0 <= i < |objects.items| ==> !ValidBbox(ObjectCandidate(objects.items[i])))
            && forall i :: 0 <= i < |objects.items| && ValidBbox(ObjectCandidate(objects.items[i])) ==>
                 Encloses(r, ObjectCandidate(objects.items[i])))
  {
    var groups := GetOr(metrics, "groups", JObj(map[]));
    var objects := GetOr(metrics, "objects", JArr([]));
    if groups.JObj? {
      UnionAllEncloses(JNull, GroupCandidates(groups.fields));
    }
    var fromGroups := GroupsBbox(metrics);
    if !HasGroupBox(metrics) {
      assert fromGroups == JNull;
      if objects.JArr? {
        var cands := ObjectCandidates(objects.items);
        UnionAllEncloses(JNull, cands);
        var r := UnionAll(JNull, cands);
        if r != JNull {
          ValidIsTruthy(r);
        }
      }
    }
  }

  /** `_scene_bbox_from_metrics`, folding over the groups and then the objects. */
  method SceneBboxFromMetrics(metrics: Json) returns (bbox: Json)
    ensures bbox == SceneBbox(metrics)
  {
    if !metrics.JObj? {
      return JNull;
    }
    bbox := JNull;
    var groups := GetOr(metrics.fields, "groups", JObj(map[]));
    if groups.JObj? {
      var cands := GroupCandidates(groups.fields);
      var i := 0;
      while i < |TargetGroups|
        invariant 0 <= i <= |TargetGroups|
        invariant bbox == UnionAll(JNull, cands[..i])
      {
        UnionAllStep(JNull, cands, i);
        var payload := GetOr(groups.fields, TargetGroups[i], JObj(map[]));
        if payload.JObj? {
          var group_bbox := GetOr(payload.fields, "bbox_world", JNull);
          if ValidBbox(group_bbox) {
            ValidIsTruthy(group_bbox);
            bbox := BboxUnion(bbox, group_bbox);
          }
        }
        i := i + 1;
      }
      assert cands[..|TargetGroups|] == cands;
    }
    if Truthy(bbox) {
      return;
    }
    var objects := GetOr(metrics.fields, "objects", JArr([]));
    if !objects.JArr? {
      return JNull;
    }
    ghost var start := bbox;
    var cands := ObjectCandidates(objects.items);
    var i := 0;
    while i < |objects.items|
      invariant 0 <= i <= |objects.items|
      invariant bbox == UnionAll(start, cands[..i])
    {
      UnionAllStep(start, cands, i);
      var obj := objects.items[i];
      if obj.JObj? && IsMesh(obj.fields) {
        var obj_bbox := GetOr(obj.fields, "bbox_world", JNull);
        if ValidBbox(obj_bbox) {
          ValidIsTruthy(obj_bbox);
          bbox := BboxUnion(bbox, obj_bbox);
        }
      }
      i := i + 1;
    }
    assert cands[..|objects.items|] == cands;
  }

  // ---------------------------------------------------------------------------------------------
  // Offenders
  // ---------------------------------------------------------------------------------------------

  /**
   * `str(value).strip()` for a name, through `PyStr`: text is stripped, null reads "None", booleans
   * "True"/"False", whole numbers their digits; a value whose text is not modelled reads as the
   * placeholder "?".
   */
  function NameText(v: Json): (r: string)
    ensures r == [] || (!IsSpace(r[0]) && !IsSpace(r[|r| - 1]))
    ensures PyStr(v).Some? ==> r == Strip(PyStr(v).value)
    ensures PyStr(v).None? ==> r == "?"
    ensures v.JNum? && v.n.Floor as real == v.n ==> r == IntToString(v.n.Floor)
  {
    match PyStr(v)
    case Some(t) =>
      (if v.JNum? then IntNameKept(v.n.Floor); Strip(t) else Strip(t))
    case None => "?"
  }

  /** The text of an integer has no surrounding white space to strip. */
  lemma IntNameKept(n: int)
    ensures Strip(IntToString(n)) == IntToString(n)
  {
    var t := IntToString(n);
    IntToStringShape(n);
    assert !IsSpace(t[0]) && !IsSpace(t[|t| - 1]);
    StripKeeps(t);
  }

  /** Different whole numbers are different names, so each numbered offender is painted. */
  lemma IntNamesDistinct(m: int, n: int)
    requires m != n
    ensures NameText(JNum(m as real)) != NameText(JNum(n as real))
  {
    assert (m as real).Floor == m && (n as real).Floor == n;
    PyStrIntRoundTrip(m);
    PyStrIntRoundTrip(n);
  }

  /** `_add_name` into an empty set: the name, unless it is blank. */
  function NameSet(v: Json): set<string> {
    if NameText(v) != "" then {NameText(v)} else {}
  }

  /** A clean name: not empty, and neither starting nor ending with white space. */
  predicate CleanName(n: string) {
    n != [] && !IsSpace(n[0]) && !IsSpace(n[|n| - 1])
  }

  function ListOr(v: Json): seq<Json> {
    if v.JArr? then v.items else []
  }

  /** `item.get("name", "")` of a dict item; other items name nothing. */
  function ItemName(item: Json): set<string> {
    if item.JObj? then NameSet(GetOr(item.fields, "name", JStr(""))) else {}
  }

  /** A dict item's "name", or the item itself when it is not a dict. */
  function ItemOrValueName(item: Json): set<string> {
    if item.JObj? then NameSet(GetOr(item.fields, "name", JStr(""))) else NameSet(item)
  }

  /** Both sides of an overlap pair dict. */
  function PairNames(pair: Json): set<string> {
    if pair.JObj? then NameSet(GetOr(pair.fields, "left", JStr(""))) + NameSet(GetOr(pair.fields, "right", JStr("")))
    else {}
  }

  /** The keys of a dict, stripped, blanks dropped. */
  function KeyNames(m: Obj): set<string> {
    set k | k in m && Strip(k) != "" :: Strip(k)
  }

  /** A list of items by name, or a dict by its keys. */
  function ListOrKeyNames(v: Json): set<string> {
    if v.JArr? then UnionMap(v.items, ItemName) else if v.JObj? then KeyNames(v.fields) else {}
  }

  /** `_names_from_pairs_top`. */
  function PairsTopNames(details: Obj): set<string> {
    UnionMap(ListOr(GetOr(details, "pairs_top", JArr([]))), PairNames)
  }

  /** `_names_from_top5`. */
  function Top5Names(details: Obj): set<string> {
    UnionMap(ListOr(GetOr(details, "top5", JArr([]))), ItemName)
  }

  /** `_names_from_missing_details`. */
  function MissingNames(details: Obj): set<string> {
    ListOrKeyNames(GetOr(details, "missing_by_object", JArr([])))
  }

  /** `_names_from_no_effect_details`. */
  function NoEffectNames(details: Obj): set<string> {
    NameSet(GetOr(details, "name", JStr("")))
    + ListOrKeyNames(GetOr(details, "by_object", JNull))
    + UnionMap(ListOr(GetOr(details, "offenders", JNull)), ItemOrValueName)
    + UnionMap(ListOr(GetOr(details, "top", JNull)), ItemOrValueName)
    + UnionMap(ListOr(GetOr(details, "top5", JNull)), ItemOrValueName)
  }

  /** `_details`. */
  function Details(problem: Obj): Obj {
    AsObj(GetOr(problem, "details", JObj(map[])))
  }

  datatype Colour = Red | Blue | Orange | Gray

  /**
   * The colour a problem's names go to and the names: pairs of OVERLAP_* codes are red, the top five
   * of the two NOT_BENT codes blue, and the objects of the two modifier-expectation codes orange.
   */
  function Contribution(problem: Json): (Colour, set<string>) {
    if !problem.JObj? then (Gray, {})
    else
      var code := ProblemCode(problem);
      var details := Details(problem.fields);
      if StartsWith(code, "OVERLAP_") then (Red, PairsTopNames(details))
      else if code == "SLATS_NOT_BENT" || code == "BACK_SLATS_NOT_BENT" then (Blue, Top5Names(details))
      else if code == "MOD_EXPECTATION_MISSING" then (Orange, MissingNames(details))
      else if code == "MOD_EXPECTATION_NO_EFFECT" then (Orange, NoEffectNames(details))
      else (Gray, {})
  }

  function NamesOf(colour: Colour): Json -> set<string> {
    p => if Contribution(p).0 == colour then Contribution(p).1 else {}
  }

  /** A problem's code when it contributed at least one name. */
  function CodesOf(problem: Json): set<string> {
    if Contribution(problem).1 != {} then {ProblemCode(problem)} else {}
  }

  datatype Offenders = Offenders(red: set<string>, blue: set<string>, orange: set<string>, codes: set<string>)

  /** `_collect_offenders_by_priority` over a list of problems. */
  function Collect(problems: seq<Json>): Offenders {
    Offenders(UnionMap(problems, NamesOf(Red)), UnionMap(problems, NamesOf(Blue)),
              UnionMap(problems, NamesOf(Orange)), UnionMap(problems, CodesOf))
  }

  /** `validation.get("problems", [])` when it is a list. */
  function ProblemsOf(validation: Obj): seq<Json> {
    ListOr(GetOr(validation, "problems", JArr([])))
  }

  /**
   * A name is an offender of a colour exactly when some problem routes it to that colour, and a code
   * is recorded exactly when some problem with that code contributed a name.
   */
  lemma OffenderSources(problems: seq<Json>)
    ensures var r := Collect(problems);
      && (forall n :: n in r.red <==> exists i :: 0 <= i < |problems| && Contribution(problems[i]).0 == Red && n in Contribution(problems[i]).1)
      && (forall n :: n in r.blue <==> exists i :: 0 <= i < |problems| && Contribution(problems[i]).0 == Blue && n in Contribution(problems[i]).1)
      && (forall n :: n in r.orange <==> exists i :: 0 <= i < |problems| && Contribution(problems[i]).0 == Orange && n in Contribution(problems[i]).1)
      && (forall c :: c in r.codes <==> exists i :: 0 <= i < |problems| && ProblemCode(problems[i]) == c && Contribution(problems[i]).1 != {})
  {
    UnionMapMembers(problems, NamesOf(Red));
    UnionMapMembers(problems, NamesOf(Blue));
    UnionMapMembers(problems, NamesOf(Orange));
    UnionMapMembers(problems, CodesOf);
  }

  lemma UnionMapClean(xs: seq<Json>, f: Json -> set<string>)
    requires forall x, n :: n in f(x) ==> CleanName(n)
    ensures forall n :: n in UnionMap(xs, f) ==> CleanName(n)
  {
    UnionMapMembers(xs, f);
  }

  lemma ListOrKeyNamesClean(v: Json)
    ensures forall n :: n in ListOrKeyNames(v) ==> CleanName(n)
  {
    if v.JArr? {
      UnionMapClean(v.items, ItemName);
    }
  }

  lemma NameSetClean(v: Json)
    ensures forall n :: n in NameSet(v) ==> CleanName(n)
  {
  }

  lemma PairsTopNamesClean(details: Obj)
    ensures forall n :: n in PairsTopNames(details) ==> CleanName(n)
  {
    forall x, n | n in PairNames(x)
      ensures CleanName(n)
    {
      if x.JObj? {
        NameSetClean(GetOr(x.fields, "left", JStr("")));
        NameSetClean(GetOr(x.fields, "right", JStr("")));
      }
    }
    UnionMapClean(ListOr(GetOr(details, "pairs_top", JArr([]))), PairNames);
  }

  lemma Top5NamesClean(details: Obj)
    ensures forall n :: n in Top5Names(details) ==> CleanName(n)
  {
    UnionMapClean(ListOr(GetOr(details, "top5", JArr([]))), ItemName);
  }

  lemma ItemOrValueNamesClean(xs: seq<Json>)
    ensures forall n :: n in UnionMap(xs, ItemOrValueName) ==> CleanName(n)
  {
    forall x, n | n in ItemOrValueName(x)
      ensures CleanName(n)
    {
      if x.JObj? {
        NameSetClean(GetOr(x.fields, "name", JStr("")));
      } else {
        NameSetClean(x);
      }
    }
    UnionMapClean(xs, ItemOrValueName);
  }

  lemma NoEffectNamesClean(details: Obj)
    ensures forall n :: n in NoEffectNames(details) ==> CleanName(n)
  {
    NameSetClean(GetOr(details, "name", JStr("")));
    ListOrKeyNamesClean(GetOr(details, "by_object", JNull));
    ItemOrValueNamesClean(ListOr(GetOr(details, "offenders", JNull)));
    ItemOrValueNamesClean(ListOr(GetOr(details, "top", JNull)));
    ItemOrValueNamesClean(ListOr(GetOr(details, "top5", JNull)));
  }

  /** Every name a problem contributes is clean: blank names are never collected. */
  lemma ContributionClean(problem: Json)
    ensures forall n :: n in Contribution(problem).1 ==> CleanName(n)
  {
    if problem.JObj? {
      var d := Details(problem.fields);
      var code := ProblemCode(problem);
      if StartsWith(code, "OVERLAP_") {
        PairsTopNamesClean(d);
      } else if code == "SLATS_NOT_BENT" || code == "BACK_SLATS_NOT_BENT" {
        Top5NamesClean(d);
      } else if code == "MOD_EXPECTATION_MISSING" {
        ListOrKeyNamesClean(GetOr(d, "missing_by_object", JArr([])));
      } else if code == "MOD_EXPECTATION_NO_EFFECT" {
        NoEffectNamesClean(d);
      }
    }
  }

  /** No offender of any colour is blank or padded with white space. */
  lemma OffendersClean(problems: seq<Json>)
    ensures var r := Collect(problems);
      forall n :: n in r.red + r.blue + r.orange ==> CleanName(n)
  {
    forall p | true
      ensures forall n :: n in Contribution(p).1 ==> CleanName(n)
    {
      ContributionClean(p);
    }
    UnionMapClean(problems, NamesOf(Red));
    UnionMapClean(problems, NamesOf(Blue));
    UnionMapClean(problems, NamesOf(Orange));
  }

  /** One more problem adds its names to its colour's set, and its code when it named anything. */
  lemma CollectStep(problems: seq<Json>, i: int)
    requires 0 <= i < |problems|
    ensures var prev := Collect(problems[..i]);
      var (colour, names) := Contribution(problems[i]);
      Collect(problems[..i + 1]) == Offenders(
        if colour == Red then prev.red + names else prev.red,
        if colour == Blue then prev.blue + names else prev.blue,
        if colour == Orange then prev.orange + names else prev.orange,
        if names != {} then prev.codes + {ProblemCode(problems[i])} else prev.codes)
  {
    NamesStep(problems, i, Red);
    NamesStep(problems, i, Blue);
    NamesStep(problems, i, Orange);
    CodesStep(problems, i);
  }

  lemma NamesStep(problems: seq<Json>, i: int, colour: Colour)
    requires 0 <= i < |problems|
    ensures var c := Contribution(problems[i]);
      UnionMap(problems[..i + 1], NamesOf(colour)) ==
        if c.0 == colour then UnionMap(problems[..i], NamesOf(colour)) + c.1 else UnionMap(problems[..i], NamesOf(colour))
  {
    UnionMapStep(problems, NamesOf(colour), i);
  }

  lemma CodesStep(problems: seq<Json>, i: int)
    requires 0 <= i < |problems|
    ensures UnionMap(problems[..i + 1], CodesOf) ==
      if Contribution(problems[i]).1 != {} then UnionMap(problems[..i], CodesOf) + {ProblemCode(problems[i])}
      else UnionMap(problems[..i], CodesOf)
  {
    UnionMapStep(problems, CodesOf, i);
  }

  /** `_collect_offenders_by_priority`: the four sets, filled problem by problem. */
  method CollectOffendersByPriority(validation: Obj) returns (r: Offenders)
    ensures r == Collect(ProblemsOf(validation))
  {
    var problems := ProblemsOf(validation);
    var red, blue, orange, codes := {}, {}, {}, {};
    var i := 0;
    while i < |problems|
      invariant 0 <= i <= |problems|
      invariant Offenders(red, blue, orange, codes) == Collect(problems[..i])
    {
      CollectStep(problems, i);
      var (colour, names) := Contribution(problems[i]);
      if colour == Red {
        red := red + names;
      } else if colour == Blue {
        blue := blue + names;
      } else if colour == Orange {
        orange := orange + names;
      }
      if names != {} {
        codes := codes + {ProblemCode(problems[i])};
      }
      i := i + 1;
    }
    assert problems[..|problems|] == problems;
    r := Offenders(red, blue, orange, codes);
  }

  // ---------------------------------------------------------------------------------------------
  // Painting
  // ---------------------------------------------------------------------------------------------

  function AllOffenders(off: Offenders): set<string> {
    off.red + off.blue + off.orange
  }

  /**
   * The colour a mesh object is painted: red beats blue beats orange, and only objects that are no
   * offender at all stay gray.
   */
  function PaintColour(name: string, off: Offenders): (c: Colour)
    ensures c == Gray <==> name !in AllOffenders(off)
    ensures c == Red <==> name in off.red
    ensures c == Blue ==> name in off.blue
    ensures c == Orange ==> name in off.orange && name !in off.blue
  {
    if name in off.red then Red
    else if name in off.blue then Blue
    else if name in off.orange then Orange
    else Gray
  }

  /** How many of the names are painted the given colour. */
  function CountColour(names: seq<string>, off: Offenders, c: Colour): (r: nat)
    ensures r <= |names|
  {
    if names == [] then 0
    else CountColour(names[..|names| - 1], off, c) + (if PaintColour(names[|names| - 1], off) == c then 1 else 0)
  }

  /** Every mesh object is painted exactly one colour. */
  lemma {:induction false} CountsCoverAll(names: seq<string>, off: Offenders)
    ensures CountColour(names, off, Red) + CountColour(names, off, Blue) + CountColour(names, off, Orange)
            + CountColour(names, off, Gray) == |names|
  {
    if names != [] {
      CountsCoverAll(names[..|names| - 1], off);
    }
  }

  /** No object is gray when every name is an offender, and none is red when there are no red offenders. */
  lemma {:induction false} CountZero(names: seq<string>, off: Offenders, c: Colour)
    requires forall i :: 0 <= i < |names| ==> PaintColour(names[i], off) != c
    ensures CountColour(names, off, c) == 0
  {
    if names != [] {
      var init := names[..|names| - 1];
      assert forall i :: 0 <= i < |init| ==> init[i] == names[i];
      CountZero(init, off, c);
    }
  }

  /** The painting loop of `apply_debug_visualization` over the mesh objects' names. */
  method PaintCounts(names: seq<string>, off: Offenders) returns (red: nat, blue: nat, orange: nat, gray: nat)
    ensures red == CountColour(names, off, Red) && blue == CountColour(names, off, Blue)
    ensures orange == CountColour(names, off, Orange) && gray == CountColour(names, off, Gray)
    ensures red + blue + orange + gray == |names|
  {
    red, blue, orange, gray := 0, 0, 0, 0;
    var i := 0;
    while i < |names|
      invariant 0 <= i <= |names|
      invariant red == CountColour(names[..i], off, Red) && blue == CountColour(names[..i], off, Blue)
      invariant orange == CountColour(names[..i], off, Orange) && gray == CountColour(names[..i], off, Gray)
    {
      assert names[..i + 1][..i] == names[..i];
      var name := names[i];
      if name in off.red {
        red := red + 1;
      } else if name in off.blue {
        blue := blue + 1;
      } else if name in off.orange {
        orange := orange + 1;
      } else {
        gray := gray + 1;
      }
      i := i + 1;
    }
    assert names[..|names|] == names;
    CountsCoverAll(names, off);
  }
}
