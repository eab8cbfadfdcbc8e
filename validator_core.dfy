/**
 * The shared vocabulary of the debug validator: its thresholds, the problem records it
 * reports, and the lookups into a metrics payload (missing entries read as zero, empty or None).
 */
module ValidatorCore {
  import opened Wrappers
  import opened Text
  import opened Numeric
  import opened Ir
  import opened PlanTypes
  import opened GeomUtils
  import opened Metrics

  const DefaultOverlapEps: real := 0.00000001
  const BendModAngleEps: real := 0.000001

  /** The thresholds the validator otherwise reads from the environment. */
  datatype Thresholds = Thresholds(
    overlap_m3: real,
    bend_m: real,
    clearance_m: real,
    joint_allowance_mm: real,
    mod_effect_m: real,
    mod_effect_verts: int)

  /** The values used when the environment sets none. */
  const DefaultThresholds := Thresholds(DefaultOverlapEps, 0.002, 0.003, 2.0, 0.001, 4)

  /** One entry of a `pairs_top` list. */
  datatype PairTop = PairTop(left: string, right: string, volume: real, bbox: Option<BBox>)

  /** One entry of the per-object bend diagnostics. */
  datatype BendDiag = BendDiag(name: string, bbox_delta: Vec3, max_delta: real, has_bend_mod: bool, bend_angle: real)

  datatype MissingEntry = MissingEntry(name: string, missing: seq<string>)

  /** The `details` payload of each kind of problem. */
  datatype Details =
    | OverlapDetails(
        total_volume_m3: real, eps_m3: real, pairs_top: seq<PairTop>, offenders: seq<string>,
        unique_left_count: nat, unique_right_count: nat)
    | SplitOverlapDetails(
        total_volume_m3: real, effective_total_volume_m3: real, joint_only_volume_m3: real, eps_m3: real,
        pairs_top: seq<PairTop>, joint_pairs_top: seq<PairTop>, offenders: seq<string>,
        unique_left_count: nat, unique_right_count: nat, joint_pairs_count: nat, joint_allowance_mm: real)
    | BendDetails(count_total: nat, count_bent: nat, eps_m: real, top5: seq<BendDiag>, no_objects_note: bool)
    | ClearanceDetails(min_clearance_z_m: real, eps_m: real)
    | MissingDetails(
        group_key: string, expected: seq<string>, missing_by_object: seq<MissingEntry>,
        objects: nat, objects_with_missing: nat)
    | NoEffectDetails(
        group_key: string, name: string, modifier: string, reason: string, bbox_delta: Vec3,
        verts: int, verts_base: Option<int>, polys: int, polys_base: Option<int>,
        eps_m: real, verts_eps: int, bend_angle: Option<real>)

  datatype Problem = Problem(code: string, severity: int, message: string, details: Details)

  /** `_overlap_total`: the recorded total volume of an overlap set, 0 when the set is missing. */
  function OverlapTotal(m: MetricsPayload, key: string): real {
    if key in m.overlaps then m.overlaps[key].total_volume else 0.0
  }

  /** `_overlap_pairs`: the pairs of an overlap set, none when the set is missing. */
  function OverlapPairs(m: MetricsPayload, key: string): seq<OverlapPair> {
    if key in m.overlaps then m.overlaps[key].pairs else []
  }

  /** `_group_count`: a group's object count, 0 when the group is missing. */
  function GroupCount(m: MetricsPayload, key: string): int {
    if key in m.groups then m.groups[key].count else 0
  }

  /** `_group_bbox_world`: a group's box, None when the group or its box is missing. */
  function GroupBox(m: MetricsPayload, key: string): Option<BBox> {
    if key in m.groups then m.groups[key].bbox else None
  }

  /** `_pair_min_span`: the smallest span of the pair's intersection box; 0 without a box. */
  function PairMinSpan(p: OverlapPair): (r: real)
    ensures r >= 0.0
    ensures p.bbox.None? ==> r == 0.0
    ensures var s := Spans(p.bbox); r <= s.x && r <= s.y && r <= s.z && (r == s.x || r == s.y || r == s.z)
  {
    var s := Spans(p.bbox);
    Min(s.x, Min(s.y, s.z))
  }

  /** `_objects_by_prefix`: the objects whose lower-cased name starts with the lower-cased prefix, in order. */
  function ObjectsByPrefix(objects: seq<ObjectMetrics>, prefix: string): (r: seq<ObjectMetrics>)
    ensures |r| <= |objects|
    ensures forall o :: o in r <==> o in objects && StartsWith(Lower(o.name), Lower(prefix))
  {
    if objects == [] then []
    else
      var init, last := objects[..|objects| - 1], objects[|objects| - 1];
      assert objects == init + [last];
      ObjectsByPrefix(init, prefix) + (if StartsWith(Lower(last.name), Lower(prefix)) then [last] else [])
  }

  predicate IsMesh(o: ObjectMetrics) { Upper(Strip(o.kind)) == "MESH" }

  /** `_mesh_objects_by_prefix`: the prefix matches whose type is MESH. */
  function MeshObjectsByPrefix(objects: seq<ObjectMetrics>, prefix: string): (r: seq<ObjectMetrics>)
    ensures |r| <= |objects|
    ensures forall o :: o in r <==> o in objects && StartsWith(Lower(o.name), Lower(prefix)) && IsMesh(o)
  {
    MeshOnly(ObjectsByPrefix(objects, prefix))
  }

  function MeshOnly(objects: seq<ObjectMetrics>): (r: seq<ObjectMetrics>)
    ensures |r| <= |objects|
    ensures forall o :: o in r <==> o in objects && IsMesh(o)
  {
    if objects == [] then []
    else
      var init, last := objects[..|objects| - 1], objects[|objects| - 1];
      assert objects == init + [last];
      MeshOnly(init) + (if IsMesh(last) then [last] else [])
  }

  /** `str(value).strip().lower() == word` for a lower-case word: only text can spell it. */
  predicate TextIs(v: Json, word: string) {
    v.JStr? && Lower(Strip(v.s)) == word
  }

  /**
   * `_z_clearance_between_bboxes`: None when a box is missing; otherwise the vertical gap between
   * the boxes, which is positive exactly when their z intervals are apart and 0 when they meet.
   */
  function ZClearance(a: Option<BBox>, b: Option<BBox>): (r: Option<real>)
    ensures r.None? <==> a.None? || b.None?
    ensures r.Some? ==> r.value >= 0.0
    ensures r.Some? ==> (r.value > 0.0 <==> a.value.max.z < b.value.min.z || b.value.max.z < a.value.min.z)
    ensures r.Some? && a.value.max.z < b.value.min.z ==> r.value == b.value.min.z - a.value.max.z
    ensures r.Some? && a.value.max.z >= b.value.min.z && b.value.max.z < a.value.min.z ==> r.value == a.value.min.z - b.value.max.z
  {
    if a.None? || b.None? then None
    else if a.value.max.z < b.value.min.z then Some(b.value.min.z - a.value.max.z)
    else if b.value.max.z < a.value.min.z then Some(a.value.min.z - b.value.max.z)
    else Some(0.0)
  }
}
