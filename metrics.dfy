/**
 * The pure part of the Blender debug metrics: axis-aligned boxes in metres, their union,
 * spans, centre, intersection and minimum-translation vector; the five object-name groups;
 * and the positive-volume overlap pairs between two groups. Reading boxes out of the Blender
 * scene is not part of this module: every object arrives as an `ObjectMetrics` record.
 */
module Metrics {
  import opened Wrappers
  import opened Text
  import opened Numeric
  import opened PlanTypes
  import opened GeomUtils

  /** One modifier as `_modifier_info` records it; `deform_method` is "" and `angle` 0 except on SIMPLE_DEFORM. */
  datatype ModifierInfo = ModifierInfo(name: string, kind: string, deform_method: string, angle: real)

  /**
   * One object of a metrics payload: its evaluated world box (None when it has none) and the
   * growth of its spans over the base mesh. `verts_base`, `polys_base` and `modifier_keys` are
   * optional keys the validator reads when a payload carries them.
   */
  datatype ObjectMetrics = ObjectMetrics(
    name: string,
    kind: string,
    verts: int,
    polys: int,
    verts_base: Option<int>,
    polys_base: Option<int>,
    modifiers: seq<ModifierInfo>,
    modifier_keys: seq<string>,
    bbox: Option<BBox>,
    bbox_delta: Vec3)

  const GroupKeys: seq<string> := ["slat_", "back_slat_", "arm_", "frame_", "leg_"]

  /** Coordinate `axis` (0 = x, 1 = y, 2 = z) of a triple. */
  function Coord(v: Vec3, axis: nat): real
    requires axis < 3
  {
    if axis == 0 then v.x else if axis == 1 then v.y else v.z
  }

  predicate Holds(b: BBox, p: Vec3) {
    b.min.x <= p.x <= b.max.x && b.min.y <= p.y <= b.max.y && b.min.z <= p.z <= b.max.z
  }

  // ----- Boxes from points and unions -----

  function PointBoxes(points: seq<Vec3>): (r: seq<BBox>)
    ensures |r| == |points| && forall i :: 0 <= i < |points| ==> r[i] == BBox(points[i], points[i])
  {
    seq(|points|, i requires 0 <= i < |points| => BBox(points[i], points[i]))
  }

  /** `_bbox_from_points`: the componentwise min and max of the points; None for no points. */
  function BoxFromPoints(points: seq<Vec3>): (r: Option<BBox>)
    ensures r.None? <==> points == []
  {
    if points == [] then None else Some(UnionOf(PointBoxes(points)))
  }

  /** The box of a list of points holds every point, and each of its six bounds is some point's coordinate. */
  lemma BoxFromPointsTight(points: seq<Vec3>)
    requires points != []
    ensures forall i :: 0 <= i < |points| ==> Holds(BoxFromPoints(points).value, points[i])
    ensures exists i :: 0 <= i < |points| && BoxFromPoints(points).value.min.x == points[i].x
    ensures exists i :: 0 <= i < |points| && BoxFromPoints(points).value.min.y == points[i].y
    ensures exists i :: 0 <= i < |points| && BoxFromPoints(points).value.min.z == points[i].z
    ensures exists i :: 0 <= i < |points| && BoxFromPoints(points).value.max.x == points[i].x
    ensures exists i :: 0 <= i < |points| && BoxFromPoints(points).value.max.y == points[i].y
    ensures exists i :: 0 <= i < |points| && BoxFromPoints(points).value.max.z == points[i].z
  {
    var boxes := PointBoxes(points);
    var u := UnionOf(boxes);
    forall i | 0 <= i < |points| ensures Holds(u, points[i]) {
      UnionContainsAll(boxes, i);
    }
    UnionAttained(boxes);
    var a :| 0 <= a < |boxes| && u.min.x == boxes[a].min.x;
    var b :| 0 <= b < |boxes| && u.min.y == boxes[b].min.y;
    var c :| 0 <= c < |boxes| && u.min.z == boxes[c].min.z;
    var d :| 0 <= d < |boxes| && u.max.x == boxes[d].max.x;
    var e :| 0 <= e < |boxes| && u.max.y == boxes[e].max.y;
    var f :| 0 <= f < |boxes| && u.max.z == boxes[f].max.z;
  }

  /** The boxes that are present, in order. */
  function Present(bs: seq<Option<BBox>>): (r: seq<BBox>)
    ensures |r| <= |bs|
    ensures forall b :: b in r <==> Some(b) in bs
  {
    if bs == [] then []
    else
      var init := bs[..|bs| - 1];
      assert bs == init + [bs[|bs| - 1]];
      Present(init) + (if bs[|bs| - 1].Some? then [bs[|bs| - 1].value] else [])
  }

  /** `_bbox_union` of the metrics helpers: None when no box is present, else the componentwise min/max. */
  function BoxUnion(bs: seq<Option<BBox>>): (r: Option<BBox>)
    ensures r.None? <==> forall i :: 0 <= i < |bs| ==> bs[i].None?
  {
    var present := Present(bs);
    assert forall i :: 0 <= i < |bs| && bs[i].Some? ==> bs[i].value in present;
    if present == [] then None
    else
      assert Some(present[0]) in bs;
      Some(UnionOf(present))
  }

  /** The union holds every present box, and each of its bounds is the bound of a present box. */
  lemma BoxUnionTight(bs: seq<Option<BBox>>)
    requires exists i :: 0 <= i < |bs| && bs[i].Some?
    ensures forall i :: 0 <= i < |bs| && bs[i].Some? ==> Inside(bs[i].value, BoxUnion(bs).value)
    ensures exists i :: 0 <= i < |bs| && bs[i].Some? && BoxUnion(bs).value.min.x == bs[i].value.min.x
    ensures exists i :: 0 <= i < |bs| && bs[i].Some? && BoxUnion(bs).value.max.z == bs[i].value.max.z
  {
    var present := Present(bs);
    var u := BoxUnion(bs).value;
    assert u == UnionOf(present);
    forall i | 0 <= i < |bs| && bs[i].Some? ensures Inside(bs[i].value, u) {
      assert bs[i].value in present;
      var j :| 0 <= j < |present| && present[j] == bs[i].value;
      UnionContainsAll(present, j);
    }
    UnionAttained(present);
    var a :| 0 <= a < |present| && u.min.x == present[a].min.x;
    assert Some(present[a]) in bs;
    var f :| 0 <= f < |present| && u.max.z == present[f].max.z;
    assert Some(present[f]) in bs;
  }

  // ----- Spans, centre and depths -----

  /** `_bbox_spans`: extents clipped at zero; all zero for a missing box. */
  function Spans(b: Option<BBox>): (r: Vec3)
    ensures r.x >= 0.0 && r.y >= 0.0 && r.z >= 0.0
    ensures b.None? ==> r == Origin
    ensures b.Some? && WellFormed(b.value) ==>
      r == Vec3(b.value.max.x - b.value.min.x, b.value.max.y - b.value.min.y, b.value.max.z - b.value.min.z)
  {
    if b.None? then Origin
    else Vec3(Max(0.0, b.value.max.x - b.value.min.x), Max(0.0, b.value.max.y - b.value.min.y),
              Max(0.0, b.value.max.z - b.value.min.z))
  }

  /** `_bbox_center`: the midpoint of a box, None for a missing box; it lies inside a well-formed box. */
  function Center(b: Option<BBox>): (r: Option<Vec3>)
    ensures r.Some? <==> b.Some?
    ensures b.Some? && WellFormed(b.value) ==> Holds(b.value, r.value)
  {
    if b.None? then None
    else Some(Vec3((b.value.min.x + b.value.max.x) * 0.5, (b.value.min.y + b.value.max.y) * 0.5,
                   (b.value.min.z + b.value.max.z) * 0.5))
  }

  /** `_bbox_overlap_depths`: per axis, the smaller max minus the larger min; zeros when a box is missing. */
  function Depths(a: Option<BBox>, b: Option<BBox>): Vec3 {
    if a.None? || b.None? then Origin
    else
      Vec3(Min(a.value.max.x, b.value.max.x) - Max(a.value.min.x, b.value.min.x),
           Min(a.value.max.y, b.value.max.y) - Max(a.value.min.y, b.value.min.y),
           Min(a.value.max.z, b.value.max.z) - Max(a.value.min.z, b.value.min.z))
  }

  predicate Positive(d: Vec3) { d.x > 0.0 && d.y > 0.0 && d.z > 0.0 }

  // ----- Intersection -----

  /**
   * `_bbox_overlap`: (volume, intersection box) when the boxes overlap with positive extent on all
   * three axes, else (0, None). The intersection lies in both boxes and its volume is the product
   * of its spans.
   */
  function BoxOverlap(a: Option<BBox>, b: Option<BBox>): (r: (real, Option<BBox>))
    ensures r.1.Some? <==> Positive(Depths(a, b))
    ensures r.1.None? ==> r.0 == 0.0
    ensures r.1.Some? ==> (a.Some? && b.Some? && r.0 > 0.0 &&
      Inside(r.1.value, a.value) && Inside(r.1.value, b.value) && WellFormed(r.1.value))
    ensures r.1.Some? ==> var s := Spans(r.1); r.0 == s.x * s.y * s.z
  {
    if a.None? || b.None? then (0.0, None)
    else
      var lo := Vec3(Max(a.value.min.x, b.value.min.x), Max(a.value.min.y, b.value.min.y),
                     Max(a.value.min.z, b.value.min.z));
      var hi := Vec3(Min(a.value.max.x, b.value.max.x), Min(a.value.max.y, b.value.max.y),
                     Min(a.value.max.z, b.value.max.z));
      var dx, dy, dz := hi.x - lo.x, hi.y - lo.y, hi.z - lo.z;
      if dx <= 0.0 || dy <= 0.0 || dz <= 0.0 then (0.0, None)
      else
        assert dx * dy > 0.0;
        (dx * dy * dz, Some(BBox(lo, hi)))
  }

  /** The intersection does not depend on the order of the two boxes. */
  lemma BoxOverlapSymmetric(a: Option<BBox>, b: Option<BBox>)
    ensures BoxOverlap(a, b) == BoxOverlap(b, a)
  {
    if a.Some? && b.Some? {
      var p, q := a.value, b.value;
      assert Depths(a, b) == Depths(b, a);
      var lo := Vec3(Max(p.min.x, q.min.x), Max(p.min.y, q.min.y), Max(p.min.z, q.min.z));
      var hi := Vec3(Min(p.max.x, q.max.x), Min(p.max.y, q.max.y), Min(p.max.z, q.max.z));
      assert lo == Vec3(Max(q.min.x, p.min.x), Max(q.min.y, p.min.y), Max(q.min.z, p.min.z));
      assert hi == Vec3(Min(q.max.x, p.max.x), Min(q.max.y, p.max.y), Min(q.max.z, p.max.z));
      assert BoxOverlap(a, b).1 == BoxOverlap(b, a).1;
      assert BoxOverlap(a, b).0 == BoxOverlap(b, a).0;
    }
  }

  /**
   * The intersection is the largest common box: any box with positive extents inside both boxes
   * makes the overlap non-empty and lies inside the intersection.
   */
  lemma BoxOverlapLargest(a: BBox, b: BBox, c: BBox)
    requires Inside(c, a) && Inside(c, b)
    requires c.min.x < c.max.x && c.min.y < c.max.y && c.min.z < c.max.z
    ensures BoxOverlap(Some(a), Some(b)).1.Some?
    ensures Inside(c, BoxOverlap(Some(a), Some(b)).1.value)
  {
    var d := Depths(Some(a), Some(b));
    assert d.x >= c.max.x - c.min.x && d.y >= c.max.y - c.min.y && d.z >= c.max.z - c.min.z;
  }

  // ----- Minimum translation vector -----

  datatype Mtv = Mtv(axis: string, depth_m: real, sign: int, delta_m: Vec3)

  const AxisNames: seq<string> := ["x", "y", "z"]

  /** The axis Python's `min` picks over x, y, z: a smallest depth, the first one on ties. */
  function MinAxis(d: Vec3): (i: nat)
    ensures i < 3
    ensures forall j :: 0 <= j < 3 ==> Coord(d, i) <= Coord(d, j)
    ensures forall j :: 0 <= j < i ==> Coord(d, j) > Coord(d, i)
  {
    if d.x <= d.y && d.x <= d.z then 0 else if d.y <= d.z then 1 else 2
  }

  /** A triple that is zero except on `axis`. */
  function AxisVector(axis: nat, amount: real): (r: Vec3)
    requires axis < 3
    ensures forall j :: 0 <= j < 3 ==> Coord(r, j) == if j == axis then amount else 0.0
  {
    if axis == 0 then Vec3(amount, 0.0, 0.0)
    else if axis == 1 then Vec3(0.0, amount, 0.0)
    else Vec3(0.0, 0.0, amount)
  }

  /**
   * `_bbox_mtv`: None unless the boxes overlap on all three axes. Otherwise the axis of smallest
   * depth (x before y before z on ties), that depth, the sign -1 exactly when the left centre lies
   * below the right centre on that axis, and a translation that is sign times depth on that axis
   * and zero on the others.
   */
  function BoxMtv(left: Option<BBox>, right: Option<BBox>): (r: Option<Mtv>)
    ensures r.Some? <==> Positive(Depths(left, right))
    ensures r.Some? ==> (left.Some? && right.Some? &&
      var d := Depths(left, right);
      exists i :: 0 <= i < 3 && r.value.axis == AxisNames[i] && r.value.depth_m == Coord(d, i) &&
        (forall j :: 0 <= j < 3 ==> r.value.depth_m <= Coord(d, j)) &&
        (forall j :: 0 <= j < i ==> Coord(d, j) > r.value.depth_m) &&
        (r.value.sign == -1 || r.value.sign == 1) &&
        (r.value.sign == -1 <==> Coord(Center(left).value, i) < Coord(Center(right).value, i)) &&
        (forall j :: 0 <= j < 3 ==> Coord(r.value.delta_m, j) == if j == i then r.value.sign as real * r.value.depth_m else 0.0))
  {
    var d := Depths(left, right);
    if d.x <= 0.0 || d.y <= 0.0 || d.z <= 0.0 then None
    else
      var i := MinAxis(d);
      var depth := Coord(d, i);
      var lc, rc := Center(left), Center(right);
      var sign := if lc.None? || rc.None? then 1 else if Coord(lc.value, i) < Coord(rc.value, i) then -1 else 1;
      Some(Mtv(AxisNames[i], depth, sign, AxisVector(i, sign as real * depth)))
  }

  /**
   * The translation exists exactly when the boxes intersect, and its depth is the smallest span
   * of the intersection box.
   */
  lemma MtvMatchesOverlap(left: Option<BBox>, right: Option<BBox>)
    ensures BoxMtv(left, right).Some? <==> BoxOverlap(left, right).1.Some?
    ensures BoxMtv(left, right).Some? ==>
      var s := Spans(BoxOverlap(left, right).1);
      BoxMtv(left, right).value.depth_m == Min(s.x, Min(s.y, s.z))
  {
    if BoxMtv(left, right).Some? {
      var d := Depths(left, right);
      var s := Spans(BoxOverlap(left, right).1);
      assert s == d;
    }
  }

  // ----- Name groups -----

  /** `_group_match`: case-insensitive membership of an object name in one of the five groups. */
  predicate GroupMatch(name: string, key: string) {
    var n := Lower(name);
    if key == "slat_" then StartsWith(n, "slat_")
    else if key == "back_slat_" then StartsWith(n, "back_slat_")
    else if key == "arm_" then
      StartsWith(n, "arm_") || StartsWith(n, "left_arm") || StartsWith(n, "right_arm") || Contains(n, "_arm_")
    else if key == "frame_" then
      StartsWith(n, "frame_") || StartsWith(n, "beam_") || StartsWith(n, "rail_") || StartsWith(n, "back_rail_") ||
      n in {"seat_support", "back_frame", "back_panel"}
    else if key == "leg_" then StartsWith(n, "leg_")
    else false
  }

  /**
   * Seat slats, back slats and frame members are three disjoint groups, so the two slat-versus-frame
   * overlap sets never pair an object with itself; a key outside the five matches nothing.
   */
  lemma SlatAndFrameGroupsDisjoint(name: string, key: string)
    ensures !(GroupMatch(name, "slat_") && GroupMatch(name, "back_slat_"))
    ensures !(GroupMatch(name, "slat_") && GroupMatch(name, "frame_"))
    ensures !(GroupMatch(name, "back_slat_") && GroupMatch(name, "frame_"))
    ensures key !in GroupKeys ==> !GroupMatch(name, key)
  {
    var n := Lower(name);
    if StartsWith(n, "slat_") {
      assert n[0] == 's' && n[1] == 'l';
    }
    if StartsWith(n, "back_slat_") {
      assert n[..5] == "back_" && n[5] == 's';
    }
  }

  // ----- Groups -----

  datatype Group = Group(count: nat, objects: seq<string>, bbox: Option<BBox>)

  /** The objects of one group, in payload order. */
  function Members(objects: seq<ObjectMetrics>, key: string): (r: seq<ObjectMetrics>)
    ensures |r| <= |objects|
    ensures forall o :: o in r <==> o in objects && GroupMatch(o.name, key)
  {
    if objects == [] then []
    else
      var init, last := objects[..|objects| - 1], objects[|objects| - 1];
      assert objects == init + [last];
      Members(init, key) + (if GroupMatch(last.name, key) then [last] else [])
  }

  function NamesOf(objects: seq<ObjectMetrics>): (r: seq<string>)
    ensures |r| == |objects| && forall i :: 0 <= i < |objects| ==> r[i] == objects[i].name
  {
    seq(|objects|, i requires 0 <= i < |objects| => objects[i].name)
  }

  function BoxesOf(objects: seq<ObjectMetrics>): (r: seq<Option<BBox>>)
    ensures |r| == |objects| && forall i :: 0 <= i < |objects| ==> r[i] == objects[i].bbox
  {
    seq(|objects|, i requires 0 <= i < |objects| => objects[i].bbox)
  }

  /** One entry of `_collect_groups`. */
  function GroupOf(objects: seq<ObjectMetrics>, key: string): Group {
    var members := Members(objects, key);
    Group(|members|, NamesOf(members), BoxUnion(BoxesOf(members)))
  }

  function GroupsOf(objects: seq<ObjectMetrics>): map<string, Group> {
    map k | k in GroupKeys :: GroupOf(objects, k)
  }

  /** `_collect_groups`: one entry per group key, filled in key order. */
  method CollectGroups(objects: seq<ObjectMetrics>) returns (groups: map<string, Group>)
    ensures groups == GroupsOf(objects)
  {
    groups := map[];
    var i := 0;
    while i < |GroupKeys|
      invariant 0 <= i <= |GroupKeys|
      invariant groups == map k | k in GroupKeys[..i] :: GroupOf(objects, k)
    {
      var key := GroupKeys[i];
      var members := Members(objects, key);
      groups := groups[key := Group(|members|, NamesOf(members), BoxUnion(BoxesOf(members)))];
      assert GroupKeys[..i + 1] == GroupKeys[..i] + [key];
      i := i + 1;
    }
    assert GroupKeys[..i] == GroupKeys;
  }

  /**
   * The five group keys are all present; each group's count is the length of its object list,
   * which names exactly the payload objects that match the group; its box is the union of theirs.
   */
  lemma GroupsShape(objects: seq<ObjectMetrics>, key: string)
    ensures GroupsOf(objects).Keys == {"slat_", "back_slat_", "arm_", "frame_", "leg_"}
    ensures key in GroupKeys ==>
      var g := GroupsOf(objects)[key];
      g.count == |g.objects| &&
      (forall o :: o in objects && GroupMatch(o.name, key) ==> o.name in g.objects) &&
      (forall name :: name in g.objects ==> exists o :: o in objects && o.name == name && GroupMatch(name, key)) &&
      g.bbox == BoxUnion(BoxesOf(Members(objects, key)))
  {
    GroupsKeys(objects);
    if key in GroupKeys {
      assert GroupsOf(objects)[key] == GroupOf(objects, key);
      GroupOfCovers(objects, key);
      GroupOfSound(objects, key);
    }
  }

  lemma GroupsKeys(objects: seq<ObjectMetrics>)
    ensures GroupsOf(objects).Keys == {"slat_", "back_slat_", "arm_", "frame_", "leg_"}
  {
    var ks := GroupsOf(objects).Keys;
    assert forall k :: k in ks <==> k in GroupKeys;
  }

  /** Every payload object that matches the key is named in its group. */
  lemma GroupOfCovers(objects: seq<ObjectMetrics>, key: string)
    ensures forall o :: o in objects && GroupMatch(o.name, key) ==> o.name in GroupOf(objects, key).objects
  {
    var members := Members(objects, key);
    var names := NamesOf(members);
    forall o | o in objects && GroupMatch(o.name, key) ensures o.name in names {
      var i :| 0 <= i < |members| && members[i] == o;
      assert names[i] == o.name;
    }
  }

  /** Every name in a group is the name of a payload object that matches the key. */
  lemma GroupOfSound(objects: seq<ObjectMetrics>, key: string)
    ensures forall name :: name in GroupOf(objects, key).objects ==>
      exists o :: o in objects && o.name == name && GroupMatch(name, key)
  {
    var members := Members(objects, key);
    var names := NamesOf(members);
    forall name | name in names ensures exists o :: o in objects && o.name == name && GroupMatch(name, key) {
      var i :| 0 <= i < |names| && names[i] == name;
      assert members[i] in members;
    }
  }

  // ----- Overlap pairs -----

  /** A positive-volume intersection between a left and a right object, before numbering. */
  datatype Hit = Hit(left: string, right: string, volume: real, bbox: Option<BBox>, mtv: Option<Mtv>)

  datatype OverlapPair = OverlapPair(
    pair_index: nat,
    pair_key: string,
    left: string,
    right: string,
    volume: real,
    bbox: Option<BBox>,
    mtv: Option<Mtv>)

  datatype OverlapSet = OverlapSet(total_volume: real, pairs: seq<OverlapPair>)

  /** The world box recorded for a name; None when the name is unknown or has no box. */
  function LookupBox(index: map<string, ObjectMetrics>, name: string): Option<BBox> {
    if name in index then index[name].bbox else None
  }

  /** The pair a left and a right name form, when both have boxes and the intersection has positive volume. */
  function HitOf(index: map<string, ObjectMetrics>, left: string, right: string): (r: Option<Hit>)
    ensures r.Some? ==> r.value.left == left && r.value.right == right && r.value.volume > 0.0
  {
    var lb, rb := LookupBox(index, left), LookupBox(index, right);
    if lb.None? || rb.None? then None
    else
      var o := BoxOverlap(lb, rb);
      if o.0 <= 0.0 then None
      else Some(Hit(left, right, o.0, o.1, BoxMtv(lb, rb)))
  }

  function HitsRow(index: map<string, ObjectMetrics>, left: string, rights: seq<string>): seq<Hit> {
    if rights == [] then []
    else
      var last := HitOf(index, left, rights[|rights| - 1]);
      HitsRow(index, left, rights[..|rights| - 1]) + (if last.Some? then [last.value] else [])
  }

  /** The hits in the order `_collect_overlap_pairs` visits them: left names outer, right names inner. */
  function Hits(index: map<string, ObjectMetrics>, lefts: seq<string>, rights: seq<string>): seq<Hit> {
    if lefts == [] then []
    else
      var left := lefts[|lefts| - 1];
      Hits(index, lefts[..|lefts| - 1], rights) +
      (if LookupBox(index, left).Some? then HitsRow(index, left, rights) else [])
  }

  function ToPair(h: Hit, i: nat): OverlapPair {
    OverlapPair(i, h.left + "|" + h.right, h.left, h.right, h.volume, h.bbox, h.mtv)
  }

  function Numbered(hits: seq<Hit>): (r: seq<OverlapPair>)
    ensures |r| == |hits| && forall i :: 0 <= i < |hits| ==> r[i] == ToPair(hits[i], i)
  {
    seq(|hits|, i requires 0 <= i < |hits| => ToPair(hits[i], i))
  }

  /** The sum of the pair volumes, accumulated left to right. */
  function PairsVolume(pairs: seq<OverlapPair>): real {
    if pairs == [] then 0.0 else PairsVolume(pairs[..|pairs| - 1]) + pairs[|pairs| - 1].volume
  }

  lemma NumberedAppend(hits: seq<Hit>, h: Hit)
    ensures Numbered(hits + [h]) == Numbered(hits) + [ToPair(h, |hits|)]
  {
  }

  lemma PairsVolumeAppend(pairs: seq<OverlapPair>, p: OverlapPair)
    ensures PairsVolume(pairs + [p]) == PairsVolume(pairs) + p.volume
  {
    assert (pairs + [p])[..|pairs|] == pairs;
  }

  /**
   * `_collect_overlap_pairs`: every left name against every right name, keeping the pairs of
   * positive volume, numbered 0, 1, 2, ... in visiting order; the total is the sum of their volumes.
   */
  method CollectOverlapPairs(lefts: seq<string>, rights: seq<string>, index: map<string, ObjectMetrics>)
    returns (r: OverlapSet)
    ensures r.pairs == Numbered(Hits(index, lefts, rights))
    ensures r.total_volume == PairsVolume(r.pairs)
  {
    var pairs: seq<OverlapPair> := [];
    var total := 0.0;
    var i := 0;
    while i < |lefts|
      invariant 0 <= i <= |lefts|
      invariant pairs == Numbered(Hits(index, lefts[..i], rights))
      invariant total == PairsVolume(pairs)
    {
      var left := lefts[i];
      assert lefts[..i + 1][..i] == lefts[..i];
      var lb := LookupBox(index, left);
      if lb.Some? {
        pairs, total := CollectRow(index, left, rights, Hits(index, lefts[..i], rights), pairs, total);
      }
      i := i + 1;
    }
    assert lefts[..i] == lefts;
    r := OverlapSet(total, pairs);
  }

  /** The inner loop of `_collect_overlap_pairs`: one left name against every right name. */
  method CollectRow(index: map<string, ObjectMetrics>, left: string, rights: seq<string>, ghost before: seq<Hit>,
                    pairs0: seq<OverlapPair>, total0: real)
    returns (pairs: seq<OverlapPair>, total: real)
    requires LookupBox(index, left).Some?
    requires pairs0 == Numbered(before) && total0 == PairsVolume(pairs0)
    ensures pairs == Numbered(before + HitsRow(index, left, rights))
    ensures total == PairsVolume(pairs)
  {
    var lb := LookupBox(index, left);
    pairs, total := pairs0, total0;
    var j := 0;
    assert before + HitsRow(index, left, rights[..0]) == before;
    while j < |rights|
      invariant 0 <= j <= |rights|
      invariant pairs == Numbered(before + HitsRow(index, left, rights[..j]))
      invariant total == PairsVolume(pairs)
    {
      var right := rights[j];
      assert rights[..j + 1][..j] == rights[..j];
      var rb := LookupBox(index, right);
      if rb.Some? {
        var o := BoxOverlap(lb, rb);
        if o.0 > 0.0 {
          var p := OverlapPair(|pairs|, left + "|" + right, left, right, o.0, o.1, BoxMtv(lb, rb));
          ghost var h := Hit(left, right, o.0, o.1, BoxMtv(lb, rb));
          assert HitOf(index, left, right) == Some(h);
          ConcatAssoc(before, HitsRow(index, left, rights[..j]), [h]);
          NumberedAppend(before + HitsRow(index, left, rights[..j]), h);
          PairsVolumeAppend(pairs, p);
          total := total + o.0;
          pairs := pairs + [p];
        }
      }
      j := j + 1;
    }
    assert rights[..j] == rights;
  }

  /** A row holds exactly the hits of its left name against its right names. */
  lemma {:induction false} HitsRowMembers(index: map<string, ObjectMetrics>, left: string, rights: seq<string>, h: Hit)
    ensures h in HitsRow(index, left, rights) <==> h.left == left && h.right in rights && HitOf(index, left, h.right) == Some(h)
  {
    if rights != [] {
      var init := rights[..|rights| - 1];
      HitsRowMembers(index, left, init, h);
      assert rights == init + [rights[|rights| - 1]];
    }
  }

  /**
   * The pairs are exactly the (left, right) combinations of the two name lists whose boxes both
   * exist and intersect with positive volume.
   */
  lemma {:induction false} HitsMembers(index: map<string, ObjectMetrics>, lefts: seq<string>, rights: seq<string>, h: Hit)
    ensures h in Hits(index, lefts, rights) <==>
      h.left in lefts && h.right in rights && HitOf(index, h.left, h.right) == Some(h)
  {
    if lefts != [] {
      var init, left := lefts[..|lefts| - 1], lefts[|lefts| - 1];
      HitsMembers(index, init, rights, h);
      HitsRowMembers(index, left, rights, h);
      assert lefts == init + [left];
    }
  }

  /**
   * Every collected pair has positive volume, its index is its position and its key is
   * "left|right"; a pair of names is listed iff both are in the lists and their boxes intersect.
   */
  lemma OverlapPairsShape(index: map<string, ObjectMetrics>, lefts: seq<string>, rights: seq<string>, k: nat, l: string, r: string)
    ensures var ps := Numbered(Hits(index, lefts, rights));
      k < |ps| ==> ps[k].pair_index == k && ps[k].pair_key == ps[k].left + "|" + ps[k].right && ps[k].volume > 0.0
    ensures (exists p :: p in Numbered(Hits(index, lefts, rights)) && p.left == l && p.right == r) <==>
      l in lefts && r in rights && HitOf(index, l, r).Some?
  {
    var hits := Hits(index, lefts, rights);
    var ps := Numbered(hits);
    if k < |ps| {
      HitsMembers(index, lefts, rights, hits[k]);
    }
    if exists p :: p in ps && p.left == l && p.right == r {
      var p :| p in ps && p.left == l && p.right == r;
      var i :| 0 <= i < |ps| && ps[i] == p;
      HitsMembers(index, lefts, rights, hits[i]);
    }
    if l in lefts && r in rights && HitOf(index, l, r).Some? {
      var h := HitOf(index, l, r).value;
      HitsMembers(index, lefts, rights, h);
      var i :| 0 <= i < |hits| && hits[i] == h;
      assert ps[i] in ps;
    }
  }

  /**
   * The part of `collect_scene_metrics`'s payload the validator reads: the objects, the groups and
   * the overlap sets by name ("slats_vs_arms", "slats_vs_frame", "back_slats_vs_frame").
   */
  datatype MetricsPayload = MetricsPayload(
    objects: seq<ObjectMetrics>,
    groups: map<string, Group>,
    overlaps: map<string, OverlapSet>)
}
