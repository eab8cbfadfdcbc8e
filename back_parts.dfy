/**
 * The appending helpers of `back.py`: the split_2 centre post and the horizontal
 * and vertical slat builders. Each slat gets a same-named anchor at its location.
 */
module BackParts {
  import opened Wrappers
  import opened Ir
  import opened Text
  import opened Numeric
  import opened PlanTypes
  import opened BackGeometry

  /** The anchor `back.py` appends next to a primitive: same name, same location. */
  function AnchorAt(p: Primitive): (a: Anchor)
    ensures a.name == p.name && a.location_mm == p.location_mm
  {
    Anchor(p.name, p.location_mm)
  }

  function AnchorsAt(ps: seq<Primitive>): (r: seq<Anchor>)
    ensures |r| == |ps|
    ensures forall i :: 0 <= i < |ps| ==> r[i] == AnchorAt(ps[i])
  {
    seq(|ps|, i requires 0 <= i < |ps| => AnchorAt(ps[i]))
  }

  lemma AnchorsAtConcat(ps: seq<Primitive>, qs: seq<Primitive>)
    ensures AnchorsAt(ps + qs) == AnchorsAt(ps) + AnchorsAt(qs)
  {
    assert forall i :: 0 <= i < |ps + qs| ==> AnchorsAt(ps + qs)[i] == (AnchorsAt(ps) + AnchorsAt(qs))[i];
  }

  /** The centre post `build_back_frame_split2` appends: as tall as the opening between the rails (at least 1 mm). */
  function CenterPost(center_post_width: real, rail_depth: real, inner_bottom_frame_z: real, inner_top_frame_z: real,
                      frame_center_y: real): (p: Primitive)
    ensures p.name == "back_rail_center" && p.shape == "beam"
    ensures p.dimensions_mm.z >= 1.0 && p.location_mm.x == 0.0
    ensures p.location_mm.z - p.dimensions_mm.z / 2.0 == inner_bottom_frame_z
    ensures inner_top_frame_z - inner_bottom_frame_z >= 1.0 ==> p.location_mm.z + p.dimensions_mm.z / 2.0 == inner_top_frame_z
  {
    var h := Max(1.0, inner_top_frame_z - inner_bottom_frame_z);
    NewPrimitive("back_rail_center", "beam", Vec3(center_post_width, rail_depth, h),
                 Vec3(0.0, frame_center_y, inner_bottom_frame_z + h / 2.0))
  }

  /** `build_back_frame_split2`: appends the centre post and its anchor, and returns the half-width the slats keep clear of. */
  method BuildBackFrameSplit2(plan: BuildPlan, center_post_width: real, rail_depth: real, inner_bottom_frame_z: real,
                              inner_top_frame_z: real, frame_center_y: real, inset_x: real) returns (center_gap_half_x: real)
    modifies plan
    ensures center_gap_half_x == center_post_width / 2.0 + inset_x
    ensures plan.primitives == old(plan.primitives) + [CenterPost(center_post_width, rail_depth, inner_bottom_frame_z, inner_top_frame_z, frame_center_y)]
    ensures plan.anchors == old(plan.anchors) + [AnchorAt(CenterPost(center_post_width, rail_depth, inner_bottom_frame_z, inner_top_frame_z, frame_center_y))]
    ensures plan.metadata == old(plan.metadata)
  {
    var post := CenterPost(center_post_width, rail_depth, inner_bottom_frame_z, inner_top_frame_z, frame_center_y);
    plan.AddPrimitive(post);
    plan.AddAnchor(Anchor(post.name, post.location_mm));
    center_gap_half_x := center_post_width / 2.0 + inset_x;
  }

  /** `build_back_frame_full`: no post, so no clear zone. */
  function BuildBackFrameFull(): real { 0.0 }

  /** The arguments both slat builders share (the debug-text-only arguments are not modelled). */
  datatype SlatsArgs = SlatsArgs(
    width_mm: real,
    thickness_mm: real,
    arc_height_mm: real,
    arc_sign: real,
    count: int,
    has_gap: bool,
    gap_mm: real,
    split: bool,
    rect: InnerRect,
    center_split_gap_half_x: real,
    center_y: real,
    center_z: real)

  /** back_slat_{row} for a full segment (the running index equals the row there), back_slat_{side}_{row} otherwise. */
  function HSlatName(segment: string, row: nat): string {
    if segment == "full" then "back_slat_" + NatToString(row) else "back_slat_" + segment + "_" + NatToString(row)
  }

  /** One horizontal slat: spans its segment (at least 1 mm), one row high, at height `z`. */
  function HSlat(z: real, row: nat, seg: Segment, a: SlatsArgs): (p: Primitive)
    ensures p.name == HSlatName(seg.name, row) && p.shape == "beam"
    ensures p.location_mm.y == a.center_y && p.location_mm.z == z
    ensures p.location_mm.x - p.dimensions_mm.x / 2.0 == seg.min_x
    ensures seg.max_x - seg.min_x >= 1.0 ==> p.location_mm.x + p.dimensions_mm.x / 2.0 == seg.max_x
  {
    var len := Max(1.0, seg.max_x - seg.min_x);
    Primitive(HSlatName(seg.name, row), "beam", Vec3(len, a.thickness_mm, Max(1.0, a.width_mm)),
              Vec3(seg.min_x + len / 2.0, a.center_y, z), Origin,
              map["orientation" := JStr("horizontal"),
                  "layout" := JStr(if a.split then "split_center" else "full"),
                  "row_index" := JNum(row as real),
                  "segment" := JStr(seg.name)])
  }

  /** The slats of one row, one per segment, in segment order. */
  function RowSlats(z: real, row: nat, segs: seq<Segment>, a: SlatsArgs): (r: seq<Primitive>)
    ensures |r| == |segs| && forall k :: 0 <= k < |segs| ==> r[k] == HSlat(z, row, segs[k], a)
  {
    seq(|segs|, k requires 0 <= k < |segs| => HSlat(z, row, segs[k], a))
  }

  /** Rows 1..|rows| in order, each contributing its row of slats. */
  function RowsSlats(rows: seq<real>, segs: seq<Segment>, a: SlatsArgs): seq<Primitive>
    decreases |rows|
  {
    if rows == [] then []
    else RowsSlats(rows[..|rows| - 1], segs, a) + RowSlats(rows[|rows| - 1], |rows|, segs, a)
  }

  function HorizontalRowHeight(a: SlatsArgs): real { Max(1.0, a.width_mm) }

  function HorizontalRows(a: SlatsArgs): seq<real> {
    var row_h := HorizontalRowHeight(a);
    var row_gap := RowGap(a.has_gap, a.gap_mm);
    CentersForRange(a.rect.bottom_z, a.rect.top_z, RowCount(a.count, row_h, row_gap, a.rect.bottom_z, a.rect.top_z),
                    row_h, Some(row_gap))
  }

  function HorizontalSegments(a: SlatsArgs): seq<Segment> {
    Segments(a.split, a.rect.min_x, a.rect.max_x, a.center_split_gap_half_x)
  }

  /** Everything `build_back_horizontal_slats` appends. */
  function HorizontalSlats(a: SlatsArgs): seq<Primitive> {
    RowsSlats(HorizontalRows(a), HorizontalSegments(a), a)
  }

  /** A segment list as `Segments` produces it: one full segment, or only left/right ones. */
  predicate FullAlone(segs: seq<Segment>) {
    |segs| >= 1 &&
    (segs[0].name == "full" ==> |segs| == 1) &&
    (forall k :: 1 <= k < |segs| ==> segs[k].name != "full")
  }

  /** The inner loop of `build_back_horizontal_slats`: one slat and anchor per segment of row `row`. */
  method AppendRowSlats(plan: BuildPlan, z: real, row: nat, segs: seq<Segment>, a: SlatsArgs, next_full_index: nat)
    returns (next_full_after: nat)
    requires FullAlone(segs)
    requires next_full_index == if segs[0].name == "full" then row else 1
    modifies plan
    ensures next_full_after == if segs[0].name == "full" then row + 1 else 1
    ensures plan.primitives == old(plan.primitives) + RowSlats(z, row, segs, a)
    ensures plan.anchors == old(plan.anchors) + AnchorsAt(RowSlats(z, row, segs, a))
    ensures plan.metadata == old(plan.metadata)
  {
    var full := segs[0].name == "full";
    var slats := RowSlats(z, row, segs, a);
    next_full_after := next_full_index;
    var k := 0;
    while k < |segs|
      invariant 0 <= k <= |segs|
      invariant next_full_after == if full then row + k else 1
      invariant plan.primitives == old(plan.primitives) + slats[..k]
      invariant plan.anchors == old(plan.anchors) + AnchorsAt(slats[..k])
      invariant plan.metadata == old(plan.metadata)
    {
      var seg := segs[k];
      var name;
      if seg.name == "full" {
        name := "back_slat_" + NatToString(next_full_after);
        next_full_after := next_full_after + 1;
      } else {
        name := "back_slat_" + seg.name + "_" + NatToString(row);
      }
      AppendSlat(plan, z, row, seg, a, name);
      assert slats[..k + 1] == slats[..k] + [slats[k]];
      AnchorsAtConcat(slats[..k], [slats[k]]);
      k := k + 1;
    }
    assert slats[..|segs|] == slats;
  }

  /** One iteration of that loop: the slat of segment `seg` and its anchor. */
  method AppendSlat(plan: BuildPlan, z: real, row: nat, seg: Segment, a: SlatsArgs, name: string)
    requires name == HSlatName(seg.name, row)
    modifies plan
    ensures plan.primitives == old(plan.primitives) + [HSlat(z, row, seg, a)]
    ensures plan.anchors == old(plan.anchors) + AnchorsAt([HSlat(z, row, seg, a)])
    ensures plan.metadata == old(plan.metadata)
  {
    var row_h := Max(1.0, a.width_mm);
    var seg_len := Max(1.0, seg.max_x - seg.min_x);
    var cx := seg.min_x + seg_len / 2.0;
    var slat := Primitive(name, "beam", Vec3(seg_len, a.thickness_mm, row_h), Vec3(cx, a.center_y, z), Origin,
                          map["orientation" := JStr("horizontal"),
                              "layout" := JStr(if a.split then "split_center" else "full"),
                              "row_index" := JNum(row as real),
                              "segment" := JStr(seg.name)]);
    assert slat == HSlat(z, row, seg, a);
    plan.AddPrimitive(slat);
    plan.AddAnchor(Anchor(name, Vec3(cx, a.center_y, z)));
    assert AnchorsAt([slat])[0] == AnchorAt(slat);
  }

  lemma SegmentsFullAlone(a: SlatsArgs)
    ensures FullAlone(HorizontalSegments(a))
  {
  }

  lemma RowsSlatsSnoc(rows: seq<real>, r: nat, segs: seq<Segment>, a: SlatsArgs)
    requires r < |rows|
    ensures RowsSlats(rows[..r + 1], segs, a) == RowsSlats(rows[..r], segs, a) + RowSlats(rows[r], r + 1, segs, a)
  {
    assert rows[..r + 1][..r] == rows[..r];
  }

  /** The outer loop of `build_back_horizontal_slats`, over the row centres bottom to top. */
  method AppendRows(plan: BuildPlan, rows: seq<real>, segs: seq<Segment>, a: SlatsArgs)
    requires FullAlone(segs)
    modifies plan
    ensures plan.primitives == old(plan.primitives) + RowsSlats(rows, segs, a)
    ensures plan.anchors == old(plan.anchors) + AnchorsAt(RowsSlats(rows, segs, a))
    ensures plan.metadata == old(plan.metadata)
  {
    var full := segs[0].name == "full";
    var next_full_index: nat := 1;
    var r := 0;
    while r < |rows|
      invariant 0 <= r <= |rows|
      invariant next_full_index == if full then r + 1 else 1
      invariant plan.primitives == old(plan.primitives) + RowsSlats(rows[..r], segs, a)
      invariant plan.anchors == old(plan.anchors) + AnchorsAt(RowsSlats(rows[..r], segs, a))
      invariant plan.metadata == old(plan.metadata)
    {
      var done := RowsSlats(rows[..r], segs, a);
      var row := RowSlats(rows[r], r + 1, segs, a);
      next_full_index := AppendRowSlats(plan, rows[r], r + 1, segs, a, next_full_index);
      RowsSlatsSnoc(rows, r, segs, a);
      AnchorsAtConcat(done, row);
      ConcatAssoc(old(plan.primitives), done, row);
      ConcatAssoc(old(plan.anchors), AnchorsAt(done), AnchorsAt(row));
      r := r + 1;
    }
    assert rows[..|rows|] == rows;
  }

  /** `build_back_horizontal_slats`: the row count and centres, the segments, then rows × segments. */
  method BuildBackHorizontalSlats(plan: BuildPlan, a: SlatsArgs)
    modifies plan
    ensures plan.primitives == old(plan.primitives) + HorizontalSlats(a)
    ensures plan.anchors == old(plan.anchors) + AnchorsAt(HorizontalSlats(a))
    ensures plan.metadata == old(plan.metadata)
  {
    var rows := HorizontalRows(a);
    var segs := HorizontalSegments(a);
    SegmentsFullAlone(a);
    AppendRows(plan, rows, segs, a);
  }

  /** A slat clear of the central zone: entirely left of -half or entirely right of +half. */
  predicate ClearOfCentre(p: Primitive, half: real) {
    p.location_mm.x + p.dimensions_mm.x / 2.0 <= -half || p.location_mm.x - p.dimensions_mm.x / 2.0 >= half
  }

  lemma {:induction false} RowsSlatsClear(rows: seq<real>, segs: seq<Segment>, a: SlatsArgs)
    requires forall k :: 0 <= k < |segs| ==>
      segs[k].max_x - segs[k].min_x >= 1.0 &&
      (segs[k].max_x <= -a.center_split_gap_half_x || segs[k].min_x >= a.center_split_gap_half_x)
    ensures forall p :: p in RowsSlats(rows, segs, a) ==> ClearOfCentre(p, a.center_split_gap_half_x)
    decreases |rows|
  {
    if rows != [] {
      RowsSlatsClear(rows[..|rows| - 1], segs, a);
    }
  }

  /** Split horizontal slats never reach into the central zone, so with a positive half-width they never cross x = 0. */
  lemma HorizontalSplitClear(a: SlatsArgs)
    requires HorizontalSegments(a)[0].name != "full"
    ensures forall p :: p in HorizontalSlats(a) ==> ClearOfCentre(p, a.center_split_gap_half_x)
  {
    RowsSlatsClear(HorizontalRows(a), HorizontalSegments(a), a);
  }

  lemma {:induction false} RowsSlatsCount(rows: seq<real>, segs: seq<Segment>, a: SlatsArgs)
    ensures |RowsSlats(rows, segs, a)| == |rows| * |segs|
    decreases |rows|
  {
    if rows != [] {
      RowsSlatsCount(rows[..|rows| - 1], segs, a);
    }
  }

  lemma {:induction false} RowsSlatsFull(rows: seq<real>, seg: Segment, a: SlatsArgs)
    requires seg.name == "full"
    ensures |RowsSlats(rows, [seg], a)| == |rows|
    ensures forall i :: 0 <= i < |rows| ==> RowsSlats(rows, [seg], a)[i] == HSlat(rows[i], i + 1, seg, a)
    decreases |rows|
  {
    if rows != [] {
      RowsSlatsFull(rows[..|rows| - 1], seg, a);
    }
  }

  /** One slat per row and segment; with a single full segment they are back_slat_1..n from bottom to top. */
  lemma HorizontalSlatsNames(a: SlatsArgs)
    ensures |HorizontalSlats(a)| == |HorizontalRows(a)| * |HorizontalSegments(a)|
    ensures HorizontalSegments(a)[0].name == "full" ==>
      forall i :: 0 <= i < |HorizontalSlats(a)| ==> HorizontalSlats(a)[i].name == "back_slat_" + NatToString(i + 1)
  {
    RowsSlatsCount(HorizontalRows(a), HorizontalSegments(a), a);
    var segs := HorizontalSegments(a);
    if segs[0].name == "full" {
      RowsSlatsFull(HorizontalRows(a), segs[0], a);
    }
  }

  /** One vertical slat: `width` wide, as tall as the inner rectangle (at least 1 mm). */
  function VSlat(i: nat, x: real, a: SlatsArgs): (p: Primitive)
    ensures p.name == "back_slat_" + NatToString(i) && p.shape == "slat"
    ensures p.location_mm == Vec3(x, a.center_y, a.center_z)
    ensures "orientation" in p.params && p.params["orientation"] == JStr("vertical")
  {
    Primitive("back_slat_" + NatToString(i), "slat",
              Vec3(a.width_mm, a.thickness_mm, Max(1.0, a.rect.top_z - a.rect.bottom_z)),
              Vec3(x, a.center_y, a.center_z), Origin,
              map["arc_height_mm" := JNum(a.arc_height_mm), "arc_sign" := JNum(a.arc_sign),
                  "orientation" := JStr("vertical")])
  }

  function VerticalXs(a: SlatsArgs): seq<real> {
    VerticalCenters(a.split, a.rect.min_x, a.rect.max_x, a.center_split_gap_half_x, a.count, a.width_mm)
  }

  /** Everything `build_back_vertical_slats` appends: back_slat_1..n, one per centre. */
  function VerticalSlats(a: SlatsArgs): (r: seq<Primitive>)
    ensures |r| == MaxInt(1, a.count)
    ensures forall i :: 0 <= i < |r| ==> r[i] == VSlat(i + 1, VerticalXs(a)[i], a)
  {
    var xs := VerticalXs(a);
    seq(|xs|, i requires 0 <= i < |xs| => VSlat(i + 1, xs[i], a))
  }

  /** `build_back_vertical_slats`: one slat and one anchor per centre. */
  method BuildBackVerticalSlats(plan: BuildPlan, a: SlatsArgs)
    modifies plan
    ensures plan.primitives == old(plan.primitives) + VerticalSlats(a)
    ensures plan.anchors == old(plan.anchors) + AnchorsAt(VerticalSlats(a))
    ensures plan.metadata == old(plan.metadata)
  {
    var slat_height := Max(1.0, a.rect.top_z - a.rect.bottom_z);
    var xs := VerticalCenters(a.split, a.rect.min_x, a.rect.max_x, a.center_split_gap_half_x, a.count, a.width_mm);
    var slats := VerticalSlats(a);
    var i := 0;
    while i < |xs|
      invariant 0 <= i <= |xs|
      invariant plan.primitives == old(plan.primitives) + slats[..i]
      invariant plan.anchors == old(plan.anchors) + AnchorsAt(slats[..i])
      invariant plan.metadata == old(plan.metadata)
    {
      AppendVSlat(plan, i + 1, xs[i], slat_height, a);
      assert slats[..i + 1] == slats[..i] + [slats[i]];
      AnchorsAtConcat(slats[..i], [slats[i]]);
      i := i + 1;
    }
    assert slats[..|xs|] == slats;
  }

  /** One iteration of that loop: slat number `n` at `x`, and its anchor. */
  method AppendVSlat(plan: BuildPlan, n: nat, x: real, slat_height: real, a: SlatsArgs)
    requires slat_height == Max(1.0, a.rect.top_z - a.rect.bottom_z)
    modifies plan
    ensures plan.primitives == old(plan.primitives) + [VSlat(n, x, a)]
    ensures plan.anchors == old(plan.anchors) + AnchorsAt([VSlat(n, x, a)])
    ensures plan.metadata == old(plan.metadata)
  {
    var slat := Primitive("back_slat_" + NatToString(n), "slat",
                          Vec3(a.width_mm, a.thickness_mm, slat_height), Vec3(x, a.center_y, a.center_z), Origin,
                          map["arc_height_mm" := JNum(a.arc_height_mm), "arc_sign" := JNum(a.arc_sign),
                              "orientation" := JStr("vertical")]);
    assert slat == VSlat(n, x, a);
    plan.AddPrimitive(slat);
    plan.AddAnchor(Anchor(slat.name, Vec3(x, a.center_y, a.center_z)));
    assert AnchorsAt([slat])[0] == AnchorAt(slat);
  }
}
