/**
 * `build_back`: the back uprights and the mode branch (legacy board, panel, slats or straps),
 * then twelve zone anchors. The slats, straps and panel branches of `back.py` are the same
 * statements as the back strategies, so they are modelled by calling those definitions with
 * the values `back.py` computes.
 */
module Back {
  import opened Wrappers
  import opened Ir
  import opened Text
  import opened Numeric
  import opened PlanTypes
  import opened SpecTypes
  import opened GeomUtils
  import opened BackGeometry
  import opened BackParts
  import opened BackStrategies

  /** The layout values the back builder reads. */
  datatype BackBuildHelpers = BackBuildHelpers(
    seat_total_width_mm: real,
    total_width_mm: real,
    seat_depth_mm: real,
    frame_thickness_mm: real,
    seat_support_top_z: real,
    base_frame_top_z: real,
    base_frame_center_z: real,
    back_y: real)

  /** What `_build_back_from_spec` hands to the zone-anchor step. */
  datatype BackBuildResult = BackBuildResult(
    has_back_support: bool,
    back_panel_center: Vec3,
    seat_rear_rail_center: Vec3,
    seat_back_rail_center_y: real,
    seat_back_rail_outer_face_y: real,
    y_back_seat: real,
    back_frame_origin: Vec3,
    back_anchor_y: real,
    back_bottom_z: real,
    back_top_z: real,
    back_inner_center: Vec3)

  /** Python `str(value or default)` for a string field. */
  function OrDefault(s: string, default: string): (r: string)
    ensures s != "" ==> r == s
    ensures s == "" ==> r == default
  {
    if s == "" then default else s
  }

  /** The frame quantities `_build_back_from_spec` derives before branching on the mode. */
  datatype BackFrame = BackFrame(
    rail_width_mm: real,
    rail_depth_mm: real,
    rail_height_mm: real,
    member_mm: real,
    bottom_rail_height_mm: real,
    center_post_width_mm: real,
    outer_face_y: real,
    plane_y: real,
    base_z: real,
    top_z: real,
    height_mm: real,
    center_y: real,
    center_z: real,
    rail_left_x: real,
    rail_right_x: real)

  function Frame(spec: BackSpec, h: BackBuildHelpers): (f: BackFrame)
    ensures f.rail_width_mm >= 1.0 && f.rail_depth_mm >= 1.0 && f.rail_height_mm >= 1.0
    ensures f.member_mm >= 1.0 && f.bottom_rail_height_mm >= 10.0 && f.center_post_width_mm >= 1.0
    ensures f.base_z == h.base_frame_top_z && f.top_z >= f.base_z + 1.0 && f.height_mm == f.top_z - f.base_z
  {
    var fr := spec.frame;
    var outer_face := h.back_y - h.frame_thickness_mm / 2.0;
    var plane_y :=
      if OrDefault(fr.bottom_rail_attach_mode, "seat_rear_beam") == "seat_rear_beam"
      then outer_face + Clamp(fr.offset_y_mm, -80.0, 80.0)
      else -(h.seat_depth_mm / 2.0) + fr.offset_y_mm;
    var rail_w, rail_d := Max(1.0, fr.rail_width_mm), Max(1.0, fr.rail_depth_mm);
    var base := h.base_frame_top_z;
    var top := Max(base + 1.0, h.seat_support_top_z + fr.height_above_seat_mm);
    BackFrame(
      rail_width_mm := rail_w,
      rail_depth_mm := rail_d,
      rail_height_mm := Max(1.0, fr.rail_height_mm),
      member_mm := Max(1.0, fr.thickness_mm),
      bottom_rail_height_mm := Max(10.0, fr.bottom_rail_height_mm),
      center_post_width_mm := Max(1.0, fr.center_post.width_mm),
      outer_face_y := outer_face,
      plane_y := plane_y,
      base_z := base,
      top_z := top,
      height_mm := top - base,
      center_y := plane_y - rail_d / 2.0,
      center_z := base + (top - base) / 2.0,
      rail_left_x := -(h.seat_total_width_mm / 2.0) + rail_w / 2.0,
      rail_right_x := h.seat_total_width_mm / 2.0 - rail_w / 2.0)
  }

  /** back_rail_left and back_rail_right: full-height uprights at the seat's outer edges. */
  function Uprights(f: BackFrame): seq<Primitive> {
    [ NewPrimitive("back_rail_left", "beam", Vec3(f.rail_width_mm, f.rail_depth_mm, f.height_mm),
                   Vec3(f.rail_left_x, f.center_y, f.center_z)),
      NewPrimitive("back_rail_right", "beam", Vec3(f.rail_width_mm, f.rail_depth_mm, f.height_mm),
                   Vec3(f.rail_right_x, f.center_y, f.center_z)) ]
  }

  /** The legacy back board used when there is no back-support section. */
  function LegacyBoard(spec: BackSpec, h: BackBuildHelpers): Primitive {
    var fr := spec.frame;
    var outer_face := h.back_y - h.frame_thickness_mm / 2.0;
    NewPrimitive("back_frame", "board", Vec3(h.total_width_mm, fr.thickness_mm, fr.height_above_seat_mm),
                 Vec3(0.0, outer_face - fr.thickness_mm / 2.0 + fr.offset_y_mm,
                      h.seat_support_top_z + fr.height_above_seat_mm / 2.0))
  }

  /** The values the slats branch works with, as the slats strategy takes them. */
  function SlatsInputs(spec: BackSpec, h: BackBuildHelpers): BackSlatsInputs {
    var f, s, fr := Frame(spec, h), spec.slats, spec.frame;
    BackSlatsInputs(
      count := s.count,
      width_mm := s.width_mm,
      thickness_mm := s.thickness_mm,
      arc_height_mm := s.arc_height_mm,
      arc_sign := s.arc_sign,
      orientation := OrDefault(s.orientation, "vertical"),
      layout := OrDefault(s.layout, "full"),
      has_gap := s.has_gap_mm,
      gap_mm := s.gap_mm,
      center_gap_mm := s.center_gap_mm,
      rail_inset_mm := fr.rail_inset_mm,
      margin_x_mm := fr.margin_x_mm,
      margin_z_mm := fr.margin_z_mm,
      rail_width_mm := f.rail_width_mm,
      rail_depth_mm := f.rail_depth_mm,
      rail_height_mm := f.rail_height_mm,
      bottom_rail_height_mm := f.bottom_rail_height_mm,
      frame_layout := OrDefault(fr.frame_layout, "single"),
      center_post_width_mm := f.center_post_width_mm,
      rail_left_x := f.rail_left_x,
      rail_right_x := f.rail_right_x,
      frame_base_z := f.base_z,
      frame_top_z := f.top_z,
      frame_center_y := f.center_y)
  }

  function StrapsInputs(spec: BackSpec, h: BackBuildHelpers): BackStrapsInputs {
    var f := Frame(spec, h);
    BackStrapsInputs(spec.straps.count, spec.straps.width_mm, spec.straps.thickness_mm, f.height_mm, f.member_mm,
                     spec.frame.margin_z_mm, h.seat_total_width_mm, f.base_z, f.center_y)
  }

  function Mode(spec: BackSpec): string { OrDefault(spec.mode, "panel") }

  /** The primitives of the mode branch, after the uprights. An unknown mode adds none. */
  function ModePrimitives(spec: BackSpec, h: BackBuildHelpers): seq<Primitive> {
    var f := Frame(spec, h);
    if Mode(spec) == "panel" then [BackPanel(h.seat_total_width_mm, f.member_mm, f.height_mm, Vec3(0.0, f.center_y, f.center_z))]
    else if Mode(spec) == "slats" then BackSlatsPrimitives(SlatsInputs(spec, h))
    else if Mode(spec) == "straps" then BackStraps(StrapsInputs(spec, h))
    else []
  }

  /** Everything `_build_back_from_spec` appends to the primitives. */
  function BackPrimitives(spec: BackSpec, h: BackBuildHelpers): seq<Primitive> {
    if spec.has_back_support then Uprights(Frame(spec, h)) + ModePrimitives(spec, h)
    else [LegacyBoard(spec, h)]
  }

  /** Everything it appends to the anchors: the upright anchors, then the slats branch's anchors. */
  function BackAnchors(spec: BackSpec, h: BackBuildHelpers): seq<Anchor> {
    if !spec.has_back_support then []
    else AnchorsAt(Uprights(Frame(spec, h))) +
         (if Mode(spec) == "slats" then BackSlatsAnchors(SlatsInputs(spec, h)) else [])
  }

  /** The result record: frame extents with back support, the legacy board's extents without. */
  function BackResult(spec: BackSpec, h: BackBuildHelpers): (r: BackBuildResult)
    ensures r.has_back_support == spec.has_back_support
    ensures r.back_top_z > r.back_bottom_z || !spec.has_back_support
  {
    var f, fr := Frame(spec, h), spec.frame;
    var legacy_y := f.outer_face_y - fr.thickness_mm / 2.0 + fr.offset_y_mm;
    BackBuildResult(
      has_back_support := spec.has_back_support,
      back_panel_center := Vec3(0.0, f.center_y, f.center_z),
      seat_rear_rail_center := Vec3(0.0, h.back_y, h.base_frame_center_z),
      seat_back_rail_center_y := h.back_y,
      seat_back_rail_outer_face_y := f.outer_face_y,
      y_back_seat := f.outer_face_y,
      back_frame_origin := Vec3(0.0, f.plane_y, f.base_z),
      back_anchor_y := if spec.has_back_support then f.center_y else legacy_y,
      back_bottom_z := if spec.has_back_support then f.base_z else h.seat_support_top_z,
      back_top_z := if spec.has_back_support then f.top_z else h.seat_support_top_z + fr.height_above_seat_mm,
      back_inner_center := if spec.has_back_support then Vec3(0.0, f.center_y, f.center_z)
                           else Vec3(0.0, legacy_y, h.seat_support_top_z + fr.height_above_seat_mm / 2.0))
  }

  /** `_build_back_from_spec`: uprights with back support, then the mode branch; the legacy board without. */
  method BuildBackFromSpec(plan: BuildPlan, spec: BackSpec, ctx: BuildContext, h: BackBuildHelpers)
    returns (result: BackBuildResult)
    modifies plan
    ensures result == BackResult(spec, h)
    ensures plan.primitives == old(plan.primitives) + BackPrimitives(spec, h)
    ensures plan.anchors == old(plan.anchors) + BackAnchors(spec, h)
    ensures plan.metadata == old(plan.metadata)
  {
    var f := Frame(spec, h);
    var mode := OrDefault(spec.mode, "panel");
    if spec.has_back_support {
      var ups := Uprights(f);
      plan.primitives := plan.primitives + ups;
      plan.anchors := plan.anchors + [AnchorAt(ups[0]), AnchorAt(ups[1])];
      assert AnchorsAt(ups) == [AnchorAt(ups[0]), AnchorAt(ups[1])];
      var mid_primitives, mid_anchors := plan.primitives, plan.anchors;
      if mode == "panel" {
        BuildBackPanelStrategy(plan, h.seat_total_width_mm, f.member_mm, f.height_mm, Vec3(0.0, f.center_y, f.center_z));
      } else if mode == "slats" {
        BuildBackSlatsStrategy(plan, SlatsInputs(spec, h));
      } else if mode == "straps" {
        BuildBackStrapsStrategy(plan, StrapsInputs(spec, h));
      }
      ConcatAssoc(old(plan.primitives), ups, ModePrimitives(spec, h));
      ConcatAssoc(old(plan.anchors), AnchorsAt(ups), if mode == "slats" then BackSlatsAnchors(SlatsInputs(spec, h)) else []);
    } else {
      plan.AddPrimitive(LegacyBoard(spec, h));
    }
    result := BackResult(spec, h);
  }

  /** The twelve zone anchors, in the order `_append_back_zone_anchors` lists them. */
  function ZoneAnchors(r: BackBuildResult, h: BackBuildHelpers): (anchors: seq<Anchor>)
    ensures |anchors| == 12
  {
    [ Anchor("back_zone", r.back_panel_center),
      Anchor("seat_rear_rail", r.seat_rear_rail_center),
      Anchor("seat_back_rail_center_y", Vec3(0.0, r.seat_back_rail_center_y, h.base_frame_center_z)),
      Anchor("seat_back_rail_outer_face_y", Vec3(0.0, r.seat_back_rail_outer_face_y, h.base_frame_center_z)),
      Anchor("y_back_seat", Vec3(0.0, r.y_back_seat, h.base_frame_center_z)),
      Anchor("seat_back_plane", Vec3(0.0, r.seat_back_rail_outer_face_y, r.back_bottom_z)),
      Anchor("back_frame_origin", r.back_frame_origin),
      Anchor("back_bottom_edge_center", Vec3(0.0, r.back_anchor_y, r.back_bottom_z)),
      Anchor("back_top_edge_center", Vec3(0.0, r.back_anchor_y, r.back_top_z)),
      Anchor("back_inner_plane_center", r.back_inner_center),
      Anchor("left_back_corner", Vec3(-(h.seat_total_width_mm / 2.0), r.back_anchor_y, r.back_bottom_z)),
      Anchor("right_back_corner", Vec3(h.seat_total_width_mm / 2.0, r.back_anchor_y, r.back_bottom_z)) ]
  }

  /** `_append_back_zone_anchors`: extends the anchors by the twelve zone anchors. */
  method AppendBackZoneAnchors(plan: BuildPlan, r: BackBuildResult, h: BackBuildHelpers)
    modifies plan
    ensures plan.anchors == old(plan.anchors) + ZoneAnchors(r, h)
    ensures plan.primitives == old(plan.primitives) && plan.metadata == old(plan.metadata)
  {
    plan.anchors := plan.anchors + ZoneAnchors(r, h);
  }

  /** `build_back`: the spec branch, then the zone anchors. */
  method BuildBack(plan: BuildPlan, spec: ResolvedSpec, ctx: BuildContext, h: BackBuildHelpers)
    modifies plan
    ensures plan.primitives == old(plan.primitives) + BackPrimitives(spec.back, h)
    ensures plan.anchors == old(plan.anchors) + BackAnchors(spec.back, h) + ZoneAnchors(BackResult(spec.back, h), h)
    ensures plan.metadata == old(plan.metadata)
  {
    var result := BuildBackFromSpec(plan, spec.back, ctx, h);
    AppendBackZoneAnchors(plan, result, h);
  }

  /**
   * With back support the uprights come first, mirrored about x = 0 at the seat's outer edges,
   * and the frame is at least 1 mm tall; without it the legacy board is the only primitive.
   */
  lemma BackUprights(spec: BackSpec, h: BackBuildHelpers)
    ensures spec.has_back_support ==>
      var ps, f := BackPrimitives(spec, h), Frame(spec, h);
      |ps| >= 2 && ps[0].name == "back_rail_left" && ps[1].name == "back_rail_right" &&
      ps[0].location_mm.x == -ps[1].location_mm.x &&
      ps[1].location_mm.x == h.seat_total_width_mm / 2.0 - f.rail_width_mm / 2.0 &&
      ps[1].location_mm.x + ps[1].dimensions_mm.x / 2.0 == h.seat_total_width_mm / 2.0 &&
      BackResult(spec, h).back_top_z >= BackResult(spec, h).back_bottom_z + 1.0
    ensures !spec.has_back_support ==>
      BackPrimitives(spec, h) == [LegacyBoard(spec, h)] && BackPrimitives(spec, h)[0].name == "back_frame" &&
      BackAnchors(spec, h) == []
  {
  }

  /** The uprights sit on the base frame top and reach the back top, from the seat frame to the top rail. */
  lemma UprightsSpanFrame(spec: BackSpec, h: BackBuildHelpers)
    requires spec.has_back_support
    ensures var p, f := BackPrimitives(spec, h)[0], Frame(spec, h);
      p.location_mm.z - p.dimensions_mm.z / 2.0 == h.base_frame_top_z &&
      p.location_mm.z + p.dimensions_mm.z / 2.0 == f.top_z &&
      f.top_z == Max(h.base_frame_top_z + 1.0, h.seat_support_top_z + spec.frame.height_above_seat_mm)
  {
  }

  /** The panel mode adds exactly one back_panel board after the uprights; straps and panel add no anchors. */
  lemma BackModes(spec: BackSpec, h: BackBuildHelpers)
    requires spec.has_back_support
    ensures Mode(spec) == "panel" ==> |BackPrimitives(spec, h)| == 3 && BackPrimitives(spec, h)[2].name == "back_panel"
    ensures Mode(spec) != "slats" ==> BackAnchors(spec, h) == AnchorsAt(Uprights(Frame(spec, h)))
    ensures Mode(spec) !in {"panel", "slats", "straps"} ==> BackPrimitives(spec, h) == Uprights(Frame(spec, h))
  {
  }

  /** The zone-anchor step always adds exactly twelve anchors, back_zone first and right_back_corner last, the corners mirrored. */
  lemma ZoneAnchorsShape(r: BackBuildResult, h: BackBuildHelpers)
    ensures var z := ZoneAnchors(r, h);
      z[0].name == "back_zone" && z[0].location_mm == r.back_panel_center && z[11].name == "right_back_corner" &&
      z[10].location_mm.x == -z[11].location_mm.x &&
      z[10].location_mm.y == z[11].location_mm.y == r.back_anchor_y
  {
  }

  /**
   * With the split_2 frame, horizontal slats in split windows stay clear of the centre post: each
   * slat's x extent is disjoint from the post's.
   */
  lemma SplitSlatsClearOfPost(spec: BackSpec, h: BackBuildHelpers)
    requires spec.has_back_support && Mode(spec) == "slats"
    requires OrDefault(spec.frame.frame_layout, "single") == "split_2"
    requires OrDefault(spec.slats.orientation, "vertical") == "horizontal"
    requires HorizontalSegments(Args(SlatsInputs(spec, h)))[0].name != "full"
    ensures var inp := SlatsInputs(spec, h); var post := SlatsCenterPost(inp);
      post in BackPrimitives(spec, h) &&
      forall p :: p in SlatsOf(inp) ==>
        p.location_mm.x + p.dimensions_mm.x / 2.0 < post.location_mm.x - post.dimensions_mm.x / 2.0 ||
        p.location_mm.x - p.dimensions_mm.x / 2.0 > post.location_mm.x + post.dimensions_mm.x / 2.0
  {
    var inp := SlatsInputs(spec, h);
    var post := SlatsCenterPost(inp);
    assert BackSlatsPrimitives(inp)[2] == post;
    assert BackPrimitives(spec, h)[4] == post;
    HorizontalSplitClear(Args(inp));
  }
}
