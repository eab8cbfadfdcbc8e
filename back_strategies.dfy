/**
 * The back strategies: slats between a rail frame, horizontal straps, or a single panel.
 * `back.py` inlines the same code in its slats, straps and panel branches, so those
 * branches are modelled by these definitions as well.
 */
module BackStrategies {
  import opened Wrappers
  import opened Ir
  import opened Text
  import opened Numeric
  import opened PlanTypes
  import opened BackGeometry
  import opened BackParts

  /** The keyword arguments of `build_back_slats_strategy` (minus debug lists, callbacks and debug-text-only values). */
  datatype BackSlatsInputs = BackSlatsInputs(
    count: int,
    width_mm: real,
    thickness_mm: real,
    arc_height_mm: real,
    arc_sign: real,
    orientation: string,
    layout: string,
    has_gap: bool,
    gap_mm: real,
    center_gap_mm: real,
    rail_inset_mm: real,
    margin_x_mm: real,
    margin_z_mm: real,
    rail_width_mm: real,
    rail_depth_mm: real,
    rail_height_mm: real,
    bottom_rail_height_mm: real,
    frame_layout: string,
    center_post_width_mm: real,
    rail_left_x: real,
    rail_right_x: real,
    frame_base_z: real,
    frame_top_z: real,
    frame_center_y: real)

  function InsetX(inp: BackSlatsInputs): (r: real)
    ensures r >= 3.0 && r >= inp.rail_inset_mm
  {
    Max(3.0, inp.rail_inset_mm)
  }

  function InsetZ(inp: BackSlatsInputs): (r: real)
    ensures r >= 3.0 && r >= inp.rail_inset_mm
  {
    Max(3.0, inp.rail_inset_mm)
  }

  function MarginX(inp: BackSlatsInputs): (r: real)
    ensures r >= 0.0 && r >= inp.margin_x_mm
  {
    Max(0.0, inp.margin_x_mm)
  }

  function MarginZ(inp: BackSlatsInputs): (r: real)
    ensures r >= 0.0 && r >= inp.margin_z_mm
  {
    Max(0.0, inp.margin_z_mm)
  }

  /** The inner faces of the two uprights. */
  function FrameInnerMinX(inp: BackSlatsInputs): real { inp.rail_left_x + inp.rail_width_mm / 2.0 }
  function FrameInnerMaxX(inp: BackSlatsInputs): real { inp.rail_right_x - inp.rail_width_mm / 2.0 }

  function FrameInnerWidth(inp: BackSlatsInputs): (r: real)
    ensures r >= 1.0 && r >= FrameInnerMaxX(inp) - FrameInnerMinX(inp)
  {
    Max(1.0, FrameInnerMaxX(inp) - FrameInnerMinX(inp))
  }

  /** back_rail_bottom: sits on the frame base. */
  function RailBottom(inp: BackSlatsInputs): (p: Primitive)
    ensures p.name == "back_rail_bottom" && p.shape == "beam"
    ensures p.location_mm.z - p.dimensions_mm.z / 2.0 == inp.frame_base_z
  {
    NewPrimitive("back_rail_bottom", "beam", Vec3(FrameInnerWidth(inp), inp.rail_depth_mm, inp.bottom_rail_height_mm),
                 Vec3(0.0, inp.frame_center_y, inp.frame_base_z + inp.bottom_rail_height_mm / 2.0))
  }

  /** back_rail_top: its top face is the frame top. */
  function RailTop(inp: BackSlatsInputs): (p: Primitive)
    ensures p.name == "back_rail_top" && p.shape == "beam"
    ensures p.location_mm.z + p.dimensions_mm.z / 2.0 == inp.frame_top_z
  {
    NewPrimitive("back_rail_top", "beam", Vec3(FrameInnerWidth(inp), inp.rail_depth_mm, inp.rail_height_mm),
                 Vec3(0.0, inp.frame_center_y, inp.frame_top_z - inp.rail_height_mm / 2.0))
  }

  /** The opening between the two rails. */
  function InnerBottomFrameZ(inp: BackSlatsInputs): (z: real)
    ensures z == RailBottom(inp).location_mm.z + RailBottom(inp).dimensions_mm.z / 2.0
  {
    inp.frame_base_z + inp.bottom_rail_height_mm / 2.0 + inp.bottom_rail_height_mm / 2.0
  }

  function InnerTopFrameZ(inp: BackSlatsInputs): (z: real)
    ensures z == RailTop(inp).location_mm.z - RailTop(inp).dimensions_mm.z / 2.0
  {
    inp.frame_top_z - inp.rail_height_mm / 2.0 - inp.rail_height_mm / 2.0
  }

  predicate IsSplit2(inp: BackSlatsInputs) { inp.frame_layout == "split_2" }

  function SlatsCenterPost(inp: BackSlatsInputs): Primitive {
    CenterPost(inp.center_post_width_mm, inp.rail_depth_mm, InnerBottomFrameZ(inp), InnerTopFrameZ(inp), inp.frame_center_y)
  }

  /** What the frame callback returns: half the post plus the x inset for split_2, else 0. */
  function CenterGapHalf(inp: BackSlatsInputs): real {
    if IsSplit2(inp) then inp.center_post_width_mm / 2.0 + InsetX(inp) else BuildBackFrameFull()
  }

  function Rect(inp: BackSlatsInputs): InnerRect {
    InnerRectangle(FrameInnerMinX(inp), FrameInnerMaxX(inp), InnerBottomFrameZ(inp), InnerTopFrameZ(inp),
                   InsetX(inp), InsetZ(inp), MarginX(inp), MarginZ(inp))
  }

  function SlatCenterZ(inp: BackSlatsInputs): real {
    var r := Rect(inp);
    r.bottom_z + Max(1.0, r.top_z - r.bottom_z) / 2.0
  }

  function SlatCenterY(inp: BackSlatsInputs): real {
    inp.frame_center_y - SlatInsetY(inp.rail_depth_mm, inp.thickness_mm)
  }

  function SplitHalf(inp: BackSlatsInputs): real {
    CenterSplitHalf(CenterGapHalf(inp), inp.center_post_width_mm, inp.center_gap_mm)
  }

  /** The four anchors describing the slat plane and inner rectangle, in order. */
  function FrameAnchors(inp: BackSlatsInputs): (r: seq<Anchor>)
    ensures |r| == 4
  {
    var rect := Rect(inp);
    [ Anchor("back_slat_plane_y", Vec3(0.0, SlatCenterY(inp) + inp.thickness_mm / 2.0, 0.0)),
      Anchor("back_slat_center_z", Vec3(0.0, 0.0, SlatCenterZ(inp))),
      Anchor("back_frame_inner_rect_min", Vec3(rect.min_x, inp.frame_center_y, rect.bottom_z)),
      Anchor("back_frame_inner_rect_max", Vec3(rect.max_x, inp.frame_center_y, rect.top_z)) ]
  }

  /** The arguments handed to whichever slat builder is dispatched. */
  function Args(inp: BackSlatsInputs): SlatsArgs {
    SlatsArgs(inp.width_mm, inp.thickness_mm, inp.arc_height_mm, inp.arc_sign, inp.count, inp.has_gap, inp.gap_mm,
              SplitCenterLayout(inp.frame_layout, inp.layout), Rect(inp), SplitHalf(inp), SlatCenterY(inp), SlatCenterZ(inp))
  }

  /** The slats: horizontal for orientation "horizontal", vertical for anything else. */
  function SlatsOf(inp: BackSlatsInputs): seq<Primitive> {
    if inp.orientation == "horizontal" then HorizontalSlats(Args(inp)) else VerticalSlats(Args(inp))
  }

  function FramePrimitives(inp: BackSlatsInputs): seq<Primitive> {
    [RailBottom(inp), RailTop(inp)] + (if IsSplit2(inp) then [SlatsCenterPost(inp)] else [])
  }

  /** Everything `build_back_slats_strategy` appends to the primitives, in order. */
  function BackSlatsPrimitives(inp: BackSlatsInputs): seq<Primitive> {
    FramePrimitives(inp) + SlatsOf(inp)
  }

  /** Everything it appends to the anchors, in order. */
  function BackSlatsAnchors(inp: BackSlatsInputs): seq<Anchor> {
    AnchorsAt(FramePrimitives(inp)) + FrameAnchors(inp) + AnchorsAt(SlatsOf(inp))
  }

  /** The rails and, for split_2, the frame callback's centre post; returns the callback's half gap. */
  method AppendSlatsFrame(plan: BuildPlan, inp: BackSlatsInputs) returns (center_gap_half_x: real)
    modifies plan
    ensures center_gap_half_x == CenterGapHalf(inp)
    ensures plan.primitives == old(plan.primitives) + FramePrimitives(inp)
    ensures plan.anchors == old(plan.anchors) + AnchorsAt(FramePrimitives(inp))
    ensures plan.metadata == old(plan.metadata)
  {
    var inset_x := Max(3.0, inp.rail_inset_mm);
    var rail_bottom := RailBottom(inp);
    var rail_top := RailTop(inp);
    plan.primitives := plan.primitives + [rail_bottom, rail_top];
    plan.anchors := plan.anchors + [AnchorAt(rail_bottom), AnchorAt(rail_top)];
    if inp.frame_layout == "split_2" {
      var pre_primitives := plan.primitives;
      var pre_anchors := plan.anchors;
      center_gap_half_x := BuildBackFrameSplit2(plan, inp.center_post_width_mm, inp.rail_depth_mm,
                                                InnerBottomFrameZ(inp), InnerTopFrameZ(inp), inp.frame_center_y, inset_x);
      ConcatAssoc(old(plan.primitives), [rail_bottom, rail_top], [SlatsCenterPost(inp)]);
      ConcatAssoc(old(plan.anchors), [AnchorAt(rail_bottom), AnchorAt(rail_top)], [AnchorAt(SlatsCenterPost(inp))]);
    } else {
      center_gap_half_x := BuildBackFrameFull();
    }
  }

  /** The four inner-rectangle anchors, in order. */
  method AppendFrameAnchors(plan: BuildPlan, inp: BackSlatsInputs)
    modifies plan
    ensures plan.anchors == old(plan.anchors) + FrameAnchors(inp)
    ensures plan.primitives == old(plan.primitives) && plan.metadata == old(plan.metadata)
  {
    var frame_anchors := FrameAnchors(inp);
    plan.anchors := plan.anchors + frame_anchors;
  }

  /** `build_back_slats_strategy`: rails, the frame callback, the inner rectangle and its anchors, then the slat builder. */
  method BuildBackSlatsStrategy(plan: BuildPlan, inp: BackSlatsInputs)
    modifies plan
    ensures plan.primitives == old(plan.primitives) + BackSlatsPrimitives(inp)
    ensures plan.anchors == old(plan.anchors) + BackSlatsAnchors(inp)
    ensures plan.metadata == old(plan.metadata)
  {
    var center_gap_half_x := AppendSlatsFrame(plan, inp);
    AppendFrameAnchors(plan, inp);
    var args := Args(inp);
    assert args.center_split_gap_half_x == CenterSplitHalf(center_gap_half_x, inp.center_post_width_mm, inp.center_gap_mm);
    if inp.orientation == "horizontal" {
      BuildBackHorizontalSlats(plan, args);
    } else {
      BuildBackVerticalSlats(plan, args);
    }
    ConcatAssoc(old(plan.primitives), FramePrimitives(inp), SlatsOf(inp));
  }

  /** Rails first, each with a same-named anchor at the same place; the centre post follows iff the frame is split_2. */
  lemma BackSlatsFrameOrder(inp: BackSlatsInputs)
    ensures var ps := BackSlatsPrimitives(inp); var anchors := BackSlatsAnchors(inp);
      |ps| >= 3 && ps[0].name == "back_rail_bottom" && ps[1].name == "back_rail_top" &&
      anchors[0] == AnchorAt(ps[0]) && anchors[1] == AnchorAt(ps[1]) &&
      (ps[2].name == "back_rail_center" <==> IsSplit2(inp))
  {
    var ps := BackSlatsPrimitives(inp);
    var slats := SlatsOf(inp);
    if inp.orientation == "horizontal" {
      HorizontalSlatsNames(Args(inp));
      RowsSlatsCount(HorizontalRows(Args(inp)), HorizontalSegments(Args(inp)), Args(inp));
    }
    assert |slats| >= 1;
    if !IsSplit2(inp) {
      assert ps[2] == slats[0];
      if inp.orientation == "horizontal" {
        var a := Args(inp);
        var rows := HorizontalRows(a);
        var segs := HorizontalSegments(a);
        RowsSlatsFirst(rows, segs, a);
        assert ps[2].name == HSlatName(segs[0].name, 1);
        assert ps[2].name[5] == 's';
      } else {
        assert ps[2].name == "back_slat_" + NatToString(1);
        assert ps[2].name[5] == 's';
      }
    }
  }

  /** The first horizontal slat is the first segment of row 1. */
  lemma {:induction false} RowsSlatsFirst(rows: seq<real>, segs: seq<Segment>, a: SlatsArgs)
    requires |rows| >= 1 && |segs| >= 1
    ensures |RowsSlats(rows, segs, a)| >= 1 && RowsSlats(rows, segs, a)[0] == HSlat(rows[0], 1, segs[0], a)
    decreases |rows|
  {
    RowsSlatsCount(rows, segs, a);
    if |rows| > 1 {
      RowsSlatsFirst(rows[..|rows| - 1], segs, a);
    }
  }

  /** The four frame anchors come right after the rail (and post) anchors and before the slat anchors. */
  lemma BackSlatsAnchorOrder(inp: BackSlatsInputs)
    ensures var anchors := BackSlatsAnchors(inp); var m := |FramePrimitives(inp)|;
      |anchors| == m + 4 + |SlatsOf(inp)| &&
      anchors[m].name == "back_slat_plane_y" && anchors[m + 1].name == "back_slat_center_z" &&
      anchors[m + 2].name == "back_frame_inner_rect_min" && anchors[m + 3].name == "back_frame_inner_rect_max" &&
      AnchorsAt(SlatsOf(inp)) == anchors[m + 4..]
  {
  }

  /**
   * The inner rectangle is never empty in height, the slat plane sits at most 2 mm in front of the
   * frame centre, and the central clear zone is at least half the post plus 2 mm.
   */
  lemma BackSlatsPlacement(inp: BackSlatsInputs)
    ensures Rect(inp).top_z > Rect(inp).bottom_z
    ensures inp.frame_center_y - 2.0 <= SlatCenterY(inp) <= inp.frame_center_y
    ensures SplitHalf(inp) >= inp.center_post_width_mm / 2.0 + 2.0
    ensures IsSplit2(inp) ==> SplitHalf(inp) >= inp.center_post_width_mm / 2.0 + InsetX(inp)
    ensures Args(inp).split <==> inp.frame_layout == "split_2" || inp.layout == "split_center"
  {
  }

  /**
   * Split horizontal slats never cross x = 0: when split windows survive, every slat lies left of
   * -half or right of +half, and half is positive for a post of non-negative width.
   */
  lemma BackSlatsSplitNeverCrossCentre(inp: BackSlatsInputs)
    requires inp.orientation == "horizontal" && inp.center_post_width_mm >= 0.0
    requires HorizontalSegments(Args(inp))[0].name != "full"
    ensures forall p :: p in SlatsOf(inp) ==>
      p.location_mm.x + p.dimensions_mm.x / 2.0 <= 0.0 || p.location_mm.x - p.dimensions_mm.x / 2.0 >= 0.0
  {
    HorizontalSplitClear(Args(inp));
  }

  /** The keyword arguments of `build_back_straps_strategy`. */
  datatype BackStrapsInputs = BackStrapsInputs(
    count: int,
    width_mm: real,
    thickness_mm: real,
    frame_height_mm: real,
    frame_member_mm: real,
    margin_z_mm: real,
    seat_total_width_mm: real,
    frame_base_z: real,
    frame_center_y: real)

  function StrapCount(inp: BackStrapsInputs): (n: int)
    ensures n >= 1 && (inp.count >= 1 ==> n == inp.count)
  {
    MaxInt(1, inp.count)
  }

  function StrapSpan(inp: BackStrapsInputs): (r: real)
    ensures r >= 1.0
  {
    Max(1.0, (inp.frame_height_mm - inp.frame_member_mm) - 2.0 * inp.margin_z_mm)
  }

  /** Strap centre heights: one strap mid-way, or n evenly spread from base + margin over the span. */
  function StrapCenters(inp: BackStrapsInputs): (zs: seq<real>)
    ensures |zs| == StrapCount(inp)
  {
    var n := StrapCount(inp);
    if n == 1 then [inp.frame_base_z + (inp.frame_height_mm - inp.frame_member_mm) / 2.0]
    else Spread(inp.frame_base_z + inp.margin_z_mm, StrapSpan(inp) / (n - 1) as real, n)
  }

  function Strap(i: nat, z: real, inp: BackStrapsInputs): Primitive {
    NewPrimitive("back_strap_" + NatToString(i), "board",
                 Vec3(inp.seat_total_width_mm, inp.thickness_mm, inp.width_mm), Vec3(0.0, inp.frame_center_y, z))
  }

  function BackStraps(inp: BackStrapsInputs): (r: seq<Primitive>)
    ensures |r| == StrapCount(inp)
    ensures forall i :: 0 <= i < |r| ==> r[i] == Strap(i + 1, StrapCenters(inp)[i], inp)
  {
    var zs := StrapCenters(inp);
    seq(|zs|, i requires 0 <= i < |zs| => Strap(i + 1, zs[i], inp))
  }

  /** `build_back_straps_strategy`: one strap per centre; no anchors. */
  method BuildBackStrapsStrategy(plan: BuildPlan, inp: BackStrapsInputs)
    modifies plan
    ensures plan.primitives == old(plan.primitives) + BackStraps(inp)
    ensures plan.anchors == old(plan.anchors) && plan.metadata == old(plan.metadata)
  {
    var zs := StrapCenters(inp);
    var straps := BackStraps(inp);
    var i := 0;
    while i < |zs|
      invariant 0 <= i <= |zs|
      invariant plan.primitives == old(plan.primitives) + straps[..i]
      invariant plan.anchors == old(plan.anchors) && plan.metadata == old(plan.metadata)
    {
      plan.AddPrimitive(NewPrimitive("back_strap_" + NatToString(i + 1), "board",
                                     Vec3(inp.seat_total_width_mm, inp.thickness_mm, inp.width_mm),
                                     Vec3(0.0, inp.frame_center_y, zs[i])));
      assert straps[..i + 1] == straps[..i] + [straps[i]];
      i := i + 1;
    }
    assert straps[..|zs|] == straps;
  }

  /** Straps are boards named back_strap_1..n, centred on x = 0 in the frame's y plane. */
  lemma StrapsNamed(inp: BackStrapsInputs)
    ensures forall i :: 0 <= i < |BackStraps(inp)| ==>
      BackStraps(inp)[i].name == "back_strap_" + NatToString(i + 1) && BackStraps(inp)[i].shape == "board" &&
      BackStraps(inp)[i].location_mm.x == 0.0 && BackStraps(inp)[i].location_mm.y == inp.frame_center_y
  {
  }

  /**
   * A single strap sits half-way up the frame less the member; otherwise the first sits at
   * base + margin and the last at base + margin + span.
   */
  lemma StrapsEnds(inp: BackStrapsInputs)
    ensures StrapCount(inp) == 1 ==>
      StrapCenters(inp)[0] == inp.frame_base_z + (inp.frame_height_mm - inp.frame_member_mm) / 2.0
    ensures StrapCount(inp) >= 2 ==>
      StrapCenters(inp)[0] == inp.frame_base_z + inp.margin_z_mm &&
      StrapCenters(inp)[StrapCount(inp) - 1] == inp.frame_base_z + inp.margin_z_mm + StrapSpan(inp)
  {
    var n := StrapCount(inp);
    if n >= 2 {
      var step := StrapSpan(inp) / (n - 1) as real;
      assert step * (n - 1) as real == StrapSpan(inp);
    }
  }

  /** Neighbouring straps are the same positive distance apart: the span over n - 1. */
  lemma StrapsEvenlySpaced(inp: BackStrapsInputs, i: int)
    requires 0 <= i < StrapCount(inp) - 1
    ensures StrapCenters(inp)[i + 1] - StrapCenters(inp)[i] == StrapSpan(inp) / (StrapCount(inp) - 1) as real
    ensures StrapCenters(inp)[i + 1] > StrapCenters(inp)[i]
  {
    var n := StrapCount(inp);
    var step := StrapSpan(inp) / (n - 1) as real;
    SpreadStep(inp.frame_base_z + inp.margin_z_mm, step, n, i);
  }

  /** The one board of `build_back_panel_strategy`. */
  function BackPanel(seat_total_width: real, frame_member: real, frame_height: real, panel_center: Vec3): (p: Primitive)
    ensures p.name == "back_panel" && p.shape == "board"
    ensures p.dimensions_mm == Vec3(seat_total_width, frame_member, frame_height) && p.location_mm == panel_center
  {
    NewPrimitive("back_panel", "board", Vec3(seat_total_width, frame_member, frame_height), panel_center)
  }

  /** `build_back_panel_strategy`: exactly one board; anchors and metadata untouched. */
  method BuildBackPanelStrategy(plan: BuildPlan, seat_total_width: real, frame_member: real, frame_height: real,
                                panel_center: Vec3)
    modifies plan
    ensures plan.primitives == old(plan.primitives) + [BackPanel(seat_total_width, frame_member, frame_height, panel_center)]
    ensures plan.anchors == old(plan.anchors) && plan.metadata == old(plan.metadata)
  {
    plan.AddPrimitive(NewPrimitive("back_panel", "board", Vec3(seat_total_width, frame_member, frame_height), panel_center));
  }
}
