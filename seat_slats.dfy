/** Seat slats: evenly spaced slats across the seat, with a pair of support rails under them. */
module SeatSlats {
  import Wrappers
  import opened Ir
  import opened Text
  import opened Numeric
  import opened PlanTypes
  import opened SpecTypes
  import opened Diagnostics

  datatype SeatSlatsInputs = SeatSlatsInputs(
    slats_enabled: bool,
    seat_depth_mm: real,
    seat_total_width_mm: real,
    base_frame_top_z: real,
    seat_support_top_z: real,
    slat_count: int,
    slat_width_mm: real,
    slat_thickness_mm: real,
    slat_margin_x_mm: real,
    slat_margin_y_mm: real,
    slat_mount_mode: string,
    slat_mount_offset_mm: real,
    slat_clearance_mm: real,
    slat_arc_height_mm: real,
    slat_arc_sign: real,
    slat_rail_inset_y_mm: real,
    slat_rail_inset_mm: real,
    slat_rail_width_mm: real,
    slat_rail_height_mm: real)

  function SlatLength(inp: SeatSlatsInputs): (r: real)
    ensures r >= 1.0 && r >= inp.seat_depth_mm - 2.0 * inp.slat_margin_y_mm
  {
    Max(1.0, inp.seat_depth_mm - 2.0 * inp.slat_margin_y_mm)
  }

  function RailLength(inp: SeatSlatsInputs): (r: real)
    ensures r >= 1.0
  {
    Max(1.0, inp.seat_depth_mm - 2.0 * inp.slat_rail_inset_y_mm)
  }

  function UsableWidth(inp: SeatSlatsInputs): (r: real)
    ensures r >= 1.0
  {
    Max(1.0, inp.seat_total_width_mm - 2.0 * inp.slat_margin_x_mm)
  }

  function SlatSpan(inp: SeatSlatsInputs): (r: real)
    ensures r >= 0.0
  {
    Max(0.0, UsableWidth(inp) - inp.slat_width_mm)
  }

  function SlatStep(inp: SeatSlatsInputs): real
    requires inp.slat_count >= 2
  {
    SlatSpan(inp) / (inp.slat_count - 1) as real
  }

  function SlatStart(inp: SeatSlatsInputs): real {
    -(UsableWidth(inp) / 2.0) + inp.slat_width_mm / 2.0
  }

  /** The slat centre x positions. */
  function SlatCenters(inp: SeatSlatsInputs): (cs: seq<real>)
    requires inp.slat_count >= 1
    ensures |cs| == inp.slat_count
  {
    if inp.slat_count == 1 then [0.0]
    else seq(inp.slat_count, i requires 0 <= i => SlatStart(inp) + SlatStep(inp) * i as real)
  }

  function SeqMin(s: seq<real>): (r: real)
    requires |s| > 0
    ensures r in s && forall i :: 0 <= i < |s| ==> r <= s[i]
  {
    if |s| == 1 then s[0] else Min(s[0], SeqMin(s[1..]))
  }

  function SeqMax(s: seq<real>): (r: real)
    requires |s| > 0
    ensures r in s && forall i :: 0 <= i < |s| ==> s[i] <= r
  {
    if |s| == 1 then s[0] else Max(s[0], SeqMax(s[1..]))
  }

  function SlatPlaneZ(inp: SeatSlatsInputs): real { inp.base_frame_top_z }

  /** The slat centre height: centred on the seat support, or sitting on the base frame top. */
  function SlatCenterZ(inp: SeatSlatsInputs): (z: real)
    ensures inp.slat_mount_mode == "centered" ==>
      z == inp.seat_support_top_z - inp.slat_thickness_mm / 2.0 + inp.slat_clearance_mm
    ensures inp.slat_mount_mode != "centered" ==>
      z - inp.slat_thickness_mm / 2.0 == inp.base_frame_top_z + inp.slat_mount_offset_mm + inp.slat_clearance_mm
  {
    if inp.slat_mount_mode == "centered" then
      inp.seat_support_top_z - inp.slat_thickness_mm / 2.0 + inp.slat_clearance_mm
    else
      SlatPlaneZ(inp) + inp.slat_mount_offset_mm + inp.slat_clearance_mm + inp.slat_thickness_mm / 2.0
  }

  function RailCenterZ(inp: SeatSlatsInputs): real { SlatPlaneZ(inp) - inp.slat_rail_height_mm / 2.0 }

  function RailLeftX(inp: SeatSlatsInputs): real requires inp.slat_count >= 1 {
    SeqMin(SlatCenters(inp)) - inp.slat_width_mm / 2.0 + inp.slat_rail_width_mm / 2.0 + inp.slat_rail_inset_mm
  }

  function RailRightX(inp: SeatSlatsInputs): real requires inp.slat_count >= 1 {
    SeqMax(SlatCenters(inp)) + inp.slat_width_mm / 2.0 - inp.slat_rail_width_mm / 2.0 - inp.slat_rail_inset_mm
  }

  predicate HasRails(inp: SeatSlatsInputs) requires inp.slat_count >= 1 { RailLeftX(inp) < RailRightX(inp) }

  function Rail(inp: SeatSlatsInputs, name: string, x: real): Primitive {
    NewPrimitive(name, "beam", Vec3(inp.slat_rail_width_mm, RailLength(inp), inp.slat_rail_height_mm),
                 Vec3(x, 0.0, RailCenterZ(inp)))
  }

  function RailPrimitives(inp: SeatSlatsInputs): seq<Primitive> requires inp.slat_count >= 1 {
    if HasRails(inp) then [Rail(inp, "rail_left", RailLeftX(inp)), Rail(inp, "rail_right", RailRightX(inp))] else []
  }

  function SlatParams(inp: SeatSlatsInputs): map<string, Json> {
    map["arc_height_mm" := JNum(inp.slat_arc_height_mm), "arc_sign" := JNum(inp.slat_arc_sign),
        "orientation" := JStr("horizontal"), "mount_mode" := JStr(inp.slat_mount_mode),
        "mount_offset_mm" := JNum(inp.slat_mount_offset_mm), "clearance_mm" := JNum(inp.slat_clearance_mm)]
  }

  function Slat(inp: SeatSlatsInputs, i: nat, x: real): Primitive {
    Primitive("slat_" + NatToString(i + 1), "slat",
              Vec3(inp.slat_width_mm, SlatLength(inp), inp.slat_thickness_mm),
              Vec3(x, 0.0, SlatCenterZ(inp)), Origin, SlatParams(inp))
  }

  function Slats(inp: SeatSlatsInputs): (r: seq<Primitive>)
    requires inp.slat_count >= 1
    ensures |r| == inp.slat_count
    ensures forall i :: 0 <= i < |r| ==> r[i] == Slat(inp, i, SlatCenters(inp)[i])
  {
    seq(inp.slat_count, i requires 0 <= i < inp.slat_count => Slat(inp, i, SlatCenters(inp)[i]))
  }

  /** The primitives the default strategy appends: rails (if any), then slat_1..slat_n. */
  function SeatSlatsPrimitives(inp: SeatSlatsInputs): seq<Primitive>
    requires inp.slats_enabled ==> inp.slat_count >= 1
  {
    if !inp.slats_enabled then [] else RailPrimitives(inp) + Slats(inp)
  }

  /** The anchors it appends: rail_left/rail_right (if any), slat_plane_z, slat_area_center. */
  function SeatSlatsAnchors(inp: SeatSlatsInputs): seq<Anchor>
    requires inp.slats_enabled ==> inp.slat_count >= 1
  {
    if !inp.slats_enabled then []
    else
      (if HasRails(inp) then [Anchor("rail_left", Vec3(RailLeftX(inp), 0.0, RailCenterZ(inp))),
                              Anchor("rail_right", Vec3(RailRightX(inp), 0.0, RailCenterZ(inp)))] else []) +
      [Anchor("slat_plane_z", Vec3(0.0, 0.0, SlatPlaneZ(inp))),
       Anchor("slat_area_center", Vec3(0.0, 0.0, SlatCenterZ(inp)))]
  }

  /**
   * `_build_seat_slats_default`. With slats enabled the source takes `min` of the centre
   * list, which raises for a count below one; that is its precondition.
   */
  method BuildSeatSlatsDefault(plan: BuildPlan, inp: SeatSlatsInputs)
    requires inp.slats_enabled ==> inp.slat_count >= 1
    modifies plan
    ensures plan.primitives == old(plan.primitives) + SeatSlatsPrimitives(inp)
    ensures plan.anchors == old(plan.anchors) + SeatSlatsAnchors(inp)
    ensures plan.metadata == old(plan.metadata)
  {
    if !inp.slats_enabled {
      return;
    }
    ghost var before := plan.primitives;
    AddRailsAndAnchors(plan, inp);
    AddSlats(plan, inp);
    Wrappers.ConcatAssoc(before, RailPrimitives(inp), Slats(inp));
  }

  /** The rails (when the left one lies left of the right one) and the four or two anchors. */
  method AddRailsAndAnchors(plan: BuildPlan, inp: SeatSlatsInputs)
    requires inp.slats_enabled && inp.slat_count >= 1
    modifies plan
    ensures plan.primitives == old(plan.primitives) + RailPrimitives(inp)
    ensures plan.anchors == old(plan.anchors) + SeatSlatsAnchors(inp)
    ensures plan.metadata == old(plan.metadata)
  {
    var z := SlatCenterZ(inp);
    var railZ := RailCenterZ(inp);
    var leftX, rightX := RailLeftX(inp), RailRightX(inp);
    if leftX < rightX {
      plan.AddPrimitive(Rail(inp, "rail_left", leftX));
      plan.AddPrimitive(Rail(inp, "rail_right", rightX));
      plan.AddAnchor(Anchor("rail_left", Vec3(leftX, 0.0, railZ)));
      plan.AddAnchor(Anchor("rail_right", Vec3(rightX, 0.0, railZ)));
    }
    plan.AddAnchor(Anchor("slat_plane_z", Vec3(0.0, 0.0, SlatPlaneZ(inp))));
    plan.AddAnchor(Anchor("slat_area_center", Vec3(0.0, 0.0, z)));
  }

  /** slat_1 .. slat_n, one per centre, in order. */
  method AddSlats(plan: BuildPlan, inp: SeatSlatsInputs)
    requires inp.slat_count >= 1
    modifies plan
    ensures plan.primitives == old(plan.primitives) + Slats(inp)
    ensures plan.anchors == old(plan.anchors)
    ensures plan.metadata == old(plan.metadata)
  {
    var centers := SlatCenters(inp);
    ghost var slats := Slats(inp);
    var i := 0;
    while i < |centers|
      invariant 0 <= i <= |centers|
      invariant plan.primitives == old(plan.primitives) + slats[..i]
      invariant plan.anchors == old(plan.anchors)
      invariant plan.metadata == old(plan.metadata)
    {
      plan.AddPrimitive(Slat(inp, i, centers[i]));
      assert slats[..i + 1] == slats[..i] + [Slat(inp, i, centers[i])];
      i := i + 1;
    }
    assert slats[..|centers|] == slats;
  }

  function SeatSlatsStrategyEvent(ctx: BuildContext): Event {
    SimpleEvent(EmitDefaults("STRATEGY_SELECTED").(
      run_id := ctx.run_id, stage := "build", component := "seat_slats", severity := JNum(INFO as real),
      path := "seat_slats.strategy", source := "computed", reason := "seat slats strategy selected",
      payload := JObj(map["strategy" := JStr("default"), "handler" := JStr("default")])), ctx.now)
  }

  /** `build_seat_slats`: one strategy event, then the default strategy. */
  method BuildSeatSlats(plan: BuildPlan, inp: SeatSlatsInputs, ctx: BuildContext, diag: DiagnosticsSink)
    requires inp.slats_enabled ==> inp.slat_count >= 1
    modifies plan, diag
    ensures diag.events == old(diag.events) + [SeatSlatsStrategyEvent(ctx)]
    ensures plan.primitives == old(plan.primitives) + SeatSlatsPrimitives(inp)
    ensures plan.anchors == old(plan.anchors) + SeatSlatsAnchors(inp)
    ensures plan.metadata == old(plan.metadata)
  {
    var _ := EmitSimple(diag, EmitDefaults("STRATEGY_SELECTED").(
      run_id := ctx.run_id, stage := "build", component := "seat_slats", severity := JNum(INFO as real),
      path := "seat_slats.strategy", source := "computed", reason := "seat slats strategy selected",
      payload := JObj(map["strategy" := JStr("default"), "handler" := JStr("default")])), ctx.now);
    BuildSeatSlatsDefault(plan, inp);
  }

  /**
   * Two or more slats are evenly spaced from -usable/2 + w/2, and symmetric about x = 0
   * whenever they fit in the usable width.
   */
  lemma {:induction false} SlatCentersEvenlySpaced(inp: SeatSlatsInputs, i: int)
    requires inp.slat_count >= 2 && 0 <= i < inp.slat_count
    ensures SlatCenters(inp)[0] == -(UsableWidth(inp) / 2.0) + inp.slat_width_mm / 2.0
    ensures i + 1 < inp.slat_count ==> SlatCenters(inp)[i + 1] - SlatCenters(inp)[i] == SlatStep(inp)
    ensures inp.slat_width_mm <= UsableWidth(inp) ==>
      SlatCenters(inp)[i] == -SlatCenters(inp)[inp.slat_count - 1 - i]
  {
    var n, st := inp.slat_count, SlatStep(inp);
    var cs := SlatCenters(inp);
    assert cs[0] == SlatStart(inp) + st * 0 as real;
    assert cs[i] == SlatStart(inp) + st * i as real;
    assert cs[n - 1 - i] == SlatStart(inp) + st * (n - 1 - i) as real;
    if i + 1 < n {
      assert cs[i + 1] == SlatStart(inp) + st * (i + 1) as real;
    }
    assert st * (i + 1) as real - st * i as real == st;
    if inp.slat_width_mm <= UsableWidth(inp) {
      assert st * (n - 1) as real == SlatSpan(inp);
      assert st * i as real + st * (n - 1 - i) as real == st * (n - 1) as real;
    }
  }

  /** Evenly spaced centres start at the first and end at the last. */
  lemma {:induction false} SlatCentersExtremes(inp: SeatSlatsInputs)
    requires inp.slat_count >= 1
    ensures SeqMin(SlatCenters(inp)) == SlatCenters(inp)[0]
    ensures SeqMax(SlatCenters(inp)) == SlatCenters(inp)[inp.slat_count - 1]
  {
    var cs, n := SlatCenters(inp), inp.slat_count;
    if n >= 2 {
      forall i | 0 <= i < n ensures cs[0] <= cs[i] <= cs[n - 1] {
        assert SlatStep(inp) >= 0.0;
        assert cs[i] == SlatStart(inp) + SlatStep(inp) * i as real;
        assert cs[0] == SlatStart(inp) + SlatStep(inp) * 0 as real;
        assert cs[n - 1] == SlatStart(inp) + SlatStep(inp) * (n - 1) as real;
        MulNonNegative(SlatStep(inp), i as real);
        MulNonNegative(SlatStep(inp), (n - 1 - i) as real);
        assert SlatStep(inp) * (n - 1) as real - SlatStep(inp) * i as real == SlatStep(inp) * (n - 1 - i) as real;
      }
    }
  }

  /** The rails' top face is the slat plane, which is the base frame top. */
  lemma RailTopIsSlatPlane(inp: SeatSlatsInputs)
    requires inp.slats_enabled && inp.slat_count >= 1 && HasRails(inp)
    ensures var ps := SeatSlatsPrimitives(inp);
      ps[0].name == "rail_left" && ps[1].name == "rail_right" &&
      ps[0].location_mm.z + ps[0].dimensions_mm.z / 2.0 == inp.base_frame_top_z &&
      ps[1].location_mm.z + ps[1].dimensions_mm.z / 2.0 == inp.base_frame_top_z
  {
  }

  /** Rails come as a pair with same-named anchors; the two area anchors follow them. */
  lemma SeatSlatsAnchorOrder(inp: SeatSlatsInputs)
    requires inp.slats_enabled && inp.slat_count >= 1
    ensures var ps, as_ := SeatSlatsPrimitives(inp), SeatSlatsAnchors(inp);
      var r := if HasRails(inp) then 2 else 0;
      |as_| == r + 2 && as_[r].name == "slat_plane_z" && as_[r + 1].name == "slat_area_center" &&
      |ps| == r + inp.slat_count &&
      (HasRails(inp) ==> as_[0].name == ps[0].name == "rail_left" && as_[1].name == ps[1].name == "rail_right" &&
                         as_[0].location_mm == ps[0].location_mm && as_[1].location_mm == ps[1].location_mm)
  {
  }

  /** Slat `i` is named slat_{i+1}, has shape "slat" and horizontal orientation. */
  lemma SlatNaming(inp: SeatSlatsInputs, i: int)
    requires inp.slats_enabled && inp.slat_count >= 1 && 0 <= i < inp.slat_count
    ensures var ps := SeatSlatsPrimitives(inp); var k := |RailPrimitives(inp)| + i;
      k < |ps| && ps[k].name == "slat_" + NatToString(i + 1) && ps[k].shape == "slat" &&
      ps[k].params["orientation"] == JStr("horizontal")
  {
  }

  /** With slats disabled nothing is appended. */
  lemma SlatsDisabled(inp: SeatSlatsInputs)
    requires !inp.slats_enabled
    ensures SeatSlatsPrimitives(inp) == [] && SeatSlatsAnchors(inp) == []
  {
  }
}
