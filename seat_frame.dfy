/** The seat frame: four perimeter beams, evenly spaced cross beams and, without slats, a support board. */
module SeatFrame {
  import opened Ir
  import opened Text
  import opened Numeric
  import opened PlanTypes
  import opened SpecTypes
  import opened Diagnostics

  datatype SeatFrameInputs = SeatFrameInputs(
    seat_count: int,
    seat_depth_mm: real,
    seat_total_width_mm: real,
    total_width_mm: real,
    frame_thickness_mm: real,
    base_frame_center_z: real,
    seat_support_center_z: real,
    slats_enabled: bool)

  function Beam(name: string, dims: Vec3, loc: Vec3): Primitive {
    NewPrimitive(name, "beam", dims, loc)
  }

  /** beam_front, beam_back, beam_left, beam_right, in that order. */
  function PerimeterBeams(inp: SeatFrameInputs): seq<Primitive> {
    var t, d, w, z := inp.frame_thickness_mm, inp.seat_depth_mm, inp.total_width_mm, inp.base_frame_center_z;
    [ Beam("beam_front", Vec3(w, t, t), Vec3(0.0, d / 2.0 - t / 2.0, z)),
      Beam("beam_back", Vec3(w, t, t), Vec3(0.0, -(d / 2.0) + t / 2.0, z)),
      Beam("beam_left", Vec3(t, d, t), Vec3(-(w / 2.0) + t / 2.0, 0.0, z)),
      Beam("beam_right", Vec3(t, d, t), Vec3(w / 2.0 - t / 2.0, 0.0, z)) ]
  }

  function CrossCount(seat_count: int): (n: int)
    ensures 2 <= n <= 4
    ensures 1 <= seat_count <= 3 ==> n == seat_count + 1
  {
    MaxInt(2, MinInt(4, seat_count + 1))
  }

  function InnerWidth(inp: SeatFrameInputs): (r: real)
    ensures r >= 1.0
  {
    Max(1.0, inp.total_width_mm - 2.0 * inp.frame_thickness_mm)
  }

  function CrossSpacing(inp: SeatFrameInputs): (r: real)
    ensures r > 0.0
  {
    InnerWidth(inp) / (CrossCount(inp.seat_count) + 1) as real
  }

  /** The x position of cross beam `i` (0-based). */
  function CrossX(inp: SeatFrameInputs, i: int): real {
    -(InnerWidth(inp) / 2.0) + CrossSpacing(inp) * (i + 1) as real
  }

  function CrossBeam(inp: SeatFrameInputs, i: nat): Primitive {
    var t := inp.frame_thickness_mm;
    Beam("beam_cross_" + NatToString(i + 1), Vec3(t, inp.seat_depth_mm - 2.0 * t, t),
         Vec3(CrossX(inp, i), 0.0, inp.base_frame_center_z))
  }

  function CrossBeams(inp: SeatFrameInputs): (r: seq<Primitive>)
    ensures |r| == CrossCount(inp.seat_count)
    ensures forall i :: 0 <= i < |r| ==> r[i] == CrossBeam(inp, i)
  {
    seq(CrossCount(inp.seat_count), i requires 0 <= i => CrossBeam(inp, i))
  }

  function SeatSupport(inp: SeatFrameInputs): Primitive {
    NewPrimitive("seat_support", "board", Vec3(inp.seat_total_width_mm, inp.seat_depth_mm, inp.frame_thickness_mm),
                 Vec3(0.0, 0.0, inp.seat_support_center_z))
  }

  /** Everything `_build_seat_frame_default` appends, in order. */
  function SeatFramePrimitives(inp: SeatFrameInputs): seq<Primitive> {
    PerimeterBeams(inp) + CrossBeams(inp) + (if inp.slats_enabled then [] else [SeatSupport(inp)])
  }

  /** `_build_seat_frame_default`: extends the plan with the perimeter, then one cross beam per loop turn. */
  method BuildSeatFrameDefault(plan: BuildPlan, inp: SeatFrameInputs)
    modifies plan
    ensures plan.primitives == old(plan.primitives) + SeatFramePrimitives(inp)
    ensures plan.anchors == old(plan.anchors) && plan.metadata == old(plan.metadata)
  {
    plan.primitives := plan.primitives + PerimeterBeams(inp);
    var n := CrossCount(inp.seat_count);
    var i := 0;
    while i < n
      invariant 0 <= i <= n
      invariant plan.primitives == old(plan.primitives) + PerimeterBeams(inp) + CrossBeams(inp)[..i]
      invariant plan.anchors == old(plan.anchors) && plan.metadata == old(plan.metadata)
    {
      plan.AddPrimitive(CrossBeam(inp, i));
      assert CrossBeams(inp)[..i + 1] == CrossBeams(inp)[..i] + [CrossBeam(inp, i)];
      i := i + 1;
    }
    assert CrossBeams(inp)[..n] == CrossBeams(inp);
    if !inp.slats_enabled {
      plan.AddPrimitive(SeatSupport(inp));
    }
  }

  /** The STRATEGY_SELECTED event `build_seat_frame` emits. */
  function SeatFrameStrategyEvent(ctx: BuildContext): Event {
    SimpleEvent(SeatFrameStrategyArgs(ctx), ctx.now)
  }

  /** The arguments of that `emit` call. */
  function SeatFrameStrategyArgs(ctx: BuildContext): EmitArgs {
    EmitDefaults("STRATEGY_SELECTED").(
      run_id := ctx.run_id, stage := "build", component := "seat_frame", severity := JNum(INFO as real),
      path := "seat_frame.strategy", source := "computed", reason := "seat frame strategy selected",
      payload := JObj(map["strategy" := JStr("default"), "handler" := JStr("default")]))
  }

  /** `build_seat_frame`: one strategy event, then the default strategy. */
  method BuildSeatFrame(plan: BuildPlan, inp: SeatFrameInputs, ctx: BuildContext, diag: DiagnosticsSink)
    modifies plan, diag
    ensures diag.events == old(diag.events) + [SeatFrameStrategyEvent(ctx)]
    ensures plan.primitives == old(plan.primitives) + SeatFramePrimitives(inp)
    ensures plan.anchors == old(plan.anchors) && plan.metadata == old(plan.metadata)
  {
    var _ := EmitSimple(diag, SeatFrameStrategyArgs(ctx), ctx.now);
    BuildSeatFrameDefault(plan, inp);
  }

  /** Names and order: the four perimeter beams, beam_cross_1..n, then seat_support iff slats are off. */
  lemma SeatFrameNames(inp: SeatFrameInputs)
    ensures var ps := SeatFramePrimitives(inp); var n := CrossCount(inp.seat_count);
      |ps| == 4 + n + (if inp.slats_enabled then 0 else 1) &&
      ps[0].name == "beam_front" && ps[1].name == "beam_back" &&
      ps[2].name == "beam_left" && ps[3].name == "beam_right" &&
      (forall i :: 4 <= i < 4 + n ==> ps[i].name == "beam_cross_" + NatToString(i - 3)) &&
      (!inp.slats_enabled <==> (exists k :: 0 <= k < |ps| && ps[k].name == "seat_support"))
  {
    var ps := SeatFramePrimitives(inp);
    var n := CrossCount(inp.seat_count);
    if !inp.slats_enabled {
      assert ps[4 + n].name == "seat_support";
    } else {
      forall k | 0 <= k < |ps| ensures ps[k].name != "seat_support" {
        if k >= 4 {
          assert ps[k].name == "beam_cross_" + NatToString(k - 3);
          assert ps[k].name[0] == 'b';
        }
      }
    }
  }

  /** Cross beams are strictly increasing in x and strictly inside the inner width. */
  lemma {:induction false} CrossBeamsOrdered(inp: SeatFrameInputs, i: int, j: int)
    requires 0 <= i < j < CrossCount(inp.seat_count)
    ensures CrossX(inp, i) < CrossX(inp, j)
    ensures -(InnerWidth(inp) / 2.0) < CrossX(inp, i) && CrossX(inp, j) < InnerWidth(inp) / 2.0
  {
    var s, n := CrossSpacing(inp), CrossCount(inp.seat_count);
    assert s * (j + 1) as real - s * (i + 1) as real == s * (j - i) as real;
    assert s * (n + 1) as real == InnerWidth(inp);
    assert s * (n + 1) as real - s * (j + 1) as real == s * (n - j) as real;
  }

  /** The cross beams are mirror images about x = 0, like the perimeter. */
  lemma {:induction false} SeatFrameMirror(inp: SeatFrameInputs, i: int)
    requires 0 <= i < CrossCount(inp.seat_count)
    ensures CrossX(inp, i) == -CrossX(inp, CrossCount(inp.seat_count) - 1 - i)
    ensures PerimeterBeams(inp)[0].location_mm.y == -PerimeterBeams(inp)[1].location_mm.y
    ensures PerimeterBeams(inp)[2].location_mm.x == -PerimeterBeams(inp)[3].location_mm.x
  {
    var s, n := CrossSpacing(inp), CrossCount(inp.seat_count);
    assert s * (n + 1) as real == InnerWidth(inp);
    assert s * (i + 1) as real + s * (n - i) as real == s * (n + 1) as real;
  }

  /** Every beam sits at the base-frame centre height; the support board at the seat-support centre. */
  lemma SeatFrameHeights(inp: SeatFrameInputs)
    ensures forall k :: 0 <= k < |SeatFramePrimitives(inp)| && SeatFramePrimitives(inp)[k].shape == "beam" ==>
      SeatFramePrimitives(inp)[k].location_mm.z == inp.base_frame_center_z
    ensures !inp.slats_enabled ==> SeatFramePrimitives(inp)[|SeatFramePrimitives(inp)| - 1].location_mm.z == inp.seat_support_center_z
  {
  }

  /** A two-seat frame with slats has exactly seven beams: the perimeter and three cross beams. */
  lemma SeatFrameExample(inp: SeatFrameInputs)
    requires inp.seat_count == 2 && inp.slats_enabled
    ensures PrimitiveNames(SeatFramePrimitives(inp)) ==
      ["beam_front", "beam_back", "beam_left", "beam_right", "beam_cross_1", "beam_cross_2", "beam_cross_3"]
  {
    assert NatToString(1) == "1" && NatToString(2) == "2" && NatToString(3) == "3";
    var ps := SeatFramePrimitives(inp);
    assert |ps| == 7;
    assert ps[4] == CrossBeam(inp, 0) && ps[5] == CrossBeam(inp, 1) && ps[6] == CrossBeam(inp, 2);
    assert ps[4].name == "beam_cross_1" && ps[5].name == "beam_cross_2" && ps[6].name == "beam_cross_3";
    var names := PrimitiveNames(ps);
    assert names[4] == "beam_cross_1" && names[0] == "beam_front";
  }
}
