/** The box arm: one solid board outside the seat edge on the requested side, with a zone anchor. */
module ArmBox {
  import opened Numeric
  import opened PlanTypes

  function SideSign(side: string): (s: real)
    ensures s == (if side == "left" then -1.0 else 1.0)
  {
    if side == "left" then -1.0 else 1.0
  }

  /** The arm height: twice the frame thickness or 65% of the seat height, whichever is larger. */
  function ArmHeight(frame_thickness: real, seat_height: real): (h: real)
    ensures h >= 2.0 * frame_thickness && h >= 0.65 * seat_height
    ensures h == 2.0 * frame_thickness || h == 0.65 * seat_height
  {
    Max(frame_thickness * 2.0, seat_height * 0.65)
  }

  function ArmCenterX(side: string, seat_total_width: real, arms_width: real): real {
    SideSign(side) * (seat_total_width / 2.0 + arms_width / 2.0)
  }

  /** The `{side}_arm_frame` board. */
  function ArmBoard(side: string, seat_total_width: real, arms_width: real, seat_depth: real, seat_height: real,
                    frame_thickness: real, base_frame_top_z: real): Primitive
  {
    var h := ArmHeight(frame_thickness, seat_height);
    NewPrimitive(side + "_arm_frame", "board", Vec3(arms_width, seat_depth, h),
                 Vec3(ArmCenterX(side, seat_total_width, arms_width), 0.0, base_frame_top_z + h / 2.0))
  }

  /** The `arm_{side}_zone` anchor: above the arm's centre at seat height. */
  function ArmZone(side: string, seat_total_width: real, arms_width: real, seat_height: real): Anchor {
    Anchor("arm_" + side + "_zone", Vec3(ArmCenterX(side, seat_total_width, arms_width), 0.0, seat_height))
  }

  /** `_add_primitive`: the primitive goes to the plan and to the caller's output list. */
  method AddPrimitive(plan: BuildPlan, p: Primitive, primitives_out: seq<Primitive>) returns (out: seq<Primitive>)
    modifies plan
    ensures plan.primitives == old(plan.primitives) + [p] && out == primitives_out + [p]
    ensures plan.anchors == old(plan.anchors) && plan.metadata == old(plan.metadata)
  {
    plan.AddPrimitive(p);
    out := primitives_out + [p];
  }

  /** `build_arm_box_strategy`: one board, recorded in both lists, then one zone anchor. */
  method BuildArmBoxStrategy(plan: BuildPlan, side: string, seat_total_width: real, arms_width: real, seat_depth: real,
                             seat_height: real, frame_thickness: real, base_frame_top_z: real,
                             primitives_out: seq<Primitive>) returns (out: seq<Primitive>)
    modifies plan
    ensures var p := ArmBoard(side, seat_total_width, arms_width, seat_depth, seat_height, frame_thickness, base_frame_top_z);
      plan.primitives == old(plan.primitives) + [p] && out == primitives_out + [p]
    ensures plan.anchors == old(plan.anchors) + [ArmZone(side, seat_total_width, arms_width, seat_height)]
    ensures plan.metadata == old(plan.metadata)
  {
    var sign := if side == "left" then -1.0 else 1.0;
    var h := Max(frame_thickness * 2.0, seat_height * 0.65);
    var x := sign * (seat_total_width / 2.0 + arms_width / 2.0);
    var arm := NewPrimitive(side + "_arm_frame", "board", Vec3(arms_width, seat_depth, h), Vec3(x, 0.0, base_frame_top_z + h / 2.0));
    assert arm == ArmBoard(side, seat_total_width, arms_width, seat_depth, seat_height, frame_thickness, base_frame_top_z);
    out := AddPrimitive(plan, arm, primitives_out);
    plan.AddAnchor(Anchor("arm_" + side + "_zone", Vec3(x, 0.0, seat_height)));
  }

  /**
   * The arm stands on the base frame top, its inner face on the seat edge, and the left and right
   * arms are mirror images; its zone anchor sits over its centre.
   */
  lemma ArmBoxPlacement(seat_total_width: real, arms_width: real, seat_depth: real, seat_height: real,
                        frame_thickness: real, base_frame_top_z: real)
    ensures var l := ArmBoard("left", seat_total_width, arms_width, seat_depth, seat_height, frame_thickness, base_frame_top_z);
      var r := ArmBoard("right", seat_total_width, arms_width, seat_depth, seat_height, frame_thickness, base_frame_top_z);
      l.name == "left_arm_frame" && r.name == "right_arm_frame" && l.shape == "board" &&
      l.location_mm.x == -r.location_mm.x && l.location_mm.z == r.location_mm.z &&
      l.location_mm.x + l.dimensions_mm.x / 2.0 == -(seat_total_width / 2.0) &&
      r.location_mm.x - r.dimensions_mm.x / 2.0 == seat_total_width / 2.0 &&
      r.location_mm.z - r.dimensions_mm.z / 2.0 == base_frame_top_z &&
      r.dimensions_mm == Vec3(arms_width, seat_depth, ArmHeight(frame_thickness, seat_height)) &&
      ArmZone("right", seat_total_width, arms_width, seat_height).location_mm ==
        Vec3(r.location_mm.x, 0.0, seat_height)
  {
  }
}

/** `build_arms`: canonical type and profile, one dispatch event, then the left and right arms. */
module Arms {
  import opened Wrappers
  import opened Ir
  import opened Text
  import opened Numeric
  import opened PlanTypes
  import opened SpecTypes
  import opened Diagnostics
  import Layout
  import opened ArmBox

  /** The inputs `build_arms` reads. */
  datatype ArmsInputs = ArmsInputs(
    seat_width_mm: real,
    seat_depth_mm: real,
    seat_height_mm: real,
    seat_count: int,
    frame_thickness_mm: real,
    back_height_mm: real,
    arms_type: Json,
    arms_width_mm: real,
    profile: string,
    arms_config: Json,
    back_support_config: Json)

  const Profiles: set<string> := {"box", "frame_box_open"}

  /** `str(profile or "box")`, then "box" for anything outside the two profiles. */
  function Profile(inp: ArmsInputs): (p: string)
    ensures p in Profiles
    ensures inp.profile in Profiles ==> p == inp.profile
  {
    var given := if inp.profile == "" then "box" else inp.profile;
    if given in Profiles then given else "box"
  }

  function HandlerName(profile: string): string {
    if profile == "box" then "arm_box" else "arm_frame_box_open"
  }

  function SeatCount(inp: ArmsInputs): (n: int)
    ensures n >= 1
  {
    MaxInt(1, inp.seat_count)
  }

  function SeatTotalWidth(inp: ArmsInputs): real { inp.seat_width_mm * SeatCount(inp) as real }

  function ArmsWidth(inp: ArmsInputs): (w: real)
    ensures w >= 0.0
  {
    Max(0.0, inp.arms_width_mm)
  }

  /** The keyword arguments of the WARN emit for an unsupported profile. */
  function FallbackArgs(inp: ArmsInputs, ctx: BuildContext): EmitArgs {
    var given := if inp.profile == "" then "box" else inp.profile;
    EmitDefaults("PROFILE_FALLBACK_TO_BOX").(
      run_id := ctx.run_id, stage := "build", component := "arms", severity := JNum(WARN as real),
      path := "arms.profile", source := "fallback", input_value := JStr(given), resolved_value := JStr("box"),
      reason := "unsupported profile",
      meta := JObj(map["allowed" := JArr([JStr("box"), JStr("frame_box_open")])]))
  }

  /** The keyword arguments of the INFO emit naming the profile, arms type and handler. */
  function StrategyArgs(inp: ArmsInputs, ctx: BuildContext): EmitArgs {
    var key := JObj(map["profile" := JStr(Profile(inp)), "arms_type" := JStr(Layout.CanonArmsTypeOf(inp.arms_type))]);
    EmitDefaults("STRATEGY_SELECTED").(
      run_id := ctx.run_id, stage := "build", component := "arms", severity := JNum(INFO as real),
      path := "arms.profile", source := "computed",
      payload := JObj(map["key" := key, "handler" := JStr(HandlerName(Profile(inp)))]),
      resolved_value := key, reason := "dispatch arms build strategy")
  }

  function FallbackEvent(inp: ArmsInputs, ctx: BuildContext): Event { SimpleEvent(FallbackArgs(inp, ctx), ctx.now) }

  function StrategyEvent(inp: ArmsInputs, ctx: BuildContext): Event { SimpleEvent(StrategyArgs(inp, ctx), ctx.now) }

  function ArmsEvents(inp: ArmsInputs, ctx: BuildContext): seq<Event> {
    var given := if inp.profile == "" then "box" else inp.profile;
    (if given in Profiles then [] else [FallbackEvent(inp, ctx)]) + [StrategyEvent(inp, ctx)]
  }

  /** The sides built, left first. */
  function Sides(arms_type: string): (r: seq<string>)
    ensures "left" in r <==> arms_type in {"both", "left"}
    ensures "right" in r <==> arms_type in {"both", "right"}
    ensures |r| == Layout.ArmsCount(arms_type)
  {
    (if arms_type in {"both", "left"} then ["left"] else []) + (if arms_type in {"both", "right"} then ["right"] else [])
  }

  /** One handler call: which handler, for which side. */
  datatype ArmCall = ArmCall(handler: string, side: string)

  predicate BuildsLeft(inp: ArmsInputs) { Layout.CanonArmsTypeOf(inp.arms_type) in {"both", "left"} }
  predicate BuildsRight(inp: ArmsInputs) { Layout.CanonArmsTypeOf(inp.arms_type) in {"both", "right"} }

  function Calls(inp: ArmsInputs): seq<ArmCall> {
    var h := HandlerName(Profile(inp));
    (if BuildsLeft(inp) then [ArmCall(h, "left")] else []) + (if BuildsRight(inp) then [ArmCall(h, "right")] else [])
  }

  predicate IsBox(inp: ArmsInputs) { HandlerName(Profile(inp)) == "arm_box" }

  function BoxBoard(inp: ArmsInputs, side: string): Primitive {
    ArmBoard(side, SeatTotalWidth(inp), ArmsWidth(inp), inp.seat_depth_mm, inp.seat_height_mm, inp.frame_thickness_mm,
             inp.seat_height_mm - inp.frame_thickness_mm)
  }

  function BoxZone(inp: ArmsInputs, side: string): Anchor {
    ArmZone(side, SeatTotalWidth(inp), ArmsWidth(inp), inp.seat_height_mm)
  }

  /** The box handler's boards for the built sides (the open-frame handler is not part of this model). */
  function BoxPrimitives(inp: ArmsInputs): seq<Primitive> {
    (if IsBox(inp) && BuildsLeft(inp) then [BoxBoard(inp, "left")] else []) +
    (if IsBox(inp) && BuildsRight(inp) then [BoxBoard(inp, "right")] else [])
  }

  function BoxAnchors(inp: ArmsInputs): seq<Anchor> {
    (if IsBox(inp) && BuildsLeft(inp) then [BoxZone(inp, "left")] else []) +
    (if IsBox(inp) && BuildsRight(inp) then [BoxZone(inp, "right")] else [])
  }

  /** One side of `build_arms`: the box handler runs, the open-frame handler's call is only recorded. */
  method BuildSide(plan: BuildPlan, inp: ArmsInputs, side: string, primitives_out: seq<Primitive>) returns (out: seq<Primitive>)
    modifies plan
    ensures plan.primitives == old(plan.primitives) + (if IsBox(inp) then [BoxBoard(inp, side)] else [])
    ensures plan.anchors == old(plan.anchors) + (if IsBox(inp) then [BoxZone(inp, side)] else [])
    ensures plan.metadata == old(plan.metadata)
  {
    out := primitives_out;
    if HandlerName(Profile(inp)) == "arm_box" {
      out := BuildArmBoxStrategy(plan, side, SeatTotalWidth(inp), ArmsWidth(inp), inp.seat_depth_mm,
                                 inp.seat_height_mm, inp.frame_thickness_mm,
                                 inp.seat_height_mm - inp.frame_thickness_mm, out);
    }
  }

  /** The two events of `build_arms`, in order. */
  method EmitArmsEvents(inp: ArmsInputs, ctx: BuildContext, diag: DiagnosticsSink)
    modifies diag
    ensures diag.events == old(diag.events) + ArmsEvents(inp, ctx)
  {
    var profile := if inp.profile == "" then "box" else inp.profile;
    ghost var before := diag.events;
    ghost var fallback: seq<Event> := [];
    if profile !in Profiles {
      var e := EmitSimple(diag, FallbackArgs(inp, ctx), ctx.now);
      fallback := [e];
    }
    assert diag.events == before + fallback;
    var selected := EmitSimple(diag, StrategyArgs(inp, ctx), ctx.now);
    assert diag.events == (before + fallback) + [selected];
    assert ArmsEvents(inp, ctx) == fallback + [selected];
    ConcatAssoc(before, fallback, [selected]);
  }

  /**
   * The left-then-right part of `build_arms`. The box handler is run; the open-frame handler is not
   * part of this model, so its calls are returned instead of performed.
   */
  method BuildSides(plan: BuildPlan, inp: ArmsInputs) returns (calls: seq<ArmCall>)
    modifies plan
    ensures calls == Calls(inp)
    ensures plan.primitives == old(plan.primitives) + BoxPrimitives(inp)
    ensures plan.anchors == old(plan.anchors) + BoxAnchors(inp)
    ensures plan.metadata == old(plan.metadata)
  {
    var handler_name := HandlerName(Profile(inp));
    var primitives_out: seq<Primitive> := [];
    calls := [];
    ghost var left_ps: seq<Primitive> := [];
    ghost var left_as: seq<Anchor> := [];
    if BuildsLeft(inp) {
      calls := [ArmCall(handler_name, "left")];
      primitives_out := BuildSide(plan, inp, "left", primitives_out);
      left_ps := if IsBox(inp) then [BoxBoard(inp, "left")] else [];
      left_as := if IsBox(inp) then [BoxZone(inp, "left")] else [];
    }
    ghost var left_calls := calls;
    ghost var right_ps: seq<Primitive> := [];
    ghost var right_as: seq<Anchor> := [];
    if BuildsRight(inp) {
      calls := calls + [ArmCall(handler_name, "right")];
      primitives_out := BuildSide(plan, inp, "right", primitives_out);
      right_ps := if IsBox(inp) then [BoxBoard(inp, "right")] else [];
      right_as := if IsBox(inp) then [BoxZone(inp, "right")] else [];
    }
    ConcatAssoc(old(plan.primitives), left_ps, right_ps);
    ConcatAssoc(old(plan.anchors), left_as, right_as);
    assert BoxPrimitives(inp) == left_ps + right_ps;
    assert BoxAnchors(inp) == left_as + right_as;
    assert Calls(inp) == left_calls + (if BuildsRight(inp) then [ArmCall(handler_name, "right")] else []);
  }

  /** `build_arms`: the fallback and dispatch events, then the sides. */
  method BuildArms(plan: BuildPlan, inp: ArmsInputs, ctx: BuildContext, diag: DiagnosticsSink) returns (calls: seq<ArmCall>)
    modifies plan, diag
    ensures calls == Calls(inp)
    ensures diag.events == old(diag.events) + ArmsEvents(inp, ctx)
    ensures plan.primitives == old(plan.primitives) + BoxPrimitives(inp)
    ensures plan.anchors == old(plan.anchors) + BoxAnchors(inp)
    ensures plan.metadata == old(plan.metadata)
  {
    EmitArmsEvents(inp, ctx, diag);
    calls := BuildSides(plan, inp);
  }

  /**
   * An unsupported profile gives exactly one WARN fallback event before the one INFO strategy event;
   * a supported one gives the strategy event alone, naming its handler.
   */
  lemma ArmsEventsShape(inp: ArmsInputs, ctx: BuildContext)
    ensures var es := ArmsEvents(inp, ctx); var given := if inp.profile == "" then "box" else inp.profile;
      |es| == (if given in Profiles then 1 else 2) &&
      es[|es| - 1].code == "STRATEGY_SELECTED" && es[|es| - 1].severity == INFO &&
      es[|es| - 1].meta["payload"] == JObj(map["key" := es[|es| - 1].resolved_value,
                                                "handler" := JStr(HandlerName(Profile(inp)))]) &&
      (given !in Profiles ==> es[0].code == "PROFILE_FALLBACK_TO_BOX" && es[0].severity == WARN &&
                              es[0].resolved_value == JStr("box") && Profile(inp) == "box")
  {
    var es := ArmsEvents(inp, ctx);
    var last := StrategyEvent(inp, ctx);
    assert es[|es| - 1] == last;
    assert ClampSeverity(JNum(INFO as real)) == INFO by { assert Trunc(0.0) == 0; }
    assert ClampSeverity(JNum(WARN as real)) == WARN by { assert Trunc(1.0) == 1; }
  }

  /** Left is built iff the type is both or left, right iff both or right, left first; "none" builds nothing. */
  lemma ArmsSides(inp: ArmsInputs)
    ensures var t := Layout.CanonArmsTypeOf(inp.arms_type); var cs := Calls(inp);
      (t == "none" ==> cs == [] && BoxPrimitives(inp) == [] && BoxAnchors(inp) == []) &&
      (t == "both" ==> |cs| == 2 && cs[0].side == "left" && cs[1].side == "right") &&
      (t == "left" ==> |cs| == 1 && cs[0].side == "left") &&
      (t == "right" ==> |cs| == 1 && cs[0].side == "right")
  {
  }

  /** Box arms on both sides: the left and right boards mirror each other and stand on seat height minus frame thickness. */
  lemma BoxArmsBoth(inp: ArmsInputs)
    requires Layout.CanonArmsTypeOf(inp.arms_type) == "both" && Profile(inp) == "box"
    ensures var ps := BoxPrimitives(inp);
      |ps| == 2 && ps[0].name == "left_arm_frame" && ps[1].name == "right_arm_frame" &&
      ps[0].location_mm.x == -ps[1].location_mm.x &&
      ps[1].location_mm.x - ps[1].dimensions_mm.x / 2.0 == SeatTotalWidth(inp) / 2.0 &&
      ps[1].location_mm.z - ps[1].dimensions_mm.z / 2.0 == inp.seat_height_mm - inp.frame_thickness_mm &&
      ps[1].dimensions_mm.x >= 0.0
  {
    ArmBoxPlacement(SeatTotalWidth(inp), ArmsWidth(inp), inp.seat_depth_mm, inp.seat_height_mm, inp.frame_thickness_mm,
                    inp.seat_height_mm - inp.frame_thickness_mm);
  }
}
