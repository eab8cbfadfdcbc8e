/** The three shown leg handlers: each appends one primitive at the point it is given. */
module LegStrategies {
  import opened PlanTypes

  /** `build_leg_passthrough_strategy`: the family string becomes the shape, verbatim. */
  method BuildLegPassthroughStrategy(plan: BuildPlan, family: string, name: string, dims: Vec3, loc: Vec3)
    modifies plan
    ensures plan.primitives == old(plan.primitives) + [NewPrimitive(name, family, dims, loc)]
    ensures plan.anchors == old(plan.anchors) && plan.metadata == old(plan.metadata)
  {
    plan.AddPrimitive(NewPrimitive(name, family, dims, loc));
  }

  /** `build_leg_tapered_cone_strategy`. */
  method BuildLegTaperedConeStrategy(plan: BuildPlan, name: string, dims: Vec3, loc: Vec3)
    modifies plan
    ensures plan.primitives == old(plan.primitives) + [NewPrimitive(name, "tapered_cone", dims, loc)]
    ensures plan.anchors == old(plan.anchors) && plan.metadata == old(plan.metadata)
  {
    plan.AddPrimitive(NewPrimitive(name, "tapered_cone", dims, loc));
  }

  /** `build_leg_cylindrical_strategy`. */
  method BuildLegCylindricalStrategy(plan: BuildPlan, name: string, dims: Vec3, loc: Vec3)
    modifies plan
    ensures plan.primitives == old(plan.primitives) + [NewPrimitive(name, "cylindrical", dims, loc)]
    ensures plan.anchors == old(plan.anchors) && plan.metadata == old(plan.metadata)
  {
    plan.AddPrimitive(NewPrimitive(name, "cylindrical", dims, loc));
  }
}

/** `build_legs`: family and height defaults, one dispatch event, then four corner legs. */
module Legs {
  import opened Wrappers
  import opened Ir
  import opened Text
  import opened Numeric
  import opened PlanTypes
  import opened SpecTypes
  import opened Diagnostics
  import opened LegStrategies

  /** The inputs `build_legs` reads; `height_mm` is `None` when the IR gives no height. */
  datatype LegsInputs = LegsInputs(
    family: Json,
    height_mm: Option<real>,
    total_width_mm: real,
    seat_depth_mm: real,
    frame_thickness_mm: real,
    base_frame_top_z: real)

  /** `_legs_family`: a non-empty string is kept verbatim, anything else is "block". */
  function Family(inp: LegsInputs): (f: string)
    ensures f != ""
    ensures inp.family.JStr? && inp.family.s != "" ==> f == inp.family.s
    ensures !(inp.family.JStr? && inp.family.s != "") ==> f == "block"
  {
    if inp.family.JStr? && inp.family.s != "" then inp.family.s else "block"
  }

  const DefaultLegHeight: real := 160.0

  /** `_legs_height_mm`. */
  function Height(inp: LegsInputs): (h: real)
    ensures inp.height_mm.None? ==> h == DefaultLegHeight
    ensures inp.height_mm.Some? ==> h == inp.height_mm.value
  {
    inp.height_mm.GetOr(DefaultLegHeight)
  }

  /** The dispatch table with its passthrough default. */
  function HandlerName(family: string): (r: string)
    ensures r in {"leg_block", "leg_tapered_cone", "leg_cylindrical", "leg_passthrough"}
    ensures r == "leg_passthrough" <==> family !in {"block", "tapered_cone", "cylindrical"}
  {
    if family == "block" then "leg_block"
    else if family == "tapered_cone" then "leg_tapered_cone"
    else if family == "cylindrical" then "leg_cylindrical"
    else "leg_passthrough"
  }

  function LegsArgs(inp: LegsInputs, ctx: BuildContext): EmitArgs {
    var f := Family(inp);
    EmitDefaults("STRATEGY_SELECTED").(
      run_id := ctx.run_id, stage := "build", component := "legs", severity := JNum(INFO as real),
      path := "legs.family", source := "computed",
      payload := JObj(map["key" := JObj(map["family" := JStr(f)]), "handler" := JStr(HandlerName(f))]),
      resolved_value := JObj(map["family" := JStr(f)]), reason := "dispatch legs build strategy")
  }

  /** The one STRATEGY_SELECTED event `build_legs` emits. */
  function LegsEvent(inp: LegsInputs, ctx: BuildContext): Event { SimpleEvent(LegsArgs(inp, ctx), ctx.now) }

  function OffsetX(inp: LegsInputs): real { inp.total_width_mm / 2.0 - inp.frame_thickness_mm / 2.0 }

  function OffsetY(inp: LegsInputs): real { inp.seat_depth_mm / 2.0 - inp.frame_thickness_mm / 2.0 }

  /** Below the base frame's bottom face by half the leg height. */
  function CenterZ(inp: LegsInputs): real { (inp.base_frame_top_z - inp.frame_thickness_mm) - Height(inp) / 2.0 }

  /** The four corner points, front-left, front-right, back-left, back-right. */
  function LegPoints(inp: LegsInputs): (r: seq<Vec3>)
    ensures |r| == 4
  {
    var x, y, z := OffsetX(inp), OffsetY(inp), CenterZ(inp);
    [Vec3(-x, -y, z), Vec3(x, -y, z), Vec3(-x, y, z), Vec3(x, y, z)]
  }

  function LegDimensions(inp: LegsInputs): Vec3 {
    Vec3(inp.frame_thickness_mm, inp.frame_thickness_mm, Height(inp))
  }

  function LegName(i: nat): string { "leg_" + NatToString(i + 1) }

  function LegAnchor(inp: LegsInputs, i: nat): Anchor
    requires i < 4
  {
    Anchor("leg_point_" + NatToString(i + 1), LegPoints(inp)[i])
  }

  /** The shape a shown handler gives the leg; the block handler is not part of this model. */
  function LegShape(family: string): string
    requires family != "block"
  {
    if family == "tapered_cone" then "tapered_cone" else if family == "cylindrical" then "cylindrical" else family
  }

  function LegPrimitive(inp: LegsInputs, i: nat): Primitive
    requires i < 4 && Family(inp) != "block"
  {
    NewPrimitive(LegName(i), LegShape(Family(inp)), LegDimensions(inp), LegPoints(inp)[i])
  }

  /** One handler call: the handler and the name, dimensions and location it is given. */
  datatype LegCall = LegCall(handler: string, name: string, dims: Vec3, loc: Vec3)

  function Call(inp: LegsInputs, i: nat): LegCall
    requires i < 4
  {
    LegCall(HandlerName(Family(inp)), LegName(i), LegDimensions(inp), LegPoints(inp)[i])
  }

  function Calls(inp: LegsInputs): (r: seq<LegCall>)
    ensures |r| == 4 && forall i :: 0 <= i < 4 ==> r[i] == Call(inp, i)
  {
    [Call(inp, 0), Call(inp, 1), Call(inp, 2), Call(inp, 3)]
  }

  function LegAnchors(inp: LegsInputs): (r: seq<Anchor>)
    ensures |r| == 4 && forall i :: 0 <= i < 4 ==> r[i] == LegAnchor(inp, i)
  {
    [LegAnchor(inp, 0), LegAnchor(inp, 1), LegAnchor(inp, 2), LegAnchor(inp, 3)]
  }

  /** The legs a shown handler appends; the block handler's legs are returned as calls instead. */
  function LegPrimitives(inp: LegsInputs): (r: seq<Primitive>)
    ensures Family(inp) == "block" ==> r == []
    ensures Family(inp) != "block" ==> |r| == 4 && forall i :: 0 <= i < 4 ==> r[i] == LegPrimitive(inp, i)
  {
    if Family(inp) == "block" then []
    else [LegPrimitive(inp, 0), LegPrimitive(inp, 1), LegPrimitive(inp, 2), LegPrimitive(inp, 3)]
  }

  /** One corner: the anchor, then the handler's primitive. */
  method BuildCorner(plan: BuildPlan, inp: LegsInputs, i: nat) returns (call: LegCall)
    requires i < 4
    modifies plan
    ensures call == Call(inp, i)
    ensures plan.anchors == old(plan.anchors) + [LegAnchor(inp, i)]
    ensures plan.primitives == old(plan.primitives) + (if Family(inp) == "block" then [] else [LegPrimitive(inp, i)])
    ensures plan.metadata == old(plan.metadata)
  {
    var family := Family(inp);
    var handler_name := HandlerName(family);
    var point := LegPoints(inp)[i];
    plan.AddAnchor(Anchor("leg_point_" + NatToString(i + 1), point));
    var name := "leg_" + NatToString(i + 1);
    var dims := Vec3(inp.frame_thickness_mm, inp.frame_thickness_mm, Height(inp));
    if handler_name == "leg_passthrough" {
      BuildLegPassthroughStrategy(plan, family, name, dims, point);
    } else if handler_name == "leg_tapered_cone" {
      BuildLegTaperedConeStrategy(plan, name, dims, point);
    } else if handler_name == "leg_cylindrical" {
      BuildLegCylindricalStrategy(plan, name, dims, point);
    }
    call := LegCall(handler_name, name, dims, point);
  }

  /** The corner loop of `build_legs`. */
  method BuildCorners(plan: BuildPlan, inp: LegsInputs) returns (calls: seq<LegCall>)
    modifies plan
    ensures calls == Calls(inp)
    ensures plan.anchors == old(plan.anchors) + LegAnchors(inp)
    ensures plan.primitives == old(plan.primitives) + LegPrimitives(inp)
    ensures plan.metadata == old(plan.metadata)
  {
    calls := [];
    var i := 0;
    while i < 4
      invariant 0 <= i <= 4
      invariant calls == Calls(inp)[..i]
      invariant plan.anchors == old(plan.anchors) + LegAnchors(inp)[..i]
      invariant plan.primitives == old(plan.primitives) + LegPrimitives(inp)[..if Family(inp) == "block" then 0 else i]
      invariant plan.metadata == old(plan.metadata)
    {
      var call := BuildCorner(plan, inp, i);
      assert LegAnchors(inp)[..i + 1] == LegAnchors(inp)[..i] + [LegAnchor(inp, i)];
      assert Calls(inp)[..i + 1] == Calls(inp)[..i] + [call];
      if Family(inp) != "block" {
        assert LegPrimitives(inp)[..i + 1] == LegPrimitives(inp)[..i] + [LegPrimitive(inp, i)];
      }
      calls := calls + [call];
      i := i + 1;
    }
    assert LegAnchors(inp)[..4] == LegAnchors(inp);
    assert Calls(inp)[..4] == Calls(inp);
    assert LegPrimitives(inp)[..if Family(inp) == "block" then 0 else 4] == LegPrimitives(inp);
  }

  /**
   * `build_legs`. The block handler is not part of this model: its four calls are returned,
   * together with the calls to the shown handlers, instead of being performed.
   */
  method BuildLegs(plan: BuildPlan, inp: LegsInputs, ctx: BuildContext, diag: DiagnosticsSink) returns (calls: seq<LegCall>)
    modifies plan, diag
    ensures calls == Calls(inp)
    ensures diag.events == old(diag.events) + [LegsEvent(inp, ctx)]
    ensures plan.anchors == old(plan.anchors) + LegAnchors(inp)
    ensures plan.primitives == old(plan.primitives) + LegPrimitives(inp)
    ensures plan.metadata == old(plan.metadata)
  {
    var _ := EmitSimple(diag, LegsArgs(inp, ctx), ctx.now);
    calls := BuildCorners(plan, inp);
  }

  /** The one event names the family and its handler, with unknown families going to passthrough. */
  lemma LegsEventShape(inp: LegsInputs, ctx: BuildContext)
    ensures var e := LegsEvent(inp, ctx);
      e.code == "STRATEGY_SELECTED" && e.severity == INFO && e.component == "legs" &&
      e.resolved_value == JObj(map["family" := JStr(Family(inp))]) &&
      e.meta["payload"] == JObj(map["key" := e.resolved_value, "handler" := JStr(HandlerName(Family(inp)))])
  {
    assert ClampSeverity(JNum(INFO as real)) == INFO by { assert Trunc(0.0) == 0; }
    CanonOfLowerWord("legs");
  }

  /**
   * Corner order (-x,-y), (x,-y), (-x,y), (x,y) with x = total/2 - t/2 and y = depth/2 - t/2; every
   * leg hangs below the base frame, with its anchor at its own location and dimensions (t, t, h).
   */
  lemma LegsGeometry(inp: LegsInputs, i: nat)
    requires i < 4
    ensures var p := LegPoints(inp); var t := inp.frame_thickness_mm;
      p[0].x == p[2].x == -(inp.total_width_mm / 2.0 - t / 2.0) && p[1].x == p[3].x == -p[0].x &&
      p[0].y == p[1].y == -(inp.seat_depth_mm / 2.0 - t / 2.0) && p[2].y == p[3].y == -p[0].y &&
      p[i].z + Height(inp) / 2.0 == inp.base_frame_top_z - t &&
      LegAnchor(inp, i).location_mm == Calls(inp)[i].loc == p[i] &&
      Calls(inp)[i].dims == Vec3(t, t, Height(inp))
  {
  }

  /**
   * The shown handlers name the legs leg_1..leg_4 at the anchors leg_point_1..leg_point_4, keep an
   * unknown family as the shape, and use the family's own shape otherwise.
   */
  lemma LegsShapes(inp: LegsInputs, i: nat)
    requires i < 4 && Family(inp) != "block"
    ensures var p := LegPrimitives(inp)[i];
      p.name == "leg_" + NatToString(i + 1) && LegAnchor(inp, i).name == "leg_point_" + NatToString(i + 1) &&
      p.location_mm == LegAnchor(inp, i).location_mm && p.rotation_deg == Origin && p.params == map[] &&
      (HandlerName(Family(inp)) == "leg_passthrough" ==> p.shape == Family(inp)) &&
      (Family(inp) in {"tapered_cone", "cylindrical"} ==> p.shape == Family(inp))
  {
  }

  /** An empty or non-string family is "block" and a missing height is 160 mm. */
  lemma LegsDefaults(inp: LegsInputs)
    requires !inp.family.JStr? || inp.family.s == ""
    requires inp.height_mm.None?
    ensures Family(inp) == "block" && HandlerName(Family(inp)) == "leg_block"
    ensures LegPrimitives(inp) == [] && Height(inp) == 160.0
  {
  }

  /** A 2020 mm sofa, 520 mm deep, 34 mm frame with its top at 411 mm and 150 mm legs. */
  lemma LegsExample(inp: LegsInputs)
    requires inp.total_width_mm == 2020.0 && inp.seat_depth_mm == 520.0 && inp.frame_thickness_mm == 34.0
    requires inp.base_frame_top_z == 411.0 && inp.height_mm == Some(150.0)
    ensures LegPoints(inp) == [Vec3(-993.0, -243.0, 302.0), Vec3(993.0, -243.0, 302.0),
                               Vec3(-993.0, 243.0, 302.0), Vec3(993.0, 243.0, 302.0)]
    ensures LegDimensions(inp) == Vec3(34.0, 34.0, 150.0)
  {
  }
}
