/** `finalize_plan`: the closing seat-zone anchor and the BUILD_DONE event. */
module Finalize {
  import opened Ir
  import opened Text
  import opened Numeric
  import opened PlanTypes
  import opened SpecTypes
  import opened Diagnostics
  import Layout

  function SeatZone(layout: Layout.Layout): Anchor {
    Anchor("seat_zone", Vec3(0.0, 0.0, layout.seat_support_center_z))
  }

  /** The IR's id (None when absent) and the two counts. */
  function BuildDoneValue(ir: Obj, primitives_count: nat, anchors_count: nat): (v: Json)
    ensures v.JObj? && v.fields.Keys == {"ir_id", "primitives_count", "anchors_count"}
    ensures v.fields["primitives_count"] == JNum(primitives_count as real)
    ensures v.fields["anchors_count"] == JNum(anchors_count as real)
    ensures v.fields["ir_id"] == (if "id" in ir then ir["id"] else JNull)
  {
    assert "ir_id"[0] != "primitives_count"[0] && "ir_id"[0] != "anchors_count"[0];
    JObj(map["ir_id" := GetOr(ir, "id", JNull),
             "primitives_count" := JNum(primitives_count as real),
             "anchors_count" := JNum(anchors_count as real)])
  }

  function BuildDoneArgs(ir: Obj, primitives_count: nat, anchors_count: nat, ctx: BuildContext): EmitArgs {
    EmitDefaults("BUILD_DONE").(
      run_id := ctx.run_id, stage := "build", component := "builder", severity := JNum(INFO as real),
      source := "computed", reason := "build pipeline done",
      resolved_value := BuildDoneValue(ir, primitives_count, anchors_count))
  }

  /** The one event `finalize_plan` emits, given the counts it reads. */
  function BuildDoneEvent(ir: Obj, primitives_count: nat, anchors_count: nat, ctx: BuildContext): Event {
    SimpleEvent(BuildDoneArgs(ir, primitives_count, anchors_count, ctx), ctx.now)
  }

  /** `finalize_plan`: appends the seat zone, reports the counts after it, and hands back the same plan. */
  method FinalizePlan(plan: BuildPlan, layout: Layout.Layout, ctx: BuildContext, diag: DiagnosticsSink, ir: Obj)
    returns (r: BuildPlan)
    modifies plan, diag
    ensures r == plan
    ensures plan.anchors == old(plan.anchors) + [SeatZone(layout)]
    ensures plan.primitives == old(plan.primitives) && plan.metadata == old(plan.metadata)
    ensures diag.events == old(diag.events) + [BuildDoneEvent(ir, |plan.primitives|, |plan.anchors|, ctx)]
  {
    plan.AddAnchor(Anchor("seat_zone", Vec3(0.0, 0.0, layout.seat_support_center_z)));
    var _ := EmitSimple(diag, BuildDoneArgs(ir, |plan.primitives|, |plan.anchors|, ctx), ctx.now);
    r := plan;
  }

  /** The BUILD_DONE event is an INFO event of the builder at the build stage, with no meta. */
  lemma BuildDoneShape(ir: Obj, primitives_count: nat, anchors_count: nat, ctx: BuildContext)
    ensures var e := BuildDoneEvent(ir, primitives_count, anchors_count, ctx);
      e.code == "BUILD_DONE" && e.severity == INFO && e.component == "builder" && e.stage == "build"
  {
    assert ClampSeverity(JNum(INFO as real)) == INFO by { assert Trunc(0.0) == 0; }
    CanonOfLowerWord("builder");
    CanonOfLowerWord("build");
  }

  /**
   * It reports the IR's id (None when absent) and the counts it was given; the anchor count that
   * `FinalizePlan` gives already includes the seat zone.
   */
  lemma BuildDoneCounts(ir: Obj, primitives_count: nat, anchors_count: nat, ctx: BuildContext)
    ensures var v := BuildDoneEvent(ir, primitives_count, anchors_count, ctx).resolved_value;
      v.JObj? && v.fields.Keys == {"ir_id", "primitives_count", "anchors_count"} &&
      v.fields["primitives_count"] == JNum(primitives_count as real) &&
      v.fields["anchors_count"] == JNum(anchors_count as real) &&
      v.fields["ir_id"] == (if "id" in ir then ir["id"] else JNull)
  {
    var v := BuildDoneEvent(ir, primitives_count, anchors_count, ctx).resolved_value;
    assert v == BuildDoneValue(ir, primitives_count, anchors_count);
  }
}
