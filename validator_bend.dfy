/**
 * The bend rules of the debug validator: when a slat counts as bent (its evaluated box moved, or
 * it carries a bend modifier with a real angle), the per-prefix bend statistics, and the
 * SLATS_NOT_BENT and BACK_SLATS_NOT_BENT problems raised when arched slats show no bend at all.
 */
module ValidatorBend {
  import opened Wrappers
  import opened Text
  import opened Numeric
  import opened Ir
  import opened PlanTypes
  import opened Metrics
  import opened Sorting
  import opened ValidatorCore

  /** A SIMPLE_DEFORM modifier in BEND mode. */
  predicate IsBendMod(mod: ModifierInfo) {
    Upper(mod.kind) == "SIMPLE_DEFORM" && Upper(mod.deform_method) == "BEND"
  }

  /**
   * `_bend_mod_summary`: whether the modifiers include a bend, and the largest absolute bend angle
   * among them (0 when there is none).
   */
  function BendSummary(mods: seq<ModifierInfo>): (r: (bool, real))
    ensures r.1 >= 0.0
    ensures r.0 <==> exists i :: 0 <= i < |mods| && IsBendMod(mods[i])
    ensures forall i :: 0 <= i < |mods| && IsBendMod(mods[i]) ==> Abs(mods[i].angle) <= r.1
    ensures r.1 == 0.0 || exists i :: 0 <= i < |mods| && IsBendMod(mods[i]) && Abs(mods[i].angle) == r.1
  {
    if mods == [] then (false, 0.0)
    else
      var init, last := mods[..|mods| - 1], mods[|mods| - 1];
      assert forall i :: 0 <= i < |init| ==> init[i] == mods[i];
      var before := BendSummary(init);
      if !IsBendMod(last) then before
      else (true, if Abs(last.angle) > before.1 then Abs(last.angle) else before.1)
  }

  /** `_bend_mod_summary` as the loop it is. */
  method BendModSummary(o: ObjectMetrics) returns (has_bend: bool, max_angle: real)
    ensures (has_bend, max_angle) == BendSummary(o.modifiers)
  {
    has_bend, max_angle := false, 0.0;
    var mods := o.modifiers;
    var i := 0;
    while i < |mods|
      invariant 0 <= i <= |mods|
      invariant (has_bend, max_angle) == BendSummary(mods[..i])
    {
      var mod := mods[i];
      assert mods[..i + 1][..i] == mods[..i];
      if Upper(mod.kind) == "SIMPLE_DEFORM" && Upper(mod.deform_method) == "BEND" {
        has_bend := true;
        var angle := Abs(mod.angle);
        if angle > max_angle {
          max_angle := angle;
        }
      }
      i := i + 1;
    }
    assert mods[..i] == mods;
  }

  /** `_max_bbox_delta_abs`: the largest absolute change of the box along any axis. */
  function MaxDeltaAbs(o: ObjectMetrics): (r: real)
    ensures r >= Abs(o.bbox_delta.x) && r >= Abs(o.bbox_delta.y) && r >= Abs(o.bbox_delta.z)
    ensures r == Abs(o.bbox_delta.x) || r == Abs(o.bbox_delta.y) || r == Abs(o.bbox_delta.z)
  {
    Max(Abs(o.bbox_delta.x), Max(Abs(o.bbox_delta.y), Abs(o.bbox_delta.z)))
  }

  /** The test `_bent_stats_for_prefix` applies: the box moved by eps, or a bend modifier has a real angle. */
  predicate IsBent(o: ObjectMetrics, bend_eps: real) {
    var summary := BendSummary(o.modifiers);
    MaxDeltaAbs(o) >= bend_eps || (summary.0 && summary.1 > BendModAngleEps)
  }

  function DiagOf(o: ObjectMetrics): BendDiag {
    var summary := BendSummary(o.modifiers);
    BendDiag(o.name, o.bbox_delta, MaxDeltaAbs(o), summary.0, summary.1)
  }

  function Diags(objects: seq<ObjectMetrics>): (r: seq<BendDiag>)
    ensures |r| == |objects| && forall i :: 0 <= i < |objects| ==> r[i] == DiagOf(objects[i])
  {
    seq(|objects|, i requires 0 <= i < |objects| => DiagOf(objects[i]))
  }

  lemma DiagsAppend(objects: seq<ObjectMetrics>, o: ObjectMetrics)
    ensures Diags(objects + [o]) == Diags(objects) + [DiagOf(o)]
  {
    var l, r := Diags(objects + [o]), Diags(objects) + [DiagOf(o)];
    assert |l| == |r|;
    forall i | 0 <= i < |l| ensures l[i] == r[i] {
      if i < |objects| {
        assert (objects + [o])[i] == objects[i];
      }
    }
  }

  function MaxDelta(d: BendDiag): real { d.max_delta }

  /** How many of the objects are bent: none exactly when no object is. */
  function BentCount(objects: seq<ObjectMetrics>, bend_eps: real): (r: nat)
    ensures r <= |objects|
    ensures r == 0 <==> forall i :: 0 <= i < |objects| ==> !IsBent(objects[i], bend_eps)
  {
    if objects == [] then 0
    else
      var init := objects[..|objects| - 1];
      assert forall i :: 0 <= i < |init| ==> init[i] == objects[i];
      BentCount(init, bend_eps) + (if IsBent(objects[|objects| - 1], bend_eps) then 1 else 0)
  }

  lemma BentCountAppend(objects: seq<ObjectMetrics>, o: ObjectMetrics, bend_eps: real)
    ensures BentCount(objects + [o], bend_eps) == BentCount(objects, bend_eps) + (if IsBent(o, bend_eps) then 1 else 0)
  {
    assert (objects + [o])[..|objects|] == objects;
  }

  /** Diagnostics and bent count of a prefix that grows by one object. */
  lemma PrefixStep(objects: seq<ObjectMetrics>, i: nat, bend_eps: real)
    requires i < |objects|
    ensures Diags(objects[..i + 1]) == Diags(objects[..i]) + [DiagOf(objects[i])]
    ensures BentCount(objects[..i + 1], bend_eps) == BentCount(objects[..i], bend_eps) + (if IsBent(objects[i], bend_eps) then 1 else 0)
  {
    assert objects[..i + 1] == objects[..i] + [objects[i]];
    DiagsAppend(objects[..i], objects[i]);
    BentCountAppend(objects[..i], objects[i], bend_eps);
  }

  datatype BentStats = BentStats(count_total: nat, count_bent: nat, eps_m: real, top5: seq<BendDiag>)

  /** What `_bent_stats_for_prefix` reports for the objects whose name starts with `prefix`. */
  function BentStatsOf(m: MetricsPayload, prefix: string, bend_eps: real): BentStats {
    StatsOver(ObjectsByPrefix(m.objects, prefix), bend_eps)
  }

  function StatsOver(objects: seq<ObjectMetrics>, bend_eps: real): BentStats {
    BentStats(|objects|, BentCount(objects, bend_eps), bend_eps, Take(SortDesc(Diags(objects), MaxDelta), 5))
  }

  /** The body of the loop in `_bent_stats_for_prefix`: whether one object is bent, and its diagnostic. */
  method Diagnose(o: ObjectMetrics, bend_eps: real) returns (bent: bool, diag: BendDiag)
    ensures bent == IsBent(o, bend_eps)
    ensures diag == DiagOf(o)
  {
    var has_bend_mod, bend_angle := BendModSummary(o);
    var max_delta := MaxDeltaAbs(o);
    bent := max_delta >= bend_eps || (has_bend_mod && bend_angle > BendModAngleEps);
    diag := BendDiag(o.name, o.bbox_delta, max_delta, has_bend_mod, bend_angle);
  }

  /** `_bent_stats_for_prefix`: one pass over the matching objects, then the five largest deltas. */
  method BentStatsForPrefix(m: MetricsPayload, prefix: string, bend_eps: real) returns (stats: BentStats)
    ensures stats == BentStatsOf(m, prefix, bend_eps)
  {
    stats := CollectBentStats(ObjectsByPrefix(m.objects, prefix), bend_eps);
  }

  method CollectBentStats(objects: seq<ObjectMetrics>, bend_eps: real) returns (stats: BentStats)
    ensures stats == StatsOver(objects, bend_eps)
  {
    var diagnostics: seq<BendDiag> := [];
    var count_bent := 0;
    var i := 0;
    while i < |objects|
      invariant 0 <= i <= |objects|
      invariant diagnostics == Diags(objects[..i])
      invariant count_bent == BentCount(objects[..i], bend_eps)
    {
      var o := objects[i];
      PrefixStep(objects, i, bend_eps);
      var bent, diag := Diagnose(o, bend_eps);
      if bent {
        count_bent := count_bent + 1;
      }
      diagnostics := diagnostics + [diag];
      i := i + 1;
    }
    assert objects[..i] == objects;
    stats := BentStats(|diagnostics|, count_bent, bend_eps, Take(SortDesc(diagnostics, MaxDelta), 5));
  }

  /** The five listed diagnostics are the largest deltas, largest first, each of one of the objects. */
  lemma TopDiagsShape(objects: seq<ObjectMetrics>)
    ensures var top := Take(SortDesc(Diags(objects), MaxDelta), 5);
      |top| == (if |objects| < 5 then |objects| else 5) &&
      (forall i, j :: 0 <= i < j < |top| ==> top[i].max_delta >= top[j].max_delta) &&
      (forall i :: 0 <= i < |top| ==> exists o :: o in objects && top[i] == DiagOf(o))
  {
    var diags := Diags(objects);
    var top := Take(SortDesc(diags, MaxDelta), 5);
    TopShape(diags, MaxDelta, 5);
    forall i | 0 <= i < |top| ensures exists o :: o in objects && top[i] == DiagOf(o) {
      var k :| 0 <= k < |diags| && diags[k] == top[i];
      assert objects[k] in objects;
    }
    forall i, j | 0 <= i < j < |top| ensures top[i].max_delta >= top[j].max_delta {
      assert MaxDelta(top[i]) >= MaxDelta(top[j]);
    }
  }

  /**
   * The statistics count every object, count the bent ones among them, and list at most five
   * diagnostics, largest delta first, each the diagnostic of one of the objects.
   */
  lemma StatsShape(objects: seq<ObjectMetrics>, bend_eps: real)
    ensures var s := StatsOver(objects, bend_eps);
      s.count_total == |objects| && s.count_bent <= s.count_total &&
      (s.count_bent == 0 <==> forall o :: o in objects ==> !IsBent(o, bend_eps)) &&
      |s.top5| == (if |objects| < 5 then |objects| else 5) &&
      (forall i, j :: 0 <= i < j < |s.top5| ==> s.top5[i].max_delta >= s.top5[j].max_delta) &&
      (forall i :: 0 <= i < |s.top5| ==> exists o :: o in objects && s.top5[i] == DiagOf(o))
  {
    TopDiagsShape(objects);
  }

  /**
   * The part shared by `_validate_slats_not_bent` and `_validate_back_slats_not_bent` once the IR
   * asks for arched slats: a problem of severity 2 when none of the matching objects is bent.
   */
  function NotBentRule(m: MetricsPayload, prefix: string, code: string, message: string, bend_eps: real): seq<Problem> {
    var stats := BentStatsOf(m, prefix, bend_eps);
    if stats.count_bent > 0 then []
    else [Problem(code, 2, message, BendDetails(stats.count_total, stats.count_bent, stats.eps_m, stats.top5, stats.count_total == 0))]
  }

  /** The IR asks for arched seat slats: a `slats` object, `enabled` truthy and a positive arc height. */
  predicate WantsBentSlats(ir: Obj) {
    var slats := GetOr(ir, "slats", JObj(map[]));
    slats.JObj? && Truthy(GetOr(slats.fields, "enabled", JBool(false))) &&
    AsFloat(GetOr(slats.fields, "arc_height_mm", JNum(0.0)), 0.0) > 0.0
  }

  /** The IR asks for arched back slats: the back's mode is "slats" and its `slats` have a positive arc height. */
  predicate WantsBentBackSlats(ir: Obj) {
    var back := GetOr(ir, "back_support", JObj(map[]));
    back.JObj? && TextIs(GetOr(back.fields, "mode", JStr("")), "slats") &&
    var slats := GetOr(back.fields, "slats", JObj(map[]));
    slats.JObj? && AsFloat(GetOr(slats.fields, "arc_height_mm", JNum(0.0)), 0.0) > 0.0
  }

  /** `_validate_slats_not_bent`. */
  function SlatsNotBent(ir: Obj, m: MetricsPayload, bend_eps: real): seq<Problem> {
    if !WantsBentSlats(ir) then []
    else NotBentRule(m, "slat_", "SLATS_NOT_BENT",
      "Seat slats are expected to be bent but bend evidence is missing.", bend_eps)
  }

  /** `_validate_back_slats_not_bent`. */
  function BackSlatsNotBent(ir: Obj, m: MetricsPayload, bend_eps: real): seq<Problem> {
    if !WantsBentBackSlats(ir) then []
    else NotBentRule(m, "back_slat_", "BACK_SLATS_NOT_BENT",
      "Back slats are expected to be bent but bend evidence is missing.", bend_eps)
  }

  /**
   * SLATS_NOT_BENT is raised exactly when the IR asks for arched seat slats and no seat slat is
   * bent; it has severity 2 and carries the "no objects found" note exactly when nothing matched.
   */
  lemma SlatsNotBentWhen(ir: Obj, m: MetricsPayload, bend_eps: real)
    ensures var r, objects := SlatsNotBent(ir, m, bend_eps), ObjectsByPrefix(m.objects, "slat_");
      (r != [] <==> WantsBentSlats(ir) && forall o :: o in objects ==> !IsBent(o, bend_eps)) &&
      (r != [] ==> |r| == 1 && r[0].code == "SLATS_NOT_BENT" && r[0].severity == 2 &&
                   (r[0].details.no_objects_note <==> objects == []))
  {
    StatsShape(ObjectsByPrefix(m.objects, "slat_"), bend_eps);
  }

  /** The same for BACK_SLATS_NOT_BENT, the back's slats and the back slat objects. */
  lemma BackSlatsNotBentWhen(ir: Obj, m: MetricsPayload, bend_eps: real)
    ensures var r, objects := BackSlatsNotBent(ir, m, bend_eps), ObjectsByPrefix(m.objects, "back_slat_");
      (r != [] <==> WantsBentBackSlats(ir) && forall o :: o in objects ==> !IsBent(o, bend_eps)) &&
      (r != [] ==> |r| == 1 && r[0].code == "BACK_SLATS_NOT_BENT" && r[0].severity == 2 &&
                   (r[0].details.no_objects_note <==> objects == []))
  {
    StatsShape(ObjectsByPrefix(m.objects, "back_slat_"), bend_eps);
  }
}
