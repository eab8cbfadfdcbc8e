/**
 * `validate`: every check of the debug validator run in a fixed order, and a score in [0, 1] that
 * loses 0.30 per problem of severity 3 or more, 0.10 per severity 2 and 0.02 per severity 1.
 */
module Validator {
  import opened Numeric
  import opened Ir
  import opened Metrics
  import opened ValidatorCore
  import opened ValidatorOverlap
  import opened ValidatorBend
  import opened ValidatorModifiers

  datatype Validation = Validation(score: real, problems: seq<Problem>, problem_count: nat, severity_max: int, penalty: real)

  /** `_severity_weight`. */
  function SeverityWeight(severity: int): (r: real)
    ensures 0.0 <= r <= 0.3
    ensures r == 0.0 <==> severity <= 0
    ensures r > 0.0 ==> r >= 0.02
  {
    if severity >= 3 then 0.3
    else if severity == 2 then 0.1
    else if severity == 1 then 0.02
    else 0.0
  }

  predicate AllHarmless(problems: seq<Problem>) {
    forall i :: 0 <= i < |problems| ==> problems[i].severity <= 0
  }

  /** The summed weights: never negative, zero exactly when no problem has a positive severity, else at least 0.02. */
  function WeightSum(problems: seq<Problem>): (r: real)
    ensures r >= 0.0
    ensures r == 0.0 <==> AllHarmless(problems)
    ensures !AllHarmless(problems) ==> r >= 0.02
  {
    if problems == [] then 0.0
    else
      var init, last := problems[..|problems| - 1], problems[|problems| - 1];
      assert forall i :: 0 <= i < |init| ==> init[i] == problems[i];
      WeightSum(init) + SeverityWeight(last.severity)
  }

  /** `max(severity for problem in problems, default=0)`. */
  function SeverityMax(problems: seq<Problem>): (r: int)
    ensures problems == [] ==> r == 0
    ensures forall i :: 0 <= i < |problems| ==> problems[i].severity <= r
    ensures problems != [] ==> exists i :: 0 <= i < |problems| && problems[i].severity == r
  {
    if problems == [] then 0
    else if |problems| == 1 then problems[0].severity
    else
      var init, last := problems[..|problems| - 1], problems[|problems| - 1];
      assert forall i :: 0 <= i < |init| ==> init[i] == problems[i];
      MaxInt(SeverityMax(init), last.severity)
  }

  /** `min(1.0, sum of weights)`, before rounding. */
  function RawPenalty(problems: seq<Problem>): real {
    Min(1.0, WeightSum(problems))
  }

  /** `max(0.0, 1.0 - penalty)`, before rounding. */
  function RawScore(problems: seq<Problem>): real {
    Max(0.0, 1.0 - RawPenalty(problems))
  }

  /** The validation payload for a list of problems, with the penalty and score rounded to six decimals. */
  function Summarize(problems: seq<Problem>): (r: Validation)
    ensures r.problems == problems && r.problem_count == |problems| && r.severity_max == SeverityMax(problems)
  {
    Validation(Round6(RawScore(problems)), problems, |problems|, SeverityMax(problems), Round6(RawPenalty(problems)))
  }

  /** Rounding to six decimals keeps a value of [0, 1] in [0, 1]. */
  lemma Round6UnitInterval(x: real)
    requires 0.0 <= x <= 1.0
    ensures 0.0 <= Round6(x) <= 1.0
  {
    var n := RoundHalfEven(x * Micro);
    assert -0.5 <= n as real - x * Micro <= 0.5;
    assert x * Micro <= Micro;
    assert 0 <= n <= 1000000;
  }

  /** Rounding leaves a value that is already a multiple of one millionth, such as 0 or 1, alone. */
  lemma Round6Whole(k: int)
    ensures Round6(k as real) == k as real
  {
    assert (k as real * Micro).Floor == k * 1000000;
  }

  /** Score and penalty always lie in [0, 1]. */
  lemma ScoreBounds(problems: seq<Problem>)
    ensures var r := Summarize(problems);
      0.0 <= r.score <= 1.0 && 0.0 <= r.penalty <= 1.0
  {
    Round6UnitInterval(RawScore(problems));
    Round6UnitInterval(RawPenalty(problems));
  }

  /**
   * The score is a perfect 1 and the penalty 0 exactly when no problem has a positive severity;
   * any such problem costs at least 0.02.
   */
  lemma PerfectScoreIff(problems: seq<Problem>)
    ensures Summarize(problems).score == 1.0 <==> AllHarmless(problems)
    ensures Summarize(problems).penalty == 0.0 <==> AllHarmless(problems)
  {
    if AllHarmless(problems) {
      Round6Whole(1);
      Round6Whole(0);
    } else {
      var p := RawPenalty(problems);
      assert p >= 0.02;
      assert Round6(1.0 - p) <= 1.0 - p + 0.5 / Micro;
      assert Round6(p) >= p - 0.5 / Micro;
    }
  }

  /** The problems every check reports, in the order `validate` runs the checks. */
  function AllProblems(ir: Obj, m: MetricsPayload, t: Thresholds): seq<Problem> {
    var expected := ExpectedModifiersMap(ir);
    var groups := GroupOrder(expected);
    MissingOver(m, expected, groups) +
    NoEffectOver(m, expected, groups, t.mod_effect_m, t.mod_effect_verts) +
    SlatsNotBent(ir, m, t.bend_m) +
    BackSlatsNotBent(ir, m, t.bend_m) +
    OverlapSlatsFrame(ir, m, t.overlap_m3, t.joint_allowance_mm) +
    OverlapSlatsArms(ir, m, t.overlap_m3) +
    OverlapBackSlatsFrame(ir, m, t.overlap_m3, t.joint_allowance_mm) +
    LowClearanceSlatsFrame(m, t.clearance_m)
  }

  /** `validate`: the checks' problems, in order, and their summary. */
  method Validate(ir: Obj, m: MetricsPayload, t: Thresholds) returns (result: Validation)
    ensures result == Summarize(AllProblems(ir, m, t))
  {
    var problems := ValidateModifierExpectationMissing(ir, m);
    var no_effect := ValidateModifierExpectationNoEffect(ir, m, t.mod_effect_m, t.mod_effect_verts);
    problems := problems + no_effect;
    problems := problems + SlatsNotBent(ir, m, t.bend_m);
    problems := problems + BackSlatsNotBent(ir, m, t.bend_m);
    problems := problems + OverlapSlatsFrame(ir, m, t.overlap_m3, t.joint_allowance_mm);
    problems := problems + OverlapSlatsArms(ir, m, t.overlap_m3);
    problems := problems + OverlapBackSlatsFrame(ir, m, t.overlap_m3, t.joint_allowance_mm);
    problems := problems + LowClearanceSlatsFrame(m, t.clearance_m);
    result := Summarize(problems);
  }
}
