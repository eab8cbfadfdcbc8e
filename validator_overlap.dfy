/**
 * The overlap rules of the debug validator: which slat-to-frame contacts are expected joints,
 * the split of an overlap set into hard and joint pairs, the volume-ranked `pairs_top` list and
 * its offender names, and the OVERLAP_* and LOW_CLEARANCE_SLATS_FRAME problems.
 */
module ValidatorOverlap {
  import opened Wrappers
  import opened Text
  import opened Numeric
  import opened Ir
  import opened PlanTypes
  import opened GeomUtils
  import opened Metrics
  import opened Sorting
  import opened ValidatorCore
  import opened Lists

  // ----- Expected joint contacts -----

  /**
   * `_is_expected_slats_frame_joint_overlap`: a seat slat touching a side rail or a cross beam is a
   * joint when the pair's smallest span is within the slats' clearance plus mount offset plus the
   * allowance (millimetres, taken as metres and never below 0).
   */
  predicate SlatsFrameJoint(ir: Obj, pair: OverlapPair, allowance_mm: real) {
    var right := Lower(Strip(pair.right));
    if right == "" then false
    else if StartsWith(right, "rail_") || StartsWith(right, "beam_cross_") then
      var slats := GetOr(ir, "slats", JObj(map[]));
      slats.JObj? &&
      var total_mm := AsFloat(GetOr(slats.fields, "clearance_mm", JNum(0.0)), 0.0) +
                      AsFloat(GetOr(slats.fields, "mount_offset_mm", JNum(0.0)), 0.0) + allowance_mm;
      PairMinSpan(pair) <= Max(0.0, total_mm / 1000.0)
    else false
  }

  /**
   * `_is_expected_back_slats_frame_joint_overlap`: a back slat touching the left or right back rail
   * is a joint when the pair's smallest span is within the amount the back is thicker than the
   * frame (never below 0) plus the allowance.
   */
  predicate BackSlatsFrameJoint(ir: Obj, pair: OverlapPair, allowance_mm: real) {
    var right := Lower(Strip(pair.right));
    if right != "back_rail_left" && right != "back_rail_right" then false
    else
      var back, frame := GetOr(ir, "back_support", JObj(map[])), GetOr(ir, "frame", JObj(map[]));
      back.JObj? && frame.JObj? &&
      var back_mm := AsFloat(GetOr(back.fields, "thickness_mm", JNum(0.0)), 0.0);
      var frame_mm := AsFloat(GetOr(frame.fields, "thickness_mm", JNum(0.0)), 0.0);
      PairMinSpan(pair) <= Max(0.0, (Max(0.0, back_mm - frame_mm) + allowance_mm) / 1000.0)
  }

  /** The joint test `_split_overlap_pairs` applies to a pair of the overlap set `key`. */
  predicate IsJoint(ir: Obj, key: string, pair: OverlapPair, allowance_mm: real) {
    (key == "slats_vs_frame" && SlatsFrameJoint(ir, pair, allowance_mm)) ||
    (key == "back_slats_vs_frame" && BackSlatsFrameJoint(ir, pair, allowance_mm))
  }

  // ----- Hard and joint pairs -----

  /** The joint test of one overlap set, as a value the split can be stated over. */
  function JointTest(ir: Obj, key: string, allowance_mm: real): OverlapPair -> bool {
    p => IsJoint(ir, key, p, allowance_mm)
  }

  /** The pairs, in order, whose joint test gives `want`. */
  function Select(pairs: seq<OverlapPair>, test: OverlapPair -> bool, want: bool): (r: seq<OverlapPair>)
    ensures |r| <= |pairs|
  {
    if pairs == [] then []
    else
      var last := pairs[|pairs| - 1];
      Select(pairs[..|pairs| - 1], test, want) + (if test(last) == want then [last] else [])
  }

  function JointPairs(ir: Obj, key: string, pairs: seq<OverlapPair>, allowance_mm: real): seq<OverlapPair> {
    Select(pairs, JointTest(ir, key, allowance_mm), true)
  }

  function HardPairs(ir: Obj, key: string, pairs: seq<OverlapPair>, allowance_mm: real): seq<OverlapPair> {
    Select(pairs, JointTest(ir, key, allowance_mm), false)
  }

  /** `_split_overlap_pairs`: one pass over the set's pairs, each going to exactly one list. */
  method SplitOverlapPairs(ir: Obj, m: MetricsPayload, key: string, allowance_mm: real)
    returns (hard: seq<OverlapPair>, joint: seq<OverlapPair>)
    ensures hard == HardPairs(ir, key, OverlapPairs(m, key), allowance_mm)
    ensures joint == JointPairs(ir, key, OverlapPairs(m, key), allowance_mm)
  {
    var all := OverlapPairs(m, key);
    var test := JointTest(ir, key, allowance_mm);
    hard, joint := [], [];
    var i := 0;
    while i < |all|
      invariant 0 <= i <= |all|
      invariant hard == Select(all[..i], test, false)
      invariant joint == Select(all[..i], test, true)
    {
      var pair := all[i];
      assert all[..i + 1][..i] == all[..i];
      if test(pair) {
        joint := joint + [pair];
      } else {
        hard := hard + [pair];
      }
      i := i + 1;
    }
    assert all[..i] == all;
  }

  /** The two selections together are a permutation of the pairs. */
  lemma {:induction false} SelectMultiset(pairs: seq<OverlapPair>, test: OverlapPair -> bool)
    ensures multiset(Select(pairs, test, false)) + multiset(Select(pairs, test, true)) == multiset(pairs)
  {
    if pairs != [] {
      var init, last := pairs[..|pairs| - 1], pairs[|pairs| - 1];
      SelectMultiset(init, test);
      assert pairs == init + [last];
    }
  }

  /** The volumes of the two selections add up to the volume of the pairs. */
  lemma {:induction false} SelectVolume(pairs: seq<OverlapPair>, test: OverlapPair -> bool)
    ensures PairsVolume(Select(pairs, test, false)) + PairsVolume(Select(pairs, test, true)) == PairsVolume(pairs)
  {
    if pairs != [] {
      var init, last := pairs[..|pairs| - 1], pairs[|pairs| - 1];
      SelectVolume(init, test);
      var hard, joint := Select(init, test, false), Select(init, test, true);
      assert pairs == init + [last];
      PairsVolumeAppend(init, last);
      if test(last) {
        assert Select(pairs, test, false) == hard;
        assert Select(pairs, test, true) == joint + [last];
        PairsVolumeAppend(joint, last);
      } else {
        assert Select(pairs, test, false) == hard + [last];
        assert Select(pairs, test, true) == joint;
        PairsVolumeAppend(hard, last);
      }
    }
  }

  /** A selection holds exactly the pairs whose test gives `want`. */
  lemma {:induction false} SelectMembers(pairs: seq<OverlapPair>, test: OverlapPair -> bool, want: bool)
    ensures forall p :: p in Select(pairs, test, want) <==> p in pairs && test(p) == want
  {
    if pairs != [] {
      var init, last := pairs[..|pairs| - 1], pairs[|pairs| - 1];
      SelectMembers(init, test, want);
      assert pairs == init + [last];
    }
  }

  /** A test that holds for no pair selects nothing as joint and everything as hard. */
  lemma {:induction false} SelectConstant(pairs: seq<OverlapPair>, test: OverlapPair -> bool)
    requires forall p :: !test(p)
    ensures Select(pairs, test, true) == [] && Select(pairs, test, false) == pairs
  {
    if pairs != [] {
      SelectConstant(pairs[..|pairs| - 1], test);
      assert pairs == pairs[..|pairs| - 1] + [pairs[|pairs| - 1]];
    }
  }

  /**
   * The split is a partition: the joint list holds exactly the joint pairs, the hard list exactly
   * the others, together they are a permutation of the set and their volumes add up to the set's.
   * Only the two slat-versus-frame sets can have joint pairs.
   */
  lemma SplitPartition(ir: Obj, key: string, pairs: seq<OverlapPair>, allowance_mm: real)
    ensures var hard, joint := HardPairs(ir, key, pairs, allowance_mm), JointPairs(ir, key, pairs, allowance_mm);
      multiset(hard) + multiset(joint) == multiset(pairs) &&
      (forall p :: p in joint <==> p in pairs && IsJoint(ir, key, p, allowance_mm)) &&
      (forall p :: p in hard <==> p in pairs && !IsJoint(ir, key, p, allowance_mm)) &&
      PairsVolume(hard) + PairsVolume(joint) == PairsVolume(pairs) &&
      (key != "slats_vs_frame" && key != "back_slats_vs_frame" ==> joint == [] && hard == pairs)
  {
    var test := JointTest(ir, key, allowance_mm);
    SelectMultiset(pairs, test);
    SelectVolume(pairs, test);
    SelectMembers(pairs, test, true);
    SelectMembers(pairs, test, false);
    if key != "slats_vs_frame" && key != "back_slats_vs_frame" {
      SelectConstant(pairs, test);
    }
  }

  /** `_pairs_total_volume`: the running sum of the pair volumes. */
  method PairsTotalVolume(pairs: seq<OverlapPair>) returns (total: real)
    ensures total == PairsVolume(pairs)
  {
    total := 0.0;
    var i := 0;
    while i < |pairs|
      invariant 0 <= i <= |pairs|
      invariant total == PairsVolume(pairs[..i])
    {
      PairsVolumeAppend(pairs[..i], pairs[i]);
      assert pairs[..i + 1] == pairs[..i] + [pairs[i]];
      total := total + pairs[i].volume;
      i := i + 1;
    }
    assert pairs[..i] == pairs;
  }

  // ----- Top pairs and offenders -----

  function Volume(p: OverlapPair): real { p.volume }

  function TopOf(p: OverlapPair): PairTop { PairTop(p.left, p.right, p.volume, p.bbox) }

  function TopsOf(pairs: seq<OverlapPair>): (r: seq<PairTop>)
    ensures |r| == |pairs| && forall i :: 0 <= i < |pairs| ==> r[i] == TopOf(pairs[i])
  {
    seq(|pairs|, i requires 0 <= i < |pairs| => TopOf(pairs[i]))
  }

  /** The pairs `_pairs_top_from_list` keeps: sorted by volume, largest first, at most `limit`. */
  function TopPairs(pairs: seq<OverlapPair>, limit: nat): seq<OverlapPair> {
    Take(SortDesc(pairs, Volume), limit)
  }

  /** `_pairs_top_from_list`: the kept pairs reduced to left, right, volume and box. */
  method PairsTopFromList(pairs: seq<OverlapPair>, limit: nat) returns (result: seq<PairTop>)
    ensures result == TopsOf(TopPairs(pairs, limit))
  {
    var sorted := TopPairs(pairs, limit);
    result := [];
    var i := 0;
    while i < |sorted|
      invariant 0 <= i <= |sorted|
      invariant result == TopsOf(sorted[..i])
    {
      var pair := sorted[i];
      assert TopsOf(sorted[..i + 1]) == TopsOf(sorted[..i]) + [TopOf(pair)];
      result := result + [PairTop(pair.left, pair.right, pair.volume, pair.bbox)];
      i := i + 1;
    }
    assert sorted[..i] == sorted;
  }

  /**
   * The top list has min(limit, n) entries in descending volume, each one a pair of the input;
   * every pair left out has a volume no larger than any kept one.
   */
  lemma TopPairsShape(pairs: seq<OverlapPair>, limit: nat)
    ensures var sorted, top := SortDesc(pairs, Volume), TopPairs(pairs, limit);
      |top| == (if limit < |pairs| then limit else |pairs|) &&
      multiset(sorted) == multiset(pairs) && top == sorted[..|top|] &&
      (forall i, j :: 0 <= i < j < |top| ==> top[i].volume >= top[j].volume) &&
      (forall i :: 0 <= i < |top| ==> top[i] in pairs) &&
      (forall i, j :: 0 <= i < |top| <= j < |sorted| ==> top[i].volume >= sorted[j].volume)
  {
    var sorted := SortDesc(pairs, Volume);
    var top := TopPairs(pairs, limit);
    TopShape(pairs, Volume, limit);
    forall i, j | 0 <= i < j < |top| ensures top[i].volume >= top[j].volume {
      assert Volume(top[i]) >= Volume(top[j]);
    }
    forall i, j | 0 <= i < |top| <= j < |sorted| ensures top[i].volume >= sorted[j].volume {
      assert Volume(top[i]) >= Volume(sorted[j]);
    }
  }

  /** The names among `left` and `right` that are not empty. */
  function NonBlank(left: string, right: string): (r: set<string>)
    ensures forall n :: n in r <==> n != "" && (n == left || n == right)
  {
    (if left != "" then {left} else {}) + (if right != "" then {right} else {})
  }

  /** The non-blank stripped names of one top entry. */
  function TopNames(t: PairTop): set<string> {
    NonBlank(Strip(t.left), Strip(t.right))
  }

  /** The non-blank stripped left and right names of a top list. */
  function OffenderSet(tops: seq<PairTop>): set<string> {
    UnionMap(tops, TopNames)
  }

  /** One step of `_offenders_from_pairs_top`: adds the left and the right name unless empty. */
  method AddNames(seen: set<string>, left: string, right: string) returns (r: set<string>)
    ensures r == seen + NonBlank(left, right)
  {
    r := seen;
    if left != "" {
      r := r + {left};
    }
    if right != "" {
      r := r + {right};
    }
  }

  /**
   * `_offenders_from_pairs_top`: the names collected into a set, then sorted: increasing without
   * repeats, never blank, and exactly the non-blank stripped names that occur in the list.
   */
  method OffendersFromPairsTop(tops: seq<PairTop>) returns (names: seq<string>)
    ensures names == Offenders(tops)
    ensures StrictlySorted(names)
    ensures forall n :: n in names ==> exists i :: 0 <= i < |tops| && n in TopNames(tops[i])
    ensures forall n, i :: 0 <= i < |tops| && n in TopNames(tops[i]) ==> n in names
  {
    var seen: set<string> := {};
    var i := 0;
    while i < |tops|
      invariant 0 <= i <= |tops|
      invariant seen == OffenderSet(tops[..i])
    {
      assert tops[..i + 1][..i] == tops[..i];
      seen := AddNames(seen, Strip(tops[i].left), Strip(tops[i].right));
      i := i + 1;
    }
    assert tops[..i] == tops;
    names := SortedStrings(seen);
    UnionMapMembers(tops, TopNames);
  }

  /** The offender list a problem reports for a top list. */
  function Offenders(tops: seq<PairTop>): seq<string> {
    SortedStrings(OffenderSet(tops))
  }

  /** `_overlap_unique_counts` on a list: distinct left and distinct right names that are not blank. */
  function UniqueCounts(pairs: seq<OverlapPair>): (nat, nat) {
    (|set i | 0 <= i < |pairs| && Strip(pairs[i].left) != "" :: pairs[i].left|,
     |set i | 0 <= i < |pairs| && Strip(pairs[i].right) != "" :: pairs[i].right|)
  }

  // ----- Problems -----

  /** `_overlap_problem_details`: the details of a plain overlap problem. */
  function PlainDetails(m: MetricsPayload, key: string, total: real, eps: real): Details {
    var pairs := OverlapPairs(m, key);
    var top := TopsOf(TopPairs(pairs, 10));
    OverlapDetails(total, eps, top, Offenders(top), UniqueCounts(pairs).0, UniqueCounts(pairs).1)
  }

  /**
   * `_overlap_problem_details_from_pairs`: hard and joint volumes and top lists; offenders come from
   * the hard top list, or the joint one when there is no hard pair.
   */
  function SplitDetails(m: MetricsPayload, key: string, eps: real, hard: seq<OverlapPair>, joint: seq<OverlapPair>,
                        allowance_mm: real): Details
  {
    var hard_top, joint_top := TopsOf(TopPairs(hard, 10)), TopsOf(TopPairs(joint, 10));
    var offender_top := if hard_top != [] then hard_top else joint_top;
    SplitOverlapDetails(OverlapTotal(m, key), PairsVolume(hard), PairsVolume(joint), eps, hard_top, joint_top,
      Offenders(offender_top), UniqueCounts(hard).0, UniqueCounts(hard).1, |joint|, allowance_mm)
  }

  /** `_should_check_slats_overlap`: the IR's `slats.enabled` when given, else whether any seat slat exists. */
  predicate ShouldCheckSlats(ir: Obj, m: MetricsPayload) {
    var slats := GetOr(ir, "slats", JObj(map[]));
    if slats.JObj? && "enabled" in slats.fields then Truthy(slats.fields["enabled"])
    else GroupCount(m, "slat_") > 0
  }

  /** `_should_check_back_slats_overlap`: whether the IR's back mode is "slats" when given, else whether any back slat exists. */
  predicate ShouldCheckBackSlats(ir: Obj, m: MetricsPayload) {
    var back := GetOr(ir, "back_support", JObj(map[]));
    if back.JObj? && "mode" in back.fields then TextIs(back.fields["mode"], "slats")
    else GroupCount(m, "back_slat_") > 0
  }

  /**
   * The rule shared by `_validate_overlap_slats_frame` and `_validate_overlap_back_slats_frame`:
   * severity 2 when the hard pairs' volume exceeds eps; severity 1 when it does not but the recorded
   * total does and some joint pair exists; nothing otherwise. With no hard offender names the
   * unique counts fall back to the whole set's.
   */
  function SplitOverlapRule(ir: Obj, m: MetricsPayload, key: string, code: string, joint_message: string,
                            hard_message: string, check: bool, eps: real, allowance_mm: real): seq<Problem>
  {
    if !check then []
    else
      var pairs := OverlapPairs(m, key);
      var hard, joint := HardPairs(ir, key, pairs, allowance_mm), JointPairs(ir, key, pairs, allowance_mm);
      var details := SplitDetails(m, key, eps, hard, joint, allowance_mm);
      if PairsVolume(hard) <= eps then
        if OverlapTotal(m, key) <= eps || |joint| == 0 then []
        else [Problem(code, 1, joint_message, details)]
      else
        var counts := UniqueCounts(pairs);
        var details' := if details.unique_left_count == 0
                        then details.(unique_left_count := counts.0, unique_right_count := counts.1)
                        else details;
        [Problem(code, 2, hard_message, details')]
  }

  /** `_validate_overlap_slats_frame`. */
  function OverlapSlatsFrame(ir: Obj, m: MetricsPayload, eps: real, allowance_mm: real): seq<Problem> {
    SplitOverlapRule(ir, m, "slats_vs_frame", "OVERLAP_SLATS_FRAME",
      "Seat slats have only expected joint-contact overlaps with frame.", "Seat slats overlap frame geometry.",
      ShouldCheckSlats(ir, m), eps, allowance_mm)
  }

  /** `_validate_overlap_back_slats_frame`. */
  function OverlapBackSlatsFrame(ir: Obj, m: MetricsPayload, eps: real, allowance_mm: real): seq<Problem> {
    SplitOverlapRule(ir, m, "back_slats_vs_frame", "OVERLAP_BACK_SLATS_FRAME",
      "Back slats have only expected joint-contact overlaps with frame.", "Back slats overlap frame geometry.",
      ShouldCheckBackSlats(ir, m), eps, allowance_mm)
  }

  /**
   * The severity of a slat-versus-frame overlap problem: 2 exactly when the hard volume exceeds eps,
   * 1 exactly when it does not while the total does and a joint pair exists, and no problem otherwise.
   */
  lemma SplitOverlapSeverity(ir: Obj, m: MetricsPayload, key: string, code: string, jm: string, hm: string,
                             check: bool, eps: real, allowance_mm: real)
    ensures var r := SplitOverlapRule(ir, m, key, code, jm, hm, check, eps, allowance_mm);
      var pairs := OverlapPairs(m, key);
      var hard_volume := PairsVolume(HardPairs(ir, key, pairs, allowance_mm));
      var joint_count := |JointPairs(ir, key, pairs, allowance_mm)|;
      |r| <= 1 && (forall p :: p in r ==> p.code == code) &&
      (|r| == 1 && r[0].severity == 2 <==> check && hard_volume > eps) &&
      (|r| == 1 && r[0].severity == 1 <==> check && hard_volume <= eps && OverlapTotal(m, key) > eps && joint_count > 0)
  {
  }

  /** `_validate_overlap_slats_arms`: severity 2 whenever slats are checked and the recorded volume exceeds eps. */
  function OverlapSlatsArms(ir: Obj, m: MetricsPayload, eps: real): (r: seq<Problem>)
    ensures r != [] <==> ShouldCheckSlats(ir, m) && OverlapTotal(m, "slats_vs_arms") > eps
    ensures r != [] ==> |r| == 1 && r[0].code == "OVERLAP_SLATS_ARMS" && r[0].severity == 2
  {
    if !ShouldCheckSlats(ir, m) then []
    else
      var volume := OverlapTotal(m, "slats_vs_arms");
      if volume <= eps then []
      else [Problem("OVERLAP_SLATS_ARMS", 2, "Seat slats overlap arm geometry.", PlainDetails(m, "slats_vs_arms", volume, eps))]
  }

  /**
   * `_validate_low_clearance_slats_frame`: raised, with severity 1, exactly when the slats do not
   * overlap the frame, both group boxes exist and their vertical clearance is below eps.
   */
  function LowClearanceSlatsFrame(m: MetricsPayload, clearance_eps: real): (r: seq<Problem>)
    ensures r != [] <==>
      OverlapTotal(m, "slats_vs_frame") <= 0.0 && GroupBox(m, "slat_").Some? && GroupBox(m, "frame_").Some? &&
      ZClearance(GroupBox(m, "slat_"), GroupBox(m, "frame_")).value < clearance_eps
    ensures r != [] ==> (|r| == 1 && r[0].code == "LOW_CLEARANCE_SLATS_FRAME" && r[0].severity == 1 &&
      r[0].details == ClearanceDetails(ZClearance(GroupBox(m, "slat_"), GroupBox(m, "frame_")).value, clearance_eps))
  {
    if OverlapTotal(m, "slats_vs_frame") > 0.0 then []
    else
      var clearance := ZClearance(GroupBox(m, "slat_"), GroupBox(m, "frame_"));
      if clearance.None? then []
      else if clearance.value >= clearance_eps then []
      else [Problem("LOW_CLEARANCE_SLATS_FRAME", 1, "Seat slats and frame have very low Z clearance.",
                    ClearanceDetails(clearance.value, clearance_eps))]
  }
}
