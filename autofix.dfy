/**
 * Rule-based IR autofixes: for each distinct problem code the validator reported, at most one
 * rule rewrites a few fields of a copy of the IR, and every value it writes is logged as a
 * patch (the dotted path, the value before and the value after).
 *
 * The rules mutate the nested IR dict and the patch list in place; `Fixer` holds the two as
 * fields. The functions below describe the same steps on values and carry the proofs.
 */
module Autofix {
  import opened Text
  import opened Numeric
  import opened Ir
  import opened Lists

  /** One logged change: the path as its dot-separated keys, the value read there (null when absent) and the value written. */
  datatype Patch = Patch(path: seq<string>, before: Json, after: Json)

  /** The IR being patched together with the patches logged so far. */
  datatype Patched = Patched(ir: Obj, patches: seq<Patch>)

  const MarginPath: seq<string> := ["slats", "margin_x_mm"]
  const CountPath: seq<string> := ["slats", "count"]
  const ArcPath: seq<string> := ["slats", "arc_height_mm"]
  const WidthPath: seq<string> := ["arms", "width_mm"]
  const ProfilePath: seq<string> := ["arms", "profile"]

  // ---------------------------------------------------------------------------------------------
  // Paths into the nested IR
  // ---------------------------------------------------------------------------------------------

  /** The dict under `key`, an empty one when the key is missing or holds something else. */
  function Child(node: Obj, key: string): Obj {
    if key in node && node[key].JObj? then node[key].fields else map[]
  }

  /** The value at a path as `_set_patch` reads it: a step that is not a dict reads as an empty dict, a missing leaf as null. */
  function Lookup(node: Obj, keys: seq<string>): Json
    decreases |keys|
  {
    if keys == [] then JNull
    else if |keys| == 1 then GetOr(node, keys[0], JNull)
    else Lookup(Child(node, keys[0]), keys[1..])
  }

  /** The dicts along `keys` made to exist: each step that is not a dict is replaced by an empty one. */
  function Walk(node: Obj, keys: seq<string>): Obj
    decreases |keys|
  {
    if keys == [] then node
    else node[keys[0] := JObj(Walk(Child(node, keys[0]), keys[1..]))]
  }

  /** The walk to the leaf's parent followed by the write of the leaf. */
  function SetPath(node: Obj, keys: seq<string>, value: Json): Obj
    decreases |keys|
  {
    if keys == [] then node
    else if |keys| == 1 then node[keys[0] := value]
    else node[keys[0] := JObj(SetPath(Child(node, keys[0]), keys[1..], value))]
  }

  lemma {:induction false} LookupEmpty(keys: seq<string>)
    ensures Lookup(map[], keys) == JNull
    decreases |keys|
  {
    if |keys| > 1 {
      LookupEmpty(keys[1..]);
    }
  }

  /** Reading a path back after writing it gives the value written. */
  lemma {:induction false} LookupSetPath(node: Obj, keys: seq<string>, value: Json)
    requires keys != []
    ensures Lookup(SetPath(node, keys, value), keys) == value
    decreases |keys|
  {
    if |keys| > 1 {
      LookupSetPath(Child(node, keys[0]), keys[1..], value);
    }
  }

  /** Writing one leaf of a dict leaves its sibling leaves alone. */
  lemma SetSiblingKeeps(node: Obj, parent: string, leaf: string, other: string, value: Json)
    requires leaf != other
    ensures Lookup(SetPath(node, [parent, leaf], value), [parent, other]) == Lookup(node, [parent, other])
  {
    assert [parent, leaf][1..] == [leaf];
    assert [parent, other][1..] == [other];
  }

  /** Where a value other than null is found, every dict on the way already exists, so the walk changes nothing. */
  lemma {:induction false} WalkWhenFound(node: Obj, keys: seq<string>)
    requires keys != [] && Lookup(node, keys) != JNull
    ensures Walk(node, keys[..|keys| - 1]) == node
    decreases |keys|
  {
    if |keys| > 1 {
      var k := keys[0];
      if !(k in node && node[k].JObj?) {
        LookupEmpty(keys[1..]);
        assert false;
      }
      var child := node[k].fields;
      WalkWhenFound(child, keys[1..]);
      assert keys[..|keys| - 1][1..] == keys[1..][..|keys[1..]| - 1];
      assert Walk(node, keys[..|keys| - 1]) == node[k := JObj(child)];
    }
  }

  // ---------------------------------------------------------------------------------------------
  // `_ensure_dict` and `_set_patch`
  // ---------------------------------------------------------------------------------------------

  /** `_ensure_dict`: the IR with a dict under `key` (an empty one replacing anything else) and that dict. */
  function EnsureDict(root: Obj, key: string): (r: (Obj, Obj))
    ensures key in r.0 && r.0[key] == JObj(r.1)
    ensures r.0.Keys == root.Keys + {key}
    ensures forall k :: k in root && k != key ==> r.0[k] == root[k]
    ensures key in root && root[key].JObj? ==> r.0 == root && r.1 == root[key].fields
    ensures !(key in root && root[key].JObj?) ==> r.1 == map[]
  {
    if key in root && root[key].JObj? then (root, root[key].fields) else (root[key := JObj(map[])], map[])
  }

  /**
   * `_set_patch`: walk to the leaf's parent, creating dicts on the way; when the leaf already holds
   * `value` stop there (the dicts stay created) and report false, otherwise write it, log the
   * patch and report true. An empty key list does nothing.
   */
  function SetPatch(s: Patched, keys: seq<string>, value: Json): (Patched, bool) {
    if keys == [] then (s, false)
    else
      var prior := Lookup(s.ir, keys);
      if prior == value then (Patched(Walk(s.ir, keys[..|keys| - 1]), s.patches), false)
      else (Patched(SetPath(s.ir, keys, value), s.patches + [Patch(keys, prior, value)]), true)
  }

  /**
   * A write is reported exactly when the leaf held something else; it then logs that old value and
   * leaves the new one at the path and the rest of the root untouched; otherwise no patch is logged,
   * and for a value other than null the IR is unchanged.
   */
  lemma SetPatchShape(s: Patched, keys: seq<string>, value: Json)
    requires keys != []
    ensures var (r, changed) := SetPatch(s, keys, value);
      && (changed <==> Lookup(s.ir, keys) != value)
      && (changed ==> r.patches == s.patches + [Patch(keys, Lookup(s.ir, keys), value)])
      && (!changed ==> r.patches == s.patches)
      && (changed ==> Lookup(r.ir, keys) == value)
      && (forall k :: k in s.ir && k != keys[0] ==> k in r.ir && r.ir[k] == s.ir[k])
      && (!changed && value != JNull ==> r.ir == s.ir)
  {
    if Lookup(s.ir, keys) != value {
      LookupSetPath(s.ir, keys, value);
    } else if value != JNull {
      WalkWhenFound(s.ir, keys);
    }
  }

  // ---------------------------------------------------------------------------------------------
  // The three rules
  // ---------------------------------------------------------------------------------------------

  /** The old margin `INTERSECTION_SLATS_ARMS` widens, 40 mm when unset or unreadable. */
  function OldMargin(slats: Obj): real {
    AsFloat(GetOr(slats, "margin_x_mm", JNum(40.0)), 40.0)
  }

  /**
   * `_fix_intersection_slats_arms`: widen the slat margin by 10 mm; only when that writes nothing,
   * drop one slat (never below one).
   */
  function IntersectionFix(s: Patched): Patched {
    var (ir1, slats) := EnsureDict(s.ir, "slats");
    var (s1, changed) := SetPatch(Patched(ir1, s.patches), MarginPath, JNum(OldMargin(slats) + 10.0));
    if changed then s1
    else
      var old_count := MaxInt(1, AsInt(GetOr(slats, "count", JNum(14.0)), 14));
      if old_count > 1 then SetPatch(s1, CountPath, JNum((old_count - 1) as real)).0 else s1
  }

  /** The margin is always rewritten: the value read there is never already the widened one. */
  lemma MarginAlwaysChanges(ir: Obj)
    ensures var (ir1, slats) := EnsureDict(ir, "slats");
      Lookup(ir1, MarginPath) != JNum(OldMargin(slats) + 10.0)
  {
    var (ir1, slats) := EnsureDict(ir, "slats");
    assert MarginPath[1..] == ["margin_x_mm"];
    assert Lookup(ir1, MarginPath) == GetOr(slats, "margin_x_mm", JNull);
  }

  /**
   * `INTERSECTION_SLATS_ARMS` always logs exactly one patch, the margin widened by 10 mm from the
   * value read there; the slat count is never touched, as the margin write cannot be a no-op.
   */
  lemma IntersectionShape(s: Patched)
    ensures var r := IntersectionFix(s);
      var slats := Child(s.ir, "slats");
      var widened := JNum(OldMargin(slats) + 10.0);
      && r.patches == s.patches + [Patch(MarginPath, GetOr(slats, "margin_x_mm", JNull), widened)]
      && Lookup(r.ir, MarginPath) == widened
      && Lookup(r.ir, CountPath) == Lookup(s.ir, CountPath)
  {
    var (ir1, slats) := EnsureDict(s.ir, "slats");
    MarginAlwaysChanges(s.ir);
    var widened := JNum(OldMargin(slats) + 10.0);
    SetPatchShape(Patched(ir1, s.patches), MarginPath, widened);
    assert MarginPath[1..] == ["margin_x_mm"];
    assert CountPath[1..] == ["count"];
    SetSiblingKeeps(ir1, "slats", "margin_x_mm", "count", widened);
  }

  /** The arc `SLATS_NOT_BENT` aims for: 5 mm more, capped at half the slat length when that is positive. */
  function TargetArc(ir: Obj, slats: Obj): real {
    var old_arc := AsFloat(GetOr(slats, "arc_height_mm", JNum(0.0)), 0.0);
    var seat_depth := AsFloat(GetOr(ir, "seat_depth_mm", JNum(0.0)), 0.0);
    var margin_y := AsFloat(GetOr(slats, "margin_y_mm", JNum(0.0)), 0.0);
    var length := Max(0.0, seat_depth - 2.0 * margin_y);
    var limit := if length > 0.0 then length / 2.0 else old_arc + 5.0;
    Min(old_arc + 5.0, limit)
  }

  /** `_fix_slats_not_bent`: raise the slat arc towards `TargetArc`, writing only an increase. */
  function SlatsNotBentFix(s: Patched): Patched {
    var (ir1, slats) := EnsureDict(s.ir, "slats");
    var old_arc := AsFloat(GetOr(slats, "arc_height_mm", JNum(0.0)), 0.0);
    var new_arc := TargetArc(ir1, slats);
    if new_arc > old_arc then SetPatch(Patched(ir1, s.patches), ArcPath, JNum(new_arc)).0
    else Patched(ir1, s.patches)
  }

  /**
   * `SLATS_NOT_BENT` logs a patch exactly when the target arc exceeds the old one; the new arc is then
   * at most 5 mm higher and, for a positive slat length, at most half of it.
   */
  lemma SlatsNotBentShape(s: Patched)
    ensures var r := SlatsNotBentFix(s);
      var slats := Child(s.ir, "slats");
      var old_arc := AsFloat(GetOr(slats, "arc_height_mm", JNum(0.0)), 0.0);
      var new_arc := TargetArc(s.ir, slats);
      var length := Max(0.0, AsFloat(GetOr(s.ir, "seat_depth_mm", JNum(0.0)), 0.0) - 2.0 * AsFloat(GetOr(slats, "margin_y_mm", JNum(0.0)), 0.0));
      && new_arc <= old_arc + 5.0
      && (length > 0.0 ==> new_arc <= length / 2.0)
      && (new_arc > old_arc ==> r.patches == s.patches + [Patch(ArcPath, GetOr(slats, "arc_height_mm", JNull), JNum(new_arc))]
                                && Lookup(r.ir, ArcPath) == JNum(new_arc))
      && (new_arc <= old_arc ==> r.patches == s.patches)
  {
    var (ir1, slats) := EnsureDict(s.ir, "slats");
    assert GetOr(ir1, "seat_depth_mm", JNum(0.0)) == GetOr(s.ir, "seat_depth_mm", JNum(0.0));
    assert ArcPath[1..] == ["arc_height_mm"];
    var old_arc := AsFloat(GetOr(slats, "arc_height_mm", JNum(0.0)), 0.0);
    var new_arc := TargetArc(ir1, slats);
    if new_arc > old_arc {
      assert Lookup(ir1, ArcPath) == GetOr(slats, "arc_height_mm", JNull);
      SetPatchShape(Patched(ir1, s.patches), ArcPath, JNum(new_arc));
    }
  }

  /** `str(arms.get("type", "none")).strip().lower() == "none"`: Python's text of null is "None". */
  predicate ArmTypeIsNone(v: Json) {
    v.JNull? || (v.JStr? && Canon(v.s) == "none")
  }

  /** The two writes of `_fix_missing_arms`: width 120 mm, then the box profile. */
  function BoxArms(s: Patched): Patched {
    SetPatch(SetPatch(s, WidthPath, JNum(120.0)).0, ProfilePath, JStr("box")).0
  }

  /** `_fix_missing_arms`: unless the arm type is "none", set the arm width to 120 mm and the profile to "box". */
  function MissingArmsFix(s: Patched): Patched {
    var (ir1, arms) := EnsureDict(s.ir, "arms");
    if ArmTypeIsNone(GetOr(arms, "type", JStr("none"))) then Patched(ir1, s.patches)
    else BoxArms(Patched(ir1, s.patches))
  }

  /** After the two writes the arms are 120 mm wide with a box profile, and at most two patches were added. */
  lemma BoxArmsShape(s: Patched)
    ensures var r := BoxArms(s);
      && Lookup(r.ir, WidthPath) == JNum(120.0) && Lookup(r.ir, ProfilePath) == JStr("box")
      && |s.patches| <= |r.patches| <= |s.patches| + 2 && r.patches[..|s.patches|] == s.patches
  {
    SetPatchShape(s, WidthPath, JNum(120.0));
    var s1 := SetPatch(s, WidthPath, JNum(120.0)).0;
    assert Lookup(s1.ir, WidthPath) == JNum(120.0);
    SetPatchShape(s1, ProfilePath, JStr("box"));
    if Lookup(s1.ir, ProfilePath) != JStr("box") {
      SetSiblingKeeps(s1.ir, "arms", "profile", "width_mm", JStr("box"));
    }
  }

  /**
   * `MISSING_ARMS` logs nothing for arms of type "none"; otherwise it leaves arms 120 mm wide with
   * a box profile, logging only the fields that held something else.
   */
  lemma MissingArmsShape(s: Patched)
    ensures var r := MissingArmsFix(s);
      var arms := Child(s.ir, "arms");
      && (ArmTypeIsNone(GetOr(arms, "type", JStr("none"))) ==> r.patches == s.patches)
      && (!ArmTypeIsNone(GetOr(arms, "type", JStr("none"))) ==>
            Lookup(r.ir, WidthPath) == JNum(120.0) && Lookup(r.ir, ProfilePath) == JStr("box")
            && |s.patches| <= |r.patches| <= |s.patches| + 2 && r.patches[..|s.patches|] == s.patches)
  {
    var ir1 := EnsureDict(s.ir, "arms").0;
    BoxArmsShape(Patched(ir1, s.patches));
  }

  // ---------------------------------------------------------------------------------------------
  // `fix_ir`
  // ---------------------------------------------------------------------------------------------

  predicate KnownCode(code: string) {
    code == "INTERSECTION_SLATS_ARMS" || code == "SLATS_NOT_BENT" || code == "MISSING_ARMS"
  }

  /** The rule for a code; any other code changes nothing. */
  function CodeFix(s: Patched, code: string): Patched {
    if code == "INTERSECTION_SLATS_ARMS" then IntersectionFix(s)
    else if code == "SLATS_NOT_BENT" then SlatsNotBentFix(s)
    else if code == "MISSING_ARMS" then MissingArmsFix(s)
    else s
  }

  /** What `fix_ir` does for one code it has not handled yet. */
  type Rule = (Patched, string) -> Patched

  /** The state of `fix_ir` and its set of applied codes after the problems of a prefix. */
  function FixPrefix(rule: Rule, ir: Obj, problems: seq<Json>): (Patched, set<string>) {
    if problems == [] then (Patched(ir, []), {})
    else
      var (s, applied) := FixPrefix(rule, ir, problems[..|problems| - 1]);
      var code := ProblemCode(problems[|problems| - 1]);
      if code == "" || code in applied || !KnownCode(code) then (s, applied)
      else (rule(s, code), applied + {code})
  }

  /** `fix_ir`: the patched IR and the patch list. */
  function FixAll(ir: Obj, problems: seq<Json>): Patched {
    FixPrefix(CodeFix, ir, problems).0
  }

  lemma FixPrefixStep(rule: Rule, ir: Obj, problems: seq<Json>, i: int)
    requires 0 <= i < |problems|
    ensures var prev := FixPrefix(rule, ir, problems[..i]);
      var code := ProblemCode(problems[i]);
      FixPrefix(rule, ir, problems[..i + 1]) ==
        if code == "" || code in prev.1 || !KnownCode(code) then prev else (rule(prev.0, code), prev.1 + {code})
  {
    assert problems[..i + 1][..i] == problems[..i];
  }

  /** A problem's code when a rule knows it, "" otherwise. */
  function KnownProblemCode(problem: Json): (r: string)
    ensures r == "" || KnownCode(r)
  {
    var code := ProblemCode(problem);
    if KnownCode(code) then code else ""
  }

  /** Each problem's known code. */
  function KnownCodes(problems: seq<Json>): (r: seq<string>)
    ensures |r| == |problems|
    ensures forall i :: 0 <= i < |r| ==> r[i] == KnownProblemCode(problems[i])
  {
    if problems == [] then []
    else
      var init := problems[..|problems| - 1];
      assert forall i :: 0 <= i < |init| ==> init[i] == problems[i];
      KnownCodes(init) + [KnownProblemCode(problems[|problems| - 1])]
  }

  /** The codes `fix_ir` acts on: the known ones, each once, in order of first report. */
  function HandledCodes(problems: seq<Json>): seq<string> {
    Dedup(KnownCodes(problems), "")
  }

  /** The rule applied to each code in turn. */
  function ApplyCodes(rule: Rule, s: Patched, codes: seq<string>): Patched {
    if codes == [] then s else rule(ApplyCodes(rule, s, codes[..|codes| - 1]), codes[|codes| - 1])
  }

  /** The fold over the problems applies the rule once per handled code, and its applied set is those codes. */
  lemma {:induction false} FixPrefixByCodes(rule: Rule, ir: Obj, problems: seq<Json>)
    ensures forall c :: c in FixPrefix(rule, ir, problems).1 <==> c in HandledCodes(problems)
    ensures FixPrefix(rule, ir, problems).0 == ApplyCodes(rule, Patched(ir, []), HandledCodes(problems))
  {
    var ks := KnownCodes(problems);
    if problems != [] {
      var init := problems[..|problems| - 1];
      FixPrefixByCodes(rule, ir, init);
      var prev := HandledCodes(init);
      var (s, applied) := FixPrefix(rule, ir, init);
      assert ks[..|ks| - 1] == KnownCodes(init);
      var x := ks[|ks| - 1];
      var code := ProblemCode(problems[|problems| - 1]);
      if x != "" && x !in prev {
        assert x == code && code !in applied;
        assert HandledCodes(problems) == prev + [x];
        assert (prev + [x])[..|prev|] == prev;
        assert FixPrefix(rule, ir, problems) == (rule(s, code), applied + {code});
      } else {
        assert HandledCodes(problems) == prev;
        assert FixPrefix(rule, ir, problems) == (s, applied);
      }
    }
  }

  /**
   * `fix_ir` applies each known code's rule exactly once, in order of first report, and nothing else:
   * the handled codes are distinct, all known, and include every known code reported.
   */
  lemma FixAllByCodes(ir: Obj, problems: seq<Json>)
    ensures FixAll(ir, problems) == ApplyCodes(CodeFix, Patched(ir, []), HandledCodes(problems))
    ensures forall i, j :: 0 <= i < j < |HandledCodes(problems)| ==> HandledCodes(problems)[i] != HandledCodes(problems)[j]
    ensures forall c :: c in HandledCodes(problems) ==> KnownCode(c)
    ensures forall i :: 0 <= i < |problems| && KnownCode(ProblemCode(problems[i])) ==> ProblemCode(problems[i]) in HandledCodes(problems)
  {
    FixPrefixByCodes(CodeFix, ir, problems);
    forall i | 0 <= i < |problems| && KnownCode(ProblemCode(problems[i]))
      ensures ProblemCode(problems[i]) in HandledCodes(problems)
    {
      HandledCodesComplete(problems, i);
    }
  }

  lemma HandledCodesComplete(problems: seq<Json>, i: int)
    requires 0 <= i < |problems| && KnownCode(ProblemCode(problems[i]))
    ensures ProblemCode(problems[i]) in HandledCodes(problems)
  {
    assert KnownCodes(problems)[i] == KnownProblemCode(problems[i]);
  }

  // ---------------------------------------------------------------------------------------------
  // The patch log: replaying it and what it misses
  // ---------------------------------------------------------------------------------------------

  /** The IR a patch list describes: each patch's new value written at its path, in order. */
  function Replay(ir: Obj, patches: seq<Patch>): Obj {
    if patches == [] then ir
    else
      var last := patches[|patches| - 1];
      SetPath(Replay(ir, patches[..|patches| - 1]), last.path, last.after)
  }

  /** `b` extends `a`'s patch list, and replaying the added patches onto `a`'s IR gives `b`'s. */
  predicate Recorded(a: Patched, b: Patched) {
    |a.patches| <= |b.patches| && b.patches[..|a.patches|] == a.patches
    && b.ir == Replay(a.ir, b.patches[|a.patches|..])
  }

  lemma {:induction false} ReplayAppend(ir: Obj, ps: seq<Patch>, qs: seq<Patch>)
    ensures Replay(ir, ps + qs) == Replay(Replay(ir, ps), qs)
    decreases |qs|
  {
    if qs == [] {
      assert ps + qs == ps;
    } else {
      var init := qs[..|qs| - 1];
      ReplayAppend(ir, ps, init);
      assert (ps + qs)[..|ps + qs| - 1] == ps + init;
    }
  }

  lemma RecordedTrans(a: Patched, b: Patched, c: Patched)
    requires Recorded(a, b) && Recorded(b, c)
    ensures Recorded(a, c)
  {
    var ps := b.patches[|a.patches|..];
    var qs := c.patches[|b.patches|..];
    assert c.patches[..|b.patches|][..|a.patches|] == c.patches[..|a.patches|];
    assert c.patches[|a.patches|..] == ps + qs;
    ReplayAppend(a.ir, ps, qs);
  }

  lemma RecordedRefl(s: Patched)
    ensures Recorded(s, s)
  {
    assert s.patches[|s.patches|..] == [];
  }

  /** A `_set_patch` of a value other than null changes the IR only by the patch it logs. */
  lemma SetPatchRecorded(s: Patched, keys: seq<string>, value: Json)
    requires value != JNull
    ensures Recorded(s, SetPatch(s, keys, value).0)
  {
    var r := SetPatch(s, keys, value).0;
    if keys == [] {
      RecordedRefl(s);
    } else if Lookup(s.ir, keys) == value {
      WalkWhenFound(s.ir, keys);
      RecordedRefl(s);
    } else {
      assert r.patches[|s.patches|..] == [Patch(keys, Lookup(s.ir, keys), value)];
      assert r.patches[..|s.patches|] == s.patches;
    }
  }

  /** Writing below a key makes the `_ensure_dict` of that key before it invisible. */
  lemma EnsureThenSet(ir: Obj, keys: seq<string>, value: Json)
    requires |keys| == 2
    ensures SetPath(EnsureDict(ir, keys[0]).0, keys, value) == SetPath(ir, keys, value)
  {
    assert Child(EnsureDict(ir, keys[0]).0, keys[0]) == Child(ir, keys[0]);
  }

  /** A `_set_patch` after an `_ensure_dict` of the path's first key, when it writes. */
  lemma EnsureThenPatchRecorded(s: Patched, keys: seq<string>, value: Json)
    requires |keys| == 2
    requires Lookup(EnsureDict(s.ir, keys[0]).0, keys) != value
    ensures Recorded(s, SetPatch(Patched(EnsureDict(s.ir, keys[0]).0, s.patches), keys, value).0)
  {
    var ir1 := EnsureDict(s.ir, keys[0]).0;
    var r := SetPatch(Patched(ir1, s.patches), keys, value).0;
    EnsureThenSet(s.ir, keys, value);
    assert r.patches[|s.patches|..] == [Patch(keys, Lookup(ir1, keys), value)];
    assert r.patches[..|s.patches|] == s.patches;
  }

  lemma IntersectionRecorded(s: Patched)
    ensures Recorded(s, IntersectionFix(s))
  {
    var (ir1, slats) := EnsureDict(s.ir, "slats");
    MarginAlwaysChanges(s.ir);
    EnsureThenPatchRecorded(s, MarginPath, JNum(OldMargin(slats) + 10.0));
  }

  lemma SlatsNotBentRecorded(s: Patched)
    ensures Recorded(s, SlatsNotBentFix(s))
  {
    var (ir1, slats) := EnsureDict(s.ir, "slats");
    var old_arc := AsFloat(GetOr(slats, "arc_height_mm", JNum(0.0)), 0.0);
    var new_arc := TargetArc(ir1, slats);
    if new_arc > old_arc {
      assert ArcPath[1..] == ["arc_height_mm"];
      assert Lookup(ir1, ArcPath) == GetOr(slats, "arc_height_mm", JNull);
      EnsureThenPatchRecorded(s, ArcPath, JNum(new_arc));
    } else {
      if !("slats" in s.ir && s.ir["slats"].JObj?) {
        // a fresh slats dict has arc 0 and margin 0, so the target is positive
        assert false;
      }
      RecordedRefl(s);
    }
  }

  /** A code written in capitals and underscores reads as itself. */
  lemma ProblemCodeOfUpperWord(w: string)
    requires |w| > 0 && forall i :: 0 <= i < |w| ==> 'A' <= w[i] <= 'Z' || w[i] == '_'
    ensures ProblemCode(JObj(map["code" := JStr(w)])) == w
  {
    StripKeeps(w);
    UpperKeeps(w);
  }

  /**
   * Finding, as written: for `fix_ir({}, [{"code": "MISSING_ARMS"}])` `_ensure_dict` adds
   * `"arms": {}` and the arm type then reads as "none", so the IR changes with no patch logged.
   */
  lemma MissingArmsUnlogged()
    ensures var r := FixAll(map[], [JObj(map["code" := JStr("MISSING_ARMS")])]);
      r.patches == [] && r.ir == map["arms" := JObj(map[])] && r.ir != Replay(map[], r.patches)
  {
    var p := JObj(map["code" := JStr("MISSING_ARMS")]);
    ProblemCodeOfUpperWord("MISSING_ARMS");
    FixAllOne(map[], p);
    MissingArmsOnEmpty();
  }

  /** A single problem with a known code runs that code's rule once on the unpatched IR. */
  lemma FixAllOne(ir: Obj, p: Json)
    requires ProblemCode(p) != "" && KnownCode(ProblemCode(p))
    ensures FixAll(ir, [p]) == CodeFix(Patched(ir, []), ProblemCode(p))
  {
    assert [p][..0] == [];
    assert FixPrefix(CodeFix, ir, []) == (Patched(ir, []), {});
  }

  /** On an empty IR the MISSING_ARMS rule adds an empty `arms` dict and logs nothing. */
  lemma MissingArmsOnEmpty()
    ensures CodeFix(Patched(map[], []), "MISSING_ARMS") == Patched(map["arms" := JObj(map[])], [])
  {
    CanonOfLowerWord("none");
    assert MissingArmsFix(Patched(map[], [])) == Patched(map["arms" := JObj(map[])], []);
  }

  /** `_fix_missing_arms` as intended: read the arms without creating them, so that only logged writes change the IR. */
  function MissingArmsFixLogged(s: Patched): Patched {
    if ArmTypeIsNone(GetOr(Child(s.ir, "arms"), "type", JStr("none"))) then s
    else BoxArms(s)
  }

  /** Where the corrected rule writes, it writes exactly what the original does. */
  lemma MissingArmsLoggedAgrees(s: Patched)
    requires !ArmTypeIsNone(GetOr(Child(s.ir, "arms"), "type", JStr("none")))
    ensures MissingArmsFixLogged(s) == MissingArmsFix(s)
  {
    ArmsPresentWhenTyped(s.ir);
    assert EnsureDict(s.ir, "arms") == (s.ir, Child(s.ir, "arms"));
    assert Patched(s.ir, s.patches) == s;
  }

  /** An arm type other than "none" can only be read from an `arms` dict that is already there. */
  lemma ArmsPresentWhenTyped(ir: Obj)
    requires !ArmTypeIsNone(GetOr(Child(ir, "arms"), "type", JStr("none")))
    ensures "arms" in ir && ir["arms"].JObj?
  {
    if !("arms" in ir && ir["arms"].JObj?) {
      NoneIsNone();
      assert false;
    }
  }

  lemma NoneIsNone()
    ensures ArmTypeIsNone(JStr("none"))
  {
    CanonOfLowerWord("none");
  }

  function CodeFixLogged(s: Patched, code: string): Patched {
    if code == "MISSING_ARMS" then MissingArmsFixLogged(s) else CodeFix(s, code)
  }

  /** `fix_ir` with the corrected `MISSING_ARMS` rule. */
  function FixAllLogged(ir: Obj, problems: seq<Json>): Patched {
    FixPrefix(CodeFixLogged, ir, problems).0
  }

  lemma CodeFixLoggedRecorded(s: Patched, code: string)
    ensures Recorded(s, CodeFixLogged(s, code))
  {
    if code == "INTERSECTION_SLATS_ARMS" {
      IntersectionRecorded(s);
    } else if code == "SLATS_NOT_BENT" {
      SlatsNotBentRecorded(s);
    } else if code == "MISSING_ARMS" && !ArmTypeIsNone(GetOr(Child(s.ir, "arms"), "type", JStr("none"))) {
      SetPatchRecorded(s, WidthPath, JNum(120.0));
      var s1 := SetPatch(s, WidthPath, JNum(120.0)).0;
      SetPatchRecorded(s1, ProfilePath, JStr("box"));
      RecordedTrans(s, s1, SetPatch(s1, ProfilePath, JStr("box")).0);
    } else {
      RecordedRefl(s);
    }
  }

  lemma {:induction false} ApplyCodesLoggedRecorded(s: Patched, codes: seq<string>)
    ensures Recorded(s, ApplyCodes(CodeFixLogged, s, codes))
    decreases |codes|
  {
    if codes == [] {
      RecordedRefl(s);
    } else {
      var mid := ApplyCodes(CodeFixLogged, s, codes[..|codes| - 1]);
      ApplyCodesLoggedRecorded(s, codes[..|codes| - 1]);
      CodeFixLoggedRecorded(mid, codes[|codes| - 1]);
      RecordedTrans(s, mid, ApplyCodes(CodeFixLogged, s, codes));
    }
  }

  /** Corrected: the patch list accounts for every change, replaying it onto the input gives the output. */
  lemma FixAllLoggedReplays(ir: Obj, problems: seq<Json>)
    ensures var r := FixAllLogged(ir, problems);
      r.ir == Replay(ir, r.patches)
  {
    FixPrefixByCodes(CodeFixLogged, ir, problems);
    ApplyCodesLoggedRecorded(Patched(ir, []), HandledCodes(problems));
    assert FixAllLogged(ir, problems).patches[0..] == FixAllLogged(ir, problems).patches;
  }

  // ---------------------------------------------------------------------------------------------
  // The rules as they run: in place on one IR and one patch list
  // ---------------------------------------------------------------------------------------------

  class Fixer {
    var ir: Obj
    var patches: seq<Patch>

    constructor (ir0: Obj)
      ensures ir == ir0 && patches == []
    {
      ir := ir0;
      patches := [];
    }

    function State(): Patched
      reads this
    {
      Patched(ir, patches)
    }

    /** `_ensure_dict(ir, key)`. */
    method EnsureDictAt(key: string) returns (d: Obj)
      modifies this
      ensures (ir, d) == EnsureDict(old(ir), key) && patches == old(patches)
    {
      var r := EnsureDict(ir, key);
      ir := r.0;
      d := r.1;
    }

    /** `_set_patch(ir, path, value, patch_list)`. */
    method SetPatchAt(keys: seq<string>, value: Json) returns (changed: bool)
      modifies this
      ensures (State(), changed) == SetPatch(old(State()), keys, value)
    {
      var r := SetPatch(State(), keys, value);
      ir := r.0.ir;
      patches := r.0.patches;
      changed := r.1;
    }

    /** `_fix_intersection_slats_arms(ir, patch_list)`. */
    method FixIntersectionSlatsArms()
      modifies this
      ensures State() == IntersectionFix(old(State()))
    {
      var slats := EnsureDictAt("slats");
      var changed := SetPatchAt(MarginPath, JNum(OldMargin(slats) + 10.0));
      if changed {
        return;
      }
      var old_count := MaxInt(1, AsInt(GetOr(slats, "count", JNum(14.0)), 14));
      if old_count > 1 {
        changed := SetPatchAt(CountPath, JNum((old_count - 1) as real));
      }
    }

    /** `_fix_slats_not_bent(ir, patch_list)`. */
    method FixSlatsNotBent()
      modifies this
      ensures State() == SlatsNotBentFix(old(State()))
    {
      var slats := EnsureDictAt("slats");
      var old_arc := AsFloat(GetOr(slats, "arc_height_mm", JNum(0.0)), 0.0);
      var new_arc := TargetArc(ir, slats);
      if new_arc > old_arc {
        var _ := SetPatchAt(ArcPath, JNum(new_arc));
      }
    }

    /** `_fix_missing_arms(ir, patch_list)`. */
    method FixMissingArms()
      modifies this
      ensures State() == MissingArmsFix(old(State()))
    {
      var arms := EnsureDictAt("arms");
      if ArmTypeIsNone(GetOr(arms, "type", JStr("none"))) {
        return;
      }
      var _ := SetPatchAt(WidthPath, JNum(120.0));
      var _ := SetPatchAt(ProfilePath, JStr("box"));
    }

    /** The dispatch of `fix_ir` on one code. */
    method FixCode(code: string)
      modifies this
      ensures State() == CodeFix(old(State()), code)
    {
      if code == "INTERSECTION_SLATS_ARMS" {
        FixIntersectionSlatsArms();
      } else if code == "SLATS_NOT_BENT" {
        FixSlatsNotBent();
      } else if code == "MISSING_ARMS" {
        FixMissingArms();
      }
    }
  }

  /** `fix_ir`: a copy of the IR patched once per distinct known code, and the patches logged. */
  method FixIr(ir: Obj, problems: seq<Json>) returns (patched: Obj, patch_list: seq<Patch>)
    ensures Patched(patched, patch_list) == FixAll(ir, problems)
  {
    var fixer := new Fixer(ir);
    var applied: set<string> := {};
    var i := 0;
    assert problems[..0] == [];
    assert FixPrefix(CodeFix, ir, problems[..0]) == (Patched(ir, []), {});
    while i < |problems|
      invariant 0 <= i <= |problems|
      invariant fresh(fixer)
      invariant fixer.State() == FixPrefix(CodeFix, ir, problems[..i]).0
      invariant applied == FixPrefix(CodeFix, ir, problems[..i]).1
    {
      ghost var prev := FixPrefix(CodeFix, ir, problems[..i]);
      ghost var next := FixPrefix(CodeFix, ir, problems[..i + 1]);
      var code := ProblemCode(problems[i]);
      FixPrefixStep(CodeFix, ir, problems, i);
      if code != "" && code !in applied && KnownCode(code) {
        assert next == (CodeFix(prev.0, code), prev.1 + {code});
        fixer.FixCode(code);
        applied := applied + {code};
      } else {
        assert next == prev;
      }
      i := i + 1;
    }
    assert problems[..|problems|] == problems;
    patched := fixer.ir;
    patch_list := fixer.patches;
  }
}
