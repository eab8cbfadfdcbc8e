/**
 * Stable serialisation of a build plan for regression snapshots: numbers rounded to six
 * decimals, lists converted element by element, dicts converted value by value.
 */
module PlanSnapshot {
  import opened Ir
  import opened Numeric
  import opened PlanTypes

  /** `_round_value`. Booleans are matched before numbers; strings and None pass through. */
  function RoundValue(v: Json): (r: Json)
    decreases v
  {
    match v
    case JBool(_) => v
    case JNum(n) => JNum(Round6(n))
    case JArr(items) => JArr(seq(|items|, i requires 0 <= i < |items| => RoundValue(items[i])))
    case JObj(m) => JObj(map k | k in m :: RoundValue(m[k]))
    case _ => v
  }

  /**
   * Rounding keeps every value's kind, a list's length and a dict's keys; booleans and text are
   * untouched and each number moves by at most half a millionth.
   */
  lemma RoundValueShape(v: Json)
    ensures v.JBool? || v.JStr? || v.JNull? ==> RoundValue(v) == v
    ensures v.JNum? ==> RoundValue(v).JNum? && -0.5 / Micro <= RoundValue(v).n - v.n <= 0.5 / Micro
    ensures v.JArr? ==> (RoundValue(v).JArr? && |RoundValue(v).items| == |v.items| &&
                         forall i :: 0 <= i < |v.items| ==> RoundValue(v).items[i] == RoundValue(v.items[i]))
    ensures v.JObj? ==> (RoundValue(v).JObj? && RoundValue(v).fields.Keys == v.fields.Keys &&
                         forall k :: k in v.fields ==> RoundValue(v).fields[k] == RoundValue(v.fields[k]))
  {
  }

  /** An integer is its own Python `round`. */
  lemma RoundHalfEvenOfInt(k: int)
    ensures RoundHalfEven(k as real) == k
  {
    assert (k as real).Floor == k;
  }

  /** A number already rounded to six decimals rounds to itself. */
  lemma {:induction false} Round6Idempotent(x: real)
    ensures Round6(Round6(x)) == Round6(x)
  {
    var k := RoundHalfEven(x * Micro);
    assert Round6(x) == k as real / Micro;
    assert Round6(x) * Micro == k as real;
    RoundHalfEvenOfInt(k);
  }

  /** Snapshots are stable: rounding an already rounded value changes nothing. */
  lemma {:induction false} RoundValueIdempotent(v: Json)
    ensures RoundValue(RoundValue(v)) == RoundValue(v)
    decreases v
  {
    match v
    case JBool(_) =>
    case JNum(n) => Round6Idempotent(n);
    case JArr(items) =>
      var once := RoundValue(v).items;
      forall i | 0 <= i < |items| ensures RoundValue(once[i]) == once[i] {
        RoundValueIdempotent(items[i]);
      }
      assert RoundValue(RoundValue(v)).items == once;
    case JObj(m) =>
      var once := RoundValue(v).fields;
      forall k | k in m ensures RoundValue(once[k]) == once[k] {
        RoundValueIdempotent(m[k]);
      }
      assert RoundValue(RoundValue(v)).fields == once;
    case _ =>
  }

  /** A coordinate triple as the tuple `_round_value` receives. */
  function VecJson(v: Vec3): Json { JArr([JNum(v.x), JNum(v.y), JNum(v.z)]) }

  /** The rounded triple. */
  function RoundedVec(v: Vec3): (r: Json)
    ensures r == JArr([JNum(Round6(v.x)), JNum(Round6(v.y)), JNum(Round6(v.z))])
  {
    var items := VecJson(v).items;
    var r := RoundValue(VecJson(v));
    assert r.items[0] == RoundValue(items[0]) && r.items[1] == RoundValue(items[1]) && r.items[2] == RoundValue(items[2]);
    assert r.items == [JNum(Round6(v.x)), JNum(Round6(v.y)), JNum(Round6(v.z))];
    r
  }

  /** The snapshot entry of one primitive; a `Primitive` always has rotation and params. */
  function PrimitiveEntry(p: Primitive): Json {
    JObj(map[
      "name" := JStr(p.name),
      "shape" := JStr(p.shape),
      "dimensions_mm" := RoundedVec(p.dimensions_mm),
      "location_mm" := RoundedVec(p.location_mm),
      "rotation_deg" := RoundedVec(p.rotation_deg),
      "params" := RoundValue(JObj(p.params))])
  }

  function AnchorEntry(a: Anchor): Json {
    JObj(map["name" := JStr(a.name), "location_mm" := RoundedVec(a.location_mm)])
  }

  function PrimitiveEntries(ps: seq<Primitive>): (r: seq<Json>)
    ensures |r| == |ps| && forall i :: 0 <= i < |ps| ==> r[i] == PrimitiveEntry(ps[i])
  {
    seq(|ps|, i requires 0 <= i < |ps| => PrimitiveEntry(ps[i]))
  }

  function AnchorEntries(anchors: seq<Anchor>): (r: seq<Json>)
    ensures |r| == |anchors| && forall i :: 0 <= i < |anchors| ==> r[i] == AnchorEntry(anchors[i])
  {
    seq(|anchors|, i requires 0 <= i < |anchors| => AnchorEntry(anchors[i]))
  }

  /** The snapshot of a plan with these primitives and anchors; the metadata has no part in it. */
  function Snapshot(ps: seq<Primitive>, anchors: seq<Anchor>): Json {
    JObj(map["primitives" := JArr(PrimitiveEntries(ps)), "anchors" := JArr(AnchorEntries(anchors))])
  }

  /** `plan_to_snapshot`: one loop over the primitives, one over the anchors. */
  method PlanToSnapshot(plan: BuildPlan) returns (snap: Json)
    ensures snap == Snapshot(plan.primitives, plan.anchors)
  {
    var primitives: seq<Json> := [];
    var i := 0;
    while i < |plan.primitives|
      invariant 0 <= i <= |plan.primitives|
      invariant |primitives| == i && forall k :: 0 <= k < i ==> primitives[k] == PrimitiveEntry(plan.primitives[k])
    {
      var p := plan.primitives[i];
      var item := map[
        "name" := JStr(p.name),
        "shape" := JStr(p.shape),
        "dimensions_mm" := RoundValue(VecJson(p.dimensions_mm)),
        "location_mm" := RoundValue(VecJson(p.location_mm))];
      item := item["rotation_deg" := RoundValue(VecJson(p.rotation_deg))];
      item := item["params" := RoundValue(JObj(p.params))];
      assert JObj(item) == PrimitiveEntry(p);
      primitives := primitives + [JObj(item)];
      i := i + 1;
    }
    var anchors: seq<Json> := [];
    var j := 0;
    while j < |plan.anchors|
      invariant 0 <= j <= |plan.anchors|
      invariant |anchors| == j && forall k :: 0 <= k < j ==> anchors[k] == AnchorEntry(plan.anchors[k])
    {
      var a := plan.anchors[j];
      anchors := anchors + [JObj(map["name" := JStr(a.name), "location_mm" := RoundValue(VecJson(a.location_mm))])];
      j := j + 1;
    }
    assert primitives == PrimitiveEntries(plan.primitives);
    assert anchors == AnchorEntries(plan.anchors);
    snap := JObj(map["primitives" := JArr(primitives), "anchors" := JArr(anchors)]);
  }

  /**
   * The snapshot has exactly the keys "primitives" and "anchors", one entry per primitive and per
   * anchor in plan order, names and shapes unchanged and coordinates rounded to six decimals.
   */
  lemma SnapshotEntries(ps: seq<Primitive>, anchors: seq<Anchor>, i: nat, j: nat)
    ensures var s := Snapshot(ps, anchors);
      s.fields.Keys == {"primitives", "anchors"} &&
      |s.fields["primitives"].items| == |ps| && |s.fields["anchors"].items| == |anchors|
    ensures i < |ps| ==> var e := Snapshot(ps, anchors).fields["primitives"].items[i].fields;
      e.Keys == {"name", "shape", "dimensions_mm", "location_mm", "rotation_deg", "params"} &&
      e["name"] == JStr(ps[i].name) && e["shape"] == JStr(ps[i].shape) &&
      e["location_mm"] == JArr([JNum(Round6(ps[i].location_mm.x)), JNum(Round6(ps[i].location_mm.y)),
                                JNum(Round6(ps[i].location_mm.z))])
    ensures j < |anchors| ==> var e := Snapshot(ps, anchors).fields["anchors"].items[j].fields;
      e.Keys == {"name", "location_mm"} && e["name"] == JStr(anchors[j].name)
  {
  }

  /** Taking the snapshot of a snapshot's numbers again changes nothing. */
  lemma SnapshotStable(ps: seq<Primitive>, anchors: seq<Anchor>)
    ensures RoundValue(Snapshot(ps, anchors)) == Snapshot(ps, anchors)
  {
    var s := Snapshot(ps, anchors);
    var pe, ae := JArr(PrimitiveEntries(ps)), JArr(AnchorEntries(anchors));
    assert s.fields["primitives"] == pe && s.fields["anchors"] == ae;
    forall i | 0 <= i < |pe.items| ensures RoundValue(pe.items[i]) == pe.items[i] {
      PrimitiveEntryStable(ps[i]);
    }
    assert RoundValue(pe) == pe;
    forall j | 0 <= j < |ae.items| ensures RoundValue(ae.items[j]) == ae.items[j] {
      AnchorEntryStable(anchors[j]);
    }
    assert RoundValue(ae) == ae;
    assert RoundValue(s).fields == s.fields;
  }

  lemma RoundedVecStable(v: Vec3)
    ensures RoundValue(RoundedVec(v)) == RoundedVec(v)
  {
    RoundValueIdempotent(VecJson(v));
  }

  lemma PrimitiveEntryStable(p: Primitive)
    ensures RoundValue(PrimitiveEntry(p)) == PrimitiveEntry(p)
  {
    RoundedVecStable(p.dimensions_mm);
    RoundedVecStable(p.location_mm);
    RoundedVecStable(p.rotation_deg);
    RoundValueIdempotent(JObj(p.params));
    assert RoundValue(PrimitiveEntry(p)).fields == PrimitiveEntry(p).fields;
  }

  lemma AnchorEntryStable(a: Anchor)
    ensures RoundValue(AnchorEntry(a)) == AnchorEntry(a)
  {
    RoundedVecStable(a.location_mm);
    assert RoundValue(AnchorEntry(a)).fields == AnchorEntry(a).fields;
  }
}
