/** Shared numeric and axis-aligned-box helpers of the builder. */
module GeomUtils {
  import opened Wrappers
  import opened Ir
  import opened Numeric
  import opened PlanTypes

  /** `ir_value(ir, key, default)`: the key's value as a float, or the default when missing or not convertible. */
  function IrValue(ir: Obj, key: string, default: real): (r: real)
    ensures key !in ir ==> r == default
    ensures key in ir && ToFloat(ir[key]).None? ==> r == default
    ensures key in ir && ToFloat(ir[key]).Some? ==> r == ToFloat(ir[key]).value
  {
    match ToFloat(GetOr(ir, key, JNum(default)))
    case Some(x) => x
    case None => default
  }

  /** `clamp(value, lo, hi)` = max(lo, min(hi, value)). */
  function Clamp(value: real, lo: real, hi: real): (r: real)
    ensures lo <= hi ==> lo <= r <= hi
    ensures lo <= value <= hi ==> r == value
    ensures value < lo ==> r == lo
    ensures lo <= hi < value ==> r == hi
  {
    Max(lo, Min(hi, value))
  }

  datatype BBox = BBox(min: Vec3, max: Vec3)

  const ZeroBox := BBox(Origin, Origin)

  predicate WellFormed(b: BBox) {
    b.min.x <= b.max.x && b.min.y <= b.max.y && b.min.z <= b.max.z
  }

  predicate Inside(inner: BBox, outer: BBox) {
    outer.min.x <= inner.min.x && outer.min.y <= inner.min.y && outer.min.z <= inner.min.z &&
    inner.max.x <= outer.max.x && inner.max.y <= outer.max.y && inner.max.z <= outer.max.z
  }

  /** `primitive_bbox_world` on its zero-rotation branch: location ± dimensions / 2. */
  function PrimitiveBBoxWorld(p: Primitive): (b: BBox)
    requires p.rotation_deg == Origin
    ensures b.min.x + b.max.x == 2.0 * p.location_mm.x && b.max.x - b.min.x == p.dimensions_mm.x
    ensures b.min.y + b.max.y == 2.0 * p.location_mm.y && b.max.y - b.min.y == p.dimensions_mm.y
    ensures b.min.z + b.max.z == 2.0 * p.location_mm.z && b.max.z - b.min.z == p.dimensions_mm.z
    ensures p.dimensions_mm.x >= 0.0 && p.dimensions_mm.y >= 0.0 && p.dimensions_mm.z >= 0.0 ==> WellFormed(b)
  {
    var c, h := p.location_mm, Vec3(p.dimensions_mm.x / 2.0, p.dimensions_mm.y / 2.0, p.dimensions_mm.z / 2.0);
    BBox(Vec3(c.x - h.x, c.y - h.y, c.z - h.z), Vec3(c.x + h.x, c.y + h.y, c.z + h.z))
  }

  /** Componentwise min of the mins and max of the maxes. */
  function Hull(a: BBox, b: BBox): (r: BBox)
    ensures Inside(a, r) && Inside(b, r)
  {
    BBox(Vec3(Min(a.min.x, b.min.x), Min(a.min.y, b.min.y), Min(a.min.z, b.min.z)),
         Vec3(Max(a.max.x, b.max.x), Max(a.max.y, b.max.y), Max(a.max.z, b.max.z)))
  }

  /** The left fold of `Hull` over a non-empty list of boxes. */
  function UnionOf(boxes: seq<BBox>): BBox
    requires |boxes| > 0
  {
    if |boxes| == 1 then boxes[0] else Hull(UnionOf(boxes[..|boxes| - 1]), boxes[|boxes| - 1])
  }

  predicate Unrotated(ps: seq<Primitive>) {
    forall i :: 0 <= i < |ps| ==> ps[i].rotation_deg == Origin
  }

  function Boxes(ps: seq<Primitive>): (r: seq<BBox>)
    requires Unrotated(ps)
    ensures |r| == |ps| && forall i :: 0 <= i < |ps| ==> r[i] == PrimitiveBBoxWorld(ps[i])
  {
    seq(|ps|, i requires 0 <= i < |ps| => PrimitiveBBoxWorld(ps[i]))
  }

  /** The union contains every member box. */
  lemma {:induction false} UnionContainsAll(boxes: seq<BBox>, i: nat)
    requires i < |boxes|
    ensures Inside(boxes[i], UnionOf(boxes))
  {
    if |boxes| > 1 && i < |boxes| - 1 {
      UnionContainsAll(boxes[..|boxes| - 1], i);
    }
  }

  /** Every bound of the union is attained by some member: the union is the smallest enclosing box. */
  lemma {:induction false} UnionAttained(boxes: seq<BBox>)
    requires |boxes| > 0
    ensures exists i :: 0 <= i < |boxes| && UnionOf(boxes).min.x == boxes[i].min.x
    ensures exists i :: 0 <= i < |boxes| && UnionOf(boxes).min.y == boxes[i].min.y
    ensures exists i :: 0 <= i < |boxes| && UnionOf(boxes).min.z == boxes[i].min.z
    ensures exists i :: 0 <= i < |boxes| && UnionOf(boxes).max.x == boxes[i].max.x
    ensures exists i :: 0 <= i < |boxes| && UnionOf(boxes).max.y == boxes[i].max.y
    ensures exists i :: 0 <= i < |boxes| && UnionOf(boxes).max.z == boxes[i].max.z
  {
    var n := |boxes|;
    if n > 1 {
      var init := boxes[..n - 1];
      UnionAttained(init);
      assert forall i :: 0 <= i < n - 1 ==> init[i] == boxes[i];
      var u, last := UnionOf(init), boxes[n - 1];
      assert UnionOf(boxes) == Hull(u, last);
      var a :| 0 <= a < n - 1 && u.min.x == init[a].min.x;
      var b :| 0 <= b < n - 1 && u.min.y == init[b].min.y;
      var c :| 0 <= c < n - 1 && u.min.z == init[c].min.z;
      var d :| 0 <= d < n - 1 && u.max.x == init[d].max.x;
      var e :| 0 <= e < n - 1 && u.max.y == init[e].max.y;
      var f :| 0 <= f < n - 1 && u.max.z == init[f].max.z;
    } else {
      assert UnionOf(boxes) == boxes[0];
    }
  }

  /** `primitives_union_bbox`: one pass with running min/max; the all-zero box when empty. */
  method PrimitivesUnionBBox(ps: seq<Primitive>) returns (r: BBox)
    requires Unrotated(ps)
    ensures ps == [] ==> r == ZeroBox
    ensures ps != [] ==> r == UnionOf(Boxes(ps))
  {
    var hasAny := false;
    var acc := ZeroBox;
    var i := 0;
    while i < |ps|
      invariant 0 <= i <= |ps|
      invariant hasAny <==> i > 0
      invariant i > 0 ==> acc == UnionOf(Boxes(ps)[..i])
    {
      var b := PrimitiveBBoxWorld(ps[i]);
      assert Boxes(ps)[..i + 1][..i] == Boxes(ps)[..i];
      if !hasAny {
        acc := b;
      } else {
        acc := Hull(acc, b);
      }
      hasAny := true;
      i := i + 1;
    }
    if !hasAny {
      return ZeroBox;
    }
    assert Boxes(ps)[..|ps|] == Boxes(ps);
    return acc;
  }

  /** The union of a non-empty list of unrotated primitives contains each primitive's box. */
  lemma UnionContainsEveryPrimitive(ps: seq<Primitive>, i: nat)
    requires Unrotated(ps) && i < |ps|
    ensures Inside(PrimitiveBBoxWorld(ps[i]), UnionOf(Boxes(ps)))
  {
    UnionContainsAll(Boxes(ps), i);
  }
}
