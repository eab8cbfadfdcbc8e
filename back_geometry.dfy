/**
 * The placement arithmetic of the back builder, shared by `back.py` and the
 * `back_strategies` package: centres along an axis, the split-centre windows,
 * the horizontal row count and the inner rectangle between the back rails.
 */
module BackGeometry {
  import opened Wrappers
  import opened Numeric

  /** `n` values from `start`, `step` apart. */
  function Spread(start: real, step: real, n: nat): (r: seq<real>)
    ensures |r| == n
    ensures forall i :: 0 <= i < n ==> r[i] == start + step * i as real
  {
    seq(n, i requires 0 <= i => start + step * i as real)
  }

  lemma MulMonotone(step: real, i: int, j: int)
    requires step >= 0.0 && i <= j
    ensures step * i as real <= step * j as real
  {
    assert step * j as real - step * i as real == step * (j - i) as real;
    MulNonNegative(step, (j - i) as real);
  }

  /** A spread with a non-negative step is ascending. */
  lemma SpreadAscending(start: real, step: real, n: nat, i: int, j: int)
    requires step >= 0.0 && 0 <= i <= j < n
    ensures Spread(start, step, n)[i] <= Spread(start, step, n)[j]
  {
    MulMonotone(step, i, j);
  }

  /** Neighbours in a spread are `step` apart. */
  lemma SpreadStep(start: real, step: real, n: nat, i: int)
    requires 0 <= i < n - 1
    ensures Spread(start, step, n)[i + 1] - Spread(start, step, n)[i] == step
  {
    assert step * (i + 1) as real == step * i as real + step;
  }

  /** Total length of `count` items of `item` with `gap` between neighbours. */
  function Packed(count: int, item: real, gap: real): real {
    item * count as real + gap * (count - 1) as real
  }

  /** The packed branch of `_centers_for_range` applies: a positive gap and a pack that fits the span. */
  predicate PackedFits(span: real, count: int, item: real, gap: Option<real>) {
    gap.Some? && gap.value > 0.0 && Packed(count, item, gap.value) <= span
  }

  /** `_centers_for_range`: `count` item centres over the range between the two endpoints. */
  function CentersForRange(axis_min: real, axis_max: real, count: int, item_size: real, gap: Option<real>): (cs: seq<real>)
    ensures count <= 0 ==> cs == []
    ensures count >= 1 ==> |cs| == count
    ensures count == 1 ==> cs == [0.5 * (axis_min + axis_max)]
  {
    if count <= 0 then []
    else
      var lo := Min(axis_min, axis_max);
      var hi := Max(axis_min, axis_max);
      if count == 1 then [0.5 * (lo + hi)]
      else
        var item := Max(1.0, item_size);
        var span := Max(0.0, hi - lo);
        if PackedFits(span, count, item, gap) then
          Spread(lo + (span - Packed(count, item, gap.value)) / 2.0 + item / 2.0, item + gap.value, count)
        else
          Spread(lo + item / 2.0, Max(0.0, span - item) / (count - 1) as real, count)
  }

  /** The centres do not depend on the order the endpoints are given in. */
  lemma CentersOrderIndependent(a: real, b: real, count: int, item_size: real, gap: Option<real>)
    ensures CentersForRange(a, b, count, item_size, gap) == CentersForRange(b, a, count, item_size, gap)
  {
    assert Min(a, b) == Min(b, a) && Max(a, b) == Max(b, a);
  }

  /** Centres are in ascending order. */
  lemma {:induction false} CentersAscending(a: real, b: real, count: int, item_size: real, gap: Option<real>, i: int, j: int)
    requires 0 <= i <= j < count
    ensures CentersForRange(a, b, count, item_size, gap)[i] <= CentersForRange(a, b, count, item_size, gap)[j]
  {
    if count >= 2 {
      var lo, hi := Min(a, b), Max(a, b);
      var item := Max(1.0, item_size);
      var span := Max(0.0, hi - lo);
      if PackedFits(span, count, item, gap) {
        SpreadAscending(lo + (span - Packed(count, item, gap.value)) / 2.0 + item / 2.0, item + gap.value, count, i, j);
      } else {
        SpreadAscending(lo + item / 2.0, Max(0.0, span - item) / (count - 1) as real, count, i, j);
      }
    }
  }

  /** The last packed centre plus half an item ends as far from the high end as the pack starts from the low end. */
  lemma PackedEnd(lo: real, span: real, item: real, gap: real, count: int)
    requires count >= 1
    ensures var p := Packed(count, item, gap);
      (lo + (span - p) / 2.0 + item / 2.0 + (item + gap) * (count - 1) as real) + item / 2.0 == lo + (span + p) / 2.0
  {
    var m := (count - 1) as real;
    assert (item + gap) * m == item * m + gap * m;
    assert item * count as real == item * m + item;
  }

  /** With a positive gap and a pack that fits, neighbours are item + gap apart and the pack is centred in the range. */
  lemma {:induction false} CentersPacked(a: real, b: real, count: int, item_size: real, gap: real)
    requires count >= 2
    requires PackedFits(Max(a, b) - Min(a, b), count, Max(1.0, item_size), Some(gap))
    ensures var cs := CentersForRange(a, b, count, item_size, Some(gap)); var item := Max(1.0, item_size);
      (forall i :: 0 <= i < count - 1 ==> cs[i + 1] - cs[i] == item + gap) &&
      (cs[0] - item / 2.0) - Min(a, b) == Max(a, b) - (cs[count - 1] + item / 2.0)
  {
    var cs := CentersForRange(a, b, count, item_size, Some(gap));
    var lo, hi := Min(a, b), Max(a, b);
    var item := Max(1.0, item_size);
    var span := hi - lo;
    var start := lo + (span - Packed(count, item, gap)) / 2.0 + item / 2.0;
    forall i | 0 <= i < count - 1 ensures cs[i + 1] - cs[i] == item + gap {
      SpreadStep(start, item + gap, count, i);
    }
    PackedEnd(lo, span, item, gap, count);
  }

  /** Without a fitting pack, the first centre is half an item in from the low end and the last is half an item in from the high end (or at the first when the item is wider than the range). */
  lemma {:induction false} CentersSpread(a: real, b: real, count: int, item_size: real, gap: Option<real>)
    requires count >= 2
    requires !PackedFits(Max(a, b) - Min(a, b), count, Max(1.0, item_size), gap)
    ensures var cs := CentersForRange(a, b, count, item_size, gap); var item := Max(1.0, item_size);
      cs[0] == Min(a, b) + item / 2.0 &&
      cs[count - 1] == Min(a, b) + item / 2.0 + Max(0.0, Max(a, b) - Min(a, b) - item)
  {
    var cs := CentersForRange(a, b, count, item_size, gap);
    var lo, hi := Min(a, b), Max(a, b);
    var item := Max(1.0, item_size);
    var span := Max(0.0, hi - lo);
    assert span == hi - lo;
    var step := Max(0.0, span - item) / (count - 1) as real;
    assert cs[count - 1] == lo + item / 2.0 + step * (count - 1) as real;
    assert step * (count - 1) as real == Max(0.0, span - item);
  }

  /** When the range is at least one item long, every item lies inside the range. */
  lemma {:induction false} CentersWithin(a: real, b: real, count: int, item_size: real, gap: Option<real>, i: int)
    requires 0 <= i < count
    requires Max(a, b) - Min(a, b) >= Max(1.0, item_size)
    ensures var c := CentersForRange(a, b, count, item_size, gap)[i]; var item := Max(1.0, item_size);
      Min(a, b) + item / 2.0 <= c <= Max(a, b) - item / 2.0
  {
    var cs := CentersForRange(a, b, count, item_size, gap);
    var lo, hi := Min(a, b), Max(a, b);
    var item := Max(1.0, item_size);
    if count >= 2 {
      var span := Max(0.0, hi - lo);
      assert span == hi - lo;
      CentersAscending(a, b, count, item_size, gap, 0, i);
      CentersAscending(a, b, count, item_size, gap, i, count - 1);
      if PackedFits(span, count, item, gap) {
        CentersPacked(a, b, count, item_size, gap.value);
        assert cs[0] == lo + (span - Packed(count, item, gap.value)) / 2.0 + item / 2.0;
      } else {
        CentersSpread(a, b, count, item_size, gap);
      }
    }
  }

  /** One horizontal slat window: "left", "right" or "full", with its x extent. */
  datatype Segment = Segment(name: string, min_x: real, max_x: real)

  /** The left and right windows that are at least 1 mm wide. */
  function SplitSegments(inner_min_x: real, inner_max_x: real, half: real): seq<Segment> {
    var left := Segment("left", inner_min_x, Min(inner_max_x, -half));
    var right := Segment("right", Max(inner_min_x, half), inner_max_x);
    (if Max(0.0, left.max_x - left.min_x) >= 1.0 then [left] else []) +
    (if Max(0.0, right.max_x - right.min_x) >= 1.0 then [right] else [])
  }

  /** The segment list of `build_back_horizontal_slats`: split windows when asked for and wide enough, else one full segment. */
  function Segments(split: bool, inner_min_x: real, inner_max_x: real, half: real): (segs: seq<Segment>)
    ensures 1 <= |segs| <= 2
    ensures forall k :: 0 <= k < |segs| ==> segs[k].name in {"full", "left", "right"}
    ensures segs[0].name == "full" <==> (!split || SplitSegments(inner_min_x, inner_max_x, half) == [])
    ensures segs[0].name == "full" ==> segs == [Segment("full", inner_min_x, inner_max_x)]
    ensures forall k :: 0 <= k < |segs| && segs[k].name == "left" ==>
      k == 0 && segs[k].min_x == inner_min_x && segs[k].max_x <= -half && segs[k].max_x - segs[k].min_x >= 1.0
    ensures forall k :: 0 <= k < |segs| && segs[k].name == "right" ==>
      k == |segs| - 1 && segs[k].max_x == inner_max_x && segs[k].min_x >= half && segs[k].max_x - segs[k].min_x >= 1.0
  {
    var s := if split then SplitSegments(inner_min_x, inner_max_x, half) else [];
    if s == [] then [Segment("full", inner_min_x, inner_max_x)] else s
  }

  const DefaultRowGap: real := 35.0
  const PackTolerance: real := 0.000001

  /** The row gap: the explicit gap when one is set and positive, else 35 mm. */
  function RowGap(has_gap: bool, gap: real): (g: real)
    ensures g > 0.0
    ensures has_gap && gap > 0.0 ==> g == gap
    ensures !(has_gap && gap > 0.0) ==> g == DefaultRowGap
  {
    if has_gap && gap > 0.0 then gap else DefaultRowGap
  }

  /** How many rows fit: floor((inner height + gap) / (row height + gap)), 2 when that step is not positive. */
  function RowsThatFit(inner_h: real, row_h: real, row_gap: real): int {
    var denom := row_h + row_gap;
    if denom > 0.0 then ((inner_h + row_gap) / denom).Floor else 2
  }

  /** The effective horizontal row count of `build_back_horizontal_slats`. */
  function RowCount(count: int, row_h: real, row_gap: real, inner_bottom_z: real, inner_top_z: real): (n: int)
    ensures n >= 1
    ensures var eff := MaxInt(1, count); var inner_h := Max(1.0, inner_top_z - inner_bottom_z);
      (Packed(eff, row_h, row_gap) <= inner_h + PackTolerance ==> n == eff) &&
      (Packed(eff, row_h, row_gap) > inner_h + PackTolerance ==> 2 <= n <= MaxInt(2, eff))
  {
    var eff := MaxInt(1, count);
    var inner_h := Max(1.0, inner_top_z - inner_bottom_z);
    if Packed(eff, row_h, row_gap) > inner_h + PackTolerance then
      MaxInt(2, MinInt(eff, MaxInt(2, RowsThatFit(inner_h, row_h, row_gap))))
    else eff
  }

  /** A reduced row count is 2, or a count whose rows and gaps fit the inner height. */
  lemma {:induction false} RowCountFits(count: int, row_h: real, row_gap: real, inner_bottom_z: real, inner_top_z: real)
    requires row_h + row_gap > 0.0
    ensures var n := RowCount(count, row_h, row_gap, inner_bottom_z, inner_top_z);
      n == 2 || Packed(n, row_h, row_gap) <= Max(1.0, inner_top_z - inner_bottom_z) + PackTolerance
  {
    var n := RowCount(count, row_h, row_gap, inner_bottom_z, inner_top_z);
    var eff := MaxInt(1, count);
    var inner_h := Max(1.0, inner_top_z - inner_bottom_z);
    if Packed(eff, row_h, row_gap) > inner_h + PackTolerance && n != 2 {
      var denom := row_h + row_gap;
      var x := (inner_h + row_gap) / denom;
      var fit := RowsThatFit(inner_h, row_h, row_gap);
      assert fit == x.Floor;
      assert n <= fit;
      assert n as real <= x;
      assert x * denom == inner_h + row_gap;
      MulNonNegative(x - n as real, denom);
      assert n as real * denom <= inner_h + row_gap;
      assert Packed(n, row_h, row_gap) == n as real * denom - row_gap;
    }
  }

  /** The slat area between the rails: margins are dropped when they leave no room, and a still-empty height becomes 1 mm. */
  datatype InnerRect = InnerRect(min_x: real, max_x: real, bottom_z: real, top_z: real)

  function InnerRectangle(frame_min_x: real, frame_max_x: real, frame_bottom_z: real, frame_top_z: real,
                          inset_x: real, inset_z: real, margin_x: real, margin_z: real): (r: InnerRect)
    ensures r.top_z > r.bottom_z
    ensures frame_max_x - inset_x - margin_x > frame_min_x + inset_x + margin_x ==>
      r.min_x == frame_min_x + inset_x + margin_x && r.max_x == frame_max_x - inset_x - margin_x
    ensures frame_top_z - inset_z - margin_z > frame_bottom_z + inset_z + margin_z ==>
      r.bottom_z == frame_bottom_z + inset_z + margin_z && r.top_z == frame_top_z - inset_z - margin_z
  {
    var min_x0, max_x0 := frame_min_x + inset_x + margin_x, frame_max_x - inset_x - margin_x;
    var drop_x := max_x0 <= min_x0;
    var min_x := if drop_x then frame_min_x + inset_x else min_x0;
    var max_x := if drop_x then frame_max_x - inset_x else max_x0;
    var bottom0, top0 := frame_bottom_z + inset_z + margin_z, frame_top_z - inset_z - margin_z;
    var drop_z := top0 <= bottom0;
    var bottom1 := if drop_z then frame_bottom_z + inset_z else bottom0;
    var top1 := if drop_z then frame_top_z - inset_z else top0;
    var top2 := if top1 <= bottom1 then bottom1 + 1.0 else top1;
    InnerRect(min_x, max_x, bottom1, top2)
  }

  /** With non-negative margins the rectangle stays inside the frame opening shrunk by the insets, except for the 1 mm height fallback. */
  lemma InnerRectInsideFrame(frame_min_x: real, frame_max_x: real, frame_bottom_z: real, frame_top_z: real,
                             inset_x: real, inset_z: real, margin_x: real, margin_z: real)
    requires margin_x >= 0.0 && margin_z >= 0.0
    ensures var r := InnerRectangle(frame_min_x, frame_max_x, frame_bottom_z, frame_top_z, inset_x, inset_z, margin_x, margin_z);
      r.min_x >= frame_min_x + inset_x && r.max_x <= frame_max_x - inset_x &&
      r.bottom_z >= frame_bottom_z + inset_z &&
      (frame_top_z - inset_z > frame_bottom_z + inset_z ==> r.top_z <= frame_top_z - inset_z)
  {
  }

  /** Half-width of the central no-slat zone: at least half the post plus 2 mm. */
  function CenterSplitHalf(center_gap_half_x: real, center_post_width: real, center_gap: real): (h: real)
    ensures h >= center_gap_half_x
    ensures h >= center_post_width / 2.0 + 2.0
    ensures h >= center_post_width / 2.0 + center_gap
  {
    Max(center_gap_half_x, center_post_width / 2.0 + Max(2.0, Max(0.0, center_gap)))
  }

  /** How far the slats sit in front of the frame centre plane: between 0 and 2 mm. */
  function SlatInsetY(rail_depth: real, slat_thickness: real): (r: real)
    ensures 0.0 <= r <= 2.0
    ensures r == 2.0 || r == 0.0 || r == (rail_depth - slat_thickness) / 2.0 - 0.5
  {
    Min(2.0, Max(0.0, (rail_depth - slat_thickness) / 2.0 - 0.5))
  }

  /** Slats are split around the centre iff the frame is split_2 or the slat layout asks for it. */
  predicate SplitCenterLayout(frame_layout: string, slat_layout: string) {
    frame_layout == "split_2" || slat_layout == "split_center"
  }

  /** The vertical slat x centres of `build_back_vertical_slats`. */
  function VerticalCenters(split: bool, inner_min_x: real, inner_max_x: real, half: real, count: int, width: real): (xs: seq<real>)
    ensures |xs| == MaxInt(1, count)
  {
    var n := MaxInt(1, count);
    if split then
      var left_min, left_max := inner_min_x, Min(inner_max_x, -half);
      var right_min, right_max := Max(inner_min_x, half), inner_max_x;
      var left_valid := left_max - left_min >= 1.0;
      var right_valid := right_max - right_min >= 1.0;
      if !left_valid && !right_valid then CentersForRange(inner_min_x, inner_max_x, n, width, None)
      else if !left_valid then CentersForRange(right_min, right_max, n, width, None)
      else if !right_valid then CentersForRange(left_min, left_max, n, width, None)
      else CentersForRange(left_min, left_max, (n + 1) / 2, width, None) +
           CentersForRange(right_min, right_max, n / 2, width, None)
    else CentersForRange(inner_min_x, inner_max_x, n, width, None)
  }

  /**
   * Split vertical slats with both windows usable: the first ceil(n/2) lie left of -half and the
   * remaining floor(n/2) right of +half, provided each window is at least one slat wide.
   */
  lemma {:induction false} VerticalSplitBoth(inner_min_x: real, inner_max_x: real, half: real, count: int, width: real)
    requires Min(inner_max_x, -half) - inner_min_x >= Max(1.0, width)
    requires inner_max_x - Max(inner_min_x, half) >= Max(1.0, width)
    ensures var xs := VerticalCenters(true, inner_min_x, inner_max_x, half, count, width); var n := MaxInt(1, count);
      (n + 1) / 2 + n / 2 == n &&
      (forall i :: 0 <= i < (n + 1) / 2 ==> xs[i] + width / 2.0 <= -half) &&
      (forall i :: (n + 1) / 2 <= i < n ==> xs[i] - width / 2.0 >= half)
  {
    var xs := VerticalCenters(true, inner_min_x, inner_max_x, half, count, width);
    var n := MaxInt(1, count);
    var lmin, lmax := inner_min_x, Min(inner_max_x, -half);
    var rmin, rmax := Max(inner_min_x, half), inner_max_x;
    var ls := CentersForRange(lmin, lmax, (n + 1) / 2, width, None);
    var rs := CentersForRange(rmin, rmax, n / 2, width, None);
    assert xs == ls + rs;
    forall i | 0 <= i < (n + 1) / 2 ensures xs[i] + width / 2.0 <= -half {
      CentersWithin(lmin, lmax, (n + 1) / 2, width, None, i);
      assert xs[i] == ls[i];
    }
    forall i | (n + 1) / 2 <= i < n ensures xs[i] - width / 2.0 >= half {
      CentersWithin(rmin, rmax, n / 2, width, None, i - (n + 1) / 2);
      assert xs[i] == rs[i - (n + 1) / 2];
    }
  }

  /** With only the left window usable, all n slats go into it, left of -half. */
  lemma {:induction false} VerticalSplitLeftOnly(inner_min_x: real, inner_max_x: real, half: real, count: int, width: real)
    requires Min(inner_max_x, -half) - inner_min_x >= Max(1.0, width)
    requires inner_max_x - Max(inner_min_x, half) < 1.0
    ensures var xs := VerticalCenters(true, inner_min_x, inner_max_x, half, count, width);
      forall i :: 0 <= i < |xs| ==> xs[i] + width / 2.0 <= -half
  {
    var xs := VerticalCenters(true, inner_min_x, inner_max_x, half, count, width);
    forall i | 0 <= i < |xs| ensures xs[i] + width / 2.0 <= -half {
      CentersWithin(inner_min_x, Min(inner_max_x, -half), MaxInt(1, count), width, None, i);
    }
  }

  /** With only the right window usable, all n slats go into it, right of +half. */
  lemma {:induction false} VerticalSplitRightOnly(inner_min_x: real, inner_max_x: real, half: real, count: int, width: real)
    requires Min(inner_max_x, -half) - inner_min_x < 1.0
    requires inner_max_x - Max(inner_min_x, half) >= Max(1.0, width)
    ensures var xs := VerticalCenters(true, inner_min_x, inner_max_x, half, count, width);
      forall i :: 0 <= i < |xs| ==> xs[i] - width / 2.0 >= half
  {
    var xs := VerticalCenters(true, inner_min_x, inner_max_x, half, count, width);
    forall i | 0 <= i < |xs| ensures xs[i] - width / 2.0 >= half {
      CentersWithin(Max(inner_min_x, half), inner_max_x, MaxInt(1, count), width, None, i);
    }
  }
}
