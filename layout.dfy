/** `compute_layout`: seat footprint, overall width and the vertical stack of the seat frame. */
module Layout {
  import opened Ir
  import opened Text
  import opened Numeric
  import opened SpecTypes
  import opened GeomUtils

  datatype Layout = Layout(
    seat_count: int,
    seat_width_mm: real,
    seat_depth_mm: real,
    seat_height_mm: real,
    seat_total_width_mm: real,
    total_width_mm: real,
    frame_thickness_mm: real,
    seat_min_x: real,
    seat_max_x: real,
    seat_min_y: real,
    seat_max_y: real,
    seat_top_z: real,
    floor_z: real,
    seat_support_center_z: real,
    seat_support_top_z: real,
    base_frame_top_z: real,
    base_frame_center_z: real,
    back_base_y: real,
    back_plane_y: real)

  const ArmsTypes: set<string> := {"left", "right", "both", "none"}

  /** `_canon_arms_type`: trimmed, lower-cased arms type if known, else "none". */
  function CanonArmsType(value: string): (r: string)
    ensures r in ArmsTypes
    ensures Canon(value) in ArmsTypes ==> r == Canon(value)
    ensures Canon(value) !in ArmsTypes ==> r == "none"
  {
    var normalized := Canon(value);
    if normalized in ArmsTypes then normalized else "none"
  }

  /** `_canon_arms_type` on any IR value: a known type, trimmed and lower-cased; "none" for anything else, non-strings included. */
  function CanonArmsTypeOf(value: Json): (r: string)
    ensures r in ArmsTypes
    ensures !value.JStr? ==> r == "none"
    ensures value.JStr? && Canon(value.s) in ArmsTypes ==> r == Canon(value.s)
    ensures value.JStr? && Canon(value.s) !in ArmsTypes ==> r == "none"
  {
    if value.JStr? then CanonArmsType(value.s) else "none"
  }

  /** `_arms_count`: how many arms a canonical type builds. */
  function ArmsCount(arms_type: string): (n: nat)
    ensures n <= 2
    ensures n == 2 <==> arms_type == "both"
    ensures n == 1 <==> arms_type in {"left", "right"}
  {
    if arms_type == "both" then 2 else if arms_type in {"left", "right"} then 1 else 0
  }

  /** The layout record built from the already-read numbers (the `Layout(...)` call). */
  function MakeLayout(seat_count: int, seat_width: real, seat_depth: real, seat_height: real,
                      t: real, arms_total: real): (l: Layout)
    ensures l.seat_count == seat_count && l.seat_width_mm == seat_width
    ensures l.seat_depth_mm == seat_depth && l.frame_thickness_mm == t
    ensures l.seat_total_width_mm == seat_width * seat_count as real
    ensures l.total_width_mm == l.seat_total_width_mm + arms_total
    ensures l.seat_top_z == l.seat_support_top_z == l.seat_height_mm == seat_height && l.floor_z == 0.0
    ensures t > 0.0 ==>
      l.seat_support_top_z > l.seat_support_center_z > l.base_frame_top_z > l.base_frame_center_z
    ensures l.seat_support_top_z - l.base_frame_top_z == t
    ensures l.seat_support_top_z - l.seat_support_center_z == t / 2.0
    ensures l.base_frame_top_z - l.base_frame_center_z == t / 2.0
    ensures l.seat_min_x == -l.seat_max_x && l.seat_max_x - l.seat_min_x == l.seat_total_width_mm
    ensures l.seat_min_y == -l.seat_max_y && l.seat_max_y - l.seat_min_y == seat_depth
    ensures l.back_base_y == l.seat_min_y && l.back_plane_y - l.back_base_y == t / 2.0
  {
    var seat_total := seat_width * seat_count as real;
    var support_top := seat_height;
    var base_top := support_top - t;
    var min_y := -(seat_depth / 2.0);
    Layout(
      seat_count := seat_count,
      seat_width_mm := seat_width,
      seat_depth_mm := seat_depth,
      seat_height_mm := seat_height,
      seat_total_width_mm := seat_total,
      total_width_mm := seat_total + arms_total,
      frame_thickness_mm := t,
      seat_min_x := -(seat_total / 2.0),
      seat_max_x := seat_total / 2.0,
      seat_min_y := min_y,
      seat_max_y := seat_depth / 2.0,
      seat_top_z := support_top,
      floor_z := 0.0,
      seat_support_center_z := support_top - t / 2.0,
      seat_support_top_z := support_top,
      base_frame_top_z := base_top,
      base_frame_center_z := base_top - t / 2.0,
      back_base_y := min_y,
      back_plane_y := min_y + t / 2.0)
  }

  /** `compute_layout(ir, spec)`. */
  function ComputeLayout(ir: Obj, spec: ResolvedSpec): (l: Layout)
    ensures l.seat_count >= 1
    ensures l.seat_count == MaxInt(1, Trunc(IrValue(ir, "seat_count", 3.0)))
    ensures l.seat_width_mm == IrValue(ir, "seat_width_mm", 600.0)
    ensures l.seat_depth_mm == IrValue(ir, "seat_depth_mm", 600.0)
    ensures l.seat_height_mm == IrValue(ir, "seat_height_mm", 440.0)
    ensures l.frame_thickness_mm == IrValue(SubObj(ir, "frame"), "thickness_mm", 35.0)
    ensures l.total_width_mm ==
      l.seat_total_width_mm + Max(0.0, spec.arms.width_mm) * ArmsCount(CanonArmsType(spec.arms.arms_type)) as real
    ensures l == MakeLayout(l.seat_count, l.seat_width_mm, l.seat_depth_mm, l.seat_height_mm, l.frame_thickness_mm,
                            l.total_width_mm - l.seat_total_width_mm)
  {
    var count := MaxInt(1, Trunc(IrValue(ir, "seat_count", 3.0)));
    var arms_total := Max(0.0, spec.arms.width_mm) * ArmsCount(CanonArmsType(spec.arms.arms_type)) as real;
    MakeLayout(count, IrValue(ir, "seat_width_mm", 600.0), IrValue(ir, "seat_depth_mm", 600.0),
               IrValue(ir, "seat_height_mm", 440.0), IrValue(SubObj(ir, "frame"), "thickness_mm", 35.0), arms_total)
  }

  /** The layout reads its seat numbers from the IR, with 600/600/440/3 and a 35 mm frame when absent. */
  lemma DefaultLayout(spec: ResolvedSpec)
    ensures var l := ComputeLayout(map[], spec);
      l.seat_count == 3 && l.seat_total_width_mm == 1800.0 && l.seat_top_z == 440.0 &&
      l.seat_min_x == -900.0 && l.seat_min_y == -300.0 && l.base_frame_top_z == 405.0
  {
  }

  /** A three-seat 600 x 520 seat at height 445 spans x in [-900, 900] and y in [-260, 260]. */
  lemma ExampleLayout(spec: ResolvedSpec)
    ensures var l := ComputeLayout(map["seat_width_mm" := JNum(600.0), "seat_depth_mm" := JNum(520.0),
                                       "seat_height_mm" := JNum(445.0), "seat_count" := JNum(3.0)], spec);
      l.seat_top_z == 445.0 && l.seat_min_x == -900.0 && l.seat_max_x == 900.0 &&
      l.seat_min_y == -260.0 && l.seat_max_y == 260.0
  {
    var ir := map["seat_width_mm" := JNum(600.0), "seat_depth_mm" := JNum(520.0),
                  "seat_height_mm" := JNum(445.0), "seat_count" := JNum(3.0)];
    assert IrValue(ir, "seat_width_mm", 600.0) == 600.0;
    assert IrValue(ir, "seat_depth_mm", 600.0) == 520.0;
    assert IrValue(ir, "seat_height_mm", 440.0) == 445.0;
    assert IrValue(ir, "seat_count", 3.0) == 3.0;
    assert Trunc(3.0) == 3;
  }
}
