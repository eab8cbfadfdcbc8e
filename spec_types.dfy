/** The resolved-spec records the resolver produces and the builders read. */
module SpecTypes {
  import opened Ir

  datatype ArmsSpec = ArmsSpec(arms_type: string, width_mm: real, profile: string)

  datatype CenterPostSpec = CenterPostSpec(enabled: bool, thickness_mm: real, inset_y_mm: real, width_mm: real)

  datatype BackFrameSpec = BackFrameSpec(
    height_above_seat_mm: real,
    thickness_mm: real,
    offset_y_mm: real,
    margin_x_mm: real,
    margin_z_mm: real,
    rail_inset_mm: real,
    rail_width_mm: real,
    rail_depth_mm: real,
    rail_height_mm: real,
    bottom_rail_split: bool,
    bottom_rail_gap_mm: real,
    split_center: bool,
    frame_layout: string,
    bottom_rail_attach_mode: string,
    bottom_rail_height_mm: real,
    center_post: CenterPostSpec)

  datatype BackSlatsSpec = BackSlatsSpec(
    orientation: string,
    layout: string,
    count: int,
    width_mm: real,
    thickness_mm: real,
    arc_height_mm: real,
    arc_sign: real,
    gap_mm: real,
    has_gap_mm: bool,
    center_gap_mm: real)

  datatype BackStrapsSpec = BackStrapsSpec(count: int, width_mm: real, thickness_mm: real)

  datatype BackSpec = BackSpec(
    has_back_support: bool,
    mode: string,
    frame: BackFrameSpec,
    slats: BackSlatsSpec,
    straps: BackStrapsSpec)

  /** `seat` and `legs` are opaque passthrough objects in the source; the model keeps them as IR values. */
  datatype ResolvedSpec = ResolvedSpec(
    style: string,
    preset_id: string,
    arms: ArmsSpec,
    back: BackSpec,
    seat: Json,
    legs: Json)

  /** The build context handed to every component: run id, debug flag and the clock reading used for event timestamps. */
  datatype BuildContext = BuildContext(run_id: string, debug: bool, now: string)

  /** One resolver warning dict: code, message, path, old, new (as old_value, new_value), source. */
  datatype Warning = Warning(code: string, message: string, path: string, old_value: Json, new_value: Json, source: string)

  /** The caller-owned warning list the resolver appends to. */
  class ResolveDiagnostics {
    var warnings: seq<Warning>

    constructor()
      ensures warnings == []
    {
      warnings := [];
    }

    method Extend(ws: seq<Warning>)
      modifies this
      ensures warnings == old(warnings) + ws
    {
      warnings := warnings + ws;
    }
  }
}
