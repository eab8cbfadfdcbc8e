/**
 * The IR resolver: IR values over preset values over built-in fallbacks, every value
 * canonicalised or clamped, each correction reported as a warning appended to the
 * caller's `ResolveDiagnostics`.
 *
 * Each step is a function from the warning log before it to its value and the log after
 * it (`Logged`), and a method that appends to `ResolveDiagnostics.warnings` in place and
 * is proved to produce exactly that value and log.
 */
module Resolve {
  import opened Wrappers
  import opened Ir
  import opened Text
  import opened Numeric
  import opened SpecTypes
  import Layout
  import Catalog

  /** A value together with the warning log after producing it. */
  datatype Logged<T> = Logged(value: T, log: seq<Warning>)

  /** Where `_pick_value` found a value: the IR, the preset, or the caller's fallback. */
  datatype ValueSource = FromIr | FromPreset | FromGlobal

  const SupportModes: set<string> := {"panel", "slats", "straps"}
  const AttachModes: set<string> := {"seat_rear_beam", "none"}
  const SlatOrientations: set<string> := {"vertical", "horizontal"}
  const SlatLayouts: set<string> := {"full", "split_center"}
  const FrameLayouts: set<string> := {"single", "split_2"}

  /** The warning `_warn` appends; its source is always "resolver" here. */
  function ResolverWarning(code: string, message: string, path: string, old_value: Json, new_value: Json): Warning {
    Warning(code, message, path, old_value, new_value, "resolver")
  }

  /** `_warn`. */
  method Warn(diag: ResolveDiagnostics, code: string, message: string, path: string, old_value: Json, new_value: Json)
    modifies diag
    ensures diag.warnings == old(diag.warnings) + [ResolverWarning(code, message, path, old_value, new_value)]
  {
    diag.Extend([ResolverWarning(code, message, path, old_value, new_value)]);
  }

  const TrueWords: set<string> := {"1", "true", "yes", "on"}
  const FalseWords: set<string> := {"0", "false", "no", "off"}

  lemma WordsDisjoint()
    ensures forall w :: w in FalseWords ==> w !in TrueWords
  {
    assert "0"[0] != "1"[0];
    assert "false"[0] != "true"[0] && "false"[1] != "yes"[1];
    assert "no"[0] != "on"[0];
    assert "off"[1] != "yes"[1] && "off"[0] != "true"[0];
  }

  /** `_as_bool`: booleans as they are, numbers by truthiness, the usual words, else the default. */
  function AsBool(value: Json, default: bool): (r: bool)
    ensures value.JBool? ==> r == value.b
    ensures value.JNum? ==> r == (value.n != 0.0)
    ensures value.JStr? && Canon(value.s) in TrueWords ==> r
    ensures value.JStr? && Canon(value.s) in FalseWords ==> !r
    ensures value.JStr? && Canon(value.s) !in TrueWords + FalseWords ==> r == default
    ensures value.JNull? || value.JArr? || value.JObj? ==> r == default
  {
    WordsDisjoint();
    match value
    case JBool(b) => b
    case JNum(n) => n != 0.0
    case JStr(s) =>
      if Canon(s) in TrueWords then true
      else if Canon(s) in FalseWords then false
      else default
    case _ => default
  }

  /** `_pick_value`: the IR's value if it has the key, else the preset's, else the fallback, with where it came from. */
  function PickValue(explicit: Obj, preset: Obj, key: string, fallback: Json): (r: (Json, ValueSource))
    ensures r.1 == FromIr <==> key in explicit
    ensures r.1 == FromPreset <==> key !in explicit && key in preset
    ensures r.1 == FromGlobal <==> key !in explicit && key !in preset
    ensures r.1 == FromIr ==> r.0 == explicit[key]
    ensures r.1 == FromPreset ==> r.0 == preset[key]
    ensures r.1 == FromGlobal ==> r.0 == fallback
  {
    if key in explicit then (explicit[key], FromIr)
    else if key in preset then (preset[key], FromPreset)
    else (fallback, FromGlobal)
  }

  function Pick(explicit: Obj, preset: Obj, key: string, fallback: Json): Json {
    PickValue(explicit, preset, key, fallback).0
  }

  /** `_clamp_non_negative`: a negative value becomes 0.0 with one BACK_CLAMP warning; others pass silently. */
  function ClampedNonNegative(log: seq<Warning>, value: real, path: string): (r: Logged<real>)
    ensures r.value >= 0.0
    ensures value >= 0.0 ==> r == Logged(value, log)
    ensures value < 0.0 ==>
      r == Logged(0.0, log + [ResolverWarning("BACK_CLAMP", path + " clamped to 0.0", path, JNum(value), JNum(0.0))])
  {
    if value < 0.0 then
      Logged(0.0, log + [ResolverWarning("BACK_CLAMP", path + " clamped to 0.0", path, JNum(value), JNum(0.0))])
    else Logged(value, log)
  }

  method ClampNonNegative(diag: ResolveDiagnostics, value: real, path: string) returns (r: real)
    modifies diag
    ensures r == ClampedNonNegative(old(diag.warnings), value, path).value
    ensures diag.warnings == ClampedNonNegative(old(diag.warnings), value, path).log
  {
    if value < 0.0 {
      Warn(diag, "BACK_CLAMP", path + " clamped to 0.0", path, JNum(value), JNum(0.0));
      return 0.0;
    }
    return value;
  }

  /**
   * `_clamp_range`: the value limited to [lo, hi], with one BACK_CLAMP warning exactly when
   * that changed it. `bounds` is the bracketed range as the message prints it.
   */
  function ClampedRange(log: seq<Warning>, value: real, path: string, lo: real, hi: real, bounds: string)
    : (r: Logged<real>)
    ensures lo <= hi ==> lo <= r.value <= hi
    ensures lo <= value <= hi ==> r == Logged(value, log)
    ensures r.value != value ==>
      r.log == log + [ResolverWarning("BACK_CLAMP", path + " clamped to " + bounds, path, JNum(value), JNum(r.value))]
    ensures r.value == value ==> r.log == log
  {
    var clamped := Max(lo, Min(hi, value));
    if clamped != value then
      Logged(clamped, log + [ResolverWarning("BACK_CLAMP", path + " clamped to " + bounds, path, JNum(value), JNum(clamped))])
    else Logged(clamped, log)
  }

  function Max(a: real, b: real): real { if a >= b then a else b }

  function Min(a: real, b: real): real { if a <= b then a else b }

  method ClampRange(diag: ResolveDiagnostics, value: real, path: string, lo: real, hi: real, bounds: string)
    returns (r: real)
    modifies diag
    ensures r == ClampedRange(old(diag.warnings), value, path, lo, hi, bounds).value
    ensures diag.warnings == ClampedRange(old(diag.warnings), value, path, lo, hi, bounds).log
  {
    r := Max(lo, Min(hi, value));
    if r != value {
      Warn(diag, "BACK_CLAMP", path + " clamped to " + bounds, path, JNum(value), JNum(r));
    }
  }

  /**
   * `_canonical_choice`: an allowed text (trimmed, lower-cased) is kept silently; any other
   * non-empty text gives the fallback and one BACK_FALLBACK warning; empty text and
   * non-text give the fallback silently.
   */
  function CanonicalChoiceOf(log: seq<Warning>, path: string, raw: Json, allowed: set<string>, fallback: string)
    : (r: Logged<string>)
    ensures r.value in allowed || r.value == fallback
    ensures raw.JStr? && Canon(raw.s) in allowed ==> r == Logged(Canon(raw.s), log)
    ensures raw.JStr? && Canon(raw.s) !in allowed && Canon(raw.s) != "" ==>
      r == Logged(fallback, log + [ResolverWarning("BACK_FALLBACK", "unsupported " + path + " fallback to " + fallback,
                                                   path, raw, JStr(fallback))])
    ensures !raw.JStr? || (Canon(raw.s) !in allowed && Canon(raw.s) == "") ==> r == Logged(fallback, log)
  {
    if raw.JStr? && Canon(raw.s) in allowed then Logged(Canon(raw.s), log)
    else if raw.JStr? && Canon(raw.s) != "" then
      Logged(fallback, log + [ResolverWarning("BACK_FALLBACK", "unsupported " + path + " fallback to " + fallback,
                                              path, raw, JStr(fallback))])
    else Logged(fallback, log)
  }

  method CanonicalChoice(diag: ResolveDiagnostics, path: string, raw: Json, allowed: set<string>, fallback: string)
    returns (r: string)
    modifies diag
    ensures r == CanonicalChoiceOf(old(diag.warnings), path, raw, allowed, fallback).value
    ensures diag.warnings == CanonicalChoiceOf(old(diag.warnings), path, raw, allowed, fallback).log
  {
    if raw.JStr? {
      var value := Canon(raw.s);
      if value in allowed {
        return value;
      }
      if value != "" {
        Warn(diag, "BACK_FALLBACK", "unsupported " + path + " fallback to " + fallback, path, raw, JStr(fallback));
      }
    }
    return fallback;
  }

  /** The count steps: `max(0, int(raw))`, with one BACK_CLAMP warning exactly when that changed the integer. */
  function ClampedCount(log: seq<Warning>, raw: Json, default: int, path: string): (r: Logged<int>)
    ensures r.value >= 0
    ensures r.value == (if AsInt(raw, default) < 0 then 0 else AsInt(raw, default))
    ensures AsInt(raw, default) >= 0 ==> r.log == log
    ensures AsInt(raw, default) < 0 ==>
      r.log == log + [ResolverWarning("BACK_CLAMP", path + " clamped to >= 0", path, raw, JNum(0.0))]
  {
    var n := AsInt(raw, default);
    var count := if n < 0 then 0 else n;
    if count != n then
      Logged(count, log + [ResolverWarning("BACK_CLAMP", path + " clamped to >= 0", path, raw, JNum(count as real))])
    else Logged(count, log)
  }

  method ClampCount(diag: ResolveDiagnostics, raw: Json, default: int, path: string) returns (count: int)
    modifies diag
    ensures count == ClampedCount(old(diag.warnings), raw, default, path).value
    ensures diag.warnings == ClampedCount(old(diag.warnings), raw, default, path).log
  {
    count := AsInt(raw, default);
    if count < 0 {
      count := 0;
    }
    if count != AsInt(raw, default) {
      Warn(diag, "BACK_CLAMP", path + " clamped to >= 0", path, raw, JNum(count as real));
    }
  }

  const ProfileAliases: map<string, string> := map[
    "scandi_frame" := "frame_box_open",
    "frame_open" := "frame_box_open",
    "scandi_open_frame" := "frame_box_open",
    "frame_box_open" := "frame_box_open"]

  function TextOrEmpty(v: Json): string { if v.JStr? then Canon(v.s) else "" }

  /**
   * `_canonical_profile`: the arm profile ("box" or "frame_box_open") and whether an unknown,
   * non-empty profile fell back to box. An open-frame style turns "box" and unknown profiles
   * into "frame_box_open".
   */
  function CanonicalProfile(profile_raw: Json, style_raw: Json): (r: (string, bool))
    ensures r.0 in {"box", "frame_box_open"}
    ensures TextOrEmpty(profile_raw) in ProfileAliases ==> r == ("frame_box_open", false)
    ensures TextOrEmpty(style_raw) in ProfileAliases ==> r == ("frame_box_open", false)
    ensures r.1 <==> TextOrEmpty(profile_raw) !in ProfileAliases && TextOrEmpty(profile_raw) != "box" &&
                     TextOrEmpty(style_raw) !in ProfileAliases && TextOrEmpty(profile_raw) != ""
    ensures r.1 ==> r.0 == "box"
  {
    var profile_text := TextOrEmpty(profile_raw);
    var style_is_open := TextOrEmpty(style_raw) in ProfileAliases;
    if profile_text in ProfileAliases then (ProfileAliases[profile_text], false)
    else if profile_text == "box" then (if style_is_open then "frame_box_open" else "box", false)
    else if style_is_open then ("frame_box_open", false)
    else ("box", profile_text != "")
  }

  /** Python's `type(value).__name__`; a whole number is taken to be an `int`. */
  function TypeName(v: Json): string {
    match v
    case JNull => "NoneType"
    case JBool(_) => "bool"
    case JNum(n) => if n == n.Floor as real then "int" else "float"
    case JStr(_) => "str"
    case JArr(_) => "list"
    case JObj(_) => "dict"
  }

  /** The dicts `resolve_back_spec` reads from, non-dicts replaced by empty ones. */
  datatype BackSources = BackSources(
    has_back_support: bool,
    back_support_raw: Json,
    back_support: Obj,
    preset_back: Obj,
    preset_frame: Obj,
    preset_slats: Obj,
    preset_straps: Obj,
    preset_center_post: Obj,
    frame_root: Obj,
    slats_ir: Obj,
    center_post_ir: Obj,
    straps_ir: Obj)

  function SourcesOf(ir: Obj, preset: Obj): BackSources {
    var back_support := AsObj(GetOr(ir, "back_support", JNull));
    var preset_back := SubObj(preset, "back");
    var preset_frame := SubObj(preset_back, "frame");
    BackSources(
      "back_support" in ir, GetOr(ir, "back_support", JNull), back_support,
      preset_back, preset_frame, SubObj(preset_back, "slats"), SubObj(preset_back, "straps"),
      SubObj(preset_frame, "center_post"), SubObj(ir, "frame"),
      SubObj(back_support, "slats"), SubObj(back_support, "center_post"), SubObj(back_support, "straps"))
  }

  /** The two checks on `back_support` itself: present but not a dict, and absent. */
  function SupportChecked(src: BackSources, log: seq<Warning>): (r: seq<Warning>)
    ensures src.has_back_support && src.back_support_raw.JObj? ==> r == log
    ensures src.has_back_support && !src.back_support_raw.JObj? ==>
      r == log + [ResolverWarning("BACK_FALLBACK", "back_support must be an object; fallback to defaults", "back_support",
                                  JStr(TypeName(src.back_support_raw)), JStr("{}"))]
    ensures !src.has_back_support ==>
      r == log + [ResolverWarning("BACK_DEFAULT_USED", "back_support not provided; defaults resolved for future component use",
                                  "back_support", JNull, GetOr(src.preset_back, "mode", JStr("panel")))]
  {
    var fallback := if src.has_back_support && !src.back_support_raw.JObj? then
      [ResolverWarning("BACK_FALLBACK", "back_support must be an object; fallback to defaults", "back_support",
                       JStr(TypeName(src.back_support_raw)), JStr("{}"))]
    else [];
    var defaulted := if !src.has_back_support then
      [ResolverWarning("BACK_DEFAULT_USED", "back_support not provided; defaults resolved for future component use",
                       "back_support", JNull, GetOr(src.preset_back, "mode", JStr("panel")))]
    else [];
    log + fallback + defaulted
  }

  method CheckSupport(diag: ResolveDiagnostics, src: BackSources)
    modifies diag
    ensures diag.warnings == SupportChecked(src, old(diag.warnings))
  {
    if src.has_back_support && !src.back_support_raw.JObj? {
      Warn(diag, "BACK_FALLBACK", "back_support must be an object; fallback to defaults", "back_support",
           JStr(TypeName(src.back_support_raw)), JStr("{}"));
    }
    if !src.has_back_support {
      Warn(diag, "BACK_DEFAULT_USED", "back_support not provided; defaults resolved for future component use",
           "back_support", JNull, GetOr(src.preset_back, "mode", JStr("panel")));
    }
  }

  /** The frame thickness, back height and back thickness the IR's `frame` suggests (35, 420 and 90 mm by default). */
  datatype FrameDefaults = FrameDefaults(thickness_mm: real, back_height_mm: real, back_thickness_mm: real)

  function FrameDefaultsOf(src: BackSources): FrameDefaults {
    FrameDefaults(
      AsFloat(GetOr(src.frame_root, "thickness_mm", JNum(35.0)), 35.0),
      AsFloat(GetOr(src.frame_root, "back_height_above_seat_mm", JNum(420.0)), 420.0),
      AsFloat(GetOr(src.frame_root, "back_thickness_mm", JNum(90.0)), 90.0))
  }

  /** `_as_float(rail_width_raw, frame_thickness_default)`, the default of several rail and post sizes. */
  function RailWidthDefault(src: BackSources, fd: FrameDefaults): real {
    AsFloat(Pick(src.back_support, src.preset_back, "rail_width_mm", JNum(fd.thickness_mm)), fd.thickness_mm)
  }

  /**
   * The centre post width before clamping: an explicit IR width, else the post thickness when the
   * IR enables the post or sets its thickness, else a non-None preset width, else the post
   * thickness when the preset sets one, else the rail width.
   */
  function CenterPostWidthRaw(src: BackSources, enabled: bool, thickness_mm: real, rw: real): real {
    if "center_post_width_mm" in src.back_support then AsFloat(src.back_support["center_post_width_mm"], rw)
    else if enabled || "thickness_mm" in src.center_post_ir then thickness_mm
    else if "center_post_width_mm" in src.preset_frame && src.preset_frame["center_post_width_mm"] != JNull then
      AsFloat(src.preset_frame["center_post_width_mm"], rw)
    else if enabled || "thickness_mm" in src.preset_center_post then thickness_mm
    else rw
  }

  function CenterPostOf(src: BackSources, rw: real, log: seq<Warning>): (r: Logged<CenterPostSpec>)
    ensures r.value.thickness_mm >= 0.0 && r.value.width_mm >= 0.0
    ensures r.value.enabled == AsBool(Pick(src.center_post_ir, src.preset_center_post, "enabled", JBool(false)), false)
  {
    var enabled := AsBool(Pick(src.center_post_ir, src.preset_center_post, "enabled", JBool(false)), false);
    var thickness_raw := Pick(src.center_post_ir, src.preset_center_post, "thickness_mm", JNum(rw));
    var inset_raw := Pick(src.center_post_ir, src.preset_center_post, "inset_y_mm", JNum(0.0));
    var thickness := ClampedNonNegative(log, AsFloat(thickness_raw, rw), "back_support.center_post.thickness_mm");
    var width := ClampedNonNegative(thickness.log, CenterPostWidthRaw(src, enabled, thickness.value, rw),
                                    "back_support.center_post_width_mm");
    Logged(CenterPostSpec(enabled, thickness.value, AsFloat(inset_raw, 0.0), width.value), width.log)
  }

  method ResolveCenterPost(diag: ResolveDiagnostics, src: BackSources, rw: real) returns (cp: CenterPostSpec)
    modifies diag
    ensures cp == CenterPostOf(src, rw, old(diag.warnings)).value
    ensures diag.warnings == CenterPostOf(src, rw, old(diag.warnings)).log
  {
    var enabled := AsBool(Pick(src.center_post_ir, src.preset_center_post, "enabled", JBool(false)), false);
    var thickness_raw := Pick(src.center_post_ir, src.preset_center_post, "thickness_mm", JNum(rw));
    var inset_raw := Pick(src.center_post_ir, src.preset_center_post, "inset_y_mm", JNum(0.0));
    var thickness := ClampNonNegative(diag, AsFloat(thickness_raw, rw), "back_support.center_post.thickness_mm");
    var width := CenterPostWidthRaw(src, enabled, thickness, rw);
    width := ClampNonNegative(diag, width, "back_support.center_post_width_mm");
    cp := CenterPostSpec(enabled, thickness, AsFloat(inset_raw, 0.0), width);
  }

  /** `max(10.0, round(rail_height * 0.5))`. */
  function DefaultBottomRailHeight(rail_height_mm: real): (r: real)
    ensures r >= 10.0
  {
    Max(10.0, RoundHalfEven(rail_height_mm * 0.5) as real)
  }

  /**
   * The bottom rail height before clamping: the IR's `bottom_rail_height_mm`, else the legacy
   * `bottom_rail_thickness_mm` when it is below the rail height (else the default), else the
   * preset's value, else the default.
   */
  function BottomRailHeightRaw(src: BackSources, default: real, rail_height_mm: real): real {
    if "bottom_rail_height_mm" in src.back_support then AsFloat(src.back_support["bottom_rail_height_mm"], default)
    else if "bottom_rail_thickness_mm" in src.back_support then
      var legacy := AsFloat(src.back_support["bottom_rail_thickness_mm"], default);
      if legacy < rail_height_mm then legacy else default
    else AsFloat(Pick(src.back_support, src.preset_frame, "bottom_rail_height_mm", JNum(default)), default)
  }

  datatype FrameNumbers = FrameNumbers(
    height_above_seat_mm: real,
    thickness_mm: real,
    offset_y_mm: real,
    margin_x_mm: real,
    margin_z_mm: real,
    rail_inset_mm: real,
    rail_width_mm: real,
    rail_depth_mm: real,
    rail_height_mm: real,
    bottom_rail_gap_mm: real,
    bottom_rail_height_mm: real)

  predicate FrameNumbersInRange(n: FrameNumbers) {
    n.height_above_seat_mm >= 0.0 && n.thickness_mm >= 0.0 && -100.0 <= n.offset_y_mm <= 200.0 &&
    n.margin_x_mm >= 0.0 && n.margin_z_mm >= 0.0 && n.rail_inset_mm >= 0.0 && n.rail_width_mm >= 0.0 &&
    n.rail_depth_mm >= 0.0 && n.rail_height_mm >= 0.0 && n.bottom_rail_gap_mm >= 0.0 && n.bottom_rail_height_mm >= 0.0
  }

  /** The rail height the bottom rail default is derived from (clamped, and reported, on its own). */
  function RailHeightForDefault(src: BackSources, rw: real, log: seq<Warning>): (r: Logged<real>)
    ensures r.value >= 0.0
  {
    ClampedNonNegative(log, AsFloat(Pick(src.back_support, src.preset_back, "rail_height_mm", JNum(rw)), rw),
                       "back_support.rail_height_mm")
  }

  /** The frame sizes, clamped in the order `resolve_back_spec` clamps them. */
  function FrameNumbersOf(src: BackSources, fd: FrameDefaults, rw: real, brh: real, log: seq<Warning>)
    : (r: Logged<FrameNumbers>)
    ensures FrameNumbersInRange(r.value)
  {
    var bs, pb, pf := src.back_support, src.preset_back, src.preset_frame;
    var height := ClampedNonNegative(log, AsFloat(Pick(bs, pb, "height_above_seat_mm", JNum(fd.back_height_mm)), fd.back_height_mm),
                                     "back_support.height_above_seat_mm");
    var thickness := ClampedNonNegative(height.log, AsFloat(Pick(bs, pb, "thickness_mm", JNum(fd.back_thickness_mm)), fd.back_thickness_mm),
                                        "back_support.thickness_mm");
    var offset_y := ClampedRange(thickness.log, AsFloat(Pick(bs, pb, "offset_y_mm", JNum(0.0)), 0.0),
                                 "back_support.offset_y_mm", -100.0, 200.0, "[-100.0, 200.0]");
    var margin_x := ClampedNonNegative(offset_y.log, AsFloat(Pick(bs, pb, "margin_x_mm", JNum(40.0)), 40.0), "back_support.margin_x_mm");
    var margin_z := ClampedNonNegative(margin_x.log, AsFloat(Pick(bs, pb, "margin_z_mm", JNum(30.0)), 30.0), "back_support.margin_z_mm");
    var rail_inset := ClampedNonNegative(margin_z.log, AsFloat(Pick(bs, pb, "rail_inset_mm", JNum(0.0)), 0.0), "back_support.rail_inset_mm");
    var rail_width := ClampedNonNegative(rail_inset.log, rw, "back_support.rail_width_mm");
    var rail_depth := ClampedNonNegative(rail_width.log, AsFloat(Pick(bs, pb, "rail_depth_mm", JNum(fd.thickness_mm)), fd.thickness_mm),
                                         "back_support.rail_depth_mm");
    var rail_height := ClampedNonNegative(rail_depth.log, AsFloat(Pick(bs, pb, "rail_height_mm", JNum(rw)), rail_width.value),
                                          "back_support.rail_height_mm");
    var gap := ClampedNonNegative(rail_height.log, AsFloat(Pick(bs, pf, "bottom_rail_gap_mm", JNum(60.0)), 60.0),
                                  "back_support.bottom_rail_gap_mm");
    var bottom := ClampedNonNegative(gap.log, brh, "back_support.bottom_rail_height_mm");
    Logged(FrameNumbers(height.value, thickness.value, offset_y.value, margin_x.value, margin_z.value, rail_inset.value,
                        rail_width.value, rail_depth.value, rail_height.value, gap.value, bottom.value), bottom.log)
  }

  method ResolveFrameNumbers(diag: ResolveDiagnostics, src: BackSources, fd: FrameDefaults, rw: real, brh: real)
    returns (n: FrameNumbers)
    modifies diag
    ensures n == FrameNumbersOf(src, fd, rw, brh, old(diag.warnings)).value
    ensures diag.warnings == FrameNumbersOf(src, fd, rw, brh, old(diag.warnings)).log
  {
    var bs, pb, pf := src.back_support, src.preset_back, src.preset_frame;
    var height := ClampNonNegative(diag, AsFloat(Pick(bs, pb, "height_above_seat_mm", JNum(fd.back_height_mm)), fd.back_height_mm),
                                   "back_support.height_above_seat_mm");
    var thickness := ClampNonNegative(diag, AsFloat(Pick(bs, pb, "thickness_mm", JNum(fd.back_thickness_mm)), fd.back_thickness_mm),
                                      "back_support.thickness_mm");
    var offset_y := ClampRange(diag, AsFloat(Pick(bs, pb, "offset_y_mm", JNum(0.0)), 0.0),
                               "back_support.offset_y_mm", -100.0, 200.0, "[-100.0, 200.0]");
    var margin_x := ClampNonNegative(diag, AsFloat(Pick(bs, pb, "margin_x_mm", JNum(40.0)), 40.0), "back_support.margin_x_mm");
    var margin_z := ClampNonNegative(diag, AsFloat(Pick(bs, pb, "margin_z_mm", JNum(30.0)), 30.0), "back_support.margin_z_mm");
    var rail_inset := ClampNonNegative(diag, AsFloat(Pick(bs, pb, "rail_inset_mm", JNum(0.0)), 0.0), "back_support.rail_inset_mm");
    var rail_width := ClampNonNegative(diag, rw, "back_support.rail_width_mm");
    var rail_depth := ClampNonNegative(diag, AsFloat(Pick(bs, pb, "rail_depth_mm", JNum(fd.thickness_mm)), fd.thickness_mm),
                                       "back_support.rail_depth_mm");
    var rail_height := ClampNonNegative(diag, AsFloat(Pick(bs, pb, "rail_height_mm", JNum(rw)), rail_width),
                                        "back_support.rail_height_mm");
    var gap := ClampNonNegative(diag, AsFloat(Pick(bs, pf, "bottom_rail_gap_mm", JNum(60.0)), 60.0),
                                "back_support.bottom_rail_gap_mm");
    var bottom := ClampNonNegative(diag, brh, "back_support.bottom_rail_height_mm");
    n := FrameNumbers(height, thickness, offset_y, margin_x, margin_z, rail_inset, rail_width, rail_depth, rail_height, gap, bottom);
  }

  /**
   * The frame layout before the split-centre override: derived from `bottom_rail_split` when
   * neither the IR nor the preset names one; otherwise the named layout ("full" meaning
   * "single"), with "single" and one BACK_FALLBACK warning for anything unrecognised.
   */
  function FrameLayoutOf(src: BackSources, bottom_rail_split: bool, log: seq<Warning>): (r: Logged<string>)
    ensures r.value in FrameLayouts
  {
    var picked := PickValue(src.back_support, src.preset_frame, "frame_layout", JNull);
    var derived := if bottom_rail_split then "split_2" else "single";
    if picked.1 == FromGlobal && picked.0 == JNull then Logged(derived, log)
    else
      var normalized := if picked.0.JStr? then Canon(picked.0.s) else derived;
      if normalized == "single" || normalized == "full" then Logged("single", log)
      else if normalized == "split_2" then Logged("split_2", log)
      else Logged("single", log + [ResolverWarning("BACK_FALLBACK", "unsupported back_support.frame_layout fallback to single",
                                                   "back_support.frame_layout", picked.0, JStr("single"))])
  }

  method ResolveFrameLayout(diag: ResolveDiagnostics, src: BackSources, bottom_rail_split: bool) returns (layout: string)
    modifies diag
    ensures layout == FrameLayoutOf(src, bottom_rail_split, old(diag.warnings)).value
    ensures diag.warnings == FrameLayoutOf(src, bottom_rail_split, old(diag.warnings)).log
  {
    var raw, source := PickValue(src.back_support, src.preset_frame, "frame_layout", JNull).0,
                       PickValue(src.back_support, src.preset_frame, "frame_layout", JNull).1;
    if source == FromGlobal && raw == JNull {
      layout := if bottom_rail_split then "split_2" else "single";
    } else {
      var normalized := if raw.JStr? then Canon(raw.s) else (if bottom_rail_split then "split_2" else "single");
      layout := if normalized == "split_2" then "split_2" else "single";
      if normalized != "single" && normalized != "full" && normalized != "split_2" {
        Warn(diag, "BACK_FALLBACK", "unsupported back_support.frame_layout fallback to single",
             "back_support.frame_layout", raw, JStr("single"));
      }
    }
  }

  predicate SlatsInRange(s: BackSlatsSpec) {
    s.count >= 0 && s.width_mm >= 0.0 && s.thickness_mm >= 0.0 && s.arc_height_mm >= 0.0 &&
    s.gap_mm >= 0.0 && s.center_gap_mm >= 0.0
  }

  /** The slat numbers; `has_gap_mm` says whether the IR or the preset set the gap. */
  function SlatsOf(src: BackSources, orientation: string, layout: string, log: seq<Warning>): (r: Logged<BackSlatsSpec>)
    ensures SlatsInRange(r.value) && r.value.orientation == orientation && r.value.layout == layout
    ensures r.value.has_gap_mm <==> "gap_mm" in src.slats_ir || "gap_mm" in src.preset_slats
    ensures r.value.count == Max0(AsInt(Pick(src.slats_ir, src.preset_slats, "count", JNum(10.0)), 10))
  {
    var si, ps := src.slats_ir, src.preset_slats;
    var count := ClampedCount(log, Pick(si, ps, "count", JNum(10.0)), 10, "back_support.slats.count");
    var width := ClampedNonNegative(count.log, AsFloat(Pick(si, ps, "width_mm", JNum(35.0)), 35.0), "back_support.slats.width_mm");
    var thickness := ClampedNonNegative(width.log, AsFloat(Pick(si, ps, "thickness_mm", JNum(10.0)), 10.0),
                                        "back_support.slats.thickness_mm");
    var arc := ClampedNonNegative(thickness.log, AsFloat(Pick(si, ps, "arc_height_mm", JNum(0.0)), 0.0),
                                  "back_support.slats.arc_height_mm");
    var gap_pick := PickValue(si, ps, "gap_mm", JNum(0.0));
    var gap := ClampedNonNegative(arc.log, AsFloat(gap_pick.0, 0.0), "back_support.slats.gap_mm");
    var center_gap := ClampedNonNegative(gap.log, AsFloat(Pick(si, ps, "center_gap_mm", JNum(0.0)), 0.0),
                                         "back_support.slats.center_gap_mm");
    var arc_sign := AsFloat(Pick(si, ps, "arc_sign", JNum(-1.0)), -1.0);
    Logged(BackSlatsSpec(orientation, layout, count.value, width.value, thickness.value, arc.value, arc_sign, gap.value,
                         gap_pick.1 != FromGlobal, center_gap.value), center_gap.log)
  }

  function Max0(n: int): int { if n < 0 then 0 else n }

  method ResolveSlats(diag: ResolveDiagnostics, src: BackSources, orientation: string, layout: string)
    returns (slats: BackSlatsSpec)
    modifies diag
    ensures slats == SlatsOf(src, orientation, layout, old(diag.warnings)).value
    ensures diag.warnings == SlatsOf(src, orientation, layout, old(diag.warnings)).log
  {
    var si, ps := src.slats_ir, src.preset_slats;
    var count := ClampCount(diag, Pick(si, ps, "count", JNum(10.0)), 10, "back_support.slats.count");
    var width := ClampNonNegative(diag, AsFloat(Pick(si, ps, "width_mm", JNum(35.0)), 35.0), "back_support.slats.width_mm");
    var thickness := ClampNonNegative(diag, AsFloat(Pick(si, ps, "thickness_mm", JNum(10.0)), 10.0),
                                      "back_support.slats.thickness_mm");
    var arc := ClampNonNegative(diag, AsFloat(Pick(si, ps, "arc_height_mm", JNum(0.0)), 0.0),
                                "back_support.slats.arc_height_mm");
    var gap_raw, gap_source := PickValue(si, ps, "gap_mm", JNum(0.0)).0, PickValue(si, ps, "gap_mm", JNum(0.0)).1;
    var gap := ClampNonNegative(diag, AsFloat(gap_raw, 0.0), "back_support.slats.gap_mm");
    var center_gap := ClampNonNegative(diag, AsFloat(Pick(si, ps, "center_gap_mm", JNum(0.0)), 0.0),
                                       "back_support.slats.center_gap_mm");
    var arc_sign := AsFloat(Pick(si, ps, "arc_sign", JNum(-1.0)), -1.0);
    slats := BackSlatsSpec(orientation, layout, count, width, thickness, arc, arc_sign, gap,
                           gap_source == FromIr || gap_source == FromPreset, center_gap);
  }

  function StrapsOf(src: BackSources, log: seq<Warning>): (r: Logged<BackStrapsSpec>)
    ensures r.value.count >= 0 && r.value.width_mm >= 0.0 && r.value.thickness_mm >= 0.0
    ensures r.value.count == Max0(AsInt(Pick(src.straps_ir, src.preset_straps, "count", JNum(6.0)), 6))
  {
    var si, ps := src.straps_ir, src.preset_straps;
    var count := ClampedCount(log, Pick(si, ps, "count", JNum(6.0)), 6, "back_support.straps.count");
    var width := ClampedNonNegative(count.log, AsFloat(Pick(si, ps, "width_mm", JNum(30.0)), 30.0), "back_support.straps.width_mm");
    var thickness := ClampedNonNegative(width.log, AsFloat(Pick(si, ps, "thickness_mm", JNum(6.0)), 6.0),
                                        "back_support.straps.thickness_mm");
    Logged(BackStrapsSpec(count.value, width.value, thickness.value), thickness.log)
  }

  method ResolveStraps(diag: ResolveDiagnostics, src: BackSources) returns (straps: BackStrapsSpec)
    modifies diag
    ensures straps == StrapsOf(src, old(diag.warnings)).value
    ensures diag.warnings == StrapsOf(src, old(diag.warnings)).log
  {
    var si, ps := src.straps_ir, src.preset_straps;
    var count := ClampCount(diag, Pick(si, ps, "count", JNum(6.0)), 6, "back_support.straps.count");
    var width := ClampNonNegative(diag, AsFloat(Pick(si, ps, "width_mm", JNum(30.0)), 30.0), "back_support.straps.width_mm");
    var thickness := ClampNonNegative(diag, AsFloat(Pick(si, ps, "thickness_mm", JNum(6.0)), 6.0),
                                      "back_support.straps.thickness_mm");
    straps := BackStrapsSpec(count, width, thickness);
  }

  /** The back values read without warnings: split flags, and the choices' raw inputs. */
  function BottomRailSplit(src: BackSources): bool {
    AsBool(Pick(src.back_support, src.preset_frame, "bottom_rail_split", JBool(false)), false)
  }

  function SplitCenter(src: BackSources): bool {
    AsBool(Pick(src.back_support, src.preset_frame, "split_center", JBool(false)), false)
  }

  /** The split-centre override: an explicit flag, a split-centre slat layout or an enabled centre post. */
  function SplitCenterRequested(split_center: bool, slat_layout: string, cp: CenterPostSpec): bool {
    split_center || slat_layout == "split_center" || cp.enabled
  }

  /** What `resolve_back_spec` settles before the slats: mode, centre post, frame sizes, frame layout, attach mode. */
  datatype FrameParts = FrameParts(mode: string, center_post: CenterPostSpec, numbers: FrameNumbers, layout: string, attach: string)

  function FramePartsOf(src: BackSources, log: seq<Warning>): (r: Logged<FrameParts>)
    ensures r.value.mode in SupportModes && r.value.layout in FrameLayouts && r.value.attach in AttachModes
    ensures FrameNumbersInRange(r.value.numbers)
    ensures r.value.center_post.thickness_mm >= 0.0 && r.value.center_post.width_mm >= 0.0
  {
    var checked := SupportChecked(src, log);
    var fd := FrameDefaultsOf(src);
    var mode := CanonicalChoiceOf(checked, "back_support.mode", Pick(src.back_support, src.preset_back, "mode", JStr("panel")),
                                  SupportModes, "panel");
    var rw := RailWidthDefault(src, fd);
    var cp := CenterPostOf(src, rw, mode.log);
    var rh := RailHeightForDefault(src, rw, cp.log);
    var nums := FrameNumbersOf(src, fd, rw, BottomRailHeightRaw(src, DefaultBottomRailHeight(rh.value), rh.value), rh.log);
    var layout := FrameLayoutOf(src, BottomRailSplit(src), nums.log);
    var attach := CanonicalChoiceOf(layout.log, "back_support.bottom_rail_attach_mode",
                                    Pick(src.back_support, src.preset_frame, "bottom_rail_attach_mode", JStr("seat_rear_beam")),
                                    AttachModes, "seat_rear_beam");
    Logged(FrameParts(mode.value, cp.value, nums.value, layout.value, attach.value), attach.log)
  }

  method ResolveFrameParts(diag: ResolveDiagnostics, src: BackSources) returns (parts: FrameParts)
    modifies diag
    ensures parts == FramePartsOf(src, old(diag.warnings)).value
    ensures diag.warnings == FramePartsOf(src, old(diag.warnings)).log
  {
    CheckSupport(diag, src);
    var fd := FrameDefaultsOf(src);
    var mode := CanonicalChoice(diag, "back_support.mode", Pick(src.back_support, src.preset_back, "mode", JStr("panel")),
                                SupportModes, "panel");
    var rw := RailWidthDefault(src, fd);
    var cp := ResolveCenterPost(diag, src, rw);
    var rh := ClampNonNegative(diag, AsFloat(Pick(src.back_support, src.preset_back, "rail_height_mm", JNum(rw)), rw),
                               "back_support.rail_height_mm");
    var n := ResolveFrameNumbers(diag, src, fd, rw, BottomRailHeightRaw(src, DefaultBottomRailHeight(rh), rh));
    var frame_layout := ResolveFrameLayout(diag, src, BottomRailSplit(src));
    var attach := CanonicalChoice(diag, "back_support.bottom_rail_attach_mode",
                                  Pick(src.back_support, src.preset_frame, "bottom_rail_attach_mode", JStr("seat_rear_beam")),
                                  AttachModes, "seat_rear_beam");
    parts := FrameParts(mode, cp, n, frame_layout, attach);
  }

  /** The frame record, with the split-centre override applied to the layout. */
  function FrameSpecOf(src: BackSources, parts: FrameParts, slat_layout: string): BackFrameSpec {
    var n := parts.numbers;
    var requested := SplitCenterRequested(SplitCenter(src), slat_layout, parts.center_post);
    BackFrameSpec(
      n.height_above_seat_mm, n.thickness_mm, n.offset_y_mm, n.margin_x_mm, n.margin_z_mm, n.rail_inset_mm,
      n.rail_width_mm, n.rail_depth_mm, n.rail_height_mm, BottomRailSplit(src), n.bottom_rail_gap_mm, requested,
      if requested then "split_2" else parts.layout, parts.attach, n.bottom_rail_height_mm, parts.center_post)
  }

  /** `resolve_back_spec`, with the warning log before and after it. */
  function BackSpecOf(ir: Obj, preset: Obj, log: seq<Warning>): Logged<BackSpec> {
    var src := SourcesOf(ir, preset);
    var parts := FramePartsOf(src, log);
    BackRestOf(src, parts.value, parts.log)
  }

  /** What `resolve_back_spec` does once the frame parts are resolved: slats, straps, then the frame. */
  function BackRestOf(src: BackSources, parts: FrameParts, log: seq<Warning>): Logged<BackSpec> {
    var orientation := CanonicalChoiceOf(log, "back_support.slats.orientation",
                                         Pick(src.slats_ir, src.preset_slats, "orientation", JStr("vertical")),
                                         SlatOrientations, "vertical");
    var slat_layout := CanonicalChoiceOf(orientation.log, "back_support.slats.layout",
                                         Pick(src.slats_ir, src.preset_slats, "layout", JStr("full")), SlatLayouts, "full");
    var slats := SlatsOf(src, orientation.value, slat_layout.value, slat_layout.log);
    var straps := StrapsOf(src, slats.log);
    Logged(BackSpec(src.has_back_support, parts.mode, FrameSpecOf(src, parts, slat_layout.value),
                    slats.value, straps.value), straps.log)
  }

  /** The frame half of `resolve_back_spec`: the split-centre request forces the "split_2" layout. */
  method ComposeFrame(src: BackSources, parts: FrameParts, slat_layout: string) returns (frame: BackFrameSpec)
    ensures frame == FrameSpecOf(src, parts, slat_layout)
  {
    var split_center_requested := SplitCenter(src);
    if slat_layout == "split_center" {
      split_center_requested := true;
    }
    if parts.center_post.enabled {
      split_center_requested := true;
    }
    var frame_layout := parts.layout;
    if split_center_requested {
      frame_layout := "split_2";
    }
    var n := parts.numbers;
    frame := BackFrameSpec(
      n.height_above_seat_mm, n.thickness_mm, n.offset_y_mm, n.margin_x_mm, n.margin_z_mm, n.rail_inset_mm,
      n.rail_width_mm, n.rail_depth_mm, n.rail_height_mm, BottomRailSplit(src), n.bottom_rail_gap_mm, split_center_requested,
      frame_layout, parts.attach, n.bottom_rail_height_mm, parts.center_post);
  }

  /** `resolve_back_spec`: appends its warnings to `diag` in place. */
  method ResolveBackSpec(ir: Obj, preset: Obj, diag: ResolveDiagnostics) returns (back: BackSpec)
    modifies diag
    ensures back == BackSpecOf(ir, preset, old(diag.warnings)).value
    ensures diag.warnings == BackSpecOf(ir, preset, old(diag.warnings)).log
  {
    var src := SourcesOf(ir, preset);
    var parts := ResolveFrameParts(diag, src);
    back := ResolveBackRest(diag, src, parts);
  }

  /** The slats, straps and frame steps of `resolve_back_spec`. */
  method ResolveBackRest(diag: ResolveDiagnostics, src: BackSources, parts: FrameParts) returns (back: BackSpec)
    modifies diag
    ensures back == BackRestOf(src, parts, old(diag.warnings)).value
    ensures diag.warnings == BackRestOf(src, parts, old(diag.warnings)).log
  {
    var orientation := CanonicalChoice(diag, "back_support.slats.orientation",
                                       Pick(src.slats_ir, src.preset_slats, "orientation", JStr("vertical")),
                                       SlatOrientations, "vertical");
    var slat_layout := CanonicalChoice(diag, "back_support.slats.layout",
                                       Pick(src.slats_ir, src.preset_slats, "layout", JStr("full")), SlatLayouts, "full");
    var slats := ResolveSlats(diag, src, orientation, slat_layout);
    var straps := ResolveStraps(diag, src);
    var frame := ComposeFrame(src, parts, slat_layout);
    back := BackSpec(src.has_back_support, parts.mode, frame, slats, straps);
  }

  /** The IR's `style`, trimmed and lower-cased; "default" when missing, not text, or empty. */
  function StyleOf(ir: Obj): (r: string)
    ensures r != ""
  {
    var raw := GetOr(ir, "style", JStr("default"));
    var style := if raw.JStr? then Canon(raw.s) else "default";
    if style == "" then "default" else style
  }

  /** The requested preset id, trimmed, or the style's default when it is `None` (the empty text) or blank. */
  function EffectivePresetId(style: string, preset_id: string): (r: string)
    ensures r != ""
    ensures Strip(preset_id) != "" ==> r == Strip(preset_id)
    ensures Strip(preset_id) == "" ==> r == Catalog.DefaultPresetId(Catalog.StyleDefinitions, style)
  {
    if Strip(preset_id) != "" then Strip(preset_id) else Catalog.DefaultPresetId(Catalog.StyleDefinitions, style)
  }

  /** The arms type before canonicalisation: the IR's if it has one, else the preset's; `None` reads as "none". */
  function ArmsTypeRaw(arms: Obj, preset_arms: Obj): Json {
    var raw := if "type" in arms then arms["type"] else GetOr(preset_arms, "type", JNull);
    if raw == JNull then JStr("none") else raw
  }

  /** The arms type: the IR's, else the preset's, canonicalised. */
  function ArmsTypeOf(ir: Obj, preset: Obj): (r: string)
    ensures r in Layout.ArmsTypes
  {
    Layout.CanonArmsTypeOf(ArmsTypeRaw(SubObj(ir, "arms"), SubObj(preset, "arms")))
  }

  /** The arms width before clamping: the IR's, else the preset's, else 120 mm. */
  function ArmsWidthRaw(ir: Obj, preset: Obj): real {
    AsFloat(GetOr(SubObj(ir, "arms"), "width_mm", GetOr(SubObj(preset, "arms"), "width_mm", JNum(120.0))), 120.0)
  }

  function ArmsWidthOf(ir: Obj, preset: Obj, log: seq<Warning>): (r: Logged<real>)
    ensures r.value >= 0.0
  {
    var width := ArmsWidthRaw(ir, preset);
    if width < 0.0 then
      Logged(0.0, log + [ResolverWarning("ARMS_WIDTH_CLAMP", "arms.width_mm clamped to 0.0", "arms.width_mm", JNum(width), JNum(0.0))])
    else Logged(width, log)
  }

  /** The profile text as given: the IR's, else the preset's, else "box". */
  function ProfileRaw(ir: Obj, preset: Obj): Json {
    GetOr(SubObj(ir, "arms"), "profile", GetOr(SubObj(preset, "arms"), "profile", JStr("box")))
  }

  function ProfileOf(ir: Obj, preset: Obj, log: seq<Warning>): (r: Logged<string>)
    ensures r.value in {"box", "frame_box_open"}
  {
    var arms, preset_arms := SubObj(ir, "arms"), SubObj(preset, "arms");
    var profile := CanonicalProfile(ProfileRaw(ir, preset), GetOr(arms, "style", GetOr(preset_arms, "style", JStr("box"))));
    if profile.1 then
      Logged(profile.0, log + [ResolverWarning("PROFILE_FALLBACK_TO_BOX", "unsupported arms.profile fallback to box",
                                               "arms.profile", ProfileRaw(ir, preset), JStr("box"))])
    else Logged(profile.0, log)
  }

  /** The arms part of `resolve`: type, width (negative clamped to 0 with ARMS_WIDTH_CLAMP) and profile. */
  function ArmsOf(ir: Obj, preset: Obj, log: seq<Warning>): (r: Logged<ArmsSpec>)
    ensures r.value.arms_type in Layout.ArmsTypes && r.value.width_mm >= 0.0
    ensures r.value.profile in {"box", "frame_box_open"}
  {
    var width := ArmsWidthOf(ir, preset, log);
    var profile := ProfileOf(ir, preset, width.log);
    Logged(ArmsSpec(ArmsTypeOf(ir, preset), width.value, profile.value), profile.log)
  }

  /** `resolve` as a value: the resolved spec and every warning, in order. */
  function ResolvedOf(ir: Obj, preset_id: string): Logged<ResolvedSpec> {
    var style := StyleOf(ir);
    var effective := EffectivePresetId(style, preset_id);
    var preset := Catalog.FoldMerge(Catalog.PresetLayers(Catalog.StyleDefinitions, style, effective, ""));
    var arms := ArmsOf(ir, preset, []);
    var back := BackSpecOf(ir, preset, arms.log);
    Logged(ResolvedSpec(style, effective, arms.value, back.value, JNull, JNull), back.log)
  }

  /** `resolve`: a fresh diagnostics object holding the warnings, and the resolved spec. */
  method Resolve(ir: Obj, preset_id: string) returns (resolved: ResolvedSpec, diag: ResolveDiagnostics)
    ensures fresh(diag)
    ensures resolved == ResolvedOf(ir, preset_id).value
    ensures diag.warnings == ResolvedOf(ir, preset_id).log
  {
    diag := new ResolveDiagnostics();
    var style := StyleOf(ir);
    var effective := EffectivePresetId(style, preset_id);
    var preset := Catalog.GetPreset(Catalog.StyleDefinitions, style, effective, "");
    var arms, preset_arms := SubObj(ir, "arms"), SubObj(preset, "arms");
    var arms_type := Layout.CanonArmsTypeOf(ArmsTypeRaw(arms, preset_arms));
    var width := AsFloat(GetOr(arms, "width_mm", GetOr(preset_arms, "width_mm", JNum(120.0))), 120.0);
    if width < 0.0 {
      Warn(diag, "ARMS_WIDTH_CLAMP", "arms.width_mm clamped to 0.0", "arms.width_mm", JNum(width), JNum(0.0));
      width := 0.0;
    }
    var profile_raw := GetOr(arms, "profile", GetOr(preset_arms, "profile", JStr("box")));
    var profile, fallback := CanonicalProfile(profile_raw, GetOr(arms, "style", GetOr(preset_arms, "style", JStr("box")))).0,
                             CanonicalProfile(profile_raw, GetOr(arms, "style", GetOr(preset_arms, "style", JStr("box")))).1;
    if fallback {
      Warn(diag, "PROFILE_FALLBACK_TO_BOX", "unsupported arms.profile fallback to box", "arms.profile", profile_raw, JStr("box"));
    }
    assert diag.warnings == ArmsOf(ir, preset, []).log;
    var back := ResolveBackSpec(ir, preset, diag);
    resolved := ResolvedSpec(style, effective, ArmsSpec(arms_type, width, profile), back, JNull, JNull);
  }

  /** The warning codes `resolve_back_spec` uses. */
  const BackCodes: set<string> := {"BACK_FALLBACK", "BACK_DEFAULT_USED", "BACK_CLAMP"}

  /** `after` keeps `before` as it was and only adds resolver warnings with these codes. */
  predicate Appends(before: seq<Warning>, after: seq<Warning>, codes: set<string>) {
    |before| <= |after| && after[..|before|] == before &&
    forall i :: |before| <= i < |after| ==> after[i].source == "resolver" && after[i].code in codes
  }

  lemma AppendsTrans(a: seq<Warning>, b: seq<Warning>, c: seq<Warning>, codes: set<string>)
    requires Appends(a, b, codes) && Appends(b, c, codes)
    ensures Appends(a, c, codes)
  {
    assert c[..|b|][..|a|] == c[..|a|];
  }

  lemma AppendsOne(log: seq<Warning>, w: Warning, codes: set<string>)
    requires w.source == "resolver" && w.code in codes
    ensures Appends(log, log + [w], codes)
  {
    assert (log + [w])[..|log|] == log;
  }

  lemma AppendsNone(log: seq<Warning>, codes: set<string>)
    ensures Appends(log, log, codes)
  {
  }

  lemma ClampAppends(log: seq<Warning>, value: real, path: string)
    ensures Appends(log, ClampedNonNegative(log, value, path).log, BackCodes)
  {
    if value < 0.0 {
      AppendsOne(log, ResolverWarning("BACK_CLAMP", path + " clamped to 0.0", path, JNum(value), JNum(0.0)), BackCodes);
    }
  }

  lemma ChoiceAppends(log: seq<Warning>, path: string, raw: Json, allowed: set<string>, fallback: string)
    ensures Appends(log, CanonicalChoiceOf(log, path, raw, allowed, fallback).log, BackCodes)
  {
    var r := CanonicalChoiceOf(log, path, raw, allowed, fallback);
    if r.log != log {
      AppendsOne(log, ResolverWarning("BACK_FALLBACK", "unsupported " + path + " fallback to " + fallback,
                                      path, raw, JStr(fallback)), BackCodes);
    }
  }

  lemma CountAppends(log: seq<Warning>, raw: Json, default: int, path: string)
    ensures Appends(log, ClampedCount(log, raw, default, path).log, BackCodes)
  {
    if AsInt(raw, default) < 0 {
      AppendsOne(log, ResolverWarning("BACK_CLAMP", path + " clamped to >= 0", path, raw, JNum(0.0)), BackCodes);
    }
  }

  lemma {:induction false} CenterPostAppends(src: BackSources, rw: real, log: seq<Warning>)
    ensures Appends(log, CenterPostOf(src, rw, log).log, BackCodes)
  {
    var enabled := AsBool(Pick(src.center_post_ir, src.preset_center_post, "enabled", JBool(false)), false);
    var thickness_raw := Pick(src.center_post_ir, src.preset_center_post, "thickness_mm", JNum(rw));
    var thickness := ClampedNonNegative(log, AsFloat(thickness_raw, rw), "back_support.center_post.thickness_mm");
    ClampAppends(log, AsFloat(thickness_raw, rw), "back_support.center_post.thickness_mm");
    var width := CenterPostWidthRaw(src, enabled, thickness.value, rw);
    ClampAppends(thickness.log, width, "back_support.center_post_width_mm");
    AppendsTrans(log, thickness.log, ClampedNonNegative(thickness.log, width, "back_support.center_post_width_mm").log, BackCodes);
  }

  lemma {:induction false} FrameNumbersAppends(src: BackSources, fd: FrameDefaults, rw: real, brh: real, log: seq<Warning>)
    ensures Appends(log, FrameNumbersOf(src, fd, rw, brh, log).log, BackCodes)
  {
    var bs, pb, pf := src.back_support, src.preset_back, src.preset_frame;
    var height := ClampedNonNegative(log, AsFloat(Pick(bs, pb, "height_above_seat_mm", JNum(fd.back_height_mm)), fd.back_height_mm), "back_support.height_above_seat_mm");
    ClampAppends(log, AsFloat(Pick(bs, pb, "height_above_seat_mm", JNum(fd.back_height_mm)), fd.back_height_mm), "back_support.height_above_seat_mm");
    var thickness := ClampedNonNegative(height.log, AsFloat(Pick(bs, pb, "thickness_mm", JNum(fd.back_thickness_mm)), fd.back_thickness_mm), "back_support.thickness_mm");
    ClampAppends(height.log, AsFloat(Pick(bs, pb, "thickness_mm", JNum(fd.back_thickness_mm)), fd.back_thickness_mm), "back_support.thickness_mm");
    AppendsTrans(log, height.log, thickness.log, BackCodes);
    var offset_y := ClampedRange(thickness.log, AsFloat(Pick(bs, pb, "offset_y_mm", JNum(0.0)), 0.0),
                                 "back_support.offset_y_mm", -100.0, 200.0, "[-100.0, 200.0]");
    if offset_y.value != AsFloat(Pick(bs, pb, "offset_y_mm", JNum(0.0)), 0.0) {
      AppendsOne(thickness.log, ResolverWarning("BACK_CLAMP", "back_support.offset_y_mm clamped to [-100.0, 200.0]",
                 "back_support.offset_y_mm", JNum(AsFloat(Pick(bs, pb, "offset_y_mm", JNum(0.0)), 0.0)), JNum(offset_y.value)), BackCodes);
    }
    AppendsTrans(log, thickness.log, offset_y.log, BackCodes);
    var margin_x := ClampedNonNegative(offset_y.log, AsFloat(Pick(bs, pb, "margin_x_mm", JNum(40.0)), 40.0), "back_support.margin_x_mm");
    ClampAppends(offset_y.log, AsFloat(Pick(bs, pb, "margin_x_mm", JNum(40.0)), 40.0), "back_support.margin_x_mm");
    AppendsTrans(log, offset_y.log, margin_x.log, BackCodes);
    var margin_z := ClampedNonNegative(margin_x.log, AsFloat(Pick(bs, pb, "margin_z_mm", JNum(30.0)), 30.0), "back_support.margin_z_mm");
    ClampAppends(margin_x.log, AsFloat(Pick(bs, pb, "margin_z_mm", JNum(30.0)), 30.0), "back_support.margin_z_mm");
    AppendsTrans(log, margin_x.log, margin_z.log, BackCodes);
    var rail_inset := ClampedNonNegative(margin_z.log, AsFloat(Pick(bs, pb, "rail_inset_mm", JNum(0.0)), 0.0), "back_support.rail_inset_mm");
    ClampAppends(margin_z.log, AsFloat(Pick(bs, pb, "rail_inset_mm", JNum(0.0)), 0.0), "back_support.rail_inset_mm");
    AppendsTrans(log, margin_z.log, rail_inset.log, BackCodes);
    var rail_width := ClampedNonNegative(rail_inset.log, rw, "back_support.rail_width_mm");
    ClampAppends(rail_inset.log, rw, "back_support.rail_width_mm");
    AppendsTrans(log, rail_inset.log, rail_width.log, BackCodes);
    var rail_depth := ClampedNonNegative(rail_width.log, AsFloat(Pick(bs, pb, "rail_depth_mm", JNum(fd.thickness_mm)), fd.thickness_mm), "back_support.rail_depth_mm");
    ClampAppends(rail_width.log, AsFloat(Pick(bs, pb, "rail_depth_mm", JNum(fd.thickness_mm)), fd.thickness_mm), "back_support.rail_depth_mm");
    AppendsTrans(log, rail_width.log, rail_depth.log, BackCodes);
    var rail_height := ClampedNonNegative(rail_depth.log, AsFloat(Pick(bs, pb, "rail_height_mm", JNum(rw)), rail_width.value), "back_support.rail_height_mm");
    ClampAppends(rail_depth.log, AsFloat(Pick(bs, pb, "rail_height_mm", JNum(rw)), rail_width.value), "back_support.rail_height_mm");
    AppendsTrans(log, rail_depth.log, rail_height.log, BackCodes);
    var gap := ClampedNonNegative(rail_height.log, AsFloat(Pick(bs, pf, "bottom_rail_gap_mm", JNum(60.0)), 60.0), "back_support.bottom_rail_gap_mm");
    ClampAppends(rail_height.log, AsFloat(Pick(bs, pf, "bottom_rail_gap_mm", JNum(60.0)), 60.0), "back_support.bottom_rail_gap_mm");
    AppendsTrans(log, rail_height.log, gap.log, BackCodes);
    var bottom := ClampedNonNegative(gap.log, brh, "back_support.bottom_rail_height_mm");
    ClampAppends(gap.log, brh, "back_support.bottom_rail_height_mm");
    AppendsTrans(log, gap.log, bottom.log, BackCodes);
  }

  lemma SupportAppends(src: BackSources, log: seq<Warning>)
    ensures Appends(log, SupportChecked(src, log), BackCodes)
  {
    var r := SupportChecked(src, log);
    if r != log {
      assert |r| == |log| + 1;
      assert r[..|log|] == log;
    }
  }

  lemma FrameLayoutAppends(src: BackSources, bottom_rail_split: bool, log: seq<Warning>)
    ensures Appends(log, FrameLayoutOf(src, bottom_rail_split, log).log, BackCodes)
  {
    var r := FrameLayoutOf(src, bottom_rail_split, log);
    if r.log != log {
      AppendsOne(log, r.log[|log|], BackCodes);
      assert r.log == log + [r.log[|log|]];
    }
  }

  lemma {:induction false} SlatsAppends(src: BackSources, orientation: string, layout: string, log: seq<Warning>)
    ensures Appends(log, SlatsOf(src, orientation, layout, log).log, BackCodes)
  {
    var si, ps := src.slats_ir, src.preset_slats;
    var count := ClampedCount(log, Pick(si, ps, "count", JNum(10.0)), 10, "back_support.slats.count");
    CountAppends(log, Pick(si, ps, "count", JNum(10.0)), 10, "back_support.slats.count");
    var width := ClampedNonNegative(count.log, AsFloat(Pick(si, ps, "width_mm", JNum(35.0)), 35.0), "back_support.slats.width_mm");
    ClampAppends(count.log, AsFloat(Pick(si, ps, "width_mm", JNum(35.0)), 35.0), "back_support.slats.width_mm");
    AppendsTrans(log, count.log, width.log, BackCodes);
    var thickness := ClampedNonNegative(width.log, AsFloat(Pick(si, ps, "thickness_mm", JNum(10.0)), 10.0),
                                        "back_support.slats.thickness_mm");
    ClampAppends(width.log, AsFloat(Pick(si, ps, "thickness_mm", JNum(10.0)), 10.0), "back_support.slats.thickness_mm");
    AppendsTrans(log, width.log, thickness.log, BackCodes);
    var arc := ClampedNonNegative(thickness.log, AsFloat(Pick(si, ps, "arc_height_mm", JNum(0.0)), 0.0),
                                  "back_support.slats.arc_height_mm");
    ClampAppends(thickness.log, AsFloat(Pick(si, ps, "arc_height_mm", JNum(0.0)), 0.0), "back_support.slats.arc_height_mm");
    AppendsTrans(log, thickness.log, arc.log, BackCodes);
    var gap := ClampedNonNegative(arc.log, AsFloat(PickValue(si, ps, "gap_mm", JNum(0.0)).0, 0.0), "back_support.slats.gap_mm");
    ClampAppends(arc.log, AsFloat(PickValue(si, ps, "gap_mm", JNum(0.0)).0, 0.0), "back_support.slats.gap_mm");
    AppendsTrans(log, arc.log, gap.log, BackCodes);
    ClampAppends(gap.log, AsFloat(Pick(si, ps, "center_gap_mm", JNum(0.0)), 0.0), "back_support.slats.center_gap_mm");
    AppendsTrans(log, gap.log, ClampedNonNegative(gap.log, AsFloat(Pick(si, ps, "center_gap_mm", JNum(0.0)), 0.0),
                                                  "back_support.slats.center_gap_mm").log, BackCodes);
  }

  lemma {:induction false} StrapsAppends(src: BackSources, log: seq<Warning>)
    ensures Appends(log, StrapsOf(src, log).log, BackCodes)
  {
    var si, ps := src.straps_ir, src.preset_straps;
    var count := ClampedCount(log, Pick(si, ps, "count", JNum(6.0)), 6, "back_support.straps.count");
    CountAppends(log, Pick(si, ps, "count", JNum(6.0)), 6, "back_support.straps.count");
    var width := ClampedNonNegative(count.log, AsFloat(Pick(si, ps, "width_mm", JNum(30.0)), 30.0), "back_support.straps.width_mm");
    ClampAppends(count.log, AsFloat(Pick(si, ps, "width_mm", JNum(30.0)), 30.0), "back_support.straps.width_mm");
    AppendsTrans(log, count.log, width.log, BackCodes);
    ClampAppends(width.log, AsFloat(Pick(si, ps, "thickness_mm", JNum(6.0)), 6.0), "back_support.straps.thickness_mm");
    AppendsTrans(log, width.log, ClampedNonNegative(width.log, AsFloat(Pick(si, ps, "thickness_mm", JNum(6.0)), 6.0),
                                                    "back_support.straps.thickness_mm").log, BackCodes);
  }

  lemma {:induction false} FramePartsAppends(src: BackSources, log: seq<Warning>)
    ensures Appends(log, FramePartsOf(src, log).log, BackCodes)
  {
    var checked := SupportChecked(src, log);
    SupportAppends(src, log);
    var fd := FrameDefaultsOf(src);
    var mode_raw := Pick(src.back_support, src.preset_back, "mode", JStr("panel"));
    var mode := CanonicalChoiceOf(checked, "back_support.mode", mode_raw, SupportModes, "panel");
    ChoiceAppends(checked, "back_support.mode", mode_raw, SupportModes, "panel");
    AppendsTrans(log, checked, mode.log, BackCodes);
    var rw := RailWidthDefault(src, fd);
    var cp := CenterPostOf(src, rw, mode.log);
    CenterPostAppends(src, rw, mode.log);
    AppendsTrans(log, mode.log, cp.log, BackCodes);
    var rh := RailHeightForDefault(src, rw, cp.log);
    ClampAppends(cp.log, AsFloat(Pick(src.back_support, src.preset_back, "rail_height_mm", JNum(rw)), rw),
                 "back_support.rail_height_mm");
    AppendsTrans(log, cp.log, rh.log, BackCodes);
    var brh := BottomRailHeightRaw(src, DefaultBottomRailHeight(rh.value), rh.value);
    var nums := FrameNumbersOf(src, fd, rw, brh, rh.log);
    FrameNumbersAppends(src, fd, rw, brh, rh.log);
    AppendsTrans(log, rh.log, nums.log, BackCodes);
    var layout := FrameLayoutOf(src, BottomRailSplit(src), nums.log);
    FrameLayoutAppends(src, BottomRailSplit(src), nums.log);
    AppendsTrans(log, nums.log, layout.log, BackCodes);
    var attach_raw := Pick(src.back_support, src.preset_frame, "bottom_rail_attach_mode", JStr("seat_rear_beam"));
    ChoiceAppends(layout.log, "back_support.bottom_rail_attach_mode", attach_raw, AttachModes, "seat_rear_beam");
    AppendsTrans(log, layout.log, CanonicalChoiceOf(layout.log, "back_support.bottom_rail_attach_mode", attach_raw,
                                                    AttachModes, "seat_rear_beam").log, BackCodes);
  }

  /**
   * `resolve_back_spec` never drops or rewrites an earlier warning: it only appends resolver
   * warnings coded BACK_FALLBACK, BACK_DEFAULT_USED or BACK_CLAMP.
   */
  lemma {:induction false} BackSpecAppends(ir: Obj, preset: Obj, log: seq<Warning>)
    ensures Appends(log, BackSpecOf(ir, preset, log).log, BackCodes)
  {
    var src := SourcesOf(ir, preset);
    var parts := FramePartsOf(src, log);
    FramePartsAppends(src, log);
    var o_raw := Pick(src.slats_ir, src.preset_slats, "orientation", JStr("vertical"));
    var orientation := CanonicalChoiceOf(parts.log, "back_support.slats.orientation", o_raw, SlatOrientations, "vertical");
    ChoiceAppends(parts.log, "back_support.slats.orientation", o_raw, SlatOrientations, "vertical");
    AppendsTrans(log, parts.log, orientation.log, BackCodes);
    var l_raw := Pick(src.slats_ir, src.preset_slats, "layout", JStr("full"));
    var slat_layout := CanonicalChoiceOf(orientation.log, "back_support.slats.layout", l_raw, SlatLayouts, "full");
    ChoiceAppends(orientation.log, "back_support.slats.layout", l_raw, SlatLayouts, "full");
    AppendsTrans(log, orientation.log, slat_layout.log, BackCodes);
    var slats := SlatsOf(src, orientation.value, slat_layout.value, slat_layout.log);
    SlatsAppends(src, orientation.value, slat_layout.value, slat_layout.log);
    AppendsTrans(log, slat_layout.log, slats.log, BackCodes);
    StrapsAppends(src, slats.log);
    AppendsTrans(log, slats.log, StrapsOf(src, slats.log).log, BackCodes);
  }

  /** Modes and layouts from their sets, sizes and counts non-negative, the offset within [-100, 200]. */
  predicate BackInRange(b: BackSpec) {
    b.mode in SupportModes && b.frame.frame_layout in FrameLayouts && b.frame.bottom_rail_attach_mode in AttachModes &&
    b.slats.orientation in SlatOrientations && b.slats.layout in SlatLayouts &&
    b.frame.height_above_seat_mm >= 0.0 && b.frame.thickness_mm >= 0.0 && -100.0 <= b.frame.offset_y_mm <= 200.0 &&
    b.frame.margin_x_mm >= 0.0 && b.frame.margin_z_mm >= 0.0 && b.frame.rail_inset_mm >= 0.0 &&
    b.frame.rail_width_mm >= 0.0 && b.frame.rail_depth_mm >= 0.0 && b.frame.rail_height_mm >= 0.0 &&
    b.frame.bottom_rail_gap_mm >= 0.0 && b.frame.bottom_rail_height_mm >= 0.0 &&
    b.frame.center_post.thickness_mm >= 0.0 && b.frame.center_post.width_mm >= 0.0 &&
    SlatsInRange(b.slats) && b.straps.count >= 0 && b.straps.width_mm >= 0.0 && b.straps.thickness_mm >= 0.0
  }

  /** Every resolved back value is canonical or clamped. */
  lemma BackSpecInRange(ir: Obj, preset: Obj, log: seq<Warning>)
    ensures BackInRange(BackSpecOf(ir, preset, log).value)
  {
    var src := SourcesOf(ir, preset);
    var parts := FramePartsOf(src, log);
    BackRestInRange(src, parts.value, parts.log);
  }

  /** The slats, straps and frame steps keep in range what the frame parts already had in range. */
  lemma BackRestInRange(src: BackSources, parts: FrameParts, log: seq<Warning>)
    requires parts.mode in SupportModes && parts.layout in FrameLayouts && parts.attach in AttachModes
    requires FrameNumbersInRange(parts.numbers)
    requires parts.center_post.thickness_mm >= 0.0 && parts.center_post.width_mm >= 0.0
    ensures BackInRange(BackRestOf(src, parts, log).value)
  {
    var o_raw := Pick(src.slats_ir, src.preset_slats, "orientation", JStr("vertical"));
    var orientation := CanonicalChoiceOf(log, "back_support.slats.orientation", o_raw, SlatOrientations, "vertical");
    var l_raw := Pick(src.slats_ir, src.preset_slats, "layout", JStr("full"));
    var slat_layout := CanonicalChoiceOf(orientation.log, "back_support.slats.layout", l_raw, SlatLayouts, "full");
    var b := BackRestOf(src, parts, log).value;
    assert b.frame == FrameSpecOf(src, parts, slat_layout.value);
    assert b.slats == SlatsOf(src, orientation.value, slat_layout.value, slat_layout.log).value;
  }

  /**
   * An enabled centre post, a split-centre slat layout or an explicit `split_center` forces the
   * "split_2" frame layout whatever layout was named; `split_center` is reported as requested.
   */
  lemma ForcedSplitLayout(ir: Obj, preset: Obj, log: seq<Warning>)
    ensures var b := BackSpecOf(ir, preset, log).value;
      (b.frame.center_post.enabled || b.slats.layout == "split_center" || SplitCenter(SourcesOf(ir, preset))) <==>
      b.frame.split_center
    ensures var b := BackSpecOf(ir, preset, log).value;
      b.frame.split_center ==> b.frame.frame_layout == "split_2"
  {
  }

  /**
   * With no `frame_layout` in the IR or the preset, the layout is "split_2" exactly when the
   * bottom rail is split or a split centre is requested, and "single" otherwise.
   */
  lemma FrameLayoutFromBottomRail(ir: Obj, preset: Obj, log: seq<Warning>)
    requires "frame_layout" !in SourcesOf(ir, preset).back_support && "frame_layout" !in SourcesOf(ir, preset).preset_frame
    ensures var f := BackSpecOf(ir, preset, log).value.frame;
      f.frame_layout == (if f.bottom_rail_split || f.split_center then "split_2" else "single")
  {
  }

  /** A named layout that is not "single", "full" or "split_2" resolves to "single" with one BACK_FALLBACK warning. */
  lemma UnknownFrameLayout(src: BackSources, bottom_rail_split: bool, log: seq<Warning>)
    requires "frame_layout" in src.back_support && src.back_support["frame_layout"].JStr?
    requires Canon(src.back_support["frame_layout"].s) !in {"single", "full", "split_2"}
    ensures FrameLayoutOf(src, bottom_rail_split, log) ==
      Logged("single", log + [ResolverWarning("BACK_FALLBACK", "unsupported back_support.frame_layout fallback to single",
                                              "back_support.frame_layout", src.back_support["frame_layout"], JStr("single"))])
  {
  }

  /** The IR's arms type beats the preset's; with neither (or `None`) the type is "none". */
  lemma ArmsTypeIrWins(ir: Obj, preset: Obj, log: seq<Warning>)
    ensures var arms, preset_arms := SubObj(ir, "arms"), SubObj(preset, "arms");
      ArmsOf(ir, preset, log).value.arms_type ==
        Layout.CanonArmsTypeOf(if "type" in arms then arms["type"] else GetOr(preset_arms, "type", JNull))
  {
    CanonOfLowerWord("none");
    assert ArmsOf(ir, preset, log).value.arms_type == ArmsTypeOf(ir, preset);
  }

  /**
   * A negative width becomes 0.0, reported by one ARMS_WIDTH_CLAMP warning right after the
   * earlier ones; the arms part adds only ARMS_WIDTH_CLAMP and PROFILE_FALLBACK_TO_BOX warnings.
   */
  lemma ArmsWidthClamp(ir: Obj, preset: Obj, log: seq<Warning>)
    ensures var r, w := ArmsOf(ir, preset, log), ArmsWidthRaw(ir, preset);
      r.value.width_mm == (if w < 0.0 then 0.0 else w) &&
      (w < 0.0 <==> |r.log| > |log| && r.log[|log|].code == "ARMS_WIDTH_CLAMP") &&
      (w < 0.0 ==> r.log[|log|] == ResolverWarning("ARMS_WIDTH_CLAMP", "arms.width_mm clamped to 0.0", "arms.width_mm",
                                                   JNum(w), JNum(0.0)))
    ensures Appends(log, ArmsOf(ir, preset, log).log, {"ARMS_WIDTH_CLAMP", "PROFILE_FALLBACK_TO_BOX"})
  {
    var codes := {"ARMS_WIDTH_CLAMP", "PROFILE_FALLBACK_TO_BOX"};
    var w := ArmsWidthRaw(ir, preset);
    var width := ArmsWidthOf(ir, preset, log);
    var profile := ProfileOf(ir, preset, width.log);
    ProfileAppendsOne(ir, preset, width.log);
    assert ArmsOf(ir, preset, log).log == profile.log;
    if w < 0.0 {
      AppendsOne(log, width.log[|log|], codes);
      assert width.log == log + [width.log[|log|]];
      assert profile.log[|log|] == profile.log[..|width.log|][|log|];
    } else {
      assert width.log == log;
      assert "PROFILE_FALLBACK_TO_BOX"[0] != "ARMS_WIDTH_CLAMP"[0];
      AppendsNone(log, codes);
    }
    if profile.log != width.log {
      AppendsOne(width.log, profile.log[|width.log|], codes);
      assert profile.log == width.log + [profile.log[|width.log|]];
      AppendsTrans(log, width.log, profile.log, codes);
    }
  }

  /** The profile step adds nothing, or one PROFILE_FALLBACK_TO_BOX resolver warning at the end. */
  lemma ProfileAppendsOne(ir: Obj, preset: Obj, log: seq<Warning>)
    ensures var p := ProfileOf(ir, preset, log).log;
      p == log ||
      (|p| == |log| + 1 && p[..|log|] == log && p[|log|].code == "PROFILE_FALLBACK_TO_BOX" && p[|log|].source == "resolver")
  {
    var p := ProfileOf(ir, preset, log).log;
    if p != log {
      assert p[..|log|] == log;
    }
  }

  /** With no arms type in the IR, whatever the style and preset id, `resolve` settles on "none". */
  lemma ResolvedArmsTypeDefaultsToNone(ir: Obj, preset_id: string)
    requires "type" !in SubObj(ir, "arms")
    ensures ResolvedOf(ir, preset_id).value.arms.arms_type == "none"
  {
    var style := StyleOf(ir);
    var effective := EffectivePresetId(style, preset_id);
    var preset := Catalog.FoldMerge(Catalog.PresetLayers(Catalog.StyleDefinitions, style, effective, ""));
    Catalog.PresetsNeverSetArmsType(style, effective, "");
    assert "type" !in SubObj(preset, "arms");
    ArmsTypeIrWins(ir, preset, []);
  }

  /** An explicit IR arms type is kept once canonicalised: "both" resolves to "both" under any style. */
  lemma ResolvedArmsTypeExplicit(ir: Obj, preset_id: string)
    requires "type" in SubObj(ir, "arms")
    ensures ResolvedOf(ir, preset_id).value.arms.arms_type == Layout.CanonArmsTypeOf(SubObj(ir, "arms")["type"])
  {
    var style := StyleOf(ir);
    var effective := EffectivePresetId(style, preset_id);
    var preset := Catalog.FoldMerge(Catalog.PresetLayers(Catalog.StyleDefinitions, style, effective, ""));
    ArmsTypeIrWins(ir, preset, []);
  }

  /** `resolve` reports arms warnings first, then the back's; every warning is a resolver warning with a known code. */
  lemma {:induction false} ResolveWarnings(ir: Obj, preset_id: string)
    ensures Appends([], ResolvedOf(ir, preset_id).log, BackCodes + {"ARMS_WIDTH_CLAMP", "PROFILE_FALLBACK_TO_BOX"})
  {
    var codes := BackCodes + {"ARMS_WIDTH_CLAMP", "PROFILE_FALLBACK_TO_BOX"};
    var style := StyleOf(ir);
    var effective := EffectivePresetId(style, preset_id);
    var preset := Catalog.FoldMerge(Catalog.PresetLayers(Catalog.StyleDefinitions, style, effective, ""));
    var arms := ArmsOf(ir, preset, []);
    ArmsWidthClamp(ir, preset, []);
    BackSpecAppends(ir, preset, arms.log);
    AppendsWiden(arms.log, BackSpecOf(ir, preset, arms.log).log, BackCodes, codes);
    AppendsWiden([], arms.log, {"ARMS_WIDTH_CLAMP", "PROFILE_FALLBACK_TO_BOX"}, codes);
    AppendsTrans([], arms.log, BackSpecOf(ir, preset, arms.log).log, codes);
  }

  lemma AppendsWiden(a: seq<Warning>, b: seq<Warning>, codes: set<string>, wider: set<string>)
    requires Appends(a, b, codes) && codes <= wider
    ensures Appends(a, b, wider)
  {
  }
}
