/**
 * The request and resolved-sofa schema: enum parsing after the alias validators, the seat-width
 * range check, the resolver that fills a request from its style's defaults, and the `sanity` rule
 * that a sofa with two armrests must be at least 900 mm of seats wide.
 */
module Schema {
  import opened Wrappers
  import opened Numeric
  import opened Ir
  import opened SchemaCanon

  datatype Style = Scandi | Loft | Modern | Minimal | Classic
  datatype SofaLayout = Straight | Corner | UShape | Modular
  datatype Orientation = LeftSide | RightSide
  datatype Armrest = NoArms | LeftArm | RightArm | BothArms
  datatype LegFamily = TaperedCone | TaperedPrism | Cylindrical | Block | Hairpin | Sled | FrameLegs
  datatype SeatType = SingleSeat | Cushions
  datatype ArmProfile = BoxProfile | RoundedBottom | Rolled
  datatype LegThickness = Thin | MediumThickness | Thick
  datatype Softness = Soft | MediumSoftness | Firm

  // ---------------------------------------------------------------------------------------------
  // Enum values by name
  // ---------------------------------------------------------------------------------------------

  function StyleName(s: Style): string {
    match s
    case Scandi => "scandi"
    case Loft => "loft"
    case Modern => "modern"
    case Minimal => "minimal"
    case Classic => "classic"
  }

  /** `SofaStyle(value)`: the member of that name, None where the enum raises. */
  function ParseStyle(name: string): (r: Option<Style>)
    ensures r.Some? ==> StyleName(r.value) == name
  {
    if name == "scandi" then Some(Scandi)
    else if name == "loft" then Some(Loft)
    else if name == "modern" then Some(Modern)
    else if name == "minimal" then Some(Minimal)
    else if name == "classic" then Some(Classic)
    else None
  }

  function LayoutName(l: SofaLayout): string {
    match l
    case Straight => "straight"
    case Corner => "corner"
    case UShape => "u_shape"
    case Modular => "modular"
  }

  function ParseLayout(name: string): (r: Option<SofaLayout>)
    ensures r.Some? ==> LayoutName(r.value) == name
  {
    if name == "straight" then Some(Straight)
    else if name == "corner" then Some(Corner)
    else if name == "u_shape" then Some(UShape)
    else if name == "modular" then Some(Modular)
    else None
  }

  function LegFamilyName(f: LegFamily): string {
    match f
    case TaperedCone => "tapered_cone"
    case TaperedPrism => "tapered_prism"
    case Cylindrical => "cylindrical"
    case Block => "block"
    case Hairpin => "hairpin"
    case Sled => "sled"
    case FrameLegs => "frame"
  }

  function ParseLegFamily(name: string): (r: Option<LegFamily>)
    ensures r.Some? ==> LegFamilyName(r.value) == name
  {
    if name == "tapered_cone" then Some(TaperedCone)
    else if name == "tapered_prism" then Some(TaperedPrism)
    else if name == "cylindrical" then Some(Cylindrical)
    else if name == "block" then Some(Block)
    else if name == "hairpin" then Some(Hairpin)
    else if name == "sled" then Some(Sled)
    else if name == "frame" then Some(FrameLegs)
    else None
  }

  /** Every member is parsed back from its name. */
  lemma ParseNames(s: Style, l: SofaLayout, f: LegFamily)
    ensures ParseStyle(StyleName(s)) == Some(s)
    ensures ParseLayout(LayoutName(l)) == Some(l)
    ensures ParseLegFamily(LegFamilyName(f)) == Some(f)
  {
  }

  /** The style field: the alias validator, then the enum; None where pydantic rejects the text. */
  function StyleField(text: string): Option<Style> {
    ParseStyle(Alias(StyleAliases, Some(text)).value)
  }

  function LayoutField(text: string): Option<SofaLayout> {
    ParseLayout(Alias(LayoutAliases, Some(text)).value)
  }

  function LegFamilyField(text: string): Option<LegFamily> {
    ParseLegFamily(Alias(LegAliases, Some(text)).value)
  }

  /**
   * Any text whose canonical form is in an alias table parses into the enum, and every member's
   * own name is accepted.
   */
  lemma AliasedTextParses(text: string)
    ensures AliasCanon(text) in StyleAliases ==> StyleField(text).Some?
    ensures AliasCanon(text) in LayoutAliases ==> LayoutField(text).Some?
    ensures AliasCanon(text) in LegAliases ==> LegFamilyField(text).Some?
  {
    StyleTextParses(text);
    LayoutTextParses(text);
    LegFamilyTextParses(text);
  }

  lemma StyleTextParses(text: string)
    ensures AliasCanon(text) in StyleAliases ==> StyleField(text).Some?
  {
    var c := AliasCanon(text);
    if c in StyleAliases {
      StyleLookups();
      var v := StyleAliases[c];
      assert Alias(StyleAliases, Some(text)) == Some(v);
      assert v in {"scandi", "loft", "modern", "minimal", "classic"};
    }
  }

  lemma LayoutTextParses(text: string)
    ensures AliasCanon(text) in LayoutAliases ==> LayoutField(text).Some?
  {
    var c := AliasCanon(text);
    if c in LayoutAliases {
      LayoutLookups();
      var v := LayoutAliases[c];
      assert Alias(LayoutAliases, Some(text)) == Some(v);
      assert v in {"straight", "corner", "u_shape", "modular"};
    }
  }

  lemma LegFamilyTextParses(text: string)
    ensures AliasCanon(text) in LegAliases ==> LegFamilyField(text).Some?
  {
    var c := AliasCanon(text);
    if c in LegAliases {
      LegLookups();
      var v := LegAliases[c];
      assert Alias(LegAliases, Some(text)) == Some(v);
      assert v in {"tapered_cone", "tapered_prism", "cylindrical", "block", "hairpin", "sled", "frame"};
    }
  }

  // ---------------------------------------------------------------------------------------------
  // Request
  // ---------------------------------------------------------------------------------------------

  datatype Preferences = Preferences(
    leg_thickness_bias: Option<LegThickness>, arm_profile: Option<ArmProfile>, seat_softness: Option<Softness>)

  /**
   * A raw request. `request_type` is the `type` field as given: `Some(t)` for a text (an omitted
   * field reads "sofa"), `None` for an explicit null.
   */
  datatype SofaRequest = SofaRequest(
    request_type: Option<string>,
    style: Style,
    layout: SofaLayout,
    orientation: Option<Orientation>,
    seat_height_mm: Option<int>,
    seat_depth_mm: Option<int>,
    seat_width_range_mm: Option<(int, int)>,
    seat_count: Option<int>,
    has_chaise: Option<bool>,
    armrests: Option<Armrest>,
    leg_family: Option<LegFamily>,
    transformable: Option<bool>,
    preferences: Option<Preferences>)

  predicate AcceptableRange(a: int, b: int) {
    a > 0 && b > 0 && a <= b && a >= 350 && b <= 1200
  }

  /** `validate_seat_width_range`: the range unchanged, or the first rule it breaks. */
  function ValidateSeatWidthRange(v: Option<(int, int)>): (r: Result<Option<(int, int)>>)
    ensures r.Ok? <==> v.None? || AcceptableRange(v.value.0, v.value.1)
    ensures r.Ok? ==> r.value == v
  {
    match v
    case None => Ok(None)
    case Some((a, b)) =>
      if a <= 0 || b <= 0 then Err("seat_width_range_mm values must be > 0")
      else if a > b then Err("seat_width_range_mm min must be <= max")
      else if a < 350 || b > 1200 then Err("seat_width_range_mm out of bounds (350..1200 mm)")
      else Ok(v)
  }

  predicate OptionalIn(v: Option<int>, lo: int, hi: int) {
    v.None? || lo <= v.value <= hi
  }

  /**
   * `_v_type` followed by the `Literal["sofa"]` check: the type passes through the type aliases
   * and must then read "sofa"; a null is kept and rejected.
   */
  predicate TypeAccepted(t: Option<string>) {
    Alias(TypeAliases, t) == Some("sofa")
  }

  /** A request type is accepted exactly when it is a text whose canonical form is a type alias. */
  lemma TypeAcceptedIff(t: Option<string>)
    ensures TypeAccepted(t) <==> t.Some? && AliasCanon(t.value) in TypeAliases
  {
    TypeLookups();
    if t.Some? && AliasCanon(t.value) !in TypeAliases && t.value == "sofa" {
      FoundTypeSofa(t.value);
    }
  }

  /** "sofa" is accepted. */
  lemma SofaTypeAccepted(w: string)
    requires w == "sofa"
    ensures TypeAccepted(Some(w))
  {
    FoundTypeSofa(w);
    TypeAcceptedIff(Some(w));
  }

  /** A type that is no alias of a sofa, such as "chair", is rejected. */
  lemma ChairTypeRejected(w: string)
    requires w == "chair"
    ensures !TypeAccepted(Some(w))
  {
    CanonOfPlainWord(w);
    TypeAcceptedIff(Some(w));
  }

  /** The type check and the field bounds every `SofaRequest` passes once pydantic has built it. */
  predicate RequestValid(req: SofaRequest) {
    TypeAccepted(req.request_type) && FieldsValid(req)
  }

  /** The field bounds of a request; resolution relies on these alone. */
  predicate FieldsValid(req: SofaRequest) {
    && OptionalIn(req.seat_height_mm, 250, 650)
    && OptionalIn(req.seat_depth_mm, 350, 900)
    && OptionalIn(req.seat_count, 1, 8)
    && ValidateSeatWidthRange(req.seat_width_range_mm).Ok?
  }

  // ---------------------------------------------------------------------------------------------
  // Resolved sofa and style defaults
  // ---------------------------------------------------------------------------------------------

  datatype LegsSpec = LegsSpec(family: LegFamily, height_mm: int, params: Obj)
  datatype ArmsSpec = ArmsSpec(kind: Armrest, width_mm: int, profile: ArmProfile)
  datatype FrameSpec = FrameSpec(thickness_mm: int, back_thickness_mm: int, back_height_above_seat_mm: int)

  datatype SofaResolved = SofaResolved(
    style: Style,
    layout: SofaLayout,
    orientation: Option<Orientation>,
    seat_count: int,
    seat_height_mm: int,
    seat_depth_mm: int,
    seat_width_mm: int,
    has_chaise: bool,
    transformable: bool,
    seat_type: SeatType,
    legs: LegsSpec,
    arms: ArmsSpec,
    frame: FrameSpec)

  /** The field bounds pydantic checks when a `SofaResolved` and its parts are built. */
  predicate ResolvedValid(r: SofaResolved) {
    && 1 <= r.seat_count <= 8
    && 250 <= r.seat_height_mm <= 650
    && 350 <= r.seat_depth_mm <= 900
    && 350 <= r.seat_width_mm <= 1200
    && 30 <= r.legs.height_mm <= 260
    && 0 <= r.arms.width_mm <= 400
    && 20 <= r.frame.thickness_mm <= 80
    && 50 <= r.frame.back_thickness_mm <= 180
    && 250 <= r.frame.back_height_above_seat_mm <= 700
  }

  datatype StyleDefaults = StyleDefaults(
    seat_count: int,
    seat_height_mm: int,
    seat_depth_mm: int,
    seat_width_mm: int,
    has_chaise: bool,
    transformable: bool,
    seat_type: SeatType,
    legs: LegsSpec,
    arms: ArmsSpec,
    frame: FrameSpec)

  /** `STYLE_DEFAULTS`. */
  function Defaults(style: Style): StyleDefaults {
    match style
    case Scandi => StyleDefaults(3, 440, 600, 600, false, false, Cushions,
      LegsSpec(TaperedCone, 160, map["r_top" := JNum(22.0), "r_bottom" := JNum(12.0)]),
      ArmsSpec(BothArms, 120, BoxProfile), FrameSpec(35, 90, 420))
    case Loft => StyleDefaults(3, 430, 620, 620, false, false, SingleSeat,
      LegsSpec(FrameLegs, 120, map[]), ArmsSpec(BothArms, 140, BoxProfile), FrameSpec(40, 110, 420))
    case Modern => StyleDefaults(3, 450, 620, 620, false, false, SingleSeat,
      LegsSpec(Block, 80, map[]), ArmsSpec(BothArms, 130, RoundedBottom), FrameSpec(40, 100, 400))
    case Minimal => StyleDefaults(3, 430, 600, 620, false, false, SingleSeat,
      LegsSpec(Block, 40, map[]), ArmsSpec(BothArms, 110, BoxProfile), FrameSpec(35, 90, 380))
    case Classic => StyleDefaults(3, 460, 590, 600, false, false, Cushions,
      LegsSpec(TaperedPrism, 120, map["top" := JArr([JNum(45.0), JNum(45.0)]), "bottom" := JArr([JNum(30.0), JNum(30.0)])]),
      ArmsSpec(BothArms, 170, Rolled), FrameSpec(45, 120, 480))
  }

  // ---------------------------------------------------------------------------------------------
  // Resolver
  // ---------------------------------------------------------------------------------------------

  /** Python `value or default` for an optional count or length: a missing value or 0 takes the default. */
  function OrDefault(v: Option<int>, default: int): int {
    if v.Some? && v.value != 0 then v.value else default
  }

  /** `int(round((a + b) / 2))`. */
  function Midpoint(a: int, b: int): int {
    RoundHalfEven((a + b) as real / 2.0)
  }

  /** The rounded midpoint of a range lies within the range. */
  lemma MidpointWithin(a: int, b: int)
    requires a <= b
    ensures a <= Midpoint(a, b) <= b
  {
    var m := (a + b) as real / 2.0;
    assert a as real <= m <= b as real;
  }

  /** The thin bias: 80 % of the radius, rounded, and at least `floor`. */
  function Thinner(r: int, floor: int): int {
    Max(floor as real, RoundHalfEven(r as real * 0.8) as real).Floor
  }

  /** The thick bias: 120 % of the radius, rounded, and at most `ceiling`. */
  function Thicker(r: int, ceiling: int): int {
    Min(ceiling as real, RoundHalfEven(r as real * 1.2) as real).Floor
  }

  /**
   * The thin bias never widens a radius that is already above its floor, and the thick bias never
   * narrows one that is already below its ceiling.
   */
  lemma BiasDirection(r: int, bound: int)
    requires r >= 0
    ensures Thinner(r, bound) >= bound
    ensures r >= bound ==> Thinner(r, bound) <= r
    ensures Thicker(r, bound) <= bound
    ensures r <= bound ==> Thicker(r, bound) >= r
  {
    var t := RoundHalfEven(r as real * 0.8);
    var k := RoundHalfEven(r as real * 1.2);
    assert t as real <= r as real * 0.8 + 0.5;
    assert k as real >= r as real * 1.2 - 0.5;
  }

  /** The radii of a tapered-cone or cylindrical leg with the leg-thickness bias applied. */
  function BiasedParams(params: Obj, bias: LegThickness): (r: Obj)
    requires bias == Thin || bias == Thick
    ensures r.Keys == params.Keys + {"r_top", "r_bottom"}
    ensures forall k :: k in params && k != "r_top" && k != "r_bottom" ==> r[k] == params[k]
  {
    var r_top := AsInt(GetOr(params, "r_top", JNum(22.0)), 22);
    var r_bottom := AsInt(GetOr(params, "r_bottom", JNum(12.0)), 12);
    var top := if bias == Thin then Thinner(r_top, 10) else Thicker(r_top, 45);
    var bottom := if bias == Thin then Thinner(r_bottom, 6) else Thicker(r_bottom, 40);
    params["r_top" := JNum(top as real)]["r_bottom" := JNum(bottom as real)]
  }

  /** The legs after the optional thickness bias: only thin or thick, and only on cone or cylinder legs. */
  function BiasedLegs(legs: LegsSpec, bias: Option<LegThickness>): (r: LegsSpec)
    ensures r.family == legs.family && r.height_mm == legs.height_mm
    ensures r.params != legs.params ==> bias.Some? && bias.value != MediumThickness
    ensures r.params != legs.params ==> legs.family == TaperedCone || legs.family == Cylindrical
  {
    if bias.Some? && (bias.value == Thin || bias.value == Thick) && (legs.family == TaperedCone || legs.family == Cylindrical)
    then legs.(params := BiasedParams(legs.params, bias.value))
    else legs
  }

  /**
   * `resolve_sofa` before the resolved record's own validation: the request's values where given,
   * else the style's defaults, with the layout, armrest and preference rules applied.
   */
  function Build(req: SofaRequest): SofaResolved {
    var d := Defaults(req.style);
    var orientation :=
      if (req.layout == Corner || req.layout == UShape) && req.orientation.None? then Some(LeftSide)
      else req.orientation;
    var seat_width_mm :=
      if req.seat_width_range_mm.Some? then Midpoint(req.seat_width_range_mm.value.0, req.seat_width_range_mm.value.1)
      else d.seat_width_mm;
    var legs := d.legs.(family := req.leg_family.GetOr(d.legs.family));
    var arms :=
      if req.armrests.None? then d.arms
      else if req.armrests.value == NoArms then d.arms.(kind := NoArms, width_mm := 0)
      else d.arms.(kind := req.armrests.value);
    var (legs', arms', seat_type) :=
      if req.preferences.None? then (legs, arms, d.seat_type)
      else
        var p := req.preferences.value;
        (BiasedLegs(legs, p.leg_thickness_bias),
         if p.arm_profile.Some? then arms.(profile := p.arm_profile.value) else arms,
         if p.seat_softness == Some(Soft) || p.seat_softness == Some(MediumSoftness) then Cushions else d.seat_type);
    SofaResolved(
      req.style, req.layout, orientation,
      OrDefault(req.seat_count, d.seat_count),
      OrDefault(req.seat_height_mm, d.seat_height_mm),
      OrDefault(req.seat_depth_mm, d.seat_depth_mm),
      seat_width_mm,
      req.has_chaise.GetOr(d.has_chaise),
      req.transformable.GetOr(d.transformable),
      seat_type, legs', arms', d.frame)
  }

  /** `SofaResolved.sanity`: two armrests need at least 900 mm of seats. */
  function Sanity(r: SofaResolved): (result: Result<SofaResolved>)
    ensures result.Err? <==> r.arms.kind == BothArms && r.seat_count * r.seat_width_mm < 900
    ensures result.Ok? ==> result.value == r
  {
    if r.arms.kind == BothArms && r.seat_count * r.seat_width_mm < 900 then
      Err("Too small sofa for two armrests with given seat_count/seat_width_mm")
    else Ok(r)
  }

  /** `resolve_sofa`. */
  function Resolve(req: SofaRequest): Result<SofaResolved> {
    Sanity(Build(req))
  }

  /** A valid request always builds a record within every field bound of the resolved schema. */
  lemma BuildInBounds(req: SofaRequest)
    requires FieldsValid(req)
    ensures ResolvedValid(Build(req))
  {
    if req.seat_width_range_mm.Some? {
      MidpointWithin(req.seat_width_range_mm.value.0, req.seat_width_range_mm.value.1);
    }
  }

  /**
   * The resolver fails only through `sanity`: exactly when the sofa ends up with two armrests and
   * less than 900 mm of seats.
   */
  lemma ResolveFailsIff(req: SofaRequest)
    ensures Resolve(req).Err? <==>
      var r := Build(req); r.arms.kind == BothArms && r.seat_count * r.seat_width_mm < 900
  {
  }

  /**
   * Orientation: corner and U-shaped sofas without one face left, every other request keeps its own.
   * Seat width: the rounded midpoint of the given range, else the style default. Armrests "none"
   * take no width; other given armrests keep the style's width.
   */
  lemma ResolveChoices(req: SofaRequest)
    requires FieldsValid(req)
    ensures var r := Build(req);
      && ((req.layout == Corner || req.layout == UShape) && req.orientation.None? ==> r.orientation == Some(LeftSide))
      && (req.orientation.Some? || (req.layout != Corner && req.layout != UShape) ==> r.orientation == req.orientation)
      && (req.seat_width_range_mm.Some? ==>
            var (a, b) := req.seat_width_range_mm.value;
            r.seat_width_mm == Midpoint(a, b) && a <= r.seat_width_mm <= b)
      && (req.seat_width_range_mm.None? ==> r.seat_width_mm == Defaults(req.style).seat_width_mm)
      && (req.armrests == Some(NoArms) ==> r.arms.kind == NoArms && r.arms.width_mm == 0)
      && (req.armrests.Some? && req.armrests.value != NoArms ==>
            r.arms.kind == req.armrests.value && r.arms.width_mm == Defaults(req.style).arms.width_mm)
      && (req.seat_count.Some? ==> r.seat_count == req.seat_count.value)
  {
    if req.seat_width_range_mm.Some? {
      MidpointWithin(req.seat_width_range_mm.value.0, req.seat_width_range_mm.value.1);
    }
  }

  /**
   * Preferences: soft or medium seats are cushions, any other choice the style's seat type; the
   * thickness bias changes only cone and cylinder legs, to at least 10/6 mm radii when thin and
   * at most 45/40 mm when thick.
   */
  lemma ResolvePreferences(req: SofaRequest)
    ensures var r := Build(req);
      && (req.preferences.Some? && req.preferences.value.seat_softness in {Some(Soft), Some(MediumSoftness)} ==>
            r.seat_type == Cushions)
      && (req.preferences.None? || req.preferences.value.seat_softness !in {Some(Soft), Some(MediumSoftness)} ==>
            r.seat_type == Defaults(req.style).seat_type)
      && r.legs.family == req.leg_family.GetOr(Defaults(req.style).legs.family)
      && (r.legs.params != Defaults(req.style).legs.params ==> r.legs.family == TaperedCone || r.legs.family == Cylindrical)
      && (req.preferences.Some? && req.preferences.value.leg_thickness_bias == Some(Thin) &&
          (r.legs.family == TaperedCone || r.legs.family == Cylindrical) ==>
            r.legs.params["r_top"].JNum? && r.legs.params["r_top"].n >= 10.0 &&
            r.legs.params["r_bottom"].JNum? && r.legs.params["r_bottom"].n >= 6.0)
      && (req.preferences.Some? && req.preferences.value.leg_thickness_bias == Some(Thick) &&
          (r.legs.family == TaperedCone || r.legs.family == Cylindrical) ==>
            r.legs.params["r_top"].JNum? && r.legs.params["r_top"].n <= 45.0 &&
            r.legs.params["r_bottom"].JNum? && r.legs.params["r_bottom"].n <= 40.0)
  {
  }

  /** Every style's own defaults pass `sanity`: three seats of at least 600 mm. */
  lemma DefaultsPassSanity(style: Style)
    ensures var d := Defaults(style); d.seat_count * d.seat_width_mm >= 900
  {
  }

  /** A one-seat Scandinavian sofa with the default two armrests is rejected by `sanity`. */
  lemma OneSeatWithTwoArmsRejected()
    ensures Resolve(SofaRequest(Some("sofa"), Scandi, Straight, None, None, None, None, Some(1), None, None, None, None, None)).Err?
  {
  }
}
