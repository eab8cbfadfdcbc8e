# AMS sofa builder: a verified Dafny model of its core

The repository turns a loosely typed description of a sofa (the IR: nested
dictionaries, lists and scalars, usually produced from Russian text by an NER
model) into a build plan of box, cylinder and cone primitives for Blender. It
also ships the debugging tools around that build. This project models the
parts of it that decide values, and proves what they promise:

- **Spec resolution.** Typed back, arms and legs settings come from the IR,
  a style preset and global defaults. Clamps and fallbacks are logged as
  warnings (`resolve.py`, `catalog.py`).
- **Layout and components.** The layout is computed from the IR. The seat
  frame, seat slats, back (panel, slats, straps), arms and legs append
  primitives, anchors and diagnostic events to a build plan. Finalising adds
  the seat anchor and a `BUILD_DONE` event. A rounded snapshot of the plan is
  used for regression tests.
- **Diagnostics.** Events are built by `make_event`/`emit_simple` and
  collected by a sink.
- **Debug tools.** These are the validators (overlap, bend, modifier, and
  expected-object checks), scene metrics over bounding boxes, rule-based
  autofix, visualisation colour and category choices, and the LLM
  suggestion stub.
- **The schema.** Enums, numeric bounds and the canonicalising validators
  of the Pydantic schema.
- **The NER side.** BIO decoding, word-tag alignment, entity normalisation
  into schema fields, and the training bookkeeping (label list, sub-token
  alignment, -100 filtering). It also covers the synthetic dataset's
  tagging scans.

Each module follows its Python file. Pure helpers are functions with
lemmas. Code that appends to a plan, a warnings list or an event sink
becomes methods on classes (`BuildPlan`, `ResolveDiagnostics`,
`DiagnosticsSink`, `Fixer`, `Labelling`). Those methods are proved against
specification functions. Loops are `while`/`for` loops with invariants.
Python dictionaries are maps. Floats are reals. Python's integer
operations, rounding (half to even) and `int()` truncation are written out.

## Model

| member | source | states |
|---|---|---|
| Ir.AsFloat | src/builders/blender/spec/resolve.py:58-62 | numbers give themselves, booleans 1.0/0.0, finite decimal strings their value (white space, sign, underscores between digits, exponent), everything else the default |
| Ir.AsInt | src/builders/blender/spec/resolve.py:65-69 | numbers truncate toward zero, booleans give 1/0, integer strings their value (white space, sign, underscores between digits), everything else the default |
| Ir.ParseIntOfString | src/builders/blender/spec/resolve.py:65-69 | `int(str(n)) == n` for every non-negative n |
| Ir.ParseFloatOfString | src/builders/blender/spec/resolve.py:58-62 | `float(str(n)) == n` for every non-negative n |
| Ir.ParseDigitPart | src/builders/blender/spec/resolve.py:58-69 | digits with single underscores between them read, under both `float()` and `int()`, as the digits without the underscores |
| Ir.ParseExponent | src/builders/blender/spec/resolve.py:58-62 | `float(d + "e" + x)` is d times 10 to the x and `float(d + "e-" + x)` is d divided by 10 to the x |
| Ir.DigitPartJoin | src/builders/blender/spec/resolve.py:58-69 | two digit groups joined by an underscore ("1_000") are accepted and are worth the digits written together |
| Ir.PyStr | tools/blender/debug/validators.py:445 | `str(value)` is known exactly for text, None, booleans and whole numbers, and unknown for fractional numbers, lists and dicts |
| Ir.PyStrIntRoundTrip | src/builders/blender/spec/resolve.py:65-69 | `str` of a whole number is its integer text, and `int(str(n)) == n` for every integer n |
| GeomUtils.IrValue | src/builders/blender/geom_utils.py:15-20 | a missing key or a value `float()` rejects gives the default; otherwise the value's float |
| GeomUtils.Clamp | src/builders/blender/geom_utils.py:23-24 | with min <= max the result lies in [min, max]; it is the value when inside, min when below and max when above |
| GeomUtils.PrimitiveBBoxWorld | src/builders/blender/geom_utils.py:27-66 | for an unrotated primitive the box is centred on the location and its extent is the dimensions; non-negative dimensions give a well-formed box |
| GeomUtils.UnionContainsAll | src/builders/blender/geom_utils.py:77-87 | every box lies inside the union of the boxes |
| GeomUtils.UnionAttained | src/builders/blender/geom_utils.py:77-87 | each of the six union bounds is the bound of some box, so the union is the tightest box |
| GeomUtils.PrimitivesUnionBBox | src/builders/blender/geom_utils.py:69-96 | the loop computes the union of the primitives' boxes; no primitive gives the zero box |
| GeomUtils.UnionContainsEveryPrimitive | src/builders/blender/geom_utils.py:69-96 | every primitive's box lies inside `primitives_union_bbox` |
| Layout.CanonArmsType | src/builders/blender/layout.py:9-15 | the result is always one of left/right/both/none; the stripped lower-cased value when it is one of them, "none" otherwise |
| Layout.CanonArmsTypeOf | src/builders/blender/layout.py:9-15 | a non-string gives "none"; strings as `CanonArmsType` |
| Layout.ArmsCount | src/builders/blender/layout.py:18-23 | 2 exactly for "both", 1 exactly for left/right, 0 otherwise |
| Layout.MakeLayout | src/builders/blender/layout.py:31-73 | the seat spans the total seat width centred on x = 0 and the depth centred on y = 0; the support top is the seat height, the frame levels are one and one-half thickness below, and they are strictly ordered for a positive thickness; the back plane is half a thickness behind the seat's back edge |
| Layout.ComputeLayout | src/builders/blender/layout.py:26-73 | the seat count is `max(1, int(seat_count))` with 3 when absent, so at least 1; widths and heights are read from the IR with their defaults, the frame thickness from the `frame` dict; the total width adds `max(0, arms width)` once per arm; every other field is the `MakeLayout` geometry of these numbers |
| Layout.DefaultLayout | src/builders/blender/layout.py:26-73 | an empty IR gives 3 seats of 600 mm (1800 mm), seat top 440, seat corner (-900, -300), base frame top 405 |
| Layout.ExampleLayout | tests/test_layout_regression.py:1-58 | the regression IR (600 x 520 x 445, 3 seats) gives the seat extents ±900 and ±260 and seat top 445 |
| PlanTypes.NewPrimitive | src/builders/blender/plan_types.py:10-20 | a new primitive has no rotation and no parameters |
| PlanTypes.BuildPlan.constructor | src/builders/blender/plan_types.py:30-35 | a new plan is empty |
| PlanTypes.BuildPlan.AddPrimitive | src/builders/blender/plan_types.py:33 | appends one primitive and changes nothing else |
| PlanTypes.BuildPlan.AddAnchor | src/builders/blender/plan_types.py:34 | appends one anchor and changes nothing else |
| Finalize.BuildDoneValue | src/builders/blender/finalize.py:21-25 | the event value holds exactly the IR id (null when absent) and the two counts |
| Finalize.FinalizePlan | src/builders/blender/finalize.py:10-27 | appends the seat-zone anchor at the seat support centre, emits one `BUILD_DONE` event counting the plan after that append, and returns the same plan |
| Finalize.BuildDoneShape | src/builders/blender/finalize.py:12-20 | the event is `BUILD_DONE`, INFO, from component "builder" at stage "build" |
| Finalize.BuildDoneCounts | src/builders/blender/finalize.py:21-25 | the event's value is the IR id and the two counts |
| PlanSnapshot.RoundValueShape | src/builders/blender/plan_snapshot.py:10-22 | booleans, strings and null pass through; numbers move by at most half a millionth; lists and dicts keep their shape and keys and are rounded member by member |
| PlanSnapshot.Round6Idempotent | src/builders/blender/plan_snapshot.py:14 | rounding to 6 decimals twice equals rounding once |
| PlanSnapshot.RoundValueIdempotent | src/builders/blender/plan_snapshot.py:10-22 | `_round_value` is idempotent on every value |
| PlanSnapshot.PlanToSnapshot | src/builders/blender/plan_snapshot.py:25-52 | the two loops build the snapshot of the plan's primitives and anchors, in order |
| PlanSnapshot.SnapshotEntries | src/builders/blender/plan_snapshot.py:26-52 | the snapshot has exactly the keys "primitives" and "anchors", one entry per primitive and anchor, with its name, shape and rounded location |
| PlanSnapshot.SnapshotStable | src/builders/blender/plan_snapshot.py:10-52 | rounding a snapshot again changes nothing |
| SpecTypes.ResolveDiagnostics.Extend | src/builders/blender/spec/resolve.py:36-54 | appends the given warnings after the existing ones, in order |
| Diagnostics.SeverityLabel | src/builders/blender/diagnostics.py:13-28 | a severity has a label exactly when it lies between INFO and FATAL |
| Diagnostics.InVocabulary | src/builders/blender/diagnostics.py:83-91 | the stage, component or source is always in its vocabulary: the stripped lower-cased value when it is in it, the default otherwise |
| Diagnostics.ClampSeverity | src/builders/blender/diagnostics.py:92-102 | the severity is always between INFO and FATAL; a value `int()` rejects gives INFO, values above FATAL give FATAL, below INFO give INFO, the rest themselves |
| Diagnostics.MakeEvent | src/builders/blender/diagnostics.py:66-109 | the event is well formed; an empty timestamp is replaced by the clock; vocabularies and severity are canonicalised; code, path, reason and values are kept; a non-dict meta becomes empty |
| Diagnostics.MergedMeta | src/builders/blender/diagnostics.py:130-134 | meta keeps every caller key; "payload" is added only when a payload is given and the key is absent; "iter_index" is set when an index is given; no other key appears |
| Diagnostics.SimpleEvent | src/builders/blender/diagnostics.py:112-148 | `emit_simple` builds the `make_event` event over the merged meta |
| Diagnostics.NormalizeEvent | src/builders/blender/diagnostics.py:160-176 | an event with timestamp and run id passes unchanged; otherwise it is rebuilt well formed with the same run id, code and meta |
| Diagnostics.NormalizeWellFormed | src/builders/blender/diagnostics.py:160-176 | a well-formed event with a timestamp is written as it is |
| Diagnostics.RebuildCanonicalEvent | src/builders/blender/diagnostics.py:160-176 | rebuilding an already canonical event without a run id gives the same event |
| Diagnostics.VocabulariesAreCanonical | src/builders/blender/diagnostics.py:30-34 | every stage, source and component name is already stripped and lower case, so canonicalising keeps it |
| Diagnostics.DiagnosticsSink.Emit | src/builders/blender/diagnostics.py:153-197 | a sink receives each emitted event once, in order |
| Diagnostics.EmitSimple | src/builders/blender/diagnostics.py:112-150 | the sink receives exactly the returned event, appended after the earlier ones |
| SeatFrame.CrossCount | src/builders/blender/components/seat_frame.py:52 | between 2 and 4 cross beams; seat count + 1 for 1 to 3 seats |
| SeatFrame.InnerWidth | src/builders/blender/components/seat_frame.py:53 | the inner width is at least 1 mm |
| SeatFrame.CrossSpacing | src/builders/blender/components/seat_frame.py:54 | the spacing is positive |
| SeatFrame.CrossBeams | src/builders/blender/components/seat_frame.py:55-68 | one cross beam per count, beam i at its spaced position |
| SeatFrame.BuildSeatFrameDefault | src/builders/blender/components/seat_frame.py:17-78 | appends the seat-frame primitives to the plan and leaves anchors and metadata alone |
| SeatFrame.BuildSeatFrame | src/builders/blender/components/seat_frame.py:86-104 | emits one `STRATEGY_SELECTED` event, then appends the default strategy's primitives |
| SeatFrame.SeatFrameNames | src/builders/blender/components/seat_frame.py:23-78 | front, back, left and right beams first, then `beam_cross_1..n`, and a `seat_support` board exactly when slats are disabled |
| SeatFrame.CrossBeamsOrdered | src/builders/blender/components/seat_frame.py:52-56 | cross beams are strictly increasing in x and lie strictly inside the inner width |
| SeatFrame.SeatFrameMirror | src/builders/blender/components/seat_frame.py:18-56 | cross beam i mirrors beam n-1-i; the front/back and left/right beams are mirror images |
| SeatFrame.SeatFrameHeights | src/builders/blender/components/seat_frame.py:29-76 | every beam sits at the base-frame centre height and the support board at the support centre |
| SeatFrame.SeatFrameExample | tests/test_seat_frame_regression.py:1-101 | two seats with slats give exactly the four perimeter beams and three cross beams, in order |
| SeatSlats.SlatLength | src/builders/blender/components/seat_slats.py:21 | the slat length is at least 1 mm and at least the depth minus both margins |
| SeatSlats.RailLength | src/builders/blender/components/seat_slats.py:22 | the rail length is at least 1 mm |
| SeatSlats.UsableWidth | src/builders/blender/components/seat_slats.py:23 | the usable width is at least 1 mm |
| SeatSlats.SlatSpan | src/builders/blender/components/seat_slats.py:27 | the span is never negative |
| SeatSlats.SlatCenters | src/builders/blender/components/seat_slats.py:24-30 | one centre per slat |
| SeatSlats.SlatCenterZ | src/builders/blender/components/seat_slats.py:33-42 | centred mounting hangs the slat below the support top; otherwise the slat's underside is the frame top plus offset and clearance |
| SeatSlats.Slats | src/builders/blender/components/seat_slats.py:79-95 | one slat per centre, slat i at centre i |
| SeatSlats.BuildSeatSlatsDefault | src/builders/blender/components/seat_slats.py:17-95 | appends the rails (when they fit), the two plane anchors and the slats; nothing when slats are disabled |
| SeatSlats.BuildSeatSlats | src/builders/blender/components/seat_slats.py:103-121 | emits one `STRATEGY_SELECTED` event, then runs the default strategy |
| SeatSlats.SlatCentersEvenlySpaced | src/builders/blender/components/seat_slats.py:27-30 | the first centre is half a slat in from the usable edge, consecutive centres differ by the step, and the layout is symmetric about x = 0 when a slat fits |
| SeatSlats.SlatCentersExtremes | src/builders/blender/components/seat_slats.py:44-45 | `min`/`max` of the centres are the first and the last centre |
| SeatSlats.RailTopIsSlatPlane | src/builders/blender/components/seat_slats.py:46-69 | when rails are built, both rail tops are at the base-frame top |
| SeatSlats.SeatSlatsAnchorOrder | src/builders/blender/components/seat_slats.py:53-78 | anchors are the rails (with the rails' locations) when they fit, then `slat_plane_z` and `slat_area_center`; primitives are the rails then one per slat |
| SeatSlats.SlatNaming | src/builders/blender/components/seat_slats.py:79-95 | slat i is named `slat_<i+1>`, shaped "slat", oriented horizontally |
| SeatSlats.SlatsDisabled | src/builders/blender/components/seat_slats.py:18-19 | disabled slats add nothing |
| LegStrategies.BuildLegPassthroughStrategy | src/builders/blender/components/legs_strategies/leg_passthrough.py:8-23 | appends one leg whose shape is the family name |
| LegStrategies.BuildLegTaperedConeStrategy | src/builders/blender/components/legs_strategies/leg_tapered_cone.py:8-22 | appends one "tapered_cone" leg |
| LegStrategies.BuildLegCylindricalStrategy | src/builders/blender/components/legs_strategies/leg_cylindrical.py:8-22 | appends one "cylindrical" leg |
| Legs.Family | src/builders/blender/components/legs.py:16-20 | a non-empty string family is kept, anything else is "block"; the family is never empty |
| Legs.Height | src/builders/blender/components/legs.py:23-27 | no height gives 160 mm, otherwise the given height |
| Legs.HandlerName | src/builders/blender/components/legs.py:34-42 | the handler is one of the four; passthrough exactly for families outside block/tapered_cone/cylindrical |
| Legs.LegPoints | src/builders/blender/components/legs.py:61-70 | four leg points |
| Legs.BuildCorner | src/builders/blender/components/legs.py:72-94 | one corner appends its `leg_point_<i>` anchor and, for a shown handler, its leg |
| Legs.BuildCorners | src/builders/blender/components/legs.py:72-94 | the loop appends the four anchors and legs in corner order and records the four handler calls |
| Legs.BuildLegs | src/builders/blender/components/legs.py:30-94 | one `STRATEGY_SELECTED` event first, then the corners |
| Legs.LegsEventShape | src/builders/blender/components/legs.py:44-59 | the event is INFO for component "legs" with value `{"family": f}` and payload key and handler |
| Legs.LegsGeometry | src/builders/blender/components/legs.py:61-79 | the legs stand at the four corners inset by half a thickness, their tops touch the base frame's underside, anchors and calls use the same points, each leg is thickness x thickness x height |
| Legs.LegsShapes | src/builders/blender/components/legs.py:72-94 | leg i is `leg_<i+1>` at its anchor, unrotated; a passthrough leg takes the family as its shape |
| Legs.LegsDefaults | src/builders/blender/components/legs.py:16-27 | no family and no height give block legs of 160 mm and the block handler |
| Legs.LegsExample | tests/test_legs_regression.py:1-130 | the regression inputs put the legs at (±993, ±243, 302) with dimensions 34 x 34 x 150 |
| ArmBox.ArmHeight | src/builders/blender/components/arms_strategies/arm_box.py:27 | the arm height is the larger of twice the frame thickness and 65 % of the seat height |
| ArmBox.AddPrimitive | src/builders/blender/components/arms_strategies/arm_box.py:8-10 | appends the primitive both to the plan and to the caller's output list |
| ArmBox.BuildArmBoxStrategy | src/builders/blender/components/arms_strategies/arm_box.py:13-38 | appends the side's arm board to the plan and the output list, and its `arm_<side>_zone` anchor |
| ArmBox.ArmBoxPlacement | src/builders/blender/components/arms_strategies/arm_box.py:25-38 | the left and right boards mirror each other, sit flush against the seat's sides, stand on the base-frame top, and the zone anchor is above the board at seat height |
| Arms.Profile | src/builders/blender/components/arms.py:32-56 | the profile is always box or frame_box_open; a supported profile is kept |
| Arms.SeatCount | src/builders/blender/components/arms.py:26 | at least one seat |
| Arms.ArmsWidth | src/builders/blender/components/arms.py:31 | the arm width is never negative |
| Arms.Sides | src/builders/blender/components/arms.py:81-82 | the left arm is built exactly for both/left, the right exactly for both/right, one side per counted arm |
| Arms.BuildSide | src/builders/blender/components/arms.py:84-142 | one side appends the box board and zone when the profile is box |
| Arms.EmitArmsEvents | src/builders/blender/components/arms.py:41-79 | emits the fallback warning (when needed) and the strategy event |
| Arms.BuildSides | src/builders/blender/components/arms.py:81-142 | builds left then right as the arms type says, and records each handler call |
| Arms.BuildArms | src/builders/blender/components/arms.py:22-142 | events first, then the sides' primitives and anchors |
| Arms.ArmsEventsShape | src/builders/blender/components/arms.py:41-79 | an unsupported profile gives one WARN `PROFILE_FALLBACK_TO_BOX` event resolving to "box" before the INFO `STRATEGY_SELECTED` event; a supported one gives only the latter |
| Arms.ArmsSides | src/builders/blender/components/arms.py:81-142 | "none" (or an unknown type) builds nothing; both builds left then right; left or right builds that side only |
| Arms.BoxArmsBoth | src/builders/blender/components/arms.py:84-127 | box arms on both sides give `left_arm_frame` then `right_arm_frame`, mirrored, flush with the seat and standing on the base frame |
| BackGeometry.Spread | src/builders/blender/components/back.py:60-65 | `[start + step * i for i in range(n)]` has n items, item i at start + i steps |
| BackGeometry.SpreadAscending | src/builders/blender/components/back.py:60-65 | with a non-negative step the items never decrease |
| BackGeometry.CentersForRange | src/builders/blender/components/back.py:40-65 | no centres for a non-positive count, one per item otherwise, and a single item sits mid-range |
| BackGeometry.CentersOrderIndependent | src/builders/blender/components/back.py:49-50 | swapping the two ends of the range gives the same centres |
| BackGeometry.CentersAscending | src/builders/blender/components/back.py:53-65 | the centres never decrease |
| BackGeometry.CentersPacked | src/builders/blender/components/back.py:55-60 | when the items and gaps fit, consecutive centres are one item plus one gap apart and the leftover space is the same at both ends |
| BackGeometry.CentersSpread | src/builders/blender/components/back.py:62-65 | otherwise the first and last items touch the range's ends (or pile at the start when the range is smaller than an item) |
| BackGeometry.CentersWithin | src/builders/blender/components/back.py:40-65 | when the range holds an item, every item lies inside the range |
| BackGeometry.Segments | src/builders/blender/components/back.py:145-162 | one or two segments; "full" exactly when not split or neither window is 1 mm wide; a left window ends left of the centre gap, a right window starts right of it, each at least 1 mm |
| BackGeometry.RowGap | src/builders/blender/components/back.py:121-124 | the row gap is positive: the given gap when enabled and positive, 35 mm otherwise |
| BackGeometry.RowCount | src/builders/blender/components/back.py:125-135 | at least one row; the requested count when the rows fit, otherwise between 2 and the requested count |
| BackGeometry.RowCountFits | src/builders/blender/components/back.py:125-135 | the reduced rows fit the inner height, except when the floor of two rows applies |
| BackGeometry.InnerRectangle | src/builders/blender/components/back_strategies/back_slats.py:96-107 | the rectangle always has positive height; insets plus margins are used when they leave room, on each axis separately |
| BackGeometry.InnerRectInsideFrame | src/builders/blender/components/back_strategies/back_slats.py:96-107 | with non-negative margins the rectangle stays within the inset frame |
| BackGeometry.CenterSplitHalf | src/builders/blender/components/back_strategies/back_slats.py:116-121 | the split half-gap clears the frame's centre gap, half the post plus 2 mm, and half the post plus the slat gap |
| BackGeometry.SlatInsetY | src/builders/blender/components/back_strategies/back_slats.py:111-112 | the slat's y inset lies in [0, 2] mm |
| BackGeometry.VerticalCenters | src/builders/blender/components/back.py:237-262 | one centre per vertical slat (at least one) |
| BackGeometry.VerticalSplitBoth | src/builders/blender/components/back.py:248-260 | with both windows valid, the first half (rounded up) of the slats lies left of the gap and the rest right of it |
| BackGeometry.VerticalSplitLeftOnly | src/builders/blender/components/back.py:256-257 | with only the left window valid, every slat lies left of the gap |
| BackGeometry.VerticalSplitRightOnly | src/builders/blender/components/back.py:254-255 | with only the right window valid, every slat lies right of the gap |
| BackParts.AnchorsAt | src/builders/blender/components/back.py:206-208 | one anchor per primitive, with its name and location |
| BackParts.CenterPost | src/builders/blender/components/back.py:83-90 | the centre post is `back_rail_center`, at x = 0, at least 1 mm tall, standing on the inner bottom and reaching the inner top when there is room |
| BackParts.BuildBackFrameSplit2 | src/builders/blender/components/back.py:72-94 | appends the centre post and its anchor and returns half the post plus the inset |
| BackParts.HSlat | src/builders/blender/components/back.py:184-202 | a horizontal slat spans its segment from the segment's left end, at the row's height and the slat plane |
| BackParts.RowSlats | src/builders/blender/components/back.py:183-202 | one slat per segment of the row |
| BackParts.AppendRowSlats | src/builders/blender/components/back.py:183-208 | the inner loop appends the row's slats and anchors and advances the full-slat index by one only for a full segment |
| BackParts.AppendRows | src/builders/blender/components/back.py:181-208 | the outer loop appends every row's slats and their anchors in order |
| BackParts.BuildBackHorizontalSlats | src/builders/blender/components/back.py:97-210 | appends the horizontal slats of the computed rows and segments, each with its anchor |
| BackParts.RowsSlatsCount | src/builders/blender/components/back.py:181-208 | rows times segments slats |
| BackParts.HorizontalSplitClear | src/builders/blender/components/back.py:148-208 | in a split layout no slat reaches into the centre gap |
| BackParts.HorizontalSlatsNames | src/builders/blender/components/back.py:186-190 | without a split the slats are `back_slat_1..n` in order |
| BackParts.VSlat | src/builders/blender/components/back.py:282-292 | a vertical slat is `back_slat_<i>`, shaped "slat", oriented vertically, at its x on the slat plane |
| BackParts.VerticalSlats | src/builders/blender/components/back.py:281-298 | one vertical slat per centre, in order |
| BackParts.BuildBackVerticalSlats | src/builders/blender/components/back.py:213-300 | appends the vertical slats and their anchors |
| BackStrategies.InsetX | src/builders/blender/components/back_strategies/back_slats.py:46 | the horizontal rail inset is at least 3 mm and at least the requested inset |
| BackStrategies.InsetZ | src/builders/blender/components/back_strategies/back_slats.py:47 | the vertical rail inset is at least 3 mm and at least the requested inset |
| BackStrategies.MarginX | src/builders/blender/components/back_strategies/back_slats.py:48 | the horizontal margin is never negative and never below the requested one |
| BackStrategies.MarginZ | src/builders/blender/components/back_strategies/back_slats.py:49 | the vertical margin is never negative and never below the requested one |
| BackStrategies.FrameInnerWidth | src/builders/blender/components/back_strategies/back_slats.py:51-53 | the inner frame width is at least 1 mm and at least the distance between the uprights' inner faces |
| BackStrategies.RailBottom | src/builders/blender/components/back_strategies/back_slats.py:55-62 | the bottom rail is a beam named `back_rail_bottom` whose lower face sits on the frame base |
| BackStrategies.RailTop | src/builders/blender/components/back_strategies/back_slats.py:63-69 | the top rail is a beam named `back_rail_top` whose upper face is the frame top |
| BackStrategies.InnerBottomFrameZ | src/builders/blender/components/back_strategies/back_slats.py:70 | the inner frame starts at the bottom rail's upper face |
| BackStrategies.InnerTopFrameZ | src/builders/blender/components/back_strategies/back_slats.py:71 | the inner frame ends at the top rail's lower face |
| BackStrategies.FrameAnchors | src/builders/blender/components/back_strategies/back_slats.py:123-130 | four anchors describe the slat plane and the inner frame rectangle |
| BackStrategies.AppendSlatsFrame | src/builders/blender/components/back_strategies/back_slats.py:73-94 | appends the rails (and the centre post of a split frame) with one anchor each and returns the centre gap half-width |
| BackStrategies.AppendFrameAnchors | src/builders/blender/components/back_strategies/back_slats.py:123-130 | appends exactly the four frame anchors and leaves the primitives alone |
| BackStrategies.BuildBackSlatsStrategy | src/builders/blender/components/back_strategies/back_slats.py:10-189 | appends the frame, then the slats, and their anchors, in order |
| BackStrategies.BackSlatsFrameOrder | src/builders/blender/components/back_strategies/back_slats.py:73-94 | the bottom rail comes first, then the top rail; a centre post follows exactly when the frame is split in two |
| BackStrategies.RowsSlatsFirst | src/builders/blender/components/back.py:181-208 | the first row's first segment yields slat number 1 |
| BackStrategies.BackSlatsAnchorOrder | src/builders/blender/components/back_strategies/back_slats.py:108-189 | after the frame's anchors come the four frame anchors and then one anchor per slat, in slat order |
| BackStrategies.BackSlatsPlacement | src/builders/blender/components/back_strategies/back_slats.py:109-121 | the inner rectangle has positive height, the slat plane lies within 2 mm in front of the frame centre, each split half clears the centre post, and the layout splits exactly for `split_2` frames or `split_center` layouts |
| BackStrategies.BackSlatsSplitNeverCrossCentre | src/builders/blender/components/back_strategies/back_slats.py:115-154 | in a split horizontal layout no slat crosses the vertical centre line |
| BackStrategies.StrapCount | src/builders/blender/components/back_strategies/back_straps.py:23 | at least one strap, exactly the requested number when it is positive |
| BackStrategies.StrapSpan | src/builders/blender/components/back_strategies/back_straps.py:22 | the strap span is at least 1 mm |
| BackStrategies.StrapCenters | src/builders/blender/components/back_strategies/back_straps.py:24-29 | one centre height per strap |
| BackStrategies.BackStraps | src/builders/blender/components/back_strategies/back_straps.py:31-39 | strap i sits at the i-th centre height |
| BackStrategies.BuildBackStrapsStrategy | src/builders/blender/components/back_strategies/back_straps.py:8-39 | appends exactly the straps and no anchor |
| BackStrategies.StrapsNamed | src/builders/blender/components/back_strategies/back_straps.py:31-39 | straps are boards named `back_strap_1..n`, centred in x on the frame's y |
| BackStrategies.StrapsEnds | src/builders/blender/components/back_strategies/back_straps.py:24-29 | a single strap sits mid-height; otherwise the first sits at the bottom margin and the last one span above it |
| BackStrategies.StrapsEvenlySpaced | src/builders/blender/components/back_strategies/back_straps.py:27-29 | consecutive straps are equally spaced and strictly rising |
| BackStrategies.BackPanel | src/builders/blender/components/back_strategies/back_panel.py:16-23 | the panel is a board named `back_panel` spanning the seat width at the panel centre |
| BackStrategies.BuildBackPanelStrategy | src/builders/blender/components/back_strategies/back_panel.py:8-23 | appends exactly the panel and no anchor |
| Back.OrDefault | src/builders/blender/components/back.py:305-330 | an empty option string falls back to its default, any other is kept |
| Back.Frame | src/builders/blender/components/back.py:349-375 | rail sizes are at least 1 mm, the bottom rail at least 10 mm, and the frame rises at least 1 mm from the seat's rear rail top |
| Back.BackResult | src/builders/blender/components/back.py:604-630 | the result records whether the back is supported, and a supported back's top is above its bottom |
| Back.BuildBackFromSpec | src/builders/blender/components/back.py:303-630 | appends the uprights and the mode's parts (or the legacy board) and their anchors, and returns the result |
| Back.ZoneAnchors | src/builders/blender/components/back.py:646-680 | twelve back zone anchors |
| Back.AppendBackZoneAnchors | src/builders/blender/components/back.py:646-680 | appends exactly the twelve zone anchors |
| Back.BuildBack | src/builders/blender/components/back.py:681-685 | builds the back and then its zone anchors |
| Back.BackUprights | src/builders/blender/components/back.py:381-416 | a supported back starts with two mirrored uprights flush with the seat's sides; an unsupported one is the single `back_frame` board with no anchor |
| Back.UprightsSpanFrame | src/builders/blender/components/back.py:367-395 | each upright spans exactly from the seat rear rail top to the frame top |
| Back.BackModes | src/builders/blender/components/back.py:417-426 | panel mode adds exactly the panel; every mode but slats adds no anchor beyond the uprights'; an unknown mode adds nothing |
| Back.ZoneAnchorsShape | src/builders/blender/components/back.py:646-680 | the zone anchor is the panel centre and the two back corners mirror each other on the back's anchor plane |
| Back.SplitSlatsClearOfPost | src/builders/blender/components/back.py:426-559 | in a split frame with horizontal slats, the centre post is built and no slat touches it |
| Catalog.DeepMergeInto | src/builders/blender/presets/catalog.py:116-123 | the loop over the patch's keys computes the recursive merge |
| Catalog.DeepMergeKeys | src/builders/blender/presets/catalog.py:116-123 | the merge has exactly the keys of both sides; keys only in the base keep their value; a patch value wins unless both sides are dicts |
| Catalog.DeepMergeIntoEmpty | src/builders/blender/presets/catalog.py:116-123 | merging into an empty dict copies the patch |
| Catalog.DeepMergeEmptyPatch | src/builders/blender/presets/catalog.py:116-123 | an empty patch leaves the base unchanged |
| Catalog.DeepMergeSelf | src/builders/blender/presets/catalog.py:116-123 | merging a dict with itself is the identity |
| Catalog.NormalizeStyle | src/builders/blender/presets/catalog.py:126-128 | the style key is the stripped lower-case style, or `default` when that is empty |
| Catalog.DefaultPresetId | src/builders/blender/presets/catalog.py:138-144 | never empty; an unknown style's default preset is `default` |
| Catalog.NormalizePresetId | src/builders/blender/presets/catalog.py:131-135 | a non-blank preset id is kept stripped, a blank one becomes the style's default |
| Catalog.SelectPreset | src/builders/blender/presets/catalog.py:165-170 | a known preset is selected; an unknown one other than `default` falls back to the style's default preset; nothing is selected only for an unknown id |
| Catalog.StyleLayers | src/builders/blender/presets/catalog.py:157-164 | the global defaults come first, then the style base when it is not empty |
| Catalog.PresetPart | src/builders/blender/presets/catalog.py:171-186 | the preset base layer comes first when not empty and the variant layer last when it exists and is not empty |
| Catalog.MergeLayers | src/builders/blender/presets/catalog.py:192-196 | the loop folds the layers with the deep merge, in order |
| Catalog.GetPreset | src/builders/blender/presets/catalog.py:190-196 | the preset is the fold of its layers |
| Catalog.DefaultPresetIds | src/builders/blender/presets/catalog.py:92-144 | the scandi style defaults to `scandi_straight_v1`, the default style to `default` |
| Catalog.LayersStartWithGlobal | src/builders/blender/presets/catalog.py:147-160 | the global layer is always first, and for an unknown style it is the only one |
| Catalog.UnknownPresetFallsBack | src/builders/blender/presets/catalog.py:165-175 | an unknown preset id uses the style's default preset's base, or none for `default` |
| Catalog.VariantLayerLast | src/builders/blender/presets/catalog.py:157-187 | the number of layers is one per non-empty part and a variant layer is last |
| Catalog.LastLayerWins | src/builders/blender/presets/catalog.py:192-196 | a plain value in the last layer is the merged value |
| Catalog.UntouchedKeyKept | src/builders/blender/presets/catalog.py:192-196 | a key the last layer does not mention keeps its earlier merged value |
| Catalog.GlobalArms | src/builders/blender/presets/catalog.py:40-90 | the global arms defaults hold a width and a profile but no type |
| Catalog.ArmsFromGlobalOnly | src/builders/blender/presets/catalog.py:192-196 | when no later layer mentions arms, the merged arms are the global ones |
| Catalog.LayersLeaveKey | src/builders/blender/presets/catalog.py:147-187 | a key that no style, preset or variant sets appears in no layer after the first |
| Catalog.PresetPartLeavesKey | src/builders/blender/presets/catalog.py:171-186 | a key absent from a preset and its variants is absent from its layers |
| Catalog.CatalogLeavesArms | src/builders/blender/presets/catalog.py:92-113 | no style, preset or variant in the catalog sets arms |
| Catalog.PresetsNeverSetArmsType | src/builders/blender/presets/catalog.py:40-196 | no preset the catalog yields sets the arms type, so the type always comes from the request |
| Resolve.Warn | src/builders/blender/spec/resolve.py:37-55 | appends exactly one resolver warning with the given code, message, path and values |
| Resolve.WordsDisjoint | src/builders/blender/spec/resolve.py:79-82 | no word reads as both true and false |
| Resolve.AsBool | src/builders/blender/spec/resolve.py:72-83 | booleans are kept, numbers are true when non-zero, the true and false words are recognised after stripping and lower-casing, and anything else gives the default |
| Resolve.PickValue | src/builders/blender/spec/resolve.py:86-91 | the IR value wins, then the preset's, then the fallback, and the source says which |
| Resolve.ClampedNonNegative | src/builders/blender/spec/resolve.py:94-109 | a negative value becomes 0 with one BACK_CLAMP warning; a non-negative one passes unchanged with no warning |
| Resolve.ClampNonNegative | src/builders/blender/spec/resolve.py:94-109 | returns the clamped value and appends exactly the warnings the clamp calls for |
| Resolve.ClampedRange | src/builders/blender/spec/resolve.py:112-129 | the result lies in the range; a value inside passes unchanged with no warning; a changed value logs one BACK_CLAMP warning |
| Resolve.ClampRange | src/builders/blender/spec/resolve.py:112-129 | returns the clamped value and appends exactly its warnings |
| Resolve.CanonicalChoiceOf | src/builders/blender/spec/resolve.py:164-184 | an allowed canonical text is kept; a non-empty unknown one falls back with a BACK_FALLBACK warning; an empty or non-text value falls back silently |
| Resolve.CanonicalChoice | src/builders/blender/spec/resolve.py:164-184 | returns the choice and appends exactly its warnings |
| Resolve.ClampedCount | src/builders/blender/spec/resolve.py:437-487 | a count is never negative; a negative one becomes 0 with one BACK_CLAMP warning |
| Resolve.ClampCount | src/builders/blender/spec/resolve.py:437-487 | returns the clamped count and appends exactly its warnings |
| Resolve.CanonicalProfile | src/builders/blender/spec/resolve.py:141-162 | the profile is `box` or `frame_box_open`; an open alias in the profile or the style selects the open frame; only an unknown non-empty profile falls back to box, flagged |
| Resolve.SupportChecked | src/builders/blender/spec/resolve.py:188-219 | a non-object back support logs a BACK_FALLBACK warning, a missing one a BACK_DEFAULT_USED warning, an object nothing |
| Resolve.CheckSupport | src/builders/blender/spec/resolve.py:188-219 | appends exactly those warnings |
| Resolve.CenterPostOf | src/builders/blender/spec/resolve.py:253-283 | the centre post's thickness and width are never negative and it is enabled as its picked flag says |
| Resolve.ResolveCenterPost | src/builders/blender/spec/resolve.py:253-283 | returns that centre post and appends exactly its warnings |
| Resolve.DefaultBottomRailHeight | src/builders/blender/spec/resolve.py:290 | the default bottom rail height is at least 10 mm |
| Resolve.RailHeightForDefault | src/builders/blender/spec/resolve.py:285-289 | the rail height used for that default is never negative |
| Resolve.FrameNumbersOf | src/builders/blender/spec/resolve.py:292-391 | every frame dimension is non-negative and the offset lies in [-100, 200] |
| Resolve.ResolveFrameNumbers | src/builders/blender/spec/resolve.py:292-391 | returns those numbers and appends exactly their warnings |
| Resolve.FrameLayoutOf | src/builders/blender/spec/resolve.py:395-412 | the frame layout is `single` or `split_2` |
| Resolve.ResolveFrameLayout | src/builders/blender/spec/resolve.py:395-412 | returns that layout and appends exactly its warning |
| Resolve.SlatsOf | src/builders/blender/spec/resolve.py:422-476 | slat sizes are non-negative, the count is the picked count clamped at 0, and a gap is recorded exactly when the IR or the preset names one |
| Resolve.ResolveSlats | src/builders/blender/spec/resolve.py:422-476 | returns those slats and appends exactly their warnings |
| Resolve.StrapsOf | src/builders/blender/spec/resolve.py:478-497 | strap sizes are non-negative and the count is the picked count clamped at 0 |
| Resolve.ResolveStraps | src/builders/blender/spec/resolve.py:478-497 | returns those straps and appends exactly their warnings |
| Resolve.FramePartsOf | src/builders/blender/spec/resolve.py:395-420 | the mode, the layout and the attach mode are each one of their allowed values |
| Resolve.ResolveFrameParts | src/builders/blender/spec/resolve.py:395-420 | returns those parts and appends exactly their warnings |
| Resolve.ResolveBackSpec | src/builders/blender/spec/resolve.py:187-550 | the back spec and the warnings, step by step, equal their specification |
| Resolve.StyleOf | src/builders/blender/spec/resolve.py:556-559 | the style is never empty |
| Resolve.EffectivePresetId | src/builders/blender/spec/resolve.py:561-565 | a non-blank preset id is kept stripped; otherwise the style's default preset is used |
| Resolve.ArmsTypeOf | src/builders/blender/spec/resolve.py:571-574 | the arms type is always one of the known ones |
| Resolve.ArmsWidthOf | src/builders/blender/spec/resolve.py:576-587 | the arms width is never negative |
| Resolve.ProfileOf | src/builders/blender/spec/resolve.py:589-600 | the arms profile is `box` or `frame_box_open` |
| Resolve.ArmsOf | src/builders/blender/spec/resolve.py:569-600 | the resolved arms are always in range |
| Resolve.Resolve | src/builders/blender/spec/resolve.py:553-616 | a fresh diagnostics object whose warnings, and the resolved spec, equal their specification |
| Resolve.AppendsTrans | src/builders/blender/spec/resolve.py:37-55 | appending resolver warnings composes |
| Resolve.AppendsOne | src/builders/blender/spec/resolve.py:37-55 | one resolver warning with an allowed code is an append |
| Resolve.AppendsNone | src/builders/blender/spec/resolve.py:37-55 | logging nothing is an append |
| Resolve.ClampAppends | src/builders/blender/spec/resolve.py:94-109 | a clamp only appends BACK_* resolver warnings |
| Resolve.ChoiceAppends | src/builders/blender/spec/resolve.py:164-184 | a canonical choice only appends BACK_* resolver warnings |
| Resolve.CountAppends | src/builders/blender/spec/resolve.py:437-449 | a count clamp only appends BACK_* resolver warnings |
| Resolve.CenterPostAppends | src/builders/blender/spec/resolve.py:253-283 | the centre post only appends BACK_* resolver warnings |
| Resolve.FrameNumbersAppends | src/builders/blender/spec/resolve.py:285-391 | the frame numbers only append BACK_* resolver warnings |
| Resolve.SupportAppends | src/builders/blender/spec/resolve.py:188-219 | the support check only appends BACK_* resolver warnings |
| Resolve.FrameLayoutAppends | src/builders/blender/spec/resolve.py:395-412 | the frame layout only appends BACK_* resolver warnings |
| Resolve.SlatsAppends | src/builders/blender/spec/resolve.py:422-476 | the slats only append BACK_* resolver warnings |
| Resolve.StrapsAppends | src/builders/blender/spec/resolve.py:478-497 | the straps only append BACK_* resolver warnings |
| Resolve.FramePartsAppends | src/builders/blender/spec/resolve.py:226-420 | the frame parts only append BACK_* resolver warnings |
| Resolve.BackSpecAppends | src/builders/blender/spec/resolve.py:187-550 | resolving the back never removes or rewrites a warning, and every new one is a BACK_* resolver warning |
| Resolve.BackSpecInRange | src/builders/blender/spec/resolve.py:187-550 | every resolved back choice is an allowed value and every dimension is in range |
| Resolve.ForcedSplitLayout | src/builders/blender/spec/resolve.py:499-505 | the back is split at the centre exactly when asked, by a split slat layout or by an enabled centre post, and a split forces the `split_2` frame layout |
| Resolve.FrameLayoutFromBottomRail | src/builders/blender/spec/resolve.py:395-505 | with no frame layout given, it follows the bottom rail split and the centre split |
| Resolve.UnknownFrameLayout | src/builders/blender/spec/resolve.py:397-412 | an unknown frame layout text falls back to `single` with one BACK_FALLBACK warning |
| Resolve.ArmsTypeIrWins | src/builders/blender/spec/resolve.py:571-574 | the IR's arms type wins over the preset's |
| Resolve.ArmsWidthClamp | src/builders/blender/spec/resolve.py:576-600 | a negative arms width becomes 0 exactly when it is negative, with one ARMS_WIDTH_CLAMP warning |
| Resolve.ResolvedArmsTypeDefaultsToNone | src/builders/blender/spec/resolve.py:566-574 | without an explicit arms type, the resolved type is `none`, since no preset sets one |
| Resolve.ResolvedArmsTypeExplicit | src/builders/blender/spec/resolve.py:571-574 | an explicit arms type is canonicalised and used |
| Resolve.ResolveWarnings | src/builders/blender/spec/resolve.py:553-616 | every warning resolve reports comes from the resolver and carries a BACK_*, ARMS_WIDTH_CLAMP or PROFILE_FALLBACK_TO_BOX code |
| Resolve.AppendsWiden | src/builders/blender/spec/resolve.py:37-55 | an append with some codes is one with any wider set of codes |
| Metrics.PointBoxes | tools/blender/debug/metrics.py:12-24 | each point is its own degenerate box |
| Metrics.BoxFromPoints | tools/blender/debug/metrics.py:12-24 | there is a box exactly when there is a point |
| Metrics.BoxFromPointsTight | tools/blender/debug/metrics.py:12-24 | the box holds every point and each of its faces touches one |
| Metrics.Present | tools/blender/debug/metrics.py:25-28 | keeps exactly the boxes that exist |
| Metrics.BoxUnion | tools/blender/debug/metrics.py:25-40 | the union is missing exactly when every box is |
| Metrics.BoxUnionTight | tools/blender/debug/metrics.py:25-40 | the union holds every present box and its faces come from them |
| Metrics.Spans | tools/blender/debug/metrics.py:43-50 | spans are never negative, zero for a missing box and max minus min for a well-formed one |
| Metrics.Center | tools/blender/debug/metrics.py:53-75 | a centre exists exactly when the box does, and lies inside it |
| Metrics.BoxOverlap | tools/blender/debug/metrics.py:78-151 | an intersection exists exactly when all three depths are positive; it lies inside both boxes and its volume is the product of its spans; otherwise the volume is 0 |
| Metrics.BoxOverlapSymmetric | tools/blender/debug/metrics.py:133-151 | overlap does not depend on the order of the boxes |
| Metrics.BoxOverlapLargest | tools/blender/debug/metrics.py:133-151 | any solid box inside both is inside their intersection |
| Metrics.MinAxis | tools/blender/debug/metrics.py:100-124 | the chosen axis has the least depth, the first such in x, y, z order |
| Metrics.AxisVector | tools/blender/debug/metrics.py:100-130 | the push is along the chosen axis only |
| Metrics.BoxMtv | tools/blender/debug/metrics.py:100-130 | an MTV exists exactly when the boxes overlap; it pushes along the first least-depth axis by that depth, signed away from the other box's centre |
| Metrics.MtvMatchesOverlap | tools/blender/debug/metrics.py:100-151 | the MTV exists exactly when the overlap does, and its depth is the overlap's least span |
| Metrics.SlatAndFrameGroupsDisjoint | tools/blender/debug/metrics.py:154-177 | seat slats, back slats and frame members fall in at most one group, and unknown keys match nothing |
| Metrics.Members | tools/blender/debug/metrics.py:274 | exactly the objects whose names match the group |
| Metrics.NamesOf | tools/blender/debug/metrics.py:277 | one name per object, in order |
| Metrics.BoxesOf | tools/blender/debug/metrics.py:278 | one box per object, in order |
| Metrics.CollectGroups | tools/blender/debug/metrics.py:271-280 | the loop over the five keys builds exactly the group specification |
| Metrics.GroupsShape | tools/blender/debug/metrics.py:271-280 | there are exactly the five groups; each counts its members, lists exactly the matching names and unions their boxes |
| Metrics.HitOf | tools/blender/debug/metrics.py:291-301 | a hit between two named objects has positive volume |
| Metrics.Numbered | tools/blender/debug/metrics.py:304-315 | the pairs are numbered 0, 1, 2, ... in the order found |
| Metrics.NumberedAppend | tools/blender/debug/metrics.py:304-315 | a new hit is numbered after all earlier ones |
| Metrics.PairsVolumeAppend | tools/blender/debug/metrics.py:302 | the total grows by each new pair's volume |
| Metrics.CollectOverlapPairs | tools/blender/debug/metrics.py:283-316 | the nested loops yield the numbered hits and their total volume |
| Metrics.HitsRowMembers | tools/blender/debug/metrics.py:295-301 | a row holds a hit exactly when its right name is listed and the boxes overlap |
| Metrics.HitsMembers | tools/blender/debug/metrics.py:291-301 | the hits are exactly the listed pairs whose boxes overlap |
| Metrics.OverlapPairsShape | tools/blender/debug/metrics.py:283-316 | each pair carries its index, its `left\|right` key and a positive volume, and a pair is reported exactly when both names are listed and their boxes overlap |
| ValidatorCore.PairMinSpan | tools/blender/debug/validators.py:209-230 | the least of the pair box's three spans, never negative, 0 without a box |
| ValidatorCore.ObjectsByPrefix | tools/blender/debug/validators.py:67-76 | exactly the objects whose lower-cased name starts with the lower-cased prefix |
| ValidatorCore.MeshObjectsByPrefix | tools/blender/debug/validators.py:79-84 | exactly those of them that are meshes |
| ValidatorCore.MeshOnly | tools/blender/debug/validators.py:79-84 | exactly the mesh objects |
| ValidatorCore.ZClearance | tools/blender/debug/validators.py:405-420 | no clearance without both boxes; otherwise the vertical gap between them, positive exactly when they are apart in z |
| ValidatorBend.BendSummary | tools/blender/debug/validators.py:87-104 | a bend modifier is present exactly when some SIMPLE_DEFORM modifier bends, and the angle is the largest absolute bend angle, or 0 |
| ValidatorBend.BendModSummary | tools/blender/debug/validators.py:87-104 | the loop over the modifiers computes that summary |
| ValidatorBend.MaxDeltaAbs | tools/blender/debug/validators.py:107-135 | the largest absolute change of the box along an axis |
| ValidatorBend.Diags | tools/blender/debug/validators.py:145-161 | one bend record per object, in order |
| ValidatorBend.BentCount | tools/blender/debug/validators.py:150-152 | the number of bent objects, zero exactly when none is bent |
| ValidatorBend.Diagnose | tools/blender/debug/validators.py:146-161 | an object is bent when its box moved by at least the tolerance or it carries a bend with a real angle |
| ValidatorBend.BentStatsForPrefix | tools/blender/debug/validators.py:138-168 | the statistics of the objects with the prefix |
| ValidatorBend.CollectBentStats | tools/blender/debug/validators.py:143-168 | the loop computes the statistics' specification |
| Sorting.SortDesc | tools/blender/debug/validators.py:162 | `sorted(..., key=..., reverse=True)` returns a permutation of its input with the keys in non-increasing order |
| Sorting.SortDescStable | tools/blender/debug/validators.py:162 | the sort is stable: for every key value, the entries with that key come out in their input order |
| Sorting.InsertDescWithKey | tools/blender/debug/validators.py:162 | inserting into a descending list places the new entry after every entry with the same key |
| Sorting.TopShape | tools/blender/debug/validators.py:308 | the first `limit` entries of the descending sort are a prefix of it, each from the input, largest key first, and none has a smaller key than an entry left out |
| Sorting.SortedStrings | tools/train_sofa_ner.py:46 | `sorted` of a set of names is strictly increasing in code-point order and holds exactly the names of the set, each once |
| Lists.Dedup | tools/blender/debug/validators.py:474-475 | keeping a key only when it is non-empty and not yet seen leaves distinct keys, each non-empty and from the input, and every non-empty input key |
| Lists.DedupFirstOccurrenceOrder | tools/blender/debug/validators.py:471-475 | the kept keys are in the order of their first occurrence in the input |
| ValidatorBend.TopDiagsShape | tools/blender/debug/validators.py:162 | the top five are at most five records of the objects, by decreasing box change |
| ValidatorBend.StatsShape | tools/blender/debug/validators.py:138-168 | the total counts every object, the bent count is zero exactly when none is bent, and the top five are the largest changes in order |
| ValidatorBend.SlatsNotBentWhen | tools/blender/debug/validators.py:711-744 | SLATS_NOT_BENT (severity 2) is raised exactly when arched seat slats are enabled and none is bent, with a note when there are none |
| ValidatorBend.BackSlatsNotBentWhen | tools/blender/debug/validators.py:747-784 | BACK_SLATS_NOT_BENT (severity 2) is raised exactly when arched back slats are requested and none is bent, with a note when there are none |
| ValidatorOverlap.Select | tools/blender/debug/validators.py:278-287 | a filter never grows the list |
| ValidatorOverlap.SplitOverlapPairs | tools/blender/debug/validators.py:269-287 | the loop splits the pairs into hard pairs and expected joint pairs |
| ValidatorOverlap.SelectMultiset | tools/blender/debug/validators.py:278-287 | the two halves of a split together are the original pairs |
| ValidatorOverlap.SelectVolume | tools/blender/debug/validators.py:278-294 | the two halves' volumes add up to the whole |
| ValidatorOverlap.SelectMembers | tools/blender/debug/validators.py:278-287 | each half holds exactly the pairs the test puts there |
| ValidatorOverlap.SplitPartition | tools/blender/debug/validators.py:233-287 | hard and joint pairs partition the pairs by the joint test, volumes add up, and only the two frame keys can have joint pairs |
| ValidatorOverlap.PairsTotalVolume | tools/blender/debug/validators.py:290-294 | the loop sums the pairs' volumes |
| ValidatorOverlap.TopsOf | tools/blender/debug/validators.py:310-318 | one summary record per pair, in order |
| ValidatorOverlap.PairsTopFromList | tools/blender/debug/validators.py:302-319 | the summaries of the largest pairs |
| ValidatorOverlap.TopPairsShape | tools/blender/debug/validators.py:302-308 | the top pairs are the first of the pairs sorted by decreasing volume, at most the limit, and none left out is larger |
| ValidatorOverlap.NonBlank | tools/blender/debug/validators.py:327-332 | the non-empty names of a pair |
| ValidatorOverlap.AddNames | tools/blender/debug/validators.py:327-332 | adds exactly the non-empty names of a pair |
| ValidatorOverlap.OffendersFromPairsTop | tools/blender/debug/validators.py:322-333 | the offenders are sorted without repeats and are exactly the non-empty names in the top pairs |
| ValidatorOverlap.SplitOverlapSeverity | tools/blender/debug/validators.py:787-899 | at most one problem, with its code: severity 2 exactly when the hard volume is above the tolerance, severity 1 exactly when only expected joint overlaps exceed it |
| ValidatorOverlap.OverlapSlatsArms | tools/blender/debug/validators.py:836-850 | OVERLAP_SLATS_ARMS (severity 2) exactly when slats are checked and their overlap with the arms exceeds the tolerance |
| ValidatorOverlap.LowClearanceSlatsFrame | tools/blender/debug/validators.py:902-925 | LOW_CLEARANCE_SLATS_FRAME (severity 1) exactly when slats and frame do not overlap, both boxes exist and their z clearance is below the tolerance |
| ValidatorModifiers.RemoveSpaces | tools/blender/debug/validators.py:450 | removing spaces never lengthens a key |
| ValidatorModifiers.RemoveSpacesShape | tools/blender/debug/validators.py:450 | the result holds no space and only characters of the input |
| ValidatorModifiers.RemoveSpacesKeeps | tools/blender/debug/validators.py:450 | a key without spaces is unchanged |
| ValidatorModifiers.SplitColon | tools/blender/debug/validators.py:451-455 | the result is a prefix of the key: a trailing colon is dropped |
| ValidatorModifiers.ModType | tools/blender/debug/validators.py:523-558 | the modifier type is the key's prefix before any colon |
| ValidatorModifiers.SplitColonKeeps | tools/blender/debug/validators.py:451-455 | a key whose colon is followed by text is unchanged |
| ValidatorModifiers.SplitColonFollowed | tools/blender/debug/validators.py:451-455 | after the split no colon ends the key |
| ValidatorModifiers.NormalizeCanonical | tools/blender/debug/validators.py:446-456 | a key already in canonical form normalises to itself |
| ValidatorModifiers.NormalizedChars | tools/blender/debug/validators.py:446-456 | a normalised key holds only upper-case non-space characters |
| ValidatorModifiers.NormalizeIdempotent | tools/blender/debug/validators.py:446-456 | normalising twice is normalising once |
| ValidatorModifiers.ItemKeys | tools/blender/debug/validators.py:472-473 | one normalised key per item |
| ValidatorModifiers.ItemKeyIsNormalizedText | tools/blender/debug/validators.py:445-456 | an item's key is the normalisation of its `str()` text wherever that text is modelled, and "" where it is not |
| ValidatorModifiers.NoneKey | tools/blender/debug/validators.py:445-456 | `str(None)` normalises to "NONE" |
| ValidatorModifiers.BoolKey | tools/blender/debug/validators.py:445-456 | `str(True)` and `str(False)` normalise to "TRUE" and "FALSE" |
| ValidatorModifiers.NormalizeIntText | tools/blender/debug/validators.py:445-456 | the text of an integer is already a normalised key |
| ValidatorModifiers.ExpectedKeys | tools/blender/debug/validators.py:471-475 | the expected keys are distinct, non-empty, exactly the non-empty normalised items, and in the order of their first occurrence |
| ValidatorModifiers.NormalizeExpected | tools/blender/debug/validators.py:471-475 | the loop computes the expected keys |
| ValidatorModifiers.ExpectedModifiersMap | tools/blender/debug/validators.py:459-478 | no group expects an empty list |
| ValidatorModifiers.PayloadKey | tools/blender/debug/validators.py:481-488 | a modifier's key is its normalised type, qualified by the deform method for SIMPLE_DEFORM |
| ValidatorModifiers.ListedKeysMembers | tools/blender/debug/validators.py:493-498 | listed keys are exactly the non-empty normalised entries |
| ValidatorModifiers.PayloadKeysMembers | tools/blender/debug/validators.py:503-512 | payload keys are exactly the modifiers' non-empty keys |
| ValidatorModifiers.ObjectModifierKeysShape | tools/blender/debug/validators.py:491-512 | never the empty key; the listed keys when there are any, otherwise the keys of the modifiers |
| ValidatorModifiers.AddKey | tools/blender/debug/validators.py:497-511 | adds the key unless it is empty |
| ValidatorModifiers.CollectListedKeys | tools/blender/debug/validators.py:493-498 | the loop collects the listed keys |
| ValidatorModifiers.CollectPayloadKeys | tools/blender/debug/validators.py:503-512 | the loop collects the modifiers' keys |
| ValidatorModifiers.CollectObjectModifierKeys | tools/blender/debug/validators.py:491-512 | computes the object's modifier keys |
| ValidatorModifiers.HasExpectedModifierShape | tools/blender/debug/validators.py:515-529 | a present key satisfies its expectation, nothing satisfies an empty one, and more present keys never lose a match |
| ValidatorModifiers.VertsDeltaAbs | tools/blender/debug/validators.py:543-547 | the absolute vertex change, known exactly when the base count is |
| ValidatorModifiers.ModifierNoEffect | tools/blender/debug/validators.py:550-603 | no effect exactly when the severity is positive; severity 2 exactly for the strict modifier types; no effect requires a small box change (except MIRROR) and a small vertex change (except bends) |
| ValidatorModifiers.MissingKeys | tools/blender/debug/validators.py:620 | exactly the expected keys the object does not satisfy |
| ValidatorModifiers.ObjectEntry | tools/blender/debug/validators.py:620-627 | an entry exactly when something is missing, naming the object and its missing keys |
| ValidatorModifiers.MissingEntries | tools/blender/debug/validators.py:617-627 | at most one entry per object, each with something missing |
| ValidatorModifiers.MissingEntriesEmpty | tools/blender/debug/validators.py:617-629 | no entry exactly when no object misses anything |
| ValidatorModifiers.MissingByObject | tools/blender/debug/validators.py:617-627 | the loop computes the entries |
| ValidatorModifiers.GroupMissing | tools/blender/debug/validators.py:613-647 | at most one MOD_EXPECTATION_MISSING problem (severity 2) per group, counting the objects with something missing |
| ValidatorModifiers.MissingOver | tools/blender/debug/validators.py:612-647 | one such problem at most per group |
| ValidatorModifiers.GroupOrder | tools/blender/debug/validators.py:612 | every expected group is visited |
| ValidatorModifiers.GroupMissingLoop | tools/blender/debug/validators.py:613-647 | the loop computes the group's problem |
| ValidatorModifiers.ValidateModifierExpectationMissing | tools/blender/debug/validators.py:606-648 | the problems are those of every expected group in turn |
| ValidatorModifiers.KeyNoEffect | tools/blender/debug/validators.py:670-707 | a MOD_EXPECTATION_NO_EFFECT problem exactly when the modifier is present and has no effect, with its severity |
| ValidatorModifiers.KeysNoEffect | tools/blender/debug/validators.py:670-707 | at most one problem per expected key, each a no-effect problem |
| ValidatorModifiers.GroupNoEffect | tools/blender/debug/validators.py:664-707 | only no-effect problems |
| ValidatorModifiers.NoEffectOver | tools/blender/debug/validators.py:663-707 | only no-effect problems |
| ValidatorModifiers.ObjectNoEffectLoop | tools/blender/debug/validators.py:666-707 | the loop computes the object's problems |
| ValidatorModifiers.GroupNoEffectLoop | tools/blender/debug/validators.py:665-707 | the loop computes the group's problems |
| ValidatorModifiers.ValidateModifierExpectationNoEffect | tools/blender/debug/validators.py:651-708 | the problems are those of every expected group in turn |
| Validator.SeverityWeight | tools/blender/debug/validators.py:960-967 | a weight in [0, 0.3], zero exactly for severity 0 or less, at least 0.02 otherwise |
| Validator.WeightSum | tools/blender/debug/validators.py:971 | the summed weights are zero exactly when every problem is harmless, otherwise at least 0.02 |
| Validator.SeverityMax | tools/blender/debug/validators.py:970 | the largest severity, 0 with no problem |
| Validator.Summarize | tools/blender/debug/validators.py:969-980 | the report lists the problems, their count and the largest severity |
| Validator.Round6UnitInterval | tools/blender/debug/validators.py:975-979 | rounding keeps a value in [0, 1] |
| Validator.ScoreBounds | tools/blender/debug/validators.py:971-979 | score and penalty lie in [0, 1] |
| Validator.PerfectScoreIff | tools/blender/debug/validators.py:969-979 | the score is 1 and the penalty 0 exactly when every problem is harmless |
| Validator.Validate | tools/blender/debug/validators.py:928-980 | the report summarises the eight rules' problems in order |
| Autofix.LookupEmpty | tools/blender/debug/autofix.py:36-45 | nothing is found in an empty document |
| Autofix.LookupSetPath | tools/blender/debug/autofix.py:31-48 | after setting a dotted path, reading it back gives the value set |
| Autofix.SetSiblingKeeps | tools/blender/debug/autofix.py:31-48 | setting one leaf leaves its siblings alone |
| Autofix.WalkWhenFound | tools/blender/debug/autofix.py:36-42 | when a path already holds a value, the walk to its parent creates nothing |
| Autofix.EnsureDict | tools/blender/debug/autofix.py:23-28 | the key then holds a dict: the existing one, or a new empty one that replaces any other value; other keys are untouched |
| Autofix.SetPatchShape | tools/blender/debug/autofix.py:31-50 | a patch is logged, with the old and new values, exactly when the value changes; afterwards the path holds the value and the other top-level keys are untouched |
| Autofix.MarginAlwaysChanges | tools/blender/debug/autofix.py:53-58 | the widened slat margin always differs from the stored one, so the slat count is never reduced |
| Autofix.IntersectionShape | tools/blender/debug/autofix.py:53-62 | an intersection widens the slat margin by 10 mm, logs that one patch and leaves the slat count alone |
| Autofix.SlatsNotBentShape | tools/blender/debug/autofix.py:65-76 | the arc grows by at most 5 mm and never past half the slat length; a patch is logged exactly when it grows |
| Autofix.BoxArmsShape | tools/blender/debug/autofix.py:84-85 | the arms become 120 mm box arms with at most two new patches, earlier patches kept |
| Autofix.MissingArmsShape | tools/blender/debug/autofix.py:79-85 | arms of type none are left unpatched; otherwise they become 120 mm box arms |
| Autofix.FixPrefixStep | tools/blender/debug/autofix.py:94-111 | each problem applies its rule once, unless its code is empty, unknown or already handled |
| Autofix.KnownProblemCode | tools/blender/debug/autofix.py:97-111 | a problem's code is empty or one of the three known ones |
| Autofix.KnownCodes | tools/blender/debug/autofix.py:94-97 | one code per problem, in order |
| Autofix.FixPrefixByCodes | tools/blender/debug/autofix.py:94-113 | the loop applies exactly the distinct known codes in order of first appearance |
| Autofix.FixAllByCodes | tools/blender/debug/autofix.py:88-113 | fixing applies each known code once, in first-appearance order, and every known code present is handled |
| Autofix.HandledCodesComplete | tools/blender/debug/autofix.py:94-111 | every known code of a problem is handled |
| Autofix.ReplayAppend | tools/blender/debug/autofix.py:49 | replaying two patch lists in turn is replaying their concatenation |
| Autofix.RecordedTrans | tools/blender/debug/autofix.py:49 | logged change composes |
| Autofix.RecordedRefl | tools/blender/debug/autofix.py:49 | no change is logged change |
| Autofix.SetPatchRecorded | tools/blender/debug/autofix.py:31-50 | setting a value is fully described by its patch |
| Autofix.EnsureThenSet | tools/blender/debug/autofix.py:23-48 | ensuring the parent dict before setting a two-key path changes nothing further |
| Autofix.EnsureThenPatchRecorded | tools/blender/debug/autofix.py:23-50 | an ensure followed by a changing set is fully described by its patch |
| Autofix.IntersectionRecorded | tools/blender/debug/autofix.py:53-62 | the intersection fix is fully described by its patches |
| Autofix.SlatsNotBentRecorded | tools/blender/debug/autofix.py:65-76 | the bend fix is fully described by its patches |
| Autofix.ProblemCodeOfUpperWord | tools/blender/debug/autofix.py:97 | an upper-case code is read unchanged |
| Autofix.MissingArmsUnlogged | tools/blender/debug/autofix.py:23-85 | a MISSING_ARMS problem on a document without arms adds an empty arms dict that no patch records |
| Autofix.FixAllOne | tools/blender/debug/autofix.py:88-113 | a single problem with a known code runs that code's rule once on the unpatched document |
| Autofix.MissingArmsOnEmpty | tools/blender/debug/autofix.py:23-85 | on an empty document the MISSING_ARMS rule adds an empty `arms` dict and logs no patch |
| Autofix.MissingArmsLoggedAgrees | tools/blender/debug/autofix.py:79-85 | the logged variant agrees with the source whenever arms are wanted |
| Autofix.CodeFixLoggedRecorded | tools/blender/debug/autofix.py:101-111 | each logged rule is fully described by its patches |
| Autofix.ApplyCodesLoggedRecorded | tools/blender/debug/autofix.py:94-111 | a run of logged rules is fully described by its patches |
| Autofix.FixAllLoggedReplays | tools/blender/debug/autofix.py:88-113 | with the logged rule, replaying the patch list on the input gives the fixed document |
| Autofix.Fixer.constructor | tools/blender/debug/autofix.py:90-91 | starts from a copy of the document with no patch |
| Autofix.Fixer.EnsureDictAt | tools/blender/debug/autofix.py:23-28 | ensures the dict in place and logs nothing |
| Autofix.Fixer.SetPatchAt | tools/blender/debug/autofix.py:31-50 | sets the path in place and logs as specified |
| Autofix.Fixer.FixIntersectionSlatsArms | tools/blender/debug/autofix.py:53-62 | updates the document and the log as the intersection rule says |
| Autofix.Fixer.FixSlatsNotBent | tools/blender/debug/autofix.py:65-76 | updates the document and the log as the bend rule says |
| Autofix.Fixer.FixMissingArms | tools/blender/debug/autofix.py:79-85 | updates the document and the log as the arms rule says |
| Autofix.Fixer.FixCode | tools/blender/debug/autofix.py:101-111 | dispatches on the code to its rule |
| Autofix.FixIr | tools/blender/debug/autofix.py:88-113 | returns the fixed document and the patch list the specification gives |
| Visualize.ValidIsTruthy | tools/blender/debug/visualize.py:19-33 | a valid box is never treated as missing |
| Visualize.BboxUnion | tools/blender/debug/visualize.py:29-45 | a missing side yields the other; otherwise the union encloses both and each corner comes from one of them |
| Visualize.UnionAll | tools/blender/debug/visualize.py:55-76 | folding unions over candidates keeps the accumulated box valid or missing |
| Visualize.UnionAllEncloses | tools/blender/debug/visualize.py:55-76 | the folded box exists exactly when some candidate is valid, and encloses every valid candidate |
| Visualize.GroupCandidates | tools/blender/debug/visualize.py:55-59 | one candidate per target group, in order |
| Visualize.ObjectCandidates | tools/blender/debug/visualize.py:69-74 | one candidate per object (a mesh's box, else nothing) |
| Visualize.GroupsBbox | tools/blender/debug/visualize.py:52-61 | the group box is valid or missing |
| Visualize.SceneBboxShape | tools/blender/debug/visualize.py:48-77 | the scene box is missing or valid; when some group has a box it is their union, enclosing each; otherwise it is missing exactly when no mesh has a box, and encloses each that does |
| Visualize.SceneBboxFromMetrics | tools/blender/debug/visualize.py:48-77 | the two loops compute the scene box |
| Visualize.NameText | tools/blender/debug/visualize.py:108-111 | a name is `str(value).strip()` wherever the text is modelled: text stripped, None as "None", booleans as "True"/"False", whole numbers as their digits; it never starts or ends with white space |
| Visualize.IntNamesDistinct | tools/blender/debug/visualize.py:108-111 | two different whole numbers give two different names |
| Visualize.OffenderSources | tools/blender/debug/visualize.py:193-226 | each colour holds exactly the names its problems contribute, and a code is recorded exactly when it contributed a name |
| Visualize.UnionMapClean | tools/blender/debug/visualize.py:108-111 | unions of clean names are clean |
| Visualize.ListOrKeyNamesClean | tools/blender/debug/visualize.py:139-165 | names read from a list or from dict keys are non-empty and stripped |
| Visualize.NameSetClean | tools/blender/debug/visualize.py:167-189 | names read from offenders, top and top5 are non-empty and stripped |
| Visualize.PairsTopNamesClean | tools/blender/debug/visualize.py:114-124 | names from the top pairs are non-empty and stripped |
| Visualize.Top5NamesClean | tools/blender/debug/visualize.py:127-136 | names from the top five are non-empty and stripped |
| Visualize.ItemOrValueNamesClean | tools/blender/debug/visualize.py:168-173 | names from items or plain values are non-empty and stripped |
| Visualize.NoEffectNamesClean | tools/blender/debug/visualize.py:153-190 | names from a no-effect problem are non-empty and stripped |
| Visualize.ContributionClean | tools/blender/debug/visualize.py:209-221 | every name a problem contributes is non-empty and stripped |
| Visualize.OffendersClean | tools/blender/debug/visualize.py:193-226 | every offender name is non-empty and stripped |
| Visualize.CollectStep | tools/blender/debug/visualize.py:203-224 | each problem adds its names to its colour and its code when it named someone |
| Visualize.CollectOffendersByPriority | tools/blender/debug/visualize.py:193-226 | the loop computes the offenders' specification |
| Visualize.PaintColour | tools/blender/debug/visualize.py:333-344 | red for overlap offenders, then blue for bend offenders, then orange, gray for everyone else |
| Visualize.CountColour | tools/blender/debug/visualize.py:322-344 | a colour count never exceeds the number of objects |
| Visualize.CountsCoverAll | tools/blender/debug/visualize.py:322-344 | every object is painted exactly one colour |
| Visualize.CountZero | tools/blender/debug/visualize.py:322-344 | a colour no object gets counts zero |
| Visualize.PaintCounts | tools/blender/debug/visualize.py:322-344 | the loop counts each colour, and the counts add up to the number of objects |
| LlmStub.ToDict | src/pipeline/llm_stub.py:35-43 | a suggestion serialises to exactly its six fields |
| LlmStub.ToDictRoundTrip | src/pipeline/llm_stub.py:35-43 | reading a serialised suggestion back gives the same suggestion |
| LlmStub.Classify | src/pipeline/llm_stub.py:59-70 | a code ending in CLAMP, else in FALLBACK, else containing ALIAS gets its reason and confidence (0.6, 0.55, 0.5); any other code is skipped |
| LlmStub.PatchOf | src/pipeline/llm_stub.py:75-84 | a suggestion replaces the event's path with its resolved value and carries the event's code |
| LlmStub.ScanStep | src/pipeline/llm_stub.py:56-84 | each event adds a suggestion exactly when it is eligible and its key is new |
| LlmStub.ScanIsFirstOccurrences | src/pipeline/llm_stub.py:55-85 | the seen keys are exactly the eligible events' keys, and the suggestions are their first occurrences |
| LlmStub.SuggestionsFromEvents | src/pipeline/llm_stub.py:56-85 | every suggestion comes from an eligible event |
| LlmStub.SuggestionsDistinct | src/pipeline/llm_stub.py:71-74 | no two suggestions share a key |
| LlmStub.SuggestionsComplete | src/pipeline/llm_stub.py:56-85 | every eligible event's key has a suggestion |
| LlmStub.ScanKeysAreOutputKeys | src/pipeline/llm_stub.py:71-84 | the seen keys are exactly the keys of the suggestions |
| LlmStub.GeneratePatchSuggestions | src/pipeline/llm_stub.py:46-85 | the loop computes the suggestions' specification |
| LlmStub.MaybeSuggestions | src/pipeline/llm_stub.py:96-121 | nothing when the stub is disabled; otherwise the first-occurrence suggestions |
| SchemaCanon.NonSpaceStrip | src/schema.py:75 | stripping keeps every non-space character |
| SchemaCanon.Collapse | src/schema.py:79 | every white-space run becomes one plain space, keeping all other characters and whether the text starts with a space |
| SchemaCanon.CollapseKeeps | src/schema.py:79 | text already collapsed is unchanged |
| SchemaCanon.FoldChar | src/schema.py:75-78 | folded characters are never upper case, ё, a hyphen or an underscore, and white space is kept |
| SchemaCanon.Fold | src/schema.py:75-78 | folding works character by character |
| SchemaCanon.CanonFolded | src/schema.py:74-80 | the canonical text has no upper-case letter, ё, hyphen or underscore |
| SchemaCanon.CanonSpacing | src/schema.py:74-80 | the canonical text uses single plain spaces and keeps every folded non-space character |
| SchemaCanon.CanonOfSnakeWord | src/schema.py:77-79 | a snake_case word canonicalises to its words separated by spaces |
| SchemaCanon.Alias | src/schema.py:192-218 | a missing value stays missing; a value is either kept or mapped to a table value |
| SchemaCanon.AliasIdempotent | src/schema.py:192-218 | over a closed table, validating twice is validating once |
| SchemaCanon.TypeLookups | src/schema.py:83-87 | every type alias means sofa, and sofa maps to itself |
| SchemaCanon.TypeAliasesClosed | src/schema.py:83-87 | every type value is found again under its own canonical text |
| SchemaCanon.StyleLookups | src/schema.py:89-108 | the style aliases map to the five styles, each of which maps to itself |
| SchemaCanon.StyleAliasesClosed | src/schema.py:89-108 | every style value is found again under its own canonical text |
| SchemaCanon.LayoutLookups | src/schema.py:110-128 | the layout aliases map to the four layouts; `u shape` means `u_shape` |
| SchemaCanon.LayoutAliasesClosed | src/schema.py:110-128 | every layout value is found again under its own canonical text |
| SchemaCanon.LegLookups | src/schema.py:130-158 | the leg aliases map to the seven families, each reachable by its own spaced name |
| SchemaCanon.LegAliasesClosed | src/schema.py:130-158 | every leg family is found again under its own canonical text |
| SchemaCanon.FoundTypeSofa | src/schema.py:83-87 | the value maps back to itself through its canonical text |
| SchemaCanon.FoundStyleScandi | src/schema.py:89-92 | the value maps back to itself through its canonical text |
| SchemaCanon.FoundStyleLoft | src/schema.py:94-95 | the value maps back to itself through its canonical text |
| SchemaCanon.FoundStyleModern | src/schema.py:97-99 | the value maps back to itself through its canonical text |
| SchemaCanon.FoundStyleMinimal | src/schema.py:101-103 | the value maps back to itself through its canonical text |
| SchemaCanon.FoundStyleClassic | src/schema.py:105-107 | the value maps back to itself through its canonical text |
| SchemaCanon.FoundLayoutStraight | src/schema.py:111-113 | the value maps back to itself through its canonical text |
| SchemaCanon.FoundLayoutCorner | src/schema.py:115-117 | the value maps back to itself through its canonical text |
| SchemaCanon.FoundLayoutUShape | src/schema.py:119-123 | the value maps back to itself through its canonical text |
| SchemaCanon.FoundLayoutModular | src/schema.py:125-127 | the value maps back to itself through its canonical text |
| SchemaCanon.FoundLegTaperedCone | src/schema.py:131-134 | the value maps back to itself through its canonical text |
| SchemaCanon.FoundLegTaperedPrism | src/schema.py:136-140 | the value maps back to itself through its canonical text |
| SchemaCanon.FoundLegCylindrical | src/schema.py:142-144 | the value maps back to itself through its canonical text |
| SchemaCanon.FoundLegBlock | src/schema.py:146-148 | the value maps back to itself through its canonical text |
| SchemaCanon.FoundLegHairpin | src/schema.py:150-151 | the value maps back to itself through its canonical text |
| SchemaCanon.FoundLegSled | src/schema.py:153-154 | the value maps back to itself through its canonical text |
| SchemaCanon.FoundLegFrame | src/schema.py:156-157 | the value maps back to itself through its canonical text |
| Schema.ParseStyle | src/schema.py:15-21 | a parsed style has exactly the given name |
| Schema.ParseLayout | src/schema.py:23-28 | a parsed layout has exactly the given name |
| Schema.ParseLegFamily | src/schema.py:42-50 | a parsed leg family has exactly the given name |
| Schema.ParseNames | src/schema.py:15-50 | every enum value parses back from its own name |
| Schema.AliasedTextParses | src/schema.py:192-218 | any text whose canonical form is a known alias yields a valid enum value |
| Schema.TypeAcceptedIff | src/schema.py:171-197 | the request type passes `_v_type` and `Literal["sofa"]` exactly when it is a text whose canonical form is a type alias; a null is rejected |
| Schema.SofaTypeAccepted | src/schema.py:171-197 | the type "sofa" is accepted |
| Schema.ChairTypeRejected | src/schema.py:171-197 | a type that is no sofa alias, such as "chair", fails validation |
| Schema.ValidateSeatWidthRange | src/schema.py:222-234 | a seat width range is accepted exactly when it is missing or both ends are positive, ordered and within 350..1200 mm, and is then kept unchanged |
| Schema.MidpointWithin | src/schema.py:380-384 | the rounded midpoint of a range lies within it |
| Schema.BiasDirection | src/schema.py:421-426 | a thin bias never goes below its floor nor grows a radius above it; a thick bias never exceeds its cap nor shrinks a radius below it |
| Schema.BiasedParams | src/schema.py:414-430 | the biased parameters add both radii and keep every other parameter |
| Schema.BiasedLegs | src/schema.py:408-430 | the bias keeps the family and height and changes the parameters only for a thin or thick bias on cone or cylindrical legs |
| Schema.Sanity | src/schema.py:288-293 | a resolved sofa is rejected exactly when it has two arms and less than 900 mm of seats, and is otherwise kept |
| Schema.BuildInBounds | src/schema.py:368-461 | a request within the field bounds resolves within every field bound of the resolved model |
| Schema.ResolveFailsIff | src/schema.py:288-293 | resolution fails exactly when the sanity check rejects the built sofa |
| Schema.ResolveChoices | src/schema.py:373-403 | corner and U layouts default to the left orientation; a width range gives its midpoint, otherwise the style default; explicit arms and seat counts win, and no arms have zero width |
| Schema.ResolvePreferences | src/schema.py:395-442 | soft or medium seats give cushions, otherwise the style's seat type; the requested leg family wins; thin and thick biases respect their bounds on radius legs only |
| Schema.DefaultsPassSanity | src/schema.py:300-366 | every style's defaults pass the sanity check |
| Schema.OneSeatWithTwoArmsRejected | src/schema.py:368-461 | a one-seat scandi sofa with the default two arms is rejected |
| NerInfer.Flush | src/ner_infer.py:41-46 | flushing closes the open entity: it is emitted, joined by spaces, exactly when it has a type and tokens, and the state is reset |
| NerInfer.GroupShape | src/ner_infer.py:36-59 | the grouped entities have exactly the types that were emitted, each with its texts in emission order |
| NerInfer.TextsOfAbsent | src/ner_infer.py:36-59 | a type never emitted groups no texts |
| NerInfer.ScanCount | src/ner_infer.py:48-58 | after any prefix, emitted plus open entities equal the number of B- tags read |
| NerInfer.EntityCount | src/ner_infer.py:36-59 | one entity is emitted per B- tag within the zipped length of tokens and tags |
| NerInfer.ScanTypes | src/ner_infer.py:48-58 | every emitted or open entity type is non-empty and comes from some B- tag read so far |
| NerInfer.EntityTypes | src/ner_infer.py:36-59 | every emitted entity type is non-empty and comes from a B- tag |
| NerInfer.FlushInto | src/ner_infer.py:41-46 | with an entity open, its joined text becomes the last entry under its type and every other type is kept; with none open the map is unchanged; the map stays the grouping of the emitted entities |
| NerInfer.BioToEntities | src/ner_infer.py:36-59 | the loop over tokens and tags returns exactly the grouped BIO entities |
| NerInfer.FirstAt | src/ner_infer.py:98-106 | the first sub-token position of a word, or none when the word has no sub-token |
| NerInfer.WordTags | src/ner_infer.py:98-106 | one tag per word, which is the label of the word's first sub-token, or O when it has none |
| NerToSchema.FirstDigit | tools/ner_to_schema_demo.py:16 | the position of the first digit, with no digit before it, or none exactly when the text has no digit |
| NerToSchema.RunEnd | tools/ner_to_schema_demo.py:16-34 | the end of the maximal digit run starting at a position |
| NerToSchema.SearchNumber | tools/ner_to_schema_demo.py:16 | the leftmost number match exists exactly when the text has a digit, and its integer part is a maximal digit run |
| NerToSchema.MatchValue | tools/ner_to_schema_demo.py:19 | the matched value is at least its integer part and equals it when there is no decimal part |
| NerToSchema.ReplaceChar | tools/ner_to_schema_demo.py:15 | replacing commas by dots keeps the length and changes only the replaced character |
| NerToSchema.LengthText | tools/ner_to_schema_demo.py:15 | lower-casing and comma replacement keep the length |
| NerToSchema.LengthTextDigits | tools/ner_to_schema_demo.py:15-18 | the normalised text has a digit exactly when the original does |
| NerToSchema.UnitScale | tools/ner_to_schema_demo.py:21-28 | the unit multiplier is never below one |
| NerToSchema.NumberIn | tools/ner_to_schema_demo.py:16-19 | a non-negative number is found exactly when the text has a digit |
| NerToSchema.ParseLengthToMm | tools/ner_to_schema_demo.py:14-30 | parsing a length fails exactly when it has no digit, and otherwise gives a non-negative whole number of millimetres |
| NerToSchema.ParseInt | tools/ner_to_schema_demo.py:33-37 | parsing an integer fails exactly when the text has no digit |
| NerToSchema.ParseIntIsFirstNumber | tools/ner_to_schema_demo.py:33-61 | parsing an integer yields the first of the numbers found in the text |
| NerToSchema.ParseIntRoundTrip | tools/ner_to_schema_demo.py:33-37 | a written number framed by digit-free text parses back to itself |
| NerToSchema.NumbersOfRange | tools/ner_to_schema_demo.py:59-63 | two written numbers separated by digit-free text are found as exactly those two numbers |
| NerToSchema.UnitOfMillimetres | tools/ner_to_schema_demo.py:21-22 | the millimetre unit scales by one |
| NerToSchema.UnitOfCentimetres | tools/ner_to_schema_demo.py:23-24 | the centimetre unit scales by ten |
| NerToSchema.UnitOfNothing | tools/ner_to_schema_demo.py:27-28 | a text without unit is taken as millimetres |
| NerToSchema.WholeMillimetres | tools/ner_to_schema_demo.py:14-30 | a whole number followed by мм parses to itself |
| NerToSchema.WholeCentimetres | tools/ner_to_schema_demo.py:14-30 | a whole number followed by см parses to ten times itself |
| NerToSchema.BareNumber | tools/ner_to_schema_demo.py:14-30 | a bare whole number parses to itself |
| NerToSchema.DecimalCommaCentimetres | tools/ner_to_schema_demo.py:14-30 | a decimal with a comma and one decimal digit in centimetres parses to the exact millimetres |
| NerToSchema.FirstEntity | tools/ner_to_schema_demo.py:46-56 | the first text of an entity type, present exactly when the type has a non-empty list |
| NerToSchema.LengthError | tools/ner_to_schema_demo.py:50-54 | a length field fails exactly when its first text has no digit |
| NerToSchema.CountError | tools/ner_to_schema_demo.py:56-57 | the seat count fails exactly when its first text has no digit |
| NerToSchema.NormalizedAt | tools/ner_to_schema_demo.py:40-69 | each numeric key is present exactly when its field is read, and the string keys come from the string entities alone |
| NerToSchema.NormalizeFailsIff | tools/ner_to_schema_demo.py:40-69 | normalisation fails exactly when the first height, depth or seat-count text has no digit |
| NerToSchema.NormalizeStringFields | tools/ner_to_schema_demo.py:44-47 | each string key is present exactly when its upper-cased entity has a text, and holds that text stripped |
| NerToSchema.NormalizeHeight | tools/ner_to_schema_demo.py:50-51 | the seat height is present exactly when its entity is, and holds its first text parsed as a length |
| NerToSchema.NormalizeDepth | tools/ner_to_schema_demo.py:53-54 | the seat depth is present exactly when its entity is, and holds its first text parsed as a length |
| NerToSchema.NormalizeCount | tools/ner_to_schema_demo.py:56-57 | the seat count is present exactly when its entity is, and holds its first text parsed as an integer |
| NerToSchema.NormalizeWidthRange | tools/ner_to_schema_demo.py:59-63 | the width range is present exactly when the joined texts hold at least two numbers, and holds the first two |
| NerToSchema.NormalizeTransformable | tools/ner_to_schema_demo.py:65-67 | the transformable flag is present exactly when its entity is, and is false exactly when the joined lower-cased text contains без or нет |
| NerToSchema.NormalizeKeys | tools/ner_to_schema_demo.py:40-69 | only the six string keys and the five numeric keys appear |
| NerToSchema.CollectStringFields | tools/ner_to_schema_demo.py:44-47 | the string-key loop builds exactly the string fields |
| NerToSchema.ReadLength | tools/ner_to_schema_demo.py:50-54 | a length read fails with the parse error, or adds the parsed field |
| NerToSchema.ReadCount | tools/ner_to_schema_demo.py:56-57 | the seat-count read fails with the parse error, or adds the parsed field |
| NerToSchema.AddRangeAndFlag | tools/ner_to_schema_demo.py:59-67 | the width range and flag are added exactly as the field functions give them |
| NerToSchema.NormalizeEntities | tools/ner_to_schema_demo.py:40-69 | the imperative normalisation returns exactly the specified result |
| TrainSofaNer.AllTagsMembers | tools/train_sofa_ner.py:41-44 | the collected tag set holds exactly the tags occurring in some item |
| TrainSofaNer.RemoveFirst | tools/train_sofa_ner.py:47-48 | removing a label only drops elements and changes nothing when it is absent |
| TrainSofaNer.RemoveFirstSorted | tools/train_sofa_ner.py:46-48 | removing O from the sorted labels keeps them sorted and drops exactly O |
| TrainSofaNer.LabelListShape | tools/train_sofa_ner.py:39-49 | the label list starts with O, never repeats O, and lists every other occurring tag once in sorted order |
| TrainSofaNer.LabelListDistinct | tools/train_sofa_ner.py:39-49 | the label list has no duplicates, so label ids are a bijection |
| TrainSofaNer.BuildLabelList | tools/train_sofa_ner.py:39-49 | the imperative collection returns exactly the label list |
| TrainSofaNer.ContinuationTag | tools/train_sofa_ner.py:78-81 | the continuation tag is always a known label |
| TrainSofaNer.AssignedTag | tools/train_sofa_ner.py:70-83 | every assigned tag is a known label |
| TrainSofaNer.AssignedTagShape | tools/train_sofa_ner.py:70-83 | special tokens get no tag; a word's first sub-token gets the word's tag; later sub-tokens keep the entity type and stay B- only when no I- label exists |
| TrainSofaNer.IgnoredIffSpecial | tools/train_sofa_ner.py:71-72 | a position is ignored with -100 exactly when it belongs to no word |
| TrainSofaNer.AlignLabels | tools/train_sofa_ner.py:67-85 | the alignment loop gives one label id per sub-token, as specified per position |
| TrainSofaNer.Filtered | tools/train_sofa_ner.py:100-104 | the filtered true and predicted label sequences have equal length |
| TrainSofaNer.FilteredIsKept | tools/train_sofa_ner.py:100-104 | the filtered true labels are exactly the decoded labels that are not -100 |
| TrainSofaNer.KeptAligned | tools/train_sofa_ner.py:67-104 | after alignment, evaluation keeps one label per sub-token that belongs to a word |
| TrainSofaNer.FilterRow | tools/train_sofa_ner.py:98-106 | the inner loop over a row returns exactly the filtered pair |
| TrainSofaNer.FilterRows | tools/train_sofa_ner.py:97-106 | the outer loop returns one filtered pair per zipped row |
| GenerateSofaNer.TagSpan | tools/generate_sofa_ner_dataset.py:77-83 | the span tags mark the start with B-, the rest of the span with I-, and everything else O |
| GenerateSofaNer.MergeTags | tools/generate_sofa_ner_dataset.py:85-91 | the overlay takes every non-O span tag and keeps the base tag elsewhere |
| GenerateSofaNer.MergeSpanIsRun | tools/generate_sofa_ner_dataset.py:77-91 | overlaying a span equals writing a tag run at its position, and overlaying it again changes nothing |
| GenerateSofaNer.MergeNothing | tools/generate_sofa_ner_dataset.py:85-91 | overlaying an all-O span keeps the base tags |
| GenerateSofaNer.TagPrefixes | tools/generate_sofa_ner_dataset.py:77-83 | span tags carry the B- and I- prefixes the decoder splits off, and O carries neither |
| GenerateSofaNer.ScanSpan | tools/generate_sofa_ner_dataset.py:77-83 | reading a tagged span with the BIO decoder keeps it open inside the span and emits it after |
| GenerateSofaNer.SpanDecodes | tools/generate_sofa_ner_dataset.py:77-83 | a tagged span decodes back to exactly one entity whose text is the span's tokens joined by spaces |
| GenerateSofaNer.FindFrom | tools/generate_sofa_ner_dataset.py:271-334 | the first match at or after a position, with no match before it, or none when nothing matches |
| GenerateSofaNer.FindIsFirst | tools/generate_sofa_ner_dataset.py:271-272 | whenever a pattern matches, the search finds a match no later |
| GenerateSofaNer.PhraseTaggedShape | tools/generate_sofa_ner_dataset.py:267-276 | a phrase is labelled exactly when it occurs, at its first occurrence, and the tags are otherwise unchanged |
| GenerateSofaNer.SeatCountShape | tools/generate_sofa_ner_dataset.py:294-297 | only the first token equal to the seat count changes, to B-SEAT_COUNT, and it is labelled whenever it occurs |
| GenerateSofaNer.NumberUnitShape | tools/generate_sofa_ner_dataset.py:301-318 | the first number and unit in a height or depth context are tagged B- and I-; other kinds and texts without one change nothing |
| GenerateSofaNer.WidthRangeShape | tools/generate_sofa_ner_dataset.py:322-340 | the first dash range is tagged over four tokens; otherwise the first from-to range over five; otherwise nothing changes |
| GenerateSofaNer.Labelling.constructor | tools/generate_sofa_ner_dataset.py:263-264 | labelling starts with one O tag per token |
| GenerateSofaNer.Labelling.LabelPhrase | tools/generate_sofa_ner_dataset.py:267-276 | the imperative phrase labelling gives exactly the specified result and found flag |
| GenerateSofaNer.Labelling.LabelSeatCount | tools/generate_sofa_ner_dataset.py:294-297 | the seat-count loop gives exactly the specified tags |
| GenerateSofaNer.Labelling.LabelNumberUnit | tools/generate_sofa_ner_dataset.py:301-315 | the number-and-unit loop gives exactly the specified tags |
| GenerateSofaNer.Labelling.LabelWidthRange | tools/generate_sofa_ner_dataset.py:322-338 | the two width-range loops give exactly the specified tags |

## Left out

- Blender scene code is not modelled: scene metric collection, mesh and object bounding boxes, materials, camera and light, and applying the debug visualisation. It needs a live Blender scene.
- Trigonometry and bend geometry are not modelled: the arc vertices, the angle from a sagitta, and the radius formulas. Real-number trigonometry is outside the model.
- GeomUtils.PrimitiveBBoxWorld, GeomUtils.Boxes and GeomUtils.PrimitivesUnionBBox: only unrotated primitives are covered, because the rotated branch needs trigonometry.
- File, environment and clock input/output are parameters. This covers the validator thresholds, the LLM stub's environment flag, the event timestamp, uuid run ids, JSONL sinks and suggestion files, and debug payload loading.
- Command-line drivers, batch loops and Blender build orchestration are not modelled. They only sequence calls to the modelled code.
- The ML side of NER is not modelled: tokenizer calls, model loading, argmax over logits, training, seqeval scores, and the random split and random text generation. Word ids, predicted labels and token lists are inputs.
- The regular-expression tokenisers are not modelled; token sequences are inputs. The number search in the schema demo is written out as a digit scan.
- NerToSchema.FirstDigit, NerToSchema.RunEnd, NerToSchema.SearchNumber and the GenerateSofaNer digit tests (Matches, Labelling.LabelNumberUnit, Labelling.LabelWidthRange): only ASCII digits count as digits. Python's `\d` and `str.isdigit()` also accept other Unicode digits such as "٤٥", because the model's character classes are ASCII.
- Which phrase the dataset generator picks for chaise, armrests, leg family and transformable (the substring tests on the random text) is not modelled; the phrase is an input to Labelling.LabelPhrase.
- Dataset and training items are modelled as their tag lists.
- JSON integers and floats are one real-valued number kind, and dictionary order is not kept. Anything that depends on the `int`/`float` distinction or on key order is therefore not captured.
- Floats are exact reals. Python's round() is half-to-even on exact values, and binary rounding error is not modelled.
- Character case mapping covers ASCII and Russian letters only; stripping covers ASCII whitespace.
- Ir.AsFloat, Ir.AsInt and GeomUtils.IrValue: "inf", "infinity" and "nan" (in any case) give the default, because they are not real numbers. Non-ASCII digits also give the default, where `float()` and `int()` accept them. An exponent beyond the float range gives its exact real, where Python overflows to infinity or underflows to 0.0.
- ValidatorModifiers.ItemKeys, ValidatorModifiers.ItemKey, Visualize.NameText and Ir.ProblemCode: a fractional number, a list or a dict has no modelled `str()` text, because that text depends on float formatting, `repr` and the `int`/`float` distinction. NameText reads it as "?", ItemKey and ProblemCode as "". None, booleans, whole numbers and text are read as `str()` gives them.
- LlmStub: the de-duplication key uses the modelled value where the source uses its `repr()` text.
- Resolve.ClampedRange: the printed bounds in the warning text are a parameter, because float formatting is not modelled.
- Back: LayoutContext.back_y and the other values of BackBuildHelpers are inputs. Their producer is not part of this model.
- Legs: the `leg_block` handler and the arms `frame_box_open` strategy are not part of this model. Calls to them are recorded and not expanded.
- The debug print output of the back builder and the debug text strings of the slat builders are not modelled.
- Pydantic's own field validation is written as explicit bound predicates.
- Validator.Validate and Metrics.MetricsPayload: the validators read a typed metrics payload. The wrong-type fallbacks are not modelled: a non-dict `groups`, a non-list or short `min`/`max`, or a number given as text, where `isinstance`, `_group_bbox_world`, `_as_float` and `_as_int` give 0, `{}` or None. The swap of legacy `validate(metrics, ir)` arguments in `_normalize_validate_args` is not modelled either; calls take `(ir, metrics)`.
- SeatSlats.BuildSeatSlatsDefault and SeatSlats.BuildSeatSlats: they require at least one slat when slats are enabled, where the source raises ValueError on `min` of an empty list.
- TrainSofaNer.AlignLabels, TrainSofaNer.FilterRow and TrainSofaNer.FilterRows: they require every looked-up tag or id to be in the label maps, where the source raises KeyError.
- NerInfer.WordTags: it requires a label for every sub-token and word ids within the word count, where the source raises IndexError.
- GenerateSofaNer.TagSpan and GenerateSofaNer.Labelling.LabelPhrase: they require a start inside the tokens, where the source raises IndexError.
- ValidatorModifiers.NormalizeIdempotent: it is stated only for keys without tabs or newlines, because normalisation is not idempotent there (for example "a\t:").

## Findings

| source | as written | input that shows it | evidently intended | confidence | as-written member | corrected member |
|---|---|---|---|---|---|---|
| tools/blender/debug/autofix.py:23-85 | `_fix_missing_arms` calls `_ensure_dict(ir, "arms")`, which inserts an empty `arms` dict without recording a patch, and then returns early for arms of type none | `fix_ir({}, [{"code": "MISSING_ARMS"}])` returns `{"arms": {}}` with an empty patch list, so replaying the patches on the input does not give the fixed document | every change to the document is recorded in the patch list, so that replaying the patches reproduces the result | not executed | Autofix.MissingArmsUnlogged | Autofix.FixAllLoggedReplays |
