/**
 * Structured diagnostics events: vocabulary normalisation, severity clamping and
 * emission to a sink. The wall clock is the parameter `now`.
 */
module Diagnostics {
  import opened Wrappers
  import opened Ir
  import opened Text
  import opened Numeric

  const INFO := 0
  const WARN := 1
  const ERROR := 2
  const FATAL := 3

  const SeverityMin := INFO
  const SeverityMax := FATAL

  function SeverityLabel(severity: int): (r: Option<string>)
    ensures r.Some? <==> SeverityMin <= severity <= SeverityMax
  {
    if severity == INFO then Some("info")
    else if severity == WARN then Some("warn")
    else if severity == ERROR then Some("error")
    else if severity == FATAL then Some("fatal")
    else None
  }

  const ValidStages: set<string> := {"resolve", "layout", "build", "debug"}
  const ValidSources: set<string> := {"ir", "preset", "global", "fallback", "computed"}
  const ValidComponents: set<string> :=
    {"resolver", "layout", "seat_frame", "seat_slats", "back", "arms", "legs", "builder"}
  const DefaultStage := "build"
  const DefaultSource := "computed"
  const DefaultComponent := "builder"

  datatype Event = Event(
    ts: string,
    run_id: string,
    stage: string,
    component: string,
    code: string,
    severity: int,
    path: string,
    source: string,
    input_value: Json,
    resolved_value: Json,
    reason: string,
    meta: map<string, Json>)

  predicate WellFormed(e: Event) {
    e.stage in ValidStages && e.component in ValidComponents && e.source in ValidSources &&
    SeverityMin <= e.severity <= SeverityMax
  }

  /** Canonical text if it is in the vocabulary, else the default. */
  function InVocabulary(value: string, vocabulary: set<string>, default: string): (r: string)
    requires default in vocabulary
    ensures r in vocabulary
    ensures Canon(value) in vocabulary ==> r == Canon(value)
    ensures Canon(value) !in vocabulary ==> r == default
  {
    if Canon(value) in vocabulary then Canon(value) else default
  }

  /** `int(severity)` clamped to [INFO, FATAL]; INFO when it does not convert. */
  function ClampSeverity(severity: Json): (r: int)
    ensures SeverityMin <= r <= SeverityMax
    ensures ToInt(severity).None? ==> r == INFO
    ensures ToInt(severity).Some? && SeverityMin <= ToInt(severity).value <= SeverityMax ==> r == ToInt(severity).value
    ensures ToInt(severity).Some? && ToInt(severity).value > SeverityMax ==> r == FATAL
    ensures ToInt(severity).Some? && ToInt(severity).value < SeverityMin ==> r == INFO
  {
    var v := match ToInt(severity) case Some(n) => n case None => INFO;
    MaxInt(SeverityMin, MinInt(SeverityMax, v))
  }

  /** `make_event`: the timestamp defaults to `now`; meta is copied when it is a dict, else empty. */
  function MakeEvent(run_id: string, stage: string, component: string, code: string, severity: Json,
                     path: string, source: string, input_value: Json, resolved_value: Json,
                     reason: string, meta: Json, ts: string, now: string): (e: Event)
    ensures WellFormed(e)
    ensures e.ts == (if ts == "" then now else ts) && e.run_id == run_id
    ensures e.stage == InVocabulary(stage, ValidStages, DefaultStage)
    ensures e.component == InVocabulary(component, ValidComponents, DefaultComponent)
    ensures e.source == InVocabulary(source, ValidSources, DefaultSource)
    ensures e.severity == ClampSeverity(severity)
    ensures e.code == code && e.path == path && e.reason == reason
    ensures e.input_value == input_value && e.resolved_value == resolved_value
    ensures e.meta == AsObj(meta)
  {
    Event(
      ts := if ts == "" then now else ts,
      run_id := run_id,
      stage := InVocabulary(stage, ValidStages, DefaultStage),
      component := InVocabulary(component, ValidComponents, DefaultComponent),
      code := code,
      severity := ClampSeverity(severity),
      path := path,
      source := InVocabulary(source, ValidSources, DefaultSource),
      input_value := input_value,
      resolved_value := resolved_value,
      reason := reason,
      meta := AsObj(meta))
  }

  /** The keyword arguments of `emit_simple`; `JNull` stands for Python's None. */
  datatype EmitArgs = EmitArgs(
    code: string,
    path: string,
    payload: Json,
    severity: Json,
    component: string,
    stage: string,
    iter_index: Option<int>,
    source: string,
    reason: string,
    run_id: string,
    input_value: Json,
    resolved_value: Json,
    meta: Json,
    ts: string)

  /** `emit_simple`'s defaults for everything but the code. */
  function EmitDefaults(code: string): (a: EmitArgs)
    ensures a.code == code && a.payload == JNull && a.iter_index == None && a.meta == JNull
  {
    EmitArgs(code, "", JNull, JNum(INFO as real), DefaultComponent, DefaultStage, None,
             DefaultSource, "", "", JNull, JNull, JNull, "")
  }

  /** The meta dict `emit_simple` builds: a copy of `meta`, plus payload and iter_index. */
  function MergedMeta(meta: Json, payload: Json, iter_index: Option<int>): (m: map<string, Json>)
    ensures forall k :: k in AsObj(meta) && k != "iter_index" ==> k in m && m[k] == AsObj(meta)[k]
    ensures "payload" in m <==> "payload" in AsObj(meta) || payload != JNull
    ensures payload != JNull && "payload" !in AsObj(meta) && iter_index.None? ==> m["payload"] == payload
    ensures iter_index.Some? ==> "iter_index" in m && m["iter_index"] == JNum(iter_index.value as real)
    ensures iter_index.None? ==> ("iter_index" in m <==> "iter_index" in AsObj(meta))
    ensures m.Keys == AsObj(meta).Keys + (if payload != JNull then {"payload"} else {})
                      + (if iter_index.Some? then {"iter_index"} else {})
  {
    var base := AsObj(meta);
    var withPayload := if payload != JNull && "payload" !in base then base["payload" := payload] else base;
    if iter_index.Some? then withPayload["iter_index" := JNum(iter_index.value as real)] else withPayload
  }

  /** The event `emit_simple` builds and returns. */
  function SimpleEvent(a: EmitArgs, now: string): (e: Event)
    ensures WellFormed(e) && e.code == a.code && e.path == a.path
    ensures e.ts == (if a.ts == "" then now else a.ts) && e.run_id == a.run_id
    ensures e.stage == InVocabulary(a.stage, ValidStages, DefaultStage)
    ensures e.component == InVocabulary(a.component, ValidComponents, DefaultComponent)
    ensures e.source == InVocabulary(a.source, ValidSources, DefaultSource)
    ensures e.severity == ClampSeverity(a.severity)
    ensures e.input_value == a.input_value && e.resolved_value == a.resolved_value && e.reason == a.reason
    ensures e.meta == MergedMeta(a.meta, a.payload, a.iter_index)
  {
    MakeEvent(a.run_id, a.stage, a.component, a.code, a.severity, a.path, a.source,
              a.input_value, a.resolved_value, a.reason, JObj(MergedMeta(a.meta, a.payload, a.iter_index)), a.ts, now)
  }

  /** `_normalize_event`: complete events pass unchanged; others are rebuilt through `make_event`. */
  function NormalizeEvent(e: Event, now: string): (r: Event)
    ensures e.ts != "" && e.run_id != "" ==> r == e
    ensures r.ts != "" || (e.ts == "" && now == "")
    ensures r.run_id == e.run_id && r.code == e.code && r.meta == e.meta
    ensures e.ts == "" || e.run_id == "" ==> WellFormed(r)
  {
    if e.ts != "" && e.run_id != "" then e
    else MakeEvent(e.run_id, e.stage, e.component, e.code, JNum(e.severity as real), e.path, e.source,
                   e.input_value, e.resolved_value, e.reason, JObj(e.meta), if e.ts != "" then e.ts else now, now)
  }

  /** Normalising an already well-formed, time-stamped event changes nothing. */
  lemma NormalizeWellFormed(e: Event, now: string)
    requires WellFormed(e) && e.ts != ""
    ensures NormalizeEvent(e, now) == e
  {
    if e.run_id == "" {
      VocabulariesAreCanonical();
      CanonOfLowerWord(e.stage);
      CanonOfLowerWord(e.component);
      CanonOfLowerWord(e.source);
      RebuildCanonicalEvent(e, now);
    }
  }

  lemma RebuildCanonicalEvent(e: Event, now: string)
    requires WellFormed(e) && e.ts != "" && e.run_id == ""
    requires Canon(e.stage) == e.stage && Canon(e.component) == e.component && Canon(e.source) == e.source
    ensures NormalizeEvent(e, now) == e
  {
    var r := MakeEvent(e.run_id, e.stage, e.component, e.code, JNum(e.severity as real), e.path, e.source,
                       e.input_value, e.resolved_value, e.reason, JObj(e.meta), e.ts, now);
    assert r.ts == e.ts && r.run_id == e.run_id && r.code == e.code && r.path == e.path;
    assert r.stage == e.stage && r.component == e.component && r.source == e.source;
    assert r.severity == e.severity && r.meta == e.meta && r.reason == e.reason;
    assert r.input_value == e.input_value && r.resolved_value == e.resolved_value;
    assert r == e;
    assert NormalizeEvent(e, now) == r;
  }

  lemma VocabulariesAreCanonical()
    ensures forall w :: w in ValidStages ==> IsLowerWord(w)
    ensures forall w :: w in ValidSources ==> IsLowerWord(w)
    ensures forall w :: w in ValidComponents ==> IsLowerWord(w)
  {
  }

  /**
   * A diagnostics sink, seen through the events it has been handed. The no-op sink
   * drops what it receives and the JSONL sink writes it to a file; both receive
   * exactly this sequence of `emit` calls.
   */
  class DiagnosticsSink {
    var events: seq<Event>

    constructor()
      ensures events == []
    {
      events := [];
    }

    method Emit(e: Event)
      modifies this
      ensures events == old(events) + [e]
    {
      events := events + [e];
    }
  }

  /** `emit_simple`: builds one event, hands it to the sink once and returns it. */
  method EmitSimple(sink: DiagnosticsSink, a: EmitArgs, now: string) returns (e: Event)
    modifies sink
    ensures e == SimpleEvent(a, now)
    ensures sink.events == old(sink.events) + [e]
  {
    e := SimpleEvent(a, now);
    sink.Emit(e);
  }
}
