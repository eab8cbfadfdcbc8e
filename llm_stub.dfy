/**
 * The optional patch-suggestion stub: resolver events whose code reports a clamp, a fallback or an
 * alias normalisation become "replace" suggestions for the event's path, once per
 * (path, resolved value, code). The stub never changes the IR or the build plan.
 */
module LlmStub {
  import opened Wrappers
  import opened Text
  import opened Ir
  import opened Diagnostics

  datatype PatchOp = PatchOp(op: string, path: string, value: Json, reason: string,
                             source_event_code: string, confidence: real)

  /** `PatchOp.to_dict`. */
  function ToDict(p: PatchOp): (r: Obj)
    ensures r.Keys == {"op", "path", "value", "reason", "source_event_code", "confidence"}
  {
    map["op" := JStr(p.op), "path" := JStr(p.path), "value" := p.value, "reason" := JStr(p.reason),
        "source_event_code" := JStr(p.source_event_code), "confidence" := JNum(p.confidence)]
  }

  /** Reads a suggestion back from its dict form; None for a dict of any other shape. */
  function FromDict(d: Obj): Option<PatchOp> {
    if && "op" in d && d["op"].JStr? && "path" in d && d["path"].JStr? && "value" in d
       && "reason" in d && d["reason"].JStr? && "source_event_code" in d && d["source_event_code"].JStr?
       && "confidence" in d && d["confidence"].JNum?
    then Some(PatchOp(d["op"].s, d["path"].s, d["value"], d["reason"].s, d["source_event_code"].s, d["confidence"].n))
    else None
  }

  /** The dict form of a suggestion loses nothing. */
  lemma ToDictRoundTrip(p: PatchOp)
    ensures FromDict(ToDict(p)) == Some(p)
  {
  }

  /**
   * The reason and confidence for an event code: a code ending in CLAMP first, then one ending in
   * FALLBACK, then one containing ALIAS; every other code is not suggested.
   */
  function Classify(code: string): (r: Option<(string, real)>)
    ensures r.Some? <==> EndsWith(code, "CLAMP") || EndsWith(code, "FALLBACK") || Contains(code, "ALIAS")
    ensures EndsWith(code, "CLAMP") ==> r == Some(("resolver clamp observed", 0.6))
    ensures !EndsWith(code, "CLAMP") && EndsWith(code, "FALLBACK") ==> r == Some(("resolver fallback observed", 0.55))
    ensures !EndsWith(code, "CLAMP") && !EndsWith(code, "FALLBACK") && Contains(code, "ALIAS") ==>
              r == Some(("resolver alias normalization observed", 0.5))
  {
    if EndsWith(code, "CLAMP") then Some(("resolver clamp observed", 0.6))
    else if EndsWith(code, "FALLBACK") then Some(("resolver fallback observed", 0.55))
    else if Contains(code, "ALIAS") then Some(("resolver alias normalization observed", 0.5))
    else None
  }

  /** An event the stub turns into a suggestion: it has a path and a code the stub recognises. */
  predicate Eligible(e: Event) {
    e.path != "" && Classify(e.code).Some?
  }

  /** The de-duplication key `(path, repr(resolved_value), code)`. */
  datatype Key = Key(path: string, value: Json, code: string)

  function KeyOf(e: Event): Key {
    Key(e.path, e.resolved_value, e.code)
  }

  function PatchKey(p: PatchOp): Key {
    Key(p.path, p.value, p.source_event_code)
  }

  /** The suggestion for one eligible event. */
  function PatchOf(e: Event): (p: PatchOp)
    requires Eligible(e)
    ensures p.op == "replace" && p.path == e.path && p.path != "" && p.value == e.resolved_value
    ensures p.source_event_code == e.code && PatchKey(p) == KeyOf(e)
    ensures p.confidence == 0.6 || p.confidence == 0.55 || p.confidence == 0.5
  {
    var (reason, confidence) := Classify(e.code).value;
    PatchOp("replace", e.path, e.resolved_value, reason, e.code, confidence)
  }

  /** `generate_patch_suggestions` over a prefix of the events: the suggestions and the keys seen. */
  function Scan(events: seq<Event>): (seq<PatchOp>, set<Key>) {
    if events == [] then ([], {})
    else
      var (out, seen) := Scan(events[..|events| - 1]);
      var e := events[|events| - 1];
      if !Eligible(e) || KeyOf(e) in seen then (out, seen)
      else (out + [PatchOf(e)], seen + {KeyOf(e)})
  }

  function Suggestions(events: seq<Event>): seq<PatchOp> {
    Scan(events).0
  }

  lemma ScanStep(events: seq<Event>, i: int)
    requires 0 <= i < |events|
    ensures Scan(events[..i + 1]) ==
      var (out, seen) := Scan(events[..i]);
      var e := events[i];
      if !Eligible(e) || KeyOf(e) in seen then (out, seen) else (out + [PatchOf(e)], seen + {KeyOf(e)})
  {
    assert events[..i + 1][..i] == events[..i];
  }

  /** Event `j` is eligible and no earlier eligible event has its key. */
  predicate FirstOf(events: seq<Event>, j: int)
    requires 0 <= j < |events|
  {
    Eligible(events[j]) && forall k :: 0 <= k < j && Eligible(events[k]) ==> KeyOf(events[k]) != KeyOf(events[j])
  }

  /** The reference: one suggestion per first occurrence of a key, in event order. */
  function FirstOccurrences(events: seq<Event>): seq<PatchOp> {
    if events == [] then []
    else
      FirstOccurrences(events[..|events| - 1])
      + (if FirstOf(events, |events| - 1) then [PatchOf(events[|events| - 1])] else [])
  }

  /**
   * The keys seen are exactly those of the eligible events, and the suggestions are those of the
   * first event with each key, in order: a later duplicate never replaces an earlier one.
   */
  lemma {:induction false} ScanIsFirstOccurrences(events: seq<Event>)
    ensures forall key :: key in Scan(events).1 <==> exists j :: 0 <= j < |events| && Eligible(events[j]) && KeyOf(events[j]) == key
    ensures Suggestions(events) == FirstOccurrences(events)
  {
    if events != [] {
      var init := events[..|events| - 1];
      var e := events[|events| - 1];
      ScanIsFirstOccurrences(init);
      assert forall k :: 0 <= k < |init| ==> init[k] == events[k];
      if Eligible(e) {
        assert FirstOf(events, |events| - 1) <==> KeyOf(e) !in Scan(init).1;
      }
    }
  }

  /** Every suggestion comes from an eligible event and replaces its path by its resolved value. */
  lemma {:induction false} SuggestionsFromEvents(events: seq<Event>)
    ensures var out := Suggestions(events);
      forall i :: 0 <= i < |out| ==> exists j :: 0 <= j < |events| && Eligible(events[j]) && out[i] == PatchOf(events[j])
  {
    if events != [] {
      var init := events[..|events| - 1];
      var e := events[|events| - 1];
      SuggestionsFromEvents(init);
      var prev := Suggestions(init);
      var out := Suggestions(events);
      forall i | 0 <= i < |out|
        ensures exists j :: 0 <= j < |events| && Eligible(events[j]) && out[i] == PatchOf(events[j])
      {
        if i < |prev| {
          var j :| 0 <= j < |init| && Eligible(init[j]) && prev[i] == PatchOf(init[j]);
          assert events[j] == init[j];
          assert out[i] == prev[i];
        } else {
          assert out == prev + [PatchOf(e)];
          assert out[i] == PatchOf(events[|events| - 1]);
        }
      }
    }
  }

  /** No two suggestions share a key. */
  lemma {:induction false} SuggestionsDistinct(events: seq<Event>)
    ensures var out := Suggestions(events);
      forall i, k :: 0 <= i < k < |out| ==> PatchKey(out[i]) != PatchKey(out[k])
  {
    if events != [] {
      var init := events[..|events| - 1];
      var e := events[|events| - 1];
      SuggestionsDistinct(init);
      ScanKeysAreOutputKeys(init);
      var prev := Suggestions(init);
      if Eligible(e) && KeyOf(e) !in Scan(init).1 {
        var out := prev + [PatchOf(e)];
        assert forall i :: 0 <= i < |prev| ==> out[i] == prev[i];
        assert out[|prev|] == PatchOf(e);
      }
    }
  }

  /** Every eligible event's key has a suggestion. */
  lemma SuggestionsComplete(events: seq<Event>)
    ensures var out := Suggestions(events);
      forall j :: 0 <= j < |events| && Eligible(events[j]) ==> exists i :: 0 <= i < |out| && PatchKey(out[i]) == KeyOf(events[j])
  {
    ScanIsFirstOccurrences(events);
    ScanKeysAreOutputKeys(events);
    forall j | 0 <= j < |events| && Eligible(events[j])
      ensures KeyOf(events[j]) in Scan(events).1
    {
    }
  }

  /** The keys seen so far are exactly the keys of the suggestions so far. */
  lemma {:induction false} ScanKeysAreOutputKeys(events: seq<Event>)
    ensures forall key :: key in Scan(events).1 <==> exists i :: 0 <= i < |Scan(events).0| && PatchKey(Scan(events).0[i]) == key
  {
    if events != [] {
      var init := events[..|events| - 1];
      var e := events[|events| - 1];
      ScanKeysAreOutputKeys(init);
      var prev := Scan(init).0;
      if Eligible(e) && KeyOf(e) !in Scan(init).1 {
        var out := prev + [PatchOf(e)];
        assert forall i :: 0 <= i < |prev| ==> out[i] == prev[i];
        assert out[|prev|] == PatchOf(e);
      }
    }
  }

  /** `generate_patch_suggestions`: one pass with a `seen` set, appending each new suggestion. */
  method GeneratePatchSuggestions(events: seq<Event>) returns (suggestions: seq<PatchOp>)
    ensures suggestions == Suggestions(events)
  {
    suggestions := [];
    var seen: set<Key> := {};
    var i := 0;
    while i < |events|
      invariant 0 <= i <= |events|
      invariant (suggestions, seen) == Scan(events[..i])
    {
      ScanStep(events, i);
      var event := events[i];
      if event.path != "" {
        var code := event.code;
        var reason: string;
        var confidence: real;
        var known := true;
        if EndsWith(code, "CLAMP") {
          reason, confidence := "resolver clamp observed", 0.6;
        } else if EndsWith(code, "FALLBACK") {
          reason, confidence := "resolver fallback observed", 0.55;
        } else if Contains(code, "ALIAS") {
          reason, confidence := "resolver alias normalization observed", 0.5;
        } else {
          known := false;
        }
        if known {
          var key := Key(event.path, event.resolved_value, code);
          if key !in seen {
            seen := seen + {key};
            suggestions := suggestions + [PatchOp("replace", event.path, event.resolved_value, reason, code, confidence)];
          }
        }
      }
      i := i + 1;
    }
    assert events[..|events|] == events;
  }

  /** `maybe_generate_suggestions_from_env` with the environment flag as a parameter. */
  function MaybeSuggestions(enabled: bool, events: seq<Event>): (r: seq<PatchOp>)
    ensures !enabled ==> r == []
    ensures enabled ==> r == FirstOccurrences(events)
  {
    ScanIsFirstOccurrences(events);
    if enabled then Suggestions(events) else []
  }
}
