/**
 * How the synthetic NER samples get their BIO tags: a span's tags, overlaying them on a tag
 * list, and the token-pattern scans that tag a phrase, the seat count, a number with its unit
 * and a width range. The tokens of a sample are input; the random sentence is not modelled.
 */
module GenerateSofaNer {
  import opened Wrappers
  import opened Text
  import NerInfer

  // ---------------------------------------------------------------------------------------------
  // tag_span and merge_tags
  // ---------------------------------------------------------------------------------------------

  /** The tags `tag_span` builds: "B-entity" at `start`, "I-entity" strictly inside, "O" elsewhere. */
  function SpanTags(n: nat, start: nat, end: nat, entity: string): seq<string>
    requires start < n && end <= n
  {
    seq(n, i => if i == start then "B-" + entity else if start < i < end then "I-" + entity else "O")
  }

  /** `tag_span`: fills a fresh list with "O", then writes the span. */
  method TagSpan(tokens: seq<string>, start: nat, end: nat, entity: string) returns (tags: seq<string>)
    requires start < |tokens| && end <= |tokens|
    ensures tags == SpanTags(|tokens|, start, end, entity)
  {
    var a := new string[|tokens|](_ => "O");
    a[start] := "B-" + entity;
    var i := start + 1;
    while i < end
      invariant start + 1 <= i && (i <= end || i == start + 1)
      invariant forall k :: 0 <= k < a.Length ==>
        a[k] == if k == start then "B-" + entity else if start < k < i then "I-" + entity else "O"
    {
      a[i] := "I-" + entity;
      i := i + 1;
    }
    tags := a[..];
    assert forall k :: 0 <= k < |tokens| ==> tags[k] == SpanTags(|tokens|, start, end, entity)[k];
  }

  /** The span may be longer than the base only where it holds "O" (the source writes past the end otherwise). */
  predicate Overlayable(base: seq<string>, span: seq<string>) {
    forall i :: |base| <= i < |span| ==> span[i] == "O"
  }

  /** The tags `merge_tags` returns: the span's tag where it is not "O", the base's tag elsewhere. */
  function Merged(base: seq<string>, span: seq<string>): seq<string>
    requires Overlayable(base, span)
  {
    seq(|base|, i requires 0 <= i < |base| => if i < |span| && span[i] != "O" then span[i] else base[i])
  }

  /** `merge_tags`: copies the base, then overwrites it wherever the span has a tag. */
  method MergeTags(base: seq<string>, span: seq<string>) returns (out: seq<string>)
    requires Overlayable(base, span)
    ensures out == Merged(base, span)
  {
    var a := new string[|base|](i requires 0 <= i < |base| => base[i]);
    for i := 0 to |span|
      invariant forall k :: 0 <= k < a.Length ==>
        a[k] == if k < i && span[k] != "O" then span[k] else base[k]
    {
      if span[i] != "O" {
        a[i] := span[i];
      }
    }
    out := a[..];
  }

  /** Tags a run of `len` tokens in place: "B-entity" first, "I-entity" after, the rest untouched. */
  function TagRun(tags: seq<string>, start: nat, len: nat, entity: string): seq<string>
    requires start < |tags| && start + len <= |tags|
  {
    seq(|tags|, k requires 0 <= k < |tags| => if k == start then "B-" + entity else if start < k < start + len then "I-" + entity else tags[k])
  }

  /**
   * Overlaying a span on tags of the same length tags exactly that run of tokens and keeps every
   * other tag; overlaying it again changes nothing.
   */
  lemma MergeSpanIsRun(tags: seq<string>, start: nat, len: nat, entity: string)
    requires start < |tags| && start + len <= |tags|
    ensures var span := SpanTags(|tags|, start, start + len, entity);
      Overlayable(tags, span) && Merged(tags, span) == TagRun(tags, start, len, entity)
      && Overlayable(Merged(tags, span), span) && Merged(Merged(tags, span), span) == Merged(tags, span)
  {
    var span := SpanTags(|tags|, start, start + len, entity);
    var merged := Merged(tags, span);
    var run := TagRun(tags, start, len, entity);
    forall k | 0 <= k < |tags|
      ensures merged[k] == run[k]
    {
      assert |"B-" + entity| >= 2 && |"I-" + entity| >= 2;
    }
  }

  /** A span left entirely as "O" leaves the tags as they are. */
  lemma MergeNothing(base: seq<string>, span: seq<string>)
    requires forall i :: 0 <= i < |span| ==> span[i] == "O"
    ensures Overlayable(base, span) && Merged(base, span) == base
  {
  }

  /** Facts about the prefixes of the tags a span is made of. */
  lemma TagPrefixes(entity: string)
    ensures StartsWith("B-" + entity, "B-") && ("B-" + entity)[2..] == entity
    ensures !StartsWith("I-" + entity, "B-") && StartsWith("I-" + entity, "I-") && ("I-" + entity)[2..] == entity
    ensures !StartsWith("O", "B-") && !StartsWith("O", "I-")
  {
    assert ("B-" + entity)[..2] == "B-";
    assert ("I-" + entity)[..2] == "I-";
  }

  /** The BIO scan of a single span: nothing before it, the span open inside it, one entity after it. */
  lemma ScanSpan(tokens: seq<string>, start: nat, end: nat, entity: string, k: nat)
    requires start < end <= |tokens| && entity != "" && k <= |tokens|
    ensures var st := NerInfer.Scan(tokens, SpanTags(|tokens|, start, end, entity), k);
      && (k <= start ==> st == NerInfer.Start)
      && (start < k <= end ==> st == NerInfer.BioState([], Some(entity), tokens[start..k]))
      && (end < k ==> st == NerInfer.BioState([(entity, Join(tokens[start..end], " "))], None, []))
  {
    if k <= start {
      ScanBefore(tokens, start, end, entity, k);
    } else if k <= end {
      ScanInside(tokens, start, end, entity, k);
    } else {
      ScanAfter(tokens, start, end, entity, k);
    }
  }

  lemma {:induction false} ScanBefore(tokens: seq<string>, start: nat, end: nat, entity: string, k: nat)
    requires start < end <= |tokens| && k <= start
    ensures NerInfer.Scan(tokens, SpanTags(|tokens|, start, end, entity), k) == NerInfer.Start
  {
    if k > 0 {
      var tags := SpanTags(|tokens|, start, end, entity);
      ScanBefore(tokens, start, end, entity, k - 1);
      assert tags[k - 1] == "O";
      ScanKeepsClosed(tokens, tags, k, []);
    }
  }

  lemma {:induction false} ScanInside(tokens: seq<string>, start: nat, end: nat, entity: string, k: nat)
    requires start < end <= |tokens| && start < k <= end
    ensures NerInfer.Scan(tokens, SpanTags(|tokens|, start, end, entity), k)
      == NerInfer.BioState([], Some(entity), tokens[start..k])
  {
    var tags := SpanTags(|tokens|, start, end, entity);
    if k - 1 == start {
      ScanBefore(tokens, start, end, entity, start);
      assert tags[k - 1] == "B-" + entity;
      ScanOpens(tokens, tags, k, entity);
      assert tokens[start..k] == [tokens[k - 1]];
    } else {
      ScanInside(tokens, start, end, entity, k - 1);
      assert tags[k - 1] == "I-" + entity;
      ScanExtends(tokens, tags, k, entity, tokens[start..k - 1]);
      assert tokens[start..k] == tokens[start..k - 1] + [tokens[k - 1]];
    }
  }

  lemma {:induction false} ScanAfter(tokens: seq<string>, start: nat, end: nat, entity: string, k: nat)
    requires start < end <= |tokens| && entity != "" && end < k <= |tokens|
    ensures NerInfer.Scan(tokens, SpanTags(|tokens|, start, end, entity), k)
      == NerInfer.BioState([(entity, Join(tokens[start..end], " "))], None, [])
  {
    var tags := SpanTags(|tokens|, start, end, entity);
    assert tags[k - 1] == "O";
    if k - 1 == end {
      ScanInside(tokens, start, end, entity, end);
      ScanCloses(tokens, tags, k, entity, tokens[start..end]);
    } else {
      ScanAfter(tokens, start, end, entity, k - 1);
      ScanKeepsClosed(tokens, tags, k, [(entity, Join(tokens[start..end], " "))]);
    }
  }

  lemma ScanKeepsClosed(tokens: seq<string>, tags: seq<string>, k: nat, emitted: seq<(string, string)>)
    requires 0 < k <= |tokens| && k <= |tags| && tags[k - 1] == "O"
    requires NerInfer.Scan(tokens, tags, k - 1) == NerInfer.BioState(emitted, None, [])
    ensures NerInfer.Scan(tokens, tags, k) == NerInfer.BioState(emitted, None, [])
  {
    StepKeepsClosed(emitted, tokens[k - 1]);
  }

  lemma ScanOpens(tokens: seq<string>, tags: seq<string>, k: nat, entity: string)
    requires 0 < k <= |tokens| && k <= |tags| && tags[k - 1] == "B-" + entity
    requires NerInfer.Scan(tokens, tags, k - 1) == NerInfer.Start
    ensures NerInfer.Scan(tokens, tags, k) == NerInfer.BioState([], Some(entity), [tokens[k - 1]])
  {
    StepOpens(tokens[k - 1], entity);
  }

  lemma ScanExtends(tokens: seq<string>, tags: seq<string>, k: nat, entity: string, toks: seq<string>)
    requires 0 < k <= |tokens| && k <= |tags| && tags[k - 1] == "I-" + entity
    requires NerInfer.Scan(tokens, tags, k - 1) == NerInfer.BioState([], Some(entity), toks)
    ensures NerInfer.Scan(tokens, tags, k) == NerInfer.BioState([], Some(entity), toks + [tokens[k - 1]])
  {
    StepExtends(toks, tokens[k - 1], entity);
  }

  lemma ScanCloses(tokens: seq<string>, tags: seq<string>, k: nat, entity: string, toks: seq<string>)
    requires 0 < k <= |tokens| && k <= |tags| && tags[k - 1] == "O" && toks != [] && entity != ""
    requires NerInfer.Scan(tokens, tags, k - 1) == NerInfer.BioState([], Some(entity), toks)
    ensures NerInfer.Scan(tokens, tags, k) == NerInfer.BioState([(entity, Join(toks, " "))], None, [])
  {
    StepCloses(toks, tokens[k - 1], entity);
  }

  lemma StepKeepsClosed(emitted: seq<(string, string)>, tok: string)
    ensures NerInfer.Step(NerInfer.BioState(emitted, None, []), tok, "O") == NerInfer.BioState(emitted, None, [])
  {
    TagPrefixes("");
  }

  lemma StepOpens(tok: string, entity: string)
    ensures NerInfer.Step(NerInfer.Start, tok, "B-" + entity) == NerInfer.BioState([], Some(entity), [tok])
  {
    TagPrefixes(entity);
  }

  lemma StepExtends(toks: seq<string>, tok: string, entity: string)
    ensures NerInfer.Step(NerInfer.BioState([], Some(entity), toks), tok, "I-" + entity)
      == NerInfer.BioState([], Some(entity), toks + [tok])
  {
    TagPrefixes(entity);
  }

  lemma StepCloses(toks: seq<string>, tok: string, entity: string)
    requires toks != [] && entity != ""
    ensures NerInfer.Step(NerInfer.BioState([], Some(entity), toks), tok, "O")
      == NerInfer.BioState([(entity, Join(toks, " "))], None, [])
  {
    TagPrefixes(entity);
  }

  /**
   * Round trip with the inference side: reading back the tags of one span yields exactly one
   * entity, of the span's entity, whose text is the span's tokens joined by spaces.
   */
  lemma SpanDecodes(tokens: seq<string>, start: nat, end: nat, entity: string)
    requires start < end <= |tokens| && entity != ""
    ensures NerInfer.Emitted(tokens, SpanTags(|tokens|, start, end, entity)) == [(entity, Join(tokens[start..end], " "))]
  {
    var tags := SpanTags(|tokens|, start, end, entity);
    assert NerInfer.ZipLength(tokens, tags) == |tokens|;
    if end < |tokens| {
      ScanAfter(tokens, start, end, entity, |tokens|);
    } else {
      ScanInside(tokens, start, end, entity, |tokens|);
      SpanFlushes(tokens[start..end], entity);
    }
  }

  /** Flushing an open span emits it. */
  lemma SpanFlushes(toks: seq<string>, entity: string)
    requires toks != [] && entity != ""
    ensures NerInfer.Flush(NerInfer.BioState([], Some(entity), toks)).emitted == [(entity, Join(toks, " "))]
  {
  }

  // ---------------------------------------------------------------------------------------------
  // The token patterns scanned for inside generate_one
  // ---------------------------------------------------------------------------------------------

  /** What a scan looks for, each over a fixed number of consecutive tokens. */
  datatype Pattern =
    | Phrase(words: seq<string>)      // the tokens of a phrase, in order
    | Token(text: string)             // one token equal to a text
    | NumberUnit(keyword: string)     // a number, then a unit, after the keyword and "сиденья"
    | DashRange                       // number, dash, number, unit
    | FromToRange                     // "от", number, "до", number, unit

  function Width(p: Pattern): nat {
    match p
    case Phrase(words) => |words|
    case Token(_) => 1
    case NumberUnit(_) => 2
    case DashRange => 4
    case FromToRange => 5
  }

  predicate IsUnit(t: string) { t == "см" || t == "мм" }

  predicate IsDash(t: string) { t == "–" || t == "-" }

  /** The up to four tokens before position `i`, joined by spaces. */
  function Window(tokens: seq<string>, i: nat): string
    requires i <= |tokens|
  {
    Join(tokens[if i >= 4 then i - 4 else 0..i], " ")
  }

  /** Whether the pattern occurs at position `i`. */
  predicate Matches(tokens: seq<string>, p: Pattern, i: nat) {
    i + Width(p) <= |tokens| &&
    match p
    case Phrase(words) => tokens[i..i + |words|] == words
    case Token(text) => tokens[i] == text
    case NumberUnit(keyword) =>
      IsDigits(tokens[i]) && IsUnit(tokens[i + 1])
      && Contains(Window(tokens, i), keyword) && Contains(Window(tokens, i), "сиденья")
    case DashRange =>
      IsDigits(tokens[i]) && IsDash(tokens[i + 1]) && IsDigits(tokens[i + 2]) && IsUnit(tokens[i + 3])
    case FromToRange =>
      Lower(tokens[i]) == "от" && IsDigits(tokens[i + 1]) && Lower(tokens[i + 2]) == "до"
      && IsDigits(tokens[i + 3]) && IsUnit(tokens[i + 4])
  }

  /** The first position at or after `i` where the pattern occurs. */
  function FindFrom(tokens: seq<string>, p: Pattern, i: nat): (r: Option<nat>)
    decreases |tokens| - i
    ensures r.Some? ==> i <= r.value && Matches(tokens, p, r.value)
    ensures r.Some? ==> forall j: nat :: i <= j < r.value ==> !Matches(tokens, p, j)
    ensures r.None? ==> forall j: nat :: i <= j ==> !Matches(tokens, p, j)
  {
    if i + Width(p) > |tokens| then None
    else if Matches(tokens, p, i) then Some(i)
    else FindFrom(tokens, p, i + 1)
  }

  function Find(tokens: seq<string>, p: Pattern): (r: Option<nat>) {
    FindFrom(tokens, p, 0)
  }

  /** The first occurrence is unique: any position where the pattern occurs is at or after it. */
  lemma FindIsFirst(tokens: seq<string>, p: Pattern, j: nat)
    requires Matches(tokens, p, j)
    ensures Find(tokens, p).Some? && Find(tokens, p).value <= j
  {
  }

  /** The entity entity `label_number_unit` is called with, and the keyword it looks for. */
  function KindKeyword(kind: string): Option<string> {
    if kind == "SEAT_HEIGHT_MM" then Some("высота")
    else if kind == "SEAT_DEPTH_MM" then Some("глубина")
    else None
  }

  const WidthRangeLabel := "SEAT_WIDTH_RANGE_MM"

  // ---------------------------------------------------------------------------------------------
  // What each scan does to the tags
  // ---------------------------------------------------------------------------------------------

  /** `label_phrase`: whether the phrase was found, and the tags after overlaying its span. */
  function PhraseTagged(tokens: seq<string>, tags: seq<string>, words: seq<string>, entity: string): (bool, seq<string>)
    requires |tags| == |tokens| && (words != [] || tokens != [])
  {
    match Find(tokens, Phrase(words))
    case None => (false, tags)
    case Some(i) =>
      assert Matches(tokens, Phrase(words), i);
      (true, Merged(tags, SpanTags(|tokens|, i, i + |words|, entity)))
  }

  /** The SEAT_COUNT scan: only the first token spelling the count becomes "B-SEAT_COUNT". */
  function SeatCountTagged(tokens: seq<string>, tags: seq<string>, seat_count: int): seq<string>
    requires |tags| == |tokens|
  {
    match Find(tokens, Token(IntToString(seat_count)))
    case None => tags
    case Some(i) => tags[i := "B-SEAT_COUNT"]
  }

  /** `label_number_unit`: the first qualifying number and unit get the kind's two tags. */
  function NumberUnitTagged(tokens: seq<string>, tags: seq<string>, kind: string): seq<string>
    requires |tags| == |tokens|
  {
    match KindKeyword(kind)
    case None => tags
    case Some(keyword) =>
      match Find(tokens, NumberUnit(keyword))
      case None => tags
      case Some(i) => TagRun(tags, i, 2, kind)
  }

  /** `label_width_range`: the first dash range if there is one, else the first "от … до" range. */
  function WidthRangeTagged(tokens: seq<string>, tags: seq<string>): seq<string>
    requires |tags| == |tokens|
  {
    match Find(tokens, DashRange)
    case Some(i) => TagRun(tags, i, 4, WidthRangeLabel)
    case None =>
      match Find(tokens, FromToRange)
      case None => tags
      case Some(i) => TagRun(tags, i, 5, WidthRangeLabel)
  }

  /**
   * A phrase is tagged at its first occurrence only: the result is true exactly when the phrase
   * occurs; then its tokens are tagged "B-"/"I-" and every other tag is kept; otherwise nothing
   * changes.
   */
  lemma PhraseTaggedShape(tokens: seq<string>, tags: seq<string>, words: seq<string>, entity: string)
    requires |tags| == |tokens| && words != []
    ensures var (found, out) := PhraseTagged(tokens, tags, words, entity);
      && (found <==> exists j: nat :: Matches(tokens, Phrase(words), j))
      && (!found ==> out == tags)
      && (found ==> exists i: nat :: (Matches(tokens, Phrase(words), i)
            && (forall j: nat :: Matches(tokens, Phrase(words), j) ==> i <= j)
            && out == TagRun(tags, i, |words|, entity)))
  {
    var r := Find(tokens, Phrase(words));
    if r.Some? {
      var i := r.value;
      MergeSpanIsRun(tags, i, |words|, entity);
      forall j | Matches(tokens, Phrase(words), j)
        ensures i <= j
      {
        FindIsFirst(tokens, Phrase(words), j);
      }
    }
  }

  /** The seat count tags one token at most, the first one spelling it, as "B-SEAT_COUNT". */
  lemma SeatCountShape(tokens: seq<string>, tags: seq<string>, seat_count: int)
    requires |tags| == |tokens|
    ensures var out := SeatCountTagged(tokens, tags, seat_count);
      && |out| == |tags|
      && (forall k :: 0 <= k < |tags| && out[k] != tags[k] ==>
            out[k] == "B-SEAT_COUNT" && tokens[k] == IntToString(seat_count)
            && forall j: nat :: 0 <= j < k ==> tokens[j] != IntToString(seat_count))
      && ((exists j: nat :: 0 <= j < |tokens| && tokens[j] == IntToString(seat_count)) ==>
            exists k :: 0 <= k < |tokens| && out[k] == "B-SEAT_COUNT")
  {
    var t := Token(IntToString(seat_count));
    if exists j: nat :: 0 <= j < |tokens| && tokens[j] == IntToString(seat_count) {
      var j: nat :| 0 <= j < |tokens| && tokens[j] == IntToString(seat_count);
      FindIsFirst(tokens, t, j);
    }
    var r := Find(tokens, t);
    if r.Some? {
      forall j | 0 <= j < r.value
        ensures tokens[j] != IntToString(seat_count)
      {
        assert !Matches(tokens, t, j);
      }
    }
  }

  /**
   * A number and unit are tagged at most once per kind, and only when they follow the kind's
   * keyword and "сиденья" within four tokens; a kind without a keyword tags nothing.
   */
  lemma NumberUnitShape(tokens: seq<string>, tags: seq<string>, kind: string)
    requires |tags| == |tokens|
    ensures KindKeyword(kind).None? ==> NumberUnitTagged(tokens, tags, kind) == tags
    ensures KindKeyword(kind).Some? ==>
      var p := NumberUnit(KindKeyword(kind).value);
      var out := NumberUnitTagged(tokens, tags, kind);
      && ((forall j: nat :: !Matches(tokens, p, j)) ==> out == tags)
      && ((exists j: nat :: Matches(tokens, p, j)) ==>
            exists i: nat :: Matches(tokens, p, i) && (forall j: nat :: Matches(tokens, p, j) ==> i <= j)
              && out == TagRun(tags, i, 2, kind) && out[i] == "B-" + kind && out[i + 1] == "I-" + kind)
  {
    if KindKeyword(kind).Some? {
      var p := NumberUnit(KindKeyword(kind).value);
      if exists j: nat :: Matches(tokens, p, j) {
        var j: nat :| Matches(tokens, p, j);
        FirstMatch(tokens, p, j);
        var i := Find(tokens, p).value;
        assert NumberUnitTagged(tokens, tags, kind) == TagRun(tags, i, 2, kind);
        TagRunHead(tags, i, 2, kind);
      }
    }
  }

  /** Where the pattern occurs, `Find` reports the first place it does. */
  lemma FirstMatch(tokens: seq<string>, p: Pattern, j: nat)
    requires Matches(tokens, p, j)
    ensures Find(tokens, p).Some? && Matches(tokens, p, Find(tokens, p).value)
    ensures forall j': nat :: Matches(tokens, p, j') ==> Find(tokens, p).value <= j'
  {
    FindIsFirst(tokens, p, j);
    forall j': nat | Matches(tokens, p, j')
      ensures Find(tokens, p).value <= j'
    {
      FindIsFirst(tokens, p, j');
    }
  }

  /** The first two tags of a run of at least two. */
  lemma TagRunHead(tags: seq<string>, start: nat, len: nat, entity: string)
    requires 2 <= len && start + len <= |tags|
    ensures TagRun(tags, start, len, entity)[start] == "B-" + entity
    ensures TagRun(tags, start, len, entity)[start + 1] == "I-" + entity
  {
  }

  /** A dash range wins over any "от … до" range; at most one range is tagged. */
  lemma WidthRangeShape(tokens: seq<string>, tags: seq<string>)
    requires |tags| == |tokens|
    ensures var out := WidthRangeTagged(tokens, tags);
      && ((exists j: nat :: Matches(tokens, DashRange, j)) ==>
            exists i: nat :: Matches(tokens, DashRange, i) && (forall j: nat :: Matches(tokens, DashRange, j) ==> i <= j)
              && out == TagRun(tags, i, 4, WidthRangeLabel))
      && ((forall j: nat :: !Matches(tokens, DashRange, j)) && (exists j: nat :: Matches(tokens, FromToRange, j)) ==>
            exists i: nat :: Matches(tokens, FromToRange, i) && (forall j: nat :: Matches(tokens, FromToRange, j) ==> i <= j)
              && out == TagRun(tags, i, 5, WidthRangeLabel))
      && ((forall j: nat :: !Matches(tokens, DashRange, j) && !Matches(tokens, FromToRange, j)) ==> out == tags)
  {
    var dash := Find(tokens, DashRange);
    if dash.Some? {
      FirstMatch(tokens, DashRange, dash.value);
      assert WidthRangeTagged(tokens, tags) == TagRun(tags, dash.value, 4, WidthRangeLabel);
    } else {
      var from := Find(tokens, FromToRange);
      if from.Some? {
        FirstMatch(tokens, FromToRange, from.value);
        assert WidthRangeTagged(tokens, tags) == TagRun(tags, from.value, 5, WidthRangeLabel);
      } else {
        assert WidthRangeTagged(tokens, tags) == tags;
      }
    }
  }

  // ---------------------------------------------------------------------------------------------
  // The labelling closures of generate_one, over the sample's tokens and its tag list
  // ---------------------------------------------------------------------------------------------

  class Labelling {
    const tokens: seq<string>
    var tags: seq<string>

    /** One tag per token. */
    predicate Valid()
      reads this
    {
      |tags| == |tokens|
    }

    /** `tags = ["O"] * len(tokens)`. */
    constructor(tokens: seq<string>)
      ensures Valid() && this.tokens == tokens
      ensures forall k :: 0 <= k < |tags| ==> tags[k] == "O"
    {
      this.tokens := tokens;
      tags := seq(|tokens|, _ => "O");
    }

    /** `label_phrase`: scans for the phrase's tokens and overlays the first match's span. */
    method LabelPhrase(words: seq<string>, entity: string) returns (found: bool)
      requires Valid() && (words != [] || tokens != [])
      modifies this
      ensures Valid()
      ensures (found, tags) == PhraseTagged(tokens, old(tags), words, entity)
    {
      var p := Phrase(words);
      var i := 0;
      while i + |words| <= |tokens|
        invariant Find(tokens, p) == FindFrom(tokens, p, i)
        decreases |tokens| - i
      {
        if tokens[i..i + |words|] == words {
          assert Matches(tokens, p, i);
          var span := TagSpan(tokens, i, i + |words|, entity);
          tags := MergeTags(tags, span);
          return true;
        }
        i := i + 1;
      }
      return false;
    }

    /** The SEAT_COUNT scan: the first token equal to `str(seat_count)` is tagged, then the scan stops. */
    method LabelSeatCount(seat_count: int)
      requires Valid()
      modifies this
      ensures Valid()
      ensures tags == SeatCountTagged(tokens, old(tags), seat_count)
    {
      var p := Token(IntToString(seat_count));
      for i := 0 to |tokens|
        invariant Find(tokens, p) == FindFrom(tokens, p, i)
        invariant tags == old(tags)
      {
        if tokens[i] == IntToString(seat_count) {
          assert Matches(tokens, p, i);
          tags := tags[i := "B-SEAT_COUNT"];
          return;
        }
      }
    }

    /** `label_number_unit`: the first number and unit after the kind's keywords get "B-"/"I-" tags. */
    method LabelNumberUnit(kind: string)
      requires Valid()
      modifies this
      ensures Valid()
      ensures tags == NumberUnitTagged(tokens, old(tags), kind)
    {
      var keyword := KindKeyword(kind);
      var i := 0;
      while i + 1 < |tokens|
        invariant keyword.Some? ==> Find(tokens, NumberUnit(keyword.value)) == FindFrom(tokens, NumberUnit(keyword.value), i)
        invariant tags == old(tags)
        decreases |tokens| - i
      {
        if IsDigits(tokens[i]) && IsUnit(tokens[i + 1]) {
          var window := Window(tokens, i);
          if keyword.Some? && Contains(window, keyword.value) && Contains(window, "сиденья") {
            assert Matches(tokens, NumberUnit(keyword.value), i);
            tags := tags[i := "B-" + kind][i + 1 := "I-" + kind];
            return;
          }
        }
        i := i + 1;
      }
    }

    /** `label_width_range`: the dash pattern is scanned first; only if it never occurs, the "от … до" one. */
    method LabelWidthRange()
      requires Valid()
      modifies this
      ensures Valid()
      ensures tags == WidthRangeTagged(tokens, old(tags))
    {
      var i := 0;
      while i + 3 < |tokens|
        invariant Find(tokens, DashRange) == FindFrom(tokens, DashRange, i)
        invariant tags == old(tags)
        decreases |tokens| - i
      {
        if IsDigits(tokens[i]) && IsDash(tokens[i + 1]) && IsDigits(tokens[i + 2]) && IsUnit(tokens[i + 3]) {
          assert Matches(tokens, DashRange, i);
          tags := TagRun(tags, i, 4, WidthRangeLabel);
          return;
        }
        i := i + 1;
      }
      i := 0;
      while i + 4 < |tokens|
        invariant Find(tokens, FromToRange) == FindFrom(tokens, FromToRange, i)
        invariant tags == old(tags)
        decreases |tokens| - i
      {
        if Lower(tokens[i]) == "от" && IsDigits(tokens[i + 1]) && Lower(tokens[i + 2]) == "до"
          && IsDigits(tokens[i + 3]) && IsUnit(tokens[i + 4])
        {
          assert Matches(tokens, FromToRange, i);
          tags := TagRun(tags, i, 5, WidthRangeLabel);
          return;
        }
        i := i + 1;
      }
    }
  }
}
