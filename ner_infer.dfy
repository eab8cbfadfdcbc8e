/**
 * The deterministic half of NER inference: each word takes the label of its first sub-token, and
 * BIO tags are grouped into entity texts per type. Loading the model and running it are outside.
 */
module NerInfer {
  import opened Wrappers
  import opened Text

  // ---------------------------------------------------------------------------------------------
  // BIO grouping
  // ---------------------------------------------------------------------------------------------

  /** The grouping state: entities emitted so far, the open entity's type and its tokens. */
  datatype BioState = BioState(emitted: seq<(string, string)>, cur_type: Option<string>, cur_tokens: seq<string>)

  const Start := BioState([], None, [])

  /** An entity is open when it has a non-empty type and at least one token. */
  predicate IsOpen(st: BioState) {
    st.cur_type.Some? && st.cur_type.value != "" && st.cur_tokens != []
  }

  /** `flush`: emit the open entity as its tokens joined by spaces, then clear it. */
  function Flush(st: BioState): (r: BioState)
    ensures r.cur_type.None? && r.cur_tokens == []
    ensures IsOpen(st) ==> r.emitted == st.emitted + [(st.cur_type.value, Join(st.cur_tokens, " "))]
    ensures !IsOpen(st) ==> r.emitted == st.emitted
  {
    if IsOpen(st) then BioState(st.emitted + [(st.cur_type.value, Join(st.cur_tokens, " "))], None, [])
    else BioState(st.emitted, None, [])
  }

  /**
   * One (token, tag) pair: "B-X" flushes and opens an entity of type X; "I-X" extends an open
   * entity of type X; anything else, a mismatched "I-" included, flushes and drops the token.
   */
  function Step(st: BioState, tok: string, tag: string): BioState {
    if StartsWith(tag, "B-") then BioState(Flush(st).emitted, Some(tag[2..]), [tok])
    else if StartsWith(tag, "I-") && st.cur_type == Some(tag[2..]) then st.(cur_tokens := st.cur_tokens + [tok])
    else Flush(st)
  }

  /** The state after the first `k` pairs of `zip(tokens, tags)`. */
  function Scan(tokens: seq<string>, tags: seq<string>, k: nat): BioState
    requires k <= |tokens| && k <= |tags|
  {
    if k == 0 then Start else Step(Scan(tokens, tags, k - 1), tokens[k - 1], tags[k - 1])
  }

  function ZipLength(tokens: seq<string>, tags: seq<string>): nat {
    if |tokens| <= |tags| then |tokens| else |tags|
  }

  /** The entities in order of appearance, each as (type, text). */
  function Emitted(tokens: seq<string>, tags: seq<string>): seq<(string, string)> {
    Flush(Scan(tokens, tags, ZipLength(tokens, tags))).emitted
  }

  /** The texts of one type, in order. */
  function TextsOf(pairs: seq<(string, string)>, t: string): seq<string> {
    if pairs == [] then []
    else TextsOf(pairs[..|pairs| - 1], t) + (if pairs[|pairs| - 1].0 == t then [pairs[|pairs| - 1].1] else [])
  }

  /** `entities.setdefault(type, []).append(text)` over the emitted pairs. */
  function Group(pairs: seq<(string, string)>): map<string, seq<string>> {
    if pairs == [] then map[]
    else
      var (t, x) := pairs[|pairs| - 1];
      var g := Group(pairs[..|pairs| - 1]);
      g[t := (if t in g then g[t] else []) + [x]]
  }

  /** The grouped map has a key per type that occurs, holding that type's texts in order. */
  lemma {:induction false} GroupShape(pairs: seq<(string, string)>)
    ensures forall ty :: ty in Group(pairs) <==> exists i :: 0 <= i < |pairs| && pairs[i].0 == ty
    ensures forall ty :: ty in Group(pairs) ==> Group(pairs)[ty] == TextsOf(pairs, ty)
  {
    if pairs != [] {
      var init := pairs[..|pairs| - 1];
      var (t, x) := pairs[|pairs| - 1];
      GroupShape(init);
      var g := Group(init);
      assert forall i :: 0 <= i < |init| ==> init[i] == pairs[i];
      assert pairs[|pairs| - 1].0 == t;
      assert Group(pairs) == g[t := (if t in g then g[t] else []) + [x]];
      forall u
        ensures u in Group(pairs) <==> exists i :: 0 <= i < |pairs| && pairs[i].0 == u
      {
        if u == t {
          assert u in Group(pairs);
          assert pairs[|pairs| - 1].0 == u;
        } else {
          assert u in Group(pairs) <==> u in g;
          if u in g {
            var i :| 0 <= i < |init| && init[i].0 == u;
            assert pairs[i].0 == u;
          }
          if exists i :: 0 <= i < |pairs| && pairs[i].0 == u {
            var i :| 0 <= i < |pairs| && pairs[i].0 == u;
            assert i < |init| && init[i].0 == u;
            assert u in g;
          }
        }
      }
      if t !in g {
        TextsOfAbsent(init, t);
      }
    }
  }

  lemma {:induction false} TextsOfAbsent(pairs: seq<(string, string)>, t: string)
    requires forall i :: 0 <= i < |pairs| ==> pairs[i].0 != t
    ensures TextsOf(pairs, t) == []
  {
    if pairs != [] {
      TextsOfAbsent(pairs[..|pairs| - 1], t);
    }
  }

  /** `_bio_to_entities`. */
  function BioEntities(tokens: seq<string>, tags: seq<string>): map<string, seq<string>> {
    Group(Emitted(tokens, tags))
  }

  /** A tag that opens an entity that will be emitted: "B-" followed by a non-empty type. */
  predicate IsBegin(tag: string) {
    StartsWith(tag, "B-") && |tag| > 2
  }

  function CountBegins(tags: seq<string>): nat {
    if tags == [] then 0 else CountBegins(tags[..|tags| - 1]) + (if IsBegin(tags[|tags| - 1]) then 1 else 0)
  }

  /**
   * After `k` pairs, an entity with a non-empty type always has a token, and the entities emitted
   * plus the one still open are exactly the "B-X" tags seen.
   */
  lemma {:induction false} ScanCount(tokens: seq<string>, tags: seq<string>, k: nat)
    requires k <= |tokens| && k <= |tags|
    ensures var st := Scan(tokens, tags, k);
      && (st.cur_type.Some? && st.cur_type.value != "" ==> st.cur_tokens != [])
      && |st.emitted| + (if IsOpen(st) then 1 else 0) == CountBegins(tags[..k])
  {
    if k > 0 {
      ScanCount(tokens, tags, k - 1);
      assert tags[..k][..k - 1] == tags[..k - 1];
    }
  }

  /**
   * One entity per "B-X" tag with a non-empty type: a stray or mismatched "I-" tag never starts
   * an entity, and the final flush emits the entity still open.
   */
  lemma EntityCount(tokens: seq<string>, tags: seq<string>)
    ensures |Emitted(tokens, tags)| == CountBegins(tags[..ZipLength(tokens, tags)])
  {
    ScanCount(tokens, tags, ZipLength(tokens, tags));
  }

  /** Every emitted entity has a non-empty type that some earlier "B-" tag named. */
  lemma {:induction false} ScanTypes(tokens: seq<string>, tags: seq<string>, k: nat)
    requires k <= |tokens| && k <= |tags|
    ensures var st := Scan(tokens, tags, k);
      && (forall j :: 0 <= j < |st.emitted| ==>
            st.emitted[j].0 != "" && exists i :: 0 <= i < k && tags[i] == "B-" + st.emitted[j].0)
      && (st.cur_type.Some? ==> exists i :: 0 <= i < k && tags[i] == "B-" + st.cur_type.value)
  {
    if k > 0 {
      ScanTypes(tokens, tags, k - 1);
      var tag := tags[k - 1];
      if StartsWith(tag, "B-") {
        assert tag == "B-" + tag[2..];
      }
    }
  }

  lemma EntityTypes(tokens: seq<string>, tags: seq<string>)
    ensures var e := Emitted(tokens, tags);
      forall j :: 0 <= j < |e| ==> e[j].0 != "" && exists i :: 0 <= i < |tags| && tags[i] == "B-" + e[j].0
  {
    ScanTypes(tokens, tags, ZipLength(tokens, tags));
  }

  /** The `flush` closure, on the method's own entities map and open entity. */
  method FlushInto(entities: map<string, seq<string>>, cur_type: Option<string>, cur_tokens: seq<string>,
                   ghost emitted: seq<(string, string)>)
    returns (entities': map<string, seq<string>>, ghost emitted': seq<(string, string)>)
    requires entities == Group(emitted)
    ensures emitted' == Flush(BioState(emitted, cur_type, cur_tokens)).emitted
    ensures entities' == Group(emitted')
    ensures !(cur_type.Some? && cur_type.value != "" && cur_tokens != []) ==> entities' == entities
    ensures cur_type.Some? && cur_type.value != "" && cur_tokens != [] ==>
      var t := cur_type.value;
      && t in entities' && entities'[t] != [] && entities'[t][|entities'[t]| - 1] == Join(cur_tokens, " ")
      && forall k :: k in entities && k != t ==> k in entities' && entities'[k] == entities[k]
  {
    entities', emitted' := entities, emitted;
    if cur_type.Some? && cur_type.value != "" && cur_tokens != [] {
      var t := cur_type.value;
      var text := Join(cur_tokens, " ");
      entities' := entities'[t := (if t in entities' then entities'[t] else []) + [text]];
      emitted' := emitted' + [(t, text)];
      assert emitted'[..|emitted'| - 1] == emitted;
    }
  }

  /** `_bio_to_entities`, walking `zip(tokens, tags)` with the open entity in local variables. */
  method BioToEntities(tokens: seq<string>, tags: seq<string>) returns (entities: map<string, seq<string>>)
    ensures entities == BioEntities(tokens, tags)
  {
    entities := map[];
    var cur_type: Option<string> := None;
    var cur_tokens: seq<string> := [];
    ghost var emitted: seq<(string, string)> := [];
    var n := ZipLength(tokens, tags);
    var i := 0;
    while i < n
      invariant 0 <= i <= n
      invariant BioState(emitted, cur_type, cur_tokens) == Scan(tokens, tags, i)
      invariant entities == Group(emitted)
    {
      var tok, tag := tokens[i], tags[i];
      if StartsWith(tag, "B-") {
        entities, emitted := FlushInto(entities, cur_type, cur_tokens, emitted);
        cur_type := Some(tag[2..]);
        cur_tokens := [tok];
      } else if StartsWith(tag, "I-") && cur_type == Some(tag[2..]) {
        cur_tokens := cur_tokens + [tok];
      } else {
        entities, emitted := FlushInto(entities, cur_type, cur_tokens, emitted);
        cur_type := None;
        cur_tokens := [];
      }
      i := i + 1;
    }
    entities, emitted := FlushInto(entities, cur_type, cur_tokens, emitted);
  }

  // ---------------------------------------------------------------------------------------------
  // Word tags from sub-token predictions
  // ---------------------------------------------------------------------------------------------

  /** The first sub-token position belonging to word `w`. */
  function FirstAt(word_ids: seq<Option<nat>>, w: nat): (r: Option<nat>)
    ensures r.Some? ==> r.value < |word_ids| && word_ids[r.value] == Some(w)
    ensures r.Some? ==> forall j :: 0 <= j < r.value ==> word_ids[j] != Some(w)
    ensures r.None? ==> forall j :: 0 <= j < |word_ids| ==> word_ids[j] != Some(w)
  {
    if word_ids == [] then None
    else
      var p := FirstAt(word_ids[..|word_ids| - 1], w);
      if p.Some? then p
      else if word_ids[|word_ids| - 1] == Some(w) then Some(|word_ids| - 1)
      else None
  }

  /** Word `w`'s tag: the label predicted for its first sub-token, or "O" when it has none. */
  function WordTag(word_ids: seq<Option<nat>>, labels: seq<string>, w: nat): string
    requires |labels| >= |word_ids|
  {
    match FirstAt(word_ids, w)
    case Some(i) => labels[i]
    case None => "O"
  }

  /**
   * The tag loop of `predict`: `labels[i]` is `id2label[pred_ids[i]]`, and every word id the
   * tokenizer reports indexes one of the `n` words.
   */
  method WordTags(n: nat, word_ids: seq<Option<nat>>, labels: seq<string>) returns (word_tags: seq<string>)
    requires |labels| >= |word_ids|
    requires forall i :: 0 <= i < |word_ids| && word_ids[i].Some? ==> word_ids[i].value < n
    ensures |word_tags| == n
    ensures forall w :: 0 <= w < n ==> word_tags[w] == WordTag(word_ids, labels, w)
  {
    word_tags := seq(n, _ => "O");
    var used: set<nat> := {};
    var i := 0;
    while i < |word_ids|
      invariant 0 <= i <= |word_ids|
      invariant |word_tags| == n
      invariant forall w :: w in used <==> FirstAt(word_ids[..i], w).Some?
      invariant forall w :: 0 <= w < n ==> word_tags[w] == WordTag(word_ids[..i], labels, w)
    {
      var w_id := word_ids[i];
      if w_id.Some? && w_id.value !in used {
        used := used + {w_id.value};
        word_tags := word_tags[w_id.value := labels[i]];
      }
      forall w ensures w in used <==> FirstAt(word_ids[..i + 1], w).Some? {
        FirstAtStep(word_ids, labels, i, w);
      }
      forall w | 0 <= w < n ensures word_tags[w] == WordTag(word_ids[..i + 1], labels, w) {
        FirstAtStep(word_ids, labels, i, w);
      }
      i := i + 1;
    }
    assert word_ids[..|word_ids|] == word_ids;
  }

  /** One more sub-token: word `w` gains its first position exactly when it had none and the token is its. */
  lemma FirstAtStep(word_ids: seq<Option<nat>>, labels: seq<string>, i: nat, w: nat)
    requires i < |word_ids| <= |labels|
    ensures FirstAt(word_ids[..i + 1], w).Some? <==> FirstAt(word_ids[..i], w).Some? || word_ids[i] == Some(w)
    ensures WordTag(word_ids[..i + 1], labels, w) ==
      if FirstAt(word_ids[..i], w).None? && word_ids[i] == Some(w) then labels[i] else WordTag(word_ids[..i], labels, w)
  {
    assert word_ids[..i + 1][..i] == word_ids[..i];
  }
}
