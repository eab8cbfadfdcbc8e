/**
 * The bookkeeping around NER training: the label list (with "O" first and the other tags in
 * sorted order), the per-sub-token label ids the tokenizer's word ids call for, and the
 * evaluation step that drops the positions marked -100 before comparing tags.
 */
module TrainSofaNer {
  import opened Wrappers
  import opened Text
  import opened Sorting

  // ---------------------------------------------------------------------------------------------
  // build_label_list
  // ---------------------------------------------------------------------------------------------

  /** The tags of one item. */
  function TagSet(tags: seq<string>): set<string> {
    set j | 0 <= j < |tags| :: tags[j]
  }

  /** Every tag of the items seen so far. */
  function AllTags(items: seq<seq<string>>): set<string> {
    if items == [] then {} else AllTags(items[..|items| - 1]) + TagSet(items[|items| - 1])
  }

  lemma {:induction false} AllTagsMembers(items: seq<seq<string>>)
    ensures forall t :: t in AllTags(items) <==> exists i, j :: 0 <= i < |items| && 0 <= j < |items[i]| && items[i][j] == t
  {
    if items != [] {
      var init := items[..|items| - 1];
      AllTagsMembers(init);
      forall t
        ensures t in AllTags(items) <==> exists i, j :: 0 <= i < |items| && 0 <= j < |items[i]| && items[i][j] == t
      {
        if t in AllTags(init) {
          var i, j :| 0 <= i < |init| && 0 <= j < |init[i]| && init[i][j] == t;
          assert items[i] == init[i];
        }
        if exists i, j :: 0 <= i < |items| && 0 <= j < |items[i]| && items[i][j] == t {
          var i, j :| 0 <= i < |items| && 0 <= j < |items[i]| && items[i][j] == t;
          if i < |init| {
            assert init[i] == items[i];
          } else {
            assert t in TagSet(items[|items| - 1]);
          }
        }
      }
    }
  }

  /** `list.remove(x)`: drops the first occurrence; a list without `x` is kept (the source tests first). */
  function RemoveFirst(s: seq<string>, x: string): (r: seq<string>)
    ensures forall y :: y in r ==> y in s
    ensures x !in s ==> r == s
  {
    if s == [] then []
    else if s[0] == x then s[1..]
    else [s[0]] + RemoveFirst(s[1..], x)
  }

  /** Removing from a sorted list leaves it sorted and takes away exactly that value. */
  lemma {:induction false} RemoveFirstSorted(s: seq<string>, x: string)
    requires StrictlySorted(s)
    ensures StrictlySorted(RemoveFirst(s, x))
    ensures forall y :: y in RemoveFirst(s, x) <==> y in s && y != x
  {
    if s != [] {
      if s[0] == x {
        assert forall i :: 0 < i < |s| ==> LexLess(s[0], s[i]);
        forall i | 0 < i < |s|
          ensures s[i] != x
        {
          LexLessIrreflexive(x);
        }
      } else {
        var tail := RemoveFirst(s[1..], x);
        assert StrictlySorted(s[1..]) by {
          forall i, j | 0 <= i < j < |s| - 1 ensures LexLess(s[1..][i], s[1..][j]) {
            assert s[1..][i] == s[i + 1] && s[1..][j] == s[j + 1];
          }
        }
        RemoveFirstSorted(s[1..], x);
        var r := [s[0]] + tail;
        forall i, j | 0 <= i < j < |r|
          ensures LexLess(r[i], r[j])
        {
          assert r[j] == tail[j - 1];
          assert tail[j - 1] in s[1..];
          var k :| 0 <= k < |s| - 1 && s[1..][k] == tail[j - 1];
          assert s[k + 1] == r[j];
          if i > 0 {
            assert r[i] == tail[i - 1];
          }
        }
        forall y
          ensures y in r <==> y in s && y != x
        {
          assert s == [s[0]] + s[1..];
        }
      }
    }
  }

  /** `build_label_list`: "O", then the other tags in code-point order. */
  function LabelList(items: seq<seq<string>>): seq<string> {
    ["O"] + RemoveFirst(SortedStrings(AllTags(items)), "O")
  }

  /**
   * The label list starts with "O" and holds it once, even when no item uses it; the rest is
   * strictly increasing and holds exactly the other tags of the items, so ids are stable.
   */
  lemma LabelListShape(items: seq<seq<string>>)
    ensures var labels := LabelList(items);
      && labels[0] == "O"
      && (forall i :: 0 < i < |labels| ==> labels[i] != "O")
      && StrictlySorted(labels[1..])
      && (forall t :: t in labels[1..] <==> t != "O" && exists i, j :: 0 <= i < |items| && 0 <= j < |items[i]| && items[i][j] == t)
  {
    var sorted := SortedStrings(AllTags(items));
    RemoveFirstSorted(sorted, "O");
    AllTagsMembers(items);
    var labels := LabelList(items);
    assert labels[1..] == RemoveFirst(sorted, "O");
    forall i | 0 < i < |labels|
      ensures labels[i] != "O"
    {
      assert labels[i] == labels[1..][i - 1];
    }
  }

  /** No label appears twice, so `label2id` gives every label its own id. */
  lemma LabelListDistinct(items: seq<seq<string>>)
    ensures var labels := LabelList(items);
      forall i, j :: 0 <= i < j < |labels| ==> labels[i] != labels[j]
  {
    LabelListShape(items);
    var labels := LabelList(items);
    forall i, j | 0 <= i < j < |labels|
      ensures labels[i] != labels[j]
    {
      if i > 0 {
        assert LexLess(labels[1..][i - 1], labels[1..][j - 1]);
        LexLessIrreflexive(labels[i]);
      }
    }
  }

  /** `build_label_list`: a set filled over every tag of every item, then sorted and rearranged. */
  method BuildLabelList(items: seq<seq<string>>) returns (labels: seq<string>)
    ensures labels == LabelList(items)
  {
    var seen: set<string> := {};
    for i := 0 to |items|
      invariant seen == AllTags(items[..i])
    {
      assert items[..i + 1][..i] == items[..i];
      var tags := items[i];
      for j := 0 to |tags|
        invariant seen == AllTags(items[..i]) + TagSet(tags[..j])
      {
        assert TagSet(tags[..j + 1]) == TagSet(tags[..j]) + {tags[j]} by {
          assert forall t :: t in tags[..j + 1] <==> t in tags[..j] || t == tags[j] by {
            assert tags[..j + 1] == tags[..j] + [tags[j]];
          }
        }
        seen := seen + {tags[j]};
      }
      assert tags[..|tags|] == tags;
    }
    assert items[..|items|] == items;
    var sorted := SortedStrings(seen);
    if "O" in sorted {
      sorted := RemoveFirst(sorted, "O");
    }
    labels := ["O"] + sorted;
  }

  // ---------------------------------------------------------------------------------------------
  // align_labels_with_tokens: the label loop over the tokenizer's word ids
  // ---------------------------------------------------------------------------------------------

  /** The id given to sub-tokens that are not part of any word (special tokens). */
  const Ignored: int := -100

  /** Every word id names a word, and every word's tag has an id (the source raises otherwise). */
  predicate Aligned(word_ids: seq<Option<nat>>, tags: seq<string>, label2id: map<string, int>) {
    forall i :: 0 <= i < |word_ids| && word_ids[i].Some? ==>
      word_ids[i].value < |tags| && tags[word_ids[i].value] in label2id
  }

  /** A continuation sub-token's tag: "B-X" becomes "I-X" when that label is known; others stay. */
  function ContinuationTag(tag: string, label2id: map<string, int>): (r: string)
    requires tag in label2id
    ensures r in label2id
  {
    if StartsWith(tag, "B-") && "I-" + tag[2..] in label2id then "I-" + tag[2..] else tag
  }

  /** The first sub-token of a word: no sub-token earlier in the sequence, next to it, has its word id. */
  predicate StartsWord(word_ids: seq<Option<nat>>, i: nat)
    requires i < |word_ids|
  {
    i == 0 || word_ids[i - 1] != word_ids[i]
  }

  /** The tag sub-token `i` is trained on, or None for a special token. */
  function AssignedTag(word_ids: seq<Option<nat>>, tags: seq<string>, label2id: map<string, int>, i: nat): (r: Option<string>)
    requires Aligned(word_ids, tags, label2id) && i < |word_ids|
    ensures r.Some? ==> r.value in label2id
  {
    match word_ids[i]
    case None => None
    case Some(w) =>
      if StartsWord(word_ids, i) then Some(tags[w]) else Some(ContinuationTag(tags[w], label2id))
  }

  function LabelId(word_ids: seq<Option<nat>>, tags: seq<string>, label2id: map<string, int>, i: nat): int
    requires Aligned(word_ids, tags, label2id) && i < |word_ids|
  {
    match AssignedTag(word_ids, tags, label2id, i)
    case None => Ignored
    case Some(t) => label2id[t]
  }

  /** The entity type a tag names: "X" for "B-X" and "I-X", the tag itself otherwise. */
  function EntityType(tag: string): string {
    if StartsWith(tag, "B-") || StartsWith(tag, "I-") then tag[2..] else tag
  }

  /**
   * Every sub-token of a word is trained on the word's entity type; the first keeps the word's
   * tag, and a later one never carries "B-X" when "I-X" is a known label.
   */
  lemma AssignedTagShape(word_ids: seq<Option<nat>>, tags: seq<string>, label2id: map<string, int>, i: nat)
    requires Aligned(word_ids, tags, label2id) && i < |word_ids|
    ensures var r := AssignedTag(word_ids, tags, label2id, i);
      && (r.None? <==> word_ids[i].None?)
      && (r.Some? ==> EntityType(r.value) == EntityType(tags[word_ids[i].value]))
      && (r.Some? && StartsWord(word_ids, i) ==> r.value == tags[word_ids[i].value])
      && (r.Some? && !StartsWord(word_ids, i) && StartsWith(r.value, "B-") ==> "I-" + r.value[2..] !in label2id)
  {
    if word_ids[i].Some? {
      var tag := tags[word_ids[i].value];
      if StartsWith(tag, "B-") {
        var it := "I-" + tag[2..];
        assert it[..2] == "I-" && it[2..] == tag[2..];
      }
    }
  }

  /** With non-negative ids, a position is ignored exactly when it is not part of a word. */
  lemma IgnoredIffSpecial(word_ids: seq<Option<nat>>, tags: seq<string>, label2id: map<string, int>, i: nat)
    requires Aligned(word_ids, tags, label2id) && i < |word_ids|
    requires forall t :: t in label2id ==> label2id[t] >= 0
    ensures LabelId(word_ids, tags, label2id, i) == Ignored <==> word_ids[i].None?
  {
  }

  /** `align_labels_with_tokens` after tokenising: one label id per sub-token, tracking the previous word id. */
  method AlignLabels(word_ids: seq<Option<nat>>, tags: seq<string>, label2id: map<string, int>) returns (label_ids: seq<int>)
    requires Aligned(word_ids, tags, label2id)
    ensures |label_ids| == |word_ids|
    ensures forall i :: 0 <= i < |word_ids| ==> label_ids[i] == LabelId(word_ids, tags, label2id, i)
  {
    label_ids := [];
    var prev_word_id: Option<nat> := None;
    for i := 0 to |word_ids|
      invariant |label_ids| == i
      invariant forall k :: 0 <= k < i ==> label_ids[k] == LabelId(word_ids, tags, label2id, k)
      invariant prev_word_id == if i == 0 then None else word_ids[i - 1]
    {
      var word_id := word_ids[i];
      if word_id.None? {
        label_ids := label_ids + [Ignored];
      } else if word_id != prev_word_id {
        label_ids := label_ids + [label2id[tags[word_id.value]]];
      } else {
        var tag := tags[word_id.value];
        if StartsWith(tag, "B-") {
          tag := "I-" + tag[2..];
          tag := if tag in label2id then tag else tags[word_id.value];
        }
        label_ids := label_ids + [label2id[tag]];
      }
      prev_word_id := word_id;
    }
  }

  // ---------------------------------------------------------------------------------------------
  // compute_metrics: dropping the ignored positions
  // ---------------------------------------------------------------------------------------------

  function MinLen(a: nat, b: nat): nat { if a <= b then a else b }

  /** Every kept label, and the prediction beside it, has a tag (the source raises otherwise). */
  predicate Decodable(preds: seq<int>, labels: seq<int>, id2label: map<int, string>) {
    forall i :: 0 <= i < |preds| && i < |labels| && labels[i] != Ignored ==> labels[i] in id2label && preds[i] in id2label
  }

  /** The true and predicted tags of the first `n` positions of `zip(preds, labels)`, ignored ones dropped. */
  function Filtered(preds: seq<int>, labels: seq<int>, id2label: map<int, string>, n: nat): (r: (seq<string>, seq<string>))
    requires n <= |preds| && n <= |labels| && Decodable(preds, labels, id2label)
    ensures |r.0| == |r.1|
  {
    if n == 0 then ([], [])
    else
      var (t, p) := Filtered(preds, labels, id2label, n - 1);
      if labels[n - 1] == Ignored then (t, p) else (t + [id2label[labels[n - 1]]], p + [id2label[preds[n - 1]]])
  }

  /** The labels that are kept, in order. */
  function KeptLabels(labels: seq<int>): seq<int> {
    if labels == [] then []
    else KeptLabels(labels[..|labels| - 1]) + (if labels[|labels| - 1] == Ignored then [] else [labels[|labels| - 1]])
  }

  /**
   * The true tags are exactly the kept labels decoded in order: nothing ignored survives and
   * nothing else is lost; the predictions line up one for one.
   */
  lemma {:induction false} FilteredIsKept(preds: seq<int>, labels: seq<int>, id2label: map<int, string>, n: nat)
    requires n <= |preds| && n <= |labels| && Decodable(preds, labels, id2label)
    ensures var kept := KeptLabels(labels[..n]); var r := Filtered(preds, labels, id2label, n);
      && |r.0| == |kept|
      && (forall k :: 0 <= k < |kept| ==> kept[k] != Ignored && kept[k] in id2label && r.0[k] == id2label[kept[k]])
  {
    if n > 0 {
      FilteredIsKept(preds, labels, id2label, n - 1);
      assert labels[..n][..n - 1] == labels[..n - 1];
    }
  }

  /** Labels from the alignment keep exactly the sub-tokens that belong to a word. */
  lemma {:induction false} KeptAligned(word_ids: seq<Option<nat>>, tags: seq<string>, label2id: map<string, int>, label_ids: seq<int>, n: nat)
    requires Aligned(word_ids, tags, label2id) && forall t :: t in label2id ==> label2id[t] >= 0
    requires |label_ids| == |word_ids| && n <= |word_ids|
    requires forall i :: 0 <= i < |word_ids| ==> label_ids[i] == LabelId(word_ids, tags, label2id, i)
    ensures |KeptLabels(label_ids[..n])| == |set i | 0 <= i < n && word_ids[i].Some?|
  {
    if n > 0 {
      KeptAligned(word_ids, tags, label2id, label_ids, n - 1);
      assert label_ids[..n][..n - 1] == label_ids[..n - 1];
      IgnoredIffSpecial(word_ids, tags, label2id, n - 1);
      var before := set i | 0 <= i < n - 1 && word_ids[i].Some?;
      var after := set i | 0 <= i < n && word_ids[i].Some?;
      if word_ids[n - 1].Some? {
        assert after == before + {n - 1};
      } else {
        assert after == before;
      }
    }
  }

  /** One row of `compute_metrics`: walk `zip(pred_row, label_row)` and skip the ignored labels. */
  method FilterRow(preds: seq<int>, labels: seq<int>, id2label: map<int, string>) returns (seq_true: seq<string>, seq_pred: seq<string>)
    requires Decodable(preds, labels, id2label)
    ensures (seq_true, seq_pred) == Filtered(preds, labels, id2label, MinLen(|preds|, |labels|))
  {
    seq_true, seq_pred := [], [];
    var n := MinLen(|preds|, |labels|);
    for i := 0 to n
      invariant (seq_true, seq_pred) == Filtered(preds, labels, id2label, i)
    {
      var p, l := preds[i], labels[i];
      if l == Ignored {
        continue;
      }
      seq_true := seq_true + [id2label[l]];
      seq_pred := seq_pred + [id2label[p]];
    }
  }

  /** The row loop of `compute_metrics` (the arg-max over logits is given as `preds`). */
  method FilterRows(preds: seq<seq<int>>, labels: seq<seq<int>>, id2label: map<int, string>)
    returns (true_labels: seq<seq<string>>, true_preds: seq<seq<string>>)
    requires forall r :: 0 <= r < |preds| && r < |labels| ==> Decodable(preds[r], labels[r], id2label)
    ensures |true_labels| == |true_preds| == MinLen(|preds|, |labels|)
    ensures forall r :: 0 <= r < |true_labels| ==>
      (true_labels[r], true_preds[r]) == Filtered(preds[r], labels[r], id2label, MinLen(|preds[r]|, |labels[r]|))
  {
    true_labels, true_preds := [], [];
    for r := 0 to MinLen(|preds|, |labels|)
      invariant |true_labels| == |true_preds| == r
      invariant forall k :: 0 <= k < r ==>
        (true_labels[k], true_preds[k]) == Filtered(preds[k], labels[k], id2label, MinLen(|preds[k]|, |labels[k]|))
    {
      var seq_true, seq_pred := FilterRow(preds[r], labels[r], id2label);
      true_labels := true_labels + [seq_true];
      true_preds := true_preds + [seq_pred];
    }
  }
}
