/**
 * The feedback record and the pure operations the widget performs on it and
 * on the list of committed records: normalising a selection into a span,
 * toggling a category tag, filling in defaults at commit, replacing the
 * records that share a draft's id and deleting the records with an id.
 */
module Records {

  /** One feedback entry, in the draft and in the list alike (`FeedbackData`). */
  datatype FeedbackData = FeedbackData(
    feedbackId: string,
    generationId: string,
    startIndex: int,
    endIndex: int,
    selectedText: string,
    suggestedText: string,
    feedbackType: seq<string>,
    comment: string)

  /** The draft that `resetFeedbackForm` installs and the component starts with. */
  const EmptyDraft := FeedbackData("", "", 0, 0, "", "", [], "")

  /** The category tag whose presence disables saving. */
  const Other := "OTHER"

  /** A selection's offsets, smaller first. */
  datatype Span = Span(start: int, end: int)

  /**
   * `Math.min` and `Math.max` of the selection's anchor and focus offsets:
   * the same two offsets, ordered.
   */
  function NormalisedSpan(anchor: int, focus: int): (s: Span)
    ensures s.start <= s.end
    ensures (s.start == anchor && s.end == focus) || (s.start == focus && s.end == anchor)
  {
    if anchor <= focus then Span(anchor, focus) else Span(focus, anchor)
  }

  /** Dragging left or right over the same text gives the same span. */
  lemma NormalisedSpanSymmetric(anchor: int, focus: int)
    ensures NormalisedSpan(anchor, focus) == NormalisedSpan(focus, anchor)
  {
  }

  // ---------------------------------------------------------------- tags

  /** No tag occurs twice. */
  predicate Distinct(tags: seq<string>)
  {
    forall i, j :: 0 <= i < j < |tags| ==> tags[i] != tags[j]
  }

  /** `tags.filter(item => item != tag)`: every occurrence of `tag` removed, the rest kept. */
  function RemoveTag(tags: seq<string>, tag: string): (r: seq<string>)
    ensures tag !in r
    ensures multiset(r) == multiset(tags)[tag := 0]
  {
    if tags == [] then []
    else
      assert tags == [tags[0]] + tags[1..];
      if tags[0] == tag then RemoveTag(tags[1..], tag)
      else [tags[0]] + RemoveTag(tags[1..], tag)
  }

  /**
   * A category checkbox click: an absent tag is pushed at the end, a present
   * one is removed everywhere. Membership of `tag` flips and no other tag's
   * count changes.
   */
  function ToggleTag(tags: seq<string>, tag: string): (r: seq<string>)
    ensures tag in r <==> tag !in tags
    ensures forall t :: t != tag ==> multiset(r)[t] == multiset(tags)[t]
    ensures tag !in tags ==> r == tags + [tag]
  {
    if tag !in tags then tags + [tag] else RemoveTag(tags, tag)
  }

  lemma {:induction false} RemoveTagAbsent(tags: seq<string>, tag: string)
    requires tag !in tags
    ensures RemoveTag(tags, tag) == tags
  {
    if tags != [] {
      RemoveTagAbsent(tags[1..], tag);
    }
  }

  lemma {:induction false} RemoveTagAppend(a: seq<string>, b: seq<string>, tag: string)
    ensures RemoveTag(a + b, tag) == RemoveTag(a, tag) + RemoveTag(b, tag)
  {
    if a != [] {
      var ab := a + b;
      assert ab[0] == a[0] && ab[1..] == a[1..] + b;
      RemoveTagAppend(a[1..], b, tag);
      if a[0] == tag {
        calc {
          RemoveTag(ab, tag);
          RemoveTag(a[1..] + b, tag);
          RemoveTag(a[1..], tag) + RemoveTag(b, tag);
          RemoveTag(a, tag) + RemoveTag(b, tag);
        }
      } else {
        calc {
          RemoveTag(ab, tag);
          [a[0]] + RemoveTag(a[1..] + b, tag);
          [a[0]] + (RemoveTag(a[1..], tag) + RemoveTag(b, tag));
          ([a[0]] + RemoveTag(a[1..], tag)) + RemoveTag(b, tag);
          RemoveTag(a, tag) + RemoveTag(b, tag);
        }
      }
    } else {
      assert a + b == b;
    }
  }

  /** Ticking an unticked category and then unticking it restores the list. */
  lemma ToggleTwiceRestores(tags: seq<string>, tag: string)
    requires tag !in tags
    ensures ToggleTag(ToggleTag(tags, tag), tag) == tags
  {
    RemoveTagAppend(tags, [tag], tag);
    RemoveTagAbsent(tags, tag);
    assert RemoveTag([tag], tag) == [];
  }

  lemma {:induction false} RemoveTagKeepsDistinct(tags: seq<string>, tag: string)
    requires Distinct(tags)
    ensures Distinct(RemoveTag(tags, tag))
  {
    if tags != [] {
      var rest := tags[1..];
      assert Distinct(rest) by {
        forall i, j | 0 <= i < j < |rest| ensures rest[i] != rest[j] {
          assert rest[i] == tags[i + 1] && rest[j] == tags[j + 1];
        }
      }
      RemoveTagKeepsDistinct(rest, tag);
      if tags[0] != tag {
        var tail := RemoveTag(rest, tag);
        assert tags[0] !in rest by {
          forall k | 0 <= k < |rest| ensures rest[k] != tags[0] {
            assert rest[k] == tags[k + 1];
          }
        }
        assert tags[0] !in tail by {
          assert multiset(tail)[tags[0]] == multiset(rest)[tags[0]] == 0;
        }
        var r := [tags[0]] + tail;
        forall i, j | 0 <= i < j < |r| ensures r[i] != r[j] {
          if i == 0 {
            assert r[j] == tail[j - 1];
          } else {
            assert r[i] == tail[i - 1] && r[j] == tail[j - 1];
          }
        }
      }
    }
  }

  /** Toggling never introduces a duplicate tag. */
  lemma ToggleKeepsDistinct(tags: seq<string>, tag: string)
    requires Distinct(tags)
    ensures Distinct(ToggleTag(tags, tag))
  {
    if tag in tags {
      RemoveTagKeepsDistinct(tags, tag);
    } else {
      var r := tags + [tag];
      forall i, j | 0 <= i < j < |r| ensures r[i] != r[j] {
        if j == |tags| {
          assert r[i] == tags[i];
        } else {
          assert r[i] == tags[i] && r[j] == tags[j];
        }
      }
    }
  }

  // ---------------------------------------------------------------- commit

  /**
   * The draft as a create-mode commit stores it: a missing id becomes
   * `freshId`, a blank suggestion becomes the selected text, and nothing
   * else changes.
   */
  function WithCommitDefaults(draft: FeedbackData, freshId: string): (r: FeedbackData)
    ensures freshId != "" ==> r.feedbackId != ""
    ensures draft.feedbackId != "" ==> r.feedbackId == draft.feedbackId
    ensures draft.feedbackId == "" ==> r.feedbackId == freshId
    ensures draft.suggestedText == "" ==> r.suggestedText == draft.selectedText
    ensures draft.suggestedText != "" ==> r.suggestedText == draft.suggestedText
    ensures r.generationId == draft.generationId && r.comment == draft.comment
    ensures r.startIndex == draft.startIndex && r.endIndex == draft.endIndex
    ensures r.selectedText == draft.selectedText && r.feedbackType == draft.feedbackType
  {
    var withId := if draft.feedbackId == "" then draft.(feedbackId := freshId) else draft;
    if withId.suggestedText == "" then withId.(suggestedText := withId.selectedText) else withId
  }

  /** No record in `list` carries `id`. */
  predicate Unknown(list: seq<FeedbackData>, id: string)
  {
    forall i :: 0 <= i < |list| ==> list[i].feedbackId != id
  }

  /**
   * The update-mode `map`: every record whose id is the draft's becomes the
   * draft (`{...item, ...draft}`, as both carry the same eight fields); every
   * other record stays where it was.
   */
  function ReplaceById(list: seq<FeedbackData>, draft: FeedbackData): (r: seq<FeedbackData>)
    ensures |r| == |list|
    ensures forall i :: 0 <= i < |list| ==>
      r[i] == if list[i].feedbackId == draft.feedbackId then draft else list[i]
    ensures forall i :: 0 <= i < |list| ==> r[i].feedbackId == list[i].feedbackId
  {
    if list == [] then []
    else
      var head := if list[0].feedbackId == draft.feedbackId then draft else list[0];
      [head] + ReplaceById(list[1..], draft)
  }

  /** An update-mode list holds only the draft and records that were there before. */
  lemma ReplaceByIdMembers(list: seq<FeedbackData>, draft: FeedbackData)
    ensures forall x :: x in ReplaceById(list, draft) ==>
      x == draft || (x in list && x.feedbackId != draft.feedbackId)
  {
  }

  /** Replacing with an id nobody has leaves the list as it was. */
  lemma ReplaceByIdUnknown(list: seq<FeedbackData>, draft: FeedbackData)
    requires Unknown(list, draft.feedbackId)
    ensures ReplaceById(list, draft) == list
  {
  }

  /** A second identical update commit changes nothing more. */
  lemma ReplaceByIdIdempotent(list: seq<FeedbackData>, draft: FeedbackData)
    ensures ReplaceById(ReplaceById(list, draft), draft) == ReplaceById(list, draft)
  {
  }

  /**
   * The delete `filter`: the records whose id is not `id`, each as often as
   * before; records with `id` are gone.
   */
  function RemoveById(list: seq<FeedbackData>, id: string): (r: seq<FeedbackData>)
    ensures |r| <= |list|
    ensures Unknown(r, id)
  {
    if list == [] then []
    else if list[0].feedbackId == id then RemoveById(list[1..], id)
    else [list[0]] + RemoveById(list[1..], id)
  }

  /** A delete keeps every record with another id exactly as often as before, and adds nothing. */
  lemma {:induction false} RemoveByIdCounts(list: seq<FeedbackData>, id: string)
    ensures forall x :: multiset(RemoveById(list, id))[x] == if x.feedbackId == id then 0 else multiset(list)[x]
    ensures forall x :: x in RemoveById(list, id) <==> x in list && x.feedbackId != id
  {
    if list != [] {
      RemoveByIdCounts(list[1..], id);
      assert list == [list[0]] + list[1..];
    }
  }

  /** Deleting distributes over concatenation, so the survivors keep their relative order. */
  lemma {:induction false} RemoveByIdAppend(a: seq<FeedbackData>, b: seq<FeedbackData>, id: string)
    ensures RemoveById(a + b, id) == RemoveById(a, id) + RemoveById(b, id)
  {
    if a != [] {
      var ab := a + b;
      assert ab[0] == a[0] && ab[1..] == a[1..] + b;
      RemoveByIdAppend(a[1..], b, id);
      if a[0].feedbackId == id {
        calc {
          RemoveById(ab, id);
          RemoveById(a[1..] + b, id);
          RemoveById(a[1..], id) + RemoveById(b, id);
          RemoveById(a, id) + RemoveById(b, id);
        }
      } else {
        calc {
          RemoveById(ab, id);
          [a[0]] + RemoveById(a[1..] + b, id);
          [a[0]] + (RemoveById(a[1..], id) + RemoveById(b, id));
          ([a[0]] + RemoveById(a[1..], id)) + RemoveById(b, id);
          RemoveById(a, id) + RemoveById(b, id);
        }
      }
    } else {
      assert a + b == b;
    }
  }

  /** Deleting an id nobody has leaves the list as it was. */
  lemma {:induction false} RemoveByIdUnknown(list: seq<FeedbackData>, id: string)
    requires Unknown(list, id)
    ensures RemoveById(list, id) == list
  {
    if list != [] {
      RemoveByIdUnknown(list[1..], id);
    }
  }

  /** Deleting an id that every record carries empties the list. */
  lemma {:induction false} RemoveByIdShared(list: seq<FeedbackData>, id: string)
    requires forall i :: 0 <= i < |list| ==> list[i].feedbackId == id
    ensures RemoveById(list, id) == []
  {
    if list != [] {
      RemoveByIdShared(list[1..], id);
    }
  }

  /** Deleting twice is deleting once. */
  lemma {:induction false} RemoveByIdIdempotent(list: seq<FeedbackData>, id: string)
    ensures RemoveById(RemoveById(list, id), id) == RemoveById(list, id)
  {
    RemoveByIdUnknown(RemoveById(list, id), id);
  }
}
