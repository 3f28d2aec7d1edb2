# Feedback annotation widget — a Dafny model

This project models the annotation engine of the `Feedback` web component
(`packages/feedback/components/feedback/src/feedback.ts`). The component lets a
user select part of an AI model's output and attach a feedback record to it.
A record holds a span, the selected text, a suggested correction, category
tags and a comment. The component keeps one draft record and a list of
committed records. It opens a modal to edit the draft, commits the draft by
creating or updating a record, and deletes records by id. It then draws one
record's span as a highlight over the output text.

Layout:

- `wrappers.dfy`: module `Wrappers`, the `Option` type.
- `text.dfy`: module `Text`. It holds the whitespace set of JavaScript's
  `String.prototype.trim`, `Trim` itself, and `Split`, the three-way split that
  `highlightedText` draws.
- `records.dfy`: module `Records`. It holds the `FeedbackData` record, the
  empty draft, the normalised selection span and the category toggle. It also
  holds the commit defaults, the update-mode `map` (`ReplaceById`) and the
  delete `filter` (`RemoveById`), with their lemmas.
- `feedback.dfy`: module `FeedbackComponent`. It holds the class `Feedback`,
  with one method per handler, and the events it dispatches (`Event`), kept in
  a ghost log `events`. Each method's `modifies` clause names the exact fields
  the handler writes, so every other field is unchanged by framing. The object
  invariant `Valid()` says two things: every stored record has a non-empty id,
  and every stored record was announced in an `on-feedback-save` event.
  `StaleDraftSharesId` is a client scenario (see below).

Inputs from the browser become parameters:

- `HandleTextSelection` takes the selection's anchor offset, focus offset and
  string, and the mouse's page coordinates.
- The handlers for the suggestion field, the comment area and the checkboxes
  take the input's value.
- `HandleFormData` takes `freshId`, the value `uuidv4()` would return. It must
  be non-empty and unused.
- The `model`, `input`, `output` and `generation-id` attributes are
  constructor parameters.

Behaviour worth knowing, all of it stated by the model:

- Save gate. The comment handler disables saving exactly when the comment is
  the empty string. It does not trim. The category handler then overwrites the
  flag with "`OTHER` is ticked". The last handler to run wins.
  `HandleTextArea` and `HandleFeedback` state exactly this.
- Delete. It removes every record with the id, not only the first
  (`RemoveById`).
- Highlight. It draws one record at a time. Overlapping records are never
  combined. An out-of-range or empty span leaves the previous drawing in place
  rather than clearing it (`HighlightedText`).
- Closing the modal (`_toggle`) keeps the draft.
- Update mode is cleared only by `_toggle`, not by a commit.
- Nothing refuses to commit a zero-length span.
- `selectedText` is the trimmed selection string. It is not the output's
  substring between the two offsets.

Behaviour shown by `StaleDraftSharesId`, which follows from the code: open a
stored record for update, then toggle the modal closed and open again. The
draft keeps the record's id but update mode is off. Saving then appends a
second record with the same id, and, by `RemoveById`'s contract (`Unknown(r, id)`), one delete then removes both records.

## Model

| member | source | states |
|---|---|---|
| Text.TrimStartCuts | packages/feedback/components/feedback/src/feedback.ts:157 | trimming the front cuts off only whitespace and stops at a character that is not whitespace |
| Text.TrimEndCuts | packages/feedback/components/feedback/src/feedback.ts:157 | trimming the back cuts off only whitespace and stops at a character that is not whitespace |
| Text.TrimBlank | packages/feedback/components/feedback/src/feedback.ts:157-159 | the trimmed selection is empty exactly when the selection is blank, which is the case the handler rejects |
| Text.TrimEnds | packages/feedback/components/feedback/src/feedback.ts:157 | a non-empty trimmed selection starts and ends with a character that is not whitespace |
| Text.TrimInfix | packages/feedback/components/feedback/src/feedback.ts:157 | the trimmed selection is the slice of the selection that starts where leading whitespace ends, with only whitespace before and after it (`Framed`) |
| Text.Trim | packages/feedback/components/feedback/src/feedback.ts:157 | the trimmed selection is never longer than the selection; it is the infix of the selection left between a blank prefix and a blank suffix (`TrimInfix`); what it cuts and where it stops are stated by `TrimStartCuts`, `TrimEndCuts`, `TrimBlank` and `TrimEnds` |
| Text.Split | packages/feedback/components/feedback/src/feedback.ts:365-377 | a split exists exactly when the text is non-empty, start >= 0, end <= length and start < end; then before + marked + after is the text, `before` has length start and `marked` has length end - start |
| Records.NormalisedSpan | packages/feedback/components/feedback/src/feedback.ts:161-162 | the span is the selection's two offsets, ordered, so start <= end |
| Records.NormalisedSpanSymmetric | packages/feedback/components/feedback/src/feedback.ts:161-166 | swapping anchor and focus (the drag direction) gives the same span |
| Records.RemoveTag | packages/feedback/components/feedback/src/feedback.ts:277-279 | the filtered tags contain no occurrence of the tag and keep every other tag exactly as often as before |
| Records.ToggleTag | packages/feedback/components/feedback/src/feedback.ts:272-280 | membership of the clicked tag flips; no other tag's count changes; an absent tag is appended at the end |
| Records.RemoveTagAppend | packages/feedback/components/feedback/src/feedback.ts:277-279 | filtering a concatenation filters each part, so the tags that stay keep their relative order |
| Records.ToggleTwiceRestores | packages/feedback/components/feedback/src/feedback.ts:274-279 | clicking an unticked category twice restores the tag list exactly |
| Records.ToggleKeepsDistinct | packages/feedback/components/feedback/src/feedback.ts:274-279 | a tag list without duplicates has none after a toggle |
| Records.WithCommitDefaults | packages/feedback/components/feedback/src/feedback.ts:214-219 | a create-mode commit keeps a non-empty id and otherwise takes the fresh one, so the id is non-empty; a blank suggestion becomes the selected text; every other field is the draft's |
| Records.ReplaceById | packages/feedback/components/feedback/src/feedback.ts:207-212 | the update-mode list has the same length and ids position by position; each entry with the draft's id is the draft, every other entry is unchanged |
| Records.ReplaceByIdMembers | packages/feedback/components/feedback/src/feedback.ts:207-212 | the update-mode list holds only the draft and records with other ids that were there before |
| Records.ReplaceByIdUnknown | packages/feedback/components/feedback/src/feedback.ts:207-212 | an update whose id matches no record leaves the list unchanged |
| Records.ReplaceByIdIdempotent | packages/feedback/components/feedback/src/feedback.ts:207-212 | repeating the same update changes nothing more |
| Records.RemoveById | packages/feedback/components/feedback/src/feedback.ts:306-308 | after a delete no record has the id, and the list is no longer than before |
| Records.RemoveByIdCounts | packages/feedback/components/feedback/src/feedback.ts:306-308 | a delete keeps every record with another id exactly as often as before, and a record is in the result exactly when it was in the list with another id |
| Records.RemoveByIdAppend | packages/feedback/components/feedback/src/feedback.ts:306-308 | deleting from a concatenation deletes from each part, so the surviving records keep their relative order |
| Records.RemoveByIdUnknown | packages/feedback/components/feedback/src/feedback.ts:306-308 | deleting an unknown id leaves the list unchanged |
| Records.RemoveByIdShared | packages/feedback/components/feedback/src/feedback.ts:306-308 | deleting an id that every record carries empties the list |
| Records.RemoveByIdIdempotent | packages/feedback/components/feedback/src/feedback.ts:306-308 | deleting twice gives the same list as deleting once |
| FeedbackComponent.EmitsGeneration | packages/feedback/components/feedback/src/feedback.ts:120 | `on-generation` needs a non-empty model id, is never sent when input and output are both empty, and is sent for a named model with a non-empty input or a non-empty output |
| FeedbackComponent.Feedback.constructor | packages/feedback/components/feedback/src/feedback.ts:29-111 | the initial state: attributes as given, empty list, empty draft, every flag false, no selection, no highlight, no events |
| FeedbackComponent.Feedback.ConnectedCallback | packages/feedback/components/feedback/src/feedback.ts:118-133 | `on-generation` is logged exactly when the model id is non-empty and the input or the output is non-empty |
| FeedbackComponent.Feedback.ClearSelection | packages/feedback/components/feedback/src/feedback.ts:135-138 | the window mousedown listener drops the selection and changes nothing else |
| FeedbackComponent.Feedback.HandleTextSelection | packages/feedback/components/feedback/src/feedback.ts:146-171 | with the modal open, the selection is dropped and the draft is untouched; otherwise a selection is kept exactly when its trimmed text is non-empty, and then the draft is the empty draft on the ordered span, with the trimmed text and the component's generation id; a blank selection leaves the draft untouched |
| FeedbackComponent.Feedback.HandleTextInput | packages/feedback/components/feedback/src/feedback.ts:180-183 | only the draft's suggestion changes, to the typed value |
| FeedbackComponent.Feedback.HandleTextArea | packages/feedback/components/feedback/src/feedback.ts:192-199 | only the draft's comment changes, and saving is disabled exactly when the comment is the empty string (no trimming) |
| FeedbackComponent.Feedback.HandleFeedback | packages/feedback/components/feedback/src/feedback.ts:272-282 | the draft's tags are toggled at the clicked tag, and saving is disabled exactly when `OTHER` is among them |
| FeedbackComponent.Feedback.HandleFormData | packages/feedback/components/feedback/src/feedback.ts:205-235 | update mode: entries with the draft's id take the draft, and the draft is logged; create mode: the list grows by exactly the defaulted draft at the end, with its earlier entries unchanged and in order, and a newly assigned id is unused; both: one save event, empty draft, no tags, no selection, modal and edit closed, update mode and save gate unchanged, invariant kept |
| FeedbackComponent.Feedback.HandleFeedbackUpdate | packages/feedback/components/feedback/src/feedback.ts:241-263 | the draft becomes a copy of the record, and editing, update mode and the modal are on |
| FeedbackComponent.Feedback.Toggle | packages/feedback/components/feedback/src/feedback.ts:287-291 | the modal flips, update and edit mode are off, and the draft is kept |
| FeedbackComponent.Feedback.ToggleEdit | packages/feedback/components/feedback/src/feedback.ts:296-298 | only the edit flag flips |
| FeedbackComponent.Feedback.HandleFeedbackDelete | packages/feedback/components/feedback/src/feedback.ts:305-313 | the list becomes the delete filter of the old list, a delete event with the id is always logged, and the invariant is kept |
| FeedbackComponent.Feedback.ResetFeedbackForm | packages/feedback/components/feedback/src/feedback.ts:318-329 | the draft becomes the empty draft, and nothing else changes |
| FeedbackComponent.Feedback.HighlightedText | packages/feedback/components/feedback/src/feedback.ts:365-383 | the drawing becomes the split of the output at the record's span when the split exists, and otherwise stays as it was |
| FeedbackComponent.Feedback.ResetHighlightedText | packages/feedback/components/feedback/src/feedback.ts:388-390 | the drawing is removed |
| FeedbackComponent.StaleDraftSharesId | packages/feedback/components/feedback/src/feedback.ts:287-291 | opening a stored record for update, toggling the modal closed and open, and saving appends a record whose id equals the opened record's id |

## Left out

- DOM and Lit presentation: decorators, `requestUpdate`, the `html` template (the highlight is modelled as its three strings), styles and the `showSlug` attribute.
- Event dispatch: `CustomEvent` and `dispatchEvent` become appends to the ghost log `events`. The `message` text of `on-generation` is not modelled.
- `window.getSelection()`: its anchor offset, focus offset and `toString()` become parameters. A missing selection behaves like a blank one and is not modelled separately.
- The `mousedown` listener's registration, and its `setUserSelect('auto')`: only its effect of clearing the selection is modelled (`ClearSelection`). `resetSelection` (lines 396-400) has the same effect on state; its `preventDefault` and CSS write are presentation.
- `setUserSelect` (lines 406-411): a CSS write with no effect on the data model.
- `calculateTextPosition` and `textPositions` (lines 331-359): DOM range geometry with no effect on the data model.
- `uuidv4()`: a nondeterministic foreign call. It is replaced by the caller-supplied `freshId`, required to be non-empty and unused.
- Array aliasing: `handleFeedbackUpdate` shares the stored record's `feedbackType` array with the draft, and a later checkbox `push` changes the stored record before any commit. The model uses value semantics and does not reproduce this leak.
- `selection` is modelled as a present/absent flag. The selection object itself is not kept.
- Attribute changes after construction: the attributes are fixed at construction. `model`, `input` and `output` default to the empty string in both the code (lines 30, 36, 42) and the model. `generation-id` has no initialiser (lines 47-48), so when it is never set the code puts `undefined` into the draft's `generationId` (line 163) and into the `on-generation` payload's `id` (line 125); the model has no `undefined` and the caller passes a string, the empty string standing in for an unset attribute.
- `pageX` and `pageY` are integers, where `MouseEvent.pageX`/`pageY` (lines 152-153) are doubles; they only position the overlay, so no data-model behaviour depends on the fraction.
- Offsets are unbounded integers. JavaScript numbers beyond 2^53 are not modelled.
- Strings are sequences of Unicode scalar values, where JavaScript strings are sequences of UTF-16 code units. `Trim` is unaffected, because every character `trim` strips is in the Basic Multilingual Plane (BMP), but lengths and offsets differ for text outside the BMP.
- Text.Split: counts lengths and offsets in Unicode scalar values, where `text.length` and `substring` count UTF-16 code units; for output that contains characters outside the BMP (surrogate pairs) the model splits at different places or rejects a span the code accepts.
- FeedbackComponent.Feedback.HighlightedText: inherits `Text.Split`'s counting, so a span over output with characters outside the BMP is drawn or skipped differently from the code.
- `feedbackList` is a reactive property the host page could set. The model never sets it from outside the component: it starts empty and only the handlers change it, which `Valid()` (every stored record was announced) relies on.
