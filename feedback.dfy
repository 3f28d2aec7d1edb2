/**
 * The `Feedback` web component as a state machine: the draft record, the
 * list of committed records, the modal and edit flags, the save gate and the
 * current selection, with one method per event handler. The DOM events the
 * component dispatches are appended to a ghost event log.
 */
module FeedbackComponent {
  import opened Wrappers
  import opened Text
  import opened Records

  /** What the component dispatches to its host page. */
  datatype Event =
    | Generation(id: string, inputValue: string, outputValue: string, model: string)  // on-generation
    | Saved(record: FeedbackData)                                                      // on-feedback-save
    | Deleted(feedbackId: string)                                                      // on-feedback-delete

  /** `on-generation` is sent on attach only for a named model with some input or output. */
  function EmitsGeneration(modelId: string, input: string, output: string): (r: bool)
    ensures r ==> modelId != ""
    ensures input == "" && output == "" ==> !r
    ensures modelId != "" && input != "" ==> r
    ensures modelId != "" && output != "" ==> r
  {
    modelId != "" && (input != "" || output != "")
  }

  class Feedback {
    // attributes set by the host page
    var modelId: string
    var input: string
    var output: string
    var generationId: string

    // component state
    var feedbackList: seq<FeedbackData>
    var formData: FeedbackData
    var feedbacks: seq<string>
    var isModelOpen: bool
    var isEditable: bool
    var isUpdateMode: bool
    var disableSave: bool
    var hasSelection: bool
    var highlighted: Option<Highlight>
    var pageX: int
    var pageY: int

    /** Every event dispatched so far, oldest first. */
    ghost var events: seq<Event>

    /**
     * Every stored record has an id, and every stored record was announced
     * to the host in an `on-feedback-save` event.
     */
    ghost predicate Valid()
      reads this`feedbackList, this`events
    {
      forall rec :: rec in feedbackList ==> rec.feedbackId != "" && Saved(rec) in events
    }

    /** A freshly created component with its attributes in place. */
    constructor (modelId: string, input: string, output: string, generationId: string)
      ensures Valid()
      ensures this.modelId == modelId && this.input == input
      ensures this.output == output && this.generationId == generationId
      ensures feedbackList == [] && formData == EmptyDraft && feedbacks == []
      ensures !isModelOpen && !isEditable && !isUpdateMode && !disableSave && !hasSelection
      ensures highlighted == None && pageX == 0 && pageY == 0 && events == []
    {
      this.modelId, this.input, this.output, this.generationId := modelId, input, output, generationId;
      feedbackList, formData, feedbacks := [], EmptyDraft, [];
      isModelOpen, isEditable, isUpdateMode, disableSave, hasSelection := false, false, false, false, false;
      highlighted, pageX, pageY := None, 0, 0;
      events := [];
    }

    /** Attaching to the page: announce the generation when the gate allows it. */
    method ConnectedCallback()
      requires Valid()
      modifies this`events
      ensures Valid()
      ensures EmitsGeneration(modelId, input, output) ==>
        events == old(events) + [Generation(generationId, input, output, modelId)]
      ensures !EmitsGeneration(modelId, input, output) ==> events == old(events)
    {
      if EmitsGeneration(modelId, input, output) {
        events := events + [Generation(generationId, input, output, modelId)];
      }
    }

    /** The window `mousedown` listener: forget the selection. */
    method ClearSelection()
      modifies this`hasSelection
      ensures !hasSelection
    {
      hasSelection := false;
    }

    /**
     * Mouse-up over the text. With the modal open the selection is dropped
     * and nothing else happens. Otherwise the mouse position is recorded and, when
     * the trimmed selection is not blank, a new draft is started on the span
     * between the two offsets; a blank selection is dropped.
     */
    method HandleTextSelection(anchor: nat, focus: nat, text: string, x: int, y: int)
      modifies this`hasSelection, this`pageX, this`pageY, this`formData
      ensures isModelOpen ==> !hasSelection && formData == old(formData)
      ensures isModelOpen ==> pageX == old(pageX) && pageY == old(pageY)
      ensures !isModelOpen ==> pageX == x && pageY == y
      ensures hasSelection <==> !isModelOpen && Trim(text) != ""
      ensures !hasSelection ==> formData == old(formData)
      ensures hasSelection ==>
        var span := NormalisedSpan(anchor, focus);
        formData == EmptyDraft.(generationId := generationId, selectedText := Trim(text),
                                startIndex := span.start, endIndex := span.end)
      ensures hasSelection ==> formData.startIndex <= formData.endIndex
    {
      if isModelOpen {
        hasSelection := false;
        return;
      }
      pageX, pageY := x, y;
      hasSelection := true;
      var selectedText := Trim(text);
      if selectedText != "" {
        ResetFeedbackForm();
        var span := NormalisedSpan(anchor, focus);
        formData := formData.(generationId := generationId, selectedText := selectedText,
                              startIndex := span.start, endIndex := span.end);
      } else {
        hasSelection := false;
      }
    }

    /** Typing in the suggestion field. */
    method HandleTextInput(value: string)
      modifies this`formData
      ensures formData == old(formData).(suggestedText := value)
    {
      formData := formData.(suggestedText := value);
    }

    /** Typing in the comment area: saving is disabled exactly while the comment is empty (not trimmed). */
    method HandleTextArea(value: string)
      modifies this`formData, this`disableSave
      ensures formData == old(formData).(comment := value)
      ensures disableSave <==> value == ""
    {
      formData := formData.(comment := value);
      disableSave := formData.comment == "";
    }

    /**
     * Clicking a category checkbox toggles its tag; saving is then disabled
     * exactly while `OTHER` is ticked, whatever the comment says.
     */
    method HandleFeedback(tag: string)
      modifies this`formData, this`disableSave
      ensures formData == old(formData).(feedbackType := ToggleTag(old(formData.feedbackType), tag))
      ensures disableSave <==> Other in formData.feedbackType
    {
      formData := formData.(feedbackType := ToggleTag(formData.feedbackType, tag));
      disableSave := Other in formData.feedbackType;
    }

    /**
     * The save button. In update mode every record with the draft's id takes
     * the draft; otherwise the draft gets its defaults and is appended. Either
     * way the committed draft is announced and the form is cleared;
     * `isUpdateMode` and `disableSave` are left as they were. `freshId` stands
     * for the `uuidv4()` that names a draft without an id.
     */
    method HandleFormData(freshId: string)
      requires Valid()
      requires freshId != "" && forall rec :: rec in feedbackList ==> rec.feedbackId != freshId
      modifies this`feedbackList, this`formData, this`hasSelection, this`feedbacks
      modifies this`isModelOpen, this`isEditable, this`events
      ensures Valid()
      ensures isUpdateMode ==> feedbackList == ReplaceById(old(feedbackList), old(formData))
      ensures isUpdateMode ==> events == old(events) + [Saved(old(formData))]
      ensures !isUpdateMode ==>
        var committed := WithCommitDefaults(old(formData), freshId);
        feedbackList == old(feedbackList) + [committed] && events == old(events) + [Saved(committed)]
      ensures !isUpdateMode ==> |feedbackList| == |old(feedbackList)| + 1
      ensures !isUpdateMode && old(formData.feedbackId) == "" ==>
        Unknown(old(feedbackList), feedbackList[|feedbackList| - 1].feedbackId)
      ensures formData == EmptyDraft && feedbacks == []
      ensures !hasSelection && !isModelOpen && !isEditable
    {
      var committed := formData;
      if isUpdateMode {
        ReplaceByIdMembers(feedbackList, formData);
        feedbackList := ReplaceById(feedbackList, formData);
      } else {
        committed := WithCommitDefaults(formData, freshId);
        formData := committed;
        feedbackList := feedbackList + [formData];
      }
      events := events + [Saved(committed)];
      hasSelection := false;
      ResetFeedbackForm();
      feedbacks := [];
      isModelOpen := false;
      isEditable := false;
    }

    /** Opening a stored record for editing: the draft becomes a copy of it. */
    method HandleFeedbackUpdate(data: FeedbackData)
      modifies this`formData, this`isEditable, this`isUpdateMode, this`isModelOpen
      ensures formData == data
      ensures isEditable && isUpdateMode && isModelOpen
    {
      formData := data;
      isEditable, isUpdateMode, isModelOpen := true, true, true;
    }

    /** Opening or closing the modal always leaves update mode and edit mode; the draft is kept. */
    method Toggle()
      modifies this`isModelOpen, this`isUpdateMode, this`isEditable
      ensures isModelOpen == !old(isModelOpen)
      ensures !isUpdateMode && !isEditable
    {
      isModelOpen := !isModelOpen;
      isUpdateMode := false;
      isEditable := false;
    }

    /** Showing or hiding the suggestion field. */
    method ToggleEdit()
      modifies this`isEditable
      ensures isEditable == !old(isEditable)
    {
      isEditable := !isEditable;
    }

    /** Deleting by id: every record with `id` goes, and the deletion is always announced. */
    method HandleFeedbackDelete(id: string)
      requires Valid()
      modifies this`feedbackList, this`events
      ensures Valid()
      ensures feedbackList == RemoveById(old(feedbackList), id)
      ensures events == old(events) + [Deleted(id)]
    {
      RemoveByIdCounts(feedbackList, id);
      feedbackList := RemoveById(feedbackList, id);
      events := events + [Deleted(id)];
    }

    /** Discarding the draft. */
    method ResetFeedbackForm()
      modifies this`formData
      ensures formData == EmptyDraft
    {
      formData := EmptyDraft;
    }

    /** Drawing one record over the output; out-of-range spans leave the last drawing in place. */
    method HighlightedText(record: FeedbackData)
      modifies this`highlighted
      ensures var split := Split(output, record.startIndex, record.endIndex);
        highlighted == if split.Some? then split else old(highlighted)
    {
      var split := Split(output, record.startIndex, record.endIndex);
      if split.Some? {
        highlighted := split;
      }
    }

    /** Removing the drawing. */
    method ResetHighlightedText()
      modifies this`highlighted
      ensures highlighted == None
    {
      highlighted := None;
    }
  }

  /**
   * A stored record opened for update, then closed and reopened with
   * `_toggle`, is committed in create mode with its id kept: the list then
   * holds two records with one id.
   */
  method StaleDraftSharesId(widget: Feedback, i: nat, freshId: string)
    requires widget.Valid() && i < |widget.feedbackList|
    requires freshId != "" && forall rec :: rec in widget.feedbackList ==> rec.feedbackId != freshId
    modifies widget
    ensures |widget.feedbackList| == |old(widget.feedbackList)| + 1
    ensures widget.feedbackList[i].feedbackId == widget.feedbackList[|widget.feedbackList| - 1].feedbackId
  {
    widget.HandleFeedbackUpdate(widget.feedbackList[i]);
    widget.Toggle();
    widget.Toggle();
    widget.HandleFormData(freshId);
  }
}
