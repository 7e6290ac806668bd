/** The main window's session state and its event handlers: the chat entry
    and its send gate, the conversation history and transcript, the tag
    list, and the PDF pane's page counter and font size. Widgets, layout
    and styling are not modelled; every value a dialog, the network or the
    PDF library would supply is a parameter. A chat request runs to
    completion inside the handler that starts it. */
module Window {

  import opened Outcomes
  import opened Text
  import opened Chat
  import opened Transcript
  import opened Tags
  import opened Viewer

  /** The Python exceptions the handlers can raise. */
  datatype Fault =
    | LastMessageMissing   // IndexError: `chat_history[-1]` on an empty history
    | TooFewEntriesToLog   // ValueError: fewer than three values in `chat_history[-3:]`
    | PageNotInDocument    // `load_page(0)` on a document without pages

  /** What the tag log would receive: the tag and the last exchange. */
  datatype LogRecord = LogRecord(tag: string, exchange: Exchange)

  datatype TagOutcome = NotTagged | Logged(record: LogRecord) | Raised(fault: Fault)

  /** The tag dialog was confirmed with a non-empty tag. */
  predicate IsTag(tagAnswer: Option<string>) {
    tagAnswer.Some? && tagAnswer.value != ""
  }

  /** The two dialogs after tagging were answered "Yes" and with a
      clarification type. */
  predicate WantsClarification(clarifyAnswer: Option<string>, typeAnswer: Option<string>) {
    clarifyAnswer == Some("Yes") && typeAnswer.Some? && typeAnswer.value != ""
  }

  class MainWindow {
    /** The conversation sent with every request (the module-level
        `chat_history`). */
    var history: seq<Message>
    /** The runs appended to the read-only transcript view. */
    var transcript: seq<Span>
    /** The text in the entry box and whether the entry box and the send
        button accept input. */
    var entry: string
    var entryEnabled: bool
    var sendEnabled: bool
    /** The model name selected in the drop-down. */
    var model: string
    var tags: seq<TagItem>
    /** The page count of the open PDF, if one was opened. */
    var document: Option<nat>
    var currentPage: nat
    /** The point size of the PDF pane's font. */
    var pointSize: int

    ghost predicate Valid()
      reads this
    {
      IsConversation(history) && entryEnabled == sendEnabled && PageInRange(document, currentPage)
    }

    /** A fresh window: empty conversation, input enabled, gpt-4 selected,
        no document, and the point size the pane's font starts with. The
        window's style sheet gives every widget a 16-pixel font, for which
        Qt reports a point size of -1 (see `Viewer.NegativeSizeIsFixed`). */
    constructor (initialPointSize: int)
      ensures Valid()
      ensures history == [] && transcript == [] && tags == []
      ensures entry == "" && entryEnabled && sendEnabled
      ensures model == Gpt4
      ensures document == None && currentPage == 0 && pointSize == initialPointSize
    {
      history := [];
      transcript := [];
      entry := "";
      entryEnabled, sendEnabled := true, true;
      model := Gpt4;
      tags := [];
      document := None;
      currentPage := 0;
      pointSize := initialPointSize;
    }

    /** The user types into the entry box, which only an enabled box
        allows. */
    method EditEntry(text: string)
      requires Valid() && entryEnabled
      modifies this`entry
      ensures Valid()
      ensures entry == text
    {
      entry := text;
    }

    /** The user picks one of the drop-down's two entries. */
    method SelectModel(name: string)
      requires Valid()
      requires name == Gpt4 || name == Gpt35Turbo
      modifies this`model
      ensures Valid()
      ensures model == name
    {
      model := name;
    }

    /** `display_response`: append the reply, styled for the selected
        model; for an unrecognised model nothing is appended. */
    method DisplayResponse(response: string)
      requires Valid()
      modifies this`transcript
      ensures Valid()
      ensures transcript == old(transcript) + ResponseSpans(model, response)
    {
      transcript := transcript + ResponseSpans(model, response);
    }

    /** A chat thread run to completion: `chatting` on the history with the
        selected model, the history replaced by the returned one, and the
        reply passed to `display_response`. */
    method Dispatch(input: string, reply: string)
      requires Valid()
      modifies this`history, this`transcript
      ensures Valid()
      ensures history == old(history) + Turn(input, reply)
      ensures transcript == old(transcript) + ResponseSpans(model, reply)
    {
      var response, updated := Chatting(input, history, reply);
      assert updated == history + Turn(input, reply);
      ConversationGrows(history, input, reply);
      history := updated;
      DisplayResponse(response);
    }

    /** `process_input`, run by the send button or the Return key, both of
        which only an enabled widget delivers. Blank input is ignored. The
        exit command echoes the input, says goodbye and disables the entry
        box and the send button without sending anything. Any other input
        is echoed, cleared from the box and sent. */
    method ProcessInput(reply: string)
      requires Valid() && sendEnabled
      modifies this`history, this`transcript, this`entry, this`entryEnabled, this`sendEnabled
      ensures Valid()
      ensures Strip(old(entry)) == [] ==> unchanged(this)
      ensures var input := Strip(old(entry));
        input != [] && IsExitCommand(input) ==>
          history == old(history) && transcript == old(transcript) + ExitSpans(input)
          && entry == "" && !entryEnabled && !sendEnabled
      ensures var input := Strip(old(entry));
        input != [] && !IsExitCommand(input) ==>
          history == old(history) + Turn(input, reply)
          && transcript == old(transcript) + UserSpans(input) + ResponseSpans(model, reply)
          && entry == "" && entryEnabled && sendEnabled
    {
      var userInput := Strip(entry);
      if userInput == [] {
        return;
      }
      if IsExitCommand(userInput) {
        transcript := transcript + ExitSpans(userInput);
        entry := "";
        entryEnabled := false;
        sendEnabled := false;
        assert history == old(history);
      } else {
        transcript := transcript + UserSpans(userInput);
        entry := "";
        Dispatch(userInput, reply);
        assert transcript == old(transcript) + UserSpans(userInput) + ResponseSpans(model, reply);
      }
    }

    /** `reset_chat`: forget the conversation and clear the transcript. */
    method ResetChat()
      requires Valid()
      modifies this`history, this`transcript
      ensures Valid()
      ensures history == [] && transcript == []
    {
      history := [];
      transcript := [];
    }

    /** `delete_tag`: remove the selected entry of the tag list, if any. */
    method DeleteTag(current: Option<nat>)
      requires Valid()
      requires current.Some? ==> current.value < |tags|
      modifies this`tags
      ensures Valid()
      ensures current.None? ==> tags == old(tags)
      ensures current.Some? ==> tags == RemoveAt(old(tags), current.value)
    {
      if current.Some? {
        var row := current.value;
        tags := RemoveAt(tags, row);
      }
    }

    /** `send_clarification`: ask the model about the last message, as
        `"<type>: <last content>"`. */
    method SendClarification(clarificationType: string, reply: string)
      requires Valid() && history != []
      modifies this`history, this`transcript
      ensures Valid()
      ensures history == old(history)
        + Turn(ClarificationRequest(old(history), clarificationType).value, reply)
      ensures transcript == old(transcript) + ResponseSpans(model, reply)
    {
      var messageToClarify := history[|history| - 1].content;
      var clarificationMsg := clarificationType + ": " + messageToClarify;
      Dispatch(clarificationMsg, reply);
    }

    /** `tag_message`. A non-empty tag from the first dialog adds a list
        entry labelled with the index of the last history entry. If a
        clarification is then asked for, the entry is highlighted and the
        clarification request is started, which raises on an empty
        history. The log step then reads the last exchange, which raises
        when the history holds fewer than three entries. The model reads
        the log before any of the request's appends, and appends the
        request's turn after that read; the threaded program may read a
        window shifted by them. */
    method TagMessage(tagAnswer: Option<string>, clarifyAnswer: Option<string>,
                      typeAnswer: Option<string>, reply: string)
      returns (outcome: TagOutcome)
      requires Valid()
      modifies this`tags, this`history, this`transcript
      ensures Valid()
      ensures !IsTag(tagAnswer) ==>
        outcome == NotTagged && tags == old(tags)
        && history == old(history) && transcript == old(transcript)
      ensures IsTag(tagAnswer) ==>
        tags == old(tags) + [TagItem(TagLabel(|old(history)| - 1, tagAnswer.value),
                                     WantsClarification(clarifyAnswer, typeAnswer))]
      ensures IsTag(tagAnswer) && !WantsClarification(clarifyAnswer, typeAnswer) ==>
        history == old(history) && transcript == old(transcript)
      ensures (IsTag(tagAnswer) && WantsClarification(clarifyAnswer, typeAnswer) && old(history) == []) ==>
        outcome == Raised(LastMessageMissing)
        && history == old(history) && transcript == old(transcript)
      ensures (IsTag(tagAnswer) && WantsClarification(clarifyAnswer, typeAnswer) && old(history) != []) ==>
        history == old(history)
          + Turn(ClarificationRequest(old(history), typeAnswer.value).value, reply)
        && transcript == old(transcript) + ResponseSpans(model, reply)
      ensures (IsTag(tagAnswer) && !(WantsClarification(clarifyAnswer, typeAnswer) && old(history) == [])) ==>
        outcome == match LastExchange(old(history))
                   case None => Raised(TooFewEntriesToLog)
                   case Some(e) => Logged(LogRecord(tagAnswer.value, e))
    {
      if !IsTag(tagAnswer) {
        return NotTagged;
      }
      var tag := tagAnswer.value;
      var item := TagItem(TagLabel(|history| - 1, tag), false);
      tags := tags + [item];
      var clarify := clarifyAnswer == Some("Yes") && typeAnswer.Some? && typeAnswer.value != "";
      if clarify {
        tags := tags[|tags| - 1 := item.(highlighted := true)];
        if history == [] {
          return Raised(LastMessageMissing);
        }
      }
      var last := LastExchange(history);
      if clarify {
        SendClarification(typeAnswer.value, reply);
      }
      if last.None? {
        return Raised(TooFewEntriesToLog);
      }
      outcome := Logged(LogRecord(tag, last.value));
    }

    /** `open_pdf`: a cancelled file dialog (empty path) changes nothing;
        otherwise the document is opened at page 0, and showing that page
        raises if the document has no pages. */
    method OpenPdf(path: string, pageCount: nat) returns (fault: Option<Fault>)
      requires Valid()
      modifies this`document, this`currentPage
      ensures Valid()
      ensures path == "" ==>
        fault == None && document == old(document) && currentPage == old(currentPage)
      ensures path != "" ==>
        document == Some(pageCount) && currentPage == 0
        && fault == (if pageCount == 0 then Some(PageNotInDocument) else None)
    {
      if path == "" {
        return None;
      }
      document := Some(pageCount);
      currentPage := 0;
      fault := if pageCount == 0 then Some(PageNotInDocument) else None;
    }

    /** `next_page`: one page on, unless there is no document or this is
        its last page. */
    method NextPage()
      requires Valid()
      modifies this`currentPage
      ensures Valid()
      ensures currentPage == Turned(Forward, document, old(currentPage))
    {
      if document.Some? && currentPage < document.value - 1 {
        currentPage := currentPage + 1;
      }
    }

    /** `previous_page`: one page back, unless there is no document or this
        is the first page. */
    method PreviousPage()
      requires Valid()
      modifies this`currentPage
      ensures Valid()
      ensures currentPage == Turned(Back, document, old(currentPage))
    {
      if document.Some? && currentPage > 0 {
        currentPage := currentPage - 1;
      }
    }

    /** `zoom_in`: one point larger, up to 30. */
    method ZoomIn()
      requires Valid()
      modifies this`pointSize
      ensures Valid()
      ensures pointSize == Zoomed(In, old(pointSize))
    {
      var fontSize := pointSize;
      if fontSize < MaxPointSize {
        pointSize := SetPointSize(pointSize, fontSize + 1);
      }
    }

    /** `zoom_out`: one point smaller, down to 5. */
    method ZoomOut()
      requires Valid()
      modifies this`pointSize
      ensures Valid()
      ensures pointSize == Zoomed(Out, old(pointSize))
    {
      var fontSize := pointSize;
      if fontSize > MinPointSize {
        pointSize := SetPointSize(pointSize, fontSize - 1);
      }
    }
  }

  /** A message sent with gpt-4 selected, driven through the handlers'
      contracts alone. */
  method ChatWalkthrough(input: string, reply: string)
    requires input != [] && !IsSpace(input[0]) && !IsSpace(input[|input| - 1])
    requires !IsExitCommand(input)
  {
    var w := new MainWindow(-1);
    w.EditEntry(input);
    StripTrimmed(input);
    w.ProcessInput(reply);
    assert w.history == Turn(input, reply);
    assert w.transcript == [] + UserSpans(input) + ResponseSpans(Gpt4, reply);
    UserLineThenGpt4Reply([], input, reply);
  }

  /** Tagging right after the first exchange labels the tag with index 2
      and logs that exchange. */
  method TagWalkthrough(input: string, tag: string, reply: string)
    requires tag != ""
  {
    var w := new MainWindow(-1);
    w.Dispatch(input, reply);
    assert w.history == [] + Turn(input, reply);
    LastExchangeOfTurn([], input, reply);
    assert IsTag(Some(tag)) && !WantsClarification(Some("No"), None);
    var outcome := w.TagMessage(Some(tag), Some("No"), None, "");
    assert w.tags == [TagItem(TagLabel(2, tag), false)];
    assert outcome == Logged(LogRecord(tag,
      Exchange(Message(User, input), Message(Assistant, reply))));
  }

  /** The exit command closes the input without sending anything. */
  method ExitWalkthrough(input: string)
    requires input != [] && !IsSpace(input[0]) && !IsSpace(input[|input| - 1])
    requires IsExitCommand(input)
  {
    var w := new MainWindow(-1);
    w.EditEntry(input);
    StripTrimmed(input);
    w.ProcessInput("");
    assert !w.entryEnabled && !w.sendEnabled && w.history == [];
  }

  /** On a three-page document, "Previous Page" at the start does nothing
      and three "Next Page" presses stop at the last page. The pane's
      16-pixel font reports a point size of -1, which "Zoom In" leaves as
      it is. */
  method PageWalkthrough()
  {
    var w := new MainWindow(-1);
    var fault := w.OpenPdf("paper.pdf", 3);
    w.PreviousPage();
    assert w.currentPage == 0;
    w.NextPage();
    w.NextPage();
    w.NextPage();
    assert w.currentPage == 2;
    w.ZoomIn();
    assert w.pointSize == -1;
  }
}
