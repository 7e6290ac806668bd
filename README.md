# GPT conversation window: session state model

This project models the session state behind the PyQt chat window in
`pyqt.py`: the conversation history sent to the chat-completion API, the
entry box and send button that gate input, the styled transcript, the tag
list, and the PDF pane's page counter and font size. Everything the window
gets from outside is a parameter: the API reply text, the answers of the
input dialogs, the file dialog's path, the PDF's page count and the model
chosen in the drop-down.

Modules, one per part of the window:

- `Window` (`window.dfy`): class `MainWindow`, whose fields are the state
  above and whose methods are the event handlers. `Valid()` keeps three
  invariants: the history is made of whole turns (which holds because each
  request completes inside its handler, see "Left out"), the entry box and the
  send button are enabled together, and the current page lies within the
  open document.
- `Chat` (`chat.dfy`): messages, the `chatting` call, and the facts about
  histories built from its turns.
- `Transcript` (`transcript.dfy`): the styled runs the transcript view
  shows, and how a reply is rendered for each model.
- `Tags` (`tags.dfy`): tag-list entries, their `"<index>: <tag>"` labels,
  and removal of the selected row.
- `Viewer` (`viewer.dfy`): page turning and zooming as functions, with
  lemmas about any sequence of presses.
- `Text` (`text.dfy`): Python's `strip()`, `lower()`/`upper()` on ASCII
  letters, and `str()` of an integer.
- `Outcomes` (`outcomes.dfy`): `Option`, `Min` and `Max`.

A chat request runs in a background thread in the program. Here it runs to
completion inside the handler that starts it, with the reply as a
parameter. The methods `ChatWalkthrough`, `TagWalkthrough`,
`ExitWalkthrough` and `PageWalkthrough` drive a window through the
handlers' contracts: a message sent with gpt-4, a tag on that exchange,
the exit command, and a three-page document with a zoom press that leaves the pixel-sized font as it is.

## Model

| member | source | states |
|---|---|---|
| `Chat.Chatting` | pyqt.py:17-31 | appends exactly `Turn(input, reply)`: a system entry with the fixed prompt, a user entry holding the input and an assistant entry holding the reply, in this order; earlier entries are unchanged; the returned text is the reply and the content of the last entry |
| `Chat.ConversationGrows` | pyqt.py:20-29 | a history made of whole turns is still one after `chatting` appends a turn |
| `Chat.ConversationRoles` | pyqt.py:20-29 | in a history made of turns the roles cycle system, user, assistant from the first entry on, and its length is a multiple of three |
| `Chat.LastExchange` | pyqt.py:259 | reading `chat_history[-3:]` into three values succeeds exactly when the history holds at least three entries |
| `Chat.ConversationLastExchange` | pyqt.py:259 | in a non-empty history made of turns, the entries the tag log reads are a user entry and an assistant entry |
| `Chat.LastExchangeOfTurn` | pyqt.py:259 | right after `chatting`, the tag log reads that call's input and reply |
| `Chat.ClarificationRequest` | pyqt.py:219-221 | the clarification message exists exactly when the history is non-empty |
| `Chat.ClarificationQuotesReply` | pyqt.py:219-221 | in a history made of turns the last entry, whose content the clarification quotes, is always an assistant reply |
| `Text.LeadingSpaces` | pyqt.py:172 | the leading whitespace `strip()` removes is a maximal all-whitespace prefix |
| `Text.TrailingSpaces` | pyqt.py:172 | the trailing whitespace `strip()` removes is a maximal all-whitespace suffix |
| `Text.Strip` | pyqt.py:172 | the stripped input is the slice after the leading whitespace with only whitespace after it; it is empty exactly when the input is all whitespace, and otherwise starts and ends with a non-whitespace character |
| `Text.StripTrimmed` | pyqt.py:172 | input that neither starts nor ends with whitespace is kept as it is |
| `Text.StripIdempotent` | pyqt.py:172 | stripping the stripped input changes nothing |
| `Text.Lower` | pyqt.py:177 | lower-casing keeps the length, leaves no upper-case ASCII letter, turns each upper-case letter into the lower-case letter that upper-cases back to it, and keeps every other character |
| `Text.Upper` | pyqt.py:194-197 | upper-casing keeps the length, leaves no lower-case ASCII letter, turns each lower-case letter into the upper-case letter that lower-cases back to it, and keeps every other character |
| `Text.IsExitCommand` | pyqt.py:177 | the input lower-cases to "exit" exactly when it is the four letters e, x, i, t, each in either case |
| `Text.NatToString` | pyqt.py:230 | the decimal numeral of a number is a non-empty run of digits without a leading zero |
| `Text.NatToStringValue` | pyqt.py:230 | the digits of the numeral denote the number |
| `Text.IntToString` | pyqt.py:230 | `str(i)` starts with a minus sign exactly when `i` is negative; the digits after it have no leading zero and denote the magnitude of `i` |
| `Text.LeadingDigits` | pyqt.py:230 | the number at the start of a label is read over a maximal run of digits |
| `Text.LeadingDigitsOfNumeral` | pyqt.py:230 | a numeral followed by a non-digit is read up to that non-digit |
| `Tags.NumberBeforeColonOfNumeral` | pyqt.py:230 | the number before the colon of `"<n>: <tag>"` is `n`, whatever the tag |
| `Tags.TagLabel` | pyqt.py:230 | a tag label `"<len(history)-1>: <tag>"` ends with ": " and the tag, and the number before its first colon is the history index it was made for, including -1, whatever the tag text |
| `Tags.RemoveAt` | pyqt.py:206-210 | taking the selected row removes exactly that entry: entries before it keep their position, entries after it move up by one |
| `Tags.RemoveAtMultiset` | pyqt.py:206-210 | the entries left plus the removed one are exactly the entries before removal |
| `Transcript.UserSpans` | pyqt.py:184-185 | an ordinary message is echoed in green as a bold "User: " run followed by a plain run holding the message and a newline, showing "User: " and the message on one line |
| `Transcript.ExitSpans` | pyqt.py:178-179 | the exit command is echoed in green, not bold, as a run "User: <input>" with a newline and a run "Goodbye!" with a newline |
| `Transcript.ResponseSpans` | pyqt.py:191-198 | a reply is shown only for gpt-4 (purple, under "GPT-4: ") and gpt-3.5-turbo (orange, under "GPT-3.5-TURBO: "), as a bold label and the reply with a newline; for any other model nothing is shown |
| `Transcript.RenderedAppend` | pyqt.py:161-169 | appending runs at the end of the view appends their text to what it shows |
| `Transcript.RenderedPair` | pyqt.py:161-169 | two appended runs show as their two texts, in order |
| `Transcript.UserLineThenGpt4Reply` | pyqt.py:184-198 | sending a message with gpt-4 selected shows "User: " and the message on one line, then "GPT-4: " and the reply on the next |
| `Viewer.Turned` | pyqt.py:279-287 | one page turn does nothing without a document, keeps the page within the document, and moves by at most one page in its direction |
| `Viewer.TurnedAllInRange` | pyqt.py:279-287 | no sequence of "Next Page" and "Previous Page" presses moves the page outside [0, pageCount-1] |
| `Viewer.TurnedAllWithoutDocument` | pyqt.py:279-287 | without a document, no sequence of page turns changes the page |
| `Viewer.ForwardSaturates` | pyqt.py:279-282 | n presses of "Next Page" land on page min(page+n, pageCount-1) |
| `Viewer.BackSaturates` | pyqt.py:284-287 | n presses of "Previous Page" land on page max(page-n, 0) |
| `Viewer.Zoomed` | pyqt.py:289-301 | one zoom step keeps a size in [5, 30] within [5, 30], never changes a negative size, and moves by at most one point in its direction |
| `Viewer.ZoomedAllInRange` | pyqt.py:289-301 | a size in [5, 30] stays in [5, 30] under any sequence of zoom presses |
| `Viewer.ZoomInSaturates` | pyqt.py:289-294 | n presses of "Zoom In" from a size in [0, 30] give min(size+n, 30) |
| `Viewer.NegativeSizeIsFixed` | pyqt.py:289-301 | a negative point size (Qt's -1 for a pixel-sized font) is never changed by zooming, since the size it asks for is not positive |
| `Window.MainWindow.constructor` | pyqt.py:47-53 | a new window has an empty history and transcript, input enabled, gpt-4 selected, no tags and no document |
| `Window.MainWindow.EditEntry` | pyqt.py:213-217 | typing, which only an enabled entry box accepts, sets the entry text |
| `Window.MainWindow.SelectModel` | pyqt.py:51-53 | the drop-down selects one of its two model names |
| `Window.MainWindow.DisplayResponse` | pyqt.py:191-198 | the transcript grows by the reply's runs for the selected model, and by nothing for another model |
| `Window.MainWindow.Dispatch` | pyqt.py:33-44 | a completed chat thread appends one turn to the history and shows the reply; the history stays made of turns |
| `Window.MainWindow.ProcessInput` | pyqt.py:171-189 | blank input changes nothing; the exit command echoes, says goodbye, clears and disables the entry box and the send button, and leaves the history unchanged; other input is echoed, cleared and sent, appending exactly one turn with the stripped input |
| `Window.MainWindow.ResetChat` | pyqt.py:201-204 | whatever came before, the history and the transcript are empty afterwards |
| `Window.MainWindow.DeleteTag` | pyqt.py:206-210 | with a selected row exactly that row is removed; with no selection nothing changes |
| `Window.MainWindow.SendClarification` | pyqt.py:219-224 | requires a non-empty history and sends `"<type>: <last content>"` as one turn |
| `Window.MainWindow.TagMessage` | pyqt.py:227-263 | only a confirmed non-empty tag adds an entry, labelled `"<len(history)-1>: <tag>"` and highlighted exactly when a clarification is asked for; a clarification on an empty history raises; otherwise the clarification appends its turn, and the log step, reading the history as it was when the handler started, raises with fewer than three entries and otherwise records the tag with the last user and assistant entries |
| `Window.MainWindow.OpenPdf` | pyqt.py:265-272 | a cancelled dialog changes nothing; otherwise the document is opened at page 0, and a document without pages raises when page 0 is shown |
| `Window.MainWindow.NextPage` | pyqt.py:279-282 | the page advances only with a document open and below its last page; the page stays within the document |
| `Window.MainWindow.PreviousPage` | pyqt.py:284-287 | the page goes back only with a document open and above page 0; the page stays within the document |
| `Window.MainWindow.ZoomIn` | pyqt.py:289-294 | the font grows by one point only below 30, and only when Qt accepts the new size |
| `Window.MainWindow.ZoomOut` | pyqt.py:296-301 | the font shrinks by one point only above 5 |

## Left out

- Widget construction, layout, the style sheet and window chrome (pyqt.py:46-160): presentation only. The transcript is the list of appended text runs with their colour and weight.
- Key-press routing (pyqt.py:213-217): only its effect is kept. Return reaches `ProcessInput`, and other keys edit the entry text (`EditEntry`).
- Background threads and signals (pyqt.py:33-44, 187-189, 222-224): a chat request runs to completion inside the handler that starts it. Two overlapping requests racing on the shared history cannot occur in this sequential model.
- Window.MainWindow.TagMessage: the log step reads `chat_history[-3:]` before any of the clarification request's appends, as when the request's thread has not yet run. In the program the thread may already have appended its system and user entries (pyqt.py:20-21) when the log step reads, and the log then records a shifted window of the history.
- Chat.IsConversation, Window.MainWindow.Valid: the whole-turn invariant holds only because each request completes inside its handler. In the program, while a reply is pending the history ends in a system and a user entry. A reset during a request is undone when the thread rebinds the history (pyqt.py:43), and a failed API call leaves a system and a user entry with no reply. None of these states is modelled.
- Chat.ClarificationQuotesReply, Chat.ConversationLastExchange: both rely on the whole-turn invariant. While a request is pending, the last entry is a user entry, so a clarification quotes the user's own message and the log pairs a system entry with a user entry.
- Window.MainWindow.ResetChat: a reset always leaves an empty history here. In the program a request still running appends to the old list and then makes it the history again.
- The chat-completion request (pyqt.py:23-27) and the environment and API key loading (pyqt.py:11-13): the reply text is a parameter. The model name passed to the request and the printed status lines have no effect on the state, so `Chat.Chatting` does not take them.
- The tag log file (pyqt.py:246-263): its name from the current date, the open mode and the writes are not modelled. Only the requirement of three history entries and the record read from them are. The program writes the whole message dictionaries, not only their content, and it writes the "Tag:" line before the unpacking can fail. Neither is modelled.
- PDF loading and text extraction with the external library (pyqt.py:270, 274-277): the document is its page count. A file the library cannot open is not modelled.
- Window.MainWindow.DeleteTag: the selected row is a parameter. How the list widget moves its selection after a removal is not modelled.
- Text.Lower and Text.Upper: only ASCII letters change case, while Python maps all of Unicode. For the exit test this cannot change the outcome, because no other character lower-cases to a single "e", "x", "i" or "t". For the upper-cased model names it does not matter either, because both are ASCII.
- Text.Strip: the entry's text is taken as given. Qt's conversion of non-breaking spaces and paragraph separators in `toPlainText()` is not modelled.
- Viewer.SetPointSize: Qt's `QFont.setPointSize` (pyqt.py:293, 300) is taken to ignore a size that is not positive, as Qt documents; this is an assumption about the library, not a proved or observed fact. The zoom promises built on it are proved in `Viewer.Zoomed`, `Viewer.ZoomedAllInRange`, `Viewer.ZoomInSaturates` and `Viewer.NegativeSizeIsFixed`.
- Viewer.NegativeSizeIsFixed: the style sheet at pyqt.py:133-135 gives every widget a 16-pixel font. Qt then reports a point size of -1 for the PDF pane, so neither zoom button changes it. The model keeps the starting point size as a constructor parameter, and the walkthroughs start from -1. This is read from the code and Qt's documented behaviour, not observed.
- Window.MainWindow.ProcessInput: requires an enabled send button, since a disabled button or entry box delivers no events. An unhandled exception in a handler ends the program, so a `Raised` outcome describes the state at that moment.
- The application bootstrap (pyqt.py:304-309).

Tagging with an empty history adds the tag and then raises: an IndexError at pyqt.py:220 with a clarification, a ValueError at pyqt.py:259 without. The model follows the code (`TagOutcome.Raised`).
