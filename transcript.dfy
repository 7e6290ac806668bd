/** The visible transcript: a sequence of styled text runs appended to the
    read-only text view. Only the text, its colour and its weight are
    modelled; fonts, cursor movement and scrolling are not. */
module Transcript {

  import Text

  /** One `_append_display_text(text, color, is_bold)` call. */
  datatype Span = Span(text: string, colour: string, bold: bool)

  const Green: string := "#50fa7b"
  const Purple: string := "#bd93f9"
  const Orange: string := "#ffa500"

  /** The two entries of the model drop-down. */
  const Gpt4: string := "gpt-4"
  const Gpt35Turbo: string := "gpt-3.5-turbo"

  /** The user's line for an ordinary message: a bold green label and the
      message in green, showing "User: " and the message on one line. */
  function UserSpans(input: string): (r: seq<Span>)
    ensures |r| == 2 && r[0].bold && !r[1].bold
    ensures r[0].text == "User: " && r[1].text == input + "\n"
    ensures forall k :: 0 <= k < |r| ==> r[k].colour == Green
    ensures Rendered(r) == "User: " + (input + "\n")
  {
    RenderedPair(Span("User: ", Green, true), Span(input + "\n", Green, false));
    [Span("User: ", Green, true), Span(input + "\n", Green, false)]
  }

  /** The user's line and the farewell written for the exit command, both
      green and neither bold: "User: " and the input on one line, then
      "Goodbye!" on the next. */
  function ExitSpans(input: string): (r: seq<Span>)
    ensures |r| == 2
    ensures r[0].text == "User: " + input + "\n" && r[1].text == "Goodbye!\n"
    ensures forall k :: 0 <= k < |r| ==> r[k].colour == Green && !r[k].bold
    ensures Rendered(r) == "User: " + input + "\n" + "Goodbye!\n"
  {
    RenderedPair(Span("User: " + input + "\n", Green, false), Span("Goodbye!\n", Green, false));
    [Span("User: " + input + "\n", Green, false), Span("Goodbye!\n", Green, false)]
  }

  /** `display_response`: the reply is shown under the upper-cased model
      name, in purple for gpt-4 and orange for gpt-3.5-turbo; for any
      other model name nothing is shown at all. */
  function ResponseSpans(model: string, response: string): (r: seq<Span>)
    ensures r == [] <==> model != Gpt4 && model != Gpt35Turbo
    ensures r != [] ==>
      |r| == 2 && r[0].bold && !r[1].bold && r[0].colour == r[1].colour
      && r[0].text == Text.Upper(model) + ": " && r[1].text == response + "\n"
    ensures model == Gpt4 ==> r[0].colour == Purple && r[0].text == "GPT-4: "
    ensures model == Gpt35Turbo ==> r[0].colour == Orange && r[0].text == "GPT-3.5-TURBO: "
  {
    if model == Gpt4 then
      [Span(Text.Upper(model) + ": ", Purple, true), Span(response + "\n", Purple, false)]
    else if model == Gpt35Turbo then
      [Span(Text.Upper(model) + ": ", Orange, true), Span(response + "\n", Orange, false)]
    else
      []
  }

  /** The plain text of a transcript: its runs' texts, in order. */
  function Rendered(spans: seq<Span>): string {
    if spans == [] then "" else Rendered(spans[..|spans| - 1]) + spans[|spans| - 1].text
  }

  /** Appending runs appends their text to what the view shows. */
  lemma {:induction false} RenderedAppend(a: seq<Span>, b: seq<Span>)
    ensures Rendered(a + b) == Rendered(a) + Rendered(b)
    decreases |b|
  {
    if b == [] {
      assert a + b == a;
    } else {
      var ab := a + b;
      assert ab[..|ab| - 1] == a + b[..|b| - 1];
      RenderedAppend(a, b[..|b| - 1]);
    }
  }

  lemma RenderedPair(x: Span, y: Span)
    ensures Rendered([x, y]) == x.text + y.text
  {
    assert [x, y][..1] == [x];
    assert [x][..0] == [];
    assert Rendered([x]) == "" + x.text == x.text;
  }

  /** Sending a message with gpt-4 selected shows "User: " and the message
      on one line, followed by "GPT-4: " and the reply on the next. */
  lemma UserLineThenGpt4Reply(before: seq<Span>, input: string, reply: string)
    ensures Rendered(before + UserSpans(input) + ResponseSpans(Gpt4, reply))
      == Rendered(before) + ("User: " + (input + "\n")) + ("GPT-4: " + (reply + "\n"))
  {
    var u := UserSpans(input);
    var g := ResponseSpans(Gpt4, reply);
    RenderedAppend(before + u, g);
    RenderedAppend(before, u);
    RenderedPair(g[0], g[1]);
    assert g == [g[0], g[1]];
  }
}
