/** The Faith AI companion: a private conversation in which every question is
    followed by one answer from the insight gateway. */
module FaithAIPage {
  import opened Types
  import opened Text
  import GeminiService

  datatype Speaker = Asker | Companion

  /** One line of the conversation. */
  datatype Line = Line(role: Speaker, content: string)

  /** The suggested questions shown on an empty conversation. */
  const SUGGESTIONS: seq<string> := [
    "What does the Bible say about anxiety?",
    "Explain the Parable of the Sower",
    "How can I grow deeper in my prayer life?",
    "Verse of encouragement for exams"
  ]

  /** Questions and answers alternate, starting with a question that is not
      blank; answers are never empty; the last question lacks its answer
      exactly while the reply is awaited. */
  predicate Alternates(lines: seq<Line>, awaiting: bool)
  {
    && (|lines| % 2 == 1 <==> awaiting)
    && (forall i :: 0 <= i < |lines| && i % 2 == 0 ==> lines[i].role == Asker && !IsBlank(lines[i].content))
    && (forall i :: 0 <= i < |lines| && i % 2 == 1 ==> lines[i].role == Companion && lines[i].content != "")
  }

  /** The state of the companion page. */
  class FaithAIState {
    var messages: seq<Line>
    var input: string
    var isLoading: bool

    ghost predicate Valid()
      reads this
    {
      Alternates(messages, isLoading)
    }

    constructor ()
      ensures Valid() && messages == [] && input == "" && !isLoading
    {
      messages := [];
      input := "";
      isLoading := false;
    }

    method EditInput(text: string)
      requires Valid()
      modifies this
      ensures Valid() && input == text
      ensures messages == old(messages) && isLoading == old(isLoading)
    {
      input := text;
    }

    /** The first half of `handleSend` run on `text`: refused when the text is
        blank or a reply is awaited; otherwise the composer clears, the
        question joins the conversation and the reply is awaited. Returns the
        question sent to the gateway. */
    method SendText(text: string) returns (pending: Option<string>)
      requires Valid()
      modifies this
      ensures Valid()
      ensures IsBlank(text) || old(isLoading) ==> pending == None && unchanged(this)
      ensures !IsBlank(text) && !old(isLoading) ==>
        && pending == Some(text)
        && messages == old(messages) + [Line(Asker, text)]
        && input == "" && isLoading
    {
      if IsBlank(text) || isLoading {
        return None;
      }
      input := "";
      messages := messages + [Line(Asker, text)];
      isLoading := true;
      pending := Some(text);
    }

    /** `handleSend` from the form: sends what has been typed. */
    method BeginSend() returns (pending: Option<string>)
      requires Valid()
      modifies this
      ensures Valid()
      ensures IsBlank(old(input)) || old(isLoading) ==> pending == None && unchanged(this)
      ensures !IsBlank(old(input)) && !old(isLoading) ==>
        && pending == Some(old(input))
        && messages == old(messages) + [Line(Asker, old(input))]
        && input == "" && isLoading
    {
      pending := SendText(input);
    }

    /** The second half of `handleSend`, once the gateway answers: the answer
        joins the conversation and the page stops waiting. */
    method CompleteSend(reply: GeminiService.InsightReply)
      requires Valid() && isLoading
      modifies this
      ensures Valid() && !isLoading
      ensures messages == old(messages) + [Line(Companion, GeminiService.GetSpiritualInsight(reply))]
      ensures input == old(input)
    {
      messages := messages + [Line(Companion, GeminiService.GetSpiritualInsight(reply))];
      isLoading := false;
    }

    /** A suggestion click as written: the suggestion is put in the composer,
        but the delayed send is the one captured when the click was rendered,
        so it sends the composer text of before the click. */
    method ClickSuggestionAsWritten(suggestion: string) returns (pending: Option<string>)
      requires Valid()
      modifies this
      ensures Valid()
      ensures IsBlank(old(input)) || old(isLoading) ==>
        pending == None && input == suggestion && messages == old(messages) && isLoading == old(isLoading)
      ensures !IsBlank(old(input)) && !old(isLoading) ==>
        && pending == Some(old(input))
        && messages == old(messages) + [Line(Asker, old(input))]
        && input == "" && isLoading
    {
      var captured := input;
      input := suggestion;
      pending := SendText(captured);
    }

    /** A suggestion click as intended: the suggestion itself is sent. */
    method ClickSuggestion(suggestion: string) returns (pending: Option<string>)
      requires Valid()
      modifies this
      ensures Valid()
      ensures IsBlank(suggestion) || old(isLoading) ==>
        pending == None && input == suggestion && messages == old(messages) && isLoading == old(isLoading)
      ensures !IsBlank(suggestion) && !old(isLoading) ==>
        && pending == Some(suggestion)
        && messages == old(messages) + [Line(Asker, suggestion)]
        && input == "" && isLoading
    {
      input := suggestion;
      pending := SendText(suggestion);
    }
  }

  /** On a fresh page, the first suggestion clicked as written sends nothing
      and only fills the composer; as intended, it is asked. */
  method SuggestionOnFreshPage() returns (asWritten: Option<string>, intended: Option<string>)
    ensures asWritten == None
    ensures intended == Some(SUGGESTIONS[0])
  {
    var page := new FaithAIState();
    asWritten := page.ClickSuggestionAsWritten(SUGGESTIONS[0]);
    var fixedPage := new FaithAIState();
    assert !IsBlank(SUGGESTIONS[0]) by { assert SUGGESTIONS[0][0] == 'W'; }
    intended := fixedPage.ClickSuggestion(SUGGESTIONS[0]);
  }

  /** A question and its answer always come as a pair: after a completed send
      the conversation has grown by exactly one question and one answer. */
  lemma ExchangeKeepsAlternation(lines: seq<Line>, question: string, reply: GeminiService.InsightReply)
    requires Alternates(lines, false) && !IsBlank(question)
    ensures Alternates(lines + [Line(Asker, question)], true)
    ensures Alternates(lines + [Line(Asker, question)] + [Line(Companion, GeminiService.GetSpiritualInsight(reply))], false)
  {
  }
}
