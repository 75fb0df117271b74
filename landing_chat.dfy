/** The landing page's own chat: a first-question form that composes one
    message from a problem URL and a question, then a follow-up form. Unlike
    the session hook it has no in-flight guard in its handlers, and a failed
    request appends an assistant apology instead of recording an error, so
    every accepted submit grows the history by exactly two messages. */
module LandingChat {
  import opened Wrappers
  import opened Strings
  import TurnAdapter
  import ChatSession

  /** The greeting the history starts from; its wording is abbreviated. */
  const Greeting := ChatSession.Message("1", ChatSession.Assistant,
    "Hello! I'm your DSA Teaching Assistant. Please share a LeetCode problem URL and your specific question.")

  const Apology := "Sorry, there was an error processing your request. Please try again."

  const ProblemLabel := "LeetCode Problem: "
  const QuestionLabel := "\n\nMy Question: "

  /** The first user message: the URL and the question, each after its
      label, both untrimmed. */
  function FullQuestion(leetCodeUrl: string, question: string): string {
    ProblemLabel + leetCodeUrl + QuestionLabel + question
  }

  /** The composed message can be read back by position: label, URL,
      label, question. */
  lemma FullQuestionParts(leetCodeUrl: string, question: string)
    ensures var content := FullQuestion(leetCodeUrl, question);
      && |content| == 33 + |leetCodeUrl| + |question|
      && content[..18] == ProblemLabel
      && content[18..18 + |leetCodeUrl|] == leetCodeUrl
      && content[18 + |leetCodeUrl|..33 + |leetCodeUrl|] == QuestionLabel
      && content[33 + |leetCodeUrl|..] == question
  {
  }

  /** The composed message mentions both the URL and the question. */
  lemma FullQuestionMentionsBoth(leetCodeUrl: string, question: string)
    ensures Contains(FullQuestion(leetCodeUrl, question), leetCodeUrl)
    ensures Contains(FullQuestion(leetCodeUrl, question), question)
  {
    var content := FullQuestion(leetCodeUrl, question);
    FullQuestionParts(leetCodeUrl, question);
    ContainsAt(content, leetCodeUrl, 18);
    ContainsAt(content, question, 33 + |leetCodeUrl|);
  }

  /** How a request ends for this page: a response marked ok with its
      `content`, or anything else (a status not ok, a body that is not JSON,
      the network), which all land in the same catch. */
  datatype LandingOutcome = Answered(content: string) | Failed

  /** The assistant message the handlers append for an outcome. */
  function ReplyText(outcome: LandingOutcome): (text: string)
    ensures outcome.Answered? ==> text == outcome.content
    ensures outcome.Failed? ==> text == Apology
  {
    match outcome
    case Answered(content) => content
    case Failed => Apology
  }

  /** What a response of the turn adapter looks like to this page. */
  function OutcomeOf(response: TurnAdapter.HttpResponse): LandingOutcome {
    if response.status == 200 && response.body.Reply? then Answered(response.body.content) else Failed
  }

  /** Every error the adapter answers with, whatever its text, reaches the
      history as the same apology. */
  lemma AdapterErrorsBecomeApology(response: TurnAdapter.HttpResponse)
    requires response.status != 200
    ensures ReplyText(OutcomeOf(response)) == Apology
  {
  }

  /** The request body as the server parses it: the prior history with the
      new user message after it, and no URL field. */
  function RequestFor(prior: seq<ChatSession.Message>, content: string): (request: TurnAdapter.ChatRequest)
    ensures request.leetCodeUrl == None && request.messages.MessageArray?
    ensures |request.messages.items| == |prior| + 1
    ensures request.messages.items[..|prior|] == ChatSession.ToWire(prior)
    ensures request.messages.items[|prior|] == TurnAdapter.WireMessage("user", content)
  {
    TurnAdapter.ChatRequest(TurnAdapter.MessageArray(ChatSession.ToWire(prior) + [TurnAdapter.WireMessage("user", content)]), None)
  }

  /** Whatever the prior history, the message a submit sends is the prompt
      the adapter hands to the hosted model. */
  lemma SentMessageIsPrompt(prior: seq<ChatSession.Message>, content: string)
    ensures TurnAdapter.SplitTranscript(TurnAdapter.Transcript(RequestFor(prior, content).messages.items, None)).prompt
              == content
  {
    ChatSession.ToWireAppend(prior, [ChatSession.Message("", ChatSession.User, content)]);
    assert ChatSession.ToWire([ChatSession.Message("", ChatSession.User, content)]) == [TurnAdapter.WireMessage("user", content)];
    ChatSession.SubmittedInputIsPrompt(prior, "", content, None);
  }

  /** The first question from the greeting alone: the greeting is dropped,
      so the model sees only the preamble and then the composed question. */
  lemma FirstQuestionCall(leetCodeUrl: string, question: string)
    ensures var content := FullQuestion(leetCodeUrl, question);
      TurnAdapter.SplitTranscript(TurnAdapter.Transcript(RequestFor([Greeting], content).messages.items, None))
        == TurnAdapter.ProviderCall(TurnAdapter.Preamble(None), content)
  {
    var content := FullQuestion(leetCodeUrl, question);
    var items := RequestFor([Greeting], content).messages.items;
    assert items == [TurnAdapter.WireMessage("assistant", Greeting.content), TurnAdapter.WireMessage("user", content)];
    assert TurnAdapter.Kept(items) == [items[1]];
    TurnAdapter.CallForHistory(items, None);
  }

  /** The first form's guard: neither field blank after trimming. */
  predicate FirstQuestionAccepted(leetCodeUrl: string, question: string) {
    Trim(leetCodeUrl) != "" && Trim(question) != ""
  }

  class Landing {
    var leetCodeUrl: string
    var question: string
    var messages: seq<ChatSession.Message>
    var input: string
    var isLoading: bool

    /** The history starts with the greeting and grows two messages at a
        time, so its length stays odd. */
    ghost predicate Valid()
      reads this
    {
      |messages| >= 1 && |messages| % 2 == 1 && messages[0] == Greeting
    }

    constructor ()
      ensures leetCodeUrl == "" && question == "" && input == "" && !isLoading
      ensures messages == [Greeting]
      ensures Valid() && ShowsFirstQuestionForm()
    {
      leetCodeUrl := "";
      question := "";
      messages := [Greeting];
      input := "";
      isLoading := false;
    }

    method SetLeetCodeUrl(text: string)
      modifies this
      ensures leetCodeUrl == text
      ensures question == old(question) && messages == old(messages) && input == old(input)
      ensures isLoading == old(isLoading)
    {
      leetCodeUrl := text;
    }

    method SetQuestion(text: string)
      modifies this
      ensures question == text
      ensures leetCodeUrl == old(leetCodeUrl) && messages == old(messages) && input == old(input)
      ensures isLoading == old(isLoading)
    {
      question := text;
    }

    method SetInput(text: string)
      modifies this
      ensures input == text
      ensures leetCodeUrl == old(leetCodeUrl) && question == old(question) && messages == old(messages)
      ensures isLoading == old(isLoading)
    {
      input := text;
    }

    /** Append one message at the end of the history. */
    method AddMessage(id: string, role: ChatSession.Role, content: string)
      modifies this
      ensures messages == old(messages) + [ChatSession.Message(id, role, content)]
      ensures leetCodeUrl == old(leetCodeUrl) && question == old(question) && input == old(input)
      ensures isLoading == old(isLoading)
    {
      messages := messages + [ChatSession.Message(id, role, content)];
    }

    /** One exchange, shared by both handlers once their guard passed: the
        loading flag, the user message, the request for the prior history
        plus that message, then the reply or the apology, and the end of
        loading. */
    method Exchange(content: string, outcome: LandingOutcome, userId: string, replyId: string)
      returns (request: TurnAdapter.ChatRequest)
      modifies this
      ensures request == RequestFor(old(messages), content)
      ensures messages == old(messages) + [ChatSession.Message(userId, ChatSession.User, content),
                                           ChatSession.Message(replyId, ChatSession.Assistant, ReplyText(outcome))]
      ensures !isLoading
      ensures leetCodeUrl == old(leetCodeUrl) && question == old(question) && input == old(input)
      ensures old(Valid()) ==> Valid()
    {
      isLoading := true;
      var prior := messages;
      AddMessage(userId, ChatSession.User, content);
      request := RequestFor(prior, content);
      AddMessage(replyId, ChatSession.Assistant, ReplyText(outcome));
      isLoading := false;
    }

    /** The first-question submit: the guard on both trimmed fields, the
        composed message for the exchange, and both fields cleared whatever
        the outcome. */
    method HandleLeetCodeSubmit(outcome: LandingOutcome, userId: string, replyId: string)
      returns (request: Option<TurnAdapter.ChatRequest>)
      modifies this
      ensures old(FirstQuestionAccepted(leetCodeUrl, question)) ==>
                var content := FullQuestion(old(leetCodeUrl), old(question));
                && request == Some(RequestFor(old(messages), content))
                && messages == old(messages) + [ChatSession.Message(userId, ChatSession.User, content),
                                                ChatSession.Message(replyId, ChatSession.Assistant, ReplyText(outcome))]
                && !isLoading && leetCodeUrl == "" && question == "" && input == old(input)
                && !ShowsFirstQuestionForm()
      ensures old(Valid()) ==> Valid()
      ensures !old(FirstQuestionAccepted(leetCodeUrl, question)) ==>
                && request == None
                && leetCodeUrl == old(leetCodeUrl) && question == old(question) && messages == old(messages)
                && input == old(input) && isLoading == old(isLoading)
    {
      var url, q := leetCodeUrl, question;
      if !FirstQuestionAccepted(url, q) {
        return None;
      }
      var sent := Exchange(FullQuestion(url, q), outcome, userId, replyId);
      request := Some(sent);
      SetLeetCodeUrl("");
      SetQuestion("");
    }

    /** The follow-up submit: the guard on the trimmed input, the untrimmed
        input for the exchange, and the input cleared whatever the outcome. */
    method HandleFollowUpSubmit(outcome: LandingOutcome, userId: string, replyId: string)
      returns (request: Option<TurnAdapter.ChatRequest>)
      modifies this
      ensures old(Trim(input) != "") ==>
                && request == Some(RequestFor(old(messages), old(input)))
                && messages == old(messages) + [ChatSession.Message(userId, ChatSession.User, old(input)),
                                                ChatSession.Message(replyId, ChatSession.Assistant, ReplyText(outcome))]
                && !isLoading && input == ""
                && leetCodeUrl == old(leetCodeUrl) && question == old(question)
                && !ShowsFirstQuestionForm()
      ensures old(Valid()) ==> Valid()
      ensures old(Trim(input) == "") ==>
                && request == None
                && leetCodeUrl == old(leetCodeUrl) && question == old(question) && messages == old(messages)
                && input == old(input) && isLoading == old(isLoading)
    {
      var text := input;
      if Trim(text) == "" {
        return None;
      }
      var sent := Exchange(text, outcome, userId, replyId);
      request := Some(sent);
      SetInput("");
    }

    /** The page shows the first-question form while the history holds no
        more than one message, which in a valid state is exactly while it is
        the greeting alone. */
    function ShowsFirstQuestionForm(): (form: bool)
      reads this
      ensures Valid() ==> (form <==> messages == [Greeting])
    {
      |messages| <= 1
    }
  }
}
