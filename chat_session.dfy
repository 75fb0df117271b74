/** The client chat-session hook: the conversation history, the pending
    input, the in-flight flag and the last error, with a submit operation that
    appends the user's message optimistically and reconciles it with the
    outcome of the one request it sends, and a reset. */
module ChatSession {
  import opened Wrappers
  import opened Strings
  import TurnAdapter

  datatype Role = User | Assistant | System

  /** One utterance; ids are opaque and supplied by the caller. */
  datatype Message = Message(id: string, role: Role, content: string)

  function RoleName(role: Role): string {
    match role
    case User => "user"
    case Assistant => "assistant"
    case System => "system"
  }

  /** The history as the server reads it from the JSON body: role name and
      content of each message, in order (ids travel too, but are not read). */
  function ToWire(messages: seq<Message>): (wire: seq<TurnAdapter.WireMessage>)
    ensures |wire| == |messages|
    ensures forall i :: 0 <= i < |messages| ==>
              wire[i] == TurnAdapter.WireMessage(RoleName(messages[i].role), messages[i].content)
  {
    if messages == [] then []
    else [TurnAdapter.WireMessage(RoleName(messages[0].role), messages[0].content)] + ToWire(messages[1..])
  }

  /** The request the hook sends: the history ending with the new user
      message, and the caller's extra body fields. */
  datatype ApiRequest = ApiRequest(messages: seq<Message>, body: map<string, string>)

  /** That request as the server parses it. */
  function ServerView(request: ApiRequest): TurnAdapter.ChatRequest {
    TurnAdapter.ChatRequest(
      TurnAdapter.MessageArray(ToWire(request.messages)),
      if "leetCodeUrl" in request.body then Some(request.body["leetCodeUrl"]) else None)
  }

  /** How the request ends for the hook: a response marked ok with its
      `content`; a response not marked ok with the `error` field of its JSON
      body (None when missing); or a throw on the way (the network, a body
      that is not JSON) with its message. */
  datatype FetchOutcome = Delivered(content: string) | Refused(errorField: Option<string>) | Threw(message: string)

  const FetchFailedError := "Failed to fetch the chat response."

  /** The message of the error the hook records for a failed request: the
      server's `error` text when truthy, else a fixed text; a throw keeps its
      own message. */
  function FailureText(outcome: FetchOutcome): (text: string)
    requires !outcome.Delivered?
    ensures outcome.Refused? && TurnAdapter.Truthy(outcome.errorField) ==> text == outcome.errorField.value
    ensures outcome.Refused? && !TurnAdapter.Truthy(outcome.errorField) ==> text == FetchFailedError
    ensures outcome.Threw? ==> text == outcome.message
  {
    match outcome
    case Refused(field) => if TurnAdapter.Truthy(field) then field.value else FetchFailedError
    case Threw(message) => message
  }

  /** What a response of the turn adapter looks like to the hook. */
  function OutcomeOf(response: TurnAdapter.HttpResponse): FetchOutcome {
    if response.status == 200 && response.body.Reply? then Delivered(response.body.content)
    else if response.body.ErrorBody? then Refused(Some(response.body.error))
    else Refused(None)
  }

  /** Every non-empty error text the adapter answers with, which includes
      all six of its fixed texts, reaches the hook unchanged. */
  lemma AdapterErrorsReachSession(response: TurnAdapter.HttpResponse)
    requires response.status != 200 && response.body.ErrorBody? && response.body.error != ""
    ensures !OutcomeOf(response).Delivered?
    ensures FailureText(OutcomeOf(response)) == response.body.error
  {
  }

  /** None of the adapter's six fixed error texts can be mistaken for the
      hook's own fallback. */
  lemma AdapterErrorsDifferFromFallback(response: TurnAdapter.HttpResponse)
    requires response.status != 200 && response.body.ErrorBody?
    requires response.body.error in {TurnAdapter.InvalidMessagesError, TurnAdapter.InvalidUrlError,
      TurnAdapter.MissingKeyError, TurnAdapter.GenerationFailedError, TurnAdapter.RateLimitError,
      TurnAdapter.UnexpectedError}
    ensures FailureText(OutcomeOf(response)) != FetchFailedError
  {
    AdapterErrorsReachSession(response);
  }

  /** The hook's guard: `input.trim()` non-empty and nothing in flight. */
  predicate SubmitAccepted(input: string, isLoading: bool) {
    Trim(input) != "" && !isLoading
  }

  /** The guard rejects exactly blank input or a request in flight. */
  lemma SubmitAcceptedIffNotBlank(input: string, isLoading: bool)
    ensures SubmitAccepted(input, isLoading) <==> !Blank(input) && !isLoading
  {
    TrimEmptyIffBlank(input);
  }

  lemma {:induction false} ToWireAppend(a: seq<Message>, b: seq<Message>)
    ensures ToWire(a + b) == ToWire(a) + ToWire(b)
  {
    if a != [] {
      assert (a + b)[1..] == a[1..] + b;
      ToWireAppend(a[1..], b);
    }
  }

  /** Whatever the history before it, the message a submit appends is the
      prompt the adapter sends to the hosted model. */
  lemma SubmittedInputIsPrompt(history: seq<Message>, userId: string, input: string, leetCodeUrl: Option<string>)
    ensures var wire := ToWire(history + [Message(userId, User, input)]);
      TurnAdapter.SplitTranscript(TurnAdapter.Transcript(wire, leetCodeUrl)).prompt == input
  {
    var wire := ToWire(history + [Message(userId, User, input)]);
    assert wire[|wire| - 1].content == input;
    assert TurnAdapter.Kept(wire) != [] by {
      if history == [] {
        assert wire[0].role == "user";
      }
    }
    TurnAdapter.CallForHistory(wire, leetCodeUrl);
  }

  class Session {
    const initialMessages: seq<Message>
    var messages: seq<Message>
    var input: string
    var isLoading: bool
    var error: Option<string>

    constructor (initialMessages: seq<Message>)
      ensures this.initialMessages == initialMessages
      ensures messages == initialMessages && input == "" && !isLoading && error == None
    {
      this.initialMessages := initialMessages;
      messages := initialMessages;
      input := "";
      isLoading := false;
      error := None;
    }

    /** The input field's change handler. */
    method SetInput(text: string)
      modifies this
      ensures input == text
      ensures messages == old(messages) && isLoading == old(isLoading) && error == old(error)
    {
      input := text;
    }

    /** Submit up to its await: the guard, then the loading flag, the cleared
        error, the optimistic user message with the untrimmed input, the
        cleared input, and the request for the history with that message. */
    method BeginSubmit(body: map<string, string>, userId: string) returns (request: Option<ApiRequest>)
      modifies this
      ensures old(SubmitAccepted(input, isLoading)) ==>
                && messages == old(messages) + [Message(userId, User, old(input))]
                && input == "" && isLoading && error == None
                && request == Some(ApiRequest(messages, body))
      ensures !old(SubmitAccepted(input, isLoading)) ==>
                && messages == old(messages) && input == old(input)
                && isLoading == old(isLoading) && error == old(error)
                && request == None
    {
      if Trim(input) == "" || isLoading {
        return None;
      }
      isLoading := true;
      error := None;
      var userMessage := Message(userId, User, input);
      var sent := messages + [userMessage];
      messages := messages + [userMessage];
      input := "";
      request := Some(ApiRequest(sent, body));
    }

    /** Submit after its await: a delivered reply appends one assistant
        message; a failure appends nothing, keeps the user message, records
        the error and reports it to the error callback. Loading ends either way. */
    method Settle(outcome: FetchOutcome, replyId: string) returns (reported: Option<string>)
      modifies this
      ensures !isLoading && input == old(input)
      ensures outcome.Delivered? ==>
                && messages == old(messages) + [Message(replyId, Assistant, outcome.content)]
                && error == old(error) && reported == None
      ensures !outcome.Delivered? ==>
                && messages == old(messages)
                && error == Some(FailureText(outcome)) && reported == error
    {
      if outcome.Delivered? {
        messages := messages + [Message(replyId, Assistant, outcome.content)];
        reported := None;
      } else {
        error := Some(FailureText(outcome));
        reported := error;
      }
      isLoading := false;
    }

    /** A whole submit with nothing interleaved between its two halves. */
    method HandleSubmit(body: map<string, string>, outcome: FetchOutcome, userId: string, replyId: string)
      returns (request: Option<ApiRequest>, reported: Option<string>)
      modifies this
      ensures old(SubmitAccepted(input, isLoading)) ==>
                && request == Some(ApiRequest(old(messages) + [Message(userId, User, old(input))], body))
                && messages == old(messages) + [Message(userId, User, old(input))] +
                     (if outcome.Delivered? then [Message(replyId, Assistant, outcome.content)] else [])
                && input == "" && !isLoading
                && error == (if outcome.Delivered? then None else Some(FailureText(outcome)))
                && reported == error
      ensures !old(SubmitAccepted(input, isLoading)) ==>
                && messages == old(messages) && input == old(input)
                && isLoading == old(isLoading) && error == old(error)
                && request == None && reported == None
    {
      request := BeginSubmit(body, userId);
      if request.None? {
        return request, None;
      }
      reported := Settle(outcome, replyId);
    }

    /** Back to the initial history with no input and no error; the loading
        flag is left as it is. */
    method Reset()
      modifies this
      ensures messages == initialMessages && input == "" && error == None
      ensures isLoading == old(isLoading)
    {
      messages := initialMessages;
      input := "";
      error := None;
    }
  }
}
