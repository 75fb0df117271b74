/** The chat page: its own URL check (which accepts an empty field), the toast
    chosen for a failed turn, the display window over the history, and the
    page state around the session: the URL field, its validity flag, new chat
    and submit. */
module ChatPage {
  import opened Wrappers
  import opened Strings
  import TurnAdapter
  import ChatSession
  import Toasts

  /** How many of the most recent messages the page shows. */
  const MaxMessages := 100

  /** The greeting the page's session starts from; its wording is abbreviated. */
  const Welcome := ChatSession.Message("welcome", ChatSession.Assistant,
    "Hi there! I'm your DSA Learning Assistant. Paste a LeetCode problem URL or ask a question.")

  const SomethingWentWrong := "Something went wrong"
  const RateLimitHint := "Please wait a moment before sending another message."
  const ApiKeyHint := "There's an issue with the API configuration. Please try again later."

  // ----- URL check

  /** The page's check: an empty field is valid, anything else must match
      the same pattern as the server's. */
  function ValidateLeetCodeUrl(url: string): (ok: bool)
    ensures url == "" ==> ok
  {
    if url == "" then true else TurnAdapter.ValidateLeetCodeUrl(url)
  }

  /** The page calls a URL valid exactly when the server's URL check lets a
      request carrying it through; a URL the page flags is answered 400. */
  lemma PageAgreesWithServer(url: string, items: seq<TurnAdapter.WireMessage>, apiKey: Option<string>)
    ensures ValidateLeetCodeUrl(url) <==> TurnAdapter.UrlAcceptable(Some(url))
    ensures !ValidateLeetCodeUrl(url) ==>
              TurnAdapter.CheckRequest(TurnAdapter.ChatRequest(TurnAdapter.MessageArray(items), Some(url)), apiKey)
                == Some(TurnAdapter.ErrorResponse(400, TurnAdapter.InvalidUrlError))
  {
  }

  // ----- Toast for a failed turn

  /** The error callback's choice, tried in order and case-sensitively:
      "rate limit", then "API key", then a generic toast showing the message
      (or a fixed text for an empty one). Every choice is destructive. */
  function ToastFor(errorMessage: string): (t: Toasts.ToastProps)
    ensures t.variant == Some(Toasts.Destructive)
    ensures var shown := if errorMessage == "" then SomethingWentWrong else errorMessage;
      && (Contains(shown, "rate limit") ==>
            t.title == Some("Rate Limit Exceeded") && t.description == Some(RateLimitHint))
      && (!Contains(shown, "rate limit") && Contains(shown, "API key") ==>
            t.title == Some("API Key Error") && t.description == Some(ApiKeyHint))
      && (!Contains(shown, "rate limit") && !Contains(shown, "API key") ==>
            t.title == Some("Error") && t.description == Some(shown))
  {
    var shown := if errorMessage == "" then SomethingWentWrong else errorMessage;
    if Contains(shown, "rate limit") then
      Toasts.ToastProps(Some("Rate Limit Exceeded"), Some(RateLimitHint), Some(Toasts.Destructive))
    else if Contains(shown, "API key") then
      Toasts.ToastProps(Some("API Key Error"), Some(ApiKeyHint), Some(Toasts.Destructive))
    else
      Toasts.ToastProps(Some("Error"), Some(shown), Some(Toasts.Destructive))
  }

  /** The server's missing-key text mentions "API key". */
  lemma MissingKeyTextMentionsApiKey()
    ensures Contains(TurnAdapter.MissingKeyError, "API key")
  {
    var tail := " is missing. " + "Please add GEMINI_API_KEY" + " to your" + " .env.local file.";
    assert "Gemini API key is missing. " == "Gemini " + "API key" + " is missing. ";
    assert TurnAdapter.MissingKeyError == "Gemini " + "API key" + tail;
    ContainsInfix("Gemini ", "API key", tail);
  }

  /** Its only "r" is followed by a blank, so it does not mention "rate limit". */
  lemma MissingKeyTextLacksRateLimit()
    ensures !Contains(TurnAdapter.MissingKeyError, "rate limit")
  {
    var p1, p2, p3, p4 := "Gemini API key is missing. ", "Please add GEMINI_API_KEY", " to your", " .env.local file.";
    var s := p1 + p2 + p3 + p4;
    assert TurnAdapter.MissingKeyError == s;
    forall j | 0 <= j < |p1| ensures p1[j] != 'r' {}
    forall j | 0 <= j < |p2| ensures p2[j] != 'r' {}
    forall j | 0 <= j < |p3| - 1 ensures p3[j] != 'r' {}
    forall j | 0 <= j < |p4| ensures p4[j] != 'r' {}
    forall j | 0 <= j < |s| && j != 59 ensures s[j] != 'r' {
      if j < 27 { assert s[j] == p1[j]; }
      else if j < 52 { assert s[j] == p2[j - 27]; }
      else if j < 60 { assert s[j] == p3[j - 52]; }
      else { assert s[j] == p4[j - 60]; }
    }
    assert s[60] == ' ';
    AbsentBySoleFirstChar(s, "rate limit", 59);
  }

  /** The server's rate-limit text starts with a capital R, and its only
      lower-case "r" is followed by "y": it does not mention "rate limit". */
  lemma RateLimitTextLacksRateLimit()
    ensures !Contains(TurnAdapter.RateLimitError, "rate limit")
  {
    var a, b := "Rate limit exceeded. ", "Please try again in a moment.";
    var s := a + b;
    forall j | 0 <= j < |a| ensures a[j] != 'r' {}
    forall j | 0 <= j < |b| && j != 8 ensures b[j] != 'r' {}
    forall j | 0 <= j < |s| && j != 29 ensures s[j] != 'r' {
      if j < 21 { assert s[j] == a[j]; } else { assert s[j] == b[j - 21]; }
    }
    assert s[30] == b[9] == 'y';
    AbsentBySoleFirstChar(s, "rate limit", 29);
  }

  /** It has no capital A, so it does not mention "API key". */
  lemma RateLimitTextLacksApiKey()
    ensures !Contains(TurnAdapter.RateLimitError, "API key")
  {
    var a, b := "Rate limit exceeded. ", "Please try again in a moment.";
    var s := a + b;
    forall j | 0 <= j < |a| ensures a[j] != 'A' {}
    forall j | 0 <= j < |b| ensures b[j] != 'A' {}
    forall j | 0 <= j < |s| ensures s[j] != 'A' {
      if j < 21 { assert s[j] == a[j]; } else { assert s[j] == b[j - 21]; }
    }
    assert s[1] == 'a';
    AbsentBySoleFirstChar(s, "API key", 0);
  }

  /** The fixed text for an empty message mentions neither "rate limit"... */
  lemma FallbackTextLacksRateLimit()
    ensures !Contains(SomethingWentWrong, "rate limit")
  {
    var s := SomethingWentWrong;
    forall j | 0 <= j < |s| && j != 16 ensures s[j] != 'r' {}
    assert s[17] == 'o';
    AbsentBySoleFirstChar(s, "rate limit", 16);
  }

  /** ...nor "API key". */
  lemma FallbackTextLacksApiKey()
    ensures !Contains(SomethingWentWrong, "API key")
  {
    var s := SomethingWentWrong;
    forall j | 0 <= j < |s| ensures s[j] != 'A' {}
    assert s[1] == 'o';
    AbsentBySoleFirstChar(s, "API key", 0);
  }

  /** The server's missing-key text gets the API-key toast. */
  lemma MissingKeyGetsApiKeyToast()
    ensures ToastFor(TurnAdapter.MissingKeyError) ==
              Toasts.ToastProps(Some("API Key Error"), Some(ApiKeyHint), Some(Toasts.Destructive))
  {
    MissingKeyTextMentionsApiKey();
    MissingKeyTextLacksRateLimit();
  }

  /** The server's rate-limit text misses the case-sensitive "rate limit"
      test and gets the generic toast. */
  lemma RateLimitTextGetsGenericToast()
    ensures ToastFor(TurnAdapter.RateLimitError) ==
              Toasts.ToastProps(Some("Error"), Some(TurnAdapter.RateLimitError), Some(Toasts.Destructive))
  {
    RateLimitTextLacksRateLimit();
    RateLimitTextLacksApiKey();
  }

  /** An error without a message is shown as the fixed text. */
  lemma EmptyMessageToast()
    ensures ToastFor("") == Toasts.ToastProps(Some("Error"), Some(SomethingWentWrong), Some(Toasts.Destructive))
  {
    FallbackTextLacksRateLimit();
    FallbackTextLacksApiKey();
  }

  // ----- Display window

  /** `slice(-MaxMessages)`: the last min(100, n) messages, as a suffix of
      the full history, which itself is kept whole. */
  function Window(all: seq<ChatSession.Message>): (shown: seq<ChatSession.Message>)
    ensures |shown| == if |all| < MaxMessages then |all| else MaxMessages
    ensures all == all[..|all| - |shown|] + shown
  {
    if |all| <= MaxMessages then all else all[|all| - MaxMessages..]
  }

  // ----- The page

  class Page {
    const session: ChatSession.Session
    const toaster: Toasts.Toaster
    var leetCodeUrl: string
    var isUrlValid: bool

    /** The validity flag always reflects the URL field. */
    ghost predicate Valid()
      reads this
    {
      isUrlValid == ValidateLeetCodeUrl(leetCodeUrl)
    }

    constructor ()
      ensures Valid() && fresh(session) && fresh(toaster)
      ensures leetCodeUrl == "" && isUrlValid
      ensures session.initialMessages == [Welcome] && session.messages == [Welcome]
      ensures session.input == "" && !session.isLoading && session.error == None
      ensures toaster.toasts == []
    {
      session := new ChatSession.Session([Welcome]);
      toaster := new Toasts.Toaster();
      leetCodeUrl := "";
      isUrlValid := true;
    }

    /** The URL field's change handler: store the text, recompute validity. */
    method HandleLeetCodeUrlChange(url: string)
      modifies this
      ensures leetCodeUrl == url && isUrlValid == ValidateLeetCodeUrl(url)
      ensures Valid()
    {
      leetCodeUrl := url;
      isUrlValid := ValidateLeetCodeUrl(url);
    }

    /** New chat: reset the session, empty the URL field, mark it valid. */
    method HandleNewChat()
      modifies this, session
      ensures session.messages == session.initialMessages && session.input == "" && session.error == None
      ensures session.isLoading == old(session.isLoading)
      ensures leetCodeUrl == "" && isUrlValid
      ensures Valid()
    {
      session.Reset();
      leetCodeUrl := "";
      isUrlValid := true;
    }

    /** A submit from the page: the session's submit with the URL field as
      extra body (sent whether or not it is valid); a failure adds the toast
      chosen for its message. */
    method Submit(outcome: ChatSession.FetchOutcome, userId: string, replyId: string)
      returns (request: Option<ChatSession.ApiRequest>)
      modifies session, toaster
      ensures leetCodeUrl == old(leetCodeUrl) && isUrlValid == old(isUrlValid)
      ensures old(Valid()) ==> Valid()
      ensures old(ChatSession.SubmitAccepted(session.input, session.isLoading)) ==>
                && request == Some(ChatSession.ApiRequest(
                     old(session.messages) + [ChatSession.Message(userId, ChatSession.User, old(session.input))],
                     map["leetCodeUrl" := leetCodeUrl]))
                && session.messages == old(session.messages) + [ChatSession.Message(userId, ChatSession.User, old(session.input))] +
                     (if outcome.Delivered? then [ChatSession.Message(replyId, ChatSession.Assistant, outcome.content)] else [])
                && session.input == "" && !session.isLoading
                && session.error == (if outcome.Delivered? then None else Some(ChatSession.FailureText(outcome)))
                && toaster.toasts == old(toaster.toasts) +
                     (if outcome.Delivered? then [] else [Toasts.Stored(ToastFor(ChatSession.FailureText(outcome)))])
      ensures !old(ChatSession.SubmitAccepted(session.input, session.isLoading)) ==>
                && request == None
                && session.messages == old(session.messages) && session.input == old(session.input)
                && session.isLoading == old(session.isLoading) && session.error == old(session.error)
                && toaster.toasts == old(toaster.toasts)
    {
      var reported;
      request, reported := session.HandleSubmit(map["leetCodeUrl" := leetCodeUrl], outcome, userId, replyId);
      if reported.Some? {
        toaster.Push(ToastFor(reported.value));
      }
    }

    /** The send button is disabled exactly when the session would ignore a
        submit. */
    function SendDisabled(): (disabled: bool)
      reads this, session
      ensures disabled <==> !ChatSession.SubmitAccepted(session.input, session.isLoading)
    {
      session.isLoading || Trim(session.input) == ""
    }

    /** The messages on screen. */
    function Shown(): (shown: seq<ChatSession.Message>)
      reads this, session
      ensures |shown| <= MaxMessages && shown == Window(session.messages)
    {
      Window(session.messages)
    }
  }
}
