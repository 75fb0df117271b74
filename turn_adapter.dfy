/** The server side of one chat turn: the request checks, the transcript handed
    to the hosted model, the split of that transcript into history and prompt,
    and the mapping of a caught error to an HTTP status. The hosted model is not
    modelled: the adapter is given the outcome the model would produce for the
    call it makes. */
module TurnAdapter {
  import opened Wrappers
  import opened Strings

  // ----- Request, provider and response shapes

  /** One element of the request's `messages` array. Its role is whatever
      string the client sent; nothing checks it. */
  datatype WireMessage = WireMessage(role: string, content: string)

  /** The `messages` field of the parsed body: an array, or any other value. */
  datatype MessagesField = MessageArray(items: seq<WireMessage>) | NotAnArray

  /** The parsed request body. `leetCodeUrl` is None when absent or null. */
  datatype ChatRequest = ChatRequest(messages: MessagesField, leetCodeUrl: Option<string>)

  /** A caught JavaScript error: its `name`, and its `message` when defined. */
  datatype ThrownError = ThrownError(name: string, message: Option<string>)

  /** The body as reading it as JSON leaves it: parsed, or the error thrown. */
  datatype RequestBody = Parsed(request: ChatRequest) | Unparsable(error: ThrownError)

  /** The hosted model's two roles. */
  datatype ProviderRole = UserTurn | ModelTurn

  /** One transcript entry: a role and the text of its single part. */
  datatype Entry = Entry(role: ProviderRole, text: string)

  /** What the adapter hands the hosted model: the session history and the
      text of the message it then sends. */
  datatype ProviderCall = ProviderCall(history: seq<Entry>, prompt: string)

  /** What the hosted model does with that call: a reply text, or a throw. */
  datatype ProviderOutcome = Replied(text: string) | Failed(error: ThrownError)

  /** The JSON body of a response. An absent `details` is left out of the JSON. */
  datatype ResponseBody =
    | Reply(content: string, role: string, status: string)
    | ErrorBody(error: string, details: Option<string>)

  datatype HttpResponse = HttpResponse(status: int, body: ResponseBody)

  // ----- Fixed texts

  const InvalidMessagesError := "Invalid messages format. Expected an array of messages."
  const InvalidUrlError := "Invalid LeetCode URL. Please provide a valid LeetCode problem URL."
  // Two texts are written as concatenated pieces only to keep the string
  // proofs about them small; each joined text is the route's own.
  const MissingKeyError := "Gemini API key is missing. " + "Please add GEMINI_API_KEY" + " to your" + " .env.local file."
  const GenerationFailedError := "Failed to generate response. Please try rephrasing your question."
  const RateLimitError := "Rate limit exceeded. " + "Please try again in a moment."
  const UnexpectedError := "An unexpected error occurred. Please try again."

  /** The error name the hosted model's client library gives its own errors. */
  const ProviderErrorName := "GoogleGenerativeAIError"

  /** The model's canned reply to the system prompt, second preamble entry. */
  const Acknowledgment := "I understand my role as a DSA teaching assistant. I'll follow the guidelines to help users learn without providing complete solutions."

  /** The tutoring instructions that open the system prompt. Their wording
      does not matter to any property here, so it is abbreviated. */
  const PersonaInstructions := "\nYou are a helpful teaching assistant for data structures and algorithms (DSA) problems.\n\n"

  // ----- JavaScript truthiness of the optional strings

  /** An optional string is truthy when present and non-empty. */
  predicate Truthy(s: Option<string>) {
    s.Some? && s.value != ""
  }

  // ----- The problem-URL pattern

  /** The characters of the class `[a-zA-Z0-9-]`. */
  predicate IsSlugChar(c: char) {
    ('a' <= c <= 'z') || ('A' <= c <= 'Z') || ('0' <= c <= '9') || c == '-'
  }

  /** Everything the pattern fixes before the problem slug, for one host. */
  function ProblemUrlStem(host: string): string {
    "https://" + host + "/problems/"
  }

  /** `url` starts with `stem` and the next character is a slug character. */
  predicate StemThenSlug(url: string, stem: string) {
    stem <= url && |stem| < |url| && IsSlugChar(url[|stem|])
  }

  /** The server's URL check (the same pattern as the chat page's). The
      pattern has a start anchor and no end anchor, so one slug character
      after the stem settles it. */
  function ValidateLeetCodeUrl(url: string): (ok: bool)
    ensures ok ==> exists host | host in {"leetcode.com", "leetcode.cn"} ::
      ProblemUrlStem(host) < url && IsSlugChar(url[|ProblemUrlStem(host)|])
  {
    StemThenSlug(url, ProblemUrlStem("leetcode.com")) || StemThenSlug(url, ProblemUrlStem("leetcode.cn"))
  }

  /** The pattern read as written: "https://", one of the two hosts,
      "/problems/", a run of `k` >= 1 slug characters, then an optional "/"
      and, with no end anchor, anything at all. */
  ghost predicate PatternMatchesWith(url: string, host: string, k: nat) {
    && (host == "leetcode.com" || host == "leetcode.cn")
    && ProblemUrlStem(host) <= url
    && 1 <= k && |ProblemUrlStem(host)| + k <= |url|
    && forall j :: |ProblemUrlStem(host)| <= j < |ProblemUrlStem(host)| + k ==> IsSlugChar(url[j])
  }

  ghost predicate PatternMatches(url: string) {
    exists host: string, k: nat :: PatternMatchesWith(url, host, k)
  }

  /** The check accepts exactly the strings the pattern matches. */
  lemma ValidateMatchesPattern(url: string)
    ensures ValidateLeetCodeUrl(url) <==> PatternMatches(url)
  {
    if ValidateLeetCodeUrl(url) {
      if StemThenSlug(url, ProblemUrlStem("leetcode.com")) {
        assert PatternMatchesWith(url, "leetcode.com", 1);
      } else {
        assert PatternMatchesWith(url, "leetcode.cn", 1);
      }
    }
    if PatternMatches(url) {
      var host: string, k: nat :| PatternMatchesWith(url, host, k);
      assert IsSlugChar(url[|ProblemUrlStem(host)|]);
    }
  }

  /** Accepted URLs, including the edges of the pattern: a one-character
      slug, and a query string right after the slug. */
  lemma ValidateAcceptsExamples()
    ensures ValidateLeetCodeUrl("https://leetcode.com/problems/" + "two-sum/")
    ensures ValidateLeetCodeUrl("https://leetcode.cn/problems/" + "a")
    ensures ValidateLeetCodeUrl("https://leetcode.com/problems/" + "two-sum?tab=description")
  {
    var com, cn := ProblemUrlStem("leetcode.com"), ProblemUrlStem("leetcode.cn");
    assert com == "https://leetcode.com/problems/" && cn == "https://leetcode.cn/problems/";
    StemThenAnySlug(com, "two-sum/");
    StemThenAnySlug(cn, "a");
    StemThenAnySlug(com, "two-sum?tab=description");
  }

  /** A stem followed by a slug character, then anything. */
  lemma StemThenAnySlug(stem: string, rest: string)
    requires rest != [] && IsSlugChar(rest[0])
    ensures StemThenSlug(stem + rest, stem)
  {
    assert (stem + rest)[|stem|] == rest[0];
  }

  lemma ValidateRejectsExamples()
    ensures !ValidateLeetCodeUrl("not-a-url")
    ensures !ValidateLeetCodeUrl("https://leetcode.com/problems/")
    ensures !ValidateLeetCodeUrl("https://leetcode.com/problems//")
    ensures !ValidateLeetCodeUrl("http://leetcode.com/problems/two-sum/")
  {
    var com, cn := ProblemUrlStem("leetcode.com"), ProblemUrlStem("leetcode.cn");
    assert com == "https://leetcode.com/problems/" && cn == "https://leetcode.cn/problems/";
    var u := "https://leetcode.com/problems//";
    assert u[18] != cn[18];
    var v := "http://leetcode.com/problems/two-sum/";
    assert v[4] != com[4] && v[4] != cn[4];
  }

  // ----- Request checks, in the order the handler makes them

  function ErrorResponse(status: int, error: string): HttpResponse {
    HttpResponse(status, ErrorBody(error, None))
  }

  /** The URL passes the server's check: absent, empty, or matching. */
  predicate UrlAcceptable(leetCodeUrl: Option<string>) {
    !Truthy(leetCodeUrl) || ValidateLeetCodeUrl(leetCodeUrl.value)
  }

  /** The first failing check's response, or None when the request may go on
      to the hosted model. */
  function CheckRequest(req: ChatRequest, apiKey: Option<string>): (r: Option<HttpResponse>)
    ensures req.messages.NotAnArray? ==> r == Some(ErrorResponse(400, InvalidMessagesError))
    ensures req.messages.MessageArray? && !UrlAcceptable(req.leetCodeUrl) ==>
              r == Some(ErrorResponse(400, InvalidUrlError))
    ensures req.messages.MessageArray? && UrlAcceptable(req.leetCodeUrl) && !Truthy(apiKey) ==>
              r == Some(ErrorResponse(500, MissingKeyError))
    ensures r == None <==> req.messages.MessageArray? && UrlAcceptable(req.leetCodeUrl) && Truthy(apiKey)
  {
    if req.messages.NotAnArray? then Some(ErrorResponse(400, InvalidMessagesError))
    else if Truthy(req.leetCodeUrl) && !ValidateLeetCodeUrl(req.leetCodeUrl.value) then
      Some(ErrorResponse(400, InvalidUrlError))
    else if !Truthy(apiKey) then Some(ErrorResponse(500, MissingKeyError))
    else None
  }

  /** Without a key no request reaches the hosted model, and the status is
      400 or 500 depending only on the earlier checks. */
  lemma MissingKeyNeverReachesProvider(req: ChatRequest, apiKey: Option<string>)
    requires !Truthy(apiKey)
    ensures CheckRequest(req, apiKey).Some?
    ensures CheckRequest(req, apiKey).value.status == (if req.messages.MessageArray? && UrlAcceptable(req.leetCodeUrl) then 500 else 400)
  {
  }

  // ----- The transcript

  const ProblemIntro := "\nThe user is working on this LeetCode problem: "

  /** The guidance that follows the URL; its wording is abbreviated. */
  const ProblemGuidance := "\nBefore addressing their question, analyze the problem and guide the approach.\n"

  /** The problem block added to the system prompt when a URL is given. */
  function ProblemContext(url: string): string {
    ProblemIntro + url + ProblemGuidance
  }

  /** The system prompt: the instructions, the problem block exactly when the
      URL is truthy, and a closing newline. */
  function SystemPrompt(leetCodeUrl: Option<string>): (p: string)
    ensures PersonaInstructions <= p
    ensures Truthy(leetCodeUrl) <==> |p| > |PersonaInstructions| + 1
    ensures Truthy(leetCodeUrl) ==> Contains(p, ProblemContext(leetCodeUrl.value))
    ensures !Truthy(leetCodeUrl) ==> p == PersonaInstructions + "\n"
  {
    if Truthy(leetCodeUrl) then
      ContainsInfix(PersonaInstructions, ProblemContext(leetCodeUrl.value), "\n");
      PersonaInstructions + ProblemContext(leetCodeUrl.value) + "\n"
    else
      PersonaInstructions + "\n"
  }

  /** A truthy URL appears verbatim in the system prompt. */
  lemma SystemPromptMentionsUrl(url: string)
    requires url != ""
    ensures Contains(SystemPrompt(Some(url)), url)
  {
    ContainsNested(PersonaInstructions, ProblemIntro, url, ProblemGuidance, "\n");
  }

  /** The two fixed entries that open every transcript. */
  function Preamble(leetCodeUrl: Option<string>): seq<Entry> {
    [Entry(UserTurn, SystemPrompt(leetCodeUrl)), Entry(ModelTurn, Acknowledgment)]
  }

  /** The history starts with the page's assistant greeting, which is left out. */
  predicate SkipsGreeting(messages: seq<WireMessage>) {
    |messages| > 0 && messages[0].role == "assistant"
  }

  /** The messages that enter the transcript. */
  function Kept(messages: seq<WireMessage>): seq<WireMessage> {
    if SkipsGreeting(messages) then messages[1..] else messages
  }

  function Label(userTurn: bool): ProviderRole {
    if userTurn then UserTurn else ModelTurn
  }

  /** The messages re-labelled by position, starting with the given turn and
      alternating, whatever role each message carries. */
  function Relabel(messages: seq<WireMessage>, userTurn: bool): (entries: seq<Entry>)
    ensures |entries| == |messages|
  {
    if messages == [] then []
    else [Entry(Label(userTurn), messages[0].content)] + Relabel(messages[1..], !userTurn)
  }

  /** The transcript the handler builds: preamble, then the kept messages. */
  function Transcript(messages: seq<WireMessage>, leetCodeUrl: Option<string>): seq<Entry> {
    Preamble(leetCodeUrl) + Relabel(Kept(messages), true)
  }

  /** Entry `k` of a relabelled run keeps message `k`'s content; its label
      depends only on `k`'s parity. */
  lemma {:induction false} RelabelAt(messages: seq<WireMessage>, userTurn: bool, k: nat)
    requires k < |messages|
    ensures Relabel(messages, userTurn)[k] == Entry(Label(userTurn == (k % 2 == 0)), messages[k].content)
  {
    if k > 0 {
      RelabelAt(messages[1..], !userTurn, k - 1);
    }
  }

  /** Relabelling one more message adds one entry at the end. */
  lemma {:induction false} RelabelSnoc(messages: seq<WireMessage>, m: WireMessage, userTurn: bool)
    ensures Relabel(messages + [m], userTurn) ==
            Relabel(messages, userTurn) + [Entry(Label(userTurn == (|messages| % 2 == 0)), m.content)]
  {
    if messages != [] {
      assert (messages + [m])[1..] == messages[1..] + [m];
      RelabelSnoc(messages[1..], m, !userTurn);
    }
  }

  /** Relabelling reads the contents only, never the roles. */
  lemma {:induction false} RelabelIgnoresRoles(a: seq<WireMessage>, b: seq<WireMessage>, userTurn: bool)
    requires |a| == |b|
    requires forall i :: 0 <= i < |a| ==> a[i].content == b[i].content
    ensures Relabel(a, userTurn) == Relabel(b, userTurn)
  {
    if a != [] {
      RelabelIgnoresRoles(a[1..], b[1..], !userTurn);
    }
  }

  /** The transcript position by position: the two preamble entries, then every
      message but a leading assistant greeting, in order, content unchanged,
      labelled user, model, user, ... by position. */
  lemma TranscriptShape(messages: seq<WireMessage>, leetCodeUrl: Option<string>)
    ensures var t, d := Transcript(messages, leetCodeUrl), if SkipsGreeting(messages) then 1 else 0;
      && |t| == 2 + |messages| - d
      && t[0] == Entry(UserTurn, SystemPrompt(leetCodeUrl))
      && t[1] == Entry(ModelTurn, Acknowledgment)
      && forall k :: 0 <= k < |messages| - d ==>
           t[2 + k] == Entry(if k % 2 == 0 then UserTurn else ModelTurn, messages[k + d].content)
  {
    var t, kept := Transcript(messages, leetCodeUrl), Kept(messages);
    var d := if SkipsGreeting(messages) then 1 else 0;
    forall k | 0 <= k < |messages| - d
      ensures t[2 + k] == Entry(if k % 2 == 0 then UserTurn else ModelTurn, messages[k + d].content)
    {
      RelabelAt(kept, true, k);
      assert kept[k] == messages[k + d];
    }
  }

  /** Two histories that differ only in roles (other than a leading assistant
      greeting) give the same transcript. */
  lemma TranscriptIgnoresRoles(a: seq<WireMessage>, b: seq<WireMessage>, leetCodeUrl: Option<string>)
    requires |a| == |b| && SkipsGreeting(a) == SkipsGreeting(b)
    requires forall i :: 0 <= i < |a| ==> a[i].content == b[i].content
    ensures Transcript(a, leetCodeUrl) == Transcript(b, leetCodeUrl)
  {
    var d := if SkipsGreeting(a) then 1 else 0;
    var ka, kb := Kept(a), Kept(b);
    assert |ka| == |kb| == |a| - d;
    forall i | 0 <= i < |ka| ensures ka[i].content == kb[i].content {
      assert ka[i] == a[i + d] && kb[i] == b[i + d];
    }
    RelabelIgnoresRoles(ka, kb, true);
  }

  /** A greeting followed by one question: the greeting is dropped and the
      first relabelled entry is the user's question. */
  lemma GreetingDroppedExample()
    ensures Transcript([WireMessage("assistant", "Hi"), WireMessage("user", "Q1")], None)[2] == Entry(UserTurn, "Q1")
    ensures |Transcript([WireMessage("assistant", "Hi"), WireMessage("user", "Q1")], None)| == 3
  {
  }

  /** After a failed turn the history holds two user messages in a row; the
      second is then labelled as the model's, and so is everything after it
      shifted. Preserved as the handler does it. */
  lemma ConsecutiveUserTurnsRelabelled(greeting: string, q1: string, q2: string, q3: string)
    ensures var t := Transcript([WireMessage("assistant", greeting)] +
                                [WireMessage("user", q1), WireMessage("user", q2), WireMessage("user", q3)], None);
      t[2] == Entry(UserTurn, q1) && t[3] == Entry(ModelTurn, q2) && t[4] == Entry(UserTurn, q3)
  {
    var kept := [WireMessage("user", q1), WireMessage("user", q2), WireMessage("user", q3)];
    assert Kept([WireMessage("assistant", greeting)] + kept) == kept;
    RelabelAt(kept, true, 1);
    RelabelAt(kept, true, 2);
  }

  /** One loop step of the builder: relabelling one more message. */
  lemma RelabelExtend(messages: seq<WireMessage>, start: nat, i: nat)
    requires start <= i < |messages|
    ensures Relabel(messages[start..i + 1], true) ==
            Relabel(messages[start..i], true) + [Entry(Label((i - start) % 2 == 0), messages[i].content)]
  {
    assert messages[start..i + 1] == messages[start..i] + [messages[i]];
    RelabelSnoc(messages[start..i], messages[i], true);
  }

  /** The builder as the handler writes it: the preamble, then a loop that
      skips a leading assistant message and appends the rest under a flag
      that flips after every append. */
  method BuildTranscript(messages: seq<WireMessage>, leetCodeUrl: Option<string>) returns (t: seq<Entry>)
    ensures t == Transcript(messages, leetCodeUrl)
  {
    t := Preamble(leetCodeUrl);
    var isUserMessage := true;
    ghost var start := 0;
    for i := 0 to |messages|
      invariant start == (if i > 0 && SkipsGreeting(messages) then 1 else 0)
      invariant t == Preamble(leetCodeUrl) + Relabel(messages[start..i], true)
      invariant isUserMessage == ((i - start) % 2 == 0)
    {
      if i == 0 && messages[i].role == "assistant" {
        start := 1;
        continue;
      }
      RelabelExtend(messages, start, i);
      t := t + [Entry(Label(isUserMessage), messages[i].content)];
      isUserMessage := !isUserMessage;
    }
    assert messages[start..|messages|] == Kept(messages);
  }

  // ----- History and prompt

  /** The session history is every entry but the last; the prompt is the last
      entry's text. */
  function SplitTranscript(t: seq<Entry>): (c: ProviderCall)
    requires |t| > 0
    ensures c.history + [Entry(t[|t| - 1].role, c.prompt)] == t
  {
    ProviderCall(t[..|t| - 1], t[|t| - 1].text)
  }

  /** The call made for a history: with no kept message the prompt is the
      acknowledgment and the history is the system prompt alone; otherwise the
      prompt is the last message's content and the history holds the preamble
      and the other kept messages. */
  lemma CallForHistory(messages: seq<WireMessage>, leetCodeUrl: Option<string>)
    ensures var c, kept := SplitTranscript(Transcript(messages, leetCodeUrl)), Kept(messages);
      && (kept == [] ==> c.prompt == Acknowledgment && c.history == [Entry(UserTurn, SystemPrompt(leetCodeUrl))])
      && (kept != [] ==> c.prompt == messages[|messages| - 1].content &&
                         c.history == Preamble(leetCodeUrl) + Relabel(kept[..|kept| - 1], true))
  {
    var kept := Kept(messages);
    if kept != [] {
      assert kept == kept[..|kept| - 1] + [kept[|kept| - 1]];
      RelabelSnoc(kept[..|kept| - 1], kept[|kept| - 1], true);
    }
  }

  // ----- Responses

  /** The rate-limit test on the error text, when there is one. */
  predicate MentionsRateLimit(message: Option<string>) {
    message.Some? && (Contains(message.value, "quota") || Contains(message.value, "rate"))
  }

  /** The catch block: the client library's own errors first, then a rate or
      quota mention, then everything else. */
  function ClassifyError(e: ThrownError): (r: HttpResponse)
    ensures r.status == 400 <==> e.name == ProviderErrorName
    ensures r.status == 429 <==> e.name != ProviderErrorName && MentionsRateLimit(e.message)
    ensures r.status == 400 || r.status == 429 || r.status == 500
    ensures r.status == 400 ==> r.body == ErrorBody(GenerationFailedError, e.message)
    ensures r.status == 429 ==> r.body == ErrorBody(RateLimitError, None)
    ensures r.status == 500 ==> r.body == ErrorBody(UnexpectedError, None)
  {
    if e.name == ProviderErrorName then HttpResponse(400, ErrorBody(GenerationFailedError, e.message))
    else if MentionsRateLimit(e.message) then ErrorResponse(429, RateLimitError)
    else ErrorResponse(500, UnexpectedError)
  }

  /** The rate test is a plain substring test: a message that says
      "generate" mentions "rate" and is answered 429, while the capitalised
      "Rate" alone is not. ("generate" is written in two pieces only so that
      the proof can place "rate" in it.) */
  lemma RateTestIsSubstringTest()
    ensures ClassifyError(ThrownError("Error", Some("Failed to gene" + "rate"))).status == 429
    ensures ClassifyError(ThrownError("Error", Some("Rate"))).status == 500
  {
    ContainsInfix("Failed to gene", "rate", "");
    assert "Failed to gene" + "rate" + "" == "Failed to gene" + "rate";
    forall i: nat ensures !OccursAt("Rate", "rate", i) {
      if i == 0 {
        assert "Rate"[0..4][0] != "rate"[0];
      }
    }
    assert !OccursAt("Rate", "quota", 0);
  }

  /** The response for the hosted model's outcome. */
  function Answer(outcome: ProviderOutcome): (r: HttpResponse)
    ensures r.status == 200 <==> outcome.Replied?
    ensures outcome.Replied? ==> r.body == Reply(outcome.text, "assistant", "success")
  {
    match outcome
    case Replied(text) => HttpResponse(200, Reply(text, "assistant", "success"))
    case Failed(e) => ClassifyError(e)
  }

  /** The handler: parse, check in order, build and split the transcript,
      call the hosted model once, and answer. A failing check returns before
      any later check and before the model is called. */
  method Post(body: RequestBody, apiKey: Option<string>, outcome: ProviderOutcome)
    returns (call: Option<ProviderCall>, response: HttpResponse)
    ensures body.Unparsable? ==> call == None && response == ClassifyError(body.error)
    ensures body.Parsed? && CheckRequest(body.request, apiKey).Some? ==>
              call == None && response == CheckRequest(body.request, apiKey).value
    ensures body.Parsed? && CheckRequest(body.request, apiKey) == None ==>
              && call == Some(SplitTranscript(Transcript(body.request.messages.items, body.request.leetCodeUrl)))
              && response == Answer(outcome)
    ensures response.status == 200 <==> call.Some? && outcome.Replied?
    ensures response.status == 200 ==> response.body.Reply? && response.body.role == "assistant" && response.body.status == "success"
  {
    if body.Unparsable? {
      return None, ClassifyError(body.error);
    }
    var req := body.request;
    var rejected := CheckRequest(req, apiKey);
    if rejected.Some? {
      return None, rejected.value;
    }
    var t := BuildTranscript(req.messages.items, req.leetCodeUrl);
    call := Some(SplitTranscript(t));
    response := Answer(outcome);
  }
}
