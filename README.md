# DSA teaching assistant: chat turn and client state, in Dafny

This project models the logic of a small web chat application. A learner
pastes a LeetCode problem link and asks questions. A server route sends the
conversation to a hosted language model that is told to act as a Socratic
tutor. The model has six parts, one module per source file:

- **TurnAdapter** (`app/api/chat/route.ts`): the server route.
  - It checks the request in a fixed order: `messages` must be an array, a
    truthy `leetCodeUrl` must match the problem-URL pattern, and the API key
    must be present.
  - It builds the transcript for the model: a two-entry persona preamble,
    then the history without a leading assistant greeting. Each kept message
    is labelled `user`, `model`, `user`, ... by its position, whatever role it
    carries.
  - It splits the transcript into the model's history and the prompt.
  - It answers with the reply, or maps a caught error to 400, 429 or 500.
- **ChatSession** (`lib/use-chat.ts`): the client chat hook.
  - It holds the history, the input, the in-flight flag and the last error.
  - Submit appends the user's message before the request goes out, then
    settles with the outcome. Reset restores the initial history.
- **ChatPage** (`app/chat/page.tsx`): the chat page.
  - Its own URL check accepts the empty field.
  - The toast for a failed turn is chosen in order, case-sensitively.
  - It shows only the last 100 messages.
  - It has the URL-field handler, new chat, and the send button's state.
- **LandingChat** (`app/page.tsx`): the older chat on the landing page.
  - The first question is composed from the URL and the question text.
  - The handlers have no in-flight check of their own. Only the submit
    buttons are disabled while loading, and the model does not render them.
  - A failure appends an apology.
  - Every accepted submit adds exactly two messages.
- **DemoStepper** (`components/demo-section.tsx`): a step counter over a
  fixed four-exchange demo, with Next and Previous buttons and a prefix view.
- **Toasts** (`components/ui/use-toast.ts`): a first-in, first-out toast
  list. A push goes to the back; an expiry drops the front.

There are two helper modules. **Strings** has JavaScript's `trim()`, whose
result is only ever compared with the empty string, and `includes()`,
defined as a search and proved equal to "occurs at some index". **Wrappers**
has `Option`.

Parts that change state step by step are classes with `modifies` clauses:
`Session`, `Page`, `Landing`, `Stepper` and `Toaster`. The route's
transcript loop is the method `BuildTranscript`, proved equal to the
function `Transcript`. The hook's asynchronous submit is split at its
`await` into `BeginSubmit` and `Settle`; `HandleSubmit` runs them with
nothing in between.

Three behaviours of the code are easy to miss, and the model keeps them as
written:

- The key check runs only after the message and URL checks, so a bad
  request without a key gets 400, not 500
  (`TurnAdapter.MissingKeyNeverReachesProvider`).
- The catch block never tests an error's text for "API key". It sorts
  errors by the error's name, then by "quota" or "rate" in the message, and
  everything else gets the generic 500. The missing-key 500 comes from the
  earlier check. Only the chat page's toast looks for "API key".
- The rate test is a case-sensitive substring test. "generate" counts as a
  rate mention, while the server's own "Rate limit exceeded" text does not
  match the page's `"rate limit"` test. That text therefore gets the generic
  toast (`ChatPage.RateLimitTextGetsGenericToast`).

## Model

| member | source | states |
|---|---|---|
| Strings.TrimEmptyIffBlank | lib/use-chat.ts:33 | `!s.trim()` holds exactly when every character of `s` is ECMAScript whitespace or a line terminator |
| Strings.Contains | app/api/chat/route.ts:149 | `includes` is true exactly when the text occurs at some index |
| TurnAdapter.ValidateLeetCodeUrl | app/api/chat/route.ts:168-171 | an accepted URL extends the `https://<host>/problems/` stem of one of the two hosts with a slug character; that it accepts exactly what the pattern matches is `TurnAdapter.ValidateMatchesPattern` |
| TurnAdapter.ValidateMatchesPattern | app/api/chat/route.ts:169 | the check accepts exactly the strings the pattern matches: `https://`, one of the two hosts, `/problems/`, one or more of `[a-zA-Z0-9-]`, then anything, since there is no end anchor |
| TurnAdapter.ValidateAcceptsExamples | app/api/chat/route.ts:169 | a `.com` and a `.cn` problem URL are accepted, and so is one with a query string after the slug |
| TurnAdapter.ValidateRejectsExamples | app/api/chat/route.ts:169 | a non-URL, a URL with an empty slug, one with `//` after `/problems` and an `http:` URL are rejected |
| TurnAdapter.CheckRequest | app/api/chat/route.ts:13-40 | the first failing check decides the response (non-array 400, then bad truthy URL 400, then missing key 500); the request goes on exactly when all three pass |
| TurnAdapter.MissingKeyNeverReachesProvider | app/api/chat/route.ts:33-40 | without a key no request goes on; the status is 500 only when the earlier checks pass, otherwise 400 |
| TurnAdapter.SystemPrompt | app/api/chat/route.ts:47-79 | the prompt starts with the instructions; for a falsy URL it is exactly the instructions and the closing newline; for a truthy URL it is longer and contains the problem block |
| TurnAdapter.SystemPromptMentionsUrl | app/api/chat/route.ts:68-78 | a truthy URL appears verbatim in the system prompt |
| TurnAdapter.RelabelAt | app/api/chat/route.ts:100-103 | kept entry `k` has message `k`'s content, and its label depends only on the parity of `k` |
| TurnAdapter.RelabelIgnoresRoles | app/api/chat/route.ts:100-103 | relabelling reads contents only: two runs with equal contents give equal entries whatever their roles |
| TurnAdapter.TranscriptShape | app/api/chat/route.ts:82-107 | the transcript is the system prompt as `user`, the acknowledgment as `model`, then every message except a leading assistant one, in order with content unchanged, labelled `user` at even and `model` at odd kept positions |
| TurnAdapter.TranscriptIgnoresRoles | app/api/chat/route.ts:95-107 | only whether message 0 is an assistant message matters; otherwise the stored roles never affect the transcript |
| TurnAdapter.GreetingDroppedExample | app/api/chat/route.ts:98 | a greeting followed by one question gives a three-entry transcript whose third entry is that question as `user` |
| TurnAdapter.ConsecutiveUserTurnsRelabelled | app/api/chat/route.ts:95-107 | three user messages in a row after the greeting are labelled `user`, `model`, `user` |
| TurnAdapter.BuildTranscript | app/api/chat/route.ts:82-107 | the loop with its skip and its flipping flag builds exactly `Transcript` |
| TurnAdapter.SplitTranscript | app/api/chat/route.ts:110-122 | the history with the prompt added as a last entry gives back the whole transcript |
| TurnAdapter.CallForHistory | app/api/chat/route.ts:110-122 | with no kept message the prompt is the acknowledgment and the history is the system prompt; otherwise the prompt is the last message's content and the history is the preamble plus the other kept messages |
| TurnAdapter.ClassifyError | app/api/chat/route.ts:137-163 | 400 exactly for the client library's error name, with its message as details; 429 exactly for other errors whose message mentions "quota" or "rate"; 500 otherwise; each with its fixed text |
| TurnAdapter.RateTestIsSubstringTest | app/api/chat/route.ts:149 | a message mentioning "generate" is answered 429, while "Rate" alone is answered 500 |
| TurnAdapter.Answer | app/api/chat/route.ts:126-133 | 200 exactly for a reply, whose body carries the text with role `"assistant"` and status `"success"` |
| TurnAdapter.Post | app/api/chat/route.ts:8-164 | an unparsable body is classified and a failing check is returned, both without calling the model; otherwise the model gets the split transcript; 200 exactly when the model was called and replied, and then with role `"assistant"` and status `"success"` |
| ChatSession.ToWire | lib/use-chat.ts:55-57 | the JSON history has one element per message, with its role name and content, in order |
| ChatSession.ToWireAppend | lib/use-chat.ts:56 | the history sent with the new message appended is the old history's JSON followed by the new message's |
| ChatSession.FailureText | lib/use-chat.ts:65-68 | a refused response gives the server's `error` when truthy, else `"Failed to fetch the chat response."`; a throw keeps its message |
| ChatSession.AdapterErrorsReachSession | lib/use-chat.ts:65-68 | every non-empty error text the server sends, including all six of its fixed texts, reaches the client unchanged |
| ChatSession.AdapterErrorsDifferFromFallback | lib/use-chat.ts:65-68 | none of the server's six fixed error texts is recorded as the client's fallback text |
| ChatSession.SubmitAcceptedIffNotBlank | lib/use-chat.ts:33 | submit goes ahead exactly when the input is not all whitespace and nothing is in flight |
| ChatSession.SubmittedInputIsPrompt | lib/use-chat.ts:55-57 | whatever the history, the submitted input is the prompt the server sends to the model |
| ChatSession.Session.constructor | lib/use-chat.ts:22-26 | the initial history, empty input, not loading, no error |
| ChatSession.Session.SetInput | lib/use-chat.ts:24 | only the input changes |
| ChatSession.Session.BeginSubmit | lib/use-chat.ts:33-59 | a rejected submit changes nothing; an accepted one sets loading, clears the error, appends one user message with the untrimmed input, clears the input and sends the old history plus that message with the extra body |
| ChatSession.Session.Settle | lib/use-chat.ts:65-89 | a reply appends exactly one assistant message; a failure appends nothing, records the failure text and reports it; loading ends either way |
| ChatSession.Session.HandleSubmit | lib/use-chat.ts:29-92 | the whole submit: request, history and error as the two halves give them, input cleared, not loading; a rejected submit changes nothing |
| ChatSession.Session.Reset | lib/use-chat.ts:95-99 | back to the initial history with empty input and no error; the loading flag is left as it was |
| Toasts.Stored | components/ui/use-toast.ts:15 | the title and description are stored as given, and an omitted variant is stored as `default` |
| Toasts.Expired | components/ui/use-toast.ts:19-21 | expiry drops exactly the first entry, and an empty list stays empty |
| Toasts.ExpiryIsFifo | components/ui/use-toast.ts:15-21 | as many expiries as there are older toasts remove exactly those, whatever was pushed after them |
| Toasts.ExpiryCommutesWithPush | components/ui/use-toast.ts:15-21 | on a non-empty list, pushing then expiring equals expiring then pushing |
| Toasts.Toaster.constructor | components/ui/use-toast.ts:13 | the list starts empty |
| Toasts.Toaster.Push | components/ui/use-toast.ts:15-16 | one entry is added at the back and the earlier entries are unchanged |
| Toasts.Toaster.Expire | components/ui/use-toast.ts:19-21 | the list loses its oldest entry |
| ChatPage.ValidateLeetCodeUrl | app/chat/page.tsx:75-79 | the empty field is valid |
| ChatPage.PageAgreesWithServer | app/chat/page.tsx:75-79 | the page calls a URL valid exactly when the server's URL check lets it through; a URL the page flags is answered 400 with the invalid-URL text |
| ChatPage.ToastFor | app/chat/page.tsx:37-57 | in order and case-sensitively: "rate limit" gives the rate-limit toast, else "API key" gives the API-key toast, else the generic toast shows the message, or "Something went wrong" for an empty one; all are destructive |
| ChatPage.MissingKeyTextMentionsApiKey | app/chat/page.tsx:45 | the server's missing-key text contains "API key" |
| ChatPage.MissingKeyTextLacksRateLimit | app/chat/page.tsx:39 | the server's missing-key text does not contain "rate limit" |
| ChatPage.RateLimitTextLacksRateLimit | app/chat/page.tsx:39 | the server's "Rate limit exceeded..." text does not contain the lower-case "rate limit" |
| ChatPage.RateLimitTextLacksApiKey | app/chat/page.tsx:45 | the server's rate-limit text does not contain "API key" |
| ChatPage.FallbackTextLacksRateLimit | app/chat/page.tsx:38-39 | "Something went wrong" does not contain "rate limit" |
| ChatPage.FallbackTextLacksApiKey | app/chat/page.tsx:38-45 | "Something went wrong" does not contain "API key" |
| ChatPage.MissingKeyGetsApiKeyToast | app/chat/page.tsx:45-50 | the server's missing-key error is shown as the API-key toast |
| ChatPage.RateLimitTextGetsGenericToast | app/chat/page.tsx:39-56 | the server's rate-limit error is shown as the generic toast with the server's own text |
| ChatPage.EmptyMessageToast | app/chat/page.tsx:38-56 | an error with an empty message is shown as the generic toast "Something went wrong" |
| ChatPage.Window | app/chat/page.tsx:60 | the shown list has `min(100, n)` messages and is a suffix of the full history, which is not truncated |
| ChatPage.Page.constructor | app/chat/page.tsx:20-36 | an empty and valid URL field, a session on the welcome message, and no toasts |
| ChatPage.Page.HandleLeetCodeUrlChange | app/chat/page.tsx:81-85 | the field holds the text, and the flag equals the page's check of it |
| ChatPage.Page.HandleNewChat | app/chat/page.tsx:87-91 | the session is reset, the URL field emptied and marked valid |
| ChatPage.Page.Submit | app/chat/page.tsx:24-59 | the session's submit with the URL field as extra body, whether or not the URL is valid; a failure also pushes the toast chosen for its text; the URL field and its flag are unchanged, and so is their agreement |
| ChatPage.Page.SendDisabled | app/chat/page.tsx:153 | the send button is disabled exactly when the session would ignore a submit |
| ChatPage.Page.Shown | app/chat/page.tsx:60 | the window over the session's history, at most 100 messages |
| LandingChat.FullQuestionParts | app/page.tsx:50 | the first message reads back, by position, as `"LeetCode Problem: "`, the URL, `"\n\nMy Question: "` and the question |
| LandingChat.FullQuestionMentionsBoth | app/page.tsx:50 | the first message contains both the URL and the question |
| LandingChat.ReplyText | app/page.tsx:70-74 | an answered request appends its content, any failure the fixed apology |
| LandingChat.AdapterErrorsBecomeApology | app/page.tsx:66-74 | every non-200 response from the server becomes the same apology |
| LandingChat.RequestFor | app/page.tsx:61-63 | the body holds the prior history's JSON followed by the new user message, and no URL field |
| LandingChat.SentMessageIsPrompt | app/page.tsx:61-63 | whatever the prior history, the sent message is the prompt the server sends to the model |
| LandingChat.FirstQuestionCall | app/page.tsx:46-64 | from the greeting alone, the greeting is dropped: the model gets only the preamble as history and the composed question as prompt |
| LandingChat.Landing.constructor | app/page.tsx:20-30 | empty fields, not loading, the greeting as the history, and the first-question form showing |
| LandingChat.Landing.ShowsFirstQuestionForm | app/page.tsx:157 | in any reachable state, the first-question form shows exactly while the history is the greeting alone |
| LandingChat.Landing.SetLeetCodeUrl | app/page.tsx:165 | only the URL field changes |
| LandingChat.Landing.SetQuestion | app/page.tsx:175 | only the question field changes |
| LandingChat.Landing.SetInput | app/page.tsx:196 | only the follow-up input changes |
| LandingChat.Landing.AddMessage | app/page.tsx:38-44 | one message is appended at the end |
| LandingChat.Landing.Exchange | app/page.tsx:52-79 | the user message, then the reply or apology, appended in that order; the request is the prior history plus the user message; loading has ended |
| LandingChat.Landing.HandleLeetCodeSubmit | app/page.tsx:46-80 | a blank trimmed URL or question changes nothing; otherwise the composed message and its answer or the apology are appended (history grows by exactly 2), the URL and question are cleared whatever the outcome, loading has ended and the follow-up form shows |
| LandingChat.Landing.HandleFollowUpSubmit | app/page.tsx:82-113 | a blank trimmed input changes nothing; otherwise the untrimmed input and its answer or the apology are appended, the input is cleared whatever the outcome, and loading has ended |
| DemoStepper.SliceTo | components/demo-section.tsx:66 | JavaScript `slice(0, end)`: a prefix, of length `end` when `end` is in range, the whole list past the end |
| DemoStepper.HandlersStayInRange | components/demo-section.tsx:35-45 | from a step in `[0, 3]`, both handlers stay in `[0, 3]` |
| DemoStepper.HandlersMoveByOne | components/demo-section.tsx:35-45 | Next changes nothing exactly at or past the last step, and otherwise adds one; Previous changes nothing exactly at or below 0, and otherwise subtracts one |
| DemoStepper.HandlersUndoEachOther | components/demo-section.tsx:35-45 | in range, Previous undoes a Next that moved, and Next undoes a Previous that moved |
| DemoStepper.VisibleIsPrefix | components/demo-section.tsx:66 | at a step in range the first step + 1 exchanges are shown: always the first one, and all four at the last step, which is step 3 |
| DemoStepper.NextRevealsOneExchange | components/demo-section.tsx:66 | Next below the last step reveals exactly the next exchange |
| DemoStepper.RunStaysInRange | components/demo-section.tsx:35-45 | no sequence of presses leaves `[0, 3]` |
| DemoStepper.NextsReach | components/demo-section.tsx:35-39 | `n` presses of Next from a step in range reach `step + n`, capped at 3 |
| DemoStepper.Stepper.constructor | components/demo-section.tsx:10 | the counter starts at step 0 |
| DemoStepper.Stepper.HandleNext | components/demo-section.tsx:35-39 | the new step is Next's step, and the range is preserved |
| DemoStepper.Stepper.HandlePrevious | components/demo-section.tsx:41-45 | the new step is Previous's step, and the range is preserved |
| DemoStepper.Stepper.Shown | components/demo-section.tsx:66 | in range, the first `currentStep + 1` exchanges are shown |
| DemoStepper.Stepper.PreviousDisabled | components/demo-section.tsx:88 | in range, Previous is disabled exactly where it would change nothing |
| DemoStepper.Stepper.ShowsChatLink | components/demo-section.tsx:91-98 | the chat link replaces Next exactly where Next would change nothing, which in range is step 3 |

## Left out

- The hosted model's client library (client construction, `startChat`, `sendMessage`, `response.text()`) is foreign code. `Post` is given the model's outcome, a reply text or a thrown error, and returns the call it makes.
- `generationConfig` (temperature, topP, topK, token limit): numeric settings passed to the library, with no effect on the logic modelled.
- HTTP and JSON plumbing (`Request`, `Response`, headers, `fetch`, `response.ok`, `response.json()`) is abstracted. Requests and responses are datatypes, and a fetch ends as one of the outcome datatypes given as a parameter.
- JSON values of other types are left out: a non-string `leetCodeUrl`, array elements that are not `{role, content}` objects, a reply without `content`, and an `error` field that is not a string. `leetCodeUrl` is an optional string.
- A `messages` key inside the hook's extra `body` would override the history in the request object spread; the page never passes one, so the model does not read one.
- `onResponse` in the hook: the chat page passes none.
- The API key comes from the environment, so it is a parameter. It counts as present when it is given and not empty.
- React mechanics are left out: the hooks' dependency lists, stale closures, and the interleaving of two handlers in flight. Each handler runs to completion, and the hook's `BeginSubmit`/`Settle` split shows where interleaving could happen.
- The `useEffect` auto-scroll is left out: it has no state of its own.
- The toast timer's five-second delay is left out: a timer firing is the explicit `Expire` operation.
- Message ids (`nanoid`, `Date.now()`) are parameters. The model does not claim they are unique.
- The regular-expression engine is left out: the URL pattern is written out as a prefix test plus a character class.
- Wording is abbreviated where no property depends on it: the system prompt's instructions and problem guidance, the welcome and greeting messages, and the demo conversation. The error texts, the acknowledgment, the apology, the toast texts and the labels of the composed question are exact.
- Rendering and markup are left out: `components/chat-message.tsx`, the header, hero and feature sections, the theme toggle, and the build configuration.
- `console.error` logging is left out.
