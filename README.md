# VirtualVince chat: a verified model of the conversation store and the completion proxy

VirtualVince is a one-page chat widget. The page keeps a transcript of
`{content, role}` messages, a busy flag (`processing`), the token count the
last reply reported, and the form's own text and typing indicator. The user's
message is appended at once ("optimistic append"), the whole list goes to a
server procedure that prepends a fixed persona instruction and asks the
completion service for one continuation, and the reply is appended when it
arrives. A `welcome` query fetches the greeting when the page mounts; each
time its data arrives, the greeting replaces the transcript.

The model has six modules:

- `ChatTypes` (`chat_types.dfy`): roles, messages and an `Option` for fields that may be `undefined`.
- `ChatRouter` (`chat_router.dfy`): the three router procedures `send`, `welcome` and `example` as functions.
  This covers input validation, request construction and projection of the service's answer.
  The completion service is a function parameter `complete` that may fail (`None`).
- `ChatRouterProps` (`chat_router_props.dfy`): what the proxy promises, as lemmas.
- `ChatPage` (`chat_page.dfy`): the page's state as a `Store` value, with one function per event.
  It also holds the predicates the rendering reads (button disabled, form shown, typing placeholder, textarea rows).
  It defines runs of events (`Run`) and the invariant `Inv` that every reachable state keeps.
- `ChatPageProps` (`chat_page_props.dfy`): what the page promises, as lemmas about those functions.
- `ChatSession` (`chat_session.dfy`): the page as an object, class `Session`.
  Its fields are the state hooks, and each event handler updates them in place.
  Each method is proved equal to its `ChatPage` function and to keep `Inv`.
  Two client methods run whole scenarios on a fresh page.

Behaviour of the code that the model keeps:

- The length guard is strict (`> 10`), but "too short" fires only below 10.
  On an idle page a 10-character message is refused silently, although its send button is enabled.
- The busy flag never disables the send button: the button is enabled whenever the text has 10 to 200 characters.
  At mount the text is empty, so the button is disabled; an Enter-key submit then alerts both "too short" and "wait" (`WelcomeOpensConversation`).
  A submit on a busy page is refused only by the guard, with the "wait" alert (`BusyButtonStaysEnabled`).
- The 750 ms delay that sets `processing` is never cancelled.
  If it fires after the reply, the page is left busy.
- A rejected proxy call runs no callback.
  Once its delay has fired, while no other call is pending and no greeting arrives, the page stays busy through any further events (`NoRecoveryWithoutReply`).
- A reply overwrites the token count. An absent `total_tokens` makes it `undefined`.
  `undefined < 500` is false, so the form disappears.
- An absent reply message is pushed as `undefined`. The `as MessageType` cast does not check it.
  Transcript entries are therefore `Option<Message>`.
  A greeting without a message is stored the same way.
  The next render reads the role of every entry, so it throws on such an entry (`RenderThrows`, `AbsentMessageBreaksRender`).
- Each call's callback pushes the reply onto the list it captured when the message was submitted, then shows that list.
- `processing` is set only when the 750 ms delay fires, so a second valid message submitted before then is accepted.
  Two completion requests are then in flight at once (`TwoCallsInFlight`).
  The first call's reply then replaces the second user message in the transcript (`FirstReplyDropsSecondMessage`).
- The greeting may arrive at any time and more than once, as a refetch of the greeting query would deliver it.
  Each arrival replaces the whole transcript with the greeting and clears the busy flag.

## Model

| member | source | states |
|---|---|---|
| `ChatRouter.ParseChatRole` | src/server/api/routers/chat.ts:80 | A role name is admitted iff it is "user" or "assistant"; the parsed role names back to the same string and is never the system role |
| `ChatRouter.Validate` | src/server/api/routers/chat.ts:76-85 | The `send` input is accepted iff every message's role is admitted; an accepted list keeps its length, order, contents and role names |
| `ChatRouter.EncodeAll` | src/pages/index.tsx:89-90 | The list the page passes to `send` becomes wire messages one for one, each carrying its role's name and its content, in the shape the `send` input schema (src/server/api/routers/chat.ts:78-83) reads |
| `ChatRouter.SendRequest` | src/server/api/routers/chat.ts:87-95 | The `send` request has length of the history plus one; its head is the system prompt and its tail is the history in order; model gpt-3.5-turbo, no token limit |
| `ChatRouter.WelcomeRequest` | src/server/api/routers/chat.ts:59-68 | The `welcome` request holds exactly the system prompt and asks for at most 100 tokens |
| `ChatRouter.Project` | src/server/api/routers/chat.ts:98-101 | The result carries the first choice's message and the usage total, each present exactly when the answer has it |
| `ChatRouter.Send` | src/server/api/routers/chat.ts:75-102 | Fails with a bad request iff validation refuses the input (some role not admitted), with an upstream error iff the service call fails; otherwise returns the projection of the answer to the built request |
| `ChatRouter.Welcome` | src/server/api/routers/chat.ts:58-74 | Fails iff the service call fails; otherwise returns the projection of the answer to the greeting request |
| `ChatRouter.Example` | src/server/api/routers/chat.ts:22-57 | The stub answers as the assistant with "Answer to your question: " followed by exactly the question's content |
| `ChatRouterProps.ParseChatRoleRoundTrip` | src/server/api/routers/chat.ts:80 | Parsing a role's name gives that role back for user and assistant, and nothing for system |
| `ChatRouterProps.ValidateEncoded` | src/server/api/routers/chat.ts:78-83 | A history without system messages passes validation unchanged; one with a system message is refused |
| `ChatRouterProps.SendForwardsHistory` | src/server/api/routers/chat.ts:86-101 | For a valid history, the service sees the system prompt followed by the whole history, and the page receives the projection of its answer |
| `ChatRouterProps.SendRejectsSystemRole` | src/server/api/routers/chat.ts:80 | A history holding a system message is refused before the service is called |
| `ChatRouterProps.ProjectCases` | src/server/api/routers/chat.ts:70-73 | An answer with a first choice and a usage projects to that choice's message and that total; an answer without choices and usage projects to two absent fields |
| `ChatRouterProps.WelcomeIsSendOfNothing` | src/server/api/routers/chat.ts:59-68 | The greeting request is the `send` request of an empty history with a 100-token budget |
| `ChatPage.SubmitDisabled` | src/pages/index.tsx:144 | The send button is enabled exactly for texts of 10 to 200 characters |
| `ChatPage.FormVisible` | src/pages/index.tsx:277-279 | The form is shown iff the token count is a number below 500; an `undefined` count hides it |
| `ChatPage.PlaceholderShown` | src/pages/index.tsx:206 | The typing placeholder is shown exactly when a submit would be refused with "wait" |
| `ChatPage.Rows` | src/pages/index.tsx:125-129 | The textarea has at least 3 rows and at least one per line, and exactly 3 or exactly the line count |
| `ChatPage.Accepts` | src/pages/index.tsx:59-63 | An accepted message has its button enabled on an idle page; the only enabled message an idle page refuses has length 10 |
| `ChatPage.RejectionAlerts` | src/pages/index.tsx:66-79 | "Too short" is raised iff length < 10, "too long" iff length > 200, "wait" iff busy; no alert iff the length is 10 to 200 on an idle page; "wait" comes last |
| `ChatPage.Submit` | src/pages/index.tsx:56-99 | A submit is accepted iff 10 < length <= 200 on an idle page; a rejected one changes nothing and raises the rejection alerts; an accepted one appends exactly the user's message after the earlier entries, sends and records that list as a pending call, schedules one delay, empties the input, clears typing and keeps the busy flag, token count and typing timer |
| `ChatPage.DelayElapsed` | src/pages/index.tsx:85-87 | A fired delay sets the busy flag, consumes one scheduled delay and changes nothing else |
| `ChatPage.Reply` | src/pages/index.tsx:89-98 | Settling a call removes exactly that call; a rejected call changes nothing else; a resolved one shows the list the call captured plus the reply, overwrites the token count with the reply's and clears the busy flag; the input and typing flag are kept while the form stays shown and cleared when it is hidden |
| `ChatPage.Input` | src/pages/index.tsx:101-110 | A keystroke sets the text, shows typing, starts a newer typing timer and leaves the transcript, busy flag, token count and pending work alone |
| `ChatPage.TypingTimerFires` | src/pages/index.tsx:105-109 | Any timer but the latest (a cancelled one) changes nothing; the latest clears the typing flag and nothing else |
| `ChatPage.WelcomeLoaded` | src/pages/index.tsx:246-251 | The greeting becomes the only entry and clears the busy flag; token count, form and pending work are unchanged |
| `ChatPage.Segments` | src/pages/index.tsx:126 | Splitting the input text on carriage returns and line feeds gives at least one piece, and no piece contains a line break |
| `ChatPage.RemoveAt` | src/pages/index.tsx:89-98 | Settling one pending call drops exactly that call and keeps the others in order |
| `ChatPageProps.SegmentsCount` | src/pages/index.tsx:126 | The split gives exactly one more piece than the text has line-break characters |
| `ChatPageProps.SegmentsJoin` | src/pages/index.tsx:126 | Joining the pieces gives back the text without its line breaks |
| `ChatPageProps.SegmentsOfLine` | src/pages/index.tsx:126 | A text without line breaks splits into itself alone |
| `ChatPageProps.SegmentsSplitAtBreak` | src/pages/index.tsx:126 | A line break splits the text exactly where it stands: the pieces are those of the text before it followed by those of the text after it |
| `ChatPageProps.RowsCount` | src/pages/index.tsx:125-129 | The textarea has max(3, number of lines) rows |
| `ChatPageProps.RejectionAlertsExact` | src/pages/index.tsx:66-79 | A rejected submit alerts "too short" iff length < 10, "too long" iff length > 200, "wait" iff busy; it alerts nothing iff length is 10 on an idle page |
| `ChatPageProps.RoundAppendsTwo` | src/pages/index.tsx:89-97 | A submit followed by its reply grows the transcript by exactly two entries, the user's message then the reply, and leaves the page idle with the reply's token count |
| `ChatPageProps.BusyButtonStaysEnabled` | src/pages/index.tsx:75-77 | On a busy page a text of 10 to 200 characters has the button enabled, and its submit is refused with exactly the "wait" alert |
| `ChatPageProps.DelayAfterReplyLeavesBusy` | src/pages/index.tsx:85-87 | The delay still fires after the reply and sets the busy flag, so the typing placeholder reappears |
| `ChatPageProps.AbsentMessageBreaksRender` | src/pages/index.tsx:181-183 | A resolved reply or a greeting without a message leaves an absent entry in the transcript, whose role the next render reads |
| `ChatPageProps.NoRecoveryWithoutReply` | src/pages/index.tsx:75-77 | A busy page with no pending call stays busy with no pending call through any sequence of events that holds no greeting, and every submit in it is refused with "wait" |
| `ChatPageProps.TwoCallsInFlight` | src/pages/index.tsx:56-90 | A second valid message submitted before the delay fires is accepted, so two calls are pending |
| `ChatPageProps.FirstReplyDropsSecondMessage` | src/pages/index.tsx:57-95 | With two calls pending, the first reply shows the list its call captured: the reply takes the second user message's place |
| `ChatPageProps.OnlyLatestTimerClearsTyping` | src/pages/index.tsx:101-110 | A keystroke sets the text and shows typing; a cancelled timer leaves typing shown, the latest timer clears it |
| `ChatPageProps.WelcomeOpensConversation` | src/pages/index.tsx:235-251 | At mount the transcript is empty, the page is busy, tokens are 0 and the form is shown with its button disabled; an Enter-key submit alerts "too short" then "wait"; the greeting becomes the only entry and frees the page with tokens still 0 |
| `ChatPageProps.InitialInv` | src/pages/index.tsx:235-237 | The mounted page satisfies the store invariant |
| `ChatPageProps.SubmitPreservesInv` | src/pages/index.tsx:56-90 | A submit keeps the invariant: the new call's list ends with the user message just appended |
| `ChatPageProps.ReplyPreservesInv` | src/pages/index.tsx:91-97 | Settling a call keeps the invariant, also when the new token count hides the form |
| `ChatPageProps.StepPreservesInv` | src/pages/index.tsx:56-110 | Every event keeps the invariant |
| `ChatPageProps.RunPreservesInv` | src/pages/index.tsx:56-110 | Every run of events keeps the invariant |
| `ChatPageProps.PendingCallsEndWithUserMessage` | src/pages/index.tsx:57-64 | In every reachable state, each pending call's list ends with a user message of length 11 to 200 |
| `ChatSession.Session.constructor` | src/pages/index.tsx:235-237 | A new page has an empty transcript, is busy, has used 0 tokens and an empty input |
| `ChatSession.Session.Submit` | src/pages/index.tsx:56-99 | Submitting updates the fields and returns the alerts and the sent list exactly as `ChatPage.Submit` says, keeping the invariant |
| `ChatSession.Session.DelayElapsed` | src/pages/index.tsx:85-87 | A fired delay sets the busy flag and consumes one scheduled delay |
| `ChatSession.Session.Reply` | src/pages/index.tsx:91-97 | A settled call updates the fields as `ChatPage.Reply` says, keeping the invariant |
| `ChatSession.Session.Input` | src/pages/index.tsx:101-110 | A keystroke sets the text, shows typing and starts a new typing timer |
| `ChatSession.Session.TypingTimerFires` | src/pages/index.tsx:107-109 | Only the latest typing timer clears the indicator |
| `ChatSession.Session.WelcomeLoaded` | src/pages/index.tsx:246-251 | The greeting becomes the transcript and the page is no longer busy |
| `ChatSession.OneRound` | src/pages/index.tsx:56-99 | On a fresh page, greeting, a valid message and its reply give the transcript [greeting, message, reply], an idle page and the reply's token count |
| `ChatSession.SilentRejection` | src/pages/index.tsx:59-80 | On an idle page a 10-character message has its button enabled, yet its submit raises no alert and leaves the transcript unchanged |

## Left out

- What happens after the render throws is not modelled.
  Once an absent entry is in the transcript (`RenderThrows`), reading its role at src/pages/index.tsx:183 throws, and the file has no error boundary, so React unmounts the page.
  The model's later states then describe a page nobody sees.
- Rendering is not modelled: the JSX, CSS classes, markdown rendering, avatars and the auto-scroll effect (src/pages/index.tsx:169-177).
  Only the predicates the rendering reads are modelled.
- Timer durations and asynchronous scheduling are not modelled. The 750 ms delay, the 1500 ms typing timer and the stub's 3000 ms sleep are discrete events that may occur in any enabled order.
- Two events handled within one render, before React re-renders, are not modelled. Such events would still see the older `messages`, `message` and `processing` values.
- Message lengths count characters, while JavaScript's `length` counts UTF-16 code units.
  A character outside the Basic Multilingual Plane counts once here and twice in the page.
- `alert` is not modelled as a side effect; the alerts are returned as a sequence, in the order they are raised.
- The completion service, its client, the API key and the network are not modelled. They are the parameter `complete`, which may fail or return any answer.
- zod and tRPC internals are not modelled, and neither is the list's serialisation.
  Validation is stated over wire messages carrying role names.
  An `undefined` entry in the page's list, sent back to `send`, is not modelled.
- The `example` stub's fixed response fields other than the message (id, created, usage 21) are not modelled: the procedure never returns them.
- The greeting's `total_tokens` is not modelled because the page ignores it.
  When the greeting query refetches is not modelled: a greeting may arrive at any point, any number of times.
- `ChatSession.Session.Submit`, `ChatSession.Session.Input`: these require the form to be visible. The form is not rendered otherwise, so these events cannot occur then.
  When a reply hides the form, the model clears the form's text and typing flag at once. The page does this on remount; nothing can read them in between.
- tailwind.config.ts is not modelled: it holds styling only.
