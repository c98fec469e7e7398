# DominusAI chat controller, modelled in Dafny

DominusAI is a browser chat client for a generative assistant that answers
with text and generated images. Its conversations are kept as sessions in
local storage and can be listed and resumed. This project models the
client's core:

- the records of `types.ts`: `Message`, `ChatSession`, `UserMemory` and the
  `ModelType` enum (module `Types`);
- the state of the `App` component in `App.tsx`: the active `session`, the
  listed `sessions`, `isLoading` and `isSidebarOpen`, and the handlers that
  change them (class `App.ChatApp`);
- the pure parts of those handlers: how messages are built, how a session is
  copied with one more message, the sidebar label of a session, and what one
  or several completed sends do to a session (module `Conversation`);
- the session store the handlers call, as an abstract list of sessions
  (class `Memory.SessionStore`);
- runs of the controller drawn from its contracts alone (module `Scenarios`).

The send handler is asynchronous. It is split at its one suspension point:

- `BeginSend` appends the user's message to a copy of the active session,
  starts loading and returns the request handed to the gateway.
- `FinishSend(outcome)` takes the settled gateway call, `Success(text, image)`
  or `Failure`, and runs the matching branch and the final clean-up.

Between the two, other handlers may run. The field `pending` holds the
session the handler captured after appending the user's message. This keeps
the source's asymmetry: on success the reply is appended to that captured
session, while on failure the notice is appended to whatever session is
active then. `SendMessage` is the whole handler when nothing runs in between.
When neither `saveSession` nor `getSessions` throws, it is proved equal to
`Conversation.CompleteTurn`, which the lemmas about sends are stated over;
when one of them throws after a reply, it is proved equal to `CompleteTurn`
followed by the notice, which `StoreFaultBreaksAlternation` and
`LabelKeptByStoreFault` are stated over.

`createNewSession()`, `crypto.randomUUID()` and `Date.now()` are not
modelled. Their results are parameters: `created`, `id` and `now`.

Four points where `App.tsx` behaves differently from what a reader might
expect, each modelled as written:

- `App.tsx` has no busy check in the send handler.
  `BeginSend` requires that nothing is loading instead, because the input
  field is disabled while loading.
- `App.tsx` saves the session and refreshes the list only on success.
  A failed send is never saved.
- `App.tsx` appends the failure notice to the session active at that moment.
  So a failed send adds two messages to one session only when the user did
  not switch sessions while it was in flight (`SwitchDuringFailedSend`).
- Saving and listing run inside the same `try` as the gateway call
  (App.tsx:57-80). When either throws after a reply, the catch appends the
  notice after the reply (three new messages) and the list is not refreshed.
  `FinishSend` reports this as `storeFault`.

## Model

| member | source | states |
|---|---|---|
| `Types.RoleName` | types.ts:3 | a role is named by exactly one of the two literals, `user` for the user and `model` for the assistant |
| `Types.ParseRole` | types.ts:3 | a role literal is accepted exactly when it is `user` or `model`, and reads back to the role of that name |
| `Types.RoleNameRoundTrip` | types.ts:3 | naming a role and reading it back gives the same role; the two roles have different names |
| `Types.MessageKeys` | types.ts:1-8 | a message always carries `id`, `role`, `text` and `timestamp`; it carries `image` or `isThinking` exactly when that field is set, and no other key |
| `Types.ModelName` | types.ts:22-25 | the text model is named `gemini-2.5-flash`, the image model `gemini-2.5-flash-image`, and no other identifier is used |
| `Types.ParseModelType` | types.ts:22-25 | exactly the identifiers `gemini-2.5-flash` and `gemini-2.5-flash-image` are enum members, and each reads back to itself |
| `Types.ModelNameRoundTrip` | types.ts:22-25 | the two members map to different identifiers, and each identifier reads back to its member |
| `Conversation.GreetingMessage` | App.tsx:24-29 | the greeting is a `model` message with the fixed greeting text, the given id and time, and no optional key |
| `Conversation.UserMessage` | App.tsx:44-50 | the user's message has role `user`, the given text, id and time; it has an image exactly when one was uploaded, and then only its payload; it never has `isThinking` |
| `Conversation.NoticeMessage` | App.tsx:83-88 | the notice is a `model` message with the fixed text "Erro crítico no sistema. Tente novamente.", the given id and time, and no optional key |
| `Conversation.OutcomeMessage` | App.tsx:66-72 | the assistant's message has role `model`; on success it carries the reply's text and image, on failure it is the fixed notice |
| `Conversation.Append` | App.tsx:52-53 | the spread copy keeps id, title and creation time, keeps every earlier message in place and adds exactly the given message at the end |
| `Conversation.WithGreeting` | App.tsx:96-103 | the store's session gains exactly one message at the end: the greeting with the given id and time, a `model` message with the fixed greeting text and no image; earlier messages and the other fields are kept |
| `Conversation.Truncate` | App.tsx:154 | `substring(0, n)`: a prefix of the text of length n, or the whole text when it is shorter |
| `Conversation.Label` | App.tsx:154 | a session with more than one message is labelled by the prefix of at most 30 characters of its second message followed by `...`; otherwise it is labelled `New Session`; the two cases never give the same label |
| `Conversation.FreshSessionLabel` | App.tsx:154 | an empty store session with its greeting is listed as `New Session` |
| `Conversation.CompleteTurn` | App.tsx:42-93 | a send that settles while its session stays active, when neither `saveSession` nor `getSessions` throws, adds exactly two messages and keeps all earlier ones: first the `user` message with the text and the uploaded image payload, then a `model` message carrying the reply's text and image on success, or the fixed notice and no image on failure |
| `Conversation.TurnsShape` | App.tsx:42-93 | after n sends in a row, none of which meets a throwing `saveSession` or `getSessions`, the session keeps its id, title, creation time and old messages, and holds 2n more messages: the user/assistant pair of each send, in order |
| `Conversation.LabelKeptByLaterTurns` | App.tsx:154 | once a session holds more than one message, further sends whose store calls return normally never change its label |
| `Conversation.LabelKeptByStoreFault` | App.tsx:154 | once a session holds more than one message, a send whose `saveSession` or `getSessions` throws after the reply does not change its label either |
| `Conversation.LabelNamesFirstRequest` | App.tsx:154 | a greeting-only session that has had sends is labelled by the first 30 characters of its first request followed by `...` |
| `Conversation.GreetingStartsAlternation` | App.tsx:95-106 | an empty store session with its greeting is a settled conversation: odd length, `model` at even positions, `user` at odd ones |
| `Conversation.TurnKeepsAlternation` | App.tsx:42-93 | one send that settles on its own session, when neither `saveSession` nor `getSessions` throws, keeps a settled conversation settled |
| `Conversation.TurnsKeepAlternation` | App.tsx:42-93 | any number of such sends keep a settled conversation settled; a store fault breaks it (`StoreFaultBreaksAlternation`) |
| `Conversation.StoreFaultBreaksAlternation` | App.tsx:74-89 | when saving or listing throws after a reply, the session gains three messages, the notice follows the reply, and the conversation is no longer settled |
| `Memory.SessionStore.Save` | App.tsx:78 | `saveSession`: when it returns normally, the saved session is among the stored sessions; it may throw instead |
| `Memory.SessionStore.GetSessions` | App.tsx:79 | `getSessions`: when it returns normally, it lists exactly the stored sessions; it may throw instead |
| `Memory.SessionStore.Clear` | App.tsx:114 | clearing leaves no stored session |
| `App.ChatApp.constructor` | App.tsx:10-13 | first render: the store's new session is active, the list is empty, nothing is loading, the sidebar is closed |
| `App.ChatApp.Initialize` | App.tsx:17-32 | when listing succeeds, the list becomes what the store holds and the active session is the store's new session with exactly one message appended: id `init-greeting`, role `model`, the fixed greeting text; when listing throws, nothing changes |
| `App.ChatApp.BeginSend` | App.tsx:42-56 | the active session gains exactly one `user` message with the text and the uploaded payload; loading starts; the gateway is handed this extended history, whose last element is that message; the list and the sidebar are unchanged |
| `App.ChatApp.FinishSend` | App.tsx:57-92 | success: the captured session plus one `model` message with the reply's text and image becomes active, right after the user's request, is stored, and the list is reloaded from the store; success whose saving or listing throws: the notice follows the reply and the list is not reloaded; failure: the active session gains the fixed notice without image, nothing is stored or reloaded; either way loading ends |
| `App.ChatApp.SendMessage` | App.tsx:42-93 | with nothing else running in between, a send hands the gateway the old history plus the user message, turns the active session into `CompleteTurn` of it, or into that plus the notice when saving or listing throws after a reply, and ends with loading off |
| `App.ChatApp.NewChat` | App.tsx:95-106 | the active session becomes the store's new session with a `model` greeting of fixed text appended at the end; the sidebar closes; the list and a send in flight are unchanged |
| `App.ChatApp.LoadSession` | App.tsx:108-111 | the active session becomes exactly the given one; the sidebar closes; nothing else changes |
| `App.ChatApp.ClearHistory` | App.tsx:113-117 | the store and the list become empty, and the active session ends as `NewChat` leaves it |
| `Scenarios.ReplyScenario` | App.tsx:17-93 | fresh start, a request, a reply with an image: greeting, request and reply with the image, labelled by the request followed by `...`; the session is listed, or, when the store throws, a fourth message is the notice and nothing is listed |
| `Scenarios.FailureScenario` | App.tsx:81-92 | fresh start, a request, a gateway fault: three messages (greeting, unchanged request, fixed notice without image), loading is off, and nothing is listed |
| `Scenarios.ClearScenario` | App.tsx:113-117 | after a send, clearing leaves an empty store and list and a greeting-only session labelled `New Session` |
| `Scenarios.SwitchDuringFailedSend` | App.tsx:81-89 | if the user opens another session while a send is in flight and the send fails, the notice lands in the session opened meanwhile |
| `Scenarios.SwitchDuringSuccessfulSend` | App.tsx:74-89 | if the user opens another session while a send is in flight and the send succeeds, the captured session plus the reply becomes active again, followed by the notice when the store throws |

## Left out

- Rendering, CSS classes, icons, the mobile header and automatic scrolling (App.tsx:34-40, 119-194) have no state logic.
- The sidebar toggle button (App.tsx:125) is part of the rendered markup. Only the handlers that close the sidebar are modelled.
- The gateway `sendMessageToDominus` is a foreign network service whose code is not part of this model. It appears only as the request handed to it and the `Success`/`Failure` outcome it settles to.
- The memory service behind `createNewSession`, `saveSession` and `getSessions` is not part of this model. No upsert by id and no ordering is claimed for it.
- Memory.SessionStore.Save: states only that the saved session is recorded, because the service that implements it is not part of this model.
- App.ChatApp.Initialize: when `getSessions` throws in the mount effect (App.tsx:18), the exception leaves the effect and React tears the component down; the model only reports it (`loaded` is false) and leaves the state as it was.
- Which store call throws, and when, is not modelled: a call may throw on any invocation, and after a throwing `saveSession` nothing is known of the stored sessions.
- `localStorage.clear()` wipes the whole browser storage. It is modelled only as "the store becomes empty".
- Interleavings beyond the begin/finish split are not modelled. A second send while loading is excluded by `BeginSend`'s precondition, because only the disabled input field prevents it, not the handler.
- `crypto.randomUUID()`, `Date.now()` and `createNewSession()` are supplied values. Nothing here establishes that ids are unique.
- `console.error` in the failure branch is logging only.
- The greeting is pushed in place onto the array of the session that `createNewSession()` returned (App.tsx:30, 103). The model copies the session by value, so it does not capture any sharing of that array with other objects.
- JavaScript's `substring` counts UTF-16 code units, and Dafny strings are sequences of Unicode characters. The label can differ for text outside the Basic Multilingual Plane.
- The media type of an uploaded image is handed to the gateway but not stored in the message. The model keeps that behaviour.
- `UserMemory` and `ModelType` are declared in types.ts but not used by the controller. The model defines them and the identifiers of the enum, nothing more.
