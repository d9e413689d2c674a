# simple-chat client controller, in Dafny

This project models the `SimpleChatApp` React component of simple-chat (`src/App.js`): a
single-page client with a login view, a register view and a chat view, backed by a remote
service with the endpoints `/login`, `/register`, `/chat` and `/history/:username`.

What is modelled:

- **The component state** (`currentView`, `user`, `message`, `conversations`, `loading`,
  `error`, `loginForm`, `registerForm`). It appears twice. `ChatState.State` holds it as a
  value. `ChatController.Controller` is a class with one field per `useState` hook.
- **The handlers** `handleLogin`, `handleRegister`, `sendMessage`, `loadChatHistory`,
  `handleLogout`, the two view links and the input `onChange` setters. Each asynchronous
  handler is split into a *begin* step and a *complete* step. The begin step is what runs
  before the `await`. The complete step takes the server's answer as an input of type
  `Response<T>`: `Success(fields)`, `ServerError(optional error text)` or `Transport`. A
  transport failure is a network or parse failure that lands in the `catch`. Each class
  method sets the fields one after another, as the setters do. Its `ensures` ties the new
  state, and any request it issued, to the transition function in `ChatState`.
- **The optimistic list updates of `sendMessage`**, as functions on `seq<Conversation>`
  (module `Conversations`):
  - prepend a placeholder (`[newConversation, ...prev]`);
  - replace by temporary id (`prev.map`);
  - remove by temporary id (`prev.filter`).
  The temporary id (`Date.now()`) and the ISO timestamp are parameters. Clean rollback
  needs the id to be fresh in the list. The code does not guarantee this, because the id
  is a clock value. So freshness (`FreshId`) is an explicit hypothesis wherever it is
  needed, and `RollbackStaleIdShrinks` shows what goes wrong without it.
- **The disabled guards** of the submit buttons (`LoginEnabled`, `RegisterEnabled`,
  `SendEnabled`). JavaScript's `trim` is modelled with the exact set of WhiteSpace and
  LineTerminator code points it strips. `password.length` counts UTF-16 code units.
- **The view state machine.** `ChatState.Event` is one whole interaction: a begin step
  followed by a complete step, with the responses it receives. `Dispatch` ignores an event
  whose control is not rendered in the current view. `Run` applies a sequence of events.
  The lemmas prove:
  - the invariant "a session exists exactly in the chat view, nothing is loading, and the
    conversation list is empty outside the chat view";
  - the only edges are login↔register by the links, into chat by a successful
    login/registration, and chat→login by logout.

The view is one of `Login`, `Register` and `Chat` by construction: `View` is a datatype
with exactly those three constructors.

Two behaviours of the code that the model keeps:

- The register button is disabled while the password is shorter than four UTF-16 code
  units (src/App.js:273). Pressing Enter in either register input calls `handleRegister`
  directly, though (src/App.js:254, 267), and `handleRegister` has no length check. So
  `RegisterBegin` has no guard either, and `RegisterEnabled` models the button alone.
- `sendMessage` does not check `user`. If `user` is `null`, reading `user.username` throws
  inside the `try` (src/App.js:99). The `catch` path then runs: the connection error is
  shown, the placeholder is removed, and no request is issued. `SendBegin` models this
  branch.

## Model

| member | source | states |
|---|---|---|
| Text.TrimStart | src/App.js:78 | the result is a suffix of the input, starts with a non-whitespace character or is empty, and only whitespace was dropped |
| Text.TrimEnd | src/App.js:78 | the result is a prefix of the input, ends with a non-whitespace character or is empty, and only whitespace was dropped |
| Text.BlankTrimStartIsEmpty | src/App.js:78 | once the leading whitespace is removed, what is left is whitespace only when it is empty |
| Text.TrimEmptyIffBlank | src/App.js:78 | `message.trim()` is empty exactly when every character of the message is JavaScript whitespace |
| Text.TrimNonBlank | src/App.js:78 | a message with a non-whitespace character trims to a non-empty string with no whitespace at either end |
| Text.Utf16LengthBounds | src/App.js:273 | the UTF-16 `length` is between the code-point count and twice it, and equals it for text in the Basic Multilingual Plane |
| Text.OrDefault | src/App.js:38 | `data.error \|\| fallback`: the server's text when it is present and non-empty, the fallback otherwise |
| Conversations.Placeholder | src/App.js:85-91 | the optimistic entry carries the temporary id, the user's message, the timestamp, response `'...'` and `loading` true |
| Conversations.Prepend | src/App.js:92 | the new entry is at index 0, the length grows by one, and every earlier entry moves from index i to i+1 |
| Conversations.ReplaceById | src/App.js:108-120 | length and positions are preserved; every entry with the temporary id becomes the confirmed entry; every other entry is unchanged |
| Conversations.RemoveById | src/App.js:124 | no entry with the temporary id remains; an entry survives exactly when it was there with another id; a list without that id is returned unchanged |
| Conversations.RemoveByIdConcat | src/App.js:124 | removal distributes over concatenation, so the surviving entries keep their relative order |
| Conversations.RemoveByIdLength | src/App.js:128 | the list shrinks by exactly the number of entries carrying the temporary id |
| Conversations.RollbackRestores | src/App.js:85-128 | with a fresh temporary id, removing the placeholder gives back the pre-send list |
| Conversations.ReconcileReplacesHead | src/App.js:92-120 | with a fresh temporary id, reconciliation leaves the confirmed entry on top of the pre-send list |
| Conversations.CountIdPositive | src/App.js:124 | a list with an entry carrying the id has at least one such entry to count |
| Conversations.RollbackStaleIdShrinks | src/App.js:86-124 | for every list in which an older entry already carries the clock value used as the temporary id, the rollback also removes that entry, so the list comes back shorter than before the send |
| ChatState.LogoutResets | src/App.js:149-155 | logout clears the session, the list and both forms and shows the login view, from any state; `message`, `error` and `loading` are untouched; logout is idempotent |
| ChatState.SendEnabledIff | src/App.js:364 | the send button is enabled exactly when nothing is loading and the message has a non-whitespace character |
| ChatState.BlankMessageIsIgnored | src/App.js:78 | a blank message changes no state and issues no request |
| ChatState.SendBeginPlaces | src/App.js:80-102 | send begin raises `loading`, clears the input, and prepends exactly one placeholder with the old message, shifting earlier entries by one; it issues a chat request for that user and message; nothing else changes |
| ChatState.SendWithoutSessionFails | src/App.js:94-131 | without a user, a send fails at once: no request, the connection error is shown, the input is cleared, and with a fresh id the list is as before |
| ChatState.ChatSuccessReconciles | src/App.js:106-120 | on chat success every entry with the temporary id becomes the server's entry with `loading` false; other entries and all positions stay; only the list and `loading` change |
| ChatState.ChatFailureRollsBack | src/App.js:121-131 | on chat failure the temporary entries are removed and the rest survive; the error is `data.error`, `'Failed to send message'` or `'Failed to connect to server'`; only the list, `error` and `loading` change |
| ChatState.SendRoundTrip | src/App.js:76-132 | a whole send with a fresh id ends with the confirmed entry on top of the pre-send list on success, or with the pre-send list on failure; input empty, `loading` false, view and user unchanged |
| ChatState.LoginBeginClears | src/App.js:19-29 | login begin sets `loading` to true and `error` to empty, changes nothing else, and posts the login form |
| ChatState.LoginOutcome | src/App.js:31-44 | login completion lowers `loading` on every path. Success: the user is the returned name and id, the view is chat, and a history load for that name is issued. Only the user, the view and `loading` change. Failure: no request; the error is `data.error`, `'Login failed'` or `'Failed to connect to server'`; only `error` and `loading` change |
| ChatState.RegisterOutcome | src/App.js:48-73 | begin raises `loading`, clears the error and posts the register form. Completion lowers `loading` on every path. Success: the user is the returned name and id, the view is chat, and only the user, the view and `loading` change (no history load). Failure: the error is `data.error`, `'Registration failed'` or `'Failed to connect to server'`, and only `error` and `loading` change |
| ChatState.RegisterGuardBounds | src/App.js:271-273 | the register button is disabled while loading; four or more code points enable it; fewer than two never do |
| ChatState.HistoryOutcome | src/App.js:135-146 | a successful history load replaces the list wholesale; a failed one changes nothing, neither the list nor the error |
| ChatState.LinksClearError | src/App.js:217-220 | the links (also src/App.js:282-285) switch between the login and register views, clear the error, and change nothing else |
| ChatState.InitialValid | src/App.js:7-16 | the initial state shows the login view with no session, an empty list and nothing loading |
| ChatState.AuthInteractionOutcome | src/App.js:19-73 | a whole login or registration ends with `loading` down; success signs the user in and shows the chat; failure keeps the view, the session and the list |
| ChatState.SendBeginKeepsSession | src/App.js:76-92 | the begin step of a send keeps the session and the view, and does not leave `loading` up when it issues nothing |
| ChatState.SendCompleteKeepsSession | src/App.js:104-131 | the complete step of a send keeps the session and the view and lowers `loading` on every path |
| ChatState.SendInteractionFrame | src/App.js:76-132 | a whole send keeps the session and the view, and ends with `loading` down when it started so |
| ChatState.DispatchPreservesValid | src/App.js:33-44 | every interaction keeps "session exactly in chat view, nothing loading, empty list outside the chat" |
| ChatState.RunPreservesValid | src/App.js:7-16 | every state reached from a valid state by any sequence of interactions is valid |
| ChatState.RegisterStartsEmpty | src/App.js:62-64 | a successful registration from the register view of a valid state shows the chat with an empty conversation list |
| ChatState.ValidStateGuards | src/App.js:208 | between interactions the login button is enabled, the register button (src/App.js:273) depends only on the password length, and the send button (src/App.js:364) only on the message |
| ChatState.DispatchViewChange | src/App.js:382-384 | the view moves from login to register only by the link, and back only by the other link; into chat only by a successful login or registration; out of chat only by logout, which leads to login |
| ChatState.ChatOnlyAfterAuth | src/App.js:33-36 | a run that starts outside the chat and ends in it contains a successful login or registration that was actually dispatched, its control being on screen at that point of the run |
| ChatState.ChatLeftOnlyByLogout | src/App.js:149-155 | a run that starts in the chat and ends outside it contains a logout that was actually dispatched from the chat view's controls |
| ChatController.Controller.constructor | src/App.js:7-16 | the fields start as the `useState` initial values |
| ChatController.Controller.HandleLoginBegin | src/App.js:19-29 | the fields and the issued request follow `LoginBegin` |
| ChatController.Controller.HandleLoginComplete | src/App.js:31-44 | the fields and the issued history request follow `LoginComplete` |
| ChatController.Controller.HandleRegisterBegin | src/App.js:48-58 | the fields and the issued request follow `RegisterBegin` |
| ChatController.Controller.HandleRegisterComplete | src/App.js:60-72 | the fields follow `RegisterComplete` |
| ChatController.Controller.FailSend | src/App.js:121-131 | the fields follow the failure path of `sendMessage` |
| ChatController.Controller.SendMessageBegin | src/App.js:76-102 | the fields and the issued chat request follow `SendBegin` |
| ChatController.Controller.SendMessageComplete | src/App.js:104-131 | the fields follow `SendComplete` |
| ChatController.Controller.LoadChatHistoryComplete | src/App.js:138-145 | the fields follow `HistoryComplete` |
| ChatController.Controller.HandleLogout | src/App.js:149-155 | the fields follow `Logout` |
| ChatController.Controller.ShowRegisterView | src/App.js:217-220 | the fields follow the login view's register link |
| ChatController.Controller.ShowLoginView | src/App.js:282-285 | the fields follow the register view's login link |
| ChatController.Controller.SetMessage | src/App.js:356 | the message input's `onChange` |
| ChatController.Controller.SetLoginForm | src/App.js:187-200 | the login inputs' `onChange` |
| ChatController.Controller.SetRegisterForm | src/App.js:252-265 | the register inputs' `onChange` |
| ChatController.Controller.Handle | src/App.js:374-386 | one whole interaction on the object follows `Dispatch` |

## Left out

- `fetch`, HTTP, `JSON.stringify` and `response.json()`. These are network I/O. Responses are the input datatype `Response<T>`, and requests are the output datatype `Request`. The model does not check response shapes: a `success` reply that lacks a field, such as `conversations`, is not modelled.
- Interleaving of in-flight requests. Stale responses applied after a logout or after another send are also out. Both are concurrency: each interaction runs its begin and complete steps back to back. So the model does not show a slow login response bringing a session back after logout.
- `Date.now()`, `new Date().toISOString()` and `toLocaleTimeString()`. These are the clock and locale formatting. The temporary id and the timestamp are parameters, and the displayed time is not modelled.
- Identifiers are integers. JavaScript's `===` between a number and a string id is not modelled.
- Strings are sequences of Unicode scalar values. Lone UTF-16 surrogates cannot be expressed.
- All JSX rendering, CSS classes and `lucide-react` icons. These are markup calling a library outside the model. The only part kept is which view renders which control, in `Available`.
- `handleKeyPress`. It is plain DOM key-event dispatch. Because of it, a submission by Enter bypasses the buttons' `disabled` guards, as described above.
- The placement of the error banner and the `console.error` call in `loadChatHistory`. These are presentation and logging only.
- `e.preventDefault()`. This is DOM event handling with no effect on the state.
