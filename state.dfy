/** The chat client's state as a value, with one transition function per handler step.
    Every asynchronous handler is split into a begin step (what happens before the
    request is awaited) and a complete step (what happens once the response, given as an
    input, is in). */
module ChatState {
  import opened Wrappers
  import opened Text
  import opened Conversations

  datatype View = Login | Register | Chat

  /** The logged-in user. */
  datatype Session = Session(username: string, userId: int)

  /** The login and register forms. */
  datatype Form = Form(username: string, password: string)

  function EmptyForm(): Form { Form("", "") }

  /** The component's state fields. */
  datatype State = State(
    view: View,
    user: Option<Session>,
    message: string,
    conversations: seq<Conversation>,
    loading: bool,
    error: string,
    loginForm: Form,
    registerForm: Form)

  function Initial(): State {
    State(Login, None, "", [], false, "", EmptyForm(), EmptyForm())
  }

  /** What the server (or the transport) answers: the fields of a successful reply, a
      reply with `success` false and an optional `error` text, or a network or parse
      failure caught by the handler. */
  datatype Response<T> = Success(fields: T) | ServerError(error: Option<string>) | Transport

  /** Fields of a successful `/login` or `/register` reply. */
  datatype AuthFields = AuthFields(username: string, userId: int)

  /** Fields of a successful `/chat` reply. */
  datatype ChatFields = ChatFields(conversationId: int, userMessage: string, aiResponse: string, timestamp: string)

  /** The requests the client issues. */
  datatype Request =
    | LoginRequest(credentials: Form)
    | RegisterRequest(credentials: Form)
    | ChatRequest(username: string, text: string, tmp: int)
    | HistoryRequest(owner: string)

  /** The state after a step, and the request the step issued, if any. */
  datatype Effect = Effect(next: State, request: Option<Request>)

  function ConnectError(): string { "Failed to connect to server" }
  function LoginDefaultError(): string { "Login failed" }
  function RegisterDefaultError(): string { "Registration failed" }
  function SendDefaultError(): string { "Failed to send message" }

  // ---------------------------------------------------------------------------
  // Disabled guards of the controls

  /** The login button (`disabled={loading}`). */
  predicate LoginEnabled(s: State) { !s.loading }

  /** The register button (`disabled={loading || password.length < 4}`); the length is in
      UTF-16 code units. */
  predicate RegisterEnabled(s: State) { !s.loading && Utf16Length(s.registerForm.password) >= 4 }

  /** The send button (`disabled={loading || !message.trim()}`). */
  predicate SendEnabled(s: State) { !s.loading && Trim(s.message) != [] }

  // ---------------------------------------------------------------------------
  // Handlers

  /** `handleLogin` up to the request: raise `loading`, clear `error`, post the form. */
  function LoginBegin(s: State): Effect {
    Effect(s.(loading := true, error := ""), Some(LoginRequest(s.loginForm)))
  }

  /** `handleLogin` once the response is in; `finally` lowers `loading` on every path, and
      a success issues the history load for the returned username. */
  function LoginComplete(s: State, response: Response<AuthFields>): Effect {
    match response
    case Success(f) =>
      Effect(s.(user := Some(Session(f.username, f.userId)), view := Chat, loading := false),
             Some(HistoryRequest(f.username)))
    case ServerError(e) => Effect(s.(error := OrDefault(e, LoginDefaultError()), loading := false), None)
    case Transport => Effect(s.(error := ConnectError(), loading := false), None)
  }

  /** `handleRegister` up to the request. */
  function RegisterBegin(s: State): Effect {
    Effect(s.(loading := true, error := ""), Some(RegisterRequest(s.registerForm)))
  }

  /** `handleRegister` once the response is in; unlike login, no history load. */
  function RegisterComplete(s: State, response: Response<AuthFields>): State {
    match response
    case Success(f) => s.(user := Some(Session(f.username, f.userId)), view := Chat, loading := false)
    case ServerError(e) => s.(error := OrDefault(e, RegisterDefaultError()), loading := false)
    case Transport => s.(error := ConnectError(), loading := false)
  }

  /** The failure path of `sendMessage`: show `err`, drop the entries with the temporary
      id, lower `loading`. */
  function SendFailed(s: State, tmp: int, err: string): State {
    s.(error := err, conversations := RemoveById(s.conversations, tmp), loading := false)
  }

  /** `sendMessage` up to the request. A blank message changes nothing. Otherwise the
      placeholder goes in at the head and the input is cleared; reading the username of
      an absent user throws inside the `try`, which takes the transport-failure path at
      once and issues nothing. */
  function SendBegin(s: State, tmp: int, timestamp: string): Effect {
    if Trim(s.message) == [] then Effect(s, None)
    else
      var placed := s.(loading := true, message := "",
                       conversations := Prepend(Placeholder(tmp, s.message, timestamp), s.conversations));
      match s.user
      case None => Effect(SendFailed(placed, tmp, ConnectError()), None)
      case Some(u) => Effect(placed, Some(ChatRequest(u.username, s.message, tmp)))
  }

  /** The entry the server confirmed. */
  function Confirmed(f: ChatFields): Conversation {
    Conversation(f.conversationId, f.userMessage, f.aiResponse, f.timestamp, false)
  }

  /** `sendMessage` once the response is in: reconcile the placeholder or roll it back. */
  function SendComplete(s: State, tmp: int, response: Response<ChatFields>): State {
    match response
    case Success(f) => s.(conversations := ReplaceById(s.conversations, tmp, Confirmed(f)), loading := false)
    case ServerError(e) => SendFailed(s, tmp, OrDefault(e, SendDefaultError()))
    case Transport => SendFailed(s, tmp, ConnectError())
  }

  /** `loadChatHistory` once the response is in: a success replaces the list wholesale,
      anything else is only logged. */
  function HistoryComplete(s: State, response: Response<seq<Conversation>>): State {
    match response
    case Success(list) => s.(conversations := list)
    case _ => s
  }

  /** `handleLogout`. */
  function Logout(s: State): State {
    s.(user := None, conversations := [], view := Login, loginForm := EmptyForm(), registerForm := EmptyForm())
  }

  /** The "Register here" link of the login view. */
  function ShowRegister(s: State): State { s.(view := Register, error := "") }

  /** The "Login here" link of the register view. */
  function ShowLogin(s: State): State { s.(view := Login, error := "") }

  /** The `onChange` handlers of the inputs. */
  function EditMessage(s: State, text: string): State { s.(message := text) }
  function EditLoginForm(s: State, f: Form): State { s.(loginForm := f) }
  function EditRegisterForm(s: State, f: Form): State { s.(registerForm := f) }

  // ---------------------------------------------------------------------------
  // Properties of the single steps

  /** Logout clears the session, the list and both forms and shows the login view, from
      any state; the message, the error and the loading flag are left as they were. */
  lemma LogoutResets(s: State)
    ensures Logout(s).user == None && Logout(s).conversations == [] && Logout(s).view == Login
    ensures Logout(s).loginForm == Form("", "") && Logout(s).registerForm == Form("", "")
    ensures Logout(s).message == s.message && Logout(s).error == s.error && Logout(s).loading == s.loading
    ensures Logout(Logout(s)) == Logout(s)
  {
  }

  /** The send button is enabled exactly when nothing is loading and the message has a
      non-whitespace character. */
  lemma SendEnabledIff(s: State)
    ensures SendEnabled(s) <==> !s.loading && !AllWhitespace(s.message)
  {
    TrimEmptyIffBlank(s.message);
  }

  /** A blank message changes no state and issues no request. */
  lemma BlankMessageIsIgnored(s: State, tmp: int, timestamp: string)
    requires AllWhitespace(s.message)
    ensures SendBegin(s, tmp, timestamp) == Effect(s, None)
  {
    TrimEmptyIffBlank(s.message);
  }

  /** The begin step of a send with a signed-in user: `loading` up, input cleared, exactly
      one placeholder prepended with the old message, earlier entries shifted by one, and
      a chat request for that message; nothing else changes. */
  lemma SendBeginPlaces(s: State, tmp: int, timestamp: string)
    requires !AllWhitespace(s.message) && s.user.Some?
    ensures var e := SendBegin(s, tmp, timestamp);
      && e.request == Some(ChatRequest(s.user.value.username, s.message, tmp))
      && e.next.loading && e.next.message == ""
      && |e.next.conversations| == |s.conversations| + 1
      && e.next.conversations[0] == Conversation(tmp, s.message, "...", timestamp, true)
      && (forall i :: 0 <= i < |s.conversations| ==> e.next.conversations[i + 1] == s.conversations[i])
      && e.next.view == s.view && e.next.user == s.user && e.next.error == s.error
      && e.next.loginForm == s.loginForm && e.next.registerForm == s.registerForm
  {
    TrimEmptyIffBlank(s.message);
  }

  /** A send without a session fails on the spot: no request, the connection error is
      shown, the input is cleared, and with a fresh id the list is as before. */
  lemma SendWithoutSessionFails(s: State, tmp: int, timestamp: string)
    requires !AllWhitespace(s.message) && s.user.None? && FreshId(s.conversations, tmp)
    ensures var e := SendBegin(s, tmp, timestamp);
      && e.request == None && e.next.error == ConnectError() && !e.next.loading
      && e.next.message == "" && e.next.conversations == s.conversations
  {
    TrimEmptyIffBlank(s.message);
    RollbackRestores(s.conversations, tmp, s.message, timestamp);
  }

  /** Chat success: every entry carrying the temporary id becomes the confirmed entry, all
      other entries and all positions stay; `loading` goes down and nothing else changes. */
  lemma ChatSuccessReconciles(s: State, tmp: int, f: ChatFields)
    ensures var r := SendComplete(s, tmp, Success(f));
      && |r.conversations| == |s.conversations|
      && (forall i :: 0 <= i < |s.conversations| && s.conversations[i].id == tmp ==>
            r.conversations[i] == Conversation(f.conversationId, f.userMessage, f.aiResponse, f.timestamp, false))
      && (forall i :: 0 <= i < |s.conversations| && s.conversations[i].id != tmp ==>
            r.conversations[i] == s.conversations[i])
      && r == s.(conversations := r.conversations, loading := false)
  {
  }

  /** Chat failure: the entries with the temporary id are removed, the others keep their
      relative order, the error is the server's text or its default, or the connection
      error; `loading` goes down. */
  lemma ChatFailureRollsBack(s: State, tmp: int, response: Response<ChatFields>)
    requires !response.Success?
    ensures var r := SendComplete(s, tmp, response);
      && r.conversations == RemoveById(s.conversations, tmp)
      && FreshId(r.conversations, tmp)
      && (forall c :: c in r.conversations <==> c in s.conversations && c.id != tmp)
      && r.error == (if response.Transport? then "Failed to connect to server"
                     else OrDefault(response.error, "Failed to send message"))
      && r == s.(conversations := r.conversations, error := r.error, loading := false)
  {
  }

  /** A whole send with a fresh temporary id: on success the confirmed entry sits on top of
      the pre-send list, on failure the list is the pre-send list; either way the input is
      empty and `loading` is down. */
  lemma SendRoundTrip(s: State, tmp: int, timestamp: string, response: Response<ChatFields>)
    requires !AllWhitespace(s.message) && s.user.Some? && FreshId(s.conversations, tmp)
    ensures var r := SendComplete(SendBegin(s, tmp, timestamp).next, tmp, response);
      && (response.Success? ==> r.conversations == [Confirmed(response.fields)] + s.conversations)
      && (!response.Success? ==> r.conversations == s.conversations)
      && r.message == "" && !r.loading && r.view == s.view && r.user == s.user
  {
    TrimEmptyIffBlank(s.message);
    if response.Success? {
      ReconcileReplacesHead(s.conversations, tmp, s.message, timestamp, Confirmed(response.fields));
    } else {
      RollbackRestores(s.conversations, tmp, s.message, timestamp);
    }
  }

  /** Login begin raises `loading`, clears the error and posts the login form. */
  lemma LoginBeginClears(s: State)
    ensures LoginBegin(s).next == s.(loading := true, error := "")
    ensures LoginBegin(s).request == Some(LoginRequest(s.loginForm))
  {
  }

  /** Login completion lowers `loading` on every path. A success signs the user in, shows
      the chat and issues the history load for the returned name; a failure keeps the view
      and the session and shows the server's text, its default, or the connection error. */
  lemma LoginOutcome(s: State, response: Response<AuthFields>)
    ensures !LoginComplete(s, response).next.loading
    ensures response.Success? ==>
      var r := LoginComplete(s, response);
      && r.next.user == Some(Session(response.fields.username, response.fields.userId))
      && r.next.view == Chat
      && r.request == Some(HistoryRequest(response.fields.username))
      && r.next == s.(user := r.next.user, view := Chat, loading := false)
    ensures !response.Success? ==>
      var r := LoginComplete(s, response);
      && r.request == None
      && r.next.error == (if response.Transport? then "Failed to connect to server"
                          else OrDefault(response.error, "Login failed"))
      && r.next == s.(error := r.next.error, loading := false)
  {
  }

  /** Register completion: as login, but no history load and its own default error. */
  lemma RegisterOutcome(s: State, response: Response<AuthFields>)
    ensures !RegisterComplete(s, response).loading
    ensures RegisterBegin(s).next == s.(loading := true, error := "")
    ensures RegisterBegin(s).request == Some(RegisterRequest(s.registerForm))
    ensures response.Success? ==>
      var r := RegisterComplete(s, response);
      && r.user == Some(Session(response.fields.username, response.fields.userId))
      && r == s.(user := r.user, view := Chat, loading := false)
    ensures !response.Success? ==>
      var r := RegisterComplete(s, response);
      && r.error == (if response.Transport? then "Failed to connect to server"
                     else OrDefault(response.error, "Registration failed"))
      && r == s.(error := r.error, loading := false)
  {
  }

  /** The register button: a password of four or more code points enables it when nothing
      is loading; one of fewer than two code points never does. */
  lemma RegisterGuardBounds(s: State)
    ensures !s.loading && |s.registerForm.password| >= 4 ==> RegisterEnabled(s)
    ensures |s.registerForm.password| < 2 ==> !RegisterEnabled(s)
    ensures RegisterEnabled(s) ==> !s.loading
  {
    Utf16LengthBounds(s.registerForm.password);
  }

  /** A successful history load replaces the list wholesale; a failed one changes nothing. */
  lemma HistoryOutcome(s: State, response: Response<seq<Conversation>>)
    ensures response.Success? ==> HistoryComplete(s, response) == s.(conversations := response.fields)
    ensures !response.Success? ==> HistoryComplete(s, response) == s
  {
  }

  /** The view links switch between login and register and clear the error. */
  lemma LinksClearError(s: State)
    ensures ShowRegister(s).view == Register && ShowRegister(s).error == ""
    ensures ShowLogin(s).view == Login && ShowLogin(s).error == ""
    ensures ShowRegister(s).(view := s.view, error := s.error) == s
    ensures ShowLogin(s).(view := s.view, error := s.error) == s
  {
  }

  // ---------------------------------------------------------------------------
  // The view state machine over whole interactions

  /** One user interaction, with the responses it receives. Each submission runs its begin
      step and then its complete step; a successful login also receives the history
      response. */
  datatype Event =
    | ClickRegisterLink
    | ClickLoginLink
    | TypeLoginForm(loginForm: Form)
    | TypeRegisterForm(registerForm: Form)
    | TypeMessage(text: string)
    | SubmitLogin(loginResponse: Response<AuthFields>, historyResponse: Response<seq<Conversation>>)
    | SubmitRegister(registerResponse: Response<AuthFields>)
    | SubmitMessage(tmp: int, timestamp: string, chatResponse: Response<ChatFields>)
    | ClickLogout

  /** The control behind an event is rendered only in one view. */
  predicate Available(s: State, e: Event) {
    match e
    case ClickRegisterLink | TypeLoginForm(_) | SubmitLogin(_, _) => s.view == Login
    case ClickLoginLink | TypeRegisterForm(_) | SubmitRegister(_) => s.view == Register
    case TypeMessage(_) | SubmitMessage(_, _, _) | ClickLogout => s.view == Chat
  }

  /** A login submission: begin, complete, and then the history load if one was issued. */
  function LoginInteraction(s: State, r: Response<AuthFields>, h: Response<seq<Conversation>>): State {
    var c := LoginComplete(LoginBegin(s).next, r);
    if c.request.Some? then HistoryComplete(c.next, h) else c.next
  }

  function RegisterInteraction(s: State, r: Response<AuthFields>): State {
    RegisterComplete(RegisterBegin(s).next, r)
  }

  /** A send: begin, and complete if a request was issued. */
  function SendInteraction(s: State, tmp: int, ts: string, r: Response<ChatFields>): State {
    var b := SendBegin(s, tmp, ts);
    if b.request.Some? then SendComplete(b.next, tmp, r) else b.next
  }

  /** A login or registration submission ends with `loading` down; on success the user is
      signed in and the chat is shown, otherwise view and session stay as they were. */
  lemma AuthInteractionOutcome(s: State, r: Response<AuthFields>, h: Response<seq<Conversation>>)
    ensures var t := LoginInteraction(s, r, h);
      && !t.loading
      && (r.Success? ==> t.view == Chat && t.user == Some(Session(r.fields.username, r.fields.userId)))
      && (!r.Success? ==> t.view == s.view && t.user == s.user && t.conversations == s.conversations)
    ensures var t := RegisterInteraction(s, r);
      && !t.loading && t.conversations == s.conversations
      && (r.Success? ==> t.view == Chat && t.user == Some(Session(r.fields.username, r.fields.userId)))
      && (!r.Success? ==> t.view == s.view && t.user == s.user)
  {
  }

  /** The begin step of a send keeps the session and the view; when it issues nothing it
      does not leave `loading` up. */
  lemma SendBeginKeepsSession(s: State, tmp: int, ts: string)
    ensures SendBegin(s, tmp, ts).next.user == s.user && SendBegin(s, tmp, ts).next.view == s.view
    ensures SendBegin(s, tmp, ts).request.None? ==> (SendBegin(s, tmp, ts).next.loading ==> s.loading)
  {
    if Trim(s.message) != [] {
      var placed := s.(loading := true, message := "",
                       conversations := Prepend(Placeholder(tmp, s.message, ts), s.conversations));
      assert placed.user == s.user && placed.view == s.view;
    }
  }

  /** The complete step of a send keeps the session and the view and lowers `loading`. */
  lemma SendCompleteKeepsSession(s: State, tmp: int, r: Response<ChatFields>)
    ensures SendComplete(s, tmp, r).user == s.user && SendComplete(s, tmp, r).view == s.view
    ensures !SendComplete(s, tmp, r).loading
  {
  }

  /** A whole send keeps the session and the view, and ends with `loading` down when it
      started so. */
  lemma SendInteractionFrame(s: State, tmp: int, ts: string, r: Response<ChatFields>)
    ensures var t := SendInteraction(s, tmp, ts, r);
      t.user == s.user && t.view == s.view && (t.loading ==> s.loading)
  {
    var b := SendBegin(s, tmp, ts);
    SendBeginKeepsSession(s, tmp, ts);
    SendCompleteKeepsSession(b.next, tmp, r);
  }

  function Step(s: State, e: Event): State {
    match e
    case ClickRegisterLink => ShowRegister(s)
    case ClickLoginLink => ShowLogin(s)
    case TypeLoginForm(f) => EditLoginForm(s, f)
    case TypeRegisterForm(f) => EditRegisterForm(s, f)
    case TypeMessage(t) => EditMessage(s, t)
    case SubmitLogin(r, h) => LoginInteraction(s, r, h)
    case SubmitRegister(r) => RegisterInteraction(s, r)
    case SubmitMessage(tmp, ts, r) => SendInteraction(s, tmp, ts, r)
    case ClickLogout => Logout(s)
  }

  /** An event whose control is not on screen cannot happen, so it changes nothing. */
  function Dispatch(s: State, e: Event): State {
    if Available(s, e) then Step(s, e) else s
  }

  function Run(s: State, events: seq<Event>): State
    decreases |events|
  {
    if events == [] then s else Run(Dispatch(s, events[0]), events[1..])
  }

  /** Between interactions: a session exists exactly in the chat view, nothing is
      loading, and outside the chat view the conversation list is empty. */
  predicate Valid(s: State) {
    (s.user.Some? <==> s.view == Chat) && !s.loading && (s.view != Chat ==> s.conversations == [])
  }

  predicate AuthSucceeds(e: Event) {
    (e.SubmitLogin? && e.loginResponse.Success?) || (e.SubmitRegister? && e.registerResponse.Success?)
  }

  lemma InitialValid()
    ensures Valid(Initial()) && Initial().view == Login && Initial().conversations == []
  {
  }

  lemma DispatchPreservesValid(s: State, e: Event)
    requires Valid(s)
    ensures Valid(Dispatch(s, e))
  {
    if Available(s, e) {
      match e
      case SubmitLogin(r, h) => AuthInteractionOutcome(s, r, h);
      case SubmitRegister(r) => AuthInteractionOutcome(s, r, Transport);
      case SubmitMessage(tmp, ts, r) => SendInteractionFrame(s, tmp, ts, r);
      case _ =>
    }
  }

  /** Every state reachable from a valid one is valid. */
  lemma {:induction false} RunPreservesValid(s: State, events: seq<Event>)
    requires Valid(s)
    ensures Valid(Run(s, events))
    decreases |events|
  {
    if events != [] {
      DispatchPreservesValid(s, events[0]);
      RunPreservesValid(Dispatch(s, events[0]), events[1..]);
    }
  }

  /** A successful registration, submitted from the register view of a valid state,
      starts the chat with an empty conversation list. */
  lemma RegisterStartsEmpty(s: State, r: Response<AuthFields>)
    requires Valid(s) && s.view == Register && r.Success?
    ensures Dispatch(s, SubmitRegister(r)).view == Chat
    ensures Dispatch(s, SubmitRegister(r)).conversations == []
  {
    AuthInteractionOutcome(s, r, Transport);
  }

  /** Between interactions nothing is loading, so the login button is enabled, the register
      button depends only on the password length, and the send button only on the message. */
  lemma ValidStateGuards(s: State)
    requires Valid(s)
    ensures LoginEnabled(s)
    ensures RegisterEnabled(s) <==> Utf16Length(s.registerForm.password) >= 4
    ensures SendEnabled(s) <==> !AllWhitespace(s.message)
  {
    SendEnabledIff(s);
  }

  /** The edges of the view machine: login to register only by its link, register to login
      only by its link, into chat only by a successful login or registration, out of chat
      only by logout, which leads to login. */
  lemma DispatchViewChange(s: State, e: Event)
    ensures var t := Dispatch(s, e).view;
      && (s.view == Login && t == Register <==> s.view == Login && e.ClickRegisterLink?)
      && (s.view == Register && t == Login <==> s.view == Register && e.ClickLoginLink?)
      && (s.view != Chat && t == Chat <==> Available(s, e) && s.view != Chat && AuthSucceeds(e))
      && (s.view == Chat && t != Chat <==> s.view == Chat && e.ClickLogout?)
      && (s.view == Chat && t != Chat ==> t == Login)
  {
    if Available(s, e) {
      match e
      case SubmitLogin(r, h) => AuthInteractionOutcome(s, r, h);
      case SubmitRegister(r) => AuthInteractionOutcome(s, r, Transport);
      case SubmitMessage(tmp, ts, r) => SendInteractionFrame(s, tmp, ts, r);
      case _ =>
    }
  }

  /** Starting outside the chat, the chat is reached only through a successful login or
      registration somewhere in the run. */
  lemma {:induction false} ChatOnlyAfterAuth(s: State, events: seq<Event>)
    requires s.view != Chat && Run(s, events).view == Chat
    ensures exists i :: 0 <= i < |events| && AuthSucceeds(events[i]) && Available(Run(s, events[..i]), events[i])
    decreases |events|
  {
    var t := Dispatch(s, events[0]);
    DispatchViewChange(s, events[0]);
    if t.view == Chat {
      assert events[..0] == [];
      assert AuthSucceeds(events[0]) && Available(Run(s, events[..0]), events[0]);
    } else {
      ChatOnlyAfterAuth(t, events[1..]);
      var i :| 0 <= i < |events[1..]| && AuthSucceeds(events[1..][i])
               && Available(Run(t, events[1..][..i]), events[1..][i]);
      RunPrefixStep(s, events, i);
      assert AuthSucceeds(events[i + 1]) && Available(Run(s, events[..i + 1]), events[i + 1]);
    }
  }

  /** Starting in the chat, it is left only through a logout somewhere in the run. */
  lemma {:induction false} ChatLeftOnlyByLogout(s: State, events: seq<Event>)
    requires s.view == Chat && Run(s, events).view != Chat
    ensures exists i :: 0 <= i < |events| && events[i].ClickLogout? && Available(Run(s, events[..i]), events[i])
    decreases |events|
  {
    var t := Dispatch(s, events[0]);
    DispatchViewChange(s, events[0]);
    if t.view != Chat {
      assert events[..0] == [];
      assert events[0].ClickLogout? && Available(Run(s, events[..0]), events[0]);
    } else {
      ChatLeftOnlyByLogout(t, events[1..]);
      var i :| 0 <= i < |events[1..]| && events[1..][i].ClickLogout?
               && Available(Run(t, events[1..][..i]), events[1..][i]);
      RunPrefixStep(s, events, i);
      assert events[i + 1].ClickLogout? && Available(Run(s, events[..i + 1]), events[i + 1]);
    }
  }

  /** Running a prefix of length i + 1 is the first event followed by a prefix of the rest. */
  lemma RunPrefixStep(s: State, events: seq<Event>, i: nat)
    requires i < |events|
    ensures Run(s, events[..i + 1]) == Run(Dispatch(s, events[0]), events[1..][..i])
  {
    var p := events[..i + 1];
    assert p[0] == events[0] && p[1..] == events[1..][..i];
  }
}
