/** The `SimpleChatApp` component as an object: its state fields, and its handlers as
    methods that set those fields one after another, as the setters do. Each method is
    tied to the transition function of ChatState that specifies it. */
module ChatController {
  import opened Wrappers
  import opened Text
  import opened Conversations
  import opened ChatState

  class Controller {
    var currentView: View
    var user: Option<Session>
    var message: string
    var conversations: seq<Conversation>
    var loading: bool
    var error: string
    var loginForm: Form
    var registerForm: Form

    /** The fields as one state value. */
    function Snapshot(): State
      reads this
    {
      State(currentView, user, message, conversations, loading, error, loginForm, registerForm)
    }

    /** The `useState` initial values. */
    constructor ()
      ensures Snapshot() == Initial()
    {
      currentView := Login;
      user := None;
      message := "";
      conversations := [];
      loading := false;
      error := "";
      loginForm := Form("", "");
      registerForm := Form("", "");
    }

    method HandleLoginBegin() returns (issued: Option<Request>)
      modifies this
      ensures Effect(Snapshot(), issued) == LoginBegin(old(Snapshot()))
    {
      loading := true;
      error := "";
      issued := Some(LoginRequest(loginForm));
    }

    method HandleLoginComplete(response: Response<AuthFields>) returns (issued: Option<Request>)
      modifies this
      ensures Effect(Snapshot(), issued) == LoginComplete(old(Snapshot()), response)
    {
      issued := None;
      match response {
        case Success(f) =>
          user := Some(Session(f.username, f.userId));
          currentView := Chat;
          issued := Some(HistoryRequest(f.username));
        case ServerError(e) =>
          error := OrDefault(e, LoginDefaultError());
        case Transport =>
          error := ConnectError();
      }
      loading := false;
    }

    method HandleRegisterBegin() returns (issued: Option<Request>)
      modifies this
      ensures Effect(Snapshot(), issued) == RegisterBegin(old(Snapshot()))
    {
      loading := true;
      error := "";
      issued := Some(RegisterRequest(registerForm));
    }

    method HandleRegisterComplete(response: Response<AuthFields>)
      modifies this
      ensures Snapshot() == RegisterComplete(old(Snapshot()), response)
    {
      match response {
        case Success(f) =>
          user := Some(Session(f.username, f.userId));
          currentView := Chat;
        case ServerError(e) =>
          error := OrDefault(e, RegisterDefaultError());
        case Transport =>
          error := ConnectError();
      }
      loading := false;
    }

    /** The `catch` branch of `sendMessage`, and its `finally`. */
    method FailSend(tmp: int, err: string)
      modifies this
      ensures Snapshot() == SendFailed(old(Snapshot()), tmp, err)
    {
      error := err;
      conversations := RemoveById(conversations, tmp);
      loading := false;
    }

    /** `sendMessage` up to the request; `tmp` stands for `Date.now()` and `timestamp` for
        the ISO time string. */
    method SendMessageBegin(tmp: int, timestamp: string) returns (issued: Option<Request>)
      modifies this
      ensures Effect(Snapshot(), issued) == SendBegin(old(Snapshot()), tmp, timestamp)
    {
      issued := None;
      if Trim(message) == [] {
        return;
      }
      ghost var before := Snapshot();
      loading := true;
      var userMessage := message;
      message := "";
      conversations := Prepend(Placeholder(tmp, userMessage, timestamp), conversations);
      assert Snapshot() == before.(loading := true, message := "",
        conversations := Prepend(Placeholder(tmp, before.message, timestamp), before.conversations));
      match user {
        case None =>
          FailSend(tmp, ConnectError());
        case Some(u) =>
          issued := Some(ChatRequest(u.username, userMessage, tmp));
      }
    }

    method SendMessageComplete(tmp: int, response: Response<ChatFields>)
      modifies this
      ensures Snapshot() == SendComplete(old(Snapshot()), tmp, response)
    {
      match response {
        case Success(f) =>
          conversations := ReplaceById(conversations, tmp, Confirmed(f));
          loading := false;
        case ServerError(e) =>
          FailSend(tmp, OrDefault(e, SendDefaultError()));
        case Transport =>
          FailSend(tmp, ConnectError());
      }
    }

    method LoadChatHistoryComplete(response: Response<seq<Conversation>>)
      modifies this
      ensures Snapshot() == HistoryComplete(old(Snapshot()), response)
    {
      if response.Success? {
        conversations := response.fields;
      }
    }

    method HandleLogout()
      modifies this
      ensures Snapshot() == Logout(old(Snapshot()))
    {
      user := None;
      conversations := [];
      currentView := Login;
      loginForm := Form("", "");
      registerForm := Form("", "");
    }

    method ShowRegisterView()
      modifies this
      ensures Snapshot() == ShowRegister(old(Snapshot()))
    {
      currentView := Register;
      error := "";
    }

    method ShowLoginView()
      modifies this
      ensures Snapshot() == ShowLogin(old(Snapshot()))
    {
      currentView := Login;
      error := "";
    }

    method SetMessage(text: string)
      modifies this
      ensures Snapshot() == EditMessage(old(Snapshot()), text)
    {
      message := text;
    }

    method SetLoginForm(f: Form)
      modifies this
      ensures Snapshot() == EditLoginForm(old(Snapshot()), f)
    {
      loginForm := f;
    }

    method SetRegisterForm(f: Form)
      modifies this
      ensures Snapshot() == EditRegisterForm(old(Snapshot()), f)
    {
      registerForm := f;
    }

    /** One whole interaction, begin and complete in sequence: the object follows Dispatch. */
    method Handle(e: Event)
      modifies this
      ensures Snapshot() == Dispatch(old(Snapshot()), e)
    {
      if !Available(Snapshot(), e) {
        return;
      }
      match e {
        case ClickRegisterLink => ShowRegisterView();
        case ClickLoginLink => ShowLoginView();
        case TypeLoginForm(f) => SetLoginForm(f);
        case TypeRegisterForm(f) => SetRegisterForm(f);
        case TypeMessage(t) => SetMessage(t);
        case SubmitLogin(r, h) =>
          var _ := HandleLoginBegin();
          var history := HandleLoginComplete(r);
          if history.Some? {
            LoadChatHistoryComplete(h);
          }
        case SubmitRegister(r) =>
          var _ := HandleRegisterBegin();
          HandleRegisterComplete(r);
        case SubmitMessage(tmp, ts, r) =>
          var chat := SendMessageBegin(tmp, ts);
          if chat.Some? {
            SendMessageComplete(tmp, r);
          }
        case ClickLogout => HandleLogout();
      }
    }
  }
}
