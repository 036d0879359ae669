/**
 * The login/registration form: one submit handler whose endpoint depends on the
 * mode, and whose outcome depends on the server's answer.
 */
module AuthScreen {
  import opened Wrappers
  import opened Js
  import opened Net
  import opened Storage
  import opened App

  const SuccessTitle := "Успех"
  const ErrorTitle := "Ошибка"
  const RegisteredText := "Регистрация завершена. Теперь войдите."
  const GenericErrorText := "Что-то пошло не так"
  const NetworkErrorText := "Ошибка сети"

  /** The endpoint a submit posts to in each mode. */
  function Endpoint(isLogin: bool): string {
    if isLogin then "/login" else "/register"
  }

  /** The form body of a submit. */
  function Credentials(username: string, password: string): Payload {
    Form([("login", Field(Str(username))), ("password", Field(Str(password)))])
  }

  /** How one submit ends. */
  datatype AuthResult =
    | LoggedIn(token: string)     // the token is stored, then the session authenticated
    | Registered                  // a confirmation, and the form switches to login
    | Rejected(message: JsValue)  // the server's error message, or the generic one
    | Failed                      // anything thrown inside the try block

  /**
   * The outcome table of `handleAuth` for one server answer. Anything thrown
   * (no response, a body that is not JSON, a JSON `null` body, an OK login
   * without `user_id`) ends as Failed.
   */
  function Decide(isLogin: bool, response: Fetched): (r: AuthResult)
    ensures r.LoggedIn? <==>
      isLogin && response.Response? && response.ok && response.body.Json?
      && !Nullish(response.body.value) && !Nullish(Prop(response.body.value, "user_id"))
    ensures r.LoggedIn? ==> r.token == ToStr(Prop(response.body.value, "user_id"))
    ensures r.Registered? <==> !isLogin && response.Response? && response.ok && response.body.Json?
    ensures r.Rejected? <==>
      response.Response? && !response.ok && response.body.Json? && !Nullish(response.body.value)
    ensures r.Rejected? ==>
      Truthy(r.message)
      && (Truthy(Prop(response.body.value, "error")) ==> r.message == Prop(response.body.value, "error"))
      && (!Truthy(Prop(response.body.value, "error")) ==> r.message == Str(GenericErrorText))
  {
    match response
    case NetworkFailure => Failed
    case Response(ok, body) =>
      match body
      case NotJson => Failed
      case Json(data) =>
        if !ok then
          match Member(data, "error")
          case None => Failed
          case Some(e) => Rejected(Or(e, Str(GenericErrorText)))
        else if !isLogin then
          Registered
        else
          match Member(data, "user_id")
          case None => Failed
          case Some(id) =>
            match ToStringCall(id)
            case None => Failed
            case Some(token) => LoggedIn(token)
  }

  /** The state cells of the auth screen. */
  class AuthForm {
    var username: string
    var password: string
    var isLogin: bool

    /** The form starts empty, in login mode. */
    constructor ()
      ensures username == "" && password == "" && isLogin
    {
      username := "";
      password := "";
      isLogin := true;
    }

    /** The login field's `onChangeText`. */
    method EditUsername(text: string)
      modifies this
      ensures username == text && password == old(password) && isLogin == old(isLogin)
    {
      username := text;
    }

    /** The password field's `onChangeText`. */
    method EditPassword(text: string)
      modifies this
      ensures password == text && username == old(username) && isLogin == old(isLogin)
    {
      password := text;
    }

    /** The "switch mode" link flips the mode and keeps what was typed. */
    method Toggle()
      modifies this
      ensures isLogin == !old(isLogin)
      ensures username == old(username) && password == old(password)
    {
      isLogin := !isLogin;
    }

    /**
     * `handleAuth`: posts the credentials to the mode's endpoint, then
     * - an OK login stores the token, and only then authenticates the session;
     * - an OK registration confirms and switches to login, touching neither the
     *   store nor the session;
     * - a refusal shows the server's message or the generic one;
     * - anything thrown shows the network error;
     * and in the last two cases nothing changes.
     */
    method HandleAuth(session: Session, store: KeyValueStore, response: Fetched) returns (effects: seq<Effect>)
      requires session.Valid() && !session.loading
      modifies this, session, store
      ensures session.Valid() && !session.loading
      ensures username == old(username) && password == old(password)
      ensures |effects| >= 2
      ensures effects[0] == Send(Request(Post, Endpoint(old(isLogin)), [], Credentials(username, password)))
      ensures var r := Decide(old(isLogin), response);
        && (r.LoggedIn? ==>
              && effects == [effects[0], StoreSet(UserIdKey, r.token), SetAuthenticated(true)]
              && store.entries == old(store.entries)[UserIdKey := r.token]
              && session.isAuthenticated
              && isLogin == old(isLogin))
        && (!r.LoggedIn? ==>
              && store.entries == old(store.entries)
              && session.isAuthenticated == old(session.isAuthenticated))
        && (r.Registered? ==> effects == [effects[0], Say(SuccessTitle, RegisteredText)] && isLogin)
        && (r.Rejected? ==> effects == [effects[0], Alert(ErrorTitle, Text(r.message))] && isLogin == old(isLogin))
        && (r.Failed? ==> effects == [effects[0], Say(ErrorTitle, NetworkErrorText)] && isLogin == old(isLogin))
    {
      effects := [Send(Request(Post, Endpoint(isLogin), [], Credentials(username, password)))];
      var r := Decide(isLogin, response);
      match r
      case LoggedIn(token) =>
        store.SetItem(UserIdKey, token);
        effects := effects + [StoreSet(UserIdKey, token)];
        session.SetAuthenticated(true);
        effects := effects + [SetAuthenticated(true)];
      case Registered =>
        effects := effects + [Say(SuccessTitle, RegisteredText)];
        isLogin := true;
      case Rejected(message) =>
        effects := effects + [Alert(ErrorTitle, Text(message))];
      case Failed =>
        effects := effects + [Say(ErrorTitle, NetworkErrorText)];
    }
  }

  /**
   * A login survives a restart exactly when the stored token is non-empty, which
   * is always the case for a numeric `user_id`. (A `user_id` of "" or [] stores
   * "": the session is authenticated now, but a cold start shows the auth flow.)
   */
  lemma LoginSurvivesRestart(entries: map<string, string>, response: Fetched)
    requires Decide(true, response).LoggedIn?
    ensures var token := Decide(true, response).token;
      && (HasToken(entries[UserIdKey := token]) <==> token != "")
      && (Prop(response.body.value, "user_id").Num? ==> HasToken(entries[UserIdKey := token]))
  {
    var id := Prop(response.body.value, "user_id");
    if id.Num? {
      DecimalStringShape(id.n);
    }
  }

  /**
   * Start with nothing stored, log in as "a"/"b" against a server answering
   * 200 {"user_id": 7}, then restart the app.
   */
  method LoginScenario() returns (before: Branch, after: Branch, stored: Option<string>, restarted: Branch)
    ensures before == AuthFlow
    ensures after == DrawerShell
    ensures stored == Some("7")
    ensures restarted == DrawerShell
  {
    var store := new KeyValueStore(map[]);
    var session := new Session();
    session.CheckAuth(store, false);
    before := session.Screen();
    var form := new AuthForm();
    form.EditUsername("a");
    form.EditPassword("b");
    var effects := form.HandleAuth(session, store, Response(true, Json(Obj([("user_id", Num(7))]))));
    after := session.Screen();
    stored := if UserIdKey in store.entries then Some(store.entries[UserIdKey]) else None;
    var rebooted;
    rebooted, restarted := ColdStart(store, false);
  }
}
