/**
 * The frontend's authentication store (`useAuthStore` in
 * fashion-analytics-frontend/src/stores/auth.ts): three nullable fields, the
 * `isLoggedIn` getter, and the four actions. Each action's POST is replaced
 * by its outcome, given as a parameter; `localStorage` is the field
 * `storage`, which every action keeps equal to the two token fields.
 */
module AuthStore {
  import opened Wrappers

  datatype User = User(id: int, username: string, email: string, firstName: string, lastName: string)

  /** The two `localStorage` keys the store writes, 'token' and 'refreshToken'. */
  datatype Storage = Storage(token: Option<string>, refreshToken: Option<string>)

  /** `!!s`: a string is truthy unless it is missing or empty. */
  predicate Truthy(s: Option<string>)
  {
    s.Some? && s.value != ""
  }

  /** The data of an error response (`error.response.data`), an object with an optional `error` member. */
  datatype ErrorData = ErrorData(error: Option<string>)

  /**
   * The outcome of a POST: the response data, or a rejection carrying the
   * error response's data when there was a response at all.
   */
  datatype Outcome<T> = Answered(data: T) | Rejected(response: Option<ErrorData>)

  /** `{ user, access, refresh }`, the data of a login or register response. */
  datatype Session = Session(user: User, access: string, refresh: string)

  /** The `error` a failed action returns: the server's message, its whole error data, or a default message. */
  datatype ErrorValue = Message(text: string) | Data(data: ErrorData)

  /** `{ success: true }` or `{ success: false, error }`. */
  datatype ActionResult = Succeeded | Failed(error: ErrorValue)

  const LoginFailedMessage: string := "登录失败"
  const RegisterFailedMessage: string := "注册失败"

  /** `error.response?.data?.error || '登录失败'`: the server's message when it sent a non-empty one. */
  function LoginError(response: Option<ErrorData>): (e: string)
    ensures response.Some? && Truthy(response.value.error) ==> e == response.value.error.value
    ensures !(response.Some? && Truthy(response.value.error)) ==> e == LoginFailedMessage
    ensures e != ""
  {
    match response
    case Some(ErrorData(Some(message))) => if message != "" then message else LoginFailedMessage
    case _ => LoginFailedMessage
  }

  /**
   * `error.response?.data || '注册失败'`: the whole error data when there was
   * a response (an object is always truthy), the default message otherwise.
   */
  function RegisterError(response: Option<ErrorData>): (e: ErrorValue)
    ensures e.Data? <==> response.Some?
    ensures response.Some? ==> e == Data(response.value)
    ensures response.None? ==> e == Message(RegisterFailedMessage)
  {
    match response
    case Some(data) => Data(data)
    case None => Message(RegisterFailedMessage)
  }

  class Store {
    var user: Option<User>
    var token: Option<string>
    var refreshToken: Option<string>
    /** `localStorage`, as far as the store writes it. */
    var storage: Storage

    /** The stored tokens are the store's tokens. */
    ghost predicate Mirrored()
      reads this
    {
      storage == Storage(token, refreshToken)
    }

    /** `state()`: no user, and the tokens read back from `localStorage`. */
    constructor (storage: Storage)
      ensures user == None && token == storage.token && refreshToken == storage.refreshToken
      ensures this.storage == storage
      ensures Mirrored()
    {
      user := None;
      token := storage.token;
      refreshToken := storage.refreshToken;
      this.storage := storage;
    }

    /** The `isLoggedIn` getter: a missing and an empty token both mean logged out. */
    function IsLoggedIn(): (b: bool)
      reads this
      ensures token == None ==> !b
      ensures token == Some("") ==> !b
      ensures token.Some? && token.value != "" ==> b
    {
      Truthy(token)
    }

    /** Sets the three fields from a session and mirrors both tokens to storage. */
    method SignIn(session: Session)
      modifies this
      ensures user == Some(session.user)
      ensures token == Some(session.access) && refreshToken == Some(session.refresh)
      ensures storage == Storage(Some(session.access), Some(session.refresh))
      ensures Mirrored()
    {
      user := Some(session.user);
      token := Some(session.access);
      refreshToken := Some(session.refresh);
      storage := storage.(token := Some(session.access));
      storage := storage.(refreshToken := Some(session.refresh));
    }

    /** `login`: on an answer, sign in from it; on a rejection, change nothing and report the error. */
    method Login(reply: Outcome<Session>) returns (r: ActionResult)
      modifies this
      ensures reply.Answered? ==>
        && r == Succeeded
        && user == Some(reply.data.user)
        && token == Some(reply.data.access) && refreshToken == Some(reply.data.refresh)
        && storage == Storage(Some(reply.data.access), Some(reply.data.refresh))
      ensures reply.Rejected? ==>
        && r == Failed(Message(LoginError(reply.response)))
        && user == old(user) && token == old(token) && refreshToken == old(refreshToken)
        && storage == old(storage)
      ensures old(Mirrored()) ==> Mirrored()
    {
      match reply
      case Answered(session) =>
        SignIn(session);
        r := Succeeded;
      case Rejected(response) =>
        r := Failed(Message(LoginError(response)));
    }

    /** `register`: as `login`, but a rejection reports the whole error data when there is any. */
    method Register(reply: Outcome<Session>) returns (r: ActionResult)
      modifies this
      ensures reply.Answered? ==>
        && r == Succeeded
        && user == Some(reply.data.user)
        && token == Some(reply.data.access) && refreshToken == Some(reply.data.refresh)
        && storage == Storage(Some(reply.data.access), Some(reply.data.refresh))
      ensures reply.Rejected? ==>
        && r == Failed(RegisterError(reply.response))
        && user == old(user) && token == old(token) && refreshToken == old(refreshToken)
        && storage == old(storage)
      ensures old(Mirrored()) ==> Mirrored()
    {
      match reply
      case Answered(session) =>
        SignIn(session);
        r := Succeeded;
      case Rejected(response) =>
        r := Failed(RegisterError(response));
    }

    /**
     * `refreshAccessToken`: without a refresh token, answer false at once;
     * otherwise replace only the access token on an answer, or log out on a
     * rejection.
     */
    method RefreshAccessToken(reply: Outcome<string>) returns (ok: bool)
      modifies this
      ensures !Truthy(old(refreshToken)) ==>
        && !ok
        && user == old(user) && token == old(token) && refreshToken == old(refreshToken)
        && storage == old(storage)
      ensures Truthy(old(refreshToken)) && reply.Answered? ==>
        && ok
        && token == Some(reply.data)
        && user == old(user) && refreshToken == old(refreshToken)
        && storage == old(storage).(token := Some(reply.data))
      ensures Truthy(old(refreshToken)) && reply.Rejected? ==>
        && !ok
        && user == None && token == None && refreshToken == None
        && storage == Storage(None, None)
      ensures old(Mirrored()) ==> Mirrored()
    {
      if !Truthy(refreshToken) {
        return false;
      }
      match reply
      case Answered(access) =>
        token := Some(access);
        storage := storage.(token := Some(access));
        ok := true;
      case Rejected(_) =>
        Logout();
        ok := false;
    }

    /** `logout`: all three fields null and both stored tokens removed. */
    method Logout()
      modifies this
      ensures user == None && token == None && refreshToken == None
      ensures storage == Storage(None, None)
      ensures Mirrored() && !IsLoggedIn()
    {
      user := None;
      token := None;
      refreshToken := None;
      storage := storage.(token := None);
      storage := storage.(refreshToken := None);
    }
  }
}
