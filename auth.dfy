// src/store/auth.js: the zustand auth store. Its own token setter keeps only
// the legacy "token" key; its actions restore, open, refresh and close the
// session over `{user, isAuthed, loadingMe}` and the shared browser state.

module Auth {
  import opened Js
  import opened Session
  import Api

  // ---------------------------------------------------------------- token storage

  /** The store's `setToken(t)`: only the "token" key follows `t`. */
  function AuthStoreToken(storage: map<string, string>, t: Option<string>): (r: map<string, string>)
    ensures Get(r, TokenKey) == (if Truthy(t) then t else None)
    ensures forall k :: k != TokenKey ==> Get(r, k) == Get(storage, k)
  {
    if Truthy(t) then storage[TokenKey := t.value] else storage - {TokenKey}
  }

  /** The store's `getToken()`. */
  function AuthGetToken(storage: map<string, string>): Option<string> {
    Get(storage, TokenKey)
  }

  /**
   * How logout, a failed `loadMe` and a thrown refresh clear the session as
   * written: `setToken(null); setRefreshToken(null)` with the store's own
   * setter, which leaves "accessToken" behind.
   */
  function ClearSessionAsWritten(storage: map<string, string>): (r: map<string, string>)
    ensures Get(r, TokenKey) == None && Get(r, RefreshTokenKey) == None
    ensures forall k :: k != TokenKey && k != RefreshTokenKey ==> Get(r, k) == Get(storage, k)
  {
    StoreRefreshToken(AuthStoreToken(storage, None), None)
  }

  /**
   * After a session that api.js stored (its "accessToken" key set) is cleared
   * as written, the api client still reads the old access token, so every
   * later request carries the signed-out user's bearer.
   */
  lemma ClearSessionAsWrittenKeepsBearer(storage: map<string, string>, a: string)
    requires Get(storage, AccessTokenKey) == Some(a) && a != ""
    ensures Api.ApiGetToken(ClearSessionAsWritten(storage)) == Some(a)
  {
    assert Get(ClearSessionAsWritten(storage), AccessTokenKey) == Some(a);
  }

  /** The clearing the store evidently intends: both access-token keys and the refresh token go. */
  function ClearSession(storage: map<string, string>): (r: map<string, string>)
    ensures Api.ApiGetToken(r) == None && AuthGetToken(r) == None && Get(r, RefreshTokenKey) == None
    ensures forall k :: k != AccessTokenKey && k != TokenKey && k != RefreshTokenKey ==>
              Get(r, k) == Get(storage, k)
  {
    StoreRefreshToken(Api.ApiStoreToken(storage, None), None)
  }

  /** The refresh token a login or register reply carries for the store: only the nested one. */
  function AuthRefreshTokenOf(d: AuthReply): (r: Option<string>)
    ensures r.None? || (Truthy(r) && d.tokens.Some? && r == d.tokens.value.refreshToken)
    ensures d.tokens.Some? && Truthy(d.tokens.value.refreshToken) ==> r == d.tokens.value.refreshToken
  {
    if d.tokens.Some? && Truthy(d.tokens.value.refreshToken) then d.tokens.value.refreshToken else None
  }

  /** localStorage after a login or register reply: each token is written only when present. */
  function StorageAfterReply(storage: map<string, string>, d: AuthReply): (r: map<string, string>)
    ensures AccessTokenOf(d).Some? ==> AuthGetToken(r) == AccessTokenOf(d)
    ensures AccessTokenOf(d).None? ==> AuthGetToken(r) == AuthGetToken(storage)
    ensures AuthRefreshTokenOf(d).Some? ==> Get(r, RefreshTokenKey) == AuthRefreshTokenOf(d)
    ensures AuthRefreshTokenOf(d).None? ==> Get(r, RefreshTokenKey) == Get(storage, RefreshTokenKey)
    ensures forall k :: k != TokenKey && k != RefreshTokenKey ==> Get(r, k) == Get(storage, k)
  {
    var s := if AccessTokenOf(d).Some? then AuthStoreToken(storage, AccessTokenOf(d)) else storage;
    if AuthRefreshTokenOf(d).Some? then StoreRefreshToken(s, AuthRefreshTokenOf(d)) else s
  }

  // ---------------------------------------------------------------- login body

  /** What `login` is called with; every field may be missing. */
  datatype Credentials = Credentials(email: Option<string>, identifier: Option<string>, password: Option<string>)

  datatype LoginBody =
    | EmailLogin(email: string, password: Option<string>)
    | UsernameLogin(username: string, password: Option<string>)

  /** The body `login` posts, or None where it throws "Missing credentials". */
  function LoginBodyFor(c: Credentials): (r: Option<LoginBody>)
    ensures r.None? <==> !Truthy(c.email) && !Truthy(c.identifier)
    ensures Truthy(c.email) ==> r == Some(EmailLogin(NormalizeEmail(c.email.value), c.password))
    ensures !Truthy(c.email) && Truthy(c.identifier) && Contains(Trim(c.identifier.value), '@') ==>
              r == Some(EmailLogin(ToLower(Trim(c.identifier.value)), c.password))
    ensures !Truthy(c.email) && Truthy(c.identifier) && !Contains(Trim(c.identifier.value), '@') ==>
              r == Some(UsernameLogin(Trim(c.identifier.value), c.password))
  {
    if Truthy(c.email) then Some(EmailLogin(NormalizeEmail(c.email.value), c.password))
    else if Truthy(c.identifier) then
      var id := Trim(c.identifier.value);
      if Contains(id, '@') then Some(EmailLogin(ToLower(id), c.password))
      else Some(UsernameLogin(id, c.password))
    else None
  }

  /**
   * Whatever the caller typed, the posted e-mail is already normalised, and
   * a username is trimmed and holds no "@".
   */
  lemma LoginBodyNormalised(c: Credentials)
    ensures LoginBodyFor(c).Some? && LoginBodyFor(c).value.EmailLogin? ==>
              NormalizeEmail(LoginBodyFor(c).value.email) == LoginBodyFor(c).value.email
    ensures LoginBodyFor(c).Some? && LoginBodyFor(c).value.UsernameLogin? ==>
              Trim(LoginBodyFor(c).value.username) == LoginBodyFor(c).value.username
              && !Contains(LoginBodyFor(c).value.username, '@')
  {
    if Truthy(c.email) {
      NormalizeEmailFixed(c.email.value);
    } else if Truthy(c.identifier) {
      NormalizeEmailFixed(c.identifier.value);
      TrimIdempotent(c.identifier.value);
    }
  }

  // ---------------------------------------------------------------- outcomes

  /** How `GET /users/me` settled: thrown, or answered with `data.data` and `data.user`. */
  datatype MeOutcome = MeThrew | MeAnswered(data: Option<User>, user: Option<User>)

  /** `data?.data ?? data?.user ?? null`; None after a throw. */
  function MeUser(me: MeOutcome): Option<User> {
    if me.MeThrew? then None else Coalesce(me.data, me.user)
  }

  /** How a POST settled: thrown with an error, or answered with a body. */
  datatype PostOutcome = Threw(error: Thrown) | Answered(reply: AuthReply)

  /** What `login` and `register` return. */
  datatype AuthResult = AuthOk(user: Option<User>) | AuthFailed(message: string)

  /** localStorage after `loadMe`: untouched without a token or on success, cleared when it throws. */
  function StorageAfterLoadMe(storage: map<string, string>, me: MeOutcome): (r: map<string, string>)
    ensures !Truthy(AuthGetToken(storage)) || me.MeAnswered? ==> r == storage
    ensures Truthy(AuthGetToken(storage)) && me.MeThrew? ==> r == ClearSession(storage)
  {
    if Truthy(AuthGetToken(storage)) && me.MeThrew? then ClearSession(storage) else storage
  }

  /** `forgotPassword`'s result; the store never passes on a reset link. */
  datatype ForgotResult = ForgotResult(ok: bool, message: Option<string>)

  /** None stands for a request that succeeded. */
  function ForgotPassword(outcome: Option<Thrown>): (r: ForgotResult)
    ensures r.ok <==> outcome.None?
    ensures !r.ok ==> r.message.Some? && r.message.value != ""
    ensures outcome.Some? && Truthy(outcome.value.responseMessage) ==> r.message == outcome.value.responseMessage
  {
    match outcome
    case None => ForgotResult(true, None)
    case Some(e) => ForgotResult(false, Some(OrElse(Or(e.responseMessage, e.message), "Request failed")))
  }

  /** What a page hands to `resetPassword`: the link's token and the new password. */
  datatype ResetRequest = ResetRequest(token: string, password: string)

  /** How `POST /auth/password/reset` settled: thrown, or answered with `!!data.success`. */
  datatype ResetOutcome = ResetThrew(error: Thrown) | ResetAnswered(success: bool)

  function ResetPassword(outcome: ResetOutcome): (r: ForgotResult)
    ensures r.ok <==> outcome == ResetAnswered(true)
    ensures outcome.ResetThrew? ==> r.message.Some? && r.message.value != ""
    ensures outcome.ResetAnswered? ==> r.message.None?
  {
    match outcome
    case ResetAnswered(success) => ForgotResult(success, None)
    case ResetThrew(e) => ForgotResult(false, Some(OrElse(Or(e.responseMessage, e.message), "Reset failed")))
  }

  /** What `refresh` returns. */
  datatype RefreshResult = RefreshResult(ok: bool, error: Option<string>)

  /** The store: the signed-in user, whether the session counts as signed in, and the `loadMe` flag. */
  class AuthStore {
    const browser: Browser
    var user: Option<User>
    var isAuthed: bool
    var loadingMe: bool

    /** A known user always counts as signed in (a refresh may sign in before the user is known). */
    predicate Valid()
      reads this
    {
      user.Some? ==> isAuthed
    }

    constructor (b: Browser)
      ensures Valid() && browser == b
      ensures user == None && !isAuthed && !loadingMe
    {
      browser := b;
      user := None;
      isAuthed := false;
      loadingMe := false;
    }

    /** The first half of `loadMe`: nothing at all without a stored token; else the flag and the header go up. */
    method BeginLoadMe() returns (started: bool)
      modifies this, browser
      ensures started <==> Truthy(AuthGetToken(old(browser.storage)))
      ensures !started ==> loadingMe == old(loadingMe) && browser.authHeader == old(browser.authHeader)
      ensures started ==> loadingMe && browser.authHeader == HeaderFor(AuthGetToken(old(browser.storage)))
      ensures browser.storage == old(browser.storage)
      ensures user == old(user) && isAuthed == old(isAuthed)
    {
      var token := AuthGetToken(browser.storage);
      if !Truthy(token) {
        return false;
      }
      loadingMe := true;
      browser.storage := AuthStoreToken(browser.storage, token);
      assert browser.storage == old(browser.storage);
      browser.authHeader := HeaderFor(token);
      started := true;
    }

    /** The second half of `loadMe`: the reply decides the user; a throw clears the session. */
    method SettleLoadMe(me: MeOutcome)
      modifies this, browser
      ensures Valid()
      ensures user == MeUser(me) && isAuthed == user.Some? && !loadingMe
      ensures me.MeThrew? ==> browser.storage == ClearSession(old(browser.storage)) && browser.authHeader == None
      ensures me.MeAnswered? ==> browser.storage == old(browser.storage) && browser.authHeader == old(browser.authHeader)
    {
      if me.MeThrew? {
        browser.storage := ClearSession(browser.storage);
        browser.authHeader := None;
      }
      user := MeUser(me);
      isAuthed := user.Some?;
      loadingMe := false;
    }

    /** `loadMe()` run to completion. */
    method LoadMe(me: MeOutcome)
      requires Valid()
      modifies this, browser
      ensures Valid()
      ensures browser.storage == StorageAfterLoadMe(old(browser.storage), me)
      ensures !Truthy(AuthGetToken(old(browser.storage))) ==>
                user == old(user) && isAuthed == old(isAuthed) && loadingMe == old(loadingMe)
                && browser.authHeader == old(browser.authHeader)
      ensures Truthy(AuthGetToken(old(browser.storage))) ==>
                user == MeUser(me) && isAuthed == user.Some? && !loadingMe
                && browser.authHeader == (if me.MeThrew? then None else HeaderFor(AuthGetToken(old(browser.storage))))
    {
      var started := BeginLoadMe();
      if started {
        SettleLoadMe(me);
      }
    }

    /**
     * The state a successful login or register reply leaves: its tokens are
     * stored and its access token becomes the header; then its user is
     * taken, or, without one, `loadMe` runs on the new storage.
     */
    twostate predicate AcceptedReply(d: AuthReply, me: MeOutcome)
      reads this, browser
    {
      var stored := StorageAfterReply(old(browser.storage), d);
      var header := if AccessTokenOf(d).Some? then HeaderFor(AccessTokenOf(d)) else old(browser.authHeader);
      if d.user.Some? then
        browser.storage == stored && browser.authHeader == header
        && user == d.user && isAuthed && loadingMe == old(loadingMe)
      else if Truthy(AuthGetToken(stored)) then
        browser.storage == StorageAfterLoadMe(stored, me)
        && browser.authHeader == (if me.MeThrew? then None else HeaderFor(AuthGetToken(stored)))
        && user == MeUser(me) && isAuthed == user.Some? && !loadingMe
      else
        browser.storage == stored && browser.authHeader == header
        && user == old(user) && isAuthed == old(isAuthed) && loadingMe == old(loadingMe)
    }

    /** A successful login or register reply: store its tokens, then take its user or fall back to `loadMe`. */
    method AcceptReply(d: AuthReply, me: MeOutcome)
      requires Valid()
      modifies this, browser
      ensures Valid()
      ensures AcceptedReply(d, me)
    {
      var token := AccessTokenOf(d);
      if token.Some? {
        browser.storage := AuthStoreToken(browser.storage, token);
        browser.authHeader := HeaderFor(token);
      }
      var rt := AuthRefreshTokenOf(d);
      if rt.Some? {
        browser.storage := StoreRefreshToken(browser.storage, rt);
      }
      if d.user.Some? {
        user := d.user;
        isAuthed := true;
      } else {
        LoadMe(me);
      }
    }

    /** `login(creds)`: `sent` is the body posted, None when nothing is sent. */
    method Login(c: Credentials, reply: PostOutcome, me: MeOutcome) returns (sent: Option<LoginBody>, r: AuthResult)
      requires Valid()
      modifies this, browser
      ensures Valid()
      ensures sent == LoginBodyFor(c)
      ensures sent.None? ==> r == AuthFailed("Missing credentials")
      ensures sent.Some? && reply.Threw? ==> r == AuthFailed(ErrorText(reply.error, "Login failed"))
      ensures sent.Some? && reply.Answered? ==> r == AuthOk(reply.reply.user) && AcceptedReply(reply.reply, me)
      ensures sent.None? || reply.Threw? ==>
                browser.storage == old(browser.storage) && browser.authHeader == old(browser.authHeader)
                && user == old(user) && isAuthed == old(isAuthed) && loadingMe == old(loadingMe)
    {
      sent := LoginBodyFor(c);
      if sent.None? {
        return sent, AuthFailed(ErrorText(Thrown(None, None, Some("Missing credentials")), "Login failed"));
      }
      match reply
      case Threw(e) =>
        r := AuthFailed(ErrorText(e, "Login failed"));
      case Answered(d) =>
        AcceptReply(d, me);
        r := AuthOk(d.user);
    }

    /** `register(payload)`: the payload itself is built by the register page. */
    method Register(reply: PostOutcome, me: MeOutcome) returns (r: AuthResult)
      requires Valid()
      modifies this, browser
      ensures Valid()
      ensures reply.Threw? ==>
                r == AuthFailed(ErrorText(reply.error, "Registration failed"))
                && browser.storage == old(browser.storage) && browser.authHeader == old(browser.authHeader)
                && user == old(user) && isAuthed == old(isAuthed) && loadingMe == old(loadingMe)
      ensures reply.Answered? ==> r == AuthOk(reply.reply.user) && AcceptedReply(reply.reply, me)
    {
      match reply
      case Threw(e) =>
        r := AuthFailed(ErrorText(e, "Registration failed"));
      case Answered(d) =>
        AcceptReply(d, me);
        r := AuthOk(d.user);
    }

    /** `refresh()`: `sent` is the refresh token put in the body, if any. */
    method Refresh(reply: PostOutcome) returns (sent: Option<string>, r: RefreshResult)
      requires Valid()
      modifies this, browser
      ensures Valid()
      ensures sent == Api.RefreshBody(old(browser.storage))
      ensures r.ok <==> reply.Answered? && AccessTokenOf(reply.reply).Some?
      ensures r.ok ==> isAuthed && user == old(user)
                       && browser.storage == AuthStoreToken(old(browser.storage), AccessTokenOf(reply.reply))
                       && browser.authHeader == HeaderFor(AccessTokenOf(reply.reply))
      ensures reply.Answered? && !r.ok ==>
                r.error == Some("No token in refresh response")
                && browser.storage == old(browser.storage) && browser.authHeader == old(browser.authHeader)
                && user == old(user) && isAuthed == old(isAuthed)
      ensures reply.Threw? ==>
                r.error == Some("Refresh failed") && browser.storage == ClearSession(old(browser.storage))
                && browser.authHeader == None && user == None && !isAuthed
      ensures loadingMe == old(loadingMe)
    {
      sent := Api.RefreshBody(browser.storage);
      match reply
      case Threw(_) =>
        browser.storage := ClearSession(browser.storage);
        browser.authHeader := None;
        user := None;
        isAuthed := false;
        r := RefreshResult(false, Some("Refresh failed"));
      case Answered(d) =>
        var newToken := AccessTokenOf(d);
        if newToken.Some? {
          browser.storage := AuthStoreToken(browser.storage, newToken);
          browser.authHeader := HeaderFor(newToken);
          isAuthed := true;
          r := RefreshResult(true, None);
        } else {
          r := RefreshResult(false, Some("No token in refresh response"));
        }
    }

    /** `logout()`: whatever the server answers, the session is gone afterwards. */
    method Logout()
      modifies this, browser
      ensures Valid()
      ensures browser.storage == ClearSession(old(browser.storage)) && browser.authHeader == None
      ensures user == None && !isAuthed && loadingMe == old(loadingMe)
    {
      browser.storage := ClearSession(browser.storage);
      browser.authHeader := None;
      user := None;
      isAuthed := false;
    }
  }

  /** After logout no token of any kind is left for either client to send. */
  lemma LogoutLeavesNoToken(storage: map<string, string>)
    ensures Api.ApiGetToken(ClearSession(storage)) == None
    ensures AuthGetToken(ClearSession(storage)) == None
    ensures Api.RefreshBody(ClearSession(storage)) == None
  {
  }
}
