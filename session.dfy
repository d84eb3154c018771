// The page-wide session state that src/utils/api.js, src/store/auth.js,
// src/lib/socket.js and the chat page all read and write: the browser's
// localStorage (a string map) and axios's default Authorization header,
// together with the shapes of the server's authentication replies.

module Session {
  import opened Js

  const AccessTokenKey: string := "accessToken"
  const TokenKey: string := "token"
  const RefreshTokenKey: string := "refreshToken"

  /** `localStorage.getItem(key)`. */
  function Get(storage: map<string, string>, key: string): Option<string> {
    if key in storage then Some(storage[key]) else None
  }

  function Bearer(t: string): string {
    "Bearer " + t
  }

  /** The default header a token setter leaves behind: `Bearer t` for a truthy `t`, none otherwise. */
  function HeaderFor(t: Option<string>): Option<string> {
    if Truthy(t) then Some(Bearer(t.value)) else None
  }

  /** `setRefreshToken(rt)` (the same code in api.js and auth.js): store a truthy token, else remove the key. */
  function StoreRefreshToken(storage: map<string, string>, rt: Option<string>): (r: map<string, string>)
    ensures Get(r, RefreshTokenKey) == (if Truthy(rt) then rt else None)
    ensures forall k :: k != RefreshTokenKey ==> Get(r, k) == Get(storage, k)
  {
    if Truthy(rt) then storage[RefreshTokenKey := rt.value] else storage - {RefreshTokenKey}
  }

  /** The signed-in user as `/users/me` and the auth endpoints return it. */
  datatype User = User(oid: Option<string>, id: Option<string>, fullname: Option<string>,
                       username: Option<string>, phone: Option<string>, avatar: Option<string>)

  datatype TokenPair = TokenPair(accessToken: Option<string>, refreshToken: Option<string>)

  /** The body of a login, register or refresh reply; every field may be missing. */
  datatype AuthReply = AuthReply(accessToken: Option<string>, token: Option<string>,
                                 refreshToken: Option<string>, tokens: Option<TokenPair>,
                                 user: Option<User>)

  /** `data?.accessToken || data?.token || data?.tokens?.accessToken || null`. */
  function AccessTokenOf(d: AuthReply): (r: Option<string>)
    ensures r.None? || Truthy(r)
    ensures Truthy(d.accessToken) ==> r == d.accessToken
    ensures r.Some? ==> r == d.accessToken || r == d.token || (d.tokens.Some? && r == d.tokens.value.accessToken)
  {
    var nested := if d.tokens.Some? then d.tokens.value.accessToken else None;
    var t := Or(Or(d.accessToken, d.token), nested);
    if Truthy(t) then t else None
  }

  /** What a thrown axios error carries that the stores read for a message. */
  datatype Thrown = Thrown(responseMessage: Option<string>, responseError: Option<string>,
                           message: Option<string>)

  /** `e?.response?.data?.message || e?.response?.data?.error || e?.message || fallback`. */
  function ErrorText(e: Thrown, fallback: string): (r: string)
    ensures fallback != "" ==> r != ""
    ensures r == fallback || Some(r) == e.responseMessage || Some(r) == e.responseError
            || Some(r) == e.message
    ensures Truthy(e.responseMessage) ==> r == e.responseMessage.value
  {
    OrElse(Or(Or(e.responseMessage, e.responseError), e.message), fallback)
  }

  /** localStorage together with axios's default Authorization header. */
  class Browser {
    var storage: map<string, string>
    var authHeader: Option<string>

    constructor (initial: map<string, string>)
      ensures storage == initial && authHeader == None
    {
      storage := initial;
      authHeader := None;
    }
  }
}
