// src/lib/socket.js: the one socket.io client of the page, created with
// `autoConnect: false`, whose handshake `auth` is set from the legacy
// "token" key before each connect.

module Socket {
  import opened Js
  import opened Session

  /** A request the helper makes of the transport, in the order made. */
  datatype TransportCall = Connect | Disconnect

  /** The handshake payload: `{ token }` for a truthy token, `{}` otherwise (None). */
  function HandshakeFor(t: Option<string>): (r: Option<string>)
    ensures r.None? || Truthy(r)
    ensures Truthy(t) ==> r == t
  {
    if Truthy(t) then t else None
  }

  class SocketClient {
    const browser: Browser
    /** `socket.auth`. */
    var auth: Option<string>
    /** `socket.connected`: set by the transport once a handshake succeeds. */
    var connected: bool
    /** `socket.active`: between a `connect()` and the next `disconnect()`, the client wants a connection. */
    var active: bool
    /** Every connect and disconnect request made. */
    var calls: seq<TransportCall>

    /** Only a socket that was asked to connect is ever connected. */
    predicate Valid()
      reads this
    {
      connected ==> active
    }

    constructor (b: Browser)
      ensures Valid() && browser == b
      ensures auth == None && !connected && !active && calls == []
    {
      browser := b;
      auth := None;
      connected := false;
      active := false;
      calls := [];
    }

    /** `connectSocket()`: the handshake follows the stored token; a connect is asked only when not connected. */
    method ConnectSocket()
      requires Valid()
      modifies this
      ensures Valid()
      ensures auth == HandshakeFor(Get(browser.storage, TokenKey))
      ensures connected == old(connected)
      ensures old(connected) ==> calls == old(calls) && active == old(active)
      ensures !old(connected) ==> calls == old(calls) + [Connect] && active
    {
      auth := HandshakeFor(Get(browser.storage, TokenKey));
      if !connected {
        calls := calls + [Connect];
        active := true;
      }
    }

    /** `refreshSocketAuth(newToken)`: store it (or drop the key), then always reconnect with it. */
    method RefreshSocketAuth(newToken: Option<string>)
      requires Valid()
      modifies this, browser
      ensures Valid()
      ensures Get(browser.storage, TokenKey) == HandshakeFor(newToken)
      ensures forall k :: k != TokenKey ==> Get(browser.storage, k) == Get(old(browser.storage), k)
      ensures browser.authHeader == old(browser.authHeader)
      ensures auth == HandshakeFor(newToken) && auth == Get(browser.storage, TokenKey)
      ensures !connected && active
      ensures calls == old(calls) + (if old(connected) then [Disconnect, Connect] else [Connect])
    {
      if Truthy(newToken) {
        browser.storage := browser.storage[TokenKey := newToken.value];
      } else {
        browser.storage := browser.storage - {TokenKey};
      }
      auth := HandshakeFor(newToken);
      if connected {
        calls := calls + [Disconnect];
        connected := false;
        active := false;
      }
      calls := calls + [Connect];
      active := true;
    }

    /** `forceReconnect()`: drop any live connection, then connect afresh from storage. */
    method ForceReconnect()
      requires Valid()
      modifies this
      ensures Valid()
      ensures auth == HandshakeFor(Get(browser.storage, TokenKey))
      ensures !connected && active
      ensures calls == old(calls) + (if old(connected) then [Disconnect, Connect] else [Connect])
    {
      if connected {
        calls := calls + [Disconnect];
        connected := false;
        active := false;
      }
      ConnectSocket();
    }

    /** The transport completed a handshake ("connect" event). */
    method OnConnected()
      requires Valid() && active
      modifies this
      ensures Valid() && connected
      ensures auth == old(auth) && active == old(active) && calls == old(calls)
    {
      connected := true;
    }

    /** The server or the network dropped the connection ("disconnect" event); socket.io keeps trying. */
    method OnDropped()
      requires Valid()
      modifies this
      ensures Valid() && !connected
      ensures auth == old(auth) && active == old(active) && calls == old(calls)
    {
      connected := false;
    }
  }
}
