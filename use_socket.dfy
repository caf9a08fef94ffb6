/** The socket hook: the key of a connection, the access token read from the cookie string,
    the guard that refuses to connect without a URL and a token, the connection-state machine
    driven by the socket's lifecycle events, and the emit/subscribe helpers that do nothing
    when no socket exists. The socket client itself is not modelled. */
module UseSocket {
  import opened Wrappers
  import opened Seqs
  import opened Strings
  import opened Http

  /** `${url}${path}`. */
  function SocketKey(url: string, path: string): (key: string)
    ensures StartsWith(key, url) && key[|url|..] == path
  {
    url + path
  }

  const TokenPrefix: string := "accessToken="

  predicate IsTokenCookie(cookie: string) { StartsWith(cookie, TokenPrefix) }

  /** `getAccessTokenFromCookie()` for the given `document.cookie`: the part after the first
      `=` (up to the next one) of the first `"; "`-separated cookie that starts with
      `accessToken=`, or `None`. */
  function GetAccessTokenFromCookie(cookie: string): Option<string> {
    var cookies := Split(cookie, "; ");
    match FindFirst(cookies, IsTokenCookie)
    case None => None
    case Some(i) =>
      TokenCookieSplits(cookies[i]);
      Some(Split(cookies[i], "=")[1])
  }

  /** The value of a token cookie: what follows the prefix, up to the next `=`. */
  function TokenValue(cookie: string): string
    requires IsTokenCookie(cookie)
  {
    var rest := cookie[|TokenPrefix|..];
    rest[..IndexOf(rest, "=").GetOr(|rest|)]
  }

  lemma TokenCookieSplits(cookie: string)
    requires IsTokenCookie(cookie)
    ensures |Split(cookie, "=")| >= 2 && Split(cookie, "=")[1] == TokenValue(cookie)
  {
    assert OccursAt(cookie, "=", 11);
    forall j | 0 <= j < 11 ensures !OccursAt(cookie, "=", j) {
      assert cookie[j] == TokenPrefix[j];
    }
    SplitAtFirst(cookie, "=", 11);
    SplitHead(cookie[12..], "=");
  }

  /** The token is that of the first matching cookie, and there is none exactly when no
      cookie starts with `accessToken=`. */
  lemma AccessTokenSpec(cookie: string)
    ensures GetAccessTokenFromCookie(cookie).Some? <==>
      exists i :: 0 <= i < |Split(cookie, "; ")| && IsTokenCookie(Split(cookie, "; ")[i])
    ensures var cookies := Split(cookie, "; ");
      forall i :: 0 <= i < |cookies| && IsTokenCookie(cookies[i]) && (forall j :: 0 <= j < i ==> !IsTokenCookie(cookies[j])) ==>
        GetAccessTokenFromCookie(cookie) == Some(TokenValue(cookies[i]))
  {
    var cookies := Split(cookie, "; ");
    match FindFirst(cookies, IsTokenCookie)
    case None =>
    case Some(k) =>
      assert IsTokenCookie(cookies[k]);
      TokenCookieSplits(cookies[k]);
      assert GetAccessTokenFromCookie(cookie) == Some(Split(cookies[k], "=")[1]);
      assert 0 <= k < |Split(cookie, "; ")| && IsTokenCookie(Split(cookie, "; ")[k]);
      forall i | 0 <= i < |cookies| && IsTokenCookie(cookies[i]) && (forall j :: 0 <= j < i ==> !IsTokenCookie(cookies[j]))
        ensures i == k
      {
        FirstMatchUnique(cookies, IsTokenCookie, i, k);
      }
  }

  /** A cookie matches exactly when its name, the text before its first `=`, is
      `accessToken`: a name that merely contains or extends it does not match. */
  lemma CookieNameMustBeExact(cookie: string)
    ensures IsTokenCookie(cookie) <==> IndexOf(cookie, "=") == Some(11) && cookie[..11] == "accessToken"
  {
    if IsTokenCookie(cookie) {
      assert OccursAt(cookie, "=", 11);
      forall j | 0 <= j < 11 ensures !OccursAt(cookie, "=", j) {
        assert cookie[j] == TokenPrefix[j];
      }
    }
    if IndexOf(cookie, "=") == Some(11) && cookie[..11] == "accessToken" {
      assert cookie[11..12] == "=";
      assert cookie[..12] == cookie[..11] + cookie[11..12];
    }
  }

  /** A lone token cookie yields its value. */
  lemma SingleTokenCookie(value: string)
    requires forall i :: 0 <= i < |value| ==> value[i] != '=' && value[i] != ';'
    ensures GetAccessTokenFromCookie(TokenPrefix + value) == Some(value)
  {
    var cookie := TokenPrefix + value;
    forall j | 0 <= j < |cookie| ensures cookie[j] != ';' {
      if j >= 12 {
        assert cookie[j] == value[j - 12];
      } else {
        assert cookie[j] == TokenPrefix[j];
      }
    }
    SplitWithoutChar(cookie, "; ");
    assert IsTokenCookie(cookie) by { assert cookie[..12] == TokenPrefix; }
    assert FindFirst([cookie], IsTokenCookie) == Some(0);
    TokenCookieSplits(cookie);
    var rest := cookie[12..];
    assert rest == value;
    SplitWithoutChar(rest, "=");
  }

  /** What the effect hands to the socket client. */
  datatype Connection = Connection(url: string, path: string, token: string)

  /** The connect guard: no connection without a URL and a non-empty token. */
  function ConnectDecision(url: string, path: string, cookie: string): (c: Option<Connection>)
    ensures c.None? <==> url == "" || GetAccessTokenFromCookie(cookie) in {None, Some("")}
    ensures c.Some? ==> c.value.url == url && c.value.path == path && c.value.url != ""
    ensures c.Some? ==> c.value.token != "" && GetAccessTokenFromCookie(cookie) == Some(c.value.token)
  {
    var token := GetAccessTokenFromCookie(cookie);
    if url == "" || token.None? || token.value == "" then None
    else Some(Connection(url, path, token.value))
  }

  // ---------------------------------------------------------------------------------------
  // Connection state

  datatype Lifecycle = Connect | ConnectError(message: string) | Disconnect

  datatype ConnState = ConnState(isConnected: bool, socketError: Option<string>)

  const InitialConn: ConnState := ConnState(false, None)

  /** The three lifecycle handlers. */
  function OnLifecycle(s: ConnState, e: Lifecycle): ConnState {
    match e
    case Connect => ConnState(true, None)
    case ConnectError(m) => ConnState(false, Some(m))
    case Disconnect => s.(isConnected := false)
  }

  function RunLifecycle(s: ConnState, es: seq<Lifecycle>): ConnState
    decreases |es|
  {
    if es == [] then s else RunLifecycle(OnLifecycle(s, es[0]), es[1..])
  }

  /** Connected never goes with an error. */
  predicate ConnValid(s: ConnState) { s.isConnected ==> s.socketError == None }

  /** The error message of the last connect error after the last connect, if any. */
  function LastError(s: ConnState, es: seq<Lifecycle>): Option<string>
    decreases |es|
  {
    if es == [] then s.socketError
    else match es[|es| - 1]
      case Connect => None
      case ConnectError(m) => Some(m)
      case Disconnect => LastError(s, es[..|es| - 1])
  }

  lemma {:induction false} RunLifecycleSnoc(s: ConnState, es: seq<Lifecycle>, e: Lifecycle)
    ensures RunLifecycle(s, es + [e]) == OnLifecycle(RunLifecycle(s, es), e)
    decreases |es|
  {
    if es == [] {
      assert [] + [e] == [e];
    } else {
      assert (es + [e])[1..] == es[1..] + [e];
      RunLifecycleSnoc(OnLifecycle(s, es[0]), es[1..], e);
    }
  }

  /** After any run: connected exactly when the last event was `connect`, the error is that of
      the last connect error since the last connect, and connected implies no error. */
  lemma {:induction false} LifecycleSpec(s: ConnState, es: seq<Lifecycle>)
    requires ConnValid(s)
    ensures var r := RunLifecycle(s, es);
      && ConnValid(r)
      && (r.isConnected <==> if es == [] then s.isConnected else es[|es| - 1] == Connect)
      && r.socketError == LastError(s, es)
    decreases |es|
  {
    if es != [] {
      var init := es[..|es| - 1];
      var e := es[|es| - 1];
      assert es == init + [e];
      LifecycleSpec(s, init);
      RunLifecycleSnoc(s, init, e);
    }
  }

  /** The state cells of the hook. */
  class ConnectionCells {
    var isConnected: bool
    var socketError: Option<string>

    function Model(): ConnState
      reads this
    {
      ConnState(isConnected, socketError)
    }

    constructor()
      ensures Model() == InitialConn
    {
      isConnected := false;
      socketError := None;
    }

    method OnConnect()
      modifies this
      ensures Model() == OnLifecycle(old(Model()), Connect)
    {
      isConnected := true;
      socketError := None;
    }

    method OnConnectError(message: string)
      modifies this
      ensures Model() == OnLifecycle(old(Model()), ConnectError(message))
    {
      isConnected := false;
      socketError := Some(message);
    }

    method OnDisconnect()
      modifies this
      ensures Model() == OnLifecycle(old(Model()), Disconnect)
    {
      isConnected := false;
    }
  }

  // ---------------------------------------------------------------------------------------
  // Emitting and subscribing

  datatype Listener = Listener(event: string, callback: nat)
  datatype Emission = Emission(event: string, data: Json)

  /** The first occurrence of `x` taken out (`off` removes one registration). */
  function RemoveFirst<T(==)>(s: seq<T>, x: T): seq<T>
    decreases |s|
  {
    if s == [] then [] else if s[0] == x then s[1..] else [s[0]] + RemoveFirst(s[1..], x)
  }

  lemma {:induction false} RemoveFirstAppended<T>(s: seq<T>, x: T)
    ensures multiset(RemoveFirst(s + [x], x)) == multiset(s)
    ensures x !in s ==> RemoveFirst(s + [x], x) == s
    decreases |s|
  {
    if s == [] {
      assert [] + [x] == [x];
    } else {
      assert (s + [x])[1..] == s[1..] + [x];
      RemoveFirstAppended(s[1..], x);
      if s[0] == x {
        assert s == [s[0]] + s[1..];
      } else {
        assert s == [s[0]] + s[1..];
      }
    }
  }

  /** A socket as far as the hook uses it. */
  class Socket {
    var listeners: seq<Listener>
    var emitted: seq<Emission>

    constructor()
      ensures listeners == [] && emitted == []
    {
      listeners := [];
      emitted := [];
    }

    method Emit(event: string, data: Json)
      modifies this
      ensures emitted == old(emitted) + [Emission(event, data)] && listeners == old(listeners)
    {
      emitted := emitted + [Emission(event, data)];
    }

    method On(event: string, callback: nat)
      modifies this
      ensures listeners == old(listeners) + [Listener(event, callback)] && emitted == old(emitted)
    {
      listeners := listeners + [Listener(event, callback)];
    }

    method Off(event: string, callback: nat)
      modifies this
      ensures listeners == RemoveFirst(old(listeners), Listener(event, callback)) && emitted == old(emitted)
    {
      listeners := RemoveFirst(listeners, Listener(event, callback));
    }
  }

  /** `emitEvent(event, data)`, given what `getSocket(key)` returned. */
  method EmitEvent(socket: Socket?, event: string, data: Json)
    modifies socket
    ensures socket != null ==> socket.emitted == old(socket.emitted) + [Emission(event, data)]
    ensures socket != null ==> socket.listeners == old(socket.listeners)
  {
    if socket != null {
      socket.Emit(event, data);
    }
  }

  /** `onEvent(event, callback)`: registers the callback when a socket exists. The returned
      unsubscriber is `Unsubscribe` with the same socket, event and callback. */
  method OnEvent(socket: Socket?, event: string, callback: nat)
    modifies socket
    ensures socket != null ==> socket.listeners == old(socket.listeners) + [Listener(event, callback)]
    ensures socket != null ==> socket.emitted == old(socket.emitted)
  {
    if socket != null {
      socket.On(event, callback);
    }
  }

  /** The unsubscriber returned by `onEvent`. */
  method Unsubscribe(socket: Socket?, event: string, callback: nat)
    modifies socket
    ensures socket != null ==> socket.listeners == RemoveFirst(old(socket.listeners), Listener(event, callback))
    ensures socket != null ==> socket.emitted == old(socket.emitted)
  {
    if socket != null {
      socket.Off(event, callback);
    }
  }

  /** Subscribing and then calling the unsubscriber leaves the same registrations. */
  method SubscribeThenUnsubscribe(socket: Socket, event: string, callback: nat)
    modifies socket
    ensures multiset(socket.listeners) == multiset(old(socket.listeners))
    ensures Listener(event, callback) !in old(socket.listeners) ==> socket.listeners == old(socket.listeners)
  {
    OnEvent(socket, event, callback);
    Unsubscribe(socket, event, callback);
    RemoveFirstAppended(old(socket.listeners), Listener(event, callback));
  }
}
