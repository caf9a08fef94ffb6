/** The session thunks: fixed sequences of dispatches around one call to the back end, whose
    outcome is passed in. */
module AdminActions {
  import opened Wrappers
  import opened Http
  import opened UserSlice

  /** What a thunk returns: `{ success: true, ... }` or `{ success: false, message }`. */
  datatype Outcome = Succeeded(payload: Option<Json>) | Failed(message: string)

  const SignInFallback: string := "Sign-in failed"
  const GoogleSignInFallback: string := "Google sign-in failed"
  const RefreshFallback: string := "Token refresh failed"
  const LogoutFallback: string := "Logout failed"
  const ProfileFallback: string := "Failed to fetch profile"

  /** Reading a property of the response body: `response.data.admin` throws a TypeError when
      the body is `null`, and the `catch` then runs with an error that has no `response`. */
  predicate Readable(response: Response<Json>) {
    response.Ok? && !response.data.JNull?
  }

  /** The message a thunk dispatches and returns when it fails: the server's message or the
      fallback, and the fallback alone after a TypeError. */
  function FailureMessage(response: Response<Json>, fallback: string): string {
    match response
    case Ok(_) => fallback
    case Err(e) => ServerMessageOr(e, fallback)
  }

  /** The dispatches of `adminSignIn`. */
  function SignInActions(response: Response<Json>): seq<Action> {
    if Readable(response) then [LoginRequest, Login(Member(response.data, "admin"))]
    else [LoginRequest, LoginFailure(FailureMessage(response, SignInFallback))]
  }

  /** The dispatches of `adminGoogleSignIn`: the whole response body becomes the user, so no
      property is read and a `null` body is signed in as it is. */
  function GoogleSignInActions(response: Response<Json>): seq<Action> {
    match response
    case Ok(data) => [LoginRequest, Login(data)]
    case Err(e) => [LoginRequest, LoginFailure(ServerMessageOr(e, GoogleSignInFallback))]
  }

  /** The dispatches of `adminRefreshToken`, `finally` included. `clearError` is dispatched
      before `accessToken` is read, so a `null` body is cleared and then failed. */
  function RefreshTokenActions(response: Response<Json>): seq<Action> {
    match response
    case Ok(data) =>
      if data.JNull? then [SetLoading(true), ClearError, LoginFailure(RefreshFallback), SetLoading(false)]
      else [SetLoading(true), ClearError, SetLoading(false)]
    case Err(e) => [SetLoading(true), LoginFailure(ServerMessageOr(e, RefreshFallback)), SetLoading(false)]
  }

  /** The dispatches of `adminLogout`, `finally` included. */
  function LogoutActions(response: Response<Json>): seq<Action> {
    match response
    case Ok(_) => [SetLoading(true), Logout, SetLoading(false)]
    case Err(e) => [SetLoading(true), LoginFailure(ServerMessageOr(e, LogoutFallback)), SetLoading(false)]
  }

  /** The dispatches of `fetchAdminProfileThunk`, `finally` included. */
  function ProfileActions(response: Response<Json>): seq<Action> {
    if Readable(response) then [SetLoading(true), Login(Member(response.data, "admin")), SetLoading(false)]
    else [SetLoading(true), LoginFailure(FailureMessage(response, ProfileFallback)), SetLoading(false)]
  }

  /** The failure a thunk returns, with the message it also dispatches. */
  function FailureOf(response: Response<Json>, fallback: string): Outcome {
    Failed(FailureMessage(response, fallback))
  }

  lemma ReduceTwo(s: UserState, a: Action, b: Action)
    ensures ReduceAll(s, [a, b]) == Reduce(Reduce(s, a), b)
  {
    assert [a, b][1..] == [b];
    assert [b][1..] == [];
    assert ReduceAll(Reduce(s, a), [b]) == ReduceAll(Reduce(Reduce(s, a), b), []);
  }

  lemma ReduceThree(s: UserState, a: Action, b: Action, c: Action)
    ensures ReduceAll(s, [a, b, c]) == Reduce(Reduce(Reduce(s, a), b), c)
  {
    assert [a, b, c][1..] == [b, c];
    ReduceTwo(Reduce(s, a), b, c);
  }

  lemma ReduceFour(s: UserState, a: Action, b: Action, c: Action, d: Action)
    ensures ReduceAll(s, [a, b, c, d]) == Reduce(Reduce(Reduce(Reduce(s, a), b), c), d)
  {
    assert [a, b, c, d][1..] == [b, c, d];
    ReduceThree(Reduce(s, a), b, c, d);
  }

  /** Sign-in: on success the admin record is signed in; on failure the server's message, or
      the fallback, is both the store's error and the returned message, and the session is
      otherwise untouched. A `null` body fails with the fallback. `loading` ends false either
      way. */
  lemma SignInEffect(s: UserState, response: Response<Json>)
    ensures var r := ReduceAll(s, SignInActions(response));
      if Readable(response) then r == UserState(Member(response.data, "admin"), true, false, None)
      else
        && r.error == Some(FailureMessage(response, SignInFallback))
        && r.user == s.user && r.isAuthenticated == s.isAuthenticated && !r.loading
        && (response.Err? && Truthy(response.error.dataMessage) ==> r.error == response.error.dataMessage)
        && (response.Ok? || !Truthy(response.error.dataMessage) ==> r.error == Some("Sign-in failed"))
  {
    ReduceTwo(s, SignInActions(response)[0], SignInActions(response)[1]);
  }

  /** Google sign-in: the user is the whole response body, not its `admin` member. */
  lemma GoogleSignInEffect(s: UserState, response: Response<Json>)
    ensures var r := ReduceAll(s, GoogleSignInActions(response));
      match response
      case Ok(data) => r == UserState(data, true, false, None)
      case Err(e) =>
        && r.error == Some(ServerMessageOr(e, GoogleSignInFallback))
        && r.user == s.user && r.isAuthenticated == s.isAuthenticated && !r.loading
        && (!Truthy(e.dataMessage) ==> r.error == Some("Google sign-in failed"))
  {
    ReduceTwo(s, GoogleSignInActions(response)[0], GoogleSignInActions(response)[1]);
  }

  /** Token refresh: `loading` is set first and ends false on both paths; the session itself
      is untouched; success clears the error and failure records it, a `null` body included. */
  lemma RefreshTokenEffect(s: UserState, response: Response<Json>)
    ensures var actions := RefreshTokenActions(response);
      && actions[0] == SetLoading(true) && actions[|actions| - 1] == SetLoading(false)
    ensures var r := ReduceAll(s, RefreshTokenActions(response));
      && !r.loading && r.user == s.user && r.isAuthenticated == s.isAuthenticated
      && r.error == if Readable(response) then None else Some(FailureMessage(response, RefreshFallback))
  {
    var actions := RefreshTokenActions(response);
    if |actions| == 4 {
      ReduceFour(s, actions[0], actions[1], actions[2], actions[3]);
    } else {
      ReduceThree(s, actions[0], actions[1], actions[2]);
    }
  }

  /** Logout: success ends signed out with `loading` false whatever the state was; failure
      keeps the user and records the error. */
  lemma LogoutEffect(s: UserState, response: Response<Json>)
    ensures var r := ReduceAll(s, LogoutActions(response));
      match response
      case Ok(_) => r == UserState(JNull, false, false, None)
      case Err(e) =>
        && r.error == Some(ServerMessageOr(e, LogoutFallback))
        && r.user == s.user && r.isAuthenticated == s.isAuthenticated && !r.loading
        && (!Truthy(e.dataMessage) ==> r.error == Some("Logout failed"))
  {
    var actions := LogoutActions(response);
    ReduceThree(s, actions[0], actions[1], actions[2]);
  }

  /** Profile fetch: success signs in the `admin` member; failure, a `null` body included,
      records the error. */
  lemma ProfileEffect(s: UserState, response: Response<Json>)
    ensures var r := ReduceAll(s, ProfileActions(response));
      if Readable(response) then r == UserState(Member(response.data, "admin"), true, false, None)
      else
        && r.error == Some(FailureMessage(response, ProfileFallback))
        && r.user == s.user && r.isAuthenticated == s.isAuthenticated && !r.loading
        && (response.Ok? || !Truthy(response.error.dataMessage) ==> r.error == Some("Failed to fetch profile"))
  {
    var actions := ProfileActions(response);
    ReduceThree(s, actions[0], actions[1], actions[2]);
  }

  /** `adminSignIn(credentials)(dispatch)`. */
  method AdminSignIn(store: Store, response: Response<Json>) returns (result: Outcome)
    requires store.Valid()
    modifies store
    ensures store.dispatched == old(store.dispatched) + SignInActions(response)
    ensures store.State() == ReduceAll(old(store.State()), SignInActions(response))
    ensures result == if Readable(response) then Succeeded(None) else FailureOf(response, SignInFallback)
    ensures store.Valid()
  {
    ghost var s0 := store.State();
    store.Dispatch(LoginRequest);
    if response.Ok? && !response.data.JNull? {
      store.Dispatch(Login(Member(response.data, "admin")));
      result := Succeeded(None);
    } else {
      var message := FailureMessage(response, SignInFallback);
      store.Dispatch(LoginFailure(message));
      result := Failed(message);
    }
    ReduceTwo(s0, SignInActions(response)[0], SignInActions(response)[1]);
  }

  /** `adminGoogleSignIn(code)(dispatch)`. */
  method AdminGoogleSignIn(store: Store, response: Response<Json>) returns (result: Outcome)
    requires store.Valid()
    modifies store
    ensures store.dispatched == old(store.dispatched) + GoogleSignInActions(response)
    ensures store.State() == ReduceAll(old(store.State()), GoogleSignInActions(response))
    ensures result == if response.Ok? then Succeeded(None) else FailureOf(response, GoogleSignInFallback)
    ensures store.Valid()
  {
    ghost var s0 := store.State();
    store.Dispatch(LoginRequest);
    match response {
      case Ok(data) =>
        store.Dispatch(Login(data));
        result := Succeeded(None);
      case Err(e) =>
        var message := ServerMessageOr(e, GoogleSignInFallback);
        store.Dispatch(LoginFailure(message));
        result := Failed(message);
    }
    ReduceTwo(s0, GoogleSignInActions(response)[0], GoogleSignInActions(response)[1]);
  }

  /** `adminRefreshToken()(dispatch)`: success returns the `accessToken` of the response. */
  method AdminRefreshToken(store: Store, response: Response<Json>) returns (result: Outcome)
    requires store.Valid()
    modifies store
    ensures store.dispatched == old(store.dispatched) + RefreshTokenActions(response)
    ensures store.State() == ReduceAll(old(store.State()), RefreshTokenActions(response))
    ensures result == if Readable(response) then Succeeded(Some(Member(response.data, "accessToken")))
                      else FailureOf(response, RefreshFallback)
    ensures store.Valid()
  {
    ghost var s0 := store.State();
    store.Dispatch(SetLoading(true));
    match response {
      case Ok(data) =>
        store.Dispatch(ClearError);
        if data.JNull? {
          store.Dispatch(LoginFailure(RefreshFallback));
          result := Failed(RefreshFallback);
        } else {
          result := Succeeded(Some(Member(data, "accessToken")));
        }
      case Err(e) =>
        var message := ServerMessageOr(e, RefreshFallback);
        store.Dispatch(LoginFailure(message));
        result := Failed(message);
    }
    store.Dispatch(SetLoading(false));
    var actions := RefreshTokenActions(response);
    if |actions| == 4 {
      ReduceFour(s0, actions[0], actions[1], actions[2], actions[3]);
    } else {
      ReduceThree(s0, actions[0], actions[1], actions[2]);
    }
  }

  /** `adminLogout()(dispatch)`. */
  method AdminLogout(store: Store, response: Response<Json>) returns (result: Outcome)
    requires store.Valid()
    modifies store
    ensures store.dispatched == old(store.dispatched) + LogoutActions(response)
    ensures store.State() == ReduceAll(old(store.State()), LogoutActions(response))
    ensures result == if response.Ok? then Succeeded(None) else FailureOf(response, LogoutFallback)
    ensures store.Valid()
  {
    ghost var s0 := store.State();
    store.Dispatch(SetLoading(true));
    match response {
      case Ok(_) =>
        store.Dispatch(Logout);
        result := Succeeded(None);
      case Err(e) =>
        var message := ServerMessageOr(e, LogoutFallback);
        store.Dispatch(LoginFailure(message));
        result := Failed(message);
    }
    store.Dispatch(SetLoading(false));
    var actions := LogoutActions(response);
    ReduceThree(s0, actions[0], actions[1], actions[2]);
  }

  /** `fetchAdminProfileThunk()(dispatch)`: success returns the `admin` member. */
  method FetchAdminProfile(store: Store, response: Response<Json>) returns (result: Outcome)
    requires store.Valid()
    modifies store
    ensures store.dispatched == old(store.dispatched) + ProfileActions(response)
    ensures store.State() == ReduceAll(old(store.State()), ProfileActions(response))
    ensures result == if Readable(response) then Succeeded(Some(Member(response.data, "admin")))
                      else FailureOf(response, ProfileFallback)
    ensures store.Valid()
  {
    ghost var s0 := store.State();
    store.Dispatch(SetLoading(true));
    if response.Ok? && !response.data.JNull? {
      var admin := Member(response.data, "admin");
      store.Dispatch(Login(admin));
      result := Succeeded(Some(admin));
    } else {
      var message := FailureMessage(response, ProfileFallback);
      store.Dispatch(LoginFailure(message));
      result := Failed(message);
    }
    store.Dispatch(SetLoading(false));
    var actions := ProfileActions(response);
    ReduceThree(s0, actions[0], actions[1], actions[2]);
  }
}
