/** The session slice of the client store: who is signed in, whether a session request is
    pending, and the last error. Each reducer assigns fields of the state in place. */
module UserSlice {
  import opened Wrappers
  import opened Http

  datatype UserState = UserState(user: Json, isAuthenticated: bool, loading: bool, error: Option<string>)

  datatype Action =
    | Login(user: Json)
    | LoginRequest
    | LoginFailure(message: string)
    | Logout
    | UpdateUser(patch: map<string, Json>)
    | SetLoading(loading: bool)
    | ClearError

  /** No user while the session is being looked up. */
  const Initial: UserState := UserState(JNull, false, true, None)

  /** `{ ...user, ...patch }`: spreading `null` (or another non-object) contributes nothing. */
  function MergeUser(user: Json, patch: map<string, Json>): (r: Json)
    ensures r.JObj?
    ensures forall k :: k in patch ==> k in r.fields && r.fields[k] == patch[k]
    ensures user.JObj? ==> forall k :: k in user.fields && k !in patch ==> k in r.fields && r.fields[k] == user.fields[k]
    ensures forall k :: k in r.fields ==> k in patch || (user.JObj? && k in user.fields)
  {
    if user.JObj? then JObj(user.fields + patch) else JObj(patch)
  }

  /** The slice reducer. */
  function Reduce(s: UserState, a: Action): UserState {
    match a
    case Login(u) => UserState(u, true, false, None)
    case LoginRequest => s.(loading := true, error := None)
    case LoginFailure(m) => s.(loading := false, error := Some(m))
    case Logout => UserState(JNull, false, false, None)
    case UpdateUser(p) => s.(user := MergeUser(s.user, p))
    case SetLoading(b) => s.(loading := b)
    case ClearError => s.(error := None)
  }

  function ReduceAll(s: UserState, actions: seq<Action>): UserState
    decreases |actions|
  {
    if actions == [] then s else ReduceAll(Reduce(s, actions[0]), actions[1..])
  }

  lemma {:induction false} ReduceAllSnoc(s: UserState, actions: seq<Action>, a: Action)
    ensures ReduceAll(s, actions + [a]) == Reduce(ReduceAll(s, actions), a)
    decreases |actions|
  {
    if actions == [] {
      assert [] + [a] == [a];
    } else {
      assert (actions + [a])[1..] == actions[1..] + [a];
      ReduceAllSnoc(Reduce(s, actions[0]), actions[1..], a);
    }
  }

  lemma {:induction false} ReduceAllConcat(s: UserState, xs: seq<Action>, ys: seq<Action>)
    ensures ReduceAll(s, xs + ys) == ReduceAll(ReduceAll(s, xs), ys)
    decreases |xs|
  {
    if xs == [] {
      assert xs + ys == ys;
    } else {
      assert (xs + ys)[1..] == xs[1..] + ys;
      ReduceAllConcat(Reduce(s, xs[0]), xs[1..], ys);
    }
  }

  /** What each reducer promises: the fields it sets, and that it leaves the others alone. */
  lemma ReducerEffects(s: UserState, a: Action)
    ensures var r := Reduce(s, a);
      match a
      case Login(u) => r.user == u && r.isAuthenticated && !r.loading && r.error == None
      case LoginRequest => r.loading && r.error == None && r.user == s.user && r.isAuthenticated == s.isAuthenticated
      case LoginFailure(m) => !r.loading && r.error == Some(m) && r.user == s.user && r.isAuthenticated == s.isAuthenticated
      case Logout => r == Initial.(loading := false)
      case UpdateUser(p) => r.user.JObj? && r.(user := s.user) == s
      case SetLoading(b) => r.loading == b && r.(loading := s.loading) == s
      case ClearError => r.error == None && r.(error := s.error) == s
  {
  }

  /** Dispatching the same action twice has the effect of dispatching it once. */
  lemma ReduceIdempotent(s: UserState, a: Action)
    ensures Reduce(Reduce(s, a), a) == Reduce(s, a)
  {
    if a.UpdateUser? {
      var u := Reduce(s, a).user;
      assert u.JObj?;
      assert u.fields + a.patch == u.fields;
    }
  }

  /** The store: the slice's state, and the actions dispatched to it so far. */
  class Store {
    var user: Json
    var isAuthenticated: bool
    var loading: bool
    var error: Option<string>
    ghost var dispatched: seq<Action>

    function State(): UserState
      reads this
    {
      UserState(user, isAuthenticated, loading, error)
    }

    /** The state is what the dispatched actions make of the initial state. */
    ghost predicate Valid()
      reads this
    {
      State() == ReduceAll(Initial, dispatched)
    }

    constructor()
      ensures State() == Initial && dispatched == [] && Valid()
    {
      user := JNull;
      isAuthenticated := false;
      loading := true;
      error := None;
      dispatched := [];
    }

    method Dispatch(a: Action)
      requires Valid()
      modifies this
      ensures State() == Reduce(old(State()), a)
      ensures dispatched == old(dispatched) + [a]
      ensures Valid()
    {
      match a {
        case Login(u) =>
          user := u;
          isAuthenticated := true;
          loading := false;
          error := None;
        case LoginRequest =>
          loading := true;
          error := None;
        case LoginFailure(m) =>
          loading := false;
          error := Some(m);
        case Logout =>
          user := JNull;
          isAuthenticated := false;
          loading := false;
          error := None;
        case UpdateUser(p) =>
          user := MergeUser(user, p);
        case SetLoading(b) =>
          loading := b;
        case ClearError =>
          error := None;
      }
      ReduceAllSnoc(Initial, dispatched, a);
      dispatched := dispatched + [a];
    }
  }
}
