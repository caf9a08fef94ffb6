/** The token-refresh coordinator of the shared HTTP client: a response interceptor, a
    module-level `isRefreshing` flag and a queue of callbacks that re-send the requests that
    failed with 401 while a refresh was in flight. Promise scheduling is replaced by explicit
    events handled one at a time. */
module RefreshCoordinator {
  import opened Wrappers
  import opened Seqs

  /** A request as the interceptor sees it: an identity and its `_retry` mark. */
  datatype Request = Request(id: nat, retry: bool)

  /** What the interceptor hands back to the caller. */
  datatype Failure =
    | ResponseError(request: Request, status: Option<int>)   // the error it was given
    | RefreshError(reason: string)                           // the error of the refresh call

  /** What the interceptor does to the outside world. */
  datatype Effect =
    | PassThrough(id: nat)      // the response goes to the caller unchanged
    | IssueRefresh              // GET /api/user/auth/refresh-token
    | Resend(request: Request)  // `axiosInstance(request)`
    | Reject(failure: Failure)  // `Promise.reject(...)` to the caller
    | Redirect(href: string)    // `window.location.href = ...`

  datatype Event =
    | ResponseOk(id: nat)
    | ResponseFailed(request: Request, status: Option<int>)
    | RefreshOk
    | RefreshFailed(pathname: string, reason: string)

  /** The module state, plus the request of the interceptor call suspended on the refresh. */
  datatype Coord = Coord(isRefreshing: bool, refreshSubscribers: seq<Request>, awaiting: Option<Request>)

  const Idle: Coord := Coord(false, [], None)

  const SignIn: string := "/signin"
  const SignUp: string := "/signup"

  /** A queue exists only while a refresh is in flight, and the request that started the
      refresh carries the retry mark. */
  predicate Valid(c: Coord) {
    && (!c.isRefreshing ==> c.refreshSubscribers == [] && c.awaiting == None)
    && (c.isRefreshing ==> c.awaiting.Some? && c.awaiting.value.retry)
  }

  /** The requests the interceptor tries to recover: a 401 on a request not yet retried. */
  predicate Recoverable(request: Request, status: Option<int>) {
    status == Some(401) && !request.retry
  }

  function ResendOf(r: Request): Effect { Resend(r) }

  /** `onTokenRefreshed` followed by the re-send of the original request. */
  function DrainEffects(c: Coord): seq<Effect>
    requires c.awaiting.Some?
  {
    MapSeq(c.refreshSubscribers, ResendOf) + [Resend(c.awaiting.value)]
  }

  /** The redirect of a failed refresh: to the sign-in page unless already on an auth page. */
  function RedirectFor(pathname: string): seq<Effect> {
    if pathname != SignIn && pathname != SignUp then [Redirect(SignIn)] else []
  }

  /** One event. A refresh outcome is only ever delivered while a refresh is in flight; one
      arriving otherwise is ignored. */
  function Step(c: Coord, e: Event): (Coord, seq<Effect>) {
    match e
    case ResponseOk(id) => (c, [PassThrough(id)])
    case ResponseFailed(request, status) =>
      if Recoverable(request, status) then
        if c.isRefreshing then (c.(refreshSubscribers := c.refreshSubscribers + [request]), [])
        else (Coord(true, c.refreshSubscribers, Some(request.(retry := true))), [IssueRefresh])
      else (c, [Reject(ResponseError(request, status))])
    case RefreshOk =>
      if c.isRefreshing && c.awaiting.Some? then (Coord(false, [], None), DrainEffects(c)) else (c, [])
    case RefreshFailed(pathname, reason) =>
      if c.isRefreshing then
        (Coord(false, [], None), RedirectFor(pathname) + [Reject(RefreshError(reason))])
      else (c, [])
  }

  /** The final state and every effect, in order, of a sequence of events. */
  function Run(c: Coord, es: seq<Event>): (Coord, seq<Effect>)
    decreases |es|
  {
    if es == [] then (c, [])
    else
      var (c1, out1) := Step(c, es[0]);
      var (c2, out2) := Run(c1, es[1..]);
      (c2, out1 + out2)
  }

  lemma IdleValid()
    ensures Valid(Idle) && !Idle.isRefreshing && Idle.refreshSubscribers == []
  {
  }

  lemma StepValid(c: Coord, e: Event)
    requires Valid(c)
    ensures Valid(Step(c, e).0)
  {
  }

  lemma {:induction false} RunValid(c: Coord, es: seq<Event>)
    requires Valid(c)
    ensures Valid(Run(c, es).0)
    decreases |es|
  {
    if es != [] {
      StepValid(c, es[0]);
      RunValid(Step(c, es[0]).0, es[1..]);
    }
  }

  /** A refresh is issued only from the idle state, by a recoverable 401, and leaves the
      coordinator refreshing. */
  lemma IssueOnlyWhenIdle(c: Coord, e: Event)
    requires IssueRefresh in Step(c, e).1
    ensures !c.isRefreshing && e.ResponseFailed? && Recoverable(e.request, e.status)
    ensures Step(c, e).0.isRefreshing
  {
  }

  predicate IsOutcome(e: Event) { e.RefreshOk? || e.RefreshFailed? }

  /** At most one refresh in flight: until an outcome arrives, no event issues another one,
      and the coordinator stays refreshing. */
  lemma {:induction false} NoSecondRefresh(c: Coord, es: seq<Event>)
    requires c.isRefreshing
    requires forall i :: 0 <= i < |es| ==> !IsOutcome(es[i])
    ensures IssueRefresh !in Run(c, es).1
    ensures Run(c, es).0.isRefreshing
    decreases |es|
  {
    if es != [] {
      var c1 := Step(c, es[0]).0;
      assert IssueRefresh !in Step(c, es[0]).1;
      NoSecondRefresh(c1, es[1..]);
    }
  }

  /** The recoverable requests of `es`, in arrival order. */
  function Recoverables(es: seq<Event>): seq<Request>
    decreases |es|
  {
    if es == [] then []
    else (if es[0].ResponseFailed? && Recoverable(es[0].request, es[0].status) then [es[0].request] else [])
         + Recoverables(es[1..])
  }

  /** While a refresh is in flight, each recoverable 401 joins the end of the queue, and the
      request that started the refresh stays the one awaiting it. */
  lemma {:induction false} QueueInArrivalOrder(c: Coord, es: seq<Event>)
    requires c.isRefreshing
    requires forall i :: 0 <= i < |es| ==> !IsOutcome(es[i])
    ensures Run(c, es).0.refreshSubscribers == c.refreshSubscribers + Recoverables(es)
    ensures Run(c, es).0.awaiting == c.awaiting
    decreases |es|
  {
    if es != [] {
      var e := es[0];
      var c1 := Step(c, e).0;
      var head := if e.ResponseFailed? && Recoverable(e.request, e.status) then [e.request] else [];
      assert !IsOutcome(e);
      assert c1 == c.(refreshSubscribers := c.refreshSubscribers + head);
      assert Run(c, es).0 == Run(c1, es[1..]).0;
      assert Recoverables(es) == head + Recoverables(es[1..]);
      assert forall i :: 0 <= i < |es[1..]| ==> !IsOutcome(es[1..][i]) by {
        forall i | 0 <= i < |es[1..]| ensures !IsOutcome(es[1..][i]) {
          assert es[1..][i] == es[i + 1];
        }
      }
      QueueInArrivalOrder(c1, es[1..]);
      assert c.refreshSubscribers + head + Recoverables(es[1..]) == c.refreshSubscribers + (head + Recoverables(es[1..]));
    }
  }

  /** A successful refresh re-sends every queued request once, in queue order, then the
      original request, which carries the retry mark; the queue is emptied and the
      coordinator is idle again. */
  lemma RefreshOkDrains(c: Coord)
    requires Valid(c) && c.isRefreshing
    ensures Step(c, RefreshOk).0 == Idle
    ensures var out := Step(c, RefreshOk).1;
      && |out| == |c.refreshSubscribers| + 1
      && (forall i :: 0 <= i < |c.refreshSubscribers| ==> out[i] == Resend(c.refreshSubscribers[i]))
      && out[|out| - 1] == Resend(c.awaiting.value) && c.awaiting.value.retry
  {
  }

  /** A failed refresh empties the queue without re-sending or rejecting any queued request,
      redirects unless on an auth page, and hands the refresh error to the original caller. */
  lemma RefreshFailDropsQueue(c: Coord, pathname: string, reason: string)
    requires Valid(c) && c.isRefreshing
    ensures Step(c, RefreshFailed(pathname, reason)).0 == Idle
    ensures var out := Step(c, RefreshFailed(pathname, reason)).1;
      && out[|out| - 1] == Reject(RefreshError(reason))
      && (Redirect(SignIn) in out <==> pathname != SignIn && pathname != SignUp)
      && forall i :: 0 <= i < |out| ==> !out[i].Resend?
  {
  }

  /** Successes, other errors and 401s on retried requests go through unchanged and leave the
      state alone; in particular a retried request is never retried again. */
  lemma PassThroughUnchanged(c: Coord, request: Request, status: Option<int>, id: nat)
    requires !Recoverable(request, status)
    ensures Step(c, ResponseFailed(request, status)) == (c, [Reject(ResponseError(request, status))])
    ensures Step(c, ResponseOk(id)) == (c, [PassThrough(id)])
  {
  }

  /** The requests re-sent from the queue do not carry the retry mark, so a new 401 on one of
      them, once the coordinator is idle, starts a new refresh. */
  lemma QueuedResendCanRefreshAgain(c: Coord, e: Event)
    requires Valid(c) && c.isRefreshing && e.ResponseFailed? && Recoverable(e.request, e.status)
    ensures Step(Step(c, e).0, RefreshOk).1[|c.refreshSubscribers|] == Resend(e.request)
    ensures !e.request.retry
    ensures Step(Idle, e) == (Coord(true, [], Some(e.request.(retry := true))), [IssueRefresh])
  {
  }

  lemma RunCons(c: Coord, e: Event, rest: seq<Event>)
    ensures Run(c, [e] + rest) ==
      (Run(Step(c, e).0, rest).0, Step(c, e).1 + Run(Step(c, e).0, rest).1)
  {
    assert ([e] + rest)[1..] == rest;
  }

  /** Two requests failing with 401 together: one refresh, then both re-sent, the second from
      the queue first and the first as the original. */
  lemma TwoRequestsOneRefresh(a: Request, b: Request)
    requires !a.retry && !b.retry
    ensures Run(Idle, [ResponseFailed(a, Some(401)), ResponseFailed(b, Some(401)), RefreshOk])
            == (Idle, [IssueRefresh, Resend(b), Resend(a.(retry := true))])
  {
    var c1 := Coord(true, [], Some(a.(retry := true)));
    var c2 := c1.(refreshSubscribers := [b]);
    assert MapSeq([b], ResendOf) == [Resend(b)] + MapSeq([b][1..], ResendOf);
    assert DrainEffects(c2) == [Resend(b), Resend(a.(retry := true))];
    RunCons(c2, RefreshOk, []);
    assert DrainEffects(c2) + [] == DrainEffects(c2);
    assert [] + DrainEffects(c2) == DrainEffects(c2);
    assert [IssueRefresh] + DrainEffects(c2) == [IssueRefresh, Resend(b), Resend(a.(retry := true))];
    RunCons(c1, ResponseFailed(b, Some(401)), [RefreshOk]);
    RunCons(Idle, ResponseFailed(a, Some(401)), [ResponseFailed(b, Some(401)), RefreshOk]);
    assert [ResponseFailed(a, Some(401)), ResponseFailed(b, Some(401)), RefreshOk]
        == [ResponseFailed(a, Some(401))] + [ResponseFailed(b, Some(401)), RefreshOk];
    assert [ResponseFailed(b, Some(401)), RefreshOk] == [ResponseFailed(b, Some(401))] + [RefreshOk];
    assert [RefreshOk] == [RefreshOk] + [];
  }

  /** A refresh that fails: the caller gets the refresh error and the client goes to the
      sign-in page, unless it is already there. */
  lemma RefreshFailsScenario(a: Request, pathname: string, reason: string)
    requires !a.retry
    ensures Run(Idle, [ResponseFailed(a, Some(401)), RefreshFailed(pathname, reason)])
            == (Idle, [IssueRefresh] + RedirectFor(pathname) + [Reject(RefreshError(reason))])
  {
    var c1 := Coord(true, [], Some(a.(retry := true)));
    RunCons(c1, RefreshFailed(pathname, reason), []);
    assert Step(Idle, ResponseFailed(a, Some(401))) == (c1, [IssueRefresh]);
    assert Run(Idle, []) == (Idle, []);
    assert Step(c1, RefreshFailed(pathname, reason)) == (Idle, RedirectFor(pathname) + [Reject(RefreshError(reason))]);
    var out := RedirectFor(pathname) + [Reject(RefreshError(reason))];
    assert out + [] == out;
    assert [IssueRefresh] + out == [IssueRefresh] + RedirectFor(pathname) + [Reject(RefreshError(reason))];
    RunCons(Idle, ResponseFailed(a, Some(401)), [RefreshFailed(pathname, reason)]);
    assert [ResponseFailed(a, Some(401)), RefreshFailed(pathname, reason)]
        == [ResponseFailed(a, Some(401))] + [RefreshFailed(pathname, reason)];
    assert [RefreshFailed(pathname, reason)] == [RefreshFailed(pathname, reason)] + [];
  }

  /** The coordinator as the client holds it: the two module variables, with the request the
      suspended interceptor call will re-send once the refresh succeeds. */
  class Interceptor {
    var isRefreshing: bool
    var refreshSubscribers: seq<Request>
    var awaiting: Option<Request>

    function Model(): Coord
      reads this
    {
      Coord(isRefreshing, refreshSubscribers, awaiting)
    }

    constructor()
      ensures Model() == Idle
    {
      isRefreshing := false;
      refreshSubscribers := [];
      awaiting := None;
    }

    /** A response that arrived: passed through unchanged. */
    method OnResponse(id: nat) returns (effects: seq<Effect>)
      ensures effects == [PassThrough(id)] && (Model(), effects) == Step(Model(), ResponseOk(id))
    {
      effects := [PassThrough(id)];
    }

    /** The error branch of the interceptor. */
    method OnResponseError(request: Request, status: Option<int>) returns (effects: seq<Effect>)
      modifies this
      ensures (Model(), effects) == Step(old(Model()), ResponseFailed(request, status))
    {
      if status == Some(401) && !request.retry {
        if isRefreshing {
          refreshSubscribers := refreshSubscribers + [request];  // addRefreshSubscriber
          effects := [];
          return;
        }
        var original := request.(retry := true);
        isRefreshing := true;
        awaiting := Some(original);
        effects := [IssueRefresh];
        return;
      }
      effects := [Reject(ResponseError(request, status))];
    }

    /** The refresh call succeeded: `onTokenRefreshed`, then the original request again. */
    method OnRefreshOk() returns (effects: seq<Effect>)
      requires Valid(Model()) && isRefreshing
      modifies this
      ensures (Model(), effects) == Step(old(Model()), RefreshOk)
    {
      var original := awaiting.value;
      var queue := refreshSubscribers;
      effects := [];
      var i := 0;
      while i < |queue|
        invariant 0 <= i <= |queue|
        invariant effects == MapSeq(queue[..i], ResendOf)
      {
        assert queue[..i + 1] == queue[..i] + [queue[i]];
        MapSeqSnoc(queue[..i], queue[i], ResendOf);
        effects := effects + [Resend(queue[i])];
        i := i + 1;
      }
      assert queue[..i] == queue;
      refreshSubscribers := [];
      isRefreshing := false;
      awaiting := None;
      effects := effects + [Resend(original)];
    }

    /** The refresh call failed. */
    method OnRefreshFailed(pathname: string, reason: string) returns (effects: seq<Effect>)
      requires isRefreshing
      modifies this
      ensures (Model(), effects) == Step(old(Model()), RefreshFailed(pathname, reason))
    {
      isRefreshing := false;
      refreshSubscribers := [];
      awaiting := None;
      effects := [];
      if pathname != SignIn && pathname != SignUp {
        effects := [Redirect(SignIn)];
      }
      effects := effects + [Reject(RefreshError(reason))];
    }
  }
}
