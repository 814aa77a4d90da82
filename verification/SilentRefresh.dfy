/**
 The browser's silent token refresh: requests that meet a 401 share one refresh call,
 then are sent once more or rejected with their own error.
 */
module SilentRefresh {
  import opened Wrappers

  datatype Phase =
    | Idle
    | InFlight
    | Waiting(refresh: nat)
    | Resolved
    | Rejected(error: string)

  /**
   A request; `retried` is its `_retry` mark.  `sends` and `unauthorized`, the error and
   the refresh call of its first 401, record history.
   */
  datatype Request = Request(phase: Phase, retried: bool, sends: nat, unauthorized: Option<FirstUnauthorized>)

  datatype FirstUnauthorized = FirstUnauthorized(refresh: nat, error: string)

  datatype RefreshCall = Outstanding | Gave(token: string) | Failed

  /** `refreshes` lists all refresh calls made; `refreshPromise` is the one to share. */
  datatype Client = Client(
    requests: seq<Request>,
    refreshes: seq<RefreshCall>,
    refreshPromise: Option<nat>,
    accessToken: Option<string>)

  datatype Happening =
    | Send(i: nat)
    | Succeed(i: nat)
    | Fail(i: nat, status: nat, error: string)
    | RefreshReturns(token: Option<string>)
    | Resume(i: nat)

  const NEW_REQUEST := Request(Idle, false, 0, None)

  predicate CanHappen(c: Client, h: Happening) {
    match h
    case Send(i) => i < |c.requests| && c.requests[i].phase == Idle
    case Succeed(i) => i < |c.requests| && c.requests[i].phase == InFlight
    case Fail(i, _, _) => i < |c.requests| && c.requests[i].phase == InFlight
    case RefreshReturns(_) =>
      c.refreshPromise.Some? && c.refreshPromise.value < |c.refreshes| && c.refreshes[c.refreshPromise.value] == Outstanding
    case Resume(i) =>
      && i < |c.requests| && c.requests[i].phase.Waiting?
      && c.requests[i].phase.refresh < |c.refreshes| && c.refreshes[c.requests[i].phase.refresh] != Outstanding
  }

  function WithPhase(c: Client, i: nat, phase: Phase): Client
    requires i < |c.requests|
  {
    c.(requests := c.requests[i := c.requests[i].(phase := phase)])
  }

  function WaitFor(c: Client, i: nat, refresh: nat, error: string): Client
    requires i < |c.requests|
  {
    c.(requests := c.requests[i :=
      Request(Waiting(refresh), true, c.requests[i].sends, Some(FirstUnauthorized(refresh, error)))])
  }

  function Handle(c: Client, h: Happening): Client
    requires CanHappen(c, h)
  {
    match h
    case Send(i) => c.(requests := c.requests[i := c.requests[i].(phase := InFlight, sends := c.requests[i].sends + 1)])
    case Succeed(i) => WithPhase(c, i, Resolved)
    case Fail(i, status, error) =>
      if status != 401 || c.requests[i].retried then WithPhase(c, i, Rejected(error))
      else if c.refreshPromise.Some? then WaitFor(c, i, c.refreshPromise.value, error)
      else WaitFor(c, i, |c.refreshes|, error).(refreshes := c.refreshes + [Outstanding], refreshPromise := Some(|c.refreshes|))
    case RefreshReturns(token) =>
      c.(refreshes := c.refreshes[c.refreshPromise.value := if token.Some? then Gave(token.value) else Failed],
         refreshPromise := None)
    case Resume(i) =>
      match c.refreshes[c.requests[i].phase.refresh]
      case Gave(token) =>
        c.(accessToken := Some(token),
           requests := c.requests[i := c.requests[i].(phase := InFlight, sends := c.requests[i].sends + 1)])
      case Failed =>
        WithPhase(c, i, Rejected(c.requests[i].unauthorized.GetOr(FirstUnauthorized(0, "")).error)).(accessToken := None)
  }

  // ---- The client ------------------------------------------------------------

  class ApiClient {
    var requests: seq<Request>
    var refreshes: seq<RefreshCall>
    var refreshPromise: Option<nat>
    var accessToken: Option<string>

    function View(): Client
      reads this
    {
      Client(requests, refreshes, refreshPromise, accessToken)
    }

    constructor (n: nat, accessToken: Option<string>)
      ensures View() == Client(seq(n, _ => NEW_REQUEST), [], None, accessToken)
    {
      requests, refreshes, refreshPromise := seq(n, _ => NEW_REQUEST), [], None;
      this.accessToken := accessToken;
    }

    method Issue(i: nat)
      requires i < |requests|
      modifies this`requests
      ensures requests == old(requests)[i := old(requests)[i].(phase := InFlight, sends := old(requests)[i].sends + 1)]
    {
      requests := requests[i := requests[i].(phase := InFlight, sends := requests[i].sends + 1)];
    }

    /** The error half of the response interceptor, up to its `await`. */
    method OnResponseError(i: nat, status: nat, error: string)
      requires CanHappen(View(), Fail(i, status, error))
      modifies this
      ensures View() == Handle(old(View()), Fail(i, status, error))
      ensures status == 401 && !old(requests)[i].retried
              ==> requests[i].retried && requests[i].phase.Waiting? && requests[i].unauthorized.Some?
                  && requests[i].unauthorized.value.error == error && |refreshes| <= |old(refreshes)| + 1
      ensures !(status == 401 && !old(requests)[i].retried)
              ==> requests == old(requests)[i := old(requests)[i].(phase := Rejected(error))]
                  && refreshes == old(refreshes) && refreshPromise == old(refreshPromise)
    {
      if status == 401 && !requests[i].retried {
        if refreshPromise.None? {
          refreshPromise := Some(|refreshes|);
          refreshes := refreshes + [Outstanding];
        }
        requests := requests[i := Request(Waiting(refreshPromise.value), true, requests[i].sends,
                                          Some(FirstUnauthorized(refreshPromise.value, error)))];
      } else {
        requests := requests[i := requests[i].(phase := Rejected(error))];
      }
    }

    /** The `finally` of the refresh call. */
    method OnRefreshSettled(token: Option<string>)
      requires CanHappen(View(), RefreshReturns(token))
      modifies this
      ensures View() == Handle(old(View()), RefreshReturns(token))
    {
      refreshes := refreshes[refreshPromise.value := if token.Some? then Gave(token.value) else Failed];
      refreshPromise := None;
    }

    /** The interceptor after its `await`: send again with the new token, or clear and reject. */
    method OnResumed(i: nat)
      requires CanHappen(View(), Resume(i))
      modifies this
      ensures View() == Handle(old(View()), Resume(i))
    {
      match refreshes[requests[i].phase.refresh] {
        case Gave(token) =>
          accessToken := Some(token);
          Issue(i);
        case Failed =>
          accessToken := None;
          requests := requests[i := requests[i].(phase := Rejected(requests[i].unauthorized.GetOr(FirstUnauthorized(0, "")).error))];
      }
    }
  }

  // ---- What always holds -----------------------------------------------------

  function Retried(requests: seq<Request>): nat {
    if requests == [] then 0 else (if requests[0].retried then 1 else 0) + Retried(requests[1..])
  }

  predicate Done(r: Request) {
    r.phase.Resolved? || r.phase.Rejected?
  }

  /** What is true of one request, given the refresh calls. */
  ghost predicate RequestOk(refreshes: seq<RefreshCall>, r: Request) {
    && (r.retried <==> r.unauthorized.Some?)
    && r.sends <= (if r.retried then 2 else 1)
    && (r.phase.Idle? ==> r.sends == 0 && !r.retried)
    && (r.phase.InFlight? && !r.retried ==> r.sends == 1)
    && (r.phase.Waiting? ==> r.retried && r.sends == 1 && r.unauthorized.value.refresh == r.phase.refresh)
    && (r.retried ==> r.unauthorized.value.refresh < |refreshes|)
    && (r.retried && !r.phase.Waiting? ==>
          match refreshes[r.unauthorized.value.refresh]
          case Outstanding => false
          case Gave(_) => r.sends == 2
          case Failed => r.sends == 1 && r.phase == Rejected(r.unauthorized.value.error))
  }

  ghost predicate ClientOk(c: Client) {
    && (forall g | 0 <= g < |c.refreshes| :: c.refreshes[g] == Outstanding <==> c.refreshPromise == Some(g))
    && (c.refreshPromise.Some? ==> c.refreshPromise.value < |c.refreshes|)
    && (forall i | 0 <= i < |c.requests| :: RequestOk(c.refreshes, c.requests[i]))
    && |c.refreshes| <= Retried(c.requests)
  }

  lemma {:induction false} RetriedUpdate(requests: seq<Request>, i: nat, r: Request)
    requires i < |requests|
    ensures Retried(requests[i := r]) + (if requests[i].retried then 1 else 0) == Retried(requests) + (if r.retried then 1 else 0)
  {
    if i == 0 {
      assert requests[i := r][1..] == requests[1..];
    } else {
      assert requests[i := r][1..] == requests[1..][i - 1 := r];
      RetriedUpdate(requests[1..], i - 1, r);
    }
  }

  lemma ReturnKeepsClient(c: Client, token: Option<string>)
    requires ClientOk(c) && CanHappen(c, RefreshReturns(token))
    ensures ClientOk(Handle(c, RefreshReturns(token)))
  {}

  /** A first 401 leaves the request waiting for the shared call, which exists by then. */
  lemma FailKeepsClient(c: Client, i: nat, status: nat, error: string)
    requires ClientOk(c) && CanHappen(c, Fail(i, status, error))
    ensures ClientOk(Handle(c, Fail(i, status, error)))
  {
    assert RequestOk(c.refreshes, c.requests[i]);
    if status != 401 || c.requests[i].retried {
      RetriedUpdate(c.requests, i, c.requests[i].(phase := Rejected(error)));
    } else if c.refreshPromise.Some? {
      JoiningKeepsClient(c, i, error);
    } else {
      RefreshingKeepsClient(c, i, error);
    }
  }

  lemma JoiningKeepsClient(c: Client, i: nat, error: string)
    requires ClientOk(c) && i < |c.requests| && c.requests[i].phase == InFlight && !c.requests[i].retried
    requires c.refreshPromise.Some?
    ensures ClientOk(WaitFor(c, i, c.refreshPromise.value, error))
  {
    RetriedUpdate(c.requests, i, WaitFor(c, i, c.refreshPromise.value, error).requests[i]);
  }

  lemma RefreshingKeepsClient(c: Client, i: nat, error: string)
    requires ClientOk(c) && i < |c.requests| && c.requests[i].phase == InFlight && !c.requests[i].retried
    requires c.refreshPromise.None?
    ensures var waiting := WaitFor(c, i, |c.refreshes|, error);
            ClientOk(waiting.(refreshes := c.refreshes + [Outstanding], refreshPromise := Some(|c.refreshes|)))
  {
    RetriedUpdate(c.requests, i, WaitFor(c, i, |c.refreshes|, error).requests[i]);
  }

  /** Any other happening moves one request and no refresh call. */
  lemma AnswerKeepsClient(c: Client, h: Happening)
    requires ClientOk(c) && CanHappen(c, h) && !h.RefreshReturns? && !h.Fail?
    ensures ClientOk(Handle(c, h))
  {
    var c' := Handle(c, h);
    assert RequestOk(c.refreshes, c.requests[h.i]);
    assert c'.refreshes == c.refreshes && c'.requests == c.requests[h.i := c'.requests[h.i]];
    AnsweredRequestIsOk(c, h);
    RetriedUpdate(c.requests, h.i, c'.requests[h.i]);
  }

  lemma AnsweredRequestIsOk(c: Client, h: Happening)
    requires ClientOk(c) && CanHappen(c, h) && !h.RefreshReturns? && !h.Fail?
    ensures RequestOk(c.refreshes, Handle(c, h).requests[h.i]) && Handle(c, h).requests[h.i].retried == c.requests[h.i].retried
  {
    assert RequestOk(c.refreshes, c.requests[h.i]);
  }

  lemma HandleKeepsClient(c: Client, h: Happening)
    requires ClientOk(c) && CanHappen(c, h)
    ensures ClientOk(Handle(c, h))
  {
    match h
    case RefreshReturns(token) => ReturnKeepsClient(c, token);
    case Fail(i, status, error) => FailKeepsClient(c, i, status, error);
    case _ => AnswerKeepsClient(c, h);
  }

  type Happenings = seq<Happening>

  predicate Possible(c: Client, hs: Happenings)
    decreases |hs|
  {
    hs == [] || (CanHappen(c, hs[0]) && Possible(Handle(c, hs[0]), hs[1..]))
  }

  function HandleAll(c: Client, hs: Happenings): Client
    requires Possible(c, hs)
    decreases |hs|
  {
    if hs == [] then c else HandleAll(Handle(c, hs[0]), hs[1..])
  }

  lemma {:induction false} HandleAllKeepsClient(c: Client, hs: Happenings)
    requires ClientOk(c) && Possible(c, hs)
    ensures ClientOk(HandleAll(c, hs)) && |HandleAll(c, hs).requests| == |c.requests|
    decreases |hs|
  {
    if hs != [] {
      HandleKeepsClient(c, hs[0]);
      HandleAllKeepsClient(Handle(c, hs[0]), hs[1..]);
    }
  }

  function Start(n: nat, token: Option<string>): Client {
    Client(seq(n, _ => NEW_REQUEST), [], None, token)
  }

  lemma {:induction false} NoneRetried(n: nat)
    ensures Retried(seq(n, _ => NEW_REQUEST)) == 0
  {
    if n > 0 {
      assert seq(n, _ => NEW_REQUEST)[1..] == seq(n - 1, _ => NEW_REQUEST);
      NoneRetried(n - 1);
    }
  }

  /** The number of refresh calls in flight. */
  function InFlightRefreshes(c: Client): set<nat> {
    set g | 0 <= g < |c.refreshes| && c.refreshes[g] == Outstanding
  }

  /** A request that met a 401 shares the fate of the refresh call it waited for. */
  ghost predicate SharesFate(c: Client, r: Request) {
    r.retried ==>
      && r.unauthorized.Some? && r.unauthorized.value.refresh < |c.refreshes|
      && (Done(r) ==>
            match c.refreshes[r.unauthorized.value.refresh]
            case Outstanding => false
            case Gave(_) => r.sends == 2
            case Failed => r.sends == 1 && r.phase == Rejected(r.unauthorized.value.error))
  }

  /**
   However the answers to `n` requests interleave: at most one refresh call is in flight,
   no request is sent more than twice, there are no more refresh calls than requests that
   met a 401, and the waiters of a failed refresh are rejected, each with its own error.
   */
  lemma RefreshIsShared(n: nat, token: Option<string>, hs: Happenings)
    requires Possible(Start(n, token), hs)
    ensures var c := HandleAll(Start(n, token), hs);
            && |InFlightRefreshes(c)| <= 1
            && |c.refreshes| <= Retried(c.requests)
            && forall i | 0 <= i < |c.requests| :: c.requests[i].sends <= 2 && SharesFate(c, c.requests[i])
  {
    NoneRetried(n);
    HandleAllKeepsClient(Start(n, token), hs);
    var c := HandleAll(Start(n, token), hs);
    if c.refreshPromise.Some? {
      assert InFlightRefreshes(c) == {c.refreshPromise.value};
    } else {
      assert InFlightRefreshes(c) == {};
    }
    assert forall i | 0 <= i < |c.requests| :: RequestOk(c.refreshes, c.requests[i]);
  }

  // ---- The answers decide ------------------------------------------------------

  datatype Failure = Failure(status: nat, error: string)

  /** The error answers to request `i`, in order. */
  function FailuresOf(hs: Happenings, i: nat): seq<Failure> {
    if hs == [] then []
    else (if hs[0].Fail? && hs[0].i == i then [Failure(hs[0].status, hs[0].error)] else []) + FailuresOf(hs[1..], i)
  }

  predicate Succeeds(hs: Happenings, i: nat) {
    hs != [] && (hs[0] == Succeed(i) || Succeeds(hs[1..], i))
  }

  /** Nothing happens to a request any more once it is resolved or rejected. */
  lemma {:induction false} RestIsFinal(c: Client, hs: Happenings, i: nat)
    requires Possible(c, hs) && i < |c.requests| && Done(c.requests[i])
    ensures var c' := HandleAll(c, hs);
            && i < |c'.requests| && c'.requests[i] == c.requests[i]
            && FailuresOf(hs, i) == [] && !Succeeds(hs, i)
    decreases |hs|
  {
    if hs != [] {
      RestIsFinal(Handle(c, hs[0]), hs[1..], i);
    }
  }

  /** Sent a second time, or about to be, the request meets its final answer. */
  ghost predicate SecondChance(r: Request, r': Request, failures: seq<Failure>, succeeds: bool) {
    && |failures| <= 1 && r'.retried && r'.unauthorized == r.unauthorized
    && (r'.phase.Resolved? <==> succeeds)
    && (|failures| == 1 ==> r'.phase == Rejected(failures[0].error))
    && (|failures| == 0 && r'.phase.Rejected? && r.unauthorized.Some? ==> r'.phase == Rejected(r.unauthorized.value.error))
  }

  lemma {:induction false} RetriedAnswers(c: Client, hs: Happenings, i: nat)
    requires Possible(c, hs) && i < |c.requests| && c.requests[i].retried && c.requests[i].unauthorized.Some?
    requires c.requests[i].phase.Waiting? || c.requests[i].phase.InFlight?
    ensures var c' := HandleAll(c, hs);
            i < |c'.requests| && SecondChance(c.requests[i], c'.requests[i], FailuresOf(hs, i), Succeeds(hs, i))
    decreases |hs|
  {
    if hs != [] {
      var c1 := Handle(c, hs[0]);
      if Done(c1.requests[i]) {
        RestIsFinal(c1, hs[1..], i);
      } else {
        RetriedAnswers(c1, hs[1..], i);
      }
    }
  }

  /** What became of a request, given the answers to it. */
  ghost predicate Answered(r: Request, failures: seq<Failure>, succeeds: bool) {
    if failures == [] then
      !r.retried && r.unauthorized.None? && !r.phase.Rejected? && (r.phase.Resolved? <==> succeeds)
    else if failures[0].status != 401 then
      |failures| == 1 && !succeeds && !r.retried && r.phase == Rejected(failures[0].error)
    else
      && |failures| <= 2 && r.retried && r.unauthorized.Some? && r.unauthorized.value.error == failures[0].error
      && (r.phase.Resolved? <==> succeeds)
      && (r.phase.Rejected? ==> r.phase == Rejected(failures[|failures| - 1].error))
      && (|failures| == 2 ==> r.phase.Rejected?)
  }

  predicate Unanswered(r: Request) {
    !r.retried && r.unauthorized.None? && (r.phase.Idle? || r.phase.InFlight?)
  }

  /** What one happening makes of a request that has had no answer yet. */
  lemma FirstAnswer(c: Client, h: Happening, i: nat)
    requires CanHappen(c, h) && i < |c.requests| && Unanswered(c.requests[i])
    ensures var requests := Handle(c, h).requests;
            && |requests| == |c.requests|
            && var r := requests[i];
               match h
               case Fail(k, status, error) =>
                 if k != i then Unanswered(r)
                 else if status != 401 then r.phase == Rejected(error) && !r.retried
                 else r.phase.Waiting? && r.retried && r.unauthorized.Some? && r.unauthorized.value.error == error
               case Succeed(k) => if k == i then r.phase == Resolved && !r.retried && r.unauthorized.None? else Unanswered(r)
               case _ => Unanswered(r)
  {}

  lemma {:induction false} FirstAnswers(c: Client, hs: Happenings, i: nat)
    requires Possible(c, hs) && i < |c.requests| && Unanswered(c.requests[i])
    ensures var c' := HandleAll(c, hs);
            i < |c'.requests| && Answered(c'.requests[i], FailuresOf(hs, i), Succeeds(hs, i))
    decreases |hs|
  {
    if hs != [] {
      var c1 := Handle(c, hs[0]);
      FirstAnswer(c, hs[0], i);
      if Done(c1.requests[i]) {
        RestIsFinal(c1, hs[1..], i);
      } else if c1.requests[i].retried {
        RetriedAnswers(c1, hs[1..], i);
      } else {
        FirstAnswers(c1, hs[1..], i);
      }
    }
  }

  /** The requests whose first error answer is a 401. */
  function Unauthorized(hs: Happenings, n: nat): set<nat> {
    set i: nat | i < n && FailuresOf(hs, i) != [] && FailuresOf(hs, i)[0].status == 401
  }

  lemma {:induction false} RetriedCount(requests: seq<Request>)
    ensures Retried(requests) == |Marked(requests)|
  {
    if requests != [] {
      var n := |requests| - 1;
      var front := requests[..n];
      RetriedCount(front);
      RetriedAppend(front, requests[n]);
      MarkedAppend(front, requests[n]);
      assert front + [requests[n]] == requests;
    }
  }

  /** The positions of the marked requests. */
  function Marked(requests: seq<Request>): set<nat> {
    set i: nat | i < |requests| && requests[i].retried
  }

  lemma MarkedAppend(requests: seq<Request>, r: Request)
    ensures Marked(requests + [r]) == Marked(requests) + if r.retried then {|requests|} else {}
  {}

  lemma {:induction false} RetriedAppend(requests: seq<Request>, r: Request)
    ensures Retried(requests + [r]) == Retried(requests) + if r.retried then 1 else 0
  {
    if requests != [] {
      assert (requests + [r])[1..] == requests[1..] + [r];
      RetriedAppend(requests[1..], r);
    }
  }

  /**
   However the answers to `n` requests interleave, those to each of them decide what becomes
   of it: with no error answer it is resolved exactly if it was answered, with a first
   error other than 401 it is rejected with that at once; after a first
   401 it is marked and remembers that error, and a second error, a 401 too, rejects it.
   Only such requests are sent twice, and there are no more refresh calls than they are.
   */
  lemma AnswersDecide(n: nat, token: Option<string>, hs: Happenings)
    requires Possible(Start(n, token), hs)
    ensures var c := HandleAll(Start(n, token), hs);
            && |c.requests| == n
            && (forall i | 0 <= i < n :: Answered(c.requests[i], FailuresOf(hs, i), Succeeds(hs, i)))
            && (forall i | 0 <= i < n :: c.requests[i].sends <= if i in Unauthorized(hs, n) then 2 else 1)
            && |c.refreshes| <= |Unauthorized(hs, n)|
  {
    var c := HandleAll(Start(n, token), hs);
    NoneRetried(n);
    HandleAllKeepsClient(Start(n, token), hs);
    forall i | 0 <= i < n ensures Answered(c.requests[i], FailuresOf(hs, i), Succeeds(hs, i)) {
      FirstAnswers(Start(n, token), hs, i);
    }
    RetriedCount(c.requests);
    assert Marked(c.requests) == Unauthorized(hs, n);
    assert forall i | 0 <= i < n :: RequestOk(c.refreshes, c.requests[i]);
  }

  // ---- The access token --------------------------------------------------------

  /** The last waiter that was resumed, if any was; `last` is the one before `hs`. */
  function LastResumed(hs: Happenings, last: Option<nat>): Option<nat> {
    if hs == [] then last
    else LastResumed(hs[1..], if hs[0].Resume? then Some(hs[0].i) else last)
  }

  /** The token is the one at the start, or what the refresh call of waiter `last` made of it. */
  ghost predicate TokenOk(c: Client, token: Option<string>, last: Option<nat>) {
    match last
    case None => c.accessToken == token
    case Some(i) =>
      && i < |c.requests| && c.requests[i].unauthorized.Some?
      && c.requests[i].unauthorized.value.refresh < |c.refreshes|
      && match c.refreshes[c.requests[i].unauthorized.value.refresh]
         case Outstanding => false
         case Gave(t) => c.accessToken == Some(t)
         case Failed => c.accessToken == None
  }

  lemma HandleKeepsToken(c: Client, h: Happening, token: Option<string>, last: Option<nat>)
    requires ClientOk(c) && CanHappen(c, h) && TokenOk(c, token, last)
    ensures TokenOk(Handle(c, h), token, if h.Resume? then Some(h.i) else last)
  {
    if !h.RefreshReturns? {
      assert RequestOk(c.refreshes, c.requests[h.i]);
    }
  }

  lemma {:induction false} HandleAllKeepsToken(c: Client, hs: Happenings, token: Option<string>, last: Option<nat>)
    requires ClientOk(c) && Possible(c, hs) && TokenOk(c, token, last)
    ensures TokenOk(HandleAll(c, hs), token, LastResumed(hs, last))
    decreases |hs|
  {
    if hs != [] {
      HandleKeepsClient(c, hs[0]);
      HandleKeepsToken(c, hs[0], token, last);
      HandleAllKeepsToken(Handle(c, hs[0]), hs[1..], token, if hs[0].Resume? then Some(hs[0].i) else last);
    }
  }

  /**
   However the answers to `n` requests interleave: if the waiter resumed last waited for a
   refresh call that failed there is no access token, and that waiter is rejected with its
   own error; if it waited for one that gave a token, that is the access token; with no
   waiter resumed the token is the one at the start.
   */
  lemma TokenFollowsLastRefresh(n: nat, token: Option<string>, hs: Happenings)
    requires Possible(Start(n, token), hs)
    ensures var c := HandleAll(Start(n, token), hs);
            match LastResumed(hs, None)
            case None => c.accessToken == token
            case Some(i) =>
              && i < |c.requests| && c.requests[i].unauthorized.Some?
              && c.requests[i].unauthorized.value.refresh < |c.refreshes|
              && var refresh := c.refreshes[c.requests[i].unauthorized.value.refresh];
                 && refresh != Outstanding
                 && c.accessToken == (if refresh.Gave? then Some(refresh.token) else None)
                 && (refresh.Failed? ==> c.requests[i].phase == Rejected(c.requests[i].unauthorized.value.error))
  {
    NoneRetried(n);
    HandleAllKeepsToken(Start(n, token), hs, token, None);
    HandleAllKeepsClient(Start(n, token), hs);
    var c := HandleAll(Start(n, token), hs);
    ResumedIsNotWaiting(Start(n, token), hs, None);
    assert forall i | 0 <= i < |c.requests| :: RequestOk(c.refreshes, c.requests[i]);
  }

  ghost predicate NotWaiting(c: Client, last: Option<nat>) {
    last.Some? ==> last.value < |c.requests| && c.requests[last.value].retried && !c.requests[last.value].phase.Waiting?
  }

  /** A request waits for a refresh at most once. */
  lemma {:induction false} ResumedIsNotWaiting(c: Client, hs: Happenings, last: Option<nat>)
    requires ClientOk(c) && Possible(c, hs) && NotWaiting(c, last)
    ensures NotWaiting(HandleAll(c, hs), LastResumed(hs, last))
    decreases |hs|
  {
    if hs != [] {
      HandleKeepsClient(c, hs[0]);
      StaysNotWaiting(c, hs[0], last);
      ResumedIsNotWaiting(Handle(c, hs[0]), hs[1..], if hs[0].Resume? then Some(hs[0].i) else last);
    }
  }

  lemma StaysNotWaiting(c: Client, h: Happening, last: Option<nat>)
    requires ClientOk(c) && CanHappen(c, h) && NotWaiting(c, last)
    ensures NotWaiting(Handle(c, h), if h.Resume? then Some(h.i) else last)
  {
    if !h.RefreshReturns? {
      assert RequestOk(c.refreshes, c.requests[h.i]);
    }
  }

  // ---- It ends ---------------------------------------------------------------

  function RequestWork(r: Request): nat {
    match r.phase
    case Idle => 5
    case InFlight => if r.retried then 1 else 4
    case Waiting(_) => 2
    case _ => 0
  }

  function RequestsWork(requests: seq<Request>): nat {
    if requests == [] then 0 else RequestWork(requests[0]) + RequestsWork(requests[1..])
  }

  function ClientWork(c: Client): nat {
    RequestsWork(c.requests) + if c.refreshPromise.Some? then 1 else 0
  }

  lemma {:induction false} RequestsWorkUpdate(requests: seq<Request>, i: nat, r: Request)
    requires i < |requests|
    ensures RequestsWork(requests[i := r]) + RequestWork(requests[i]) == RequestsWork(requests) + RequestWork(r)
  {
    if i == 0 {
      assert requests[i := r][1..] == requests[1..];
    } else {
      assert requests[i := r][1..] == requests[1..][i - 1 := r];
      RequestsWorkUpdate(requests[1..], i - 1, r);
    }
  }

  lemma {:induction false} NewRequestsWork(n: nat)
    ensures RequestsWork(seq(n, _ => NEW_REQUEST)) == 5 * n
  {
    if n > 0 {
      assert seq(n, _ => NEW_REQUEST)[1..] == seq(n - 1, _ => NEW_REQUEST);
      NewRequestsWork(n - 1);
    }
  }

  lemma HandleReducesWork(c: Client, h: Happening)
    requires ClientOk(c) && CanHappen(c, h)
    ensures ClientWork(Handle(c, h)) < ClientWork(c)
  {
    if !h.RefreshReturns? {
      assert RequestOk(c.refreshes, c.requests[h.i]);
      RequestsWorkUpdate(c.requests, h.i, Handle(c, h).requests[h.i]);
    }
  }

  lemma {:induction false} WorkBoundsHappenings(c: Client, hs: Happenings)
    requires ClientOk(c) && Possible(c, hs)
    ensures |hs| <= ClientWork(c)
    decreases |hs|
  {
    if hs != [] {
      HandleReducesWork(c, hs[0]);
      HandleKeepsClient(c, hs[0]);
      WorkBoundsHappenings(Handle(c, hs[0]), hs[1..]);
    }
  }

  /** At most five things happen per request, and nothing more can happen only once all are done. */
  lemma RefreshTerminates(n: nat, token: Option<string>, hs: Happenings)
    requires Possible(Start(n, token), hs)
    ensures |hs| <= 5 * n
    ensures var c := HandleAll(Start(n, token), hs);
            (forall h: Happening :: !CanHappen(c, h)) ==> forall i | 0 <= i < |c.requests| :: Done(c.requests[i])
  {
    NoneRetried(n);
    NewRequestsWork(n);
    WorkBoundsHappenings(Start(n, token), hs);
    HandleAllKeepsClient(Start(n, token), hs);
    var c := HandleAll(Start(n, token), hs);
    if forall h: Happening :: !CanHappen(c, h) {
      forall i | 0 <= i < |c.requests| ensures Done(c.requests[i]) {
        assert RequestOk(c.refreshes, c.requests[i]);
        assert !CanHappen(c, Send(i)) && !CanHappen(c, Succeed(i)) && !CanHappen(c, Resume(i));
        assert !CanHappen(c, RefreshReturns(None));
      }
    }
  }
}
