/**
 * The API client's request and response interceptors (src/api.tsx:51-151): every request
 * carries the stored access token; a 401 answer triggers one refresh at a time, later 401s
 * wait in a FIFO queue, and the refresh outcome settles them. Promise scheduling is not
 * modelled: each interceptor step is one transition of `ClientState`, and what happens to a
 * request (retried or rejected) is appended to the `settled` log in the order it is decided.
 */
module SessionClient {
  import opened Wrappers
  import opened TokenService

  /** An outgoing request: its Authorization header and the interceptor's `_retry` flag. */
  datatype Request = Request(id: nat, authorization: Option<string>, retry: bool)

  /** Why a request was rejected: its own error response, or the failed refresh. */
  datatype Reason = ResponseError(status: int) | RefreshError

  /** The fate of a request that reached the response interceptor. */
  datatype Outcome = Retried(request: Request) | Rejected(request: Request, reason: Reason)

  /**
   * The module-level `isRefreshing` and `failedQueue`, the browser's token stores, the request
   * whose refresh is in flight, the refresh posts made (the token each one sent), how many times
   * the client was sent to /login, and the log of settled requests.
   */
  datatype ClientState = ClientState(isRefreshing: bool, failedQueue: seq<Request>, stores: Stores,
                                     leader: Option<Request>, refreshPosts: seq<string>, redirects: nat,
                                     settled: seq<Outcome>)

  function Bearer(token: string): string {
    "Bearer " + token
  }

  /** The request interceptor: a stored non-empty access token is attached as a bearer header. */
  function AttachToken(req: Request, stores: Stores): (r: Request)
    ensures Truthy(AccessToken(stores)) ==> r == req.(authorization := Some(Bearer(AccessToken(stores).value)))
    ensures !Truthy(AccessToken(stores)) ==> r == req
    ensures r.id == req.id && r.retry == req.retry
  {
    var token := AccessToken(stores);
    if Truthy(token) then req.(authorization := Some(Bearer(token.value))) else req
  }

  /**
   * Coherence of the coordinator: waiters exist only while a refresh is marked in progress, and a
   * leader is only ever recorded during a refresh, with its `_retry` flag set.
   */
  predicate Coherent(s: ClientState) {
    && (!s.isRefreshing ==> s.failedQueue == [] && s.leader.None?)
    && (s.leader.Some? ==> s.isRefreshing && s.leader.value.retry)
  }

  function Initial(stores: Stores): (s: ClientState)
    ensures Coherent(s) && !s.isRefreshing
  {
    ClientState(false, [], stores, None, [], 0, [])
  }

  /**
   * The response interceptor's error path for a request answered with `status`. A non-401, or a
   * 401 on a request already retried, is rejected as it is. During a refresh the request joins
   * the end of the queue. Otherwise it becomes the leader: `_retry` and `isRefreshing` are set;
   * without a stored refresh token both tokens are cleared, the client is sent to /login and the
   * leader is rejected, while `isRefreshing` stays set and the queue is left as it is; with one,
   * the refresh is posted.
   */
  function OnErrorResponse(s: ClientState, req: Request, status: int): (t: ClientState)
    ensures status != 401 || req.retry ==> t == s.(settled := s.settled + [Rejected(req, ResponseError(status))])
    ensures status == 401 && !req.retry && s.isRefreshing ==> t == s.(failedQueue := s.failedQueue + [req])
    ensures status == 401 && !req.retry && !s.isRefreshing ==>
      && t.isRefreshing && t.failedQueue == s.failedQueue
      && (Truthy(RefreshToken(s.stores)) ==>
            t == s.(isRefreshing := true, leader := Some(req.(retry := true)),
                    refreshPosts := s.refreshPosts + [RefreshToken(s.stores).value]))
      && (!Truthy(RefreshToken(s.stores)) ==>
            && t.stores == Cleared(s.stores) && t.redirects == s.redirects + 1
            && t.leader == s.leader && t.refreshPosts == s.refreshPosts
            && t.settled == s.settled + [Rejected(req.(retry := true), ResponseError(401))])
  {
    if status != 401 || req.retry then
      s.(settled := s.settled + [Rejected(req, ResponseError(status))])
    else if s.isRefreshing then
      s.(failedQueue := s.failedQueue + [req])
    else
      var leader := req.(retry := true);
      var refresh := RefreshToken(s.stores);
      if !Truthy(refresh) then
        s.(isRefreshing := true, stores := Cleared(s.stores), redirects := s.redirects + 1,
           settled := s.settled + [Rejected(leader, ResponseError(401))])
      else
        s.(isRefreshing := true, leader := Some(leader), refreshPosts := s.refreshPosts + [refresh.value])
  }

  /**
   * What `processQueue` does to the waiters, in queue order: with a token each waiter's
   * `.then` retries its request under the new bearer header (its `_retry` flag untouched), with
   * an error each waiter is rejected with it.
   */
  function Settle(queue: seq<Request>, token: Option<string>): (out: seq<Outcome>)
    ensures |out| == |queue|
    ensures forall i :: 0 <= i < |queue| ==>
      out[i] == if token.Some? then Retried(queue[i].(authorization := Some(Bearer(token.value))))
                else Rejected(queue[i], RefreshError)
  {
    if queue == [] then []
    else
      var first := if token.Some? then Retried(queue[0].(authorization := Some(Bearer(token.value))))
                   else Rejected(queue[0], RefreshError);
      [first] + Settle(queue[1..], token)
  }

  lemma {:induction false} SettleAppend(a: seq<Request>, b: seq<Request>, token: Option<string>)
    ensures Settle(a + b, token) == Settle(a, token) + Settle(b, token)
  {
    if a == [] {
      assert a + b == b;
    } else {
      assert (a + b)[1..] == a[1..] + b;
      SettleAppend(a[1..], b, token);
    }
  }

  /**
   * A successful refresh answer carrying `accessToken`: the token is stored, the queue is
   * resolved with it and emptied, `isRefreshing` is cleared, and the leader is retried with the
   * new bearer header.
   */
  function OnRefreshSuccess(s: ClientState, accessToken: string): (t: ClientState)
    requires s.leader.Some?
    ensures !t.isRefreshing && t.failedQueue == [] && t.leader.None?
    ensures AccessToken(t.stores) == Some(accessToken) && RefreshToken(t.stores) == RefreshToken(s.stores)
    ensures t.stores.local == s.stores.local
    ensures forall k :: k != AccessTokenKey ==> GetItem(t.stores.session, k) == GetItem(s.stores.session, k)
    ensures t.settled == s.settled + Settle(s.failedQueue, Some(accessToken))
                         + [Retried(s.leader.value.(authorization := Some(Bearer(accessToken))))]
    ensures t.refreshPosts == s.refreshPosts && t.redirects == s.redirects
  {
    var leader := s.leader.value.(authorization := Some(Bearer(accessToken)));
    s.(isRefreshing := false, failedQueue := [], stores := WithAccessToken(s.stores, accessToken), leader := None,
       settled := s.settled + Settle(s.failedQueue, Some(accessToken)) + [Retried(leader)])
  }

  /**
   * A failed refresh: the queue is rejected and emptied, `isRefreshing` is cleared, both tokens
   * are cleared, the client is sent to /login and the leader is rejected.
   */
  function OnRefreshFailure(s: ClientState): (t: ClientState)
    requires s.leader.Some?
    ensures !t.isRefreshing && t.failedQueue == [] && t.leader.None?
    ensures !TokensPresent(t.stores) && t.redirects == s.redirects + 1
    ensures AccessToken(t.stores).None? && RefreshToken(t.stores).None?
    ensures forall k :: k != AccessTokenKey ==> GetItem(t.stores.session, k) == GetItem(s.stores.session, k)
    ensures forall k :: k != RefreshTokenKey ==> GetItem(t.stores.local, k) == GetItem(s.stores.local, k)
    ensures t.settled == s.settled + Settle(s.failedQueue, None) + [Rejected(s.leader.value, RefreshError)]
    ensures t.refreshPosts == s.refreshPosts
  {
    s.(isRefreshing := false, failedQueue := [], stores := Cleared(s.stores), leader := None, redirects := s.redirects + 1,
       settled := s.settled + Settle(s.failedQueue, None) + [Rejected(s.leader.value, RefreshError)])
  }

  /** Every transition keeps the coordinator coherent. */
  lemma TransitionsKeepCoherent(s: ClientState, req: Request, status: int, accessToken: string)
    requires Coherent(s)
    ensures Coherent(OnErrorResponse(s, req, status))
    ensures s.leader.Some? ==> Coherent(OnRefreshSuccess(s, accessToken)) && Coherent(OnRefreshFailure(s))
  {
  }

  /** A run of error responses, one after the other, with no refresh answer in between. */
  function ErrorRun(s: ClientState, reqs: seq<Request>, status: int): ClientState
    decreases |reqs|
  {
    if reqs == [] then s else ErrorRun(OnErrorResponse(s, reqs[0], status), reqs[1..], status)
  }

  /**
   * Single flight: however many 401s arrive while no refresh has answered, at most one refresh
   * is posted, and none once one is already in progress.
   */
  lemma {:induction false} SingleFlight(s: ClientState, reqs: seq<Request>)
    ensures s.isRefreshing ==> ErrorRun(s, reqs, 401).refreshPosts == s.refreshPosts
    ensures |ErrorRun(s, reqs, 401).refreshPosts| <= |s.refreshPosts| + 1
    decreases |reqs|
  {
    if reqs != [] {
      var next := OnErrorResponse(s, reqs[0], 401);
      assert next.isRefreshing || next.refreshPosts == s.refreshPosts;
      SingleFlight(next, reqs[1..]);
    }
  }

  /** The requests that pass the 401 test: those not yet retried. */
  function Fresh(reqs: seq<Request>): (r: seq<Request>)
    ensures |r| <= |reqs|
    ensures forall q :: q in r <==> q in reqs && !q.retry
  {
    if reqs == [] then [] else (if reqs[0].retry then [] else [reqs[0]]) + Fresh(reqs[1..])
  }

  /** Filtering keeps the order: the fresh requests of a concatenation are those of each part, in turn. */
  lemma {:induction false} FreshAppend(a: seq<Request>, b: seq<Request>)
    ensures Fresh(a + b) == Fresh(a) + Fresh(b)
  {
    if a == [] {
      assert a + b == b;
    } else {
      assert (a + b)[1..] == a[1..] + b;
      FreshAppend(a[1..], b);
    }
  }

  /** The rejections a run of 401s gives the requests already retried, in arrival order. */
  function RetriedRejections(reqs: seq<Request>): (out: seq<Outcome>)
    ensures |out| == |reqs| - |Fresh(reqs)|
    ensures forall o :: o in out ==> o.Rejected? && o.request in reqs && o.request.retry
  {
    if reqs == [] then []
    else (if reqs[0].retry then [Rejected(reqs[0], ResponseError(401))] else []) + RetriedRejections(reqs[1..])
  }

  /**
   * A refresh token that is missing leaves the client stuck: once the leader has been rejected
   * with `isRefreshing` still set and no leader recorded, every later 401 waits in the queue, no
   * refresh is ever posted, and the waiters are never settled.
   */
  lemma {:induction false} StuckAfterMissingRefreshToken(s: ClientState, reqs: seq<Request>)
    requires s.isRefreshing && s.leader.None?
    ensures ErrorRun(s, reqs, 401).isRefreshing
    ensures ErrorRun(s, reqs, 401).leader.None?
    ensures ErrorRun(s, reqs, 401).refreshPosts == s.refreshPosts
    ensures ErrorRun(s, reqs, 401).failedQueue == s.failedQueue + Fresh(reqs)
    ensures |ErrorRun(s, reqs, 401).settled| == |s.settled| + |reqs| - |Fresh(reqs)|
    decreases |reqs|
  {
    if reqs == [] {
      assert s.failedQueue + [] == s.failedQueue;
    } else {
      var next := OnErrorResponse(s, reqs[0], 401);
      StuckAfterMissingRefreshToken(next, reqs[1..]);
      if reqs[0].retry {
        assert Fresh(reqs) == Fresh(reqs[1..]);
      } else {
        assert Fresh(reqs) == [reqs[0]] + Fresh(reqs[1..]);
        assert s.failedQueue + Fresh(reqs) == (s.failedQueue + [reqs[0]]) + Fresh(reqs[1..]);
      }
    }
  }

  /**
   * In the same stuck state, the only outcomes a run of 401s adds are the rejections of the
   * requests already retried: no waiter is ever settled.
   */
  lemma {:induction false} StuckSettlesOnlyRetried(s: ClientState, reqs: seq<Request>)
    requires s.isRefreshing && s.leader.None?
    ensures ErrorRun(s, reqs, 401).settled == s.settled + RetriedRejections(reqs)
    decreases |reqs|
  {
    if reqs == [] {
      assert s.settled + [] == s.settled;
    } else {
      var next := OnErrorResponse(s, reqs[0], 401);
      assert ErrorRun(s, reqs, 401) == ErrorRun(next, reqs[1..], 401);
      var head := if reqs[0].retry then [Rejected(reqs[0], ResponseError(401))] else [];
      assert next.settled == s.settled + head;
      assert next.isRefreshing && next.leader.None?;
      StuckSettlesOnlyRetried(next, reqs[1..]);
      assert RetriedRejections(reqs) == head + RetriedRejections(reqs[1..]);
      AppendAssociative(s.settled, head, RetriedRejections(reqs[1..]));
    }
  }

  lemma AppendAssociative(a: seq<Outcome>, b: seq<Outcome>, c: seq<Outcome>)
    ensures (a + b) + c == a + (b + c)
  {
  }

  /** The first missing-token 401 leads to the stuck state of `StuckAfterMissingRefreshToken`. */
  lemma MissingRefreshTokenSticks(s: ClientState, req: Request)
    requires !s.isRefreshing && !req.retry && !Truthy(RefreshToken(s.stores))
    ensures OnErrorResponse(s, req, 401).isRefreshing
    ensures OnErrorResponse(s, req, 401).leader == s.leader
    ensures !TokensPresent(OnErrorResponse(s, req, 401).stores)
  {
  }

  /**
   * A burst of fresh 401s from an idle client followed by a successful refresh: exactly one
   * refresh is posted, with the stored refresh token; every request after the first is retried
   * in arrival order with the new bearer header, then the first (the leader) is retried too.
   */
  lemma BurstThenSuccess(s: ClientState, reqs: seq<Request>, accessToken: string)
    requires Coherent(s) && !s.isRefreshing
    requires Truthy(RefreshToken(s.stores))
    requires |reqs| > 0 && forall i :: 0 <= i < |reqs| ==> !reqs[i].retry
    ensures ErrorRun(s, reqs, 401).leader.Some?
    ensures ErrorRun(s, reqs, 401).refreshPosts == s.refreshPosts + [RefreshToken(s.stores).value]
    ensures OnRefreshSuccess(ErrorRun(s, reqs, 401), accessToken).settled
         == s.settled + Settle(reqs[1..], Some(accessToken))
            + [Retried(reqs[0].(retry := true, authorization := Some(Bearer(accessToken))))]
  {
    var first := OnErrorResponse(s, reqs[0], 401);
    assert first.failedQueue == [];
    QueueRun(first, reqs[1..]);
    assert [] + reqs[1..] == reqs[1..];
  }

  /** During a refresh with a leader, a run of fresh 401s only extends the queue. */
  lemma {:induction false} QueueRun(s: ClientState, reqs: seq<Request>)
    requires s.isRefreshing
    requires forall i :: 0 <= i < |reqs| ==> !reqs[i].retry
    ensures ErrorRun(s, reqs, 401) == s.(failedQueue := s.failedQueue + reqs)
    decreases |reqs|
  {
    if reqs == [] {
      assert s.failedQueue + [] == s.failedQueue;
    } else {
      QueueRun(s.(failedQueue := s.failedQueue + [reqs[0]]), reqs[1..]);
      assert (s.failedQueue + [reqs[0]]) + reqs[1..] == s.failedQueue + reqs;
    }
  }

  /** The interceptors over the module-level state and the browser's stores. */
  class Interceptor {
    var isRefreshing: bool
    var failedQueue: seq<Request>
    var stores: Stores
    var leader: Option<Request>
    var refreshPosts: seq<string>
    var redirects: nat
    var settled: seq<Outcome>

    function State(): ClientState
      reads this
    {
      ClientState(isRefreshing, failedQueue, stores, leader, refreshPosts, redirects, settled)
    }

    constructor (initial: Stores)
      ensures State() == Initial(initial)
    {
      isRefreshing, failedQueue, stores, leader := false, [], initial, None;
      refreshPosts, redirects, settled := [], 0, [];
    }

    /** The request interceptor: the stored access token, when non-empty, becomes the bearer header. */
    method OnRequest(req: Request) returns (r: Request)
      ensures r == AttachToken(req, stores)
    {
      r := req;
      var token := GetItem(stores.session, AccessTokenKey);
      if token.Some? && token.value != "" {
        r := r.(authorization := Some("Bearer " + token.value));
      }
    }

    /**
     * `processQueue`: every waiter is settled in insertion order, all with the token or all with
     * the refresh error, and the queue is emptied.
     */
    method ProcessQueue(token: Option<string>)
      modifies this`failedQueue, this`settled
      ensures settled == old(settled) + Settle(old(failedQueue), token)
      ensures failedQueue == []
    {
      var i := 0;
      while i < |failedQueue|
        invariant 0 <= i <= |failedQueue|
        invariant failedQueue == old(failedQueue)
        invariant settled == old(settled) + Settle(failedQueue[..i], token)
      {
        var waiter := failedQueue[i];
        var outcome := if token.Some? then Retried(waiter.(authorization := Some("Bearer " + token.value)))
                       else Rejected(waiter, RefreshError);
        assert failedQueue[..i + 1] == failedQueue[..i] + [waiter];
        SettleAppend(failedQueue[..i], [waiter], token);
        settled := settled + [outcome];
        i := i + 1;
      }
      assert failedQueue[..i] == failedQueue;
      failedQueue := [];
    }

    /** The response interceptor's error handler, up to the refresh post. */
    method OnResponseError(req: Request, status: int)
      modifies this
      ensures State() == OnErrorResponse(old(State()), req, status)
    {
      if status != 401 || req.retry {
        settled := settled + [Rejected(req, ResponseError(status))];
        return;
      }
      if isRefreshing {
        failedQueue := failedQueue + [req];
        return;
      }
      var original := req.(retry := true);
      isRefreshing := true;
      var refresh := GetItem(stores.local, RefreshTokenKey);
      if refresh.None? || refresh.value == "" {
        stores := Cleared(stores);
        redirects := redirects + 1;
        settled := settled + [Rejected(original, ResponseError(401))];
        return;
      }
      refreshPosts := refreshPosts + [refresh.value];
      leader := Some(original);
    }

    /** The refresh post answered with `accessToken`. */
    method OnRefreshAnswered(accessToken: string)
      requires leader.Some?
      modifies this
      ensures State() == OnRefreshSuccess(old(State()), accessToken)
    {
      stores := WithAccessToken(stores, accessToken);
      var original := leader.value.(authorization := Some("Bearer " + accessToken));
      ProcessQueue(Some(accessToken));
      isRefreshing := false;
      leader := None;
      settled := settled + [Retried(original)];
    }

    /** The refresh post failed. */
    method OnRefreshFailed()
      requires leader.Some?
      modifies this
      ensures State() == OnRefreshFailure(old(State()))
    {
      ProcessQueue(None);
      isRefreshing := false;
      stores := Cleared(stores);
      redirects := redirects + 1;
      settled := settled + [Rejected(leader.value, RefreshError)];
      leader := None;
    }
  }
}
