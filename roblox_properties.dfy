/** What the roblox bot's fetch, accept and scheduler guarantee. */
module RobloxProperties {
  import opened Options
  import opened Json
  import opened Wire
  import opened Auth
  import opened Scheduler
  import opened Roblox

  // ------------------------------------------------------------ fetching

  /** A 200 reply whose `data` is a list of objects yields exactly those objects, in order, after one call. */
  lemma FetchOn200(script: seq<Reply>, s: BotState, fuel: nat, m: map<string, Value>)
    requires fuel > 0
    requires StatusIs(Upcoming(script, s, 0), 200) && Upcoming(script, s, 0).response.body == Some(m)
    requires "data" in m && m["data"].VList?
    requires forall i :: 0 <= i < |m["data"].items| ==> m["data"].items[i].VDict?
    ensures var (out, t) := FriendRequests(script, s, fuel);
      && t == s.(cursor := s.cursor + 1, trace := s.trace + [Call(PendingFriendRequests)])
      && |out| == |m["data"].items|
      && forall i :: 0 <= i < |out| ==> m["data"].items[i] == VDict(out[i])
  {
  }

  /** A 200 reply without `data` yields nothing. */
  lemma FetchWithoutData(script: seq<Reply>, s: BotState, fuel: nat, m: map<string, Value>)
    requires fuel > 0
    requires StatusIs(Upcoming(script, s, 0), 200) && Upcoming(script, s, 0).response.body == Some(m)
    requires "data" !in m
    ensures FriendRequests(script, s, fuel) == ([], s.(cursor := s.cursor + 1, trace := s.trace + [Call(PendingFriendRequests)]))
  {
  }

  /** A raised call or a status other than 200, 401 and 403 yields nothing, after one call. */
  lemma FetchOtherStatus(script: seq<Reply>, s: BotState, fuel: nat)
    requires fuel > 0
    requires Upcoming(script, s, 0).Failed? || Upcoming(script, s, 0).response.status !in {200, 401, 403}
    ensures FriendRequests(script, s, fuel) == ([], s.(cursor := s.cursor + 1, trace := s.trace + [Call(PendingFriendRequests)]))
  {
  }

  /** On 401/403 with a token header, the retry runs with that token after a one-second pause. */
  lemma FetchRetryAdoptsHeader(script: seq<Reply>, s: BotState, fuel: nat, tok: string)
    requires fuel > 0
    requires Upcoming(script, s, 0).Answered? && Upcoming(script, s, 0).response.csrfToken == Some(tok)
    requires Upcoming(script, s, 0).response.status in {401, 403}
    ensures FriendRequests(script, s, fuel) ==
      FriendRequests(script, s.(token := Some(tok), cursor := s.cursor + 1,
                        trace := s.trace + [Call(PendingFriendRequests), Event.Sleep(1)]), fuel - 1)
  {
    assert s.trace + [Call(PendingFriendRequests)] + [Event.Sleep(1)]
        == s.trace + [Call(PendingFriendRequests), Event.Sleep(1)];
  }

  /** On 401/403 without a token header, the retry runs after a refresh and a one-second pause. */
  lemma FetchRetryRefreshes(script: seq<Reply>, s: BotState, fuel: nat)
    requires fuel > 0
    requires Upcoming(script, s, 0).Answered? && Upcoming(script, s, 0).response.csrfToken.None?
    requires Upcoming(script, s, 0).response.status in {401, 403}
    ensures FriendRequests(script, s, fuel) ==
      FriendRequests(script, Pause(Refresh(script, s.(cursor := s.cursor + 1, trace := s.trace + [Call(PendingFriendRequests)])).1, 1), fuel - 1)
  {
  }

  /** Fetching, retries included, never touches the stored identity. */
  lemma {:induction false} FetchKeepsIdentity(script: seq<Reply>, s: BotState, fuel: nat)
    ensures FriendRequests(script, s, fuel).1.userId == s.userId
    ensures FriendRequests(script, s, fuel).1.username == s.username
    decreases fuel
  {
    if fuel > 0 {
      var (reply, s1) := Exchange(script, s, PendingFriendRequests);
      if reply.Answered? && (reply.response.status == 401 || reply.response.status == 403) {
        if reply.response.csrfToken.Some? {
          FetchKeepsIdentity(script, Pause(s1.(token := reply.response.csrfToken), 1), fuel - 1);
        } else {
          RefreshKeepsOtherEvents(script, s1, Event.Sleep(0));
          FetchKeepsIdentity(script, Pause(Refresh(script, s1).1, 1), fuel - 1);
        }
      }
    }
  }

  // ----------------------------------------------------------- accepting

  /** With a usable token, a 200 on the post returns true after that single call. */
  lemma Accept200(script: seq<Reply>, s: BotState, id: Value, fuel: nat)
    requires fuel > 0 && StrTruthy(s.token) && StatusIs(Upcoming(script, s, 0), 200)
    ensures Accept(script, s, id, fuel) == (true, s.(cursor := s.cursor + 1, trace := s.trace + [Post(id)]))
  {
  }

  /**
   * A falsy token is refreshed before the post, and the post goes out from
   * the refreshed state whatever the refresh found.
   */
  lemma AcceptRefreshesFalsyToken(script: seq<Reply>, s: BotState, id: Value, fuel: nat)
    requires fuel > 0 && !StrTruthy(s.token)
    ensures var r := Refresh(script, s).1;
      Accept(script, s, id, fuel) ==
        OnAcceptReply(script, Upcoming(script, r, 0), r.(cursor := r.cursor + 1, trace := r.trace + [Post(id)]), id, fuel)
  {
  }

  /**
   * Unlike the railway bot, a token that is still missing after the refresh
   * does not stop the post: after the four probe calls exactly one post goes
   * out, with no token, and its reply decides the rest.
   */
  lemma AcceptWithoutTokenStillPosts(script: seq<Reply>, s: BotState, id: Value, fuel: nat)
    requires fuel > 0 && s.token.None?
    requires forall j :: 0 <= j < |Probes| ==> !HasCsrf(Upcoming(script, s, j))
    ensures var u := s.(cursor := s.cursor + |Probes| + 1, trace := s.trace + Calls(Probes) + [Post(id)]);
      && u.token.None?
      && Accept(script, s, id, fuel) == OnAcceptReply(script, Upcoming(script, s, |Probes|), u, id, fuel)
  {
    RefreshFailsWithoutToken(script, s);
    AcceptRefreshesFalsyToken(script, s, id, fuel);
  }

  /** A 403 carrying a token header replaces the token and accepts again after a one-second pause. */
  lemma Accept403AdoptsHeader(script: seq<Reply>, s: BotState, id: Value, fuel: nat, tok: string, body: Option<map<string, Value>>)
    requires fuel > 0 && StrTruthy(s.token) && Upcoming(script, s, 0) == Answered(Response(403, Some(tok), body))
    ensures Accept(script, s, id, fuel) ==
      Accept(script, s.(token := Some(tok), cursor := s.cursor + 1, trace := s.trace + [Post(id), Event.Sleep(1)]), id, fuel - 1)
  {
    assert s.trace + [Post(id)] + [Event.Sleep(1)] == s.trace + [Post(id), Event.Sleep(1)];
  }

  /** A 403 without a header refreshes the token and accepts again after a one-second pause. */
  lemma Accept403Refreshes(script: seq<Reply>, s: BotState, id: Value, fuel: nat, body: Option<map<string, Value>>)
    requires fuel > 0 && StrTruthy(s.token) && Upcoming(script, s, 0) == Answered(Response(403, None, body))
    ensures Accept(script, s, id, fuel) ==
      Accept(script, Pause(Refresh(script, s.(cursor := s.cursor + 1, trace := s.trace + [Post(id)])).1, 1), id, fuel - 1)
  {
  }

  /**
   * Any status other than 200 and 403 makes exactly one call to the alternate
   * endpoint, whose 200 decides the result.
   */
  lemma AcceptOtherStatusTriesAlternativeOnce(script: seq<Reply>, s: BotState, id: Value, fuel: nat)
    requires fuel > 0 && StrTruthy(s.token)
    requires Upcoming(script, s, 0).Answered? && Upcoming(script, s, 0).response.status !in {200, 403}
    ensures Accept(script, s, id, fuel) ==
      (StatusIs(Upcoming(script, s, 1), 200),
       s.(cursor := s.cursor + 2, trace := s.trace + [Post(id), Call(AcceptRequest(id))]))
  {
    assert s.trace + [Post(id)] + [Call(AcceptRequest(id))] == s.trace + [Post(id), Call(AcceptRequest(id))];
  }

  /** A raised post gives false. */
  lemma AcceptFailedIsFalse(script: seq<Reply>, s: BotState, id: Value, fuel: nat)
    requires fuel > 0 && StrTruthy(s.token) && Upcoming(script, s, 0).Failed?
    ensures Accept(script, s, id, fuel) == (false, s.(cursor := s.cursor + 1, trace := s.trace + [Post(id)]))
  {
  }

  /** However often a 403 repeats the post, the alternate endpoint is called at most once. */
  lemma {:induction false} AcceptCallsAlternativeAtMostOnce(script: seq<Reply>, s: BotState, id: Value, fuel: nat)
    ensures Occurrences(Accept(script, s, id, fuel).1.trace, Call(AcceptRequest(id))) <= Occurrences(s.trace, Call(AcceptRequest(id))) + 1
    decreases fuel, 2
  {
    if fuel > 0 {
      var alt := Call(AcceptRequest(id));
      ProbesNameNoRequester(id);
      RefreshKeepsOtherEvents(script, s, alt);
      var s0 := Ready(script, s);
      var (reply, s1) := Exchange(script, s0, AcceptFriendRequest(id));
      OccurrencesSnoc(s0.trace, Post(id), alt);
      ReplyCallsAlternativeAtMostOnce(script, reply, s1, id, fuel);
    }
  }

  lemma {:induction false} ReplyCallsAlternativeAtMostOnce(script: seq<Reply>, reply: Reply, s: BotState, id: Value, fuel: nat)
    requires fuel > 0
    ensures Occurrences(OnAcceptReply(script, reply, s, id, fuel).1.trace, Call(AcceptRequest(id))) <= Occurrences(s.trace, Call(AcceptRequest(id))) + 1
    decreases fuel, 1
  {
    var alt := Call(AcceptRequest(id));
    match reply
    case Failed =>
    case Answered(r) =>
      if r.status == 200 {
      } else if r.status == 403 {
        RetryCallsAlternativeAtMostOnce(script, r, s, id, fuel);
      } else {
        assert OnAcceptReply(script, reply, s, id, fuel) == Alternative(script, s, id);
        OccurrencesSnoc(s.trace, alt, alt);
      }
  }

  lemma {:induction false} RetryCallsAlternativeAtMostOnce(script: seq<Reply>, r: Response, s: BotState, id: Value, fuel: nat)
    requires fuel > 0 && r.status == 403
    ensures Occurrences(OnAcceptReply(script, Answered(r), s, id, fuel).1.trace, Call(AcceptRequest(id))) <= Occurrences(s.trace, Call(AcceptRequest(id))) + 1
    decreases fuel, 0
  {
    var alt := Call(AcceptRequest(id));
    var s0 := if r.csrfToken.Some? then s.(token := r.csrfToken) else Refresh(script, s).1;
    var s1 := Pause(s0, 1);
    assert OnAcceptReply(script, Answered(r), s, id, fuel) == Accept(script, s1, id, fuel - 1);
    assert Occurrences(s1.trace, alt) == Occurrences(s.trace, alt) by {
      ProbesNameNoRequester(id);
      RefreshKeepsOtherEvents(script, s, alt);
      OccurrencesSnoc(s0.trace, Event.Sleep(1), alt);
    }
    AcceptCallsAlternativeAtMostOnce(script, s1, id, fuel - 1);
  }

  // ----------------------------------------------------------- scheduling

  /** Accepting each record with a truthy `requesterUserId` is accepting the truthy ids in order. */
  lemma {:induction false} AcceptEachAcceptsTruthyIds(script: seq<Reply>, s: BotState, requests: seq<map<string, Value>>, fuel: nat)
    ensures AcceptEach(script, s, requests, fuel) == AcceptAll(script, s, TruthyIds(requests), fuel)
    decreases |requests|
  {
    if requests != [] {
      var id := Get(requests[0], "requesterUserId");
      var s1 := if Truthy(id) then Accept(script, s, id, fuel).1 else s;
      AcceptEachAcceptsTruthyIds(script, s1, requests[1..], fuel);
      if Truthy(id) {
        assert ([id] + TruthyIds(requests[1..]))[1..] == TruthyIds(requests[1..]);
      } else {
        assert [] + TruthyIds(requests[1..]) == TruthyIds(requests[1..]);
      }
    }
  }

  /** The truthy ids are exactly the truthy `requesterUserId` values of the records. */
  lemma {:induction false} TruthyIdsExact(requests: seq<map<string, Value>>, v: Value)
    ensures v in TruthyIds(requests) <==>
      Truthy(v) && exists i :: 0 <= i < |requests| && Get(requests[i], "requesterUserId") == v
    decreases |requests|
  {
    if requests != [] {
      TruthyIdsExact(requests[1..], v);
      var id := Get(requests[0], "requesterUserId");
      assert TruthyIds(requests) == (if Truthy(id) then [id] else []) + TruthyIds(requests[1..]);
      if exists i :: 0 <= i < |requests| && Get(requests[i], "requesterUserId") == v {
        var i :| 0 <= i < |requests| && Get(requests[i], "requesterUserId") == v;
        if i > 0 {
          assert Get(requests[1..][i - 1], "requesterUserId") == v;
        }
      }
      if exists i :: 0 <= i < |requests[1..]| && Get(requests[1..][i], "requesterUserId") == v {
        var i :| 0 <= i < |requests[1..]| && Get(requests[1..][i], "requesterUserId") == v;
        assert Get(requests[i + 1], "requesterUserId") == v;
      }
    }
  }

  /** A failing accept does not stop the ones after it. */
  lemma {:induction false} AcceptAllAppend(script: seq<Reply>, s: BotState, ids: seq<Value>, id: Value, fuel: nat)
    ensures AcceptAll(script, s, ids + [id], fuel) == Accept(script, AcceptAll(script, s, ids, fuel), id, fuel).1
    decreases |ids|
  {
    if ids == [] {
      assert ([] + [id])[1..] == [];
    } else {
      assert (ids + [id])[1..] == ids[1..] + [id];
      AcceptAllAppend(script, Accept(script, s, ids[0], fuel).1, ids[1..], id, fuel);
    }
  }

  /**
   * A pass whose identity check fails bumps the counter without fetching; at
   * the threshold it sleeps twice the interval and resets.
   */
  lemma IterationLoginFailure(script: seq<Reply>, s: BotState, retryCount: nat, checkInterval: nat, fuel: nat)
    requires !UserInfo(script, s).0
    ensures var (next, t) := Iteration(script, s, retryCount, checkInterval, fuel);
      && next == (if retryCount + 1 >= MaxRetries then 0 else retryCount + 1)
      && t == PauseAll(Refresh(script, UserInfo(script, s).1).1, if retryCount + 1 >= MaxRetries then [2 * checkInterval] else [])
      && t.userId == s.userId && t.username == s.username
      && Occurrences(t.trace, Call(PendingFriendRequests)) == Occurrences(s.trace, Call(PendingFriendRequests))
  {
    var s1 := UserInfo(script, s).1;
    UserInfoOutcome(script, s);
    OccurrencesSnoc(s.trace, Call(AuthenticatedUser), Call(PendingFriendRequests));
    RefreshKeepsOtherEvents(script, s1, Call(PendingFriendRequests));
    var t := Refresh(script, s1).1;
    if retryCount + 1 >= MaxRetries {
      assert Sleeps([2 * checkInterval]) == [Event.Sleep(2 * checkInterval)];
      OccurrencesSnoc(t.trace, Event.Sleep(2 * checkInterval), Call(PendingFriendRequests));
    } else {
      assert Sleeps([]) == [];
      assert t.trace + [] == t.trace;
    }
  }

  /**
   * A pass whose identity check succeeds resets the counter, accepts the
   * truthy ids of the fetched records once each in order, then sleeps the interval.
   */
  lemma IterationSuccess(script: seq<Reply>, s: BotState, retryCount: nat, checkInterval: nat, fuel: nat)
    requires UserInfo(script, s).0
    ensures var (next, t) := Iteration(script, s, retryCount, checkInterval, fuel);
      var (requests, fetched) := FriendRequests(script, UserInfo(script, s).1, fuel);
      && next == 0
      && t == PauseAll(AcceptAll(script, fetched, TruthyIds(requests), fuel), [checkInterval])
  {
    var (requests, fetched) := FriendRequests(script, UserInfo(script, s).1, fuel);
    AcceptEachAcceptsTruthyIds(script, fetched, requests, fuel);
  }

  /** The counter stays below the threshold at every loop head. */
  lemma {:induction false} RunKeepsCounterBelowMax(script: seq<Reply>, s: BotState, retryCount: nat, n: nat, checkInterval: nat, fuel: nat)
    requires retryCount < MaxRetries
    ensures Run(script, s, retryCount, n, checkInterval, fuel).0 < MaxRetries
    decreases n
  {
    if n > 0 {
      var (next, s1) := Iteration(script, s, retryCount, checkInterval, fuel);
      RunStep(script, s, retryCount, n, checkInterval, fuel, next, s1);
      RunKeepsCounterBelowMax(script, s1, next, n - 1, checkInterval, fuel);
    }
  }
}
