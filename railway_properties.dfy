/** What the railway bot's fetch, accept chain and scheduler guarantee. */
module RailwayProperties {
  import opened Options
  import opened Json
  import opened Wire
  import opened Auth
  import opened Scheduler
  import opened Normaliser
  import opened Railway

  // ------------------------------------------------------------ fetching

  /**
   * A 200 reply whose `data` is a list of objects yields, after one call, the
   * records with a resolvable id: every output record comes from one element
   * and has a truthy id, and every element with a resolvable id is output.
   */
  lemma FetchOn200(script: seq<Reply>, s: BotState, fuel: nat, m: map<string, Value>)
    requires fuel > 0
    requires StatusIs(Upcoming(script, s, 0), 200) && Upcoming(script, s, 0).response.body == Some(m)
    requires "data" in m && m["data"].VList?
    requires forall i :: 0 <= i < |m["data"].items| ==> m["data"].items[i].VDict?
    ensures var (out, t) := FriendRequests(script, s, fuel);
      var items := m["data"].items;
      && t == s.(cursor := s.cursor + 1, trace := s.trace + [Call(PendingFriendRequests)])
      && |out| <= |items|
      && (forall p :: p in out ==>
            Truthy(p.requesterUserId) && p == Make(p.originalData) &&
            exists i :: 0 <= i < |items| && items[i] == VDict(p.originalData))
      && (forall i :: 0 <= i < |items| && Kept(items[i].fields) ==> Make(items[i].fields) in out)
  {
    var items := m["data"].items;
    var recs := Objects(items).value;
    assert FriendRequests(script, s, fuel).0 == Normalise(recs);
    NormaliseCount(recs);
    NormaliseSound(recs);
    NormaliseComplete(recs);
    forall p | p in Normalise(recs)
      ensures exists i :: 0 <= i < |items| && items[i] == VDict(p.originalData)
    {
      var i :| 0 <= i < |recs| && recs[i] == p.originalData;
      assert items[i] == VDict(recs[i]);
    }
    forall i | 0 <= i < |items| && Kept(items[i].fields)
      ensures Make(items[i].fields) in Normalise(recs)
    {
      assert items[i].fields == recs[i];
    }
  }

  /** A 200 reply whose `data` holds an element that is not an object yields nothing. */
  lemma FetchRejectsNonObject(script: seq<Reply>, s: BotState, fuel: nat, m: map<string, Value>, k: nat)
    requires fuel > 0
    requires StatusIs(Upcoming(script, s, 0), 200) && Upcoming(script, s, 0).response.body == Some(m)
    requires "data" in m && m["data"].VList? && k < |m["data"].items| && !m["data"].items[k].VDict?
    ensures FriendRequests(script, s, fuel).0 == []
  {
  }

  /** Whatever the replies, every fetched record has a truthy id. */
  lemma {:induction false} FetchKeepsOnlyIdentified(script: seq<Reply>, s: BotState, fuel: nat)
    ensures forall p :: p in FriendRequests(script, s, fuel).0 ==> Truthy(p.requesterUserId)
    decreases fuel
  {
    if fuel > 0 {
      var (reply, s1) := Exchange(script, s, PendingFriendRequests);
      if reply.Answered? {
        var r := reply.response;
        if r.status == 200 {
          match r.body
          case None =>
          case Some(data) =>
            match GetOr(data, "data", VList([]))
            case VList(items) =>
              if Objects(items).Some? {
                NormaliseSound(Objects(items).value);
              }
            case _ =>
        } else if r.status == 401 || r.status == 403 {
          if r.csrfToken.Some? {
            FetchKeepsOnlyIdentified(script, Pause(s1.(token := r.csrfToken), 1), fuel - 1);
          } else {
            FetchKeepsOnlyIdentified(script, Pause(Refresh(script, s1).1, 1), fuel - 1);
          }
        }
      }
    }
  }

  /** Fetching, retries included, never touches the stored identity. */
  lemma {:induction false} FetchKeepsIdentity(script: seq<Reply>, s: BotState, fuel: nat)
    ensures FriendRequests(script, s, fuel).1.userId == s.userId
    ensures FriendRequests(script, s, fuel).1.username == s.username
    decreases fuel
  {
    if fuel > 0 {
      var (reply, s1) := Exchange(script, s, PendingFriendRequests);
      if reply.Answered? && (reply.response.status == 401 || reply.response.status == 403) {
        if reply.response.csrfToken.Some? {
          FetchKeepsIdentity(script, Pause(s1.(token := reply.response.csrfToken), 1), fuel - 1);
        } else {
          RefreshKeepsOtherEvents(script, s1, Event.Sleep(0));
          FetchKeepsIdentity(script, Pause(Refresh(script, s1).1, 1), fuel - 1);
        }
      }
    }
  }

  /** On 401/403 with a token header, the retry runs with that token after a one-second pause. */
  lemma FetchRetryAdoptsHeader(script: seq<Reply>, s: BotState, fuel: nat, tok: string)
    requires fuel > 0
    requires Upcoming(script, s, 0).Answered? && Upcoming(script, s, 0).response.csrfToken == Some(tok)
    requires Upcoming(script, s, 0).response.status in {401, 403}
    ensures FriendRequests(script, s, fuel) ==
      FriendRequests(script, s.(token := Some(tok), cursor := s.cursor + 1,
                        trace := s.trace + [Call(PendingFriendRequests), Event.Sleep(1)]), fuel - 1)
  {
    assert s.trace + [Call(PendingFriendRequests)] + [Event.Sleep(1)]
        == s.trace + [Call(PendingFriendRequests), Event.Sleep(1)];
  }

  /** On 401/403 without a token header, the retry runs after a refresh and a one-second pause. */
  lemma FetchRetryRefreshes(script: seq<Reply>, s: BotState, fuel: nat)
    requires fuel > 0
    requires Upcoming(script, s, 0).Answered? && Upcoming(script, s, 0).response.csrfToken.None?
    requires Upcoming(script, s, 0).response.status in {401, 403}
    ensures FriendRequests(script, s, fuel) ==
      FriendRequests(script, Pause(Refresh(script, s.(cursor := s.cursor + 1, trace := s.trace + [Call(PendingFriendRequests)])).1, 1), fuel - 1)
  {
  }

  /** A 200 reply without `data` yields nothing, after one call. */
  lemma FetchWithoutData(script: seq<Reply>, s: BotState, fuel: nat, m: map<string, Value>)
    requires fuel > 0
    requires StatusIs(Upcoming(script, s, 0), 200) && Upcoming(script, s, 0).response.body == Some(m)
    requires "data" !in m
    ensures FriendRequests(script, s, fuel) == ([], s.(cursor := s.cursor + 1, trace := s.trace + [Call(PendingFriendRequests)]))
  {
  }

  /** A raised call or a status other than 200, 401 and 403 yields nothing, after one call. */
  lemma FetchOtherStatus(script: seq<Reply>, s: BotState, fuel: nat)
    requires fuel > 0
    requires Upcoming(script, s, 0).Failed? || Upcoming(script, s, 0).response.status !in {200, 401, 403}
    ensures FriendRequests(script, s, fuel) == ([], s.(cursor := s.cursor + 1, trace := s.trace + [Call(PendingFriendRequests)]))
  {
  }

  // ----------------------------------------------------------- accepting

  /** One attempt posts to the canonical endpoint at most once. */
  lemma AttemptPostsAtMostOnce(script: seq<Reply>, s: BotState, id: Value)
    ensures Occurrences(Attempt(script, s, id).1.trace, Post(id)) <= Occurrences(s.trace, Post(id)) + 1
  {
    var p := Post(id);
    ProbesNameNoRequester(id);
    var s1 := Ready(script, s);
    assert Occurrences(s1.trace, p) == Occurrences(s.trace, p) by {
      if !StrTruthy(s.token) {
        RefreshKeepsOtherEvents(script, s, p);
      }
    }
    if s1.token.None? {
      assert Attempt(script, s, id).1 == Pause(s1, 1);
      OccurrencesSnoc(s1.trace, Event.Sleep(1), p);
    } else {
      var (reply, s2) := Exchange(script, s1, Endpoint.AcceptFriendRequest(id));
      OccurrencesSnoc(s1.trace, p, p);
      if StatusIs(reply, 200) {
        assert Attempt(script, s, id).1 == s2;
      } else if StatusIs(reply, 403) && reply.response.csrfToken.Some? {
        assert Attempt(script, s, id).1 == Pause(s2.(token := reply.response.csrfToken), 1);
        OccurrencesSnoc(s2.trace, Event.Sleep(1), p);
      } else if StatusIs(reply, 403) {
        assert Attempt(script, s, id).1 == Pause(Refresh(script, s2).1, 1);
        RefreshKeepsOtherEvents(script, s2, p);
        OccurrencesSnoc(Refresh(script, s2).1.trace, Event.Sleep(1), p);
      } else {
        assert Attempt(script, s, id).1 == Pause(s2, 1);
        OccurrencesSnoc(s2.trace, Event.Sleep(1), p);
      }
    }
  }

  /** A 403 carrying a token header replaces the stored token with it. */
  lemma Attempt403AdoptsHeader(script: seq<Reply>, s: BotState, id: Value, tok: string, body: Option<map<string, Value>>)
    requires StrTruthy(s.token) && Upcoming(script, s, 0) == Answered(Response(403, Some(tok), body))
    ensures Attempt(script, s, id) == (false, s.(token := Some(tok), cursor := s.cursor + 1,
                                         trace := s.trace + [Post(id), Event.Sleep(1)]))
  {
    assert s.trace + [Post(id)] + [Event.Sleep(1)] == s.trace + [Post(id), Event.Sleep(1)];
  }

  /**
   * A 403 without a token header runs a full refresh after the post, then
   * pauses one second; the attempt has failed.
   */
  lemma Attempt403Refreshes(script: seq<Reply>, s: BotState, id: Value, body: Option<map<string, Value>>)
    requires StrTruthy(s.token) && Upcoming(script, s, 0) == Answered(Response(403, None, body))
    ensures Attempt(script, s, id) ==
      (false, Pause(Refresh(script, s.(cursor := s.cursor + 1, trace := s.trace + [Post(id)])).1, 1))
  {
  }

  /** With a token held, the post step posts exactly once and still holds a token afterwards. */
  lemma PostAttemptPostsOnce(script: seq<Reply>, s1: BotState, id: Value)
    requires s1.token.Some?
    ensures PostAttempt(script, s1, id).1.token.Some?
    ensures Occurrences(PostAttempt(script, s1, id).1.trace, Post(id)) == Occurrences(s1.trace, Post(id)) + 1
  {
    var p := Post(id);
    ProbesNameNoRequester(id);
    var (reply, s2) := Exchange(script, s1, Endpoint.AcceptFriendRequest(id));
    OccurrencesSnoc(s1.trace, p, p);
    if StatusIs(reply, 200) {
      assert PostAttempt(script, s1, id).1 == s2;
    } else if StatusIs(reply, 403) && reply.response.csrfToken.Some? {
      assert PostAttempt(script, s1, id).1 == Pause(s2.(token := reply.response.csrfToken), 1);
      OccurrencesSnoc(s2.trace, Event.Sleep(1), p);
    } else if StatusIs(reply, 403) {
      assert PostAttempt(script, s1, id).1 == Pause(Refresh(script, s2).1, 1);
      RefreshKeepsOtherEvents(script, s2, p);
      RefreshFromKeepsTokenPresent(script, s2, 0);
      OccurrencesSnoc(Refresh(script, s2).1.trace, Event.Sleep(1), p);
    } else {
      assert PostAttempt(script, s1, id).1 == Pause(s2, 1);
      OccurrencesSnoc(s2.trace, Event.Sleep(1), p);
    }
  }

  /**
   * Once a token is held (even an empty one), every attempt posts to the
   * canonical endpoint exactly once and still holds a token afterwards,
   * whatever the replies, 403s included.
   */
  lemma AttemptPostsOnceWithToken(script: seq<Reply>, s: BotState, id: Value)
    requires s.token.Some?
    ensures Attempt(script, s, id).1.token.Some?
    ensures Occurrences(Attempt(script, s, id).1.trace, Post(id)) == Occurrences(s.trace, Post(id)) + 1
  {
    var p := Post(id);
    ProbesNameNoRequester(id);
    var s1 := Ready(script, s);
    assert s1.token.Some? && Occurrences(s1.trace, p) == Occurrences(s.trace, p) by {
      if !StrTruthy(s.token) {
        RefreshKeepsOtherEvents(script, s, p);
        RefreshFromKeepsTokenPresent(script, s, 0);
      }
    }
    PostAttemptPostsOnce(script, s1, id);
  }

  /**
   * An attempt that starts without a token and whose refresh finds one does
   * not raise: it posts with the refreshed token, exactly once, as the post
   * step from the refreshed state.
   */
  lemma AttemptWithoutTokenRefreshesThenPosts(script: seq<Reply>, s: BotState, id: Value)
    requires s.token.None?
    requires exists k :: 0 <= k < |Probes| && HasCsrf(Upcoming(script, s, k))
    ensures Refresh(script, s).1.token.Some?
    ensures Attempt(script, s, id) == PostAttempt(script, Refresh(script, s).1, id)
    ensures Occurrences(Attempt(script, s, id).1.trace, Post(id)) == Occurrences(s.trace, Post(id)) + 1
  {
    var k :| 0 <= k < |Probes| && HasCsrf(Upcoming(script, s, k));
    var m := LeastCsrf(script, s, k);
    RefreshStopsAtFirstToken(script, s, m);
    ProbesNameNoRequester(id);
    RefreshKeepsOtherEvents(script, s, Post(id));
    PostAttemptPostsOnce(script, Refresh(script, s).1, id);
  }

  /**
   * An attempt with no token whose refresh finds none raises before posting:
   * it spends the four probes and a one-second pause, and posts nothing.
   */
  lemma AttemptWithoutTokenDoesNotPost(script: seq<Reply>, s: BotState, id: Value)
    requires s.token.None?
    requires forall j :: 0 <= j < |Probes| ==> !HasCsrf(Upcoming(script, s, j))
    ensures Attempt(script, s, id) == (false, s.(cursor := s.cursor + (|Probes|), trace := s.trace + Calls(Probes) + [Event.Sleep(1)]))
    ensures Occurrences(Attempt(script, s, id).1.trace, Post(id)) == Occurrences(s.trace, Post(id))
  {
    RefreshFailsWithoutToken(script, s);
    ProbesNameNoRequester(id);
    RefreshKeepsOtherEvents(script, s, Post(id));
    OccurrencesSnoc(Refresh(script, s).1.trace, Event.Sleep(1), Post(id));
  }

  /** The alternates and the web flow never post to the canonical endpoint. */
  lemma {:induction false} AlternativeDoesNotPost(script: seq<Reply>, s: BotState, id: Value, k: nat)
    ensures Occurrences(AlternativeFrom(script, s, id, k).1.trace, Post(id)) == Occurrences(s.trace, Post(id))
    decreases |AltEndpoints(id)| - k
  {
    var p := Post(id);
    if k >= |AltEndpoints(id)| {
      var (_, s1) := Exchange(script, s, HomePage);
      OccurrencesSnoc(s.trace, Call(HomePage), p);
      OccurrencesSnoc(s1.trace, Call(WebAcceptFriendRequest(id)), p);
    } else {
      var (reply, s1) := Exchange(script, s, AltEndpoints(id)[k]);
      OccurrencesSnoc(s.trace, Call(AltEndpoints(id)[k]), p);
      if !StatusIs(reply, 200) {
        AlternativeDoesNotPost(script, s1, id, k + 1);
      }
    }
  }

  /** From attempt number `attempt` on, the direct loop posts at most once per remaining attempt. */
  lemma {:induction false} DirectPostsBound(script: seq<Reply>, s: BotState, id: Value, attempt: nat)
    requires 1 <= attempt <= MaxAttempts + 1
    ensures Occurrences(Direct(script, s, id, attempt).1.trace, Post(id)) <= Occurrences(s.trace, Post(id)) + (MaxAttempts + 1 - attempt)
    decreases MaxAttempts + 1 - attempt
  {
    if attempt > MaxAttempts {
      DirectExhausted(script, s, id, attempt);
      AlternativeDoesNotPost(script, s, id, 0);
    } else {
      var (done, t) := Attempt(script, s, id);
      assert Occurrences(t.trace, Post(id)) <= Occurrences(s.trace, Post(id)) + 1 by {
        AttemptPostsAtMostOnce(script, s, id);
      }
      if done {
        assert Direct(script, s, id, attempt) == (true, t) by {
          DirectStep(script, s, id, attempt, done, t);
        }
      } else {
        assert Direct(script, s, id, attempt) == Direct(script, t, id, attempt + 1) by {
          DirectStep(script, s, id, attempt, done, t);
        }
        DirectPostsBound(script, t, id, attempt + 1);
      }
    }
  }

  /** The whole chain posts to the canonical endpoint at most three times. */
  lemma DirectPostsAtMostThree(script: seq<Reply>, s: BotState, id: Value)
    ensures Occurrences(Accept(script, s, id).1.trace, Post(id)) <= Occurrences(s.trace, Post(id)) + 3
  {
    DirectPostsBound(script, s, id, 1);
  }

  /**
   * The events of `n` rejected attempts: each posts once to the canonical
   * endpoint and pauses one second, and nothing else is called.
   */
  function RejectedPosts(id: Value, n: nat): (es: seq<Event>)
    ensures |es| == 2 * n
    ensures forall e :: e in es ==> e == Post(id) || e == Event.Sleep(1)
  {
    if n == 0 then [] else [Post(id), Event.Sleep(1)] + RejectedPosts(id, n - 1)
  }

  /** With a usable token, a post answered neither 200 nor 403 (or raising) fails the attempt and keeps the token. */
  lemma AttemptRejected(script: seq<Reply>, s: BotState, id: Value)
    requires StrTruthy(s.token)
    requires !StatusIs(Upcoming(script, s, 0), 200) && !StatusIs(Upcoming(script, s, 0), 403)
    ensures Attempt(script, s, id) == (false, s.(cursor := s.cursor + 1, trace := s.trace + [Post(id), Event.Sleep(1)]))
  {
    assert s.trace + [Post(id)] + [Event.Sleep(1)] == s.trace + [Post(id), Event.Sleep(1)];
  }

  /** A rejected post moves the loop one attempt on, after that post and a one-second pause. */
  lemma DirectRejected(script: seq<Reply>, s: BotState, id: Value, attempt: nat)
    requires attempt <= MaxAttempts
    requires StrTruthy(s.token)
    requires !StatusIs(Upcoming(script, s, 0), 200) && !StatusIs(Upcoming(script, s, 0), 403)
    ensures Direct(script, s, id, attempt) ==
      Direct(script, s.(cursor := s.cursor + 1, trace := s.trace + [Post(id), Event.Sleep(1)]), id, attempt + 1)
  {
    var t := s.(cursor := s.cursor + 1, trace := s.trace + [Post(id), Event.Sleep(1)]);
    assert Attempt(script, s, id) == (false, t) by {
      AttemptRejected(script, s, id);
    }
    DirectStep(script, s, id, attempt, false, t);
  }

  /**
   * `n` rejected posts in a row move the loop `n` attempts on, to the state
   * `u` that has nothing but those posts and pauses added.
   */
  lemma {:induction false} DirectAfterRejections(script: seq<Reply>, s: BotState, u: BotState, id: Value, attempt: nat, n: nat, last: nat)
    requires 1 <= attempt && last == attempt + n && last <= MaxAttempts + 1
    requires StrTruthy(s.token)
    requires forall j :: 0 <= j < n ==> !StatusIs(Upcoming(script, s, j), 200) && !StatusIs(Upcoming(script, s, j), 403)
    requires u == s.(cursor := s.cursor + n, trace := s.trace + RejectedPosts(id, n))
    ensures Direct(script, s, id, attempt) == Direct(script, u, id, last)
    decreases n
  {
    if n == 0 {
      assert u == s;
    } else {
      var t := s.(cursor := s.cursor + 1, trace := s.trace + [Post(id), Event.Sleep(1)]);
      var next := attempt + 1;
      assert Direct(script, s, id, attempt) == Direct(script, t, id, next) by {
        DirectRejected(script, s, id, attempt);
      }
      forall j | 0 <= j < n - 1
        ensures !StatusIs(Upcoming(script, t, j), 200) && !StatusIs(Upcoming(script, t, j), 403)
      {
        assert Upcoming(script, t, j) == Upcoming(script, s, j + 1);
      }
      assert u == t.(cursor := t.cursor + (n - 1), trace := t.trace + RejectedPosts(id, n - 1)) by {
        assert t.trace + RejectedPosts(id, n - 1) == s.trace + RejectedPosts(id, n);
      }
      DirectAfterRejections(script, t, u, id, next, n - 1, last);
    }
  }

  /** With a usable token, a post answered 200 ends the loop with success in `w`, after that single call. */
  lemma DirectSuccess(script: seq<Reply>, s: BotState, w: BotState, id: Value, attempt: nat)
    requires attempt <= MaxAttempts
    requires StrTruthy(s.token) && StatusIs(Upcoming(script, s, 0), 200)
    requires w == s.(cursor := s.cursor + 1, trace := s.trace + [Post(id)])
    ensures Direct(script, s, id, attempt) == (true, w)
  {
    assert Attempt(script, s, id) == (true, w);
    DirectStep(script, s, id, attempt, true, w);
  }

  /**
   * With a usable token, when the first `k - 1` posts are rejected (neither
   * 200 nor 403) and the `k`-th is answered 200, the chain returns true after
   * exactly those `k` posts and `k - 1` pauses: no alternate, home-page or web
   * call is made.
   */
  lemma DirectSucceedsOnAttempt(script: seq<Reply>, s: BotState, id: Value, k: nat)
    requires 1 <= k <= MaxAttempts
    requires StrTruthy(s.token)
    requires forall j :: 0 <= j < k - 1 ==> !StatusIs(Upcoming(script, s, j), 200) && !StatusIs(Upcoming(script, s, j), 403)
    requires StatusIs(Upcoming(script, s, k - 1), 200)
    ensures Accept(script, s, id) ==
      (true, s.(cursor := s.cursor + k, trace := s.trace + RejectedPosts(id, k - 1) + [Post(id)]))
  {
    var n := k - 1;
    var t := s.(cursor := s.cursor + n, trace := s.trace + RejectedPosts(id, n));
    var w := s.(cursor := s.cursor + k, trace := s.trace + RejectedPosts(id, n) + [Post(id)]);
    assert Accept(script, s, id) == Direct(script, t, id, k) by {
      DirectAfterRejections(script, s, t, id, 1, n, k);
    }
    assert Direct(script, t, id, k) == (true, w) by {
      assert Upcoming(script, t, 0) == Upcoming(script, s, n);
      DirectSuccess(script, t, w, id, k);
    }
  }

  /**
   * The retry budget is exactly three: with a usable token and the first
   * three posts rejected (neither 200 nor 403), the chain hands over to the
   * first alternate after exactly three posts and three one-second pauses.
   */
  lemma DirectExhaustsBudget(script: seq<Reply>, s: BotState, id: Value)
    requires StrTruthy(s.token)
    requires forall j :: 0 <= j < MaxAttempts ==> !StatusIs(Upcoming(script, s, j), 200) && !StatusIs(Upcoming(script, s, j), 403)
    ensures Accept(script, s, id) ==
      AlternativeFrom(script, s.(cursor := s.cursor + 3, trace := s.trace + RejectedPosts(id, 3)), id, 0)
  {
    var u := s.(cursor := s.cursor + 3, trace := s.trace + RejectedPosts(id, 3));
    assert Accept(script, s, id) == Direct(script, u, id, MaxAttempts + 1) by {
      DirectAfterRejections(script, s, u, id, 1, MaxAttempts, MaxAttempts + 1);
    }
    DirectExhausted(script, u, id, MaxAttempts + 1);
  }

  /**
   * The retry budget is exactly three, whatever made the attempts fail
   * (403s with or without a header, other statuses, raised calls): when a
   * token is held and three successive attempts all fail, the chain hands
   * over to the first alternate from the state after the third, having
   * posted to the canonical endpoint exactly three times.
   */
  lemma DirectExhaustsAttempts(script: seq<Reply>, s: BotState, id: Value, t1: BotState, t2: BotState, t3: BotState)
    requires s.token.Some?
    requires Attempt(script, s, id) == (false, t1)
    requires Attempt(script, t1, id) == (false, t2)
    requires Attempt(script, t2, id) == (false, t3)
    ensures Accept(script, s, id) == AlternativeFrom(script, t3, id, 0)
    ensures Occurrences(t3.trace, Post(id)) == Occurrences(s.trace, Post(id)) + 3
  {
    assert Accept(script, s, id) == Direct(script, t1, id, 2) by {
      DirectStep(script, s, id, 1, false, t1);
    }
    assert Direct(script, t1, id, 2) == Direct(script, t2, id, 3) by {
      DirectStep(script, t1, id, 2, false, t2);
    }
    assert Direct(script, t2, id, 3) == Direct(script, t3, id, 4) by {
      DirectStep(script, t2, id, 3, false, t3);
    }
    DirectExhausted(script, t3, id, 4);
    AttemptPostsOnceWithToken(script, s, id);
    AttemptPostsOnceWithToken(script, t1, id);
    AttemptPostsOnceWithToken(script, t2, id);
  }

  /**
   * Three failed attempts (for instance three 403s) followed by a 200 from
   * the first alternate: the chain succeeds through that alternate, after
   * exactly three canonical posts and one alternate call.
   */
  lemma AcceptViaFirstAlternate(script: seq<Reply>, s: BotState, id: Value, t1: BotState, t2: BotState, t3: BotState)
    requires s.token.Some?
    requires Attempt(script, s, id) == (false, t1)
    requires Attempt(script, t1, id) == (false, t2)
    requires Attempt(script, t2, id) == (false, t3)
    requires StatusIs(Upcoming(script, t3, 0), 200)
    ensures Accept(script, s, id) == (true, t3.(cursor := t3.cursor + 1, trace := t3.trace + [Call(AltEndpoints(id)[0])]))
    ensures Occurrences(Accept(script, s, id).1.trace, Post(id)) == Occurrences(s.trace, Post(id)) + 3
  {
    var alt := Call(AltEndpoints(id)[0]);
    var w := t3.(cursor := t3.cursor + 1, trace := t3.trace + [alt]);
    assert Accept(script, s, id) == AlternativeFrom(script, t3, id, 0)
        && Occurrences(t3.trace, Post(id)) == Occurrences(s.trace, Post(id)) + 3 by {
      DirectExhaustsAttempts(script, s, id, t1, t2, t3);
    }
    assert AlternativeFrom(script, t3, id, 0) == (true, w) by {
      AlternativeFirst200(script, t3, id, 0);
      assert Calls(AltEndpoints(id)[..1]) == [alt];
    }
    OccurrencesSnoc(t3.trace, alt, Post(id));
  }

  /** Non-200 alternates are skipped in order: each is called once and the chain moves on. */
  lemma {:induction false} AlternativeSkips(script: seq<Reply>, s: BotState, id: Value, k: nat, d: nat)
    requires k + d <= |AltEndpoints(id)|
    requires forall j :: 0 <= j < d ==> !StatusIs(Upcoming(script, s, j), 200)
    ensures AlternativeFrom(script, s, id, k) ==
      AlternativeFrom(script, s.(cursor := s.cursor + d, trace := s.trace + Calls(AltEndpoints(id)[k..k + d])), id, k + d)
    decreases d
  {
    var alts := AltEndpoints(id);
    if d == 0 {
      assert alts[k..k] == [];
      assert s.trace + Calls([]) == s.trace;
      assert s.(cursor := s.cursor + 0, trace := s.trace + Calls(alts[k..k])) == s;
    } else {
      var (reply, s1) := Exchange(script, s, alts[k]);
      assert !StatusIs(Upcoming(script, s, 0), 200);
      forall j | 0 <= j < d - 1
        ensures !StatusIs(Upcoming(script, s1, j), 200)
      {
        assert Upcoming(script, s1, j) == Upcoming(script, s, j + 1);
      }
      AlternativeSkips(script, s1, id, k + 1, d - 1);
      CallsStep(s.trace, alts, k, k + d);
    }
  }

  /** The first alternate answered 200 wins, after the ones before it were each called once. */
  lemma AlternativeFirst200(script: seq<Reply>, s: BotState, id: Value, d: nat)
    requires d < |AltEndpoints(id)|
    requires forall j :: 0 <= j < d ==> !StatusIs(Upcoming(script, s, j), 200)
    requires StatusIs(Upcoming(script, s, d), 200)
    ensures AlternativeFrom(script, s, id, 0) ==
      (true, s.(cursor := s.cursor + (d + 1), trace := s.trace + Calls(AltEndpoints(id)[..d + 1])))
  {
    var alts := AltEndpoints(id);
    AlternativeSkips(script, s, id, 0, d);
    var s1 := s.(cursor := s.cursor + d, trace := s.trace + Calls(alts[0..d]));
    CallsSnoc(s.trace, alts, d);
  }

  /** With no 200 among the alternates, the web flow decides, after each alternate was called once. */
  lemma AlternativeFallsToWeb(script: seq<Reply>, s: BotState, id: Value)
    requires forall j :: 0 <= j < |AltEndpoints(id)| ==> !StatusIs(Upcoming(script, s, j), 200)
    ensures AlternativeFrom(script, s, id, 0) ==
      WebBased(script, s.(cursor := s.cursor + 3, trace := s.trace + Calls(AltEndpoints(id))), id)
  {
    AlternativeSkips(script, s, id, 0, 3);
    assert AltEndpoints(id)[0..3] == AltEndpoints(id);
  }

  /** The web flow succeeds iff the home page loads and the form post answers 200 with a truthy `success`. */
  lemma WebSucceedsIff(script: seq<Reply>, s: BotState, id: Value)
    ensures WebBased(script, s, id).0 <==>
      && StatusIs(Upcoming(script, s, 0), 200)
      && StatusIs(Upcoming(script, s, 1), 200)
      && Upcoming(script, s, 1).response.body.Some?
      && Truthy(Get(Upcoming(script, s, 1).response.body.value, "success"))
  {
  }

  /**
   * The calls of the web flow: the home page always; the form post only
   * when the home page answered 200. A failed home page posts nothing.
   */
  lemma WebCalls(script: seq<Reply>, s: BotState, id: Value)
    ensures WebBased(script, s, id).1 ==
      if StatusIs(Upcoming(script, s, 0), 200)
      then s.(cursor := s.cursor + 2, trace := s.trace + [Call(HomePage), Call(WebAcceptFriendRequest(id))])
      else s.(cursor := s.cursor + 1, trace := s.trace + [Call(HomePage)])
  {
    assert s.trace + [Call(HomePage)] + [Call(WebAcceptFriendRequest(id))] ==
      s.trace + [Call(HomePage), Call(WebAcceptFriendRequest(id))];
  }

  // ----------------------------------------------------------- scheduling

  /** Accepting each record with a truthy id is accepting the truthy ids in order. */
  lemma {:induction false} AcceptEachAcceptsTruthyIds(script: seq<Reply>, s: BotState, requests: seq<PendingRequest>)
    ensures AcceptEach(script, s, requests) == AcceptAll(script, s, TruthyIds(requests))
    decreases |requests|
  {
    if requests != [] {
      var s1 := if Truthy(requests[0].requesterUserId) then Accept(script, s, requests[0].requesterUserId).1 else s;
      AcceptEachAcceptsTruthyIds(script, s1, requests[1..]);
      if Truthy(requests[0].requesterUserId) {
        assert ([requests[0].requesterUserId] + TruthyIds(requests[1..]))[1..] == TruthyIds(requests[1..]);
      } else {
        assert [] + TruthyIds(requests[1..]) == TruthyIds(requests[1..]);
      }
    }
  }

  /** When every record has a truthy id, none is skipped. */
  lemma {:induction false} TruthyIdsKeepAll(requests: seq<PendingRequest>)
    requires forall p :: p in requests ==> Truthy(p.requesterUserId)
    ensures |TruthyIds(requests)| == |requests|
    ensures forall i :: 0 <= i < |requests| ==> TruthyIds(requests)[i] == requests[i].requesterUserId
    decreases |requests|
  {
    if requests != [] {
      assert requests[0] in requests;
      assert forall p :: p in requests[1..] ==> p in requests;
      TruthyIdsKeepAll(requests[1..]);
    }
  }

  /** A failing accept does not stop the ones after it. */
  lemma {:induction false} AcceptAllAppend(script: seq<Reply>, s: BotState, ids: seq<Value>, id: Value)
    ensures AcceptAll(script, s, ids + [id]) == Accept(script, AcceptAll(script, s, ids), id).1
    decreases |ids|
  {
    if ids == [] {
      assert ([] + [id])[1..] == [];
    } else {
      assert (ids + [id])[1..] == ids[1..] + [id];
      AcceptAllAppend(script, Accept(script, s, ids[0]).1, ids[1..], id);
    }
  }

  /**
   * A pass whose identity check fails bumps the counter without fetching; at
   * the threshold it sleeps twice the interval and resets.
   */
  lemma IterationLoginFailure(script: seq<Reply>, s: BotState, retryCount: nat, checkInterval: nat, fuel: nat)
    requires !UserInfo(script, s).0
    ensures var (next, t) := Iteration(script, s, retryCount, checkInterval, fuel);
      && next == (if retryCount + 1 >= MaxRetries then 0 else retryCount + 1)
      && t == PauseAll(Refresh(script, UserInfo(script, s).1).1, if retryCount + 1 >= MaxRetries then [2 * checkInterval] else [])
      && t.userId == s.userId && t.username == s.username
      && Occurrences(t.trace, Call(PendingFriendRequests)) == Occurrences(s.trace, Call(PendingFriendRequests))
  {
    var s1 := UserInfo(script, s).1;
    UserInfoOutcome(script, s);
    OccurrencesSnoc(s.trace, Call(AuthenticatedUser), Call(PendingFriendRequests));
    RefreshKeepsOtherEvents(script, s1, Call(PendingFriendRequests));
    var t := Refresh(script, s1).1;
    if retryCount + 1 >= MaxRetries {
      assert Sleeps([2 * checkInterval]) == [Event.Sleep(2 * checkInterval)];
      OccurrencesSnoc(t.trace, Event.Sleep(2 * checkInterval), Call(PendingFriendRequests));
    } else {
      assert Sleeps([]) == [];
      assert t.trace + [] == t.trace;
    }
  }

  /**
   * A pass whose identity check succeeds resets the counter, accepts every
   * fetched record once in order, then sleeps the interval.
   */
  lemma IterationSuccess(script: seq<Reply>, s: BotState, retryCount: nat, checkInterval: nat, fuel: nat)
    requires UserInfo(script, s).0
    ensures var (next, t) := Iteration(script, s, retryCount, checkInterval, fuel);
      var (requests, fetched) := FriendRequests(script, UserInfo(script, s).1, fuel);
      var ids := TruthyIds(requests);
      && next == 0
      && |ids| == |requests| && (forall i :: 0 <= i < |requests| ==> ids[i] == requests[i].requesterUserId)
      && t == PauseAll(AcceptAll(script, fetched, ids), [checkInterval])
  {
    var (requests, fetched) := FriendRequests(script, UserInfo(script, s).1, fuel);
    FetchKeepsOnlyIdentified(script, UserInfo(script, s).1, fuel);
    TruthyIdsKeepAll(requests);
    AcceptEachAcceptsTruthyIds(script, fetched, requests);
  }

  /** The counter stays below the threshold at every loop head. */
  lemma {:induction false} RunKeepsCounterBelowMax(script: seq<Reply>, s: BotState, retryCount: nat, n: nat, checkInterval: nat, fuel: nat)
    requires retryCount < MaxRetries
    ensures Run(script, s, retryCount, n, checkInterval, fuel).0 < MaxRetries
    decreases n
  {
    if n > 0 {
      var (next, s1) := Iteration(script, s, retryCount, checkInterval, fuel);
      RunStep(script, s, retryCount, n, checkInterval, fuel, next, s1);
      RunKeepsCounterBelowMax(script, s1, next, n - 1, checkInterval, fuel);
    }
  }
}
