/**
 * The session state shared by both bots, and the two pieces of logic they
 * share verbatim: the anti-forgery (CSRF) token refresher and the identity
 * check. Both are pure functions of the state; the bots' methods are proved
 * against them.
 */
module Auth {
  import opened Options
  import opened Json
  import opened Wire

  /**
   * The bot's mutable fields (`csrf_token`, `user_id`, `username`) together
   * with how many calls have been issued and the trace of what was done. The
   * scripted replies themselves are fixed for a whole run, so every function
   * below takes them as a separate `script` argument.
   */
  datatype BotState = BotState(
    token: Option<string>,
    userId: Value,
    username: Value,
    cursor: nat,
    trace: seq<Event>)

  /** Python truthiness of a value that is a string or `None`. */
  predicate StrTruthy(o: Option<string>)
  {
    o.Some? && o.value != ""
  }

  /** The reply that the `j`-th call from now will receive under `script`. */
  function Upcoming(script: seq<Reply>, s: BotState, j: nat): Reply
  {
    Nth(script, s.cursor + j)
  }

  /** One call: consumes the next reply and records the call. */
  function Exchange(script: seq<Reply>, s: BotState, e: Endpoint): (Reply, BotState)
  {
    (Upcoming(script, s, 0), s.(cursor := s.cursor + 1, trace := s.trace + [Call(e)]))
  }

  /** `time.sleep(seconds)`. */
  function Pause(s: BotState, seconds: nat): BotState
  {
    s.(trace := s.trace + [Event.Sleep(seconds)])
  }

  /** Sleeps for each duration of `ds`, in order. */
  function PauseAll(s: BotState, ds: seq<nat>): BotState
  {
    s.(trace := s.trace + Sleeps(ds))
  }

  /** The state right after construction and before the first call. */
  function Initial(cursor: nat, trace: seq<Event>): BotState
  {
    BotState(None, VNone, VNone, cursor, trace)
  }

  /** The constructor's argument when it is truthy, otherwise the environment's value. */
  function ChooseCookie(arg: Option<string>, env: Option<string>): (c: Option<string>)
    ensures StrTruthy(c) <==> StrTruthy(arg) || StrTruthy(env)
    ensures StrTruthy(c) ==> c == arg || c == env
    ensures StrTruthy(arg) ==> c == arg
  {
    if StrTruthy(arg) then arg else env
  }

  /** The construction error: no cookie was supplied. */
  datatype InitError = ValueError

  // ---------------------------------------------------------------- refresher

  /** The probe calls, in the order they are tried. */
  const Probes: seq<Endpoint> := [AccountSettingsEmail, RequestFriendshipProbe, SetWearingAssets, GroupsSearch]

  /**
   * Tries the probes from index `i` on. The first reply carrying the token
   * header stores the token and stops; a reply without it, or a call that
   * raises, moves on to the next probe.
   */
  function RefreshFrom(script: seq<Reply>, s: BotState, i: nat): (bool, BotState)
    decreases |Probes| - i
  {
    if i >= |Probes| then (false, s)
    else
      var (reply, s') := Exchange(script, s, Probes[i]);
      if HasCsrf(reply) then (true, s'.(token := reply.response.csrfToken))
      else RefreshFrom(script, s', i + 1)
  }

  /** `_refresh_csrf_token()`. */
  function Refresh(script: seq<Reply>, s: BotState): (bool, BotState)
  {
    RefreshFrom(script, s, 0)
  }

  lemma {:induction false} RefreshFromFirstToken(script: seq<Reply>, s: BotState, i: nat, d: nat)
    requires i + d < |Probes|
    requires HasCsrf(Upcoming(script, s, d))
    requires forall j :: 0 <= j < d ==> !HasCsrf(Upcoming(script, s, j))
    ensures RefreshFrom(script, s, i) ==
      (true, s.(token := Upcoming(script, s, d).response.csrfToken, cursor := s.cursor + d + 1,
                trace := s.trace + Calls(Probes[i..i + d + 1])))
    decreases d
  {
    var (reply, s') := Exchange(script, s, Probes[i]);
    if d > 0 {
      assert !HasCsrf(Upcoming(script, s, 0));
      assert RefreshFrom(script, s, i) == RefreshFrom(script, s', i + 1);
      forall j | 0 <= j < d - 1
        ensures !HasCsrf(Upcoming(script, s', j))
      {
        assert Upcoming(script, s', j) == Upcoming(script, s, j + 1);
      }
      RefreshFromFirstToken(script, s', i + 1, d - 1);
      CallsSplit(Probes[i..i + d + 1]);
      assert Probes[i..i + d + 1][1..] == Probes[i + 1..i + d + 1];
      assert Calls(Probes[i..i + d + 1]) == [Call(Probes[i])] + Calls(Probes[i + 1..i + d + 1]);
      assert s'.trace + Calls(Probes[i + 1..i + d + 1]) == s.trace + Calls(Probes[i..i + d + 1]);
      assert Upcoming(script, s', d - 1) == Upcoming(script, s, d);
    } else {
      assert RefreshFrom(script, s, i) == (true, s'.(token := reply.response.csrfToken));
      CallsSplit(Probes[i..i + 1]);
      assert Probes[i..i + 1][1..] == [];
      assert Calls(Probes[i..i + 1]) == [Call(Probes[i])];
    }
  }

  lemma {:induction false} RefreshFromNoToken(script: seq<Reply>, s: BotState, i: nat)
    requires i <= |Probes|
    requires forall j :: 0 <= j < |Probes| - i ==> !HasCsrf(Upcoming(script, s, j))
    ensures RefreshFrom(script, s, i) ==
      (false, s.(cursor := s.cursor + (|Probes| - i), trace := s.trace + Calls(Probes[i..])))
    decreases |Probes| - i
  {
    if i < |Probes| {
      var (reply, s') := Exchange(script, s, Probes[i]);
      assert !HasCsrf(Upcoming(script, s, 0));
      assert RefreshFrom(script, s, i) == RefreshFrom(script, s', i + 1);
      forall j | 0 <= j < |Probes| - (i + 1)
        ensures !HasCsrf(Upcoming(script, s', j))
      {
        assert Upcoming(script, s', j) == Upcoming(script, s, j + 1);
      }
      RefreshFromNoToken(script, s', i + 1);
      CallsSplit(Probes[i..]);
      assert Probes[i..][1..] == Probes[i + 1..];
      assert Calls(Probes[i..]) == [Call(Probes[i])] + Calls(Probes[i + 1..]);
      assert s'.trace + Calls(Probes[i + 1..]) == s.trace + Calls(Probes[i..]);
    } else {
      assert Probes[i..] == [];
      assert Calls(Probes[i..]) == [];
      assert s.trace + Calls(Probes[i..]) == s.trace;
      assert s.(cursor := s.cursor + (|Probes| - i), trace := s.trace + Calls(Probes[i..])) == s;
    }
  }

  /**
   * When the reply to probe `k` is the first one carrying the header, the
   * refresh succeeds, stores exactly that header value, has issued probes
   * 0..k in order and no later one, and leaves the identity untouched.
   */
  lemma RefreshStopsAtFirstToken(script: seq<Reply>, s: BotState, k: nat)
    requires k < |Probes|
    requires HasCsrf(Upcoming(script, s, k))
    requires forall j :: 0 <= j < k ==> !HasCsrf(Upcoming(script, s, j))
    ensures Refresh(script, s).0
    ensures Refresh(script, s).1.token == Upcoming(script, s, k).response.csrfToken
    ensures Refresh(script, s).1.trace == s.trace + Calls(Probes[..k + 1])
    ensures Refresh(script, s).1.cursor == s.cursor + k + 1
    ensures Refresh(script, s).1.userId == s.userId && Refresh(script, s).1.username == s.username
  {
    RefreshFromFirstToken(script, s, 0, k);
  }

  /**
   * When no probe reply carries the header (each one lacks it or raised),
   * every probe is tried exactly once, the refresh fails, and the token and
   * identity are unchanged.
   */
  lemma RefreshFailsWithoutToken(script: seq<Reply>, s: BotState)
    requires forall j :: 0 <= j < |Probes| ==> !HasCsrf(Upcoming(script, s, j))
    ensures !Refresh(script, s).0
    ensures Refresh(script, s).1 == s.(cursor := s.cursor + (|Probes|), trace := s.trace + Calls(Probes))
  {
    RefreshFromNoToken(script, s, 0);
  }

  /**
   * Refreshing adds to the trace nothing but probe calls and leaves the
   * identity alone: no other event's count changes.
   */
  lemma {:induction false} RefreshFromKeepsOtherEvents(script: seq<Reply>, s: BotState, i: nat, e: Event)
    requires forall j :: 0 <= j < |Probes| ==> e != Call(Probes[j])
    ensures Occurrences(RefreshFrom(script, s, i).1.trace, e) == Occurrences(s.trace, e)
    ensures RefreshFrom(script, s, i).1.userId == s.userId && RefreshFrom(script, s, i).1.username == s.username
    decreases |Probes| - i
  {
    if i < |Probes| {
      var (reply, s') := Exchange(script, s, Probes[i]);
      OccurrencesAppend(s.trace, [Call(Probes[i])], e);
      assert [Call(Probes[i])][..0] == [];
      assert Occurrences([Call(Probes[i])], e) == 0;
      if !HasCsrf(reply) {
        RefreshFromKeepsOtherEvents(script, s', i + 1, e);
      }
    }
  }

  /** Calls that name a requester are never probes. */
  lemma ProbesNameNoRequester(id: Value)
    ensures forall j :: 0 <= j < |Probes| ==> Post(id) != Call(Probes[j]) && Call(AcceptRequest(id)) != Call(Probes[j])
  {
  }

  lemma RefreshKeepsOtherEvents(script: seq<Reply>, s: BotState, e: Event)
    requires forall j :: 0 <= j < |Probes| ==> e != Call(Probes[j])
    ensures Occurrences(Refresh(script, s).1.trace, e) == Occurrences(s.trace, e)
    ensures Refresh(script, s).1.userId == s.userId && Refresh(script, s).1.username == s.username
  {
    RefreshFromKeepsOtherEvents(script, s, 0, e);
  }

  lemma {:induction false} LeastCsrf(script: seq<Reply>, s: BotState, k: nat) returns (m: nat)
    requires HasCsrf(Upcoming(script, s, k))
    ensures m <= k && HasCsrf(Upcoming(script, s, m))
    ensures forall j :: 0 <= j < m ==> !HasCsrf(Upcoming(script, s, j))
    decreases k
  {
    if j :| 0 <= j < k && HasCsrf(Upcoming(script, s, j)) {
      m := LeastCsrf(script, s, j);
    } else {
      m := k;
    }
  }

  /** The refresh succeeds exactly when one of the four probe replies carries the header. */
  lemma RefreshSucceedsIff(script: seq<Reply>, s: BotState)
    ensures Refresh(script, s).0 <==> exists k :: 0 <= k < |Probes| && HasCsrf(Upcoming(script, s, k))
  {
    if k :| 0 <= k < |Probes| && HasCsrf(Upcoming(script, s, k)) {
      var m := LeastCsrf(script, s, k);
      RefreshStopsAtFirstToken(script, s, m);
    } else {
      RefreshFailsWithoutToken(script, s);
    }
  }

  /** A refresh never loses a token: it only ever stores a header's value. */
  lemma {:induction false} RefreshFromKeepsTokenPresent(script: seq<Reply>, s: BotState, i: nat)
    requires s.token.Some?
    ensures RefreshFrom(script, s, i).1.token.Some?
    decreases |Probes| - i
  {
    if i < |Probes| {
      var (reply, s') := Exchange(script, s, Probes[i]);
      if !HasCsrf(reply) {
        RefreshFromKeepsTokenPresent(script, s', i + 1);
      }
    }
  }

  /** Before an accept: a falsy token is refreshed first. */
  function Ready(script: seq<Reply>, s: BotState): BotState
  {
    if StrTruthy(s.token) then s else Refresh(script, s).1
  }

  // ---------------------------------------------------------- identity check

  /**
   * `_get_user_info()`: on 200 the body's `id` and `name` become the identity;
   * on 401, any other status, a body that is not a JSON object, or a call that
   * raises, the result is false.
   */
  function UserInfo(script: seq<Reply>, s: BotState): (bool, BotState)
  {
    var (reply, s') := Exchange(script, s, AuthenticatedUser);
    match reply
    case Failed => (false, s')
    case Answered(r) =>
      if r.status == 200 then
        match r.body
        case Some(data) => (true, s'.(userId := Get(data, "id"), username := Get(data, "name")))
        case None => (false, s')
      else if r.status == 401 then (false, s')
      else (false, s')
  }

  /**
   * The identity check issues exactly one call; it succeeds exactly on a 200
   * with an object body and then takes `id`/`name` from it; otherwise the
   * identity and the token are left as they were.
   */
  lemma UserInfoOutcome(script: seq<Reply>, s: BotState)
    ensures var (ok, t) := UserInfo(script, s);
      var r := Upcoming(script, s, 0);
      && (ok <==> StatusIs(r, 200) && r.response.body.Some?)
      && (ok ==> t.userId == Get(r.response.body.value, "id") && t.username == Get(r.response.body.value, "name"))
      && (!ok ==> t.userId == s.userId && t.username == s.username)
      && t.token == s.token
      && t.cursor == s.cursor + 1
      && t.trace == s.trace + [Call(AuthenticatedUser)]
  {
  }
}
