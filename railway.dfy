/**
 * The bot of `railway_bot.py`: normalises pending requests, accepts each one
 * through a three-stage strategy chain (three attempts at the canonical
 * endpoint, three alternate URLs, a web-form fallback) and polls every
 * 5 seconds by default.
 */
module Railway {
  import opened Options
  import opened Json
  import opened Wire
  import opened Auth
  import opened Scheduler
  import opened Normaliser

  /** `run_forever(check_interval=5)`. */
  const DefaultCheckInterval: nat := 5

  /** `max_retries` of the direct accept. */
  const MaxAttempts: nat := 3

  // ------------------------------------------------------------ fetching

  /** What a 200 reply's body yields: the normalised `data` list. */
  function FromBody(body: Option<map<string, Value>>): seq<PendingRequest>
  {
    match body
    case None => []
    case Some(data) =>
      match GetOr(data, "data", VList([]))
      case VList(items) => (match Objects(items) case Some(recs) => Normalise(recs) case None => [])
      case _ => []
  }

  /**
   * `get_friend_requests()`: on 200 the normalised list; on 401/403 adopt the
   * reply's token (or refresh), pause, and call itself again; on any other
   * status or a raised call, `[]`. `fuel` bounds the self-recursion.
   */
  function FriendRequests(script: seq<Reply>, s: BotState, fuel: nat): (seq<PendingRequest>, BotState)
    decreases fuel
  {
    if fuel == 0 then ([], s)
    else
      var (reply, s1) := Exchange(script, s, PendingFriendRequests);
      match reply
      case Failed => ([], s1)
      case Answered(r) =>
        if r.status == 200 then (FromBody(r.body), s1)
        else if r.status == 401 || r.status == 403 then
          if r.csrfToken.Some? then FriendRequests(script, Pause(s1.(token := r.csrfToken), 1), fuel - 1)
          else FriendRequests(script, Pause(Refresh(script, s1).1, 1), fuel - 1)
        else ([], s1)
  }

  // ----------------------------------------------------------- accepting

  /**
   * One attempt of the direct accept. A falsy token is refreshed first; if the
   * token is still `None` the attempt raises before posting. A 403 adopts the
   * reply's token or refreshes. Every failed attempt ends with a 1-second pause.
   */
  function Attempt(script: seq<Reply>, s: BotState, id: Value): (bool, BotState)
  {
    var s1 := Ready(script, s);
    if s1.token.None? then (false, Pause(s1, 1))
    else PostAttempt(script, s1, id)
  }

  /**
   * The rest of an attempt once a token is held: the post, then 200 accepts,
   * 403 adopts the reply's token or refreshes, and every failure pauses 1 second.
   */
  function PostAttempt(script: seq<Reply>, s1: BotState, id: Value): (bool, BotState)
  {
    var (reply, s2) := Exchange(script, s1, AcceptFriendRequest(id));
    match reply
    case Failed => (false, Pause(s2, 1))
    case Answered(r) =>
      if r.status == 200 then (true, s2)
      else if r.status == 403 then
        if r.csrfToken.Some? then (false, Pause(s2.(token := r.csrfToken), 1))
        else (false, Pause(Refresh(script, s2).1, 1))
      else (false, Pause(s2, 1))
  }

  /** `accept_friend_request_direct()` from attempt number `attempt` on. */
  function Direct(script: seq<Reply>, s: BotState, id: Value, attempt: nat): (bool, BotState)
    decreases MaxAttempts + 1 - attempt, 1
  {
    if attempt > MaxAttempts then AlternativeFrom(script, s, id, 0)
    else AfterAttempt(script, Attempt(script, s, id), id, attempt)
  }

  /** The rest of the loop once attempt number `attempt` has returned `outcome`. */
  function AfterAttempt(script: seq<Reply>, outcome: (bool, BotState), id: Value, attempt: nat): (bool, BotState)
    requires attempt <= MaxAttempts
    decreases MaxAttempts + 1 - attempt, 0
  {
    if outcome.0 then (true, outcome.1) else Direct(script, outcome.1, id, attempt + 1)
  }

  /** One attempt of the direct loop: a success ends it, a failure moves on to the next attempt. */
  lemma DirectStep(script: seq<Reply>, s: BotState, id: Value, attempt: nat, done: bool, t: BotState)
    requires attempt <= MaxAttempts
    requires (done, t) == Attempt(script, s, id)
    ensures Direct(script, s, id, attempt) == if done then (true, t) else Direct(script, t, id, attempt + 1)
  {
  }

  /** The invariant of the direct loop across one attempt; `next` is the following attempt number. */
  lemma DirectContinues(script: seq<Reply>, s: BotState, id: Value, attempt: nat, next: nat, done: bool, t: BotState, goal: (bool, BotState))
    requires attempt <= MaxAttempts && next == attempt + 1
    requires Direct(script, s, id, attempt) == goal
    requires (done, t) == Attempt(script, s, id)
    ensures done ==> goal == (true, t)
    ensures !done ==> Direct(script, t, id, next) == goal
  {
  }

  /** Past the last attempt the direct loop hands over to the alternates. */
  lemma DirectExhausted(script: seq<Reply>, s: BotState, id: Value, attempt: nat)
    requires attempt > MaxAttempts
    ensures Direct(script, s, id, attempt) == AlternativeFrom(script, s, id, 0)
  {
  }

  /** The alternate accept URLs, in the order they are tried. */
  function AltEndpoints(id: Value): seq<Endpoint>
  {
    [AcceptRequest(id), RequestAccept(id), UserAcceptFriendRequest(id)]
  }

  /** `accept_friend_request_alternative()` from alternate `k` on; then the web flow. */
  function AlternativeFrom(script: seq<Reply>, s: BotState, id: Value, k: nat): (bool, BotState)
    decreases |AltEndpoints(id)| - k
  {
    if k >= |AltEndpoints(id)| then WebBased(script, s, id)
    else
      var (reply, s1) := Exchange(script, s, AltEndpoints(id)[k]);
      if StatusIs(reply, 200) then (true, s1) else AlternativeFrom(script, s1, id, k + 1)
  }

  /**
   * `accept_friend_request_web_based()`: load the home page, then post the
   * form; success needs a 200 whose JSON body has a truthy `success`.
   */
  function WebBased(script: seq<Reply>, s: BotState, id: Value): (bool, BotState)
  {
    var (home, s1) := Exchange(script, s, HomePage);
    if !StatusIs(home, 200) then (false, s1)
    else
      var (reply, s2) := Exchange(script, s1, WebAcceptFriendRequest(id));
      (StatusIs(reply, 200) && reply.response.body.Some? && Truthy(Get(reply.response.body.value, "success")), s2)
  }

  /** `accept_friend_request()`: the whole chain. */
  function Accept(script: seq<Reply>, s: BotState, id: Value): (bool, BotState)
  {
    Direct(script, s, id, 1)
  }

  // ----------------------------------------------------------- scheduling

  /** The accept loop of `run_forever`: one accept per record whose id is truthy, in order. */
  function AcceptEach(script: seq<Reply>, s: BotState, requests: seq<PendingRequest>): BotState
    decreases |requests|
  {
    if requests == [] then s
    else
      var s1 := if Truthy(requests[0].requesterUserId) then Accept(script, s, requests[0].requesterUserId).1 else s;
      AcceptEach(script, s1, requests[1..])
  }

  /** Accepting each id in turn, whatever the earlier accepts returned. */
  function AcceptAll(script: seq<Reply>, s: BotState, ids: seq<Value>): BotState
    decreases |ids|
  {
    if ids == [] then s else AcceptAll(script, Accept(script, s, ids[0]).1, ids[1..])
  }

  /** The truthy requester ids of `requests`, in order. */
  function TruthyIds(requests: seq<PendingRequest>): (ids: seq<Value>)
    ensures |ids| <= |requests|
    ensures forall i :: 0 <= i < |ids| ==> Truthy(ids[i])
    decreases |requests|
  {
    if requests == [] then []
    else (if Truthy(requests[0].requesterUserId) then [requests[0].requesterUserId] else []) + TruthyIds(requests[1..])
  }

  /**
   * One pass of `run_forever` (the body of `while True`): a failed identity
   * check refreshes the token and counts; otherwise the counter resets, the
   * requests are fetched and accepted, and the bot sleeps.
   */
  function Iteration(script: seq<Reply>, s: BotState, retryCount: nat, checkInterval: nat, fuel: nat): (nat, BotState)
  {
    var (loggedIn, s1) := UserInfo(script, s);
    if !loggedIn then
      var (next, sleeps) := Backoff(retryCount, LoginFailed, checkInterval);
      (next, PauseAll(Refresh(script, s1).1, sleeps))
    else
      var (requests, s2) := FriendRequests(script, s1, fuel);
      var (next, sleeps) := Backoff(retryCount, Completed, checkInterval);
      (next, PauseAll(AcceptEach(script, s2, requests), sleeps))
  }

  /** `n` passes of the loop. */
  function Run(script: seq<Reply>, s: BotState, retryCount: nat, n: nat, checkInterval: nat, fuel: nat): (nat, BotState)
    decreases n
  {
    if n == 0 then (retryCount, s)
    else
      var (next, s1) := Iteration(script, s, retryCount, checkInterval, fuel);
      Run(script, s1, next, n - 1, checkInterval, fuel)
  }

  /** After one pass the counter is still below the threshold, and the rest of the run is `Run` of what is left. */
  lemma RunStep(script: seq<Reply>, s: BotState, retryCount: nat, n: nat, checkInterval: nat, fuel: nat, next: nat, t: BotState)
    requires n > 0 && retryCount < MaxRetries
    requires (next, t) == Iteration(script, s, retryCount, checkInterval, fuel)
    ensures next < MaxRetries
    ensures Run(script, s, retryCount, n, checkInterval, fuel) == Run(script, t, next, n - 1, checkInterval, fuel)
  {
  }

  // ----------------------------------------------------------------- the bot

  class RobloxFriendBot {
    const cookie: string
    const session: HttpSession
    var csrfToken: Option<string>
    var userId: Value
    var username: Value

    function State(): BotState
      reads this, session
    {
      BotState(csrfToken, userId, username, session.cursor, session.trace)
    }

    /**
     * `__init__` once the cookie is known to be truthy: the token and identity
     * start as `None`, then the token is refreshed and the login verified.
     */
    constructor (cookie: string, session: HttpSession)
      requires cookie != ""
      modifies session
      ensures this.cookie == cookie && this.session == session
      ensures State() == UserInfo(session.script, Refresh(session.script, Initial(old(session.cursor), old(session.trace))).1).1
    {
      this.cookie := cookie;
      this.session := session;
      csrfToken := None;
      userId := VNone;
      username := VNone;
      new;
      var _ := RefreshCsrfToken();
      var _ := GetUserInfo();
    }

    /**
     * `RobloxFriendBot(cookie)`: the argument if truthy, else the environment
     * value; a falsy choice raises `ValueError` before any call is made.
     */
    static method Create(cookieArg: Option<string>, env: Option<string>, session: HttpSession)
      returns (r: Result<RobloxFriendBot, InitError>)
      modifies session
      ensures r.Err? <==> !StrTruthy(ChooseCookie(cookieArg, env))
      ensures r.Err? ==> session.cursor == old(session.cursor) && session.trace == old(session.trace)
      ensures r.Ok? ==> fresh(r.value) && r.value.session == session
      ensures r.Ok? ==> r.value.cookie == ChooseCookie(cookieArg, env).value
      ensures r.Ok? ==> r.value.State() == UserInfo(session.script, Refresh(session.script, Initial(old(session.cursor), old(session.trace))).1).1
    {
      var cookie := ChooseCookie(cookieArg, env);
      if !StrTruthy(cookie) {
        return Err(ValueError);
      }
      var bot := new RobloxFriendBot(cookie.value, session);
      return Ok(bot);
    }

    /** `_refresh_csrf_token()`: the probe loop with its early return. */
    method RefreshCsrfToken() returns (ok: bool)
      modifies this, session
      ensures (ok, State()) == Refresh(session.script, old(State()))
    {
      var i := 0;
      while i < |Probes|
        invariant 0 <= i <= |Probes|
        invariant RefreshFrom(session.script, State(), i) == Refresh(session.script, old(State()))
      {
        ghost var before := State();
        var reply := session.Send(Probes[i]);
        assert (reply, State()) == Exchange(session.script, before, Probes[i]);
        if HasCsrf(reply) {
          csrfToken := reply.response.csrfToken;
          return true;
        }
        i := i + 1;
      }
      return false;
    }

    /** `_get_user_info()`. */
    method GetUserInfo() returns (ok: bool)
      modifies this, session
      ensures (ok, State()) == UserInfo(session.script, old(State()))
    {
      var reply := session.Send(AuthenticatedUser);
      if reply.Failed? {
        return false;
      }
      var response := reply.response;
      if response.status == 200 {
        if response.body.None? {
          return false;  // `response.json()` raised
        }
        userId := Get(response.body.value, "id");
        username := Get(response.body.value, "name");
        return true;
      } else if response.status == 401 {
        return false;
      } else {
        return false;
      }
    }

    /** `get_friend_requests()`, with `fuel` bounding its self-recursion. */
    method GetFriendRequests(fuel: nat) returns (requests: seq<PendingRequest>)
      modifies this, session
      ensures (requests, State()) == FriendRequests(session.script, old(State()), fuel)
      decreases fuel
    {
      if fuel == 0 {
        return [];
      }
      var reply := session.Send(PendingFriendRequests);
      if reply.Failed? {
        return [];
      }
      var response := reply.response;
      if response.status == 200 {
        if response.body.None? {
          return [];
        }
        var data := GetOr(response.body.value, "data", VList([]));
        if !data.VList? {
          return [];
        }
        var records := Objects(data.items);
        if records.None? {
          return [];  // an element that is not an object makes the loop raise
        }
        requests := ProcessRequests(records.value);
      } else if response.status == 401 || response.status == 403 {
        if response.csrfToken.Some? {
          csrfToken := response.csrfToken;
          session.Sleep(1);
          requests := GetFriendRequests(fuel - 1);
        } else {
          var _ := RefreshCsrfToken();
          session.Sleep(1);
          requests := GetFriendRequests(fuel - 1);
        }
      } else {
        return [];
      }
    }

    /** One pass of the retry loop of `accept_friend_request_direct()`. */
    method AttemptAccept(requesterId: Value) returns (done: bool)
      modifies this, session
      ensures (done, State()) == Attempt(session.script, old(State()), requesterId)
    {
      if !StrTruthy(csrfToken) {
        var _ := RefreshCsrfToken();
      }
      if csrfToken.None? {
        session.Sleep(1);  // slicing the missing token raised
        return false;
      }
      var reply := session.Send(Endpoint.AcceptFriendRequest(requesterId));
      if StatusIs(reply, 200) {
        return true;
      } else if StatusIs(reply, 403) {
        if reply.response.csrfToken.Some? {
          csrfToken := reply.response.csrfToken;
        } else {
          var _ := RefreshCsrfToken();
        }
      }
      session.Sleep(1);
      return false;
    }

    /** `accept_friend_request_direct()`: up to three attempts, then the alternates. */
    method AcceptFriendRequestDirect(requesterId: Value) returns (ok: bool)
      modifies this, session
      ensures (ok, State()) == Direct(session.script, old(State()), requesterId, 1)
    {
      var attempt := 1;
      while attempt <= MaxAttempts
        invariant 1 <= attempt <= MaxAttempts + 1
        invariant Direct(session.script, State(), requesterId, attempt) == Direct(session.script, old(State()), requesterId, 1)
      {
        ghost var before := State();
        var done := AttemptAccept(requesterId);
        var next := attempt + 1;
        DirectContinues(session.script, before, requesterId, attempt, next, done, State(),
                        Direct(session.script, old(State()), requesterId, 1));
        if done {
          return true;
        }
        attempt := next;
      }
      ghost var before := State();
      ok := AcceptFriendRequestAlternative(requesterId);
      DirectExhausted(session.script, before, requesterId, attempt);
    }

    /** `accept_friend_request_alternative()`: each alternate URL once, then the web flow. */
    method AcceptFriendRequestAlternative(requesterId: Value) returns (ok: bool)
      modifies this, session
      ensures (ok, State()) == AlternativeFrom(session.script, old(State()), requesterId, 0)
    {
      var endpoints := AltEndpoints(requesterId);
      var k := 0;
      while k < |endpoints|
        invariant 0 <= k <= |endpoints|
        invariant AlternativeFrom(session.script, State(), requesterId, k) == AlternativeFrom(session.script, old(State()), requesterId, 0)
      {
        ghost var before := State();
        var reply := session.Send(endpoints[k]);
        assert (reply, State()) == Exchange(session.script, before, endpoints[k]);
        if StatusIs(reply, 200) {
          return true;
        }
        k := k + 1;
      }
      ok := AcceptFriendRequestWebBased(requesterId);
    }

    /** `accept_friend_request_web_based()`. */
    method AcceptFriendRequestWebBased(requesterId: Value) returns (ok: bool)
      modifies this, session
      ensures (ok, State()) == WebBased(session.script, old(State()), requesterId)
    {
      var home := session.Send(HomePage);
      if !StatusIs(home, 200) {
        return false;
      }
      var reply := session.Send(WebAcceptFriendRequest(requesterId));
      if StatusIs(reply, 200) {
        var body := reply.response.body;
        if body.Some? && Truthy(Get(body.value, "success")) {
          return true;
        }
      }
      return false;
    }

    /** `accept_friend_request()`. */
    method AcceptFriendRequest(requesterId: Value) returns (ok: bool)
      modifies this, session
      ensures (ok, State()) == Accept(session.script, old(State()), requesterId)
    {
      ok := AcceptFriendRequestDirect(requesterId);
    }

    /** One pass of the `while True` loop of `run_forever`; returns the new `retry_count`. */
    method RunOnce(retryCount: nat, fuel: nat, checkInterval: nat := DefaultCheckInterval) returns (next: nat)
      modifies this, session
      ensures (next, State()) == Iteration(session.script, old(State()), retryCount, checkInterval, fuel)
    {
      ghost var s0 := State();
      var loggedIn := GetUserInfo();
      if !loggedIn {
        ghost var s1 := State();
        var _ := RefreshCsrfToken();
        ghost var s2 := State();
        assert s2 == Refresh(session.script, s1).1;
        var backoff := Backoff(retryCount, LoginFailed, checkInterval);
        next := retryCount + 1;
        if next >= MaxRetries {
          session.Sleep(checkInterval * 2);
          next := 0;
          assert backoff == (0, [checkInterval * 2]);
          assert Sleeps([checkInterval * 2]) == [Event.Sleep(checkInterval * 2)];
          assert State() == PauseAll(s2, backoff.1);
        } else {
          assert backoff == (next, []);
          assert Sleeps([]) == [];
          assert s2.trace + Sleeps([]) == s2.trace;
          assert State() == PauseAll(s2, backoff.1);
        }
        assert (next, State()) == (backoff.0, PauseAll(s2, backoff.1));
        return;
      }
      next := 0;
      var requests := GetFriendRequests(fuel);
      ghost var fetched := State();
      var i := 0;
      while i < |requests|
        invariant 0 <= i <= |requests|
        invariant AcceptEach(session.script, State(), requests[i..]) == AcceptEach(session.script, fetched, requests)
      {
        var requesterId := requests[i].requesterUserId;
        if Truthy(requesterId) {
          var _ := AcceptFriendRequest(requesterId);
        }
        i := i + 1;
      }
      session.Sleep(checkInterval);
      assert Sleeps([checkInterval]) == [Event.Sleep(checkInterval)];
    }

    /** `run_forever()` cut off after `iterations` passes; `retry_count` stays below 5 at each loop head. */
    method RunForever(iterations: nat, fuel: nat, checkInterval: nat := DefaultCheckInterval) returns (retryCount: nat)
      modifies this, session
      ensures retryCount < MaxRetries
      ensures (retryCount, State()) == Run(session.script, old(State()), 0, iterations, checkInterval, fuel)
    {
      retryCount := 0;
      var remaining := iterations;
      while remaining > 0
        invariant retryCount < MaxRetries
        invariant Run(session.script, State(), retryCount, remaining, checkInterval, fuel) == Run(session.script, old(State()), 0, iterations, checkInterval, fuel)
      {
        ghost var before := State();
        ghost var previous := retryCount;
        retryCount := RunOnce(retryCount, fuel, checkInterval);
        assert retryCount < MaxRetries
          && Run(session.script, before, previous, remaining, checkInterval, fuel) == Run(session.script, State(), retryCount, remaining - 1, checkInterval, fuel) by {
          RunStep(session.script, before, previous, remaining, checkInterval, fuel, retryCount, State());
        }
        remaining := remaining - 1;
      }
    }
  }
}
