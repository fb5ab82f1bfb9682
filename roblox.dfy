/**
 * The bot of `roblox_friend_bot.py`: returns the pending records as they
 * come, accepts with a self-recursive retry on 403 and a single alternate
 * endpoint, and polls every 10 seconds by default.
 */
module Roblox {
  import opened Options
  import opened Json
  import opened Wire
  import opened Auth
  import opened Scheduler

  /** `run_forever(check_interval=10)`. */
  const DefaultCheckInterval: nat := 10

  /**
   * What a 200 reply's body yields: its `data` list (`[]` if absent), as long
   * as every element is an object; the debug loop's `request.get` raises on
   * any other element, and iterating a non-list raises too.
   */
  function FromBody(body: Option<map<string, Value>>): seq<map<string, Value>>
  {
    match body
    case None => []
    case Some(data) =>
      match GetOr(data, "data", VList([]))
      case VList(items) => (match Objects(items) case Some(recs) => recs case None => [])
      case _ => []
  }

  /**
   * `get_friend_requests()`: on 200 the records; on 401/403 adopt the reply's
   * token (or refresh), pause, and call itself again; on any other status or
   * a raised call, `[]`. `fuel` bounds the self-recursion.
   */
  function FriendRequests(script: seq<Reply>, s: BotState, fuel: nat): (seq<map<string, Value>>, BotState)
    decreases fuel
  {
    if fuel == 0 then ([], s)
    else
      var (reply, s1) := Exchange(script, s, PendingFriendRequests);
      match reply
      case Failed => ([], s1)
      case Answered(r) =>
        if r.status == 200 then (FromBody(r.body), s1)
        else if r.status == 401 || r.status == 403 then
          if r.csrfToken.Some? then FriendRequests(script, Pause(s1.(token := r.csrfToken), 1), fuel - 1)
          else FriendRequests(script, Pause(Refresh(script, s1).1, 1), fuel - 1)
        else ([], s1)
  }

  /** `_accept_friend_request_alternative()`: one call, true iff it answers 200. */
  function Alternative(script: seq<Reply>, s: BotState, id: Value): (bool, BotState)
  {
    var (reply, s1) := Exchange(script, s, AcceptRequest(id));
    (StatusIs(reply, 200), s1)
  }

  /**
   * `accept_friend_request()`: refresh a falsy token, then post to the
   * canonical endpoint. `fuel` bounds the self-recursion.
   */
  function Accept(script: seq<Reply>, s: BotState, id: Value, fuel: nat): (bool, BotState)
    decreases fuel, 1
  {
    if fuel == 0 then (false, s)
    else
      var (reply, s1) := Exchange(script, Ready(script, s), AcceptFriendRequest(id));
      OnAcceptReply(script, reply, s1, id, fuel)
  }

  /**
   * What the reply to the accept post leads to: 200 accepts; 403 adopts the
   * reply's token (or refreshes), pauses and accepts again; any other status
   * hands over to the alternate endpoint; a raised call gives false.
   */
  function OnAcceptReply(script: seq<Reply>, reply: Reply, s: BotState, id: Value, fuel: nat): (bool, BotState)
    requires fuel > 0
    decreases fuel, 0
  {
    match reply
    case Failed => (false, s)
    case Answered(r) =>
      if r.status == 200 then (true, s)
      else if r.status == 403 then
        if r.csrfToken.Some? then Accept(script, Pause(s.(token := r.csrfToken), 1), id, fuel - 1)
        else Accept(script, Pause(Refresh(script, s).1, 1), id, fuel - 1)
      else Alternative(script, s, id)
  }

  /** The accept loop of `run_forever`: one accept per record whose `requesterUserId` is truthy, in order. */
  function AcceptEach(script: seq<Reply>, s: BotState, requests: seq<map<string, Value>>, fuel: nat): BotState
    decreases |requests|
  {
    if requests == [] then s
    else
      var id := Get(requests[0], "requesterUserId");
      var s1 := if Truthy(id) then Accept(script, s, id, fuel).1 else s;
      AcceptEach(script, s1, requests[1..], fuel)
  }

  /** Accepting each id in turn, whatever the earlier accepts returned. */
  function AcceptAll(script: seq<Reply>, s: BotState, ids: seq<Value>, fuel: nat): BotState
    decreases |ids|
  {
    if ids == [] then s else AcceptAll(script, Accept(script, s, ids[0], fuel).1, ids[1..], fuel)
  }

  /** The truthy `requesterUserId` values of `requests`, in order. */
  function TruthyIds(requests: seq<map<string, Value>>): (ids: seq<Value>)
    ensures |ids| <= |requests|
    ensures forall i :: 0 <= i < |ids| ==> Truthy(ids[i])
    decreases |requests|
  {
    if requests == [] then []
    else
      var id := Get(requests[0], "requesterUserId");
      (if Truthy(id) then [id] else []) + TruthyIds(requests[1..])
  }

  /** One pass of `run_forever` (the body of `while True`). */
  function Iteration(script: seq<Reply>, s: BotState, retryCount: nat, checkInterval: nat, fuel: nat): (nat, BotState)
  {
    var (loggedIn, s1) := UserInfo(script, s);
    if !loggedIn then
      var (next, sleeps) := Backoff(retryCount, LoginFailed, checkInterval);
      (next, PauseAll(Refresh(script, s1).1, sleeps))
    else
      var (requests, s2) := FriendRequests(script, s1, fuel);
      var (next, sleeps) := Backoff(retryCount, Completed, checkInterval);
      (next, PauseAll(AcceptEach(script, s2, requests, fuel), sleeps))
  }

  /** `n` passes of the loop. */
  function Run(script: seq<Reply>, s: BotState, retryCount: nat, n: nat, checkInterval: nat, fuel: nat): (nat, BotState)
    decreases n
  {
    if n == 0 then (retryCount, s)
    else
      var (next, s1) := Iteration(script, s, retryCount, checkInterval, fuel);
      Run(script, s1, next, n - 1, checkInterval, fuel)
  }

  /** After one pass the counter is still below the threshold, and the rest of the run is `Run` of what is left. */
  lemma RunStep(script: seq<Reply>, s: BotState, retryCount: nat, n: nat, checkInterval: nat, fuel: nat, next: nat, t: BotState)
    requires n > 0 && retryCount < MaxRetries
    requires (next, t) == Iteration(script, s, retryCount, checkInterval, fuel)
    ensures next < MaxRetries
    ensures Run(script, s, retryCount, n, checkInterval, fuel) == Run(script, t, next, n - 1, checkInterval, fuel)
  {
  }

  // ----------------------------------------------------------------- the bot

  class RobloxFriendBot {
    const cookie: string
    const session: HttpSession
    var csrfToken: Option<string>
    var userId: Value
    var username: Value

    function State(): BotState
      reads this, session
    {
      BotState(csrfToken, userId, username, session.cursor, session.trace)
    }

    /**
     * `__init__` once the cookie is known to be truthy: the token and identity
     * start as `None`, then the token is refreshed and the login verified.
     */
    constructor (cookie: string, session: HttpSession)
      requires cookie != ""
      modifies session
      ensures this.cookie == cookie && this.session == session
      ensures State() == UserInfo(session.script, Refresh(session.script, Initial(old(session.cursor), old(session.trace))).1).1
    {
      this.cookie := cookie;
      this.session := session;
      csrfToken := None;
      userId := VNone;
      username := VNone;
      new;
      var _ := RefreshCsrfToken();
      var _ := GetUserInfo();
    }

    /**
     * `RobloxFriendBot(cookie)`: the argument if truthy, else the environment
     * value; a falsy choice raises `ValueError` before any call is made.
     */
    static method Create(cookieArg: Option<string>, env: Option<string>, session: HttpSession)
      returns (r: Result<RobloxFriendBot, InitError>)
      modifies session
      ensures r.Err? <==> !StrTruthy(ChooseCookie(cookieArg, env))
      ensures r.Err? ==> session.cursor == old(session.cursor) && session.trace == old(session.trace)
      ensures r.Ok? ==> fresh(r.value) && r.value.session == session
      ensures r.Ok? ==> r.value.cookie == ChooseCookie(cookieArg, env).value
      ensures r.Ok? ==> r.value.State() == UserInfo(session.script, Refresh(session.script, Initial(old(session.cursor), old(session.trace))).1).1
    {
      var cookie := ChooseCookie(cookieArg, env);
      if !StrTruthy(cookie) {
        return Err(ValueError);
      }
      var bot := new RobloxFriendBot(cookie.value, session);
      return Ok(bot);
    }

    /** `_refresh_csrf_token()`: four tries written out, each returning on a token header. */
    method RefreshCsrfToken() returns (ok: bool)
      modifies this, session
      ensures (ok, State()) == Refresh(session.script, old(State()))
    {
      var reply := session.Send(AccountSettingsEmail);
      if HasCsrf(reply) {
        csrfToken := reply.response.csrfToken;
        return true;
      }
      assert RefreshFrom(session.script, State(), 1) == Refresh(session.script, old(State()));
      reply := session.Send(RequestFriendshipProbe);
      if HasCsrf(reply) {
        csrfToken := reply.response.csrfToken;
        return true;
      }
      assert RefreshFrom(session.script, State(), 2) == Refresh(session.script, old(State()));
      reply := session.Send(SetWearingAssets);
      if HasCsrf(reply) {
        csrfToken := reply.response.csrfToken;
        return true;
      }
      assert RefreshFrom(session.script, State(), 3) == Refresh(session.script, old(State()));
      reply := session.Send(GroupsSearch);
      if HasCsrf(reply) {
        csrfToken := reply.response.csrfToken;
        return true;
      }
      return false;
    }

    /** `_get_user_info()`. */
    method GetUserInfo() returns (ok: bool)
      modifies this, session
      ensures (ok, State()) == UserInfo(session.script, old(State()))
    {
      var reply := session.Send(AuthenticatedUser);
      if reply.Failed? {
        return false;
      }
      var response := reply.response;
      if response.status == 200 {
        if response.body.None? {
          return false;  // `response.json().get` raised
        }
        userId := Get(response.body.value, "id");
        username := Get(response.body.value, "name");
        return true;
      } else if response.status == 401 {
        return false;
      } else {
        return false;
      }
    }

    /** `get_friend_requests()`, with `fuel` bounding its self-recursion. */
    method GetFriendRequests(fuel: nat) returns (requests: seq<map<string, Value>>)
      modifies this, session
      ensures (requests, State()) == FriendRequests(session.script, old(State()), fuel)
      decreases fuel
    {
      if fuel == 0 {
        return [];
      }
      var reply := session.Send(PendingFriendRequests);
      if reply.Failed? {
        return [];
      }
      var response := reply.response;
      if response.status == 200 {
        if response.body.None? {
          return [];
        }
        var data := GetOr(response.body.value, "data", VList([]));
        if !data.VList? {
          return [];
        }
        var items := data.items;
        var i := 0;
        while i < |items|
          invariant 0 <= i <= |items|
          invariant forall j :: 0 <= j < i ==> items[j].VDict?
        {
          if !items[i].VDict? {
            return [];  // the debug loop's `request.get` raised
          }
          i := i + 1;
        }
        requests := Objects(items).value;
      } else if response.status == 401 || response.status == 403 {
        if response.csrfToken.Some? {
          csrfToken := response.csrfToken;
        } else {
          var _ := RefreshCsrfToken();
        }
        session.Sleep(1);
        requests := GetFriendRequests(fuel - 1);
      } else {
        return [];
      }
    }

    /** `accept_friend_request()`, with `fuel` bounding its self-recursion. */
    method AcceptFriendRequest(requesterId: Value, fuel: nat) returns (ok: bool)
      modifies this, session
      ensures (ok, State()) == Accept(session.script, old(State()), requesterId, fuel)
      decreases fuel, 1
    {
      if fuel == 0 {
        return false;
      }
      if !StrTruthy(csrfToken) {
        var _ := RefreshCsrfToken();
      }
      assert State() == Ready(session.script, old(State()));
      var reply := session.Send(Endpoint.AcceptFriendRequest(requesterId));
      assert Accept(session.script, old(State()), requesterId, fuel) == OnAcceptReply(session.script, reply, State(), requesterId, fuel);
      ok := HandleAcceptReply(reply, requesterId, fuel);
    }

    /** The rest of `accept_friend_request()` once the post has been answered (or raised). */
    method HandleAcceptReply(reply: Reply, requesterId: Value, fuel: nat) returns (ok: bool)
      requires fuel > 0
      modifies this, session
      ensures (ok, State()) == OnAcceptReply(session.script, reply, old(State()), requesterId, fuel)
      decreases fuel, 0
    {
      if reply.Failed? {
        return false;
      }
      var response := reply.response;
      if response.status == 200 {
        return true;
      } else if response.status == 403 {
        if response.csrfToken.Some? {
          csrfToken := response.csrfToken;
        } else {
          var _ := RefreshCsrfToken();
        }
        session.Sleep(1);
        ok := AcceptFriendRequest(requesterId, fuel - 1);
      } else {
        ok := AcceptFriendRequestAlternative(requesterId);
      }
    }

    /** `_accept_friend_request_alternative()`. */
    method AcceptFriendRequestAlternative(requesterId: Value) returns (ok: bool)
      modifies this, session
      ensures (ok, State()) == Alternative(session.script, old(State()), requesterId)
    {
      var reply := session.Send(AcceptRequest(requesterId));
      ok := StatusIs(reply, 200);
    }

    /** One pass of the `while True` loop of `run_forever`; returns the new `retry_count`. */
    method RunOnce(retryCount: nat, fuel: nat, checkInterval: nat := DefaultCheckInterval) returns (next: nat)
      modifies this, session
      ensures (next, State()) == Iteration(session.script, old(State()), retryCount, checkInterval, fuel)
    {
      var loggedIn := GetUserInfo();
      if !loggedIn {
        ghost var s1 := State();
        var _ := RefreshCsrfToken();
        ghost var s2 := State();
        var backoff := Backoff(retryCount, LoginFailed, checkInterval);
        next := retryCount + 1;
        if next >= MaxRetries {
          session.Sleep(checkInterval * 2);
          next := 0;
          assert Sleeps([checkInterval * 2]) == [Event.Sleep(checkInterval * 2)];
          assert State() == PauseAll(s2, backoff.1);
        } else {
          assert Sleeps([]) == [];
          assert s2.trace + Sleeps([]) == s2.trace;
          assert State() == PauseAll(s2, backoff.1);
        }
        return;
      }
      next := 0;
      var requests := GetFriendRequests(fuel);
      ghost var fetched := State();
      var i := 0;
      while i < |requests|
        invariant 0 <= i <= |requests|
        invariant AcceptEach(session.script, State(), requests[i..], fuel) == AcceptEach(session.script, fetched, requests, fuel)
      {
        var requesterId := Get(requests[i], "requesterUserId");
        if Truthy(requesterId) {
          var _ := AcceptFriendRequest(requesterId, fuel);
        }
        i := i + 1;
      }
      session.Sleep(checkInterval);
      assert Sleeps([checkInterval]) == [Event.Sleep(checkInterval)];
    }

    /** `run_forever()` cut off after `iterations` passes; `retry_count` stays below 5 at each loop head. */
    method RunForever(iterations: nat, fuel: nat, checkInterval: nat := DefaultCheckInterval) returns (retryCount: nat)
      modifies this, session
      ensures retryCount < MaxRetries
      ensures (retryCount, State()) == Run(session.script, old(State()), 0, iterations, checkInterval, fuel)
    {
      retryCount := 0;
      var remaining := iterations;
      while remaining > 0
        invariant retryCount < MaxRetries
        invariant Run(session.script, State(), retryCount, remaining, checkInterval, fuel) == Run(session.script, old(State()), 0, iterations, checkInterval, fuel)
      {
        ghost var before := State();
        ghost var previous := retryCount;
        retryCount := RunOnce(retryCount, fuel, checkInterval);
        assert retryCount < MaxRetries
          && Run(session.script, before, previous, remaining, checkInterval, fuel) == Run(session.script, State(), retryCount, remaining - 1, checkInterval, fuel) by {
          RunStep(session.script, before, previous, remaining, checkInterval, fuel, retryCount, State());
        }
        remaining := remaining - 1;
      }
    }
  }
}
