/**
 * The HTTP exchanges of the bots, replaced by scripted abstract responses.
 * Endpoints are labels that record which URL was hit; nothing is sent anywhere.
 */
module Wire {
  import opened Options
  import opened Json

  /** The URLs the bots call, as labels (the requester id is part of some URLs). */
  datatype Endpoint =
    | AccountSettingsEmail                        // POST accountsettings /v1/email
    | RequestFriendshipProbe                      // POST friends /v1/users/1/request-friendship
    | SetWearingAssets                            // POST avatar /v1/avatar/set-wearing-assets
    | GroupsSearch                                // POST groups /v1/groups/search
    | AuthenticatedUser                           // GET users /v1/users/authenticated
    | PendingFriendRequests                       // GET friends /v1/my/friends/requests
    | AcceptFriendRequest(requesterId: Value)     // POST friends /v1/users/{id}/accept-friend-request
    | AcceptRequest(requesterId: Value)           // POST friends /v1/users/{id}/accept-request
    | RequestAccept(requesterId: Value)           // POST friends /v1/users/{id}/request/accept
    | UserAcceptFriendRequest(requesterId: Value) // POST friends /v1/user/{id}/accept-friend-request
    | HomePage                                    // GET www /home
    | WebAcceptFriendRequest(requesterId: Value)  // POST www /api/friends/acceptfriendrequest (form)

  /**
   * What a call returns: the status code, the `x-csrf-token` header if present,
   * and the body when it decodes to a JSON object (`None` otherwise).
   */
  datatype Response = Response(status: int, csrfToken: Option<string>, body: Option<map<string, Value>>)

  /** A call either raises (network failure, timeout, ...) or is answered. */
  datatype Reply = Failed | Answered(response: Response)

  /** What the bot did, in order: a call to an endpoint, or a `time.sleep`. */
  datatype Event = Call(endpoint: Endpoint) | Sleep(seconds: nat)

  predicate HasCsrf(r: Reply)
  {
    r.Answered? && r.response.csrfToken.Some?
  }

  predicate StatusIs(r: Reply, code: int)
  {
    r.Answered? && r.response.status == code
  }

  /** The reply at position `k` of a script; past its end every call raises. */
  function Nth(script: seq<Reply>, k: nat): (r: Reply)
    ensures k >= |script| ==> r == Failed
  {
    if k < |script| then script[k] else Failed
  }

  /** The events of calling each endpoint of `es` once, in order. */
  function Calls(es: seq<Endpoint>): (t: seq<Event>)
    ensures |t| == |es|
    ensures forall i :: 0 <= i < |es| ==> t[i] == Call(es[i])
  {
    if es == [] then [] else [Call(es[0])] + Calls(es[1..])
  }

  /** The events of sleeping for each duration of `ds`, in order. */
  function Sleeps(ds: seq<nat>): (t: seq<Event>)
    ensures |t| == |ds|
    ensures forall i :: 0 <= i < |ds| ==> t[i] == Event.Sleep(ds[i])
  {
    if ds == [] then [] else [Event.Sleep(ds[0])] + Sleeps(ds[1..])
  }

  /** The call to the canonical accept endpoint for `id`. */
  function Post(id: Value): Event
  {
    Call(AcceptFriendRequest(id))
  }

  /** How often `e` occurs in a trace. */
  function Occurrences(t: seq<Event>, e: Event): nat
    decreases |t|
  {
    if t == [] then 0 else Occurrences(t[..|t| - 1], e) + (if t[|t| - 1] == e then 1 else 0)
  }

  lemma OccurrencesSnoc(t: seq<Event>, x: Event, e: Event)
    ensures Occurrences(t + [x], e) == Occurrences(t, e) + (if x == e then 1 else 0)
  {
    assert (t + [x])[..|t|] == t;
  }

  lemma {:induction false} OccurrencesAppend(a: seq<Event>, b: seq<Event>, e: Event)
    ensures Occurrences(a + b, e) == Occurrences(a, e) + Occurrences(b, e)
    decreases |b|
  {
    if b == [] {
      assert a + b == a;
    } else {
      assert (a + b)[..|a + b| - 1] == a + b[..|b| - 1];
      OccurrencesAppend(a, b[..|b| - 1], e);
    }
  }

  lemma CallsSplit(es: seq<Endpoint>)
    ensures es == [] ==> Calls(es) == []
    ensures es != [] ==> Calls(es) == [Call(es[0])] + Calls(es[1..])
  {
  }

  lemma CallsAppend(a: seq<Endpoint>, b: seq<Endpoint>)
    ensures Calls(a + b) == Calls(a) + Calls(b)
  {
    assert |Calls(a + b)| == |Calls(a) + Calls(b)|;
    assert forall i :: 0 <= i < |a + b| ==> Calls(a + b)[i] == (Calls(a) + Calls(b))[i];
  }

  /** Calling `es[k]` and then `es[k+1..j]` is calling `es[k..j]`. */
  lemma CallsStep(t: seq<Event>, es: seq<Endpoint>, k: nat, j: nat)
    requires k < j <= |es|
    ensures t + [Call(es[k])] + Calls(es[k + 1..j]) == t + Calls(es[k..j])
  {
    assert [es[k]] + es[k + 1..j] == es[k..j];
    CallsAppend([es[k]], es[k + 1..j]);
  }

  /** Calling `es[0..d]` and then `es[d]` is calling `es[..d + 1]`. */
  lemma CallsSnoc(t: seq<Event>, es: seq<Endpoint>, d: nat)
    requires d < |es|
    ensures t + Calls(es[0..d]) + [Call(es[d])] == t + Calls(es[..d + 1])
  {
    assert es[0..d] + [es[d]] == es[..d + 1];
    CallsAppend(es[0..d], [es[d]]);
  }

  /**
   * The HTTP session and the clock. `script` is the whole scripted sequence of
   * replies and `cursor` the number of calls issued so far, so the next reply is
   * `Nth(script, cursor)`; `trace` is everything the bot has done so far.
   */
  class HttpSession {
    const script: seq<Reply>
    var cursor: nat
    var trace: seq<Event>

    constructor (script: seq<Reply>)
      ensures this.script == script && cursor == 0 && trace == []
    {
      this.script := script;
      cursor := 0;
      trace := [];
    }

    /** Issues one call: the next scripted reply is consumed and the call is recorded. */
    method Send(endpoint: Endpoint) returns (reply: Reply)
      modifies this
      ensures reply == Nth(script, old(cursor))
      ensures cursor == old(cursor) + 1
      ensures trace == old(trace) + [Call(endpoint)]
    {
      reply := Nth(script, cursor);
      cursor := cursor + 1;
      trace := trace + [Call(endpoint)];
    }

    /** `time.sleep(seconds)`: only recorded. */
    method Sleep(seconds: nat)
      modifies this
      ensures cursor == old(cursor)
      ensures trace == old(trace) + [Event.Sleep(seconds)]
    {
      trace := trace + [Event.Sleep(seconds)];
    }
  }
}
