# Roblox friend-request auto-accepter, modelled in Dafny

The system is a polling bot that logs in to Roblox with a `.ROBLOSECURITY`
cookie. It keeps a CSRF token fresh, fetches the pending friend requests and
accepts each one. The repository has two variants of the bot, modelled here
side by side:

- `railway_bot.py` (module `Railway`). It normalises each pending record
  (flat and nested id/name fields, an `originSourceType` fallback). It accepts
  through a chain of strategies: three attempts at the canonical endpoint,
  then three alternate URLs, then a web-form post. It polls every 5 seconds
  by default.
- `roblox_friend_bot.py` (module `Roblox`). It returns the records as they
  come. A 403 on the accept post makes it call itself again, and any other
  failure status tries one alternate endpoint. It polls every 10 seconds by
  default.

Both bots share the token refresher, which tries four "probe" endpoints until
one answers with an `x-csrf-token` header. They also share the identity check
on `/v1/users/authenticated` and the retry counter of the polling loop. These
live in the modules `Auth` and `Scheduler`.

How the environment is represented:

- **HTTP** (module `Wire`). A `Wire.HttpSession` object holds a fixed
  script of replies, a cursor and a trace. Each call consumes the next reply.
  A reply is `Failed` (the call raised) or `Answered(Response(status,
  csrfToken, body))`. Past the end of the script every call raises.
- **Trace.** Every call and every `time.sleep` is appended to the trace as
  an `Event`. Nothing is sent anywhere.
- **Body.** `body` is the JSON body when it decodes to an object, and
  `None` otherwise.
- **Environment variable, interval, iteration count.** The `ROBLOSECURITY`
  environment value, the check interval and the number of loop iterations are
  parameters.

How it is proved:

- **Bot classes.** Each bot is a class, `RobloxFriendBot`, with the fields
  the Python object updates: `csrfToken`, `userId`, `username`, plus the
  cookie and the session.
- **State and spec functions.** `State()` reads those fields and the
  session's cursor and trace as an `Auth.BotState` value. Every operation is
  a method whose `ensures` equates its result and new state with a pure
  function applied to the old state and the script. For example,
  `RefreshCsrfToken` is proved against `Auth.Refresh` and
  `AcceptFriendRequestDirect` against `Railway.Direct`.
- **Lemmas.** The lemmas state what the bots promise, in terms of those
  functions. Examples: which token is adopted, how many posts are made, in
  which order the alternates are tried, that the counter stays below five,
  and which records are kept.
- **Fuel.** Self-recursion in the source (fetch on 401/403, the roblox
  accept on 403) is bounded by a `fuel` argument.

## Model

| member | source | states |
|---|---|---|
| Auth.ChooseCookie | railway_bot.py:32-39 | The chosen cookie is truthy iff the argument or the environment value is; a truthy argument always wins over the environment. |
| Auth.RefreshStopsAtFirstToken | railway_bot.py:86-97 | When probe `k`'s reply is the first with a token header, the refresh returns true, stores exactly that header, has called probes 0..k in order and no later one, and leaves the identity unchanged. |
| Auth.RefreshFailsWithoutToken | railway_bot.py:86-107 | When no probe reply has the header (or every call raised), all four probes are called once each, the result is false and the token and identity are unchanged. |
| Auth.RefreshSucceedsIff | railway_bot.py:86-107 | The refresh succeeds iff one of the four probe replies carries a token header. |
| Auth.RefreshKeepsOtherEvents | railway_bot.py:86-107 | A refresh adds only probe calls to the trace and never changes the identity. |
| Auth.UserInfoOutcome | railway_bot.py:109-134 | The identity check makes one call; it is true iff the reply is a 200 with an object body, the identity then becomes that body's `id` and `name`, otherwise the identity is unchanged; the token is never touched. |
| Railway.RobloxFriendBot.constructor | railway_bot.py:20-55 | With a truthy cookie: token and identity start as `None`, then one refresh followed by one identity check. |
| Railway.RobloxFriendBot.Create | railway_bot.py:32-39 | Fails with `ValueError`, making no call, iff neither the argument nor the environment value is truthy; otherwise the bot gets the chosen cookie and is constructed. |
| Railway.RobloxFriendBot.RefreshCsrfToken | railway_bot.py:57-107 | The probe loop with its early return computes exactly `Auth.Refresh`. |
| Railway.RobloxFriendBot.GetUserInfo | railway_bot.py:109-134 | Computes exactly `Auth.UserInfo` (200/401/other/raised branches). |
| Railway.RobloxFriendBot.GetFriendRequests | railway_bot.py:136-236 | Computes `Railway.FriendRequests`: the normalised list on 200, a header adoption or refresh plus a 1-second pause and a retry on 401/403, `[]` otherwise. |
| Railway.RobloxFriendBot.AttemptAccept | railway_bot.py:243-288 | One pass of the retry loop equals `Railway.Attempt`: refresh a falsy token, raise before posting when it is still `None`, adopt or refresh on 403, pause after every failure. |
| Railway.RobloxFriendBot.AcceptFriendRequestDirect | railway_bot.py:238-291 | The three-attempt loop followed by the alternates equals `Railway.Direct` from attempt 1. |
| Railway.RobloxFriendBot.AcceptFriendRequestAlternative | railway_bot.py:293-320 | Each alternate URL once, stopping at the first 200, then the web flow: equals `Railway.AlternativeFrom` from 0. |
| Railway.RobloxFriendBot.AcceptFriendRequestWebBased | railway_bot.py:322-359 | Equals `Railway.WebBased`: the home page, then the form post. |
| Railway.RobloxFriendBot.AcceptFriendRequest | railway_bot.py:361-375 | The master accept returns the direct chain's result and state. |
| Railway.RobloxFriendBot.RunOnce | railway_bot.py:398-447 | One pass of the `while True` body equals `Railway.Iteration`: identity check, refresh-and-count on failure, else reset, fetch, accept every truthy id, sleep the interval. |
| Railway.RobloxFriendBot.RunForever | railway_bot.py:395-462 | After any number of passes the counter is below 5 and the state is `Railway.Run` of the initial state. |
| Railway.RunStep | railway_bot.py:398-462 | One pass keeps the counter below 5, and the remaining run continues from that pass's state and counter. |
| Railway.TruthyIds | railway_bot.py:430-437 | The ids that get accepted are at most as many as the records and are all truthy. |
| RailwayProperties.FetchOn200 | railway_bot.py:143-211 | A 200 whose `data` is a list of objects costs one call and yields at most as many records as elements; each has a truthy id and is the normalisation of one element; every element whose id resolves is in the output. |
| RailwayProperties.FetchRejectsNonObject | railway_bot.py:155-160 | A `data` element that is not an object makes the fetch return `[]`. |
| RailwayProperties.FetchKeepsOnlyIdentified | railway_bot.py:198-211 | Whatever the replies, every fetched record has a truthy requester id. |
| RailwayProperties.FetchKeepsIdentity | railway_bot.py:136-236 | Fetching, retries included, never changes `user_id` or `username`. |
| RailwayProperties.FetchRetryAdoptsHeader | railway_bot.py:212-222 | On 401 or 403 with a token header the fetch stores that token, sleeps 1 second and fetches again. |
| RailwayProperties.FetchRetryRefreshes | railway_bot.py:212-227 | On 401 or 403 without a token header the fetch refreshes the token, sleeps 1 second and fetches again. |
| RailwayProperties.FetchWithoutData | railway_bot.py:143-150 | A 200 without `data` returns `[]` after one call. |
| RailwayProperties.FetchOtherStatus | railway_bot.py:228-236 | A raised call or a status other than 200, 401 and 403 returns `[]` after one call. |
| RailwayProperties.AttemptPostsAtMostOnce | railway_bot.py:243-288 | One attempt posts to the canonical accept endpoint at most once. |
| RailwayProperties.DirectSucceedsOnAttempt | railway_bot.py:242-288 | With a usable token, when posts 1 to k-1 (k at most 3) are answered neither 200 nor 403 and post k is answered 200, the chain returns true and adds exactly k posts and k-1 one-second sleeps to the trace: no alternate, home-page or web call. |
| RailwayProperties.Attempt403Refreshes | railway_bot.py:268-280 | A 403 without a header runs a full token refresh after the post, then pauses 1 second; the attempt fails. |
| RailwayProperties.PostAttemptPostsOnce | railway_bot.py:258-280 | With a token held, the post and its reply handling post to the canonical endpoint exactly once and still hold a token afterwards. |
| RailwayProperties.AttemptWithoutTokenRefreshesThenPosts | railway_bot.py:246-258 | An attempt that starts with no token and whose refresh finds a header does not raise: it posts once, from the refreshed state and with the refreshed token. |
| RailwayProperties.AttemptPostsOnceWithToken | railway_bot.py:243-288 | Once a token is held, each attempt posts to the canonical endpoint exactly once and keeps holding a token, whatever the reply. |
| RailwayProperties.Attempt403AdoptsHeader | railway_bot.py:268-276 | A 403 with a header stores that token and pauses 1 second after the one post. |
| RailwayProperties.AttemptWithoutTokenDoesNotPost | railway_bot.py:246-253 | With no token and a refresh that finds none, the attempt raises: four probes and a 1-second pause, no post. |
| RailwayProperties.AlternativeDoesNotPost | railway_bot.py:293-359 | The alternates and the web flow never post to the canonical endpoint. |
| RailwayProperties.DirectPostsBound | railway_bot.py:242-291 | From attempt `n` on, the direct loop makes at most `4 - n` canonical posts. |
| RailwayProperties.DirectPostsAtMostThree | railway_bot.py:361-375 | The whole accept chain posts to the canonical endpoint at most three times. |
| RailwayProperties.DirectExhaustsBudget | railway_bot.py:240-291 | With a usable token and the first three posts answered neither 200 nor 403, the chain is the alternates' chain started after exactly three posts and three one-second sleeps. |
| RailwayProperties.DirectExhaustsAttempts | railway_bot.py:240-291 | With a token held and three failed attempts, whatever the failure (403 with or without a header, another status, a raised call), the chain hands over to the first alternate from the third attempt's state, after exactly three canonical posts. |
| RailwayProperties.AcceptViaFirstAlternate | railway_bot.py:240-312 | Three failed attempts followed by a 200 from the first alternate: the chain returns true through that alternate, after exactly three canonical posts and one alternate call. |
| RailwayProperties.AlternativeSkips | railway_bot.py:301-317 | Alternates that do not answer 200 are each called once, in order, and the chain moves on to the next. |
| RailwayProperties.AlternativeFirst200 | railway_bot.py:301-312 | The first alternate that answers 200 wins, after each earlier one was called once. |
| RailwayProperties.AlternativeFallsToWeb | railway_bot.py:301-320 | With no 200 among the three alternates, the web flow decides, after each alternate was called once. |
| RailwayProperties.WebSucceedsIff | railway_bot.py:322-359 | The web flow succeeds iff the home page answers 200 and the form post answers 200 with a truthy `success` in an object body. |
| RailwayProperties.WebCalls | railway_bot.py:327-339 | The web flow always calls the home page; it posts the form only when the home page answered 200, so a failed home page posts nothing. |
| RailwayProperties.AcceptEachAcceptsTruthyIds | railway_bot.py:430-443 | The loop over the fetched records does exactly the accepts of their truthy ids, in order. |
| RailwayProperties.TruthyIdsKeepAll | railway_bot.py:430-434 | When every record has a truthy id (as the normaliser guarantees), none is skipped and the order is kept. |
| RailwayProperties.AcceptAllAppend | railway_bot.py:437-443 | A failed accept does not stop the ones after it. |
| RailwayProperties.IterationLoginFailure | railway_bot.py:404-417 | A failed identity check refreshes, bumps the counter (resetting it after a sleep of twice the interval at 5) and fetches nothing. The new state is the refreshed state plus that sleep, and the identity is unchanged. |
| RailwayProperties.IterationSuccess | railway_bot.py:419-447 | A successful identity check resets the counter, accepts every fetched record once in order, then sleeps the interval. |
| RailwayProperties.RunKeepsCounterBelowMax | railway_bot.py:395-417 | The counter is below 5 at every loop head, whatever the replies. |
| Normaliser.ScanIdFields | railway_bot.py:158-163 | The id loop over the five flat fields computes `Normaliser.ScanFields`. |
| Normaliser.ScanNameFields | railway_bot.py:173-179 | The name loop over the four flat fields computes `Normaliser.FirstTruthyField` with default `'Unknown'`. |
| Normaliser.ProcessRequests | railway_bot.py:155-211 | The normaliser loop equals `Normaliser.Normalise`, so its output is no longer than the input and every output record has a truthy id and comes from an input record. |
| Normaliser.ScanFieldsFirstTruthy | railway_bot.py:158-163 | The id scan yields the value of the first present field that is truthy. |
| Normaliser.ScanFieldsNoneTruthy | railway_bot.py:158-163 | With no truthy present field the id scan's result is falsy. |
| Normaliser.ScanFieldsTruthyIff | railway_bot.py:158-163 | The id scan is truthy iff some present flat field is truthy. |
| Normaliser.FirstTruthyFieldSpec | railway_bot.py:173-179 | The name scan yields the first present truthy field, or the default when there is none. |
| Normaliser.ResolveIdTruthyIff | railway_bot.py:158-170 | A record is kept iff a flat id field is truthy or the nested `requester` (else `user`) object has a truthy `id` or `userId`. |
| Normaliser.ResolveIdFlatFirst | railway_bot.py:158-163 | When a flat id field is truthy, the first such field is the id. |
| Normaliser.ResolveIdNested | railway_bot.py:165-196 | With no truthy flat id, the id is the nested object's `id` when truthy, else its `userId`; the object is `requester` when that is a dict, and `user` only when `requester` is missing or not a dict; the `originSourceType` re-read never makes it truthy. |
| Normaliser.OriginSourceTypeNeverRescues | railway_bot.py:188-196 | The `originSourceType` re-read never turns a dropped record into a kept one. |
| Normaliser.ResolveNameTruthy | railway_bot.py:173-186 | The resolved name is never falsy. |
| Normaliser.ResolveNameDefault | railway_bot.py:173-186 | With no truthy flat name and no nested object the name is `'Unknown'`. |
| Normaliser.ResolveNameFlatFirst | railway_bot.py:173-186 | The first truthy flat name is the name unless it is the string `'Unknown'`. |
| Normaliser.ResolveNameNested | railway_bot.py:172-186 | When the flat name scan ends on `'Unknown'`, the name is the first truthy of the nested object's `name`, `username` and `displayName`, else `'Unknown'`, with the same choice of nested object. |
| Normaliser.NestedRequesterIdOnly | railway_bot.py:165-206 | A record holding only `requester.id` is kept with that id and the name `'Unknown'`. |
| Normaliser.NormaliseAppend | railway_bot.py:155-210 | Normalising a concatenation is concatenating the normalised parts: records are processed independently, in order. |
| Normaliser.NormaliseCount | railway_bot.py:198-209 | Output length plus the number of dropped records is the input length. |
| Normaliser.NormaliseSound | railway_bot.py:198-206 | Every output record has a truthy id, keeps its input record as `originalData`, and is that record normalised. |
| Normaliser.NormaliseComplete | railway_bot.py:198-206 | Every input record whose id resolves appears, normalised, in the output. |
| Scheduler.Backoff | railway_bot.py:404-462 | The counter stays below 5. A completed pass resets it and sleeps the interval. A failed identity check below the threshold adds 1 and sleeps nothing. An exception before the reset below the threshold adds 1 and sleeps the interval. Either kind of failure reaching 5 sleeps twice the interval and resets to 0. An exception after the reset leaves the counter at 1 and sleeps the interval. A pass requests at most one sleep. |
| Scheduler.RaisedBeforeResetSleepPattern | railway_bot.py:453-462 | `n` consecutive exceptions raised before the reset, from 0, sleep once each: the interval, except twice the interval at every fifth. |
| Scheduler.PassesKeepCounterBelowMax | railway_bot.py:395-462 | Over any sequence of passes, including ones that raise, the counter stays below 5. |
| Scheduler.ConsecutiveFailuresCount | railway_bot.py:404-459 | After `n` consecutive failed identity checks or exceptions before the reset, starting from 0, the counter is `n mod 5`. |
| Scheduler.LoginFailuresSleepPattern | roblox_friend_bot.py:257-269 | `n` consecutive failed identity checks sleep only at every fifth one, each time for twice the interval. |
| Scheduler.ThresholdDoublesSleep | roblox_friend_bot.py:263-267 | The fifth consecutive counted failure sleeps twice the interval and resets the counter. |
| Scheduler.RaisedAfterResetNeverDoubles | railway_bot.py:420-462 | Exceptions raised after the reset never reach the threshold: however many follow each other, the counter stays at 1 and every pass sleeps the plain interval. |
| Roblox.RobloxFriendBot.constructor | roblox_friend_bot.py:19-54 | With a truthy cookie: token and identity start as `None`, then one refresh followed by one identity check. |
| Roblox.RobloxFriendBot.Create | roblox_friend_bot.py:31-38 | Fails with `ValueError`, making no call, iff neither the argument nor the environment value is truthy; otherwise the bot gets the chosen cookie and is constructed. |
| Roblox.RobloxFriendBot.RefreshCsrfToken | roblox_friend_bot.py:56-114 | The four written-out tries compute exactly the same `Auth.Refresh` as the railway loop. |
| Roblox.RobloxFriendBot.GetUserInfo | roblox_friend_bot.py:116-136 | Computes exactly `Auth.UserInfo`. |
| Roblox.RobloxFriendBot.GetFriendRequests | roblox_friend_bot.py:138-170 | Computes `Roblox.FriendRequests`: the raw records on 200 (`[]` when an element is not an object), adopt or refresh plus a 1-second pause and a retry on 401/403, `[]` otherwise. |
| Roblox.RobloxFriendBot.AcceptFriendRequest | roblox_friend_bot.py:172-217 | Computes `Roblox.Accept`. |
| Roblox.RobloxFriendBot.HandleAcceptReply | roblox_friend_bot.py:193-217 | The branches after the post: 200 true, 403 adopt or refresh then pause and accept again, other statuses go to the alternate, a raised call gives false. |
| Roblox.RobloxFriendBot.AcceptFriendRequestAlternative | roblox_friend_bot.py:219-238 | One call to the alternate endpoint; true iff it answers 200. |
| Roblox.RobloxFriendBot.RunOnce | roblox_friend_bot.py:254-300 | One pass of the `while True` body equals `Roblox.Iteration`. |
| Roblox.RobloxFriendBot.RunForever | roblox_friend_bot.py:251-314 | After any number of passes the counter is below 5 and the state is `Roblox.Run` of the initial state. |
| Roblox.RunStep | roblox_friend_bot.py:254-300 | One pass keeps the counter below 5, and the remaining run continues from that pass's state and counter. |
| Roblox.TruthyIds | roblox_friend_bot.py:283-287 | The ids that get accepted are at most as many as the records and are all truthy. |
| RobloxProperties.FetchOn200 | roblox_friend_bot.py:142-151 | A 200 whose `data` is a list of objects costs one call and returns exactly those objects, in order. |
| RobloxProperties.FetchWithoutData | roblox_friend_bot.py:143-151 | A 200 without `data` returns `[]` after one call. |
| RobloxProperties.FetchOtherStatus | roblox_friend_bot.py:164-170 | A raised call or a status other than 200, 401 and 403 returns `[]` after one call. |
| RobloxProperties.FetchRetryAdoptsHeader | roblox_friend_bot.py:152-159 | On 401 or 403 with a header the fetch stores that token, sleeps 1 second and fetches again. |
| RobloxProperties.FetchRetryRefreshes | roblox_friend_bot.py:152-163 | On 401 or 403 without a token header the fetch refreshes the token, sleeps 1 second and fetches again. |
| RobloxProperties.FetchKeepsIdentity | roblox_friend_bot.py:138-170 | Fetching, retries included, never changes `user_id` or `username`. |
| RobloxProperties.Accept200 | roblox_friend_bot.py:193-195 | With a usable token, a 200 on the post returns true after that single call. |
| RobloxProperties.AcceptRefreshesFalsyToken | roblox_friend_bot.py:175-187 | A falsy token is refreshed before the post, and the post goes out from the refreshed state, whatever the refresh found. |
| RobloxProperties.AcceptWithoutTokenStillPosts | roblox_friend_bot.py:175-187 | With no token and no header among the probe replies, the post still goes out, without a token: exactly one post after the four probe calls, and its reply decides the rest. |
| RobloxProperties.Accept403AdoptsHeader | roblox_friend_bot.py:196-203 | A 403 with a header stores that token, pauses 1 second and accepts again. |
| RobloxProperties.Accept403Refreshes | roblox_friend_bot.py:204-208 | A 403 without a header refreshes, pauses 1 second and accepts again. |
| RobloxProperties.AcceptOtherStatusTriesAlternativeOnce | roblox_friend_bot.py:209-214 | Any other status makes exactly one call to the alternate endpoint, and its 200 decides the result. |
| RobloxProperties.AcceptFailedIsFalse | roblox_friend_bot.py:215-217 | A raised post gives false after that one call. |
| RobloxProperties.AcceptCallsAlternativeAtMostOnce | roblox_friend_bot.py:172-217 | However often a 403 repeats the post, the alternate endpoint is called at most once. |
| RobloxProperties.ReplyCallsAlternativeAtMostOnce | roblox_friend_bot.py:193-217 | Whatever the reply to the post, what follows calls the alternate at most once. |
| RobloxProperties.RetryCallsAlternativeAtMostOnce | roblox_friend_bot.py:196-208 | The 403 retry path calls the alternate at most once. |
| RobloxProperties.AcceptEachAcceptsTruthyIds | roblox_friend_bot.py:283-296 | The loop over the records does exactly the accepts of their truthy `requesterUserId` values, in order. |
| RobloxProperties.TruthyIdsExact | roblox_friend_bot.py:283-287 | A value is accepted iff it is truthy and is some record's `requesterUserId`. |
| RobloxProperties.AcceptAllAppend | roblox_friend_bot.py:290-296 | A failed accept does not stop the ones after it. |
| RobloxProperties.IterationLoginFailure | roblox_friend_bot.py:257-269 | A failed identity check refreshes, bumps the counter (resetting it after a sleep of twice the interval at 5) and fetches nothing. The new state is the refreshed state plus that sleep, and the identity is unchanged. |
| RobloxProperties.IterationSuccess | roblox_friend_bot.py:271-300 | A successful identity check resets the counter, accepts the truthy ids of the fetched records once each in order, then sleeps the interval. |
| RobloxProperties.RunKeepsCounterBelowMax | roblox_friend_bot.py:251-269 | The counter is below 5 at every loop head, whatever the replies. |

## Left out

- HTTP, JSON and headers: the transport, JSON decoding, request headers, cookies and the `X-CSRF-TOKEN` session header are not modelled. A call is a scripted reply, and a body that does not decode to an object is `None`.
- Logging, `print` and debug dumps are left out; they have no effect on the state.
- Real time: a `time.sleep` is an event in the trace; no clock is modelled.
- Environment and entry points: reading `ROBLOSECURITY` is the `env` parameter of `Create`. `main.py`, `test_bot.py` and the `__main__` blocks are not part of this model.
- Header names: a token header is a present or absent value. HTTP's case-insensitive matching of `x-csrf-token` is not modelled.
- Railway.FriendRequests: a `data` element that is a string or a list is modelled as making the loop raise, so the fetch gives `[]`. In Python the `in` tests on such an element can pass without raising, and the element is then dropped while the other records are kept. A `data` value that is not a list is also modelled as `[]`.
- Roblox.FriendRequests: a `data` value that is an empty string or an empty dict is returned as `[]`. Python returns the value itself, and the polling loop treats it exactly like `[]`.
- Railway.Attempt: slicing a missing token (`self.csrf_token[:5]` at `railway_bot.py:253`) is modelled as the exception it raises: the attempt posts nothing and pauses 1 second. An empty-string token does not raise and is posted with.
- Railway.FriendRequests, Roblox.FriendRequests, Roblox.Accept: the unbounded self-recursion (repeated 401/403, repeated accept 403) is bounded by `fuel`. At fuel 0 the call gives the exception path's result (`[]` or false) and makes no call, which stands in for Python's `RecursionError` being caught by the caller's `except`.
- Railway.Iteration, Roblox.Iteration: the polling loop's `except` branch cannot be reached in the model, because every operation it calls catches its own exceptions. Its counter and sleep rule is stated separately by `Scheduler.Backoff` and `Scheduler.RaisedBeforeResetSleepPattern`, with outcome `Raised(false)` for an exception before the counter reset and `Raised(true)` for one after it.
- Railway.RobloxFriendBot.RunForever, Roblox.RobloxFriendBot.RunForever: `while True` is cut off after a given number of passes.
- Intervals and status codes: the check interval is a natural number, not a float. Status codes are integers, and no response text is modelled.
- Floating point: JSON numbers with a fractional part are not modelled; a JSON number is an integer.
