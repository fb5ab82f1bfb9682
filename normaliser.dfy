/**
 * The pending-request normaliser of `railway_bot.py`: maps the heterogeneous
 * records of the pending-requests response to
 * `{requesterUserId, requesterUsername, originalData}` by ordered field-name
 * fallbacks under Python truthiness, and drops records without an id.
 */
module Normaliser {
  import opened Options
  import opened Json

  /** A normalised record; `originalData` is the input record itself. */
  datatype PendingRequest = PendingRequest(requesterUserId: Value, requesterUsername: Value, originalData: map<string, Value>)

  /** Flat field names tried for the requester id, in order. */
  const IdFields: seq<string> := ["requesterUserId", "userId", "id", "requesterId", "sourceUserId"]

  /** Flat field names tried for the requester name, in order. */
  const NameFields: seq<string> := ["requesterUsername", "username", "name", "displayName"]

  /** The name used when none resolves. */
  const Unknown: Value := VStr("Unknown")

  /**
   * The id loop: every present field overwrites the candidate, and the loop
   * stops at the first truthy one; `current` is the candidate so far.
   */
  function ScanFields(rec: map<string, Value>, fields: seq<string>, current: Value): Value
    decreases |fields|
  {
    if fields == [] then current
    else if fields[0] in rec then
      if Truthy(rec[fields[0]]) then rec[fields[0]] else ScanFields(rec, fields[1..], rec[fields[0]])
    else ScanFields(rec, fields[1..], current)
  }

  /** The name loop: the first present field with a truthy value, else `default`. */
  function FirstTruthyField(rec: map<string, Value>, fields: seq<string>, default: Value): Value
    decreases |fields|
  {
    if fields == [] then default
    else if fields[0] in rec && Truthy(rec[fields[0]]) then rec[fields[0]]
    else FirstTruthyField(rec, fields[1..], default)
  }

  /** The nested object consulted: `requester` if it is an object, else `user` if that is one. */
  function NestedObject(rec: map<string, Value>): Option<map<string, Value>>
  {
    if "requester" in rec && rec["requester"].VDict? then Some(rec["requester"].fields)
    else if "user" in rec && rec["user"].VDict? then Some(rec["user"].fields)
    else None
  }

  /** The id after the flat scan and the nested lookup (`id or userId`). */
  function FlatOrNestedId(rec: map<string, Value>): Value
  {
    var flat := ScanFields(rec, IdFields, VNone);
    if !Truthy(flat) && NestedObject(rec).Some? then
      var n := NestedObject(rec).value;
      Or(Get(n, "id"), Get(n, "userId"))
    else flat
  }

  /** The resolved id, including the re-read for records marked with `originSourceType`. */
  function ResolveId(rec: map<string, Value>): Value
  {
    var id := FlatOrNestedId(rec);
    if !Truthy(id) && "originSourceType" in rec then
      if "sourceUserId" in rec then rec["sourceUserId"]
      else if "userId" in rec then rec["userId"]
      else id
    else id
  }

  /**
   * The resolved name: the first truthy flat name; when that is (or equals)
   * `'Unknown'`, the nested object's `name or username or displayName or 'Unknown'`.
   */
  function ResolveName(rec: map<string, Value>): Value
  {
    var flat := FirstTruthyField(rec, NameFields, Unknown);
    if flat == Unknown && NestedObject(rec).Some? then
      var n := NestedObject(rec).value;
      Or(Or(Or(Get(n, "name"), Get(n, "username")), Get(n, "displayName")), Unknown)
    else flat
  }

  predicate Kept(rec: map<string, Value>)
  {
    Truthy(ResolveId(rec))
  }

  function Make(rec: map<string, Value>): PendingRequest
  {
    PendingRequest(ResolveId(rec), ResolveName(rec), rec)
  }

  /** What one input record contributes to the output. */
  function Emit(rec: map<string, Value>): seq<PendingRequest>
  {
    if Kept(rec) then [Make(rec)] else []
  }

  /** The normalised list, built in input order. */
  function Normalise(recs: seq<map<string, Value>>): seq<PendingRequest>
    decreases |recs|
  {
    if recs == [] then [] else Normalise(recs[..|recs| - 1]) + Emit(recs[|recs| - 1])
  }

  /** The number of records the normaliser drops. */
  function Dropped(recs: seq<map<string, Value>>): nat
    decreases |recs|
  {
    if recs == [] then 0 else Dropped(recs[..|recs| - 1]) + (if Kept(recs[|recs| - 1]) then 0 else 1)
  }

  // ------------------------------------------------------------------ lemmas

  /** The id scan yields the value of the first present field that is truthy. */
  lemma {:induction false} ScanFieldsFirstTruthy(rec: map<string, Value>, fields: seq<string>, current: Value, k: nat)
    requires k < |fields| && fields[k] in rec && Truthy(rec[fields[k]])
    requires forall j :: 0 <= j < k && fields[j] in rec ==> !Truthy(rec[fields[j]])
    ensures ScanFields(rec, fields, current) == rec[fields[k]]
    decreases k
  {
    if k > 0 {
      var next := if fields[0] in rec then rec[fields[0]] else current;
      ScanFieldsFirstTruthy(rec, fields[1..], next, k - 1);
    }
  }

  /** The id scan yields a falsy value when no present field is truthy. */
  lemma {:induction false} ScanFieldsNoneTruthy(rec: map<string, Value>, fields: seq<string>, current: Value)
    requires !Truthy(current)
    requires forall j :: 0 <= j < |fields| && fields[j] in rec ==> !Truthy(rec[fields[j]])
    ensures !Truthy(ScanFields(rec, fields, current))
    decreases |fields|
  {
    if fields != [] {
      var next := if fields[0] in rec then rec[fields[0]] else current;
      ScanFieldsNoneTruthy(rec, fields[1..], next);
    }
  }

  /** The id scan is truthy exactly when some present field is truthy. */
  lemma ScanFieldsTruthyIff(rec: map<string, Value>, fields: seq<string>)
    ensures Truthy(ScanFields(rec, fields, VNone)) <==>
      exists j :: 0 <= j < |fields| && fields[j] in rec && Truthy(rec[fields[j]])
  {
    if j :| 0 <= j < |fields| && fields[j] in rec && Truthy(rec[fields[j]]) {
      var k := LeastTruthyField(rec, fields, j);
      ScanFieldsFirstTruthy(rec, fields, VNone, k);
    } else {
      ScanFieldsNoneTruthy(rec, fields, VNone);
    }
  }

  lemma {:induction false} LeastTruthyField(rec: map<string, Value>, fields: seq<string>, j: nat) returns (k: nat)
    requires j < |fields| && fields[j] in rec && Truthy(rec[fields[j]])
    ensures k <= j && fields[k] in rec && Truthy(rec[fields[k]])
    ensures forall i :: 0 <= i < k && fields[i] in rec ==> !Truthy(rec[fields[i]])
    decreases j
  {
    if i :| 0 <= i < j && fields[i] in rec && Truthy(rec[fields[i]]) {
      k := LeastTruthyField(rec, fields, i);
    } else {
      k := j;
    }
  }

  /** The name scan yields the first present truthy field, or the default. */
  lemma {:induction false} FirstTruthyFieldSpec(rec: map<string, Value>, fields: seq<string>, default: Value)
    ensures var v := FirstTruthyField(rec, fields, default);
      || (v == default && forall j :: 0 <= j < |fields| && fields[j] in rec ==> !Truthy(rec[fields[j]]))
      || exists k :: 0 <= k < |fields| && fields[k] in rec && Truthy(rec[fields[k]]) && v == rec[fields[k]] &&
           forall j :: 0 <= j < k && fields[j] in rec ==> !Truthy(rec[fields[j]])
    decreases |fields|
  {
    if fields != [] {
      FirstTruthyFieldSpec(rec, fields[1..], default);
      var v := FirstTruthyField(rec, fields, default);
      if !(fields[0] in rec && Truthy(rec[fields[0]])) {
        if k :| 0 <= k < |fields[1..]| && fields[1..][k] in rec && Truthy(rec[fields[1..][k]]) && v == rec[fields[1..][k]] &&
               forall j :: 0 <= j < k && fields[1..][j] in rec ==> !Truthy(rec[fields[1..][j]]) {
          assert fields[k + 1] == fields[1..][k];
          forall j | 0 <= j < k + 1 && fields[j] in rec
            ensures !Truthy(rec[fields[j]])
          {
            if j > 0 { assert fields[j] == fields[1..][j - 1]; }
          }
        } else {
          forall j | 0 <= j < |fields| && fields[j] in rec
            ensures !Truthy(rec[fields[j]])
          {
            if j > 0 { assert fields[j] == fields[1..][j - 1]; }
          }
        }
      }
    }
  }

  /**
   * Id resolution order: a truthy flat field wins (first in `IdFields`);
   * otherwise the nested object's `id`, then its `userId`; the resolved id
   * is truthy exactly when one of these is.
   */
  lemma ResolveIdTruthyIff(rec: map<string, Value>)
    ensures Kept(rec) <==>
      || (exists j :: 0 <= j < |IdFields| && IdFields[j] in rec && Truthy(rec[IdFields[j]]))
      || (NestedObject(rec).Some? &&
          (Truthy(Get(NestedObject(rec).value, "id")) || Truthy(Get(NestedObject(rec).value, "userId"))))
  {
    ScanFieldsTruthyIff(rec, IdFields);
    OriginSourceTypeNeverRescues(rec);
  }

  /** When some flat id field is truthy, the first such one is the id. */
  lemma ResolveIdFlatFirst(rec: map<string, Value>, k: nat)
    requires k < |IdFields| && IdFields[k] in rec && Truthy(rec[IdFields[k]])
    requires forall j :: 0 <= j < k && IdFields[j] in rec ==> !Truthy(rec[IdFields[j]])
    ensures ResolveId(rec) == rec[IdFields[k]]
  {
    ScanFieldsFirstTruthy(rec, IdFields, VNone, k);
  }

  /**
   * The `originSourceType` fallback never turns a dropped record into a kept
   * one: it re-reads `sourceUserId`/`userId`, which the flat scan already
   * found absent or falsy.
   */
  lemma OriginSourceTypeNeverRescues(rec: map<string, Value>)
    ensures Truthy(ResolveId(rec)) <==> Truthy(FlatOrNestedId(rec))
  {
    var flat := ScanFields(rec, IdFields, VNone);
    if !Truthy(FlatOrNestedId(rec)) && "originSourceType" in rec {
      assert !Truthy(flat);
      ScanFieldsTruthyIff(rec, IdFields);
      assert IdFields[4] == "sourceUserId" && IdFields[1] == "userId";
    }
  }

  /**
   * The nested id fallback: with no truthy flat id field, the id comes from
   * the nested object `key` — `requester` when it is an object, `user` only
   * when `requester` is missing or not an object — as its `id` when truthy,
   * else its `userId`; the `originSourceType` re-read matters only when both
   * are falsy, and then the id stays falsy.
   */
  lemma ResolveIdNested(rec: map<string, Value>, key: string, n: map<string, Value>)
    requires key == "requester" || key == "user"
    requires key in rec && rec[key] == VDict(n)
    requires key == "user" ==> !("requester" in rec && rec["requester"].VDict?)
    requires forall j :: 0 <= j < |IdFields| && IdFields[j] in rec ==> !Truthy(rec[IdFields[j]])
    ensures Truthy(Get(n, "id")) ==> ResolveId(rec) == n["id"]
    ensures !Truthy(Get(n, "id")) && (Truthy(Get(n, "userId")) || "originSourceType" !in rec) ==>
      ResolveId(rec) == Get(n, "userId")
    ensures !Truthy(Get(n, "id")) && !Truthy(Get(n, "userId")) ==> !Truthy(ResolveId(rec))
  {
    ScanFieldsNoneTruthy(rec, IdFields, VNone);
    OriginSourceTypeNeverRescues(rec);
  }

  /**
   * The nested name fallback: when the flat scan ends on `'Unknown'` (no
   * truthy flat name before index `k`, and `k` is past the end or holds the
   * string `'Unknown'`), the name is the first truthy of the nested object's
   * `name`, `username` and `displayName`, else `'Unknown'`.
   */
  lemma ResolveNameNested(rec: map<string, Value>, key: string, n: map<string, Value>, k: nat)
    requires key == "requester" || key == "user"
    requires key in rec && rec[key] == VDict(n)
    requires key == "user" ==> !("requester" in rec && rec["requester"].VDict?)
    requires k <= |NameFields|
    requires forall j :: 0 <= j < k && NameFields[j] in rec ==> !Truthy(rec[NameFields[j]])
    requires k < |NameFields| ==> NameFields[k] in rec && rec[NameFields[k]] == Unknown
    ensures ResolveName(rec) == FirstTruthyField(n, ["name", "username", "displayName"], Unknown)
  {
    assert FirstTruthyField(rec, NameFields, Unknown) == Unknown by {
      FirstTruthyFieldSpec(rec, NameFields, Unknown);
    }
    var names := ["name", "username", "displayName"];
    assert names[1..] == ["username", "displayName"] && names[1..][1..] == ["displayName"] && names[1..][1..][1..] == [];
  }

  /** The resolved name is never falsy: `'Unknown'` is the last resort. */
  lemma ResolveNameTruthy(rec: map<string, Value>)
    ensures Truthy(ResolveName(rec))
  {
    FirstTruthyFieldSpec(rec, NameFields, Unknown);
  }

  /** With no truthy flat name and no nested object, the name is `'Unknown'`. */
  lemma ResolveNameDefault(rec: map<string, Value>)
    requires forall j :: 0 <= j < |NameFields| && NameFields[j] in rec ==> !Truthy(rec[NameFields[j]])
    requires NestedObject(rec).None?
    ensures ResolveName(rec) == Unknown
  {
    FirstTruthyFieldSpec(rec, NameFields, Unknown);
  }

  /** The first truthy flat name is the name, unless it is the string `'Unknown'` itself. */
  lemma ResolveNameFlatFirst(rec: map<string, Value>, k: nat)
    requires k < |NameFields| && NameFields[k] in rec && Truthy(rec[NameFields[k]])
    requires rec[NameFields[k]] != Unknown
    requires forall j :: 0 <= j < k && NameFields[j] in rec ==> !Truthy(rec[NameFields[j]])
    ensures ResolveName(rec) == rec[NameFields[k]]
  {
    FirstTruthyFieldSpec(rec, NameFields, Unknown);
  }

  /** A record holding only a nested `requester.id` keeps that id and the name `'Unknown'`. */
  lemma NestedRequesterIdOnly(id: Value)
    requires Truthy(id)
    ensures var rec := map["requester" := VDict(map["id" := id])];
      Normalise([rec]) == [PendingRequest(id, Unknown, rec)]
  {
    var rec := map["requester" := VDict(map["id" := id])];
    ScanFieldsNoneTruthy(rec, IdFields, VNone);
    FirstTruthyFieldSpec(rec, NameFields, Unknown);
    assert [rec][..0] == [];
  }

  lemma {:induction false} NormaliseAppend(a: seq<map<string, Value>>, b: seq<map<string, Value>>)
    ensures Normalise(a + b) == Normalise(a) + Normalise(b)
    decreases |b|
  {
    if b == [] {
      assert a + b == a;
    } else {
      var b' := b[..|b| - 1];
      assert (a + b)[..|a + b| - 1] == a + b';
      assert (a + b)[|a + b| - 1] == b[|b| - 1];
      NormaliseAppend(a, b');
    }
  }

  /**
   * Each dropped record shortens the output by exactly one, so the output is
   * never longer than the input.
   */
  lemma {:induction false} NormaliseCount(recs: seq<map<string, Value>>)
    ensures |Normalise(recs)| + Dropped(recs) == |recs|
    ensures |Normalise(recs)| <= |recs|
    decreases |recs|
  {
    if recs != [] {
      NormaliseCount(recs[..|recs| - 1]);
    }
  }

  /**
   * Every output record has a truthy id, stems from an input record, and is
   * that record normalised.
   */
  lemma {:induction false} NormaliseSound(recs: seq<map<string, Value>>)
    ensures forall p :: p in Normalise(recs) ==>
      Truthy(p.requesterUserId) && p.originalData in recs && p == Make(p.originalData)
    decreases |recs|
  {
    if recs != [] {
      var init := recs[..|recs| - 1];
      NormaliseSound(init);
      forall p | p in Normalise(recs)
        ensures Truthy(p.requesterUserId) && p.originalData in recs && p == Make(p.originalData)
      {
        if p in Normalise(init) {
          assert p.originalData in init;
        }
      }
    }
  }

  /** Every input record with a truthy resolved id appears, normalised, in the output. */
  lemma {:induction false} NormaliseComplete(recs: seq<map<string, Value>>)
    ensures forall r :: r in recs && Kept(r) ==> Make(r) in Normalise(recs)
    decreases |recs|
  {
    if recs != [] {
      var init := recs[..|recs| - 1];
      NormaliseComplete(init);
      forall r | r in recs && Kept(r)
        ensures Make(r) in Normalise(recs)
      {
        if r != recs[|recs| - 1] {
          assert r in init;
        }
      }
    }
  }

  // ----------------------------------------------------------------- methods

  /** The id loop over `IdFields`. */
  method ScanIdFields(request: map<string, Value>) returns (requesterId: Value)
    ensures requesterId == ScanFields(request, IdFields, VNone)
  {
    requesterId := VNone;
    var i := 0;
    while i < |IdFields|
      invariant 0 <= i <= |IdFields|
      invariant ScanFields(request, IdFields[i..], requesterId) == ScanFields(request, IdFields, VNone)
    {
      var field := IdFields[i];
      if field in request {
        requesterId := request[field];
        if Truthy(requesterId) {
          break;
        }
      }
      i := i + 1;
    }
  }

  /** The name loop over `NameFields`. */
  method ScanNameFields(request: map<string, Value>) returns (requesterName: Value)
    ensures requesterName == FirstTruthyField(request, NameFields, Unknown)
  {
    requesterName := Unknown;
    var i := 0;
    while i < |NameFields|
      invariant 0 <= i <= |NameFields|
      invariant requesterName == Unknown
      invariant FirstTruthyField(request, NameFields[i..], Unknown) == FirstTruthyField(request, NameFields, Unknown)
    {
      var field := NameFields[i];
      if field in request {
        var name := request[field];
        if Truthy(name) {
          requesterName := name;
          break;
        }
      }
      i := i + 1;
    }
  }

  /** The normaliser loop: one output record per input record whose id resolves, in order. */
  method ProcessRequests(requests: seq<map<string, Value>>) returns (processed: seq<PendingRequest>)
    ensures processed == Normalise(requests)
    ensures |processed| <= |requests|
    ensures forall p :: p in processed ==> Truthy(p.requesterUserId) && p.originalData in requests
  {
    processed := [];
    var i := 0;
    while i < |requests|
      invariant 0 <= i <= |requests|
      invariant processed == Normalise(requests[..i])
    {
      var request := requests[i];
      var requesterId := ScanIdFields(request);
      if !Truthy(requesterId) {
        if "requester" in request && request["requester"].VDict? {
          requesterId := Or(Get(request["requester"].fields, "id"), Get(request["requester"].fields, "userId"));
        } else if "user" in request && request["user"].VDict? {
          requesterId := Or(Get(request["user"].fields, "id"), Get(request["user"].fields, "userId"));
        }
      }
      var requesterName := ScanNameFields(request);
      if requesterName == Unknown {
        if "requester" in request && request["requester"].VDict? {
          var n := request["requester"].fields;
          requesterName := Or(Or(Or(Get(n, "name"), Get(n, "username")), Get(n, "displayName")), Unknown);
        } else if "user" in request && request["user"].VDict? {
          var n := request["user"].fields;
          requesterName := Or(Or(Or(Get(n, "name"), Get(n, "username")), Get(n, "displayName")), Unknown);
        }
      }
      if !Truthy(requesterId) && "originSourceType" in request {
        if "sourceUserId" in request {
          requesterId := request["sourceUserId"];
        } else if "userId" in request {
          requesterId := request["userId"];
        }
      }
      assert requesterId == ResolveId(request) && requesterName == ResolveName(request);
      if Truthy(requesterId) {
        processed := processed + [PendingRequest(requesterId, requesterName, request)];
      }
      assert requests[..i + 1][..i] == requests[..i];
      i := i + 1;
    }
    assert requests[..|requests|] == requests;
    NormaliseCount(requests);
    NormaliseSound(requests);
  }
}
