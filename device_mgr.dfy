/** The device manager: the pending device claims and their approval or
    rejection, the device's side of JSON-RPC calls, and the messages it
    publishes to devices. The broker is an outbox of publications; the JWT
    signer is a parameter. */
module DeviceMgr {
  import opened Wrappers
  import opened Values
  import opened Errors
  import opened Strconv
  import Topics
  import EngineCommon
  import DeviceErrors
  import DeviceDb
  import HttpUtils

  /** A byte that JSON counts as insignificant whitespace (section 2 of
      RFC 8259): space, tab, line feed, carriage return. */
  predicate IsJsonSpace(c: Byte) {
    c == 0x20 || c == 0x09 || c == 0x0A || c == 0x0D
  }

  /** The index of the first byte that is not JSON whitespace; `|raw|` when
      there is none. */
  function FirstSignificant(raw: seq<Byte>): (i: nat)
    ensures i <= |raw|
    ensures forall j | 0 <= j < i :: IsJsonSpace(raw[j])
    ensures i < |raw| ==> !IsJsonSpace(raw[i])
    decreases |raw|
  {
    if |raw| == 0 then 0
    else if IsJsonSpace(raw[0]) then 1 + FirstSignificant(raw[1..])
    else 0
  }

  /** `isBatch`: the first significant byte is `[`. Empty and all-blank
      input is no batch. */
  method IsBatch(raw: seq<Byte>) returns (batch: bool)
    ensures batch <==> FirstSignificant(raw) < |raw| && raw[FirstSignificant(raw)] == 0x5B
  {
    var k := 0;
    while k < |raw|
      invariant 0 <= k <= |raw|
      invariant forall j | 0 <= j < k :: IsJsonSpace(raw[j])
    {
      if !IsJsonSpace(raw[k]) {
        FirstSignificantAt(raw, k);
        return raw[k] == 0x5B;
      }
      k := k + 1;
    }
    FirstSignificantAt(raw, k);
    return false;
  }

  /** The first significant byte is the one every earlier byte is blank
      before. */
  lemma FirstSignificantAt(raw: seq<Byte>, k: nat)
    requires k <= |raw| && forall j | 0 <= j < k :: IsJsonSpace(raw[j])
    requires k < |raw| ==> !IsJsonSpace(raw[k])
    ensures FirstSignificant(raw) == k
  {
  }

  /** A decoded `RPCRequest`; only whether its `id` is set matters here. */
  datatype RpcMessage = RpcMessage(hasId: bool)

  /** What the JSON decoder makes of the raw message, in both readings:
      `single` is `json.Unmarshal`'s message and error; for a batch,
      `openError` is the error reading `[`, and `items` the results of the
      successive `Decode` calls while `More` holds. */
  datatype Decoding = Decoding(
    single: RpcMessage, singleError: Option<string>,
    openError: Option<string>, items: seq<Result<RpcMessage, string>>)

  /** The answer of the batch reading: the first failing element ends it
      with its error, the first element with an id ends it with true. */
  function BatchNeedsResponse(items: seq<Result<RpcMessage, string>>): (r: (bool, Option<string>))
    ensures r.0 ==> r.1.None?
    decreases |items|
  {
    if |items| == 0 then (false, None)
    else if items[0].Err? then (false, Some(items[0].error))
    else if items[0].value.hasId then (true, None)
    else BatchNeedsResponse(items[1..])
  }

  /** A well-formed batch needs a response exactly when one of its requests
      has an id: notifications have none (section 4.1 of JSON-RPC 2.0). */
  lemma {:induction false} WellFormedBatch(items: seq<Result<RpcMessage, string>>)
    requires forall i | 0 <= i < |items| :: items[i].Ok?
    ensures BatchNeedsResponse(items).1.None?
    ensures BatchNeedsResponse(items).0 <==> exists i | 0 <= i < |items| :: items[i].value.hasId
    decreases |items|
  {
    if |items| > 0 && !items[0].value.hasId {
      WellFormedBatch(items[1..]);
      if exists i | 0 <= i < |items| :: items[i].value.hasId {
        var i :| 0 <= i < |items| && items[i].value.hasId;
        assert items[1..][i - 1] == items[i];
      }
      if exists i | 0 <= i < |items[1..]| :: items[1..][i].value.hasId {
        var i :| 0 <= i < |items[1..]| && items[1..][i].value.hasId;
        assert items[i + 1] == items[1..][i];
      }
    }
  }

  /** `parseRPCRequest`. A single request reports whether it has an id
      together with the decoder's error, whatever that is. */
  method ParseRPCRequest(raw: seq<Byte>, dec: Decoding) returns (needResponse: bool, err: Option<string>)
    ensures var batch := FirstSignificant(raw) < |raw| && raw[FirstSignificant(raw)] == 0x5B;
            (!batch ==> needResponse == dec.single.hasId && err == dec.singleError) &&
            (batch && dec.openError.Some? ==> !needResponse && err == dec.openError) &&
            (batch && dec.openError.None? ==> (needResponse, err) == BatchNeedsResponse(dec.items))
  {
    var batch := IsBatch(raw);
    if !batch {
      return dec.single.hasId, dec.singleError;
    }
    if dec.openError.Some? {
      return false, dec.openError;
    }
    var k := 0;
    while k < |dec.items|
      invariant 0 <= k <= |dec.items|
      invariant BatchNeedsResponse(dec.items) == BatchNeedsResponse(dec.items[k..])
    {
      assert dec.items[k..][1..] == dec.items[k + 1..];
      match dec.items[k]
      case Err(e) =>
        return false, Some(e);
      case Ok(msg) =>
        if msg.hasId {
          return true, None;
        }
      k := k + 1;
    }
    return false, None;
  }

  /** The topic a device receives RPC request `n` on. */
  function RequestTopic(token: string, n: int): string {
    token + "/me/rpc/request/" + FormatInt(n)
  }

  /** The topic a device answers RPC request `n` on. */
  function ResponseTopic(token: string, n: int): string {
    token + "/me/rpc/response/" + FormatInt(n)
  }

  /** RPC topics are API response topics of the device's token, so each ACL
      revision lets exactly that device use them. */
  lemma RpcTopicsAreResponseTopics(token: string, n: int)
    ensures RequestTopic(token, n) == Topics.ApiResponseText(token, "rpc/request/" + FormatInt(n))
    ensures ResponseTopic(token, n) == Topics.ApiResponseText(token, "rpc/response/" + FormatInt(n))
  {
    var f := FormatInt(n);
    assert "/me/rpc/request/" == "/me/" + "rpc/request/";
    assert "/me/rpc/response/" == "/me/" + "rpc/response/";
    assert token + "/me/rpc/request/" + f == token + "/me/" + ("rpc/request/" + f);
    assert token + "/me/rpc/response/" + f == token + "/me/" + ("rpc/response/" + f);
  }

  /** Distinct request numbers give distinct request and response topics. */
  lemma RpcTopicsDistinct(token: string, m: int, n: int)
    requires m != n
    ensures RequestTopic(token, m) != RequestTopic(token, n)
    ensures ResponseTopic(token, m) != ResponseTopic(token, n)
  {
    NumberedDistinct(token + "/me/rpc/request/", m, n);
    NumberedDistinct(token + "/me/rpc/response/", m, n);
  }

  lemma NumberedDistinct(prefix: string, m: int, n: int)
    requires m != n
    ensures prefix + FormatInt(m) != prefix + FormatInt(n)
  {
    if prefix + FormatInt(m) == prefix + FormatInt(n) {
      assert (prefix + FormatInt(m))[|prefix|..] == FormatInt(m);
      assert (prefix + FormatInt(n))[|prefix|..] == FormatInt(n);
      FormatIntInjective(m, n);
    }
  }

  /** The topic a claim is answered on. */
  function ClaimTopic(claimId: string): string {
    "me/claim/" + claimId
  }

  /** The answer to a claim goes where the anonymous claimer, connected with
      the claim id as client id, may read it. */
  lemma ClaimAnswerReadable(claimId: string)
    requires DeviceErrors.ValidateDeviceId(claimId)
    ensures EngineCommon.AnonymousAcl(claimId, ClaimTopic(claimId), Topics.AclRead)
  {
    DeviceErrors.ValidIdIsLevel(claimId);
    EngineCommon.AnonymousAclMeaning(claimId, ClaimTopic(claimId), Topics.AclRead);
  }

  /** A message published to a device. */
  datatype Payload =
    | Raw(bytes: seq<Byte>)
    | TokenMsg(token: string)
    | ErrorMsg(err: Error)
    | RejectedMsg

  datatype Publication = Publication(topic: string, payload: Payload)

  /** How an RPC that passed its checks went on: published only, or
      published with the response awaited on a topic. */
  datatype RpcOutcome = Sent | Awaiting(responseTopic: string)

  /** The attributes an approval starts from: a pending claim with the
      approver's updates, where a nil update deletes the key. */
  function Merged(attributes: Record, updates: Record): (r: Record)
    ensures forall k | k in updates && updates[k] == Nil :: k !in r
    ensures forall k | k in updates && updates[k] != Nil :: k in r && r[k] == updates[k]
    ensures forall k | k !in updates :: (k in r <==> k in attributes) && (k in r ==> r[k] == attributes[k])
  {
    (attributes + WithoutNil(updates)) - NilKeys(updates)
  }

  /** The device id of an approval: the `id` attribute when present, the
      claim id otherwise. A non-string `id` makes the type assertion panic. */
  function ApprovedId(claimId: string, attributes: Record): (r: Result<string, Error>)
    ensures "id" !in attributes ==> r == Ok(claimId)
    ensures "id" in attributes && attributes["id"].Str? ==> r == Ok(attributes["id"].s)
    ensures "id" in attributes && !attributes["id"].Str? ==> r.Err? && r.error.Panic?
  {
    if "id" !in attributes then Ok(claimId)
    else match attributes["id"]
      case Str(s) => Ok(s)
      case _ => Err(Panic("interface conversion: interface {} is not string"))
  }

  class Manager {
    const db: DeviceDb.DeviceDb
    /** The pending claims, by claim id. */
    var claims: map<string, Record>
    const autoapprove: bool
    /** The RPC timeout; 0 or less means responses are not awaited. */
    const rpcTimeout: int
    /** The last RPC request number used. */
    var rpcRequestId: int
    /** The messages published through the broker, in order. */
    var sent: seq<Publication>
    /** `CreateToken`: signs a device id into an access token. */
    const sign: string -> Result<string, Error>

    /** Every stored token is the signature of its device id: tokens come
        from `CreateToken`, whose secret is read once when the manager is
        made. */
    predicate TokensSigned()
      reads this, db
    {
      forall id | id in db.docs :: sign(id) == Ok(DeviceDb.StoredToken(db.docs[id]))
    }

    predicate Valid()
      reads this, db
    {
      InInt64(rpcRequestId) && db.CacheCoherent() && TokensSigned()
    }

    constructor (db: DeviceDb.DeviceDb, autoapprove: bool, rpcTimeout: int, start: int, sign: string -> Result<string, Error>)
      requires db.CacheCoherent() && InInt64(start)
      requires forall id | id in db.docs :: sign(id) == Ok(DeviceDb.StoredToken(db.docs[id]))
      ensures Valid()
      ensures this.db == db && this.autoapprove == autoapprove && this.rpcTimeout == rpcTimeout && this.sign == sign
      ensures claims == map[] && rpcRequestId == start && sent == []
    {
      this.db := db;
      this.autoapprove := autoapprove;
      this.rpcTimeout := rpcTimeout;
      this.sign := sign;
      claims := map[];
      rpcRequestId := start;
      sent := [];
    }

    /** `RPC`: a request that does not parse is a bad request, the status
        error for 400 without the parse error as its cause; otherwise it
        gets the next request number, wrapping as an `int64`, and is
        published to the device. */
    method RPC(id: string, req: seq<Byte>, dec: Decoding) returns (outcome: Option<RpcOutcome>, err: Option<Error>)
      requires Valid()
      modifies this, db
      ensures Valid() && claims == old(claims) && db.docs == old(db.docs)
      ensures outcome.Some? <==> err.None?
      ensures var batch := FirstSignificant(req) < |req| && req[FirstSignificant(req)] == 0x5B;
              var parsed := if !batch then (dec.single.hasId, dec.singleError)
                            else if dec.openError.Some? then (false, dec.openError)
                            else BatchNeedsResponse(dec.items);
              (parsed.1.Some? ==> err == Some(HttpUtils.NewStatusError(StatusBadRequest)) && sent == old(sent) && rpcRequestId == old(rpcRequestId)) &&
              (parsed.1.None? && id !in old(db.cache) && id !in db.docs ==>
                err == Some(DeviceNotFound(id)) && sent == old(sent) && rpcRequestId == old(rpcRequestId)) &&
              (outcome.Some? ==>
                id in db.docs &&
                var token, n := DeviceDb.StoredToken(db.docs[id]), WrapInt64(old(rpcRequestId) + 1);
                rpcRequestId == n &&
                sent == old(sent) + [Publication(RequestTopic(token, n), Raw(req))] &&
                outcome.value == if !parsed.0 || rpcTimeout <= 0 then Sent else Awaiting(ResponseTopic(token, n)))
    {
      var needResponse, perr := ParseRPCRequest(req, dec);
      ghost var batch := FirstSignificant(req) < |req| && req[FirstSignificant(req)] == 0x5B;
      assert (needResponse, perr) == if !batch then (dec.single.hasId, dec.singleError)
                                     else if dec.openError.Some? then (false, dec.openError)
                                     else BatchNeedsResponse(dec.items);
      if perr.Some? {
        return None, Some(HttpUtils.NewStatusError(StatusBadRequest));
      }
      var token, terr := db.GetToken(id);
      if terr.Some? {
        return None, terr;
      }
      rpcRequestId := WrapInt64(rpcRequestId + 1);
      sent := sent + [Publication(RequestTopic(token, rpcRequestId), Raw(req))];
      if !needResponse || rpcTimeout <= 0 {
        return Some(Sent), None;
      }
      return Some(Awaiting(ResponseTopic(token, rpcRequestId))), None;
    }

    /** The token an approval of `attributes` for claim `claimId` answers:
        the signed device id, or "" when the id or the signature fails. */
    function ApprovalToken(claimId: string, attributes: Record): (token: string)
      ensures var id := ApprovedId(claimId, attributes - {"claim-id", "claim-time"});
              token != "" ==> id.Ok? && sign(id.value).Ok? && token == sign(id.value).value
    {
      var id := ApprovedId(claimId, attributes - {"claim-id", "claim-time"});
      if id.Ok? && sign(id.value).Ok? then sign(id.value).value else ""
    }

    /** What approving `attributes` for claim `claimId` does to the store and
        the claimer's topic. A failed id or signature changes nothing. An
        invalid device id is published as an error with the store unchanged.
        Otherwise the device is upserted with the signed token, the cache
        is left as it was and the token is published. */
    twostate predicate ApprovalOutcome(claimId: string, attributes: Record, new err: Option<Error>)
      reads this, db
    {
      var a := attributes - {"claim-id", "claim-time"};
      var id := ApprovedId(claimId, a);
      if id.Err? then
        err == Some(id.error) && sent == old(sent) && db.docs == old(db.docs) && db.cache == old(db.cache)
      else if sign(id.value).Err? then
        err == Some(sign(id.value).error) && sent == old(sent) && db.docs == old(db.docs) && db.cache == old(db.cache)
      else if !DeviceErrors.ValidateDeviceId(id.value) then
        err == Some(InvalidDeviceId(id.value)) && db.docs == old(db.docs) && db.cache == old(db.cache) &&
        sent == old(sent) + [Publication(ClaimTopic(claimId), ErrorMsg(InvalidDeviceId(id.value)))]
      else
        var token := sign(id.value).value;
        var previous := if id.value in old(db.docs) then Some(old(db.docs)[id.value]) else None;
        err.None? &&
        db.docs == old(db.docs)[id.value := DeviceDb.Upserted(previous, id.value, DeviceDb.UpsertFields(token, a))] &&
        DeviceDb.StoredToken(db.docs[id.value]) == token &&
        db.cache == old(db.cache) &&
        sent == old(sent) + [Publication(ClaimTopic(claimId), TokenMsg(token))]
    }

    /** `internalApprove`: drops the claim bookkeeping, signs a token for the
        device id, stores the device with it and answers the claimer with the
        token or the error. The token is returned even when storing fails.
        `Upsert` leaves the token cache alone; it stays coherent because a
        cached token is the signature of its id, which is the token stored. */
    method InternalApprove(claimId: string, attributes: Record) returns (token: string, err: Option<Error>)
      requires Valid()
      modifies this, db
      ensures Valid() && claims == old(claims) && rpcRequestId == old(rpcRequestId)
      ensures token == ApprovalToken(claimId, attributes)
      ensures ApprovalOutcome(claimId, attributes, err)
    {
      var a := attributes - {"claim-id", "claim-time"};
      var id := ApprovedId(claimId, a);
      if id.Err? {
        return "", Some(id.error);
      }
      var signed := sign(id.value);
      if signed.Err? {
        return "", Some(signed.error);
      }
      token := signed.value;
      err := db.Upsert(id.value, token, a);
      if err.None? {
        sent := sent + [Publication(ClaimTopic(claimId), TokenMsg(token))];
      } else {
        sent := sent + [Publication(ClaimTopic(claimId), ErrorMsg(err.value))];
      }
    }

    /** `Claim`: an invalid id or a claim already pending is refused; with
        autoapprove the claim is approved at once, otherwise it is stored
        with its id and time. `now` is the clock reading. */
    method Claim(claimId: string, attributes: Option<Record>, now: int) returns (err: Option<Error>)
      requires Valid()
      modifies this, db
      ensures Valid() && rpcRequestId == old(rpcRequestId)
      ensures !DeviceErrors.ValidateDeviceId(claimId) ==>
                err == Some(InvalidDeviceId(claimId)) && claims == old(claims) && sent == old(sent) && db.docs == old(db.docs)
      ensures DeviceErrors.ValidateDeviceId(claimId) && claimId in old(claims) ==>
                err == Some(DuplicateClaim(claimId)) && claims == old(claims) && sent == old(sent) && db.docs == old(db.docs)
      ensures DeviceErrors.ValidateDeviceId(claimId) && claimId !in old(claims) && !autoapprove ==>
                err.None? && sent == old(sent) && db.docs == old(db.docs) &&
                claims == old(claims)[claimId := ClaimRecord(claimId, attributes, now)]
      ensures DeviceErrors.ValidateDeviceId(claimId) && claimId !in old(claims) && autoapprove ==>
                claims == old(claims) && ApprovalOutcome(claimId, ClaimRecord(claimId, attributes, now), err)
    {
      if !DeviceErrors.ValidateDeviceId(claimId) {
        return Some(InvalidDeviceId(claimId));
      }
      var a := ClaimRecord(claimId, attributes, now);
      if claimId in claims {
        return Some(DuplicateClaim(claimId));
      }
      if autoapprove {
        var token;
        token, err := InternalApprove(claimId, a);
      } else {
        claims := claims[claimId := a];
        err := None;
      }
    }

    /** `GetClaims`: the pending claims, in no particular order. */
    method GetClaims() returns (result: seq<Record>, ghost ids: seq<string>)
      ensures |result| == |claims|
      ensures forall id | id in claims :: claims[id] in result
      ensures forall r | r in result :: r in claims.Values
      ensures |ids| == |result| && forall id :: id in ids <==> id in claims
      ensures forall i | 0 <= i < |ids| :: ids[i] in claims && result[i] == claims[ids[i]]
      ensures forall i, j | 0 <= i < j < |ids| :: ids[i] != ids[j]
    {
      result, ids := [], [];
      var rest := claims.Keys;
      while rest != {}
        invariant rest <= claims.Keys
        invariant |result| == |ids| && |result| + |rest| == |claims.Keys|
        invariant forall id :: id in ids <==> id in claims && id !in rest
        invariant forall i | 0 <= i < |ids| :: ids[i] in claims && result[i] == claims[ids[i]]
        invariant forall i, j | 0 <= i < j < |ids| :: ids[i] != ids[j]
        invariant forall id | id in claims && id !in rest :: claims[id] in result
        invariant forall r | r in result :: r in claims.Values
        decreases |rest|
      {
        var id :| id in rest;
        result, ids := result + [claims[id]], ids + [id];
        rest := rest - {id};
      }
    }

    /** `Approve`: takes the claim out of the pending set, applies the
        approver's updates and approves. */
    method Approve(claimId: string, updates: Record) returns (token: string, err: Option<Error>)
      requires Valid()
      modifies this, db
      ensures Valid() && rpcRequestId == old(rpcRequestId)
      ensures claimId !in old(claims) ==>
                token == "" && err == Some(ClaimNotFound(claimId)) && claims == old(claims) && sent == old(sent) && db.docs == old(db.docs)
      ensures claimId in old(claims) ==>
                var merged := Merged(old(claims)[claimId], updates);
                claims == old(claims) - {claimId} &&
                token == ApprovalToken(claimId, merged) && ApprovalOutcome(claimId, merged, err)
    {
      if claimId !in claims {
        return "", Some(ClaimNotFound(claimId));
      }
      var attributes := claims[claimId];
      claims := claims - {claimId};
      var merged := Merge(attributes, updates);
      token, err := InternalApprove(claimId, merged);
    }

    /** `Reject`: a pending claim is dropped and its claimer told so. */
    method Reject(claimId: string) returns (err: Option<Error>)
      modifies this
      ensures rpcRequestId == old(rpcRequestId)
      ensures claimId in old(claims) ==>
                err.None? && claims == old(claims) - {claimId} && sent == old(sent) + [Publication(ClaimTopic(claimId), RejectedMsg)]
      ensures claimId !in old(claims) ==>
                err == Some(ClaimNotFound(claimId)) && claims == old(claims) && sent == old(sent)
    {
      if claimId in claims {
        claims := claims - {claimId};
        sent := sent + [Publication(ClaimTopic(claimId), RejectedMsg)];
        return None;
      }
      return Some(ClaimNotFound(claimId));
    }
  }

  /** The record a claim stores: the claimer's attributes (none for a nil
      map) with the claim id and time. */
  function ClaimRecord(claimId: string, attributes: Option<Record>, now: int): (r: Record)
    ensures "claim-id" in r && r["claim-id"] == Str(claimId)
    ensures "claim-time" in r && r["claim-time"] == Time(now)
  {
    (if attributes.Some? then attributes.value else map[])["claim-id" := Str(claimId)]["claim-time" := Time(now)]
  }

  /** `Approve`'s loop over the updates: a nil value deletes the key, any
      other value overwrites it. */
  method Merge(attributes: Record, updates: Record) returns (r: Record)
    ensures r == Merged(attributes, updates)
  {
    r := attributes;
    var rest := updates.Keys;
    while rest != {}
      invariant rest <= updates.Keys
      invariant forall k | k in updates && k !in rest && updates[k] == Nil :: k !in r
      invariant forall k | k in updates && k !in rest && updates[k] != Nil :: k in r && r[k] == updates[k]
      invariant forall k | k !in updates || k in rest :: (k in r <==> k in attributes) && (k in r ==> r[k] == attributes[k])
      decreases |rest|
    {
      var k :| k in rest;
      if updates[k] == Nil {
        r := r - {k};
      } else {
        r := r[k := updates[k]];
      }
      rest := rest - {k};
    }
    MergedDetermined(attributes, updates, r);
  }

  /** The three properties of `Merged` determine the merged record. */
  lemma MergedDetermined(attributes: Record, updates: Record, r: Record)
    requires forall k | k in updates && updates[k] == Nil :: k !in r
    requires forall k | k in updates && updates[k] != Nil :: k in r && r[k] == updates[k]
    requires forall k | k !in updates :: (k in r <==> k in attributes) && (k in r ==> r[k] == attributes[k])
    ensures r == Merged(attributes, updates)
  {
    var m := Merged(attributes, updates);
    assert r.Keys == m.Keys;
  }

  /** Approving the claimer's own attributes, when it chose no `id`, makes a
      device whose id is the claim id. */
  lemma ClaimIdIsDefaultId(claimId: string, attributes: Option<Record>, now: int)
    requires attributes.Some? ==> "id" !in attributes.value
    ensures ApprovedId(claimId, ClaimRecord(claimId, attributes, now) - {"claim-id", "claim-time"}) == Ok(claimId)
  {
  }

  /** Updates overwrite and delete only the keys they name. */
  lemma MergedIdempotent(attributes: Record, updates: Record)
    ensures Merged(Merged(attributes, updates), updates) == Merged(attributes, updates)
  {
  }
}
