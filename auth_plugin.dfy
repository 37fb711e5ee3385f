/** The C shim between Mosquitto's auth plugin interface and the Go engine.
    It hides the differences between the interface versions, turns NULL
    strings into empty ones, refuses malformed ACL queries itself and maps
    the engine's boolean answers to Mosquitto status codes. Each call the
    shim makes into the engine is recorded, so that "the engine is not
    asked" is a statement about the record. */
module AuthPlugin {
  import opened Wrappers
  import opened Topics
  import EngineCommon
  import GoAuth

  /** The build: `MOSQ_AUTH_PLUGIN_VERSION`, if the header defines it. */
  datatype Build = Build(version: Option<int>)

  /** The macro's value in a `#if` test, where an undefined macro is 0.
      Tier 3 and above pass the client handle; tier 4 and above drop `const`. */
  function SignatureTier(b: Build): int {
    if b.version.Some? then b.version.value else 0
  }

  /** `mosquitto_auth_plugin_version`. */
  function PluginVersion(b: Build): (v: int)
    ensures v != 5
    ensures b.version.None? || b.version == Some(5) ==> v == 4
    ensures b.version.Some? && b.version != Some(5) ==> v == b.version.value
  {
    match b.version
    case None => 4
    case Some(n) => if n == 5 then 4 else n
  }

  /** Mosquitto status codes returned by the shim. */
  datatype Status = Success | ErrAuth | ErrAclDenied

  /** A C string argument, which may be NULL. Its characters end at its NUL. */
  datatype CStr = Null | Str(s: string)

  /** The string the shim hands over for an argument that may be NULL. */
  function OrEmpty(p: CStr): (s: string)
    ensures p.Str? ==> s == p.s
    ensures p.Null? ==> s == ""
  {
    match p
    case Null => ""
    case Str(s) => s
  }

  /** The broker's client handle, as read through `mosquitto_client_id` and
      `mosquitto_client_username`. */
  datatype Client = Client(id: CStr, username: CStr)

  /** One entry of the broker's `mosquitto_opt` array. */
  datatype MosqOpt = MosqOpt(key: string, value: string)

  /** A call from the shim into the engine. */
  datatype EngineCall =
    | InitCall(keys: seq<string>, values: seq<string>, count: int)
    | CleanupCall
    | UnpwdCall(username: string, password: string, clientid: string)
    | AclCall(clientid: string, username: string, topic: string, access: int)

  /** The engine's answers to the credential and ACL checks. */
  datatype Engine = Engine(unpwd: (string, string, string) -> bool, acl: (string, string, string, int) -> bool)

  /** What a shim entry point returns, with the engine calls it made. */
  datatype Reply = Reply(status: Status, calls: seq<EngineCall>)

  function OptKeys(opts: seq<MosqOpt>): (keys: seq<string>)
    ensures |keys| == |opts| && forall i | 0 <= i < |opts| :: keys[i] == opts[i].key
  {
    seq(|opts|, i requires 0 <= i < |opts| => opts[i].key)
  }

  function OptValues(opts: seq<MosqOpt>): (values: seq<string>)
    ensures |values| == |opts| && forall i | 0 <= i < |opts| :: values[i] == opts[i].value
  {
    seq(|opts|, i requires 0 <= i < |opts| => opts[i].value)
  }

  /** `mosquitto_auth_plugin_init`: copies the first `optCount` options, in
      order, into key and value arrays, passes them to the engine's
      initialisation and reports its answer. */
  method PluginInit(opts: array<MosqOpt>, optCount: int, engineInit: (seq<string>, seq<string>, int) -> bool)
    returns (r: Reply)
    requires 0 <= optCount <= opts.Length
    ensures var keys, values := OptKeys(opts[..optCount]), OptValues(opts[..optCount]);
            r.calls == [InitCall(keys, values, optCount)] &&
            r.status == if engineInit(keys, values, optCount) then Success else ErrAuth
  {
    var keys := new string[optCount];
    var values := new string[optCount];
    var i := 0;
    while i < optCount
      invariant 0 <= i <= optCount
      invariant keys[..i] == OptKeys(opts[..i])
      invariant values[..i] == OptValues(opts[..i])
    {
      keys[i] := opts[i].key;
      values[i] := opts[i].value;
      i := i + 1;
    }
    assert keys[..] == keys[..optCount];
    assert values[..] == values[..optCount];
    var ok := engineInit(keys[..], values[..], optCount);
    r := Reply(if ok then Success else ErrAuth, [InitCall(keys[..], values[..], optCount)]);
  }

  /** `mosquitto_auth_plugin_cleanup`: lets the engine clean up and succeeds. */
  function PluginCleanup(opts: seq<MosqOpt>): (r: Reply)
    ensures r.status == Success && r.calls == [CleanupCall]
  {
    Reply(Success, [CleanupCall])
  }

  /** `mosquitto_auth_security_init` and `_cleanup`: succeed without
      involving the engine. */
  function SecurityHook(opts: seq<MosqOpt>, reload: bool): (r: Reply)
    ensures r.status == Success && r.calls == []
  {
    Reply(Success, [])
  }

  /** The arguments of `mosquitto_auth_unpwd_check`, by signature tier. */
  datatype UnpwdArgs =
    | UnpwdWithClient(client: Client, username: CStr, password: CStr)
    | UnpwdLegacy(username: CStr, password: CStr)

  /** `mosquitto_auth_unpwd_check`. From tier 3 the client id comes from the
      client handle and is not checked for NULL, so the handle must have one;
      before tier 3 it is "". NULL username and password become "". */
  function UnpwdCheck(b: Build, engine: Engine, args: UnpwdArgs): (r: Reply)
    requires SignatureTier(b) >= 3 <==> args.UnpwdWithClient?
    requires args.UnpwdWithClient? ==> args.client.id.Str?
    ensures var clientid := if args.UnpwdWithClient? then args.client.id.s else "";
            var call := UnpwdCall(OrEmpty(args.username), OrEmpty(args.password), clientid);
            r.calls == [call] &&
            r.status == if engine.unpwd(call.username, call.password, call.clientid) then Success else ErrAuth
  {
    var clientid := if args.UnpwdWithClient? then args.client.id.s else "";
    var username := OrEmpty(args.username);
    var password := OrEmpty(args.password);
    Reply(if engine.unpwd(username, password, clientid) then Success else ErrAuth,
          [UnpwdCall(username, password, clientid)])
  }

  /** The parameter names of the credential check's signature for a tier. */
  function UnpwdParams(tier: int): seq<string> {
    if tier >= 3 then ["user_data", "client", "username", "password"]
    else ["user_data", "usernamae", "password"]
  }

  /** The names the credential check's body reads that are neither declared
      as parameters nor as the local `clientid`. */
  function UnpwdUnbound(tier: int): (names: set<string>)
    ensures forall n | n in names :: n !in UnpwdParams(tier)
  {
    UnboundIn(UnpwdParams(tier), tier)
  }

  /** The names the body of a tier reads that `params` does not declare. */
  function UnboundIn(params: seq<string>, tier: int): (names: set<string>)
    ensures forall n | n in names :: n !in params
  {
    var used := (if tier >= 3 then {"client"} else {}) + {"username", "password"};
    set n | n in used && n !in params
  }

  /** As written, the pre-tier-3 signature names its parameter `usernamae`
      while the body reads `username`, so that tier does not compile. */
  lemma LegacyUnpwdUnbound(tier: int)
    requires tier < 3
    ensures UnpwdUnbound(tier) == {"username"}
  {
    assert "username" !in UnpwdParams(tier);
    assert "password" in UnpwdParams(tier);
  }

  /** The pre-tier-3 signature as evidently intended, its parameter spelled
      `username`. */
  function IntendedLegacyParams(): seq<string> {
    ["user_data", "username", "password"]
  }

  /** With the intended spelling every name the pre-tier-3 body reads is
      bound; `UnpwdCheck`'s `UnpwdLegacy` branch models that tier. */
  lemma LegacyUnpwdBound(tier: int)
    requires tier < 3
    ensures UnboundIn(IntendedLegacyParams(), tier) == {}
  {
    assert IntendedLegacyParams()[1] == "username" && IntendedLegacyParams()[2] == "password";
  }

  /** From tier 3 every name the body reads is bound. */
  lemma ClientUnpwdBound(tier: int)
    requires tier >= 3
    ensures UnpwdUnbound(tier) == {}
  {
    assert UnpwdParams(tier)[1] == "client" && UnpwdParams(tier)[2] == "username" && UnpwdParams(tier)[3] == "password";
  }

  /** The arguments of `mosquitto_auth_acl_check`, by signature tier. */
  datatype AclArgs =
    | AclWithClient(access: int, client: Client, topic: CStr)
    | AclLegacy(clientid: CStr, username: CStr, topic: CStr, access: int)
  {
    function ClientId(): CStr {
      if AclWithClient? then client.id else clientid
    }
    function UserName(): CStr {
      if AclWithClient? then client.username else username
    }
  }

  /** `mosquitto_auth_acl_check`. A NULL topic or an access level below 1 is
      refused without asking the engine. Otherwise NULL client id and
      username become "" and topic and access are passed unchanged. */
  function AclCheck(b: Build, engine: Engine, args: AclArgs): (r: Reply)
    requires SignatureTier(b) >= 3 <==> args.AclWithClient?
    ensures args.topic.Null? || args.access < 1 ==> r == Reply(ErrAclDenied, [])
    ensures args.topic.Str? && args.access >= 1 ==>
              var call := AclCall(OrEmpty(args.ClientId()), OrEmpty(args.UserName()), args.topic.s, args.access);
              r.calls == [call] &&
              r.status == if engine.acl(call.clientid, call.username, call.topic, call.access) then Success else ErrAclDenied
  {
    if args.topic.Null? || args.access < 1 then Reply(ErrAclDenied, [])
    else
      var clientid := OrEmpty(args.ClientId());
      var username := OrEmpty(args.UserName());
      Reply(if engine.acl(clientid, username, args.topic.s, args.access) then Success else ErrAclDenied,
            [AclCall(clientid, username, args.topic.s, args.access)])
  }

  /** `mosquitto_auth_psk_key_get`: pre-shared keys are never provided. */
  function PskKeyGet(hint: CStr, identity: CStr, maxKeyLen: int): (r: Reply)
    ensures r.status == ErrAuth && r.calls == []
  {
    Reply(ErrAuth, [])
  }

  /** The engine the shim is linked with: the exported checks of the Go
      engine over the handles it opened. */
  function LinkedEngine(svc: EngineCommon.Services): Engine {
    Engine((u, p, c) => GoAuth.UnpwdCheck(svc, u, p, c), (c, u, t, a) => GoAuth.AclCheck(svc, c, u, t, a))
  }

  /** A client that connects without a username is let in, whatever its
      password, so that it can claim itself. */
  lemma AnonymousConnectAccepted(b: Build, svc: EngineCommon.Services, client: Client, password: CStr)
    requires SignatureTier(b) >= 3 && client.id.Str?
    ensures UnpwdCheck(b, LinkedEngine(svc), UnpwdWithClient(client, Null, password)).status == Success
  {
  }

  /** An anonymous client may read the answer to its own claim, and no other
      claim answer. */
  lemma AnonymousReadsOwnClaim(b: Build, svc: EngineCommon.Services, id: string, other: string)
    requires SignatureTier(b) >= 3 && IsLevel(id) && other != id
    ensures AclCheck(b, LinkedEngine(svc), AclWithClient(AclRead, Client(Str(id), Null), Str(ClaimResponseText(id)))).status == Success
    ensures AclCheck(b, LinkedEngine(svc), AclWithClient(AclRead, Client(Str(id), Null), Str(ClaimResponseText(other)))).status == ErrAclDenied
  {
    EngineCommon.AnonymousAclMeaning(id, ClaimResponseText(id), AclRead);
    EngineCommon.AnonymousAclMeaning(id, ClaimResponseText(other), AclRead);
    assert ClaimResponseText(other)[9..] == other;
  }
}
