/** The older revision of the Go engine, the one the C shim of the plugin
    links against: the super user's password is the base64 encoding of the
    authenticator's secret, and a device may only use API topics that carry
    its own token. */
module GoAuth {
  import opened Wrappers
  import opened Topics
  import opened EngineCommon
  import Base64
  import MosquittoPlugin

  /** The outcome of each initialisation step; `None` or `false` is a step
      that fails. */
  datatype InitEnv = InitEnv(configOk: bool, users: Option<Users>, authz: Option<Authz>, devices: Option<Devices>)

  /** The package globals `users`, `authz` and `devices`. */
  class Globals {
    var users: Option<Users>
    var authz: Option<Authz>
    var devices: Option<Devices>
    /** The handles closed so far, in order. */
    var closeLog: seq<Closed>

    constructor ()
      ensures users.None? && authz.None? && devices.None? && closeLog == []
    {
      users, authz, devices, closeLog := None, None, None, [];
    }

    predicate Ready()
      reads this
    {
      users.Some? && authz.Some? && devices.Some?
    }

    function Services(): Services
      reads this
      requires Ready()
    {
      EngineCommon.Services(users.value, authz.value, devices.value)
    }

    /** `AuthPluginInit`: configuration, user database, authenticator and
        device manager, in this order. A failing step stores nil in its
        global, leaves the later globals as they were and makes the result
        false. The broker's options are not used. */
    method Init(keys: seq<string>, values: seq<string>, optCount: int, env: InitEnv) returns (ok: bool)
      modifies this
      ensures ok <==> env.configOk && env.users.Some? && env.authz.Some? && env.devices.Some?
      ensures ok ==> Ready() && Services() == EngineCommon.Services(env.users.value, env.authz.value, env.devices.value)
      ensures users == if env.configOk then env.users else old(users)
      ensures authz == if env.configOk && env.users.Some? then env.authz else old(authz)
      ensures devices == if env.configOk && env.users.Some? && env.authz.Some? then env.devices else old(devices)
      ensures closeLog == old(closeLog)
    {
      if !env.configOk {
        return false;
      }
      users := env.users;
      if users.None? {
        return false;
      }
      authz := env.authz;
      if authz.None? {
        return false;
      }
      devices := env.devices;
      if devices.None? {
        return false;
      }
      return true;
    }

    /** `AuthPluginCleanup`: closes the user database and the device manager
        that are open. The globals keep their values. */
    method Cleanup()
      modifies this
      ensures closeLog == old(closeLog) + (if users.Some? then [UsersClosed] else []) + (if devices.Some? then [DevicesClosed] else [])
      ensures users == old(users) && authz == old(authz) && devices == old(devices)
    {
      if users.Some? {
        closeLog := closeLog + [UsersClosed];
      }
      if devices.Some? {
        closeLog := closeLog + [DevicesClosed];
      }
    }
  }

  /** `AuthUnpwdCheck`. The client id takes no part in the decision. */
  function UnpwdCheck(svc: Services, username: string, password: string, clientid: string): (ok: bool)
    ensures username == SuperUser ==> (ok <==> password == Base64.Encode(svc.authz.secret))
    ensures username != SuperUser && username == "" ==> ok
    ensures username != SuperUser && username != "" && password != "" ==>
              (ok <==> svc.users.authenticate(username, password))
    ensures username != SuperUser && username != "" && password == "" ==>
              (ok <==> svc.authz.verifyToken(username) || svc.IsDevice(username))
  {
    if username == SuperUser then password == Base64.Encode(svc.authz.secret)
    else if username == "" then true
    else if password != "" then svc.users.authenticate(username, password)
    else if svc.authz.verifyToken(username) then true
    else svc.IsDevice(username)
  }

  /** `AuthAclCheck`. */
  function AclCheck(svc: Services, clientid: string, username: string, topic: string, acc: int): (ok: bool)
    ensures username == SuperUser ==> ok
    ensures username == "" ==> (ok <==> AnonymousAcl(clientid, topic, acc))
    ensures username != SuperUser && username != "" && !svc.IsDevice(username) ==> ok
    ensures username != SuperUser && username != "" && svc.IsDevice(username) ==>
              (ApiRequestToken(topic).None? && ApiResponseToken(topic).None? ==> ok)
  {
    if username == SuperUser then true
    else if username == "" then AnonymousAcl(clientid, topic, acc)
    else if svc.IsDevice(username) then
      match ApiRequestToken(topic)
      case Some(tok) => acc == AclWrite && tok == username
      case None =>
        match ApiResponseToken(topic)
        case Some(tok) => tok == username
        case None => true
    else true
  }

  /** The super user's password decodes to the authenticator's secret. */
  lemma SuperUserPasswordIsSecret(svc: Services, password: string, clientid: string)
    requires UnpwdCheck(svc, SuperUser, password, clientid)
    ensures Base64.Decode(password) == Some(svc.authz.secret)
  {
    Base64.DecodeEncode(svc.authz.secret);
  }

  /** A device may write on `api/<version>/<tok>/...` only for its own
      token, and never read or subscribe there. */
  lemma DeviceOwnApiRequests(svc: Services, clientid: string, device: string, v: string, tok: string, rest: string, acc: int)
    requires device != SuperUser && device != "" && svc.IsDevice(device)
    requires IsVersion(v) && IsLevel(tok) && IsLine(rest)
    ensures AclCheck(svc, clientid, device, ApiRequestText(v, tok, rest), acc) <==> acc == AclWrite && tok == device
  {
    ApiRequestComplete(v, tok, rest);
  }

  /** A device may use `<tok>/me/...` only for its own token. */
  lemma DeviceOwnApiResponses(svc: Services, clientid: string, device: string, tok: string, rest: string, acc: int)
    requires device != SuperUser && device != "" && svc.IsDevice(device)
    requires IsLevel(tok) && IsLine(rest)
    ensures AclCheck(svc, clientid, device, ApiResponseText(tok, rest), acc) <==> tok == device
  {
    MosquittoPlugin.ResponseTextIsNoRequest(tok, rest);
    ApiResponseComplete(tok, rest);
  }

  /** Apart from the super user, both revisions decide credentials alike. */
  lemma UnpwdAgrees(svc: Services, superUserPw: string, username: string, password: string, clientid: string)
    requires username != SuperUser
    ensures UnpwdCheck(svc, username, password, clientid) ==
            MosquittoPlugin.UnpwdCheck(svc, superUserPw, username, password, clientid)
  {
  }

  /** On API request and response topics this revision is the stricter one:
      what it allows, the current revision allows too. */
  lemma ApiTopicsStricter(svc: Services, clientid: string, username: string, topic: string, acc: int)
    requires ApiRequestToken(topic).Some? || ApiResponseToken(topic).Some?
    requires AclCheck(svc, clientid, username, topic, acc)
    ensures MosquittoPlugin.AclCheck(svc, clientid, username, topic, acc)
  {
  }

  /** The revisions differ in both directions for devices: only the current
      one lets a device write requests on behalf of another device, and only
      this one lets a device subscribe to `#`. */
  lemma RevisionsDiffer(svc: Services, clientid: string, device: string, other: string)
    requires device != SuperUser && device != "" && svc.IsDevice(device)
    requires svc.IsDevice(other) && IsLevel(other) && other != device
    ensures var topic := ApiRequestText("v1", other, "me/attributes");
            MosquittoPlugin.AclCheck(svc, clientid, device, topic, AclWrite) &&
            !AclCheck(svc, clientid, device, topic, AclWrite)
    ensures !MosquittoPlugin.AclCheck(svc, clientid, device, "#", AclSubscribe) &&
            AclCheck(svc, clientid, device, "#", AclSubscribe)
  {
    assert IsVersion("v1");
    ApiRequestComplete("v1", other, "me/attributes");
    Strings.SplitNoSep("#", '/');
  }
}
