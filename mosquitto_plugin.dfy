/** The current revision of the Go engine behind the Mosquitto auth plugin:
    initialisation of its package globals, the credential check and the
    topic ACL check. */
module MosquittoPlugin {
  import opened Wrappers
  import opened Strings
  import opened Topics
  import opened EngineCommon

  /** The outcome of each initialisation step; `None` or `false` is a step
      that fails. */
  datatype InitEnv = InitEnv(
    configOk: bool,
    users: Option<Users>,
    mqttPassword: Option<string>,
    authz: Option<Authz>,
    devices: Option<Devices>)

  /** The package globals `users`, `authz`, `devices` and `superUserPw`. */
  class Globals {
    var users: Option<Users>
    var authz: Option<Authz>
    var devices: Option<Devices>
    var superUserPw: string
    /** The handles closed so far, in order. */
    var closeLog: seq<Closed>

    constructor ()
      ensures users.None? && authz.None? && devices.None? && superUserPw == "" && closeLog == []
    {
      users, authz, devices, superUserPw, closeLog := None, None, None, "", [];
    }

    predicate Ready()
      reads this
    {
      users.Some? && authz.Some? && devices.Some?
    }

    function Services(): Services
      reads this
      requires Ready()
    {
      EngineCommon.Services(users.value, authz.value, devices.value)
    }

    /** `AuthPluginInit`: configuration, user database, the "mqtt" password
        of the super user, authenticator and device manager, in this order.
        A failing step stores nil in its global, leaves the later globals as
        they were and makes the result false. The broker's options are not
        used. */
    method Init(keys: seq<string>, values: seq<string>, optCount: int, env: InitEnv) returns (ok: bool)
      modifies this
      ensures ok <==> env.configOk && env.users.Some? && env.mqttPassword.Some? && env.authz.Some? && env.devices.Some?
      ensures ok ==> Ready() && Services() == EngineCommon.Services(env.users.value, env.authz.value, env.devices.value)
      ensures ok ==> superUserPw == env.mqttPassword.value
      ensures users == if env.configOk then env.users else old(users)
      ensures superUserPw == if env.configOk && env.users.Some? && env.mqttPassword.Some? then env.mqttPassword.value else old(superUserPw)
      ensures authz == if env.configOk && env.users.Some? && env.mqttPassword.Some? then env.authz else old(authz)
      ensures devices == if env.configOk && env.users.Some? && env.mqttPassword.Some? && env.authz.Some? then env.devices else old(devices)
      ensures closeLog == old(closeLog)
    {
      if !env.configOk {
        return false;
      }
      users := env.users;
      if users.None? {
        return false;
      }
      if env.mqttPassword.None? {
        return false;
      }
      superUserPw := env.mqttPassword.value;
      authz := env.authz;
      if authz.None? {
        return false;
      }
      devices := env.devices;
      if devices.None? {
        return false;
      }
      return true;
    }

    /** `AuthPluginCleanup`: closes the user database and the device manager
        that are open. The globals keep their values. */
    method Cleanup()
      modifies this
      ensures closeLog == old(closeLog) + (if users.Some? then [UsersClosed] else []) + (if devices.Some? then [DevicesClosed] else [])
      ensures users == old(users) && authz == old(authz) && devices == old(devices) && superUserPw == old(superUserPw)
    {
      if users.Some? {
        closeLog := closeLog + [UsersClosed];
      }
      if devices.Some? {
        closeLog := closeLog + [DevicesClosed];
      }
    }
  }

  /** `AuthUnpwdCheck`. The client id takes no part in the decision. */
  function UnpwdCheck(svc: Services, superUserPw: string, username: string, password: string, clientid: string): (ok: bool)
    ensures username == SuperUser ==> (ok <==> password == superUserPw)
    ensures username != SuperUser && username == "" ==> ok
    ensures username != SuperUser && username != "" && password != "" ==>
              (ok <==> svc.users.authenticate(username, password))
    ensures username != SuperUser && username != "" && password == "" ==>
              (ok <==> svc.authz.verifyToken(username) || svc.IsDevice(username))
  {
    if username == SuperUser then password == superUserPw
    else if username == "" then true
    else if password != "" then svc.users.authenticate(username, password)
    else if svc.authz.verifyToken(username) then true
    else svc.IsDevice(username)
  }

  /** A subscription filter that would cover API request topics: `#`, or one
      starting with `api/` or `+/`. */
  predicate CoversApiTopics(topic: string) {
    topic == "#" || HasPrefix(topic, "api/") || HasPrefix(topic, "+/")
  }

  /** The rule for a client authenticated with a device token. */
  function DeviceAcl(svc: Services, username: string, topic: string, acc: int): (ok: bool)
    ensures ApiRequestToken(topic).Some? ==> (ok ==> acc == AclWrite)
    ensures ApiRequestToken(topic).None? && ApiResponseToken(topic).None? ==>
              (ok <==> !(acc == AclSubscribe && CoversApiTopics(topic)))
  {
    match ApiRequestToken(topic)
    case Some(tok) => acc == AclWrite && (tok == username || svc.IsDevice(tok))
    case None =>
      match ApiResponseToken(topic)
      case Some(tok) => tok == username || svc.IsDevice(tok)
      case None => !(acc == AclSubscribe && CoversApiTopics(topic))
  }

  /** `AuthAclCheck`. */
  function AclCheck(svc: Services, clientid: string, username: string, topic: string, acc: int): (ok: bool)
    ensures username == SuperUser ==> ok
    ensures username == "" ==> (ok <==> AnonymousAcl(clientid, topic, acc))
    ensures username != SuperUser && username != "" && !svc.IsDevice(username) ==> ok
    ensures username != SuperUser && username != "" && svc.IsDevice(username) ==>
              (ok <==> DeviceAcl(svc, username, topic, acc))
  {
    if username == SuperUser then true
    else if username == "" then AnonymousAcl(clientid, topic, acc)
    else if svc.IsDevice(username) then DeviceAcl(svc, username, topic, acc)
    else true
  }

  /** A response topic never matches the request pattern: its second level
      is `me`, not a version. */
  lemma ResponseTextIsNoRequest(tok: string, rest: string)
    requires IsLevel(tok) && IsLine(rest)
    ensures ApiRequestToken(ApiResponseText(tok, rest)).None?
  {
    var topic := ApiResponseText(tok, rest);
    assert topic == tok + "/" + ("me" + "/" + rest);
    LevelsCons(tok, "me" + "/" + rest);
    LevelsCons("me", rest);
  }

  /** A device may only write on `api/<version>/<tok>/...`, and only when
      `<tok>` is its own token or another valid device token. */
  lemma DeviceApiRequest(svc: Services, clientid: string, device: string, v: string, tok: string, rest: string, acc: int)
    requires device != SuperUser && device != "" && svc.IsDevice(device)
    requires IsVersion(v) && IsLevel(tok) && IsLine(rest)
    ensures AclCheck(svc, clientid, device, ApiRequestText(v, tok, rest), acc) <==>
              acc == AclWrite && (tok == device || svc.IsDevice(tok))
  {
    ApiRequestComplete(v, tok, rest);
  }

  /** A device may use `<tok>/me/...` with any access when `<tok>` is its own
      token or another valid device token. */
  lemma DeviceApiResponse(svc: Services, clientid: string, device: string, tok: string, rest: string, acc: int)
    requires device != SuperUser && device != "" && svc.IsDevice(device)
    requires IsLevel(tok) && IsLine(rest)
    ensures AclCheck(svc, clientid, device, ApiResponseText(tok, rest), acc) <==>
              (tok == device || svc.IsDevice(tok))
  {
    ResponseTextIsNoRequest(tok, rest);
    ApiResponseComplete(tok, rest);
  }

  /** A device never subscribes to a filter covering API topics, provided
      `+` and `api` are not device tokens themselves. */
  lemma DeviceCannotSubscribeApiWildcards(svc: Services, clientid: string, device: string, topic: string)
    requires device != SuperUser && device != "" && svc.IsDevice(device)
    requires !svc.IsDevice("+") && !svc.IsDevice("api")
    requires CoversApiTopics(topic)
    ensures !AclCheck(svc, clientid, device, topic, AclSubscribe)
  {
    if HasPrefix(topic, "api/") {
      assert topic == "api" + "/" + topic[4..];
      LevelsCons("api", topic[4..]);
    } else if HasPrefix(topic, "+/") {
      assert topic == "+" + "/" + topic[2..];
      LevelsCons("+", topic[2..]);
    } else {
      SplitNoSep("#", '/');
    }
  }

  /** A filter under `api/` or `+/` covers API topics. */
  lemma PrefixedCovers(prefix: string, rest: string)
    requires prefix == "api/" || prefix == "+/"
    ensures CoversApiTopics(prefix + rest)
  {
    assert (prefix + rest)[..|prefix|] == prefix;
  }

  /** The fixture of the engine's test suite: a user "test@auth-plugin.local"
      with password "test" and a user token, and two registered devices with
      their tokens. Tokens are single topic levels, and none of them is the
      super user's name, "+" or "api". */
  predicate TestFixture(svc: Services, userToken: string, deviceToken: string, otherToken: string) {
    && svc.users.authenticate("test@auth-plugin.local", "test")
    && !svc.users.authenticate("nobody", "nobody")
    && !svc.IsDevice("test@auth-plugin.local")
    && svc.authz.verifyToken(userToken) && !svc.IsDevice(userToken)
    && svc.IsDevice(deviceToken) && svc.IsDevice(otherToken)
    && !svc.authz.verifyToken("FAKE_TOKEN") && !svc.IsDevice("FAKE_TOKEN")
    && !svc.IsDevice("+") && !svc.IsDevice("api")
    && IsLevel(userToken) && IsLevel(deviceToken) && IsLevel(otherToken)
    && userToken != SuperUser && deviceToken != SuperUser
  }

  /** The authentication cases of the test suite. */
  lemma TestSuiteAuthentication(svc: Services, pw: string, userToken: string, deviceToken: string, otherToken: string)
    requires TestFixture(svc, userToken, deviceToken, otherToken)
    ensures UnpwdCheck(svc, pw, "test@auth-plugin.local", "test", "TEST_CLIENT")
    ensures UnpwdCheck(svc, pw, userToken, "", "TEST_CLIENT")
    ensures !UnpwdCheck(svc, pw, "nobody", "nobody", "TEST_CLIENT")
    ensures UnpwdCheck(svc, pw, deviceToken, "", "TEST_CLIENT")
    ensures !UnpwdCheck(svc, pw, "FAKE_TOKEN", "", "TEST_CLIENT")
    ensures UnpwdCheck(svc, pw, "", "", "TEST_CLIENT")
  {
  }

  /** Test suite: a user, by name or by user token, has access to any topic. */
  lemma TestUserAnyTopic(svc: Services, userToken: string, deviceToken: string, otherToken: string, acc: int)
    requires TestFixture(svc, userToken, deviceToken, otherToken)
    ensures AclCheck(svc, "TEST_CLIENT", "test@auth-plugin.local", "test/topic", acc)
    ensures AclCheck(svc, "TEST_CLIENT", "test@auth-plugin.local", "test/#", acc)
    ensures AclCheck(svc, "TEST_CLIENT", userToken, "test/topic", acc)
    ensures AclCheck(svc, "TEST_CLIENT", userToken, "test/#", acc)
  {
  }

  /** Test suite: a device writes API requests for itself and for another device. */
  lemma TestDeviceWritesApiRequests(svc: Services, userToken: string, deviceToken: string, otherToken: string)
    requires TestFixture(svc, userToken, deviceToken, otherToken)
    ensures AclCheck(svc, "TEST_CLIENT", deviceToken, "api/v1/" + deviceToken + "/me/attributes", AclWrite)
    ensures AclCheck(svc, "TEST_CLIENT", deviceToken, "api/v1/" + otherToken + "/me/attributes", AclWrite)
  {
    assert IsVersion("v1");
    AttributesRequestText(deviceToken);
    AttributesRequestText(otherToken);
    DeviceApiRequest(svc, "TEST_CLIENT", deviceToken, "v1", deviceToken, "me/attributes", AclWrite);
    DeviceApiRequest(svc, "TEST_CLIENT", deviceToken, "v1", otherToken, "me/attributes", AclWrite);
  }

  /** `api/v1/<tok>/me/attributes` is the request text of version `v1`. */
  lemma AttributesRequestText(tok: string)
    ensures "api/v1/" + tok + "/me/attributes" == ApiRequestText("v1", tok, "me/attributes")
  {
    assert "api/v1/" == "api/" + "v1" + "/";
    assert "/me/attributes" == "/" + "me/attributes";
  }

  /** The attribute topics under `<tok>/me/` are response texts. */
  lemma AttributesResponseText(tok: string)
    ensures tok + "/me/attributes" == ApiResponseText(tok, "attributes")
    ensures tok + "/me/attributes/response/+" == ApiResponseText(tok, "attributes/response/+")
  {
    assert "/me/attributes" == "/me/" + "attributes";
    assert "/me/attributes/response/+" == "/me/" + "attributes/response/+";
  }

  /** Test suite: a device cannot read or subscribe to API request topics. */
  lemma TestDeviceCannotReadApiRequests(svc: Services, userToken: string, deviceToken: string, otherToken: string)
    requires TestFixture(svc, userToken, deviceToken, otherToken)
    ensures !AclCheck(svc, "TEST_CLIENT", deviceToken, "api/v1/" + deviceToken + "/me/attributes", AclRead)
    ensures !AclCheck(svc, "TEST_CLIENT", deviceToken, "api/v1/" + otherToken + "/me/attributes", AclRead)
    ensures !AclCheck(svc, "TEST_CLIENT", deviceToken, "api/v1/+/me/attributes", AclSubscribe)
  {
    assert IsVersion("v1");
    AttributesRequestText(deviceToken);
    AttributesRequestText(otherToken);
    assert "api/v1/+/me/attributes" == "api/v1/" + "+" + "/me/attributes";
    AttributesRequestText("+");
    DeviceApiRequest(svc, "TEST_CLIENT", deviceToken, "v1", deviceToken, "me/attributes", AclRead);
    DeviceApiRequest(svc, "TEST_CLIENT", deviceToken, "v1", otherToken, "me/attributes", AclRead);
    DeviceApiRequest(svc, "TEST_CLIENT", deviceToken, "v1", "+", "me/attributes", AclSubscribe);
  }

  /** Test suite: a device reads, writes and subscribes to response topics of
      its own and of another device. */
  lemma TestDeviceResponseTopics(svc: Services, userToken: string, deviceToken: string, otherToken: string, acc: int)
    requires TestFixture(svc, userToken, deviceToken, otherToken)
    ensures AclCheck(svc, "TEST_CLIENT", deviceToken, deviceToken + "/me/attributes", acc)
    ensures AclCheck(svc, "TEST_CLIENT", deviceToken, otherToken + "/me/attributes/response/+", acc)
  {
    AttributesResponseText(deviceToken);
    AttributesResponseText(otherToken);
    DeviceApiResponse(svc, "TEST_CLIENT", deviceToken, deviceToken, "attributes", acc);
    DeviceApiResponse(svc, "TEST_CLIENT", deviceToken, otherToken, "attributes/response/+", acc);
  }

  /** Test suite: a device has full access to topics outside the API. */
  lemma TestDeviceNonApiTopic(svc: Services, userToken: string, deviceToken: string, otherToken: string)
    requires TestFixture(svc, userToken, deviceToken, otherToken)
    ensures AclCheck(svc, "TEST_CLIENT", deviceToken, "test/topic", AclRead)
    ensures AclCheck(svc, "TEST_CLIENT", deviceToken, "test/topic", AclWrite)
  {
    assert "test/topic" == "test" + "/" + "topic";
    TwoLevels("test", "topic");
    DeviceShortTopic(svc, "TEST_CLIENT", deviceToken, "test/topic", AclRead);
    DeviceShortTopic(svc, "TEST_CLIENT", deviceToken, "test/topic", AclWrite);
  }

  /** Test suite: a device subscribes to a wildcard filter outside the API. */
  lemma TestDeviceNonApiWildcard(svc: Services, userToken: string, deviceToken: string, otherToken: string)
    requires TestFixture(svc, userToken, deviceToken, otherToken)
    ensures AclCheck(svc, "TEST_CLIENT", deviceToken, "test/#", AclSubscribe)
  {
    assert "test/#" == "test" + "/" + "#";
    TwoLevels("test", "#");
    NotCovering("test/#");
    DeviceShortTopic(svc, "TEST_CLIENT", deviceToken, "test/#", AclSubscribe);
  }

  /** A filter of two characters or more whose first character is neither
      `a` nor `+` covers no API topic. */
  lemma NotCovering(topic: string)
    requires |topic| >= 2 && topic[0] != 'a' && topic[0] != '+'
    ensures !CoversApiTopics(topic)
  {
    assert "api/"[0] == 'a' && "+/"[0] == '+';
  }

  /** A device has any access to a topic of fewer than three levels, which is
      neither an API request nor an API response topic, except a subscription
      to a filter covering API topics. */
  lemma DeviceShortTopic(svc: Services, clientid: string, device: string, topic: string, acc: int)
    requires device != SuperUser && device != "" && svc.IsDevice(device)
    requires |Levels(topic)| < 3
    ensures AclCheck(svc, clientid, device, topic, acc) <==> !(acc == AclSubscribe && CoversApiTopics(topic))
  {
    assert ApiRequestToken(topic).None? && ApiResponseToken(topic).None?;
  }

  lemma TwoLevels(a: string, b: string)
    requires '/' !in a && '/' !in b
    ensures Levels(a + "/" + b) == [a, b]
  {
    LevelsCons(a, b);
    SplitNoSep(b, '/');
  }

  /** Test suite: a device cannot subscribe to wildcard filters covering API topics. */
  lemma TestDeviceApiWildcards(svc: Services, userToken: string, deviceToken: string, otherToken: string)
    requires TestFixture(svc, userToken, deviceToken, otherToken)
    ensures !AclCheck(svc, "TEST_CLIENT", deviceToken, "api/#", AclSubscribe)
    ensures !AclCheck(svc, "TEST_CLIENT", deviceToken, "api/v1/#", AclSubscribe)
    ensures !AclCheck(svc, "TEST_CLIENT", deviceToken, "#", AclSubscribe)
    ensures !AclCheck(svc, "TEST_CLIENT", deviceToken, "+/#", AclSubscribe)
    ensures !AclCheck(svc, "TEST_CLIENT", deviceToken, "+/+/attributes", AclSubscribe)
  {
    PrefixedCovers("api/", "#");
    PrefixedCovers("api/", "v1/#");
    PrefixedCovers("+/", "#");
    PrefixedCovers("+/", "+/attributes");
    DeviceCannotSubscribeApiWildcards(svc, "TEST_CLIENT", deviceToken, "api/#");
    DeviceCannotSubscribeApiWildcards(svc, "TEST_CLIENT", deviceToken, "api/v1/#");
    DeviceCannotSubscribeApiWildcards(svc, "TEST_CLIENT", deviceToken, "#");
    DeviceCannotSubscribeApiWildcards(svc, "TEST_CLIENT", deviceToken, "+/#");
    DeviceCannotSubscribeApiWildcards(svc, "TEST_CLIENT", deviceToken, "+/+/attributes");
  }

  /** Test suite: a device cannot subscribe to the multi-level filters under
      one, two or three single-level wildcards. */
  lemma TestDeviceApiDeepWildcards(svc: Services, userToken: string, deviceToken: string, otherToken: string)
    requires TestFixture(svc, userToken, deviceToken, otherToken)
    ensures !AclCheck(svc, "TEST_CLIENT", deviceToken, "+/v1/#", AclSubscribe)
    ensures !AclCheck(svc, "TEST_CLIENT", deviceToken, "+/+/#", AclSubscribe)
    ensures !AclCheck(svc, "TEST_CLIENT", deviceToken, "+/+/+/#", AclSubscribe)
  {
    PrefixedCovers("+/", "v1/#");
    PrefixedCovers("+/", "+/#");
    PrefixedCovers("+/", "+/+/#");
    DeviceCannotSubscribeApiWildcards(svc, "TEST_CLIENT", deviceToken, "+/v1/#");
    DeviceCannotSubscribeApiWildcards(svc, "TEST_CLIENT", deviceToken, "+/+/#");
    DeviceCannotSubscribeApiWildcards(svc, "TEST_CLIENT", deviceToken, "+/+/+/#");
  }
}
