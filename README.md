# iota: authentication, device management and MQTT bridging, in Dafny

iota is an IoT platform. Devices talk to it over MQTT through a Mosquitto
broker. Users and tools talk to it over a REST API. This project models the
parts that decide who may do what and how messages turn into requests:

- **The Mosquitto auth plugin.** The C shim (`AuthPlugin`) adapts Mosquitto's
  plugin interface to the Go engine. It turns NULL strings into empty ones,
  refuses malformed ACL queries itself and maps boolean answers to status
  codes. The Go engine exists in two revisions: the current one
  (`MosquittoPlugin`) and the older one that the shim links against
  (`GoAuth`). Both share the anonymous-claim rule (`EngineCommon`) and the
  topic patterns (`Topics`).
- **The MQTT brokers.** The device service's broker client (`MqttBroker`)
  turns `api/<ver>/<token>/<path>` messages into HTTP requests and publishes
  GET answers back. The API server's broker client (`ApiMqttBroker`) does the
  same with an explicit verb level.
- **The device package.** It covers:
  - device ids and typed errors (`DeviceErrors`);
  - the device database with its token cache (`DeviceDb`);
  - the device manager: claims, approval, rejection and RPC publication
    (`DeviceMgr`).
- **The user database.** `Userdb` covers plugin selection, password hashing,
  authentication and password change. `UserdbFile` is the plugin backed by a
  configuration file.
- **The rest.** It covers:
  - the API server's error-to-status mapping (`HttpUtils`);
  - the `device` commands of the command-line client (`IotacliDevices`);
  - the REST client's host parsing and path building (`RestClient`);
  - the alarm manager's callbacks (`AlarmMgr`).
- **Go's standard library.** The parts of `strings`, `strconv` and
  `encoding/base64` the code relies on are written out in `Strings`,
  `Strconv` and `Base64`.

External services are parameters of the model:

- The MongoDB store is a map held in a class field.
- The JWT signer is a function passed to the device manager.
- bcrypt is a record of functions, constrained where the proof needs it.
- The JSON decoder's verdicts are given as a `Decoding` value.
- The HTTP router is a function from requests to response bodies.

Mutable objects are classes whose methods state their whole new state:
- `DeviceDb.DeviceDb`, `DeviceMgr.Manager` and `Userdb.UserDatabase`;
- `UserdbFile.FileDb`;
- both `Broker`s, `RestClient.Client` and `AlarmMgr.Manager`;
- the plugin globals (`MosquittoPlugin.Globals`, `GoAuth.Globals`).

Loops of the source are methods with loop invariants, proved against a specification function:
- `PluginInit`, `NewSelector`, `PartitionNil`, `IsBatch` and `ParseRPCRequest`;
- `GetClaims`, `Merge` and `GetHTTPErrorStatusCode`;
- `ParseParams` and `AlarmMgr.Manager.Upsert`.

The model departs from the code as written in two places, both listed under "## Findings":
- the C shim's pre-tier-3 credential check is modelled with its parameter spelled `username`, where auth-plugin.c:69 spells it `usernamae`;
- the bad-request errors are the one-argument `NewStatusError(400)` that errors.go:28 declares, where device/mgr.go:149 calls it with a second argument, the cause.

The device manager's approval stores through `Upsert` (device/mgr.go:256), which leaves the token cache alone. The cache stays coherent because every stored token is the signature of its device id under the secret read once when the manager is made (device/mgr.go:36,57-62). `DeviceMgr.Manager.Valid` carries that as `TokensSigned`, and every manager operation keeps it.

Two behaviours that may look surprising are kept as the code has them:
- the anonymous ACL rule requires a client id;
- a device of the current engine may write API requests for any other device that holds a valid token.

## Model

| member | source | states |
|---|---|---|
| AuthPlugin.PluginVersion | mqtt/mosquitto/auth-plugin.c:15-25 | The version reported is 4 when the header defines none or defines 5; otherwise it is the header's version. It is never 5. |
| AuthPlugin.OrEmpty | mqtt/mosquitto/auth-plugin.c:78-81 | A NULL string is handed to the engine as "" and any other string unchanged. |
| AuthPlugin.PluginInit | mqtt/mosquitto/auth-plugin.c:27-49 | The first `opt_count` option keys and values are copied in order into two arrays. These are passed to the engine's init exactly once, and success maps to MOSQ_ERR_SUCCESS, failure to MOSQ_ERR_AUTH. |
| AuthPlugin.PluginCleanup | mqtt/mosquitto/auth-plugin.c:51-54 | Cleanup calls the engine's cleanup once and succeeds. |
| AuthPlugin.SecurityHook | mqtt/mosquitto/auth-plugin.c:56-62 | The security init and cleanup hooks succeed without calling the engine. |
| AuthPlugin.UnpwdCheck | mqtt/mosquitto/auth-plugin.c:64-92 | The engine is called once with NULL username and password replaced by "". From tier 3 the client id comes from the client handle; before that it is "". The engine's answer maps to SUCCESS or ERR_AUTH. |
| AuthPlugin.UnpwdUnbound | mqtt/mosquitto/auth-plugin.c:64-92 | The names the credential check reads that its signature does not declare. |
| AuthPlugin.LegacyUnpwdUnbound | mqtt/mosquitto/auth-plugin.c:66-70 | In the pre-tier-3 signature, `username` is read but never declared. The parameter is spelled `usernamae`. |
| AuthPlugin.ClientUnpwdBound | mqtt/mosquitto/auth-plugin.c:64-76 | From tier 3 every name the body reads is declared. |
| AuthPlugin.UnboundIn | mqtt/mosquitto/auth-plugin.c:64-92 | The names a tier's body reads that a parameter list leaves undeclared are never among those parameters. |
| AuthPlugin.LegacyUnpwdBound | mqtt/mosquitto/auth-plugin.c:64-70 | With the parameter spelled `username`, every name the pre-tier-3 body reads is declared. |
| AuthPlugin.AclCheck | mqtt/mosquitto/auth-plugin.c:94-129 | A NULL topic or an access level below 1 is denied without asking the engine. Otherwise the engine gets the client id and username (NULL becomes "") with the topic and access unchanged. Its answer maps to SUCCESS or ERR_ACL_DENIED. |
| AuthPlugin.PskKeyGet | mqtt/mosquitto/auth-plugin.c:131-140 | PSK lookup always answers ERR_AUTH and never calls the engine. |
| AuthPlugin.AnonymousConnectAccepted | mqtt/mosquitto/go-auth.go:74-77 | Through the shim and the linked engine, a client without a username connects whatever its password. |
| AuthPlugin.AnonymousReadsOwnClaim | mqtt/mosquitto/go-auth.go:118-131 | Through the shim, an anonymous client may read `me/claim/<its id>` and no other claim answer. |
| EngineCommon.AnonymousAcl | mqtt/mosquitto/plugin.go:120-130 | An anonymous client with an empty client id is denied everything. |
| EngineCommon.AnonymousAclMeaning | mqtt/mosquitto/plugin.go:105-130 | An anonymous client may write exactly on `api/v<digits and dots>/me/claim`. Any other access is allowed exactly on `me/claim/<clientid>`. Nothing is allowed without a client id. |
| Topics.ClaimResponseId | mqtt/mosquitto/plugin.go:107 | The submatch of `^me/claim/([^/]+)$` is a single non-empty level. |
| Topics.ApiRequestToken | mqtt/mosquitto/plugin.go:108 | The submatch of `^api/v[0-9.]+/([^/]+)/.+$` is a single non-empty level. |
| Topics.ApiResponseToken | mqtt/mosquitto/plugin.go:109 | The submatch of `^([^/]+)/me/.+$` is a single non-empty level. |
| Topics.ClaimRequestSound | mqtt/mosquitto/plugin.go:106 | A topic the claim-request pattern matches is `api/<version>/me/claim` for a version of the form `v[0-9.]+`. |
| Topics.ClaimRequestComplete | mqtt/mosquitto/plugin.go:106 | Every `api/<version>/me/claim` matches the claim-request pattern. |
| Topics.ClaimResponseSound | mqtt/mosquitto/plugin.go:107 | A matched claim-response topic is `me/claim/` followed by its submatch. |
| Topics.ClaimResponseComplete | mqtt/mosquitto/plugin.go:107 | `me/claim/<id>` matches with submatch `id` for every single-level id. |
| Topics.ApiRequestSound | mqtt/mosquitto/plugin.go:108 | A matched API request topic is `api/<version>/<token>/<rest>` with a non-empty rest. |
| Topics.ApiRequestComplete | mqtt/mosquitto/plugin.go:108 | Every `api/<version>/<token>/<rest>` matches with submatch `token`. |
| Topics.ApiResponseSound | mqtt/mosquitto/plugin.go:109 | A matched API response topic is `<token>/me/<rest>` with a non-empty rest. |
| Topics.ApiResponseComplete | mqtt/mosquitto/plugin.go:109 | Every `<token>/me/<rest>` matches with submatch `token`. |
| Topics.VersionIsLevel | mqtt/mosquitto/plugin.go:106-108 | A version level `v[0-9.]+` is a single topic level. |
| MosquittoPlugin.Globals.constructor | mqtt/mosquitto/plugin.go:18-24 | The globals start nil, with an empty super-user password. |
| MosquittoPlugin.Globals.Init | mqtt/mosquitto/plugin.go:26-56 | The steps run in order: configuration, user database, the "mqtt" password, authenticator, device manager. The result is true exactly when all succeed. A failing step leaves the later globals untouched, and the super-user password is the stored "mqtt" secret. |
| MosquittoPlugin.Globals.Cleanup | mqtt/mosquitto/plugin.go:58-65 | The user database and the device manager are closed, each only if open and in that order. No global changes. |
| MosquittoPlugin.UnpwdCheck | mqtt/mosquitto/plugin.go:67-97 | The super user logs in exactly with the stored password, and anonymous clients always. Others log in with a correct password when one is given, and otherwise with a user or device token. The client id plays no part. |
| MosquittoPlugin.DeviceAcl | mqtt/mosquitto/plugin.go:132-166 | A device gets API request topics only for writing. Outside API topics, a subscription is refused exactly for `#`, `api/…` and `+/…` filters. |
| MosquittoPlugin.AclCheck | mqtt/mosquitto/plugin.go:112-170 | The super user and authenticated users may use any topic. Anonymous clients follow the claim rule, and devices follow the device rule. |
| MosquittoPlugin.ResponseTextIsNoRequest | mqtt/mosquitto/plugin.go:108-109 | No API response topic matches the API request pattern, so the request branch never shadows the response branch. |
| MosquittoPlugin.DeviceApiRequest | mqtt/mosquitto/plugin.go:135-145 | A device may use `api/<v>/<tok>/<rest>` exactly for writing, and only when `tok` is its own token or another device's valid token. |
| MosquittoPlugin.DeviceApiResponse | mqtt/mosquitto/plugin.go:148-155 | A device may use `<tok>/me/<rest>` with any access exactly when `tok` is its own token or another device's valid token. |
| MosquittoPlugin.DeviceCannotSubscribeApiWildcards | mqtt/mosquitto/plugin.go:157-162 | A device can never subscribe to `#`, `api/…` or `+/…` unless the filter is itself an API response topic it may use. |
| MosquittoPlugin.TestSuiteAuthentication | mqtt/mosquitto/plugin_test.go:80-114 | The test suite's credential cases: the user by password and by token, the device by token and the anonymous client are accepted; "nobody" and a fake token are refused. |
| MosquittoPlugin.TestUserAnyTopic | mqtt/mosquitto/plugin_test.go:117-127 | A user, by name and by user token, has any access to `test/topic` and to the filter `test/#`. |
| MosquittoPlugin.TestDeviceWritesApiRequests | mqtt/mosquitto/plugin_test.go:130-133 | A device writes API requests for itself and for the other device. |
| MosquittoPlugin.TestDeviceCannotReadApiRequests | mqtt/mosquitto/plugin_test.go:135-139 | A device can neither read nor subscribe to API request topics. |
| MosquittoPlugin.TestDeviceResponseTopics | mqtt/mosquitto/plugin_test.go:141-149 | A device may use response topics of itself and of the other device with any access. |
| MosquittoPlugin.TestDeviceNonApiTopic | mqtt/mosquitto/plugin_test.go:151-153 | A device reads and writes `test/topic`, which is outside the API. |
| MosquittoPlugin.TestDeviceNonApiWildcard | mqtt/mosquitto/plugin_test.go:154 | A device subscribes to the filter `test/#`, which covers no API topic. |
| MosquittoPlugin.NotCovering | mqtt/mosquitto/plugin.go:157-165 | A filter of two characters or more starting with neither `a` nor `+` covers no API topic. |
| MosquittoPlugin.DeviceShortTopic | mqtt/mosquitto/plugin.go:157-165 | For a topic of fewer than three levels, which is neither an API request nor an API response topic, a device has a given access exactly when it is not a subscription to a filter covering API topics. |
| MosquittoPlugin.TestDeviceApiWildcards | mqtt/mosquitto/plugin_test.go:157-166 | A device is refused the filters `api/#`, `api/v1/#`, `#`, `+/#` and `+/+/attributes`. |
| MosquittoPlugin.TestDeviceApiDeepWildcards | mqtt/mosquitto/plugin_test.go:160-164 | A device is refused the filters `+/v1/#`, `+/+/#` and `+/+/+/#`. |
| GoAuth.Globals.constructor | mqtt/mosquitto/go-auth.go:22-24 | The globals start nil. |
| GoAuth.Globals.Init | mqtt/mosquitto/go-auth.go:29-52 | The steps run in order: configuration, user database, authenticator, device manager. The result is true exactly when all succeed, and a failing step leaves the later globals untouched. |
| GoAuth.Globals.Cleanup | mqtt/mosquitto/go-auth.go:55-62 | The open handles are closed, the user database first. |
| GoAuth.UnpwdCheck | mqtt/mosquitto/go-auth.go:65-96 | The super user's password must be the base64 encoding of the authenticator's secret. The other cases are as in the current revision. |
| GoAuth.AclCheck | mqtt/mosquitto/go-auth.go:112-151 | A device may write API requests only for its own token and use API responses only for its own token. Everything else is allowed, including `#`. |
| GoAuth.SuperUserPasswordIsSecret | mqtt/mosquitto/go-auth.go:69-72 | An accepted super-user password base64-decodes to the secret. |
| GoAuth.DeviceOwnApiRequests | mqtt/mosquitto/go-auth.go:136-139 | A device may use `api/<v>/<tok>/<rest>` exactly for writing with its own token. |
| GoAuth.DeviceOwnApiResponses | mqtt/mosquitto/go-auth.go:141-143 | A device may use `<tok>/me/<rest>` exactly for its own token. |
| GoAuth.UnpwdAgrees | mqtt/mosquitto/go-auth.go:65-96 | Apart from the super user, both revisions decide credentials identically. |
| GoAuth.ApiTopicsStricter | mqtt/mosquitto/go-auth.go:112-151 | On API request and response topics, what this revision allows the current one allows too. |
| GoAuth.RevisionsDiffer | mqtt/mosquitto/go-auth.go:112-151 | The revisions differ both ways. Only the current one lets a device write requests for another device, and only this one lets a device subscribe to `#`. |
| MqttBroker.ParseQos | mqtt/broker.go:46-54 | A QoS option is accepted exactly when it parses as an integer between 0 and 2. |
| MqttBroker.ParseQosFormatted | mqtt/broker.go:46-54 | Every level 0 to 2 is read back from its decimal form. |
| MqttBroker.Options | mqtt/broker.go:40-70 | The server defaults to the local broker and the client id to a random id. The credentials pass through. |
| MqttBroker.ParseTopic | mqtt/broker.go:159-182 | A topic with fewer than four levels is dropped. A route is a GET or a POST, and a POST has no request id. |
| MqttBroker.Header | mqtt/broker.go:219-224 | `Authorization` is `bearer <token>` exactly when there is a token. `Content-Type: application/json` appears exactly for POST. There are no other headers. |
| MqttBroker.BuildRequest | mqtt/broker.go:186-224 | The request carries the route's verb and API path. A POST takes the payload as its body. A GET takes its query from a decodable payload; an empty payload gives no query, and an undecodable one drops the message. |
| MqttBroker.Broker.constructor | mqtt/broker.go:26-38 | A new broker has QoS 0, no router and nothing published. |
| MqttBroker.Broker.Configure | mqtt/broker.go:40-70 | The options come with their fallbacks. A valid QoS option replaces the level, and an invalid one is reported and keeps the previous level. |
| MqttBroker.Broker.Publish | mqtt/broker.go:72-84 | The payload is queued after the earlier ones, with the configured QoS. |
| MqttBroker.Broker.Forward | mqtt/broker.go:125-136 | A second Forward panics. Otherwise the router is installed when the subscription succeeds. |
| MqttBroker.Broker.ServeMQTT | mqtt/broker.go:159-235 | The parsed request goes to the router. Only a GET's response body is published, on the response topic. |
| MqttBroker.ClaimRoute | mqtt/broker.go:169-172 | `api/<v>/me/claim` is a POST to `/api/<v>/me/claim` without an Authorization header. |
| MqttBroker.ClaimBranch | mqtt/broker.go:169-172 | A four-level topic whose last two levels are `me/claim` takes the claim branch. |
| MqttBroker.GetRoute | mqtt/broker.go:173-178 | A topic ending in `/request/<id>` with at least one path level is a GET of that path. Its answer goes to `<tok>/<path>/response/<id>`. |
| MqttBroker.PostRoute | mqtt/broker.go:179-181 | Any other topic with a token is a POST of the whole path. |
| MqttBroker.PostBranch | mqtt/broker.go:179-181 | The POST branch of the parse. |
| MqttBroker.AttributesPost | mqtt/broker.go:179-181 | `api/<v>/<tok>/me/attributes` is a POST to `/api/<v>/me/attributes`. |
| MqttBroker.TwoLevelPost | mqtt/broker.go:173-181 | A path of two levels after the token is always a POST. |
| MqttBroker.DeviceGetExchange | mqtt/broker.go:159-235 | A device's `…/me/<rest>/request/<id>` is answered on a response topic that the device's own ACL lets it read. |
| MqttBroker.ForwardTwice | mqtt/broker.go:125-136 | After a router is installed, a second Forward keeps the first router. |
| ApiMqttBroker.Broker.constructor | api/mqtt/broker.go:23-49 | A new broker has QoS 0 and has served nothing. |
| ApiMqttBroker.Broker.Configure | api/mqtt/broker.go:51-84 | The options come with the same fallbacks and the same QoS rule as the device service's broker. |
| ApiMqttBroker.ParseTopic | api/mqtt/broker.go:111-116 | A topic with fewer than five levels is dropped. The verb is the upper-cased fourth level. |
| ApiMqttBroker.RequestMethod | api/mqtt/broker.go:120-124 | An empty verb stands for GET. Any other verb is accepted exactly when it is an HTTP token. |
| ApiMqttBroker.BuildRequest | api/mqtt/broker.go:118-129 | An invalid method drops the message. Otherwise the request goes to `/api/<ver>/<path>` with the payload as its body and a bearer token, even an empty one. |
| ApiMqttBroker.Broker.ServeMQTT | api/mqtt/broker.go:110-133 | The built request, if any, goes to the router and is recorded after the earlier ones. The router's answer is discarded. |
| ApiMqttBroker.TopicRoute | api/mqtt/broker.go:111-116 | The five parts are read level by level, and the path keeps its inner slashes. |
| ApiMqttBroker.PostRequest | api/mqtt/broker.go:110-133 | `api/<v>/<tok>/post/<path>` is a JSON POST to `/api/<v>/<path>` carrying the token. |
| ApiMqttBroker.DeleteHasNoContentType | api/mqtt/broker.go:126-129 | Only POST gets a content type, so a DELETE has none. |
| DeviceErrors.ValidateDeviceId | device/errors.go:44-48 | An id is valid exactly when it is non-empty and made of `[a-zA-Z0-9_.@-]`. |
| DeviceErrors.RejectsTopicSyntax | device/errors.go:44-48 | The empty id is rejected, and so is every id holding `/`, `+`, `#` or a newline. |
| DeviceErrors.ValidIdIsLevel | device/errors.go:44-48 | A valid id is one topic level without wildcards. |
| DeviceErrors.DeviceErrorStatuses | device/errors.go:9-70 | The statuses: duplicate device 409, device not found 404, invalid id 400, duplicate claim 409, claim not found 404. |
| DeviceErrors.MessagesAndIds | device/errors.go:9-70 | The invalid-id message is the same for every id. The not-found, duplicate and claim-not-found messages determine their id. |
| DeviceDb.SelectorKey | device/db.go:22-36 | A blank key selects nothing. Otherwise the trimmed key is renamed `id`→`_id` and `token`→`_token`. |
| DeviceDb.SelectedKeys | device/db.go:22-36 | The selected names are never `id`, `token` or "". |
| DeviceDb.SelectedKeysMeaning | device/db.go:22-36 | A name is selected exactly when some key selects it. |
| DeviceDb.NewSelector | device/db.go:22-36 | The selector maps exactly the selected names, each to 1. |
| DeviceDb.Contains | device/db.go:38-45 | An empty selector contains every key, and any other selector exactly its own keys. |
| DeviceDb.AfterLoad | device/db.go:49-60 | `_id` becomes `id` when selected and `_token` becomes `token`. The stored names disappear, and every other field is kept. |
| DeviceDb.LoadId | device/db.go:50-55 | `_id` is removed. It reappears as `id` exactly when the selector selects `_id`, and every other field but `id` is kept. |
| DeviceDb.LoadToken | device/db.go:56-59 | `_token` is removed and reappears as `token`. Every field other than `token` is kept. |
| DeviceDb.RequestedIdIsLoaded | device/db.go:22-60 | Asking for `id` by its public name keeps the stored id in the loaded record. |
| DeviceDb.NewDocument | device/db.go:90-109 | The document stores the id as `_id` and the token as `_token`. It holds the other attributes unchanged, without `id` or `token`. |
| DeviceDb.UpsertFields | device/db.go:204-220 | The `$set` fields carry the new token. The id and token attributes are left out, and the others are unchanged. |
| DeviceDb.PartitionNil | device/db.go:182-188 | The assigned fields are exactly the non-nil fields. The unset list holds exactly the nil-valued keys, each once. |
| DeviceDb.DeviceDb.constructor | device/db.go:70-81 | An open database starts empty with a coherent cache. |
| DeviceDb.DeviceDb.Create | device/db.go:90-109 | An invalid id and a duplicate id are refused and nothing changes. Otherwise the new document is stored. The cache stays coherent. |
| DeviceDb.DeviceDb.Find | device/db.go:111-127 | A missing device is DeviceNotFound. A found one is projected on the requested keys and renamed. |
| DeviceDb.SelectorFor | device/db.go:111-127 | No keys give the empty selector. Otherwise the selector holds exactly the selected names, each mapped to 1. |
| DeviceDb.DeviceDb.GetToken | device/db.go:151-170 | A cached token is returned without a lookup. A missing device is DeviceNotFound. Otherwise the stored token is returned and cached. With a coherent cache, every answer is the stored token. |
| DeviceDb.DeviceDb.Update | device/db.go:172-202 | `id`, `_id`, `token` and `_token` are ignored. Nil values are unset and the others set. A missing device is DeviceNotFound, and when no field remains nothing is sent. The stored token never changes. |
| DeviceDb.DeviceDb.Upsert | device/db.go:204-220 | An invalid id is refused. Otherwise the document is created or updated with the new token, and the cache is left as it was. The cache stays coherent when the token stored is the one already cached for that id. |
| DeviceDb.DeviceDb.Remove | device/db.go:222-231 | The cache entry is dropped. A missing device is DeviceNotFound, and otherwise its document is removed. |
| DeviceDb.Project | device/db.go:111-127 | The projection keeps a subset of the document and always keeps `_id`. An empty selector keeps everything. |
| DeviceDb.UpdateKeepsToken | device/db.go:172-202 | An update never changes the stored token. |
| DeviceDb.StaleTokenAfterReclaim | device/db.go:151-154 | Upsert leaves coherence to its caller: after a token was cached, an Upsert with a different token leaves GetToken answering the old one. |
| DeviceMgr.FirstSignificant | device/mgr.go:110-119 | The index of the first byte that is not JSON whitespace, or the length when there is none. |
| DeviceMgr.IsBatch | device/mgr.go:110-119 | A message is a batch exactly when its first non-whitespace byte is `[`. |
| DeviceMgr.FirstSignificantAt | device/mgr.go:110-119 | The first significant byte is the one after a blank prefix. |
| DeviceMgr.BatchNeedsResponse | device/mgr.go:129-138 | A batch that needs a response has no failing element. |
| DeviceMgr.WellFormedBatch | device/mgr.go:129-138 | A batch without decoding errors needs a response exactly when one of its requests has an id, as section 4.1 of JSON-RPC 2.0 requires. |
| DeviceMgr.ParseRPCRequest | device/mgr.go:123-144 | A batch or a single request is decoded according to the first byte. A decoding error is returned. Otherwise a response is needed exactly when a request has an id. |
| DeviceMgr.RpcTopicsAreResponseTopics | device/mgr.go:157-159 | RPC request and response topics are API response topics of the device's token. |
| DeviceMgr.RpcTopicsDistinct | device/mgr.go:157-159 | Distinct request numbers give distinct request topics and distinct response topics. |
| DeviceMgr.ClaimAnswerReadable | device/mgr.go:259-264 | The answer to a claim goes to a topic the anonymous claimer may read. |
| DeviceMgr.Merged | device/mgr.go:226-234 | A nil update deletes its key, and any other update sets it. Keys outside the updates keep their values. |
| DeviceMgr.ApprovedId | device/mgr.go:240-247 | The device id is the `id` attribute when it is a string, and the claim id when it is absent. A non-string `id` panics. |
| DeviceMgr.Manager.constructor | device/mgr.go:30-53 | A new manager has no claims and nothing sent. The request counter starts at the given time. It is given a store whose cache is coherent and whose tokens are the signatures of their ids. |
| DeviceMgr.Manager.RPC | device/mgr.go:146-187 | A request that does not parse is the status error for 400, and a device without a token is DeviceNotFound. Otherwise the next request number, wrapped as `int64`, names the topics of the device's stored token. The request is published to the device, and a response is awaited when one is needed and the timeout is positive. |
| DeviceMgr.Manager.ApprovalToken | device/mgr.go:239-266 | A non-empty approval token is the signature of the approved device id. |
| DeviceMgr.Manager.InternalApprove | device/mgr.go:239-266 | The claim bookkeeping is dropped, and the returned token is the signed approved id. A non-string id panics and a signing error is returned, with nothing stored or sent. An invalid device id is returned and published to the claimer, with nothing stored. Otherwise the device is upserted with the token, the cache is left as it was and the claimer gets the token. Pending claims and the request counter are unchanged, and the cache stays coherent with every stored token the signature of its id. |
| DeviceMgr.Manager.Claim | device/mgr.go:189-209 | An invalid id and a pending claim are refused, with nothing changed. Without auto-approval the claim is stored with its id and time. With auto-approval the pending claims stay as they were, and the claim record with its id and time has exactly the outcome of `InternalApprove`. |
| DeviceMgr.Manager.GetClaims | device/mgr.go:211-218 | One record per pending claim: the records are in step with a list of claim ids that holds each pending claim exactly once and nothing else. |
| DeviceMgr.Manager.Approve | device/mgr.go:220-237 | A missing claim is ClaimNotFound, with nothing changed. Otherwise the claim leaves the pending set, and the claim merged with the updates has the outcome of `InternalApprove` in every branch: a non-string id, a signing error, an invalid id and success. |
| DeviceMgr.Manager.Reject | device/mgr.go:268-274 | A missing claim is ClaimNotFound. Otherwise it is dropped and its claimer is told it was rejected. |
| DeviceMgr.ClaimRecord | device/mgr.go:193-197 | A stored claim holds its claim id and claim time. |
| DeviceMgr.Merge | device/mgr.go:226-234 | The loop over the updates computes `Merged`. |
| DeviceMgr.MergedDetermined | device/mgr.go:226-234 | Any record with the three properties of `Merged` is the merged record. |
| DeviceMgr.ClaimIdIsDefaultId | device/mgr.go:240-247 | A claimer's own attributes without an `id` are approved under the claim id. |
| DeviceMgr.MergedIdempotent | device/mgr.go:226-234 | Applying the same updates twice is the same as applying them once. |
| HttpUtils.NewStatusError | api/server/httputils/errors.go:17-30 | A status error carries its code, and its message is the code's status text. |
| HttpUtils.BadRequestCallsMismatch | device/mgr.go:149 | The bad-request call passes two arguments to the one-parameter `NewStatusError`. |
| HttpUtils.BadRequestError | api/server/httputils/errors.go:28 | The one-argument status error for 400 says "Bad Request" and maps to 400 in any keyword order. |
| HttpUtils.KeywordStatus | api/server/httputils/errors.go:50-66 | A non-zero answer is the status of a keyword the message contains. No keyword gives 0. |
| HttpUtils.GetHTTPErrorStatusCode | api/server/httputils/errors.go:33-74 | The loop computes `StatusFor` and never answers 0. |
| HttpUtils.StatusErrorRoundTrip | api/server/httputils/errors.go:23-44 | A status error with a non-zero code gives back that code, whatever the map order. |
| HttpUtils.DefaultsToServerError | api/server/httputils/errors.go:33-74 | No error, or a status error carrying 0, gives 500. |
| HttpUtils.NoKeywordIsServerError | api/server/httputils/errors.go:46-74 | A message without any keyword gives 500. |
| HttpUtils.KeywordStatusFromTable | api/server/httputils/errors.go:46-70 | A keyword status is the table's status for a keyword that the lower-cased message contains. |
| HttpUtils.PlainStatus | api/server/httputils/errors.go:39-73 | An error without a status code gets the keyword status, or 500 when no keyword matches. |
| HttpUtils.SingleMatchAnyOrder | api/server/httputils/errors.go:51-66 | For any table and any order of its entries, when exactly one entry's keyword matches, the search finds that entry's status. |
| HttpUtils.SingleKeywordAnyOrder | api/server/httputils/errors.go:50-66 | When exactly one keyword matches, the map order does not matter. |
| HttpUtils.WriteError | api/server/httputils/errors.go:77-93 | Nothing is written without an error or a writer. The status is the mapped code. A server error's body is the fixed "Internel server error" text, and any other body is the error message. |
| Userdb.NewPlugin | auth/userdb/userdb.go:53-72 | The type is the configured one, else the URL's scheme. No type is an error, and an unregistered type is unsupported. |
| Userdb.Dispatch | auth/userdb/userdb.go:65-71 | A registered type opens its plugin with the URL. |
| Userdb.TypeOverridesScheme | auth/userdb/userdb.go:57-63 | An explicit type wins over the URL's scheme. |
| Userdb.HashPassword | auth/userdb/userdb.go:152-162 | A password that already is a `$2a$` hash with a valid cost is stored as is. Others are hashed. |
| Userdb.HashedPasswordMatches | auth/userdb/userdb.go:152-162 | With an ideal bcrypt, a hashed password matches itself and no other password. |
| Userdb.CheckLogin | auth/userdb/userdb.go:180-196 | A lookup error is returned. An inactive user is refused before the password is checked, and a mismatch is an error. |
| Userdb.UserDatabase.constructor | auth/userdb/userdb.go:127-133 | A new database holds no users. |
| Userdb.UserDatabase.Find | auth/userdb/userdb.go:164-166 | A stored user is found, and a missing one is UserNotFound. |
| Userdb.UserDatabase.Create | auth/userdb/userdb.go:135-150 | An empty name or password is refused, and so is a duplicate. Otherwise the user is stored active with the hashed password. |
| Userdb.UserDatabase.Remove | auth/userdb/userdb.go:172-174 | A stored user is removed, and a missing one is UserNotFound. |
| Userdb.UserDatabase.Authenticate | auth/userdb/userdb.go:180-196 | A login succeeds exactly for a stored, active user whose hash matches the password. |
| Userdb.UserDatabase.ChangePassword | auth/userdb/userdb.go:198-215 | The old password must authenticate. Then only the stored hash changes. |
| Userdb.ChangeThenAuthenticate | auth/userdb/userdb_test.go:110-133 | After a change, the new password logs in and the old one no longer does. |
| Userdb.RemoveThenAuthenticate | auth/userdb/userdb_test.go:136-155 | A removed user is not found and cannot log in. |
| Userdb.UserErrorStatuses | auth/userdb/userdb.go:77-120 | The statuses: duplicate user 409, user not found 404, inactive user 401, unsupported 500. |
| UserdbFile.FileDb.constructor | auth/userdb/file/file.go:18-51 | The database holds the file's users and secrets. |
| UserdbFile.FileDb.Create | auth/userdb/file/file.go:53-60 | A name with a stored password is a duplicate. Otherwise the password is stored. |
| UserdbFile.FileDb.Find | auth/userdb/file/file.go:62-71 | A stored user is found active with its name and hash, and a missing one is UserNotFound. |
| UserdbFile.FileDb.Search | auth/userdb/file/file.go:73-75 | Search is unsupported. |
| UserdbFile.FileDb.Remove | auth/userdb/file/file.go:77-83 | A missing user is UserNotFound. Otherwise the user is removed. |
| UserdbFile.FileDb.Update | auth/userdb/file/file.go:85-96 | Only a password given as bytes in an `Args` map is stored. A non-byte password panics, and other fields are unsupported. |
| UserdbFile.FileDb.GetSecret | auth/userdb/file/file.go:98-108 | A stored secret is base64-decoded with line breaks skipped, and an illegal encoding is an error. A missing secret is generated and stored encoded. |
| UserdbFile.GetSecretTwice | auth/userdb/file/file.go:98-108 | A generated secret is read back unchanged, and the second generation is ignored. |
| UserdbFile.RemoveThenFind | auth/userdb/file/file.go:62-83 | After Remove the user is no longer found. |
| UserdbFile.FileUserLogin | auth/userdb/file/file.go:62-71 | A user of the file logs in exactly with a password its stored hash matches. |
| IotacliDevices.Convert | cmd/iotacli/cmds/devices.go:164-181 | A value in double or single quotes is the string between the quotes. Otherwise the value is tried as a bool, then an `int64`, then a float, and is otherwise the raw string. |
| IotacliDevices.QuotedIsString | cmd/iotacli/cmds/devices.go:165-170 | Quoting keeps any text a string. |
| IotacliDevices.IntegersConvert | cmd/iotacli/cmds/devices.go:174-176 | An unquoted `int64` other than 0 and 1 is passed as that integer. |
| IotacliDevices.OneAndZeroAreBooleans | cmd/iotacli/cmds/devices.go:171-173 | "1" and "0" are booleans, not integers. |
| IotacliDevices.FirstEq | cmd/iotacli/cmds/devices.go:144 | The index of the first `=`. |
| IotacliDevices.ParamRoundTrip | cmd/iotacli/cmds/devices.go:141-149 | `name=value` splits back into that name and value when the name has no `=`. |
| IotacliDevices.LastArgumentWins | cmd/iotacli/cmds/devices.go:141-149 | A name's parameter is its last argument's converted value. |
| IotacliDevices.ParamNames | cmd/iotacli/cmds/devices.go:141-149 | The parameter names are exactly the names of the arguments. |
| IotacliDevices.ParseParams | cmd/iotacli/cmds/devices.go:141-149 | An argument without `=` is the "missing '='" error. Otherwise the parameters are those of the arguments. |
| IotacliDevices.DeviceRpc | cmd/iotacli/cmds/devices.go:133-162 | The request goes to the first argument's device with id 0, the second argument as method and the parsed parameters. |
| IotacliDevices.DeviceOutput | cmd/iotacli/cmds/devices.go:57-67 | A device with exactly one attribute prints that value bare. Any other device prints as JSON. |
| RestClient.ParseHost | pkg/rest/client.go:96-113 | A host without `://` is an error. A `unix` host keeps its address with an empty base path; others split the address from the base path. |
| RestClient.UnixHost | pkg/rest/client.go:96-113 | `unix://<path>` is the unix protocol with that path as address. |
| RestClient.ApiPath | pkg/rest/client.go:55-71 | The path is the base path, then `/v<version>` when a version is set, then the request path. |
| RestClient.VersionPrefixOptional | pkg/rest/client.go:58 | Versions `v1.2` and `1.2` give the same path. |
| RestClient.Client.GetAPIPath | pkg/rest/client.go:55-71 | The encoded query is appended only when there is one. |
| RestClient.Client.ClientVersion | pkg/rest/client.go:75-77 | The configured version. |
| RestClient.Client.UpdateClientVersion | pkg/rest/client.go:81-83 | Only the version changes. |
| RestClient.Client.AddCustomHeader | pkg/rest/client.go:86-88 | The header is set, and nothing else changes. |
| RestClient.Client.RemoveCustomHeader | pkg/rest/client.go:91-93 | The header is removed, and nothing else changes. |
| RestClient.AddThenRemove | pkg/rest/client.go:86-93 | Adding then removing a header leaves it absent and every other header as it was. |
| AlarmMgr.Manager.constructor | alarm/mgr.go:10-16 | A new manager has no callbacks. |
| AlarmMgr.Manager.OnUpdate | alarm/mgr.go:29-31 | The callback is registered after the others. |
| AlarmMgr.Stamped | alarm/db.go:110-112 | The store makes the alarm active, updated now, with the zero clear time, and changes nothing else. |
| AlarmMgr.Manager.Upsert | alarm/mgr.go:18-27 | The caller's alarm is stamped in place either way. A store error is returned and no callback runs. Otherwise the alarm takes the stored id and every callback is invoked once with it, in registration order. |
| AlarmMgr.RegisterThenUpsert | alarm/mgr.go:18-31 | Callbacks registered before an upsert are invoked in order with the active alarm as stored. |
| Strconv.WrapInt64 | device/mgr.go:157 | The counter wraps into the `int64` range and is unchanged inside it. |
| Strconv.ParseInt | cmd/iotacli/cmds/devices.go:174 | An accepted integer lies in the `int64` range, and its text holds a decimal digit. |
| Strconv.ParseFormatInt | device/mgr.go:157 | Formatting then parsing an `int64` gives it back. |
| Strconv.FormatIntInjective | device/mgr.go:157 | Distinct request numbers format differently. |
| Strconv.ParseBool | cmd/iotacli/cmds/devices.go:171 | Only texts of one to five characters are accepted as a bool. |
| Strconv.ParseFormatBool | cmd/iotacli/cmds/devices.go:171 | The formatted bools are read back. |
| Strconv.ParseBoolThenInt | cmd/iotacli/cmds/devices.go:171-176 | A string read as a bool is read as an integer only when it is "1" or "0". |
| Base64.Encode | mqtt/mosquitto/go-auth.go:71 | The standard padded encoding has four characters per started group of three bytes. |
| Base64.DecodeEncode | auth/userdb/file/file.go:98-108 | Decoding an encoding gives the bytes back. |
| Base64.DecodeGroupsEncode | auth/userdb/file/file.go:98-108 | The groups of an encoding decode to the bytes encoded. |
| Base64.StripNewlines | auth/userdb/file/file.go:101 | Removing line breaks leaves no line break, never lengthens the input, and leaves a text without line breaks unchanged. |
| Base64.StripNewlinesAppend | auth/userdb/file/file.go:101 | Removing line breaks distributes over concatenation. |
| Base64.DecodeSkipsNewline | auth/userdb/file/file.go:101 | A `\r` or `\n` inserted anywhere leaves the decoding unchanged. |
| Base64.EncodeInjective | mqtt/mosquitto/go-auth.go:71 | Distinct secrets have distinct encodings. |
| Strings.TrimSpace | device/db.go:25 | The result is `s[i..j]` for some `i` and `j` with only Unicode white space before `i` and after `j`, and it neither starts nor ends with white space. |
| Strings.ToUpper | api/mqtt/broker.go:116 | ASCII letters are upper-cased, and the length is kept. |
| Strings.ToLower | api/server/httputils/errors.go:50 | ASCII letters are lower-cased, and the length is kept. |
| Strings.Split | mqtt/broker.go:160 | There is at least one part, and no part contains the separator. |
| Strings.SplitN | api/mqtt/broker.go:111 | There are between one and n parts. |
| Strings.SplitNAgreesWithSplit | api/mqtt/broker.go:111 | SplitN gives the first n-1 parts of Split and the join of the rest. |
| Strings.JoinSplit | mqtt/broker.go:177-180 | Joining the parts of a split gives the input back. |
| Strings.SplitJoin | mqtt/broker.go:177-180 | Splitting a join of separator-free parts gives the parts back. |
| Strings.IndexOf | pkg/rest/client.go:97 | The answer is the first occurrence of the separator, and there is none exactly when the input does not contain it. |
| Strings.TrimPrefix | pkg/rest/client.go:58 | The prefix is removed exactly when present. |
| Values.WithoutNil | device/db.go:182-188 | A record without its nil-valued fields. |
| Values.NilSplit | device/db.go:182-188 | A record is its non-nil part plus its nil keys, and nothing else. |

## Left out

- Concurrency: the mutexes, `sync.Map` and the goroutine that drains the publish queue are not modelled. Each operation is one atomic step.
- The RPC wait: subscribing to the response topic, the timeout and the returned response body are not modelled. `RPC` reports whether a response would be awaited and on which topic.
- JWT signing and verification are parameters. The manager's `sign` function stands for `CreateToken`, and token checks are the `verifyToken` and `IsDevice` predicates of the engine's handles.
- bcrypt is a record of functions. Only `HashedPasswordMatches` assumes it is ideal, through its requires.
- JSON decoding happens before the model. `ParseRPCRequest` and `RPC` receive the decoder's verdicts, and query decoding in the device service's broker is a parameter.
- `url.Parse`, query encoding and path escaping are not modelled. The REST client's query encoder is a parameter.
- MongoDB I/O, sessions and `Save` errors are not modelled. The store is a map and its operations succeed apart from the modelled errors.
- The file backend's own `NewPlugin` override is not modelled. It picks the backend for a `file://` URL at auth/userdb/file/file.go:18-51.
- Aliasing of the caller's attribute map in `Claim`, `internalApprove` and `Upsert` is not modelled. Records are values.
- IotacliDevices.Convert: `strconv.ParseFloat` is abstracted as the `isFloat` predicate. A float keeps its text instead of its binary value.
- IotacliDevices.DeviceRpc: its requires of at least two arguments stands for the flag package's minimum-argument check, which prints usage.
- HttpUtils.NewStatusError: it follows the one-argument declaration at api/server/httputils/errors.go:28. The two-argument calls at device/mgr.go:149 and api/server/router/devices/devices.go:63 do not match it (see "## Findings"), and no cause is kept. Its message is "" for any code outside the seven that `Errors.StatusText` knows.
- Errors.StatusText: only the seven codes the core puts on its error paths are named (400, 401, 403, 404, 406, 409 and 500). Go's `http.StatusText` table for the other codes belongs to the Go release, not to this repository, so the model gives "" for them. `HttpUtils.WriteError` is affected only through the message of a status error.
- UserdbFile.FileDb.GetSecret: the error for an illegal encoding is "illegal base64 data" without Go's " at input byte N" offset. The bytes Go decodes before the error are not returned.
- AuthPlugin.UnpwdCheck: from tier 3 its requires asks for a client id. The shim passes a NULL id from `mosquitto_client_id` to `strlen` unchecked (auth-plugin.c:73,85), which the model does not follow.
- DeviceMgr.Manager.InternalApprove: its coherent cache rests on `TokensSigned`, which holds while every device is stored through the manager with a `CreateToken` token and the secret does not change. A device written to the store by other means, or a secret changed under a running manager, is not modelled.
- DeviceMgr.Manager.RPC: its topics use the token from `GetToken`, which answers from the cache; that is the stored token under the same `TokensSigned` condition.
- MqttBroker.BuildRequest: `http.NewRequest` parses the path, and a bad `%` escape or a control character makes the source report the error and drop the message. The model forwards such a message.
- ApiMqttBroker.BuildRequest: the same `http.NewRequest` failure, which drops the message in the source, is not modelled.
- AlarmMgr.Manager.Upsert: the clock and the store's answer (its upserted or looked-up id, or its error) are parameters. The zero clear time is 0.
- Strings.ToUpper: only ASCII letters are case-mapped. Go's Unicode case mapping is not modelled.
- Strings.ToLower: only ASCII letters are case-mapped. Go's Unicode case mapping is not modelled.
- `NewManager`'s configuration reading (`device.autoapprove`, `device.rpcTimeout`) is not modelled. The values are constructor parameters.
- `Manager.Update` and `FindAll` are not part of this model. They are outside the claim and RPC flows.
- Logging, standard error output and `Close` of the MQTT client are not modelled.
- The Mosquitto client library is not modelled. A publish is recorded in the broker's `published` list.

## Findings

| source | as written | input that shows it | evidently intended | confidence | as-written member | corrected member |
|---|---|---|---|---|---|---|
| mqtt/mosquitto/auth-plugin.c:69 | Before plugin version 3, the credential check declares a parameter `usernamae` but reads `username`. | Any build with `MOSQ_AUTH_PLUGIN_VERSION` below 3: `username` is unbound, so the shim does not compile. | The parameter is named `username`, as in the tier-3 signature. | not executed | AuthPlugin.LegacyUnpwdUnbound | AuthPlugin.LegacyUnpwdBound |
| device/mgr.go:149 | `RPC` calls `httputils.NewStatusError(http.StatusBadRequest, err)`, but api/server/httputils/errors.go:28 declares `NewStatusError(code int)`; api/server/router/devices/devices.go:63 does the same. | Any build of the device package: the call has one argument too many, so it does not compile. | A bad request is the status error for 400, as the one-argument form gives. | not executed | HttpUtils.BadRequestCallsMismatch | HttpUtils.BadRequestError |
