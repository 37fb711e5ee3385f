/** The MQTT broker client of the device service. Devices publish on
    `api/<ver>/<token>/<path>[/request/<id>]`; each message becomes a request
    to the HTTP API, and the answer to a GET request is published on
    `<token>/<path>/response/<id>`. The HTTP router is known only through the
    response body it produces for a request. */
module MqttBroker {
  import opened Wrappers
  import opened Strings
  import Strconv
  import Topics
  import opened Values

  /** The server used when no `mqtt.url` option is set. */
  const DefaultServer: string := "tcp://127.0.0.1:1883"

  /** The options the MQTT client is created with. */
  datatype ClientOptions = ClientOptions(server: string, clientId: string, username: string, password: string)

  /** The `mqtt.qos` option: a decimal integer (as `strconv.Atoi` reads it)
      between 0 and 2; `None` when the option is present but unusable. */
  function ParseQos(opt: string): (q: Option<int>)
    requires opt != ""
    ensures q.Some? ==> 0 <= q.value <= 2
    ensures q.Some? <==> Strconv.ParseInt(opt).Some? && 0 <= Strconv.ParseInt(opt).value <= 2
  {
    match Strconv.ParseInt(opt)
    case None => None
    case Some(v) => if 0 <= v <= 2 then Some(v) else None
  }

  /** Every level the broker supports is read back from its decimal form. */
  lemma ParseQosFormatted(q: int)
    requires 0 <= q <= 2
    ensures ParseQos(Strconv.FormatInt(q)) == Some(q)
  {
    Strconv.ParseFormatInt(q);
  }

  /** What was configured, with the fallbacks applied: the server, and the
      client id, which is the hex form of 16 random bytes when not set. */
  function Options(url: string, clientId: string, randomId: string, username: string, password: string): (o: ClientOptions)
    ensures o.server == if url == "" then DefaultServer else url
    ensures o.clientId == if clientId == "" then randomId else clientId
    ensures o.username == username && o.password == password
  {
    ClientOptions(if url == "" then DefaultServer else url,
                  if clientId == "" then randomId else clientId,
                  username, password)
  }

  /** The parts of a request topic. */
  datatype Route = Route(version: string, token: string, verb: string, path: string, requestId: string)
  {
    /** The request URI. */
    function ApiPath(): string {
      "/api/" + version + "/" + path
    }

    /** Where the answer to a GET request is published; it has no
        `api/<ver>` prefix. */
    function ResponseTopic(): string {
      token + "/" + path + "/response/" + requestId
    }
  }

  /** `serveMQTT`'s parse: a topic of fewer than four levels is dropped;
      `api/<ver>/me/claim` is a claim without a token; six or more levels
      with `request` as the last but one are a GET; anything else a POST. */
  function ParseTopic(topic: string): (r: Option<Route>)
    ensures r.None? <==> |Split(topic, '/')| < 4
    ensures r.Some? ==> r.value.verb == "GET" || r.value.verb == "POST"
    ensures r.Some? && r.value.verb == "POST" ==> r.value.requestId == ""
  {
    var sp := Split(topic, '/');
    if |sp| < 4 then None
    else if |sp| == 4 && sp[2] == "me" && sp[3] == "claim" then
      Some(Route(sp[1], "", "POST", "me/claim", ""))
    else if |sp| >= 6 && sp[|sp| - 2] == "request" then
      Some(Route(sp[1], sp[2], "GET", Join(sp[3..|sp| - 2], '/'), sp[|sp| - 1]))
    else
      Some(Route(sp[1], sp[2], "POST", Join(sp[3..], '/'), ""))
  }

  /** The headers a forwarded request carries: `Authorization` with the bearer
      token (section 2.1 of RFC 6750) when there is one to send, and a JSON
      `Content-Type` on POST. */
  function Header(auth: Option<string>, verb: string): (h: map<string, string>)
    ensures "Authorization" in h <==> auth.Some?
    ensures auth.Some? ==> h["Authorization"] == "bearer " + auth.value
    ensures "Content-Type" in h <==> verb == "POST"
    ensures "Content-Type" in h ==> h["Content-Type"] == "application/json"
    ensures h.Keys <= {"Authorization", "Content-Type"}
  {
    var h: map<string, string> := if auth.Some? then map["Authorization" := "bearer " + auth.value] else map[];
    if verb == "POST" then h["Content-Type" := "application/json"] else h
  }

  /** A request handed to the HTTP router. */
  datatype Request = Request(verb: string, uri: string, query: map<string, string>, body: seq<Byte>, header: map<string, string>)

  /** The HTTP router: the response body it writes for a request. */
  datatype Router = Router(serve: Request -> seq<Byte>)

  /** A message handed to the MQTT client for publishing. */
  datatype Publication = Publication(topic: string, qos: int, payload: seq<Byte>)

  /** The request built for a route. A GET takes its query parameters from a
      non-empty payload, which must decode as a JSON object of strings, or the
      message is dropped; a POST takes the payload as its body. */
  function BuildRequest(route: Route, payload: seq<Byte>, decodeQuery: seq<Byte> -> Option<map<string, string>>): (r: Option<Request>)
    ensures r.Some? ==> r.value.verb == route.verb && r.value.uri == route.ApiPath()
    ensures r.Some? ==> r.value.header == Header(if route.token != "" then Some(route.token) else None, route.verb)
    ensures route.verb != "GET" ==> r.Some? && r.value.body == payload && r.value.query == map[]
    ensures route.verb == "GET" && payload == [] ==> r.Some? && r.value.query == map[] && r.value.body == []
    ensures route.verb == "GET" && payload != [] ==>
              (r.None? <==> decodeQuery(payload).None?) &&
              (r.Some? ==> r.value.query == decodeQuery(payload).value && r.value.body == [])
  {
    var header := Header(if route.token != "" then Some(route.token) else None, route.verb);
    if route.verb == "GET" then
      if payload == [] then Some(Request("GET", route.ApiPath(), map[], [], header))
      else match decodeQuery(payload)
        case None => None
        case Some(q) => Some(Request("GET", route.ApiPath(), q, [], header))
    else Some(Request(route.verb, route.ApiPath(), map[], payload, header))
  }

  /** The outcome of `Forward`. */
  datatype ForwardOutcome = Forwarded | SubscribeFailed | Panicked

  class Broker {
    var qos: int
    var mux: Option<Router>
    /** The messages handed to the publish queue, in order. */
    var published: seq<Publication>

    /** `qos` holds a valid MQTT level. */
    predicate Valid()
      reads this
    {
      0 <= qos <= 2
    }

    constructor ()
      ensures Valid() && qos == 0 && mux.None? && published == []
    {
      qos, mux, published := 0, None, [];
    }

    /** `configure`: reads the options, keeps the previous QoS and reports a
        warning when the `qos` option is present but not a level 0..2. */
    method Configure(url: string, qosOpt: string, clientId: string, randomId: string, username: string, password: string)
      returns (opts: ClientOptions, warned: bool)
      requires Valid()
      modifies this
      ensures Valid()
      ensures opts == Options(url, clientId, randomId, username, password)
      ensures warned <==> qosOpt != "" && ParseQos(qosOpt).None?
      ensures qos == if qosOpt != "" && ParseQos(qosOpt).Some? then ParseQos(qosOpt).value else old(qos)
      ensures mux == old(mux) && published == old(published)
    {
      warned := false;
      if qosOpt != "" {
        var q := ParseQos(qosOpt);
        if q.None? {
          warned := true;
        } else {
          qos := q.value;
        }
      }
      opts := Options(url, clientId, randomId, username, password);
    }

    /** `Publish` of a byte payload: queues it with the configured QoS. */
    method Publish(topic: string, payload: seq<Byte>)
      modifies this
      ensures published == old(published) + [Publication(topic, qos, payload)]
      ensures qos == old(qos) && mux == old(mux)
    {
      published := published + [Publication(topic, qos, payload)];
    }

    /** `Forward`: installs the router and subscribes to `api/+/+/#`. A second
        call panics; a failed subscription uninstalls the router again. */
    method Forward(router: Router, subscribeOk: bool) returns (r: ForwardOutcome)
      modifies this
      ensures old(mux).Some? ==> r == Panicked && mux == old(mux)
      ensures old(mux).None? && subscribeOk ==> r == Forwarded && mux == Some(router)
      ensures old(mux).None? && !subscribeOk ==> r == SubscribeFailed && mux.None?
      ensures qos == old(qos) && published == old(published)
    {
      if mux.Some? {
        return Panicked;
      }
      mux := Some(router);
      if !subscribeOk {
        mux := None;
        return SubscribeFailed;
      }
      return Forwarded;
    }

    /** `serveMQTT`: forwards a message to the router and, for a GET,
        publishes the response body on the response topic. */
    method ServeMQTT(topic: string, payload: seq<Byte>, decodeQuery: seq<Byte> -> Option<map<string, string>>)
      returns (req: Option<Request>)
      requires mux.Some?
      modifies this
      ensures req == match ParseTopic(topic)
                     case None => None
                     case Some(route) => BuildRequest(route, payload, decodeQuery)
      ensures req.Some? && req.value.verb == "GET" ==>
                ParseTopic(topic).Some? && mux.Some? &&
                published == old(published) + [Publication(ParseTopic(topic).value.ResponseTopic(), qos, mux.value.serve(req.value))]
      ensures !(req.Some? && req.value.verb == "GET") ==> published == old(published)
      ensures qos == old(qos) && mux == old(mux)
    {
      var route := ParseTopic(topic);
      if route.None? {
        return None;
      }
      req := BuildRequest(route.value, payload, decodeQuery);
      if req.None? {
        return;
      }
      var body := mux.value.serve(req.value);
      if route.value.verb == "GET" {
        Publish(route.value.ResponseTopic(), body);
      }
    }
  }

  /** The topic levels of `api/<v>/<tail>`. */
  lemma ApiLevels(v: string, tail: string)
    requires '/' !in v
    ensures Split("api/" + v + "/" + tail, '/') == ["api", v] + Split(tail, '/')
  {
    assert "api/" + v + "/" + tail == "api" + ['/'] + (v + ['/'] + tail);
    SplitCons("api", '/', v + ['/'] + tail);
    SplitCons(v, '/', tail);
  }

  /** The levels of `<a>/<b>`. */
  lemma TwoLevels(a: string, b: string)
    requires '/' !in a && '/' !in b
    ensures Split(a + "/" + b, '/') == [a, b]
  {
    SplitCons(a, '/', b);
    SplitNoSep(b, '/');
  }

  /** The levels of `<tok>/<path>/request/<id>`. */
  lemma RequestLevels(tok: string, path: string, id: string)
    requires '/' !in tok && '/' !in id
    ensures Split(tok + "/" + path + "/request/" + id, '/') == [tok] + Split(path, '/') + ["request", id]
  {
    assert tok + "/" + path + "/request/" + id == tok + ['/'] + (path + ['/'] + ("request" + ['/'] + id));
    SplitCons(tok, '/', path + ['/'] + ("request" + ['/'] + id));
    SplitConcat(path, '/', "request" + ['/'] + id);
    SplitCons("request", '/', id);
    SplitNoSep(id, '/');
  }

  /** `api/<v>/me/claim` is a token-less POST to `/api/<v>/me/claim`. */
  lemma ClaimRoute(v: string)
    requires '/' !in v
    ensures ParseTopic("api/" + v + "/me/claim") == Some(Route(v, "", "POST", "me/claim", ""))
    ensures "Authorization" !in BuildRequest(Route(v, "", "POST", "me/claim", ""), [], _ => None).value.header
  {
    ClaimLevels(v);
    ClaimBranch("api/" + v + "/me/claim");
  }

  lemma ClaimLevels(v: string)
    requires '/' !in v
    ensures Split("api/" + v + "/me/claim", '/') == ["api", v, "me", "claim"]
  {
    assert "api/" + v + "/me/claim" == "api/" + v + "/" + ("me" + "/" + "claim");
    ApiLevels(v, "me" + "/" + "claim");
    TwoLevels("me", "claim");
  }

  /** The claim branch of `ParseTopic`. */
  lemma ClaimBranch(topic: string)
    requires var sp := Split(topic, '/');
      |sp| == 4 && sp[2] == "me" && sp[3] == "claim"
    ensures ParseTopic(topic) == Some(Route(Split(topic, '/')[1], "", "POST", "me/claim", ""))
  {
  }

  /** A topic ending in `/request/<id>` with at least one path level is a GET
      for that path, and its answer goes to `<tok>/<path>/response/<id>`. */
  lemma GetRoute(v: string, tok: string, path: string, id: string)
    requires '/' !in v && '/' !in tok && '/' !in id
    ensures ParseTopic("api/" + v + "/" + tok + "/" + path + "/request/" + id) == Some(Route(v, tok, "GET", path, id))
    ensures Route(v, tok, "GET", path, id).ResponseTopic() == tok + "/" + path + "/response/" + id
  {
    var tail := tok + "/" + path + "/request/" + id;
    assert "api/" + v + "/" + tok + "/" + path + "/request/" + id == "api/" + v + "/" + tail;
    ApiLevels(v, tail);
    RequestLevels(tok, path, id);
    var p := Split(path, '/');
    var sp := ["api", v] + ([tok] + p + ["request", id]);
    assert sp[3..|sp| - 2] == p;
    JoinSplit(path, '/');
  }

  /** Whether the levels of a path end in `request/<id>` after at least one
      level, which would make the topic a GET. */
  predicate EndsInRequest(path: string) {
    var p := Split(path, '/');
    |p| >= 3 && p[|p| - 2] == "request"
  }

  /** Any other topic with a token is a POST of the whole path. */
  lemma PostRoute(v: string, tok: string, path: string)
    requires '/' !in v && '/' !in tok
    requires !(tok == "me" && path == "claim") && !EndsInRequest(path)
    ensures ParseTopic("api/" + v + "/" + tok + "/" + path) == Some(Route(v, tok, "POST", path, ""))
  {
    var topic := "api/" + v + "/" + tok + "/" + path;
    TokenPathLevels(v, tok, path);
    var p := Split(path, '/');
    var sp := Split(topic, '/');
    PostLevels(sp, v, tok, p);
    NotClaimPath(tok, path);
    JoinSplit(path, '/');
    PostBranch(topic);
  }

  /** The levels of `api/<v>/<tok>/<path>`. */
  lemma TokenPathLevels(v: string, tok: string, path: string)
    requires '/' !in v && '/' !in tok
    ensures Split("api/" + v + "/" + tok + "/" + path, '/') == ["api", v] + ([tok] + Split(path, '/'))
  {
    assert "api/" + v + "/" + tok + "/" + path == "api/" + v + "/" + (tok + "/" + path);
    ApiLevels(v, tok + "/" + path);
    SplitCons(tok, '/', path);
  }

  /** A path that splits into the single level `claim` is `claim` itself. */
  lemma NotClaimPath(tok: string, path: string)
    requires !(tok == "me" && path == "claim")
    ensures var p := Split(path, '/'); !(tok == "me" && |p| == 1 && p[0] == "claim")
  {
    var p := Split(path, '/');
    if |p| == 1 && p[0] == "claim" {
      JoinSplit(path, '/');
    }
  }

  /** The POST branch of `ParseTopic`. */
  lemma PostBranch(topic: string)
    requires var sp := Split(topic, '/');
      |sp| >= 4 && !(|sp| == 4 && sp[2] == "me" && sp[3] == "claim") && !(|sp| >= 6 && sp[|sp| - 2] == "request")
    ensures var sp := Split(topic, '/');
      ParseTopic(topic) == Some(Route(sp[1], sp[2], "POST", Join(sp[3..], '/'), ""))
  {
  }

  /** The branch `ParseTopic` takes on the levels of `api/<v>/<tok>/<path>`. */
  lemma PostLevels(sp: seq<string>, v: string, tok: string, p: seq<string>)
    requires sp == ["api", v] + ([tok] + p) && |p| >= 1
    ensures |sp| >= 4 && sp[1] == v && sp[2] == tok && sp[3..] == p
    ensures |sp| == 4 <==> |p| == 1
    ensures |sp| == 4 ==> sp[3] == p[0]
    ensures |sp| >= 6 <==> |p| >= 3
    ensures |sp| >= 6 ==> sp[|sp| - 2] == p[|p| - 2]
  {
  }

  /** `api/<v>/<tok>/me/attributes` (such as `api/v1/XXX/me/attributes`) is
      forwarded as a POST to `/api/<v>/me/attributes`, without the token. */
  lemma AttributesPost(v: string, tok: string)
    requires '/' !in v && '/' !in tok
    ensures var r := ParseTopic("api/" + v + "/" + tok + "/me/attributes");
            r.Some? && r.value.verb == "POST" && r.value.ApiPath() == "/api/" + v + "/me/attributes"
  {
    assert "/me/attributes" == "/" + ("me" + "/" + "attributes");
    assert "api/" + v + "/" + tok + "/me/attributes" == "api/" + v + "/" + tok + "/" + ("me" + "/" + "attributes");
    TwoLevelPost(v, tok, "me", "attributes");
  }

  /** A two-level path after the token is always a POST. */
  lemma TwoLevelPost(v: string, tok: string, a: string, b: string)
    requires '/' !in v && '/' !in tok && '/' !in a && '/' !in b
    ensures ParseTopic("api/" + v + "/" + tok + "/" + (a + "/" + b)) == Some(Route(v, tok, "POST", a + "/" + b, ""))
  {
    TwoLevels(a, b);
    assert !EndsInRequest(a + "/" + b);
    assert '/' in a + "/" + b by { assert (a + "/" + b)[|a|] == '/'; }
    assert '/' !in "claim";
    PostRoute(v, tok, a + "/" + b);
  }

  /** A device that sends `api/<v>/<tok>/me/<rest>/request/<id>` gets the
      answer on a topic the auth plugin lets that same device read: both the
      request and the response topic match the plugin's patterns with the
      device's token. */
  lemma DeviceGetExchange(v: string, tok: string, rest: string, id: string)
    requires Topics.IsVersion(v) && Topics.IsLevel(tok) && Topics.IsLine(rest) && Topics.IsLevel(id) && Topics.IsLine(id)
    ensures var topic := Topics.ApiRequestText(v, tok, "me/" + rest + "/request/" + id);
            var route := Route(v, tok, "GET", "me/" + rest, id);
            ParseTopic(topic) == Some(route) &&
            Topics.ApiRequestToken(topic) == Some(tok) &&
            Topics.ApiResponseToken(route.ResponseTopic()) == Some(tok)
  {
    Topics.VersionIsLevel(v);
    var path := "me/" + rest;
    assert Topics.ApiRequestText(v, tok, "me/" + rest + "/request/" + id) == "api/" + v + "/" + tok + "/" + path + "/request/" + id;
    GetRoute(v, tok, path, id);
    Topics.ApiRequestComplete(v, tok, "me/" + rest + "/request/" + id);
    assert Route(v, tok, "GET", path, id).ResponseTopic() == Topics.ApiResponseText(tok, rest + "/response/" + id);
    Topics.ApiResponseComplete(tok, rest + "/response/" + id);
  }

  /** Once forwarded, a broker panics on a second `Forward` and keeps its
      router. */
  method ForwardTwice(b: Broker, first: Router, second: Router)
    requires b.mux.None?
    modifies b
    ensures b.mux == Some(first)
  {
    var r1 := b.Forward(first, true);
    assert r1 == Forwarded;
    var r2 := b.Forward(second, true);
    assert r2 == Panicked;
  }
}
