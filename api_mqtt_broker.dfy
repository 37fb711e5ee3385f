/** The MQTT broker client of the API server. A device publishes on
    `api/<ver>/<token>/<verb>/<path>`; the message becomes a request with that
    HTTP method to `/api/<ver>/<path>`, and the router's answer is discarded.
    The options and QoS rule are those of the device service's broker. */
module ApiMqttBroker {
  import opened Wrappers
  import opened Strings
  import MqttBroker
  import Values

  /** The parts of a request topic; `verb` is already upper-cased. */
  datatype Route = Route(version: string, token: string, verb: string, path: string)
  {
    /** The request URI. */
    function Uri(): string {
      "/api/" + version + "/" + path
    }
  }

  /** `serveMQTT`'s parse: at most five `/`-separated parts, the last one
      keeping its inner slashes; fewer than five parts are dropped. */
  function ParseTopic(topic: string): (r: Option<Route>)
    ensures r.None? <==> |Split(topic, '/')| < 5
    ensures r.Some? ==> r.value.verb == ToUpper(Split(topic, '/')[3])
  {
    var sp := SplitN(topic, '/', 5);
    SplitNAgreesWithSplit(topic, '/', 5);
    if |sp| != 5 then None
    else Some(Route(sp[1], sp[2], ToUpper(sp[3]), sp[4]))
  }

  /** A character of an HTTP token (`tchar`, section 3.2.6 of RFC 7230). */
  predicate IsTokenChar(c: char) {
    ('a' <= c <= 'z') || ('A' <= c <= 'Z') || ('0' <= c <= '9') ||
    c in "!#$%&'*+-.^_`|~"
  }

  /** The method `http.NewRequest` settles on: "" stands for GET, anything
      else must be a token; `None` is the error for an invalid method. */
  function RequestMethod(verb: string): (m: Option<string>)
    ensures verb == "" ==> m == Some("GET")
    ensures verb != "" ==> (m.Some? <==> forall i | 0 <= i < |verb| :: IsTokenChar(verb[i]))
    ensures m.Some? && verb != "" ==> m.value == verb
  {
    if verb == "" then Some("GET")
    else if forall i | 0 <= i < |verb| :: IsTokenChar(verb[i]) then Some(verb)
    else None
  }

  /** The request built for a route: the payload is the body, the bearer
      token is always sent, even an empty one, and the JSON content type only
      when the verb is POST. */
  function BuildRequest(route: Route, payload: seq<Values.Byte>): (r: Option<MqttBroker.Request>)
    ensures r.None? <==> RequestMethod(route.verb).None?
    ensures r.Some? ==>
              r.value.verb == RequestMethod(route.verb).value && r.value.uri == route.Uri() &&
              r.value.body == payload && r.value.query == map[] &&
              r.value.header == MqttBroker.Header(Some(route.token), route.verb)
  {
    match RequestMethod(route.verb)
    case None => None
    case Some(m) => Some(MqttBroker.Request(m, route.Uri(), map[], payload, MqttBroker.Header(Some(route.token), route.verb)))
  }

  class Broker {
    var qos: int
    /** The requests handed to the router, in order. */
    var served: seq<MqttBroker.Request>

    predicate Valid()
      reads this
    {
      0 <= qos <= 2
    }

    constructor ()
      ensures Valid() && qos == 0 && served == []
    {
      qos, served := 0, [];
    }

    /** `configure`: the `url`, `user`, `password`, `clientId` and `qos`
        options, with the same fallbacks and QoS rule as the device service's
        broker. */
    method Configure(url: string, user: string, password: string, clientId: string, randomId: string, qosOpt: string)
      returns (opts: MqttBroker.ClientOptions, warned: bool)
      requires Valid()
      modifies this
      ensures Valid()
      ensures opts == MqttBroker.Options(url, clientId, randomId, user, password)
      ensures warned <==> qosOpt != "" && MqttBroker.ParseQos(qosOpt).None?
      ensures qos == if qosOpt != "" && MqttBroker.ParseQos(qosOpt).Some? then MqttBroker.ParseQos(qosOpt).value else old(qos)
      ensures served == old(served)
    {
      opts := MqttBroker.Options(url, clientId, randomId, user, password);
      warned := false;
      if qosOpt != "" {
        var q := MqttBroker.ParseQos(qosOpt);
        if q.None? {
          warned := true;
        } else {
          qos := q.value;
        }
      }
    }

    /** `serveMQTT`: hands the request for a well-formed topic to the router. */
    method ServeMQTT(topic: string, payload: seq<Values.Byte>) returns (req: Option<MqttBroker.Request>)
      modifies this
      ensures req == match ParseTopic(topic)
                     case None => None
                     case Some(route) => BuildRequest(route, payload)
      ensures served == old(served) + (if req.Some? then [req.value] else [])
      ensures qos == old(qos)
    {
      var route := ParseTopic(topic);
      if route.None? {
        return None;
      }
      req := BuildRequest(route.value, payload);
      if req.Some? {
        served := served + [req.value];
      }
    }
  }

  /** The topic `<a>/<v>/<tok>/<verb>/<path>` is read part by part, and the
      path keeps any slashes it holds. */
  lemma TopicRoute(a: string, v: string, tok: string, verb: string, path: string)
    requires '/' !in a && '/' !in v && '/' !in tok && '/' !in verb
    ensures ParseTopic(a + "/" + v + "/" + tok + "/" + verb + "/" + path) == Some(Route(v, tok, ToUpper(verb), path))
  {
    var topic := a + "/" + v + "/" + tok + "/" + verb + "/" + path;
    assert topic == a + ['/'] + (v + ['/'] + (tok + ['/'] + (verb + ['/'] + path)));
    SplitCons(a, '/', v + ['/'] + (tok + ['/'] + (verb + ['/'] + path)));
    SplitCons(v, '/', tok + ['/'] + (verb + ['/'] + path));
    SplitCons(tok, '/', verb + ['/'] + path);
    SplitCons(verb, '/', path);
    var p := Split(path, '/');
    assert Split(topic, '/') == [a, v, tok, verb] + p;
    FiveParts([a, v, tok, verb], p);
    SplitNAgreesWithSplit(topic, '/', 5);
    JoinSplit(path, '/');
  }

  /** `SplitN` into five pieces of four single levels and a path. */
  lemma FiveParts(head: seq<string>, p: seq<string>)
    requires |head| == 4 && |p| >= 1
    ensures SplitNOf(head + p, '/', 5) == head + [Join(p, '/')]
  {
    var all := head + p;
    if |p| == 1 {
      assert Join(p, '/') == p[0];
      assert all == head + [p[0]];
    } else {
      assert all[..4] == head;
      assert all[4..] == p;
      assert SplitNOf(all, '/', 5) == all[..4] + [Join(all[4..], '/')];
    }
  }

  /** `api/<v>/<tok>/post/<path>`, such as `api/v1/XXX/post/me/attributes`,
      is a POST of JSON to `/api/<v>/<path>` with the device's bearer token. */
  lemma PostRequest(v: string, tok: string, path: string, payload: seq<Values.Byte>)
    requires '/' !in v && '/' !in tok
    ensures ParseTopic("api/" + v + "/" + tok + "/post/" + path) == Some(Route(v, tok, "POST", path))
    ensures var r := BuildRequest(Route(v, tok, "POST", path), payload);
            r.Some? && r.value.verb == "POST" && r.value.uri == "/api/" + v + "/" + path &&
            r.value.header["Authorization"] == "bearer " + tok &&
            r.value.header["Content-Type"] == "application/json"
  {
    assert "api/" + v + "/" + tok + "/post/" + path == "api" + "/" + v + "/" + tok + "/" + "post" + "/" + path;
    TopicRoute("api", v, tok, "post", path);
    assert ToUpper("post") == "POST";
  }

  /** Only an exact "POST" gets the JSON content type: a DELETE has none. */
  lemma DeleteHasNoContentType(v: string, tok: string, path: string)
    requires '/' !in v && '/' !in tok
    ensures ParseTopic("api/" + v + "/" + tok + "/delete/" + path) == Some(Route(v, tok, "DELETE", path))
    ensures var r := BuildRequest(Route(v, tok, "DELETE", path), []);
            r.Some? && r.value.verb == "DELETE" && "Content-Type" !in r.value.header
  {
    assert "api/" + v + "/" + tok + "/delete/" + path == "api" + "/" + v + "/" + tok + "/" + "delete" + "/" + path;
    TopicRoute("api", v, tok, "delete", path);
    assert ToUpper("delete") == "DELETE";
  }
}
