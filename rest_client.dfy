/** The REST client's request paths and host strings, and the per-client
    settings it keeps: API version and custom headers. URL parsing and query
    encoding are parameters. */
module RestClient {
  import opened Wrappers
  import opened Strings
  import opened Errors

  /** `url.Parse`'s host and path, or its error. */
  type UrlParser = string -> Result<(string, string), Error>

  /** `ParseHost`: the protocol is the text before the first "://". A unix
      socket's address is the rest, as written, with no base path; any
      other host is handed to the URL parser for its address and path. */
  function ParseHost(host: string, parse: UrlParser): (r: Result<(string, string, string), Error>)
    ensures !Contains(host, "://") ==> r == Err(Plain("unable to parse host '" + host + "'"))
    ensures Contains(host, "://") ==>
              var i := IndexOf(host, "://").value;
              var proto := host[..i];
              (proto == "unix" ==> r == Ok((proto, host[i + 3..], ""))) &&
              (proto != "unix" && parse(host).Err? ==> r == Err(parse(host).error)) &&
              (proto != "unix" && parse(host).Ok? ==> r == Ok((proto, parse(host).value.0, parse(host).value.1)))
    ensures r.Ok? ==> !Contains(r.value.0, "://") && HasPrefix(host, r.value.0 + "://")
  {
    match IndexOf(host, "://")
    case None => Err(Plain("unable to parse host '" + host + "'"))
    case Some(i) =>
      var proto, addr := host[..i], host[i + 3..];
      assert host[..i] + "://" == host[..i + 3];
      NoEarlierOccurrence(host, "://", i);
      if proto == "unix" then Ok((proto, addr, ""))
      else match parse(host)
        case Err(e) => Err(e)
        case Ok((h, p)) => Ok((proto, h, p))
  }

  /** The text before the first occurrence of `sub` does not contain it. */
  lemma NoEarlierOccurrence(s: string, sub: string, i: nat)
    requires |sub| > 0 && OccursAt(s, sub, i) && forall j :: 0 <= j < i ==> !OccursAt(s, sub, j)
    ensures !Contains(s[..i], sub)
  {
    forall j | 0 <= j <= i && OccursAt(s[..i], sub, j)
      ensures OccursAt(s, sub, j) && j < i
    {
      assert s[..i][j..j + |sub|] == s[j..j + |sub|];
    }
  }

  /** A unix socket host keeps its whole path as the address. */
  lemma UnixHost(path: string, parse: UrlParser)
    ensures ParseHost("unix://" + path, parse) == Ok(("unix", path, ""))
  {
    var host := "unix://" + path;
    assert OccursAt(host, "://", 4);
    forall j | 0 <= j < 4
      ensures !OccursAt(host, "://", j)
    {
      assert host[j] in "unix";
    }
    assert host[..4] == "unix";
    assert host[7..] == path;
  }

  /** The versioned path of a request: the base path, then `/v` and the
      version without one leading `v`, then the request path. An empty
      version adds nothing. */
  function ApiPath(basePath: string, version: string, p: string): (path: string)
    ensures version == "" ==> path == basePath + p
    ensures version != "" ==> path == basePath + "/v" + TrimPrefix(version, "v") + p
  {
    if version != "" then basePath + "/v" + TrimPrefix(version, "v") + p
    else basePath + p
  }

  /** "1" and "v1" name the same API version. */
  lemma VersionPrefixOptional(basePath: string, n: string, p: string)
    requires n != "" && !HasPrefix(n, "v")
    ensures ApiPath(basePath, "v" + n, p) == ApiPath(basePath, n, p)
  {
    assert HasPrefix("v" + n, "v");
  }

  /** Query parameters: `url.Values`. */
  type Query = map<string, seq<string>>

  class Client {
    var proto: string
    var addr: string
    var basePath: string
    var version: string
    var customHeaders: map<string, string>

    constructor (proto: string, addr: string, basePath: string, version: string, headers: map<string, string>)
      ensures this.proto == proto && this.addr == addr && this.basePath == basePath
      ensures this.version == version && customHeaders == headers
    {
      this.proto, this.addr, this.basePath := proto, addr, basePath;
      this.version, customHeaders := version, headers;
    }

    /** `getAPIPath`: the versioned path, with the encoded query only when
        there is one. Path escaping is not modelled. */
    function GetAPIPath(p: string, query: Query, encode: Query -> string): (uri: string)
      reads this
      ensures |query| == 0 ==> uri == ApiPath(basePath, version, p)
      ensures |query| > 0 ==> uri == ApiPath(basePath, version, p) + "?" + encode(query)
    {
      var path := ApiPath(basePath, version, p);
      if |query| > 0 then path + "?" + encode(query) else path
    }

    /** `ClientVersion`. */
    function ClientVersion(): (v: string)
      reads this
      ensures v == version
    {
      version
    }

    /** `UpdateClientVersion`. */
    method UpdateClientVersion(v: string)
      modifies this
      ensures version == v && ClientVersion() == v
      ensures customHeaders == old(customHeaders) && basePath == old(basePath)
      ensures proto == old(proto) && addr == old(addr)
    {
      version := v;
    }

    /** `AddCustomHeader`. */
    method AddCustomHeader(name: string, value: string)
      modifies this
      ensures customHeaders == old(customHeaders)[name := value]
      ensures version == old(version) && basePath == old(basePath)
      ensures proto == old(proto) && addr == old(addr)
    {
      customHeaders := customHeaders[name := value];
    }

    /** `RemoveCustomHeader`. */
    method RemoveCustomHeader(name: string)
      modifies this
      ensures customHeaders == old(customHeaders) - {name}
      ensures version == old(version) && basePath == old(basePath)
      ensures proto == old(proto) && addr == old(addr)
    {
      customHeaders := customHeaders - {name};
    }
  }

  /** Adding then removing a header leaves it absent and every other header
      as it was. */
  method AddThenRemove(c: Client, name: string, value: string)
    modifies c
    ensures name !in c.customHeaders
    ensures forall k | k != name :: (k in c.customHeaders <==> k in old(c.customHeaders)) &&
                                     (k in c.customHeaders ==> c.customHeaders[k] == old(c.customHeaders)[k])
  {
    c.AddCustomHeader(name, value);
    c.RemoveCustomHeader(name);
  }
}
