/** The MQTT topic patterns of the Mosquitto auth plugin. Each anchored
    regular expression of the plugin is stated twice: as the text it matches
    (a concatenation of literal pieces and constrained variable pieces) and as
    a predicate over the topic's `/`-separated levels (section 4.7 of MQTT
    3.1.1). The lemmas prove the two agree in both directions. */
module Topics {
  import opened Wrappers
  import opened Strings

  /** Access levels passed by the broker to the ACL check. */
  const AclRead: int := 1
  const AclWrite: int := 2
  const AclSubscribe: int := 4

  /** The levels of a topic. */
  function Levels(topic: string): (sp: seq<string>)
    ensures |sp| >= 1
  {
    Split(topic, '/')
  }

  /** `[^/]+`: one non-empty topic level. */
  predicate IsLevel(s: string) {
    s != "" && '/' !in s
  }

  /** `.+`: a non-empty run of characters other than a newline. */
  predicate IsLine(s: string) {
    s != "" && '\n' !in s
  }

  /** `v[0-9.]+`: an API version level such as `v1` or `v1.2`. */
  predicate IsVersion(v: string) {
    |v| >= 2 && v[0] == 'v' && forall i | 1 <= i < |v| :: '0' <= v[i] <= '9' || v[i] == '.'
  }

  lemma VersionIsLevel(v: string)
    requires IsVersion(v)
    ensures IsLevel(v)
  {
    if '/' in v {
      var i :| 0 <= i < |v| && v[i] == '/';
    }
  }

  /** The texts the four patterns match. */
  function ClaimRequestText(v: string): string { "api/" + v + "/me/claim" }
  function ClaimResponseText(id: string): string { "me/claim/" + id }
  function ApiRequestText(v: string, tok: string, rest: string): string { "api/" + v + "/" + tok + "/" + rest }
  function ApiResponseText(tok: string, rest: string): string { tok + "/me/" + rest }

  /** `^api/v[0-9.]+/me/claim$`. */
  predicate IsClaimRequest(topic: string) {
    var sp := Levels(topic);
    |sp| == 4 && sp[0] == "api" && IsVersion(sp[1]) && sp[2] == "me" && sp[3] == "claim"
  }

  /** The submatch of `^me/claim/([^/]+)$`, if the topic matches. */
  function ClaimResponseId(topic: string): (r: Option<string>)
    ensures r.Some? ==> IsLevel(r.value)
  {
    var sp := Levels(topic);
    if |sp| == 3 && sp[0] == "me" && sp[1] == "claim" && sp[2] != "" then Some(sp[2]) else None
  }

  /** The submatch of `^api/v[0-9.]+/([^/]+)/.+$`, if the topic matches. */
  function ApiRequestToken(topic: string): (r: Option<string>)
    ensures r.Some? ==> IsLevel(r.value)
  {
    var sp := Levels(topic);
    if |sp| >= 4 && sp[0] == "api" && IsVersion(sp[1]) && sp[2] != "" && IsLine(Join(sp[3..], '/'))
    then Some(sp[2]) else None
  }

  /** The submatch of `^([^/]+)/me/.+$`, if the topic matches. */
  function ApiResponseToken(topic: string): (r: Option<string>)
    ensures r.Some? ==> IsLevel(r.value)
  {
    var sp := Levels(topic);
    if |sp| >= 3 && sp[0] != "" && sp[1] == "me" && IsLine(Join(sp[2..], '/'))
    then Some(sp[0]) else None
  }

  /** Splitting off a first level. */
  lemma LevelsCons(a: string, t: string)
    requires '/' !in a
    ensures Levels(a + "/" + t) == [a] + Levels(t)
  {
    SplitCons(a, '/', t);
  }

  /** Joining the levels of a topic whose first level is known. */
  lemma JoinFirst(sp: seq<string>)
    requires |sp| >= 2
    ensures Join(sp, '/') == sp[0] + "/" + Join(sp[1..], '/')
  {
    JoinCons(sp[0], sp[1..], '/');
    assert [sp[0]] + sp[1..] == sp;
  }

  lemma ClaimRequestSound(topic: string)
    requires IsClaimRequest(topic)
    ensures exists v :: IsVersion(v) && topic == ClaimRequestText(v)
  {
    var sp := Levels(topic);
    JoinSplit(topic, '/');
    JoinFirst(sp);
    JoinFirst(sp[1..]);
    JoinFirst(sp[2..]);
    assert sp[3..] == ["claim"];
    assert topic == ClaimRequestText(sp[1]);
  }

  lemma ClaimRequestComplete(v: string)
    requires IsVersion(v)
    ensures IsClaimRequest(ClaimRequestText(v))
  {
    VersionIsLevel(v);
    var topic := ClaimRequestText(v);
    assert topic == "api" + "/" + (v + "/" + ("me" + "/" + "claim"));
    LevelsCons("api", v + "/" + ("me" + "/" + "claim"));
    LevelsCons(v, "me" + "/" + "claim");
    LevelsCons("me", "claim");
    SplitNoSep("claim", '/');
  }

  lemma ClaimResponseSound(topic: string)
    requires ClaimResponseId(topic).Some?
    ensures topic == ClaimResponseText(ClaimResponseId(topic).value)
  {
    var sp := Levels(topic);
    JoinSplit(topic, '/');
    JoinFirst(sp);
    JoinFirst(sp[1..]);
    assert sp[2..] == [sp[2]];
  }

  lemma ClaimResponseComplete(id: string)
    requires IsLevel(id)
    ensures ClaimResponseId(ClaimResponseText(id)) == Some(id)
  {
    var topic := ClaimResponseText(id);
    assert topic == "me" + "/" + ("claim" + "/" + id);
    LevelsCons("me", "claim" + "/" + id);
    LevelsCons("claim", id);
    SplitNoSep(id, '/');
  }

  lemma ApiRequestSound(topic: string)
    requires ApiRequestToken(topic).Some?
    ensures exists v, rest ::
              IsVersion(v) && IsLine(rest) && topic == ApiRequestText(v, ApiRequestToken(topic).value, rest)
  {
    var sp := Levels(topic);
    JoinSplit(topic, '/');
    JoinFirst(sp);
    JoinFirst(sp[1..]);
    JoinFirst(sp[2..]);
    assert sp[1..][1..][1..] == sp[3..];
    assert topic == ApiRequestText(sp[1], sp[2], Join(sp[3..], '/'));
  }

  lemma ApiRequestComplete(v: string, tok: string, rest: string)
    requires IsVersion(v) && IsLevel(tok) && IsLine(rest)
    ensures ApiRequestToken(ApiRequestText(v, tok, rest)) == Some(tok)
  {
    VersionIsLevel(v);
    var topic := ApiRequestText(v, tok, rest);
    assert topic == "api" + "/" + (v + "/" + (tok + "/" + rest));
    LevelsCons("api", v + "/" + (tok + "/" + rest));
    LevelsCons(v, tok + "/" + rest);
    LevelsCons(tok, rest);
    JoinSplit(rest, '/');
    assert Levels(topic)[3..] == Levels(rest);
  }

  lemma ApiResponseSound(topic: string)
    requires ApiResponseToken(topic).Some?
    ensures exists rest :: IsLine(rest) && topic == ApiResponseText(ApiResponseToken(topic).value, rest)
  {
    var sp := Levels(topic);
    JoinSplit(topic, '/');
    JoinFirst(sp);
    JoinFirst(sp[1..]);
    assert sp[1..][1..] == sp[2..];
    assert topic == ApiResponseText(sp[0], Join(sp[2..], '/'));
  }

  lemma ApiResponseComplete(tok: string, rest: string)
    requires IsLevel(tok) && IsLine(rest)
    ensures ApiResponseToken(ApiResponseText(tok, rest)) == Some(tok)
  {
    var topic := ApiResponseText(tok, rest);
    assert topic == tok + "/" + ("me" + "/" + rest);
    LevelsCons(tok, "me" + "/" + rest);
    LevelsCons("me", rest);
    JoinSplit(rest, '/');
    assert Levels(topic)[2..] == Levels(rest);
  }
}
