/** The API server's mapping from errors to HTTP status codes, and the
    status branch of its error responses. */
module HttpUtils {
  import opened Wrappers
  import opened Strings
  import opened Errors

  /** `NewStatusError`: an error carrying an HTTP status code, whose message
      is the code's status text. */
  function NewStatusError(code: int): (e: Error)
    ensures e.StatusCode() == Some(code)
    ensures e.Message() == StatusText(code)
  {
    StatusError(code)
  }

  /** The parameter list `NewStatusError` declares: a status code only. */
  function NewStatusErrorParams(): seq<string> {
    ["code"]
  }

  /** The arguments of the calls at device/mgr.go:149 and
      api/server/router/devices/devices.go:63: a status code and a cause. */
  function BadRequestCallArgs(): seq<string> {
    ["http.StatusBadRequest", "err"]
  }

  /** As written, the bad-request calls pass one argument more than
      `NewStatusError` declares, so those packages do not compile. */
  lemma BadRequestCallsMismatch()
    ensures |BadRequestCallArgs()| == |NewStatusErrorParams()| + 1
  {
  }

  /** As evidently intended, a bad request is the one-argument status error
      for 400: its code is 400 in any keyword order and its message is
      "Bad Request". The cause is dropped. */
  lemma BadRequestError(order: seq<(string, int)>)
    ensures NewStatusError(StatusBadRequest).Message() == "Bad Request"
    ensures StatusFor(Some(NewStatusError(StatusBadRequest)), order) == StatusBadRequest
  {
    StatusErrorRoundTrip(StatusBadRequest, order);
  }

  /** The message keywords that give an error without a status code its
      status. */
  const Keywords: seq<(string, int)> := [
    ("not found", StatusNotFound),
    ("no such", StatusNotFound),
    ("bad parameter", StatusBadRequest),
    ("no command", StatusBadRequest),
    ("conflict", StatusConflict),
    ("impossible", StatusNotAcceptable),
    ("wrong login/password", StatusUnauthorized),
    ("unauthorized", StatusUnauthorized),
    ("hasn't been activated", StatusForbidden)
  ]

  /** An order in which a Go map literal of the keyword table may be ranged
      over: the table's entries, each once. */
  predicate IsKeywordOrder(order: seq<(string, int)>) {
    multiset(order) == multiset(Keywords)
  }

  /** The status of the first entry, in the given order, whose keyword the
      message contains; 0 when none does. */
  function KeywordStatus(msg: string, order: seq<(string, int)>): (status: int)
    ensures status != 0 ==> exists e | e in order :: Contains(msg, e.0) && status == e.1
    ensures (forall e | e in order :: !Contains(msg, e.0)) ==> status == 0
    decreases |order|
  {
    if |order| == 0 then 0
    else if Contains(msg, order[0].0) then order[0].1
    else KeywordStatus(msg, order[1..])
  }

  /** The status code of an error, with the keyword table ranged over in
      `order`: 500 for no error and for a code or keyword status of 0. */
  function StatusFor(err: Option<Error>, order: seq<(string, int)>): int {
    if err.None? then StatusInternalServerError
    else
      var code := match err.value.StatusCode()
                  case Some(c) => c
                  case None => KeywordStatus(ToLower(err.value.Message()), order);
      if code == 0 then StatusInternalServerError else code
  }

  /** `GetHTTPErrorStatusCode`. `err` is `None` for a nil error. */
  method GetHTTPErrorStatusCode(err: Option<Error>, order: seq<(string, int)>) returns (statusCode: int)
    ensures statusCode == StatusFor(err, order)
    ensures statusCode != 0
  {
    if err.None? {
      return StatusInternalServerError;
    }
    statusCode := 0;
    match err.value.StatusCode() {
      case Some(c) =>
        statusCode := c;
      case None =>
        var errStr := ToLower(err.value.Message());
        var k := 0;
        while k < |order|
          invariant 0 <= k <= |order|
          invariant KeywordStatus(errStr, order) == KeywordStatus(errStr, order[k..])
          invariant statusCode == 0
        {
          assert order[k..][1..] == order[k + 1..];
          if Contains(errStr, order[k].0) {
            statusCode := order[k].1;
            break;
          }
          k := k + 1;
        }
    }
    if statusCode == 0 {
      statusCode := StatusInternalServerError;
    }
  }

  /** A status error gives back its code, whatever the order, unless the
      code is 0. */
  lemma StatusErrorRoundTrip(code: int, order: seq<(string, int)>)
    requires code != 0
    ensures StatusFor(Some(NewStatusError(code)), order) == code
  {
  }

  /** Without an error, or with an error that carries 0, the status is 500. */
  lemma DefaultsToServerError(code: int, order: seq<(string, int)>)
    ensures StatusFor(None, order) == StatusInternalServerError
    ensures StatusFor(Some(NewStatusError(0)), order) == StatusInternalServerError
  {
  }

  /** A message that contains no keyword maps to 500. */
  lemma NoKeywordIsServerError(msg: string, order: seq<(string, int)>)
    requires IsKeywordOrder(order)
    requires forall e | e in Keywords :: !Contains(ToLower(msg), e.0)
    ensures StatusFor(Some(Plain(msg)), order) == StatusInternalServerError
  {
    PlainStatus(msg, order);
    NoMatchInOrder(ToLower(msg), order, Keywords);
  }

  lemma NoMatchInOrder(msg: string, order: seq<(string, int)>, table: seq<(string, int)>)
    requires multiset(order) == multiset(table)
    requires forall e | e in table :: !Contains(msg, e.0)
    ensures KeywordStatus(msg, order) == 0
  {
    forall e | e in order
      ensures !Contains(msg, e.0)
    {
      InOrderedTable(order, table, e);
    }
  }

  /** A keyword status is the table's status for a keyword the message
      contains, whatever the order. */
  lemma KeywordStatusFromTable(msg: string, order: seq<(string, int)>)
    requires IsKeywordOrder(order)
    requires KeywordStatus(ToLower(msg), order) != 0
    ensures StatusFor(Some(Plain(msg)), order) == KeywordStatus(ToLower(msg), order)
    ensures exists e | e in Keywords :: Contains(ToLower(msg), e.0) && KeywordStatus(ToLower(msg), order) == e.1
  {
    PlainStatus(msg, order);
    MatchFromTable(ToLower(msg), order, Keywords);
  }

  /** An error without a status code gets the keyword status, or 500 when
      no keyword matches. */
  lemma PlainStatus(msg: string, order: seq<(string, int)>)
    ensures var k := KeywordStatus(ToLower(msg), order);
            StatusFor(Some(Plain(msg)), order) == if k == 0 then StatusInternalServerError else k
  {
  }

  lemma MatchFromTable(msg: string, order: seq<(string, int)>, table: seq<(string, int)>)
    requires multiset(order) == multiset(table)
    requires KeywordStatus(msg, order) != 0
    ensures exists e | e in table :: Contains(msg, e.0) && KeywordStatus(msg, order) == e.1
  {
    var e :| e in order && Contains(msg, e.0) && KeywordStatus(msg, order) == e.1;
    InOrderedTable(order, table, e);
  }

  /** When exactly one keyword matches, the order does not matter. */
  lemma SingleKeywordAnyOrder(msg: string, order: seq<(string, int)>, i: int)
    requires IsKeywordOrder(order)
    requires 0 <= i < |Keywords| && Contains(msg, Keywords[i].0)
    requires forall j | 0 <= j < |Keywords| && j != i :: !Contains(msg, Keywords[j].0)
    ensures KeywordStatus(msg, order) == Keywords[i].1
  {
    SingleMatchAnyOrder(msg, order, Keywords, i);
  }

  lemma SingleMatchAnyOrder(msg: string, order: seq<(string, int)>, table: seq<(string, int)>, i: int)
    requires multiset(order) == multiset(table)
    requires 0 <= i < |table| && Contains(msg, table[i].0)
    requires forall j | 0 <= j < |table| && j != i :: !Contains(msg, table[j].0)
    ensures KeywordStatus(msg, order) == table[i].1
  {
    var hit := table[i];
    assert hit in multiset(table);
    forall e | e in order && Contains(msg, e.0)
      ensures e.1 == hit.1
    {
      InOrderedTable(order, table, e);
      var j :| 0 <= j < |table| && table[j] == e;
    }
    AllMatchesAgree(msg, order, hit);
  }

  lemma InOrderedTable(order: seq<(string, int)>, table: seq<(string, int)>, e: (string, int))
    requires multiset(order) == multiset(table) && e in order
    ensures e in table
  {
    assert e in multiset(order);
  }

  /** If every entry the message matches has the same status, the search
      finds that status. */
  lemma {:induction false} AllMatchesAgree(msg: string, order: seq<(string, int)>, hit: (string, int))
    requires hit in order && Contains(msg, hit.0)
    requires forall e | e in order && Contains(msg, e.0) :: e.1 == hit.1
    ensures KeywordStatus(msg, order) == hit.1
    decreases |order|
  {
    if !Contains(msg, order[0].0) {
      assert hit in order[1..];
      forall e | e in order[1..] && Contains(msg, e.0)
        ensures e.1 == hit.1
      {
        assert e in order;
      }
      AllMatchesAgree(msg, order[1..], hit);
    }
  }

  /** A response written by `http.Error`: status and body. */
  datatype Response = Response(status: int, body: string)

  /** `WriteError`. With no error or no writer nothing is written; server
      errors get a generic body, other errors their message. */
  method WriteError(hasWriter: bool, err: Option<Error>, order: seq<(string, int)>) returns (resp: Option<Response>)
    ensures resp.None? <==> err.None? || !hasWriter
    ensures resp.Some? ==> resp.value.status == StatusFor(err, order)
    ensures resp.Some? && resp.value.status >= 500 ==> resp.value.body == "Internel server error\n"
    ensures resp.Some? && resp.value.status < 500 ==> resp.value.body == err.value.Message() + "\n"
  {
    if err.None? || !hasWriter {
      return None;
    }
    var statusCode := GetHTTPErrorStatusCode(err, order);
    if statusCode >= 500 {
      return Some(Response(statusCode, "Internel server error\n"));
    }
    return Some(Response(statusCode, err.value.Message() + "\n"));
  }
}
