/** The device commands of the command-line client: how `device:rpc` turns
    its `PARAMETER=VALUE` arguments into a JSON-RPC request, and how
    `device` prints a device. Floating-point parsing is a parameter: it only
    says whether a text is a float. */
module IotacliDevices {
  import opened Wrappers
  import opened Strings
  import opened Strconv
  import Values

  /** A converted parameter value. A float keeps its text. */
  datatype Param = PStr(s: string) | PBool(b: bool) | PInt(i: int) | PFloat(text: string)

  predicate QuotedWith(value: string, q: char) {
    |value| >= 2 && value[0] == q && value[|value| - 1] == q
  }

  /** `convert`: a quoted value is its text between the quotes; otherwise a
      boolean, then an `int64`, then a float, and the raw text last. */
  function Convert(value: string, isFloat: string -> bool): (p: Param)
    ensures QuotedWith(value, '"') || QuotedWith(value, '\'') ==> p == PStr(value[1..|value| - 1])
    ensures !QuotedWith(value, '"') && !QuotedWith(value, '\'') ==>
              (ParseBool(value).Some? ==> p == PBool(ParseBool(value).value)) &&
              (ParseBool(value).None? && ParseInt(value).Some? ==> p == PInt(ParseInt(value).value)) &&
              (ParseBool(value).None? && ParseInt(value).None? ==> p == if isFloat(value) then PFloat(value) else PStr(value))
  {
    if QuotedWith(value, '"') then PStr(value[1..|value| - 1])
    else if QuotedWith(value, '\'') then PStr(value[1..|value| - 1])
    else match ParseBool(value)
      case Some(b) => PBool(b)
      case None =>
        match ParseInt(value)
        case Some(i) => PInt(i)
        case None => if isFloat(value) then PFloat(value) else PStr(value)
  }

  /** Quoting keeps any text a string, even one that reads as a number or a
      boolean. */
  lemma QuotedIsString(s: string, isFloat: string -> bool)
    ensures Convert("\"" + s + "\"", isFloat) == PStr(s)
    ensures Convert("'" + s + "'", isFloat) == PStr(s)
  {
    assert ("\"" + s + "\"")[1..|s| + 1] == s;
    assert ("'" + s + "'")[1..|s| + 1] == s;
  }

  /** An unquoted `int64` other than 0 and 1 is passed as that integer. */
  lemma IntegersConvert(n: int, isFloat: string -> bool)
    requires InInt64(n) && n != 0 && n != 1
    ensures Convert(FormatInt(n), isFloat) == PInt(n)
  {
    ParseFormatInt(n);
    var s := FormatInt(n);
    ParseIntEndsInDigit(s);
    if ParseBool(s).Some? {
      ParseBoolThenInt(s);
      SmallFormats();
      if s == "1" {
        FormatIntInjective(n, 1);
      } else {
        FormatIntInjective(n, 0);
      }
    }
  }

  lemma SmallFormats()
    ensures FormatInt(1) == "1" && FormatInt(0) == "0"
  {
  }

  /** "1" and "0" are booleans, not integers. */
  lemma OneAndZeroAreBooleans(isFloat: string -> bool)
    ensures Convert("1", isFloat) == PBool(true) && Convert("0", isFloat) == PBool(false)
  {
  }

  lemma ParseIntEndsInDigit(s: string)
    requires ParseInt(s).Some?
    ensures |s| > 0 && IsDigit(s[|s| - 1])
  {
    var signed := |s| > 0 && (s[0] == '+' || s[0] == '-');
    var digits := if signed then s[1..] else s;
    assert s[|s| - 1] == digits[|digits| - 1];
  }

  /** The name of a `PARAMETER=VALUE` argument: the text before its first
      `=`. */
  function ParamName(p: string): string
    requires '=' in p
  {
    p[..FirstEq(p)]
  }

  /** The value text of a `PARAMETER=VALUE` argument: everything after its
      first `=`, further `=` included. */
  function ParamText(p: string): string
    requires '=' in p
  {
    p[FirstEq(p) + 1..]
  }

  /** `strings.IndexRune(p, '=')`. */
  function FirstEq(p: string): (i: nat)
    requires '=' in p
    ensures i < |p| && p[i] == '=' && forall k | 0 <= k < i :: p[k] != '='
  {
    if p[0] == '=' then 0 else 1 + FirstEq(p[1..])
  }

  /** An argument splits back into the name and value it was written from. */
  lemma ParamRoundTrip(name: string, text: string)
    requires '=' !in name
    ensures ParamName(name + "=" + text) == name && ParamText(name + "=" + text) == text
  {
    var p := name + "=" + text;
    assert p[|name|] == '=';
    assert forall k | 0 <= k < |name| :: p[k] == name[k];
  }

  /** The parameters of a well-formed argument list, a later name
      overriding an earlier one. */
  function ParamsOf(args: seq<string>, isFloat: string -> bool): map<string, Param>
    requires forall i | 0 <= i < |args| :: '=' in args[i]
    decreases |args|
  {
    if |args| == 0 then map[]
    else
      var last := args[|args| - 1];
      ParamsOf(args[..|args| - 1], isFloat)[ParamName(last) := Convert(ParamText(last), isFloat)]
  }

  /** A name's parameter is the value of its last argument. */
  lemma {:induction false} LastArgumentWins(args: seq<string>, isFloat: string -> bool, i: int)
    requires forall j | 0 <= j < |args| :: '=' in args[j]
    requires 0 <= i < |args|
    requires forall j | i < j < |args| :: ParamName(args[j]) != ParamName(args[i])
    ensures ParamName(args[i]) in ParamsOf(args, isFloat)
    ensures ParamsOf(args, isFloat)[ParamName(args[i])] == Convert(ParamText(args[i]), isFloat)
    decreases |args|
  {
    if i < |args| - 1 {
      var init := args[..|args| - 1];
      LastArgumentWins(init, isFloat, i);
    }
  }

  /** The parameter names are exactly the names of the arguments. */
  lemma {:induction false} ParamNames(args: seq<string>, isFloat: string -> bool, name: string)
    requires forall j | 0 <= j < |args| :: '=' in args[j]
    ensures name in ParamsOf(args, isFloat) <==> exists j | 0 <= j < |args| :: ParamName(args[j]) == name
    decreases |args|
  {
    if |args| > 0 {
      var init := args[..|args| - 1];
      ParamNames(init, isFloat, name);
      if exists j | 0 <= j < |init| :: ParamName(init[j]) == name {
        var j :| 0 <= j < |init| && ParamName(init[j]) == name;
        assert args[j] == init[j];
      }
      if exists j | 0 <= j < |args| :: ParamName(args[j]) == name {
        var j :| 0 <= j < |args| && ParamName(args[j]) == name;
        if j < |args| - 1 {
          assert init[j] == args[j];
        }
      }
    }
  }

  const MissingEq: string := "missing '=' in method parameter"

  /** The loop of `CmdDeviceRPC` over the arguments after ID and METHOD. */
  method ParseParams(args: seq<string>, isFloat: string -> bool) returns (r: Result<map<string, Param>, string>)
    ensures r.Err? <==> exists i | 0 <= i < |args| :: '=' !in args[i]
    ensures r.Err? ==> r.error == MissingEq
    ensures r.Ok? ==> (forall i | 0 <= i < |args| :: '=' in args[i]) && r.value == ParamsOf(args, isFloat)
  {
    var params: map<string, Param> := map[];
    var i := 0;
    while i < |args|
      invariant 0 <= i <= |args|
      invariant forall j | 0 <= j < i :: '=' in args[j]
      invariant params == ParamsOf(args[..i], isFloat)
    {
      var p := args[i];
      if '=' !in p {
        return Err(MissingEq);
      }
      assert args[..i + 1][..i] == args[..i];
      params := params[ParamName(p) := Convert(ParamText(p), isFloat)];
      i := i + 1;
    }
    assert args[..i] == args;
    return Ok(params);
  }

  /** The request `device:rpc` sends: `{"id": 0, "method": ..., "param": ...}`. */
  datatype RpcRequest = RpcRequest(id: int, verb: string, param: map<string, Param>)

  /** `CmdDeviceRPC` up to the call: the device id and the request. The
      command requires at least ID and METHOD. */
  method DeviceRpc(args: seq<string>, isFloat: string -> bool) returns (r: Result<(string, RpcRequest), string>)
    requires |args| >= 2
    ensures r.Err? <==> exists i | 2 <= i < |args| :: '=' !in args[i]
    ensures r.Err? ==> r.error == MissingEq
    ensures r.Ok? ==>
              (forall i | 2 <= i < |args| :: '=' in args[i]) &&
              r.value == (args[0], RpcRequest(0, args[1], ParamsOf(args[2..], isFloat)))
  {
    var params := ParseParams(args[2..], isFloat);
    if params.Err? {
      assert exists i | 0 <= i < |args[2..]| :: '=' !in args[2..][i];
      var i :| 0 <= i < |args[2..]| && '=' !in args[2..][i];
      assert '=' !in args[i + 2];
      return Err(params.error);
    }
    assert forall i | 2 <= i < |args| :: '=' in args[i] by {
      forall i | 2 <= i < |args| ensures '=' in args[i] {
        assert args[i] == args[2..][i - 2];
      }
    }
    return Ok((args[0], RpcRequest(0, args[1], params.value)));
  }

  /** What `device ID` prints. */
  datatype Output = Bare(v: Values.Value) | Json(info: map<string, Values.Value>)

  /** A device with exactly one attribute is printed as that bare value,
      any other as JSON. */
  method DeviceOutput(info: map<string, Values.Value>) returns (o: Output)
    ensures |info| == 1 <==> o.Bare?
    ensures o.Bare? ==> exists k | k in info :: o.v == info[k]
    ensures o.Json? ==> o.info == info
  {
    if |info| == 1 {
      var k :| k in info;
      return Bare(info[k]);
    }
    return Json(info);
  }
}
