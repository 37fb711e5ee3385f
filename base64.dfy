/** Standard base64 (RFC 4648 section 4, with `=` padding), as used through
    Go's `base64.StdEncoding` for the super-user password of the plugin and
    for the secrets of the file-backed user database. */
module Base64 {
  import opened Wrappers
  import opened Values

  predicate IsNewline(c: char) {
    c == '\r' || c == '\n'
  }

  /** The input with every `\r` and `\n` removed. */
  function StripNewlines(s: string): (t: string)
    ensures |t| <= |s|
    ensures forall i | 0 <= i < |t| :: !IsNewline(t[i])
    ensures (forall i | 0 <= i < |s| :: !IsNewline(s[i])) ==> t == s
    decreases |s|
  {
    if |s| == 0 then s
    else if IsNewline(s[0]) then StripNewlines(s[1..])
    else [s[0]] + StripNewlines(s[1..])
  }

  lemma {:induction false} StripNewlinesAppend(a: string, b: string)
    ensures StripNewlines(a + b) == StripNewlines(a) + StripNewlines(b)
    decreases |a|
  {
    if |a| == 0 {
      assert a + b == b;
    } else {
      assert (a + b)[1..] == a[1..] + b;
      StripNewlinesAppend(a[1..], b);
    }
  }

  /** `DecodeString` of `base64.StdEncoding`: line breaks anywhere in the
      input are skipped, the rest must be whole groups of four characters.
      `None` stands for Go's `CorruptInputError`. */
  function Decode(s: string): (r: Option<seq<Byte>>)
  {
    DecodeGroups(StripNewlines(s))
  }

  /** A `\r` or `\n` inserted anywhere leaves the decoding unchanged. */
  lemma DecodeSkipsNewline(s: string, i: int, c: char)
    requires 0 <= i <= |s| && IsNewline(c)
    ensures Decode(s[..i] + [c] + s[i..]) == Decode(s)
  {
    StripSkipsNewline(s[..i], s[i..], c);
    assert s[..i] + s[i..] == s;
  }

  lemma StripSkipsNewline(a: string, b: string, c: char)
    requires IsNewline(c)
    ensures StripNewlines(a + [c] + b) == StripNewlines(a + b)
  {
    assert [c][1..] == [];
    calc {
      StripNewlines(a + [c] + b);
    == { StripNewlinesAppend(a + [c], b); }
      StripNewlines(a + [c]) + StripNewlines(b);
    == { StripNewlinesAppend(a, [c]); }
      StripNewlines(a) + StripNewlines([c]) + StripNewlines(b);
    == { assert StripNewlines([c]) == []; }
      StripNewlines(a) + StripNewlines(b);
    == { StripNewlinesAppend(a, b); }
      StripNewlines(a + b);
    }
  }

  /** Decoding an encoding gives the bytes back. */
  lemma DecodeEncode(b: seq<Byte>)
    ensures Decode(Encode(b)) == Some(b)
  {
    DecodeGroupsEncode(b);
  }

  /** The character for a 6-bit value: `A`-`Z`, `a`-`z`, `0`-`9`, `+`, `/`. */
  function CharOf(v: int): (c: char)
    requires 0 <= v < 64
    ensures !IsNewline(c)
  {
    if v < 26 then ('A' as int + v) as char
    else if v < 52 then ('a' as int + v - 26) as char
    else if v < 62 then ('0' as int + v - 52) as char
    else if v == 62 then '+'
    else '/'
  }

  /** The 6-bit value of an alphabet character; `None` for any other character. */
  function ValueOf(c: char): (r: Option<int>)
    ensures r.Some? ==> 0 <= r.value < 64 && CharOf(r.value) == c
  {
    if 'A' <= c <= 'Z' then Some(c as int - 'A' as int)
    else if 'a' <= c <= 'z' then Some(c as int - 'a' as int + 26)
    else if '0' <= c <= '9' then Some(c as int - '0' as int + 52)
    else if c == '+' then Some(62)
    else if c == '/' then Some(63)
    else None
  }

  lemma ValueOfCharOf(v: int)
    requires 0 <= v < 64
    ensures ValueOf(CharOf(v)) == Some(v)
    ensures CharOf(v) != '='
  {
  }

  /** The four 6-bit values of a group of three bytes (a missing byte counts as 0). */
  function Sextet0(b0: Byte): (v: int) ensures 0 <= v < 64 { b0 / 4 }
  function Sextet1(b0: Byte, b1: Byte): (v: int) ensures 0 <= v < 64 { (b0 % 4) * 16 + b1 / 16 }
  function Sextet2(b1: Byte, b2: Byte): (v: int) ensures 0 <= v < 64 { (b1 % 16) * 4 + b2 / 64 }
  function Sextet3(b2: Byte): (v: int) ensures 0 <= v < 64 { b2 % 64 }

  /** The three bytes carried by four 6-bit values. */
  function Byte0(v0: int, v1: int): (b: Byte)
    requires 0 <= v0 < 64 && 0 <= v1 < 64
  {
    v0 * 4 + v1 / 16
  }
  function Byte1(v1: int, v2: int): (b: Byte)
    requires 0 <= v1 < 64 && 0 <= v2 < 64
  {
    (v1 % 16) * 16 + v2 / 4
  }
  function Byte2(v2: int, v3: int): (b: Byte)
    requires 0 <= v2 < 64 && 0 <= v3 < 64
  {
    (v2 % 4) * 64 + v3
  }

  lemma Byte0Sextets(b0: Byte, b1: Byte)
    ensures Byte0(Sextet0(b0), Sextet1(b0, b1)) == b0
  {
  }

  lemma Byte1Sextets(b0: Byte, b1: Byte, b2: Byte)
    ensures Byte1(Sextet1(b0, b1), Sextet2(b1, b2)) == b1
  {
    var hi, lo := b1 / 16, b1 % 16;
    assert ((b0 % 4) * 16 + hi) % 16 == hi;
    assert (lo * 4 + b2 / 64) / 4 == lo;
  }

  lemma Byte2Sextets(b1: Byte, b2: Byte)
    ensures Byte2(Sextet2(b1, b2), Sextet3(b2)) == b2
  {
  }

  /** Four characters for three bytes. */
  function EncodeGroup(b0: Byte, b1: Byte, b2: Byte): string {
    [CharOf(Sextet0(b0)), CharOf(Sextet1(b0, b1)), CharOf(Sextet2(b1, b2)), CharOf(Sextet3(b2))]
  }

  /** The number of four-character groups that encode `n` bytes. */
  function GroupCount(n: nat): nat {
    (n + 2) / 3
  }

  /** `EncodeToString`: groups of three bytes, the last one or two bytes padded with `=`. */
  function Encode(b: seq<Byte>): (s: string)
    ensures |s| == 4 * GroupCount(|b|)
    ensures forall i | 0 <= i < |s| :: !IsNewline(s[i])
    decreases |b|
  {
    if |b| == 0 then ""
    else if |b| == 1 then [CharOf(Sextet0(b[0])), CharOf(Sextet1(b[0], 0)), '=', '=']
    else if |b| == 2 then [CharOf(Sextet0(b[0])), CharOf(Sextet1(b[0], b[1])), CharOf(Sextet2(b[1], 0)), '=']
    else EncodeGroup(b[0], b[1], b[2]) + Encode(b[3..])
  }

  /** Decodes one group of four characters, `=` allowed only as padding of the
      final group. Like Go's non-strict decoder, the unused low bits of the
      last character before the padding are ignored. */
  function DecodeGroup(g: string, last: bool): (r: Option<seq<Byte>>)
    requires |g| == 4
  {
    var v0, v1 := ValueOf(g[0]), ValueOf(g[1]);
    if v0.None? || v1.None? then None
    else if last && g[2] == '=' && g[3] == '=' then
      Some([Byte0(v0.value, v1.value)])
    else
      var v2 := ValueOf(g[2]);
      if v2.None? then None
      else if last && g[3] == '=' then
        Some([Byte0(v0.value, v1.value), Byte1(v1.value, v2.value)])
      else
        var v3 := ValueOf(g[3]);
        if v3.None? then None
        else Some([Byte0(v0.value, v1.value), Byte1(v1.value, v2.value), Byte2(v2.value, v3.value)])
  }

  /** Decodes a string of whole groups with no line breaks in it; `None`
      stands for Go's `CorruptInputError`. */
  function DecodeGroups(s: string): (r: Option<seq<Byte>>)
    decreases |s|
  {
    if |s| == 0 then Some([])
    else if |s| < 4 then None
    else
      match DecodeGroup(s[..4], |s| == 4)
      case None => None
      case Some(g) =>
        match DecodeGroups(s[4..])
        case None => None
        case Some(rest) => Some(g + rest)
  }

  lemma GroupRoundTrip(b0: Byte, b1: Byte, b2: Byte, last: bool)
    ensures DecodeGroup(EncodeGroup(b0, b1, b2), last) == Some([b0, b1, b2])
  {
    ValueOfCharOf(Sextet0(b0));
    ValueOfCharOf(Sextet1(b0, b1));
    ValueOfCharOf(Sextet2(b1, b2));
    ValueOfCharOf(Sextet3(b2));
    Byte0Sextets(b0, b1);
    Byte1Sextets(b0, b1, b2);
    Byte2Sextets(b1, b2);
  }

  /** A single group of four characters decodes as a final group. */
  lemma DecodeLastGroup(g: string)
    requires |g| == 4
    ensures DecodeGroups(g) == DecodeGroup(g, true)
  {
    assert g[..4] == g;
    assert DecodeGroups(g[4..]) == Some([]);
    match DecodeGroup(g, true)
    case None =>
    case Some(x) => assert x + [] == x;
  }

  lemma OneByteRoundTrip(b: seq<Byte>)
    requires |b| == 1
    ensures DecodeGroups(Encode(b)) == Some(b)
  {
    var s := Encode(b);
    ValueOfCharOf(Sextet0(b[0]));
    ValueOfCharOf(Sextet1(b[0], 0));
    Byte0Sextets(b[0], 0);
    DecodeLastGroup(s);
    assert [b[0]] == b;
  }

  lemma TwoByteRoundTrip(b: seq<Byte>)
    requires |b| == 2
    ensures DecodeGroups(Encode(b)) == Some(b)
  {
    var s := Encode(b);
    ValueOfCharOf(Sextet0(b[0]));
    ValueOfCharOf(Sextet1(b[0], b[1]));
    ValueOfCharOf(Sextet2(b[1], 0));
    Byte0Sextets(b[0], b[1]);
    Byte1Sextets(b[0], b[1], 0);
    DecodeLastGroup(s);
    assert [b[0], b[1]] == b;
  }

  /** Decoding a string that starts with a whole group that decodes. */
  lemma DecodeCons(g: string, t: string, x: seq<Byte>, y: seq<Byte>)
    requires |g| == 4 && DecodeGroup(g, |t| == 0) == Some(x) && DecodeGroups(t) == Some(y)
    ensures DecodeGroups(g + t) == Some(x + y)
  {
    assert (g + t)[..4] == g;
    assert (g + t)[4..] == t;
  }

  /** Decoding the groups of an encoding gives the bytes back. */
  lemma {:induction false} DecodeGroupsEncode(b: seq<Byte>)
    ensures DecodeGroups(Encode(b)) == Some(b)
    decreases |b|
  {
    if |b| == 1 {
      OneByteRoundTrip(b);
    } else if |b| == 2 {
      TwoByteRoundTrip(b);
    } else if |b| >= 3 {
      DecodeGroupsEncode(b[3..]);
      GroupStepRoundTrip(b);
    }
  }

  /** The step of `DecodeGroupsEncode`: a leading whole group decodes back to its bytes. */
  lemma GroupStepRoundTrip(b: seq<Byte>)
    requires |b| >= 3 && DecodeGroups(Encode(b[3..])) == Some(b[3..])
    ensures DecodeGroups(Encode(b)) == Some(b)
  {
    var g, t := EncodeGroup(b[0], b[1], b[2]), Encode(b[3..]);
    assert Encode(b) == g + t;
    PrefixGroupRoundTrip(b, |t| == 0);
    DecodeSplit(b, g + t, g, t);
  }

  lemma PrefixGroupRoundTrip(b: seq<Byte>, last: bool)
    requires |b| >= 3
    ensures DecodeGroup(EncodeGroup(b[0], b[1], b[2]), last) == Some(b[..3])
  {
    GroupRoundTrip(b[0], b[1], b[2], last);
    assert [b[0], b[1], b[2]] == b[..3];
  }

  lemma DecodeSplit(b: seq<Byte>, s: string, g: string, t: string)
    requires |b| >= 3 && |g| == 4 && s == g + t
    requires DecodeGroup(g, |t| == 0) == Some(b[..3]) && DecodeGroups(t) == Some(b[3..])
    ensures DecodeGroups(s) == Some(b)
  {
    DecodeCons(g, t, b[..3], b[3..]);
    assert b[..3] + b[3..] == b;
  }

  /** Encoding is injective: distinct byte strings have distinct encodings. */
  lemma EncodeInjective(a: seq<Byte>, b: seq<Byte>)
    requires Encode(a) == Encode(b)
    ensures a == b
  {
    DecodeEncode(a);
    DecodeEncode(b);
  }
}
