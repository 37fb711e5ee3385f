/** The parts of Go's `strings` package that the modelled code uses, over
    `seq<char>`. Only ASCII letters are case-mapped; trimming knows all of
    Unicode's white space. */
module Strings {
  import opened Wrappers

  predicate HasPrefix(s: string, prefix: string) {
    |prefix| <= |s| && s[..|prefix|] == prefix
  }

  predicate HasSuffix(s: string, suffix: string) {
    |suffix| <= |s| && s[|s| - |suffix|..] == suffix
  }

  /** `sub` occurs in `s` starting at index `i`. */
  predicate OccursAt(s: string, sub: string, i: int) {
    0 <= i && i + |sub| <= |s| && s[i..i + |sub|] == sub
  }

  /** `strings.Contains`: `sub` occurs somewhere in `s`. */
  predicate Contains(s: string, sub: string) {
    exists i | 0 <= i <= |s| :: OccursAt(s, sub, i)
  }

  /** `strings.TrimPrefix`: drops `prefix` once if `s` starts with it. */
  function TrimPrefix(s: string, prefix: string): (r: string)
    ensures HasPrefix(s, prefix) ==> prefix + r == s
    ensures !HasPrefix(s, prefix) ==> r == s
  {
    if HasPrefix(s, prefix) then s[|prefix|..] else s
  }

  /** Index of the first occurrence of `sub` in `s` at or after `from`. */
  function IndexFrom(s: string, sub: string, from: nat): (r: Option<nat>)
    requires from <= |s|
    ensures r.Some? ==> from <= r.value && OccursAt(s, sub, r.value)
    ensures r.Some? ==> forall j :: from <= j < r.value ==> !OccursAt(s, sub, j)
    ensures r.None? ==> forall j :: from <= j ==> !OccursAt(s, sub, j)
    decreases |s| - from
  {
    if from + |sub| > |s| then None
    else if s[from..from + |sub|] == sub then Some(from)
    else IndexFrom(s, sub, from + 1)
  }

  /** `strings.Index`: the first occurrence of `sub` in `s`, if any. */
  function IndexOf(s: string, sub: string): (r: Option<nat>)
    ensures r.Some? ==> OccursAt(s, sub, r.value)
    ensures r.Some? ==> forall j :: 0 <= j < r.value ==> !OccursAt(s, sub, j)
    ensures r.None? <==> !Contains(s, sub)
  {
    IndexFrom(s, sub, 0)
  }

  function ToUpperChar(c: char): char {
    if 'a' <= c <= 'z' then (c as int - 32) as char else c
  }

  function ToLowerChar(c: char): char {
    if 'A' <= c <= 'Z' then (c as int + 32) as char else c
  }

  /** `strings.ToUpper`, ASCII letters only. */
  function ToUpper(s: string): (r: string)
    ensures |r| == |s| && forall i :: 0 <= i < |s| ==> r[i] == ToUpperChar(s[i])
  {
    seq(|s|, i requires 0 <= i < |s| => ToUpperChar(s[i]))
  }

  /** `strings.ToLower`, ASCII letters only. */
  function ToLower(s: string): (r: string)
    ensures |r| == |s| && forall i :: 0 <= i < |s| ==> r[i] == ToLowerChar(s[i])
  {
    seq(|s|, i requires 0 <= i < |s| => ToLowerChar(s[i]))
  }

  /** `unicode.IsSpace`: the Latin-1 white space characters `\t`, `\n`,
      `\v`, `\f`, `\r`, space, U+0085 and U+00A0, and beyond Latin-1 the
      characters with the Unicode White_Space property. */
  predicate IsSpace(c: char) {
    || c == '\t' || c == '\n' || c == '\U{B}' || c == '\U{C}' || c == '\r' || c == ' '
    || c == '\U{85}' || c == '\U{A0}'
    || c == '\U{1680}' || ('\U{2000}' <= c <= '\U{200A}')
    || c == '\U{2028}' || c == '\U{2029}' || c == '\U{202F}' || c == '\U{205F}' || c == '\U{3000}'
  }

  predicate AllSpace(s: string) {
    forall k | 0 <= k < |s| :: IsSpace(s[k])
  }

  /** `r` is `s[i..j]`, and everything outside it is white space. */
  predicate TrimmedAt(s: string, r: string, i: int, j: int) {
    0 <= i <= j <= |s| && r == s[i..j] && AllSpace(s[..i]) && AllSpace(s[j..])
  }

  /** `strings.TrimSpace`: removes leading and trailing white space. The
      result is the part of `s` left between a white space prefix and a white
      space suffix, and it neither starts nor ends with white space. */
  function TrimSpace(s: string): (r: string)
    ensures r == "" || (!IsSpace(r[0]) && !IsSpace(r[|r| - 1]))
    ensures exists i, j :: TrimmedAt(s, r, i, j)
    decreases |s|
  {
    if |s| == 0 then assert TrimmedAt(s, s, 0, 0); s
    else if IsSpace(s[0]) then
      var r := TrimSpace(s[1..]);
      TrimmedAfterLeading(s, r);
      r
    else if IsSpace(s[|s| - 1]) then
      var r := TrimSpace(s[..|s| - 1]);
      TrimmedAfterTrailing(s, s[..|s| - 1], r);
      r
    else assert TrimmedAt(s, s, 0, |s|); s
  }

  /** Trimming after a leading white space character. */
  lemma TrimmedAfterLeading(s: string, r: string)
    requires |s| > 0 && IsSpace(s[0]) && exists i, j :: TrimmedAt(s[1..], r, i, j)
    ensures exists i, j :: TrimmedAt(s, r, i, j)
  {
    var i, j :| TrimmedAt(s[1..], r, i, j);
    assert s[1..][i..j] == s[1 + i..1 + j];
    assert s[1..][j..] == s[1 + j..];
    var head, tail := s[..1 + i], s[1..][..i];
    forall k | 0 <= k < |head|
      ensures IsSpace(head[k])
    {
      if k > 0 {
        assert head[k] == tail[k - 1];
      }
    }
    assert TrimmedAt(s, r, 1 + i, 1 + j);
  }

  /** Trimming after a trailing white space character. */
  lemma TrimmedAfterTrailing(s: string, front: string, r: string)
    requires |s| > 0 && IsSpace(s[|s| - 1]) && front == s[..|s| - 1]
    requires exists i, j :: TrimmedAt(front, r, i, j)
    ensures exists i, j :: TrimmedAt(s, r, i, j)
  {
    var i, j :| TrimmedAt(front, r, i, j);
    assert front[i..j] == s[i..j];
    assert front[..i] == s[..i];
    var tail, init := s[j..], front[j..];
    forall k | 0 <= k < |tail|
      ensures IsSpace(tail[k])
    {
      if k < |init| {
        assert tail[k] == init[k];
      }
    }
    assert TrimmedAt(s, r, i, j);
  }

  /** `strings.Split(s, string(sep))`: the pieces of `s` between the
      occurrences of `sep`. The empty string gives one empty piece. */
  function Split(s: string, sep: char): (parts: seq<string>)
    ensures |parts| >= 1
    ensures forall i :: 0 <= i < |parts| ==> sep !in parts[i]
    decreases |s|
  {
    if |s| == 0 then [""]
    else if s[0] == sep then [""] + Split(s[1..], sep)
    else
      var rest := Split(s[1..], sep);
      [[s[0]] + rest[0]] + rest[1..]
  }

  /** `strings.Join(parts, string(sep))`. */
  function Join(parts: seq<string>, sep: char): string
    decreases |parts|
  {
    if |parts| == 0 then ""
    else if |parts| == 1 then parts[0]
    else parts[0] + [sep] + Join(parts[1..], sep)
  }

  /** `strings.SplitN(s, string(sep), n)` for n >= 1: at most `n` pieces,
      the last one holding the unsplit remainder. */
  function SplitN(s: string, sep: char, n: nat): (parts: seq<string>)
    requires n >= 1
    ensures 1 <= |parts| <= n
    decreases |s|
  {
    if n == 1 || |s| == 0 then [s]
    else if s[0] == sep then [""] + SplitN(s[1..], sep, n - 1)
    else
      var rest := SplitN(s[1..], sep, n);
      [[s[0]] + rest[0]] + rest[1..]
  }

  lemma JoinCons(x: string, rest: seq<string>, sep: char)
    requires |rest| >= 1
    ensures Join([x] + rest, sep) == x + [sep] + Join(rest, sep)
  {
    assert ([x] + rest)[1..] == rest;
  }

  /** Joining the pieces of a split gives the string back. */
  lemma {:induction false} JoinSplit(s: string, sep: char)
    ensures Join(Split(s, sep), sep) == s
    decreases |s|
  {
    if |s| > 0 {
      JoinSplit(s[1..], sep);
      if s[0] == sep {
        JoinSplitAtSep(s, sep);
      } else {
        JoinSplitInPiece(s, sep);
      }
    }
  }

  /** The step of `JoinSplit` when the string starts with the separator. */
  lemma JoinSplitAtSep(s: string, sep: char)
    requires |s| > 0 && s[0] == sep && Join(Split(s[1..], sep), sep) == s[1..]
    ensures Join(Split(s, sep), sep) == s
  {
    var rest := Split(s[1..], sep);
    assert Split(s, sep) == [""] + rest;
    JoinCons("", rest, sep);
    assert s == [sep] + s[1..];
  }

  /** The step of `JoinSplit` when the first character joins the first piece. */
  lemma JoinSplitInPiece(s: string, sep: char)
    requires |s| > 0 && s[0] != sep && Join(Split(s[1..], sep), sep) == s[1..]
    ensures Join(Split(s, sep), sep) == s
  {
    var rest := Split(s[1..], sep);
    assert Split(s, sep) == [[s[0]] + rest[0]] + rest[1..];
    if |rest| == 1 {
      assert Join(rest, sep) == rest[0];
    } else {
      assert [rest[0]] + rest[1..] == rest;
      calc {
        Join(Split(s, sep), sep);
      == { JoinCons([s[0]] + rest[0], rest[1..], sep); }
        [s[0]] + rest[0] + [sep] + Join(rest[1..], sep);
      == { JoinCons(rest[0], rest[1..], sep); }
        [s[0]] + Join(rest, sep);
      }
    }
    assert s == [s[0]] + s[1..];
  }

  /** A string without the separator splits into itself. */
  lemma {:induction false} SplitNoSep(a: string, sep: char)
    requires sep !in a
    ensures Split(a, sep) == [a]
    decreases |a|
  {
    if |a| > 0 {
      assert sep !in a[1..];
      SplitNoSep(a[1..], sep);
      assert [a[0]] + a[1..] == a;
    }
  }

  /** A piece without the separator followed by the separator is split off
      as the first piece. */
  lemma {:induction false} SplitCons(a: string, sep: char, t: string)
    requires sep !in a
    ensures Split(a + [sep] + t, sep) == [a] + Split(t, sep)
    decreases |a|
  {
    if |a| == 0 {
      assert a + [sep] + t == [sep] + t;
      assert ([sep] + t)[1..] == t;
    } else {
      assert sep !in a[1..];
      SplitCons(a[1..], sep, t);
      assert (a + [sep] + t)[1..] == a[1..] + [sep] + t;
      assert [a[0]] + a[1..] == a;
    }
  }

  /** The first step of `Split`, on a string known to start with `c`. */
  lemma SplitFirst(c: char, t: string, sep: char)
    ensures Split([c] + t, sep) ==
      if c == sep then [""] + Split(t, sep)
      else [[c] + Split(t, sep)[0]] + Split(t, sep)[1..]
  {
    assert ([c] + t)[1..] == t;
  }

  /** Splitting at a separator splits the two sides independently. */
  lemma {:induction false} SplitConcat(a: string, sep: char, b: string)
    ensures Split(a + [sep] + b, sep) == Split(a, sep) + Split(b, sep)
    decreases |a|
  {
    if |a| == 0 {
      assert a + [sep] + b == [sep] + b;
      SplitFirst(sep, b, sep);
    } else {
      var t := a[1..] + [sep] + b;
      assert a + [sep] + b == [a[0]] + t;
      assert a == [a[0]] + a[1..];
      SplitConcat(a[1..], sep, b);
      SplitFirst(a[0], t, sep);
      SplitFirst(a[0], a[1..], sep);
      SplitAppendStep(a[0], Split(a[1..], sep), Split(b, sep), sep);
    }
  }

  lemma SplitAppendStep(c: char, ra: seq<string>, sb: seq<string>, sep: char)
    requires |ra| >= 1
    ensures c == sep ==> [""] + (ra + sb) == ([""] + ra) + sb
    ensures c != sep ==> [[c] + (ra + sb)[0]] + (ra + sb)[1..] == ([[c] + ra[0]] + ra[1..]) + sb
  {
    assert (ra + sb)[1..] == ra[1..] + sb;
  }

  /** Splitting a join of separator-free pieces gives the pieces back. */
  lemma {:induction false} SplitJoin(parts: seq<string>, sep: char)
    requires |parts| >= 1
    requires forall i :: 0 <= i < |parts| ==> sep !in parts[i]
    ensures Split(Join(parts, sep), sep) == parts
    decreases |parts|
  {
    if |parts| == 1 {
      SplitNoSep(parts[0], sep);
    } else {
      SplitJoin(parts[1..], sep);
      SplitCons(parts[0], sep, Join(parts[1..], sep));
      assert [parts[0]] + parts[1..] == parts;
    }
  }

  /** `SplitN`'s pieces described through `Split`'s pieces `all`. */
  function SplitNOf(all: seq<string>, sep: char, n: nat): seq<string>
    requires n >= 1
  {
    if |all| <= n then all else all[..n - 1] + [Join(all[n - 1..], sep)]
  }

  /** The pieces of `SplitN` are those of `Split`, except that the last
      piece of `SplitN` holds the rest of the pieces joined back. */
  lemma {:induction false} SplitNAgreesWithSplit(s: string, sep: char, n: nat)
    requires n >= 1
    ensures SplitN(s, sep, n) == SplitNOf(Split(s, sep), sep, n)
    decreases |s|
  {
    var all := Split(s, sep);
    if n == 1 {
      JoinSplit(s, sep);
      assert all[..0] + [Join(all[0..], sep)] == [s];
    } else if |s| == 0 {
    } else if s[0] == sep {
      SplitNAgreesWithSplit(s[1..], sep, n - 1);
      SplitNSepStep(Split(s[1..], sep), sep, n);
    } else {
      SplitNAgreesWithSplit(s[1..], sep, n);
      SplitNCharStep(s[0], Split(s[1..], sep), sep, n);
    }
  }

  lemma SplitNSepStep(rest: seq<string>, sep: char, n: nat)
    requires n >= 2
    ensures [""] + SplitNOf(rest, sep, n - 1) == SplitNOf([""] + rest, sep, n)
  {
    var all := [""] + rest;
    if |rest| > n - 1 {
      assert all[..n - 1] == [""] + rest[..n - 2];
      assert all[n - 1..] == rest[n - 2..];
    }
  }

  lemma SplitNCharStep(c: char, rest: seq<string>, sep: char, n: nat)
    requires n >= 2 && |rest| >= 1
    ensures var restN := SplitNOf(rest, sep, n);
      [[c] + restN[0]] + restN[1..] == SplitNOf([[c] + rest[0]] + rest[1..], sep, n)
  {
    var all := [[c] + rest[0]] + rest[1..];
    var restN := SplitNOf(rest, sep, n);
    if |rest| > n {
      assert restN[0] == rest[0];
      assert all[..n - 1] == [[c] + rest[0]] + rest[1..n - 1];
      assert all[n - 1..] == rest[n - 1..];
      assert restN[1..] == rest[1..n - 1] + [Join(rest[n - 1..], sep)];
    }
  }
}
