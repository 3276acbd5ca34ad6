/** The few Python string operations the clients and the command-line
    interfaces rely on: `str.strip()`, `str.startswith`, splitting and
    joining on "\n", and the decimal text of an integer (`f"{i}"`). */
module PyText {

  /** The characters Python's `str.isspace()` accepts, which are exactly the
      characters `str.strip()` with no argument removes. */
  predicate IsSpace(c: char) {
    || c == ' ' || c == '\t' || c == '\n' || c == '\r'
    || c == '\U{B}' || c == '\U{C}'
    || ('\U{1C}' <= c <= '\U{1F}')
    || c == '\U{85}' || c == '\U{A0}' || c == '\U{1680}'
    || ('\U{2000}' <= c <= '\U{200A}')
    || c == '\U{2028}' || c == '\U{2029}' || c == '\U{202F}'
    || c == '\U{205F}' || c == '\U{3000}'
  }

  /** True of a string made only of whitespace (the empty string included),
      i.e. Python's `s.strip() == ""`. */
  predicate AllSpace(s: string) {
    forall i :: 0 <= i < |s| ==> IsSpace(s[i])
  }

  /** Number of leading whitespace characters. */
  function LeadCount(s: string): (k: nat)
    ensures k <= |s|
    ensures AllSpace(s[..k])
    ensures k < |s| ==> !IsSpace(s[k])
  {
    if s == [] || !IsSpace(s[0]) then 0 else 1 + LeadCount(s[1..])
  }

  /** Number of trailing whitespace characters. */
  function TrailCount(s: string): (k: nat)
    ensures k <= |s|
    ensures AllSpace(s[|s| - k..])
    ensures k < |s| ==> !IsSpace(s[|s| - 1 - k])
  {
    if s == [] || !IsSpace(s[|s| - 1]) then 0 else 1 + TrailCount(s[..|s| - 1])
  }

  /** Python's `s.strip()`: the longest slice of `s` that neither starts nor
      ends with whitespace, after removing only whitespace on either side. */
  function Strip(s: string): (r: string)
    ensures |r| <= |s|
    ensures r == [] || (!IsSpace(r[0]) && !IsSpace(r[|r| - 1]))
    ensures exists i :: 0 <= i && i + |r| <= |s| && r == s[i..i + |r|]
                        && AllSpace(s[..i]) && AllSpace(s[i + |r|..])
  {
    var a := LeadCount(s);
    var t := s[a..];
    var b := TrailCount(t);
    assert s[a..][..|t| - b] == s[a..a + (|t| - b)];
    assert t[|t| - b..] == s[a + (|t| - b)..];
    t[..|t| - b]
  }

  /** `s.strip() == ""` holds exactly for whitespace-only strings, which is
      how both interactive loops decide to skip a line. */
  lemma StripEmptyIffAllSpace(s: string)
    ensures Strip(s) == "" <==> AllSpace(s)
  {
    var a := LeadCount(s);
    if a < |s| {
      var t := s[a..];
      assert t[0] == s[a];
      assert TrailCount(t) < |t|;
    }
  }

  /** A string with no surrounding whitespace is its own strip. */
  lemma StripUnchanged(s: string)
    requires s == [] || (!IsSpace(s[0]) && !IsSpace(s[|s| - 1]))
    ensures Strip(s) == s
  {
    if s != [] {
      assert LeadCount(s) == 0;
      assert TrailCount(s) == 0;
    }
  }

  /** Stripping twice changes nothing more. */
  lemma StripIdempotent(s: string)
    ensures Strip(Strip(s)) == Strip(s)
  {
    StripUnchanged(Strip(s));
  }

  /** Python's `s.startswith(prefix)`. */
  predicate StartsWith(s: string, prefix: string) {
    |prefix| <= |s| && s[..|prefix|] == prefix
  }

  /** Python's `s.split("\n")`: the pieces between newlines, always at least
      one (`"".split("\n") == [""]`). */
  function SplitLines(s: string): (r: seq<string>)
    ensures |r| >= 1
    ensures forall i :: 0 <= i < |r| ==> '\n' !in r[i]
  {
    if s == [] then [""]
    else
      var rest := SplitLines(s[1..]);
      if s[0] == '\n' then [""] + rest
      else [[s[0]] + rest[0]] + rest[1..]
  }

  /** Python's `"\n".join(pieces)`. */
  function JoinLines(pieces: seq<string>): string {
    if pieces == [] then ""
    else if |pieces| == 1 then pieces[0]
    else pieces[0] + "\n" + JoinLines(pieces[1..])
  }

  /** Joining what was split on "\n" gives the string back. */
  lemma {:induction false} JoinSplit(s: string)
    ensures JoinLines(SplitLines(s)) == s
  {
    if s != [] {
      var rest := SplitLines(s[1..]);
      JoinSplit(s[1..]);
      if s[0] == '\n' {
        assert SplitLines(s) == [""] + rest;
        assert ([""] + rest)[1..] == rest;
      } else {
        var first := [s[0]] + rest[0];
        assert SplitLines(s) == [first] + rest[1..];
        if |rest| == 1 {
          assert JoinLines(rest) == rest[0];
        } else {
          assert JoinLines(rest) == rest[0] + "\n" + JoinLines(rest[1..]);
          assert ([first] + rest[1..])[1..] == rest[1..];
        }
      }
    }
  }

  /** Splitting newline-free pieces joined by "\n" gives the pieces back. */
  lemma {:induction false} SplitJoin(pieces: seq<string>)
    requires |pieces| >= 1
    requires forall i :: 0 <= i < |pieces| ==> '\n' !in pieces[i]
    ensures SplitLines(JoinLines(pieces)) == pieces
  {
    if |pieces| == 1 {
      SplitNoNewline(pieces[0], []);
      assert pieces[0] + [] == pieces[0];
    } else {
      SplitJoin(pieces[1..]);
      var tail := "\n" + JoinLines(pieces[1..]);
      SplitNoNewline(pieces[0], tail);
      assert JoinLines(pieces) == pieces[0] + tail;
      assert tail[1..] == JoinLines(pieces[1..]);
      assert [pieces[0]] + pieces[1..] == pieces;
    }
  }

  /** Splitting `p + t`, where `p` has no newline and `t` is empty or starts
      with one, puts `p` in the first piece alone. */
  lemma {:induction false} SplitNoNewline(p: string, t: string)
    requires '\n' !in p
    requires t == [] || t[0] == '\n'
    ensures SplitLines(p + t) == (if t == [] then [p] else [p] + SplitLines(t[1..]))
  {
    if p == [] {
      assert p + t == t;
    } else {
      assert (p + t)[1..] == p[1..] + t;
      SplitNoNewline(p[1..], t);
      assert [p[0]] + p[1..] == p;
    }
  }

  /** The decimal digit for `d`. */
  function DigitChar(d: nat): char
    requires d < 10
  {
    "0123456789"[d]
  }

  /** The value of a decimal digit character. */
  function DigitValue(c: char): nat
    requires '0' <= c <= '9'
  {
    (c as int) - ('0' as int)
  }

  /** True of a non-empty string of decimal digits. */
  predicate IsDigits(s: string) {
    |s| >= 1 && forall i :: 0 <= i < |s| ==> '0' <= s[i] <= '9'
  }

  /** The number a string of decimal digits denotes. */
  function DigitsValue(s: string): nat
    requires forall i :: 0 <= i < |s| ==> '0' <= s[i] <= '9'
  {
    if s == [] then 0 else 10 * DigitsValue(s[..|s| - 1]) + DigitValue(s[|s| - 1])
  }

  /** Python's `str(n)` / `f"{n}"` for a non-negative integer. */
  function NatToString(n: nat): (r: string)
    ensures IsDigits(r)
  {
    if n < 10 then [DigitChar(n)] else NatToString(n / 10) + [DigitChar(n % 10)]
  }

  /** Python's `str(i)` for any integer. */
  function IntToString(i: int): (r: string)
    ensures |r| >= 1
  {
    if i < 0 then "-" + NatToString(-i) else NatToString(i)
  }

  /** Reading back the decimal text of `n` gives `n`. */
  lemma {:induction false} NatToStringValue(n: nat)
    ensures DigitsValue(NatToString(n)) == n
  {
    var r := NatToString(n);
    if n >= 10 {
      NatToStringValue(n / 10);
      assert r[..|r| - 1] == NatToString(n / 10);
    }
  }

  /** A run of digits followed by a non-digit is determined by the string:
      two such splits of one string split it at the same place. */
  lemma DigitsPrefixUnique(a: string, b: string, t1: string, t2: string)
    requires IsDigits(a) && IsDigits(b)
    requires t1 != [] && !('0' <= t1[0] <= '9')
    requires t2 != [] && !('0' <= t2[0] <= '9')
    requires a + t1 == b + t2
    ensures a == b
  {
    assert (a + t1)[|a|] == t1[0] && (b + t2)[|b|] == t2[0];
    assert a == (a + t1)[..|a|];
    assert b == (b + t2)[..|b|];
  }

  /** Names that put different numbers between the same prefix and the
      same suffix differ, when the suffix does not start with a digit. */
  lemma NumberedNamesDistinct(p: string, m: nat, n: nat, t: string)
    requires m != n && t != [] && !('0' <= t[0] <= '9')
    ensures p + NatToString(m) + t != p + NatToString(n) + t
  {
    if p + NatToString(m) + t == p + NatToString(n) + t {
      assert (p + NatToString(m) + t)[|p|..] == NatToString(m) + t;
      assert (p + NatToString(n) + t)[|p|..] == NatToString(n) + t;
      DigitsPrefixUnique(NatToString(m), NatToString(n), t, t);
      NatToStringInjective(m, n);
    }
  }

  /** A line that starts with "/" is not blank. */
  lemma SlashLineNotBlank(line: string)
    requires StartsWith(line, "/")
    ensures Strip(line) != ""
  {
    assert line[0] == line[..1][0] == '/';
    StripEmptyIffAllSpace(line);
  }

  /** Different numbers have different decimal texts. */
  lemma NatToStringInjective(m: nat, n: nat)
    requires NatToString(m) == NatToString(n)
    ensures m == n
  {
    NatToStringValue(m);
    NatToStringValue(n);
  }
}
