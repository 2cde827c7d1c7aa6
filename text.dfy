/**
 * The few JavaScript string operations the handlers depend on: `startsWith`,
 * a global literal `replace`, `split`/`join`, number-to-text conversion and
 * the UTF-16 `length` of a string.
 */
module Text {

  predicate StartsWith(s: string, prefix: string)
  {
    |prefix| <= |s| && s[..|prefix|] == prefix
  }

  /** `p` occurs somewhere inside `s`. */
  predicate Occurs(s: string, p: string)
  {
    exists i | 0 <= i <= |s| :: StartsWith(s[i..], p)
  }

  /**
   * `s.replace(/p/g, r)` for a literal, non-empty pattern: the matches are found
   * left to right and do not overlap. The replacement is taken literally
   * (JavaScript's `$`-patterns are not modelled).
   */
  function ReplaceAll(s: string, p: string, r: string): string
    requires p != []
    decreases |s|
  {
    if |s| < |p| then s
    else if s[..|p|] == p then r + ReplaceAll(s[|p|..], p, r)
    else [s[0]] + ReplaceAll(s[1..], p, r)
  }

  /** `parts.join(sep)`. */
  function Join(parts: seq<string>, sep: string): string
  {
    if |parts| == 0 then []
    else if |parts| == 1 then parts[0]
    else parts[0] + sep + Join(parts[1..], sep)
  }

  /** `s.split(p)`, with `piece` the part of the current field already read. */
  function SplitFrom(s: string, p: string, piece: string): (parts: seq<string>)
    requires p != []
    ensures |parts| >= 1
    decreases |s|
  {
    if |s| < |p| then [piece + s]
    else if s[..|p|] == p then [piece] + SplitFrom(s[|p|..], p, [])
    else SplitFrom(s[1..], p, piece + [s[0]])
  }

  function Split(s: string, p: string): seq<string>
    requires p != []
  {
    SplitFrom(s, p, [])
  }

  lemma {:induction false} JoinSplitFrom(s: string, p: string, r: string, piece: string)
    requires p != []
    ensures Join(SplitFrom(s, p, piece), r) == piece + ReplaceAll(s, p, r)
    decreases |s|
  {
    if |s| < |p| {
    } else if s[..|p|] == p {
      var rest := SplitFrom(s[|p|..], p, []);
      JoinSplitFrom(s[|p|..], p, r, []);
      assert ([piece] + rest)[1..] == rest;
      assert Join([piece] + rest, r) == piece + r + Join(rest, r);
    } else {
      JoinSplitFrom(s[1..], p, r, piece + [s[0]]);
      assert piece + [s[0]] + ReplaceAll(s[1..], p, r) == piece + ([s[0]] + ReplaceAll(s[1..], p, r));
    }
  }

  /** The global replace agrees with the reference definition `s.split(p).join(r)`. */
  lemma ReplaceAllIsSplitJoin(s: string, p: string, r: string)
    requires p != []
    ensures ReplaceAll(s, p, r) == Join(Split(s, p), r)
  {
    JoinSplitFrom(s, p, r, []);
    assert [] + ReplaceAll(s, p, r) == ReplaceAll(s, p, r);
  }

  /** A pattern that does not occur leaves the text untouched. */
  lemma {:induction false} ReplaceAllAbsent(s: string, p: string, r: string)
    requires p != []
    requires !Occurs(s, p)
    ensures ReplaceAll(s, p, r) == s
    decreases |s|
  {
    if |s| >= |p| {
      assert s[0..] == s;
      assert !StartsWith(s[0..], p);
      forall i | 0 <= i <= |s[1..]|
        ensures !StartsWith(s[1..][i..], p)
      {
        assert s[1..][i..] == s[i + 1..];
      }
      ReplaceAllAbsent(s[1..], p, r);
    }
  }

  /** A pattern occurs only in a text that holds its first character. */
  lemma OccursHasFirst(s: string, p: string)
    requires p != []
    requires p[0] !in s
    ensures !Occurs(s, p)
  {
    forall i | 0 <= i <= |s|
      ensures !StartsWith(s[i..], p)
    {
      if i < |s| {
        assert s[i..][0] == s[i];
      }
    }
  }

  predicate IsDigit(c: char)
  {
    '0' <= c <= '9'
  }

  function DigitValue(c: char): nat
    requires IsDigit(c)
  {
    c as int - '0' as int
  }

  function DigitChar(d: nat): (c: char)
    requires d < 10
    ensures IsDigit(c) && DigitValue(c) == d
  {
    ('0' as int + d) as char
  }

  /** JavaScript's decimal text of a non-negative integer (below 10^21): no sign, no leading zero. */
  function NatToString(n: nat): (s: string)
    ensures |s| >= 1
    ensures forall i | 0 <= i < |s| :: IsDigit(s[i])
    ensures s[0] == '0' ==> n == 0
    decreases n
  {
    if n < 10 then [DigitChar(n)] else NatToString(n / 10) + [DigitChar(n % 10)]
  }

  /** The value of a string of decimal digits. */
  function ParseDecimal(s: string): nat
    requires forall i | 0 <= i < |s| :: IsDigit(s[i])
  {
    if s == [] then 0
    else 10 * ParseDecimal(s[..|s| - 1]) + DigitValue(s[|s| - 1])
  }

  /** Reading back the decimal text of a number gives the number. */
  lemma {:induction false} ParseNatToString(n: nat)
    ensures ParseDecimal(NatToString(n)) == n
    decreases n
  {
    var s := NatToString(n);
    if n >= 10 {
      ParseNatToString(n / 10);
      assert s[..|s| - 1] == NatToString(n / 10);
    }
  }

  /** Distinct numbers have distinct decimal texts. */
  lemma NatToStringInjective(n: nat, m: nat)
    requires NatToString(n) == NatToString(m)
    ensures n == m
  {
    ParseNatToString(n);
    ParseNatToString(m);
  }

  /** Number of UTF-16 code units of one character (what `String.length` counts). */
  function Utf16Units(c: char): nat
  {
    if c as int > 0xFFFF then 2 else 1
  }

  /** JavaScript's `s.length`: characters outside the Basic Multilingual Plane count twice. */
  function Utf16Length(s: string): (n: nat)
    ensures |s| <= n <= 2 * |s|
  {
    if s == [] then 0 else Utf16Units(s[0]) + Utf16Length(s[1..])
  }
}
