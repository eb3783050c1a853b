/**
 * The PHP string built-ins the reporter relies on, written out: `explode` and
 * `implode` on a one-character separator, `trim` with a character list,
 * `number_format($i, 0, "", "")` on integers, and the `strtr` call that escapes
 * strings for display.
 */
module Text {

  /** PHP's default `trim` character list: space, tab, LF, CR, NUL and vertical tab. */
  const PhpWhitespace: set<char> := {' ', '\t', '\n', '\r', '\0', '\U{0B}'}

  /** The character list "\r\n" the reporter passes to `trim`. */
  const LineBreaks: set<char> := {'\r', '\n'}

  // ---------------------------------------------------------------------------
  // explode / implode

  /** `explode(sep, s)`: the pieces of `s` between occurrences of `sep`, in order. */
  function Split(s: string, sep: char): (parts: seq<string>)
    ensures |parts| == multiset(s)[sep] + 1
    ensures forall k :: 0 <= k < |parts| ==> sep !in parts[k]
  {
    if s == [] then [""]
    else
      var rest := Split(s[1..], sep);
      assert s == [s[0]] + s[1..];
      if s[0] == sep then [""] + rest
      else [[s[0]] + rest[0]] + rest[1..]
  }

  /** `implode(sep, parts)`. */
  function Join(parts: seq<string>, sep: string): string
  {
    if |parts| == 0 then ""
    else if |parts| == 1 then parts[0]
    else parts[0] + sep + Join(parts[1..], sep)
  }

  /** Splitting on a character and joining with it gives the string back. */
  lemma {:induction false} SplitThenJoin(s: string, sep: char)
    ensures Join(Split(s, sep), [sep]) == s
  {
    if s != [] {
      var rest := Split(s[1..], sep);
      SplitThenJoin(s[1..], sep);
      assert s == [s[0]] + s[1..];
      if s[0] == sep {
        assert Split(s, sep) == [""] + rest;
        JoinEmptyHead(rest, [sep]);
      } else {
        assert Split(s, sep) == [[s[0]] + rest[0]] + rest[1..];
        JoinExtendHead(s[0], rest, [sep]);
      }
    }
  }

  /** An empty first piece contributes only the separator after it. */
  lemma JoinEmptyHead(rest: seq<string>, sep: string)
    requires |rest| >= 1
    ensures Join([""] + rest, sep) == sep + Join(rest, sep)
  {
    var parts := [""] + rest;
    assert parts[0] == "" && parts[1..] == rest;
  }

  /** A character put before the first piece comes first in the joined string. */
  lemma JoinExtendHead(c: char, rest: seq<string>, sep: string)
    requires |rest| >= 1
    ensures Join([[c] + rest[0]] + rest[1..], sep) == [c] + Join(rest, sep)
  {
    var parts := [[c] + rest[0]] + rest[1..];
    if |rest| > 1 {
      assert parts[0] == [c] + rest[0] && parts[1..] == rest[1..];
      assert Join(rest, sep) == rest[0] + sep + Join(rest[1..], sep);
      assert Join(parts, sep) == [c] + rest[0] + sep + Join(rest[1..], sep);
    }
  }

  lemma {:induction false} SplitWithoutSeparator(p: string, sep: char)
    requires sep !in p
    ensures Split(p, sep) == [p]
  {
    if p != [] {
      SplitWithoutSeparator(p[1..], sep);
      assert p == [p[0]] + p[1..];
    }
  }

  lemma {:induction false} SplitAfterPiece(p: string, sep: char, t: string)
    requires sep !in p
    ensures Split(p + [sep] + t, sep) == [p] + Split(t, sep)
  {
    var s := p + [sep] + t;
    if p == [] {
      assert s[0] == sep && s[1..] == t;
    } else {
      SplitAfterPiece(p[1..], sep, t);
      assert s[0] == p[0] && s[1..] == p[1..] + [sep] + t;
      assert p == [p[0]] + p[1..];
    }
  }

  /** Joining separator-free pieces and splitting again gives the pieces back. */
  lemma {:induction false} JoinThenSplit(parts: seq<string>, sep: char)
    requires |parts| >= 1
    requires forall k :: 0 <= k < |parts| ==> sep !in parts[k]
    ensures Split(Join(parts, [sep]), sep) == parts
  {
    if |parts| == 1 {
      SplitWithoutSeparator(parts[0], sep);
    } else {
      JoinThenSplit(parts[1..], sep);
      SplitAfterPiece(parts[0], sep, Join(parts[1..], [sep]));
      assert parts == [parts[0]] + parts[1..];
    }
  }

  // ---------------------------------------------------------------------------
  // trim

  /** How many leading characters of `s` belong to `cs`. */
  function LeadLength(s: string, cs: set<char>): (n: nat)
    ensures n <= |s|
    ensures forall k :: 0 <= k < n ==> s[k] in cs
    ensures n < |s| ==> s[n] !in cs
  {
    if s != [] && s[0] in cs then 1 + LeadLength(s[1..], cs) else 0
  }

  /** How many trailing characters of `s` belong to `cs`. */
  function TrailLength(s: string, cs: set<char>): (n: nat)
    ensures n <= |s|
    ensures forall k :: |s| - n <= k < |s| ==> s[k] in cs
    ensures n < |s| ==> s[|s| - n - 1] !in cs
  {
    if s != [] && s[|s| - 1] in cs then 1 + TrailLength(s[..|s| - 1], cs) else 0
  }

  /**
   * `trim(s, cs)`: what remains neither starts nor ends with a character of `cs`,
   * it is empty exactly when every character of `s` is in `cs`, and otherwise it is
   * `s` without its leading and trailing run of such characters.
   */
  function Trim(s: string, cs: set<char>): (r: string)
    ensures r != [] ==> r[0] !in cs && r[|r| - 1] !in cs
    ensures r == [] <==> forall k :: 0 <= k < |s| ==> s[k] in cs
    ensures r != [] ==> LeadLength(s, cs) <= |s| - TrailLength(s, cs) &&
                        r == s[LeadLength(s, cs)..|s| - TrailLength(s, cs)]
  {
    var right := s[..|s| - TrailLength(s, cs)];
    TrimmedSlice(s, cs);
    right[LeadLength(right, cs)..]
  }

  lemma TrimmedSlice(s: string, cs: set<char>)
    ensures var right := s[..|s| - TrailLength(s, cs)];
            var start := LeadLength(right, cs);
            (start < |right| ==> LeadLength(s, cs) == start) &&
            (start == |right| ==> forall k :: 0 <= k < |s| ==> s[k] in cs)
  {
    var right := s[..|s| - TrailLength(s, cs)];
    var start := LeadLength(right, cs);
    if start < |right| {
      assert s[start] == right[start];
    } else {
      forall k | 0 <= k < |s|
        ensures s[k] in cs
      {
        if k < |right| {
          assert right[k] in cs;
        }
      }
    }
  }

  // ---------------------------------------------------------------------------
  // number_format($i, 0, "", "") on integers

  predicate IsDigit(c: char) { '0' <= c <= '9' }

  predicate AllDigits(s: string) { forall k :: 0 <= k < |s| ==> IsDigit(s[k]) }

  /** An optional minus sign followed by at least one digit. */
  predicate IsDecimal(s: string)
  {
    |s| >= 1 &&
    if s[0] == '-' then |s| >= 2 && AllDigits(s[1..]) else AllDigits(s)
  }

  function DigitChar(d: nat): (c: char)
    requires d < 10
    ensures IsDigit(c)
  {
    (48 + d) as char
  }

  /** The decimal digits of `n`, most significant first, with no leading zero. */
  function NatToDigits(n: nat): (r: string)
    ensures |r| >= 1 && AllDigits(r)
    ensures r[0] == '0' ==> n == 0
    decreases n
  {
    if n < 10 then [DigitChar(n)] else NatToDigits(n / 10) + [DigitChar(n % 10)]
  }

  /** How an integer is rendered: plain decimal digits, a minus sign when negative. */
  function IntToString(i: int): (r: string)
    ensures IsDecimal(r)
    ensures r[0] == '-' <==> i < 0
  {
    if i < 0 then "-" + NatToDigits(-i) else NatToDigits(i)
  }

  /** The number a digit string denotes. */
  function DigitsValue(s: string): nat
    requires AllDigits(s)
  {
    if s == [] then 0 else DigitsValue(s[..|s| - 1]) * 10 + (s[|s| - 1] as int - 48)
  }

  /** The integer a decimal string denotes: the reading against which rendering is checked. */
  function ParseInt(s: string): int
    requires IsDecimal(s)
  {
    if s[0] == '-' then -(DigitsValue(s[1..]) as int) else DigitsValue(s)
  }

  lemma {:induction false} DigitsRoundTrip(n: nat)
    ensures DigitsValue(NatToDigits(n)) == n
  {
    if n >= 10 {
      var r := NatToDigits(n);
      DigitsRoundTrip(n / 10);
      assert r[..|r| - 1] == NatToDigits(n / 10);
    }
  }

  /** Reading the rendered integer back gives the integer: the rendering loses nothing. */
  lemma IntToStringRoundTrip(i: int)
    ensures ParseInt(IntToString(i)) == i
  {
    if i < 0 {
      var d := NatToDigits(-i);
      assert IntToString(i) == "-" + d;
      assert ("-" + d)[1..] == d;
      DigitsRoundTrip(-i);
    } else {
      DigitsRoundTrip(i);
    }
  }

  // ---------------------------------------------------------------------------
  // strtr($s, ["\r" => '\r', '"' => '\"'])

  function EscapeChar(c: char): string
  {
    if c == '\r' then "\\r" else if c == '"' then "\\\"" else [c]
  }

  /**
   * The escaping applied to strings before they are quoted: only CR and the double
   * quote are replaced; every other character, backslash and LF included, is kept.
   */
  function Escape(s: string): (r: string)
    ensures '\r' !in r
    ensures forall k :: 0 <= k < |r| && r[k] == '"' ==> 0 < k && r[k - 1] == '\\'
    ensures forall c :: c != '\r' && c != '"' && c != '\\' && c != 'r' ==> (c in r <==> c in s)
  {
    if s == [] then []
    else
      var e, rest := EscapeChar(s[0]), Escape(s[1..]);
      assert s == [s[0]] + s[1..];
      assert forall k :: |e| <= k < |e + rest| ==> (e + rest)[k] == rest[k - |e|];
      e + rest
  }

  /** Reverses the two replacements of `Escape`. */
  function Unescape(s: string): string
  {
    if |s| >= 2 && s[0] == '\\' && s[1] == 'r' then "\r" + Unescape(s[2..])
    else if |s| >= 2 && s[0] == '\\' && s[1] == '"' then "\"" + Unescape(s[2..])
    else if s == [] then []
    else [s[0]] + Unescape(s[1..])
  }

  /** For strings without a backslash the escaping is undone by `Unescape`. */
  lemma {:induction false} UnescapeInvertsEscape(s: string)
    requires '\\' !in s
    ensures Unescape(Escape(s)) == s
  {
    if s != [] {
      UnescapeInvertsEscape(s[1..]);
      var rest := Escape(s[1..]);
      assert Escape(s) == EscapeChar(s[0]) + rest;
      if s[0] == '\r' {
        assert ("\\r" + rest)[2..] == rest;
      } else if s[0] == '"' {
        assert ("\\\"" + rest)[2..] == rest;
      } else {
        assert ([s[0]] + rest)[1..] == rest;
      }
      assert s == [s[0]] + s[1..];
    }
  }

  /** A literal backslash is not escaped, so a CR and the two characters `\r` print alike. */
  lemma EscapeConflatesBackslash()
    ensures Escape("\r") == Escape("\\r")
    ensures "\r" != "\\r"
  {
  }
}
