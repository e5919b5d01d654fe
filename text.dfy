/**
 * String helpers the customize engine relies on, written out because Dafny
 * strings are plain `seq<char>`:
 *  - `Split`     : Go's `strings.Split(s, sep)` for a one-character separator,
 *  - `Join`      : Go's `strings.Join`,
 *  - `TrimSpace` : Go's `strings.TrimSpace` (Unicode White_Space on both ends),
 *  - `IntToString`: Go's `strconv.Itoa`, with its inverse `ParseInt`.
 */
module Text {

  // ---------------------------------------------------------------------
  // Whitespace and trimming
  // ---------------------------------------------------------------------

  /** The characters Go's `unicode.IsSpace` reports as white space. */
  predicate IsSpace(c: char) {
    c == ' ' || c == '\t' || c == '\n' || c == '\r' || c == '\U{000B}' || c == '\U{000C}'
    || c == '\U{0085}' || c == '\U{00A0}' || c == '\U{1680}'
    || ('\U{2000}' <= c <= '\U{200A}')
    || c == '\U{2028}' || c == '\U{2029}' || c == '\U{202F}' || c == '\U{205F}' || c == '\U{3000}'
  }

  predicate AllSpace(s: string) {
    forall k :: 0 <= k < |s| ==> IsSpace(s[k])
  }

  /** Number of white-space characters `s` starts with. */
  function LeadingSpaces(s: string): (n: nat)
    ensures n <= |s|
    ensures forall k :: 0 <= k < n ==> IsSpace(s[k])
    ensures n < |s| ==> !IsSpace(s[n])
    decreases |s|
  {
    if |s| > 0 && IsSpace(s[0]) then 1 + LeadingSpaces(s[1..]) else 0
  }

  /** Number of white-space characters `s` ends with. */
  function TrailingSpaces(s: string): (n: nat)
    ensures n <= |s|
    ensures forall k :: |s| - n <= k < |s| ==> IsSpace(s[k])
    ensures n < |s| ==> !IsSpace(s[|s| - n - 1])
    decreases |s|
  {
    if |s| > 0 && IsSpace(s[|s| - 1]) then 1 + TrailingSpaces(s[..|s| - 1]) else 0
  }

  /** `s` with its leading white space removed. */
  function TrimLeft(s: string): string {
    s[LeadingSpaces(s)..]
  }

  /** `s` with its trailing white space removed. */
  function TrimRight(s: string): string {
    s[..|s| - TrailingSpaces(s)]
  }

  /** Go's `strings.TrimSpace`. See `TrimSpaceKeepsCore`. */
  function TrimSpace(s: string): string
  {
    TrimRight(TrimLeft(s))
  }

  /**
   * What `TrimSpace` promises: the result is the slice `s[i..j]`, only white
   * space was cut on either side, and the result neither starts nor ends
   * with white space.
   */
  lemma TrimSpaceKeepsCore(s: string)
    ensures var i := LeadingSpaces(s);
            var j := i + |TrimSpace(s)|;
            && j <= |s| && TrimSpace(s) == s[i..j]
            && (forall k :: 0 <= k < i ==> IsSpace(s[k]))
            && (forall k :: j <= k < |s| ==> IsSpace(s[k]))
  {
    var i := LeadingSpaces(s);
    var l := s[i..];
    var t := TrailingSpaces(l);
    var r := TrimSpace(s);
    assert r == l[..|l| - t];
    var j := i + |r|;
    assert r == s[i..j];
    forall k | j <= k < |s|
      ensures IsSpace(s[k])
    {
      assert s[k] == l[k - i];
    }
  }

  /** The result of `TrimSpace` neither starts nor ends with white space. */
  lemma TrimSpaceEnds(s: string)
    ensures var r := TrimSpace(s); r == [] || (!IsSpace(r[0]) && !IsSpace(r[|r| - 1]))
  {
    var l := TrimLeft(s);
    var r := TrimSpace(s);
    if r != [] {
      assert r[0] == l[0];
    }
  }

  /** Trimming removes everything exactly when `s` is all white space. */
  lemma TrimSpaceEmptyIff(s: string)
    ensures TrimSpace(s) == [] <==> AllSpace(s)
  {
    var i := LeadingSpaces(s);
    var l := s[i..];
    if TrimSpace(s) == [] {
      assert TrailingSpaces(l) == |l|;
      assert i == |s|;
    } else {
      assert i < |s| && !IsSpace(s[i]);
    }
  }

  /** Trimming never introduces a character that was not in the input. */
  lemma TrimSpaceSubset(s: string, c: char)
    requires c !in s
    ensures c !in TrimSpace(s)
  {
  }

  /** `TrimSpace` is idempotent. */
  lemma TrimSpaceIdempotent(s: string)
    ensures TrimSpace(TrimSpace(s)) == TrimSpace(s)
  {
    var r := TrimSpace(s);
    TrimSpaceEnds(s);
    if r != [] {
      assert LeadingSpaces(r) == 0;
      assert TrimLeft(r) == r;
      assert TrailingSpaces(r) == 0;
    }
  }

  /** White space in front of a part that does not start with white space is exactly what is counted. */
  lemma {:induction false} LeadingSpacesOf(a: string, rest: string)
    requires AllSpace(a)
    requires rest == [] || !IsSpace(rest[0])
    ensures LeadingSpaces(a + rest) == |a|
    decreases |a|
  {
    if |a| > 0 {
      assert (a + rest)[1..] == a[1..] + rest;
      LeadingSpacesOf(a[1..], rest);
    }
  }

  /** White space after a part that does not end with white space is exactly what is counted. */
  lemma {:induction false} TrailingSpacesOf(rest: string, b: string)
    requires AllSpace(b)
    requires rest == [] || !IsSpace(rest[|rest| - 1])
    ensures TrailingSpaces(rest + b) == |b|
    decreases |b|
  {
    if |b| > 0 {
      assert (rest + b)[..|rest + b| - 1] == rest + b[..|b| - 1];
      TrailingSpacesOf(rest, b[..|b| - 1]);
    }
  }

  /** Trimming `a + core + b` with white-space `a` and `b` gives `core` when `core` has no white-space ends. */
  lemma TrimSpaceOfCore(a: string, core: string, b: string)
    requires AllSpace(a) && AllSpace(b)
    requires |core| > 0 && !IsSpace(core[0]) && !IsSpace(core[|core| - 1])
    ensures TrimSpace(a + core + b) == core
  {
    var s := a + core + b;
    assert s == a + (core + b);
    LeadingSpacesOf(a, core + b);
    assert TrimLeft(s) == core + b;
    TrailingSpacesOf(core, b);
    assert TrimRight(core + b) == core;
  }

  /** Go's `strings.TrimSpace` on every element of a sequence. */
  function TrimAll(parts: seq<string>): (r: seq<string>)
    ensures |r| == |parts|
    ensures forall k :: 0 <= k < |r| ==> r[k] == TrimSpace(parts[k])
  {
    seq(|parts|, k requires 0 <= k < |parts| => TrimSpace(parts[k]))
  }

  /**
   * The comma-list idiom of the engine: split on `sep`, then trim each
   * piece. Used for watched namespaces and node-affinity label values.
   */
  function SplitAndTrim(s: string, sep: char): seq<string> {
    TrimAll(Split(s, sep))
  }

  // ---------------------------------------------------------------------
  // Split and Join on a one-character separator
  // ---------------------------------------------------------------------

  /** Number of occurrences of `c` in `s`. */
  function Count(s: string, c: char): nat {
    if |s| == 0 then 0 else (if s[0] == c then 1 else 0) + Count(s[1..], c)
  }

  /**
   * Go's `strings.Split(s, string(sep))`: the pieces between separators,
   * always at least one piece (the empty string splits into `[""]`), and no
   * piece contains the separator.
   */
  function Split(s: string, sep: char): (r: seq<string>)
    ensures |r| == Count(s, sep) + 1
    ensures forall k :: 0 <= k < |r| ==> sep !in r[k]
    decreases |s|
  {
    if |s| == 0 then [""]
    else
      var rest := Split(s[1..], sep);
      if s[0] == sep then [""] + rest
      else [[s[0]] + rest[0]] + rest[1..]
  }

  /** Go's `strings.Join(parts, sep)`. */
  function Join(parts: seq<string>, sep: string): string
  {
    if |parts| == 0 then ""
    else if |parts| == 1 then parts[0]
    else parts[0] + sep + Join(parts[1..], sep)
  }

  lemma JoinCons(head: string, tail: seq<string>, sep: string)
    requires |tail| >= 1
    ensures Join([head] + tail, sep) == head + sep + Join(tail, sep)
  {
    assert ([head] + tail)[1..] == tail;
  }

  /** Joining the pieces of a split with the separator gives back the input. */
  lemma {:induction false} JoinSplit(s: string, sep: char)
    ensures Join(Split(s, sep), [sep]) == s
    decreases |s|
  {
    if |s| > 0 {
      var rest := Split(s[1..], sep);
      JoinSplit(s[1..], sep);
      if s[0] == sep {
        JoinCons("", rest, [sep]);
        assert s == [sep] + s[1..];
      } else if |rest| == 1 {
        assert s == [s[0]] + s[1..];
      } else {
        JoinCons([s[0]] + rest[0], rest[1..], [sep]);
        JoinCons(rest[0], rest[1..], [sep]);
        assert [rest[0]] + rest[1..] == rest;
        assert s == [s[0]] + s[1..];
      }
    }
  }

  /** A string free of the separator splits into itself alone. */
  lemma {:induction false} SplitWithoutSeparator(s: string, sep: char)
    requires sep !in s
    ensures Split(s, sep) == [s]
    decreases |s|
  {
    if |s| > 0 {
      SplitWithoutSeparator(s[1..], sep);
      assert s == [s[0]] + s[1..];
    }
  }

  /** Splitting `a + sep + b`, where `a` has no separator, peels off `a`. */
  lemma {:induction false} SplitAfterPiece(a: string, sep: char, b: string)
    requires sep !in a
    ensures Split(a + [sep] + b, sep) == [a] + Split(b, sep)
    decreases |a|
  {
    var s := a + [sep] + b;
    if |a| == 0 {
      assert s[1..] == b;
    } else {
      assert s[1..] == a[1..] + [sep] + b;
      SplitAfterPiece(a[1..], sep, b);
      assert [a[0]] + a[1..] == a;
    }
  }

  /** Splitting a join of separator-free pieces gives back the pieces. */
  lemma {:induction false} SplitJoin(parts: seq<string>, sep: char)
    requires |parts| >= 1
    requires forall k :: 0 <= k < |parts| ==> sep !in parts[k]
    ensures Split(Join(parts, [sep]), sep) == parts
    decreases |parts|
  {
    if |parts| == 1 {
      SplitWithoutSeparator(parts[0], sep);
    } else {
      SplitJoin(parts[1..], sep);
      SplitAfterPiece(parts[0], sep, Join(parts[1..], [sep]));
      assert [parts[0]] + parts[1..] == parts;
    }
  }

  /** A separator in `s` always yields at least two pieces. */
  lemma {:induction false} CountPositive(s: string, c: char)
    requires c in s
    ensures Count(s, c) >= 1
    decreases |s|
  {
    if s[0] != c {
      assert c in s[1..];
      CountPositive(s[1..], c);
    }
  }

  /**
   * Every piece `SplitAndTrim` yields is free of the separator and already
   * trimmed, and there is one piece per separator plus one.
   */
  lemma SplitAndTrimClean(s: string, sep: char)
    ensures var r := SplitAndTrim(s, sep);
            && |r| == Count(s, sep) + 1
            && forall k :: 0 <= k < |r| ==> sep !in r[k] && TrimSpace(r[k]) == r[k]
  {
    var parts := Split(s, sep);
    var r := SplitAndTrim(s, sep);
    forall k | 0 <= k < |r|
      ensures sep !in r[k] && TrimSpace(r[k]) == r[k]
    {
      TrimSpaceSubset(parts[k], sep);
      TrimSpaceIdempotent(parts[k]);
    }
  }

  /** A padded word followed by a separator: `SplitAndTrim` yields the word, then the rest's pieces. */
  lemma SplitAndTrimPaddedPiece(a: string, core: string, b: string, sep: char, rest: string)
    requires AllSpace(a) && AllSpace(b) && sep !in a && sep !in core && sep !in b
    requires |core| > 0 && !IsSpace(core[0]) && !IsSpace(core[|core| - 1])
    ensures SplitAndTrim(a + core + b + [sep] + rest, sep) == [core] + SplitAndTrim(rest, sep)
  {
    var piece := a + core + b;
    assert sep !in piece;
    SplitAfterPiece(piece, sep, rest);
    TrimSpaceOfCore(a, core, b);
    var parts := Split(piece + [sep] + rest, sep);
    assert parts == [piece] + Split(rest, sep);
    assert SplitAndTrim(piece + [sep] + rest, sep)[1..] == SplitAndTrim(rest, sep);
  }

  /** A padded word with no separator: `SplitAndTrim` yields the word alone. */
  lemma SplitAndTrimPaddedLast(a: string, core: string, b: string, sep: char)
    requires AllSpace(a) && AllSpace(b) && sep !in a && sep !in core && sep !in b
    requires |core| > 0 && !IsSpace(core[0]) && !IsSpace(core[|core| - 1])
    ensures SplitAndTrim(a + core + b, sep) == [core]
  {
    SplitWithoutSeparator(a + core + b, sep);
    TrimSpaceOfCore(a, core, b);
  }

  // ---------------------------------------------------------------------
  // Prefixes
  // ---------------------------------------------------------------------

  predicate HasPrefix(s: string, prefix: string) {
    |prefix| <= |s| && s[..|prefix|] == prefix
  }

  predicate HasSuffix(s: string, suffix: string) {
    |suffix| <= |s| && s[|s| - |suffix|..] == suffix
  }

  // ---------------------------------------------------------------------
  // Decimal rendering of integers (strconv.Itoa) and its inverse
  // ---------------------------------------------------------------------

  predicate IsDigit(c: char) {
    '0' <= c <= '9'
  }

  predicate AllDigits(s: string) {
    forall k :: 0 <= k < |s| ==> IsDigit(s[k])
  }

  function DigitChar(d: nat): (c: char)
    requires d < 10
  {
    ('0' as int + d) as char
  }

  function DigitValue(c: char): nat
    requires IsDigit(c)
  {
    c as int - '0' as int
  }

  /** Decimal digits of `n`, most significant first, without leading zeros. */
  function NatToString(n: nat): (s: string)
    ensures |s| >= 1 && AllDigits(s)
    ensures s[0] == '0' ==> n == 0
    decreases n
  {
    if n < 10 then [DigitChar(n)] else NatToString(n / 10) + [DigitChar(n % 10)]
  }

  /** The value of a string of decimal digits. */
  function ParseNat(s: string): nat
    requires AllDigits(s)
    decreases |s|
  {
    if |s| == 0 then 0 else ParseNat(s[..|s| - 1]) * 10 + DigitValue(s[|s| - 1])
  }

  /** Go's `strconv.Itoa`: a minus sign for negative values, then the digits. */
  function IntToString(i: int): (s: string)
  {
    if i < 0 then "-" + NatToString(-i) else NatToString(i)
  }

  /** Inverse of `IntToString` on its image. */
  function ParseInt(s: string): int
    requires (|s| > 0 && s[0] == '-' && AllDigits(s[1..])) || AllDigits(s)
  {
    if |s| > 0 && s[0] == '-' then -(ParseNat(s[1..]) as int) else ParseNat(s)
  }

  lemma {:induction false} ParseNatToString(n: nat)
    ensures ParseNat(NatToString(n)) == n
    decreases n
  {
    if n >= 10 {
      var s := NatToString(n);
      ParseNatToString(n / 10);
      assert s[..|s| - 1] == NatToString(n / 10);
    }
  }

  /** Reading back the decimal rendering of `i` gives `i`. */
  lemma ParseIntToString(i: int)
    ensures var s := IntToString(i);
            ((|s| > 0 && s[0] == '-' && AllDigits(s[1..])) || AllDigits(s))
            && ParseInt(s) == i
  {
    if i < 0 {
      assert IntToString(i)[1..] == NatToString(-i);
      ParseNatToString(-i);
    } else {
      ParseNatToString(i);
    }
  }

  /** Distinct integers have distinct decimal renderings. */
  lemma IntToStringInjective(i: int, j: int)
    requires IntToString(i) == IntToString(j)
    ensures i == j
  {
    ParseIntToString(i);
    ParseIntToString(j);
  }
}
