/**
 * The few Python `str` operations the backend relies on, stated over `seq<char>`:
 * `strip()`, `split(sep)`, `sep.join(...)`, `replace(c, '')`, `upper()`,
 * `startswith`, the ordering of `<` and `>=` on strings, and `str(n)` for a
 * non-negative integer.
 */
module Strings {

  // ---------------------------------------------------------------------------
  // Whitespace and strip()
  // ---------------------------------------------------------------------------

  /** The characters for which Python's `str.isspace()` holds; `strip()` removes exactly these. */
  predicate IsSpace(c: char) {
    || c == ' '
    || ('\U{9}' <= c <= '\U{D}')
    || ('\U{1C}' <= c <= '\U{1F}')
    || c == '\U{85}' || c == '\U{A0}' || c == '\U{1680}'
    || ('\U{2000}' <= c <= '\U{200A}')
    || c == '\U{2028}' || c == '\U{2029}' || c == '\U{202F}' || c == '\U{205F}' || c == '\U{3000}'
  }

  predicate HasNoSpace(s: string) {
    forall i :: 0 <= i < |s| ==> !IsSpace(s[i])
  }

  /** How many whitespace characters open `s`: the index of its first non-space, or `|s|`. */
  function LeadingSpaces(s: string): (k: nat)
    ensures k <= |s|
    ensures forall i :: 0 <= i < k ==> IsSpace(s[i])
    ensures k < |s| ==> !IsSpace(s[k])
  {
    if s != [] && IsSpace(s[0]) then 1 + LeadingSpaces(s[1..]) else 0
  }

  /** The index just past the last non-space of `s`, or 0 when there is none. */
  function ContentEnd(s: string): (k: nat)
    ensures k <= |s|
    ensures forall i :: k <= i < |s| ==> IsSpace(s[i])
    ensures k > 0 ==> !IsSpace(s[k - 1])
  {
    if s != [] && IsSpace(s[|s| - 1]) then ContentEnd(s[..|s| - 1]) else |s|
  }

  /**
   * Python's `s.strip()`: the result is the piece of `s` that starts after its
   * leading whitespace; it neither starts nor ends with whitespace, and everything
   * cut off on either side is whitespace.
   */
  function Strip(s: string): (r: string)
    ensures r == [] || (!IsSpace(r[0]) && !IsSpace(r[|r| - 1]))
    ensures LeadingSpaces(s) + |r| <= |s|
    ensures r == s[LeadingSpaces(s)..LeadingSpaces(s) + |r|]
    ensures forall i :: 0 <= i < LeadingSpaces(s) ==> IsSpace(s[i])
    ensures forall i :: LeadingSpaces(s) + |r| <= i < |s| ==> IsSpace(s[i])
  {
    var lo := LeadingSpaces(s);
    var hi := ContentEnd(s);
    if hi <= lo then [] else s[lo..hi]
  }

  /** Stripping a string that holds no whitespace leaves it as it is. */
  lemma StripNoSpace(s: string)
    requires HasNoSpace(s)
    ensures Strip(s) == s
  {
    var r := Strip(s);
    assert |s| > 0 ==> !IsSpace(s[0]) && !IsSpace(s[|s| - 1]);
    assert LeadingSpaces(s) == 0;
    assert |r| == |s|;
  }

  // ---------------------------------------------------------------------------
  // split(sep) and sep.join(parts)
  // ---------------------------------------------------------------------------

  /** The number of times `c` occurs in `s`. */
  function Occurrences(s: string, c: char): nat {
    if s == [] then 0
    else Occurrences(s[..|s| - 1], c) + (if s[|s| - 1] == c then 1 else 0)
  }

  /** `sep.join(parts)`: nothing for no parts, otherwise a text that starts with the first part. */
  function Join(parts: seq<string>, sep: string): (r: string)
    ensures parts == [] ==> r == ""
    ensures parts != [] ==> parts[0] <= r
  {
    if |parts| == 0 then ""
    else if |parts| == 1 then parts[0]
    else Join(parts[..|parts| - 1], sep) + sep + parts[|parts| - 1]
  }

  /** A join ends with its last part. */
  lemma JoinEndsWithLast(parts: seq<string>, sep: string)
    requires parts != []
    ensures var r := Join(parts, sep);
            |parts[|parts| - 1]| <= |r| && r[|r| - |parts[|parts| - 1]|..] == parts[|parts| - 1]
  {
  }

  /**
   * Python's `s.split(sep)` for a one-character separator: one piece more than
   * there are separators, empty pieces kept, and no piece holds the separator.
   */
  function Split(s: string, sep: char): (parts: seq<string>)
    ensures |parts| == Occurrences(s, sep) + 1
    ensures forall i :: 0 <= i < |parts| ==> sep !in parts[i]
  {
    if s == [] then [""]
    else
      var init := Split(s[..|s| - 1], sep);
      var last := s[|s| - 1];
      if last == sep then init + [""]
      else init[..|init| - 1] + [init[|init| - 1] + [last]]
  }

  /** One more character at the end either opens a new piece or extends the last one. */
  lemma SplitStep(s: string, c: char, sep: char)
    ensures Split(s + [c], sep) ==
      var init := Split(s, sep);
      if c == sep then init + [""] else init[..|init| - 1] + [init[|init| - 1] + [c]]
  {
    assert (s + [c])[..|s|] == s;
  }

  /** A string without the separator is a single piece. */
  lemma {:induction false} SplitWithoutSeparator(s: string, sep: char)
    requires sep !in s
    ensures Split(s, sep) == [s]
  {
    if s != [] {
      SplitWithoutSeparator(s[..|s| - 1], sep);
      assert s == s[..|s| - 1] + [s[|s| - 1]];
    }
  }

  /** Splitting at one separator splits the two sides independently. */
  lemma {:induction false} SplitConcat(a: string, b: string, sep: char)
    ensures Split(a + [sep] + b, sep) == Split(a, sep) + Split(b, sep)
  {
    if b == [] {
      SplitStep(a, sep, sep);
      assert a + [sep] + b == a + [sep];
    } else {
      var b' := b[..|b| - 1];
      var c := b[|b| - 1];
      SplitConcat(a, b', sep);
      assert a + [sep] + b == (a + [sep] + b') + [c];
      assert b == b' + [c];
      SplitStep(a + [sep] + b', c, sep);
      SplitStep(b', c, sep);
      var left := Split(a, sep);
      var right := Split(b', sep);
      if c == sep {
        assert left + right + [""] == left + (right + [""]);
      } else {
        ExtendLastPiece(left, right, c);
      }
    }
  }

  /** Extending the last piece of two lists of pieces extends the last piece of the second. */
  lemma ExtendLastPiece(left: seq<string>, right: seq<string>, c: char)
    requires |right| > 0
    ensures var both := left + right;
            both[..|both| - 1] + [both[|both| - 1] + [c]] == left + (right[..|right| - 1] + [right[|right| - 1] + [c]])
  {
    var both := left + right;
    assert both[..|both| - 1] == left + right[..|right| - 1];
  }

  /** Joining the pieces of a split with the same separator gives back the string. */
  lemma {:induction false} SplitJoin(s: string, sep: char)
    ensures Join(Split(s, sep), [sep]) == s
  {
    if s != [] {
      var init := Split(s[..|s| - 1], sep);
      SplitJoin(s[..|s| - 1], sep);
      var last := s[|s| - 1];
      var parts := Split(s, sep);
      assert s == s[..|s| - 1] + [last];
      if last == sep {
        assert parts[..|parts| - 1] == init;
        assert Join(parts, [sep]) == Join(init, [sep]) + [sep] + "";
      } else {
        var k := |init|;
        if k > 1 {
          assert parts[..k - 1] == init[..k - 1];
          assert Join(parts, [sep]) == Join(init[..k - 1], [sep]) + [sep] + (init[k - 1] + [last]);
          assert Join(init, [sep]) == Join(init[..k - 1], [sep]) + [sep] + init[k - 1];
        } else {
          assert Join(parts, [sep]) == init[0] + [last];
        }
      }
    }
  }

  // ---------------------------------------------------------------------------
  // replace(c, '') and upper()
  // ---------------------------------------------------------------------------

  /** `s.replace(c, '')`: every occurrence of `c` removed, the rest kept in order. */
  function RemoveChar(s: string, c: char): (r: string)
    ensures c !in r
    ensures |r| <= |s|
    ensures forall x :: x in r ==> x in s
  {
    if s == [] then []
    else (if s[0] == c then [] else [s[0]]) + RemoveChar(s[1..], c)
  }

  lemma {:induction false} RemoveAbsent(s: string, c: char)
    requires c !in s
    ensures RemoveChar(s, c) == s
  {
    if s != [] {
      RemoveAbsent(s[1..], c);
    }
  }

  lemma {:induction false} RemoveAppend(a: string, b: string, c: char)
    ensures RemoveChar(a + b, c) == RemoveChar(a, c) + RemoveChar(b, c)
  {
    if a != [] {
      var head: string := if a[0] == c then [] else [a[0]];
      assert (a + b)[0] == a[0];
      assert (a + b)[1..] == a[1..] + b;
      RemoveAppend(a[1..], b, c);
      calc {
        RemoveChar(a + b, c);
        head + RemoveChar(a[1..] + b, c);
        head + (RemoveChar(a[1..], c) + RemoveChar(b, c));
        (head + RemoveChar(a[1..], c)) + RemoveChar(b, c);
        RemoveChar(a, c) + RemoveChar(b, c);
      }
    } else {
      assert a + b == b;
    }
  }

  /** U+FB00, LATIN SMALL LIGATURE FF: Python upper-cases it to the two letters "FF". */
  const LigatureFF: char := '\U{FB00}'

  predicate IsLowerAscii(c: char) {
    'a' <= c <= 'z'
  }

  /**
   * Python's `str.upper()` on one character. ASCII letters and the ligature
   * U+FB00 are mapped; every other character is kept. The other case mappings
   * of Unicode are not modelled: none of them yields a digit or a letter A-F,
   * so for the strings this model inspects the difference never shows.
   */
  function UpperChar(c: char): (r: string)
    ensures c != LigatureFF ==> |r| == 1
    ensures IsLowerAscii(c) ==> r == [(c as int - 32) as char]
    ensures !IsLowerAscii(c) && c != LigatureFF ==> r == [c]
  {
    if IsLowerAscii(c) then [(c as int - 32) as char]
    else if c == LigatureFF then "FF"
    else [c]
  }

  /** Python's `s.upper()`: each character becomes one character, or two for U+FB00. */
  function Upper(s: string): (r: string)
    ensures |s| <= |r| <= 2 * |s|
    ensures LigatureFF !in s ==> |r| == |s|
  {
    if s == [] then [] else UpperChar(s[0]) + Upper(s[1..])
  }

  /** A string with no lower-case ASCII letter and no ligature U+FB00 is its own upper case. */
  lemma {:induction false} UpperFixed(s: string)
    requires forall i :: 0 <= i < |s| ==> !IsLowerAscii(s[i]) && s[i] != LigatureFF
    ensures Upper(s) == s
  {
    if s != [] {
      UpperFixed(s[1..]);
    }
  }

  /** Every character other than U+FB00 shows up in the upper case as its own upper case. */
  lemma {:induction false} UpperKeeps(s: string, c: char)
    requires c in s && c != LigatureFF
    ensures UpperChar(c)[0] in Upper(s)
  {
    assert Upper(s) == UpperChar(s[0]) + Upper(s[1..]);
    if s[0] == c {
      assert Upper(s)[0] == UpperChar(c)[0];
    } else {
      UpperKeeps(s[1..], c);
    }
  }

  /** Without the ligature, upper-casing works character by character and keeps the length. */
  lemma {:induction false} UpperPointwise(s: string)
    requires LigatureFF !in s
    ensures |Upper(s)| == |s|
    ensures forall i :: 0 <= i < |s| ==> Upper(s)[i] == UpperChar(s[i])[0]
  {
    if s != [] {
      UpperPointwise(s[1..]);
      assert Upper(s) == UpperChar(s[0]) + Upper(s[1..]);
      forall i | 1 <= i < |s| ensures Upper(s)[i] == UpperChar(s[i])[0] {
        assert Upper(s)[i] == Upper(s[1..])[i - 1];
        assert s[1..][i - 1] == s[i];
      }
    }
  }

  // ---------------------------------------------------------------------------
  // str(n), string ordering and startswith
  // ---------------------------------------------------------------------------

  predicate IsDigit(c: char) {
    '0' <= c <= '9'
  }

  function DigitChar(d: nat): (c: char)
    requires d < 10
    ensures IsDigit(c) && c as int - '0' as int == d
  {
    ('0' as int + d) as char
  }

  /** `str(n)` for a non-negative integer: its decimal digits, without leading zeros. */
  function Decimal(n: nat): (r: string)
    ensures |r| > 0
    ensures forall i :: 0 <= i < |r| ==> IsDigit(r[i])
    ensures r[0] == '0' ==> n == 0
  {
    if n < 10 then [DigitChar(n)] else Decimal(n / 10) + [DigitChar(n % 10)]
  }

  /** The number a string of decimal digits denotes. */
  function DecimalValue(s: string): nat
    requires forall i :: 0 <= i < |s| ==> IsDigit(s[i])
  {
    if s == [] then 0
    else
      assert IsDigit(s[|s| - 1]);
      DecimalValue(s[..|s| - 1]) * 10 + (s[|s| - 1] as int - '0' as int)
  }

  /** Reading back the digits `str(n)` writes gives `n`. */
  lemma {:induction false} DecimalRoundTrip(n: nat)
    ensures DecimalValue(Decimal(n)) == n
  {
    if n >= 10 {
      DecimalRoundTrip(n / 10);
      var r := Decimal(n);
      assert r[..|r| - 1] == Decimal(n / 10);
    }
  }

  /** Python's `a < b` on strings: code-point order, a proper prefix coming first. */
  predicate LexLess(a: string, b: string) {
    if b == [] then false
    else if a == [] then true
    else if a[0] != b[0] then a[0] < b[0]
    else LexLess(a[1..], b[1..])
  }

  /** Python's `a >= b` on strings. */
  predicate LexAtLeast(a: string, b: string) {
    !LexLess(a, b)
  }

  /** A string is at least as large as each of its prefixes (`s.startswith(p)` implies `s >= p`). */
  lemma {:induction false} PrefixIsAtMost(p: string, s: string)
    requires p <= s
    ensures LexAtLeast(s, p)
  {
    if p != [] {
      PrefixIsAtMost(p[1..], s[1..]);
    }
  }

  /** `>=` on strings is transitive. */
  lemma {:induction false} LexAtLeastTransitive(a: string, b: string, c: string)
    requires LexAtLeast(a, b) && LexAtLeast(b, c)
    ensures LexAtLeast(a, c)
  {
    if a != [] && b != [] && c != [] && a[0] == b[0] && b[0] == c[0] {
      LexAtLeastTransitive(a[1..], b[1..], c[1..]);
    }
  }
}
