/** The three Python string operations the application relies on:
    `str.strip()`, `str.isdigit()` and `str.lower()`. */
module PyText {

  /** Characters removed by `str.strip()` with no argument: those for which
      CPython's `str.isspace()` holds. */
  predicate IsSpace(c: char)
  {
    || ('\t' <= c <= '\r')                   // tab, line feed, vertical tab, form feed, carriage return
    || ('\U{1C}' <= c <= ' ')                // file, group, record, unit separators and space
    || c == '\U{85}' || c == '\U{A0}' || c == '\U{1680}'
    || ('\U{2000}' <= c <= '\U{200A}')
    || c == '\U{2028}' || c == '\U{2029}' || c == '\U{202F}' || c == '\U{205F}'
    || c == '\U{3000}'
  }

  /** A decimal digit; only the ASCII digits are modelled. */
  predicate IsDigit(c: char)
  {
    '0' <= c <= '9'
  }

  /** `s.isdigit()`: the string is not empty and every character is a digit. */
  predicate IsDigitString(s: string)
  {
    |s| > 0 && forall i | 0 <= i < |s| :: IsDigit(s[i])
  }

  /** The number of whitespace characters `str.strip()` removes from the
      front of `s`: all of them are whitespace, and the next one is not. */
  function LeadingSpaces(s: string): (n: nat)
    ensures n <= |s|
    ensures forall k | 0 <= k < n :: IsSpace(s[k])
    ensures n < |s| ==> !IsSpace(s[n])
  {
    if s != [] && IsSpace(s[0]) then 1 + LeadingSpaces(s[1..]) else 0
  }

  /** The number of whitespace characters `str.strip()` removes from the
      back of `s`: all of them are whitespace, and the one before is not. */
  function TrailingSpaces(s: string): (n: nat)
    ensures n <= |s|
    ensures forall k | |s| - n <= k < |s| :: IsSpace(s[k])
    ensures n < |s| ==> !IsSpace(s[|s| - n - 1])
  {
    if s != [] && IsSpace(s[|s| - 1]) then 1 + TrailingSpaces(s[..|s| - 1]) else 0
  }

  /** `s[i..j]` is what remains of `s` once its surrounding whitespace is gone:
      only whitespace lies outside it, and it neither starts nor ends with
      whitespace. */
  ghost predicate Trimmed(s: string, i: int, j: int)
  {
    && 0 <= i <= j <= |s|
    && (forall k | 0 <= k < i :: IsSpace(s[k]))
    && (forall k | j <= k < |s| :: IsSpace(s[k]))
    && (i < j ==> !IsSpace(s[i]) && !IsSpace(s[j - 1]))
  }

  /** `s.strip()`: the leading whitespace goes, then the trailing whitespace
      of what is left. The result is the trimmed part of `s` that starts
      after its leading whitespace. */
  function Strip(s: string): (r: string)
    ensures var i := LeadingSpaces(s); Trimmed(s, i, i + |r|) && r == s[i..i + |r|]
  {
    var i := LeadingSpaces(s);
    var rest := s[i..];
    var t := TrailingSpaces(rest);
    var j := i + |rest| - t;
    assert Trimmed(s, i, j) by {
      forall k | j <= k < |s| ensures IsSpace(s[k]) {
        assert s[k] == rest[k - i];
      }
      if i < j {
        assert s[j - 1] == rest[|rest| - t - 1];
      }
    }
    assert rest[..|rest| - t] == s[i..j];
    rest[..|rest| - t]
  }

  /** The trimmed part of a string is unique, so `Trimmed` determines what
      `Strip` returns. */
  lemma {:induction false} StripUnique(s: string, i: int, j: int)
    requires Trimmed(s, i, j)
    ensures Strip(s) == s[i..j]
  {
    var i0 := LeadingSpaces(s);
    var j0 := i0 + |Strip(s)|;
    assert Trimmed(s, i0, j0);
    // a non-whitespace character lies inside every trimmed range
    assert i < j ==> i0 < j0 by {
      if i < j { assert !IsSpace(s[i]); }
    }
    assert i0 < j0 ==> i < j by {
      if i0 < j0 { assert !IsSpace(s[i0]); }
    }
    if i < j {
      // both start at the first and end at the last non-whitespace character
      assert !IsSpace(s[i]) && !IsSpace(s[i0]) && !IsSpace(s[j - 1]) && !IsSpace(s[j0 - 1]);
      assert i == i0 && j == j0;
    }
  }

  /** Stripping twice is stripping once. */
  lemma StripIdempotent(s: string)
    ensures Strip(Strip(s)) == Strip(s)
  {
    var t := Strip(s);
    var i := LeadingSpaces(s);
    assert Trimmed(s, i, i + |t|);
    if t != [] {
      assert t[0] == s[i] && t[|t| - 1] == s[i + |t| - 1];
    }
    assert Trimmed(t, 0, |t|);
    StripUnique(t, 0, |t|);
  }

  /** `c.lower()` for a single character; only the ASCII letters are mapped. */
  function LowerChar(c: char): char
  {
    if 'A' <= c <= 'Z' then (c as int + 32) as char else c
  }

  /** `s.lower()`, character by character. */
  function Lower(s: string): string
  {
    seq(|s|, k requires 0 <= k < |s| => LowerChar(s[k]))
  }

  /** A string lowercases to a single lower-case ASCII letter exactly when it
      is that letter in either case. */
  lemma LowerIsLetter(s: string, x: char)
    requires 'a' <= x <= 'z'
    ensures Lower(s) == [x] <==> s == [x] || s == [(x as int - 32) as char]
  {
    if Lower(s) == [x] {
      assert |s| == 1 && Lower(s)[0] == LowerChar(s[0]) == x;
      assert s == [s[0]];
    }
  }
}
