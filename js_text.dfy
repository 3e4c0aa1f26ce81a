/** The few JavaScript string operations the app's rules are built from:
    `String.prototype.trim`, `toLowerCase` (ASCII letters only), `includes`,
    `startsWith`, and the unanchored regular-expression test `/\S+@\S+\.\S+/.test(s)`
    used by both sign-in forms. */
module JsText {

  /** ECMAScript WhiteSpace and LineTerminator code points: what `trim` strips and
      what `\s` matches (so `\S` is its complement). */
  predicate IsSpace(c: char)
  {
    || c == '\t' || c == '\n' || c == '\U{B}' || c == '\U{C}' || c == '\r' || c == ' '
    || c == '\U{A0}' || c == '\U{1680}' || ('\U{2000}' <= c <= '\U{200A}')
    || c == '\U{2028}' || c == '\U{2029}' || c == '\U{202F}' || c == '\U{205F}'
    || c == '\U{3000}' || c == '\U{FEFF}'
  }

  predicate AllSpace(s: string)
  {
    forall k :: 0 <= k < |s| ==> IsSpace(s[k])
  }

  /** `s.length`: JavaScript strings count UTF-16 code units, so a code point outside the
      Basic Multilingual Plane (an emoji, say) counts as two. */
  function Utf16Length(s: string): nat
  {
    if s == [] then 0 else (if s[0] as int >= 0x1_0000 then 2 else 1) + Utf16Length(s[1..])
  }

  /** `s.length` is between the number of code points and twice that, and equals the
      number of code points when every one lies in the Basic Multilingual Plane. */
  lemma {:induction false} Utf16LengthBounds(s: string)
    ensures |s| <= Utf16Length(s) <= 2 * |s|
    ensures (forall k :: 0 <= k < |s| ==> s[k] as int < 0x1_0000) ==> Utf16Length(s) == |s|
    decreases |s|
  {
    if s != [] {
      Utf16LengthBounds(s[1..]);
      assert forall k :: 0 <= k < |s[1..]| ==> s[1..][k] == s[k + 1];
    }
  }

  /** Drops leading white space (`trimStart`). */
  function TrimStart(s: string): string
  {
    if s != [] && IsSpace(s[0]) then TrimStart(s[1..]) else s
  }

  /** Drops trailing white space (`trimEnd`). */
  function TrimEnd(s: string): string
  {
    if s != [] && IsSpace(s[|s| - 1]) then TrimEnd(s[..|s| - 1]) else s
  }

  /** `TrimStart` keeps a suffix of `s`, drops only white space, and leaves no white space
      at the front. */
  lemma {:induction false} TrimStartSpec(s: string)
    ensures |TrimStart(s)| <= |s| && TrimStart(s) == s[|s| - |TrimStart(s)|..]
    ensures forall k :: 0 <= k < |s| - |TrimStart(s)| ==> IsSpace(s[k])
    ensures TrimStart(s) != [] ==> !IsSpace(TrimStart(s)[0])
    decreases |s|
  {
    if s != [] && IsSpace(s[0]) {
      TrimStartSpec(s[1..]);
      forall k | 1 <= k < |s| - |TrimStart(s)| ensures IsSpace(s[k]) {
        assert s[k] == s[1..][k - 1];
      }
    }
  }

  /** `TrimEnd` keeps a prefix of `s`, drops only white space, and leaves no white space at
      the end. */
  lemma {:induction false} TrimEndSpec(s: string)
    ensures |TrimEnd(s)| <= |s| && TrimEnd(s) == s[..|TrimEnd(s)|]
    ensures forall k :: |TrimEnd(s)| <= k < |s| ==> IsSpace(s[k])
    ensures TrimEnd(s) != [] ==> !IsSpace(TrimEnd(s)[|TrimEnd(s)| - 1])
    decreases |s|
  {
    if s != [] && IsSpace(s[|s| - 1]) {
      TrimEndSpec(s[..|s| - 1]);
      forall k | |TrimEnd(s)| <= k < |s| - 1 ensures IsSpace(s[k]) {
        assert s[k] == s[..|s| - 1][k];
      }
    }
  }

  /** `s.trim()` */
  function Trim(s: string): string
  {
    TrimEnd(TrimStart(s))
  }

  /** `!s.trim()`: the text is empty or white space only. */
  predicate IsBlank(s: string)
  {
    Trim(s) == ""
  }

  /** `s.trim()` is the slice `s[i..j]` whose two ends are not white space and whose
      surroundings are only white space. */
  lemma TrimIsCore(s: string) returns (i: nat, j: nat)
    ensures i <= j <= |s| && Trim(s) == s[i..j]
    ensures forall k :: 0 <= k < i ==> IsSpace(s[k])
    ensures forall k :: j <= k < |s| ==> IsSpace(s[k])
    ensures i < j ==> !IsSpace(s[i]) && !IsSpace(s[j - 1])
  {
    TrimStartSpec(s);
    i := |s| - |TrimStart(s)|;
    j := TrimEndOfSuffix(s, i);
    if i < j {
      assert s[i] == TrimStart(s)[0];
    }
  }

  /** Trimming the end of the suffix `s[i..]` leaves a slice `s[i..j]` of `s`. */
  lemma TrimEndOfSuffix(s: string, i: nat) returns (j: nat)
    requires i <= |s|
    ensures i <= j <= |s| && TrimEnd(s[i..]) == s[i..j]
    ensures forall k :: j <= k < |s| ==> IsSpace(s[k])
    ensures i < j ==> !IsSpace(s[j - 1])
  {
    var t := s[i..];
    var u := TrimEnd(t);
    TrimEndSpec(t);
    j := i + |u|;
    assert u == t[..|u|];
    assert t[..|u|] == s[i..j];
    forall k | j <= k < |s| ensures IsSpace(s[k]) {
      assert s[k] == t[k - i];
    }
    if i < j {
      assert s[j - 1] == u[|u| - 1];
    }
  }

  /** Blank exactly when every character is white space. */
  lemma {:induction false} BlankIffAllSpace(s: string)
    ensures IsBlank(s) <==> AllSpace(s)
  {
    var i, j := TrimIsCore(s);
    if i < j {
      assert !IsSpace(s[i]);
    }
  }

  /** ASCII `toLowerCase`; every other code point is left as it is. */
  function LowerChar(c: char): char
  {
    if 'A' <= c <= 'Z' then (c as int + 32) as char else c
  }

  function Lower(s: string): (r: string)
    ensures |r| == |s|
  {
    seq(|s|, k requires 0 <= k < |s| => LowerChar(s[k]))
  }

  /** `s.includes(t)`: `t` occurs in `s` as a contiguous slice (the empty string
      occurs in every string). */
  predicate Includes(s: string, t: string)
  {
    exists i: int | 0 <= i <= |s| - |t| :: OccursAt(s, t, i)
  }

  predicate OccursAt(s: string, t: string, i: int)
  {
    0 <= i <= |s| - |t| && s[i..i + |t|] == t
  }

  lemma IncludesEmpty(s: string)
    ensures Includes(s, "")
  {
    assert OccursAt(s, "", 0);
  }

  /** `s.startsWith(p)` */
  predicate StartsWith(s: string, p: string)
  {
    |p| <= |s| && s[..|p|] == p
  }

  lemma StartsWithPrefix(p: string, s: string)
    ensures StartsWith(p + s, p)
  {
    assert (p + s)[..|p|] == p;
  }

  /** No white space in `s[lo..hi]` (`\S+` can cover it). */
  predicate NoSpaceIn(s: string, lo: int, hi: int)
    requires 0 <= lo && hi <= |s|
  {
    forall k :: lo <= k < hi ==> !IsSpace(s[k])
  }

  /** Where `/\S+@\S+\.\S+/` matches: a non-space before position `at`, an `@` at `at`,
      a non-empty run of non-space up to position `dot`, a `.` at `dot` and a
      non-space after it. */
  predicate EmailMatchAt(s: string, at: int, dot: int)
  {
    && 0 < at && at + 1 < dot && dot + 1 < |s|
    && s[at] == '@' && s[dot] == '.'
    && !IsSpace(s[at - 1]) && NoSpaceIn(s, at + 1, dot) && !IsSpace(s[dot + 1])
  }

  /** `/\S+@\S+\.\S+/.test(s)`: the pattern is not anchored, so one match anywhere
      is enough, and a longer `\S+` run can always be shortened to one character. */
  predicate EmailRegexTest(s: string)
  {
    exists at: int, dot: int | 0 < at < dot < |s| :: EmailMatchAt(s, at, dot)
  }

  /** A match only uses non-space characters, so it cannot reach into white space
      that surrounds the slice `s[i..j]`: it is a match of the slice as well. */
  lemma MatchInsideCore(s: string, i: nat, j: nat, at: int, dot: int)
    requires i <= j <= |s|
    requires forall k :: 0 <= k < i ==> IsSpace(s[k])
    requires forall k :: j <= k < |s| ==> IsSpace(s[k])
    requires EmailMatchAt(s, at, dot)
    ensures i < at && dot + 1 < j && EmailMatchAt(s[i..j], at - i, dot - i)
  {
    assert !IsSpace(s[at - 1]) && !IsSpace(s[dot + 1]);
    assert i < at && dot + 1 < j;
    var t := s[i..j];
    assert t[at - i] == s[at] && t[dot - i] == s[dot];
    assert t[at - i - 1] == s[at - 1] && t[dot - i + 1] == s[dot + 1];
    forall k | at - i + 1 <= k < dot - i ensures !IsSpace(t[k]) {
      assert t[k] == s[i + k];
    }
  }

  lemma MatchOfSlice(s: string, i: nat, j: nat, at: int, dot: int)
    requires i <= j <= |s|
    requires EmailMatchAt(s[i..j], at, dot)
    ensures EmailMatchAt(s, i + at, i + dot)
  {
    var t := s[i..j];
    assert t[at] == s[i + at] && t[dot] == s[i + dot];
    assert t[at - 1] == s[i + at - 1] && t[dot + 1] == s[i + dot + 1];
    forall k | i + at + 1 <= k < i + dot ensures !IsSpace(s[k]) {
      assert t[k - i] == s[k];
    }
  }

  /** The forms test the untrimmed address but send the trimmed one: the two tests agree. */
  lemma EmailTestIgnoresSurroundingSpace(s: string)
    ensures EmailRegexTest(s) <==> EmailRegexTest(Trim(s))
  {
    var i, j := TrimIsCore(s);
    if EmailRegexTest(s) {
      var at, dot :| 0 < at < dot < |s| && EmailMatchAt(s, at, dot);
      MatchInsideCore(s, i, j, at, dot);
    }
    if EmailRegexTest(Trim(s)) {
      var at, dot :| 0 < at < dot < |Trim(s)| && EmailMatchAt(Trim(s), at, dot);
      MatchOfSlice(s, i, j, at, dot);
    }
  }

  /** An address that passes the test is not blank, so the two email errors of a form
      never compete. */
  lemma EmailTestImpliesNotBlank(s: string)
    requires EmailRegexTest(s)
    ensures !IsBlank(s)
  {
    var at, dot :| 0 < at < dot < |s| && EmailMatchAt(s, at, dot);
    BlankIffAllSpace(s);
    assert !IsSpace(s[at - 1]);
  }
}
