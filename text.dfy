/**
 * The handful of Python `str` operations the orchestrator relies on, with the
 * exact scanning behaviour of CPython for non-empty separators:
 * `replace`, `split`, `"sep".join`, `rstrip`, ASCII `lower`/`capitalize`,
 * `startswith`, and `str(int)` / `int(str)` for plain decimal text.
 */
module Text {
  import opened Common

  predicate StartsWith(s: string, prefix: string) {
    |prefix| <= |s| && s[..|prefix|] == prefix
  }

  /**
   * `s.replace(pat, rep)`: every leftmost, non-overlapping occurrence of `pat`
   * is replaced. Characters of the result come from `s` or from `rep`, and a
   * one-character pattern that `rep` does not contain is gone afterwards.
   */
  function Replace(s: string, pat: string, rep: string): (r: string)
    requires |pat| > 0
    ensures forall c :: c in r ==> c in s || c in rep
    ensures |pat| == 1 && pat[0] !in rep ==> pat[0] !in r
    decreases |s|
  {
    if |s| < |pat| then s
    else if s[..|pat|] == pat then rep + Replace(s[|pat|..], pat, rep)
    else [s[0]] + Replace(s[1..], pat, rep)
  }

  /** Nothing is replaced in a text that lacks one of the pattern's characters. */
  lemma {:induction false} ReplaceWithoutMatch(s: string, pat: string, rep: string, c: char)
    requires |pat| > 0 && c in pat && c !in s
    ensures Replace(s, pat, rep) == s
    decreases |s|
  {
    if |s| >= |pat| {
      ReplaceWithoutMatch(s[1..], pat, rep, c);
      assert [s[0]] + s[1..] == s;
    }
  }

  /** A pattern at the end of a text that lacks its first character is the only match. */
  lemma {:induction false} ReplaceAtEnd(a: string, pat: string, rep: string)
    requires |pat| > 0 && pat[0] !in a
    ensures Replace(a + pat, pat, rep) == a + rep
    decreases |a|
  {
    var s := a + pat;
    if a == [] {
      assert s[..|pat|] == pat && s[|pat|..] == [];
      assert Replace([], pat, rep) == [];
      assert rep + [] == a + rep;
    } else {
      assert s[..|pat|] != pat by { assert s[0] == a[0] != pat[0]; }
      assert s[1..] == a[1..] + pat;
      calc {
        Replace(s, pat, rep);
        [s[0]] + Replace(s[1..], pat, rep);
        { ReplaceAtEnd(a[1..], pat, rep); }
        [a[0]] + (a[1..] + rep);
        { assert [a[0]] + a[1..] == a; }
        a + rep;
      }
    }
  }

  /** A text that starts with the pattern and lacks one of its characters afterwards has that one match. */
  lemma ReplaceAtStart(pat: string, rest: string, rep: string, c: char)
    requires |pat| > 0 && c in pat && c !in rest
    ensures Replace(pat + rest, pat, rep) == rep + rest
  {
    var s := pat + rest;
    assert s[..|pat|] == pat && s[|pat|..] == rest;
    ReplaceWithoutMatch(rest, pat, rep, c);
  }

  /** `pat` occurs in `s` starting at position `i`. */
  predicate MatchAt(s: string, pat: string, i: nat) {
    i + |pat| <= |s| && s[i..i + |pat|] == pat
  }

  /** No occurrence of `pat` starts in `s` before position `n`. */
  predicate NoMatchBefore(s: string, pat: string, n: nat) {
    forall i: nat :: i < n ==> !MatchAt(s, pat, i)
  }

  /** A text that starts with the pattern: that occurrence is replaced, then the scan goes on after it. */
  lemma ReplacePrefix(pat: string, s: string, rep: string)
    requires |pat| > 0
    ensures Replace(pat + s, pat, rep) == rep + Replace(s, pat, rep)
  {
    var t := pat + s;
    assert t[..|pat|] == pat && t[|pat|..] == s;
  }

  /** A prefix in which no occurrence starts is copied unchanged. */
  lemma {:induction false} ReplaceSkipsPrefix(a: string, t: string, pat: string, rep: string)
    requires |pat| > 0 && NoMatchBefore(a + t, pat, |a|)
    ensures Replace(a + t, pat, rep) == a + Replace(t, pat, rep)
    decreases |a|
  {
    var s := a + t;
    if a == [] {
      assert s == t;
    } else if |s| < |pat| {
      assert Replace(t, pat, rep) == t;
    } else {
      assert !MatchAt(s, pat, 0);
      assert s[1..] == a[1..] + t;
      forall i: nat | i < |a| - 1
        ensures !MatchAt(s[1..], pat, i)
      {
        assert !MatchAt(s, pat, i + 1);
        if i + |pat| <= |s[1..]| {
          assert s[1..][i..i + |pat|] == s[i + 1..i + 1 + |pat|];
        }
      }
      ReplaceSkipsPrefix(a[1..], t, pat, rep);
      assert [a[0]] + a[1..] == a;
    }
  }

  /**
   * `s.split(sep)`: never empty, and with a one-character separator no part
   * contains that character.
   */
  function Split(s: string, sep: string): (parts: seq<string>)
    requires |sep| > 0
    ensures |parts| >= 1
    ensures |sep| == 1 ==> forall k :: 0 <= k < |parts| ==> sep[0] !in parts[k]
    ensures forall k, c :: 0 <= k < |parts| && c in parts[k] ==> c in s
    decreases |s|
  {
    if |s| < |sep| then [s]
    else if s[..|sep|] == sep then
      assert forall c :: c in s[|sep|..] ==> c in s;
      [""] + Split(s[|sep|..], sep)
    else
      var rest := Split(s[1..], sep);
      assert forall c :: c in s[1..] ==> c in s;
      [[s[0]] + rest[0]] + rest[1..]
  }

  /** A text without the separator's first character is a single part. */
  lemma {:induction false} SplitWithoutSeparator(s: string, sep: string)
    requires |sep| > 0 && sep[0] !in s
    ensures Split(s, sep) == [s]
    decreases |s|
  {
    if |s| >= |sep| {
      assert s[..|sep|] != sep by { assert s[0] != sep[0]; }
      SplitWithoutSeparator(s[1..], sep);
      assert [s[0]] + s[1..] == s;
    }
  }

  /** A first part without the separator's first character splits off whole. */
  lemma {:induction false} SplitAfterFirst(a: string, sep: string, b: string)
    requires |sep| > 0 && sep[0] !in a
    ensures Split(a + sep + b, sep) == [a] + Split(b, sep)
    decreases |a|
  {
    var s := a + sep + b;
    if a == [] {
      assert s[..|sep|] == sep;
      assert s[|sep|..] == b;
    } else {
      assert s[..|sep|] != sep by { assert s[0] == a[0] != sep[0]; }
      assert s[1..] == a[1..] + sep + b;
      SplitAfterFirst(a[1..], sep, b);
      assert [a[0]] + a[1..] == a;
    }
  }

  /** `sep.join(parts)`. */
  function Join(parts: seq<string>, sep: string): string
    decreases |parts|
  {
    if |parts| == 0 then ""
    else if |parts| == 1 then parts[0]
    else parts[0] + sep + Join(parts[1..], sep)
  }

  /** Splitting and joining again with the same separator gives back the text. */
  lemma {:induction false} JoinSplit(s: string, sep: string)
    requires |sep| > 0
    ensures Join(Split(s, sep), sep) == s
    decreases |s|
  {
    if |s| < |sep| {
    } else if s[..|sep|] == sep {
      var rest := Split(s[|sep|..], sep);
      JoinSplit(s[|sep|..], sep);
      assert Split(s, sep) == [""] + rest;
      assert ([""] + rest)[1..] == rest;
      assert s == s[..|sep|] + s[|sep|..];
    } else {
      var rest := Split(s[1..], sep);
      JoinSplit(s[1..], sep);
      var parts := [[s[0]] + rest[0]] + rest[1..];
      assert Split(s, sep) == parts;
      if |rest| == 1 {
        assert Join(parts, sep) == [s[0]] + rest[0];
      } else {
        assert parts[1..] == rest[1..];
        assert Join(parts, sep) == [s[0]] + rest[0] + sep + Join(rest[1..], sep);
        assert Join(rest, sep) == rest[0] + sep + Join(rest[1..], sep);
      }
      assert s == [s[0]] + s[1..];
    }
  }

  /** Python's `parts[-1]`. */
  function Last(parts: seq<string>): string
    requires |parts| > 0
  {
    parts[|parts| - 1]
  }

  /**
   * `s.rstrip(c)`: the longest prefix of `s` that does not end in `c`; what
   * was cut off consists of `c` only.
   */
  function RStrip(s: string, c: char): (r: string)
    ensures |r| <= |s| && r == s[..|r|]
    ensures r == [] || r[|r| - 1] != c
    ensures forall k :: |r| <= k < |s| ==> s[k] == c
    decreases |s|
  {
    if |s| > 0 && s[|s| - 1] == c then RStrip(s[..|s| - 1], c) else s
  }

  predicate IsUpper(c: char) {
    'A' <= c <= 'Z'
  }

  predicate IsLower(c: char) {
    'a' <= c <= 'z'
  }

  function LowerChar(c: char): char {
    if IsUpper(c) then (c as int + 32) as char else c
  }

  function UpperChar(c: char): char {
    if IsLower(c) then (c as int - 32) as char else c
  }

  /** `s.lower()`, restricted to ASCII letters. */
  function Lower(s: string): string {
    seq(|s|, k requires 0 <= k < |s| => LowerChar(s[k]))
  }

  /** `s.capitalize()`, restricted to ASCII letters: first upper, rest lower. */
  function Capitalize(s: string): (r: string)
    ensures |r| == |s|
    ensures forall c :: !IsUpper(c) && !IsLower(c) ==> (c in r <==> c in s)
    ensures |r| > 0 ==> !IsLower(r[0])
  {
    if s == [] then []
    else
      var r := [UpperChar(s[0])] + Lower(s[1..]);
      assert forall k :: 1 <= k < |r| ==> r[k] == LowerChar(s[k]);
      assert forall c :: !IsUpper(c) && !IsLower(c) ==> (c in r <==> c in s) by {
        forall c | !IsUpper(c) && !IsLower(c)
          ensures c in r <==> c in s
        {
          if c in r {
            var k :| 0 <= k < |r| && r[k] == c;
          }
          if c in s {
            var k :| 0 <= k < |s| && s[k] == c;
            assert r[k] == c;
          }
        }
      }
      r
  }

  predicate IsDigit(c: char) {
    '0' <= c <= '9'
  }

  predicate AllDigits(s: string) {
    forall k :: 0 <= k < |s| ==> IsDigit(s[k])
  }

  function DigitChar(d: nat): char
    requires d < 10
  {
    ('0' as int + d) as char
  }

  /** Decimal digits of `n`, most significant first, no leading zeros. */
  function ShowNat(n: nat): (r: string)
    ensures |r| >= 1 && AllDigits(r)
  {
    if n < 10 then [DigitChar(n)] else ShowNat(n / 10) + [DigitChar(n % 10)]
  }

  /** `str(i)` for a Python int. */
  function ShowInt(i: int): string {
    if i < 0 then "-" + ShowNat(-i) else ShowNat(i)
  }

  /** The value of a string of decimal digits. */
  function DigitsValue(s: string): nat
    requires AllDigits(s)
  {
    if s == [] then 0
    else DigitsValue(s[..|s| - 1]) * 10 + (s[|s| - 1] as int - '0' as int)
  }

  /**
   * `int(s)` for an optional sign followed by ASCII digits; anything else is
   * the `ValueError` Python raises.
   */
  function ParseInt(s: string): Option<int> {
    if |s| > 0 && (s[0] == '-' || s[0] == '+') then
      var digits := s[1..];
      if |digits| > 0 && AllDigits(digits) then
        Some(if s[0] == '-' then -(DigitsValue(digits) as int) else DigitsValue(digits))
      else None
    else if |s| > 0 && AllDigits(s) then Some(DigitsValue(s))
    else None
  }

  lemma {:induction false} DigitsValueShow(n: nat)
    ensures DigitsValue(ShowNat(n)) == n
  {
    if n >= 10 {
      DigitsValueShow(n / 10);
      var r := ShowNat(n);
      assert r[..|r| - 1] == ShowNat(n / 10);
    }
  }

  /** `int(str(i)) == i`: reading back what was printed gives the number. */
  lemma ParseShow(i: int)
    ensures ParseInt(ShowInt(i)) == Some(i)
  {
    if i < 0 {
      DigitsValueShow(-i);
      assert ("-" + ShowNat(-i))[1..] == ShowNat(-i);
    } else {
      DigitsValueShow(i);
    }
  }

  /**
   * Percent-encoding the spaces of a text without '%' is undone by decoding
   * "%20" back to a space.
   */
  lemma {:induction false} SpaceEscapeRoundTrip(s: string)
    requires '%' !in s
    ensures Replace(Replace(s, " ", "%20"), "%20", " ") == s
    decreases |s|
  {
    if s != [] {
      var t := Replace(s[1..], " ", "%20");
      SpaceEscapeRoundTrip(s[1..]);
      assert s[..1] == [s[0]];
      if s[0] == ' ' {
        var u := "%20" + t;
        assert u[..3] == "%20" && u[3..] == t;
      } else {
        var u := [s[0]] + t;
        assert Replace(s, " ", "%20") == u;
        if |u| >= 3 {
          assert u[..3] != "%20" by { assert u[0] == s[0] != '%'; }
          assert u[1..] == t;
        }
      }
    }
  }
}
