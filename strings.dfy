/**
 * The pieces of Rust's string handling the model needs: decimal rendering of
 * integers (`to_string`, `{:02}`), left-aligned padding (`{:<w}`),
 * `str::replace`, and the lexicographic order of `String`.
 */
module Strings {
  import opened Orders

  predicate IsDigitChar(c: char) {
    '0' <= c <= '9'
  }

  predicate AllDigits(s: string) {
    forall i :: 0 <= i < |s| ==> IsDigitChar(s[i])
  }

  function DigitChar(d: nat): (c: char)
    requires d < 10
    ensures IsDigitChar(c)
  {
    "0123456789"[d]
  }

  function DigitValue(c: char): (d: nat)
    requires IsDigitChar(c)
    ensures d < 10
  {
    (c as int) - ('0' as int)
  }

  /** `n.to_string()`: the decimal digits of `n`, most significant first. */
  function NatToString(n: nat): (s: string)
    ensures |s| >= 1 && AllDigits(s)
    ensures n >= 10 <==> |s| >= 2
    ensures n < 100 ==> |s| <= 2
    ensures n >= 100 ==> |s| >= 3
    decreases n
  {
    if n < 10 then [DigitChar(n)] else NatToString(n / 10) + [DigitChar(n % 10)]
  }

  /** The number a string of decimal digits denotes (the inverse of `NatToString`). */
  function DigitsValue(s: string): nat
    requires AllDigits(s)
    decreases |s|
  {
    if s == [] then 0 else DigitsValue(s[..|s| - 1]) * 10 + DigitValue(s[|s| - 1])
  }

  lemma {:induction false} NatToStringRoundTrip(n: nat)
    ensures DigitsValue(NatToString(n)) == n
    decreases n
  {
    if n >= 10 {
      NatToStringRoundTrip(n / 10);
      var s := NatToString(n);
      assert s[..|s| - 1] == NatToString(n / 10);
      assert DigitValue(DigitChar(n % 10)) == n % 10 by {
        assert "0123456789"[n % 10] as int == '0' as int + n % 10;
      }
    } else {
      assert DigitValue(DigitChar(n)) == n by {
        assert "0123456789"[n] as int == '0' as int + n;
      }
    }
  }

  /** A leading zero does not change the value of a digit string. */
  lemma {:induction false} LeadingZero(s: string)
    requires AllDigits(s)
    ensures AllDigits("0" + s) && DigitsValue("0" + s) == DigitsValue(s)
    decreases |s|
  {
    if s != [] {
      LeadingZero(s[..|s| - 1]);
      assert ("0" + s)[..|"0" + s| - 1] == "0" + s[..|s| - 1];
    }
  }

  /**
   * `format!("{:02}", n)` for a signed integer: zero padding inserted after
   * the sign, to a minimum width of two characters; never truncated.
   */
  function ZeroPad2(n: int): string {
    if n < 0 then "-" + NatToString(-n)
    else if n < 10 then "0" + NatToString(n)
    else NatToString(n)
  }

  /** For a non-negative number the padded text is at least two digits and denotes the number. */
  lemma ZeroPad2Digits(n: nat)
    ensures AllDigits(ZeroPad2(n))
    ensures |ZeroPad2(n)| == if n < 10 then 2 else |NatToString(n)|
    ensures DigitsValue(ZeroPad2(n)) == n
  {
    NatToStringRoundTrip(n);
    if n < 10 {
      LeadingZero(NatToString(n));
    }
  }

  function Spaces(n: nat): (s: string)
    ensures |s| == n && forall i :: 0 <= i < n ==> s[i] == ' '
  {
    seq(n, _ => ' ')
  }

  /** `format!("{:<w}", s)`: `s` left-aligned, filled with spaces up to width `w`. */
  function PadRight(s: string, w: nat): (r: string)
    ensures |r| == if |s| < w then w else |s|
    ensures r[..|s|] == s
    ensures forall i :: |s| <= i < |r| ==> r[i] == ' '
  {
    if |s| < w then s + Spaces(w - |s|) else s
  }

  /** `pat` occurs in `s` starting at index `i`. */
  predicate OccursAt(pat: string, s: string, i: int) {
    0 <= i <= |s| - |pat| && s[i..i + |pat|] == pat
  }

  /** `pat` occurs somewhere in `s`. */
  ghost predicate Occurs(pat: string, s: string) {
    exists i :: OccursAt(pat, s, i)
  }

  /**
   * `s.replace(pat, rep)` for a non-empty pattern: occurrences are replaced
   * left to right and do not overlap.
   */
  function Replace(s: string, pat: string, rep: string): string
    requires |pat| > 0
    decreases |s|
  {
    if |s| < |pat| then s
    else if s[..|pat|] == pat then rep + Replace(s[|pat|..], pat, rep)
    else [s[0]] + Replace(s[1..], pat, rep)
  }

  /** Replacing a pattern that does not occur changes nothing. */
  lemma {:induction false} ReplaceAbsent(s: string, pat: string, rep: string)
    requires |pat| > 0
    requires !Occurs(pat, s)
    ensures Replace(s, pat, rep) == s
    decreases |s|
  {
    if |s| >= |pat| {
      assert !OccursAt(pat, s, 0);
      forall i | OccursAt(pat, s[1..], i) ensures OccursAt(pat, s, i + 1) {
        assert s[1..][i..i + |pat|] == s[i + 1..i + 1 + |pat|];
      }
      ReplaceAbsent(s[1..], pat, rep);
      assert s == [s[0]] + s[1..];
    }
  }

  /**
   * An occurrence of the pattern that no earlier occurrence overlaps is
   * replaced, the text before it is kept, and the rest is replaced on its own.
   */
  lemma {:induction false} ReplaceSplice(a: string, pat: string, rep: string, b: string)
    requires |pat| > 0
    requires forall i :: 0 <= i < |a| ==> !OccursAt(pat, a + pat + b, i)
    ensures Replace(a + pat + b, pat, rep) == a + rep + Replace(b, pat, rep)
    decreases |a|
  {
    if a == [] {
      ReplaceAtStart(pat, rep, b);
      assert a + pat + b == pat + b;
    } else {
      NoOccurrenceShift(a, pat, b);
      ReplaceSplice(a[1..], pat, rep, b);
      ReplaceKeepsFirst(a, pat, rep, b, Replace(b, pat, rep));
    }
  }

  /** An occurrence at the very start is replaced. */
  lemma ReplaceAtStart(pat: string, rep: string, b: string)
    requires |pat| > 0
    ensures Replace(pat + b, pat, rep) == rep + Replace(b, pat, rep)
  {
    assert (pat + b)[..|pat|] == pat && (pat + b)[|pat|..] == b;
  }

  /** The first character of `a`, which starts no occurrence, is kept in front of the rest's replacement. */
  lemma ReplaceKeepsFirst(a: string, pat: string, rep: string, b: string, done: string)
    requires |pat| > 0 && a != []
    requires !OccursAt(pat, a + pat + b, 0)
    requires Replace(a[1..] + pat + b, pat, rep) == a[1..] + rep + done
    ensures Replace(a + pat + b, pat, rep) == a + rep + done
  {
    var s := a + pat + b;
    assert s[1..] == a[1..] + pat + b;
    assert Replace(s, pat, rep) == [s[0]] + Replace(s[1..], pat, rep);
    assert a + rep + done == [a[0]] + (a[1..] + rep + done);
  }

  /** No occurrence starts inside `a` after `a`'s first character is dropped either. */
  lemma NoOccurrenceShift(a: string, pat: string, b: string)
    requires a != []
    requires forall i :: 0 <= i < |a| ==> !OccursAt(pat, a + pat + b, i)
    ensures forall i :: 0 <= i < |a[1..]| ==> !OccursAt(pat, a[1..] + pat + b, i)
  {
    var s := a + pat + b;
    assert s[1..] == a[1..] + pat + b;
    forall i | 0 <= i < |a[1..]|
      ensures !OccursAt(pat, a[1..] + pat + b, i)
    {
      assert !OccursAt(pat, s, i + 1);
      if i + |pat| <= |s| - 1 {
        var inShifted, inWhole := s[1..][i..i + |pat|], s[i + 1..i + 1 + |pat|];
        assert forall j :: 0 <= j < |pat| ==> inShifted[j] == inWhole[j];
        assert inShifted == inWhole;
      }
    }
  }

  /** The pattern alone is replaced by the replacement alone. */
  lemma ReplaceWhole(pat: string, rep: string)
    requires |pat| > 0
    ensures Replace(pat, pat, rep) == rep
  {
    assert pat[..|pat|] == pat && pat[|pat|..] == [];
  }

  /** `n` rendered with at least `w` digits, zero-filled on the left (`{:0w}` on an unsigned value). */
  function ZeroPadNat(n: nat, w: nat): (s: string)
    ensures AllDigits(s)
  {
    var digits := NatToString(n);
    if |digits| < w then seq(w - |digits|, _ => '0') + digits else digits
  }

  /** The length of the longest prefix of `s` made of decimal digits. */
  function DigitPrefixLength(s: string): (k: nat)
    ensures k <= |s| && AllDigits(s[..k])
    ensures k < |s| ==> !IsDigitChar(s[k])
    decreases |s|
  {
    if s == [] || !IsDigitChar(s[0]) then 0
    else
      var k := 1 + DigitPrefixLength(s[1..]);
      assert s[..k] == [s[0]] + s[1..][..k - 1];
      k
  }

  /** A digit string followed by a non-digit is exactly the digit prefix. */
  lemma {:induction false} DigitPrefixOf(digits: string, rest: string)
    requires AllDigits(digits)
    requires rest != [] ==> !IsDigitChar(rest[0])
    ensures DigitPrefixLength(digits + rest) == |digits|
    decreases |digits|
  {
    if digits != [] {
      assert (digits + rest)[1..] == digits[1..] + rest;
      DigitPrefixOf(digits[1..], rest);
    } else {
      assert digits + rest == rest;
    }
  }

  /** Lexicographic order of `String` (`Ord for String`, compared character by character). */
  function Compare(a: string, b: string): Ordering
    decreases |a|
  {
    if a == [] then (if b == [] then Equal else Less)
    else if b == [] then Greater
    else if a[0] < b[0] then Less
    else if b[0] < a[0] then Greater
    else Compare(a[1..], b[1..])
  }

  lemma {:induction false} CompareEqual(a: string, b: string)
    ensures Compare(a, b) == Equal <==> a == b
    decreases |a|
  {
    if a != [] && b != [] && a[0] == b[0] {
      CompareEqual(a[1..], b[1..]);
      assert a == [a[0]] + a[1..] && b == [b[0]] + b[1..];
    }
  }

  lemma {:induction false} CompareReverse(a: string, b: string)
    ensures Compare(a, b) == Compare(b, a).Reverse()
    decreases |a|
  {
    if a != [] && b != [] && a[0] == b[0] {
      CompareReverse(a[1..], b[1..]);
    }
  }

  lemma {:induction false} CompareTransitive(a: string, b: string, c: string)
    requires Compare(a, b) == Less && Compare(b, c) == Less
    ensures Compare(a, c) == Less
    decreases |a|
  {
    if a != [] && b != [] && c != [] && a[0] == b[0] && b[0] == c[0] {
      CompareTransitive(a[1..], b[1..], c[1..]);
    }
  }

  /** `String`'s order obeys the comparator laws needed by the sort. */
  lemma CompareIsComparator()
    ensures Comparator(Compare)
  {
    forall a, b ensures Compare(a, b) == Compare(b, a).Reverse() {
      CompareReverse(a, b);
    }
    forall a, b, c | Compare(a, b) == Less && Compare(b, c) == Less ensures Compare(a, c) == Less {
      CompareTransitive(a, b, c);
    }
  }

  /** The concatenation of a sequence of strings (`iter().try_for_each(fmt)` into one buffer). */
  function Concat(parts: seq<string>): string
    decreases |parts|
  {
    if parts == [] then "" else parts[0] + Concat(parts[1..])
  }

  lemma {:induction false} ConcatAppend(a: seq<string>, b: seq<string>)
    ensures Concat(a + b) == Concat(a) + Concat(b)
    decreases |a|
  {
    if a != [] {
      assert (a + b)[1..] == a[1..] + b;
      ConcatAppend(a[1..], b);
    } else {
      assert a + b == b;
    }
  }

  /** An occurrence survives appending text. */
  lemma OccursAppend(pat: string, s: string, i: int, after: string)
    requires OccursAt(pat, s, i)
    ensures OccursAt(pat, s + after, i)
  {
    assert (s + after)[i..i + |pat|] == s[i..i + |pat|];
  }

  /** An occurrence survives prepending text, shifted by its length. */
  lemma OccursPrepend(pat: string, s: string, i: int, before: string)
    requires OccursAt(pat, s, i)
    ensures OccursAt(pat, before + s, |before| + i)
  {
    assert (before + s)[|before| + i..|before| + i + |pat|] == s[i..i + |pat|];
  }

  /** An occurrence in one of the parts is an occurrence in their concatenation. */
  lemma {:induction false} OccursInConcat(pat: string, parts: seq<string>, k: int, i: int)
    requires 0 <= k < |parts| && OccursAt(pat, parts[k], i)
    ensures Occurs(pat, Concat(parts))
    decreases |parts|
  {
    if k == 0 {
      OccursAppend(pat, parts[0], i, Concat(parts[1..]));
    } else {
      OccursInConcat(pat, parts[1..], k - 1, i);
      var j :| OccursAt(pat, Concat(parts[1..]), j);
      OccursPrepend(pat, Concat(parts[1..]), j, parts[0]);
    }
  }
}
