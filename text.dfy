/** The Python string builtins the logging and configuration layer relies on:
    `str.strip()` with no argument, `str.lower()` and `str.upper()`. */
module Text {

  /** Python's `str.isspace()` for one character: the characters that
      `str.strip()` with no argument removes. */
  predicate IsSpace(c: char)
    ensures IsSpace(c) ==> !IsUpperLetter(c) && !IsLowerLetter(c)
    ensures c == ' ' || c == '\t' || c == '\n' || c == '\r' ==> IsSpace(c)
  {
    var n := c as int;
    (0x09 <= n <= 0x0D) || (0x1C <= n <= 0x20) || n == 0x85 || n == 0xA0 ||
    n == 0x1680 || (0x2000 <= n <= 0x200A) || n == 0x2028 || n == 0x2029 ||
    n == 0x202F || n == 0x205F || n == 0x3000
  }

  predicate IsUpperLetter(c: char) { 'A' <= c <= 'Z' }
  predicate IsLowerLetter(c: char) { 'a' <= c <= 'z' }

  function LowerChar(c: char): char {
    if IsUpperLetter(c) then (c as int + 32) as char else c
  }

  function UpperChar(c: char): char {
    if IsLowerLetter(c) then (c as int - 32) as char else c
  }

  /** `s.lower()`: every letter mapped to its lower case, length unchanged. */
  function Lower(s: string): (r: string)
    ensures |r| == |s|
    ensures forall i :: 0 <= i < |s| ==> r[i] == LowerChar(s[i])
  {
    if s == [] then [] else [LowerChar(s[0])] + Lower(s[1..])
  }

  /** `s.upper()`: every letter mapped to its upper case, length unchanged. */
  function Upper(s: string): (r: string)
    ensures |r| == |s|
    ensures forall i :: 0 <= i < |s| ==> r[i] == UpperChar(s[i])
  {
    if s == [] then [] else [UpperChar(s[0])] + Upper(s[1..])
  }

  /** `s.strip()`: cuts whitespace off both ends until neither end is a
      space. */
  function Strip(s: string): (r: string)
    ensures |r| <= |s|
    ensures r == [] || (!IsSpace(r[0]) && !IsSpace(r[|r| - 1]))
    decreases |s|
  {
    if s == [] then s
    else if IsSpace(s[0]) then Strip(s[1..])
    else if IsSpace(s[|s| - 1]) then Strip(s[..|s| - 1])
    else s
  }

  /** The strip of `s` is a piece of `s`. */
  lemma {:induction false} StripIsPiece(s: string)
    ensures Contains(s, Strip(s))
    decreases |s|
  {
    if s == [] {
      assert OccursAt(s, s, 0);
    } else if IsSpace(s[0]) {
      StripIsPiece(s[1..]);
      var i :| 0 <= i <= |s[1..]| && OccursAt(Strip(s[1..]), s[1..], i);
      OccursShift(Strip(s), s[1..], i, [s[0]], "");
      assert [s[0]] + s[1..] + "" == s;
    } else if IsSpace(s[|s| - 1]) {
      StripIsPiece(s[..|s| - 1]);
      var i :| 0 <= i <= |s[..|s| - 1]| && OccursAt(Strip(s[..|s| - 1]), s[..|s| - 1], i);
      OccursExtend(Strip(s), s[..|s| - 1], i, [s[|s| - 1]]);
      assert s[..|s| - 1] + [s[|s| - 1]] == s;
    } else {
      assert OccursAt(s, s, 0);
    }
  }

  /** Nothing to strip: a string without whitespace at its ends is its own strip. */
  lemma StripUnpadded(s: string)
    requires s == [] || (!IsSpace(s[0]) && !IsSpace(s[|s| - 1]))
    ensures Strip(s) == s
  {
  }

  /** `strip` is idempotent. */
  lemma StripIdempotent(s: string)
    ensures Strip(Strip(s)) == Strip(s)
  {
    StripUnpadded(Strip(s));
  }

  /** Stripping `p + s + q`, where `p` and `q` are whitespace only and `s` has
      no whitespace at its ends, gives back exactly `s`. */
  lemma {:induction false} StripPadded(p: string, s: string, q: string)
    requires forall i :: 0 <= i < |p| ==> IsSpace(p[i])
    requires forall i :: 0 <= i < |q| ==> IsSpace(q[i])
    requires s != [] && !IsSpace(s[0]) && !IsSpace(s[|s| - 1])
    ensures Strip(p + s + q) == s
    decreases |p| + |q|
  {
    var whole := p + s + q;
    if p != [] {
      assert whole[0] == p[0];
      assert whole[1..] == p[1..] + s + q;
      StripPadded(p[1..], s, q);
    } else if q != [] {
      assert whole == s + q;
      assert whole[|whole| - 1] == q[|q| - 1];
      assert whole[..|whole| - 1] == p + s + q[..|q| - 1];
      StripPadded(p, s, q[..|q| - 1]);
    } else {
      assert whole == s;
    }
  }

  /** A lower-cased string has no upper-case letter left, so lower-casing it
      again changes nothing. */
  lemma LowerIdempotent(s: string)
    ensures Lower(Lower(s)) == Lower(s)
  {
  }

  /** A string with no upper-case letter is its own lower case. */
  lemma LowerOfLowerCase(s: string)
    requires forall i :: 0 <= i < |s| ==> !IsUpperLetter(s[i])
    ensures Lower(s) == s
  {
    assert forall i :: 0 <= i < |s| ==> Lower(s)[i] == s[i];
  }

  /** Lower-casing leaves no upper-case letter. */
  lemma LowerHasNoUpperLetter(s: string)
    ensures forall i :: 0 <= i < |Lower(s)| ==> !IsUpperLetter(Lower(s)[i])
  {
  }

  /** Stripping a string with no upper-case letter leaves none. */
  lemma {:induction false} StripKeepsNoUpperLetter(l: string)
    requires forall i :: 0 <= i < |l| ==> !IsUpperLetter(l[i])
    ensures forall i :: 0 <= i < |Strip(l)| ==> !IsUpperLetter(Strip(l)[i])
    decreases |l|
  {
    if l != [] && IsSpace(l[0]) {
      StripKeepsNoUpperLetter(l[1..]);
    } else if l != [] && IsSpace(l[|l| - 1]) {
      StripKeepsNoUpperLetter(l[..|l| - 1]);
    }
  }

  /** A strip of a lower-cased string is still lower-case. */
  lemma LowerOfStripOfLower(s: string)
    ensures Lower(Strip(Lower(s))) == Strip(Lower(s))
  {
    LowerHasNoUpperLetter(s);
    StripKeepsNoUpperLetter(Lower(s));
    LowerOfLowerCase(Strip(Lower(s)));
  }

  /** An upper-cased string holds no lower-case letter. */
  lemma UpperHasNoLowerLetter(s: string)
    ensures forall i :: 0 <= i < |Upper(s)| ==> !IsLowerLetter(Upper(s)[i])
  {
  }

  /** `p` occurs in `s` starting at index `i`. */
  predicate OccursAt(p: string, s: string, i: int) {
    0 <= i <= |s| - |p| && s[i..i + |p|] == p
  }

  /** Python's `p in s` for two strings. */
  predicate Contains(s: string, p: string) {
    exists i | 0 <= i <= |s| :: OccursAt(p, s, i)
  }

  /** An occurrence survives putting text before and after the string. */
  lemma OccursShift(p: string, s: string, i: int, before: string, after: string)
    requires OccursAt(p, s, i)
    ensures OccursAt(p, before + s + after, |before| + i)
  {
    var whole := before + s + after;
    assert whole[|before| + i..|before| + i + |p|] == s[i..i + |p|];
  }

  /** An occurrence survives putting text after the string. */
  lemma OccursExtend(p: string, s: string, i: int, after: string)
    requires OccursAt(p, s, i)
    ensures OccursAt(p, s + after, i)
  {
    assert (s + after)[i..i + |p|] == s[i..i + |p|];
  }

  /** Python's `sep.join(parts)`: the separator goes between the parts only. */
  function Join(parts: seq<string>, sep: string): string {
    if |parts| == 0 then ""
    else if |parts| == 1 then parts[0]
    else parts[0] + sep + Join(parts[1..], sep)
  }

  /** A join of at least one part starts with the first part and ends with
      the last: no separator comes before the first part or after the last. */
  lemma {:induction false} JoinEnds(parts: seq<string>, sep: string)
    requires |parts| >= 1
    ensures parts[0] <= Join(parts, sep)
    ensures |parts[|parts| - 1]| <= |Join(parts, sep)|
    ensures Join(parts, sep)[|Join(parts, sep)| - |parts[|parts| - 1]|..] == parts[|parts| - 1]
  {
    if |parts| > 1 {
      JoinEnds(parts[1..], sep);
      var rest := Join(parts[1..], sep);
      var last := parts[|parts| - 1];
      assert parts[1..][|parts| - 2] == last;
      var j := parts[0] + sep + rest;
      assert j[|j| - |last|..] == rest[|rest| - |last|..];
    }
  }

  /** Every part of a join occurs in the joined string. */
  lemma {:induction false} JoinContainsPart(parts: seq<string>, sep: string, k: int)
    requires 0 <= k < |parts|
    ensures Contains(Join(parts, sep), parts[k])
  {
    var j := Join(parts, sep);
    if |parts| == 1 {
      assert OccursAt(parts[0], j, 0);
    } else if k == 0 {
      OccursShift(parts[0], parts[0], 0, "", sep + Join(parts[1..], sep));
      assert "" + parts[0] + (sep + Join(parts[1..], sep)) == j;
    } else {
      JoinContainsPart(parts[1..], sep, k - 1);
      var i :| OccursAt(parts[k], Join(parts[1..], sep), i);
      OccursShift(parts[k], Join(parts[1..], sep), i, parts[0] + sep, "");
      assert parts[0] + sep + Join(parts[1..], sep) + "" == j;
    }
  }

  /** `"Spanish".lower()` is `"spanish"`. */
  lemma LowerExample()
    ensures Lower("Spanish") == "spanish"
  {
  }

  /** Lower-casing leaves spaces and lower-case letters alone:
      `" recent ".lower()` is `" recent "`. */
  lemma LowerSpacedExample()
    ensures Lower(" recent ") == " recent "
  {
  }

  /** `" recent ".strip()` is `"recent"`. */
  lemma StripExample()
    ensures Strip(" recent ") == "recent"
  {
    StripPadded(" ", "recent", " ");
  }
}
