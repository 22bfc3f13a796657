/**
 The string primitives of JavaScript that the dashboard uses, with their
 edge cases: `slice` with negative and out-of-range indices (section 22.1.3
 of ECMA-262, String.prototype.slice), `includes`, `toUpperCase` restricted
 to ASCII, and `Array(n).fill(c).join('')`.
 A string is a sequence of characters; JavaScript strings are sequences of
 UTF-16 code units, which coincide with characters for every string the
 dashboard itself produces (ASCII addresses, recommendations and inputs).
 */
module JsStrings {

  import opened JsValues

  /** The position a `slice` argument denotes in a string of length `len`:
      a negative argument counts from the end, and either kind is clamped
      into 0..len. */
  function RelativeIndex(i: int, len: nat): (r: nat)
    ensures r <= len
    ensures 0 <= i <= len ==> r == i
    ensures -(len as int) <= i < 0 ==> r == len + i
    ensures i < -(len as int) ==> r == 0
    ensures i > len ==> r == len
  {
    if i < 0 then (if len + i < 0 then 0 else len + i)
    else if i < len then i else len
  }

  /** `s.slice(start, end)`. */
  function Slice(s: string, start: int, end: int): (r: string)
    ensures |r| == Max(0, RelativeIndex(end, |s|) - RelativeIndex(start, |s|))
    ensures forall k :: 0 <= k < |r| ==> r[k] == s[RelativeIndex(start, |s|) + k]
  {
    var from := RelativeIndex(start, |s|);
    var to := RelativeIndex(end, |s|);
    if to <= from then [] else s[from..to]
  }

  /** `s.slice(start)`: the end defaults to the length. */
  function SliceFrom(s: string, start: int): (r: string)
    ensures |r| == |s| - RelativeIndex(start, |s|)
    ensures r == s[RelativeIndex(start, |s|)..]
  {
    Slice(s, start, |s|)
  }

  /** `s.slice(0, n)` for n >= 0 is the prefix of length min(n, |s|). */
  lemma SliceHead(s: string, n: nat)
    ensures Slice(s, 0, n) == s[..Min(n, |s|)]
  {
  }

  /** `s.slice(-n)` for n > 0 is the suffix of length min(n, |s|). (For
      n == 0 the argument is 0, and the whole string is returned.) */
  lemma SliceTail(s: string, n: nat)
    requires n > 0
    ensures SliceFrom(s, -(n as int)) == s[|s| - Min(n, |s|)..]
  {
  }

  /** `t` occurs in `s` at position `i`. */
  ghost predicate OccursAt(s: string, t: string, i: int) {
    0 <= i && i + |t| <= |s| && s[i..i + |t|] == t
  }

  /** `s.includes(t)`: some position of `s` starts an occurrence of `t`. */
  function Includes(s: string, t: string): (r: bool)
    ensures r <==> exists i :: OccursAt(s, t, i)
    decreases |s|
  {
    if |t| <= |s| && s[..|t|] == t then
      assert OccursAt(s, t, 0);
      true
    else if |s| == 0 then
      false
    else
      var rest := Includes(s[1..], t);
      IncludesStep(s, t);
      rest
  }

  /** Occurrences in `s[1..]` are exactly the occurrences in `s` after position 0. */
  lemma IncludesStep(s: string, t: string)
    requires |s| > 0
    ensures (exists i :: OccursAt(s[1..], t, i)) <==> (exists i :: i > 0 && OccursAt(s, t, i))
  {
    if i :| OccursAt(s[1..], t, i) {
      assert s[1..][i..i + |t|] == s[i + 1..i + 1 + |t|];
      assert OccursAt(s, t, i + 1);
    }
    if i :| i > 0 && OccursAt(s, t, i) {
      assert s[1..][i - 1..i - 1 + |t|] == s[i..i + |t|];
      assert OccursAt(s[1..], t, i - 1);
    }
  }

  /** The empty string is included in every string. */
  lemma IncludesEmpty(s: string)
    ensures Includes(s, "")
  {
    assert OccursAt(s, "", 0);
  }

  /** `a + t + b` includes `t`. */
  lemma IncludesMiddle(a: string, t: string, b: string)
    ensures Includes(a + t + b, t)
  {
    assert (a + t + b)[|a|..|a| + |t|] == t;
    assert OccursAt(a + t + b, t, |a|);
  }

  predicate IsAsciiLower(c: char) {
    'a' <= c <= 'z'
  }

  predicate IsAscii(s: string) {
    forall k :: 0 <= k < |s| ==> s[k] as int < 128
  }

  /** `toUpperCase` on one character, for the ASCII range. */
  function UpperChar(c: char): (r: char)
    ensures IsAsciiLower(c) ==> 'A' <= r <= 'Z' && r as int == c as int - 32
    ensures !IsAsciiLower(c) ==> r == c
  {
    if IsAsciiLower(c) then (c as int - 32) as char else c
  }

  /** `s.toUpperCase()` for ASCII strings: lower-case letters become
      upper-case, every other character is kept. */
  function Upper(s: string): (r: string)
    ensures |r| == |s|
    ensures forall k :: 0 <= k < |s| ==> r[k] == UpperChar(s[k])
  {
    seq(|s|, k requires 0 <= k < |s| => UpperChar(s[k]))
  }

  /** A capital ASCII letter or a decimal digit. */
  predicate IsUpperAlnum(c: char) {
    ('A' <= c <= 'Z') || ('0' <= c <= '9')
  }

  /** `Array(n).fill(c).join('')`: `c` repeated `n` times. */
  function Repeat(c: char, n: nat): (r: string)
    ensures |r| == n
    ensures forall k :: 0 <= k < n ==> r[k] == c
  {
    seq(n, k => c)
  }
}
