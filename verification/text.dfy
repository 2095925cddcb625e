/** The JavaScript string operations the source relies on, over `seq<char>`.
    Characters are Unicode scalar values, so lengths count scalar values where
    JavaScript counts UTF-16 code units; case mapping covers ASCII letters only. */
module Text {
  import opened Wrappers

  /** JavaScript truthiness of an optional string: present and not empty. */
  predicate Truthy(o: Option<string>) {
    o.Some? && o.value != ""
  }

  /** `o || fallback` where the fallback is a plain string. */
  function Or(o: Option<string>, fallback: string): string {
    if Truthy(o) then o.value else fallback
  }

  /** `a || b` where both sides may be absent. */
  function OrElse(a: Option<string>, b: Option<string>): Option<string> {
    if Truthy(a) then a else b
  }

  function LowerChar(c: char): char {
    if 'A' <= c <= 'Z' then (c as int + 32) as char else c
  }

  function UpperChar(c: char): char {
    if 'a' <= c <= 'z' then (c as int - 32) as char else c
  }

  /** `s.toLowerCase()`. */
  function ToLower(s: string): (r: string)
    ensures |r| == |s|
    ensures forall i :: 0 <= i < |s| ==> r[i] == LowerChar(s[i])
  {
    seq(|s|, i requires 0 <= i < |s| => LowerChar(s[i]))
  }

  predicate IsPrefix(p: string, s: string) {
    |p| <= |s| && s[..|p|] == p
  }

  /** `s.includes(sub)`. */
  predicate Contains(s: string, sub: string)
    decreases |s|
  {
    IsPrefix(sub, s) || (|s| > 0 && Contains(s[1..], sub))
  }

  /** Text before a match keeps it a match. */
  lemma {:induction false} ContainsAfter(p: string, s: string, w: string)
    requires Contains(s, w)
    ensures Contains(p + s, w)
    decreases |p|
  {
    if |p| > 0 {
      ContainsAfter(p[1..], s, w);
      assert (p + s)[1..] == p[1..] + s;
    } else {
      assert p + s == s;
    }
  }

  /** Text after a match keeps it a match. */
  lemma {:induction false} ContainsBefore(s: string, q: string, w: string)
    requires Contains(s, w)
    ensures Contains(s + q, w)
    decreases |s|
  {
    if IsPrefix(w, s) {
      assert (s + q)[..|w|] == s[..|w|];
    } else {
      ContainsBefore(s[1..], q, w);
      assert (s + q)[1..] == s[1..] + q;
    }
  }

  /** A string contains every string it is built around. */
  lemma ContainsWithin(p: string, s: string, q: string, w: string)
    requires Contains(s, w)
    ensures Contains(p + s + q, w)
  {
    ContainsBefore(s, q, w);
    ContainsAfter(p, s + q, w);
    assert p + s + q == p + (s + q);
  }

  lemma ContainsItself(w: string)
    ensures Contains(w, w)
  {
    assert IsPrefix(w, w);
  }

  /** `s.lastIndexOf(c)` for a one-character needle: -1 when absent. */
  function LastIndexOf(s: string, c: char): (r: int)
    ensures -1 <= r < |s|
    ensures r >= 0 ==> s[r] == c
    ensures forall j :: r < j < |s| ==> s[j] != c
    decreases |s|
  {
    if |s| == 0 then -1
    else if s[|s| - 1] == c then |s| - 1
    else LastIndexOf(s[..|s| - 1], c)
  }

  function Clamp(n: int, len: nat): (r: nat)
    ensures r <= len
  {
    if n < 0 then 0 else if n > len then len else n
  }

  /** `s.substring(start, end)`: both bounds are clamped to the string and
      swapped when `start > end`. */
  /** A slice up to the end is the suffix. */
  lemma SliceToEnd(s: string, i: int)
    requires 0 <= i <= |s|
    ensures s[i..|s|] == s[i..]
  {
    assert |s[i..|s|]| == |s[i..]|;
    assert forall k :: 0 <= k < |s| - i ==> s[i..|s|][k] == s[i..][k];
  }

  function Substring(s: string, start: int, end: int): (r: string)
    ensures |r| <= |s|
    ensures 0 <= start <= end <= |s| ==> r == s[start..end]
    ensures 0 <= end <= start <= |s| ==> r == s[end..start]
  {
    var a := Clamp(start, |s|);
    var b := Clamp(end, |s|);
    if a <= b then s[a..b] else s[b..a]
  }

  /** `s.slice(start)` for `start >= 0`. */
  function SliceFrom(s: string, start: nat): string {
    if start <= |s| then s[start..] else ""
  }

  predicate IsAsciiAlnum(c: char) {
    ('a' <= c <= 'z') || ('A' <= c <= 'Z') || ('0' <= c <= '9')
  }

  /** `/^[a-zA-Z0-9]+$/.test(s)`. */
  predicate IsAlnumWord(s: string) {
    |s| > 0 && forall i :: 0 <= i < |s| ==> IsAsciiAlnum(s[i])
  }

  function DigitChar(d: nat): char
    requires d < 10
  {
    ('0' as int + d) as char
  }

  /** The decimal rendering of a count, as a template literal prints it. */
  function NatToString(n: nat): (r: string)
    ensures |r| > 0
    decreases n
  {
    if n < 10 then [DigitChar(n)] else NatToString(n / 10) + [DigitChar(n % 10)]
  }

  /** Elements of `parts` separated by `sep`, as `Array.join` builds it. */
  function Join(parts: seq<string>, sep: string): string
    decreases |parts|
  {
    if |parts| == 0 then ""
    else if |parts| == 1 then parts[0]
    else parts[0] + sep + Join(parts[1..], sep)
  }
}
