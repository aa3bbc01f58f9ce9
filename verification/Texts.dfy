/** ASCII case and white space of Rust strings. */
module Texts {

  function LowerChar(c: char): char {
    if 'A' <= c <= 'Z' then (c as int + 32) as char else c
  }

  function Lower(s: string): (r: string)
    ensures |r| == |s| && forall i :: 0 <= i < |s| ==> r[i] == LowerChar(s[i])
  {
    seq(|s|, i requires 0 <= i < |s| => LowerChar(s[i]))
  }

  predicate IsUpper(c: char) { 'A' <= c <= 'Z' }

  /** The ASCII letters differ from each other by case alone. */
  predicate CasePair(upper: char, lower: char) {
    IsUpper(upper) && lower as int == upper as int + ('a' as int - 'A' as int)
  }

  /** Lower-casing forgets the case of ASCII letters and nothing else. */
  lemma CaseMeaning(c: char, d: char)
    ensures LowerChar(c) == LowerChar(d) <==> c == d || CasePair(c, d) || CasePair(d, c)
    ensures !IsUpper(LowerChar(c))
  {
  }

  /** White_Space as Rust's `char::is_whitespace` has it. */
  predicate Space(c: char) {
    || '\t' <= c <= '\r' || c == ' ' || c == '\U{85}' || c == '\U{A0}' || c == '\U{1680}'
    || '\U{2000}' <= c <= '\U{200A}' || c == '\U{2028}' || c == '\U{2029}' || c == '\U{202F}'
    || c == '\U{205F}' || c == '\U{3000}'
  }

  function TrimStart(s: string): (r: string)
    ensures r == [] || !Space(r[0])
    ensures s == [] || !Space(s[0]) ==> r == s
    ensures |r| <= |s| && r == s[|s| - |r|..]
  {
    if s != [] && Space(s[0]) then TrimStart(s[1..]) else s
  }

  function TrimEnd(s: string): (r: string)
    ensures r == [] || !Space(r[|r| - 1])
    ensures s == [] || !Space(s[|s| - 1]) ==> r == s
    ensures r <= s
  {
    if s != [] && Space(s[|s| - 1]) then TrimEnd(s[..|s| - 1]) else s
  }

  function Trim(s: string): string { TrimEnd(TrimStart(s)) }

  lemma TrimTwice(s: string)
    ensures Trim(Trim(s)) == Trim(s)
  {
    var t := TrimStart(s);
    var r := TrimEnd(t);
    assert r != [] ==> r[0] == t[0];
  }

  predicate Blank(s: string) { forall i :: 0 <= i < |s| ==> Space(s[i]) }

  /** What testing the trimmed text for emptiness means. */
  lemma {:induction false} BlankIsTrimmedEmpty(s: string)
    ensures Blank(s) <==> Trim(s) == ""
    decreases |s|
  {
    var t := TrimStart(s);
    if s != [] && Space(s[0]) {
      BlankIsTrimmedEmpty(s[1..]);
    } else if s != [] {
      FirstStays(t);
    }
  }

  lemma {:induction false} FirstStays(t: string)
    requires t != [] && !Space(t[0])
    ensures TrimEnd(t) != ""
    decreases |t|
  {
    if Space(t[|t| - 1]) { FirstStays(t[..|t| - 1]); }
  }
}
