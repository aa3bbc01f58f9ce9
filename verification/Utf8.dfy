/**
 The UTF-8 chunk decoder of the provider streams.

 The reference side is arithmetic: `Encode` is the encoding of section 3 of
 RFC 3629 and everything else (what a character is, what an ill-formed maximal
 subpart is, what a lossy decode yields) is stated with quantifiers over it.
 The code side is the byte-range automaton of the validator and the draining
 loop of the decoder.  Rust strings are UTF-8, so text is a sequence of bytes.
 */
module Utf8 {
  import opened Wrappers

  type byte = b: int | 0 <= b < 256

  // ---------------------------------------------------------------- reference

  /** Unicode scalar values: code points that are not surrogates. */
  type scalar = c: int | 0 <= c < 0xD800 || 0xE000 <= c < 0x11_0000

  const REPLACEMENT: scalar := 0xFFFD

  function Encode(c: scalar): (s: seq<byte>)
    ensures 1 <= |s| <= 4
  {
    if c < 0x80 then [c]
    else if c < 0x800 then [(0xC0 + c / 64), (0x80 + c % 64)]
    else if c < 0x1_0000 then
      [(0xE0 + c / 4096), (0x80 + c / 64 % 64), (0x80 + c % 64)]
    else
      [(0xF0 + c / 262144), (0x80 + c / 4096 % 64),
       (0x80 + c / 64 % 64), (0x80 + c % 64)]
  }

  function EncodeAll(cs: seq<scalar>): seq<byte> {
    if cs == [] then [] else Encode(cs[0]) + EncodeAll(cs[1..])
  }

  /** `s` is exactly one well-formed character. */
  ghost predicate IsChar(s: seq<byte>) {
    exists c: scalar :: s == Encode(c)
  }

  /** `s` is a proper, non-empty prefix of some well-formed character. */
  ghost predicate IsCharPrefix(s: seq<byte>) {
    s != [] && exists c: scalar :: s < Encode(c)
  }

  /** Some character starts `s`. */
  ghost predicate StartsWithChar(s: seq<byte>) {
    exists c: scalar :: Encode(c) <= s
  }

  /** `n` is the length of the maximal ill-formed subpart that starts `s`. */
  ghost predicate IsMaximalSubpart(s: seq<byte>, n: nat) {
    && 1 <= n <= |s|
    && !StartsWithChar(s)
    && (n == 1 || IsCharPrefix(s[..n]))
    && forall m :: n < m <= |s| ==> !IsCharPrefix(s[..m])
  }

  /**
   `cs` is a lossy decode of the whole input `s`: characters are kept, every
   maximal ill-formed subpart becomes one replacement character.
   */
  ghost predicate LossyDecodes(s: seq<byte>, cs: seq<scalar>)
    decreases |s|
  {
    if s == [] then cs == []
    else
      && cs != []
      && if StartsWithChar(s) then
           Encode(cs[0]) <= s && LossyDecodes(s[|Encode(cs[0])|..], cs[1..])
         else
           && cs[0] == REPLACEMENT
           && exists n: nat :: IsMaximalSubpart(s, n) && LossyDecodes(s[n..], cs[1..])
  }

  // ------------------------------------------------- the validator's automaton

  datatype Token =
    | Character(len: nat)   // a complete character of this length
    | IllFormed(len: nat)   // cannot become a character; skip this many bytes
    | Incomplete            // the input ends inside a character

  predicate Continuation(b: byte) { 0x80 <= b <= 0xBF }

  /** The second-byte ranges of the three- and four-byte forms. */
  predicate SecondAllowed(first: byte, second: byte) {
    if first == 0xE0 then 0xA0 <= second <= 0xBF
    else if first == 0xED then 0x80 <= second <= 0x9F
    else if first == 0xF0 then 0x90 <= second <= 0xBF
    else if first == 0xF4 then 0x80 <= second <= 0x8F
    else Continuation(second)
  }

  /** Length announced by a lead byte, 0 when it cannot start a character. */
  function Width(first: byte): nat {
    if first < 0x80 then 1
    else if 0xC2 <= first <= 0xDF then 2
    else if 0xE0 <= first <= 0xEF then 3
    else if 0xF0 <= first <= 0xF4 then 4
    else 0
  }

  function Front(s: seq<byte>): (t: Token)
    requires s != []
    ensures t.Character? ==> 1 <= t.len <= |s|
    ensures t.IllFormed? ==> 1 <= t.len <= |s|
  {
    var w := Width(s[0]);
    if w == 0 then IllFormed(1)
    else if w == 1 then Character(1)
    else if |s| == 1 then Incomplete
    else if !SecondAllowed(s[0], s[1]) then IllFormed(1)
    else if w == 2 then Character(2)
    else if |s| == 2 then Incomplete
    else if !Continuation(s[2]) then IllFormed(2)
    else if w == 3 then Character(3)
    else if |s| == 3 then Incomplete
    else if !Continuation(s[3]) then IllFormed(3)
    else Character(4)
  }

  /** What `from_utf8` reports about a buffer. */
  datatype Check =
    | Valid
    | Invalid(validUpTo: nat, errorLen: Option<nat>)

  function Validate(s: seq<byte>): (r: Check)
    ensures r.Invalid? ==> r.validUpTo < |s|
    ensures r.Invalid? && r.errorLen.Some? ==> 1 <= r.errorLen.value <= |s| - r.validUpTo
  {
    if s == [] then Valid
    else match Front(s)
      case Incomplete => Invalid(0, None)
      case IllFormed(n) => Invalid(0, Some(n))
      case Character(n) =>
        match Validate(s[n..])
        case Valid => Valid
        case Invalid(k, e) => Invalid(n + k, e)
  }

  // -------------------------------------------- the automaton is the reference

  lemma EncodeShape(c: scalar)
    ensures Width(Encode(c)[0]) == |Encode(c)|
    ensures |Encode(c)| >= 2 ==> SecondAllowed(Encode(c)[0], Encode(c)[1])
    ensures forall i :: 1 <= i < |Encode(c)| ==> Continuation(Encode(c)[i])
  {
  }

  function Join2(b0: byte, b1: byte): (c: scalar)
    requires 0xC2 <= b0 <= 0xDF && Continuation(b1)
    ensures Encode(c) == [b0, b1]
  {
    var x: int, y: int := b0, b1;
    (x - 0xC0) * 64 + (y - 0x80)
  }

  function Join3(b0: byte, b1: byte, b2: byte): (c: scalar)
    requires 0xE0 <= b0 <= 0xEF && SecondAllowed(b0, b1) && Continuation(b2)
    ensures Encode(c) == [b0, b1, b2]
  {
    var x: int, y: int, z: int := b0, b1, b2;
    var c := (x - 0xE0) * 4096 + (y - 0x80) * 64 + (z - 0x80);
    assert c / 64 == (x - 0xE0) * 64 + (y - 0x80);
    c
  }

  function Join4(b0: byte, b1: byte, b2: byte, b3: byte): (c: scalar)
    requires 0xF0 <= b0 <= 0xF4 && SecondAllowed(b0, b1) && Continuation(b2) && Continuation(b3)
    ensures Encode(c) == [b0, b1, b2, b3]
  {
    var x: int, y: int, z: int, w: int := b0, b1, b2, b3;
    var c := (x - 0xF0) * 262144 + (y - 0x80) * 4096 + (z - 0x80) * 64 + (w - 0x80);
    assert c / 64 == (x - 0xF0) * 4096 + (y - 0x80) * 64 + (z - 0x80);
    assert c / 4096 == (x - 0xF0) * 64 + (y - 0x80);
    c
  }

  /** The scalar whose encoding the automaton accepted at the front of `s`. */
  function ScalarOf(s: seq<byte>): (c: scalar)
    requires s != [] && Front(s).Character?
    ensures Encode(c) == s[..Front(s).len]
  {
    match Front(s).len
    case 1 => s[0]
    case 2 => Join2(s[0], s[1])
    case 3 => Join3(s[0], s[1], s[2])
    case _ => Join4(s[0], s[1], s[2], s[3])
  }

  /** A completion of a truncated character, used to show it is extendable. */
  function Completion(s: seq<byte>): seq<byte>
    requires s != []
  {
    if |s| > 1 then [0x80, 0x80]
    else [if s[0] == 0xE0 then 0xA0 else if s[0] == 0xF0 then 0x90 else 0x80, 0x80, 0x80]
  }

  lemma IncompleteIsPrefix(s: seq<byte>)
    requires s != []
    ensures Front(s) == Incomplete ==> IsCharPrefix(s)
  {
    if Front(s) == Incomplete {
      var c := ScalarOf(s + Completion(s));
      assert s < Encode(c);
    }
  }

  lemma PrefixIsIncomplete(s: seq<byte>)
    requires IsCharPrefix(s)
    ensures Front(s) == Incomplete
  {
    var c: scalar :| s < Encode(c);
    EncodeShape(c);
    assert s[0] == Encode(c)[0];
    assert |s| > 1 ==> s[1] == Encode(c)[1];
    assert |s| > 2 ==> s[2] == Encode(c)[2];
  }

  /** Tokens survive more input, except that an incomplete one may resolve. */
  lemma FrontExtend(s: seq<byte>, t: seq<byte>)
    requires s != [] && Front(s) != Incomplete
    ensures Front(s + t) == Front(s)
  {
  }

  /** The automaton sees exactly the characters of the reference. */
  lemma CharIsFront(s: seq<byte>, c: scalar)
    requires Encode(c) <= s
    ensures s != [] && Front(s) == Character(|Encode(c)|)
  {
    EncodeShape(c);
    assert s[..|Encode(c)|] == Encode(c);
    assert forall i :: 0 <= i < |Encode(c)| ==> s[i] == Encode(c)[i];
  }

  /** Decoding undoes encoding. */
  lemma ScalarOfEncode(c: scalar, rest: seq<byte>)
    ensures var s := Encode(c) + rest;
            Front(s) == Character(|Encode(c)|) && ScalarOf(s) == c
  {
    var s := Encode(c) + rest;
    CharIsFront(s, c);
    Digits(c);
    assert forall i :: 0 <= i < |Encode(c)| ==> s[i] == Encode(c)[i];
  }

  lemma Digits(c: int)
    requires c >= 0
    ensures c == c / 64 * 64 + c % 64
    ensures c / 64 == c / 4096 * 64 + c / 64 % 64
    ensures c / 4096 == c / 262144 * 64 + c / 4096 % 64
  {
    assert c / 64 / 64 == c / 4096;
    assert c / 4096 / 64 == c / 262144;
  }

  /**
   The automaton is exactly the reference: its three answers are "a character
   starts here", "the input ends inside a character" and "a maximal ill-formed
   subpart starts here".
   */
  lemma FrontMeaning(s: seq<byte>)
    requires s != []
    ensures Front(s).Character? <==> StartsWithChar(s)
    ensures Front(s).Character? ==> IsChar(s[..Front(s).len])
    ensures Front(s).Incomplete? <==> IsCharPrefix(s)
    ensures Front(s).IllFormed? ==> IsMaximalSubpart(s, Front(s).len)
    ensures Front(s).Incomplete? ==> IsMaximalSubpart(s, |s|)
  {
    var t := Front(s);
    if t.Character? {
      var c := ScalarOf(s);
      assert Encode(c) <= s;
    } else if exists c: scalar :: Encode(c) <= s {
      var c: scalar :| Encode(c) <= s;
      CharIsFront(s, c);
    }
    IncompleteIsPrefix(s);
    if IsCharPrefix(s) { PrefixIsIncomplete(s); }
    if t.IllFormed? { IllFormedIsMaximal(s); }
    if t.Incomplete? { assert s[..|s|] == s; }
  }

  lemma IllFormedIsMaximal(s: seq<byte>)
    requires s != [] && Front(s).IllFormed? && !StartsWithChar(s)
    ensures IsMaximalSubpart(s, Front(s).len)
  {
    var n := Front(s).len;
    if n > 1 {
      assert Front(s[..n]) == Incomplete;
      IncompleteIsPrefix(s[..n]);
    }
    forall m | n < m <= |s| ensures !IsCharPrefix(s[..m]) {
      if IsCharPrefix(s[..m]) {
        PrefixIsIncomplete(s[..m]);
        assert false;
      }
    }
  }

  lemma MaximalSubpartUnique(s: seq<byte>, m: nat, n: nat)
    requires IsMaximalSubpart(s, m) && IsMaximalSubpart(s, n)
    ensures m == n
  {
  }

  // ----------------------------------------------------------- draining a buffer

  /** Characters decoded so far, and the bytes held back. */
  datatype Drained = Drained(text: seq<scalar>, held: seq<byte>)

  function Drain(s: seq<byte>): (d: Drained)
    ensures d.held != [] ==> Front(d.held) == Incomplete
    decreases |s|
  {
    if s == [] then Drained([], [])
    else match Front(s)
      case Incomplete => Drained([], s)
      case IllFormed(n) =>
        var d := Drain(s[n..]);
        Drained([REPLACEMENT] + d.text, d.held)
      case Character(n) =>
        var d := Drain(s[n..]);
        Drained([ScalarOf(s)] + d.text, d.held)
  }

  /** One lossy decode of a whole input, as the automaton computes it. */
  function WholeDecode(s: seq<byte>): seq<scalar> {
    var d := Drain(s);
    d.text + (if d.held == [] then [] else [REPLACEMENT])
  }

  /** The lossy decode exists, is unique, and is the automaton's. */
  lemma {:induction false} LossyDecodeExact(s: seq<byte>, cs: seq<scalar>)
    ensures LossyDecodes(s, cs) <==> cs == WholeDecode(s)
    decreases |s|
  {
    hide Front, ScalarOf, Encode, StartsWithChar, IsMaximalSubpart;
    if s != [] {
      FrontMeaning(s);
      var w := WholeDecode(s);
      match Front(s)
      case Character(n) => LossyCharacter(s, cs);
      case IllFormed(n) =>
        assert w == [REPLACEMENT] + WholeDecode(s[n..]);
        LossyReplacement(s, n, cs);
      case Incomplete =>
        assert w == [REPLACEMENT] + WholeDecode(s[|s|..]);
        LossyReplacement(s, |s|, cs);
    }
  }

  /** The one character that starts `s`. */
  lemma FrontCharacter(s: seq<byte>, c: scalar)
    requires s != [] && Front(s).Character?
    ensures Encode(c) <= s <==> c == ScalarOf(s)
    ensures c == ScalarOf(s) ==> |Encode(c)| == Front(s).len
  {
    hide Front, ScalarOf, Encode;
    FrontMeaning(s);
    var d: scalar :| s[..Front(s).len] == Encode(d);
    assert Encode(d) <= s;
    CharIsFront(s, d);
    assert s == Encode(d) + s[|Encode(d)|..];
    ScalarOfEncode(d, s[|Encode(d)|..]);
    if Encode(c) <= s {
      assert s == Encode(c) + s[|Encode(c)|..];
      ScalarOfEncode(c, s[|Encode(c)|..]);
    }
  }

  lemma {:induction false} LossyCharacter(s: seq<byte>, cs: seq<scalar>)
    requires s != [] && Front(s).Character?
    ensures LossyDecodes(s, cs) <==> cs == WholeDecode(s)
    decreases |s|, 0
  {
    hide Front, ScalarOf, Encode, StartsWithChar, IsMaximalSubpart;
    var n, c := Front(s).len, ScalarOf(s);
    FrontMeaning(s);
    assert WholeDecode(s) == [c] + WholeDecode(s[n..]);
    if cs != [] {
      FrontCharacter(s, cs[0]);
      LossyDecodeExact(s[n..], cs[1..]);
      assert cs == [cs[0]] + cs[1..];
    }
  }

  lemma {:induction false} LossyReplacement(s: seq<byte>, n: nat, cs: seq<scalar>)
    requires s != [] && IsMaximalSubpart(s, n)
    ensures LossyDecodes(s, cs) <==> cs == [REPLACEMENT] + WholeDecode(s[n..])
    decreases |s|, 0
  {
    if cs != [] {
      LossyDecodeExact(s[n..], cs[1..]);
      forall m: nat | IsMaximalSubpart(s, m) ensures m == n { MaximalSubpartUnique(s, m, n); }
      assert cs == [cs[0]] + cs[1..];
    }
  }

  /** Draining in two steps is draining at once: what was held back is enough. */
  lemma {:induction false} DrainSplit(a: seq<byte>, b: seq<byte>)
    ensures var d := Drain(a);
            var e := Drain(d.held + b);
            Drain(a + b) == Drained(d.text + e.text, e.held)
    decreases |a|
  {
    hide Front, Encode, ScalarOf, Drain;
    if a == [] || Front(a).Incomplete? {
      DrainNone(a, b);
    } else {
      var rest := a[Front(a).len..];
      DrainStep(a, b);
      DrainSplit(rest, b);
      var c := if Front(a).Character? then ScalarOf(a) else REPLACEMENT;
      assert [c] + (Drain(rest).text + Drain(Drain(rest).held + b).text)
          == ([c] + Drain(rest).text) + Drain(Drain(rest).held + b).text;
    }
  }

  /** Bytes that hold no complete character are all held back. */
  lemma {:induction false} DrainNone(a: seq<byte>, b: seq<byte>)
    requires a == [] || Front(a).Incomplete?
    ensures Drain(a) == Drained([], a)
    ensures Drain(a + b) == Drained([] + Drain(a + b).text, Drain(a + b).held)
  {
    hide Front, Encode, ScalarOf;
  }

  /** One step of a drain is the same whatever follows. */
  lemma {:induction false} DrainStep(a: seq<byte>, b: seq<byte>)
    requires a != [] && !Front(a).Incomplete?
    ensures var n := Front(a).len;
            var c := if Front(a).Character? then ScalarOf(a) else REPLACEMENT;
            && Drain(a) == Drained([c] + Drain(a[n..]).text, Drain(a[n..]).held)
            && Drain(a + b) == Drained([c] + Drain(a[n..] + b).text, Drain(a[n..] + b).held)
  {
    var n := Front(a).len;
    FrontExtend(a, b);
    assert (a + b)[n..] == a[n..] + b;
    if Front(a).Character? {
      assert (a + b)[..n] == a[..n];
      SameScalar(a, a + b);
    }
  }

  lemma SameScalar(a: seq<byte>, b: seq<byte>)
    requires a <= b && a != [] && Front(a).Character? && Front(b) == Front(a)
    ensures ScalarOf(a) == ScalarOf(b)
  {
  }

  lemma {:induction false} EncodeAllAppend(a: seq<scalar>, b: seq<scalar>)
    ensures EncodeAll(a + b) == EncodeAll(a) + EncodeAll(b)
  {
    if a == [] {
      assert a + b == b;
    } else {
      assert (a + b)[1..] == a[1..] + b;
      EncodeAllAppend(a[1..], b);
    }
  }

  function Join(chunks: seq<seq<byte>>): seq<byte> {
    if chunks == [] then [] else chunks[0] + Join(chunks[1..])
  }

  /** The decoder as a fold over chunks: held bytes are drained with the next one. */
  function Feed(d: Drained, chunks: seq<seq<byte>>): Drained
    decreases |chunks|
  {
    if chunks == [] then d
    else
      var e := Drain(d.held + chunks[0]);
      Feed(Drained(d.text + e.text, e.held), chunks[1..])
  }

  lemma {:induction false} FeedIsDrain(prefix: seq<byte>, chunks: seq<seq<byte>>)
    ensures Feed(Drain(prefix), chunks) == Drain(prefix + Join(chunks))
    decreases |chunks|
  {
    if chunks == [] {
      assert prefix + Join(chunks) == prefix;
    } else {
      calc {
        Feed(Drain(prefix), chunks);
      ==
        var d, e := Drain(prefix), Drain(Drain(prefix).held + chunks[0]);
        Feed(Drained(d.text + e.text, e.held), chunks[1..]);
      ==  { DrainSplit(prefix, chunks[0]); }
        Feed(Drain(prefix + chunks[0]), chunks[1..]);
      ==  { FeedIsDrain(prefix + chunks[0], chunks[1..]); }
        Drain(prefix + chunks[0] + Join(chunks[1..]));
      ==  { assert prefix + chunks[0] + Join(chunks[1..]) == prefix + Join(chunks); }
        Drain(prefix + Join(chunks));
      }
    }
  }

  /**
   However the bytes are cut, feeding the chunks and then flushing yields the one
   lossy decode of the whole input.
   */
  lemma {:induction false} ChunkingIsInvisible(chunks: seq<seq<byte>>)
    ensures var d := Feed(Drained([], []), chunks);
            LossyDecodes(Join(chunks), d.text + (if d.held == [] then [] else [REPLACEMENT]))
  {
    FeedIsDrain([], chunks);
    assert [] + Join(chunks) == Join(chunks);
    LossyDecodeExact(Join(chunks), WholeDecode(Join(chunks)));
  }

  /** Well-formed input passes through unchanged. */
  lemma {:induction false} WellFormedUnchanged(cs: seq<scalar>)
    ensures Drain(EncodeAll(cs)) == Drained(cs, [])
  {
    if cs != [] {
      var rest := EncodeAll(cs[1..]);
      ScalarOfEncode(cs[0], rest);
      assert EncodeAll(cs)[|Encode(cs[0])|..] == rest;
      WellFormedUnchanged(cs[1..]);
    }
  }

  // ------------------------------------------------------------- valid strings

  /** The bytes of a Rust string. */
  predicate ValidText(s: seq<byte>) {
    Validate(s).Valid?
  }

  /** The indices at which a Rust string may be sliced. */
  predicate IsCharBoundary(s: seq<byte>, i: nat) {
    i == 0 || i == |s| || (i < |s| && !Continuation(s[i]))
  }

  lemma {:induction false} EncodedIsValid(cs: seq<scalar>)
    ensures ValidText(EncodeAll(cs))
  {
    if cs != [] {
      var rest := EncodeAll(cs[1..]);
      ScalarOfEncode(cs[0], rest);
      assert EncodeAll(cs)[|Encode(cs[0])|..] == rest;
      EncodedIsValid(cs[1..]);
    }
  }

  lemma {:induction false} ValidAppend(a: seq<byte>, b: seq<byte>)
    requires ValidText(a) && ValidText(b)
    ensures ValidText(a + b)
    decreases |a|
  {
    if a == [] {
      assert a + b == b;
    } else {
      var n := Front(a).len;
      FrontExtend(a, b);
      assert (a + b)[n..] == a[n..] + b;
      ValidAppend(a[n..], b);
    }
  }

  /** A string may be cut after any ASCII byte. */
  lemma {:induction false} CutAfterAscii(s: seq<byte>, i: nat)
    requires ValidText(s) && i < |s| && s[i] < 0x80
    ensures ValidText(s[i + 1..]) && IsCharBoundary(s, i + 1)
    decreases |s|
  {
    var n := Front(s).len;
    AsciiIsNotInside(s, i);
    if i == 0 {
      if 1 < |s| { HeadIsNotContinuation(s[1..]); }
    } else {
      CutAfterAscii(s[n..], i - n);
      assert s[n..][i - n + 1..] == s[i + 1..];
    }
  }

  lemma AsciiIsNotInside(s: seq<byte>, i: nat)
    requires s != [] && Front(s).Character? && i < |s| && s[i] < 0x80
    ensures if i == 0 then Front(s).len == 1 else Front(s).len <= i
  {
  }

  lemma HeadIsNotContinuation(s: seq<byte>)
    requires s != [] && ValidText(s)
    ensures !Continuation(s[0])
  {
  }

  // ------------------------------------------------------------ the decoder

  /** What the validator's answer says about the drain of the same buffer. */
  lemma {:induction false} ValidateMeaning(s: seq<byte>)
    ensures Validate(s).Valid? ==> Drain(s).held == [] && EncodeAll(Drain(s).text) == s
    ensures Validate(s).Invalid? ==>
              var k := Validate(s).validUpTo;
              && EncodeAll(Drain(s).text) == s[..k] + EncodeAll(Drain(s[k..]).text)
              && Drain(s).held == Drain(s[k..]).held
              && Front(s[k..]) == match Validate(s).errorLen
                                  case None => Incomplete
                                  case Some(n) => IllFormed(n)
    decreases |s|
  {
    hide Front, Encode, ScalarOf, Drain, EncodeAll;
    DrainedNothing();
    if s != [] {
      if Front(s).Character? {
        var n := Front(s).len;
        var rest := s[n..];
        ValidateMeaning(rest);
        ValidateStep(s);
        if Validate(rest).Invalid? {
          var k := Validate(rest).validUpTo;
          assert rest[k..] == s[n + k..];
          Regroup(s, n, k, EncodeAll(Drain(rest[k..]).text));
        }
      } else {
        assert s[0..] == s && s[..0] == [];
        assert [] + EncodeAll(Drain(s).text) == EncodeAll(Drain(s).text);
      }
    }
  }

  lemma {:induction false} WholeOfWellFormed(cs: seq<scalar>)
    ensures WholeDecode(EncodeAll(cs)) == cs
  {
    WellFormedUnchanged(cs);
  }

  lemma {:induction false} HeldBack(s: seq<byte>)
    requires s != [] && Front(s).Incomplete?
    ensures Drain(s).held == s && EncodeAll(Drain(s).text) == []
  {
    hide Front;
  }

  lemma DrainedNothing()
    ensures Drain([]).held == [] && EncodeAll(Drain([]).text) == []
  {
  }

  lemma LossyOfHeld(s: seq<byte>)
    requires s != [] && Front(s) == Incomplete
    ensures FromUtf8Lossy(s) == Encode(REPLACEMENT) == EncodeAll([REPLACEMENT])
  {
    assert WholeDecode(s) == [REPLACEMENT];
    assert EncodeAll([REPLACEMENT]) == Encode(REPLACEMENT) + EncodeAll([]);
  }

  lemma Associate(a: seq<byte>, b: seq<byte>, c: seq<byte>)
    ensures a + (b + c) == (a + b) + c
  {
  }

  lemma Regroup(s: seq<byte>, n: nat, k: nat, tail: seq<byte>)
    requires n + k <= |s|
    ensures s[..n] + (s[n..][..k] + tail) == s[..n + k] + tail
  {
    assert s[..n] + s[n..][..k] == s[..n + k];
  }

  lemma {:induction false} SkipIllFormed(s: seq<byte>)
    requires s != [] && Front(s).IllFormed?
    ensures var n := Front(s).len;
            && EncodeAll(Drain(s).text) == Encode(REPLACEMENT) + EncodeAll(Drain(s[n..]).text)
            && Drain(s).held == Drain(s[n..]).held
  {
    var d := Drain(s[Front(s).len..]);
    assert Drain(s) == Drained([REPLACEMENT] + d.text, d.held);
    assert ([REPLACEMENT] + d.text)[1..] == d.text;
  }

  lemma {:induction false} ValidateStep(s: seq<byte>)
    requires s != [] && Front(s).Character?
    ensures var n := Front(s).len;
            && s == s[..n] + s[n..]
            && EncodeAll(Drain(s).text) == s[..n] + EncodeAll(Drain(s[n..]).text)
            && Drain(s).held == Drain(s[n..]).held
  {
    hide Front, Encode, ScalarOf;
    var n := Front(s).len;
    var d := Drain(s[n..]);
    assert Drain(s) == Drained([ScalarOf(s)] + d.text, d.held);
    assert ([ScalarOf(s)] + d.text)[1..] == d.text;
  }

  class Utf8ChunkDecoder {
    var pending: seq<byte>
    /** Every byte pushed since the last `Finish`. */
    ghost var received: seq<byte>

    ghost predicate Valid()
      reads this
    {
      pending == Drain(received).held
    }

    /** The text owed for the bytes received so far. */
    ghost function Text(): seq<byte>
      reads this
    {
      EncodeAll(Drain(received).text)
    }

    constructor ()
      ensures Valid() && received == []
    {
      pending, received := [], [];
    }

    method Push(chunk: seq<byte>) returns (decoded: seq<byte>)
      requires Valid()
      modifies this
      ensures Valid() && received == old(received) + chunk
      ensures old(Text()) + decoded == Text()
      ensures decoded == EncodeAll(Drain(old(pending) + chunk).text)
      ensures pending == [] || IsCharPrefix(pending)
    {
      hide Front, Encode, Validate, Drain, EncodeAll;
      DrainedNothing();
      DrainSplit(received, chunk);
      EncodeAllAppend(Drain(received).text, Drain(pending + chunk).text);
      ghost var owed := Drain(pending + chunk);
      assert Drain(received + chunk) == Drained(Drain(received).text + owed.text, owed.held);
      received := received + chunk;
      pending := pending + chunk;
      decoded := [];
      while true
        invariant decoded + EncodeAll(Drain(pending).text) == EncodeAll(owed.text)
        invariant Drain(pending).held == owed.held
        invariant received == old(received) + chunk
        decreases |pending|
      {
        ValidateMeaning(pending);
        var check := Validate(pending);
        if check.Valid? {
          decoded := decoded + pending;
          pending := [];
          break;
        }
        Associate(decoded, pending[..check.validUpTo], EncodeAll(Drain(pending[check.validUpTo..]).text));
        assert check.validUpTo == 0 ==> pending[0..] == pending && decoded + pending[..0] == decoded;
        if check.validUpTo > 0 {
          decoded := decoded + pending[..check.validUpTo];
          pending := pending[check.validUpTo..];
        }
        if check.errorLen.None? {
          HeldBack(pending);
          break;
        }
        SkipIllFormed(pending);
        Associate(decoded, Encode(REPLACEMENT), EncodeAll(Drain(pending[check.errorLen.value..]).text));
        decoded := decoded + Encode(REPLACEMENT);
        pending := pending[check.errorLen.value..];
      }
      if pending != [] { FrontMeaning(pending); }
    }

    /** Flushes what is held back; the text delivered in all is the whole decode. */
    method Finish() returns (decoded: seq<byte>)
      requires Valid()
      modifies this
      ensures Valid() && received == []
      ensures old(Text()) + decoded == EncodeAll(WholeDecode(old(received)))
      ensures decoded == EncodeAll(WholeDecode(old(pending)))
    {
      assert received + [] == received && pending + [] == pending;
      if pending != [] { assert Drain(pending) == Drained([], pending); }
      decoded := Push([]);
      assert Drain(received).text + [] == Drain(received).text;
      if pending != [] {
        EncodeAllAppend(Drain(received).text, [REPLACEMENT]);
        LossyOfHeld(pending);
        Associate(old(Text()), decoded, Encode(REPLACEMENT));
        decoded := decoded + FromUtf8Lossy(pending);
        pending := [];
      }
      received := [];
    }
  }

  /** The standard library's lossy conversion of a whole buffer. */
  function FromUtf8Lossy(s: seq<byte>): seq<byte> {
    EncodeAll(WholeDecode(s))
  }

  /** Decoding a stream chunk by chunk. */
  method DecodeStream(chunks: seq<seq<byte>>) returns (decoded: seq<byte>)
    ensures exists cs :: LossyDecodes(Join(chunks), cs) && decoded == EncodeAll(cs)
    ensures forall cs :: Join(chunks) == EncodeAll(cs) ==> decoded == Join(chunks)
  {
    hide LossyDecodes, WholeDecode, Drain, EncodeAll;
    DrainedNothing();
    var decoder := new Utf8ChunkDecoder();
    decoded := [];
    for i := 0 to |chunks|
      invariant decoder.Valid() && fresh(decoder)
      invariant decoder.received + Join(chunks[i..]) == Join(chunks)
      invariant decoded == decoder.Text()
    {
      assert chunks[i..][1..] == chunks[i + 1..];
      var part := decoder.Push(chunks[i]);
      decoded := decoded + part;
    }
    assert chunks[|chunks|..] == [] && decoder.received == Join(chunks);
    var part := decoder.Finish();
    decoded := decoded + part;
    LossyDecodeExact(Join(chunks), WholeDecode(Join(chunks)));
    forall cs | Join(chunks) == EncodeAll(cs) ensures decoded == Join(chunks) {
      WholeOfWellFormed(cs);
    }
  }
}
