/**
 Splitting a secret into credential-store slots, the manifest that lists the slots
 and the names of the slots.
 */
module Manifest {
  import opened Wrappers
  import opened Texts

  const MAX_UNITS: nat := 1024
  const MAX_CHUNKS: nat := 64
  const PREFIX: string := "easyphy-keyring-chunks:v1:"

  // ------------------------------------------------------------------ splitting

  function CharUnits(c: char): (n: nat)
    ensures 1 <= n <= 2
  {
    if c as int >= 0x1_0000 then 2 else 1
  }

  /** Length in UTF-16 code units. */
  function Units(s: string): nat {
    if s == [] then 0 else Units(s[..|s| - 1]) + CharUnits(s[|s| - 1])
  }

  /** The code units of a text: characters beyond the basic plane are surrogate pairs. */
  function Utf16(s: string): seq<nat> {
    if s == [] then []
    else
      var c := s[|s| - 1] as int;
      Utf16(s[..|s| - 1]) + if c <= 0xFFFF then [c] else [0xD800 + (c - 0x1_0000) / 0x400, 0xDC00 + (c - 0x1_0000) % 0x400]
  }

  /** The length counted is that of the text in UTF-16. */
  lemma {:induction false} UnitsAreUtf16(s: string)
    ensures Units(s) == |Utf16(s)|
    decreases |s|
  {
    if s != [] { UnitsAreUtf16(s[..|s| - 1]); }
  }

  function Concat(parts: seq<string>): string {
    if parts == [] then [] else Concat(parts[..|parts| - 1]) + parts[|parts| - 1]
  }

  /** What the splitter promises. */
  ghost predicate IsSplit(secret: string, chunks: seq<string>) {
    && chunks != [] && Concat(chunks) == secret
    && (forall i :: 0 <= i < |chunks| ==> Units(chunks[i]) <= MAX_UNITS)
    && (forall i :: 0 <= i < |chunks| - 1 ==> Units(chunks[i]) >= MAX_UNITS - 1)
    && (forall i :: 0 <= i < |chunks| && secret != [] ==> chunks[i] != [])
  }

  method SplitSecretChunks(secret: string) returns (chunks: seq<string>)
    ensures IsSplit(secret, chunks)
  {
    hide Concat, Units;
    NothingSplit();
    if secret == [] {
      return [[]];
    }
    chunks := [];
    assert secret[0..0] == [] && secret[..0] == [];
    var chunkStart, chunkUnits := 0, 0;
    for index := 0 to |secret|
      invariant chunkStart <= index && (index > 0 ==> chunkStart < index)
      invariant chunkUnits == Units(secret[chunkStart..index]) <= MAX_UNITS
      invariant Concat(chunks) == secret[..chunkStart]
      invariant forall i :: 0 <= i < |chunks| ==> MAX_UNITS - 1 <= Units(chunks[i]) <= MAX_UNITS && chunks[i] != []
    {
      var units := CharUnits(secret[index]);
      if chunkUnits + units > MAX_UNITS && index > chunkStart {
        ConcatSnoc(chunks, secret[chunkStart..index]);
        assert secret[..chunkStart] + secret[chunkStart..index] == secret[..index];
        assert secret[index..index] == [];
        chunks := chunks + [secret[chunkStart..index]];
        chunkStart, chunkUnits := index, 0;
      }
      UnitsSnoc(secret, chunkStart, index);
      chunkUnits := chunkUnits + units;
    }
    ConcatSnoc(chunks, secret[chunkStart..]);
    assert secret[..chunkStart] + secret[chunkStart..] == secret && secret[chunkStart..|secret|] == secret[chunkStart..];
    chunks := chunks + [secret[chunkStart..]];
  }

  lemma NothingSplit()
    ensures Units([]) == 0 && Concat([]) == [] && Concat([[]]) == []
  {
    var one: seq<string> := [[]];
    assert one[..0] == [];
  }

  lemma {:induction false} UnitsSnoc(s: string, i: nat, j: nat)
    requires i <= j < |s|
    ensures Units(s[i..j + 1]) == Units(s[i..j]) + CharUnits(s[j])
  {
    assert s[i..j + 1][..j - i] == s[i..j];
  }

  lemma {:induction false} ConcatSnoc(parts: seq<string>, p: string)
    ensures Concat(parts + [p]) == Concat(parts) + p
  {
    assert (parts + [p])[..|parts|] == parts;
  }

  lemma {:induction false} UnitsAppend(a: string, b: string)
    ensures Units(a + b) == Units(a) + Units(b)
    decreases |b|
  {
    if b == [] {
      assert a + b == a;
    } else {
      assert (a + b)[..|a + b| - 1] == a + b[..|b| - 1];
      UnitsAppend(a, b[..|b| - 1]);
    }
  }

  lemma {:induction false} ChunkUnits(chunks: seq<string>)
    requires forall i :: 0 <= i < |chunks| ==> MAX_UNITS - 1 <= Units(chunks[i]) <= MAX_UNITS
    ensures (MAX_UNITS - 1) * |chunks| <= Units(Concat(chunks)) <= MAX_UNITS * |chunks|
  {
    if chunks != [] {
      var n := |chunks| - 1;
      ChunkUnits(chunks[..n]);
      UnitsAppend(Concat(chunks[..n]), chunks[n]);
    }
  }

  /**
   The real size bound of the store: up to 64 * 1023 units a secret always fits
   in the 64 slots, above 64 * 1024 units it never does.
   */
  lemma {:induction false} SizeBound(secret: string, chunks: seq<string>)
    requires IsSplit(secret, chunks)
    ensures Units(secret) <= 65472 ==> |chunks| <= MAX_CHUNKS
    ensures Units(secret) > 65536 ==> |chunks| > MAX_CHUNKS
  {
    var n := |chunks| - 1;
    ChunkUnits(chunks[..n]);
    UnitsAppend(Concat(chunks[..n]), chunks[n]);
    if chunks[n] != [] { assert Units(chunks[n]) >= 1; }
  }

  // ------------------------------------------------------------ decimal numbers

  function Digit(d: nat): char
    requires d < 10
  {
    ('0' as int + d) as char
  }

  predicate IsDigit(c: char) { '0' <= c <= '9' }

  predicate AllDigits(s: string) { forall i :: 0 <= i < |s| ==> IsDigit(s[i]) }

  function Decimal(n: nat): (s: string)
    ensures s != [] && AllDigits(s)
  {
    if n < 10 then [Digit(n)] else Decimal(n / 10) + [Digit(n % 10)]
  }

  function Number(s: string): nat
    requires AllDigits(s)
  {
    if s == [] then 0 else Number(s[..|s| - 1]) * 10 + (s[|s| - 1] as int - '0' as int)
  }

  lemma {:induction false} NumberOfDecimal(n: nat)
    ensures Number(Decimal(n)) == n
  {
    if n >= 10 {
      NumberOfDecimal(n / 10);
      assert Decimal(n)[..|Decimal(n)| - 1] == Decimal(n / 10);
    } else {
      assert Decimal(n)[..0] == [];
    }
  }

  // ---------------------------------------------------------------- slot names

  predicate GenerationChar(c: char) {
    'a' <= c <= 'z' || 'A' <= c <= 'Z' || IsDigit(c) || c == '-' || c == '_'
  }

  predicate GoodGeneration(g: string) {
    g != [] && forall i :: 0 <= i < |g| ==> GenerationChar(g[i])
  }

  function ChunkAccount(account: string, generation: string, index: nat): string {
    account + ":chunk:" + generation + ":" + Decimal(index)
  }

  /** The text after the last colon is determined. */
  lemma LastColon(x: string, y: string, x': string, y': string)
    requires x + ":" + y == x' + ":" + y' && ':' !in y && ':' !in y'
    ensures x == x' && y == y'
  {
    var s := x + ":" + y;
    assert s[|x|] == ':' && s[|x'|] == ':';
    assert forall i :: |x| < i < |s| ==> s[i] == y[i - |x| - 1];
    assert forall i :: |x'| < i < |s| ==> s[i] == y'[i - |x'| - 1];
    assert |x| == |x'|;
    assert x == s[..|x|] && x' == s[..|x'|] && y == s[|x| + 1..] && y' == s[|x'| + 1..];
  }

  lemma {:induction false} NoColon(g: string, n: nat)
    ensures GoodGeneration(g) ==> ':' !in g
    ensures ':' !in Decimal(n)
  {
  }

  /** Slot names are injective in account, generation and index. */
  lemma ChunkAccountInjective(a: string, g: string, i: nat, a': string, g': string, i': nat)
    requires GoodGeneration(g) && GoodGeneration(g')
    requires ChunkAccount(a, g, i) == ChunkAccount(a', g', i')
    ensures a == a' && g == g' && i == i'
  {
    NoColon(g, i);
    NoColon(g', i');
    LastColon(a + ":chunk:" + g, Decimal(i), a' + ":chunk:" + g', Decimal(i'));
    NumberOfDecimal(i);
    NumberOfDecimal(i');
    assert a + ":chunk:" + g == a + ":chunk" + ":" + g && a' + ":chunk:" + g' == a' + ":chunk" + ":" + g';
    LastColon(a + ":chunk", g, a' + ":chunk", g');
    assert (a + ":chunk")[..|a|] == a && (a' + ":chunk")[..|a'|] == a';
  }

  lemma ChunkAccountIsNotAccount(a: string, g: string, i: nat)
    ensures ChunkAccount(a, g, i) != a
  {
  }

  // ------------------------------------------------------------------ manifests

  datatype ChunkManifest = ChunkManifest(generation: string, chunkCount: nat, sha256: string)

  predicate HexDigit(c: char) { IsDigit(c) || 'a' <= c <= 'f' || 'A' <= c <= 'F' }

  /** The sixteen digits, in either case. */
  lemma HexDigits(c: char)
    ensures HexDigit(c) <==> LowerChar(c) in "0123456789abcdef"
  {
    var digits := "0123456789abcdef";
    if HexDigit(c) {
      var d := LowerChar(c) as int;
      assert digits[if d <= 57 then d - 48 else d - 87] == LowerChar(c);
    }
  }

  predicate HashText(s: string) {
    |s| == 64 && forall i :: 0 <= i < |s| ==> HexDigit(s[i])
  }

  predicate GoodManifest(m: ChunkManifest) {
    && GoodGeneration(m.generation) && 1 <= m.chunkCount <= MAX_CHUNKS
    && HashText(m.sha256) && Lower(m.sha256) == m.sha256
  }

  function EncodeChunkManifest(m: ChunkManifest): string {
    PREFIX + m.generation + ":" + Decimal(m.chunkCount) + ":" + m.sha256
  }

  function SplitColon(s: string): (parts: seq<string>)
    ensures parts != []
  {
    if s == [] then [[]]
    else
      var rest := SplitColon(s[1..]);
      if s[0] == ':' then [[]] + rest else [[s[0]] + rest[0]] + rest[1..]
  }

  /** `usize` parsing, followed by the range filter; a sign and leading zeros are accepted. */
  function ParseCount(s: string): Option<nat> {
    var digits := if s != [] && s[0] == '+' then s[1..] else s;
    if digits != [] && AllDigits(digits) && 1 <= Number(digits) <= MAX_CHUNKS then Some(Number(digits)) else None
  }

  datatype Parsed = Plain | Corrupted | Listed(manifest: ChunkManifest)

  function ParseChunkManifest(value: string): (p: Parsed)
    ensures p.Listed? ==> GoodManifest(p.manifest)
  {
    if !(PREFIX <= value) then Plain
    else
      var parts := SplitColon(value[|PREFIX|..]);
      if |parts| != 3 || !GoodGeneration(parts[0]) || ParseCount(parts[1]).None? || !HashText(parts[2])
      then Corrupted
      else Listed(ChunkManifest(parts[0], ParseCount(parts[1]).value, Lower(parts[2])))
  }

  lemma {:induction false} SplitColonStep(x: string, rest: string)
    requires ':' !in x
    ensures SplitColon(x + ":" + rest) == [x] + SplitColon(rest)
  {
    var s := x + ":" + rest;
    if x == [] {
      assert s[1..] == rest;
    } else {
      assert s[1..] == x[1..] + ":" + rest;
      SplitColonStep(x[1..], rest);
      assert [s[0]] + x[1..] == x;
    }
  }

  lemma {:induction false} SplitColonNone(x: string)
    requires ':' !in x
    ensures SplitColon(x) == [x]
  {
    if x != [] {
      SplitColonNone(x[1..]);
      assert [x[0]] + x[1..] == x;
    }
  }

  function JoinColon(parts: seq<string>): string
    requires parts != []
  {
    if |parts| == 1 then parts[0] else parts[0] + ":" + JoinColon(parts[1..])
  }

  lemma {:induction false} JoinUndoesSplit(s: string)
    ensures JoinColon(SplitColon(s)) == s
  {
    if s != [] {
      JoinUndoesSplit(s[1..]);
      var rest := SplitColon(s[1..]);
      var parts := SplitColon(s);
      if s[0] == ':' {
        assert parts[1..] == rest;
      } else {
        assert parts[1..] == rest[1..];
      }
    }
  }

  /** The fields of an encoded manifest are found again. */
  lemma SplitEncoded(m: ChunkManifest)
    requires GoodManifest(m)
    ensures var value := EncodeChunkManifest(m);
            PREFIX <= value && SplitColon(value[|PREFIX|..]) == [m.generation, Decimal(m.chunkCount), m.sha256]
  {
    hide Decimal, SplitColon;
    var value, count := EncodeChunkManifest(m), Decimal(m.chunkCount);
    NoColon(m.generation, m.chunkCount);
    HashHasNoColon(m.sha256);
    assert value[|PREFIX|..] == m.generation + ":" + (count + ":" + m.sha256);
    SplitColonStep(m.generation, count + ":" + m.sha256);
    SplitColonStep(count, m.sha256);
    SplitColonNone(m.sha256);
    assert [m.generation] + ([count] + [m.sha256]) == [m.generation, count, m.sha256];
  }

  lemma HashHasNoColon(hash: string)
    requires HashText(hash)
    ensures ':' !in hash
  {
  }

  /** Parsing undoes encoding. */
  lemma ParseUndoesEncode(m: ChunkManifest)
    requires GoodManifest(m)
    ensures ParseChunkManifest(EncodeChunkManifest(m)) == Listed(m)
  {
    hide Decimal, SplitColon, EncodeChunkManifest;
    SplitEncoded(m);
    NumberOfDecimal(m.chunkCount);
  }

  lemma {:induction false} JoinThree(parts: seq<string>)
    requires |parts| == 3
    ensures JoinColon(parts) == parts[0] + ":" + (parts[1] + ":" + parts[2])
  {
    assert parts[1..][1..] == [parts[2]];
    assert JoinColon(parts[1..]) == parts[1] + ":" + JoinColon([parts[2]]);
  }

  /**
   Encoding undoes parsing exactly for manifests written canonically: the count
   without sign or leading zeros and the hash in lower case.
   */
  lemma EncodeUndoesParse(value: string)
    requires ParseChunkManifest(value).Listed?
    ensures var m := ParseChunkManifest(value).manifest;
            var parts := SplitColon(value[|PREFIX|..]);
            EncodeChunkManifest(m) == value <==> parts[1] == Decimal(m.chunkCount) && parts[2] == Lower(parts[2])
  {
    hide Decimal, SplitColon, JoinColon, GoodGeneration, ParseCount, HashText, GoodManifest;
    var m := ParseChunkManifest(value).manifest;
    var encoded := value[|PREFIX|..];
    var parts := SplitColon(encoded);
    SplitEncoded(m);
    JoinUndoesSplit(encoded);
    JoinThree(parts);
    assert value == PREFIX + (parts[0] + ":" + (parts[1] + ":" + parts[2]));
    assert EncodeChunkManifest(m) == PREFIX + (m.generation + ":" + (Decimal(m.chunkCount) + ":" + m.sha256));
  }
}
