/**
 The incremental server-sent-event parser.

 The reference is a whole-text parse: cut the decoded text at its leftmost event
 boundaries and read each block.  The parser keeps a buffer and a resume index
 and scans only what is new.
 */
module Sse {
  import opened Wrappers
  import opened Utf8

  type text = seq<byte>

  const LF: byte := 10
  const CR: byte := 13
  const SPACE: byte := 32
  const COLON: byte := 58
  const BOM: text := [0xEF, 0xBB, 0xBF]
  const DATA: text := [100, 97, 116, 97]
  const EVENT: text := [101, 118, 101, 110, 116]
  const ID: text := [105, 100]
  const RETRY: text := [114, 101, 116, 114, 121]

  // -------------------------------------------------------------- boundaries

  /** Length of the event boundary that starts at `i`, 0 when none does. */
  function BoundaryAt(s: text, i: nat): (n: nat)
    ensures n > 0 ==> i + n <= |s| && s[i + n - 1] == LF
  {
    if i + 2 <= |s| && s[i] == LF && s[i + 1] == LF then 2
    else if i + 4 <= |s| && s[i] == CR && s[i..i + 4] == [CR, LF, CR, LF] then 4
    else 0
  }

  /** The two boundaries are an empty line after a line feed, and one after CR LF. */
  lemma BoundaryMeaning(s: text, i: nat)
    requires i <= |s|
    ensures BoundaryAt(s, i) > 0 <==> [LF, LF] <= s[i..] || [CR, LF, CR, LF] <= s[i..]
    ensures BoundaryAt(s, i) > 0 ==> BoundaryAt(s, i) == if s[i] == LF then 2 else 4
  {
    var t := s[i..];
    if [CR, LF, CR, LF] <= t { assert t[..4] == [CR, LF, CR, LF] && t[..4] == s[i..i + 4]; }
    if BoundaryAt(s, i) == 4 { assert t[..4] == s[i..i + 4]; }
    if [LF, LF] <= t { assert t[0] == LF && t[1] == LF; }
  }

  ghost predicate NoBoundaryBefore(s: text, i: nat) {
    forall j: nat :: j < i ==> BoundaryAt(s, j) == 0
  }

  /** The search of the source: the end of the first boundary at or after `i`. */
  function FindFrom(s: text, i: nat): (r: Option<nat>)
    requires i <= |s|
    ensures r.Some? ==> i < r.value <= |s| && s[r.value - 1] == LF
    decreases |s| - i
  {
    if i == |s| then None
    else if BoundaryAt(s, i) > 0 then Some(i + BoundaryAt(s, i))
    else FindFrom(s, i + 1)
  }

  function NextEventBoundary(s: text): (r: Option<nat>)
    ensures r.Some? ==> 0 < r.value <= |s| && s[r.value - 1] == LF
  {
    FindFrom(s, 0)
  }

  /** `e` is where the leftmost boundary of `s` ends. */
  ghost predicate LeftmostEnd(s: text, e: nat) {
    exists i: nat :: NoBoundaryBefore(s, i) && BoundaryAt(s, i) > 0 && e == i + BoundaryAt(s, i)
  }

  lemma {:induction false} FindFromMeaning(s: text, i: nat)
    requires i <= |s| && NoBoundaryBefore(s, i)
    ensures FindFrom(s, i).Some? ==> LeftmostEnd(s, FindFrom(s, i).value)
    ensures FindFrom(s, i).None? ==> NoBoundaryBefore(s, |s|)
    decreases |s| - i
  {
    if i < |s| && BoundaryAt(s, i) == 0 { FindFromMeaning(s, i + 1); }
  }

  lemma LeftmostUnique(s: text, e: nat, f: nat)
    requires LeftmostEnd(s, e) && LeftmostEnd(s, f)
    ensures e == f
  {
    var i: nat :| NoBoundaryBefore(s, i) && BoundaryAt(s, i) > 0 && e == i + BoundaryAt(s, i);
    var j: nat :| NoBoundaryBefore(s, j) && BoundaryAt(s, j) > 0 && f == j + BoundaryAt(s, j);
    assert !(i < j) && !(j < i);
  }

  /** The resume index: searching past a boundary-free prefix finds the same end. */
  lemma ResumeSound(s: text, from: nat)
    requires from <= |s| && NoBoundaryBefore(s, from)
    ensures var r := NextEventBoundary(s[from..]);
            NextEventBoundary(s) == if r.None? then None else Some(from + r.value)
  {
    FindShift(s, from, 0);
    SkipClear(s, 0, from);
  }

  lemma {:induction false} FindShift(s: text, from: nat, i: nat)
    requires from + i <= |s|
    ensures var r := FindFrom(s[from..], i);
            FindFrom(s, from + i) == if r.None? then None else Some(from + r.value)
    decreases |s| - from - i
  {
    hide BoundaryAt;
    if from + i < |s| {
      BoundaryShift(s, from, i);
      FindShift(s, from, i + 1);
    }
  }

  lemma BoundaryShift(s: text, from: nat, i: nat)
    requires from <= |s|
    ensures BoundaryAt(s[from..], i) == BoundaryAt(s, from + i)
  {
    var t := s[from..];
    if from + i + 4 <= |s| {
      assert t[i..i + 4] == s[from + i..from + i + 4];
    }
  }

  lemma {:induction false} SkipClear(s: text, i: nat, from: nat)
    requires i <= from <= |s| && NoBoundaryBefore(s, from)
    ensures FindFrom(s, i) == FindFrom(s, from)
    decreases from - i
  {
    if i < from { SkipClear(s, i + 1, from); }
  }

  /** A boundary whose window is inside `a` does not depend on what follows. */
  lemma BoundaryStable(a: text, b: text, i: nat)
    requires i + 4 <= |a| || BoundaryAt(a, i) > 0
    ensures BoundaryAt(a + b, i) == BoundaryAt(a, i)
  {
    if i + 4 <= |a| { assert (a + b)[i..i + 4] == a[i..i + 4]; }
  }

  /** More text never moves the leftmost boundary to the left. */
  lemma LeftmostStable(a: text, b: text)
    requires NextEventBoundary(a).Some?
    ensures NextEventBoundary(a + b) == NextEventBoundary(a)
  {
    var e := NextEventBoundary(a).value;
    FindFromMeaning(a, 0);
    var i: nat :| NoBoundaryBefore(a, i) && BoundaryAt(a, i) > 0 && e == i + BoundaryAt(a, i);
    forall j: nat | j < i ensures BoundaryAt(a + b, j) == 0 {
      assert BoundaryAt(a, j) == 0;
      if j + 4 <= |a| {
        BoundaryStable(a, b, j);
      } else {
        // Only j == i - 1 leaves room, and the byte at i cannot serve both.
        assert i == j + 1 && BoundaryAt(a, i) == 2;
        assert a[j] != LF && (a + b)[j + 2] == LF;
        if j + 4 <= |a + b| { assert (a + b)[j..j + 4][2] == LF; }
      }
    }
    BoundaryStable(a, b, i);
    assert LeftmostEnd(a + b, e);
    FindFromMeaning(a + b, 0);
    LeftmostUnique(a + b, e, NextEventBoundary(a + b).value);
  }

  // ------------------------------------------------------------ whole-text cut

  datatype Cut = Cut(blocks: seq<text>, tail: text)

  function Split(s: text): Cut
    decreases |s|
  {
    match NextEventBoundary(s)
    case None => Cut([], s)
    case Some(e) =>
      var rest := Split(s[e..]);
      Cut([s[..e]] + rest.blocks, rest.tail)
  }

  function Concat(blocks: seq<text>): text {
    if blocks == [] then [] else blocks[0] + Concat(blocks[1..])
  }

  /**
   The cut loses nothing, every block ends with its only (leftmost) boundary, and
   no boundary is left in the tail.
   */
  lemma {:induction false} SplitMeaning(s: text)
    ensures var c := Split(s);
            && Concat(c.blocks) + c.tail == s
            && NoBoundaryBefore(c.tail, |c.tail|)
            && forall k :: 0 <= k < |c.blocks| ==> LeftmostEnd(c.blocks[k], |c.blocks[k]|)
    decreases |s|
  {
    hide FindFrom, BoundaryAt, NextEventBoundary, NoBoundaryBefore, LeftmostEnd, Split, Concat;
    NextMeaning(s);
    SplitOnce(s);
    match NextEventBoundary(s)
    case None =>
      NothingCut(s);
    case Some(e) =>
      SplitMeaning(s[e..]);
      var rest := Split(s[e..]);
      BlockIsMinimal(s, e);
      var c := Split(s);
      ConcatCons(s[..e], rest.blocks);
      Associate(s[..e], Concat(rest.blocks), rest.tail);
      assert s[..e] + s[e..] == s;
      forall k | 0 <= k < |c.blocks| ensures LeftmostEnd(c.blocks[k], |c.blocks[k]|) {
        if k > 0 { assert c.blocks[k] == rest.blocks[k - 1]; }
      }
  }

  lemma {:induction false} SplitOnce(s: text)
    ensures NextEventBoundary(s).None? ==> Split(s) == Cut([], s)
    ensures NextEventBoundary(s).Some? ==>
              var e := NextEventBoundary(s).value;
              0 < e <= |s| && Split(s) == Cut([s[..e]] + Split(s[e..]).blocks, Split(s[e..]).tail)
  {
    hide NextEventBoundary;
  }

  lemma NothingCut(s: text)
    ensures Concat([]) + s == s
  {
  }

  lemma {:induction false} ConcatCons(a: text, rest: seq<text>)
    ensures Concat([a] + rest) == a + Concat(rest)
  {
    assert ([a] + rest)[1..] == rest;
  }

  lemma NextMeaning(s: text)
    ensures NextEventBoundary(s).Some? ==> LeftmostEnd(s, NextEventBoundary(s).value)
    ensures NextEventBoundary(s).None? ==> NoBoundaryBefore(s, |s|)
  {
    FindFromMeaning(s, 0);
  }

  lemma BlockIsMinimal(s: text, e: nat)
    requires LeftmostEnd(s, e) && e <= |s|
    ensures LeftmostEnd(s[..e], e)
  {
    var i: nat :| NoBoundaryBefore(s, i) && BoundaryAt(s, i) > 0 && e == i + BoundaryAt(s, i);
    var block := s[..e];
    forall j: nat | j < i ensures BoundaryAt(block, j) == 0 {
      assert block + s[e..] == s && BoundaryAt(s, j) == 0;
      if BoundaryAt(block, j) > 0 { BoundaryStable(block, s[e..], j); }
    }
    assert BoundaryAt(s, i) == 4 ==> block[i..i + 4] == s[i..i + 4];
    assert NoBoundaryBefore(block, i) && BoundaryAt(block, i) == BoundaryAt(s, i);
  }

  /** Cutting a text in two steps: the tail is all that has to be kept. */
  lemma {:induction false} SplitExtend(a: text, b: text)
    ensures var c := Split(a);
            var d := Split(c.tail + b);
            Split(a + b) == Cut(c.blocks + d.blocks, d.tail)
    decreases |a|
  {
    hide FindFrom, BoundaryAt, NextEventBoundary;
    match NextEventBoundary(a)
    case None =>
      assert Split(a) == Cut([], a);
      assert [] + Split(a + b).blocks == Split(a + b).blocks;
    case Some(e) =>
      LeftmostStable(a, b);
      assert (a + b)[e..] == a[e..] + b && (a + b)[..e] == a[..e];
      SplitExtend(a[e..], b);
      var c := Split(a[e..]);
      var d := Split(c.tail + b);
      assert Split(a) == Cut([a[..e]] + c.blocks, c.tail);
      assert [a[..e]] + (c.blocks + d.blocks) == [a[..e]] + c.blocks + d.blocks;
  }

  // ------------------------------------------------------------- event blocks

  datatype SseEvent = SseEvent(event: Option<text>, data: text, id: Option<text>, retry: Option<text>)

  datatype Field = Field(name: text, value: text)

  function TrimBom(s: text): text {
    if BOM <= s then TrimBom(s[3..]) else s
  }

  /** Position of the first `b` in `s`, or `|s|`. */
  function IndexOf(s: text, b: byte): (i: nat)
    ensures i <= |s| && b !in s[..i]
    ensures i < |s| ==> s[i] == b
  {
    if s == [] || s[0] == b then 0
    else
      assert s[..1 + IndexOf(s[1..], b)] == [s[0]] + s[1..][..IndexOf(s[1..], b)];
      1 + IndexOf(s[1..], b)
  }

  /** Splits at every line feed; there is always at least one line. */
  function Lines(s: text): (lines: seq<text>)
    ensures lines != []
  {
    var i := IndexOf(s, LF);
    if i == |s| then [s] else [s[..i]] + Lines(s[i + 1..])
  }

  function StripCr(line: text): text {
    if line != [] && line[|line| - 1] == CR then line[..|line| - 1] else line
  }

  /** The field on a line; blank lines and comments carry none. */
  function FieldOf(rawLine: text): Option<Field> {
    var line := StripCr(rawLine);
    if line == [] || line[0] == COLON then None
    else
      var i := IndexOf(line, COLON);
      if i == |line| then Some(Field(line, []))
      else
        var value := line[i + 1..];
        Some(Field(line[..i], if value != [] && value[0] == SPACE then value[1..] else value))
  }

  function Fields(lines: seq<text>): seq<Field> {
    if lines == [] then []
    else FieldsIn(lines[0]) + Fields(lines[1..])
  }

  /** The field of a line, if it has one. */
  function FieldsIn(line: text): seq<Field> {
    match FieldOf(line) case None => [] case Some(f) => [f]
  }

  function Values(fields: seq<Field>, name: text): seq<text> {
    if fields == [] then []
    else (if fields[0].name == name then [fields[0].value] else []) + Values(fields[1..], name)
  }

  function Last(values: seq<text>): Option<text> {
    if values == [] then None else Some(values[|values| - 1])
  }

  function DropEmpty(values: seq<text>): seq<text> {
    if values != [] && values[0] == [] then DropEmpty(values[1..]) else values
  }

  function JoinLines(values: seq<text>): text {
    if values == [] then []
    else if |values| == 1 then values[0]
    else values[0] + [LF] + JoinLines(values[1..])
  }

  /**
   What a block means: the last `event`, `id` and `retry` win and the data lines
   are joined by line feeds, except that empty leading ones leave no line feed.
   */
  function Summarize(fields: seq<Field>): SseEvent {
    SseEvent(Last(Values(fields, EVENT)), JoinLines(DropEmpty(Values(fields, DATA))),
             Last(Values(fields, ID)), Last(Values(fields, RETRY)))
  }

  function ParseBlock(block: text): Option<SseEvent> {
    var fields := Fields(Lines(TrimBom(block)));
    if fields == [] then None else Some(Summarize(fields))
  }

  /** The values of a block's data lines. */
  function DataLines(block: text): seq<text> {
    Values(Fields(Lines(TrimBom(block))), DATA)
  }

  /**
   The data of a parsed block is its data lines joined by line feeds, as in section
   9.2.6 of the WHATWG HTML Standard, exactly when no second data line follows an
   empty first one.
   */
  lemma DataDeviation(block: text)
    requires ParseBlock(block).Some?
    ensures ParseBlock(block).value.data == JoinLines(DataLines(block))
            <==> |DataLines(block)| <= 1 || DataLines(block)[0] != []
  {
    hide Fields, Lines, TrimBom, Values, DropEmpty, JoinLines;
    JoinDeviation(DataLines(block));
  }

  lemma {:induction false} JoinDeviation(values: seq<text>)
    ensures JoinLines(DropEmpty(values)) == JoinLines(values)
            <==> |values| <= 1 || values[0] != []
  {
    if |values| >= 2 && values[0] == [] {
      DropEmptyShorter(values[1..]);
      assert |JoinLines(values)| == 1 + |JoinLines(values[1..])|;
    }
  }

  /** An empty data line and then one character: the line feed between them is lost. */
  lemma EmptyLineIsLost(x: byte)
    requires x != LF && x != CR && x != SPACE
    ensures var block := DATA + [COLON, LF] + DATA + [COLON, x];
            && DataLines(block) == [[], [x]] && JoinLines(DataLines(block)) == [LF, x]
            && ParseBlock(block).Some? && ParseBlock(block).value.data == [x]
  {
    hide Fields, Lines, FieldOf, TrimBom, Values;
    var first, second := DATA + [COLON], DATA + [COLON, x];
    var block := DATA + [COLON, LF] + DATA + [COLON, x];
    assert block == first + [LF] + second;
    NoBom(block);
    TwoLines(first, second);
    DataField([]);
    DataField([x]);
    assert first == DATA + [COLON] + [] && second == DATA + [COLON] + [x];
    TwoDataFields(first, second, [], [x]);
    assert [[], [x]][1..] == [[x]];
    assert JoinLines([[], [x]]) == [] + [LF] + JoinLines([[x]]);
    assert DropEmpty([[], [x]]) == [[x]];
  }

  lemma {:induction false} NoBom(s: text)
    requires s != [] && s[0] != BOM[0]
    ensures TrimBom(s) == s
  {
  }

  lemma {:induction false} IndexIs(s: text, b: byte, i: nat)
    requires i < |s| && s[i] == b && b !in s[..i]
    ensures IndexOf(s, b) == i
    decreases i
  {
    if i > 0 {
      assert s[0] == s[..i][0] && s[1..][..i - 1] == s[..i][1..];
      IndexIs(s[1..], b, i - 1);
    }
  }

  lemma {:induction false} TwoLines(first: text, second: text)
    requires LF !in first && LF !in second
    ensures Lines(first + [LF] + second) == [first, second]
  {
    var s := first + [LF] + second;
    assert s[|first|] == LF && s[..|first|] == first && s[|first| + 1..] == second;
    IndexIs(s, LF, |first|);
    assert Lines(second) == [second];
  }

  lemma DataField(value: text)
    requires value == [] || (|value| == 1 && value[0] != CR && value[0] != SPACE)
    ensures FieldOf(DATA + [COLON] + value) == Some(Field(DATA, value))
  {
    var line := DATA + [COLON] + value;
    assert StripCr(line) == line;
    assert line[..4] == DATA && line[5..] == value;
    IndexIs(line, COLON, 4);
  }

  lemma TwoDataFields(first: text, second: text, x: text, y: text)
    requires FieldOf(first) == Some(Field(DATA, x)) && FieldOf(second) == Some(Field(DATA, y))
    ensures Fields([first, second]) == [Field(DATA, x), Field(DATA, y)]
    ensures Values([Field(DATA, x), Field(DATA, y)], DATA) == [x, y]
  {
    hide FieldOf;
    assert [first, second][1..] == [second] && [second][1..] == [];
    assert [Field(DATA, x), Field(DATA, y)][1..] == [Field(DATA, y)] && [Field(DATA, y)][1..] == [];
    assert Fields([second]) == [Field(DATA, y)];
    assert Values([Field(DATA, y)], DATA) == [y];
  }

  lemma {:induction false} DropEmptyShorter(values: seq<text>)
    ensures |JoinLines(DropEmpty(values))| <= |JoinLines(values)|
  {
    if values != [] && values[0] == [] { DropEmptyShorter(values[1..]); }
  }

  lemma {:induction false} FieldsSnoc(lines: seq<text>, line: text)
    ensures Fields(lines + [line]) == Fields(lines) + FieldsIn(line)
  {
    hide FieldsIn;
    if lines == [] {
      assert (lines + [line])[1..] == [] && FieldsIn(line) + [] == [] + FieldsIn(line);
    } else {
      var first, rest := FieldsIn(lines[0]), Fields(lines[1..]);
      assert (lines + [line])[1..] == lines[1..] + [line];
      FieldsSnoc(lines[1..], line);
      assert first + (rest + FieldsIn(line)) == (first + rest) + FieldsIn(line);
    }
  }

  lemma {:induction false} ValuesSnoc(fields: seq<Field>, f: Field, name: text)
    ensures Values(fields + [f], name) == Values(fields, name) + (if f.name == name then [f.value] else [])
  {
    if fields == [] {
      assert Values([f][1..], name) == [];
    } else {
      assert (fields + [f])[1..] == fields[1..] + [f];
      ValuesSnoc(fields[1..], f, name);
    }
  }

  lemma {:induction false} DataSnoc(values: seq<text>, v: text)
    ensures var sofar := JoinLines(DropEmpty(values));
            JoinLines(DropEmpty(values + [v])) == if sofar == [] then v else sofar + [LF] + v
  {
    if values == [] {
      assert DropEmpty([v]) == if v == [] then [] else [v];
    } else if values[0] == [] {
      assert (values + [v])[1..] == values[1..] + [v];
      DataSnoc(values[1..], v);
    } else {
      JoinSnoc(values, v);
      assert DropEmpty(values + [v]) == values + [v];
    }
  }

  lemma {:induction false} JoinSnoc(values: seq<text>, v: text)
    requires values != []
    ensures JoinLines(values + [v]) == JoinLines(values) + [LF] + v
  {
    assert (values + [v])[1..] == values[1..] + [v];
    if |values| > 1 { JoinSnoc(values[1..], v); }
  }

  /** The loop of the source over the lines of a block. */
  method ParseEventBlock(block: text) returns (r: Option<SseEvent>)
    ensures r == ParseBlock(block)
  {
    hide Fields, FieldOf, Lines, TrimBom, Summarize;
    var event := SseEvent(None, [], None, None);
    var sawField := false;
    var lines := Lines(TrimBom(block));
    ghost var seen: seq<Field> := [];
    NothingSeen();
    for i := 0 to |lines|
      invariant seen == Fields(lines[..i])
      invariant sawField == (seen != [])
      invariant event == Summarize(seen)
    {
      assert lines[..i + 1] == lines[..i] + [lines[i]];
      FieldsSnoc(lines[..i], lines[i]);
      var field := FieldOf(lines[i]);
      if field.None? { continue; }
      var f := field.value;
      SummarizeSnoc(seen, f);
      seen := seen + [f];
      sawField := true;
      if f.name == DATA {
        if event.data != [] { event := event.(data := event.data + [LF]); }
        event := event.(data := event.data + f.value);
      } else if f.name == EVENT {
        event := event.(event := Some(f.value));
      } else if f.name == ID {
        event := event.(id := Some(f.value));
      } else if f.name == RETRY {
        event := event.(retry := Some(f.value));
      }
    }
    assert lines[..|lines|] == lines;
    r := if sawField then Some(event) else None;
  }

  lemma NothingSeen()
    ensures Fields([]) == [] && Summarize([]) == SseEvent(None, [], None, None)
  {
  }

  /** What one more field changes. */
  lemma SummarizeSnoc(seen: seq<Field>, f: Field)
    ensures var e := Summarize(seen);
            Summarize(seen + [f]) ==
              if f.name == DATA then e.(data := (if e.data == [] then [] else e.data + [LF]) + f.value)
              else if f.name == EVENT then e.(event := Some(f.value))
              else if f.name == ID then e.(id := Some(f.value))
              else if f.name == RETRY then e.(retry := Some(f.value))
              else e
  {
    ValuesSnoc(seen, f, DATA);
    ValuesSnoc(seen, f, EVENT);
    ValuesSnoc(seen, f, ID);
    ValuesSnoc(seen, f, RETRY);
    DataSnoc(Values(seen, DATA), f.value);
    assert forall name :: Values(seen, name) + [] == Values(seen, name);
  }

  // ------------------------------------------------------------- the parser

  function OptionToSeq(e: Option<SseEvent>): seq<SseEvent> {
    match e case None => [] case Some(v) => [v]
  }

  function Events(blocks: seq<text>): seq<SseEvent> {
    if blocks == [] then [] else OptionToSeq(ParseBlock(blocks[0])) + Events(blocks[1..])
  }

  lemma {:induction false} EventsAppend(a: seq<text>, b: seq<text>)
    ensures Events(a + b) == Events(a) + Events(b)
  {
    if a == [] {
      assert a + b == b;
    } else {
      assert (a + b)[1..] == a[1..] + b;
      EventsAppend(a[1..], b);
    }
  }

  /** The events of a whole text, with what follows the last boundary as a last block. */
  function WholeParse(s: text): seq<SseEvent> {
    Events(Split(s).blocks) + OptionToSeq(ParseBlock(Split(s).tail))
  }

  class IncrementalSseParser {
    const utf8: Utf8ChunkDecoder
    var buffer: text
    var scanned: nat

    ghost predicate Valid()
      reads this, utf8
    {
      && utf8.Valid()
      && buffer == Split(utf8.Text()).tail
      && Resumable(buffer, scanned)
    }

    /** The events owed for the bytes received so far. */
    ghost function Owed(): seq<SseEvent>
      reads this, utf8
    {
      Events(Split(utf8.Text()).blocks)
    }

    constructor ()
      ensures Valid() && fresh(utf8) && utf8.received == []
    {
      utf8 := new Utf8ChunkDecoder();
      buffer, scanned := [], 0;
    }

    method Push(chunk: seq<byte>) returns (events: seq<SseEvent>)
      requires Valid()
      modifies this, utf8
      ensures Valid() && utf8.received == old(utf8.received) + chunk
      ensures old(Owed()) + events == Owed()
    {
      hide Split, Events, ParseBlock, Resumable, Drain, EncodeAll;
      var decoded := utf8.Push(chunk);
      SplitExtend(old(utf8.Text()), decoded);
      EventsAppend(Split(old(utf8.Text())).blocks, Split(buffer + decoded).blocks);
      EncodedIsValid(Drain(old(utf8.pending) + chunk).text);
      events := DrainCompleteEvents(decoded);
    }

    method Finish() returns (events: seq<SseEvent>)
      requires Valid()
      modifies this, utf8
      ensures Valid() && utf8.received == []
      ensures old(Owed()) + events == WholeParse(EncodeAll(WholeDecode(old(utf8.received))))
    {
      hide Split, Events, ParseBlock, Resumable, Drain, EncodeAll, WholeDecode;
      var decoded := utf8.Finish();
      SplitExtend(old(utf8.Text()), decoded);
      EventsAppend(Split(old(utf8.Text())).blocks, Split(buffer + decoded).blocks);
      EncodedIsValid(WholeDecode(old(utf8.pending)));
      events := DrainCompleteEvents(decoded);
      var last := ParseEventBlock(buffer);
      if last.Some? { events := events + [last.value]; }
      buffer, scanned := [], 0;
      NothingReceived();
    }

    /** Appends decoded text, delivers the complete blocks and keeps the tail. */
    method DrainCompleteEvents(decoded: text) returns (events: seq<SseEvent>)
      requires Resumable(buffer, scanned) && ValidText(decoded)
      modifies this`buffer, this`scanned
      ensures events == Events(Split(old(buffer) + decoded).blocks)
      ensures buffer == Split(old(buffer) + decoded).tail
      ensures Resumable(buffer, scanned)
    {
      hide Split, Events, ParseBlock, NextEventBoundary, NoBoundaryBefore, Resumable, ValidText, IsCharBoundary, BoundaryAt, Continuation;
      ResumeAfterAppend(buffer, decoded, scanned);
      ValidAppend(buffer, decoded);
      buffer := buffer + decoded;
      ghost var whole := Split(buffer);
      events := [];
      var consumed: nat, search: nat := 0, scanned;
      assert buffer[0..] == buffer;
      while true
        invariant consumed <= search <= |buffer| && buffer == old(buffer) + decoded
        invariant ValidText(buffer[consumed..]) && IsCharBoundary(buffer, search)
        invariant NoBoundaryBefore(buffer[consumed..], search - consumed)
        invariant events + Events(Split(buffer[consumed..]).blocks) == Events(whole.blocks)
        invariant Split(buffer[consumed..]).tail == whole.tail
        decreases |buffer| - search
      {
        assert buffer[consumed..][search - consumed..] == buffer[search..];
        ResumeSound(buffer[consumed..], search - consumed);
        var boundary := NextEventBoundary(buffer[search..]);
        if boundary.None? {
          Remainder(buffer[consumed..]);
          break;
        }
        var end := search + boundary.value;
        StepPast(buffer, consumed, end);
        var event := ParseEventBlock(buffer[consumed..end]);
        if event.Some? { events := events + [event.value]; }
        consumed, search := end, end;
        NoneBeforeZero(buffer[end..]);
      }
      buffer := buffer[consumed..];
      scanned := ScanStart(buffer);
    }
  }

  /**
   What the parser may rely on between calls: the buffer is a string without a
   complete boundary and the resume index leaves room for a boundary that
   straddles the next chunk.
   */
  ghost predicate Resumable(buffer: text, scanned: nat) {
    && ValidText(buffer)
    && NoBoundaryBefore(buffer, |buffer|)
    && (scanned + 3 <= |buffer| || scanned == 0)
    && IsCharBoundary(buffer, scanned)
  }

  lemma NothingReceived()
    ensures Drain([]) == Drained([], []) && EncodeAll([]) == []
    ensures Split([]) == Cut([], []) && Events([]) == [] && Resumable([], 0)
  {
  }

  lemma {:induction false} Remainder(s: text)
    requires NextEventBoundary(s).None?
    ensures Split(s) == Cut([], s) && Events([]) == []
    ensures NoBoundaryBefore(s, |s|)
  {
    NextMeaning(s);
  }

  lemma NoneBeforeZero(s: text)
    ensures NoBoundaryBefore(s, 0)
  {
  }

  /** Where the next search may start: three bytes back, moved to a character boundary. */
  method ScanStart(buffer: text) returns (scanned: nat)
    requires ValidText(buffer) && NoBoundaryBefore(buffer, |buffer|)
    ensures Resumable(buffer, scanned)
  {
    hide ValidText;
    scanned := if |buffer| < 3 then 0 else |buffer| - 3;
    while !IsCharBoundary(buffer, scanned)
      invariant scanned + 3 <= |buffer| || scanned == 0
      decreases scanned
    {
      scanned := scanned - 1;
    }
  }

  lemma ResumeAfterAppend(buffer: text, decoded: text, scanned: nat)
    requires Resumable(buffer, scanned)
    ensures ValidText(buffer) && scanned <= |buffer|
    ensures NoBoundaryBefore(buffer + decoded, scanned)
    ensures IsCharBoundary(buffer + decoded, scanned)
  {
    forall j: nat | j < scanned ensures BoundaryAt(buffer + decoded, j) == 0 {
      BoundaryStable(buffer, decoded, j);
    }
  }

  /** One iteration of the drain: the next block is the next block of the cut. */
  lemma StepPast(buffer: text, consumed: nat, end: nat)
    requires consumed < end <= |buffer| && ValidText(buffer[consumed..])
    requires NextEventBoundary(buffer[consumed..]) == Some(end - consumed)
    ensures var s := buffer[consumed..];
            && Events(Split(s).blocks)
               == OptionToSeq(ParseBlock(buffer[consumed..end])) + Events(Split(buffer[end..]).blocks)
            && Split(s).tail == Split(buffer[end..]).tail
    ensures ValidText(buffer[end..]) && IsCharBoundary(buffer, end)
  {
    var s := buffer[consumed..];
    var e := end - consumed;
    CutAfterAscii(s, e - 1);
    assert s[e..] == buffer[end..] && s[..e] == buffer[consumed..end];
    var rest := Split(s[e..]);
    assert Split(s) == Cut([s[..e]] + rest.blocks, rest.tail);
    assert ([s[..e]] + rest.blocks)[1..] == rest.blocks;
  }

  /** Parsing a stream chunk by chunk gives the events of the whole decoded text. */
  method ParseStream(chunks: seq<seq<byte>>) returns (events: seq<SseEvent>)
    ensures exists cs :: LossyDecodes(Join(chunks), cs) && events == WholeParse(EncodeAll(cs))
  {
    hide Split, Events, ParseBlock, Resumable, WholeParse, Drain, LossyDecodes, WholeDecode, EncodeAll;
    var parser := new IncrementalSseParser();
    events := [];
    NothingReceived();
    for i := 0 to |chunks|
      invariant parser.Valid() && fresh(parser) && fresh(parser.utf8)
      invariant parser.utf8.received + Join(chunks[i..]) == Join(chunks)
      invariant events == parser.Owed()
    {
      assert chunks[i..][1..] == chunks[i + 1..];
      var part := parser.Push(chunks[i]);
      events := events + part;
    }
    assert chunks[|chunks|..] == [] && parser.utf8.received == Join(chunks);
    var part := parser.Finish();
    events := events + part;
    LossyDecodeExact(Join(chunks), WholeDecode(Join(chunks)));
  }
}
