/**
 What event blocks look like on the wire: which field a line carries, and that events
 written line by line are read back, from any chunks.
 */
module SseWire {
  import opened Wrappers
  import opened Utf8
  import opened Sse

  // ---------------------------------------------------------------- the field of a line

  predicate EndsInCr(s: text) { s != [] && s[|s| - 1] == CR }

  predicate Name(s: text) { s != [] && COLON !in s }

  lemma {:induction false} ColonAt(name: text, rest: text)
    requires COLON !in name
    ensures IndexOf(name + [COLON] + rest, COLON) == |name|
  {
    var line := name + [COLON] + rest;
    assert line[..|name|] == name;
    IndexIs(line, COLON, |name|);
  }

  /** One carriage return at the end is not part of the line. */
  lemma TrailingCr(line: text)
    requires !EndsInCr(line)
    ensures FieldOf(line + [CR]) == FieldOf(line)
  {
    hide StripCr, IndexOf;
    StripsOne(line);
  }

  /** What follows the first colon is the value, less one space. */
  lemma {:induction false} AfterColon(raw: text, name: text, rest: text)
    requires Name(name) && StripCr(raw) == name + [COLON] + rest
    ensures FieldOf(raw) == Some(Field(name, if rest != [] && rest[0] == SPACE then rest[1..] else rest))
  {
    var line := name + [COLON] + rest;
    ColonAt(name, rest);
    assert line[0] == name[0];
    assert line[..|name|] == name && line[|name| + 1..] == rest;
  }

  lemma StripsOne(line: text)
    ensures !EndsInCr(line) ==> StripCr(line) == line
    ensures StripCr(line + [CR]) == line
  {
  }

  /** `name: value`, where one space after the colon is not part of the value. */
  lemma SpacedField(name: text, value: text)
    requires Name(name)
    ensures !EndsInCr(value) ==> FieldOf(name + [COLON, SPACE] + value) == Some(Field(name, value))
    ensures FieldOf(name + [COLON, SPACE] + value + [CR]) == Some(Field(name, value))
  {
    hide FieldOf, StripCr;
    var line, rest := name + [COLON, SPACE] + value, [SPACE] + value;
    assert line == name + [COLON] + rest && rest[1..] == value;
    StripsOne(line);
    if !EndsInCr(value) { AfterColon(line, name, rest); }
    AfterColon(line + [CR], name, rest);
  }

  /** `name:value`. */
  lemma PlainField(name: text, value: text)
    requires Name(name) && (value == [] || value[0] != SPACE)
    ensures !EndsInCr(value) ==> FieldOf(name + [COLON] + value) == Some(Field(name, value))
    ensures FieldOf(name + [COLON] + value + [CR]) == Some(Field(name, value))
  {
    hide FieldOf, StripCr;
    var line := name + [COLON] + value;
    StripsOne(line);
    if !EndsInCr(value) { AfterColon(line, name, value); }
    AfterColon(line + [CR], name, value);
  }

  /** A line without a colon is a name with an empty value. */
  lemma {:induction false} BareName(name: text)
    requires Name(name) && !EndsInCr(name)
    ensures FieldOf(name) == Some(Field(name, []))
  {
    assert IndexOf(name, COLON) == |name|;
  }

  /** Blank lines and comments carry nothing. */
  lemma NoField(comment: text)
    ensures FieldOf([]) == None && FieldOf([CR]) == None && FieldOf([COLON] + comment) == None
  {
    assert StripCr([COLON]) == [COLON];
  }

  // --------------------------------------------------------------- the lines of a text

  /** The lines are the pieces between the line feeds. */
  lemma {:induction false} LinesMeaning(s: text)
    ensures JoinLines(Lines(s)) == s
    ensures forall i :: 0 <= i < |Lines(s)| ==> LF !in Lines(s)[i]
    decreases |s|
  {
    var i := IndexOf(s, LF);
    if i < |s| {
      LinesMeaning(s[i + 1..]);
      assert s == s[..i] + [LF] + s[i + 1..];
      assert ([s[..i]] + Lines(s[i + 1..]))[1..] == Lines(s[i + 1..]);
    } else {
      assert s[..i] == s;
    }
  }

  lemma {:induction false} FirstLine(line: text, rest: text)
    requires LF !in line
    ensures Lines(line + [LF] + rest) == [line] + Lines(rest)
  {
    var s := line + [LF] + rest;
    assert s[..|line|] == line && s[|line| + 1..] == rest;
    IndexIs(s, LF, |line|);
  }

  /** All byte order marks at the beginning are dropped, and nothing else. */
  lemma {:induction false} BomDropped(s: text)
    ensures TrimBom(BOM + s) == TrimBom(s)
    ensures !(BOM <= s) ==> TrimBom(s) == s
  {
    assert (BOM + s)[3..] == s;
  }

  // ------------------------------------------------------------------- blocks of fields

  /** A field that can be written on one line. */
  predicate Writable(f: Field) {
    Name(f.name) && f.name[0] != BOM[0] && LF !in f.name && CR !in f.name && LF !in f.value && !EndsInCr(f.value)
  }

  function Line(f: Field): text { f.name + [COLON, SPACE] + f.value }

  /** Lines end with a line feed or with CR LF. */
  predicate IsNewline(nl: text) { nl == [LF] || nl == [CR, LF] }

  function Block(fields: seq<Field>, nl: text): text {
    if fields == [] then [] else Line(fields[0]) + nl + Block(fields[1..], nl)
  }

  ghost predicate AllWritable(fields: seq<Field>) {
    forall i :: 0 <= i < |fields| ==> Writable(fields[i])
  }

  lemma {:induction false} BlockFields(fields: seq<Field>, nl: text, tail: text)
    requires AllWritable(fields) && IsNewline(nl) && Fields(Lines(tail)) == []
    ensures Fields(Lines(Block(fields, nl) + tail)) == fields
    decreases |fields|
  {
    hide Lines, Fields, FieldOf;
    if fields == [] {
      assert [] + tail == tail;
    } else {
      var f, rest := fields[0], Block(fields[1..], nl);
      var line := if nl == [LF] then Line(f) else Line(f) + [CR];
      BlockFields(fields[1..], nl, tail);
      assert Block(fields, nl) + tail == line + [LF] + (rest + tail);
      FirstLine(line, rest + tail);
      SpacedField(f.name, f.value);
      FieldsCons(line, Lines(rest + tail));
      assert fields == [f] + fields[1..];
    }
  }

  lemma {:induction false} FieldsCons(line: text, rest: seq<text>)
    ensures Fields([line] + rest) == FieldsIn(line) + Fields(rest)
  {
    hide FieldsIn;
    assert ([line] + rest)[1..] == rest;
  }

  /** Nothing and a single newline are blank. */
  lemma {:induction false} BlankTails()
    ensures Fields(Lines([])) == [] && Fields(Lines([LF])) == [] && Fields(Lines([CR, LF])) == []
  {
    hide FieldOf;
    var none: seq<text> := [];
    NoField([]);
    FieldsCons([], none);
    assert Lines([]) == [[]] && [[]] + none == [[]];
    FirstLine([], []);
    FirstLine([CR], []);
    assert [] + [LF] + [] == [LF] && [CR] + [LF] + [] == [CR, LF];
    FieldsCons([], Lines([]));
    FieldsCons([CR], Lines([]));
  }

  /** A block of fields means what its fields mean, with or without the blank line that ends it. */
  lemma {:induction false} BlockParses(fields: seq<Field>, nl: text, tail: text)
    requires fields != [] && AllWritable(fields) && IsNewline(nl) && (tail == [] || tail == nl)
    ensures ParseBlock(Block(fields, nl) + tail) == Some(Summarize(fields))
  {
    hide Summarize, Fields, Lines;
    var s := Block(fields, nl) + tail;
    assert s[0] == fields[0].name[0];
    NoBom(s);
    BlankTails();
    BlockFields(fields, nl, tail);
  }

  // ------------------------------------------------------------------------- round trip

  function OptionalField(name: text, value: Option<text>): seq<Field> {
    if value.Some? then [Field(name, value.value)] else []
  }

  function DataFields(lines: seq<text>): seq<Field> {
    if lines == [] then [] else [Field(DATA, lines[0])] + DataFields(lines[1..])
  }

  /** An event as fields: one for each line of its data. */
  function EventFields(e: SseEvent): seq<Field> {
    OptionalField(EVENT, e.event) + OptionalField(ID, e.id) + OptionalField(RETRY, e.retry) + DataFields(Lines(e.data))
  }

  predicate OneLine(s: text) { LF !in s && !EndsInCr(s) }

  /** An event each of whose lines can be written. */
  ghost predicate WritableEvent(e: SseEvent) {
    && (e.event.Some? ==> OneLine(e.event.value)) && (e.id.Some? ==> OneLine(e.id.value)) && (e.retry.Some? ==> OneLine(e.retry.value))
    && forall i :: 0 <= i < |Lines(e.data)| ==> !EndsInCr(Lines(e.data)[i])
  }

  lemma {:induction false} ValuesAppend(a: seq<Field>, b: seq<Field>, name: text)
    ensures Values(a + b, name) == Values(a, name) + Values(b, name)
    decreases |a|
  {
    if a == [] {
      assert a + b == b;
    } else {
      assert (a + b)[1..] == a[1..] + b;
      ValuesAppend(a[1..], b, name);
    }
  }

  lemma {:induction false} OptionalValues(key: text, value: Option<text>, name: text)
    ensures Values(OptionalField(key, value), name) == if key == name && value.Some? then [value.value] else []
  {
    if value.Some? { assert [Field(key, value.value)][1..] == []; }
  }

  lemma {:induction false} DataValues(lines: seq<text>, name: text)
    ensures Values(DataFields(lines), name) == if name == DATA then lines else []
  {
    if lines != [] {
      assert ([Field(DATA, lines[0])] + DataFields(lines[1..]))[1..] == DataFields(lines[1..]);
      DataValues(lines[1..], name);
    }
  }

  lemma {:induction false} EventValues(e: SseEvent, name: text)
    ensures Values(EventFields(e), name)
         == (if name == EVENT && e.event.Some? then [e.event.value] else [])
          + (if name == ID && e.id.Some? then [e.id.value] else [])
          + (if name == RETRY && e.retry.Some? then [e.retry.value] else [])
          + (if name == DATA then Lines(e.data) else [])
  {
    hide Values, OptionalField, DataFields, Lines;
    var a, b, c, d := OptionalField(EVENT, e.event), OptionalField(ID, e.id), OptionalField(RETRY, e.retry), DataFields(Lines(e.data));
    ValuesAppend(a + b + c, d, name);
    ValuesAppend(a + b, c, name);
    ValuesAppend(a, b, name);
    OptionalValues(EVENT, e.event, name);
    OptionalValues(ID, e.id, name);
    OptionalValues(RETRY, e.retry, name);
    DataValues(Lines(e.data), name);
  }

  lemma NamesDiffer()
    ensures EVENT != ID && EVENT != RETRY && EVENT != DATA && ID != RETRY && ID != DATA && RETRY != DATA
    ensures Name(EVENT) && Name(ID) && Name(RETRY) && Name(DATA)
    ensures LF !in EVENT && LF !in ID && LF !in RETRY && LF !in DATA
    ensures CR !in EVENT && CR !in ID && CR !in RETRY && CR !in DATA
  {
    assert |EVENT| == 5 && |ID| == 2 && |RETRY| == 5 && |DATA| == 4 && EVENT[0] != RETRY[0];
  }

  /** The fields of an event mean the event, but for the join of its data. */
  lemma {:induction false} FieldsMean(e: SseEvent)
    ensures Summarize(EventFields(e)) == e.(data := JoinLines(DropEmpty(Lines(e.data))))
  {
    hide Values, EventFields, Lines, DropEmpty, JoinLines;
    NamesDiffer();
    EventValues(e, EVENT);
    EventValues(e, ID);
    EventValues(e, RETRY);
    EventValues(e, DATA);
    assert forall x: seq<text> :: [] + x == x && x + [] == x;
  }

  /** They mean it exactly when its data does not begin with a line feed. */
  lemma {:induction false} FieldsMeanEvent(e: SseEvent)
    ensures Summarize(EventFields(e)) == e <==> e.data == [] || e.data[0] != LF
  {
    hide Summarize, EventFields, Lines, DropEmpty, JoinLines;
    FieldsMean(e);
    LinesMeaning(e.data);
    JoinDeviation(Lines(e.data));
    FirstOfLines(e.data);
  }

  /** There is a second line after an empty first one exactly when the text begins with a line feed. */
  lemma {:induction false} FirstOfLines(s: text)
    ensures |Lines(s)| <= 1 || Lines(s)[0] != [] <==> s == [] || s[0] != LF
  {
  }

  lemma {:induction false} EventIsWritable(e: SseEvent)
    requires WritableEvent(e)
    ensures AllWritable(EventFields(e)) && EventFields(e) != []
  {
    hide Lines, DataFields;
    NamesDiffer();
    LinesMeaning(e.data);
    DataAreWritable(Lines(e.data));
  }

  lemma {:induction false} DataAreWritable(lines: seq<text>)
    requires forall i :: 0 <= i < |lines| ==> OneLine(lines[i])
    ensures AllWritable(DataFields(lines)) && |DataFields(lines)| == |lines|
  {
    if lines != [] {
      NamesDiffer();
      DataAreWritable(lines[1..]);
    }
  }

  /**
   Writing an event line by line and parsing the block gives the event back, exactly
   when its data does not begin with a line feed.
   */
  lemma {:induction false} RoundTrip(e: SseEvent, nl: text, tail: text)
    requires WritableEvent(e) && IsNewline(nl) && (tail == [] || tail == nl)
    ensures ParseBlock(Block(EventFields(e), nl) + tail) == Some(e) <==> e.data == [] || e.data[0] != LF
  {
    hide EventFields, Block, Summarize, ParseBlock, WritableEvent, AllWritable;
    EventIsWritable(e);
    BlockParses(EventFields(e), nl, tail);
    FieldsMeanEvent(e);
  }

  // --------------------------------------------------------------------- whole streams

  /** Events as they are sent: each as a block and a blank line. */
  function Wire(events: seq<SseEvent>, nl: text): text {
    if events == [] then [] else Block(EventFields(events[0]), nl) + nl + Wire(events[1..], nl)
  }

  /** The lines end with this newline and none of them begins with one. */
  ghost predicate Dense(s: text, nl: text) {
    && (s != [] ==> s[0] != LF && s[0] != CR && |nl| <= |s| && s[|s| - |nl|..] == nl)
    && forall j :: 0 <= j < |s| - 1 && s[j] == LF ==> s[j + 1] != LF && s[j + 1] != CR
  }

  lemma {:induction false} BlockIsDense(fields: seq<Field>, nl: text)
    requires AllWritable(fields) && IsNewline(nl)
    ensures Dense(Block(fields, nl), nl) && (fields != [] ==> Block(fields, nl) != [])
    decreases |fields|
  {
    hide Dense;
    if fields == [] {
      NothingIsDense(nl);
    } else {
      var f := fields[0];
      BlockIsDense(fields[1..], nl);
      assert Line(f)[0] == f.name[0];
      LineIsDense(Line(f), Block(fields[1..], nl), nl);
    }
  }

  lemma NothingIsDense(nl: text)
    ensures Dense([], nl)
  {
  }

  lemma LineIsDense(line: text, rest: text, nl: text)
    requires line != [] && line[0] != CR && LF !in line && Dense(rest, nl) && IsNewline(nl)
    ensures Dense(line + nl + rest, nl)
  {
    var s, n := line + nl + rest, |line| + |nl|;
    assert forall k :: 0 <= k < |line| ==> s[k] == line[k];
    assert forall k :: 0 <= k < |rest| ==> s[n + k] == rest[k];
    assert s[n - 1] == LF && (|nl| == 2 ==> s[n - 2] == CR);
    forall j | 0 <= j < |s| - 1 && s[j] == LF ensures s[j + 1] != LF && s[j + 1] != CR {
      assert j >= n - 1;
      if j >= n { assert s[j] == rest[j - n] && s[j + 1] == rest[j - n + 1]; } else { assert s[j + 1] == rest[0]; }
    }
    if rest != [] { assert s[|s| - |nl|..] == rest[|rest| - |nl|..]; } else { assert s[|s| - |nl|..] == nl; }
  }

  /** The first boundary is the blank line after a dense block. */
  lemma DenseEnds(s: text, nl: text)
    requires Dense(s, nl) && s != [] && IsNewline(nl)
    ensures NextEventBoundary(s + nl) == Some(|s| + |nl|)
  {
    hide Dense;
    var t, i := s + nl, |s| - |nl|;
    DenseInside(s, nl);
    DenseBoundary(s, nl);
    assert LeftmostEnd(t, |s| + |nl|);
    FindFromMeaning(t, 0);
    LeftmostUnique(t, |s| + |nl|, NextEventBoundary(t).value);
  }

  lemma DenseInside(s: text, nl: text)
    requires Dense(s, nl) && s != [] && IsNewline(nl)
    ensures |nl| <= |s| && NoBoundaryBefore(s + nl, |s| - |nl|)
  {
    var t := s + nl;
    assert forall k :: 0 <= k < |s| ==> t[k] == s[k];
    forall j: nat | j < |s| - |nl| ensures BoundaryAt(t, j) == 0 {
      assert j + 4 <= |t| ==> t[j..j + 4][1] == t[j + 1] && t[j..j + 4][2] == t[j + 2];
      assert nl == [LF] && j + 2 == |s| ==> t[j + 2] == LF;
    }
  }

  lemma DenseBoundary(s: text, nl: text)
    requires Dense(s, nl) && s != [] && IsNewline(nl)
    ensures |nl| <= |s| && BoundaryAt(s + nl, |s| - |nl|) == 2 * |nl|
  {
    var t, i := s + nl, |s| - |nl|;
    assert s[i..] == nl && t[i..] == nl + nl;
    assert t[i..][0] == t[i];
    BoundaryMeaning(t, i);
    assert nl + nl == [LF, LF] || nl + nl == [CR, LF, CR, LF];
  }

  ghost predicate Sendable(events: seq<SseEvent>) {
    forall i :: 0 <= i < |events| ==> WritableEvent(events[i]) && (events[i].data == [] || events[i].data[0] != LF)
  }

  /** Events written one after the other, with either newline, are the events of the text. */
  lemma {:induction false} WireParses(events: seq<SseEvent>, nl: text)
    requires Sendable(events) && IsNewline(nl)
    ensures WholeParse(Wire(events, nl)) == events
    ensures Split(Wire(events, nl)).tail == [] && Events(Split(Wire(events, nl)).blocks) == events
    decreases |events|
  {
    hide WritableEvent, EventFields, Block, ParseBlock, Dense, AllWritable, NextEventBoundary;
    NoBlock();
    if events == [] {
      SplitNothing();
    } else {
      var e, rest := events[0], Wire(events[1..], nl);
      var b := Block(EventFields(e), nl) + nl;
      EventIsWritable(e);
      BlockIsDense(EventFields(e), nl);
      DenseEnds(Block(EventFields(e), nl), nl);
      LeftmostStable(b, rest);
      SplitOnce(b + rest);
      assert (b + rest)[..|b|] == b && (b + rest)[|b|..] == rest;
      RoundTrip(e, nl, nl);
      WireParses(events[1..], nl);
      assert ([b] + Split(rest).blocks)[1..] == Split(rest).blocks;
      assert [e] + events[1..] == events;
    }
  }

  lemma {:induction false} SplitNothing()
    ensures Split([]) == Cut([], []) && Events([]) == []
  {
  }

  lemma {:induction false} NoBlock()
    ensures ParseBlock([]) == None
  {
    hide Fields, Lines;
    BlankTails();
    assert TrimBom([]) == [];
  }

  /** Valid text is the encoding of its decode. */
  lemma {:induction false} ValidDecodes(s: text, cs: seq<scalar>)
    requires ValidText(s) && LossyDecodes(s, cs)
    ensures EncodeAll(cs) == s
  {
    hide LossyDecodes, EncodeAll;
    ValidateMeaning(s);
    LossyDecodeExact(s, cs);
    LossyDecodeExact(s, Drain(s).text);
    WholeOfWellFormed(Drain(s).text);
  }

  /** Whatever chunks a stream of written events arrives in, exactly these events are delivered. */
  method DeliverEvents(events: seq<SseEvent>, nl: text, chunks: seq<seq<byte>>) returns (delivered: seq<SseEvent>)
    requires Sendable(events) && IsNewline(nl) && ValidText(Wire(events, nl)) && Join(chunks) == Wire(events, nl)
    ensures delivered == events
  {
    hide Sendable, Wire, WholeParse, LossyDecodes, ValidText, EncodeAll;
    delivered := ParseStream(chunks);
    ghost var cs :| LossyDecodes(Join(chunks), cs) && delivered == WholeParse(EncodeAll(cs));
    ValidDecodes(Wire(events, nl), cs);
    WireParses(events, nl);
  }
}
