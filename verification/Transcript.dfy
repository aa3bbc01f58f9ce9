/**
 What a conversation says: its words, calls and results, as both encodings send them
 and as the model loop builds them from the answers it gets.
 */
module Transcript {
  import opened Texts
  import opened Conversation

  // --------------------------------------------------------------- what is being said

  /** Content read from left to right; how the text is cut into parts does not matter. */
  datatype Glyph = Letter(c: char) | Picture(artifact: string)

  function Letters(text: string): seq<Glyph> {
    seq(|text|, i requires 0 <= i < |text| => Letter(text[i]))
  }

  function Reading(content: seq<Part>): seq<Glyph> {
    if content == [] then []
    else (match content[0] case Text(text) => Letters(text) case Image(artifact) => [Picture(artifact)]) + Reading(content[1..])
  }

  function PayloadReading(p: Payload): seq<Glyph> {
    match p case OneText(text) => Letters(text) case Parts(parts) => Reading(parts)
  }

  datatype Utterance = Words(role: Role, reading: seq<Glyph>) | CallMade(call: WireCall) | ResultGiven(reading: seq<Glyph>)

  /** Content that is neither empty nor a single blank text. */
  predicate Significant(content: seq<Part>) {
    content != [] && !(|content| == 1 && content[0].Text? && Blank(content[0].text))
  }

  function CallsMade(calls: seq<WireCall>): seq<Utterance> {
    seq(|calls|, i requires 0 <= i < |calls| => CallMade(calls[i]))
  }

  /** What a message says: a result, or its words and then its calls. */
  function Says(m: Message): seq<Utterance> {
    if m.role.ToolRole? then [ResultGiven(Reading(m.content))]
    else (if Significant(m.content) then [Words(m.role, Reading(m.content))] else []) + CallsMade(WireCalls(m.calls))
  }

  function AllSaid(ms: seq<Message>): seq<Utterance> {
    if ms == [] then [] else Says(ms[0]) + AllSaid(ms[1..])
  }

  /** Messages that hold nothing replayed: no calls or words among kept items, no persisted turn. */
  ghost predicate PlainMessage(m: Message) {
    if m.role.ToolRole? then m.calls == []
    else !CoversTurn(m) && (forall i :: 0 <= i < |Replayed(m)| ==> Replayed(m)[i].OtherItem?) && (m.role.System? ==> m.calls == [])
  }

  ghost predicate PlainMessages(ms: seq<Message>) {
    forall i :: 0 <= i < |ms| ==> PlainMessage(ms[i])
  }

  // ---------------------------------------------------------------------- readings

  lemma {:induction false} PayloadOf(content: seq<Part>)
    ensures PayloadReading(ToPayload(content)) == Reading(content)
    ensures ContentPresent(ToPayload(content)) <==> Significant(content)
  {
    if |content| == 1 && content[0].Text? {
      assert content[1..] == [] && Letters(content[0].text) + [] == Letters(content[0].text);
      BlankIsTrimmedEmpty(content[0].text);
    }
  }

  lemma LettersAppend(a: string, b: string)
    ensures Letters(a + b) == Letters(a) + Letters(b)
  {
  }

  /** Joining the texts of a result keeps its reading. */
  lemma {:induction false} OutputOf(content: seq<Part>)
    ensures PayloadReading(OutputPayload(content)) == Reading(content)
  {
    if forall i :: 0 <= i < |content| ==> content[i].Text? { JoinedReading(content); }
  }

  lemma {:induction false} JoinedReading(content: seq<Part>)
    requires forall i :: 0 <= i < |content| ==> content[i].Text?
    ensures Letters(JoinedText(content)) == Reading(content)
  {
    if content != [] {
      JoinedReading(content[1..]);
      LettersAppend(content[0].text, JoinedText(content[1..]));
    }
  }

  // ------------------------------------------------------------------ Chat Completions

  function ChatMessageSays(w: ChatMessage): seq<Utterance> {
    if w.role.ToolRole? then [ResultGiven(PayloadReading(w.content))]
    else (if ContentPresent(w.content) then [Words(w.role, PayloadReading(w.content))] else []) + CallsMade(w.calls)
  }

  function ChatSays(ws: seq<ChatMessage>): seq<Utterance> {
    if ws == [] then [] else ChatMessageSays(ws[0]) + ChatSays(ws[1..])
  }

  /** The chat encoding says what the conversation says. */
  lemma {:induction false} ChatSaysAll(ms: seq<Message>)
    ensures ChatSays(ChatBody(ms)) == AllSaid(ms)
  {
    hide PayloadReading, ContentPresent, Significant, ToPayload, Reading;
    if ms != [] {
      PayloadOf(ms[0].content);
      ChatSaysAll(ms[1..]);
      assert ChatBody(ms)[1..] == ChatBody(ms[1..]);
    }
  }

  // ------------------------------------------------------------------------- Responses

  function ItemSays(item: Item): seq<Utterance> {
    match item
    case FunctionCall(id, name, arguments) => [CallMade(WireCall(id, name, arguments))]
    case FunctionOutput(_, output) => [ResultGiven(PayloadReading(output))]
    case Said(role, content) => [Words(role, PayloadReading(content))]
    case Thought(_) => []
    case OtherItem => []
  }

  function ItemsSay(items: seq<Item>): seq<Utterance> {
    if items == [] then [] else ItemSays(items[0]) + ItemsSay(items[1..])
  }

  /** Instructions are said by the system; blank ones say nothing. */
  function InstructionsSay(texts: seq<string>): seq<Utterance> {
    if texts == [] then []
    else (if Blank(texts[0]) then [] else [Words(System, Letters(texts[0]))]) + InstructionsSay(texts[1..])
  }

  lemma {:induction false} ItemsSayAppend(a: seq<Item>, b: seq<Item>)
    ensures ItemsSay(a + b) == ItemsSay(a) + ItemsSay(b)
    decreases |a|
  {
    hide ItemSays;
    if a == [] {
      assert a + b == b;
    } else {
      assert (a + b)[1..] == a[1..] + b;
      ItemsSayAppend(a[1..], b);
    }
  }

  lemma {:induction false} NothingSaid(items: seq<Item>)
    requires forall i :: 0 <= i < |items| ==> items[i].OtherItem? || items[i].Thought?
    ensures ItemsSay(items) == []
  {
    if items != [] { NothingSaid(items[1..]); }
  }

  lemma {:induction false} OneSaid(item: Item)
    ensures ItemsSay([item]) == ItemSays(item)
  {
    assert [item][1..] == [];
  }

  lemma {:induction false} EntriesSay(calls: seq<ToolCall>)
    ensures ItemsSay(CallEntries(calls)) == CallsMade(WireCalls(calls))
  {
    hide WireCallId;
    if calls != [] {
      EntriesSay(calls[1..]);
      assert CallEntries(calls)[1..] == CallEntries(calls[1..]);
      assert CallsMade(WireCalls(calls)) == [CallMade(WireCalls(calls)[0])] + CallsMade(WireCalls(calls[1..]));
    }
  }

  lemma {:induction false} MessageItemsSay(m: Message, ids: CallIds, key: string -> InvocationId)
    requires PlainMessage(m)
    ensures ItemsSay(MessageItems(m, ids, key).0) == Says(m)
  {
    hide ItemSays, PayloadReading, ContentPresent, Significant, ToPayload, OutputPayload, Reading, RecordIds, InsertCalls, CallEntries,
      CallsMade, WireCalls, ResolveCallId;
    if m.role.ToolRole? {
      OutputOf(m.content);
      OneSaid(FunctionOutput(ResolveCallId(m, ids), OutputPayload(m.content)));
      ItemFacts(FunctionOutput(ResolveCallId(m, ids), OutputPayload(m.content)));
    } else {
      PlainItemsSay(m, ids, key);
    }
  }

  lemma ItemFacts(item: Item)
    ensures item.FunctionOutput? ==> ItemSays(item) == [ResultGiven(PayloadReading(item.output))]
    ensures item.Said? ==> ItemSays(item) == [Words(item.role, PayloadReading(item.content))]
  {
  }

  /** What is kept for replay, and the reasoning, say nothing. */
  function Silent(m: Message): seq<Item> {
    Replayed(m) + Reasoning(m)
  }

  function SaidItems(m: Message): seq<Item> {
    if ContentPresent(ToPayload(m.content)) then [Said(m.role, ToPayload(m.content))] else []
  }

  lemma {:induction false} PlainParts(m: Message, ids: CallIds, key: string -> InvocationId)
    requires PlainMessage(m) && !m.role.ToolRole?
    ensures MessageItems(m, ids, key).0 == Silent(m) + (SaidItems(m) + CallEntries(m.calls))
    ensures forall i :: 0 <= i < |Silent(m)| ==> Silent(m)[i].OtherItem? || Silent(m)[i].Thought?
  {
    hide ContentPresent, ToPayload, RecordIds, InsertCalls, CallEntries, Replayed;
    PlainReplay(m);
    ReasoningIsThought(m);
    Grouped(Replayed(m), Reasoning(m), SaidItems(m), CallEntries(m.calls));
  }

  lemma Grouped(a: seq<Item>, b: seq<Item>, c: seq<Item>, d: seq<Item>)
    ensures a + b + c + d == (a + b) + (c + d)
  {
  }

  lemma PlainReplay(m: Message)
    requires PlainMessage(m) && !m.role.ToolRole?
    ensures forall i :: 0 <= i < |Replayed(m)| ==> Replayed(m)[i].OtherItem?
  {
  }

  lemma ReasoningIsThought(m: Message)
    ensures forall i :: 0 <= i < |Reasoning(m)| ==> Reasoning(m)[i].Thought?
  {
  }

  lemma {:induction false} SaidItemsSay(m: Message)
    ensures ItemsSay(SaidItems(m)) == if Significant(m.content) then [Words(m.role, Reading(m.content))] else []
  {
    hide ItemSays, PayloadReading, ContentPresent, Significant, ToPayload, Reading;
    var item := Said(m.role, ToPayload(m.content));
    PayloadOf(m.content);
    OneSaid(item);
    ItemFacts(item);
    NothingSaid([]);
  }

  lemma {:induction false} PlainItemsSay(m: Message, ids: CallIds, key: string -> InvocationId)
    requires PlainMessage(m) && !m.role.ToolRole?
    ensures ItemsSay(MessageItems(m, ids, key).0) == Says(m)
  {
    hide ItemsSay, MessageItems, PlainMessage, Silent, SaidItems, Significant, Reading, CallEntries, CallsMade, WireCalls;
    PlainParts(m, ids, key);
    NothingSaid(Silent(m));
    SaidItemsSay(m);
    EntriesSay(m.calls);
    ItemsSayAppend(Silent(m), SaidItems(m) + CallEntries(m.calls));
    ItemsSayAppend(SaidItems(m), CallEntries(m.calls));
    assert [] + Says(m) == Says(m);
  }

  /** So does the Responses encoding, the leading instructions included. */
  lemma {:induction false} ResponsesSayAll(ms: seq<Message>, leading: bool, ids: CallIds, key: string -> InvocationId)
    requires PlainMessages(ms)
    ensures LeadingSay(ms, leading) + ItemsSay(ResponsesInput(ms, leading, ids, key)) == AllSaid(ms)
    decreases |ms|
  {
    hide MessageItems, Says, ItemsSay, InstructionsSay, Instructions, IsInstruction, PlainMessage, LeadingSay, ResponsesInput;
    if ms == [] {
      NoneSay(leading, ids, key);
    } else if leading && IsInstruction(ms[0]) {
      ResponsesSayAll(ms[1..], true, ids, key);
      InstructionFirst(ms, ids, key);
      var rest := ItemsSay(ResponsesInput(ms[1..], true, ids, key));
      assert Says(ms[0]) + (LeadingSay(ms[1..], true) + rest) == (Says(ms[0]) + LeadingSay(ms[1..], true)) + rest;
    } else {
      var ids' := MessageItems(ms[0], ids, key).1;
      ResponsesSayAll(ms[1..], false, ids', key);
      MessageFirst(ms, leading, ids, key);
      var rest := ItemsSay(ResponsesInput(ms[1..], false, ids', key));
      assert [] + rest == rest && [] + (Says(ms[0]) + rest) == Says(ms[0]) + rest;
    }
  }

  function LeadingSay(ms: seq<Message>, leading: bool): seq<Utterance> {
    if leading then InstructionsSay(Instructions(ms)) else []
  }

  lemma {:induction false} NoneSay(leading: bool, ids: CallIds, key: string -> InvocationId)
    ensures LeadingSay([], leading) == [] && ItemsSay(ResponsesInput([], leading, ids, key)) == []
  {
  }

  lemma {:induction false} InstructionFirst(ms: seq<Message>, ids: CallIds, key: string -> InvocationId)
    requires ms != [] && IsInstruction(ms[0]) && PlainMessage(ms[0])
    ensures LeadingSay(ms, true) == Says(ms[0]) + LeadingSay(ms[1..], true)
    ensures ResponsesInput(ms, true, ids, key) == ResponsesInput(ms[1..], true, ids, key)
  {
    hide Says, PlainMessage, Blank, MessageItems, Letters;
    InstructionSays(ms[0]);
    var text, rest := ms[0].content[0].text, Instructions(ms[1..]);
    assert ([text] + rest)[1..] == rest;
    assert [] + InstructionsSay(rest) == InstructionsSay(rest);
  }

  lemma {:induction false} MessageFirst(ms: seq<Message>, leading: bool, ids: CallIds, key: string -> InvocationId)
    requires ms != [] && !(leading && IsInstruction(ms[0])) && PlainMessage(ms[0])
    ensures LeadingSay(ms, leading) == [] == LeadingSay(ms[1..], false)
    ensures ItemsSay(ResponsesInput(ms, leading, ids, key))
         == Says(ms[0]) + ItemsSay(ResponsesInput(ms[1..], false, MessageItems(ms[0], ids, key).1, key))
  {
    hide MessageItems, Says, ItemsSay, PlainMessage;
    var step := MessageItems(ms[0], ids, key);
    MessageItemsSay(ms[0], ids, key);
    ItemsSayAppend(step.0, ResponsesInput(ms[1..], false, step.1, key));
  }

  lemma {:induction false} InstructionSays(m: Message)
    requires IsInstruction(m) && PlainMessage(m)
    ensures |m.content| == 1 && m.content[0].Text?
    ensures Says(m) == if Blank(m.content[0].text) then [] else [Words(System, Letters(m.content[0].text))]
  {
    hide Blank;
    assert m.content[1..] == [] && Reading([]) == [];
    assert Reading(m.content) == Letters(m.content[0].text);
    assert CallsMade(WireCalls(m.calls)) == [];
    var words := if Significant(m.content) then [Words(System, Reading(m.content))] else [];
    assert words + [] == words;
  }

  /** Both encodings of a plain conversation say exactly the same: its words, calls and results in order. */
  lemma {:induction false} BothSayTheSame(ms: seq<Message>, key: string -> InvocationId)
    requires PlainMessages(ms)
    ensures ChatSays(ChatBody(ms)) == AllSaid(ms)
    ensures InstructionsSay(Instructions(ms)) + ItemsSay(ResponsesInput(ms, true, map[], key)) == AllSaid(ms)
  {
    ChatSaysAll(ms);
    ResponsesSayAll(ms, true, map[], key);
  }
}
