/**
 Conversations with tool calls, and their two wire encodings.

 Canonical call ids are kept as their hyphenated text.  Of a turn's opaque provider
 state the model keeps what the encoders look at: the replayed items, whether they
 stand for the whole turn, and whether plaintext reasoning is stored.
 */
module Conversation {
  import opened Wrappers
  import opened Texts

  type InvocationId(==) = string

  datatype Role = System | User | Assistant | ToolRole

  /** A tool call; its arguments are kept as the JSON text of an object. */
  datatype ToolCall = ToolCall(id: InvocationId, name: string, arguments: string, providerCallId: Option<string>)

  datatype Part = Text(text: string) | Image(artifact: string)

  /** Content as it is sent: one text, or a list of parts. */
  datatype Payload = OneText(text: string) | Parts(parts: seq<Part>)

  /** What matters about an item of a Responses request. */
  datatype Item =
    | FunctionCall(callId: string, name: string, arguments: string)
    | FunctionOutput(callId: string, output: Payload)
    | Said(role: Role, content: Payload)
    | Thought(text: string)
    | OtherItem

  /** A call or its result, by its id on the wire. */
  datatype Trace = Called(id: string) | Answered(id: string)

  /** A turn's `items` are those left after filtering; `covers` tells that they stand for the whole turn. */
  datatype ProviderState = NoState | CallId(id: string) | TurnState(items: seq<Item>, covers: bool, reasoning: string)

  datatype Message = Message(role: Role, content: seq<Part>, calls: seq<ToolCall>, resultOf: Option<InvocationId>, state: ProviderState)

  // ------------------------------------------------------------------- call ids

  /** The provider's own id, trimmed, unless it is blank. */
  function NativeId(c: ToolCall): Option<string> {
    if c.providerCallId.Some? && Trim(c.providerCallId.value) != "" then Some(Trim(c.providerCallId.value)) else None
  }

  function WireCallId(c: ToolCall): string {
    if NativeId(c).Some? then NativeId(c).value else c.id
  }

  function WireIds(calls: seq<ToolCall>): seq<string> {
    seq(|calls|, i requires 0 <= i < |calls| => WireCallId(calls[i]))
  }

  /** The message that carries the result of a call. */
  function ToolMessage(c: ToolCall, content: seq<Part>): Message {
    Message(ToolRole, content, [], Some(c.id), if NativeId(c).Some? then CallId(NativeId(c).value) else NoState)
  }

  function StateCallId(m: Message): Option<string> {
    if m.state.CallId? && Trim(m.state.id) != "" then Some(Trim(m.state.id)) else None
  }

  function ToolMessageCallId(m: Message): Option<string> {
    if StateCallId(m).Some? then StateCallId(m) else m.resultOf
  }

  predicate ResultFor(m: Message, c: ToolCall) { m == ToolMessage(c, m.content) }

  lemma ResultKeepsId(m: Message, c: ToolCall)
    requires ResultFor(m, c)
    ensures ToolMessageCallId(m) == Some(WireCallId(c))
    ensures StateCallId(m) == NativeId(c)
  {
    if NativeId(c).Some? { TrimTwice(c.providerCallId.value); }
  }

  // ------------------------------------------------------------ well-paired histories

  /** The first messages answer the calls, one by one. */
  predicate Answers(ms: seq<Message>, calls: seq<ToolCall>) {
    |calls| <= |ms| && forall i :: 0 <= i < |calls| ==> ResultFor(ms[i], calls[i])
  }

  /** Every assistant call is followed by its result, in order, and results appear nowhere else. */
  predicate WellPaired(ms: seq<Message>)
    decreases |ms|
  {
    if ms == [] then true
    else if ms[0].role.Assistant? then Answers(ms[1..], ms[0].calls) && WellPaired(ms[1 + |ms[0].calls|..])
    else !ms[0].role.ToolRole? && ms[0].calls == [] && WellPaired(ms[1..])
  }

  lemma AnswersAppend(a: seq<Message>, b: seq<Message>, calls: seq<ToolCall>)
    requires Answers(a, calls)
    ensures Answers(a + b, calls) && |calls| <= |a|
  {
    hide ResultFor;
  }

  lemma {:induction false} WellPairedAppend(a: seq<Message>, b: seq<Message>)
    requires WellPaired(a) && WellPaired(b)
    ensures WellPaired(a + b)
    decreases |a|
  {
    hide Answers;
    if a == [] {
      assert a + b == b;
    } else {
      assert (a + b)[1..] == a[1..] + b && (a + b)[0] == a[0];
      if a[0].role.Assistant? {
        var n := 1 + |a[0].calls|;
        AnswersAppend(a[1..], b, a[0].calls);
        WellPairedAppend(a[n..], b);
        assert (a + b)[n..] == a[n..] + b;
      } else {
        WellPairedAppend(a[1..], b);
      }
    }
  }

  /** A plain message is a well-paired history by itself. */
  lemma PlainPaired(m: Message)
    requires !m.role.ToolRole? && m.calls == []
    ensures WellPaired([m])
  {
    assert [m][1..] == [];
  }

  /** An assistant message followed by exactly its results is one too. */
  lemma {:induction false} TurnPaired(m: Message, results: seq<Message>)
    requires m.role.Assistant? && |results| == |m.calls| && Answers(results, m.calls)
    ensures WellPaired([m] + results)
  {
    var ms := [m] + results;
    assert ms[1..] == results && ms[1 + |m.calls|..] == [];
  }

  /** An assistant message that the messages after it do not answer breaks any history. */
  lemma {:induction false} DanglingCall(a: seq<Message>, m: Message, rest: seq<Message>)
    requires WellPaired(a) && m.role.Assistant? && !Answers(rest, m.calls)
    ensures !WellPaired(a + [m] + rest)
    decreases |a|
  {
    hide Answers;
    var all := a + [m] + rest;
    if a == [] {
      assert all[0] == m && all[1..] == rest;
    } else if a[0].role.Assistant? {
      var n := 1 + |a[0].calls|;
      AnswersLength(a[1..], a[0].calls);
      DanglingCall(a[n..], m, rest);
      assert all[n..] == a[n..] + [m] + rest && all[0] == a[0];
    } else {
      DanglingCall(a[1..], m, rest);
      assert all[1..] == a[1..] + [m] + rest && all[0] == a[0];
    }
  }

  // ------------------------------------------------- what a wire conversation must say

  function CallItems(ids: seq<string>): seq<Trace> {
    seq(|ids|, i requires 0 <= i < |ids| => Called(ids[i]))
  }

  function OutputItems(ids: seq<string>): seq<Trace> {
    seq(|ids|, i requires 0 <= i < |ids| => Answered(ids[i]))
  }

  /** The reference: for each turn with calls, their ids, then the same ids as outputs. */
  function Expected(ms: seq<Message>): seq<Trace> {
    if ms == [] then []
    else
      (if ms[0].calls == [] then [] else CallItems(WireIds(ms[0].calls)) + OutputItems(WireIds(ms[0].calls)))
      + Expected(ms[1..])
  }

  /** Results add nothing to the reference. */
  lemma {:induction false} ExpectedSkips(ms: seq<Message>, calls: seq<ToolCall>)
    requires Answers(ms, calls)
    ensures Expected(ms) == Expected(ms[|calls|..])
    decreases |calls|
  {
    if calls == [] {
      assert ms[|calls|..] == ms;
    } else {
      assert ResultFor(ms[0], calls[0]);
      ExpectedSkips(ms[1..], calls[1..]);
      assert ms[1..][|calls| - 1..] == ms[|calls|..];
    }
  }

  lemma ItemsCons(calls: seq<ToolCall>)
    requires calls != []
    ensures CallItems(WireIds(calls)) == [Called(WireCallId(calls[0]))] + CallItems(WireIds(calls[1..]))
    ensures OutputItems(WireIds(calls)) == [Answered(WireCallId(calls[0]))] + OutputItems(WireIds(calls[1..]))
  {
  }

  // ------------------------------------------------------------- Chat Completions

  /** A call as it is sent. */
  datatype WireCall = WireCall(id: string, name: string, arguments: string)

  function WireCalls(calls: seq<ToolCall>): seq<WireCall> {
    seq(|calls|, i requires 0 <= i < |calls| => WireCall(WireCallId(calls[i]), calls[i].name, calls[i].arguments))
  }

  function IdsOf(calls: seq<WireCall>): seq<string> {
    seq(|calls|, i requires 0 <= i < |calls| => calls[i].id)
  }

  datatype ChatMessage = ChatMessage(role: Role, content: Payload, calls: seq<WireCall>, toolCallId: Option<string>)

  /** A single text is sent as it is, everything else as a list of parts. */
  function ToPayload(content: seq<Part>): Payload {
    if |content| == 1 && content[0].Text? then OneText(content[0].text) else Parts(content)
  }

  function MessageToWire(m: Message): ChatMessage {
    ChatMessage(m.role, ToPayload(m.content), WireCalls(m.calls), if m.role.ToolRole? then ToolMessageCallId(m) else None)
  }

  function ChatBody(ms: seq<Message>): seq<ChatMessage> {
    seq(|ms|, i requires 0 <= i < |ms| => MessageToWire(ms[i]))
  }

  /** The calls and results a receiver of the chat request sees, in order. */
  function ChatTraffic(ws: seq<ChatMessage>): seq<Trace> {
    if ws == [] then []
    else CallItems(IdsOf(ws[0].calls)) + (if ws[0].toolCallId.Some? then [Answered(ws[0].toolCallId.value)] else [])
         + ChatTraffic(ws[1..])
  }

  lemma ChatCons(ms: seq<Message>)
    requires ms != []
    ensures ChatTraffic(ChatBody(ms)) == ChatTraffic([MessageToWire(ms[0])]) + ChatTraffic(ChatBody(ms[1..]))
  {
    assert ChatBody(ms)[1..] == ChatBody(ms[1..]);
    assert ChatTraffic([MessageToWire(ms[0])][1..]) == [];
  }

  lemma {:induction false} ChatResults(ms: seq<Message>, calls: seq<ToolCall>)
    requires Answers(ms, calls)
    ensures ChatTraffic(ChatBody(ms)) == OutputItems(WireIds(calls)) + ChatTraffic(ChatBody(ms[|calls|..]))
    decreases |calls|
  {
    hide Trim, ChatTraffic, ChatBody;
    if calls == [] {
      assert ms[|calls|..] == ms;
    } else {
      ChatCons(ms);
      ChatOne(ms[0], calls[0]);
      ItemsCons(calls);
      ChatResults(ms[1..], calls[1..]);
      assert ms[1..][|calls| - 1..] == ms[|calls|..];
    }
  }

  lemma ChatOne(m: Message, c: ToolCall)
    requires ResultFor(m, c)
    ensures ChatTraffic([MessageToWire(m)]) == [Answered(WireCallId(c))]
  {
    hide Trim;
    ResultKeepsId(m, c);
    assert ChatTraffic([MessageToWire(m)][1..]) == [];
  }

  lemma ChatPlain(m: Message)
    requires !m.role.ToolRole?
    ensures ChatTraffic([MessageToWire(m)]) == CallItems(WireIds(m.calls))
  {
    assert ChatTraffic([MessageToWire(m)][1..]) == [];
  }

  /** The chat encoding of a well-paired history names each call and its result alike. */
  lemma {:induction false} ChatPairsIds(ms: seq<Message>)
    requires WellPaired(ms)
    ensures ChatTraffic(ChatBody(ms)) == Expected(ms)
    decreases |ms|
  {
    hide Trim, ChatTraffic, ChatBody, Answers;
    if ms == [] {
      NoTraffic();
    } else {
      var n := |ms[0].calls|;
      ChatCons(ms);
      ChatPlain(ms[0]);
      if ms[0].role.Assistant? {
        AnswersLength(ms[1..], ms[0].calls);
        ChatResults(ms[1..], ms[0].calls);
        ExpectedSkips(ms[1..], ms[0].calls);
        assert ms[1..][n..] == ms[1 + n..];
        ChatPairsIds(ms[1 + n..]);
      } else {
        ChatPairsIds(ms[1..]);
      }
    }
  }

  lemma NoTraffic()
    ensures ChatTraffic(ChatBody([])) == []
  {
  }

  lemma NoCallItems()
    ensures CallItems(WireIds([])) == [] && OutputItems(WireIds([])) == []
  {
  }

  lemma AnswersLength(ms: seq<Message>, calls: seq<ToolCall>)
    requires Answers(ms, calls)
    ensures |calls| <= |ms|
  {
  }

  // -------------------------------------------------------------------- Responses

  type CallIds = map<InvocationId, string>

  /** Ids of function calls among replayed items; `key` derives a canonical id from a provider id. */
  function RecordIds(items: seq<Item>, ids: CallIds, key: string -> InvocationId): CallIds
    decreases |items|
  {
    if items == [] then ids
    else if items[0].FunctionCall? && Trim(items[0].callId) != "" then
      RecordIds(items[1..], ids[key(Trim(items[0].callId)) := Trim(items[0].callId)], key)
    else RecordIds(items[1..], ids, key)
  }

  /** The item is a call of the provider's with an id. */
  predicate IdentifiedCall(item: Item) { item.FunctionCall? && !Blank(item.callId) }

  /** What is recorded for canonical ids that no replayed call has stays. */
  lemma {:induction false} RecordedElsewhere(items: seq<Item>, ids: CallIds, key: string -> InvocationId, id: InvocationId)
    requires forall j :: 0 <= j < |items| && IdentifiedCall(items[j]) ==> key(Trim(items[j].callId)) != id
    ensures id in RecordIds(items, ids, key) <==> id in ids
    ensures id in ids ==> RecordIds(items, ids, key)[id] == ids[id]
    decreases |items|
  {
    hide Trim, Blank;
    if items != [] {
      if items[0].FunctionCall? { BlankIsTrimmedEmpty(items[0].callId); }
      var next := if IdentifiedCall(items[0]) then ids[key(Trim(items[0].callId)) := Trim(items[0].callId)] else ids;
      RecordedElsewhere(items[1..], next, key, id);
    }
  }

  /** A replayed call is known by its id, unless a later one has the same canonical id. */
  lemma {:induction false} RecordedIs(items: seq<Item>, ids: CallIds, key: string -> InvocationId, i: nat)
    requires i < |items| && IdentifiedCall(items[i])
    requires forall j :: i < j < |items| && IdentifiedCall(items[j]) ==> key(Trim(items[j].callId)) != key(Trim(items[i].callId))
    ensures var id := Trim(items[i].callId); key(id) in RecordIds(items, ids, key) && RecordIds(items, ids, key)[key(id)] == id
    decreases |items|
  {
    hide Trim, Blank;
    if items[0].FunctionCall? { BlankIsTrimmedEmpty(items[0].callId); }
    var next := if IdentifiedCall(items[0]) then ids[key(Trim(items[0].callId)) := Trim(items[0].callId)] else ids;
    if i == 0 {
      RecordedElsewhere(items[1..], next, key, key(Trim(items[0].callId)));
    } else {
      RecordedIs(items[1..], next, key, i - 1);
    }
  }

  function InsertCalls(calls: seq<ToolCall>, ids: CallIds): CallIds
    decreases |calls|
  {
    if calls == [] then ids else InsertCalls(calls[1..], ids[calls[0].id := WireCallId(calls[0])])
  }

  function ResolveCallId(m: Message, ids: CallIds): string {
    if StateCallId(m).Some? then StateCallId(m).value
    else if m.resultOf.None? then ""
    else if m.resultOf.value in ids then ids[m.resultOf.value] else m.resultOf.value
  }

  predicate ContentPresent(content: Payload) {
    match content case OneText(text) => Trim(text) != "" case Parts(parts) => parts != []
  }

  /** All texts of the content, one after the other. */
  function JoinedText(content: seq<Part>): string {
    if content == [] then "" else (if content[0].Text? then content[0].text else "") + JoinedText(content[1..])
  }

  /** A result without images is sent as one text. */
  function OutputPayload(content: seq<Part>): Payload {
    if forall i :: 0 <= i < |content| ==> content[i].Text? then OneText(JoinedText(content)) else Parts(content)
  }

  function CallEntries(calls: seq<ToolCall>): seq<Item> {
    seq(|calls|, i requires 0 <= i < |calls| => FunctionCall(WireCallId(calls[i]), calls[i].name, calls[i].arguments))
  }

  function Replayed(m: Message): seq<Item> {
    if m.state.TurnState? then m.state.items else []
  }

  predicate CoversTurn(m: Message) { m.state.TurnState? && m.state.covers }

  /** Stored reasoning is sent as text only when nothing is replayed. */
  function Reasoning(m: Message): seq<Item> {
    if Replayed(m) == [] && m.state.TurnState? && Trim(m.state.reasoning) != "" then [Thought(Trim(m.state.reasoning))] else []
  }

  function MessageItems(m: Message, ids: CallIds, key: string -> InvocationId): (seq<Item>, CallIds) {
    if m.role.ToolRole? then ([FunctionOutput(ResolveCallId(m, ids), OutputPayload(m.content))], ids)
    else
      var recorded := RecordIds(Replayed(m), ids, key);
      if CoversTurn(m) then (Replayed(m), recorded)
      else
        (Replayed(m)
         + Reasoning(m)
         + (if ContentPresent(ToPayload(m.content)) then [Said(m.role, ToPayload(m.content))] else [])
         + CallEntries(m.calls),
         InsertCalls(m.calls, recorded))
  }

  /** A turn's stored reasoning is sent, trimmed, exactly when nothing of the turn is replayed. */
  lemma ReasoningIsSent(m: Message, ids: CallIds, key: string -> InvocationId, text: string)
    requires !m.role.ToolRole?
    ensures Thought(text) in MessageItems(m, ids, key).0
            <==> Thought(text) in Replayed(m)
                 || (m.state.TurnState? && !m.state.covers && m.state.items == [] && !Blank(m.state.reasoning) && text == Trim(m.state.reasoning))
  {
    hide Trim, Blank, RecordIds, InsertCalls, ContentPresent;
    if m.state.TurnState? { BlankIsTrimmedEmpty(m.state.reasoning); }
    assert Thought(text) !in CallEntries(m.calls);
  }

  /** A system message of one text part becomes an instruction while it leads. */
  predicate IsInstruction(m: Message) {
    m.role.System? && |m.content| == 1 && m.content[0].Text?
  }

  function ResponsesInput(ms: seq<Message>, leading: bool, ids: CallIds, key: string -> InvocationId): seq<Item>
    decreases |ms|
  {
    if ms == [] then []
    else if leading && IsInstruction(ms[0]) then ResponsesInput(ms[1..], leading, ids, key)
    else
      var (items, ids') := MessageItems(ms[0], ids, key);
      items + ResponsesInput(ms[1..], false, ids', key)
  }

  /** The texts of the leading system messages. */
  function Instructions(ms: seq<Message>): seq<string> {
    if ms != [] && IsInstruction(ms[0]) then [ms[0].content[0].text] + Instructions(ms[1..]) else []
  }

  method BuildResponsesInput(ms: seq<Message>, key: string -> InvocationId) returns (instructions: seq<string>, input: seq<Item>)
    ensures input == ResponsesInput(ms, true, map[], key) && instructions == Instructions(ms)
    ensures WellPaired(ms) && EncodableFrom(ms, map[], key) ==>
              && ItemTraffic(input) == ExpectedItems(ms) && Paired(ItemTraffic(input))
              && (NoOwnPairs(ms) ==> ItemTraffic(input) == Expected(ms))
  {
    hide MessageItems, IsInstruction, EncodableFrom, WellPaired, Expected, ExpectedItems, Paired, NoOwnPairs;
    instructions, input := [], [];
    var leading := true;
    var ids: CallIds := map[];
    assert ms[0..] == ms;
    for i := 0 to |ms|
      invariant ResponsesInput(ms, true, map[], key) == input + ResponsesInput(ms[i..], leading, ids, key)
      invariant Instructions(ms) == instructions + if leading then Instructions(ms[i..]) else []
    {
      assert ms[i..][0] == ms[i] && ms[i..][1..] == ms[i + 1..];
      if leading && IsInstruction(ms[i]) {
        InstructionIsText(ms[i]);
        instructions := instructions + [ms[i].content[0].text];
        continue;
      }
      leading := false;
      var step := MessageItems(ms[i], ids, key);
      input := input + step.0;
      ids := step.1;
    }
    if WellPaired(ms) && EncodableFrom(ms, map[], key) {
      ResponsesPairsIds(ms, true, map[], key);
      ExpectedIsPaired(ms, map[], key);
      if NoOwnPairs(ms) { SameExpectation(ms); }
    }
  }

  lemma InstructionIsText(m: Message)
    requires IsInstruction(m)
    ensures |m.content| == 1 && m.content[0].Text?
  {
  }

  /** The calls and outputs among the items. */
  function ItemTraffic(items: seq<Item>): seq<Trace> {
    if items == [] then []
    else
      (match items[0]
       case FunctionCall(id, _, _) => [Called(id)]
       case FunctionOutput(id, _) => [Answered(id)]
       case _ => [])
      + ItemTraffic(items[1..])
  }

  lemma {:induction false} ItemTrafficAppend(a: seq<Item>, b: seq<Item>)
    ensures ItemTraffic(a + b) == ItemTraffic(a) + ItemTraffic(b)
    decreases |a|
  {
    if a == [] {
      assert a + b == b;
    } else {
      assert (a + b)[1..] == a[1..] + b;
      ItemTrafficAppend(a[1..], b);
    }
  }

  lemma {:induction false} EntriesTraffic(calls: seq<ToolCall>)
    ensures ItemTraffic(CallEntries(calls)) == CallItems(WireIds(calls))
  {
    hide WireCallId;
    if calls == [] {
      NoCallItems();
      assert CallEntries(calls) == [];
    } else {
      ItemsCons(calls);
      EntriesTraffic(calls[1..]);
      assert CallEntries(calls)[1..] == CallEntries(calls[1..]);
    }
  }

  lemma {:induction false} ItemTrafficNone(a: seq<Item>)
    requires forall i :: 0 <= i < |a| ==> a[i].OtherItem? || a[i].Said? || a[i].Thought?
    ensures ItemTraffic(a) == []
    decreases |a|
  {
    if a != [] { ItemTrafficNone(a[1..]); }
  }

  // ---------------------------------------------- when a result resolves to its call

  /** The wire id of the last call with this canonical id. */
  function LastWire(calls: seq<ToolCall>, id: InvocationId): Option<string> {
    if calls == [] then None
    else if calls[|calls| - 1].id == id then Some(WireCallId(calls[|calls| - 1]))
    else LastWire(calls[..|calls| - 1], id)
  }

  lemma {:induction false} InsertSnoc(calls: seq<ToolCall>, c: ToolCall, ids: CallIds)
    ensures InsertCalls(calls + [c], ids) == InsertCalls(calls, ids)[c.id := WireCallId(c)]
    decreases |calls|
  {
    var all := calls + [c];
    if calls == [] {
      assert all[1..] == [];
    } else {
      assert all[1..] == calls[1..] + [c];
      InsertSnoc(calls[1..], c, ids[calls[0].id := WireCallId(calls[0])]);
    }
  }

  lemma {:induction false} InsertedIs(calls: seq<ToolCall>, ids: CallIds, id: InvocationId)
    ensures LastWire(calls, id).Some? ==> id in InsertCalls(calls, ids) && InsertCalls(calls, ids)[id] == LastWire(calls, id).value
    decreases |calls|
  {
    if calls != [] {
      var k := |calls| - 1;
      assert calls == calls[..k] + [calls[k]];
      InsertSnoc(calls[..k], calls[k], ids);
      InsertedIs(calls[..k], ids, id);
    }
  }

  lemma {:induction false} LastWireExists(calls: seq<ToolCall>, i: nat)
    requires i < |calls|
    ensures LastWire(calls, calls[i].id).Some?
    decreases |calls|
  {
    var k := |calls| - 1;
    if calls[k].id != calls[i].id { LastWireExists(calls[..k], i); }
  }

  /** A result of this call is sent under the call's id, given the table. */
  predicate ResolvesIn(table: CallIds, c: ToolCall) {
    NativeId(c).Some? || c.id !in table || table[c.id] == c.id
  }

  lemma ResolvesIff(m: Message, c: ToolCall, table: CallIds)
    requires ResultFor(m, c)
    ensures ResolveCallId(m, table) == WireCallId(c) <==> ResolvesIn(table, c)
  {
    hide Trim;
    ResultKeepsId(m, c);
  }

  /**
   The call has an id of its own, or no later call of the turn with the same
   canonical id is known to the provider under another one.
   */
  predicate Resolvable(calls: seq<ToolCall>, c: ToolCall) {
    NativeId(c).Some? || LastWire(calls, c.id) == Some(c.id)
  }

  /** In a turn rebuilt from its canonical calls, a result resolves exactly when the call is resolvable. */
  lemma {:induction false} ResolvableIff(calls: seq<ToolCall>, i: nat, ids: CallIds)
    requires i < |calls|
    ensures ResolvesIn(InsertCalls(calls, ids), calls[i]) <==> Resolvable(calls, calls[i])
  {
    hide Trim, InsertCalls, LastWire;
    LastWireExists(calls, i);
    InsertedIs(calls, ids, calls[i].id);
  }

  /** Two calls of one turn whose canonical ids clash, one of them unnamed by the provider. */
  lemma {:induction false} ClashIsNotResolved(id: InvocationId, name: string, arguments: string, native: string, content: seq<Part>, ids: CallIds)
    requires Trim(native) != "" && Trim(native) != id
    ensures var calls := [ToolCall(id, name, arguments, None), ToolCall(id, name, arguments, Some(native))];
            ResolveCallId(ToolMessage(calls[0], content), InsertCalls(calls, ids)) != WireCallId(calls[0])
  {
    hide Trim;
    var calls := [ToolCall(id, name, arguments, None), ToolCall(id, name, arguments, Some(native))];
    assert LastWire(calls, id) == Some(Trim(native));
    ResolvableIff(calls, 0, ids);
    ResolvesIff(ToolMessage(calls[0], content), calls[0], InsertCalls(calls, ids));
  }

  // -------------------------------------------------- what replayed items must hold

  /** Groups of calls, each followed by its outputs under the same ids. */
  ghost predicate Paired(t: seq<Trace>)
    decreases |t|
  {
    t == [] || exists ids: seq<string> :: StartsWithGroup(t, ids) && Paired(t[2 * |ids|..])
  }

  ghost predicate StartsWithGroup(t: seq<Trace>, ids: seq<string>) {
    ids != [] && 2 * |ids| <= |t| && t[..2 * |ids|] == CallItems(ids) + OutputItems(ids)
  }

  lemma {:induction false} PairedAppend(a: seq<Trace>, b: seq<Trace>)
    requires Paired(a) && Paired(b)
    ensures Paired(a + b)
    decreases |a|
  {
    hide Paired, StartsWithGroup;
    if a == [] {
      assert a + b == b;
    } else {
      var ids := FirstGroup(a);
      GroupAppend(a, b, ids);
      PairedAppend(a[2 * |ids|..], b);
      PairedCons(a + b, ids);
    }
  }

  lemma {:induction false} FirstGroup(t: seq<Trace>) returns (ids: seq<string>)
    requires Paired(t) && t != []
    ensures ids != [] && 2 * |ids| <= |t| && StartsWithGroup(t, ids) && Paired(t[2 * |ids|..])
  {
    hide CallItems, OutputItems;
    ids :| StartsWithGroup(t, ids) && Paired(t[2 * |ids|..]);
  }

  lemma {:induction false} PairedCons(t: seq<Trace>, ids: seq<string>)
    requires 2 * |ids| <= |t| && StartsWithGroup(t, ids) && Paired(t[2 * |ids|..])
    ensures Paired(t)
  {
  }

  lemma GroupAppend(a: seq<Trace>, b: seq<Trace>, ids: seq<string>)
    requires StartsWithGroup(a, ids)
    ensures 2 * |ids| <= |a| && StartsWithGroup(a + b, ids) && (a + b)[2 * |ids|..] == a[2 * |ids|..] + b
  {
    hide CallItems, OutputItems;
    assert (a + b)[..2 * |ids|] == a[..2 * |ids|];
  }

  lemma GroupIsPaired(ids: seq<string>)
    ensures Paired(CallItems(ids) + OutputItems(ids))
  {
    var t := CallItems(ids) + OutputItems(ids);
    if ids != [] {
      assert t[..2 * |ids|] == t && t[2 * |ids|..] == [];
      assert StartsWithGroup(t, ids);
    } else {
      assert t == [];
    }
  }

  /**
   Items that stand for the whole turn carry its calls, or, for a message without
   calls, calls together with their outputs; other replayed items carry neither.
   */
  ghost predicate ReplayFits(m: Message) {
    if !CoversTurn(m) then ItemTraffic(Replayed(m)) == []
    else if m.role.Assistant? && m.calls == [] then Paired(ItemTraffic(Replayed(m)))
    else ItemTraffic(Replayed(m)) == CallItems(WireIds(m.calls))
  }

  /** The message can be encoded with this table: its replay fits and its results will resolve. */
  ghost predicate Fits(m: Message, ids: CallIds, key: string -> InvocationId) {
    ReplayFits(m) && forall i :: 0 <= i < |m.calls| ==> ResolvesIn(MessageItems(m, ids, key).1, m.calls[i])
  }

  /** Every message fits the table that the messages before it leave. */
  ghost predicate EncodableFrom(ms: seq<Message>, ids: CallIds, key: string -> InvocationId)
    decreases |ms|
  {
    ms == []
    || ((ms[0].role.ToolRole? || Fits(ms[0], ids, key)) && EncodableFrom(ms[1..], MessageItems(ms[0], ids, key).1, key))
  }

  /** The recorded pairs of a persisted turn. */
  function OwnPairs(m: Message): seq<Trace> {
    if m.role.Assistant? && CoversTurn(m) && m.calls == [] then ItemTraffic(Replayed(m)) else []
  }

  predicate NoOwnPairs(ms: seq<Message>) {
    forall i :: 0 <= i < |ms| ==> OwnPairs(ms[i]) == []
  }

  /** The reference with the recorded pairs of persisted turns in their places. */
  function ExpectedItems(ms: seq<Message>): seq<Trace> {
    if ms == [] then []
    else OwnPairs(ms[0]) + (CallItems(WireIds(ms[0].calls)) + (OutputItems(WireIds(ms[0].calls)) + ExpectedItems(ms[1..])))
  }

  /** Without persisted pairs both encodings share one reference. */
  lemma {:induction false} SameExpectation(ms: seq<Message>)
    requires NoOwnPairs(ms)
    ensures ExpectedItems(ms) == Expected(ms)
    decreases |ms|
  {
    hide OwnPairs, CallItems, OutputItems, WireIds;
    if ms != [] {
      ExpectedHead(ms);
      SameExpectation(ms[1..]);
    }
  }

  lemma {:induction false} ExpectedIsPaired(ms: seq<Message>, ids: CallIds, key: string -> InvocationId)
    requires EncodableFrom(ms, ids, key)
    ensures Paired(ExpectedItems(ms))
    decreases |ms|
  {
    hide Paired, MessageItems, CallItems, OutputItems, WireIds, ItemTraffic, CoversTurn, Replayed;
    NoneIsPaired();
    if ms != [] {
      ExpectedIsPaired(ms[1..], MessageItems(ms[0], ids, key).1, key);
      var w, rest, own := WireIds(ms[0].calls), ExpectedItems(ms[1..]), OwnPairs(ms[0]);
      GroupIsPaired(w);
      PairedAppend(CallItems(w) + OutputItems(w), rest);
      assert CallItems(w) + OutputItems(w) + rest == CallItems(w) + (OutputItems(w) + rest);
      PairedAppend(own, CallItems(w) + (OutputItems(w) + rest));
    }
  }

  lemma NoneIsPaired()
    ensures Paired([])
  {
  }

  // ------------------------------------------------------------- encoding one turn

  lemma {:induction false} NothingRecorded(items: seq<Item>, ids: CallIds, key: string -> InvocationId)
    requires ItemTraffic(items) == []
    ensures RecordIds(items, ids, key) == ids
    decreases |items|
  {
    if items != [] { NothingRecorded(items[1..], ids, key); }
  }

  /** The calls and outputs a message itself sends. */
  lemma MessageTraffic(m: Message, ids: CallIds, key: string -> InvocationId)
    requires !m.role.ToolRole?
    ensures ItemTraffic(MessageItems(m, ids, key).0)
         == ItemTraffic(Replayed(m)) + (if CoversTurn(m) then [] else CallItems(WireIds(m.calls)))
  {
    hide Trim, RecordIds, InsertCalls, ContentPresent, ItemTraffic, WireIds;
    var calls := CallEntries(m.calls);
    var others :=
      Reasoning(m)
      + (if ContentPresent(ToPayload(m.content)) then [Said(m.role, ToPayload(m.content))] else []);
    if !CoversTurn(m) {
      ItemTrafficNone(others);
      EntriesTraffic(m.calls);
      ItemTrafficAppend(others, calls);
      ItemTrafficAppend(Replayed(m), others + calls);
      assert MessageItems(m, ids, key).0 == Replayed(m) + (others + calls);
      assert [] + ItemTraffic(calls) == ItemTraffic(calls);
    } else {
      assert ItemTraffic(Replayed(m)) + [] == ItemTraffic(Replayed(m));
    }
  }

  lemma FitTraffic(m: Message, ids: CallIds, key: string -> InvocationId)
    requires !m.role.ToolRole? && Fits(m, ids, key)
    ensures ItemTraffic(MessageItems(m, ids, key).0) == OwnPairs(m) + CallItems(WireIds(m.calls))
    ensures OwnPairs(m) != [] ==> m.calls == []
  {
    hide Trim, MessageItems, ItemTraffic, CallItems, WireIds, Paired;
    MessageTraffic(m, ids, key);
    NoCallItems();
    assert forall x: seq<Trace> :: x + [] == x && [] + x == x;
  }

  /** What the results of a turn are sent as. */
  function ResolvedItems(ms: seq<Message>, n: nat, table: CallIds): seq<Trace>
    requires n <= |ms|
  {
    seq(n, i requires 0 <= i < n => Answered(ResolveCallId(ms[i], table)))
  }

  lemma {:induction false} ResponsesResults(ms: seq<Message>, calls: seq<ToolCall>, table: CallIds, key: string -> InvocationId)
    requires Answers(ms, calls)
    ensures ItemTraffic(ResponsesInput(ms, false, table, key))
         == ResolvedItems(ms, |calls|, table) + ItemTraffic(ResponsesInput(ms[|calls|..], false, table, key))
    decreases |calls|
  {
    hide Trim, ItemTraffic, ResolveCallId, Answers, ResultFor, ResponsesInput, ResolvedItems;
    AnswersLength(ms, calls);
    if calls == [] {
      assert ms[|calls|..] == ms;
      ResolvedCons(ms, 0, table);
    } else {
      AnswersHead(ms, calls);
      ResultIsTool(ms[0], calls[0]);
      var item, rest := FunctionOutput(ResolveCallId(ms[0], table), OutputPayload(ms[0].content)), ResponsesInput(ms[1..], false, table, key);
      ToolItem(ms, table, key);
      OneItem(item, rest);
      ResponsesResults(ms[1..], calls[1..], table, key);
      assert ms[1..][|calls| - 1..] == ms[|calls|..];
      ResolvedCons(ms, |calls|, table);
    }
  }

  lemma {:induction false} ToolItem(ms: seq<Message>, table: CallIds, key: string -> InvocationId)
    requires ms != [] && ms[0].role.ToolRole?
    ensures ResponsesInput(ms, false, table, key)
         == [FunctionOutput(ResolveCallId(ms[0], table), OutputPayload(ms[0].content))] + ResponsesInput(ms[1..], false, table, key)
  {
    hide ResolveCallId;
  }

  lemma ResolvedCons(ms: seq<Message>, n: nat, table: CallIds)
    requires n <= |ms|
    ensures n == 0 ==> ResolvedItems(ms, n, table) == []
    ensures n > 0 ==> ResolvedItems(ms, n, table) == [Answered(ResolveCallId(ms[0], table))] + ResolvedItems(ms[1..], n - 1, table)
  {
    hide ResolveCallId;
  }

  /** The results are sent under the calls' ids exactly when all of them resolve. */
  lemma ResolvedIff(ms: seq<Message>, calls: seq<ToolCall>, table: CallIds)
    requires Answers(ms, calls)
    ensures ResolvedItems(ms, |calls|, table) == OutputItems(WireIds(calls))
            <==> forall i :: 0 <= i < |calls| ==> ResolvesIn(table, calls[i])
  {
    hide Trim, ResolveCallId, ResultFor, WireCallId, ResolvesIn;
    var x, y := ResolvedItems(ms, |calls|, table), OutputItems(WireIds(calls));
    forall i | 0 <= i < |calls| ensures x[i] == y[i] <==> ResolvesIn(table, calls[i]) {
      assert ResultFor(ms[i], calls[i]);
      ResolvesIff(ms[i], calls[i], table);
    }
  }

  /**
   A turn with calls and its results are sent as the calls' ids and then the same
   ids exactly when the message fits the table.
   */
  lemma {:induction false} TurnEncodesIff(m: Message, results: seq<Message>, ids: CallIds, key: string -> InvocationId)
    requires m.role.Assistant? && m.calls != [] && |results| == |m.calls| && Answers(results, m.calls)
    ensures var (items, table) := MessageItems(m, ids, key);
            ItemTraffic(items + ResponsesInput(results, false, table, key))
            == CallItems(WireIds(m.calls)) + OutputItems(WireIds(m.calls))
            <==> Fits(m, ids, key)
  {
    hide Trim, ItemTraffic, MessageItems, Answers, ResolvesIn, Paired;
    var (items, table) := MessageItems(m, ids, key);
    var n, c, o := |m.calls|, CallItems(WireIds(m.calls)), OutputItems(WireIds(m.calls));
    ItemTrafficAppend(items, ResponsesInput(results, false, table, key));
    ResponsesResults(results, m.calls, table, key);
    ItemTrafficNone([]);
    assert results[n..] == [];
    var out := ResolvedItems(results, n, table);
    assert out + [] == out;
    ResolvedIff(results, m.calls, table);
    MessageTraffic(m, ids, key);
    SplitEqual(ItemTraffic(items), out, c, o);
    var r := ItemTraffic(Replayed(m));
    assert r + [] == r && (r + c == c ==> |r| == 0) && [] + c == c;
  }

  /**
   A persisted turn whose items are all filtered away still covers its message: the
   calls are not sent and their results are, so the turn does not fit any table.
   */
  lemma {:induction false} FilteredTurnIsDropped(m: Message, results: seq<Message>, ids: CallIds, key: string -> InvocationId)
    requires m.role.Assistant? && m.calls != [] && |results| == |m.calls| && Answers(results, m.calls)
    requires m.state.TurnState? && m.state.covers && m.state.items == []
    ensures !Fits(m, ids, key) && MessageItems(m, ids, key) == ([], ids)
    ensures ItemTraffic(ResponsesInput(results, false, ids, key)) == ResolvedItems(results, |m.calls|, ids) != []
  {
    hide Trim, ResolveCallId, ResultFor, Answers;
    ResponsesResults(results, m.calls, ids, key);
    assert results[|m.calls|..] == [];
    ItemTrafficNone([]);
    assert ItemTraffic(Replayed(m)) == [] && |CallItems(WireIds(m.calls))| > 0;
  }

  lemma SplitEqual(a: seq<Trace>, b: seq<Trace>, c: seq<Trace>, d: seq<Trace>)
    requires |b| == |d|
    ensures a + b == c + d <==> a == c && b == d
  {
    if a + b == c + d {
      assert a == (a + b)[..|a|] && c == (c + d)[..|c|];
      assert b == (a + b)[|a|..] && d == (c + d)[|c|..];
    }
  }

  lemma AnswersHead(ms: seq<Message>, calls: seq<ToolCall>)
    requires Answers(ms, calls) && calls != []
    ensures ms != [] && ResultFor(ms[0], calls[0]) && Answers(ms[1..], calls[1..])
  {
    hide ResultFor;
  }

  lemma ResultIsTool(m: Message, c: ToolCall)
    requires ResultFor(m, c)
    ensures m.role.ToolRole? && m.calls == []
  {
  }

  lemma {:induction false} OneItem(item: Item, rest: seq<Item>)
    requires item.FunctionOutput?
    ensures ItemTraffic([item] + rest) == [Answered(item.callId)] + ItemTraffic(rest)
  {
    assert ([item] + rest)[1..] == rest;
  }

  // ------------------------------------------------------- encoding a conversation

  lemma {:induction false} EncodableSkips(ms: seq<Message>, calls: seq<ToolCall>, table: CallIds, key: string -> InvocationId)
    requires Answers(ms, calls) && EncodableFrom(ms, table, key)
    ensures |calls| <= |ms| && EncodableFrom(ms[|calls|..], table, key)
    decreases |calls|
  {
    hide Fits, ResultFor, Answers, ResolveCallId;
    if calls == [] {
      assert ms[|calls|..] == ms;
    } else {
      AnswersHead(ms, calls);
      ResultIsTool(ms[0], calls[0]);
      EncodableSkips(ms[1..], calls[1..], table, key);
      assert ms[1..][|calls| - 1..] == ms[|calls|..];
    }
  }

  lemma {:induction false} ExpectedItemsSkip(ms: seq<Message>, calls: seq<ToolCall>)
    requires Answers(ms, calls)
    ensures |calls| <= |ms| && ExpectedItems(ms) == ExpectedItems(ms[|calls|..])
    decreases |calls|
  {
    hide ResultFor, Answers, CallItems, OutputItems, WireIds;
    NoCallItems();
    if calls == [] {
      AnswersLength(ms, calls);
      assert ms[|calls|..] == ms;
    } else {
      AnswersHead(ms, calls);
      ResultIsTool(ms[0], calls[0]);
      ExpectedItemsSkip(ms[1..], calls[1..]);
      assert ms[1..][|calls| - 1..] == ms[|calls|..];
      assert forall x: seq<Trace> :: [] + x == x;
    }
  }

  /** Each result is sent under its call's id, in order, and persisted turns keep their own pairs. */
  lemma {:induction false} ResponsesPairsIds(ms: seq<Message>, leading: bool, ids: CallIds, key: string -> InvocationId)
    requires WellPaired(ms) && EncodableFrom(ms, ids, key)
    ensures ItemTraffic(ResponsesInput(ms, leading, ids, key)) == ExpectedItems(ms)
    decreases |ms|
  {
    hide Trim, ItemTraffic, MessageItems, Answers, IsInstruction, CallItems, OutputItems, WireIds, Fits, OwnPairs;
    if ms == [] {
      ItemTrafficNone([]);
    } else {
      var calls, rest := ms[0].calls, ExpectedItems(ms[1..]);
      NoCallItems();
      assert forall x: seq<Trace> :: [] + x == x;
      if leading && IsInstruction(ms[0]) {
        InstructionRole(ms[0]);
        InstructionIsPlain(ms[0], ids, key);
        ResponsesPairsIds(ms[1..], leading, ids, key);
      } else {
        var (items, ids') := MessageItems(ms[0], ids, key);
        FitTraffic(ms[0], ids, key);
        ItemTrafficAppend(items, ResponsesInput(ms[1..], false, ids', key));
        if ms[0].role.Assistant? {
          RestOfTurn(ms, ids, key);
          ResponsesPairsIds(ms[1 + |calls|..], false, ids', key);
        } else {
          ResponsesPairsIds(ms[1..], false, ids', key);
        }
        Regroup(OwnPairs(ms[0]), CallItems(WireIds(calls)), OutputItems(WireIds(calls)) + rest);
      }
    }
  }

  lemma Regroup(a: seq<Trace>, b: seq<Trace>, c: seq<Trace>)
    ensures (a + b) + c == a + (b + c)
  {
  }

  /** After the assistant message of a turn: its results, then the rest of the conversation. */
  lemma {:induction false} RestOfTurn(ms: seq<Message>, ids: CallIds, key: string -> InvocationId)
    requires ms != [] && ms[0].role.Assistant? && Answers(ms[1..], ms[0].calls) && EncodableFrom(ms, ids, key)
    ensures var n, table := |ms[0].calls|, MessageItems(ms[0], ids, key).1;
            && 1 + n <= |ms|
            && ItemTraffic(ResponsesInput(ms[1..], false, table, key))
               == OutputItems(WireIds(ms[0].calls)) + ItemTraffic(ResponsesInput(ms[1 + n..], false, table, key))
            && ExpectedItems(ms[1..]) == ExpectedItems(ms[1 + n..])
            && EncodableFrom(ms[1 + n..], table, key)
  {
    hide Trim, ItemTraffic, MessageItems, Answers, CallItems, OutputItems, WireIds, ReplayFits, ExpectedItems, ResponsesInput,
      ResolvesIn, ResolvedItems;
    var n, table := |ms[0].calls|, MessageItems(ms[0], ids, key).1;
    AnswersLength(ms[1..], ms[0].calls);
    ResponsesResults(ms[1..], ms[0].calls, table, key);
    ResolvedIff(ms[1..], ms[0].calls, table);
    ExpectedItemsSkip(ms[1..], ms[0].calls);
    EncodableSkips(ms[1..], ms[0].calls, table, key);
    assert ms[1..][n..] == ms[1 + n..];
  }

  lemma InstructionRole(m: Message)
    requires IsInstruction(m)
    ensures m.role.System?
  {
  }

  /** A leading instruction sends nothing and leaves the table alone. */
  lemma InstructionIsPlain(m: Message, ids: CallIds, key: string -> InvocationId)
    requires IsInstruction(m) && m.calls == [] && Fits(m, ids, key)
    ensures m.role.System? && OwnPairs(m) == [] && MessageItems(m, ids, key).1 == ids
  {
    hide Trim, ItemTraffic, RecordIds;
    NoCallItems();
    NothingRecorded(Replayed(m), ids, key);
  }

  // ------------------------------------------ messages that fit whatever came before

  /** The replay fits, and each call is named by the provider or, in a rebuilt turn, resolvable. */
  ghost predicate EncodableMessage(m: Message) {
    && ReplayFits(m)
    && forall i :: 0 <= i < |m.calls| ==> NativeId(m.calls[i]).Some? || (!CoversTurn(m) && Resolvable(m.calls, m.calls[i]))
  }

  ghost predicate Encodable(ms: seq<Message>) {
    forall i :: 0 <= i < |ms| && !ms[i].role.ToolRole? ==> EncodableMessage(ms[i])
  }

  lemma AlwaysFits(m: Message, ids: CallIds, key: string -> InvocationId)
    requires !m.role.ToolRole? && EncodableMessage(m)
    ensures Fits(m, ids, key)
  {
    hide Trim, ReplayFits, InsertCalls, Resolvable, NativeId, RecordIds;
    var table := MessageItems(m, ids, key).1;
    forall i | 0 <= i < |m.calls| ensures ResolvesIn(table, m.calls[i]) {
      if NativeId(m.calls[i]).None? { ResolvableIff(m.calls, i, RecordIds(Replayed(m), ids, key)); }
    }
  }

  lemma {:induction false} EncodableAnywhere(ms: seq<Message>, ids: CallIds, key: string -> InvocationId)
    requires Encodable(ms)
    ensures EncodableFrom(ms, ids, key)
    decreases |ms|
  {
    hide Fits, EncodableMessage, MessageItems;
    if ms != [] {
      if !ms[0].role.ToolRole? { AlwaysFits(ms[0], ids, key); }
      EncodableAnywhere(ms[1..], MessageItems(ms[0], ids, key).1, key);
    }
  }

  lemma {:induction false} EncodableAppend(a: seq<Message>, b: seq<Message>, ids: CallIds, key: string -> InvocationId)
    requires EncodableFrom(a, ids, key) && Encodable(b)
    ensures EncodableFrom(a + b, ids, key)
    decreases |a|
  {
    hide Fits, Encodable, MessageItems;
    if a == [] {
      assert a + b == b;
      EncodableAnywhere(b, ids, key);
    } else {
      EncodableAppend(a[1..], b, MessageItems(a[0], ids, key).1, key);
      assert (a + b)[0] == a[0] && (a + b)[1..] == a[1..] + b;
    }
  }

  lemma {:induction false} ExpectedHead(ms: seq<Message>)
    requires ms != []
    ensures Expected(ms) == CallItems(WireIds(ms[0].calls)) + (OutputItems(WireIds(ms[0].calls)) + Expected(ms[1..]))
  {
    hide CallItems, OutputItems, WireIds;
    NoCallItems();
    var c, o, e := CallItems(WireIds(ms[0].calls)), OutputItems(WireIds(ms[0].calls)), Expected(ms[1..]);
    assert c + (o + e) == (c + o) + e && [] + e == e;
  }
}
