/**
 Finished turns of the two stream assemblers, and what the runtime may rely on:
 they carry calls only with the tool-call terminal and can be sent back on either wire.
 */
module Turns {
  import opened Wrappers
  import opened Texts
  import opened Conversation
  import opened Assembler
  import opened ModelLoop
  import opened Transcript
  import opened Dialogue

  function AsToolCall(c: FinishedCall): ToolCall { ToolCall(c.id, c.name, c.arguments, c.providerCallId) }

  function AsToolCalls(calls: seq<FinishedCall>): seq<ToolCall> {
    seq(|calls|, i requires 0 <= i < |calls| => AsToolCall(calls[i]))
  }

  /** The output items of a response, by type. */
  datatype OutputItem = ReasoningItem | SearchItem | CallItem(callId: string, name: string, arguments: string) | MessageItem(text: string) | UnknownItem

  /** Only reasoning and search items are kept for replay. */
  predicate Kept(i: OutputItem) { i.ReasoningItem? || i.SearchItem? }

  /** The item as it is sent again. */
  function Replay(i: OutputItem): Item {
    match i
    case CallItem(id, name, arguments) => FunctionCall(id, name, arguments)
    case MessageItem(text) => Said(Assistant, OneText(text))
    case _ => OtherItem
  }

  function KeptItems(items: seq<OutputItem>): (r: seq<Item>)
    ensures forall i :: 0 <= i < |r| ==> r[i].OtherItem?
  {
    if items == [] then [] else (if Kept(items[0]) then [Replay(items[0])] else []) + KeptItems(items[1..])
  }

  function Replayable(items: seq<OutputItem>): nat {
    if items == [] then 0 else (match items[0] case ReasoningItem => 1 case SearchItem => 1 case _ => 0) + Replayable(items[1..])
  }

  /** Every reasoning and search item is kept. */
  lemma {:induction false} AllAreKept(items: seq<OutputItem>)
    ensures |KeptItems(items)| == Replayable(items)
  {
    if items != [] { AllAreKept(items[1..]); }
  }

  /**
   A Responses turn.  `done` are the items completed in the stream or listed by its
   final snapshot, `output` the final snapshot itself, which is filtered on replay.
   */
  function ResponsesTurn(text: string, reasoning: string, calls: seq<FinishedCall>, done: seq<OutputItem>, output: seq<OutputItem>): Turn {
    var replay := KeptItems(done);
    Turn(text, reasoning, AsToolCalls(calls), ResponsesTerminal(AsToolCalls(calls)),
         TurnState(if replay != [] then replay else KeptItems(output), false, ""), replay != [], "")
  }

  /** A chat turn; `toolReason` is the provider's own finish reason. */
  function ChatTurn(text: string, reasoning: string, calls: seq<FinishedCall>, toolReason: bool): Turn {
    Turn(text, reasoning, AsToolCalls(calls), ChatTerminal(AsToolCalls(calls), toolReason),
         TurnState([], false, reasoning), false, "")
  }

  /**
   A family's rewrite of an assembled turn.  Think tags move text to the reasoning;
   a hidden summary is cut out of the text, and if nothing else was said the turn
   asks to continue.  Neither changes the calls or what is kept for replay.
   */
  datatype Rewrite = NoRewrite | ThinkTags(text: string, reasoning: string) | CutSummary(visible: string, summary: Option<string>)

  function ApplyRewrite(u: Turn, w: Rewrite): Turn {
    match w
    case NoRewrite => u
    case ThinkTags(text, reasoning) => u.(text := text, reasoning := reasoning)
    case CutSummary(visible, summary) =>
      u.(text := visible,
         hidden := if summary.Some? then summary.value else u.hidden,
         terminal := if summary.Some? && Trim(visible) == "" && u.calls == [] then Continue(SummaryOnly) else u.terminal)
  }

  /** What an assembled turn holds: its own words and calls, and what is kept for replay. */
  lemma {:induction false} AssembledTurns(text: string, reasoning: string, calls: seq<FinishedCall>, done: seq<OutputItem>, output: seq<OutputItem>, toolReason: bool)
    ensures var t := ResponsesTurn(text, reasoning, calls, done, output);
            && t.text == text && t.reasoning == reasoning && t.calls == AsToolCalls(calls) && t.hidden == ""
            && (t.replays <==> Replayable(done) > 0)
            && t.state.items == (if Replayable(done) > 0 then KeptItems(done) else KeptItems(output))
            && (t.terminal.ToolCalls? <==> calls != []) && (t.terminal.Stop? <==> calls == [])
    ensures var t := ChatTurn(text, reasoning, calls, toolReason);
            && t.text == text && t.reasoning == reasoning && t.calls == AsToolCalls(calls) && t.hidden == ""
            && !t.replays && t.state.items == [] && t.state.reasoning == reasoning
            && (t.terminal.ToolCalls? <==> calls != [] || toolReason) && (t.terminal.Stop? <==> calls == [] && !toolReason)
  {
    AllAreKept(done);
  }

  /** A turn of either assembler whose calls passed the tool checks, after the family's and the continuation rewrite. */
  ghost predicate FinishedTurn(t: Turn, isObject: string -> bool) {
    exists u: Turn, w: Rewrite, endTurn: bool, promised: bool ::
      t == ApplyTurnContinuation(ApplyRewrite(u, w), endTurn, promised) && (FinishedResponses(u, isObject) || FinishedChat(u, isObject))
  }

  ghost predicate FinishedResponses(u: Turn, isObject: string -> bool) {
    exists calls, done, output ::
      ValidTurnCalls(calls, isObject) && u == ResponsesTurn(u.text, u.reasoning, calls, done, output)
  }

  ghost predicate FinishedChat(u: Turn, isObject: string -> bool) {
    exists calls, toolReason ::
      ValidTurnCalls(calls, isObject) && u == ChatTurn(u.text, u.reasoning, calls, toolReason)
  }

  /** Validated calls are named by the provider. */
  lemma ValidatedCallsAreNamed(calls: seq<FinishedCall>, isObject: string -> bool)
    requires ValidTurnCalls(calls, isObject)
    ensures forall i :: 0 <= i < |AsToolCalls(calls)| ==> NativeId(AsToolCalls(calls)[i]).Some?
  {
    hide Trim;
    forall i | 0 <= i < |calls| ensures NativeId(AsToolCalls(calls)[i]).Some? {
      assert GoodFinished(calls[i], isObject);
    }
  }

  lemma NamedTurnIsEncodable(t: Turn)
    requires t.state.TurnState? && !t.state.covers && forall i :: 0 <= i < |t.state.items| ==> t.state.items[i].OtherItem?
    requires forall i :: 0 <= i < |t.calls| ==> NativeId(t.calls[i]).Some?
    ensures EncodableMessage(AssistantMessage(t)) && OwnPairs(AssistantMessage(t)) == []
  {
    hide NativeId;
    ItemTrafficNone(t.state.items);
  }

  /** Calls and what is replayed stay; a turn asks to continue when its summary was all it said. */
  lemma RewriteKeeps(u: Turn, w: Rewrite)
    ensures var v := ApplyRewrite(u, w);
            && v.calls == u.calls && v.state == u.state && v.replays == u.replays
            && (w.NoRewrite? ==> v == u)
            && (w.ThinkTags? ==> v == u.(text := w.text, reasoning := w.reasoning))
            && (w.CutSummary? ==>
                  && v.text == w.visible && v.reasoning == u.reasoning
                  && v.hidden == (if w.summary.Some? then w.summary.value else u.hidden)
                  && v.terminal == if w.summary.Some? && Blank(w.visible) && u.calls == [] then Continue(SummaryOnly) else u.terminal)
  {
    hide Trim, Blank;
    if w.CutSummary? { BlankIsTrimmedEmpty(w.visible); }
  }

  lemma ContinuationKeeps(u: Turn, endTurn: bool, promised: bool)
    ensures var t := ApplyTurnContinuation(u, endTurn, promised); t.calls == u.calls && t.state == u.state
  {
  }

  /** What the runtime relies on, for every turn either assembler finishes. */
  lemma FinishedTurnsAreSendable(t: Turn, isObject: string -> bool)
    requires FinishedTurn(t, isObject)
    ensures CallsWithTerminal(t) && SendableTurn(t, true)
  {
    hide EncodableMessage, OwnPairs, NativeId, ValidTurnCalls, AsToolCalls, ApplyRewrite, ApplyTurnContinuation, Trim, Harmless, CallsWithTerminal, KeptItems;
    var u: Turn, w: Rewrite, endTurn: bool, promised: bool :|
      t == ApplyTurnContinuation(ApplyRewrite(u, w), endTurn, promised) && (FinishedResponses(u, isObject) || FinishedChat(u, isObject));
    RewriteKeeps(u, w);
    ContinuationKeeps(ApplyRewrite(u, w), endTurn, promised);
    if FinishedResponses(u, isObject) {
      var calls, done, output :| ValidTurnCalls(calls, isObject) && u == ResponsesTurn(u.text, u.reasoning, calls, done, output);
      ValidatedCallsAreNamed(calls, isObject);
      TurnsMeetThePremise(ApplyRewrite(u, w), false, endTurn, promised);
    } else {
      var calls, toolReason :| ValidTurnCalls(calls, isObject) && u == ChatTurn(u.text, u.reasoning, calls, toolReason);
      ValidatedCallsAreNamed(calls, isObject);
      TurnsMeetThePremise(ApplyRewrite(u, w), toolReason, endTurn, promised);
    }
    NamedTurnIsEncodable(t);
  }

  /**
   A run whose provider answers with finished turns: from a well-paired, encodable
   history, every request says on both wires exactly the reference, each turn's call
   ids and then the same ids for its results.
   */
  lemma {:induction false} RunsSayTheSameOnBothWires(l: Limits, history: seq<Message>, answers: seq<Answer>, key: string -> InvocationId, isObject: string -> bool)
    requires WellPaired(history) && EncodableFrom(history, map[], key) && NoOwnPairs(history)
    requires forall i :: 0 <= i < |answers| && answers[i].reply.Some? ==> FinishedTurn(answers[i].reply.value, isObject)
    ensures forall i :: 0 <= i < |Drive(l, Start(l, history), answers).0| ==>
              var request := Drive(l, Start(l, history), answers).0[i];
              && ChatTraffic(ChatBody(request)) == Expected(request)
              && ItemTraffic(ResponsesInput(request, true, map[], key)) == Expected(request)
  {
    hide WellPaired, EncodableFrom, NoOwnPairs, FinishedTurn, SendableTurn, Drive, Expected, ExpectedItems, ChatTraffic,
      ItemTraffic, ResponsesInput, Paired;
    forall i | 0 <= i < |answers| && answers[i].reply.Some? ensures SendableTurn(answers[i].reply.value, true) {
      FinishedTurnsAreSendable(answers[i].reply.value, isObject);
    }
    RequestsStayOnTheWire(l, Start(l, history), answers, key, true);
  }

  lemma FinishedTurnsArePlain(t: Turn, isObject: string -> bool)
    requires FinishedTurn(t, isObject)
    ensures PlainTurn(t)
  {
    hide ValidTurnCalls, AsToolCalls, ApplyRewrite, ApplyTurnContinuation, Trim, KeptItems;
    var u: Turn, w: Rewrite, endTurn: bool, promised: bool :|
      t == ApplyTurnContinuation(ApplyRewrite(u, w), endTurn, promised) && (FinishedResponses(u, isObject) || FinishedChat(u, isObject));
    RewriteKeeps(u, w);
    ContinuationKeeps(ApplyRewrite(u, w), endTurn, promised);
  }

  /**
   From a plain history, every request of such a run says on both wires exactly what
   its conversation says: every text, every call with its name and arguments, every
   result and every prompt, in order.
   */
  lemma {:induction false} RunsSayTheSameWords(l: Limits, history: seq<Message>, answers: seq<Answer>, key: string -> InvocationId, isObject: string -> bool)
    requires PlainMessages(history)
    requires forall i :: 0 <= i < |answers| && answers[i].reply.Some? ==> FinishedTurn(answers[i].reply.value, isObject)
    ensures forall i :: 0 <= i < |Drive(l, Start(l, history), answers).0| ==>
              var request := Drive(l, Start(l, history), answers).0[i];
              && ChatSays(ChatBody(request)) == AllSaid(request)
              && InstructionsSay(Instructions(request)) + ItemsSay(ResponsesInput(request, true, map[], key)) == AllSaid(request)
  {
    hide PlainMessages, FinishedTurn, PlainTurn, Drive, ChatSays, AllSaid, ItemsSay, InstructionsSay, Instructions, ResponsesInput;
    forall i | 0 <= i < |answers| && answers[i].reply.Some? ensures PlainTurn(answers[i].reply.value) {
      FinishedTurnsArePlain(answers[i].reply.value, isObject);
    }
    RequestsArePlain(l, Start(l, history), answers);
    var requests := Drive(l, Start(l, history), answers).0;
    forall i | 0 <= i < |requests|
      ensures ChatSays(ChatBody(requests[i])) == AllSaid(requests[i])
      ensures InstructionsSay(Instructions(requests[i])) + ItemsSay(ResponsesInput(requests[i], true, map[], key)) == AllSaid(requests[i])
    {
      BothSayTheSame(requests[i], key);
    }
  }
}
