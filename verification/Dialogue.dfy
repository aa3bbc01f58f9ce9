/** What the model loop adds to a conversation: the turns' texts, their calls, the tools' results and the prompts. */
module Dialogue {
  import opened Texts
  import opened Conversation
  import opened ModelLoop
  import opened Transcript

  /** What a message holds besides its addressing. */
  datatype Entry = Entry(content: seq<Part>, calls: seq<ToolCall>, state: ProviderState)

  /** What the messages of one role hold, in order; the state of a result is its address. */
  function Told(ms: seq<Message>, role: Role): seq<Entry> {
    if ms == [] then [] else ToldBy(ms[0], role) + Told(ms[1..], role)
  }

  function ToldBy(m: Message, role: Role): seq<Entry> {
    if m.role == role then [Entry(m.content, m.calls, if role.ToolRole? then NoState else m.state)] else []
  }

  /** Whether the loop keeps a turn's message: a hidden summary and an empty turn leave none. */
  predicate Kept(t: Turn) {
    match t.terminal
    case Continue(Incomplete) => true
    case Continue(SummaryOnly) => false
    case Continue(ProviderRequested) => !Blank(t.text) || t.replays
    case _ => (t.terminal.ToolCalls? && t.calls != []) || t.text != "" || t.reasoning != "" || t.state != NoState
  }

  function Content(text: string): seq<Part> { if text == "" then [] else [Text(text)] }

  /** What an answer adds for each role. */
  function Added(a: Answer, role: Role): seq<Entry> {
    if a.reply.None? then []
    else
      var t := a.reply.value;
      match role
      case User => []
      case Assistant => if Kept(t) then [Entry(Content(t.text), t.calls, t.state)] else []
      case System =>
        if !t.terminal.Continue? then []
        else if t.terminal.reason.Incomplete? then [Entry([Text(PROMISED)], [], NoState)]
        else if t.terminal.reason.SummaryOnly? then [Entry([Text(SUMMARIZED + Trim(t.hidden))], [], NoState)]
        else if Kept(t) then [] else [Entry([Text(CONTINUE)], [], NoState)]
      case ToolRole => if t.terminal.ToolCalls? then Given(a, |t.calls|) else []
  }

  /** The results of the first `n` calls. */
  function Given(a: Answer, n: nat): seq<Entry> {
    if n == 0 then []
    else Given(a, n - 1) + (if ResultAt(a, n - 1).Some? then [Entry(ResultAt(a, n - 1).value, [], NoState)] else [])
  }

  function AllAdded(answers: seq<Answer>, role: Role): seq<Entry> {
    if answers == [] then [] else Added(answers[0], role) + AllAdded(answers[1..], role)
  }

  // ------------------------------------------------------------- what a turn appends

  /** The messages an iteration appends. */
  function Extra(a: Answer): seq<Message>
    requires a.reply.Some? && forall i :: 0 <= i < |a.reply.value.calls| && a.reply.value.terminal.ToolCalls? ==> ResultAt(a, i).Some?
  {
    var t := a.reply.value;
    if t.terminal.Continue? then ContinuationMessages(t, t.terminal.reason)
    else if t.calls == [] || !t.terminal.ToolCalls? then CompleteWithoutTools([], t)
    else [AssistantMessage(t)] + ResultMessages(t.calls, a)
  }

  lemma HandleAppends(l: Limits, s: LoopState, a: Answer)
    requires a.reply.Some?
    ensures var i := HandleTurn(l, s, a);
            && (i.Next? || i.outcome.Ok? ==>
                  forall k :: 0 <= k < |a.reply.value.calls| && a.reply.value.terminal.ToolCalls? ==> ResultAt(a, k).Some?)
            && (i.Next? ==> i.state.messages == s.messages + Extra(a))
            && (i.Finish? && i.outcome.Ok? ==> i.outcome.value == s.messages + Extra(a))
  {
    hide ContinuationMessages, AssistantMessage, ToolMessage, Trim;
    var t := a.reply.value;
    assert s.messages + [] == s.messages;
    if t.terminal.ToolCalls? && t.calls != [] && HandleTurn(l, s, a).Next? {
      assert s.messages + [AssistantMessage(t)] + ResultMessages(t.calls, a) == s.messages + ([AssistantMessage(t)] + ResultMessages(t.calls, a));
    }
  }

  lemma {:induction false} ToldAppend(a: seq<Message>, b: seq<Message>, role: Role)
    ensures Told(a + b, role) == Told(a, role) + Told(b, role)
    decreases |a|
  {
    hide ToldBy;
    if a == [] {
      assert a + b == b;
    } else {
      assert (a + b)[1..] == a[1..] + b;
      ToldAppend(a[1..], b, role);
    }
  }

  lemma {:induction false} OneTold(m: Message, role: Role)
    ensures Told([m], role) == ToldBy(m, role)
  {
    assert [m][1..] == [];
  }

  lemma {:induction false} ResultsTold(calls: seq<ToolCall>, a: Answer, role: Role)
    requires forall i :: 0 <= i < |calls| ==> ResultAt(a, i).Some?
    ensures Told(ResultMessages(calls, a), role) == if role.ToolRole? then Given(a, |calls|) else []
    decreases |calls|
  {
    hide NativeId, ResultAt;
    if calls != [] {
      var n := |calls| - 1;
      ResultsTold(calls[..n], a, role);
      assert ResultMessages(calls, a) == ResultMessages(calls[..n], a) + [ToolMessage(calls[n], ResultAt(a, n).value)];
      ToldAppend(ResultMessages(calls[..n], a), [ToolMessage(calls[n], ResultAt(a, n).value)], role);
      OneTold(ToolMessage(calls[n], ResultAt(a, n).value), role);
    }
  }

  lemma {:induction false} ExtraTold(a: Answer, role: Role)
    requires a.reply.Some? && forall i :: 0 <= i < |a.reply.value.calls| && a.reply.value.terminal.ToolCalls? ==> ResultAt(a, i).Some?
    ensures Told(Extra(a), role) == Added(a, role)
  {
    hide Trim, Told, Given, ResultMessages, Blank, ContinuationMessages;
    var t := a.reply.value;
    var m := AssistantMessage(t);
    NothingTold(role);
    OneTold(m, role);
    if t.terminal.Continue? {
      ContinuationTold(a, role);
    } else if t.terminal.ToolCalls? {
      NothingGiven(a);
      if t.calls == [] {
        assert [] + [m] == [m];
      } else {
        ResultsTold(t.calls, a, role);
        ToldAppend([m], ResultMessages(t.calls, a), role);
      }
    } else {
      assert [] + [m] == [m];
    }
  }

  lemma {:induction false} ContinuationTold(a: Answer, role: Role)
    requires a.reply.Some? && a.reply.value.terminal.Continue?
    ensures Told(Extra(a), role) == Added(a, role)
  {
    hide Trim, Told;
    var t := a.reply.value;
    var m, prompt := AssistantMessage(t), Prompt(PromptText(t, t.terminal.reason));
    BlankIsTrimmedEmpty(t.text);
    OneTold(m, role);
    OneTold(prompt, role);
    ToldAppend([m], [prompt], role);
    assert [m] + [prompt] == [m, prompt];
  }

  lemma {:induction false} NothingTold(role: Role)
    ensures Told([], role) == []
  {
  }

  lemma {:induction false} NothingGiven(a: Answer)
    ensures Given(a, 0) == []
  {
  }

  /**
   In every request of every run, and in its successful outcome, each role has said
   exactly what the history says and what the answers so far added: the texts, calls
   and states of the turns that are kept, the results the tools gave, and the prompts.
   */
  lemma {:induction false} ConversationIsTold(l: Limits, s: LoopState, answers: seq<Answer>, role: Role)
    ensures var (requests, outcome) := Drive(l, s, answers);
            && |requests| <= |answers|
            && (forall i :: 0 <= i < |requests| ==> Told(requests[i], role) == SoFar(s, answers, i, role))
            && (outcome.Some? && outcome.value.Ok? ==> Told(outcome.value.value, role) == SoFar(s, answers, |requests|, role))
    decreases |answers|
  {
    hide Iterate, Told, Added, SoFar;
    if answers != [] {
      var i := Iterate(l, s, answers[0]);
      IterateTold(l, s, answers[0], role);
      NothingSoFar(s, answers, role);
      if i.Next? {
        ConversationIsTold(l, i.state, answers[1..], role);
        forall k: nat | k < |answers| ensures SoFar(i.state, answers[1..], k, role) == SoFar(s, answers, k + 1, role) {
          OneMoreSoFar(s, i.state, answers, k, role);
        }
      } else if i.outcome.Ok? {
        OnceSoFar(s, answers, role);
      }
    }
  }

  /** What a role has said after the first `n` answers. */
  function SoFar(s: LoopState, answers: seq<Answer>, n: nat, role: Role): seq<Entry>
    requires n <= |answers|
  {
    Told(s.messages, role) + AllAdded(answers[..n], role)
  }

  lemma {:induction false} NothingSoFar(s: LoopState, answers: seq<Answer>, role: Role)
    ensures SoFar(s, answers, 0, role) == Told(s.messages, role)
  {
    assert answers[..0] == [];
  }

  lemma {:induction false} OnceSoFar(s: LoopState, answers: seq<Answer>, role: Role)
    requires answers != []
    ensures SoFar(s, answers, 1, role) == Told(s.messages, role) + Added(answers[0], role)
  {
    hide Added, Told;
    var first := answers[..1];
    AllAddedCons(first, role);
    assert first[0] == answers[0] && first[1..] == [] && AllAdded([], role) == [];
    assert Added(answers[0], role) + [] == Added(answers[0], role);
  }

  lemma {:induction false} OneMoreSoFar(s: LoopState, t: LoopState, answers: seq<Answer>, k: nat, role: Role)
    requires k < |answers| && Told(t.messages, role) == Told(s.messages, role) + Added(answers[0], role)
    ensures SoFar(t, answers[1..], k, role) == SoFar(s, answers, k + 1, role)
  {
    hide Added, Told, AllAdded;
    var first, rest := answers[..k + 1], answers[1..][..k];
    assert first[1..] == rest && first[0] == answers[0];
    AllAddedCons(first, role);
    Associate(Told(s.messages, role), Added(answers[0], role), AllAdded(rest, role));
  }

  lemma {:induction false} AllAddedCons(answers: seq<Answer>, role: Role)
    requires answers != []
    ensures AllAdded(answers, role) == Added(answers[0], role) + AllAdded(answers[1..], role)
  {
    hide Added;
  }

  lemma Associate(a: seq<Entry>, b: seq<Entry>, c: seq<Entry>)
    ensures (a + b) + c == a + (b + c)
  {
  }

  lemma {:induction false} IterateTold(l: Limits, s: LoopState, a: Answer, role: Role)
    ensures var i := Iterate(l, s, a);
            && (i.Next? ==> Told(i.state.messages, role) == Told(s.messages, role) + Added(a, role))
            && (i.Finish? && i.outcome.Ok? ==> i.asked && Told(i.outcome.value, role) == Told(s.messages, role) + Added(a, role))
  {
    hide HandleTurn, Told, Added, Extra;
    var s' := s.(rounds := Saturate(s.rounds));
    if a.reply.Some? {
      HandleAppends(l, s', a);
      var i := HandleTurn(l, s', a);
      if i.Next? || i.outcome.Ok? {
        ExtraTold(a, role);
        ToldAppend(s.messages, Extra(a), role);
      }
      HandleAsks(l, s', a);
    }
  }

  lemma HandleAsks(l: Limits, s: LoopState, a: Answer)
    requires a.reply.Some?
    ensures HandleTurn(l, s, a).Finish? ==> HandleTurn(l, s, a).asked
  {
    hide ContinuationMessages, CompleteWithoutTools, AssistantMessage, ResultMessages;
  }

  // -------------------------------------------------------------- plain conversations

  /** The state of the turn holds nothing that speaks for itself. */
  ghost predicate PlainTurn(t: Turn) {
    t.state.TurnState? ==> !t.state.covers && forall i :: 0 <= i < |t.state.items| ==> t.state.items[i].OtherItem?
  }

  lemma {:induction false} ExtraIsPlain(a: Answer)
    requires a.reply.Some? && forall i :: 0 <= i < |a.reply.value.calls| && a.reply.value.terminal.ToolCalls? ==> ResultAt(a, i).Some?
    requires PlainTurn(a.reply.value)
    ensures PlainMessages(Extra(a))
  {
    hide Trim, ResultAt, NativeId;
    assert PlainMessage(AssistantMessage(a.reply.value));
  }

  /** From a plain history, plain turns make plain requests. */
  lemma {:induction false} RequestsArePlain(l: Limits, s: LoopState, answers: seq<Answer>)
    requires PlainMessages(s.messages)
    requires forall i :: 0 <= i < |answers| && answers[i].reply.Some? ==> PlainTurn(answers[i].reply.value)
    ensures forall i :: 0 <= i < |Drive(l, s, answers).0| ==> PlainMessages(Drive(l, s, answers).0[i])
    decreases |answers|
  {
    hide HandleTurn, PlainTurn, PlainMessage, Extra;
    if answers != [] {
      var a := answers[0];
      var s' := s.(rounds := Saturate(s.rounds));
      if a.reply.Some? { HandleAppends(l, s', a); }
      var i := Iterate(l, s, a);
      if i.Next? {
        ExtraIsPlain(a);
        RequestsArePlain(l, i.state, answers[1..]);
      }
    }
  }
}
