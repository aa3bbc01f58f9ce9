/**
 The model/tool loop as one sequential conversation: its budgets, its continuation
 slots and the messages it sends.  Interleavings with the host are the subject of
 the run protocol; here a run is a list of answers of any length.
 */
module ModelLoop {
  import opened Wrappers
  import opened Texts
  import opened Conversation

  const U32_MAX: nat := 0xFFFF_FFFF

  /** `U32_MAX` means no limit on that side. */
  datatype Limits = Limits(rounds: nat, tools: nat)

  predicate IsUnlimited(l: Limits) { l.rounds == U32_MAX && l.tools == U32_MAX }

  datatype Reason = Incomplete | ProviderRequested | SummaryOnly

  function DefaultLimit(r: Reason): nat {
    match r case Incomplete => 2 case SummaryOnly => 1 case ProviderRequested => 4
  }

  datatype Terminal = Stop | ToolCalls | Continue(reason: Reason) | TurnCancelled | TurnError

  /**
   `state` is the opaque state, `NoState` when it is null, `replays` whether it holds
   replay items, and `hidden` the summary it holds, empty when there is none.
   */
  datatype Turn = Turn(text: string, reasoning: string, calls: seq<ToolCall>, terminal: Terminal, state: ProviderState,
                       replays: bool, hidden: string)

  /** What both assemblers establish: calls come only with the tool-call terminal. */
  predicate CallsWithTerminal(t: Turn) { t.calls != [] ==> t.terminal.ToolCalls? }

  /** The loop appends the turn's assistant message and no results after it. */
  predicate AppendsUnanswered(t: Turn) {
    match t.terminal
    case Continue(Incomplete) => true
    case Continue(SummaryOnly) => false
    case Continue(ProviderRequested) => Trim(t.text) != "" || t.replays
    case ToolCalls => false
    case _ => t.text != "" || t.reasoning != "" || t.state != NoState
  }

  /** The turn has no calls, or they are answered, or its message is not appended. */
  predicate Harmless(t: Turn) { t.calls == [] || !AppendsUnanswered(t) }

  predicate Premise(answers: seq<Answer>) {
    forall i :: 0 <= i < |answers| && answers[i].reply.Some? ==> Harmless(answers[i].reply.value)
  }

  /**
   What happens in one round outside the loop: cancellation, the clock, the
   provider's answer (`None` for an error), tool lookup, the tools' results, where a
   missing result is a failed call, and the calls that find the time used up.
   */
  datatype Answer = Answer(cancelled: bool, overtime: bool, reply: Option<Turn>, unregistered: bool,
                           results: seq<Option<seq<Part>>>, late: set<nat>)

  function ResultAt(a: Answer, i: nat): Option<seq<Part>> {
    if i < |a.results| then a.results[i] else None
  }

  // ------------------------------------------------------------------- the budget

  function Saturate(n: nat): nat { if n + 1 <= U32_MAX then n + 1 else U32_MAX }

  predicate Spent(used: nat, limit: nat) { limit != U32_MAX && used >= limit }

  class AgentLoopBudget {
    const limits: Limits
    var modelRounds: nat
    var toolInvocations: nat

    constructor (limits: Limits)
      ensures this.limits == limits && modelRounds == 0 && toolInvocations == 0
    {
      this.limits, modelRounds, toolInvocations := limits, 0, 0;
    }

    method ConsumeModelRound(overtime: bool) returns (ok: bool)
      modifies this`modelRounds
      ensures ok <==> !Spent(old(modelRounds), limits.rounds) && !overtime
      ensures modelRounds == if Spent(old(modelRounds), limits.rounds) then old(modelRounds) else Saturate(old(modelRounds))
    {
      if limits.rounds != U32_MAX && modelRounds >= limits.rounds { return false; }
      modelRounds := Saturate(modelRounds);
      return !overtime;
    }

    method ConsumeToolInvocation(overtime: bool) returns (ok: bool)
      modifies this`toolInvocations
      ensures ok <==> !Spent(old(toolInvocations), limits.tools) && !overtime
      ensures toolInvocations == if Spent(old(toolInvocations), limits.tools) then old(toolInvocations) else Saturate(old(toolInvocations))
    {
      if limits.tools != U32_MAX && toolInvocations >= limits.tools { return false; }
      toolInvocations := Saturate(toolInvocations);
      return !overtime;
    }
  }

  // ------------------------------------------------------------ continuation slots

  datatype Slots = Slots(unlimited: bool, incomplete: nat, summary: nat, requested: nat)

  function Used(s: Slots, r: Reason): nat {
    match r case Incomplete => s.incomplete case SummaryOnly => s.summary case ProviderRequested => s.requested
  }

  function Bump(s: Slots, r: Reason): Slots {
    match r
    case Incomplete => s.(incomplete := s.incomplete + 1)
    case SummaryOnly => s.(summary := s.summary + 1)
    case ProviderRequested => s.(requested := s.requested + 1)
  }

  predicate MayContinue(s: Slots, r: Reason) { s.unlimited || Used(s, r) < DefaultLimit(r) }

  class ContinuationCounts {
    var slots: Slots

    constructor (limits: Limits)
      ensures slots == Slots(IsUnlimited(limits), 0, 0, 0)
    {
      slots := Slots(IsUnlimited(limits), 0, 0, 0);
    }

    method TryBegin(r: Reason) returns (ok: bool)
      modifies this
      ensures ok <==> MayContinue(old(slots), r)
      ensures slots == if ok && !old(slots).unlimited then Bump(old(slots), r) else old(slots)
    {
      if slots.unlimited { return true; }
      if Used(slots, r) >= DefaultLimit(r) { return false; }
      slots := Bump(slots, r);
      return true;
    }

    method ResetIncomplete()
      modifies this
      ensures slots == old(slots).(incomplete := 0)
    {
      slots := slots.(incomplete := 0);
    }
  }

  // ----------------------------------------------------------------- its messages

  function AssistantMessage(t: Turn): Message {
    Message(Assistant, if t.text == "" then [] else [Text(t.text)], t.calls, None, t.state)
  }

  function Prompt(text: string): Message {
    Message(System, [Text(text)], [], None, NoState)
  }

  const PROMISED: string :=
    "The previous assistant message promised or prepared to inspect, search, read, run, verify, or edit, but it did not include a tool call. Continue the same user request now by calling the necessary tool or tools. Do not restate intent and do not give a final answer until the required tool work is actually complete."

  const SUMMARIZED: string :=
    "The previous response contained only an internal summary, not a user-facing answer. Treat the following summary as hidden context and continue the same user request by giving a concise final answer. Do not include internal recap sections in the user-visible answer.\n\nHidden summary:\n"

  const CONTINUE: string := "Continue the same turn; the previous response was not terminal."

  function PromptText(t: Turn, r: Reason): string {
    match r
    case Incomplete => PROMISED
    case SummaryOnly => SUMMARIZED + Trim(t.hidden)
    case ProviderRequested => CONTINUE
  }

  function ContinuationMessages(t: Turn, r: Reason): seq<Message> {
    match r
    case Incomplete => [AssistantMessage(t), Prompt(PromptText(t, r))]
    case SummaryOnly => [Prompt(PromptText(t, r))]
    case ProviderRequested => if Trim(t.text) != "" || t.replays then [AssistantMessage(t)] else [Prompt(PromptText(t, r))]
  }

  function CompleteWithoutTools(ms: seq<Message>, t: Turn): seq<Message> {
    if t.text != "" || t.reasoning != "" || t.state != NoState then ms + [AssistantMessage(t)] else ms
  }

  function ResultMessages(calls: seq<ToolCall>, a: Answer): seq<Message>
    requires forall i :: 0 <= i < |calls| ==> ResultAt(a, i).Some?
  {
    seq(|calls|, i requires 0 <= i < |calls| => ToolMessage(calls[i], ResultAt(a, i).value))
  }

  // ------------------------------------------------------------------ one iteration

  datatype LoopState = LoopState(messages: seq<Message>, slots: Slots, rounds: nat, tools: nat)

  function Start(l: Limits, history: seq<Message>): LoopState {
    LoopState(history, Slots(IsUnlimited(l), 0, 0, 0), 0, 0)
  }

  /** `asked` says whether the provider was called. */
  datatype Iteration = Next(state: LoopState) | Finish(asked: bool, outcome: Result<seq<Message>, ()>)

  function SaturateBy(n: nat, k: nat): nat { if n + k <= U32_MAX then n + k else U32_MAX }

  /** All calls of a batch are granted, in time, and give a result. */
  predicate BatchSucceeds(l: Limits, used: nat, calls: seq<ToolCall>, a: Answer) {
    && (l.tools == U32_MAX || used + |calls| <= l.tools)
    && forall i :: 0 <= i < |calls| ==> i !in a.late && ResultAt(a, i).Some?
  }

  /** What a turn leads to, once the round was granted and the provider answered. */
  function HandleTurn(l: Limits, s: LoopState, a: Answer): Iteration
    requires a.reply.Some?
  {
    var t := a.reply.value;
    if t.terminal.Continue? then
      var r := t.terminal.reason;
      if !MayContinue(s.slots, r) then Finish(true, Err(()))
      else Next(s.(messages := s.messages + ContinuationMessages(t, r), slots := if s.slots.unlimited then s.slots else Bump(s.slots, r)))
    else if t.calls == [] || !t.terminal.ToolCalls? then Finish(true, Ok(CompleteWithoutTools(s.messages, t)))
    else if a.unregistered || !BatchSucceeds(l, s.tools, t.calls, a) then Finish(true, Err(()))
    else Next(s.(messages := s.messages + [AssistantMessage(t)] + ResultMessages(t.calls, a),
                 slots := s.slots.(incomplete := 0), tools := SaturateBy(s.tools, |t.calls|)))
  }

  function Iterate(l: Limits, s: LoopState, a: Answer): Iteration {
    if a.cancelled || Spent(s.rounds, l.rounds) || a.overtime then Finish(false, Err(()))
    else if a.reply.None? then Finish(true, Err(()))
    else HandleTurn(l, s.(rounds := Saturate(s.rounds)), a)
  }

  /** The requests sent for a list of answers, and the outcome unless the run outlives the list. */
  function Drive(l: Limits, s: LoopState, answers: seq<Answer>): (seq<seq<Message>>, Option<Result<seq<Message>, ()>>)
    decreases |answers|
  {
    if answers == [] then ([], None)
    else
      var i := Iterate(l, s, answers[0]);
      if i.Finish? then (if i.asked then [s.messages] else [], Some(i.outcome))
      else
        var later := Drive(l, i.state, answers[1..]);
        ([s.messages] + later.0, later.1)
  }

  /** The loop as the coordinator runs it, over its budget and its counters. */
  method RunModelToolLoop(l: Limits, history: seq<Message>, answers: seq<Answer>)
    returns (requests: seq<seq<Message>>, outcome: Option<Result<seq<Message>, ()>>)
    requires l.rounds <= U32_MAX && l.tools <= U32_MAX
    ensures (requests, outcome) == Drive(l, Start(l, history), answers)
    ensures l.rounds != U32_MAX ==> |requests| <= l.rounds
    ensures l.tools != U32_MAX ==> |requests| <= 3 * l.tools + 8
    ensures WellPaired(history) && Premise(answers) ==>
              && (forall i :: 0 <= i < |requests| ==> WellPaired(requests[i]))
              && (outcome.Some? && outcome.value.Ok? ==> WellPaired(outcome.value.value))
  {
    hide ContinuationMessages, CompleteWithoutTools, AssistantMessage, ToolMessage, Drive;
    ProviderCallBound(l, history, answers);
    if WellPaired(history) && Premise(answers) { ConversationStaysPaired(l, Start(l, history), answers); }
    hide WellPaired, Premise, Remaining, HandleTurn;
    var budget := new AgentLoopBudget(l);
    var continuations := new ContinuationCounts(l);
    var messages := history;
    requests := [];
    AllRemaining(l, history, answers);
    for k := 0 to |answers|
      invariant budget.limits == l && budget.toolInvocations <= U32_MAX
      invariant Remaining(l, history, answers, k, requests,
                          LoopState(messages, continuations.slots, budget.modelRounds, budget.toolInvocations))
    {
      ghost var s := LoopState(messages, continuations.slots, budget.modelRounds, budget.toolInvocations);
      OneMore(l, history, answers, k, requests, s);
      var a := answers[k];
      if a.cancelled { return requests, Some(Err(())); }
      var granted := budget.ConsumeModelRound(a.overtime);
      if !granted { return requests, Some(Err(())); }
      requests := requests + [messages];
      if a.reply.None? { return requests, Some(Err(())); }
      var step := TakeTurn(budget, continuations, messages, a);
      if step.1.Some? { return requests, step.1; }
      messages := step.0;
    }
    NoneRemaining(l, history, answers, requests, LoopState(messages, continuations.slots, budget.modelRounds, budget.toolInvocations));
    outcome := None;
  }

  /** What the loop does with a turn: the new messages, or the outcome. */
  method TakeTurn(budget: AgentLoopBudget, continuations: ContinuationCounts, messages: seq<Message>, a: Answer)
    returns (step: (seq<Message>, Option<Result<seq<Message>, ()>>))
    requires a.reply.Some? && budget.toolInvocations <= U32_MAX && budget.limits.tools <= U32_MAX
    modifies budget`toolInvocations, continuations
    ensures budget.toolInvocations <= U32_MAX
    ensures var i := HandleTurn(budget.limits, LoopState(messages, old(continuations.slots), budget.modelRounds, old(budget.toolInvocations)), a);
            && step.1 == (if i.Finish? then Some(i.outcome) else None)
            && (i.Finish? ==> i.asked)
            && (i.Next? ==> i.state == LoopState(step.0, continuations.slots, budget.modelRounds, budget.toolInvocations))
  {
    hide ContinuationMessages, CompleteWithoutTools, AssistantMessage, ResultMessages;
    var turn := a.reply.value;
    if turn.terminal.Continue? {
      var ok := continuations.TryBegin(turn.terminal.reason);
      if !ok { return (messages, Some(Err(()))); }
      return (messages + ContinuationMessages(turn, turn.terminal.reason), None);
    }
    if turn.calls == [] || turn.terminal != ToolCalls {
      return (messages, Some(Ok(CompleteWithoutTools(messages, turn))));
    }
    continuations.ResetIncomplete();
    if a.unregistered { return (messages, Some(Err(()))); }
    var results := ExecuteBatch(budget, turn.calls, a);
    if results.None? { return (messages, Some(Err(()))); }
    return (messages + [AssistantMessage(turn)] + results.value, None);
  }

  /** After `k` answers the run is at `s`, with these requests sent. */
  ghost predicate Remaining(l: Limits, history: seq<Message>, answers: seq<Answer>, k: nat, requests: seq<seq<Message>>, s: LoopState) {
    && k <= |answers|
    && var later := Drive(l, s, answers[k..]);
       Drive(l, Start(l, history), answers) == (requests + later.0, later.1)
  }

  lemma AllRemaining(l: Limits, history: seq<Message>, answers: seq<Answer>)
    ensures Remaining(l, history, answers, 0, [], Start(l, history))
  {
    hide Drive;
    assert answers[0..] == answers;
    assert [] + Drive(l, Start(l, history), answers).0 == Drive(l, Start(l, history), answers).0;
  }

  lemma {:induction false} NoneRemaining(l: Limits, history: seq<Message>, answers: seq<Answer>, requests: seq<seq<Message>>, s: LoopState)
    requires Remaining(l, history, answers, |answers|, requests, s)
    ensures Drive(l, Start(l, history), answers) == (requests, None)
  {
    assert answers[|answers|..] == [] && requests + [] == requests;
  }

  lemma {:induction false} OneMore(l: Limits, history: seq<Message>, answers: seq<Answer>, k: nat, requests: seq<seq<Message>>, s: LoopState)
    requires k < |answers| && Remaining(l, history, answers, k, requests, s)
    ensures var i := Iterate(l, s, answers[k]);
            && (i.Finish? ==> Drive(l, Start(l, history), answers)
                              == (if i.asked then requests + [s.messages] else requests, Some(i.outcome)))
            && (i.Next? ==> Remaining(l, history, answers, k + 1, requests + [s.messages], i.state))
  {
    hide Iterate;
    assert answers[k..][0] == answers[k] && answers[k..][1..] == answers[k + 1..];
    assert requests + [] == requests;
    if Iterate(l, s, answers[k]).Next? {
      var later := Drive(l, Iterate(l, s, answers[k]).state, answers[k + 1..]).0;
      assert requests + ([s.messages] + later) == (requests + [s.messages]) + later;
    }
  }

  /** The calls of one turn, in order; each takes one invocation from the budget. */
  method ExecuteBatch(budget: AgentLoopBudget, calls: seq<ToolCall>, a: Answer) returns (results: Option<seq<Message>>)
    requires calls != [] && budget.toolInvocations <= U32_MAX && budget.limits.tools <= U32_MAX
    modifies budget`toolInvocations
    ensures results.Some? <==> BatchSucceeds(budget.limits, old(budget.toolInvocations), calls, a)
    ensures results.Some? ==> results.value == ResultMessages(calls, a)
    ensures results.Some? ==> budget.toolInvocations == SaturateBy(old(budget.toolInvocations), |calls|)
    ensures budget.toolInvocations <= U32_MAX
  {
    hide ToolMessage;
    var out: seq<Message> := [];
    for i := 0 to |calls|
      invariant |out| == i && forall j :: 0 <= j < i ==> j !in a.late && ResultAt(a, j).Some? && out[j] == ToolMessage(calls[j], ResultAt(a, j).value)
      invariant budget.toolInvocations == SaturateBy(old(budget.toolInvocations), i)
      invariant budget.limits.tools == U32_MAX || i == 0 || old(budget.toolInvocations) + i <= budget.limits.tools
    {
      var granted := budget.ConsumeToolInvocation(i in a.late);
      if !granted { return None; }
      if ResultAt(a, i).None? { return None; }
      out := out + [ToolMessage(calls[i], ResultAt(a, i).value)];
    }
    return Some(out);
  }

  // ------------------------------------------------------ how often it asks the provider

  ghost predicate Counting(l: Limits, s: LoopState, asked: nat) {
    && (l.rounds != U32_MAX ==> asked == s.rounds <= l.rounds)
    && (l.tools < U32_MAX ==>
          && !s.slots.unlimited && s.slots.incomplete <= 2 && s.slots.summary <= 1 && s.slots.requested <= 4
          && s.tools <= l.tools && asked <= 3 * s.tools + s.slots.incomplete + s.slots.summary + s.slots.requested)
  }

  lemma IterateCounts(l: Limits, s: LoopState, a: Answer, asked: nat)
    requires l.rounds <= U32_MAX && l.tools <= U32_MAX && Counting(l, s, asked)
    ensures Iterate(l, s, a).Next? ==> Counting(l, Iterate(l, s, a).state, asked + 1)
    ensures Iterate(l, s, a) == Finish(true, Err(())) || (Iterate(l, s, a).Finish? && Iterate(l, s, a).asked) ==>
              l.rounds != U32_MAX ==> asked + 1 <= l.rounds
  {
    hide ContinuationMessages, CompleteWithoutTools, AssistantMessage, ResultMessages;
  }

  lemma {:induction false} DriveCounts(l: Limits, s: LoopState, answers: seq<Answer>, asked: nat)
    requires l.rounds <= U32_MAX && l.tools <= U32_MAX && Counting(l, s, asked)
    ensures var n := asked + |Drive(l, s, answers).0|;
            (l.rounds != U32_MAX ==> n <= l.rounds) && (l.tools != U32_MAX ==> n <= 3 * l.tools + 8)
    ensures Drive(l, s, answers).1.None? ==> |Drive(l, s, answers).0| == |answers|
    decreases |answers|
  {
    hide Iterate;
    if answers != [] {
      IterateCounts(l, s, answers[0], asked);
      if Iterate(l, s, answers[0]).Next? {
        DriveCounts(l, Iterate(l, s, answers[0]).state, answers[1..], asked + 1);
      }
    }
  }

  /**
   A bounded run asks the provider at most min(M, 3T + 8) times, whatever is
   answered, and so every long enough list of answers sees it end.
   */
  lemma {:induction false} ProviderCallBound(l: Limits, history: seq<Message>, answers: seq<Answer>)
    requires l.rounds <= U32_MAX && l.tools <= U32_MAX
    ensures var (requests, outcome) := Drive(l, Start(l, history), answers);
            && (l.rounds != U32_MAX ==> |requests| <= l.rounds)
            && (l.tools != U32_MAX ==> |requests| <= 3 * l.tools + 8)
            && (l.rounds != U32_MAX && |answers| > l.rounds ==> outcome.Some?)
            && (l.tools != U32_MAX && |answers| > 3 * l.tools + 8 ==> outcome.Some?)
  {
    DriveCounts(l, Start(l, history), answers, 0);
  }

  // ------------------------------------------------------------- the bound is reached

  function Replied(t: Turn): Answer { Answer(false, false, Some(t), false, [Some([])], {}) }

  function Continuing(r: Reason): Answer { Replied(Turn("", "", [], Continue(r), NoState, false, "")) }

  const ONE_CALL: Answer := Replied(Turn("", "", [ToolCall("a", "tool", "{}", None)], ToolCalls, NoState, false, ""))
  const STOPPING: Answer := Replied(Turn("", "", [], Stop, NoState, false, ""))

  /** Two incomplete turns before every tool turn, then every slot, then the end. */
  function LongestRun(tools: nat): seq<Answer> {
    if tools == 0 then
      [Continuing(Incomplete), Continuing(Incomplete), Continuing(SummaryOnly), Continuing(ProviderRequested),
       Continuing(ProviderRequested), Continuing(ProviderRequested), Continuing(ProviderRequested), STOPPING]
    else [Continuing(Incomplete), Continuing(Incomplete), ONE_CALL] + LongestRun(tools - 1)
  }

  /** Nothing is spent except `used` tool invocations and some rounds. */
  ghost predicate Unspent(l: Limits, s: LoopState, left: nat) {
    && s.slots == Slots(false, 0, 0, 0) && s.tools + left <= l.tools < U32_MAX
    && (l.rounds == U32_MAX || s.rounds + 3 * left + 8 <= l.rounds)
  }

  lemma Continues(l: Limits, s: LoopState, r: Reason, rest: seq<Answer>) returns (t: LoopState)
    requires !s.slots.unlimited && Used(s.slots, r) < DefaultLimit(r) && !Spent(s.rounds, l.rounds)
    ensures Iterate(l, s, Continuing(r)) == Next(t)
    ensures t.slots == Bump(s.slots, r) && t.tools == s.tools && t.rounds == Saturate(s.rounds)
    ensures |Drive(l, s, [Continuing(r)] + rest).0| == 1 + |Drive(l, t, rest).0|
  {
    t := Iterate(l, s, Continuing(r)).state;
    assert ([Continuing(r)] + rest)[1..] == rest;
  }

  lemma CallsOne(l: Limits, s: LoopState, rest: seq<Answer>) returns (t: LoopState)
    requires s.tools < l.tools < U32_MAX && !Spent(s.rounds, l.rounds)
    ensures Iterate(l, s, ONE_CALL) == Next(t)
    ensures t.slots == s.slots.(incomplete := 0) && t.tools == s.tools + 1 && t.rounds == Saturate(s.rounds)
    ensures |Drive(l, s, [ONE_CALL] + rest).0| == 1 + |Drive(l, t, rest).0|
  {
    assert BatchSucceeds(l, s.tools, ONE_CALL.reply.value.calls, ONE_CALL);
    t := Iterate(l, s, ONE_CALL).state;
    assert ([ONE_CALL] + rest)[1..] == rest;
  }

  /** The bound is exact: for every tool limit some run reaches it. */
  lemma {:induction false} BoundIsReached(l: Limits, s: LoopState, left: nat)
    requires Unspent(l, s, left)
    ensures |Drive(l, s, LongestRun(left)).0| == 3 * left + 8
    decreases left
  {
    hide Iterate, Drive, Continuing;
    if left == 0 {
      SpendSlots(l, s);
    } else {
      var rest := LongestRun(left - 1);
      var c := Continuing(Incomplete);
      var s1 := Continues(l, s, Incomplete, [c] + ([ONE_CALL] + rest));
      var s2 := Continues(l, s1, Incomplete, [ONE_CALL] + rest);
      var s3 := CallsOne(l, s2, rest);
      assert LongestRun(left) == [c] + ([c] + ([ONE_CALL] + rest));
      BoundIsReached(l, s3, left - 1);
    }
  }

  lemma {:induction false} SpendSlots(l: Limits, s: LoopState)
    requires Unspent(l, s, 0)
    ensures |Drive(l, s, LongestRun(0)).0| == 8
  {
    hide Iterate, Drive, Continuing;
    var i, m, p := Continuing(Incomplete), Continuing(SummaryOnly), Continuing(ProviderRequested);
    var s1 := Continues(l, s, Incomplete, [i, m, p, p, p, p, STOPPING]);
    var s2 := Continues(l, s1, Incomplete, [m, p, p, p, p, STOPPING]);
    var s3 := Continues(l, s2, SummaryOnly, [p, p, p, p, STOPPING]);
    var s4 := Continues(l, s3, ProviderRequested, [p, p, p, STOPPING]);
    var s5 := Continues(l, s4, ProviderRequested, [p, p, STOPPING]);
    var s6 := Continues(l, s5, ProviderRequested, [p, STOPPING]);
    var s7 := Continues(l, s6, ProviderRequested, [STOPPING]);
    Stops(l, s7);
    assert LongestRun(0) == [i] + [i, m, p, p, p, p, STOPPING];
    assert [i, m, p, p, p, p, STOPPING] == [i] + [m, p, p, p, p, STOPPING];
    assert [m, p, p, p, p, STOPPING] == [m] + [p, p, p, p, STOPPING];
    assert [p, p, p, p, STOPPING] == [p] + [p, p, p, STOPPING];
    assert [p, p, p, STOPPING] == [p] + [p, p, STOPPING];
    assert [p, p, STOPPING] == [p] + [p, STOPPING];
    assert [p, STOPPING] == [p] + [STOPPING];
  }

  lemma {:induction false} Stops(l: Limits, s: LoopState)
    requires !Spent(s.rounds, l.rounds)
    ensures |Drive(l, s, [STOPPING]).0| == 1
  {
  }

  // ----------------------------------------------------------- how often it may continue

  function Repeat(a: Answer, n: nat): seq<Answer> {
    if n == 0 then [] else [a] + Repeat(a, n - 1)
  }

  /** Without any limit every continuation is granted. */
  lemma {:induction false} UnlimitedContinues(s: LoopState, r: Reason, n: nat)
    requires s.slots.unlimited
    ensures var (requests, outcome) := Drive(Limits(U32_MAX, U32_MAX), s, Repeat(Continuing(r), n));
            |requests| == n && outcome == None
    decreases n
  {
    hide ContinuationMessages;
    if n > 0 {
      var l, a, rest := Limits(U32_MAX, U32_MAX), Continuing(r), Repeat(Continuing(r), n - 1);
      assert ([a] + rest)[1..] == rest && ([a] + rest)[0] == a;
      UnlimitedContinues(Iterate(l, s, a).state, r, n - 1);
    }
  }

  /** With any limit a reason is granted its own number of times in a row, and then the run fails. */
  lemma {:induction false} LimitedContinues(l: Limits, s: LoopState, r: Reason, rest: seq<Answer>)
    requires !s.slots.unlimited && Used(s.slots, r) <= DefaultLimit(r)
    requires l.rounds == U32_MAX || s.rounds + DefaultLimit(r) - Used(s.slots, r) + 1 <= l.rounds < U32_MAX
    ensures var left := DefaultLimit(r) - Used(s.slots, r);
            var (requests, outcome) := Drive(l, s, Repeat(Continuing(r), left + 1) + rest);
            |requests| == left + 1 && outcome == Some(Err(()))
    decreases DefaultLimit(r) - Used(s.slots, r)
  {
    hide ContinuationMessages, Drive;
    var a, left := Continuing(r), DefaultLimit(r) - Used(s.slots, r);
    var answers := Repeat(a, left + 1) + rest;
    assert answers[0] == a && answers[1..] == Repeat(a, left) + rest;
    DriveOnce(l, s, answers);
    if left > 0 { LimitedContinues(l, Iterate(l, s, a).state, r, rest); }
  }

  lemma {:induction false} DriveOnce(l: Limits, s: LoopState, answers: seq<Answer>)
    requires answers != []
    ensures var i := Iterate(l, s, answers[0]);
            && (i.Finish? ==> Drive(l, s, answers) == (if i.asked then [s.messages] else [], Some(i.outcome)))
            && (i.Next? ==> |Drive(l, s, answers).0| == 1 + |Drive(l, i.state, answers[1..]).0|
                            && Drive(l, s, answers).1 == Drive(l, i.state, answers[1..]).1)
  {
    hide Iterate;
  }

  /** A run is unlimited exactly when neither side is limited. */
  lemma StartsUnlimited(l: Limits, history: seq<Message>)
    ensures Start(l, history).slots == Slots(l.rounds == U32_MAX && l.tools == U32_MAX, 0, 0, 0)
  {
  }

  // -------------------------------------------------------------- pairing is preserved

  lemma {:induction false} ContinuationPaired(ms: seq<Message>, t: Turn, r: Reason)
    requires WellPaired(ms) && t.calls == []
    ensures WellPaired(ms + ContinuationMessages(t, r))
  {
    hide WellPaired, Trim, PromptText;
    PlainPaired(AssistantMessage(t));
    var prompt := Prompt(PromptText(t, r));
    PlainPaired(prompt);
    WellPairedAppend([AssistantMessage(t)], [prompt]);
    assert [AssistantMessage(t)] + [prompt] == [AssistantMessage(t), prompt];
    WellPairedAppend(ms, ContinuationMessages(t, r));
  }

  lemma {:induction false} CompletionPaired(ms: seq<Message>, t: Turn)
    requires WellPaired(ms) && t.calls == []
    ensures WellPaired(CompleteWithoutTools(ms, t))
  {
    hide WellPaired;
    PlainPaired(AssistantMessage(t));
    WellPairedAppend(ms, [AssistantMessage(t)]);
  }

  lemma AllAnswered(calls: seq<ToolCall>, a: Answer)
    requires forall i :: 0 <= i < |calls| ==> ResultAt(a, i).Some?
    ensures Answers(ResultMessages(calls, a), calls)
  {
    hide NativeId;
  }

  lemma {:induction false} ToolTurnPaired(ms: seq<Message>, t: Turn, a: Answer)
    requires WellPaired(ms) && forall i :: 0 <= i < |t.calls| ==> ResultAt(a, i).Some?
    ensures WellPaired(ms + [AssistantMessage(t)] + ResultMessages(t.calls, a))
  {
    hide WellPaired, Trim, ToolMessage, ResultAt;
    var results := ResultMessages(t.calls, a);
    AllAnswered(t.calls, a);
    TurnPaired(AssistantMessage(t), results);
    WellPairedAppend(ms, [AssistantMessage(t)] + results);
    assert ms + [AssistantMessage(t)] + results == ms + ([AssistantMessage(t)] + results);
  }

  /** A turn whose message goes in unanswered breaks the conversation if it has calls. */
  lemma {:induction false} UnansweredBreaks(ms: seq<Message>, t: Turn, rest: seq<Message>)
    requires WellPaired(ms) && t.calls != [] && (rest == [] || !rest[0].role.ToolRole?)
    ensures !WellPaired(ms + [AssistantMessage(t)] + rest)
  {
    hide WellPaired;
    DanglingCall(ms, AssistantMessage(t), rest);
  }

  lemma {:induction false} HandlePaired(l: Limits, s: LoopState, a: Answer)
    requires WellPaired(s.messages) && a.reply.Some?
    ensures var i, t := HandleTurn(l, s, a), a.reply.value;
            && (i.Next? ==> s.messages <= i.state.messages && (WellPaired(i.state.messages) <==> Harmless(t)))
            && (i.Finish? && i.outcome.Ok? ==> s.messages <= i.outcome.value && (WellPaired(i.outcome.value) <==> Harmless(t)))
  {
    hide WellPaired, ToolMessage, Trim, PromptText;
    var t, ms := a.reply.value, s.messages;
    assert ms + [] == ms;
    if t.calls == [] {
      if t.terminal.Continue? { ContinuationPaired(ms, t, t.terminal.reason); } else { CompletionPaired(ms, t); }
    } else if t.terminal.ToolCalls? {
      if BatchSucceeds(l, s.tools, t.calls, a) { ToolTurnPaired(ms, t, a); }
    } else {
      UnansweredBreaks(ms, t, []);
      assert ms + [AssistantMessage(t)] + [] == ms + [AssistantMessage(t)];
      if t.terminal.Continue? {
        var prompt := Prompt(PromptText(t, t.terminal.reason));
        UnansweredBreaks(ms, t, [prompt]);
        assert ms + [AssistantMessage(t)] + [prompt] == ms + [AssistantMessage(t), prompt];
        PromptPaired(ms, PromptText(t, t.terminal.reason));
      }
    }
  }

  lemma {:induction false} PromptPaired(ms: seq<Message>, text: string)
    requires WellPaired(ms)
    ensures WellPaired(ms + [Prompt(text)])
  {
    hide WellPaired;
    PlainPaired(Prompt(text));
    WellPairedAppend(ms, [Prompt(text)]);
  }

  /**
   An iteration keeps the conversation well paired exactly when its turn has no
   calls, or they are answered, or its assistant message is not appended.
   */
  lemma IteratePaired(l: Limits, s: LoopState, a: Answer)
    requires WellPaired(s.messages) && a.reply.Some?
    ensures var i, t := Iterate(l, s, a), a.reply.value;
            && (i.Next? ==> s.messages <= i.state.messages && (WellPaired(i.state.messages) <==> Harmless(t)))
            && (i.Finish? && i.outcome.Ok? ==> s.messages <= i.outcome.value && (WellPaired(i.outcome.value) <==> Harmless(t)))
  {
    hide WellPaired, HandleTurn, Harmless;
    HandlePaired(l, s.(rounds := Saturate(s.rounds)), a);
  }

  /**
   From a well-paired history every request sent is well paired and continues the
   history, and so are the messages of a successful run.
   */
  lemma {:induction false} ConversationStaysPaired(l: Limits, s: LoopState, answers: seq<Answer>)
    requires WellPaired(s.messages)
    requires Premise(answers)
    ensures var (requests, outcome) := Drive(l, s, answers);
            && (forall i :: 0 <= i < |requests| ==> WellPaired(requests[i]) && s.messages <= requests[i])
            && (outcome.Some? && outcome.value.Ok? ==> WellPaired(outcome.value.value) && s.messages <= outcome.value.value)
    decreases |answers|
  {
    hide WellPaired, Iterate, Harmless;
    if answers != [] {
      if answers[0].reply.None? {
        Unreplied(l, s, answers[0]);
      } else {
        IteratePaired(l, s, answers[0]);
      }
      if Iterate(l, s, answers[0]).Next? {
        ConversationStaysPaired(l, Iterate(l, s, answers[0]).state, answers[1..]);
      }
    }
  }

  lemma Unreplied(l: Limits, s: LoopState, a: Answer)
    requires a.reply.None?
    ensures Iterate(l, s, a).Finish? && Iterate(l, s, a).outcome.Err?
  {
  }

  // ------------------------------------------------------------ ids stay paired as well

  /** What both encodings of a conversation must say. */
  ghost predicate OnTheWire(ms: seq<Message>, key: string -> InvocationId) {
    && ChatTraffic(ChatBody(ms)) == Expected(ms)
    && ItemTraffic(ResponsesInput(ms, true, map[], key)) == ExpectedItems(ms)
    && Paired(ExpectedItems(ms))
    && (NoOwnPairs(ms) ==> ExpectedItems(ms) == Expected(ms))
  }

  lemma {:induction false} PairedOnTheWire(ms: seq<Message>, key: string -> InvocationId)
    requires WellPaired(ms) && EncodableFrom(ms, map[], key)
    ensures OnTheWire(ms, key)
  {
    hide WellPaired, EncodableFrom, ChatTraffic, ItemTraffic, Expected, ExpectedItems, ResponsesInput, Paired, NoOwnPairs;
    ChatPairsIds(ms);
    ResponsesPairsIds(ms, true, map[], key);
    ExpectedIsPaired(ms, map[], key);
    if NoOwnPairs(ms) { SameExpectation(ms); }
  }

  /** Conversations that can be sent, the second kind without persisted pairs. */
  ghost predicate Sendable(ms: seq<Message>, key: string -> InvocationId, plain: bool) {
    WellPaired(ms) && EncodableFrom(ms, map[], key) && (plain ==> NoOwnPairs(ms))
  }

  ghost predicate SendableTurn(t: Turn, plain: bool) {
    Harmless(t) && EncodableMessage(AssistantMessage(t)) && (plain ==> OwnPairs(AssistantMessage(t)) == [])
  }

  lemma PromptIsEncodable(text: string)
    ensures EncodableMessage(Prompt(text)) && OwnPairs(Prompt(text)) == []
  {
    hide Trim;
    assert ItemTraffic([]) == [];
  }

  /** The messages an iteration appends. */
  lemma AppendedBy(l: Limits, s: LoopState, a: Answer, plain: bool) returns (extra: seq<Message>)
    requires a.reply.Some? && SendableTurn(a.reply.value, plain)
    ensures Encodable(extra) && (plain ==> NoOwnPairs(extra))
    ensures var i := HandleTurn(l, s, a);
            && (i.Next? ==> i.state.messages == s.messages + extra)
            && (i.Finish? && i.outcome.Ok? ==> i.outcome.value == s.messages + extra)
  {
    hide EncodableMessage, OwnPairs, Trim, Harmless, PromptText;
    var t, i := a.reply.value, HandleTurn(l, s, a);
    if t.terminal.Continue? { PromptIsEncodable(PromptText(t, t.terminal.reason)); }
    extra := [];
    assert s.messages + [] == s.messages;
    if t.terminal.Continue? {
      extra := ContinuationMessages(t, t.terminal.reason);
    } else if i.Finish? {
      extra := CompleteWithoutTools([], t);
    } else {
      extra := [AssistantMessage(t)] + ResultMessages(t.calls, a);
      ResultsAreTools(t.calls, a);
      assert s.messages + [AssistantMessage(t)] + ResultMessages(t.calls, a) == s.messages + extra;
    }
  }

  lemma ResultsAreTools(calls: seq<ToolCall>, a: Answer)
    requires forall i :: 0 <= i < |calls| ==> ResultAt(a, i).Some?
    ensures forall i :: 0 <= i < |calls| ==> ResultMessages(calls, a)[i].role.ToolRole? && OwnPairs(ResultMessages(calls, a)[i]) == []
  {
    hide NativeId, ItemTraffic;
  }

  lemma {:induction false} SendableAppend(ms: seq<Message>, extra: seq<Message>, key: string -> InvocationId, plain: bool)
    requires Sendable(ms, key, plain) && Encodable(extra) && (plain ==> NoOwnPairs(extra)) && WellPaired(ms + extra)
    ensures Sendable(ms + extra, key, plain)
  {
    hide WellPaired, EncodableFrom, Encodable, OwnPairs;
    EncodableAppend(ms, extra, map[], key);
  }

  lemma IterateSendable(l: Limits, s: LoopState, a: Answer, key: string -> InvocationId, plain: bool)
    requires Sendable(s.messages, key, plain) && a.reply.Some? && SendableTurn(a.reply.value, plain)
    ensures var i := Iterate(l, s, a);
            && (i.Next? ==> Sendable(i.state.messages, key, plain))
            && (i.Finish? && i.outcome.Ok? ==> Sendable(i.outcome.value, key, plain))
  {
    hide WellPaired, HandleTurn, Harmless, EncodableFrom, Encodable, EncodableMessage, NoOwnPairs, OwnPairs, AssistantMessage;
    var i := Iterate(l, s, a);
    IteratePaired(l, s, a);
    var extra := AppendedBy(l, s.(rounds := Saturate(s.rounds)), a, plain);
    if i.Next? || (i.Finish? && i.outcome.Ok?) { SendableAppend(s.messages, extra, key, plain); }
  }

  /**
   From a history that can be sent, both encodings of every request, and of the
   messages of a successful run, name each call and its result alike and in order.
   With `plain` the two encodings say exactly the same.
   */
  lemma {:induction false} RequestsStayOnTheWire(l: Limits, s: LoopState, answers: seq<Answer>, key: string -> InvocationId, plain: bool)
    requires Sendable(s.messages, key, plain)
    requires forall i :: 0 <= i < |answers| && answers[i].reply.Some? ==> SendableTurn(answers[i].reply.value, plain)
    ensures var (requests, outcome) := Drive(l, s, answers);
            && (forall i :: 0 <= i < |requests| ==> OnTheWire(requests[i], key) && (plain ==> NoOwnPairs(requests[i])))
            && (outcome.Some? && outcome.value.Ok? ==> OnTheWire(outcome.value.value, key) && (plain ==> NoOwnPairs(outcome.value.value)))
    decreases |answers|
  {
    hide WellPaired, EncodableFrom, NoOwnPairs, SendableTurn, OnTheWire, Iterate;
    if answers != [] {
      PairedOnTheWire(s.messages, key);
      if answers[0].reply.None? {
        Unreplied(l, s, answers[0]);
      } else {
        IterateSendable(l, s, answers[0], key, plain);
      }
      var i := Iterate(l, s, answers[0]);
      if i.Next? {
        RequestsStayOnTheWire(l, i.state, answers[1..], key, plain);
      } else if i.outcome.Ok? {
        PairedOnTheWire(i.outcome.value, key);
      }
    }
  }

  // ------------------------------------------------------- where the premise comes from

  /** The terminal a chat stream ends with; `toolReason` is the provider's own finish reason. */
  function ChatTerminal(calls: seq<ToolCall>, toolReason: bool): Terminal {
    if calls != [] || toolReason then ToolCalls else Stop
  }

  function ResponsesTerminal(calls: seq<ToolCall>): Terminal {
    if calls == [] then Stop else ToolCalls
  }

  /** `endTurn` and `promised` are the provider-specific tests on the turn's state and text. */
  function ApplyTurnContinuation(t: Turn, endTurn: bool, promised: bool): Turn {
    if t.calls != [] || t.terminal.ToolCalls? then t
    else if t.terminal.Continue? then t
    else if endTurn then t.(terminal := Continue(ProviderRequested))
    else if promised then t.(terminal := Continue(Incomplete))
    else t
  }

  /** Finished turns, hidden summaries among them, carry calls only with the tool-call terminal, also after the continuation rewrite. */
  lemma TurnsMeetThePremise(t: Turn, toolReason: bool, endTurn: bool, promised: bool)
    requires t.terminal == ChatTerminal(t.calls, toolReason) || t.terminal == ResponsesTerminal(t.calls)
          || (t.calls == [] && t.terminal == Continue(SummaryOnly))
    ensures var u := ApplyTurnContinuation(t, endTurn, promised);
            && CallsWithTerminal(u) && Harmless(u) && u == t.(terminal := u.terminal)
            && (u != t ==> t.calls == [] && t.terminal.Stop? && u.terminal.Continue?)
            && (t.calls == [] && t.terminal.Stop? ==>
                  && (endTurn ==> u.terminal == Continue(ProviderRequested))
                  && (!endTurn && promised ==> u.terminal == Continue(Incomplete))
                  && (!endTurn && !promised ==> u == t))
  {
  }
}
