/**
 The background job that forwards a run's log to its handle, and the handle's result.

 The forwarder asks the table for the events after the last one it sent, then hands
 them out one by one, while the run keeps appending to its log.
 */
module Forwarder {
  import opened Wrappers
  import opened RunLog
  import opened RunTable

  /** Why the forwarder returned. */
  datatype Stop = Open | SawTerminal | ReceiverGone

  /**
   `batch` holds the fetched events still to hand out, `sunk` what the sink was
   given and `received` what the channel took.
   */
  datatype State = State(record: RunRecord, sequence: nat, batch: seq<Envelope>,
                         sunk: seq<Envelope>, received: seq<Envelope>, stop: Stop)

  datatype Action =
    | TableStep(call: TableCall)
    | Fetch
    | Deliver(sent: bool)

  predicate Allowed(a: Action) {
    a.TableStep? ==> WellFormed(a.call) && !a.call.StartRun?
  }

  function Exec(s: State, a: Action): State
    requires Allowed(a)
  {
    match a
    case TableStep(c) => s.(record := StepRecord(s.record, c))
    case Fetch => if s.stop.Open? && s.batch == [] then s.(batch := After(s.record.events, s.sequence)) else s
    case Deliver(sent) =>
      if !s.stop.Open? || s.batch == [] then s
      else
        var e := s.batch[0];
        s.(sequence := e.sequence, batch := s.batch[1..], sunk := s.sunk + [e],
           received := if sent then s.received + [e] else s.received,
           stop := if TerminalState(e.event).Some? then SawTerminal else if sent then Open else ReceiverGone)
  }

  function ExecAll(s: State, actions: seq<Action>): State
    requires forall i :: 0 <= i < |actions| ==> Allowed(actions[i])
    decreases |actions|
  {
    if actions == [] then s else ExecAll(Exec(s, actions[0]), actions[1..])
  }

  ghost predicate Init(s: State) {
    LogInv(s.record) && s.sequence == 0 && s.batch == [] && s.sunk == [] && s.received == [] && s.stop == Open
  }

  /** What was handed out and what is about to be is a prefix of the log, and the log is in the range of its numbers. */
  ghost predicate Inv(s: State) {
    && LogInv(s.record)
    && s.sequence == |s.sunk|
    && s.sunk + s.batch <= s.record.events
    && (s.received == s.sunk || (!s.stop.Open? && s.sunk != [] && s.received == s.sunk[..|s.sunk| - 1]))
    && (s.stop.SawTerminal? ==> s.sunk == s.record.events && IsTerminal(s.record.state))
    && (s.stop.Open? ==> forall i :: 0 <= i < |s.sunk| ==> TerminalState(s.sunk[i].event).None?)
  }

  lemma FetchKeeps(s: State)
    requires Inv(s) && |s.record.events| <= U64_MAX
    ensures Inv(Exec(s, Fetch))
    ensures s.stop.Open? && s.batch == [] ==> s.sunk + Exec(s, Fetch).batch == s.record.events
  {
    if s.stop.Open? && s.batch == [] {
      AfterIsDrop(s.record.events, 0, s.sequence);
      assert s.sunk == s.record.events[..s.sequence];
    }
  }

  lemma SameRecord(s: State, sent: bool)
    ensures Exec(s, Fetch).record == s.record == Exec(s, Deliver(sent)).record
  {
  }

  lemma DeliverKeeps(s: State, sent: bool)
    requires Inv(s) && |s.record.events| <= U64_MAX
    ensures Inv(Exec(s, Deliver(sent)))
  {
    if s.stop.Open? && s.batch != [] {
      var e, t := s.batch[0], Exec(s, Deliver(sent));
      assert s.record.events[|s.sunk|] == (s.sunk + s.batch)[|s.sunk|] == e;
      assert t.sunk + t.batch == s.sunk + s.batch;
      assert t.sunk[..|t.sunk| - 1] == s.sunk;
      if TerminalState(e.event).Some? {
        assert |s.sunk| == |s.record.events| - 1;
      }
    }
  }

  /** Whatever extends the log, the forwarder's place in it is kept. */
  lemma ExtensionKeeps(s: State, r: RunRecord)
    requires Inv(s) && LogInv(r) && Extends(s.record, r)
    ensures Inv(s.(record := r))
  {
    hide LogInv;
  }

  lemma TableKeeps(s: State, c: TableCall)
    requires Inv(s) && WellFormed(c) && !c.StartRun?
    ensures Inv(Exec(s, TableStep(c)))
  {
    hide StepRecord, LogInv, Extends, Inv;
    InvFacts(s);
    StepRecordKeeps(s.record, c);
    ExtensionKeeps(s, StepRecord(s.record, c));
  }

  /** A live forwarder of a finished run still has something to hand out. */
  lemma MoreToHandOut(s: State)
    requires Inv(s) && s.stop.Open? && IsTerminal(s.record.state)
    ensures |s.sunk| < |s.record.events|
  {
    assert TerminalState(Last(s.record).event).Some?;
    assert forall i :: 0 <= i < |s.sunk| ==> s.record.events[i] == s.sunk[i];
  }

  /** The invariant along a run, as long as the log stays below 2^64 events. */
  lemma {:induction false} ExecAllKeeps(s: State, actions: seq<Action>)
    requires Inv(s) && forall i :: 0 <= i < |actions| ==> Allowed(actions[i])
    requires |ExecAll(s, actions).record.events| <= U64_MAX
    ensures Inv(ExecAll(s, actions))
    decreases |actions|
  {
    hide Inv, Exec;
    if actions != [] {
      InvFacts(s);
      LogGrows(s, actions);
      match actions[0] {
        case TableStep(c) => TableKeeps(s, c);
        case Fetch => FetchKeeps(s);
        case Deliver(sent) => DeliverKeeps(s, sent);
      }
      ExecAllKeeps(Exec(s, actions[0]), actions[1..]);
    }
  }

  lemma InvFacts(s: State)
    requires Inv(s)
    ensures LogInv(s.record)
  {
  }

  lemma {:induction false} LogGrows(s: State, actions: seq<Action>)
    requires LogInv(s.record) && forall i :: 0 <= i < |actions| ==> Allowed(actions[i])
    ensures s.record.events <= ExecAll(s, actions).record.events
    decreases |actions|
  {
    hide LogInv, StepRecord, After;
    if actions != [] {
      if actions[0].TableStep? { StepRecordKeeps(s.record, actions[0].call); }
      LogGrows(Exec(s, actions[0]), actions[1..]);
    }
  }

  /**
   Whatever the run appends and whenever: what the sink was given is the log's own
   beginning, numbered from one without gap or repeat, and the channel got the same
   save at most the last event, on which the forwarder stopped.  A forwarder that
   stopped at a terminal event has handed out the whole log of a finished run.
   */
  lemma {:induction false} DeliversThePrefix(s: State, actions: seq<Action>)
    requires Init(s) && forall i :: 0 <= i < |actions| ==> Allowed(actions[i])
    requires |ExecAll(s, actions).record.events| <= U64_MAX
    ensures var t := ExecAll(s, actions);
            && t.sunk <= t.record.events
            && (forall i :: 0 <= i < |t.sunk| ==> t.sunk[i].sequence == i + 1)
            && t.received <= t.sunk && |t.sunk| <= |t.received| + 1
            && (t.stop.Open? ==> t.received == t.sunk)
            && (t.stop.SawTerminal? ==> t.sunk == t.record.events && IsTerminal(t.record.state))
  {
    ExecAllKeeps(s, actions);
    var t := ExecAll(s, actions);
    assert t.sunk == t.record.events[..|t.sunk|];
  }

  /** From any state of a live forwarder, one fetch and enough deliveries bring it to the end of the log. */
  lemma CatchesUp(s: State)
    requires Inv(s) && s.stop.Open? && s.batch == [] && |s.record.events| <= U64_MAX && |s.sunk| < |s.record.events|
    ensures var t := DrainAll(Exec(s, Fetch));
            t.received == s.record.events && (IsTerminal(s.record.state) <==> t.stop.SawTerminal?)
  {
    FetchKeeps(s);
    var f := Exec(s, Fetch);
    DrainDelivers(f);
  }

  /** The inner loop over one fetched batch, with every send taken. */
  function DrainAll(s: State): State
    decreases |s.batch|
  {
    if s.stop.Open? && s.batch != [] then DrainAll(Exec(s, Deliver(true))) else s
  }

  lemma {:induction false} DrainDelivers(s: State)
    requires Inv(s) && s.stop.Open? && s.batch != [] && |s.record.events| <= U64_MAX
    requires s.sunk + s.batch == s.record.events
    ensures DrainAll(s).received == s.record.events && (IsTerminal(s.record.state) <==> DrainAll(s).stop.SawTerminal?)
    decreases |s.batch|
  {
    var t := Exec(s, Deliver(true));
    DeliverKeeps(s, true);
    assert t.sunk + t.batch == s.sunk + s.batch;
    assert s.record.events[|s.sunk|] == s.batch[0];
    if t.batch != [] {
      assert TerminalState(s.batch[0].event).None?;
      DrainDelivers(t);
    } else {
      assert t.sunk == s.record.events;
      assert Last(s.record) == s.batch[0];
    }
  }

  // ------------------------------------------------------------------ the result

  datatype RunFailure = RunWasCancelled | RunDidFail(message: string) | NoOutcome

  datatype RunResult = RunResult(output: seq<OutputMessage>, text: string, usage: Option<string>)

  function JoinParts(parts: seq<Option<string>>): string {
    if parts == [] then "" else (if parts[0].Some? then parts[0].value else "") + JoinParts(parts[1..])
  }

  /** A text part says its text, an image nothing, and parts one after the other what each says. */
  lemma {:induction false} PartsJoin(a: seq<Option<string>>, b: seq<Option<string>>, text: string)
    ensures JoinParts([Some(text)]) == text && JoinParts([None]) == "" && JoinParts([]) == ""
    ensures JoinParts(a + b) == JoinParts(a) + JoinParts(b)
    decreases |a|
  {
    var one, none: seq<Option<string>> := [Some(text)], [None];
    assert one[1..] == [] && none[1..] == [] && text + "" == text;
    if a == [] {
      assert a + b == b;
    } else {
      assert (a + b)[1..] == a[1..] + b;
      PartsJoin(a[1..], b, text);
    }
  }

  /** The text of the last assistant message. */
  function AssistantText(output: seq<OutputMessage>): string {
    if output == [] then ""
    else if output[|output| - 1].assistant then JoinParts(output[|output| - 1].parts)
    else AssistantText(output[..|output| - 1])
  }

  lemma {:induction false} LastAssistantSpeaks(output: seq<OutputMessage>, k: nat)
    requires k <= |output| && forall i :: k <= i < |output| ==> !output[i].assistant
    ensures k == 0 ==> AssistantText(output) == ""
    ensures k > 0 && output[k - 1].assistant ==> AssistantText(output) == JoinParts(output[k - 1].parts)
    decreases |output|
  {
    if k < |output| { LastAssistantSpeaks(output[..|output| - 1], k); }
  }

  /** The usage reported last, if any. */
  function LastUsage(events: seq<Envelope>): Option<string> {
    if events == [] then None
    else
      var last := events[|events| - 1].event;
      if last.UsageUpdated? then Some(last.usage) else LastUsage(events[..|events| - 1])
  }

  /** What the table says about a finished run. */
  function TableOutcome(r: RunRecord): Result<RunResult, RunFailure>
    requires r.events != []
  {
    match Last(r).event
    case CompletedEvent(output) => Ok(RunResult(output, AssistantText(output), LastUsage(r.events)))
    case FailedEvent(message) => Err(RunDidFail(message))
    case _ => Err(RunWasCancelled)
  }

  /** How far the handle has read: the locals of `result`. */
  ghost predicate ReadSoFar(events: seq<Envelope>, output: seq<OutputMessage>, usage: Option<string>, failure: Option<string>, state: Option<RunState>) {
    && usage == LastUsage(events)
    && (events == [] || TerminalState(events[|events| - 1].event).None? ==> state.None? && failure.None?)
    && (events != [] && TerminalState(events[|events| - 1].event).Some? ==>
          var last := events[|events| - 1].event;
          && state == TerminalState(last)
          && (last.CompletedEvent? ==> output == last.output)
          && (last.FailedEvent? ==> failure == Some(last.message)))
  }

  ghost predicate TerminalOnlyLast(events: seq<Envelope>) {
    forall i :: 0 <= i < |events| - 1 ==> TerminalState(events[i].event).None?
  }

  /**
   Reading a whole log reports exactly the table's outcome and the last usage; a
   stream that ends before a terminal event is reported as a failed run.
   */
  method AwaitResult(events: seq<Envelope>) returns (r: Result<RunResult, RunFailure>)
    requires TerminalOnlyLast(events)
    ensures forall record :: LogInv(record) && IsTerminal(record.state) && record.events == events ==>
              && r == TableOutcome(record)
              && (r.Ok? <==> record.state.RunCompleted?)
              && (r == Err(RunWasCancelled) <==> record.state.RunCancelled?)
    ensures r != Err(NoOutcome)
    ensures events == [] || TerminalState(events[|events| - 1].event).None? ==> r == Err(RunDidFail("The run failed."))
  {
    var output: seq<OutputMessage> := [];
    var usage: Option<string> := None;
    var failure: Option<string> := None;
    var state: Option<RunState> := None;
    for i := 0 to |events|
      invariant ReadSoFar(events[..i], output, usage, failure, state)
    {
      assert events[..i + 1][..i] == events[..i];
      assert i > 0 ==> TerminalState(events[i - 1].event).None?;
      match events[i].event {
        case UsageUpdated(value) => usage := Some(value);
        case CompletedEvent(messages) => output, state := messages, Some(RunCompleted);
        case FailedEvent(message) => failure, state := Some(message), Some(RunFailed);
        case CancelledEvent => state := Some(RunState.RunCancelled);
        case _ =>
      }
    }
    assert events[..|events|] == events;
    var final := if state.Some? then state.value else RunFailed;
    if final.RunCancelled? {
      r := Err(RunWasCancelled);
    } else if final.RunFailed? {
      r := Err(RunDidFail(if failure.Some? then failure.value else "The run failed."));
    } else if final.RunCompleted? {
      r := Ok(RunResult(output, AssistantText(output), usage));
    } else {
      r := Err(NoOutcome);
    }
  }

  /** A handle whose forwarder stopped at the terminal event and lost nothing has the table's whole log to read. */
  lemma {:induction false} HandleSeesTheTable(s: State, actions: seq<Action>)
    requires Init(s) && forall i :: 0 <= i < |actions| ==> Allowed(actions[i])
    requires |ExecAll(s, actions).record.events| <= U64_MAX
    requires ExecAll(s, actions).stop.SawTerminal? && |ExecAll(s, actions).received| == |ExecAll(s, actions).sunk|
    ensures var t := ExecAll(s, actions);
            t.received == t.record.events && LogInv(t.record) && IsTerminal(t.record.state) && TerminalOnlyLast(t.received)
  {
    ExecAllKeeps(s, actions);
  }

  /**
   The handle's result of a whole run: when its forwarder stopped at the terminal
   event and lost nothing, it reports exactly the table's outcome.
   */
  method ReportRun(s: State, actions: seq<Action>) returns (r: Result<RunResult, RunFailure>)
    requires Init(s) && forall i :: 0 <= i < |actions| ==> Allowed(actions[i])
    requires |ExecAll(s, actions).record.events| <= U64_MAX
    requires ExecAll(s, actions).stop.SawTerminal? && |ExecAll(s, actions).received| == |ExecAll(s, actions).sunk|
    ensures ExecAll(s, actions).record.events != [] && r == TableOutcome(ExecAll(s, actions).record)
    ensures r.Ok? <==> ExecAll(s, actions).record.state.RunCompleted?
    ensures r == Err(RunWasCancelled) <==> ExecAll(s, actions).record.state.RunCancelled?
  {
    hide Exec, ExecAll;
    HandleSeesTheTable(s, actions);
    r := AwaitResult(ExecAll(s, actions).received);
  }
}
