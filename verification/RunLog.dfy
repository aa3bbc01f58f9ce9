/**
 Run records and their event logs: the parts of the run table that happen under
 its lock, as steps on one record and on the whole table.
 */
module RunLog {
  import opened Wrappers
  import opened Operations

  const U64_MAX: nat := 0xFFFF_FFFF_FFFF_FFFF

  datatype RunState = Running | AwaitingOperation | RunCompleted | RunFailed | RunCancelled

  predicate IsTerminal(s: RunState) { s.RunCompleted? || s.RunFailed? || s.RunCancelled? }

  /** A message of a run's output: its text parts, and `None` for an image. */
  datatype OutputMessage = OutputMessage(assistant: bool, parts: seq<Option<string>>)

  /** `Progress` stands for the text, reasoning and artifact events. */
  datatype RunEvent =
    | RunStarted(run: RunId)
    | StateChanged(state: RunState)
    | Progress(payload: string)
    | ToolStarted(invocation: nat)
    | ToolFinished(invocation: nat)
    | OperationRequested(operation: OperationId)
    | UsageUpdated(usage: string)
    | CompletedEvent(output: seq<OutputMessage>)
    | FailedEvent(message: string)
    | CancelledEvent

  function TerminalState(e: RunEvent): Option<RunState> {
    match e
    case CompletedEvent(_) => Some(RunCompleted)
    case FailedEvent(_) => Some(RunFailed)
    case CancelledEvent => Some(RunState.RunCancelled)
    case _ => None
  }

  datatype Envelope = Envelope(sequence: nat, run: RunId, event: RunEvent)

  datatype RunRecord = RunRecord(id: RunId, parent: Option<RunId>, state: RunState, cancelled: bool, hooks: nat, events: seq<Envelope>)

  datatype TableError = RunCollision | UnknownRun | RunIsTerminal | InvalidTransition(from: RunState, to: RunState) | PendingOperations

  function Last(r: RunRecord): Envelope
    requires r.events != []
  {
    r.events[|r.events| - 1]
  }

  /** Appends unless the log already ended; sequence numbers saturate as `u64` does. */
  function AppendEvent(r: RunRecord, e: RunEvent): Result<(RunRecord, nat), TableError> {
    if r.events != [] && TerminalState(Last(r).event).Some? then Err(RunIsTerminal)
    else
      var sequence := if r.events == [] then 1
                      else if Last(r).sequence == U64_MAX then U64_MAX else Last(r).sequence + 1;
      Ok((r.(events := r.events + [Envelope(sequence, r.id, e)]), sequence))
  }

  // -------------------------------------------------- steps on one locked record

  function NewRun(id: RunId, parent: Option<RunId>): RunRecord {
    RunRecord(id, parent, Running, false, 0, [Envelope(1, id, RunStarted(id))])
  }

  type Step = (RunRecord, Result<nat, TableError>)

  /** The state is written first; if the append then failed, it would stay written. */
  function WriteAndAppend(r: RunRecord, e: RunEvent): Step {
    match AppendEvent(r, e)
    case Err(error) => (r, Err(error))
    case Ok((r', sequence)) => (r', Ok(sequence))
  }

  function SetStateStep(r: RunRecord, s: RunState): Step {
    if IsTerminal(s) then (r, Err(InvalidTransition(r.state, s)))
    else if IsTerminal(r.state) then (r, Err(RunIsTerminal))
    else WriteAndAppend(r.(state := s), StateChanged(s))
  }

  function EmitStep(r: RunRecord, e: RunEvent): Step {
    if TerminalState(e).Some? || e.RunStarted? then
      (r, Err(InvalidTransition(r.state, if TerminalState(e).Some? then TerminalState(e).value else Running)))
    else if IsTerminal(r.state) then (r, Err(RunIsTerminal))
    else WriteAndAppend(r, e)
  }

  /** `finish` is private and called for completion and failure only. */
  predicate FinishEvent(e: RunEvent) { e.CompletedEvent? || e.FailedEvent? }

  function FinishStep(r: RunRecord, e: RunEvent): Step
    requires FinishEvent(e)
  {
    if IsTerminal(r.state) then (r, Err(RunIsTerminal))
    else WriteAndAppend(r.(state := TerminalState(e).value), e)
  }

  function CancelStep(r: RunRecord): Step {
    if IsTerminal(r.state) then (r, Err(RunIsTerminal))
    else
      var (r', answer) := WriteAndAppend(r.(state := RunState.RunCancelled, cancelled := true), CancelledEvent);
      (if answer.Ok? then r'.(hooks := 0) else r', answer)
  }

  function AddHookStep(r: RunRecord): (RunRecord, Result<(), TableError>) {
    if IsTerminal(r.state) then (r, Err(RunIsTerminal)) else (r.(hooks := r.hooks + 1), Ok(()))
  }

  // ------------------------------------------------------------- the log invariant

  function SequenceAt(i: nat): nat {
    if i + 1 <= U64_MAX then i + 1 else U64_MAX
  }

  /**
   The log starts with its only start event, numbers its events from one, has a
   terminal event only at its end and exactly when the state is that terminal
   state, and the token is set exactly for a cancelled run.
   */
  ghost predicate LogInv(r: RunRecord) {
    && r.events != [] && r.events[0].event == RunStarted(r.id)
    && (forall i :: 0 <= i < |r.events| ==> r.events[i].run == r.id && r.events[i].sequence == SequenceAt(i))
    && (forall i :: 1 <= i < |r.events| ==> !r.events[i].event.RunStarted?)
    && (forall i :: 0 <= i < |r.events| - 1 ==> TerminalState(r.events[i].event).None?)
    && TerminalState(Last(r).event) == (if IsTerminal(r.state) then Some(r.state) else None)
    && (r.cancelled <==> r.state.RunCancelled?)
  }

  /** What any step may do to a record. */
  ghost predicate Extends(r: RunRecord, r': RunRecord) {
    && r'.id == r.id && r'.parent == r.parent && r.events <= r'.events
    && (IsTerminal(r.state) ==> r'.state == r.state && r'.events == r.events && r'.cancelled == r.cancelled)
  }

  /** The append after a state change never fails, so no state is left half written. */
  lemma AppendSucceeds(r: RunRecord, e: RunEvent)
    requires LogInv(r) && !IsTerminal(r.state) && !e.RunStarted?
    ensures forall s, c :: AppendEvent(r.(state := s, cancelled := c), e).Ok?
    ensures AppendEvent(r, e).Ok? && AppendEvent(r, e).value.1 == SequenceAt(|r.events|)
    ensures AppendEvent(r, e).value.0.events == r.events + [Envelope(SequenceAt(|r.events|), r.id, e)]
  {
  }

  lemma AppendKeeps(r: RunRecord, s: RunState, c: bool, e: RunEvent)
    requires LogInv(r) && !IsTerminal(r.state) && !e.RunStarted?
    requires TerminalState(e) == (if IsTerminal(s) then Some(s) else None) && (c <==> s.RunCancelled?)
    ensures var step := WriteAndAppend(r.(state := s, cancelled := c), e);
            && step.1 == Ok(SequenceAt(|r.events|)) && step.0.state == s && step.0.cancelled == c
            && step.0.events == r.events + [Envelope(SequenceAt(|r.events|), r.id, e)]
            && LogInv(step.0) && Extends(r, step.0)
  {
    var r' := WriteAndAppend(r.(state := s, cancelled := c), e).0;
    assert forall i :: 0 <= i < |r.events| ==> r'.events[i] == r.events[i];
  }

  lemma StepsKeepLog(r: RunRecord, s: RunState, e: RunEvent)
    requires LogInv(r)
    ensures LogInv(SetStateStep(r, s).0) && Extends(r, SetStateStep(r, s).0)
    ensures LogInv(EmitStep(r, e).0) && Extends(r, EmitStep(r, e).0)
    ensures FinishEvent(e) ==> LogInv(FinishStep(r, e).0) && Extends(r, FinishStep(r, e).0)
    ensures LogInv(CancelStep(r).0) && Extends(r, CancelStep(r).0)
    ensures LogInv(AddHookStep(r).0) && Extends(r, AddHookStep(r).0)
  {
    hide WriteAndAppend, LogInv;
    LogMeansToken(r);
    if !IsTerminal(r.state) {
      if !IsTerminal(s) { AppendKeeps(r, s, false, StateChanged(s)); }
      if TerminalState(e).None? && !e.RunStarted? { AppendKeeps(r, r.state, r.cancelled, e); }
      if FinishEvent(e) { AppendKeeps(r, TerminalState(e).value, false, e); }
      AppendKeeps(r, RunState.RunCancelled, true, CancelledEvent);
      HooksAreFree(WriteAndAppend(r.(state := RunState.RunCancelled, cancelled := true), CancelledEvent).0, r, 0);
    }
    HooksAreFree(r, r, r.hooks + 1);
  }

  lemma LogMeansToken(r: RunRecord)
    requires LogInv(r)
    ensures r.cancelled <==> r.state.RunCancelled?
  {
  }

  lemma HooksAreFree(r: RunRecord, r0: RunRecord, h: nat)
    ensures LogInv(r) <==> LogInv(r.(hooks := h))
    ensures Extends(r0, r) <==> Extends(r0, r.(hooks := h))
  {
  }

  /** When a step that could change the state succeeds, and what it leaves. */
  lemma StepAnswers(r: RunRecord, s: RunState, e: RunEvent)
    requires LogInv(r)
    ensures SetStateStep(r, s).1.Ok? <==> !IsTerminal(s) && !IsTerminal(r.state)
    ensures EmitStep(r, e).1.Ok? <==> TerminalState(e).None? && !e.RunStarted? && !IsTerminal(r.state)
    ensures FinishEvent(e) ==>
              && (FinishStep(r, e).1.Ok? <==> !IsTerminal(r.state))
              && IsTerminal(FinishStep(r, e).0.state)
              && (FinishStep(r, e).1.Ok? ==> FinishStep(r, e).0.state == TerminalState(e).value)
    ensures CancelStep(r).1.Ok? <==> !IsTerminal(r.state)
    ensures CancelStep(r).1.Ok? ==> CancelStep(r).0.state.RunCancelled? && CancelStep(r).0.hooks == 0
    ensures CancelStep(r).1.Err? ==> CancelStep(r).0 == r
  {
  }

  /** The one event each successful step appends, and the state it leaves. */
  lemma StepsAppend(r: RunRecord, s: RunState, e: RunEvent)
    requires LogInv(r) && !IsTerminal(r.state)
    ensures !IsTerminal(s) ==> Appended(r, SetStateStep(r, s).0, StateChanged(s), s)
    ensures TerminalState(e).None? && !e.RunStarted? ==> Appended(r, EmitStep(r, e).0, e, r.state)
    ensures FinishEvent(e) ==> Appended(r, FinishStep(r, e).0, e, TerminalState(e).value)
    ensures Appended(r, CancelStep(r).0, CancelledEvent, RunState.RunCancelled)
    ensures AddHookStep(r).0.events == r.events && AddHookStep(r).0.hooks == r.hooks + 1
  {
    hide WriteAndAppend, LogInv;
    LogMeansToken(r);
    if !IsTerminal(s) { AppendKeeps(r, s, false, StateChanged(s)); }
    if TerminalState(e).None? && !e.RunStarted? { AppendKeeps(r, r.state, r.cancelled, e); }
    if FinishEvent(e) { AppendKeeps(r, TerminalState(e).value, false, e); }
    AppendKeeps(r, RunState.RunCancelled, true, CancelledEvent);
  }

  /** The log got exactly this event, with the next number, and the record is in this state. */
  ghost predicate Appended(r: RunRecord, r': RunRecord, e: RunEvent, state: RunState) {
    && r'.events == r.events + [Envelope(SequenceAt(|r.events|), r.id, e)]
    && r'.state == state && r'.id == r.id && r'.parent == r.parent
    && (r'.cancelled <==> state.RunCancelled?)
  }

  /** How many terminal events a log holds. */
  function TerminalEvents(events: seq<Envelope>): nat {
    if events == [] then 0
    else TerminalEvents(events[..|events| - 1]) + (if TerminalState(events[|events| - 1].event).Some? then 1 else 0)
  }

  lemma {:induction false} NoTerminalEvents(events: seq<Envelope>)
    requires forall i :: 0 <= i < |events| ==> TerminalState(events[i].event).None?
    ensures TerminalEvents(events) == 0
  {
    if events != [] { NoTerminalEvents(events[..|events| - 1]); }
  }

  /** A finished run has exactly one terminal event, an unfinished one has none. */
  lemma OneTerminalEvent(r: RunRecord)
    requires LogInv(r)
    ensures TerminalEvents(r.events) == if IsTerminal(r.state) then 1 else 0
  {
    NoTerminalEvents(r.events[..|r.events| - 1]);
  }

  // ----------------------------------------------------------------- the table

  type Table = map<RunId, RunRecord>

  ghost predicate TableInv(t: Table) {
    forall id :: id in t ==> t[id].id == id && LogInv(t[id])
  }

  datatype TableCall =
    | StartRun(id: RunId, parent: Option<RunId>)
    | SetState(id: RunId, state: RunState)
    | Emit(id: RunId, event: RunEvent)
    | FinishRun(id: RunId, event: RunEvent)
    | CancelTheRun(id: RunId)
    | AddHook(id: RunId)

  /** Finishing is called for completion and failure only. */
  predicate WellFormed(c: TableCall) {
    c.FinishRun? ==> FinishEvent(c.event)
  }

  function ApplyTable(t: Table, c: TableCall): Table
    requires WellFormed(c)
  {
    if c.StartRun? then (if c.id in t then t else t[c.id := NewRun(c.id, c.parent)])
    else if c.id !in t then t
    else t[c.id := StepRecord(t[c.id], c)]
  }

  function StepRecord(r: RunRecord, c: TableCall): RunRecord
    requires WellFormed(c) && !c.StartRun?
  {
    match c
    case SetState(_, s) => SetStateStep(r, s).0
    case Emit(_, e) => EmitStep(r, e).0
    case FinishRun(_, e) => FinishStep(r, e).0
    case CancelTheRun(_) => CancelStep(r).0
    case AddHook(_) => AddHookStep(r).0
  }

  lemma StepRecordKeeps(r: RunRecord, c: TableCall)
    requires WellFormed(c) && !c.StartRun? && LogInv(r)
    ensures LogInv(StepRecord(r, c)) && Extends(r, StepRecord(r, c))
  {
    hide SetStateStep, EmitStep, FinishStep, CancelStep, AddHookStep, LogInv, Extends;
    StepsKeepLog(r, if c.SetState? then c.state else Running,
                 if c.Emit? || c.FinishRun? then c.event else CancelledEvent);
  }

  lemma TableStepKeeps(t: Table, c: TableCall)
    requires TableInv(t) && WellFormed(c)
    ensures TableInv(ApplyTable(t, c))
    ensures forall id :: id in t ==> id in ApplyTable(t, c) && Extends(t[id], ApplyTable(t, c)[id])
  {
    hide StepRecord, LogInv, NewRun, WellFormed;
    if c.StartRun? {
      NewRunKeeps(c.id, c.parent);
    } else if c.id in t {
      StepRecordKeeps(t[c.id], c);
    }
  }

  lemma NewRunKeeps(id: RunId, parent: Option<RunId>)
    ensures LogInv(NewRun(id, parent)) && NewRun(id, parent).id == id
  {
  }

  lemma ExtendsRefl(r: RunRecord)
    ensures Extends(r, r)
  {
  }

  lemma ExtendsTrans(a: RunRecord, b: RunRecord, c: RunRecord)
    requires Extends(a, b) && Extends(b, c)
    ensures Extends(a, c)
  {
  }

  function RunTableCalls(t: Table, calls: seq<TableCall>): Table
    requires forall i :: 0 <= i < |calls| ==> WellFormed(calls[i])
    decreases |calls|
  {
    if calls == [] then t else RunTableCalls(ApplyTable(t, calls[0]), calls[1..])
  }

  /**
   In every reachable table every log is well formed; logs only grow, and a
   terminal run never changes its state or its log again.
   */
  lemma {:induction false} ReachableTables(t: Table, calls: seq<TableCall>)
    requires TableInv(t) && forall i :: 0 <= i < |calls| ==> WellFormed(calls[i])
    ensures TableInv(RunTableCalls(t, calls))
    ensures forall id :: id in t ==> id in RunTableCalls(t, calls) && Extends(t[id], RunTableCalls(t, calls)[id])
    decreases |calls|
  {
    hide ApplyTable, TableInv, WellFormed, Extends;
    if calls == [] {
      forall id | id in t ensures Extends(t[id], t[id]) { ExtendsRefl(t[id]); }
    } else {
      var u := ApplyTable(t, calls[0]);
      TableStepKeeps(t, calls[0]);
      ReachableTables(u, calls[1..]);
      forall id | id in t ensures Extends(t[id], RunTableCalls(t, calls)[id]) {
        ExtendsTrans(t[id], u[id], RunTableCalls(t, calls)[id]);
      }
    }
  }
}
