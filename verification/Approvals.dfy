/**
 What every tool call did, told by an observer of the shared state: when its executor
 may start, what it logs, what it records and how its operation is settled.
 */
module Approvals {
  import opened Wrappers
  import opened Operations
  import opened RunLog
  import opened Protocol
  import opened RunProtocol

  /**
   The observer's note about one call of a batch: the policy's answer, how the
   executor ended, and the operations, starts, ledger entries and events that the
   call's own steps added to the shared state.
   */
  datatype Note = Note(answer: Option<Choice>, outcome: Option<Choice>, registered: set<OperationId>,
                       starts: multiset<InvocationId>, learned: set<InvocationId>, log: seq<RunEvent>)

  const BLANK: Note := Note(None, None, {}, multiset{}, {}, [])

  function EventsFrom(events: seq<Envelope>, n: nat): seq<RunEvent> {
    if n < |events| then seq(|events| - n, i requires 0 <= i < |events| - n => events[n + i].event) else []
  }

  /** The note after a step of the call; a cancellation can only be noticed once it is there. */
  function NoteStep(n: Note, pc: Pc, ch: Choice, sh: Shared, sh': Shared): Note {
    Note(if pc.Prepare? then Some(ch) else n.answer,
         if pc.Executing? && !(ch.NoticeCancellation? && !sh.record.cancelled) then Some(ch) else n.outcome,
         n.registered + (sh'.store.operations.Keys - sh.store.operations.Keys),
         n.starts + (sh'.starts - sh.starts),
         n.learned + (sh'.ledger - sh.ledger),
         n.log + EventsFrom(sh'.record.events, |sh.record.events|))
  }

  /** The notes about the calls of the current batch after an action. */
  function Noted(s: State, notes: seq<Note>, a: Action): seq<Note> {
    match a
    case LoopStep(_, _) =>
      var loop := Exec(s, a).loop;
      if loop.Batch? && !s.loop.Batch? then seq(|loop.workers|, _ => BLANK) else notes
    case Work(i, ch) =>
      if s.loop.Batch? && Active(s.loop.workers, s.loop.parallel, i) && i < |notes|
      then notes[i := NoteStep(notes[i], s.loop.workers[i].pc, ch, s.shared, Exec(s, a).shared)]
      else notes
    case _ => notes
  }

  function NotesAfter(s: State, notes: seq<Note>, actions: seq<Action>): seq<Note>
    decreases |actions|
  {
    if actions == [] then notes else NotesAfter(Exec(s, actions[0]), Noted(s, notes, actions[0]), actions[1..])
  }

  // ------------------------------------------------------------ what a note may say

  /** The host said yes: an approval is stored, or the commit was begun. */
  predicate Consented(r: Record) {
    if r.operation.mode.BlockingApproval? then r.decision.Some? && r.decision.value.Approve?
    else r.state.Committing? || r.state.Committed? || r.state.Failed?
  }

  /** The policy answered neither with a refusal nor with a question. */
  predicate Allows(answer: Choice) { !answer.Fail? && !answer.Validate? && !answer.Deny? && !answer.Ask? }

  /** The executor returned a result. */
  predicate Succeeded(n: Note) {
    n.outcome.Some? && !n.outcome.value.Fail? && !n.outcome.value.NoticeCancellation?
  }

  /** The policy asked, and `op` is the operation registered for it. */
  predicate AskedFor(run: RunId, s: Store, n: Note, op: OperationId) {
    && n.answer.Some? && n.answer.value.Ask? && n.registered == {op}
    && op in s.operations && s.operations[op].operation == Operation(op, run, n.answer.value.mode, n.answer.value.deadline)
  }

  /** The call may run: the policy allowed it, or it asked and the host consented. */
  predicate Permitted(run: RunId, s: Store, n: Note, a: Approval) {
    match a
    case Unasked => n.answer.Some? && Allows(n.answer.value) && n.registered == {}
    case Approval(op, mode) => AskedFor(run, s, n, op) && n.answer.value.mode == mode && Consented(s.operations[op])
  }

  function AskLog(op: OperationId): seq<RunEvent> {
    [StateChanged(AwaitingOperation), OperationRequested(op), StateChanged(Running)]
  }

  /** What is logged before the executor is announced. */
  function Prelude(a: Approval): seq<RunEvent> {
    if a.Unasked? then [] else AskLog(a.op)
  }

  predicate Settled(s: Store, a: Approval) {
    a.Approval? ==> a.op in s.operations && s.operations[a.op].state.Committed?
  }

  /** The executor ran to its result, which is settled; `log` is what was logged after the prelude. */
  ghost predicate RanWell(run: RunId, s: Store, call: InvocationId, n: Note, log: seq<RunEvent>) {
    && n.starts == multiset{call} && Succeeded(n) && n.learned <= {call}
    && exists a :: Permitted(run, s, n, a) && Settled(s, a) && n.log == Prelude(a) + log
  }

  /** The host refused, and nothing ran. */
  ghost predicate WasRejected(run: RunId, s: Store, n: Note) {
    && Idle(n)
    && exists op :: AskedFor(run, s, n, op) && s.operations[op].state.Rejected? && n.log == AskLog(op)
  }

  predicate Idle(n: Note) { n.outcome.None? && n.starts == multiset{} && n.learned == {} }

  /**
   All a call that returns a result can have done: nothing, because the ledger knew it
   or the policy denied it; a failed validation that was logged; a rejected
   operation; or a run of its executor to a recorded result.
   */
  ghost predicate EndedWell(run: RunId, sh: Shared, call: InvocationId, n: Note) {
    || (n == BLANK && call in sh.ledger)
    || n == BLANK.(answer := Some(Deny))
    || n == BLANK.(answer := Some(Validate), log := [ToolStarted(call), ToolFinished(call)])
    || WasRejected(run, sh.store, n)
    || (RanWell(run, sh.store, call, n, [ToolStarted(call), ToolFinished(call)]) && call in sh.ledger)
  }

  /**
   What holds of a call at any moment: it was started at most once, after its start
   was announced and with permission, entered the ledger only with a result, and
   logged a beginning of its script.
   */
  ghost predicate Sound(run: RunId, sh: Shared, call: InvocationId, n: Note) {
    && (n.starts == multiset{} || (n.starts == multiset{call} && ToolStarted(call) in n.log && exists a :: Permitted(run, sh.store, n, a)))
    && (n.learned != {} ==> exists log :: RanWell(run, sh.store, call, n, log))
    && (n.registered == {} || exists op :: AskedFor(run, sh.store, n, op))
    && OnScript(call, n)
  }

  ghost predicate OnScript(call: InvocationId, n: Note) {
    exists a: Approval :: n.log <= Prelude(a) + Script(call) && (a.Approval? ==> n.registered == {a.op})
  }

  // ----------------------------------------------------- what each place may rely on

  predicate Undecided(run: RunId, s: Store, n: Note, op: OperationId, mode: OperationMode, logged: nat)
    requires logged <= 3
  {
    AskedFor(run, s, n, op) && n.answer.value.mode == mode && Idle(n) && n.log == AskLog(op)[..logged]
  }

  predicate MayRun(run: RunId, s: Store, n: Note, a: Approval, log: seq<RunEvent>) {
    Permitted(run, s, n, a) && n.learned == {} && n.log == Prelude(a) + log
  }

  ghost predicate PcNote(run: RunId, sh: Shared, call: InvocationId, pc: Pc, n: Note) {
    match pc
    case Consume => n == BLANK
    case CheckLedger => n == BLANK
    case Prepare => n == BLANK
    case ValidationStarted => n == BLANK.(answer := Some(Validate))
    case ValidationFinished => n == BLANK.(answer := Some(Validate), log := [ToolStarted(call)])
    case RegisterOp(mode, deadline) => n == BLANK.(answer := Some(Ask(mode, deadline)))
    case AwaitState(op, mode) => Undecided(run, sh.store, n, op, mode, 0)
    case Announce(op, mode) => Undecided(run, sh.store, n, op, mode, 1)
    case Wait(op, mode) => Undecided(run, sh.store, n, op, mode, 2)
    case ResumeApproved(op, mode) => Undecided(run, sh.store, n, op, mode, 2) && Consented(sh.store.operations[op])
    case ResumeRejected => exists op, mode :: Undecided(run, sh.store, n, op, mode, 2) && sh.store.operations[op].state.Rejected?
    case AnnounceStart(a) => MayRun(run, sh.store, n, a, []) && Idle(n)
    case Select(a) => MayRun(run, sh.store, n, a, [ToolStarted(call)]) && Idle(n)
    case Executing(a) => MayRun(run, sh.store, n, a, [ToolStarted(call)]) && n.starts == multiset{call} && n.outcome.None?
    case SettleFailure(a) =>
      MayRun(run, sh.store, n, a, [ToolStarted(call)]) && !Succeeded(n) && ((n.starts == multiset{call} && n.outcome.Some?) || (Idle(n) && sh.record.cancelled))
    case SettleSuccess(a) => MayRun(run, sh.store, n, a, [ToolStarted(call)]) && Succeeded(n) && n.starts == multiset{call}
    case RecordResult => RanWell(run, sh.store, call, n, [ToolStarted(call)]) && n.learned == {}
    case AnnounceFinish => RanWell(run, sh.store, call, n, [ToolStarted(call)]) && call in sh.ledger
    case Returned(ok) => Sound(run, sh, call, n) && (ok ==> EndedWell(run, sh, call, n))
  }

  function Script(call: InvocationId): seq<RunEvent> { [ToolStarted(call), ToolFinished(call)] }

  lemma UndecidedScript(run: RunId, s: Store, call: InvocationId, n: Note, op: OperationId, mode: OperationMode, k: nat)
    requires k <= 3 && Undecided(run, s, n, op, mode, k)
    ensures OnScript(call, n)
  {
    var a := Approval(op, mode);
    assert n.log <= Prelude(a) + Script(call);
  }

  lemma RunScript(run: RunId, s: Store, call: InvocationId, n: Note, a: Approval, k: nat)
    requires k <= 2 && Permitted(run, s, n, a) && n.log == Prelude(a) + Script(call)[..k]
    ensures OnScript(call, n) && (n.registered == {} || exists op :: AskedFor(run, s, n, op))
    ensures k > 0 ==> ToolStarted(call) in n.log
  {
    hide Prelude;
    assert n.log <= Prelude(a) + Script(call);
    if k > 0 { assert n.log[|Prelude(a)|] == ToolStarted(call); }
  }

  lemma RanScript(run: RunId, s: Store, call: InvocationId, n: Note, k: nat)
    requires 0 < k <= 2 && RanWell(run, s, call, n, Script(call)[..k])
    ensures OnScript(call, n) && (n.registered == {} || exists op :: AskedFor(run, s, n, op)) && ToolStarted(call) in n.log
  {
    hide Prelude, Permitted, AskedFor, Settled;
    var a :| Permitted(run, s, n, a) && Settled(s, a) && n.log == Prelude(a) + Script(call)[..k];
    RunScript(run, s, call, n, a, k);
  }

  lemma BlankScript(call: InvocationId, n: Note)
    requires n.log <= Script(call)
    ensures OnScript(call, n)
  {
    assert n.log <= Prelude(Unasked) + Script(call);
  }

  lemma PcSound(run: RunId, sh: Shared, call: InvocationId, pc: Pc, n: Note)
    requires PcNote(run, sh, call, pc, n)
    ensures Sound(run, sh, call, n)
  {
    hide Prelude, OnScript, Settled;
    assert Script(call)[..0] == [] && Script(call)[..1] == [ToolStarted(call)] && Script(call)[..2] == Script(call);
    match pc
    case AwaitState(op, mode) => UndecidedScript(run, sh.store, call, n, op, mode, 0);
    case Announce(op, mode) => UndecidedScript(run, sh.store, call, n, op, mode, 1);
    case Wait(op, mode) => UndecidedScript(run, sh.store, call, n, op, mode, 2);
    case ResumeApproved(op, mode) => UndecidedScript(run, sh.store, call, n, op, mode, 2);
    case ResumeRejected =>
      var op, mode :| Undecided(run, sh.store, n, op, mode, 2) && sh.store.operations[op].state.Rejected?;
      UndecidedScript(run, sh.store, call, n, op, mode, 2);
    case AnnounceStart(a) => RunScript(run, sh.store, call, n, a, 0);
    case Select(a) => RunScript(run, sh.store, call, n, a, 1);
    case Executing(a) => RunScript(run, sh.store, call, n, a, 1);
    case SettleFailure(a) => RunScript(run, sh.store, call, n, a, 1);
    case SettleSuccess(a) => RunScript(run, sh.store, call, n, a, 1);
    case RecordResult => RanScript(run, sh.store, call, n, 1);
    case AnnounceFinish => RanScript(run, sh.store, call, n, 1);
    case Returned(_) =>
    case _ => BlankScript(call, n);
  }

  // ------------------------------------------------------- the steps of other parties

  /** Consent is never taken back, and rejection and commitment are final. */
  lemma ConsentStays(r: Record, r': Record)
    requires Advances(r, r')
    ensures Consented(r) ==> Consented(r')
    ensures r.state.Rejected? || r.state.Committed? ==> r' == r
  {
  }

  lemma OperationStays(run: RunId, sh: Shared, sh': Shared, n: Note, op: OperationId)
    requires Moves(sh, sh') && AskedFor(run, sh.store, n, op)
    ensures AskedFor(run, sh'.store, n, op)
    ensures Consented(sh.store.operations[op]) ==> Consented(sh'.store.operations[op])
    ensures sh.store.operations[op].state.Rejected? || sh.store.operations[op].state.Committed? ==>
              sh'.store.operations[op] == sh.store.operations[op]
  {
    hide Extends, Consented;
    ConsentStays(sh.store.operations[op], sh'.store.operations[op]);
  }

  lemma PermissionStays(run: RunId, sh: Shared, sh': Shared, n: Note, a: Approval)
    requires Moves(sh, sh') && Permitted(run, sh.store, n, a)
    ensures Permitted(run, sh'.store, n, a) && (Settled(sh.store, a) ==> Settled(sh'.store, a))
  {
    hide Moves, Consented;
    if a.Approval? { OperationStays(run, sh, sh', n, a.op); }
  }

  lemma RanWellStays(run: RunId, sh: Shared, sh': Shared, call: InvocationId, n: Note, log: seq<RunEvent>)
    requires Moves(sh, sh') && RanWell(run, sh.store, call, n, log)
    ensures RanWell(run, sh'.store, call, n, log)
  {
    hide Moves, Permitted, Settled, Prelude;
    var a :| Permitted(run, sh.store, n, a) && Settled(sh.store, a) && n.log == Prelude(a) + log;
    PermissionStays(run, sh, sh', n, a);
  }

  lemma SoundStays(run: RunId, sh: Shared, sh': Shared, call: InvocationId, n: Note)
    requires Moves(sh, sh') && Sound(run, sh, call, n)
    ensures Sound(run, sh', call, n)
  {
    hide Moves, Permitted, AskedFor, RanWell, OnScript;
    if n.starts != multiset{} {
      var a :| Permitted(run, sh.store, n, a);
      PermissionStays(run, sh, sh', n, a);
    }
    if n.learned != {} {
      var log :| RanWell(run, sh.store, call, n, log);
      RanWellStays(run, sh, sh', call, n, log);
    }
    if n.registered != {} {
      var op :| AskedFor(run, sh.store, n, op);
      OperationStays(run, sh, sh', n, op);
    }
  }

  lemma EndedWellStays(run: RunId, sh: Shared, sh': Shared, call: InvocationId, n: Note)
    requires Moves(sh, sh') && EndedWell(run, sh, call, n)
    ensures EndedWell(run, sh', call, n)
  {
    hide RanWell, Consented, Advances, Extends;
    if WasRejected(run, sh.store, n) {
      var op :| AskedFor(run, sh.store, n, op) && sh.store.operations[op].state.Rejected? && n.log == AskLog(op);
      OperationStays(run, sh, sh', n, op);
    } else if RanWell(run, sh.store, call, n, [ToolStarted(call), ToolFinished(call)]) {
      RanWellStays(run, sh, sh', call, n, [ToolStarted(call), ToolFinished(call)]);
    }
  }

  lemma CancelledStays(run: RunId, sh: Shared, sh': Shared)
    requires SharedInv(run, sh) && Moves(sh, sh') && sh.record.cancelled
    ensures sh'.record.cancelled
  {
    LogMeansToken(sh.record);
  }

  /** What is noted of a call survives the steps of everyone else. */
  lemma PcNoteStays(run: RunId, sh: Shared, sh': Shared, call: InvocationId, pc: Pc, n: Note)
    requires SharedInv(run, sh) && Moves(sh, sh') && PcNote(run, sh, call, pc, n)
    ensures PcNote(run, sh', call, pc, n)
  {
    hide Advances, StoreInv, SharedInv, Extends, Consented, Prelude, AskLog, RanWell, Sound, EndedWell;
    match pc
    case AwaitState(op, _) => OperationStays(run, sh, sh', n, op);
    case Announce(op, _) => OperationStays(run, sh, sh', n, op);
    case Wait(op, _) => OperationStays(run, sh, sh', n, op);
    case ResumeApproved(op, _) => OperationStays(run, sh, sh', n, op);
    case ResumeRejected =>
      var op, mode :| Undecided(run, sh.store, n, op, mode, 2) && sh.store.operations[op].state.Rejected?;
      OperationStays(run, sh, sh', n, op);
      assert Undecided(run, sh'.store, n, op, mode, 2);
    case AnnounceStart(a) => PermissionStays(run, sh, sh', n, a);
    case Select(a) => PermissionStays(run, sh, sh', n, a);
    case Executing(a) => PermissionStays(run, sh, sh', n, a);
    case SettleFailure(a) =>
      PermissionStays(run, sh, sh', n, a);
      if sh.record.cancelled { CancelledStays(run, sh, sh'); }
    case SettleSuccess(a) => PermissionStays(run, sh, sh', n, a);
    case RecordResult => RanWellStays(run, sh, sh', call, n, [ToolStarted(call)]);
    case AnnounceFinish => RanWellStays(run, sh, sh', call, n, [ToolStarted(call)]);
    case Returned(ok) =>
      SoundStays(run, sh, sh', call, n);
      if ok { EndedWellStays(run, sh, sh', call, n); }
    case _ =>
  }

  // ------------------------------------------------------------- the call's own steps

  /** The event a logging place appends. */
  function LogEvent(call: InvocationId, pc: Pc): RunEvent
    requires Logs(pc)
  {
    match pc
    case ValidationStarted => ToolStarted(call)
    case ValidationFinished => ToolFinished(call)
    case AwaitState(_, _) => StateChanged(AwaitingOperation)
    case Announce(op, _) => OperationRequested(op)
    case ResumeApproved(_, _) => StateChanged(Running)
    case ResumeRejected => StateChanged(Running)
    case AnnounceStart(_) => ToolStarted(call)
    case AnnounceFinish => ToolFinished(call)
  }

  lemma {:induction false} NoEvents(events: seq<Envelope>)
    ensures EventsFrom(events, |events|) == []
  {
  }

  lemma {:induction false} OneEvent(events: seq<Envelope>, e: Envelope)
    ensures EventsFrom(events + [e], |events|) == [e.event]
  {
  }

  /** A step that leaves ledger, starts and operations alone. */
  lemma PlainNote(n: Note, pc: Pc, ch: Choice, sh: Shared, sh': Shared)
    requires !pc.Prepare? && !pc.Executing?
    requires sh'.store.operations.Keys == sh.store.operations.Keys && sh'.starts == sh.starts && sh'.ledger == sh.ledger
    ensures NoteStep(n, pc, ch, sh, sh') == n.(log := n.log + EventsFrom(sh'.record.events, |sh.record.events|))
  {
    hide EventsFrom;
  }

  lemma LogNote(run: RunId, sh: Shared, call: InvocationId, pc: Pc, ch: Choice, n: Note)
    requires SharedInv(run, sh) && PcInv(run, sh.store, pc) && Logs(pc)
    ensures var sh' := WorkerStep(run, sh, call, pc, ch).0;
            && NoteStep(n, pc, ch, sh, sh') == (if IsTerminal(sh.record.state) then n else n.(log := n.log + [LogEvent(call, pc)]))
            && sh'.store == sh.store && sh'.ledger == sh.ledger
  {
    hide LogInv, PcInv, NoteStep, EventsFrom, SetStateStep, EmitStep, StoreInv;
    var sh' := WorkerStep(run, sh, call, pc, ch).0;
    var r, e := sh.record, LogEvent(call, pc);
    LogWorker(run, sh, call, pc, ch);
    PlainNote(n, pc, ch, sh, sh');
    var s := if pc.AwaitState? then AwaitingOperation else Running;
    if IsTerminal(r.state) {
      RefusedSteps(r, s, e);
      NoEvents(r.events);
      assert n.log + [] == n.log;
    } else {
      StepsAppend(r, s, e);
      OneEvent(r.events, Envelope(SequenceAt(|r.events|), r.id, e));
    }
  }

  lemma RefusedSteps(r: RunRecord, s: RunState, e: RunEvent)
    requires IsTerminal(r.state)
    ensures SetStateStep(r, s).0 == r && EmitStep(r, e).0 == r
  {
  }

  lemma LogKeeps(run: RunId, sh: Shared, call: InvocationId, pc: Pc, ch: Choice, n: Note)
    requires SharedInv(run, sh) && PcInv(run, sh.store, pc) && PcNote(run, sh, call, pc, n) && Logs(pc)
    ensures var (sh', pc') := WorkerStep(run, sh, call, pc, ch);
            PcNote(run, sh', call, pc', NoteStep(n, pc, ch, sh, sh'))
  {
    hide SharedInv, PcInv, NoteStep, WorkerStep, Consented, PcNote;
    var (sh', pc') := WorkerStep(run, sh, call, pc, ch);
    LogWorker(run, sh, call, pc, ch);
    LogNote(run, sh, call, pc, ch, n);
    if IsTerminal(sh.record.state) {
      PcSound(run, sh, call, pc, n);
      SameSound(run, sh, sh', call, n);
    } else {
      LogAdvances(run, sh, sh', call, pc, n);
    }
  }

  lemma SameSound(run: RunId, sh: Shared, sh': Shared, call: InvocationId, n: Note)
    requires sh'.store == sh.store && Sound(run, sh, call, n)
    ensures PcNote(run, sh', call, Returned(false), n)
  {
    hide Permitted, RanWell, AskedFor, OnScript;
  }

  lemma LogAdvances(run: RunId, sh: Shared, sh': Shared, call: InvocationId, pc: Pc, n: Note)
    requires Logs(pc) && PcNote(run, sh, call, pc, n) && sh'.store == sh.store && sh'.ledger == sh.ledger
    ensures PcNote(run, sh', call, AfterLog(pc), n.(log := n.log + [LogEvent(call, pc)]))
  {
    hide Consented;
    var n' := n.(log := n.log + [LogEvent(call, pc)]);
    match pc
    case AwaitState(op, mode) => assert AskLog(op)[..0] + [LogEvent(call, pc)] == AskLog(op)[..1];
    case Announce(op, mode) => assert AskLog(op)[..1] + [LogEvent(call, pc)] == AskLog(op)[..2];
    case ResumeApproved(op, mode) =>
      assert AskLog(op)[..2] + [LogEvent(call, pc)] == Prelude(Approval(op, mode)) + [];
    case ResumeRejected => RejectedEnds(run, sh', call, n, n');
    case AnnounceStart(a) => assert Prelude(a) + [] + [LogEvent(call, pc)] == Prelude(a) + [ToolStarted(call)];
    case ValidationFinished =>
      assert n'.log == Script(call);
      BlankScript(call, n');
    case AnnounceFinish => ExecutedEnds(run, sh', call, n, n');
    case _ =>
  }

  lemma RejectedEnds(run: RunId, sh: Shared, call: InvocationId, n: Note, n': Note)
    requires exists op, mode :: Undecided(run, sh.store, n, op, mode, 2) && sh.store.operations[op].state.Rejected?
    requires n' == n.(log := n.log + [StateChanged(Running)])
    ensures PcNote(run, sh, call, Returned(true), n')
  {
    hide Consented, Permitted, RanWell;
    var op, mode :| Undecided(run, sh.store, n, op, mode, 2) && sh.store.operations[op].state.Rejected?;
    assert AskLog(op)[..2] + [StateChanged(Running)] == AskLog(op) == AskLog(op)[..3];
    assert AskedFor(run, sh.store, n', op);
    UndecidedScript(run, sh.store, call, n', op, mode, 3);
  }

  lemma ExecutedEnds(run: RunId, sh: Shared, call: InvocationId, n: Note, n': Note)
    requires RanWell(run, sh.store, call, n, [ToolStarted(call)]) && call in sh.ledger
    requires n' == n.(log := n.log + [ToolFinished(call)])
    ensures PcNote(run, sh, call, Returned(true), n')
  {
    hide Consented, Prelude, OnScript, WasRejected;
    var a :| Permitted(run, sh.store, n, a) && Settled(sh.store, a) && n.log == Prelude(a) + [ToolStarted(call)];
    assert n'.log == Prelude(a) + Script(call);
    assert Permitted(run, sh.store, n', a);
    assert Script(call)[..2] == Script(call);
    assert RanWell(run, sh.store, call, n', Script(call));
    RanScript(run, sh.store, call, n', 2);
  }

  /** Places that neither log nor go through the store. */
  predicate Silent(pc: Pc) {
    pc.Consume? || pc.CheckLedger? || pc.Prepare? || pc.Select? || pc.Executing? || pc.RecordResult? || pc.Returned?
  }

  /** What such a step changes. */
  lemma SilentChange(run: RunId, sh: Shared, call: InvocationId, pc: Pc, ch: Choice)
    requires Silent(pc)
    ensures WorkerStep(run, sh, call, pc, ch).0
         == if pc.RecordResult? then sh.(ledger := sh.ledger + {call})
            else if pc.Select? && !ch.NoticeCancellation? then sh.(starts := sh.starts + multiset{call}) else sh
  {
  }

  lemma SilentNote(run: RunId, sh: Shared, call: InvocationId, pc: Pc, ch: Choice, n: Note)
    requires Silent(pc)
    ensures var sh' := WorkerStep(run, sh, call, pc, ch).0;
            NoteStep(n, pc, ch, sh, sh') ==
              match pc
              case Prepare => n.(answer := Some(ch))
              case Select(_) => if ch.NoticeCancellation? then n else n.(starts := n.starts + multiset{call})
              case Executing(_) => if ch.NoticeCancellation? && !sh.record.cancelled then n else n.(outcome := Some(ch))
              case RecordResult => n.(learned := n.learned + ({call} - sh.ledger))
              case _ => n
  {
    hide EventsFrom, WorkerStep;
    SilentChange(run, sh, call, pc, ch);
    NoEvents(sh.record.events);
    assert n.log + [] == n.log && n.registered + {} == n.registered;
    assert n.starts + multiset{} == n.starts && n.learned + {} == n.learned;
    assert (sh.starts + multiset{call}) - sh.starts == multiset{call} && sh.starts - sh.starts == multiset{} && sh.ledger - sh.ledger == {};
    assert (sh.ledger + {call}) - sh.ledger == {call} - sh.ledger;
  }

  lemma SilentKeeps(run: RunId, sh: Shared, call: InvocationId, pc: Pc, ch: Choice, n: Note)
    requires Silent(pc) && PcNote(run, sh, call, pc, n)
    ensures var (sh', pc') := WorkerStep(run, sh, call, pc, ch);
            PcNote(run, sh', call, pc', NoteStep(n, pc, ch, sh, sh'))
  {
    hide NoteStep, AskedFor, Consented, Prelude, PcNote, Sound, WorkerStep;
    var sh' := WorkerStep(run, sh, call, pc, ch).0;
    SilentChange(run, sh, call, pc, ch);
    SilentNote(run, sh, call, pc, ch, n);
    match pc
    case Prepare => PrepareKeeps(run, sh, call, ch, n);
    case Select(a) => SelectKeeps(run, sh, sh', call, a, ch, n);
    case Executing(a) => ExecutingKeeps(run, sh, call, a, ch, n);
    case RecordResult => ResultKept(run, sh, sh', call, n);
    case _ => EarlyKeeps(run, sh, call, pc, ch, n);
  }

  /** Places before the policy is asked, and the end, change nothing. */
  lemma EarlyKeeps(run: RunId, sh: Shared, call: InvocationId, pc: Pc, ch: Choice, n: Note)
    requires (pc.Consume? || pc.CheckLedger? || pc.Returned?) && PcNote(run, sh, call, pc, n)
    ensures PcNote(run, sh, call, WorkerStep(run, sh, call, pc, ch).1, n)
  {
    PcSound(run, sh, call, pc, n);
  }

  lemma SelectKeeps(run: RunId, sh: Shared, sh': Shared, call: InvocationId, a: Approval, ch: Choice, n: Note)
    requires PcNote(run, sh, call, Select(a), n) && sh'.store == sh.store && sh'.record == sh.record
    ensures PcNote(run, sh', call, WorkerStep(run, sh, call, Select(a), ch).1,
                   if ch.NoticeCancellation? then n else n.(starts := n.starts + multiset{call}))
  {
    hide Prelude, Consented;
  }

  lemma ExecutingKeeps(run: RunId, sh: Shared, call: InvocationId, a: Approval, ch: Choice, n: Note)
    requires PcNote(run, sh, call, Executing(a), n)
    ensures PcNote(run, sh, call, WorkerStep(run, sh, call, Executing(a), ch).1,
                   if ch.NoticeCancellation? && !sh.record.cancelled then n else n.(outcome := Some(ch)))
  {
    hide Prelude, Consented;
  }

  lemma PrepareKeeps(run: RunId, sh: Shared, call: InvocationId, ch: Choice, n: Note)
    requires PcNote(run, sh, call, Prepare, n)
    ensures PcNote(run, sh, call, WorkerStep(run, sh, call, Prepare, ch).1, n.(answer := Some(ch)))
  {
    BlankScript(call, n.(answer := Some(ch)));
    if Allows(ch) { assert Prelude(Unasked) + [] == []; }
  }

  lemma ResultKept(run: RunId, sh: Shared, sh': Shared, call: InvocationId, n: Note)
    requires PcNote(run, sh, call, RecordResult, n) && sh'.store == sh.store && call in sh'.ledger
    ensures PcNote(run, sh', call, AnnounceFinish, n.(learned := n.learned + ({call} - sh.ledger)))
    ensures forall ch :: WorkerStep(run, sh, call, RecordResult, ch).1 == AnnounceFinish
  {
    hide Prelude, Consented;
    var n' := n.(learned := n.learned + ({call} - sh.ledger));
    var a :| Permitted(run, sh.store, n, a) && Settled(sh.store, a) && n.log == Prelude(a) + [ToolStarted(call)];
    assert Permitted(run, sh.store, n', a);
  }

  /** Places whose step goes through the store leave everything else alone. */
  lemma StoreNote(run: RunId, sh: Shared, call: InvocationId, pc: Pc, ch: Choice, n: Note)
    requires pc.RegisterOp? || pc.Wait? || pc.SettleFailure? || pc.SettleSuccess?
    ensures var sh' := WorkerStep(run, sh, call, pc, ch).0;
            && sh' == sh.(store := sh'.store)
            && NoteStep(n, pc, ch, sh, sh') == n.(registered := n.registered + (sh'.store.operations.Keys - sh.store.operations.Keys))
  {
    hide EventsFrom, Apply, Refusal, Poll;
    NoEvents(sh.record.events);
    assert n.log + [] == n.log;
  }

  lemma RegisterKeeps(run: RunId, sh: Shared, call: InvocationId, pc: Pc, ch: Choice, n: Note)
    requires pc.RegisterOp? && PcNote(run, sh, call, pc, n)
    ensures var (sh', pc') := WorkerStep(run, sh, call, pc, ch);
            PcNote(run, sh', call, pc', NoteStep(n, pc, ch, sh, sh'))
  {
    hide NoteStep;
    StoreNote(run, sh, call, pc, ch, n);
    PcSound(run, sh, call, pc, n);
    assert n.registered + {} == n.registered;
    if ch.Identify? {
      var op := Operation(ch.id, run, pc.mode, pc.deadline);
      assert AskLog(ch.id)[..0] == [];
      if Refusal(sh.store, Register(op, ch.now)).None? {
        assert Apply(sh.store, Register(op, ch.now)).operations.Keys - sh.store.operations.Keys == {ch.id};
      }
    }
  }

  lemma WaitKeeps(run: RunId, sh: Shared, call: InvocationId, pc: Pc, ch: Choice, n: Note)
    requires SharedInv(run, sh) && pc.Wait? && PcNote(run, sh, call, pc, n)
    ensures var (sh', pc') := WorkerStep(run, sh, call, pc, ch);
            PcNote(run, sh', call, pc', NoteStep(n, pc, ch, sh, sh'))
  {
    hide NoteStep, LogInv, Poll, Sound;
    StoreNote(run, sh, call, pc, ch, n);
    assert sh.store.operations.Keys - sh.store.operations.Keys == {} && n.registered + {} == n.registered;
    PcSound(run, sh, call, pc, n);
    PollMeaning(sh.store, run, pc.op);
    assert Disciplined(sh.store.operations[pc.op]);
    assert Undecided(run, sh.store, n, pc.op, pc.mode, 2);
  }

  lemma SettleKeeps(run: RunId, sh: Shared, call: InvocationId, pc: Pc, ch: Choice, n: Note)
    requires SharedInv(run, sh) && PcInv(run, sh.store, pc) && (pc.SettleFailure? || pc.SettleSuccess?) && PcNote(run, sh, call, pc, n)
    ensures var (sh', pc') := WorkerStep(run, sh, call, pc, ch);
            PcNote(run, sh', call, pc', NoteStep(n, pc, ch, sh, sh'))
  {
    hide NoteStep, LogInv, Sound, StoreInv, Apply, Refusal, Prelude, Consented, Moves;
    var (sh', pc') := WorkerStep(run, sh, call, pc, ch);
    StoreNote(run, sh, call, pc, ch, n);
    PcSound(run, sh, call, pc, n);
    var a := pc.approval;
    MovesRefl(sh);
    if a.Approval? {
      var effect := if pc.SettleSuccess? then Done else Broken("");
      SettleStep(run, sh, a, effect);
      FinishAddsNothing(sh.store, FinishCall(run, a, effect));
      if pc.SettleSuccess? && pc' == RecordResult { SettledByDone(run, sh.store, a); }
    }
    assert sh'.store.operations.Keys - sh.store.operations.Keys == {} && n.registered + {} == n.registered;
    SoundStays(run, sh, sh', call, n);
    PermissionStays(run, sh, sh', n, a);
  }

  /** An effect that succeeded commits the operation. */
  lemma SettledByDone(run: RunId, s: Store, a: Approval)
    requires a.Approval? && Refusal(s, FinishCall(run, a, Done)).None?
    ensures Settled(Apply(s, FinishCall(run, a, Done)), a)
  {
  }

  /** Every step of a call keeps what is noted of it. */
  lemma NoteKeeps(run: RunId, sh: Shared, call: InvocationId, pc: Pc, ch: Choice, n: Note)
    requires SharedInv(run, sh) && PcInv(run, sh.store, pc) && PcNote(run, sh, call, pc, n)
    ensures var (sh', pc') := WorkerStep(run, sh, call, pc, ch);
            PcNote(run, sh', call, pc', NoteStep(n, pc, ch, sh, sh'))
  {
    hide SharedInv, PcInv, PcNote, NoteStep, WorkerStep;
    if Logs(pc) {
      LogKeeps(run, sh, call, pc, ch, n);
    } else if Silent(pc) {
      SilentKeeps(run, sh, call, pc, ch, n);
    } else if pc.RegisterOp? {
      RegisterKeeps(run, sh, call, pc, ch, n);
    } else if pc.Wait? {
      WaitKeeps(run, sh, call, pc, ch, n);
    } else {
      SettleKeeps(run, sh, call, pc, ch, n);
    }
  }

  // ---------------------------------------------------------------------- whole runs

  /** The notes fit the calls of the batch. */
  ghost predicate BatchNotes(s: State, notes: seq<Note>) {
    s.loop.Batch? ==>
      && |notes| == |s.loop.workers|
      && forall i :: 0 <= i < |notes| ==> PcNote(s.run, s.shared, s.loop.workers[i].call, s.loop.workers[i].pc, notes[i])
  }

  /** Every atomic step only moves the shared state forward. */
  lemma ExecMoves(s: State, a: Action)
    requires Inv(s)
    ensures Moves(s.shared, Exec(s, a).shared)
  {
    hide LogInv, StoreInv, Apply, EmitStep, SetStateStep, CancelStep, FinishStep, WorkerStep, PcInv, Owned, InOrder, Unfinished, Moves;
    var sh := s.shared;
    MovesRefl(sh);
    match a
    case HostCall(c) => StoreStep(s.run, sh, c);
    case HostEmit(e) => RecordMoves(s, EmitStep(sh.record, e).0, Running, e);
    case HostSetState(st) => RecordMoves(s, SetStateStep(sh.record, st).0, st, CancelledEvent);
    case CancelBegin => RecordMoves(s, CancelStep(sh.record).0, Running, CancelledEvent);
    case CancelOps => StoreStep(s.run, sh, CancelRun(s.run));
    case Work(i, ch) =>
      if s.loop.Batch? && Active(s.loop.workers, s.loop.parallel, i) {
        WorkerKeeps(s.run, sh, s.loop.workers[i].call, s.loop.workers[i].pc, ch);
      }
    case Finisher(_, _, _) =>
      if s.finish.EndRun? { RecordMoves(s, FinishStep(sh.record, s.finish.event).0, Running, s.finish.event); }
      StoreStep(s.run, sh, CancelRun(s.run));
    case _ =>
  }

  lemma RecordMoves(s: State, r: RunRecord, st: RunState, e: RunEvent)
    requires Inv(s)
    requires || r == EmitStep(s.shared.record, e).0 || r == SetStateStep(s.shared.record, st).0 || r == CancelStep(s.shared.record).0
             || (FinishEvent(e) && r == FinishStep(s.shared.record, e).0)
    ensures Moves(s.shared, s.shared.(record := r))
  {
    hide LogInv, EmitStep, SetStateStep, CancelStep, FinishStep, Owned, BatchInv, InOrder, FinishInv;
    StepsKeepLog(s.shared.record, st, e);
    RecordMove(s.run, s.shared, r);
  }

  lemma NotedKeeps(s: State, notes: seq<Note>, a: Action)
    requires Inv(s) && BatchNotes(s, notes)
    ensures BatchNotes(Exec(s, a), Noted(s, notes, a))
  {
    hide PcNote, NoteStep, WorkerStep, SharedInv, PcInv, Owned, InOrder, FinishInv, Moves, FinishNext, Apply, EmitStep, SetStateStep, CancelStep;
    var t := Exec(s, a);
    ExecMoves(s, a);
    match a
    case Work(i, ch) =>
      if s.loop.Batch? && Active(s.loop.workers, s.loop.parallel, i) { WorkNoted(s, notes, i, ch); }
    case LoopStep(turn, ok) => LaunchNoted(s, notes, turn, ok);
    case Join =>
    case _ =>
      OthersLeaveLoop(s, a);
      if s.loop.Batch? {
        forall j | 0 <= j < |notes| ensures PcNote(t.run, t.shared, t.loop.workers[j].call, t.loop.workers[j].pc, notes[j]) {
          PcNoteStays(s.run, s.shared, t.shared, s.loop.workers[j].call, s.loop.workers[j].pc, notes[j]);
        }
      }
  }

  lemma OthersLeaveLoop(s: State, a: Action)
    requires !a.Work? && !a.LoopStep? && !a.Join?
    ensures Exec(s, a).loop == s.loop && Exec(s, a).run == s.run
  {
    hide Apply, EmitStep, SetStateStep, CancelStep, FinishStep, Unfinished;
  }

  lemma LaunchNoted(s: State, notes: seq<Note>, turn: Turn, ok: bool)
    requires BatchNotes(s, notes)
    ensures BatchNotes(Exec(s, LoopStep(turn, ok)), Noted(s, notes, LoopStep(turn, ok)))
  {
    hide PcNote;
    var t := Exec(s, LoopStep(turn, ok));
    if t.loop.Batch? && !s.loop.Batch? {
      forall i | 0 <= i < |t.loop.workers| ensures PcNote(t.run, t.shared, t.loop.workers[i].call, t.loop.workers[i].pc, BLANK) {
        BlankNote(t.run, t.shared, t.loop.workers[i].call);
      }
    }
  }

  lemma BlankNote(run: RunId, sh: Shared, call: InvocationId)
    ensures PcNote(run, sh, call, Consume, BLANK)
  {
  }

  lemma WorkNoted(s: State, notes: seq<Note>, i: nat, ch: Choice)
    requires Inv(s) && BatchNotes(s, notes) && s.loop.Batch? && Active(s.loop.workers, s.loop.parallel, i)
    ensures BatchNotes(Exec(s, Work(i, ch)), Noted(s, notes, Work(i, ch)))
  {
    hide PcNote, NoteStep, WorkerStep, SharedInv, PcInv, Owned, InOrder, FinishInv, Moves;
    var t, w := Exec(s, Work(i, ch)), s.loop.workers[i];
    ExecMoves(s, Work(i, ch));
    NoteKeeps(s.run, s.shared, w.call, w.pc, ch, notes[i]);
    forall j | 0 <= j < |notes| && j != i ensures PcNote(t.run, t.shared, t.loop.workers[j].call, t.loop.workers[j].pc, notes[j]) {
      PcNoteStays(s.run, s.shared, t.shared, s.loop.workers[j].call, s.loop.workers[j].pc, notes[j]);
    }
  }

  lemma {:induction false} NotesKept(s: State, notes: seq<Note>, actions: seq<Action>)
    requires Inv(s) && BatchNotes(s, notes)
    ensures Inv(ExecAll(s, actions)) && BatchNotes(ExecAll(s, actions), NotesAfter(s, notes, actions))
    decreases |actions|
  {
    hide Inv, BatchNotes, Exec, Noted;
    if actions != [] {
      ExecKeeps(s, actions[0]);
      NotedKeeps(s, notes, actions[0]);
      NotesKept(Exec(s, actions[0]), Noted(s, notes, actions[0]), actions[1..]);
    }
  }

  /** At any moment of any run, every call of the batch is sound, and one that returned a result ended well. */
  lemma {:induction false} CallsAreSound(s: State, actions: seq<Action>, i: nat)
    requires Init(s) && ExecAll(s, actions).loop.Batch? && i < |ExecAll(s, actions).loop.workers|
    ensures var t, notes := ExecAll(s, actions), NotesAfter(s, [], actions);
            && |notes| == |t.loop.workers|
            && Sound(t.run, t.shared, t.loop.workers[i].call, notes[i])
            && (t.loop.workers[i].pc == Returned(true) ==> EndedWell(t.run, t.shared, t.loop.workers[i].call, notes[i]))
  {
    hide PcNote, Sound, EndedWell;
    InitInv(s);
    NotesKept(s, [], actions);
    var t, notes := ExecAll(s, actions), NotesAfter(s, [], actions);
    PcSound(t.run, t.shared, t.loop.workers[i].call, t.loop.workers[i].pc, notes[i]);
    if t.loop.workers[i].pc == Returned(true) { EndNote(t.run, t.shared, t.loop.workers[i].call, notes[i]); }
  }

  lemma EndNote(run: RunId, sh: Shared, call: InvocationId, n: Note)
    requires PcNote(run, sh, call, Returned(true), n)
    ensures EndedWell(run, sh, call, n)
  {
  }

  /**
   Whenever any step of any run starts an executor, it starts one of a call of the
   batch, after announcing it, and with permission: the policy allowed the call, or
   the operation registered for it has the host's consent in the store.
   */
  lemma {:induction false} StartsArePermitted(s: State, actions: seq<Action>, a: Action)
    requires Init(s)
    requires var t := ExecAll(s, actions); Exec(t, a).shared.starts != t.shared.starts
    ensures var t, notes := ExecAll(s, actions), NotesAfter(s, [], actions);
            && a.Work? && t.loop.Batch? && a.i < |t.loop.workers| == |notes|
            && var call := t.loop.workers[a.i].call;
               && Exec(t, a).shared.starts == t.shared.starts + multiset{call}
               && notes[a.i].starts == multiset{} && ToolStarted(call) in notes[a.i].log
               && exists ap :: Permitted(t.run, t.shared.store, notes[a.i], ap)
  {
    hide PcNote, Init, Inv, BatchNotes;
    var t, notes := ExecAll(s, actions), NotesAfter(s, [], actions);
    InitInv(s);
    BlankBatch(s);
    NotesKept(s, [], actions);
    StartStep(t, notes, a);
  }

  lemma BlankBatch(s: State)
    requires Init(s)
    ensures BatchNotes(s, [])
  {
  }

  lemma StartStep(t: State, notes: seq<Note>, a: Action)
    requires BatchNotes(t, notes) && Exec(t, a).shared.starts != t.shared.starts
    ensures a.Work? && t.loop.Batch? && a.i < |t.loop.workers| == |notes|
    ensures var call := t.loop.workers[a.i].call;
            && Exec(t, a).shared.starts == t.shared.starts + multiset{call}
            && notes[a.i].starts == multiset{} && ToolStarted(call) in notes[a.i].log
            && exists ap :: Permitted(t.run, t.shared.store, notes[a.i], ap)
  {
    hide PcNote, Permitted, Apply, EmitStep, SetStateStep, CancelStep, FinishStep, Unfinished, Poll, Refusal;
    assert a.Work? && t.loop.Batch? && t.loop.workers[a.i].pc.Select?;
    SelectNote(t.run, t.shared, t.loop.workers[a.i].call, t.loop.workers[a.i].pc.approval, notes[a.i]);
  }

  lemma SelectNote(run: RunId, sh: Shared, call: InvocationId, a: Approval, n: Note)
    requires PcNote(run, sh, call, Select(a), n)
    ensures n.starts == multiset{} && ToolStarted(call) in n.log && Permitted(run, sh.store, n, a)
  {
  }

  /**
   At no moment has a call started that the policy denied, failed or found invalid,
   or whose operation lacks the host's consent: rejected, expired, still pending, or
   cancelled before an approval.
   */
  lemma {:induction false} RefusedNeverStarts(s: State, actions: seq<Action>, i: nat)
    requires Init(s) && ExecAll(s, actions).loop.Batch? && i < |ExecAll(s, actions).loop.workers|
    ensures var t, notes := ExecAll(s, actions), NotesAfter(s, [], actions);
            && |notes| == |t.loop.workers|
            && (notes[i].answer.None? || notes[i].answer.value.Deny? || notes[i].answer.value.Validate? || notes[i].answer.value.Fail? ==>
                  notes[i].starts == multiset{})
            && (forall op :: op in notes[i].registered ==>
                  && Mine(t.run, t.shared.store, op)
                  && (Unconsented(t.shared.store.operations[op]) ==> notes[i].starts == multiset{}))
  {
    hide PcNote, RanWell, OnScript;
    CallsAreSound(s, actions, i);
    InitInv(s);
    NotesKept(s, [], actions);
    var t, n := ExecAll(s, actions), NotesAfter(s, [], actions)[i];
    if n.registered != {} {
      var op :| AskedFor(t.run, t.shared.store, n, op);
      if Unconsented(t.shared.store.operations[op]) { UnconsentedMeans(t.shared.store, op); }
    }
  }

  /** Rejected, expired, pending, or cancelled without a stored approval. */
  predicate Unconsented(r: Record) {
    r.state.Rejected? || r.state.Expired? || r.state.Pending? || (r.state.Cancelled? && r.decision.None?)
  }

  lemma UnconsentedMeans(s: Store, op: OperationId)
    requires StoreInv(s) && op in s.operations && Unconsented(s.operations[op])
    ensures !Consented(s.operations[op])
  {
    assert Disciplined(s.operations[op]);
  }

  // ------------------------------------------------------------ whose consent it was

  /** The host's yes: an approval of a blocking operation, or beginning the commit of a deferred one. */
  predicate SaysYes(a: Action, run: RunId, op: OperationId) {
    a.HostCall?
    && ((a.call.Resolve? && a.call.run == run && a.call.id == op && a.call.decision.Approve?)
        || (a.call.BeginCommit? && a.call.run == run && a.call.id == op))
  }

  predicate HasConsent(run: RunId, s: Store, op: OperationId) {
    Mine(run, s, op) && Consented(s.operations[op])
  }

  /** Only the host's yes makes the difference. */
  lemma CallConsents(run: RunId, s: Store, c: Call, op: OperationId)
    requires StoreInv(s) && !HasConsent(run, s, op) && HasConsent(run, Apply(s, c), op)
    ensures SaysYes(HostCall(c), run, op)
  {
    assert op in s.operations ==> Disciplined(s.operations[op]);
  }

  lemma StepConsents(s: State, a: Action, op: OperationId)
    requires Inv(s) && !HasConsent(s.run, s.shared.store, op) && HasConsent(s.run, Exec(s, a).shared.store, op)
    ensures SaysYes(a, s.run, op)
  {
    hide Apply, Refusal, LogInv, StoreInv, EmitStep, SetStateStep, CancelStep, FinishStep, Unfinished, HasConsent, SaysYes, PcInv,
      Owned, InOrder, FinishInv, WorkerStep;
    var store := s.shared.store;
    match a
    case HostCall(c) => CallConsents(s.run, store, c, op);
    case CancelOps =>
      CallConsents(s.run, store, CancelRun(s.run), op);
      NotYes(CancelRun(s.run), s.run, op);
    case Work(i, ch) =>
      if s.loop.Batch? && Active(s.loop.workers, s.loop.parallel, i) {
        var w := s.loop.workers[i];
        var c := WorkerCall(s.run, s.shared, w.call, w.pc, ch);
        CallConsents(s.run, store, c, op);
        NotYes(c, s.run, op);
      }
    case Finisher(_, _, _) =>
      if s.finish == CloseOps {
        CallConsents(s.run, store, CancelRun(s.run), op);
        NotYes(CancelRun(s.run), s.run, op);
      }
    case _ =>
  }

  lemma NotYes(c: Call, run: RunId, op: OperationId)
    requires !c.Resolve? && !c.BeginCommit?
    ensures !SaysYes(HostCall(c), run, op)
  {
  }

  /** The call of the store that a step of a tool call makes, if it changes the store. */
  lemma WorkerCall(run: RunId, sh: Shared, call: InvocationId, pc: Pc, ch: Choice) returns (c: Call)
    requires WorkerStep(run, sh, call, pc, ch).0.store != sh.store
    ensures WorkerStep(run, sh, call, pc, ch).0.store == Apply(sh.store, c)
    ensures c.Register? || c.FinishBlockingApproval? || c.FinishCommit?
  {
    hide Apply, Refusal, Poll, EmitStep, SetStateStep;
    match pc
    case RegisterOp(mode, deadline) => c := Register(Operation(ch.id, run, mode, deadline), ch.now);
    case SettleFailure(a) => c := FinishCall(run, a, Broken(""));
    case SettleSuccess(a) => c := FinishCall(run, a, Done);
  }

  lemma {:induction false} YesCameFrom(s: State, actions: seq<Action>, op: OperationId)
    requires Inv(s) && !HasConsent(s.run, s.shared.store, op) && HasConsent(s.run, ExecAll(s, actions).shared.store, op)
    ensures exists k :: 0 <= k < |actions| && SaysYes(actions[k], s.run, op)
    decreases |actions|
  {
    hide Inv, Exec, HasConsent, SaysYes;
    if actions != [] {
      var t := Exec(s, actions[0]);
      SameRun(s, actions[0]);
      ExecKeeps(s, actions[0]);
      if HasConsent(s.run, t.shared.store, op) {
        StepConsents(s, actions[0], op);
      } else {
        YesCameFrom(t, actions[1..], op);
        var k :| 0 <= k < |actions[1..]| && SaysYes(actions[1..][k], s.run, op);
        assert SaysYes(actions[k + 1], s.run, op);
      }
    }
  }

  lemma SameRun(s: State, a: Action)
    ensures Exec(s, a).run == s.run
  {
    hide Apply, EmitStep, SetStateStep, CancelStep, FinishStep, Unfinished, WorkerStep;
  }

  /**
   Consent is the host's alone: in every run, an operation of the run that has it got
   it from an action of the host.
   */
  lemma {:induction false} ConsentIsTheHosts(s: State, actions: seq<Action>, op: OperationId)
    requires Init(s) && HasConsent(s.run, ExecAll(s, actions).shared.store, op)
    ensures exists k :: 0 <= k < |actions| && SaysYes(actions[k], s.run, op)
  {
    hide SaysYes;
    InitInv(s);
    YesCameFrom(s, actions, op);
  }

  // ----------------------------------------------------------------- how it is settled

  /**
   A call ends only the operation registered for it, and truly: as committed when its
   executor returned a result, and as failed otherwise.
   */
  lemma {:induction false} SettlesTruly(s: State, actions: seq<Action>, i: nat, ch: Choice, op: OperationId)
    requires Init(s)
    requires var t := ExecAll(s, actions);
             && op in t.shared.store.operations && !Over(t.shared.store, op) && Over(Exec(t, Work(i, ch)).shared.store, op)
    ensures var t, notes := ExecAll(s, actions), NotesAfter(s, [], actions);
            && i < |notes| && op in notes[i].registered
            && Exec(t, Work(i, ch)).shared.store.operations[op].state
               == (if Succeeded(notes[i]) then OperationState.Committed else Failed(""))
  {
    hide PcNote, Init, Inv, BatchNotes;
    var t, notes := ExecAll(s, actions), NotesAfter(s, [], actions);
    InitInv(s);
    BlankBatch(s);
    NotesKept(s, [], actions);
    SettleStepTruly(t, notes, i, ch, op);
  }

  lemma SettleStepTruly(t: State, notes: seq<Note>, i: nat, ch: Choice, op: OperationId)
    requires BatchNotes(t, notes) && op in t.shared.store.operations
    requires !Over(t.shared.store, op) && Over(Exec(t, Work(i, ch)).shared.store, op)
    ensures i < |notes| && op in notes[i].registered
    ensures Exec(t, Work(i, ch)).shared.store.operations[op].state
         == (if Succeeded(notes[i]) then OperationState.Committed else Failed(""))
  {
    hide PcNote, Apply, WorkerStep, Refusal, Succeeded;
    var w := t.loop.workers[i];
    var c := WorkerCall(t.run, t.shared, w.call, w.pc, ch);
    SettlingNote(t.run, t.shared, w.call, w.pc, ch, notes[i], op);
  }

  lemma SettlingNote(run: RunId, sh: Shared, call: InvocationId, pc: Pc, ch: Choice, n: Note, op: OperationId)
    requires PcNote(run, sh, call, pc, n) && op in sh.store.operations
    requires var u := WorkerStep(run, sh, call, pc, ch).0; !Over(sh.store, op) && Over(u.store, op)
    ensures op in n.registered
    ensures WorkerStep(run, sh, call, pc, ch).0.store.operations[op].state
         == (if Succeeded(n) then OperationState.Committed else Failed(""))
  {
    hide EmitStep, SetStateStep, Poll, RanWell, Sound, EndedWell, Prelude;
  }

  // -------------------------------------------------------------- why a call may fail

  /** What may make a call's next step return an error. */
  ghost predicate Reason(run: RunId, sh: Shared, n: Note, ch: Choice) {
    || (ch.Fail? && n.answer.None?)
    || IsTerminal(sh.record.state)
    || (n.answer.Some? && n.answer.value.Ask? && n.registered == {} && ch.Identify?
        && Refusal(sh.store, Register(Operation(ch.id, run, n.answer.value.mode, n.answer.value.deadline), ch.now)).Some?)
    || (exists op :: op in n.registered && Over(sh.store, op))
    || (n.outcome.Some? && !Succeeded(n))
  }

  lemma ReasonToFail(run: RunId, sh: Shared, call: InvocationId, pc: Pc, ch: Choice, n: Note)
    requires SharedInv(run, sh) && PcInv(run, sh.store, pc) && PcNote(run, sh, call, pc, n)
    requires pc != Returned(false) && WorkerStep(run, sh, call, pc, ch).1 == Returned(false)
    ensures Reason(run, sh, n, ch)
  {
    hide Prelude, RanWell, Sound, EndedWell, LogInv, PcNote, Reason, PcInv, StoreInv;
    if Logs(pc) {
      LogWorker(run, sh, call, pc, ch);
      LogsGoOn(pc);
      TerminalIsReason(run, sh, n, ch);
    } else if pc.Wait? {
      WaitReason(run, sh, call, pc, ch, n);
    } else if pc.SettleFailure? || pc.SettleSuccess? {
      SettleReason(run, sh, call, pc, ch, n);
    } else {
      EarlyReason(run, sh, call, pc, ch, n);
    }
  }

  lemma LogsGoOn(pc: Pc)
    requires Logs(pc)
    ensures AfterLog(pc) != Returned(false)
  {
  }

  lemma TerminalIsReason(run: RunId, sh: Shared, n: Note, ch: Choice)
    requires IsTerminal(sh.record.state)
    ensures Reason(run, sh, n, ch)
  {
  }

  lemma EarlyReason(run: RunId, sh: Shared, call: InvocationId, pc: Pc, ch: Choice, n: Note)
    requires PcNote(run, sh, call, pc, n) && !Logs(pc) && !pc.Wait? && !pc.SettleFailure? && !pc.SettleSuccess? && pc != Returned(false)
    requires WorkerStep(run, sh, call, pc, ch).1 == Returned(false)
    ensures Reason(run, sh, n, ch)
  {
    hide Prelude, RanWell, Sound, EndedWell, Refusal, Apply;
  }

  lemma WaitReason(run: RunId, sh: Shared, call: InvocationId, pc: Pc, ch: Choice, n: Note)
    requires SharedInv(run, sh) && PcNote(run, sh, call, pc, n) && pc.Wait?
    requires WorkerStep(run, sh, call, pc, ch).1 == Returned(false)
    ensures Reason(run, sh, n, ch)
  {
    hide LogInv, StoreInv, Poll;
    WaitStep(run, sh, pc.op);
    assert pc.op in n.registered;
  }

  lemma SettleReason(run: RunId, sh: Shared, call: InvocationId, pc: Pc, ch: Choice, n: Note)
    requires SharedInv(run, sh) && PcInv(run, sh.store, pc) && PcNote(run, sh, call, pc, n) && (pc.SettleFailure? || pc.SettleSuccess?)
    requires WorkerStep(run, sh, call, pc, ch).1 == Returned(false)
    ensures Reason(run, sh, n, ch)
  {
    hide StoreInv, Apply, Refusal, Prelude, Consented;
    var a := pc.approval;
    if pc.SettleSuccess? {
      Settles(run, sh.store, a, Done);
      assert a.op in n.registered;
    } else if Idle(n) {
      LogMeansToken(sh.record);
    }
  }

  /** In every run, a call returns an error only for a reason. */
  lemma {:induction false} CallsFailForAReason(s: State, actions: seq<Action>, i: nat, ch: Choice)
    requires Init(s) && ExecAll(s, actions).loop.Batch? && i < |ExecAll(s, actions).loop.workers|
    requires var t := ExecAll(s, actions);
             t.loop.workers[i].pc != Returned(false) && Exec(t, Work(i, ch)).loop.Batch?
             && i < |Exec(t, Work(i, ch)).loop.workers| && Exec(t, Work(i, ch)).loop.workers[i].pc == Returned(false)
    ensures var t, notes := ExecAll(s, actions), NotesAfter(s, [], actions);
            i < |notes| && Reason(t.run, t.shared, notes[i], ch)
  {
    hide PcNote, Init, Reason, SharedInv, PcInv, Owned, InOrder, FinishInv, WorkerStep;
    var t, notes := ExecAll(s, actions), NotesAfter(s, [], actions);
    InitInv(s);
    BlankBatch(s);
    NotesKept(s, [], actions);
    var w := t.loop.workers[i];
    ReasonToFail(t.run, t.shared, w.call, w.pc, ch, notes[i]);
  }

  /** How many more of its own steps a call can need. */
  function StepsLeft(pc: Pc): nat {
    match pc
    case Consume => 14
    case CheckLedger => 13
    case Prepare => 12
    case ValidationStarted => 2
    case ValidationFinished => 1
    case RegisterOp(_, _) => 11
    case AwaitState(_, _) => 10
    case Announce(_, _) => 9
    case Wait(_, _) => 8
    case ResumeApproved(_, _) => 7
    case ResumeRejected => 1
    case AnnounceStart(_) => 6
    case Select(_) => 5
    case Executing(_) => 4
    case SettleFailure(_) => 1
    case SettleSuccess(_) => 3
    case RecordResult => 2
    case AnnounceFinish => 1
    case Returned(_) => 0
  }

  /**
   A call goes on with every step, unless it waits for the host, has no fresh identifier
   yet, or looks for a cancellation that is not there; so it returns within 14 others.
   */
  lemma CallsGoOn(run: RunId, sh: Shared, call: InvocationId, pc: Pc, ch: Choice)
    ensures var pc' := WorkerStep(run, sh, call, pc, ch).1;
            || StepsLeft(pc') < StepsLeft(pc)
            || (pc' == pc
                && (pc.Returned? || (pc.RegisterOp? && !ch.Identify?)
                    || (pc.Wait? && Poll(sh.store, run, pc.op, pc.mode).None?)
                    || ((pc.Select? || pc.Executing?) && ch.NoticeCancellation? && !sh.record.cancelled)))
  {
    hide Apply, Refusal, Poll, EmitStep, SetStateStep;
  }
}
