/** The whole run: loop, batch, finisher and host, and what every interleaving keeps. */
module RunProtocol {
  import opened Wrappers
  import opened Operations
  import opened RunLog
  import opened Protocol

  datatype Worker = Worker(call: InvocationId, pc: Pc)

  /** Where `run_registered_model_tool_loop` is. */
  datatype LoopPc =
    | Top
    | Round
    | Asking
    | Batch(workers: seq<Worker>, parallel: bool)
    | Exited(ok: bool)

  /** Where the spawned finisher is after the loop. */
  datatype FinishPc =
    | Waiting
    | ReadState
    | Persist
    | CheckOps(event: RunEvent)
    | EndRun(event: RunEvent)
    | CloseOps
    | Ended

  datatype State = State(run: RunId, shared: Shared, loop: LoopPc, finish: FinishPc, cancelling: bool, refused: bool)

  /** What a provider turn leads to. */
  datatype Turn =
    | ContinueTurn
    | StopTurn
    | FailTurn
    | ToolTurn(calls: seq<InvocationId>, parallel: bool)

  datatype Action =
    | HostCall(call: Call)
    | HostEmit(event: RunEvent)
    | HostSetState(state: RunState)
    | CancelBegin
    | CancelOps
    | LoopStep(turn: Turn, ok: bool)
    | Work(i: nat, ch: Choice)
    | Join
    | Finisher(ok: bool, message: string, output: seq<OutputMessage>)

  predicate AllReturned(ws: seq<Worker>, ok: bool) {
    forall i :: 0 <= i < |ws| ==> ws[i].pc == Returned(ok)
  }

  /** Whether call `i` may run: in a sequential batch only after the earlier ones succeeded. */
  predicate Active(ws: seq<Worker>, parallel: bool, i: nat) {
    i < |ws| && (parallel || AllReturned(ws[..i], true))
  }

  predicate AnyFailed(ws: seq<Worker>) {
    exists i :: 0 <= i < |ws| && ws[i].pc == Returned(false)
  }

  function Launch(calls: seq<InvocationId>): seq<Worker> {
    seq(|calls|, i requires 0 <= i < |calls| => Worker(calls[i], Consume))
  }

  function LoopNext(s: State, turn: Turn, ok: bool): LoopPc {
    match s.loop
    case Top => if s.shared.record.cancelled then Exited(false) else Round
    case Round => if ok then Asking else Exited(false)
    case Asking =>
      (match turn
       case ContinueTurn => Top
       case StopTurn => Exited(true)
       case FailTurn => Exited(false)
       case ToolTurn(calls, parallel) => if calls == [] then Exited(true) else Batch(Launch(calls), parallel))
    case _ => s.loop
  }

  /** The end of a batch; `collect` fails on the first failed call, a sequential loop stops at it. */
  function JoinNext(loop: LoopPc): LoopPc {
    if !loop.Batch? then loop
    else
      var ws := loop.workers;
      if AllReturned(ws, true) then Top
      else if AnyFailed(ws) && (!loop.parallel || forall i :: 0 <= i < |ws| ==> ws[i].pc.Returned?) then Exited(false)
      else loop
  }

  function FinishNext(s: State, ok: bool, message: string, output: seq<OutputMessage>): State {
    var sh := s.shared;
    match s.finish
    case Waiting => if !s.loop.Exited? then s else s.(finish := if s.loop.ok then Persist else ReadState)
    case ReadState => s.(finish := if sh.record.state.RunCancelled? then Ended else CheckOps(FailedEvent(message)))
    case Persist => s.(finish := CheckOps(if ok then CompletedEvent(output) else FailedEvent(message)))
    case CheckOps(e) =>
      if Unfinished(sh.store, s.run) != {} then s.(finish := Ended, refused := true) else s.(finish := EndRun(e))
    case EndRun(e) =>
      if !FinishEvent(e) then s
      else
        var (r, answer) := FinishStep(sh.record, e);
        s.(shared := sh.(record := r), finish := if answer.Ok? then CloseOps else Ended)
    case CloseOps => s.(shared := sh.(store := Apply(sh.store, CancelRun(s.run))), finish := Ended)
    case Ended => s
  }

  /** One atomic step; an action that is not possible changes nothing. */
  function Exec(s: State, a: Action): State {
    var sh := s.shared;
    match a
    case HostCall(c) =>
      if c.Register? && c.operation.run == s.run then s else s.(shared := sh.(store := Apply(sh.store, c)))
    case HostEmit(e) => s.(shared := sh.(record := EmitStep(sh.record, e).0))
    case HostSetState(st) => s.(shared := sh.(record := SetStateStep(sh.record, st).0))
    case CancelBegin =>
      var (r, answer) := CancelStep(sh.record);
      s.(shared := sh.(record := r), cancelling := s.cancelling || answer.Ok?)
    case CancelOps =>
      if !s.cancelling then s
      else s.(shared := sh.(store := Apply(sh.store, CancelRun(s.run))), cancelling := false)
    case LoopStep(turn, ok) => s.(loop := LoopNext(s, turn, ok))
    case Work(i, ch) =>
      if !s.loop.Batch? || !Active(s.loop.workers, s.loop.parallel, i) then s
      else
        var w := s.loop.workers[i];
        var (sh', pc') := WorkerStep(s.run, sh, w.call, w.pc, ch);
        s.(shared := sh', loop := s.loop.(workers := s.loop.workers[i := w.(pc := pc')]))
    case Join => s.(loop := JoinNext(s.loop))
    case Finisher(ok, message, output) => FinishNext(s, ok, message, output)
  }

  function ExecAll(s: State, actions: seq<Action>): State
    decreases |actions|
  {
    if actions == [] then s else ExecAll(Exec(s, actions[0]), actions[1..])
  }

  // ------------------------------------------------------------- the invariant

  ghost predicate HeldInBatch(loop: LoopPc, op: OperationId) {
    loop.Batch? && exists i :: 0 <= i < |loop.workers| && Held(loop.workers[i].pc) == Some(op)
  }

  predicate Failing(loop: LoopPc) {
    loop == Exited(false) || (loop.Batch? && AnyFailed(loop.workers))
  }

  /**
   Every operation of the run is over, or a call of the batch is responsible for
   it, or the run was cancelled and the loop is on its way out with an error.
   */
  ghost predicate Owned(run: RunId, sh: Shared, loop: LoopPc) {
    forall op :: Mine(run, sh.store, op) ==>
      || Over(sh.store, op)
      || HeldInBatch(loop, op)
      || (sh.record.state.RunCancelled? && Failing(loop))
  }

  ghost predicate AllOver(run: RunId, sh: Shared) {
    forall op :: Mine(run, sh.store, op) ==> Over(sh.store, op)
  }

  ghost predicate BatchInv(run: RunId, sh: Shared, loop: LoopPc) {
    loop.Batch? ==>
      forall i :: 0 <= i < |loop.workers| ==> PcInv(run, sh.store, loop.workers[i].pc)
  }

  /** In a sequential batch nobody starts before the earlier calls have succeeded. */
  ghost predicate InOrder(loop: LoopPc) {
    loop.Batch? && !loop.parallel ==>
      forall i, j :: 0 <= i < j < |loop.workers| && loop.workers[j].pc != Consume ==> loop.workers[i].pc == Returned(true)
  }

  predicate Unwritten(f: FinishPc) {
    f.Waiting? || f.ReadState? || f.Persist? || f.CheckOps? || f.EndRun?
  }

  ghost predicate FinishInv(s: State) {
    && (!s.finish.Waiting? ==> s.loop.Exited?)
    && (s.finish.Persist? ==> s.loop == Exited(true))
    && (s.finish.ReadState? ==> s.loop == Exited(false))
    && (s.finish.CheckOps? || s.finish.EndRun? ==> AllOver(s.run, s.shared) && FinishEvent(s.finish.event))
    && (Unwritten(s.finish) && IsTerminal(s.shared.record.state) ==> s.shared.record.state.RunCancelled?)
    && (!Unwritten(s.finish) ==> IsTerminal(s.shared.record.state))
    && !s.refused
  }

  ghost predicate Inv(s: State) {
    && SharedInv(s.run, s.shared)
    && Owned(s.run, s.shared, s.loop)
    && BatchInv(s.run, s.shared, s.loop)
    && InOrder(s.loop)
    && FinishInv(s)
  }

  /** A run that was just launched, possibly on a record the host registered and already cancelled. */
  ghost predicate Init(s: State) {
    && SharedInv(s.run, s.shared) && (forall op :: !Mine(s.run, s.shared.store, op))
    && (IsTerminal(s.shared.record.state) ==> s.shared.record.state.RunCancelled?)
    && s.shared.starts == multiset{}
    && s.loop == Top && s.finish == Waiting && !s.cancelling && !s.refused
  }

  lemma InitInv(s: State)
    requires Init(s)
    ensures Inv(s)
  {
  }

  // -------------------------------------------------- steps that change shared state

  /** The shared state moved and no operation of the run appeared. */
  ghost predicate Quiet(run: RunId, sh: Shared, sh': Shared) {
    && Moves(sh, sh') && SharedInv(run, sh')
    && (forall op :: Mine(run, sh'.store, op) ==> Mine(run, sh.store, op))
  }

  /** The invariant survives any such move while the loop stays where it is. */
  lemma QuietKeeps(s: State, sh': Shared)
    requires Inv(s) && Quiet(s.run, s.shared, sh')
    ensures Owned(s.run, sh', s.loop) && BatchInv(s.run, sh', s.loop)
    ensures AllOver(s.run, s.shared) ==> AllOver(s.run, sh')
  {
    hide SharedInv, PcInv, HeldInBatch, Failing;
    forall op | Mine(s.run, sh'.store, op) && Over(s.shared.store, op) ensures Over(sh'.store, op) {}
    if s.loop.Batch? {
      forall i | 0 <= i < |s.loop.workers| ensures PcInv(s.run, sh'.store, s.loop.workers[i].pc) {
        PcInvStable(s.run, s.shared, sh', s.loop.workers[i].pc);
      }
    }
  }

  lemma RecordMove(run: RunId, sh: Shared, r: RunRecord)
    requires SharedInv(run, sh) && LogInv(r) && Extends(sh.record, r)
    ensures Quiet(run, sh, sh.(record := r))
  {
    hide LogInv, StoreInv;
    forall op | op in sh.store.operations ensures Advances(sh.store.operations[op], sh.store.operations[op]) {
      AdvancesRefl(sh.store.operations[op]);
    }
  }

  lemma StoreMove(run: RunId, sh: Shared, c: Call)
    requires SharedInv(run, sh) && !(c.Register? && c.operation.run == run)
    ensures Quiet(run, sh, sh.(store := Apply(sh.store, c)))
  {
    hide LogInv, StoreInv, Advances;
    StoreStep(run, sh, c);
    ForeignCall(run, sh.store, c);
  }

  lemma ForeignCall(run: RunId, s: Store, c: Call)
    requires !(c.Register? && c.operation.run == run)
    ensures forall op :: Mine(run, Apply(s, c), op) ==> Mine(run, s, op)
  {
  }

  lemma HostKeeps(s: State, a: Action)
    requires Inv(s) && (a.HostCall? || a.HostEmit? || a.HostSetState? || a.CancelBegin? || a.CancelOps?)
    ensures Inv(Exec(s, a))
  {
    hide SharedInv, Quiet, Owned, BatchInv, InOrder, AllOver, Apply, EmitStep, SetStateStep, CancelStep;
    var sh, sh' := s.shared, Exec(s, a).shared;
    SharedFacts(s.run, sh);
    match a
    case HostCall(c) =>
      if !(c.Register? && c.operation.run == s.run) {
        StoreMove(s.run, sh, c);
        QuietFacts(s.run, sh, sh');
        QuietKeeps(s, sh');
      }
    case CancelOps =>
      if s.cancelling {
        StoreMove(s.run, sh, CancelRun(s.run));
        QuietFacts(s.run, sh, sh');
        QuietKeeps(s, sh');
      }
    case HostEmit(e) => RecordStepKeeps(s, Running, e, EmitStep(sh.record, e).0);
    case HostSetState(st) => RecordStepKeeps(s, st, CancelledEvent, SetStateStep(sh.record, st).0);
    case CancelBegin => RecordStepKeeps(s, Running, CancelledEvent, CancelStep(sh.record).0);
  }

  lemma RecordStepKeeps(s: State, st: RunState, e: RunEvent, r: RunRecord)
    requires Inv(s) && r in {EmitStep(s.shared.record, e).0, SetStateStep(s.shared.record, st).0, CancelStep(s.shared.record).0}
    ensures forall b :: Inv(s.(shared := s.shared.(record := r), cancelling := b))
  {
    hide SharedInv, Quiet, Owned, BatchInv, InOrder, AllOver, EmitStep, SetStateStep, CancelStep;
    var sh' := s.shared.(record := r);
    SharedFacts(s.run, s.shared);
    StepsKeepLog(s.shared.record, st, e);
    HostRecordSteps(s.shared.record, st, e);
    RecordMove(s.run, s.shared, r);
    QuietFacts(s.run, s.shared, sh');
    QuietKeeps(s, sh');
  }

  lemma QuietFacts(run: RunId, sh: Shared, sh': Shared)
    requires Quiet(run, sh, sh')
    ensures SharedInv(run, sh')
  {
  }

  lemma SharedFacts(run: RunId, sh: Shared)
    requires SharedInv(run, sh)
    ensures LogInv(sh.record)
  {
  }

  /** Host steps on the record can only make it terminal by cancelling it. */
  lemma HostRecordSteps(r: RunRecord, st: RunState, e: RunEvent)
    ensures IsTerminal(r.state) ==>
              EmitStep(r, e).0.state == r.state && SetStateStep(r, st).0.state == r.state && CancelStep(r).0.state == r.state
    ensures !IsTerminal(r.state) ==>
              && !IsTerminal(EmitStep(r, e).0.state) && !IsTerminal(SetStateStep(r, st).0.state)
              && CancelStep(r).0.state.RunCancelled?
  {
  }

  // ------------------------------------------------------------ steps of a tool call

  ghost predicate WorkedTo(s: State, i: nat, sh': Shared, pc': Pc)
  {
    && s.loop.Batch? && Active(s.loop.workers, s.loop.parallel, i)
    && GoodStep(s.run, s.shared, s.loop.workers[i].pc, sh', pc')
    && (s.loop.workers[i].pc.Returned? ==> pc' == s.loop.workers[i].pc)
  }

  function Moved(loop: LoopPc, i: nat, pc': Pc): LoopPc
    requires loop.Batch? && i < |loop.workers|
  {
    loop.(workers := loop.workers[i := loop.workers[i].(pc := pc')])
  }

  lemma WorkOwned(s: State, i: nat, sh': Shared, pc': Pc, op: OperationId)
    requires Inv(s) && WorkedTo(s, i, sh', pc') && Mine(s.run, sh'.store, op)
    ensures || Over(sh'.store, op) || HeldInBatch(Moved(s.loop, i, pc'), op)
            || (sh'.record.state.RunCancelled? && Failing(Moved(s.loop, i, pc')))
  {
    hide SharedInv, PcInv, LogInv, BatchInv, InOrder, AllOver, Held;
    var ws, loop' := s.loop.workers, Moved(s.loop, i, pc');
    assert loop'.workers[i].pc == pc';
    if op in s.shared.store.operations {
      assert Mine(s.run, s.shared.store, op);
      if HeldInBatch(s.loop, op) {
        var j :| 0 <= j < |ws| && Held(ws[j].pc) == Some(op);
        assert j != i ==> loop'.workers[j] == ws[j];
      } else if !Over(s.shared.store, op) {
        var k :| 0 <= k < |ws| && ws[k].pc == Returned(false);
        assert loop'.workers[k].pc == Returned(false);
      }
    }
  }

  lemma WorkOrder(loop: LoopPc, i: nat, pc': Pc)
    requires loop.Batch? && Active(loop.workers, loop.parallel, i) && InOrder(loop)
    requires loop.workers[i].pc.Returned? ==> pc' == loop.workers[i].pc
    ensures InOrder(Moved(loop, i, pc'))
  {
    if !loop.parallel {
      var ws := loop.workers;
      assert forall k :: 0 <= k < i ==> ws[..i][k] == ws[k];
    }
  }

  lemma WorkKeeps(s: State, i: nat, ch: Choice)
    requires Inv(s)
    ensures Inv(Exec(s, Work(i, ch)))
  {
    hide SharedInv, PcInv, Held, WorkerStep, HeldInBatch, Failing, AllOver;
    if s.loop.Batch? && Active(s.loop.workers, s.loop.parallel, i) {
      var w := s.loop.workers[i];
      var (sh', pc') := WorkerStep(s.run, s.shared, w.call, w.pc, ch);
      WorkerKeeps(s.run, s.shared, w.call, w.pc, ch);
      ReturnedStays(s.run, s.shared, w.call, w.pc, ch);
      var loop' := Moved(s.loop, i, pc');
      assert Exec(s, Work(i, ch)) == s.(shared := sh', loop := loop');
      forall op | Mine(s.run, sh'.store, op)
        ensures || Over(sh'.store, op) || HeldInBatch(loop', op) || (sh'.record.state.RunCancelled? && Failing(loop'))
      {
        WorkOwned(s, i, sh', pc', op);
      }
      WorkOrder(s.loop, i, pc');
      forall j | 0 <= j < |loop'.workers| ensures PcInv(s.run, sh'.store, loop'.workers[j].pc) {
        if j != i { PcInvStable(s.run, s.shared, sh', s.loop.workers[j].pc); }
      }
    }
  }

  lemma ReturnedStays(run: RunId, sh: Shared, call: InvocationId, pc: Pc, ch: Choice)
    ensures pc.Returned? ==> WorkerStep(run, sh, call, pc, ch) == (sh, pc)
  {
  }

  // ------------------------------------------------- the loop, the join, the finish

  lemma LoopKeeps(s: State, turn: Turn, ok: bool)
    requires Inv(s)
    ensures Inv(Exec(s, LoopStep(turn, ok)))
  {
    hide SharedInv, Mine, Over;
  }

  /** Nobody in a batch that is being left still holds an operation. */
  lemma JoinedHoldsNothing(loop: LoopPc, op: OperationId)
    requires loop.Batch? && InOrder(loop) && JoinNext(loop) != loop
    ensures !HeldInBatch(loop, op)
    ensures JoinNext(loop).Top? ==> !Failing(loop)
  {
    var ws := loop.workers;
    if !loop.parallel && !AllReturned(ws, true) {
      var k :| 0 <= k < |ws| && ws[k].pc == Returned(false);
      forall j | 0 <= j < |ws| ensures ws[j].pc.Consume? || ws[j].pc.Returned? {
        if j < k { assert ws[k].pc != Consume; }
      }
    }
  }

  lemma JoinKeeps(s: State)
    requires Inv(s)
    ensures Inv(Exec(s, Join))
  {
    hide SharedInv, Mine, Over, HeldInBatch, InOrder, JoinNext, BatchInv;
    if s.loop.Batch? && JoinNext(s.loop) != s.loop {
      JoinGoes(s.loop);
      forall op | Mine(s.run, s.shared.store, op) ensures !HeldInBatch(s.loop, op) && (JoinNext(s.loop).Top? ==> !Failing(s.loop)) {
        JoinedHoldsNothing(s.loop, op);
      }
    }
    JoinBatch(s);
  }

  lemma JoinGoes(loop: LoopPc)
    requires loop.Batch? && JoinNext(loop) != loop
    ensures JoinNext(loop) == Top || JoinNext(loop) == Exited(false)
    ensures JoinNext(loop) == Exited(false) ==> Failing(loop)
  {
  }

  lemma JoinBatch(s: State)
    requires BatchInv(s.run, s.shared, s.loop) && InOrder(s.loop)
    ensures !s.loop.Batch? ==> JoinNext(s.loop) == s.loop
    ensures BatchInv(s.run, s.shared, JoinNext(s.loop)) && InOrder(JoinNext(s.loop))
  {
  }

  /** A loop that is left leaves nothing open, unless the run was cancelled. */
  lemma ExitOwned(s: State)
    requires Owned(s.run, s.shared, s.loop) && s.loop.Exited?
    ensures AllOver(s.run, s.shared) || (s.shared.record.state.RunCancelled? && !s.loop.ok)
  {
  }

  lemma FinishKeeps(s: State, ok: bool, message: string, output: seq<OutputMessage>)
    requires Inv(s)
    ensures Inv(Exec(s, Finisher(ok, message, output)))
  {
    hide SharedInv, Quiet, Owned, BatchInv, InOrder, AllOver, Apply, FinishStep, Unfinished;
    if s.loop.Exited? { ExitOwned(s); }
    match s.finish
    case CheckOps(e) => NothingUnfinished(s.run, s.shared);
    case EndRun(e) => EndKeeps(s, e);
    case CloseOps => CloseKeeps(s);
    case _ =>
  }

  lemma EndKeeps(s: State, e: RunEvent)
    requires Inv(s) && s.finish == EndRun(e)
    ensures Inv(FinishNext(s, true, "", [])) && forall ok, m, o :: FinishNext(s, ok, m, o) == FinishNext(s, true, "", [])
  {
    hide SharedInv, Quiet, Owned, BatchInv, InOrder, AllOver, Apply, FinishStep, Unfinished, LogInv, Extends,
      SetStateStep, EmitStep, CancelStep, AddHookStep;
    var r := FinishStep(s.shared.record, e).0;
    SharedFacts(s.run, s.shared);
    StepsKeepLog(s.shared.record, Running, e);
    StepAnswers(s.shared.record, Running, e);
    RecordMove(s.run, s.shared, r);
    QuietFacts(s.run, s.shared, s.shared.(record := r));
    QuietKeeps(s, s.shared.(record := r));
  }

  lemma CloseKeeps(s: State)
    requires Inv(s) && s.finish == CloseOps
    ensures Inv(FinishNext(s, true, "", [])) && forall ok, m, o :: FinishNext(s, ok, m, o) == FinishNext(s, true, "", [])
  {
    hide SharedInv, Quiet, Owned, BatchInv, InOrder, AllOver, Apply;
    var sh' := s.shared.(store := Apply(s.shared.store, CancelRun(s.run)));
    StoreMove(s.run, s.shared, CancelRun(s.run));
    QuietFacts(s.run, s.shared, sh');
    QuietKeeps(s, sh');
  }

  lemma NothingUnfinished(run: RunId, sh: Shared)
    requires AllOver(run, sh)
    ensures Unfinished(sh.store, run) == {}
  {
    forall id | id in Unfinished(sh.store, run) ensures false { assert Mine(run, sh.store, id); }
  }

  lemma ExecKeeps(s: State, a: Action)
    requires Inv(s)
    ensures Inv(Exec(s, a))
  {
    hide Inv, Exec;
    match a
    case Work(i, ch) => WorkKeeps(s, i, ch);
    case LoopStep(turn, ok) => LoopKeeps(s, turn, ok);
    case Join => JoinKeeps(s);
    case Finisher(ok, message, output) => FinishKeeps(s, ok, message, output);
    case _ => HostKeeps(s, a);
  }

  lemma {:induction false} ExecAllKeeps(s: State, actions: seq<Action>)
    requires Inv(s)
    ensures Inv(ExecAll(s, actions))
    decreases |actions|
  {
    hide Inv, Exec;
    if actions != [] {
      ExecKeeps(s, actions[0]);
      ExecAllKeeps(Exec(s, actions[0]), actions[1..]);
    }
  }

  // ------------------------------------------------------------------ the theorems

  /**
   Under every interleaving: when the loop has exited, each operation of the run is
   over, or the run was cancelled and the loop exited with an error.
   */
  lemma {:induction false} ExitLeavesNothingOpen(s: State, actions: seq<Action>)
    requires Init(s) && ExecAll(s, actions).loop.Exited?
    ensures var e := ExecAll(s, actions);
            AllOver(e.run, e.shared) || (e.shared.record.state.RunCancelled? && !e.loop.ok)
  {
    InitInv(s);
    ExecAllKeeps(s, actions);
    ExitOwned(ExecAll(s, actions));
  }

  /**
   The finisher is never refused for pending operations, and once it has
   ended the run is terminal with exactly one terminal event in its log.
   */
  lemma {:induction false} FinishedRunsEnd(s: State, actions: seq<Action>)
    requires Init(s)
    ensures !ExecAll(s, actions).refused
    ensures var e := ExecAll(s, actions);
            e.finish.Ended? ==> IsTerminal(e.shared.record.state) && TerminalEvents(e.shared.record.events) == 1
  {
    InitInv(s);
    ExecAllKeeps(s, actions);
    OneTerminalEvent(ExecAll(s, actions).shared.record);
  }

  /** How many more of its own steps the finisher can need. */
  function FinishRank(f: FinishPc): nat {
    match f
    case Waiting => 5
    case ReadState => 4
    case Persist => 4
    case CheckOps(_) => 3
    case EndRun(_) => 2
    case CloseOps => 1
    case Ended => 0
  }

  function FinisherSteps(actions: seq<Action>): nat {
    if actions == [] then 0 else (if actions[0].Finisher? then 1 else 0) + FinisherSteps(actions[1..])
  }

  lemma RankFalls(s: State, a: Action)
    requires Inv(s) && s.loop.Exited?
    ensures var t := Exec(s, a);
            && t.loop == s.loop && FinishRank(t.finish) <= FinishRank(s.finish)
            && (a.Finisher? && !s.finish.Ended? ==> FinishRank(t.finish) < FinishRank(s.finish))
  {
    hide SharedInv, Owned, BatchInv, InOrder, AllOver, Apply, FinishStep, Unfinished, WorkerStep;
  }

  /** Once the loop has exited, five steps of the finisher end the run, whatever happens in between. */
  lemma {:induction false} ExitedRunsFinish(s: State, actions: seq<Action>)
    requires Inv(s) && s.loop.Exited? && FinisherSteps(actions) >= FinishRank(s.finish)
    ensures ExecAll(s, actions).finish.Ended? && ExecAll(s, actions).loop == s.loop
    decreases |actions|
  {
    hide Inv, Exec;
    if actions != [] {
      ExecKeeps(s, actions[0]);
      RankFalls(s, actions[0]);
      ExitedRunsFinish(Exec(s, actions[0]), actions[1..]);
    }
  }

  // ---------------------------------------------------------- why the loop goes where

  /** The calls of a batch, in order. */
  function CallsOf(ws: seq<Worker>): seq<InvocationId> {
    seq(|ws|, i requires 0 <= i < |ws| => ws[i].call)
  }

  /**
   Every change of the loop's place has its cause.  A batch holds exactly the calls of
   its turn; the loop returns to the top after a continuation or when all calls of the
   batch returned results; it ends well only after a turn without calls, and with an error
   only when cancelled, out of budget, without a turn, or after a failed call.
   */
  lemma LoopChanges(s: State, a: Action)
    ensures var l, l' := s.loop, Exec(s, a).loop;
            && (l'.Batch? && !l.Batch? ==>
                  && l.Asking? && a.LoopStep? && a.turn.ToolTurn? && a.turn.calls != []
                  && CallsOf(l'.workers) == a.turn.calls && l'.parallel == a.turn.parallel
                  && (forall i :: 0 <= i < |l'.workers| ==> l'.workers[i].pc.Consume?))
            && (l'.Batch? && l.Batch? ==> CallsOf(l'.workers) == CallsOf(l.workers) && l'.parallel == l.parallel)
            && (l'.Round? && l != l' ==> l.Top? && !s.shared.record.cancelled)
            && (l'.Asking? && l != l' ==> l.Round? && a.LoopStep? && a.ok)
            && (l'.Top? && l != l' ==>
                  (l.Asking? && a.LoopStep? && a.turn.ContinueTurn?) || (l.Batch? && a.Join? && AllReturned(l.workers, true)))
            && (l' == Exited(true) && l != l' ==>
                  l.Asking? && a.LoopStep? && (a.turn.StopTurn? || (a.turn.ToolTurn? && a.turn.calls == [])))
            && (l' == Exited(false) && l != l' ==>
                  || (l.Top? && s.shared.record.cancelled)
                  || (l.Round? && a.LoopStep? && !a.ok)
                  || (l.Asking? && a.LoopStep? && a.turn.FailTurn?)
                  || (l.Batch? && a.Join? && AnyFailed(l.workers)))
  {
    hide Apply, EmitStep, SetStateStep, CancelStep, FinishStep, Unfinished, WorkerStep;
  }

  /**
   And it does go on: a step of the loop leaves every place but a batch and the end, and
   a batch is left as soon as it is decided: when all calls returned, and in a sequence
   also at the first failure.
   */
  lemma LoopGoesOn(s: State, turn: Turn, ok: bool)
    ensures !s.loop.Batch? && !s.loop.Exited? ==> Exec(s, LoopStep(turn, ok)).loop != s.loop
    ensures s.loop.Batch? ==>
              var ws := s.loop.workers;
              (Exec(s, Join).loop != s.loop
               <==> (forall i :: 0 <= i < |ws| ==> ws[i].pc.Returned?) || (!s.loop.parallel && AnyFailed(ws)))
  {
    if s.loop.Batch? {
      var ws := s.loop.workers;
      if (forall i :: 0 <= i < |ws| ==> ws[i].pc.Returned?) && !AnyFailed(ws) {
        forall i | 0 <= i < |ws| ensures ws[i].pc == Returned(true) {}
      }
    }
  }

  /** Once the run is cancelled the loop begins no further round. */
  lemma {:induction false} NoRoundAfterCancel(s: State, actions: seq<Action>)
    requires Inv(s) && s.shared.record.cancelled && !s.loop.Round?
    ensures !ExecAll(s, actions).loop.Round?
    decreases |actions|
  {
    hide Exec, Inv;
    if actions != [] {
      ExecKeeps(s, actions[0]);
      LoopChanges(s, actions[0]);
      StaysCancelled(s, actions[0]);
      NoRoundAfterCancel(Exec(s, actions[0]), actions[1..]);
    }
  }

  lemma StaysCancelled(s: State, a: Action)
    requires Inv(s) && s.shared.record.cancelled
    ensures Exec(s, a).shared.record.cancelled
  {
    hide StoreInv, Apply, WorkerStep, PcInv, Owned, InOrder, FinishInv, Unfinished;
    LogMeansToken(s.shared.record);
    match a
    case Work(i, ch) =>
      if s.loop.Batch? && Active(s.loop.workers, s.loop.parallel, i) {
        WorkerKeeps(s.run, s.shared, s.loop.workers[i].call, s.loop.workers[i].pc, ch);
      }
    case _ =>
  }

  /**
   A cancellation that was accepted closes the operations with its second half, whatever
   happens in between: none of the run's is pending or approved afterwards, and no more
   are registered.
   */
  lemma {:induction false} CancelCloses(s: State, between: seq<Action>, after: seq<Action>)
    requires Inv(s) && !IsTerminal(s.shared.record.state)
    requires forall i :: 0 <= i < |between| ==> !between[i].CancelOps?
    ensures var e := ExecAll(Exec(ExecAll(Exec(s, CancelBegin), between), CancelOps), after);
            && e.shared.record.state.RunCancelled? && s.run in e.shared.store.terminalRuns
            && forall op :: Mine(s.run, e.shared.store, op) ==>
                 !e.shared.store.operations[op].state.Pending? && !e.shared.store.operations[op].state.Approved?
  {
    hide Exec, Inv;
    var begun := Exec(s, CancelBegin);
    ExecKeeps(s, CancelBegin);
    BeginsCancelling(s);
    StillCancelling(begun, between);
    var t := ExecAll(begun, between);
    ExecKeeps(t, CancelOps);
    ClosesNow(t);
    StaysClosed(Exec(t, CancelOps), after);
  }

  lemma BeginsCancelling(s: State)
    requires Inv(s) && !IsTerminal(s.shared.record.state)
    ensures var t := Exec(s, CancelBegin); t.cancelling && t.shared.record.cancelled && t.run == s.run
  {
    hide CancelStep;
    StepAnswers(s.shared.record, Running, CancelledEvent);
    StepsAppend(s.shared.record, Running, CancelledEvent);
  }

  lemma {:induction false} StillCancelling(s: State, actions: seq<Action>)
    requires Inv(s) && s.cancelling && s.shared.record.cancelled && forall i :: 0 <= i < |actions| ==> !actions[i].CancelOps?
    ensures var t := ExecAll(s, actions); Inv(t) && t.cancelling && t.shared.record.cancelled && t.run == s.run
    decreases |actions|
  {
    hide Exec, Inv;
    if actions != [] {
      ExecKeeps(s, actions[0]);
      StaysCancelled(s, actions[0]);
      OnlyClosingEnds(s, actions[0]);
      StillCancelling(Exec(s, actions[0]), actions[1..]);
    }
  }

  lemma OnlyClosingEnds(s: State, a: Action)
    ensures Exec(s, a).run == s.run && (s.cancelling && !a.CancelOps? ==> Exec(s, a).cancelling)
  {
    hide Apply, EmitStep, SetStateStep, CancelStep, FinishStep, Unfinished, WorkerStep;
  }

  lemma ClosesNow(s: State)
    requires s.cancelling
    ensures s.run in Exec(s, CancelOps).shared.store.terminalRuns && Exec(s, CancelOps).run == s.run
    ensures Exec(s, CancelOps).shared.record == s.shared.record
  {
  }

  lemma {:induction false} StaysClosed(s: State, actions: seq<Action>)
    requires Inv(s) && s.run in s.shared.store.terminalRuns && s.shared.record.cancelled
    ensures var e := ExecAll(s, actions);
            && Inv(e) && e.run == s.run && e.shared.record.state.RunCancelled? && s.run in e.shared.store.terminalRuns
            && forall op :: Mine(s.run, e.shared.store, op) ==>
                 !e.shared.store.operations[op].state.Pending? && !e.shared.store.operations[op].state.Approved?
    decreases |actions|
  {
    hide Exec;
    if actions == [] {
      LogMeansToken(s.shared.record);
    } else {
      ExecKeeps(s, actions[0]);
      StaysCancelled(s, actions[0]);
      OnlyClosingEnds(s, actions[0]);
      ClosedRunsStay(s, actions[0]);
      StaysClosed(Exec(s, actions[0]), actions[1..]);
    }
  }

  lemma ClosedRunsStay(s: State, a: Action)
    requires Inv(s)
    ensures s.shared.store.terminalRuns <= Exec(s, a).shared.store.terminalRuns
  {
    hide LogInv, Refusal, PcInv, Owned, InOrder, FinishInv, EmitStep, SetStateStep, CancelStep, FinishStep, Unfinished, Poll;
  }

  // ------------------------------------------------------------ how the finisher ends it

  /** The finisher's own step on saving, or on the loop's failure, is the one that decides. */
  function Verdict(s: State, a: Action): Option<RunEvent> {
    if !a.Finisher? then None
    else if s.finish.Persist? then Some(if a.ok then CompletedEvent(a.output) else FailedEvent(a.message))
    else if s.finish.ReadState? then Some(FailedEvent(a.message))
    else None
  }

  /** The last verdict of a list of actions. */
  function Verdicts(s: State, actions: seq<Action>, verdict: Option<RunEvent>): Option<RunEvent>
    decreases |actions|
  {
    if actions == [] then verdict
    else Verdicts(Exec(s, actions[0]), actions[1..], if Verdict(s, actions[0]).Some? then Verdict(s, actions[0]) else verdict)
  }

  /** Until it is written the verdict waits; an ended run shows it, unless it was cancelled. */
  ghost predicate VerdictInv(s: State, verdict: Option<RunEvent>) {
    && (s.finish.CheckOps? || s.finish.EndRun? ==> verdict == Some(s.finish.event))
    && (s.finish.CloseOps? || s.finish.Ended? ==>
          s.shared.record.state.RunCancelled?
          || (s.shared.record.events != [] && verdict == Some(Last(s.shared.record).event)))
  }

  lemma VerdictKeeps(s: State, a: Action, verdict: Option<RunEvent>)
    requires Inv(s) && VerdictInv(s, verdict)
    ensures VerdictInv(Exec(s, a), if Verdict(s, a).Some? then Verdict(s, a) else verdict)
  {
    hide StoreInv, LogInv, Apply, WorkerStep, PcInv, Owned, InOrder, Unfinished, EmitStep, SetStateStep, CancelStep, FinishStep;
    var r := s.shared.record;
    if IsTerminal(r.state) { TerminalRecordStays(s, a); }
    match a
    case Finisher(_, _, _) =>
      if s.finish.CheckOps? { NothingUnfinished(s.run, s.shared); }
      if s.finish.EndRun? {
        if IsTerminal(r.state) { StepAnswers(r, Running, s.finish.event); }
        else {
          StepsAppend(r, Running, s.finish.event);
          StepAnswers(r, Running, s.finish.event);
        }
      }
    case _ =>
  }

  lemma TerminalRecordStays(s: State, a: Action)
    requires Inv(s) && IsTerminal(s.shared.record.state)
    ensures Exec(s, a).shared.record.state == s.shared.record.state && Exec(s, a).shared.record.events == s.shared.record.events
  {
    hide StoreInv, LogInv, Apply, WorkerStep, PcInv, Owned, InOrder, FinishInv, Unfinished;
    match a
    case Work(i, ch) =>
      if s.loop.Batch? && Active(s.loop.workers, s.loop.parallel, i) {
        WorkerKeeps(s.run, s.shared, s.loop.workers[i].call, s.loop.workers[i].pc, ch);
      }
    case _ =>
  }

  lemma {:induction false} VerdictsKept(s: State, actions: seq<Action>, verdict: Option<RunEvent>)
    requires Inv(s) && VerdictInv(s, verdict)
    ensures VerdictInv(ExecAll(s, actions), Verdicts(s, actions, verdict))
    decreases |actions|
  {
    hide Exec, Inv, VerdictInv, Verdict;
    if actions != [] {
      var next := if Verdict(s, actions[0]).Some? then Verdict(s, actions[0]) else verdict;
      ExecKeeps(s, actions[0]);
      VerdictKeeps(s, actions[0], verdict);
      VerdictsKept(Exec(s, actions[0]), actions[1..], next);
    }
  }

  /**
   A run that was not cancelled ends as its finisher decided: completed with the loop's
   output when that was saved, failed with the message otherwise.
   */
  lemma {:induction false} EndsAsDecided(s: State, actions: seq<Action>)
    requires Init(s) && ExecAll(s, actions).finish.Ended?
    ensures var e := ExecAll(s, actions);
            || e.shared.record.state.RunCancelled?
            || (e.shared.record.events != [] && Verdicts(s, actions, None) == Some(Last(e.shared.record).event))
  {
    InitInv(s);
    VerdictsKept(s, actions, None);
  }
}
