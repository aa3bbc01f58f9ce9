/**
 One spawned run as a transition system.

 The coordinator's loop, the tool calls of a batch, the finisher of the run
 and the host take atomic steps in any order.  Each step is one locked method of
 the run table or the operation store, or one decision of code the model does not
 look into (the provider, the policy, a tool, a budget), which is a free choice.
 */
module Protocol {
  import opened Wrappers
  import opened Operations
  import opened RunLog

  type InvocationId(==) = nat

  /** What the tool calls of a run share. */
  datatype Shared = Shared(record: RunRecord, store: Store, ledger: set<InvocationId>, starts: multiset<InvocationId>)

  datatype Approval = Unasked | Approval(op: OperationId, mode: OperationMode)

  /** Where one tool call is in `execute_registered_tool`. */
  datatype Pc =
    | Consume
    | CheckLedger
    | Prepare
    | ValidationStarted
    | ValidationFinished
    | RegisterOp(mode: OperationMode, deadline: Option<int>)
    | AwaitState(op: OperationId, mode: OperationMode)
    | Announce(op: OperationId, mode: OperationMode)
    | Wait(op: OperationId, mode: OperationMode)
    | ResumeApproved(op: OperationId, mode: OperationMode)
    | ResumeRejected
    | AnnounceStart(approval: Approval)
    | Select(approval: Approval)
    | Executing(approval: Approval)
    | SettleFailure(approval: Approval)
    | SettleSuccess(approval: Approval)
    | RecordResult
    | AnnounceFinish
    | Returned(ok: bool)

  /** Free choices: outcomes of code outside the model, and fresh identifiers. */
  datatype Choice =
    | Proceed
    | Fail
    | Validate
    | Deny
    | Ask(mode: OperationMode, deadline: Option<int>)
    | Identify(id: OperationId, now: int)
    | NoticeCancellation

  function EmitThen(sh: Shared, e: RunEvent, next: Pc): (Shared, Pc) {
    var (r, answer) := EmitStep(sh.record, e);
    (sh.(record := r), if answer.Ok? then next else Returned(false))
  }

  function SetStateThen(sh: Shared, s: RunState, next: Pc): (Shared, Pc) {
    var (r, answer) := SetStateStep(sh.record, s);
    (sh.(record := r), if answer.Ok? then next else Returned(false))
  }

  /** The call `finish_host_operation` makes. */
  function FinishCall(run: RunId, a: Approval, effect: Effect): Call
    requires a.Approval?
  {
    if a.mode.BlockingApproval? then FinishBlockingApproval(run, a.op, effect) else FinishCommit(run, a.op, effect)
  }

  /** One step of a tool call; a choice that does not fit the place changes nothing. */
  function WorkerStep(run: RunId, sh: Shared, call: InvocationId, pc: Pc, ch: Choice): (Shared, Pc) {
    match pc
    case Consume => (sh, if ch.Fail? then Returned(false) else CheckLedger)
    case CheckLedger => (sh, if call in sh.ledger then Returned(true) else Prepare)
    case Prepare =>
      (sh, match ch
           case Fail => Returned(false)
           case Validate => ValidationStarted
           case Deny => Returned(true)
           case Ask(mode, deadline) => RegisterOp(mode, deadline)
           case _ => AnnounceStart(Unasked))
    case ValidationStarted => EmitThen(sh, ToolStarted(call), ValidationFinished)
    case ValidationFinished => EmitThen(sh, ToolFinished(call), Returned(true))
    case RegisterOp(mode, deadline) =>
      if !ch.Identify? then (sh, pc)
      else
        var c := Register(Operation(ch.id, run, mode, deadline), ch.now);
        (sh.(store := Apply(sh.store, c)), if Refusal(sh.store, c).Some? then Returned(false) else AwaitState(ch.id, mode))
    case AwaitState(op, mode) => SetStateThen(sh, AwaitingOperation, Announce(op, mode))
    case Announce(op, mode) => EmitThen(sh, OperationRequested(op), Wait(op, mode))
    case Wait(op, mode) =>
      (sh, match Poll(sh.store, run, op, mode)
           case None => pc
           case Some(Err(_)) => Returned(false)
           case Some(Ok(Approve(_))) => ResumeApproved(op, mode)
           case Some(Ok(Reject(_))) => ResumeRejected)
    case ResumeApproved(op, mode) => SetStateThen(sh, Running, AnnounceStart(Approval(op, mode)))
    case ResumeRejected => SetStateThen(sh, Running, Returned(true))
    case AnnounceStart(a) => EmitThen(sh, ToolStarted(call), Select(a))
    case Select(a) =>
      if ch.NoticeCancellation? then (sh, if sh.record.cancelled then SettleFailure(a) else pc)
      else (sh.(starts := sh.starts + multiset{call}), Executing(a))
    case Executing(a) =>
      (sh, if ch.NoticeCancellation? then (if sh.record.cancelled then SettleFailure(a) else pc)
           else if ch.Fail? then SettleFailure(a) else SettleSuccess(a))
    case SettleFailure(a) =>
      (if a.Unasked? then sh else sh.(store := Apply(sh.store, FinishCall(run, a, Broken("")))), Returned(false))
    case SettleSuccess(a) =>
      if a.Unasked? then (sh, RecordResult)
      else
        var c := FinishCall(run, a, Done);
        (sh.(store := Apply(sh.store, c)), if Refusal(sh.store, c).Some? then Returned(false) else RecordResult)
    case RecordResult => (sh.(ledger := sh.ledger + {call}), AnnounceFinish)
    case AnnounceFinish => EmitThen(sh, ToolFinished(call), Returned(true))
    case Returned(_) => (sh, pc)
  }

  // --------------------------------------------------- what one call may rely on

  ghost predicate SharedInv(run: RunId, sh: Shared) {
    sh.record.id == run && LogInv(sh.record) && StoreInv(sh.store)
  }

  /** The operation a call is responsible for. */
  function Held(pc: Pc): Option<OperationId> {
    match pc
    case AwaitState(op, _) => Some(op)
    case Announce(op, _) => Some(op)
    case Wait(op, _) => Some(op)
    case ResumeApproved(op, _) => Some(op)
    case AnnounceStart(a) => HeldApproval(a)
    case Select(a) => HeldApproval(a)
    case Executing(a) => HeldApproval(a)
    case SettleFailure(a) => HeldApproval(a)
    case SettleSuccess(a) => HeldApproval(a)
    case _ => None
  }

  function HeldApproval(a: Approval): Option<OperationId> {
    if a.Unasked? then None else Some(a.op)
  }

  predicate Registered(run: RunId, s: Store, op: OperationId, mode: OperationMode) {
    op in s.operations && s.operations[op].operation.run == run && s.operations[op].operation.mode == mode
  }

  /** The operation was granted: it can be settled, or something else already settled it. */
  predicate Granted(run: RunId, s: Store, a: Approval) {
    a.Approval? ==>
      && Registered(run, s, a.op, a.mode)
      && var state := s.operations[a.op].state;
         Terminal(state) || (if a.mode.BlockingApproval? then state.Approved? else state.Committing?)
  }

  /** What holds of the operation a call is responsible for, by place. */
  predicate PcInv(run: RunId, s: Store, pc: Pc) {
    match pc
    case AwaitState(op, mode) => Registered(run, s, op, mode)
    case Announce(op, mode) => Registered(run, s, op, mode)
    case Wait(op, mode) => Registered(run, s, op, mode)
    case ResumeApproved(op, mode) => Granted(run, s, Approval(op, mode))
    case AnnounceStart(a) => Granted(run, s, a)
    case Select(a) => Granted(run, s, a)
    case Executing(a) => Granted(run, s, a)
    case SettleFailure(a) => Granted(run, s, a)
    case SettleSuccess(a) => Granted(run, s, a)
    case _ => true
  }

  predicate Mine(run: RunId, s: Store, op: OperationId) {
    op in s.operations && s.operations[op].operation.run == run
  }

  predicate Over(s: Store, op: OperationId) {
    op in s.operations && Terminal(s.operations[op].state)
  }

  /** What any step does to the shared state. */
  ghost predicate Moves(sh: Shared, sh': Shared) {
    && Extends(sh.record, sh'.record)
    && sh.ledger <= sh'.ledger
    && forall op :: op in sh.store.operations ==>
         op in sh'.store.operations && Advances(sh.store.operations[op], sh'.store.operations[op])
  }

  /** A call's own knowledge survives the steps of everyone else. */
  lemma PcInvStable(run: RunId, sh: Shared, sh': Shared, pc: Pc)
    requires Moves(sh, sh') && PcInv(run, sh.store, pc)
    ensures PcInv(run, sh'.store, pc)
  {
  }

  lemma MovesRefl(sh: Shared)
    ensures Moves(sh, sh)
  {
  }

  /** The steps that go through the log. */
  lemma LogStep(run: RunId, sh: Shared, e: RunEvent, s: RunState, next: Pc)
    requires SharedInv(run, sh) && TerminalState(e).None? && !e.RunStarted? && !IsTerminal(s)
    ensures var (sh', pc') := EmitThen(sh, e, next);
            && SharedInv(run, sh') && Moves(sh, sh') && sh'.store == sh.store
            && sh'.ledger == sh.ledger && sh'.starts == sh.starts && sh'.record.state == sh.record.state
            && pc' == if IsTerminal(sh.record.state) then Returned(false) else next
    ensures var (sh', pc') := SetStateThen(sh, s, next);
            && SharedInv(run, sh') && Moves(sh, sh') && sh'.store == sh.store
            && sh'.ledger == sh.ledger && sh'.starts == sh.starts
            && IsTerminal(sh'.record.state) == IsTerminal(sh.record.state)
            && pc' == if IsTerminal(sh.record.state) then Returned(false) else next
  {
    hide LogInv, Advances;
    StepsKeepLog(sh.record, s, e);
    StepAnswers(sh.record, s, e);
    NonTerminalSteps(sh.record, s, e);
    forall op | op in sh.store.operations ensures Advances(sh.store.operations[op], sh.store.operations[op]) {
      AdvancesRefl(sh.store.operations[op]);
    }
  }

  lemma NonTerminalSteps(r: RunRecord, s: RunState, e: RunEvent)
    requires TerminalState(e).None? && !IsTerminal(s)
    ensures EmitStep(r, e).0.state == r.state && EmitStep(r, e).0.id == r.id
    ensures IsTerminal(SetStateStep(r, s).0.state) == IsTerminal(r.state) && SetStateStep(r, s).0.id == r.id
  {
  }

  /** The steps that go through the store. */
  lemma StoreStep(run: RunId, sh: Shared, c: Call)
    requires SharedInv(run, sh)
    ensures var sh' := sh.(store := Apply(sh.store, c));
            SharedInv(run, sh') && Moves(sh, sh')
  {
    hide LogInv, Apply, Refusal, Advances;
    ApplyKeeps(sh.store, c);
  }

  /** Settling a granted operation ends it. */
  lemma Settles(run: RunId, s: Store, a: Approval, effect: Effect)
    requires StoreInv(s) && a.Approval? && Granted(run, s, a)
    ensures Over(Apply(s, FinishCall(run, a, effect)), a.op)
    ensures Refusal(s, FinishCall(run, a, effect)).Some? ==> Over(s, a.op)
  {
  }

  /**
   What one step of a tool call guarantees: the shared invariants hold, the call
   knows what it needs at its new place, a new operation of the run is the one it
   now holds, and it lets go of an operation only when that is over or the run is
   terminal and the call has failed.
   */
  ghost predicate GoodStep(run: RunId, sh: Shared, pc: Pc, sh': Shared, pc': Pc) {
    && SharedInv(run, sh') && Moves(sh, sh') && PcInv(run, sh'.store, pc')
    && IsTerminal(sh'.record.state) == IsTerminal(sh.record.state)
    && (forall op :: op in sh'.store.operations && op !in sh.store.operations ==> Held(pc') == Some(op))
    && (Held(pc).Some? ==>
          || Held(pc') == Held(pc)
          || Over(sh'.store, Held(pc).value)
          || (IsTerminal(sh'.record.state) && pc' == Returned(false)))
  }

  lemma WorkerKeeps(run: RunId, sh: Shared, call: InvocationId, pc: Pc, ch: Choice)
    requires SharedInv(run, sh) && PcInv(run, sh.store, pc)
    ensures GoodStep(run, sh, pc, WorkerStep(run, sh, call, pc, ch).0, WorkerStep(run, sh, call, pc, ch).1)
  {
    hide SharedInv, PcInv, GoodStep, WorkerStep;
    match pc
    case RegisterOp(_, _) => StoreWorker(run, sh, call, pc, ch);
    case Wait(_, _) => StoreWorker(run, sh, call, pc, ch);
    case SettleFailure(_) => StoreWorker(run, sh, call, pc, ch);
    case SettleSuccess(_) => StoreWorker(run, sh, call, pc, ch);
    case Consume => QuietWorker(run, sh, call, pc, ch);
    case CheckLedger => QuietWorker(run, sh, call, pc, ch);
    case Prepare => QuietWorker(run, sh, call, pc, ch);
    case Select(_) => QuietWorker(run, sh, call, pc, ch);
    case Executing(_) => QuietWorker(run, sh, call, pc, ch);
    case RecordResult => QuietWorker(run, sh, call, pc, ch);
    case Returned(_) => QuietWorker(run, sh, call, pc, ch);
    case _ => LogWorker(run, sh, call, pc, ch);
  }

  /** Places whose step touches neither the log nor the store. */
  lemma QuietWorker(run: RunId, sh: Shared, call: InvocationId, pc: Pc, ch: Choice)
    requires SharedInv(run, sh) && PcInv(run, sh.store, pc)
    requires pc.Consume? || pc.CheckLedger? || pc.Prepare? || pc.Select? || pc.Executing? || pc.RecordResult? || pc.Returned?
    ensures GoodStep(run, sh, pc, WorkerStep(run, sh, call, pc, ch).0, WorkerStep(run, sh, call, pc, ch).1)
  {
    hide LogInv, StoreInv, Advances;
    forall op | op in sh.store.operations ensures Advances(sh.store.operations[op], sh.store.operations[op]) {
      AdvancesRefl(sh.store.operations[op]);
    }
  }

  predicate Logs(pc: Pc) {
    pc.ValidationStarted? || pc.ValidationFinished? || pc.AwaitState? || pc.Announce?
    || pc.ResumeApproved? || pc.ResumeRejected? || pc.AnnounceStart? || pc.AnnounceFinish?
  }

  /** Where a logging place leads when the run is still live. */
  function AfterLog(pc: Pc): Pc
    requires Logs(pc)
  {
    match pc
    case ValidationStarted => ValidationFinished
    case ValidationFinished => Returned(true)
    case AwaitState(op, mode) => Announce(op, mode)
    case Announce(op, mode) => Wait(op, mode)
    case ResumeApproved(op, mode) => AnnounceStart(Approval(op, mode))
    case ResumeRejected => Returned(true)
    case AnnounceStart(a) => Select(a)
    case AnnounceFinish => Returned(true)
  }

  /** Places whose step appends to the log. */
  lemma LogWorker(run: RunId, sh: Shared, call: InvocationId, pc: Pc, ch: Choice)
    requires SharedInv(run, sh) && PcInv(run, sh.store, pc) && Logs(pc)
    ensures GoodStep(run, sh, pc, WorkerStep(run, sh, call, pc, ch).0, WorkerStep(run, sh, call, pc, ch).1)
    ensures WorkerStep(run, sh, call, pc, ch).1 == if IsTerminal(sh.record.state) then Returned(false) else AfterLog(pc)
    ensures var sh' := WorkerStep(run, sh, call, pc, ch).0;
            sh'.store == sh.store && sh'.ledger == sh.ledger && sh'.starts == sh.starts
  {
    hide LogInv, StoreInv, Moves, EmitThen, SetStateThen, Granted, SharedInv;
    var e := match pc case Announce(op, _) => OperationRequested(op)
                      case ValidationFinished => ToolFinished(call)
                      case AnnounceFinish => ToolFinished(call)
                      case _ => ToolStarted(call);
    LogStep(run, sh, e, if pc.AwaitState? then AwaitingOperation else Running, AfterLog(pc));
  }

  /** Places whose step goes through the operation store. */
  lemma StoreWorker(run: RunId, sh: Shared, call: InvocationId, pc: Pc, ch: Choice)
    requires SharedInv(run, sh) && PcInv(run, sh.store, pc)
    requires pc.RegisterOp? || pc.Wait? || pc.SettleFailure? || pc.SettleSuccess?
    ensures GoodStep(run, sh, pc, WorkerStep(run, sh, call, pc, ch).0, WorkerStep(run, sh, call, pc, ch).1)
  {
    hide LogInv, StoreInv, Moves, Apply, Refusal, Poll, Granted;
    MovesRefl(sh);
    match pc
    case RegisterOp(mode, deadline) =>
      if ch.Identify? { RegisterStep(run, sh, Operation(ch.id, run, mode, deadline), ch.now); }
    case Wait(op, mode) => WaitStep(run, sh, op);
    case SettleFailure(a) =>
      if a.Approval? { SettleStep(run, sh, a, Broken("")); }
    case SettleSuccess(a) =>
      if a.Approval? { SettleStep(run, sh, a, Done); }
    case _ => {}
  }

  lemma RegisterStep(run: RunId, sh: Shared, op: Operation, now: int)
    requires SharedInv(run, sh) && op.run == run
    ensures var c := Register(op, now);
            var sh' := sh.(store := Apply(sh.store, c));
            && SharedInv(run, sh') && Moves(sh, sh')
            && (Refusal(sh.store, c).None? ==> Registered(run, sh'.store, op.id, op.mode))
            && (forall o :: o in sh'.store.operations && o !in sh.store.operations ==>
                  o == op.id && Refusal(sh.store, c).None?)
  {
    hide LogInv, Advances;
    StoreStep(run, sh, Register(op, now));
  }

  lemma WaitStep(run: RunId, sh: Shared, op: OperationId)
    requires StoreInv(sh.store) && Mine(run, sh.store, op)
    ensures var mode := sh.store.operations[op].operation.mode;
            match Poll(sh.store, run, op, mode)
            case None => true
            case Some(Err(_)) => Over(sh.store, op)
            case Some(Ok(Approve(_))) => Granted(run, sh.store, Approval(op, mode))
            case Some(Ok(Reject(_))) => Over(sh.store, op)
  {
    PollMeaning(sh.store, run, op);
  }

  lemma SettleStep(run: RunId, sh: Shared, a: Approval, effect: Effect)
    requires SharedInv(run, sh) && a.Approval? && Granted(run, sh.store, a)
    ensures var c := FinishCall(run, a, effect);
            var sh' := sh.(store := Apply(sh.store, c));
            && SharedInv(run, sh') && Moves(sh, sh') && Over(sh'.store, a.op)
            && (forall o :: o in sh'.store.operations ==> o in sh.store.operations)
  {
    hide LogInv, Advances;
    StoreStep(run, sh, FinishCall(run, a, effect));
    Settles(run, sh.store, a, effect);
    FinishAddsNothing(sh.store, FinishCall(run, a, effect));
  }

  lemma FinishAddsNothing(s: Store, c: Call)
    requires !c.Register?
    ensures forall o :: o in Apply(s, c).operations ==> o in s.operations
  {
  }
}
