/**
 The operation store: approvals and deferred commits of a run's side effects.

 Every method of the source runs under one lock, so each is one atomic step.  The
 steps are functions on a store value; the class performs them in place.
 */
module Operations {
  import opened Wrappers

  type RunId(==) = nat
  type OperationId(==) = nat

  datatype OperationMode = BlockingApproval | DeferredCommit

  datatype Decision = Approve(data: Option<string>) | Reject(reason: Option<string>)

  datatype OperationState =
    | Pending | Approved | Rejected | Committing | Committed | Failed(message: string) | Cancelled | Expired

  predicate Terminal(s: OperationState) {
    s.Rejected? || s.Committed? || s.Failed? || s.Cancelled? || s.Expired?
  }

  datatype Operation = Operation(id: OperationId, run: RunId, mode: OperationMode, deadline: Option<int>)

  datatype Record = Record(operation: Operation, state: OperationState, decision: Option<Decision>)

  datatype OperationError =
    | IdentifierCollision | UnknownOperation | WrongRun | AlreadyResolved | BlockingWaitRequired
    | DeferredCommitRequired | InvalidState | RunTerminal | RunCancelled | OperationExpired | CommitFailed(message: string)

  datatype Store = Store(operations: map<OperationId, Record>, terminalRuns: set<RunId>)

  /** The outcome of an effect: success or a failure message. */
  datatype Effect = Done | Broken(message: string)

  /** The calls that change a store. */
  datatype Call =
    | Register(operation: Operation, now: int)
    | Resolve(run: RunId, id: OperationId, decision: Decision)
    | BeginCommit(run: RunId, id: OperationId)
    | FinishBlockingApproval(run: RunId, id: OperationId, effect: Effect)
    | FinishCommit(run: RunId, id: OperationId, effect: Effect)
    | CancelRun(run: RunId)
    | Expire(now: int)

  function Due(deadline: Option<int>, now: int): bool {
    deadline.Some? && deadline.value <= now
  }

  /** The record of an operation of a run, or why there is none. */
  function RecordForRun(s: Store, run: RunId, id: OperationId): Result<Record, OperationError> {
    if id !in s.operations then Err(UnknownOperation)
    else if s.operations[id].operation.run != run then Err(WrongRun)
    else Ok(s.operations[id])
  }

  function Put(s: Store, id: OperationId, r: Record): Store {
    s.(operations := s.operations[id := r])
  }

  function AfterEffect(e: Effect): OperationState {
    match e case Done => Committed case Broken(m) => Failed(m)
  }

  /** The error a call meets, if any. */
  function Refusal(s: Store, c: Call): Option<OperationError> {
    match c
    case Register(op, now) =>
      if op.run in s.terminalRuns then Some(RunTerminal)
      else if op.id in s.operations then Some(IdentifierCollision)
      else if Due(op.deadline, now) then Some(OperationExpired)
      else None
    case Resolve(run, id, decision) =>
      if run in s.terminalRuns then Some(RunTerminal)
      else (match RecordForRun(s, run, id)
            case Err(e) => Some(e)
            case Ok(r) =>
              if r.state != Pending then Some(AlreadyResolved)
              else if r.operation.mode.DeferredCommit? && decision.Approve? then Some(DeferredCommitRequired)
              else None)
    case BeginCommit(run, id) =>
      if run in s.terminalRuns then Some(RunTerminal)
      else (match RecordForRun(s, run, id)
            case Err(e) => Some(e)
            case Ok(r) =>
              if !r.operation.mode.DeferredCommit? then Some(DeferredCommitRequired)
              else if r.state != Pending then Some(AlreadyResolved)
              else None)
    case FinishBlockingApproval(run, id, _) =>
      (match RecordForRun(s, run, id)
       case Err(e) => Some(e)
       case Ok(r) => if !r.operation.mode.BlockingApproval? || r.state != Approved then Some(InvalidState) else None)
    case FinishCommit(run, id, _) =>
      (match RecordForRun(s, run, id)
       case Err(e) => Some(e)
       case Ok(r) => if r.state != Committing then Some(InvalidState) else None)
    case CancelRun(_) => None
    case Expire(_) => None
  }

  /** Operations that the end of a run cancels. */
  predicate Open(r: Record, run: RunId) {
    r.operation.run == run && (r.state.Pending? || r.state.Approved?)
  }

  predicate Overdue(r: Record, now: int) {
    r.state.Pending? && Due(r.operation.deadline, now)
  }

  /** The store after a call; refused calls change nothing. */
  function Apply(s: Store, c: Call): Store {
    if Refusal(s, c).Some? then s
    else match c
      case Register(op, _) => Put(s, op.id, Record(op, Pending, None))
      case Resolve(_, id, decision) =>
        Put(s, id, s.operations[id].(state := if decision.Approve? then Approved else Rejected, decision := Some(decision)))
      case BeginCommit(_, id) => Put(s, id, s.operations[id].(state := Committing))
      case FinishBlockingApproval(_, id, effect) => Put(s, id, s.operations[id].(state := AfterEffect(effect)))
      case FinishCommit(_, id, effect) => Put(s, id, s.operations[id].(state := AfterEffect(effect)))
      case CancelRun(run) =>
        Store(map id | id in s.operations ::
                if Open(s.operations[id], run) then s.operations[id].(state := Cancelled) else s.operations[id],
              s.terminalRuns + {run})
      case Expire(now) =>
        s.(operations := map id | id in s.operations ::
             if Overdue(s.operations[id], now) then s.operations[id].(state := Expired) else s.operations[id])
  }

  /** The operations of a run that are not over. */
  function Unfinished(s: Store, run: RunId): set<OperationId> {
    set id | id in s.operations && s.operations[id].operation.run == run && !Terminal(s.operations[id].state)
  }

  // ------------------------------------------------------------ the mode discipline

  /**
   What a record may look like.  A decision is stored exactly when one was taken;
   approval belongs to blocking operations and committing to deferred ones.
   */
  predicate Disciplined(r: Record) {
    && (r.state.Pending? ==> r.decision.None?)
    && (r.state.Approved? ==> r.operation.mode.BlockingApproval? && r.decision.Some? && r.decision.value.Approve?)
    && (r.state.Rejected? ==> r.decision.Some? && r.decision.value.Reject?)
    && (r.state.Committing? ==> r.operation.mode.DeferredCommit? && r.decision.None?)
    && (r.state.Committed? || r.state.Failed? ==>
          if r.operation.mode.BlockingApproval? then r.decision.Some? && r.decision.value.Approve? else r.decision.None?)
    && (r.state.Expired? ==> r.decision.None?)
    && (r.state.Cancelled? ==> r.decision.None? || (r.operation.mode.BlockingApproval? && r.decision.value.Approve?))
  }

  ghost predicate StoreInv(s: Store) {
    && (forall id :: id in s.operations ==> s.operations[id].operation.id == id && Disciplined(s.operations[id]))
    && (forall id :: id in s.operations && s.operations[id].operation.run in s.terminalRuns ==>
          !s.operations[id].state.Pending? && !s.operations[id].state.Approved?)
  }

  /** One step of a record: terminal states and decisions are final, the operation is fixed. */
  ghost predicate Advances(r: Record, r': Record) {
    && r'.operation == r.operation
    && (Terminal(r.state) ==> r' == r)
    && (r.decision.Some? ==> r'.decision == r.decision)
    && (r.state.Approved? ==> r'.state.Approved? || r'.state.Committed? || r'.state.Failed? || r'.state.Cancelled?)
    && (r.state.Committing? ==> r'.state.Committing? || r'.state.Committed? || r'.state.Failed?)
    && (!r.state.Pending? ==> !r'.state.Pending?)
  }

  /** Every call keeps the invariant, removes nothing and only advances records. */
  lemma ApplyKeeps(s: Store, c: Call)
    requires StoreInv(s)
    ensures StoreInv(Apply(s, c))
    ensures s.terminalRuns <= Apply(s, c).terminalRuns
    ensures forall id :: id in s.operations ==>
              id in Apply(s, c).operations && Advances(s.operations[id], Apply(s, c).operations[id])
  {
    hide Disciplined, Advances;
    forall id | id in s.operations ensures Advances(s.operations[id], s.operations[id]) { AdvancesRefl(s.operations[id]); }
    if Refusal(s, c).None? {
      match c
      case Register(op, _) => FreshRecord(op);
      case CancelRun(run) =>
        forall id | id in s.operations && Open(s.operations[id], run) { Closes(s.operations[id], Cancelled); }
      case Expire(now) =>
        forall id | id in s.operations && Overdue(s.operations[id], now) { Closes(s.operations[id], Expired); }
      case Resolve(_, id, _) => Decided(s, c, id);
      case BeginCommit(_, id) => Decided(s, c, id);
      case FinishBlockingApproval(_, id, _) => Decided(s, c, id);
      case FinishCommit(_, id, _) => Decided(s, c, id);
    }
  }

  lemma FreshRecord(op: Operation)
    ensures Disciplined(Record(op, Pending, None))
  {
  }

  lemma Closes(r: Record, state: OperationState)
    requires Disciplined(r) && ((state.Cancelled? && (r.state.Pending? || r.state.Approved?)) || (state.Expired? && r.state.Pending?))
    ensures Disciplined(r.(state := state)) && Advances(r, r.(state := state))
  {
  }

  /** A call that moves the record of one operation moves it forward. */
  lemma Decided(s: Store, c: Call, id: OperationId)
    requires StoreInv(s) && Refusal(s, c).None? && (c.Resolve? || c.BeginCommit? || c.FinishBlockingApproval? || c.FinishCommit?) && c.id == id
    ensures id in s.operations
    ensures var r' := Apply(s, c).operations[id];
            && Disciplined(r') && Advances(s.operations[id], r')
            && (r'.operation.run in s.terminalRuns ==> !r'.state.Pending? && !r'.state.Approved?)
            && Apply(s, c) == Put(s, id, r')
  {
  }

  function Run(s: Store, calls: seq<Call>): Store
    decreases |calls|
  {
    if calls == [] then s else Run(Apply(s, calls[0]), calls[1..])
  }

  lemma AdvancesTrans(a: Record, b: Record, c: Record)
    requires Advances(a, b) && Advances(b, c)
    ensures Advances(a, c)
  {
  }

  /** Over every sequence of calls: the discipline holds and records only advance. */
  lemma {:induction false} RunKeeps(s: Store, calls: seq<Call>)
    requires StoreInv(s)
    ensures StoreInv(Run(s, calls)) && s.terminalRuns <= Run(s, calls).terminalRuns
    ensures forall id :: id in s.operations ==>
              id in Run(s, calls).operations && Advances(s.operations[id], Run(s, calls).operations[id])
    decreases |calls|
  {
    hide Apply, Refusal, Advances, StoreInv;
    if calls == [] {
      forall id | id in s.operations ensures Advances(s.operations[id], s.operations[id]) { AdvancesRefl(s.operations[id]); }
    } else {
      var t := Apply(s, calls[0]);
      ApplyKeeps(s, calls[0]);
      RunKeeps(t, calls[1..]);
      forall id | id in s.operations ensures Advances(s.operations[id], Run(s, calls).operations[id]) {
        AdvancesTrans(s.operations[id], t.operations[id], Run(s, calls).operations[id]);
      }
    }
  }

  lemma AdvancesRefl(r: Record)
    ensures Advances(r, r)
  {
  }

  /**
   Once a run is marked terminal, none of its operations is pending or approved
   again, whatever is called afterwards, including attempts to register more.
   */
  lemma {:induction false} TerminalRunStaysClosed(s: Store, calls: seq<Call>, run: RunId)
    requires StoreInv(s) && run in s.terminalRuns
    ensures forall id :: id in Run(s, calls).operations && Run(s, calls).operations[id].operation.run == run ==>
              !Run(s, calls).operations[id].state.Pending? && !Run(s, calls).operations[id].state.Approved?
  {
    RunKeeps(s, calls);
  }

  /** The call takes the one decision about operation `id`. */
  predicate Decides(s: Store, c: Call, id: OperationId) {
    Refusal(s, c).None? && ((c.Resolve? && c.id == id) || (c.BeginCommit? && c.id == id))
  }

  /** How many calls of a run decided operation `id`. */
  function Decisions(s: Store, calls: seq<Call>, id: OperationId): nat
    decreases |calls|
  {
    if calls == [] then 0
    else (if Decides(s, calls[0], id) then 1 else 0) + Decisions(Apply(s, calls[0]), calls[1..], id)
  }

  /** An operation is decided (approved, rejected or sent to commit) at most once in its life. */
  lemma {:induction false} DecidedAtMostOnce(s: Store, calls: seq<Call>, id: OperationId)
    requires StoreInv(s)
    ensures Decisions(s, calls, id) <= 1
    ensures id in s.operations && !s.operations[id].state.Pending? ==> Decisions(s, calls, id) == 0
    decreases |calls|
  {
    if calls != [] {
      ApplyKeeps(s, calls[0]);
      DecidedAtMostOnce(Apply(s, calls[0]), calls[1..], id);
    }
  }

  /**
   `finish_commit` does not look at the mode.  In every store that keeps the
   discipline it can only ever finish a deferred operation, and a blocking one is
   only ever committed after an approval.
   */
  lemma CommitRespectsMode(s: Store, c: Call, id: OperationId)
    requires StoreInv(s) && id in s.operations
    requires Apply(s, c).operations[id].state.Committed? && !s.operations[id].state.Committed?
    ensures var r := s.operations[id];
            if r.operation.mode.DeferredCommit? then c.FinishCommit? && r.state.Committing?
            else c.FinishBlockingApproval? && r.state.Approved? && r.decision.Some? && r.decision.value.Approve?
  {
  }

  // ------------------------------------------------------------ what each call leaves

  /** The operation a call is about, for calls about one. */
  function Target(c: Call): Option<OperationId> {
    match c
    case Register(op, _) => Some(op.id)
    case Resolve(_, id, _) => Some(id)
    case BeginCommit(_, id) => Some(id)
    case FinishBlockingApproval(_, id, _) => Some(id)
    case FinishCommit(_, id, _) => Some(id)
    case CancelRun(_) => None
    case Expire(_) => None
  }

  /** A call about one operation leaves all others and the closed runs alone. */
  lemma OneAtATime(s: Store, c: Call, id: OperationId)
    requires Target(c).Some? && Target(c).value != id
    ensures (id in Apply(s, c).operations <==> id in s.operations) && Apply(s, c).terminalRuns == s.terminalRuns
    ensures id in s.operations ==> Apply(s, c).operations[id] == s.operations[id]
  {
  }

  /** A registered operation is pending, undecided and exactly as it was asked for. */
  lemma RegisteredAs(s: Store, op: Operation, now: int)
    requires Refusal(s, Register(op, now)).None?
    ensures op.id in Apply(s, Register(op, now)).operations
    ensures Apply(s, Register(op, now)).operations[op.id] == Record(op, Pending, None)
    ensures op.id !in s.operations && op.run !in s.terminalRuns && (op.deadline.Some? ==> now < op.deadline.value)
  {
  }

  /** A decision is stored as it was taken, on a pending operation of the caller's run. */
  lemma ResolvedAs(s: Store, run: RunId, id: OperationId, decision: Decision)
    requires Refusal(s, Resolve(run, id, decision)).None?
    ensures id in s.operations && s.operations[id].operation.run == run && s.operations[id].state.Pending?
    ensures var r := Apply(s, Resolve(run, id, decision)).operations[id];
            && r.operation == s.operations[id].operation && r.decision == Some(decision)
            && (r.state.Approved? <==> decision.Approve?) && (r.state.Rejected? <==> decision.Reject?)
            && (decision.Approve? ==> r.operation.mode.BlockingApproval?)
  {
  }

  /** A commit begins for a pending deferred operation of the caller's run, without a decision. */
  lemma BegunAs(s: Store, run: RunId, id: OperationId)
    requires Refusal(s, BeginCommit(run, id)).None?
    ensures id in s.operations && s.operations[id].operation.run == run && s.operations[id].state.Pending?
    ensures s.operations[id].operation.mode.DeferredCommit?
    ensures Apply(s, BeginCommit(run, id)).operations[id] == s.operations[id].(state := Committing)
  {
  }

  /** An effect that succeeded commits the operation; one that broke fails it with its message. */
  lemma SettledAs(s: Store, run: RunId, id: OperationId, effect: Effect, c: Call)
    requires c in {FinishBlockingApproval(run, id, effect), FinishCommit(run, id, effect)} && Refusal(s, c).None?
    ensures id in s.operations && s.operations[id].operation.run == run
    ensures s.operations[id].state == if c.FinishCommit? then Committing else Approved
    ensures var r := Apply(s, c).operations[id];
            && r.operation == s.operations[id].operation && r.decision == s.operations[id].decision
            && (effect.Done? <==> r.state.Committed?)
            && (forall m :: effect == Broken(m) <==> r.state == Failed(m))
  {
  }

  /** Closing a run cancels its pending and approved operations and nothing else. */
  lemma ClosedAs(s: Store, run: RunId, id: OperationId)
    requires id in s.operations
    ensures id in Apply(s, CancelRun(run)).operations
    ensures var r, r' := s.operations[id], Apply(s, CancelRun(run)).operations[id];
            if r.operation.run == run && (r.state.Pending? || r.state.Approved?)
            then r'.state.Cancelled? && r'.operation == r.operation && r'.decision == r.decision
            else r' == r
  {
  }

  /** Time expires exactly the pending operations whose deadline has come. */
  lemma ExpiredAs(s: Store, now: int, id: OperationId)
    requires id in s.operations
    ensures id in Apply(s, Expire(now)).operations
    ensures var r, r' := s.operations[id], Apply(s, Expire(now)).operations[id];
            if r.state.Pending? && r.operation.deadline.Some? && r.operation.deadline.value <= now
            then r'.state.Expired? && r'.operation == r.operation && r'.decision == r.decision
            else r' == r
  {
  }

  /** Over every sequence of calls: an operation that expired had a deadline, and some call came at or after it. */
  lemma {:induction false} ExpiryNeedsDeadline(s: Store, calls: seq<Call>, id: OperationId)
    requires StoreInv(s) && id in s.operations && !s.operations[id].state.Expired?
    requires id in Run(s, calls).operations && Run(s, calls).operations[id].state.Expired?
    ensures var deadline := s.operations[id].operation.deadline;
            deadline.Some? && exists k, now :: 0 <= k < |calls| && calls[k] == Expire(now) && deadline.value <= now
    decreases |calls|
  {
    hide StoreInv, Apply, Refusal, Advances;
    if calls != [] {
      var t := Apply(s, calls[0]);
      ApplyKeeps(s, calls[0]);
      SameOperation(s, t, id);
      if t.operations[id].state.Expired? {
        OnlyTimeExpires(s, calls[0], id);
      } else {
        ExpiryNeedsDeadline(t, calls[1..], id);
        var k, now :| 0 <= k < |calls[1..]| && calls[1..][k] == Expire(now) && s.operations[id].operation.deadline.value <= now;
        assert calls[k + 1] == Expire(now);
      }
    }
  }

  lemma SameOperation(s: Store, t: Store, id: OperationId)
    requires id in s.operations && id in t.operations && Advances(s.operations[id], t.operations[id])
    ensures t.operations[id].operation == s.operations[id].operation
  {
  }

  lemma OnlyTimeExpires(s: Store, c: Call, id: OperationId)
    requires id in s.operations && id in Apply(s, c).operations
    requires !s.operations[id].state.Expired? && Apply(s, c).operations[id].state.Expired?
    ensures c.Expire? && s.operations[id].operation.deadline.Some? && s.operations[id].operation.deadline.value <= c.now
  {
  }

  // ------------------------------------------------------------------- waiting

  /** One poll of a waiter: nothing yet, or the answer it returns. */
  function PollWait(s: Store, run: RunId, id: OperationId): Option<Result<Decision, OperationError>> {
    match RecordForRun(s, run, id)
    case Err(e) => Some(Err(e))
    case Ok(r) =>
      if !r.operation.mode.BlockingApproval? then Some(Err(BlockingWaitRequired))
      else match r.state
        case Pending => None
        case Approved => Some(if r.decision.Some? then Ok(r.decision.value) else Err(InvalidState))
        case Rejected => Some(if r.decision.Some? then Ok(r.decision.value) else Err(InvalidState))
        case Cancelled => Some(Err(RunCancelled))
        case Expired => Some(Err(OperationExpired))
        case Failed(m) => Some(Err(CommitFailed(m)))
        case Committing => Some(Err(InvalidState))
        case Committed => Some(Err(InvalidState))
  }

  function PollCommitOrReject(s: Store, run: RunId, id: OperationId): Option<Result<Decision, OperationError>> {
    match RecordForRun(s, run, id)
    case Err(e) => Some(Err(e))
    case Ok(r) =>
      if !r.operation.mode.DeferredCommit? then Some(Err(DeferredCommitRequired))
      else match r.state
        case Pending => None
        case Committing => Some(Ok(Approve(None)))
        case Rejected => Some(if r.decision.Some? then Ok(r.decision.value) else Err(InvalidState))
        case Cancelled => Some(Err(RunCancelled))
        case Expired => Some(Err(OperationExpired))
        case Failed(m) => Some(Err(CommitFailed(m)))
        case Approved => Some(Err(InvalidState))
        case Committed => Some(Err(InvalidState))
  }

  function Poll(s: Store, run: RunId, id: OperationId, mode: OperationMode): Option<Result<Decision, OperationError>> {
    if mode.BlockingApproval? then PollWait(s, run, id) else PollCommitOrReject(s, run, id)
  }

  /**
   What a waiter of the right mode can conclude: an approval means the operation is
   approved (blocking) or committing (deferred), every other answer means it is over.
   A waiter that is still waiting sees a pending operation.
   */
  lemma PollMeaning(s: Store, run: RunId, id: OperationId)
    requires StoreInv(s) && id in s.operations && s.operations[id].operation.run == run
    ensures var r := s.operations[id];
            match Poll(s, run, id, r.operation.mode)
            case None => r.state.Pending?
            case Some(Ok(Approve(data))) =>
              if r.operation.mode.BlockingApproval? then r.state.Approved? && r.decision == Some(Approve(data)) else r.state.Committing?
            case Some(Ok(Reject(reason))) => r.state.Rejected? && r.decision == Some(Reject(reason))
            case Some(Err(e)) =>
              && Terminal(r.state)
              && (e == RunCancelled <==> r.state.Cancelled?) && (e == OperationExpired <==> r.state.Expired?)
              && (forall m :: e == CommitFailed(m) <==> r.state == Failed(m))
              && (e == InvalidState <==> r.state.Committed?)
  {
  }

  /** Waiting on an operation that is not there, of another run or of the other mode fails at once. */
  lemma WaitRefuses(s: Store, run: RunId, id: OperationId, mode: OperationMode)
    ensures id !in s.operations ==> Poll(s, run, id, mode) == Some(Err(UnknownOperation))
    ensures id in s.operations && s.operations[id].operation.run != run ==> Poll(s, run, id, mode) == Some(Err(WrongRun))
    ensures id in s.operations && s.operations[id].operation.run == run && s.operations[id].operation.mode != mode ==>
              Poll(s, run, id, mode) == Some(Err(if mode.BlockingApproval? then BlockingWaitRequired else DeferredCommitRequired))
  {
  }

  // ------------------------------------------------------------------ the class

  class InMemoryOperationStore {
    var operations: map<OperationId, Record>
    var terminalRuns: set<RunId>

    ghost function Model(): Store
      reads this
    {
      Store(operations, terminalRuns)
    }

    ghost predicate Valid()
      reads this
    {
      StoreInv(Model())
    }

    constructor ()
      ensures Valid() && Model() == Store(map[], {})
    {
      operations, terminalRuns := map[], {};
    }

    method Register(operation: Operation, now: int) returns (r: Result<(), OperationError>)
      requires Valid()
      modifies this
      ensures Valid() && Model() == Apply(old(Model()), Call.Register(operation, now))
      ensures r == Answer(old(Model()), Call.Register(operation, now))
    {
      ApplyKeeps(Model(), Call.Register(operation, now));
      if operation.run in terminalRuns { return Err(RunTerminal); }
      if operation.id in operations { return Err(IdentifierCollision); }
      if Due(operation.deadline, now) { return Err(OperationExpired); }
      operations := operations[operation.id := Record(operation, Pending, None)];
      return Ok(());
    }

    method Resolve(run: RunId, id: OperationId, decision: Decision) returns (r: Result<(), OperationError>)
      requires Valid()
      modifies this
      ensures Valid() && Model() == Apply(old(Model()), Call.Resolve(run, id, decision))
      ensures r == Answer(old(Model()), Call.Resolve(run, id, decision))
    {
      ApplyKeeps(Model(), Call.Resolve(run, id, decision));
      if run in terminalRuns { return Err(RunTerminal); }
      var found := RecordForRun(Store(operations, terminalRuns), run, id);
      if found.Err? { return Err(found.error); }
      var record := found.value;
      if record.state != Pending { return Err(AlreadyResolved); }
      if record.operation.mode == DeferredCommit && decision.Approve? { return Err(DeferredCommitRequired); }
      record := record.(state := if decision.Approve? then Approved else Rejected);
      record := record.(decision := Some(decision));
      operations := operations[id := record];
      return Ok(());
    }

    method BeginCommit(run: RunId, id: OperationId) returns (r: Result<(), OperationError>)
      requires Valid()
      modifies this
      ensures Valid() && Model() == Apply(old(Model()), Call.BeginCommit(run, id))
      ensures r == Answer(old(Model()), Call.BeginCommit(run, id))
    {
      ApplyKeeps(Model(), Call.BeginCommit(run, id));
      if run in terminalRuns { return Err(RunTerminal); }
      var found := RecordForRun(Store(operations, terminalRuns), run, id);
      if found.Err? { return Err(found.error); }
      var record := found.value;
      if record.operation.mode != DeferredCommit { return Err(DeferredCommitRequired); }
      if record.state != Pending { return Err(AlreadyResolved); }
      operations := operations[id := record.(state := Committing)];
      return Ok(());
    }

    method FinishBlockingApproval(run: RunId, id: OperationId, effect: Effect) returns (r: Result<(), OperationError>)
      requires Valid()
      modifies this
      ensures Valid() && Model() == Apply(old(Model()), Call.FinishBlockingApproval(run, id, effect))
      ensures r == Answer(old(Model()), Call.FinishBlockingApproval(run, id, effect))
    {
      ApplyKeeps(Model(), Call.FinishBlockingApproval(run, id, effect));
      var found := RecordForRun(Store(operations, terminalRuns), run, id);
      if found.Err? { return Err(found.error); }
      var record := found.value;
      if record.operation.mode != BlockingApproval || record.state != Approved { return Err(InvalidState); }
      operations := operations[id := record.(state := AfterEffect(effect))];
      return Ok(());
    }

    method FinishCommit(run: RunId, id: OperationId, effect: Effect) returns (r: Result<(), OperationError>)
      requires Valid()
      modifies this
      ensures Valid() && Model() == Apply(old(Model()), Call.FinishCommit(run, id, effect))
      ensures r == Answer(old(Model()), Call.FinishCommit(run, id, effect))
    {
      ApplyKeeps(Model(), Call.FinishCommit(run, id, effect));
      var found := RecordForRun(Store(operations, terminalRuns), run, id);
      if found.Err? { return Err(found.error); }
      var record := found.value;
      if record.state != Committing { return Err(InvalidState); }
      operations := operations[id := record.(state := AfterEffect(effect))];
      return Ok(());
    }

    /** Also the source's `mark_run_terminal`. */
    method CancelRun(run: RunId) returns (count: nat)
      requires Valid()
      modifies this
      ensures Valid() && Model() == Apply(old(Model()), Call.CancelRun(run))
      ensures count == |set id | id in old(operations) && Open(old(operations)[id], run)|
    {
      hide StoreInv, Advances;
      ApplyKeeps(Model(), Call.CancelRun(run));
      terminalRuns := terminalRuns + {run};
      var open := set id | id in operations && Open(operations[id], run);
      operations := map id | id in operations :: if id in open then operations[id].(state := Cancelled) else operations[id];
      count := |open|;
      assert Model() == Apply(old(Model()), Call.CancelRun(run));
    }

    method Expire(now: int) returns (count: nat)
      requires Valid()
      modifies this`operations
      ensures Valid() && Model() == Apply(old(Model()), Call.Expire(now))
      ensures count == |set id | id in old(operations) && Overdue(old(operations)[id], now)|
    {
      hide StoreInv, Advances;
      ApplyKeeps(Model(), Call.Expire(now));
      var due := set id | id in operations && Overdue(operations[id], now);
      operations := map id | id in operations :: if id in due then operations[id].(state := Expired) else operations[id];
      count := |due|;
      assert Model() == Apply(old(Model()), Call.Expire(now));
    }

    /** Whether the run still has an operation that is not over. */
    method HasUnfinished(run: RunId) returns (pending: bool)
      ensures pending <==> Unfinished(Model(), run) != {}
    {
      pending := Unfinished(Store(operations, terminalRuns), run) != {};
    }
  }

  function Answer(s: Store, c: Call): Result<(), OperationError> {
    match Refusal(s, c) case None => Ok(()) case Some(e) => Err(e)
  }
}
