/**
 A tool call is started at most once per invocation id, over all rounds of a run, as
 long as no parallel batch repeats an id that is not in the ledger.
 */
module AtMostOnce {
  import opened Operations
  import opened RunLog
  import opened Protocol
  import opened RunProtocol

  /** Every id the calls repeat is already in the ledger. */
  ghost predicate RepeatsAreKnown(calls: seq<InvocationId>, ledger: set<InvocationId>) {
    forall i, j :: 0 <= i < j < |calls| && calls[i] == calls[j] ==> calls[i] in ledger
  }

  /** The premise: a turn that is launched in parallel repeats only ids the ledger knows.  Sequential turns may repeat any. */
  ghost predicate GoodLaunch(s: State, a: Action) {
    s.loop.Asking? && a.LoopStep? && a.turn.ToolTurn? && a.turn.parallel ==> RepeatsAreKnown(a.turn.calls, s.shared.ledger)
  }

  /** The premise at every step of a run. */
  ghost predicate GoodLaunches(s: State, actions: seq<Action>)
    decreases |actions|
  {
    actions == [] || (GoodLaunch(s, actions[0]) && GoodLaunches(Exec(s, actions[0]), actions[1..]))
  }

  /** Places after the ledger was found not to hold the call and before its executor starts. */
  predicate Unstarted(pc: Pc) {
    pc.Prepare? || pc.RegisterOp? || pc.AwaitState? || pc.Announce? || pc.Wait? || pc.ResumeApproved?
    || pc.AnnounceStart? || pc.Select?
  }

  /** Places a started call can be at while its result is not in the ledger. */
  predicate Unrecorded(pc: Pc) {
    pc.Executing? || pc.SettleFailure? || pc.SettleSuccess? || pc.RecordResult? || pc == Returned(false)
  }

  ghost predicate AtWork(loop: LoopPc, id: InvocationId) {
    loop.Batch? && exists j :: 0 <= j < |loop.workers| && loop.workers[j].call == id && Unrecorded(loop.workers[j].pc)
  }

  /** Of two calls with one id, one has not begun or has succeeded, or the ledger knows the id and neither will start. */
  ghost predicate Separate(sh: Shared, loop: LoopPc) {
    loop.Batch? ==>
      forall i, j :: 0 <= i < |loop.workers| && 0 <= j < |loop.workers| && i != j && loop.workers[i].call == loop.workers[j].call ==>
        || loop.workers[i].pc in {Consume, Returned(true)} || loop.workers[j].pc in {Consume, Returned(true)}
        || (loop.workers[i].call in sh.ledger && !Unstarted(loop.workers[i].pc) && !Unstarted(loop.workers[j].pc))
  }

  /** In a parallel batch a call that repeats an id is known to the ledger and gets no further than the ledger check. */
  ghost predicate RepeatsWait(sh: Shared, loop: LoopPc) {
    loop.Batch? && loop.parallel ==>
      forall i, j :: 0 <= i < |loop.workers| && 0 <= j < |loop.workers| && i != j && loop.workers[i].call == loop.workers[j].call ==>
        loop.workers[i].call in sh.ledger && AtTheLedger(loop.workers[i].pc)
  }

  predicate AtTheLedger(pc: Pc) { pc.Consume? || pc.CheckLedger? || pc.Returned? }

  ghost predicate StartsInv(sh: Shared, loop: LoopPc) {
    && (forall id :: sh.starts[id] <= 1)
    && (forall id :: id in sh.starts ==> id in sh.ledger || loop == Exited(false) || AtWork(loop, id))
    && (loop.Batch? ==> forall j :: 0 <= j < |loop.workers| && Unstarted(loop.workers[j].pc) ==> loop.workers[j].call !in sh.starts)
    && RepeatsWait(sh, loop)
  }

  lemma SeparateHolds(sh: Shared, loop: LoopPc)
    requires InOrder(loop) && RepeatsWait(sh, loop)
    ensures Separate(sh, loop)
  {
    if loop.Batch? {
      var ws := loop.workers;
      forall i, j | 0 <= i < |ws| && 0 <= j < |ws| && i != j && ws[i].call == ws[j].call
        ensures || ws[i].pc in {Consume, Returned(true)} || ws[j].pc in {Consume, Returned(true)}
                || (ws[i].call in sh.ledger && !Unstarted(ws[i].pc) && !Unstarted(ws[j].pc))
      {
        if loop.parallel {
          assert AtTheLedger(ws[i].pc) && AtTheLedger(ws[j].pc);
        } else {
          var lo, hi := if i < j then i else j, if i < j then j else i;
          assert ws[hi].pc != Consume ==> ws[lo].pc == Returned(true);
        }
      }
    }
  }

  /** What one step of a call does to the ledger and the start count. */
  lemma WorkerStarts(run: RunId, sh: Shared, call: InvocationId, pc: Pc, ch: Choice)
    ensures var (sh', pc') := WorkerStep(run, sh, call, pc, ch);
            && sh'.ledger == (if pc.RecordResult? then sh.ledger + {call} else sh.ledger)
            && (sh'.starts == sh.starts || (sh'.starts == sh.starts + multiset{call} && pc.Select? && pc'.Executing?))
            && (Unstarted(pc') ==> Unstarted(pc) || (pc.CheckLedger? && call !in sh.ledger))
            && (Unrecorded(pc) ==> Unrecorded(pc') || call in sh'.ledger)
            && (AtTheLedger(pc) && call in sh.ledger ==> AtTheLedger(pc'))
  {
  }

  lemma WorkStarts(s: State, i: nat, ch: Choice)
    requires InOrder(s.loop) && StartsInv(s.shared, s.loop)
    ensures StartsInv(Exec(s, Work(i, ch)).shared, Exec(s, Work(i, ch)).loop)
  {
    hide WorkerStep, Unstarted, Unrecorded, InOrder, AtTheLedger, RepeatsWait, Separate;
    if s.loop.Batch? && Active(s.loop.workers, s.loop.parallel, i) {
      var ws, w := s.loop.workers, s.loop.workers[i];
      var (sh', pc') := WorkerStep(s.run, s.shared, w.call, w.pc, ch);
      WorkerStarts(s.run, s.shared, w.call, w.pc, ch);
      SeparateHolds(s.shared, s.loop);
      var loop' := Moved(s.loop, i, pc');
      assert Exec(s, Work(i, ch)) == s.(shared := sh', loop := loop');
      PlaceFacts(w.pc);
      PlaceFacts(pc');
      assert loop'.workers[i].pc == pc' && loop'.workers[i].call == w.call;
      RepeatsStillWait(s, i, sh', pc');
      forall id | id in sh'.starts ensures id in sh'.ledger || AtWork(loop', id) {
        StillAtWork(s, i, sh', pc', id);
      }
      forall j | 0 <= j < |ws| && Unstarted(loop'.workers[j].pc) ensures loop'.workers[j].call !in sh'.starts {
        PlaceFacts(ws[j].pc);
        NotYetStarted(s, i, sh', pc', j);
      }
    }
  }

  lemma PlaceFacts(pc: Pc)
    ensures Unstarted(pc) || Unrecorded(pc) ==> pc !in {Consume, CheckLedger, Returned(true)}
    ensures !(Unstarted(pc) && Unrecorded(pc))
    ensures pc.Select? ==> Unstarted(pc)
    ensures pc.Executing? ==> Unrecorded(pc)
  {
  }

  /** The effect of a step, as far as starting is concerned. */
  ghost predicate StartStep(s: State, i: nat, sh': Shared, pc': Pc) {
    && s.loop.Batch? && i < |s.loop.workers|
    && var w := s.loop.workers[i];
       && sh'.ledger == (if w.pc.RecordResult? then s.shared.ledger + {w.call} else s.shared.ledger)
       && (sh'.starts == s.shared.starts || (sh'.starts == s.shared.starts + multiset{w.call} && w.pc.Select? && pc'.Executing?))
       && (Unstarted(pc') ==> Unstarted(w.pc) || (w.pc.CheckLedger? && w.call !in s.shared.ledger))
       && (Unrecorded(w.pc) ==> Unrecorded(pc') || w.call in sh'.ledger)
       && (AtTheLedger(w.pc) && w.call in s.shared.ledger ==> AtTheLedger(pc'))
  }

  lemma RepeatsStillWait(s: State, i: nat, sh': Shared, pc': Pc)
    requires RepeatsWait(s.shared, s.loop) && StartStep(s, i, sh', pc')
    ensures RepeatsWait(sh', Moved(s.loop, i, pc'))
  {
    hide Unstarted, Unrecorded, AtTheLedger;
  }

  lemma StillAtWork(s: State, i: nat, sh': Shared, pc': Pc, id: InvocationId)
    requires StartsInv(s.shared, s.loop) && StartStep(s, i, sh', pc') && id in sh'.starts
    ensures id in sh'.ledger || AtWork(Moved(s.loop, i, pc'), id)
  {
    hide Unstarted, Unrecorded;
    var ws, loop' := s.loop.workers, Moved(s.loop, i, pc');
    PlaceFacts(pc');
    if id !in s.shared.starts {
      assert loop'.workers[i].call == id && Unrecorded(loop'.workers[i].pc);
    } else if id !in s.shared.ledger {
      var j :| 0 <= j < |ws| && ws[j].call == id && Unrecorded(ws[j].pc);
      assert loop'.workers[j].call == id;
    }
  }

  lemma NotYetStarted(s: State, i: nat, sh': Shared, pc': Pc, j: nat)
    requires StartsInv(s.shared, s.loop) && Separate(s.shared, s.loop) && StartStep(s, i, sh', pc') && j < |s.loop.workers|
    requires Unstarted(Moved(s.loop, i, pc').workers[j].pc)
    ensures s.loop.workers[j].call !in sh'.starts
  {
    hide Unstarted, Unrecorded;
    var ws := s.loop.workers;
    PlaceFacts(pc');
    PlaceFacts(ws[i].pc);
    PlaceFacts(ws[j].pc);
    if ws[j].call in s.shared.starts && ws[j].call !in s.shared.ledger {
      var k :| 0 <= k < |ws| && ws[k].call == ws[j].call && Unrecorded(ws[k].pc);
      PlaceFacts(ws[k].pc);
    }
  }

  lemma LoopStarts(s: State, turn: Turn, ok: bool)
    requires StartsInv(s.shared, s.loop) && GoodLaunch(s, LoopStep(turn, ok))
    ensures StartsInv(Exec(s, LoopStep(turn, ok)).shared, Exec(s, LoopStep(turn, ok)).loop)
  {
  }

  lemma JoinStarts(s: State)
    requires StartsInv(s.shared, s.loop)
    ensures StartsInv(Exec(s, Join).shared, Exec(s, Join).loop)
  {
    if s.loop.Batch? && AllReturned(s.loop.workers, true) {
      forall id ensures !AtWork(s.loop, id) {}
    }
  }

  lemma OtherStarts(s: State, a: Action)
    requires !a.Work? && !a.LoopStep? && !a.Join?
    ensures Exec(s, a).loop == s.loop
    ensures Exec(s, a).shared.ledger == s.shared.ledger && Exec(s, a).shared.starts == s.shared.starts
  {
    hide Apply, FinishStep, CancelStep, EmitStep, SetStateStep, Unfinished;
  }

  lemma {:induction false} StartsKept(s: State, actions: seq<Action>)
    requires Inv(s) && StartsInv(s.shared, s.loop)
    requires GoodLaunches(s, actions)
    ensures StartsInv(ExecAll(s, actions).shared, ExecAll(s, actions).loop)
    decreases |actions|
  {
    hide Inv, Exec, StartsInv, GoodLaunch;
    if actions != [] {
      var a, t := actions[0], Exec(s, actions[0]);
      ExecKeeps(s, a);
      InvOrder(s);
      match a {
        case Work(i, ch) => WorkStarts(s, i, ch);
        case LoopStep(turn, ok) => LoopStarts(s, turn, ok);
        case Join => JoinStarts(s);
        case _ => OtherStarts(s, a); SameStarts(s.shared, t.shared, s.loop);
      }
      StartsKept(t, actions[1..]);
    }
  }

  lemma InvOrder(s: State)
    requires Inv(s)
    ensures InOrder(s.loop)
  {
  }

  lemma SameStarts(sh: Shared, sh': Shared, loop: LoopPc)
    requires sh'.ledger == sh.ledger && sh'.starts == sh.starts && StartsInv(sh, loop)
    ensures StartsInv(sh', loop)
  {
  }

  /**
   Over every run and interleaving, no invocation id is started twice, provided
   turns that run in parallel repeat only ids the ledger knows when they start.
   */
  lemma {:induction false} StartedAtMostOnce(s: State, actions: seq<Action>, id: InvocationId)
    requires Init(s) && GoodLaunches(s, actions)
    ensures ExecAll(s, actions).shared.starts[id] <= 1
  {
    InitInv(s);
    StartsKept(s, actions);
  }

  // ---------------------------------------------------------- the premise is needed

  /** The steps that take call `i` of a batch to the start of its executor. */
  function StartTrace(i: nat): seq<Action> {
    [Work(i, Proceed), Work(i, Proceed), Work(i, Proceed), Work(i, Proceed), Work(i, Proceed)]
  }

  lemma {:induction false} ExecAllAppend(s: State, a: seq<Action>, b: seq<Action>)
    ensures ExecAll(s, a + b) == ExecAll(ExecAll(s, a), b)
    decreases |a|
  {
    hide Exec;
    if a == [] {
      assert a + b == b;
    } else {
      assert (a + b)[0] == a[0] && (a + b)[1..] == a[1..] + b;
      ExecAllAppend(Exec(s, a[0]), a[1..], b);
    }
  }

  /** A live run whose parallel batch holds an unstarted call that the ledger does not know. */
  ghost predicate Ready(s: State, i: nat) {
    && s.loop.Batch? && s.loop.parallel && i < |s.loop.workers| && s.loop.workers[i].pc == Consume
    && s.loop.workers[i].call !in s.shared.ledger && LogInv(s.shared.record) && !IsTerminal(s.shared.record.state)
  }

  /** The places a call that needs no approval goes through before it starts. */
  lemma StartPath(run: RunId, sh: Shared, call: InvocationId)
    requires LogInv(sh.record) && !IsTerminal(sh.record.state) && call !in sh.ledger
    ensures WorkerStep(run, sh, call, Consume, Proceed) == (sh, CheckLedger)
    ensures WorkerStep(run, sh, call, CheckLedger, Proceed) == (sh, Prepare)
    ensures WorkerStep(run, sh, call, Prepare, Proceed) == (sh, AnnounceStart(Unasked))
    ensures var r := EmitStep(sh.record, ToolStarted(call)).0;
            var sh' := sh.(record := r);
            && WorkerStep(run, sh, call, AnnounceStart(Unasked), Proceed) == (sh', Select(Unasked))
            && WorkerStep(run, sh', call, Select(Unasked), Proceed)
               == (sh'.(starts := sh.starts + multiset{call}), Executing(Unasked))
            && LogInv(r) && !IsTerminal(r.state)
  {
    hide LogInv, EmitStep;
    StepsKeepLog(sh.record, Running, ToolStarted(call));
    StepAnswers(sh.record, Running, ToolStarted(call));
    NonTerminalSteps(sh.record, Running, ToolStarted(call));
  }

  lemma {:induction false} StartOne(s: State, i: nat)
    requires Ready(s, i)
    ensures var t := ExecAll(s, StartTrace(i));
            && t.loop == Moved(s.loop, i, Executing(Unasked))
            && t.shared.starts == s.shared.starts + multiset{s.loop.workers[i].call}
            && t.shared.ledger == s.shared.ledger && LogInv(t.shared.record) && !IsTerminal(t.shared.record.state)
  {
    hide LogInv, Exec, ExecAll, WorkerStep, EmitStep, Moved;
    var call, sh := s.loop.workers[i].call, s.shared;
    var r := EmitStep(sh.record, ToolStarted(call)).0;
    StartPath(s.run, sh, call);
    var s1 := StepTo(s, i, sh, CheckLedger);
    var s2 := StepTo(s1, i, sh, Prepare);
    var s3 := StepTo(s2, i, sh, AnnounceStart(Unasked));
    var s4 := StepTo(s3, i, sh.(record := r), Select(Unasked));
    var s5 := StepTo(s4, i, sh.(record := r, starts := sh.starts + multiset{call}), Executing(Unasked));
    var w := Work(i, Proceed);
    FiveSteps(s, s1, s2, s3, s4, s5, w);
  }

  /** The state after call `i` moved to `pc`. */
  function MovedState(s: State, i: nat, sh: Shared, pc: Pc): State
    requires s.loop.Batch? && i < |s.loop.workers|
  {
    s.(shared := sh, loop := Moved(s.loop, i, pc))
  }

  lemma StepTo(s: State, i: nat, sh: Shared, pc: Pc) returns (t: State)
    requires s.loop.Batch? && s.loop.parallel && i < |s.loop.workers|
    requires WorkerStep(s.run, s.shared, s.loop.workers[i].call, s.loop.workers[i].pc, Proceed) == (sh, pc)
    ensures t == Exec(s, Work(i, Proceed)) == MovedState(s, i, sh, pc)
    ensures t.loop.Batch? && t.loop.parallel && |t.loop.workers| == |s.loop.workers| && t.loop.workers[i].pc == pc
    ensures t.loop.workers[i].call == s.loop.workers[i].call
    ensures forall pc' :: Moved(t.loop, i, pc') == Moved(s.loop, i, pc')
  {
    hide WorkerStep;
    t := Exec(s, Work(i, Proceed));
    forall pc' ensures Moved(t.loop, i, pc') == Moved(s.loop, i, pc') {
      assert t.loop.workers[i := t.loop.workers[i].(pc := pc')] == s.loop.workers[i := s.loop.workers[i].(pc := pc')];
    }
  }

  lemma {:induction false} ExecCons(s: State, a: Action, rest: seq<Action>)
    ensures ExecAll(s, [a] + rest) == ExecAll(Exec(s, a), rest)
  {
    hide Exec;
    assert ([a] + rest)[0] == a && ([a] + rest)[1..] == rest;
  }

  lemma {:induction false} FiveSteps(s: State, s1: State, s2: State, s3: State, s4: State, s5: State, w: Action)
    requires s1 == Exec(s, w) && s2 == Exec(s1, w) && s3 == Exec(s2, w) && s4 == Exec(s3, w) && s5 == Exec(s4, w)
    ensures ExecAll(s, [w, w, w, w, w]) == s5
  {
    hide Exec;
    ExecCons(s4, w, []);
    ExecCons(s3, w, [w]);
    ExecCons(s2, w, [w, w]);
    ExecCons(s1, w, [w, w, w]);
    ExecCons(s, w, [w, w, w, w]);
    assert [w] + [] == [w] && [w] + [w] == [w, w] && [w] + [w, w] == [w, w, w];
    assert [w] + [w, w, w] == [w, w, w, w] && [w] + [w, w, w, w] == [w, w, w, w, w];
  }

  /**
   A parallel turn that repeats an id the ledger does not know does start it twice
   under some interleaving: the ledger is written only after the executor returns.
   */
  lemma {:induction false} RepeatedIdStartsTwice(s: State, calls: seq<InvocationId>, i: nat, j: nat)
    requires s.loop == Asking && LogInv(s.shared.record) && !IsTerminal(s.shared.record.state)
    requires i < j < |calls| && calls[i] == calls[j] && calls[i] !in s.shared.ledger
    ensures ExecAll(s, [LoopStep(ToolTurn(calls, true), true)] + StartTrace(i) + StartTrace(j)).shared.starts[calls[i]] >= 2
  {
    hide LogInv, WorkerStep, StartTrace;
    var launch := [LoopStep(ToolTurn(calls, true), true)];
    var s1 := s.(loop := Batch(Launch(calls), true));
    assert Exec(s, launch[0]) == s1 && launch[1..] == [];
    assert ExecAll(s, launch) == s1;
    StartOne(s1, i);
    var s2 := ExecAll(s1, StartTrace(i));
    StartOne(s2, j);
    ExecAllAppend(s, launch, StartTrace(i));
    ExecAllAppend(s, launch + StartTrace(i), StartTrace(j));
  }
}
