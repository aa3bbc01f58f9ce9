/**
 A spawned run from its launch to the result its handle reports.

 First, the finisher of the protocol is the `finish` of the run table.  Then the
 protocol and the forwarder of its log run side by side, in any order.
 */
module WholeRun {
  import opened Wrappers
  import opened Operations
  import opened RunLog
  import opened Protocol
  import opened RunProtocol
  import RunTable
  import Forwarder

  // ------------------------------------------- the finisher is the table's finish

  /** The table, which holds the run among others, and the store. */
  function WorldOf(t: Table, s: State): RunTable.World {
    RunTable.World(t[s.run := s.shared.record], s.shared.store)
  }

  predicate NoFinisher(actions: seq<Action>) {
    forall i :: 0 <= i < |actions| ==> !actions[i].Finisher?
  }

  /** The table calls behind an action of another party. */
  function TableCalls(run: RunId, a: Action): (calls: seq<TableCall>)
    ensures |calls| <= 1 && forall i :: 0 <= i < |calls| ==> WellFormed(calls[i])
  {
    match a
    case HostEmit(e) => [Emit(run, e)]
    case HostSetState(st) => [SetState(run, st)]
    case CancelBegin => [CancelTheRun(run)]
    case _ => []
  }

  /** The store calls behind it; a cancellation closes the store only after its table half. */
  function StoreCalls(s: State, a: Action): (calls: seq<Call>)
    ensures |calls| <= 1
  {
    match a
    case HostCall(c) => if c.Register? && c.operation.run == s.run then [] else [c]
    case CancelOps => if s.cancelling then [CancelRun(s.run)] else []
    case _ => []
  }

  function AllTableCalls(run: RunId, actions: seq<Action>): (calls: seq<TableCall>)
    ensures forall i :: 0 <= i < |calls| ==> WellFormed(calls[i])
  {
    if actions == [] then [] else TableCalls(run, actions[0]) + AllTableCalls(run, actions[1..])
  }

  function AllStoreCalls(s: State, actions: seq<Action>): seq<Call>
    decreases |actions|
  {
    if actions == [] then [] else StoreCalls(s, actions[0]) + AllStoreCalls(Exec(s, actions[0]), actions[1..])
  }

  /** What the finisher sees of others' actions once the loop has exited. */
  function Seen(s: State, actions: seq<Action>): RunTable.Others {
    RunTable.Interference(AllTableCalls(s.run, actions), AllStoreCalls(s, actions))
  }

  lemma {:induction false} ActionSeen(t: Table, s: State, a: Action)
    requires s.loop.Exited? && !a.Finisher?
    ensures var u := Exec(s, a);
            && u.run == s.run && u.loop == s.loop && u.finish == s.finish
            && WorldOf(t, u).table == RunTableCalls(WorldOf(t, s).table, TableCalls(s.run, a))
            && WorldOf(t, u).store == Run(WorldOf(t, s).store, StoreCalls(s, a))
  {
    hide Apply, EmitStep, SetStateStep, CancelStep;
  }

  lemma {:induction false} TableCallsAppend(t: Table, x: seq<TableCall>, y: seq<TableCall>)
    requires |x| <= 1 && (forall i :: 0 <= i < |x| ==> WellFormed(x[i])) && (forall i :: 0 <= i < |y| ==> WellFormed(y[i]))
    ensures RunTableCalls(t, x + y) == RunTableCalls(RunTableCalls(t, x), y)
  {
    hide ApplyTable, WellFormed;
    if x == [] { assert x + y == y; } else { assert (x + y)[1..] == y && x[1..] == []; }
  }

  lemma {:induction false} StoreCallsAppend(s: Store, x: seq<Call>, y: seq<Call>)
    requires |x| <= 1
    ensures Run(s, x + y) == Run(Run(s, x), y)
  {
    hide Apply;
    if x == [] { assert x + y == y; } else { assert (x + y)[1..] == y && x[1..] == []; }
  }

  /** After the loop, the others' actions are exactly the calls seen of them. */
  lemma {:induction false} ActionsSeen(t: Table, s: State, actions: seq<Action>)
    requires s.loop.Exited? && NoFinisher(actions)
    ensures var u := ExecAll(s, actions);
            && u.run == s.run && u.loop == s.loop && u.finish == s.finish
            && WorldOf(t, u) == RunTable.Disturb(WorldOf(t, s), Seen(s, actions))
    decreases |actions|
  {
    hide Exec, RunTableCalls, Run, TableCalls, StoreCalls;
    if actions == [] {
      NoCalls(WorldOf(t, s));
    } else {
      var u := Exec(s, actions[0]);
      ActionSeen(t, s, actions[0]);
      ActionsSeen(t, u, actions[1..]);
      TableCallsAppend(WorldOf(t, s).table, TableCalls(s.run, actions[0]), AllTableCalls(s.run, actions[1..]));
      StoreCallsAppend(s.shared.store, StoreCalls(s, actions[0]), AllStoreCalls(u, actions[1..]));
    }
  }

  lemma {:induction false} NoCalls(w: RunTable.World)
    ensures RunTableCalls(w.table, []) == w.table && Run(w.store, []) == w.store
  {
  }

  /**
   The three last steps of the finisher, with any actions of the others in between,
   are the table's `finish` with those actions as its interference: refused together,
   too late together, and otherwise leaving the same table and store.
   */
  lemma {:induction false} FinisherIsTheTablesFinish(t: Table, s: State, e: RunEvent, f: Action, first: seq<Action>, g: Action, second: seq<Action>, h: Action)
    requires s.loop.Exited? && s.finish == CheckOps(e) && FinishEvent(e)
    requires f.Finisher? && g.Finisher? && h.Finisher? && NoFinisher(first) && NoFinisher(second)
    ensures var checked := Exec(s, f);
            var written := Exec(ExecAll(checked, first), g);
            var closed := Exec(ExecAll(written, second), h);
            var (w, answer) := RunTable.FinishInSteps(WorldOf(t, s), s.run, e, Seen(checked, first), Seen(written, second));
            && (Unfinished(s.shared.store, s.run) != {} ==>
                  answer == Err(PendingOperations) && checked.refused && checked.finish == Ended && w == WorldOf(t, checked))
            && (Unfinished(s.shared.store, s.run) == {} && answer.Err? ==>
                  answer == Err(RunIsTerminal) && written.finish == Ended && w == WorldOf(t, written))
            && (answer.Ok? ==> closed.finish == Ended && w == WorldOf(t, closed))
  {
    hide Apply, FinishStep, Unfinished, RunTable.Disturb, ExecAll, Seen;
    var checked := Exec(s, f);
    if Unfinished(s.shared.store, s.run) == {} {
      var u, written := ExecAll(checked, first), Exec(ExecAll(checked, first), g);
      ActionsSeen(t, checked, first);
      FinishAnswers(u.shared.record, e);
      assert u.finish == EndRun(e);
      assert WorldOf(t, written).table == WorldOf(t, u).table[s.run := FinishStep(u.shared.record, e).0];
      if written.finish == CloseOps { ActionsSeen(t, written, second); }
    }
  }

  lemma FinishAnswers(r: RunRecord, e: RunEvent)
    requires FinishEvent(e)
    ensures FinishStep(r, e).1.Err? ==> FinishStep(r, e).1.error == RunIsTerminal
  {
  }

  // ------------------------------------------------------ every step extends the log

  lemma WorkExtends(s: State, i: nat, ch: Choice)
    requires Inv(s)
    ensures var r, r' := s.shared.record, Exec(s, Work(i, ch)).shared.record;
            Extends(r, r') && (r'.state.RunCompleted? ==> r.state.RunCompleted?)
  {
    hide SharedInv, PcInv, WorkerStep, Owned, InOrder, FinishInv, LogInv;
    ExtendsRefl(s.shared.record);
    if s.loop.Batch? && Active(s.loop.workers, s.loop.parallel, i) {
      WorkerKeeps(s.run, s.shared, s.loop.workers[i].call, s.loop.workers[i].pc, ch);
    }
  }

  lemma EndExtends(s: State, e: RunEvent)
    requires Inv(s) && FinishEvent(e)
    ensures var r, r' := s.shared.record, FinishStep(s.shared.record, e).0;
            Extends(r, r') && (r'.state.RunCompleted? ==> r.state.RunCompleted? || e.CompletedEvent?)
  {
    hide FinishStep, Extends, LogInv, Owned, BatchInv, InOrder, FinishInv, SetStateStep, EmitStep, CancelStep, AddHookStep;
    StepsKeepLog(s.shared.record, Running, e);
    StepAnswers(s.shared.record, Running, e);
    FinishedState(s.shared.record, e);
  }

  lemma FinishedState(r: RunRecord, e: RunEvent)
    requires FinishEvent(e)
    ensures FinishStep(r, e).1.Err? && IsTerminal(r.state) ==> FinishStep(r, e).0 == r
  {
  }

  lemma HostExtends(s: State, a: Action)
    requires Inv(s) && !a.Finisher? && !a.Work?
    ensures var r, r' := s.shared.record, Exec(s, a).shared.record;
            Extends(r, r') && (r'.state.RunCompleted? ==> r.state.RunCompleted?)
  {
    hide Extends, LogInv, Owned, BatchInv, InOrder, FinishInv, SetStateStep, EmitStep, CancelStep, AddHookStep, Apply;
    var r := s.shared.record;
    ExtendsRefl(r);
    var st, e := if a.HostSetState? then a.state else Running, if a.HostEmit? then a.event else CancelledEvent;
    StepsKeepLog(r, st, e);
    HostRecordSteps(r, st, e);
  }

  /** A run is completed only by the finisher of a loop that ended well. */
  predicate Honest(s: State) {
    && (s.shared.record.state.RunCompleted? ==> s.loop == Exited(true))
    && ((s.finish.CheckOps? || s.finish.EndRun?) && s.finish.event.CompletedEvent? ==> s.loop == Exited(true))
  }

  lemma ExecExtends(s: State, a: Action)
    requires Inv(s) && Honest(s)
    ensures Extends(s.shared.record, Exec(s, a).shared.record) && Honest(Exec(s, a))
  {
    hide Extends, SharedInv, Owned, BatchInv, InOrder, AllOver, Apply, FinishStep, Unfinished, WorkerStep, SetStateStep, EmitStep, CancelStep;
    ExtendsRefl(s.shared.record);
    match a
    case Work(i, ch) => WorkExtends(s, i, ch);
    case Finisher(_, _, _) => if s.finish.EndRun? { EndExtends(s, s.finish.event); }
    case _ => HostExtends(s, a);
  }

  // ----------------------------------------------- the run and its forwarder together

  /** The forwarder reads the record of the run. */
  datatype Composed = Composed(run: State, reader: Forwarder.State)

  /** A step of the run or of the forwarder; `sent` tells whether the channel took the event. */
  datatype Deed = Act(action: Action) | Forward(sent: bool)

  function Do(c: Composed, d: Deed): Composed {
    match d
    case Act(a) =>
      var s := Exec(c.run, a);
      Composed(s, c.reader.(record := s.shared.record))
    case Forward(sent) =>
      c.(reader := Forwarder.Exec(c.reader, if c.reader.batch == [] then Forwarder.Fetch else Forwarder.Deliver(sent)))
  }

  function DoAll(c: Composed, deeds: seq<Deed>): Composed
    decreases |deeds|
  {
    if deeds == [] then c else DoAll(Do(c, deeds[0]), deeds[1..])
  }

  /** The actions of the run among the deeds. */
  function Acts(deeds: seq<Deed>): seq<Action> {
    if deeds == [] then [] else (if deeds[0].Act? then [deeds[0].action] else []) + Acts(deeds[1..])
  }

  function Forwards(deeds: seq<Deed>): nat {
    if deeds == [] then 0 else (if deeds[0].Forward? then 1 else 0) + Forwards(deeds[1..])
  }

  /** The handle is kept, so the channel takes every event. */
  predicate AllTaken(deeds: seq<Deed>) {
    forall i :: 0 <= i < |deeds| && deeds[i].Forward? ==> deeds[i].sent
  }

  /** A run that was just launched, and its forwarder. */
  ghost predicate Launched(c: Composed) {
    Init(c.run) && Forwarder.Init(c.reader) && c.reader.record == c.run.shared.record
  }

  ghost predicate Good(c: Composed) {
    Inv(c.run) && Honest(c.run) && Forwarder.Inv(c.reader) && c.reader.record == c.run.shared.record
  }

  /** Nothing was lost on the way to the handle. */
  predicate Lossless(f: Forwarder.State) {
    f.received == f.sunk && !f.stop.ReceiverGone?
  }

  function LogLength(c: Composed): nat { |c.run.shared.record.events| }

  lemma RecordOf(s: State)
    requires Inv(s)
    ensures LogInv(s.shared.record)
  {
  }

  lemma DoKeeps(c: Composed, d: Deed)
    requires Good(c) && (d.Forward? ==> LogLength(c) <= U64_MAX)
    ensures Good(Do(c, d)) && Extends(c.run.shared.record, Do(c, d).run.shared.record)
  {
    hide Inv, Exec, Forwarder.Inv, Forwarder.Exec, Extends, LogInv, Honest;
    ExtendsRefl(c.run.shared.record);
    match d
    case Act(a) =>
      ExecKeeps(c.run, a);
      ExecExtends(c.run, a);
      RecordOf(Exec(c.run, a));
      Forwarder.ExtensionKeeps(c.reader, Exec(c.run, a).shared.record);
    case Forward(sent) =>
      Forwarder.FetchKeeps(c.reader);
      Forwarder.DeliverKeeps(c.reader, sent);
      Forwarder.SameRecord(c.reader, sent);
  }

  lemma DoStaysLossless(c: Composed, d: Deed)
    requires Lossless(c.reader) && (d.Forward? ==> d.sent)
    ensures Lossless(Do(c, d).reader)
  {
    hide Exec;
  }

  lemma {:induction false} ExecAllExtends(s: State, actions: seq<Action>)
    requires Inv(s) && Honest(s)
    ensures Honest(ExecAll(s, actions)) && Extends(s.shared.record, ExecAll(s, actions).shared.record)
    decreases |actions|
  {
    hide Inv, Honest, Exec, Extends;
    ExtendsRefl(s.shared.record);
    if actions != [] {
      var u := Exec(s, actions[0]);
      ExecKeeps(s, actions[0]);
      ExecExtends(s, actions[0]);
      ExecAllExtends(u, actions[1..]);
      ExtendsTrans(s.shared.record, u.shared.record, ExecAll(s, actions).shared.record);
    }
  }

  /** The run itself does not notice the forwarder. */
  lemma {:induction false} RunAlone(c: Composed, deeds: seq<Deed>)
    ensures DoAll(c, deeds).run == ExecAll(c.run, Acts(deeds))
    decreases |deeds|
  {
    hide Exec, Forwarder.Exec;
    if deeds != [] {
      RunAlone(Do(c, deeds[0]), deeds[1..]);
      var rest := Acts(deeds[1..]);
      assert [] + rest == rest;
      if deeds[0].Act? { assert ([deeds[0].action] + rest)[1..] == rest; }
    }
  }

  lemma {:induction false} DoAllKeeps(c: Composed, deeds: seq<Deed>)
    requires Good(c) && LogLength(DoAll(c, deeds)) <= U64_MAX
    ensures Good(DoAll(c, deeds)) && Extends(c.run.shared.record, DoAll(c, deeds).run.shared.record)
    ensures Lossless(c.reader) && AllTaken(deeds) ==> Lossless(DoAll(c, deeds).reader)
    decreases |deeds|
  {
    hide Do, Inv, Honest, Extends, Lossless, Exec, Forwarder.Inv, LogLength;
    LengthGrows(c, deeds);
    ExtendsRefl(c.run.shared.record);
    if deeds != [] {
      var u := Do(c, deeds[0]);
      DoKeeps(c, deeds[0]);
      if Lossless(c.reader) && AllTaken(deeds) { DoStaysLossless(c, deeds[0]); }
      DoAllKeeps(u, deeds[1..]);
      ExtendsTrans(c.run.shared.record, u.run.shared.record, DoAll(c, deeds).run.shared.record);
    }
  }

  lemma {:induction false} LengthGrows(c: Composed, deeds: seq<Deed>)
    requires Inv(c.run) && Honest(c.run)
    ensures Inv(DoAll(c, deeds).run) && Honest(DoAll(c, deeds).run) && LogLength(c) <= LogLength(DoAll(c, deeds))
  {
    hide Inv, Honest, Exec, Do;
    RunAlone(c, deeds);
    ExecAllKeeps(c.run, Acts(deeds));
    ExecAllExtends(c.run, Acts(deeds));
  }

  // -------------------------------------------------------- reaching the end of the log

  /** How many more of its own steps the forwarder of a finished run can need. */
  function Rank(f: Forwarder.State): nat {
    if !f.stop.Open? then 0
    else
      var here := |f.sunk| + |f.batch|;
      |f.batch| + (if here < |f.record.events| then 1 + |f.record.events| - here else 0)
  }

  lemma ForwardFalls(f: Forwarder.State)
    requires Forwarder.Inv(f) && f.stop.Open? && IsTerminal(f.record.state) && |f.record.events| <= U64_MAX
    ensures var g := Forwarder.Exec(f, if f.batch == [] then Forwarder.Fetch else Forwarder.Deliver(true));
            Rank(g) < Rank(f)
  {
    Forwarder.MoreToHandOut(f);
    Forwarder.FetchKeeps(f);
  }

  /** A run that is over leaves its log alone, so the forwarder of a kept handle reaches its end. */
  lemma {:induction false} ForwarderFinishes(c: Composed, deeds: seq<Deed>)
    requires Good(c) && IsTerminal(c.run.shared.record.state) && Lossless(c.reader) && AllTaken(deeds)
    requires LogLength(c) <= U64_MAX && Forwards(deeds) >= Rank(c.reader)
    ensures LogLength(DoAll(c, deeds)) == LogLength(c) && DoAll(c, deeds).reader.stop.SawTerminal?
    decreases |deeds|
  {
    hide Inv, Honest, Forwarder.Inv, Exec, Forwarder.Exec;
    if c.reader.stop.Open? { Forwarder.MoreToHandOut(c.reader); }
    if deeds != [] {
      var u := Do(c, deeds[0]);
      DoKeeps(c, deeds[0]);
      DoStaysLossless(c, deeds[0]);
      if c.reader.stop.Open? { ForwardFalls(c.reader); } else { StoppedStays(c.reader); }
      ForwarderFinishes(u, deeds[1..]);
    }
  }

  lemma StoppedStays(f: Forwarder.State)
    requires !f.stop.Open?
    ensures forall d: Forwarder.Action :: Forwarder.Allowed(d) && !d.TableStep? ==> Forwarder.Exec(f, d) == f
  {
  }

  // ------------------------------------------------------------------ the theorems

  lemma RankBound(c: Composed)
    requires Good(c)
    ensures Rank(c.reader) <= LogLength(c) + 1
  {
  }

  lemma LaunchedIsGood(c: Composed)
    requires Launched(c)
    ensures Good(c) && Lossless(c.reader)
  {
    InitInv(c.run);
  }

  /** Once the loop has exited, enough steps of the finisher end the run, whatever the forwarder does. */
  lemma {:induction false} ExitedRunEnds(c: Composed, ending: seq<Deed>)
    requires Good(c) && c.run.loop.Exited? && LogLength(DoAll(c, ending)) <= U64_MAX
    requires FinisherSteps(Acts(ending)) >= 5
    ensures var d := DoAll(c, ending);
            d.run.finish.Ended? && d.run.loop == c.run.loop && IsTerminal(d.run.shared.record.state)
  {
    hide SharedInv, Owned, BatchInv, InOrder, Honest, Forwarder.Inv, ExecAll, DoAll, Acts;
    RunAlone(c, ending);
    ExitedRunsFinish(c.run, Acts(ending));
    ExecAllKeeps(c.run, Acts(ending));
  }

  /**
   A launched run whose loop has exited, in any interleaving of the run's parties and
   the forwarder.  After five steps of the finisher the run is over; after enough steps
   of the forwarder towards a kept handle, the handle has been given the whole log of
   the finished run.  The run is completed only if its loop ended well.
   */
  lemma {:induction false} WholeRunEnds(c: Composed, before: seq<Deed>, ending: seq<Deed>, after: seq<Deed>)
    requires Launched(c) && AllTaken(before) && AllTaken(ending) && AllTaken(after)
    requires DoAll(c, before).run.loop.Exited?
    requires FinisherSteps(Acts(ending)) >= 5
    requires Forwards(after) > LogLength(DoAll(DoAll(c, before), ending))
    requires LogLength(DoAll(DoAll(c, before), ending)) <= U64_MAX
    ensures var d := DoAll(DoAll(DoAll(c, before), ending), after);
            && d.run.finish.Ended? && !d.run.refused
            && LogInv(d.run.shared.record) && IsTerminal(d.run.shared.record.state)
            && d.reader.received == d.run.shared.record.events
            && (d.run.shared.record.state.RunCompleted? ==> DoAll(c, before).run.loop == Exited(true))
  {
    hide Init, Inv, Honest, Forwarder.Init, Forwarder.Inv, DoAll, Acts, FinisherSteps, Forwards, AllTaken, Lossless, LogInv, Rank;
    var exited := DoAll(c, before);
    var over := DoAll(exited, ending);
    LaunchedIsGood(c);
    LengthGrows(c, before);
    LengthGrows(exited, ending);
    DoAllKeeps(c, before);
    DoAllKeeps(exited, ending);
    ExitedRunEnds(exited, ending);
    RankBound(over);
    ForwarderFinishes(over, after);
    DoAllKeeps(over, after);
    EndIsEnd(over, after, exited.run.loop);
  }

  lemma {:induction false} EndIsEnd(over: Composed, after: seq<Deed>, loop: LoopPc)
    requires Good(over) && over.run.finish.Ended? && over.run.loop == loop && loop.Exited? && IsTerminal(over.run.shared.record.state)
    requires var end := DoAll(over, after); Good(end) && Lossless(end.reader) && end.reader.stop.SawTerminal?
    requires Extends(over.run.shared.record, DoAll(over, after).run.shared.record)
    ensures var d := DoAll(over, after);
            && d.run.finish.Ended? && !d.run.refused
            && LogInv(d.run.shared.record) && IsTerminal(d.run.shared.record.state)
            && d.reader.received == d.run.shared.record.events
            && (d.run.shared.record.state.RunCompleted? ==> loop == Exited(true))
  {
    hide Owned, BatchInv, InOrder, AllOver, StoreInv, ExecAll, DoAll, Acts, LogInv;
    RunAlone(over, after);
    ExitedRunsFinish(over.run, Acts(after));
  }

  /**
   The handle's result of such a run is the table's outcome: the output of a run whose
   loop ended well, the failure of another, or its cancellation.
   */
  method ReportWholeRun(c: Composed, before: seq<Deed>, ending: seq<Deed>, after: seq<Deed>)
    returns (r: Result<Forwarder.RunResult, Forwarder.RunFailure>)
    requires Launched(c) && AllTaken(before) && AllTaken(ending) && AllTaken(after)
    requires DoAll(c, before).run.loop.Exited?
    requires FinisherSteps(Acts(ending)) >= 5
    requires Forwards(after) > LogLength(DoAll(DoAll(c, before), ending))
    requires LogLength(DoAll(DoAll(c, before), ending)) <= U64_MAX
    ensures var record := DoAll(DoAll(DoAll(c, before), ending), after).run.shared.record;
            && record.events != [] && IsTerminal(record.state) && TerminalEvents(record.events) == 1
            && r == Forwarder.TableOutcome(record)
            && (r.Ok? <==> record.state.RunCompleted?)
            && (r.Ok? ==> DoAll(c, before).run.loop == Exited(true))
            && (r == Err(Forwarder.RunWasCancelled) <==> record.state.RunCancelled?)
  {
    hide Launched, DoAll, Acts, FinisherSteps, Forwards, AllTaken, LogLength, Forwarder.TableOutcome, TerminalEvents;
    WholeRunEnds(c, before, ending, after);
    var end := DoAll(DoAll(DoAll(c, before), ending), after);
    OneTerminalEvent(end.run.shared.record);
    r := Forwarder.AwaitResult(end.reader.received);
  }
}
