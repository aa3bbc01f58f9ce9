/** The run table: registration, state changes, finishing and cancelling runs. */
module RunTable {
  import opened Wrappers
  import opened Operations
  import opened RunLog

  // --------------------------------------------------------------- run trees

  predicate ChildOf(t: Table, child: RunId, parent: RunId) {
    child in t && t[child].parent == Some(parent)
  }

  /** `p` walks from `root` along parent links, one child at a time. */
  ghost predicate IsPath(t: Table, root: RunId, p: seq<RunId>) {
    && p != [] && p[0] == root && root in t
    && forall i :: 1 <= i < |p| ==> ChildOf(t, p[i], p[i - 1])
  }

  /** `x` is `root` or a descendant of it. */
  ghost predicate Below(t: Table, root: RunId, x: RunId) {
    exists p :: IsPath(t, root, p) && p[|p| - 1] == x
  }

  function Children(t: Table, parent: RunId): set<RunId> {
    set x | x in t && ChildOf(t, x, parent)
  }

  lemma BelowChild(t: Table, root: RunId, x: RunId, c: RunId)
    requires Below(t, root, x) && c in Children(t, x)
    ensures Below(t, root, c)
  {
    var p :| IsPath(t, root, p) && p[|p| - 1] == x;
    var q := p + [c];
    assert IsPath(t, root, q) && q[|q| - 1] == c;
  }

  lemma BelowRoot(t: Table, root: RunId)
    requires root in t
    ensures Below(t, root, root)
  {
    assert IsPath(t, root, [root]);
  }

  /** A set that holds the root and is closed under children holds everything below the root. */
  lemma ClosedHoldsAll(t: Table, root: RunId, closed: set<RunId>)
    requires root in closed && forall x :: x in closed ==> Children(t, x) <= closed
    ensures forall x :: Below(t, root, x) ==> x in closed
  {
    forall x | Below(t, root, x) ensures x in closed {
      var p :| IsPath(t, root, p) && p[|p| - 1] == x;
      PathStaysInside(t, root, p, closed, |p| - 1);
    }
  }

  lemma {:induction false} PathStaysInside(t: Table, root: RunId, p: seq<RunId>, closed: set<RunId>, k: nat)
    requires root in closed && forall x :: x in closed ==> Children(t, x) <= closed
    requires IsPath(t, root, p) && k < |p|
    ensures p[k] in closed
  {
    if k > 0 {
      PathStaysInside(t, root, p, closed, k - 1);
      assert ChildOf(t, p[k], p[k - 1]);
      assert p[k] in Children(t, p[k - 1]);
    }
  }

  // ------------------------------------------------------------------ the class

  datatype CancellationReport = CancellationReport(run: RunId, state: RunState, hooksCalled: nat)

  class Runs {
    var runs: Table
    const operations: InMemoryOperationStore

    ghost predicate Valid()
      reads this, operations
    {
      TableInv(runs) && operations.Valid()
    }

    ghost function Now(): World
      reads this, operations
    {
      World(runs, operations.Model())
    }

    constructor ()
      ensures Valid() && fresh(operations) && runs == map[] && operations.Model() == Store(map[], {})
    {
      runs := map[];
      operations := new InMemoryOperationStore();
    }

    method Register(id: RunId, parent: Option<RunId>) returns (r: Result<(), TableError>)
      requires Valid()
      modifies this
      ensures Valid() && runs == ApplyTable(old(runs), StartRun(id, parent))
      ensures r == if id in old(runs) then Err(RunCollision) else Ok(())
      ensures r.Err? ==> runs == old(runs)
      ensures r.Ok? ==>
                && runs.Keys == old(runs).Keys + {id} && (forall x :: x in old(runs) ==> runs[x] == old(runs)[x])
                && Launched(runs[id], id, parent)
    {
      TableStepKeeps(runs, StartRun(id, parent));
      if id in runs { return Err(RunCollision); }
      runs := runs[id := NewRun(id, parent)];
      return Ok(());
    }

    method ChangeState(id: RunId, state: RunState) returns (r: Result<nat, TableError>)
      requires Valid()
      modifies this
      ensures Valid() && runs == ApplyTable(old(runs), SetState(id, state))
      ensures r == if id in old(runs) then SetStateStep(old(runs)[id], state).1 else Err(UnknownRun)
    {
      TableStepKeeps(runs, SetState(id, state));
      if id !in runs { return Err(UnknownRun); }
      var step := SetStateStep(runs[id], state);
      runs := runs[id := step.0];
      return step.1;
    }

    method EmitEvent(id: RunId, event: RunEvent) returns (r: Result<nat, TableError>)
      requires Valid()
      modifies this
      ensures Valid() && runs == ApplyTable(old(runs), Emit(id, event))
      ensures r == if id in old(runs) then EmitStep(old(runs)[id], event).1 else Err(UnknownRun)
    {
      TableStepKeeps(runs, Emit(id, event));
      if id !in runs { return Err(UnknownRun); }
      var step := EmitStep(runs[id], event);
      runs := runs[id := step.0];
      return step.1;
    }

    /** Adds a hook that cancelling the run will call. */
    method RegisterHook(id: RunId) returns (r: Result<(), TableError>)
      requires Valid()
      modifies this
      ensures Valid() && runs == ApplyTable(old(runs), AddHook(id))
      ensures r == if id !in old(runs) then Err(UnknownRun) else if IsTerminal(old(runs)[id].state) then Err(RunIsTerminal) else Ok(())
      ensures r.Ok? ==> runs == old(runs)[id := old(runs)[id].(hooks := old(runs)[id].hooks + 1)]
      ensures r.Err? ==> runs == old(runs)
    {
      hide TableInv, ApplyTable, Extends, StoreInv;
      TableStepKeeps(runs, AddHook(id));
      HookApplies(runs, id);
      if id !in runs { return Err(UnknownRun); }
      if IsTerminal(runs[id].state) { return Err(RunIsTerminal); }
      runs := runs[id := runs[id].(hooks := runs[id].hooks + 1)];
      return Ok(());
    }

    /** What other parties do to the table and the store while no lock is held. */
    method Interfere(others: Others)
      requires Valid()
      modifies this, operations
      ensures Valid() && Now() == Disturb(old(Now()), others)
    {
      hide RunTableCalls, Run, TableInv, StoreInv, Extends, Advances;
      ReachableTables(runs, others.table);
      RunKeeps(operations.Model(), others.store);
      runs := RunTableCalls(runs, others.table);
      var store := Run(Store(operations.operations, operations.terminalRuns), others.store);
      operations.operations, operations.terminalRuns := store.operations, store.terminalRuns;
    }

    /**
     Refuses while an operation of the run is unfinished.  Otherwise, with others
     acting between the check, the write and the closing, ends the run and closes its
     operations.
     */
    method Finish(id: RunId, event: RunEvent, afterCheck: Others, beforeClose: Others) returns (r: Result<nat, TableError>)
      requires Valid() && FinishEvent(event)
      modifies this, operations
      ensures Valid() && (Now(), r) == FinishInSteps(old(Now()), id, event, afterCheck, beforeClose)
    {
      hide Apply, FinishStep, TableInv, StoreInv, Extends, LogInv, RunTableCalls, Run;
      var unfinished := operations.HasUnfinished(id);
      if unfinished { return Err(PendingOperations); }
      Interfere(afterCheck);
      FinishApplies(runs, id, event);
      if id !in runs { return Err(UnknownRun); }
      var step := FinishStep(runs[id], event);
      runs := runs[id := step.0];
      if step.1.Err? { return step.1; }
      Interfere(beforeClose);
      var closed := operations.CancelRun(id);
      return step.1;
    }

    /** Cancels a live run and then, after what others do in between, closes its operations. */
    method Cancel(id: RunId, between: Others) returns (r: Result<CancellationReport, TableError>)
      requires Valid()
      modifies this, operations
      ensures Valid() && (Now(), r) == CancelInSteps(old(Now()), id, between)
    {
      hide Apply, CancelStep, TableInv, StoreInv, Extends, LogInv, RunTableCalls, Run;
      CancelApplies(runs, id);
      if id !in runs { return Err(UnknownRun); }
      LogsAreGood(runs, id);
      StepAnswers(runs[id], Running, CancelledEvent);
      if IsTerminal(runs[id].state) { return Err(RunIsTerminal); }
      var hooks := runs[id].hooks;
      ghost var cancelled := runs[id := CancelStep(runs[id]).0];
      runs := runs[id := CancelStep(runs[id]).0];
      StaysCancelled(cancelled, between, id);
      Interfere(between);
      var closed := operations.CancelRun(id);
      return Ok(CancellationReport(id, runs[id].state, hooks));
    }

    /**
     Cancels the root and all its descendants, with others acting before each cancel
     and between its halves.  Every run below the root ends terminal; the reports name
     distinct runs that were live and are now cancelled, and the store is closed for
     them; every run that is not reported is exactly what the others alone would have
     left, so a target that is not reported was ended by somebody else.
     */
    method CancelTree(root: RunId, others: nat -> Others) returns (r: Result<seq<CancellationReport>, TableError>)
      requires Valid()
      modifies this, operations
      ensures Valid()
      ensures root !in old(runs) ==> r == Err(UnknownRun) && Now() == old(Now())
      ensures root in old(runs) ==>
                && r.Ok?
                && var targets := BelowSet(old(runs), root);
                   && Swept(old(runs), runs, Alone(old(runs), others, 0, |targets|), targets, r.value)
                   && old(operations.terminalRuns) <= operations.terminalRuns
                   && forall x :: x in Reported(r.value) ==> ClosedFor(operations.Model(), x)
    {
      hide TableInv, StoreInv, CancelInSteps, Disturb, Alone, ClosedFor;
      if root !in runs { return Err(UnknownRun); }
      var targets := CollectTargets(runs, root);
      var reports: seq<CancellationReport> := [];
      ghost var start := Now();
      assert TableInv(start.table) && [] + Sweep(start, targets, others, 0).1 == Sweep(start, targets, others, 0).1;
      for i := 0 to |targets|
        invariant Valid() && i <= |targets|
        invariant Sweep(start, targets, others, 0)
               == (Sweep(Now(), targets, others, i).0, reports + Sweep(Now(), targets, others, i).1)
      {
        ghost var before := Now();
        Interfere(others(2 * i));
        var outcome := Cancel(targets[i], others(2 * i + 1));
        SweepUnfolds(before, targets, others, i, reports);
        if outcome.Err? { Interfere(others(2 * i + 1)); }
        if outcome.Ok? { reports := reports + [outcome.value]; }
      }
      assert reports + [] == reports;
      DistinctCount(targets);
      assert Elements(targets) == BelowSet(start.table, root);
      assert forall j :: 0 <= j < |targets| ==> targets[j] in BelowSet(start.table, root);
      SweepMeaning(start.table, start.store, targets, others);
      SweepCloses(start, targets, others, 0);
      return Ok(reports);
    }

    /** Events after a sequence number. */
    method EventsSince(id: RunId, sequence: nat) returns (r: Result<seq<Envelope>, TableError>)
      requires Valid()
      ensures r == if id in runs then Ok(After(runs[id].events, sequence)) else Err(UnknownRun)
    {
      if id !in runs { return Err(UnknownRun); }
      return Ok(After(runs[id].events, sequence));
    }
  }

  /** A run that was just registered: a child of its parent, live, without hooks, its token unset, its log begun. */
  predicate Launched(r: RunRecord, id: RunId, parent: Option<RunId>) {
    && r.id == id && r.parent == parent && r.state == Running && r.hooks == 0 && !r.cancelled
    && r.events == [Envelope(1, id, RunStarted(id))]
  }

  lemma HookApplies(t: Table, id: RunId)
    ensures ApplyTable(t, AddHook(id))
         == if id !in t || IsTerminal(t[id].state) then t else t[id := t[id].(hooks := t[id].hooks + 1)]
  {
  }

  lemma CancelApplies(t: Table, id: RunId)
    requires TableInv(t)
    ensures id in t ==> TableInv(t[id := CancelStep(t[id]).0])
  {
    hide CancelStep, LogInv, Extends;
    TableStepKeeps(t, CancelTheRun(id));
  }

  lemma FinishApplies(t: Table, id: RunId, event: RunEvent)
    requires TableInv(t) && FinishEvent(event)
    ensures id in t ==> TableInv(t[id := FinishStep(t[id], event).0])
  {
    hide FinishStep, LogInv, Extends;
    TableStepKeeps(t, FinishRun(id, event));
  }

  lemma LogsAreGood(t: Table, id: RunId)
    requires TableInv(t) && id in t
    ensures LogInv(t[id])
  {
  }

  /** A cancelled run is still cancelled after whatever others do. */
  lemma {:induction false} StaysCancelled(t: Table, others: Others, id: RunId)
    requires TableInv(t) && id in t && t[id].state.RunCancelled?
    ensures id in RunTableCalls(t, others.table) && RunTableCalls(t, others.table)[id].state.RunCancelled?
  {
    hide TableInv, RunTableCalls;
    ReachableTables(t, others.table);
  }

  ghost function Elements(xs: seq<RunId>): set<RunId> {
    set x | x in xs
  }

  ghost function BelowSet(t: Table, root: RunId): set<RunId> {
    set x | x in t && Below(t, root, x)
  }

  // --------------------------------------------------------- a sweep among others

  datatype World = World(table: Table, store: Store)

  datatype Interference = Interference(table: seq<TableCall>, store: seq<Call>)

  predicate Proper(o: Interference) { forall i :: 0 <= i < |o.table| ==> WellFormed(o.table[i]) }

  /** Any calls of other parties, in order. */
  type Others = o: Interference | Proper(o) witness Interference([], [])

  function Disturb(w: World, others: Others): World {
    World(RunTableCalls(w.table, others.table), Run(w.store, others.store))
  }

  function FinishInSteps(w: World, id: RunId, event: RunEvent, afterCheck: Others, beforeClose: Others): (World, Result<nat, TableError>)
    requires FinishEvent(event)
  {
    if Unfinished(w.store, id) != {} then (w, Err(PendingOperations))
    else
      var u := Disturb(w, afterCheck);
      if id !in u.table then (u, Err(UnknownRun))
      else
        var step := FinishStep(u.table[id], event);
        var v := u.(table := u.table[id := step.0]);
        if step.1.Err? then (v, step.1)
        else
          var z := Disturb(v, beforeClose);
          (z.(store := Apply(z.store, CancelRun(id))), step.1)
  }

  function CancelInSteps(w: World, id: RunId, between: Others): (World, Result<CancellationReport, TableError>) {
    if id !in w.table then (w, Err(UnknownRun))
    else if IsTerminal(w.table[id].state) then (w, Err(RunIsTerminal))
    else
      var v := Disturb(w.(table := w.table[id := CancelStep(w.table[id]).0]), between);
      (v.(store := Apply(v.store, CancelRun(id))), Ok(CancellationReport(id, RunState.RunCancelled, w.table[id].hooks)))
  }

  /** The cancels of `cancel_tree` from target `i` on. */
  function Sweep(w: World, targets: seq<RunId>, others: nat -> Others, i: nat): (World, seq<CancellationReport>)
    decreases |targets| - i
  {
    if i >= |targets| then (w, [])
    else
      var step := CancelInSteps(Disturb(w, others(2 * i)), targets[i], others(2 * i + 1));
      var v := if step.1.Ok? then step.0 else Disturb(step.0, others(2 * i + 1));
      var rest := Sweep(v, targets, others, i + 1);
      (rest.0, (if step.1.Ok? then [step.1.value] else []) + rest.1)
  }

  lemma SweepUnfolds(w: World, targets: seq<RunId>, others: nat -> Others, i: nat, reports: seq<CancellationReport>)
    requires i < |targets|
    ensures var step := CancelInSteps(Disturb(w, others(2 * i)), targets[i], others(2 * i + 1));
            var v := if step.1.Ok? then step.0 else Disturb(step.0, others(2 * i + 1));
            && Sweep(w, targets, others, i).0 == Sweep(v, targets, others, i + 1).0
            && reports + Sweep(w, targets, others, i).1
               == (if step.1.Ok? then reports + [step.1.value] else reports) + Sweep(v, targets, others, i + 1).1
  {
    hide CancelInSteps, Disturb;
    var step := CancelInSteps(Disturb(w, others(2 * i)), targets[i], others(2 * i + 1));
    var v := if step.1.Ok? then step.0 else Disturb(step.0, others(2 * i + 1));
    var rest := Sweep(v, targets, others, i + 1).1;
    assert [] + rest == rest;
    if step.1.Ok? { assert reports + ([step.1.value] + rest) == (reports + [step.1.value]) + rest; }
  }

  /** What the others alone would have made of the table. */
  function Alone(t: Table, others: nat -> Others, i: nat, n: nat): Table
    decreases n - i
  {
    if i >= n then t
    else Alone(RunTableCalls(RunTableCalls(t, others(2 * i).table), others(2 * i + 1).table), others, i + 1, n)
  }

  /** The tables hold the same runs and differ at most in these. */
  ghost predicate SameBut(t: Table, u: Table, except: set<RunId>) {
    t.Keys == u.Keys && except <= t.Keys && forall x :: x in t && x !in except ==> t[x] == u[x]
  }

  /** A call touches one run, so others' calls do the same to everything else. */
  lemma {:induction false} CallsAreLocal(t: Table, u: Table, calls: seq<TableCall>, except: set<RunId>)
    requires SameBut(t, u, except) && forall i :: 0 <= i < |calls| ==> WellFormed(calls[i])
    ensures SameBut(RunTableCalls(t, calls), RunTableCalls(u, calls), except)
    decreases |calls|
  {
    hide StepRecord, NewRun, WellFormed;
    if calls != [] {
      assert SameBut(ApplyTable(t, calls[0]), ApplyTable(u, calls[0]), except);
      CallsAreLocal(ApplyTable(t, calls[0]), ApplyTable(u, calls[0]), calls[1..], except);
    }
  }

  /** All records of the first table are there and at most extended. */
  ghost predicate Grows(t: Table, u: Table) {
    forall x :: x in t ==> x in u && Extends(t[x], u[x])
  }

  lemma GrowsTrans(t: Table, u: Table, v: Table)
    requires Grows(t, u) && Grows(u, v)
    ensures Grows(t, v)
  {
    hide Extends;
    forall x | x in t ensures Extends(t[x], v[x]) { ExtendsTrans(t[x], u[x], v[x]); }
  }

  lemma {:induction false} OthersGrow(t: Table, others: Others)
    requires TableInv(t)
    ensures TableInv(RunTableCalls(t, others.table)) && Grows(t, RunTableCalls(t, others.table))
  {
    hide TableInv, RunTableCalls, Extends;
    ReachableTables(t, others.table);
  }

  lemma CancelGrows(t: Table, id: RunId)
    requires TableInv(t) && id in t && !IsTerminal(t[id].state)
    ensures var u := t[id := CancelStep(t[id]).0];
            TableInv(u) && Grows(t, u) && SameBut(u, t, {id}) && u[id].state.RunCancelled?
  {
    hide CancelStep, LogInv, Extends, TableInv;
    LogsAreGood(t, id);
    StepAnswers(t[id], Running, CancelledEvent);
    TableStepKeeps(t, CancelTheRun(id));
  }

  /** The outcome of a sweep over `targets`; `alone` is what the others alone would have left. */
  ghost predicate Swept(t: Table, t': Table, alone: Table, targets: set<RunId>, reports: seq<CancellationReport>) {
    SweptRuns(t, t', targets, reports) && SameBut(t', alone, Reported(reports))
  }

  /** One target: others act, the target is cancelled if it is still live, others act again. */
  lemma {:induction false} SweepStep(w: World, target: RunId, first: Others, second: Others, alone: Table, done: set<RunId>)
    requires TableInv(w.table) && SameBut(w.table, alone, done) && target in w.table
    ensures var u := Disturb(w, first);
            var step := CancelInSteps(u, target, second);
            var v := if step.1.Ok? then step.0 else Disturb(step.0, second);
            && TableInv(v.table) && Grows(w.table, v.table) && target in v.table && IsTerminal(v.table[target].state)
            && (step.1.Ok? ==> step.1.value.run == target && !IsTerminal(w.table[target].state) && v.table[target].state.RunCancelled?)
            && SameBut(v.table, RunTableCalls(RunTableCalls(alone, first.table), second.table), done + (if step.1.Ok? then {target} else {}))
  {
    hide TableInv, RunTableCalls, Run, Extends, CancelStep, Apply;
    var t := w.table;
    var u, b := RunTableCalls(t, first.table), RunTableCalls(alone, first.table);
    OthersGrow(t, first);
    CallsAreLocal(t, alone, first.table, done);
    if IsTerminal(u[target].state) {
      OthersGrow(u, second);
      CallsAreLocal(u, b, second.table, done);
      GrowsTrans(t, u, RunTableCalls(u, second.table));
      TerminalGrows(u, RunTableCalls(u, second.table), target);
    } else {
      var c := u[target := CancelStep(u[target]).0];
      CancelGrows(u, target);
      OthersGrow(c, second);
      assert SameBut(c, b, done + {target});
      CallsAreLocal(c, b, second.table, done + {target});
      GrowsTrans(t, u, c);
      GrowsTrans(t, c, RunTableCalls(c, second.table));
      TerminalGrows(c, RunTableCalls(c, second.table), target);
      if IsTerminal(t[target].state) { TerminalGrows(t, u, target); }
    }
  }

  lemma TerminalGrows(t: Table, u: Table, x: RunId)
    requires Grows(t, u) && x in t && IsTerminal(t[x].state)
    ensures u[x].state == t[x].state
  {
  }

  /** The outcome of a sweep, without the comparison with the others alone. */
  ghost predicate SweptRuns(t: Table, t': Table, targets: set<RunId>, reports: seq<CancellationReport>) {
    && TableInv(t') && Grows(t, t')
    && targets <= t.Keys && (forall x :: x in targets ==> IsTerminal(t'[x].state))
    && Reported(reports) <= targets && |Reported(reports)| == |reports|
    && (forall x :: x in Reported(reports) ==> !IsTerminal(t[x].state) && t'[x].state.RunCancelled?)
  }

  lemma SweptNone(t: Table)
    requires TableInv(t)
    ensures SweptRuns(t, t, {}, [])
  {
    hide TableInv, Grows;
    NothingReported();
    GrowsRefl(t);
  }

  /** One target and then the rest. */
  lemma SweptCons(t: Table, v: Table, t': Table, x: RunId, report: Option<CancellationReport>, rest: set<RunId>, later: seq<CancellationReport>)
    requires Grows(t, v) && x in t && IsTerminal(v[x].state) && x !in rest && rest <= t.Keys
    requires report.Some? ==> report.value.run == x && !IsTerminal(t[x].state) && v[x].state.RunCancelled?
    requires SweptRuns(v, t', rest, later)
    ensures SweptRuns(t, t', {x} + rest, (if report.Some? then [report.value] else []) + later)
  {
    hide TableInv, Extends, Reported;
    GrowsTrans(t, v, t');
    TerminalGrows(v, t', x);
    assert [] + later == later;
    if report.Some? { ReportedCons(report.value, later); }
    forall y | y in Reported(later) ensures !IsTerminal(t[y].state) {
      if IsTerminal(t[y].state) { TerminalGrows(t, v, y); }
    }
  }

  lemma {:induction false} SweepFrom(w: World, targets: seq<RunId>, others: nat -> Others, i: nat, alone: Table, done: set<RunId>)
    requires i <= |targets| && TableInv(w.table) && SameBut(w.table, alone, done)
    requires forall j :: i <= j < |targets| ==> targets[j] in w.table
    requires forall j, k :: i <= j < k < |targets| ==> targets[j] != targets[k]
    ensures var (w', reports) := Sweep(w, targets, others, i);
            && SweptRuns(w.table, w'.table, Elements(targets[i..]), reports)
            && SameBut(w'.table, Alone(alone, others, i, |targets|), done + Reported(reports))
    decreases |targets| - i
  {
    hide TableInv, CancelInSteps, Disturb, Grows, SameBut, Reported, RunTableCalls, SweptRuns;
    if i == |targets| {
      NothingReported();
      SweptNone(w.table);
      assert done + {} == done && Elements(targets[i..]) == {};
    } else {
      var x := targets[i];
      var step := CancelInSteps(Disturb(w, others(2 * i)), x, others(2 * i + 1));
      var v := if step.1.Ok? then step.0 else Disturb(step.0, others(2 * i + 1));
      SweepStep(w, x, others(2 * i), others(2 * i + 1), alone, done);
      var now := if step.1.Ok? then {x} else {};
      var a := RunTableCalls(RunTableCalls(alone, others(2 * i).table), others(2 * i + 1).table);
      KeysGrow(w.table, v.table);
      SweepFrom(v, targets, others, i + 1, a, done + now);
      var later := Sweep(v, targets, others, i + 1).1;
      var rest := Elements(targets[i + 1..]);
      assert targets[i..] == [x] + targets[i + 1..];
      assert Elements(targets[i..]) == {x} + rest && x !in rest;
      var report := if step.1.Ok? then Some(step.1.value) else None;
      SweptCons(w.table, v.table, Sweep(v, targets, others, i + 1).0.table, x, report, rest, later);
      if step.1.Ok? { ReportedCons(step.1.value, later); }
      assert [] + later == later;
      assert (done + now) + Reported(later) == done + (now + Reported(later)) && {} + Reported(later) == Reported(later);
    }
  }

  lemma KeysGrow(t: Table, u: Table)
    requires Grows(t, u)
    ensures t.Keys <= u.Keys
  {
  }

  lemma GrowsRefl(t: Table)
    ensures Grows(t, t)
  {
    hide Extends;
    forall x | x in t ensures Extends(t[x], t[x]) { ExtendsRefl(t[x]); }
  }

  lemma {:induction false} SweepMeaning(t: Table, store: Store, targets: seq<RunId>, others: nat -> Others)
    requires TableInv(t) && forall j :: 0 <= j < |targets| ==> targets[j] in t
    requires forall j, k :: 0 <= j < k < |targets| ==> targets[j] != targets[k]
    ensures var (w', reports) := Sweep(World(t, store), targets, others, 0);
            Swept(t, w'.table, Alone(t, others, 0, |targets|), Elements(targets), reports)
  {
    hide TableInv, Reported, Grows, Sweep, Alone;
    assert targets[0..] == targets;
    SweepFrom(World(t, store), targets, others, 0, t, {});
    var (w', reports) := Sweep(World(t, store), targets, others, 0);
    assert {} + Reported(reports) == Reported(reports);
  }

  /** The store takes no more operations of the run and has none that is pending or approved. */
  ghost predicate ClosedFor(s: Store, run: RunId) {
    && run in s.terminalRuns
    && forall id :: id in s.operations && s.operations[id].operation.run == run ==>
         !s.operations[id].state.Pending? && !s.operations[id].state.Approved?
  }

  lemma TerminalIsClosed(s: Store, run: RunId)
    requires StoreInv(s) && run in s.terminalRuns
    ensures ClosedFor(s, run)
  {
  }

  lemma {:induction false} SweepStepCloses(w: World, target: RunId, first: Others, second: Others)
    requires StoreInv(w.store)
    ensures var step := CancelInSteps(Disturb(w, first), target, second);
            var v := if step.1.Ok? then step.0 else Disturb(step.0, second);
            && StoreInv(v.store) && w.store.terminalRuns <= v.store.terminalRuns
            && (step.1.Ok? ==> step.1.value.run == target && target in v.store.terminalRuns)
  {
    hide StoreInv, RunTableCalls, Run, CancelStep, Advances;
    var s := Run(w.store, first.store);
    RunKeeps(w.store, first.store);
    RunKeeps(s, second.store);
    var z := Run(s, second.store);
    ApplyKeeps(z, CancelRun(target));
  }

  /** A sweep marks every run it reports, also when others act in between, and keeps the marks that were there. */
  lemma {:induction false} SweepMarks(w: World, targets: seq<RunId>, others: nat -> Others, i: nat)
    requires StoreInv(w.store)
    ensures var (w', reports) := Sweep(w, targets, others, i);
            && StoreInv(w'.store) && w.store.terminalRuns <= w'.store.terminalRuns
            && Reported(reports) <= w'.store.terminalRuns
    decreases |targets| - i
  {
    hide StoreInv, CancelInSteps, Disturb, Reported;
    NothingReported();
    if i < |targets| {
      var step := CancelInSteps(Disturb(w, others(2 * i)), targets[i], others(2 * i + 1));
      var v := if step.1.Ok? then step.0 else Disturb(step.0, others(2 * i + 1));
      SweepStepCloses(w, targets[i], others(2 * i), others(2 * i + 1));
      SweepMarks(v, targets, others, i + 1);
      var later := Sweep(v, targets, others, i + 1).1;
      if step.1.Ok? { ReportedCons(step.1.value, later); }
      assert [] + later == later;
    }
  }

  /** After a sweep the store is closed for every reported run. */
  lemma {:induction false} SweepCloses(w: World, targets: seq<RunId>, others: nat -> Others, i: nat)
    requires StoreInv(w.store)
    ensures var (w', reports) := Sweep(w, targets, others, i);
            && w.store.terminalRuns <= w'.store.terminalRuns
            && forall x :: x in Reported(reports) ==> ClosedFor(w'.store, x)
  {
    hide StoreInv, Sweep, Reported, ClosedFor;
    SweepMarks(w, targets, others, i);
    var (w', reports) := Sweep(w, targets, others, i);
    forall x | x in Reported(reports) ensures ClosedFor(w'.store, x) { TerminalIsClosed(w'.store, x); }
  }

  // ------------------------------------------------------------- an undisturbed sweep

  ghost predicate Undisturbed(others: nat -> Others) {
    forall n: nat :: others(n) == Interference([], [])
  }

  lemma {:induction false} NobodyElse(t: Table, others: nat -> Others, i: nat, n: nat)
    requires Undisturbed(others)
    ensures Alone(t, others, i, n) == t
    decreases n - i
  {
    if i < n { NobodyElse(t, others, i + 1, n); }
  }

  /**
   When nobody else acts, exactly the live targets are cancelled and reported, and
   every other run is unchanged.
   */
  lemma {:induction false} UndisturbedSweep(t: Table, store: Store, targets: seq<RunId>, others: nat -> Others)
    requires TableInv(t) && Undisturbed(others) && forall j :: 0 <= j < |targets| ==> targets[j] in t
    requires forall j, k :: 0 <= j < k < |targets| ==> targets[j] != targets[k]
    ensures var (w', reports) := Sweep(World(t, store), targets, others, 0);
            && Reported(reports) == (set x | x in targets && !IsTerminal(t[x].state))
            && w'.table.Keys == t.Keys
            && forall x :: x in t && x !in Reported(reports) ==> w'.table[x] == t[x]
  {
    hide TableInv, Sweep, Alone, Undisturbed, Reported;
    SweepMeaning(t, store, targets, others);
    NobodyElse(t, others, 0, |targets|);
    var (w', reports) := Sweep(World(t, store), targets, others, 0);
    forall x | x in targets && !IsTerminal(t[x].state) ensures x in Reported(reports) {
      assert x in Elements(targets);
    }
  }

  /** The worklist of `cancel_tree`: the root and everything below it, each once. */
  method CollectTargets(t: Table, root: RunId) returns (targets: seq<RunId>)
    requires root in t
    ensures forall x :: x in targets <==> x in BelowSet(t, root)
    ensures forall i, j :: 0 <= i < j < |targets| ==> targets[i] != targets[j]
  {
    hide Below;
    var pending := [root];
    targets := [];
    BelowRoot(t, root);
    while pending != []
      invariant Frontier(t, root, pending, Elements(targets))
      invariant forall i, j :: 0 <= i < j < |targets| ==> targets[i] != targets[j]
      decreases t.Keys - Elements(targets), |pending|
    {
      var parent := pending[|pending| - 1];
      ghost var before, done := pending, Elements(targets);
      pending := pending[..|pending| - 1];
      assert before == pending + [parent];
      if parent in targets {
        Revisit(t, root, pending, parent, done);
        continue;
      }
      targets := targets + [parent];
      assert Elements(targets) == done + {parent};
      var children := AnyOrder(Children(t, parent));
      Visit(t, root, pending, parent, children, done);
      pending := pending + children;
    }
    ghost var closed := Elements(targets);
    ClosedHoldsAll(t, root, closed);
  }

  /** What the worklist keeps: everything on it is below the root, and nothing below a target is forgotten. */
  ghost predicate Frontier(t: Table, root: RunId, pending: seq<RunId>, targets: set<RunId>) {
    && (forall x :: x in pending ==> x in t && Below(t, root, x))
    && (forall x :: x in targets ==> x in t && Below(t, root, x))
    && (root in targets || root in pending)
    && forall x, c :: x in targets && c in Children(t, x) ==> c in targets || c in pending
  }

  lemma Revisit(t: Table, root: RunId, pending: seq<RunId>, parent: RunId, targets: set<RunId>)
    requires Frontier(t, root, pending + [parent], targets) && parent in targets
    ensures Frontier(t, root, pending, targets)
  {
    hide Below, Children;
    assert forall x :: x in pending ==> x in pending + [parent];
    assert forall x :: x in pending + [parent] ==> x in pending || x == parent;
  }

  lemma Visit(t: Table, root: RunId, pending: seq<RunId>, parent: RunId, children: seq<RunId>, targets: set<RunId>)
    requires Frontier(t, root, pending + [parent], targets)
    requires forall x :: x in children <==> x in Children(t, parent)
    ensures Frontier(t, root, pending + children, targets + {parent}) && parent in t
  {
    hide Below;
    assert parent in pending + [parent];
    assert forall x :: x in pending ==> x in pending + [parent];
    assert forall x :: x in pending + [parent] ==> x in pending || x == parent;
    forall c | c in Children(t, parent) ensures Below(t, root, c) { BelowChild(t, root, parent, c); }
    assert forall x :: x in pending + children <==> x in pending || x in children;
  }

  /** The runs a list of reports names. */
  function Reported(reports: seq<CancellationReport>): set<RunId> {
    set i | 0 <= i < |reports| :: reports[i].run
  }

  lemma ReportedCons(x: CancellationReport, reports: seq<CancellationReport>)
    ensures Reported([x] + reports) == {x.run} + Reported(reports)
  {
    var all := [x] + reports;
    assert all[0] == x;
    forall id | id in Reported(reports) ensures id in Reported(all) {
      var i :| 0 <= i < |reports| && reports[i].run == id;
      assert all[i + 1].run == id;
    }
  }

  lemma NothingReported()
    ensures Reported([]) == {}
  {
  }

  lemma {:induction false} DistinctCount(xs: seq<RunId>)
    requires forall j, k :: 0 <= j < k < |xs| ==> xs[j] != xs[k]
    ensures |Elements(xs)| == |xs|
    decreases |xs|
  {
    if xs != [] {
      DistinctCount(xs[1..]);
      assert Elements(xs) == {xs[0]} + Elements(xs[1..]);
    }
  }

  /** The source's filter over the log. */
  function After(events: seq<Envelope>, sequence: nat): seq<Envelope> {
    if events == [] then []
    else (if events[0].sequence > sequence then [events[0]] else []) + After(events[1..], sequence)
  }

  /** While numbers have not saturated, the events after `k` are the log without its first `k`. */
  lemma {:induction false} AfterIsDrop(events: seq<Envelope>, base: nat, k: nat)
    requires forall i :: 0 <= i < |events| ==> events[i].sequence == base + i + 1
    requires base <= k <= base + |events|
    ensures After(events, k) == events[k - base..]
    decreases |events|
  {
    if events != [] {
      if base < k {
        AfterIsDrop(events[1..], base + 1, k);
        assert events[1..][k - base - 1..] == events[k - base..];
      } else {
        KeepAll(events, base, k);
      }
    }
  }

  lemma {:induction false} KeepAll(events: seq<Envelope>, base: nat, k: nat)
    requires forall i :: 0 <= i < |events| ==> events[i].sequence == base + i + 1
    requires k <= base
    ensures After(events, k) == events
    decreases |events|
  {
    if events != [] { KeepAll(events[1..], base + 1, k); }
  }

  /** A set in some order, as iterating a hash map yields it. */
  method AnyOrder(s: set<RunId>) returns (xs: seq<RunId>)
    ensures forall x :: x in xs <==> x in s
  {
    xs := [];
    var rest := s;
    while rest != {}
      invariant forall x :: x in s <==> x in xs || x in rest
      decreases rest
    {
      var x :| x in rest;
      rest := rest - {x};
      xs := xs + [x];
    }
  }

  // --------------------------------------------------------------- registered chains

  /** A run keeps its parent whatever is called. */
  lemma {:induction false} ParentStays(t: Table, calls: seq<TableCall>, id: RunId)
    requires TableInv(t) && id in t && forall i :: 0 <= i < |calls| ==> WellFormed(calls[i])
    ensures id in RunTableCalls(t, calls) && RunTableCalls(t, calls)[id].parent == t[id].parent
  {
    hide TableInv, RunTableCalls;
    ReachableTables(t, calls);
  }

  /** A run that a sequence of calls started is a child of the parent it was started under, to the end. */
  lemma {:induction false} StartedUnder(t: Table, before: seq<TableCall>, id: RunId, parent: Option<RunId>, after: seq<TableCall>)
    requires TableInv(t) && (forall i :: 0 <= i < |before| ==> WellFormed(before[i])) && (forall i :: 0 <= i < |after| ==> WellFormed(after[i]))
    requires id !in RunTableCalls(t, before)
    ensures var u := RunTableCalls(ApplyTable(RunTableCalls(t, before), StartRun(id, parent)), after);
            id in u && u[id].parent == parent
  {
    hide TableInv, RunTableCalls;
    ReachableTables(t, before);
    TableStepKeeps(RunTableCalls(t, before), StartRun(id, parent));
    ParentStays(ApplyTable(RunTableCalls(t, before), StartRun(id, parent)), after, id);
  }

  lemma PathGrows(t: Table, u: Table, root: RunId, p: seq<RunId>)
    requires Grows(t, u) && IsPath(t, root, p)
    ensures IsPath(u, root, p)
  {
    forall i | 1 <= i < |p| ensures ChildOf(u, p[i], p[i - 1]) { assert ChildOf(t, p[i], p[i - 1]); }
  }

  lemma LaunchedUnder(t: Table, id: RunId)
    requires id in t
    ensures forall p :: Launched(t[id], id, p) ==> t[id].parent == p
  {
  }

  lemma RegisterGrows(t: Table, id: RunId, parent: Option<RunId>)
    requires TableInv(t) && id !in t
    ensures Grows(t, ApplyTable(t, StartRun(id, parent)))
  {
    hide TableInv, ApplyTable, Extends;
    TableStepKeeps(t, StartRun(id, parent));
  }

  /** The last run of the path was registered under the one before it. */
  lemma PathLonger(t: Table, chain: seq<RunId>, i: nat)
    requires i < |chain| && chain[i] in t && (i > 0 ==> IsPath(t, chain[0], chain[..i]) && t[chain[i]].parent == Some(chain[i - 1]))
    ensures IsPath(t, chain[0], chain[..i + 1])
  {
    var p := chain[..i + 1];
    forall k | 1 <= k < |p| ensures ChildOf(t, p[k], p[k - 1]) {
      if k < i { assert ChildOf(t, chain[..i][k], chain[..i][k - 1]); }
    }
    if i > 0 { assert chain[..i][0] == chain[0]; }
  }

  /** Everything on a path is below its beginning. */
  lemma PathIsBelow(t: Table, p: seq<RunId>)
    requires p != [] && IsPath(t, p[0], p)
    ensures p[0] in t && forall x :: x in p ==> x in BelowSet(t, p[0])
  {
    forall x | x in p ensures x in BelowSet(t, p[0]) {
      var k :| 0 <= k < |p| && p[k] == x;
      var q := p[..k + 1];
      forall i | 1 <= i < |q| ensures ChildOf(t, q[i], q[i - 1]) { assert ChildOf(t, p[i], p[i - 1]); }
      assert IsPath(t, p[0], q) && q[|q| - 1] == x;
      if k > 0 { assert ChildOf(t, p[k], p[k - 1]); }
    }
  }

  /**
   Runs registered one under the other, with others acting after each registration,
   are all ended by cancelling the tree of the first, whatever others do meanwhile.
   */
  method RegisterAndCancelTree(runs: Runs, chain: seq<RunId>, between: nat -> Others, during: nat -> Others)
    returns (ok: bool, reports: seq<CancellationReport>)
    requires runs.Valid() && chain != []
    modifies runs, runs.operations
    ensures runs.Valid()
    ensures ok ==> forall x :: x in chain ==> x in runs.runs && IsTerminal(runs.runs[x].state)
    ensures (exists i :: 0 <= i < |chain| && chain[i] in old(runs.runs)) ==> !ok
  {
    hide Below, TableInv, StoreInv, ClosedFor, Extends, RunTableCalls, Run, IsPath, Grows, ApplyTable, Launched;
    reports := [];
    ghost var start := runs.runs;
    GrowsRefl(start);
    for i := 0 to |chain|
      invariant runs.Valid() && Grows(start, runs.runs)
      invariant i > 0 ==> IsPath(runs.runs, chain[0], chain[..i])
      invariant forall k :: 0 <= k < i ==> chain[k] !in start
    {
      ghost var t := runs.runs;
      var registered := runs.Register(chain[i], if i == 0 then None else Some(chain[i - 1]));
      if registered.Err? { return false, []; }
      KeysGrow(start, t);
      ghost var u := runs.runs;
      RegisterGrows(t, chain[i], if i == 0 then None else Some(chain[i - 1]));
      assert Launched(u[chain[i]], chain[i], if i == 0 then None else Some(chain[i - 1]));
      LaunchedUnder(u, chain[i]);
      if i > 0 { PathGrows(t, u, chain[0], chain[..i]); }
      PathLonger(u, chain, i);
      runs.Interfere(between(i));
      OthersGrow(u, between(i));
      PathGrows(u, runs.runs, chain[0], chain[..i + 1]);
      GrowsTrans(start, t, u);
      GrowsTrans(start, u, runs.runs);
    }
    assert chain[..|chain|] == chain;
    ghost var before := runs.runs;
    PathIsBelow(before, chain);
    var r := runs.CancelTree(chain[0], during);
    KeysGrow(before, runs.runs);
    ok, reports := true, r.value;
  }
}
