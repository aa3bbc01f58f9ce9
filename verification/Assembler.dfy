/** Assembling streamed tool calls, and checking what was assembled. */
module Assembler {
  import opened Wrappers
  import opened Texts
  import opened Conversation

  /** JSON as far as merging looks into it. */
  datatype Json = Object(fields: map<string, Json>) | Scalar(text: string)

  /** Extension objects are merged field by field; anything else is replaced. */
  function MergeExtra(into: Json, from: Json): Json
    decreases from
  {
    if into.Object? && from.Object? then
      Object(map k | k in into.fields.Keys + from.fields.Keys ::
        if k !in from.fields then into.fields[k]
        else if !from.fields[k].Object? then from.fields[k]
        else MergeExtra(if k in into.fields then into.fields[k] else Object(map[]), from.fields[k]))
    else from
  }

  /** Merging a snapshot again changes nothing. */
  lemma {:induction false} MergeTwice(into: Json, from: Json)
    ensures MergeExtra(MergeExtra(into, from), from) == MergeExtra(into, from)
    decreases from
  {
    if !from.Object? {
    } else if into.Object? {
      var m := MergeExtra(into, from);
      forall k | k in from.fields && from.fields[k].Object? ensures MergeExtra(m.fields[k], from.fields[k]) == m.fields[k] {
        MergeTwice(if k in into.fields then into.fields[k] else Object(map[]), from.fields[k]);
      }
      assert MergeExtra(m, from).fields == m.fields;
    } else {
      SelfMerge(from);
    }
  }

  lemma {:induction false} SelfMerge(x: Json)
    ensures MergeExtra(x, x) == x
    decreases x
  {
    if x.Object? {
      forall k | k in x.fields && x.fields[k].Object? ensures MergeExtra(x.fields[k], x.fields[k]) == x.fields[k] {
        SelfMerge(x.fields[k]);
      }
      assert MergeExtra(x, x).fields == x.fields;
    }
  }

  /** The scalar at a path of field names. */
  function Leaf(j: Json, path: seq<string>): Option<string> {
    if path == [] then (if j.Scalar? then Some(j.text) else None)
    else if j.Object? && path[0] in j.fields then Leaf(j.fields[path[0]], path[1..]) else None
  }

  /** Every scalar of the later object is in the merge, and fields it does not name stay. */
  lemma {:induction false} LaterWins(into: Json, from: Json, path: seq<string>)
    ensures Leaf(from, path).Some? ==> Leaf(MergeExtra(into, from), path) == Leaf(from, path)
    ensures path != [] && into.Object? && from.Object? && path[0] !in from.fields ==>
              Leaf(MergeExtra(into, from), path) == Leaf(into, path)
    decreases |path|
  {
    if path != [] && into.Object? && from.Object? && path[0] in from.fields && from.fields[path[0]].Object? {
      LaterWins(if path[0] in into.fields then into.fields[path[0]] else Object(map[]), from.fields[path[0]], path[1..]);
    }
  }

  datatype FunctionDelta = FunctionDelta(name: Option<string>, arguments: Option<string>)

  /** One streamed tool-call delta; absent and non-string fields are `None`, `nested` is its `function` object. */
  datatype Delta = Delta(index: Option<nat>, id: Option<string>, nested: Option<FunctionDelta>,
                         name: Option<string>, arguments: Option<string>, extra: Option<Json>)

  datatype PendingCall = PendingCall(observed: bool, id: string, name: string, arguments: string, extra: Option<Json>)

  const GAP: PendingCall := PendingCall(false, "", "", "", None)

  /** A delta with its position in its chunk and whether it carries the whole call. */
  datatype Event = Event(delta: Delta, position: nat, snapshot: bool)

  // ------------------------------------------------------------------- one delta

  function StreamedIndex(index: Option<nat>, position: nat, length: nat): nat {
    if index.Some? then index.value else if position < length then position else length
  }

  /** The first call with this id, or the place after the last one. */
  function PositionOf(calls: seq<PendingCall>, id: string): (k: nat)
    ensures k <= |calls|
    ensures k < |calls| ==> calls[k].id == id
    ensures forall i :: 0 <= i < k ==> calls[i].id != id
  {
    if calls == [] || calls[0].id == id then 0 else 1 + PositionOf(calls[1..], id)
  }

  function TargetIndex(calls: seq<PendingCall>, gemini: bool, d: Delta, position: nat): nat {
    if gemini && d.index.None? && d.id.Some? && d.id.value != "" then PositionOf(calls, d.id.value)
    else StreamedIndex(d.index, position, |calls|)
  }

  /** Later text replaces or extends earlier text. */
  function Merge(earlier: string, later: Option<string>, replace: bool): string {
    if later.None? then earlier else if replace then later.value else earlier + later.value
  }

  /** Only objects are merged. */
  function AddExtra(earlier: Option<Json>, later: Option<Json>): Option<Json> {
    if later.None? || !later.value.Object? then earlier
    else Some(MergeExtra(if earlier.Some? then earlier.value else Object(map[]), later.value))
  }

  function Update(p: PendingCall, d: Delta, snapshot: bool, metadata: bool): PendingCall {
    var id := Merge(p.id, d.id, snapshot || metadata);
    var name := if d.nested.Some? then Merge(p.name, d.nested.value.name, snapshot || metadata) else p.name;
    var arguments := if d.nested.Some? then Merge(p.arguments, d.nested.value.arguments, snapshot) else p.arguments;
    var name' := if d.name.Some? && (snapshot || name == "") then d.name.value else name;
    var arguments' := if snapshot then Merge(arguments, d.arguments, true)
                      else if d.nested.None? then Merge(arguments, d.arguments, false) else arguments;
    PendingCall(true, id, name', arguments', AddExtra(p.extra, d.extra))
  }

  function Padded(calls: seq<PendingCall>, n: nat): seq<PendingCall> {
    if |calls| >= n then calls else calls + seq(n - |calls|, _ => GAP)
  }

  function ApplyDelta(calls: seq<PendingCall>, gemini: bool, metadata: bool, e: Event): (r: seq<PendingCall>)
    ensures |r| > TargetIndex(calls, gemini, e.delta, e.position)
  {
    var k := TargetIndex(calls, gemini, e.delta, e.position);
    var padded := Padded(calls, k + 1);
    padded[k := Update(padded[k], e.delta, e.snapshot, metadata)]
  }

  /** The calls and the two contract flags, which the stream itself can switch on. */
  datatype Assembly = Assembly(calls: seq<PendingCall>, gemini: bool, metadata: bool)

  /** What a chunk does to the assembly, one step at a time. */
  datatype Step = GeminiContract | ToolDelta(event: Event)

  function ApplyStep(a: Assembly, s: Step): Assembly {
    match s
    case GeminiContract => a.(gemini := true, metadata := true)
    case ToolDelta(e) => a.(calls := ApplyDelta(a.calls, a.gemini, a.metadata, e))
  }

  function ApplySteps(a: Assembly, steps: seq<Step>): Assembly
    decreases |steps|
  {
    if steps == [] then a else ApplyStep(ApplySteps(a, steps[..|steps| - 1]), steps[|steps| - 1])
  }

  /** An assembly before its stream, under the contract its family presets. */
  function Fresh(gemini: bool, metadata: bool): Assembly { Assembly([], gemini, metadata) }

  // ---------------------------------------------------------------------- chunks

  /**
   One streamed chunk: whether its own `extra_content` has a `google` field, its
   tool-call deltas, and whether it is a snapshot.
   */
  datatype Chunk = Chunk(google: bool, deltas: seq<Delta>, snapshot: bool)

  predicate HasGoogle(d: Delta) {
    d.extra.Some? && d.extra.value.Object? && "google" in d.extra.value.fields
  }

  /** The chunk, or any call in it, switches the contract before the calls are applied. */
  predicate Switches(c: Chunk) {
    c.google || exists i :: 0 <= i < |c.deltas| && HasGoogle(c.deltas[i])
  }

  function DeltaSteps(c: Chunk, n: nat): seq<Step>
    requires n <= |c.deltas|
  {
    seq(n, i requires 0 <= i < n => ToolDelta(Event(c.deltas[i], i, c.snapshot)))
  }

  function StepsOf(c: Chunk): seq<Step> {
    (if Switches(c) then [GeminiContract] else []) + DeltaSteps(c, |c.deltas|)
  }

  function StepsOfAll(chunks: seq<Chunk>): seq<Step> {
    if chunks == [] then [] else StepsOf(chunks[0]) + StepsOfAll(chunks[1..])
  }

  lemma {:induction false} ApplyStepsAppend(a: Assembly, x: seq<Step>, y: seq<Step>)
    ensures ApplySteps(a, x + y) == ApplySteps(ApplySteps(a, x), y)
    decreases |y|
  {
    hide ApplyStep;
    if y == [] {
      assert x + y == x;
    } else {
      var n := |y| - 1;
      assert (x + y)[..|x + y| - 1] == x + y[..n];
      ApplyStepsAppend(a, x, y[..n]);
    }
  }

  // ------------------------------------------------------ calls are independent by index

  /** The call at an index, a gap if nothing reached it. */
  function At(calls: seq<PendingCall>, k: nat): PendingCall {
    if k < |calls| then calls[k] else GAP
  }

  /** Every delta carries its index. */
  ghost predicate Indexed(steps: seq<Step>) {
    forall i :: 0 <= i < |steps| && steps[i].ToolDelta? ==> steps[i].event.delta.index.Some?
  }

  predicate IsOwn(s: Step, k: nat) {
    s.ToolDelta? && s.event.delta.index == Some(k)
  }

  /** The deltas of one index, in order. */
  function OwnEvents(steps: seq<Step>, k: nat): seq<Event> {
    if steps == [] then []
    else
      var last := steps[|steps| - 1];
      OwnEvents(steps[..|steps| - 1], k) + (if IsOwn(last, k) then [last.event] else [])
  }

  /** Whether the replacing contract is in force after these steps. */
  predicate InForce(steps: seq<Step>, metadata: bool) { metadata || GeminiContract in steps }

  /** How many of its own deltas an index got before the replacing contract was in force. */
  function SwitchPlace(steps: seq<Step>, metadata: bool, k: nat): nat {
    if steps == [] then 0
    else
      var rest := steps[..|steps| - 1];
      if InForce(rest, metadata) then SwitchPlace(rest, metadata, k) else |OwnEvents(steps, k)|
  }

  /** One call built from its own deltas alone, those from `place` on under the replacing contract. */
  function Build(events: seq<Event>, place: nat): PendingCall {
    if events == [] then GAP
    else
      var n := |events| - 1;
      Update(Build(events[..n], place), events[n].delta, events[n].snapshot, n >= place)
  }

  lemma ApplyAt(calls: seq<PendingCall>, gemini: bool, metadata: bool, e: Event, k: nat)
    ensures var t := TargetIndex(calls, gemini, e.delta, e.position);
            At(ApplyDelta(calls, gemini, metadata, e), k)
            == if k == t then Update(At(calls, k), e.delta, e.snapshot, metadata) else At(calls, k)
  {
    hide Update, MergeExtra;
  }

  lemma {:induction false} BuildSnoc(events: seq<Event>, e: Event, place: nat)
    ensures Build(events + [e], place) == Update(Build(events, place), e.delta, e.snapshot, |events| >= place)
  {
    hide Update, MergeExtra;
    assert (events + [e])[..|events|] == events;
  }

  lemma {:induction false} ContractInForce(steps: seq<Step>, gemini: bool, metadata: bool)
    ensures ApplySteps(Fresh(gemini, metadata), steps).metadata == InForce(steps, metadata)
    decreases |steps|
  {
    hide ApplyDelta;
    if steps != [] {
      var n := |steps| - 1;
      ContractInForce(steps[..n], gemini, metadata);
      assert steps == steps[..n] + [steps[n]];
    }
  }

  /** While the contract is not in force the place is past all own deltas; afterwards it stays within them. */
  lemma {:induction false} PlaceMeaning(steps: seq<Step>, metadata: bool, k: nat)
    ensures SwitchPlace(steps, metadata, k) <= |OwnEvents(steps, k)|
    ensures !InForce(steps, metadata) ==> SwitchPlace(steps, metadata, k) == |OwnEvents(steps, k)|
    decreases |steps|
  {
    if steps != [] {
      var n := |steps| - 1;
      PlaceMeaning(steps[..n], metadata, k);
      assert steps == steps[..n] + [steps[n]];
    }
  }

  /** Building ignores how far past the end the place lies. */
  lemma {:induction false} BuildBefore(events: seq<Event>, p: nat, q: nat)
    requires |events| <= p && |events| <= q
    ensures Build(events, p) == Build(events, q)
    decreases |events|
  {
    hide Update;
    if events != [] { BuildBefore(events[..|events| - 1], p, q); }
  }

  /**
   With explicit indices the call at an index is what its own deltas build, each
   under the contract in force when it arrived, whatever else is interleaved.
   */
  lemma {:induction false} IndexIndependence(steps: seq<Step>, gemini: bool, metadata: bool, k: nat)
    requires Indexed(steps)
    ensures At(ApplySteps(Fresh(gemini, metadata), steps).calls, k) == Build(OwnEvents(steps, k), SwitchPlace(steps, metadata, k))
    decreases |steps|
  {
    hide Update, MergeExtra, Build, ApplyDelta;
    if steps == [] {
      EmptyBuild(0);
    } else {
      var n := |steps| - 1;
      var rest, last := steps[..n], steps[n];
      var a := ApplySteps(Fresh(gemini, metadata), rest);
      assert steps == rest + [last];
      IndexIndependence(rest, gemini, metadata, k);
      ContractInForce(rest, gemini, metadata);
      PlaceMeaning(rest, metadata, k);
      PlaceMeaning(steps, metadata, k);
      var own := OwnEvents(rest, k);
      assert own + [] == own;
      if last.ToolDelta? { ApplyAt(a.calls, a.gemini, a.metadata, last.event, k); }
      if IsOwn(last, k) {
        var place := SwitchPlace(steps, metadata, k);
        BuildSnoc(own, last.event, place);
        if !a.metadata { BuildBefore(own, place, SwitchPlace(rest, metadata, k)); }
      }
    }
  }

  lemma {:induction false} EmptyBuild(place: nat)
    ensures Build([], place) == GAP
  {
  }

  lemma ApplyLength(calls: seq<PendingCall>, gemini: bool, metadata: bool, e: Event)
    requires e.delta.index.Some?
    ensures |ApplyDelta(calls, gemini, metadata, e)| == if e.delta.index.value < |calls| then |calls| else e.delta.index.value + 1
  {
    hide Update, MergeExtra;
  }

  /** Some delta arrived at this index or beyond. */
  ghost predicate Reached(steps: seq<Step>, k: nat) {
    exists j: nat :: j >= k && OwnEvents(steps, j) != []
  }

  lemma ReachedSnoc(steps: seq<Step>, s: Step, k: nat)
    ensures Reached(steps + [s], k) <==> Reached(steps, k) || (s.ToolDelta? && s.event.delta.index.Some? && s.event.delta.index.value >= k)
  {
    hide OwnEvents;
    var all := steps + [s];
    forall j: nat ensures OwnEvents(all, j) == OwnEvents(steps, j) + (if IsOwn(s, j) then [s.event] else []) { OwnSnoc(steps, s, j); }
    if Reached(all, k) {
      var j: nat :| j >= k && OwnEvents(all, j) != [];
      assert IsOwn(s, j) || OwnEvents(steps, j) != [];
    }
    if Reached(steps, k) {
      var j: nat :| j >= k && OwnEvents(steps, j) != [];
      assert OwnEvents(all, j) != [];
    }
    if s.ToolDelta? && s.event.delta.index.Some? { assert IsOwn(s, s.event.delta.index.value) && OwnEvents(all, s.event.delta.index.value) != []; }
  }

  lemma {:induction false} OwnSnoc(steps: seq<Step>, s: Step, k: nat)
    ensures OwnEvents(steps + [s], k) == OwnEvents(steps, k) + (if IsOwn(s, k) then [s.event] else [])
    ensures SwitchPlace(steps + [s], false, k)
         == if GeminiContract in steps then SwitchPlace(steps, false, k) else |OwnEvents(steps + [s], k)|
  {
    assert (steps + [s])[..|steps|] == steps;
  }

  /** A call is in place exactly when some delta at its index or beyond arrived. */
  lemma {:induction false} PlacesNeeded(steps: seq<Step>, gemini: bool, metadata: bool, k: nat)
    requires Indexed(steps)
    ensures k < |ApplySteps(Fresh(gemini, metadata), steps).calls| <==> Reached(steps, k)
    decreases |steps|
  {
    hide ApplyDelta, Reached;
    if steps == [] {
      NothingReached(k);
    } else {
      var n := |steps| - 1;
      var rest, last := steps[..n], steps[n];
      assert steps == rest + [last];
      PlacesNeeded(rest, gemini, metadata, k);
      ReachedSnoc(rest, last, k);
      var a := ApplySteps(Fresh(gemini, metadata), rest);
      if last.ToolDelta? { ApplyLength(a.calls, a.gemini, a.metadata, last.event); }
    }
  }

  lemma NothingReached(k: nat)
    ensures !Reached([], k)
  {
  }

  ghost predicate SameDeltas(a: seq<Step>, b: seq<Step>) {
    forall k: nat :: OwnEvents(a, k) == OwnEvents(b, k)
  }

  lemma {:induction false} NoShorter(a: seq<Step>, b: seq<Step>, gemini: bool, metadata: bool)
    requires Indexed(a) && Indexed(b) && SameDeltas(a, b)
    ensures |ApplySteps(Fresh(gemini, metadata), a).calls| <= |ApplySteps(Fresh(gemini, metadata), b).calls|
  {
    hide ApplySteps, OwnEvents;
    var k := |ApplySteps(Fresh(gemini, metadata), b).calls|;
    PlacesNeeded(a, gemini, metadata, k);
    PlacesNeeded(b, gemini, metadata, k);
    if Reached(a, k) { ReachedSame(a, b, k); }
  }

  lemma ReachedSame(a: seq<Step>, b: seq<Step>, k: nat)
    requires SameDeltas(a, b) && Reached(a, k)
    ensures Reached(b, k)
  {
    hide OwnEvents;
    var j: nat :| j >= k && OwnEvents(a, j) != [];
    assert OwnEvents(b, j) != [];
  }

  // ------------------------------------------------- when the switch's place matters

  /** The last delta with an id, counted from one; zero if there is none. */
  function LastId(events: seq<Event>): (n: nat)
    ensures n <= |events|
    ensures n > 0 ==> events[n - 1].delta.id.Some?
  {
    if events == [] then 0
    else if events[|events| - 1].delta.id.Some? then |events| else LastId(events[..|events| - 1])
  }

  function NestedName(d: Delta): Option<string> {
    if d.nested.Some? then d.nested.value.name else None
  }

  function LastName(events: seq<Event>): (n: nat)
    ensures n <= |events|
    ensures n > 0 ==> NestedName(events[n - 1].delta).Some?
  {
    if events == [] then 0
    else if NestedName(events[|events| - 1].delta).Some? then |events| else LastName(events[..|events| - 1])
  }

  /** The outer name, which is taken by snapshots and for calls still without a name. */
  function OuterName(name: string, e: Event): string {
    if e.delta.name.Some? && (e.snapshot || name == "") then e.delta.name.value else name
  }

  function OuterNames(name: string, events: seq<Event>): string {
    if events == [] then name else OuterName(OuterNames(name, events[..|events| - 1]), events[|events| - 1])
  }

  /**
   The last id arrives between the two places, as a fragment that one contract
   appends to earlier text and the other puts in its stead.
   */
  predicate IdDepends(events: seq<Event>, p: nat, q: nat) {
    var n := LastId(events);
    n > 0 && p <= n - 1 < q && !events[n - 1].snapshot && Build(events[..n - 1], q).id != ""
  }

  /** Likewise for the name, if the outer names that follow tell the two apart. */
  predicate NameDepends(events: seq<Event>, p: nat, q: nat) {
    var n := LastName(events);
    n > 0 && p <= n - 1 < q && !events[n - 1].snapshot
    && var fragment := NestedName(events[n - 1].delta).value;
       OuterNames(fragment, events[n - 1..]) != OuterNames(Build(events[..n - 1], q).name + fragment, events[n - 1..])
  }

  /** Arguments and extension objects never depend on the contract. */
  lemma {:induction false} RestIsIndependent(events: seq<Event>, p: nat, q: nat)
    ensures var x, y := Build(events, p), Build(events, q);
            x.observed == y.observed && x.arguments == y.arguments && x.extra == y.extra
    decreases |events|
  {
    hide MergeExtra;
    if events != [] { RestIsIndependent(events[..|events| - 1], p, q); }
  }

  lemma {:induction false} IdIff(events: seq<Event>, p: nat, q: nat)
    requires p <= q
    ensures Build(events, p).id == Build(events, q).id <==> !IdDepends(events, p, q)
    decreases |events|
  {
    hide MergeExtra;
    if events != [] {
      var n := |events| - 1;
      IdIff(events[..n], p, q);
      if events[n].delta.id.None? {
        var m := LastId(events);
        if m > 0 { assert events[..n][..m - 1] == events[..m - 1] && events[..n][m - 1] == events[m - 1]; }
      } else if n < p {
        BuildBefore(events[..n], p, q);
      }
    }
  }

  /** One delta's effect on the name: the nested name, then the outer one. */
  lemma {:induction false} NameStep(events: seq<Event>, place: nat)
    requires events != []
    ensures var m := |events| - 1;
            var inner := Merge(Build(events[..m], place).name, NestedName(events[m].delta), events[m].snapshot || m >= place);
            Build(events, place).name == OuterName(inner, events[m])
  {
    hide MergeExtra;
  }

  lemma {:induction false} OuterNamesStep(name: string, events: seq<Event>, from: nat)
    requires from < |events|
    ensures OuterNames(name, events[from..]) == OuterName(OuterNames(name, events[..|events| - 1][from..]), events[|events| - 1])
  {
    hide OuterName;
    assert events[from..][..|events[from..]| - 1] == events[..|events| - 1][from..];
  }

  /** From the last nested name on, only outer names change the name. */
  lemma {:induction false} NameFrom(events: seq<Event>, place: nat)
    ensures var n := LastName(events);
            Build(events, place).name
            == if n == 0 then OuterNames("", events)
               else
                 var fragment := NestedName(events[n - 1].delta).value;
                 OuterNames(Merge(Build(events[..n - 1], place).name, Some(fragment), events[n - 1].snapshot || n - 1 >= place), events[n - 1..])
    decreases |events|
  {
    hide MergeExtra, Build, OuterName, OuterNames, NestedName;
    if events == [] {
      EmptyBuild(place);
      NoNames("");
    } else {
      var m := |events| - 1;
      var n := LastName(events);
      NameStep(events, place);
      if n == |events| {
        var name := Merge(Build(events[..m], place).name, NestedName(events[m].delta), events[m].snapshot || m >= place);
        assert events[..m][m..] == [];
        NoNames(name);
        OuterNamesStep(name, events, m);
      } else {
        NameFrom(events[..m], place);
        if n > 0 {
          assert events[..m][n - 1] == events[n - 1] && events[..m][..n - 1] == events[..n - 1];
          var fragment := NestedName(events[n - 1].delta).value;
          OuterNamesStep(Merge(Build(events[..n - 1], place).name, Some(fragment), events[n - 1].snapshot || n - 1 >= place), events, n - 1);
        } else {
          assert events[0..] == events && events[..m][0..] == events[..m];
          OuterNamesStep("", events, 0);
        }
      }
    }
  }

  lemma {:induction false} NoNames(name: string)
    ensures OuterNames(name, []) == name
  {
  }

  lemma {:induction false} NameIff(events: seq<Event>, p: nat, q: nat)
    requires p <= q
    ensures Build(events, p).name == Build(events, q).name <==> !NameDepends(events, p, q)
  {
    hide Update, MergeExtra, OuterNames, Build;
    NameFrom(events, p);
    NameFrom(events, q);
    var n := LastName(events);
    if n > 0 && n - 1 < p { BuildBefore(events[..n - 1], p, q); }
  }

  /** Without outer names the name depends on the place exactly when earlier text is there. */
  lemma {:induction false} PlainNamesIff(events: seq<Event>, p: nat, q: nat)
    requires forall i :: 0 <= i < |events| ==> events[i].delta.name.None?
    ensures var n := LastName(events);
            NameDepends(events, p, q) <==>
              n > 0 && p <= n - 1 < q && !events[n - 1].snapshot && Build(events[..n - 1], q).name != ""
  {
    hide Build;
    var n := LastName(events);
    if n > 0 {
      var fragment := NestedName(events[n - 1].delta).value;
      NoOuterNames(fragment, events[n - 1..]);
      NoOuterNames(Build(events[..n - 1], q).name + fragment, events[n - 1..]);
      assert |Build(events[..n - 1], q).name + fragment| == |Build(events[..n - 1], q).name| + |fragment|;
      assert "" + fragment == fragment;
    }
  }

  lemma {:induction false} NoOuterNames(name: string, events: seq<Event>)
    requires forall i :: 0 <= i < |events| ==> events[i].delta.name.None?
    ensures OuterNames(name, events) == name
    decreases |events|
  {
    if events != [] { NoOuterNames(name, events[..|events| - 1]); }
  }

  /** Where the switch stands among these deltas makes no difference. */
  predicate PlaceIsImmaterial(events: seq<Event>, p: nat, q: nat) {
    var lo, hi := if p <= q then p else q, if p <= q then q else p;
    !IdDepends(events, lo, hi) && !NameDepends(events, lo, hi)
  }

  lemma {:induction false} PlaceIff(events: seq<Event>, p: nat, q: nat)
    ensures Build(events, p) == Build(events, q) <==> PlaceIsImmaterial(events, p, q)
  {
    hide Build, IdDepends, NameDepends;
    var lo, hi := if p <= q then p else q, if p <= q then q else p;
    RestIsIndependent(events, lo, hi);
    IdIff(events, lo, hi);
    NameIff(events, lo, hi);
  }

  /**
   Two streams with the same deltas per index assemble the same calls exactly when,
   for every index, the place of the contract switch among its own deltas is the
   same or immaterial.
   */
  lemma {:induction false} InterleavingIff(a: seq<Step>, b: seq<Step>, gemini: bool, metadata: bool)
    requires Indexed(a) && Indexed(b) && SameDeltas(a, b)
    ensures ApplySteps(Fresh(gemini, metadata), a).calls == ApplySteps(Fresh(gemini, metadata), b).calls
            <==> forall k: nat :: PlaceIsImmaterial(OwnEvents(a, k), SwitchPlace(a, metadata, k), SwitchPlace(b, metadata, k))
  {
    hide ApplySteps, Build, PlaceIsImmaterial, OwnEvents, SwitchPlace;
    var x, y := ApplySteps(Fresh(gemini, metadata), a).calls, ApplySteps(Fresh(gemini, metadata), b).calls;
    NoShorter(a, b, gemini, metadata);
    NoShorter(b, a, gemini, metadata);
    forall k: nat
      ensures At(x, k) == At(y, k) <==> PlaceIsImmaterial(OwnEvents(a, k), SwitchPlace(a, metadata, k), SwitchPlace(b, metadata, k))
    {
      IndexIndependence(a, gemini, metadata, k);
      IndexIndependence(b, gemini, metadata, k);
      PlaceIff(OwnEvents(a, k), SwitchPlace(a, metadata, k), SwitchPlace(b, metadata, k));
    }
    SameCalls(x, y);
    if x == y {
      forall k: nat ensures PlaceIsImmaterial(OwnEvents(a, k), SwitchPlace(a, metadata, k), SwitchPlace(b, metadata, k)) {
        assert At(x, k) == At(y, k);
      }
    } else {
      var k: nat :| At(x, k) != At(y, k);
      assert !PlaceIsImmaterial(OwnEvents(a, k), SwitchPlace(a, metadata, k), SwitchPlace(b, metadata, k));
    }
  }

  lemma SameCalls(x: seq<PendingCall>, y: seq<PendingCall>)
    requires |x| == |y|
    ensures x == y <==> forall k: nat :: At(x, k) == At(y, k)
  {
    if forall k: nat :: At(x, k) == At(y, k) {
      forall k | 0 <= k < |x| ensures x[k] == y[k] { assert At(x, k) == At(y, k); }
    }
  }

  /** In particular when the switch stands at the same place among each index's own deltas. */
  lemma {:induction false} InterleavingIsInvisible(a: seq<Step>, b: seq<Step>, gemini: bool, metadata: bool)
    requires Indexed(a) && Indexed(b) && SameDeltas(a, b)
    requires forall k: nat :: SwitchPlace(a, metadata, k) == SwitchPlace(b, metadata, k)
    ensures ApplySteps(Fresh(gemini, metadata), a).calls == ApplySteps(Fresh(gemini, metadata), b).calls
  {
    hide ApplySteps, Build, OwnEvents, SwitchPlace, PlaceIsImmaterial;
    InterleavingIff(a, b, gemini, metadata);
    forall k: nat ensures PlaceIsImmaterial(OwnEvents(a, k), SwitchPlace(a, metadata, k), SwitchPlace(b, metadata, k)) {
      PlaceIff(OwnEvents(a, k), SwitchPlace(a, metadata, k), SwitchPlace(b, metadata, k));
    }
  }

  /** A family that presets the replacing contract never sees a difference. */
  lemma {:induction false} PresetContract(a: seq<Step>, b: seq<Step>, gemini: bool)
    requires Indexed(a) && Indexed(b) && SameDeltas(a, b)
    ensures ApplySteps(Fresh(gemini, true), a).calls == ApplySteps(Fresh(gemini, true), b).calls
  {
    hide ApplySteps, OwnEvents;
    forall k: nat ensures SwitchPlace(a, true, k) == 0 == SwitchPlace(b, true, k) {
      PresetPlace(a, k);
      PresetPlace(b, k);
    }
    InterleavingIsInvisible(a, b, gemini, true);
  }

  lemma {:induction false} PresetPlace(steps: seq<Step>, k: nat)
    ensures SwitchPlace(steps, true, k) == 0
    decreases |steps|
  {
    if steps != [] { PresetPlace(steps[..|steps| - 1], k); }
  }

  function Fragment(index: nat, id: string, name: string, google: bool): Delta {
    Delta(Some(index), Some(id), Some(FunctionDelta(Some(name), None)), None, None,
          if google then Some(Object(map["google" := Object(map[])])) else None)
  }

  /** Two chunk orders with the same deltas per index in which call 0 gets the id `call_1` or `1`. */
  lemma InterleavingCanShow()
    ensures var a, b := Chunk(false, [Fragment(0, "call_", "get", false)], false), Chunk(false, [Fragment(0, "1", "_w", false)], false);
            var g := Chunk(false, [Fragment(1, "b", "x", true)], false);
            && At(ApplySteps(Fresh(false, false), StepsOfAll([a, b, g])).calls, 0).id == "call_1"
            && At(ApplySteps(Fresh(false, false), StepsOfAll([a, g, b])).calls, 0).id == "1"
  {
    hide ApplySteps, StepsOf, StepsOfAll, OwnEvents, SwitchPlace, Build;
    var x, y, z := Fragment(0, "call_", "get", false), Fragment(0, "1", "_w", false), Fragment(1, "b", "x", true);
    var a, b, g := Chunk(false, [x], false), Chunk(false, [y], false), Chunk(false, [z], false);
    var sx, sy, sz := ToolDelta(Event(x, 0, false)), ToolDelta(Event(y, 0, false)), ToolDelta(Event(z, 0, false));
    StepsOfOne(a);
    StepsOfOne(b);
    StepsOfOne(g);
    StepsOfThree(a, b, g);
    StepsOfThree(a, g, b);
    var late, early := [sx, sy, GeminiContract, sz], [sx, GeminiContract, sz, sy];
    IndexIndependence(late, false, false, 0);
    IndexIndependence(early, false, false, 0);
    TwoOrders(sx, sy, sz, 0);
    TwoFragments(sx.event, sy.event);
    assert StepsOf(a) == [sx] && StepsOf(b) == [sy] && StepsOf(g) == [GeminiContract, sz];
    assert StepsOfAll([a, b, g]) == late && StepsOfAll([a, g, b]) == early;
  }

  lemma StepsOfOne(c: Chunk)
    requires |c.deltas| == 1 && !c.google
    ensures StepsOf(c) == (if HasGoogle(c.deltas[0]) then [GeminiContract] else []) + [ToolDelta(Event(c.deltas[0], 0, c.snapshot))]
  {
  }

  lemma StepsOfThree(a: Chunk, b: Chunk, c: Chunk)
    ensures StepsOfAll([a, b, c]) == StepsOf(a) + (StepsOf(b) + StepsOf(c))
  {
    hide StepsOf;
    assert [a, b, c][1..] == [b, c] && [b, c][1..] == [c] && [c][1..] == [];
    assert StepsOfAll([c]) == StepsOf(c) + StepsOfAll([]);
    assert StepsOfAll([b, c]) == StepsOf(b) + StepsOfAll([c]);
  }

  /** The own deltas `x` and `y` of one index, with the switch after or between them. */
  lemma {:induction false} TwoOrders(x: Step, y: Step, z: Step, k: nat)
    requires IsOwn(x, k) && IsOwn(y, k) && z.ToolDelta? && !IsOwn(z, k)
    ensures OwnEvents([x, y, GeminiContract, z], k) == [x.event, y.event] && SwitchPlace([x, y, GeminiContract, z], false, k) == 2
    ensures OwnEvents([x, GeminiContract, z, y], k) == [x.event, y.event] && SwitchPlace([x, GeminiContract, z, y], false, k) == 1
  {
    hide SwitchPlace, OwnEvents;
    var g := GeminiContract;
    OwnNone(k);
    OwnSnoc([], x, k);
    OwnSnoc([x], y, k);
    OwnSnoc([x, y], g, k);
    OwnSnoc([x, y, g], z, k);
    OwnSnoc([x], g, k);
    OwnSnoc([x, g], z, k);
    OwnSnoc([x, g, z], y, k);
    assert [] + [x] == [x] && [x] + [y] == [x, y] && [x, y] + [g] == [x, y, g] && [x, y, g] + [z] == [x, y, g, z];
    assert [x] + [g] == [x, g] && [x, g] + [z] == [x, g, z] && [x, g, z] + [y] == [x, g, z, y];
    assert [x, y, g][2] == g && [x, g][1] == g && [x, g, z][1] == g;
  }

  lemma {:induction false} OwnNone(k: nat)
    ensures OwnEvents([], k) == []
  {
  }

  lemma TwoFragments(x: Event, y: Event)
    requires x.delta.id == Some("call_") && y.delta.id == Some("1") && !x.snapshot && !y.snapshot
    ensures Build([x, y], 1).id == "1"
    ensures Build([x, y], 2).id == "call_1"
  {
    hide Build;
    assert [] + [x] == [x] && [x] + [y] == [x, y];
    EmptyBuild(1);
    EmptyBuild(2);
    BuildSnoc([], x, 1);
    BuildSnoc([], x, 2);
    BuildSnoc([x], y, 1);
    BuildSnoc([x], y, 2);
    assert "" + "call_" == "call_" && "call_" + "1" == "call_1";
  }

  // --------------------------------------------------------- deltas without an index

  /** The chunk with every delta's position as its index. */
  function Numbered(c: Chunk): Chunk {
    c.(deltas := seq(|c.deltas|, i requires 0 <= i < |c.deltas| => c.deltas[i].(index := Some(i))))
  }

  function AllNumbered(chunks: seq<Chunk>): seq<Chunk> {
    seq(|chunks|, i requires 0 <= i < |chunks| => Numbered(chunks[i]))
  }

  /** No delta has an index, and none switches the contract. */
  predicate Unindexed(c: Chunk) {
    !Switches(c) && forall i :: 0 <= i < |c.deltas| ==> c.deltas[i].index.None?
  }

  /** Under the appending contract the deltas of a chunk without indices go by their positions. */
  lemma {:induction false} ChunkGoesByPosition(a: Assembly, c: Chunk, n: nat)
    requires Unindexed(c) && !a.gemini && n <= |c.deltas|
    ensures var b := ApplySteps(a, DeltaSteps(c, n));
            b == ApplySteps(a, DeltaSteps(Numbered(c), n)) && |b.calls| >= n && !b.gemini
    decreases n
  {
    hide Update, MergeExtra, Switches;
    if n > 0 {
      ChunkGoesByPosition(a, c, n - 1);
      var s, t := DeltaSteps(c, n), DeltaSteps(Numbered(c), n);
      assert s[..n - 1] == DeltaSteps(c, n - 1) && t[..n - 1] == DeltaSteps(Numbered(c), n - 1);
      SameUpdate(ApplySteps(a, s[..n - 1]), c.deltas[n - 1], n - 1, c.snapshot);
    }
  }

  /** The index is only used to find the call. */
  lemma SameUpdate(a: Assembly, d: Delta, position: nat, snapshot: bool)
    requires d.index.None? && !a.gemini && position <= |a.calls|
    ensures var b := ApplyStep(a, ToolDelta(Event(d, position, snapshot)));
            && b == ApplyStep(a, ToolDelta(Event(d.(index := Some(position)), position, snapshot)))
            && |b.calls| > position && !b.gemini
  {
    hide MergeExtra;
  }

  /** So a whole stream without indices assembles as if each delta named its position. */
  lemma {:induction false} MissingIndexIsPosition(a: Assembly, chunks: seq<Chunk>)
    requires !a.gemini && forall i :: 0 <= i < |chunks| ==> Unindexed(chunks[i])
    ensures ApplySteps(a, StepsOfAll(chunks)) == ApplySteps(a, StepsOfAll(AllNumbered(chunks)))
    decreases |chunks|
  {
    hide ApplyStep, Switches, ApplySteps, StepsOf;
    if chunks != [] {
      var c, rest := chunks[0], chunks[1..];
      ChunkOfPositions(a, c);
      ApplyStepsAppend(a, StepsOf(c), StepsOfAll(rest));
      ApplyStepsAppend(a, StepsOf(Numbered(c)), StepsOfAll(AllNumbered(rest)));
      assert AllNumbered(chunks)[1..] == AllNumbered(rest) && AllNumbered(chunks)[0] == Numbered(c);
      MissingIndexIsPosition(ApplySteps(a, StepsOf(c)), rest);
    }
  }

  lemma {:induction false} ChunkOfPositions(a: Assembly, c: Chunk)
    requires Unindexed(c) && !a.gemini
    ensures ApplySteps(a, StepsOf(c)) == ApplySteps(a, StepsOf(Numbered(c))) && !ApplySteps(a, StepsOf(c)).gemini
  {
    hide ApplyStep, ApplySteps, HasGoogle, DeltaSteps;
    ChunkGoesByPosition(a, c, |c.deltas|);
    SameSwitch(c);
    assert [] + DeltaSteps(c, |c.deltas|) == DeltaSteps(c, |c.deltas|);
    assert [] + DeltaSteps(Numbered(c), |c.deltas|) == DeltaSteps(Numbered(c), |c.deltas|);
  }

  lemma SameSwitch(c: Chunk)
    ensures Switches(Numbered(c)) <==> Switches(c)
  {
    var d := Numbered(c);
    forall i | 0 <= i < |c.deltas| ensures HasGoogle(d.deltas[i]) <==> HasGoogle(c.deltas[i]) {}
    if Switches(c) && !c.google {
      var i :| 0 <= i < |c.deltas| && HasGoogle(c.deltas[i]);
      assert HasGoogle(d.deltas[i]);
    }
  }

  // ------------------------------------------------- calls found by their ids (Gemini)

  /** The deltas with this id, in order. */
  function EventsOf(steps: seq<Step>, id: string): seq<Event> {
    if steps == [] then []
    else
      var last := steps[|steps| - 1];
      EventsOf(steps[..|steps| - 1], id) + (if last.ToolDelta? && last.event.delta.id == Some(id) then [last.event] else [])
  }

  /** Every delta carries an id and no index. */
  predicate Identified(steps: seq<Step>) {
    forall i :: 0 <= i < |steps| && steps[i].ToolDelta? ==>
      steps[i].event.delta.index.None? && steps[i].event.delta.id.Some? && steps[i].event.delta.id.value != ""
  }

  /** One call for each id that occurs, built of the deltas with that id. */
  ghost predicate ById(calls: seq<PendingCall>, steps: seq<Step>) {
    && (forall i, j :: 0 <= i < j < |calls| ==> calls[i].id != calls[j].id)
    && (forall i :: 0 <= i < |calls| ==> EventsOf(steps, calls[i].id) != [] && calls[i] == Build(EventsOf(steps, calls[i].id), 0))
    && (forall id :: EventsOf(steps, id) != [] ==> HasId(calls, id))
  }

  ghost predicate HasId(calls: seq<PendingCall>, id: string) {
    exists i :: 0 <= i < |calls| && calls[i].id == id
  }

  /** A delta with an id updates the first call with that id, or adds one. */
  lemma {:induction false} IdStep(calls: seq<PendingCall>, e: Event)
    requires e.delta.index.None? && e.delta.id.Some? && e.delta.id.value != ""
    ensures var r, id := ApplyDelta(calls, true, true, e), e.delta.id.value;
            if HasId(calls, id) then
              exists k :: 0 <= k < |calls| == |r| && calls[k].id == id && r[k].id == id
                && r == calls[k := Update(calls[k], e.delta, e.snapshot, true)]
            else r == calls + [Update(GAP, e.delta, e.snapshot, true)] && r[|calls|].id == id
  {
    hide MergeExtra;
    var k := PositionOf(calls, e.delta.id.value);
    var r := ApplyDelta(calls, true, true, e);
    if k < |calls| {
      assert r == calls[k := Update(calls[k], e.delta, e.snapshot, true)] && r[k].id == e.delta.id.value;
    } else {
      assert !HasId(calls, e.delta.id.value);
    }
  }

  lemma {:induction false} EventsOfSnoc(steps: seq<Step>, s: Step, id: string)
    ensures EventsOf(steps + [s], id) == EventsOf(steps, id) + (if s.ToolDelta? && s.event.delta.id == Some(id) then [s.event] else [])
  {
    assert (steps + [s])[..|steps|] == steps;
  }

  lemma {:induction false} ByIdSnoc(calls: seq<PendingCall>, steps: seq<Step>, e: Event)
    requires ById(calls, steps) && e.delta.index.None? && e.delta.id.Some? && e.delta.id.value != ""
    ensures ById(ApplyDelta(calls, true, true, e), steps + [ToolDelta(e)])
  {
    hide Update, MergeExtra, ApplyDelta, Build, EventsOf, HasId;
    var r, all, own := ApplyDelta(calls, true, true, e), steps + [ToolDelta(e)], e.delta.id.value;
    IdStep(calls, e);
    forall id ensures EventsOf(all, id) == EventsOf(steps, id) + (if id == own then [e] else []) { EventsOfSnoc(steps, ToolDelta(e), id); }
    BuildSnoc(EventsOf(steps, own), e, 0);
    if HasId(calls, own) {
      ByIdUpdated(calls, steps, own, e, r, all);
    } else {
      ByIdAdded(calls, steps, e, r, all);
    }
  }

  lemma {:induction false} ByIdUpdated(calls: seq<PendingCall>, steps: seq<Step>, own: string, e: Event, r: seq<PendingCall>, all: seq<Step>)
    requires ById(calls, steps)
    requires exists k :: 0 <= k < |calls| == |r| && calls[k].id == own && r[k].id == own
               && r == calls[k := Update(calls[k], e.delta, e.snapshot, true)]
    requires forall id :: EventsOf(all, id) == EventsOf(steps, id) + (if id == own then [e] else [])
    requires Build(EventsOf(steps, own) + [e], 0) == Update(Build(EventsOf(steps, own), 0), e.delta, e.snapshot, true)
    ensures ById(r, all)
  {
    hide Update, Build, EventsOf;
    var k :| 0 <= k < |calls| == |r| && calls[k].id == own && r[k].id == own
             && r == calls[k := Update(calls[k], e.delta, e.snapshot, true)];
    forall i | 0 <= i < |r| ensures r[i].id == calls[i].id {}
    forall id | EventsOf(all, id) != [] ensures HasId(r, id) {
      if id == own {
        assert r[k].id == id;
      } else {
        assert EventsOf(all, id) == EventsOf(steps, id);
        var i :| 0 <= i < |calls| && calls[i].id == id;
        assert r[i].id == id;
      }
    }
    forall i | 0 <= i < |r| ensures EventsOf(all, r[i].id) != [] && r[i] == Build(EventsOf(all, r[i].id), 0) {
      if i != k {
        assert r[i] == calls[i] && calls[i].id != calls[k].id;
        assert EventsOf(all, r[i].id) == EventsOf(steps, r[i].id);
      } else {
        assert EventsOf(all, r[k].id) == EventsOf(steps, own) + [e];
      }
    }
  }

  lemma {:induction false} ByIdAdded(calls: seq<PendingCall>, steps: seq<Step>, e: Event, r: seq<PendingCall>, all: seq<Step>)
    requires ById(calls, steps) && e.delta.id.Some? && !HasId(calls, e.delta.id.value)
    requires r == calls + [Update(GAP, e.delta, e.snapshot, true)] && r[|calls|].id == e.delta.id.value
    requires forall id :: EventsOf(all, id) == EventsOf(steps, id) + (if id == e.delta.id.value then [e] else [])
    requires Build(EventsOf(steps, e.delta.id.value) + [e], 0) == Update(Build(EventsOf(steps, e.delta.id.value), 0), e.delta, e.snapshot, true)
    ensures ById(r, all)
  {
    hide Update, Build, EventsOf;
    assert EventsOf(steps, e.delta.id.value) == [];
    EmptyBuild(0);
    forall id | EventsOf(all, id) != [] ensures HasId(r, id) {
      if id == e.delta.id.value { assert r[|calls|].id == id; } else {
        assert EventsOf(all, id) == EventsOf(steps, id) + [];
        var i :| 0 <= i < |calls| && calls[i].id == id;
        assert r[i].id == id;
      }
    }
    forall i | 0 <= i < |r| ensures EventsOf(all, r[i].id) != [] && r[i] == Build(EventsOf(all, r[i].id), 0) {
      if i < |calls| {
        assert r[i] == calls[i] && HasId(calls, r[i].id);
        assert EventsOf(all, r[i].id) == EventsOf(steps, r[i].id);
      } else {
        assert [] + [e] == [e] && EventsOf(all, r[i].id) == EventsOf(steps, e.delta.id.value) + [e];
      }
    }
    forall i, j | 0 <= i < j < |r| ensures r[i].id != r[j].id {
      if j == |calls| { assert HasId(calls, calls[i].id); }
    }
  }

  /**
   Under the contract of Gemini, deltas without indices find their calls by their ids:
   there is one call for each id that occurs, and it is what the deltas with that id build.
   */
  lemma {:induction false} IdsFindCalls(steps: seq<Step>)
    requires Identified(steps)
    ensures var a := ApplySteps(Fresh(true, true), steps); a.gemini && a.metadata && ById(a.calls, steps)
    decreases |steps|
  {
    hide ApplyDelta, ById;
    if steps == [] {
      NothingById();
    } else {
      var n := |steps| - 1;
      var a, last := ApplySteps(Fresh(true, true), steps[..n]), steps[n];
      IdsFindCalls(steps[..n]);
      assert steps == steps[..n] + [last];
      if last.ToolDelta? { ByIdSnoc(a.calls, steps[..n], last.event); } else { ByIdSwitch(a.calls, steps[..n]); }
    }
  }

  lemma {:induction false} NothingById()
    ensures ById([], [])
  {
  }

  lemma {:induction false} ByIdSwitch(calls: seq<PendingCall>, steps: seq<Step>)
    requires ById(calls, steps)
    ensures ById(calls, steps + [GeminiContract])
  {
    hide Build, EventsOf;
    forall id ensures EventsOf(steps + [GeminiContract], id) == EventsOf(steps, id) { EventsOfSnoc(steps, GeminiContract, id); }
  }

  // ------------------------------------------------------- snapshots and fragments

  /** The name and the arguments a snapshot carries; the outer fields win. */
  function CarriedName(d: Delta): Option<string> {
    if d.name.Some? then d.name else NestedName(d)
  }

  function CarriedArguments(d: Delta): Option<string> {
    if d.arguments.Some? then d.arguments else if d.nested.Some? then d.nested.value.arguments else None
  }

  /**
   A complete snapshot decides its call alone, whatever fragments and contract
   switches came before, and wherever its delta is applied.
   */
  lemma {:induction false} SnapshotOverrides(steps: seq<Step>, gemini: bool, metadata: bool, e: Event)
    requires e.snapshot && e.delta.id.Some? && CarriedName(e.delta).Some? && CarriedArguments(e.delta).Some?
    ensures var a, b := ApplySteps(Fresh(gemini, metadata), steps), ApplySteps(Fresh(gemini, metadata), steps + [ToolDelta(e)]);
            var k := TargetIndex(a.calls, a.gemini, e.delta, e.position);
            var call := At(b.calls, k);
            && call == PendingCall(true, e.delta.id.value, CarriedName(e.delta).value, CarriedArguments(e.delta).value, call.extra)
            && call.extra == AddExtra(At(a.calls, k).extra, e.delta.extra)
            && (forall j :: j != k ==> At(b.calls, j) == At(a.calls, j))
  {
    hide MergeExtra, ApplyDelta;
    var all := steps + [ToolDelta(e)];
    assert all[..|all| - 1] == steps;
    var a := ApplySteps(Fresh(gemini, metadata), steps);
    forall j: nat { ApplyAt(a.calls, a.gemini, a.metadata, e, j); }
  }

  function Fragments(events: seq<Event>): string {
    if events == [] then ""
    else
      var d := events[|events| - 1].delta;
      var own := if d.nested.Some? then d.nested.value.arguments else d.arguments;
      Fragments(events[..|events| - 1]) + (if own.Some? then own.value else "")
  }

  /** Without snapshots the arguments are the fragments joined in order, under either contract. */
  lemma {:induction false} ArgumentsAreJoined(events: seq<Event>, place: nat)
    requires forall i :: 0 <= i < |events| ==> !events[i].snapshot
    ensures Build(events, place).arguments == Fragments(events)
    decreases |events|
  {
    if events != [] { ArgumentsAreJoined(events[..|events| - 1], place); }
  }

  // ----------------------------------------------------------------- the checks

  /** A finished call; `arguments` is the text whose parsed value is dispatched. */
  datatype FinishedCall = FinishedCall(id: InvocationId, name: string, arguments: string, providerCallId: Option<string>)

  function FinishOne(c: PendingCall, key: string -> InvocationId): FinishedCall {
    var native := if Trim(c.id) == "" then None else Some(c.id);
    FinishedCall(key(if native.Some? then native.value else c.name + ":" + c.arguments), c.name, c.arguments, native)
  }

  /** Calls without a name, among them all gaps, are dropped. */
  function FinishedCalls(calls: seq<PendingCall>, key: string -> InvocationId): seq<FinishedCall> {
    if calls == [] then []
    else
      var last := calls[|calls| - 1];
      FinishedCalls(calls[..|calls| - 1], key) + (if Trim(last.name) == "" then [] else [FinishOne(last, key)])
  }

  predicate GoodCall(c: PendingCall, isObject: string -> bool) {
    Trim(c.id) != "" && Trim(c.name) != "" && isObject(c.arguments)
  }

  /** What `validate` is meant to check of the observed calls. */
  ghost predicate ValidCalls(calls: seq<PendingCall>, isObject: string -> bool) {
    && (forall i :: 0 <= i < |calls| && calls[i].observed ==> GoodCall(calls[i], isObject))
    && (forall i, j :: 0 <= i < j < |calls| && calls[i].observed && calls[j].observed ==> calls[i].id != calls[j].id)
  }

  predicate GoodFinished(c: FinishedCall, isObject: string -> bool) {
    Trim(c.name) != "" && isObject(c.arguments) && c.providerCallId.Some? && Trim(c.providerCallId.value) != ""
  }

  /** The tool conditions of `validate_turn`. */
  ghost predicate ValidTurnCalls(calls: seq<FinishedCall>, isObject: string -> bool) {
    && (forall i :: 0 <= i < |calls| ==> GoodFinished(calls[i], isObject))
    && (forall i, j :: 0 <= i < j < |calls| ==> calls[i].providerCallId != calls[j].providerCallId)
  }

  /** Gaps are untouched. */
  ghost predicate GapsAreEmpty(calls: seq<PendingCall>) {
    forall i :: 0 <= i < |calls| && !calls[i].observed ==> calls[i] == GAP
  }

  lemma {:induction false} AssemblyKeepsGaps(steps: seq<Step>, gemini: bool, metadata: bool)
    ensures GapsAreEmpty(ApplySteps(Fresh(gemini, metadata), steps).calls)
    decreases |steps|
  {
    if steps != [] { AssemblyKeepsGaps(steps[..|steps| - 1], gemini, metadata); }
  }

  /** The calls that have a name, in order. */
  function Named(calls: seq<PendingCall>): seq<PendingCall> {
    if calls == [] then [] else (if Blank(calls[0].name) then [] else [calls[0]]) + Named(calls[1..])
  }

  /** A finished call says what its assembled call says; a blank id is no id of the provider's. */
  predicate Finishes(f: FinishedCall, c: PendingCall, key: string -> InvocationId) {
    && f.name == c.name && f.arguments == c.arguments
    && f.providerCallId == (if Blank(c.id) then None else Some(c.id))
    && f.id == key(if Blank(c.id) then c.name + ":" + c.arguments else c.id)
  }

  /** Finishing keeps exactly the named calls, in order, each as it was assembled. */
  lemma {:induction false} FinishedInOrder(calls: seq<PendingCall>, key: string -> InvocationId)
    ensures |FinishedCalls(calls, key)| == |Named(calls)|
    ensures forall i :: 0 <= i < |Named(calls)| ==> Finishes(FinishedCalls(calls, key)[i], Named(calls)[i], key)
    decreases |calls|
  {
    hide Trim, FinishOne, Finishes, Blank;
    if calls != [] {
      var n := |calls| - 1;
      FinishedInOrder(calls[..n], key);
      NamedSnoc(calls[..n], calls[n]);
      assert calls == calls[..n] + [calls[n]];
      BlankIsTrimmedEmpty(calls[n].name);
      FinishOneMeans(calls[n], key);
    }
  }

  lemma FinishOneMeans(c: PendingCall, key: string -> InvocationId)
    ensures Finishes(FinishOne(c, key), c, key)
  {
    hide Trim, Blank;
    BlankIsTrimmedEmpty(c.id);
  }

  lemma {:induction false} NamedSnoc(calls: seq<PendingCall>, c: PendingCall)
    ensures Named(calls + [c]) == Named(calls) + (if Blank(c.name) then [] else [c])
    decreases |calls|
  {
    hide Blank;
    if calls == [] {
      assert (calls + [c])[1..] == [];
    } else {
      assert (calls + [c])[1..] == calls[1..] + [c];
      NamedSnoc(calls[1..], c);
    }
  }

  lemma {:induction false} FinishedComesFrom(calls: seq<PendingCall>, key: string -> InvocationId, f: FinishedCall)
    requires f in FinishedCalls(calls, key)
    ensures exists i :: 0 <= i < |calls| && Trim(calls[i].name) != "" && f == FinishOne(calls[i], key)
    decreases |calls|
  {
    hide Trim, FinishOne;
    var n := |calls| - 1;
    if f in FinishedCalls(calls[..n], key) {
      FinishedComesFrom(calls[..n], key, f);
      var i :| 0 <= i < n && Trim(calls[..n][i].name) != "" && f == FinishOne(calls[..n][i], key);
      assert calls[i] == calls[..n][i];
    } else {
      assert f == FinishOne(calls[n], key);
    }
  }

  lemma {:induction false} FinishedHolds(calls: seq<PendingCall>, key: string -> InvocationId, i: nat)
    requires i < |calls| && Trim(calls[i].name) != ""
    ensures FinishOne(calls[i], key) in FinishedCalls(calls, key)
    decreases |calls|
  {
    hide Trim, FinishOne;
    var n := |calls| - 1;
    if i < n { FinishedHolds(calls[..n], key, i); }
  }

  /**
   `validate` accepts exactly when no observed call is nameless and the finished
   calls meet every tool condition of `validate_turn`.
   */
  lemma {:induction false} ValidateMeansTurnValid(calls: seq<PendingCall>, key: string -> InvocationId, isObject: string -> bool)
    requires GapsAreEmpty(calls)
    ensures ValidCalls(calls, isObject) <==>
              && (forall i :: 0 <= i < |calls| && calls[i].observed ==> Trim(calls[i].name) != "")
              && ValidTurnCalls(FinishedCalls(calls, key), isObject)
    decreases |calls|
  {
    hide Trim;
    NothingTrimmed();
    if calls != [] {
      var n := |calls| - 1;
      var rest, last, done := calls[..n], calls[n], FinishedCalls(calls[..n], key);
      assert calls == rest + [last];
      assert forall i :: 0 <= i < n ==> rest[i] == calls[i];
      ValidateMeansTurnValid(rest, key, isObject);
      if !last.observed {
        assert FinishedCalls(calls, key) == done;
      } else if GoodCall(last, isObject) {
        assert FinishedCalls(calls, key) == done + [FinishOne(last, key)];
        LastIsNew(rest, last, key, isObject);
      } else if Trim(last.name) != "" {
        var all := FinishedCalls(calls, key);
        assert all[|done|] == FinishOne(last, key);
        assert !GoodFinished(all[|done|], isObject);
      }
    }
  }

  lemma NothingTrimmed()
    ensures Trim("") == ""
  {
  }

  /** A new id is new before finishing exactly when it is new afterwards. */
  lemma {:induction false} LastIsNew(rest: seq<PendingCall>, last: PendingCall, key: string -> InvocationId, isObject: string -> bool)
    requires GapsAreEmpty(rest) && GoodCall(last, isObject) && last.observed
    requires ValidCalls(rest, isObject) <==>
              && (forall i :: 0 <= i < |rest| && rest[i].observed ==> Trim(rest[i].name) != "")
              && ValidTurnCalls(FinishedCalls(rest, key), isObject)
    ensures ValidCalls(rest + [last], isObject) <==>
              && (forall i :: 0 <= i < |rest| && rest[i].observed ==> Trim(rest[i].name) != "")
              && ValidTurnCalls(FinishedCalls(rest, key) + [FinishOne(last, key)], isObject)
  {
    hide Trim, FinishedCalls;
    NothingTrimmed();
    var done, f := FinishedCalls(rest, key), FinishOne(last, key);
    var calls, all := rest + [last], FinishedCalls(rest, key) + [FinishOne(last, key)];
    assert calls[|rest|] == last && all[|done|] == f;
    assert forall i :: 0 <= i < |rest| ==> calls[i] == rest[i];
    assert forall i :: 0 <= i < |done| ==> all[i] == done[i];
    if ValidCalls(rest, isObject) {
      if ValidCalls(calls, isObject) {
        forall i | 0 <= i < |done| ensures done[i].providerCallId != f.providerCallId {
          FinishedComesFrom(rest, key, done[i]);
          var j :| 0 <= j < |rest| && Trim(rest[j].name) != "" && done[i] == FinishOne(rest[j], key);
          assert calls[j].observed && calls[j].id != last.id;
        }
      } else {
        var i :| 0 <= i < |rest| && rest[i].observed && rest[i].id == last.id;
        FinishedHolds(rest, key, i);
        var k :| 0 <= k < |done| && done[k] == FinishOne(rest[i], key);
        assert all[k].providerCallId == f.providerCallId;
      }
    }
  }

  /** The consequence both providers rely on: a validated assembly never fails the tool checks of the turn. */
  lemma {:induction false} ValidatedAssembly(steps: seq<Step>, gemini: bool, metadata: bool, key: string -> InvocationId, isObject: string -> bool)
    requires ValidCalls(ApplySteps(Fresh(gemini, metadata), steps).calls, isObject)
    ensures ValidTurnCalls(FinishedCalls(ApplySteps(Fresh(gemini, metadata), steps).calls, key), isObject)
  {
    AssemblyKeepsGaps(steps, gemini, metadata);
    ValidateMeansTurnValid(ApplySteps(Fresh(gemini, metadata), steps).calls, key, isObject);
  }

  /** The edits `apply_chat_delta` makes to one accumulated call, in its order. */
  method MergeInto(p: PendingCall, d: Delta, snapshot: bool, metadata: bool) returns (call: PendingCall)
    ensures call == Update(p, d, snapshot, metadata)
  {
    hide MergeExtra;
    call := p.(observed := true);
    if d.extra.Some? && d.extra.value.Object? {
      call := call.(extra := Some(MergeExtra(if call.extra.Some? then call.extra.value else Object(map[]), d.extra.value)));
    }
    if d.id.Some? {
      call := call.(id := if snapshot || metadata then d.id.value else call.id + d.id.value);
    }
    if d.nested.Some? {
      if d.nested.value.name.Some? {
        var name := d.nested.value.name.value;
        call := call.(name := if snapshot || metadata then name else call.name + name);
      }
      if d.nested.value.arguments.Some? {
        var arguments := d.nested.value.arguments.value;
        call := call.(arguments := if snapshot then arguments else call.arguments + arguments);
      }
    }
    if d.name.Some? {
      if snapshot {
        call := call.(name := d.name.value);
      } else if call.name == "" {
        assert call.name + d.name.value == d.name.value;
        call := call.(name := call.name + d.name.value);
      }
    }
    if d.arguments.Some? {
      if snapshot {
        call := call.(arguments := d.arguments.value);
      } else if d.nested.None? {
        call := call.(arguments := call.arguments + d.arguments.value);
      }
    }
  }

  lemma {:induction false} FirstSteps(a: Assembly, done: seq<Step>, c: Chunk)
    requires |done| <= 1
    ensures ApplySteps(a, done + DeltaSteps(c, 0)) == if done == [] then a else ApplyStep(a, done[0])
  {
    hide ApplyDelta;
    assert done + DeltaSteps(c, 0) == done;
    if done != [] { assert done[..0] == []; }
  }

  lemma {:induction false} NextStep(a: Assembly, done: seq<Step>, c: Chunk, position: nat)
    requires position < |c.deltas|
    ensures ApplySteps(a, done + DeltaSteps(c, position + 1))
         == ApplyStep(ApplySteps(a, done + DeltaSteps(c, position)), ToolDelta(Event(c.deltas[position], position, c.snapshot)))
  {
    hide ApplyDelta;
    var now := done + DeltaSteps(c, position + 1);
    assert now[..|now| - 1] == done + DeltaSteps(c, position);
  }

  // ------------------------------------------------------------------- the class

  class ToolCallAssembler {
    var calls: seq<PendingCall>
    var metadataSnapshots: bool
    var geminiContract: bool

    constructor ()
      ensures calls == [] && !metadataSnapshots && !geminiContract
    {
      calls, metadataSnapshots, geminiContract := [], false, false;
    }

    function Model(): Assembly
      reads this
    {
      Assembly(calls, geminiContract, metadataSnapshots)
    }

    method UseGeminiContract()
      modifies this`metadataSnapshots, this`geminiContract
      ensures Model() == ApplyStep(old(Model()), GeminiContract)
    {
      geminiContract := true;
      metadataSnapshots := true;
    }

    method ApplyChatDelta(d: Delta, position: nat, snapshot: bool)
      modifies this`calls
      ensures calls == ApplyDelta(old(calls), geminiContract, metadataSnapshots, Event(d, position, snapshot))
    {
      hide Update, MergeExtra;
      var k := TargetIndex(calls, geminiContract, d, position);
      ghost var before := calls;
      while |calls| <= k
        invariant |before| <= |calls| && (|calls| <= k + 1 || calls == before)
        invariant calls == before + seq(|calls| - |before|, _ => GAP)
        decreases k + 1 - |calls|
      {
        calls := calls + [GAP];
      }
      assert calls == Padded(before, k + 1);
      var call := MergeInto(calls[k], d, snapshot, metadataSnapshots);
      calls := calls[k := call];
    }

    /** The tool part of a chunk: the contract switch first, then the deltas in order. */
    method ApplyChunk(c: Chunk)
      modifies this
      ensures Model() == ApplySteps(old(Model()), StepsOf(c))
    {
      hide ApplyDelta, HasGoogle, ApplySteps, DeltaSteps;
      ghost var start := Model();
      var switches := c.google;
      for i := 0 to |c.deltas|
        invariant switches <==> c.google || exists j :: 0 <= j < i && HasGoogle(c.deltas[j])
        invariant Model() == start
      {
        switches := switches || HasGoogle(c.deltas[i]);
      }
      ghost var done: seq<Step> := if switches then [GeminiContract] else [];
      if switches { UseGeminiContract(); }
      FirstSteps(start, done, c);
      for position := 0 to |c.deltas|
        invariant Model() == ApplySteps(start, done + DeltaSteps(c, position))
      {
        NextStep(start, done, c, position);
        ApplyChatDelta(c.deltas[position], position, c.snapshot);
      }
    }

    /** The loop over the calls with a set of the ids seen. */
    method Validate(isObject: string -> bool) returns (ok: bool)
      ensures ok <==> ValidCalls(calls, isObject)
    {
      hide Trim;
      var ids: set<string> := {};
      for n := 0 to |calls|
        invariant ValidCalls(calls[..n], isObject)
        invariant forall id :: id in ids <==> exists i :: 0 <= i < n && calls[i].observed && calls[i].id == id
      {
        var call := calls[n];
        if !call.observed {
          continue;
        }
        if Trim(call.id) == "" || Trim(call.name) == "" || call.id in ids || !isObject(call.arguments) {
          return false;
        }
        ids := ids + {call.id};
      }
      assert calls[..|calls|] == calls;
      return true;
    }
  }

  /** The tool part of `validate_turn`. */
  method ValidateTurnTools(calls: seq<FinishedCall>, isObject: string -> bool) returns (ok: bool)
    ensures ok <==> ValidTurnCalls(calls, isObject)
  {
    hide Trim;
    var ids: set<string> := {};
    for n := 0 to |calls|
      invariant forall i :: 0 <= i < n ==> GoodFinished(calls[i], isObject)
      invariant forall i, j :: 0 <= i < j < n ==> calls[i].providerCallId != calls[j].providerCallId
      invariant forall id :: id in ids <==> exists i :: 0 <= i < n && calls[i].providerCallId == Some(id)
    {
      var call := calls[n];
      if Trim(call.name) == "" || !isObject(call.arguments) || call.providerCallId.None? { return false; }
      var id := call.providerCallId.value;
      if Trim(id) == "" || id in ids { return false; }
      ids := ids + {id};
    }
    return true;
  }

  /** A whole stream through the class: what it assembles is the fold the lemmas speak about. */
  method AssembleStream(chunks: seq<Chunk>, gemini: bool, deepseek: bool) returns (calls: seq<PendingCall>)
    ensures calls == ApplySteps(Fresh(gemini, gemini || deepseek), StepsOfAll(chunks)).calls
    ensures GapsAreEmpty(calls)
  {
    hide ApplyStep, StepsOf, GapsAreEmpty;
    var assembler := new ToolCallAssembler();
    if gemini { assembler.UseGeminiContract(); }
    if deepseek { assembler.metadataSnapshots := true; }
    ghost var start := Fresh(gemini, gemini || deepseek);
    assert assembler.Model() == start by { SwitchFresh(); }
    for i := 0 to |chunks|
      invariant fresh(assembler)
      invariant ApplySteps(assembler.Model(), StepsOfAll(chunks[i..])) == ApplySteps(start, StepsOfAll(chunks))
    {
      assert chunks[i..][0] == chunks[i] && chunks[i..][1..] == chunks[i + 1..];
      ApplyStepsAppend(assembler.Model(), StepsOf(chunks[i]), StepsOfAll(chunks[i + 1..]));
      assembler.ApplyChunk(chunks[i]);
    }
    assert chunks[|chunks|..] == [];
    AssemblyKeepsGaps(StepsOfAll(chunks), gemini, gemini || deepseek);
    calls := assembler.calls;
  }

  lemma SwitchFresh()
    ensures ApplyStep(Fresh(false, false), GeminiContract) == Fresh(true, true)
  {
  }
}
