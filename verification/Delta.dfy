/** Reconciling streamed text that arrives as deltas, as growing snapshots, or both. */
module Delta {
  import opened Wrappers
  import opened Tags
  import Kimi

  predicate EndsWith(s: string, t: string) {
    |t| <= |s| && s[|s| - |t|..] == t
  }

  /** `suffix` is the shortest text that makes `current` end with `complete`. */
  ghost predicate IsShortest(current: string, complete: string, suffix: string) {
    && EndsWith(current + suffix, complete)
    && forall t: string :: EndsWith(current + t, complete) ==> |suffix| <= |t|
  }

  /** The end of `current` is the first `n` characters of `complete`. */
  predicate Overlaps(current: string, complete: string, n: nat) {
    n <= |current| && n <= |complete| && current[|current| - n..] == complete[..n]
  }

  /** The largest overlap of at most `n` characters. */
  function LargestOverlap(current: string, complete: string, n: nat): (k: nat)
    ensures k <= n && Overlaps(current, complete, k)
    ensures forall j :: k < j <= n ==> !Overlaps(current, complete, j)
  {
    if n == 0 then 0
    else if Overlaps(current, complete, n) then n
    else LargestOverlap(current, complete, n - 1)
  }

  function NonEmpty(s: string): Option<string> {
    if s == [] then None else Some(s)
  }

  function Delivered(d: Option<string>): string {
    match d case None => [] case Some(s) => s
  }

  function MissingCompleteTextSuffix(current: string, complete: string): Option<string> {
    if complete == [] || current == complete || EndsWith(current, complete) then None
    else if current <= complete then NonEmpty(complete[|current|..])
    else
      var limit := if |current| <= |complete| then |current| else |complete|;
      NonEmpty(complete[LargestOverlap(current, complete, limit)..])
  }

  /** Whatever the branch, the suffix is the shortest one that completes the text. */
  lemma MissingIsShortest(current: string, complete: string)
    ensures IsShortest(current, complete, Delivered(MissingCompleteTextSuffix(current, complete)))
  {
    var suffix := Delivered(MissingCompleteTextSuffix(current, complete));
    if complete == [] || EndsWith(current, complete) {
      assert current + [] == current;
    } else {
      var limit := if |current| <= |complete| then |current| else |complete|;
      var k := if current <= complete then |current| else LargestOverlap(current, complete, limit);
      assert suffix == complete[k..] && Overlaps(current, complete, k);
      OverlapCompletes(current, complete, k);
      forall t: string | EndsWith(current + t, complete) ensures |suffix| <= |t| {
        if |t| <= |complete| { CompletionOverlaps(current, complete, t); }
      }
    }
  }

  lemma OverlapCompletes(current: string, complete: string, k: nat)
    requires Overlaps(current, complete, k)
    ensures EndsWith(current + complete[k..], complete)
  {
    var s := current + complete[k..];
    assert s[|s| - |complete|..] == current[|current| - k..] + complete[k..];
  }

  lemma CompletionOverlaps(current: string, complete: string, t: string)
    requires EndsWith(current + t, complete) && |t| <= |complete|
    ensures Overlaps(current, complete, |complete| - |t|)
  {
    var s := current + t;
    var j := |complete| - |t|;
    assert s[|s| - |complete|..][..j] == current[|current| - j..];
  }

  function StrictCompleteTextSuffix(current: string, complete: string): Result<Option<string>, ()> {
    if complete == [] || current == complete then Ok(None)
    else if current <= complete then Ok(NonEmpty(complete[|current|..]))
    else Err(())
  }

  /** The strict form fails exactly on divergence, and then nothing is appended. */
  lemma StrictMeaning(current: string, complete: string)
    ensures StrictCompleteTextSuffix(current, complete).Err? <==> complete != [] && !(current <= complete)
    ensures StrictCompleteTextSuffix(current, complete).Ok? && complete != [] ==>
              current + Delivered(StrictCompleteTextSuffix(current, complete).value) == complete
  {
    assert current + [] == current;
  }

  function ReconcileTerminalText(current: string, complete: string, sawOutputDone: bool): (r: Result<Option<string>, ()>)
    ensures r.Ok? && complete != [] ==> current + Delivered(r.value) == complete
    ensures r.Ok? && sawOutputDone ==> current == complete && r.value == None
    ensures r.Ok? <==> current == complete || (!sawOutputDone && (complete == [] || current <= complete))
  {
    StrictMeaning(current, complete);
    if sawOutputDone && current != complete then Err(())
    else StrictCompleteTextSuffix(current, complete)
  }

  // ------------------------------------------------------------- the reconciler

  datatype Recon = Recon(emitted: string, cumulative: bool)

  /** One push: the new state and the delta that is delivered. */
  function PushStep(r: Recon, incoming: string, explicitSnapshot: bool, allowDetection: bool): (Recon, Option<string>) {
    var looksCumulative := allowDetection && r.emitted != [] && r.emitted <= incoming;
    if incoming == [] then (r, None)
    else if explicitSnapshot || r.cumulative || looksCumulative then
      var suffix := MissingCompleteTextSuffix(r.emitted, incoming);
      (Recon(r.emitted + Delivered(suffix), true), suffix)
    else (Recon(r.emitted + incoming, r.cumulative), Some(incoming))
  }

  class TextDeltaReconciler {
    var emitted: string
    var cumulativeDetected: bool
    /** Every delta returned so far, in order. */
    ghost var returned: string

    ghost function State(): Recon
      reads this
    {
      Recon(emitted, cumulativeDetected)
    }

    /** The returned deltas always concatenate to what was emitted. */
    ghost predicate Valid()
      reads this
    {
      returned == emitted
    }

    constructor ()
      ensures Valid() && State() == Recon([], false)
    {
      emitted, cumulativeDetected, returned := [], false, [];
    }

    method PushCompatible(incoming: string, explicitSnapshot: bool, allowDetection: bool)
      returns (delta: Option<string>)
      requires Valid()
      modifies this
      ensures Valid() && returned == old(returned) + Delivered(delta)
      ensures (State(), delta) == PushStep(old(State()), incoming, explicitSnapshot, allowDetection)
      ensures cumulativeDetected && incoming != [] ==> EndsWith(emitted, incoming)
    {
      MissingIsShortest(emitted, incoming);
      if incoming == [] {
        return None;
      }
      var looksCumulative := allowDetection && emitted != [] && emitted <= incoming;
      if explicitSnapshot || cumulativeDetected || looksCumulative {
        cumulativeDetected := true;
        delta := MissingCompleteTextSuffix(emitted, incoming);
        if delta.None? {
          assert emitted + [] == emitted;
          return;
        }
        emitted, returned := emitted + delta.value, returned + delta.value;
        return;
      }
      emitted, returned := emitted + incoming, returned + incoming;
      delta := Some(incoming);
    }

    method Complete(complete: string) returns (r: Result<Option<string>, ()>)
      requires Valid()
      modifies this
      ensures Valid()
      ensures r.Err? <==> complete != [] && !(old(emitted) <= complete)
      ensures r.Err? ==> State() == old(State())
      ensures r.Ok? ==> returned == old(returned) + Delivered(r.value)
      ensures r.Ok? && complete != [] ==> emitted == complete
      ensures r.Ok? && complete == [] ==> r.value == None && State() == old(State())
      ensures r.Ok? ==> cumulativeDetected == (old(cumulativeDetected) || r.value.Some?)
    {
      StrictMeaning(emitted, complete);
      r := StrictCompleteTextSuffix(emitted, complete);
      if r.Ok? && r.value.Some? {
        emitted, returned := emitted + r.value.value, returned + r.value.value;
        cumulativeDetected := true;
      }
    }
  }

  datatype Content = Content(text: string, snapshot: bool)

  /** The reconciler after these contents. */
  function Reconciled(r: Recon, contents: seq<Content>, allowDetection: bool): Recon
    decreases |contents|
  {
    if contents == [] then r
    else Reconciled(PushStep(r, contents[0].text, contents[0].snapshot, allowDetection).0, contents[1..], allowDetection)
  }

  /** Each text begins with the one before it. */
  ghost predicate Growing(from: string, contents: seq<Content>)
    decreases |contents|
  {
    contents == [] || (from <= contents[0].text && Growing(contents[0].text, contents[1..]))
  }

  /** A growing chain of texts in the detecting mode emits exactly the last one, marked as snapshots or not. */
  lemma {:induction false} GrowingSnapshots(r: Recon, contents: seq<Content>)
    requires Growing(r.emitted, contents)
    ensures Reconciled(r, contents, true).emitted == if contents == [] then r.emitted else contents[|contents| - 1].text
    decreases |contents|
  {
    hide PushStep;
    if contents != [] {
      var next := PushStep(r, contents[0].text, contents[0].snapshot, true).0;
      GrowthStep(r, contents[0]);
      GrowingSnapshots(next, contents[1..]);
    }
  }

  lemma GrowthStep(r: Recon, c: Content)
    requires r.emitted <= c.text
    ensures PushStep(r, c.text, c.snapshot, true).0.emitted == c.text
  {
    assert r.emitted + c.text[|r.emitted|..] == c.text;
    assert r.emitted + [] == r.emitted;
  }

  /** Without snapshots and detection the texts are fragments and emitted one after the other. */
  lemma {:induction false} PlainFragments(r: Recon, contents: seq<Content>)
    requires !r.cumulative && forall i :: 0 <= i < |contents| ==> !contents[i].snapshot
    ensures Reconciled(r, contents, false) == Recon(r.emitted + AllTexts(contents), false)
    decreases |contents|
  {
    if contents == [] {
      assert r.emitted + [] == r.emitted;
    } else {
      var c := contents[0];
      assert PushStep(r, c.text, c.snapshot, false).0 == Recon(r.emitted + c.text, false);
      PlainFragments(Recon(r.emitted + c.text, false), contents[1..]);
      assert r.emitted + (c.text + AllTexts(contents[1..])) == (r.emitted + c.text) + AllTexts(contents[1..]);
    }
  }

  function AllTexts(contents: seq<Content>): string {
    if contents == [] then [] else contents[0].text + AllTexts(contents[1..])
  }

  // ---------------------------------------------- streamed text and the turn's text

  lemma {:induction false} ConcatSnoc(deltas: seq<string>, d: string)
    ensures Kimi.Concat(deltas + [d]) == Kimi.Concat(deltas) + d
  {
    if deltas == [] {
      assert Kimi.Concat([d]) == d + Kimi.Concat([d][1..]);
    } else {
      assert (deltas + [d])[1..] == deltas[1..] + [d];
      ConcatSnoc(deltas[1..], d);
    }
  }

  /**
   One Kimi turn: content passes through the reconciler, each delta goes to the
   host through the tag filter, and the finished turn's text is the reconciled
   text with its tags applied in one batch.  Both are the visible reading of the
   reconciled text.
   */
  method StreamKimiTurn(contents: seq<Content>, allowCumulative: bool)
    returns (hostText: string, turnText: string)
    ensures GoodMode(Kimi.THINK, Visible)
    ensures var complete := Reconciled(Recon([], false), contents, allowCumulative).emitted;
            hostText == turnText == Whole(Kimi.THINK, Visible, complete).visible
  {
    hide PushStep, MissingCompleteTextSuffix, Whole, GoodMode;
    var text := new TextDeltaReconciler();
    var deltas: seq<string> := [];
    for i := 0 to |contents|
      invariant text.Valid() && fresh(text)
      invariant Kimi.Concat(deltas) == text.returned
      invariant Reconciled(text.State(), contents[i..], allowCumulative) == Reconciled(Recon([], false), contents, allowCumulative)
    {
      assert contents[i..][0] == contents[i] && contents[i..][1..] == contents[i + 1..];
      EmptyPush(text.State(), contents[i].snapshot, allowCumulative);
      if contents[i].text != [] {
        var delta := text.PushCompatible(contents[i].text, contents[i].snapshot, allowCumulative);
        if delta.Some? {
          ConcatSnoc(deltas, delta.value);
          deltas := deltas + [delta.value];
        }
      }
    }
    assert contents[|contents|..] == [];
    var reasoning, ignored;
    hostText, reasoning := Kimi.StreamToHost(deltas);
    turnText, ignored := Kimi.ApplyThinkTagsToTurn(text.emitted, []);
  }

  lemma EmptyPush(r: Recon, snapshot: bool, allowDetection: bool)
    ensures PushStep(r, [], snapshot, allowDetection) == (r, None)
  {
  }
}
