/** The think-tag filter between a Kimi stream and the host. */
module Kimi {
  import opened Wrappers
  import opened Texts
  import opened Tags

  const THINK: seq<TagPair> :=
    [TagPair("<think>", "</think>"), TagPair("<thinking>", "</thinking>")]

  lemma ThinkTagsAreGood()
    ensures GoodPairs(THINK) && GoodMode(THINK, Visible)
    ensures TagsOf(THINK, Visible) == ["<think>", "<thinking>"]
    ensures TagShape("</think>") && TagShape("</thinking>")
  {
    assert "<thinking>"[6] == 'i' && "<think>"[6] == '>';
    assert TagsOf(THINK, Visible) == ["<think>", "<thinking>"];
  }

  datatype Part = Part(reasoning: bool, text: string)

  /** The two texts a list of parts carries. */
  function Project(parts: seq<Part>): Out {
    if parts == [] then NOTHING
    else Plus(Project(parts[..|parts| - 1]), Emit(parts[|parts| - 1].reasoning, parts[|parts| - 1].text))
  }

  /** Appends a part for a non-empty prefix, as the source's `take_prefix` does. */
  function TakePrefix(output: seq<Part>, reasoning: bool, prefix: string): (parts: seq<Part>)
    ensures Project(parts) == Plus(Project(output), Emit(reasoning, prefix))
  {
    if prefix == [] then output
    else
      assert (output + [Part(reasoning, prefix)])[..|output|] == output;
      output + [Part(reasoning, prefix)]
  }

  /** Where the lower-cased text first contains `tag`. */
  function Find(s: string, tag: string): (r: Option<nat>)
    ensures r.Some? ==> Occurs(s, r.value, tag) && forall j :: 0 <= j < r.value ==> !Occurs(s, j, tag)
    ensures r.None? ==> forall j :: 0 <= j <= |s| ==> !Occurs(s, j, tag)
  {
    match FirstHit(s, 0, [tag])
    case None =>
      assert forall j :: 0 <= j <= |s| ==> !Occurs(s, j, [tag][0]);
      None
    case Some(h) =>
      assert forall j :: 0 <= j < h.index ==> !Occurs(s, j, [tag][0]);
      Some(h.index)
  }

  lemma {:induction false} FindIsFirstHit(s: string, tag: string)
    requires TagShape(tag)
    ensures FirstHit(s, 0, [tag]) == match Find(s, tag) case None => None case Some(i) => Some(Hit(i, 0))
  {
  }

  /** The earlier of the two opening tags is the first hit. */
  lemma {:induction false} EarlierOpen(s: string)
    ensures var a, b := Find(s, "<think>"), Find(s, "<thinking>");
            FirstHit(s, 0, ["<think>", "<thinking>"]) ==
              if a.None? && b.None? then None
              else if b.None? || (a.Some? && a.value < b.value) then Some(Hit(a.value, 0))
              else Some(Hit(b.value, 1))
  {
    ThinkTagsAreGood();
    var tags := ["<think>", "<thinking>"];
    var a, b := Find(s, "<think>"), Find(s, "<thinking>");
    NotBoth(s);
    if a.Some? && (b.None? || a.value < b.value) {
      assert IsFirstHit(s, 0, tags, Hit(a.value, 0));
      FirstHitFound(s, tags, Hit(a.value, 0));
    } else if b.Some? {
      assert IsFirstHit(s, 0, tags, Hit(b.value, 1));
      FirstHitFound(s, tags, Hit(b.value, 1));
    }
  }

  lemma NotBoth(s: string)
    ensures forall i :: 0 <= i ==> !(Occurs(s, i, "<think>") && Occurs(s, i, "<thinking>"))
  {
    assert "<think>"[6] != "<thinking>"[6];
    assert forall i :: 0 <= i && Occurs(s, i, "<think>") ==> LowerChar(s[i + 6]) == "<think>"[6];
  }

  class ThinkTagFilter {
    var reasoning: bool
    var closeTag: string
    var pending: string
    /** All the text pushed so far. */
    ghost var received: string

    function CurrentMode(): Mode
      reads this
    {
      if reasoning then Tags.Reasoning(closeTag) else Visible
    }

    ghost predicate Valid()
      reads this
    {
      && GoodMode(THINK, CurrentMode()) && GoodMode(THINK, Visible)
      && var d := Drain(THINK, Visible, received);
      d.mode == CurrentMode() && d.held == pending
    }

    /** What must have been delivered for the text received. */
    ghost function Owed(): Out
      reads this
      requires Valid()
    {
      Drain(THINK, Visible, received).out
    }

    constructor ()
      ensures Valid() && received == [] && Owed() == NOTHING
    {
      reasoning, closeTag, pending, received := false, "</think>", [], [];
      ThinkTagsAreGood();
    }

    method PushDelta(delta: string) returns (output: seq<Part>)
      requires Valid()
      modifies this
      ensures Valid() && received == old(received) + delta
      ensures Plus(old(Owed()), Project(output)) == Owed()
    {
      hide Drain, Pieces, GoodMode, GoodPairs, Plus, Emit, FirstHit, Find, SuffixTagPrefixLen, TagsOf, Occurs, Unambiguous,
        Project, TakePrefix, TagShape;
      DrainSplit(THINK, Visible, received, delta);
      ghost var whole := Drain(THINK, CurrentMode(), pending + delta);
      received, pending := received + delta, pending + delta;
      output := [];
      NothingYet(whole.out);
      while true
        invariant GoodMode(THINK, CurrentMode()) && received == old(received) + delta
        invariant Plus(Project(output), Drain(THINK, CurrentMode(), pending).out) == whole.out
        invariant Drain(THINK, CurrentMode(), pending).mode == whole.mode
        invariant Drain(THINK, CurrentMode(), pending).held == whole.held
        decreases |pending|
      {
        ghost var m, before, sofar := CurrentMode(), pending, output;
        Unfold(THINK, m, pending);
        if reasoning {
          ReasoningTags(closeTag);
          FindIsFirstHit(pending, closeTag);
          var found := Find(pending, closeTag);
          if found.Some? {
            output := TakePrefix(output, true, pending[..found.value]);
            pending := pending[found.value + |closeTag|..];
            reasoning := false;
            Settle(sofar, output, m, before[..found.value], Drain(THINK, CurrentMode(), pending).out);
            continue;
          }
          var keep := SuffixTagPrefixLen(pending, [closeTag]);
          var emitLen := |pending| - keep;
          output := TakePrefix(output, true, pending[..emitLen]);
          pending := pending[emitLen..];
          break;
        }
        EarlierOpen(pending);
        ThinkTagsAreGood();
        var think, thinking := Find(pending, "<think>"), Find(pending, "<thinking>");
        if think.Some? || thinking.Some? {
          var useThink := thinking.None? || (think.Some? && think.value < thinking.value);
          var index := if useThink then think.value else thinking.value;
          var tag := if useThink then "<think>" else "<thinking>";
          output := TakePrefix(output, false, pending[..index]);
          pending := pending[index + |tag|..];
          closeTag := if tag == "<thinking>" then "</thinking>" else "</think>";
          reasoning := true;
          Settle(sofar, output, m, before[..index], Drain(THINK, CurrentMode(), pending).out);
          continue;
        }
        var keep := SuffixTagPrefixLen(pending, ["<think>", "<thinking>"]);
        var emitLen := |pending| - keep;
        output := TakePrefix(output, false, pending[..emitLen]);
        pending := pending[emitLen..];
        break;
      }
    }

    method Finish() returns (output: seq<Part>)
      requires Valid()
      modifies this`pending
      ensures pending == []
      ensures Plus(old(Owed()), Project(output)) == Whole(THINK, Visible, received)
    {
      hide Drain, GoodMode, Plus, Emit, Whole, Project;
      DrainThenFlush(THINK, Visible, received);
      OnePart(reasoning, pending);
      output := if pending == [] then [] else [Part(reasoning, pending)];
      pending := [];
    }
  }

  lemma NothingYet(o: Out)
    ensures Project([]) == NOTHING && Plus(NOTHING, o) == o
  {
  }

  lemma ReasoningTags(close: string)
    ensures TagsOf(THINK, Tags.Reasoning(close)) == [close]
    ensures GoodMode(THINK, Tags.Reasoning(close)) ==> TagShape(close)
  {
  }

  lemma {:induction false} Settle(sofar: seq<Part>, output: seq<Part>, m: Mode, prefix: string, rest: Out)
    requires Project(output) == Plus(Project(sofar), Emit(m.Reasoning?, prefix))
    ensures Plus(Project(sofar), Plus(Emit(m.Reasoning?, prefix), rest)) == Plus(Project(output), rest)
  {
    PlusAssoc(Project(sofar), Emit(m.Reasoning?, prefix), rest);
  }

  lemma OnePart(reasoning: bool, text: string)
    ensures Project(if text == [] then [] else [Part(reasoning, text)]) == Emit(reasoning, text)
  {
    assert [Part(reasoning, text)][..0] == [];
  }

  lemma {:induction false} ProjectAppend(a: seq<Part>, b: seq<Part>)
    ensures Project(a + b) == Plus(Project(a), Project(b))
    decreases |b|
  {
    hide Plus, Emit;
    if b == [] {
      assert a + b == a;
      PlusNothing(Project(a));
    } else {
      var n := |b| - 1;
      assert (a + b)[..|a + b| - 1] == a + b[..n];
      ProjectAppend(a, b[..n]);
      PlusAssoc(Project(a), Project(b[..n]), Emit(b[n].reasoning, b[n].text));
    }
  }

  lemma PlusNothing(o: Out)
    ensures Plus(o, NOTHING) == o && Plus(NOTHING, o) == o
  {
  }

  function Concat(deltas: seq<string>): string {
    if deltas == [] then [] else deltas[0] + Concat(deltas[1..])
  }

  /** What the host receives when the deltas go through the sink one by one and it is flushed. */
  method StreamToHost(deltas: seq<string>) returns (visible: string, reasoning: string)
    ensures GoodMode(THINK, Visible)
    ensures Out(visible, reasoning) == Whole(THINK, Visible, Concat(deltas))
  {
    hide Drain, Whole, Project, GoodMode, GoodPairs, TagShape, TagsOf, Plus;
    ThinkTagsAreGood();
    var filter := new ThinkTagFilter();
    var host: seq<Part> := [];
    NothingYet(NOTHING);
    for i := 0 to |deltas|
      invariant filter.Valid() && fresh(filter)
      invariant filter.received + Concat(deltas[i..]) == Concat(deltas)
      invariant Project(host) == filter.Owed()
    {
      assert deltas[i..][1..] == deltas[i + 1..];
      var parts := filter.PushDelta(deltas[i]);
      ProjectAppend(host, parts);
      host := host + parts;
    }
    assert deltas[|deltas|..] == [] && filter.received == Concat(deltas);
    var parts := filter.Finish();
    ProjectAppend(host, parts);
    host := host + parts;
    visible, reasoning := Project(host).visible, Project(host).reasoning;
  }

  /** The batch form applied to a finished turn: its text and its reasoning. */
  method ApplyThinkTagsToTurn(text: string, reasoning: string) returns (text': string, reasoning': string)
    ensures GoodMode(THINK, Visible)
    ensures text' == Whole(THINK, Visible, text).visible
    ensures reasoning' == reasoning + Whole(THINK, Visible, text).reasoning
  {
    hide Drain, Whole, Project;
    ThinkTagsAreGood();
    var filter := new ThinkTagFilter();
    var parts := filter.PushDelta(text);
    assert [] + text == text;
    NothingYet(Project(parts));
    var tail := filter.Finish();
    ProjectAppend(parts, tail);
    parts := parts + tail;
    text', reasoning' := Project(parts).visible, reasoning + Project(parts).reasoning;
  }
}
