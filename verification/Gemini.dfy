/** The thought-tag splitter of Gemini streams. */
module Gemini {
  import opened Tags
  import Kimi

  const THOUGHT: seq<TagPair> := [TagPair("<thought>", "</thought>")]
  const CLOSE: string := "</thought>"

  lemma ThoughtTagsAreGood()
    ensures GoodPairs(THOUGHT) && GoodMode(THOUGHT, Visible) && GoodMode(THOUGHT, Tags.Reasoning(CLOSE))
    ensures TagsOf(THOUGHT, Visible) == ["<thought>"]
    ensures TagsOf(THOUGHT, Tags.Reasoning(CLOSE)) == [CLOSE]
  {
    assert TagsOf(THOUGHT, Visible) == ["<thought>"];
  }

  function ModeOf(thought: bool): Mode {
    if thought then Tags.Reasoning(CLOSE) else Visible
  }

  function TagFor(thought: bool): string {
    if thought then CLOSE else "<thought>"
  }

  /** One turn of the loop in `push`: to the other side of a tag, or up to what is held back. */
  lemma {:induction false} ThoughtStep(thought: bool, s: string)
    requires GoodMode(THOUGHT, ModeOf(true)) && GoodMode(THOUGHT, ModeOf(false))
    ensures FirstHit(s, 0, TagsOf(THOUGHT, ModeOf(thought))).Some? <==> Kimi.Find(s, TagFor(thought)).Some?
    ensures Kimi.Find(s, TagFor(thought)).Some? ==>
              var i := Kimi.Find(s, TagFor(thought)).value;
              && i + |TagFor(thought)| <= |s|
              && var rest := Drain(THOUGHT, ModeOf(!thought), s[i + |TagFor(thought)|..]);
                 Drain(THOUGHT, ModeOf(thought), s) == rest.(out := Plus(Emit(thought, s[..i]), rest.out))
    ensures Kimi.Find(s, TagFor(thought)).None? ==>
              var end := |s| - SuffixTagPrefixLen(s, [TagFor(thought)]);
              Drain(THOUGHT, ModeOf(thought), s) == Drained(Emit(thought, s[..end]), ModeOf(thought), s[end..])
  {
    hide Drain, Pieces, GoodMode, GoodPairs, Plus, Emit, FirstHit, SuffixTagPrefixLen, TagsOf, Unambiguous, Kimi.Find;
    ThoughtTagsAreGood();
    ThoughtShapes();
    Kimi.FindIsFirstHit(s, TagFor(thought));
    Unfold(THOUGHT, ModeOf(thought), s);
  }

  lemma ThoughtShapes()
    ensures TagShape("<thought>") && TagShape(CLOSE)
  {
  }

  class ThoughtStream {
    var pending: string
    var thought: bool
    /** All the text pushed so far. */
    ghost var received: string

    ghost predicate Valid()
      reads this
    {
      && GoodMode(THOUGHT, Visible) && GoodMode(THOUGHT, Tags.Reasoning(CLOSE))
      && var d := Drain(THOUGHT, Visible, received);
      d.mode == ModeOf(thought) && d.held == pending
    }

    /** What must have been delivered for the text received, marks apart. */
    ghost function Owed(): Out
      reads this
      requires Valid()
    {
      Drain(THOUGHT, Visible, received).out
    }

    constructor ()
      ensures Valid() && received == [] && Owed() == NOTHING
    {
      pending, thought, received := [], false, [];
      ThoughtTagsAreGood();
    }

    /**
     `marked` says that the provider flagged the chunk as thought.  The flag moves
     the text of a tag-free chunk to the reasoning side and changes nothing else.
     */
    method Push(text: string, marked: bool) returns (visible: string, reasoning: string)
      requires Valid()
      modifies this
      ensures Valid() && received == old(received) + text
      ensures var untagged := FirstHit(old(pending) + text, 0, TagsOf(THOUGHT, ModeOf(old(thought)))).None?;
              var now := Out(visible, reasoning);
              if marked && !old(thought) && untagged
              then visible == [] && Plus(old(Owed()), Emit(false, reasoning)) == Owed()
              else Plus(old(Owed()), now) == Owed()
    {
      hide Drain, GoodMode, GoodPairs, Plus, Emit, FirstHit, TagsOf;
      ThoughtTagsAreGood();
      DrainSplit(THOUGHT, Visible, received, text);
      received := received + text;
      visible, reasoning, pending, thought := DrainPending(pending + text, thought, marked);
    }

    method Finish() returns (visible: string, reasoning: string)
      requires Valid()
      modifies this`pending
      ensures pending == []
      ensures Plus(old(Owed()), Out(visible, reasoning)) == Whole(THOUGHT, Visible, received)
    {
      DrainThenFlush(THOUGHT, Visible, received);
      if thought { visible, reasoning := [], pending; } else { visible, reasoning := pending, []; }
      pending := [];
    }
  }

  /** The loop of `push` over the pending text: what it delivers, what stays pending and on which side it ends. */
  method DrainPending(text: string, started: bool, marked: bool)
    returns (visible: string, reasoning: string, pending: string, thought: bool)
    requires GoodMode(THOUGHT, ModeOf(true)) && GoodMode(THOUGHT, ModeOf(false))
    ensures var d := Drain(THOUGHT, ModeOf(started), text);
            && d.held == pending && d.mode == ModeOf(thought)
            && if marked && !started && FirstHit(text, 0, TagsOf(THOUGHT, ModeOf(started))).None?
               then visible == [] && d.out == Emit(false, reasoning)
               else d.out == Out(visible, reasoning)
  {
    hide Drain, GoodMode, GoodPairs, Plus, Emit, FirstHit, Kimi.Find, SuffixTagPrefixLen, TagsOf, Occurs;
    ghost var whole := Drain(THOUGHT, ModeOf(started), text);
    visible, reasoning, pending, thought := [], [], text, started;
    var markedThought := marked;
    Kimi.NothingYet(whole.out);
    ghost var first := true;
    while true
      invariant Plus(Out(visible, reasoning), Drain(THOUGHT, ModeOf(thought), pending).out) == whole.out
      invariant Drain(THOUGHT, ModeOf(thought), pending).mode == whole.mode
      invariant Drain(THOUGHT, ModeOf(thought), pending).held == whole.held
      invariant first ==> pending == text && thought == started && visible == [] && reasoning == [] && markedThought == marked
      invariant !first ==> !markedThought && FirstHit(text, 0, TagsOf(THOUGHT, ModeOf(started))).Some?
      decreases |pending|
    {
      ghost var m, sofar := ModeOf(thought), Out(visible, reasoning);
      var tag := TagFor(thought);
      ThoughtStep(thought, pending);
      var found := Kimi.Find(pending, tag);
      if found.Some? {
        var prefix := pending[..found.value];
        if thought { reasoning := reasoning + prefix; } else { visible := visible + prefix; }
        pending := pending[found.value + |tag|..];
        Deliver(sofar, Out(visible, reasoning), m, prefix, Drain(THOUGHT, ModeOf(!thought), pending).out);
        thought, markedThought, first := !thought, false, false;
        continue;
      }
      var end := |pending| - SuffixTagPrefixLen(pending, [tag]);
      var prefix := pending[..end];
      pending := pending[end..];
      if thought || markedThought { reasoning := reasoning + prefix; } else { visible := visible + prefix; }
      if markedThought && !thought {
        Kimi.NothingYet(Emit(false, prefix));
        assert reasoning == prefix;
      } else {
        Deliver(sofar, Out(visible, reasoning), m, prefix, NOTHING);
      }
      break;
    }
  }

  lemma Deliver(sofar: Out, now: Out, m: Mode, prefix: string, rest: Out)
    requires now == if m.Reasoning? then Out(sofar.visible, sofar.reasoning + prefix)
                    else Out(sofar.visible + prefix, sofar.reasoning)
    ensures Plus(sofar, Plus(Emit(m.Reasoning?, prefix), rest)) == Plus(now, rest)
    ensures now == Plus(sofar, Emit(m.Reasoning?, prefix))
  {
    PlusAssoc(sofar, Emit(m.Reasoning?, prefix), rest);
  }

  /** Splitting a stream without thought marks: the chunks do not matter. */
  method SplitStream(chunks: seq<string>) returns (visible: string, reasoning: string)
    ensures GoodMode(THOUGHT, Visible)
    ensures Out(visible, reasoning) == Whole(THOUGHT, Visible, Kimi.Concat(chunks))
  {
    hide Drain, Whole, FirstHit, TagsOf;
    ThoughtTagsAreGood();
    var stream := new ThoughtStream();
    visible, reasoning := [], [];
    for i := 0 to |chunks|
      invariant stream.Valid() && fresh(stream)
      invariant stream.received + Kimi.Concat(chunks[i..]) == Kimi.Concat(chunks)
      invariant Out(visible, reasoning) == stream.Owed()
    {
      assert chunks[i..][1..] == chunks[i + 1..];
      var v, r := stream.Push(chunks[i], false);
      visible, reasoning := visible + v, reasoning + r;
    }
    assert chunks[|chunks|..] == [] && stream.received == Kimi.Concat(chunks);
    var v, r := stream.Finish();
    visible, reasoning := visible + v, reasoning + r;
  }
}
