/**
 Reasoning tags inside streamed text.

 Two providers mark reasoning with tags in the visible text.  The reference
 reading of a text is a list of pieces: plain text and complete tags.  The
 streaming filters see the text in chunks and hold back a suffix that could still
 become a tag.
 */
module Tags {
  import opened Wrappers
  import opened Texts

  /** An opening tag and the tag that closes it, both in lower case. */
  datatype TagPair = TagPair(open: string, close: string)

  datatype Mode = Visible | Reasoning(close: string)

  /** `tag` occurs in `s` at `i`, ignoring ASCII case. */
  predicate Occurs(s: string, i: nat, tag: string) {
    i + |tag| <= |s| && forall k :: 0 <= k < |tag| ==> LowerChar(s[i + k]) == tag[k]
  }

  /** The tags that end a mode. */
  function TagsOf(pairs: seq<TagPair>, m: Mode): (tags: seq<string>)
    ensures m.Visible? ==> |tags| == |pairs|
    ensures m.Reasoning? ==> tags == [m.close]
  {
    match m
    case Visible => seq(|pairs|, i requires 0 <= i < |pairs| => pairs[i].open)
    case Reasoning(close) => [close]
  }

  function Enter(pairs: seq<TagPair>, m: Mode, k: nat): Mode
    requires k < |TagsOf(pairs, m)|
  {
    if m.Visible? then Reasoning(pairs[k].close) else Visible
  }

  // ---------------------------------------------- what the tags must look like

  predicate TagShape(tag: string) {
    tag != [] && tag[0] == '<' && forall k :: 1 <= k < |tag| ==> tag[k] != '<'
  }

  /** Tags start with their only '<' and none begins another. */
  ghost predicate Unambiguous(tags: seq<string>) {
    && (forall i :: 0 <= i < |tags| ==> TagShape(tags[i]))
    && forall i, j :: 0 <= i < |tags| && 0 <= j < |tags| && tags[i] <= tags[j] ==> i == j
  }

  ghost predicate GoodPairs(pairs: seq<TagPair>) {
    && Unambiguous(TagsOf(pairs, Visible))
    && forall i :: 0 <= i < |pairs| ==> TagShape(pairs[i].close)
  }

  ghost predicate GoodMode(pairs: seq<TagPair>, m: Mode) {
    GoodPairs(pairs) && (m.Reasoning? ==> TagShape(m.close))
  }

  lemma GoodTags(pairs: seq<TagPair>, m: Mode)
    requires GoodMode(pairs, m)
    ensures Unambiguous(TagsOf(pairs, m))
    ensures forall k :: 0 <= k < |TagsOf(pairs, m)| ==> |TagsOf(pairs, m)[k]| > 0
    ensures forall k :: 0 <= k < |TagsOf(pairs, m)| ==> GoodMode(pairs, Enter(pairs, m, k))
  {
  }

  // ------------------------------------------------------------ finding a tag

  datatype Hit = Hit(index: nat, tag: nat)

  /** The first of `tags` that occurs at `i`, or `|tags|`. */
  function TagAt(s: string, i: nat, tags: seq<string>): (k: nat)
    ensures k <= |tags|
    ensures k < |tags| ==> Occurs(s, i, tags[k])
    ensures forall j :: 0 <= j < k ==> !Occurs(s, i, tags[j])
  {
    if tags == [] then 0
    else if Occurs(s, i, tags[0]) then 0
    else 1 + TagAt(s, i, tags[1..])
  }

  /** The leftmost occurrence of any of `tags` at or after `i`. */
  function FirstHit(s: string, i: nat, tags: seq<string>): (h: Option<Hit>)
    requires i <= |s|
    ensures h.Some? ==> h.value.tag < |tags| && i <= h.value.index <= h.value.index + |tags[h.value.tag]| <= |s|
    ensures h.Some? ==> IsFirstHit(s, i, tags, h.value)
    ensures h.None? ==> forall j, k :: i <= j <= |s| && 0 <= k < |tags| ==> !Occurs(s, j, tags[k])
    decreases |s| - i
  {
    var k := TagAt(s, i, tags);
    if k < |tags| then Some(Hit(i, k))
    else if i == |s| then None
    else FirstHit(s, i + 1, tags)
  }

  predicate IsFirstHit(s: string, i: nat, tags: seq<string>, h: Hit) {
    && i <= h.index && h.tag < |tags| && Occurs(s, h.index, tags[h.tag])
    && (forall j, k :: i <= j < h.index && 0 <= k < |tags| ==> !Occurs(s, j, tags[k]))
  }

  lemma FirstHitUnique(s: string, tags: seq<string>, g: Hit, h: Hit)
    requires Unambiguous(tags) && IsFirstHit(s, 0, tags, g) && IsFirstHit(s, 0, tags, h)
    ensures g == h
  {
    assert g.index == h.index;
    var t, u := tags[g.tag], tags[h.tag];
    if |t| <= |u| { assert t <= u; }
    if |u| <= |t| { assert u <= t; }
  }

  lemma {:induction false} FirstHitFound(s: string, tags: seq<string>, h: Hit)
    requires Unambiguous(tags) && IsFirstHit(s, 0, tags, h)
    ensures FirstHit(s, 0, tags) == Some(h)
  {
    FirstHitUnique(s, tags, h, FirstHit(s, 0, tags).value);
  }

  // ---------------------------------------------------------- the whole reading

  datatype Piece =
    | Text(reasoning: bool, text: string)
    | Tag(raw: string)

  /** A text read at once: pieces of text and the complete tags between them. */
  function Pieces(pairs: seq<TagPair>, m: Mode, s: string): seq<Piece>
    requires GoodMode(pairs, m)
    decreases |s|
  {
    GoodTags(pairs, m);
    var tags := TagsOf(pairs, m);
    match FirstHit(s, 0, tags)
    case None => [Text(m.Reasoning?, s)]
    case Some(h) =>
      var after := h.index + |tags[h.tag]|;
      [Text(m.Reasoning?, s[..h.index]), Tag(s[h.index..after])]
      + Pieces(pairs, Enter(pairs, m, h.tag), s[after..])
  }

  function Raw(p: Piece): string {
    match p case Text(_, t) => t case Tag(r) => r
  }

  function JoinPieces(ps: seq<Piece>): string {
    if ps == [] then [] else Raw(ps[0]) + JoinPieces(ps[1..])
  }

  datatype Out = Out(visible: string, reasoning: string)

  const NOTHING := Out([], [])

  function Emit(reasoning: bool, s: string): Out {
    if reasoning then Out([], s) else Out(s, [])
  }

  function Plus(a: Out, b: Out): Out {
    Out(a.visible + b.visible, a.reasoning + b.reasoning)
  }

  /** The text of the pieces, tags dropped, sorted into the two channels. */
  function Sort(ps: seq<Piece>): Out {
    if ps == [] then NOTHING
    else Plus(match ps[0] case Text(r, t) => Emit(r, t) case Tag(_) => NOTHING, Sort(ps[1..]))
  }

  lemma SortOne(r: bool, t: string)
    ensures Sort([Text(r, t)]) == Emit(r, t)
    ensures JoinPieces([Text(r, t)]) == t
  {
    assert [Text(r, t)][1..] == [];
  }

  lemma {:induction false} SortTwo(r: bool, t: string, raw: string, rest: seq<Piece>)
    ensures Sort([Text(r, t), Tag(raw)] + rest) == Plus(Emit(r, t), Sort(rest))
    ensures JoinPieces([Text(r, t), Tag(raw)] + rest) == t + (raw + JoinPieces(rest))
  {
    var ps := [Text(r, t), Tag(raw)] + rest;
    assert ps[1..] == [Tag(raw)] + rest && ps[1..][1..] == rest;
    assert Plus(NOTHING, Sort(rest)) == Sort(rest);
  }

  lemma PlusAssoc(a: Out, b: Out, c: Out)
    ensures Plus(a, Plus(b, c)) == Plus(Plus(a, b), c)
  {
  }

  lemma EmitJoin(r: bool, a: string, b: string)
    ensures Plus(Emit(r, a), Emit(r, b)) == Emit(r, a + b)
  {
  }

  lemma Rejoin(s: string, i: nat, j: nat)
    requires i <= j <= |s|
    ensures s[..i] + s[i..] == s && s[..i] + (s[i..j] + s[j..]) == s && s[..i] + s[i..j] == s[..j]
  {
  }

  function Whole(pairs: seq<TagPair>, m: Mode, s: string): Out
    requires GoodMode(pairs, m)
  {
    Sort(Pieces(pairs, m, s))
  }

  /**
   `ps` is a reading from mode `m`: text pieces hold no tag of their mode, each
   tag piece is a tag of the mode before it and leads to the mode after it.
   */
  ghost predicate IsReading(pairs: seq<TagPair>, m: Mode, ps: seq<Piece>)
    decreases |ps|
  {
    var tags := TagsOf(pairs, m);
    && ps != [] && ps[0].Text? && ps[0].reasoning == m.Reasoning?
    && if |ps| == 1 then FirstHit(ps[0].text, 0, tags).None?
       else
         && ps[1].Tag?
         && exists k :: EntersBy(tags, ps[0].text, ps[1].raw, k) && IsReading(pairs, Enter(pairs, m, k), ps[2..])
  }

  /** The first tag after `before` is tag `k`, written `raw`. */
  ghost predicate EntersBy(tags: seq<string>, before: string, raw: string, k: nat) {
    k < |tags| && |raw| == |tags[k]| && IsFirstHit(before + raw, 0, tags, Hit(|before|, k))
  }

  /** The pieces lose nothing and are a reading: only complete tags are dropped. */
  lemma {:induction false} PiecesAreReading(pairs: seq<TagPair>, m: Mode, s: string)
    requires GoodMode(pairs, m)
    ensures JoinPieces(Pieces(pairs, m, s)) == s
    ensures IsReading(pairs, m, Pieces(pairs, m, s))
    decreases |s|
  {
    hide FirstHit, TagAt, TagsOf, GoodMode, JoinPieces, Occurs, Pieces, IsReading, EntersBy, IsFirstHit,
      Drain, Sort, Plus, Emit, Enter, SuffixTagPrefixLen, Unambiguous;
    GoodTags(pairs, m);
    Unfold(pairs, m, s);
    var tags := TagsOf(pairs, m);
    match FirstHit(s, 0, tags)
    case None =>
      SortOne(m.Reasoning?, s);
      ReadingOne(pairs, m, s);
    case Some(h) =>
      var after := h.index + |tags[h.tag]|;
      var before, raw := s[..h.index], s[h.index..after];
      var rest := Pieces(pairs, Enter(pairs, m, h.tag), s[after..]);
      PiecesAreReading(pairs, Enter(pairs, m, h.tag), s[after..]);
      SortTwo(m.Reasoning?, before, raw, rest);
      Rejoin(s, h.index, after);
      HitEnters(s, tags, h);
      ReadingStep(pairs, m, before, raw, h.tag, rest);
  }

  lemma {:induction false} ReadingStep(pairs: seq<TagPair>, m: Mode, before: string, raw: string, k: nat, rest: seq<Piece>)
    requires EntersBy(TagsOf(pairs, m), before, raw, k) && IsReading(pairs, Enter(pairs, m, k), rest)
    ensures IsReading(pairs, m, [Text(m.Reasoning?, before), Tag(raw)] + rest)
  {
    hide EntersBy, TagsOf;
    var ps := [Text(m.Reasoning?, before), Tag(raw)] + rest;
    assert ps[2..] == rest;
  }

  lemma {:induction false} ReadingOne(pairs: seq<TagPair>, m: Mode, s: string)
    requires FirstHit(s, 0, TagsOf(pairs, m)).None?
    ensures IsReading(pairs, m, [Text(m.Reasoning?, s)])
  {
    hide FirstHit, TagsOf;
  }

  lemma HitEnters(s: string, tags: seq<string>, h: Hit)
    requires IsFirstHit(s, 0, tags, h)
    ensures EntersBy(tags, s[..h.index], s[h.index..h.index + |tags[h.tag]|], h.tag)
  {
    Rejoin(s, h.index, h.index + |tags[h.tag]|);
    HitInPrefix(s, tags, h);
  }

  lemma HitInPrefix(s: string, tags: seq<string>, h: Hit)
    requires IsFirstHit(s, 0, tags, h)
    ensures IsFirstHit(s[..h.index + |tags[h.tag]|], 0, tags, h)
  {
    var after := h.index + |tags[h.tag]|;
    var t := s[..after];
    assert forall j :: 0 <= j < after ==> t[j] == s[j];
    forall j, k | 0 <= j < h.index && 0 <= k < |tags| ensures !Occurs(t, j, tags[k]) {
      assert !Occurs(s, j, tags[k]);
    }
  }

  /** A text has one reading. */
  lemma {:induction false} ReadingUnique(pairs: seq<TagPair>, m: Mode, ps: seq<Piece>)
    requires GoodMode(pairs, m) && IsReading(pairs, m, ps)
    ensures ps == Pieces(pairs, m, JoinPieces(ps))
    decreases |ps|
  {
    hide TagAt, FirstHit, TagsOf, GoodMode, JoinPieces, Occurs, Unambiguous, Pieces, IsFirstHit;
    GoodTags(pairs, m);
    var tags := TagsOf(pairs, m);
    if |ps| == 1 {
      Unfold(pairs, m, ps[0].text);
      SortOne(ps[0].reasoning, ps[0].text);
      assert ps == [Text(ps[0].reasoning, ps[0].text)];
    } else {
      var before, raw := ps[0].text, ps[1].raw;
      var k :| EntersBy(tags, before, raw, k) && IsReading(pairs, Enter(pairs, m, k), ps[2..]);
      ReadingUnique(pairs, Enter(pairs, m, k), ps[2..]);
      assert ps == [Text(m.Reasoning?, before), Tag(raw)] + ps[2..];
      SortTwo(m.Reasoning?, before, raw, ps[2..]);
      PiecesStep(pairs, m, before, raw, k, JoinPieces(ps[2..]));
    }
  }

  lemma {:induction false} PiecesStep(pairs: seq<TagPair>, m: Mode, before: string, raw: string, k: nat, rest: string)
    requires GoodMode(pairs, m) && EntersBy(TagsOf(pairs, m), before, raw, k)
    ensures GoodMode(pairs, Enter(pairs, m, k))
    ensures Pieces(pairs, m, before + (raw + rest))
         == [Text(m.Reasoning?, before), Tag(raw)] + Pieces(pairs, Enter(pairs, m, k), rest)
  {
    hide TagAt, FirstHit, TagsOf, Occurs, Unambiguous, Pieces, IsFirstHit, GoodMode;
    GoodTags(pairs, m);
    var tags := TagsOf(pairs, m);
    var head := before + raw;
    var s := before + (raw + rest);
    assert head + rest == s;
    FirstHitFound(head, tags, Hit(|before|, k));
    FirstHitStable(head, rest, tags);
    Unfold(pairs, m, s);
    assert s[..|before|] == before && s[|before|..|head|] == raw && s[|head|..] == rest;
  }

  // ------------------------------------------------------------- holding back

  /** Some tag starts with the lower-cased `suffix`. */
  predicate CouldBecome(suffix: string, tags: seq<string>) {
    exists k :: 0 <= k < |tags| && Lower(suffix) <= tags[k]
  }

  /** Length of the longest non-empty suffix of `s`, from `i` on, that could become a tag. */
  function HoldFrom(s: string, i: nat, tags: seq<string>): (n: nat)
    requires i <= |s|
    ensures n <= |s| - i
    ensures n > 0 ==> CouldBecome(s[|s| - n..], tags)
    ensures forall j :: i <= j < |s| - n ==> !CouldBecome(s[j..], tags)
    decreases |s| - i
  {
    if i == |s| then 0
    else if CouldBecome(s[i..], tags) then |s| - i
    else HoldFrom(s, i + 1, tags)
  }

  function SuffixTagPrefixLen(s: string, tags: seq<string>): (n: nat)
    ensures n <= |s|
    ensures n > 0 ==> CouldBecome(s[|s| - n..], tags)
    ensures forall j :: 0 <= j < |s| - n ==> !CouldBecome(s[j..], tags)
  {
    HoldFrom(s, 0, tags)
  }

  /** What one push delivers, the mode it ends in and the suffix it holds back. */
  datatype Drained = Drained(out: Out, mode: Mode, held: string)

  function Drain(pairs: seq<TagPair>, m: Mode, s: string): (d: Drained)
    requires GoodMode(pairs, m)
    ensures GoodMode(pairs, d.mode)
    decreases |s|
  {
    GoodTags(pairs, m);
    var tags := TagsOf(pairs, m);
    match FirstHit(s, 0, tags)
    case None =>
      var cut := |s| - SuffixTagPrefixLen(s, tags);
      Drained(Emit(m.Reasoning?, s[..cut]), m, s[cut..])
    case Some(h) =>
      var d := Drain(pairs, Enter(pairs, m, h.tag), s[h.index + |tags[h.tag]|..]);
      d.(out := Plus(Emit(m.Reasoning?, s[..h.index]), d.out))
  }

  /** The two functions unfolded once. */
  lemma {:induction false} Unfold(pairs: seq<TagPair>, m: Mode, s: string)
    requires GoodMode(pairs, m)
    ensures Unambiguous(TagsOf(pairs, m))
    ensures FirstHit(s, 0, TagsOf(pairs, m)).None? ==>
              var cut := |s| - SuffixTagPrefixLen(s, TagsOf(pairs, m));
              && Drain(pairs, m, s) == Drained(Emit(m.Reasoning?, s[..cut]), m, s[cut..])
              && Pieces(pairs, m, s) == [Text(m.Reasoning?, s)]
    ensures FirstHit(s, 0, TagsOf(pairs, m)).Some? ==>
              var h := FirstHit(s, 0, TagsOf(pairs, m)).value;
              var m', after := Enter(pairs, m, h.tag), h.index + |TagsOf(pairs, m)[h.tag]|;
              && GoodMode(pairs, m') && h.index < after
              && Drain(pairs, m, s) == Drain(pairs, m', s[after..]).(
                   out := Plus(Emit(m.Reasoning?, s[..h.index]), Drain(pairs, m', s[after..]).out))
              && Pieces(pairs, m, s) == [Text(m.Reasoning?, s[..h.index]), Tag(s[h.index..after])]
                                        + Pieces(pairs, m', s[after..])
  {
    hide FirstHit, TagAt, TagsOf, SuffixTagPrefixLen, CouldBecome, Occurs, Unambiguous;
    GoodTags(pairs, m);
  }

  /** Draining and flushing at once is the whole reading. */
  lemma {:induction false} DrainThenFlush(pairs: seq<TagPair>, m: Mode, s: string)
    requires GoodMode(pairs, m)
    ensures var d := Drain(pairs, m, s);
            Plus(d.out, Emit(d.mode.Reasoning?, d.held)) == Whole(pairs, m, s)
    decreases |s|
  {
    hide FirstHit, TagAt, TagsOf, SuffixTagPrefixLen, GoodMode, CouldBecome, Occurs, Sort, Plus, Emit, Drain, Pieces, Unambiguous, IsFirstHit;
    Unfold(pairs, m, s);
    var tags := TagsOf(pairs, m);
    match FirstHit(s, 0, tags)
    case None =>
      var cut := |s| - SuffixTagPrefixLen(s, tags);
      Rejoin(s, cut, cut);
      EmitJoin(m.Reasoning?, s[..cut], s[cut..]);
      SortOne(m.Reasoning?, s);
    case Some(h) =>
      var after := h.index + |tags[h.tag]|;
      var m' := Enter(pairs, m, h.tag);
      var d := Drain(pairs, m', s[after..]);
      DrainThenFlush(pairs, m', s[after..]);
      SortTwo(m.Reasoning?, s[..h.index], s[h.index..after], Pieces(pairs, m', s[after..]));
      PlusAssoc(Emit(m.Reasoning?, s[..h.index]), d.out, Emit(d.mode.Reasoning?, d.held));
  }

  lemma OccursIn(a: string, b: string, i: nat, tag: string)
    ensures i + |tag| <= |a| ==> (Occurs(a, i, tag) <==> Occurs(a + b, i, tag))
    ensures Occurs(a, i, tag) ==> Occurs(a + b, i, tag)
  {
  }

  /** A found tag stays the first one whatever follows. */
  lemma {:induction false} FirstHitStable(a: string, b: string, tags: seq<string>)
    requires Unambiguous(tags) && FirstHit(a, 0, tags).Some?
    ensures FirstHit(a + b, 0, tags) == FirstHit(a, 0, tags)
  {
    var h := FirstHit(a, 0, tags).value;
    OccursIn(a, b, h.index, tags[h.tag]);
    forall j, k | 0 <= j < h.index && 0 <= k < |tags| ensures !Occurs(a + b, j, tags[k]) {
      OccursIn(a, b, j, tags[k]);
      assert !Occurs(a, j, tags[k]);
      // Otherwise the found tag's '<' would lie inside tags[k].
      assert (a + b)[h.index + 0] == a[h.index];
      assert LowerChar((a + b)[h.index]) == '<';
      if j + |tags[k]| > h.index { assert tags[k][h.index - j] != '<' && (a + b)[j + (h.index - j)] == (a + b)[h.index]; }
    }
    FirstHitUnique(a + b, tags, h, FirstHit(a + b, 0, tags).value);
  }

  /** When `a` has no tag, the first tag of `a + b` starts in what is held back. */
  lemma {:induction false} FirstHitShift(a: string, b: string, tags: seq<string>)
    requires Unambiguous(tags) && FirstHit(a, 0, tags).None?
    ensures var cut := |a| - SuffixTagPrefixLen(a, tags);
            var h := FirstHit(a[cut..] + b, 0, tags);
            FirstHit(a + b, 0, tags) == if h.None? then None else Some(Hit(cut + h.value.index, h.value.tag))
  {
    hide FirstHit, TagAt, SuffixTagPrefixLen, CouldBecome, Occurs, Unambiguous;
    var cut := |a| - SuffixTagPrefixLen(a, tags);
    var t := a[cut..] + b;
    assert t == (a + b)[cut..];
    forall j, k | 0 <= j < cut && 0 <= k < |tags| ensures !Occurs(a + b, j, tags[k]) {
      OccursIn(a, b, j, tags[k]);
      assert !Occurs(a, j, tags[k]) && !CouldBecome(a[j..], tags);
      if |a| < j + |tags[k]| && Occurs(a + b, j, tags[k]) { StraddleCouldBecome(a, b, j, k, tags); }
    }
    HitShift(a + b, cut, tags);
  }

  lemma {:induction false} HitShift(s: string, cut: nat, tags: seq<string>)
    requires Unambiguous(tags) && cut <= |s|
    requires forall j, k :: 0 <= j < cut && 0 <= k < |tags| ==> !Occurs(s, j, tags[k])
    ensures var h := FirstHit(s[cut..], 0, tags);
            FirstHit(s, 0, tags) == if h.None? then None else Some(Hit(cut + h.value.index, h.value.tag))
  {
    hide FirstHit, Occurs, Unambiguous;
    var t := s[cut..];
    forall j, tag | 0 <= j ensures Occurs(t, j, tag) <==> Occurs(s, cut + j, tag) {
      OccursShift(s, cut, j, tag);
    }
    var g, h := FirstHit(s, 0, tags), FirstHit(t, 0, tags);
    if h.Some? {
      var shifted := Hit(cut + h.value.index, h.value.tag);
      forall j, k | 0 <= j < shifted.index && 0 <= k < |tags| ensures !Occurs(s, j, tags[k]) {
        if cut <= j { assert !Occurs(t, j - cut, tags[k]); }
      }
      assert IsFirstHit(s, 0, tags, shifted);
      assert g.Some?;
      FirstHitUnique(s, tags, shifted, g.value);
    } else {
      forall j, k | 0 <= j <= |s| && 0 <= k < |tags| ensures !Occurs(s, j, tags[k]) {
        if cut <= j { assert !Occurs(t, j - cut, tags[k]); }
      }
    }
  }

  lemma OccursShift(s: string, cut: nat, j: nat, tag: string)
    requires cut <= |s|
    ensures Occurs(s[cut..], j, tag) <==> Occurs(s, cut + j, tag)
  {
  }

  /** Draining in two steps is draining at once. */
  lemma {:induction false} DrainSplit(pairs: seq<TagPair>, m: Mode, a: string, b: string)
    requires GoodMode(pairs, m)
    ensures var d := Drain(pairs, m, a);
            var e := Drain(pairs, d.mode, d.held + b);
            Drain(pairs, m, a + b) == e.(out := Plus(d.out, e.out))
    decreases |a|
  {
    hide FirstHit, TagAt, TagsOf, SuffixTagPrefixLen, GoodMode, CouldBecome, Occurs, IsFirstHit, Unambiguous, Plus, Emit, Drain,
      Pieces, Enter;
    Unfold(pairs, m, a);
    var tags := TagsOf(pairs, m);
    match FirstHit(a, 0, tags)
    case None =>
      FirstHitShift(a, b, tags);
      DrainHeld(pairs, m, a, b);
    case Some(h) =>
      var after := h.index + |tags[h.tag]|;
      FirstHitStable(a, b, tags);
      Unfold(pairs, m, a + b);
      assert (a + b)[after..] == a[after..] + b && (a + b)[..h.index] == a[..h.index];
      DrainSplit(pairs, Enter(pairs, m, h.tag), a[after..], b);
      var d := Drain(pairs, Enter(pairs, m, h.tag), a[after..]);
      PlusAssoc(Emit(m.Reasoning?, a[..h.index]), d.out, Drain(pairs, d.mode, d.held + b).out);
  }

  lemma Reslice(a: string, b: string, cut: nat, c: nat)
    requires cut <= |a| && cut + c <= |a| + |b|
    ensures var t := a[cut..] + b;
            (a + b)[..cut + c] == a[..cut] + t[..c] && (a + b)[cut + c..] == t[c..]
  {
  }

  lemma {:induction false} DrainHeld(pairs: seq<TagPair>, m: Mode, a: string, b: string)
    requires GoodMode(pairs, m) && FirstHit(a, 0, TagsOf(pairs, m)).None?
    ensures var d := Drain(pairs, m, a);
            var e := Drain(pairs, d.mode, d.held + b);
            Drain(pairs, m, a + b) == e.(out := Plus(d.out, e.out))
  {
    hide FirstHit, TagAt, TagsOf, SuffixTagPrefixLen, GoodMode, CouldBecome, Occurs, IsFirstHit, Unambiguous, Plus, Emit, Drain,
      Pieces, Enter;
    Unfold(pairs, m, a);
    var tags := TagsOf(pairs, m);
    FirstHitShift(a, b, tags);
    var cut := |a| - SuffixTagPrefixLen(a, tags);
    var t := a[cut..] + b;
    Unfold(pairs, m, a + b);
    Unfold(pairs, m, t);
    match FirstHit(t, 0, tags)
    case None =>
      HoldShift(a, b, cut, tags);
      var c := |t| - SuffixTagPrefixLen(t, tags);
      Reslice(a, b, cut, c);
      EmitJoin(m.Reasoning?, a[..cut], t[..c]);
    case Some(h) =>
      var after := h.index + |tags[h.tag]|;
      Reslice(a, b, cut, after);
      Reslice(a, b, cut, h.index);
      EmitJoin(m.Reasoning?, a[..cut], t[..h.index]);
      PlusAssoc(Emit(m.Reasoning?, a[..cut]), Emit(m.Reasoning?, t[..h.index]), Drain(pairs, Enter(pairs, m, h.tag), t[after..]).out);
  }

  /** What is held back after `a + b` lies in what was held back after `a`, plus `b`. */
  lemma HoldShift(a: string, b: string, cut: nat, tags: seq<string>)
    requires cut == |a| - SuffixTagPrefixLen(a, tags)
    ensures SuffixTagPrefixLen(a + b, tags) == SuffixTagPrefixLen(a[cut..] + b, tags)
  {
    hide HoldFrom, SuffixTagPrefixLen;
    var t := a[cut..] + b;
    forall j | 0 <= j < cut ensures !CouldBecome((a + b)[j..], tags) {
      assert !CouldBecome(a[j..], tags);
      assert (a + b)[j..] == a[j..] + b;
      CouldBecomePrefix(a[j..], b, tags);
    }
    forall j | 0 <= j <= |t| ensures t[j..] == (a + b)[cut + j..] {}
    HoldSame(a + b, t, cut, tags);
  }

  lemma CouldBecomePrefix(x: string, y: string, tags: seq<string>)
    ensures CouldBecome(x + y, tags) ==> CouldBecome(x, tags)
  {
    assert Lower(x) <= Lower(x + y);
  }

  /** A tag that starts in `a` and ends after it was a possible tag at the end of `a`. */
  lemma StraddleCouldBecome(a: string, b: string, j: nat, k: nat, tags: seq<string>)
    requires k < |tags| && j < |a| < j + |tags[k]| && Occurs(a + b, j, tags[k])
    ensures CouldBecome(a[j..], tags)
  {
    assert forall i :: j <= i < |a| ==> (a + b)[j + (i - j)] == a[i];
    assert Lower(a[j..]) <= tags[k];
  }

  lemma HoldSame(s: string, t: string, cut: nat, tags: seq<string>)
    requires cut <= |s| && t == s[cut..]
    requires forall j :: 0 <= j < cut ==> !CouldBecome(s[j..], tags)
    ensures SuffixTagPrefixLen(s, tags) == SuffixTagPrefixLen(t, tags)
  {
    hide HoldFrom, SuffixTagPrefixLen, CouldBecome;
    var m, n := SuffixTagPrefixLen(s, tags), SuffixTagPrefixLen(t, tags);
    assert forall j :: 0 <= j <= |t| ==> t[j..] == s[cut + j..];
    assert n > 0 ==> t[|t| - n..] == s[|s| - n..];
    assert m > 0 && m <= |t| ==> t[|t| - m..] == s[|s| - m..];
  }
}
