/**
 The system-keyring secret store over a backend whose calls may fail.

 `Read` says what a fault-free `get` would answer for a given backend content.
 The store's `Set` is proved atomic with respect to `Read`: at every moment, for
 every fault schedule, the answer is the old one or the new one.
 */
module Keyring {
  import opened Wrappers
  import opened Texts
  import opened Manifest

  type Values = map<string, string>

  // ------------------------------------------------------------------- backend

  /** The credential store: a failed call changes nothing. */
  class Backend {
    var values: Values
    var calls: nat
    /** Whether the n-th call fails. */
    const fails: nat -> bool
    /** The content after every call so far. */
    ghost var history: seq<Values>

    constructor (values: Values, fails: nat -> bool)
      ensures this.values == values && this.fails == fails && calls == 0 && history == []
    {
      this.values, calls, this.fails, history := values, 0, fails, [];
    }

    method Get(key: string) returns (r: Result<Option<string>, ()>)
      modifies this`calls, this`history
      ensures history == old(history) + [values]
      ensures r.Err? <==> fails(old(calls))
      ensures calls == old(calls) + 1
      ensures r.Ok? ==> r.value == Lookup(values, key)
    {
      r := if fails(calls) then Err(()) else Ok(Lookup(values, key));
      calls, history := calls + 1, history + [values];
    }

    method Set(key: string, value: string) returns (r: Result<(), ()>)
      modifies this
      ensures history == old(history) + [values]
      ensures r.Err? <==> fails(old(calls))
      ensures calls == old(calls) + 1
      ensures values == if r.Ok? then old(values)[key := value] else old(values)
    {
      r := if fails(calls) then Err(()) else Ok(());
      if r.Ok? { values := values[key := value]; }
      calls, history := calls + 1, history + [values];
    }

    method Delete(key: string) returns (r: Result<(), ()>)
      modifies this
      ensures history == old(history) + [values]
      ensures r.Err? <==> fails(old(calls))
      ensures calls == old(calls) + 1
      ensures values == if r.Ok? then old(values) - {key} else old(values)
    {
      r := if fails(calls) then Err(()) else Ok(());
      if r.Ok? { values := values - {key}; }
      calls, history := calls + 1, history + [values];
    }
  }

  /** Some call in this range failed. */
  ghost predicate Faulty(fails: nat -> bool, from: nat, to: nat) {
    exists k: nat :: from <= k < to && fails(k)
  }

  lemma TwoCalls(fails: nat -> bool, c: nat, to: nat)
    ensures to == c + 1 ==> (Faulty(fails, c, to) <==> fails(c))
    ensures to >= c + 2 ==> (Faulty(fails, c, to) <==> fails(c) || fails(c + 1) || Faulty(fails, c + 2, to))
    ensures !Faulty(fails, to, to)
  {
  }

  function Lookup(values: Values, key: string): Option<string> {
    if key in values then Some(values[key]) else None
  }

  // -------------------------------------------------------- the fault-free reader

  datatype Answer = Absent | Found(secret: string) | Damaged

  /** The chunks `i..n` of a generation, concatenated. */
  function Gather(values: Values, key: string, generation: string, n: nat): Option<string> {
    if n == 0 then Some([])
    else
      var head := Gather(values, key, generation, n - 1);
      var last := Lookup(values, ChunkAccount(key, generation, n - 1));
      if head.None? || last.None? then None else Some(head.value + last.value)
  }

  function Read(hash: string -> string, values: Values, key: string): Answer {
    match Lookup(values, key)
    case None => Absent
    case Some(stored) =>
      match ParseChunkManifest(stored)
      case Corrupted => Damaged
      case Plain => if Trim(stored) == "" then Absent else Found(stored)
      case Listed(m) =>
        match Gather(values, key, m.generation, m.chunkCount)
        case None => Damaged
        case Some(secret) => if hash(secret) == m.sha256 then Found(secret) else Damaged
  }

  /** The manifest stored under `key`, if there is one. */
  function ListedAt(values: Values, key: string): Option<ChunkManifest> {
    match Lookup(values, key)
    case None => None
    case Some(stored) => match ParseChunkManifest(stored) case Listed(m) => Some(m) case _ => None
  }

  /** Two contents agree on everything a read of `key` looks at. */
  ghost predicate Agree(v: Values, w: Values, key: string) {
    && Lookup(v, key) == Lookup(w, key)
    && (ListedAt(v, key).Some? ==>
          forall i: nat :: SlotOf(v, key, i) == SlotOf(w, key, i))
  }

  /** The content of slot `i` of the generation listed under `key`. */
  ghost function SlotOf(v: Values, key: string, i: nat): Option<string> {
    if ListedAt(v, key).Some? then Lookup(v, ChunkAccount(key, ListedAt(v, key).value.generation, i)) else None
  }

  lemma {:induction false} GatherFrame(v: Values, w: Values, key: string, generation: string, n: nat)
    requires forall i: nat :: i < n ==>
               Lookup(v, ChunkAccount(key, generation, i)) == Lookup(w, ChunkAccount(key, generation, i))
    ensures Gather(v, key, generation, n) == Gather(w, key, generation, n)
  {
    if n > 0 { GatherFrame(v, w, key, generation, n - 1); }
  }

  lemma ReadFrame(hash: string -> string, v: Values, w: Values, key: string)
    requires Agree(v, w, key)
    ensures Read(hash, v, key) == Read(hash, w, key)
  {
    var m := ListedAt(v, key);
    if m.Some? {
      forall i: nat
        ensures Lookup(v, ChunkAccount(key, m.value.generation, i)) == Lookup(w, ChunkAccount(key, m.value.generation, i))
      {
        assert SlotOf(v, key, i) == SlotOf(w, key, i);
      }
      GatherFrame(v, w, key, m.value.generation, m.value.chunkCount);
    }
  }

  ghost predicate IsSlot(k: string, key: string, generation: string) {
    exists i: nat :: k == ChunkAccount(key, generation, i)
  }

  /** The contents differ at most in slots of one generation. */
  ghost predicate SameOutside(v: Values, w: Values, key: string, generation: string) {
    forall k :: IsSlot(k, key, generation) || Lookup(v, k) == Lookup(w, k)
  }

  lemma SameOutsideRefl(v: Values, key: string, generation: string)
    ensures SameOutside(v, v, key, generation)
  {
  }

  lemma SlotsApart(key: string, generation: string, other: string)
    requires GoodGeneration(generation) && GoodGeneration(other) && generation != other
    ensures !IsSlot(key, key, generation)
    ensures forall i: nat :: !IsSlot(ChunkAccount(key, other, i), key, generation)
  {
    forall i: nat ensures ChunkAccount(key, generation, i) != key {
      ChunkAccountIsNotAccount(key, generation, i);
    }
    forall i: nat, j: nat ensures ChunkAccount(key, other, i) != ChunkAccount(key, generation, j) {
      if ChunkAccount(key, other, i) == ChunkAccount(key, generation, j) {
        ChunkAccountInjective(key, other, i, key, generation, j);
      }
    }
  }

  lemma KeyIsNotSlot(key: string, generation: string)
    ensures !IsSlot(key, key, generation)
  {
    forall i: nat ensures ChunkAccount(key, generation, i) != key {
      ChunkAccountIsNotAccount(key, generation, i);
    }
  }

  // ------------------------------------------------------------------ other keys

  ghost predicate IsAnySlot(k: string, key: string) {
    exists generation :: GoodGeneration(generation) && IsSlot(k, key, generation)
  }

  /** The contents differ at most in the entry of `key` and its slots. */
  ghost predicate Within(v: Values, w: Values, key: string) {
    forall k :: k == key || IsAnySlot(k, key) || Lookup(v, k) == Lookup(w, k)
  }

  /** Two keys of which neither is the name of a slot of the other. */
  ghost predicate Unrelated(key: string, other: string) {
    other != key && !IsAnySlot(other, key) && !IsAnySlot(key, other)
  }

  /** All contents from `from` on read the same for every unrelated key. */
  ghost predicate OthersKept(hash: string -> string, v: Values, h: seq<Values>, from: nat, key: string) {
    forall other, i :: Unrelated(key, other) && from <= i < |h| ==> Read(hash, h[i], other) == Read(hash, v, other)
  }

  lemma SlotsAreWithin(v: Values, w: Values, key: string, generation: string)
    requires SameOutside(v, w, key, generation) && GoodGeneration(generation)
    ensures Within(v, w, key)
  {
    hide IsSlot, GoodGeneration;
  }

  lemma EntryIsWithin(v: Values, w: Values, key: string, value: string)
    requires Within(v, w, key)
    ensures Within(v, w[key := value], key)
  {
    hide IsAnySlot;
  }

  lemma WithinTrans(u: Values, v: Values, w: Values, key: string)
    requires Within(u, v, key) && Within(v, w, key)
    ensures Within(u, w, key)
  {
    hide IsAnySlot;
  }

  /** Slot names are injective, so nothing an unrelated key is read from can be touched. */
  lemma UnrelatedReads(hash: string -> string, v: Values, w: Values, key: string, other: string)
    requires Within(v, w, key) && Unrelated(key, other)
    ensures Read(hash, w, other) == Read(hash, v, other)
  {
    hide ChunkAccount, Read, GoodGeneration;
    var m := ListedAt(v, other);
    if m.Some? {
      ListedIsGood(v, other);
      forall i: nat ensures SlotOf(v, other, i) == SlotOf(w, other, i) {
        var slot := ChunkAccount(other, m.value.generation, i);
        assert IsSlot(slot, other, m.value.generation);
        assert slot != key;
        if IsAnySlot(slot, key) {
          var g :| GoodGeneration(g) && IsSlot(slot, key, g);
          var j: nat :| slot == ChunkAccount(key, g, j);
          ChunkAccountInjective(other, m.value.generation, i, key, g, j);
        }
        assert Lookup(v, slot) == Lookup(w, slot);
      }
    }
    assert Agree(v, w, other);
    ReadFrame(hash, v, w, other);
  }

  ghost predicate AllWithin(v: Values, h: seq<Values>, from: nat, key: string) {
    forall i :: from <= i < |h| ==> Within(v, h[i], key)
  }

  lemma WithinKeepsOthers(hash: string -> string, v: Values, h: seq<Values>, from: nat, key: string)
    requires AllWithin(v, h, from, key)
    ensures OthersKept(hash, v, h, from, key)
  {
    hide Within, Unrelated, Read;
    forall other, i | Unrelated(key, other) && from <= i < |h| ensures Read(hash, h[i], other) == Read(hash, v, other) {
      UnrelatedReads(hash, v, h[i], key, other);
    }
  }

  lemma OnlyIsWithin(v: Values, h: seq<Values>, from: nat, key: string, generation: string)
    requires Only(v, h, from, key, generation) && GoodGeneration(generation)
    ensures AllWithin(v, h, from, key)
  {
    hide Within, SameOutside;
    forall i | from <= i < |h| ensures Within(v, h[i], key) { SlotsAreWithin(v, h[i], key, generation); }
  }

  lemma SameEntry(v: Values, w: Values, key: string, generation: string)
    requires SameOutside(v, w, key, generation)
    ensures Lookup(w, key) == Lookup(v, key)
  {
    KeyIsNotSlot(key, generation);
  }

  lemma ListedIsGood(v: Values, key: string)
    requires ListedAt(v, key).Some?
    ensures GoodGeneration(ListedAt(v, key).value.generation)
  {
  }

  /** Touching slots of another generation leaves the read alone. */
  lemma ForeignSlots(hash: string -> string, v: Values, w: Values, key: string, generation: string)
    requires SameOutside(v, w, key, generation) && GoodGeneration(generation)
    requires ListedAt(v, key).Some? ==> ListedAt(v, key).value.generation != generation
    ensures Read(hash, v, key) == Read(hash, w, key)
  {
    KeyIsNotSlot(key, generation);
    var m := ListedAt(v, key);
    if m.Some? {
      SlotsApart(key, generation, m.value.generation);
      forall i: nat ensures SlotOf(v, key, i) == SlotOf(w, key, i) {
        assert !IsSlot(ChunkAccount(key, m.value.generation, i), key, generation);
      }
    }
    assert Agree(v, w, key);
    ReadFrame(hash, v, w, key);
  }

  // -------------------------------------------------- contents that are committed

  /** The slots of a generation hold exactly these chunks. */
  ghost predicate Holds(values: Values, key: string, generation: string, chunks: seq<string>, n: nat) {
    && n <= |chunks|
    && forall i: nat :: i < n ==> Lookup(values, ChunkAccount(key, generation, i)) == Some(chunks[i])
  }

  lemma {:induction false} GatherHolds(values: Values, key: string, generation: string, chunks: seq<string>, n: nat)
    requires Holds(values, key, generation, chunks, n)
    ensures Gather(values, key, generation, n) == Some(Concat(chunks[..n]))
  {
    if n > 0 {
      GatherHolds(values, key, generation, chunks, n - 1);
      assert chunks[..n][..n - 1] == chunks[..n - 1];
    }
  }

  /** A backend content from which `secret` is read back, however it is stored. */
  ghost predicate Committed(hash: string -> string, values: Values, key: string, secret: string, m: ChunkManifest, chunks: seq<string>) {
    if Units(secret) <= MAX_UNITS then Lookup(values, key) == Some(secret)
    else
      && GoodManifest(m) && m.sha256 == hash(secret) && m.chunkCount == |chunks| && Concat(chunks) == secret
      && Lookup(values, key) == Some(EncodeChunkManifest(m))
      && Holds(values, key, m.generation, chunks, |chunks|)
  }

  /** Every secret except a short one that is itself the text of a manifest. */
  predicate Storable(secret: string) {
    Units(secret) > MAX_UNITS || !ParseChunkManifest(secret).Listed?
  }

  /** What is read back: a blank secret counts as none, one that only starts like a manifest is damaged. */
  function Wanted(secret: string): Answer {
    if Units(secret) > MAX_UNITS then Found(secret)
    else if Blank(secret) then Absent
    else if PREFIX <= secret then Damaged
    else Found(secret)
  }

  lemma CommittedReads(hash: string -> string, values: Values, key: string, secret: string, m: ChunkManifest, chunks: seq<string>)
    requires Committed(hash, values, key, secret, m, chunks) && Storable(secret)
    ensures Read(hash, values, key) == Wanted(secret)
  {
    if Units(secret) > MAX_UNITS {
      ParseUndoesEncode(m);
      GatherHolds(values, key, m.generation, chunks, |chunks|);
      assert chunks[..|chunks|] == chunks;
    } else {
      BlankIsTrimmedEmpty(secret);
      PrefixIsNotBlank(secret);
    }
  }

  lemma PrefixIsNotBlank(secret: string)
    ensures Blank(secret) ==> !(PREFIX <= secret)
  {
    if PREFIX <= secret { assert secret[0] == PREFIX[0] == 'e'; }
  }

  /** The secret is a manifest that lists slots holding the secret itself, under its own hash. */
  predicate ListsItself(hash: string -> string, values: Values, key: string, secret: string) {
    match ParseChunkManifest(secret)
    case Listed(m) => hash(secret) == m.sha256 && Gather(values, key, m.generation, m.chunkCount) == Some(secret)
    case _ => false
  }

  /**
   A secret stored as it is, not blank, is read back exactly when it does not start
   like a manifest, unless it lists itself; without a first slot it reads as damaged.
   */
  lemma ShortRoundTrip(hash: string -> string, values: Values, key: string, secret: string)
    requires Lookup(values, key) == Some(secret) && !Blank(secret)
    ensures Read(hash, values, key) == Found(secret) <==> !(PREFIX <= secret) || ListsItself(hash, values, key, secret)
    ensures PREFIX <= secret
            && (ParseChunkManifest(secret).Listed? ==> ChunkAccount(key, ParseChunkManifest(secret).manifest.generation, 0) !in values) ==>
              Read(hash, values, key) == Damaged
  {
    hide Trim, Gather, ChunkAccount, Blank;
    BlankIsTrimmedEmpty(secret);
    match ParseChunkManifest(secret)
    case Listed(m) =>
      if ChunkAccount(key, m.generation, 0) !in values { GatherMissing(values, key, m.generation, 0, m.chunkCount); }
    case _ =>
  }

  /** Dropping slots of another generation keeps a committed value. */
  lemma {:induction false} CommittedFrame(hash: string -> string, v: Values, w: Values, key: string, secret: string,
                       m: ChunkManifest, chunks: seq<string>, generation: string)
    requires Committed(hash, v, key, secret, m, chunks) && SameOutside(v, w, key, generation)
    requires GoodGeneration(generation) && (Units(secret) > MAX_UNITS ==> generation != m.generation)
    ensures Committed(hash, w, key, secret, m, chunks)
  {
    KeyIsNotSlot(key, generation);
    if Units(secret) > MAX_UNITS {
      SlotsApart(key, generation, m.generation);
      forall i: nat | i < |chunks|
        ensures Lookup(w, ChunkAccount(key, m.generation, i)) == Some(chunks[i])
      {
        assert !IsSlot(ChunkAccount(key, m.generation, i), key, generation);
      }
    }
  }

  // ------------------------------------------------------- contents after deletions

  /** The content after `n` calls that delete the slots of a generation in order, the first being call `c`. */
  function Removed(v: Values, key: string, generation: string, fails: nat -> bool, c: nat, n: nat): Values {
    if n == 0 then v
    else
      var w := Removed(v, key, generation, fails, c, n - 1);
      if fails(c + n - 1) then w else w - {ChunkAccount(key, generation, n - 1)}
  }

  /** The history grew by the contents of `n` such calls. */
  ghost predicate Deleted(v: Values, h: seq<Values>, h': seq<Values>, key: string, generation: string, fails: nat -> bool, c: nat, n: nat) {
    && |h'| == |h| + n && h <= h'
    && forall j :: |h| <= j < |h'| ==> h'[j] == Removed(v, key, generation, fails, c, j - |h| + 1)
  }

  lemma {:induction false} NothingDeleted(v: Values, h: seq<Values>, key: string, generation: string, fails: nat -> bool, c: nat)
    ensures Deleted(v, h, h, key, generation, fails, c, 0) && Removed(v, key, generation, fails, c, 0) == v && !Faulty(fails, c, c)
  {
  }

  lemma OneMoreDeleted(v: Values, key: string, generation: string, fails: nat -> bool, c: nat, n: nat)
    ensures var w := Removed(v, key, generation, fails, c, n);
            Removed(v, key, generation, fails, c, n + 1) == if fails(c + n) then w else w - {ChunkAccount(key, generation, n)}
    ensures Faulty(fails, c, c + n + 1) <==> Faulty(fails, c, c + n) || fails(c + n)
  {
  }

  /** Only slots of the generation are touched. */
  lemma {:induction false} RemovedTouches(v: Values, key: string, generation: string, fails: nat -> bool, c: nat, n: nat)
    ensures var w := Removed(v, key, generation, fails, c, n);
            SameOutside(v, w, key, generation)
  {
    hide ChunkAccount;
    if n > 0 {
      RemovedTouches(v, key, generation, fails, c, n - 1);
      assert IsSlot(ChunkAccount(key, generation, n - 1), key, generation);
    }
  }

  lemma {:induction false} DeletedFacts(v: Values, h: seq<Values>, h': seq<Values>, key: string, generation: string, fails: nat -> bool, c: nat, n: nat)
    requires Deleted(v, h, h', key, generation, fails, c, n)
    ensures Only(v, h', |h|, key, generation)
    ensures var w := Removed(v, key, generation, fails, c, n);
            && SameOutside(v, w, key, generation)
            && (!Faulty(fails, c, c + n) ==> forall i: nat :: i < n ==> ChunkAccount(key, generation, i) !in w)
  {
    hide ChunkAccount, SameOutside, Removed;
    forall j | |h| <= j < |h'| ensures SameOutside(v, h'[j], key, generation) {
      RemovedTouches(v, key, generation, fails, c, j - |h| + 1);
    }
    RemovedTouches(v, key, generation, fails, c, n);
    RemovedFrame(v, key, generation, fails, c, n);
  }

  /** Some call in this range succeeded. */
  ghost predicate Successful(fails: nat -> bool, from: nat, to: nat) {
    exists k: nat :: from <= k < to && !fails(k)
  }

  lemma {:induction false} RemovedFrame(v: Values, key: string, generation: string, fails: nat -> bool, c: nat, n: nat)
    ensures var w := Removed(v, key, generation, fails, c, n);
            && Lookup(w, key) == Lookup(v, key)
            && (!Successful(fails, c, c + n) ==> w == v)
            && (forall i: nat :: i < n && !fails(c + i) ==> ChunkAccount(key, generation, i) !in w)
  {
    if n > 0 {
      RemovedFrame(v, key, generation, fails, c, n - 1);
      ChunkAccountIsNotAccount(key, generation, n - 1);
      assert !fails(c + n - 1) ==> Successful(fails, c, c + n);
      assert Successful(fails, c, c + n - 1) ==> Successful(fails, c, c + n);
    }
  }

  /** Losing any listed slot damages the entry; losing none leaves it. */
  lemma {:induction false} RemovedReads(hash: string -> string, v: Values, key: string, fails: nat -> bool, c: nat, n: nat)
    requires ListedAt(v, key).Some? && n <= ListedAt(v, key).value.chunkCount
    ensures var m := ListedAt(v, key).value;
            Read(hash, Removed(v, key, m.generation, fails, c, n), key)
            == if Successful(fails, c, c + n) then Damaged else Read(hash, v, key)
  {
    hide ChunkAccount, Removed, Trim;
    var m := ListedAt(v, key).value;
    var w := Removed(v, key, m.generation, fails, c, n);
    RemovedFrame(v, key, m.generation, fails, c, n);
    if Successful(fails, c, c + n) {
      var k: nat :| c <= k < c + n && !fails(k);
      assert !fails(c + (k - c));
      assert Lookup(w, ChunkAccount(key, m.generation, k - c)).None?;
      GatherMissing(w, key, m.generation, k - c, m.chunkCount);
    }
  }

  /** Later removals leave the lower slots alone. */
  lemma {:induction false} RemovedBelow(v: Values, key: string, generation: string, fails: nat -> bool, c: nat, k: nat, n: nat)
    requires k <= n
    ensures forall i: nat :: i < k ==>
              var slot := ChunkAccount(key, generation, i);
              Lookup(Removed(v, key, generation, fails, c, n), slot) == Lookup(Removed(v, key, generation, fails, c, k), slot)
    decreases n
  {
    hide ChunkAccount;
    if k < n {
      RemovedBelow(v, key, generation, fails, c, k, n - 1);
      SlotNamesDiffer(key, generation, n - 1);
    }
  }

  /**
   A short secret that is itself a manifest, while the `n` slots of the previous value
   go: its answer changes only when it names the same generation and loses a slot.
   */
  lemma {:induction false} LookalikeReads(hash: string -> string, v: Values, key: string, generation: string, fails: nat -> bool, c: nat, n: nat)
    requires ListedAt(v, key).Some? && GoodGeneration(generation)
    ensures var m := ListedAt(v, key).value;
            var k := if n < m.chunkCount then n else m.chunkCount;
            Read(hash, Removed(v, key, generation, fails, c, n), key)
            == if generation == m.generation && Successful(fails, c, c + k) then Damaged else Read(hash, v, key)
  {
    hide ChunkAccount, Removed, Trim, ParseChunkManifest, SameOutside, Successful;
    var m := ListedAt(v, key).value;
    var k := if n < m.chunkCount then n else m.chunkCount;
    if generation != m.generation {
      RemovedTouches(v, key, generation, fails, c, n);
      ForeignSlots(hash, v, Removed(v, key, generation, fails, c, n), key, generation);
    } else {
      RemovedReads(hash, v, key, fails, c, k);
      RemovedBelow(v, key, generation, fails, c, k, n);
      RemovedFrame(v, key, generation, fails, c, k);
      RemovedFrame(v, key, generation, fails, c, n);
      if n > k {
        GatherFrame(Removed(v, key, generation, fails, c, k), Removed(v, key, generation, fails, c, n), key, generation, k);
      }
    }
  }

  /**
   The contents while a short secret replaces a value: unchanged by the look-up, then
   the secret under `key`, then the slots of the previous value going one by one.
   */
  ghost predicate ShortSet(v: Values, key: string, secret: string, h: seq<Values>, h': seq<Values>, w: Values, fails: nat -> bool, c: nat) {
    var stored := v[key := secret];
    match ListedAt(v, key)
    case None => h' == h + [v, stored] && w == stored
    case Some(m) =>
      && Deleted(stored, h + [v, stored], h', key, m.generation, fails, c + 2, m.chunkCount)
      && w == Removed(stored, key, m.generation, fails, c + 2, m.chunkCount)
  }

  /**
   What a read answers after the first `n` backend calls of a `Delete` whose first
   call is call `c`: the read, the removal of the entry, then of its slots.
   */
  ghost function DeleteAnswer(before: Answer, listed: bool, fails: nat -> bool, c: nat, n: nat): Answer {
    if n <= 1 || fails(c) then before
    else if !fails(c + 1) then Absent
    else if listed && Successful(fails, c + 2, c + n) then Damaged
    else before
  }

  /** The answer for `key` after each call, and that nothing else was touched. */
  ghost predicate DeleteTrace(hash: string -> string, v: Values, key: string, h: seq<Values>, h': seq<Values>, fails: nat -> bool, c: nat) {
    && h <= h'
    && forall j :: |h| <= j < |h'| ==>
         && Read(hash, h'[j], key) == DeleteAnswer(Read(hash, v, key), ListedAt(v, key).Some?, fails, c, j - |h| + 1)
         && Within(v, h'[j], key)
  }

  lemma TraceOfGet(hash: string -> string, v: Values, key: string, h: seq<Values>, fails: nat -> bool, c: nat)
    ensures DeleteTrace(hash, v, key, h, h + [v], fails, c)
    ensures Read(hash, v, key) == DeleteAnswer(Read(hash, v, key), ListedAt(v, key).Some?, fails, c, 1)
  {
    hide Read, Within;
    WithinRefl(v, key);
  }

  lemma TraceOfEntry(hash: string -> string, v: Values, key: string, v1: Values, h: seq<Values>, fails: nat -> bool, c: nat)
    requires !fails(c) && v1 == if fails(c + 1) then v else v - {key}
    ensures DeleteTrace(hash, v, key, h, h + [v] + [v1], fails, c)
    ensures Read(hash, v1, key) == DeleteAnswer(Read(hash, v, key), ListedAt(v, key).Some?, fails, c, 2)
    ensures Lookup(v1, key) == if fails(c + 1) then Lookup(v, key) else None
  {
    hide Read, Within;
    WithinRefl(v, key);
    RemovedEntry(hash, v, key, v1, fails, c);
  }

  lemma TraceOfSlots(hash: string -> string, v: Values, key: string, v1: Values, h: seq<Values>, h': seq<Values>, fails: nat -> bool, c: nat)
    requires !fails(c) && v1 == (if fails(c + 1) then v else v - {key}) && ListedAt(v, key).Some?
    requires var m := ListedAt(v, key).value;
             Deleted(v1, h + [v] + [v1], h', key, m.generation, fails, c + 2, m.chunkCount)
    ensures DeleteTrace(hash, v, key, h, h', fails, c)
    ensures var m := ListedAt(v, key).value;
            var w := Removed(v1, key, m.generation, fails, c + 2, m.chunkCount);
            && Read(hash, w, key) == DeleteAnswer(Read(hash, v, key), true, fails, c, m.chunkCount + 2)
            && Lookup(w, key) == if fails(c + 1) then Lookup(v, key) else None
  {
    hide Read, Within, Removed, ListedAt, DeleteAnswer;
    var h1 := h + [v] + [v1];
    TraceOfEntry(hash, v, key, v1, h, fails, c);
    forall j | |h| <= j < |h'|
      ensures Read(hash, h'[j], key) == DeleteAnswer(Read(hash, v, key), true, fails, c, j - |h| + 1) && Within(v, h'[j], key)
    {
      if j < |h1| { assert h'[j] == h1[j]; } else { RemovedSlots(hash, v, key, v1, fails, c, j - |h1| + 1); }
    }
    RemovedSlots(hash, v, key, v1, fails, c, ListedAt(v, key).value.chunkCount);
  }

  lemma TraceKeepsOthers(hash: string -> string, v: Values, key: string, h: seq<Values>, h': seq<Values>, fails: nat -> bool, c: nat)
    requires DeleteTrace(hash, v, key, h, h', fails, c)
    ensures OthersKept(hash, v, h', |h|, key)
  {
    hide Read, Within, OthersKept;
    WithinKeepsOthers(hash, v, h', |h|, key);
  }

  lemma WithinRefl(v: Values, key: string)
    ensures Within(v, v, key)
  {
  }

  /** After the call that removes the entry. */
  lemma RemovedEntry(hash: string -> string, v: Values, key: string, v1: Values, fails: nat -> bool, c: nat)
    requires !fails(c) && v1 == if fails(c + 1) then v else v - {key}
    ensures Read(hash, v1, key) == DeleteAnswer(Read(hash, v, key), ListedAt(v, key).Some?, fails, c, 2)
    ensures Within(v, v1, key)
  {
    hide Gather, IsAnySlot;
  }

  /** After `n` of the calls that remove the slots. */
  lemma RemovedSlots(hash: string -> string, v: Values, key: string, v1: Values, fails: nat -> bool, c: nat, n: nat)
    requires ListedAt(v, key).Some? && n <= ListedAt(v, key).value.chunkCount
    requires !fails(c) && v1 == if fails(c + 1) then v else v - {key}
    ensures var w := Removed(v1, key, ListedAt(v, key).value.generation, fails, c + 2, n);
            && Read(hash, w, key) == DeleteAnswer(Read(hash, v, key), true, fails, c, n + 2)
            && Within(v, w, key) && Lookup(w, key) == Lookup(v1, key)
  {
    hide Gather, Removed, ParseChunkManifest, IsAnySlot, SameOutside;
    var generation := ListedAt(v, key).value.generation;
    ListedIsGood(v, key);
    RemovedEntry(hash, v, key, v1, fails, c);
    RemovedTouches(v1, key, generation, fails, c + 2, n);
    SlotsAreWithin(v1, Removed(v1, key, generation, fails, c + 2, n), key, generation);
    WithinTrans(v, v1, Removed(v1, key, generation, fails, c + 2, n), key);
    RemovedFrame(v1, key, generation, fails, c + 2, n);
    if fails(c + 1) { RemovedReads(hash, v, key, fails, c + 2, n); }
  }

  /** How many calls the `Delete` makes. */
  function DeleteCalls(listed: Option<ChunkManifest>, fails: nat -> bool, c: nat): nat {
    if fails(c) then 1 else 2 + (if listed.Some? then listed.value.chunkCount else 0)
  }

  /** Whatever fails, at no moment is the answer other than the old one or none. */
  ghost predicate DeleteIsAtomic(hash: string -> string, v: Values, key: string) {
    forall fails: nat -> bool, c: nat, n: nat | 1 <= n <= DeleteCalls(ListedAt(v, key), fails, c) ::
      DeleteAnswer(Read(hash, v, key), ListedAt(v, key).Some?, fails, c, n) in {Read(hash, v, key), Absent}
  }

  /** Deleting is all or nothing exactly for keys that do not hold a readable chunked secret. */
  lemma DeleteIsAtomicIff(hash: string -> string, v: Values, key: string)
    ensures DeleteIsAtomic(hash, v, key) <==> !(ListedAt(v, key).Some? && Read(hash, v, key).Found?)
  {
    hide Gather, Trim;
    if ListedAt(v, key).Some? && Read(hash, v, key).Found? {
      var fails := (k: nat) => k == 1;
      assert !fails(2);
      assert Successful(fails, 2, 3);
      assert DeleteAnswer(Read(hash, v, key), true, fails, 0, 3) == Damaged;
      assert 3 <= DeleteCalls(ListedAt(v, key), fails, 0);
    }
  }

  // ---------------------------------------------------------- contents after writes

  /** The content after the first `n` chunks were written to their slots. */
  function Written(v: Values, key: string, generation: string, chunks: seq<string>, n: nat): Values
    requires n <= |chunks|
  {
    if n == 0 then v else Written(v, key, generation, chunks, n - 1)[ChunkAccount(key, generation, n - 1) := chunks[n - 1]]
  }

  /** `n` writes succeeded from call `c` on, the next one failed, and then each slot's removal was tried. */
  ghost predicate UndoneAt(v: Values, w: Values, key: string, generation: string, chunks: seq<string>, n: nat, fails: nat -> bool, c: nat) {
    && n <= |chunks| && !Faulty(fails, c, c + n) && fails(c + n)
    && w == Removed(Written(v, key, generation, chunks, n), key, generation, fails, c + n + 1, n)
  }

  /** The same for the chunks of some split of the secret. */
  ghost predicate Undone(v: Values, w: Values, key: string, secret: string, generation: string, fails: nat -> bool, c: nat) {
    exists chunks, n :: IsSplit(secret, chunks) && UndoneAt(v, w, key, generation, chunks, n, fails, c)
  }

  /** The content after a value of several slots was stored from call `c` on, and the previous one's slots were dropped. */
  ghost predicate ChunkedSet(hash: string -> string, v: Values, w: Values, key: string, secret: string, generation: string, fails: nat -> bool, c: nat) {
    exists chunks :: IsSplit(secret, chunks) && ChunkedSetAs(hash, v, w, key, secret, generation, chunks, fails, c)
  }

  ghost predicate ChunkedSetAs(hash: string -> string, v: Values, w: Values, key: string, secret: string, generation: string, chunks: seq<string>, fails: nat -> bool, c: nat) {
    var stored := Written(v, key, generation, chunks, |chunks|)[key := EncodeChunkManifest(ChunkManifest(generation, |chunks|, hash(secret)))];
    match ListedAt(v, key)
    case None => w == stored
    case Some(m) => w == Removed(stored, key, m.generation, fails, c + |chunks| + 1, m.chunkCount)
  }

  lemma {:induction false} WrittenSlots(v: Values, key: string, generation: string, chunks: seq<string>, n: nat)
    requires n <= |chunks|
    ensures forall i: nat :: i < n ==> Lookup(Written(v, key, generation, chunks, n), ChunkAccount(key, generation, i)) == Some(chunks[i])
    ensures forall x :: (forall i: nat :: i < n ==> x != ChunkAccount(key, generation, i)) ==>
              Lookup(Written(v, key, generation, chunks, n), x) == Lookup(v, x)
  {
    hide ChunkAccount;
    if n > 0 {
      WrittenSlots(v, key, generation, chunks, n - 1);
      SlotNamesDiffer(key, generation, n - 1);
    }
  }

  lemma {:induction false} RemovedSlotsOnly(v: Values, key: string, generation: string, fails: nat -> bool, c: nat, n: nat)
    ensures var w := Removed(v, key, generation, fails, c, n);
            && (forall i: nat :: i < n ==>
                  Lookup(w, ChunkAccount(key, generation, i)) == if fails(c + i) then Lookup(v, ChunkAccount(key, generation, i)) else None)
            && (forall x :: (forall i: nat :: i < n ==> x != ChunkAccount(key, generation, i)) ==> Lookup(w, x) == Lookup(v, x))
  {
    hide ChunkAccount;
    if n > 0 {
      RemovedSlotsOnly(v, key, generation, fails, c, n - 1);
      SlotNamesDiffer(key, generation, n - 1);
    }
  }

  /**
   What a failed write leaves: of the slots that were written exactly those whose
   removal failed, with their chunks, and everything else as it was.
   */
  lemma {:induction false} UndoneMeans(v: Values, w: Values, key: string, generation: string, chunks: seq<string>, n: nat, fails: nat -> bool, c: nat)
    requires UndoneAt(v, w, key, generation, chunks, n, fails, c)
    ensures forall i: nat :: i < n ==>
              Lookup(w, ChunkAccount(key, generation, i)) == if fails(c + n + 1 + i) then Some(chunks[i]) else None
    ensures forall x :: (forall i: nat :: i < n ==> x != ChunkAccount(key, generation, i)) ==> Lookup(w, x) == Lookup(v, x)
  {
    hide ChunkAccount, Removed, Written;
    WrittenSlots(v, key, generation, chunks, n);
    RemovedSlotsOnly(Written(v, key, generation, chunks, n), key, generation, fails, c + n + 1, n);
  }

  /** No slot of the generation is in use. */
  ghost predicate Unused(v: Values, key: string, generation: string) {
    forall i: nat :: ChunkAccount(key, generation, i) !in v
  }

  /** Only one of these calls failed. */
  ghost predicate OneFault(fails: nat -> bool, from: nat, to: nat) {
    forall j: nat :: from <= j < to && fails(j) ==> !Faulty(fails, j + 1, to)
  }

  /** If only the write itself failed and the generation is fresh, the content is what it was. */
  lemma {:induction false} UndoneCompletely(v: Values, w: Values, key: string, generation: string, chunks: seq<string>, n: nat, fails: nat -> bool, c: nat)
    requires UndoneAt(v, w, key, generation, chunks, n, fails, c) && Unused(v, key, generation)
    requires OneFault(fails, c, c + 2 * n + 1)
    ensures w == v
  {
    hide ChunkAccount, Removed, Written;
    UndoneMeans(v, w, key, generation, chunks, n, fails, c);
    forall i: nat | i < n ensures Lookup(w, ChunkAccount(key, generation, i)) == None {
      assert fails(c + n);
      assert !Faulty(fails, c + n + 1, c + 2 * n + 1);
    }
    forall x ensures Lookup(w, x) == Lookup(v, x) {
      if exists i: nat :: i < n && x == ChunkAccount(key, generation, i) {
        var i: nat :| i < n && x == ChunkAccount(key, generation, i);
      }
    }
    SameContent(v, w);
  }

  lemma {:induction false} NowChunked(hash: string -> string, v: Values, w: Values, key: string, secret: string, generation: string, chunks: seq<string>, fails: nat -> bool, c: nat)
    requires IsSplit(secret, chunks) && ChunkedSetAs(hash, v, w, key, secret, generation, chunks, fails, c)
    ensures ChunkedSet(hash, v, w, key, secret, generation, fails, c)
  {
  }

  lemma {:induction false} FailedAt(v: Values, w: Values, key: string, secret: string, generation: string, chunks: seq<string>, n: nat, fails: nat -> bool, c: nat)
    requires IsSplit(secret, chunks) && UndoneAt(v, w, key, generation, chunks, n, fails, c)
    ensures Undone(v, w, key, secret, generation, fails, c)
    ensures Faulty(fails, c, c + 2 * n + 1)
    ensures Unused(v, key, generation) && OneFault(fails, c, c + 2 * n + 1) ==> w == v
  {
    hide ChunkAccount, Removed, Written, IsSplit;
    if Unused(v, key, generation) && OneFault(fails, c, c + 2 * n + 1) {
      UndoneCompletely(v, w, key, generation, chunks, n, fails, c);
    }
  }

  lemma SameContent(v: Values, w: Values)
    requires forall x :: Lookup(w, x) == Lookup(v, x)
    ensures v == w
  {
    forall x ensures x in v <==> x in w { assert Lookup(v, x) == Lookup(w, x); }
    forall x | x in v ensures v[x] == w[x] { assert Lookup(v, x) == Lookup(w, x); }
  }

  lemma NoMoreFaults(fails: nat -> bool, c: nat, to: nat)
    requires c <= to && !Faulty(fails, c, to)
    ensures Faulty(fails, c, to + 1) <==> fails(to)
  {
  }

  lemma OnlyNothing(v: Values, h: seq<Values>, key: string, generation: string)
    ensures Only(v, h, |h|, key, generation)
  {
  }

  /** One write of a slot, or a failed one, stays within the generation. */
  lemma OneMoreWritten(v: Values, before: Values, h: seq<Values>, h0: nat, key: string, generation: string, i: nat, chunk: string, ok: bool)
    requires SameOutside(v, before, key, generation) && Only(v, h, h0, key, generation) && h0 <= |h|
    ensures var after := if ok then before[ChunkAccount(key, generation, i) := chunk] else before;
            SameOutside(v, after, key, generation) && Only(v, h + [after], h0, key, generation)
  {
    hide ChunkAccount;
    assert IsSlot(ChunkAccount(key, generation, i), key, generation);
  }

  // ----------------------------------------------------------------- the store

  datatype SetResult = Stored | TooLarge | BackendFailed

  /**
   Over the contents `h` the answer for `key` switches at most once, from `before`
   to `after`, and it does switch exactly when `switched`.
   */
  ghost predicate Switches(hash: string -> string, key: string, h: seq<Values>, before: Answer, after: Answer, switched: bool) {
    exists c :: 0 <= c <= |h| && (switched <==> c < |h|) && SwitchesAt(hash, key, h, before, after, c)
  }

  ghost predicate SwitchesAt(hash: string -> string, key: string, h: seq<Values>, before: Answer, after: Answer, c: int) {
    && (forall i :: 0 <= i < |h| && i < c ==> Read(hash, h[i], key) == before)
    && (forall i :: 0 <= i < |h| && c <= i ==> Read(hash, h[i], key) == after)
  }

  lemma SwitchedAt(hash: string -> string, key: string, h: seq<Values>, from: nat, c: nat, before: Answer, after: Answer)
    requires from <= c < |h|
    requires forall i :: from <= i < c ==> Read(hash, h[i], key) == before
    requires forall i :: c <= i < |h| ==> Read(hash, h[i], key) == after
    ensures Switches(hash, key, h[from..], before, after, true)
  {
    hide Read;
    assert SwitchesAt(hash, key, h[from..], before, after, c - from);
  }

  /** All contents of `h` from `from` on differ from `v` only in slots of one generation. */
  ghost predicate Only(v: Values, h: seq<Values>, from: nat, key: string, generation: string) {
    forall i :: 0 <= i < |h| && from <= i ==> SameOutside(v, h[i], key, generation)
  }

  class SystemKeyringStore {
    const backend: Backend
    const hash: string -> string

    ghost predicate Valid() {
      forall s :: HashText(hash(s)) && Lower(hash(s)) == hash(s)
    }

    constructor (backend: Backend, hash: string -> string)
      requires forall s :: HashText(hash(s)) && Lower(hash(s)) == hash(s)
      ensures Valid() && this.backend == backend && this.hash == hash
    {
      this.backend, this.hash := backend, hash;
    }

    /** Deletes the slots of a manifest, best effort; nothing else is touched. */
    method DeleteManifestChunks(key: string, manifest: ChunkManifest) returns (r: Result<(), ()>)
      modifies backend
      ensures old(backend.history) <= backend.history
      ensures Only(old(backend.values), backend.history, |old(backend.history)|, key, manifest.generation)
      ensures SameOutside(old(backend.values), backend.values, key, manifest.generation)
      ensures r.Ok? ==> forall i: nat :: i < manifest.chunkCount ==> ChunkAccount(key, manifest.generation, i) !in backend.values
      ensures Deleted(old(backend.values), old(backend.history), backend.history, key, manifest.generation,
                      backend.fails, old(backend.calls), manifest.chunkCount)
      ensures backend.values == Removed(old(backend.values), key, manifest.generation, backend.fails, old(backend.calls), manifest.chunkCount)
      ensures backend.calls == old(backend.calls) + manifest.chunkCount
      ensures r.Ok? <==> !Faulty(backend.fails, old(backend.calls), backend.calls)
      ensures old(backend.calls) <= backend.calls && (r.Err? ==> Faulty(backend.fails, old(backend.calls), backend.calls))
    {
      hide ChunkAccount, Only, SameOutside, Faulty, Removed;
      ghost var v, h, c := backend.values, backend.history, backend.calls;
      NothingDeleted(v, h, key, manifest.generation, backend.fails, c);
      r := Ok(());
      for index := 0 to manifest.chunkCount
        invariant backend.calls == c + index && (r.Err? <==> Faulty(backend.fails, c, c + index))
        invariant backend.values == Removed(v, key, manifest.generation, backend.fails, c, index)
        invariant Deleted(v, h, backend.history, key, manifest.generation, backend.fails, c, index)
      {
        OneMoreDeleted(v, key, manifest.generation, backend.fails, c, index);
        var d := backend.Delete(ChunkAccount(key, manifest.generation, index));
        if d.Err? { r := Err(()); }
      }
      DeletedFacts(v, h, backend.history, key, manifest.generation, backend.fails, c, manifest.chunkCount);
    }

    /** Undoes the slots written so far, in order, best effort. */
    method DeleteWritten(written: seq<string>, ghost key: string, ghost generation: string)
      requires forall i :: 0 <= i < |written| ==> written[i] == ChunkAccount(key, generation, i)
      modifies backend
      ensures old(backend.history) <= backend.history
      ensures Only(old(backend.values), backend.history, |old(backend.history)|, key, generation)
      ensures SameOutside(old(backend.values), backend.values, key, generation)
      ensures backend.values == Removed(old(backend.values), key, generation, backend.fails, old(backend.calls), |written|)
      ensures backend.calls == old(backend.calls) + |written|
    {
      hide ChunkAccount, Only, SameOutside, Faulty, Removed;
      ghost var v, h, c := backend.values, backend.history, backend.calls;
      NothingDeleted(v, h, key, generation, backend.fails, c);
      for i := 0 to |written|
        invariant backend.calls == c + i
        invariant backend.values == Removed(v, key, generation, backend.fails, c, i)
        invariant Deleted(v, h, backend.history, key, generation, backend.fails, c, i)
      {
        OneMoreDeleted(v, key, generation, backend.fails, c, i);
        var d := backend.Delete(written[i]);
      }
      DeletedFacts(v, h, backend.history, key, generation, backend.fails, c, |written|);
    }

    /**
     Writes the chunks of a fresh generation, or undoes what it wrote: a failed write
     leaves exactly the slots whose removal failed.
     */
    method WriteChunks(key: string, generation: string, chunks: seq<string>) returns (ok: bool, written: seq<string>)
      modifies backend
      ensures old(backend.history) <= backend.history
      ensures Only(old(backend.values), backend.history, |old(backend.history)|, key, generation)
      ensures SameOutside(old(backend.values), backend.values, key, generation)
      ensures ok ==> Holds(backend.values, key, generation, chunks, |chunks|) && |written| == |chunks|
      ensures forall i :: 0 <= i < |written| ==> written[i] == ChunkAccount(key, generation, i)
      ensures ok ==> backend.values == Written(old(backend.values), key, generation, chunks, |chunks|)
                     && backend.calls == old(backend.calls) + |chunks| && !Faulty(backend.fails, old(backend.calls), backend.calls)
      ensures !ok ==> |written| < |chunks|
                      && UndoneAt(old(backend.values), backend.values, key, generation, chunks, |written|, backend.fails, old(backend.calls))
                      && backend.calls == old(backend.calls) + 2 * |written| + 1
    {
      hide ChunkAccount, Removed, Only, SameOutside, Faulty;
      ghost var v, h, c := backend.values, backend.history, backend.calls;
      written, ok := [], true;
      SameOutsideRefl(v, key, generation);
      NothingDeleted(v, h, key, generation, backend.fails, c);
      OnlyNothing(v, h, key, generation);
      for index := 0 to |chunks|
        invariant backend.calls == c + index && !Faulty(backend.fails, c, c + index)
        invariant h <= backend.history && Only(v, backend.history, |h|, key, generation)
        invariant SameOutside(v, backend.values, key, generation)
        invariant Holds(backend.values, key, generation, chunks, index)
        invariant backend.values == Written(v, key, generation, chunks, index)
        invariant |written| == index && forall i :: 0 <= i < |written| ==> written[i] == ChunkAccount(key, generation, i)
      {
        var part := ChunkAccount(key, generation, index);
        SlotNamesDiffer(key, generation, index);
        ghost var before, past := backend.values, backend.history;
        NoMoreFaults(backend.fails, c, c + index);
        var stored := backend.Set(part, chunks[index]);
        OneMoreWritten(v, before, past, |h|, key, generation, index, chunks[index], stored.Ok?);
        if stored.Err? {
          DeleteWritten(written, key, generation);
          SameOutsideTrans(v, before, backend.values, key, generation);
          OnlyTrans(v, before, past + [before], backend.history, |h|, key, generation);
          ok := false;
          return;
        }
        written := written + [part];
      }
    }

    /**
     Replaces the value under `key`.  The generation is random in the source; it
     must differ from the generation now listed under `key`.
     */
    method Set(key: string, secret: string, generation: string) returns (r: SetResult)
      requires Valid() && GoodGeneration(generation)
      requires ListedAt(backend.values, key).Some? ==> ListedAt(backend.values, key).value.generation != generation
      modifies backend
      ensures old(backend.history) < backend.history
      ensures Storable(secret) || !r.Stored? ==>
                Switches(hash, key, backend.history[|old(backend.history)|..],
                         Read(hash, old(backend.values), key), Wanted(secret), r.Stored?)
      ensures Storable(secret) || !r.Stored? ==>
                Read(hash, backend.values, key) == if r.Stored? then Wanted(secret) else Read(hash, old(backend.values), key)
      ensures !backend.fails(old(backend.calls)) && Units(secret) > 65536 ==> r.TooLarge?
      ensures Units(secret) <= 65472 ==> !r.TooLarge?
      ensures r.Stored? && Units(secret) <= MAX_UNITS ==>
                ShortSet(old(backend.values), key, secret, old(backend.history), backend.history, backend.values,
                         backend.fails, old(backend.calls))
      ensures r.Stored? && Units(secret) <= MAX_UNITS ==> Lookup(backend.values, key) == Some(secret)
      ensures r.Stored? && Units(secret) <= MAX_UNITS && !Blank(secret) ==>
                (Read(hash, backend.values, key) == Found(secret) <==>
                   !(PREFIX <= secret) || ListsItself(hash, backend.values, key, secret))
      ensures OthersKept(hash, old(backend.values), backend.history, |old(backend.history)|, key)
      ensures r.BackendFailed? ==> Faulty(backend.fails, old(backend.calls), backend.calls)
      ensures r.Stored? && Units(secret) > MAX_UNITS ==>
                ChunkedSet(hash, old(backend.values), backend.values, key, secret, generation, backend.fails, old(backend.calls) + 1)
      ensures !r.Stored? ==>
                || backend.values == old(backend.values)
                || (r.BackendFailed? && Units(secret) > MAX_UNITS
                    && Undone(old(backend.values), backend.values, key, secret, generation, backend.fails, old(backend.calls) + 1))
      ensures !r.Stored? && Unused(old(backend.values), key, generation) && OneFault(backend.fails, old(backend.calls), backend.calls) ==>
                backend.values == old(backend.values)
    {
      hide Read, Units, ChunkAccount, EncodeChunkManifest, Wanted, Switches, IsSlot, Within, ListsItself, Blank, ShortSet,
        GoodGeneration, OthersKept, Undone, ChunkedSet, Unused;
      ghost var v0, h0 := backend.values, |backend.history|;
      var current := backend.Get(key);
      if current.Err? {
        Unswitched(hash, v0, backend.history, h0, key, generation, Wanted(secret));
        OnlyIsWithin(v0, backend.history, h0, key, generation);
        WithinKeepsOthers(hash, v0, backend.history, h0, key);
        return BackendFailed;
      }
      var previous := if current.value.None? then None
                      else match ParseChunkManifest(current.value.value) case Listed(m) => Some(m) case _ => None;
      assert previous == ListedAt(v0, key);
      if Units(secret) <= MAX_UNITS {
        r := SetShort(key, secret, generation, previous, old(backend.history), v0);
      } else {
        r := SetChunked(key, secret, generation, previous, h0, v0);
      }
      WithinKeepsOthers(hash, v0, backend.history, h0, key);
      if Units(secret) <= MAX_UNITS && r.Stored? && !Blank(secret) { ShortRoundTrip(hash, backend.values, key, secret); }
    }

    /** The part of `Set` for secrets that fit one entry. */
    method SetShort(key: string, secret: string, generation: string, previous: Option<ChunkManifest>, ghost h: seq<Values>, ghost v0: Values)
      returns (r: SetResult)
      requires Valid() && GoodGeneration(generation) && Units(secret) <= MAX_UNITS
      requires previous == ListedAt(v0, key) && (previous.Some? ==> previous.value.generation != generation)
      requires backend.history == h + [v0] && backend.values == v0 && backend.calls > 0
      modifies backend
      ensures old(backend.history) <= backend.history && !r.TooLarge?
      ensures Storable(secret) || !r.Stored? ==>
                && Switches(hash, key, backend.history[|h|..], Read(hash, v0, key), Wanted(secret), r.Stored?)
                && Read(hash, backend.values, key) == if r.Stored? then Wanted(secret) else Read(hash, v0, key)
      ensures r.Stored? ==> ShortSet(v0, key, secret, h, backend.history, backend.values, backend.fails, old(backend.calls) - 1)
      ensures r.Stored? ==> Lookup(backend.values, key) == Some(secret)
      ensures !r.Stored? ==> backend.values == v0
      ensures AllWithin(v0, backend.history, |h|, key)
      ensures old(backend.calls) <= backend.calls && (r.BackendFailed? ==> Faulty(backend.fails, old(backend.calls), backend.calls))
    {
      hide Read, Units, ChunkAccount, EncodeChunkManifest, Wanted, Switches, IsSlot, Within, Deleted, Removed, GoodGeneration, ListedAt;
      var stored := backend.Set(key, secret);
      if stored.Err? {
        OnlyIsWithin(v0, backend.history, |h|, key, generation);
        Unswitched(hash, v0, backend.history, |h|, key, generation, Wanted(secret));
        assert backend.fails(old(backend.calls));
        return BackendFailed;
      }
      WithinRefl(v0, key);
      EntryIsWithin(v0, v0, key, secret);
      assert backend.history == h + [v0, v0[key := secret]];
      var unused := ChunkManifest([], 0, []);
      CleanUp(key, secret, unused, [], previous, |h|, v0, generation);
      return Stored;
    }

    /** The part of `Set` for secrets that need more than one slot. */
    method SetChunked(key: string, secret: string, generation: string, previous: Option<ChunkManifest>, ghost h0: nat, ghost v0: Values)
      returns (r: SetResult)
      requires Valid() && GoodGeneration(generation) && Units(secret) > MAX_UNITS
      requires previous == ListedAt(v0, key) && (previous.Some? ==> previous.value.generation != generation)
      requires h0 < |backend.history| && Only(v0, backend.history, h0, key, generation)
      requires backend.values == v0
      modifies backend
      ensures old(backend.history) <= backend.history
      ensures Switches(hash, key, backend.history[h0..], Read(hash, v0, key), Wanted(secret), r.Stored?)
      ensures Read(hash, backend.values, key) == if r.Stored? then Wanted(secret) else Read(hash, v0, key)
      ensures Units(secret) > 65536 ==> r.TooLarge?
      ensures Units(secret) <= 65472 ==> !r.TooLarge?
      ensures AllWithin(v0, backend.history, h0, key)
      ensures old(backend.calls) <= backend.calls && (r.BackendFailed? ==> Faulty(backend.fails, old(backend.calls), backend.calls))
      ensures r.Stored? ==> ChunkedSet(hash, v0, backend.values, key, secret, generation, backend.fails, old(backend.calls))
      ensures r.BackendFailed? ==> Undone(v0, backend.values, key, secret, generation, backend.fails, old(backend.calls))
      ensures r.TooLarge? ==> backend.values == v0
      ensures !r.Stored? && Unused(v0, key, generation) && OneFault(backend.fails, old(backend.calls), backend.calls) ==> backend.values == v0
    {
      hide Read, Units, ChunkAccount, ListedAt, EncodeChunkManifest, Wanted, Switches, IsSlot, Lookup, Within, Removed, Written,
        Unused, OneFault, Faulty, Deleted, Undone, ChunkedSet, Only, SameOutside, AllWithin;
      ghost var c := backend.calls;
      var chunks := SplitSecretChunks(secret);
      SizeBound(secret, chunks);
      SameOutsideRefl(v0, key, generation);
      if |chunks| > MAX_CHUNKS {
        GivenUp(hash, v0, v0, backend.history, h0, key, generation, Wanted(secret));
        return TooLarge;
      }
      var manifest := ChunkManifest(generation, |chunks|, hash(secret));
      ghost var start := backend.history;
      var ok, written := WriteChunks(key, generation, chunks);
      OnlyTrans(v0, v0, start, backend.history, h0, key, generation);
      if !ok {
        GivenUp(hash, v0, backend.values, backend.history, h0, key, generation, Wanted(secret));
        FailedAt(v0, backend.values, key, secret, generation, chunks, |written|, backend.fails, c);
        return BackendFailed;
      }
      r := Commit(key, secret, manifest, chunks, written, previous, h0, v0);
      if r.Stored? {
        NowChunked(hash, v0, backend.values, key, secret, generation, chunks, backend.fails, c);
      } else {
        FailedAt(v0, backend.values, key, secret, generation, chunks, |chunks|, backend.fails, c);
      }
    }

    /** Stores the manifest of written slots, which commits them, or undoes them. */
    method Commit(key: string, secret: string, m: ChunkManifest, chunks: seq<string>, written: seq<string>, previous: Option<ChunkManifest>,
                  ghost h0: nat, ghost v0: Values)
      returns (r: SetResult)
      requires Valid() && GoodGeneration(m.generation) && Units(secret) > MAX_UNITS && IsSplit(secret, chunks) && 0 < |chunks| <= MAX_CHUNKS
      requires m == ChunkManifest(m.generation, |chunks|, hash(secret))
      requires previous == ListedAt(v0, key) && (previous.Some? ==> previous.value.generation != m.generation)
      requires h0 < |backend.history| && Only(v0, backend.history, h0, key, m.generation) && SameOutside(v0, backend.values, key, m.generation)
      requires Holds(backend.values, key, m.generation, chunks, |chunks|)
      requires |written| == |chunks| && forall i :: 0 <= i < |written| ==> written[i] == ChunkAccount(key, m.generation, i)
      requires backend.values == Written(v0, key, m.generation, chunks, |chunks|) && |chunks| <= backend.calls
      requires !Faulty(backend.fails, backend.calls - |chunks|, backend.calls)
      modifies backend
      ensures old(backend.history) <= backend.history && !r.TooLarge?
      ensures Switches(hash, key, backend.history[h0..], Read(hash, v0, key), Wanted(secret), r.Stored?)
      ensures Read(hash, backend.values, key) == if r.Stored? then Wanted(secret) else Read(hash, v0, key)
      ensures AllWithin(v0, backend.history, h0, key)
      ensures old(backend.calls) <= backend.calls
      ensures r.BackendFailed? ==>
                && backend.calls == old(backend.calls) + |chunks| + 1
                && UndoneAt(v0, backend.values, key, m.generation, chunks, |chunks|, backend.fails, old(backend.calls) - |chunks|)
      ensures r.Stored? ==> ChunkedSetAs(hash, v0, backend.values, key, secret, m.generation, chunks, backend.fails, old(backend.calls) - |chunks|)
    {
      hide Read, Units, ChunkAccount, ListedAt, EncodeChunkManifest, Wanted, Switches, IsSlot, Lookup, Within, Removed, Written,
        Faulty, Deleted, Only, SameOutside, AllWithin;
      ghost var v1, h1 := backend.values, backend.history;
      var stored := backend.Set(key, EncodeChunkManifest(m));
      if stored.Err? {
        DeleteWritten(written, key, m.generation);
        SameOutsideTrans(v0, v1, backend.values, key, m.generation);
        OnlySnoc(v0, v1, h1, h0, key, m.generation);
        OnlyTrans(v0, v1, h1 + [v1], backend.history, h0, key, m.generation);
        GivenUp(hash, v0, backend.values, backend.history, h0, key, m.generation, Wanted(secret));
        return BackendFailed;
      }
      SlotsAreWithin(v0, v1, key, m.generation);
      EntryIsWithin(v0, v1, key, EncodeChunkManifest(m));
      NowCommitted(hash, v1, key, secret, m, chunks);
      assert backend.history[..|backend.history| - 1] == h1;
      CleanUp(key, secret, m, chunks, previous, h0, v0, m.generation);
      return Stored;
    }

    /** After the commit: drop the previous generation; the new value stays readable. */
    method CleanUp(key: string, secret: string, m: ChunkManifest, chunks: seq<string>, previous: Option<ChunkManifest>,
                   ghost h0: nat, ghost v0: Values, ghost generation: string)
      requires h0 < |backend.history| && backend.history[|backend.history| - 1] == backend.values
      requires Only(v0, backend.history[..|backend.history| - 1], h0, key, generation)
      requires Committed(hash, backend.values, key, secret, m, chunks) && Within(v0, backend.values, key)
      requires GoodGeneration(generation) && previous == ListedAt(v0, key)
      requires Units(secret) > MAX_UNITS ==> m.generation == generation
      requires previous.Some? ==> previous.value.generation != generation
      modifies backend
      ensures old(backend.history) <= backend.history
      ensures Storable(secret) ==>
                Switches(hash, key, backend.history[h0..], Read(hash, v0, key), Wanted(secret), true)
      ensures Storable(secret) ==> Read(hash, backend.values, key) == Wanted(secret)
      ensures old(backend.calls) <= backend.calls
      ensures Lookup(backend.values, key) == Lookup(old(backend.values), key)
      ensures AllWithin(v0, backend.history, h0, key)
      ensures previous.None? ==> backend.history == old(backend.history) && backend.values == old(backend.values)
      ensures previous.Some? ==>
                && Deleted(old(backend.values), old(backend.history), backend.history, key, previous.value.generation,
                           backend.fails, old(backend.calls), previous.value.chunkCount)
                && backend.values == Removed(old(backend.values), key, previous.value.generation, backend.fails,
                                             old(backend.calls), previous.value.chunkCount)
    {
      hide Read, Wanted, Committed, Storable, Units, SameOutside, Within, Removed, ChunkAccount;
      ghost var commit := |backend.history| - 1;
      ghost var v1 := backend.values;
      ghost var dropped := if previous.Some? then previous.value.generation else "none";
      if previous.Some? {
        var d := DeleteManifestChunks(key, previous.value);
      }
      assert GoodGeneration(dropped);
      SameOutsideRefl(v1, key, dropped);
      SameEntry(v1, backend.values, key, dropped);
      OnlyIsWithin(v0, old(backend.history)[..commit], h0, key, generation);
      forall i | h0 <= i < |backend.history| ensures Within(v0, backend.history[i], key) {
        if i < commit {
          assert backend.history[i] == old(backend.history)[..commit][i];
        } else {
          assert SameOutside(v1, backend.history[i], key, dropped);
          SlotsAreWithin(v1, backend.history[i], key, dropped);
          WithinTrans(v0, v1, backend.history[i], key);
        }
      }
      if Storable(secret) {
        ghost var h := backend.history;
        forall i | commit <= i < |h| ensures Read(hash, h[i], key) == Wanted(secret) {
          assert SameOutside(v1, h[i], key, dropped);
          CommittedStays(hash, v1, h[i], key, secret, m, chunks, dropped, previous);
        }
        CommittedStays(hash, v1, backend.values, key, secret, m, chunks, dropped, previous);
        forall i | h0 <= i < commit ensures Read(hash, h[i], key) == Read(hash, v0, key) {
          assert h[i] == old(backend.history)[..commit][i];
          ForeignSlots(hash, v0, h[i], key, generation);
        }
        SwitchedAt(hash, key, h, h0, commit, Read(hash, v0, key), Wanted(secret));
      }
    }

    /**
     Removes the entry and its slots.  The answer after every backend call, and so
     what a fault schedule leaves, is given exactly; unrelated keys read the same
     throughout.
     */
    method Delete(key: string) returns (r: Result<(), ()>)
      modifies backend
      ensures backend.calls == old(backend.calls) + DeleteCalls(ListedAt(old(backend.values), key), backend.fails, old(backend.calls))
      ensures old(backend.history) <= backend.history
      ensures |backend.history| - |old(backend.history)| == backend.calls - old(backend.calls)
      ensures DeleteTrace(hash, old(backend.values), key, old(backend.history), backend.history, backend.fails, old(backend.calls))
      ensures Read(hash, backend.values, key)
           == DeleteAnswer(Read(hash, old(backend.values), key), ListedAt(old(backend.values), key).Some?,
                           backend.fails, old(backend.calls), backend.calls - old(backend.calls))
      ensures r.Ok? <==> !Faulty(backend.fails, old(backend.calls), backend.calls)
      ensures Lookup(backend.values, key)
           == if backend.fails(old(backend.calls)) || backend.fails(old(backend.calls) + 1) then Lookup(old(backend.values), key) else None
      ensures r.Ok? && ListedAt(old(backend.values), key).Some? ==>
                var m := ListedAt(old(backend.values), key).value;
                forall i: nat :: i < m.chunkCount ==> ChunkAccount(key, m.generation, i) !in backend.values
      ensures OthersKept(hash, old(backend.values), backend.history, |old(backend.history)|, key)
    {
      hide Read, ChunkAccount, Removed, Within, Only, SameOutside, DeleteTrace, OthersKept, ParseChunkManifest,
        Faulty, DeleteAnswer;
      ghost var v, h, c := backend.values, backend.history, backend.calls;
      var current := backend.Get(key);
      if current.Err? {
        TraceOfGet(hash, v, key, h, backend.fails, c);
        TwoCalls(backend.fails, c, c + 1);
        TraceKeepsOthers(hash, v, key, h, backend.history, backend.fails, c);
        return Err(());
      }
      var manifest := if current.value.None? then None
                      else match ParseChunkManifest(current.value.value) case Listed(m) => Some(m) case _ => None;
      assert manifest == ListedAt(v, key);
      r := backend.Delete(key);
      ghost var v1 := backend.values;
      TraceOfEntry(hash, v, key, v1, h, backend.fails, c);
      TwoCalls(backend.fails, c, backend.calls + if manifest.Some? then manifest.value.chunkCount else 0);
      if manifest.Some? {
        var d := DeleteManifestChunks(key, manifest.value);
        if d.Err? { r := Err(()); }
        TraceOfSlots(hash, v, key, v1, h, backend.history, backend.fails, c);
      }
      TraceKeepsOthers(hash, v, key, h, backend.history, backend.fails, c);
    }

    method Get(key: string) returns (r: Result<Answer, ()>)
      modifies backend`calls, backend`history
      ensures r.Ok? ==> r.value == Read(hash, backend.values, key)
      ensures r.Err? ==> Faulty(backend.fails, old(backend.calls), backend.calls)
    {
      var g := backend.Get(key);
      if g.Err? { return Err(()); }
      if g.value.None? { return Ok(Absent); }
      var stored := g.value.value;
      match ParseChunkManifest(stored)
      case Corrupted => return Ok(Damaged);
      case Plain => return Ok(if Trim(stored) == "" then Absent else Found(stored));
      case Listed(m) =>
        var secret := [];
        for index := 0 to m.chunkCount
          invariant backend.values == old(backend.values) && old(backend.calls) <= backend.calls
          invariant Gather(backend.values, key, m.generation, index) == Some(secret)
        {
          var part := backend.Get(ChunkAccount(key, m.generation, index));
          if part.Err? { return Err(()); }
          if part.value.None? {
            GatherMissing(backend.values, key, m.generation, index, m.chunkCount);
            return Ok(Damaged);
          }
          secret := secret + part.value.value;
        }
        return Ok(if hash(secret) == m.sha256 then Found(secret) else Damaged);
    }
  }

  lemma {:induction false} NowCommitted(hash: string -> string, v: Values, key: string, secret: string, m: ChunkManifest, chunks: seq<string>)
    requires Units(secret) > MAX_UNITS && GoodManifest(m) && m.sha256 == hash(secret)
    requires m.chunkCount == |chunks| && Concat(chunks) == secret && Holds(v, key, m.generation, chunks, |chunks|)
    ensures Committed(hash, v[key := EncodeChunkManifest(m)], key, secret, m, chunks)
  {
    forall i: nat ensures ChunkAccount(key, m.generation, i) != key {
      ChunkAccountIsNotAccount(key, m.generation, i);
    }
  }

  lemma SameOutsideTrans(u: Values, v: Values, w: Values, key: string, generation: string)
    requires SameOutside(u, v, key, generation) && SameOutside(v, w, key, generation)
    ensures SameOutside(u, w, key, generation)
  {
  }

  lemma OnlyTrans(u: Values, v: Values, h: seq<Values>, h': seq<Values>, h0: nat, key: string, generation: string)
    requires SameOutside(u, v, key, generation) && h <= h'
    requires Only(u, h, h0, key, generation) && Only(v, h', |h|, key, generation)
    ensures Only(u, h', h0, key, generation)
  {
    forall i | 0 <= i < |h'| && h0 <= i ensures SameOutside(u, h'[i], key, generation) {
      if i < |h| { assert h'[i] == h[i]; } else { SameOutsideTrans(u, v, h'[i], key, generation); }
    }
  }

  lemma SlotNamesDiffer(key: string, generation: string, n: nat)
    ensures forall i: nat :: i < n ==> ChunkAccount(key, generation, i) != ChunkAccount(key, generation, n)
  {
    forall i: nat | i < n ensures ChunkAccount(key, generation, i) != ChunkAccount(key, generation, n) {
      NumberOfDecimal(i);
      NumberOfDecimal(n);
      var stem := key + ":chunk:" + generation + ":";
      assert ChunkAccount(key, generation, i)[|stem|..] == Decimal(i);
      assert ChunkAccount(key, generation, n)[|stem|..] == Decimal(n);
    }
  }

  /** While only slots of the fresh generation change, the old answer stands. */
  lemma Unswitched(hash: string -> string, v0: Values, h: seq<Values>, h0: nat, key: string, generation: string, after: Answer)
    requires h0 <= |h| && Only(v0, h, h0, key, generation) && GoodGeneration(generation)
    requires ListedAt(v0, key).Some? ==> ListedAt(v0, key).value.generation != generation
    ensures Switches(hash, key, h[h0..], Read(hash, v0, key), after, false)
    ensures forall i :: h0 <= i < |h| ==> Read(hash, h[i], key) == Read(hash, v0, key)
  {
    forall i | h0 <= i < |h| ensures Read(hash, h[i], key) == Read(hash, v0, key) {
      ForeignSlots(hash, v0, h[i], key, generation);
    }
    var tail := h[h0..];
    assert forall i :: 0 <= i < |tail| ==> tail[i] == h[h0 + i];
    assert SwitchesAt(hash, key, tail, Read(hash, v0, key), after, |tail|);
  }

  lemma OnlySnoc(v: Values, w: Values, h: seq<Values>, h0: nat, key: string, generation: string)
    requires Only(v, h, h0, key, generation) && SameOutside(v, w, key, generation)
    ensures Only(v, h + [w], h0, key, generation)
  {
  }

  /** Giving up: nothing but slots of the fresh generation was touched, so all answers are the old ones. */
  lemma GivenUp(hash: string -> string, v0: Values, w: Values, h: seq<Values>, h0: nat, key: string, generation: string, after: Answer)
    requires h0 <= |h| && Only(v0, h, h0, key, generation) && SameOutside(v0, w, key, generation) && GoodGeneration(generation)
    requires ListedAt(v0, key).Some? ==> ListedAt(v0, key).value.generation != generation
    ensures Switches(hash, key, h[h0..], Read(hash, v0, key), after, false)
    ensures Read(hash, w, key) == Read(hash, v0, key) && AllWithin(v0, h, h0, key)
  {
    hide Read, ListedAt, Switches, Only, SameOutside, AllWithin;
    OnlyIsWithin(v0, h, h0, key, generation);
    Unswitched(hash, v0, h, h0, key, generation, after);
    ForeignSlots(hash, v0, w, key, generation);
  }

  lemma {:induction false} CommittedStays(hash: string -> string, v: Values, w: Values, key: string, secret: string,
                       m: ChunkManifest, chunks: seq<string>, generation: string, previous: Option<ChunkManifest>)
    requires Committed(hash, v, key, secret, m, chunks) && SameOutside(v, w, key, generation) && Storable(secret)
    requires GoodGeneration(generation)
    requires previous.Some? ==> Units(secret) > MAX_UNITS ==> generation != m.generation
    requires previous.None? ==> v == w
    ensures Read(hash, w, key) == Wanted(secret)
  {
    if previous.Some? { CommittedFrame(hash, v, w, key, secret, m, chunks, generation); }
    CommittedReads(hash, w, key, secret, m, chunks);
  }

  lemma {:induction false} GatherMissing(values: Values, key: string, generation: string, i: nat, n: nat)
    requires i < n && Lookup(values, ChunkAccount(key, generation, i)).None?
    ensures Gather(values, key, generation, n).None?
    decreases n
  {
    if i < n - 1 { GatherMissing(values, key, generation, i, n - 1); }
  }

  /** A run of `Set`: this secret is stored without any fault, and cannot be read back. */
  method StoreLookalike(values: Values, hash: string -> string, key: string, generation: string) returns (r: SetResult, left: Values)
    requires forall s :: HashText(hash(s)) && Lower(hash(s)) == hash(s)
    requires GoodGeneration(generation)
    requires ListedAt(values, key).Some? ==> ListedAt(values, key).value.generation != generation
    ensures r.Stored? && Lookup(left, key) == Some(PREFIX + "x") && Read(hash, left, key) == Damaged
  {
    hide Read, Switches, OthersKept, ListsItself;
    var backend := new Backend(values, (n: nat) => false);
    var store := new SystemKeyringStore(backend, hash);
    LookalikeFacts();
    r := store.Set(key, PREFIX + "x", generation);
    left := backend.values;
  }

  lemma LookalikeFacts()
    ensures var secret := PREFIX + "x";
            Units(secret) <= MAX_UNITS && Storable(secret) && Wanted(secret) == Damaged
  {
    var secret := PREFIX + "x";
    assert secret[|PREFIX|..] == "x";
    SplitColonNone("x");
    PrefixIsNotBlank(secret);
    UnitsBound(secret);
  }

  lemma {:induction false} UnitsBound(s: string)
    ensures Units(s) <= 2 * |s|
    decreases |s|
  {
    if s != [] { UnitsBound(s[..|s| - 1]); }
  }

  /**
   A run of `Delete` in which only the removal of the entry fails: a readable chunked
   secret is left damaged.
   */
  method DamageByDelete(values: Values, hash: string -> string, key: string) returns (r: Result<(), ()>, left: Values)
    requires forall s :: HashText(hash(s)) && Lower(hash(s)) == hash(s)
    requires ListedAt(values, key).Some? && Read(hash, values, key).Found?
    ensures r.Err? && Lookup(left, key) == Lookup(values, key) && Read(hash, left, key) == Damaged
  {
    hide Read, OthersKept, Removed;
    var backend := new Backend(values, (n: nat) => n == 1);
    var store := new SystemKeyringStore(backend, hash);
    r := store.Delete(key);
    left := backend.values;
    assert !backend.fails(2) && backend.fails(1);
    assert Successful(backend.fails, 2, backend.calls);
  }
}
