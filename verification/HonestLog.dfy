/**
 * The other direction: a log that only appends and answers every request from
 * its newest tree is never accused, however it grows between requests and
 * however far its checkpoint endpoint lags behind.
 */
module HonestLog {
  import opened Basics
  import opened Tree
  import opened Checkpoint
  import opened Server
  import opened History

  /** The log's newest checkpoint when the next request is answered. */
  type Growth = seq<Request> -> Checkpoint

  // A log is spoken of at the moments that a lemma marks: unfolded at every
  // request in sight, these relations would cost more than they help.

  ghost predicate Moment(asked: seq<Request>) {
    true
  }

  /** At every moment the newest checkpoint is signed and covers the first entries; it only grows. */
  ghost predicate Publishes(w: World, entries: seq<Bytes>, newest: Growth) {
    && |entries| <= HALF_UINT64
    && (forall asked {:trigger Moment(asked)} :: Moment(asked) ==>
          && newest(asked).raw.Some? && Verify(newest(asked).raw.value, w.origin) == Some(newest(asked))
          && CheckpointOf(newest(asked), entries))
    && (forall asked, more {:trigger Moment(asked), Moment(more)} :: Moment(asked) && Moment(more) && asked <= more ==>
          newest(asked).size <= newest(more).size)
  }

  /** Every consistency request from a size the log has is answered truly. */
  ghost predicate AnswersConsistency(w: World, newest: Growth) {
    forall asked: seq<Request>, from: nat {:trigger w.server(asked, AskConsistency(from))} :: 0 < from <= newest(asked).size ==>
      && Prefix(newest(asked).hash, newest(asked).size, from).Some? && newest(asked).raw.Some?
      && w.server(asked, AskConsistency(from)) ==
           ProofAnswer(0, ConsistencyPath(newest(asked).hash, newest(asked).size, from, true), newest(asked).raw.value)
  }

  /** Every inclusion request is answered truly, or with 404 past the end. */
  ghost predicate AnswersInclusion(w: World, newest: Growth) {
    forall asked: seq<Request>, i: nat ::
      var cp := newest(asked);
      w.server(asked, AskInclusion(i)) ==
        if i < cp.size && cp.raw.Some? && LeafAt(cp.hash, cp.size, i).Some? then
          ProofAnswer(i, AuditPath(cp.hash, cp.size, i), cp.raw.value)
        else StatusAnswer(404)
  }

  ghost predicate Honest(w: World, entries: seq<Bytes>, newest: Growth) {
    Publishes(w, entries, newest) && AnswersConsistency(w, newest)
  }

  /** Everything a history holds is a prefix of the log. */
  ghost predicate OnLog(h: History, entries: seq<Bytes>) {
    && CheckpointOf(h.latest, entries)
    && h.latest.size in h.bySize
    && forall n <- h.bySize :: n <= h.latest.size && CheckpointOf(Checkpoint(n, h.bySize[n], None), entries)
  }

  /** And was published by now. */
  ghost predicate Abreast(h: History, entries: seq<Bytes>, newest: Growth) {
    OnLog(h, entries) && h.latest.size <= newest(h.asked).size
  }

  /** A step that kept to the log, and took nothing back. */
  ghost predicate KeptUp(h: History, h': History, entries: seq<Bytes>, newest: Growth) {
    && Abreast(h', entries, newest) && h.latest.size <= h'.latest.size
    && h.asked <= h'.asked && newest(h.asked).size <= newest(h'.asked).size
  }

  lemma KeptUpTransitive(a: History, b: History, c: History, entries: seq<Bytes>, newest: Growth)
    requires KeptUp(a, b, entries, newest) && KeptUp(b, c, entries, newest)
    ensures KeptUp(a, c, entries, newest)
  {}

  /** Later the newest checkpoint is no smaller. */
  lemma NeverShrinks(w: World, entries: seq<Bytes>, newest: Growth, asked: seq<Request>, more: seq<Request>)
    requires Publishes(w, entries, newest) && asked <= more
    ensures newest(asked).size <= newest(more).size
  {
    assert Moment(asked) && Moment(more);
  }

  lemma NewestNow(w: World, entries: seq<Bytes>, newest: Growth, asked: seq<Request>)
    requires Publishes(w, entries, newest)
    ensures newest(asked).raw.Some? && Verify(newest(asked).raw.value, w.origin) == Some(newest(asked))
    ensures CheckpointOf(newest(asked), entries)
  {
    assert Moment(asked);
  }

  lemma OnLogNoFork(h: History, entries: seq<Bytes>, cp: Checkpoint)
    requires OnLog(h, entries) && CheckpointOf(cp, entries)
    ensures ForkCheck(h, cp) == None
  {}

  lemma HonestConsistencyFrom(w: World, entries: seq<Bytes>, newest: Growth, h: History, from: Checkpoint)
    requires Honest(w, entries, newest) && Abreast(h, entries, newest)
    requires CheckpointOf(from, entries) && 0 < from.size <= newest(h.asked).size
    ensures var (h1, r) := ConsistencyFrom(w, h, from.size);
            && h1 == Ask(h, AskConsistency(from.size)) && KeptUp(h, h1, entries, newest)
            && r.Ok? && r.value.1 == newest(h.asked)
            && VerifyConsistency(from, newest(h.asked), r.value.0)
  {
    NewestNow(w, entries, newest, h.asked);
    assert w.server(h.asked, AskConsistency(from.size)).ProofAnswer?;
    OnLogNoFork(Ask(h, AskConsistency(from.size)), entries, newest(h.asked));
    NeverShrinks(w, entries, newest, h.asked, h.asked + [AskConsistency(from.size)]);
    HonestConsistency(entries, from, newest(h.asked));
  }

  /** One advance reaches the newest tree, or the target of an empty history. */
  lemma HonestAdvance(w: World, entries: seq<Bytes>, newest: Growth, h: History, target: Checkpoint)
    requires Honest(w, entries, newest) && Abreast(h, entries, newest)
    requires CheckpointOf(target, entries) && h.latest.size < target.size <= newest(h.asked).size
    ensures var st := Advance(w, h, target);
            && st.err == None && KeptUp(h, st.h, entries, newest)
            && st.h.latest == (if h.latest.size == 0 then target else newest(h.asked))
  {
    if h.latest.size > 0 {
      HonestConsistencyFrom(w, entries, newest, h, h.latest);
      var (h1, r) := ConsistencyFrom(w, h, h.latest.size);
      NewestNow(w, entries, newest, h.asked);
      OnLogNoFork(SetLatest(h1, newest(h.asked)), entries, target);
    }
  }

  /** Two checkpoints of the log of one size are one tree. */
  lemma OneTree(entries: seq<Bytes>, a: Checkpoint, b: Checkpoint)
    requires CheckpointOf(a, entries) && CheckpointOf(b, entries) && a.size == b.size
    ensures SameTree(a, b)
  {}

  /** A proof in hand is used, unless the log grew since it was served. */
  lemma HonestUseProof(w: World, entries: seq<Bytes>, newest: Growth, h: History, cp: Checkpoint, head: Checkpoint, hashes: seq<Hash>)
    requires Honest(w, entries, newest) && Abreast(h, entries, newest)
    requires CheckpointOf(cp, entries) && 0 < cp.size < h.latest.size <= head.size <= newest(h.asked).size
    requires CheckpointOf(head, entries) && VerifyConsistency(cp, head, hashes)
    ensures var st := UseProof(w, h, cp, head, hashes);
            && st.err == None && KeptUp(h, st.h, entries, newest)
            && (cp.size in st.h.bySize || newest(st.h.asked).size > head.size)
  {
    var st := if head.size > h.latest.size then Advance(w, h, head) else Step(h, None);
    if head.size > h.latest.size {
      HonestAdvance(w, entries, newest, h, head);
    }
    if st.h.latest.size == head.size {
      OneTree(entries, head, st.h.latest);
    }
  }

  /** A prefix is proven in one round, unless the log grows in it. */
  lemma HonestProvePrefix(w: World, entries: seq<Bytes>, newest: Growth, h: History, cp: Checkpoint)
    requires Honest(w, entries, newest) && Abreast(h, entries, newest)
    requires CheckpointOf(cp, entries) && cp.size < h.latest.size
    ensures var st := ProvePrefix(w, h, cp);
            && st.err == None && KeptUp(h, st.h, entries, newest)
            && (cp.size in st.h.bySize || newest(st.h.asked).size > newest(h.asked).size)
  {
    if cp.size > 0 {
      HonestConsistencyFrom(w, entries, newest, h, cp);
      var (h1, r) := ConsistencyFrom(w, h, cp.size);
      NewestNow(w, entries, newest, h.asked);
      HonestUseProof(w, entries, newest, h1, cp, r.value.1, r.value.0);
    }
  }

  /** What linking comes to: success, or, only if the log grew at least this much, giving up. */
  ghost predicate LinksUnless(h: History, st: Step, cp: Checkpoint, entries: seq<Bytes>, newest: Growth, growth: int) {
    && KeptUp(h, st.h, entries, newest)
    && (st.err == None ==> cp.size in st.h.bySize)
    && (st.err.Some? ==> st.err == Some(LogAdvancing) && newest(st.h.asked).size >= newest(h.asked).size + growth)
  }

  /** A first round, and what linking comes to after it. */
  lemma LinksAfter(h: History, h1: History, st: Step, cp: Checkpoint, entries: seq<Bytes>, newest: Growth, growth: int, more: int)
    requires KeptUp(h, h1, entries, newest) && LinksUnless(h1, st, cp, entries, newest, growth)
    requires newest(h1.asked).size >= newest(h.asked).size + more || st.err == None
    ensures LinksUnless(h, st, cp, entries, newest, growth + more)
  {}

  lemma HonestLinked(w: World, entries: seq<Bytes>, h: History, cp: Checkpoint, rounds: nat)
    requires OnLog(h, entries) && CheckpointOf(cp, entries) && cp.size in h.bySize
    ensures LinksTo(w, h, cp, rounds, Step(h, None))
  {
    OnLogNoFork(h, entries, cp);
    LinkedAlready(w, h, cp, rounds);
  }

  /** A checkpoint the head covers is linked, unless the log grows in every round. */
  lemma {:induction false} HonestLinkBehind(w: World, entries: seq<Bytes>, newest: Growth, h: History, cp: Checkpoint, rounds: nat)
    returns (st: Step)
    requires Honest(w, entries, newest) && Abreast(h, entries, newest)
    requires CheckpointOf(cp, entries) && cp.size <= h.latest.size
    ensures LinksTo(w, h, cp, rounds, st) && LinksUnless(h, st, cp, entries, newest, rounds)
    decreases rounds
  {
    OnLogNoFork(h, entries, cp);
    if cp.size in h.bySize {
      st := Step(h, None);
      HonestLinked(w, entries, h, cp, rounds);
    } else if rounds == 0 {
      st := Step(h, Some(LogAdvancing));
      NoRoundLeft(w, h, cp);
    } else {
      HonestProvePrefix(w, entries, newest, h, cp);
      var h1 := ProvePrefix(w, h, cp).h;
      if cp.size in h1.bySize {
        st := Step(h1, None);
        HonestLinked(w, entries, h1, cp, rounds - 1);
      } else {
        st := HonestLinkBehind(w, entries, newest, h1, cp, rounds - 1);
        LinksAfter(h, h1, st, cp, entries, newest, rounds - 1, 1);
      }
      LinkRound(w, h, h1, cp, rounds, st);
    }
  }

  /** A checkpoint ahead of the head costs one round more. */
  lemma HonestLinkAhead(w: World, entries: seq<Bytes>, newest: Growth, h: History, cp: Checkpoint, rounds: nat)
    returns (st: Step)
    requires Honest(w, entries, newest) && Abreast(h, entries, newest)
    requires CheckpointOf(cp, entries) && h.latest.size < cp.size <= newest(h.asked).size && rounds > 0
    ensures LinksTo(w, h, cp, rounds, st) && LinksUnless(h, st, cp, entries, newest, rounds - 1)
  {
    OnLogNoFork(h, entries, cp);
    HonestAdvance(w, entries, newest, h, cp);
    var h1 := Advance(w, h, cp).h;
    st := HonestLinkBehind(w, entries, newest, h1, cp, rounds - 1);
    LinksAfter(h, h1, st, cp, entries, newest, rounds - 1, 0);
    LinkRound(w, h, h1, cp, rounds, st);
  }

  /**
   * An honest log is never accused in linking one of its checkpoints. At worst
   * the pass gives up, and only if the log grew by as many entries as there
   * were rounds, but one.
   */
  lemma HonestLink(w: World, entries: seq<Bytes>, newest: Growth, h: History, cp: Checkpoint, rounds: nat)
    requires Honest(w, entries, newest) && Abreast(h, entries, newest)
    requires CheckpointOf(cp, entries) && cp.size <= newest(h.asked).size
    ensures LinksUnless(h, Link(w, h, cp, rounds), cp, entries, newest, rounds - 1)
  {
    var st := Step(h, Some(LogAdvancing));
    if cp.size <= h.latest.size {
      st := HonestLinkBehind(w, entries, newest, h, cp, rounds);
    } else if rounds > 0 {
      st := HonestLinkAhead(w, entries, newest, h, cp, rounds);
    } else {
      NoRoundLeft(w, h, cp);
    }
    LinksToIsLink(w, h, cp, rounds, st);
  }

  /** A checkpoint served beside a proof is tied in, or the log grew meanwhile. */
  lemma HonestRelate(w: World, entries: seq<Bytes>, newest: Growth, h: History, note: Note, rounds: nat)
    requires Honest(w, entries, newest) && Abreast(h, entries, newest) && rounds == MAX_RELATE_ATTEMPTS
    requires Verify(note, w.origin).Some? && CheckpointOf(Verify(note, w.origin).value, entries)
    requires Verify(note, w.origin).value.size <= newest(h.asked).size
    ensures var (h', r) := Relate(w, h, note);
            && KeptUp(h, h', entries, newest)
            && (r.Ok? ==> r.value == Verify(note, w.origin).value && r.value.size <= h'.latest.size)
            && (r.Err? ==> r.error == LogAdvancing && newest(h'.asked).size >= newest(h.asked).size + rounds - 1)
  {
    HonestLink(w, entries, newest, h, Verify(note, w.origin).value, rounds);
  }

  // ---------------------------------------------------------------------
  // Starting a pass
  // ---------------------------------------------------------------------

  /** The checkpoint endpoint serves some published checkpoint of the log, perhaps an old one. */
  ghost predicate ServesCheckpoints(w: World, entries: seq<Bytes>, newest: Growth) {
    forall asked: seq<Request> :: ServesCheckpoint(w, entries, newest(asked), w.server(asked, AskCheckpoint))
  }

  ghost predicate ServesCheckpoint(w: World, entries: seq<Bytes>, newest: Checkpoint, a: Answer) {
    a.NoteAnswer? && Verify(a.note, w.origin).Some? && PublishedBy(Verify(a.note, w.origin).value, entries, newest)
  }

  ghost predicate PublishedBy(cp: Checkpoint, entries: seq<Bytes>, newest: Checkpoint) {
    CheckpointOf(cp, entries) && cp.size <= newest.size
  }

  lemma HonestPastServed(entries: seq<Bytes>, h: History, kept: Checkpoint, head: Checkpoint)
    requires OnLog(h, entries) && CheckpointOf(head, entries)
    requires CheckpointOf(kept, entries) && h.latest.size < kept.size <= head.size
    ensures OnLog(PastServed(h, kept, head), entries) && PastServed(h, kept, head).asked == h.asked
    ensures PastServed(h, kept, head).latest == head
  {}

  /** Linking leaves nothing to classify. */
  lemma LinksAreClassified(h: History, st: Step, cp: Checkpoint, older: Checkpoint, entries: seq<Bytes>, newest: Growth, growth: int)
    requires LinksUnless(h, st, cp, entries, newest, growth)
    ensures Classified(st, older) == st
  {}

  /** What proving a kept checkpoint comes to against an honest log. */
  ghost predicate ProvesUnless(h: History, st: Step, kept: Checkpoint, entries: seq<Bytes>, newest: Growth, growth: int) {
    && KeptUp(h, st.h, entries, newest)
    && (st.err == None ==> kept.size <= st.h.latest.size)
    && (st.err.Some? ==> st.err == Some(LogAdvancing) && newest(st.h.asked).size >= newest(h.asked).size + growth)
  }

  lemma HonestRelink(w: World, entries: seq<Bytes>, newest: Growth, h: History, kept: Checkpoint, head: Checkpoint, rounds: nat)
    requires Honest(w, entries, newest) && Abreast(h, entries, newest)
    requires CheckpointOf(kept, entries) && CheckpointOf(head, entries) && h.latest.size < kept.size <= head.size <= newest(h.asked).size
    ensures ProvesUnless(h, Classified(Link(w, PastServed(h, kept, head), h.latest, rounds), h.latest), kept, entries, newest, rounds - 1)
  {
    var h1 := PastServed(h, kept, head);
    HonestPastServed(entries, h, kept, head);
    HonestLink(w, entries, newest, h1, h.latest, rounds);
    LinksAreClassified(h1, Link(w, h1, h.latest, rounds), h.latest, h.latest, entries, newest, rounds - 1);
  }

  lemma HonestProveAppendOnly(w: World, entries: seq<Bytes>, newest: Growth, h: History, kept: Checkpoint, rounds: nat)
    requires Honest(w, entries, newest) && Abreast(h, entries, newest) && rounds == MAX_RELATE_ATTEMPTS
    requires PublishedBy(kept, entries, newest(h.asked))
    ensures ProvesUnless(h, ProveAppendOnly(w, h, kept), kept, entries, newest, rounds - 1)
  {
    if kept.size > h.latest.size {
      HonestConsistencyFrom(w, entries, newest, h, kept);
      var (h1, r) := ConsistencyFrom(w, h, kept.size);
      NewestNow(w, entries, newest, h.asked);
      HonestRelink(w, entries, newest, h1, kept, newest(h.asked), rounds);
    } else {
      HonestLink(w, entries, newest, h, kept, rounds);
      LinksAreClassified(h, Link(w, h, kept, rounds), kept, kept, entries, newest, rounds - 1);
    }
  }

  /** Every kept checkpoint is proven, or the log grew by two entries or more while one was. */
  lemma {:induction false} HonestProveAll(w: World, entries: seq<Bytes>, newest: Growth, h: History, kept: seq<Checkpoint>)
    requires Honest(w, entries, newest) && Abreast(h, entries, newest)
    requires forall k <- kept :: PublishedBy(k, entries, newest(h.asked))
    ensures var st := ProveAll(w, h, kept);
            && KeptUp(h, st.h, entries, newest)
            && (st.err == None ==> forall k <- kept :: k.size <= st.h.latest.size)
            && (st.err.Some? ==> st.err == Some(LogAdvancing) && newest(st.h.asked).size >= newest(h.asked).size + 2)
    decreases |kept|
  {
    if kept != [] {
      HonestProveAppendOnly(w, entries, newest, h, kept[0], MAX_RELATE_ATTEMPTS);
      var st := ProveAppendOnly(w, h, kept[0]);
      if st.err == None {
        forall k <- kept[1..] ensures PublishedBy(k, entries, newest(st.h.asked)) {
          assert k in kept;
        }
        HonestProveAll(w, entries, newest, st.h, kept[1..]);
        KeptUpTransitive(h, st.h, ProveAll(w, st.h, kept[1..]).h, entries, newest);
        assert forall k <- kept :: k == kept[0] || k in kept[1..];
      }
    }
  }

  ghost predicate HonestWorld(w: World, entries: seq<Bytes>, newest: Growth) {
    && Honest(w, entries, newest) && AnswersInclusion(w, newest) && ServesCheckpoints(w, entries, newest)
  }

  /** A proof is served for every entry the newest tree holds. */
  lemma ProofServed(w: World, entries: seq<Bytes>, newest: Growth, asked: seq<Request>, i: nat)
    requires HonestWorld(w, entries, newest) && i < newest(asked).size
    ensures var cp := newest(asked);
            && i < |entries| && cp.raw.Some? && LeafAt(cp.hash, cp.size, i) == Some(Leaf(entries[i]))
            && w.server(asked, AskInclusion(i)) == ProofAnswer(i, AuditPath(cp.hash, cp.size, i), cp.raw.value)
            && VerifyInclusion(cp, i, Leaf(entries[i]), AuditPath(cp.hash, cp.size, i))
  {
    NewestNow(w, entries, newest, asked);
    HonestInclusion(entries, newest(asked), i);
  }

  /** The anchor, if there is one, is a checkpoint this log published before the pass. */
  ghost predicate AnchorOnLog(w: World, saved: Option<Option<Note>>, entries: seq<Bytes>, newest: Checkpoint) {
    var anchor := SavedCheckpoint(w, saved);
    anchor.Some? ==> anchor.value.Ok? && PublishedBy(anchor.value.value, entries, newest)
  }

  /** How a pass begins: on the log and past its anchor, or, only if the log grew by two entries or more, not at all. */
  ghost predicate StartsUnless(w: World, entries: seq<Bytes>, newest: Growth, saved: Option<Option<Note>>, start: Started, asked: seq<Request>) {
    match start
    case Started(h) =>
      Abreast(h, entries, newest)
      && (SavedCheckpoint(w, saved).Some? ==> SavedCheckpoint(w, saved).value.Ok? && SavedCheckpoint(w, saved).value.value.size <= h.latest.size)
    case NotStarted(e) => e == LogAdvancing && newest(asked).size >= newest([]).size + 2
  }

  /**
   * An honest log is never refused: the pass starts, whatever checkpoints of
   * it are kept, unless the log grows by two entries or more while one is linked.
   */
  lemma HonestStart(w: World, entries: seq<Bytes>, newest: Growth, saved: Option<Option<Note>>, baselines: seq<Checkpoint>)
    requires Honest(w, entries, newest) && ServesCheckpoints(w, entries, newest)
    requires AnchorOnLog(w, saved, entries, newest([])) && forall b <- baselines :: PublishedBy(b, entries, newest([]))
    ensures StartsUnless(w, entries, newest, saved, Start(w, saved, baselines), Tried(w, saved, baselines))
  {
    var a := w.server([], AskCheckpoint);
    assert ServesCheckpoint(w, entries, newest([]), a);
    var cp := Verify(a.note, w.origin).value;
    var anchor := SavedCheckpoint(w, saved);
    var kept := if anchor.Some? then [anchor.value.value] + baselines else baselines;
    HonestOpening(w, entries, newest, cp, a.note, saved, kept);
    StartIsProving(w, saved, baselines, cp, a.note, kept);
    if anchor.Some? { assert anchor.value.value in kept; }
  }

  /** Everything kept is proven from the first checkpoint served. */
  lemma HonestOpening(w: World, entries: seq<Bytes>, newest: Growth, cp: Checkpoint, note: Note, saved: Option<Option<Note>>, kept: seq<Checkpoint>)
    requires Honest(w, entries, newest) && PublishedBy(cp, entries, newest([]))
    requires forall k <- kept :: PublishedBy(k, entries, newest([]))
    ensures var st := ProveAll(w, Opened(cp, note, saved), kept);
            && Abreast(st.h, entries, newest)
            && (st.err == None ==> forall k <- kept :: k.size <= st.h.latest.size)
            && (st.err.Some? ==> st.err == Some(LogAdvancing) && newest(st.h.asked).size >= newest([]).size + 2)
  {
    var h := Opened(cp, note, saved);
    NeverShrinks(w, entries, newest, [], h.asked);
    HonestProveAll(w, entries, newest, h, kept);
  }

  // ---------------------------------------------------------------------
  // A log that stands still
  // ---------------------------------------------------------------------

  /** The newest checkpoint of a log that does not grow during the pass. */
  function Still(newest: Checkpoint): Growth {
    asked => newest
  }

  /** An honest log whose newest tree, of all its entries, stays the newest. */
  ghost predicate StillWorld(w: World, entries: seq<Bytes>, newest: Checkpoint) {
    HonestWorld(w, entries, Still(newest)) && newest.size == |entries|
  }

  lemma StillNewest(w: World, entries: seq<Bytes>, newest: Checkpoint)
    requires StillWorld(w, entries, newest)
    ensures newest.raw.Some? && Verify(newest.raw.value, w.origin) == Some(newest) && newest.size <= HALF_UINT64
    ensures CheckpointOf(newest, entries)
  {
    NewestNow(w, entries, Still(newest), []);
  }

  /** Such a log has every checkpoint of it tied in. */
  lemma StillRelate(w: World, entries: seq<Bytes>, newest: Checkpoint, h: History, note: Note, rounds: nat)
    requires StillWorld(w, entries, newest) && OnLog(h, entries) && rounds == MAX_RELATE_ATTEMPTS
    requires Verify(note, w.origin).Some? && CheckpointOf(Verify(note, w.origin).value, entries)
    ensures var (h', r) := Relate(w, h, note);
            && r == Ok(Verify(note, w.origin).value) && OnLog(h', entries)
            && r.value.size <= h'.latest.size <= |entries|
  {
    HonestRelate(w, entries, Still(newest), h, note, rounds);
  }

  /** And no pass over it fails to start. */
  lemma StillStart(w: World, entries: seq<Bytes>, newest: Checkpoint, saved: Option<Option<Note>>, baselines: seq<Checkpoint>)
    requires StillWorld(w, entries, newest)
    requires AnchorOnLog(w, saved, entries, newest) && forall b <- baselines :: CheckpointOf(b, entries)
    ensures Start(w, saved, baselines).Started? && OnLog(Start(w, saved, baselines).h, entries)
  {
    HonestStart(w, entries, Still(newest), saved, baselines);
  }
}
