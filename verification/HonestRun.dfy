/**
 * A scheduled pass against an honest log: whatever the feed serves, the pass
 * never accuses the log, and never blames it for an event.
 */
module HonestRun {
  import opened Basics
  import opened Tree
  import opened Checkpoint
  import opened Server
  import opened History
  import opened HonestLog
  import opened Inclusion
  import opened Feed
  import opened Coalesce
  import opened FeedPass
  import opened FeedSound
  import Leaf

  /** A finding that holds the log itself to account for a proof. */
  predicate BlamesLog(r: Reason) {
    r in {NoProofServed, ProofRefused, WrongLeafProven, ReservedWithoutProof}
  }

  /** The log grew by two entries or more since the pass began. */
  ghost predicate Grew(newest: Growth, asked: seq<Request>) {
    newest(asked).size >= newest([]).size + 2
  }

  /** Every record of a success is of an entry the head covers. */
  ghost predicate Covers(size: nat, f: FeedState) {
    forall id <- f.done :: f.done[id].index.Some? && f.done[id].index.value < size
  }

  /** Only a copy with an index is verified again. */
  ghost predicate ReverifyingMet(p: Pass) {
    forall id <- p.reverifying :: id in p.seen && p.seen[id].ev.index.Some?
  }

  /** The history is the log's, and no finding, made or held back, blames it. */
  ghost predicate Fair(p: Pass, entries: seq<Bytes>, newest: Growth) {
    && Abreast(p.h, entries, newest) && Covers(p.h.latest.size, p.feed) && ReverifyingMet(p)
    && (forall f <- p.failed :: !BlamesLog(f.reason))
    && (forall id <- p.withdrawn :: !BlamesLog(p.withdrawn[id].reason))
  }

  /** A step that goes on fairly, or gives up on a log that grew meanwhile. */
  ghost predicate FairStep(st: PassStep, entries: seq<Bytes>, newest: Growth) {
    Fair(st.p, entries, newest) && (st.err.Some? ==> st.err == Some(LogAdvancing) && Grew(newest, st.p.h.asked))
  }

  /** A verdict that blames no log. */
  ghost predicate FairVerdict(h: History, h': History, v: Verdict, entries: seq<Bytes>, newest: Growth) {
    && KeptUp(h, h', entries, newest)
    && (v.Ok? && v.value.1.Some? ==> !BlamesLog(v.value.1.value.reason))
    && (v.Err? ==> v.error == LogAdvancing && Grew(newest, h'.asked))
  }

  lemma FairJudge(w: World, entries: seq<Bytes>, newest: Growth, h: History, id: Id, index: nat, leaves: seq<Hash>,
                  hashes: seq<Hash>, head: Checkpoint, rounds: nat)
    requires HonestWorld(w, entries, newest) && Abreast(h, entries, newest) && rounds == MAX_RELATE_ATTEMPTS
    requires PublishedBy(head, entries, newest(h.asked)) && head.raw.Some? && Verify(head.raw.value, w.origin) == Some(head)
    ensures var (h', v) := Judge(w, h, id, index, leaves, Proof(index, hashes, head.raw.value), false);
            FairVerdict(h, h', v, entries, newest) && (v.Ok? ==> v.value != (Pending, None))
  {
    NeverShrinks(w, entries, newest, [], h.asked);
    HonestRelate(w, entries, newest, h, head.raw.value, rounds);
  }

  lemma FairInclusion(w: World, entries: seq<Bytes>, newest: Growth, h: History, id: Id, index: nat, leaves: seq<Hash>)
    requires HonestWorld(w, entries, newest) && Abreast(h, entries, newest) && index < h.latest.size
    ensures var (h', v) := CheckInclusion(w, h, id, index, leaves);
            FairVerdict(h, h', v, entries, newest) && (v.Ok? ==> v.value != (Pending, None))
  {
    var h1, head := Ask(h, AskInclusion(index)), newest(h.asked);
    ProofServed(w, entries, newest, h.asked, index);
    NewestNow(w, entries, newest, h.asked);
    NeverShrinks(w, entries, newest, h.asked, h1.asked);
    FairJudge(w, entries, newest, h1, id, index, leaves, AuditPath(head.hash, head.size, index), head, MAX_RELATE_ATTEMPTS);
  }

  lemma FairEvent(w: World, entries: seq<Bytes>, newest: Growth, h: History, ev: Leaf.Event)
    requires HonestWorld(w, entries, newest) && Abreast(h, entries, newest)
    ensures var (h', v) := CheckEvent(w, h, ev);
            && FairVerdict(h, h', v, entries, newest)
            && (v == Ok((Pending, None)) ==> ev.index.Some? && ev.index.value >= h.latest.size)
            && (v.Ok? && v.value.0 == Verified ==> ev.index.Some? && ev.index.value < h.latest.size)
  {
    if Claim(w.org, h.latest.size, ev) == None {
      FairInclusion(w, entries, newest, h, ev.id, ev.index.value, Leaf.Hashes(ev));
    }
  }

  /** The head may move forward under a pass. */
  lemma FairAhead(p: Pass, h': History, entries: seq<Bytes>, newest: Growth)
    requires Fair(p, entries, newest) && KeptUp(p.h, h', entries, newest)
    ensures Fair(p.(h := h'), entries, newest)
  {}

  lemma FairSettle(entries: seq<Bytes>, newest: Growth, p: Pass, id: Id, oc: Outcome, failure: Option<EventFailure>, pe: PendingEvent,
                   ev: Option<Leaf.Event>, c: Clock)
    requires Fair(p, entries, newest) && (failure.Some? ==> !BlamesLog(failure.value.reason))
    requires failure == None && oc == Verified ==> pe.index < p.h.latest.size
    ensures Fair(Settle(p, id, oc, failure, pe, ev, c), entries, newest)
  {}

  lemma FairFail(entries: seq<Bytes>, newest: Growth, p: Pass, f: EventFailure, now: Time)
    requires Fair(p, entries, newest) && !BlamesLog(f.reason)
    ensures Fair(Fail(p, f, now), entries, newest)
  {}

  lemma FairExamine(w: World, entries: seq<Bytes>, newest: Growth, p: Pass, se: Served, c: Clock)
    requires HonestWorld(w, entries, newest) && Fair(p, entries, newest)
    requires se.ev.id in p.reverifying && se.ev.index.Some? ==> se.ev.index.value < p.h.latest.size
    ensures FairStep(Examine(w, p, se, c), entries, newest)
  {
    FairEvent(w, entries, newest, p.h, se.ev);
    var (h', v) := CheckEvent(w, p.h, se.ev);
    var p1 := p.(h := h');
    FairAhead(p, h', entries, newest);
    if v.Ok? {
      FairSettle(entries, newest, p1, se.ev.id, v.value.0, Downgraded(p1, se.ev, v.value), PendingOf(se.ev, se.created, c.now), Some(se.ev), c);
    }
  }

  /** Findings a page or a record makes of a copy blame no log. */
  ghost predicate FairCopies(ses: seq<Served>) {
    forall se <- ses :: se.conflict.Some? ==> !BlamesLog(se.conflict.value.reason)
  }

  lemma FairReverify(w: World, entries: seq<Bytes>, newest: Growth, p: Pass, se: Served, c: Clock)
    requires HonestWorld(w, entries, newest) && Fair(p, entries, newest)
    requires se.ev.id in p.feed.done && RecheckDone(p.feed.done[se.ev.id], se.ev) == Reverify
    requires se.ev.id in p.seen && p.seen[se.ev.id] == se
    ensures FairStep(Examine(w, Listed(p.(reverifying := p.reverifying + {se.ev.id}), se.ev.id), se, c), entries, newest)
  {
    FairExamine(w, entries, newest, Listed(p.(reverifying := p.reverifying + {se.ev.id}), se.ev.id), se, c);
  }

  lemma FairAdmit(w: World, entries: seq<Bytes>, newest: Growth, p: Pass, se: Served, c: Clock)
    requires HonestWorld(w, entries, newest) && Fair(p, entries, newest) && se.ev.id !in p.reverifying
    ensures FairStep(Admit(w, p, se, c), entries, newest)
  {
    var p1 := p.(seen := p.seen[se.ev.id := se]);
    assert Fair(p1, entries, newest);
    if se.ev.id in p.feed.done {
      match RecheckDone(p.feed.done[se.ev.id], se.ev)
      case Finding(f) => FairFail(entries, newest, p1, f, c.now);
      case Skip =>
      case Reverify => FairReverify(w, entries, newest, p1, se, c);
    } else {
      FairExamine(w, entries, newest, Listed(p1, se.ev.id), se, c);
    }
  }

  lemma FairProcess(w: World, entries: seq<Bytes>, newest: Growth, p: Pass, se: Served, c: Clock)
    requires HonestWorld(w, entries, newest) && Fair(p, entries, newest)
    requires se.conflict.Some? ==> !BlamesLog(se.conflict.value.reason)
    ensures FairStep(Process(w, p, se, c), entries, newest)
  {
    var p1 := p.(highWater := Raised(p.highWater, se.created, c.now));
    if se.conflict.Some? {
      FairFail(entries, newest, p1, se.conflict.value, c.now);
    } else {
      match RepeatOf(p1.seen, se.ev)
      case Contradicts(f) => FairFail(entries, newest, p1, f, c.now);
      case Repeated =>
      case Supersedes => FairAdmit(w, entries, newest, Retract(p1, se.ev.id), se, c);
      case First => FairAdmit(w, entries, newest, p1, se, c);
    }
  }

  lemma {:induction false} FairProcessAll(w: World, entries: seq<Bytes>, newest: Growth, p: Pass, ses: seq<Served>, c: Clock)
    requires HonestWorld(w, entries, newest) && Fair(p, entries, newest) && FairCopies(ses)
    ensures FairStep(ProcessAll(w, p, ses, c), entries, newest)
    decreases |ses|
  {
    if ses != [] {
      FairProcess(w, entries, newest, p, ses[0], c);
      if Process(w, p, ses[0], c).err.None? {
        FairProcessAll(w, entries, newest, Process(w, p, ses[0], c).p, ses[1..], c);
      }
    }
  }

  lemma {:induction false} FairFailAll(entries: seq<Bytes>, newest: Growth, p: Pass, fs: seq<EventFailure>, now: Time)
    requires Fair(p, entries, newest) && forall f <- fs :: !BlamesLog(f.reason)
    ensures Fair(FailAll(p, fs, now), entries, newest)
    decreases |fs|
  {
    if fs != [] {
      FairFail(entries, newest, p, fs[0], now);
      FairFailAll(entries, newest, Fail(p, fs[0], now), fs[1..], now);
    }
  }

  lemma {:induction false} FairUnparsed(rows: seq<Row>, parse: Reader)
    ensures forall f <- Unparsed(rows, parse) :: !BlamesLog(f.reason)
    ensures forall a <- Parsed(rows, parse) :: a.conflict == None
  {
    if rows != [] {
      FairUnparsed(rows[..|rows| - 1], parse);
    }
  }

  lemma {:induction false} FairCollapsed(copies: seq<Served>)
    requires forall a <- copies :: a.conflict == None
    ensures FairCopies(Collapsed(copies))
  {
    if copies != [] {
      var less, se := copies[..|copies| - 1], copies[|copies| - 1];
      FairCollapsed(less);
      assert se in copies;
    }
  }

  lemma FairRows(w: World, entries: seq<Bytes>, newest: Growth, s: Settings, c: Clock, p: Pass, rows: seq<Row>)
    requires HonestWorld(w, entries, newest) && Fair(p, entries, newest)
    ensures FairStep(ReadRows(w, s, c, p, rows), entries, newest)
  {
    FairUnparsed(rows, s.parse);
    FairCollapsed(Parsed(rows, s.parse));
    var p0 := p.(read := p.read + rows);
    FairFailAll(entries, newest, p0, Unparsed(rows, s.parse), c.now);
    FairProcessAll(w, entries, newest, FailAll(p0, Unparsed(rows, s.parse), c.now), Collapsed(Parsed(rows, s.parse)), c);
  }

  /** An error that accuses no log: a feed not answered or out of bounds, or a log that grew meanwhile. */
  ghost predicate FairEnd(e: RunError, newest: Growth, asked: seq<Request>) {
    e.LogError? ==> e.err.Unavailable? || (e.err == LogAdvancing && Grew(newest, asked))
  }

  ghost predicate FairPage(st: PageStep, entries: seq<Bytes>, newest: Growth) {
    Fair(st.r.p, entries, newest) && (st.Stop? && st.end.Broken? ==> FairEnd(st.end.err, newest, st.r.p.h.asked))
  }

  lemma FairTaken(w: World, entries: seq<Bytes>, newest: Growth, s: Settings, c: Clock, r: Reading,
                  rows: seq<Row>, hasMore: bool, lastId: Id)
    requires HonestWorld(w, entries, newest) && Fair(r.p, entries, newest)
    ensures FairPage(TakePage(w, s, c, r, rows, hasMore, lastId), entries, newest)
  {
    FairRows(w, entries, newest, s, c, r.p, rows);
  }

  lemma FairAsked(w: World, entries: seq<Bytes>, newest: Growth, p: Pass, req: Request)
    requires HonestWorld(w, entries, newest) && Fair(p, entries, newest)
    ensures Fair(p.(h := Ask(p.h, req)), entries, newest)
  {
    NeverShrinks(w, entries, newest, p.h.asked, p.h.asked + [req]);
  }

  lemma FairReadPage(w: World, entries: seq<Bytes>, newest: Growth, s: Settings, c: Clock, r: Reading)
    requires HonestWorld(w, entries, newest) && Fair(r.p, entries, newest)
    ensures FairPage(ReadPage(w, s, c, r), entries, newest)
  {
    var req := Query(r.p.feed, OrDefault(s.overlap, DEFAULT_OVERLAP), r.after);
    var r1 := r.(p := r.p.(h := Ask(r.p.h, req)));
    var a := w.server(r.p.h.asked, req);
    FairAsked(w, entries, newest, r.p, req);
    PageCases(w, s, c, r, r1);
    if a.PageAnswer? && ReadPage(w, s, c, r) == TakePage(w, s, c, r1, a.rows, a.hasMore, a.lastId) {
      FairTaken(w, entries, newest, s, c, r1, a.rows, a.hasMore, a.lastId);
    }
  }

  lemma {:induction false} FairReadFeed(w: World, entries: seq<Bytes>, newest: Growth, s: Settings, c: Clock, r: Reading)
    requires HonestWorld(w, entries, newest) && Fair(r.p, entries, newest) && Bounded(r)
    ensures var (r', end) := ReadFeed(w, s, c, r);
            Fair(r'.p, entries, newest) && (end.Broken? ==> FairEnd(end.err, newest, r'.p.h.asked))
    decreases 2 * MAX_FEED_PAGES - TotalUses(r.cursors)
  {
    FairReadPage(w, entries, newest, s, c, r);
    if ReadPage(w, s, c, r).Continue? {
      ContinuingUsesACursor(w, s, c, r);
      FairReadFeed(w, entries, newest, s, c, ReadPage(w, s, c, r).r);
    }
  }

  lemma FairRecheck1(w: World, entries: seq<Bytes>, newest: Growth, p: Pass, id: Id, c: Clock)
    requires HonestWorld(w, entries, newest) && Fair(p, entries, newest)
    ensures FairStep(Recheck1(w, p, id, c), entries, newest)
  {
    if id !in p.listed && id in p.feed.pending {
      var pe := p.feed.pending[id];
      if pe.index < p.h.latest.size {
        FairInclusion(w, entries, newest, p.h, id, pe.index, PendingHashes(pe));
        var (h', v) := CheckInclusion(w, p.h, id, pe.index, PendingHashes(pe));
        FairAhead(p, h', entries, newest);
        if v.Ok? {
          FairSettle(entries, newest, p.(h := h'), id, v.value.0, v.value.1, pe, None, c);
        }
      } else {
        FairSettle(entries, newest, p, id, Pending, None, pe, None, c);
      }
    }
  }

  lemma {:induction false} FairRecheckAll(w: World, entries: seq<Bytes>, newest: Growth, p: Pass, ids: seq<Id>, c: Clock)
    requires HonestWorld(w, entries, newest) && Fair(p, entries, newest)
    ensures FairStep(RecheckAll(w, p, ids, c), entries, newest)
    decreases |ids|
  {
    if ids != [] {
      FairRecheck1(w, entries, newest, p, ids[0], c);
      if Recheck1(w, p, ids[0], c).err.None? {
        FairRecheckAll(w, entries, newest, Recheck1(w, p, ids[0], c).p, ids[1..], c);
      }
    }
  }

  lemma {:induction false} FairRetractAll(entries: seq<Bytes>, newest: Growth, p: Pass, ids: seq<Id>)
    requires Fair(p, entries, newest)
    ensures Fair(RetractAll(p, ids), entries, newest) && RetractAll(p, ids).h == p.h
    decreases |ids|
  {
    if ids != [] {
      FairRetractAll(entries, newest, Retract(p, ids[0]), ids[1..]);
    }
  }

  lemma {:induction false} FairFailWithdrawn(entries: seq<Bytes>, newest: Growth, p: Pass, ids: seq<Id>, now: Time)
    requires Fair(p, entries, newest)
    ensures Fair(FailWithdrawn(p, ids, now), entries, newest) && FailWithdrawn(p, ids, now).h == p.h
    decreases |ids|
  {
    if ids != [] {
      var id := ids[0];
      if id !in p.withdrawn || (id in p.seen && p.seen[id].ev.index.Some?) {
        FairFailWithdrawn(entries, newest, p, ids[1..], now);
      } else {
        FairFail(entries, newest, Retract(p, id), p.withdrawn[id], now);
        FairFailWithdrawn(entries, newest, Fail(Retract(p, id), p.withdrawn[id], now), ids[1..], now);
      }
    }
  }

  /** What an honest log's pass ends in: no accusation as its error, and none among its findings. */
  ghost predicate FairResult(r: RunResult, newest: Growth, asked: seq<Request>) {
    && (r.err.Some? ==> FairEnd(r.err.value, newest, asked))
    && (r.pass.Some? ==> forall f <- r.pass.value.failed :: !BlamesLog(f.reason))
  }

  lemma FairWithdrawals(entries: seq<Bytes>, newest: Growth, s: Settings, c: Clock, p: Pass, complete: bool)
    requires Fair(p, entries, newest)
    ensures Fair(Withdrawals(s, c, p, complete).0, entries, newest) && Withdrawals(s, c, p, complete).0.h == p.h
  {
    FairRetractAll(entries, newest, p, s.sorted(p.withdrawn.Keys));
    var p1 := if complete then p else RetractAll(p, s.sorted(p.withdrawn.Keys));
    FairFailWithdrawn(entries, newest, p1, s.sorted(p1.withdrawn.Keys), c.now);
  }

  lemma FairRechecked(w: World, entries: seq<Bytes>, newest: Growth, s: Settings, c: Clock, p: Pass, broken: Option<RunError>)
    requires HonestWorld(w, entries, newest) && Fair(p, entries, newest)
    requires broken.Some? ==> FairEnd(broken.value, newest, p.h.asked)
    ensures var (p1, b) := Rechecked(w, s, c, p, broken);
            Fair(p1, entries, newest) && (b.Some? ==> FairEnd(b.value, newest, p1.h.asked))
  {
    FairRecheckAll(w, entries, newest, p, s.sorted(p.feed.pending.Keys), c);
  }

  lemma FairWork(w: World, entries: seq<Bytes>, newest: Growth, s: Settings, now: Time, h: History, feed: FeedState)
    requires HonestWorld(w, entries, newest) && Abreast(h, entries, newest) && Covers(h.latest.size, feed)
    ensures var r := Pass1(w, s, now, h, feed); r.pass.Some? && FairResult(r, newest, r.pass.value.h.asked)
  {
    var c := ClockOf(s, now);
    FairReadFeed(w, entries, newest, s, c, Begin(h, feed));
    var (r, end) := ReadFeed(w, s, c, Begin(h, feed));
    FairRechecked(w, entries, newest, s, c, r.p, BrokenBy(end));
    var (p1, broken) := Rechecked(w, s, c, r.p, BrokenBy(end));
    FairWithdrawals(entries, newest, s, c, p1, end == Complete);
    var (p2, deferred) := Withdrawals(s, c, p1, end == Complete);
    FairClose(entries, newest, s, c, p2, end == Truncated, broken, deferred);
  }

  lemma FairClose(entries: seq<Bytes>, newest: Growth, s: Settings, c: Clock, p: Pass, truncated: bool, broken: Option<RunError>, deferred: bool)
    requires Fair(p, entries, newest) && (broken.Some? ==> FairEnd(broken.value, newest, p.h.asked))
    ensures var r := Close(s, c, p, truncated, broken, deferred);
            r.pass.Some? && r.pass.value.h == p.h && FairResult(r, newest, p.h.asked)
  {}

  /** Whatever earlier passes recorded as done lies below the anchor they left. */
  lemma RecordsAreCovered(origin: Bytes, all: EventSet, state: State, size: nat)
    requires StateOk(origin, all, state)
    requires Anchor(origin, state).Some? ==> Anchor(origin, state).value.size <= size
    ensures Covers(size, state.feed)
  {
    if Anchor(origin, state).Some? {
      var head := Anchor(origin, state).value;
      forall id <- state.feed.done ensures state.feed.done[id].index.Some? && state.feed.done[id].index.value < size {
        assert DoneOk(all, head, id, state.feed.done[id]);
      }
    }
  }

  lemma SavedIsAnchor(w: World, state: State)
    ensures SavedCheckpoint(w, Some(state.anchor)).Some? && SavedCheckpoint(w, Some(state.anchor)).value.Ok? <==> Anchor(w.origin, state).Some?
    ensures Anchor(w.origin, state).Some? ==> SavedCheckpoint(w, Some(state.anchor)).value.value == Anchor(w.origin, state).value
  {}

  /**
   * An honest log is never accused, however it grows while the pass runs:
   * whatever its feed serves and whatever checkpoints of it are kept, the pass
   * ends in no error of the log's but a feed request that is not answered, or
   * a log that grew by two entries or more meanwhile, and it finds no event
   * the log would not prove.
   */
  lemma HonestLogIsNeverAccused(w: World, entries: seq<Bytes>, newest: Growth, s: Settings, now: Time,
                                baselines: seq<Checkpoint>, state: State, all: EventSet)
    requires HonestWorld(w, entries, newest) && AnchorOnLog(w, Some(state.anchor), entries, newest([]))
    requires forall b <- baselines :: PublishedBy(b, entries, newest([]))
    requires StateOk(w.origin, all, state)
    ensures var r := RunOnce(w, s, now, baselines, state);
            FairResult(r, newest, if r.pass.Some? then r.pass.value.h.asked else Tried(w, Some(state.anchor), baselines))
  {
    HonestStart(w, entries, newest, Some(state.anchor), baselines);
    var start := Start(w, Some(state.anchor), baselines);
    if start.Started? {
      SavedIsAnchor(w, state);
      RecordsAreCovered(w.origin, all, state, start.h.latest.size);
      FairWork(w, entries, newest, s, now, start.h, state.feed);
    }
  }

  /** A pass over a log that stands still starts, and nothing but its feed can stop it. */
  lemma StillLogIsNeverAccused(w: World, entries: seq<Bytes>, newest: Checkpoint, s: Settings, now: Time,
                               baselines: seq<Checkpoint>, state: State, all: EventSet)
    requires StillWorld(w, entries, newest) && AnchorOnLog(w, Some(state.anchor), entries, newest)
    requires forall b <- baselines :: CheckpointOf(b, entries)
    requires StateOk(w.origin, all, state)
    ensures Start(w, Some(state.anchor), baselines).Started?
    ensures var r := RunOnce(w, s, now, baselines, state);
            && (r.err.Some? && r.err.value.LogError? ==> r.err.value.err.Unavailable?)
            && (r.pass.Some? ==> forall f <- r.pass.value.failed :: !BlamesLog(f.reason))
  {
    StillStart(w, entries, newest, Some(state.anchor), baselines);
    HonestLogIsNeverAccused(w, entries, Still(newest), s, now, baselines, state, all);
  }
}
