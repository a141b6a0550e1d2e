/**
 * Copies of an event without an index, on any pages of a feed that is read to
 * its end: two logs whose feeds differ in nothing else leave a pass with the
 * same report and the same records.
 */
module FeedCopies {
  import opened Basics
  import opened Checkpoint
  import opened Server
  import opened History
  import opened Inclusion
  import opened Feed
  import opened Coalesce
  import opened FeedPass
  import opened FeedKeeps
  import opened FeedOrder
  import opened FeedOutcome
  import opened NullCopies
  import opened PageCopies
  import opened SameLog

  // ---------------------------------------------------------------------
  // Feeds that differ in one id's copies without an index
  // ---------------------------------------------------------------------

  /** The same page but for entries of this id that claim no position; all its copies are of the pinned organization. */
  ghost predicate PagesAlike(w: World, parse: Reader, id: Id, a: Answer, b: Answer) {
    if a.PageAnswer? then
      && b.PageAnswer? && b.hasMore == a.hasMore && b.lastId == a.lastId
      && Unparsed(b.rows, parse) == Unparsed(a.rows, parse)
      && Collapsed(Parsed(b.rows, parse)) == Strip(w, Collapsed(Parsed(a.rows, parse)), id)
      && (forall se <- Collapsed(Parsed(a.rows, parse)) :: se.ev.id == id ==> se.ev.organization == w.org)
    else b == a
  }

  ghost predicate FeedsAlike(w: World, v: World, parse: Reader, id: Id) {
    forall asked: seq<Request>, req: Request {:trigger v.server(asked, req)} ::
      req.AskActivities? ==> PagesAlike(w, parse, id, w.server(asked, req), v.server(asked, req))
  }

  lemma CollapsedOwn(org: Text, parse: Reader, id: Id, rows: seq<Row>)
    requires forall se <- Parsed(rows, parse) :: se.ev.id == id ==> se.ev.organization == org
    ensures forall se <- Collapsed(Parsed(rows, parse)) :: se.ev.id == id ==> se.ev.organization == org
  {
    ParsedRead(parse, rows);
    var copies := Parsed(rows, parse);
    CollapsedSummarizes(copies);
    forall se <- Collapsed(copies) | se.ev.id == id ensures se.ev.organization == org {
      assert Sums(se, copies);
      var a :| IsCopy(copies, a, se.ev.id) && a.ev == se.ev;
      assert a in copies;
    }
  }

  /**
   * Dropping the rows of an id's copies without an index gives such a page
   * exactly when those before its first copy with an index leave that one's
   * place and time alone.
   */
  lemma DroppingRowsIsAlike(w: World, parse: Reader, id: Id, rows: seq<Row>, hasMore: bool, lastId: Id)
    requires forall se <- Parsed(rows, parse) :: se.ev.id == id ==> se.ev.organization == w.org
    ensures PagesAlike(w, parse, id, PageAnswer(rows, hasMore, lastId), PageAnswer(WithoutNull(rows, parse, id), hasMore, lastId))
        <==> Undisturbed(Parsed(rows, parse), id)
  {
    ParsedRead(parse, rows);
    ParsedWithoutNull(rows, parse, id);
    CollapsedOwn(w.org, parse, id, rows);
    DroppedExactly(w, Parsed(rows, parse), id);
  }

  // ---------------------------------------------------------------------
  // One page
  // ---------------------------------------------------------------------

  lemma AlikeAside(p: Pass, q: Pass, id: Id, rows: seq<Row>, more: seq<Row>)
    requires Alike(p, q, id)
    ensures Alike(p.(read := rows), q.(read := more), id)
  {}

  lemma AlikeAsked(p: Pass, q: Pass, id: Id, h: History)
    requires Alike(p, q, id)
    ensures Alike(p.(h := h), q.(h := h), id)
  {}

  lemma AlikeFail(p: Pass, q: Pass, id: Id, f: EventFailure, now: Time)
    requires Alike(p, q, id)
    ensures Alike(Fail(p, f, now), Fail(q, f, now), id)
  {
    if Twin(p, q, id) {
      TwinFail(p, q, id, f, now);
    }
  }

  lemma {:induction false} AlikeFailAll(p: Pass, q: Pass, id: Id, fs: seq<EventFailure>, now: Time)
    requires Alike(p, q, id)
    ensures Alike(FailAll(p, fs, now), FailAll(q, fs, now), id)
    decreases |fs|
  {
    if fs != [] {
      AlikeFail(p, q, id, fs[0], now);
      AlikeFailAll(Fail(p, fs[0], now), Fail(q, fs[0], now), id, fs[1..], now);
    }
  }

  lemma FailedInOrder(f0: FeedState, c: Clock, p: Pass, rows: seq<Row>, fs: seq<EventFailure>)
    requires InOrder(f0, c, p, {})
    ensures InOrder(f0, c, FailAll(p.(read := rows), fs, c.now), {})
  {
    MarkAside(f0, c, p, p.highWater, rows);
    FailAllKeeps(f0, c, p.(read := rows), fs);
  }

  /** The rows of two such pages leave passes alike. */
  lemma AlikeRows(w: World, v: World, s: Settings, f0: FeedState, c: Clock, p: Pass, q: Pass, a: Answer, b: Answer, id: Id)
    requires SameButFeed(w, v) && a.PageAnswer? && PagesAlike(w, s.parse, id, a, b)
    requires Alike(p, q, id) && InOrder(f0, c, p, {}) && InOrder(f0, c, q, {})
    ensures var x, y := ReadRows(w, s, c, p, a.rows), ReadRows(v, s, c, q, b.rows);
            x.err == y.err && Alike(x.p, y.p, id)
  {
    var fs, ses := Unparsed(a.rows, s.parse), Collapsed(Parsed(a.rows, s.parse));
    AlikeAside(p, q, id, p.read + a.rows, q.read + b.rows);
    AlikeFailAll(p.(read := p.read + a.rows), q.(read := q.read + b.rows), id, fs, c.now);
    FailedInOrder(f0, c, p, p.read + a.rows, fs);
    FailedInOrder(f0, c, q, q.read + b.rows, fs);
    CollapsedRead(s.parse, a.rows);
    var p1 := FailAll(p.(read := p.read + a.rows), fs, c.now);
    var q1 := FailAll(q.(read := q.read + b.rows), fs, c.now);
    NullCopiesDoNotMatter(w, f0, c, p1, q1, ses, id);
    LogProcessAll(w, v, q1, Strip(w, ses, id), c);
  }

  /** Two readings at the same place, with passes alike. */
  ghost predicate ReadingsAlike(r: Reading, q: Reading, id: Id) {
    q.cursors == r.cursors && q.after == r.after && q.page == r.page && Alike(r.p, q.p, id)
  }

  /** Both go on from the same place, or, if both ended the feed, with passes alike. */
  ghost predicate StepsAlike(a: PageStep, b: PageStep, id: Id) {
    && (a.Continue? && b.Continue? ==> ReadingsAlike(a.r, b.r, id))
    && (a.Stop? && a.end == Complete ==> b.Stop?)
    && (b.Stop? && b.end == Complete ==> a.Stop?)
    && (a.Stop? && b.Stop? && a.end == Complete && b.end == Complete ==> Alike(a.r.p, b.r.p, id))
  }

  lemma TurnsAlike(r: Reading, q: Reading, err: Option<Err>, hasMore: bool, lastId: Id, news: bool, news': bool, id: Id)
    requires ReadingsAlike(r, q, id)
    ensures StepsAlike(Turn(r, err, hasMore, lastId, news), Turn(q, err, hasMore, lastId, news'), id)
  {}

  lemma TakenAlike(w: World, v: World, s: Settings, f0: FeedState, c: Clock, r: Reading, q: Reading, a: Answer, b: Answer, id: Id)
    requires SameButFeed(w, v) && a.PageAnswer? && PagesAlike(w, s.parse, id, a, b)
    requires ReadingsAlike(r, q, id) && InOrder(f0, c, r.p, {}) && InOrder(f0, c, q.p, {})
    ensures StepsAlike(TakePage(w, s, c, r, a.rows, a.hasMore, a.lastId), TakePage(v, s, c, q, b.rows, b.hasMore, b.lastId), id)
  {
    AlikeRows(w, v, s, f0, c, r.p, q.p, a, b, id);
    var r1, news := TakenIsTurned(w, s, c, r, a.rows, a.hasMore, a.lastId);
    var q1, news' := TakenIsTurned(v, s, c, q, b.rows, b.hasMore, b.lastId);
    TurnsAlike(r1, q1, ReadRows(w, s, c, r.p, a.rows).err, a.hasMore, a.lastId, news, news', id);
  }

  lemma AlikeIsAt(p: Pass, q: Pass, id: Id)
    requires Alike(p, q, id)
    ensures q.h == p.h && q.feed == p.feed
  {}

  /** The same request is made from both readings, and what comes of it is alike. */
  lemma PageStepsAlike(w: World, v: World, s: Settings, f0: FeedState, c: Clock, r: Reading, q: Reading, id: Id)
    requires SameButFeed(w, v) && FeedsAlike(w, v, s.parse, id)
    requires ReadingsAlike(r, q, id) && Caught(f0, s.parse, c, r.p) && Caught(f0, s.parse, c, q.p)
    ensures StepsAlike(ReadPage(w, s, c, r), ReadPage(v, s, c, q), id)
  {
    AlikeIsAt(r.p, q.p, id);
    var req := Query(r.p.feed, OrDefault(s.overlap, DEFAULT_OVERLAP), r.after);
    var h := Ask(r.p.h, req);
    var r1, q1 := r.(p := r.p.(h := h)), q.(p := q.p.(h := h));
    var a, b := w.server(r.p.h.asked, req), v.server(q.p.h.asked, req);
    assert PagesAlike(w, s.parse, id, a, b);
    PageCases(w, s, c, r, r1);
    PageCases(v, s, c, q, q1);
    if a.PageAnswer? {
      AlikeAsked(r.p, q.p, id, h);
      AskAside(f0, s.parse, c, r.p, h);
      AskAside(f0, s.parse, c, q.p, h);
      TakenAlike(w, v, s, f0, c, r1, q1, a, b, id);
    }
  }

  // ---------------------------------------------------------------------
  // A whole feed
  // ---------------------------------------------------------------------

  lemma {:induction false} FeedReadAlike(w: World, v: World, s: Settings, f0: FeedState, c: Clock, r: Reading, q: Reading, id: Id)
    requires SameButFeed(w, v) && FeedsAlike(w, v, s.parse, id)
    requires Bounded(r) && Bounded(q) && ReadingsAlike(r, q, id)
    requires Caught(f0, s.parse, c, r.p) && Caught(f0, s.parse, c, q.p)
    requires ReadFeed(w, s, c, r).1 == Complete && ReadFeed(v, s, c, q).1 == Complete
    ensures Alike(ReadFeed(w, s, c, r).0.p, ReadFeed(v, s, c, q).0.p, id)
    decreases 2 * MAX_FEED_PAGES - TotalUses(r.cursors)
  {
    PageStepsAlike(w, v, s, f0, c, r, q, id);
    var a, b := ReadPage(w, s, c, r), ReadPage(v, s, c, q);
    if a.Continue? && b.Continue? {
      ReadPageKeeps(w, s, f0, c, r);
      ReadPageKeeps(v, s, f0, c, q);
      ContinuingUsesACursor(w, s, c, r);
      ContinuingUsesACursor(v, s, c, q);
      FeedReadAlike(w, v, s, f0, c, a.r, b.r, id);
    }
  }

  // ---------------------------------------------------------------------
  // After the feed
  // ---------------------------------------------------------------------

  lemma SameRecheck1(w: World, p: Pass, q: Pass, id: Id, c: Clock)
    requires Same(p, q)
    ensures SameSteps(Recheck1(w, p, id, c), Recheck1(w, q, id, c))
  {}

  lemma {:induction false} SameRecheckAll(w: World, p: Pass, q: Pass, ids: seq<Id>, c: Clock)
    requires Same(p, q)
    ensures SameSteps(RecheckAll(w, p, ids, c), RecheckAll(w, q, ids, c))
    decreases |ids|
  {
    if ids != [] {
      SameRecheck1(w, p, q, ids[0], c);
      var a, b := Recheck1(w, p, ids[0], c), Recheck1(w, q, ids[0], c);
      if a.err.None? {
        SameRecheckAll(w, a.p, b.p, ids[1..], c);
      }
    }
  }

  lemma {:induction false} SameFailWithdrawn(p: Pass, q: Pass, ids: seq<Id>, now: Time)
    requires Same(p, q)
    ensures Same(FailWithdrawn(p, ids, now), FailWithdrawn(q, ids, now))
    decreases |ids|
  {
    if ids != [] {
      var id := ids[0];
      if id !in p.withdrawn || (id in p.seen && p.seen[id].ev.index.Some?) {
        SameFailWithdrawn(p, q, ids[1..], now);
      } else {
        SameFailWithdrawn(Fail(Retract(p, id), p.withdrawn[id], now), Fail(Retract(q, id), q.withdrawn[id], now), ids[1..], now);
      }
    }
  }

  /** The same error, anchor, records and report. */
  ghost predicate SameOutcome(a: RunResult, b: RunResult) {
    && b.err == a.err && b.truncated == a.truncated && b.state.anchor == a.state.anchor
    && b.state.feed.done == a.state.feed.done && b.state.feed.pending == a.state.feed.pending
    && a.pass.Some? && b.pass.Some?
    && b.pass.value.verified == a.pass.value.verified && b.pass.value.skipped == a.pass.value.skipped
    && b.pass.value.notLogged == a.pass.value.notLogged && b.pass.value.pending == a.pass.value.pending
    && b.pass.value.failed == a.pass.value.failed && b.pass.value.h == a.pass.value.h
  }

  lemma SameClose(s: Settings, c: Clock, p: Pass, q: Pass, broken: Option<RunError>)
    requires Same(p, q)
    ensures SameOutcome(Close(s, c, p, false, broken, false), Close(s, c, q, false, broken, false))
  {}

  /** Passes the feed was completely read in end the same if they stand the same. */
  lemma SameEnding(w: World, v: World, s: Settings, c: Clock, p: Pass, q: Pass)
    requires SameButFeed(w, v) && Same(p, q)
    ensures var (p1, broken) := Rechecked(w, s, c, p, None);
            var (q1, broken') := Rechecked(v, s, c, q, None);
            && broken' == broken
            && Same(Withdrawals(s, c, p1, true).0, Withdrawals(s, c, q1, true).0)
  {
    var ids := s.sorted(p.feed.pending.Keys);
    SameRecheckAll(w, p, q, ids, c);
    LogRecheckAll(w, v, q, ids, c);
    var a, b := RecheckAll(w, p, ids, c), RecheckAll(v, q, ids, c);
    SameFailWithdrawn(a.p, b.p, s.sorted(a.p.withdrawn.Keys), c.now);
  }

  /** How the feed is read in a pass, if it starts. */
  ghost function Reading0(w: World, s: Settings, now: Time, h: History, feed: FeedState): (Reading, End) {
    ReadFeed(w, s, ClockOf(s, now), Begin(h, feed))
  }

  /** The pass starts and reads the feed to its end. */
  ghost predicate Completes(w: World, s: Settings, now: Time, baselines: seq<Checkpoint>, state: State) {
    var start := Start(w, Some(state.anchor), baselines);
    start.Started? && Reading0(w, s, now, start.h, state.feed).1 == Complete
  }

  /** A copy of the id with an index was met when the feed ended. */
  ghost predicate Places(w: World, s: Settings, now: Time, baselines: seq<Checkpoint>, state: State, id: Id)
    requires Completes(w, s, now, baselines, state)
  {
    !Unplaced(Reading0(w, s, now, Start(w, Some(state.anchor), baselines).h, state.feed).0.p, id)
  }

  lemma WorkedOut(w: World, s: Settings, now: Time, h: History, feed: FeedState, p: Pass)
    requires Reading0(w, s, now, h, feed).1 == Complete && Reading0(w, s, now, h, feed).0.p == p
    ensures var c := ClockOf(s, now);
            var (p1, broken) := Rechecked(w, s, c, p, None);
            Pass1(w, s, now, h, feed) == Close(s, c, Withdrawals(s, c, p1, true).0, false, broken, false)
  {}

  lemma PassesAlike(w: World, v: World, s: Settings, now: Time, h: History, feed: FeedState, id: Id)
    requires SameButFeed(w, v) && FeedsAlike(w, v, s.parse, id) && Tidy(feed) && s.grace >= 0
    requires Reading0(w, s, now, h, feed).1 == Complete && Reading0(v, s, now, h, feed).1 == Complete
    requires !Unplaced(Reading0(w, s, now, h, feed).0.p, id)
    ensures SameOutcome(Pass1(w, s, now, h, feed), Pass1(v, s, now, h, feed))
  {
    var c := ClockOf(s, now);
    BeginIsCaught(s, now, h, feed);
    FeedReadAlike(w, v, s, feed, c, Begin(h, feed), Begin(h, feed), id);
    var p, q := Reading0(w, s, now, h, feed).0.p, Reading0(v, s, now, h, feed).0.p;
    WorkedOut(w, s, now, h, feed, p);
    WorkedOut(v, s, now, h, feed, q);
    SameEnding(w, v, s, c, p, q);
    var (p1, broken) := Rechecked(w, s, c, p, None);
    var (q1, _) := Rechecked(v, s, c, q, None);
    SameClose(s, c, Withdrawals(s, c, p1, true).0, Withdrawals(s, c, q1, true).0, broken);
  }

  /**
   * Two servers that differ only in copies of one id without an index, on any
   * pages of a feed both passes read to its end, leave the same outcome: the
   * same error, the same report, the same Done and Pending records, as long as
   * some copy of the id had an index.
   */
  lemma NullCopiesOnAnyPage(w: World, v: World, s: Settings, now: Time, baselines: seq<Checkpoint>, state: State, id: Id)
    requires SameButFeed(w, v) && FeedsAlike(w, v, s.parse, id) && Given(s, state)
    requires Completes(w, s, now, baselines, state) && Completes(v, s, now, baselines, state)
    requires Places(w, s, now, baselines, state, id)
    ensures SameOutcome(RunOnce(w, s, now, baselines, state), RunOnce(v, s, now, baselines, state))
  {
    SameStart(w, v, Some(state.anchor), baselines);
    PassesAlike(w, v, s, now, Start(w, Some(state.anchor), baselines).h, state.feed, id);
  }

  // ---------------------------------------------------------------------
  // In terms of rows
  // ---------------------------------------------------------------------

  function DroppedFrom(a: Answer, parse: Reader, id: Id): Answer {
    match a
    case PageAnswer(rows, hasMore, lastId) => PageAnswer(WithoutNull(rows, parse, id), hasMore, lastId)
    case _ => a
  }

  /** The same server, its feed without the rows of this id's copies that have no index. */
  function DroppedFeed(w: World, parse: Reader, id: Id): World {
    w.(server := (asked: seq<Request>, req: Request) =>
         if req.AskActivities? then DroppedFrom(w.server(asked, req), parse, id) else w.server(asked, req))
  }

  /** On no page does a copy without an index disturb the first with one, and all are of the pinned organization. */
  ghost predicate NeverDisturbed(w: World, parse: Reader, id: Id) {
    forall asked: seq<Request>, req: Request {:trigger w.server(asked, req)} ::
      req.AskActivities? && w.server(asked, req).PageAnswer? ==>
        && Undisturbed(Parsed(w.server(asked, req).rows, parse), id)
        && forall se <- Parsed(w.server(asked, req).rows, parse) :: se.ev.id == id ==> se.ev.organization == w.org
  }

  /** Rows of copies without an index may be dropped anywhere from a feed they do not disturb. */
  lemma DroppingFromTheFeed(w: World, s: Settings, now: Time, baselines: seq<Checkpoint>, state: State, id: Id)
    requires NeverDisturbed(w, s.parse, id) && Given(s, state)
    requires Completes(w, s, now, baselines, state) && Completes(DroppedFeed(w, s.parse, id), s, now, baselines, state)
    requires Places(w, s, now, baselines, state, id)
    ensures SameOutcome(RunOnce(w, s, now, baselines, state), RunOnce(DroppedFeed(w, s.parse, id), s, now, baselines, state))
  {
    var v := DroppedFeed(w, s.parse, id);
    forall asked: seq<Request>, req: Request | req.AskActivities?
      ensures PagesAlike(w, s.parse, id, w.server(asked, req), v.server(asked, req))
    {
      var a := w.server(asked, req);
      if a.PageAnswer? {
        DroppingRowsIsAlike(w, s.parse, id, a.rows, a.hasMore, a.lastId);
      }
    }
    NullCopiesOnAnyPage(w, v, s, now, baselines, state, id);
  }

  /** Where it does disturb one: the time a pending event is recorded with is that of its page's entry. */
  lemma EntryTimeIsRecorded(w: World, p: Pass, se: Served, c: Clock)
    requires se.conflict == None && se.ev.organization == w.org && se.ev.index.Some? && se.ev.index.value >= p.h.latest.size
    requires se.ev.id !in p.seen && se.ev.id !in p.feed.done && se.ev.id !in p.feed.pending && se.ev.id !in p.reverifying
    ensures var p' := Process(w, p, se, c).p;
            se.ev.id in p'.feed.pending && p'.feed.pending[se.ev.id].created == se.created
  {}
}
