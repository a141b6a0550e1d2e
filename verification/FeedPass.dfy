/** A whole scheduled pass: reading pages, rechecking, and what is left for the next. */
module FeedPass {
  import opened Basics
  import opened Tree
  import opened Checkpoint
  import opened Server
  import opened History
  import opened Feed
  import opened Coalesce
  import Leaf

  datatype State = State(anchor: Option<Note>, feed: FeedState)

  /** `sorted` lists a set of ids in order; zero durations and sizes mean the defaults. */
  datatype Settings = Settings(
    overlap: int, grace: int, pageSize: int, maxPages: int,
    parse: Reader, sorted: set<Id> -> seq<Id>)

  const DEFAULT_PAGE_SIZE := 1000
  const MAX_FEED_PAGES := 100_000

  datatype RunError =
    | LogError(err: Err)
    | BadPage
    | StuckCursor
    | FeedTooLong
    | PageLimitTooLow
    | NegativeSettings

  function OrDefault(v: int, d: int): int {
    if v == 0 then d else v
  }

  // ---------------------------------------------------------------------
  // Pages
  // ---------------------------------------------------------------------

  /** What tells one copy of an event from another, for noticing a stalled feed. */
  type CopyKey = (Id, Hash, Option<nat>)

  function KeyOf(se: Served): CopyKey {
    (se.ev.id, Leaf.Hash(se.ev), se.ev.index)
  }

  function KeysOf(ses: seq<Served>): set<CopyKey> {
    set se <- ses :: KeyOf(se)
  }

  lemma KeysOneMore(ses: seq<Served>, i: nat)
    requires i < |ses|
    ensures KeysOf(ses[..i + 1]) == KeysOf(ses[..i]) + {KeyOf(ses[i])}
  {
    assert ses[..i + 1] == ses[..i] + [ses[i]];
  }

  /** How often each page cursor has been used; its keys are the cursors seen. */
  type Cursors = map<Id, nat>

  function Uses(cursors: Cursors, id: Id): nat {
    if id in cursors then cursors[id] else 0
  }

  datatype Reading = Reading(p: Pass, copies: set<CopyKey>, cursors: Cursors, after: Id, page: nat)

  datatype End = Truncated | Complete | Broken(err: RunError)

  function Query(feed: FeedState, overlap: int, after: Id): Request {
    AskActivities(if feed.highWater == ZERO_TIME then None else Some(feed.highWater - overlap), after)
  }

  /** Whether a page that says there is more leaves nowhere to go on from. */
  predicate Stalled(r: Reading, lastId: Id, news: bool) {
    lastId == [] || Uses(r.cursors, lastId) >= 2 || (lastId in r.cursors && !news)
  }

  /** One page's rows, collapsed and processed. */
  function ReadRows(w: World, s: Settings, c: Clock, p: Pass, rows: seq<Row>): PassStep {
    var p1 := FailAll(p.(read := p.read + rows), Unparsed(rows, s.parse), c.now);
    ProcessAll(w, p1, Collapsed(Parsed(rows, s.parse)), c)
  }

  datatype PageStep = Continue(r: Reading) | Stop(r: Reading, end: End)

  /** Decides, once a page is processed, whether there is another to ask for. */
  function Turn(r: Reading, err: Option<Err>, hasMore: bool, lastId: Id, news: bool): PageStep {
    if err.Some? then Stop(r, Broken(LogError(err.value)))
    else if !hasMore then Stop(r, Complete)
    else if Stalled(r, lastId, news) then Stop(r, Broken(StuckCursor))
    else if |r.cursors| >= MAX_FEED_PAGES then Stop(r, Broken(FeedTooLong))
    else
      Continue(r.(cursors := r.cursors[lastId := Uses(r.cursors, lastId) + 1], after := lastId, page := r.page + 1))
  }

  /** Processes one page. */
  function TakePage(w: World, s: Settings, c: Clock, r: Reading, rows: seq<Row>, hasMore: bool, lastId: Id): PageStep {
    var ses := Collapsed(Parsed(rows, s.parse));
    var news := exists se :: se in ses && KeyOf(se) !in r.copies;
    var st := ReadRows(w, s, c, r.p, rows);
    Turn(r.(p := st.p, copies := r.copies + KeysOf(ses)), st.err, hasMore, lastId, news)
  }

  /** A page taken is a page turned, with the pass its rows leave. */
  lemma TakenIsTurned(w: World, s: Settings, c: Clock, r: Reading, rows: seq<Row>, hasMore: bool, lastId: Id)
    returns (r1: Reading, news: bool)
    ensures var st := ReadRows(w, s, c, r.p, rows);
            && TakePage(w, s, c, r, rows, hasMore, lastId) == Turn(r1, st.err, hasMore, lastId, news)
            && r1 == r.(p := st.p, copies := r1.copies)
  {
    var ses := Collapsed(Parsed(rows, s.parse));
    news := exists se :: se in ses && KeyOf(se) !in r.copies;
    r1 := r.(p := ReadRows(w, s, c, r.p, rows).p, copies := r.copies + KeysOf(ses));
  }

  function ReadPage(w: World, s: Settings, c: Clock, r: Reading): PageStep {
    if s.maxPages > 0 && r.page > s.maxPages then Stop(r, Truncated)
    else
      var req := Query(r.p.feed, OrDefault(s.overlap, DEFAULT_OVERLAP), r.after);
      var limit := OrDefault(s.pageSize, DEFAULT_PAGE_SIZE);
      var r1 := r.(p := r.p.(h := Ask(r.p.h, req)));
      match w.server(r.p.h.asked, req)
      case PageAnswer(rows, hasMore, lastId) =>
        if (limit > 0 && |rows| > limit) || (hasMore && lastId == []) then Stop(r1, Broken(BadPage))
        else TakePage(w, s, c, r1, rows, hasMore, lastId)
      case StatusAnswer(status) => Stop(r1, Broken(LogError(Unavailable(Some(status)))))
      case _ => Stop(r1, Broken(LogError(Unavailable(None))))
  }

  /** A page is not asked for, is unusable, or is taken. */
  lemma PageCases(w: World, s: Settings, c: Clock, r: Reading, r1: Reading)
    requires r1 == r.(p := r.p.(h := Ask(r.p.h, Query(r.p.feed, OrDefault(s.overlap, DEFAULT_OVERLAP), r.after))))
    ensures var st := ReadPage(w, s, c, r);
            var a := w.server(r.p.h.asked, Query(r.p.feed, OrDefault(s.overlap, DEFAULT_OVERLAP), r.after));
            || st == Stop(r, Truncated)
            || (st.Stop? && st.end.Broken? && st.r == r1 && (st.end.err.LogError? ==> st.end.err.err.Unavailable?))
            || (a.PageAnswer? && st == TakePage(w, s, c, r1, a.rows, a.hasMore, a.lastId))
  {}

  lemma PageTaken(w: World, s: Settings, c: Clock, r: Reading, r1: Reading, rows: seq<Row>, hasMore: bool, lastId: Id)
    requires !(s.maxPages > 0 && r.page > s.maxPages)
    requires r1 == r.(p := r.p.(h := Ask(r.p.h, Query(r.p.feed, OrDefault(s.overlap, DEFAULT_OVERLAP), r.after))))
    requires w.server(r.p.h.asked, Query(r.p.feed, OrDefault(s.overlap, DEFAULT_OVERLAP), r.after)) == PageAnswer(rows, hasMore, lastId)
    ensures var limit := OrDefault(s.pageSize, DEFAULT_PAGE_SIZE);
            ReadPage(w, s, c, r) ==
            if (limit > 0 && |rows| > limit) || (hasMore && lastId == []) then Stop(r1, Broken(BadPage))
            else TakePage(w, s, c, r1, rows, hasMore, lastId)
  {}

  // ---------------------------------------------------------------------
  // The feed ends
  // ---------------------------------------------------------------------

  ghost function TotalUses(cursors: Cursors): nat
    decreases |cursors|
  {
    if cursors == map[] then 0
    else
      var id :| id in cursors;
      cursors[id] + TotalUses(cursors - {id})
  }

  lemma {:induction false} TotalUsesSplit(cursors: Cursors, id: Id)
    requires id in cursors
    ensures TotalUses(cursors) == cursors[id] + TotalUses(cursors - {id})
    decreases |cursors|
  {
    var x :| x in cursors && TotalUses(cursors) == cursors[x] + TotalUses(cursors - {x});
    if x != id {
      assert cursors - {x} - {id} == cursors - {id} - {x};
      TotalUsesSplit(cursors - {x}, id);
      TotalUsesSplit(cursors - {id}, x);
    }
  }

  lemma {:induction false} TotalUsesBound(cursors: Cursors)
    requires forall id <- cursors :: cursors[id] <= 2
    ensures TotalUses(cursors) <= 2 * |cursors|
    decreases |cursors|
  {
    if cursors != map[] {
      var x :| x in cursors && TotalUses(cursors) == cursors[x] + TotalUses(cursors - {x});
      TotalUsesBound(cursors - {x});
      assert |cursors - {x}| == |cursors| - 1 by {
        assert (cursors - {x}).Keys == cursors.Keys - {x};
      }
    }
  }

  /** No cursor is used more than twice, and no more are seen than the limit. */
  ghost predicate Bounded(r: Reading) {
    |r.cursors| <= MAX_FEED_PAGES && forall id <- r.cursors :: 1 <= r.cursors[id] <= 2
  }

  lemma UsesOneMore(cursors: Cursors, id: Id)
    ensures TotalUses(cursors[id := Uses(cursors, id) + 1]) == TotalUses(cursors) + 1
  {
    var more := cursors[id := Uses(cursors, id) + 1];
    TotalUsesSplit(more, id);
    assert more - {id} == cursors - {id};
    if id in cursors {
      TotalUsesSplit(cursors, id);
    } else {
      assert cursors - {id} == cursors;
    }
  }

  /** The reading goes on with one more use of one cursor. */
  ghost predicate GoesOn(r: Reading, r': Reading) {
    var uses := Uses(r.cursors, r'.after);
    && uses < 2 && |r.cursors| < MAX_FEED_PAGES
    && r'.cursors == r.cursors[r'.after := uses + 1] && r'.page == r.page + 1
  }

  lemma TurnGoesOn(r: Reading, err: Option<Err>, hasMore: bool, lastId: Id, news: bool)
    ensures var step := Turn(r, err, hasMore, lastId, news); step.Continue? ==> GoesOn(r, step.r)
  {}

  lemma TakePageGoesOn(w: World, s: Settings, c: Clock, r: Reading, rows: seq<Row>, hasMore: bool, lastId: Id)
    ensures var step := TakePage(w, s, c, r, rows, hasMore, lastId); step.Continue? ==> GoesOn(r, step.r)
  {
    var ses := Collapsed(Parsed(rows, s.parse));
    var news := exists se :: se in ses && KeyOf(se) !in r.copies;
    var st := ReadRows(w, s, c, r.p, rows);
    TurnGoesOn(r.(p := st.p, copies := r.copies + KeysOf(ses)), st.err, hasMore, lastId, news);
  }

  lemma PageGoesOn(w: World, s: Settings, c: Clock, r: Reading)
    ensures var step := ReadPage(w, s, c, r); step.Continue? ==> GoesOn(r, step.r)
  {
    var req := Query(r.p.feed, OrDefault(s.overlap, DEFAULT_OVERLAP), r.after);
    var r1 := r.(p := r.p.(h := Ask(r.p.h, req)));
    var a := w.server(r.p.h.asked, req);
    if a.PageAnswer? {
      TakePageGoesOn(w, s, c, r1, a.rows, a.hasMore, a.lastId);
    }
  }

  lemma GoingOnUsesACursor(r: Reading, r': Reading)
    requires Bounded(r) && GoesOn(r, r')
    ensures Bounded(r') && r'.page == r.page + 1
    ensures TotalUses(r'.cursors) == TotalUses(r.cursors) + 1 <= 2 * MAX_FEED_PAGES
  {
    UsesOneMore(r.cursors, r'.after);
    assert |r'.cursors| <= |r.cursors| + 1;
    TotalUsesBound(r'.cursors);
  }

  /** Every page that leads to another uses up one of the cursor uses there are. */
  lemma ContinuingUsesACursor(w: World, s: Settings, c: Clock, r: Reading)
    requires Bounded(r) && ReadPage(w, s, c, r).Continue?
    ensures var r' := ReadPage(w, s, c, r).r;
            && Bounded(r') && r'.page == r.page + 1
            && TotalUses(r'.cursors) == TotalUses(r.cursors) + 1 <= 2 * MAX_FEED_PAGES
  {
    PageGoesOn(w, s, c, r);
    GoingOnUsesACursor(r, ReadPage(w, s, c, r).r);
  }

  /** Reads pages until the feed ends, breaks off, or is cut short. */
  ghost function ReadFeed(w: World, s: Settings, c: Clock, r: Reading): (Reading, End)
    requires Bounded(r)
    decreases 2 * MAX_FEED_PAGES - TotalUses(r.cursors)
  {
    match ReadPage(w, s, c, r)
    case Stop(r1, end) => (r1, end)
    case Continue(r1) =>
      ContinuingUsesACursor(w, s, c, r);
      ReadFeed(w, s, c, r1)
  }

  // A reader of the feed goes from place to place. These two relations say
  // what that comes to, and are unfolded only by the lemmas below, at a place
  // they mark: unfolded everywhere, they would cost more than they help.

  ghost predicate Marked(r: Reading) {
    true
  }

  /** The feed is read to the same end from either place. */
  ghost predicate LeadsTo(w: World, s: Settings, c: Clock, from: Reading, to: Reading) {
    forall r: Reading {:trigger Marked(r)} :: r == from && Marked(r) ==>
      Bounded(r) && Bounded(to) && ReadFeed(w, s, c, r) == ReadFeed(w, s, c, to)
  }

  /** From this place the feed is read to this end. */
  ghost predicate EndsAt(w: World, s: Settings, c: Clock, from: Reading, to: Reading, end: End) {
    forall r: Reading {:trigger Marked(r)} :: r == from && Marked(r) ==>
      Bounded(r) && ReadFeed(w, s, c, r) == (to, end)
  }

  lemma LeadsToItself(w: World, s: Settings, c: Clock, r: Reading)
    requires Bounded(r)
    ensures LeadsTo(w, s, c, r, r)
  {}

  /** What one page decides. */
  lemma ReadFeedRound(w: World, s: Settings, c: Clock, r: Reading, step: PageStep)
    requires Bounded(r) && ReadPage(w, s, c, r) == step
    ensures step.Stop? ==> EndsAt(w, s, c, r, step.r, step.end)
    ensures step.Continue? ==>
              && Bounded(step.r) && TotalUses(r.cursors) < TotalUses(step.r.cursors) <= 2 * MAX_FEED_PAGES
              && LeadsTo(w, s, c, r, step.r)
  {
    if step.Continue? {
      ContinuingUsesACursor(w, s, c, r);
    }
  }

  lemma LeadsOn(w: World, s: Settings, c: Clock, from: Reading, via: Reading, to: Reading, end: End)
    requires LeadsTo(w, s, c, from, via)
    ensures LeadsTo(w, s, c, via, to) ==> LeadsTo(w, s, c, from, to)
    ensures EndsAt(w, s, c, via, to, end) ==> EndsAt(w, s, c, from, to, end)
  {
    assert Marked(from) && Marked(via);
  }

  lemma EndsAtIsReadFeed(w: World, s: Settings, c: Clock, from: Reading, to: Reading, end: End)
    requires EndsAt(w, s, c, from, to, end)
    ensures Bounded(from) && ReadFeed(w, s, c, from) == (to, end)
  {
    assert Marked(from);
  }

  /** Whatever is served, no more than 2 * MAX_FEED_PAGES pages lead to another. */
  lemma {:induction false} FeedEnds(w: World, s: Settings, c: Clock, r: Reading)
    requires Bounded(r)
    ensures ReadFeed(w, s, c, r).0.page - r.page <= 2 * MAX_FEED_PAGES - TotalUses(r.cursors)
    decreases 2 * MAX_FEED_PAGES - TotalUses(r.cursors)
  {
    TotalUsesBound(r.cursors);
    if ReadPage(w, s, c, r).Continue? {
      ContinuingUsesACursor(w, s, c, r);
      FeedEnds(w, s, c, ReadPage(w, s, c, r).r);
    }
  }

  // ---------------------------------------------------------------------
  // The end of a pass
  // ---------------------------------------------------------------------

  /**
   * What a pass leaves: the state, its report, whether a page limit cut it
   * short, and the error it returns, if any.
   */
  datatype RunResult = RunResult(state: State, pass: Option<Pass>, truncated: bool, err: Option<RunError>)

  function AnchorOf(h: History): Option<Note> {
    if h.saved.Some? then h.saved.value else None
  }

  /** The anchor a state holds, as a checkpoint. */
  ghost function Anchor(origin: Bytes, state: State): Option<Checkpoint> {
    if state.anchor == None then None else ParseTrusted(state.anchor.value, origin)
  }

  function StateOf(p: Pass): State {
    State(AnchorOf(p.h), p.feed)
  }

  function BrokenBy(end: End): Option<RunError> {
    if end.Broken? then Some(end.err) else None
  }

  /** Rechecks the pending events the feed did not list, unless the read broke off. */
  function Rechecked(w: World, s: Settings, c: Clock, p: Pass, broken: Option<RunError>): (Pass, Option<RunError>) {
    if broken.Some? then (p, broken)
    else
      var st := RecheckAll(w, p, s.sorted(p.feed.pending.Keys), c);
      (st.p, if st.err.Some? then Some(LogError(st.err.value)) else None)
  }

  /** Rules on the withdrawals, or defers them unless the feed was read to its end. */
  function Withdrawals(s: Settings, c: Clock, p: Pass, complete: bool): (Pass, bool) {
    var deferred := !complete && p.withdrawn != map[];
    var p1 := if complete then p else RetractAll(p, s.sorted(p.withdrawn.Keys));
    (FailWithdrawn(p1, s.sorted(p1.withdrawn.Keys), c.now), deferred)
  }

  /** The mark the next window starts from; a finding or a deferral freezes it. */
  function Mark(p: Pass, deferred: bool): Time {
    if p.failed != [] || deferred then p.feed.highWater else p.highWater
  }

  function Close(s: Settings, c: Clock, p: Pass, truncated: bool, broken: Option<RunError>, deferred: bool): RunResult {
    var mark := Mark(p, deferred);
    if broken.Some? then RunResult(StateOf(p), Some(p), truncated, broken)
    else if truncated && mark <= p.feed.highWater then RunResult(StateOf(p), Some(p), truncated, Some(PageLimitTooLow))
    else
      var p1 := p.(feed := Prune(p.feed.(highWater := mark), c.now - OrDefault(s.overlap, DEFAULT_OVERLAP)));
      RunResult(StateOf(p1), Some(p1), truncated, None)
  }

  function Begin(h: History, feed: FeedState): Reading {
    Reading(Pass(h, feed, [], [], [], [], [], {}, map[], map[], {}, feed.highWater, []), {}, map[], [], 1)
  }

  function ClockOf(s: Settings, now: Time): Clock {
    Clock(now, OrDefault(s.grace, DEFAULT_GRACE))
  }

  /** Everything a pass does once it has started. */
  ghost function Pass1(w: World, s: Settings, now: Time, h: History, feed: FeedState): RunResult {
    var c := ClockOf(s, now);
    var (r, end) := ReadFeed(w, s, c, Begin(h, feed));
    var (p1, broken) := Rechecked(w, s, c, r.p, BrokenBy(end));
    var (p2, deferred) := Withdrawals(s, c, p1, end == Complete);
    Close(s, c, p2, end == Truncated, broken, deferred)
  }

  /** One scheduled pass. */
  ghost function RunOnce(w: World, s: Settings, now: Time, baselines: seq<Checkpoint>, state: State): RunResult {
    match Start(w, Some(state.anchor), baselines)
    case NotStarted(e) => RunResult(state, None, false, Some(LogError(e)))
    case Started(h) =>
      if s.overlap < 0 || s.grace < 0 then
        RunResult(State(AnchorOf(h), state.feed), None, false, Some(NegativeSettings))
      else Pass1(w, s, now, h, state.feed)
  }
}
