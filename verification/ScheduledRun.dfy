/**
 * The scheduled pass, step by step. A pass updates the report, the state and
 * the session in place; every method leaves them where the function of Feed or
 * FeedPass of the same purpose says.
 */
module ScheduledRun {
  import opened Basics
  import opened Checkpoint
  import opened Server
  import opened StateFile
  import opened Sessions
  import opened Inclusion
  import opened Feed
  import Coalesce
  import P = FeedPass
  import H = History
  import Leaf

  /** Where a pass is in the feed: the copies and cursors met, and the next page. */
  datatype Place = Place(copies: set<P.CopyKey>, cursors: P.Cursors, after: Id, page: nat)

  const START := Place({}, map[], [], 1)

  class Run {
    const s: Session
    const st: State
    const c: Clock
    // The report.
    var verified: seq<Vouch>
    var skipped: seq<Vouch>
    var notLogged: seq<Id>
    var pending: seq<Id>
    var failed: seq<EventFailure>
    // What the pass has met.
    var listed: set<Id>
    var seen: map<Id, Served>
    var withdrawn: map<Id, EventFailure>
    var reverifying: set<Id>
    var highWater: Time
    var read: seq<Row>

    function Model(): Pass
      reads this, s, st, s.st
    {
      Pass(s.Model(), FeedState(st.highWater, st.done, st.pending), verified, skipped, notLogged, pending, failed,
           listed, seen, withdrawn, reverifying, highWater, read)
    }

    ghost function At(place: Place): P.Reading
      reads this, s, st, s.st
    {
      P.Reading(Model(), place.copies, place.cursors, place.after, place.page)
    }

    /** What only the end of a pass, or a save, changes in the state. */
    ghost function Fixed(): (Content, Time)
      reads st
    {
      (st.loaded, st.highWater)
    }

    ghost predicate Ready()
      reads s
    {
      s.st == st && s.defers && s.waits.Valid()
    }

    constructor (s: Session, st: State, c: Clock)
      requires s.st == st
      ensures this.s == s && this.st == st && this.c == c
      ensures At(START) == P.Begin(s.Model(), st.FeedModel())
    {
      this.s, this.st, this.c := s, st, c;
      verified, skipped, notLogged, pending, failed := [], [], [], [], [];
      listed, seen, withdrawn, reverifying := {}, map[], map[], {};
      highWater, read := st.highWater, [];
    }

    /** Withdraws what a superseded copy without an index itself reported. */
    method Retract(id: Id)
      modifies this`notLogged, this`pending, this`withdrawn
      ensures Model() == Feed.Retract(old(Model()), id)
    {
      notLogged := Drop(notLogged, id);
      pending := Drop(pending, id);
      withdrawn := withdrawn - {id};
    }

    /** Reports a finding, and dates the id's record anew if it has one. */
    method Fail(f: EventFailure)
      modifies this`failed, this`listed, st`done
      ensures Model() == Feed.Fail(old(Model()), f, c.now)
    {
      failed := failed + [f];
      listed := listed + {f.id};
      st.Refresh(f.id, c.now);
    }

    /** The finding an earlier pending record turns an outcome into. */
    method Contest(id: Id, oc: Outcome, pe: PendingEvent, ev: Option<Leaf.Event>) returns (f: Option<EventFailure>)
      ensures f == Contested(st.FeedModel(), id, oc, pe, ev, c)
    {
      f := None;
      if id in st.pending {
        var kept := st.pending[id];
        var same := SameServing(kept, pe, ev);
        if oc == Pending && !same {
          return Some(EventFailure(id, Some(kept.index), ServedDifferently));
        }
        if oc == Pending && c.now - kept.firstSeen > c.grace {
          return Some(EventFailure(id, Some(pe.index), GraceExpired));
        }
        if oc == Verified && !same {
          return Some(EventFailure(id, Some(kept.index), VerifiesDifferently));
        }
      }
    }

    /** Reports an outcome and updates the state for it. */
    method Settle(id: Id, oc: Outcome, failure: Option<EventFailure>, pe: PendingEvent, ev: Option<Leaf.Event>)
      modifies this`failed, this`pending, this`notLogged, this`withdrawn, this`verified, st`done, st`pending
      ensures Model() == Feed.Settle(old(Model()), id, oc, failure, pe, ev, c)
    {
      var f := failure;
      if f == None {
        f := Contest(id, oc, pe, ev);
      }
      if f.Some? {
        failed := failed + [f.value];
        st.Refresh(id, c.now);
        return;
      }
      Record(id, oc, pe);
    }

    /** Records an outcome nothing contests. */
    method Record(id: Id, oc: Outcome, pe: PendingEvent)
      modifies this`pending, this`notLogged, this`withdrawn, this`verified, st`done, st`pending
      ensures Model() == Recorded(old(Model()), id, oc, pe, c)
    {
      match oc
      case Pending =>
        pending := pending + [id];
        st.Pend(id, pe);
      case NotLogged =>
        if id in st.pending {
          // Held back until the feed has been read.
          withdrawn := withdrawn[id := EventFailure(id, Some(st.pending[id].index), WithdrawnIndex)];
        }
        notLogged := notLogged + [id];
        st.Forget(id);
      case Verified =>
        verified := verified + [Vouch(id, pe.index, PendingHashes(pe))];
        st.Done(id, DoneEvent(pe.created, c.now, Some(pe.index), pe.leaf));
    }

    /** Examines an event's inclusion and settles it. */
    method Examine(se: Served) returns (err: Option<H.Err>)
      requires Ready()
      modifies this, s`asked, s`bySize, s`noteBySize, s`latest, s`waited, st
      ensures Ready() && Fixed() == old(Fixed())
      ensures Feed.Examine(s.w, old(Model()), se, c) == PassStep(Model(), err)
    {
      var v := s.VerifyEvent(se.ev);
      if v.Err? {
        return Some(v.error);
      }
      var (oc, failure) := v.value;
      if se.ev.id in reverifying && oc == Pending && failure == None {
        // An earlier content verified here, so a proof is owed for this one.
        failure := Some(EventFailure(se.ev.id, se.ev.index, ReservedWithoutProof));
      }
      var hashes := Leaf.Hashes(se.ev);
      var pe := PendingEvent(if se.ev.index.Some? then se.ev.index.value else 0, hashes[0],
                             if |hashes| > 1 then Some(hashes[1]) else None, se.created, c.now);
      Settle(se.ev.id, oc, failure, pe, Some(se.ev));
      return None;
    }

    /** Passes over an event that verified earlier, keeping its record alive. */
    method PassOver(ev: Leaf.Event)
      requires ev.id in st.done
      modifies this`skipped, st`done
      ensures Model() == Skipped(old(Model()), ev, c.now)
    {
      var d := st.done[ev.id];
      st.Refresh(ev.id, c.now);
      if d.index.Some? {
        skipped := skipped + [Vouch(ev.id, d.index.value, Leaf.Hashes(ev))];
      }
    }

    /** A copy of an id not settled yet in this pass, or one that supersedes what was. */
    method Admit(se: Served) returns (err: Option<H.Err>)
      requires Ready()
      modifies this, s`asked, s`bySize, s`noteBySize, s`latest, s`waited, st
      ensures Ready() && Fixed() == old(Fixed())
      ensures Feed.Admit(s.w, old(Model()), se, c) == PassStep(Model(), err)
    {
      var id := se.ev.id;
      seen := seen[id := se];
      if id in st.done {
        var d := st.done[id];
        var recheck := RecheckDone(d, se.ev);
        if recheck.Finding? {
          if se.ev.index == None {
            // Ruled on when the pass has read what it will read.
            withdrawn := withdrawn[id := recheck.failure];
          } else {
            Fail(recheck.failure);
          }
          return None;
        }
        if recheck.Skip? {
          PassOver(se.ev);
          return None;
        }
        reverifying := reverifying + {id};
      }
      listed := listed + {id};
      err := Examine(se);
    }

    /** One event of a page. */
    method Process(se: Served) returns (err: Option<H.Err>)
      requires Ready()
      modifies this, s`asked, s`bySize, s`noteBySize, s`latest, s`waited, st
      ensures Ready() && Fixed() == old(Fixed())
      ensures Feed.Process(s.w, old(Model()), se, c) == PassStep(Model(), err)
    {
      if se.created > highWater && se.created <= c.now + MAX_FUTURE_SKEW {
        highWater := se.created;
      }
      if se.conflict.Some? {
        Fail(se.conflict.value);
        return None;
      }
      var ev := se.ev;
      if ev.id in seen {
        var prev := seen[ev.id].ev;
        if prev.index.Some? && ev.index.Some? && prev.index != ev.index {
          Fail(EventFailure(ev.id, prev.index, TwoIndices));
          return None;
        }
        if prev.index.Some? && ev.index.Some? && Leaf.Hash(prev) != Leaf.Hash(ev) {
          Fail(EventFailure(ev.id, prev.index, TwoContents));
          return None;
        }
        if prev.index.Some? || ev.index == None {
          return None;
        }
        Retract(ev.id);
      }
      err := Admit(se);
    }

    /** Every event of a page in order, up to the first error. */
    method ProcessAll(ses: seq<Served>) returns (err: Option<H.Err>)
      requires Ready()
      modifies this, s`asked, s`bySize, s`noteBySize, s`latest, s`waited, st
      ensures Ready() && Fixed() == old(Fixed())
      ensures Feed.ProcessAll(s.w, old(Model()), ses, c) == PassStep(Model(), err)
    {
      for i := 0 to |ses|
        invariant Ready() && Fixed() == old(Fixed())
        invariant Feed.ProcessAll(s.w, old(Model()), ses, c) == Feed.ProcessAll(s.w, Model(), ses[i..], c)
      {
        assert ses[i..][0] == ses[i] && ses[i..][1..] == ses[i + 1..];
        err := Process(ses[i]);
        if err.Some? {
          return;
        }
      }
      return None;
    }

    method FailAll(fs: seq<EventFailure>)
      modifies this`failed, this`listed, st`done
      ensures Model() == Feed.FailAll(old(Model()), fs, c.now)
    {
      for i := 0 to |fs|
        invariant Feed.FailAll(old(Model()), fs, c.now) == Feed.FailAll(Model(), fs[i..], c.now)
      {
        assert fs[i..][0] == fs[i] && fs[i..][1..] == fs[i + 1..];
        Fail(fs[i]);
      }
    }

    /** Checks a pending event the feed did not list again from its stored hashes. */
    method RecheckOne(id: Id) returns (err: Option<H.Err>)
      requires Ready()
      modifies this, s`asked, s`bySize, s`noteBySize, s`latest, s`waited, st
      ensures Ready() && Fixed() == old(Fixed())
      ensures Recheck1(s.w, old(Model()), id, c) == PassStep(Model(), err)
    {
      if id in listed || id !in st.pending {
        return None;
      }
      var pe := st.pending[id];
      var oc, failure := Pending, None;
      if pe.index < s.latest.size {
        var v := s.VerifyInclusions(id, pe.index, PendingHashes(pe));
        if v.Err? {
          return Some(v.error);
        }
        oc, failure := v.value.0, v.value.1;
      }
      Settle(id, oc, failure, pe, None);
      return None;
    }

    method RecheckAll(ids: seq<Id>) returns (err: Option<H.Err>)
      requires Ready()
      modifies this, s`asked, s`bySize, s`noteBySize, s`latest, s`waited, st
      ensures Ready() && Fixed() == old(Fixed())
      ensures Feed.RecheckAll(s.w, old(Model()), ids, c) == PassStep(Model(), err)
    {
      for i := 0 to |ids|
        invariant Ready() && Fixed() == old(Fixed())
        invariant Feed.RecheckAll(s.w, old(Model()), ids, c) == Feed.RecheckAll(s.w, Model(), ids[i..], c)
      {
        assert ids[i..][0] == ids[i] && ids[i..][1..] == ids[i + 1..];
        err := RecheckOne(ids[i]);
        if err.Some? {
          return;
        }
      }
      return None;
    }

    method RetractAll(ids: seq<Id>)
      modifies this`notLogged, this`pending, this`withdrawn
      ensures Model() == Feed.RetractAll(old(Model()), ids)
    {
      for i := 0 to |ids|
        invariant Feed.RetractAll(old(Model()), ids) == Feed.RetractAll(Model(), ids[i..])
      {
        assert ids[i..][0] == ids[i] && ids[i..][1..] == ids[i + 1..];
        Retract(ids[i]);
      }
    }

    /** Turns into findings the withdrawals of ids no placed copy of which was met. */
    method FailWithdrawn(ids: seq<Id>)
      modifies this`notLogged, this`pending, this`withdrawn, this`failed, this`listed, st`done
      ensures Model() == Feed.FailWithdrawn(old(Model()), ids, c.now)
    {
      for i := 0 to |ids|
        invariant Feed.FailWithdrawn(old(Model()), ids, c.now) == Feed.FailWithdrawn(Model(), ids[i..], c.now)
      {
        var id := ids[i];
        assert ids[i..][0] == id && ids[i..][1..] == ids[i + 1..];
        if id !in withdrawn || (id in seen && seen[id].ev.index.Some?) {
          continue;
        }
        var f := withdrawn[id];
        Retract(id);
        Fail(f);
      }
    }

    // -------------------------------------------------------------------
    // Pages
    // -------------------------------------------------------------------

    /** Processes one page, and decides whether there is another to ask for. */
    method TakePage(conf: P.Settings, at: Place, rows: seq<Row>, hasMore: bool, lastId: Id)
      returns (next: Place, end: Option<P.End>)
      requires Ready()
      modifies this, s`asked, s`bySize, s`noteBySize, s`latest, s`waited, st
      ensures Ready() && Fixed() == old(Fixed())
      ensures P.TakePage(s.w, conf, c, old(At(at)), rows, hasMore, lastId) == Turned(next, end)
    {
      var ses, bad := Coalesce.CoalescePage(rows, conf.parse);
      var copies, news := NoteCopies(at.copies, ses);
      var err := ReadRows(rows, ses, bad, conf);
      next, end := TurnPage(at.(copies := copies), err, hasMore, lastId, news);
    }

    method TurnPage(at: Place, err: Option<H.Err>, hasMore: bool, lastId: Id, news: bool) returns (next: Place, end: Option<P.End>)
      ensures P.Turn(At(at), err, hasMore, lastId, news) == Turned(next, end)
    {
      next := at;
      if err.Some? {
        return next, Some(P.Broken(P.LogError(err.value)));
      }
      if !hasMore {
        return next, Some(P.Complete);
      }
      // A cursor may come back once, if its page brought something new.
      if lastId == [] || P.Uses(at.cursors, lastId) >= 2 || (lastId in at.cursors && !news) {
        return next, Some(P.Broken(P.StuckCursor));
      }
      if |at.cursors| >= P.MAX_FEED_PAGES {
        return next, Some(P.Broken(P.FeedTooLong));
      }
      next := Place(at.copies, at.cursors[lastId := P.Uses(at.cursors, lastId) + 1], lastId, at.page + 1);
      end := None;
    }

    ghost function Turned(next: Place, end: Option<P.End>): P.PageStep
      reads this, s, st, s.st
    {
      if end.Some? then P.Stop(At(next), end.value) else P.Continue(At(next))
    }

    method ReadRows(rows: seq<Row>, ses: seq<Served>, bad: seq<EventFailure>, conf: P.Settings) returns (err: Option<H.Err>)
      requires Ready()
      requires ses == Coalesce.Collapsed(Coalesce.Parsed(rows, conf.parse)) && bad == Coalesce.Unparsed(rows, conf.parse)
      modifies this, s`asked, s`bySize, s`noteBySize, s`latest, s`waited, st
      ensures Ready() && Fixed() == old(Fixed())
      ensures P.ReadRows(s.w, conf, c, old(Model()), rows) == PassStep(Model(), err)
    {
      read := read + rows;
      FailAll(bad);
      err := ProcessAll(ses);
    }

    /** Asks for a page and takes it, unless the page limit is reached. */
    method ReadPage(conf: P.Settings, at: Place, notBefore: Option<int>) returns (next: Place, end: Option<P.End>)
      requires Ready()
      requires notBefore == Since(conf, st.highWater)
      modifies this, s`asked, s`bySize, s`noteBySize, s`latest, s`waited, st
      ensures Ready() && Fixed() == old(Fixed())
      ensures P.ReadPage(s.w, conf, c, old(At(at))) == Turned(next, end)
    {
      if conf.maxPages > 0 && at.page > conf.maxPages {
        return at, Some(P.Truncated);
      }
      ghost var before := At(at);
      var a := s.Fetch(AskActivities(notBefore, at.after));
      match a
      case StatusAnswer(status) => return at, Some(P.Broken(P.LogError(H.Unavailable(Some(status)))));
      case PageAnswer(rows, hasMore, lastId) =>
        P.PageTaken(s.w, conf, c, before, At(at), rows, hasMore, lastId);
        var limit := P.OrDefault(conf.pageSize, P.DEFAULT_PAGE_SIZE);
        if (limit > 0 && |rows| > limit) || (hasMore && lastId == []) {
          return at, Some(P.Broken(P.BadPage));
        }
        next, end := TakePage(conf, at, rows, hasMore, lastId);
      case _ => return at, Some(P.Broken(P.LogError(H.Unavailable(None))));
    }

    /** One round of reading the feed. */
    method ReadOn(conf: P.Settings, at: Place, notBefore: Option<int>) returns (next: Place, end: Option<P.End>)
      requires Ready() && P.Bounded(At(at))
      requires notBefore == Since(conf, st.highWater)
      modifies this, s`asked, s`bySize, s`noteBySize, s`latest, s`waited, st
      ensures Ready() && Fixed() == old(Fixed())
      ensures end.Some? ==> P.EndsAt(s.w, conf, c, old(At(at)), At(next), end.value)
      ensures end.None? ==>
                && P.Bounded(At(next)) && P.TotalUses(at.cursors) < P.TotalUses(next.cursors) <= 2 * P.MAX_FEED_PAGES
                && P.LeadsTo(s.w, conf, c, old(At(at)), At(next))
    {
      ghost var before := At(at);
      next, end := ReadPage(conf, at, notBefore);
      P.ReadFeedRound(s.w, conf, c, before, Turned(next, end));
    }

    /** Reads pages until the feed ends, breaks off, or is cut short. */
    method ReadFeed(conf: P.Settings) returns (ghost place: Place, end: P.End)
      requires Ready() && P.Bounded(At(START))
      modifies this, s`asked, s`bySize, s`noteBySize, s`latest, s`waited, st
      ensures Ready() && Fixed() == old(Fixed())
      ensures P.EndsAt(s.w, conf, c, old(At(START)), At(place), end)
    {
      var at := START;
      var notBefore := Since(conf, st.highWater);
      ghost var from := At(START);
      P.LeadsToItself(s.w, conf, c, from);
      var stop: Option<P.End> := None;
      while stop == None
        invariant Ready() && Fixed() == old(Fixed())
        invariant stop.None? ==> P.Bounded(At(at)) && P.LeadsTo(s.w, conf, c, from, At(at))
        invariant stop.Some? ==> P.EndsAt(s.w, conf, c, from, At(at), stop.value)
        decreases stop.None?, 2 * P.MAX_FEED_PAGES - P.TotalUses(at.cursors)
      {
        ghost var via := At(at);
        at, stop := ReadOn(conf, at, notBefore);
        P.LeadsOn(s.w, conf, c, from, via, At(at), if stop.Some? then stop.value else P.Complete);
      }
      return at, stop.value;
    }

    /** Rechecks the pending events the feed did not list, unless the read broke off. */
    method Recheck(conf: P.Settings, end: P.End) returns (broken: Option<P.RunError>)
      requires Ready()
      modifies this, s`asked, s`bySize, s`noteBySize, s`latest, s`waited, st
      ensures Ready() && Fixed() == old(Fixed())
      ensures P.Rechecked(s.w, conf, c, old(Model()), P.BrokenBy(end)) == (Model(), broken)
    {
      if end.Broken? {
        return Some(end.err);
      }
      var err := RecheckAll(conf.sorted(st.pending.Keys));
      if err.Some? {
        return Some(P.LogError(err.value));
      }
      return None;
    }

    /** Rules on the withdrawals, or defers them unless the feed was read to its end. */
    method Withdraw(conf: P.Settings, complete: bool) returns (deferred: bool)
      modifies this`notLogged, this`pending, this`withdrawn, this`failed, this`listed, st`done
      ensures P.Withdrawals(conf, c, old(Model()), complete) == (Model(), deferred)
    {
      deferred := false;
      if !complete {
        deferred := withdrawn != map[];
        RetractAll(conf.sorted(withdrawn.Keys));
      }
      FailWithdrawn(conf.sorted(withdrawn.Keys));
    }

    /** Leaves the state for the next run, with the mark its window starts from. */
    method Close(conf: P.Settings, truncated: bool, broken: Option<P.RunError>, deferred: bool) returns (err: Option<P.RunError>)
      modifies st`highWater, st`done
      ensures P.Close(conf, c, old(Model()), truncated, broken, deferred)
              == P.RunResult(P.StateOf(Model()), Some(Model()), truncated, err)
    {
      var mark := highWater;
      if failed != [] || deferred {
        mark := st.highWater;
      }
      if broken.Some? {
        return broken;
      }
      if truncated && mark <= st.highWater {
        return Some(P.PageLimitTooLow);
      }
      st.highWater := mark;
      st.Prune(c.now - P.OrDefault(conf.overlap, DEFAULT_OVERLAP));
      return None;
    }

    /** Everything a pass does once it has started. */
    method Execute(conf: P.Settings) returns (truncated: bool, err: Option<P.RunError>)
      requires Ready() && At(START) == P.Begin(s.Model(), st.FeedModel()) && c == P.ClockOf(conf, c.now)
      modifies this, s`asked, s`bySize, s`noteBySize, s`latest, s`waited, st
      ensures Ready() && st.loaded == old(st.loaded)
      ensures P.Pass1(s.w, conf, c.now, old(s.Model()), old(st.FeedModel()))
              == P.RunResult(P.StateOf(Model()), Some(Model()), truncated, err)
    {
      ghost var place;
      var end;
      ghost var began := At(START);
      place, end := ReadFeed(conf);
      P.EndsAtIsReadFeed(s.w, conf, c, began, At(place), end);
      var broken := Recheck(conf, end);
      var deferred := Withdraw(conf, end == P.Complete);
      truncated := end == P.Truncated;
      err := Close(conf, truncated, broken, deferred);
    }
  }

  /**
   * One scheduled pass over a state, which the caller then saves. The result
   * is that of RunOnce, and the state is left as it says.
   */
  method RunPass(w: World, st: State, waits: Waits, conf: P.Settings, now: Time, baselines: seq<Checkpoint>)
    returns (report: Option<Pass>, truncated: bool, err: Option<P.RunError>)
    requires waits.Valid()
    modifies st
    ensures P.RunOnce(w, conf, now, baselines, old(st.Model())) == P.RunResult(st.Model(), report, truncated, err)
    ensures st.loaded == old(st.loaded)
  {
    report, truncated, err := None, false, None;
    var s, failure := Start(w, st, waits, baselines);
    if s == null {
      return None, false, Some(P.LogError(failure.value));
    }
    s.defers := true;
    if conf.overlap < 0 || conf.grace < 0 {
      return None, false, Some(P.NegativeSettings);
    }
    var run := new Run(s, st, Clock(now, P.OrDefault(conf.grace, DEFAULT_GRACE)));
    truncated, err := run.Execute(conf);
    report := Some(run.Model());
  }

  /** Notes the copies a page carries, and whether any of them is new. */
  method NoteCopies(before: set<P.CopyKey>, ses: seq<Served>) returns (copies: set<P.CopyKey>, news: bool)
    ensures news <==> exists se :: se in ses && P.KeyOf(se) !in before
    ensures copies == before + P.KeysOf(ses)
  {
    copies, news := before, false;
    for i := 0 to |ses|
      invariant news <==> exists k :: 0 <= k < i && P.KeyOf(ses[k]) !in before
      invariant copies == before + P.KeysOf(ses[..i])
    {
      P.KeysOneMore(ses, i);
      var key := P.KeyOf(ses[i]);
      if key !in copies {
        news := true;
      }
      copies := copies + {key};
    }
    assert ses[..|ses|] == ses;
    if news {
      ghost var k :| 0 <= k < |ses| && P.KeyOf(ses[k]) !in before;
      assert ses[k] in ses;
    }
  }

  /** Where the window of a pass begins that starts from this mark. */
  function Since(conf: P.Settings, mark: Time): Option<int> {
    if mark == ZERO_TIME then None else Some(mark - P.OrDefault(conf.overlap, DEFAULT_OVERLAP))
  }

  lemma WithoutNext(ids: seq<Id>, id: Id, i: nat)
    requires i < |ids|
    ensures Without(ids[i..], id) == (if ids[i] == id then [] else [ids[i]]) + Without(ids[i + 1..], id)
  {
    assert ids[i..][0] == ids[i] && ids[i..][1..] == ids[i + 1..];
  }

  /** A list without an id. */
  method Drop(ids: seq<Id>, id: Id) returns (left: seq<Id>)
    ensures left == Without(ids, id)
  {
    left := [];
    for i := 0 to |ids|
      invariant Without(ids, id) == left + Without(ids[i..], id)
    {
      WithoutNext(ids, id, i);
      if ids[i] != id {
        left := left + [ids[i]];
      }
    }
  }
}
