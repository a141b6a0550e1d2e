/**
 * What a scheduled pass owes the state it was given: pending events are
 * settled, records of earlier successes survive, no id is reported twice, and
 * the mark the next window starts from only moves for good reason.
 */
module FeedOutcome {
  import opened Basics
  import opened Checkpoint
  import opened Server
  import opened History
  import opened Inclusion
  import opened Feed
  import opened Coalesce
  import opened FeedPass
  import opened FeedKeeps
  import opened FeedOrder
  import opened FeedAccount
  import Leaf

  // ---------------------------------------------------------------------
  // Reading the feed
  // ---------------------------------------------------------------------

  lemma {:induction false} ParsedRead(parse: Reader, rows: seq<Row>)
    ensures Coalesce.Fresh(Parsed(rows, parse))
    ensures forall a <- Parsed(rows, parse) :: ReadAmong(parse, rows, a.ev)
    ensures forall row <- rows :: parse(row.raw).Some? ==>
              exists a <- Parsed(rows, parse) :: a.ev == parse(row.raw).value
  {
    if rows != [] {
      var less, row := rows[..|rows| - 1], rows[|rows| - 1];
      assert rows == less + [row];
      ParsedRead(parse, less);
      forall a <- Parsed(rows, parse) ensures ReadAmong(parse, rows, a.ev) {
        if a in Parsed(less, parse) {
          var x :| x in less && parse(x.raw) == Some(a.ev);
          assert x in rows;
        } else {
          assert row in rows && parse(row.raw) == Some(a.ev);
        }
      }
      forall x <- rows | parse(x.raw).Some?
        ensures exists a <- Parsed(rows, parse) :: a.ev == parse(x.raw).value
      {
        if x == row {
          assert Served(parse(x.raw).value, x.created, None) in Parsed(rows, parse);
        } else {
          var a :| a in Parsed(less, parse) && a.ev == parse(x.raw).value;
          assert a in Parsed(rows, parse);
        }
      }
    }
  }

  /** A row that parses was met under its id, or its id failed; one that does not failed under its name. */
  ghost predicate RowHandled(parse: Reader, p: Pass, row: Row) {
    match parse(row.raw)
    case Some(ev) => Handled(p, ev.id)
    case None => Failed(p, row.name)
  }

  ghost predicate RowsHandled(parse: Reader, p: Pass) {
    forall row <- p.read :: RowHandled(parse, p, row)
  }

  /** What collapsing a page keeps: each entry is one of the rows, and each row has an entry. */
  lemma CollapsedRead(parse: Reader, rows: seq<Row>)
    ensures var ses := Collapsed(Parsed(rows, parse));
            && (forall se <- ses :: ReadAmong(parse, rows, se.ev) && (se.conflict.Some? ==> se.conflict.value.id == se.ev.id))
            && (forall row <- rows :: parse(row.raw).Some? ==>
                  exists se <- ses :: se.ev.id == parse(row.raw).value.id)
  {
    var copies := Parsed(rows, parse);
    var ses := Collapsed(copies);
    ParsedRead(parse, rows);
    CollapsedSummarizes(copies);
    forall se <- ses ensures ReadAmong(parse, rows, se.ev) {
      assert Sums(se, copies);
      var a :| IsCopy(copies, a, se.ev.id) && a.ev == se.ev;
      assert ReadAmong(parse, rows, a.ev);
    }
    forall row <- rows | parse(row.raw).Some?
      ensures exists se <- ses :: se.ev.id == parse(row.raw).value.id
    {
      var a :| a in copies && a.ev == parse(row.raw).value;
      assert ses[Position(ses, a.ev.id)].ev.id == a.ev.id;
    }
  }

  ghost predicate Reads(f0: FeedState, parse: Reader, c: Clock, p: Pass) {
    Always(f0, c, p) && ReportedSeen(p) && SeenRead(parse, p) && MarkOk(f0, c, p)
  }

  /** Everything read so far is settled and accounted for. */
  ghost predicate Caught(f0: FeedState, parse: Reader, c: Clock, p: Pass) {
    Reads(f0, parse, c, p) && SettledBut(c, p, {}) && RowsHandled(parse, p) && Accounted(p, {})
  }

  lemma HandledLater(parse: Reader, p: Pass, p': Pass, row: Row)
    requires RowHandled(parse, p, row) && p.seen.Keys <= p'.seen.Keys && p.failed <= p'.failed
    ensures RowHandled(parse, p', row)
  {
    var id := if parse(row.raw).Some? then parse(row.raw).value.id else row.name;
    if Failed(p, id) {
      FailedLater(p, p', id);
    }
  }

  lemma RowsHandledLater(parse: Reader, p: Pass, p': Pass, rows: seq<Row>)
    requires RowsHandled(parse, p) && p'.read == p.read + rows
    requires p.seen.Keys <= p'.seen.Keys && p.failed <= p'.failed
    requires forall row <- rows :: RowHandled(parse, p', row)
    ensures RowsHandled(parse, p')
  {
    forall row <- p'.read ensures RowHandled(parse, p', row) {
      if row in p.read {
        HandledLater(parse, p, p', row);
      }
    }
  }

  lemma {:induction false} UnparsedRows(parse: Reader, rows: seq<Row>)
    ensures forall row <- rows :: parse(row.raw) == None ==> exists f <- Unparsed(rows, parse) :: f.id == row.name
  {
    if rows != [] {
      var less, row := rows[..|rows| - 1], rows[|rows| - 1];
      assert rows == less + [row];
      UnparsedRows(parse, less);
      forall x <- rows | parse(x.raw) == None ensures exists f <- Unparsed(rows, parse) :: f.id == x.name {
        if x in less {
          var f :| f in Unparsed(less, parse) && f.id == x.name;
          assert f in Unparsed(rows, parse);
        } else {
          assert EventFailure(row.name, None, CannotRebuild) in Unparsed(rows, parse);
        }
      }
    }
  }

  /** A page's rows are handled once its entries are and its unparsed rows failed. */
  lemma PageHandled(parse: Reader, p: Pass, rows: seq<Row>)
    requires forall f <- Unparsed(rows, parse) :: Failed(p, f.id)
    requires forall se <- Collapsed(Parsed(rows, parse)) :: Handled(p, se.ev.id)
    ensures forall row <- rows :: RowHandled(parse, p, row)
  {
    UnparsedRows(parse, rows);
    CollapsedRead(parse, rows);
  }

  lemma ReadAmongMore(parse: Reader, rows: seq<Row>, more: seq<Row>, ev: Leaf.Event)
    requires ReadAmong(parse, rows, ev) || ReadAmong(parse, more, ev)
    ensures ReadAmong(parse, rows + more, ev)
  {
    var row :| row in rows + more && parse(row.raw) == Some(ev);
  }

  lemma RowsAccounted(w: World, p: Pass, p0: Pass, fs: seq<EventFailure>, ses: seq<Served>, c: Clock)
    requires Accounted(p, {}) && p0 == p.(read := p0.read)
    requires forall se <- ses :: se.conflict.Some? ==> se.conflict.value.id == se.ev.id
    ensures var st := ProcessAll(w, FailAll(p0, fs, c.now), ses, c); st.err == None ==> Accounted(st.p, {})
  {
    AccountedAside(p, p0, {});
    FailAllAccounts(p0, fs, c.now);
    ProcessAllAccounts(w, FailAll(p0, fs, c.now), ses, c);
  }

  lemma ReadRowsKeeps(w: World, s: Settings, f0: FeedState, c: Clock, p: Pass, rows: seq<Row>)
    requires Caught(f0, s.parse, c, p)
    ensures var st := ReadRows(w, s, c, p, rows);
            Reads(f0, s.parse, c, st.p) && (st.err.None? ==> Caught(f0, s.parse, c, st.p))
  {
    var ses := Collapsed(Parsed(rows, s.parse));
    CollapsedRead(s.parse, rows);
    var p0 := p.(read := p.read + rows);
    MarkAside(f0, c, p, p.highWater, p.read + rows);
    FailAllKeeps(f0, c, p0, Unparsed(rows, s.parse));
    FailAllAdds(p0, Unparsed(rows, s.parse), c.now);
    var p1 := FailAll(p0, Unparsed(rows, s.parse), c.now);
    ProcessAllKeeps(w, f0, c, p1, ses);
    forall ev | ReadAmong(s.parse, p.read, ev) || ReadAmong(s.parse, rows, ev)
      ensures ReadAmong(s.parse, p1.read, ev)
    {
      ReadAmongMore(s.parse, p.read, rows, ev);
    }
    ProcessAllAdds(w, s.parse, p1, ses, c);
    var st := ProcessAll(w, p1, ses, c);
    assert MarkOk(f0, c, p1);
    RowsAccounted(w, p, p0, Unparsed(rows, s.parse), ses, c);
    if st.err.None? {
      forall f <- Unparsed(rows, s.parse) ensures Failed(st.p, f.id) {
        FailedLater(p1, st.p, f.id);
      }
      PageHandled(s.parse, st.p, rows);
      RowsHandledLater(s.parse, p, st.p, rows);
    }
  }

  lemma AskAside(f0: FeedState, parse: Reader, c: Clock, p: Pass, h': History)
    requires Caught(f0, parse, c, p)
    ensures Caught(f0, parse, c, p.(h := h'))
  {
    var p' := p.(h := h');
    HeadAside(f0, c, p, h', {});
    AccountedAside(p, p', {});
    assert p'.read == p.read + [];
    RowsHandledLater(parse, p, p', []);
  }

  lemma TakePageKeeps(w: World, s: Settings, f0: FeedState, c: Clock, r: Reading, rows: seq<Row>, hasMore: bool, lastId: Id)
    requires Caught(f0, s.parse, c, r.p)
    ensures var st := TakePage(w, s, c, r, rows, hasMore, lastId);
            && Reads(f0, s.parse, c, st.r.p)
            && (st.Continue? || !st.end.Broken? ==> Caught(f0, s.parse, c, st.r.p))
  {
    ReadRowsKeeps(w, s, f0, c, r.p, rows);
    var st := ReadRows(w, s, c, r.p, rows);
    assert TakePage(w, s, c, r, rows, hasMore, lastId).r.p == st.p;
  }

  lemma ReadPageKeeps(w: World, s: Settings, f0: FeedState, c: Clock, r: Reading)
    requires Caught(f0, s.parse, c, r.p)
    ensures var st := ReadPage(w, s, c, r);
            && Reads(f0, s.parse, c, st.r.p)
            && (st.Continue? || !st.end.Broken? ==> Caught(f0, s.parse, c, st.r.p))
  {
    var req := Query(r.p.feed, OrDefault(s.overlap, DEFAULT_OVERLAP), r.after);
    var r1 := r.(p := r.p.(h := Ask(r.p.h, req)));
    PageCases(w, s, c, r, r1);
    AskAside(f0, s.parse, c, r.p, Ask(r.p.h, req));
    var a := w.server(r.p.h.asked, req);
    if a.PageAnswer? && ReadPage(w, s, c, r) == TakePage(w, s, c, r1, a.rows, a.hasMore, a.lastId) {
      TakePageKeeps(w, s, f0, c, r1, a.rows, a.hasMore, a.lastId);
    }
  }

  lemma {:induction false} ReadFeedKeeps(w: World, s: Settings, f0: FeedState, c: Clock, r: Reading)
    requires Bounded(r) && Caught(f0, s.parse, c, r.p)
    ensures var (r', end) := ReadFeed(w, s, c, r);
            && Reads(f0, s.parse, c, r'.p)
            && (!end.Broken? ==> Caught(f0, s.parse, c, r'.p))
    decreases 2 * MAX_FEED_PAGES - TotalUses(r.cursors)
  {
    ReadPageKeeps(w, s, f0, c, r);
    if ReadPage(w, s, c, r).Continue? {
      ContinuingUsesACursor(w, s, c, r);
      ReadFeedKeeps(w, s, f0, c, ReadPage(w, s, c, r).r);
    }
  }

  // ---------------------------------------------------------------------
  // The pending events that were not listed
  // ---------------------------------------------------------------------

  /** Lists exactly a set's ids, each once. */
  ghost predicate Enumerates(sorted: set<Id> -> seq<Id>) {
    forall ids: set<Id> :: Lists(sorted(ids), ids)
  }

  ghost predicate Lists(listing: seq<Id>, ids: set<Id>) {
    && (forall id :: id in listing <==> id in ids)
    && (forall i, j :: 0 <= i < j < |listing| ==> listing[i] != listing[j])
  }

  /** A pending id failed, is within its grace, or is up for withdrawal. */
  ghost predicate Decided(c: Clock, p: Pass, id: Id) {
    id in p.feed.pending ==>
      Failed(p, id) || c.now - p.feed.pending[id].firstSeen <= c.grace || id in p.withdrawn
  }

  /** What rechecking one id leaves of the rest of the pass. */
  ghost predicate Rechecks(p: Pass, p': Pass) {
    && p'.seen == p.seen && p'.read == p.read && p'.highWater == p.highWater && p'.listed == p.listed
    && p'.feed.highWater == p.feed.highWater && p'.withdrawn == p.withdrawn
    && p.failed <= p'.failed && p'.feed.pending.Keys <= p.feed.pending.Keys
  }

  lemma SettleStored(c: Clock, p: Pass, id: Id, oc: Outcome, failure: Option<EventFailure>, pe: PendingEvent)
    requires id in p.feed.pending && (failure == None ==> oc != NotLogged)
    ensures Rechecks(p, Settle(p, id, oc, failure, pe, None, c))
  {}

  lemma DecidedElsewhere(c: Clock, p: Pass, id: Id, oc: Outcome, failure: Option<EventFailure>, pe: PendingEvent, x: Id)
    requires x != id && Decided(c, p, x)
    ensures Decided(c, Settle(p, id, oc, failure, pe, None, c), x)
  {
    var p' := Settle(p, id, oc, failure, pe, None, c);
    if Failed(p, x) {
      FailedLater(p, p', x);
    }
  }

  lemma DecidedHere(c: Clock, p: Pass, id: Id, oc: Outcome, failure: Option<EventFailure>, pe: PendingEvent)
    requires Settleable(c, p, id, oc, failure, pe) && c.grace >= 0
    ensures Decided(c, Settle(p, id, oc, failure, pe, None, c), id)
  {
    var p' := Settle(p, id, oc, failure, pe, None, c);
    SettledHere(c, p, id, oc, failure, pe, None);
    var p1 := p'.(listed := p'.listed + {id});
    assert Due(c, p1, id);
    if Failed(p1, id) {
      FailedLater(p1, p', id);
    }
  }

  /** One stored outcome settled: everything else stays as it was. */
  ghost predicate StoredStep(f0: FeedState, c: Clock, p: Pass, p': Pass, id: Id) {
    && Always(f0, c, p') && SettledBut(c, p', {}) && Decided(c, p', id)
    && Rechecks(p, p')
    && (forall x :: x != id ==> Reports(p', x) <= Reports(p, x))
    && (forall x :: x != id && Decided(c, p, x) ==> Decided(c, p', x))
  }

  lemma SettleStoredKeeps(f0: FeedState, c: Clock, p: Pass, id: Id, oc: Outcome, failure: Option<EventFailure>, pe: PendingEvent)
    requires Always(f0, c, p) && SettledBut(c, p, {})
    requires id in p.feed.pending && id !in p.listed && Reports(p, id) == 0 && pe == p.feed.pending[id]
    requires failure.Some? ==> failure.value.id == id
    requires failure == None ==> oc != NotLogged
    ensures StoredStep(f0, c, p, Settle(p, id, oc, failure, pe, None, c), id)
  {
    var p' := Settle(p, id, oc, failure, pe, None, c);
    assert Settleable(c, p, id, oc, failure, pe);
    SettleAlways(f0, c, p, id, oc, failure, pe, None);
    SettleKeeps(f0, c, p, id, oc, failure, pe, None);
    SettleStored(c, p, id, oc, failure, pe);
    DecidedHere(c, p, id, oc, failure, pe);
    forall x | x != id ensures Reports(p', x) <= Reports(p, x) {
      SettleReports(p, id, oc, failure, pe, None, c, x);
    }
    forall x | x != id && Decided(c, p, x) ensures Decided(c, p', x) {
      DecidedElsewhere(c, p, id, oc, failure, pe, x);
    }
  }

  lemma StoredStepAside(f0: FeedState, c: Clock, p: Pass, h': History, p': Pass, id: Id)
    requires StoredStep(f0, c, p.(h := h'), p', id)
    ensures StoredStep(f0, c, p, p', id)
  {
    var p1 := p.(h := h');
    assert forall x :: Reports(p1, x) == Reports(p, x);
    forall x | x != id && Decided(c, p, x) ensures Decided(c, p', x) {
      if Failed(p, x) { FailedLater(p, p1, x); }
      assert Decided(c, p1, x);
    }
  }

  lemma NoStep(f0: FeedState, c: Clock, p: Pass, id: Id)
    requires Always(f0, c, p) && SettledBut(c, p, {}) && (id in p.listed || id !in p.feed.pending)
    ensures StoredStep(f0, c, p, p, id)
  {
    assert Due(c, p, id);
  }

  lemma Recheck1Keeps(w: World, f0: FeedState, c: Clock, p: Pass, id: Id)
    requires Always(f0, c, p) && SettledBut(c, p, {}) && (id in p.listed || Reports(p, id) == 0)
    ensures var st := Recheck1(w, p, id, c);
            && Always(f0, c, st.p) && Rechecks(p, st.p)
            && (st.err.None? ==> StoredStep(f0, c, p, st.p, id))
  {
    if id in p.listed || id !in p.feed.pending {
      NoStep(f0, c, p, id);
    } else {
      var pe := p.feed.pending[id];
      if pe.index < p.h.latest.size {
        CheckShape(w, p.h, id, pe.index, PendingHashes(pe));
        var (h', v) := CheckInclusion(w, p.h, id, pe.index, PendingHashes(pe));
        HeadAside(f0, c, p, h', {});
        if v.Ok? {
          var p1 := p.(h := h');
          assert Reports(p1, id) == Reports(p, id);
          SettleStoredKeeps(f0, c, p1, id, v.value.0, v.value.1, pe);
          StoredStepAside(f0, c, p, h', Settle(p1, id, v.value.0, v.value.1, pe, None, c), id);
        }
      } else {
        SettleStoredKeeps(f0, c, p, id, Pending, None, pe);
      }
    }
  }

  lemma RechecksTransitive(a: Pass, b: Pass, c: Pass)
    requires Rechecks(a, b) && Rechecks(b, c)
    ensures Rechecks(a, c)
  {}

  lemma {:induction false} RecheckAllKeeps(w: World, f0: FeedState, c: Clock, p: Pass, ids: seq<Id>)
    requires Always(f0, c, p) && SettledBut(c, p, {})
    requires forall id <- ids :: id in p.listed || Reports(p, id) == 0
    requires forall i, j :: 0 <= i < j < |ids| ==> ids[i] != ids[j]
    ensures var st := RecheckAll(w, p, ids, c);
            && Always(f0, c, st.p) && Rechecks(p, st.p)
            && (st.err.None? ==>
                  && SettledBut(c, st.p, {})
                  && (forall id <- ids :: Decided(c, st.p, id))
                  && (forall id :: id !in ids && Decided(c, p, id) ==> Decided(c, st.p, id)))
    decreases |ids|
  {
    if ids != [] {
      var id, rest := ids[0], ids[1..];
      Recheck1Keeps(w, f0, c, p, id);
      var st := Recheck1(w, p, id, c);
      if st.err.None? {
        assert id !in rest;
        forall x <- rest ensures x in st.p.listed || Reports(st.p, x) == 0 {
          assert x in ids && x != id;
        }
        RecheckAllKeeps(w, f0, c, st.p, rest);
        RechecksTransitive(p, st.p, RecheckAll(w, st.p, rest, c).p);
      }
    }
  }

  // ---------------------------------------------------------------------
  // Withdrawals
  // ---------------------------------------------------------------------

  ghost predicate AllDecided(c: Clock, p: Pass) {
    forall id <- p.feed.pending :: Decided(c, p, id)
  }

  lemma {:induction false} RetractAllKeeps(f0: FeedState, c: Clock, p: Pass, ids: seq<Id>)
    requires Always(f0, c, p) && forall id <- ids :: id in p.seen && p.seen[id].ev.index == None
    ensures Always(f0, c, RetractAll(p, ids))
    ensures var p' := RetractAll(p, ids);
            && p'.seen == p.seen && p'.read == p.read && p'.highWater == p.highWater && p'.feed == p.feed
            && p'.failed == p.failed && p'.withdrawn.Keys <= p.withdrawn.Keys
    decreases |ids|
  {
    if ids != [] {
      RetractKeeps(f0, c, p, ids[0]);
      RetractAllKeeps(f0, c, Retract(p, ids[0]), ids[1..]);
    }
  }

  lemma WithdrawnFails(f0: FeedState, c: Clock, p: Pass, id: Id)
    requires Always(f0, c, p) && id in p.withdrawn
    ensures var p' := Fail(Retract(p, id), p.withdrawn[id], c.now);
            && Always(f0, c, p')
            && (SettledBut(c, p, {}) ==> SettledBut(c, p', {}))
            && (AllDecided(c, p) ==> AllDecided(c, p'))
  {
    RetractKeeps(f0, c, p, id);
    FailKeeps(f0, c, Retract(p, id), p.withdrawn[id]);
    if AllDecided(c, p) {
      WithdrawnDecides(c, p, id);
    }
  }

  lemma WithdrawnDecides(c: Clock, p: Pass, id: Id)
    requires AllDecided(c, p) && id in p.withdrawn && p.withdrawn[id].id == id
    ensures AllDecided(c, Fail(Retract(p, id), p.withdrawn[id], c.now))
  {
    var p1 := Retract(p, id);
    var p' := Fail(p1, p.withdrawn[id], c.now);
    forall x <- p'.feed.pending ensures Decided(c, p', x) {
      assert Decided(c, p, x);
      FailedOneMore(p1, p', p.withdrawn[id], x);
      if Failed(p, x) { FailedLater(p, p1, x); }
    }
  }

  /** Every withdrawal still held stands: the id's indexed copy was never met. */
  lemma {:induction false} FailWithdrawnKeeps(f0: FeedState, c: Clock, p: Pass, ids: seq<Id>)
    requires Always(f0, c, p)
    ensures var p' := FailWithdrawn(p, ids, c.now);
            && Always(f0, c, p')
            && p'.seen == p.seen && p'.read == p.read && p'.highWater == p.highWater && p'.feed.highWater == p.feed.highWater
            && p.failed <= p'.failed
            && (forall id <- p'.withdrawn :: id in p.withdrawn && id !in ids)
            && (SettledBut(c, p, {}) ==> SettledBut(c, p', {}))
            && (AllDecided(c, p) ==> AllDecided(c, p'))
    decreases |ids|
  {
    if ids != [] {
      var id := ids[0];
      if id in p.withdrawn {
        WithdrawnFails(f0, c, p, id);
        FailWithdrawnKeeps(f0, c, Fail(Retract(p, id), p.withdrawn[id], c.now), ids[1..]);
      } else {
        FailWithdrawnKeeps(f0, c, p, ids[1..]);
      }
    }
  }

  /** How a pass stands when it closes. */
  ghost predicate Closing(f0: FeedState, parse: Reader, c: Clock, p: Pass) {
    Always(f0, c, p) && SeenRead(parse, p) && MarkOk(f0, c, p)
  }

  /** Nothing is left open: every withdrawal is a finding, every pending id is decided. */
  ghost predicate Closed(parse: Reader, c: Clock, p: Pass) {
    SettledBut(c, p, {}) && AllDecided(c, p) && RowsHandled(parse, p) && Accounted(p, {}) && p.withdrawn == map[]
  }

  lemma WithdrawalsKeep(s: Settings, f0: FeedState, c: Clock, p: Pass, complete: bool)
    requires Closing(f0, s.parse, c, p) && Enumerates(s.sorted)
    ensures var (p', deferred) := Withdrawals(s, c, p, complete);
            && Closing(f0, s.parse, c, p')
            && (!deferred && SettledBut(c, p, {}) && AllDecided(c, p) && RowsHandled(s.parse, p) && Accounted(p, {}) ==> Closed(s.parse, c, p'))
  {
    assert forall ids: set<Id> :: Lists(s.sorted(ids), ids);
    var p1 := if complete then p else RetractAll(p, s.sorted(p.withdrawn.Keys));
    assert Lists(s.sorted(p.withdrawn.Keys), p.withdrawn.Keys);
    if !complete {
      RetractAllKeeps(f0, c, p, s.sorted(p.withdrawn.Keys));
      if p.withdrawn == map[] { NothingToRetract(s, p); }
    }
    assert Lists(s.sorted(p1.withdrawn.Keys), p1.withdrawn.Keys);
    FailWithdrawnKeeps(f0, c, p1, s.sorted(p1.withdrawn.Keys));
    var (p', deferred) := Withdrawals(s, c, p, complete);
    if !deferred && RowsHandled(s.parse, p) && Accounted(p, {}) {
      assert p1 == p;
      FailWithdrawnAccounts(p, s.sorted(p.withdrawn.Keys), c.now);
      assert p'.read == p.read + [];
      RowsHandledLater(s.parse, p, p', []);
    }
  }

  lemma HasMember(listing: seq<Id>)
    ensures listing == [] || exists id :: id in listing
  {
    if listing != [] {
      assert listing[0] in listing;
    }
  }

  lemma NothingToRetract(s: Settings, p: Pass)
    requires Enumerates(s.sorted) && p.withdrawn == map[]
    ensures RetractAll(p, s.sorted(p.withdrawn.Keys)) == p
  {
    var listing := s.sorted(p.withdrawn.Keys);
    assert Lists(listing, p.withdrawn.Keys);
    HasMember(listing);
  }

  // ---------------------------------------------------------------------
  // A whole pass
  // ---------------------------------------------------------------------

  lemma BeginIsCaught(s: Settings, now: Time, h: History, feed: FeedState)
    requires Tidy(feed) && s.grace >= 0
    ensures Caught(feed, s.parse, ClockOf(s, now), Begin(h, feed).p)
  {
    assert forall id :: Reports(Begin(h, feed).p, id) == 0;
  }

  lemma RecheckedKeeps(w: World, s: Settings, f0: FeedState, c: Clock, p: Pass)
    requires Caught(f0, s.parse, c, p) && Enumerates(s.sorted)
    ensures var (p1, broken) := Rechecked(w, s, c, p, None);
            && Closing(f0, s.parse, c, p1)
            && (broken.None? ==> SettledBut(c, p1, {}) && AllDecided(c, p1) && RowsHandled(s.parse, p1) && Accounted(p1, {}))
  {
    var ids := s.sorted(p.feed.pending.Keys);
    assert Lists(ids, p.feed.pending.Keys);
    forall id <- ids ensures id in p.listed || Reports(p, id) == 0 {
      assert id in p.feed.pending.Keys;
    }
    RecheckAllKeeps(w, f0, c, p, ids);
    RecheckAllAccounts(w, p, ids, c);
    var st := RecheckAll(w, p, ids, c);
    assert st.p.read == p.read + [];
    RowsHandledLater(s.parse, p, st.p, []);
    assert st.err.None? ==> forall id <- st.p.feed.pending :: id in ids;
  }

  /** How a pass stands when it closes, and whether anything is left open. */
  lemma Pass1Ends(w: World, s: Settings, now: Time, h: History, feed: FeedState)
    returns (p: Pass, truncated: bool, broken: Option<RunError>, deferred: bool)
    requires Tidy(feed) && s.grace >= 0 && Enumerates(s.sorted)
    ensures Pass1(w, s, now, h, feed) == Close(s, ClockOf(s, now), p, truncated, broken, deferred)
    ensures Closing(feed, s.parse, ClockOf(s, now), p)
    ensures deferred ==> truncated || broken.Some?
    ensures broken.None? && !deferred ==> Closed(s.parse, ClockOf(s, now), p)
  {
    var c := ClockOf(s, now);
    BeginIsCaught(s, now, h, feed);
    ReadFeedKeeps(w, s, feed, c, Begin(h, feed));
    var (r, end) := ReadFeed(w, s, c, Begin(h, feed));
    var (p1, b) := Rechecked(w, s, c, r.p, BrokenBy(end));
    if !end.Broken? {
      RecheckedKeeps(w, s, feed, c, r.p);
    }
    WithdrawalsKeep(s, feed, c, p1, end == Complete);
    var (p2, d) := Withdrawals(s, c, p1, end == Complete);
    p, truncated, broken, deferred := p2, end == Truncated, b, d;
  }

  /** What a pass is given: a tidy state, lengths that are not negative, and a way to list ids in order. */
  ghost predicate Given(s: Settings, state: State) {
    Tidy(state.feed) && s.overlap >= 0 && s.grace >= 0 && Enumerates(s.sorted)
  }

  /** A pending id is done at its index, failed, or pending as before and within its grace. */
  ghost predicate Settled(s: Settings, now: Time, before: State, r: RunResult, id: Id)
    requires id in before.feed.pending && r.pass.Some?
  {
    var pe, f := before.feed.pending[id], r.state.feed;
    || (id in f.done && f.done[id].index == Some(pe.index))
    || Failed(r.pass.value, id)
    || (id in f.pending && f.pending[id].index == pe.index && f.pending[id].firstSeen == pe.firstSeen
        && now - pe.firstSeen <= OrDefault(s.grace, DEFAULT_GRACE))
  }

  /** A record keeps its index for as long as it is kept. */
  ghost predicate DoneConserved(before: FeedState, after: FeedState) {
    forall id <- before.done :: id in after.done ==> after.done[id].index == before.done[id].index
  }

  lemma PruneKeeps(f0: FeedState, f: FeedState, mark: Time, now: Time, overlap: int)
    requires Evolves(f0, f, now) && Tidy(f0) && overlap >= 0
    ensures var f' := Prune(f.(highWater := mark), now - overlap);
            Tidy(f') && PendingKept(f0, f') && DoneConserved(f0, f')
  {}

  /**
   * However a pass ends, it leaves a tidy state: no id in Done and Pending at
   * once, every pending id still there or done at its index, every record at
   * its index; and each id is reported at most once.
   */
  lemma PassConserves(w: World, s: Settings, now: Time, baselines: seq<Checkpoint>, state: State)
    requires Given(s, state)
    ensures var r := RunOnce(w, s, now, baselines, state);
            && Tidy(r.state.feed) && PendingKept(state.feed, r.state.feed) && DoneConserved(state.feed, r.state.feed)
            && (r.pass.Some? ==> forall id :: Reports(r.pass.value, id) <= 1)
  {
    var start := Start(w, Some(state.anchor), baselines);
    if start.Started? {
      var p, truncated, broken, deferred := Pass1Ends(w, s, now, start.h, state.feed);
      PruneKeeps(state.feed, p.feed, Mark(p, deferred), now, OrDefault(s.overlap, DEFAULT_OVERLAP));
      var r := Close(s, ClockOf(s, now), p, truncated, broken, deferred);
      assert forall id :: Reports(r.pass.value, id) == Reports(p, id);
    }
  }

  /**
   * A pass that returns no error leaves each previously pending id done,
   * failed, or pending within its grace.
   */
  lemma PendingSettled(w: World, s: Settings, now: Time, baselines: seq<Checkpoint>, state: State, id: Id)
    requires Given(s, state) && id in state.feed.pending
    ensures var r := RunOnce(w, s, now, baselines, state);
            r.err == None ==> r.pass.Some? && Settled(s, now, state, r, id)
  {
    var start := Start(w, Some(state.anchor), baselines);
    if start.Started? {
      var p, truncated, broken, deferred := Pass1Ends(w, s, now, start.h, state.feed);
      var r := Close(s, ClockOf(s, now), p, truncated, broken, deferred);
      if r.err == None && id in p.feed.pending {
        assert Decided(ClockOf(s, now), p, id);
        if Failed(p, id) { FailedLater(p, r.pass.value, id); }
      }
    }
  }

  /** Some row the pass read has this id. */
  ghost predicate WasRead(parse: Reader, p: Pass, id: Id) {
    exists row <- p.read :: parse(row.raw).Some? && parse(row.raw).value.id == id
  }

  /** Every row the pass read with this id lacks an index. */
  ghost predicate AllUnindexed(parse: Reader, p: Pass, id: Id) {
    forall row <- p.read :: parse(row.raw).Some? && parse(row.raw).value.id == id ==> parse(row.raw).value.index == None
  }

  lemma ReadIsHandled(parse: Reader, c: Clock, p: Pass, id: Id)
    requires Closed(parse, c, p) && SeenRead(parse, p) && Tidy(p.feed)
    requires WasRead(parse, p, id) && id in p.feed.done
    ensures p.feed.done[id].recorded == c.now
    ensures AllUnindexed(parse, p, id) ==> Failed(p, id)
  {
    var row :| row in p.read && parse(row.raw).Some? && parse(row.raw).value.id == id;
    assert RowHandled(parse, p, row);
    assert Alive(c, p, id);
    if id in p.seen {
      assert ReadAmong(parse, p.read, p.seen[id].ev);
    }
  }

  /**
   * A served id's record survives any pass that returns no error, and such a
   * pass fails every recorded id whose copies all lack an index.
   */
  lemma ServedRecordSurvives(w: World, s: Settings, now: Time, baselines: seq<Checkpoint>, state: State, id: Id)
    requires Given(s, state) && id in state.feed.done
    ensures var r := RunOnce(w, s, now, baselines, state);
            r.err == None ==>
              && r.pass.Some?
              && (WasRead(s.parse, r.pass.value, id) ==>
                    && id in r.state.feed.done && r.state.feed.done[id].index == state.feed.done[id].index
                    && r.state.feed.done[id].recorded == now
                    && (AllUnindexed(s.parse, r.pass.value, id) ==> Failed(r.pass.value, id)))
  {
    var start := Start(w, Some(state.anchor), baselines);
    if start.Started? {
      var c := ClockOf(s, now);
      var p, truncated, broken, deferred := Pass1Ends(w, s, now, start.h, state.feed);
      var r := Close(s, c, p, truncated, broken, deferred);
      if r.err == None && WasRead(s.parse, r.pass.value, id) {
        assert WasRead(s.parse, p, id);
        ReadIsHandled(s.parse, c, p, id);
        if AllUnindexed(s.parse, r.pass.value, id) {
          assert AllUnindexed(s.parse, p, id);
          FailedLater(p, r.pass.value, id);
        }
      }
    }
  }

  /** Where the rows of a pass without an error end up. */
  ghost predicate Kept(r: RunResult, id: Id)
    requires r.pass.Some?
  {
    || id in r.state.feed.done || id in r.state.feed.pending
    || id in r.pass.value.notLogged || Failed(r.pass.value, id)
  }

  lemma HandledIsKept(s: Settings, c: Clock, p: Pass, deferred: bool, truncated: bool, id: Id)
    requires Closed(s.parse, c, p) && Handled(p, id) && s.overlap >= 0
    ensures var r := Close(s, c, p, truncated, None, deferred);
            r.err == None ==> r.pass.Some? && Kept(r, id)
  {
    var r := Close(s, c, p, truncated, None, deferred);
    if r.err == None {
      if Failed(p, id) {
        FailedLater(p, r.pass.value, id);
      } else {
        assert Found(p, id) && Alive(c, p, id);
      }
    }
  }

  /**
   * No row is lost: in a pass that returns no error, each row read that parses
   * ends with its id done, pending, reported as not logged, or failed, and
   * each that does not fails under its name.
   */
  lemma NoRowIsLost(w: World, s: Settings, now: Time, baselines: seq<Checkpoint>, state: State, row: Row)
    requires Given(s, state)
    ensures var r := RunOnce(w, s, now, baselines, state);
            r.err == None ==>
              && r.pass.Some?
              && (row in r.pass.value.read ==>
                    match s.parse(row.raw)
                    case Some(ev) => Kept(r, ev.id)
                    case None => Failed(r.pass.value, row.name))
  {
    var start := Start(w, Some(state.anchor), baselines);
    if start.Started? {
      var c := ClockOf(s, now);
      var p, truncated, broken, deferred := Pass1Ends(w, s, now, start.h, state.feed);
      var r := Close(s, c, p, truncated, broken, deferred);
      if r.err == None && row in r.pass.value.read {
        assert RowHandled(s.parse, p, row);
        if s.parse(row.raw).Some? {
          HandledIsKept(s, c, p, deferred, truncated, s.parse(row.raw).value.id);
        } else {
          FailedLater(p, r.pass.value, row.name);
        }
      }
    }
  }

  /**
   * The mark never falls, never newly passes this clock by more than the
   * allowed skew, stands still on any error or finding, and strictly rises in
   * a pass a page limit cut short without an error.
   */
  lemma MarkProgress(w: World, s: Settings, now: Time, baselines: seq<Checkpoint>, state: State)
    requires Given(s, state)
    ensures var r := RunOnce(w, s, now, baselines, state);
            var before, after := state.feed.highWater, r.state.feed.highWater;
            && before <= after && (after == before || after <= now + MAX_FUTURE_SKEW)
            && (r.err.Some? ==> after == before)
            && (r.pass.Some? && r.pass.value.failed != [] ==> after == before)
            && (r.truncated && r.err == None ==> before < after)
  {
    var start := Start(w, Some(state.anchor), baselines);
    if start.Started? {
      var p, truncated, broken, deferred := Pass1Ends(w, s, now, start.h, state.feed);
    }
  }
}
