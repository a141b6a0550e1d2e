/**
 * What a pass keeps of the state it was given and what it owes its report:
 * nothing pending is lost, no record loses its index, and no id is reported
 * twice. None of this depends on what the server answers.
 */
module FeedKeeps {
  import opened Basics
  import opened Inclusion
  import opened Feed
  import Leaf

  // ---------------------------------------------------------------------
  // How the state may change
  // ---------------------------------------------------------------------

  /** No id is both done and pending, and every done record carries an index. */
  ghost predicate Tidy(f: FeedState) {
    forall id <- f.done :: id !in f.pending && f.done[id].index.Some?
  }

  /** A pending record stays as it was first seen, or is done at the same index. */
  ghost predicate PendingKept(f: FeedState, f': FeedState) {
    forall id <- f.pending ::
      if id in f'.pending then
        f'.pending[id].index == f.pending[id].index && f'.pending[id].firstSeen == f.pending[id].firstSeen
      else id in f'.done && f'.done[id].index == Some(f.pending[id].index)
  }

  /** A done record keeps its index; its retention only starts again. */
  ghost predicate DoneKept(f: FeedState, f': FeedState, now: Time) {
    forall id <- f.done ::
      id in f'.done && f'.done[id].index == f.done[id].index && f'.done[id].recorded in {f.done[id].recorded, now}
  }

  /** What is new dates from this pass. */
  ghost predicate NewIsNew(f: FeedState, f': FeedState, now: Time) {
    && (forall id <- f'.done :: id in f.done || f'.done[id].recorded == now)
    && (forall id <- f'.pending :: id in f.pending || f'.pending[id].firstSeen == now)
  }

  ghost predicate Evolves(f: FeedState, f': FeedState, now: Time) {
    Tidy(f') && PendingKept(f, f') && DoneKept(f, f', now) && NewIsNew(f, f', now) && f'.highWater == f.highWater
  }

  lemma EvolvesTransitive(a: FeedState, b: FeedState, c: FeedState, now: Time)
    requires Evolves(a, b, now) && Evolves(b, c, now)
    ensures Evolves(a, c, now)
  {
    forall id <- a.pending
      ensures if id in c.pending then
                c.pending[id].index == a.pending[id].index && c.pending[id].firstSeen == a.pending[id].firstSeen
              else id in c.done && c.done[id].index == Some(a.pending[id].index)
    {
      if id !in b.pending { assert id in b.done && id in c.done; }
    }
  }

  lemma RefreshEvolves(f: FeedState, id: Id, now: Time)
    requires Tidy(f)
    ensures Evolves(f, Refresh(f, id, now), now)
  {}

  /** What a settled outcome may say of an id the state already knows. */
  ghost predicate Fit(f: FeedState, id: Id, oc: Outcome, failure: Option<EventFailure>, pe: PendingEvent) {
    && (failure.Some? ==> failure.value.id == id)
    && (failure.None? && id in f.done ==> oc == Verified && f.done[id].index == Some(pe.index))
  }

  lemma SettleEvolves(p: Pass, id: Id, oc: Outcome, failure: Option<EventFailure>, pe: PendingEvent, ev: Option<Leaf.Event>, c: Clock)
    requires Tidy(p.feed) && Fit(p.feed, id, oc, failure, pe)
    requires id in p.feed.pending || pe.firstSeen == c.now
    ensures Evolves(p.feed, Settle(p, id, oc, failure, pe, ev, c).feed, c.now)
  {
    var f := if failure == None then Contested(p.feed, id, oc, pe, ev, c) else failure;
    if f.Some? {
      RefreshEvolves(p.feed, id, c.now);
    }
  }

  // ---------------------------------------------------------------------
  // What the report may say
  // ---------------------------------------------------------------------

  function Ids(vs: seq<Vouch>): (ids: seq<Id>)
    ensures |ids| == |vs| && forall i :: 0 <= i < |vs| ==> ids[i] == vs[i].id
  {
    seq(|vs|, i requires 0 <= i < |vs| => vs[i].id)
  }

  lemma IdsOneMore(vs: seq<Vouch>, v: Vouch)
    ensures Ids(vs + [v]) == Ids(vs) + [v.id]
  {}

  /** How often an id is reported, as verified, not logged or pending. */
  ghost function Reports(p: Pass, id: Id): nat {
    multiset(p.notLogged)[id] + multiset(p.pending)[id] + multiset(Ids(p.verified))[id]
  }

  ghost predicate Failed(p: Pass, id: Id) {
    exists f <- p.failed :: f.id == id
  }

  lemma {:induction false} WithoutCounts(ids: seq<Id>, id: Id, x: Id)
    ensures multiset(Without(ids, id))[x] == if x == id then 0 else multiset(ids)[x]
  {
    if ids != [] {
      WithoutCounts(ids[1..], id, x);
      assert ids == [ids[0]] + ids[1..];
    }
  }

  lemma RetractReports(p: Pass, id: Id, x: Id)
    ensures Reports(Retract(p, id), x) == if x == id then multiset(Ids(p.verified))[x] else Reports(p, x)
  {
    WithoutCounts(p.notLogged, id, x);
    WithoutCounts(p.pending, id, x);
  }

  lemma SettleReports(p: Pass, id: Id, oc: Outcome, failure: Option<EventFailure>, pe: PendingEvent, ev: Option<Leaf.Event>, c: Clock, x: Id)
    ensures Reports(Settle(p, id, oc, failure, pe, ev, c), x) <= Reports(p, x) + (if x == id then 1 else 0)
    ensures failure.Some? ==> Reports(Settle(p, id, oc, failure, pe, ev, c), x) == Reports(p, x)
    ensures oc != Verified ==> Settle(p, id, oc, failure, pe, ev, c).verified == p.verified
  {
    var f := if failure == None then Contested(p.feed, id, oc, pe, ev, c) else failure;
    if f.None? && oc == Verified {
      IdsOneMore(p.verified, Vouch(id, pe.index, PendingHashes(pe)));
    }
  }

  /** No id is reported twice, and an unindexed copy is never reported verified. */
  ghost predicate Once(p: Pass) {
    && (forall id :: Reports(p, id) <= 1)
    && (forall id <- p.seen :: p.seen[id].ev.index == None ==> id !in multiset(Ids(p.verified)))
  }

  // ---------------------------------------------------------------------
  // What a settled id has behind it
  // ---------------------------------------------------------------------

  /** A withdrawal is held only for an id of which no indexed copy was met. */
  ghost predicate WithdrawnUnindexed(p: Pass) {
    forall id <- p.withdrawn :: id in p.seen && p.seen[id].ev.index == None && p.withdrawn[id].id == id
  }

  /** Only an id that was listed, or already done, has been met. */
  ghost predicate SeenMet(p: Pass) {
    forall id <- p.seen :: id in p.listed || id in p.feed.done
  }

  /** While the feed is read, only ids met are reported. */
  ghost predicate ReportedSeen(p: Pass) {
    forall id :: Reports(p, id) > 0 ==> id in p.seen
  }

  /** A listed pending id failed, is within its grace, or is up for withdrawal. */
  ghost predicate Due(c: Clock, p: Pass, id: Id) {
    id in p.feed.pending && id in p.listed ==>
      Failed(p, id) || c.now - p.feed.pending[id].firstSeen <= c.grace || id in p.withdrawn
  }

  /** The record of an id met or failed is fresh, or its withdrawal is under way. */
  ghost predicate Alive(c: Clock, p: Pass, id: Id) {
    && (id in p.feed.done && (id in p.seen || Failed(p, id)) ==>
          p.feed.done[id].recorded == c.now || id in p.withdrawn)
    && (id in p.feed.done && id in p.seen && p.seen[id].ev.index == None ==>
          Failed(p, id) || id in p.withdrawn)
  }

  /** What holds all through a pass, even one that breaks off. */
  ghost predicate Always(f0: FeedState, c: Clock, p: Pass) {
    Evolves(f0, p.feed, c.now) && Once(p) && WithdrawnUnindexed(p) && SeenMet(p) && c.grace >= 0
  }

  /** What holds between events, but for the one under examination. */
  ghost predicate SettledBut(c: Clock, p: Pass, but: set<Id>) {
    forall id :: id !in but ==> Due(c, p, id) && Alive(c, p, id)
  }

  // ---------------------------------------------------------------------
  // Findings, withdrawals and records passed over
  // ---------------------------------------------------------------------

  lemma FailedOneMore(p: Pass, p': Pass, f: EventFailure, id: Id)
    requires p'.failed == p.failed + [f]
    ensures Failed(p', id) <==> Failed(p, id) || f.id == id
  {
    assert p'.failed[|p.failed|] == f;
    if Failed(p, id) {
      var g :| g in p.failed && g.id == id;
      assert g in p'.failed;
    }
  }

  lemma FailKeeps(f0: FeedState, c: Clock, p: Pass, f: EventFailure)
    requires Always(f0, c, p)
    ensures Always(f0, c, Fail(p, f, c.now))
    ensures ReportedSeen(p) ==> ReportedSeen(Fail(p, f, c.now))
    ensures SettledBut(c, p, {f.id}) ==> SettledBut(c, Fail(p, f, c.now), {})
  {
    var p' := Fail(p, f, c.now);
    RefreshEvolves(p.feed, f.id, c.now);
    EvolvesTransitive(f0, p.feed, p'.feed, c.now);
    assert forall id :: Reports(p', id) == Reports(p, id);
    if SettledBut(c, p, {f.id}) {
      forall id ensures Due(c, p', id) && Alive(c, p', id) {
        FailedOneMore(p, p', f, id);
        assert id != f.id ==> Due(c, p, id) && Alive(c, p, id);
      }
    }
  }

  /** Withdrawing what an unindexed copy reported leaves the id unreported. */
  lemma RetractKeeps(f0: FeedState, c: Clock, p: Pass, id: Id)
    requires Always(f0, c, p) && id in p.seen && p.seen[id].ev.index == None
    ensures Always(f0, c, Retract(p, id)) && Reports(Retract(p, id), id) == 0
    ensures ReportedSeen(p) ==> ReportedSeen(Retract(p, id))
    ensures SettledBut(c, p, {}) ==> SettledBut(c, Retract(p, id), {id})
  {
    var p' := Retract(p, id);
    forall x ensures Reports(p', x) <= Reports(p, x) && (x == id ==> Reports(p', x) == 0) {
      RetractReports(p, id, x);
    }
    if SettledBut(c, p, {}) {
      forall x | x != id ensures Due(c, p', x) && Alive(c, p', x) {
        assert Due(c, p, x) && Alive(c, p, x);
      }
    }
  }

  lemma WithdrawKeeps(f0: FeedState, c: Clock, p: Pass, id: Id, f: EventFailure)
    requires Always(f0, c, p) && id in p.seen && p.seen[id].ev.index == None && f.id == id
    ensures Always(f0, c, p.(withdrawn := p.withdrawn[id := f]))
    ensures ReportedSeen(p) ==> ReportedSeen(p.(withdrawn := p.withdrawn[id := f]))
    ensures SettledBut(c, p, {id}) ==> SettledBut(c, p.(withdrawn := p.withdrawn[id := f]), {})
  {
    var p' := p.(withdrawn := p.withdrawn[id := f]);
    assert forall x :: Reports(p', x) == Reports(p, x);
    if SettledBut(c, p, {id}) {
      forall x ensures Due(c, p', x) && Alive(c, p', x) {
        assert x != id ==> Due(c, p, x) && Alive(c, p, x);
      }
    }
  }

  lemma SkipKeeps(f0: FeedState, c: Clock, p: Pass, ev: Leaf.Event)
    requires Always(f0, c, p) && ev.id in p.feed.done && ev.id in p.seen && p.seen[ev.id].ev.index.Some?
    ensures Always(f0, c, Skipped(p, ev, c.now))
    ensures ReportedSeen(p) ==> ReportedSeen(Skipped(p, ev, c.now))
    ensures SettledBut(c, p, {ev.id}) ==> SettledBut(c, Skipped(p, ev, c.now), {})
  {
    var p' := Skipped(p, ev, c.now);
    RefreshEvolves(p.feed, ev.id, c.now);
    EvolvesTransitive(f0, p.feed, p'.feed, c.now);
    assert forall x :: Reports(p', x) == Reports(p, x);
    if SettledBut(c, p, {ev.id}) {
      forall x ensures Due(c, p', x) && Alive(c, p', x) {
        assert x != ev.id ==> Due(c, p, x) && Alive(c, p, x);
      }
    }
  }

  // ---------------------------------------------------------------------
  // Settling an outcome
  // ---------------------------------------------------------------------

  /** What a pass must know of an id before it settles an outcome for it. */
  ghost predicate Settleable(c: Clock, p: Pass, id: Id, oc: Outcome, failure: Option<EventFailure>, pe: PendingEvent) {
    && Fit(p.feed, id, oc, failure, pe)
    && (id in p.feed.pending || pe.firstSeen == c.now)
    && Reports(p, id) == 0 && id !in p.withdrawn
    && (id in p.listed || id in p.feed.pending)
    && (failure == None && oc == NotLogged ==> id in p.seen && p.seen[id].ev.index == None)
    && (failure == None && oc == Verified && id in p.seen ==> p.seen[id].ev.index.Some?)
  }

  lemma SettleOnce(c: Clock, p: Pass, id: Id, oc: Outcome, failure: Option<EventFailure>, pe: PendingEvent, ev: Option<Leaf.Event>)
    requires Once(p) && Settleable(c, p, id, oc, failure, pe)
    ensures Once(Settle(p, id, oc, failure, pe, ev, c))
  {
    var p' := Settle(p, id, oc, failure, pe, ev, c);
    forall x ensures Reports(p', x) <= 1 {
      SettleReports(p, id, oc, failure, pe, ev, c, x);
    }
    SettleReports(p, id, oc, failure, pe, ev, c, id);
    forall x <- p'.seen | p'.seen[x].ev.index == None
      ensures x !in multiset(Ids(p'.verified))
    {
      IdsOneMore(p.verified, Vouch(id, pe.index, PendingHashes(pe)));
      SettleReports(p, id, oc, failure, pe, ev, c, x);
    }
  }

  lemma SettleReported(c: Clock, p: Pass, id: Id, oc: Outcome, failure: Option<EventFailure>, pe: PendingEvent, ev: Option<Leaf.Event>)
    requires ReportedSeen(p) && id in p.seen
    ensures ReportedSeen(Settle(p, id, oc, failure, pe, ev, c))
  {
    var p' := Settle(p, id, oc, failure, pe, ev, c);
    forall x | Reports(p', x) > 0 ensures x in p'.seen {
      SettleReports(p, id, oc, failure, pe, ev, c, x);
    }
  }

  lemma SettleMet(c: Clock, p: Pass, id: Id, oc: Outcome, failure: Option<EventFailure>, pe: PendingEvent, ev: Option<Leaf.Event>)
    requires WithdrawnUnindexed(p) && SeenMet(p) && Settleable(c, p, id, oc, failure, pe)
    ensures var p' := Settle(p, id, oc, failure, pe, ev, c); WithdrawnUnindexed(p') && SeenMet(p')
  {}

  lemma SettleAlways(f0: FeedState, c: Clock, p: Pass, id: Id, oc: Outcome, failure: Option<EventFailure>, pe: PendingEvent, ev: Option<Leaf.Event>)
    requires Always(f0, c, p) && Settleable(c, p, id, oc, failure, pe)
    ensures Always(f0, c, Settle(p, id, oc, failure, pe, ev, c))
  {
    SettleEvolves(p, id, oc, failure, pe, ev, c);
    EvolvesTransitive(f0, p.feed, Settle(p, id, oc, failure, pe, ev, c).feed, c.now);
    SettleOnce(c, p, id, oc, failure, pe, ev);
    SettleMet(c, p, id, oc, failure, pe, ev);
  }

  lemma SettledElsewhere(c: Clock, p: Pass, id: Id, oc: Outcome, failure: Option<EventFailure>, pe: PendingEvent, ev: Option<Leaf.Event>, x: Id)
    requires Fit(p.feed, id, oc, failure, pe) && x != id && Due(c, p, x) && Alive(c, p, x)
    ensures var p' := Settle(p, id, oc, failure, pe, ev, c); Due(c, p', x) && Alive(c, p', x)
  {
    var p' := Settle(p, id, oc, failure, pe, ev, c);
    var f := if failure == None then Contested(p.feed, id, oc, pe, ev, c) else failure;
    if f.Some? {
      FailedOneMore(p, p', f.value, x);
    }
  }

  lemma SettledHere(c: Clock, p: Pass, id: Id, oc: Outcome, failure: Option<EventFailure>, pe: PendingEvent, ev: Option<Leaf.Event>)
    requires Settleable(c, p, id, oc, failure, pe) && c.grace >= 0
    ensures var p' := Settle(p, id, oc, failure, pe, ev, c);
            Due(c, p'.(listed := p'.listed + {id}), id) && Alive(c, p', id)
  {
    var p' := Settle(p, id, oc, failure, pe, ev, c);
    var f := if failure == None then Contested(p.feed, id, oc, pe, ev, c) else failure;
    if f.Some? {
      FailedOneMore(p, p', f.value, id);
      var g :| g in p'.failed && g.id == id;
      assert g in p'.(listed := p'.listed + {id}).failed;
    }
  }

  lemma SettleKeeps(f0: FeedState, c: Clock, p: Pass, id: Id, oc: Outcome, failure: Option<EventFailure>, pe: PendingEvent, ev: Option<Leaf.Event>)
    requires Always(f0, c, p) && SettledBut(c, p, {id}) && Settleable(c, p, id, oc, failure, pe)
    ensures SettledBut(c, Settle(p, id, oc, failure, pe, ev, c), {})
  {
    var p' := Settle(p, id, oc, failure, pe, ev, c);
    forall x ensures Due(c, p', x) && Alive(c, p', x) {
      if x == id {
        SettledHere(c, p, id, oc, failure, pe, ev);
        assert Due(c, p', id) by {
          if id in p'.listed { assert p'.(listed := p'.listed + {id}) == p'; }
        }
      } else {
        assert x !in {id};
        SettledElsewhere(c, p, id, oc, failure, pe, ev, x);
      }
    }
  }
}
