/** No id met is lost: each ends up done, pending, not logged, failed, or up for withdrawal. */
module FeedAccount {
  import opened Basics
  import opened Server
  import opened Inclusion
  import opened Feed
  import opened FeedKeeps
  import opened FeedOrder
  import Leaf

  /** Where an id may be found. */
  ghost predicate Found(p: Pass, id: Id) {
    id in p.feed.done || id in p.feed.pending || id in p.notLogged || Failed(p, id) || id in p.withdrawn
  }

  /** Every id met is to be found, but perhaps those being dealt with. */
  ghost predicate Accounted(p: Pass, but: set<Id>) {
    forall id <- p.seen :: id !in but ==> Found(p, id)
  }

  lemma FoundByFailing(p: Pass, f: EventFailure, now: Time, id: Id)
    requires Found(p, id) || f.id == id
    ensures Found(Fail(p, f, now), id)
  {
    FailedOneMore(p, Fail(p, f, now), f, id);
  }

  lemma FailAccounts(p: Pass, f: EventFailure, now: Time)
    requires Accounted(p, {f.id})
    ensures Accounted(Fail(p, f, now), {})
  {
    forall id <- p.seen ensures Found(Fail(p, f, now), id) {
      FoundByFailing(p, f, now, id);
    }
  }

  lemma RetractAccounts(p: Pass, id: Id)
    requires Accounted(p, {})
    ensures Accounted(Retract(p, id), {id})
  {
    var p' := Retract(p, id);
    forall x <- p'.seen | x !in {id} ensures Found(p', x) {
      assert Found(p, x);
      WithoutCounts(p.notLogged, id, x);
      assert x in p.notLogged <==> x in multiset(p.notLogged);
      assert x in p'.notLogged <==> x in multiset(p'.notLogged);
      if Failed(p, x) { FailedLater(p, p', x); }
    }
  }

  lemma FoundWhenSettled(p: Pass, id: Id, oc: Outcome, failure: Option<EventFailure>, pe: PendingEvent, ev: Option<Leaf.Event>, c: Clock, x: Id)
    requires Found(p, x) || x == id
    requires failure.Some? ==> failure.value.id == id
    ensures Found(Settle(p, id, oc, failure, pe, ev, c), x)
  {
    var p' := Settle(p, id, oc, failure, pe, ev, c);
    var f := if failure == None then Contested(p.feed, id, oc, pe, ev, c) else failure;
    if f.Some? {
      FailedOneMore(p, p', f.value, x);
    } else if Failed(p, x) {
      FailedLater(p, p', x);
    }
  }

  lemma SettleAccounts(p: Pass, id: Id, oc: Outcome, failure: Option<EventFailure>, pe: PendingEvent, ev: Option<Leaf.Event>, c: Clock)
    requires Accounted(p, {id}) && (failure.Some? ==> failure.value.id == id)
    ensures Accounted(Settle(p, id, oc, failure, pe, ev, c), {})
  {
    SettleAdds(p, id, oc, failure, pe, ev, c);
    forall x <- p.seen ensures Found(Settle(p, id, oc, failure, pe, ev, c), x) {
      FoundWhenSettled(p, id, oc, failure, pe, ev, c, x);
    }
  }

  /** Whatever else changes, an id is found where it was. */
  lemma AccountedAside(p: Pass, p': Pass, but: set<Id>)
    requires Accounted(p, but) && p'.feed == p.feed && p'.notLogged == p.notLogged && p'.failed == p.failed && p'.withdrawn == p.withdrawn
    requires forall id <- p'.seen :: id in p.seen || id in but
    ensures Accounted(p', but)
  {
    forall id <- p'.seen | id !in but ensures Found(p', id) {
      assert Found(p, id);
      if Failed(p, id) { FailedLater(p, p', id); }
    }
  }

  lemma ExamineAccounts(w: World, p: Pass, se: Served, c: Clock)
    requires Accounted(p, {se.ev.id})
    ensures var st := Examine(w, p, se, c); st.err == None ==> Accounted(st.p, {})
  {
    EventShape(w, p.h, se.ev);
    var (h', v) := CheckEvent(w, p.h, se.ev);
    if v.Ok? {
      var p1 := p.(h := h');
      AccountedAside(p, p1, {se.ev.id});
      SettleAccounts(p1, se.ev.id, v.value.0, Downgraded(p1, se.ev, v.value), PendingOf(se.ev, se.created, c.now), Some(se.ev), c);
    }
  }

  lemma FindingAccounts(p: Pass, id: Id, f: EventFailure, index: Option<nat>, now: Time)
    requires Accounted(p, {id}) && f.id == id
    ensures Accounted(if index == None then p.(withdrawn := p.withdrawn[id := f]) else Fail(p, f, now), {})
  {
    if index == None {
      var p' := p.(withdrawn := p.withdrawn[id := f]);
      forall x <- p'.seen ensures Found(p', x) {
        if x != id && Failed(p, x) { FailedLater(p, p', x); }
      }
    } else {
      FailAccounts(p, f, now);
    }
  }

  lemma SkipAccounts(p: Pass, ev: Leaf.Event, now: Time)
    requires Accounted(p, {ev.id}) && ev.id in p.feed.done
    ensures Accounted(Skipped(p, ev, now), {})
  {
    var p' := Skipped(p, ev, now);
    forall x <- p'.seen ensures Found(p', x) {
      if x != ev.id && Failed(p, x) { FailedLater(p, p', x); }
    }
  }

  lemma AdmitAccounts(w: World, p: Pass, se: Served, c: Clock)
    requires Accounted(p, {se.ev.id})
    ensures var st := Admit(w, p, se, c); st.err == None ==> Accounted(st.p, {})
  {
    var p1 := p.(seen := p.seen[se.ev.id := se]);
    AccountedAside(p, p1, {se.ev.id});
    if se.ev.id in p.feed.done {
      match RecheckDone(p.feed.done[se.ev.id], se.ev)
      case Finding(f) => FindingAccounts(p1, se.ev.id, f, se.ev.index, c.now);
      case Skip => SkipAccounts(p1, se.ev, c.now);
      case Reverify =>
        var p2 := Listed(p1.(reverifying := p1.reverifying + {se.ev.id}), se.ev.id);
        AccountedAside(p1, p2, {se.ev.id});
        ExamineAccounts(w, p2, se, c);
    } else {
      AccountedAside(p1, Listed(p1, se.ev.id), {se.ev.id});
      ExamineAccounts(w, Listed(p1, se.ev.id), se, c);
    }
  }

  lemma LessAccounted(p: Pass, but: set<Id>)
    requires Accounted(p, {})
    ensures Accounted(p, but)
  {}

  lemma ProcessAccounts(w: World, p: Pass, se: Served, c: Clock)
    requires Accounted(p, {}) && (se.conflict.Some? ==> se.conflict.value.id == se.ev.id)
    ensures var st := Process(w, p, se, c); st.err == None ==> Accounted(st.p, {})
  {
    var p1 := p.(highWater := Raised(p.highWater, se.created, c.now));
    AccountedAside(p, p1, {});
    LessAccounted(p1, {se.ev.id});
    if se.conflict.Some? {
      FailAccounts(p1, se.conflict.value, c.now);
    } else {
      match RepeatOf(p1.seen, se.ev)
      case Contradicts(f) => FailAccounts(p1, f, c.now);
      case Repeated =>
      case Supersedes =>
        RetractAccounts(p1, se.ev.id);
        AdmitAccounts(w, Retract(p1, se.ev.id), se, c);
      case First => AdmitAccounts(w, p1, se, c);
    }
  }

  lemma {:induction false} ProcessAllAccounts(w: World, p: Pass, ses: seq<Served>, c: Clock)
    requires Accounted(p, {}) && forall se <- ses :: se.conflict.Some? ==> se.conflict.value.id == se.ev.id
    ensures var st := ProcessAll(w, p, ses, c); st.err == None ==> Accounted(st.p, {})
    decreases |ses|
  {
    if ses != [] {
      ProcessAccounts(w, p, ses[0], c);
      var st := Process(w, p, ses[0], c);
      if st.err.None? {
        ProcessAllAccounts(w, st.p, ses[1..], c);
      }
    }
  }

  lemma {:induction false} FailAllAccounts(p: Pass, fs: seq<EventFailure>, now: Time)
    requires Accounted(p, {})
    ensures Accounted(FailAll(p, fs, now), {})
    decreases |fs|
  {
    if fs != [] {
      LessAccounted(p, {fs[0].id});
      FailAccounts(p, fs[0], now);
      FailAllAccounts(Fail(p, fs[0], now), fs[1..], now);
    }
  }

  lemma Recheck1Accounts(w: World, p: Pass, id: Id, c: Clock)
    requires Accounted(p, {})
    ensures Accounted(Recheck1(w, p, id, c).p, {})
  {
    if id !in p.listed && id in p.feed.pending {
      var pe := p.feed.pending[id];
      LessAccounted(p, {id});
      if pe.index < p.h.latest.size {
        CheckShape(w, p.h, id, pe.index, PendingHashes(pe));
        var (h', v) := CheckInclusion(w, p.h, id, pe.index, PendingHashes(pe));
        AccountedAside(p, p.(h := h'), {});
        if v.Ok? {
          AccountedAside(p, p.(h := h'), {id});
          SettleAccounts(p.(h := h'), id, v.value.0, v.value.1, pe, None, c);
        }
      } else {
        SettleAccounts(p, id, Pending, None, pe, None, c);
      }
    }
  }

  lemma {:induction false} RecheckAllAccounts(w: World, p: Pass, ids: seq<Id>, c: Clock)
    requires Accounted(p, {})
    ensures Accounted(RecheckAll(w, p, ids, c).p, {})
    decreases |ids|
  {
    if ids != [] {
      Recheck1Accounts(w, p, ids[0], c);
      var st := Recheck1(w, p, ids[0], c);
      if st.err.None? {
        RecheckAllAccounts(w, st.p, ids[1..], c);
      }
    }
  }

  lemma {:induction false} FailWithdrawnAccounts(p: Pass, ids: seq<Id>, now: Time)
    requires Accounted(p, {}) && forall id <- p.withdrawn :: p.withdrawn[id].id == id
    ensures Accounted(FailWithdrawn(p, ids, now), {})
    decreases |ids|
  {
    if ids != [] {
      var id := ids[0];
      if id !in p.withdrawn || (id in p.seen && p.seen[id].ev.index.Some?) {
        FailWithdrawnAccounts(p, ids[1..], now);
      } else {
        RetractAccounts(p, id);
        FailAccounts(Retract(p, id), p.withdrawn[id], now);
        FailWithdrawnAccounts(Fail(Retract(p, id), p.withdrawn[id], now), ids[1..], now);
      }
    }
  }
}
