/** The bookkeeping of FeedKeeps carried through a page of events and through the recheck. */
module FeedOrder {
  import opened Basics
  import opened Tree
  import opened Server
  import opened History
  import opened Inclusion
  import opened Feed
  import opened FeedKeeps
  import Leaf

  // ---------------------------------------------------------------------
  // The shape of a verdict
  // ---------------------------------------------------------------------

  /** A finding is about the id it was asked for; an unproven verdict says why. */
  ghost predicate Shaped(v: Verdict, id: Id, index: Option<nat>) {
    v.Ok? ==>
      && (v.value.1.Some? ==> v.value.1.value.id == id)
      && (v.value.1 == None && v.value.0 == NotLogged ==> index == None)
      && (v.value.1 == None && v.value.0 != NotLogged ==> index.Some?)
  }

  lemma JudgeShape(w: World, h: History, id: Id, index: nat, leaves: seq<Hash>, reply: ProofReply, owed: bool)
    ensures Shaped(Judge(w, h, id, index, leaves, reply, owed).1, id, Some(index))
    ensures var v := Judge(w, h, id, index, leaves, reply, owed).1; v.Ok? && v.value.1 == None ==> v.value.0 != NotLogged
  {}

  lemma CheckShape(w: World, h: History, id: Id, index: nat, leaves: seq<Hash>)
    ensures Shaped(CheckInclusion(w, h, id, index, leaves).1, id, Some(index))
    ensures var v := CheckInclusion(w, h, id, index, leaves).1; v.Ok? && v.value.1 == None ==> v.value.0 != NotLogged
  {
    var (h1, reply) := AskFor(w, h, index);
    JudgeShape(w, h1, id, index, leaves, reply, false);
  }

  lemma EventShape(w: World, h: History, ev: Leaf.Event)
    ensures Shaped(CheckEvent(w, h, ev).1, ev.id, ev.index)
  {
    if Claim(w.org, h.latest.size, ev) == None {
      CheckShape(w, h, ev.id, ev.index.value, Leaf.Hashes(ev));
    }
  }

  // ---------------------------------------------------------------------
  // One event
  // ---------------------------------------------------------------------

  /** The pass is ready to examine this event. */
  ghost predicate Examinable(c: Clock, p: Pass, se: Served) {
    var id := se.ev.id;
    && id in p.seen && p.seen[id] == se && id in p.listed
    && Reports(p, id) == 0 && id !in p.withdrawn
    && (id in p.feed.done ==> id in p.reverifying && RecheckDone(p.feed.done[id], se.ev) == Reverify)
  }

  lemma ExaminedIsSettleable(w: World, f0: FeedState, c: Clock, p: Pass, se: Served, h': History, oc: (Outcome, Option<EventFailure>))
    requires Always(f0, c, p) && Examinable(c, p, se) && Shaped(Ok(oc), se.ev.id, se.ev.index)
    ensures Settleable(c, p.(h := h'), se.ev.id, oc.0, Downgraded(p.(h := h'), se.ev, oc), PendingOf(se.ev, se.created, c.now))
  {
    assert Reports(p.(h := h'), se.ev.id) == Reports(p, se.ev.id);
  }

  lemma HeadAside(f0: FeedState, c: Clock, p: Pass, h': History, but: set<Id>)
    requires Always(f0, c, p)
    ensures Always(f0, c, p.(h := h'))
    ensures ReportedSeen(p) ==> ReportedSeen(p.(h := h'))
    ensures SettledBut(c, p, but) ==> SettledBut(c, p.(h := h'), but)
  {
    var p' := p.(h := h');
    assert forall x :: Reports(p', x) == Reports(p, x);
    if SettledBut(c, p, but) {
      forall x | x !in but ensures Due(c, p', x) && Alive(c, p', x) {
        assert Due(c, p, x) && Alive(c, p, x);
      }
    }
  }

  /** What an event's processing leaves: always in order, and settled unless it failed to end. */
  ghost predicate Ordered(f0: FeedState, c: Clock, st: PassStep) {
    Always(f0, c, st.p) && ReportedSeen(st.p) && (st.err.None? ==> SettledBut(c, st.p, {}))
  }

  ghost predicate InOrder(f0: FeedState, c: Clock, p: Pass, but: set<Id>) {
    Always(f0, c, p) && ReportedSeen(p) && SettledBut(c, p, but)
  }

  lemma ExamineKeeps(w: World, f0: FeedState, c: Clock, p: Pass, se: Served)
    requires InOrder(f0, c, p, {se.ev.id}) && Examinable(c, p, se)
    ensures Ordered(f0, c, Examine(w, p, se, c))
  {
    EventShape(w, p.h, se.ev);
    var (h', v) := CheckEvent(w, p.h, se.ev);
    HeadAside(f0, c, p, h', {se.ev.id});
    if v.Ok? {
      var p1 := p.(h := h');
      var failure := Downgraded(p1, se.ev, v.value);
      var pe := PendingOf(se.ev, se.created, c.now);
      ExaminedIsSettleable(w, f0, c, p, se, h', v.value);
      SettleAlways(f0, c, p1, se.ev.id, v.value.0, failure, pe, Some(se.ev));
      SettleReported(c, p1, se.ev.id, v.value.0, failure, pe, Some(se.ev));
      SettleKeeps(f0, c, p1, se.ev.id, v.value.0, failure, pe, Some(se.ev));
    }
  }

  /** The id is new to this pass, or only an unindexed copy of it was met. */
  ghost predicate Admissible(p: Pass, id: Id) {
    Reports(p, id) == 0 && id !in p.withdrawn
  }

  /** The copy is noted, its id listed or under reverification. */
  function Noted(p: Pass, se: Served, listed: set<Id>, reverifying: set<Id>): Pass {
    p.(seen := p.seen[se.ev.id := se], listed := listed, reverifying := reverifying)
  }

  lemma NotedOnce(p: Pass, se: Served, listed: set<Id>, reverifying: set<Id>)
    requires Once(p) && ReportedSeen(p) && Reports(p, se.ev.id) == 0
    ensures var p' := Noted(p, se, listed, reverifying); Once(p') && ReportedSeen(p') && Reports(p', se.ev.id) == 0
  {
    var p' := Noted(p, se, listed, reverifying);
    assert forall x :: Reports(p', x) == Reports(p, x);
  }

  lemma NotedSettled(c: Clock, p: Pass, se: Served, listed: set<Id>, reverifying: set<Id>)
    requires SettledBut(c, p, {se.ev.id}) && p.listed <= listed <= p.listed + {se.ev.id}
    ensures SettledBut(c, Noted(p, se, listed, reverifying), {se.ev.id})
  {
    var p' := Noted(p, se, listed, reverifying);
    forall x | x !in {se.ev.id} ensures Due(c, p', x) && Alive(c, p', x) {
      assert Due(c, p, x) && Alive(c, p, x);
    }
  }

  lemma NoteCopy(f0: FeedState, c: Clock, p: Pass, se: Served, listed: set<Id>, reverifying: set<Id>)
    requires InOrder(f0, c, p, {se.ev.id}) && Admissible(p, se.ev.id)
    requires p.listed <= listed <= p.listed + {se.ev.id} && (se.ev.id in listed || se.ev.id in p.feed.done)
    ensures var p' := Noted(p, se, listed, reverifying);
            InOrder(f0, c, p', {se.ev.id}) && Admissible(p', se.ev.id)
  {
    NotedOnce(p, se, listed, reverifying);
    NotedSettled(c, p, se, listed, reverifying);
  }

  lemma ReverifyKeeps(w: World, f0: FeedState, c: Clock, p: Pass, se: Served)
    requires InOrder(f0, c, p, {se.ev.id}) && Admissible(p, se.ev.id) && se.ev.id in p.feed.done
    requires RecheckDone(p.feed.done[se.ev.id], se.ev) == Reverify
    ensures Ordered(f0, c, AdmitDone(w, p.(seen := p.seen[se.ev.id := se]), se, c))
  {
    NoteCopy(f0, c, p, se, p.listed + {se.ev.id}, p.reverifying + {se.ev.id});
    ExamineKeeps(w, f0, c, Noted(p, se, p.listed + {se.ev.id}, p.reverifying + {se.ev.id}), se);
  }

  lemma AdmitDoneKeeps(w: World, f0: FeedState, c: Clock, p: Pass, se: Served)
    requires InOrder(f0, c, p, {se.ev.id}) && Admissible(p, se.ev.id) && se.ev.id in p.feed.done
    ensures Ordered(f0, c, AdmitDone(w, p.(seen := p.seen[se.ev.id := se]), se, c))
  {
    var p1 := Noted(p, se, p.listed, p.reverifying);
    match RecheckDone(p.feed.done[se.ev.id], se.ev)
    case Finding(f) =>
      NoteCopy(f0, c, p, se, p.listed, p.reverifying);
      if se.ev.index == None {
        WithdrawKeeps(f0, c, p1, se.ev.id, f);
      } else {
        FailKeeps(f0, c, p1, f);
      }
    case Skip =>
      NoteCopy(f0, c, p, se, p.listed, p.reverifying);
      SkipKeeps(f0, c, p1, se.ev);
    case Reverify => ReverifyKeeps(w, f0, c, p, se);
  }

  lemma AdmitKeeps(w: World, f0: FeedState, c: Clock, p: Pass, se: Served)
    requires InOrder(f0, c, p, {se.ev.id}) && Admissible(p, se.ev.id)
    ensures Ordered(f0, c, Admit(w, p, se, c))
  {
    if se.ev.id in p.feed.done {
      AdmitDoneKeeps(w, f0, c, p, se);
    } else {
      NoteCopy(f0, c, p, se, p.listed + {se.ev.id}, p.reverifying);
      ExamineKeeps(w, f0, c, Noted(p, se, p.listed + {se.ev.id}, p.reverifying), se);
    }
  }

  lemma MarkAside(f0: FeedState, c: Clock, p: Pass, mark: Time, rows: seq<Row>)
    requires InOrder(f0, c, p, {})
    ensures InOrder(f0, c, p.(highWater := mark, read := rows), {})
  {
    var p' := p.(highWater := mark, read := rows);
    assert forall x :: Reports(p', x) == Reports(p, x);
    forall x ensures Due(c, p', x) && Alive(c, p', x) {
      assert Due(c, p, x) && Alive(c, p, x);
    }
  }

  lemma ProcessKeeps(w: World, f0: FeedState, c: Clock, p: Pass, se: Served)
    requires InOrder(f0, c, p, {}) && (se.conflict.Some? ==> se.conflict.value.id == se.ev.id)
    ensures Ordered(f0, c, Process(w, p, se, c))
  {
    var p1 := p.(highWater := Raised(p.highWater, se.created, c.now));
    MarkAside(f0, c, p, Raised(p.highWater, se.created, c.now), p.read);
    var id := se.ev.id;
    if se.conflict.Some? {
      FailKeeps(f0, c, p1, se.conflict.value);
    } else {
      match RepeatOf(p1.seen, se.ev)
      case Contradicts(f) => FailKeeps(f0, c, p1, f);
      case Repeated =>
      case Supersedes =>
        RetractKeeps(f0, c, p1, id);
        AdmitKeeps(w, f0, c, Retract(p1, id), se);
      case First =>
        assert Reports(p1, id) == 0;
        AdmitKeeps(w, f0, c, p1, se);
    }
  }

  lemma {:induction false} ProcessAllKeeps(w: World, f0: FeedState, c: Clock, p: Pass, ses: seq<Served>)
    requires InOrder(f0, c, p, {}) && forall se <- ses :: se.conflict.Some? ==> se.conflict.value.id == se.ev.id
    ensures Ordered(f0, c, ProcessAll(w, p, ses, c))
    decreases |ses|
  {
    if ses != [] {
      ProcessKeeps(w, f0, c, p, ses[0]);
      var st := Process(w, p, ses[0], c);
      if st.err.None? {
        ProcessAllKeeps(w, f0, c, st.p, ses[1..]);
      }
    }
  }

  lemma {:induction false} FailAllKeeps(f0: FeedState, c: Clock, p: Pass, fs: seq<EventFailure>)
    requires InOrder(f0, c, p, {})
    ensures InOrder(f0, c, FailAll(p, fs, c.now), {})
    decreases |fs|
  {
    if fs != [] {
      FailKeeps(f0, c, p, fs[0]);
      FailAllKeeps(f0, c, Fail(p, fs[0], c.now), fs[1..]);
    }
  }

  // ---------------------------------------------------------------------
  // Where what was met came from
  // ---------------------------------------------------------------------

  /** Every copy met is one that was read, under its own id. */
  ghost predicate SeenRead(parse: Bytes -> Option<Leaf.Event>, p: Pass) {
    forall id <- p.seen :: p.seen[id].ev.id == id && ReadAmong(parse, p.read, p.seen[id].ev)
  }

  ghost predicate Handled(p: Pass, id: Id) {
    id in p.seen || Failed(p, id)
  }

  /** One event's processing keeps what was met and what failed, and adds only this copy. */
  ghost predicate Adds(p: Pass, p': Pass, se: Served) {
    && p'.read == p.read && p'.feed.highWater == p.feed.highWater
    && (p'.seen == p.seen || p'.seen == p.seen[se.ev.id := se])
    && p.failed <= p'.failed
  }

  /** The mark only rises, and to no served time past this clock. */
  ghost predicate MarkOk(f0: FeedState, c: Clock, p: Pass) {
    && p.feed.highWater == f0.highWater <= p.highWater
    && (p.highWater == f0.highWater || p.highWater <= c.now + MAX_FUTURE_SKEW)
  }

  lemma FailedLater(p: Pass, p': Pass, id: Id)
    requires p.failed <= p'.failed && Failed(p, id)
    ensures Failed(p', id)
  {
    var f :| f in p.failed && f.id == id;
    assert f in p'.failed;
  }

  lemma ExamineAdds(w: World, p: Pass, se: Served, c: Clock)
    ensures var p' := Examine(w, p, se, c).p;
            && p'.seen == p.seen && p'.read == p.read && p'.feed.highWater == p.feed.highWater && p.failed <= p'.failed
            && p'.highWater == p.highWater
  {
    var (h', v) := CheckEvent(w, p.h, se.ev);
    if v.Ok? {
      var p1 := p.(h := h');
      SettleAdds(p1, se.ev.id, v.value.0, Downgraded(p1, se.ev, v.value), PendingOf(se.ev, se.created, c.now), Some(se.ev), c);
    }
  }

  lemma SettleAdds(p: Pass, id: Id, oc: Outcome, failure: Option<EventFailure>, pe: PendingEvent, ev: Option<Leaf.Event>, c: Clock)
    ensures var p' := Settle(p, id, oc, failure, pe, ev, c);
            && p'.seen == p.seen && p'.read == p.read && p'.feed.highWater == p.feed.highWater && p.failed <= p'.failed
            && p'.highWater == p.highWater
  {}

  lemma AdmitAdds(w: World, p: Pass, se: Served, c: Clock)
    ensures var p' := Admit(w, p, se, c).p;
            && p'.seen == p.seen[se.ev.id := se] && p'.read == p.read && p'.highWater == p.highWater
            && p'.feed.highWater == p.feed.highWater && p.failed <= p'.failed
  {
    var p1 := p.(seen := p.seen[se.ev.id := se]);
    if se.ev.id in p.feed.done {
      if RecheckDone(p.feed.done[se.ev.id], se.ev).Reverify? {
        ExamineAdds(w, Listed(p1.(reverifying := p1.reverifying + {se.ev.id}), se.ev.id), se, c);
      }
    } else {
      ExamineAdds(w, Listed(p1, se.ev.id), se, c);
    }
  }

  lemma ProcessAdds(w: World, p: Pass, se: Served, c: Clock)
    requires se.conflict.Some? ==> se.conflict.value.id == se.ev.id
    ensures var st := Process(w, p, se, c);
            Adds(p, st.p, se) && st.p.highWater == Raised(p.highWater, se.created, c.now)
            && (st.err.None? ==> Handled(st.p, se.ev.id))
  {
    var st := Process(w, p, se, c);
    var p1 := p.(highWater := Raised(p.highWater, se.created, c.now));
    if se.conflict.Some? {
      FailedOneMore(p1, st.p, se.conflict.value, se.ev.id);
    } else {
      match RepeatOf(p1.seen, se.ev)
      case Contradicts(f) => FailedOneMore(p1, st.p, f, se.ev.id);
      case Repeated =>
      case Supersedes => AdmitAdds(w, Retract(p1, se.ev.id), se, c);
      case First => AdmitAdds(w, p1, se, c);
    }
  }

  lemma {:induction false} ProcessAllAdds(w: World, parse: Bytes -> Option<Leaf.Event>, p: Pass, ses: seq<Served>, c: Clock)
    requires SeenRead(parse, p) && forall se <- ses :: ReadAmong(parse, p.read, se.ev)
    requires forall se <- ses :: se.conflict.Some? ==> se.conflict.value.id == se.ev.id
    ensures var st := ProcessAll(w, p, ses, c);
            && SeenRead(parse, st.p) && (forall f0 :: MarkOk(f0, c, p) ==> MarkOk(f0, c, st.p))
            && st.p.read == p.read && p.seen.Keys <= st.p.seen.Keys && p.failed <= st.p.failed
            && (st.err.None? ==> forall se <- ses :: Handled(st.p, se.ev.id))
    decreases |ses|
  {
    if ses != [] {
      ProcessAdds(w, p, ses[0], c);
      var st := Process(w, p, ses[0], c);
      if st.err.None? {
        ProcessAllAdds(w, parse, st.p, ses[1..], c);
        var end := ProcessAll(w, st.p, ses[1..], c);
        forall se <- ses | end.err.None? ensures Handled(end.p, se.ev.id) {
          if se == ses[0] {
            if Failed(st.p, se.ev.id) { FailedLater(st.p, end.p, se.ev.id); }
          } else {
            assert se in ses[1..];
          }
        }
      }
    }
  }

  lemma {:induction false} FailAllAdds(p: Pass, fs: seq<EventFailure>, now: Time)
    ensures var p' := FailAll(p, fs, now);
            && p'.seen == p.seen && p'.read == p.read && p'.highWater == p.highWater && p'.feed.highWater == p.feed.highWater
            && p.failed <= p'.failed && forall f <- fs :: Failed(p', f.id)
    decreases |fs|
  {
    if fs != [] {
      var p1 := Fail(p, fs[0], now);
      var p' := FailAll(p1, fs[1..], now);
      FailAllAdds(p1, fs[1..], now);
      FailedOneMore(p, p1, fs[0], fs[0].id);
      FailedLater(p1, p', fs[0].id);
      forall f <- fs ensures Failed(p', f.id) {
        assert f == fs[0] || f in fs[1..];
      }
    }
  }
}
