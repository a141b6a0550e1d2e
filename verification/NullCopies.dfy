/**
 * The feed may serve an event both before and after its leaf index is stamped,
 * on any pages. Copies without an index change nothing once a copy with one is
 * met, wherever they are read.
 */
module NullCopies {
  import opened Basics
  import opened Server
  import opened Inclusion
  import opened Feed
  import opened FeedKeeps
  import opened FeedOrder
  import Leaf

  /** Equal but for the mark the next window may start from, and the rows taken. */
  ghost predicate Same(p: Pass, q: Pass) {
    q == p.(highWater := q.highWater, read := q.read)
  }

  /** Equal but for what copies of one id without an index leave behind. */
  ghost predicate Twin(p: Pass, q: Pass, id: Id) {
    && q.h == p.h && q.feed == p.feed && q.verified == p.verified && q.skipped == p.skipped
    && q.failed == p.failed && q.reverifying == p.reverifying
    && Without(q.notLogged, id) == Without(p.notLogged, id)
    && Without(q.pending, id) == Without(p.pending, id)
    && (forall x :: x != id ==> (x in q.listed <==> x in p.listed))
    && (id in p.feed.done ==> (id in q.listed <==> id in p.listed))
    && (forall x :: x != id ==> (x in q.seen <==> x in p.seen) && (x in p.seen ==> q.seen[x] == p.seen[x]))
    && (forall x :: x != id ==> (x in q.withdrawn <==> x in p.withdrawn) && (x in p.withdrawn ==> q.withdrawn[x] == p.withdrawn[x]))
    && Unplaced(p, id) && Unplaced(q, id)
  }

  /** No indexed copy of the id has been met. */
  ghost predicate Unplaced(p: Pass, id: Id) {
    id in p.seen ==> p.seen[id].ev.index == None
  }

  /** A copy of this id that claims no position, of the pinned organization. */
  predicate NullCopy(w: World, se: Served, id: Id) {
    se.ev.id == id && se.ev.index == None && se.conflict == None && se.ev.organization == w.org
  }

  predicate PlacedCopy(se: Served, id: Id) {
    se.ev.id == id && se.ev.index.Some? && se.conflict == None
  }

  // ---------------------------------------------------------------------
  // Lists of ids
  // ---------------------------------------------------------------------

  lemma {:induction false} WithoutMore(ids: seq<Id>, x: Id, id: Id)
    ensures Without(ids + [x], id) == Without(ids, id) + (if x == id then [] else [x])
  {
    if ids == [] {
      assert ids + [x] == [x];
    } else {
      assert (ids + [x])[1..] == ids[1..] + [x];
      WithoutMore(ids[1..], x, id);
    }
  }

  lemma {:induction false} WithoutTwice(ids: seq<Id>, a: Id, b: Id)
    ensures Without(Without(ids, a), b) == Without(Without(ids, b), a)
  {
    if ids != [] {
      var ra, rb := Without(ids[1..], a), Without(ids[1..], b);
      WithoutTwice(ids[1..], a, b);
      WithoutHead(ids[0], ra, b);
      WithoutHead(ids[0], rb, a);
      assert [] + ra == ra && [] + rb == rb && [] + Without(ra, b) == Without(ra, b);
    }
  }

  lemma WithoutHead(x: Id, ids: seq<Id>, id: Id)
    ensures Without([x] + ids, id) == (if x == id then [] else [x]) + Without(ids, id)
  {
    assert ([x] + ids)[1..] == ids;
  }

  lemma {:induction false} WithoutAbsent(ids: seq<Id>, id: Id)
    requires multiset(ids)[id] == 0
    ensures Without(ids, id) == ids
  {
    if ids != [] {
      assert ids == [ids[0]] + ids[1..];
      WithoutAbsent(ids[1..], id);
    }
  }

  // ---------------------------------------------------------------------
  // A copy without an index, and events of other ids
  // ---------------------------------------------------------------------

  lemma NullIsTwin(w: World, c: Clock, p: Pass, se: Served, id: Id)
    requires NullCopy(w, se, id) && Unplaced(p, id) && Tidy(p.feed)
    ensures Process(w, p, se, c).err == None && Twin(p, Process(w, p, se, c).p, id)
  {
    WithoutMore(p.notLogged, id, id);
  }

  lemma TwinRecorded(p: Pass, q: Pass, id: Id, failed: seq<EventFailure>, feed: FeedState, verified: seq<Vouch>)
    requires Twin(p, q, id) && (id in feed.done ==> id in p.feed.done)
    ensures Twin(p.(failed := failed, feed := feed, verified := verified), q.(failed := failed, feed := feed, verified := verified), id)
  {}

  lemma TwinPending(p: Pass, q: Pass, id: Id, x: Id)
    requires Twin(p, q, id)
    ensures Twin(p.(pending := p.pending + [x]), q.(pending := q.pending + [x]), id)
  {
    WithoutMore(p.pending, x, id);
    WithoutMore(q.pending, x, id);
  }

  lemma TwinNotLogged(p: Pass, q: Pass, id: Id, x: Id)
    requires Twin(p, q, id)
    ensures Twin(p.(notLogged := p.notLogged + [x]), q.(notLogged := q.notLogged + [x]), id)
  {
    WithoutMore(p.notLogged, x, id);
    WithoutMore(q.notLogged, x, id);
  }

  lemma TwinSettle(p: Pass, q: Pass, id: Id, x: Id, oc: Outcome, failure: Option<EventFailure>, pe: PendingEvent, ev: Option<Leaf.Event>, c: Clock)
    requires Twin(p, q, id) && x != id
    ensures Twin(Settle(p, x, oc, failure, pe, ev, c), Settle(q, x, oc, failure, pe, ev, c), id)
  {
    var p', q' := Settle(p, x, oc, failure, pe, ev, c), Settle(q, x, oc, failure, pe, ev, c);
    var f := if failure == None then Contested(p.feed, x, oc, pe, ev, c) else failure;
    if f.Some? || oc == Verified {
      TwinRecorded(p, q, id, p'.failed, p'.feed, p'.verified);
    } else if oc == Pending {
      TwinPending(p, q, id, x);
      TwinRecorded(p.(pending := p.pending + [x]), q.(pending := q.pending + [x]), id, p.failed, p'.feed, p.verified);
    } else {
      TwinNotLogged(p, q, id, x);
      var p1, q1 := p.(notLogged := p.notLogged + [x]), q.(notLogged := q.notLogged + [x]);
      if x in p.feed.pending {
        TwinWithdrawn(p1, q1, id, x, EventFailure(x, Some(p.feed.pending[x].index), WithdrawnIndex));
      }
      TwinRecorded(p'.(feed := p.feed), q'.(feed := p.feed), id, p.failed, p'.feed, p.verified);
    }
  }

  /** Two results that differ only in what one id's copies left behind. */
  ghost predicate TwinSteps(a: PassStep, b: PassStep, id: Id) {
    a.err == b.err && Twin(a.p, b.p, id)
  }

  lemma TwinExamine(w: World, p: Pass, q: Pass, id: Id, se: Served, c: Clock)
    requires Twin(p, q, id) && se.ev.id != id
    ensures TwinSteps(Examine(w, p, se, c), Examine(w, q, se, c), id)
  {
    var (h', v) := CheckEvent(w, p.h, se.ev);
    var p1, q1 := p.(h := h'), q.(h := h');
    if v.Ok? {
      TwinSettle(p1, q1, id, se.ev.id, v.value.0, Downgraded(p1, se.ev, v.value), PendingOf(se.ev, se.created, c.now), Some(se.ev), c);
    }
  }

  lemma TwinNoted(p: Pass, q: Pass, id: Id, se: Served, reverifying: set<Id>)
    requires Twin(p, q, id) && se.ev.id != id
    ensures Twin(Noted(p, se, p.listed, reverifying), Noted(q, se, q.listed, reverifying), id)
    ensures Twin(Noted(p, se, p.listed + {se.ev.id}, reverifying), Noted(q, se, q.listed + {se.ev.id}, reverifying), id)
  {}

  lemma TwinSkipped(p: Pass, q: Pass, id: Id, ev: Leaf.Event, now: Time)
    requires Twin(p, q, id) && ev.id != id && ev.id in p.feed.done
    ensures Twin(Skipped(p, ev, now), Skipped(q, ev, now), id)
  {}

  lemma TwinWithdrawn(p: Pass, q: Pass, id: Id, x: Id, f: EventFailure)
    requires Twin(p, q, id) && x != id
    ensures Twin(p.(withdrawn := p.withdrawn[x := f]), q.(withdrawn := q.withdrawn[x := f]), id)
  {}

  lemma TwinAdmitDone(w: World, p: Pass, q: Pass, id: Id, se: Served, c: Clock)
    requires Twin(p, q, id) && se.ev.id != id && se.ev.id in p.feed.done
    ensures TwinSteps(Admit(w, p, se, c), Admit(w, q, se, c), id)
  {
    var p1, q1 := Noted(p, se, p.listed, p.reverifying), Noted(q, se, q.listed, p.reverifying);
    TwinNoted(p, q, id, se, p.reverifying);
    match RecheckDone(p.feed.done[se.ev.id], se.ev)
    case Finding(f) =>
      TwinFail(p1, q1, id, f, c.now);
      TwinWithdrawn(p1, q1, id, se.ev.id, f);
    case Skip => TwinSkipped(p1, q1, id, se.ev, c.now);
    case Reverify =>
      var reverifying := p.reverifying + {se.ev.id};
      TwinNoted(p, q, id, se, reverifying);
      TwinExamine(w, Noted(p, se, p.listed + {se.ev.id}, reverifying), Noted(q, se, q.listed + {se.ev.id}, reverifying), id, se, c);
  }

  lemma TwinAdmit(w: World, p: Pass, q: Pass, id: Id, se: Served, c: Clock)
    requires Twin(p, q, id) && se.ev.id != id
    ensures TwinSteps(Admit(w, p, se, c), Admit(w, q, se, c), id)
  {
    if se.ev.id in p.feed.done {
      TwinAdmitDone(w, p, q, id, se, c);
    } else {
      TwinNoted(p, q, id, se, p.reverifying);
      TwinExamine(w, Noted(p, se, p.listed + {se.ev.id}, p.reverifying), Noted(q, se, q.listed + {se.ev.id}, p.reverifying), id, se, c);
    }
  }

  lemma TwinRetract(p: Pass, q: Pass, id: Id, x: Id)
    requires Twin(p, q, id) && x != id
    ensures Twin(Retract(p, x), Retract(q, x), id)
  {
    WithoutTwice(p.notLogged, x, id);
    WithoutTwice(q.notLogged, x, id);
    WithoutTwice(p.pending, x, id);
    WithoutTwice(q.pending, x, id);
  }

  lemma TwinMarks(p: Pass, q: Pass, id: Id, a: Time, b: Time)
    requires Twin(p, q, id)
    ensures Twin(p.(highWater := a), q.(highWater := b), id)
  {}

  lemma TwinFail(p: Pass, q: Pass, id: Id, f: EventFailure, now: Time)
    requires Twin(p, q, id)
    ensures Twin(Fail(p, f, now), Fail(q, f, now), id)
  {}

  /** An event of another id, or one a page already found contradictory, keeps twins twins. */
  lemma TwinProcess(w: World, p: Pass, q: Pass, id: Id, se: Served, c: Clock)
    requires Twin(p, q, id) && (se.ev.id != id || se.conflict.Some?)
    ensures TwinSteps(Process(w, p, se, c), Process(w, q, se, c), id)
  {
    var p1 := p.(highWater := Raised(p.highWater, se.created, c.now));
    var q1 := q.(highWater := Raised(q.highWater, se.created, c.now));
    TwinMarks(p, q, id, p1.highWater, q1.highWater);
    if se.conflict.Some? {
      TwinFail(p1, q1, id, se.conflict.value, c.now);
    } else {
      match RepeatOf(p1.seen, se.ev)
      case Contradicts(f) => TwinFail(p1, q1, id, f, c.now);
      case Repeated =>
      case Supersedes =>
        TwinRetract(p1, q1, id, se.ev.id);
        TwinAdmit(w, Retract(p1, se.ev.id), Retract(q1, se.ev.id), id, se, c);
      case First => TwinAdmit(w, p1, q1, id, se, c);
    }
  }

  // ---------------------------------------------------------------------
  // Once a copy with an index is met
  // ---------------------------------------------------------------------

  ghost predicate SameSteps(a: PassStep, b: PassStep) {
    a.err == b.err && Same(a.p, b.p)
  }

  lemma SameExamine(w: World, p: Pass, q: Pass, se: Served, c: Clock)
    requires Same(p, q)
    ensures SameSteps(Examine(w, p, se, c), Examine(w, q, se, c))
  {}

  lemma SameAdmit(w: World, p: Pass, q: Pass, se: Served, c: Clock)
    requires Same(p, q)
    ensures SameSteps(Admit(w, p, se, c), Admit(w, q, se, c))
  {
    var p1, q1 := p.(seen := p.seen[se.ev.id := se]), q.(seen := q.seen[se.ev.id := se]);
    if se.ev.id in p.feed.done {
      if RecheckDone(p.feed.done[se.ev.id], se.ev).Reverify? {
        var reverifying := p.reverifying + {se.ev.id};
        SameExamine(w, Listed(p1.(reverifying := reverifying), se.ev.id), Listed(q1.(reverifying := reverifying), se.ev.id), se, c);
      }
    } else {
      SameExamine(w, Listed(p1, se.ev.id), Listed(q1, se.ev.id), se, c);
    }
  }

  lemma SameProcess(w: World, p: Pass, q: Pass, se: Served, c: Clock)
    requires Same(p, q)
    ensures SameSteps(Process(w, p, se, c), Process(w, q, se, c))
  {
    var p1 := p.(highWater := Raised(p.highWater, se.created, c.now));
    var q1 := q.(highWater := Raised(q.highWater, se.created, c.now));
    if se.conflict.None? {
      match RepeatOf(p1.seen, se.ev)
      case Contradicts(f) =>
      case Repeated =>
      case Supersedes => SameAdmit(w, Retract(p1, se.ev.id), Retract(q1, se.ev.id), se, c);
      case First => SameAdmit(w, p1, q1, se, c);
    }
  }

  lemma PlacedIgnoresNull(w: World, p: Pass, se: Served, id: Id, c: Clock)
    requires NullCopy(w, se, id) && !Unplaced(p, id)
    ensures Process(w, p, se, c).err == None && Same(Process(w, p, se, c).p, p)
  {}

  /** The pass as if no copy of the id had been met. */
  function Cleared(p: Pass, id: Id): Pass {
    Retract(p, id).(seen := p.seen - {id})
  }

  lemma PlacedFromCleared(w: World, f0: FeedState, c: Clock, p: Pass, se: Served, id: Id)
    requires InOrder(f0, c, p, {}) && Unplaced(p, id) && PlacedCopy(se, id)
    ensures Process(w, p, se, c)
            == Admit(w, Cleared(p.(highWater := Raised(p.highWater, se.created, c.now)), id), se, c)
  {
    var p1 := p.(highWater := Raised(p.highWater, se.created, c.now));
    assert (p1.seen - {id})[id := se] == p1.seen[id := se];
    if id !in p.seen {
      assert Reports(p, id) == 0;
      WithoutAbsent(p.notLogged, id);
      WithoutAbsent(p.pending, id);
      assert p1.withdrawn - {id} == p1.withdrawn && p1.seen - {id} == p1.seen;
    }
  }

  lemma ClearedTwins(p: Pass, q: Pass, id: Id)
    requires Twin(p, q, id)
    ensures Same(Listed(Cleared(p, id), id), Listed(Cleared(q, id), id))
    ensures id in p.feed.done ==> Same(Cleared(p, id), Cleared(q, id))
  {
    assert p.seen - {id} == q.seen - {id};
    assert p.withdrawn - {id} == q.withdrawn - {id};
    assert p.listed + {id} == q.listed + {id};
    if id in p.feed.done { assert p.listed == q.listed; }
  }

  lemma AdmitLists(w: World, p: Pass, se: Served, c: Clock)
    requires se.ev.id !in p.feed.done
    ensures Admit(w, p, se, c) == Admit(w, Listed(p, se.ev.id), se, c)
  {
    assert p.listed + {se.ev.id} + {se.ev.id} == p.listed + {se.ev.id};
    assert Listed(Listed(p, se.ev.id), se.ev.id) == Listed(p, se.ev.id);
  }

  /** The first copy with an index makes twins the same. */
  lemma PlacedMakesSame(w: World, f0: FeedState, c: Clock, p: Pass, q: Pass, se: Served, id: Id)
    requires Twin(p, q, id) && PlacedCopy(se, id) && InOrder(f0, c, p, {}) && InOrder(f0, c, q, {})
    ensures SameSteps(Process(w, p, se, c), Process(w, q, se, c))
  {
    var p1 := p.(highWater := Raised(p.highWater, se.created, c.now));
    var q1 := q.(highWater := Raised(q.highWater, se.created, c.now));
    PlacedFromCleared(w, f0, c, p, se, id);
    PlacedFromCleared(w, f0, c, q, se, id);
    TwinMarks(p, q, id, p1.highWater, q1.highWater);
    ClearedTwins(p1, q1, id);
    if id in p.feed.done {
      SameAdmit(w, Cleared(p1, id), Cleared(q1, id), se, c);
    } else {
      AdmitLists(w, Cleared(p1, id), se, c);
      AdmitLists(w, Cleared(q1, id), se, c);
      SameAdmit(w, Listed(Cleared(p1, id), id), Listed(Cleared(q1, id), id), se, c);
    }
  }

  // ---------------------------------------------------------------------
  // Any number of copies, anywhere
  // ---------------------------------------------------------------------

  /** The events without one id's copies that claim no position. */
  function Strip(w: World, ses: seq<Served>, id: Id): seq<Served> {
    if ses == [] then []
    else (if NullCopy(w, ses[0], id) then [] else [ses[0]]) + Strip(w, ses[1..], id)
  }

  /** Before a copy with an index is met, twins; afterwards, the same. */
  ghost predicate Alike(p: Pass, q: Pass, id: Id) {
    Twin(p, q, id) || (Same(p, q) && !Unplaced(p, id))
  }

  ghost predicate WellNamed(ses: seq<Served>) {
    forall se <- ses :: se.conflict.Some? ==> se.conflict.value.id == se.ev.id
  }

  lemma PlacedIsMet(w: World, p: Pass, se: Served, id: Id, c: Clock)
    requires PlacedCopy(se, id) && Unplaced(p, id)
    ensures !Unplaced(Process(w, p, se, c).p, id)
  {
    var p1 := p.(highWater := Raised(p.highWater, se.created, c.now));
    AdmitAdds(w, p1, se, c);
    AdmitAdds(w, Retract(p1, id), se, c);
  }

  lemma StaysPlaced(w: World, p: Pass, se: Served, id: Id, c: Clock)
    requires !Unplaced(p, id)
    ensures !Unplaced(Process(w, p, se, c).p, id)
  {
    var p1 := p.(highWater := Raised(p.highWater, se.created, c.now));
    if se.conflict.None? {
      match RepeatOf(p1.seen, se.ev)
      case Contradicts(_) =>
      case Repeated =>
      case Supersedes => AdmitAdds(w, Retract(p1, se.ev.id), se, c);
      case First => AdmitAdds(w, p1, se, c);
    }
  }

  /** One event that is not dropped. */
  lemma AlikeProcess(w: World, f0: FeedState, c: Clock, p: Pass, q: Pass, se: Served, id: Id)
    requires Alike(p, q, id) && !NullCopy(w, se, id) && (se.ev.id == id ==> se.ev.organization == w.org)
    requires InOrder(f0, c, p, {}) && InOrder(f0, c, q, {})
    ensures var a, b := Process(w, p, se, c), Process(w, q, se, c);
            a.err == b.err && Alike(a.p, b.p, id) && (PlacedCopy(se, id) || !Unplaced(p, id) ==> !Unplaced(a.p, id))
  {
    if Twin(p, q, id) {
      if PlacedCopy(se, id) {
        PlacedMakesSame(w, f0, c, p, q, se, id);
        PlacedIsMet(w, p, se, id, c);
      } else {
        TwinProcess(w, p, q, id, se, c);
      }
    } else {
      SameProcess(w, p, q, se, c);
      StaysPlaced(w, p, se, id, c);
    }
  }

  lemma AlikeDropped(w: World, c: Clock, p: Pass, q: Pass, se: Served, id: Id)
    requires Alike(p, q, id) && NullCopy(w, se, id) && Tidy(p.feed)
    ensures Process(w, p, se, c).err == None && Alike(Process(w, p, se, c).p, q, id)
    ensures !Unplaced(p, id) ==> !Unplaced(Process(w, p, se, c).p, id)
  {
    if Twin(p, q, id) {
      NullIsTwin(w, c, p, se, id);
      TwinChain(p, q, Process(w, p, se, c).p, id);
    } else {
      PlacedIgnoresNull(w, p, se, id, c);
    }
  }

  lemma TwinChain(p: Pass, q: Pass, r: Pass, id: Id)
    requires Twin(p, q, id) && Twin(p, r, id)
    ensures Twin(r, q, id)
  {}

  /** A copy of the id with an index has been met, or is still to come. */
  ghost predicate WillMeet(p: Pass, ses: seq<Served>, id: Id) {
    !Unplaced(p, id) || exists se <- ses :: PlacedCopy(se, id)
  }

  /** The same error, passes alike, and the same passes if an indexed copy was to be met. */
  ghost predicate EndAlike(a: PassStep, b: PassStep, id: Id, met: bool) {
    a.err == b.err && Alike(a.p, b.p, id) && (a.err == None && met ==> Same(a.p, b.p))
  }

  lemma MeetsLater(p: Pass, p': Pass, se: Served, rest: seq<Served>, id: Id)
    requires PlacedCopy(se, id) || !Unplaced(p, id) ==> !Unplaced(p', id)
    ensures WillMeet(p, [se] + rest, id) ==> WillMeet(p', rest, id)
  {
    if x :| x in [se] + rest && PlacedCopy(x, id) {
      assert x == se || x in rest;
    }
  }

  lemma StripFirst(w: World, se: Served, rest: seq<Served>, id: Id)
    ensures Strip(w, [se] + rest, id) == (if NullCopy(w, se, id) then [] else [se]) + Strip(w, rest, id)
    ensures NullCopy(w, se, id) ==> Strip(w, [se] + rest, id) == Strip(w, rest, id)
  {
    assert ([se] + rest)[1..] == rest;
  }

  lemma ProcessFirst(w: World, p: Pass, se: Served, rest: seq<Served>, c: Clock)
    ensures ProcessAll(w, p, [se] + rest, c)
            == if Process(w, p, se, c).err.Some? then Process(w, p, se, c) else ProcessAll(w, Process(w, p, se, c).p, rest, c)
  {
    assert ([se] + rest)[1..] == rest;
  }

  /**
   * Dropping one id's copies without an index, wherever they are, changes no
   * error, and changes nothing else of the pass once a copy with an index is
   * met: not its outcome, not the state, not what the log is asked.
   */
  lemma {:induction false} NullCopiesDoNotMatter(w: World, f0: FeedState, c: Clock, p: Pass, q: Pass, ses: seq<Served>, id: Id)
    requires Alike(p, q, id) && InOrder(f0, c, p, {}) && InOrder(f0, c, q, {}) && WellNamed(ses)
    requires forall se <- ses :: se.ev.id == id ==> se.ev.organization == w.org
    ensures EndAlike(ProcessAll(w, p, ses, c), ProcessAll(w, q, Strip(w, ses, id), c), id, WillMeet(p, ses, id))
    decreases |ses|
  {
    if ses != [] {
      var se, rest := ses[0], ses[1..];
      assert ses == [se] + rest;
      StripFirst(w, se, rest, id);
      ProcessFirst(w, p, se, rest, c);
      ProcessKeeps(w, f0, c, p, se);
      if NullCopy(w, se, id) {
        OneDropped(w, f0, c, p, q, se, rest, id);
        NullCopiesDoNotMatter(w, f0, c, Process(w, p, se, c).p, q, rest, id);
      } else {
        ProcessKeeps(w, f0, c, q, se);
        ProcessFirst(w, q, se, Strip(w, rest, id), c);
        OneKept(w, f0, c, p, q, se, rest, id);
        var a, b := Process(w, p, se, c), Process(w, q, se, c);
        if a.err.None? {
          NullCopiesDoNotMatter(w, f0, c, a.p, b.p, rest, id);
        }
      }
    }
  }

  lemma OneDropped(w: World, f0: FeedState, c: Clock, p: Pass, q: Pass, se: Served, rest: seq<Served>, id: Id)
    requires Alike(p, q, id) && NullCopy(w, se, id) && InOrder(f0, c, p, {})
    ensures Process(w, p, se, c).err == None && Alike(Process(w, p, se, c).p, q, id)
    ensures WillMeet(p, [se] + rest, id) ==> WillMeet(Process(w, p, se, c).p, rest, id)
  {
    AlikeDropped(w, c, p, q, se, id);
    MeetsLater(p, Process(w, p, se, c).p, se, rest, id);
  }

  lemma OneKept(w: World, f0: FeedState, c: Clock, p: Pass, q: Pass, se: Served, rest: seq<Served>, id: Id)
    requires Alike(p, q, id) && !NullCopy(w, se, id) && (se.ev.id == id ==> se.ev.organization == w.org)
    requires InOrder(f0, c, p, {}) && InOrder(f0, c, q, {})
    ensures var a, b := Process(w, p, se, c), Process(w, q, se, c);
            && a.err == b.err && Alike(a.p, b.p, id)
            && (WillMeet(p, [se] + rest, id) ==> WillMeet(a.p, rest, id))
  {
    AlikeProcess(w, f0, c, p, q, se, id);
    MeetsLater(p, Process(w, p, se, c).p, se, rest, id);
  }

  /**
   * However one id's copies are ordered and repeated, the same pass results,
   * but for the mark, as long as one claims a position and the rest agree
   * when the copies that claim none are dropped.
   */
  lemma CopiesAnywhere(w: World, f0: FeedState, c: Clock, p: Pass, as': seq<Served>, bs: seq<Served>, id: Id)
    requires InOrder(f0, c, p, {}) && Unplaced(p, id) && WellNamed(as') && WellNamed(bs)
    requires Strip(w, as', id) == Strip(w, bs, id)
    requires forall se <- as' + bs :: se.ev.id == id ==> se.ev.organization == w.org
    ensures var a, b := ProcessAll(w, p, as', c), ProcessAll(w, p, bs, c);
            && a.err == b.err
            && (a.err == None && (exists se <- as' :: PlacedCopy(se, id)) ==> Same(a.p, b.p))
  {
    NullCopiesDoNotMatter(w, f0, c, p, p, as', id);
    NullCopiesDoNotMatter(w, f0, c, p, p, bs, id);
    if exists se <- as' :: PlacedCopy(se, id) {
      StripKeepsPlaced(w, as', id);
      StripKeepsPlaced(w, bs, id);
    }
  }

  lemma {:induction false} StripKeepsPlaced(w: World, ses: seq<Served>, id: Id)
    ensures (exists se <- ses :: PlacedCopy(se, id)) <==> (exists se <- Strip(w, ses, id) :: PlacedCopy(se, id))
  {
    if ses != [] {
      StripKeepsPlaced(w, ses[1..], id);
      assert ses == [ses[0]] + ses[1..];
      if PlacedCopy(ses[0], id) {
        assert ses[0] in Strip(w, ses, id);
      }
    }
  }
}
