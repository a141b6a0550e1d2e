/**
 * What a pass counts as verified, and what it passes over because it verified
 * earlier, is an event that was served, at its own index, and is the leaf its
 * final head commits to there, against every server.
 */
module FeedSound {
  import opened Basics
  import opened Tree
  import opened Checkpoint
  import opened Server
  import opened History
  import opened Inclusion
  import opened Feed
  import opened Coalesce
  import opened FeedPass
  import Leaf

  // ---------------------------------------------------------------------
  // Where events come from
  // ---------------------------------------------------------------------

  type EventSet = iset<Leaf.Event>

  /** What these rows read as. */
  ghost function EventsOf(parse: Reader, rows: seq<Row>): EventSet {
    iset ev | ReadAmong(parse, rows, ev)
  }

  ghost function Own(org: Text, evs: EventSet): EventSet {
    iset ev | ev in evs && ev.organization == org
  }

  /** Some bytes read as this event. */
  ghost predicate ReadBy(parse: Reader, ev: Leaf.Event) {
    exists b: Bytes :: parse(b) == Some(ev)
  }

  /**
   * An event whose first leaf hash is another's is the same event as far as
   * the log can tell: the two have the same leaf hashes.
   */
  ghost predicate Canonical(parse: Reader) {
    forall a: Bytes, b: Bytes ::
      parse(a).Some? && parse(b).Some? && Leaf.Hash(parse(a).value) in Leaf.Hashes(parse(b).value)
      ==> Leaf.Hashes(parse(a).value) == Leaf.Hashes(parse(b).value)
  }

  lemma SameHashes(parse: Reader, x: Leaf.Event, y: Leaf.Event)
    requires Canonical(parse) && ReadBy(parse, x) && ReadBy(parse, y)
    requires Leaf.Hash(x) in Leaf.Hashes(y)
    ensures Leaf.Hashes(x) == Leaf.Hashes(y)
  {
    var a: Bytes :| parse(a) == Some(x);
    var b: Bytes :| parse(b) == Some(y);
    assert parse(a).Some? && parse(b).Some?;
  }

  /**
   * The events a pass may rely on: behind an earlier success, behind what it
   * may verify, and read from its own pages. Each is told by its first hash.
   */
  datatype Pools = Pools(all: EventSet, mine: EventSet, here: EventSet)

  ghost predicate Nested(g: Pools) {
    && g.mine <= g.all && g.here <= g.all
    && forall x, y :: x in g.all && y in g.all && Leaf.Hash(x) in Leaf.Hashes(y) ==> Leaf.Hashes(x) == Leaf.Hashes(y)
  }

  // ---------------------------------------------------------------------
  // The invariant
  // ---------------------------------------------------------------------

  /** The event has this id and claims this index. */
  predicate Claims(ev: Leaf.Event, id: Id, index: nat) {
    ev.id == id && ev.index == Some(index)
  }

  /** A done record: of an event served with that id and index, one of whose hashes the index holds. */
  ghost predicate DoneOk(all: EventSet, head: Checkpoint, id: Id, d: DoneEvent) {
    && d.index.Some?
    && exists ev :: ev in all && Claims(ev, id, d.index.value) && d.leaf == Leaf.Hash(ev)
                    && CommitsTo(head, d.index.value, Leaf.Hashes(ev))
  }

  /** The record was made of this event. */
  ghost predicate RecordOf(id: Id, pe: PendingEvent, ev: Leaf.Event) {
    Claims(ev, id, pe.index) && pe.leaf == Leaf.Hash(ev) && PendingHashes(pe) == Leaf.Hashes(ev)
  }

  /** A pending record: of an event served with that id and index. */
  ghost predicate PendingOk(mine: EventSet, id: Id, pe: PendingEvent) {
    exists ev :: ev in mine && RecordOf(id, pe, ev)
  }

  ghost predicate FeedOk(all: EventSet, mine: EventSet, head: Checkpoint, f: FeedState) {
    && (forall id <- f.done :: id !in f.pending)
    && (forall id <- f.done :: DoneOk(all, head, id, f.done[id]))
    && (forall id <- f.pending :: PendingOk(mine, id, f.pending[id]))
  }

  /** Each id is vouched for by an event served with that id and index, one of whose hashes the index holds. */
  ghost predicate Committing(evs: EventSet, head: Checkpoint, vs: seq<Vouch>) {
    forall v <- vs :: VouchOk(evs, head, v)
  }

  ghost predicate VouchOk(evs: EventSet, head: Checkpoint, v: Vouch) {
    && CommitsTo(head, v.index, v.leaves)
    && exists ev :: ev in evs && Claims(ev, v.id, v.index) && v.leaves == Leaf.Hashes(ev)
  }

  /** The head is proven, saved, and an extension of where the pass began. */
  ghost predicate HeadOk(w: World, base: Checkpoint, h: History) {
    Consistent(w, h, {}) && h.anchored && h.saved == Some(h.latest.raw) && Extends(h.latest, base)
  }

  /** The head commits to everything the pass relies on. */
  ghost predicate Reliable(g: Pools, head: Checkpoint, p: Pass) {
    && FeedOk(g.all, g.mine, head, p.feed)
    && Committing(g.mine, head, p.verified) && Committing(g.here, head, p.skipped)
  }

  ghost predicate PassOk(w: World, g: Pools, base: Checkpoint, p: Pass) {
    HeadOk(w, base, p.h) && Nested(g) && Reliable(g, p.h.latest, p)
  }

  /** What a step leaves, its error being warranted. */
  ghost predicate StepOk(w: World, g: Pools, base: Checkpoint, p: Pass, st: PassStep) {
    && PassOk(w, g, base, st.p) && st.p.read == p.read && p.h.asked <= st.p.h.asked
    && (st.err.Some? ==> Holds(w, st.p.h.asked, st.err.value))
  }

  /** The event was read, and may be verified if it is of the pinned organization. */
  ghost predicate Eligible(org: Text, g: Pools, ev: Leaf.Event) {
    ev in g.here && (ev.organization == org ==> ev in g.mine)
  }

  // ---------------------------------------------------------------------
  // Steps that keep it
  // ---------------------------------------------------------------------

  lemma DoneOkLater(all: EventSet, head: Checkpoint, later: Checkpoint, id: Id, d: DoneEvent)
    requires DoneOk(all, head, id, d) && Extends(later, head)
    ensures DoneOk(all, later, id, d)
  {
    var ev :| ev in all && Claims(ev, id, d.index.value) && d.leaf == Leaf.Hash(ev) && CommitsTo(head, d.index.value, Leaf.Hashes(ev));
    CommitsLater(head, later, d.index.value, Leaf.Hashes(ev));
  }

  lemma FeedOkLater(all: EventSet, mine: EventSet, head: Checkpoint, later: Checkpoint, f: FeedState)
    requires FeedOk(all, mine, head, f) && Extends(later, head)
    ensures FeedOk(all, mine, later, f)
  {
    forall id <- f.done ensures DoneOk(all, later, id, f.done[id]) {
      DoneOkLater(all, head, later, id, f.done[id]);
    }
  }

  lemma CommittingLater(evs: EventSet, head: Checkpoint, later: Checkpoint, vs: seq<Vouch>)
    requires Committing(evs, head, vs) && Extends(later, head)
    ensures Committing(evs, later, vs)
  {
    forall v <- vs ensures VouchOk(evs, later, v) {
      CommitsLater(head, later, v.index, v.leaves);
    }
  }

  /** The head may move forward under a pass. */
  lemma HeadMoves(w: World, g: Pools, base: Checkpoint, p: Pass, h': History)
    requires PassOk(w, g, base, p) && Sound(w, p.h, h')
    ensures PassOk(w, g, base, p.(h := h'))
  {
    ExtendsTransitive(base, p.h.latest, h'.latest);
    FeedOkLater(g.all, g.mine, p.h.latest, h'.latest, p.feed);
    CommittingLater(g.mine, p.h.latest, h'.latest, p.verified);
    CommittingLater(g.here, p.h.latest, h'.latest, p.skipped);
  }

  lemma RefreshOk(all: EventSet, mine: EventSet, head: Checkpoint, f: FeedState, id: Id, now: Time)
    requires FeedOk(all, mine, head, f)
    ensures FeedOk(all, mine, head, Refresh(f, id, now))
  {
    if id in f.done {
      var d, d' := f.done[id], f.done[id].(recorded := now);
      var ev :| ev in all && Claims(ev, id, d.index.value) && d.leaf == Leaf.Hash(ev) && CommitsTo(head, d.index.value, Leaf.Hashes(ev));
      assert DoneOk(all, head, id, d');
    }
  }

  lemma PendOk(all: EventSet, mine: EventSet, head: Checkpoint, f: FeedState, id: Id, pe: PendingEvent)
    requires FeedOk(all, mine, head, f) && PendingOk(mine, id, pe) && id !in f.done
    ensures FeedOk(all, mine, head, Pend(f, id, pe))
  {
    var ev :| ev in mine && RecordOf(id, pe, ev);
    forall t: Time ensures PendingOk(mine, id, pe.(firstSeen := t)) {
      assert RecordOf(id, pe.(firstSeen := t), ev);
    }
  }

  lemma FinishedOk(all: EventSet, mine: EventSet, head: Checkpoint, f: FeedState, id: Id, pe: PendingEvent, now: Time)
    requires FeedOk(all, mine, head, f) && mine <= all
    requires PendingOk(mine, id, pe) && CommitsTo(head, pe.index, PendingHashes(pe))
    ensures FeedOk(all, mine, head, Done(f, id, DoneEvent(pe.created, now, Some(pe.index), pe.leaf)))
    ensures VouchOk(mine, head, Vouch(id, pe.index, PendingHashes(pe)))
  {
    var d := DoneEvent(pe.created, now, Some(pe.index), pe.leaf);
    var ev :| ev in mine && RecordOf(id, pe, ev);
    assert DoneOk(all, head, id, d);
  }

  lemma FailOk(w: World, g: Pools, base: Checkpoint, p: Pass, f: EventFailure, now: Time)
    requires PassOk(w, g, base, p)
    ensures PassOk(w, g, base, Fail(p, f, now))
  {
    RefreshOk(g.all, g.mine, p.h.latest, p.feed, f.id, now);
  }

  /** What an outcome must rest on before it is settled. */
  ghost predicate Grounded(g: Pools, p: Pass, id: Id, oc: Inclusion.Outcome, failure: Option<EventFailure>, pe: PendingEvent) {
    failure == None && oc != NotLogged ==>
      && PendingOk(g.mine, id, pe)
      && (oc == Verified ==> CommitsTo(p.h.latest, pe.index, PendingHashes(pe)))
      && (oc == Pending ==> id !in p.feed.done)
  }

  lemma SettleOk(w: World, g: Pools, base: Checkpoint, p: Pass, id: Id, oc: Inclusion.Outcome, failure: Option<EventFailure>,
                 pe: PendingEvent, ev: Option<Leaf.Event>, c: Clock)
    requires PassOk(w, g, base, p) && Grounded(g, p, id, oc, failure, pe)
    ensures PassOk(w, g, base, Settle(p, id, oc, failure, pe, ev, c))
  {
    var f := if failure == None then Contested(p.feed, id, oc, pe, ev, c) else failure;
    if f.Some? {
      RefreshOk(g.all, g.mine, p.h.latest, p.feed, id, c.now);
    } else if oc == Pending {
      PendOk(g.all, g.mine, p.h.latest, p.feed, id, pe);
    } else if oc == Verified {
      FinishedOk(g.all, g.mine, p.h.latest, p.feed, id, pe, c.now);
    }
  }

  lemma PendingOfEvent(mine: EventSet, ev: Leaf.Event, created: Time, now: Time)
    requires ev in mine && ev.index.Some?
    ensures var pe := PendingOf(ev, created, now);
            PendingOk(mine, ev.id, pe) && PendingHashes(pe) == Leaf.Hashes(ev) && pe.index == ev.index.value
  {
    assert RecordOf(ev.id, PendingOf(ev, created, now), ev);
  }

  lemma ExaminedIsGrounded(g: Pools, org: Text, p: Pass, ev: Leaf.Event, oc: (Inclusion.Outcome, Option<EventFailure>), created: Time, now: Time)
    requires Eligible(org, g, ev) && (ev.id in p.feed.done ==> ev.id in p.reverifying)
    requires oc.1 == None ==> ev.organization == org
    requires oc.1 == None && oc.0 != NotLogged ==> ev.index.Some?
    requires oc == (Verified, None) ==> CommitsTo(p.h.latest, ev.index.value, Leaf.Hashes(ev))
    ensures Grounded(g, p, ev.id, oc.0, Downgraded(p, ev, oc), PendingOf(ev, created, now))
  {
    if oc.1 == None && oc.0 != NotLogged {
      PendingOfEvent(g.mine, ev, created, now);
    }
  }

  /** A verdict on one id's leaves, with the head moved to where it was reached. */
  ghost predicate VerdictOk(w: World, g: Pools, base: Checkpoint, p: Pass, h': History, v: Verdict, index: Option<nat>, leaves: seq<Hash>) {
    && PassOk(w, g, base, p.(h := h')) && p.h.asked <= h'.asked
    && (v.Err? ==> Holds(w, h'.asked, v.error))
    && (v.Ok? && v.value.1 == None && v.value.0 != NotLogged ==> index.Some?)
    && (v.Ok? && v.value == (Verified, None) ==> CommitsTo(h'.latest, index.value, leaves))
  }

  lemma CheckEventOk(w: World, g: Pools, base: Checkpoint, p: Pass, ev: Leaf.Event)
    returns (h': History, v: Verdict)
    requires PassOk(w, g, base, p)
    ensures CheckEvent(w, p.h, ev) == (h', v) && VerdictOk(w, g, base, p, h', v, ev.index, Leaf.Hashes(ev))
    ensures v.Ok? && v.value.1 == None ==> ev.organization == w.org
  {
    CheckEventIsSound(w, p.h, ev);
    var r := CheckEvent(w, p.h, ev);
    h', v := r.0, r.1;
    HeadMoves(w, g, base, p, h');
  }

  lemma ExamineCases(w: World, p: Pass, se: Served, c: Clock, h': History, v: Verdict)
    requires CheckEvent(w, p.h, se.ev) == (h', v)
    ensures var p1 := p.(h := h');
            Examine(w, p, se, c) ==
              if v.Err? then PassStep(p1, Some(v.error))
              else PassStep(Settle(p1, se.ev.id, v.value.0, Downgraded(p1, se.ev, v.value), PendingOf(se.ev, se.created, c.now), Some(se.ev), c), None)
  {}

  lemma SettleAside(p: Pass, id: Id, oc: Inclusion.Outcome, failure: Option<EventFailure>, pe: PendingEvent, ev: Option<Leaf.Event>, c: Clock)
    ensures var p' := Settle(p, id, oc, failure, pe, ev, c); p'.read == p.read && p'.h == p.h
  {}

  /** A settled verdict is a step. */
  lemma SettledStepOk(w: World, g: Pools, base: Checkpoint, p: Pass, h': History, id: Id, oc: Inclusion.Outcome, failure: Option<EventFailure>,
                      pe: PendingEvent, ev: Option<Leaf.Event>, c: Clock)
    requires PassOk(w, g, base, p.(h := h')) && p.h.asked <= h'.asked && Grounded(g, p.(h := h'), id, oc, failure, pe)
    ensures StepOk(w, g, base, p, PassStep(Settle(p.(h := h'), id, oc, failure, pe, ev, c), None))
  {
    SettleOk(w, g, base, p.(h := h'), id, oc, failure, pe, ev, c);
    SettleAside(p.(h := h'), id, oc, failure, pe, ev, c);
  }

  lemma ExamineOk(w: World, g: Pools, base: Checkpoint, p: Pass, se: Served, c: Clock)
    requires PassOk(w, g, base, p) && Eligible(w.org, g, se.ev)
    requires se.ev.id in p.feed.done ==> se.ev.id in p.reverifying
    ensures StepOk(w, g, base, p, Examine(w, p, se, c))
  {
    var h', v := CheckEventOk(w, g, base, p, se.ev);
    var p1 := p.(h := h');
    ExamineCases(w, p, se, c, h', v);
    if v.Ok? {
      ExaminedIsGrounded(g, w.org, p1, se.ev, v.value, se.created, c.now);
      SettledStepOk(w, g, base, p, h', se.ev.id, v.value.0, Downgraded(p1, se.ev, v.value), PendingOf(se.ev, se.created, c.now), Some(se.ev), c);
    }
  }

  /** A record of an earlier success vouches for exactly the leaf its index holds. */
  lemma SkipIsSound(g: Pools, head: Checkpoint, d: DoneEvent, ev: Leaf.Event)
    requires Nested(g) && ev in g.all && DoneOk(g.all, head, ev.id, d)
    requires RecheckDone(d, ev) == Skip
    ensures ev.index == d.index && CommitsTo(head, d.index.value, Leaf.Hashes(ev))
  {
    var x :| x in g.all && Claims(x, ev.id, d.index.value) && d.leaf == Leaf.Hash(x) && CommitsTo(head, d.index.value, Leaf.Hashes(x));
    assert Leaf.Hashes(x) == Leaf.Hashes(ev);
  }

  lemma CommittingOneMore(evs: EventSet, head: Checkpoint, vs: seq<Vouch>, v: Vouch)
    requires Committing(evs, head, vs) && VouchOk(evs, head, v)
    ensures Committing(evs, head, vs + [v])
  {}

  lemma SkippedIs(p: Pass, ev: Leaf.Event, now: Time, v: Vouch)
    requires ev.id in p.feed.done && p.feed.done[ev.id].index.Some?
    requires v == Vouch(ev.id, p.feed.done[ev.id].index.value, Leaf.Hashes(ev))
    ensures Skipped(p, ev, now) == p.(feed := Refresh(p.feed, ev.id, now), skipped := p.skipped + [v])
  {}

  lemma SkipOk(w: World, g: Pools, base: Checkpoint, p: Pass, ev: Leaf.Event, now: Time)
    requires PassOk(w, g, base, p) && ev in g.here
    requires ev.id in p.feed.done && RecheckDone(p.feed.done[ev.id], ev) == Skip
    ensures PassOk(w, g, base, Skipped(p, ev, now)) && Skipped(p, ev, now).read == p.read && Skipped(p, ev, now).h == p.h
  {
    var d := p.feed.done[ev.id];
    assert DoneOk(g.all, p.h.latest, ev.id, d);
    SkipIsSound(g, p.h.latest, d, ev);
    var v := Vouch(ev.id, d.index.value, Leaf.Hashes(ev));
    assert VouchOk(g.here, p.h.latest, v) by { assert Claims(ev, v.id, v.index); }
    CommittingOneMore(g.here, p.h.latest, p.skipped, v);
    RefreshOk(g.all, g.mine, p.h.latest, p.feed, ev.id, now);
    SkippedIs(p, ev, now, v);
  }

  lemma ReverifyOk(w: World, g: Pools, base: Checkpoint, p: Pass, se: Served, c: Clock)
    requires PassOk(w, g, base, p) && Eligible(w.org, g, se.ev)
    ensures StepOk(w, g, base, p, Examine(w, Listed(p.(reverifying := p.reverifying + {se.ev.id}), se.ev.id), se, c))
  {
    ExamineOk(w, g, base, Listed(p.(reverifying := p.reverifying + {se.ev.id}), se.ev.id), se, c);
  }

  /** A recorded event's new serving: a finding, passed over, or verified again. */
  lemma AdmitDoneCases(w: World, p: Pass, se: Served, c: Clock)
    requires se.ev.id in p.feed.done
    ensures match RecheckDone(p.feed.done[se.ev.id], se.ev)
            case Finding(f) =>
              AdmitDone(w, p, se, c)
              == PassStep(if se.ev.index == None then p.(withdrawn := p.withdrawn[se.ev.id := f]) else Fail(p, f, c.now), None)
            case Skip => AdmitDone(w, p, se, c) == PassStep(Skipped(p, se.ev, c.now), None)
            case Reverify => AdmitDone(w, p, se, c) == Examine(w, Listed(p.(reverifying := p.reverifying + {se.ev.id}), se.ev.id), se, c)
  {}

  lemma FindingOk(w: World, g: Pools, base: Checkpoint, p: Pass, id: Id, index: Option<nat>, f: EventFailure, now: Time)
    requires PassOk(w, g, base, p)
    ensures StepOk(w, g, base, p, PassStep(if index == None then p.(withdrawn := p.withdrawn[id := f]) else Fail(p, f, now), None))
  {
    FailOk(w, g, base, p, f, now);
  }

  lemma AdmitDoneOk(w: World, g: Pools, base: Checkpoint, p: Pass, se: Served, c: Clock, st: PassStep)
    requires PassOk(w, g, base, p) && Eligible(w.org, g, se.ev) && se.ev.id in p.feed.done
    requires st == AdmitDone(w, p, se, c)
    ensures StepOk(w, g, base, p, st)
  {
    AdmitDoneCases(w, p, se, c);
    match RecheckDone(p.feed.done[se.ev.id], se.ev)
    case Finding(f) => FindingOk(w, g, base, p, se.ev.id, se.ev.index, f, c.now);
    case Skip => SkipOk(w, g, base, p, se.ev, c.now);
    case Reverify => ReverifyOk(w, g, base, p, se, c);
  }

  lemma AdmitOk(w: World, g: Pools, base: Checkpoint, p: Pass, se: Served, c: Clock)
    requires PassOk(w, g, base, p) && Eligible(w.org, g, se.ev)
    ensures StepOk(w, g, base, p, Admit(w, p, se, c))
  {
    var p1 := p.(seen := p.seen[se.ev.id := se]);
    if se.ev.id in p1.feed.done {
      AdmitDoneOk(w, g, base, p1, se, c, AdmitDone(w, p1, se, c));
    } else {
      ExamineOk(w, g, base, Listed(p1, se.ev.id), se, c);
    }
  }

  lemma ProcessOk(w: World, g: Pools, base: Checkpoint, p: Pass, se: Served, c: Clock)
    requires PassOk(w, g, base, p) && Eligible(w.org, g, se.ev)
    ensures StepOk(w, g, base, p, Process(w, p, se, c))
  {
    var p1 := p.(highWater := Raised(p.highWater, se.created, c.now));
    if se.conflict.Some? {
      FailOk(w, g, base, p1, se.conflict.value, c.now);
    } else {
      match RepeatOf(p1.seen, se.ev)
      case Contradicts(f) => FailOk(w, g, base, p1, f, c.now);
      case Repeated =>
      case Supersedes => AdmitOk(w, g, base, Retract(p1, se.ev.id), se, c);
      case First => AdmitOk(w, g, base, p1, se, c);
    }
  }

  lemma {:induction false} ProcessAllOk(w: World, g: Pools, base: Checkpoint, p: Pass, ses: seq<Served>, c: Clock)
    requires PassOk(w, g, base, p) && forall se <- ses :: Eligible(w.org, g, se.ev)
    ensures StepOk(w, g, base, p, ProcessAll(w, p, ses, c))
    decreases |ses|
  {
    if ses != [] {
      ProcessOk(w, g, base, p, ses[0], c);
      var st := Process(w, p, ses[0], c);
      if st.err.None? {
        ProcessAllOk(w, g, base, st.p, ses[1..], c);
      }
    }
  }

  lemma {:induction false} FailAllOk(w: World, g: Pools, base: Checkpoint, p: Pass, fs: seq<EventFailure>, now: Time)
    requires PassOk(w, g, base, p)
    ensures var p' := FailAll(p, fs, now); PassOk(w, g, base, p') && p'.read == p.read && p'.h == p.h
    decreases |fs|
  {
    if fs != [] {
      FailOk(w, g, base, p, fs[0], now);
      FailAllOk(w, g, base, Fail(p, fs[0], now), fs[1..], now);
    }
  }

  lemma CheckPendingOk(w: World, g: Pools, base: Checkpoint, p: Pass, id: Id, index: nat, leaves: seq<Hash>)
    returns (h': History, v: Verdict)
    requires PassOk(w, g, base, p)
    ensures CheckInclusion(w, p.h, id, index, leaves) == (h', v) && VerdictOk(w, g, base, p, h', v, Some(index), leaves)
  {
    CheckInclusionIsSound(w, p.h, id, index, leaves);
    var r := CheckInclusion(w, p.h, id, index, leaves);
    h', v := r.0, r.1;
    HeadMoves(w, g, base, p, h');
  }

  lemma Recheck1Cases(w: World, p: Pass, id: Id, c: Clock, pe: PendingEvent, h': History, v: Verdict)
    requires id !in p.listed && id in p.feed.pending && pe == p.feed.pending[id] && pe.index < p.h.latest.size
    requires CheckInclusion(w, p.h, id, pe.index, PendingHashes(pe)) == (h', v)
    ensures Recheck1(w, p, id, c) ==
              if v.Err? then PassStep(p.(h := h'), Some(v.error))
              else PassStep(Settle(p.(h := h'), id, v.value.0, v.value.1, pe, None, c), None)
  {}

  lemma CoveredRecheckOk(w: World, g: Pools, base: Checkpoint, p: Pass, id: Id, c: Clock)
    requires PassOk(w, g, base, p) && id !in p.listed && id in p.feed.pending && p.feed.pending[id].index < p.h.latest.size
    ensures StepOk(w, g, base, p, Recheck1(w, p, id, c))
  {
    var pe := p.feed.pending[id];
    var h', v := CheckPendingOk(w, g, base, p, id, pe.index, PendingHashes(pe));
    Recheck1Cases(w, p, id, c, pe, h', v);
    if v.Ok? {
      assert PendingOk(g.mine, id, pe) && id !in p.feed.done;
      SettledStepOk(w, g, base, p, h', id, v.value.0, v.value.1, pe, None, c);
    }
  }

  lemma Recheck1Ok(w: World, g: Pools, base: Checkpoint, p: Pass, id: Id, c: Clock)
    requires PassOk(w, g, base, p)
    ensures StepOk(w, g, base, p, Recheck1(w, p, id, c))
  {
    if id !in p.listed && id in p.feed.pending {
      var pe := p.feed.pending[id];
      if pe.index < p.h.latest.size {
        CoveredRecheckOk(w, g, base, p, id, c);
      } else {
        assert PendingOk(g.mine, id, pe) && id !in p.feed.done;
        SettledStepOk(w, g, base, p, p.h, id, Pending, None, pe, None, c);
        assert p.(h := p.h) == p;
      }
    }
  }

  lemma {:induction false} RecheckAllOk(w: World, g: Pools, base: Checkpoint, p: Pass, ids: seq<Id>, c: Clock)
    requires PassOk(w, g, base, p)
    ensures StepOk(w, g, base, p, RecheckAll(w, p, ids, c))
    decreases |ids|
  {
    if ids != [] {
      Recheck1Ok(w, g, base, p, ids[0], c);
      var st := Recheck1(w, p, ids[0], c);
      if st.err.None? {
        RecheckAllOk(w, g, base, st.p, ids[1..], c);
      }
    }
  }

  lemma {:induction false} RetractAllOk(w: World, g: Pools, base: Checkpoint, p: Pass, ids: seq<Id>)
    requires PassOk(w, g, base, p)
    ensures var p' := RetractAll(p, ids); PassOk(w, g, base, p') && p'.read == p.read && p'.h == p.h
    decreases |ids|
  {
    if ids != [] {
      RetractAllOk(w, g, base, Retract(p, ids[0]), ids[1..]);
    }
  }

  lemma {:induction false} FailWithdrawnOk(w: World, g: Pools, base: Checkpoint, p: Pass, ids: seq<Id>, now: Time)
    requires PassOk(w, g, base, p)
    ensures var p' := FailWithdrawn(p, ids, now); PassOk(w, g, base, p') && p'.read == p.read && p'.h == p.h
    decreases |ids|
  {
    if ids != [] {
      var id := ids[0];
      if id in p.withdrawn && !(id in p.seen && p.seen[id].ev.index.Some?) {
        FailOk(w, g, base, Retract(p, id), p.withdrawn[id], now);
        FailWithdrawnOk(w, g, base, Fail(Retract(p, id), p.withdrawn[id], now), ids[1..], now);
      } else {
        FailWithdrawnOk(w, g, base, p, ids[1..], now);
      }
    }
  }

  // ---------------------------------------------------------------------
  // Reading the feed
  // ---------------------------------------------------------------------

  /** The events behind what a pass was given: all its records, and those still pending. */
  datatype Known = Known(all: EventSet, due: EventSet)

  ghost predicate KnownOk(parse: Reader, k: Known) {
    Canonical(parse) && k.due <= k.all && forall ev :: ev in k.all ==> ReadBy(parse, ev)
  }

  /** What a pass that has read these rows may rely on. */
  ghost function PoolsAt(org: Text, parse: Reader, k: Known, rows: seq<Row>): Pools {
    var read := EventsOf(parse, rows);
    Pools(k.all + read, k.due + Own(org, read), read)
  }

  /** Everything read so far was on a page answered to a request made. */
  ghost predicate AllShown(w: World, p: Pass) {
    forall row <- p.read :: Shown(w, p.h.asked, row)
  }

  ghost predicate ReadingOk(w: World, parse: Reader, k: Known, base: Checkpoint, p: Pass) {
    KnownOk(parse, k) && AllShown(w, p) && PassOk(w, PoolsAt(w.org, parse, k, p.read), base, p)
  }

  lemma PoolsAreNested(org: Text, parse: Reader, k: Known, rows: seq<Row>)
    requires KnownOk(parse, k)
    ensures Nested(PoolsAt(org, parse, k, rows))
  {
    var g := PoolsAt(org, parse, k, rows);
    forall ev | ev in g.all ensures ReadBy(parse, ev) {
      if ev in EventsOf(parse, rows) {
        var row :| row in rows && parse(row.raw) == Some(ev);
      }
    }
    forall x, y | x in g.all && y in g.all && Leaf.Hash(x) in Leaf.Hashes(y)
      ensures Leaf.Hashes(x) == Leaf.Hashes(y)
    {
      SameHashes(parse, x, y);
    }
  }

  lemma CommittingMore(evs: EventSet, more: EventSet, head: Checkpoint, vs: seq<Vouch>)
    requires Committing(evs, head, vs) && evs <= more
    ensures Committing(more, head, vs)
  {
    forall v <- vs ensures VouchOk(more, head, v) {
      var ev :| ev in evs && Claims(ev, v.id, v.index) && v.leaves == Leaf.Hashes(ev);
      assert ev in more;
    }
  }

  lemma FeedOkMore(all: EventSet, mine: EventSet, all': EventSet, mine': EventSet, head: Checkpoint, f: FeedState)
    requires FeedOk(all, mine, head, f) && all <= all' && mine <= mine'
    ensures FeedOk(all', mine', head, f)
  {
    forall id <- f.done ensures DoneOk(all', head, id, f.done[id]) {
      var d := f.done[id];
      var ev :| ev in all && Claims(ev, id, d.index.value) && d.leaf == Leaf.Hash(ev) && CommitsTo(head, d.index.value, Leaf.Hashes(ev));
      assert ev in all';
    }
    forall id <- f.pending ensures PendingOk(mine', id, f.pending[id]) {
      var ev :| ev in mine && RecordOf(id, f.pending[id], ev);
      assert ev in mine';
    }
  }

  lemma EventsOfMore(parse: Reader, rows: seq<Row>, more: seq<Row>)
    ensures EventsOf(parse, rows) <= EventsOf(parse, rows + more)
    ensures EventsOf(parse, more) <= EventsOf(parse, rows + more)
  {
    forall ev | ev in EventsOf(parse, rows) || ev in EventsOf(parse, more) ensures ev in EventsOf(parse, rows + more) {
      var row :| row in rows + more && parse(row.raw) == Some(ev);
    }
  }

  /** More rows are read, from a page just answered. */
  lemma ReadsOn(w: World, parse: Reader, k: Known, base: Checkpoint, p: Pass, rows: seq<Row>)
    requires ReadingOk(w, parse, k, base, p) && forall row <- rows :: Shown(w, p.h.asked, row)
    ensures ReadingOk(w, parse, k, base, p.(read := p.read + rows))
  {
    var g, g' := PoolsAt(w.org, parse, k, p.read), PoolsAt(w.org, parse, k, p.read + rows);
    EventsOfMore(parse, p.read, rows);
    PoolsAreNested(w.org, parse, k, p.read + rows);
    FeedOkMore(g.all, g.mine, g'.all, g'.mine, p.h.latest, p.feed);
    CommittingMore(g.mine, g'.mine, p.h.latest, p.verified);
    CommittingMore(g.here, g'.here, p.h.latest, p.skipped);
  }

  lemma {:induction false} CollapsedAmong(parse: Reader, rows: seq<Row>, copies: seq<Served>)
    requires forall a <- copies :: ReadAmong(parse, rows, a.ev)
    ensures forall a <- Collapsed(copies) :: ReadAmong(parse, rows, a.ev)
  {
    if copies != [] {
      CollapsedAmong(parse, rows, copies[..|copies| - 1]);
    }
  }

  lemma {:induction false} ParsedAmong(parse: Reader, rows: seq<Row>)
    ensures forall a <- Parsed(rows, parse) :: ReadAmong(parse, rows, a.ev)
  {
    if rows != [] {
      var less, row := rows[..|rows| - 1], rows[|rows| - 1];
      assert rows == less + [row];
      ParsedAmong(parse, less);
      forall a <- Parsed(rows, parse) ensures ReadAmong(parse, rows, a.ev) {
        if a in Parsed(less, parse) {
          var x :| x in less && parse(x.raw) == Some(a.ev);
          assert x in rows;
        } else {
          assert row in rows;
        }
      }
    }
  }

  /** Every entry of the page is of a row now read. */
  lemma EntriesEligible(org: Text, parse: Reader, k: Known, before: seq<Row>, rows: seq<Row>)
    ensures forall se <- Collapsed(Parsed(rows, parse)) :: Eligible(org, PoolsAt(org, parse, k, before + rows), se.ev)
  {
    ParsedAmong(parse, rows);
    CollapsedAmong(parse, rows, Parsed(rows, parse));
    EventsOfMore(parse, before, rows);
    forall se <- Collapsed(Parsed(rows, parse)) ensures Eligible(org, PoolsAt(org, parse, k, before + rows), se.ev) {
      assert se.ev in EventsOf(parse, rows);
    }
  }

  lemma ShownStays(w: World, p: Pass, p': Pass)
    requires AllShown(w, p) && p'.read == p.read && p.h.asked <= p'.h.asked
    ensures AllShown(w, p')
  {
    forall row <- p'.read ensures Shown(w, p'.h.asked, row) {
      ShownLater(w, p.h.asked, p'.h.asked, row);
    }
  }

  /** What a step of the reading leaves. */
  ghost predicate StepReads(w: World, parse: Reader, k: Known, base: Checkpoint, st: PassStep) {
    ReadingOk(w, parse, k, base, st.p) && (st.err.Some? ==> Holds(w, st.p.h.asked, st.err.value))
  }

  lemma StepIsRead(w: World, parse: Reader, k: Known, base: Checkpoint, p: Pass, st: PassStep)
    requires KnownOk(parse, k) && AllShown(w, p) && StepOk(w, PoolsAt(w.org, parse, k, p.read), base, p, st)
    ensures StepReads(w, parse, k, base, st)
  {
    ShownStays(w, p, st.p);
  }

  lemma ReadRowsOk(w: World, s: Settings, c: Clock, k: Known, base: Checkpoint, p: Pass, rows: seq<Row>)
    requires ReadingOk(w, s.parse, k, base, p) && forall row <- rows :: Shown(w, p.h.asked, row)
    ensures StepReads(w, s.parse, k, base, ReadRows(w, s, c, p, rows))
  {
    var p1 := p.(read := p.read + rows);
    var g := PoolsAt(w.org, s.parse, k, p1.read);
    ReadsOn(w, s.parse, k, base, p, rows);
    EntriesEligible(w.org, s.parse, k, p.read, rows);
    FailAllOk(w, g, base, p1, Unparsed(rows, s.parse), c.now);
    var p2 := FailAll(p1, Unparsed(rows, s.parse), c.now);
    ProcessAllOk(w, g, base, p2, Collapsed(Parsed(rows, s.parse)), c);
    ShownStays(w, p1, p2);
    StepIsRead(w, s.parse, k, base, p2, ProcessAll(w, p2, Collapsed(Parsed(rows, s.parse)), c));
  }

  /** The error of the log a reading broke off with, if it did, is warranted. */
  ghost predicate EndHolds(w: World, asked: seq<Request>, e: RunError) {
    e.LogError? ==> Holds(w, asked, e.err)
  }

  ghost predicate PageOk(w: World, parse: Reader, k: Known, base: Checkpoint, st: PageStep) {
    ReadingOk(w, parse, k, base, st.r.p) && (st.Stop? && st.end.Broken? ==> EndHolds(w, st.r.p.h.asked, st.end.err))
  }

  lemma TurnOk(w: World, parse: Reader, k: Known, base: Checkpoint, r: Reading, err: Option<Err>, hasMore: bool, lastId: Id, news: bool)
    requires StepReads(w, parse, k, base, PassStep(r.p, err))
    ensures PageOk(w, parse, k, base, Turn(r, err, hasMore, lastId, news))
  {}

  lemma TakePageOk(w: World, s: Settings, c: Clock, k: Known, base: Checkpoint, r: Reading, rows: seq<Row>, hasMore: bool, lastId: Id)
    requires ReadingOk(w, s.parse, k, base, r.p) && forall row <- rows :: Shown(w, r.p.h.asked, row)
    ensures PageOk(w, s.parse, k, base, TakePage(w, s, c, r, rows, hasMore, lastId))
  {
    ReadRowsOk(w, s, c, k, base, r.p, rows);
    var r1, news := TakenIsTurned(w, s, c, r, rows, hasMore, lastId);
    TurnOk(w, s.parse, k, base, r1, ReadRows(w, s, c, r.p, rows).err, hasMore, lastId, news);
  }

  lemma AskOk(w: World, parse: Reader, k: Known, base: Checkpoint, p: Pass, req: Request)
    requires ReadingOk(w, parse, k, base, p)
    ensures ReadingOk(w, parse, k, base, p.(h := Ask(p.h, req)))
  {
    AskKeeps(w, p.h, req, {});
    HeadMoves(w, PoolsAt(w.org, parse, k, p.read), base, p, Ask(p.h, req));
    ShownStays(w, p, p.(h := Ask(p.h, req)));
  }

  lemma ReadPageOk(w: World, s: Settings, c: Clock, k: Known, base: Checkpoint, r: Reading)
    requires ReadingOk(w, s.parse, k, base, r.p)
    ensures PageOk(w, s.parse, k, base, ReadPage(w, s, c, r))
  {
    var req := Query(r.p.feed, OrDefault(s.overlap, DEFAULT_OVERLAP), r.after);
    var r1 := r.(p := r.p.(h := Ask(r.p.h, req)));
    AskOk(w, s.parse, k, base, r.p, req);
    PageCases(w, s, c, r, r1);
    var a := w.server(r.p.h.asked, req);
    if a.PageAnswer? {
      forall row <- a.rows ensures Shown(w, r1.p.h.asked, row) {
        ShownNow(w, r.p.h.asked, req, row);
      }
      TakePageOk(w, s, c, k, base, r1, a.rows, a.hasMore, a.lastId);
    }
  }

  lemma {:induction false} ReadFeedOk(w: World, s: Settings, c: Clock, k: Known, base: Checkpoint, r: Reading)
    requires Bounded(r) && ReadingOk(w, s.parse, k, base, r.p)
    ensures var (r', end) := ReadFeed(w, s, c, r);
            ReadingOk(w, s.parse, k, base, r'.p) && (end.Broken? ==> EndHolds(w, r'.p.h.asked, end.err))
    decreases 2 * MAX_FEED_PAGES - TotalUses(r.cursors)
  {
    ReadPageOk(w, s, c, k, base, r);
    if ReadPage(w, s, c, r).Continue? {
      ContinuingUsesACursor(w, s, c, r);
      ReadFeedOk(w, s, c, k, base, ReadPage(w, s, c, r).r);
    }
  }

  // ---------------------------------------------------------------------
  // A whole pass
  // ---------------------------------------------------------------------

  /**
   * A state earlier passes may have left: every record is of one of these
   * events, every record of a success is a leaf its anchor commits to, and
   * without an anchor there are no records.
   */
  ghost predicate StateOk(origin: Bytes, all: EventSet, state: State) {
    match Anchor(origin, state)
    case Some(head) => FeedOk(all, all, head, state.feed)
    case None => state.anchor == None && state.feed.done == map[] && state.feed.pending == map[]
  }

  /** The events behind the pending records. */
  ghost function Due(all: EventSet, f: FeedState): EventSet {
    iset ev | ev in all && ev.id in f.pending && RecordOf(ev.id, f.pending[ev.id], ev)
  }

  /** What a pass is given to know. */
  ghost function KnownOf(all: EventSet, state: State): Known {
    Known(all, Due(all, state.feed))
  }

  /** Among the requests made, one was answered with this note, and it verifies. */
  ghost predicate Answered(w: World, asked: seq<Request>, note: Note) {
    Verify(note, w.origin).Some? && Heard(w, asked, note)
  }

  /** The requests a pass made, whether it started or not. */
  ghost function Requests(w: World, saved: Option<Note>, baselines: seq<Checkpoint>, pass: Option<Pass>): seq<Request> {
    if pass.Some? then pass.value.h.asked else Tried(w, Some(saved), baselines)
  }

  /** The rows a pass read. */
  function RowsRead(pass: Option<Pass>): seq<Row> {
    if pass.Some? then pass.value.read else []
  }

  /** The anchor is the one there was, or a note the server answered one of these requests with. */
  ghost predicate AnchorFrom(w: World, asked: seq<Request>, before: Option<Note>, after: Option<Note>) {
    after == before || (after.Some? && Answered(w, asked, after.value))
  }

  lemma CloseOk(w: World, s: Settings, c: Clock, k: Known, base: Checkpoint, p: Pass, truncated: bool, broken: Option<RunError>, deferred: bool)
    requires ReadingOk(w, s.parse, k, base, p) && (broken.Some? ==> EndHolds(w, p.h.asked, broken.value))
    ensures var r := Close(s, c, p, truncated, broken, deferred);
            && r.pass.Some? && r.pass.value.h == p.h && ReadingOk(w, s.parse, k, base, r.pass.value)
            && r.state.feed == r.pass.value.feed && r.state.anchor == p.h.latest.raw
            && (r.err.Some? ==> EndHolds(w, p.h.asked, r.err.value))
  {}

  lemma ClosedStateOk(w: World, parse: Reader, k: Known, base: Checkpoint, p: Pass, state: State)
    requires ReadingOk(w, parse, k, base, p) && state == State(p.h.latest.raw, p.feed)
    ensures StateOk(w.origin, k.all + EventsOf(parse, p.read), state) && Anchor(w.origin, state) == Some(p.h.latest)
  {
    var g := PoolsAt(w.org, parse, k, p.read);
    ServedIsBacked(w, p.h.latest.raw.value);
    FeedOkMore(g.all, g.mine, g.all, g.all, p.h.latest, p.feed);
  }

  lemma RecheckedOk(w: World, s: Settings, c: Clock, k: Known, base: Checkpoint, p: Pass, broken: Option<RunError>)
    requires ReadingOk(w, s.parse, k, base, p) && (broken.Some? ==> EndHolds(w, p.h.asked, broken.value))
    ensures var (p1, b) := Rechecked(w, s, c, p, broken);
            ReadingOk(w, s.parse, k, base, p1) && (b.Some? ==> EndHolds(w, p1.h.asked, b.value))
  {
    if broken.None? {
      var g := PoolsAt(w.org, s.parse, k, p.read);
      RecheckAllOk(w, g, base, p, s.sorted(p.feed.pending.Keys), c);
      StepIsRead(w, s.parse, k, base, p, RecheckAll(w, p, s.sorted(p.feed.pending.Keys), c));
    }
  }

  lemma WithdrawalsOk(w: World, s: Settings, c: Clock, k: Known, base: Checkpoint, p: Pass, complete: bool)
    requires ReadingOk(w, s.parse, k, base, p)
    ensures var p' := Withdrawals(s, c, p, complete).0; ReadingOk(w, s.parse, k, base, p') && p'.h == p.h
  {
    var g := PoolsAt(w.org, s.parse, k, p.read);
    if !complete {
      RetractAllOk(w, g, base, p, s.sorted(p.withdrawn.Keys));
    }
    var p1 := if complete then p else RetractAll(p, s.sorted(p.withdrawn.Keys));
    FailWithdrawnOk(w, g, base, p1, s.sorted(p1.withdrawn.Keys), c.now);
  }

  /** What a pass comes to before it closes. */
  lemma WorkOk(w: World, s: Settings, now: Time, k: Known, base: Checkpoint, h: History, feed: FeedState)
    returns (p: Pass, truncated: bool, broken: Option<RunError>, deferred: bool)
    requires ReadingOk(w, s.parse, k, base, Begin(h, feed).p)
    ensures ReadingOk(w, s.parse, k, base, p) && (broken.Some? ==> EndHolds(w, p.h.asked, broken.value))
    ensures Pass1(w, s, now, h, feed) == Close(s, ClockOf(s, now), p, truncated, broken, deferred)
  {
    var c := ClockOf(s, now);
    ReadFeedOk(w, s, c, k, base, Begin(h, feed));
    var (r, end) := ReadFeed(w, s, c, Begin(h, feed));
    RecheckedOk(w, s, c, k, base, r.p, BrokenBy(end));
    var (p1, b) := Rechecked(w, s, c, r.p, BrokenBy(end));
    WithdrawalsOk(w, s, c, k, base, p1, end == Complete);
    var (p2, d) := Withdrawals(s, c, p1, end == Complete);
    p, truncated, broken, deferred := p2, end == Truncated, b, d;
  }

  lemma Pass1Ok(w: World, s: Settings, now: Time, k: Known, base: Checkpoint, h: History, feed: FeedState)
    requires ReadingOk(w, s.parse, k, base, Begin(h, feed).p)
    ensures var r := Pass1(w, s, now, h, feed);
            && r.pass.Some? && ReadingOk(w, s.parse, k, base, r.pass.value)
            && StateOk(w.origin, k.all + EventsOf(s.parse, r.pass.value.read), r.state)
            && Anchor(w.origin, r.state) == Some(r.pass.value.h.latest)
            && r.state.anchor == r.pass.value.h.latest.raw
            && HeadServed(w, r.pass.value.h.asked, r.pass.value.h.latest)
            && (r.err.Some? ==> EndHolds(w, r.pass.value.h.asked, r.err.value))
  {
    var p, truncated, broken, deferred := WorkOk(w, s, now, k, base, h, feed);
    CloseOk(w, s, ClockOf(s, now), k, base, p, truncated, broken, deferred);
    var r := Close(s, ClockOf(s, now), p, truncated, broken, deferred);
    ClosedStateOk(w, s.parse, k, base, r.pass.value, r.state);
  }

  lemma DueOk(all: EventSet, head: Checkpoint, f: FeedState)
    requires FeedOk(all, all, head, f)
    ensures FeedOk(all, Due(all, f), head, f) && Due(all, f) <= all
  {
    forall id <- f.pending ensures PendingOk(Due(all, f), id, f.pending[id]) {
      var ev :| ev in all && RecordOf(id, f.pending[id], ev);
      assert ev in Due(all, f);
    }
  }

  lemma NothingRead(parse: Reader)
    ensures EventsOf(parse, []) == iset{}
  {}

  /** A pass that starts has what its state holds committed to by the head it starts from. */
  lemma BeginOk(w: World, s: Settings, baselines: seq<Checkpoint>, state: State, all: EventSet, h: History)
    returns (base: Checkpoint)
    requires StateOk(w.origin, all, state) && Canonical(s.parse) && (forall ev :: ev in all ==> ReadBy(s.parse, ev))
    requires forall b <- baselines :: Backed(w, b)
    requires Start(w, Some(state.anchor), baselines) == Started(h)
    ensures ReadingOk(w, s.parse, KnownOf(all, state), base, Begin(h, state.feed).p)
    ensures Anchor(w.origin, state).Some? ==> base == Anchor(w.origin, state).value
    ensures StateOk(w.origin, all, State(AnchorOf(h), state.feed)) && Anchor(w.origin, State(AnchorOf(h), state.feed)) == Some(h.latest)
    ensures AnchorFrom(w, h.asked, state.anchor, AnchorOf(h)) && Extends(h.latest, base) && h.asked == Tried(w, Some(state.anchor), baselines)
  {
    StartKeeps(w, Some(state.anchor), baselines);
    ServedIsBacked(w, h.latest.raw.value);
    if Anchor(w.origin, state).Some? {
      base := Anchor(w.origin, state).value;
      FeedOkLater(all, all, base, h.latest, state.feed);
    } else {
      base := h.latest;
      ExtendsItself(h.latest);
    }
    BegunOk(w, s.parse, all, base, h, state);
  }

  lemma BegunOk(w: World, parse: Reader, all: EventSet, base: Checkpoint, h: History, state: State)
    requires HeadOk(w, base, h) && FeedOk(all, all, h.latest, state.feed)
    requires Canonical(parse) && (forall ev :: ev in all ==> ReadBy(parse, ev))
    ensures ReadingOk(w, parse, KnownOf(all, state), base, Begin(h, state.feed).p)
  {
    var k := KnownOf(all, state);
    DueOk(all, h.latest, state.feed);
    NothingRead(parse);
    PoolsAreNested(w.org, parse, k, []);
    var g := PoolsAt(w.org, parse, k, []);
    FeedOkMore(all, k.due, g.all, g.mine, h.latest, state.feed);
  }

  /** What a pass reports rests on: verified, on rows it read or records it was given; passed over, on rows it read. */
  ghost predicate Vouched(w: World, parse: Reader, all: EventSet, state: State, p: Pass) {
    && Committing(Due(all, state.feed) + Own(w.org, EventsOf(parse, p.read)), p.h.latest, p.verified)
    && Committing(EventsOf(parse, p.read), p.h.latest, p.skipped)
    && AllShown(w, p)
  }

  /** The state left has its anchor from this pass or unchanged, ahead of the one before. */
  ghost predicate AnchorMoves(w: World, asked: seq<Request>, before: State, after: State) {
    && AnchorFrom(w, asked, before.anchor, after.anchor)
    && (Anchor(w.origin, before).Some? ==>
          Anchor(w.origin, after).Some? && Extends(Anchor(w.origin, after).value, Anchor(w.origin, before).value))
  }

  lemma StaysPut(w: World, asked: seq<Request>, all: EventSet, parse: Reader, state: State)
    requires StateOk(w.origin, all, state)
    ensures AnchorMoves(w, asked, state, state) && all + EventsOf(parse, []) == all
  {
    NothingRead(parse);
    if Anchor(w.origin, state).Some? { ExtendsItself(Anchor(w.origin, state).value); }
  }

  /** What a pass over a state leaves, whatever the server answered it. */
  ghost predicate Leaves(w: World, parse: Reader, baselines: seq<Checkpoint>, state: State, all: EventSet, r: RunResult) {
    var asked := Requests(w, state.anchor, baselines, r.pass);
    && StateOk(w.origin, all + EventsOf(parse, RowsRead(r.pass)), r.state)
    && AnchorMoves(w, asked, state, r.state)
    && (r.err.Some? ==> EndHolds(w, asked, r.err.value))
    && (r.pass.Some? ==>
          && r.state.anchor == r.pass.value.h.latest.raw && HeadServed(w, asked, r.pass.value.h.latest)
          && Anchor(w.origin, r.state) == Some(r.pass.value.h.latest)
          && Vouched(w, parse, all, state, r.pass.value))
  }

  lemma StartHolds(w: World, saved: Option<Option<Note>>, baselines: seq<Checkpoint>)
    requires forall b <- baselines :: Backed(w, b)
    ensures var start := Start(w, saved, baselines); start.NotStarted? ==> Holds(w, Tried(w, saved, baselines), start.err)
  {
    StartKeeps(w, saved, baselines);
  }

  lemma StoppedLeaves(w: World, s: Settings, baselines: seq<Checkpoint>, state: State, all: EventSet, e: Err)
    requires StateOk(w.origin, all, state) && Holds(w, Tried(w, Some(state.anchor), baselines), e)
    ensures Leaves(w, s.parse, baselines, state, all, RunResult(state, None, false, Some(LogError(e))))
  {
    StaysPut(w, Tried(w, Some(state.anchor), baselines), all, s.parse, state);
  }

  lemma RefusedLeaves(w: World, s: Settings, baselines: seq<Checkpoint>, state: State, all: EventSet, h: History, base: Checkpoint)
    requires StateOk(w.origin, all, State(AnchorOf(h), state.feed)) && Anchor(w.origin, State(AnchorOf(h), state.feed)) == Some(h.latest)
    requires AnchorFrom(w, h.asked, state.anchor, AnchorOf(h)) && Extends(h.latest, base) && h.asked == Tried(w, Some(state.anchor), baselines)
    requires Anchor(w.origin, state).Some? ==> base == Anchor(w.origin, state).value
    ensures Leaves(w, s.parse, baselines, state, all, RunResult(State(AnchorOf(h), state.feed), None, false, Some(NegativeSettings)))
  {
    NothingRead(s.parse);
    assert all + EventsOf(s.parse, []) == all;
  }

  lemma WorkLeaves(w: World, s: Settings, now: Time, baselines: seq<Checkpoint>, state: State, all: EventSet, h: History, base: Checkpoint)
    requires ReadingOk(w, s.parse, KnownOf(all, state), base, Begin(h, state.feed).p)
    requires Anchor(w.origin, state).Some? ==> base == Anchor(w.origin, state).value
    ensures Leaves(w, s.parse, baselines, state, all, Pass1(w, s, now, h, state.feed))
  {
    Pass1Ok(w, s, now, KnownOf(all, state), base, h, state.feed);
  }

  /**
   * Against every server, and however it ends, a pass over a state earlier
   * passes left leaves such a state again, anchored at its own final head.
   * Everything it counts as verified or passes over is committed there, at the
   * index claimed by an event with that id that it read on a page answered to
   * it or, if verified, had pending; and every accusation is warranted.
   */
  lemma RunOnceOk(w: World, s: Settings, now: Time, baselines: seq<Checkpoint>, state: State, all: EventSet)
    requires StateOk(w.origin, all, state) && Canonical(s.parse) && (forall ev :: ev in all ==> ReadBy(s.parse, ev))
    requires forall b <- baselines :: Backed(w, b)
    ensures Leaves(w, s.parse, baselines, state, all, RunOnce(w, s, now, baselines, state))
  {
    StartHolds(w, Some(state.anchor), baselines);
    match Start(w, Some(state.anchor), baselines)
    case NotStarted(e) => StoppedLeaves(w, s, baselines, state, all, e);
    case Started(h) =>
      var base := BeginOk(w, s, baselines, state, all, h);
      if s.overlap >= 0 && s.grace >= 0 {
        WorkLeaves(w, s, now, baselines, state, all, h, base);
      } else {
        RefusedLeaves(w, s, baselines, state, all, h, base);
      }
  }
}
