/**
 * One scheduled pass over the activity feed, on values: what each served
 * event does to the state a pass leaves for the next, and to its report.
 * These functions specify the pass of ScheduledRun.dfy.
 */
module Feed {
  import opened Basics
  import opened Tree
  import opened Server
  import opened History
  import opened Inclusion
  import Leaf

  type Id = Text

  /** Nanoseconds; zero is the zero time, which no clock shows. */
  type Time = int

  const ZERO_TIME: Time := 0

  const MINUTE := 60_000_000_000
  const DEFAULT_OVERLAP := 168 * 60 * MINUTE
  const DEFAULT_GRACE := 24 * 60 * MINUTE
  const MAX_FUTURE_SKEW := 5 * MINUTE

  // ---------------------------------------------------------------------
  // The state file's feed part
  // ---------------------------------------------------------------------

  datatype DoneEvent = DoneEvent(created: Time, recorded: Time, index: Option<nat>, leaf: Hash)

  /** `legacy` is the second hash that may be found, where there is one. */
  datatype PendingEvent = PendingEvent(index: nat, leaf: Hash, legacy: Option<Hash>, created: Time, firstSeen: Time)

  function PendingHashes(e: PendingEvent): seq<Hash> {
    if e.legacy == None then [e.leaf] else [e.leaf, e.legacy.value]
  }

  datatype FeedState = FeedState(highWater: Time, done: map<Id, DoneEvent>, pending: map<Id, PendingEvent>)

  function Done(f: FeedState, id: Id, e: DoneEvent): FeedState {
    f.(done := f.done[id := e], pending := f.pending - {id})
  }

  function Pend(f: FeedState, id: Id, e: PendingEvent): FeedState {
    var kept := if id in f.pending then e.(firstSeen := f.pending[id].firstSeen) else e;
    f.(pending := f.pending[id := kept])
  }

  /** Forgets the records dated before this time. */
  function Prune(f: FeedState, notBefore: Time): FeedState {
    f.(done := map id | id in f.done && f.done[id].recorded >= notBefore :: f.done[id])
  }

  function Refresh(f: FeedState, id: Id, now: Time): FeedState {
    if id in f.done then f.(done := f.done[id := f.done[id].(recorded := now)]) else f
  }

  function Forget(f: FeedState, id: Id): FeedState {
    f.(done := f.done - {id})
  }

  // ---------------------------------------------------------------------
  // One event
  // ---------------------------------------------------------------------

  /** One activity of a page, after the copies of its id have been collapsed. */
  datatype Served = Served(ev: Leaf.Event, created: Time, conflict: Option<EventFailure>)

  /** Some of these rows reads as this event. */
  ghost predicate ReadAmong(parse: Bytes -> Option<Leaf.Event>, rows: seq<Row>, ev: Leaf.Event) {
    exists row <- rows :: parse(row.raw) == Some(ev)
  }

  /** Why an id counts as verified: the hashes one of which its index holds. */
  datatype Vouch = Vouch(id: Id, index: nat, leaves: seq<Hash>)

  /**
   * A pass in progress. `verified` and `skipped` record what the pass counts
   * as verified and what it passes over because it verified earlier, `read`
   * the rows it has taken from the feed.
   */
  datatype Pass = Pass(
    h: History, feed: FeedState,
    verified: seq<Vouch>, skipped: seq<Vouch>,
    notLogged: seq<Id>, pending: seq<Id>, failed: seq<EventFailure>,
    listed: set<Id>, seen: map<Id, Served>, withdrawn: map<Id, EventFailure>, reverifying: set<Id>,
    highWater: Time, read: seq<Row>)

  /** What is fixed through a pass. */
  datatype Clock = Clock(now: Time, grace: int)

  function Without(ids: seq<Id>, id: Id): seq<Id> {
    if ids == [] then []
    else (if ids[0] == id then [] else [ids[0]]) + Without(ids[1..], id)
  }

  /** Withdraws what a superseded copy without an index reported. */
  function Retract(p: Pass, id: Id): Pass {
    p.(notLogged := Without(p.notLogged, id), pending := Without(p.pending, id), withdrawn := p.withdrawn - {id})
  }

  /** Reports a finding, and dates the id's record anew if it has one. */
  function Fail(p: Pass, f: EventFailure, now: Time): Pass {
    p.(failed := p.failed + [f], listed := p.listed + {f.id}, feed := Refresh(p.feed, f.id, now))
  }

  function IndexFailure(id: Id, index: nat, reason: Reason): Option<EventFailure> {
    Some(EventFailure(id, Some(index), reason))
  }

  /** Whether a stored pending entry was recorded from this serving. */
  predicate SameServing(kept: PendingEvent, pe: PendingEvent, ev: Option<Leaf.Event>) {
    kept.index == pe.index && (ev == None || Leaf.RecordedFrom(ev.value, kept.leaf))
  }

  /** The finding an earlier pending record turns an outcome into. */
  function Contested(f: FeedState, id: Id, oc: Outcome, pe: PendingEvent, ev: Option<Leaf.Event>, c: Clock): Option<EventFailure> {
    if id !in f.pending then None
    else
      var kept := f.pending[id];
      match oc
      case Pending =>
        if !SameServing(kept, pe, ev) then IndexFailure(id, kept.index, ServedDifferently)
        else if c.now - kept.firstSeen > c.grace then IndexFailure(id, pe.index, GraceExpired)
        else None
      case Verified =>
        if !SameServing(kept, pe, ev) then IndexFailure(id, kept.index, VerifiesDifferently) else None
      case NotLogged => None
  }

  /** Records an outcome nothing contests. */
  function Recorded(p: Pass, id: Id, oc: Outcome, pe: PendingEvent, c: Clock): Pass {
    match oc
    case Pending => p.(pending := p.pending + [id], feed := Pend(p.feed, id, pe))
    case NotLogged =>
      p.(notLogged := p.notLogged + [id],
         withdrawn := if id in p.feed.pending
                      then p.withdrawn[id := EventFailure(id, Some(p.feed.pending[id].index), WithdrawnIndex)]
                      else p.withdrawn,
         feed := Forget(p.feed, id))
    case Verified =>
      p.(verified := p.verified + [Vouch(id, pe.index, PendingHashes(pe))],
         feed := Done(p.feed, id, DoneEvent(pe.created, c.now, Some(pe.index), pe.leaf)))
  }

  /** Reports an outcome, or the finding it comes to, and updates the state for it. */
  function Settle(p: Pass, id: Id, oc: Outcome, failure: Option<EventFailure>, pe: PendingEvent, ev: Option<Leaf.Event>, c: Clock): Pass {
    var f := if failure == None then Contested(p.feed, id, oc, pe, ev, c) else failure;
    if f.Some? then p.(failed := p.failed + [f.value], feed := Refresh(p.feed, id, c.now))
    else Recorded(p, id, oc, pe, c)
  }

  /** What a record of an earlier success makes of a new serving. */
  datatype Recheck = Finding(failure: EventFailure) | Reverify | Skip

  function RecheckDone(d: DoneEvent, ev: Leaf.Event): Recheck {
    if d.index.Some? && ev.index == None then Finding(EventFailure(ev.id, d.index, WithdrawnIndex))
    else if d.index.Some? && ev.index.Some? && d.index != ev.index then Finding(EventFailure(ev.id, d.index, MovedIndex))
    else if d.leaf !in Leaf.Hashes(ev) then Reverify
    else Skip
  }

  /** What an earlier copy in the same pass makes of this one. */
  datatype Repeat = First | Supersedes | Repeated | Contradicts(failure: EventFailure)

  function RepeatOf(seen: map<Id, Served>, ev: Leaf.Event): Repeat {
    if ev.id !in seen then First
    else
      var prev := seen[ev.id].ev;
      if prev.index.Some? && ev.index.Some? && prev.index != ev.index then
        Contradicts(EventFailure(ev.id, prev.index, TwoIndices))
      else if prev.index.Some? && ev.index.Some? && Leaf.Hash(prev) != Leaf.Hash(ev) then
        Contradicts(EventFailure(ev.id, prev.index, TwoContents))
      else if prev.index.Some? || ev.index == None then Repeated
      else Supersedes
  }

  function PendingOf(ev: Leaf.Event, created: Time, now: Time): PendingEvent {
    var hashes := Leaf.Hashes(ev);
    PendingEvent(if ev.index.Some? then ev.index.value else 0, hashes[0],
                 if |hashes| > 1 then Some(hashes[1]) else None, created, now)
  }

  /** A served timestamp may not carry the mark past this clock. */
  function Raised(mark: Time, created: Time, now: Time): Time {
    if created > mark && created <= now + MAX_FUTURE_SKEW then created else mark
  }

  /** The finding for a record that verified and is now served differently without a proof. */
  function Downgraded(p: Pass, ev: Leaf.Event, v: (Outcome, Option<EventFailure>)): Option<EventFailure> {
    if ev.id in p.reverifying && v == (Pending, None) then Some(EventFailure(ev.id, ev.index, ReservedWithoutProof))
    else v.1
  }

  datatype PassStep = PassStep(p: Pass, err: Option<Err>)

  /** Examines an event's inclusion and settles it. */
  function Examine(w: World, p: Pass, se: Served, c: Clock): PassStep {
    var (h', v) := CheckEvent(w, p.h, se.ev);
    var p1 := p.(h := h');
    match v
    case Err(e) => PassStep(p1, Some(e))
    case Ok(oc) =>
      PassStep(Settle(p1, se.ev.id, oc.0, Downgraded(p1, se.ev, oc), PendingOf(se.ev, se.created, c.now), Some(se.ev), c), None)
  }

  /** Passes over an event that verified earlier, keeping its record alive. */
  function Skipped(p: Pass, ev: Leaf.Event, now: Time): Pass
    requires ev.id in p.feed.done
  {
    var d := p.feed.done[ev.id];
    p.(feed := Refresh(p.feed, ev.id, now),
       skipped := if d.index.Some? then p.skipped + [Vouch(ev.id, d.index.value, Leaf.Hashes(ev))] else p.skipped)
  }

  /** A new serving of an event that verified earlier. */
  function AdmitDone(w: World, p: Pass, se: Served, c: Clock): PassStep
    requires se.ev.id in p.feed.done
  {
    match RecheckDone(p.feed.done[se.ev.id], se.ev)
    case Finding(f) =>
      PassStep(if se.ev.index == None then p.(withdrawn := p.withdrawn[se.ev.id := f]) else Fail(p, f, c.now), None)
    case Skip => PassStep(Skipped(p, se.ev, c.now), None)
    case Reverify => Examine(w, Listed(p.(reverifying := p.reverifying + {se.ev.id}), se.ev.id), se, c)
  }

  function Listed(p: Pass, id: Id): Pass {
    p.(listed := p.listed + {id})
  }

  /** A copy to be settled: the id's first, or its first with an index. */
  function Admit(w: World, p: Pass, se: Served, c: Clock): PassStep {
    var p1 := p.(seen := p.seen[se.ev.id := se]);
    if se.ev.id in p1.feed.done then AdmitDone(w, p1, se, c) else Examine(w, Listed(p1, se.ev.id), se, c)
  }

  function Process(w: World, p: Pass, se: Served, c: Clock): PassStep {
    var p1 := p.(highWater := Raised(p.highWater, se.created, c.now));
    if se.conflict.Some? then PassStep(Fail(p1, se.conflict.value, c.now), None)
    else
      match RepeatOf(p1.seen, se.ev)
      case Contradicts(f) => PassStep(Fail(p1, f, c.now), None)
      case Repeated => PassStep(p1, None)
      case Supersedes => Admit(w, Retract(p1, se.ev.id), se, c)
      case First => Admit(w, p1, se, c)
  }

  /** Processes events in order, up to the first error. */
  function ProcessAll(w: World, p: Pass, ses: seq<Served>, c: Clock): PassStep
    decreases |ses|
  {
    if ses == [] then PassStep(p, None)
    else
      var st := Process(w, p, ses[0], c);
      if st.err.Some? then st else ProcessAll(w, st.p, ses[1..], c)
  }

  function FailAll(p: Pass, fs: seq<EventFailure>, now: Time): Pass
    decreases |fs|
  {
    if fs == [] then p else FailAll(Fail(p, fs[0], now), fs[1..], now)
  }

  // ---------------------------------------------------------------------
  // Pending events the feed did not list again
  // ---------------------------------------------------------------------

  function Recheck1(w: World, p: Pass, id: Id, c: Clock): PassStep {
    if id in p.listed || id !in p.feed.pending then PassStep(p, None)
    else
      var pe := p.feed.pending[id];
      if pe.index < p.h.latest.size then
        var (h', v) := CheckInclusion(w, p.h, id, pe.index, PendingHashes(pe));
        var p1 := p.(h := h');
        match v
        case Err(e) => PassStep(p1, Some(e))
        case Ok(oc) => PassStep(Settle(p1, id, oc.0, oc.1, pe, None, c), None)
      else PassStep(Settle(p, id, Pending, None, pe, None, c), None)
  }

  function RecheckAll(w: World, p: Pass, ids: seq<Id>, c: Clock): PassStep
    decreases |ids|
  {
    if ids == [] then PassStep(p, None)
    else
      var st := Recheck1(w, p, ids[0], c);
      if st.err.Some? then st else RecheckAll(w, st.p, ids[1..], c)
  }

  // ---------------------------------------------------------------------
  // Withdrawals, once the pass has read what it will read
  // ---------------------------------------------------------------------

  function RetractAll(p: Pass, ids: seq<Id>): Pass
    decreases |ids|
  {
    if ids == [] then p else RetractAll(Retract(p, ids[0]), ids[1..])
  }

  function FailWithdrawn(p: Pass, ids: seq<Id>, now: Time): Pass
    decreases |ids|
  {
    if ids == [] then p
    else
      var id := ids[0];
      var p1 :=
        if id !in p.withdrawn || (id in p.seen && p.seen[id].ev.index.Some?) then p
        else Fail(Retract(p, id), p.withdrawn[id], now);
      FailWithdrawn(p1, ids[1..], now)
  }
}
