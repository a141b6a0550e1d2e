/**
 * Any number of passes over one state file, in sequence or at the same time:
 * the anchors written only ever move forward along one history, and no pass
 * relies on an event the log does not hold.
 */
module Runs {
  import opened Basics
  import opened Tree
  import opened Checkpoint
  import opened Server
  import opened History
  import opened Feed
  import opened FeedPass
  import opened FeedSound
  import opened Inclusion
  import Checks = Events
  import FeedKeeps
  import Leaf
  import LeafReader

  // ---------------------------------------------------------------------
  // The leaf reader, as the feed sees it
  // ---------------------------------------------------------------------

  lemma ReadHashes(a: Bytes, b: Bytes)
    requires LeafReader.Parse(a).Some? && LeafReader.Parse(b).Some?
    requires Leaf.Hash(LeafReader.Parse(a).value) in Leaf.Hashes(LeafReader.Parse(b).value)
    ensures Leaf.Hashes(LeafReader.Parse(a).value) == Leaf.Hashes(LeafReader.Parse(b).value)
  {
    var r := LeafReader.ParsedIsProjected(a);
    var s := LeafReader.ParsedIsProjected(b);
    Leaf.FirstHashIdentifies(r, LeafReader.Parse(a).value.index, s, LeafReader.Parse(b).value.index);
  }

  /** Two served events share a first leaf hash only if the log cannot tell them apart. */
  lemma ParseIsCanonical()
    ensures Canonical(LeafReader.Parse)
  {
    forall a: Bytes, b: Bytes |
      LeafReader.Parse(a).Some? && LeafReader.Parse(b).Some?
      && Leaf.Hash(LeafReader.Parse(a).value) in Leaf.Hashes(LeafReader.Parse(b).value)
      ensures Leaf.Hashes(LeafReader.Parse(a).value) == Leaf.Hashes(LeafReader.Parse(b).value)
    {
      ReadHashes(a, b);
    }
  }

  // ---------------------------------------------------------------------
  // What was served
  // ---------------------------------------------------------------------

  /** What one invocation asked of which server. */
  datatype Exchange = Exchange(w: World, asked: seq<Request>)

  /** A page answered in this exchange lists a row that reads as the event. */
  ghost predicate ServedIn(x: Exchange, ev: Leaf.Event) {
    exists row :: Shown(x.w, x.asked, row) && LeafReader.Parse(row.raw) == Some(ev)
  }

  ghost predicate WasServed(exchanges: seq<Exchange>, ev: Leaf.Event) {
    exists x <- exchanges :: ServedIn(x, ev)
  }

  ghost function EverServed(exchanges: seq<Exchange>): EventSet {
    iset ev | WasServed(exchanges, ev)
  }

  lemma ServedIsRead(exchanges: seq<Exchange>)
    ensures forall ev <- EverServed(exchanges) :: ReadBy(LeafReader.Parse, ev)
  {
    forall ev | ev in EverServed(exchanges) ensures ReadBy(LeafReader.Parse, ev) {
      var x :| x in exchanges && ServedIn(x, ev);
      var row :| Shown(x.w, x.asked, row) && LeafReader.Parse(row.raw) == Some(ev);
    }
  }

  lemma ServedMore(exchanges: seq<Exchange>, x: Exchange)
    ensures EverServed(exchanges) + EverServed([x]) == EverServed(exchanges + [x])
  {
    forall ev | ev in EverServed(exchanges + [x]) ensures ev in EverServed(exchanges) + EverServed([x]) {
      var y :| y in exchanges + [x] && ServedIn(y, ev);
      assert y in exchanges || y in [x];
    }
    forall ev | ev in EverServed(exchanges) + EverServed([x]) ensures ev in EverServed(exchanges + [x]) {
      var y :| (y in exchanges || y in [x]) && ServedIn(y, ev);
      assert y in exchanges + [x];
    }
  }

  lemma ReadRowsWereServed(x: Exchange, rows: seq<Row>)
    requires forall row <- rows :: Shown(x.w, x.asked, row)
    ensures EventsOf(LeafReader.Parse, rows) <= EverServed([x])
  {
    forall ev | ev in EventsOf(LeafReader.Parse, rows) ensures ev in EverServed([x]) {
      var row :| row in rows && LeafReader.Parse(row.raw) == Some(ev);
      assert ServedIn(x, ev) && x in [x];
    }
  }

  /** A row was served that reads as this record with this index. */
  ghost predicate RowServed(x: Exchange, row: Row, r: Leaf.Record, index: nat) {
    Shown(x.w, x.asked, row) && LeafReader.Parse(row.raw) == Some(Leaf.EventOf(r, Some(index)))
  }

  lemma ServedAsRecord(x: Exchange, ev: Leaf.Event, index: nat) returns (row: Row, r: Leaf.Record)
    requires ServedIn(x, ev) && ev.index == Some(index)
    ensures RowServed(x, row, r, index) && ev == Leaf.EventOf(r, Some(index))
  {
    row :| Shown(x.w, x.asked, row) && LeafReader.Parse(row.raw) == Some(ev);
    r := LeafReader.ParsedIsProjected(row.raw);
  }

  /** A row was served with this id and index that agrees with the entry in every committed value. */
  ghost predicate ServedAs(exchanges: seq<Exchange>, id: Id, index: nat, version: Byte, committed: Leaf.Record) {
    exists x <- exchanges, row, served :: RowServed(x, row, served, index)
      && Leaf.Deref(served.id) == id
      && Leaf.Eleven(served) == Leaf.Eleven(committed)
      && served.userProfileId == (if version == Leaf.V1 then None else committed.userProfileId)
  }

  /**
   * What vouching for an id comes to: if the leaf at its index is an entry,
   * then it is the entry of an event with that id, and a row was served with
   * that id and that index that agrees with it in every committed value.
   */
  lemma VouchIdentifies(exchanges: seq<Exchange>, head: Checkpoint, v: Vouch, version: Byte, committed: Leaf.Record)
    requires VouchOk(EverServed(exchanges), head, v)
    requires version == Leaf.V1 || version == Leaf.V2
    requires Committed(head, v.index) == Some(Leaf(Leaf.Entry(version, committed)))
    ensures Leaf.Deref(committed.id) == v.id && ServedAs(exchanges, v.id, v.index, version, committed)
  {
    var ev :| ev in EverServed(exchanges) && Claims(ev, v.id, v.index) && v.leaves == Leaf.Hashes(ev);
    var x :| x in exchanges && ServedIn(x, ev);
    var row, served := ServedAsRecord(x, ev, v.index);
    Leaf.LeafIdentified(served, ev.index, version, committed);
    assert committed.id == Leaf.Eleven(committed).id && served.id == Leaf.Eleven(served).id;
    assert RowServed(x, row, served, v.index);
  }

  // ---------------------------------------------------------------------
  // One invocation
  // ---------------------------------------------------------------------

  datatype Job =
    | Scheduled(w: World, s: Settings, now: Time, baselines: seq<Checkpoint>)
    | CheckpointOnly(w: World, baselines: seq<Checkpoint>)
    | FileCheck(w: World, baselines: seq<Checkpoint>, waits: Waits, rows: seq<Row>, probe: Checks.Prober)

  /** Trusts this log, reads events as the leaf reader does, and brings baselines that say what their notes say. */
  ghost predicate Proper(origin: Bytes, job: Job) {
    && job.w.origin == origin
    && (forall b <- job.baselines :: Backed(job.w, b))
    && (job.Scheduled? ==> job.s.parse == LeafReader.Parse)
    && (job.FileCheck? ==> job.waits.Valid())
  }

  /** A check of supplied events over a state, on which it leaves nothing but an anchor. */
  function Checked(job: Job, state: State): Result<Checks.Checked, Err>
    requires job.FileCheck? && job.waits.Valid()
  {
    Checks.CheckEvents(job.w, Some(state.anchor), job.baselines, job.waits, job.rows, job.probe)
  }

  /** The state an invocation is left with, whatever it reports. */
  ghost function After(job: Job, state: State): State {
    match job
    case Scheduled(w, s, now, baselines) => RunOnce(w, s, now, baselines, state).state
    case CheckpointOnly(w, baselines) =>
      (match Start(w, Some(state.anchor), baselines)
       case NotStarted(_) => state
       case Started(h) => State(AnchorOf(h), state.feed))
    case FileCheck(_, _, waits, _, _) =>
      if waits.Valid() && Checked(job, state).Ok? then State(AnchorOf(Checked(job, state).value.h), state.feed) else state
  }

  /** The requests an invocation made of its server. */
  ghost function Made(job: Job, state: State): seq<Request> {
    match job
    case Scheduled(w, s, now, baselines) =>
      Requests(w, state.anchor, baselines, RunOnce(w, s, now, baselines, state).pass)
    case CheckpointOnly(w, baselines) => Requests(w, state.anchor, baselines, None)
    case FileCheck(w, baselines, waits, _, _) =>
      if waits.Valid() && Checked(job, state).Ok? then Checked(job, state).value.h.asked
      else Tried(w, Some(state.anchor), baselines)
  }

  /** The later state's anchor extends the earlier one's. */
  ghost predicate Follows(origin: Bytes, before: State, after: State) {
    Anchor(origin, before).Some? ==>
      Anchor(origin, after).Some? && Extends(Anchor(origin, after).value, Anchor(origin, before).value)
  }

  lemma FollowsTransitive(origin: Bytes, a: State, b: State, c: State)
    requires Follows(origin, a, b) && Follows(origin, b, c)
    ensures Follows(origin, a, c)
  {
    if Anchor(origin, a).Some? {
      ExtendsTransitive(Anchor(origin, a).value, Anchor(origin, b).value, Anchor(origin, c).value);
    }
  }

  lemma FollowsItself(origin: Bytes, a: State)
    ensures Follows(origin, a, a)
  {
    if Anchor(origin, a).Some? {
      ExtendsItself(Anchor(origin, a).value);
    }
  }

  /** The state held is of events served, and the anchor moved by answers of this exchange. */
  ghost predicate AfterIs(origin: Bytes, all: EventSet, job: Job, state: State, after: State, x: Exchange) {
    && StateOk(origin, all + EverServed([x]), after) && Follows(origin, state, after)
    && AnchorFrom(x.w, x.asked, state.anchor, after.anchor)
  }

  lemma StateOkMore(origin: Bytes, all: EventSet, more: EventSet, state: State)
    requires StateOk(origin, all, state) && all <= more
    ensures StateOk(origin, more, state)
  {
    if Anchor(origin, state).Some? {
      FeedOkMore(all, all, more, more, Anchor(origin, state).value, state.feed);
    }
  }

  lemma ScheduledOk(origin: Bytes, all: EventSet, job: Job, state: State)
    requires Proper(origin, job) && job.Scheduled? && StateOk(origin, all, state)
    requires forall ev :: ev in all ==> ReadBy(LeafReader.Parse, ev)
    ensures AfterIs(origin, all, job, state, After(job, state), Exchange(job.w, Made(job, state)))
    ensures Leaves(job.w, LeafReader.Parse, job.baselines, state, all, RunOnce(job.w, job.s, job.now, job.baselines, state))
  {
    ParseIsCanonical();
    RunOnceOk(job.w, job.s, job.now, job.baselines, state, all);
    var r, x := RunOnce(job.w, job.s, job.now, job.baselines, state), Exchange(job.w, Made(job, state));
    ReadRowsWereServed(x, RowsRead(r.pass));
    StateOkMore(origin, all + EventsOf(LeafReader.Parse, RowsRead(r.pass)), all + EverServed([x]), r.state);
  }

  /** A started session's head becomes the anchor. */
  lemma HeadIsTaken(w: World, all: EventSet, state: State, h: History)
    requires StateOk(w.origin, all, state) && Consistent(w, h, {}) && AnchorOf(h) == h.latest.raw
    requires SavedCheckpoint(w, Some(state.anchor)).Some? ==>
               SavedCheckpoint(w, Some(state.anchor)).value.Ok? && Extends(h.latest, SavedCheckpoint(w, Some(state.anchor)).value.value)
    ensures var after := State(AnchorOf(h), state.feed);
            && StateOk(w.origin, all, after) && Follows(w.origin, state, after)
            && AnchorFrom(w, h.asked, state.anchor, after.anchor)
  {
    ServedIsBacked(w, h.latest.raw.value);
    if Anchor(w.origin, state).Some? {
      FeedOkLater(all, all, Anchor(w.origin, state).value, h.latest, state.feed);
    }
  }

  lemma CheckpointOnlyOk(origin: Bytes, all: EventSet, job: Job, state: State)
    requires Proper(origin, job) && job.CheckpointOnly? && StateOk(origin, all, state)
    ensures var after := After(job, state);
            && StateOk(origin, all, after) && Follows(origin, state, after)
            && AnchorFrom(job.w, Made(job, state), state.anchor, after.anchor)
  {
    StartKeeps(job.w, Some(state.anchor), job.baselines);
    FollowsItself(origin, state);
    var start := Start(job.w, Some(state.anchor), job.baselines);
    if start.Started? {
      HeadIsTaken(job.w, all, state, start.h);
    }
  }

  lemma FileCheckOk(origin: Bytes, all: EventSet, job: Job, state: State)
    requires Proper(origin, job) && job.FileCheck? && StateOk(origin, all, state)
    ensures var after := After(job, state);
            && StateOk(origin, all, after) && Follows(origin, state, after)
            && AnchorFrom(job.w, Made(job, state), state.anchor, after.anchor)
  {
    Checks.CheckEventsIsSound(job.w, Some(state.anchor), job.baselines, job.waits, job.rows, job.probe);
    FollowsItself(origin, state);
    if Checked(job, state).Ok? {
      HeadIsTaken(job.w, all, state, Checked(job, state).value.h);
    }
  }

  lemma AfterOk(origin: Bytes, all: EventSet, job: Job, state: State)
    requires Proper(origin, job) && StateOk(origin, all, state)
    requires forall ev :: ev in all ==> ReadBy(LeafReader.Parse, ev)
    ensures AfterIs(origin, all, job, state, After(job, state), Exchange(job.w, Made(job, state)))
  {
    match job
    case Scheduled(_, _, _, _) => ScheduledOk(origin, all, job, state);
    case CheckpointOnly(_, _) =>
      CheckpointOnlyOk(origin, all, job, state);
      StateOkMore(origin, all, all + EverServed([Exchange(job.w, Made(job, state))]), After(job, state));
    case FileCheck(_, _, _, _, _) =>
      FileCheckOk(origin, all, job, state);
      StateOkMore(origin, all, all + EverServed([Exchange(job.w, Made(job, state))]), After(job, state));
  }

  // ---------------------------------------------------------------------
  // Invocations sharing a state file
  // ---------------------------------------------------------------------

  const EMPTY_STATE := State(None, FeedState(ZERO_TIME, map[], map[]))

  /** An invocation's state in memory, and the file content it was read from. */
  datatype Hand = Hand(loaded: Option<State>, state: State)

  /** The file, the invocations under way, everything ever written, and everything ever asked. */
  datatype Shared = Shared(file: Option<State>, hands: map<nat, Hand>, written: seq<State>, exchanges: seq<Exchange>)

  datatype Action = Load(k: nat) | Perform(k: nat, job: Job) | Save(k: nat)

  /** Without a file there is nothing to load but an empty state. */
  function Loaded(sh: Shared, k: nat): Shared {
    sh.(hands := sh.hands[k := Hand(sh.file, if sh.file.Some? then sh.file.value else EMPTY_STATE)])
  }

  /** Writes only over the content the invocation loaded or last wrote. */
  function Saved(sh: Shared, k: nat): Shared {
    if k !in sh.hands || sh.file != sh.hands[k].loaded then sh
    else
      var st := sh.hands[k].state;
      sh.(file := Some(st), hands := sh.hands[k := Hand(Some(st), st)], written := sh.written + [st])
  }

  ghost function Performed(sh: Shared, k: nat, job: Job): Shared
    requires k in sh.hands
  {
    var state := sh.hands[k].state;
    sh.(hands := sh.hands[k := sh.hands[k].(state := After(job, state))],
        exchanges := sh.exchanges + [Exchange(job.w, Made(job, state))])
  }

  ghost function Act(sh: Shared, a: Action): Shared {
    match a
    case Load(k) => Loaded(sh, k)
    case Perform(k, job) =>
      if k !in sh.hands then sh
      else Performed(sh, k, job)
    case Save(k) => Saved(sh, k)
  }

  ghost function ActAll(sh: Shared, actions: seq<Action>): Shared
    decreases |actions|
  {
    if actions == [] then sh else ActAll(Act(sh, actions[0]), actions[1..])
  }

  const NO_FILE := Shared(None, map[], [], [])

  ghost predicate HandOk(origin: Bytes, all: EventSet, h: Hand) {
    StateOk(origin, all, h.state) && (h.loaded.Some? ==> Follows(origin, h.loaded.value, h.state))
  }

  /** Every state ever written extends all those written before it. */
  ghost predicate Chain(origin: Bytes, written: seq<State>) {
    forall i, j :: 0 <= i < j < |written| ==> Follows(origin, written[i], written[j])
  }

  /** Everything held and written is of events that were served. */
  ghost predicate SharedOk(origin: Bytes, sh: Shared) {
    && sh.file == (if sh.written == [] then None else Some(sh.written[|sh.written| - 1]))
    && (forall st <- sh.written :: StateOk(origin, EverServed(sh.exchanges), st))
    && Chain(origin, sh.written)
    && (forall k <- sh.hands :: HandOk(origin, EverServed(sh.exchanges), sh.hands[k]))
  }

  /** The state's anchor, if it has one, is a note some server answered one of these exchanges with. */
  ghost predicate Sourced(exchanges: seq<Exchange>, state: State) {
    state.anchor.Some? ==> exists x <- exchanges :: Answered(x.w, x.asked, state.anchor.value)
  }

  /** Every anchor in the file, in memory, or ever written came from a server. */
  ghost predicate AllSourced(sh: Shared) {
    && (forall st <- sh.written :: Sourced(sh.exchanges, st))
    && (forall k <- sh.hands :: Sourced(sh.exchanges, sh.hands[k].state))
    && (sh.file.Some? ==> Sourced(sh.exchanges, sh.file.value))
  }

  lemma SourcedLater(exchanges: seq<Exchange>, x: Exchange, state: State)
    requires Sourced(exchanges, state)
    ensures Sourced(exchanges + [x], state)
  {
    if state.anchor.Some? {
      var y :| y in exchanges && Answered(y.w, y.asked, state.anchor.value);
      assert y in exchanges + [x];
    }
  }

  lemma PerformedSourced(origin: Bytes, sh: Shared, k: nat, job: Job)
    requires AllSourced(sh) && SharedOk(origin, sh) && k in sh.hands && Proper(origin, job)
    ensures AllSourced(Performed(sh, k, job))
  {
    var sh' := Performed(sh, k, job);
    var x := Exchange(job.w, Made(job, sh.hands[k].state));
    assert HandOk(origin, EverServed(sh.exchanges), sh.hands[k]);
    ServedIsRead(sh.exchanges);
    AfterOk(origin, EverServed(sh.exchanges), job, sh.hands[k].state);
    forall st: State | Sourced(sh.exchanges, st) ensures Sourced(sh'.exchanges, st) {
      SourcedLater(sh.exchanges, x, st);
    }
    assert x in sh'.exchanges;
    assert Sourced(sh'.exchanges, After(job, sh.hands[k].state));
  }

  lemma ActSourced(origin: Bytes, sh: Shared, a: Action)
    requires AllSourced(sh) && SharedOk(origin, sh) && (a.Perform? ==> Proper(origin, a.job))
    ensures AllSourced(Act(sh, a))
  {
    if a.Perform? && a.k in sh.hands {
      PerformedSourced(origin, sh, a.k, a.job);
    }
  }

  lemma ChainGrows(origin: Bytes, written: seq<State>, st: State)
    requires Chain(origin, written) && (written != [] ==> Follows(origin, written[|written| - 1], st))
    ensures Chain(origin, written + [st])
  {
    forall i | 0 <= i < |written| ensures Follows(origin, written[i], st) {
      if i < |written| - 1 {
        FollowsTransitive(origin, written[i], written[|written| - 1], st);
      }
    }
  }

  lemma SavedOk(origin: Bytes, sh: Shared, k: nat)
    requires SharedOk(origin, sh)
    ensures SharedOk(origin, Saved(sh, k))
  {
    if k in sh.hands && sh.file == sh.hands[k].loaded {
      ChainGrows(origin, sh.written, sh.hands[k].state);
      FollowsItself(origin, sh.hands[k].state);
    }
  }

  lemma LoadedOk(origin: Bytes, sh: Shared, k: nat)
    requires SharedOk(origin, sh)
    ensures SharedOk(origin, Loaded(sh, k))
  {
    if sh.file.Some? {
      FollowsItself(origin, sh.file.value);
      assert sh.file.value in sh.written;
    }
  }

  lemma HandMoves(origin: Bytes, exchanges: seq<Exchange>, h: Hand, job: Job, x: Exchange)
    requires HandOk(origin, EverServed(exchanges), h) && Proper(origin, job) && x == Exchange(job.w, Made(job, h.state))
    ensures HandOk(origin, EverServed(exchanges + [x]), h.(state := After(job, h.state)))
  {
    ServedIsRead(exchanges);
    AfterOk(origin, EverServed(exchanges), job, h.state);
    ServedMore(exchanges, x);
    if h.loaded.Some? {
      FollowsTransitive(origin, h.loaded.value, h.state, After(job, h.state));
    }
  }

  lemma PerformedOk(origin: Bytes, sh: Shared, k: nat, job: Job)
    requires SharedOk(origin, sh) && k in sh.hands && Proper(origin, job)
    ensures SharedOk(origin, Performed(sh, k, job))
  {
    var sh', x := Performed(sh, k, job), Exchange(job.w, Made(job, sh.hands[k].state));
    ServedMore(sh.exchanges, x);
    assert HandOk(origin, EverServed(sh.exchanges), sh.hands[k]);
    HandMoves(origin, sh.exchanges, sh.hands[k], job, x);
    forall st <- sh.written ensures StateOk(origin, EverServed(sh'.exchanges), st) {
      StateOkMore(origin, EverServed(sh.exchanges), EverServed(sh'.exchanges), st);
    }
    forall j <- sh'.hands ensures HandOk(origin, EverServed(sh'.exchanges), sh'.hands[j]) {
      if j != k {
        StateOkMore(origin, EverServed(sh.exchanges), EverServed(sh'.exchanges), sh.hands[j].state);
      }
    }
  }

  lemma ActOk(origin: Bytes, sh: Shared, a: Action)
    requires SharedOk(origin, sh) && (a.Perform? ==> Proper(origin, a.job))
    ensures SharedOk(origin, Act(sh, a))
  {
    match a
    case Load(k) => LoadedOk(origin, sh, k);
    case Perform(k, job) => if k in sh.hands { PerformedOk(origin, sh, k, job); }
    case Save(k) => SavedOk(origin, sh, k);
  }

  lemma {:induction false} ActAllOk(origin: Bytes, sh: Shared, actions: seq<Action>)
    requires SharedOk(origin, sh) && AllSourced(sh) && forall a <- actions :: a.Perform? ==> Proper(origin, a.job)
    ensures SharedOk(origin, ActAll(sh, actions)) && AllSourced(ActAll(sh, actions))
    decreases |actions|
  {
    if actions != [] {
      ActOk(origin, sh, actions[0]);
      ActSourced(origin, sh, actions[0]);
      ActAllOk(origin, Act(sh, actions[0]), actions[1..]);
    }
  }

  /**
   * Starting without a file, after any interleaving of loads, passes and saves
   * against any servers, the checkpoints ever written form a chain in which
   * each extends all earlier ones, and each is a note a server answered a
   * request of some pass with: no baseline, and no saved record, becomes an
   * anchor on its own word.
   */
  lemma WrittenAnchorsOnlyExtend(origin: Bytes, actions: seq<Action>)
    requires forall a <- actions :: a.Perform? ==> Proper(origin, a.job)
    ensures var sh := ActAll(NO_FILE, actions);
            && Chain(origin, sh.written) && (forall st <- sh.written :: Sourced(sh.exchanges, st))
            && (sh.file.Some? ==> sh.written != [] && sh.file.value == sh.written[|sh.written| - 1])
  {
    ActAllOk(origin, NO_FILE, actions);
  }

  /** The state an invocation under way holds is of events that were served. */
  lemma HeldIsOk(origin: Bytes, actions: seq<Action>, k: nat)
    requires forall a <- actions :: a.Perform? ==> Proper(origin, a.job)
    requires k in ActAll(NO_FILE, actions).hands
    ensures var sh := ActAll(NO_FILE, actions);
            StateOk(origin, EverServed(sh.exchanges), sh.hands[k].state)
  {
    ActAllOk(origin, NO_FILE, actions);
    var sh := ActAll(NO_FILE, actions);
    assert HandOk(origin, EverServed(sh.exchanges), sh.hands[k]);
  }

  /** What a pass reports rests on what it was served, and, if verified, on pending records of events served before. */
  ghost predicate RestsOn(org: Text, before: seq<Exchange>, x: Exchange, state: State, p: Pass) {
    && Committing(Due(EverServed(before), state.feed) + Own(org, EverServed([x])), p.h.latest, p.verified)
    && Committing(EverServed([x]), p.h.latest, p.skipped)
  }

  lemma VouchedRests(w: World, before: seq<Exchange>, x: Exchange, state: State, p: Pass)
    requires x == Exchange(w, p.h.asked) && Vouched(w, LeafReader.Parse, EverServed(before), state, p)
    ensures RestsOn(w.org, before, x, state, p)
  {
    var due, read := Due(EverServed(before), state.feed), EventsOf(LeafReader.Parse, p.read);
    ReadRowsWereServed(x, p.read);
    CommittingMore(due + Own(w.org, read), due + Own(w.org, EverServed([x])), p.h.latest, p.verified);
    CommittingMore(read, EverServed([x]), p.h.latest, p.skipped);
  }

  /**
   * In any such history, whatever a pass counts as verified, or passes over
   * because it verified on an earlier run, is committed under the head the
   * pass ends on, at the index claimed by an event with that id: one this very
   * pass was served, or, if verified, one served to an earlier pass that left
   * it pending at that index.
   */
  lemma EveryPassIsSound(origin: Bytes, actions: seq<Action>, k: nat, job: Job)
    requires forall a <- actions :: a.Perform? ==> Proper(origin, a.job)
    requires k in ActAll(NO_FILE, actions).hands && Proper(origin, job) && job.Scheduled?
    ensures var sh := ActAll(NO_FILE, actions);
            var state := sh.hands[k].state;
            var r := RunOnce(job.w, job.s, job.now, job.baselines, state);
            && (r.err.Some? ==> EndHolds(job.w, Made(job, state), r.err.value))
            && (r.pass.Some? ==>
                  && Anchor(origin, r.state) == Some(r.pass.value.h.latest)
                  && RestsOn(job.w.org, sh.exchanges, Exchange(job.w, Made(job, state)), state, r.pass.value))
  {
    var sh := ActAll(NO_FILE, actions);
    var state := sh.hands[k].state;
    HeldIsOk(origin, actions, k);
    ServedIsRead(sh.exchanges);
    ScheduledOk(origin, EverServed(sh.exchanges), job, state);
    var r := RunOnce(job.w, job.s, job.now, job.baselines, state);
    if r.pass.Some? {
      VouchedRests(job.w, sh.exchanges, Exchange(job.w, Made(job, state)), state, r.pass.value);
    }
  }

  /**
   * So if the leaf at a reported index is an entry at all, it is the entry of
   * the id reported, and some pass was served a row with that id and that
   * index and with the very values the entry commits to.
   */
  lemma ReportedIsServed(origin: Bytes, actions: seq<Action>, k: nat, job: Job, v: Vouch, version: Byte, committed: Leaf.Record)
    requires forall a <- actions :: a.Perform? ==> Proper(origin, a.job)
    requires k in ActAll(NO_FILE, actions).hands && Proper(origin, job) && job.Scheduled?
    requires version == Leaf.V1 || version == Leaf.V2
    ensures var sh := ActAll(NO_FILE, actions);
            var state := sh.hands[k].state;
            var r := RunOnce(job.w, job.s, job.now, job.baselines, state);
            r.pass.Some? && v in r.pass.value.verified + r.pass.value.skipped
            && Committed(r.pass.value.h.latest, v.index) == Some(Leaf(Leaf.Entry(version, committed)))
            ==> && Leaf.Deref(committed.id) == v.id
                && ServedAs(sh.exchanges + [Exchange(job.w, Made(job, state))], v.id, v.index, version, committed)
  {
    var sh := ActAll(NO_FILE, actions);
    var state := sh.hands[k].state;
    var r, x := RunOnce(job.w, job.s, job.now, job.baselines, state), Exchange(job.w, Made(job, state));
    EveryPassIsSound(origin, actions, k, job);
    if r.pass.Some? && v in r.pass.value.verified + r.pass.value.skipped
       && Committed(r.pass.value.h.latest, v.index) == Some(Leaf(Leaf.Entry(version, committed))) {
      RestingIsServed(job.w.org, sh.exchanges, x, state, r.pass.value, v);
      VouchIdentifies(sh.exchanges + [x], r.pass.value.h.latest, v, version, committed);
    }
  }

  lemma RestingIsServed(org: Text, before: seq<Exchange>, x: Exchange, state: State, p: Pass, v: Vouch)
    requires RestsOn(org, before, x, state, p) && v in p.verified + p.skipped
    ensures VouchOk(EverServed(before + [x]), p.h.latest, v)
  {
    var due := Due(EverServed(before), state.feed) + Own(org, EverServed([x]));
    ServedMore(before, x);
    if v in p.verified {
      VouchMore(due, EverServed(before + [x]), p.h.latest, p.verified, v);
    } else {
      VouchMore(EverServed([x]), EverServed(before + [x]), p.h.latest, p.skipped, v);
    }
  }

  lemma VouchMore(evs: EventSet, more: EventSet, head: Checkpoint, vs: seq<Vouch>, v: Vouch)
    requires Committing(evs, head, vs) && evs <= more && v in vs
    ensures VouchOk(more, head, v)
  {
    CommittingMore(evs, more, head, vs);
  }

  /** No state any invocation ever holds has an id both done and pending, or a record without an index. */
  lemma EveryStateIsTidy(origin: Bytes, actions: seq<Action>, k: nat)
    requires forall a <- actions :: a.Perform? ==> Proper(origin, a.job)
    requires k in ActAll(NO_FILE, actions).hands
    ensures FeedKeeps.Tidy(ActAll(NO_FILE, actions).hands[k].state.feed)
  {
    HeldIsOk(origin, actions, k);
  }
}
