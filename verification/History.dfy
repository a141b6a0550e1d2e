/**
 * One pass's history of the log: every checkpoint met is tied to one
 * append-only line by consistency proofs. These functions specify the session
 * of Session.dfy on values.
 */
module History {
  import opened Basics
  import opened Tree
  import opened Checkpoint
  import opened Server

  datatype Finding = Forked | Shrank | Refused | NotPrefix

  datatype Err =
    | Unavailable(status: Option<nat>)
    | BadCheckpoint
    | Inconsistent(finding: Finding, older: Checkpoint, newer: Checkpoint, proof: seq<Hash>)
    | LogAdvancing
    | SavedUnreadable

  /**
   * The checkpoints a pass holds. `saved` is the anchor of its state: None if
   * it has no state, Some(None) if the state has no anchor.
   */
  datatype History = History(
    latest: Checkpoint,
    bySize: map<nat, Hash>,
    notes: map<nat, Note>,
    anchored: bool,
    saved: Option<Option<Note>>,
    asked: seq<Request>)

  datatype Step = Step(h: History, err: Option<Err>)

  const MAX_RELATE_ATTEMPTS := 3

  predicate RefusedProof(e: Err) {
    e.Unavailable? && e.status.Some? && e.status.value in {400, 401, 403, 404}
  }

  predicate TurnsDown(a: Answer) {
    a.StatusAnswer? && RefusedProof(Unavailable(Some(a.status)))
  }

  function ClassifyRefusal(h: History, e: Err, older: Checkpoint): Err {
    if RefusedProof(e) then Inconsistent(Refused, older, h.latest, []) else e
  }

  function NoteAt(notes: map<nat, Note>, size: nat): Option<Note> {
    if size in notes then Some(notes[size]) else None
  }

  /** The finding, if the size is held under another root. */
  function ForkCheck(h: History, cp: Checkpoint): Option<Err> {
    if cp.size !in h.bySize || h.bySize[cp.size] == cp.hash then None
    else Some(Inconsistent(Forked, Checkpoint(cp.size, h.bySize[cp.size], NoteAt(h.notes, cp.size)), cp, []))
  }

  function Link1(h: History, cp: Checkpoint): History {
    h.(bySize := h.bySize[cp.size := cp.hash],
       notes := if cp.raw.Some? then h.notes[cp.size := cp.raw.value] else h.notes)
  }

  function Commit(h: History): History {
    if h.saved == None || !h.anchored then h else h.(saved := Some(h.latest.raw))
  }

  function SetLatest(h: History, cp: Checkpoint): History {
    Commit(Link1(h, cp).(latest := cp))
  }

  function Ask(h: History, req: Request): History {
    h.(asked := h.asked + [req])
  }

  /** Asks for a proof from a tree size to the newest checkpoint. */
  function ConsistencyFrom(w: World, h: History, from: nat): (History, Result<(seq<Hash>, Checkpoint), Err>) {
    var h1 := Ask(h, AskConsistency(from));
    var r :=
      match w.server(h.asked, AskConsistency(from))
      case ProofAnswer(_, hashes, note) =>
        (match Verify(note, w.origin)
         case None => Err(BadCheckpoint)
         case Some(head) =>
           match ForkCheck(h1, head)
           case Some(e) => Err(e)
           case None => Ok((hashes, head)))
      case StatusAnswer(status) => Err(Unavailable(Some(status)))
      case _ => Err(Unavailable(None));
    (h1, r)
  }

  /** Moves latest forward to target, or past it. */
  function Advance(w: World, h: History, target: Checkpoint): Step {
    if h.latest.size == 0 then Step(SetLatest(h, target), None)
    else
      var (h1, r) := ConsistencyFrom(w, h, h.latest.size);
      match r
      case Err(e) => Step(h1, Some(ClassifyRefusal(h1, e, h.latest)))
      case Ok((hashes, head)) =>
        if head.size < target.size then Step(h1, None)
        else if !VerifyConsistency(h.latest, head, hashes) then
          Step(h1, Some(Inconsistent(NotPrefix, h.latest, head, hashes)))
        else
          var h2 := SetLatest(h1, head);
          Step(h2, ForkCheck(h2, target))
  }

  /** What is left of proving a prefix once the proof is in hand. */
  function UseProof(w: World, h: History, cp: Checkpoint, head: Checkpoint, hashes: seq<Hash>): Step {
    var st := if head.size > h.latest.size then Advance(w, h, head) else Step(h, None);
    if st.err.Some? then st else CheckPrefix(st.h, cp, head, hashes)
  }

  /** Proves cp a prefix of latest. */
  function ProvePrefix(w: World, h: History, cp: Checkpoint): Step {
    if cp.size == 0 then Step(Link1(h, cp), None)
    else
      var (h1, r) := ConsistencyFrom(w, h, cp.size);
      match r
      case Err(e) => Step(h1, Some(ClassifyRefusal(h1, e, cp)))
      case Ok((hashes, head)) => UseProof(w, h1, cp, head, hashes)
  }

  /** Uses the proof from cp to head, once head is what latest is. */
  function CheckPrefix(h: History, cp: Checkpoint, head: Checkpoint, hashes: seq<Hash>): Step {
    if !SameTree(head, h.latest) then Step(h, None)
    else if !VerifyConsistency(cp, h.latest, hashes) then
      Step(h, Some(Inconsistent(NotPrefix, cp, h.latest, hashes)))
    else Step(Link1(h, cp), None)
  }

  /** Ties cp into the history, in at most `rounds` rounds. */
  function Link(w: World, h: History, cp: Checkpoint, rounds: nat): Step
    decreases rounds, cp
  {
    if rounds == 0 then
      Step(h, if cp.size in h.bySize then ForkCheck(h, cp) else Some(LogAdvancing))
    else if ForkCheck(h, cp).Some? then Step(h, ForkCheck(h, cp))
    else if cp.size in h.bySize then Step(h, None)
    else
      var st := if cp.size > h.latest.size then Advance(w, h, cp) else ProvePrefix(w, h, cp);
      if st.err.Some? then st else Link(w, st.h, cp, rounds - 1)
  }

  function Classified(st: Step, older: Checkpoint): Step {
    if st.err.None? then st else Step(st.h, Some(ClassifyRefusal(st.h, st.err.value, older)))
  }

  /** Proves a kept checkpoint, never a served one, a prefix of latest. */
  function ProveAppendOnly(w: World, h: History, kept: Checkpoint): Step {
    if kept.size > h.latest.size then
      var (h1, r) := ConsistencyFrom(w, h, kept.size);
      match r
      case Err(e) => Step(h1, Some(ClassifyRefusal(h1, e, kept)))
      case Ok((hashes, head)) =>
        if head.size < kept.size then Step(h1, Some(Inconsistent(Shrank, kept, head, [])))
        else if !VerifyConsistency(kept, head, hashes) then
          Step(h1, Some(Inconsistent(NotPrefix, kept, head, hashes)))
        else
          Classified(Link(w, PastServed(h1, kept, head), h.latest, MAX_RELATE_ATTEMPTS), h.latest)
    else
      Classified(Link(w, h, kept, MAX_RELATE_ATTEMPTS), kept)
  }

  function ProveAll(w: World, h: History, kept: seq<Checkpoint>): Step
    decreases |kept|
  {
    if kept == [] then Step(h, None)
    else
      var st := ProveAppendOnly(w, h, kept[0]);
      if st.err.Some? then st else ProveAll(w, st.h, kept[1..])
  }

  datatype Started = Started(h: History) | NotStarted(err: Err)

  /** The anchor as a checkpoint to prove, if the state holds one. */
  function SavedCheckpoint(w: World, saved: Option<Option<Note>>): Option<Result<Checkpoint, Err>> {
    if saved == None || saved.value == None then None
    else
      match ParseTrusted(saved.value.value, w.origin)
      case None => Some(Err(SavedUnreadable))
      case Some(cp) => Some(Ok(cp))
  }

  /** Fetches the latest checkpoint and proves the log only appended since every kept one. */
  function Start(w: World, saved: Option<Option<Note>>, baselines: seq<Checkpoint>): Started {
    match w.server([], AskCheckpoint)
    case NoteAnswer(note) =>
      (match Verify(note, w.origin)
       case None => NotStarted(BadCheckpoint)
       case Some(cp) =>
         match SavedCheckpoint(w, saved)
         case Some(Err(e)) => NotStarted(e)
         case Some(Ok(anchor)) => Anchored(ProveAll(w, Opened(cp, note, saved), [anchor] + baselines))
         case None => Anchored(ProveAll(w, Opened(cp, note, saved), baselines)))
    case StatusAnswer(status) => NotStarted(Unavailable(Some(status)))
    case _ => NotStarted(Unavailable(None))
  }

  /** A history that holds the first checkpoint served and nothing else. */
  function Opened(cp: Checkpoint, note: Note, saved: Option<Option<Note>>): History {
    History(cp, map[cp.size := cp.hash], map[cp.size := note], false, saved, [AskCheckpoint])
  }

  function Anchored(st: Step): Started {
    if st.err.Some? then NotStarted(st.err.value) else Started(Commit(st.h.(anchored := true)))
  }

  /** Verifies a checkpoint served beside a proof and ties it in. */
  function Relate(w: World, h: History, note: Note): (History, Result<Checkpoint, Err>) {
    match Verify(note, w.origin)
    case None => (h, Err(BadCheckpoint))
    case Some(cp) =>
      var st := Link(w, h, cp, MAX_RELATE_ATTEMPTS);
      (st.h, if st.err.Some? then Err(st.err.value) else Ok(cp))
  }

  /** The requests made to start a pass, whether it starts or not. */
  ghost function Tried(w: World, saved: Option<Option<Note>>, baselines: seq<Checkpoint>): seq<Request> {
    var a, anchor := w.server([], AskCheckpoint), SavedCheckpoint(w, saved);
    if !a.NoteAnswer? || Verify(a.note, w.origin) == None || (anchor.Some? && anchor.value.Err?) then [AskCheckpoint]
    else
      var kept := if anchor.Some? then [anchor.value.value] + baselines else baselines;
      ProveAll(w, Opened(Verify(a.note, w.origin).value, a.note, saved), kept).h.asked
  }

  // ---------------------------------------------------------------------
  // The invariant
  // ---------------------------------------------------------------------

  /** The note, when there is one, says what the checkpoint says. */
  ghost predicate Backed(w: World, cp: Checkpoint) {
    cp.raw.Some? ==> ParseTrusted(cp.raw.value, w.origin) == Some(cp)
  }

  /** Verified and served during this pass. */
  ghost predicate HeadServed(w: World, asked: seq<Request>, cp: Checkpoint) {
    cp.raw.Some? && Verify(cp.raw.value, w.origin) == Some(cp) && Heard(w, asked, cp.raw.value)
  }

  /**
   * latest is the largest linked size and was served in this pass; every
   * linked size outside `loose` holds the root of a prefix of latest.
   */
  ghost predicate Consistent(w: World, h: History, loose: set<nat>) {
    && HeadServed(w, h.asked, h.latest)
    && h.latest.size in h.bySize && h.bySize[h.latest.size] == h.latest.hash
    && h.latest.size !in loose && loose <= h.bySize.Keys
    && (forall n <- h.bySize :: n <= h.latest.size)
    && (forall n <- h.bySize :: n !in loose ==> Extends(h.latest, Checkpoint(n, h.bySize[n], None)))
    && (forall n <- h.notes :: n in h.bySize ==> Backed(w, Checkpoint(n, h.bySize[n], Some(h.notes[n]))))
    && (h.anchored && h.saved.Some? ==> h.saved.value == h.latest.raw)
  }

  /** Some request made for a consistency proof from this size was turned down. */
  ghost predicate TurnedDown(w: World, asked: seq<Request>, from: nat) {
    exists t :: 0 <= t < |asked| && asked[t] == AskConsistency(from) && TurnsDown(w.server(asked[..t], asked[t]))
  }

  lemma TurnedDownNow(w: World, asked: seq<Request>, from: nat)
    requires TurnsDown(w.server(asked, AskConsistency(from)))
    ensures TurnedDown(w, asked + [AskConsistency(from)], from)
  {
    var more := asked + [AskConsistency(from)];
    assert more[..|asked|] == asked && more[|asked|] == AskConsistency(from);
  }

  /** What each kind of finding shows, given the requests made so far. */
  ghost predicate Holds(w: World, asked: seq<Request>, e: Err) {
    e.Inconsistent? ==>
      && Backed(w, e.older) && Backed(w, e.newer)
      && match e.finding
         case Forked => e.older.size == e.newer.size && e.older.hash != e.newer.hash
         case Shrank => e.newer.size < e.older.size
         case NotPrefix => !VerifyConsistency(e.older, e.newer, e.proof)
         case Refused => TurnedDown(w, asked, e.older.size)
  }

  /** A step that fails says why; a proof turned down has become a finding. */
  ghost predicate Warranted(w: World, st: Step) {
    st.err.Some? ==> Holds(w, st.h.asked, st.err.value) && !RefusedProof(st.err.value)
  }

  /** How a step may change a history. */
  ghost predicate Grows(h: History, h': History) {
    && Extends(h'.latest, h.latest)
    && (forall n <- h.bySize :: n in h'.bySize && h'.bySize[n] == h.bySize[n])
    && h'.notes.Keys <= h.notes.Keys + h'.bySize.Keys
    && h.asked <= h'.asked
    && h'.anchored == h.anchored && h'.saved.Some? == h.saved.Some?
    && (!h.anchored ==> h'.saved == h.saved)
  }

  lemma GrowsTransitive(a: History, b: History, c: History)
    requires Grows(a, b) && Grows(b, c)
    ensures Grows(a, c)
  {
    ExtendsTransitive(a.latest, b.latest, c.latest);
  }

  lemma ServedIsBacked(w: World, note: Note)
    ensures Verify(note, w.origin).Some? ==> Backed(w, Verify(note, w.origin).value)
  {
    if Verify(note, w.origin).Some? {
      TrustedReadsWhatVerified(note, w.origin);
    }
  }

  /** Asking changes nothing but the record of requests. */
  lemma AskKeeps(w: World, h: History, req: Request, loose: set<nat>)
    requires Consistent(w, h, loose)
    ensures Consistent(w, Ask(h, req), loose) && Grows(h, Ask(h, req))
  {
    HeardLater(w, h.asked, h.asked + [req], h.latest.raw.value);
  }

  lemma ForkIsBacked(w: World, h: History, cp: Checkpoint, loose: set<nat>)
    requires Consistent(w, h, loose) && Backed(w, cp)
    ensures ForkCheck(h, cp).Some? ==> Holds(w, h.asked, ForkCheck(h, cp).value) && !RefusedProof(ForkCheck(h, cp).value)
  {}

  lemma ConsistencyFromKeeps(w: World, h: History, from: nat, loose: set<nat>)
    requires Consistent(w, h, loose)
    ensures var (h1, r) := ConsistencyFrom(w, h, from);
            && Consistent(w, h1, loose) && Grows(h, h1) && |h1.asked| == |h.asked| + 1
            && (r.Ok? ==> HeadServed(w, h1.asked, r.value.1) && ForkCheck(h1, r.value.1) == None)
            && (r.Err? ==> Holds(w, h1.asked, r.error) && (RefusedProof(r.error) ==> TurnedDown(w, h1.asked, from)))
  {
    AskKeeps(w, h, AskConsistency(from), loose);
    var a := w.server(h.asked, AskConsistency(from));
    if TurnsDown(a) {
      TurnedDownNow(w, h.asked, from);
    }
    if a.ProofAnswer? {
      HeardNow(w, h.asked, AskConsistency(from), a.note);
      ServedNowKeeps(w, Ask(h, AskConsistency(from)), a.note, loose);
    }
  }

  /** A verified note just heard is a served head, and a fork of what is held is a finding. */
  lemma ServedNowKeeps(w: World, h: History, note: Note, loose: set<nat>)
    requires Consistent(w, h, loose) && Heard(w, h.asked, note)
    ensures Verify(note, w.origin).Some? ==>
              var head := Verify(note, w.origin).value;
              && HeadServed(w, h.asked, head)
              && (ForkCheck(h, head).Some? ==> Holds(w, h.asked, ForkCheck(h, head).value) && !RefusedProof(ForkCheck(h, head).value))
  {
    if Verify(note, w.origin).Some? {
      TrustedReadsWhatVerified(note, w.origin);
      ForkIsBacked(w, h, Verify(note, w.origin).value, loose);
    }
  }

  /** A larger served checkpoint that extends latest may take its place. */
  lemma SetLatestKeeps(w: World, h: History, head: Checkpoint, loose: set<nat>)
    requires Consistent(w, h, loose) && HeadServed(w, h.asked, head)
    requires head.size > h.latest.size && Extends(head, h.latest)
    ensures Consistent(w, SetLatest(h, head), loose) && Grows(h, SetLatest(h, head))
  {
    var h' := SetLatest(h, head);
    forall n <- h'.bySize | n !in loose
      ensures Extends(h'.latest, Checkpoint(n, h'.bySize[n], None))
    {
      if n != head.size {
        ExtendsTransitive(Checkpoint(n, h.bySize[n], None), h.latest, head);
      }
    }
    ServedIsBacked(w, head.raw.value);
  }

  /** A prefix of latest at a size not yet linked may be linked. */
  lemma Link1Keeps(w: World, h: History, cp: Checkpoint, loose: set<nat>)
    requires Consistent(w, h, loose) && Backed(w, cp)
    requires cp.size !in h.bySize && Extends(h.latest, cp)
    requires cp.raw == None ==> cp.size !in h.notes
    ensures Consistent(w, Link1(h, cp), loose) && Grows(h, Link1(h, cp))
  {}

  lemma ClassifyHolds(w: World, h: History, e: Err, older: Checkpoint)
    requires Holds(w, h.asked, e) && (RefusedProof(e) ==> TurnedDown(w, h.asked, older.size))
    requires Backed(w, older) && HeadServed(w, h.asked, h.latest)
    ensures Warranted(w, Step(h, Some(ClassifyRefusal(h, e, older))))
  {
    ServedIsBacked(w, h.latest.raw.value);
  }

  /** The head moves past the target once that is proven. */
  lemma AdvancedKeeps(w: World, h: History, h1: History, target: Checkpoint, head: Checkpoint, loose: set<nat>)
    requires Consistent(w, h1, loose) && Grows(h, h1) && h1 == h.(asked := h1.asked)
    requires h.latest.size < target.size <= head.size && Extends(head, h.latest)
    requires HeadServed(w, h.asked, target) && HeadServed(w, h1.asked, head)
    ensures var h2 := SetLatest(h1, head);
            && Consistent(w, h2, loose) && Grows(h, h2) && h2.asked == h1.asked
            && Warranted(w, Step(h2, ForkCheck(h2, target)))
            && (forall n :: n <= h.latest.size ==> (n in h2.bySize <==> n in h.bySize) && (n in h2.notes <==> n in h.notes))
  {
    SetLatestKeeps(w, h1, head, loose);
    GrowsTransitive(h, h1, SetLatest(h1, head));
    ServedIsBacked(w, target.raw.value);
    ForkIsBacked(w, SetLatest(h1, head), target, loose);
  }

  lemma AdvanceKeeps(w: World, h: History, target: Checkpoint, loose: set<nat>)
    requires Consistent(w, h, loose) && target.size > h.latest.size && HeadServed(w, h.asked, target)
    ensures var st := Advance(w, h, target);
            && Consistent(w, st.h, loose) && Grows(h, st.h) && |st.h.asked| <= |h.asked| + 1
            && Warranted(w, st)
            && (forall n :: n <= h.latest.size ==> (n in st.h.bySize <==> n in h.bySize) && (n in st.h.notes <==> n in h.notes))
  {
    if h.latest.size == 0 {
      SetLatestKeeps(w, h, target, loose);
    } else {
      ConsistencyFromKeeps(w, h, h.latest.size, loose);
      var (h1, r) := ConsistencyFrom(w, h, h.latest.size);
      ServedIsBacked(w, h.latest.raw.value);
      if r.Err? {
        ClassifyHolds(w, h1, r.error, h.latest);
      } else {
        var (hashes, head) := r.value;
        ServedIsBacked(w, head.raw.value);
        if head.size >= target.size && VerifyConsistency(h.latest, head, hashes) {
          ConsistencySound(h.latest, head, hashes);
          AdvancedKeeps(w, h, h1, target, head, loose);
        }
      }
    }
  }

  /** What must be known of a checkpoint before it may be linked. */
  ghost predicate Linkable(w: World, h: History, cp: Checkpoint) {
    && Backed(w, cp)
    && (cp.size > h.latest.size ==> HeadServed(w, h.asked, cp))
    && (cp.raw == None && cp.size in h.notes ==> cp.size in h.bySize)
  }

  lemma CheckPrefixKeeps(w: World, h: History, cp: Checkpoint, head: Checkpoint, hashes: seq<Hash>, loose: set<nat>)
    requires Consistent(w, h, loose) && Backed(w, cp)
    requires cp.size !in h.bySize && (cp.raw == None ==> cp.size !in h.notes)
    ensures var st := CheckPrefix(h, cp, head, hashes);
            && Consistent(w, st.h, loose) && Grows(h, st.h) && st.h.asked == h.asked && st.h.latest == h.latest
            && Warranted(w, st)
            && (st.h == h || cp.size in st.h.bySize)
  {
    ServedIsBacked(w, h.latest.raw.value);
    if SameTree(head, h.latest) && VerifyConsistency(cp, h.latest, hashes) {
      ConsistencySound(cp, h.latest, hashes);
      Link1Keeps(w, h, cp, loose);
    }
  }

  lemma UseProofKeeps(w: World, h: History, cp: Checkpoint, head: Checkpoint, hashes: seq<Hash>, loose: set<nat>)
    requires Consistent(w, h, loose) && Linkable(w, h, cp) && HeadServed(w, h.asked, head)
    requires cp.size < h.latest.size && cp.size !in h.bySize
    ensures var st := UseProof(w, h, cp, head, hashes);
            && Consistent(w, st.h, loose) && Grows(h, st.h) && |st.h.asked| <= |h.asked| + 1
            && Warranted(w, st)
            && Linkable(w, st.h, cp)
  {
    ServedIsBacked(w, h.latest.raw.value);
    ExtendsItself(h.latest);
    var st := if head.size > h.latest.size then Advance(w, h, head) else Step(h, None);
    if head.size > h.latest.size {
      AdvanceKeeps(w, h, head, loose);
    }
    if st.err.None? {
      CheckPrefixKeeps(w, st.h, cp, head, hashes, loose);
      GrowsTransitive(h, st.h, CheckPrefix(st.h, cp, head, hashes).h);
    }
  }

  lemma ProvePrefixKeeps(w: World, h: History, cp: Checkpoint, loose: set<nat>)
    requires Consistent(w, h, loose) && Linkable(w, h, cp)
    requires cp.size < h.latest.size && cp.size !in h.bySize
    ensures var st := ProvePrefix(w, h, cp);
            && Consistent(w, st.h, loose) && Grows(h, st.h) && |st.h.asked| <= |h.asked| + 2
            && Warranted(w, st)
            && Linkable(w, st.h, cp)
  {
    if cp.size == 0 {
      Link1Keeps(w, h, cp, loose);
    } else {
      ConsistencyFromKeeps(w, h, cp.size, loose);
      var (h1, r) := ConsistencyFrom(w, h, cp.size);
      ServedIsBacked(w, h.latest.raw.value);
      if r.Err? {
        ClassifyHolds(w, h1, r.error, cp);
      } else {
        UseProofKeeps(w, h1, cp, r.value.1, r.value.0, loose);
        GrowsTransitive(h, h1, UseProof(w, h1, cp, r.value.1, r.value.0).h);
      }
    }
  }

  /** One round of linking: it ends with an error, or cp may be linked still. */
  lemma RoundKeeps(w: World, h: History, cp: Checkpoint, loose: set<nat>)
    requires Consistent(w, h, loose) && Linkable(w, h, cp) && cp.size !in h.bySize
    ensures var st := if cp.size > h.latest.size then Advance(w, h, cp) else ProvePrefix(w, h, cp);
            && Consistent(w, st.h, loose) && Grows(h, st.h) && |st.h.asked| <= |h.asked| + 2
            && Warranted(w, st)
            && Linkable(w, st.h, cp)
  {
    if cp.size > h.latest.size {
      AdvanceKeeps(w, h, cp, loose);
      HeardLater(w, h.asked, Advance(w, h, cp).h.asked, cp.raw.value);
    } else {
      ProvePrefixKeeps(w, h, cp, loose);
    }
  }

  // Linking is unfolded only at a count of rounds that a lemma marks: unfolded
  // everywhere, it would cost more than it helps.

  ghost predicate Counted(rounds: nat) {
    true
  }

  ghost predicate LinksTo(w: World, h: History, cp: Checkpoint, rounds: nat, st: Step) {
    forall r: nat {:trigger Counted(r)} :: r == rounds && Counted(r) ==> Link(w, h, cp, r) == st
  }

  lemma LinkRound(w: World, h: History, h1: History, cp: Checkpoint, rounds: nat, st: Step)
    requires rounds > 0 && ForkCheck(h, cp) == None && cp.size !in h.bySize
    requires (if cp.size > h.latest.size then Advance(w, h, cp) else ProvePrefix(w, h, cp)) == Step(h1, None)
    requires LinksTo(w, h1, cp, rounds - 1, st)
    ensures LinksTo(w, h, cp, rounds, st)
  {
    assert Counted(rounds - 1);
  }

  lemma NoRoundLeft(w: World, h: History, cp: Checkpoint)
    requires cp.size !in h.bySize
    ensures LinksTo(w, h, cp, 0, Step(h, Some(LogAdvancing)))
  {}

  lemma RoundFails(w: World, h: History, cp: Checkpoint, rounds: nat, st: Step)
    requires rounds > 0 && ForkCheck(h, cp) == None && cp.size !in h.bySize && st.err.Some?
    requires (if cp.size > h.latest.size then Advance(w, h, cp) else ProvePrefix(w, h, cp)) == st
    ensures LinksTo(w, h, cp, rounds, st)
  {}

  lemma LinkedAlready(w: World, h: History, cp: Checkpoint, rounds: nat)
    requires cp.size in h.bySize
    ensures LinksTo(w, h, cp, rounds, Step(h, ForkCheck(h, cp)))
  {}

  lemma LinksToIsLink(w: World, h: History, cp: Checkpoint, rounds: nat, st: Step)
    requires LinksTo(w, h, cp, rounds, st)
    ensures Link(w, h, cp, rounds) == st
  {
    assert Counted(rounds);
  }

  /** A checkpoint of no entries is linked under whatever root it carries, and nothing is asked. */
  lemma EmptyIsLinkedUnasked(w: World, h: History, cp: Checkpoint, rounds: nat)
    requires cp.size == 0 && 0 !in h.bySize && h.latest.size > 0 && rounds > 0
    ensures Link(w, h, cp, rounds) == Step(Link1(h, cp), None)
  {
    LinkedAlready(w, Link1(h, cp), cp, rounds - 1);
    LinkRound(w, h, Link1(h, cp), cp, rounds, Step(Link1(h, cp), None));
    LinksToIsLink(w, h, cp, rounds, Step(Link1(h, cp), None));
  }

  /** What linking leaves, whatever the log answers. */
  ghost predicate LinkLeaves(w: World, h: History, st: Step, cp: Checkpoint, rounds: nat, loose: set<nat>) {
    && Consistent(w, st.h, loose) && Grows(h, st.h)
    && |st.h.asked| <= |h.asked| + 2 * rounds
    && Warranted(w, st)
    && (st.err.None? ==> cp.size in st.h.bySize && st.h.bySize[cp.size] == cp.hash && Extends(st.h.latest, cp))
  }

  lemma LinkLeavesMore(w: World, h: History, h1: History, st: Step, cp: Checkpoint, rounds: nat, loose: set<nat>)
    requires Grows(h, h1) && |h1.asked| <= |h.asked| + 2 && LinkLeaves(w, h1, st, cp, rounds, loose)
    ensures LinkLeaves(w, h, st, cp, rounds + 1, loose)
  {
    GrowsTransitive(h, h1, st.h);
  }

  lemma LinkedLeaves(w: World, h: History, cp: Checkpoint, rounds: nat, loose: set<nat>)
    requires Consistent(w, h, loose) && Linkable(w, h, cp) && cp.size !in loose
    requires cp.size in h.bySize || rounds == 0
    ensures LinkLeaves(w, h, Step(h, if cp.size in h.bySize then ForkCheck(h, cp) else Some(LogAdvancing)), cp, rounds, loose)
  {
    ForkIsBacked(w, h, cp, loose);
    ExtendsItself(h.latest);
  }

  lemma RoundDone(w: World, h: History, cp: Checkpoint, rounds: nat, loose: set<nat>)
    returns (st: Step)
    requires Consistent(w, h, loose) && Linkable(w, h, cp) && cp.size !in h.bySize && rounds > 0
    ensures ForkCheck(h, cp) == None && st == (if cp.size > h.latest.size then Advance(w, h, cp) else ProvePrefix(w, h, cp))
    ensures st.err.Some? ==> LinksTo(w, h, cp, rounds, st) && LinkLeaves(w, h, st, cp, rounds, loose)
    ensures Consistent(w, st.h, loose) && Grows(h, st.h) && |st.h.asked| <= |h.asked| + 2 && Linkable(w, st.h, cp)
  {
    RoundKeeps(w, h, cp, loose);
    st := if cp.size > h.latest.size then Advance(w, h, cp) else ProvePrefix(w, h, cp);
    if st.err.Some? {
      RoundFails(w, h, cp, rounds, st);
    }
  }

  lemma {:induction false} LinkingKeeps(w: World, h: History, cp: Checkpoint, rounds: nat, loose: set<nat>)
    returns (st: Step)
    requires Consistent(w, h, loose) && Linkable(w, h, cp) && cp.size !in loose
    ensures LinksTo(w, h, cp, rounds, st) && LinkLeaves(w, h, st, cp, rounds, loose)
    decreases rounds
  {
    if cp.size in h.bySize {
      st := Step(h, ForkCheck(h, cp));
      LinkedAlready(w, h, cp, rounds);
      LinkedLeaves(w, h, cp, rounds, loose);
    } else if rounds == 0 {
      st := Step(h, Some(LogAdvancing));
      NoRoundLeft(w, h, cp);
      LinkedLeaves(w, h, cp, rounds, loose);
    } else {
      st := RoundDone(w, h, cp, rounds, loose);
      if st.err.None? {
        var h1 := st.h;
        st := LinkingKeeps(w, h1, cp, rounds - 1, loose);
        LinkRound(w, h, h1, cp, rounds, st);
        LinkLeavesMore(w, h, h1, st, cp, rounds - 1, loose);
      }
    }
  }

  /**
   * Whatever the log answers, linking keeps the history consistent and only
   * moves its head forward; on success the head extends cp.
   * Each round asks at most twice.
   */
  lemma LinkKeeps(w: World, h: History, cp: Checkpoint, rounds: nat, loose: set<nat>)
    requires Consistent(w, h, loose) && Linkable(w, h, cp) && cp.size !in loose
    ensures LinkLeaves(w, h, Link(w, h, cp, rounds), cp, rounds, loose)
  {
    var st := LinkingKeeps(w, h, cp, rounds, loose);
    LinksToIsLink(w, h, cp, rounds, st);
  }

  /**
   * Proving a kept checkpoint append-only keeps a consistent history, by way
   * of one that is not: while a head served from behind is proven again,
   * the sizes linked below it are loose.
   */
  lemma ProveAppendOnlyKeeps(w: World, h: History, kept: Checkpoint)
    requires Consistent(w, h, {}) && h.notes.Keys <= h.bySize.Keys && Backed(w, kept) && !h.anchored
    ensures var st := ProveAppendOnly(w, h, kept);
            && Warranted(w, st)
            && (st.err.None? ==>
                  && Consistent(w, st.h, {}) && st.h.notes.Keys <= st.h.bySize.Keys
                  && Grows(h, st.h)
                  && kept.size in st.h.bySize && st.h.bySize[kept.size] == kept.hash
                  && Extends(st.h.latest, kept))
  {
    if kept.size > h.latest.size {
      ConsistencyFromKeeps(w, h, kept.size, {});
      var (h1, r) := ConsistencyFrom(w, h, kept.size);
      ServedIsBacked(w, h.latest.raw.value);
      if r.Err? {
        ClassifyHolds(w, h1, r.error, kept);
      } else {
        var (hashes, head) := r.value;
        ServedIsBacked(w, head.raw.value);
        if head.size >= kept.size && VerifyConsistency(kept, head, hashes) {
          ConsistencySound(kept, head, hashes);
          RelinkKeeps(w, h1, kept, head, MAX_RELATE_ATTEMPTS);
        }
      }
    } else {
      CoveredKeeps(w, h, kept, MAX_RELATE_ATTEMPTS);
    }
  }

  /** The head covers the kept size already. */
  lemma CoveredKeeps(w: World, h: History, kept: Checkpoint, rounds: nat)
    requires Consistent(w, h, {}) && h.notes.Keys <= h.bySize.Keys && Backed(w, kept) && kept.size <= h.latest.size
    ensures var st := Classified(Link(w, h, kept, rounds), kept);
            && Warranted(w, st)
            && (st.err.None? ==>
                  && Consistent(w, st.h, {}) && st.h.notes.Keys <= st.h.bySize.Keys
                  && Grows(h, st.h)
                  && kept.size in st.h.bySize && st.h.bySize[kept.size] == kept.hash
                  && Extends(st.h.latest, kept))
  {
    ServedIsBacked(w, h.latest.raw.value);
    LinkKeeps(w, h, kept, rounds, {});
    ClassifiedHolds(w, Link(w, h, kept, rounds), kept);
  }

  /** What linking fails with is no refusal left to classify. */
  lemma ClassifiedHolds(w: World, st: Step, older: Checkpoint)
    requires Warranted(w, st)
    ensures Classified(st, older) == st
  {}

  /** A head that covers the kept size, with the head served from behind unlinked. */
  function PastServed(h: History, kept: Checkpoint, head: Checkpoint): History {
    var h2 := SetLatest(Link1(h, kept), head);
    h2.(bySize := h2.bySize - {h.latest.size})
  }

  lemma PastServedIs(h: History, kept: Checkpoint, head: Checkpoint)
    requires !h.anchored && h.latest.size < kept.size <= head.size
    ensures var h3 := PastServed(h, kept, head);
            && h3.bySize == (h.bySize - {h.latest.size})[kept.size := kept.hash][head.size := head.hash]
            && h3.latest == head && h3.asked == h.asked && h3.saved == h.saved && !h3.anchored
            && h3.notes.Keys <= h.notes.Keys + {kept.size, head.size}
            && (forall n <- h3.notes :: n != kept.size && n != head.size ==> n in h.notes && h3.notes[n] == h.notes[n])
            && (head.raw.Some? ==> head.size in h3.notes && h3.notes[head.size] == head.raw.value)
            && (kept.size != head.size && kept.size in h3.notes ==>
                  if kept.raw.Some? then h3.notes[kept.size] == kept.raw.value else kept.size in h.notes)
  {}

  lemma PastServedIsLoose(w: World, h: History, kept: Checkpoint, head: Checkpoint)
    requires Consistent(w, h, {}) && !h.anchored
    requires h.latest.size < kept.size <= head.size
    requires HeadServed(w, h.asked, head) && Backed(w, kept) && Extends(head, kept)
    requires kept.raw == None ==> kept.size !in h.notes
    ensures Consistent(w, PastServed(h, kept, head), h.bySize.Keys - {h.latest.size})
  {
    var h3 := PastServed(h, kept, head);
    PastServedIs(h, kept, head);
    PastServedIsBacked(w, h, kept, head, h3);
    PastServedIsAhead(w, h, kept, head, h3);
  }

  lemma PastServedIsBacked(w: World, h: History, kept: Checkpoint, head: Checkpoint, h3: History)
    requires Consistent(w, h, {}) && h.latest.size < kept.size <= head.size && h3 == PastServed(h, kept, head) && !h.anchored
    requires HeadServed(w, h.asked, head) && Backed(w, kept) && (kept.raw == None ==> kept.size !in h.notes)
    ensures forall n <- h3.notes :: n in h3.bySize ==> Backed(w, Checkpoint(n, h3.bySize[n], Some(h3.notes[n])))
  {
    PastServedIs(h, kept, head);
    ServedIsBacked(w, head.raw.value);
    forall n <- h3.notes | n in h3.bySize
      ensures Backed(w, Checkpoint(n, h3.bySize[n], Some(h3.notes[n])))
    {
      if n == head.size {
        assert Checkpoint(n, h3.bySize[n], Some(h3.notes[n])) == head;
      } else if n == kept.size {
        assert Checkpoint(n, h3.bySize[n], Some(h3.notes[n])) == kept;
      } else {
        assert n in h.notes && n in h.bySize;
      }
    }
  }

  lemma PastServedIsAhead(w: World, h: History, kept: Checkpoint, head: Checkpoint, h3: History)
    requires Consistent(w, h, {}) && h.latest.size < kept.size <= head.size && h3 == PastServed(h, kept, head) && !h.anchored
    requires Extends(head, kept)
    ensures forall n <- h3.bySize :: n <= head.size
    ensures forall n <- h3.bySize :: n !in h.bySize.Keys - {h.latest.size} ==> Extends(head, Checkpoint(n, h3.bySize[n], None))
  {
    PastServedIs(h, kept, head);
    ExtendsItself(head);
  }

  lemma TightAgain(w: World, h: History, h': History, served: Checkpoint, loose: set<nat>)
    requires Consistent(w, h', loose) && Extends(h'.latest, served)
    requires loose <= h.bySize.Keys && forall n <- loose :: h'.bySize[n] == h.bySize[n]
    requires forall n <- loose :: Extends(served, Checkpoint(n, h.bySize[n], None))
    ensures Consistent(w, h', {})
  {
    forall n <- h'.bySize
      ensures Extends(h'.latest, Checkpoint(n, h'.bySize[n], None))
    {
      if n in loose {
        ExtendsTransitive(Checkpoint(n, h.bySize[n], None), served, h'.latest);
      }
    }
  }

  lemma PastServedGrows(w: World, h: History, kept: Checkpoint, head: Checkpoint, h': History)
    requires Consistent(w, h, {}) && h.notes.Keys <= h.bySize.Keys && !h.anchored
    requires h.latest.size < kept.size <= head.size
    requires kept.size == head.size ==> kept.hash == head.hash
    requires Grows(PastServed(h, kept, head), h') && Extends(h'.latest, h.latest)
    requires h.latest.size in h'.bySize && h'.bySize[h.latest.size] == h.latest.hash
    ensures Grows(h, h') && h'.notes.Keys <= h'.bySize.Keys
    ensures kept.size in h'.bySize && h'.bySize[kept.size] == kept.hash
  {
    var h3 := PastServed(h, kept, head);
    PastServedIs(h, kept, head);
    forall n <- h.bySize ensures n in h'.bySize && h'.bySize[n] == h.bySize[n] {
      if n != h.latest.size {
        assert n in h3.bySize;
      }
    }
  }

  /** Once the served checkpoint is linked again, every size is proven. */
  lemma RelinkedKeeps(w: World, h: History, kept: Checkpoint, head: Checkpoint, h': History)
    requires Consistent(w, h, {}) && h.notes.Keys <= h.bySize.Keys && !h.anchored
    requires h.latest.size < kept.size <= head.size && Extends(head, kept)
    requires var loose := h.bySize.Keys - {h.latest.size}; Consistent(w, h', loose)
    requires Grows(PastServed(h, kept, head), h') && Extends(h'.latest, h.latest)
    requires h.latest.size in h'.bySize && h'.bySize[h.latest.size] == h.latest.hash
    ensures Consistent(w, h', {}) && h'.notes.Keys <= h'.bySize.Keys && Grows(h, h')
    ensures kept.size in h'.bySize && h'.bySize[kept.size] == kept.hash && Extends(h'.latest, kept)
  {
    var h3, loose := PastServed(h, kept, head), h.bySize.Keys - {h.latest.size};
    forall n <- loose ensures h'.bySize[n] == h.bySize[n] {
      assert n in h3.bySize;
    }
    TightAgain(w, h, h', h.latest, loose);
    PastServedGrows(w, h, kept, head, h');
    ExtendsTransitive(kept, head, h'.latest);
  }

  /** The head moves past a served checkpoint, which is then proven again. */
  lemma RelinkKeeps(w: World, h: History, kept: Checkpoint, head: Checkpoint, rounds: nat)
    requires Consistent(w, h, {}) && h.notes.Keys <= h.bySize.Keys && !h.anchored
    requires h.latest.size < kept.size <= head.size
    requires HeadServed(w, h.asked, head) && Backed(w, kept) && Extends(head, kept)
    ensures var st := Classified(Link(w, PastServed(h, kept, head), h.latest, rounds), h.latest);
            && Warranted(w, st)
            && (st.err.None? ==>
                  && Consistent(w, st.h, {}) && st.h.notes.Keys <= st.h.bySize.Keys
                  && Grows(h, st.h)
                  && kept.size in st.h.bySize && st.h.bySize[kept.size] == kept.hash
                  && Extends(st.h.latest, kept))
  {
    ServedIsBacked(w, h.latest.raw.value);
    PastServedIsLoose(w, h, kept, head);
    LinkKeeps(w, PastServed(h, kept, head), h.latest, rounds, h.bySize.Keys - {h.latest.size});
    var linked := Link(w, PastServed(h, kept, head), h.latest, rounds);
    ClassifiedHolds(w, linked, h.latest);
    if linked.err.None? {
      RelinkedKeeps(w, h, kept, head, linked.h);
    }
  }

  lemma {:induction false} ProveAllKeeps(w: World, h: History, kept: seq<Checkpoint>)
    requires Consistent(w, h, {}) && h.notes.Keys <= h.bySize.Keys && !h.anchored
    requires forall k <- kept :: Backed(w, k)
    ensures var st := ProveAll(w, h, kept);
            && Warranted(w, st)
            && (st.err.None? ==>
                  && Consistent(w, st.h, {}) && Grows(h, st.h)
                  && forall k <- kept :: Proven(st.h, k))
    decreases |kept|
  {
    if kept == [] {
      ExtendsItself(h.latest);
    } else {
      var st := ProveAppendOnly(w, h, kept[0]);
      ProveAppendOnlyKeeps(w, h, kept[0]);
      if st.err.None? {
        ProveAllKeeps(w, st.h, kept[1..]);
        var end := ProveAll(w, st.h, kept[1..]);
        if end.err.None? {
          GrowsTransitive(h, st.h, end.h);
          ExtendsTransitive(kept[0], st.h.latest, end.h.latest);
          forall k <- kept ensures Proven(end.h, k) {
            assert k == kept[0] || k in kept[1..];
          }
        }
      }
    }
  }

  /** Linked under its own root, and a prefix of the head. */
  ghost predicate Proven(h: History, cp: Checkpoint) {
    cp.size in h.bySize && h.bySize[cp.size] == cp.hash && Extends(h.latest, cp)
  }

  /**
   * A started pass has proven its head an extension of the saved anchor and of
   * every baseline, has saved that head, and took it from an answer of its own:
   * no kept checkpoint becomes the head on its own word.
   */
  lemma StartKeeps(w: World, saved: Option<Option<Note>>, baselines: seq<Checkpoint>)
    requires forall b <- baselines :: Backed(w, b)
    ensures match Start(w, saved, baselines)
            case NotStarted(e) => Holds(w, Tried(w, saved, baselines), e)
            case Started(h) =>
              && Consistent(w, h, {}) && h.anchored && h.asked == Tried(w, saved, baselines)
              && h.saved == (if saved == None then None else Some(h.latest.raw))
              && (forall b <- baselines :: Proven(h, b))
              && (SavedCheckpoint(w, saved).Some? ==>
                    SavedCheckpoint(w, saved).value.Ok? && Proven(h, SavedCheckpoint(w, saved).value.value))
  {
    var a, anchor := w.server([], AskCheckpoint), SavedCheckpoint(w, saved);
    if a.NoteAnswer? && Verify(a.note, w.origin).Some? && (anchor.None? || anchor.value.Ok?) {
      var kept := if anchor.Some? then [anchor.value.value] + baselines else baselines;
      StartIsProving(w, saved, baselines, Verify(a.note, w.origin).value, a.note, kept);
      if anchor.Some? {
        assert kept[0] == anchor.value.value;
        SavedIsBacked(w, saved);
      }
      assert forall b <- baselines :: b in kept;
      ProvenStart(w, a.note, saved, kept);
    }
  }

  lemma SavedIsBacked(w: World, saved: Option<Option<Note>>)
    ensures var anchor := SavedCheckpoint(w, saved); anchor.Some? && anchor.value.Ok? ==> Backed(w, anchor.value.value)
  {}

  lemma StartIsProving(w: World, saved: Option<Option<Note>>, baselines: seq<Checkpoint>, cp: Checkpoint, note: Note, kept: seq<Checkpoint>)
    requires w.server([], AskCheckpoint) == NoteAnswer(note) && Verify(note, w.origin) == Some(cp)
    requires var anchor := SavedCheckpoint(w, saved);
             if anchor.Some? then anchor.value.Ok? && kept == [anchor.value.value] + baselines else kept == baselines
    ensures var st := ProveAll(w, Opened(cp, note, saved), kept);
            Start(w, saved, baselines) == Anchored(st) && Tried(w, saved, baselines) == st.h.asked
  {}

  lemma ProvenStart(w: World, note: Note, saved: Option<Option<Note>>, kept: seq<Checkpoint>)
    requires w.server([], AskCheckpoint) == NoteAnswer(note) && Verify(note, w.origin).Some?
    requires forall k <- kept :: Backed(w, k)
    ensures var st := ProveAll(w, Opened(Verify(note, w.origin).value, note, saved), kept);
            match Anchored(st)
            case NotStarted(e) => Holds(w, st.h.asked, e)
            case Started(h) =>
              && Consistent(w, h, {}) && h.anchored && h.asked == st.h.asked
              && h.saved == (if saved == None then None else Some(h.latest.raw))
              && forall k <- kept :: Proven(h, k)
  {
    OpenedIsConsistent(w, note, saved);
    var h := Opened(Verify(note, w.origin).value, note, saved);
    ProveAllKeeps(w, h, kept);
    AnchoredKeeps(w, saved, ProveAll(w, h, kept), kept);
  }

  lemma OpenedIsConsistent(w: World, note: Note, saved: Option<Option<Note>>)
    requires w.server([], AskCheckpoint) == NoteAnswer(note) && Verify(note, w.origin).Some?
    ensures var h := Opened(Verify(note, w.origin).value, note, saved);
            Consistent(w, h, {}) && h.notes.Keys <= h.bySize.Keys
  {
    var cp := Verify(note, w.origin).value;
    OpeningIsServed(w, note);
    ServedIsBacked(w, note);
    ExtendsItself(cp);
    assert Extends(cp, Checkpoint(cp.size, cp.hash, None));
  }

  lemma OpeningIsServed(w: World, note: Note)
    requires w.server([], AskCheckpoint) == NoteAnswer(note) && Verify(note, w.origin).Some?
    ensures HeadServed(w, [AskCheckpoint], Verify(note, w.origin).value)
  {
    HeardNow(w, [], AskCheckpoint, note);
    assert [] + [AskCheckpoint] == [AskCheckpoint];
    TrustedReadsWhatVerified(note, w.origin);
  }

  lemma AnchoredKeeps(w: World, saved: Option<Option<Note>>, st: Step, kept: seq<Checkpoint>)
    requires Warranted(w, st)
    requires st.err.None? ==>
               && Consistent(w, st.h, {}) && st.h.saved.Some? == saved.Some?
               && forall k <- kept :: Proven(st.h, k)
    ensures match Anchored(st)
            case NotStarted(e) => Holds(w, st.h.asked, e)
            case Started(h) =>
              && Consistent(w, h, {}) && h.anchored && h.asked == st.h.asked
              && h.saved == (if saved == None then None else Some(h.latest.raw))
              && forall k <- kept :: Proven(h, k)
  {}

  /** A checkpoint tied in beside a proof is one the head extends. */
  lemma RelateKeeps(w: World, h: History, note: Note, rounds: nat)
    requires Consistent(w, h, {}) && Heard(w, h.asked, note) && rounds == MAX_RELATE_ATTEMPTS
    ensures var (h', r) := Relate(w, h, note);
            && Consistent(w, h', {}) && Grows(h, h') && |h'.asked| <= |h.asked| + 2 * MAX_RELATE_ATTEMPTS
            && (r.Ok? ==> Proven(h', r.value) && Verify(note, w.origin) == Some(r.value))
            && (r.Err? ==> Holds(w, h'.asked, r.error))
  {
    ServedIsBacked(w, note);
    if Verify(note, w.origin).Some? {
      LinkKeeps(w, h, Verify(note, w.origin).value, rounds, {});
    } else {
      ExtendsItself(h.latest);
    }
  }
}
