/** Verdicts on one event: what an inclusion proof shows, and what its absence does. */
module Inclusion {
  import opened Basics
  import opened Tree
  import opened Checkpoint
  import opened Server
  import opened History
  import Leaf

  datatype Outcome = Verified | NotLogged | Pending

  datatype Reason =
    | CannotRebuild
    | OtherOrganization
    | NoProofServed
    | ProofRefused
    | WrongLeafProven
    | NotCommitted
    | TwoIndices
    | TwoContents
    | WithdrawnIndex
    | MovedIndex
    | ReservedWithoutProof
    | ServedDifferently
    | VerifiesDifferently
    | GraceExpired

  datatype EventFailure = EventFailure(id: Text, index: Option<nat>, reason: Reason)

  /** An outcome or a finding about the event, or an error that ends the pass. */
  type Verdict = Result<(Outcome, Option<EventFailure>), Err>

  /** One answer to an inclusion request. */
  datatype ProofReply = Proof(leafIndex: nat, hashes: seq<Hash>, note: Note) | NoProof(status: Option<nat>)

  function Reply(a: Answer): ProofReply {
    match a
    case ProofAnswer(leafIndex, hashes, note) => Proof(leafIndex, hashes, note)
    case StatusAnswer(status) => NoProof(Some(status))
    case _ => NoProof(None)
  }

  predicate IsNotFound(r: ProofReply) {
    r == NoProof(Some(404))
  }

  /** Waiting: how long a pass may re-read the log, and how often. */
  datatype Waits = Waits(poll: int, budget: int) {
    predicate Valid() { poll > 0 }
  }

  /** A session's history with the time it has spent re-reading. */
  datatype Watch = Watch(h: History, waited: int)

  function AskFor(w: World, h: History, index: nat): (History, ProofReply) {
    (Ask(h, AskInclusion(index)), Reply(w.server(h.asked, AskInclusion(index))))
  }

  /** Re-reads an absent proof until it is served or the budget is spent. */
  function PollFor(w: World, s: Watch, waits: Waits, index: nat, last: ProofReply): (Watch, ProofReply)
    requires waits.Valid()
    decreases waits.budget - s.waited
  {
    if s.waited + waits.poll > waits.budget then (s, last)
    else
      var (h1, reply) := AskFor(w, s.h, index);
      var s1 := Watch(h1, s.waited + waits.poll);
      if IsNotFound(reply) then PollFor(w, s1, waits, index, reply) else (s1, reply)
  }

  /** Whether the proof binds one of the leaf hashes at this index. */
  predicate Binds(cp: Checkpoint, index: nat, leaves: seq<Hash>, hashes: seq<Hash>) {
    exists i :: 0 <= i < |leaves| && VerifyInclusion(cp, index, leaves[i], hashes)
  }

  /** What a reply means; `owed` when the log can be held to serving a proof. */
  function Judge(w: World, h: History, id: Text, index: nat, leaves: seq<Hash>, reply: ProofReply, owed: bool): (History, Verdict) {
    match reply
    case NoProof(status) =>
      if IsNotFound(reply) then
        if owed then (h, Ok((Pending, Some(EventFailure(id, Some(index), NoProofServed))))) else (h, Ok((Pending, None)))
      else if RefusedProof(Unavailable(status)) then (h, Ok((Pending, Some(EventFailure(id, Some(index), ProofRefused)))))
      else (h, Err(Unavailable(status)))
    case Proof(leafIndex, hashes, note) =>
      if leafIndex != index then (h, Ok((Pending, Some(EventFailure(id, Some(index), WrongLeafProven)))))
      else
        var (h1, r) := Relate(w, h, note);
        match r
        case Err(e) => (h1, Err(e))
        case Ok(cp) =>
          if Binds(cp, index, leaves, hashes) then (h1, Ok((Verified, None)))
          else (h1, Ok((Pending, Some(EventFailure(id, Some(index), NotCommitted)))))
  }

  /** The check of a scheduled pass, which may leave an event pending. */
  function CheckInclusion(w: World, h: History, id: Text, index: nat, leaves: seq<Hash>): (History, Verdict) {
    var (h1, reply) := AskFor(w, h, index);
    Judge(w, h1, id, index, leaves, reply, false)
  }

  /** The check of a pass that records nothing and began with `covered` leaves published. */
  function CheckInclusionNow(w: World, s: Watch, waits: Waits, covered: nat, id: Text, index: nat, leaves: seq<Hash>): (Watch, Verdict)
    requires waits.Valid()
  {
    var (h1, first) := AskFor(w, s.h, index);
    var owed := index < covered;
    var (s2, reply) := if IsNotFound(first) && owed then PollFor(w, Watch(h1, s.waited), waits, index, first) else (Watch(h1, s.waited), first);
    var (h3, v) := Judge(w, s2.h, id, index, leaves, reply, owed);
    (Watch(h3, s2.waited), v)
  }

  /** What an event's own claims settle without asking. */
  function Claim(org: Text, size: nat, ev: Leaf.Event): Option<(Outcome, Option<EventFailure>)> {
    if ev.organization != org then Some((Pending, Some(EventFailure(ev.id, ev.index, OtherOrganization))))
    else if ev.index == None then Some((NotLogged, None))
    else if ev.index.value >= size then Some((Pending, None))
    else None
  }

  function CheckEvent(w: World, h: History, ev: Leaf.Event): (History, Verdict) {
    match Claim(w.org, h.latest.size, ev)
    case Some(v) => (h, Ok(v))
    case None => CheckInclusion(w, h, ev.id, ev.index.value, Leaf.Hashes(ev))
  }

  function CheckEventNow(w: World, s: Watch, waits: Waits, covered: nat, ev: Leaf.Event): (Watch, Verdict)
    requires waits.Valid()
  {
    match Claim(w.org, s.h.latest.size, ev)
    case Some(v) => (s, Ok(v))
    case None => CheckInclusionNow(w, s, waits, covered, ev.id, ev.index.value, Leaf.Hashes(ev))
  }

  // ---------------------------------------------------------------------
  // Verified means committed
  // ---------------------------------------------------------------------

  /** One of these hashes is the leaf the head commits to at the index. */
  ghost predicate CommitsTo(head: Checkpoint, index: nat, leaves: seq<Hash>) {
    exists leaf <- leaves :: Committed(head, index) == Some(leaf)
  }

  /** What a head commits to, every extension commits to. */
  lemma CommitsLater(head: Checkpoint, later: Checkpoint, index: nat, leaves: seq<Hash>)
    requires CommitsTo(head, index, leaves) && Extends(later, head)
    ensures CommitsTo(later, index, leaves)
  {
    ExtensionKeepsLeaves(later, head, index);
  }

  /** A step of a pass: the history stays consistent and only grows. */
  ghost predicate Sound(w: World, h: History, h': History) {
    Consistent(w, h', {}) && Grows(h, h')
  }

  lemma SoundTransitive(w: World, a: History, b: History, c: History)
    requires Sound(w, a, b) && Sound(w, b, c)
    ensures Sound(w, a, c)
  {
    GrowsTransitive(a, b, c);
  }

  lemma SoundItself(w: World, h: History)
    requires Consistent(w, h, {})
    ensures Sound(w, h, h)
  {
    ExtendsItself(h.latest);
  }

  lemma BoundIsCommitted(h: History, cp: Checkpoint, index: nat, leaves: seq<Hash>, hashes: seq<Hash>)
    requires Extends(h.latest, cp) && Binds(cp, index, leaves, hashes)
    ensures CommitsTo(h.latest, index, leaves)
  {
    var i :| 0 <= i < |leaves| && VerifyInclusion(cp, index, leaves[i], hashes);
    InclusionSound(cp, index, leaves[i], hashes);
    ExtensionKeepsLeaves(h.latest, cp, index);
    assert leaves[i] in leaves;
  }

  lemma JudgeIsSound(w: World, h: History, id: Text, index: nat, leaves: seq<Hash>, reply: ProofReply, owed: bool)
    requires Consistent(w, h, {})
    requires reply.Proof? ==> Heard(w, h.asked, reply.note)
    ensures var (h', v) := Judge(w, h, id, index, leaves, reply, owed);
            && Sound(w, h, h')
            && (v.Ok? && v.value == (Verified, None) ==> CommitsTo(h'.latest, index, leaves))
            && (v.Ok? && v.value.0 == Verified ==> v.value.1 == None)
            && (v.Ok? && v.value.1 == None ==> v.value.0 != NotLogged)
            && (v.Ok? && v.value.1.Some? ==> v.value.1.value.id == id)
            && (v.Err? ==> Holds(w, h'.asked, v.error))
  {
    SoundItself(w, h);
    if reply.Proof? && reply.leafIndex == index {
      RelateKeeps(w, h, reply.note, MAX_RELATE_ATTEMPTS);
      var (h1, r) := Relate(w, h, reply.note);
      if r.Ok? && Binds(r.value, index, leaves, reply.hashes) {
        BoundIsCommitted(h1, r.value, index, leaves, reply.hashes);
      }
    }
  }

  lemma AskForIsSound(w: World, h: History, index: nat)
    requires Consistent(w, h, {})
    ensures var (h1, reply) := AskFor(w, h, index);
            Sound(w, h, h1) && (reply.Proof? ==> Heard(w, h1.asked, reply.note))
  {
    AskKeeps(w, h, AskInclusion(index), {});
    var a := w.server(h.asked, AskInclusion(index));
    if a.ProofAnswer? {
      HeardNow(w, h.asked, AskInclusion(index), a.note);
    }
  }

  ghost predicate SoundReply(w: World, h: History, h': History, reply: ProofReply) {
    Sound(w, h, h') && (reply.Proof? ==> Heard(w, h'.asked, reply.note))
  }

  /** Time is spent only within the budget. */
  ghost predicate InBudget(s: Watch, s': Watch, waits: Waits) {
    s'.waited == s.waited || s.waited < s'.waited <= waits.budget
  }

  lemma {:induction false} PollForIsSound(w: World, s: Watch, waits: Waits, index: nat, last: ProofReply)
    requires waits.Valid() && Consistent(w, s.h, {}) && !last.Proof?
    ensures var p := PollFor(w, s, waits, index, last); SoundReply(w, s.h, p.0.h, p.1) && InBudget(s, p.0, waits)
    decreases waits.budget - s.waited
  {
    if s.waited + waits.poll > waits.budget {
      SoundItself(w, s.h);
    } else {
      AskForIsSound(w, s.h, index);
      var a := AskFor(w, s.h, index);
      var s1 := Watch(a.0, s.waited + waits.poll);
      if IsNotFound(a.1) {
        PollForIsSound(w, s1, waits, index, a.1);
        SoundReplyLater(w, s.h, a.0, PollFor(w, s1, waits, index, a.1));
      }
    }
  }

  lemma SoundReplyLater(w: World, a: History, b: History, p: (Watch, ProofReply))
    requires Sound(w, a, b) && SoundReply(w, b, p.0.h, p.1)
    ensures SoundReply(w, a, p.0.h, p.1)
  {
    SoundTransitive(w, a, b, p.0.h);
  }

  /** What every check of an event leaves: a sound history, and the leaf in place if it verified. */
  ghost predicate CheckedSoundly(w: World, h: History, h': History, v: Verdict, id: Text, index: Option<nat>, leaves: seq<Hash>) {
    && Sound(w, h, h')
    && (v.Ok? && v.value.0 == Verified ==> v.value.1 == None && index.Some? && CommitsTo(h'.latest, index.value, leaves))
    && (v.Ok? && v.value == (NotLogged, None) ==> index == None)
    && (v.Ok? && v.value == (Pending, None) ==> index.Some?)
    && (v.Ok? && v.value.1.Some? ==> v.value.1.value.id == id)
    && (v.Err? ==> Holds(w, h'.asked, v.error))
  }

  lemma CheckInclusionIsSound(w: World, h: History, id: Text, index: nat, leaves: seq<Hash>)
    requires Consistent(w, h, {})
    ensures var (h', v) := CheckInclusion(w, h, id, index, leaves);
            CheckedSoundly(w, h, h', v, id, Some(index), leaves)
  {
    AskForIsSound(w, h, index);
    var (h1, reply) := AskFor(w, h, index);
    JudgeIsSound(w, h1, id, index, leaves, reply, false);
    SoundTransitive(w, h, h1, Judge(w, h1, id, index, leaves, reply, false).0);
  }

  lemma CheckEventIsSound(w: World, h: History, ev: Leaf.Event)
    requires Consistent(w, h, {})
    ensures var (h', v) := CheckEvent(w, h, ev);
            && CheckedSoundly(w, h, h', v, ev.id, ev.index, Leaf.Hashes(ev))
            && (v.Ok? && v.value.1 == None ==> ev.organization == w.org)
  {
    SoundItself(w, h);
    if Claim(w.org, h.latest.size, ev) == None {
      CheckInclusionIsSound(w, h, ev.id, ev.index.value, Leaf.Hashes(ev));
    }
  }

  lemma CheckInclusionNowIsSound(w: World, s: Watch, waits: Waits, covered: nat, id: Text, index: nat, leaves: seq<Hash>)
    requires waits.Valid() && Consistent(w, s.h, {})
    ensures var (s', v) := CheckInclusionNow(w, s, waits, covered, id, index, leaves);
            CheckedSoundly(w, s.h, s'.h, v, id, Some(index), leaves) && InBudget(s, s', waits)
  {
    AskForIsSound(w, s.h, index);
    var (h1, first) := AskFor(w, s.h, index);
    var owed := index < covered;
    var (s2, reply) := if IsNotFound(first) && owed then PollFor(w, Watch(h1, s.waited), waits, index, first) else (Watch(h1, s.waited), first);
    if IsNotFound(first) && owed {
      PollForIsSound(w, Watch(h1, s.waited), waits, index, first);
      SoundTransitive(w, s.h, h1, s2.h);
    }
    JudgeIsSound(w, s2.h, id, index, leaves, reply, owed);
    SoundTransitive(w, s.h, s2.h, Judge(w, s2.h, id, index, leaves, reply, owed).0);
  }

  lemma CheckEventNowIsSound(w: World, s: Watch, waits: Waits, covered: nat, ev: Leaf.Event)
    requires waits.Valid() && Consistent(w, s.h, {})
    ensures var (s', v) := CheckEventNow(w, s, waits, covered, ev);
            && CheckedSoundly(w, s.h, s'.h, v, ev.id, ev.index, Leaf.Hashes(ev))
            && (v.Ok? && v.value.1 == None ==> ev.organization == w.org)
            && InBudget(s, s', waits)
  {
    SoundItself(w, s.h);
    if Claim(w.org, s.h.latest.size, ev) == None {
      CheckInclusionNowIsSound(w, s, waits, covered, ev.id, ev.index.value, Leaf.Hashes(ev));
    }
  }
}
