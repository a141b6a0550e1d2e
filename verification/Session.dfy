/**
 * One pass's dealings with the log, step by step. Every method leaves the
 * session where the function of History of the same name says.
 */
module Sessions {
  import opened Basics
  import opened Tree
  import opened Checkpoint
  import opened Server
  import opened StateFile
  import opened Feed
  import opened Inclusion
  import H = History
  import Leaf

  type Err = H.Err

  class Session {
    const w: World
    const st: State?
    const waits: Waits
    var anchored: bool
    var latest: Checkpoint
    var bySize: map<nat, Hash>
    var noteBySize: map<nat, Note>
    var asked: seq<Request>
    /** Set in a scheduled pass, which may leave an event pending. */
    var defers: bool
    /** The tree size a pass that records nothing began with. */
    var coveredAtStart: nat
    /** The time already spent re-reading the log. */
    var waited: int

    function Model(): H.History
      reads this, st
    {
      H.History(latest, bySize, noteBySize, anchored, if st == null then None else Some(st.anchor), asked)
    }

    /** What a session leaves alone in the state it was given: the anchor too, until it is anchored. */
    ghost function Rest(): Option<(FeedState, Content, Option<Option<Note>>)>
      reads this, st
    {
      if st == null then None
      else Some((st.FeedModel(), st.loaded, if anchored then None else Some(st.anchor)))
    }

    /** A session that holds the first checkpoint served. */
    constructor (w: World, st: State?, waits: Waits, cp: Checkpoint, note: Note)
      ensures this.w == w && this.st == st && this.waits == waits
      ensures !defers && coveredAtStart == 0 && waited == 0
      ensures Model() == H.Opened(cp, note, if st == null then None else Some(st.anchor))
    {
      this.w, this.st, this.waits := w, st, waits;
      defers, coveredAtStart, waited := false, 0, 0;
      anchored, latest := false, cp;
      bySize, noteBySize := map[cp.size := cp.hash], map[cp.size := note];
      asked := [AskCheckpoint];
    }

    /** Sends one request; what comes back is the server's to choose. */
    method Fetch(req: Request) returns (a: Answer)
      modifies this`asked
      ensures a == w.server(old(asked), req)
      ensures Model() == H.Ask(old(Model()), req)
    {
      a := w.server(asked, req);
      asked := asked + [req];
    }

    /** The finding, if this checkpoint's size is held under another root. */
    method ForkCheck(cp: Checkpoint) returns (e: Option<Err>)
      ensures e == H.ForkCheck(Model(), cp)
    {
      if cp.size !in bySize || bySize[cp.size] == cp.hash {
        return None;
      }
      var note := if cp.size in noteBySize then Some(noteBySize[cp.size]) else None;
      return Some(H.Inconsistent(H.Forked, Checkpoint(cp.size, bySize[cp.size], note), cp, []));
    }

    method Classify(e: Err, older: Checkpoint) returns (r: Err)
      ensures r == H.ClassifyRefusal(Model(), e, older)
    {
      if !H.RefusedProof(e) {
        return e;
      }
      return H.Inconsistent(H.Refused, older, latest, []);
    }

    /** Links a size to a root, and remembers the note behind it if there is one. */
    method Remember(cp: Checkpoint)
      modifies this`bySize, this`noteBySize
      ensures Model() == H.Link1(old(Model()), cp)
    {
      bySize := bySize[cp.size := cp.hash];
      if cp.raw.Some? {
        noteBySize := noteBySize[cp.size := cp.raw.value];
      }
    }

    /** Saves the head, once the session is anchored and if it has a state. */
    method Commit()
      modifies st
      ensures Rest() == old(Rest()) && Model() == H.Commit(old(Model()))
    {
      if st == null || !anchored {
        return;
      }
      st.anchor := latest.raw;
    }

    method SetLatest(cp: Checkpoint)
      modifies this`bySize, this`noteBySize, this`latest, st
      ensures Rest() == old(Rest())
      ensures Model() == H.SetLatest(old(Model()), cp)
    {
      Remember(cp);
      latest := cp;
      Commit();
    }

    method ConsistencyFrom(from: nat) returns (r: Result<(seq<Hash>, Checkpoint), Err>)
      modifies this`asked
      ensures H.ConsistencyFrom(w, old(Model()), from) == (Model(), r)
    {
      var a := Fetch(AskConsistency(from));
      match a
      case StatusAnswer(status) => return Err(H.Unavailable(Some(status)));
      case ProofAnswer(_, hashes, note) =>
        var head := Verify(note, w.origin);
        if head == None {
          return Err(H.BadCheckpoint);
        }
        var fork := ForkCheck(head.value);
        if fork.Some? {
          return Err(fork.value);
        }
        return Ok((hashes, head.value));
      case _ => return Err(H.Unavailable(None));
    }

    method Advance(target: Checkpoint) returns (err: Option<Err>)
      modifies this`asked, this`bySize, this`noteBySize, this`latest, st
      ensures Rest() == old(Rest())
      ensures H.Advance(w, old(Model()), target) == H.Step(Model(), err)
    {
      if latest.size == 0 {
        SetLatest(target); // every tree extends the empty tree
        return None;
      }
      var r := ConsistencyFrom(latest.size);
      if r.Err? {
        var e := Classify(r.error, latest);
        return Some(e);
      }
      var (hashes, head) := r.value;
      if head.size < target.size {
        return None; // behind the target; another round may do better
      }
      if !VerifyConsistency(latest, head, hashes) {
        return Some(H.Inconsistent(H.NotPrefix, latest, head, hashes));
      }
      SetLatest(head);
      err := ForkCheck(target);
    }

    method ProvePrefix(cp: Checkpoint) returns (err: Option<Err>)
      modifies this`asked, this`bySize, this`noteBySize, this`latest, st
      ensures Rest() == old(Rest())
      ensures H.ProvePrefix(w, old(Model()), cp) == H.Step(Model(), err)
    {
      if cp.size == 0 {
        Remember(cp);
        return None;
      }
      var r := ConsistencyFrom(cp.size);
      if r.Err? {
        var e := Classify(r.error, cp);
        return Some(e);
      }
      var (hashes, head) := r.value;
      if head.size > latest.size {
        // The proof in hand leads to head, so latest must become head first.
        err := Advance(head);
        if err.Some? {
          return;
        }
      }
      if !SameTree(head, latest) {
        return None; // lagging or moved again
      }
      if !VerifyConsistency(cp, latest, hashes) {
        return Some(H.Inconsistent(H.NotPrefix, cp, latest, hashes));
      }
      Remember(cp);
      return None;
    }

    /** Ties cp into the session's single history, absorbing a bounded number of moves. */
    method Link(cp: Checkpoint) returns (err: Option<Err>)
      modifies this`asked, this`bySize, this`noteBySize, this`latest, st
      ensures Rest() == old(Rest())
      ensures H.Link(w, old(Model()), cp, H.MAX_RELATE_ATTEMPTS) == H.Step(Model(), err)
    {
      var left: nat := H.MAX_RELATE_ATTEMPTS;
      while left > 0
        invariant Rest() == old(Rest())
        invariant H.Link(w, old(Model()), cp, H.MAX_RELATE_ATTEMPTS) == H.Link(w, Model(), cp, left)
      {
        err := ForkCheck(cp);
        if err.Some? {
          return;
        }
        if cp.size in bySize {
          return None;
        }
        if cp.size > latest.size {
          err := Advance(cp);
        } else {
          err := ProvePrefix(cp);
        }
        if err.Some? {
          return;
        }
        left := left - 1;
      }
      if cp.size in bySize {
        err := ForkCheck(cp);
        return;
      }
      return Some(H.LogAdvancing);
    }

    /** Proves that the head extends a kept checkpoint. */
    method ProveAppendOnly(kept: Checkpoint) returns (err: Option<Err>)
      modifies this`asked, this`bySize, this`noteBySize, this`latest, st
      ensures Rest() == old(Rest())
      ensures H.ProveAppendOnly(w, old(Model()), kept) == H.Step(Model(), err)
    {
      if kept.size <= latest.size {
        err := Link(kept);
        if err.Some? {
          var e := Classify(err.value, kept);
          err := Some(e);
        }
        return;
      }
      var served := latest;
      var r := ConsistencyFrom(kept.size);
      if r.Err? {
        var e := Classify(r.error, kept);
        return Some(e);
      }
      var (hashes, head) := r.value;
      if head.size < kept.size {
        return Some(H.Inconsistent(H.Shrank, kept, head, []));
      }
      if !VerifyConsistency(kept, head, hashes) {
        return Some(H.Inconsistent(H.NotPrefix, kept, head, hashes));
      }
      Remember(kept);
      SetLatest(head);
      // The served checkpoint is linked on its signature alone; it has to be
      // proven part of this history too, so its entry goes first.
      bySize := bySize - {served.size};
      err := Link(served);
      if err.Some? {
        var e := Classify(err.value, served);
        err := Some(e);
      }
    }

    /** Verifies a checkpoint served beside a proof and ties it in. */
    method Relate(note: Note) returns (r: Result<Checkpoint, Err>)
      modifies this`asked, this`bySize, this`noteBySize, this`latest, st
      ensures Rest() == old(Rest())
      ensures H.Relate(w, old(Model()), note) == (Model(), r)
    {
      var cp := Verify(note, w.origin);
      if cp == None {
        return Err(H.BadCheckpoint);
      }
      var err := Link(cp.value);
      if err.Some? {
        return Err(err.value);
      }
      return Ok(cp.value);
    }

    method ProveAll(kept: seq<Checkpoint>) returns (err: Option<Err>)
      modifies this`asked, this`bySize, this`noteBySize, this`latest, st
      ensures Rest() == old(Rest())
      ensures H.ProveAll(w, old(Model()), kept) == H.Step(Model(), err)
    {
      for i := 0 to |kept|
        invariant Rest() == old(Rest())
        invariant H.ProveAll(w, old(Model()), kept) == H.ProveAll(w, Model(), kept[i..])
      {
        assert kept[i..][0] == kept[i] && kept[i..][1..] == kept[i + 1..];
        err := ProveAppendOnly(kept[i]);
        if err.Some? {
          return;
        }
      }
      return None;
    }

    /** Proves every kept checkpoint, then commits to the history they share. */
    method Anchor(kept: seq<Checkpoint>) returns (err: Option<Err>)
      requires !anchored
      modifies this`asked, this`bySize, this`noteBySize, this`latest, this`anchored, st
      ensures st != null ==> st.FeedModel() == old(st.FeedModel()) && st.loaded == old(st.loaded)
      ensures H.Anchored(H.ProveAll(w, old(Model()), kept))
              == if err.Some? then H.NotStarted(err.value) else H.Started(Model())
      ensures err.Some? && st != null ==> st.anchor == old(st.anchor)
    {
      err := ProveAll(kept);
      if err.Some? {
        return;
      }
      anchored := true;
      Commit();
    }

    // -------------------------------------------------------------------
    // One event
    // -------------------------------------------------------------------

    method Inclusion(index: nat) returns (reply: ProofReply)
      modifies this`asked
      ensures AskFor(w, old(Model()), index) == (Model(), reply)
    {
      var a := Fetch(AskInclusion(index));
      return Reply(a);
    }

    /** Re-reads an absent proof until it is served or the wait is spent. */
    method PollProof(index: nat, last: ProofReply) returns (reply: ProofReply)
      requires waits.Valid()
      modifies this`asked, this`waited
      ensures PollFor(w, Watch(old(Model()), old(waited)), waits, index, last) == (Watch(Model(), waited), reply)
    {
      reply := last;
      while waited + waits.poll <= waits.budget
        invariant PollFor(w, Watch(old(Model()), old(waited)), waits, index, last)
               == PollFor(w, Watch(Model(), waited), waits, index, reply)
        decreases waits.budget - waited
      {
        waited := waited + waits.poll;
        reply := Inclusion(index);
        if !IsNotFound(reply) {
          return;
        }
      }
    }

    /** Whether the proof binds one of the leaf hashes, each tried in turn. */
    method BindsOne(cp: Checkpoint, index: nat, leaves: seq<Hash>, hashes: seq<Hash>) returns (bound: bool)
      ensures bound <==> Binds(cp, index, leaves, hashes)
    {
      for i := 0 to |leaves|
        invariant forall k :: 0 <= k < i ==> !VerifyInclusion(cp, index, leaves[k], hashes)
      {
        if VerifyInclusion(cp, index, leaves[i], hashes) {
          return true;
        }
      }
      return false;
    }

    /** Rules on the log's reply about an index. */
    method JudgeReply(id: Text, index: nat, leaves: seq<Hash>, reply: ProofReply, owed: bool) returns (v: Verdict)
      modifies this`asked, this`bySize, this`noteBySize, this`latest, st
      ensures Rest() == old(Rest())
      ensures Judge(w, old(Model()), id, index, leaves, reply, owed) == (Model(), v)
    {
      match reply
      case NoProof(status) =>
        if status == Some(404) {
          if owed {
            return Ok((Pending, Some(EventFailure(id, Some(index), NoProofServed))));
          }
          return Ok((Pending, None));
        }
        if H.RefusedProof(H.Unavailable(status)) {
          return Ok((Pending, Some(EventFailure(id, Some(index), ProofRefused))));
        }
        return Err(H.Unavailable(status));
      case Proof(leafIndex, hashes, note) =>
        if leafIndex != index {
          return Ok((Pending, Some(EventFailure(id, Some(index), WrongLeafProven))));
        }
        var r := Relate(note);
        if r.Err? {
          return Err(r.error);
        }
        var bound := BindsOne(r.value, index, leaves, hashes);
        if bound {
          return Ok((Verified, None));
        }
        return Ok((Pending, Some(EventFailure(id, Some(index), NotCommitted))));
    }

    /** What a check of one event by this session comes to. */
    ghost predicate Checked(before: Watch, after: Watch, v: Verdict, id: Text, index: nat, leaves: seq<Hash>)
      requires waits.Valid()
      reads this`defers, this`coveredAtStart
    {
      if defers then CheckInclusion(w, before.h, id, index, leaves) == (after.h, v) && after.waited == before.waited
      else CheckInclusionNow(w, before, waits, coveredAtStart, id, index, leaves) == (after, v)
    }

    /** Checks the log's proof for an index against each leaf hash; one match verifies it. */
    method VerifyInclusions(id: Text, index: nat, leaves: seq<Hash>) returns (v: Verdict)
      requires waits.Valid()
      modifies this`asked, this`bySize, this`noteBySize, this`latest, this`waited, st
      ensures Rest() == old(Rest())
      ensures Checked(Watch(old(Model()), old(waited)), Watch(Model(), waited), v, id, index, leaves)
    {
      var owed := !defers && index < coveredAtStart;
      var reply := Inclusion(index);
      if IsNotFound(reply) && owed {
        reply := PollProof(index, reply);
      }
      v := JudgeReply(id, index, leaves, reply, owed);
    }

    /** Verifies one parsed event's inclusion. */
    method VerifyEvent(ev: Leaf.Event) returns (v: Verdict)
      requires waits.Valid()
      modifies this`asked, this`bySize, this`noteBySize, this`latest, this`waited, st
      ensures Rest() == old(Rest())
      ensures defers ==> CheckEvent(w, old(Model()), ev) == (Model(), v) && waited == old(waited)
      ensures !defers ==>
                CheckEventNow(w, Watch(old(Model()), old(waited)), waits, coveredAtStart, ev) == (Watch(Model(), waited), v)
    {
      if ev.organization != w.org {
        return Ok((Pending, Some(EventFailure(ev.id, ev.index, OtherOrganization))));
      }
      if ev.index == None {
        return Ok((NotLogged, None));
      }
      if ev.index.value >= latest.size {
        return Ok((Pending, None));
      }
      var hashes := Leaf.Hashes(ev);
      v := VerifyInclusions(ev.id, ev.index.value, hashes);
    }
  }

  /** The first checkpoint the log serves, verified. */
  ghost predicate Serves(w: World, r: Result<(Checkpoint, Note), Err>) {
    match w.server([], AskCheckpoint)
    case NoteAnswer(note) => r == (if Verify(note, w.origin).Some? then Ok((Verify(note, w.origin).value, note)) else Err(H.BadCheckpoint))
    case StatusAnswer(status) => r == Err(H.Unavailable(Some(status)))
    case _ => r == Err(H.Unavailable(None))
  }

  method First(w: World) returns (r: Result<(Checkpoint, Note), Err>)
    ensures Serves(w, r)
  {
    var a := w.server([], AskCheckpoint);
    if !a.NoteAnswer? {
      return Err(H.Unavailable(if a.StatusAnswer? then Some(a.status) else None));
    }
    var cp := Verify(a.note, w.origin);
    if cp == None {
      return Err(H.BadCheckpoint);
    }
    return Ok((cp.value, a.note));
  }

  /** The checkpoint an earlier run left, if any. */
  ghost predicate Keeps(w: World, saved: Option<Option<Note>>, r: Result<seq<Checkpoint>, Err>) {
    match H.SavedCheckpoint(w, saved)
    case None => r == Ok([])
    case Some(Ok(cp)) => r == Ok([cp])
    case Some(Err(e)) => r == Err(e)
  }

  lemma StartsNot(w: World, saved: Option<Option<Note>>, baselines: seq<Checkpoint>, first: Result<(Checkpoint, Note), Err>, kept: Result<seq<Checkpoint>, Err>)
    requires Serves(w, first) && (first.Err? || (kept.Err? && Keeps(w, saved, kept)))
    ensures H.Start(w, saved, baselines) == H.NotStarted(if first.Err? then first.error else kept.error)
  {}

  lemma StartsFrom(w: World, saved: Option<Option<Note>>, baselines: seq<Checkpoint>, cp: Checkpoint, note: Note, kept: seq<Checkpoint>)
    requires Serves(w, Ok((cp, note))) && Keeps(w, saved, Ok(kept))
    ensures H.Start(w, saved, baselines) == H.Anchored(H.ProveAll(w, H.Opened(cp, note, saved), kept + baselines))
  {
    assert [] + baselines == baselines;
  }

  method Kept(w: World, st: State?) returns (r: Result<seq<Checkpoint>, Err>)
    ensures Keeps(w, if st == null then None else Some(st.anchor), r)
  {
    if st == null || st.anchor == None {
      return Ok([]);
    }
    var anchor := ParseTrusted(st.anchor.value, w.origin);
    if anchor == None {
      return Err(H.SavedUnreadable);
    }
    return Ok([anchor.value]);
  }

  /** How the start of a pass ended. */
  ghost predicate Begun(w: World, st: State?, start: H.Started, s: Session?, err: Option<Err>)
    reads s, st
  {
    match start
    case NotStarted(e) => err == Some(e) && s == null
    case Started(h) =>
      && err == None && s != null && s.w == w && s.st == st && s.Model() == h
      && !s.defers && s.coveredAtStart == 0 && s.waited == 0
  }

  /**
   * Fetches the latest checkpoint and proves the log only appended since the
   * saved one and every baseline; the anchor is committed at once.
   */
  method Start(w: World, st: State?, waits: Waits, baselines: seq<Checkpoint>) returns (s: Session?, err: Option<Err>)
    modifies st
    ensures st != null ==> st.FeedModel() == old(st.FeedModel()) && st.loaded == old(st.loaded)
    ensures Begun(w, st, H.Start(w, old(if st == null then None else Some(st.anchor)), baselines), s, err)
    ensures s != null ==> fresh(s) && s.waits == waits
    ensures s == null && st != null ==> st.anchor == old(st.anchor)
  {
    s := null;
    ghost var saved := if st == null then None else Some(st.anchor);
    var first := First(w);
    if first.Err? {
      StartsNot(w, saved, baselines, first, Ok([]));
      return null, Some(first.error);
    }
    var kept := Kept(w, st);
    if kept.Err? {
      StartsNot(w, saved, baselines, first, kept);
      return null, Some(kept.error);
    }
    StartsFrom(w, saved, baselines, first.value.0, first.value.1, kept.value);
    var session := new Session(w, st, waits, first.value.0, first.value.1);
    err := session.Anchor(kept.value + baselines);
    if err.None? {
      s := session;
    }
  }
}
