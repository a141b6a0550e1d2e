/**
 * Two servers that differ in nothing but the activity feed are one log: to
 * everything but the reading of pages they look alike.
 */
module SameLog {
  import opened Basics
  import opened Checkpoint
  import opened Server
  import opened History
  import opened Inclusion
  import opened Feed
  import Leaf
  import Tree

  /** The same log and trust, and the same answers to everything but feed requests. */
  ghost predicate SameButFeed(w: World, v: World) {
    && v.origin == w.origin && v.org == w.org
    && forall asked: seq<Request>, req: Request :: !req.AskActivities? ==> v.server(asked, req) == w.server(asked, req)
  }

  lemma SameConsistencyFrom(w: World, v: World, h: History, from: nat)
    requires SameButFeed(w, v)
    ensures ConsistencyFrom(v, h, from) == ConsistencyFrom(w, h, from)
  {
    assert v.server(h.asked, AskConsistency(from)) == w.server(h.asked, AskConsistency(from));
  }

  lemma SameAdvance(w: World, v: World, h: History, target: Checkpoint)
    requires SameButFeed(w, v)
    ensures Advance(v, h, target) == Advance(w, h, target)
  {
    SameConsistencyFrom(w, v, h, h.latest.size);
  }

  lemma SameProvePrefix(w: World, v: World, h: History, cp: Checkpoint)
    requires SameButFeed(w, v)
    ensures ProvePrefix(v, h, cp) == ProvePrefix(w, h, cp)
  {
    SameConsistencyFrom(w, v, h, cp.size);
    var (h1, r) := ConsistencyFrom(w, h, cp.size);
    if r.Ok? {
      SameAdvance(w, v, h1, r.value.1);
    }
  }

  lemma {:induction false} SameLink(w: World, v: World, h: History, cp: Checkpoint, rounds: nat)
    requires SameButFeed(w, v)
    ensures Link(v, h, cp, rounds) == Link(w, h, cp, rounds)
    decreases rounds
  {
    if rounds > 0 && ForkCheck(h, cp).None? && cp.size !in h.bySize {
      SameAdvance(w, v, h, cp);
      SameProvePrefix(w, v, h, cp);
      var st := if cp.size > h.latest.size then Advance(w, h, cp) else ProvePrefix(w, h, cp);
      if st.err.None? {
        SameLink(w, v, st.h, cp, rounds - 1);
      }
    }
  }

  lemma SameRelate(w: World, v: World, h: History, note: Note, rounds: nat)
    requires SameButFeed(w, v) && rounds == MAX_RELATE_ATTEMPTS
    ensures Relate(v, h, note) == Relate(w, h, note)
  {
    if Verify(note, w.origin).Some? {
      SameLink(w, v, h, Verify(note, w.origin).value, rounds);
    }
  }

  lemma SameProveAppendOnly(w: World, v: World, h: History, kept: Checkpoint, rounds: nat)
    requires SameButFeed(w, v) && rounds == MAX_RELATE_ATTEMPTS
    ensures ProveAppendOnly(v, h, kept) == ProveAppendOnly(w, h, kept)
  {
    SameConsistencyFrom(w, v, h, kept.size);
    SameLink(w, v, h, kept, rounds);
    var (h1, r) := ConsistencyFrom(w, h, kept.size);
    if r.Ok? {
      SameLink(w, v, PastServed(h1, kept, r.value.1), h.latest, rounds);
    }
  }

  lemma {:induction false} SameProveAll(w: World, v: World, h: History, kept: seq<Checkpoint>)
    requires SameButFeed(w, v)
    ensures ProveAll(v, h, kept) == ProveAll(w, h, kept)
    decreases |kept|
  {
    if kept != [] {
      SameProveAppendOnly(w, v, h, kept[0], MAX_RELATE_ATTEMPTS);
      var st := ProveAppendOnly(w, h, kept[0]);
      if st.err.None? {
        SameProveAll(w, v, st.h, kept[1..]);
      }
    }
  }

  lemma SameStart(w: World, v: World, saved: Option<Option<Note>>, baselines: seq<Checkpoint>)
    requires SameButFeed(w, v)
    ensures Start(v, saved, baselines) == Start(w, saved, baselines)
  {
    assert v.server([], AskCheckpoint) == w.server([], AskCheckpoint);
    var a := w.server([], AskCheckpoint);
    if a.NoteAnswer? && Verify(a.note, w.origin).Some? {
      var h := Opened(Verify(a.note, w.origin).value, a.note, saved);
      var anchor := SavedCheckpoint(w, saved);
      SameProveAll(w, v, h, baselines);
      if anchor.Some? && anchor.value.Ok? {
        SameProveAll(w, v, h, [anchor.value.value] + baselines);
      }
    }
  }

  lemma SameCheckInclusion(w: World, v: World, h: History, id: Text, index: nat, leaves: seq<Tree.Hash>)
    requires SameButFeed(w, v)
    ensures CheckInclusion(v, h, id, index, leaves) == CheckInclusion(w, h, id, index, leaves)
  {
    assert v.server(h.asked, AskInclusion(index)) == w.server(h.asked, AskInclusion(index));
    var (h1, reply) := AskFor(w, h, index);
    if reply.Proof? {
      SameRelate(w, v, h1, reply.note, MAX_RELATE_ATTEMPTS);
    }
  }

  lemma SameCheckEvent(w: World, v: World, h: History, ev: Leaf.Event)
    requires SameButFeed(w, v)
    ensures CheckEvent(v, h, ev) == CheckEvent(w, h, ev)
  {
    if Claim(w.org, h.latest.size, ev) == None {
      SameCheckInclusion(w, v, h, ev.id, ev.index.value, Leaf.Hashes(ev));
    }
  }

  lemma LogExamine(w: World, v: World, p: Pass, se: Served, c: Clock)
    requires SameButFeed(w, v)
    ensures Examine(v, p, se, c) == Examine(w, p, se, c)
  {
    SameCheckEvent(w, v, p.h, se.ev);
  }

  lemma LogAdmit(w: World, v: World, p: Pass, se: Served, c: Clock)
    requires SameButFeed(w, v)
    ensures Admit(v, p, se, c) == Admit(w, p, se, c)
  {
    var p1 := p.(seen := p.seen[se.ev.id := se]);
    LogExamine(w, v, Listed(p1, se.ev.id), se, c);
    LogExamine(w, v, Listed(p1.(reverifying := p1.reverifying + {se.ev.id}), se.ev.id), se, c);
  }

  lemma LogProcess(w: World, v: World, p: Pass, se: Served, c: Clock)
    requires SameButFeed(w, v)
    ensures Process(v, p, se, c) == Process(w, p, se, c)
  {
    var p1 := p.(highWater := Raised(p.highWater, se.created, c.now));
    LogAdmit(w, v, p1, se, c);
    LogAdmit(w, v, Retract(p1, se.ev.id), se, c);
  }

  lemma {:induction false} LogProcessAll(w: World, v: World, p: Pass, ses: seq<Served>, c: Clock)
    requires SameButFeed(w, v)
    ensures ProcessAll(v, p, ses, c) == ProcessAll(w, p, ses, c)
    decreases |ses|
  {
    if ses != [] {
      LogProcess(w, v, p, ses[0], c);
      var st := Process(w, p, ses[0], c);
      if st.err.None? {
        LogProcessAll(w, v, st.p, ses[1..], c);
      }
    }
  }

  lemma LogRecheck1(w: World, v: World, p: Pass, id: Id, c: Clock)
    requires SameButFeed(w, v)
    ensures Recheck1(v, p, id, c) == Recheck1(w, p, id, c)
  {
    if id !in p.listed && id in p.feed.pending {
      var pe := p.feed.pending[id];
      SameCheckInclusion(w, v, p.h, id, pe.index, PendingHashes(pe));
    }
  }

  lemma {:induction false} LogRecheckAll(w: World, v: World, p: Pass, ids: seq<Id>, c: Clock)
    requires SameButFeed(w, v)
    ensures RecheckAll(v, p, ids, c) == RecheckAll(w, p, ids, c)
    decreases |ids|
  {
    if ids != [] {
      LogRecheck1(w, v, p, ids[0], c);
      var st := Recheck1(w, p, ids[0], c);
      if st.err.None? {
        LogRecheckAll(w, v, st.p, ids[1..], c);
      }
    }
  }
}
