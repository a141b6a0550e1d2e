/** Checking a file of supplied events, step by step, against what Events says it finds. */
module EventCheck {
  import opened Basics
  import opened Checkpoint
  import opened Server
  import opened StateFile
  import opened Sessions
  import opened Inclusion
  import opened Events
  import H = History
  import Leaf

  /** Sorts the rows into what is to be verified, what already failed, and what is not ours. */
  method SiftRows(rows: seq<Row>, probe: Prober) returns (s: Sifted)
    ensures s == Sift(rows, probe)
  {
    var seen: map<Id, Leaf.Event>, parsed: seq<Leaf.Event>, failed: seq<EventFailure>, skipped := map[], [], [], 0;
    for i := 0 to |rows|
      invariant Sifted(seen, parsed, failed, skipped) == Sift(rows[..i], probe)
    {
      var row := rows[i];
      assert rows[..i + 1][..i] == rows[..i];
      var p := probe(row.raw);
      if p.OtherType? {
        skipped := skipped + 1;
        continue;
      }
      if p.Unreadable? || p.ev == None {
        failed := failed + [EventFailure(row.name, None, CannotRebuild)];
        continue;
      }
      var ev := p.ev.value;
      var dup := ev.id in seen;
      var bothPlaced := dup && seen[ev.id].index.Some? && ev.index.Some?;
      if bothPlaced && seen[ev.id].index != ev.index {
        failed := failed + [EventFailure(ev.id, seen[ev.id].index, TwoIndices)];
        continue;
      }
      if bothPlaced && Leaf.Hash(seen[ev.id]) != Leaf.Hash(ev) {
        failed := failed + [EventFailure(ev.id, seen[ev.id].index, TwoContents)];
        continue;
      }
      if !dup || (seen[ev.id].index == None && ev.index.Some?) {
        seen := seen[ev.id := ev];
      }
      parsed := parsed + [ev];
    }
    assert rows[..|rows|] == rows;
    s := Sifted(seen, parsed, failed, skipped);
  }

  method Wanted(evs: seq<Leaf.Event>) returns (want: nat)
    ensures want == Want(evs)
  {
    want := 0;
    for i := 0 to |evs|
      invariant want == Want(evs[..i])
    {
      assert evs[..i + 1][..i] == evs[..i];
      if evs[i].index.Some? && Covering(evs[i].index.value) > want {
        want := Covering(evs[i].index.value);
      }
    }
    assert evs[..|evs|] == evs;
  }

  /** Reads the checkpoint endpoint once more and ties what it serves into the session. */
  method RereadCheckpoint(s: Session) returns (err: Option<H.Err>)
    modifies s`asked, s`bySize, s`noteBySize, s`latest, s.st
    ensures s.Rest() == old(s.Rest())
    ensures Reread(s.w, old(s.Model())) == (s.Model(), err)
  {
    var a := s.Fetch(AskCheckpoint);
    match a
    case StatusAnswer(status) => return Some(H.Unavailable(Some(status)));
    case NoteAnswer(note) =>
      var r := s.Relate(note);
      if r.Err? {
        return Some(r.error);
      }
      return None;
    case _ => return Some(H.Unavailable(None));
  }

  /** One round of waiting. */
  lemma AwaitRound(s: Watch, waits: Waits, want: nat, try: Try, h1: H.History, err: Option<H.Err>)
    requires waits.Valid() && s.waited + waits.poll <= waits.budget && try(s.h) == (h1, err)
    ensures var s1 := Watch(h1, s.waited + waits.poll);
            Await(s, waits, want, try) == if err.Some? || h1.latest.size >= want then (s1, err) else Await(s1, waits, want, try)
  {}

  /** Lets one more poll interval pass and reads the checkpoint again. */
  method WaitOnce(s: Session, want: nat) returns (done: bool, err: Option<H.Err>)
    requires s.waits.Valid() && s.waited + s.waits.poll <= s.waits.budget
    modifies s`asked, s`bySize, s`noteBySize, s`latest, s`waited, s.st
    ensures s.Rest() == old(s.Rest()) && s.waited == old(s.waited) + s.waits.poll
    ensures Await(old(Watch(s.Model(), s.waited)), s.waits, want, Rereading(s.w))
            == if done then (Watch(s.Model(), s.waited), err)
               else Await(Watch(s.Model(), s.waited), s.waits, want, Rereading(s.w))
  {
    ghost var before := Watch(s.Model(), s.waited);
    s.waited := s.waited + s.waits.poll;
    err := RereadCheckpoint(s);
    AwaitRound(before, s.waits, want, Rereading(s.w), s.Model(), err);
    done := err.Some? || s.latest.size >= want;
  }

  /** Waits until the head covers `want` entries, within the budget. */
  method AwaitCovering(s: Session, want: nat) returns (err: Option<H.Err>)
    requires s.waits.Valid()
    modifies s`asked, s`bySize, s`noteBySize, s`latest, s`waited, s.st
    ensures s.Rest() == old(s.Rest())
    ensures AwaitCoverage(s.w, old(Watch(s.Model(), s.waited)), s.waits, want) == (Watch(s.Model(), s.waited), err)
  {
    err := None;
    if s.latest.size >= want {
      return;
    }
    ghost var began := Watch(s.Model(), s.waited);
    while s.waited + s.waits.poll <= s.waits.budget
      invariant s.Rest() == old(s.Rest()) && err == None
      invariant Await(began, s.waits, want, Rereading(s.w)) == Await(Watch(s.Model(), s.waited), s.waits, want, Rereading(s.w))
      decreases s.waits.budget - s.waited
    {
      var done;
      done, err := WaitOnce(s, want);
      if done {
        return;
      }
      err := None;
    }
  }

  /** One event of a look. */
  lemma LookRound(check: Checker, s: Watch, evs: seq<Leaf.Event>, i: nat, last: bool, s1: Watch, v: Verdict)
    requires i < |evs| && check(s, evs[i]) == (s1, v)
    ensures Look(check, s, evs[i..], last)
            == if v.Err? then Looked(s1, [], [], Some(v.error))
               else if !last && v.value == (Pending, None) then Before([], [evs[i]], Look(check, s1, evs[i + 1..], last))
               else Before([Tally(evs[i], v.value.0, v.value.1)], [], Look(check, s1, evs[i + 1..], last))
  {
    assert evs[i..][0] == evs[i] && evs[i..][1..] == evs[i + 1..];
  }

  lemma BeforeMore(tally: seq<Tally>, more: seq<Tally>, deferred: seq<Leaf.Event>, later: seq<Leaf.Event>, rest: Looked)
    ensures Before(tally, deferred, Before(more, later, rest)) == Before(tally + more, deferred + later, rest)
  {
    assert tally + (more + rest.tally) == tally + more + rest.tally;
    assert deferred + (later + rest.deferred) == deferred + later + rest.deferred;
  }

  /** Looks at each event in turn; unless it is the last look, pending ones are held back. */
  method LookAt(s: Session, evs: seq<Leaf.Event>, last: bool)
    returns (tally: seq<Tally>, deferred: seq<Leaf.Event>, err: Option<H.Err>)
    requires s.waits.Valid() && !s.defers
    modifies s`asked, s`bySize, s`noteBySize, s`latest, s`waited, s.st
    ensures s.Rest() == old(s.Rest())
    ensures Look(Checking(s.w, s.waits, s.coveredAtStart), old(Watch(s.Model(), s.waited)), evs, last)
            == Looked(Watch(s.Model(), s.waited), tally, deferred, err)
  {
    tally, deferred, err := [], [], None;
    ghost var began, check := Watch(s.Model(), s.waited), Checking(s.w, s.waits, s.coveredAtStart);
    for i := 0 to |evs|
      invariant s.Rest() == old(s.Rest())
      invariant Look(check, began, evs, last)
             == Before(tally, deferred, Look(check, Watch(s.Model(), s.waited), evs[i..], last))
    {
      ghost var before := Watch(s.Model(), s.waited);
      var v := s.VerifyEvent(evs[i]);
      LookRound(check, before, evs, i, last, Watch(s.Model(), s.waited), v);
      if v.Err? {
        return tally, deferred, Some(v.error);
      }
      if !last && v.value == (Pending, None) {
        BeforeMore(tally, [], deferred, [evs[i]], Look(check, Watch(s.Model(), s.waited), evs[i + 1..], last));
        assert tally + [] == tally;
        deferred := deferred + [evs[i]];
      } else {
        BeforeMore(tally, [Tally(evs[i], v.value.0, v.value.1)], deferred, [], Look(check, Watch(s.Model(), s.waited), evs[i + 1..], last));
        assert deferred + [] == deferred;
        tally := tally + [Tally(evs[i], v.value.0, v.value.1)];
      }
    }
  }

  /** What was looked at before the rest. */
  ghost function Before(tally: seq<Tally>, deferred: seq<Leaf.Event>, rest: Looked): Looked {
    rest.(tally := tally + rest.tally, deferred := deferred + rest.deferred)
  }

  /** Verifies supplied events in one pass over the log. */
  method VerifyEvents(w: World, st: State?, waits: Waits, baselines: seq<Checkpoint>, rows: seq<Row>, probe: Prober)
    returns (r: Result<Checked, H.Err>)
    requires waits.Valid()
    modifies st
    ensures r == CheckEvents(w, old(if st == null then None else Some(st.anchor)), baselines, waits, rows, probe)
    ensures st != null ==> st.FeedModel() == old(st.FeedModel()) && st.loaded == old(st.loaded)
    ensures r.Ok? && st != null ==> Some(st.anchor) == r.value.h.saved
  {
    var s, failure := Start(w, st, waits, baselines);
    if s == null {
      return Err(failure.value);
    }
    var sifted := SiftRows(rows, probe);
    var checked := CheckSifted(s, sifted);
    return Ok(checked);
  }

  method CheckSifted(s: Session, sifted: Sifted) returns (checked: Checked)
    requires s.waits.Valid() && !s.defers && s.waited == 0
    modifies s`asked, s`bySize, s`noteBySize, s`latest, s`waited, s`coveredAtStart, s.st
    ensures s.Rest() == old(s.Rest())
    ensures checked == CheckAll(s.w, old(s.Model()), s.waits, sifted)
    ensures s.st != null ==> Some(s.st.anchor) == checked.h.saved
  {
    s.coveredAtStart := s.latest.size;
    var want := Wanted(sifted.parsed);
    var err := AwaitCovering(s, want);
    if err.Some? {
      return Checked(s.Model(), sifted, [], Some(LogError(err.value)));
    }
    var tally, deferred, err1 := LookAt(s, sifted.parsed, false);
    if err1.Some? {
      return Checked(s.Model(), sifted, tally, Some(LogError(err1.value)));
    }
    var more, none, err2 := LookAt(s, deferred, true);
    tally := tally + more;
    if err2.Some? {
      return Checked(s.Model(), sifted, tally, Some(LogError(err2.value)));
    }
    var end := EndPass(tally, want, s.latest.size);
    return Checked(s.Model(), sifted, tally, end);
  }

  /** Events still pending end the pass as one that could not complete. */
  method EndPass(tally: seq<Tally>, want: nat, size: nat) returns (err: Option<CheckError>)
    ensures err == Ending(tally, want, size)
  {
    var n := 0;
    for i := 0 to |tally|
      invariant n > 0 <==> exists k :: 0 <= k < i && IsPending(tally[k])
      invariant n >= 0
    {
      if IsPending(tally[i]) {
        n := n + 1;
      }
    }
    if n == 0 {
      assert forall t <- tally :: !IsPending(t);
      return None;
    }
    ghost var k :| 0 <= k < |tally| && IsPending(tally[k]);
    assert tally[k] in tally;
    if want > size {
      return Some(NotCovered);
    }
    return Some(NotServed);
  }
}
