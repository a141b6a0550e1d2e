/**
 * Against a log that answers honestly from one newest tree, with a checkpoint
 * endpoint that may lag behind it, what a file of events is found to hold does
 * not depend on the order of its rows.
 */
module EventOrder {
  import opened Basics
  import opened Tree
  import opened Checkpoint
  import opened Server
  import opened History
  import opened HonestLog
  import opened Inclusion
  import opened Events
  import Leaf
  import LeafReader

  // ---------------------------------------------------------------------
  // Images of reordered sequences
  // ---------------------------------------------------------------------

  function Chosen<T, U>(s: seq<T>, f: T -> Option<U>): seq<U> {
    if s == [] then []
    else
      var u := f(s[|s| - 1]);
      Chosen(s[..|s| - 1], f) + (if u.Some? then [u.value] else [])
  }

  lemma {:induction false} ChosenJoin<T, U>(a: seq<T>, b: seq<T>, f: T -> Option<U>)
    ensures Chosen(a + b, f) == Chosen(a, f) + Chosen(b, f)
  {
    if b == [] {
      assert a + b == a;
    } else {
      var less := b[..|b| - 1];
      assert (a + b)[..|a + b| - 1] == a + less;
      ChosenJoin(a, less, f);
    }
  }

  lemma ChosenOne<T, U>(x: T, f: T -> Option<U>)
    ensures Chosen([x], f) == if f(x).Some? then [f(x).value] else []
  {
    assert [x][..0] == [];
  }

  lemma WithoutOne<T>(less: seq<T>, x: T, l: seq<T>, r: seq<T>)
    requires multiset(less + [x]) == multiset(l + [x] + r)
    ensures multiset(less) == multiset(l + r)
  {
    assert multiset(less + [x]) == multiset(less) + multiset{x};
    assert multiset(l + [x] + r) == multiset(l + r) + multiset{x};
    assert multiset(less) == multiset(less + [x]) - multiset{x};
    assert multiset(l + r) == multiset(l + [x] + r) - multiset{x};
  }

  lemma {:induction false} ChosenReordered<T, U>(a: seq<T>, b: seq<T>, f: T -> Option<U>)
    requires multiset(a) == multiset(b)
    ensures multiset(Chosen(a, f)) == multiset(Chosen(b, f))
  {
    if a == [] {
      assert |multiset(b)| == 0;
    } else {
      var less, x := a[..|a| - 1], a[|a| - 1];
      assert a == less + [x];
      assert x in multiset(b);
      var i :| 0 <= i < |b| && b[i] == x;
      var l, r := b[..i], b[i + 1..];
      assert b == l + [x] + r;
      WithoutOne(less, x, l, r);
      ChosenReordered(less, l + r, f);
      ChosenJoin(less, [x], f);
      ChosenJoin(l + [x], r, f);
      ChosenJoin(l, [x], f);
      ChosenJoin(l, r, f);
    }
  }

  // ---------------------------------------------------------------------
  // Reading the rows
  // ---------------------------------------------------------------------

  function FailureIn(row: Row, probe: Prober): Option<EventFailure> {
    match probe(row.raw)
    case Unreadable | Ours(None) => Some(EventFailure(row.name, None, CannotRebuild))
    case _ => None
  }

  function SkippedIn(row: Row, probe: Prober): Option<()> {
    if probe(row.raw).OtherType? then Some(()) else None
  }

  ghost predicate DistinctIds(rows: seq<Row>, probe: Prober) {
    forall i, j :: 0 <= i < j < |rows| && EventIn(rows[i], probe).Some? && EventIn(rows[j], probe).Some?
      ==> EventIn(rows[i], probe).value.id != EventIn(rows[j], probe).value.id
  }

  function IdIn(row: Row, probe: Prober): Option<Id> {
    var ev := EventIn(row, probe);
    if ev.Some? then Some(ev.value.id) else None
  }

  lemma {:induction false} ChosenHas(rows: seq<Row>, probe: Prober, id: Id)
    ensures id in Chosen(rows, row => IdIn(row, probe)) <==> exists row <- rows :: IdIn(row, probe) == Some(id)
  {
    if rows != [] {
      var less, row := rows[..|rows| - 1], rows[|rows| - 1];
      assert rows == less + [row];
      ChosenHas(less, probe, id);
    }
  }

  lemma DistinctMore(less: seq<Row>, row: Row, probe: Prober)
    ensures DistinctIds(less + [row], probe)
        <==> DistinctIds(less, probe) && forall x <- less :: IdIn(x, probe) == None || IdIn(x, probe) != IdIn(row, probe)
  {
    var rows := less + [row];
    assert forall i :: 0 <= i < |less| ==> rows[i] == less[i] && rows[i] in less;
    if DistinctIds(rows, probe) {
      NewId(less, row, probe);
    }
  }

  ghost predicate NoneTwice(ids: seq<Id>) {
    forall id <- ids :: multiset(ids)[id] == 1
  }

  lemma NoneTwiceMore(ids: seq<Id>, id: Id)
    ensures NoneTwice(ids + [id]) <==> NoneTwice(ids) && id !in ids
  {
    assert multiset(ids + [id]) == multiset(ids) + multiset{id};
    if id in ids {
      assert multiset(ids + [id])[id] >= 2 && id in ids + [id];
    } else {
      assert forall x <- ids :: multiset(ids + [id])[x] == multiset(ids)[x] && x in ids + [id];
    }
  }

  /** Ids are distinct exactly when none is chosen twice. */
  lemma {:induction false} DistinctExactly(rows: seq<Row>, probe: Prober)
    ensures DistinctIds(rows, probe) <==> NoneTwice(Chosen(rows, row => IdIn(row, probe)))
  {
    if rows != [] {
      var less, row := rows[..|rows| - 1], rows[|rows| - 1];
      assert rows == less + [row];
      DistinctExactly(less, probe);
      DistinctMore(less, row, probe);
      var f := (row: Row) => IdIn(row, probe);
      var ids, id := Chosen(less, f), IdIn(row, probe);
      assert Chosen(rows, f) == ids + (if id.Some? then [id.value] else []);
      if id.Some? {
        ChosenHas(less, probe, id.value);
        NoneTwiceMore(ids, id.value);
      } else {
        assert ids + [] == ids;
      }
    }
  }

  lemma DistinctReordered(rows: seq<Row>, rows': seq<Row>, probe: Prober)
    requires multiset(rows) == multiset(rows') && DistinctIds(rows, probe)
    ensures DistinctIds(rows', probe)
  {
    DistinctExactly(rows, probe);
    DistinctExactly(rows', probe);
    var f := (row: Row) => IdIn(row, probe);
    ChosenReordered(rows, rows', f);
    SameMembers(Chosen(rows, f), Chosen(rows', f));
  }

  lemma SameMembers(a: seq<Id>, b: seq<Id>)
    requires multiset(a) == multiset(b)
    ensures NoneTwice(a) ==> NoneTwice(b)
  {
    assert forall id <- b :: id in multiset(b) && id in multiset(a);
  }

  lemma NewId(less: seq<Row>, row: Row, probe: Prober)
    requires DistinctIds(less + [row], probe)
    ensures forall x <- less :: EventIn(x, probe).Some? && EventIn(row, probe).Some? ==>
              EventIn(x, probe).value.id != EventIn(row, probe).value.id
  {
    var rows := less + [row];
    forall x <- less | EventIn(x, probe).Some? && EventIn(row, probe).Some?
      ensures EventIn(x, probe).value.id != EventIn(row, probe).value.id
    {
      var i :| 0 <= i < |less| && less[i] == x;
      assert rows[i] == x && rows[|less|] == row;
    }
  }

  lemma {:induction false} SiftDistinct(rows: seq<Row>, probe: Prober)
    requires DistinctIds(rows, probe)
    ensures var s := Sift(rows, probe);
            && s.parsed == Chosen(rows, row => EventIn(row, probe))
            && s.failed == Chosen(rows, row => FailureIn(row, probe))
            && s.skipped == |Chosen(rows, row => SkippedIn(row, probe))|
            && (forall id <- s.seen :: exists row <- rows :: EventIn(row, probe).Some? && EventIn(row, probe).value.id == id)
  {
    if rows != [] {
      var less, row := rows[..|rows| - 1], rows[|rows| - 1];
      assert rows == less + [row];
      SiftDistinct(less, probe);
      var s := Sift(less, probe);
      NewId(less, row, probe);
    }
  }

  lemma {:induction false} WantBounds(evs: seq<Leaf.Event>, n: nat)
    ensures Want(evs) <= n <==> forall ev <- evs :: ev.index.Some? ==> Covering(ev.index.value) <= n
  {
    if evs != [] {
      var less, last := evs[..|evs| - 1], evs[|evs| - 1];
      WantBounds(less, n);
      assert evs == less + [last];
    }
  }

  lemma WantCoversSmall(evs: seq<Leaf.Event>)
    requires forall ev <- evs :: ev.index.Some? ==> ev.index.value < LeafReader.INDEX_LIMIT
    ensures forall ev <- evs :: ev.index.Some? ==> ev.index.value < Want(evs)
  {
    WantBounds(evs, Want(evs));
    forall ev <- evs | ev.index.Some? ensures ev.index.value < Want(evs) {
      assert Covering(ev.index.value) <= Want(evs);
    }
  }

  /** The size waited for covers every index read: none is so large that uint64 arithmetic wraps. */
  lemma WantCovers(evs: seq<Leaf.Event>)
    requires forall ev <- evs :: LeafReader.IsRead(ev)
    ensures forall ev <- evs :: ev.index.Some? ==> ev.index.value < Want(evs)
  {
    forall ev <- evs | ev.index.Some? ensures ev.index.value < LeafReader.INDEX_LIMIT {
      LeafReader.ReadIndexIsSmall(ev);
    }
    WantCoversSmall(evs);
  }

  lemma WantReordered(a: seq<Leaf.Event>, b: seq<Leaf.Event>)
    requires multiset(a) == multiset(b)
    ensures Want(a) == Want(b)
  {
    assert forall ev :: ev in a <==> ev in multiset(a);
    assert forall ev :: ev in b <==> ev in multiset(b);
    WantBounds(a, Want(a));
    WantBounds(b, Want(a));
    WantBounds(a, Want(b));
    WantBounds(b, Want(b));
  }

  // ---------------------------------------------------------------------
  // One event, against an honest log
  // ---------------------------------------------------------------------

  /** What an event is found to be by a pass whose head covers `size` of the entries. */
  function Found(org: Id, entries: seq<Bytes>, size: nat, ev: Leaf.Event): (Outcome, Option<EventFailure>)
    requires size <= |entries|
  {
    match Claim(org, size, ev)
    case Some(v) => v
    case None =>
      if Leaf(entries[ev.index.value]) in Leaf.Hashes(ev) then (Verified, None)
      else (Pending, Some(EventFailure(ev.id, ev.index, NotCommitted)))
  }

  lemma HonestBinds(w: World, entries: seq<Bytes>, newest: Checkpoint, ev: Leaf.Event)
    requires StillWorld(w, entries, newest) && ev.index.Some? && ev.index.value < |entries|
    ensures LeafAt(newest.hash, newest.size, ev.index.value).Some?
    ensures Binds(newest, ev.index.value, Leaf.Hashes(ev), AuditPath(newest.hash, newest.size, ev.index.value))
        <==> Leaf(entries[ev.index.value]) in Leaf.Hashes(ev)
  {
    var index, leaves := ev.index.value, Leaf.Hashes(ev);
    StillNewest(w, entries, newest);
    HonestInclusion(entries, newest, index);
    var path := AuditPath(newest.hash, newest.size, index);
    if Binds(newest, index, leaves, path) {
      var i :| 0 <= i < |leaves| && VerifyInclusion(newest, index, leaves[i], path);
      InclusionSound(newest, index, leaves[i], path);
    }
  }

  /** An honest log settles every event its head covers, and moves the head to its newest tree. */
  lemma HonestEvent(w: World, entries: seq<Bytes>, newest: Checkpoint, s: Watch, waits: Waits, covered: nat, ev: Leaf.Event)
    requires StillWorld(w, entries, newest) && OnLog(s.h, entries) && waits.Valid()
    ensures var (s', v) := CheckEventNow(w, s, waits, covered, ev);
            && v == Ok(Found(w.org, entries, s.h.latest.size, ev)) && OnLog(s'.h, entries)
            && s'.h.latest.size == (if Claim(w.org, s.h.latest.size, ev) == None then |entries| else s.h.latest.size)
  {
    if Claim(w.org, s.h.latest.size, ev) == None {
      var index := ev.index.value;
      HonestReply(w, entries, newest, s.h, index);
      HonestJudge(w, entries, newest, Ask(s.h, AskInclusion(index)), index, ev, index < covered);
    }
  }

  lemma HonestReply(w: World, entries: seq<Bytes>, newest: Checkpoint, h: History, index: nat)
    requires StillWorld(w, entries, newest) && index < |entries|
    ensures newest.raw.Some? && LeafAt(newest.hash, newest.size, index).Some?
    ensures AskFor(w, h, index) == (Ask(h, AskInclusion(index)), Proof(index, AuditPath(newest.hash, newest.size, index), newest.raw.value))
  {
    ProofServed(w, entries, Still(newest), h.asked, index);
  }

  lemma HonestJudge(w: World, entries: seq<Bytes>, newest: Checkpoint, h: History, index: nat, ev: Leaf.Event, owed: bool)
    requires StillWorld(w, entries, newest) && OnLog(h, entries) && ev.index == Some(index) && index < |entries|
    requires newest.raw.Some? && LeafAt(newest.hash, newest.size, index).Some?
    ensures var (h', v) := Judge(w, h, ev.id, index, Leaf.Hashes(ev), Proof(index, AuditPath(newest.hash, newest.size, index), newest.raw.value), owed);
            && OnLog(h', entries) && h'.latest.size == |entries|
            && v == Ok(if Leaf(entries[index]) in Leaf.Hashes(ev) then (Verified, None)
                       else (Pending, Some(EventFailure(ev.id, ev.index, NotCommitted))))
  {
    StillNewest(w, entries, newest);
    HonestBinds(w, entries, newest, ev);
    StillRelate(w, entries, newest, h, newest.raw.value, MAX_RELATE_ATTEMPTS);
  }

  // ---------------------------------------------------------------------
  // The waits
  // ---------------------------------------------------------------------

  lemma HonestReread(w: World, entries: seq<Bytes>, newest: Checkpoint, h: History)
    requires StillWorld(w, entries, newest) && OnLog(h, entries)
    ensures var (h', err) := Reread(w, h); err == None && OnLog(h', entries)
  {
    var a := w.server(h.asked, AskCheckpoint);
    assert ServesCheckpoint(w, entries, Still(newest)(h.asked), a);
    StillRelate(w, entries, newest, Ask(h, AskCheckpoint), a.note, MAX_RELATE_ATTEMPTS);
  }

  lemma HonestAwait(w: World, entries: seq<Bytes>, newest: Checkpoint, s: Watch, waits: Waits, want: nat)
    requires StillWorld(w, entries, newest) && OnLog(s.h, entries) && waits.Valid()
    ensures var (s', err) := Await(s, waits, want, Rereading(w)); err == None && OnLog(s'.h, entries)
  {
    var inv := (h: History) => OnLog(h, entries);
    var rel := (a: History, b: History, err: Option<Err>) => err == None && OnLog(b, entries);
    forall h: History | inv(h) ensures rel(h, Rereading(w)(h).0, Rereading(w)(h).1) {
      HonestReread(w, entries, newest, h);
    }
    AwaitKeeps(s, waits, want, Rereading(w), inv, rel);
  }

  // ---------------------------------------------------------------------
  // The two looks
  // ---------------------------------------------------------------------

  /** Some event is covered by a head of this size, so looking at it moves the head. */
  ghost predicate Moves(org: Id, size: nat, evs: seq<Leaf.Event>) {
    exists ev <- evs :: Claim(org, size, ev) == None
  }

  /** What each event is found to be under one head. */
  ghost function Finds(org: Id, entries: seq<Bytes>, size: nat, evs: seq<Leaf.Event>): seq<Tally>
    requires size <= |entries|
  {
    Chosen(evs, (ev: Leaf.Event) => Some(FoundTally(org, entries, size, ev)))
  }

  function FoundTally(org: Id, entries: seq<Bytes>, size: nat, ev: Leaf.Event): Tally
    requires size <= |entries|
  {
    var f := Found(org, entries, size, ev);
    Tally(ev, f.0, f.1)
  }

  lemma FindsHead(org: Id, entries: seq<Bytes>, size: nat, ev: Leaf.Event, evs: seq<Leaf.Event>)
    requires size <= |entries|
    ensures Finds(org, entries, size, [ev] + evs) == [FoundTally(org, entries, size, ev)] + Finds(org, entries, size, evs)
  {
    var f := (ev: Leaf.Event) => Some(FoundTally(org, entries, size, ev));
    ChosenJoin([ev], evs, f);
    ChosenOne(ev, f);
  }

  /** What is settled under one head stays settled under a later one. */
  lemma FoundLater(org: Id, entries: seq<Bytes>, size: nat, later: nat, ev: Leaf.Event)
    requires size <= later <= |entries|
    ensures Found(org, entries, size, ev) == (Pending, None)
         || Found(org, entries, size, ev) == Found(org, entries, later, ev)
  {}

  /** One more event at the front of a look, settled at once or held back. */
  lemma OneMoreLooked(org: Id, entries: seq<Bytes>, began: nat, size: nat, ev: Leaf.Event, rest: seq<Leaf.Event>,
                      tally: seq<Tally>, deferred: seq<Leaf.Event>)
    requires began <= size <= |entries|
    requires multiset(tally) + multiset(Finds(org, entries, size, deferred)) == multiset(Finds(org, entries, size, rest))
    ensures Found(org, entries, began, ev) == (Pending, None) ==>
              multiset(tally) + multiset(Finds(org, entries, size, [ev] + deferred)) == multiset(Finds(org, entries, size, [ev] + rest))
    ensures Found(org, entries, began, ev) != (Pending, None) ==>
              multiset([FoundTally(org, entries, began, ev)] + tally) + multiset(Finds(org, entries, size, deferred))
              == multiset(Finds(org, entries, size, [ev] + rest))
  {
    FoundLater(org, entries, began, size, ev);
    FindsHead(org, entries, size, ev, rest);
    FindsHead(org, entries, size, ev, deferred);
  }

  /**
   * The first look settles some events and holds back the rest; together they
   * are what the head it ends on makes of them all.
   */
  ghost predicate Looks(org: Id, entries: seq<Bytes>, began: nat, evs: seq<Leaf.Event>, l: Looked) {
    var size := l.s.h.latest.size;
    && l.err == None && OnLog(l.s.h, entries)
    && began <= size <= |entries|
    && size == (if Moves(org, began, evs) then |entries| else began)
    && multiset(l.tally) + multiset(Finds(org, entries, size, l.deferred)) == multiset(Finds(org, entries, size, evs))
    && (forall ev <- l.deferred :: size == |entries| || Claim(org, size, ev).Some?)
  }

  lemma {:induction false} HonestLook(w: World, entries: seq<Bytes>, newest: Checkpoint, s: Watch, waits: Waits, covered: nat, evs: seq<Leaf.Event>)
    requires StillWorld(w, entries, newest) && OnLog(s.h, entries) && waits.Valid()
    ensures Looks(w.org, entries, s.h.latest.size, evs, Look(Checking(w, waits, covered), s, evs, false))
    decreases |evs|
  {
    if evs != [] {
      var ev, rest := evs[0], evs[1..];
      assert evs == [ev] + rest;
      HonestEvent(w, entries, newest, s, waits, covered, ev);
      var (s1, v) := CheckEventNow(w, s, waits, covered, ev);
      HonestLook(w, entries, newest, s1, waits, covered, rest);
      var l := Look(Checking(w, waits, covered), s1, rest, false);
      LooksMore(w.org, entries, s.h.latest.size, s1.h.latest.size, ev, rest, l);
    }
  }

  lemma LooksMore(org: Id, entries: seq<Bytes>, began: nat, next: nat, ev: Leaf.Event, rest: seq<Leaf.Event>, l: Looked)
    requires began <= |entries| && next == (if Claim(org, began, ev) == None then |entries| else began)
    requires Looks(org, entries, next, rest, l)
    ensures var found := Found(org, entries, began, ev);
            Looks(org, entries, began, [ev] + rest,
                  if found == (Pending, None) then l.(deferred := [ev] + l.deferred)
                  else l.(tally := [Tally(ev, found.0, found.1)] + l.tally))
  {
    MovesMore(org, began, next, |entries|, ev, rest);
    OneMoreLooked(org, entries, began, l.s.h.latest.size, ev, rest, l.tally, l.deferred);
  }

  lemma MovesMore(org: Id, size: nat, next: nat, all: nat, ev: Leaf.Event, rest: seq<Leaf.Event>)
    requires size <= all && next == (if Claim(org, size, ev) == None then all else size)
    ensures (if Moves(org, next, rest) then all else next) == (if Moves(org, size, [ev] + rest) then all else size)
  {
    if Claim(org, size, ev) == None {
      assert ev in [ev] + rest;
    } else if Moves(org, size, rest) {
      var x :| x in rest && Claim(org, size, x) == None;
      assert x in [ev] + rest;
    }
  }

  /** The second look settles everything held back, under the head it began with. */
  lemma {:induction false} HonestLastLook(w: World, entries: seq<Bytes>, newest: Checkpoint, s: Watch, waits: Waits, covered: nat, evs: seq<Leaf.Event>)
    requires StillWorld(w, entries, newest) && OnLog(s.h, entries) && waits.Valid()
    requires forall ev <- evs :: s.h.latest.size == |entries| || Claim(w.org, s.h.latest.size, ev).Some?
    ensures var l := Look(Checking(w, waits, covered), s, evs, true);
            && l.err == None && l.s.h.latest.size == s.h.latest.size
            && l.tally == Finds(w.org, entries, s.h.latest.size, evs)
    decreases |evs|
  {
    if evs != [] {
      var ev, rest := evs[0], evs[1..];
      assert evs == [ev] + rest;
      HonestEvent(w, entries, newest, s, waits, covered, ev);
      var s1 := CheckEventNow(w, s, waits, covered, ev).0;
      HonestLastLook(w, entries, newest, s1, waits, covered, rest);
      FindsHead(w.org, entries, s.h.latest.size, ev, rest);
    }
  }

  /**
   * Everything a file is found to hold, whatever the order of its rows: what
   * the head the pass ends on makes of each event.
   */
  lemma HonestCheckAll(w: World, entries: seq<Bytes>, newest: Checkpoint, h: History, waits: Waits, sifted: Sifted)
    requires StillWorld(w, entries, newest) && OnLog(h, entries) && waits.Valid()
    ensures var r := CheckAll(w, h, waits, sifted);
            var began := AwaitCoverage(w, Watch(h, 0), waits, Want(sifted.parsed)).0.h.latest.size;
            && r.err == Ending(r.tally, Want(sifted.parsed), r.h.latest.size) && began <= |entries|
            && r.h.latest.size == (if Moves(w.org, began, sifted.parsed) then |entries| else began)
            && multiset(r.tally) == multiset(Finds(w.org, entries, r.h.latest.size, sifted.parsed))
  {
    HonestAwait(w, entries, newest, Watch(h, 0), waits, Want(sifted.parsed));
    var s1 := AwaitCoverage(w, Watch(h, 0), waits, Want(sifted.parsed)).0;
    HonestLook(w, entries, newest, s1, waits, h.latest.size, sifted.parsed);
    var first := Look(Checking(w, waits, h.latest.size), s1, sifted.parsed, false);
    HonestLastLook(w, entries, newest, first.s, waits, h.latest.size, first.deferred);
  }

  lemma MovesReordered(org: Id, size: nat, a: seq<Leaf.Event>, b: seq<Leaf.Event>)
    requires multiset(a) == multiset(b) && Moves(org, size, a)
    ensures Moves(org, size, b)
  {
    var ev :| ev in a && Claim(org, size, ev) == None;
    assert ev in multiset(a) && ev in multiset(b);
    assert ev in b;
  }

  lemma FindsReordered(org: Id, entries: seq<Bytes>, size: nat, a: seq<Leaf.Event>, b: seq<Leaf.Event>)
    requires size <= |entries| && multiset(a) == multiset(b)
    ensures multiset(Finds(org, entries, size, a)) == multiset(Finds(org, entries, size, b))
  {
    ChosenReordered(a, b, (ev: Leaf.Event) => Some(FoundTally(org, entries, size, ev)));
  }

  /** Two passes came through without an error of the log, under heads of one size, with the same tally. */
  ghost predicate SameChecks(r: Checked, r': Checked) {
    && r.err == r'.err && (r.err.Some? ==> !r.err.value.LogError?)
    && r.h.latest.size == r'.h.latest.size
    && multiset(r.tally) == multiset(r'.tally)
  }

  /** And they found the same in the rows themselves. */
  ghost predicate SameFindings(r: Checked, r': Checked) {
    && SameChecks(r, r')
    && multiset(r.sifted.failed) == multiset(r'.sifted.failed)
    && r.sifted.skipped == r'.sifted.skipped
  }

  lemma ChecksFrom(w: World, saved: Option<Option<Note>>, baselines: seq<Checkpoint>, waits: Waits, rows: seq<Row>, probe: Prober, h: History)
    requires waits.Valid() && Start(w, saved, baselines) == Started(h)
    ensures CheckEvents(w, saved, baselines, waits, rows, probe) == Ok(CheckAll(w, h, waits, Sift(rows, probe)))
    ensures CheckAll(w, h, waits, Sift(rows, probe)).sifted == Sift(rows, probe)
  {}

  lemma CheckAllReordered(w: World, entries: seq<Bytes>, newest: Checkpoint, h: History, waits: Waits, a: Sifted, b: Sifted)
    requires StillWorld(w, entries, newest) && OnLog(h, entries) && waits.Valid()
    requires multiset(a.parsed) == multiset(b.parsed)
    ensures SameChecks(CheckAll(w, h, waits, a), CheckAll(w, h, waits, b))
  {
    WantReordered(a.parsed, b.parsed);
    HonestCheckAll(w, entries, newest, h, waits, a);
    HonestCheckAll(w, entries, newest, h, waits, b);
    var began := AwaitCoverage(w, Watch(h, 0), waits, Want(a.parsed)).0.h.latest.size;
    if Moves(w.org, began, a.parsed) { MovesReordered(w.org, began, a.parsed, b.parsed); }
    if Moves(w.org, began, b.parsed) { MovesReordered(w.org, began, b.parsed, a.parsed); }
    FindsReordered(w.org, entries, CheckAll(w, h, waits, a).h.latest.size, a.parsed, b.parsed);
    PendingReordered(CheckAll(w, h, waits, a).tally, CheckAll(w, h, waits, b).tally);
  }

  lemma PendingReordered(a: seq<Tally>, b: seq<Tally>)
    requires multiset(a) == multiset(b)
    ensures AnyPending(a) == AnyPending(b)
  {
    assert forall t :: t in a <==> t in multiset(a);
    assert forall t :: t in b <==> t in multiset(b);
  }

  /**
   * The verdicts on a file do not depend on the order of its rows: any
   * reordering gives the same tally, the same findings and the same count of
   * rows passed over, and an honest log is never accused.
   */
  lemma RowOrderDoesNotMatter(w: World, entries: seq<Bytes>, newest: Checkpoint, saved: Option<Option<Note>>, baselines: seq<Checkpoint>,
                              waits: Waits, rows: seq<Row>, rows': seq<Row>, probe: Prober)
    requires StillWorld(w, entries, newest) && waits.Valid()
    requires AnchorOnLog(w, saved, entries, newest) && forall b <- baselines :: CheckpointOf(b, entries)
    requires multiset(rows) == multiset(rows') && DistinctIds(rows, probe)
    ensures var r, r' := CheckEvents(w, saved, baselines, waits, rows, probe), CheckEvents(w, saved, baselines, waits, rows', probe);
            r.Ok? && r'.Ok? && SameFindings(r.value, r'.value)
  {
    StillStart(w, entries, newest, saved, baselines);
    var h := Start(w, saved, baselines).h;
    DistinctReordered(rows, rows', probe);
    SiftReordered(rows, rows', probe);
    ChecksFrom(w, saved, baselines, waits, rows, probe, h);
    ChecksFrom(w, saved, baselines, waits, rows', probe, h);
    CheckAllReordered(w, entries, newest, h, waits, Sift(rows, probe), Sift(rows', probe));
  }

  lemma SiftReordered(rows: seq<Row>, rows': seq<Row>, probe: Prober)
    requires multiset(rows) == multiset(rows') && DistinctIds(rows, probe) && DistinctIds(rows', probe)
    ensures multiset(Sift(rows, probe).parsed) == multiset(Sift(rows', probe).parsed)
    ensures multiset(Sift(rows, probe).failed) == multiset(Sift(rows', probe).failed)
    ensures Sift(rows, probe).skipped == Sift(rows', probe).skipped
  {
    SiftDistinct(rows, probe);
    SiftDistinct(rows', probe);
    ChosenReordered(rows, rows', row => EventIn(row, probe));
    ChosenReordered(rows, rows', row => FailureIn(row, probe));
    ChosenReordered(rows, rows', row => SkippedIn(row, probe));
    assert |multiset(Chosen(rows, row => SkippedIn(row, probe)))| == |multiset(Chosen(rows', row => SkippedIn(row, probe)))|;
  }
}
