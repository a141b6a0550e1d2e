/**
 * Checking a file of supplied events in one pass: it waits for a covering
 * checkpoint, then looks at every event, and a second time at those it found
 * uncovered. These functions specify the check of EventCheck.dfy.
 */
module Events {
  import opened Basics
  import opened Checkpoint
  import opened Server
  import opened History
  import opened Inclusion
  import Leaf

  type Id = Text

  /** What a supplied row is: unreadable, another product's, or an event, if it parses. */
  datatype Probe = Unreadable | OtherType | Ours(ev: Option<Leaf.Event>)

  type Prober = Bytes -> Probe

  /** The event a row holds, if it is ours and parses. */
  function EventIn(row: Row, probe: Prober): Option<Leaf.Event> {
    match probe(row.raw)
    case Ours(ev) => ev
    case _ => None
  }

  /** The rows read so far: the first or placed copy of each id, and what goes on to be verified. */
  datatype Sifted = Sifted(seen: map<Id, Leaf.Event>, parsed: seq<Leaf.Event>, failed: seq<EventFailure>, skipped: nat)

  /** One id at two positions, or one position with two contents, which no proof settles. */
  function Contradiction(seen: map<Id, Leaf.Event>, ev: Leaf.Event): Option<EventFailure> {
    if ev.id !in seen || seen[ev.id].index == None || ev.index == None then None
    else if seen[ev.id].index != ev.index then Some(EventFailure(ev.id, seen[ev.id].index, TwoIndices))
    else if Leaf.Hash(seen[ev.id]) != Leaf.Hash(ev) then Some(EventFailure(ev.id, seen[ev.id].index, TwoContents))
    else None
  }

  function Remember(seen: map<Id, Leaf.Event>, ev: Leaf.Event): map<Id, Leaf.Event> {
    if ev.id !in seen || (seen[ev.id].index == None && ev.index.Some?) then seen[ev.id := ev] else seen
  }

  function SiftRow(s: Sifted, row: Row, probe: Prober): Sifted {
    match probe(row.raw)
    case Unreadable => s.(failed := s.failed + [EventFailure(row.name, None, CannotRebuild)])
    case OtherType => s.(skipped := s.skipped + 1)
    case Ours(None) => s.(failed := s.failed + [EventFailure(row.name, None, CannotRebuild)])
    case Ours(Some(ev)) =>
      match Contradiction(s.seen, ev)
      case Some(f) => s.(failed := s.failed + [f])
      case None => s.(seen := Remember(s.seen, ev), parsed := s.parsed + [ev])
  }

  const NOTHING_SIFTED := Sifted(map[], [], [], 0)

  function Sift(rows: seq<Row>, probe: Prober): Sifted {
    if rows == [] then NOTHING_SIFTED
    else SiftRow(Sift(rows[..|rows| - 1], probe), rows[|rows| - 1], probe)
  }

  /** The tree size that covers an index, in uint64 arithmetic: it wraps at the very last one. */
  function Covering(index: nat): nat {
    (index + 1) % (MAX_UINT64 + 1)
  }

  /** The tree size that covers the indices supplied. */
  function Want(evs: seq<Leaf.Event>): (want: nat)
    ensures want <= MAX_UINT64
  {
    if evs == [] then 0
    else
      var less := Want(evs[..|evs| - 1]);
      var last := evs[|evs| - 1].index;
      if last.Some? && Covering(last.value) > less then Covering(last.value) else less
  }

  /** Reads the checkpoint endpoint once more and ties what it serves into the history. */
  function Reread(w: World, h: History): (History, Option<Err>) {
    var h1 := Ask(h, AskCheckpoint);
    match w.server(h.asked, AskCheckpoint)
    case NoteAnswer(note) => (var (h2, r) := Relate(w, h1, note); (h2, if r.Err? then Some(r.error) else None))
    case StatusAnswer(status) => (h1, Some(Unavailable(Some(status))))
    case _ => (h1, Some(Unavailable(None)))
  }

  /** One more attempt at what a pass is waiting for. */
  type Try = History -> (History, Option<Err>)

  function Rereading(w: World): Try {
    h => Reread(w, h)
  }

  /** Tries again and again until the head covers `want`, the wait is spent, or something fails. */
  function Await(s: Watch, waits: Waits, want: nat, try: Try): (Watch, Option<Err>)
    requires waits.Valid()
    decreases waits.budget - s.waited
  {
    if s.waited + waits.poll > waits.budget then (s, None)
    else
      var (h1, err) := try(s.h);
      var s1 := Watch(h1, s.waited + waits.poll);
      if err.Some? || h1.latest.size >= want then (s1, err) else Await(s1, waits, want, try)
  }

  function AwaitCoverage(w: World, s: Watch, waits: Waits, want: nat): (Watch, Option<Err>)
    requires waits.Valid()
  {
    if s.h.latest.size >= want then (s, None) else Await(s, waits, want, Rereading(w))
  }

  /** One event with what was found of it. */
  datatype Tally = Tally(ev: Leaf.Event, outcome: Outcome, failure: Option<EventFailure>)

  datatype Looked = Looked(s: Watch, tally: seq<Tally>, deferred: seq<Leaf.Event>, err: Option<Err>)

  /** A check of one event. */
  type Checker = (Watch, Leaf.Event) -> (Watch, Verdict)

  function Checking(w: World, waits: Waits, covered: nat): Checker
    requires waits.Valid()
  {
    (s, ev) => CheckEventNow(w, s, waits, covered, ev)
  }

  /** One look at each event in turn; unless it is the last look, pending ones are held back. */
  function Look(check: Checker, s: Watch, evs: seq<Leaf.Event>, last: bool): Looked
    decreases |evs|
  {
    if evs == [] then Looked(s, [], [], None)
    else
      var (s1, v) := check(s, evs[0]);
      match v
      case Err(e) => Looked(s1, [], [], Some(e))
      case Ok(oc) =>
        var rest := Look(check, s1, evs[1..], last);
        if !last && oc == (Pending, None) then rest.(deferred := [evs[0]] + rest.deferred)
        else rest.(tally := [Tally(evs[0], oc.0, oc.1)] + rest.tally)
  }

  /** An error of the log, or events still pending: no checkpoint covers them, or their proofs are not served yet. */
  datatype CheckError = LogError(err: Err) | NotCovered | NotServed

  /** Everything a pass over supplied events finds, once it has started. */
  datatype Checked = Checked(h: History, sifted: Sifted, tally: seq<Tally>, err: Option<CheckError>)

  predicate IsPending(t: Tally) {
    t.failure == None && t.outcome == Pending
  }

  predicate AnyPending(tally: seq<Tally>) {
    exists t <- tally :: IsPending(t)
  }

  /** How a pass that looked at everything ends: with an error if events are still pending. */
  function Ending(tally: seq<Tally>, want: nat, size: nat): Option<CheckError> {
    if !AnyPending(tally) then None else Some(if want > size then NotCovered else NotServed)
  }

  function LogEnding(err: Option<Err>): Option<CheckError> {
    if err == None then None else Some(LogError(err.value))
  }

  function CheckAll(w: World, h: History, waits: Waits, sifted: Sifted): Checked
    requires waits.Valid()
  {
    var covered, want := h.latest.size, Want(sifted.parsed);
    var (s1, err) := AwaitCoverage(w, Watch(h, 0), waits, want);
    if err.Some? then Checked(s1.h, sifted, [], LogEnding(err))
    else
      var check := Checking(w, waits, covered);
      var first := Look(check, s1, sifted.parsed, false);
      if first.err.Some? then Checked(first.s.h, sifted, first.tally, LogEnding(first.err))
      else
        var second := Look(check, first.s, first.deferred, true);
        var tally := first.tally + second.tally;
        Checked(second.s.h, sifted, tally,
                if second.err.Some? then LogEnding(second.err) else Ending(tally, want, second.s.h.latest.size))
  }

  function CheckEvents(w: World, saved: Option<Option<Note>>, baselines: seq<Checkpoint>, waits: Waits, rows: seq<Row>, probe: Prober): Result<Checked, Err>
    requires waits.Valid()
  {
    match Start(w, saved, baselines)
    case NotStarted(e) => Err(e)
    case Started(h) => Ok(CheckAll(w, h, waits, Sift(rows, probe)))
  }

  // ---------------------------------------------------------------------
  // Verified means committed
  // ---------------------------------------------------------------------

  /** Every event found verified is of this organization and committed at its own index under this head. */
  ghost predicate TallyOk(org: Text, head: Checkpoint, tally: seq<Tally>) {
    forall t <- tally :: t.failure == None && t.outcome == Verified ==>
      t.ev.organization == org && t.ev.index.Some? && CommitsTo(head, t.ev.index.value, Leaf.Hashes(t.ev))
  }

  lemma TallyOkLater(org: Text, head: Checkpoint, later: Checkpoint, tally: seq<Tally>)
    requires TallyOk(org, head, tally) && Extends(later, head)
    ensures TallyOk(org, later, tally)
  {
    forall t <- tally | t.failure == None && t.outcome == Verified
      ensures CommitsTo(later, t.ev.index.value, Leaf.Hashes(t.ev))
    {
      CommitsLater(head, later, t.ev.index.value, Leaf.Hashes(t.ev));
    }
  }

  ghost predicate SoundEnd(w: World, h: History, h': History, err: Option<Err>) {
    Sound(w, h, h') && (err.Some? ==> Holds(w, h'.asked, err.value))
  }

  lemma RereadIsSound(w: World, h: History)
    requires Consistent(w, h, {})
    ensures var (h', err) := Reread(w, h); SoundEnd(w, h, h', err)
  {
    var h1 := Ask(h, AskCheckpoint);
    AskKeeps(w, h, AskCheckpoint, {});
    var a := w.server(h.asked, AskCheckpoint);
    if a.NoteAnswer? {
      HeardNow(w, h.asked, AskCheckpoint, a.note);
      RelateKeeps(w, h1, a.note, MAX_RELATE_ATTEMPTS);
      SoundTransitive(w, h, h1, Relate(w, h1, a.note).0);
    }
  }

  /**
   * Waiting keeps what each attempt keeps: an invariant of the history, and a
   * relation between histories that composes.
   */
  lemma {:induction false} AwaitKeeps(s: Watch, waits: Waits, want: nat, try: Try, inv: History -> bool,
                                      rel: (History, History, Option<Err>) -> bool)
    requires waits.Valid() && inv(s.h)
    requires forall h {:trigger inv(h)} :: inv(h) ==> rel(h, h, None)
    requires forall h {:trigger try(h)} :: inv(h) ==> rel(h, try(h).0, try(h).1) && inv(try(h).0)
    requires forall a, b, c, err {:trigger rel(a, b, None), rel(b, c, err)} :: rel(a, b, None) && rel(b, c, err) ==> rel(a, c, err)
    ensures var (s', err) := Await(s, waits, want, try); rel(s.h, s'.h, err)
    decreases waits.budget - s.waited
  {
    if s.waited + waits.poll <= waits.budget {
      var h1, err := try(s.h).0, try(s.h).1;
      assert rel(s.h, h1, err);
      if err == None && h1.latest.size < want {
        var s1 := Watch(h1, s.waited + waits.poll);
        AwaitKeeps(s1, waits, want, try, inv, rel);
        var end := Await(s1, waits, want, try);
        assert rel(s.h, h1, None) && rel(h1, end.0.h, end.1);
      }
    }
  }

  lemma AwaitIsSound(w: World, s: Watch, waits: Waits, want: nat)
    requires waits.Valid() && Consistent(w, s.h, {})
    ensures var (s', err) := Await(s, waits, want, Rereading(w)); SoundEnd(w, s.h, s'.h, err)
  {
    var inv := (h: History) => Consistent(w, h, {});
    var rel := (a: History, b: History, err: Option<Err>) => Consistent(w, a, {}) && SoundEnd(w, a, b, err);
    forall h: History | inv(h) ensures rel(h, h, None) {
      SoundItself(w, h);
    }
    forall h: History | inv(h) ensures rel(h, Rereading(w)(h).0, Rereading(w)(h).1) {
      RereadIsSound(w, h);
    }
    forall a: History, b: History, c: History, err: Option<Err> | rel(a, b, None) && rel(b, c, err) ensures rel(a, c, err) {
      SoundTransitive(w, a, b, c);
    }
    AwaitKeeps(s, waits, want, Rereading(w), inv, rel);
  }

  /** One more event, tallied or held back, before the rest of a look. */
  lemma LookMore(w: World, h: History, h1: History, t: Tally, rest: Looked)
    requires Sound(w, h, h1) && TallyOk(w.org, h1.latest, [t])
    requires SoundEnd(w, h1, rest.s.h, rest.err) && TallyOk(w.org, rest.s.h.latest, rest.tally)
    ensures SoundEnd(w, h, rest.s.h, rest.err) && TallyOk(w.org, rest.s.h.latest, [t] + rest.tally)
  {
    SoundTransitive(w, h, h1, rest.s.h);
    TallyOkLater(w.org, h1.latest, rest.s.h.latest, [t]);
  }

  /** What one event's check tells its tally. */
  lemma CheckTallies(w: World, s: Watch, waits: Waits, covered: nat, ev: Leaf.Event)
    requires waits.Valid() && Consistent(w, s.h, {})
    ensures var (s1, v) := CheckEventNow(w, s, waits, covered, ev);
            && Sound(w, s.h, s1.h) && (v.Err? ==> Holds(w, s1.h.asked, v.error))
            && (v.Ok? ==> TallyOk(w.org, s1.h.latest, [Tally(ev, v.value.0, v.value.1)]))
  {
    CheckEventNowIsSound(w, s, waits, covered, ev);
  }

  lemma {:induction false} LookIsSound(w: World, s: Watch, waits: Waits, covered: nat, evs: seq<Leaf.Event>, last: bool)
    requires waits.Valid() && Consistent(w, s.h, {})
    ensures var l := Look(Checking(w, waits, covered), s, evs, last);
            SoundEnd(w, s.h, l.s.h, l.err) && TallyOk(w.org, l.s.h.latest, l.tally)
    decreases |evs|
  {
    if evs == [] {
      SoundItself(w, s.h);
    } else {
      CheckTallies(w, s, waits, covered, evs[0]);
      var (s1, v) := CheckEventNow(w, s, waits, covered, evs[0]);
      if v.Ok? {
        LookIsSound(w, s1, waits, covered, evs[1..], last);
        var rest := Look(Checking(w, waits, covered), s1, evs[1..], last);
        LookMore(w, s.h, s1.h, Tally(evs[0], v.value.0, v.value.1), rest);
      }
    }
  }

  /** What a whole check leaves: a sound history, and every verified event committed under its head. */
  ghost predicate ChecksSoundly(w: World, h: History, r: Checked) {
    && Sound(w, h, r.h) && TallyOk(w.org, r.h.latest, r.tally)
    && (r.err.Some? && r.err.value.LogError? ==> Holds(w, r.h.asked, r.err.value.err))
  }

  lemma EndsSoundly(w: World, h: History, r: Checked, h1: History, err: Option<Err>, tally: seq<Tally>)
    requires SoundEnd(w, h, h1, err) && TallyOk(w.org, h1.latest, tally) && r.h == h1 && r.tally == tally
    requires r.err == LogEnding(err) || (r.err.Some? && !r.err.value.LogError?)
    ensures ChecksSoundly(w, h, r)
  {}

  /** Where a check breaks off, or that it comes to its end. */
  lemma CheckAllCases(w: World, h: History, waits: Waits, sifted: Sifted, s1: Watch, err: Option<Err>, first: Looked, second: Looked)
    requires waits.Valid() && AwaitCoverage(w, Watch(h, 0), waits, Want(sifted.parsed)) == (s1, err)
    requires var check := Checking(w, waits, h.latest.size);
             first == Look(check, s1, sifted.parsed, false) && second == Look(check, first.s, first.deferred, true)
    ensures var r := CheckAll(w, h, waits, sifted);
            if err.Some? then r.h == s1.h && r.tally == [] && r.err == LogEnding(err)
            else if first.err.Some? then r.h == first.s.h && r.tally == first.tally && r.err == LogEnding(first.err)
            else
              && r.h == second.s.h && r.tally == first.tally + second.tally
              && (r.err == LogEnding(second.err) || (r.err.Some? && !r.err.value.LogError?))
  {}

  lemma CheckAllIsSound(w: World, h: History, waits: Waits, sifted: Sifted)
    requires waits.Valid() && Consistent(w, h, {})
    ensures ChecksSoundly(w, h, CheckAll(w, h, waits, sifted))
  {
    var (s1, err) := AwaitCoverage(w, Watch(h, 0), waits, Want(sifted.parsed));
    var first := Look(Checking(w, waits, h.latest.size), s1, sifted.parsed, false);
    var second := Look(Checking(w, waits, h.latest.size), first.s, first.deferred, true);
    CheckAllCases(w, h, waits, sifted, s1, err, first, second);
    AwaitCoverageIsSound(w, h, waits, Want(sifted.parsed));
    var r := CheckAll(w, h, waits, sifted);
    if err.Some? {
      EndsSoundly(w, h, r, s1.h, err, []);
    } else {
      LooksAreSound(w, h, s1, waits, h.latest.size, sifted);
      if first.err.Some? {
        EndsSoundly(w, h, r, first.s.h, first.err, first.tally);
      } else {
        EndsSoundly(w, h, r, second.s.h, second.err, first.tally + second.tally);
      }
    }
  }

  lemma AwaitCoverageIsSound(w: World, h: History, waits: Waits, want: nat)
    requires waits.Valid() && Consistent(w, h, {})
    ensures var (s1, err) := AwaitCoverage(w, Watch(h, 0), waits, want); SoundEnd(w, h, s1.h, err)
  {
    SoundItself(w, h);
    AwaitIsSound(w, Watch(h, 0), waits, want);
  }

  lemma LooksAreSound(w: World, h: History, s1: Watch, waits: Waits, covered: nat, sifted: Sifted)
    requires waits.Valid() && Consistent(w, h, {}) && Sound(w, h, s1.h)
    ensures var first := Look(Checking(w, waits, covered), s1, sifted.parsed, false);
            && SoundEnd(w, h, first.s.h, first.err) && TallyOk(w.org, first.s.h.latest, first.tally)
            && var second := Look(Checking(w, waits, covered), first.s, first.deferred, true);
               first.err.None? ==>
                 SoundEnd(w, h, second.s.h, second.err) && TallyOk(w.org, second.s.h.latest, first.tally + second.tally)
  {
    LookIsSound(w, s1, waits, covered, sifted.parsed, false);
    var first := Look(Checking(w, waits, covered), s1, sifted.parsed, false);
    SoundTransitive(w, h, s1.h, first.s.h);
    if first.err.None? {
      LookIsSound(w, first.s, waits, covered, first.deferred, true);
      var second := Look(Checking(w, waits, covered), first.s, first.deferred, true);
      SoundTransitive(w, h, first.s.h, second.s.h);
      TallyOkLater(w.org, first.s.h.latest, second.s.h.latest, first.tally);
    }
  }

  // ---------------------------------------------------------------------
  // Every row is accounted for
  // ---------------------------------------------------------------------

  ghost predicate InRows(rows: seq<Row>, probe: Prober, ev: Leaf.Event) {
    exists row <- rows :: EventIn(row, probe) == Some(ev)
  }

  lemma {:induction false} SiftedFromRows(rows: seq<Row>, probe: Prober)
    ensures var s := Sift(rows, probe);
            && |s.parsed| + |s.failed| + s.skipped == |rows|
            && forall ev <- s.parsed :: InRows(rows, probe, ev)
  {
    if rows != [] {
      var less, row := rows[..|rows| - 1], rows[|rows| - 1];
      assert rows == less + [row];
      SiftedFromRows(less, probe);
      forall ev <- Sift(rows, probe).parsed ensures InRows(rows, probe, ev) {
        if ev in Sift(less, probe).parsed {
          var x :| x in less && EventIn(x, probe) == Some(ev);
          assert x in rows;
        } else {
          assert row in rows;
        }
      }
    }
  }

  /** A look tallies or holds back each of its events, up to an error, and no other. */
  ghost predicate LooksAt(evs: seq<Leaf.Event>, l: Looked) {
    && (forall t <- l.tally :: t.ev in evs) && (forall ev <- l.deferred :: ev in evs)
    && (l.err == None ==> |l.tally| + |l.deferred| == |evs|)
  }

  lemma {:induction false} LookLooksAt(check: Checker, s: Watch, evs: seq<Leaf.Event>, last: bool)
    ensures var l := Look(check, s, evs, last); LooksAt(evs, l) && (last ==> l.deferred == [])
    decreases |evs|
  {
    if evs != [] {
      assert evs == [evs[0]] + evs[1..];
      LookLooksAt(check, check(s, evs[0]).0, evs[1..], last);
    }
  }

  /** Each tally is of a row's event, and unless the log failed every row is accounted for once. */
  ghost predicate Accounts(rows: seq<Row>, probe: Prober, r: Checked) {
    && (forall t <- r.tally :: InRows(rows, probe, t.ev))
    && (r.err == None || !r.err.value.LogError? ==> |r.tally| + |r.sifted.failed| + r.sifted.skipped == |rows|)
  }

  lemma CheckAllAccounts(w: World, h: History, waits: Waits, rows: seq<Row>, probe: Prober)
    requires waits.Valid()
    ensures Accounts(rows, probe, CheckAll(w, h, waits, Sift(rows, probe)))
  {
    var sifted := Sift(rows, probe);
    SiftedFromRows(rows, probe);
    var (s1, err) := AwaitCoverage(w, Watch(h, 0), waits, Want(sifted.parsed));
    var check := Checking(w, waits, h.latest.size);
    var first := Look(check, s1, sifted.parsed, false);
    LookLooksAt(check, s1, sifted.parsed, false);
    LookLooksAt(check, first.s, first.deferred, true);
  }

  /**
   * Against every server, each event found verified is one of the rows' and is
   * committed at its own index under the head the pass ends on; that head
   * extends the saved anchor and every baseline, and is what is saved. Unless
   * the log failed, every row ends up tallied, failed or passed over.
   */
  lemma CheckEventsIsSound(w: World, saved: Option<Option<Note>>, baselines: seq<Checkpoint>, waits: Waits, rows: seq<Row>, probe: Prober)
    requires waits.Valid() && forall b <- baselines :: Backed(w, b)
    ensures match CheckEvents(w, saved, baselines, waits, rows, probe)
            case Err(e) => Holds(w, Tried(w, saved, baselines), e)
            case Ok(r) =>
              && Consistent(w, r.h, {}) && TallyOk(w.org, r.h.latest, r.tally) && Accounts(rows, probe, r)
              && r.h.saved == (if saved == None then None else Some(r.h.latest.raw))
              && (r.err.Some? && r.err.value.LogError? ==> Holds(w, r.h.asked, r.err.value.err))
              && (forall b <- baselines :: Extends(r.h.latest, b))
              && (SavedCheckpoint(w, saved).Some? ==>
                    SavedCheckpoint(w, saved).value.Ok? && Extends(r.h.latest, SavedCheckpoint(w, saved).value.value))
  {
    StartKeeps(w, saved, baselines);
    var start := Start(w, saved, baselines);
    if start.Started? {
      var h := start.h;
      CheckAllIsSound(w, h, waits, Sift(rows, probe));
      CheckAllAccounts(w, h, waits, rows, probe);
      var r := CheckAll(w, h, waits, Sift(rows, probe));
      forall b <- baselines ensures Extends(r.h.latest, b) {
        assert Proven(h, b);
        ExtendsTransitive(b, h.latest, r.h.latest);
      }
      if SavedCheckpoint(w, saved).Some? {
        ExtendsTransitive(SavedCheckpoint(w, saved).value.value, h.latest, r.h.latest);
      }
    }
  }
}
