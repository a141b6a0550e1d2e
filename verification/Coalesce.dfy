/**
 * Collapsing the copies of one activity id that a single page may carry. The
 * verdict must come out alike in whatever order they stand.
 */
module Coalesce {
  import opened Basics
  import opened Server
  import opened Inclusion
  import opened Feed
  import Leaf

  predicate Indexed(se: Served) {
    se.ev.index.Some?
  }

  /** Two copies that both claim a position and cannot both be right. */
  predicate Clash(a: Served, b: Served) {
    Indexed(a) && Indexed(b) && (a.ev.index != b.ev.index || Leaf.Hash(a.ev) != Leaf.Hash(b.ev))
  }

  /** One more copy of an id already held. */
  function Merge(cur: Served, se: Served): Served {
    if cur.conflict.Some? then cur
    else if Indexed(cur) && Indexed(se) && cur.ev.index != se.ev.index then
      cur.(conflict := Some(EventFailure(se.ev.id, cur.ev.index, TwoIndices)))
    else if Indexed(cur) && Indexed(se) && Leaf.Hash(cur.ev) != Leaf.Hash(se.ev) then
      cur.(conflict := Some(EventFailure(se.ev.id, cur.ev.index, TwoContents)))
    else if !Indexed(cur) && Indexed(se) then se.(created := cur.created)
    else cur
  }

  /** Where an id is held, or |out|. */
  function Position(out: seq<Served>, id: Id): (j: nat)
    ensures j <= |out|
    ensures j < |out| ==> out[j].ev.id == id
    ensures forall i :: 0 <= i < j ==> out[i].ev.id != id
  {
    if out == [] || out[0].ev.id == id then 0 else 1 + Position(out[1..], id)
  }

  function AddCopy(out: seq<Served>, se: Served): seq<Served> {
    var j := Position(out, se.ev.id);
    if j == |out| then out + [se] else out[j := Merge(out[j], se)]
  }

  function Collapsed(copies: seq<Served>): seq<Served> {
    if copies == [] then [] else AddCopy(Collapsed(copies[..|copies| - 1]), copies[|copies| - 1])
  }

  /** A reader of served events, as it turns one row's bytes into an event. */
  type Reader = Bytes -> Option<Leaf.Event>

  /** The rows that parse, in order, and a finding for each that does not. */
  function Parsed(rows: seq<Row>, parse: Reader): seq<Served> {
    if rows == [] then []
    else
      var row := rows[|rows| - 1];
      var ev := parse(row.raw);
      Parsed(rows[..|rows| - 1], parse) + (if ev.Some? then [Served(ev.value, row.created, None)] else [])
  }

  function Unparsed(rows: seq<Row>, parse: Reader): seq<EventFailure> {
    if rows == [] then []
    else
      var row := rows[|rows| - 1];
      Unparsed(rows[..|rows| - 1], parse)
      + (if parse(row.raw) == None then [EventFailure(row.name, None, CannotRebuild)] else [])
  }

  ghost predicate Places(at: map<Id, nat>, out: seq<Served>) {
    && (forall id <- at :: at[id] < |out| && out[at[id]].ev.id == id)
    && (forall i :: 0 <= i < |out| ==> out[i].ev.id in at && at[out[i].ev.id] == i)
  }

  lemma CollapsedOneMore(copies: seq<Served>, se: Served)
    ensures Collapsed(copies + [se]) == AddCopy(Collapsed(copies), se)
  {
    assert (copies + [se])[..|copies|] == copies;
  }

  lemma ReadOneMore(rows: seq<Row>, i: nat, parse: Reader)
    requires i < |rows|
    ensures var ev := parse(rows[i].raw);
            && Parsed(rows[..i + 1], parse)
               == (if ev == None then Parsed(rows[..i], parse)
                   else Parsed(rows[..i], parse) + [Served(ev.value, rows[i].created, None)])
            && Unparsed(rows[..i + 1], parse)
               == (if ev == None then Unparsed(rows[..i], parse) + [EventFailure(rows[i].name, None, CannotRebuild)]
                   else Unparsed(rows[..i], parse))
  {
    assert rows[..i + 1][..i] == rows[..i];
  }

  lemma PlacesIsPosition(at: map<Id, nat>, out: seq<Served>, id: Id)
    requires Places(at, out)
    ensures Position(out, id) == (if id in at then at[id] else |out|)
  {}

  /** Updates the entry an id already has with one more copy of it. */
  method MergeCopy(held: seq<Served>, j: nat, se: Served) returns (out: seq<Served>)
    requires j < |held|
    ensures out == held[j := Merge(held[j], se)]
  {
    out := held;
    var cur := held[j];
    if cur.conflict.Some? {
    } else if cur.ev.index.Some? && se.ev.index.Some? && cur.ev.index != se.ev.index {
      out := out[j := cur.(conflict := Some(EventFailure(se.ev.id, cur.ev.index, TwoIndices)))];
    } else if cur.ev.index.Some? && se.ev.index.Some? && Leaf.Hash(cur.ev) != Leaf.Hash(se.ev) {
      out := out[j := cur.(conflict := Some(EventFailure(se.ev.id, cur.ev.index, TwoContents)))];
    } else if cur.ev.index == None && se.ev.index.Some? {
      out := out[j := se.(created := cur.created)];
    }
  }

  lemma PlacesAfterMerge(at: map<Id, nat>, out: seq<Served>, j: nat, se: Served)
    requires Places(at, out) && j < |out| && se.ev.id == out[j].ev.id
    ensures Places(at, out[j := Merge(out[j], se)])
  {}

  lemma PlacesAfterFirst(at: map<Id, nat>, out: seq<Served>, se: Served)
    requires Places(at, out) && se.ev.id !in at
    ensures Places(at[se.ev.id := |out|], out + [se])
  {}

  /** Collapses a page in one pass over its rows, updating what it holds of each id. */
  method CoalescePage(rows: seq<Row>, parse: Reader) returns (out: seq<Served>, bad: seq<EventFailure>)
    ensures out == Collapsed(Parsed(rows, parse)) && bad == Unparsed(rows, parse)
  {
    out, bad := [], [];
    var at: map<Id, nat> := map[];
    ghost var copies: seq<Served> := [];
    for i := 0 to |rows|
      invariant copies == Parsed(rows[..i], parse) && out == Collapsed(copies)
      invariant bad == Unparsed(rows[..i], parse)
      invariant Places(at, out)
    {
      var row := rows[i];
      ReadOneMore(rows, i, parse);
      var ev := parse(row.raw);
      if ev == None {
        bad := bad + [EventFailure(row.name, None, CannotRebuild)];
        continue;
      }
      var se := Served(ev.value, row.created, None);
      PlacesIsPosition(at, out, ev.value.id);
      CollapsedOneMore(copies, se);
      copies := copies + [se];
      if ev.value.id !in at {
        PlacesAfterFirst(at, out, se);
        at := at[ev.value.id := |out|];
        out := out + [se];
        continue;
      }
      var j := at[ev.value.id];
      PlacesAfterMerge(at, out, j, se);
      out := MergeCopy(out, j, se);
    }
    assert rows[..|rows|] == rows;
  }

  // ---------------------------------------------------------------------
  // What is kept of each id
  // ---------------------------------------------------------------------

  predicate IsCopy(copies: seq<Served>, se: Served, id: Id) {
    se in copies && se.ev.id == id
  }

  /** Two copies of this id clash. */
  ghost predicate Clashes(copies: seq<Served>, id: Id) {
    exists a, b :: IsCopy(copies, a, id) && IsCopy(copies, b, id) && Clash(a, b)
  }

  /** Some copy of this id claims a position. */
  ghost predicate Claimed(copies: seq<Served>, id: Id) {
    exists a :: IsCopy(copies, a, id) && Indexed(a)
  }

  /** What one kept entry says of all the copies of its id. */
  ghost predicate Sums(e: Served, copies: seq<Served>) {
    var id := e.ev.id;
    && (e.conflict.Some? <==> Clashes(copies, id))
    && (Indexed(e) <==> Claimed(copies, id))
    && (exists a :: IsCopy(copies, a, id) && a.ev == e.ev)
    && (e.conflict == None ==> forall a :: IsCopy(copies, a, id) ==> !Clash(a, e))
    && (e.conflict.Some? ==> e.conflict.value.id == id)
  }

  /** One entry for each id served, and nothing else. */
  ghost predicate Summarizes(out: seq<Served>, copies: seq<Served>) {
    && (forall i, j :: 0 <= i < j < |out| ==> out[i].ev.id != out[j].ev.id)
    && (forall a <- copies :: Position(out, a.ev.id) < |out|)
    && (forall e <- out :: Sums(e, copies))
  }

  predicate Fresh(copies: seq<Served>) {
    forall a <- copies :: a.conflict == None
  }

  lemma CopyOfMore(copies: seq<Served>, se: Served, a: Served, id: Id)
    ensures IsCopy(copies + [se], a, id) <==> IsCopy(copies, a, id) || (a == se && a.ev.id == id)
  {}

  lemma ClashSymmetric(a: Served, b: Served)
    ensures Clash(a, b) == Clash(b, a)
  {}

  lemma ClashThrough(a: Served, b: Served, c: Served)
    requires Indexed(b) && Clash(a, c)
    ensures Clash(a, b) || Clash(c, b)
  {}

  lemma SumsOther(e: Served, copies: seq<Served>, se: Served)
    requires Sums(e, copies) && se.ev.id != e.ev.id
    ensures Sums(e, copies + [se])
  {
    forall a { CopyOfMore(copies, se, a, e.ev.id); }
    assert forall a :: IsCopy(copies + [se], a, e.ev.id) <==> IsCopy(copies, a, e.ev.id);
  }

  lemma SumsFirst(se: Served, copies: seq<Served>)
    requires se.conflict == None && forall a <- copies :: a.ev.id != se.ev.id
    ensures Sums(se, copies + [se])
  {
    forall a { CopyOfMore(copies, se, a, se.ev.id); }
    assert IsCopy(copies + [se], se, se.ev.id);
  }

  /** Merging one more copy of its id keeps what an entry says. */
  lemma SumsMerged(cur: Served, copies: seq<Served>, se: Served)
    requires Sums(cur, copies) && se.ev.id == cur.ev.id && se.conflict == None
    ensures Sums(Merge(cur, se), copies + [se])
  {
    var id, more, e := cur.ev.id, copies + [se], Merge(cur, se);
    forall a { CopyOfMore(copies, se, a, id); }
    assert IsCopy(more, se, id);
    var kept :| IsCopy(copies, kept, id) && kept.ev == cur.ev;
    assert IsCopy(more, kept, id);
    if Clashes(copies, id) {
      var a, b :| IsCopy(copies, a, id) && IsCopy(copies, b, id) && Clash(a, b);
      assert IsCopy(more, a, id) && IsCopy(more, b, id);
    } else {
      assert cur.conflict == None;
      forall a | IsCopy(more, a, id) && Clash(a, se)
        ensures Clash(cur, se)
      {
        if a != se {
          assert Claimed(copies, id);
          ClashThrough(a, cur, se);
          assert !Clash(a, cur);
          ClashSymmetric(cur, se);
        }
      }
      assert Clash(cur, se) ==> Clash(kept, se);
      forall a, b | IsCopy(more, a, id) && IsCopy(more, b, id) && Clash(a, b)
        ensures Clash(cur, se)
      {
        ClashSymmetric(a, b);
        if a == se {
          ClashSymmetric(b, se);
        } else if b != se {
          assert IsCopy(copies, a, id) && IsCopy(copies, b, id);
        }
      }
    }
    if Claimed(copies, id) {
      var a :| IsCopy(copies, a, id) && Indexed(a);
      assert IsCopy(more, a, id);
    }
    assert Indexed(e) <==> Indexed(cur) || Indexed(se);
  }

  lemma {:induction false} CollapsedSummarizes(copies: seq<Served>)
    requires Fresh(copies)
    ensures Summarizes(Collapsed(copies), copies)
  {
    if copies != [] {
      var less, se := copies[..|copies| - 1], copies[|copies| - 1];
      assert copies == less + [se];
      CollapsedSummarizes(less);
      AddCopySummarizes(Collapsed(less), less, se);
    }
  }

  lemma AddCopySummarizes(out: seq<Served>, copies: seq<Served>, se: Served)
    requires Summarizes(out, copies) && se.conflict == None
    ensures Summarizes(AddCopy(out, se), copies + [se])
  {
    var j := Position(out, se.ev.id);
    var out' := AddCopy(out, se);
    assert forall i :: 0 <= i < |out| ==> out'[i].ev.id == out[i].ev.id;
    forall a <- copies + [se] ensures Position(out', a.ev.id) < |out'| {
      var i := if a.ev.id == se.ev.id then j else Position(out, a.ev.id);
      assert i < |out'| && out'[i].ev.id == a.ev.id;
    }
    forall e <- out' ensures Sums(e, copies + [se]) {
      var i :| 0 <= i < |out'| && out'[i] == e;
      if i != j {
        assert out'[i] == out[i];
        SumsOther(e, copies, se);
      } else if j < |out| {
        SumsMerged(out[j], copies, se);
      } else {
        forall a <- copies ensures a.ev.id != se.ev.id {
          assert Position(out, a.ev.id) < |out|;
        }
        SumsFirst(se, copies);
      }
    }
  }

  // ---------------------------------------------------------------------
  // The order of a page does not matter
  // ---------------------------------------------------------------------

  /** What the kept entries of an id agree on, in two orders of one page. */
  ghost predicate Agree(x: Served, y: Served) {
    && (x.conflict.Some? <==> y.conflict.Some?)
    && (Indexed(x) <==> Indexed(y))
    && (x.conflict == None && Indexed(x) ==>
          x.ev.index == y.ev.index && Leaf.Hash(x.ev) == Leaf.Hash(y.ev))
  }

  lemma SumsAgree(x: Served, y: Served, a: seq<Served>, b: seq<Served>)
    requires x.ev.id == y.ev.id && Sums(x, a) && Sums(y, b)
    requires forall c :: c in a <==> c in b
    ensures Agree(x, y)
  {
    var id := x.ev.id;
    assert forall c :: IsCopy(a, c, id) <==> IsCopy(b, c, id);
    assert Clashes(a, id) <==> Clashes(b, id);
    assert Claimed(a, id) <==> Claimed(b, id);
    var d :| IsCopy(b, d, id) && d.ev == y.ev;
    if x.conflict == None && Indexed(x) {
      assert IsCopy(a, d, id) && !Clash(d, x);
    }
  }

  lemma KeptIfServed(copies: seq<Served>, id: Id)
    requires Fresh(copies)
    ensures Position(Collapsed(copies), id) < |Collapsed(copies)| <==> exists c :: IsCopy(copies, c, id)
  {
    CollapsedSummarizes(copies);
    var out := Collapsed(copies);
    var j := Position(out, id);
    if c :| IsCopy(copies, c, id) {
      assert Position(out, c.ev.id) < |out|;
    }
    if j < |out| {
      assert out[j] in out && Sums(out[j], copies);
    }
  }

  /**
   * However a page is reordered, each id is kept or not alike, has a conflict
   * alike, and without one keeps the same index, and the same content if any
   * copy claimed a position.
   */
  lemma OrderDoesNotMatter(a: seq<Served>, b: seq<Served>, id: Id)
    requires multiset(a) == multiset(b) && Fresh(a)
    ensures var x, y := Collapsed(a), Collapsed(b);
            var i, j := Position(x, id), Position(y, id);
            && (i < |x| <==> j < |y|)
            && (i < |x| && j < |y| ==> Agree(x[i], y[j]))
  {
    SameCopies(a, b);
    var x, y := Collapsed(a), Collapsed(b);
    var i, j := Position(x, id), Position(y, id);
    KeptIfServed(a, id);
    KeptIfServed(b, id);
    assert (exists c :: IsCopy(a, c, id)) <==> (exists c :: IsCopy(b, c, id)) by {
      assert forall c :: IsCopy(a, c, id) <==> IsCopy(b, c, id);
    }
    if i < |x| {
      CollapsedSummarizes(a);
      CollapsedSummarizes(b);
      assert x[i] in x && y[j] in y;
      SumsAgree(x[i], y[j], a, b);
    }
  }

  lemma SameCopies(a: seq<Served>, b: seq<Served>)
    requires multiset(a) == multiset(b)
    ensures forall c :: c in a <==> c in b
    ensures Fresh(a) ==> Fresh(b)
  {
    assert forall c :: c in a <==> c in multiset(a);
    assert forall c :: c in b <==> c in multiset(b);
  }

  /** With no copy claiming a position, the first copy served is the one kept. */
  lemma {:induction false} FirstIsKept(c: Served, rest: seq<Served>)
    requires Fresh([c] + rest) && !Claimed([c] + rest, c.ev.id)
    ensures var out := Collapsed([c] + rest);
            var i := Position(out, c.ev.id);
            i < |out| && out[i] == c
    decreases |rest|
  {
    var copies := [c] + rest;
    if rest == [] {
      assert copies[..0] == [];
      assert Collapsed(copies) == [c];
    } else {
      var less, se := rest[..|rest| - 1], rest[|rest| - 1];
      assert copies == ([c] + less) + [se];
      forall a | IsCopy([c] + less, a, c.ev.id) ensures !Indexed(a) {
        assert IsCopy(copies, a, c.ev.id);
      }
      FirstIsKept(c, less);
      CollapsedOneMore([c] + less, se);
      if se.ev.id == c.ev.id {
        assert IsCopy(copies, se, c.ev.id);
      }
      FirstStays(Collapsed([c] + less), c, se);
    }
  }

  lemma FirstStays(out: seq<Served>, c: Served, se: Served)
    requires Position(out, c.ev.id) < |out| && out[Position(out, c.ev.id)] == c
    requires se.ev.id == c.ev.id ==> !Indexed(se) && !Indexed(c)
    ensures var out' := AddCopy(out, se);
            var i := Position(out', c.ev.id);
            i < |out'| && out'[i] == c
  {
    var i, out' := Position(out, c.ev.id), AddCopy(out, se);
    if se.ev.id == c.ev.id {
      assert Merge(c, se) == c;
    }
    assert out'[i] == c;
    assert forall k :: 0 <= k < i ==> out'[k].ev.id == out[k].ev.id;
  }

  /** The page with one of its copies brought to the front. */
  function Fronted(copies: seq<Served>, i: nat): seq<Served>
    requires i < |copies|
  {
    [copies[i]] + (copies[..i] + copies[i + 1..])
  }

  lemma FrontedIsReordered(copies: seq<Served>, i: nat)
    requires i < |copies|
    ensures multiset(Fronted(copies, i)) == multiset(copies)
  {
    assert copies == copies[..i] + [copies[i]] + copies[i + 1..];
  }

  /**
   * For an id no copy of which claims a position, which content is kept does
   * not depend on the order exactly when all its copies say the same.
   */
  lemma UnclaimedOrderExactly(copies: seq<Served>, id: Id)
    requires Fresh(copies) && !Claimed(copies, id)
    ensures (forall a, b :: IsCopy(copies, a, id) && IsCopy(copies, b, id) ==> a.ev == b.ev)
        <==> (forall p, q | multiset(p) == multiset(copies) && multiset(q) == multiset(copies)
                :: KeptEvent(p, id) == KeptEvent(q, id))
  {
    if forall a, b :: IsCopy(copies, a, id) && IsCopy(copies, b, id) ==> a.ev == b.ev {
      forall p, q | multiset(p) == multiset(copies) && multiset(q) == multiset(copies)
        ensures KeptEvent(p, id) == KeptEvent(q, id)
      {
        KeptIsACopy(copies, p, id);
        KeptIsACopy(copies, q, id);
      }
    } else {
      var a, b :| IsCopy(copies, a, id) && IsCopy(copies, b, id) && a.ev != b.ev;
      var i :| 0 <= i < |copies| && copies[i] == a;
      var j :| 0 <= j < |copies| && copies[j] == b;
      FrontedKeeps(copies, i);
      FrontedKeeps(copies, j);
      FrontedIsReordered(copies, i);
      FrontedIsReordered(copies, j);
      assert KeptEvent(Fronted(copies, i), id) != KeptEvent(Fronted(copies, j), id);
    }
  }

  function KeptEvent(copies: seq<Served>, id: Id): Option<Leaf.Event> {
    var out := Collapsed(copies);
    var i := Position(out, id);
    if i < |out| then Some(out[i].ev) else None
  }

  lemma KeptIsACopy(copies: seq<Served>, p: seq<Served>, id: Id)
    requires Fresh(copies) && multiset(p) == multiset(copies)
    ensures match KeptEvent(p, id)
            case None => forall c :: !IsCopy(copies, c, id)
            case Some(ev) => exists c :: IsCopy(copies, c, id) && c.ev == ev
  {
    SameCopies(copies, p);
    KeptIfServed(p, id);
    assert forall c :: IsCopy(copies, c, id) <==> IsCopy(p, c, id);
    CollapsedSummarizes(p);
    var out := Collapsed(p);
    var i := Position(out, id);
    if i < |out| {
      assert out[i] in out && Sums(out[i], p);
    }
  }

  lemma FrontedKeeps(copies: seq<Served>, i: nat)
    requires i < |copies| && Fresh(copies) && !Claimed(copies, copies[i].ev.id)
    ensures KeptEvent(Fronted(copies, i), copies[i].ev.id) == Some(copies[i].ev)
  {
    var c, rest := copies[i], copies[..i] + copies[i + 1..];
    FrontedIsReordered(copies, i);
    SameCopies(copies, Fronted(copies, i));
    forall a | IsCopy([c] + rest, a, c.ev.id) ensures !Indexed(a) {
      assert a in copies;
      assert IsCopy(copies, a, c.ev.id);
    }
    FirstIsKept(c, rest);
  }
}
