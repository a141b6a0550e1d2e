/**
 * What copies without an index change on the page they are served on: nothing
 * but their own entry, or, beside a copy with an index, when and where that
 * one is listed.
 */
module PageCopies {
  import opened Basics
  import opened Server
  import opened Inclusion
  import opened Feed
  import opened Coalesce
  import opened NullCopies

  /** A page's copies without this id's copies that claim no position. */
  function Placed(copies: seq<Served>, id: Id): seq<Served> {
    if copies == [] then []
    else
      var se := copies[|copies| - 1];
      Placed(copies[..|copies| - 1], id) + (if se.ev.id == id && !Indexed(se) then [] else [se])
  }

  /** What collapsing a page keeps of an id. */
  function Held(copies: seq<Served>, id: Id): Option<Served> {
    if copies == [] then None
    else
      var e, se := Held(copies[..|copies| - 1], id), copies[|copies| - 1];
      if se.ev.id != id then e else if e == None then Some(se) else Some(Merge(e.value, se))
  }

  lemma AddCopyAt(out: seq<Served>, se: Served, id: Id)
    ensures var out' := AddCopy(out, se);
            var i := Position(out, id);
            if id != se.ev.id then
              (Position(out', id) < |out'| <==> i < |out|) && (i < |out| ==> Position(out', id) == i && out'[i] == out[i])
            else
              Position(out', id) == i && out'[i] == (if i < |out| then Merge(out[i], se) else se)
  {
    var out', i, j := AddCopy(out, se), Position(out, id), Position(out, se.ev.id);
    assert forall k :: 0 <= k < |out| ==> out'[k].ev.id == out[k].ev.id;
    var i' := Position(out', id);
    if i < |out| {
      assert i' == i;
    } else if id == se.ev.id {
      assert out'[|out|] == se;
    }
  }

  lemma {:induction false} HeldIsCollapsed(copies: seq<Served>, id: Id)
    ensures var out := Collapsed(copies);
            var i := Position(out, id);
            (Held(copies, id).Some? <==> i < |out|) && (i < |out| ==> Held(copies, id) == Some(out[i]))
  {
    if copies != [] {
      var less, se := copies[..|copies| - 1], copies[|copies| - 1];
      HeldIsCollapsed(less, id);
      AddCopyAt(Collapsed(less), se, id);
    }
  }

  lemma PlacedMore(copies: seq<Served>, se: Served, id: Id)
    ensures Placed(copies + [se], id) == Placed(copies, id) + (if se.ev.id == id && !Indexed(se) then [] else [se])
  {
    assert (copies + [se])[..|copies|] == copies;
  }

  lemma HeldMore(copies: seq<Served>, se: Served, id: Id)
    ensures Held(copies + [se], id)
            == if se.ev.id != id then Held(copies, id)
               else if Held(copies, id) == None then Some(se) else Some(Merge(Held(copies, id).value, se))
  {
    assert (copies + [se])[..|copies|] == copies;
  }

  /** Copies without an index change nothing of any other id. */
  lemma {:induction false} OthersHeld(copies: seq<Served>, id: Id, x: Id)
    requires x != id
    ensures Held(Placed(copies, id), x) == Held(copies, x)
  {
    if copies != [] {
      var less, se := copies[..|copies| - 1], copies[|copies| - 1];
      OthersHeld(less, id, x);
      if se.ev.id == id && !Indexed(se) {
        assert Placed(less, id) + [] == Placed(less, id);
      } else {
        HeldMore(Placed(less, id), se, x);
      }
    }
  }

  /**
   * What is kept of an id with its copies without an index, and without them:
   * the same event and the same conflict, listed at another time perhaps, if
   * some copy has an index; otherwise an entry that claims nothing, or none.
   */
  ghost predicate HeldAlike(e: Option<Served>, less: Option<Served>) {
    && (e == None ==> less == None)
    && (e.Some? && !Indexed(e.value) ==> less == None && e.value.conflict == None)
    && (e.Some? && Indexed(e.value) ==>
          less.Some? && less.value.ev == e.value.ev && less.value.conflict == e.value.conflict)
  }

  lemma HeldAlikeMore(e: Option<Served>, less: Option<Served>, se: Served)
    requires HeldAlike(e, less) && se.conflict == None
    ensures HeldAlike(if e == None then Some(se) else Some(Merge(e.value, se)),
                      if !Indexed(se) then less else if less == None then Some(se) else Some(Merge(less.value, se)))
  {}

  lemma {:induction false} SamePageHeld(copies: seq<Served>, id: Id)
    requires Coalesce.Fresh(copies)
    ensures HeldAlike(Held(copies, id), Held(Placed(copies, id), id))
  {
    if copies != [] {
      var less, se := copies[..|copies| - 1], copies[|copies| - 1];
      assert copies == less + [se];
      SamePageHeld(less, id);
      assert se in copies;
      HeldAlikeMore(Held(less, id), Held(Placed(less, id), id), se);
      if se.ev.id == id && !Indexed(se) {
        assert Placed(less, id) + [] == Placed(less, id);
      } else {
        HeldMore(Placed(less, id), se, id);
      }
    }
  }

  /**
   * On one page, copies of an id without an index change of what the page
   * comes to only when and where the id's indexed copy is listed: every entry
   * of another id is the same, and this id's has the same event and conflict.
   */
  lemma SamePageChangesLittle(copies: seq<Served>, id: Id)
    requires Coalesce.Fresh(copies)
    ensures var out, less := Collapsed(copies), Collapsed(Placed(copies, id));
            && (forall x :: x != id ==>
                  var i, j := Position(out, x), Position(less, x);
                  (i < |out| <==> j < |less|) && (i < |out| ==> less[j] == out[i]))
            && var i, j := Position(out, id), Position(less, id);
               (j < |less| <==> i < |out| && Indexed(out[i]))
               && (j < |less| ==> less[j].ev == out[i].ev && less[j].conflict == out[i].conflict)
  {
    forall x
      ensures var i := Position(Collapsed(copies), x);
              (Held(copies, x).Some? <==> i < |Collapsed(copies)|) && (i < |Collapsed(copies)| ==> Held(copies, x) == Some(Collapsed(copies)[i]))
    {
      HeldIsCollapsed(copies, x);
    }
    var less := Placed(copies, id);
    forall x
      ensures var j := Position(Collapsed(less), x);
              (Held(less, x).Some? <==> j < |Collapsed(less)|) && (j < |Collapsed(less)| ==> Held(less, x) == Some(Collapsed(less)[j]))
    {
      HeldIsCollapsed(less, x);
    }
    forall x | x != id ensures Held(less, x) == Held(copies, x) {
      OthersHeld(copies, id, x);
    }
    SamePageHeld(copies, id);
  }

  // ---------------------------------------------------------------------
  // A page with no indexed copy
  // ---------------------------------------------------------------------

  lemma {:induction false} StripJoin(w: World, a: seq<Served>, b: seq<Served>, id: Id)
    ensures Strip(w, a + b, id) == Strip(w, a, id) + Strip(w, b, id)
  {
    if a == [] {
      assert a + b == b;
    } else {
      assert (a + b)[1..] == a[1..] + b;
      StripJoin(w, a[1..], b, id);
    }
  }

  lemma StripOne(w: World, se: Served, id: Id)
    ensures Strip(w, [se], id) == if NullCopy(w, se, id) then [] else [se]
  {}

  lemma {:induction false} StripHasNo(w: World, out: seq<Served>, id: Id, x: Id)
    requires forall k :: 0 <= k < |out| ==> out[k].ev.id != x
    ensures Position(Strip(w, out, id), x) == |Strip(w, out, id)|
  {
    if out != [] {
      assert forall k :: 0 <= k < |out[1..]| ==> out[1..][k].ev.id == out[k + 1].ev.id;
      StripHasNo(w, out[1..], id, x);
      PositionAfter(if NullCopy(w, out[0], id) then [] else [out[0]], Strip(w, out[1..], id), x);
    }
  }

  /** A list none of whose ids is x puts x off by its length. */
  lemma {:induction false} PositionAfter(a: seq<Served>, b: seq<Served>, x: Id)
    requires forall k :: 0 <= k < |a| ==> a[k].ev.id != x
    ensures Position(a + b, x) == |a| + Position(b, x)
  {
    if a == [] {
      assert a + b == b;
    } else {
      assert (a + b)[1..] == a[1..] + b;
      PositionAfter(a[1..], b, x);
    }
  }

  lemma Updated(l: seq<Served>, cur: Served, r: seq<Served>, m: Served)
    ensures (l + ([cur] + r))[|l| := m] == l + ([m] + r)
  {}

  /** A copy of an id already held is merged where it is held. */
  lemma AddsWhereHeld(l: seq<Served>, cur: Served, r: seq<Served>, se: Served)
    requires cur.ev.id == se.ev.id && Position(l, se.ev.id) == |l|
    ensures AddCopy(l + ([cur] + r), se) == l + ([Merge(cur, se)] + r)
  {
    PositionAfter(l, [cur] + r, se.ev.id);
    assert Position([cur] + r, se.ev.id) == 0;
    assert (l + ([cur] + r))[|l|] == cur;
    Updated(l, cur, r, Merge(cur, se));
  }

  lemma StripAround(w: World, l: seq<Served>, cur: Served, r: seq<Served>, id: Id)
    requires cur.ev.id != id
    ensures Strip(w, l + ([cur] + r), id) == Strip(w, l, id) + ([cur] + Strip(w, r, id))
  {
    StripJoin(w, l, [cur] + r, id);
    StripJoin(w, [cur], r, id);
    StripOne(w, cur, id);
  }

  lemma StripAddsHeld(w: World, l: seq<Served>, cur: Served, r: seq<Served>, se: Served, id: Id)
    requires se.ev.id != id && cur.ev.id == se.ev.id && Position(l, se.ev.id) == |l|
    ensures Strip(w, AddCopy(l + ([cur] + r), se), id) == AddCopy(Strip(w, l + ([cur] + r), id), se)
  {
    AddsWhereHeld(l, cur, r, se);
    StripAround(w, l, cur, r, id);
    StripAround(w, l, Merge(cur, se), r, id);
    StripHasNo(w, l, id, se.ev.id);
    AddsWhereHeld(Strip(w, l, id), cur, Strip(w, r, id), se);
  }

  lemma PositionOfNone(out: seq<Served>, x: Id)
    requires forall k :: 0 <= k < |out| ==> out[k].ev.id != x
    ensures Position(out, x) == |out|
  {}

  lemma PositionInFront(out: seq<Served>, x: Id, j: nat)
    requires j == Position(out, x) < |out|
    ensures Position(out[..j], x) == j && out == out[..j] + ([out[j]] + out[j + 1..])
  {
    assert forall k :: 0 <= k < j ==> out[..j][k] == out[k];
    PositionOfNone(out[..j], x);
  }

  /** Adding a copy of another id and stripping may trade places. */
  lemma StripAdds(w: World, out: seq<Served>, se: Served, id: Id)
    requires se.ev.id != id
    ensures Strip(w, AddCopy(out, se), id) == AddCopy(Strip(w, out, id), se)
  {
    var j := Position(out, se.ev.id);
    if j == |out| {
      StripOne(w, se, id);
      StripJoin(w, out, [se], id);
      StripHasNo(w, out, id, se.ev.id);
    } else {
      PositionInFront(out, se.ev.id, j);
      StripAddsHeld(w, out[..j], out[j], out[j + 1..], se, id);
    }
  }

  /** With no indexed copy of the id on a page, dropping its copies drops its entry and nothing else. */
  lemma {:induction false} DroppedIsStripped(w: World, copies: seq<Served>, id: Id)
    requires Coalesce.Fresh(copies)
    requires forall se <- copies :: se.ev.id == id ==> !Indexed(se) && se.ev.organization == w.org
    ensures Collapsed(Placed(copies, id)) == Strip(w, Collapsed(copies), id)
    ensures forall e <- Collapsed(copies) :: e.ev.id == id ==> NullCopy(w, e, id)
  {
    if copies != [] {
      var less, se := copies[..|copies| - 1], copies[|copies| - 1];
      assert copies == less + [se];
      DroppedIsStripped(w, less, id);
      var out := Collapsed(less);
      if se.ev.id == id {
        assert Placed(less, id) + [] == Placed(less, id);
        DroppedAdds(w, out, se, id);
      } else {
        PlacedMore(less, se, id);
        CollapsedOneMore(Placed(less, id), se);
        StripAdds(w, out, se, id);
        OthersAdded(w, out, se, id);
      }
    }
  }

  lemma DroppedAdds(w: World, out: seq<Served>, se: Served, id: Id)
    requires NullCopy(w, se, id) && forall e <- out :: e.ev.id == id ==> NullCopy(w, e, id)
    ensures Strip(w, AddCopy(out, se), id) == Strip(w, out, id)
    ensures forall e <- AddCopy(out, se) :: e.ev.id == id ==> NullCopy(w, e, id)
  {
    var j := Position(out, id);
    if j == |out| {
      StripJoin(w, out, [se], id);
      StripOne(w, se, id);
    } else {
      assert out[j] in out;
      assert out[j := out[j]] == out;
    }
  }

  lemma OthersAdded(w: World, out: seq<Served>, se: Served, id: Id)
    requires se.ev.id != id && forall e <- out :: e.ev.id == id ==> NullCopy(w, e, id)
    ensures forall e <- AddCopy(out, se) :: e.ev.id == id ==> NullCopy(w, e, id)
  {}

  // ---------------------------------------------------------------------
  // When dropping the copies without an index changes nothing else
  // ---------------------------------------------------------------------

  /** The id's first copy. */
  ghost predicate StartsAt(copies: seq<Served>, i: nat, id: Id) {
    i < |copies| && copies[i].ev.id == id && forall k :: 0 <= k < i ==> copies[k].ev.id != id
  }

  /** The id's first copy with an index. */
  ghost predicate PlacedAt(copies: seq<Served>, j: nat, id: Id) {
    j < |copies| && copies[j].ev.id == id && Indexed(copies[j])
    && forall k :: 0 <= k < j && copies[k].ev.id == id ==> !Indexed(copies[k])
  }

  /** Every other id between the two is one listed before. */
  ghost predicate NothingNewBetween(copies: seq<Served>, i: nat, j: nat, id: Id)
    requires i <= |copies| && j <= |copies|
  {
    forall k :: i < k < j && copies[k].ev.id != id ==> exists l :: 0 <= l < i && copies[l].ev.id == copies[k].ev.id
  }

  /** The two were created at one time, and nothing new is listed between them. */
  ghost predicate Together(copies: seq<Served>, i: nat, j: nat, id: Id)
    requires i < |copies| && j < |copies|
  {
    copies[i].created == copies[j].created && NothingNewBetween(copies, i, j, id)
  }

  /**
   * If a copy without an index comes before the first with one, it was created
   * when that one was, and no other id is first listed between them.
   */
  ghost predicate Undisturbed(copies: seq<Served>, id: Id) {
    forall i: nat, j: nat :: StartsAt(copies, i, id) && PlacedAt(copies, j, id) && i < j ==> Together(copies, i, j, id)
  }

  lemma UndisturbedAt(copies: seq<Served>, i: nat, j: nat, id: Id)
    requires StartsAt(copies, i, id) && PlacedAt(copies, j, id)
    ensures Undisturbed(copies, id) <==> i >= j || Together(copies, i, j, id)
  {
    forall k: nat | StartsAt(copies, k, id) ensures k == i {}
    forall k: nat | PlacedAt(copies, k, id) ensures k == j {}
  }

  lemma {:induction false} FindStart(copies: seq<Served>, id: Id) returns (i: nat)
    requires exists c <- copies :: c.ev.id == id
    ensures StartsAt(copies, i, id)
  {
    var less, se := copies[..|copies| - 1], copies[|copies| - 1];
    assert copies == less + [se];
    assert forall k :: 0 <= k < |less| ==> copies[k] == less[k] && copies[k] in less;
    if exists c <- less :: c.ev.id == id {
      i := FindStart(less, id);
    } else {
      i := |less|;
    }
  }

  lemma {:induction false} FindPlaced(copies: seq<Served>, id: Id) returns (i: nat, j: nat)
    requires !NonePlaced(copies, id)
    ensures StartsAt(copies, i, id) && PlacedAt(copies, j, id)
  {
    var less, se := copies[..|copies| - 1], copies[|copies| - 1];
    assert copies == less + [se];
    assert forall k :: 0 <= k < |less| ==> copies[k] == less[k] && copies[k] in less;
    i := FindStart(copies, id);
    if NonePlaced(less, id) {
      j := |less|;
    } else {
      var _, jj := FindPlaced(less, id);
      j := jj;
    }
  }

  /** The id is listed at different places, or at one place with different times. */
  ghost predicate ListedApart(a: seq<Served>, b: seq<Served>, id: Id) {
    var i, j := Position(a, id), Position(b, id);
    i < |a| && j < |b| && (i != j || a[i].created != b[j].created)
  }

  lemma ApartStays(a: seq<Served>, b: seq<Served>, se: Served, id: Id)
    requires ListedApart(a, b, id) && Position(a, id) < |a| && Indexed(a[Position(a, id)]) && Indexed(b[Position(b, id)])
    ensures ListedApart(AddCopy(a, se), AddCopy(b, se), id)
  {
    AddCopyAt(a, se, id);
    AddCopyAt(b, se, id);
  }

  lemma {:induction false} StripNone(w: World, out: seq<Served>, id: Id)
    requires forall k :: 0 <= k < |out| ==> !NullCopy(w, out[k], id)
    ensures Strip(w, out, id) == out
  {
    if out != [] {
      StripNone(w, out[1..], id);
      assert out == [out[0]] + out[1..];
    }
  }

  /** Where an id without an index stands, it alone is stripped. */
  lemma StripsOne(w: World, out: seq<Served>, id: Id, at: nat)
    requires at < |out| && NullCopy(w, out[at], id) && forall k :: 0 <= k < |out| && k != at ==> out[k].ev.id != id
    ensures Strip(w, out, id) == out[..at] + out[at + 1..]
  {
    assert out == out[..at] + ([out[at]] + out[at + 1..]);
    StripJoin(w, out[..at], [out[at]] + out[at + 1..], id);
    StripJoin(w, [out[at]], out[at + 1..], id);
    StripOne(w, out[at], id);
    StripNone(w, out[..at], id);
    StripNone(w, out[at + 1..], id);
    assert [] + out[at + 1..] == out[at + 1..];
  }

  /** Until a copy with an index comes, the first copy is what is held. */
  lemma {:induction false} FirstIsHeld(copies: seq<Served>, i: nat, id: Id)
    requires StartsAt(copies, i, id) && forall se <- copies :: se.ev.id == id ==> !Indexed(se) && se.conflict == None
    ensures Held(copies, id) == Some(copies[i])
  {
    var less, se := copies[..|copies| - 1], copies[|copies| - 1];
    assert copies == less + [se];
    if i < |less| {
      assert less[i] == copies[i] && forall k :: 0 <= k < i ==> less[k] == copies[k];
      FirstIsHeld(less, i, id);
      assert copies[i] in copies && se in copies;
    } else {
      HeldNone(less, id);
    }
  }

  lemma {:induction false} HeldNone(copies: seq<Served>, id: Id)
    requires forall k :: 0 <= k < |copies| ==> copies[k].ev.id != id
    ensures Held(copies, id) == None
  {
    if copies != [] {
      HeldNone(copies[..|copies| - 1], id);
    }
  }

  lemma ServedIsListed(copies: seq<Served>, x: Id)
    requires Coalesce.Fresh(copies)
    ensures Position(Collapsed(copies), x) < |Collapsed(copies)| <==> exists l :: 0 <= l < |copies| && copies[l].ev.id == x
  {
    KeptIfServed(copies, x);
    if l :| 0 <= l < |copies| && copies[l].ev.id == x {
      assert IsCopy(copies, copies[l], x);
    }
    if c :| IsCopy(copies, c, x) {
      var l :| 0 <= l < |copies| && copies[l] == c;
    }
  }

  /** An id is the last listed exactly when no other id is first listed after it. */
  lemma {:induction false} LastListed(copies: seq<Served>, i: nat, id: Id)
    requires Coalesce.Fresh(copies) && StartsAt(copies, i, id)
    ensures var out := Collapsed(copies);
            Position(out, id) < |out| && (Position(out, id) == |out| - 1 <==> NothingNewBetween(copies, i, |copies|, id))
  {
    var less, se := copies[..|copies| - 1], copies[|copies| - 1];
    assert copies == less + [se];
    AddCopyAt(Collapsed(less), se, id);
    ServedIsListed(less, se.ev.id);
    if i < |less| {
      assert less[i] == copies[i] && forall k :: 0 <= k < |less| ==> less[k] == copies[k];
      LastListed(less, i, id);
      NothingNewMore(less, se, i, id);
    } else {
      assert forall l :: 0 <= l < |less| ==> less[l] == copies[l];
    }
  }

  lemma NothingNewMore(less: seq<Served>, se: Served, i: nat, id: Id)
    requires StartsAt(less, i, id)
    ensures NothingNewBetween(less + [se], i, |less| + 1, id)
        <==> NothingNewBetween(less, i, |less|, id) && exists l :: 0 <= l < |less| && less[l].ev.id == se.ev.id
  {
    var copies := less + [se];
    assert forall l :: 0 <= l < |less| ==> copies[l] == less[l];
    if NothingNewBetween(copies, i, |copies|, id) {
      forall k | i < k < |less| && less[k].ev.id != id
        ensures exists l :: 0 <= l < i && less[l].ev.id == less[k].ev.id
      {
        var l :| 0 <= l < i && copies[l].ev.id == copies[k].ev.id;
        assert less[l].ev.id == less[k].ev.id;
      }
      if se.ev.id == id {
        assert less[i].ev.id == se.ev.id;
      } else {
        var l :| 0 <= l < i && copies[l].ev.id == copies[|less|].ev.id;
        assert less[l].ev.id == se.ev.id;
      }
    }
    if NothingNewBetween(less, i, |less|, id) && exists l :: 0 <= l < |less| && less[l].ev.id == se.ev.id {
      forall k | i < k < |copies| && copies[k].ev.id != id
        ensures exists l :: 0 <= l < i && copies[l].ev.id == copies[k].ev.id
      {
        var m: nat :| m < |less| && less[m].ev.id == copies[k].ev.id;
        if m < i {
          assert copies[m].ev.id == copies[k].ev.id;
        } else {
          var l :| 0 <= l < i && less[l].ev.id == less[m].ev.id;
          assert copies[l].ev.id == copies[k].ev.id;
        }
      }
    }
  }

  /** What a page comes to, with and without the id's copies that have no index. */
  ghost predicate Unmoved(w: World, copies: seq<Served>, id: Id) {
    Collapsed(Placed(copies, id)) == Strip(w, Collapsed(copies), id)
  }

  /** The first copy with an index comes after one without. */
  lemma FirstPlaced(w: World, less: seq<Served>, se: Served, i: nat, id: Id)
    requires Coalesce.Fresh(less) && se.conflict == None && StartsAt(less, i, id) && se.ev.id == id && Indexed(se)
    requires forall c <- less :: c.ev.id == id ==> !Indexed(c) && c.ev.organization == w.org
    ensures var a, b := AddCopy(Collapsed(less), se), AddCopy(Strip(w, Collapsed(less), id), se);
            && Position(a, id) < |a| && Position(b, id) < |b|
            && Indexed(a[Position(a, id)]) && Indexed(b[Position(b, id)])
            && (if less[i].created == se.created && NothingNewBetween(less, i, |less|, id) then a == b else ListedApart(a, b, id))
  {
    var out := Collapsed(less);
    var at, rest := Position(out, id), Strip(w, out, id);
    FirstEntry(w, less, i, id);
    AddCopyAt(out, se, id);
    PositionOfNone(rest, id);
    AddCopyAt(rest, se, id);
    LastListed(less, i, id);
    if at == |out| - 1 {
      assert out[at := Merge(out[at], se)] == out[..at] + [Merge(out[at], se)];
      assert rest == out[..at];
    }
  }

  /** While no copy has an index, the id's entry is its first copy, and dropping the copies drops it. */
  lemma FirstEntry(w: World, less: seq<Served>, i: nat, id: Id)
    requires Coalesce.Fresh(less) && StartsAt(less, i, id)
    requires forall c <- less :: c.ev.id == id ==> !Indexed(c) && c.ev.organization == w.org
    ensures var out := Collapsed(less);
            var at, rest := Position(out, id), Strip(w, out, id);
            && at < |out| && out[at] == less[i] && rest == out[..at] + out[at + 1..]
            && forall k :: 0 <= k < |rest| ==> rest[k].ev.id != id
  {
    var out := Collapsed(less);
    var at := Position(out, id);
    FirstIsHeld(less, i, id);
    HeldIsCollapsed(less, id);
    CollapsedSummarizes(less);
    assert less[i] in less;
    StripsOne(w, out, id, at);
  }

  ghost predicate NonePlaced(copies: seq<Served>, id: Id) {
    forall se <- copies :: se.ev.id == id ==> !Indexed(se)
  }

  /** The id is listed with an index on either page, and unmoved exactly if undisturbed. */
  ghost predicate Told(w: World, copies: seq<Served>, id: Id) {
    var a, b := Collapsed(copies), Collapsed(Placed(copies, id));
    && Position(a, id) < |a| && Position(b, id) < |b|
    && Indexed(a[Position(a, id)]) && Indexed(b[Position(b, id)])
    && (if Undisturbed(copies, id) then a == b else ListedApart(a, b, id))
  }

  lemma BothAdd(w: World, less: seq<Served>, se: Served, id: Id)
    requires Coalesce.Fresh(less) && NonePlaced(less, id) && se.ev.id == id && Indexed(se)
    requires forall c <- less :: c.ev.id == id ==> c.ev.organization == w.org
    ensures Collapsed(less + [se]) == AddCopy(Collapsed(less), se)
    ensures Collapsed(Placed(less + [se], id)) == AddCopy(Strip(w, Collapsed(less), id), se)
  {
    DroppedIsStripped(w, less, id);
    CollapsedOneMore(less, se);
    PlacedMore(less, se, id);
    CollapsedOneMore(Placed(less, id), se);
  }

  lemma AtFirstPlaced(w: World, less: seq<Served>, se: Served, id: Id)
    requires Coalesce.Fresh(less + [se]) && NonePlaced(less, id) && se.ev.id == id && Indexed(se)
    requires forall c <- less + [se] :: c.ev.id == id ==> c.ev.organization == w.org
    ensures Told(w, less + [se], id)
  {
    var copies := less + [se];
    assert forall c <- less :: c in copies;
    assert se in copies;
    BothAdd(w, less, se, id);
    assert forall k :: 0 <= k < |less| ==> copies[k] == less[k] && copies[k] in less;
    if exists c <- less :: c.ev.id == id {
      var i := FindStart(less, id);
      FirstPlaced(w, less, se, i, id);
      BetweenAlike(less, se, i, id);
      UndisturbedAt(copies, i, |less|, id);
      TellsFirst(w, less, se, id, i);
    } else {
      UndisturbedAt(copies, |less|, |less|, id);
      PlacedAtOnce(w, less, se, id);
    }
  }

  lemma TellsFirst(w: World, less: seq<Served>, se: Served, id: Id, i: nat)
    requires Collapsed(less + [se]) == AddCopy(Collapsed(less), se)
    requires Collapsed(Placed(less + [se], id)) == AddCopy(Strip(w, Collapsed(less), id), se)
    requires var a, b := AddCopy(Collapsed(less), se), AddCopy(Strip(w, Collapsed(less), id), se);
             && Position(a, id) < |a| && Position(b, id) < |b|
             && Indexed(a[Position(a, id)]) && Indexed(b[Position(b, id)])
             && (if Undisturbed(less + [se], id) then a == b else ListedApart(a, b, id))
    ensures Told(w, less + [se], id)
  {}

  lemma PlacedAtOnce(w: World, less: seq<Served>, se: Served, id: Id)
    requires Coalesce.Fresh(less) && se.ev.id == id && Indexed(se) && Undisturbed(less + [se], id)
    requires forall k :: 0 <= k < |less| ==> less[k].ev.id != id
    requires Collapsed(less + [se]) == AddCopy(Collapsed(less), se)
    requires Collapsed(Placed(less + [se], id)) == AddCopy(Strip(w, Collapsed(less), id), se)
    ensures Told(w, less + [se], id)
  {
    var out := Collapsed(less);
    HeldNone(less, id);
    HeldIsCollapsed(less, id);
    StripNone(w, out, id);
    AddCopyAt(out, se, id);
  }

  lemma BetweenAlike(less: seq<Served>, se: Served, i: nat, id: Id)
    requires StartsAt(less, i, id)
    ensures NothingNewBetween(less + [se], i, |less|, id) <==> NothingNewBetween(less, i, |less|, id)
  {
    var copies := less + [se];
    assert forall k :: 0 <= k < |less| ==> copies[k] == less[k];
  }

  /** Once a copy with an index has come, what more comes disturbs nothing. */
  lemma UndisturbedMore(less: seq<Served>, se: Served, id: Id)
    requires !NonePlaced(less, id)
    ensures Undisturbed(less + [se], id) <==> Undisturbed(less, id)
  {
    var copies := less + [se];
    var i, j := FindPlaced(less, id);
    assert forall k :: 0 <= k < |less| ==> copies[k] == less[k];
    UndisturbedAt(less, i, j, id);
    UndisturbedAt(copies, i, j, id);
    assert NothingNewBetween(copies, i, j, id) <==> NothingNewBetween(less, i, j, id);
  }

  lemma ToldMore(w: World, less: seq<Served>, se: Served, id: Id)
    requires Told(w, less, id) && !NonePlaced(less, id)
    ensures Told(w, less + [se], id)
  {
    var a, b := Collapsed(less), Collapsed(Placed(less, id));
    UndisturbedMore(less, se, id);
    CollapsedOneMore(less, se);
    PlacedMore(less, se, id);
    AddCopyAt(a, se, id);
    if se.ev.id == id && !Indexed(se) {
      assert Placed(less, id) + [] == Placed(less, id);
      assert AddCopy(a, se) == a;
    } else {
      CollapsedOneMore(Placed(less, id), se);
      AddCopyAt(b, se, id);
      if ListedApart(a, b, id) { ApartStays(a, b, se, id); }
    }
  }

  lemma {:induction false} PlacedIsTold(w: World, copies: seq<Served>, id: Id)
    requires Coalesce.Fresh(copies) && !NonePlaced(copies, id)
    requires forall se <- copies :: se.ev.id == id ==> se.ev.organization == w.org
    ensures Told(w, copies, id)
  {
    var less, se := copies[..|copies| - 1], copies[|copies| - 1];
    assert copies == less + [se];
    if NonePlaced(less, id) {
      AtFirstPlaced(w, less, se, id);
    } else {
      PlacedIsTold(w, less, id);
      ToldMore(w, less, se, id);
    }
  }

  /**
   * Dropping an id's copies without an index from a page drops its entry if no
   * copy has one, and otherwise changes nothing, exactly when the copies that
   * come before the first with an index leave its place and time alone.
   */
  lemma DroppedExactly(w: World, copies: seq<Served>, id: Id)
    requires Coalesce.Fresh(copies)
    requires forall se <- copies :: se.ev.id == id ==> se.ev.organization == w.org
    ensures Unmoved(w, copies, id) <==> Undisturbed(copies, id)
  {
    if NonePlaced(copies, id) {
      DroppedIsStripped(w, copies, id);
      forall j: nat | j < |copies| ensures !PlacedAt(copies, j, id) {
        assert copies[j] in copies;
      }
    } else {
      PlacedIsTold(w, copies, id);
      var out := Collapsed(copies);
      CollapsedSummarizes(copies);
      StripNone(w, out, id);
    }
  }

  /** With the copies that have an index first, none without one disturbs anything. */
  lemma PlacedFirstIsUndisturbed(copies: seq<Served>, id: Id)
    requires forall i: nat, j: nat :: StartsAt(copies, i, id) && PlacedAt(copies, j, id) ==> i == j
    ensures Undisturbed(copies, id)
  {}

  /** A copy without an index, another id, then the copy with one: the page lists the two ids the other way round. */
  lemma CutoverMoves(w: World, n: Served, x: Served, p: Served)
    requires Coalesce.Fresh([n, x, p]) && n.ev.id == p.ev.id != x.ev.id && !Indexed(n) && Indexed(p)
    ensures Collapsed([n, x, p]) == [p.(created := n.created), x] && Collapsed(Placed([n, x, p], n.ev.id)) == [x, p]
    ensures !Undisturbed([n, x, p], n.ev.id)
  {
    CutoverListed(n, x, p);
    CutoverDropped(n, x, p);
    var copies, id := [n, x, p], n.ev.id;
    assert StartsAt(copies, 0, id) && PlacedAt(copies, 2, id);
    UndisturbedAt(copies, 0, 2, id);
    assert copies[1].ev.id != id;
  }

  lemma CutoverListed(n: Served, x: Served, p: Served)
    requires n.ev.id == p.ev.id != x.ev.id && !Indexed(n) && Indexed(p) && n.conflict == None && p.conflict == None
    ensures Collapsed([n, x, p]) == [p.(created := n.created), x]
  {
    assert [n, x, p] == [n, x] + [p] && [n, x] == [n] + [x] && [n] == [] + [n];
    CollapsedOneMore([], n);
    CollapsedOneMore([n], x);
    CollapsedOneMore([n, x], p);
    assert Position([n], x.ev.id) == 1 && Position([n, x], p.ev.id) == 0;
  }

  lemma CutoverDropped(n: Served, x: Served, p: Served)
    requires n.ev.id == p.ev.id != x.ev.id && !Indexed(n) && Indexed(p)
    ensures Collapsed(Placed([n, x, p], n.ev.id)) == [x, p]
  {
    var id := n.ev.id;
    assert [n, x, p] == [n, x] + [p] && [n, x] == [n] + [x] && [n] == [] + [n] && [x, p] == [x] + [p] && [x] == [] + [x];
    PlacedMore([], n, id);
    PlacedMore([n], x, id);
    PlacedMore([n, x], p, id);
    CollapsedOneMore([], x);
    CollapsedOneMore([x], p);
    assert Position([x], p.ev.id) == 1;
  }

  /** A page's rows without those that read as this id's copies without an index. */
  function WithoutNull(rows: seq<Row>, parse: Reader, id: Id): seq<Row> {
    if rows == [] then []
    else
      var row := rows[|rows| - 1];
      var ev := parse(row.raw);
      WithoutNull(rows[..|rows| - 1], parse, id)
      + (if ev.Some? && ev.value.id == id && ev.value.index == None then [] else [row])
  }

  lemma ReadMore(rows: seq<Row>, row: Row, parse: Reader)
    ensures Parsed(rows + [row], parse)
            == Parsed(rows, parse) + (if parse(row.raw).Some? then [Served(parse(row.raw).value, row.created, None)] else [])
    ensures Unparsed(rows + [row], parse)
            == Unparsed(rows, parse) + (if parse(row.raw) == None then [EventFailure(row.name, None, CannotRebuild)] else [])
  {
    assert (rows + [row])[..|rows|] == rows;
  }

  lemma {:induction false} ParsedWithoutNull(rows: seq<Row>, parse: Reader, id: Id)
    ensures Parsed(WithoutNull(rows, parse, id), parse) == Placed(Parsed(rows, parse), id)
    ensures Unparsed(WithoutNull(rows, parse, id), parse) == Unparsed(rows, parse)
  {
    if rows != [] {
      var less, row := rows[..|rows| - 1], rows[|rows| - 1];
      assert rows == less + [row];
      ParsedWithoutNull(less, parse, id);
      ReadMore(less, row, parse);
      var kept := WithoutNull(less, parse, id);
      var ev := parse(row.raw);
      if ev.Some? {
        PlacedMore(Parsed(less, parse), Served(ev.value, row.created, None), id);
        assert Unparsed(less, parse) + [] == Unparsed(less, parse);
      } else {
        assert Parsed(less, parse) + [] == Parsed(less, parse);
      }
      if ev.Some? && ev.value.id == id && ev.value.index == None {
        assert kept + [] == kept;
      } else {
        ReadMore(kept, row, parse);
      }
    }
  }
}
