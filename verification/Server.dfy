/**
 * What one pass asks the API and what may come back. A server is any function
 * of the requests so far and the next one, so it may adapt to everything the
 * client has done.
 */
module Server {
  import opened Basics
  import opened Tree
  import opened Checkpoint

  datatype Request =
    | AskCheckpoint
    | AskInclusion(index: nat)
    | AskConsistency(from: nat)
    | AskActivities(notBefore: Option<int>, after: Text)

  /**
   * One activity as served: its bytes, with what the lenient probes for a
   * name and a creation time make of them.
   */
  datatype Row = Row(raw: Bytes, name: Text, created: int)

  datatype Answer =
    | NoteAnswer(note: Note)
    | ProofAnswer(leafIndex: nat, hashes: seq<Hash>, note: Note)
    | PageAnswer(rows: seq<Row>, hasMore: bool, lastId: Text)
    | StatusAnswer(status: nat)
    | NoAnswer

  type Behaviour = (seq<Request>, Request) -> Answer

  /** The server and the trust configuration one pass runs against. */
  datatype World = World(server: Behaviour, origin: Bytes, org: Text)

  predicate Carries(a: Answer, note: Note) {
    (a.NoteAnswer? || a.ProofAnswer?) && a.note == note
  }

  /** Some answer to the requests made so far carried this note. */
  ghost predicate Heard(w: World, asked: seq<Request>, note: Note) {
    exists t :: 0 <= t < |asked| && Carries(w.server(asked[..t], asked[t]), note)
  }

  lemma HeardLater(w: World, asked: seq<Request>, more: seq<Request>, note: Note)
    requires asked <= more && Heard(w, asked, note)
    ensures Heard(w, more, note)
  {
    var t :| 0 <= t < |asked| && Carries(w.server(asked[..t], asked[t]), note);
    assert more[..t] == asked[..t] && more[t] == asked[t];
  }

  lemma HeardNow(w: World, asked: seq<Request>, req: Request, note: Note)
    requires Carries(w.server(asked, req), note)
    ensures Heard(w, asked + [req], note)
  {
    var more := asked + [req];
    assert more[..|asked|] == asked && more[|asked|] == req;
  }

  predicate OnPage(a: Answer, row: Row) {
    a.PageAnswer? && row in a.rows
  }

  /** Some page answered to a request made so far lists this row. */
  ghost predicate Shown(w: World, asked: seq<Request>, row: Row) {
    exists t :: 0 <= t < |asked| && asked[t].AskActivities? && OnPage(w.server(asked[..t], asked[t]), row)
  }

  lemma ShownLater(w: World, asked: seq<Request>, more: seq<Request>, row: Row)
    requires asked <= more && Shown(w, asked, row)
    ensures Shown(w, more, row)
  {
    var t :| 0 <= t < |asked| && asked[t].AskActivities? && OnPage(w.server(asked[..t], asked[t]), row);
    assert more[..t] == asked[..t] && more[t] == asked[t];
  }

  lemma ShownNow(w: World, asked: seq<Request>, req: Request, row: Row)
    requires req.AskActivities? && OnPage(w.server(asked, req), row)
    ensures Shown(w, asked + [req], row)
  {
    var more := asked + [req];
    assert more[..|asked|] == asked && more[|asked|] == req;
  }
}
