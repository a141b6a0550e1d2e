/**
 * The state one run leaves for the next, in memory: the anchor, the feed
 * records, and the file content it was read from.
 */
module StateFile {
  import opened Basics
  import opened Checkpoint
  import opened Feed
  import FeedPass

  /** What a state file holds; None before there is one. */
  type Content = Option<FeedPass.State>

  class State {
    var anchor: Option<Note>
    var highWater: Time
    var done: map<Id, DoneEvent>
    var pending: map<Id, PendingEvent>
    var loaded: Content

    ghost function FeedModel(): FeedState
      reads this
    {
      FeedState(highWater, done, pending)
    }

    ghost function Model(): FeedPass.State
      reads this
    {
      FeedPass.State(anchor, FeedModel())
    }

    /** Reads the file; a missing one yields an empty state. */
    constructor (file: Content)
      ensures loaded == file
      ensures Model() == if file.Some? then file.value else FeedPass.State(None, FeedState(ZERO_TIME, map[], map[]))
    {
      loaded := file;
      if file.Some? {
        anchor, highWater := file.value.anchor, file.value.feed.highWater;
        done, pending := file.value.feed.done, file.value.feed.pending;
      } else {
        anchor, highWater, done, pending := None, ZERO_TIME, map[], map[];
      }
    }

    /** Writes the state unless the file changed since it was read. */
    method Save(file: Content) returns (written: Content, ok: bool)
      modifies this`loaded
      ensures ok <==> file == old(loaded)
      ensures written == if ok then Some(Model()) else file
      ensures loaded == if ok then Some(Model()) else old(loaded)
    {
      written, ok := file, true;
      if file == None {
        if loaded.Some? {
          return file, false;
        }
      } else if file != loaded {
        return file, false;
      }
      written := Some(FeedPass.State(anchor, FeedState(highWater, done, pending)));
      loaded := written;
    }

    method Done(id: Id, e: DoneEvent)
      modifies this`done, this`pending
      ensures FeedModel() == Feed.Done(old(FeedModel()), id, e)
    {
      done := done[id := e];
      pending := pending - {id};
    }

    method Pend(id: Id, e: PendingEvent)
      modifies this`pending
      ensures FeedModel() == Feed.Pend(old(FeedModel()), id, e)
    {
      var kept := e;
      if id in pending {
        kept := kept.(firstSeen := pending[id].firstSeen);
      }
      pending := pending[id := kept];
    }

    /** Keeps a record alive for another window. */
    method Refresh(id: Id, now: Time)
      modifies this`done
      ensures FeedModel() == Feed.Refresh(old(FeedModel()), id, now)
    {
      if id in done {
        var d := done[id];
        d := d.(recorded := now);
        done := done[id := d];
      }
    }

    method Forget(id: Id)
      modifies this`done
      ensures FeedModel() == Feed.Forget(old(FeedModel()), id)
    {
      done := done - {id};
    }

    /** Forgets the records dated before this time. */
    method Prune(notBefore: Time)
      modifies this`done
      ensures FeedModel() == Feed.Prune(old(FeedModel()), notBefore)
    {
      var left := done.Keys;
      ghost var was := done;
      while left != {}
        invariant left <= was.Keys
        invariant forall id :: id in done <==> id in was && (id in left || was[id].recorded >= notBefore)
        invariant forall id <- done :: done[id] == was[id]
        decreases |left|
      {
        var id :| id in left;
        if done[id].recorded < notBefore {
          done := done - {id};
        }
        left := left - {id};
      }
    }
  }
}
