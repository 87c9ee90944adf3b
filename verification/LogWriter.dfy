/** How the logger thread of src/logger.c writes a line to a watcher: it reserves room for the line and a possible
    note about skipped lines with one request, and then fills it with a push and an offer. */
module LogWriter {
  import opened Basics
  import opened Bipbuffer

  const NOTE_ROOM: nat := 128

  datatype Outcome = Sent | Skipped

  /** logger_watcher and the counters of struct logger_stats that a write changes. */
  class Watcher {
    const buf: Buffer
    var failedFlush: bool
    var skipped: nat
    var watcherSkipped: nat
    var watcherSent: nat

    ghost predicate Valid()
      reads this, buf
    {
      buf.Valid()
    }

    constructor (size: nat)
      ensures Valid() && fresh(buf) && fresh(buf.data) && buf.Queue() == [] && buf.data.Length == size &&
              skipped == 0 && !failedFlush
    {
      buf := new Buffer(size);
      failedFlush, skipped, watcherSkipped, watcherSent := false, 0, 0, 0;
    }

    /** The while loop of logger_thread_write_entry: ask for room, and as long as there is none let the socket take some
        bytes. taken[j] is what the j-th write of the socket accepts (nothing once the list ends). */
    method Reserve(n: nat, taken: seq<nat>) returns (flushed: nat)
      requires Valid()
      modifies this`failedFlush, buf
      ensures Valid() && flushed <= |old(buf.Queue())| && buf.Queue() == old(buf.Queue())[flushed..]
      ensures !failedFlush ==> n <= Unused(buf.Cur())
      ensures old(failedFlush) ==> failedFlush && flushed == 0
      ensures failedFlush && !old(failedFlush) ==> Unused(buf.Cur()) < n
      ensures n <= old(Unused(buf.Cur())) ==> flushed == 0 && failedFlush == old(failedFlush)
    {
      flushed := 0;
      var j := 0;
      ghost var q, c, room, failed := buf.Queue(), buf.Cur(), n <= Unused(buf.Cur()), failedFlush;
      while !failedFlush
        invariant Valid() && flushed <= |q| && buf.Queue() == q[flushed..] &&
                  (old(failedFlush) ==> failedFlush && flushed == 0)
        invariant failedFlush && !old(failedFlush) ==> Unused(buf.Cur()) < n
        invariant room ==> flushed == 0 && failedFlush == failed && buf.Cur() == c
        decreases |q| - flushed, !failedFlush
      {
        var at := buf.Request(n);
        if at.Some? { break; }
        var k := FlushMore(q, flushed, if j < |taken| then taken[j] else 0);
        flushed := flushed + k;
        failedFlush := k == 0;
        j := j + 1;
      }
    }

    /** logger_thread_poll_watchers with a socket that accepts up to limit bytes. */
    method Flush(limit: nat) returns (k: nat)
      requires Valid()
      modifies buf
      ensures Valid() && k <= |old(buf.Queue())| && buf.Queue() == old(buf.Queue())[k..] &&
              (k == 0 ==> buf.Cur() == old(buf.Cur()))
    {
      var seen := buf.PeekAll();
      k := if seen.None? then 0 else if limit <= seen.value.1 then limit else seen.value.1;
      if k > 0 { var r := buf.Poll(k); }
    }

    /** A flush after others that have taken so many bytes off q. */
    method FlushMore(ghost q: seq<Byte>, ghost flushed: nat, limit: nat) returns (k: nat)
      requires Valid() && flushed <= |q| && buf.Queue() == q[flushed..]
      modifies buf
      ensures Valid() && flushed + k <= |q| && buf.Queue() == q[flushed + k..]
      ensures k == 0 ==> buf.Cur() == old(buf.Cur())
    {
      k := Flush(limit);
      DropTwice(q, flushed, k);
    }

    /** logger_thread_write_entry for one watcher. note is the text that snprintf makes of the number of skipped lines.
        Either the line follows what was queued, after a note if lines were skipped before, or it counts as skipped and
        nothing is queued. The push and the offer after the reservation cannot fail. */
    method WriteEntry(line: seq<Byte>, note: seq<Byte>, taken: seq<nat>) returns (o: Outcome, flushed: nat)
      requires Valid()
      modifies this, buf, buf.data
      ensures Valid() && flushed <= |old(buf.Queue())|
      ensures |line| + NOTE_ROOM <= old(Unused(buf.Cur())) ==> flushed == 0 && failedFlush == old(failedFlush)
      ensures o == Sent <==> !failedFlush && (old(skipped) == 0 || 0 < |note| < NOTE_ROOM)
      ensures o == Sent ==> buf.Queue() == old(buf.Queue())[flushed..] + (if old(skipped) > 0 then note else []) + line
      ensures o == Sent ==> skipped == 0 && watcherSent == old(watcherSent) + 1 && watcherSkipped == old(watcherSkipped)
      ensures o == Skipped ==> buf.Queue() == old(buf.Queue())[flushed..] && skipped == old(skipped) + 1
      ensures o == Skipped ==> watcherSkipped == old(watcherSkipped) + 1 && watcherSent == old(watcherSent)
    {
      flushed := Reserve(|line| + NOTE_ROOM, taken);
      if failedFlush || (skipped > 0 && !(0 < |note| < NOTE_ROOM)) {
        skipped, watcherSkipped := skipped + 1, watcherSkipped + 1;
        return Skipped, flushed;
      }
      FillRoom(line, if skipped > 0 then note else []);
      skipped, watcherSent := 0, watcherSent + 1;
      return Sent, flushed;
    }

    method FillRoom(line: seq<Byte>, note: seq<Byte>)
      requires Valid() && |line| + NOTE_ROOM <= Unused(buf.Cur()) && |note| < NOTE_ROOM
      modifies buf, buf.data
      ensures Valid() && buf.Queue() == old(buf.Queue()) + note + line
    {
      ReservationHolds(buf.Cur(), |line| + NOTE_ROOM, |note|, |line|);
      if note != [] { PushNote(note); }
      assert buf.Queue() == old(buf.Queue()) + note;
      var sent := buf.Offer(line);
      assert sent == |line|;
    }

    /** snprintf into the reserved room, with its terminating zero, and the push of the text alone. */
    method PushNote(note: seq<Byte>)
      requires Valid() && |note| < Unused(buf.Cur())
      modifies buf, buf.data
      ensures Valid() && buf.Cur() == Pushed(old(buf.Cur()), |note|) && buf.Queue() == old(buf.Queue()) + note
    {
      ghost var at := WriteAt(buf.Cur());
      buf.Write(note + [0]);
      assert buf.data[at..at + |note|] == buf.data[at..at + |note| + 1][..|note|] == note;
      var pushed := buf.Push(|note|);
    }
  }
}
