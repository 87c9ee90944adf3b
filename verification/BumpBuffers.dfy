/** The asynchronous LRU bump buffers of src/items.c: workers push (item, hash) entries into a bip buffer while the
    maintainer peeks, serves what it saw and polls it off. */
module BumpBuffers {
  import opened Basics
  import opened Bipbuffer

  const ENTRY: nat := 16
  const LRU_BUMP_BUF_SIZE: nat := 8192

  function Pow256(n: nat): nat { if n == 0 then 1 else 256 * Pow256(n - 1) }

  /** lru_bump_entry: an 8-byte pointer, a 4-byte hash and 4 bytes of padding. */
  datatype Entry = Entry(it: nat, hv: nat)

  predicate Fits(e: Entry) { e.it < Pow256(8) && e.hv < Pow256(4) }

  function Little(x: nat, n: nat): (b: seq<Byte>)
    ensures |b| == n
  {
    if n == 0 then [] else [x % 256] + Little(x / 256, n - 1)
  }

  function FromLittle(b: seq<Byte>): nat {
    if b == [] then 0 else b[0] + 256 * FromLittle(b[1..])
  }

  lemma {:induction false} LittleRoundTrip(x: nat, n: nat)
    requires x < Pow256(n)
    ensures FromLittle(Little(x, n)) == x
    decreases n
  {
    if n > 0 {
      LittleRoundTrip(x / 256, n - 1);
      assert Little(x, n)[1..] == Little(x / 256, n - 1);
    }
  }

  /** The bytes the two stores of lru_bump_async leave, over whatever padding was there. */
  function Encode(e: Entry, pad: seq<Byte>): (b: seq<Byte>)
    requires |pad| == 4
    ensures |b| == ENTRY
  {
    Little(e.it, 8) + Little(e.hv, 4) + pad
  }

  function Decode(b: seq<Byte>): Entry
    requires |b| == ENTRY
  {
    Entry(FromLittle(b[..8]), FromLittle(b[8..12]))
  }

  lemma EntryRoundTrip(e: Entry, pad: seq<Byte>)
    requires Fits(e) && |pad| == 4
    ensures Decode(Encode(e, pad)) == e
  {
    LittleRoundTrip(e.it, 8);
    LittleRoundTrip(e.hv, 4);
    assert Encode(e, pad)[..8] == Little(e.it, 8);
    assert Encode(e, pad)[8..12] == Little(e.hv, 4);
  }

  /** A whole number of entries. */
  predicate Whole(n: nat) { n == 0 || (n >= ENTRY && Whole(n - ENTRY)) }

  lemma {:induction false} WholeSum(a: nat, b: nat)
    requires Whole(a)
    ensures Whole(a + b) <==> Whole(b)
    decreases a
  {
    if a > 0 { WholeSum(a - ENTRY, b); }
  }

  lemma TwoWhole(a: nat, b: nat)
    requires Whole(a) && Whole(b)
    ensures Whole(a + b)
  {
    WholeSum(a, b);
  }

  lemma {:induction false} WholeTimes(k: nat)
    ensures Whole(ENTRY * k)
    decreases k
  {
    if k > 0 { WholeTimes(k - 1); }
  }

  /** The whole entries in b. */
  ghost function Entries(b: seq<Byte>): seq<Entry> {
    if |b| < ENTRY then [] else [Decode(b[..ENTRY])] + Entries(b[ENTRY..])
  }

  lemma CutHead(a: seq<Byte>, b: seq<Byte>)
    requires |a| >= ENTRY
    ensures (a + b)[..ENTRY] == a[..ENTRY] && (a + b)[ENTRY..] == a[ENTRY..] + b
  {}

  lemma {:induction false} EntriesSplit(a: seq<Byte>, b: seq<Byte>)
    requires Whole(|a|)
    ensures Entries(a + b) == Entries(a) + Entries(b) && (Entries(a) == [] <==> a == [])
    decreases |a|
  {
    if a == [] {
      assert a + b == b;
    } else {
      var h, t := a[..ENTRY], a[ENTRY..];
      assert |t| == |a| - ENTRY && Whole(|t|);
      CutHead(a, b);
      EntriesSplit(t, b);
      assert Entries(a + b) == [Decode(h)] + (Entries(t) + Entries(b));
      Regroup([Decode(h)], Entries(t), Entries(b));
    }
  }

  lemma EntriesOne(b: seq<Byte>)
    requires |b| == ENTRY
    ensures Entries(b) == [Decode(b)]
  {
    assert b[..ENTRY] == b && b[ENTRY..] == [];
  }

  /** Cursors of a buffer that only ever sees whole entries. */
  predicate Aligned(c: Cursors) { Whole(c.size) && Whole(c.aStart) && Whole(c.aEnd) && Whole(c.bEnd) }

  lemma PushAligned(c: Cursors)
    requires CursorsOK(c) && Aligned(c)
    ensures Aligned(Pushed(c, ENTRY))
  {
  }

  lemma PollAligned(c: Cursors, n: nat)
    requires Aligned(c) && Whole(n)
    ensures Aligned(Polled(c, n))
  {
    TwoWhole(c.aStart, n);
    PolledParts(c, n);
    AlignedFrom(c, Polled(c, n), c.aStart + n);
  }

  lemma AlignedFrom(c: Cursors, p: Cursors, a: nat)
    requires Aligned(c) && Whole(a)
    requires p.size == c.size && (p.aStart == a || p.aStart == 0) && (p.bEnd == c.bEnd || p.bEnd == 0)
    requires p.aEnd == c.aEnd || p.aEnd == c.bEnd || p.aEnd == 0
    ensures Aligned(p)
  {}

  lemma PolledParts(c: Cursors, n: nat)
    ensures var p := Polled(c, n);
            && p.size == c.size && (p.aStart == c.aStart + n || p.aStart == 0) && (p.bEnd == c.bEnd || p.bEnd == 0)
            && (p.aEnd == c.aEnd || p.aEnd == c.bEnd || p.aEnd == 0)
  {}

  lemma QueueAligned(c: Cursors)
    requires CursorsOK(c) && Aligned(c)
    ensures Whole(c.aEnd - c.aStart) && Whole(c.aEnd - c.aStart + c.bEnd)
  {
    WholeSum(c.aStart, c.aEnd - c.aStart);
    WholeSum(c.bEnd, c.aEnd - c.aStart);
    assert c.aEnd - c.aStart + c.bEnd == c.bEnd + (c.aEnd - c.aStart);
  }

  lemma SliceOfSlice(d: seq<Byte>, a: nat, b: nat, k: nat, n: nat)
    requires a <= b <= |d| && k + n <= b - a
    ensures d[a..b][k..k + n] == d[a + k..a + k + n]
  {
    var x, y := d[a..b][k..k + n], d[a + k..a + k + n];
    assert |x| == |y|;
    forall i | 0 <= i < n ensures x[i] == y[i] { }
  }

  /** Where the maintainer stands with a buffer: the offset be of the next entry, and the bytes left of size. */
  datatype Drain = Resting | Serving(be: nat, todo: nat, size: nat)

  ghost predicate DrainOK(start: nat, front: seq<Byte>, drain: Drain, gone: seq<Entry>, served: seq<Entry>) {
    match drain
    case Resting => served == gone
    case Serving(be, todo, size) =>
      && todo <= size <= |front| && Whole(todo) && Whole(size) && size > 0
      && be == start + size - todo && served == gone + Entries(front[..size - todo])
  }

  /** accepted and served record every entry a worker got in and every entry the maintainer handled; gone those polled.
      */
  datatype Log = Log(accepted: seq<Entry>, served: seq<Entry>, gone: seq<Entry>)

  ghost predicate LogOK(d: seq<Byte>, c: Cursors, drain: Drain, log: Log) {
    && CursorsOK(c) && |d| == c.size && Aligned(c) && log.accepted == log.gone + Entries(Contents(d, c))
    && DrainOK(c.aStart, d[c.aStart..c.aEnd], drain, log.gone, log.served)
  }

  /** A new entry behind the queue does not disturb a drain. */
  lemma BumpKeeps(d: seq<Byte>, c: Cursors, d': seq<Byte>, c': Cursors, b: seq<Byte>, drain: Drain, log: Log)
    requires LogOK(d, c, drain, log) && |b| == ENTRY <= Unused(c) && |d'| == |d| && c' == Pushed(c, ENTRY) &&
             CursorsOK(c')
    requires Contents(d', c') == Contents(d, c) + b && d'[c.aStart..c.aEnd] == d[c.aStart..c.aEnd]
    ensures LogOK(d', c', drain, log.(accepted := log.accepted + [Decode(b)]))
  {
    PushAligned(c);
    QueueAligned(c);
    var q := Contents(d, c);
    EntriesSplit(q, b);
    EntriesOne(b);
    Regroup(log.gone, Entries(q), [Decode(b)]);
    PrefixStays(d, d', c.aStart, c.aEnd, c'.aEnd);
    DrainStays(c.aStart, d[c.aStart..c.aEnd], d'[c'.aStart..c'.aEnd], drain, log.gone, log.served);
  }

  lemma PrefixStays(d: seq<Byte>, d': seq<Byte>, a: nat, b: nat, b': nat)
    requires a <= b <= b' <= |d'| == |d| && d'[a..b] == d[a..b]
    ensures d'[a..b'][..|d[a..b]|] == d[a..b]
  {
    assert d'[a..b'][..b - a] == d'[a..b];
  }

  lemma DrainStays(start: nat, front: seq<Byte>, front': seq<Byte>, drain: Drain, gone: seq<Entry>, served: seq<Entry>)
    requires DrainOK(start, front, drain, gone, served) && |front| <= |front'| && front'[..|front|] == front
    ensures DrainOK(start, front', drain, gone, served)
  {
    if drain.Serving? {
      assert front'[..drain.size - drain.todo] == front[..drain.size - drain.todo];
    }
  }

  lemma PeekKeeps(d: seq<Byte>, c: Cursors, log: Log)
    requires LogOK(d, c, Resting, log)
    ensures c.aStart < c.aEnd ==> LogOK(d, c, Serving(c.aStart, c.aEnd - c.aStart, c.aEnd - c.aStart), log)
    ensures log.served != log.accepted <==> c.aStart < c.aEnd
  {
    QueueAligned(c);
    EmptyIffNothing(d, c);
    EntriesSplit(Contents(d, c), []);
    assert d[c.aStart..c.aEnd][..0] == [];
    assert log.gone + [] == log.gone;
  }

  /** The entry in memory at be is the oldest accepted one not yet served. */
  lemma ServeKeeps(d: seq<Byte>, c: Cursors, drain: Drain, log: Log)
    requires LogOK(d, c, drain, log) && drain.Serving? && drain.todo != 0
    ensures drain.todo >= ENTRY && drain.be + ENTRY <= |d| && |log.served| < |log.accepted|
    ensures var e := Decode(d[drain.be..drain.be + ENTRY]);
            e == log.accepted[|log.served|] &&
            LogOK(d, c, drain.(be := drain.be + ENTRY, todo := drain.todo - ENTRY), log.(served := log.served + [e]))
  {
    var front, q, k := d[c.aStart..c.aEnd], Contents(d, c), drain.size - drain.todo;
    WholeSum(drain.todo, k);
    SliceOfSlice(d, c.aStart, c.aEnd, k, ENTRY);
    ServeDrain(c.aStart, front, drain, log.gone, log.served, k);
    NextEntry(q, front, k);
  }

  lemma ServeDrain(start: nat, front: seq<Byte>, drain: Drain, gone: seq<Entry>, served: seq<Entry>, k: nat)
    requires DrainOK(start, front, drain, gone, served) && drain.Serving? && drain.todo >= ENTRY
    requires k == drain.size - drain.todo && Whole(k)
    ensures k + ENTRY <= |front|
    ensures DrainOK(start, front, drain.(be := drain.be + ENTRY, todo := drain.todo - ENTRY), gone,
              served + [Decode(front[k..k + ENTRY])])
  {
    ServeNext(front, k);
    Regroup(gone, Entries(front[..k]), [Decode(front[k..k + ENTRY])]);
  }

  lemma NextEntry(q: seq<Byte>, front: seq<Byte>, k: nat)
    requires front <= q && k + ENTRY <= |front| && Whole(k)
    ensures Entries(q) == Entries(front[..k]) + Entries(q[k..]) && Entries(q[k..]) != [] &&
            Entries(q[k..])[0] == Decode(front[k..k + ENTRY])
  {
    assert q == front[..k] + q[k..];
    EntriesSplit(front[..k], q[k..]);
    assert q[k..][..ENTRY] == front[k..k + ENTRY];
  }

  lemma ServeNext(front: seq<Byte>, done: nat)
    requires Whole(done) && done + ENTRY <= |front|
    ensures Entries(front[..done + ENTRY]) == Entries(front[..done]) + [Decode(front[done..done + ENTRY])]
  {
    assert front[..done + ENTRY] == front[..done] + front[done..done + ENTRY];
    EntriesSplit(front[..done], front[done..done + ENTRY]);
    EntriesOne(front[done..done + ENTRY]);
  }

  lemma FinishKeeps(d: seq<Byte>, c: Cursors, drain: Drain, log: Log)
    requires LogOK(d, c, drain, log) && drain.Serving? && drain.todo == 0
    ensures LogOK(d, Polled(c, drain.size), Resting, log.(gone := log.served))
  {
    var q, n := Contents(d, c), drain.size;
    PollAligned(c, n);
    PollDrops(d, c, n);
    assert q == q[..n] + q[n..] && q[..n] == d[c.aStart..c.aEnd][..n];
    EntriesSplit(q[..n], q[n..]);
    assert log.gone + (Entries(q[..n]) + Entries(q[n..])) == log.gone + Entries(q[..n]) + Entries(q[n..]);
  }

  /** At any moment, what was served is a prefix of what was accepted. */
  lemma ServedInOrder(d: seq<Byte>, c: Cursors, drain: Drain, log: Log)
    requires LogOK(d, c, drain, log)
    ensures log.served <= log.accepted
  {
    if drain.Serving? {
      var front, q, k := d[c.aStart..c.aEnd], Contents(d, c), drain.size - drain.todo;
      WholeSum(drain.todo, k);
      CutInFront(front, d[..c.bEnd], k);
      EntriesSplit(front[..k], q[k..]);
    }
  }

  lemma CutInFront(a: seq<Byte>, b: seq<Byte>, k: nat)
    requires k <= |a|
    ensures a + b == a[..k] + (a + b)[k..]
  {
    assert (a + b)[k..] == a[k..] + b;
    assert a == a[..k] + a[k..];
  }

  /** lru_bump_buf, with the maintainer's position in it. */
  class BumpBuffer {
    const buf: Buffer
    var dropped: nat
    var drain: Drain
    ghost var log: Log

    ghost predicate Valid()
      reads this, buf, buf.data
    {
      buf.Valid() && LogOK(buf.data[..], buf.Cur(), drain, log)
    }

    constructor ()
      ensures Valid() && fresh(buf) && fresh(buf.data) && drain.Resting? && log == Log([], [], [])
    {
      WholeTimes(LRU_BUMP_BUF_SIZE);
      buf := new Buffer(ENTRY * LRU_BUMP_BUF_SIZE);
      dropped, drain, log := 0, Resting, Log([], [], []);
    }

    /** lru_bump_async: the entry is accepted whole, or dropped when there is no room; the push after a good
        request never fails. */
    method Bump(e: Entry) returns (ok: bool)
      requires Valid() && Fits(e)
      modifies this, buf, buf.data
      ensures Valid() && drain == old(drain) && (ok <==> ENTRY <= old(Unused(buf.Cur())))
      ensures log == if ok then old(log).(accepted := old(log.accepted) + [e]) else old(log)
      ensures dropped == if ok then old(dropped) else old(dropped) + 1
      ensures buf.Keeps(old(buf.Front()))
    {
      ghost var d, c := buf.data[..], buf.Cur();
      ghost var b;
      ok, b := Store(e);
      if !ok {
        dropped := dropped + 1;
        return;
      }
      BumpKeeps(d, c, buf.data[..], buf.Cur(), b, drain, log);
      log := log.(accepted := log.accepted + [e]);
    }

    method Store(e: Entry) returns (ok: bool, ghost b: seq<Byte>)
      requires buf.Valid() && Fits(e)
      modifies buf, buf.data
      ensures buf.Valid() && (ok <==> ENTRY <= old(Unused(buf.Cur()))) && buf.Keeps(old(buf.Front()))
      ensures !ok ==> buf.Cur() == old(buf.Cur()) && buf.data[..] == old(buf.data[..])
      ensures ok ==>
                && buf.Cur() == Pushed(old(buf.Cur()), ENTRY)
                && buf.data[old(buf.aStart)..old(buf.aEnd)] == old(buf.Front())
                     && |b| == ENTRY && Decode(b) == e && buf.Queue() == old(buf.Queue()) + b
    {
      var at := buf.Request(ENTRY);
      ghost var a, e0 := buf.aStart, buf.aEnd;
      if at.None? {
        ok, b := false, [];
      } else {
        ok := true;
        b := Enter(e, buf.data[at.value + 12..at.value + 16]);
      }
      FrontStays(buf.data[..], a, e0, buf.aEnd);
    }

    /** The entry is written where the request pointed, around the padding found there, and pushed. */
    method Enter(e: Entry, pad: seq<Byte>) returns (ghost b: seq<Byte>)
      requires buf.Valid() && Fits(e) && ENTRY <= Unused(buf.Cur()) && |pad| == 4
      modifies buf, buf.data
      ensures buf.Valid() && buf.Cur() == Pushed(old(buf.Cur()), ENTRY) && buf.aStart == old(buf.aStart)
      ensures old(buf.aEnd) <= buf.aEnd && buf.data[old(buf.aStart)..old(buf.aEnd)] == old(buf.Front())
      ensures |b| == ENTRY && Decode(b) == e && buf.Queue() == old(buf.Queue()) + b
    {
      b := Encode(e, pad);
      EntryRoundTrip(e, pad);
      buf.Write(Encode(e, pad));
      var n := buf.Push(ENTRY);
    }

    /** bipbuf_peek_all at the start of a drain. */
    method Peek() returns (any: bool)
      requires Valid() && drain.Resting?
      modifies `drain
      ensures Valid() && (any <==> log.served != log.accepted) && (any <==> drain.Serving?)
      ensures any ==> drain.todo == drain.size == |buf.Front()|
    {
      PeekKeeps(buf.data[..], buf.Cur(), log);
      EmptyIffNothing(buf.data[..], buf.Cur());
      var r := buf.PeekAll();
      if r.None? { return false; }
      drain := Serving(r.value.0, r.value.1, r.value.1);
      return true;
    }

    /** One turn of the drain loop: the entry read from memory is the oldest accepted entry not yet served. */
    method Serve() returns (e: Entry)
      requires Valid() && drain.Serving? && drain.todo != 0
      modifies `drain, `log
      ensures Valid() && old(drain.todo) >= ENTRY &&
              drain == old(drain).(be := old(drain.be) + ENTRY, todo := old(drain.todo) - ENTRY)
      ensures log == old(log).(served := old(log.served) + [e]) && |old(log.served)| < |log.accepted| &&
              e == log.accepted[|old(log.served)|]
    {
      ServeKeeps(buf.data[..], buf.Cur(), drain, log);
      assert buf.data[..][drain.be..drain.be + ENTRY] == buf.data[drain.be..drain.be + ENTRY];
      e := Decode(buf.data[drain.be..drain.be + ENTRY]);
      log := log.(served := log.served + [e]);
      drain := drain.(be := drain.be + ENTRY, todo := drain.todo - ENTRY);
    }

    /** bipbuf_poll of exactly what was peeked, once the countdown reached zero. */
    method Finish()
      requires Valid() && drain.Serving? && drain.todo == 0
      modifies this, buf
      ensures Valid() && drain.Resting? && log == old(log).(gone := old(log.served))
      ensures buf.Cur() == Polled(old(buf.Cur()), old(drain.size))
    {
      FinishKeeps(buf.data[..], buf.Cur(), drain, log);
      EmptyIffNothing(buf.data[..], buf.Cur());
      var r := buf.Poll(drain.size);
      log := log.(gone := log.served);
      drain := Resting;
    }

    /** lru_maintainer_bumps on this buffer while workers go on bumping: arrivals[j] come in after the j-th entry is
        served. Whatever arrives, the countdown hits zero exactly and the entries served are those that were in front
        when the drain began, all of them and in order. */
    method DrainAll(arrivals: seq<seq<Entry>>) returns (any: bool)
      requires Valid() && drain.Resting? && forall a <- arrivals :: AllFit(a)
      modifies this, buf, buf.data
      ensures Valid() && drain.Resting? && log.served <= log.accepted && old(log.accepted) <= log.accepted
      ensures any <==> old(log.served != log.accepted)
      ensures log.served == old(log.served) + Entries(old(buf.Front()))
      ensures arrivals == [] ==> log.accepted == old(log.accepted) && buf.bEnd == 0
    {
      ghost var log0, front := log, buf.Front();
      any := Peek();
      if any {
        Countdown(arrivals, log0, front);
        ghost var c := buf.Cur();
        CountedDown(buf.data[..], c, drain, log, front);
        Finish();
      } else {
        NothingInFront(buf.data[..], buf.Cur(), log);
      }
      ServedInOrder(buf.data[..], buf.Cur(), drain, log);
    }

    /** The loop of the drain. */
    method Countdown(arrivals: seq<seq<Entry>>, ghost log0: Log, ghost front: seq<Byte>)
      requires Valid() && drain.Serving? && drain.todo == drain.size == |front| && log == log0 && front == buf.Front()
      requires forall a <- arrivals :: AllFit(a)
      modifies this, buf, buf.data
      ensures Valid() && drain.Serving? && drain.todo == 0 && drain.size == |front| && buf.Keeps(front)
      ensures log.gone == log0.gone && log0.accepted <= log.accepted
      ensures arrivals == [] ==> buf.Cur() == old(buf.Cur()) && log.accepted == log0.accepted
    {
      var j := 0;
      while drain.todo != 0
        invariant Valid() && drain.Serving? && drain.size == |front| && buf.Keeps(front)
        invariant log.gone == log0.gone && log0.accepted <= log.accepted
        invariant arrivals == [] ==> buf.Cur() == old(buf.Cur()) && log.accepted == log0.accepted
        decreases drain.todo
      {
        var e := Serve();
        if j < |arrivals| { Arrive(arrivals[j], front); }
        j := j + 1;
      }
    }

    /** Two drains serve everything that was accepted: the second one finds in front what was wrapped around. */
    method DrainTwice()
      requires Valid() && drain.Resting?
      modifies this, buf, buf.data
      ensures Valid() && drain.Resting? && log.served == log.accepted == old(log.accepted)
    {
      var first := DrainAll([]);
      OneRegion(buf.data[..], buf.Cur());
      assert buf.Front() == buf.data[..][buf.aStart..buf.aEnd];
      var second := DrainAll([]);
    }

    method Arrive(es: seq<Entry>, ghost front: seq<Byte>)
      requires Valid() && AllFit(es) && buf.Keeps(front)
      modifies this, buf, buf.data
      ensures Valid() && drain == old(drain) && log.served == old(log.served) && log.gone == old(log.gone)
      ensures old(log.accepted) <= log.accepted && buf.Keeps(front)
    {
      for i := 0 to |es|
        invariant Valid() && drain == old(drain) && log.served == old(log.served) && log.gone == old(log.gone)
        invariant old(log.accepted) <= log.accepted && buf.Keeps(front)
      {
        var ok := Bump(es[i]);
      }
    }
  }

  lemma FrontStays(d: seq<Byte>, a: nat, b: nat, b': nat)
    requires a <= b <= b' <= |d|
    ensures d[a..b'][..b - a] == d[a..b]
  {
    SliceOfSlice(d, a, b', 0, b - a);
  }

  /** With the countdown at zero the entries served since the last poll are those of the front that was peeked. */
  lemma CountedDown(d: seq<Byte>, c: Cursors, drain: Drain, log: Log, front: seq<Byte>)
    requires LogOK(d, c, drain, log) && drain.Serving? && drain.todo == 0 && drain.size == |front|
    requires |front| <= c.aEnd - c.aStart && d[c.aStart..c.aEnd][..|front|] == front
    ensures log.served == log.gone + Entries(front)
    ensures |front| == c.aEnd - c.aStart ==> Polled(c, |front|).bEnd == 0
  {
  }

  lemma NothingInFront(d: seq<Byte>, c: Cursors, log: Log)
    requires LogOK(d, c, Resting, log) && log.served == log.accepted
    ensures Entries(d[c.aStart..c.aEnd]) == [] && c.bEnd == 0 && log.served + [] == log.served
  {
    PeekKeeps(d, c, log);
  }

  lemma OneRegion(d: seq<Byte>, c: Cursors)
    requires CursorsOK(c) && |d| == c.size && c.bEnd == 0
    ensures Contents(d, c) == d[c.aStart..c.aEnd]
  {
    assert d[..0] == [];
  }

  predicate AllFit(es: seq<Entry>) { forall e <- es :: Fits(e) }
}
