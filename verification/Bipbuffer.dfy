/** The bip buffer of src/bipbuffer.c: a ring with two regions, A = [aStart, aEnd) and B = [0, bEnd), that is a queue of
    bytes with contents A followed by B. */
module Bipbuffer {
  import opened Basics

  datatype Cursors = Cursors(size: nat, aStart: nat, aEnd: nat, bEnd: nat, bInuse: bool)

  /** Regions in bounds and apart; B in use only beside a non-empty A; an empty A sits at the front of an empty buffer;
      and B is in use if there is more room before A than behind it. */
  predicate CursorsOK(c: Cursors) {
    && c.aStart <= c.aEnd <= c.size && c.bEnd <= c.aStart
    && (c.bInuse ==> c.aStart < c.aEnd) && (!c.bInuse ==> c.bEnd == 0)
    && (c.aStart == c.aEnd ==> c.aEnd == 0) && (!c.bInuse ==> c.aStart <= c.size - c.aEnd)
  }

  /** bipbuf_unused. */
  function Unused(c: Cursors): int {
    if c.bInuse then c.aStart - c.bEnd else c.size - c.aEnd
  }

  /** Where the next bytes are written. */
  function WriteAt(c: Cursors): nat { if c.bInuse then c.bEnd else c.aEnd }

  /** __check_for_switch_to_b. */
  function Switch(c: Cursors): Cursors {
    if c.size - c.aEnd < c.aStart - c.bEnd then c.(bInuse := true) else c
  }

  function Pushed(c: Cursors, n: nat): Cursors {
    Switch(if c.bInuse then c.(bEnd := c.bEnd + n) else c.(aEnd := c.aEnd + n))
  }

  function Polled(c: Cursors, n: nat): Cursors {
    var a := c.aStart + n;
    Switch(if a != c.aEnd then c.(aStart := a)
           else if c.bInuse then Cursors(c.size, 0, c.bEnd, 0, false)
           else Cursors(c.size, 0, 0, 0, false))
  }

  /** The queue of bytes the buffer stands for. */
  ghost function Contents(d: seq<Byte>, c: Cursors): seq<Byte>
    requires CursorsOK(c) && |d| == c.size
  {
    d[c.aStart..c.aEnd] + d[..c.bEnd]
  }

  /** The next write goes where there is more room: once it goes before A it does so until A is used up, and it begins
      to when there is more room there. */
  lemma RoomIsLarger(c: Cursors, n: nat)
    requires CursorsOK(c)
    ensures n <= Unused(c) ==>
              var c' := Pushed(c, n);
              && (c'.bInuse <==> c.bInuse || c.size - c'.aEnd < c'.aStart)
              && Unused(c') == if c.bInuse then c.aStart - c.bEnd - n
                               else if c.aStart <= c.size - c.aEnd - n then c.size - c.aEnd - n else c.aStart
    ensures n <= c.aEnd - c.aStart ==>
              var c' := Polled(c, n);
              && (n < c.aEnd - c.aStart && c.bInuse ==> Unused(c') == Unused(c) + n)
              && (n < c.aEnd - c.aStart && !c.bInuse ==>
                    Unused(c') == if c.aStart + n <= c.size - c.aEnd then c.size - c.aEnd else c.aStart + n)
              && (n == c.aEnd - c.aStart ==> Unused(c') == c.size - c.bEnd)
  {}

  lemma PushAppends(d: seq<Byte>, c: Cursors, n: nat)
    requires CursorsOK(c) && |d| == c.size && n <= Unused(c)
    ensures CursorsOK(Pushed(c, n)) && Contents(d, Pushed(c, n)) == Contents(d, c) + d[WriteAt(c)..WriteAt(c) + n]
  {
    if c.bInuse { PushToB(d, c, n); } else { PushToA(d, c, n); }
  }

  lemma PushToB(d: seq<Byte>, c: Cursors, n: nat)
    requires CursorsOK(c) && |d| == c.size && n <= Unused(c) && c.bInuse
    ensures CursorsOK(Pushed(c, n)) && Contents(d, Pushed(c, n)) == Contents(d, c) + d[c.bEnd..c.bEnd + n]
  {
    SliceJoin(d, 0, c.bEnd, c.bEnd + n);
    Regroup(d[c.aStart..c.aEnd], d[..c.bEnd], d[c.bEnd..c.bEnd + n]);
  }

  lemma PushToA(d: seq<Byte>, c: Cursors, n: nat)
    requires CursorsOK(c) && |d| == c.size && n <= Unused(c) && !c.bInuse
    ensures CursorsOK(Pushed(c, n)) && Contents(d, Pushed(c, n)) == Contents(d, c) + d[c.aEnd..c.aEnd + n]
  {
    SliceJoin(d, c.aStart, c.aEnd, c.aEnd + n);
    assert c.bEnd == 0;
  }

  lemma SliceJoin(d: seq<Byte>, a: nat, b: nat, c: nat)
    requires a <= b <= c <= |d|
    ensures d[a..c] == d[a..b] + d[b..c]
  {}

  /** Writing where a request points touches neither region. */
  lemma WriteIsOutside(d: seq<Byte>, d': seq<Byte>, c: Cursors, n: nat)
    requires CursorsOK(c) && |d| == |d'| == c.size && n <= Unused(c)
    requires forall i | 0 <= i < c.size :: i < WriteAt(c) || WriteAt(c) + n <= i ==> d'[i] == d[i]
    ensures Contents(d', c) == Contents(d, c) && d'[c.aStart..c.aEnd] == d[c.aStart..c.aEnd]
  {
    assert d'[c.aStart..c.aEnd] == d[c.aStart..c.aEnd];
    assert d'[..c.bEnd] == d[..c.bEnd];
  }

  lemma PollDrops(d: seq<Byte>, c: Cursors, n: nat)
    requires CursorsOK(c) && |d| == c.size && c.aStart < c.aEnd && n <= c.aEnd - c.aStart
    ensures CursorsOK(Polled(c, n)) && Contents(d, Polled(c, n)) == Contents(d, c)[n..]
    ensures d[c.aStart..c.aStart + n] == Contents(d, c)[..n]
  {
    if c.aStart + n == c.aEnd {
      assert Contents(d, c)[n..] == d[..c.bEnd];
    } else {
      assert d[c.aStart..c.aEnd] == d[c.aStart..c.aStart + n] + d[c.aStart + n..c.aEnd];
    }
  }

  /** An empty region A means an empty queue, and the other way round. */
  lemma EmptyIffNothing(d: seq<Byte>, c: Cursors)
    requires CursorsOK(c) && |d| == c.size
    ensures c.aStart == c.aEnd <==> Contents(d, c) == []
  {
    assert |Contents(d, c)| == c.aEnd - c.aStart + c.bEnd;
  }

  /** After a successful request for n bytes, a push and an offer of at most n bytes together both fit, wherever the
      push leaves the writing position. */
  lemma ReservationHolds(c: Cursors, n: nat, first: nat, second: nat)
    requires CursorsOK(c) && n <= Unused(c) && first + second <= n
    ensures first <= Unused(c) && CursorsOK(Pushed(c, first)) && second <= Unused(Pushed(c, first))
  {
  }

  /** A push turns writing to B exactly when that leaves more room, so it never costs room. */
  lemma SwitchGains(c: Cursors, n: nat)
    requires CursorsOK(c) && !c.bInuse && n <= Unused(c)
    ensures var c' := Pushed(c, n);
            (c'.bInuse <==> c.size - c.aEnd - n < c.aStart) &&
                Unused(c') == if c'.bInuse then c.aStart else Unused(c) - n
  {
  }

  /** Write is a client filling room it requested, Push the call that adds n bytes of that room to the queue. */
  datatype Op = Offer(bytes: seq<Byte>) | Write(bytes: seq<Byte>) | Push(n: nat) | Poll(n: nat)

  /** The memory after offer copied b to its place. */
  ghost function Copied(d: seq<Byte>, at: nat, b: seq<Byte>): seq<Byte>
    requires at + |b| <= |d|
  {
    d[..at] + b + d[at + |b|..]
  }

  datatype Ring = Ring(d: seq<Byte>, c: Cursors, taken: seq<Byte>, given: seq<Byte>)

  /** One operation; taken collects the bytes accepted, given the bytes polled. A poll asks for no more than peek_all
      shows. */
  ghost function Step(r: Ring, op: Op): Ring
    requires CursorsOK(r.c) && |r.d| == r.c.size
  {
    match op
    case Offer(b) =>
      if Unused(r.c) < |b| then r else Ring(Copied(r.d, WriteAt(r.c), b), Pushed(r.c, |b|), r.taken + b, r.given)
    case Write(b) => if Unused(r.c) < |b| then r else r.(d := Copied(r.d, WriteAt(r.c), b))
    case Push(n) =>
      if Unused(r.c) < n then r else Ring(r.d, Pushed(r.c, n), r.taken + r.d[WriteAt(r.c)..WriteAt(r.c) + n], r.given)
    case Poll(n) =>
      if r.c.aStart == r.c.aEnd || n > r.c.aEnd - r.c.aStart then r
      else Ring(r.d, Polled(r.c, n), r.taken, r.given + r.d[r.c.aStart..r.c.aStart + n])
  }

  ghost predicate RingOK(r: Ring) {
    CursorsOK(r.c) && |r.d| == r.c.size && r.taken == r.given + Contents(r.d, r.c)
  }

  lemma OfferAppends(d: seq<Byte>, c: Cursors, b: seq<Byte>)
    requires CursorsOK(c) && |d| == c.size && |b| <= Unused(c)
    ensures CursorsOK(Pushed(c, |b|)) && Contents(Copied(d, WriteAt(c), b), Pushed(c, |b|)) == Contents(d, c) + b
  {
    var d', w := Copied(d, WriteAt(c), b), WriteAt(c);
    WriteIsOutside(d, d', c, |b|);
    PushAppends(d', c, |b|);
    assert d'[w..w + |b|] == b;
  }

  /** More bytes at the end of the queue. */
  lemma Extended(r: Ring, d: seq<Byte>, c: Cursors, b: seq<Byte>)
    requires RingOK(r) && CursorsOK(c) && |d| == c.size && Contents(d, c) == Contents(r.d, r.c) + b
    ensures RingOK(Ring(d, c, r.taken + b, r.given))
  {
    Regroup(r.given, Contents(r.d, r.c), b);
  }

  lemma OfferKeeps(r: Ring, b: seq<Byte>)
    requires RingOK(r)
    ensures RingOK(Step(r, Offer(b)))
  {
    if |b| <= Unused(r.c) {
      OfferAppends(r.d, r.c, b);
      Extended(r, Copied(r.d, WriteAt(r.c), b), Pushed(r.c, |b|), b);
    }
  }

  lemma WriteKeeps(r: Ring, b: seq<Byte>)
    requires RingOK(r)
    ensures RingOK(Step(r, Write(b)))
  {
    if |b| <= Unused(r.c) { WriteIsOutside(r.d, Copied(r.d, WriteAt(r.c), b), r.c, |b|); }
  }

  lemma PushKeeps(r: Ring, n: nat)
    requires RingOK(r)
    ensures RingOK(Step(r, Push(n)))
  {
    if n <= Unused(r.c) { var r' := PushedRing(r, n); }
  }

  lemma PushedRing(r: Ring, n: nat) returns (r': Ring)
    requires RingOK(r) && n <= Unused(r.c)
    ensures RingOK(r') && r' == Step(r, Push(n))
  {
    var b := r.d[WriteAt(r.c)..WriteAt(r.c) + n];
    PushAppends(r.d, r.c, n);
    Extended(r, r.d, Pushed(r.c, n), b);
    r' := Ring(r.d, Pushed(r.c, n), r.taken + b, r.given);
  }

  lemma PollKeeps(r: Ring, n: nat)
    requires RingOK(r) && r.c.aStart != r.c.aEnd && n <= r.c.aEnd - r.c.aStart
    ensures RingOK(Step(r, Poll(n)))
  {
    PollDrops(r.d, r.c, n);
    var q := Contents(r.d, r.c);
    assert q == q[..n] + q[n..];
    Regroup(r.given, q[..n], q[n..]);
  }

  lemma StepKeeps(r: Ring, op: Op)
    requires RingOK(r)
    ensures RingOK(Step(r, op))
  {
    match op {
      case Offer(b) => OfferKeeps(r, b);
      case Write(b) => WriteKeeps(r, b);
      case Push(n) => PushKeeps(r, n);
      case Poll(n) => if r.c.aStart != r.c.aEnd && n <= r.c.aEnd - r.c.aStart { PollKeeps(r, n); }
    }
  }

  ghost function Steps(r: Ring, ops: seq<Op>): Ring
    requires RingOK(r)
    decreases ops
  {
    if ops == [] then r else StepKeeps(r, ops[0]); Steps(Step(r, ops[0]), ops[1..])
  }

  /** Over any run, what was accepted is what came out followed by what is still inside: no byte is lost, repeated or
      out of order. */
  lemma {:induction false} FirstInFirstOut(r: Ring, ops: seq<Op>)
    requires RingOK(r)
    ensures RingOK(Steps(r, ops)) && Steps(r, ops).given <= Steps(r, ops).taken
    decreases ops
  {
    if ops != [] {
      StepKeeps(r, ops[0]);
      FirstInFirstOut(Step(r, ops[0]), ops[1..]);
    }
  }

  /** A new buffer over the memory d. */
  ghost function FreshRing(d: seq<Byte>): (r: Ring)
    ensures RingOK(r)
  {
    Ring(d, Cursors(|d|, 0, 0, 0, false), [], [])
  }

  /** One more operation at the end of a run. */
  lemma {:induction false} StepsMore(r: Ring, ops: seq<Op>, op: Op)
    requires RingOK(r)
    ensures RingOK(Steps(r, ops)) && Steps(r, ops + [op]) == Step(Steps(r, ops), op)
    decreases ops
  {
    if ops == [] {
      assert [] + [op] == [op] && [op][1..] == [];
    } else {
      assert (ops + [op])[1..] == ops[1..] + [op];
      StepKeeps(r, ops[0]);
      StepsMore(Step(r, ops[0]), ops[1..], op);
    }
  }

  lemma StepsTo(r: Ring, ops: seq<Op>, k: nat)
    requires RingOK(r) && k < |ops|
    ensures RingOK(Steps(r, ops[..k])) && RingOK(Steps(r, ops[..k + 1]))
    ensures Steps(r, ops[..k + 1]) == Step(Steps(r, ops[..k]), ops[k])
  {
    assert ops[..k + 1] == ops[..k] + [ops[k]];
    StepsMore(r, ops[..k], ops[k]);
    StepKeeps(Steps(r, ops[..k]), ops[k]);
  }

  /** bipbuf_t. */
  class Buffer {
    const data: array<Byte>
    var aStart: nat
    var aEnd: nat
    var bEnd: nat
    var bInuse: bool

    ghost function Cur(): Cursors
      reads this
    {
      Cursors(data.Length, aStart, aEnd, bEnd, bInuse)
    }

    ghost predicate Valid()
      reads this
    {
      CursorsOK(Cur())
    }

    ghost function Queue(): seq<Byte>
      reads this, data
      requires Valid()
    {
      Contents(data[..], Cur())
    }

    /** What peek_all shows. */
    ghost function Front(): seq<Byte>
      reads this, data
      requires Valid()
    {
      data[aStart..aEnd]
    }

    /** The bytes f, peeked earlier, are still in front. */
    ghost predicate Keeps(f: seq<Byte>)
      reads this, data
      requires Valid()
    {
      |f| <= |Front()| && Front()[..|f|] == f
    }

    constructor (size: nat)
      ensures Valid() && fresh(data) && data.Length == size && Queue() == []
    {
      data := new Byte[size](_ => 0);
      aStart, aEnd, bEnd, bInuse := 0, 0, 0, false;
    }

    method UnusedSpace() returns (n: nat)
      requires Valid()
      ensures n == Unused(Cur())
    {
      if bInuse { n := aStart - bEnd; } else { n := data.Length - aEnd; }
    }

    method CheckForSwitch()
      modifies `bInuse
      ensures Cur() == Switch(old(Cur()))
    {
      if data.Length - aEnd < aStart - bEnd { bInuse := true; }
    }

    /** bipbuf_request: an offset with n bytes of room behind it that belong to no region. */
    method Request(n: nat) returns (at: Option<nat>)
      requires Valid()
      ensures at.Some? <==> n <= Unused(Cur())
      ensures at.Some? ==> at.value == WriteAt(Cur()) && at.value + n <= data.Length
    {
      var u := UnusedSpace();
      if u < n { return None; }
      if bInuse { at := Some(bEnd); } else { at := Some(aEnd); }
    }

    method CopyBytes(at: nat, b: seq<Byte>)
      requires at + |b| <= data.Length
      modifies data
      ensures data[..] == Copied(old(data[..]), at, b) && data[at..at + |b|] == b
    {
      forall i | 0 <= i < |b| { data[at + i] := b[i]; }
    }

    /** The client writes b at the place a request gave it. */
    method Write(b: seq<Byte>)
      requires Valid() && |b| <= Unused(Cur())
      modifies data
      ensures Valid() && Cur() == old(Cur()) && Queue() == old(Queue()) && Front() == old(Front())
      ensures data[WriteAt(Cur())..WriteAt(Cur()) + |b|] == b
      ensures data[..] == Copied(old(data[..]), WriteAt(Cur()), b)
    {
      CopyBytes(if bInuse then bEnd else aEnd, b);
      WriteIsOutside(old(data[..]), data[..], Cur(), |b|);
      assert old(data[..])[aStart..aEnd] == old(data[aStart..aEnd]);
      assert data[..][aStart..aEnd] == data[aStart..aEnd];
    }

    /** bipbuf_push: the n bytes behind the writing position join the queue. */
    method Push(n: nat) returns (r: nat)
      requires Valid()
      modifies this
      ensures Valid() && r == (if n <= old(Unused(Cur())) then n else 0)
      ensures n > old(Unused(Cur())) ==> Cur() == old(Cur())
      ensures n <= old(Unused(Cur())) ==>
                var at := old(WriteAt(Cur()));
                && Cur() == Pushed(old(Cur()), n) && at + n <= data.Length
                && Queue() == old(Queue()) + data[at..at + n]
      ensures aStart == old(aStart) && old(aEnd) <= aEnd && data[aStart..old(aEnd)] == old(Front())
    {
      var u := UnusedSpace();
      if u < n { return 0; }
      PushAppends(data[..], Cur(), n);
      ghost var at := WriteAt(Cur());
      assert data[..][at..at + n] == data[at..at + n];
      PushWrites(n);
      r := n;
    }

    method PushWrites(n: nat)
      requires Valid() && n <= Unused(Cur())
      modifies this
      ensures Cur() == Pushed(old(Cur()), n)
    {
      if bInuse { bEnd := bEnd + n; } else { aEnd := aEnd + n; }
      CheckForSwitch();
    }

    /** bipbuf_offer. */
    method Offer(b: seq<Byte>) returns (r: nat)
      requires Valid()
      modifies this, data
      ensures Valid() && r == (if |b| <= old(Unused(Cur())) then |b| else 0)
      ensures |b| > old(Unused(Cur())) ==> Cur() == old(Cur()) && Queue() == old(Queue())
      ensures |b| <= old(Unused(Cur())) ==> Cur() == Pushed(old(Cur()), |b|) && Queue() == old(Queue()) + b
      ensures |b| > old(Unused(Cur())) ==> data[..] == old(data[..])
      ensures |b| <= old(Unused(Cur())) ==> data[..] == Copied(old(data[..]), old(WriteAt(Cur())), b)
      ensures aStart == old(aStart) && old(aEnd) <= aEnd && data[aStart..old(aEnd)] == old(Front())
    {
      var u := UnusedSpace();
      if u < |b| { return 0; }
      Write(b);
      r := Push(|b|);
    }

    method IsEmpty() returns (r: bool)
      requires Valid()
      ensures r <==> Queue() == []
    {
      EmptyIffNothing(data[..], Cur());
      r := aStart == aEnd;
    }

    /** bipbuf_peek_all: the offset and length of the bytes next in line; nothing only if the queue is empty. */
    method PeekAll() returns (r: Option<(nat, nat)>)
      requires Valid()
      ensures r.None? <==> Queue() == []
      ensures r.Some? ==> r.value == (aStart, aEnd - aStart) && r.value.1 > 0 && Front() == Queue()[..r.value.1]
    {
      EmptyIffNothing(data[..], Cur());
      if aStart == aEnd { return None; }
      assert data[..][aStart..aEnd] == Front();
      r := Some((aStart, aEnd - aStart));
    }

    /** bipbuf_poll. Nothing comes from an empty queue, or if the buffer ends before n bytes. Otherwise a poll of no
        more than region A holds takes exactly those bytes off the queue; the cursors are in order afterwards if and
        only if the poll was no longer than that, which is what peek_all tells its callers. */
    method Poll(n: nat) returns (r: Option<nat>)
      requires Valid()
      modifies this
      ensures r.None? <==> old(Queue()) == [] || data.Length < old(aStart) + n
      ensures Cur() == if r.None? then old(Cur()) else Polled(old(Cur()), n)
      ensures Valid() <==> r.None? || n <= old(aEnd - aStart)
      ensures r.Some? ==> r.value == old(aStart) && r.value + n <= data.Length
      ensures r.Some? && n <= old(aEnd - aStart) ==> TookOff(old(Queue()), r.value, n)
    {
      EmptyIffNothing(data[..], Cur());
      if aStart == aEnd { return None; }
      if data.Length < aStart + n { return None; }
      PolledInOrder(Cur(), n);
      if n <= aEnd - aStart {
        PollDrops(data[..], Cur(), n);
        assert data[..][aStart..aStart + n] == data[aStart..aStart + n];
      }
      r := Some(aStart);
      PollWrites(n);
    }

    /** n bytes at place at were the first of the queue q and are gone from it. */
    ghost predicate TookOff(q: seq<Byte>, at: nat, n: nat)
      reads this, data
      requires at + n <= data.Length
    {
      Valid() && n <= |q| && Queue() == q[n..] && data[at..at + n] == q[..n]
    }

    method PollWrites(n: nat)
      requires Valid()
      modifies this
      ensures Cur() == Polled(old(Cur()), n)
    {
      aStart := aStart + n;
      if aStart == aEnd {
        if bInuse {
          aStart, aEnd, bEnd, bInuse := 0, bEnd, 0, false;
        } else {
          aStart, aEnd := 0, 0;
        }
      }
      CheckForSwitch();
    }
  }

  /** The buffer is in the state of the ring r. */
  ghost predicate Mirrors(buf: Buffer, r: Ring)
    reads buf, buf.data
  {
    CursorsOK(r.c) && |r.d| == r.c.size && buf.Cur() == r.c && buf.data[..] == r.d
  }

  /** A client's offer. */
  method TryOffer(buf: Buffer, b: seq<Byte>, ghost r: Ring) returns (taken: seq<Byte>)
    requires Mirrors(buf, r)
    modifies buf, buf.data
    ensures Mirrors(buf, Step(r, Offer(b))) && Step(r, Offer(b)).taken == r.taken + taken
  {
    var n := buf.Offer(b);
    taken := if n == |b| then b else [];
    assert r.taken + [] == r.taken;
  }

  /** A client that requests room and fills it. */
  method TryWrite(buf: Buffer, b: seq<Byte>, ghost r: Ring)
    requires Mirrors(buf, r)
    modifies buf.data
    ensures Mirrors(buf, Step(r, Write(b)))
  {
    var at := buf.Request(|b|);
    if at.Some? { buf.Write(b); }
  }

  /** A push of n bytes of requested room, and the bytes it adds. */
  method PushBytes(buf: Buffer, n: nat) returns (taken: seq<Byte>)
    requires buf.Valid()
    modifies buf
    ensures var c := old(buf.Cur()); var fits := n <= Unused(c);
            && buf.Valid() && buf.Cur() == (if fits then Pushed(c, n) else c)
            && taken == if fits then buf.data[..][WriteAt(c)..WriteAt(c) + n] else []
  {
    var at := buf.Request(n);
    taken := if at.Some? then buf.data[at.value..at.value + n] else [];
    assert at.Some? ==> taken == buf.data[..][at.value..at.value + n];
    var m := buf.Push(n);
  }

  method TryPush(buf: Buffer, n: nat, ghost r: Ring) returns (taken: seq<Byte>)
    requires Mirrors(buf, r)
    modifies buf
    ensures Mirrors(buf, Step(r, Push(n))) && Step(r, Push(n)).taken == r.taken + taken
  {
    taken := PushBytes(buf, n);
    assert r.taken + [] == r.taken;
  }

  /** A poll of no more than a peek shows, and the bytes it gives. */
  method PollBytes(buf: Buffer, n: nat) returns (given: seq<Byte>)
    requires buf.Valid()
    modifies buf
    ensures var c := old(buf.Cur()); var some := c.aStart != c.aEnd && n <= c.aEnd - c.aStart;
            && buf.Valid() && buf.Cur() == (if some then Polled(c, n) else c)
            && given == if some then buf.data[..][c.aStart..c.aStart + n] else []
  {
    given := [];
    EmptyIffNothing(buf.data[..], buf.Cur());
    var shown := buf.PeekAll();
    if shown.Some? && n <= shown.value.1 {
      given := buf.data[shown.value.0..shown.value.0 + n];
      assert given == buf.data[..][shown.value.0..shown.value.0 + n];
      var at := buf.Poll(n);
    }
  }

  method TryPoll(buf: Buffer, n: nat, ghost r: Ring) returns (given: seq<Byte>)
    requires Mirrors(buf, r)
    modifies buf
    ensures Mirrors(buf, Step(r, Poll(n))) && Step(r, Poll(n)).given == r.given + given
  {
    given := PollBytes(buf, n);
    assert r.given + [] == r.given;
  }

  /** One operation by a client. */
  method Perform(buf: Buffer, op: Op, ghost r: Ring) returns (taken: seq<Byte>, given: seq<Byte>)
    requires Mirrors(buf, r)
    modifies buf, buf.data
    ensures Mirrors(buf, Step(r, op))
    ensures Step(r, op).taken == r.taken + taken && Step(r, op).given == r.given + given
  {
    taken, given := [], [];
    match op {
      case Offer(b) => taken := TryOffer(buf, b, r);
      case Write(b) => TryWrite(buf, b, r);
      case Push(n) => taken := TryPush(buf, n, r);
      case Poll(n) => given := TryPoll(buf, n, r);
    }
  }

  /** A new buffer under any run of operations: the bytes accepted are the bytes polled followed by what is inside. */
  method Exchange(size: nat, ops: seq<Op>) returns (buf: Buffer, taken: seq<Byte>, given: seq<Byte>)
    ensures buf.Valid() && taken == given + buf.Queue()
    ensures exists d :: |d| == size && Mirrors(buf, Steps(FreshRing(d), ops))
  {
    buf := new Buffer(size);
    ghost var d := buf.data[..];
    ghost var r := FreshRing(d);
    taken, given := [], [];
    for k := 0 to |ops|
      invariant fresh(buf) && fresh(buf.data) && buf.data.Length == size && Mirrors(buf, r) && RingOK(r)
      invariant r == Steps(FreshRing(d), ops[..k]) && taken == r.taken && given == r.given
    {
      var more, out := Perform(buf, ops[k], r);
      StepsTo(FreshRing(d), ops, k);
      r := Step(r, ops[k]);
      taken, given := taken + more, given + out;
    }
    assert ops[..|ops|] == ops;
  }

  /** A poll leaves the cursors in order if and only if it does not run past region A. */
  lemma PolledInOrder(c: Cursors, n: nat)
    requires CursorsOK(c) && c.aStart < c.aEnd
    ensures CursorsOK(Polled(c, n)) <==> n <= c.aEnd - c.aStart
  {
  }

  /** It does happen that one runs past: after three bytes, a poll of four is answered. */
  lemma PollTooLong()
    ensures var c := Pushed(Cursors(8, 0, 0, 0, false), 3);
            CursorsOK(c) && c.aStart + 4 <= c.size && !CursorsOK(Polled(c, 4))
  {
  }
}
