/** Scatter/gather output of src/memcached.c: replies are lists of buffers in one growing array, cut into messages whose
    windows point into that array, and sent by any number of partial writes. */
module Reply {
  import opened Basics

  const IOV_MAX: nat := 1024
  const UDP_MAX_PAYLOAD_SIZE: nat := 1400
  const UDP_HEADER_SIZE: nat := 8

  /** The part of struct msghdr that matters: msg_iov, as the array it points into and the index, and msg_iovlen. */
  datatype Msg = Msg(gen: nat, start: nat, len: nat)

  type Iovs = seq<seq<Byte>>

  /** The buffers from a to b one after the other. */
  ghost function Span(iov: Iovs, a: nat, b: nat): seq<Byte>
    decreases b - a
  {
    if a < b <= |iov| then iov[a] + Span(iov, a + 1, b) else []
  }

  lemma {:induction false} SpanFrame(iov: Iovs, iov': Iovs, a: nat, b: nat)
    requires b <= |iov| && b <= |iov'| && forall i | a <= i < b :: iov'[i] == iov[i]
    ensures Span(iov', a, b) == Span(iov, a, b)
    decreases b - a
  {
    if a < b { SpanFrame(iov, iov', a + 1, b); }
  }

  lemma {:induction false} SpanPush(iov: Iovs, a: nat, b: nat, d: seq<Byte>)
    requires a <= b < |iov|
    ensures Span(iov[b := d], a, b + 1) == Span(iov, a, b) + d
    decreases b - a
  {
    if a == b {
      assert d + [] == d == [] + d;
    } else {
      SpanPush(iov, a + 1, b, d);
      Regroup(iov[a], Span(iov, a + 1, b), d);
    }
  }

  /** Every window starts where the sum of the lengths before it says, in the current array, and they end at used. */
  ghost predicate Laid(ms: seq<Msg>, gen: nat, from: nat, used: nat)
    decreases ms
  {
    if ms == [] then from == used
    else ms[0].gen == gen && ms[0].start == from && Laid(ms[1..], gen, from + ms[0].len, used)
  }

  lemma {:induction false} LaidSplit(a: seq<Msg>, b: seq<Msg>, gen: nat, from: nat, mid: nat, used: nat)
    requires Laid(a, gen, from, mid)
    ensures Laid(a + b, gen, from, used) <==> Laid(b, gen, mid, used)
    decreases a
  {
    if a == [] {
      assert a + b == b;
    } else {
      assert (a + b)[1..] == a[1..] + b;
      LaidSplit(a[1..], b, gen, from + a[0].len, mid, used);
    }
  }

  lemma {:induction false} LaidLast(ms: seq<Msg>, gen: nat, from: nat, used: nat)
    requires Laid(ms, gen, from, used) && ms != []
    ensures var n := |ms| - 1;
            && ms[n].gen == gen && from <= ms[n].start && ms[n].start + ms[n].len == used
            && Laid(ms[..n], gen, from, ms[n].start)
    decreases ms
  {
    var n := |ms| - 1;
    if n == 0 {
      assert ms[1..] == [] && ms[..0] == [];
    } else {
      LaidLast(ms[1..], gen, from + ms[0].len, used);
      assert ms[1..][..n - 1] == ms[..n][1..] && ms[1..][n - 1] == ms[n];
    }
  }

  /** What the messages say: all windows in order. skip is 1 to leave out the header of each datagram. */
  ghost function Said(iov: Iovs, ms: seq<Msg>, skip: nat): seq<Byte> {
    if ms == [] then [] else Span(iov, ms[0].start + skip, ms[0].start + ms[0].len) + Said(iov, ms[1..], skip)
  }

  lemma {:induction false} SaidLast(iov: Iovs, ms: seq<Msg>, m: Msg, skip: nat)
    ensures Said(iov, ms + [m], skip) == Said(iov, ms, skip) + Span(iov, m.start + skip, m.start + m.len)
    decreases ms
  {
    if ms == [] {
      assert ms + [m] == [m] && [m][1..] == [];
      var x := Span(iov, m.start + skip, m.start + m.len);
      assert x + [] == x == [] + x;
    } else {
      assert (ms + [m])[1..] == ms[1..] + [m];
      SaidLast(iov, ms[1..], m, skip);
      Regroup(Span(iov, ms[0].start + skip, ms[0].start + ms[0].len), Said(iov, ms[1..], skip),
          Span(iov, m.start + skip, m.start + m.len));
    }
  }

  ghost predicate Agree(iov: Iovs, iov': Iovs, used: nat) {
    used <= |iov| && used <= |iov'| && forall i | 0 <= i < used :: iov'[i] == iov[i]
  }

  /** Windows below used do not see what is written at used or beyond, nor which array they are in. */
  lemma {:induction false} SaidFrame(iov: Iovs, iov': Iovs, ms: seq<Msg>, gen: nat, ms': seq<Msg>, gen': nat,
      from: nat, used: nat, skip: nat)
    requires Laid(ms, gen, from, used) && Laid(ms', gen', from, used) && SameLengths(ms, ms') && Agree(iov, iov', used)
    ensures Said(iov', ms', skip) == Said(iov, ms, skip)
    decreases ms
  {
    if ms != [] {
      LaidBelow(ms[1..], gen, from + ms[0].len, used);
      assert ms'[0].start == ms[0].start == from && ms'[0].len == ms[0].len && SameLengths(ms[1..], ms'[1..]);
      SaidFrame(iov, iov', ms[1..], gen, ms'[1..], gen', from + ms[0].len, used, skip);
      SpanFrame(iov, iov', from + skip, from + ms[0].len);
    }
  }

  ghost predicate SameLengths(ms: seq<Msg>, ms': seq<Msg>) {
    |ms'| == |ms| && forall i | 0 <= i < |ms| :: ms'[i].len == ms[i].len
  }

  lemma {:induction false} LaidBelow(ms: seq<Msg>, gen: nat, from: nat, used: nat)
    requires Laid(ms, gen, from, used)
    ensures from <= used
    decreases ms
  {
    if ms != [] { LaidBelow(ms[1..], gen, from + ms[0].len, used); }
  }

  /** A message is no longer than the system allows; a datagram starts with room for its header and fits its limit. */
  ghost predicate Sized(iov: Iovs, m: Msg, udp: bool) {
    && m.len <= IOV_MAX && m.start + m.len <= |iov|
    && (udp ==>
          && m.len >= 1 && |iov[m.start]| == UDP_HEADER_SIZE
          && |Span(iov, m.start, m.start + m.len)| <= UDP_MAX_PAYLOAD_SIZE)
  }

  ghost predicate AllSized(iov: Iovs, ms: seq<Msg>, udp: bool) {
    ms != [] ==> Sized(iov, ms[0], udp) && AllSized(iov, ms[1..], udp)
  }

  lemma {:induction false} SizedSplit(iov: Iovs, a: seq<Msg>, b: seq<Msg>, udp: bool)
    ensures AllSized(iov, a + b, udp) <==> AllSized(iov, a, udp) && AllSized(iov, b, udp)
    decreases a
  {
    if a == [] {
      assert a + b == b;
    } else {
      assert (a + b)[1..] == a[1..] + b;
      SizedSplit(iov, a[1..], b, udp);
    }
  }

  lemma {:induction false} SizedFrame(iov: Iovs, iov': Iovs, ms: seq<Msg>, gen: nat, ms': seq<Msg>, gen': nat,
      from: nat, used: nat, udp: bool)
    requires Laid(ms, gen, from, used) && Laid(ms', gen', from, used) && SameLengths(ms, ms') &&
             Agree(iov, iov', used) && AllSized(iov, ms, udp)
    ensures AllSized(iov', ms', udp)
    decreases ms
  {
    if ms != [] {
      LaidBelow(ms[1..], gen, from + ms[0].len, used);
      SizedOne(iov, iov', ms[0], ms'[0], used, udp);
      SizedFrame(iov, iov', ms[1..], gen, ms'[1..], gen', from + ms[0].len, used, udp);
    }
  }

  lemma SizedOne(iov: Iovs, iov': Iovs, m: Msg, m': Msg, used: nat, udp: bool)
    requires Sized(iov, m, udp) && m'.start == m.start && m'.len == m.len && m.start + m.len <= used
    requires Agree(iov, iov', used)
    ensures Sized(iov', m', udp)
  {
    SpanFrame(iov, iov', m.start, m.start + m.len);
  }

  /** No room for more: as many buffers as the system takes or, for a datagram, as many bytes as it may have. */
  ghost predicate Full(iov: Iovs, m: Msg, udp: bool) {
    && m.start + m.len <= |iov|
    && (m.len == IOV_MAX || (udp && |Span(iov, m.start, m.start + m.len)| == UDP_MAX_PAYLOAD_SIZE))
  }

  ghost predicate AllFull(iov: Iovs, ms: seq<Msg>, udp: bool) {
    ms != [] ==> Full(iov, ms[0], udp) && AllFull(iov, ms[1..], udp)
  }

  lemma {:induction false} FullSplit(iov: Iovs, a: seq<Msg>, b: seq<Msg>, udp: bool)
    ensures AllFull(iov, a + b, udp) <==> AllFull(iov, a, udp) && AllFull(iov, b, udp)
    decreases a
  {
    if a == [] {
      assert a + b == b;
    } else {
      assert (a + b)[1..] == a[1..] + b;
      FullSplit(iov, a[1..], b, udp);
    }
  }

  lemma {:induction false} FullFrame(iov: Iovs, iov': Iovs, ms: seq<Msg>, gen: nat, ms': seq<Msg>, gen': nat,
      from: nat, used: nat, udp: bool)
    requires Laid(ms, gen, from, used) && Laid(ms', gen', from, used) && SameLengths(ms, ms') &&
             Agree(iov, iov', used) && AllFull(iov, ms, udp)
    ensures AllFull(iov', ms', udp)
    decreases ms
  {
    if ms != [] {
      LaidBelow(ms[1..], gen, from + ms[0].len, used);
      FullOne(iov, iov', ms[0], ms'[0], used, udp);
      FullFrame(iov, iov', ms[1..], gen, ms'[1..], gen', from + ms[0].len, used, udp);
    }
  }

  lemma FullOne(iov: Iovs, iov': Iovs, m: Msg, m': Msg, used: nat, udp: bool)
    requires Full(iov, m, udp) && m'.start == m.start && m'.len == m.len && m.start + m.len <= used
    requires Agree(iov, iov', used)
    ensures Full(iov', m', udp)
  {
    SpanFrame(iov, iov', m.start, m.start + m.len);
  }

  /** The reply under construction: the array, how much of it is used, and the messages. */
  datatype Build = Build(udp: bool, gen: nat, iov: Iovs, used: nat, ms: seq<Msg>, msgBytes: nat)

  function Skip(udp: bool): nat { if udp then 1 else 0 }

  ghost predicate BuildOK(b: Build) {
    && b.used <= |b.iov| && |b.iov| > 0 && b.ms != [] && Laid(b.ms, b.gen, 0, b.used) && AllSized(b.iov, b.ms, b.udp)
    && b.msgBytes == |LastSpan(b, 0)|
  }

  ghost function LastSpan(b: Build, skip: nat): seq<Byte>
    requires b.ms != []
  {
    var m := b.ms[|b.ms| - 1]; Span(b.iov, m.start + skip, m.start + m.len)
  }

  /** The reply so far, without datagram headers. */
  ghost function Text(b: Build): seq<Byte> { Said(b.iov, b.ms, Skip(b.udp)) }

  /** The array moved to a bigger place and every window was pointed at the new one. */
  ghost predicate Moved(b: Build, b': Build) {
    && b'.udp == b.udp && b'.used == b.used && b'.msgBytes == b.msgBytes && SameLengths(b.ms, b'.ms)
    && |b.iov| <= |b'.iov| && Agree(b.iov, b'.iov, b.used) && Laid(b'.ms, b'.gen, 0, b'.used)
  }

  /** An array of twice the size, its first half as it was. */
  function Doubled(iov: Iovs): (r: Iovs)
    ensures |r| == 2 * |iov| && forall i | 0 <= i < |iov| :: r[i] == iov[i]
  {
    iov + seq(|iov|, _ => [])
  }

  lemma MovedKeeps(b: Build, b': Build)
    requires BuildOK(b) && Moved(b, b')
    ensures BuildOK(b') && Text(b') == Text(b)
  {
    SaidFrame(b.iov, b'.iov, b.ms, b.gen, b'.ms, b'.gen, 0, b.used, Skip(b.udp));
    SizedFrame(b.iov, b'.iov, b.ms, b.gen, b'.ms, b'.gen, 0, b.used, b.udp);
    LaidLast(b.ms, b.gen, 0, b.used);
    LaidLast(b'.ms, b'.gen, 0, b'.used);
    SpanFrame(b.iov, b'.iov, b.ms[|b.ms| - 1].start, b.used);
  }

  /** One more buffer in the last window. */
  function Put(b: Build, d: seq<Byte>): Build
    requires b.ms != [] && b.used < |b.iov|
  {
    var n := |b.ms| - 1;
    b.(iov := b.iov[b.used := d], used := b.used + 1, msgBytes := b.msgBytes + |d|,
        ms := b.ms[..n] + [b.ms[n].(len := b.ms[n].len + 1)])
  }

  /** A new message behind the others, empty or, for a datagram, with its header. */
  function NewMsg(b: Build): Build {
    b.(ms := b.ms + [Msg(b.gen, b.used, 0)], msgBytes := 0)
  }

  lemma PutSpan(b: Build, d: seq<Byte>, skip: nat)
    requires b.ms != [] && b.used < |b.iov| && Laid(b.ms, b.gen, 0, b.used) && skip <= b.ms[|b.ms| - 1].len
    ensures LastSpan(Put(b, d), skip) == LastSpan(b, skip) + d
  {
    LaidLast(b.ms, b.gen, 0, b.used);
    SpanPush(b.iov, b.ms[|b.ms| - 1].start + skip, b.used, d);
  }

  lemma PutKeeps(b: Build, d: seq<Byte>)
    requires BuildOK(b) && b.used < |b.iov| && b.ms[|b.ms| - 1].len < IOV_MAX &&
             (b.udp ==> b.msgBytes + |d| <= UDP_MAX_PAYLOAD_SIZE)
    ensures BuildOK(Put(b, d)) && Text(Put(b, d)) == Text(b) + d
  {
    LastSized(b);
    PutLaid(b, d);
    PutSized(b, d);
    PutText(b, d);
    PutSpan(b, d, 0);
  }

  lemma LastSized(b: Build)
    requires b.ms != [] && AllSized(b.iov, b.ms, b.udp)
    ensures AllSized(b.iov, b.ms[..|b.ms| - 1], b.udp) && Sized(b.iov, b.ms[|b.ms| - 1], b.udp)
  {
    var n := |b.ms| - 1;
    assert b.ms == b.ms[..n] + [b.ms[n]] && [b.ms[n]][1..] == [];
    SizedSplit(b.iov, b.ms[..n], [b.ms[n]], b.udp);
  }

  lemma PutText(b: Build, d: seq<Byte>)
    requires b.ms != [] && b.used < |b.iov| && Laid(b.ms, b.gen, 0, b.used) && AllSized(b.iov, b.ms, b.udp)
    ensures Text(Put(b, d)) == Text(b) + d
  {
    var n, b', skip := |b.ms| - 1, Put(b, d), Skip(b.udp);
    var x := Said(b.iov, b.ms[..n], skip);
    SaidButLast(b, skip);
    SaidButLast(b', skip);
    assert Said(b'.iov, b'.ms[..n], skip) == x by {
      LastSized(b);
      PutFrame(b, d, b.ms[..n]);
      assert b'.ms[..n] == b.ms[..n];
    }
    assert LastSpan(b', skip) == LastSpan(b, skip) + d by { LastSized(b); PutSpan(b, d, skip); }
    Regroup(x, LastSpan(b, skip), d);
  }

  lemma SaidButLast(b: Build, skip: nat)
    requires b.ms != []
    ensures Said(b.iov, b.ms, skip) == Said(b.iov, b.ms[..|b.ms| - 1], skip) + LastSpan(b, skip)
  {
    var n := |b.ms| - 1;
    assert b.ms == b.ms[..n] + [b.ms[n]];
    SaidLast(b.iov, b.ms[..n], b.ms[n], skip);
  }

  lemma PutSized(b: Build, d: seq<Byte>)
    requires b.ms != [] && b.used < |b.iov| && Laid(b.ms, b.gen, 0, b.used) && AllSized(b.iov, b.ms, b.udp)
    requires b.ms[|b.ms| - 1].len < IOV_MAX && (b.udp ==> |LastSpan(b, 0)| + |d| <= UDP_MAX_PAYLOAD_SIZE)
    ensures AllSized(Put(b, d).iov, Put(b, d).ms, b.udp)
  {
    var n, b' := |b.ms| - 1, Put(b, d);
    var init, last' := b.ms[..n], b'.ms[n];
    LastSized(b);
    LaidLast(b.ms, b.gen, 0, b.used);
    PutSpan(b, d, 0);
    PutFrame(b, d, init);
    assert Sized(b'.iov, last', b.udp);
    assert [last'][1..] == [] && b'.ms == init + [last'];
    SizedSplit(b'.iov, init, [last'], b.udp);
  }

  lemma PutFrame(b: Build, d: seq<Byte>, init: seq<Msg>)
    requires b.ms != [] && b.used < |b.iov| && Laid(b.ms, b.gen, 0, b.used) && init == b.ms[..|b.ms| - 1] &&
             AllSized(b.iov, init, b.udp)
    ensures Said(Put(b, d).iov, init, Skip(b.udp)) == Said(b.iov, init, Skip(b.udp)) &&
            AllSized(Put(b, d).iov, init, b.udp)
  {
    LaidLast(b.ms, b.gen, 0, b.used);
    var k := b.ms[|b.ms| - 1].start;
    SaidFrame(b.iov, Put(b, d).iov, init, b.gen, init, b.gen, 0, k, Skip(b.udp));
    SizedFrame(b.iov, Put(b, d).iov, init, b.gen, init, b.gen, 0, k, b.udp);
  }

  lemma PutLaid(b: Build, d: seq<Byte>)
    requires b.ms != [] && b.used < |b.iov| && Laid(b.ms, b.gen, 0, b.used)
    ensures Laid(Put(b, d).ms, b.gen, 0, b.used + 1)
  {
    LaidLast(b.ms, b.gen, 0, b.used);
    var n := |b.ms| - 1;
    var last' := b.ms[n].(len := b.ms[n].len + 1);
    assert [last'][1..] == [];
    LaidSplit(b.ms[..n], [last'], b.gen, 0, b.ms[n].start, b.used + 1);
  }

  lemma NewMsgKeeps(b: Build)
    requires BuildOK(b) && !b.udp
    ensures BuildOK(NewMsg(b)) && Text(NewMsg(b)) == Text(b)
  {
    var m := Msg(b.gen, b.used, 0);
    assert [m][1..] == [];
    LaidSplit(b.ms, [m], b.gen, 0, b.used, b.used);
    SizedSplit(b.iov, b.ms, [m], b.udp);
    SaidLast(b.iov, b.ms, m, 0);
    assert Text(b) + [] == Text(b);
  }

  /** For a datagram the header comes with the message. */
  lemma NewDatagramKeeps(b: Build, h: seq<Byte>)
    requires BuildOK(b) && b.udp && b.used < |b.iov| && |h| == UDP_HEADER_SIZE
    ensures var b' := Put(NewMsg(b), h);
            BuildOK(b') && Text(b') == Text(b) && b'.msgBytes == UDP_HEADER_SIZE && b'.ms[|b'.ms| - 1].len == 1
  {
    var b', last := Put(NewMsg(b), h), Msg(b.gen, b.used, 1);
    NewLast(b, h, last);
    LaidSplit(b.ms, [last], b.gen, 0, b.used, b.used + 1);
    HeaderSized(b, h, last);
    HeaderSays(b, h, last);
  }

  lemma NewLast(b: Build, h: seq<Byte>, last: Msg)
    requires b.used < |b.iov| && last == Msg(b.gen, b.used, 1)
    ensures Put(NewMsg(b), h).ms == b.ms + [last] && [last][1..] == []
    ensures Span(b.iov[b.used := h], b.used, b.used + 1) == h
  {
    assert (b.ms + [Msg(b.gen, b.used, 0)])[..|b.ms|] == b.ms;
    SpanPush(b.iov, b.used, b.used, h);
  }

  lemma HeaderSized(b: Build, h: seq<Byte>, last: Msg)
    requires BuildOK(b) && b.udp && b.used < |b.iov| && |h| == UDP_HEADER_SIZE && last == Msg(b.gen, b.used, 1)
    ensures AllSized(b.iov[b.used := h], b.ms + [last], true)
  {
    var iov' := b.iov[b.used := h];
    NewLast(b, h, last);
    SizedFrame(b.iov, iov', b.ms, b.gen, b.ms, b.gen, 0, b.used, true);
    assert Sized(iov', last, true);
    SizedSplit(iov', b.ms, [last], true);
  }

  lemma HeaderSays(b: Build, h: seq<Byte>, last: Msg)
    requires BuildOK(b) && b.udp && b.used < |b.iov| && last == Msg(b.gen, b.used, 1)
    ensures Said(b.iov[b.used := h], b.ms + [last], 1) == Text(b)
  {
    var iov' := b.iov[b.used := h];
    SaidFrame(b.iov, iov', b.ms, b.gen, b.ms, b.gen, 0, b.used, 1);
    SaidLast(iov', b.ms, last, 1);
    assert Text(b) + [] == Text(b);
  }

  /** A new message is begun only when the last one is full: all but the last are. */
  ghost predicate Packed(b: Build) { b.ms != [] && AllFull(b.iov, b.ms[..|b.ms| - 1], b.udp) }

  lemma LastFull(b: Build)
    requires BuildOK(b) && Packed(b)
    requires b.ms[|b.ms| - 1].len == IOV_MAX || (b.udp && b.msgBytes >= UDP_MAX_PAYLOAD_SIZE)
    ensures AllFull(b.iov, b.ms, b.udp)
  {
    var n := |b.ms| - 1;
    assert b.ms == b.ms[..n] + [b.ms[n]] && [b.ms[n]][1..] == [];
    LastSized(b);
    FullSplit(b.iov, b.ms[..n], [b.ms[n]], b.udp);
  }

  lemma RoomOrFull(b: Build)
    requires BuildOK(b) && Packed(b) && b.udp
    ensures b.ms[|b.ms| - 1].len <= IOV_MAX
    ensures b.ms[|b.ms| - 1].len == IOV_MAX || b.msgBytes >= UDP_MAX_PAYLOAD_SIZE ==> AllFull(b.iov, b.ms, b.udp)
  {
    LastSized(b);
    if b.ms[|b.ms| - 1].len == IOV_MAX || b.msgBytes >= UDP_MAX_PAYLOAD_SIZE { LastFull(b); }
  }

  lemma MovedPacked(b: Build, b': Build)
    requires BuildOK(b) && Moved(b, b') && Packed(b)
    ensures Packed(b') && (AllFull(b.iov, b.ms, b.udp) ==> AllFull(b'.iov, b'.ms, b'.udp))
  {
    var n := |b.ms| - 1;
    LaidLast(b.ms, b.gen, 0, b.used);
    LaidLast(b'.ms, b'.gen, 0, b'.used);
    FullFrame(b.iov, b'.iov, b.ms[..n], b.gen, b'.ms[..n], b'.gen, 0, b.ms[n].start, b.udp);
    if AllFull(b.iov, b.ms, b.udp) { FullFrame(b.iov, b'.iov, b.ms, b.gen, b'.ms, b'.gen, 0, b.used, b.udp); }
  }

  lemma PutPacked(b: Build, d: seq<Byte>)
    requires b.ms != [] && b.used < |b.iov| && Laid(b.ms, b.gen, 0, b.used) && Packed(b)
    ensures Packed(Put(b, d))
  {
    var n := |b.ms| - 1;
    LaidLast(b.ms, b.gen, 0, b.used);
    FullFrame(b.iov, Put(b, d).iov, b.ms[..n], b.gen, b.ms[..n], b.gen, 0, b.ms[n].start, b.udp);
    assert Put(b, d).ms[..n] == b.ms[..n];
  }

  lemma NewMsgPacked(b: Build)
    requires AllFull(b.iov, b.ms, b.udp)
    ensures Packed(NewMsg(b))
  {
    assert NewMsg(b).ms[..|b.ms|] == b.ms;
  }

  /** Where the reply is built: the fields of conn that add_iov and add_msghdr use. */
  class Builder {
    const udp: bool
    var gen: nat
    var iov: Iovs
    var used: nat
    var ms: seq<Msg>
    var msgBytes: nat

    ghost function Now(): Build reads this { Build(udp, gen, iov, used, ms, msgBytes) }

    ghost predicate Valid() reads this { BuildOK(Now()) && Packed(Now()) }

    /** A connection about to build a reply: an empty array and the first message. */
    constructor (udp: bool, size: nat)
      requires size > 0
      ensures Valid() && this.udp == udp && Text(Now()) == []
    {
      this.udp, gen, msgBytes := udp, 0, Skip(udp) * UDP_HEADER_SIZE;
      var blank: Iovs := seq(size, _ => []);
      var h: seq<Byte> := seq(UDP_HEADER_SIZE, _ => 0);
      var m := Msg(0, 0, Skip(udp));
      iov, used, ms := if udp then blank[0 := h] else blank, Skip(udp), [m];
      new;
      assert [m][1..] == [] && [m][..0] == [];
      assert Said(iov, [m], Skip(udp)) == [] + [];
      assert udp ==> Span(iov, 0, 1) == h + [];
    }

    /** ensure_iov_space: when the array is full it moves to one of twice the size, and every window is pointed
        there. */
    method EnsureIovSpace()
      requires Valid()
      modifies `gen, `iov, `ms
      ensures Valid() && used < |iov| && Text(Now()) == old(Text(Now()))
      ensures |ms| == |old(ms)| && ms[|ms| - 1].len == old(ms[|ms| - 1].len)
      ensures old(AllFull(iov, ms, udp)) ==> AllFull(iov, ms, udp)
    {
      ghost var b := Now();
      if used >= |iov| {
        iov := Doubled(iov);
        gen := gen + 1;
        PointWindows(b.gen);
        MovedKeeps(b, Now());
        MovedPacked(b, Now());
      }
    }

    method PointWindows(ghost before: nat)
      requires Laid(ms, before, 0, used)
      modifies `ms
      ensures |ms| == |old(ms)| && Laid(ms, gen, 0, used) && forall j | 0 <= j < |ms| :: ms[j].len == old(ms)[j].len
    {
      var i := 0;
      var num: nat := 0;
      ghost var was := ms;
      assert was[0..] == was;
      while i < |ms|
        invariant 0 <= i <= |ms| == |was| && Laid(ms[..i], gen, 0, num) && Laid(was[i..], before, num, used)
        invariant forall j | 0 <= j < |ms| :: ms[j].len == was[j].len
      {
        var m := Msg(gen, num, ms[i].len);
        assert [m][1..] == [];
        LaidSplit(ms[..i], [m], gen, 0, num, num + m.len);
        ms := ms[i := m];
        assert ms[..i + 1] == ms[..i] + [m];
        assert was[i..][1..] == was[i + 1..];
        num := num + m.len;
        i := i + 1;
      }
      assert ms[..|ms|] == ms;
    }

    /** The last lines of add_iov: the next free entry of the array joins the last window. */
    method PutEntry(d: seq<Byte>)
      requires ms != [] && used < |iov| && Laid(ms, gen, 0, used)
      modifies `iov, `used, `msgBytes, `ms
      ensures Now() == Put(old(Now()), d)
    {
      LaidLast(ms, gen, 0, used);
      var n := |ms| - 1;
      var m := ms[n];
      iov := iov[m.start + m.len := d];
      msgBytes := msgBytes + |d|;
      used := used + 1;
      ms := ms[n := m.(len := m.len + 1)];
      assert ms == old(ms)[..n] + [m.(len := m.len + 1)];
    }

    /** add_msghdr; its pointer into a full array is put right when the next buffer makes the array grow. */
    method AddMsghdr()
      requires Valid() && AllFull(iov, ms, udp)
      modifies `gen, `iov, `used, `ms, `msgBytes
      ensures Valid() && Text(Now()) == old(Text(Now()))
      ensures ms[|ms| - 1].len < IOV_MAX && msgBytes == Skip(udp) * UDP_HEADER_SIZE
    {
      if udp {
        var h: seq<Byte> := seq(UDP_HEADER_SIZE, _ => 0);
        EnsureIovSpace();
        NewDatagramKeeps(Now(), h);
        NewMsgPacked(Now());
        StartMsg();
        LastLaid();
        PutPacked(Now(), h);
        PutEntry(h);
      } else {
        NewMsgKeeps(Now());
        NewMsgPacked(Now());
        StartMsg();
      }
    }

    method StartMsg()
      modifies `ms, `msgBytes
      ensures Now() == NewMsg(old(Now()))
    {
      ms, msgBytes := ms + [Msg(gen, used, 0)], 0;
    }

    lemma LastLaid()
      requires ms != [] && Laid(ms[..|ms| - 1], gen, 0, used) && ms[|ms| - 1] == Msg(gen, used, 0)
      ensures Laid(ms, gen, 0, used)
    {
      var n := |ms| - 1;
      assert ms == ms[..n] + [ms[n]] && [ms[n]][1..] == [];
      LaidSplit(ms[..n], [ms[n]], gen, 0, used, used);
    }

    /** add_iov: the reply grows by exactly buf, over as many datagrams as it takes. */
    method AddIov(buf: seq<Byte>)
      requires Valid()
      modifies `gen, `iov, `used, `ms, `msgBytes
      ensures Valid() && Text(Now()) == old(Text(Now())) + buf
    {
      if udp { AddSplit(buf); return; }
      LastSized(Now());
      if ms[|ms| - 1].len == IOV_MAX {
        LastFull(Now());
        AddMsghdr();
      }
      AddPiece(buf);
    }

    method AddSplit(buf: seq<Byte>)
      requires Valid() && udp
      modifies `gen, `iov, `used, `ms, `msgBytes
      ensures Valid() && Text(Now()) == old(Text(Now())) + buf
    {
      var at := 0;
      var more := true;
      ghost var t := Text(Now());
      Extend(t, buf, 0, 0);
      while more
        invariant Valid() && 0 <= at <= |buf| && Text(Now()) == t + buf[..at] && (!more ==> at == |buf|)
        decreases more, |buf| - at
      {
        var len := AddSome(buf[at..]);
        assert buf[at..][..len] == buf[at..at + len];
        Extend(t, buf, at, len);
        more := len < |buf| - at;
        at := at + len;
      }
      assert buf[..|buf|] == buf;
    }

    /** A new datagram, if the last one is full. */
    method MakeRoom()
      requires Valid() && udp
      modifies `gen, `iov, `used, `ms, `msgBytes
      ensures Valid() && Text(Now()) == old(Text(Now()))
      ensures ms[|ms| - 1].len < IOV_MAX && msgBytes < UDP_MAX_PAYLOAD_SIZE
    {
      RoomOrFull(Now());
      if ms[|ms| - 1].len == IOV_MAX || msgBytes >= UDP_MAX_PAYLOAD_SIZE {
        AddMsghdr();
      }
    }

    /** One turn of the loop: as much of the rest as goes into the last datagram, or into a new one if that is full. */
    method AddSome(rest: seq<Byte>) returns (len: nat)
      requires Valid() && udp
      modifies `gen, `iov, `used, `ms, `msgBytes
      ensures Valid() && len <= |rest| && Text(Now()) == old(Text(Now())) + rest[..len] && (rest != [] ==> len > 0)
    {
      MakeRoom();
      len := |rest|;
      var leftover := if len + msgBytes > UDP_MAX_PAYLOAD_SIZE then len + msgBytes - UDP_MAX_PAYLOAD_SIZE else 0;
      len := len - leftover;
      AddPiece(rest[..len]);
    }

    static lemma Extend(t: seq<Byte>, buf: seq<Byte>, at: nat, len: nat)
      requires at + len <= |buf|
      ensures t + buf[..at] + buf[at..at + len] == t + buf[..at + len] && t + buf[..0] == t
    {
      assert buf[..at] + buf[at..at + len] == buf[..at + len];
    }

    method AddPiece(d: seq<Byte>)
      requires Valid() && ms[|ms| - 1].len < IOV_MAX && (udp ==> msgBytes + |d| <= UDP_MAX_PAYLOAD_SIZE)
      modifies `gen, `iov, `used, `ms, `msgBytes
      ensures Valid() && Text(Now()) == old(Text(Now())) + d
    {
      EnsureIovSpace();
      PutKeeps(Now(), d);
      PutPacked(Now(), d);
      PutEntry(d);
    }
  }
}
