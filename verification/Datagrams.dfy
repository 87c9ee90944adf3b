/** A reply over UDP (src/memcached.c): the datagrams that carry it, their headers, and why a client can put the reply
    together again in whatever order they arrive. */
module Datagrams {
  import opened Basics
  import opened Reply
  import opened ReplySending

  /** Headers have two bytes for the number of a datagram. */
  const NUMBERS: nat := 65536

  /** The header of datagram i of n, as bytes. */
  function Header(id: nat, i: nat, n: nat): (h: seq<Byte>)
    ensures |h| == UDP_HEADER_SIZE
  {
    [id / 256 % 256, id % 256, i / 256 % 256, i % 256, n / 256 % 256, n % 256, 0, 0]
  }

  /** What a client reads off a datagram: the request it answers, its number, and how many there are. */
  function RequestId(p: seq<Byte>): nat
    requires |p| >= UDP_HEADER_SIZE
  {
    (p[0] as int) * 256 + (p[1] as int)
  }

  function Number(p: seq<Byte>): nat
    requires |p| >= UDP_HEADER_SIZE
  {
    (p[2] as int) * 256 + (p[3] as int)
  }

  function HowMany(p: seq<Byte>): nat
    requires |p| >= UDP_HEADER_SIZE
  {
    (p[4] as int) * 256 + (p[5] as int)
  }

  /** p is datagram i of n of the reply to request id, and carries the piece. */
  ghost predicate ReadsAs(p: seq<Byte>, id: nat, i: nat, n: nat, piece: seq<Byte>) {
    && |p| >= UDP_HEADER_SIZE && RequestId(p) == id % NUMBERS && Number(p) == i % NUMBERS && HowMany(p) == n % NUMBERS
    && p[6] == 0 && p[7] == 0 && p[UDP_HEADER_SIZE..] == piece
  }

  /** The windows lie in the array, each with an entry for its header, one behind the other. */
  ghost predicate Windows(iov: Iovs, ms: seq<Msg>) {
    && (forall i | 0 <= i < |ms| :: ms[i].len >= 1 && ms[i].start + ms[i].len <= |iov|)
    && (forall i, j | 0 <= i < j < |ms| :: ms[i].start + ms[i].len <= ms[j].start)
  }

  lemma {:induction false} LaidWindows(iov: Iovs, ms: seq<Msg>, gen: nat, from: nat, used: nat)
    requires Laid(ms, gen, from, used) && AllSized(iov, ms, true)
    ensures Windows(iov, ms) && Adjacent(ms) && forall i | 0 <= i < |ms| :: from <= ms[i].start
    decreases ms
  {
    if ms != [] {
      LaidWindows(iov, ms[1..], gen, from + ms[0].len, used);
      assert forall i | 1 <= i < |ms| :: ms[i] == ms[1..][i - 1];
    }
  }

  /** No entry lies between two windows. */
  ghost predicate Adjacent(ms: seq<Msg>) {
    forall i | 0 < i < |ms| :: ms[i - 1].start + ms[i - 1].len == ms[i].start
  }

  ghost function Piece(iov: Iovs, m: Msg): seq<Byte> { Span(iov, m.start + 1, m.start + m.len) }

  /** What the datagrams carry besides their headers. */
  ghost function Pieces(iov: Iovs, ms: seq<Msg>): (r: seq<seq<Byte>>)
    ensures |r| == |ms| && forall i | 0 <= i < |ms| :: r[i] == Piece(iov, ms[i])
  {
    seq(|ms|, i requires 0 <= i < |ms| => Piece(iov, ms[i]))
  }

  /** The pieces make up the reply. */
  lemma {:induction false} PiecesSayText(iov: Iovs, ms: seq<Msg>)
    ensures Concat(Pieces(iov, ms)) == Said(iov, ms, 1)
    decreases |ms|
  {
    if ms != [] {
      var n := |ms| - 1;
      PiecesSayText(iov, ms[..n]);
      assert ms == ms[..n] + [ms[n]];
      SaidLast(iov, ms[..n], ms[n], 1);
      assert Pieces(iov, ms)[..n] == Pieces(iov, ms[..n]);
    }
  }

  /** Datagram i of the reply, with its header. */
  ghost predicate Headed(iov: Iovs, ms: seq<Msg>, id: nat, i: nat)
    requires i < |ms| && Windows(iov, ms)
  {
    iov[ms[i].start] == Header(id, i, |ms|)
  }

  /** Only entries for headers may differ. */
  ghost predicate SamePieces(iov: Iovs, iov': Iovs, ms: seq<Msg>) {
    && |iov'| == |iov|
    && forall i, k {:trigger ms[i], iov'[k]}
         | 0 <= i < |ms| && ms[i].start < k < ms[i].start + ms[i].len && k < |iov| ::
         iov'[k] == iov[k]
  }

  /** build_udp_headers, before anything is sent. */
  method BuildHeaders(s: Sender, id: nat)
    requires Windows(s.iov, s.ms)
    modifies s`iov
    ensures Windows(s.iov, s.ms) && SamePieces(old(s.iov), s.iov, s.ms)
    ensures forall i | 0 <= i < |s.ms| :: Headed(s.iov, s.ms, id, i)
  {
    for i := 0 to |s.ms|
      invariant Windows(s.iov, s.ms) && SamePieces(old(s.iov), s.iov, s.ms)
      invariant forall j | 0 <= j < i :: Headed(s.iov, s.ms, id, j)
    {
      ghost var before := s.iov;
      s.iov := s.iov[s.ms[i].start := Header(id, i, |s.ms|)];
      HeaderWritten(before, s.iov, s.ms, id, i);
    }
  }

  lemma HeaderWritten(iov: Iovs, iov': Iovs, ms: seq<Msg>, id: nat, i: nat)
    requires i < |ms| && Windows(iov, ms) && iov' == iov[ms[i].start := Header(id, i, |ms|)]
    ensures Windows(iov', ms) && SamePieces(iov, iov', ms) && Headed(iov', ms, id, i)
    ensures forall j | 0 <= j < i :: Headed(iov, ms, id, j) ==> Headed(iov', ms, id, j)
  {
    forall j, k | 0 <= j < |ms| && ms[j].start < k < ms[j].start + ms[j].len && k < |iov| ensures iov'[k] == iov[k] {
      assert j < i ==> ms[j].start + ms[j].len <= ms[i].start;
      assert i < j ==> ms[i].start + ms[i].len <= ms[j].start;
    }
  }

  /** A datagram is its header and its piece. */
  ghost predicate Carried(wire: seq<seq<Byte>>, id: nat, pieces: seq<seq<Byte>>) {
    |wire| <= |pieces| && forall i | 0 <= i < |wire| :: wire[i] == Header(id, i, |pieces|) + pieces[i]
  }

  lemma HeadedSays(iov0: Iovs, iov: Iovs, ms: seq<Msg>, id: nat, i: nat)
    requires Windows(iov0, ms) && Windows(iov, ms) && SamePieces(iov0, iov, ms) && i < |ms| && Headed(iov, ms, id, i)
    ensures Span(iov, ms[i].start, ms[i].start + ms[i].len) == Header(id, i, |ms|) + Piece(iov0, ms[i])
  {
    SpanFrame(iov0, iov, ms[i].start + 1, ms[i].start + ms[i].len);
  }

  /** A sendmsg that takes all of a window leaves it empty and the array alone. */
  lemma {:induction false} EatAll(iov: Iovs, m: Msg)
    requires m.start + m.len <= |iov|
    ensures Eat(iov, m, Size(iov, m.start, m.start + m.len)) == (iov, Msg(m.gen, m.start + m.len, 0))
    decreases m.len
  {
    if m.len > 0 { EatAll(iov, m.(start := m.start + 1, len := m.len - 1)); }
  }

  ghost function Packet(s: Sending, i: nat): seq<Byte>
    requires i < |s.ms|
  {
    Span(s.iov, s.ms[i].start, s.ms[i].start + s.ms[i].len)
  }

  ghost predicate Nonempty(s: Sending) { forall i | 0 <= i < |s.ms| :: Packet(s, i) != [] }

  /** k datagrams have gone out whole. */
  ghost predicate Gone(s0: Sending, s: Sending, k: nat) {
    && |s.iov| == |s0.iov| && (k < |s.ms| ==> s.iov == s0.iov) && |s.ms| == |s0.ms| && k <= |s.ms|
    && (forall j | k <= j < |s.ms| :: s.ms[j] == s0.ms[j])
    && (s.curr == k || (k > 0 && s.curr == k - 1 && s.ms[s.curr] == Finished(s0.ms[k - 1])))
  }

  /** A window all of which has been sent. */
  function Finished(m: Msg): Msg { Msg(m.gen, m.start + m.len, 0) }

  /** The headers are in place. */
  ghost predicate Ready(s: Sending, id: nat) {
    && Windows(s.iov, s.ms) && Adjacent(s.ms) && Nonempty(s)
    && forall i {:trigger Headed(s.iov, s.ms, id, i)} | 0 <= i < |s.ms| :: Headed(s.iov, s.ms, id, i)
  }

  /** build_udp_headers again, which conn_mwrite calls as long as the first datagram is the current one. When that one
      has gone out its window has moved on to the header of the second, which is written over and then written anew. If
      there is no second it has moved on to the entry behind the last one used, which is in the array or not; outside
      tells that a header went to an entry that the array does not have. */
  method BuildAgain(s: Sender, ghost s0: Sending, id: nat, ghost k: nat) returns (outside: bool)
    requires s.Valid() && Ready(s0, id) && Gone(s0, s.Now(), k) && s.curr == 0
    modifies s`iov
    ensures s.Valid() && Gone(s0, s.Now(), k)
    ensures outside <==> k == |s0.ms| == 1 && Used(s0.ms) == |s0.iov|
  {
    var n := |s.ms|;
    outside := false;
    for i := 0 to n
      invariant |s.iov| == |s0.iov| && (k < n ==> s.iov == Rewritten(s0, id, k, i))
      invariant outside <==> i > 0 && k == n == 1 && Used(s0.ms) == |s0.iov|
    {
      assert k <= i ==> Headed(s0.iov, s0.ms, id, i);
      if s.ms[i].start == |s.iov| {
        outside := true;
      } else {
        s.iov := s.iov[s.ms[i].start := Header(id, i, n)];
      }
    }
  }

  /** How many entries of the array the windows take up. */
  ghost function Used(ms: seq<Msg>): nat { if ms == [] then 0 else ms[|ms| - 1].start + ms[|ms| - 1].len }

  /** The array after the first i headers have been written again, with k datagrams gone. */
  ghost function Rewritten(s: Sending, id: nat, k: nat, i: nat): Iovs
    requires Windows(s.iov, s.ms)
  {
    if k == 1 && i == 1 && |s.ms| > 1 then s.iov[s.ms[1].start := Header(id, 0, |s.ms|)] else s.iov
  }

  /** The bytes that a sendmsg for datagram k takes: all of it, or none when it blocks or there is none left. */
  ghost function Going(s: Sending, k: nat, sends: bool): seq<Byte> {
    if sends && k < |s.ms| then Packet(s, k) else []
  }

  /** The next datagram goes out, or the send blocks. */
  method SendNext(s: Sender, ghost s0: Sending, ghost k: nat, sends: bool) returns (r: Result)
    requires s.Valid() && Windows(s0.iov, s0.ms) && Gone(s0, s.Now(), k) && k < |s0.ms| && Packet(s0, k) != []
    modifies s
    ensures s.Valid() && r == (if sends then Incomplete else SoftError)
    ensures Gone(s0, s.Now(), if sends then k + 1 else k)
    ensures s.sent == old(s.sent) + Going(s0, k, sends) && s.curr == k
  {
    var c := if s.ms[s.curr].len == 0 then s.curr + 1 else s.curr;
    var m := s.ms[c];
    assert m == s0.ms[k] && ReplySending.Offered(s.Now()) == Packet(s0, k);
    SizeOfSpan(s.iov, m.start, m.start + m.len);
    if sends {
      EatAll(s.iov, m);
      r := s.Transmit(Size(s.iov, m.start, m.start + m.len), true);
    } else {
      r := s.Transmit(-1, true);
    }
    Whole(Packet(s0, k), old(s.sent));
  }

  lemma Whole(x: seq<Byte>, sent: seq<Byte>)
    ensures x[..|x|] == x && sent + [] == sent
  {}

  /** One call of transmit: it finds that all k datagrams are out, or that the next one goes or waits. */
  method EmitTurn(s: Sender, ghost s0: Sending, ghost k: nat, sends: bool) returns (r: Result)
    requires s.Valid() && Windows(s0.iov, s0.ms) && Nonempty(s0) && Gone(s0, s.Now(), k)
    modifies s
    ensures s.Valid() && (r == Complete <==> k == |s0.ms|)
    ensures Gone(s0, s.Now(), if sends && k < |s0.ms| then k + 1 else k)
    ensures s.sent == old(s.sent) + Going(s0, k, sends)
    ensures r != Complete ==> s.curr == k
  {
    Whole([], s.sent);
    var n := |s.ms|;
    var c := if s.curr < n && s.ms[s.curr].len == 0 then s.curr + 1 else s.curr;
    if c == n {
      r := s.Transmit(-1, true);
    } else {
      assert Packet(s0, k) != [];
      r := SendNext(s, s0, k, sends);
    }
  }

  /** The first datagrams of a reply. */
  ghost predicate FirstOnes(s: Sending, wire: seq<seq<Byte>>) {
    |wire| <= |s.ms| && forall i | 0 <= i < |wire| :: wire[i] == Packet(s, i)
  }

  /** The next one went out, or nothing did. */
  lemma OneMore(s: Sending, wire: seq<seq<Byte>>, sends: bool) returns (wire': seq<seq<Byte>>)
    requires FirstOnes(s, wire)
    ensures FirstOnes(s, wire') && |wire'| == |wire| + if sends && |wire| < |s.ms| then 1 else 0
    ensures Concat(wire') == Concat(wire) + Going(s, |wire|, sends)
  {
    if sends && |wire| < |s.ms| {
      wire' := wire + [Packet(s, |wire|)];
      ConcatMore(wire, Packet(s, |wire|));
    } else {
      wire' := wire;
      Whole([], Concat(wire));
    }
  }

  lemma ConcatMore(bs: seq<seq<Byte>>, b: seq<Byte>)
    ensures Concat(bs + [b]) == Concat(bs) + b
  {
    assert (bs + [b])[..|bs|] == bs;
  }

  /** Datagrams leave whole or not at all: outcomes tells for each sendmsg whether it sends or blocks. The bytes sent
      are the first datagrams one after the other, wire being how they divide. A header goes outside the array if and
      only if there is one datagram, it has gone out, and its buffers fill the array. */
  method Emit(s: Sender, ghost s0: Sending, id: nat, outcomes: seq<bool>)
      returns (r: Result, outside: bool, ghost wire: seq<seq<Byte>>)
    requires s.Valid() && s.Now() == s0 && s0.curr == 0 && Ready(s0, id) && s.sent == []
    modifies s
    ensures s.sent == Concat(wire) && FirstOnes(s0, wire) && (r == Complete ==> |wire| == |s0.ms|)
    ensures |outcomes| > |s0.ms| && false !in outcomes ==> r == Complete
    ensures outside <==> r == Complete && |s0.ms| == 1 && Used(s0.ms) == |s0.iov|
  {
    wire, r, outside := [], Incomplete, false;
    var j := 0;
    while j < |outcomes| && r != Complete
      invariant s.Valid() && 0 <= j <= |outcomes| && |wire| <= j && Gone(s0, s.Now(), |wire|)
      invariant r != Complete && s0.ms != [] ==> s.curr < |s0.ms|
      invariant s.sent == Concat(wire) && FirstOnes(s0, wire) && (r == Complete ==> |wire| == |s0.ms|)
      invariant false !in outcomes && r != Complete ==> |wire| == j
      invariant outside <==> r == Complete && |s0.ms| == 1 && Used(s0.ms) == |s0.iov|
      decreases |outcomes| - j
    {
      assert outcomes[j] in outcomes;
      r, outside, wire := MwriteTurn(s, s0, id, j, outcomes[j], wire);
      j := j + 1;
    }
  }

  /** One visit to conn_mwrite, the j-th. */
  method MwriteTurn(s: Sender, ghost s0: Sending, id: nat, j: nat, sends: bool, ghost wire: seq<seq<Byte>>)
      returns (r: Result, outside: bool, ghost wire': seq<seq<Byte>>)
    requires s.Valid() && Ready(s0, id) && |wire| <= j && Gone(s0, s.Now(), |wire|)
    requires s.sent == Concat(wire) && FirstOnes(s0, wire) && (s0.ms != [] ==> s.curr < |s0.ms|)
    modifies s
    ensures s.Valid() && Gone(s0, s.Now(), |wire'|) && s.sent == Concat(wire') && FirstOnes(s0, wire')
    ensures (r == Complete <==> |wire| == |s0.ms|) && (r != Complete ==> s.curr < |s0.ms|)
    ensures |wire'| == |wire| + if sends && r != Complete then 1 else 0
    ensures outside <==> r == Complete && |s0.ms| == 1 && Used(s0.ms) == |s0.iov|
  {
    outside := Rebuild(s, s0, id, |wire|, j);
    r := EmitTurn(s, s0, |wire|, sends);
    wire' := OneMore(s0, wire, sends);
  }

  method Rebuild(s: Sender, ghost s0: Sending, id: nat, ghost k: nat, j: nat) returns (outside: bool)
    requires s.Valid() && Ready(s0, id) && k <= j && Gone(s0, s.Now(), k) && (s0.ms != [] ==> s.curr < |s0.ms|)
    modifies s`iov
    ensures s.Valid() && Gone(s0, s.Now(), k)
    ensures outside <==> k == |s0.ms| == 1 && Used(s0.ms) == |s0.iov|
  {
    outside := false;
    if j > 0 && s.curr == 0 {
      outside := BuildAgain(s, s0, id, k);
    }
  }

  /** A reply over UDP, from the first buffer to the last datagram: the bytes sent are the first ones of the datagrams
      that carry the reply, all of them on completion. None is longer than 1400 bytes, and all but the last have just as
      many, unless they have as many buffers as the system takes. */
  method SendUdpReply(size: nat, bs: seq<seq<Byte>>, id: nat, outcomes: seq<bool>)
      returns (b: Builder, s: Sender, r: Result, outside: bool, ghost wire: seq<seq<Byte>>,
      ghost pieces: seq<seq<Byte>>)
    requires size > 0
    ensures Concat(pieces) == Concat(bs) && s.sent == Concat(wire) && Carried(wire, id, pieces)
    ensures forall p <- wire :: |p| <= UDP_MAX_PAYLOAD_SIZE
    ensures |wire| <= |pieces| && forall i | 0 <= i < |wire| :: ReadsAs(wire[i], id, i, |pieces|, pieces[i])
    ensures |b.ms| == |pieces| &&
            forall i | 0 <= i < |wire| && i + 1 < |pieces| :: |wire[i]| == 1400 || b.ms[i].len == IOV_MAX
    ensures r == Complete ==> |wire| == |pieces|
    ensures |outcomes| > |pieces| && false !in outcomes ==> r == Complete
    ensures outside <==> r == Complete && |pieces| == 1 && b.used == |b.iov|
  {
    b := Compose(true, size, bs);
    s, pieces := Prepare(b, id);
    ghost var s0 := s.Now();
    AllNonempty(s0, id, pieces);
    r, outside, wire := Emit(s, s0, id, outcomes);
    WireCarries(s0, id, pieces, wire);
    WireFull(b.Now(), s0, wire);
    forall i | 0 <= i < |wire| ensures ReadsAs(wire[i], id, i, |pieces|, pieces[i]) { Read(wire, id, pieces, i); }
  }

  /** A finished reply on its way out, with its headers. */
  method Prepare(b: Builder, id: nat) returns (s: Sender, ghost pieces: seq<seq<Byte>>)
    requires b.Valid() && b.udp
    ensures fresh(s) && s.Valid() && s.curr == 0 && s.sent == [] && Windows(s.iov, s.ms) && Adjacent(s.ms)
    ensures Used(s.ms) == b.used && |s.iov| == |b.iov|
    ensures forall i {:trigger Headed(s.iov, s.ms, id, i)} | 0 <= i < |s.ms| :: Headed(s.iov, s.ms, id, i)
    ensures Concat(pieces) == Text(b.Now()) && |pieces| == |s.ms|
    ensures forall i | 0 <= i < |s.ms| :: DatagramOK(s.Now(), id, pieces, i)
    ensures s.ms == b.ms && forall i | 0 <= i < |s.ms| :: AsLong(b.Now(), s.Now(), i)
  {
    s := new Sender(b.iov, b.ms, b.gen, b.used);
    pieces := Pieces(b.iov, b.ms);
    LaidWindows(b.iov, b.ms, b.gen, 0, b.used);
    LaidLast(b.ms, b.gen, 0, b.used);
    PiecesSayText(b.iov, b.ms);
    BuildHeaders(s, id);
    SendingStays(b.iov, s.iov, b.ms, b.gen, b.used);
    forall i | 0 <= i < |s.ms| ensures DatagramOK(s.Now(), id, pieces, i) && AsLong(b.Now(), s.Now(), i) {
      DatagramIs(b.Now(), s.Now(), id, i);
    }
  }

  lemma WireCarries(s: Sending, id: nat, pieces: seq<seq<Byte>>, wire: seq<seq<Byte>>)
    requires |pieces| == |s.ms| && forall i | 0 <= i < |s.ms| :: DatagramOK(s, id, pieces, i)
    requires FirstOnes(s, wire)
    ensures Carried(wire, id, pieces) && forall p <- wire :: |p| <= UDP_MAX_PAYLOAD_SIZE
  {
    forall i | 0 <= i < |wire|
      ensures wire[i] == Header(id, i, |pieces|) + pieces[i] && |wire[i]| <= UDP_MAX_PAYLOAD_SIZE
    {
      assert DatagramOK(s, id, pieces, i);
    }
  }

  /** Writing the header does not change the length of the datagram. */
  ghost predicate AsLong(b: Build, s: Sending, i: nat) {
    && i < |b.ms| && i < |s.ms| && b.ms[i].start + b.ms[i].len <= |b.iov|
    && |Packet(s, i)| == |Span(b.iov, b.ms[i].start, b.ms[i].start + b.ms[i].len)|
  }

  lemma {:induction false} FullAt(iov: Iovs, ms: seq<Msg>, udp: bool, i: nat)
    requires AllFull(iov, ms, udp) && i < |ms|
    ensures Full(iov, ms[i], udp)
    decreases ms
  {
    if i > 0 { FullAt(iov, ms[1..], udp, i - 1); }
  }

  lemma WireFull(b: Build, s: Sending, wire: seq<seq<Byte>>)
    requires Packed(b) && s.ms == b.ms && FirstOnes(s, wire) && forall i | 0 <= i < |s.ms| :: AsLong(b, s, i)
    ensures forall i | 0 <= i < |wire| && i + 1 < |b.ms| :: |wire[i]| == 1400 || b.ms[i].len == IOV_MAX
  {
    forall i | 0 <= i < |wire| && i + 1 < |b.ms| ensures |wire[i]| == 1400 || b.ms[i].len == IOV_MAX {
      FullAt(b.iov, b.ms[..|b.ms| - 1], b.udp, i);
      assert AsLong(b, s, i);
    }
  }

  lemma AllNonempty(s: Sending, id: nat, pieces: seq<seq<Byte>>)
    requires forall i | 0 <= i < |s.ms| :: DatagramOK(s, id, pieces, i)
    ensures Nonempty(s)
  {
    forall i | 0 <= i < |s.ms| ensures Packet(s, i) != [] { assert DatagramOK(s, id, pieces, i); }
  }

  ghost predicate DatagramOK(s: Sending, id: nat, pieces: seq<seq<Byte>>, i: nat) {
    && |pieces| == |s.ms| && i < |s.ms| && Packet(s, i) == Header(id, i, |s.ms|) + pieces[i]
    && 0 < |Packet(s, i)| <= UDP_MAX_PAYLOAD_SIZE
  }

  lemma SendingStays(iov: Iovs, iov': Iovs, ms: seq<Msg>, gen: nat, used: nat)
    requires Laid(ms, gen, 0, used) && used <= |iov| == |iov'|
    ensures SendingOK(Sending(iov', ms, 0))
  {
    assert ms[0..] == ms;
    LaidInOrder(ms, gen, 0, used);
    InOrderWider(ms, 0, used, |iov'|);
  }

  lemma DatagramIs(b: Build, s: Sending, id: nat, i: nat)
    requires BuildOK(b) && b.udp && s.ms == b.ms && i < |s.ms| && Windows(b.iov, s.ms) && Windows(s.iov, s.ms)
    requires SamePieces(b.iov, s.iov, s.ms) && Headed(s.iov, s.ms, id, i)
    ensures DatagramOK(s, id, Pieces(b.iov, b.ms), i) && AsLong(b, s, i)
  {
    PacketIs(b.iov, s.iov, s.ms, id, b.gen, b.used, i);
    assert Pieces(b.iov, b.ms)[i] == Piece(b.iov, s.ms[i]);
  }

  lemma PacketIs(iov: Iovs, iov': Iovs, ms: seq<Msg>, id: nat, gen: nat, used: nat, i: nat)
    requires Laid(ms, gen, 0, used) && AllSized(iov, ms, true) && i < |ms| && Windows(iov, ms) && Windows(iov', ms)
    requires SamePieces(iov, iov', ms) && Headed(iov', ms, id, i)
    ensures var packet := Span(iov', ms[i].start, ms[i].start + ms[i].len);
            && packet == Header(id, i, |ms|) + Piece(iov, ms[i]) && 0 < |packet| <= UDP_MAX_PAYLOAD_SIZE
            && |packet| == |Span(iov, ms[i].start, ms[i].start + ms[i].len)|
  {
    HeadedSays(iov, iov', ms, id, i);
    DatagramsSayText(iov, ms, gen, 0, used, i);
    SameLength(id, i, |ms|, iov, ms[i]);
  }

  /** A header has the length of the entry that is kept for it. */
  lemma SameLength(id: nat, i: nat, n: nat, iov: Iovs, m: Msg)
    requires m.len >= 1 && m.start + m.len <= |iov| && |iov[m.start]| == UDP_HEADER_SIZE
    ensures |Header(id, i, n) + Piece(iov, m)| == |Span(iov, m.start, m.start + m.len)| > 0
  {}

  // ---------- the client ----------

  lemma HeaderReads(id: nat, i: nat, n: nat, piece: seq<Byte>)
    ensures ReadsAs(Header(id, i, n) + piece, id, i, n, piece)
  {
    var h := Header(id, i, n);
    assert (h + piece)[UDP_HEADER_SIZE..] == piece;
    TwoBytes(id);
    TwoBytes(i);
    TwoBytes(n);
  }

  lemma TwoBytes(n: nat)
    ensures n / 256 % 256 * 256 + n % 256 == n % NUMBERS
  {}

  /** What a client reads off datagram i. */
  lemma Read(wire: seq<seq<Byte>>, id: nat, pieces: seq<seq<Byte>>, i: nat)
    requires Carried(wire, id, pieces) && i < |wire|
    ensures ReadsAs(wire[i], id, i, |pieces|, pieces[i]) && (i < NUMBERS ==> Number(wire[i]) == i)
  {
    HeaderReads(id, i, |pieces|, pieces[i]);
  }

  /** The datagrams of a reply can be told apart by their numbers if and only if there are no more than 65536. */
  lemma NumbersApart(wire: seq<seq<Byte>>, id: nat, pieces: seq<seq<Byte>>)
    requires Carried(wire, id, pieces)
    ensures (forall i, j | 0 <= i < j < |wire| :: Number(wire[i]) != Number(wire[j])) <==> |wire| <= NUMBERS
  {
    forall i | 0 <= i < |wire| ensures i < NUMBERS ==> Number(wire[i]) == i { Read(wire, id, pieces, i); }
    if |wire| > NUMBERS {
      Read(wire, id, pieces, NUMBERS);
      assert Number(wire[0]) == Number(wire[NUMBERS]);
    }
  }

  /** What a client has of datagram k among those it got. */
  function Found(got: seq<seq<Byte>>, k: nat): Option<seq<Byte>> {
    if got == [] then None
    else if |got[0]| >= UDP_HEADER_SIZE && Number(got[0]) == k then Some(got[0][UDP_HEADER_SIZE..])
    else Found(got[1..], k)
  }

  /** The first n pieces in the order of their numbers. */
  function Assembled(got: seq<seq<Byte>>, n: nat): seq<Byte> {
    if n == 0 then []
    else Assembled(got, n - 1) + match Found(got, n - 1) case None => [] case Some(piece) => piece
  }

  lemma {:induction false} FoundThere(got: seq<seq<Byte>>, k: nat, p: seq<Byte>)
    requires p in got && |p| >= UDP_HEADER_SIZE && Number(p) == k
    requires forall q <- got :: |q| >= UDP_HEADER_SIZE && (Number(q) == k ==> q == p)
    ensures Found(got, k) == Some(p[UDP_HEADER_SIZE..])
    decreases got
  {
    if got[0] != p { FoundThere(got[1..], k, p); }
  }

  /** The datagrams of a complete reply, in whatever order and however often each of them arrives, give it back. */
  lemma Reassembles(wire: seq<seq<Byte>>, id: nat, pieces: seq<seq<Byte>>, got: seq<seq<Byte>>)
    requires Carried(wire, id, pieces) && |wire| == |pieces| <= NUMBERS && (forall p :: p in got <==> p in wire)
    ensures Assembled(got, |pieces|) == Concat(pieces)
  {
    AssembledUpTo(wire, id, pieces, got, |pieces|);
    assert pieces[..|pieces|] == pieces;
  }

  lemma {:induction false} AssembledUpTo(wire: seq<seq<Byte>>, id: nat, pieces: seq<seq<Byte>>, got: seq<seq<Byte>>,
      n: nat)
    requires Carried(wire, id, pieces) && |wire| == |pieces| <= NUMBERS && (forall p :: p in got <==> p in wire)
    requires n <= |pieces|
    ensures Assembled(got, n) == Concat(pieces[..n])
    decreases n
  {
    if n > 0 {
      AssembledUpTo(wire, id, pieces, got, n - 1);
      OneFound(wire, id, pieces, got, n - 1);
      assert pieces[..n][..n - 1] == pieces[..n - 1];
    }
  }

  lemma OneFound(wire: seq<seq<Byte>>, id: nat, pieces: seq<seq<Byte>>, got: seq<seq<Byte>>, k: nat)
    requires Carried(wire, id, pieces) && |wire| == |pieces| <= NUMBERS && (forall p :: p in got <==> p in wire)
    requires k < |pieces|
    ensures Found(got, k) == Some(pieces[k])
  {
    forall q | q in got ensures |q| >= UDP_HEADER_SIZE && (Number(q) == k ==> q == wire[k]) {
      var i :| 0 <= i < |wire| && wire[i] == q;
      Read(wire, id, pieces, i);
    }
    Read(wire, id, pieces, k);
    assert wire[k] in wire;
    FoundThere(got, k, wire[k]);
  }

  /** The datagrams that answer request id. */
  function Mine(got: seq<seq<Byte>>, id: nat): seq<seq<Byte>> {
    if got == [] then []
    else (if |got[0]| >= UDP_HEADER_SIZE && RequestId(got[0]) == id then [got[0]] else []) + Mine(got[1..], id)
  }

  lemma {:induction false} MineAre(got: seq<seq<Byte>>, id: nat)
    ensures forall p :: p in Mine(got, id) <==> p in got && |p| >= UDP_HEADER_SIZE && RequestId(p) == id
    decreases got
  {
    if got != [] {
      MineAre(got[1..], id);
      assert forall p :: p in got <==> p == got[0] || p in got[1..];
    }
  }

  /** Also among the datagrams of replies to other requests: a client that keeps those with its request's id, and takes
      from any of them how many there are, has the reply. */
  lemma ReassemblesAmongOthers(wire: seq<seq<Byte>>, id: nat, pieces: seq<seq<Byte>>, got: seq<seq<Byte>>,
      mine: seq<seq<Byte>>, p: seq<Byte>) returns (n: nat)
    requires Carried(wire, id, pieces) && |wire| == |pieces| < NUMBERS && Among(wire, id % NUMBERS, got)
    requires mine == Mine(got, id % NUMBERS) && p in mine
    ensures |p| >= UDP_HEADER_SIZE && n == HowMany(p) && Assembled(mine, n) == Concat(pieces)
  {
    MineIsWire(wire, id, pieces, got, mine);
    OneReads(wire, id, pieces, p);
    n := |pieces|;
    Reassembles(wire, id, pieces, mine);
  }

  /** All of wire was received, and besides it only datagrams with other ids. */
  ghost predicate Among(wire: seq<seq<Byte>>, id: nat, got: seq<seq<Byte>>) {
    && (forall q <- wire :: q in got)
    && forall q <- got :: q in wire || (|q| >= UDP_HEADER_SIZE && RequestId(q) != id)
  }

  lemma OneReads(wire: seq<seq<Byte>>, id: nat, pieces: seq<seq<Byte>>, p: seq<Byte>)
    requires Carried(wire, id, pieces) && p in wire
    ensures |p| >= UDP_HEADER_SIZE && RequestId(p) == id % NUMBERS
    ensures |pieces| < NUMBERS ==> HowMany(p) == |pieces|
  {
    var i :| 0 <= i < |wire| && wire[i] == p;
    Read(wire, id, pieces, i);
  }

  lemma MineIsWire(wire: seq<seq<Byte>>, id: nat, pieces: seq<seq<Byte>>, got: seq<seq<Byte>>, mine: seq<seq<Byte>>)
    requires Carried(wire, id, pieces) && Among(wire, id % NUMBERS, got) && mine == Mine(got, id % NUMBERS)
    ensures forall q :: q in mine <==> q in wire
  {
    MineAre(got, id % NUMBERS);
    forall q | q in wire ensures q in mine { OneReads(wire, id, pieces, q); }
  }
}
