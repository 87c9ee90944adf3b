/** Sending a finished reply with transmit of src/memcached.c: whatever part of a message each sendmsg takes, the bytes
    on the wire are the reply, once and in order. */
module ReplySending {
  import opened Basics
  import opened Reply

  datatype Result = Complete | Incomplete | SoftError | HardError

  /** Windows in bounds, one behind the other. */
  ghost predicate InOrder(ms: seq<Msg>, k: nat, n: nat)
    decreases ms
  {
    ms != [] ==> k <= ms[0].start && ms[0].start + ms[0].len <= n && InOrder(ms[1..], ms[0].start + ms[0].len, n)
  }

  lemma {:induction false} LaidInOrder(ms: seq<Msg>, gen: nat, from: nat, used: nat)
    requires Laid(ms, gen, from, used)
    ensures InOrder(ms, from, used)
    decreases ms
  {
    if ms != [] {
      LaidInOrder(ms[1..], gen, from + ms[0].len, used);
      LaidBelow(ms[1..], gen, from + ms[0].len, used);
    }
  }

  lemma {:induction false} InOrderWider(ms: seq<Msg>, k: nat, n: nat, n': nat)
    requires InOrder(ms, k, n) && n <= n'
    ensures InOrder(ms, k, n')
    decreases ms
  {
    if ms != [] { InOrderWider(ms[1..], ms[0].start + ms[0].len, n, n'); }
  }

  lemma {:induction false} SaidAbove(iov: Iovs, iov': Iovs, ms: seq<Msg>, k: nat)
    requires |iov'| == |iov| && InOrder(ms, k, |iov|) && forall i | k <= i < |iov| :: iov'[i] == iov[i]
    ensures Said(iov', ms, 0) == Said(iov, ms, 0)
    decreases ms
  {
    if ms != [] {
      SaidAbove(iov, iov', ms[1..], ms[0].start + ms[0].len);
      SpanFrame(iov, iov', ms[0].start, ms[0].start + ms[0].len);
    }
  }

  /** Bytes offered to one sendmsg. */
  function Size(iov: Iovs, a: nat, b: nat): nat
    decreases b - a
  {
    if a < b <= |iov| then |iov[a]| + Size(iov, a + 1, b) else 0
  }

  lemma {:induction false} SizeOfSpan(iov: Iovs, a: nat, b: nat)
    ensures Size(iov, a, b) == |Span(iov, a, b)|
    decreases b - a
  {
    if a < b <= |iov| { SizeOfSpan(iov, a + 1, b); }
  }

  datatype Sending = Sending(iov: Iovs, ms: seq<Msg>, curr: nat)

  ghost predicate SendingOK(s: Sending) {
    s.curr <= |s.ms| && InOrder(s.ms[s.curr..], 0, |s.iov|)
  }

  /** What is still to be sent. */
  ghost function Left(s: Sending): seq<Byte>
    requires s.curr <= |s.ms|
  {
    Said(s.iov, s.ms[s.curr..], 0)
  }

  /** The message that the next sendmsg is given: a finished one is stepped over. */
  function Chosen(s: Sending): nat {
    if s.curr < |s.ms| && s.ms[s.curr].len == 0 then s.curr + 1 else s.curr
  }

  lemma StepOver(s: Sending)
    requires SendingOK(s)
    ensures var s' := s.(curr := Chosen(s)); SendingOK(s') && Left(s') == Left(s)
  {
    if s.curr < |s.ms| && s.ms[s.curr].len == 0 {
      assert s.ms[s.curr..][1..] == s.ms[s.curr + 1..];
      assert Left(s) == [] + Said(s.iov, s.ms[s.curr + 1..], 0);
      InOrderLower(s.ms[s.curr + 1..], s.ms[s.curr].start, 0, |s.iov|);
    }
  }

  lemma InOrderLower(ms: seq<Msg>, k: nat, k': nat, n: nat)
    requires InOrder(ms, k, n) && k' <= k
    ensures InOrder(ms, k', n)
  {
  }

  /** The window after n bytes of it went out: whole buffers are dropped and the next one is cut. */
  ghost predicate Eaten(iov: Iovs, m: Msg, n: nat, iov': Iovs, m': Msg) {
    && m.start + m.len <= |iov| == |iov'| && m.start <= m'.start && m'.start + m'.len == m.start + m.len
    && (forall i | 0 <= i < |iov| :: !(m.start <= i < m.start + m.len) ==> iov'[i] == iov[i])
    && n <= |Span(iov, m.start, m.start + m.len)|
    && Span(iov', m'.start, m'.start + m'.len) == Span(iov, m.start, m.start + m.len)[n..]
  }

  lemma EatenKeeps(s: Sending, n: nat, iov': Iovs, m': Msg)
    requires SendingOK(s) && s.curr < |s.ms| && Eaten(s.iov, s.ms[s.curr], n, iov', m')
    ensures var s' := Sending(iov', s.ms[s.curr := m'], s.curr);
            SendingOK(s') && n <= |Left(s)| && Left(s') == Left(s)[n..] &&
                Span(s.iov, s.ms[s.curr].start, s.ms[s.curr].start + s.ms[s.curr].len)[..n] == Left(s)[..n]
  {
    var m, ms', rest := s.ms[s.curr], s.ms[s.curr := m'], s.ms[s.curr + 1..];
    assert s.ms[s.curr..][1..] == rest && ms'[s.curr..][1..] == rest;
    SaidAbove(s.iov, iov', rest, m.start + m.len);
    var x, y := Span(s.iov, m.start, m.start + m.len), Said(s.iov, rest, 0);
    assert Left(s) == x + y;
    assert (x + y)[n..] == x[n..] + y && (x + y)[..n] == x[..n];
  }

  /** One buffer gone entirely. */
  lemma DropBuffer(iov: Iovs, a: nat, b: nat)
    requires a < b <= |iov|
    ensures Span(iov, a, b)[|iov[a]|..] == Span(iov, a + 1, b) && |Span(iov, a, b)| == |iov[a]| + |Span(iov, a + 1, b)|
  {
    assert Span(iov, a, b) == iov[a] + Span(iov, a + 1, b);
  }

  /** The first n bytes of a buffer gone. */
  lemma CutBuffer(iov: Iovs, a: nat, b: nat, n: nat)
    requires a < b <= |iov| && n <= |iov[a]|
    ensures Span(iov[a := iov[a][n..]], a, b) == Span(iov, a, b)[n..]
  {
    var iov' := iov[a := iov[a][n..]];
    SpanFrame(iov, iov', a + 1, b);
    assert Span(iov, a, b) == iov[a] + Span(iov, a + 1, b);
    assert (iov[a] + Span(iov, a + 1, b))[n..] == iov[a][n..] + Span(iov, a + 1, b);
  }

  /** The loop of transmit over a window, when sendmsg took n bytes of it. */
  function Eat(iov: Iovs, m: Msg, n: nat): (Iovs, Msg)
    decreases m.len
  {
    if m.len == 0 || m.start >= |iov| then (iov, m)
    else if n >= |iov[m.start]| then Eat(iov, m.(start := m.start + 1, len := m.len - 1), n - |iov[m.start]|)
    else (iov[m.start := iov[m.start][n..]], m)
  }

  lemma {:induction false} EatEats(iov: Iovs, m: Msg, n: nat)
    requires m.start + m.len <= |iov| && n <= |Span(iov, m.start, m.start + m.len)|
    ensures Eaten(iov, m, n, Eat(iov, m, n).0, Eat(iov, m, n).1)
    decreases m.len
  {
    var a, b := m.start, m.start + m.len;
    if m.len > 0 {
      DropBuffer(iov, a, b);
      if n >= |iov[a]| {
        EatEats(iov, m.(start := m.start + 1, len := m.len - 1), n - |iov[a]|);
        DropTwice(Span(iov, a, b), |iov[a]|, n - |iov[a]|);
      } else {
        CutBuffer(iov, a, b, n);
      }
    }
  }

  /** sent and the next n bytes to go. */
  ghost function SentSome(s: Sending, sent: seq<Byte>, n: nat): (r: seq<Byte>)
    requires SendingOK(s) && s.curr < |s.ms| &&
             n <= Size(s.iov, s.ms[s.curr].start, s.ms[s.curr].start + s.ms[s.curr].len)
    ensures |r| == |sent| + n && sent <= r
  {
    var m := s.ms[s.curr];
    SizeOfSpan(s.iov, m.start, m.start + m.len);
    sent + Span(s.iov, m.start, m.start + m.len)[..n]
  }

  lemma SentKeeps(s: Sending, sent: seq<Byte>, n: nat)
    requires SendingOK(s) && s.curr < |s.ms| &&
             n <= Size(s.iov, s.ms[s.curr].start, s.ms[s.curr].start + s.ms[s.curr].len)
    ensures var (iov', m') := Eat(s.iov, s.ms[s.curr], n);
            var s' := Sending(iov', s.ms[s.curr := m'], s.curr);
            SendingOK(s') && SentSome(s, sent, n) + Left(s') == sent + Left(s)
  {
    var m, b := s.ms[s.curr], Left(s);
    assert s.ms[s.curr..][0] == m;
    SizeOfSpan(s.iov, m.start, m.start + m.len);
    EatEats(s.iov, m, n);
    EatenKeeps(s, n, Eat(s.iov, m, n).0, Eat(s.iov, m, n).1);
    assert b == b[..n] + b[n..];
    Regroup(sent, b[..n], b[n..]);
  }

  /** The whole state after a sendmsg that took n bytes. */
  ghost function After(s: Sending, n: nat): Sending {
    var c := Chosen(s);
    if c < |s.ms| && s.ms[c].start + s.ms[c].len <= |s.iov| &&
       n <= Size(s.iov, s.ms[c].start, s.ms[c].start + s.ms[c].len)
    then var (iov', m') := Eat(s.iov, s.ms[c], n); Sending(iov', s.ms[c := m'], c)
    else s
  }

  /** What the next sendmsg is given. */
  ghost function Offered(s: Sending): seq<Byte> {
    var c := Chosen(s);
    if c < |s.ms| then Span(s.iov, s.ms[c].start, s.ms[c].start + s.ms[c].len) else []
  }

  /** The fields of conn that transmit uses; sent collects what sendmsg took. */
  class Sender {
    var iov: Iovs
    var ms: seq<Msg>
    var curr: nat
    ghost var sent: seq<Byte>

    ghost function Now(): Sending reads this { Sending(iov, ms, curr) }

    ghost predicate Valid() reads this { SendingOK(Now()) }

    ghost function Rest(): seq<Byte>
      reads this
      requires Valid()
    {
      Left(Now())
    }

    constructor (iov: Iovs, ms: seq<Msg>, ghost gen: nat, ghost used: nat)
      requires Laid(ms, gen, 0, used) && used <= |iov|
      ensures Valid() && sent == [] && Rest() == Said(iov, ms, 0) && Now() == Sending(iov, ms, 0)
    {
      this.iov, this.ms, curr, sent := iov, ms, 0, [];
      new;
      assert ms[0..] == ms;
      LaidInOrder(ms, gen, 0, used);
      InOrderWider(ms, 0, used, |iov|);
    }

    /** The bookkeeping after a sendmsg that took n bytes: completed buffers leave the window, the next one is cut. */
    method Consume(n: nat)
      requires curr < |ms| && ms[curr].start + ms[curr].len <= |iov| &&
               n <= Size(iov, ms[curr].start, ms[curr].start + ms[curr].len)
      modifies `iov, `ms
      ensures var (iov', m') := Eat(old(iov), old(ms[curr]), n); iov == iov' && ms == old(ms)[curr := m']
    {
      var res, m := n, ms[curr];
      while m.len > 0 && res >= |iov[m.start]|
        invariant iov == old(iov) && ms == old(ms) && m.start + m.len <= |iov|
        invariant 0 <= res <= Size(iov, m.start, m.start + m.len) && Eat(iov, m, res) == Eat(iov, ms[curr], n)
        decreases m.len
      {
        res := res - |iov[m.start]|;
        m := m.(len := m.len - 1, start := m.start + 1);
      }
      if res > 0 { iov := iov[m.start := iov[m.start][res..]]; }
      ms := ms[curr := m];
    }

    /** transmit. res is what sendmsg returns, at most what it was offered; blocked says that errno was EAGAIN and the
        event for writing could be set. */
    method Transmit(res: int, blocked: bool) returns (r: Result)
      requires Valid()
      requires Chosen(Now()) < |ms| ==> var m := ms[Chosen(Now())]; res <= Size(iov, m.start, m.start + m.len)
      modifies this
      ensures Valid() && sent + Rest() == old(sent) + old(Rest()) && (r == Complete <==> old(Chosen(Now())) == |ms|)
      ensures r == Incomplete ==>
                0 < res <= |old(Offered(Now()))| && sent == old(sent) + old(Offered(Now()))[..res]
      ensures r == Incomplete ==> Now() == After(old(Now()), res)
      ensures r != Incomplete ==> sent == old(sent) && Now() == old(Now()).(curr := old(Chosen(Now())))
      ensures r == Complete ==> Rest() == []
      ensures r != Complete ==> (r == Incomplete <==> res > 0) && (r == SoftError <==> res == -1 && blocked)
    {
      StepPast();
      if curr >= |ms| { return Complete; }
      if res > 0 {
        SendSome(res);
        return Incomplete;
      }
      return if res == -1 && blocked then SoftError else HardError;
    }

    /** A message that has been sent whole is passed. */
    method StepPast()
      requires Valid()
      modifies `curr
      ensures Valid() && Now() == old(Now()).(curr := old(Chosen(Now()))) && Rest() == old(Rest())
    {
      StepOver(Now());
      if curr < |ms| && ms[curr].len == 0 { curr := curr + 1; }
    }

    method SendSome(n: nat)
      requires Valid() && curr < |ms| && Chosen(Now()) == curr
      requires n <= Size(iov, ms[curr].start, ms[curr].start + ms[curr].len)
      modifies this
      ensures Valid() && sent + Rest() == old(sent) + old(Rest()) && Now() == old(After(Now(), n))
      ensures n <= |old(Offered(Now()))| && sent == old(sent) + old(Offered(Now()))[..n]
    {
      SizeOfSpan(iov, ms[curr].start, ms[curr].start + ms[curr].len);
      ghost var s := Now();
      ghost var more := SentSome(s, sent, n);
      SentKeeps(s, sent, n);
      assert ms[curr..][0] == ms[curr];
      Consume(n);
      sent := more;
    }

    /** Any schedule of writes: results[j] is what the j-th sendmsg returns, cut down to what it was offered; after a -1
        with EAGAIN the connection waits and comes back here. A send that blocks any number of times and goes on sends
        the same bytes as one that does not. */
    method SendAll(results: seq<int>) returns (r: Result)
      requires Valid() && sent == []
      modifies this
      ensures Valid() && sent + Rest() == old(Rest()) && sent <= old(Rest())
      ensures r == Complete ==> sent == old(Rest())
    {
      ghost var all := Rest();
      assert sent + Rest() == all;
      r := Incomplete;
      for j := 0 to |results|
        invariant Valid() && sent + Rest() == all && r != Complete && r != HardError
      {
        var c := Chosen(Sending(iov, ms, curr));
        var most := if c < |ms| then Size(iov, ms[c].start, ms[c].start + ms[c].len) else 0;
        r := Transmit(if results[j] <= most then results[j] else most, true);
        if r == Complete || r == HardError { break; }
      }
      assert r == Complete ==> sent + [] == sent;
    }
  }

  /** The buffers one after the other. */
  ghost function Concat(bs: seq<seq<Byte>>): seq<Byte> {
    if bs == [] then [] else Concat(bs[..|bs| - 1]) + bs[|bs| - 1]
  }

  /** A reply put together from any buffers. */
  method Compose(udp: bool, size: nat, bs: seq<seq<Byte>>) returns (b: Builder)
    requires size > 0
    ensures fresh(b) && b.udp == udp && b.Valid() && Text(b.Now()) == Concat(bs)
  {
    b := new Builder(udp, size);
    for k := 0 to |bs|
      invariant fresh(b) && b.udp == udp && b.Valid() && Text(b.Now()) == Concat(bs[..k])
    {
      b.AddIov(bs[k]);
      assert bs[..k + 1][..k] == bs[..k];
    }
    assert bs[..|bs|] == bs;
  }

  /** A reply over TCP, from the first buffer to the last write: whatever part each sendmsg takes and however often it
      blocks, the bytes on the wire are a prefix of the buffers given, and all of them on completion. */
  method SendReply(size: nat, bs: seq<seq<Byte>>, results: seq<int>) returns (s: Sender, r: Result)
    requires size > 0
    ensures s.sent <= Concat(bs) && (r == Complete ==> s.sent == Concat(bs))
  {
    var b := Compose(false, size, bs);
    s := new Sender(b.iov, b.ms, b.gen, b.used);
    r := s.SendAll(results);
  }

  /** For UDP every datagram is a header and a piece of the reply, no longer than the limit, and the pieces make up the
      reply: a datagram says its header followed by its piece. */
  lemma {:induction false} DatagramsSayText(iov: Iovs, ms: seq<Msg>, gen: nat, from: nat, used: nat, i: nat)
    requires Laid(ms, gen, from, used) && AllSized(iov, ms, true) && i < |ms|
    ensures var m := ms[i];
            && m.len >= 1 && m.start < |iov| && |iov[m.start]| == UDP_HEADER_SIZE
            && |Span(iov, m.start, m.start + m.len)| <= UDP_MAX_PAYLOAD_SIZE
                            && Span(iov, m.start, m.start + m.len) ==
                                iov[m.start] + Span(iov, m.start + 1, m.start + m.len)
    decreases ms
  {
    if i > 0 { DatagramsSayText(iov, ms[1..], gen, from + ms[0].len, used, i - 1); }
  }
}
