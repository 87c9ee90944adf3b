/** The segmented LRU queues of src/items.c and the crawler of src/crawler.c that walks through them:
    256 doubly linked queues over the same link fields, with a count and a byte total per queue. */
module LruQueues {
  import opened Addresses
  import opened LruLinks

  const LARGEST_ID: nat := 256

  /** What the queues need to know of an item: slabs_clsid, ITEM_ntotal, and whether it is a crawler
      (no key, no bytes, it_flags 1) rather than a real item. */
  datatype Info = Info(clsid: nat, ntotal: nat, crawler: bool)

  type Infos = map<Ptr, Info>

  /** The real items of a queue, in order. */
  ghost function Real(info: Infos, s: seq<Ptr>): seq<Ptr> {
    if s == [] then []
    else (if s[0] in info && !info[s[0]].crawler then [s[0]] else []) + Real(info, s[1..])
  }

  ghost function Total(info: Infos, s: seq<Ptr>): int {
    if s == [] then 0 else (if s[0] in info then info[s[0]].ntotal else 0) + Total(info, s[1..])
  }

  ghost predicate InClass(info: Infos, s: seq<Ptr>, id: nat) {
    s != [] ==> s[0] in info && info[s[0]].clsid == id && InClass(info, s[1..], id)
  }

  lemma {:induction false} InClassAll(info: Infos, s: seq<Ptr>, id: nat)
    ensures InClass(info, s, id) <==> forall q <- s :: q in info && info[q].clsid == id
    decreases s
  {
    if s != [] {
      InClassAll(info, s[1..], id);
      assert forall q :: q in s <==> q == s[0] || q in s[1..];
    }
  }

  lemma {:induction false} RealSplit(info: Infos, a: seq<Ptr>, b: seq<Ptr>)
    ensures Real(info, a + b) == Real(info, a) + Real(info, b)
    decreases a
  {
    if a == [] {
      assert a + b == b;
    } else {
      assert (a + b)[1..] == a[1..] + b;
      RealSplit(info, a[1..], b);
    }
  }

  lemma {:induction false} TotalSplit(info: Infos, a: seq<Ptr>, b: seq<Ptr>)
    ensures Total(info, a + b) == Total(info, a) + Total(info, b)
    decreases a
  {
    if a == [] {
      assert a + b == b;
    } else {
      assert (a + b)[1..] == a[1..] + b;
      TotalSplit(info, a[1..], b);
    }
  }

  lemma {:induction false} RealFrame(info: Infos, info': Infos, s: seq<Ptr>)
    requires forall q <- s :: (q in info <==> q in info') && (q in info ==> info'[q].crawler == info[q].crawler)
    ensures Real(info', s) == Real(info, s)
    decreases s
  {
    if s != [] { RealFrame(info, info', s[1..]); }
  }

  lemma RealOne(info: Infos, p: Ptr)
    requires p in info
    ensures Real(info, [p]) == (if info[p].crawler then [] else [p]) &&
            Total(info, Real(info, [p])) == if info[p].crawler then 0 else info[p].ntotal
  {
    assert [p][1..] == [];
  }

  /** Everything about one queue. */
  ghost predicate QueueOK(l: Links, info: Infos, head: Ptr, tail: Ptr, size: int, bytes: int, s: seq<Ptr>, id: nat) {
    && Holds(Queue(l, head, tail), s) && InClass(info, s, id)
    && size == |Real(info, s)| && bytes == Total(info, Real(info, s))
  }

  lemma QueueFrame(l: Links, l': Links, info: Infos, head: Ptr, tail: Ptr, size: int, bytes: int, s: seq<Ptr>, id: nat,
      other: seq<Ptr>, id': nat)
    requires QueueOK(l, info, head, tail, size, bytes, s, id) && Only(l, l', other) && InClass(info, other, id') &&
             id != id'
    ensures QueueOK(l', info, head, tail, size, bytes, s, id)
  {
    InClassAll(info, s, id);
    InClassAll(info, other, id');
    SegFrame(l, l', s, NULL, NULL);
  }

  datatype State = State(l: Links, info: Infos, heads: seq<Ptr>, tails: seq<Ptr>, sizes: seq<int>, bytes: seq<int>)

  ghost predicate Lengths(st: State, qs: seq<seq<Ptr>>) {
    |st.heads| == |st.tails| == |st.sizes| == |st.bytes| == |qs| == LARGEST_ID && st.l.Keys == st.info.Keys
  }

  ghost predicate QueueAt(st: State, qs: seq<seq<Ptr>>, id: nat)
    requires Lengths(st, qs) && id < LARGEST_ID
  {
    QueueOK(st.l, st.info, st.heads[id], st.tails[id], st.sizes[id], st.bytes[id], qs[id], id)
  }

  /** All queues together: each item of a queue is in the queue its slabs_clsid names, and in no other. */
  ghost predicate AllQueues(st: State, qs: seq<seq<Ptr>>) {
    Lengths(st, qs) && forall id {:trigger QueueAt(st, qs, id)} | 0 <= id < LARGEST_ID :: QueueAt(st, qs, id)
  }

  /** Replace one queue; the sizes move by the difference in real items. */
  lemma OneQueueChanged(st: State, qs: seq<seq<Ptr>>, id: nat, q: Queue, s: seq<Ptr>, size: int, bytes: int,
      touched: seq<Ptr>)
    requires AllQueues(st, qs) && id < LARGEST_ID
    requires Holds(q, s) && InClass(st.info, s, id) && Only(st.l, q.l, touched) && InClass(st.info, touched, id)
    requires size == |Real(st.info, s)| && bytes == Total(st.info, Real(st.info, s))
    ensures AllQueues(State(q.l, st.info, st.heads[id := q.head], st.tails[id := q.tail], st.sizes[id := size],
            st.bytes[id := bytes]), qs[id := s])
  {
    var st' := State(q.l, st.info, st.heads[id := q.head], st.tails[id := q.tail], st.sizes[id := size],
        st.bytes[id := bytes]);
    var qs' := qs[id := s];
    forall j | 0 <= j < LARGEST_ID ensures QueueAt(st', qs', j) {
      assert QueueAt(st, qs, j);
      if j != id {
        QueueFrame(st.l, q.l, st.info, st.heads[j], st.tails[j], st.sizes[j], st.bytes[j], qs[j], j, touched, id);
      }
    }
  }

  // ---------- one operation at a time ----------

  /** s without the first x. */
  function Without(s: seq<Ptr>, x: Ptr): seq<Ptr> {
    if s == [] then [] else if s[0] == x then s[1..] else [s[0]] + Without(s[1..], x)
  }

  lemma {:induction false} Locate(s: seq<Ptr>, x: Ptr) returns (a: seq<Ptr>, b: seq<Ptr>)
    requires x in s
    ensures s == a + [x] + b && Without(s, x) == a + b
    decreases s
  {
    if s[0] == x {
      a, b := [], s[1..];
    } else {
      a, b := Locate(s[1..], x);
      assert s == [s[0]] + (a + [x] + b);
      a := [s[0]] + a;
    }
  }

  /** The state with one queue and its counters replaced. */
  function With(st: State, id: nat, q: Queue, size: int, bytes: int): State
    requires |st.heads| == |st.tails| == |st.sizes| == |st.bytes| == LARGEST_ID && id < LARGEST_ID
  {
    State(q.l, st.info, st.heads[id := q.head], st.tails[id := q.tail], st.sizes[id := size], st.bytes[id := bytes])
  }

  function QueueOf(st: State, id: nat): Queue
    requires |st.heads| == |st.tails| == LARGEST_ID && id < LARGEST_ID
  {
    Queue(st.l, st.heads[id], st.tails[id])
  }

  lemma LinkKeeps(st: State, qs: seq<seq<Ptr>>, it: Ptr, id: nat)
    requires AllQueues(st, qs) && id < LARGEST_ID && it in st.info && st.info[it].clsid == id &&
             !st.info[it].crawler && it !in qs[id]
    ensures AllQueues(With(st, id, PushHead(QueueOf(st, id), it), st.sizes[id] + 1, st.bytes[id] + st.info[it].ntotal),
            qs[id := [it] + qs[id]])
  {
    var s := qs[id];
    assert QueueAt(st, qs, id);
    PushHeadHolds(QueueOf(st, id), s, it);
    assert ([it] + s)[1..] == s;
    assert Real(st.info, [it] + s) == [it] + Real(st.info, s);
    assert ([it] + Real(st.info, s))[1..] == Real(st.info, s);
    OneQueueChanged(st, qs, id, PushHead(QueueOf(st, id), it), [it] + s, st.sizes[id] + 1,
        st.bytes[id] + st.info[it].ntotal, [it] + s);
  }

  lemma LinkTailKeeps(st: State, qs: seq<seq<Ptr>>, it: Ptr, id: nat)
    requires AllQueues(st, qs) && id < LARGEST_ID && it in st.info && st.info[it].clsid == id && st.info[it].crawler &&
             it !in qs[id]
    ensures AllQueues(With(st, id, PushTail(QueueOf(st, id), it), st.sizes[id], st.bytes[id]), qs[id := qs[id] + [it]])
    ensures Real(st.info, qs[id] + [it]) == Real(st.info, qs[id])
  {
    var s := qs[id];
    assert QueueAt(st, qs, id);
    PushTailHolds(QueueOf(st, id), s, it);
    RealSplit(st.info, s, [it]);
    RealOne(st.info, it);
    assert Real(st.info, s + [it]) == Real(st.info, s) + [] == Real(st.info, s);
    InClassAll(st.info, s, id);
    InClassAll(st.info, s + [it], id);
    OneQueueChanged(st, qs, id, PushTail(QueueOf(st, id), it), s + [it], st.sizes[id], st.bytes[id], s + [it]);
  }

  lemma UnlinkKeeps(st: State, qs: seq<seq<Ptr>>, it: Ptr, id: nat)
    requires AllQueues(st, qs) && id < LARGEST_ID && it in qs[id]
    ensures it in st.info && st.info[it].clsid == id && it in st.l
    ensures var d, n := if st.info[it].crawler then 0 else 1, if st.info[it].crawler then 0 else st.info[it].ntotal;
            AllQueues(With(st, id, Unlink(QueueOf(st, id), it), st.sizes[id] - d, st.bytes[id] - n),
                qs[id := Without(qs[id], it)])
    ensures st.info[it].crawler ==> Real(st.info, Without(qs[id], it)) == Real(st.info, qs[id])
    ensures it !in Without(qs[id], it)
  {
    assert QueueAt(st, qs, id);
    InClassAll(st.info, qs[id], id);
    var a, b := Locate(qs[id], it);
    var q := QueueOf(st, id);
    UnlinkHolds(q, a, it, b);
    Around(q, a, it, b);
    RealCut(st.info, a, it, b);
    InClassAll(st.info, a + b, id);
    var d, n := if st.info[it].crawler then 0 else 1, if st.info[it].crawler then 0 else st.info[it].ntotal;
    OneQueueChanged(st, qs, id, Unlink(q, it), a + b, st.sizes[id] - d, st.bytes[id] - n, a + b);
  }

  lemma RealCut(info: Infos, a: seq<Ptr>, x: Ptr, b: seq<Ptr>)
    requires x in info
    ensures |Real(info, a + b)| == |Real(info, a + [x] + b)| - if info[x].crawler then 0 else 1
    ensures Total(info, Real(info, a + b)) == Total(info, Real(info, a + [x] + b)) - if info[x].crawler then 0
            else info[x].ntotal
    ensures info[x].crawler ==> Real(info, a + b) == Real(info, a + [x] + b)
  {
    RealSplit(info, a, b);
    RealSplit(info, a + [x], b);
    RealSplit(info, a, [x]);
    RealOne(info, x);
    TotalCut(info, Real(info, a), Real(info, [x]), Real(info, b));
  }

  lemma TotalCut(info: Infos, a: seq<Ptr>, m: seq<Ptr>, b: seq<Ptr>)
    ensures Total(info, a + m + b) == Total(info, a + b) + Total(info, m) && (m == [] ==> a + m + b == a + b)
  {
    TotalSplit(info, a, b);
    TotalSplit(info, a + m, b);
    TotalSplit(info, a, m);
  }

  /** One step of the crawler towards the head past the item y. */
  lemma CrawlKeeps(st: State, qs: seq<seq<Ptr>>, it: Ptr, id: nat, a: seq<Ptr>, y: Ptr, b: seq<Ptr>)
    requires AllQueues(st, qs) && id < LARGEST_ID && it in st.info && st.info[it].crawler &&
             qs[id] == a + [y] + [it] + b
    ensures it in st.l && st.l[it].prev == y && y in st.l && y != NULL
    ensures AllQueues(With(st, id, CrawlUp(QueueOf(st, id), it), st.sizes[id], st.bytes[id]),
            qs[id := a + [it] + [y] + b])
    ensures Real(st.info, a + [it] + [y] + b) == Real(st.info, qs[id])
  {
    assert QueueAt(st, qs, id);
    var q, s' := QueueOf(st, id), a + [it] + [y] + b;
    CrawlUpHolds(q, a, y, it, b);
    InClassAll(st.info, qs[id], id);
    InClassAll(st.info, s', id);
    CrawlReal(st.info, a, y, it, b);
    OneQueueChanged(st, qs, id, CrawlUp(q, it), s', st.sizes[id], st.bytes[id], qs[id]);
    SegIn(st.l, qs[id], NULL, NULL);
    assert y in qs[id];
  }

  lemma CrawlReal(info: Infos, a: seq<Ptr>, y: Ptr, x: Ptr, b: seq<Ptr>)
    requires x in info && info[x].crawler
    ensures Real(info, a + [x] + [y] + b) == Real(info, a + [y] + [x] + b)
  {
    RealCut(info, a + [y], x, b);
    RealCut(info, a, x, [y] + b);
    Regrouped(a, x, y, b);
  }

  lemma Regrouped(a: seq<Ptr>, x: Ptr, y: Ptr, b: seq<Ptr>)
    ensures a + [x] + [y] + b == a + [x] + ([y] + b) && a + ([y] + b) == a + [y] + b
  {}

  /** The crawler at the head is popped and unlinked in one critical section. */
  lemma PopKeeps(st: State, qs: seq<seq<Ptr>>, it: Ptr, id: nat)
    requires AllQueues(st, qs) && id < LARGEST_ID && it in st.info && st.info[it].crawler && it in qs[id] &&
             st.l[it].prev == NULL
    ensures qs[id] == [it] + qs[id][1..] && CrawlPop(QueueOf(st, id), it).l.Keys == st.l.Keys
    ensures AllQueues(With(st, id, Unlink(CrawlPop(QueueOf(st, id), it), it), st.sizes[id], st.bytes[id]),
            qs[id := Without(qs[id], it)])
  {
    assert QueueAt(st, qs, id);
    var a, b := Locate(qs[id], it);
    var q := QueueOf(st, id);
    Around(q, a, it, b);
    assert a == [];
    assert [] + [it] + b == [it] + b && [] + b == b;
    UnlinkKeeps(st, qs, it, id);
    PopThenUnlink(q, it, b);
  }

  lemma PopThenUnlink(q: Queue, x: Ptr, b: seq<Ptr>)
    requires Holds(q, [x] + b)
    ensures x in q.l && CrawlPop(q, x).l.Keys == q.l.Keys && Unlink(CrawlPop(q, x), x) == Unlink(q, x)
  {
    assert [x] + b == [] + [x] + b;
    Around(q, [], x, b);
    assert b != [] ==> b[0] in b;
  }

  /** Heads, tails and neighbours are NULL or items. */
  lemma Inside(st: State, qs: seq<seq<Ptr>>, id: nat)
    requires AllQueues(st, qs) && id < LARGEST_ID
    ensures NULL !in st.l && (st.heads[id] != NULL ==> st.heads[id] in st.l) &&
            (st.tails[id] != NULL ==> st.tails[id] in st.l)
    ensures forall p <- qs[id] :: p in st.l && p in st.info && st.info[p].clsid == id && Bordered(st.l, p)
  {
    assert QueueAt(st, qs, id);
    SegIn(st.l, qs[id], NULL, NULL);
    InClassAll(st.info, qs[id], id);
    assert qs[id] != [] ==> qs[id][0] in qs[id] && qs[id][|qs[id]| - 1] in qs[id];
    forall p <- qs[id] ensures Bordered(st.l, p) {
      var a, b := Locate(qs[id], p);
      Around(QueueOf(st, id), a, p, b);
      assert a != [] ==> Last(a, NULL) in a;
      assert b != [] ==> b[0] in b;
    }
  }

  ghost predicate Bordered(l: Links, p: Ptr) {
    p in l && l[p].prev != p && l[p].next != p && (l[p].prev != NULL ==> l[p].prev in l) &&
        (l[p].next != NULL ==> l[p].next in l)
  }

  /** An item is in no queue but the one its class names. */
  lemma NowhereElse(st: State, qs: seq<seq<Ptr>>, it: Ptr, id: nat)
    requires AllQueues(st, qs) && id < LARGEST_ID && it in st.info && st.info[it].clsid != id
    ensures it !in qs[id]
  {
    Inside(st, qs, id);
  }

  lemma NoRepeats(st: State, qs: seq<seq<Ptr>>, id: nat)
    requires AllQueues(st, qs) && id < LARGEST_ID
    ensures Distinct(qs[id])
  {
    assert QueueAt(st, qs, id);
  }

  /** An item that is not in the queue of its class is in none. */
  lemma FreeOfQueues(st: State, qs: seq<seq<Ptr>>, it: Ptr)
    requires AllQueues(st, qs) && it in st.info && st.info[it].clsid < LARGEST_ID && it !in qs[st.info[it].clsid]
    ensures forall id | 0 <= id < LARGEST_ID :: it !in qs[id]
  {
    forall id | 0 <= id < LARGEST_ID ensures it !in qs[id] {
      if id != st.info[it].clsid { NowhereElse(st, qs, it, id); }
    }
  }

  /** An item that is in no queue may get another class. */
  lemma ReclassKeeps(st: State, qs: seq<seq<Ptr>>, it: Ptr, cls: nat)
    requires AllQueues(st, qs) && it in st.info && (forall id | 0 <= id < LARGEST_ID :: it !in qs[id])
    ensures AllQueues(st.(info := st.info[it := st.info[it].(clsid := cls)]), qs)
  {
    var info' := st.info[it := st.info[it].(clsid := cls)];
    var st' := st.(info := info');
    forall id | 0 <= id < LARGEST_ID ensures QueueAt(st', qs, id) {
      assert QueueAt(st, qs, id);
      InClassAll(st.info, qs[id], id);
      InClassAll(info', qs[id], id);
      RealFrame(st.info, info', qs[id]);
      RealMembers(st.info, qs[id]);
      TotalFrame(st.info, info', Real(st.info, qs[id]));
    }
  }

  /** Nothing in a queue notices a new item. */
  lemma ProvideKeeps(st: State, qs: seq<seq<Ptr>>, it: Ptr, i: Info)
    requires AllQueues(st, qs) && it != NULL && (forall id | 0 <= id < LARGEST_ID :: it !in qs[id])
    ensures AllQueues(st.(l := st.l[it := Link(NULL, NULL)], info := st.info[it := i]), qs)
  {
    var st' := st.(l := st.l[it := Link(NULL, NULL)], info := st.info[it := i]);
    forall id | 0 <= id < LARGEST_ID ensures QueueAt(st', qs, id) {
      assert QueueAt(st, qs, id);
      SegFrame(st.l, st'.l, qs[id], NULL, NULL);
      InClassAll(st.info, qs[id], id);
      InClassAll(st'.info, qs[id], id);
      RealFrame(st.info, st'.info, qs[id]);
      RealMembers(st.info, qs[id]);
      TotalFrame(st.info, st'.info, Real(st.info, qs[id]));
    }
  }

  lemma {:induction false} RealMembers(info: Infos, s: seq<Ptr>)
    ensures forall p <- Real(info, s) :: p in s && p in info && !info[p].crawler
    ensures forall p <- s :: p in info && !info[p].crawler ==> p in Real(info, s)
    decreases s
  {
    if s != [] {
      RealMembers(info, s[1..]);
      assert forall p :: p in s <==> p == s[0] || p in s[1..];
    }
  }

  lemma {:induction false} TotalFrame(info: Infos, info': Infos, s: seq<Ptr>)
    requires forall q <- s :: (q in info <==> q in info') && (q in info ==> info'[q].ntotal == info[q].ntotal)
    ensures Total(info', s) == Total(info, s)
    decreases s
  {
    if s != [] { TotalFrame(info, info', s[1..]); }
  }

  ghost function Rev(s: seq<Ptr>): seq<Ptr> { if s == [] then [] else Rev(s[1..]) + [s[0]] }

  lemma {:induction false} RevSplit(a: seq<Ptr>, b: seq<Ptr>)
    ensures Rev(a + b) == Rev(b) + Rev(a) && |Rev(a)| == |a|
    decreases a
  {
    if a == [] {
      assert a + b == b;
    } else {
      assert (a + b)[1..] == a[1..] + b;
      RevSplit(a[1..], b);
    }
  }

  lemma CrawlShift(a: seq<Ptr>, x: Ptr, b: seq<Ptr>)
    requires a != []
    ensures var a', y := a[..|a| - 1], a[|a| - 1];
            a' + [x] + [y] + b == a' + [x] + ([y] + b) && a' + ([y] + b) == a + b && Rev([y] + b) == Rev(b) + [y]
  {
    var a', y := a[..|a| - 1], a[|a| - 1];
    assert a == a' + [y];
    assert ([y] + b)[1..] == b;
  }

  lemma CrawlTally(a: seq<Ptr>, b: seq<Ptr>, remaining: nat)
    requires remaining == 0 || |b| < remaining
    requires a == [] || remaining == |b| + 1
    ensures Rev(b) <= Rev(a + b) && |Rev(b)| == if remaining == 0 || |a + b| < remaining then |a + b| else remaining - 1
  {
    RevSplit(a, b);
    RevSplit(b, []);
  }

  class Queues {
    var l: Links
    var info: Infos
    var heads: seq<Ptr>
    var tails: seq<Ptr>
    var sizes: seq<int>
    var bytes: seq<int>
    ghost var qs: seq<seq<Ptr>>

    ghost function Now(): State
      reads this
    {
      State(l, info, heads, tails, sizes, bytes)
    }

    ghost predicate Valid()
      reads this
    {
      AllQueues(Now(), qs)
    }

    /** No queue holds anything yet. */
    constructor (info: Infos)
      requires NULL !in info
      ensures Valid() && this.info == info && qs == seq(LARGEST_ID, _ => [])
    {
      l := map p | p in info :: Link(NULL, NULL);
      this.info := info;
      heads, tails := seq(LARGEST_ID, _ => NULL), seq(LARGEST_ID, _ => NULL);
      sizes, bytes := seq(LARGEST_ID, _ => 0), seq(LARGEST_ID, _ => 0);
      qs := seq(LARGEST_ID, _ => []);
    }

    /** A new item, which is in no queue. */
    method Provide(it: Ptr, i: Info)
      requires Valid() && it != NULL && forall id | 0 <= id < LARGEST_ID :: it !in qs[id]
      modifies `l, `info
      ensures Valid() && info == old(info)[it := i]
    {
      ProvideKeeps(Now(), qs, it, i);
      l, info := l[it := Link(NULL, NULL)], info[it := i];
    }

    /** do_item_link_q. */
    method LinkQ(it: Ptr)
      requires Valid() && it in info && info[it].clsid < LARGEST_ID && !info[it].crawler && it !in qs[info[it].clsid]
      modifies this
      ensures Valid() && info == old(info) && qs == old(qs)[info[it].clsid := [it] + old(qs)[info[it].clsid]]
    {
      var id := info[it].clsid;
      LinkKeeps(Now(), qs, it, id);
      Inside(Now(), qs, id);
      LinkWrites(it);
      qs := qs[id := [it] + qs[id]];
    }

    method LinkWrites(it: Ptr)
      requires Lengths(Now(), qs) && NULL !in l && it in info && info[it].clsid < LARGEST_ID &&
               (heads[info[it].clsid] != NULL ==> heads[info[it].clsid] in l)
      modifies this
      ensures qs == old(qs)
      ensures var id := old(info)[it].clsid; var st := old(Now());
              Now() == With(st, id, PushHead(QueueOf(st, id), it), st.sizes[id] + 1, st.bytes[id] + st.info[it].ntotal)
    {
      var id := info[it].clsid;
      l := l[it := Link(NULL, heads[id])];
      if l[it].next != NULL {
        l := l[l[it].next := l[l[it].next].(prev := it)];
      }
      heads := heads[id := it];
      if tails[id] == NULL {
        tails := tails[id := it];
      }
      sizes := sizes[id := sizes[id] + 1];
      bytes := bytes[id := bytes[id] + info[it].ntotal];
    }

    /** do_item_unlink_q. */
    method UnlinkQ(it: Ptr)
      requires Valid() && it in info && info[it].clsid < LARGEST_ID && !info[it].crawler && it in qs[info[it].clsid]
      modifies this
      ensures Valid() && info == old(info) && qs == old(qs)[info[it].clsid := Without(old(qs)[info[it].clsid], it)]
      ensures it !in qs[info[it].clsid]
    {
      var id := info[it].clsid;
      UnlinkKeeps(Now(), qs, it, id);
      Inside(Now(), qs, id);
      UnlinkWrites(it, id);
      sizes := sizes[id := sizes[id] - 1];
      bytes := bytes[id := bytes[id] - info[it].ntotal];
      qs := qs[id := Without(qs[id], it)];
      assert Now() == With(old(Now()), id, Unlink(QueueOf(old(Now()), id), it), old(sizes)[id] - 1,
             old(bytes)[id] - info[it].ntotal);
    }

    /** The writes shared by do_item_unlink_q and do_item_unlinktail_q. */
    method UnlinkWrites(it: Ptr, id: nat)
      requires Lengths(Now(), qs) && NULL !in l && id < LARGEST_ID && Bordered(l, it)
      modifies this
      ensures qs == old(qs)
      ensures var st := old(Now()); Now() == With(st, id, Unlink(QueueOf(st, id), it), st.sizes[id], st.bytes[id])
    {
      if heads[id] == it {
        heads := heads[id := l[it].next];
      }
      if tails[id] == it {
        tails := tails[id := l[it].prev];
      }
      if l[it].next != NULL {
        l := l[l[it].next := l[l[it].next].(prev := l[it].prev)];
      }
      if l[it].prev != NULL {
        l := l[l[it].prev := l[l[it].prev].(next := l[it].next)];
      }
    }

    /** do_item_update for a hit on a COLD item, and the moves of lru_pull_tail: out of one queue, into the head of
        another. */
    method MoveTo(it: Ptr, cls: nat)
      requires Valid() && it in info && info[it].clsid < LARGEST_ID && cls < LARGEST_ID && !info[it].crawler &&
               it in qs[info[it].clsid]
      modifies this
      ensures Valid() && info == old(info)[it := old(info)[it].(clsid := cls)]
      ensures var s := Without(old(qs)[old(info)[it].clsid], it);
              var mid := old(qs)[old(info)[it].clsid := s];
              qs == mid[cls := [it] + mid[cls]]
    {
      UnlinkQ(it);
      FreeOfQueues(Now(), qs, it);
      ReclassKeeps(Now(), qs, it, cls);
      info := info[it := info[it].(clsid := cls)];
      LinkQ(it);
    }

    /** do_item_linktail_q. */
    method LinkTailQ(it: Ptr)
      requires Valid() && it in info && info[it].clsid < LARGEST_ID && info[it].crawler && it !in qs[info[it].clsid]
      modifies this
      ensures Valid() && info == old(info) && qs == old(qs)[info[it].clsid := old(qs)[info[it].clsid] + [it]]
    {
      var id := info[it].clsid;
      LinkTailKeeps(Now(), qs, it, id);
      Inside(Now(), qs, id);
      l := l[it := Link(tails[id], NULL)];
      if l[it].prev != NULL {
        l := l[l[it].prev := l[l[it].prev].(next := it)];
      }
      tails := tails[id := it];
      if heads[id] == NULL {
        heads := heads[id := it];
      }
      qs := qs[id := qs[id] + [it]];
      assert Now() == With(old(Now()), id, PushTail(QueueOf(old(Now()), id), it), old(sizes)[id], old(bytes)[id]);
    }

    /** The writes of do_item_crawl_q at the head. */
    method CrawlPopWrites(it: Ptr, id: nat)
      requires Lengths(Now(), qs) && NULL !in l && id < LARGEST_ID && Bordered(l, it)
      modifies this
      ensures qs == old(qs)
      ensures var st := old(Now()); Now() == With(st, id, CrawlPop(QueueOf(st, id), it), st.sizes[id], st.bytes[id])
    {
      if l[it].next != NULL {
        heads := heads[id := l[it].next];
        l := l[l[it].next := l[l[it].next].(prev := NULL)];
      }
    }

    /** The writes of do_item_crawl_q anywhere else. */
    method CrawlUpWrites(it: Ptr, id: nat)
      requires Lengths(Now(), qs) && NULL !in l && id < LARGEST_ID && Bordered(l, it)
      requires l[it].prev != NULL && Bordered(l, l[it].prev)
      modifies this
      ensures qs == old(qs)
      ensures var st := old(Now()); Now() == With(st, id, CrawlUp(QueueOf(st, id), it), st.sizes[id], st.bytes[id])
    {
      var links, p := l, l[it].prev;
      if heads[id] == p {
        heads := heads[id := it];
      }
      if tails[id] == it {
        tails := tails[id := p];
      }
      if links[it].next != NULL {
        links := links[p := links[p].(next := links[it].next)];
        links := links[links[it].next := links[links[it].next].(prev := p)];
      } else {
        links := links[p := links[p].(next := NULL)];
      }
      links := links[it := links[it].(next := p)];
      links := links[it := links[it].(prev := links[p].prev)];
      links := links[p := links[p].(prev := it)];
      if links[it].prev != NULL {
        links := links[links[it].prev := links[links[it].prev].(next := it)];
      }
      l := links;
    }

    /** One turn of the crawler thread on one queue, under the queue's lock: do_item_crawl_q and, when there is
        nothing left or `remaining` runs out, lru_crawler_class_done.  a and b are what is before and behind it. */
    method CrawlStep(it: Ptr, remaining: nat, ghost a: seq<Ptr>, ghost b: seq<Ptr>)
        returns (search: Ptr, done: bool, left: nat)
      requires Valid() && it in info && info[it].crawler && info[it].clsid < LARGEST_ID &&
               qs[info[it].clsid] == a + [it] + b
      modifies this
      ensures Valid() && info == old(info)
      ensures search == Last(a, NULL) && done == (a == [] || remaining == 1) &&
              left == (if a == [] || remaining == 0 then remaining else remaining - 1)
      ensures var id := info[it].clsid;
              qs == old(qs)[id := if done then Without(old(qs)[id], it) else a[..|a| - 1] + [it] + [search] + b]
      ensures var id := info[it].clsid; Real(info, qs[id]) == Real(info, old(qs)[id])
    {
      var id := info[it].clsid;
      left := remaining;
      assert it in qs[id];
      Inside(Now(), qs, id);
      CrawlerAt(Now(), qs, it, id, a, b);
      search := l[it].prev;
      if l[it].prev == NULL {
        PopAtHead(it, id);
        done := true;
      } else {
        StepUp(it, id, a[..|a| - 1], search, b);
        if left > 0 {
          left := left - 1;
          done := left < 1;
        } else {
          done := false;
        }
        if done {
          FinishClass(it, id, a[..|a| - 1], search, b);
        }
      }
    }

    /** A whole crawl of a queue that nobody else changes: the items are visited once each from tail to head, and
        afterwards the queue is what it was.  `remaining` = n visits n - 1 items, for the n-th one found is dropped
        with the crawler; 0 means no limit. */
    method CrawlAll(it: Ptr, remaining: nat) returns (visited: seq<Ptr>)
      requires Valid() && it in info && info[it].crawler && info[it].clsid < LARGEST_ID && it !in qs[info[it].clsid]
      modifies this
      ensures Valid() && info == old(info) && qs == old(qs)
      ensures var q := qs[info[it].clsid];
              |visited| == (if remaining == 0 || |q| < remaining then |q| else remaining - 1) && visited <= Rev(q)
    {
      var id := info[it].clsid;
      ghost var q, a, b := qs[id], qs[id], [];
      LinkTailQ(it);
      visited := [];
      var left, done := remaining, false;
      assert q + [it] == q + [it] + [];
      while !done
        invariant Valid() && info == old(info)
        invariant !done ==> q == a + b && qs == old(qs)[id := a + [it] + b] && visited == Rev(b)
        invariant !done ==>
                  left == (if remaining == 0 then 0 else remaining - |b|) && (remaining == 0 || |b| < remaining)
        invariant done ==> qs == old(qs) && visited <= Rev(q)
        invariant done ==> |visited| == if remaining == 0 || |q| < remaining then |q| else remaining - 1
        decreases !done, |a|
      {
        var search;
        CrawlEnd(Now(), qs, it, id, a, b);
        search, done, left := CrawlStep(it, left, a, b);
        if !done {
          visited := visited + [search];
          CrawlShift(a, it, b);
          a, b := a[..|a| - 1], [search] + b;
        } else {
          CrawlTally(a, b, remaining);
        }
      }
    }

    /** The crawler at the head: popped, then lru_crawler_class_done. */
    method PopAtHead(it: Ptr, id: nat)
      requires Valid() && id < LARGEST_ID && it in info && info[it].crawler && it in qs[id] && it in l &&
               l[it].prev == NULL
      modifies this
      ensures Valid() && info == old(info) && qs == old(qs)[id := Without(old(qs)[id], it)] &&
              Real(info, qs[id]) == Real(info, old(qs)[id])
    {
      ghost var st := Now();
      Inside(st, qs, id);
      UnlinkKeeps(st, qs, it, id);
      PopKeeps(st, qs, it, id);
      CrawlPopWrites(it, id);
      UnlinkWrites(it, id);
      qs := qs[id := Without(qs[id], it)];
      assert Now() == With(st, id, Unlink(CrawlPop(QueueOf(st, id), it), it), st.sizes[id], st.bytes[id]);
    }

    /** The crawler anywhere else: past the item y before it. */
    method StepUp(it: Ptr, id: nat, ghost a: seq<Ptr>, ghost y: Ptr, ghost b: seq<Ptr>)
      requires Valid() && id < LARGEST_ID && it in info && info[it].crawler && qs[id] == a + [y] + [it] + b
      modifies this
      ensures Valid() && info == old(info) && qs == old(qs)[id := a + [it] + [y] + b] &&
              Real(info, qs[id]) == Real(info, old(qs)[id])
    {
      assert it in qs[id] && y in qs[id];
      Inside(Now(), qs, id);
      CrawlKeeps(Now(), qs, it, id, a, y, b);
      CrawlUpWrites(it, id);
      qs := qs[id := a + [it] + [y] + b];
    }

    /** lru_crawler_class_done part way through the queue. */
    method FinishClass(it: Ptr, id: nat, ghost a: seq<Ptr>, ghost y: Ptr, ghost b: seq<Ptr>)
      requires Valid() && id < LARGEST_ID && it in info && info[it].crawler && qs[id] == a + [it] + [y] + b && y != it
      modifies this
      ensures Valid() && info == old(info) && qs == old(qs)[id := a + [y] + b] &&
              Real(info, qs[id]) == Real(info, old(qs)[id])
      ensures a + [y] + b == Without(a + [y] + [it] + b, it)
    {
      assert it in qs[id];
      UnlinkKeeps(Now(), qs, it, id);
      Inside(Now(), qs, id);
      WithoutMiddle(Now(), qs, id, a, it, y, b);
      UnlinkWrites(it, id);
      qs := qs[id := Without(qs[id], it)];
    }
  }

  lemma CrawlerAt(st: State, qs: seq<seq<Ptr>>, it: Ptr, id: nat, a: seq<Ptr>, b: seq<Ptr>)
    requires AllQueues(st, qs) && id < LARGEST_ID && qs[id] == a + [it] + b
    ensures it in st.l && st.l[it].prev == Last(a, NULL) &&
            (a != [] ==> Last(a, NULL) != NULL && Last(a, NULL) in qs[id] && Last(a, NULL) != it)
    ensures a != [] ==> qs[id] == a[..|a| - 1] + [Last(a, NULL)] + [it] + b
    ensures Without(qs[id], it) == a + b
  {
    assert QueueAt(st, qs, id);
    Around(QueueOf(st, id), a, it, b);
    if a != [] {
      assert Last(a, NULL) in a;
      assert a == a[..|a| - 1] + [Last(a, NULL)];
    }
    WithoutPrefix(a, it, b);
  }

  lemma CrawlEnd(st: State, qs: seq<seq<Ptr>>, it: Ptr, id: nat, a: seq<Ptr>, b: seq<Ptr>)
    requires AllQueues(st, qs) && id < LARGEST_ID && qs[id] == a + [it] + b
    ensures Without(qs[id], it) == a + b && (a != [] ==> Last(a, NULL) == a[|a| - 1])
  {
    CrawlerAt(st, qs, it, id, a, b);
  }

  lemma {:induction false} WithoutPrefix(a: seq<Ptr>, x: Ptr, b: seq<Ptr>)
    requires x !in a
    ensures Without(a + [x] + b, x) == a + b
    decreases a
  {
    if a == [] {
      assert a + [x] + b == [x] + b && ([x] + b)[1..] == b;
    } else {
      assert (a + [x] + b)[1..] == a[1..] + [x] + b;
      WithoutPrefix(a[1..], x, b);
    }
  }

  lemma WithoutMiddle(st: State, qs: seq<seq<Ptr>>, id: nat, a: seq<Ptr>, it: Ptr, y: Ptr, b: seq<Ptr>)
    requires AllQueues(st, qs) && id < LARGEST_ID && qs[id] == a + [it] + [y] + b && it != y
    ensures Without(qs[id], it) == a + [y] + b && Without(a + [y] + [it] + b, it) == a + [y] + b
  {
    assert QueueAt(st, qs, id);
    assert qs[id] == a + [it] + ([y] + b);
    assert it !in a by { Around(QueueOf(st, id), a, it, [y] + b); }
    WithoutPrefix(a, it, [y] + b);
    WithoutPrefix(a + [y], it, b);
    assert a + ([y] + b) == a + [y] + b;
  }
}
