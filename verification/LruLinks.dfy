/** Doubly linked lists through the prev/next fields of items (src/items.c). */
module LruLinks {
  import opened Basics
  import opened Addresses

  datatype Link = Link(prev: Ptr, next: Ptr)

  type Links = map<Ptr, Link>

  function First(s: seq<Ptr>, n: Ptr): Ptr { if s == [] then n else s[0] }

  function Last(s: seq<Ptr>, p: Ptr): Ptr { if s == [] then p else s[|s| - 1] }

  /** The items of s are linked both ways in this order; p comes before them and n after them. */
  ghost predicate Seg(l: Links, s: seq<Ptr>, p: Ptr, n: Ptr)
    decreases s
  {
    s != [] ==>
      && s[0] != NULL && s[0] in l && l[s[0]].prev == p && l[s[0]].next == First(s[1..], n)
      && Seg(l, s[1..], s[0], n)
  }

  lemma {:induction false} SegFrame(l: Links, l': Links, s: seq<Ptr>, p: Ptr, n: Ptr)
    requires Seg(l, s, p, n) && forall q <- s :: q in l ==> q in l' && l'[q] == l[q]
    ensures Seg(l', s, p, n)
    decreases s
  {
    if s != [] { SegFrame(l, l', s[1..], s[0], n); }
  }

  lemma {:induction false} SegSplit(l: Links, a: seq<Ptr>, b: seq<Ptr>, p: Ptr, n: Ptr)
    ensures Seg(l, a + b, p, n) <==> Seg(l, a, p, First(b, n)) && Seg(l, b, Last(a, p), n)
    decreases a
  {
    if a == [] {
      assert a + b == b;
    } else {
      assert (a + b)[1..] == a[1..] + b;
      SegSplit(l, a[1..], b, a[0], n);
    }
  }

  lemma {:induction false} SegIn(l: Links, s: seq<Ptr>, p: Ptr, n: Ptr)
    requires Seg(l, s, p, n)
    ensures forall q <- s :: q in l && q != NULL
    decreases s
  {
    if s != [] {
      SegIn(l, s[1..], s[0], n);
      assert forall q <- s :: q == s[0] || q in s[1..];
    }
  }

  /** Redirecting what follows a segment. */
  lemma {:induction false} SegNext(l: Links, l': Links, s: seq<Ptr>, p: Ptr, n: Ptr, n': Ptr)
    requires Seg(l, s, p, n) && Distinct(s)
    requires forall q <- s :: q in l ==> q in l' && (q != Last(s, p) ==> l'[q] == l[q])
    requires s != [] ==> Last(s, p) in l && Last(s, p) in l' && l'[Last(s, p)] == l[Last(s, p)].(next := n')
    ensures Seg(l', s, p, n')
    decreases s
  {
    if s != [] {
      if |s| > 1 {
        assert Last(s[1..], s[0]) == Last(s, p);
        assert Last(s, p) in s[1..];
        assert s[0] in l;
      }
      SegNext(l, l', s[1..], s[0], n, n');
    }
  }

  /** Redirecting what precedes a segment. */
  lemma SegPrev(l: Links, l': Links, s: seq<Ptr>, p: Ptr, n: Ptr, p': Ptr)
    requires Seg(l, s, p, n) && Distinct(s)
    requires forall q <- s :: q in l ==> q in l' && (q != s[0] ==> l'[q] == l[q])
    requires s != [] ==> s[0] in l && s[0] in l' && l'[s[0]] == l[s[0]].(prev := p')
    ensures Seg(l', s, p', n)
  {
    if s != [] { SegFrame(l, l', s[1..], s[0], n); }
  }

  // ---------- one queue ----------

  /** The link fields together with the head and tail of one queue. */
  datatype Queue = Queue(l: Links, head: Ptr, tail: Ptr)

  /** The queue holds exactly s, from head to tail. */
  ghost predicate Holds(q: Queue, s: seq<Ptr>) {
    NULL !in q.l && Seg(q.l, s, NULL, NULL) && q.head == First(s, NULL) && q.tail == Last(s, NULL) && Distinct(s)
  }

  /** Only links of items of s may differ. */
  ghost predicate Only(l: Links, l': Links, s: seq<Ptr>) {
    l'.Keys == l.Keys && forall p | p in l && p !in s :: l'[p] == l[p]
  }

  /** do_item_link_q: it becomes the head. */
  function PushHead(q: Queue, it: Ptr): Queue
    requires it in q.l
  {
    var l1 := q.l[it := Link(NULL, q.head)];
    var l2 := if q.head in l1 then l1[q.head := l1[q.head].(prev := it)] else l1;
    Queue(l2, it, if q.tail == NULL then it else q.tail)
  }

  lemma PushHeadHolds(q: Queue, s: seq<Ptr>, it: Ptr)
    requires Holds(q, s) && it in q.l && it !in s
    ensures Holds(PushHead(q, it), [it] + s) && Only(q.l, PushHead(q, it).l, [it] + s)
  {
    var l := PushHead(q, it).l;
    SegIn(q.l, s, NULL, NULL);
    SegPrev(q.l, l, s, NULL, NULL, it);
    assert ([it] + s)[1..] == s;
  }

  /** do_item_linktail_q: it becomes the tail. */
  function PushTail(q: Queue, it: Ptr): Queue
    requires it in q.l
  {
    var l1 := q.l[it := Link(q.tail, NULL)];
    var l2 := if q.tail in l1 then l1[q.tail := l1[q.tail].(next := it)] else l1;
    Queue(l2, if q.head == NULL then it else q.head, it)
  }

  lemma PushTailHolds(q: Queue, s: seq<Ptr>, it: Ptr)
    requires Holds(q, s) && it in q.l && it !in s
    ensures Holds(PushTail(q, it), s + [it]) && Only(q.l, PushTail(q, it).l, s + [it])
  {
    var l := PushTail(q, it).l;
    SegIn(q.l, s, NULL, NULL);
    assert s != [] ==> q.tail in s;
    SegNext(q.l, l, s, NULL, NULL, it);
    assert [it][1..] == [];
    SegSplit(l, s, [it], NULL, NULL);
    DistinctSplit(s, [it]);
  }

  /** do_item_unlink_q and do_item_unlinktail_q: it leaves its queue; its own fields are left as they are. */
  function Unlink(q: Queue, it: Ptr): Queue
    requires it in q.l
  {
    var p, n := q.l[it].prev, q.l[it].next;
    var l1 := if n in q.l then q.l[n := q.l[n].(prev := p)] else q.l;
    var l2 := if p in l1 then l1[p := l1[p].(next := n)] else l1;
    Queue(l2, if q.head == it then n else q.head, if q.tail == it then p else q.tail)
  }

  lemma DistinctAround(a: seq<Ptr>, x: Ptr, b: seq<Ptr>)
    requires Distinct(a + [x] + b)
    ensures Distinct(a) && Distinct(b) && x !in a && x !in b && (forall y <- a :: y !in b) && Distinct(a + b)
  {
    Regroup(a, [x], b);
    DistinctSplit(a, [x] + b);
    DistinctSplit([x], b);
    DistinctSplit(a, b);
  }

  lemma SegAround(l: Links, a: seq<Ptr>, x: Ptr, b: seq<Ptr>)
    requires Seg(l, a + [x] + b, NULL, NULL)
    ensures x in l && x != NULL && l[x] == Link(Last(a, NULL), First(b, NULL))
    ensures Seg(l, a, NULL, x) && Seg(l, b, x, NULL)
  {
    Regroup(a, [x], b);
    SegSplit(l, a, [x] + b, NULL, NULL);
    assert ([x] + b)[1..] == b;
  }

  /** What surrounds x in a queue. */
  lemma Around(q: Queue, a: seq<Ptr>, x: Ptr, b: seq<Ptr>)
    requires Holds(q, a + [x] + b)
    ensures x in q.l && x != NULL && q.l[x] == Link(Last(a, NULL), First(b, NULL))
    ensures Seg(q.l, a, NULL, x) && Seg(q.l, b, x, NULL)
    ensures Distinct(a) && Distinct(b) && x !in a && x !in b && (forall y <- a :: y !in b) && Distinct(a + b)
    ensures (forall y <- a :: y in q.l && y != NULL) && (forall y <- b :: y in q.l && y != NULL)
    ensures q.head == First(a, x) && q.tail == Last(b, x)
  {
    DistinctAround(a, x, b);
    SegAround(q.l, a, x, b);
    SegIn(q.l, a, NULL, x);
    SegIn(q.l, b, x, NULL);
  }

  lemma UnlinkHolds(q: Queue, a: seq<Ptr>, x: Ptr, b: seq<Ptr>)
    requires Holds(q, a + [x] + b)
    ensures x in q.l && Holds(Unlink(q, x), a + b) && Only(q.l, Unlink(q, x).l, a + b)
  {
    Around(q, a, x, b);
    var l := Unlink(q, x).l;
    assert a != [] ==> Last(a, NULL) in a;
    assert b != [] ==> b[0] in b;
    SegNext(q.l, l, a, NULL, x, First(b, NULL));
    SegPrev(q.l, l, b, x, NULL, Last(a, NULL));
    SegSplit(l, a, b, NULL, NULL);
    assert First(a + b, NULL) == First(a, First(b, NULL)) && Last(a + b, NULL) == Last(b, Last(a, NULL));
  }

  // ---------- the crawler ----------

  function SetPrev(l: Links, p: Ptr, v: Ptr): Links { if p in l then l[p := l[p].(prev := v)] else l }

  function SetNext(l: Links, p: Ptr, v: Ptr): Links { if p in l then l[p := l[p].(next := v)] else l }

  /** do_item_crawl_q away from the head: the crawler changes places with the item before it. */
  function CrawlUp(q: Queue, it: Ptr): Queue
    requires it in q.l && q.l[it].prev in q.l
  {
    var y, n := q.l[it].prev, q.l[it].next;
    var l1 := SetPrev(SetNext(q.l, y, n), n, y);
    var l2 := SetNext(l1, it, y);
    var l3 := SetPrev(l2, it, l2[y].prev);
    var l4 := SetPrev(l3, y, it);
    var l5 := SetNext(l4, l4[it].prev, it);
    Queue(l5, if q.head == y then it else q.head, if q.tail == it then y else q.tail)
  }

  /** do_item_crawl_q at the head: the crawler is taken off the head, its successor becomes the head. */
  function CrawlPop(q: Queue, it: Ptr): Queue
    requires it in q.l
  {
    var n := q.l[it].next;
    if n == NULL then q else Queue(SetPrev(q.l, n, NULL), n, q.tail)
  }

  /** The writes of do_item_crawl_q on the crawler x, the item y before it, and their neighbours p and n. */
  lemma Exchanged(q: Queue, p: Ptr, y: Ptr, x: Ptr, n: Ptr)
    requires NULL !in q.l && x in q.l && y in q.l && x != y && q.l[x] == Link(y, n) && q.l[y] == Link(p, x)
    requires p != x && p != y && n != x && n != y && (p != NULL ==> p in q.l && p != n) && (n != NULL ==> n in q.l)
    ensures var l := CrawlUp(q, x).l;
            && l.Keys == q.l.Keys && l[x] == Link(p, y) && l[y] == Link(x, n)
            && (p != NULL ==> l[p] == q.l[p].(next := x)) && (n != NULL ==> l[n] == q.l[n].(prev := y))
            && (forall z | z in q.l && z != x && z != y && z != p && z != n :: l[z] == q.l[z])
  {}

  /** What is behind the crawler x and its neighbour y ... */
  lemma ApartBehind(q: Queue, a: seq<Ptr>, y: Ptr, x: Ptr, b: seq<Ptr>)
    requires Holds(q, a + [y] + [x] + b)
    ensures Seg(q.l, b, x, NULL) && Distinct(b) && (forall p <- b :: p in q.l && p != NULL)
    ensures x !in a && x !in b && y !in b && forall p <- a :: p !in b
  {
    var c := a + [y];
    assert c[|a|] == y;
    assert forall p <- a :: p in c;
    Around(q, c, x, b);
  }

  /** ... and what is before them. */
  lemma ApartAhead(q: Queue, a: seq<Ptr>, y: Ptr, x: Ptr, b: seq<Ptr>)
    requires Holds(q, a + [y] + [x] + b)
    ensures Seg(q.l, a, NULL, y) && Distinct(a) && (forall p <- a :: p in q.l && p != NULL)
    ensures y !in a && y != NULL
  {
    Regroup(a + [y], [x], b);
    Around(q, a, y, [x] + b);
  }

  /** The links and ends around them. */
  lemma Neighbours(q: Queue, a: seq<Ptr>, y: Ptr, x: Ptr, b: seq<Ptr>)
    requires Holds(q, a + [y] + [x] + b)
    ensures x in q.l && y in q.l && x != y && q.l[x] == Link(y, First(b, NULL)) && q.l[y] == Link(Last(a, NULL), x)
    ensures q.head == First(a, y) && q.tail == Last(b, x)
  {
    var c, d := a + [y], [x] + b;
    assert c[|a|] == y && d[0] == x;
    Around(q, c, x, b);
    Regroup(c, [x], b);
    Around(q, a, y, d);
    assert First(c, x) == First(a, y) && Last(d, y) == Last(b, x);
  }

  lemma CrawlUpLinks(q: Queue, a: seq<Ptr>, y: Ptr, x: Ptr, b: seq<Ptr>)
    requires Holds(q, a + [y] + [x] + b)
    ensures x in q.l && y in q.l && q.l[x].prev == y && x != y
    ensures var l := CrawlUp(q, x).l;
            && l.Keys == q.l.Keys && l[x] == Link(Last(a, NULL), y) && l[y] == Link(x, First(b, NULL))
            && (a != [] ==> Last(a, NULL) in q.l && l[Last(a, NULL)] == q.l[Last(a, NULL)].(next := x))
            && (b != [] ==> b[0] in q.l && l[b[0]] == q.l[b[0]].(prev := y))
            && (forall p | p in q.l && p != x && p != y && p != Last(a, NULL) && p != First(b, NULL) :: l[p] == q.l[p])
    ensures CrawlUp(q, x).head == First(a, x) && CrawlUp(q, x).tail == Last(b, y)
  {
    Neighbours(q, a, y, x, b);
    ApartBehind(q, a, y, x, b);
    ApartAhead(q, a, y, x, b);
    assert a != [] ==> Last(a, NULL) in a;
    assert b != [] ==> First(b, NULL) in b;
    Exchanged(q, Last(a, NULL), y, x, First(b, NULL));
  }

  /** The crawler moves one place towards the head; everything else keeps its order. */
  lemma CrawlUpHolds(q: Queue, a: seq<Ptr>, y: Ptr, x: Ptr, b: seq<Ptr>)
    requires Holds(q, a + [y] + [x] + b)
    ensures x in q.l && q.l[x].prev == y && y in q.l
    ensures Holds(CrawlUp(q, x), a + [x] + [y] + b) && Only(q.l, CrawlUp(q, x).l, a + [y] + [x] + b)
  {
    CrawlUpLinks(q, a, y, x, b);
    var l := CrawlUp(q, x).l;
    ApartBehind(q, a, y, x, b);
    ApartAhead(q, a, y, x, b);
    assert a != [] ==> Last(a, NULL) in a;
    assert b != [] ==> b[0] in b;
    SegNext(q.l, l, a, NULL, y, x);
    SegPrev(q.l, l, b, x, NULL, y);
    SegJoin(l, a, x, y, b);
    CrawlDistinct(a, y, x, b);
    Ends(a, x, y, b);
  }

  lemma SegJoin(l: Links, a: seq<Ptr>, x: Ptr, y: Ptr, b: seq<Ptr>)
    requires Seg(l, a, NULL, x) && Seg(l, b, y, NULL) && x in l && y in l && x != NULL && y != NULL
    requires l[x] == Link(Last(a, NULL), y) && l[y] == Link(x, First(b, NULL))
    ensures Seg(l, a + [x] + [y] + b, NULL, NULL)
  {
    assert ([x] + ([y] + b))[1..] == [y] + b && ([y] + b)[1..] == b;
    SegSplit(l, a, [x] + ([y] + b), NULL, NULL);
    assert a + [x] + [y] + b == a + ([x] + ([y] + b));
  }

  lemma Ends(a: seq<Ptr>, x: Ptr, y: Ptr, b: seq<Ptr>)
    ensures First(a + [x] + [y] + b, NULL) == First(a, x) && Last(a + [x] + [y] + b, NULL) == Last(b, y)
  {}

  lemma CrawlDistinct(a: seq<Ptr>, y: Ptr, x: Ptr, b: seq<Ptr>)
    requires Distinct(a) && Distinct(b) && x != y && x !in a && y !in a && x !in b && y !in b &&
             (forall p <- a :: p !in b)
    ensures Distinct(a + [x] + [y] + b)
  {
    DistinctSplit([y], b);
    DistinctSplit([x], [y] + b);
    DistinctSplit(a, [x] + ([y] + b));
    Regroup(a, [x], [y] + b);
    Regroup(a + [x], [y], b);
  }

  /** At the head: popped off and then unlinked, the crawler is gone and the items are as they were. */
  lemma CrawlPopHolds(q: Queue, x: Ptr, b: seq<Ptr>)
    requires Holds(q, [x] + b)
    ensures x in q.l && q.l[x].prev == NULL && CrawlPop(q, x).l.Keys == q.l.Keys
    ensures Holds(Unlink(CrawlPop(q, x), x), b) && Only(q.l, Unlink(CrawlPop(q, x), x).l, b)
  {
    assert [x] + b == [] + [x] + b && [] + b == b;
    Around(q, [], x, b);
    UnlinkHolds(q, [], x, b);
    assert b != [] ==> b[0] in b;
    assert Unlink(CrawlPop(q, x), x) == Unlink(q, x);
  }
}
