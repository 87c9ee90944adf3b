/** The freelist of a slab class as src/slabs.c threads it through the chunks: slots points at the first, prev and next
    lead on, and sl_curr counts. A chunk is named by its position, as in SlabChunks; its address is one more, for 0 is
    NULL. */
module FreeList {
  import opened Basics
  import opened Addresses
  import opened LruLinks
  import L = LruQueues

  ghost function Addressed(s: seq<Ptr>): seq<Ptr> {
    if s == [] then [] else [s[0] + 1] + Addressed(s[1..])
  }

  lemma {:induction false} AddressedSplit(a: seq<Ptr>, b: seq<Ptr>)
    ensures Addressed(a + b) == Addressed(a) + Addressed(b)
    decreases a
  {
    if a == [] {
      assert a + b == b;
    } else {
      assert (a + b)[1..] == a[1..] + b;
      AddressedSplit(a[1..], b);
    }
  }

  lemma {:induction false} AddressedIn(s: seq<Ptr>, c: Ptr)
    ensures c in s <==> c + 1 in Addressed(s)
    ensures |Addressed(s)| == |s|
    decreases s
  {
    if s != [] { AddressedIn(s[1..], c); }
  }

  /** What is needed to take x out from between a and b. */
  lemma Between(q: Queue, a: seq<Ptr>, x: Ptr, b: seq<Ptr>)
    requires Holds(q, a + [x] + b)
    ensures x in q.l && q.l[x] == Link(Last(a, NULL), First(b, NULL)) && q.head == First(a, x)
    ensures (q.l[x].next != NULL ==> q.l[x].next in q.l) && (q.l[x].prev != NULL ==> q.l[x].prev in q.l)
    ensures Holds(Unlink(q, x), a + b)
  {
    Around(q, a, x, b);
    UnlinkHolds(q, a, x, b);
    assert a != [] ==> Last(a, NULL) in a;
    assert b != [] ==> First(b, NULL) in b;
  }

  lemma AddressedAround(a: seq<Ptr>, c: Ptr, b: seq<Ptr>)
    ensures Addressed(a + [c] + b) == Addressed(a) + [c + 1] + Addressed(b)
  {
    AddressedSplit(a + [c], b);
    AddressedSplit(a, [c]);
    assert Addressed([c]) == [c + 1];
  }

  /** Where chunk c is in the list. */
  lemma Split(s: seq<Ptr>, c: Ptr) returns (a: seq<Ptr>, b: seq<Ptr>)
    requires c in s
    ensures Addressed(s) == a + [c + 1] + b && Addressed(L.Without(s, c)) == a + b && |L.Without(s, c)| == |s| - 1
  {
    var a0, b0 := L.Locate(s, c);
    AddressedAround(a0, c, b0);
    AddressedSplit(a0, b0);
    a, b := Addressed(a0), Addressed(b0);
  }

  class ChunkList {
    var l: Links
    var slots: Ptr
    var slCurr: int
    ghost var last: Ptr
    ghost var free: seq<Ptr>

    ghost predicate Valid()
      reads this
    {
      Holds(Queue(l, slots, last), Addressed(free)) && slCurr == |free|
    }

    /** A class without chunks. */
    constructor ()
      ensures Valid() && free == []
    {
      l, slots, slCurr, last, free := map[], NULL, 0, NULL, [];
    }

    /** A new chunk gets its prev and next. */
    method Provide(c: Ptr)
      requires Valid() && c !in free
      modifies `l
      ensures Valid() && c + 1 in l && l.Keys == old(l).Keys + {c + 1}
    {
      AddressedIn(free, c);
      SegFrame(l, l[c + 1 := Link(NULL, NULL)], Addressed(free), NULL, NULL);
      l := l[c + 1 := Link(NULL, NULL)];
    }

    /** do_slabs_free: the chunk becomes the first of the list. */
    method Put(c: Ptr)
      requires Valid() && c + 1 in l && c !in free
      modifies this
      ensures Valid() && free == [c] + old(free) && l.Keys == old(l).Keys
    {
      var it := c + 1;
      AddressedIn(free, c);
      PushHeadHolds(Queue(l, slots, last), Addressed(free), it);
      SegIn(l, Addressed(free), NULL, NULL);
      last := PushHead(Queue(l, slots, last), it).tail;
      l := l[it := Link(NULL, slots)];
      if l[it].next != NULL {
        l := l[l[it].next := l[l[it].next].(prev := it)];
      }
      slots := it;
      slCurr := slCurr + 1;
      free := [c] + free;
      assert ([c] + old(free))[1..] == old(free);
    }

    /** do_slabs_alloc: the first chunk, or none exactly if the list is empty. */
    method Take() returns (c: Option<Ptr>)
      requires Valid()
      modifies this
      ensures Valid() && l.Keys == old(l).Keys
      ensures if old(free) == [] then c == None && free == [] else c == Some(old(free)[0]) && free == old(free)[1..]
    {
      if slCurr == 0 { return None; }
      ghost var rest := Addressed(free[1..]);
      assert Addressed(free) == [] + [free[0] + 1] + rest && [] + rest == rest;
      Between(Queue(l, slots, last), [], free[0] + 1, rest);
      last := Unlink(Queue(l, slots, last), slots).tail;
      var it := slots;
      slots := l[it].next;
      if l[it].next != NULL {
        l := l[l[it].next := l[l[it].next].(prev := NULL)];
      }
      slCurr := slCurr - 1;
      free := free[1..];
      c := Some(it - 1);
    }

    /** The writes of slab_rebalance_cut_free. */
    method Unthread(it: Ptr)
      requires NULL !in l && it in l
      requires (l[it].next != NULL ==> l[it].next in l) && (l[it].prev != NULL ==> l[it].prev in l)
      modifies `l, `slots, `last, `slCurr
      ensures Queue(l, slots, last) == Unlink(old(Queue(l, slots, last)), it) && slCurr == old(slCurr) - 1
    {
      last := Unlink(Queue(l, slots, last), it).tail;
      if slots == it {
        slots := l[it].next;
      }
      if l[it].next != NULL {
        l := l[l[it].next := l[l[it].next].(prev := l[it].prev)];
      }
      if l[it].prev != NULL {
        l := l[l[it].prev := l[l[it].prev].(next := l[it].next)];
      }
      slCurr := slCurr - 1;
    }

    /** slab_rebalance_cut_free: a chunk leaves from anywhere in the list. */
    method CutFree(c: Ptr)
      requires Valid() && c in free
      modifies this
      ensures Valid() && free == L.Without(old(free), c) && l.Keys == old(l).Keys
    {
      ghost var a, b := Split(free, c);
      Between(Queue(l, slots, last), a, c + 1, b);
      Unthread(c + 1);
      free := L.Without(free, c);
    }
  }
}
