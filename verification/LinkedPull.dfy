/** lru_pull_tail of src/items.c on the linked queues themselves, with crawlers among the items and the byte counts read
    from the array: it does to the items what the pull on plain sequences does. */
module LinkedPull {
  import opened Basics
  import opened Addresses
  import opened LruLinks
  import L = LruQueues
  import opened CacheState
  import opened ItemFlow
  import opened ItemCache
  import opened PullFlow

  /** The linked queues and the cache name the same class and size for an item. */
  ghost predicate Agrees(info: L.Infos, st: State, p: Ptr)
    requires p in st.items
  {
    p in info && !info[p].crawler && info[p].clsid == st.items[p].clsid && info[p].ntotal == st.items[p].ntotal
  }

  /** Each queue of the cache is the linked queue without its crawlers. */
  ghost predicate Shows(info: L.Infos, qs: seq<seq<Ptr>>, st: State) {
    && |qs| == |st.queues| == CLASSES
    && (forall p {:trigger Agrees(info, st, p)} | p in st.items :: Agrees(info, st, p))
    && forall id {:trigger qs[id]} | 0 <= id < CLASSES :: L.Real(info, qs[id]) == st.queues[id]
  }

  // ---------- what the steps of a pull keep ----------

  /** Holding, letting go and marking leave the queues alone. */
  lemma QuietShows(info: L.Infos, qs: seq<seq<Ptr>>, st: State, st': State)
    requires Shows(info, qs, st) && st'.queues == st.queues
    requires forall p | p in st'.items ::
               p in st.items && st'.items[p].clsid == st.items[p].clsid && st'.items[p].ntotal == st.items[p].ntotal
    ensures Shows(info, qs, st')
  {
    forall p | p in st'.items ensures Agrees(info, st', p) { assert Agrees(info, st, p); }
  }

  lemma {:induction false} RealWithout(info: L.Infos, s: seq<Ptr>, x: Ptr)
    requires x in info && !info[x].crawler
    ensures L.Real(info, L.Without(s, x)) == L.Without(L.Real(info, s), x)
    decreases s
  {
    if s != [] {
      RealWithout(info, s[1..], x);
      var r := L.Real(info, s[1..]);
      if s[0] == x {
        assert ([x] + r)[1..] == r;
      } else {
        assert ([s[0]] + L.Without(s[1..], x))[1..] == L.Without(s[1..], x);
        assert ([s[0]] + r)[1..] == r && [] + r == r && [] + L.Without(r, x) == L.Without(r, x);
      }
    }
  }

  lemma UnlinkShows(info: L.Infos, qs: seq<seq<Ptr>>, st: State, p: Ptr)
    requires Shows(info, qs, st) && p in st.items && st.items[p].linked && st.items[p].clsid < CLASSES
    ensures var id := st.items[p].clsid; Shows(info, qs[id := L.Without(qs[id], p)], UnlinkItem(st, p))
  {
    var id, st' := st.items[p].clsid, UnlinkItem(st, p);
    assert Agrees(info, st, p);
    RealWithout(info, qs[id], p);
    forall q | q in st'.items ensures Agrees(info, st', q) { assert Agrees(info, st, q); }
  }

  lemma LinkShows(info: L.Infos, qs: seq<seq<Ptr>>, st: State, p: Ptr, now: int)
    requires Shows(info, qs, st) && p in st.items && st.items[p].clsid < CLASSES
    ensures var id := st.items[p].clsid; Shows(info, qs[id := [p] + qs[id]], LinkItem(st, p, now))
  {
    var id, st' := st.items[p].clsid, LinkItem(st, p, now);
    assert Agrees(info, st, p);
    assert ([p] + qs[id])[1..] == qs[id];
    forall q | q in st'.items ensures Agrees(info, st', q) { assert Agrees(info, st, q); }
  }

  lemma AllocShows(info: L.Infos, qs: seq<seq<Ptr>>, st: State, p: Ptr, it: CacheState.Item)
    requires Shows(info, qs, st) && (forall id | 0 <= id < CLASSES :: p !in qs[id])
    ensures Shows(info[p := L.Info(it.clsid, it.ntotal, false)], qs, Allocated(st, p, it))
  {
    var info', st' := info[p := L.Info(it.clsid, it.ntotal, false)], Allocated(st, p, it);
    forall q | q in st'.items ensures Agrees(info', st', q) { if q != p { assert Agrees(info, st, q); } }
    forall id | 0 <= id < CLASSES ensures L.Real(info', qs[id]) == st'.queues[id] {
      assert L.Real(info, qs[id]) == st.queues[id];
      L.RealFrame(info, info', qs[id]);
    }
  }

  /** What is neither an item nor a crawler is in no queue. */
  lemma NotQueued(info: L.Infos, qs: seq<seq<Ptr>>, st: State, held: multiset<Ptr>, id: nat, p: Ptr, l: L.State)
    requires L.AllQueues(l, qs) && l.info == info && Inv(st, held) && Shows(info, qs, st) && id < CLASSES
    requires p !in st.items && (p in info ==> !info[p].crawler)
    ensures p !in qs[id]
  {
    L.Inside(l, qs, id);
    L.RealMembers(info, qs[id]);
    assert QueueOK(st, id);
  }

  lemma OnlyItems(st: State, held: multiset<Ptr>, id: nat)
    requires Inv(st, held) && id < CLASSES
    ensures st.queues[id] == [] || st.queues[id][0] in st.items
  {
    assert QueueOK(st, id);
    assert st.queues[id] != [] ==> st.queues[id][0] in st.queues[id];
  }

  lemma RelocateShows(info: L.Infos, qs: seq<seq<Ptr>>, st: State, p: Ptr, cls: nat)
    requires Shows(info, qs, st) && p in st.items && st.items[p].clsid < CLASSES && cls < CLASSES
    ensures p in info
    ensures var id := st.items[p].clsid;
            var mid := qs[id := L.Without(qs[id], p)];
            Shows(info[p := info[p].(clsid := cls)], mid[cls := [p] + mid[cls]], Relocate(st, p, cls))
  {
    var id, st' := st.items[p].clsid, Relocate(st, p, cls);
    assert Agrees(info, st, p);
    var info' := info[p := info[p].(clsid := cls)];
    RealWithout(info, qs[id], p);
    var mid := qs[id := L.Without(qs[id], p)];
    var qs' := mid[cls := [p] + mid[cls]];
    forall q | q in st'.items ensures Agrees(info', st', q) { assert Agrees(info, st, q); }
    forall j | 0 <= j < CLASSES ensures L.Real(info', qs'[j]) == st'.queues[j] {
      assert L.Real(info, qs[j]) == st.queues[j];
      RealOther(info, mid[j], p, cls);
    }
  }

  lemma RealOther(info: L.Infos, s: seq<Ptr>, p: Ptr, cls: nat)
    requires p in info && !info[p].crawler
    ensures var info' := info[p := info[p].(clsid := cls)];
            L.Real(info', s) == L.Real(info, s) && L.Real(info', [p] + s) == [p] + L.Real(info, s)
  {
    L.RealFrame(info, info[p := info[p].(clsid := cls)], s);
    assert ([p] + s)[1..] == s;
  }

  /** Taken out for good, or moved to another queue of its class, while the pull holds it. */
  lemma EvictShows(info: L.Infos, qs: seq<seq<Ptr>>, st: State, p: Ptr)
    requires Shows(info, qs, st) && Shaped(st, p) && st.items[p].linked
    ensures var id := st.items[p].clsid; Shows(info, qs[id := L.Without(qs[id], p)], Stopped(st, p, Evict))
  {
    var id := st.items[p].clsid;
    QuietShows(info, qs, st, Hold(st, p));
    UnlinkShows(info, qs, Hold(st, p), p);
    QuietShows(info, qs[id := L.Without(qs[id], p)], UnlinkItem(Hold(st, p), p), Stopped(st, p, Evict));
  }

  lemma MoveShows(info: L.Infos, qs: seq<seq<Ptr>>, st: State, p: Ptr, lru: nat)
    requires Shows(info, qs, st) && Shaped(st, p) && lru <= TEMP_LRU
    ensures p in info
    ensures var id, cls := st.items[p].clsid, SlabClass(st.items[p].clsid) + lru;
            var mid := qs[id := L.Without(qs[id], p)];
            Shows(info[p := info[p].(clsid := cls)], mid[cls := [p] + mid[cls]], Stopped(st, p, Move(lru)))
  {
    var id, cls := st.items[p].clsid, SlabClass(st.items[p].clsid) + lru;
    var mid := qs[id := L.Without(qs[id], p)];
    var st1 := Touched(Hold(st, p), p, Hold(st, p).items[p].(active := false));
    QuietShows(info, qs, st, st1);
    RelocateShows(info, qs, st1, p, cls);
    QuietShows(info[p := info[p].(clsid := cls)], mid[cls := [p] + mid[cls]], Relocate(st1, p, cls),
        Stopped(st, p, Move(lru)));
  }

  lemma {:induction false} BytesShown(info: L.Infos, st: State, s: seq<Ptr>)
    requires forall p <- s :: p in st.items && Agrees(info, st, p)
    ensures Bytes(st, s) == L.Total(info, s)
    decreases s
  {
    if s != [] {
      assert s[0] in s && forall p <- s[1..] :: p in s;
      BytesShown(info, st, s[1..]);
    }
  }

  // ---------- where the walk stands ----------

  /** The only item of a WARM queue, active and due: it is rescued to the head, and that is all, unless a crawler stood
      before it.  Then the same pull meets it again, no longer active, and sends it to COLD if the queue is over its
      share. */
  lemma MetAgain(a: PullArgs, st: State, p: Ptr)
    requires Shaped(st, p) && a.id < CLASSES && st.queues[a.id] == [p] && p != NULL && a.curLru == WARM_LRU
    requires var it := st.items[p];
             it.clsid == a.id && it.linked && it.active && it.time < a.now - ITEM_UPDATE_INTERVAL && p !in a.locked &&
                 !Dead(it, p, a.now, a.flushed)
    ensures var st' := Refreshed(st, p, a.now);
            var over := st.items[p].ntotal > a.totalBytes * a.settings.warmPct / 100 || a.maxAge < 0;
            && Pulled(a, -1, false, st, p, 5, 0, 0) == (st', 0)
            && Pulled(a, -1, true, st, p, 5, 0, 0) ==
                 (if over then (Stopped(st', p, Move(COLD_LRU)), 1) else (Stopped(st', p, Stay), 0))
  {
    var st' := Refreshed(st, p, a.now);
    assert L.Without([p], p) == [] && [p] + [] == [p];
    PulledTurn(a, -1, false, st, p, 5, 0, 0);
    PulledTurn(a, -1, true, st, p, 5, 0, 0);
    PulledTurn(a, -1, false, st', p, 4, 1, 0);
    assert st'.queues[a.id] == [p] && Bytes(st', [p]) == st.items[p].ntotal + Bytes(st', []);
  }

  /** How many items are behind the last crawler of s; -1 if there is none. */
  ghost function Behind(info: L.Infos, s: seq<Ptr>): int {
    if s == [] then -1
    else if s[|s| - 1] in info && info[s[|s| - 1]].crawler then 0
    else
      var n := Behind(info, s[..|s| - 1]);
      if n < 0 then -1 else n + 1
  }

  ghost predicate CrawlerFirst(info: L.Infos, s: seq<Ptr>) {
    s != [] && s[0] in info && info[s[0]].crawler
  }

  /** The walk stands at search, the last of `ahead`; everything before it in the queue s is still to come. */
  ghost predicate Standing(n: int, first: bool, blocks: bool, info: L.Infos, s: seq<Ptr>, ahead: seq<Ptr>, search: Ptr,
      met: nat)
  {
    && search == Last(ahead, NULL) && ahead <= s && (ahead != [] ==> first == CrawlerFirst(info, ahead))
    && n == if blocks && Behind(info, ahead) >= 0 then met + Behind(info, ahead) else -1
  }

  /** The item the walk will look at next, if any. */
  ghost function Upcoming(info: L.Infos, ahead: seq<Ptr>): Ptr { Last(L.Real(info, ahead), NULL) }

  lemma RealLast(info: L.Infos, a: seq<Ptr>, x: Ptr)
    requires x in info
    ensures L.Real(info, a + [x]) == L.Real(info, a) + if info[x].crawler then [] else [x]
    ensures (a + [x])[..|a|] == a
  {
    L.RealSplit(info, a, [x]);
    L.RealOne(info, x);
  }

  /** Past a crawler. */
  lemma PastCrawler(n: int, first: bool, blocks: bool, info: L.Infos, s: seq<Ptr>, a: seq<Ptr>, x: Ptr,
      met: nat)
    requires Standing(n, first, blocks, info, s, a + [x], x, met) && x in info && info[x].crawler
    ensures blocks ==> n == met
    ensures !blocks ==>
              Standing(n, first, blocks, info, s, a, Last(a, NULL), met) && Upcoming(info, a) == Upcoming(info, a + [x])
  {
    RealLast(info, a, x);
    assert L.Real(info, a) + [] == L.Real(info, a);
  }

  /** Past an item, however the part behind it and the item itself then stand. */
  lemma PastItem(n: int, first: bool, blocks: bool, info: L.Infos, s: seq<Ptr>, a: seq<Ptr>, x: Ptr,
      met: nat, s': seq<Ptr>)
    requires Standing(n, first, blocks, info, s, a + [x], x, met) && x in info && !info[x].crawler && a <= s'
    ensures n != met && Upcoming(info, a + [x]) == x
    ensures Standing(n, first, blocks, info, s', a, Last(a, NULL), met + 1)
  {
    RealLast(info, a, x);
  }

  /** Past an item that has moved to the head of its queue. */
  lemma PastMoved(n: int, first: bool, blocks: bool, info: L.Infos, s: seq<Ptr>, a: seq<Ptr>, x: Ptr, met: nat,
      rest: seq<Ptr>) returns (ahead: seq<Ptr>)
    requires Standing(n, first, blocks, info, s, a + [x], x, met) && x in info && !info[x].crawler
    requires forall p <- a :: p in info && p != NULL
    ensures Standing(n, false, blocks, info, [x] + (a + rest), ahead, Last(a, NULL), met + 1)
    ensures Upcoming(info, ahead) == if first && Upcoming(info, a) == NULL then x else Upcoming(info, a)
  {
    PastItem(n, first, blocks, info, s, a, x, met, a);
    ahead := if a == [] then [] else [x] + a;
    if a != [] {
      BehindMore(info, x, a);
      ComesBack(info, a, x);
    }
    Front(a, x, rest);
  }

  lemma Front(a: seq<Ptr>, x: Ptr, rest: seq<Ptr>)
    ensures [x] + a <= [x] + (a + rest) && ([x] + a)[0] == x
    ensures (a + [x])[0] == if a == [] then x else a[0]
    ensures a != [] ==> Last([x] + a, NULL) == Last(a, NULL)
  {
    assert [x] + (a + rest) == [x] + a + rest;
  }

  /** With only crawlers before it, the item at the head is met again. */
  lemma ComesBack(info: L.Infos, a: seq<Ptr>, x: Ptr)
    requires a != [] && x in info && !info[x].crawler && forall p <- a :: p in info && p != NULL
    ensures Upcoming(info, [x] + a) == if L.Real(info, a) == [] then x else Upcoming(info, a)
    ensures L.Real(info, a) == [] <==> Upcoming(info, a) == NULL
    ensures L.Real(info, a) == [] ==> CrawlerFirst(info, a)
  {
    assert ([x] + a)[1..] == a;
    L.RealMembers(info, a);
    assert a[0] in a && (L.Real(info, a) != [] ==> Upcoming(info, a) in L.Real(info, a));
  }

  lemma {:induction false} BehindMore(info: L.Infos, x: Ptr, a: seq<Ptr>)
    requires x in info && !info[x].crawler
    ensures Behind(info, [x] + a) == Behind(info, a)
    decreases a
  {
    if a == [] {
      assert [x] + a == [x] && [x][..0] == [];
    } else {
      assert ([x] + a)[..|a|] == [x] + a[..|a| - 1];
      BehindMore(info, x, a[..|a| - 1]);
    }
  }

  lemma {:induction false} WithoutAt(a: seq<Ptr>, x: Ptr, b: seq<Ptr>)
    requires x !in a
    ensures L.Without(a + [x] + b, x) == a + b
    decreases a
  {
    if a == [] {
      assert [] + [x] + b == [x] + b && ([x] + b)[1..] == b && [] + b == b;
    } else {
      assert (a + [x] + b)[1..] == a[1..] + [x] + b && a + b == [a[0]] + (a[1..] + b);
      WithoutAt(a[1..], x, b);
    }
  }

  /** What is around x in its queue. */
  lemma PlaceOf(st: L.State, qs: seq<seq<Ptr>>, id: nat, a: seq<Ptr>, x: Ptr)
    requires L.AllQueues(st, qs) && id < CLASSES && a + [x] <= qs[id]
    ensures x in qs[id] && x != NULL && x in st.l && st.l[x].prev == Last(a, NULL) && x in st.info
    ensures qs[id] == a + [x] + qs[id][|a| + 1..] && L.Without(qs[id], x) == a + qs[id][|a| + 1..]
    ensures forall p <- a :: p in st.info && p != NULL
  {
    var b := qs[id][|a| + 1..];
    assert x == (a + [x])[|a|] == qs[id][|a|];
    L.Inside(st, qs, id);
    assert qs[id] == a + [x] + b;
    assert L.QueueAt(st, qs, id);
    Around(L.QueueOf(st, id), a, x, b);
    DistinctAround(a, x, b);
    WithoutAt(a, x, b);
    assert forall p <- a :: p in a + [x] + b;
  }

  /** And what is around it among the items. */
  lemma ItemPlace(info: L.Infos, a: seq<Ptr>, x: Ptr, b: seq<Ptr>)
    requires x in info && !info[x].crawler && Distinct(L.Real(info, a + [x] + b))
    ensures x in L.Real(info, a + [x] + b) && Preceding(L.Real(info, a + [x] + b), x) == Upcoming(info, a)
  {
    L.RealSplit(info, a + [x], b);
    RealLast(info, a, x);
    PrecedingAt(L.Real(info, a), x, L.Real(info, b));
  }

  /** The walk is at its end exactly when there is nowhere to stand. */
  lemma AtEnd(st: L.State, qs: seq<seq<Ptr>>, id: nat, ahead: seq<Ptr>)
    requires L.AllQueues(st, qs) && id < CLASSES && ahead <= qs[id]
    ensures Last(ahead, NULL) == NULL <==> ahead == []
  {
    L.Inside(st, qs, id);
    assert ahead != [] ==> Last(ahead, NULL) == qs[id][|ahead| - 1];
  }

  class LinkedCache {
    const c: Cache
    const q: L.Queues

    ghost predicate Valid()
      reads this, c, q
    {
      c.Valid() && q.Valid() && Shows(q.info, q.qs, c.st)
    }

    /** An empty cache, and the crawlers that may join its queues. */
    constructor (crawlers: L.Infos)
      requires NULL !in crawlers
      ensures Valid() && fresh(c) && fresh(q) && c.st.items == map[] && q.info == crawlers
    {
      c := new Cache();
      q := new L.Queues(crawlers);
      new;
      forall id | 0 <= id < CLASSES ensures c.st.queues[id] == [] { OnlyItems(c.st, c.held, id); }
    }

    /** do_item_alloc: memory that is no item and no crawler becomes an item, held by its creator. */
    method ItemAlloc(p: Ptr, it: Item)
      requires Valid() && p != NULL && p !in c.st.items && it.clsid < CLASSES
      requires p in q.info ==> !q.info[p].crawler
      modifies c, q
      ensures Valid() && c.st == Allocated(old(c.st), p, it) && c.held == old(c.held) + multiset{p} && q.qs == old(q.qs)
      ensures p in c.st.items && OnlyItem(old(c.st), c.st, p) &&
              c.st.items[p] == Item(it.key, it.clsid, it.ntotal, false, false, false, 1, it.time, it.exptime)
      ensures c.st.queues == old(c.st).queues && c.st.index == old(c.st).index && c.st.bumps == old(c.st).bumps
    {
      forall id | 0 <= id < CLASSES ensures p !in q.qs[id] { NotQueued(q.info, q.qs, c.st, c.held, id, p, q.Now()); }
      AllocShows(q.info, q.qs, c.st, p, it);
      AllocKeeps(c.st, c.held, p, it);
      q.Provide(p, L.Info(it.clsid, it.ntotal, false));
      c.st, c.held := Allocated(c.st, p, it), c.held + multiset{p};
    }

    /** do_item_link. */
    method ItemLink(p: Ptr, now: int)
      requires Valid() && p in c.st.items && p in c.held && !c.st.items[p].linked && c.st.items[p].key !in c.st.index
      modifies c, q
      ensures Valid() && c.held == old(c.held) && Shaped(old(c.st), p) && c.st == LinkItem(old(c.st), p, now) &&
              ItemFlow.Links(old(c.st), c.st, p, now)
    {
      assert Reachable(c.st, p) && Agrees(q.info, c.st, p);
      ghost var id := c.st.items[p].clsid;
      assert p !in q.qs[id] by {
        L.RealMembers(q.info, q.qs[id]);
        assert QueueOK(c.st, id);
      }
      LinkShows(q.info, q.qs, c.st, p, now);
      q.LinkQ(p);
      c.ItemLink(p, now);
    }

    /** do_item_unlink. */
    method ItemUnlink(p: Ptr)
      requires Valid() && p in c.st.items && p in c.held
      modifies c, q
      ensures Valid() && c.held == old(c.held) && Shaped(old(c.st), p) && c.st == UnlinkItem(old(c.st), p) &&
              Unlinks(old(c.st), c.st, p)
    {
      assert Reachable(c.st, p) && Agrees(q.info, c.st, p);
      if c.st.items[p].linked {
        L.RealMembers(q.info, q.qs[c.st.items[p].clsid]);
        UnlinkShows(q.info, q.qs, c.st, p);
        q.UnlinkQ(p);
      }
      c.ItemUnlink(p);
    }

    /** The item where the walk stands, as the cache has it. */
    lemma Found(id: nat, a: seq<Ptr>, x: Ptr)
      requires Valid() && id < CLASSES && a + [x] <= q.qs[id] && x in q.info && !q.info[x].crawler
      ensures x in c.st.queues[id] && Shaped(c.st, x) && c.st.items[x].linked && c.st.items[x].clsid == id
      ensures Preceding(c.st.queues[id], x) == Upcoming(q.info, a)
      ensures q.bytes[id] == Bytes(c.st, c.st.queues[id])
    {
      PlaceOf(q.Now(), q.qs, id, a, x);
      assert QueueOK(c.st, id) && L.QueueAt(q.Now(), q.qs, id);
      ItemPlace(q.info, a, x, q.qs[id][|a| + 1..]);
      InQueue(c.st, c.held, id, x);
      forall p <- c.st.queues[id] ensures p in c.st.items && Agrees(q.info, c.st, p) {
        InQueue(c.st, c.held, id, p);
      }
      BytesShown(q.info, c.st, c.st.queues[id]);
    }

    /** An expired or flushed item: unlinked and let go. */
    method Reclaim(x: Ptr)
      requires Valid() && Shaped(c.st, x) && c.st.items[x].linked && x in q.qs[c.st.items[x].clsid]
      modifies c`st, q
      ensures Valid() && c.st == Reclaimed(old(c.st), x) && q.info == old(q.info) && Unlinks(old(c.st), c.st, x)
      ensures var id := old(c.st).items[x].clsid; q.qs == old(q.qs)[id := L.Without(old(q.qs)[id], x)]
    {
      ghost var id := c.st.items[x].clsid;
      assert Agrees(q.info, c.st, x);
      assert x in c.st.queues[id] by { L.RealMembers(q.info, q.qs[id]); }
      ReclaimKeeps(c.st, c.st, c.held, {}, x, id);
      ReclaimFlow(c.st, c.held, x);
      EvictShows(q.info, q.qs, c.st, x);
      q.UnlinkQ(x);
      c.st := Reclaimed(c.st, x);
    }

    /** An active item of the WARM queue: its mark goes, and when it is due it goes to the head of the queue. */
    method Refresh(x: Ptr, now: int)
      requires Valid() && Shaped(c.st, x) && c.st.items[x].linked && x in q.qs[c.st.items[x].clsid]
      modifies c`st, q
      ensures Valid() && c.st == Refreshed(old(c.st), x, now) && q.info == old(q.info) &&
              Rescues(old(c.st), c.st, x, now)
      ensures var id := old(c.st).items[x].clsid;
              q.qs == if old(c.st).items[x].time < now - ITEM_UPDATE_INTERVAL
                      then old(q.qs)[id := [x] + L.Without(old(q.qs)[id], x)] else old(q.qs)
    {
      RefreshFlow(c.st, c.held, x, now);
      RefreshLinks(x, now);
    }

    method RefreshLinks(x: Ptr, now: int)
      requires Valid() && Shaped(c.st, x) && c.st.items[x].linked && x in q.qs[c.st.items[x].clsid]
      modifies c`st, q
      ensures Valid() && c.st == Refreshed(old(c.st), x, now) && q.info == old(q.info)
      ensures var id := old(c.st).items[x].clsid;
              q.qs == if old(c.st).items[x].time < now - ITEM_UPDATE_INTERVAL
                      then old(q.qs)[id := [x] + L.Without(old(q.qs)[id], x)] else old(q.qs)
    {
      ghost var id := c.st.items[x].clsid;
      ghost var st1 := Touched(c.st, x, c.st.items[x].(active := false));
      assert Agrees(q.info, c.st, x);
      assert x in c.st.queues[id] by { L.RealMembers(q.info, q.qs[id]); }
      RefreshKeeps(c.st, c.st, c.held, {}, x, id, now);
      QuietShows(q.info, q.qs, c.st, st1);
      if c.st.items[x].time < now - ITEM_UPDATE_INTERVAL {
        QuietShows(q.info, q.qs, st1, Touched(st1, x, st1.items[x].(time := now)));
        RelocateShows(q.info, q.qs, Touched(st1, x, st1.items[x].(time := now)), x, id);
        q.MoveTo(x, q.info[x].clsid);
        assert q.info == old(q.info);
      }
      c.st := Refreshed(c.st, x, now);
    }

    /** The item where the pull stops. */
    method Conclude(x: Ptr, verdict: Verdict)
      requires Valid() && Shaped(c.st, x) && c.st.items[x].linked && x in q.qs[c.st.items[x].clsid]
      requires verdict.Move? ==> verdict.lru <= TEMP_LRU
      modifies c, q
      ensures Valid() && c.held == old(c.held) && c.st == Stopped(old(c.st), x, verdict)
      ensures Settles(old(c.st), c.st, x, verdict)
    {
      ghost var st0 := c.st;
      assert Agrees(q.info, c.st, x);
      match verdict {
        case Stay =>
          QuietShows(q.info, q.qs, st0, Stopped(st0, x, Stay));
        case Move(lru) =>
          MoveShows(q.info, q.qs, st0, x, lru);
          q.MoveTo(x, SlabClass(q.info[x].clsid) + lru);
        case Evict =>
          EvictShows(q.info, q.qs, st0, x);
          q.UnlinkQ(x);
      }
      ghost var evicted := c.Settle(x, verdict);
    }

    /** How many items are behind the crawler that blocks a pull of queue id; -1 if none does. */
    ghost function BlockAt(id: nat, blocks: bool): int
      requires id < |q.qs|
      reads q
    {
      if blocks then Behind(q.info, q.qs[id]) else -1
    }

    /** What a pull of queue a.id does to the items, given the crawlers that are in it. */
    ghost function Goal(a: PullArgs, blocks: bool): (State, int)
      requires a.id < |q.qs|
      reads c, q
    {
      Pulled(a, BlockAt(a.id, blocks), CrawlerFirst(q.info, q.qs[a.id]), c.st, TailOf(c.st, a.id), 5, 0, 0)
    }

    /** In the middle of a pull, with `ahead` still to be walked and search the last of it. */
    ghost predicate Walking(n: int, first: bool, blocks: bool, id: nat, ahead: seq<Ptr>, search: Ptr, met: nat)
      requires id < |q.qs|
      reads q
    {
      Standing(n, first, blocks, q.info, q.qs[id], ahead, search, met)
    }

    /** A turn at an item that is dead. */
    method TurnDead(a: PullArgs, ghost n: int, ghost first: bool, ghost blocks: bool, x: Ptr, ghost before: seq<Ptr>,
        ghost met: nat)
      requires Valid() && a.id < CLASSES && x in q.info && !q.info[x].crawler
      requires Walking(n, first, blocks, a.id, before + [x], x, met)
      modifies c`st, q
      ensures Valid() && Walking(n, first, blocks, a.id, before, Last(before, NULL), met + 1)
      ensures q.info == old(q.info) && Shaped(old(c.st), x) && c.st == Reclaimed(old(c.st), x)
    {
      ghost var s := q.qs[a.id];
      Found(a.id, before, x);
      PlaceOf(q.Now(), q.qs, a.id, before, x);
      PastItem(n, first, blocks, q.info, s, before, x, met, before + s[|before| + 1..]);
      Reclaim(x);
    }

    /** A turn at an active item of the WARM queue. */
    method TurnWarm(a: PullArgs, ghost n: int, ghost first: bool, ghost blocks: bool, x: Ptr, ghost before: seq<Ptr>,
        ghost met: nat) returns (ghost ahead: seq<Ptr>)
      requires Valid() && a.id < CLASSES && x in q.info && !q.info[x].crawler
      requires Walking(n, first, blocks, a.id, before + [x], x, met)
      requires x in c.st.items && c.st.items[x].active && a.curLru == WARM_LRU && x !in a.locked &&
               !Dead(c.st.items[x], x, a.now, a.flushed)
      modifies c`st, q
      ensures Valid() && q.info == old(q.info) && Shaped(old(c.st), x) && c.st == Refreshed(old(c.st), x, a.now)
      ensures a.id < |old(c.st).queues|
      ensures var (first', next) := Onward(a, first, old(c.st), x);
              Walking(n, first', blocks, a.id, ahead, Last(before, NULL), met + 1) && next == Upcoming(q.info, ahead)
    {
      ghost var s := q.qs[a.id];
      Found(a.id, before, x);
      PlaceOf(q.Now(), q.qs, a.id, before, x);
      if c.st.items[x].time < a.now - ITEM_UPDATE_INTERVAL {
        ahead := PastMoved(n, first, blocks, q.info, s, before, x, met, s[|before| + 1..]);
      } else {
        ahead := before;
        PastItem(n, first, blocks, q.info, s, before, x, met, s);
      }
      Refresh(x, a.now);
    }

    /** A turn at the item that settles the pull. */
    method TurnLast(a: PullArgs, ghost before: seq<Ptr>, x: Ptr) returns (stays: bool)
      requires Valid() && a.id < CLASSES && x in q.info && !q.info[x].crawler && before + [x] <= q.qs[a.id]
      modifies c, q
      ensures Valid() && c.held == old(c.held) && Shaped(old(c.st), x)
      ensures var v := Judge(old(c.st), x, a); c.st == Stopped(old(c.st), x, v) && stays == v.Stay?
    {
      Found(a.id, before, x);
      PlaceOf(q.Now(), q.qs, a.id, before, x);
      var v := Judged(c.st.items[x], q.bytes[a.id], a.curLru, a.totalBytes, a.evict, a.maxAge, a.now, a.settings);
      Conclude(x, v);
      stays := v.Stay?;
    }

    /** Before the turn: the item, the way on from it, and what the turn is to do. */
    lemma Look(a: PullArgs, n: int, first: bool, blocks: bool, x: Ptr, before: seq<Ptr>, tries: nat, met: nat,
        removed: nat)
      requires Valid() && a.id < CLASSES && tries > 0 && x in q.info && !q.info[x].crawler
      requires Walking(n, first, blocks, a.id, before + [x], x, met)
      ensures Shaped(c.st, x) && before + [x] <= q.qs[a.id] && met != n
      ensures Walking(n, first, blocks, a.id, before, Last(before, NULL), met + 1)
      ensures var (first', next) := Onward(a, first, c.st, x);
              var dead, warm := Dead(c.st.items[x], x, a.now, a.flushed), a.curLru == WARM_LRU && c.st.items[x].active;
              var r := Pulled(a, n, first, c.st, x, tries, met, removed);
              && (x in a.locked || dead || !warm ==> first' == first && next == Upcoming(q.info, before))
              && (x in a.locked ==> r == Pulled(a, n, first, c.st, next, tries - 1, met + 1, removed))
              && (x !in a.locked && dead ==>
                    r == Pulled(a, n, first, Reclaimed(c.st, x), next, tries - 1, met + 1, removed + 1))
              && (x !in a.locked && !dead && warm ==>
                    r == Pulled(a, n, first', Refreshed(c.st, x, a.now), next, tries - 1, met + 1, removed))
              && (x !in a.locked && !dead && !warm ==>
                    r == (Stopped(c.st, x, Judge(c.st, x, a)), removed + if Judge(c.st, x, a).Stay? then 0 else 1))
    {
      Found(a.id, before, x);
      PlaceOf(q.Now(), q.qs, a.id, before, x);
      PulledTurn(a, n, first, c.st, x, tries, met, removed);
      PastItem(n, first, blocks, q.info, q.qs[a.id], before, x, met, q.qs[a.id]);
    }

    /** One turn of the loop at an item. */
    method Turn(a: PullArgs, ghost n: int, ghost first: bool, ghost blocks: bool, x: Ptr, ghost before: seq<Ptr>,
        ghost tries: nat, ghost met: nat, removed: nat)
        returns (r: int, stop: bool, ghost first': bool, ghost ahead: seq<Ptr>)
      requires Valid() && a.id < CLASSES && tries > 0 && x in q.info && !q.info[x].crawler
      requires Walking(n, first, blocks, a.id, before + [x], x, met)
      modifies c, q
      ensures Valid() && c.held == old(c.held)
      ensures stop ==> (c.st, r) == Pulled(a, n, first, old(c.st), x, tries, met, removed)
      ensures !stop ==>
                && r >= 0 && Walking(n, first', blocks, a.id, ahead, Last(before, NULL), met + 1)
                && Pulled(a, n, first', c.st, Upcoming(q.info, ahead), tries - 1, met + 1, r) ==
                     Pulled(a, n, first, old(c.st), x, tries, met, removed)
    {
      Look(a, n, first, blocks, x, before, tries, met, removed);
      r, stop, first', ahead := removed, false, first, before;
      if x !in a.locked {
        if Dead(c.st.items[x], x, a.now, a.flushed) {
          TurnDead(a, n, first, blocks, x, before, met);
          r := removed + 1;
        } else if a.curLru == WARM_LRU && c.st.items[x].active {
          first' := Onward(a, first, c.st, x).0;
          ahead := TurnWarm(a, n, first, blocks, x, before, met);
        } else {
          var stays := TurnLast(a, before, x);
          r, stop := removed + (if stays then 0 else 1), true;
        }
      }
    }

    /** One turn of the loop. */
    method Step(a: PullArgs, ghost n: int, ghost first: bool, blocks: bool, search: Ptr, ghost ahead: seq<Ptr>,
        tries: nat, ghost met: nat, removed: nat)
        returns (next: Ptr, tries': nat, r: int, stop: bool, ghost first': bool, ghost ahead': seq<Ptr>,
        ghost met': nat)
      requires Valid() && a.id < CLASSES && tries > 0 && search != NULL &&
               Walking(n, first, blocks, a.id, ahead, search, met)
      modifies c, q
      ensures Valid() && c.held == old(c.held)
      ensures stop ==> (c.st, r) == Pulled(a, n, first, old(c.st), Upcoming(old(q.info), ahead), tries, met, removed)
      ensures !stop ==>
                && r >= 0 && Walking(n, first', blocks, a.id, ahead', next, met')
                && (tries' < tries || (tries' == tries && |ahead'| < |ahead|))
                && Pulled(a, n, first', c.st, Upcoming(q.info, ahead'), tries', met', r) ==
                     Pulled(a, n, first, old(c.st), Upcoming(old(q.info), ahead), tries, met, removed)
    {
      ghost var before := ahead[..|ahead| - 1];
      assert ahead == before + [search];
      PlaceOf(q.Now(), q.qs, a.id, before, search);
      next, r, stop, tries', first', ahead', met' := q.l[search].prev, removed, false, tries, first, before, met;
      if q.info[search].crawler {
        PastCrawler(n, first, blocks, q.info, q.qs[a.id], before, search, met);
        if blocks {
          r, stop := 0, true;
        }
      } else {
        PastItem(n, first, blocks, q.info, q.qs[a.id], before, search, met, q.qs[a.id]);
        r, stop, first', ahead' := Turn(a, n, first, blocks, search, before, tries, met, removed);
        met', tries' := met + 1, tries - 1;
      }
    }

    /** Where the walk begins. */
    lemma Begins(id: nat, blocks: bool)
      requires Valid() && id < CLASSES
      ensures Walking(BlockAt(id, blocks), CrawlerFirst(q.info, q.qs[id]), blocks, id, q.qs[id], q.tails[id], 0)
      ensures Upcoming(q.info, q.qs[id]) == TailOf(c.st, id)
    {
      assert L.QueueAt(q.Now(), q.qs, id);
      assert L.Real(q.info, q.qs[id]) == c.st.queues[id];
    }

    method PullLoop(a: PullArgs, blocks: bool) returns (removed: int)
      requires Valid() && a.id < CLASSES
      modifies c, q
      ensures Valid() && c.held == old(c.held) && (c.st, removed) == old(Goal(a, blocks))
    {
      ghost var n, first, ahead, met := BlockAt(a.id, blocks), CrawlerFirst(q.info, q.qs[a.id]), q.qs[a.id], 0;
      ghost var goal := Goal(a, blocks);
      Begins(a.id, blocks);
      var tries, search, stop := 5, q.tails[a.id], false;
      removed := 0;
      while !stop && tries > 0 && search != NULL
        invariant Valid() && c.held == old(c.held) && 0 <= tries
        invariant stop ==> (c.st, removed) == goal
        invariant !stop ==>
                  && removed >= 0 && Walking(n, first, blocks, a.id, ahead, search, met)
                  && Pulled(a, n, first, c.st, Upcoming(q.info, ahead), tries, met, removed) == goal
        decreases !stop, tries, |ahead|
      {
        search, tries, removed, stop, first, ahead, met :=
          Step(a, n, first, blocks, search, ahead, tries, met, removed);
      }
      if !stop && search == NULL {
        AtEnd(q.Now(), q.qs, a.id, ahead);
      }
    }

    /** lru_pull_tail.  The pull gives back every reference it takes; a key disappears only because its item was
        expired or flushed, or as the one eviction from COLD.  Told says what became of every item and every queue, and
        an item that was moved is not active any more, at the head of its new queue and otherwise as it was. */
    method PullTail(origId: nat, a: PullArgs, blocks: bool)
        returns (removed: int, ghost lost: set<Key>, ghost evicted: set<Key>, ghost passed: nat)
      requires Valid() && origId < 64 && a.curLru in {HOT_LRU, WARM_LRU, COLD_LRU, TEMP_LRU} &&
               a.id == origId + a.curLru
      modifies c, q
      ensures Valid() && c.held == old(c.held)
      ensures Outcome(a, old(BlockAt(a.id, blocks)), old(c.st), c.st, removed, lost, evicted)
      ensures (c.st, removed) == if origId == 0 then (old(c.st), 0) else old(Goal(a, blocks))
      ensures origId != 0 ==>
                Told(a, old(BlockAt(a.id, blocks)), old(CrawlerFirst(q.info, q.qs[a.id])), old(c.st), c.st, removed,
                  passed)
      ensures forall p | p in old(c.st).items && p in c.st.items && c.st.items[p].clsid != old(c.st).items[p].clsid ::
                MovedOver(old(c.st), c.st, p)
    {
      removed, lost, evicted, passed := 0, {}, {}, 0;
      if origId == 0 {
        return;
      }
      ghost var r, first := (c.st, 0), CrawlerFirst(q.info, q.qs[a.id]);
      r, lost, evicted := PulledKeeps(a, BlockAt(a.id, blocks), first, c.st, c.st, c.held, {}, TailOf(c.st, a.id), 5,
          0);
      r, passed := PullTold(a, BlockAt(a.id, blocks), first, c.st, c.held);
      PullMoves(a, BlockAt(a.id, blocks), first, c.st, c.held, r.0, r.1, passed);
      removed := PullLoop(a, blocks);
    }
  }
}
