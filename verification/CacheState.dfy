/** Items as src/items.c keeps them: flags, reference counts, hash index and LRU queues, seen as one state.
    The index stands for the hash table and the queues for the linked lists, each proved elsewhere. */
module CacheState {
  import opened Basics
  import opened Addresses
  import L = LruQueues

  const CLASSES: nat := 256
  const HOT_LRU: nat := 0
  const WARM_LRU: nat := 64
  const COLD_LRU: nat := 128
  const TEMP_LRU: nat := 192

  datatype Item = Item(key: Key, clsid: nat, ntotal: nat, linked: bool, fetched: bool, active: bool, refcount: int,
      time: int, exptime: int)

  /** freed records the calls of item_free; bumps the entries waiting in the bump buffers. */
  datatype State = State(items: map<Ptr, Item>, queues: seq<seq<Ptr>>, index: map<Key, Ptr>, bumps: seq<Ptr>,
      freed: seq<Ptr>)

  /** How often p occurs in s. */
  function Count(s: seq<Ptr>, p: Ptr): nat {
    if s == [] then 0 else (if s[0] == p then 1 else 0) + Count(s[1..], p)
  }

  /** The reference count of p is its linked bit plus everyone who holds it: workers and a running pull (held),
      and pending bump entries. */
  ghost predicate Counted(st: State, held: multiset<Ptr>, p: Ptr) {
    p in st.items && st.items[p].refcount == Bit(st.items[p].linked) + held[p] + Count(st.bumps, p) &&
        st.items[p].refcount > 0
  }

  /** A linked item is the index's item for its key and is in the queue its class names. */
  ghost predicate Reachable(st: State, p: Ptr) {
    p != NULL && p in st.items && st.items[p].clsid < CLASSES && |st.queues| == CLASSES &&
    (st.items[p].linked ==>
       && st.items[p].key in st.index && st.index[st.items[p].key] == p
       && p in st.queues[st.items[p].clsid])
  }

  /** A queue holds linked items of its own class, none of them twice. */
  ghost predicate QueueOK(st: State, id: nat)
    requires |st.queues| == CLASSES && id < CLASSES
  {
    && Distinct(st.queues[id])
    && forall p <- st.queues[id] :: p in st.items && st.items[p].linked && st.items[p].clsid == id
  }

  ghost predicate IndexOK(st: State, k: Key)
    requires k in st.index
  {
    st.index[k] in st.items && st.items[st.index[k]].linked && st.items[st.index[k]].key == k
  }

  ghost predicate Inv(st: State, held: multiset<Ptr>) {
    && |st.queues| == CLASSES
    && (forall p {:trigger Counted(st, held, p)} | p in st.items || p in held || p in st.bumps :: Counted(st, held, p))
    && (forall p {:trigger Reachable(st, p)} | p in st.items :: Reachable(st, p))
    && (forall id {:trigger QueueOK(st, id)} | 0 <= id < CLASSES :: QueueOK(st, id))
    && (forall k {:trigger IndexOK(st, k)} | k in st.index :: IndexOK(st, k))
  }

  lemma {:induction false} WithoutMembers(s: seq<Ptr>, x: Ptr)
    requires Distinct(s)
    ensures Distinct(L.Without(s, x)) && forall p :: p in L.Without(s, x) <==> p in s && p != x
    decreases s
  {
    if s != [] {
      assert forall p :: p in s <==> p == s[0] || p in s[1..];
      WithoutMembers(s[1..], x);
      if s[0] != x {
        assert ([s[0]] + L.Without(s[1..], x))[1..] == L.Without(s[1..], x);
      }
    }
  }

  lemma {:induction false} WithoutLength(s: seq<Ptr>, x: Ptr)
    requires x in s
    ensures |L.Without(s, x)| == |s| - 1
    decreases s
  {
    if s[0] != x { WithoutLength(s[1..], x); }
  }

  /** item_free. */
  function Free(st: State, p: Ptr): State {
    st.(items := st.items - {p}, freed := st.freed + [p])
  }

  /** refcount_incr by somebody new. */
  function Hold(st: State, p: Ptr): State
    requires p in st.items
  {
    st.(items := st.items[p := st.items[p].(refcount := st.items[p].refcount + 1)])
  }

  /** do_item_remove. */
  function Drop(st: State, p: Ptr): State
    requires p in st.items
  {
    var it := st.items[p].(refcount := st.items[p].refcount - 1);
    var st' := st.(items := st.items[p := it]);
    if it.refcount == 0 then Free(st', p) else st'
  }

  lemma HoldKeeps(st: State, held: multiset<Ptr>, p: Ptr)
    requires Inv(st, held) && p in st.items
    ensures Inv(Hold(st, p), held + multiset{p})
  {
    var st', h' := Hold(st, p), held + multiset{p};
    forall q | q in st'.items || q in h' || q in st'.bumps ensures Counted(st', h', q) { assert Counted(st, held, q); }
    forall q | q in st'.items ensures Reachable(st', q) { assert Reachable(st, q); }
    forall id | 0 <= id < CLASSES ensures QueueOK(st', id) { assert QueueOK(st, id); }
    forall k | k in st'.index ensures IndexOK(st', k) { assert IndexOK(st, k); }
  }

  lemma DropKeeps(st: State, held: multiset<Ptr>, p: Ptr)
    requires Inv(st, held) && p in held
    ensures p in st.items && Inv(Drop(st, p), held - multiset{p})
  {
    assert Counted(st, held, p);
    var st', h' := Drop(st, p), held - multiset{p};
    assert Reachable(st, p);
    forall q | q in st'.items || q in h' || q in st'.bumps ensures Counted(st', h', q) {
      assert Counted(st, held, q);
      CountPositive(st.bumps, q);
    }
    forall q | q in st'.items ensures Reachable(st', q) { assert Reachable(st, q); }
    forall id | 0 <= id < CLASSES ensures QueueOK(st', id) { assert QueueOK(st, id); }
    forall k | k in st'.index ensures IndexOK(st', k) { assert IndexOK(st, k); }
  }

  lemma {:induction false} CountPositive(s: seq<Ptr>, p: Ptr)
    ensures Count(s, p) > 0 <==> p in s
    decreases s
  {
    if s != [] {
      CountPositive(s[1..], p);
      assert p in s <==> p == s[0] || p in s[1..];
    }
  }

  /** item_free runs exactly when the last holder lets go, and by then the item is out of the index and of
      every queue, and no bump entry names it. */
  lemma FreedExactly(st: State, held: multiset<Ptr>, p: Ptr)
    requires Inv(st, held) && p in held
    ensures p in st.items
    ensures Drop(st, p).freed == (if st.items[p].refcount == 1 then st.freed + [p] else st.freed)
    ensures st.items[p].refcount == 1 <==> !st.items[p].linked && held[p] == 1 && p !in st.bumps
    ensures st.items[p].refcount == 1 ==>
              && p !in Drop(st, p).items && (forall k | k in st.index :: st.index[k] != p)
              && (forall id | 0 <= id < CLASSES :: p !in st.queues[id])
  {
    assert Counted(st, held, p);
    CountPositive(st.bumps, p);
    if st.items[p].refcount == 1 {
      forall k | k in st.index ensures st.index[k] != p { assert IndexOK(st, k); }
      forall id | 0 <= id < CLASSES ensures p !in st.queues[id] { assert QueueOK(st, id); }
    }
  }

  /** do_item_link. */
  function LinkItem(st: State, p: Ptr, now: int): State
    requires p in st.items && st.items[p].clsid < CLASSES && |st.queues| == CLASSES
  {
    var it := st.items[p];
    st.(items := st.items[p := it.(linked := true, time := now, refcount := it.refcount + 1)],
        index := st.index[it.key := p],
        queues := st.queues[it.clsid := [p] + st.queues[it.clsid]])
  }

  lemma LinkKeeps(st: State, held: multiset<Ptr>, p: Ptr, now: int)
    requires Inv(st, held) && p in st.items && !st.items[p].linked && st.items[p].key !in st.index
    ensures st.items[p].clsid < CLASSES && Inv(LinkItem(st, p, now), held)
  {
    assert Reachable(st, p);
    var st' := LinkItem(st, p, now);
    var id := st.items[p].clsid;
    forall q | q in st'.items || q in held || q in st'.bumps ensures Counted(st', held, q) {
      assert Counted(st, held, q);
    }
    forall q | q in st'.items ensures Reachable(st', q) { assert Reachable(st, q); }
    forall j | 0 <= j < CLASSES ensures QueueOK(st', j) {
      assert QueueOK(st, j);
      assert p !in st.queues[j];
      if j == id { assert ([p] + st.queues[j])[1..] == st.queues[j]; }
    }
    forall k | k in st'.index ensures IndexOK(st', k) {
      if k != st.items[p].key { assert IndexOK(st, k); }
    }
  }

  /** do_item_unlink and do_item_unlink_nolock. */
  function UnlinkItem(st: State, p: Ptr): State
    requires p in st.items && st.items[p].clsid < CLASSES && |st.queues| == CLASSES
  {
    var it := st.items[p];
    if !it.linked then st
    else Drop(st.(items := st.items[p := it.(linked := false)],
                  index := st.index - {it.key},
                  queues := st.queues[it.clsid := L.Without(st.queues[it.clsid], p)]), p)
  }

  lemma UnlinkKeeps(st: State, held: multiset<Ptr>, p: Ptr)
    requires Inv(st, held) && p in st.items
    ensures st.items[p].clsid < CLASSES && Inv(UnlinkItem(st, p), held)
    ensures p in held ==> p in UnlinkItem(st, p).items && UnlinkItem(st, p).freed == st.freed
    ensures UnlinkItem(st, p).index == st.index - (if st.items[p].linked then {st.items[p].key} else {})
  {
    assert Reachable(st, p) && Counted(st, held, p);
    if st.items[p].linked {
      var st', id := UnlinkItem(st, p), st.items[p].clsid;
      assert QueueOK(st, id);
      WithoutMembers(st.queues[id], p);
      CountPositive(st.bumps, p);
      forall q | q in st'.items || q in held || q in st'.bumps ensures Counted(st', held, q) {
        assert Counted(st, held, q);
      }
      forall q | q in st'.items ensures Reachable(st', q) { assert Reachable(st, q); }
      forall j | 0 <= j < CLASSES ensures QueueOK(st', j) { assert QueueOK(st, j); }
      forall k | k in st'.index ensures IndexOK(st', k) {
        assert IndexOK(st, k) && IndexOK(st, st.items[p].key);
      }
    }
  }

  /** Out of its queue, into the head of the queue cls. */
  function Relocate(st: State, p: Ptr, cls: nat): State
    requires p in st.items && st.items[p].clsid < CLASSES && |st.queues| == CLASSES && cls < CLASSES
  {
    var it := st.items[p];
    var qs := st.queues[it.clsid := L.Without(st.queues[it.clsid], p)];
    st.(items := st.items[p := it.(clsid := cls)], queues := qs[cls := [p] + qs[cls]])
  }

  lemma RelocateKeeps(st: State, held: multiset<Ptr>, p: Ptr, cls: nat)
    requires Inv(st, held) && p in st.items && st.items[p].linked && cls < CLASSES
    ensures st.items[p].clsid < CLASSES && Inv(Relocate(st, p, cls), held)
  {
    assert Reachable(st, p);
    var st', id := Relocate(st, p, cls), st.items[p].clsid;
    assert QueueOK(st, id);
    WithoutMembers(st.queues[id], p);
    forall q | q in st'.items || q in held || q in st'.bumps ensures Counted(st', held, q) {
      assert Counted(st, held, q);
    }
    forall q | q in st'.items ensures Reachable(st', q) { assert Reachable(st, q); }
    forall j | 0 <= j < CLASSES ensures QueueOK(st', j) {
      assert QueueOK(st, j);
      var s := if j == id then L.Without(st.queues[id], p) else st.queues[j];
      assert p !in s && Distinct(s);
      if j == cls { assert ([p] + s)[1..] == s; }
    }
    forall k | k in st'.index ensures IndexOK(st', k) { assert IndexOK(st, k); }
  }

  /** Changing hit markers or times of an item. */
  lemma TouchKeeps(st: State, held: multiset<Ptr>, p: Ptr, it: Item)
    requires Inv(st, held) && p in st.items
    requires it == st.items[p].(fetched := it.fetched, active := it.active, time := it.time, exptime := it.exptime)
    ensures Inv(st.(items := st.items[p := it]), held)
  {
    var st' := st.(items := st.items[p := it]);
    forall q | q in st'.items || q in held || q in st'.bumps ensures Counted(st', held, q) {
      assert Counted(st, held, q);
    }
    forall q | q in st'.items ensures Reachable(st', q) { assert Reachable(st, q); }
    forall j | 0 <= j < CLASSES ensures QueueOK(st', j) { assert QueueOK(st, j); }
    forall k | k in st'.index ensures IndexOK(st', k) { assert IndexOK(st, k); }
  }
}
