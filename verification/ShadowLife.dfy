/** The life of shadow items (src/shadows.c): records of evicted keys, in a hash index, a bounded queue per class and a
    tree, pinned by lookups and stores while others evict them. A key is in the cache or has a shadow, never both. */
module ShadowLife {
  import opened Basics
  import opened Addresses
  import C = CacheState
  import L = LruQueues

  /** inTree says that tree_node is not NULL. */
  datatype Shadow = Shadow(key: Key, clsid: nat, refcnt: int, dead: bool, inTree: bool)

  /** Where a store of a missing key stands: it looked for the shadow and holds a pin if there was one; it made sure the
      shadow is evicted; it gave the pin back and only has to link. It holds the item lock of its key throughout. */
  datatype Storing = Pinned(p: Ptr) | Evicted(p: Ptr) | Ready

  /** Shadow items are named in the order of their allocation; freed lists the calls of shadow_maybe_free.
      pins are the references of lookups, linked the keys in the cache. */
  datatype State = State(items: map<Ptr, Shadow>, index: map<Key, Ptr>, queues: seq<seq<Ptr>>, sizes: seq<int>,
      freed: seq<Ptr>, next: Ptr,
                         pins: multiset<Ptr>, linked: set<Key>, storing: map<Key, Storing>)

  /** A store of key k keeps p pinned. */
  predicate StoreHolds(storing: map<Key, Storing>, k: Key, p: Ptr) {
    k in storing && !storing[k].Ready? && storing[k].p == p
  }

  /** All references besides the one of the structures. */
  function Pins(st: State, p: Ptr): int {
    st.pins[p] + if p in st.items then Bit(StoreHolds(st.storing, st.items[p].key, p)) else 0
  }

  /** owed are references that a thread has given up but not yet taken off refcnt. */
  ghost predicate ItemOK(st: State, owed: multiset<Ptr>, p: Ptr) {
    p in st.items && p < st.next && p !in st.freed &&
    var it := st.items[p];
    && it.refcnt == Bit(!it.dead) + Pins(st, p) + owed[p] && it.refcnt > 0 && it.clsid < |st.queues|
    && (!it.dead ==> it.inTree && it.key in st.index && st.index[it.key] == p && p in st.queues[it.clsid])
    && (it.dead ==> !it.inTree)
  }

  /** The queue holds the live items of its class, as many as its counter says and no more than allowed. */
  ghost predicate QueueOK(st: State, max: seq<nat>, c: nat)
    requires c < |st.queues| == |st.sizes| == |max|
  {
    && Distinct(st.queues[c]) && st.sizes[c] == |st.queues[c]| <= max[c]
    && forall p <- st.queues[c] :: p in st.items && !st.items[p].dead && st.items[p].clsid == c
  }

  ghost predicate IndexOK(st: State, k: Key)
    requires k in st.index
  {
    st.index[k] in st.items && !st.items[st.index[k]].dead && st.items[st.index[k]].key == k && k !in st.linked
  }

  /** A store past its eviction has no shadow left to meet; one before it pins the only one there can be. */
  ghost predicate StoringOK(st: State, k: Key)
    requires k in st.storing
  {
    k !in st.linked &&
    match st.storing[k]
    case Pinned(p) => p in st.items && st.items[p].key == k && (k in st.index ==> st.index[k] == p)
    case Evicted(p) => p in st.items && st.items[p].key == k && k !in st.index
    case Ready => k !in st.index
  }

  ghost predicate Sound(st: State, max: seq<nat>) {
    |st.queues| == |st.sizes| == |max| && Distinct(st.freed) && forall p <- st.freed :: p < st.next
  }

  ghost predicate Owing(st: State, max: seq<nat>, owed: multiset<Ptr>) {
    && Sound(st, max)
    && (forall p {:trigger ItemOK(st, owed, p)} | p in st.items || p in st.pins || p in owed :: ItemOK(st, owed, p))
    && (forall c {:trigger QueueOK(st, max, c)} | 0 <= c < |max| :: QueueOK(st, max, c))
    && (forall k {:trigger IndexOK(st, k)} | k in st.index :: IndexOK(st, k))
    && (forall k {:trigger StoringOK(st, k)} | k in st.storing :: StoringOK(st, k))
  }

  ghost predicate Inv(st: State, max: seq<nat>) { Owing(st, max, multiset{}) }

  /** The end of shadow_release and of the eviction: one reference less, and the item goes with the last one if dead. */
  function DropRef(st: State, p: Ptr): State
    requires p in st.items
  {
    var it := st.items[p].(refcnt := st.items[p].refcnt - 1);
    if it.refcnt == 0 && it.dead then st.(items := st.items - {p}, freed := st.freed + [p])
        else st.(items := st.items[p := it])
  }

  lemma DropKeeps(st: State, max: seq<nat>, p: Ptr)
    requires Owing(st, max, multiset{p})
    ensures p in st.items && Inv(DropRef(st, p), max)
    ensures p in DropRef(st, p).freed <==> st.items[p].dead && Pins(st, p) == 0
  {
    assert ItemOK(st, multiset{p}, p);
    if st.items[p].dead && Pins(st, p) == 0 { FreeKeeps(st, max, p); } else { LowerKeeps(st, max, p); }
  }

  lemma LowerKeeps(st: State, max: seq<nat>, p: Ptr)
    requires Owing(st, max, multiset{p}) && p in st.items && !(st.items[p].dead && Pins(st, p) == 0)
    ensures Inv(st.(items := st.items[p := st.items[p].(refcnt := st.items[p].refcnt - 1)]), max)
  {
    var owed, st' := multiset{p}, st.(items := st.items[p := st.items[p].(refcnt := st.items[p].refcnt - 1)]);
    forall q | q in st'.items || q in st'.pins ensures ItemOK(st', multiset{}, q) { assert ItemOK(st, owed, q); }
    forall c | 0 <= c < |max| ensures QueueOK(st', max, c) { assert QueueOK(st, max, c); }
    forall k | k in st'.index ensures IndexOK(st', k) { assert IndexOK(st, k); }
    forall k | k in st'.storing ensures StoringOK(st', k) { assert StoringOK(st, k); }
  }

  lemma FreeKeeps(st: State, max: seq<nat>, p: Ptr)
    requires Owing(st, max, multiset{p}) && p in st.items && st.items[p].dead && Pins(st, p) == 0
    ensures Inv(st.(items := st.items - {p}, freed := st.freed + [p]), max)
  {
    var owed, st' := multiset{p}, st.(items := st.items - {p}, freed := st.freed + [p]);
    assert ItemOK(st, owed, p);
    DistinctSplit(st.freed, [p]);
    forall q | q in st'.items || q in st'.pins ensures ItemOK(st', multiset{}, q) { assert ItemOK(st, owed, q); }
    forall c | 0 <= c < |max| ensures QueueOK(st', max, c) { assert QueueOK(st, max, c); }
    forall k | k in st'.index ensures IndexOK(st', k) { assert IndexOK(st, k); }
    forall k | k in st'.storing ensures StoringOK(st', k) { assert StoringOK(st, k); }
  }

  /** shadow_release by a lookup. */
  function Unpin(st: State, p: Ptr): State
    requires p in st.items
  {
    DropRef(st.(pins := st.pins - multiset{p}), p)
  }

  lemma UnpinKeeps(st: State, max: seq<nat>, p: Ptr)
    requires Inv(st, max) && p in st.pins
    ensures p in st.items && Inv(Unpin(st, p), max)
    ensures p in Unpin(st, p).freed <==> st.items[p].dead && Pins(st, p) == 1
  {
    var st1, owed := st.(pins := st.pins - multiset{p}), multiset{p};
    assert ItemOK(st, multiset{}, p);
    forall q | q in st1.items || q in st1.pins || q in owed ensures ItemOK(st1, owed, q) {
      assert ItemOK(st, multiset{}, q);
    }
    forall c | 0 <= c < |max| ensures QueueOK(st1, max, c) { assert QueueOK(st, max, c); }
    forall k | k in st1.index ensures IndexOK(st1, k) { assert IndexOK(st, k); }
    forall k | k in st1.storing ensures StoringOK(st1, k) { assert StoringOK(st, k); }
    DropKeeps(st1, max, p);
  }

  /** The first part of evict_shadowq_item_locked: out of queue, tree and index and dead. */
  function Bury(st: State, p: Ptr): State
    requires p in st.items && st.items[p].clsid < |st.queues| == |st.sizes|
  {
    var it := st.items[p];
    st.(queues := st.queues[it.clsid := L.Without(st.queues[it.clsid], p)],
        sizes := st.sizes[it.clsid := st.sizes[it.clsid] - 1],
        items := st.items[p := it.(dead := true, inTree := false)], index := st.index - {it.key})
  }

  lemma BuryQueues(st: State, max: seq<nat>, p: Ptr)
    requires Inv(st, max) && p in st.items && !st.items[p].dead
    ensures st.items[p].clsid < |st.queues|
    ensures var st' := Bury(st, p); forall c {:trigger QueueOK(st', max, c)} | 0 <= c < |max| :: QueueOK(st', max, c)
    ensures var c := st.items[p].clsid; forall q :: q in Bury(st, p).queues[c] <==> q in st.queues[c] && q != p
  {
    assert ItemOK(st, multiset{}, p);
    var c0, st' := st.items[p].clsid, Bury(st, p);
    assert QueueOK(st, max, c0);
    C.WithoutMembers(st.queues[c0], p);
    C.WithoutLength(st.queues[c0], p);
    forall c | 0 <= c < |max| ensures QueueOK(st', max, c) { assert QueueOK(st, max, c); }
  }

  lemma BuryKeeps(st: State, max: seq<nat>, p: Ptr)
    requires Inv(st, max) && p in st.items && !st.items[p].dead
    ensures st.items[p].clsid < |st.queues| && Owing(Bury(st, p), max, multiset{p})
  {
    BuryQueues(st, max, p);
    assert ItemOK(st, multiset{}, p);
    var st', owed := Bury(st, p), multiset{p};
    forall q | q in st'.items || q in st'.pins || q in owed ensures ItemOK(st', owed, q) {
      assert ItemOK(st, multiset{}, q);
    }
    forall k | k in st'.index ensures IndexOK(st', k) { assert IndexOK(st, k); }
    forall k | k in st'.storing ensures StoringOK(st', k) { assert StoringOK(st, k); }
  }

  /** evict_shadowq_item_locked. */
  function Evict(st: State, p: Ptr): State
    requires p in st.items && st.items[p].clsid < |st.queues| == |st.sizes|
  {
    if st.items[p].dead then st else DropRef(Bury(st, p), p)
  }

  /** Eviction frees the item at once exactly when nobody has it pinned. */
  lemma EvictKeeps(st: State, max: seq<nat>, p: Ptr)
    requires Inv(st, max) && p in st.items
    ensures st.items[p].clsid < |st.queues| && Inv(Evict(st, p), max)
    ensures !st.items[p].dead ==> (p in Evict(st, p).freed <==> Pins(st, p) == 0)
  {
    assert ItemOK(st, multiset{}, p);
    if !st.items[p].dead {
      BuryKeeps(st, max, p);
      DropKeeps(Bury(st, p), max, p);
    }
  }

  /** insert_shadowq_item_locked with the index and tree inserts that go before it. */
  function Enter(st: State, k: Key, c: nat): State
    requires c < |st.queues| == |st.sizes|
  {
    st.(items := st.items[st.next := Shadow(k, c, 1, false, true)], index := st.index[k := st.next],
        queues := st.queues[c := [st.next] + st.queues[c]], sizes := st.sizes[c := st.sizes[c] + 1],
            next := st.next + 1)
  }

  /** lru_pull_tail evicting key k of class c: the shadow goes in, the oldest one out if there are too many, and the
      item leaves the cache. */
  function Pull(st: State, max: seq<nat>, k: Key, c: nat): State
    requires c < |st.queues| == |st.sizes| == |max|
  {
    var st1 := Enter(st, k, c).(linked := st.linked - {k});
    if st1.sizes[c] > max[c] then Trim(st1, c) else st1
  }

  function Trim(st: State, c: nat): State
    requires c < |st.queues| == |st.sizes|
  {
    var q := st.queues[c];
    if q != [] && q[|q| - 1] in st.items && st.items[q[|q| - 1]].clsid < |st.queues| then Evict(st, q[|q| - 1]) else st
  }

  ghost function Raised(max: seq<nat>, c: nat): seq<nat>
    requires c < |max|
  {
    max[c := max[c] + 1]
  }

  lemma EnterKeeps(st: State, max: seq<nat>, k: Key, c: nat)
    requires Inv(st, max) && k in st.linked && c < |max|
    ensures k !in st.index && Inv(Enter(st, k, c).(linked := st.linked - {k}), Raised(max, c))
  {
    var st', max' := Enter(st, k, c).(linked := st.linked - {k}), Raised(max, c);
    assert k in st.index ==> IndexOK(st, k);
    assert st.next !in st.items && st.next !in st.pins && st.next !in st.freed by {
      assert st.next in st.items || st.next in st.pins ==> ItemOK(st, multiset{}, st.next);
    }
    forall q | q in st'.items || q in st'.pins ensures ItemOK(st', multiset{}, q) {
      if q != st.next { assert ItemOK(st, multiset{}, q); } else { FreshPins(st, max); }
    }
    forall j | 0 <= j < |max'| ensures QueueOK(st', max', j) {
      assert QueueOK(st, max, j);
      if j == c { assert st'.queues[c][1..] == st.queues[c]; }
    }
    forall l | l in st'.index ensures IndexOK(st', l) { if l != k { assert IndexOK(st, l); } }
    forall l | l in st'.storing ensures StoringOK(st', l) { assert StoringOK(st, l); }
  }

  lemma FreshPins(st: State, max: seq<nat>)
    requires Inv(st, max) && st.next !in st.items
    ensures st.pins[st.next] == 0 && forall k :: !StoreHolds(st.storing, k, st.next)
  {
    assert st.next in st.pins ==> ItemOK(st, multiset{}, st.next);
    forall k ensures !StoreHolds(st.storing, k, st.next) { if k in st.storing { assert StoringOK(st, k); } }
  }

  lemma Narrow(st: State, max: seq<nat>, c: nat)
    requires c < |max| && Inv(st, Raised(max, c)) && st.sizes[c] <= max[c]
    ensures Inv(st, max)
  {
    forall j | 0 <= j < |max| ensures QueueOK(st, max, j) { assert QueueOK(st, Raised(max, c), j); }
  }

  lemma PullKeeps(st: State, max: seq<nat>, k: Key, c: nat)
    requires Inv(st, max) && k in st.linked && c < |max|
    ensures Inv(Pull(st, max, k, c), max)
  {
    EnterKeeps(st, max, k, c);
    var st1 := Enter(st, k, c).(linked := st.linked - {k});
    assert QueueOK(st1, Raised(max, c), c);
    assert QueueOK(st, max, c);
    if st1.sizes[c] > max[c] {
      var p := st1.queues[c][|st1.queues[c]| - 1];
      EvictKeeps(st1, Raised(max, c), p);
      assert Evict(st1, p).sizes[c] == max[c];
    }
    Narrow(Pull(st, max, k, c), max, c);
  }

  datatype Event =
    | StoreStart(key: Key) | StoreEvict(key: Key) | StoreRelease(key: Key) | StoreLink(key: Key)
    | PullEvict(key: Key, clsid: nat) | Unlink(key: Key)
    | Pin(key: Key) | Touch(p: Ptr) | Release(p: Ptr)

  predicate Enabled(st: State, max: seq<nat>, e: Event) {
    |st.queues| == |st.sizes| == |max| &&
    match e
    case StoreStart(k) => k !in st.linked && k !in st.storing
    case StoreEvict(k) => k in st.storing && st.storing[k].Pinned? && st.storing[k].p in st.items &&
        st.items[st.storing[k].p].clsid < |max|
    case StoreRelease(k) => k in st.storing && st.storing[k].Evicted? && st.storing[k].p in st.items
    case StoreLink(k) => k in st.storing && st.storing[k].Ready?
    case PullEvict(k, c) => k in st.linked && c < |max|
    case Unlink(k) => k in st.linked
    case Pin(k) => k in st.index && st.index[k] in st.items
    case Touch(p) => p in st.pins && p in st.items && st.items[p].clsid < |max|
    case Release(p) => p in st.pins && p in st.items
  }

  /** shadow_find_and_pin succeeding. */
  function Raise(st: State, p: Ptr): State
    requires p in st.items
  {
    st.(items := st.items[p := st.items[p].(refcnt := st.items[p].refcnt + 1)])
  }

  /** slabs_shadowq_lookup between its pin and its release: to the head of the queue, unless evicted meanwhile. */
  function ToHead(st: State, p: Ptr): State
    requires p in st.items && st.items[p].clsid < |st.queues|
  {
    var c := st.items[p].clsid;
    if !st.items[p].inTree then st else st.(queues := st.queues[c := [p] + L.Without(st.queues[c], p)])
  }

  function Next(st: State, max: seq<nat>, e: Event): State
    requires Enabled(st, max, e)
  {
    match e
    case StoreStart(k) =>
      if k in st.index && st.index[k] in st.items
          then Raise(st, st.index[k]).(storing := st.storing[k := Pinned(st.index[k])])
      else st.(storing := st.storing[k := Ready])
    case StoreEvict(k) => var p := st.storing[k].p; Evict(st, p).(storing := st.storing[k := Evicted(p)])
    case StoreRelease(k) => DropRef(st.(storing := st.storing[k := Ready]), st.storing[k].p)
    case StoreLink(k) => st.(storing := st.storing - {k}, linked := st.linked + {k})
    case PullEvict(k, c) => Pull(st, max, k, c)
    case Unlink(k) => st.(linked := st.linked - {k})
    case Pin(k) => Raise(st, st.index[k]).(pins := st.pins + multiset{st.index[k]})
    case Touch(p) => ToHead(st, p)
    case Release(p) => Unpin(st, p)
  }

  lemma StartItems(st: State, max: seq<nat>, k: Key)
    requires Inv(st, max) && Enabled(st, max, StoreStart(k))
    ensures var st' := Next(st, max, StoreStart(k));
            && (forall q {:trigger ItemOK(st', multiset{}, q)} | q in st'.items || q in st'.pins ::
                  ItemOK(st', multiset{}, q))
  {
    var st' := Next(st, max, StoreStart(k));
    if k in st.index { assert IndexOK(st, k); }
    forall q | q in st'.items || q in st'.pins ensures ItemOK(st', multiset{}, q) { assert ItemOK(st, multiset{}, q); }
  }

  lemma StartKeeps(st: State, max: seq<nat>, k: Key)
    requires Inv(st, max) && Enabled(st, max, StoreStart(k))
    ensures Inv(Next(st, max, StoreStart(k)), max)
  {
    var st' := Next(st, max, StoreStart(k));
    if k in st.index { assert IndexOK(st, k); }
    StartItems(st, max, k);
    forall c | 0 <= c < |max| ensures QueueOK(st', max, c) { assert QueueOK(st, max, c); }
    forall l | l in st'.index ensures IndexOK(st', l) { assert IndexOK(st, l); }
    forall l | l in st'.storing ensures StoringOK(st', l) { if l != k { assert StoringOK(st, l); } }
  }

  lemma StoreEvictKeeps(st: State, max: seq<nat>, k: Key)
    requires Inv(st, max) && Enabled(st, max, StoreEvict(k))
    ensures Inv(Next(st, max, StoreEvict(k)), max)
  {
    var p := st.storing[k].p;
    assert StoringOK(st, k);
    assert ItemOK(st, multiset{}, p);
    EvictKeeps(st, max, p);
    assert k in st.index ==> IndexOK(st, k);
    Rephase(Evict(st, p), max, k, p);
  }

  lemma Rephase(st: State, max: seq<nat>, k: Key, p: Ptr)
    requires Inv(st, max) && k in st.storing && st.storing[k] == Pinned(p) && k !in st.index
    ensures Inv(st.(storing := st.storing[k := Evicted(p)]), max)
  {
    var st' := st.(storing := st.storing[k := Evicted(p)]);
    forall q | q in st'.items || q in st'.pins ensures ItemOK(st', multiset{}, q) { assert ItemOK(st, multiset{}, q); }
    forall c | 0 <= c < |max| ensures QueueOK(st', max, c) { assert QueueOK(st, max, c); }
    forall l | l in st'.index ensures IndexOK(st', l) { assert IndexOK(st, l); }
    forall l | l in st'.storing ensures StoringOK(st', l) { assert StoringOK(st, l); }
  }

  lemma StoreReleaseKeeps(st: State, max: seq<nat>, k: Key)
    requires Inv(st, max) && Enabled(st, max, StoreRelease(k))
    ensures Inv(Next(st, max, StoreRelease(k)), max)
  {
    var p, owed := st.storing[k].p, multiset{st.storing[k].p};
    var st1 := st.(storing := st.storing[k := Ready]);
    assert StoringOK(st, k);
    forall q | q in st1.items || q in st1.pins || q in owed ensures ItemOK(st1, owed, q) {
      assert ItemOK(st, multiset{}, q);
    }
    forall c | 0 <= c < |max| ensures QueueOK(st1, max, c) { assert QueueOK(st, max, c); }
    forall l | l in st1.index ensures IndexOK(st1, l) { assert IndexOK(st, l); }
    forall l | l in st1.storing ensures StoringOK(st1, l) { assert StoringOK(st, l); }
    DropKeeps(st1, max, p);
  }

  lemma LinkKeeps(st: State, max: seq<nat>, k: Key)
    requires Inv(st, max) && Enabled(st, max, StoreLink(k))
    ensures Inv(Next(st, max, StoreLink(k)), max)
  {
    var st' := Next(st, max, StoreLink(k));
    assert StoringOK(st, k);
    forall q | q in st'.items || q in st'.pins ensures ItemOK(st', multiset{}, q) { assert ItemOK(st, multiset{}, q); }
    forall c | 0 <= c < |max| ensures QueueOK(st', max, c) { assert QueueOK(st, max, c); }
    forall l | l in st'.index ensures IndexOK(st', l) { assert IndexOK(st, l); }
    forall l | l in st'.storing ensures StoringOK(st', l) { assert StoringOK(st, l); }
  }

  lemma PinKeeps(st: State, max: seq<nat>, k: Key)
    requires Inv(st, max) && Enabled(st, max, Pin(k))
    ensures Inv(Next(st, max, Pin(k)), max)
  {
    var st' := Next(st, max, Pin(k));
    assert IndexOK(st, k);
    forall q | q in st'.items || q in st'.pins ensures ItemOK(st', multiset{}, q) { assert ItemOK(st, multiset{}, q); }
    forall c | 0 <= c < |max| ensures QueueOK(st', max, c) { assert QueueOK(st, max, c); }
    forall l | l in st'.index ensures IndexOK(st', l) { assert IndexOK(st, l); }
    forall l | l in st'.storing ensures StoringOK(st', l) { assert StoringOK(st, l); }
  }

  lemma TouchKeeps(st: State, max: seq<nat>, p: Ptr)
    requires Inv(st, max) && Enabled(st, max, Touch(p))
    ensures Inv(Next(st, max, Touch(p)), max)
  {
    var c0, st' := st.items[p].clsid, ToHead(st, p);
    assert ItemOK(st, multiset{}, p);
    if st.items[p].inTree {
      assert QueueOK(st, max, c0);
      C.WithoutMembers(st.queues[c0], p);
      C.WithoutLength(st.queues[c0], p);
      assert st'.queues[c0][1..] == L.Without(st.queues[c0], p);
      forall q | q in st'.items || q in st'.pins ensures ItemOK(st', multiset{}, q) {
        assert ItemOK(st, multiset{}, q);
      }
      forall c | 0 <= c < |max| ensures QueueOK(st', max, c) { assert QueueOK(st, max, c); }
      forall l | l in st'.index ensures IndexOK(st', l) { assert IndexOK(st, l); }
      forall l | l in st'.storing ensures StoringOK(st', l) { assert StoringOK(st, l); }
    }
  }

  lemma UnlinkKeeps(st: State, max: seq<nat>, k: Key)
    requires Inv(st, max) && Enabled(st, max, Unlink(k))
    ensures Inv(Next(st, max, Unlink(k)), max)
  {
    var st' := Next(st, max, Unlink(k));
    forall q | q in st'.items || q in st'.pins ensures ItemOK(st', multiset{}, q) { assert ItemOK(st, multiset{}, q); }
    forall c | 0 <= c < |max| ensures QueueOK(st', max, c) { assert QueueOK(st, max, c); }
    forall l | l in st'.index ensures IndexOK(st', l) { assert IndexOK(st, l); }
    forall l | l in st'.storing ensures StoringOK(st', l) { assert StoringOK(st, l); }
  }

  lemma StepKeeps(st: State, max: seq<nat>, e: Event)
    requires Inv(st, max) && Enabled(st, max, e)
    ensures Inv(Next(st, max, e), max)
  {
    match e {
      case StoreStart(k) => StartKeeps(st, max, k);
      case StoreEvict(k) => StoreEvictKeeps(st, max, k);
      case StoreRelease(k) => StoreReleaseKeeps(st, max, k);
      case StoreLink(k) => LinkKeeps(st, max, k);
      case PullEvict(k, c) => PullKeeps(st, max, k, c);
      case Unlink(k) => UnlinkKeeps(st, max, k);
      case Pin(k) => PinKeeps(st, max, k);
      case Touch(p) => TouchKeeps(st, max, p);
      case Release(p) => UnpinKeeps(st, max, p);
    }
  }

  ghost predicate Runs(st: State, max: seq<nat>, es: seq<Event>, st': State)
    decreases es
  {
    if es == [] then st' == st else Enabled(st, max, es[0]) && Runs(Next(st, max, es[0]), max, es[1..], st')
  }

  /** Nothing stored, nothing remembered. */
  ghost predicate Initial(st: State, max: seq<nat>) {
    && |st.queues| == |st.sizes| == |max| && (forall c | 0 <= c < |max| :: st.queues[c] == [] && st.sizes[c] == 0)
    && st.items == map[] && st.index == map[] && st.freed == [] && st.pins == multiset{} && st.linked == {} &&
        st.storing == map[]
  }

  lemma {:induction false} RunKeeps(st: State, max: seq<nat>, es: seq<Event>, st': State)
    requires Inv(st, max) && Runs(st, max, es, st')
    ensures Inv(st', max)
    decreases es
  {
    if es != [] {
      StepKeeps(st, max, es[0]);
      RunKeeps(Next(st, max, es[0]), max, es[1..], st');
    }
  }

  /** In every reachable state: a key in the cache has no shadow, so a shadow insert never meets an old one; queues are
      counted and bounded; nothing is freed twice, and what is freed is not pinned, indexed or queued. */
  lemma ShadowSafety(st: State, max: seq<nat>, es: seq<Event>, st': State)
    requires Initial(st, max) && Runs(st, max, es, st')
    ensures forall k | k in st'.linked :: k !in st'.index
    ensures |st'.queues| == |st'.sizes| == |max| &&
            forall c | 0 <= c < |max| :: st'.sizes[c] == |st'.queues[c]| <= max[c]
    ensures Distinct(st'.freed)
    ensures forall p <- st'.freed ::
              && p !in st'.items && p !in st'.pins && (forall k | k in st'.index :: st'.index[k] != p)
              && forall c | 0 <= c < |max| :: p !in st'.queues[c]
  {
    forall c | 0 <= c < |max| ensures QueueOK(st, max, c) { }
    RunKeeps(st, max, es, st');
    forall k | k in st'.linked ensures k !in st'.index { assert k in st'.index ==> IndexOK(st', k); }
    forall c | 0 <= c < |max| ensures st'.sizes[c] == |st'.queues[c]| <= max[c] { assert QueueOK(st', max, c); }
    forall p <- st'.freed ensures p !in st'.items && p !in st'.pins {
      assert p in st'.items || p in st'.pins ==> ItemOK(st', multiset{}, p);
    }
    forall p <- st'.freed, k | k in st'.index ensures st'.index[k] != p { assert IndexOK(st', k); }
    forall p <- st'.freed, c | 0 <= c < |max| ensures p !in st'.queues[c] { assert QueueOK(st', max, c); }
  }
}
