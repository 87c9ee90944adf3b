/** The operations of src/items.c on items: link, unlink, remove, update, replace, get, asynchronous bumps and
    the pull from a queue's tail.  Every one of them keeps the books of CacheState balanced. */
module ItemCache {
  import opened Basics
  import opened Addresses
  import opened CacheState
  import opened ItemFlow
  import L = LruQueues

  /** ITEM_lruid: the queue of a class an item is in. */
  function LruId(clsid: nat): nat { clsid / 64 * 64 }

  /** ITEM_clsid: the slab class alone. */
  function SlabClass(clsid: nat): (c: nat)
    ensures c < 64
  {
    clsid % 64
  }

  datatype Settings = Settings(segmented: bool, hotPct: nat, warmPct: nat, evictToFree: bool)

  function Touched(st: State, p: Ptr, it: Item): State { st.(items := st.items[p := it]) }

  /** do_item_update. */
  function Updated(st: State, p: Ptr, now: int, segmented: bool): State
    requires p in st.items && st.items[p].clsid < CLASSES && |st.queues| == CLASSES
  {
    var it := st.items[p];
    if !it.linked then st
    else if segmented then
      if LruId(it.clsid) == COLD_LRU && it.active then
        Relocate(Touched(st, p, it.(time := now, active := false)), p, SlabClass(it.clsid) + WARM_LRU)
      else if it.time < now - ITEM_UPDATE_INTERVAL then Touched(st, p, it.(time := now))
      else st
    else if it.time < now - ITEM_UPDATE_INTERVAL then Relocate(Touched(st, p, it.(time := now)), p, it.clsid)
    else st
  }

  /** do_item_update_nolock: within its own queue. */
  function UpdatedNoLock(st: State, p: Ptr, now: int): State
    requires p in st.items && st.items[p].clsid < CLASSES && |st.queues| == CLASSES
  {
    var it := st.items[p];
    if it.time < now - ITEM_UPDATE_INTERVAL && it.linked
    then Relocate(Touched(st, p, it.(time := now)), p, it.clsid) else st
  }

  lemma UpdateKeeps(st: State, held: multiset<Ptr>, p: Ptr, now: int, segmented: bool)
    requires Inv(st, held) && p in st.items
    ensures st.items[p].clsid < CLASSES && Inv(Updated(st, p, now, segmented), held) &&
            Inv(UpdatedNoLock(st, p, now), held)
    ensures p in Updated(st, p, now, segmented).items && p in UpdatedNoLock(st, p, now).items
  {
    assert Reachable(st, p);
    var it := st.items[p];
    var it1, it2 := it.(time := now, active := false), it.(time := now);
    TouchKeeps(st, held, p, it1);
    TouchKeeps(st, held, p, it2);
    if it.linked {
      RelocateKeeps(Touched(st, p, it1), held, p, SlabClass(it.clsid) + WARM_LRU);
      RelocateKeeps(Touched(st, p, it2), held, p, it.clsid);
    }
  }

  /** Out of one queue, into the head of another, as a queue without repetition shows it. */
  lemma RelocatedQueues(st: State, held: multiset<Ptr>, p: Ptr, it: Item, cls: nat)
    requires Inv(st, held) && p in st.items && st.items[p].linked && it.clsid == st.items[p].clsid && cls < CLASSES
    ensures st.items[p].clsid < CLASSES && AtHead(st, Relocate(Touched(st, p, it), p, cls), p, cls)
  {
    assert Reachable(st, p);
    var st' := Relocate(Touched(st, p, it), p, cls);
    forall id | 0 <= id < CLASSES
      ensures st'.queues[id] == (if id == cls then [p] else []) + Others(st.queues[id], p)
    {
      assert QueueOK(st, id);
      OthersCut(st.queues[id], p);
      if id != st.items[p].clsid { OthersSame(st.queues[id], p); }
    }
  }

  lemma LinkFlow(st: State, held: multiset<Ptr>, p: Ptr, now: int)
    requires Inv(st, held) && p in st.items && !st.items[p].linked
    ensures st.items[p].clsid < CLASSES && Links(st, LinkItem(st, p, now), p, now)
  {
    assert Reachable(st, p);
    forall id | 0 <= id < CLASSES ensures Others(st.queues[id], p) == st.queues[id] {
      assert QueueOK(st, id);
      OthersSame(st.queues[id], p);
    }
  }

  lemma UnlinkFlow(st: State, held: multiset<Ptr>, p: Ptr)
    requires Inv(st, held) && p in st.items
    ensures st.items[p].clsid < CLASSES && Unlinks(st, UnlinkItem(st, p), p)
  {
    assert Reachable(st, p);
    forall id | 0 <= id < CLASSES
      ensures Others(st.queues[id], p) ==
              if id == st.items[p].clsid then L.Without(st.queues[id], p) else st.queues[id]
    {
      assert QueueOK(st, id);
      OthersCut(st.queues[id], p);
      if id != st.items[p].clsid { OthersSame(st.queues[id], p); }
    }
  }

  /** Where an update takes an item: from COLD to WARM when active, to the head of its own queue when due and the queues
      are not segmented, and nowhere otherwise. */
  lemma UpdateFlow(st: State, held: multiset<Ptr>, p: Ptr, now: int, segmented: bool)
    requires Inv(st, held) && p in st.items
    ensures st.items[p].clsid < CLASSES && Updates(st, Updated(st, p, now, segmented), p, now, segmented)
  {
    assert Reachable(st, p);
    var it := st.items[p];
    if it.linked {
      RelocatedQueues(st, held, p, it.(time := now, active := false), SlabClass(it.clsid) + WARM_LRU);
      RelocatedQueues(st, held, p, it.(time := now), it.clsid);
    }
  }

  /** do_item_alloc hands out an item with one reference, its creator's. */
  function Allocated(st: State, p: Ptr, it: Item): State {
    st.(items := st.items[p := it.(linked := false, fetched := false, active := false, refcount := 1)])
  }

  lemma AllocKeeps(st: State, held: multiset<Ptr>, p: Ptr, it: Item)
    requires Inv(st, held) && p != NULL && p !in st.items && it.clsid < CLASSES
    ensures Inv(Allocated(st, p, it), held + multiset{p})
  {
    var st', h' := Allocated(st, p, it), held + multiset{p};
    assert p in held || p in st.bumps ==> Counted(st, held, p);
    CountPositive(st.bumps, p);
    forall q | q in st'.items || q in h' || q in st'.bumps ensures Counted(st', h', q) {
      if q != p { assert Counted(st, held, q); }
    }
    forall q | q in st'.items ensures Reachable(st', q) { if q != p { assert Reachable(st, q); } }
    forall id | 0 <= id < CLASSES ensures QueueOK(st', id) { assert QueueOK(st, id); }
    forall k | k in st'.index ensures IndexOK(st', k) { assert IndexOK(st, k); }
  }

  /** lru_bump_async: one more reference, owned by the buffer entry, if there was room for the entry. */
  function BumpQueued(st: State, p: Ptr, room: bool): State
    requires p in st.items
  {
    if room then Hold(st, p).(bumps := st.bumps + [p]) else st
  }

  lemma BumpKeeps(st: State, held: multiset<Ptr>, p: Ptr, room: bool)
    requires Inv(st, held) && p in st.items
    ensures Inv(BumpQueued(st, p, room), held)
  {
    if room {
      var st' := BumpQueued(st, p, room);
      forall q | q in st'.items || q in held || q in st'.bumps ensures Counted(st', held, q) {
        assert Counted(st, held, q);
        CountAppend(st.bumps, p, q);
      }
      forall q | q in st'.items ensures Reachable(st', q) { assert Reachable(st, q); }
      forall id | 0 <= id < CLASSES ensures QueueOK(st', id) { assert QueueOK(st, id); }
      forall k | k in st'.index ensures IndexOK(st', k) { assert IndexOK(st, k); }
    }
  }

  lemma {:induction false} CountAppend(s: seq<Ptr>, p: Ptr, q: Ptr)
    ensures Count(s + [p], q) == Count(s, q) + if p == q then 1 else 0
    decreases s
  {
    if s == [] {
      assert s + [p] == [p] && [p][1..] == [];
    } else {
      assert (s + [p])[1..] == s[1..] + [p];
      CountAppend(s[1..], p, q);
    }
  }

  /** One round of lru_maintainer_bumps: the oldest entry is acted on and its reference given back. */
  function BumpServed(st: State, now: int, segmented: bool): State
    requires |st.queues| == CLASSES && st.bumps != [] && st.bumps[0] in st.items &&
             st.items[st.bumps[0]].clsid < CLASSES
  {
    var p := st.bumps[0];
    var st' := Updated(st, p, now, segmented);
    if p in st'.items then Drop(st'.(bumps := st.bumps[1..]), p) else st'
  }

  /** The entry's reference passes to the maintainer. */
  lemma BumpTaken(st: State, held: multiset<Ptr>)
    requires Inv(st, held) && st.bumps != []
    ensures Inv(st.(bumps := st.bumps[1..]), held + multiset{st.bumps[0]})
  {
    var st', h', p := st.(bumps := st.bumps[1..]), held + multiset{st.bumps[0]}, st.bumps[0];
    assert p in st.bumps;
    assert Counted(st, held, p);
    forall q | q in st'.items || q in h' || q in st'.bumps ensures Counted(st', h', q) {
      assert q in st.bumps || q in st.items || q in held;
      assert Counted(st, held, q);
    }
    forall q | q in st'.items ensures Reachable(st', q) { assert Reachable(st, q); }
    forall id | 0 <= id < CLASSES ensures QueueOK(st', id) { assert QueueOK(st, id); }
    forall k | k in st'.index ensures IndexOK(st', k) { assert IndexOK(st, k); }
  }

  lemma ServeKeeps(st: State, held: multiset<Ptr>, now: int, segmented: bool)
    requires Inv(st, held) && st.bumps != []
    ensures st.bumps[0] in st.items && st.items[st.bumps[0]].clsid < CLASSES
    ensures Inv(BumpServed(st, now, segmented), held) && BumpServed(st, now, segmented).bumps == st.bumps[1..]
  {
    var p := st.bumps[0];
    assert p in st.bumps;
    assert Counted(st, held, p);
    UpdateKeeps(st, held, p, now, segmented);
    var st1 := Updated(st, p, now, segmented);
    BumpTaken(st1, held);
    DropKeeps(st1.(bumps := st1.bumps[1..]), held + multiset{p}, p);
    assert held + multiset{p} - multiset{p} == held;
  }

  lemma ServeFlow(st: State, held: multiset<Ptr>, now: int, segmented: bool)
    requires Inv(st, held) && st.bumps != []
    ensures st.bumps[0] in st.items && st.items[st.bumps[0]].clsid < CLASSES
    ensures Serves(st, BumpServed(st, now, segmented), st.bumps[0], now, segmented)
  {
    var p := st.bumps[0];
    assert p in st.bumps;
    assert Counted(st, held, p);
    UpdateFlow(st, held, p, now, segmented);
  }

  /** A waiting entry of an item that is linked, active and in COLD takes it to WARM, and it is then there without the
      mark however many entries are served. */
  lemma {:induction false} ServedToWarm(st: State, held: multiset<Ptr>, now: int, p: Ptr)
    requires Inv(st, held) && p in st.bumps && p in st.items && Warms(st.items[p], true)
    ensures var st' := ServedAll(st, now, true);
            && p in st'.items && st'.items[p].linked && st'.items[p].clsid == st.items[p].clsid - 64
            && !st'.items[p].active
    decreases |st.bumps|
  {
    ServeKeeps(st, held, now, true);
    ServeFlow(st, held, now, true);
    var st1 := BumpServed(st, now, true);
    if st.bumps[0] == p {
      assert Counted(st, held, p);
      CountPositive(st.bumps, p);
      ServedStays(st1, held, now, p);
    } else {
      assert p in st.bumps[1..];
      ServedToWarm(st1, held, now, p);
    }
  }

  lemma AllWarmed(st: State, held: multiset<Ptr>, now: int)
    requires Inv(st, held)
    ensures var st' := ServedAll(st, now, true);
            forall p | p in st.bumps && p in st.items && Warms(st.items[p], true) ::
              p in st'.items && st'.items[p].clsid == st.items[p].clsid - 64 && !st'.items[p].active
  {
    forall p | p in st.bumps && p in st.items && Warms(st.items[p], true)
      ensures var st' := ServedAll(st, now, true);
              p in st'.items && st'.items[p].clsid == st.items[p].clsid - 64 && !st'.items[p].active
    {
      ServedToWarm(st, held, now, p);
    }
  }

  lemma {:induction false} ServedStays(st: State, held: multiset<Ptr>, now: int, p: Ptr)
    requires Inv(st, held) && p in st.items && st.items[p].linked && !InCold(st.items[p])
    ensures var st' := ServedAll(st, now, true);
            p in st'.items && st'.items[p].linked && st'.items[p].clsid == st.items[p].clsid &&
                st'.items[p].active == st.items[p].active
    decreases |st.bumps|
  {
    if st.bumps != [] {
      ServeKeeps(st, held, now, true);
      ServeFlow(st, held, now, true);
      if st.bumps[0] == p {
        assert Counted(st, held, p);
        CountPositive(st.bumps, p);
      }
      ServedStays(BumpServed(st, now, true), held, now, p);
    }
  }

  /** The item before x, on the way from tail to head. */
  function Preceding(s: seq<Ptr>, x: Ptr): Ptr {
    if |s| < 2 then NULL else if s[1] == x then s[0] else Preceding(s[1..], x)
  }

  lemma {:induction false} PrecedingIn(s: seq<Ptr>, x: Ptr)
    requires Distinct(s)
    ensures Preceding(s, x) != NULL ==> Preceding(s, x) in s && Preceding(s, x) != x
    decreases s
  {
    if |s| >= 2 {
      assert s[1] in s[1..];
      if s[1] != x { PrecedingIn(s[1..], x); }
    }
  }

  /** exptime passed, or flushed. */
  predicate Dead(it: Item, p: Ptr, now: int, flushed: set<Ptr>) {
    (it.exptime != 0 && it.exptime < now) || p in flushed
  }

  function Bytes(st: State, s: seq<Ptr>): int {
    if s == [] then 0 else (if s[0] in st.items then st.items[s[0]].ntotal else 0) + Bytes(st, s[1..])
  }

  /** Only keys of `lost` have left the index since st0; the items still there are the same items. */
  ghost predicate Since(st0: State, st: State, lost: set<Key>) {
    && st.index == st0.index - lost && lost <= st0.index.Keys && st.bumps == st0.bumps
    && forall p {:trigger st.items[p]} | p in st.items :: p in st0.items && st.items[p].key == st0.items[p].key &&
        st.items[p].exptime == st0.items[p].exptime
  }

  ghost predicate AllDead(st0: State, lost: set<Key>, now: int, flushed: set<Ptr>) {
    forall k {:trigger k in lost} | k in lost :: k in st0.index && st0.index[k] in st0.items &&
        Dead(st0.items[st0.index[k]], st0.index[k], now, flushed)
  }

  /** The arguments of a pull: the queue and its segment, the limits, the clock, the settings, and which items are
      locked by others or flushed. */
  datatype PullArgs = PullArgs(id: nat, curLru: nat, totalBytes: nat, evict: bool, maxAge: int, now: int,
                               settings: Settings, locked: set<Ptr>, flushed: set<Ptr>)

  /** What becomes of an item that is neither locked nor expired, when the pull comes to it. */
  datatype Verdict = Stay | Move(lru: nat) | Evict

  function Judged(it: Item, bytes: int, curLru: nat, totalBytes: nat, evict: bool, maxAge: int, now: int,
      settings: Settings): (r: Verdict)
    ensures r.Evict? ==> curLru == COLD_LRU && evict && settings.evictToFree
    ensures r.Move? ==> r.lru == WARM_LRU || r.lru == COLD_LRU
  {
    var hot := if curLru == HOT_LRU then totalBytes * settings.hotPct / 100 else 0;
    var limit := if hot == 0 then totalBytes * settings.warmPct / 100 else hot;
    if curLru == HOT_LRU || curLru == WARM_LRU then
      if it.active then Move(WARM_LRU)
      else if bytes > limit || now - it.time > maxAge then Move(COLD_LRU)
      else Stay
    else if curLru == COLD_LRU then
      if evict then (if settings.evictToFree then Evict else Stay)
      else if it.active && settings.segmented then Move(WARM_LRU)
      else Stay
    else Stay
  }

  function Judge(st: State, p: Ptr, a: PullArgs): (r: Verdict)
    requires p in st.items && a.id < |st.queues|
    ensures r.Move? ==> r.lru <= TEMP_LRU
  {
    Judged(st.items[p], Bytes(st, st.queues[a.id]), a.curLru, a.totalBytes, a.evict, a.maxAge, a.now, a.settings)
  }

  /** Where items flow: an active item goes to WARM, from COLD only when nothing is to be evicted; an inactive one sinks
      from HOT or WARM to COLD exactly when its queue is over its share or it has been there too long; COLD items are
      evicted exactly when that is asked for and allowed; and nothing else moves. */
  lemma JudgeFlow(it: Item, bytes: int, curLru: nat, totalBytes: nat, evict: bool, maxAge: int, now: int,
      settings: Settings)
    ensures var r := Judged(it, bytes, curLru, totalBytes, evict, maxAge, now, settings);
            var upper := curLru == HOT_LRU || curLru == WARM_LRU;
            var share := if curLru == HOT_LRU && totalBytes * settings.hotPct / 100 != 0
                         then totalBytes * settings.hotPct / 100 else totalBytes * settings.warmPct / 100;
            && (r == Move(WARM_LRU) <==>
                  it.active && (upper || (curLru == COLD_LRU && !evict && settings.segmented)))
            && (r == Move(COLD_LRU) <==>
                  upper && !it.active && (bytes > share || now - it.time > maxAge))
            && (r == Evict <==> curLru == COLD_LRU && evict && settings.evictToFree)
            && (r == Stay || r == Evict || r == Move(WARM_LRU) || r == Move(COLD_LRU))
  {}

  predicate Shaped(st: State, p: Ptr) {
    p in st.items && st.items[p].clsid < CLASSES && |st.queues| == CLASSES
  }

  /** What a hit does: FETCHED on the first, ACTIVE on the second, and what an active item causes. */
  function Marked(st: State, p: Ptr, now: int, segmented: bool, room: bool): State
    requires Shaped(st, p)
  {
    var it := st.items[p];
    if !segmented then Updated(Touched(st, p, it.(fetched := true)), p, now, false)
    else if it.active then st
    else if !it.fetched then Touched(st, p, it.(fetched := true))
    else if LruId(it.clsid) != COLD_LRU then Updated(Touched(st, p, it.(active := true)), p, now, true)
    else if room then BumpQueued(Touched(st, p, it.(active := true)), p, true)
    else st
  }

  /** When a hit sets which mark, and when it leaves a bump entry. */
  lemma MarkFlow(st: State, held: multiset<Ptr>, p: Ptr, now: int, segmented: bool, room: bool)
    requires Inv(st, held) && p in st.items
    ensures Shaped(st, p) && Hits(st, Marked(st, p, now, segmented, room), p, now, segmented, room)
  {
    assert Reachable(st, p);
    var it := st.items[p];
    if !segmented {
      TouchedUpdate(st, held, p, it.(fetched := true), now, false);
    } else if SecondHit(it) && !InCold(it) {
      TouchedUpdate(st, held, p, it.(active := true), now, true);
    } else {
      assert st.items[p := it] == st.items && st.bumps + [] == st.bumps;
    }
  }

  /** A mark and then an update. */
  lemma TouchedUpdate(st: State, held: multiset<Ptr>, p: Ptr, it: Item, now: int, segmented: bool)
    requires Inv(st, held) && p in st.items && it == st.items[p].(fetched := it.fetched, active := it.active)
    ensures st.items[p].clsid < CLASSES && |st.queues| == CLASSES
    ensures var st' := Updated(Touched(st, p, it), p, now, segmented);
            && p in st'.items && OnlyItem(st, st', p) && st'.bumps == st.bumps && st'.freed == st.freed
            && st'.items[p] == Renewed(it, now, segmented)
            && (if Warms(it, segmented) then AtHead(st, st', p, it.clsid - 64)
                else if Relinks(it, now, segmented) then AtHead(st, st', p, it.clsid)
                else st'.queues == st.queues)
  {
    TouchKeeps(st, held, p, it);
    UpdateFlow(Touched(st, p, it), held, p, now, segmented);
  }

  /** The verdict carried out: moved to another queue of the class without the ACTIVE mark, evicted, or left alone. */
  function Executed(st: State, p: Ptr, verdict: Verdict): State
    requires Shaped(st, p) && (verdict.Move? ==> verdict.lru <= TEMP_LRU)
  {
    match verdict
    case Stay => st
    case Move(lru) => Relocate(Touched(st, p, st.items[p].(active := false)), p, SlabClass(st.items[p].clsid) + lru)
    case Evict => UnlinkItem(st, p)
  }

  /** All waiting bump entries served, oldest first. */
  ghost function ServedAll(st: State, now: int, segmented: bool): State
    decreases |st.bumps|
  {
    if st.bumps == [] || !Shaped(st, st.bumps[0]) then st
    else
      var st' := BumpServed(st, now, segmented);
      if |st'.bumps| < |st.bumps| then ServedAll(st', now, segmented) else st'
  }

  function TailOf(st: State, id: nat): Ptr {
    if id < |st.queues| && st.queues[id] != [] then st.queues[id][|st.queues[id]| - 1] else NULL
  }

  /** The verdict on the item where a pull stops, carried out with the item held. */
  ghost function Stopped(st: State, p: Ptr, verdict: Verdict): State
    requires Shaped(st, p) && (verdict.Move? ==> verdict.lru <= TEMP_LRU)
  {
    var st' := Executed(Hold(st, p), p, verdict);
    if p in st'.items then Drop(st', p) else st'
  }

  /** Where a pull goes from p.  An active WARM item that is due for it is first moved to the head of the queue; when
      only crawlers were before it, the walk comes back to it. */
  function Onward(a: PullArgs, first: bool, st: State, p: Ptr): (bool, Ptr)
    requires p in st.items && a.id < |st.queues|
  {
    var next, it := Preceding(st.queues[a.id], p), st.items[p];
    if p !in a.locked && !Dead(it, p, a.now, a.flushed) && a.curLru == WARM_LRU && it.active && it.linked &&
       it.time < a.now - ITEM_UPDATE_INTERVAL
    then (false, if first && next == NULL then p else next)
    else (first, next)
  }

  /** What a pull does from item p towards the head, with so many tries left and so many items met and removed: dead
      items are reclaimed, active WARM items refreshed, and the first other item settles it.  A crawler in the queue
      shows as blockAt, the number of items behind it (-1: none, or the caller does not mind), and as first, whether one
      stands at the head. */
  ghost function Pulled(a: PullArgs, blockAt: int, first: bool, st: State, p: Ptr, tries: nat, met: nat,
      removed: nat): (State, int)
    decreases tries
  {
    if tries == 0 then (st, removed)
    else if met == blockAt then (st, 0)
    else if p == NULL || !Shaped(st, p) || a.id >= |st.queues| then (st, removed)
    else
      var (first', next) := Onward(a, first, st, p);
      if p in a.locked then Pulled(a, blockAt, first', st, next, tries - 1, met + 1, removed)
      else if Dead(st.items[p], p, a.now, a.flushed)
      then Pulled(a, blockAt, first', Reclaimed(st, p), next, tries - 1, met + 1, removed + 1)
      else if a.curLru == WARM_LRU && st.items[p].active
      then Pulled(a, blockAt, first', Refreshed(st, p, a.now), next, tries - 1, met + 1, removed)
      else
        var verdict := Judge(st, p, a);
        (Stopped(st, p, verdict), removed + if verdict.Stay? then 0 else 1)
  }

  /** What a pull from st0 to st may have done, with lost the keys of dead items and evicted the victim's. */
  ghost predicate Outcome(a: PullArgs, blockAt: int, st0: State, st: State, removed: int, lost: set<Key>,
      evicted: set<Key>)
  {
    && st.bumps == st0.bumps && st.index == st0.index - lost - evicted && AllDead(st0, lost, a.now, a.flushed)
    && |evicted| <= 1 && (evicted != {} ==> a.curLru == COLD_LRU && a.evict && a.settings.evictToFree)
    && (|lost| + |evicted| <= removed <= |lost| + 1 || (blockAt >= 0 && removed == 0 && evicted == {}))
  }

  /** The item where the pull stands, and what is left of the queue after a dead or an active one is dealt with. */
  lemma TurnKeeps(a: PullArgs, st: State, held: multiset<Ptr>, p: Ptr)
    requires Inv(st, held) && a.id < CLASSES && p in st.queues[a.id]
    ensures Shaped(st, p) && st.items[p].linked
    ensures Inv(Reclaimed(st, p), held) && Inv(Refreshed(st, p, a.now), held)
  {
    InQueue(st, held, a.id, p);
    ReclaimKeeps(st, st, held, {}, p, a.id);
    RefreshKeeps(st, st, held, {}, p, a.id, a.now);
  }

  /** One turn of the loop. */
  lemma PulledTurn(a: PullArgs, blockAt: int, first: bool, st: State, p: Ptr, tries: nat, met: nat, removed: nat)
    requires tries > 0 && p != NULL && Shaped(st, p) && a.id < CLASSES
    ensures var (first', next) := Onward(a, first, st, p);
            var dead := Dead(st.items[p], p, a.now, a.flushed);
            var warm := a.curLru == WARM_LRU && st.items[p].active;
            var r := Pulled(a, blockAt, first, st, p, tries, met, removed);
            && (met == blockAt ==> r == (st, 0))
            && (met != blockAt && p in a.locked ==>
                  r == Pulled(a, blockAt, first', st, next, tries - 1, met + 1, removed))
            && (met != blockAt && p !in a.locked && dead ==>
                  r == Pulled(a, blockAt, first', Reclaimed(st, p), next, tries - 1, met + 1, removed + 1))
            && (met != blockAt && p !in a.locked && !dead && warm ==>
                  r == Pulled(a, blockAt, first', Refreshed(st, p, a.now), next, tries - 1, met + 1, removed))
            && (met != blockAt && p !in a.locked && !dead && !warm ==>
                  var v := Judge(st, p, a);
                  r == (Stopped(st, p, v), removed + if v.Stay? then 0 else 1))
  {
  }

  lemma StoppedKeeps(st: State, held: multiset<Ptr>, p: Ptr, verdict: Verdict) returns (evicted: set<Key>)
    requires Inv(st, held) && p in st.items && st.items[p].linked && (verdict.Move? ==> verdict.lru <= TEMP_LRU)
    ensures Shaped(st, p) && Inv(Stopped(st, p, verdict), held) && Stopped(st, p, verdict).bumps == st.bumps
    ensures evicted == (if verdict.Evict? then {st.items[p].key} else {}) &&
            Stopped(st, p, verdict).index == st.index - evicted
  {
    assert Reachable(st, p);
    HoldKeeps(st, held, p);
    var h, st1 := held + multiset{p}, Hold(st, p);
    evicted := {};
    match verdict {
      case Stay =>
      case Move(lru) =>
        TouchKeeps(st1, h, p, st1.items[p].(active := false));
        RelocateKeeps(Touched(st1, p, st1.items[p].(active := false)), h, p, SlabClass(st.items[p].clsid) + lru);
      case Evict =>
        UnlinkKeeps(st1, h, p);
        evicted := {st.items[p].key};
    }
    DropKeeps(Executed(st1, p, verdict), h, p);
    assert h - multiset{p} == held;
  }

  /** What every pull keeps and what it may take away. */
  lemma {:induction false} PulledKeeps(a: PullArgs, blockAt: int, first: bool, st0: State, st: State,
      held: multiset<Ptr>, lost0: set<Key>, p: Ptr, tries: nat, met: nat)
    returns (r: (State, int), lost: set<Key>, evicted: set<Key>)
    requires Inv(st, held) && Since(st0, st, lost0) && AllDead(st0, lost0, a.now, a.flushed) && a.id < CLASSES &&
             (p != NULL ==> p in st.queues[a.id])
    ensures r == Pulled(a, blockAt, first, st, p, tries, met, |lost0|)
    ensures Inv(r.0, held) && Outcome(a, blockAt, st0, r.0, r.1, lost, evicted)
    decreases tries
  {
    if tries == 0 || p == NULL || met == blockAt {
      lost, evicted := lost0, {};
      r := NothingFurther(a, blockAt, first, st0, st, held, lost0, p, tries, met);
    } else {
      assert p in st.items by { assert QueueOK(st, a.id); }
      if p in a.locked || Dead(st.items[p], p, a.now, a.flushed) || (a.curLru == WARM_LRU && st.items[p].active) {
        var st1, lost1, first', next := GoOn(a, blockAt, first, st0, st, held, lost0, p, tries, met);
        r, lost, evicted := PulledKeeps(a, blockAt, first', st0, st1, held, lost1, next, tries - 1, met + 1);
      } else {
        lost := lost0;
        r, evicted := StopsHere(a, blockAt, first, st0, st, held, lost0, p, tries, met);
      }
    }
  }

  /** The end of the queue, of the tries, or a blocking crawler. */
  lemma NothingFurther(a: PullArgs, blockAt: int, first: bool, st0: State, st: State, held: multiset<Ptr>,
      lost: set<Key>, p: Ptr, tries: nat, met: nat) returns (r: (State, int))
    requires Inv(st, held) && Since(st0, st, lost) && AllDead(st0, lost, a.now, a.flushed) && a.id < CLASSES
    requires (p != NULL ==> p in st.queues[a.id]) && (tries == 0 || p == NULL || met == blockAt)
    ensures r == Pulled(a, blockAt, first, st, p, tries, met, |lost|)
    ensures r.0 == st && Outcome(a, blockAt, st0, r.0, r.1, lost, {})
  {
    r := (st, if tries > 0 && met == blockAt then 0 else |lost|);
    if p != NULL { InQueue(st, held, a.id, p); }
  }

  /** A turn after which the pull goes on. */
  lemma GoOn(a: PullArgs, blockAt: int, first: bool, st0: State, st: State, held: multiset<Ptr>, lost: set<Key>,
      p: Ptr, tries: nat, met: nat) returns (st1: State, lost1: set<Key>, first': bool, next: Ptr)
    requires Inv(st, held) && Since(st0, st, lost) && AllDead(st0, lost, a.now, a.flushed) && a.id < CLASSES &&
             p in st.queues[a.id] && p != NULL
    requires tries > 0 && met != blockAt && p in st.items
    requires p in a.locked || Dead(st.items[p], p, a.now, a.flushed) || (a.curLru == WARM_LRU && st.items[p].active)
    ensures Inv(st1, held) && Since(st0, st1, lost1) && AllDead(st0, lost1, a.now, a.flushed)
    ensures next != NULL ==> next in st1.queues[a.id]
    ensures Pulled(a, blockAt, first, st, p, tries, met, |lost|) ==
            Pulled(a, blockAt, first', st1, next, tries - 1, met + 1, |lost1|)
  {
    first', next := Onward(a, first, st, p).0, Onward(a, first, st, p).1;
    InQueue(st, held, a.id, p);
    PulledTurn(a, blockAt, first, st, p, tries, met, |lost|);
    st1, lost1 := st, lost;
    if p !in a.locked {
      if Dead(st.items[p], p, a.now, a.flushed) {
        DeadStep(st0, st, held, lost, p, a.id, a.now, a.flushed);
        st1, lost1 := Reclaimed(st, p), lost + {st.items[p].key};
      } else {
        RefreshKeeps(st0, st, held, lost, p, a.id, a.now);
        st1 := Refreshed(st, p, a.now);
      }
    }
  }

  /** The first item that is neither dead nor active nor locked settles the pull. */
  lemma StopsHere(a: PullArgs, blockAt: int, first: bool, st0: State, st: State, held: multiset<Ptr>, lost: set<Key>,
      p: Ptr, tries: nat, met: nat) returns (r: (State, int), evicted: set<Key>)
    requires Inv(st, held) && Since(st0, st, lost) && AllDead(st0, lost, a.now, a.flushed) && a.id < CLASSES
    requires p != NULL && p in st.queues[a.id] && p in st.items && tries > 0 && met != blockAt && p !in a.locked
    requires !Dead(st.items[p], p, a.now, a.flushed) && !(a.curLru == WARM_LRU && st.items[p].active)
    ensures r == Pulled(a, blockAt, first, st, p, tries, met, |lost|)
    ensures Inv(r.0, held) && Outcome(a, blockAt, st0, r.0, r.1, lost, evicted)
  {
    InQueue(st, held, a.id, p);
    assert Reachable(st, p);
    PulledTurn(a, blockAt, first, st, p, tries, met, |lost|);
    var v := Judge(st, p, a);
    r := (Stopped(st, p, v), |lost| + if v.Stay? then 0 else 1);
    evicted := StopOutcome(a, blockAt, st0, st, held, lost, p);
  }

  lemma StopOutcome(a: PullArgs, blockAt: int, st0: State, st: State, held: multiset<Ptr>, lost: set<Key>,
      p: Ptr) returns (evicted: set<Key>)
    requires Inv(st, held) && Since(st0, st, lost) && AllDead(st0, lost, a.now, a.flushed) && a.id < CLASSES &&
             p in st.items && st.items[p].linked
    ensures var v := Judge(st, p, a);
            Shaped(st, p) && Inv(Stopped(st, p, v), held) &&
                Outcome(a, blockAt, st0, Stopped(st, p, v), |lost| + (if v.Stay? then 0 else 1), lost, evicted)
  {
    evicted := StoppedKeeps(st, held, p,
        Judge(st, p, a));
  }

  /** The item at which a pull stops. */
  ghost predicate Settles(st: State, st': State, p: Ptr, v: Verdict) {
    p in st.items &&
    match v
    case Stay => st' == st
    case Move(lru) => Moves(st, st', p, SegmentOf(st.items[p].clsid, lru))
    case Evict => Unlinks(st, st', p)
  }

  lemma ReclaimFlow(st: State, held: multiset<Ptr>, p: Ptr)
    requires Inv(st, held) && p in st.items && st.items[p].linked
    ensures Shaped(st, p) && Unlinks(st, Reclaimed(st, p), p)
  {
    assert Reachable(st, p);
    HoldKeeps(st, held, p);
    UnlinkFlow(Hold(st, p), held + multiset{p}, p);
    assert Counted(st, held, p);
  }

  lemma RefreshFlow(st: State, held: multiset<Ptr>, p: Ptr, now: int)
    requires Inv(st, held) && p in st.items && st.items[p].linked
    ensures Shaped(st, p) && Rescues(st, Refreshed(st, p, now), p, now)
  {
    assert Reachable(st, p);
    if Due(st.items[p], now) {
      RelocatedQueues(st, held, p, st.items[p].(active := false, time := now), st.items[p].clsid);
    }
  }

  lemma MoveFlow(st: State, held: multiset<Ptr>, p: Ptr, lru: nat)
    requires Inv(st, held) && p in st.items && st.items[p].linked && lru <= TEMP_LRU
    ensures Shaped(st, p) && Moves(st, Stopped(st, p, Move(lru)), p, SegmentOf(st.items[p].clsid, lru))
  {
    assert Reachable(st, p);
    RelocatedQueues(st, held, p, st.items[p].(active := false), SegmentOf(st.items[p].clsid, lru));
    assert Counted(st, held, p);
  }

  lemma StopFlow(st: State, held: multiset<Ptr>, p: Ptr, v: Verdict)
    requires Inv(st, held) && p in st.items && st.items[p].linked && (v.Move? ==> v.lru <= TEMP_LRU)
    ensures Shaped(st, p) && Settles(st, Stopped(st, p, v), p, v)
  {
    assert Reachable(st, p);
    match v {
      case Stay =>
        assert Counted(st, held, p);
        assert st.items[p := st.items[p]] == st.items;
      case Move(lru) => MoveFlow(st, held, p, lru);
      case Evict => ReclaimFlow(st, held, p);
    }
  }

  lemma OldestNext(b: seq<Ptr>, k: nat, came: seq<Ptr>)
    requires k < |b|
    ensures var q := b[k..] + came; q != [] && q[0] == b[k] && q[1..] == b[k + 1..] + came
    ensures b[..k] + [b[k]] == b[..k + 1]
  {}

  /** A read of a key by a worker; room says whether its bump buffer has room. */
  datatype Read = Read(key: Key, flushed: bool, room: bool)

  class Cache {
    var st: State
    ghost var held: multiset<Ptr>

    ghost predicate Valid()
      reads this
    {
      Inv(st, held)
    }

    constructor ()
      ensures Valid() && st.items == map[] && held == multiset{}
    {
      st := State(map[], seq(CLASSES, _ => []), map[], [], []);
      held := multiset{};
    }

    /** do_item_link by a worker that holds the item. */
    method ItemLink(p: Ptr, now: int)
      requires Valid() && p in st.items && p in held && !st.items[p].linked && st.items[p].key !in st.index
      modifies this
      ensures Valid() && held == old(held) && p in st.items && st.items[p].linked &&
              st.index == old(st).index[old(st).items[p].key := p]
      ensures st.freed == old(st).freed
      ensures Shaped(old(st), p) && st == LinkItem(old(st), p, now) && Links(old(st), st, p, now)
    {
      assert Reachable(st, p);
      LinkFlow(st, held, p, now);
      LinkKeeps(st, held, p, now);
      st := LinkItem(st, p, now);
    }

    /** do_item_unlink. */
    method ItemUnlink(p: Ptr)
      requires Valid() && p in st.items && p in held
      modifies this
      ensures Valid() && held == old(held) && p in st.items && st.freed == old(st).freed
      ensures st.index == old(st).index - (if old(st).items[p].linked then {old(st).items[p].key} else {})
      ensures forall q :: q in old(st).items && q != p ==> q in st.items && st.items[q] == old(st).items[q]
      ensures Shaped(old(st), p) && st == UnlinkItem(old(st), p) && Unlinks(old(st), st, p)
    {
      UnlinkKeeps(st, held, p);
      UnlinkFlow(st, held, p);
      st := UnlinkItem(st, p);
    }

    /** do_item_remove: item_free runs exactly when this was the last reference to an unlinked item. */
    method ItemRemove(p: Ptr)
      requires Valid() && p in st.items && p in held
      modifies this
      ensures Valid() && held == old(held) - multiset{p} && st.index == old(st).index
      ensures var last := !old(st).items[p].linked && old(held)[p] == 1 && p !in old(st).bumps;
              st.freed == (if last then old(st).freed + [p] else old(st).freed) && (p in st.items <==> !last)
      ensures st.bumps == old(st).bumps && Removes(old(st), st, p)
    {
      DropKeeps(st, held, p);
      FreedExactly(st, held, p);
      st := Drop(st, p);
      held := held - multiset{p};
    }

    /** do_item_replace. */
    method ItemReplace(p: Ptr, new_it: Ptr, now: int) returns (ghost between: State)
      requires Valid() && p in st.items && p in held && new_it in st.items && new_it in held && p != new_it
      requires st.items[p].linked && !st.items[new_it].linked && st.items[new_it].key == st.items[p].key
      modifies this
      ensures Valid() && held == old(held) && st.index == old(st).index[old(st).items[p].key := new_it] &&
              st.freed == old(st).freed
      ensures Unlinks(old(st), between, p) && Links(between, st, new_it, now)
    {
      assert Reachable(st, p) && IndexOK(st, st.items[p].key);
      ghost var k := st.items[p].key;
      ItemUnlink(p);
      between := st;
      ItemLink(new_it, now);
      assert (old(st).index - {k})[k := new_it] == old(st).index[k := new_it];
    }

    /** An expired or flushed item is unlinked and the reference just taken given back. */
    method Refuse(p: Ptr)
      requires Valid() && p in st.items && p in held && st.items[p].linked
      modifies this
      ensures Valid() && held == old(held) - multiset{p} && st.index == old(st).index - {old(st).items[p].key}
      ensures st.bumps == old(st).bumps
    {
      ItemUnlink(p);
      ItemRemove(p);
    }

    /** do_item_get: the caller gets a reference unless the item is flushed or expired, which unlinks it on the spot. */
    method ItemGet(key: Key, now: int, flushed: bool, doUpdate: bool, segmented: bool, room: bool) returns (p: Ptr)
      requires Valid()
      modifies this
      ensures Valid() && (key in old(st).index ==> old(st).index[key] in old(st).items)
      ensures key !in old(st).index ==> p == NULL && st == old(st) && held == old(held)
      ensures key in old(st).index && old(st).index[key] in old(st).items &&
              !Stale(old(st).items[old(st).index[key]], now, flushed) ==>
                p == old(st).index[key] && held == old(held) + multiset{p} && st.index == old(st).index &&
                    st.freed == old(st).freed
                && Shaped(Hold(old(st), p), p) &&
                    st == (if doUpdate then Marked(Hold(old(st), p), p, now, segmented, room) else Hold(old(st), p))
                && (doUpdate ==> Hits(Hold(old(st), p), st, p, now, segmented, room))
      ensures key in old(st).index && old(st).index[key] in old(st).items &&
              Stale(old(st).items[old(st).index[key]], now, flushed) ==>
                p == NULL && held == old(held) && st.index == old(st).index - {key}
      ensures old(st).bumps <= st.bumps && held == old(held) + if p == NULL then multiset{} else multiset{p}
      ensures p != NULL ==> p in st.items
    {
      if key !in st.index {
        return NULL;
      }
      assert IndexOK(st, key);
      p := st.index[key];
      assert Reachable(st, p);
      HoldKeeps(st, held, p);
      st := Hold(st, p);
      held := held + multiset{p};
      if flushed || (st.items[p].exptime != 0 && st.items[p].exptime <= now) {
        Refuse(p);
        assert held == old(held);
        p := NULL;
      } else if doUpdate {
        MarkHit(p, now, segmented, room);
      }
    }

    /** The hit markers of do_item_get. */
    method MarkHit(p: Ptr, now: int, segmented: bool, room: bool)
      requires Valid() && p in st.items
      modifies this`st
      ensures Valid() && st.index == old(st).index && st.freed == old(st).freed && p in st.items
      ensures old(st).bumps <= st.bumps
      ensures Shaped(old(st), p) && st == Marked(old(st), p, now, segmented, room)
      ensures Hits(old(st), st, p, now, segmented, room)
    {
      MarkFlow(st, held, p, now, segmented, room);
      assert Reachable(st, p);
      var it := st.items[p];
      if segmented {
        if !it.active {
          if !it.fetched {
            TouchKeeps(st, held, p, it.(fetched := true));
            st := Touched(st, p, it.(fetched := true));
          } else {
            TouchKeeps(st, held, p, it.(active := true));
            st := Touched(st, p, it.(active := true));
            if LruId(it.clsid) != COLD_LRU {
              UpdateKeeps(st, held, p, now, segmented);
              st := Updated(st, p, now, segmented);
            } else {
              BumpKeeps(st, held, p, room);
              st := BumpQueued(st, p, room);
              if !room {
                TouchKeeps(st, held, p, st.items[p].(active := false));
                st := Touched(st, p, st.items[p].(active := false));
                assert st.items == old(st).items;
              }
            }
          }
        }
      } else {
        TouchKeeps(st, held, p, it.(fetched := true));
        st := Touched(st, p, it.(fetched := true));
        UpdateKeeps(st, held, p, now, segmented);
        st := Updated(st, p, now, segmented);
      }
    }

    /** Reads by workers: each takes its reference and gives it back, and may leave a bump entry. */
    method ServeReads(gets: seq<Read>, now: int, segmented: bool)
      requires Valid()
      modifies this
      ensures Valid() && held == old(held) && old(st).bumps <= st.bumps && (gets == [] ==> st == old(st))
    {
      for k := 0 to |gets|
        invariant Valid() && held == old(held) && old(st).bumps <= st.bumps && (k == 0 ==> st == old(st))
      {
        var p := ItemGet(gets[k].key, now, gets[k].flushed, true, segmented, gets[k].room);
        if p != NULL {
          ItemRemove(p);
          assert held == old(held);
        }
      }
    }

    /** The oldest entry: do_item_update and do_item_remove. */
    method ServeOne(now: int, segmented: bool)
      requires Valid() && st.bumps != []
      modifies `st
      ensures Valid() && Serves(old(st), st, old(st).bumps[0], now, segmented)
      ensures ServedAll(st, now, segmented) == ServedAll(old(st), now, segmented)
    {
      ServeKeeps(st, held, now, segmented);
      ServeFlow(st, held, now, segmented);
      assert |st.bumps[1..]| < |st.bumps|;
      st := BumpServed(st, now, segmented);
    }

    /** One entry, and the reads by workers until the next. */
    method ServeRound(now: int, segmented: bool, gets: seq<Read>) returns (ghost came: seq<Ptr>, ghost between: State)
      requires Valid() && st.bumps != []
      modifies this
      ensures Valid() && held == old(held) && st.bumps == old(st).bumps[1..] + came
      ensures Serves(old(st), between, old(st).bumps[0], now, segmented) && (gets == [] ==> st == between)
      ensures gets == [] ==> came == [] && ServedAll(st, now, segmented) == ServedAll(old(st), now, segmented)
    {
      ServeOne(now, segmented);
      between := st;
      ghost var rest := st.bumps;
      ServeReads(gets, now, segmented);
      came := st.bumps[|rest|..];
    }

    /** lru_maintainer_bumps, with reads by workers after each entry served: exactly the entries that were there when it
        looked are served, each once and in order; what arrives in the meantime stays for the next look. The k-th
        serving takes before[k] to after[k], where an active COLD item goes to WARM. */
    method MaintainerBumps(now: int, segmented: bool, meanwhile: seq<seq<Read>>)
        returns (bumped: bool, ghost served: seq<Ptr>, ghost came: seq<Ptr>, ghost before: seq<State>,
        ghost after: seq<State>)
      requires Valid()
      modifies this
      ensures Valid() && held == old(held) && bumped == (old(st).bumps != [])
      ensures served == old(st).bumps && st.bumps == came
      ensures |before| == |after| == |served| &&
              forall k | 0 <= k < |served| :: Serves(before[k], after[k], served[k], now, segmented)
      ensures meanwhile == [] ==> st == ServedAll(old(st), now, segmented) && came == []
      ensures meanwhile == [] && segmented ==>
                forall p | p in old(st).bumps && p in old(st).items && Warms(old(st).items[p], true) ::
                  && p in st.items && st.items[p].clsid == old(st).items[p].clsid - 64 && !st.items[p].active
    {
      bumped, served, came, before, after := st.bumps != [], [], [], [], [];
      var size, k := |st.bumps|, 0;
      while k < size
        invariant 0 <= k <= size == |old(st).bumps| && Valid() && held == old(held)
        invariant served == old(st).bumps[..k] && st.bumps == old(st).bumps[k..] + came && |before| == |after| == k
        invariant forall j | 0 <= j < k :: Serves(before[j], after[j], served[j], now, segmented)
        invariant meanwhile == [] ==> came == [] && ServedAll(st, now, segmented) == ServedAll(old(st), now, segmented)
      {
        OldestNext(old(st).bumps, k, came);
        served, before := served + [st.bumps[0]], before + [st];
        ghost var more, between := ServeRound(now, segmented, if k < |meanwhile| then meanwhile[k] else []);
        after := after + [between];
        Regroup(old(st).bumps[k + 1..], came, more);
        came := came + more;
        k := k + 1;
      }
      if meanwhile == [] && segmented { AllWarmed(old(st), held, now); }
    }

    /** The item the pull stops at: the pull holds it while the verdict is carried out. */
    method Settle(p: Ptr, verdict: Verdict) returns (ghost evicted: set<Key>)
      requires Valid() && p in st.items && st.items[p].linked && (verdict.Move? ==> verdict.lru <= TEMP_LRU)
      modifies this
      ensures Valid() && held == old(held) && st.bumps == old(st).bumps
      ensures evicted == (if verdict.Evict? then {old(st).items[p].key} else {}) && st.index == old(st).index - evicted
      ensures Shaped(Hold(old(st), p), p) && st == Stopped(old(st), p, verdict) && Settles(old(st), st, p, verdict)
    {
      assert Reachable(st, p);
      StopFlow(st, held, p, verdict);
      HoldKeeps(st, held, p);
      st := Hold(st, p);
      held := held + multiset{p};
      evicted := Execute(p, verdict);
      DropKeeps(st, held, p);
      st := Drop(st, p);
      held := held - multiset{p};
      assert held == old(held);
    }

    method Execute(p: Ptr, verdict: Verdict) returns (ghost evicted: set<Key>)
      requires Valid() && p in st.items && p in held && st.items[p].linked &&
               (verdict.Move? ==> verdict.lru <= TEMP_LRU)
      modifies this`st
      ensures Valid() && st.bumps == old(st).bumps && p in st.items
      ensures evicted == (if verdict.Evict? then {old(st).items[p].key} else {}) && st.index == old(st).index - evicted
      ensures Shaped(old(st), p) && st == Executed(old(st), p, verdict)
    {
      assert Reachable(st, p);
      evicted := {};
      match verdict {
        case Stay =>
        case Move(lru) =>
          MoveInactive(p, lru);
        case Evict =>
          UnlinkKeeps(st, held, p);
          evicted := {st.items[p].key};
          st := UnlinkItem(st, p);
      }
    }

    /** Out of this queue into another queue of the same class, without the ACTIVE mark. */
    method MoveInactive(p: Ptr, lru: nat)
      requires Valid() && p in st.items && st.items[p].linked && lru <= TEMP_LRU
      modifies this`st
      ensures Valid() && p in st.items && Shaped(old(st), p) && st == Executed(old(st), p, Move(lru))
      ensures Moves(old(st), st, p, SegmentOf(old(st).items[p].clsid, lru))
    {
      assert Reachable(st, p);
      RelocatedQueues(st, held, p, st.items[p].(active := false), SegmentOf(st.items[p].clsid, lru));
      TouchKeeps(st, held, p, st.items[p].(active := false));
      st := Touched(st, p, st.items[p].(active := false));
      RelocateKeeps(st, held, p, SlabClass(st.items[p].clsid) + lru);
      st := Relocate(st, p, SlabClass(st.items[p].clsid) + lru);
    }
  }

  lemma InQueue(st: State, held: multiset<Ptr>, id: nat, p: Ptr)
    requires Inv(st, held) && id < CLASSES && p in st.queues[id]
    ensures p in st.items && st.items[p].linked && st.items[p].clsid == id
    ensures st.items[p].key in st.index && st.index[st.items[p].key] == p
    ensures Preceding(st.queues[id], p) != NULL ==>
              Preceding(st.queues[id], p) in st.queues[id] && Preceding(st.queues[id], p) != p
  {
    assert QueueOK(st, id);
    assert Reachable(st, p);
    PrecedingIn(st.queues[id], p);
  }

  /** Expired or flushed: the pull takes a reference, unlinks, and lets go. */
  function Reclaimed(st: State, p: Ptr): State
    requires p in st.items && st.items[p].clsid < CLASSES && |st.queues| == CLASSES
  {
    var st2 := UnlinkItem(Hold(st, p), p);
    if p in st2.items then Drop(st2, p) else st2
  }

  lemma ReclaimKeeps(st0: State, st: State, held: multiset<Ptr>, lost: set<Key>, p: Ptr, id: nat)
    requires Inv(st, held) && Since(st0, st, lost) && id < CLASSES && p in st.queues[id] && p in st.items &&
             st.items[p].linked && st.items[p].clsid == id
    ensures Inv(Reclaimed(st, p), held) && Since(st0, Reclaimed(st, p), lost + {st.items[p].key})
    ensures forall q :: q in st.queues[id] && q != p ==> q in Reclaimed(st, p).queues[id]
  {
    var st1, h1, k := Hold(st, p), held + multiset{p}, st.items[p].key;
    assert Reachable(st, p);
    HoldKeeps(st, held, p);
    UnlinkKeeps(st1, h1, p);
    DropKeeps(UnlinkItem(st1, p), h1, p);
    assert h1 - multiset{p} == held;
    assert QueueOK(st, id);
    WithoutMembers(st.queues[id], p);
    assert st0.index - lost - {k} == st0.index - (lost + {k});
  }

  /** An active WARM item goes back to the head of its queue and loses the mark. */
  function Refreshed(st: State, p: Ptr, now: int): State
    requires p in st.items && st.items[p].clsid < CLASSES && |st.queues| == CLASSES
  {
    UpdatedNoLock(Touched(st, p, st.items[p].(active := false)), p, now)
  }

  lemma RefreshKeeps(st0: State, st: State, held: multiset<Ptr>, lost: set<Key>, p: Ptr, id: nat, now: int)
    requires Inv(st, held) && Since(st0, st, lost) && id < CLASSES && p in st.queues[id] && p in st.items &&
             st.items[p].linked && st.items[p].clsid == id
    ensures Inv(Refreshed(st, p, now), held) && Since(st0, Refreshed(st, p, now), lost)
    ensures forall q :: q in st.queues[id] ==> q in Refreshed(st, p, now).queues[id]
  {
    TouchKeeps(st, held, p, st.items[p].(active := false));
    UpdateKeeps(Touched(st, p, st.items[p].(active := false)), held, p, now, true);
    assert Distinct(st.queues[id]) by { assert QueueOK(st, id); }
    RefreshSince(st0, st, lost, p, id, now);
  }

  lemma RefreshSince(st0: State, st: State, lost: set<Key>, p: Ptr, id: nat, now: int)
    requires Since(st0, st, lost) && id < CLASSES == |st.queues| && p in st.queues[id] && p in st.items &&
             st.items[p].linked && st.items[p].clsid == id
    requires Distinct(st.queues[id])
    ensures Since(st0, Refreshed(st, p, now), lost)
    ensures forall q :: q in st.queues[id] ==> q in Refreshed(st, p, now).queues[id]
  {
    WithoutMembers(st.queues[id], p);
  }

  lemma DeadStep(st0: State, st: State, held: multiset<Ptr>, lost: set<Key>, p: Ptr, id: nat, now: int,
      flushed: set<Ptr>)
    requires Inv(st, held) && Since(st0, st, lost) && AllDead(st0, lost, now, flushed)
    requires id < CLASSES && p in st.queues[id] && p in st.items && Dead(st.items[p], p, now, flushed)
    ensures st.items[p].clsid == id && Inv(Reclaimed(st, p), held) &&
            Since(st0, Reclaimed(st, p), lost + {st.items[p].key})
    ensures AllDead(st0, lost + {st.items[p].key}, now, flushed) && |lost + {st.items[p].key}| == |lost| + 1
    ensures forall q :: q in st.queues[id] && q != p ==> q in Reclaimed(st, p).queues[id]
  {
    InQueue(st, held, id, p);
    DeadSince(st0, st, lost, p, now, flushed);
    ReclaimKeeps(st0, st, held, lost, p, id);
  }

  lemma DeadSince(st0: State, st: State, lost: set<Key>, p: Ptr, now: int, flushed: set<Ptr>)
    requires Since(st0, st, lost) && AllDead(st0, lost, now, flushed) && p in st.items &&
             Dead(st.items[p], p, now, flushed)
    requires st.items[p].key in st.index && st.index[st.items[p].key] == p
    ensures AllDead(st0, lost + {st.items[p].key}, now, flushed)
  {
  }

  /** What do_item_get does not hand out: unlike the pull, it counts an item as expired at its exptime. */
  predicate Stale(it: Item, now: int, flushed: bool) {
    flushed || (it.exptime != 0 && it.exptime <= now)
  }

  /** The two notions of expiry differ at one moment only: an item at its exptime is refused by do_item_get and kept by
      the pull. */
  lemma ExpiryGap(it: Item, p: Ptr, now: int, flushed: set<Ptr>)
    ensures Dead(it, p, now, flushed) ==> Stale(it, now, p in flushed)
    ensures Stale(it, now, p in flushed) && !Dead(it, p, now, flushed) <==> p !in flushed && it.exptime == now != 0
  {
  }

  // ---------- whole runs ----------

  /** The atomic steps, each done under the item's lock by a worker, the puller, the maintainer or the page mover. */
  datatype Action =
    | Create(p: Ptr, it: Item)
    | LinkIt(p: Ptr, now: int)
    | UnlinkIt(p: Ptr)
    | Fetch(key: Key)
    | Release(p: Ptr)
    | Update(p: Ptr, now: int, segmented: bool)
    | Reassign(p: Ptr, cls: nat)
    | Bump(p: Ptr, room: bool)
    | Serve(now: int, segmented: bool)

  /** What the callers guarantee before each step. */
  ghost predicate Enabled(st: State, held: multiset<Ptr>, a: Action) {
    match a
    case Create(p, it) => p != NULL && p !in st.items && it.clsid < CLASSES
    case LinkIt(p, _) => p in st.items && p in held && !st.items[p].linked && st.items[p].key !in st.index
    case UnlinkIt(p) => p in st.items
    case Fetch(key) => key in st.index && st.index[key] in st.items
    case Release(p) => p in st.items && p in held
    case Update(p, _, _) => p in st.items && p in held
    case Reassign(p, cls) => p in st.items && st.items[p].linked && cls < CLASSES
    case Bump(p, _) => p in st.items && p in held
    case Serve(_, _) => st.bumps != []
  }

  ghost function Act(st: State, held: multiset<Ptr>, a: Action): (State, multiset<Ptr>)
    requires Inv(st, held) && Enabled(st, held, a)
  {
    Ready(st, held, a);
    match a
    case Create(p, it) => (Allocated(st, p, it), held + multiset{p})
    case LinkIt(p, now) => (LinkItem(st, p, now), held)
    case UnlinkIt(p) => (UnlinkItem(st, p), held)
    case Fetch(key) => (Hold(st, st.index[key]), held + multiset{st.index[key]})
    case Release(p) => (Drop(st, p), held - multiset{p})
    case Update(p, now, segmented) => (Updated(st, p, now, segmented), held)
    case Reassign(p, cls) => (Relocate(st, p, cls), held)
    case Bump(p, room) => (BumpQueued(st, p, room), held)
    case Serve(now, segmented) => (BumpServed(st, now, segmented), held)
  }

  lemma Ready(st: State, held: multiset<Ptr>, a: Action)
    requires Inv(st, held) && Enabled(st, held, a)
    ensures forall p | p in st.items :: st.items[p].clsid < CLASSES
    ensures a.Serve? ==> st.bumps[0] in st.items
  {
    forall p | p in st.items ensures st.items[p].clsid < CLASSES { assert Reachable(st, p); }
    if a.Serve? {
      assert st.bumps[0] in st.bumps;
      assert Counted(st, held, st.bumps[0]);
    }
  }

  lemma ActKeeps(st: State, held: multiset<Ptr>, a: Action)
    requires Inv(st, held) && Enabled(st, held, a)
    ensures Inv(Act(st, held, a).0, Act(st, held, a).1)
  {
    match a
    case Create(p, it) => AllocKeeps(st, held, p, it);
    case LinkIt(p, now) => LinkKeeps(st, held, p, now);
    case UnlinkIt(p) => UnlinkKeeps(st, held, p);
    case Fetch(key) => HoldKeeps(st, held, st.index[key]);
    case Release(p) => DropKeeps(st, held, p);
    case Update(p, now, segmented) => UpdateKeeps(st, held, p, now, segmented);
    case Reassign(p, cls) => RelocateKeeps(st, held, p, cls);
    case Bump(p, room) => BumpKeeps(st, held, p, room);
    case Serve(now, segmented) => ServeKeeps(st, held, now, segmented);
  }

  /** A run: each step enabled in the state the steps before it lead to. */
  ghost predicate IsRun(st: State, held: multiset<Ptr>, run: seq<Action>, st': State, held': multiset<Ptr>)
    requires Inv(st, held)
    decreases run
  {
    if run == [] then
      st' == st && held' == held
    else if !Enabled(st, held, run[0]) then
      false
    else
      ActKeeps(st, held, run[0]);
      IsRun(Act(st, held, run[0]).0, Act(st, held, run[0]).1, run[1..], st', held')
  }

  /** After every run the reference counts are exact, and the freed items are gone from index, queues, bump
      buffers and everybody's hands. */
  lemma {:induction false} RunKeeps(st: State, held: multiset<Ptr>, run: seq<Action>, st': State, held': multiset<Ptr>)
    requires Inv(st, held) && IsRun(st, held, run, st', held')
    ensures Inv(st', held')
    decreases run
  {
    if run != [] {
      ActKeeps(st, held, run[0]);
      var (st1, held1) := Act(st, held, run[0]);
      RunKeeps(st1, held1, run[1..], st', held');
    }
  }

  /** In one step an item disappears exactly when item_free was called on it, and then nothing refers to it. */
  lemma ActFrees(st: State, held: multiset<Ptr>, a: Action, p: Ptr)
    requires Inv(st, held) && Enabled(st, held, a) && p in st.items
    ensures var (st', held') := Act(st, held, a);
            && (p !in st'.items <==> st'.freed == st.freed + [p])
            && (p !in st'.items ==> held'[p] == 0 && p !in st'.bumps && (forall k | k in st'.index :: st'.index[k] != p)
                                    && forall q | q in st'.queues :: p !in q)
  {
    ActKeeps(st, held, a);
    var (st', held') := Act(st, held, a);
    FreedStep(st, held, a, p);
    if p !in st'.items {
      Gone(st', held', p);
    }
  }

  lemma Gone(st: State, held: multiset<Ptr>, p: Ptr)
    requires Inv(st, held) && p !in st.items
    ensures held[p] == 0 && p !in st.bumps && (forall k | k in st.index :: st.index[k] != p)
    ensures forall q | q in st.queues :: p !in q
  {
    assert p in held || p in st.bumps ==> Counted(st, held, p);
    forall k | k in st.index ensures st.index[k] != p { assert IndexOK(st, k); }
    forall id | 0 <= id < CLASSES ensures p !in st.queues[id] { assert QueueOK(st, id); }
  }

  lemma FreedStep(st: State, held: multiset<Ptr>, a: Action, p: Ptr)
    requires Inv(st, held) && Enabled(st, held, a) && p in st.items
    ensures p !in Act(st, held, a).0.items <==> Act(st, held, a).0.freed == st.freed + [p]
  {
    Ready(st, held, a);
    match a
    case UnlinkIt(q) =>
      var it := st.items[q];
      var st1 := st.(items := st.items[q := it.(linked := false)], index := st.index - {it.key},
                     queues := st.queues[it.clsid := L.Without(st.queues[it.clsid], q)]);
      DropFrees(st1, q, p);
    case Release(q) => DropFrees(st, q, p);
    case Serve(now, segmented) =>
      ServeKeeps(st, held, now, segmented);
      UpdateKeeps(st, held, st.bumps[0], now, segmented);
      DropFrees(Updated(st, st.bumps[0], now, segmented).(bumps := st.bumps[1..]), st.bumps[0], p);
    case _ =>
      assert |st.freed + [p]| == |st.freed| + 1;
  }

  lemma DropFrees(st: State, q: Ptr, p: Ptr)
    requires q in st.items && p in st.items
    ensures p !in Drop(st, q).items <==> Drop(st, q).freed == st.freed + [p]
  {
    assert (st.freed + [q])[|st.freed|] == q && (st.freed + [p])[|st.freed|] == p;
  }
}
