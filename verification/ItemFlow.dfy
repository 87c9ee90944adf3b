/** What an update, a hit or a bump does to one item of src/items.c, said on its fields: where it goes, which marks and
    times it then has, and that nothing else changes. */
module ItemFlow {
  import opened Basics
  import opened Addresses
  import opened CacheState
  import L = LruQueues

  const ITEM_UPDATE_INTERVAL: int := 0

  /** s without p. */
  function Others(s: seq<Ptr>, p: Ptr): seq<Ptr> {
    if s == [] then [] else (if s[0] == p then [] else [s[0]]) + Others(s[1..], p)
  }

  lemma {:induction false} OthersSame(s: seq<Ptr>, p: Ptr)
    requires p !in s
    ensures Others(s, p) == s
    decreases s
  {
    if s != [] { OthersSame(s[1..], p); }
  }

  lemma {:induction false} OthersCut(s: seq<Ptr>, p: Ptr)
    requires Distinct(s)
    ensures L.Without(s, p) == Others(s, p)
    decreases s
  {
    if s != [] {
      if s[0] == p { OthersSame(s[1..], p); } else { OthersCut(s[1..], p); }
    }
  }

  lemma {:induction false} OthersSplit(a: seq<Ptr>, b: seq<Ptr>, p: Ptr)
    ensures Others(a + b, p) == Others(a, p) + Others(b, p)
    decreases a
  {
    if a == [] {
      assert a + b == b;
    } else {
      assert (a + b)[1..] == a[1..] + b;
      OthersSplit(a[1..], b, p);
    }
  }

  /** No other item is different. */
  ghost predicate OnlyItem(st: State, st': State, p: Ptr) {
    && (forall q | q in st.items && q != p :: q in st'.items && st'.items[q] == st.items[q])
    && (forall q | q in st'.items && q != p :: q in st.items)
  }

  /** p is at the head of queue cls and nowhere else; all others are where they were. */
  ghost predicate AtHead(st: State, st': State, p: Ptr, cls: nat) {
    && |st'.queues| == |st.queues| && cls < |st.queues|
    && forall id | 0 <= id < |st.queues| ::
         st'.queues[id] == (if id == cls then [p] else []) + Others(st.queues[id], p)
  }

  /** In the COLD queue of its class. */
  predicate InCold(it: Item) { 128 <= it.clsid < 192 }

  predicate Due(it: Item, now: int) { it.time < now - ITEM_UPDATE_INTERVAL }

  /** do_item_update takes the item to WARM, or to the head of its own queue. */
  predicate Warms(it: Item, segmented: bool) { it.linked && segmented && InCold(it) && it.active }

  predicate Relinks(it: Item, now: int, segmented: bool) { it.linked && !segmented && Due(it, now) }

  /** The item after do_item_update: WARM of the same class is 64 below COLD. */
  function Renewed(it: Item, now: int, segmented: bool): Item {
    var warms := Warms(it, segmented);
    it.(clsid := if warms then it.clsid - 64 else it.clsid, active := it.active && !warms,
        time := if warms || (it.linked && Due(it, now)) then now else it.time)
  }

  /** The queues after it. */
  ghost predicate Requeued(st: State, st': State, p: Ptr, now: int, segmented: bool)
    requires p in st.items
  {
    var it := st.items[p];
    if Warms(it, segmented) then AtHead(st, st', p, it.clsid - 64)
    else if Relinks(it, now, segmented) then AtHead(st, st', p, it.clsid)
    else st'.queues == st.queues
  }

  /** do_item_update from st to st'. */
  ghost predicate Updates(st: State, st': State, p: Ptr, now: int, segmented: bool) {
    && p in st.items && p in st'.items && OnlyItem(st, st', p) && st'.index == st.index
    && st'.bumps == st.bumps && st'.freed == st.freed && st'.items[p] == Renewed(st.items[p], now, segmented)
    && Requeued(st, st', p, now, segmented)
  }

  /** A bump entry served from st to st': the item updated, the entry and its reference gone, and the item freed if that
      was the last one. */
  ghost predicate Serves(st: State, st': State, p: Ptr, now: int, segmented: bool) {
    && st.bumps != [] && st.bumps[0] == p && st'.bumps == st.bumps[1..] && p in st.items && OnlyItem(st, st', p)
    && st'.index == st.index && Requeued(st, st', p, now, segmented)
    && var it := Renewed(st.items[p], now, segmented);
       if it.refcount == 1 then p !in st'.items && st'.freed == st.freed + [p]
       else p in st'.items && st'.items[p] == it.(refcount := it.refcount - 1) && st'.freed == st.freed
  }

  /** The second hit of an item that is not active yet. */
  predicate SecondHit(it: Item) { it.fetched && !it.active }

  /** The item after a hit, and whether the hit leaves a bump entry. */
  predicate LeavesBump(it: Item, segmented: bool, room: bool) { segmented && SecondHit(it) && InCold(it) && room }

  function AfterHit(it: Item, now: int, segmented: bool, room: bool): Item {
    var bump := LeavesBump(it, segmented, room);
    var upper := segmented && SecondHit(it) && !InCold(it);
    it.(fetched := it.fetched || !segmented || !it.active, active := it.active || bump || upper,
        refcount := it.refcount + if bump then 1 else 0,
        time := if (upper || !segmented) && it.linked && Due(it, now) then now else it.time)
  }

  /** A hit on p from st to st'. */
  ghost predicate Hits(st: State, st': State, p: Ptr, now: int, segmented: bool, room: bool) {
    && p in st.items && p in st'.items && OnlyItem(st, st', p) && st'.index == st.index
    && st'.freed == st.freed && st'.items[p] == AfterHit(st.items[p], now, segmented, room)
    && st'.bumps == st.bumps + (if LeavesBump(st.items[p], segmented, room) then [p] else [])
    && if Relinks(st.items[p], now, segmented) then AtHead(st, st', p, st.items[p].clsid) else st'.queues == st.queues
  }

  /** do_item_link from st to st'. */
  ghost predicate Links(st: State, st': State, p: Ptr, now: int) {
    && p in st.items && p in st'.items && OnlyItem(st, st', p) && st'.bumps == st.bumps && st'.freed == st.freed
    && st'.items[p] == st.items[p].(linked := true, time := now, refcount := st.items[p].refcount + 1)
    && st'.index == st.index[st.items[p].key := p] && AtHead(st, st', p, st.items[p].clsid)
  }

  /** One reference less from st to st', and the item freed with the last one. */
  ghost predicate LetsGo(it: Item, st: State, st': State, p: Ptr) {
    if it.refcount == 1 then p !in st'.items && st'.freed == st.freed + [p]
    else p in st'.items && st'.items[p] == it.(refcount := it.refcount - 1) && st'.freed == st.freed
  }

  /** do_item_unlink: out of the index and its queue, with one reference less; nothing if it was not linked. */
  ghost predicate Unlinks(st: State, st': State, p: Ptr) {
    p in st.items &&
    if !st.items[p].linked then st' == st
    else
      && OnlyItem(st, st', p) && st'.bumps == st.bumps && st'.index == st.index - {st.items[p].key}
      && LetsGo(st.items[p].(linked := false), st, st', p) && |st'.queues| == |st.queues|
      && forall id | 0 <= id < |st.queues| :: st'.queues[id] == Others(st.queues[id], p)
  }

  /** do_item_remove. */
  ghost predicate Removes(st: State, st': State, p: Ptr) {
    && p in st.items && OnlyItem(st, st', p) && st'.bumps == st.bumps && st'.index == st.index
    && st'.queues == st.queues && LetsGo(st.items[p], st, st', p)
  }

  // ---------- the steps of a pull ----------

  /** p, not active any more, at the head of queue cls; no other item, no count and no key is different. */
  ghost predicate Moves(st: State, st': State, p: Ptr, cls: nat) {
    && p in st.items && p in st'.items && OnlyItem(st, st', p) && st'.index == st.index && st'.bumps == st.bumps
    && st'.freed == st.freed && st'.items[p] == st.items[p].(clsid := cls, active := false) && AtHead(st, st', p, cls)
  }

  /** p, not active any more and, if it was due, at the head of its queue with the present time. */
  ghost predicate Rescues(st: State, st': State, p: Ptr, now: int) {
    && p in st.items && p in st'.items && OnlyItem(st, st', p) && st'.index == st.index && st'.bumps == st.bumps
    && st'.freed == st.freed && st'.items[p] == RescuedItem(st.items[p], now)
    && if Due(st.items[p], now) then AtHead(st, st', p, st.items[p].clsid) else st'.queues == st.queues
  }

  function RescuedItem(it: Item, now: int): Item {
    it.(active := false, time := if Due(it, now) then now else it.time)
  }

  /** The queue of the same class that a verdict names. */
  function SegmentOf(clsid: nat, lru: nat): nat { clsid % 64 + lru }
}
