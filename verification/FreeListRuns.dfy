/** The freelist in a run of the page mover: what the events of PageMover do to the sequence `free` is done here to the
    chunks threaded through prev and next, as src/slabs.c does it. */
module FreeListRuns {
  import opened Basics
  import opened Addresses
  import opened SlabChunks
  import opened PageMover
  import K = LruLinks
  import opened FreeList

  /** The chunks threaded from slots on are the free chunks of a class of n, and every chunk has its prev and next. */
  ghost predicate Threaded(list: ChunkList, free: seq<Ptr>, n: nat)
    reads list
  {
    list.Valid() && list.free == free && forall c {:trigger c + 1 in list.l} | 0 <= c < n :: c + 1 in list.l
  }

  /** slab_rebalance_alloc on the list: heads are taken off until one lies outside the page. */
  method FollowPull(list: ChunkList, s: Slabs, m: Mover, size: nat, n: nat, ghost held: multiset<Ptr>)
    requires SlabsOK(s, held, 0) && Threaded(list, s.free, |s.chunks|)
    modifies list
    ensures Threaded(list, Pull(s, m, size, n).0.free, |s.chunks|)
    ensures |Pull(s, m, size, n).0.chunks| == |s.chunks|
    decreases n
  {
    if n > 0 && list.slCurr != 0 {
      ReclaimKeeps(s, m, held, 0, size);
      var c := list.Take();
      if InPage(m, c.value) {
        FollowPull(list, Reclaim(s, size), m, size, n - 1, held);
      }
    }
  }

  /** slab_rebalance_move at one chunk. */
  method FollowExamine(list: ChunkList, w: World, locked: bool, expired: bool)
    requires WorldOK(w) && Enabled(w, Examine(locked, expired)) && Threaded(list, w.s.free, |w.s.chunks|)
    modifies list
    ensures var s := Examined(w.s, w.m, locked, expired).0;
            |s.chunks| == |w.s.chunks| && Threaded(list, s.free, |s.chunks|)
  {
    var c, s := w.m.pos, w.s;
    assert w.workers + Mine(Idle) == w.workers;
    assert ChunkOK(s, w.workers, c);
    if !Cleared(s.chunks[c]) {
      if s.chunks[c].slabbed {
        list.CutFree(c);
      } else if s.chunks[c].linked && !locked && s.chunks[c].refcount + 1 == 2 && !expired {
        TakeKeeps(s, w.workers, 0, c, false);
        FollowPull(list, Take(s, c, false), w.m, s.chunks[c].size, w.m.end - w.m.start, w.workers + multiset{c});
      }
    }
  }

  /** The freelist after an event that is no look of the mover at a chunk. */
  ghost function FreeAfter(free: seq<Ptr>, n: nat, phase: Phase, e: Event): seq<Ptr>
    requires e.WAlloc? ==> free != []
  {
    match e
    case WAlloc(_, _, _) => free[1..]
    case WGrow(_) => [n] + free
    case WFree(c) => [c] + free
    case GiveBack => if phase.Unlinked? then [phase.it] + free else free
    case _ => free
  }

  lemma Effect(w: World, e: Event)
    requires WorldOK(w) && Enabled(w, e) && !e.Examine?
    ensures e.WGrow? ==> |w.s.chunks| !in w.s.free
    ensures e.WFree? ==> e.c !in w.s.free
    ensures e.GiveBack? ==> w.m.phase.it !in w.s.free
    ensures var s := Next(w, e).s;
            && |s.chunks| == |w.s.chunks| + (if e.WGrow? then 1 else 0)
            && s.free == FreeAfter(w.s.free, |w.s.chunks|, w.m.phase, e)
  {
    var held := w.workers + Mine(w.m.phase);
    var c := if e.WFree? then e.c else if e.GiveBack? then w.m.phase.it else |w.s.chunks|;
    assert c < |w.s.chunks| || Mentioned(w.s, held, c) ==> ChunkOK(w.s, held, c);
  }

  /** One event. */
  method Follow(list: ChunkList, w: World, e: Event)
    requires WorldOK(w) && Enabled(w, e) && Threaded(list, w.s.free, |w.s.chunks|)
    modifies list
    ensures Threaded(list, Next(w, e).s.free, |Next(w, e).s.chunks|)
  {
    if e.Examine? {
      FollowExamine(list, w, e.locked, e.expired);
    } else {
      Effect(w, e);
      FollowOther(list, w.s.free, |w.s.chunks|, w.m.phase, e);
    }
  }

  /** do_slabs_alloc, do_slabs_free, and split_slab_page_into_freelist for a new chunk. */
  method FollowOther(list: ChunkList, ghost free: seq<Ptr>, n: nat, phase: Phase, e: Event)
    requires Threaded(list, free, n) && !e.Examine? && (e.WAlloc? ==> free != []) && (e.WGrow? ==> n !in free)
    requires e.WFree? ==> e.c < n && e.c !in free
    requires e.GiveBack? ==> phase.Unlinked? && phase.it < n && phase.it !in free
    modifies list
    ensures Threaded(list, FreeAfter(free, n, phase, e), if e.WGrow? then n + 1 else n)
  {
    match e {
      case WAlloc(_, _, _) =>
        var c := list.Take();
      case WGrow(ch) =>
        list.Provide(n);
        list.Put(n);
      case WFree(c) =>
        list.Put(c);
      case GiveBack =>
        list.Put(phase.it);
      case _ =>
    }
  }

  lemma RunsOn(w: World, es: seq<Event>, i: nat, v: World)
    requires WorldOK(w) && i < |es| && Runs(w, es[i..], v)
    ensures Enabled(w, es[i]) && WorldOK(Next(w, es[i])) && Runs(Next(w, es[i]), es[i + 1..], v)
  {
    assert es[i..][0] == es[i] && es[i..][1..] == es[i + 1..];
    StepKeeps(w, es[i]);
  }

  /** Any interleaving of workers and mover: the list is threaded right at the end, and once the mover is done no chunk
      of the page is on it. */
  method FollowRun(list: ChunkList, w: World, es: seq<Event>) returns (w': World)
    requires Started(w) && Threaded(list, w.s.free, |w.s.chunks|) && exists v :: Runs(w, es, v)
    modifies list
    ensures Runs(w, es, w') && Threaded(list, w'.s.free, |w'.s.chunks|)
    ensures w'.m.done ==> forall c <- list.free :: !(w'.m.start <= c < w'.m.end)
  {
    assert w.workers + Mine(Idle) == w.workers;
    w' := w;
    ghost var v :| Runs(w, es, v);
    var i := 0;
    while i < |es|
      invariant 0 <= i <= |es| && WorldOK(w') && Threaded(list, w'.s.free, |w'.s.chunks|) && Runs(w', es[i..], v)
    {
      RunsOn(w', es, i, v);
      Follow(list, w', es[i]);
      w' := Next(w', es[i]);
      i := i + 1;
    }
    if w'.m.done { DoneIsOff(w'); }
  }

  lemma DoneIsOff(w: World)
    requires WorldOK(w) && w.m.done
    ensures forall c <- w.s.free :: !(w.m.start <= c < w.m.end)
  {
    DoneIsClear(w);
    forall c: Ptr | w.m.start <= c < w.m.end ensures c !in w.s.free { assert Detached(w.s, w.workers, c); }
  }
}
