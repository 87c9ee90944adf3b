/** What the page mover does to clients and how long it takes: it evicts only what it must, changes no value, and left
    alone it needs two passes. The mover's own code is the class at the end. */
module PageSweep {
  import opened Basics
  import opened Addresses
  import opened SlabChunks
  import opened PageMover

  /** The mover gives up on saving an item exactly when the item is dead or no free chunk lies outside the page. */
  lemma EvictsOnlyIfNoRoom(w: World, locked: bool, expired: bool)
    requires WorldOK(w) && Enabled(w, Examine(locked, expired))
    ensures var p, ch := Next(w, Examine(locked, expired)).m.phase, w.s.chunks[w.m.pos];
            && (p.Moving? <==> ch.linked && !locked && ch.refcount == 1)
            && (p.Moving? ==>
                  p.it == w.m.pos && (p.target.None? <==> expired || forall c <- w.s.free :: InPage(w.m, c)))
  {
    var s, m := w.s, w.m;
    var c, ch := m.pos, s.chunks[m.pos];
    assert w.workers + Mine(Idle) == w.workers;
    assert c !in s.free || ch.slabbed by { assert ChunkOK(s, w.workers, c); }
    assert ch.slabbed ==> !ch.linked by { assert ChunkOK(s, w.workers, c); }
    if ch.linked && !locked && ch.refcount == 1 && !expired { RoomExists(s, m, w.workers); }
  }

  lemma InsideFewer(m: Mover, f: seq<Ptr>, c: Ptr)
    requires Distinct(f) && InPage(m, c) && c !in f
    ensures Inside(m, f) < m.end - m.start
  {
    PageSize(m.start, m.end);
    InsideBound(m, f, Page(m.start, m.end) - {c});
  }

  lemma RoomExists(s: Slabs, m: Mover, workers: multiset<Ptr>)
    requires SlabsOK(s, workers, 0) && MoverOK(s, workers, m) && !m.done && s.chunks[m.pos].linked && m.pos !in s.free
    ensures Grab(s, m, false).1.None? <==> forall c <- s.free :: InPage(m, c)
  {
    var c, n := m.pos, m.end - m.start;
    TakeKeeps(s, workers, 0, c, false);
    InsideFewer(m, s.free, c);
    PullFinds(Take(s, c, false), m, workers + multiset{c}, 0, s.chunks[c].size, n);
  }

  /** The same values, sizes and marks under the same keys, except that gone has none. */
  ghost predicate SameValues(s: Slabs, s': Slabs, gone: set<Key>) {
    forall k :: Lookup(s', k) == if k in gone then None else Lookup(s, k)
  }

  /** The keys a mover step takes out of the cache. */
  ghost function Evicts(w: World, e: Event): set<Key> {
    if e.Transfer? && w.m.phase.Moving? && w.m.phase.target.None? && w.m.phase.it < |w.s.chunks|
    then {w.s.chunks[w.m.phase.it].key} else {}
  }

  /** No step of the mover changes what a client finds, its FETCHED mark included, but for the eviction of an item it
      cannot save. */
  lemma MoverKeepsValues(w: World, e: Event)
    requires WorldOK(w) && Enabled(w, e) && ByMover(e)
    ensures SameValues(w.s, Next(w, e).s, Evicts(w, e))
  {
    match e {
      case Examine(locked, expired) => ExamineValues(w, locked, expired);
      case Transfer => if w.m.phase.target.Some? { RescueValues(w); } else { UnlinkValues(w); }
      case GiveBack => UnindexedValues(w, w.m.phase.it, FreeChunk(w.s, w.m.phase.it));
      case Settle =>
    }
  }

  lemma UnindexedValues(w: World, c: Ptr, s': Slabs)
    requires WorldOK(w) && c < |w.s.chunks| && !w.s.chunks[c].linked && |s'.chunks| == |w.s.chunks| &&
             s'.index == w.s.index
    requires forall q | 0 <= q < |w.s.chunks| :: q != c ==> s'.chunks[q] == w.s.chunks[q]
    ensures SameValues(w.s, s', {})
  {
    forall k ensures Lookup(s', k) == Lookup(w.s, k) {
      if k in w.s.index { assert IndexedOK(w.s, k); }
    }
  }

  lemma ExamineValues(w: World, locked: bool, expired: bool)
    requires WorldOK(w) && Enabled(w, Examine(locked, expired))
    ensures SameValues(w.s, Next(w, Examine(locked, expired)).s, {})
  {
    var s, m, s' := w.s, w.m, Next(w, Examine(locked, expired)).s;
    assert w.workers + Mine(Idle) == w.workers;
    ExamineFrame(s, m, w.workers, locked, expired);
    forall k ensures Lookup(s', k) == Lookup(s, k) {
      if k in s.index {
        assert IndexedOK(s, k);
        assert ChunkOK(s, w.workers, s.index[k]);
      }
    }
  }

  /** A look at a chunk leaves the index alone, live chunks keep their values, and what is free in the page stays free.
      */
  lemma ExamineFrame(s: Slabs, m: Mover, workers: multiset<Ptr>, locked: bool, expired: bool)
    requires SlabsOK(s, workers, 0) && MoverOK(s, workers, m) && m.phase.Idle? && !m.done
    ensures var s' := Examined(s, m, locked, expired).0;
            && |s'.chunks| == |s.chunks| && s'.index == s.index && s'.dying == s.dying
            && (forall c | 0 <= c < |s.chunks| ::
                  !s.chunks[c].slabbed ==> ContentOf(s'.chunks[c]) == ContentOf(s.chunks[c]))
            && (forall c | m.start <= c < m.end :: s.chunks[c].slabbed ==> s'.chunks[c].slabbed)
  {
    var c, ch := m.pos, s.chunks[m.pos];
    assert ChunkOK(s, workers, c);
    if ch.linked && !locked && ch.refcount + 1 == 2 && !expired {
      var s1 := Take(s, c, false);
      TakeKeeps(s, workers, 0, c, false);
      PullKeeps(s1, m, workers + multiset{c}, 0, ch.size, m.end - m.start);
    }
  }

  lemma RescueValues(w: World)
    requires WorldOK(w) && w.m.phase.Moving? && w.m.phase.target.Some?
    ensures SameValues(w.s, Rescue(w.s, w.m.phase.it, w.m.phase.target.value), {})
  {
    var s, it, n := w.s, w.m.phase.it, w.m.phase.target.value;
    var s', held := Rescue(s, it, n), w.workers + Mine(w.m.phase);
    RescueFrame(s, it, n);
    assert ChunkOK(s, held, it);
    NotIndexed(s, held, 0, n);
    forall k ensures Lookup(s', k) == Lookup(s, k) {
      if k in s.index { assert IndexedOK(s, k); }
    }
  }

  lemma UnlinkValues(w: World)
    requires WorldOK(w) && w.m.phase.Moving? && w.m.phase.target.None?
    ensures SameValues(w.s, Unlink(w.s, w.m.phase.it), {w.s.chunks[w.m.phase.it].key})
  {
    var s, it := w.s, w.m.phase.it;
    forall k ensures Lookup(Unlink(s, it), k) == if k == s.chunks[it].key then None else Lookup(s, k) {
      if k in s.index { assert IndexedOK(s, k); }
    }
  }

  /** What workers do to the items a client finds: a link shows the item as it was written, a hit marks it as fetched,
      an unlink takes it away, and nothing else shows. */
  ghost predicate WorkerValues(w: World, e: Event, w': World) {
    match e
    case WAlloc(k, v, n) =>
      && w.s.free != [] && w.s.free[0] < |w'.s.chunks| && SameValues(w.s, w'.s, {})
      && var ch := w'.s.chunks[w.s.free[0]]; ch.key == k && ch.value == v && ch.size == n && !ch.fetched && !ch.linked
    case WLink(c) =>
      && c < |w.s.chunks|
      && forall k :: Lookup(w'.s, k) ==
                     if k == w.s.chunks[c].key then Some(ContentOf(w.s.chunks[c])) else Lookup(w.s, k)
    case WGet(key) =>
      forall k ::
        Lookup(w'.s, k) ==
        if k == key && Lookup(w.s, k).Some? then Some(Lookup(w.s, k).value.(fetched := true)) else Lookup(w.s, k)
    case WUnlink(c) => c < |w.s.chunks| && SameValues(w.s, w'.s, {w.s.chunks[c].key})
    case _ => SameValues(w.s, w'.s, {})
  }

  lemma WorkerFlow(w: World, e: Event)
    requires WorldOK(w) && Enabled(w, e) && !ByMover(e)
    ensures WorkerValues(w, e, Next(w, e))
  {
    match e {
      case WAlloc(k, v, n) => AllocValues(w, k, v, n);
      case WLink(c) => LinkValues(w, c);
      case WGet(key) => GetValues(w, key);
      case WUnlink(c) => DropValues(w, c);
      case WFree(c) =>
        assert ChunkOK(w.s, w.workers + Mine(w.m.phase), c) by {
          assert Mentioned(w.s, w.workers + Mine(w.m.phase), c);
        }
        UnindexedValues(w, c, FreeChunk(w.s, c));
      case _ => OtherValues(w, e);
    }
  }

  lemma AllocValues(w: World, k: Key, v: Value, n: nat)
    requires WorldOK(w) && Enabled(w, WAlloc(k, v, n))
    ensures WorkerValues(w, WAlloc(k, v, n), Next(w, WAlloc(k, v, n)))
  {
    var s, held := w.s, w.workers + Mine(w.m.phase);
    AllocKeeps(s, held, Extra(w.m.phase), k, v, n);
    assert ChunkOK(s, held, s.free[0]) by { assert Mentioned(s, held, s.free[0]); }
    UnindexedValues(w, s.free[0], Alloc(s, k, v, n));
  }

  lemma DropValues(w: World, c: Ptr)
    requires WorldOK(w) && Enabled(w, WUnlink(c))
    ensures SameValues(w.s, Unlink(w.s, c), {w.s.chunks[c].key})
  {
    forall k ensures Lookup(Unlink(w.s, c), k) == if k == w.s.chunks[c].key then None else Lookup(w.s, k) {
      if k in w.s.index { assert IndexedOK(w.s, k); }
    }
  }

  lemma OtherValues(w: World, e: Event)
    requires WorldOK(w) && Enabled(w, e) && (e.WGrow? || e.WRelease?)
    ensures SameValues(w.s, Next(w, e).s, {})
  {
    forall k ensures Lookup(Next(w, e).s, k) == Lookup(w.s, k) { if k in w.s.index { assert IndexedOK(w.s, k); } }
  }

  lemma LinkValues(w: World, c: Ptr)
    requires WorldOK(w) && Enabled(w, WLink(c))
    ensures WorkerValues(w, WLink(c), Next(w, WLink(c)))
  {
    var s, s' := w.s, Link(w.s, c);
    NotIndexed(s, w.workers + Mine(w.m.phase), Extra(w.m.phase), c);
    forall k
      ensures Lookup(s', k) == if k == s.chunks[c].key then Some(ContentOf(s.chunks[c])) else Lookup(s, k)
    {
      if k in s.index { assert IndexedOK(s, k); }
    }
  }

  lemma GetValues(w: World, key: Key)
    requires WorldOK(w) && Enabled(w, WGet(key))
    ensures WorkerValues(w, WGet(key), Next(w, WGet(key)))
  {
    var s, s' := w.s, Next(w, WGet(key)).s;
    assert IndexedOK(s, key);
    forall k
      ensures Lookup(s', k) ==
              if k == key && Lookup(s, k).Some? then Some(Lookup(s, k).value.(fetched := true)) else Lookup(s, k)
    {
      if k in s.index { assert IndexedOK(s, k); }
    }
  }

  /** No worker holds, links or frees anything of the class. */
  ghost predicate Quiet(w: World) {
    && WorldOK(w) && w.workers == multiset{} && w.s.dying == {}
    && (forall c | w.m.start <= c < w.m.pos :: w.s.chunks[c].slabbed)
    && (w.m.phase.Settling? ==> w.s.chunks[w.m.pos].slabbed)
  }

  /** A mover event whose try-lock does not fail. */
  predicate Alone(e: Event) { ByMover(e) && (e.Examine? ==> !e.locked) }

  /** Nothing in the page is live or was busy. */
  ghost predicate AllFree(w: World)
    requires w.m.end <= |w.s.chunks|
  {
    w.m.busy == 0 && forall c | w.m.start <= c < w.m.end :: w.s.chunks[c].slabbed
  }

  /** How many chunks the mover still looks at, at most. */
  ghost function ToLookAt(w: World): int
    requires w.m.end <= |w.s.chunks|
  {
    if w.m.done then 0
    else if !w.m.phase.Idle? then w.m.end - w.m.pos - 1 + (w.m.end - w.m.start)
    else if AllFree(w) then w.m.end - w.m.pos
    else w.m.end - w.m.pos + (w.m.end - w.m.start)
  }

  function Look(e: Event): nat { if e.Examine? then 1 else 0 }

  lemma QuietStep(w: World, e: Event)
    requires Quiet(w) && Enabled(w, e) && Alone(e)
    ensures var w' := Next(w, e); Quiet(w') && ToLookAt(w') + Look(e) <= ToLookAt(w)
  {
    StepKeeps(w, e);
    match e {
      case Examine(_, expired) => QuietExamine(w, expired);
      case Transfer => QuietTransfer(w);
      case GiveBack =>
        assert Next(w, e).s.dying == {};
      case Settle =>
    }
  }

  lemma QuietTransfer(w: World)
    requires Quiet(w) && Enabled(w, Transfer) && WorldOK(Next(w, Transfer))
    ensures var w' := Next(w, Transfer); Quiet(w') && ToLookAt(w') <= ToLookAt(w)
  {
    var it, held := w.m.phase.it, w.workers + Mine(w.m.phase);
    assert ChunkOK(w.s, held, it);
    if w.m.phase.target.Some? {
      RescueFrame(w.s, it, w.m.phase.target.value);
      RescueDying(w.s, held, it, w.m.phase.target.value);
    }
  }

  lemma RescueDying(s: Slabs, held: multiset<Ptr>, it: Ptr, n: Ptr)
    requires it < |s.chunks| && n < |s.chunks| && it != n && ChunkOK(s, held, it) && ChunkOK(s, held, n) &&
             held[it] == held[n] == 1
    requires s.chunks[it].linked && !s.chunks[n].linked
    ensures Rescue(s, it, n).dying == s.dying
  {
  }

  lemma QuietExamine(w: World, expired: bool)
    requires Quiet(w) && Enabled(w, Examine(false, expired)) && WorldOK(Next(w, Examine(false, expired)))
    ensures var w' := Next(w, Examine(false, expired)); Quiet(w') && ToLookAt(w') + 1 <= ToLookAt(w)
  {
    BehindIsFree(w, expired);
    FewerToLookAt(w, expired);
  }

  /** A quiet look leaves nothing live behind slab_pos. */
  lemma BehindIsFree(w: World, expired: bool)
    requires Quiet(w) && Enabled(w, Examine(false, expired)) && WorldOK(Next(w, Examine(false, expired)))
    ensures var w' := Next(w, Examine(false, expired));
            && w'.workers == multiset{} && w'.s.dying == {} && !w'.m.phase.Settling?
            && (forall c | w'.m.start <= c < w'.m.pos :: w'.s.chunks[c].slabbed)
  {
    assert w.workers + Mine(Idle) == w.workers;
    assert ChunkOK(w.s, w.workers, w.m.pos);
    ExamineFrame(w.s, w.m, w.workers, false, expired);
  }

  lemma FewerToLookAt(w: World, expired: bool)
    requires Quiet(w) && Enabled(w, Examine(false, expired)) && WorldOK(Next(w, Examine(false, expired)))
    ensures ToLookAt(Next(w, Examine(false, expired))) + 1 <= ToLookAt(w)
  {
    assert w.workers + Mine(Idle) == w.workers;
    assert ChunkOK(w.s, w.workers, w.m.pos);
    ExamineFrame(w.s, w.m, w.workers, false, expired);
  }

  ghost predicate AllAlone(es: seq<Event>) { forall e <- es :: Alone(e) }

  ghost function Looks(es: seq<Event>): nat {
    if es == [] then 0 else Look(es[0]) + Looks(es[1..])
  }

  lemma {:induction false} QuietRun(w: World, es: seq<Event>, w': World)
    requires Quiet(w) && Runs(w, es, w') && AllAlone(es)
    ensures Quiet(w') && ToLookAt(w') + Looks(es) <= ToLookAt(w)
    decreases es
  {
    if es != [] {
      QuietStep(w, es[0]);
      QuietRun(Next(w, es[0]), es[1..], w');
    }
  }

  /** With the workers quiet the mover looks at no chunk a third time, and is done as soon as it has looked at
      each of them twice. */
  lemma TwoPassesSuffice(w: World, es: seq<Event>, w': World)
    requires Started(w) && w.workers == multiset{} && w.s.dying == {} && Runs(w, es, w') && AllAlone(es)
    ensures Looks(es) <= 2 * (w.m.end - w.m.start)
    ensures Looks(es) == 2 * (w.m.end - w.m.start) && w'.m.phase.Idle? ==> w'.m.done
  {
    assert w.workers + Mine(Idle) == w.workers;
    QuietRun(w, es, w');
  }

  /** The mover never gets stuck: something it can do is enabled until it is done. */
  lemma MoverNeverStuck(w: World)
    requires WorldOK(w) && !w.m.done
    ensures exists e :: Alone(e) && Enabled(w, e)
  {
    var e := match w.m.phase
      case Idle => Examine(false, false)
      case Moving(_, _) => Transfer
      case Unlinked(_) => GiveBack
      case Settling(_) => Settle;
    assert Alone(e) && Enabled(w, e);
  }

  /** Steps left for the chunk under the mover. */
  function StepsHere(p: Phase): nat {
    match p
    case Idle => 0
    case Moving(_, _) => 3
    case Unlinked(_) => 2
    case Settling(_) => 1
  }

  /** Every step of the mover uses up a step of a budget of four per look. */
  lemma {:induction false} QuietLength(w: World, es: seq<Event>, w': World)
    requires Quiet(w) && Runs(w, es, w') && AllAlone(es)
    ensures Quiet(w') && ToLookAt(w') >= 0
    ensures |es| + 4 * ToLookAt(w') + StepsHere(w'.m.phase) <= 4 * ToLookAt(w) + StepsHere(w.m.phase)
    decreases es
  {
    if es != [] {
      QuietStep(w, es[0]);
      StepHere(w, es[0]);
      QuietLength(Next(w, es[0]), es[1..], w');
    }
  }

  lemma StepHere(w: World, e: Event)
    requires Enabled(w, e) && ByMover(e)
    ensures StepsHere(Next(w, e).m.phase) + 1 <= StepsHere(w.m.phase) + 4 * Look(e)
  {
  }

  /** Alone, the mover is done: a run of it has at most eight steps per chunk, and one that cannot be continued has
      done. */
  lemma QuietMoverFinishes(w: World, es: seq<Event>, w': World)
    requires Started(w) && w.workers == multiset{} && w.s.dying == {} && Runs(w, es, w') && AllAlone(es)
    ensures |es| <= 8 * (w.m.end - w.m.start)
    ensures (forall e :: Alone(e) ==> !Enabled(w', e)) ==> w'.m.done
  {
    assert w.workers + Mine(Idle) == w.workers;
    QuietLength(w, es, w');
    if !w'.m.done { MoverNeverStuck(w'); }
  }

  /** One turn of the loop in slab_rebalance_alloc. */
  lemma PullTurn(s: Slabs, m: Mover, held: multiset<Ptr>, size: nat, n: nat)
    requires SlabsOK(s, held, 0) && n > 0
    ensures s.slCurr == 0 ==> Pull(s, m, size, n) == (s, None)
    ensures s.slCurr != 0 ==> s.free != [] && s.free[0] < |s.chunks|
    ensures s.slCurr != 0 && InPage(m, s.free[0]) ==>
              SlabsOK(Reclaim(s, size), held, 0) && Pull(s, m, size, n) == Pull(Reclaim(s, size), m, size, n - 1)
    ensures s.slCurr != 0 && !InPage(m, s.free[0]) ==>
              Pull(s, m, size, n) ==
                  (Alloc(s, s.chunks[s.free[0]].key, s.chunks[s.free[0]].value, size), Some(s.free[0]))
  {
    if s.slCurr != 0 { ReclaimKeeps(s, m, held, 0, size); }
  }

  /** slab_rebal and the slab class, changed in place by the mover thread and the allocator. */
  class Rebalancer {
    var s: Slabs
    var m: Mover
    ghost var workers: multiset<Ptr>

    ghost function Now(): World reads this { World(s, workers, m) }

    constructor (s: Slabs, ghost workers: multiset<Ptr>, start: nat, end: nat)
      requires SlabsOK(s, workers, 0) && start < end <= |s.chunks|
      ensures Now() == World(s, workers, Mover(start, end, start, 0, Idle, false)) && Started(Now()) && WorldOK(Now())
    {
      this.s, this.workers, m := s, workers, Mover(start, end, start, 0, Idle, false);
      new;
      assert workers + Mine(Idle) == workers;
    }

    /** do_slabs_alloc without a new page: the head of the freelist, or nothing when sl_curr is zero. */
    method SlabsAlloc(key: Key, value: Value, size: nat) returns (c: Option<Ptr>)
      requires WorldOK(Now())
      modifies this
      ensures WorldOK(Now()) && (c.None? <==> old(s.free) == [])
      ensures c.None? ==> Now() == old(Now())
      ensures c.Some? ==>
                && old(Enabled(Now(), WAlloc(key, value, size)) && Now().s.free[0] == c.value)
                && Now() == old(Next(Now(), WAlloc(key, value, size)))
    {
      if s.slCurr == 0 { return None; }
      ghost var w := Now();
      AllocKeeps(s, workers + Mine(m.phase), Extra(m.phase), key, value, size);
      StepKeeps(w, WAlloc(key, value, size));
      var h := s.free[0];
      s := s.(free := s.free[1..]);
      s := s.(chunks := s.chunks[h := s.chunks[h].(slabbed := false, refcount := 1, size := size, key := key,
          value := value)]);
      s := s.(slCurr := s.slCurr - 1, requested := s.requested + size);
      workers := workers + multiset{h};
      assert Now() == Next(w, WAlloc(key, value, size));
      c := Some(h);
    }

    /** slab_rebalance_alloc. */
    method RebalanceAlloc(size: nat, ghost held: multiset<Ptr>) returns (r: Option<Ptr>)
      requires SlabsOK(s, held, 0) && m.start <= m.end
      modifies `s
      ensures (s, r) == Pull(old(s), m, size, m.end - m.start)
    {
      var x, n := 0, m.end - m.start;
      r := None;
      ghost var goal := Pull(s, m, size, n);
      while x < n
        invariant 0 <= x <= n && r.None? && SlabsOK(s, held, 0) && Pull(s, m, size, n - x) == goal
      {
        PullTurn(s, m, held, size, n - x);
        if s.slCurr == 0 { break; }
        var c := s.free[0];
        if InPage(m, c) {
          s := Reclaim(s, size);
        } else {
          s := Alloc(s, s.chunks[c].key, s.chunks[c].value, size);
          return Some(c);
        }
        x := x + 1;
      }
    }

    /** slab_rebalance_move up to the point where it drops slabs_lock. */
    method MoveOne(locked: bool, expired: bool)
      requires WorldOK(Now()) && m.phase.Idle? && !m.done
      modifies this
      ensures old(Enabled(Now(), Examine(locked, expired))) && Now() == old(Next(Now(), Examine(locked, expired))) &&
              WorldOK(Now())
    {
      StepKeeps(Now(), Examine(locked, expired));
      assert workers + Mine(Idle) == workers;
      LookAt(locked, expired);
    }

    method LookAt(locked: bool, expired: bool)
      requires SlabsOK(s, workers, 0) && MoverOK(s, workers, m) && m.phase.Idle? && !m.done
      modifies `s, `m
      ensures old(m.start <= m.pos < m.end <= |s.chunks|) && (s, m) == Examined(old(s), old(m), locked, expired)
    {
      var c, busy := m.pos, false;
      if !(s.chunks[c].slabbed && s.chunks[c].fetched) {
        if s.chunks[c].slabbed {
          s := CutFree(s, c);
        } else if s.chunks[c].linked && !locked {
          if s.chunks[c].refcount + 1 == 2 {
            GrabItem(expired);
            return;
          }
          busy := true;
        } else {
          busy := true;
        }
      }
      if busy { m := m.(busy := m.busy + 1); }
      FinishTurn();
    }

    method GrabItem(expired: bool)
      requires SlabsOK(s, workers, 0) && MoverOK(s, workers, m) && m.phase.Idle? && !m.done && s.chunks[m.pos].linked
      modifies `s, `m
      ensures old(m.start <= m.pos < m.end <= |s.chunks|)
      ensures var (s', f) := old(Grab(s, m, expired)); s == s' && m == old(m).(phase := Moving(old(m.pos), f))
    {
      var c, target := m.pos, None;
      TakeKeeps(s, workers, 0, c, false);
      s := Take(s, c, false);
      if !expired { target := RebalanceAlloc(s.chunks[c].size, workers + multiset{c}); }
      m := m.(phase := Moving(c, target));
    }

    /** Advance slab_pos; at the end of the page start again if something was busy, else be done. */
    method FinishTurn()
      modifies `m
      ensures m == Advance(old(m))
    {
      m := m.(phase := Idle);
      if m.pos + 1 < m.end { m := m.(pos := m.pos + 1); return; }
      if m.busy > 0 { m := m.(pos := m.start, busy := 0); } else { m := m.(pos := m.end, done := true); }
    }
  }
}
