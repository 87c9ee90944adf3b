/** The slab page mover of src/slabs.c, stepping over the chunks of one page while workers keep allocating, linking,
    reading, unlinking and freeing chunks of the same class. A step is what happens under one hold of a lock. */
module PageMover {
  import opened Basics
  import opened Addresses
  import opened SlabChunks

  /** Where slab_rebalance_move stands with the chunk at slab_pos. In Moving and Unlinked it holds the item's lock. */
  datatype Phase = Idle | Moving(it: Ptr, target: Option<Ptr>) | Unlinked(it: Ptr) | Settling(adjust: nat)

  datatype Mover = Mover(start: nat, end: nat, pos: nat, busy: nat, phase: Phase, done: bool)

  /** The class, the references held by workers, and the mover. */
  datatype World = World(s: Slabs, workers: multiset<Ptr>, m: Mover)

  predicate InPage(m: Mover, c: Ptr) { m.start <= c < m.end }

  function Mine(p: Phase): multiset<Ptr> {
    match p
    case Moving(it, None) => multiset{it}
    case Moving(it, Some(n)) => multiset{it, n}
    case Unlinked(it) => multiset{it}
    case _ => multiset{}
  }

  function Extra(p: Phase): int { if p.Settling? then p.adjust else 0 }

  /** What the mover knows of the chunks it works on. */
  ghost predicate PhaseOK(s: Slabs, workers: multiset<Ptr>, m: Mover)
    requires m.end <= |s.chunks|
  {
    match m.phase
    case Idle => true
    case Moving(it, None) => it == m.pos < m.end && s.chunks[it].linked && workers[it] == 0
    case Moving(it, Some(n)) => it == m.pos < m.end && s.chunks[it].linked && workers[it] == 0 &&
        FreshOK(s, workers, m, it, n)
    case Unlinked(it) => it == m.pos < m.end && !s.chunks[it].linked && !s.chunks[it].slabbed && workers[it] == 0
    case Settling(_) => m.pos < m.end && (Cleared(s.chunks[m.pos]) || m.busy > 0)
  }

  ghost predicate FreshOK(s: Slabs, workers: multiset<Ptr>, m: Mover, it: Ptr, n: Ptr)
    requires it < |s.chunks|
  {
    n < |s.chunks| && !InPage(m, n) && n != it && !s.chunks[n].linked && !s.chunks[n].slabbed && workers[n] == 0 &&
        s.chunks[n].size == s.chunks[it].size
  }

  /** Behind slab_pos every chunk is cleared, or something was busy in this pass. */
  ghost predicate Swept(s: Slabs, m: Mover)
    requires m.end <= |s.chunks|
  {
    m.busy == 0 ==> forall c | m.start <= c < m.pos && c < m.end :: Cleared(s.chunks[c])
  }

  ghost predicate MoverOK(s: Slabs, workers: multiset<Ptr>, m: Mover) {
    && m.start < m.end <= |s.chunks| && m.start <= m.pos <= m.end
    && (m.done <==> m.pos == m.end) && (m.done ==> m.phase.Idle? && m.busy == 0)
    && PhaseOK(s, workers, m) && Swept(s, m)
  }

  ghost predicate WorldOK(w: World) {
    SlabsOK(w.s, w.workers + Mine(w.m.phase), Extra(w.m.phase)) && MoverOK(w.s, w.workers, w.m)
  }

  /** The end of one turn of the loop in slab_rebalance_move. */
  function Advance(m: Mover): Mover {
    if m.pos + 1 < m.end then m.(pos := m.pos + 1, phase := Idle)
    else if m.busy > 0 then m.(pos := m.start, busy := 0, phase := Idle)
    else m.(pos := m.end, done := true, phase := Idle)
  }

  /** The head of the freelist lies in the page: take it off and clear it in passing. */
  function Reclaim(s: Slabs, size: nat): Slabs
    requires s.free != [] && s.free[0] < |s.chunks|
  {
    var c := s.free[0];
    var s1 := Alloc(s, s.chunks[c].key, s.chunks[c].value, size);
    Wipe(s1, c).(requested := s1.requested - size)
  }

  /** slab_rebalance_alloc with n turns left: a chunk outside the page, if the freelist gives one. */
  function Pull(s: Slabs, m: Mover, size: nat, n: nat): (Slabs, Option<Ptr>)
    decreases n
  {
    if n == 0 || s.slCurr == 0 || s.free == [] || s.free[0] >= |s.chunks| then (s, None)
    else if InPage(m, s.free[0]) then Pull(Reclaim(s, size), m, size, n - 1)
    else (Alloc(s, s.chunks[s.free[0]].key, s.chunks[s.free[0]].value, size), Some(s.free[0]))
  }

  /** The mover takes its reference and, unless the item is dead anyway, looks for a chunk to copy it to. */
  function Grab(s: Slabs, m: Mover, expired: bool): (Slabs, Option<Ptr>)
    requires m.start <= m.pos < m.end <= |s.chunks|
  {
    var s1 := Take(s, m.pos, false);
    if expired then (s1, None) else Pull(s1, m, s.chunks[m.pos].size, m.end - m.start)
  }

  /** One look of slab_rebalance_move at the chunk at slab_pos. locked: the try-lock failed;
      expired: the item is expired or flushed. */
  function Examined(s: Slabs, m: Mover, locked: bool, expired: bool): (Slabs, Mover)
    requires m.start <= m.pos < m.end <= |s.chunks|
  {
    var c, ch := m.pos, s.chunks[m.pos];
    if Cleared(ch) then (s, Advance(m))
    else if ch.slabbed then (CutFree(s, c), Advance(m))
    else if ch.linked && !locked && ch.refcount + 1 == 2 then
      var (s1, target) := Grab(s, m, expired); (s1, m.(phase := Moving(c, target)))
    else (s, Advance(m.(busy := m.busy + 1)))
  }

  /** do_item_replace by the copy, then the wipe of the original. */
  function Rescue(s: Slabs, it: Ptr, n: Ptr): Slabs
    requires it < |s.chunks| && n < |s.chunks|
  {
    Wipe(Release(Link(Unlink(Fill(s, n, s.chunks[it]), it), n), n), it)
  }

  datatype Event =
    | WAlloc(key: Key, value: Value, size: nat) | WGrow(ch: Chunk) | WLink(c: Ptr) | WGet(key: Key)
    | WUnlink(c: Ptr) | WRelease(c: Ptr) | WFree(c: Ptr)
    | Examine(locked: bool, expired: bool) | Transfer | GiveBack | Settle

  /** The mover holds the lock of this key. */
  predicate Locked(w: World, k: Key) {
    match w.m.phase
    case Moving(it, _) => it < |w.s.chunks| && w.s.chunks[it].key == k
    case Unlinked(it) => it < |w.s.chunks| && w.s.chunks[it].key == k
    case _ => false
  }

  predicate Enabled(w: World, e: Event) {
    match e
    case WAlloc(_, _, _) => w.s.slCurr != 0 && w.s.free != [] && w.s.free[0] < |w.s.chunks|
    case WGrow(_) => true
    case WLink(c) => c in w.workers && c < |w.s.chunks| && !w.s.chunks[c].linked && w.s.chunks[c].key !in w.s.index &&
        !Locked(w, w.s.chunks[c].key)
    case WGet(k) => k in w.s.index && w.s.index[k] < |w.s.chunks| && !Locked(w, k)
    case WUnlink(c) => c < |w.s.chunks| && w.s.chunks[c].linked && !Locked(w, w.s.chunks[c].key)
    case WRelease(c) => c in w.workers && c < |w.s.chunks| && !Locked(w, w.s.chunks[c].key)
    case WFree(c) => c in w.s.dying && c < |w.s.chunks|
    case Examine(_, _) => w.m.phase.Idle? && !w.m.done && w.m.start <= w.m.pos < w.m.end <= |w.s.chunks|
    case Transfer => w.m.phase.Moving? && w.m.phase.it < |w.s.chunks| &&
        (w.m.phase.target.Some? ==> w.m.phase.target.value < |w.s.chunks|)
    case GiveBack => w.m.phase.Unlinked? && w.m.phase.it < |w.s.chunks|
    case Settle => w.m.phase.Settling?
  }

  function Next(w: World, e: Event): World
    requires Enabled(w, e)
  {
    match e
    case WAlloc(k, v, n) => w.(s := Alloc(w.s, k, v, n), workers := w.workers + multiset{w.s.free[0]})
    case WGrow(ch) => w.(s := Grow(w.s, ch))
    case WLink(c) => w.(s := Link(w.s, c))
    case WGet(k) => w.(s := Take(w.s, w.s.index[k], true), workers := w.workers + multiset{w.s.index[k]})
    case WUnlink(c) => w.(s := Unlink(w.s, c))
    case WRelease(c) => w.(s := Release(w.s, c), workers := w.workers - multiset{c})
    case WFree(c) => w.(s := FreeChunk(w.s, c))
    case Examine(locked, expired) => var (s, m) := Examined(w.s, w.m, locked, expired); w.(s := s, m := m)
    case Transfer =>
      (match w.m.phase.target
       case Some(n) => w.(s := Rescue(w.s, w.m.phase.it, n),
           m := w.m.(phase := Settling(w.s.chunks[w.m.phase.it].size)))
       case None => w.(s := Unlink(w.s, w.m.phase.it), m := w.m.(phase := Unlinked(w.m.phase.it))))
    case GiveBack => w.(s := FreeChunk(w.s, w.m.phase.it), m := w.m.(busy := w.m.busy + 1, phase := Settling(0)))
    case Settle => w.(s := w.s.(requested := w.s.requested - w.m.phase.adjust), m := Advance(w.m))
  }

  predicate ByMover(e: Event) { e.Examine? || e.Transfer? || e.GiveBack? || e.Settle? }

  /** Cleared chunks stay as they are, and the chunks the mover works on are left alone. */
  ghost predicate Spares(s: Slabs, s': Slabs, p: Phase) {
    && |s.chunks| <= |s'.chunks|
    && (forall c | 0 <= c < |s.chunks| :: Cleared(s.chunks[c]) ==> s'.chunks[c] == s.chunks[c])
    && (forall c | c in Mine(p) && c < |s.chunks| :: s'.chunks[c] == s.chunks[c])
  }

  lemma WorkerKeeps(w: World, s': Slabs, workers': multiset<Ptr>)
    requires WorldOK(w) && SlabsOK(s', workers' + Mine(w.m.phase), Extra(w.m.phase)) && Spares(w.s, s', w.m.phase)
    requires forall c | c in Mine(w.m.phase) :: workers'[c] == w.workers[c]
    ensures WorldOK(World(s', workers', w.m))
  {
    var m := w.m;
    assert PhaseOK(s', workers', m) by {
      match m.phase {
        case Moving(it, None) => assert it in Mine(m.phase);
        case Moving(it, Some(n)) => assert it in Mine(m.phase) && n in Mine(m.phase);
        case Unlinked(it) => assert it in Mine(m.phase);
        case _ =>
      }
    }
  }

  /** The references the mover holds: nobody else has them, and they are not on the freelist or dying. */
  lemma MineExclusive(w: World, c: Ptr)
    requires WorldOK(w) && c in Mine(w.m.phase)
    ensures c < |w.s.chunks| && w.workers[c] == 0 && !w.s.chunks[c].slabbed && c !in w.s.free && c !in w.s.dying &&
            Mine(w.m.phase)[c] == 1
  {
    assert Mentioned(w.s, w.workers + Mine(w.m.phase), c);
    assert ChunkOK(w.s, w.workers + Mine(w.m.phase), c);
  }

  lemma AllocStep(w: World, k: Key, v: Value, n: nat)
    requires WorldOK(w) && Enabled(w, WAlloc(k, v, n))
    ensures WorldOK(Next(w, WAlloc(k, v, n)))
  {
    var c, mine := w.s.free[0], Mine(w.m.phase);
    AllocKeeps(w.s, w.workers + mine, Extra(w.m.phase), k, v, n);
    assert w.workers + mine + multiset{c} == w.workers + multiset{c} + mine;
    assert c in w.s.free;
    forall q | q in mine ensures q != c { MineExclusive(w, q); }
    WorkerKeeps(w, Alloc(w.s, k, v, n), w.workers + multiset{c});
  }

  lemma GrowStep(w: World, ch: Chunk)
    requires WorldOK(w)
    ensures WorldOK(Next(w, WGrow(ch)))
  {
    GrowKeeps(w.s, w.workers + Mine(w.m.phase), Extra(w.m.phase), ch);
    WorkerKeeps(w, Grow(w.s, ch), w.workers);
  }

  lemma LinkStep(w: World, c: Ptr)
    requires WorldOK(w) && Enabled(w, WLink(c))
    ensures WorldOK(Next(w, WLink(c)))
  {
    var held := w.workers + Mine(w.m.phase);
    LinkKeeps(w.s, held, Extra(w.m.phase), c);
    assert ChunkOK(w.s, held, c);
    forall q | q in Mine(w.m.phase) ensures q != c { MineExclusive(w, q); }
    WorkerKeeps(w, Link(w.s, c), w.workers);
  }

  lemma MineUnlocked(w: World, c: Ptr)
    requires WorldOK(w) && c < |w.s.chunks| && w.s.chunks[c].linked && !Locked(w, w.s.chunks[c].key)
    ensures c !in Mine(w.m.phase)
  {
  }

  lemma GetStep(w: World, k: Key)
    requires WorldOK(w) && Enabled(w, WGet(k))
    ensures WorldOK(Next(w, WGet(k)))
  {
    var c, mine := w.s.index[k], Mine(w.m.phase);
    assert IndexedOK(w.s, k);
    MineUnlocked(w, c);
    assert ChunkOK(w.s, w.workers + mine, c);
    TakeKeeps(w.s, w.workers + mine, Extra(w.m.phase), c, true);
    assert w.workers + mine + multiset{c} == w.workers + multiset{c} + mine;
    WorkerKeeps(w, Take(w.s, c, true), w.workers + multiset{c});
  }

  lemma UnlinkStep(w: World, c: Ptr)
    requires WorldOK(w) && Enabled(w, WUnlink(c))
    ensures WorldOK(Next(w, WUnlink(c)))
  {
    assert ChunkOK(w.s, w.workers + Mine(w.m.phase), c);
    MineUnlocked(w, c);
    UnlinkKeeps(w.s, w.workers + Mine(w.m.phase), Extra(w.m.phase), c);
    WorkerKeeps(w, Unlink(w.s, c), w.workers);
  }

  lemma ReleaseStep(w: World, c: Ptr)
    requires WorldOK(w) && Enabled(w, WRelease(c))
    ensures WorldOK(Next(w, WRelease(c)))
  {
    var mine := Mine(w.m.phase);
    assert ChunkOK(w.s, w.workers + mine, c);
    ReleaseKeeps(w.s, w.workers + mine, Extra(w.m.phase), c);
    assert w.workers + mine - multiset{c} == w.workers - multiset{c} + mine;
    forall q | q in mine ensures q != c { MineExclusive(w, q); }
    WorkerKeeps(w, Release(w.s, c), w.workers - multiset{c});
  }

  lemma FreeStep(w: World, c: Ptr)
    requires WorldOK(w) && Enabled(w, WFree(c))
    ensures WorldOK(Next(w, WFree(c)))
  {
    var held := w.workers + Mine(w.m.phase);
    assert ChunkOK(w.s, held, c);
    FreeKeeps(w.s, held, Extra(w.m.phase), c);
    assert held - multiset{c} == held;
    forall q | q in Mine(w.m.phase) ensures q != c { MineExclusive(w, q); }
    WorkerKeeps(w, FreeChunk(w.s, c), w.workers);
  }

  /** What pulling chunks off the freelist leaves alone. */
  ghost predicate Pulled(s: Slabs, s': Slabs, m: Mover) {
    && |s'.chunks| == |s.chunks| && s'.index == s.index && s'.lru == s.lru && s'.dying == s.dying
    && (forall c | 0 <= c < |s.chunks| :: (!s.chunks[c].slabbed || Cleared(s.chunks[c]) ==> s'.chunks[c] == s.chunks[c])
                                           && (InPage(m, c) && s.chunks[c].slabbed ==> s'.chunks[c].slabbed))
  }

  ghost function One(f: Option<Ptr>): multiset<Ptr> { if f.Some? then multiset{f.value} else multiset{} }

  lemma ReclaimKeeps(s: Slabs, m: Mover, held: multiset<Ptr>, extra: int, size: nat)
    requires SlabsOK(s, held, extra) && s.slCurr != 0
    ensures s.free != [] && s.free[0] < |s.chunks| && SlabsOK(Reclaim(s, size), held, extra) &&
            Pulled(s, Reclaim(s, size), m)
  {
    var c := s.free[0];
    assert Mentioned(s, held, c);
    assert ChunkOK(s, held, c);
    AllocKeeps(s, held, extra, s.chunks[c].key, s.chunks[c].value, size);
    var s1 := Alloc(s, s.chunks[c].key, s.chunks[c].value, size);
    WipeKeeps(s1, held + multiset{c}, extra, c);
    assert held + multiset{c} - multiset{c} == held;
    SettleKeeps(Wipe(s1, c), held, extra + size, size);
  }

  lemma SettleKeeps(s: Slabs, held: multiset<Ptr>, extra: int, n: nat)
    requires SlabsOK(s, held, extra)
    ensures SlabsOK(s.(requested := s.requested - n), held, extra - n)
  {
    var s' := s.(requested := s.requested - n);
    forall c: Ptr | c < |s'.chunks| || Mentioned(s', held, c) ensures ChunkOK(s', held, c) {
      assert Mentioned(s', held, c) ==> Mentioned(s, held, c);
      assert ChunkOK(s, held, c);
    }
    forall k | k in s'.index ensures IndexedOK(s', k) { assert IndexedOK(s, k); }
  }

  lemma {:induction false} PullKeeps(s: Slabs, m: Mover, held: multiset<Ptr>, extra: int, size: nat, n: nat)
    requires SlabsOK(s, held, extra)
    ensures var (s', f) := Pull(s, m, size, n);
            && SlabsOK(s', held + One(f), extra) && Pulled(s, s', m)
            && (f.Some? ==>
                  && f.value < |s.chunks| && !InPage(m, f.value) && held[f.value] == 0
                  && s.chunks[f.value].slabbed && !s.chunks[f.value].fetched
                  && !s'.chunks[f.value].slabbed && !s'.chunks[f.value].linked && s'.chunks[f.value].size == size)
    decreases n
  {
    if n == 0 || s.slCurr == 0 {
      assert held + multiset{} == held;
    } else {
      assert Mentioned(s, held, s.free[0]);
      assert ChunkOK(s, held, s.free[0]);
      if InPage(m, s.free[0]) {
        ReclaimKeeps(s, m, held, extra, size);
        PullKeeps(Reclaim(s, size), m, held, extra, size, n - 1);
      } else {
        AllocKeeps(s, held, extra, s.chunks[s.free[0]].key, s.chunks[s.free[0]].value, size);
      }
    }
  }

  /** Freelist entries inside the page. */
  ghost function Inside(m: Mover, f: seq<Ptr>): nat {
    if f == [] then 0 else (if InPage(m, f[0]) then 1 else 0) + Inside(m, f[1..])
  }

  lemma {:induction false} InsideBound(m: Mover, f: seq<Ptr>, x: set<Ptr>)
    requires Distinct(f) && forall q <- f :: InPage(m, q) ==> q in x
    ensures Inside(m, f) <= |x|
    decreases f
  {
    if f != [] {
      assert forall q <- f[1..] :: q in f;
      if InPage(m, f[0]) {
        assert |x - {f[0]}| == |x| - 1;
        InsideBound(m, f[1..], x - {f[0]});
      } else {
        InsideBound(m, f[1..], x);
      }
    }
  }

  ghost function Page(a: nat, b: nat): set<Ptr> {
    if a < b then Page(a, b - 1) + {b - 1} else {}
  }

  lemma {:induction false} PageSize(a: nat, b: nat)
    requires a <= b
    ensures |Page(a, b)| == b - a && forall c: Ptr :: c in Page(a, b) <==> a <= c < b
    decreases b
  {
    if a < b { PageSize(a, b - 1); }
  }

  /** With at least as many turns as the freelist has chunks of the page, pulling fails only if there is nothing else.
      */
  lemma {:induction false} PullFinds(s: Slabs, m: Mover, held: multiset<Ptr>, extra: int, size: nat, n: nat)
    requires SlabsOK(s, held, extra) && Inside(m, s.free) < n
    ensures Pull(s, m, size, n).1.None? <==> forall c <- s.free :: InPage(m, c)
    decreases n
  {
    if s.slCurr != 0 {
      assert Mentioned(s, held, s.free[0]);
      assert ChunkOK(s, held, s.free[0]);
      if InPage(m, s.free[0]) {
        ReclaimKeeps(s, m, held, extra, size);
        PullFinds(Reclaim(s, size), m, held, extra, size, n - 1);
        assert forall q :: q in s.free <==> q == s.free[0] || q in s.free[1..];
      }
    }
  }

  lemma AdvanceKeeps(s: Slabs, workers: multiset<Ptr>, m: Mover)
    requires m.start <= m.pos < m.end <= |s.chunks| && !m.done && Swept(s, m)
    requires Cleared(s.chunks[m.pos]) || m.busy > 0
    ensures MoverOK(s, workers, Advance(m))
  {
  }

  lemma ExamineStep(w: World, locked: bool, expired: bool)
    requires WorldOK(w) && Enabled(w, Examine(locked, expired))
    ensures WorldOK(Next(w, Examine(locked, expired)))
  {
    assert w.workers + Mine(Idle) == w.workers;
    ExamineKeeps(w.s, w.m, w.workers, locked, expired);
  }

  lemma ExamineKeeps(s: Slabs, m: Mover, workers: multiset<Ptr>, locked: bool, expired: bool)
    requires SlabsOK(s, workers, 0) && MoverOK(s, workers, m) && m.phase.Idle? && !m.done
    ensures var r := Examined(s, m, locked, expired);
            SlabsOK(r.0, workers + Mine(r.1.phase), Extra(r.1.phase)) && MoverOK(r.0, workers, r.1)
  {
    var c, ch := m.pos, s.chunks[m.pos];
    if Cleared(ch) {
      MovesOn(s, workers, m);
    } else if ch.slabbed {
      CutKeeps(s, workers, 0, c);
      MovesOn(CutFree(s, c), workers, m);
    } else if ch.linked && !locked && ch.refcount + 1 == 2 {
      GrabKeeps(s, m, workers, expired);
    } else {
      MovesOn(s, workers, m.(busy := m.busy + 1));
    }
  }

  lemma MovesOn(s: Slabs, workers: multiset<Ptr>, m: Mover)
    requires SlabsOK(s, workers, 0) && m.start <= m.pos < m.end <= |s.chunks| && !m.done && Swept(s, m)
    requires Cleared(s.chunks[m.pos]) || m.busy > 0
    ensures var m' := Advance(m); SlabsOK(s, workers + Mine(m'.phase), Extra(m'.phase)) && MoverOK(s, workers, m')
  {
    AdvanceKeeps(s, workers, m);
    assert workers + Mine(Idle) == workers;
  }

  lemma OneMine(workers: multiset<Ptr>, c: Ptr, f: Option<Ptr>)
    ensures workers + multiset{c} + One(f) == workers + Mine(Moving(c, f))
  {
  }

  lemma GrabKeeps(s: Slabs, m: Mover, workers: multiset<Ptr>, expired: bool)
    requires SlabsOK(s, workers, 0) && MoverOK(s, workers, m) && m.phase.Idle? && !m.done && s.chunks[m.pos].linked &&
             s.chunks[m.pos].refcount == 1
    ensures var r := Grab(s, m, expired);
            && SlabsOK(r.0, workers + Mine(Moving(m.pos, r.1)), 0)
            && MoverOK(r.0, workers, m.(phase := Moving(m.pos, r.1)))
  {
    var c, s1 := m.pos, Take(s, m.pos, false);
    TakenKeeps(s, m, workers);
    if expired {
      OneMine(workers, c, None);
    } else {
      PullStep(s1, m, workers, c);
    }
  }

  /** The mover has its reference and nobody else has one. */
  lemma TakenKeeps(s: Slabs, m: Mover, workers: multiset<Ptr>)
    requires SlabsOK(s, workers, 0) && MoverOK(s, workers, m) && m.phase.Idle? && !m.done && s.chunks[m.pos].linked
    requires s.chunks[m.pos].refcount == 1
    ensures var s1 := Take(s, m.pos, false);
            && SlabsOK(s1, workers + multiset{m.pos}, 0) && MoverOK(s1, workers, m) && workers[m.pos] == 0
            && s1.chunks[m.pos].linked && s1.chunks[m.pos].size == s.chunks[m.pos].size
  {
    TakeKeeps(s, workers, 0, m.pos, false);
    assert ChunkOK(s, workers, m.pos);
  }

  lemma PullStep(s: Slabs, m: Mover, workers: multiset<Ptr>, c: Ptr)
    requires SlabsOK(s, workers + multiset{c}, 0) && MoverOK(s, workers, m) && m.phase.Idle? && !m.done &&
             c == m.pos && s.chunks[c].linked && workers[c] == 0
    ensures var r := Pull(s, m, s.chunks[c].size, m.end - m.start);
            SlabsOK(r.0, workers + Mine(Moving(c, r.1)), 0) && MoverOK(r.0, workers, m.(phase := Moving(c, r.1)))
  {
    var size, n := s.chunks[c].size, m.end - m.start;
    PullSlabs(s, m, workers, c, size, n);
    PullMover(s, m, workers, c);
  }

  lemma PullSlabs(s: Slabs, m: Mover, workers: multiset<Ptr>, c: Ptr, size: nat, n: nat)
    requires SlabsOK(s, workers + multiset{c}, 0)
    ensures SlabsOK(Pull(s, m, size, n).0, workers + Mine(Moving(c, Pull(s, m, size, n).1)), 0)
  {
    PullKeeps(s, m, workers + multiset{c}, 0, size, n);
    OneMine(workers, c, Pull(s, m, size, n).1);
  }

  lemma PullMover(s: Slabs, m: Mover, workers: multiset<Ptr>, c: Ptr)
    requires SlabsOK(s, workers + multiset{c}, 0) && MoverOK(s, workers, m) && m.phase.Idle? && !m.done &&
             c == m.pos && s.chunks[c].linked && workers[c] == 0
    ensures var r := Pull(s, m, s.chunks[c].size, m.end - m.start); MoverOK(r.0, workers, m.(phase := Moving(c, r.1)))
  {
    var held, size, n := workers + multiset{c}, s.chunks[c].size, m.end - m.start;
    var s2, f := Pull(s, m, size, n).0, Pull(s, m, size, n).1;
    assert !s.chunks[c].slabbed by { assert ChunkOK(s, held, c); }
    PullKeeps(s, m, held, 0, size, n);
    assert f.Some? ==> workers[f.value] <= held[f.value];
    PulledMover(s, s2, workers, m, c, f);
  }

  lemma PulledMover(s: Slabs, s2: Slabs, workers: multiset<Ptr>, m: Mover, c: Ptr, f: Option<Ptr>)
    requires MoverOK(s, workers, m) && m.phase.Idle? && !m.done && c == m.pos && s.chunks[c].linked &&
             !s.chunks[c].slabbed && workers[c] == 0
    requires Pulled(s, s2, m) && (f.Some? ==> FreshOK(s2, workers, m, c, f.value))
    ensures MoverOK(s2, workers, m.(phase := Moving(c, f)))
  {
    assert s2.chunks[c] == s.chunks[c];
  }

  lemma RescueStep(w: World)
    requires WorldOK(w) && w.m.phase.Moving? && w.m.phase.target.Some?
    ensures Enabled(w, Transfer) && WorldOK(Next(w, Transfer))
  {
    var it, n := w.m.phase.it, w.m.phase.target.value;
    var h := w.workers + multiset{it, n};
    MineExclusive(w, it);
    MineExclusive(w, n);
    RescueKeeps(w.s, h, it, n);
    assert h - multiset{n} - multiset{it} == w.workers;
    assert w.workers + Mine(Settling(w.s.chunks[it].size)) == w.workers;
    RescueFrame(w.s, it, n);
  }

  lemma RescueFrame(s: Slabs, it: Ptr, n: Ptr)
    requires it < |s.chunks| && n < |s.chunks| && it != n
    ensures var s' := Rescue(s, it, n);
            |s'.chunks| == |s.chunks| && Cleared(s'.chunks[it]) &&
                (forall c | 0 <= c < |s.chunks| :: c != it && c != n ==> s'.chunks[c] == s.chunks[c])
  {
  }

  lemma RescueKeeps(s: Slabs, h: multiset<Ptr>, it: Ptr, n: Ptr)
    requires SlabsOK(s, h, 0) && it < |s.chunks| && n < |s.chunks| && it != n && h[it] == 1 && h[n] == 1
    requires s.chunks[it].linked && !s.chunks[n].linked && s.chunks[n].size == s.chunks[it].size
    ensures SlabsOK(Rescue(s, it, n), h - multiset{n} - multiset{it}, s.chunks[it].size)
  {
    var a := Fill(s, n, s.chunks[it]);
    FillKeeps(s, h, 0, n, s.chunks[it]);
    var b := Unlink(a, it);
    UnlinkKeeps(a, h, 0, it);
    var c := Link(b, n);
    LinkKeeps(b, h, 0, n);
    var d := Release(c, n);
    ReleaseKeeps(c, h, 0, n);
    WipeKeeps(d, h - multiset{n}, 0, it);
  }

  lemma EvictStep(w: World)
    requires WorldOK(w) && w.m.phase.Moving? && w.m.phase.target.None?
    ensures Enabled(w, Transfer) && WorldOK(Next(w, Transfer))
  {
    UnlinkKeeps(w.s, w.workers + multiset{w.m.phase.it}, 0, w.m.phase.it);
    assert ChunkOK(w.s, w.workers + multiset{w.m.phase.it}, w.m.phase.it);
  }

  lemma GiveBackStep(w: World)
    requires WorldOK(w) && w.m.phase.Unlinked?
    ensures Enabled(w, GiveBack) && WorldOK(Next(w, GiveBack))
  {
    var it := w.m.phase.it;
    FreeKeeps(w.s, w.workers + multiset{it}, 0, it);
    assert w.workers + multiset{it} - multiset{it} == w.workers + Mine(Settling(0));
  }

  lemma SettleStep(w: World)
    requires WorldOK(w) && w.m.phase.Settling?
    ensures WorldOK(Next(w, Settle))
  {
    SettleKeeps(w.s, w.workers + Mine(w.m.phase), Extra(w.m.phase), w.m.phase.adjust);
    assert w.workers + Mine(w.m.phase) == w.workers + Mine(Advance(w.m).phase);
    AdvanceKeeps(Next(w, Settle).s, w.workers, w.m);
  }

  /** Every step of anybody keeps the invariant. */
  lemma StepKeeps(w: World, e: Event)
    requires WorldOK(w) && Enabled(w, e)
    ensures WorldOK(Next(w, e))
  {
    match e {
      case WAlloc(k, v, n) => AllocStep(w, k, v, n);
      case WGrow(ch) => GrowStep(w, ch);
      case WLink(c) => LinkStep(w, c);
      case WGet(k) => GetStep(w, k);
      case WUnlink(c) => UnlinkStep(w, c);
      case WRelease(c) => ReleaseStep(w, c);
      case WFree(c) => FreeStep(w, c);
      case Examine(locked, expired) => ExamineStep(w, locked, expired);
      case Transfer => if w.m.phase.target.Some? { RescueStep(w); } else { EvictStep(w); }
      case GiveBack => GiveBackStep(w);
      case Settle => SettleStep(w);
    }
  }

  /** es is a possible interleaving from w, ending in w'. */
  ghost predicate Runs(w: World, es: seq<Event>, w': World)
    decreases es
  {
    if es == [] then w' == w else Enabled(w, es[0]) && Runs(Next(w, es[0]), es[1..], w')
  }

  /** slab_rebalance_start on a class at rest with respect to the mover. */
  ghost predicate Started(w: World) {
    SlabsOK(w.s, w.workers, 0) && w.m.start < w.m.end <= |w.s.chunks| &&
        w.m == Mover(w.m.start, w.m.end, w.m.start, 0, Idle, false)
  }

  lemma {:induction false} RunKeeps(w: World, es: seq<Event>, w': World)
    requires WorldOK(w) && Runs(w, es, w')
    ensures WorldOK(w')
    decreases es
  {
    if es != [] {
      StepKeeps(w, es[0]);
      RunKeeps(Next(w, es[0]), es[1..], w');
    }
  }

  /** Nothing of the cache touches the chunk any more. */
  ghost predicate Detached(s: Slabs, workers: multiset<Ptr>, c: Ptr) {
    && c < |s.chunks| && Cleared(s.chunks[c]) && s.chunks[c].refcount == 0 && !s.chunks[c].linked
    && c !in s.free && c !in s.lru && c !in s.dying && c !in workers && (forall k | k in s.index :: s.index[k] != c)
  }

  lemma DoneIsClear(w: World)
    requires WorldOK(w) && w.m.done
    ensures forall c: Ptr | w.m.start <= c < w.m.end :: Detached(w.s, w.workers, c)
    ensures SlabsOK(w.s, w.workers, 0)
  {
    assert w.workers + Mine(w.m.phase) == w.workers;
    forall c: Ptr | w.m.start <= c < w.m.end ensures Detached(w.s, w.workers, c) {
      assert ChunkOK(w.s, w.workers, c);
      NotIndexed(w.s, w.workers, 0, c);
    }
  }

  /** When the mover is done, after any interleaving, the page is out of the freelist, the index and the queues and
      nobody holds a chunk of it; the counters agree with the freelist and with the bytes in use. */
  lemma PageIsClear(w: World, es: seq<Event>, w': World)
    requires Started(w) && Runs(w, es, w') && w'.m.done
    ensures forall c: Ptr | w'.m.start <= c < w'.m.end :: Detached(w'.s, w'.workers, c)
    ensures w'.s.slCurr == |w'.s.free| && w'.s.requested == Live(w'.s.chunks)
  {
    assert w.workers + Mine(Idle) == w.workers;
    RunKeeps(w, es, w');
    DoneIsClear(w');
  }

  /** The page being moved stays the same page. */
  lemma {:induction false} RunsSamePage(w: World, es: seq<Event>, w': World)
    requires Runs(w, es, w')
    ensures w'.m.start == w.m.start && w'.m.end == w.m.end && |w'.s.chunks| >= |w.s.chunks|
    decreases es
  {
    if es != [] {
      StepSamePage(w, es[0]);
      RunsSamePage(Next(w, es[0]), es[1..], w');
    }
  }

  lemma StepSamePage(w: World, e: Event)
    requires Enabled(w, e)
    ensures var w' := Next(w, e); w'.m.start == w.m.start && w'.m.end == w.m.end && |w'.s.chunks| >= |w.s.chunks|
  {
    if e.Examine? { PullLength(Take(w.s, w.m.pos, false), w.m, w.s.chunks[w.m.pos].size, w.m.end - w.m.start); }
  }

  lemma {:induction false} PullLength(s: Slabs, m: Mover, size: nat, n: nat)
    requires m.start <= m.end
    ensures |Pull(s, m, size, n).0.chunks| == |s.chunks|
    decreases n
  {
    if n > 0 && s.slCurr != 0 && s.free != [] && s.free[0] < |s.chunks| &&
        InPage(m, s.free[0]) { PullLength(Reclaim(s, size), m, size, n - 1); }
  }
}
