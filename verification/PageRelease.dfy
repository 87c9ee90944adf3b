/** A page on its way out of a tenant (src/slabs.c): chosen as the coldest, moved clear of items while pages arrive,
    reads are counted and workers go on, and then taken off the page table and published. */
module PageRelease {
  import opened Basics
  import opened Addresses
  import opened SlabChunks
  import opened PageMover
  import T = PageTable

  /** No page is being moved. */
  const NO_MOVER := Mover(0, 0, 0, 0, Idle, true)

  /** A chunk of a new page, all zero. */
  const BLANK := Chunk(false, false, false, 0, 0, "", "")

  ghost function Joined(a: T.Roll, addr: int, key: Option<int>, from: Option<int>): T.Roll {
    T.Roll(a.addrs + [addr], a.keys + [key], a.conns + [from])
  }

  /** Pages of the class's own are ranges of its chunks. */
  ghost predicate InMemory(a: T.Roll, perslab: nat, n: nat)
    requires T.Even(a)
  {
    forall i | 0 <= i < |a.addrs| :: a.conns[i] == None ==> 0 <= a.addrs[i] <= a.addrs[i] + perslab <= n
  }

  lemma DroppedInMemory(a: T.Roll, r: nat, perslab: nat, n: nat)
    requires T.Even(a) && r < |a.addrs| && InMemory(a, perslab, n)
    ensures T.Even(T.DroppedFrom(a, r)) && InMemory(T.DroppedFrom(a, r), perslab, n)
  {
    var b := T.DroppedFrom(a, r);
    forall i | 0 <= i < |b.addrs| && b.conns[i] == None ensures 0 <= b.addrs[i] <= b.addrs[i] + perslab <= n {
      var j := if i < r then i else i + 1;
      assert b.addrs[i] == a.addrs[j] && b.conns[i] == a.conns[j];
    }
  }

  /** A class without pages. */
  const NO_CHUNKS := Slabs([], [], 0, 0, map[], {}, {})

  lemma NoChunksOK()
    ensures SlabsOK(NO_CHUNKS, multiset{}, 0)
  {}

  /** A worker's step in a class whose pages stay where they are. */
  lemma QuietStep(s: Slabs, workers: multiset<Ptr>, e: Event)
    requires SlabsOK(s, workers, 0) && Enabled(World(s, workers, NO_MOVER), e) && !e.WGrow?
    ensures var w := Next(World(s, workers, NO_MOVER), e);
            SlabsOK(w.s, w.workers, 0) && w.m == NO_MOVER && |w.s.chunks| >= |s.chunks|
  {
    var m := Mover(0, 1, 0, 0, Idle, false);
    assert workers + Mine(Idle) == workers;
    assert WorldOK(World(s, workers, m));
    StepKeeps(World(s, workers, m), e);
    StepSamePage(World(s, workers, m), e);
    var w := Next(World(s, workers, m), e);
    assert w.workers + Mine(Idle) == w.workers;
  }

  /** The class with n more chunks, all on the freelist. */
  function Grown(s: Slabs, n: nat): Slabs { if n == 0 then s else Grow(Grown(s, n - 1), BLANK) }

  /** What may happen to a class at any time: a new page of its own, a page borrowed from a remote node, a read counted
      for a page, a step of a worker or of the mover. */
  datatype Op = OpNew | OpBorrow(addr: int, key: int, from: int) | OpRead(page: nat) | OpStep(e: Event)

  /** The chunks with the mover, the pages of the table and the hits counted. */
  datatype Stage = Stage(w: World, list: T.Roll, hits: seq<nat>)

  /** What an operation makes of them. */
  ghost function Applied(x: Stage, perslab: nat, op: Op): Stage {
    match op
    case OpNew =>
      if |x.list.addrs| >= T.MAX_PAGES then x
      else x.(w := x.w.(s := Grown(x.w.s, perslab)), list := Joined(x.list, |x.w.s.chunks|, None, None))
    case OpBorrow(addr, key, from) =>
      if |x.list.addrs| >= T.MAX_PAGES then x else x.(list := Joined(x.list, addr, Some(key), Some(from)))
    case OpRead(i) => if i < |x.list.addrs| && i < |x.hits| then x.(hits := x.hits[i := x.hits[i] + 1]) else x
    case OpStep(e) => if Enabled(x.w, e) && !e.WGrow? then x.(w := Next(x.w, e)) else x
  }

  ghost function Performed(x: Stage, perslab: nat, ops: seq<Op>): Stage {
    if ops == [] then x else Applied(Performed(x, perslab, ops[..|ops| - 1]), perslab, ops[|ops| - 1])
  }

  lemma PerformedNext(x: Stage, perslab: nat, ops: seq<Op>, n: nat)
    requires n < |ops|
    ensures Performed(x, perslab, ops[..n + 1]) == Applied(Performed(x, perslab, ops[..n]), perslab, ops[n])
  {
    assert ops[..n + 1][..n] == ops[..n];
  }

  lemma PerformedAll(x: Stage, perslab: nat, ops: seq<Op>)
    ensures Performed(x, perslab, ops[..|ops|]) == Performed(x, perslab, ops)
  {
    assert ops[..|ops|] == ops;
  }

  /** A slab class: its page table, its chunks and the mover. */
  class PagedClass {
    const pages: T.SlabClass
    const perslab: nat
    var w: World

    /** The mover is at work on a page of the class's own. */
    ghost predicate Active()
      reads this, pages
    {
      pages.slabStart.Some? && pages.chosen.conn == None
    }

    ghost predicate Stock()
      reads this, pages
    {
      if Active() then WorldOK(w) && w.m.start == pages.chosen.addr && w.m.end == w.m.start + perslab
      else SlabsOK(w.s, w.workers, 0) && w.m == NO_MOVER
    }

    ghost predicate Valid()
      reads this, pages, pages.slabList, pages.hits, pages.rkey, pages.conn
    {
      pages.Valid() && perslab > 0 && InMemory(pages.List(), perslab, |w.s.chunks|) && Stock()
    }

    ghost predicate AtRest()
      reads pages
    {
      pages.toRelease.None? && pages.slabStart.None?
    }

    constructor (n: nat)
      requires n > 0
      ensures Valid() && AtRest() && pages.slabs == 0 && perslab == n && fresh(pages) && w.s.chunks == []
      ensures w.s.free == []
      ensures fresh(pages.slabList) && fresh(pages.hits) && fresh(pages.rkey) && fresh(pages.conn)
    {
      pages := new T.SlabClass();
      perslab := n;
      w := World(NO_CHUNKS, multiset{}, NO_MOVER);
      NoChunksOK();
    }

    /** One more chunk for the freelist. */
    method AddChunk()
      requires Stock()
      modifies `w
      ensures Stock() && w == old(w).(s := Grow(old(w).s, BLANK))
    {
      if w.m != NO_MOVER { GrowStep(w, BLANK); } else { GrowKeeps(w.s, w.workers, 0, BLANK); }
      w := w.(s := Grow(w.s, BLANK));
    }

    /** split_slab_page_into_freelist on a page of the class's own. */
    method SplitPage() returns (addr: int)
      requires Stock()
      modifies `w
      ensures Stock() && addr == old(|w.s.chunks|) && |w.s.chunks| == addr + perslab
      ensures w == old(w).(s := Grown(old(w).s, perslab))
    {
      addr := |w.s.chunks|;
      var x := 0;
      while x < perslab
        invariant 0 <= x <= perslab && Stock() && |w.s.chunks| == addr + x && w == old(w).(s := Grown(old(w).s, x))
      {
        AddChunk();
        x := x + 1;
      }
    }

    /** do_slabs_newslab, and a page taken over from another tenant of this node. */
    method NewPage()
      requires Valid()
      modifies this, pages, pages.slabList, pages.rkey, pages.conn
      ensures pages.Lists() && Undisturbed() && (Valid() <==> old(pages.slabs) < T.MAX_PAGES)
      ensures pages.List() == Joined(old(pages.List()), old(|w.s.chunks|), None, None)
      ensures w == old(w).(s := Grown(old(w).s, perslab))
    {
      var addr := SplitPage();
      pages.Append(addr, None, None);
    }

    /** A page lent by a remote node. */
    method Borrow(addr: int, key: int, from: int)
      requires Valid()
      modifies pages, pages.slabList, pages.rkey, pages.conn
      ensures pages.Lists() && Undisturbed() && (Valid() <==> old(pages.slabs) < T.MAX_PAGES)
      ensures pages.List() == Joined(old(pages.List()), addr, Some(key), Some(from))
    {
      pages.Append(addr, Some(key), Some(from));
    }

    /** The release in progress is what it was, and so are the pages there were. */
    twostate predicate Undisturbed()
      reads this, pages, pages.slabList, pages.rkey, pages.conn
      requires old(pages.Lists()) && pages.Lists()
    {
      && pages.OwnArrays() && pages.toRelease == old(pages.toRelease) && pages.slabStart == old(pages.slabStart)
      && pages.chosen == old(pages.chosen) && T.Extends(old(pages.List()), pages.List())
    }

    /** A step of anybody on the chunks. */
    method Step(e: Event)
      requires Valid() && Enabled(w, e) && !e.WGrow?
      modifies `w
      ensures Valid() && Undisturbed() && w == Next(old(w), e)
    {
      if w.m == NO_MOVER {
        QuietStep(w.s, w.workers, e);
      } else {
        StepKeeps(w, e);
        StepSamePage(w, e);
      }
      w := Next(w, e);
    }

    ghost function Now(): Stage
      reads this, pages, pages.slabList, pages.hits, pages.rkey, pages.conn
      requires pages.Arrays()
    {
      Stage(w, pages.List(), pages.hits[..])
    }

    method CountRead(i: nat)
      requires Valid() && i < pages.slabs
      modifies pages.hits
      ensures Valid() && Undisturbed() && Now() == Applied(old(Now()), perslab, OpRead(i))
    {
      pages.Hit(i);
    }

    method PerformOne(op: Op)
      requires Valid()
      modifies this, pages, pages.slabList, pages.hits, pages.rkey, pages.conn
      ensures Valid() && Undisturbed() && Now() == Applied(old(Now()), perslab, op)
    {
      match op {
        case OpNew => if pages.slabs < T.MAX_PAGES { NewPage(); }
        case OpBorrow(addr, key, from) => if pages.slabs < T.MAX_PAGES { Borrow(addr, key, from); }
        case OpRead(i) => if i < pages.slabs { CountRead(i); }
        case OpStep(e) => if Enabled(w, e) && !e.WGrow? { Step(e); }
      }
    }

    /** Any run of what may happen, one operation after the other; an operation that cannot happen is passed over. The
        release in progress and the pages there were stay what they were. */
    method Perform(ops: seq<Op>)
      requires Valid()
      modifies this, pages, pages.slabList, pages.hits, pages.rkey, pages.conn
      ensures Valid() && Undisturbed() && Now() == Performed(old(Now()), perslab, ops)
    {
      for n := 0 to |ops|
        invariant Valid() && Undisturbed() && Now() == Performed(old(Now()), perslab, ops[..n])
      {
        PerformedNext(old(Now()), perslab, ops, n);
        PerformOne(ops[n]);
      }
      PerformedAll(old(Now()), perslab, ops);
    }

    /** slab_rebalance_start: the mover is set on the page, if it is the class's own. */
    method Begin()
      requires Valid() && pages.toRelease.Some? && pages.slabStart.None?
      modifies `w, pages`slabStart
      ensures Valid() && pages.slabStart == Some(pages.chosen.addr)
      ensures pages.chosen.conn == None ==>
                var a := pages.chosen.addr; a >= 0 && w == old(w).(m := Mover(a, a + perslab, a, 0, Idle, false))
    {
      pages.Start();
      var r := pages.toRelease.value;
      if pages.conn[r] == None {
        var start := pages.slabList[r];
        assert w.workers + Mine(Idle) == w.workers;
        w := w.(m := Mover(start, start + perslab, start, 0, Idle, false));
      }
    }

    /** slab_rebalance_finish, once the mover is done: no chunk of the page given out is in use any more. */
    method End() returns (pp: int)
      requires Valid() && pages.slabStart.Some? && (Active() ==> w.m.done)
      modifies this, pages, pages.slabList, pages.hits, pages.rkey, pages.conn
      ensures Valid() && AtRest() && pages.OwnArrays() && pp == old(pages.chosen.addr)
      ensures pages.List() == T.DroppedFrom(old(pages.List()), old(pages.toRelease.value))
      ensures old(Active()) ==> forall c: Ptr | pp <= c < pp + perslab :: Detached(w.s, w.workers, c)
    {
      if w.m != NO_MOVER { DoneIsClear(w); }
      DroppedInMemory(pages.List(), pages.toRelease.value, perslab, |w.s.chunks|);
      w := w.(m := NO_MOVER);
      pp := pages.Finish();
    }

    /** pp went out as entry r of a table that had grown from was to last, and as a page of the class's own; no chunk of
        it is in use, and every other entry is still there. */
    ghost predicate Published(pp: int, r: nat, was: T.Roll, last: T.Roll)
      reads this, pages, pages.slabList, pages.hits, pages.rkey, pages.conn
    {
      && pages.Arrays() && AtRest() && T.Even(last) && T.Extends(was, last) && r < |last.addrs|
      && pp == last.addrs[r] && last.conns[r] == None && pages.List() == T.DroppedFrom(last, r)
      && forall c: Ptr | pp <= c < pp + perslab :: Detached(w.s, w.workers, c)
    }

    /** Anything may happen before the mover starts. */
    method Launch(before: seq<Op>)
      requires Valid() && pages.toRelease.Some? && pages.slabStart.None?
      modifies this, pages, pages.slabList, pages.hits, pages.rkey, pages.conn
      ensures Valid() && pages.OwnArrays() && pages.slabStart == Some(pages.chosen.addr)
      ensures pages.toRelease == old(pages.toRelease) && pages.chosen == old(pages.chosen)
      ensures T.Extends(old(pages.List()), pages.List())
    {
      Perform(before);
      ghost var list := pages.List();
      Begin();
      assert pages.List() == list;
    }

    /** From the choice of a page to the end of the move, with anything happening before the mover starts and while it
        is at work. If the move ends the page published is the chosen one, clear, and the table loses its entry only,
        whatever joined in the meantime. What the mover does to a page that is not the class's own is not modelled. */
    method Carry(before: seq<Op>, after: seq<Op>) returns (pp: Option<int>, ghost last: T.Roll)
      requires Valid() && pages.toRelease.Some? && pages.slabStart.None?
      modifies this, pages, pages.slabList, pages.hits, pages.rkey, pages.conn
      ensures Valid() && pages.OwnArrays()
      ensures pp.Some? ==> Published(pp.value, old(pages.toRelease.value), old(pages.List()), last)
      ensures pp.Some? ==> pp.value == old(pages.chosen.addr) && old(pages.chosen.conn) == None
      ensures pp.None? ==> pages.chosen == old(pages.chosen) && pages.slabStart == Some(pages.chosen.addr)
      ensures pp.None? && Active() ==> !w.m.done
    {
      Launch(before);
      Perform(after);
      last := pages.List();
      pp := Conclude(old(pages.List()));
    }

    /** slab_rebalance_finish if the mover is done with a page of the class's own, and nothing yet otherwise. */
    method Conclude(ghost was: T.Roll) returns (pp: Option<int>)
      requires Valid() && pages.slabStart.Some? && T.Extends(was, pages.List())
      modifies this, pages, pages.slabList, pages.hits, pages.rkey, pages.conn
      ensures Valid() && pages.OwnArrays()
      ensures pp.Some? ==> Published(pp.value, old(pages.toRelease.value), was, old(pages.List()))
      ensures pp.Some? ==> pp.value == old(pages.chosen.addr) && old(pages.chosen.conn) == None
      ensures pp.None? ==> pages.chosen == old(pages.chosen) && pages.slabStart == old(pages.slabStart)
      ensures pp.None? && Active() ==> !w.m.done
    {
      pp := None;
      if pages.conn[pages.toRelease.value] == None && w.m.done {
        var p := End();
        pp := Some(p);
      }
    }

    /** The release of a page r chosen by its hits. */
    method ReleasePage(r: nat, before: seq<Op>, after: seq<Op>) returns (pp: Option<int>, ghost last: T.Roll)
      requires Valid() && AtRest() && r < pages.slabs
      modifies this, pages, pages.slabList, pages.hits, pages.rkey, pages.conn
      ensures Valid() && pages.OwnArrays()
      ensures pp.Some? ==> Published(pp.value, r, old(pages.List()), last)
      ensures pp.None? ==> pages.slabStart == Some(old(pages.slabList[r]))
      ensures pp.None? && old(pages.conn[r]) == None ==> Active() && !w.m.done
    {
      pages.Choose(r);
      pp, last := Carry(before, after);
    }

    /** The release of free memory: a new page if one is to be had, then page 0 goes. outgrown tells that the new page
        was one more than hits has entries for; the release is followed only up to there. */
    method ReleaseFirst(gotPage: bool, before: seq<Op>, after: seq<Op>)
        returns (pp: Option<int>, outgrown: bool, ghost last: T.Roll)
      requires Valid() && AtRest()
      modifies this, pages, pages.slabList, pages.hits, pages.rkey, pages.conn
      ensures pages.OwnArrays() && (outgrown <==> gotPage && old(pages.slabs) == T.MAX_PAGES)
      ensures if outgrown then pp.None? && pages.toRelease == Some(0) && pages.slabStart.None? else Valid()
      ensures pp.Some? ==>
                Published(pp.value, 0, old(pages.List()), last) && old(pages.slabs == 0 || pages.conn[0] == None)
      ensures pages.slabStart.Some? ==> (Active() <==> old(pages.slabs == 0 || pages.conn[0] == None))
    {
      var ok := TakeFirst(gotPage);
      pp, last := None, pages.List();
      outgrown := pages.slabs > T.MAX_PAGES;
      if ok && !outgrown { pp, last := Carry(before, after); }
    }

    method TakeFirst(gotPage: bool) returns (ok: bool)
      requires Valid() && AtRest()
      modifies this, pages, pages.slabList, pages.rkey, pages.conn
      ensures pages.Lists() && (Valid() <==> !gotPage || old(pages.slabs) < T.MAX_PAGES) && pages.slabStart.None?
      ensures pages.OwnArrays() && T.Extends(old(pages.List()), pages.List())
      ensures ok == (gotPage || old(pages.slabs) > 0) && pages.slabs == old(pages.slabs) + Bit(gotPage)
      ensures ok ==>
                && pages.toRelease == Some(0)
                && (pages.chosen.conn == None <==> old(pages.slabs == 0 || pages.conn[0] == None))
    {
      var page := None;
      if gotPage {
        var addr := SplitPage();
        page := Some(addr);
      }
      ok := pages.ChooseFirst(page);
    }
  }

  /** calculate_scores to slab_rebalance_finish on all classes of a tenant. A page that goes out was the coldest of all
      pages that may go: not borrowed, not of the last victim, not among the newest of its class. */
  method Release(ks: seq<PagedClass>, cs: seq<T.SlabClass>, prev: nat, memAvail: nat, before: seq<Op>, after: seq<Op>)
      returns (v: T.Victim, pp: Option<int>, ghost us: seq<T.Usage>, ghost last: T.Roll)
    requires |ks| == |cs| && forall i | 0 <= i < |ks| :: ks[i].pages == cs[i] && ks[i].Valid() && ks[i].AtRest()
    requires forall i | 0 <= i < |cs| :: cs[i].Lists() && cs[i].Arrays()
    modifies ks, cs, set c <- cs :: c.slabList, set c <- cs :: c.hits, set c <- cs :: c.rkey, set c <- cs :: c.conn
    ensures |us| == |cs| && forall i | 0 <= i < |cs| :: us[i] == old(cs[i].Used())
    ensures pp.Some? ==>
              && v.OldPage? && T.Coldest(us, prev, v.clsid, v.page)
              && ks[v.clsid].Published(pp.value, v.page, old(cs[v.clsid].List()), last)
  {
    v, us := T.ChooseVictim(cs, prev, memAvail);
    pp, last := None, T.Roll([], [], []);
    if v.OldPage? {
      assert us[v.clsid] == cs[v.clsid].Used();
      pp, last := ks[v.clsid].ReleasePage(v.page, before, after);
    }
  }

  /** A class of one-chunk pages with one page of its own and a borrowed one. */
  method OwnAndBorrowed(addr: int, key: int, from: int) returns (k: PagedClass)
    ensures fresh(k) && fresh(k.pages) && fresh(k.pages.slabList) && fresh(k.pages.hits) && fresh(k.pages.rkey)
    ensures fresh(k.pages.conn)
    ensures k.Valid() && k.AtRest() && k.perslab == 1 && k.w.s.chunks == [BLANK.(slabbed := true)]
    ensures k.pages.List().addrs == [0, addr] && k.pages.List().conns == [None, Some(from)]
  {
    k := new PagedClass(1);
    assert Grown(k.w.s, 1) == Grow(Grown(k.w.s, 0), BLANK);
    k.NewPage();
    k.Borrow(addr, key, from);
  }

  /** The mover needs one look at a free chunk that is all of its page. */
  lemma FreeChunkMoves(w: World)
    requires |w.s.chunks| == 1 && w.s.chunks[0].slabbed && !w.s.chunks[0].fetched
    requires w.m == Mover(0, 1, 0, 0, Idle, false)
    ensures Enabled(w, Examine(false, false)) && Next(w, Examine(false, false)).m.done
  {}

  method FreePageGoes(k: PagedClass)
    requires k.Valid() && k.pages.toRelease == Some(0) && k.pages.slabStart.None? && k.perslab == 1
    requires k.pages.chosen.addr == 0 && k.pages.chosen.conn == None && k.w.s.chunks == [BLANK.(slabbed := true)]
    modifies k, k.pages, k.pages.slabList, k.pages.hits, k.pages.rkey, k.pages.conn
    ensures k.Valid() && k.AtRest() && k.pages.OwnArrays() && k.pages.List() == T.DroppedFrom(old(k.pages.List()), 0)
  {
    k.Begin();
    FreeChunkMoves(k.w);
    k.Step(Examine(false, false));
    var p := k.End();
  }

  method OwnGoes(k: PagedClass, from: int)
    requires k.Valid() && k.AtRest() && k.perslab == 1 && k.w.s.chunks == [BLANK.(slabbed := true)]
    requires k.pages.List().conns == [None, Some(from)] && k.pages.List().addrs[0] == 0
    modifies k, k.pages, k.pages.slabList, k.pages.hits, k.pages.rkey, k.pages.conn
    ensures k.Valid() && k.AtRest() && k.pages.OwnArrays() && k.pages.List().conns == [Some(from)]
  {
    ghost var all := k.pages.List();
    var ok := k.pages.ChooseFirst(None);
    assert k.pages.List() == all;
    FreePageGoes(k);
    assert T.Dropped(all.conns, 0) == [Some(from)];
  }

  /** A borrowed page can go the other way: of an own and a borrowed page the own one goes first, and the next release
      chooses the borrowed one. */
  method BorrowedGoes(addr: int, key: int, from: int) returns (k: PagedClass)
    ensures k.Valid() && k.pages.toRelease == Some(0) && k.pages.chosen.conn == Some(from)
  {
    k := OwnAndBorrowed(addr, key, from);
    OwnGoes(k, from);
    assert k.pages.conn[0] == k.pages.List().conns[0];
    var ok := k.pages.ChooseFirst(None);
    assert k.pages.At(0).conn == k.pages.List().conns[0];
  }
}
