/** The page table of a slab class (src/slabs.c): four parallel arrays, grown at the end and closed up when a page is
    given away, and the choice of the page to give away. */
module PageTable {
  import opened Basics

  const POWER_SMALLEST: nat := 1
  const HITS_LIMIT: nat := 1_000_000_000
  const FREE_ENOUGH: nat := 2_000_000
  const MAX_PAGES: nat := 4000

  /** A page as the four arrays describe it; conn is set for a page borrowed from a remote node. */
  datatype Page = Page(addr: int, hits: nat, rkey: Option<int>, conn: Option<int>)

  ghost function Dropped<T>(s: seq<T>, r: nat): seq<T>
    requires r < |s|
  {
    s[..r] + s[r + 1..]
  }

  /** Address, key and connection of the pages of a class, in order. */
  datatype Roll = Roll(addrs: seq<int>, keys: seq<Option<int>>, conns: seq<Option<int>>)

  /** Pages joined at the end only. */
  ghost predicate Extends(a: Roll, b: Roll) { a.addrs <= b.addrs && a.keys <= b.keys && a.conns <= b.conns }

  ghost predicate Even(a: Roll) { |a.addrs| == |a.keys| == |a.conns| }

  ghost function DroppedFrom(a: Roll, r: nat): Roll
    requires Even(a) && r < |a.addrs|
  {
    Roll(Dropped(a.addrs, r), Dropped(a.keys, r), Dropped(a.conns, r))
  }

  /** slab_list, hits, rkey and conn of a class, its page count, and the release in progress: the index slab_to_release,
      the page that was chosen and slab_rebal.slab_start once the mover has started. */
  class SlabClass {
    var slabList: array<int>
    var hits: array<nat>
    var rkey: array<Option<int>>
    var conn: array<Option<int>>
    var slabs: nat
    var toRelease: Option<nat>
    var slabStart: Option<int>
    ghost var chosen: Page

    /** The three arrays that grow have room for all pages. */
    ghost predicate Lists()
      reads this
    {
      slabs <= slabList.Length == rkey.Length == conn.Length && hits.Length == MAX_PAGES && rkey != conn
    }

    /** So has hits, which does not grow. */
    ghost predicate Arrays()
      reads this
    {
      Lists() && slabs <= MAX_PAGES
    }

    /** Where there is no page nothing is counted, so that a page that joins begins without hits. */
    ghost predicate Unread()
      reads this, hits
    {
      forall i | slabs <= i < hits.Length :: hits[i] == 0
    }

    ghost function At(i: nat): Page
      reads this, slabList, hits, rkey, conn
      requires Arrays() && i < slabs
    {
      Page(slabList[i], hits[i], rkey[i], conn[i])
    }

    ghost function List(): (a: Roll)
      reads this, slabList, rkey, conn
      requires Lists()
      ensures Even(a) && |a.addrs| == slabs
    {
      Roll(slabList[..slabs], rkey[..slabs], conn[..slabs])
    }

    ghost function Used(): (u: Usage)
      reads this, hits, conn
      requires Arrays()
      ensures |u.hits| == |u.conn| == slabs
    {
      Usage(hits[..slabs], conn[..slabs])
    }

    /** The release in progress is of the page chosen for it. */
    ghost predicate Releasing()
      reads this, slabList, hits, rkey, conn
      requires Arrays()
    {
      && (slabStart.Some? ==> toRelease.Some?)
      && (toRelease.Some? ==>
            && toRelease.value < slabs && At(toRelease.value).addr == chosen.addr
            && At(toRelease.value).conn == chosen.conn)
      && (slabStart.Some? ==> slabStart.value == chosen.addr)
    }

    ghost predicate Valid()
      reads this, slabList, hits, rkey, conn
    {
      Arrays() && Releasing()
    }

    /** The arrays are the ones of before or new. */
    twostate predicate OwnArrays()
      reads this
    {
      && hits == old(hits) && (slabList == old(slabList) || fresh(slabList))
      && (rkey == old(rkey) || fresh(rkey)) && (conn == old(conn) || fresh(conn))
    }

    constructor ()
      ensures Valid() && slabs == 0 && toRelease.None? && slabStart.None? && fresh(slabList) && fresh(hits) &&
              fresh(rkey) && fresh(conn) && Unread()
    {
      slabList, hits := new int[0], new nat[MAX_PAGES](_ => 0);
      rkey, conn := new Option<int>[0], new Option<int>[0];
      slabs, toRelease, slabStart, chosen := 0, None, None, Page(0, 0, None, None);
    }

    /** grow_slab_list: twice the room, with the entries where they were. */
    method GrowSlabList()
      requires Valid()
      modifies `slabList, `rkey, `conn
      ensures Valid() && slabs < slabList.Length && OwnArrays()
      ensures forall i | 0 <= i < slabs :: At(i) == old(At(i))
      ensures List() == old(List())
    {
      if slabs < slabList.Length { return; }
      var size := if slabList.Length != 0 then slabList.Length * 2 else 16;
      var n, l, k, c := slabList.Length, slabList, rkey, conn;
      var newList := new int[size](i requires 0 <= i < size reads l => if i < l.Length then l[i] else 0);
      var newKeys := new Option<int>[size](i requires 0 <= i < size reads k => if i < k.Length then k[i] else None);
      var newConns := new Option<int>[size](i requires 0 <= i < size reads c => if i < c.Length then c[i] else None);
      slabList, rkey, conn := newList, newKeys, newConns;
    }

    method PutLast(addr: int, key: Option<int>, from: Option<int>)
      requires Valid() && slabs < slabList.Length
      modifies `slabs, slabList, rkey, conn
      ensures Lists() && slabs == old(slabs) + 1 && (Valid() <==> slabs <= MAX_PAGES)
      ensures List() == Roll(old(List()).addrs + [addr], old(List()).keys + [key], old(List()).conns + [from])
      ensures Valid() ==> forall i | 0 <= i < old(slabs) :: At(i) == old(At(i))
    {
      slabList[slabs], rkey[slabs], conn[slabs] := addr, key, from;
      slabs := slabs + 1;
    }

    /** A page joins at the end: do_slabs_newslab, or a page received from another tenant. Nothing keeps the number of
        pages within the length of hits; the four arrays cover all pages afterwards if and only if there is still room
        in that one. */
    method Append(addr: int, key: Option<int>, from: Option<int>)
      requires Valid()
      modifies this, slabList, rkey, conn
      ensures Lists() && slabs == old(slabs) + 1 && (Valid() <==> old(slabs) < MAX_PAGES)
      ensures List() == Roll(old(List()).addrs + [addr], old(List()).keys + [key], old(List()).conns + [from])
      ensures Valid() ==> forall i | 0 <= i < old(slabs) :: At(i) == old(At(i))
      ensures toRelease == old(toRelease) && slabStart == old(slabStart) && chosen == old(chosen)
      ensures OwnArrays() && hits[..] == old(hits[..])
      ensures old(Unread()) ==> Unread() && (Valid() ==> At(old(slabs)).hits == 0)
    {
      GrowSlabList();
      PutLast(addr, key, from);
    }

    /** A read of an item counts for its page. */
    method Hit(i: nat)
      requires Valid() && i < slabs
      modifies hits
      ensures Valid() && forall j | 0 <= j < slabs ::
              At(j) == old(if j == i then At(j).(hits := hits[j] + 1) else At(j))
      ensures hits[..] == old(hits[..][i := hits[i] + 1]) && (old(Unread()) ==> Unread())
    {
      hits[i] := hits[i] + 1;
    }

    /** calculate_scores settles on page r of this class. */
    method Choose(r: nat)
      requires Valid() && toRelease.None? && slabStart.None? && r < slabs
      modifies `toRelease, `chosen
      ensures Valid() && toRelease == Some(r) && chosen == At(r)
    {
      toRelease := Some(r);
      chosen := At(r);
    }

    /** The other way a release starts, when there is free memory: the class gets a new page if it can, and then gives
        away its page 0. That page is its own exactly when it had none before or its first page is not borrowed. Without
        any page the program would read an entry that is not there; ok is then false. The new page may be one more than
        hits has entries for. */
    method ChooseFirst(page: Option<int>) returns (ok: bool)
      requires Valid() && toRelease.None? && slabStart.None?
      modifies this, slabList, rkey, conn
      ensures Lists() && OwnArrays() && slabStart.None? && ok == (page.Some? || old(slabs) > 0)
      ensures Valid() <==> page.None? || old(slabs) < MAX_PAGES
      ensures var was := old(List());
              List() == if page.None? then was
                        else Roll(was.addrs + [page.value], was.keys + [None], was.conns + [None])
      ensures ok ==>
                && toRelease == Some(0) && slabs > 0 && chosen == Page(slabList[0], hits[0], rkey[0], conn[0])
                && (chosen.conn == None <==> old(slabs == 0 || conn[0] == None))
      ensures !ok ==> toRelease.None?
    {
      ghost var was := List();
      if page.Some? {
        Append(page.value, None, None);
        assert was.conns != [] ==> (was.conns + [None])[0] == was.conns[0];
        assert conn[0] == List().conns[0];
      }
      ok := slabs > 0;
      if ok {
        toRelease := Some(0);
        chosen := Page(slabList[0], hits[0], rkey[0], conn[0]);
      }
    }

    /** slab_rebalance_start. */
    method Start()
      requires Valid() && toRelease.Some? && slabStart.None?
      modifies `slabStart
      ensures Valid() && slabStart == Some(chosen.addr)
    {
      slabStart := Some(slabList[toRelease.value]);
    }

    /** slab_rebalance_finish: the page given out is the one that was chosen and cleared, whatever pages came in
        meanwhile; it is a borrowed one exactly if it was when chosen; and all four arrays lose exactly its entry. */
    method Finish() returns (pp: int)
      requires Valid() && slabStart.Some?
      modifies this, slabList, hits, rkey, conn
      ensures Valid() && toRelease.None? && slabStart.None?
      ensures pp == old(chosen.addr) == old(slabStart.value) && old(conn[toRelease.value]) == old(chosen.conn)
      ensures slabs == old(slabs) - 1 && List() == DroppedFrom(old(List()), old(toRelease.value))
      ensures slabList == old(slabList) && hits == old(hits) && rkey == old(rkey) && conn == old(conn)
      ensures slabList[..slabs] == Dropped(old(slabList[..slabs]), old(toRelease.value))
      ensures hits[..slabs] == Dropped(old(hits[..slabs]), old(toRelease.value))
      ensures rkey[..slabs] == Dropped(old(rkey[..slabs]), old(toRelease.value))
      ensures conn[..slabs] == Dropped(old(conn[..slabs]), old(toRelease.value))
      ensures old(Unread()) ==> Unread()
    {
      pp := slabList[toRelease.value];
      DropEntry(toRelease.value);
      toRelease, slabStart := None, None;
    }

    /** All four arrays lose entry r. */
    method DropEntry(r: nat)
      requires Arrays() && r < slabs
      modifies `slabs, slabList, hits, rkey, conn
      ensures Arrays() && slabs == old(slabs) - 1 && (old(Unread()) ==> Unread())
      ensures slabList[..slabs] == Dropped(old(slabList[..slabs]), r) && hits[..slabs] == Dropped(old(hits[..slabs]), r)
      ensures rkey[..slabs] == Dropped(old(rkey[..slabs]), r) && conn[..slabs] == Dropped(old(conn[..slabs]), r)
    {
      ghost var a, h, k, c := slabList[..], hits[..], rkey[..], conn[..];
      slabs := slabs - 1;
      CloseUp(r);
      ClosedDrops(a, slabList, r, slabs);
      ClosedDrops(h, hits, r, slabs);
      ClosedDrops(k, rkey, r, slabs);
      ClosedDrops(c, conn, r, slabs);
    }

    static lemma ClosedDrops<T>(was: seq<T>, now: array<T>, r: nat, n: nat)
      requires Shifted(was, now[..], r, n)
      ensures n < now.Length && now[..n] == Dropped(was[..n + 1], r)
    {
      ShiftedDrops(was, now[..], r, n);
      assert now[..][..n] == now[..n];
    }

    method MoveDown(x: nat)
      requires x < slabs < slabList.Length == rkey.Length == conn.Length && slabs < hits.Length && rkey != conn
      modifies slabList, hits, rkey, conn
      ensures slabList[..] == old(slabList[..][x := slabList[x + 1]]) && hits[..] == old(hits[..][x := hits[x + 1]])
      ensures rkey[..] == old(rkey[..][x := rkey[x + 1]]) && conn[..] == old(conn[..][x := conn[x + 1]])
    {
      slabList[x] := slabList[x + 1];
      hits[x] := hits[x + 1];
      rkey[x] := rkey[x + 1];
      conn[x] := conn[x + 1];
    }

    /** The loop that moves all entries behind r down by one, and the clearing of the entry left over. */
    method CloseUp(r: nat)
      requires r <= slabs < slabList.Length == rkey.Length == conn.Length && slabs < hits.Length && rkey != conn
      modifies slabList, hits, rkey, conn
      ensures Shifted(old(slabList[..]), slabList[..], r, slabs) && Shifted(old(hits[..]), hits[..], r, slabs)
      ensures Shifted(old(rkey[..]), rkey[..], r, slabs) && Shifted(old(conn[..]), conn[..], r, slabs)
      ensures slabList[slabs] == 0 && hits[slabs] == 0 && rkey[slabs] == None && conn[slabs] == None
      ensures forall i | slabs < i < hits.Length :: hits[i] == old(hits[i])
    {
      var x := r;
      while x < slabs
        invariant r <= x <= slabs
        invariant Moved(old(slabList[..]), slabList[..], r, x) && Moved(old(hits[..]), hits[..], r, x)
        invariant Moved(old(rkey[..]), rkey[..], r, x) && Moved(old(conn[..]), conn[..], r, x)
      {
        ghost var a, h, k, c := slabList[..], hits[..], rkey[..], conn[..];
        MoveDown(x);
        MovedNext(old(slabList[..]), a, r, x);
        MovedNext(old(hits[..]), h, r, x);
        MovedNext(old(rkey[..]), k, r, x);
        MovedNext(old(conn[..]), c, r, x);
        x := x + 1;
      }
      slabList[slabs], hits[slabs], rkey[slabs], conn[slabs] := 0, 0, None, None;
    }
  }

  /** The entries from r to x have moved down by one and the others are where they were. */
  ghost predicate Moved<T>(was: seq<T>, now: seq<T>, r: nat, x: nat) {
    && |now| == |was| && (forall i | 0 <= i < |was| && (i < r || x <= i) :: now[i] == was[i])
    && (forall i | r <= i < x && i + 1 < |was| :: now[i] == was[i + 1])
  }

  lemma MovedNext<T>(was: seq<T>, now: seq<T>, r: nat, x: nat)
    requires Moved(was, now, r, x) && r <= x && x + 1 < |now|
    ensures Moved(was, now[x := now[x + 1]], r, x + 1)
  {}

  ghost predicate Shifted<T>(was: seq<T>, now: seq<T>, r: nat, n: nat) {
    && |now| == |was| && r <= n < |was| && (forall i | 0 <= i < r :: now[i] == was[i])
    && (forall i | r <= i < n :: now[i] == was[i + 1]) && (forall i | n < i < |was| :: now[i] == was[i])
  }

  lemma ShiftedDrops<T>(was: seq<T>, now: seq<T>, r: nat, n: nat)
    requires Shifted(was, now, r, n)
    ensures now[..n] == Dropped(was[..n + 1], r)
  {
    var d := Dropped(was[..n + 1], r);
    assert |d| == n;
    forall i | 0 <= i < n ensures now[i] == d[i] { assert d[i] == if i < r then was[i] else was[i + 1]; }
  }

  /** What the choice of a victim looks at: hits and conn of the pages of each class. */
  datatype Usage = Usage(hits: seq<nat>, conn: seq<Option<int>>)

  /** A page that may be given away: of a class other than the last victim with more than ten pages, not among its
      newest nine, not borrowed, and with fewer hits than the limit. */
  predicate Eligible(us: seq<Usage>, prev: nat, i: nat, j: nat) {
    && POWER_SMALLEST <= i < |us| && i != prev && |us[i].hits| == |us[i].conn| > 10 && j <= |us[i].hits| - 10
    && us[i].conn[j] == None && us[i].hits[j] < HITS_LIMIT
  }

  /** Before (i, j) in the order of the loops. */
  predicate Earlier(a: nat, b: nat, i: nat, j: nat) { a < i || (a == i && b < j) }

  /** The best of the eligible pages before (i, j), if any. */
  ghost predicate BestSoFar(us: seq<Usage>, prev: nat, best: Option<(nat, nat)>, lowest: nat, i: nat, j: nat) {
    match best
    case None => lowest == HITS_LIMIT &&
        forall a: nat, b: nat {:trigger Eligible(us, prev, a, b)} | Earlier(a, b, i, j) :: !Eligible(us, prev, a, b)
    case Some((x, y)) =>
      && Eligible(us, prev, x, y) && lowest == us[x].hits[y]
      && (forall a: nat, b: nat {:trigger Eligible(us, prev, a, b)} | Earlier(a, b, i, j) &&
          Eligible(us, prev, a, b) :: lowest <= us[a].hits[b])
      && (forall a: nat, b: nat {:trigger Eligible(us, prev, a, b)} | Earlier(a, b, x, y) &&
          Eligible(us, prev, a, b) :: lowest < us[a].hits[b])
  }

  /** No eligible page has fewer hits than page y of class x, and no earlier one as few. */
  ghost predicate Coldest(us: seq<Usage>, prev: nat, x: nat, y: nat) {
    && Eligible(us, prev, x, y)
    && (forall a: nat, b: nat {:trigger Eligible(us, prev, a, b)} | Eligible(us, prev, a, b) ::
        us[x].hits[y] <= us[a].hits[b])
    && (forall a: nat, b: nat {:trigger Eligible(us, prev, a, b)} | Earlier(a, b, x, y) &&
        Eligible(us, prev, a, b) :: us[x].hits[y] < us[a].hits[b])
  }

  /** One more page looked at. */
  lemma BestStep(us: seq<Usage>, prev: nat, best: Option<(nat, nat)>, lowest: nat, i: nat, j: nat)
    requires BestSoFar(us, prev, best, lowest, i, j) && lowest <= HITS_LIMIT
    ensures Eligible(us, prev, i, j) && us[i].hits[j] < lowest ==>
              BestSoFar(us, prev, Some((i, j)), us[i].hits[j], i, j + 1)
    ensures !(Eligible(us, prev, i, j) && us[i].hits[j] < lowest) ==> BestSoFar(us, prev, best, lowest, i, j + 1)
  {
    forall a: nat, b: nat ensures Earlier(a, b, i, j + 1) <==> Earlier(a, b, i, j) || (a == i && b == j) { }
  }

  /** A class without further pages to look at. */
  lemma BestNext(us: seq<Usage>, prev: nat, best: Option<(nat, nat)>, lowest: nat, i: nat, j: nat)
    requires BestSoFar(us, prev, best, lowest, i, j) && forall b: nat :: b >= j ==> !Eligible(us, prev, i, b)
    ensures BestSoFar(us, prev, best, lowest, i + 1, 0)
  {
    forall a: nat, b: nat ensures Earlier(a, b, i + 1, 0) <==> Earlier(a, b, i, j) || (a == i && b >= j) { }
  }

  /** What the arrays of the classes show. */
  lemma {:induction false} Survey(cs: seq<SlabClass>) returns (us: seq<Usage>)
    requires forall c <- cs :: c.Arrays()
    ensures |us| == |cs| && forall i | 0 <= i < |cs| :: us[i] == cs[i].Used()
    decreases |cs|
  {
    if cs == [] {
      us := [];
    } else {
      us := Survey(cs[..|cs| - 1]);
      us := us + [cs[|cs| - 1].Used()];
    }
  }

  datatype Victim = Nothing | FreeSpace | OldPage(clsid: nat, page: nat)

  /** The victim choice of calculate_scores, on the arrays of the classes: with enough free memory and any class of more
      than ten pages, free space; otherwise the first page with the fewest hits among all eligible ones, or nothing if
      there is none. */
  method ChooseVictim(cs: seq<SlabClass>, prev: nat, memAvail: nat) returns (v: Victim, ghost us: seq<Usage>)
    requires forall c <- cs :: c.Arrays()
    ensures |us| == |cs| && forall i | 0 <= i < |cs| :: us[i] == cs[i].Used()
    ensures v == FreeSpace <==>
              memAvail > FREE_ENOUGH && exists i :: POWER_SMALLEST <= i < |cs| && i != prev && cs[i].slabs > 10
    ensures v.OldPage? ==> Coldest(us, prev, v.clsid, v.page)
    ensures v == Nothing ==> forall a: nat, b: nat :: !Eligible(us, prev, a, b)
  {
    us := Survey(cs);
    var best: Option<(nat, nat)> := None;
    var lowest: nat := HITS_LIMIT;
    var i := POWER_SMALLEST;
    while i < |cs|
      invariant POWER_SMALLEST <= i && BestSoFar(us, prev, best, lowest, i, 0) && lowest <= HITS_LIMIT
      invariant memAvail > FREE_ENOUGH ==>
                forall k | POWER_SMALLEST <= k < i && k < |cs| :: k == prev || cs[k].slabs <= 10
    {
      if i != prev && cs[i].slabs > 10 {
        if memAvail > FREE_ENOUGH { return FreeSpace, us; }
        var zero;
        best, lowest, zero := ScanClass(cs[i], us, prev, i, best, lowest);
        if zero { return OldPage(best.value.0, best.value.1), us; }
      } else {
        BestNext(us, prev, best, lowest, i, 0);
      }
      i := i + 1;
    }
    if best.Some? { v := OldPage(best.value.0, best.value.1); } else { v := Nothing; }
  }

  /** The inner loop over the pages of class i; it stops at a page without hits. */
  method ScanClass(k: SlabClass, ghost us: seq<Usage>, prev: nat, i: nat, best0: Option<(nat, nat)>, lowest0: nat)
      returns (best: Option<(nat, nat)>, lowest: nat, zero: bool)
    requires k.Arrays() && POWER_SMALLEST <= i < |us| && us[i] == k.Used() && i != prev && k.slabs > 10
    requires BestSoFar(us, prev, best0, lowest0, i, 0) && lowest0 <= HITS_LIMIT
    ensures zero ==> best.Some? && Coldest(us, prev, best.value.0, best.value.1)
    ensures !zero ==> BestSoFar(us, prev, best, lowest, i + 1, 0) && lowest <= HITS_LIMIT
  {
    best, lowest := best0, lowest0;
    var j := 0;
    while j <= k.slabs - 10
      invariant 0 <= j <= k.slabs - 9 && BestSoFar(us, prev, best, lowest, i, j) && lowest <= HITS_LIMIT
    {
      BestStep(us, prev, best, lowest, i, j);
      if k.hits[j] < lowest && k.conn[j] == None {
        best, lowest := Some((i, j)), k.hits[j];
        if lowest == 0 { return best, lowest, true; }
      }
      j := j + 1;
    }
    BestNext(us, prev, best, lowest, i, j);
    zero := false;
  }
}
