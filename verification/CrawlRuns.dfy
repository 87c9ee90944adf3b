/** The LRU crawler of src/crawler.c on a queue that is in use: between its turns the lock is free and items are linked,
    unlinked and moved, by others or by the crawler's own module. */
module CrawlRuns {
  import opened Basics
  import opened Addresses
  import opened LruLinks
  import L = LruQueues

  datatype Outcome = Going | AtHead | Cut

  /** The queue before and behind the crawler, its `remaining`, how it ended, and the items do_item_crawl_q has
      returned. Of those the thread passes over the locked and referenced ones and hands the others to its module. */
  datatype Crawl = Crawl(ahead: seq<Ptr>, behind: seq<Ptr>, left: nat, outcome: Outcome, visited: seq<Ptr>)

  datatype Event = Turn | Joins(p: Ptr) | Leaves(p: Ptr)

  function Whole(c: Crawl): seq<Ptr> { c.ahead + c.behind }

  function After(c: Crawl, e: Event): Crawl {
    match e
    case Turn =>
      if !c.outcome.Going? then c
      else if c.ahead == [] then c.(outcome := AtHead)
      else if c.left == 1 then c.(outcome := Cut)
      else
        var n, left := |c.ahead| - 1, if c.left == 0 then 0 else c.left - 1;
        Crawl(c.ahead[..n], [c.ahead[n]] + c.behind, left, Going, c.visited + [c.ahead[n]])
    case Joins(p) => if p in Whole(c) then c else c.(ahead := [p] + c.ahead)
    case Leaves(p) => c.(ahead := L.Without(c.ahead, p), behind := L.Without(c.behind, p))
  }

  function Play(c: Crawl, es: seq<Event>): Crawl {
    if es == [] then c else After(Play(c, es[..|es| - 1]), es[|es| - 1])
  }

  /** A crawl that has just started on the queue q. */
  function Fresh(q: seq<Ptr>, limit: nat): Crawl { Crawl(q, [], limit, Going, []) }

  ghost function Kept(s: seq<Ptr>, keep: set<Ptr>): seq<Ptr> {
    if s == [] then [] else (if s[0] in keep then [s[0]] else []) + Kept(s[1..], keep)
  }

  lemma {:induction false} KeptSplit(a: seq<Ptr>, b: seq<Ptr>, keep: set<Ptr>)
    ensures Kept(a + b, keep) == Kept(a, keep) + Kept(b, keep)
    decreases a
  {
    if a == [] {
      assert a + b == b;
    } else {
      var h := if a[0] in keep then [a[0]] else [];
      assert (a + b)[1..] == a[1..] + b && (a + b)[0] == a[0];
      KeptSplit(a[1..], b, keep);
      Regroup(h, Kept(a[1..], keep), Kept(b, keep));
    }
  }

  lemma {:induction false} KeptWithout(s: seq<Ptr>, p: Ptr, keep: set<Ptr>)
    requires p !in keep
    ensures Kept(L.Without(s, p), keep) == Kept(s, keep)
    decreases s
  {
    if s != [] && s[0] != p {
      KeptWithout(s[1..], p, keep);
      assert ([s[0]] + L.Without(s[1..], p))[1..] == L.Without(s[1..], p);
    }
  }

  /** No event links or unlinks an item of keep. */
  ghost predicate Untouched(es: seq<Event>, keep: set<Ptr>) {
    forall e <- es :: !e.Turn? ==> e.p !in keep
  }

  /** Whatever goes on, items that are left alone keep their order in the queue. */
  lemma {:induction false} OrderStays(c: Crawl, es: seq<Event>, keep: set<Ptr>)
    requires Untouched(es, keep)
    ensures Kept(Whole(Play(c, es)), keep) == Kept(Whole(c), keep)
    decreases es
  {
    if es != [] {
      var n := |es| - 1;
      OrderStays(c, es[..n], keep);
      StepOrder(Play(c, es[..n]), es[n], keep);
    }
  }

  lemma StepOrder(c: Crawl, e: Event, keep: set<Ptr>)
    requires !e.Turn? ==> e.p !in keep
    ensures Kept(Whole(After(c, e)), keep) == Kept(Whole(c), keep)
  {
    match e {
      case Turn =>
        if c.outcome.Going? && c.ahead != [] && c.left != 1 {
          var n := |c.ahead| - 1;
          assert c.ahead[..n] + ([c.ahead[n]] + c.behind) == c.ahead + c.behind;
        }
      case Joins(p) =>
        assert [p] + c.ahead + c.behind == [p] + (c.ahead + c.behind);
        KeptSplit([p], c.ahead + c.behind, keep);
      case Leaves(p) =>
        KeptSplit(c.ahead, c.behind, keep);
        KeptSplit(L.Without(c.ahead, p), L.Without(c.behind, p), keep);
        KeptWithout(c.ahead, p, keep);
        KeptWithout(c.behind, p, keep);
    }
  }

  /** The items of keep already visited, and then those still ahead from the tail on. */
  ghost function Itinerary(c: Crawl, keep: set<Ptr>): seq<Ptr> { Kept(c.visited, keep) + L.Rev(Kept(c.ahead, keep)) }

  /** Whatever goes on, items that are left alone are visited in their order from the tail to the head, each once; all
      of them, if the crawl gets to the head. */
  lemma {:induction false} VisitsEach(c: Crawl, es: seq<Event>, keep: set<Ptr>)
    requires c.outcome.Going? && Untouched(es, keep)
    ensures var c' := Play(c, es);
            && (c'.outcome.Going? ==> Itinerary(c', keep) == Itinerary(c, keep))
            && (c'.outcome.AtHead? ==> Kept(c'.visited, keep) == Itinerary(c, keep))
            && Kept(c'.visited, keep) <= Itinerary(c, keep)
    decreases es
  {
    if es != [] {
      var n := |es| - 1;
      VisitsEach(c, es[..n], keep);
      var d := Play(c, es[..n]);
      if d.outcome.Going? { StepItinerary(d, es[n], keep); }
    }
  }

  lemma StepItinerary(c: Crawl, e: Event, keep: set<Ptr>)
    requires c.outcome.Going? && (!e.Turn? ==> e.p !in keep)
    ensures Itinerary(After(c, e), keep) == Itinerary(c, keep)
    ensures After(c, e).outcome.AtHead? ==> After(c, e).ahead == []
  {
    match e {
      case Turn =>
        if c.ahead != [] && c.left != 1 {
          var n := |c.ahead| - 1;
          var y := c.ahead[n];
          assert c.ahead == c.ahead[..n] + [y];
          KeptSplit(c.ahead[..n], [y], keep);
          KeptSplit(c.visited, [y], keep);
          L.RevSplit(Kept(c.ahead[..n], keep), Kept([y], keep));
          assert L.Rev(Kept([y], keep)) == Kept([y], keep);
        }
      case Joins(p) =>
        assert ([p] + c.ahead)[1..] == c.ahead && ([p] + c.ahead)[0] == p;
        assert [] + Kept(c.ahead, keep) == Kept(c.ahead, keep);
      case Leaves(p) => KeptWithout(c.ahead, p, keep);
    }
  }

  function Turns(es: seq<Event>): nat {
    if es == [] then 0 else Turns(es[..|es| - 1]) + Bit(es[|es| - 1].Turn?)
  }

  function Arrivals(es: seq<Event>): nat {
    if es == [] then 0 else Arrivals(es[..|es| - 1]) + Bit(es[|es| - 1].Joins?)
  }

  lemma {:induction false} WithoutShorter(s: seq<Ptr>, p: Ptr)
    ensures |L.Without(s, p)| <= |s|
    decreases s
  {
    if s != [] { WithoutShorter(s[1..], p); }
  }

  /** While a crawl goes on every turn has brought it one item nearer to the head, and only a new item is one more. */
  lemma {:induction false} TurnsBounded(c: Crawl, es: seq<Event>)
    ensures var c' := Play(c, es); c'.outcome.Going? ==> Turns(es) + |c'.ahead| <= |c.ahead| + Arrivals(es)
    decreases es
  {
    if es != [] {
      var n := |es| - 1;
      TurnsBounded(c, es[..n]);
      if es[n].Leaves? { WithoutShorter(Play(c, es[..n]).ahead, es[n].p); }
    }
  }

  /** So a crawl without a limit is at the head once it has had more turns than there were items ahead and arrivals. */
  lemma ReachesHead(c: Crawl, es: seq<Event>)
    requires c.outcome.Going? && c.left == 0 && Turns(es) > |c.ahead| + Arrivals(es)
    ensures Play(c, es).outcome.AtHead?
  {
    TurnsBounded(c, es);
    VisitsBounded(c, es);
  }

  /** `remaining` = n allows n - 1 visits, for the n-th item found is dropped with the crawler; 0 sets no limit. */
  lemma {:induction false} VisitsBounded(c: Crawl, es: seq<Event>)
    requires c.outcome.Going?
    ensures var c' := Play(c, es); var made := |c'.visited| - |c.visited|;
            && made >= 0 && (c.left == 0 ==> !c'.outcome.Cut?)
            && (c.left > 0 ==> made < c.left && (c'.outcome.Cut? ==> made == c.left - 1))
            && (c'.outcome.Going? ==> c'.left == if c.left == 0 then 0 else c.left - made)
    decreases es
  {
    if es != [] { VisitsBounded(c, es[..|es| - 1]); }
  }

  /** An item that the crawler has passed is not visited again unless it is linked anew. */
  lemma {:induction false} NoReturn(c: Crawl, es: seq<Event>, x: Ptr)
    requires x !in c.ahead && Joins(x) !in es
    ensures x !in Play(c, es).ahead && multiset(Play(c, es).visited)[x] == multiset(c.visited)[x]
    decreases es
  {
    if es != [] {
      var n := |es| - 1;
      NoReturn(c, es[..n], x);
      var d := Play(c, es[..n]);
      if es[n].Leaves? { WithoutInside(d.ahead, es[n].p); }
    }
  }

  lemma {:induction false} WithoutInside(s: seq<Ptr>, p: Ptr)
    ensures forall q <- L.Without(s, p) :: q in s
    decreases s
  {
    if s != [] && s[0] != p { WithoutInside(s[1..], p); }
  }

  lemma {:induction false} WithoutDistinct(s: seq<Ptr>, p: Ptr)
    requires Distinct(s)
    ensures Distinct(L.Without(s, p))
    decreases s
  {
    if s != [] {
      WithoutInside(s[1..], p);
      WithoutDistinct(s[1..], p);
    }
  }

  /** Between two visits to the same item it was linked anew. */
  lemma {:induction false} OncePerLink(c: Crawl, es: seq<Event>, x: Ptr)
    requires Distinct(c.ahead) && Joins(x) !in es
    ensures var c' := Play(c, es);
            && multiset(c'.visited)[x] <= multiset(c.visited)[x] + 1
            && (x in c'.ahead ==> multiset(c'.visited)[x] == multiset(c.visited)[x])
    decreases es
  {
    if es != [] {
      var n := |es| - 1;
      OncePerLink(c, es[..n], x);
      StaysDistinct(c, es[..n]);
      var d := Play(c, es[..n]);
      match es[n] {
        case Turn => TurnOnce(d, x);
        case Joins(p) =>
        case Leaves(p) => WithoutInside(d.ahead, p);
      }
    }
  }

  lemma TurnOnce(c: Crawl, x: Ptr)
    requires Distinct(c.ahead)
    ensures var c' := After(c, Turn);
            if x !in c.ahead then multiset(c'.visited)[x] == multiset(c.visited)[x] && x !in c'.ahead
            else multiset(c'.visited)[x] + (if x in c'.ahead then 1 else 0) <= multiset(c.visited)[x] + 1
  {
    if c.ahead != [] {
      var n := |c.ahead| - 1;
      assert c.ahead == c.ahead[..n] + [c.ahead[n]];
      DistinctSplit(c.ahead[..n], [c.ahead[n]]);
    }
  }

  lemma {:induction false} StaysDistinct(c: Crawl, es: seq<Event>)
    requires Distinct(c.ahead)
    ensures Distinct(Play(c, es).ahead)
    decreases es
  {
    if es != [] {
      StaysDistinct(c, es[..|es| - 1]);
      StepDistinct(Play(c, es[..|es| - 1]), es[|es| - 1]);
    }
  }

  lemma StepDistinct(c: Crawl, e: Event)
    requires Distinct(c.ahead)
    ensures Distinct(After(c, e).ahead)
  {
    match e {
      case Turn =>
        if c.ahead != [] {
          var n := |c.ahead| - 1;
          assert c.ahead == c.ahead[..n] + [c.ahead[n]];
          DistinctSplit(c.ahead[..n], [c.ahead[n]]);
        }
      case Joins(p) => assert ([p] + c.ahead)[1..] == c.ahead;
      case Leaves(p) => WithoutDistinct(c.ahead, p);
    }
  }

  lemma {:induction false} KeptCount(s: seq<Ptr>, x: Ptr)
    ensures |Kept(s, {x})| == multiset(s)[x] && (Distinct(s) && x in s ==> multiset(s)[x] == 1)
    ensures x !in s ==> multiset(s)[x] == 0
    decreases s
  {
    if s != [] {
      KeptCount(s[1..], x);
      assert s == [s[0]] + s[1..];
    }
  }

  /** An item that was in the queue when the crawl started and is left alone is visited exactly once if the crawl gets
      to the head. */
  lemma ExactlyOnce(q: seq<Ptr>, limit: nat, es: seq<Event>, x: Ptr)
    requires Distinct(q) && x in q && Untouched(es, {x}) && Play(Fresh(q, limit), es).outcome.AtHead?
    ensures multiset(Play(Fresh(q, limit), es).visited)[x] == 1
  {
    VisitsEach(Fresh(q, limit), es, {x});
    KeptCount(q, x);
    KeptCount(Play(Fresh(q, limit), es).visited, x);
    L.RevSplit(Kept(q, {x}), []);
  }

  /** s is the queue of the crawl c with the crawler it in it while it is going, and the rest is what the thread knows.
      */
  ghost predicate Matches(s: seq<Ptr>, it: Ptr, c: Crawl, visited: seq<Ptr>, left: nat, done: bool) {
    && visited == c.visited && done == !c.outcome.Going? && (!done ==> left == c.left)
    && s == if done then Whole(c) else c.ahead + [it] + c.behind
  }

  /** What CrawlStep does is a turn: the last one ... */
  lemma LastTurn(s: seq<Ptr>, it: Ptr, c: Crawl, visited: seq<Ptr>, left: nat, left': nat)
    requires Matches(s, it, c, visited, left, false) && L.Without(s, it) == Whole(c) && (c.ahead == [] || left == 1)
    ensures Matches(L.Without(s, it), it, After(c, Turn), visited, left', true)
  {}

  /** ... or one past the item before the crawler. */
  lemma TurnPast(s: seq<Ptr>, it: Ptr, c: Crawl, visited: seq<Ptr>, left: nat)
    requires Matches(s, it, c, visited, left, false) && c.ahead != [] && left != 1
    ensures var a, y := c.ahead[..|c.ahead| - 1], Last(c.ahead, NULL);
            Matches(a + [it] + [y] + c.behind, it, After(c, Turn), visited + [y],
                    if left == 0 then 0 else left - 1, false)
  {
    var a, y := c.ahead[..|c.ahead| - 1], Last(c.ahead, NULL);
    assert a + [it] + [y] + c.behind == a + [it] + ([y] + c.behind);
  }

  lemma JoinMatches(s: seq<Ptr>, it: Ptr, c: Crawl, visited: seq<Ptr>, left: nat, done: bool, p: Ptr)
    requires Matches(s, it, c, visited, left, done) && p !in s
    ensures Matches([p] + s, it, After(c, Joins(p)), visited, left, done)
  {
    assert [p] + (c.ahead + [it] + c.behind) == [p] + c.ahead + [it] + c.behind;
    assert [p] + (c.ahead + c.behind) == [p] + c.ahead + c.behind;
    assert forall q <- Whole(c) :: q in s;
  }

  lemma LeaveMatches(s: seq<Ptr>, it: Ptr, c: Crawl, visited: seq<Ptr>, left: nat, done: bool, p: Ptr)
    requires Matches(s, it, c, visited, left, done) && Distinct(s) && p != it && p in s
    ensures Matches(L.Without(s, p), it, After(c, Leaves(p)), visited, left, done)
  {
    if done {
      DistinctSplit(c.ahead, c.behind);
      WithoutApart(c.ahead, c.behind, p);
    } else {
      DistinctSplit(c.ahead + [it], c.behind);
      WithoutApart(c.ahead + [it], c.behind, p);
      WithoutApart(c.ahead, [it], p);
    }
  }

  /** Leaving a concatenation. */
  lemma {:induction false} WithoutApart(a: seq<Ptr>, b: seq<Ptr>, p: Ptr)
    requires p in a ==> p !in b
    ensures L.Without(a + b, p) == L.Without(a, p) + L.Without(b, p)
    decreases a
  {
    if a == [] {
      assert a + b == b;
    } else {
      assert (a + b)[1..] == a[1..] + b && (a + b)[0] == a[0];
      if a[0] == p {
        WithoutAbsent(b, p);
      } else {
        WithoutApart(a[1..], b, p);
        Regroup([a[0]], L.Without(a[1..], p), L.Without(b, p));
      }
    }
  }

  lemma {:induction false} WithoutAbsent(s: seq<Ptr>, p: Ptr)
    requires p !in s
    ensures L.Without(s, p) == s
    decreases s
  {
    if s != [] { WithoutAbsent(s[1..], p); }
  }

  lemma PlayMore(c: Crawl, es: seq<Event>, e: Event)
    ensures Play(c, es + [e]) == After(Play(c, es), e)
  {
    assert (es + [e])[..|es|] == es;
  }

  /** A crawl under way on one of the queues. */
  class Crawling {
    const q: L.Queues
    const it: Ptr
    const id: nat
    var visited: seq<Ptr>
    var left: nat
    var done: bool
    ghost var first: Crawl
    ghost var trace: seq<Event>
    ghost var now: Crawl

    ghost predicate Valid()
      reads this, q
    {
      && q.Valid() && it in q.info && q.info[it].clsid == id < L.LARGEST_ID && q.info[it].crawler
      && Matches(q.qs[id], it, now, visited, left, done) && now == Play(first, trace)
    }

    /** do_lru_crawler_start: the crawler joins at the tail. */
    constructor (qs: L.Queues, c: Ptr, limit: nat)
      requires qs.Valid() && c in qs.info && qs.info[c].crawler && qs.info[c].clsid < L.LARGEST_ID
      requires c !in qs.qs[qs.info[c].clsid]
      modifies qs
      ensures Valid() && q == qs && it == c && id == old(qs.info)[c].clsid && trace == []
      ensures first == Fresh(old(qs.qs)[id], limit)
    {
      q, it, id := qs, c, qs.info[c].clsid;
      visited, left, done := [], limit, false;
      first, trace := Fresh(qs.qs[qs.info[c].clsid], limit), [];
      now := Fresh(qs.qs[qs.info[c].clsid], limit);
      new;
      qs.LinkTailQ(c);
      assert first.ahead + [c] + [] == first.ahead + [c];
    }

    ghost method Log(e: Event)
      requires now == Play(first, trace)
      modifies `trace, `now
      ensures trace == old(trace) + [e] && now == After(old(now), e) && now == Play(first, trace)
    {
      PlayMore(first, trace, e);
      trace, now := trace + [e], After(now, e);
    }

    /** do_item_crawl_q and what the thread makes of its answer. */
    method CrawlOnce() returns (search: Ptr, end: bool, rest: nat)
      requires q.Valid() && it in q.info && q.info[it].clsid == id < L.LARGEST_ID && q.info[it].crawler
      requires Matches(q.qs[id], it, now, visited, left, false)
      modifies q
      ensures q.Valid() && q.info == old(q.info)
      ensures Matches(q.qs[id], it, After(now, Turn), if end then visited else visited + [search], rest, end)
    {
      L.CrawlEnd(q.Now(), q.qs, it, id, now.ahead, now.behind);
      ghost var s := q.qs[id];
      search, end, rest := q.CrawlStep(it, left, now.ahead, now.behind);
      if end {
        LastTurn(s, it, now, visited, left, rest);
      } else {
        TurnPast(s, it, now, visited, left);
      }
    }

    /** A turn of the crawler thread. */
    method TakeTurn()
      requires Valid() && !done
      modifies this, q
      ensures Valid() && first == old(first) && trace == old(trace) + [Turn]
    {
      var search, end, rest := CrawlOnce();
      visited, left, done := if end then visited else visited + [search], rest, end;
      Log(Turn);
    }

    /** do_item_link_q, on this queue or on another. */
    method LinkItem(p: Ptr)
      requires Valid() && p in q.info && q.info[p].clsid < L.LARGEST_ID && !q.info[p].crawler
      requires p !in q.qs[q.info[p].clsid]
      modifies this, q
      ensures Valid() && first == old(first) && q.info == old(q.info)
      ensures trace == if q.info[p].clsid == id then old(trace) + [Joins(p)] else old(trace)
    {
      if q.info[p].clsid == id { JoinMatches(q.qs[id], it, now, visited, left, done, p); }
      q.LinkQ(p);
      if q.info[p].clsid == id { Log(Joins(p)); }
    }

    /** do_item_unlink_q, on this queue or on another: by others, or by the module for an item just visited. */
    method UnlinkItem(p: Ptr)
      requires Valid() && p in q.info && q.info[p].clsid < L.LARGEST_ID && !q.info[p].crawler
      requires p in q.qs[q.info[p].clsid]
      modifies this, q
      ensures Valid() && first == old(first) && q.info == old(q.info) && p !in q.qs[q.info[p].clsid]
      ensures trace == if q.info[p].clsid == id then old(trace) + [Leaves(p)] else old(trace)
    {
      if q.info[p].clsid == id {
        L.NoRepeats(q.Now(), q.qs, id);
        LeaveMatches(q.qs[id], it, now, visited, left, done, p);
      }
      q.UnlinkQ(p);
      if q.info[p].clsid == id { Log(Leaves(p)); }
    }

    /** do_item_update and the moves of lru_pull_tail: out of one queue and into the head of another. */
    method MoveItem(p: Ptr, cls: nat)
      requires Valid() && p in q.info && q.info[p].clsid < L.LARGEST_ID && cls < L.LARGEST_ID && !q.info[p].crawler
      requires p in q.qs[q.info[p].clsid]
      modifies this, q
      ensures Valid() && first == old(first)
      ensures var left := if old(q.info)[p].clsid == id then old(trace) + [Leaves(p)] else old(trace);
              trace == if cls == id then left + [Joins(p)] else left
    {
      UnlinkItem(p);
      L.FreeOfQueues(q.Now(), q.qs, p);
      L.ReclassKeeps(q.Now(), q.qs, p, cls);
      q.info := q.info[p := q.info[p].(clsid := cls)];
      LinkItem(p);
    }
  }
}
