/** What a pull of lru_pull_tail in src/items.c does to every single item, said on its fields: which items are dropped,
    rescued, moved, evicted or spared, where they then are, and what marks and times they have. */
module PullFlow {
  import opened Basics
  import opened Addresses
  import opened LruLinks
  import opened CacheState
  import opened ItemFlow
  import opened ItemCache

  /** What a pull did with an item; `again` says that it was rescued and then met once more. */
  datatype Fate = Spared | Dropped | Rescued | Settled(again: bool, verdict: Verdict)

  /** The item afterwards, unless it is freed. */
  function Left(a: PullArgs, it: Item, f: Fate): Option<Item> {
    match f
    case Spared => Some(it)
    case Dropped => Unheld(it)
    case Rescued => Some(RescuedItem(it, a.now))
    case Settled(again, v) =>
      var it1 := if again then RescuedItem(it, a.now) else it;
      match v
      case Stay => Some(it1)
      case Move(lru) => Some(it1.(clsid := SegmentOf(it1.clsid, lru), active := false))
      case Evict => Unheld(it1)
  }

  /** Unlinked, with one reference less, and gone if that was the last. */
  function Unheld(it: Item): Option<Item> {
    if it.refcount == 1 then None else Some(it.(linked := false, refcount := it.refcount - 1))
  }

  function Lookup(st: State, p: Ptr): Option<Item> { if p in st.items then Some(st.items[p]) else None }

  /** What the pull does with an item in passing; None if it stops there. */
  function InPassing(a: PullArgs, st: State, p: Ptr): Option<Fate> {
    if p in a.locked || p !in st.items then Some(Spared)
    else if Dead(st.items[p], p, a.now, a.flushed) then Some(Dropped)
    else if a.curLru == WARM_LRU && st.items[p].active then Some(Rescued)
    else None
  }

  /** Rescued to the head of the queue. */
  predicate ToFront(a: PullArgs, st: State, p: Ptr) {
    InPassing(a, st, p) == Some(Rescued) && p in st.items && Due(st.items[p], a.now)
  }

  /** The i-th item from the tail. */
  function FromTail(q: seq<Ptr>, i: nat): Ptr
    requires i < |q|
  {
    q[|q| - 1 - i]
  }

  /** Among the last m items of q: those rescued to the head, the last rescued first, and those that stay in their
      place. */
  function Fronted(a: PullArgs, st: State, q: seq<Ptr>, m: nat): seq<Ptr>
    requires m <= |q|
  {
    if m == 0 then []
    else (if ToFront(a, st, FromTail(q, m - 1)) then [FromTail(q, m - 1)] else []) + Fronted(a, st, q, m - 1)
  }

  predicate Stands(a: PullArgs, st: State, p: Ptr) {
    InPassing(a, st, p) == Some(Spared) || (InPassing(a, st, p) == Some(Rescued) && !ToFront(a, st, p))
  }

  function Staying(a: PullArgs, st: State, q: seq<Ptr>, m: nat): seq<Ptr>
    requires m <= |q|
  {
    if m == 0 then []
    else (if Stands(a, st, FromTail(q, m - 1)) then [FromTail(q, m - 1)] else []) + Staying(a, st, q, m - 1)
  }

  function DropCount(a: PullArgs, st: State, q: seq<Ptr>, m: nat): nat
    requires m <= |q|
  {
    if m == 0 then 0
    else DropCount(a, st, q, m - 1) + if InPassing(a, st, FromTail(q, m - 1)) == Some(Dropped) then 1 else 0
  }

  /** The pulled queue once its last m items are passed. */
  function Line(a: PullArgs, st: State, q: seq<Ptr>, m: nat): seq<Ptr>
    requires m <= |q|
  {
    Fronted(a, st, q, m) + q[..|q| - m] + Staying(a, st, q, m)
  }

  function FateSoFar(a: PullArgs, st: State, q: seq<Ptr>, m: nat, p: Ptr): Fate
    requires m <= |q|
  {
    if p in q[|q| - m..] && InPassing(a, st, p).Some? then InPassing(a, st, p).value else Spared
  }

  /** The last m items of the queue are passed, each with what it deserved; everything else is as it was. */
  ghost predicate Midway(a: PullArgs, st0: State, st: State, held: multiset<Ptr>, m: nat) {
    && Inv(st0, held) && Inv(st, held) && a.id < CLASSES && m <= |st0.queues[a.id]|
    && (forall id | 0 <= id < CLASSES ::
          st.queues[id] == if id == a.id then Line(a, st0, st0.queues[id], m) else st0.queues[id])
    && st.items.Keys <= st0.items.Keys && st.bumps == st0.bumps
    && forall p {:trigger Lookup(st, p)} | p in st0.items ::
         Lookup(st, p) == Left(a, st0.items[p], FateSoFar(a, st0, st0.queues[a.id], m, p))
  }

  lemma {:induction false} PassedIn(a: PullArgs, st: State, q: seq<Ptr>, m: nat)
    requires m <= |q|
    ensures forall p <- Fronted(a, st, q, m) :: p in q[|q| - m..] && ToFront(a, st, p)
    ensures forall p <- Staying(a, st, q, m) :: p in q[|q| - m..]
  {
    if m > 0 {
      PassedIn(a, st, q, m - 1);
      assert q[|q| - m..] == [FromTail(q, m - 1)] + q[|q| - (m - 1)..];
    }
  }

  lemma {:induction false} NoneBefore(s: seq<Ptr>, x: Ptr)
    requires s != [] ==> x !in s[1..]
    ensures Preceding(s, x) == NULL
    decreases s
  {
    if |s| >= 2 {
      assert s[1] in s[1..] && forall p <- s[1..][1..] :: p in s[1..];
      NoneBefore(s[1..], x);
    }
  }

  lemma {:induction false} PrecedingAt(a: seq<Ptr>, x: Ptr, b: seq<Ptr>)
    requires Distinct(a + [x] + b)
    ensures Preceding(a + [x] + b, x) == Last(a, NULL)
    decreases a
  {
    var s := a + [x] + b;
    if a == [] {
      assert s == [x] + b && s[1..] == b;
      NoneBefore(s, x);
    } else {
      assert s[1..] == a[1..] + [x] + b;
      assert |a| > 1 ==> s[1..][1..][|a| - 2] == x;
      PrecedingAt(a[1..], x, b);
    }
  }

  /** The next item is where it was, between the ones rescued and the ones left behind. */
  lemma InLine(a: PullArgs, st: State, q: seq<Ptr>, m: nat)
    requires m < |q| && Distinct(q)
    ensures var p, f, b := FromTail(q, m), Fronted(a, st, q, m) + q[..|q| - m - 1], Staying(a, st, q, m);
            Line(a, st, q, m) == f + [p] + b && p !in f && p !in b && p !in q[|q| - m..]
  {
    var p := FromTail(q, m);
    assert q == q[..|q| - m - 1] + [p] + q[|q| - m..];
    DistinctAround(q[..|q| - m - 1], p, q[|q| - m..]);
    PassedIn(a, st, q, m);
    assert q[..|q| - m] == q[..|q| - m - 1] + [p];
    Regroup(Fronted(a, st, q, m), q[..|q| - m - 1], [p]);
  }

  lemma NextUp(a: PullArgs, st0: State, st: State, held: multiset<Ptr>, m: nat, p: Ptr)
    requires Midway(a, st0, st, held, m) && m < |st0.queues[a.id]| && p == FromTail(st0.queues[a.id], m)
    ensures p in st0.items && Lookup(st, p) == Some(st0.items[p]) && p in st.queues[a.id]
    ensures p !in st0.queues[a.id][|st0.queues[a.id]| - m..]
  {
    var q := st0.queues[a.id];
    assert QueueOK(st0, a.id) && QueueOK(st, a.id) && p in q;
    LinePlace(a, st0, q, m, st.queues[a.id]);
    assert Lookup(st, p) == Left(a, st0.items[p], FateSoFar(a, st0, q, m, p));
  }

  lemma LinePlace(a: PullArgs, st: State, q: seq<Ptr>, m: nat, s: seq<Ptr>)
    requires m < |q| && Distinct(q) && Distinct(s) && s == Line(a, st, q, m)
    ensures var p, f, b := FromTail(q, m), Fronted(a, st, q, m) + q[..|q| - m - 1], Staying(a, st, q, m);
            && p !in q[|q| - m..] && p in s && s == f + [p] + b && Others(s, p) == f + b
            && Preceding(s, p) == Last(f, NULL)
  {
    InLine(a, st, q, m);
    Between(Fronted(a, st, q, m) + q[..|q| - m - 1], FromTail(q, m), Staying(a, st, q, m));
  }

  lemma Between(f: seq<Ptr>, p: Ptr, b: seq<Ptr>)
    requires p !in f && p !in b && Distinct(f + [p] + b)
    ensures var s := f + [p] + b; p in s && Others(s, p) == f + b && Preceding(s, p) == Last(f, NULL)
  {
    assert (f + [p] + b)[|f|] == p;
    PrecedingAt(f, p, b);
    TakenOut(f, p, b);
  }

  lemma LineAhead(a: PullArgs, st0: State, st: State, held: multiset<Ptr>, m: nat, p: Ptr)
    returns (f: seq<Ptr>, b: seq<Ptr>)
    requires Midway(a, st0, st, held, m) && m < |st0.queues[a.id]| && p == FromTail(st0.queues[a.id], m)
    ensures st.queues[a.id] == f + [p] + b && Others(st.queues[a.id], p) == f + b
    ensures Preceding(st.queues[a.id], p) == Last(f, NULL)
    ensures var q := st0.queues[a.id];
            f == Fronted(a, st0, q, m) + q[..|q| - m - 1] && b == Staying(a, st0, q, m)
  {
    var q := st0.queues[a.id];
    assert Distinct(q) && Distinct(st.queues[a.id]) by { assert QueueOK(st0, a.id) && QueueOK(st, a.id); }
    f, b := Fronted(a, st0, q, m) + q[..|q| - m - 1], Staying(a, st0, q, m);
    LinePlace(a, st0, q, m, st.queues[a.id]);
  }

  lemma TakenOut(f: seq<Ptr>, p: Ptr, b: seq<Ptr>)
    requires p !in f && p !in b
    ensures Others(f + [p] + b, p) == f + b
  {
    OthersSplit(f + [p], b, p);
    OthersSplit(f, [p], p);
    OthersSame(f, p);
    OthersSame(b, p);
    OneGone(f, p);
  }

  lemma OneGone(f: seq<Ptr>, p: Ptr)
    ensures f + Others([p], p) == f
  {
    assert Others([p], p) == [] + Others([], p);
  }

  lemma ElsewhereSame(st: State, held: multiset<Ptr>, id: nat, j: nat, p: Ptr)
    requires Inv(st, held) && id < CLASSES && j < CLASSES && id != j && p in st.queues[id]
    ensures Others(st.queues[j], p) == st.queues[j]
  {
    assert QueueOK(st, id) && QueueOK(st, j);
    OthersSame(st.queues[j], p);
  }

  /** One more item passed. */
  lemma PassOne(a: PullArgs, st0: State, st: State, held: multiset<Ptr>, m: nat, p: Ptr, st': State)
    requires Midway(a, st0, st, held, m) && m < |st0.queues[a.id]| && p == FromTail(st0.queues[a.id], m)
    requires InPassing(a, st0, p).Some? && Inv(st', held) && p in st.items
    requires match InPassing(a, st0, p).value
             case Spared => st' == st
             case Dropped => st.items[p].linked && Unlinks(st, st', p)
             case _ => Rescues(st, st', p, a.now)
    ensures Midway(a, st0, st', held, m + 1)
  {
    PassedFates(a, st0, st, held, m, p, st');
    PassedQueues(a, st0, st, held, m, p, st');
  }

  lemma PassedQueues(a: PullArgs, st0: State, st: State, held: multiset<Ptr>, m: nat, p: Ptr, st': State)
    requires Midway(a, st0, st, held, m) && m < |st0.queues[a.id]| && p == FromTail(st0.queues[a.id], m)
    requires InPassing(a, st0, p).Some? && Inv(st', held) && p in st.items
    requires match InPassing(a, st0, p).value
             case Spared => st' == st
             case Dropped => st.items[p].linked && Unlinks(st, st', p)
             case _ => Rescues(st, st', p, a.now)
    ensures forall id | 0 <= id < CLASSES ::
              st'.queues[id] == if id == a.id then Line(a, st0, st0.queues[id], m + 1) else st0.queues[id]
  {
    NextUp(a, st0, st, held, m, p);
    InQueue(st, held, a.id, p);
    PassedHere(a, st0, st, held, m, p, st');
    forall id | 0 <= id < CLASSES && id != a.id ensures st'.queues[id] == st0.queues[id] {
      ElsewhereSame(st, held, a.id, id, p);
      Unit(st.queues[id]);
    }
  }

  lemma PassedHere(a: PullArgs, st0: State, st: State, held: multiset<Ptr>, m: nat, p: Ptr, st': State)
    requires Midway(a, st0, st, held, m) && m < |st0.queues[a.id]| && p == FromTail(st0.queues[a.id], m)
    requires p in st.items && p in st0.items && st.items[p] == st0.items[p] && st.items[p].clsid == a.id
    requires InPassing(a, st0, p).Some?
    requires match InPassing(a, st0, p).value
             case Spared => st' == st
             case Dropped => st.items[p].linked && Unlinks(st, st', p)
             case _ => Rescues(st, st', p, a.now)
    ensures a.id < |st'.queues| && st'.queues[a.id] == Line(a, st0, st0.queues[a.id], m + 1)
  {
    var f, b := LineAhead(a, st0, st, held, m, p);
    PassedLine(a, st0, st, p, st', f, b);
    LineOn(a, st0, st0.queues[a.id], m, f, b);
  }

  lemma PassedLine(a: PullArgs, st0: State, st: State, p: Ptr, st': State, f: seq<Ptr>, b: seq<Ptr>)
    requires a.id < |st.queues| && p in st.items && p in st0.items && st.items[p] == st0.items[p]
    requires st.items[p].clsid == a.id && InPassing(a, st0, p).Some?
    requires match InPassing(a, st0, p).value
             case Spared => st' == st
             case Dropped => st.items[p].linked && Unlinks(st, st', p)
             case _ => Rescues(st, st', p, a.now)
    requires st.queues[a.id] == f + [p] + b && Others(st.queues[a.id], p) == f + b
    ensures a.id < |st'.queues|
    ensures st'.queues[a.id] == if ToFront(a, st0, p) then [p] + (f + b)
                                else if Stands(a, st0, p) then f + [p] + b else f + b
  {}

  lemma LineOn(a: PullArgs, st: State, q: seq<Ptr>, m: nat, f: seq<Ptr>, b: seq<Ptr>)
    requires m < |q| && f == Fronted(a, st, q, m) + q[..|q| - m - 1] && b == Staying(a, st, q, m)
    ensures var p := FromTail(q, m);
            Line(a, st, q, m + 1) == if ToFront(a, st, p) then [p] + (f + b)
                                     else if Stands(a, st, p) then f + [p] + b else f + b
  {
    var p, g, mid := FromTail(q, m), Fronted(a, st, q, m), q[..|q| - m - 1];
    Unit(g);
    Unit(b);
    Regroup([p], g, mid);
    Regroup([p], f, b);
    Regroup(f, [p], b);
  }

  lemma Unit(s: seq<Ptr>)
    ensures [] + s == s
  {}

  lemma PassedFates(a: PullArgs, st0: State, st: State, held: multiset<Ptr>, m: nat, p: Ptr, st': State)
    requires Midway(a, st0, st, held, m) && m < |st0.queues[a.id]| && p == FromTail(st0.queues[a.id], m)
    requires InPassing(a, st0, p).Some? && p in st.items
    requires match InPassing(a, st0, p).value
             case Spared => st' == st
             case Dropped => st.items[p].linked && Unlinks(st, st', p)
             case _ => Rescues(st, st', p, a.now)
    ensures st'.items.Keys <= st0.items.Keys && st'.bumps == st0.bumps
    ensures forall r {:trigger Lookup(st', r)} | r in st0.items ::
              Lookup(st', r) == Left(a, st0.items[r], FateSoFar(a, st0, st0.queues[a.id], m + 1, r))
  {
    var q := st0.queues[a.id];
    NextUp(a, st0, st, held, m, p);
    assert q[|q| - (m + 1)..] == [p] + q[|q| - m..];
    forall r | r in st0.items
      ensures Lookup(st', r) == Left(a, st0.items[r], FateSoFar(a, st0, q, m + 1, r))
    {
      assert Lookup(st, r) == Left(a, st0.items[r], FateSoFar(a, st0, q, m, r));
    }
  }

  /** The item a walk past the whole queue comes back to: the first one it rescued to the head, if anything was still
      before that one, if only a crawler. */
  function BackTo(a: PullArgs, st: State, q: seq<Ptr>, first: bool): Ptr {
    if q == [] then NULL
    else if Fronted(a, st, q, |q| - 1) != [] then Last(Fronted(a, st, q, |q| - 1), NULL)
    else if first && ToFront(a, st, q[0]) then q[0]
    else NULL
  }

  function InTurn(a: PullArgs, st: State, q: seq<Ptr>, first: bool, m: nat): Ptr {
    if m < |q| then FromTail(q, m) else BackTo(a, st, q, first)
  }

  lemma WalksOn(a: PullArgs, first: bool, st0: State, st: State, held: multiset<Ptr>, m: nat, p: Ptr)
    requires Midway(a, st0, st, held, m) && m < |st0.queues[a.id]| && p == FromTail(st0.queues[a.id], m)
    requires InPassing(a, st0, p).Some?
    ensures p in st.items
    ensures var q := st0.queues[a.id];
            var r := Onward(a, first && Fronted(a, st0, q, m) == [], st, p);
            r.0 == (first && Fronted(a, st0, q, m + 1) == []) && r.1 == InTurn(a, st0, q, first, m + 1)
  {
    NextUp(a, st0, st, held, m, p);
    InQueue(st, held, a.id, p);
    var f, b := LineAhead(a, st0, st, held, m, p);
    assert ToFront(a, st0, p) == ToFront(a, st, p);
    OnwardTo(a, first && Fronted(a, st0, st0.queues[a.id], m) == [], st, p);
    ComesNext(a, first, st0, held, m);
  }

  lemma OnwardTo(a: PullArgs, first: bool, st: State, p: Ptr)
    requires p in st.items && a.id < |st.queues| && st.items[p].linked
    ensures var next := Preceding(st.queues[a.id], p);
            Onward(a, first, st, p) ==
              if ToFront(a, st, p) then (false, if first && next == NULL then p else next) else (first, next)
  {}

  lemma ComesNext(a: PullArgs, first: bool, st: State, held: multiset<Ptr>, m: nat)
    requires Inv(st, held) && a.id < CLASSES && m < |st.queues[a.id]|
    ensures var q := st.queues[a.id];
            var p, f, f' := FromTail(q, m), Fronted(a, st, q, m), Fronted(a, st, q, m + 1);
            var x := Last(f + q[..|q| - m - 1], NULL);
            && (f' == [] <==> f == [] && !ToFront(a, st, p))
            && InTurn(a, st, q, first, m + 1) ==
                 if ToFront(a, st, p) && first && f == [] && x == NULL then p else x
  {
    Unit(Fronted(a, st, st.queues[a.id], m));
    AheadOf(a, st, held, m);
  }

  lemma AheadOf(a: PullArgs, st: State, held: multiset<Ptr>, m: nat)
    requires Inv(st, held) && a.id < CLASSES && m < |st.queues[a.id]|
    ensures var q := st.queues[a.id];
            var f := Fronted(a, st, q, m);
            var x := Last(f + q[..|q| - m - 1], NULL);
            x == (if m + 1 < |q| then FromTail(q, m + 1) else Last(f, NULL)) && (x == NULL <==> m + 1 == |q| && f == [])
  {
    var q := st.queues[a.id];
    var f := Fronted(a, st, q, m);
    if m + 1 < |q| {
      Ends(f, q[..|q| - m - 1]);
      assert q[|q| - m - 2] in q;
      InQueue(st, held, a.id, q[|q| - m - 2]);
      assert Reachable(st, q[|q| - m - 2]);
    } else {
      assert f + q[..0] == f;
      if f != [] { FrontedReal(a, st, held, m); }
    }
  }

  lemma Ends(f: seq<Ptr>, s: seq<Ptr>)
    requires s != []
    ensures Last(f + s, NULL) == s[|s| - 1]
  {
    assert (f + s)[|f + s| - 1] == s[|s| - 1];
  }

  lemma FrontedReal(a: PullArgs, st: State, held: multiset<Ptr>, m: nat)
    requires Inv(st, held) && a.id < CLASSES && m <= |st.queues[a.id]| && Fronted(a, st, st.queues[a.id], m) != []
    ensures var x := Last(Fronted(a, st, st.queues[a.id], m), NULL);
            x != NULL && ToFront(a, st, x) && x in st.queues[a.id][|st.queues[a.id]| - m..]
  {
    var f := Fronted(a, st, st.queues[a.id], m);
    PassedIn(a, st, st.queues[a.id], m);
    assert f[|f| - 1] in f;
    assert Reachable(st, f[|f| - 1]);
  }

  /** How many items a pull may look at: five, or those behind a crawler that blocks it. */
  function Looks(blockAt: int): nat { if 0 <= blockAt < 5 then blockAt else 5 }

  /** The item at which the pull stops, after passing k; NULL if there is none. */
  function Settler(a: PullArgs, st: State, blockAt: int, first: bool, k: nat): Ptr
    requires a.id < |st.queues|
  {
    if k < Looks(blockAt) then InTurn(a, st, st.queues[a.id], first, k) else NULL
  }

  /** The verdict on it: it is judged as it then is, with the bytes then in the queue. */
  function Ruling(a: PullArgs, st: State, k: nat, last: Ptr): (v: Verdict)
    requires a.id < |st.queues| && k <= |st.queues[a.id]|
    ensures v.Move? ==> v.lru <= TEMP_LRU
  {
    var q := st.queues[a.id];
    if last !in st.items then Stay
    else Judged(if k == |q| then RescuedItem(st.items[last], a.now) else st.items[last], Bytes(st, Line(a, st, q, k)),
      a.curLru, a.totalBytes, a.evict, a.maxAge, a.now, a.settings)
  }

  function FateOf(a: PullArgs, st: State, k: nat, last: Ptr, p: Ptr): Fate
    requires a.id < |st.queues| && k <= |st.queues[a.id]|
  {
    if p == last then Settled(k == |st.queues[a.id]|, Ruling(a, st, k, last))
    else FateSoFar(a, st, st.queues[a.id], k, p)
  }

  /** Queue id afterwards. */
  function QueueLeft(a: PullArgs, st: State, k: nat, last: Ptr, id: nat): seq<Ptr>
    requires a.id < |st.queues| && k <= |st.queues[a.id]| && id < |st.queues|
  {
    var line := if id == a.id then Line(a, st, st.queues[id], k) else st.queues[id];
    match Ruling(a, st, k, last)
    case Stay => line
    case Move(lru) => (if id == SegmentOf(a.id, lru) then [last] else []) + Others(line, last)
    case Evict => Others(line, last)
  }

  ghost predicate Passing(a: PullArgs, st: State, m: nat) {
    && a.id < |st.queues| && m <= |st.queues[a.id]|
    && forall i | 0 <= i < m :: InPassing(a, st, FromTail(st.queues[a.id], i)).Some?
  }

  /** A whole pull, from the state before it.  It looks at items from the tail on, at five at most and at none beyond a
      crawler that blocks it: k of them it deals with in passing, and the next one, if there is one, settles it.  Every
      item then is what its fate makes it, and every queue is in the order that comes of it. */
  ghost predicate Told(a: PullArgs, blockAt: int, first: bool, st: State, st': State, removed: int, k: nat) {
    && |st'.queues| == |st.queues| && k <= Looks(blockAt) && Passing(a, st, k)
    && (k < |st.queues[a.id]| && k < Looks(blockAt) ==> InPassing(a, st, FromTail(st.queues[a.id], k)).None?)
    && var last := Settler(a, st, blockAt, first, k);
       && st'.items.Keys <= st.items.Keys && st'.bumps == st.bumps
       && (forall p {:trigger Lookup(st', p)} | p in st.items ::
             Lookup(st', p) == Left(a, st.items[p], FateOf(a, st, k, last, p)))
       && (forall id | 0 <= id < |st.queues| :: st'.queues[id] == QueueLeft(a, st, k, last, id))
       && removed == if k == blockAt && k < 5 then 0
                     else DropCount(a, st, st.queues[a.id], k) + if Ruling(a, st, k, last).Stay? then 0 else 1
  }

  lemma {:induction false} SameBytes(st: State, st': State, s: seq<Ptr>)
    requires forall p <- s :: p in st.items && p in st'.items && st'.items[p].ntotal == st.items[p].ntotal
    ensures Bytes(st', s) == Bytes(st, s)
    decreases s
  {
    if s != [] {
      assert s[0] in s && forall p <- s[1..] :: p in s;
      SameBytes(st, st', s[1..]);
    }
  }

  /** Nobody settles the pull. */
  lemma NobodyLast(a: PullArgs, blockAt: int, first: bool, st0: State, st: State, held: multiset<Ptr>, k: nat)
    requires Midway(a, st0, st, held, k) && k <= Looks(blockAt) && Settler(a, st0, blockAt, first, k) == NULL
    requires Passing(a, st0, k)
    ensures var removed := if k == blockAt && k < 5 then 0 else DropCount(a, st0, st0.queues[a.id], k);
            Told(a, blockAt, first, st0, st, removed, k)
  {
    NoNull(st0, held);
    if k < |st0.queues[a.id]| {
      var p := FromTail(st0.queues[a.id], k);
      assert p in st0.queues[a.id];
      InQueue(st0, held, a.id, p);
    }
  }

  /** The item that settles the pull, as it is when its turn comes. */
  lemma TurnOfLast(a: PullArgs, blockAt: int, first: bool, st0: State, st: State, held: multiset<Ptr>, k: nat, p: Ptr)
    requires Midway(a, st0, st, held, k) && k <= Looks(blockAt) && Settler(a, st0, blockAt, first, k) == p != NULL
    requires k < |st0.queues[a.id]| ==> InPassing(a, st0, p).None?
    ensures p in st0.items && p in st.items && p in st.queues[a.id] && p !in a.locked
    ensures var it := if k == |st0.queues[a.id]| then RescuedItem(st0.items[p], a.now) else st0.items[p];
            && st.items[p] == it && !Dead(it, p, a.now, a.flushed) && !(a.curLru == WARM_LRU && it.active)
    ensures Judge(st, p, a) == Ruling(a, st0, k, p)
  {
    var q := st0.queues[a.id];
    if k < |q| {
      NextUp(a, st0, st, held, k, p);
    } else {
      Returned(a, first, st0, held, p);
      assert q[|q| - k..] == q;
      assert Lookup(st, p) == Left(a, st0.items[p], FateSoFar(a, st0, q, k, p));
    }
    LineBytes(a, st0, st, held, k);
  }

  lemma Returned(a: PullArgs, first: bool, st: State, held: multiset<Ptr>, p: Ptr)
    requires Inv(st, held) && a.id < CLASSES && BackTo(a, st, st.queues[a.id], first) == p != NULL
    ensures p in st.queues[a.id] && ToFront(a, st, p) && p in Line(a, st, st.queues[a.id], |st.queues[a.id]|)
  {
    var q := st.queues[a.id];
    var f := Fronted(a, st, q, |q| - 1);
    if f != [] {
      FrontedReal(a, st, held, |q| - 1);
      assert p in f;
    }
  }

  lemma LineBytes(a: PullArgs, st0: State, st: State, held: multiset<Ptr>, k: nat)
    requires Midway(a, st0, st, held, k)
    ensures Bytes(st, st.queues[a.id]) == Bytes(st0, Line(a, st0, st0.queues[a.id], k))
  {
    assert QueueOK(st, a.id);
    forall p <- st.queues[a.id] ensures p in st.items && p in st0.items && st.items[p].ntotal == st0.items[p].ntotal {
      assert Lookup(st, p) == Left(a, st0.items[p], FateSoFar(a, st0, st0.queues[a.id], k, p));
    }
    SameBytes(st0, st, st.queues[a.id]);
  }

  lemma SomebodyLast(a: PullArgs, blockAt: int, first: bool, st0: State, st: State, held: multiset<Ptr>, k: nat, p: Ptr,
      st': State)
    requires Midway(a, st0, st, held, k) && k <= Looks(blockAt) && Settler(a, st0, blockAt, first, k) == p != NULL
    requires k < |st0.queues[a.id]| ==> InPassing(a, st0, p).None?
    requires Passing(a, st0, k)
    requires Settles(st, st', p, Ruling(a, st0, k, p))
    ensures Told(a, blockAt, first, st0, st', DropCount(a, st0, st0.queues[a.id], k) +
                 (if Ruling(a, st0, k, p).Stay? then 0 else 1), k)
  {
    TurnOfLast(a, blockAt, first, st0, st, held, k, p);
    InQueue(st, held, a.id, p);
    LastQueues(a, st0, st, held, k, p, st');
    LastFates(a, st0, st, held, k, p, st');
  }

  lemma LastFates(a: PullArgs, st0: State, st: State, held: multiset<Ptr>, k: nat, p: Ptr, st': State)
    requires Midway(a, st0, st, held, k) && p in st.items && st.items[p].linked && p in st0.items
    requires st.items[p] == if k == |st0.queues[a.id]| then RescuedItem(st0.items[p], a.now) else st0.items[p]
    requires Settles(st, st', p, Ruling(a, st0, k, p))
    ensures st'.items.Keys <= st0.items.Keys && st'.bumps == st0.bumps
    ensures forall r {:trigger Lookup(st', r)} | r in st0.items ::
              Lookup(st', r) == Left(a, st0.items[r], FateOf(a, st0, k, p, r))
  {
    forall r | r in st0.items ensures Lookup(st', r) == Left(a, st0.items[r], FateOf(a, st0, k, p, r)) {
      assert Lookup(st, r) == Left(a, st0.items[r], FateSoFar(a, st0, st0.queues[a.id], k, r));
    }
  }

  lemma LastQueues(a: PullArgs, st0: State, st: State, held: multiset<Ptr>, k: nat, p: Ptr, st': State)
    requires Midway(a, st0, st, held, k) && p in st.queues[a.id] && p in st.items && st.items[p].linked
    requires st.items[p].clsid == a.id && Settles(st, st', p, Ruling(a, st0, k, p))
    ensures |st'.queues| == CLASSES && forall id | 0 <= id < CLASSES :: st'.queues[id] == QueueLeft(a, st0, k, p, id)
  {
  }

  /** What is left of a pull after m items. */
  ghost function From(a: PullArgs, blockAt: int, first: bool, st0: State, st: State, m: nat): (State, int)
    requires a.id < |st0.queues| && m <= |st0.queues[a.id]| && m <= 5
  {
    var q := st0.queues[a.id];
    Pulled(a, blockAt, first && Fronted(a, st0, q, m) == [], st, InTurn(a, st0, q, first, m), 5 - m, m,
      DropCount(a, st0, q, m))
  }

  lemma {:induction false} PulledTale(a: PullArgs, blockAt: int, first: bool, st0: State, st: State,
      held: multiset<Ptr>, m: nat) returns (r: (State, int), k: nat)
    requires Midway(a, st0, st, held, m) && m <= Looks(blockAt) && Passing(a, st0, m)
    ensures r == From(a, blockAt, first, st0, st, m) && Told(a, blockAt, first, st0, r.0, r.1, k)
    decreases 5 - m
  {
    var p := Settler(a, st0, blockAt, first, m);
    if p == NULL {
      k := m;
      r := NoTurn(a, blockAt, first, st0, st, held, m);
    } else if m < |st0.queues[a.id]| && InPassing(a, st0, p).Some? {
      var st1 := PassTurn(a, blockAt, first, st0, st, held, m, p);
      r, k := PulledTale(a, blockAt, first, st0, st1, held, m + 1);
    } else {
      k := m;
      r := LastTurn(a, blockAt, first, st0, st, held, m, p);
    }
  }

  lemma NoTurn(a: PullArgs, blockAt: int, first: bool, st0: State, st: State, held: multiset<Ptr>, m: nat)
    returns (r: (State, int))
    requires Midway(a, st0, st, held, m) && m <= Looks(blockAt) && Settler(a, st0, blockAt, first, m) == NULL
    requires Passing(a, st0, m)
    ensures r == From(a, blockAt, first, st0, st, m) && Told(a, blockAt, first, st0, r.0, r.1, m)
  {
    r := (st, if m == blockAt && m < 5 then 0 else DropCount(a, st0, st0.queues[a.id], m));
    NobodyLast(a, blockAt, first, st0, st, held, m);
  }

  lemma LastTurn(a: PullArgs, blockAt: int, first: bool, st0: State, st: State, held: multiset<Ptr>, m: nat, p: Ptr)
    returns (r: (State, int))
    requires Midway(a, st0, st, held, m) && m <= Looks(blockAt) && Settler(a, st0, blockAt, first, m) == p != NULL
    requires Passing(a, st0, m) && (m < |st0.queues[a.id]| ==> InPassing(a, st0, p).None?)
    ensures r == From(a, blockAt, first, st0, st, m) && Told(a, blockAt, first, st0, r.0, r.1, m)
  {
    r := Stops(a, blockAt, first, st0, st, held, m, p);
    SomebodyLast(a, blockAt, first, st0, st, held, m, p, r.0);
  }

  lemma Stops(a: PullArgs, blockAt: int, first: bool, st0: State, st: State, held: multiset<Ptr>, m: nat, p: Ptr)
    returns (r: (State, int))
    requires Midway(a, st0, st, held, m) && m <= Looks(blockAt) && Settler(a, st0, blockAt, first, m) == p != NULL
    requires m < |st0.queues[a.id]| ==> InPassing(a, st0, p).None?
    ensures r == From(a, blockAt, first, st0, st, m) && Settles(st, r.0, p, Ruling(a, st0, m, p))
    ensures r.1 == DropCount(a, st0, st0.queues[a.id], m) + if Ruling(a, st0, m, p).Stay? then 0 else 1
  {
    TurnOfLast(a, blockAt, first, st0, st, held, m, p);
    r := StopsAt(a, blockAt, first && Fronted(a, st0, st0.queues[a.id], m) == [], st, held, p, m,
      DropCount(a, st0, st0.queues[a.id], m));
  }

  lemma StopsAt(a: PullArgs, blockAt: int, first: bool, st: State, held: multiset<Ptr>, p: Ptr, m: nat, n: nat)
    returns (r: (State, int))
    requires Inv(st, held) && a.id < CLASSES && p in st.queues[a.id] && p in st.items && m < Looks(blockAt)
    requires p != NULL && p !in a.locked && !Dead(st.items[p], p, a.now, a.flushed)
    requires !(a.curLru == WARM_LRU && st.items[p].active)
    ensures r == Pulled(a, blockAt, first, st, p, 5 - m, m, n) && Settles(st, r.0, p, Judge(st, p, a))
    ensures r.1 == n + if Judge(st, p, a).Stay? then 0 else 1
  {
    var v := Judge(st, p, a);
    InQueue(st, held, a.id, p);
    StopFlow(st, held, p, v);
    PulledTurn(a, blockAt, first, st, p, 5 - m, m, n);
    r := (Stopped(st, p, v), n + if v.Stay? then 0 else 1);
  }

  lemma PassTurn(a: PullArgs, blockAt: int, first: bool, st0: State, st: State, held: multiset<Ptr>, m: nat, p: Ptr)
    returns (st1: State)
    requires Midway(a, st0, st, held, m) && m < |st0.queues[a.id]| && p == FromTail(st0.queues[a.id], m) != NULL
    requires InPassing(a, st0, p).Some? && m < Looks(blockAt) && Passing(a, st0, m)
    ensures Midway(a, st0, st1, held, m + 1) && Passing(a, st0, m + 1)
    ensures From(a, blockAt, first, st0, st, m) == From(a, blockAt, first, st0, st1, m + 1)
  {
    var q := st0.queues[a.id];
    var fst, n := first && Fronted(a, st0, q, m) == [], DropCount(a, st0, q, m);
    WalksOn(a, first, st0, st, held, m, p);
    st1 := Pass(a, blockAt, fst, st0, st, held, m, p, n, first && Fronted(a, st0, q, m + 1) == [],
      InTurn(a, st0, q, first, m + 1), DropCount(a, st0, q, m + 1));
    PassingMore(a, st0, m);
  }

  lemma PassingMore(a: PullArgs, st: State, m: nat)
    requires Passing(a, st, m) && m < |st.queues[a.id]| && InPassing(a, st, FromTail(st.queues[a.id], m)).Some?
    ensures Passing(a, st, m + 1)
  {}

  lemma Pass(a: PullArgs, blockAt: int, first: bool, st0: State, st: State, held: multiset<Ptr>, m: nat, p: Ptr, n: nat,
      first': bool, next: Ptr, n': nat) returns (st1: State)
    requires Midway(a, st0, st, held, m) && m < |st0.queues[a.id]| && p == FromTail(st0.queues[a.id], m) != NULL
    requires InPassing(a, st0, p).Some? && m < Looks(blockAt) && p in st.items
    requires Onward(a, first, st, p) == (first', next) && n' == n + if InPassing(a, st0, p).value.Dropped? then 1 else 0
    ensures Midway(a, st0, st1, held, m + 1)
    ensures Pulled(a, blockAt, first, st, p, 5 - m, m, n) == Pulled(a, blockAt, first', st1, next, 4 - m, m + 1, n')
  {
    NextUp(a, st0, st, held, m, p);
    TurnKeeps(a, st, held, p);
    PulledTurn(a, blockAt, first, st, p, 5 - m, m, n);
    st1 := st;
    if InPassing(a, st0, p).value == Dropped {
      st1 := Reclaimed(st, p);
      ReclaimFlow(st, held, p);
    } else if InPassing(a, st0, p).value == Rescued {
      st1 := Refreshed(st, p, a.now);
      RefreshFlow(st, held, p, a.now);
    }
    PassOne(a, st0, st, held, m, p, st1);
  }

  lemma Beginning(a: PullArgs, st: State, held: multiset<Ptr>)
    requires Inv(st, held) && a.id < CLASSES
    ensures Midway(a, st, st, held, 0)
  {
    var q := st.queues[a.id];
    assert [] + q[..|q|] + [] == q;
  }

  /** Every pull, of every queue, with any crawlers in it. */
  lemma PullTold(a: PullArgs, blockAt: int, first: bool, st: State, held: multiset<Ptr>)
    returns (r: (State, int), k: nat)
    requires Inv(st, held) && a.id < CLASSES
    ensures r == Pulled(a, blockAt, first, st, TailOf(st, a.id), 5, 0, 0) && Told(a, blockAt, first, st, r.0, r.1, k)
  {
    Beginning(a, st, held);
    r, k := PulledTale(a, blockAt, first, st, st, held, 0);
  }

  lemma {:induction false} AllDropped(a: PullArgs, st: State, q: seq<Ptr>, m: nat)
    requires m <= |q| && forall i | 0 <= i < m :: InPassing(a, st, FromTail(q, i)) == Some(Dropped)
    ensures Fronted(a, st, q, m) == [] && Staying(a, st, q, m) == [] && DropCount(a, st, q, m) == m
  {
    if m > 0 { AllDropped(a, st, q, m - 1); }
  }

  /** Dead items at the tail that nobody has locked, up to five, are dropped by one pull; with five of them that is all
      it does. */
  lemma DeadTail(a: PullArgs, blockAt: int, first: bool, st: State, held: multiset<Ptr>, st': State, removed: int,
      k: nat, n: nat)
    requires Inv(st, held) && Told(a, blockAt, first, st, st', removed, k)
    requires n <= |st.queues[a.id]| && n <= 5 && (0 <= blockAt ==> n <= blockAt)
    requires forall i | 0 <= i < n :: InPassing(a, st, FromTail(st.queues[a.id], i)) == Some(Dropped)
    ensures k >= n
    ensures forall i | 0 <= i < n ::
              var p := FromTail(st.queues[a.id], i); p in st.items && Lookup(st', p) == Unheld(st.items[p])
    ensures n == 5 ==> removed == 5 && st'.queues[a.id] == st.queues[a.id][..|st.queues[a.id]| - 5]
  {
    var q := st.queues[a.id];
    forall i | 0 <= i < n
      ensures var p := FromTail(q, i); p in st.items && Lookup(st', p) == Unheld(st.items[p])
    {
      DroppedOne(a, blockAt, first, st, held, st', removed, k, i);
    }
    if n == 5 { FiveDropped(a, blockAt, first, st, held, st', removed); }
  }

  lemma FiveDropped(a: PullArgs, blockAt: int, first: bool, st: State, held: multiset<Ptr>, st': State, removed: int)
    requires Inv(st, held) && Told(a, blockAt, first, st, st', removed, 5)
    requires forall i | 0 <= i < 5 :: InPassing(a, st, FromTail(st.queues[a.id], i)) == Some(Dropped)
    ensures removed == 5 && st'.queues[a.id] == st.queues[a.id][..|st.queues[a.id]| - 5]
  {
    var q := st.queues[a.id];
    AllDropped(a, st, q, 5);
    assert [] + q[..|q| - 5] + [] == q[..|q| - 5];
    NoNull(st, held);
  }

  lemma NoNull(st: State, held: multiset<Ptr>)
    requires Inv(st, held)
    ensures NULL !in st.items
  {
    forall p | p in st.items ensures p != NULL { assert Reachable(st, p); }
  }

  lemma LastNotPassed(a: PullArgs, blockAt: int, first: bool, st: State, held: multiset<Ptr>, k: nat, p: Ptr, last: Ptr)
    requires Inv(st, held) && a.id < CLASSES && k <= |st.queues[a.id]| && p in st.queues[a.id][|st.queues[a.id]| - k..]
    requires InPassing(a, st, p) == Some(Dropped) && last == Settler(a, st, blockAt, first, k) != NULL
    ensures p != last
  {
    assert QueueOK(st, a.id);
    if k < |st.queues[a.id]| {
      InLine(a, st, st.queues[a.id], k);
    } else {
      Returned(a, first, st, held, last);
    }
  }

  lemma DroppedOne(a: PullArgs, blockAt: int, first: bool, st: State, held: multiset<Ptr>, st': State, removed: int,
      k: nat, i: nat)
    requires Inv(st, held) && Told(a, blockAt, first, st, st', removed, k) && i < k
    requires InPassing(a, st, FromTail(st.queues[a.id], i)) == Some(Dropped)
    ensures var p := FromTail(st.queues[a.id], i); p in st.items && Lookup(st', p) == Unheld(st.items[p])
  {
    var q, last := st.queues[a.id], Settler(a, st, blockAt, first, k);
    var p := FromTail(q, i);
    assert p in q && p in q[|q| - k..] by { assert p == q[|q| - k..][k - 1 - i]; }
    InQueue(st, held, a.id, p);
    assert Reachable(st, p);
    assert p != last by {
      if last != NULL { LastNotPassed(a, blockAt, first, st, held, k, p, last); }
    }
    assert Lookup(st', p) == Left(a, st.items[p], FateOf(a, st, k, last, p));
  }

  /** An item in another queue than before: at its head, without the mark, and otherwise the same item, the time of its
      last access apart if it was rescued first. */
  ghost predicate MovedOver(st: State, st': State, p: Ptr)
    requires p in st.items && p in st'.items
  {
    var it, it' := st.items[p], st'.items[p];
    && !it'.active && it'.refcount == it.refcount && it'.key == it.key && it'.linked == it.linked == true
    && it'.fetched == it.fetched && it'.ntotal == it.ntotal && it'.exptime == it.exptime
    && (!it.active ==> it'.time == it.time) && it'.clsid % 64 == it.clsid % 64
    && it'.clsid < |st'.queues| && it.clsid < |st'.queues| && p !in st'.queues[it.clsid]
    && st'.queues[it'.clsid] != [] && st'.queues[it'.clsid][0] == p
  }

  lemma PullMoves(a: PullArgs, blockAt: int, first: bool, st: State, held: multiset<Ptr>, st': State, removed: int,
      k: nat)
    requires Inv(st, held) && Told(a, blockAt, first, st, st', removed, k)
    ensures forall p | p in st.items && p in st'.items && st'.items[p].clsid != st.items[p].clsid ::
              MovedOver(st, st', p)
  {
    forall p | p in st.items && p in st'.items && st'.items[p].clsid != st.items[p].clsid
      ensures MovedOver(st, st', p)
    {
      MovesOne(a, blockAt, first, st, held, st', removed, k, p);
    }
  }

  lemma MovesOne(a: PullArgs, blockAt: int, first: bool, st: State, held: multiset<Ptr>, st': State, removed: int,
      k: nat, p: Ptr)
    requires Inv(st, held) && Told(a, blockAt, first, st, st', removed, k)
    requires p in st.items && p in st'.items && st'.items[p].clsid != st.items[p].clsid
    ensures MovedOver(st, st', p)
  {
    var last := Settler(a, st, blockAt, first, k);
    var f := FateOf(a, st, k, last, p);
    assert Lookup(st', p) == Left(a, st.items[p], f);
    MovedFields(a, st.items[p], f, st'.items[p]);
    LastInQueue(a, blockAt, first, st, held, k, p);
    InQueue(st, held, a.id, p);
    MovedQueues(a, st, st', k, p, st'.items[p].clsid);
  }

  lemma MovedFields(a: PullArgs, it: Item, f: Fate, it': Item)
    requires Left(a, it, f) == Some(it') && it'.clsid != it.clsid
    ensures f.Settled? && f.verdict.Move? && it'.clsid == SegmentOf(it.clsid, f.verdict.lru) && !it'.active
    ensures it' == it.(clsid := it'.clsid, active := false, time := it'.time) && (!f.again ==> it'.time == it.time)
  {}

  lemma MovedQueues(a: PullArgs, st: State, st': State, k: nat, p: Ptr, cls: nat)
    requires a.id < |st.queues| == |st'.queues| && k <= |st.queues[a.id]| && cls < |st.queues|
    requires Ruling(a, st, k, p).Move? && cls == SegmentOf(a.id, Ruling(a, st, k, p).lru) != a.id
    requires forall id | 0 <= id < |st.queues| :: st'.queues[id] == QueueLeft(a, st, k, p, id)
    ensures p !in st'.queues[a.id] && st'.queues[cls] != [] && st'.queues[cls][0] == p
  {
    assert st'.queues[a.id] == QueueLeft(a, st, k, p, a.id);
    assert st'.queues[cls] == QueueLeft(a, st, k, p, cls);
    NotOther(Line(a, st, st.queues[a.id], k), p);
  }

  lemma LastInQueue(a: PullArgs, blockAt: int, first: bool, st: State, held: multiset<Ptr>, k: nat, p: Ptr)
    requires Inv(st, held) && a.id < CLASSES && k <= |st.queues[a.id]| && p == Settler(a, st, blockAt, first, k)
    requires p in st.items
    ensures p in st.queues[a.id] && (k == |st.queues[a.id]| ==> st.items[p].active)
  {
    NoNull(st, held);
    if k == |st.queues[a.id]| { Returned(a, first, st, held, p); }
  }

  lemma {:induction false} NotOther(s: seq<Ptr>, p: Ptr)
    ensures p !in [] + Others(s, p)
    decreases s
  {
    if s != [] { NotOther(s[1..], p); }
  }
}
