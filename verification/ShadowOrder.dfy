/** What the events of src/shadows.c do, said on the queues, the index and the records, and the order they keep: over
    every run each queue lists the live records of its class by their last entry or lookup, the newest first, so that
    the record trimmed from a full queue is the one not seen for longest. */
module ShadowOrder {
  import opened Basics
  import opened Addresses
  import opened ShadowLife
  import F = ItemFlow
  import L = LruQueues

  /** s, cut from the end to n. */
  function Cut(s: seq<Ptr>, n: nat): seq<Ptr> { if |s| <= n then s else s[..n] }

  /** Queue c after the event. */
  function QueueAfter(st: State, max: seq<nat>, e: Event, c: nat): seq<Ptr>
    requires Enabled(st, max, e) && c < |max|
  {
    var q := st.queues[c];
    match e
    case PullEvict(_, cls) => if c == cls then Cut([st.next] + q, max[c]) else q
    case StoreEvict(k) => F.Others(q, st.storing[k].p)
    case Touch(p) => if p in q then [p] + F.Others(q, p) else q
    case _ => q
  }

  /** The record that a pull into a full queue pushes out, which is the new one itself if nothing may be kept. */
  function Victims(st: State, max: seq<nat>, c: nat): set<Ptr>
    requires c < |st.queues| == |max|
  {
    if |st.queues[c]| < max[c] then {} else if st.queues[c] == [] then {st.next} else {st.queues[c][|st.queues[c]| - 1]}
  }

  /** The record p of a dead key is out of the index and marked, and gone if nobody has it pinned. */
  ghost predicate Buried(st: State, st': State, p: Ptr) {
    && (forall k | k in st'.index :: st'.index[k] != p)
    && (p in st'.items ==> st'.items[p].dead && !st'.items[p].inTree)
    && (p in st.items ==> (p in st'.items <==> Pins(st, p) > 0) && (p in st'.items ==>
          st'.items[p].key == st.items[p].key && st'.items[p].refcnt == Pins(st, p)))
  }

  /** An eviction from the cache into the shadow of class c. */
  ghost predicate Enters(st: State, st': State, max: seq<nat>, k: Key, c: nat) {
    |st.queues| == |st'.queues| == |max| && c < |max| &&
    var out := Victims(st, max, c);
    && st'.next == st.next + 1 && st'.linked == st.linked - {k} && st'.pins == st.pins && st'.storing == st.storing
    && (st.next !in out ==>
          && k in st'.index && st'.index[k] == st.next
          && st.next in st'.items && st'.items[st.next] == Shadow(k, c, 1, false, true))
    && (forall p <- out :: Buried(st, st', p))
    && (forall p | p in st.items && p !in out :: p in st'.items && st'.items[p] == st.items[p])
    && (forall l {:trigger l in st.index} | l in st.index && st.index[l] !in out && l != k ::
          l in st'.index && st'.index[l] == st.index[l])
    && (forall l | l in st'.index && l != k :: l in st.index)
    && forall j | 0 <= j < |max| ::
         st'.queues[j] == if j == c then Cut([st.next] + st.queues[c], max[c]) else st.queues[j]
  }

  lemma {:induction false} WithoutEnd(s: seq<Ptr>)
    requires Distinct(s) && s != []
    ensures L.Without(s, s[|s| - 1]) == s[..|s| - 1]
    decreases s
  {
    if |s| > 1 {
      assert s[|s| - 1] == s[1..][|s| - 2];
      WithoutEnd(s[1..]);
      AllButLast(s);
    }
  }

  lemma AllButLast(s: seq<Ptr>)
    requires |s| > 1
    ensures s[..|s| - 1] == [s[0]] + s[1..][..|s| - 2]
  {
    var a, b := s[..|s| - 1], [s[0]] + s[1..][..|s| - 2];
    assert |a| == |b| && forall i | 0 <= i < |a| :: a[i] == b[i];
  }

  /** The queue of a pull before the trim. */
  lemma Entered(st: State, max: seq<nat>, k: Key, c: nat)
    requires Inv(st, max) && k in st.linked && c < |max|
    ensures k !in st.index && st.next !in st.items
    ensures var st1 := Enter(st, k, c).(linked := st.linked - {k});
            && Inv(st1, Raised(max, c)) && Distinct([st.next] + st.queues[c])
            && st1.sizes[c] == |st.queues[c]| + 1 && |st.queues[c]| <= max[c]
  {
    EnterKeeps(st, max, k, c);
    var st1 := Enter(st, k, c).(linked := st.linked - {k});
    assert QueueOK(st1, Raised(max, c), c) && QueueOK(st, max, c);
    assert st.next in st.items ==> ItemOK(st, multiset{}, st.next);
  }

  lemma TrimFlow(st: State, max: seq<nat>, k: Key, c: nat)
    requires Inv(st, max) && k in st.linked && c < |max| && |st.queues[c]| == max[c]
    ensures |st.queues| == |st.sizes| == |max|
    ensures var st1 := Enter(st, k, c).(linked := st.linked - {k});
            var q := [st.next] + st.queues[c];
            var p := q[|q| - 1];
            && p in st1.items && !st1.items[p].dead && st1.items[p].clsid == c && Victims(st, max, c) == {p}
            && Pull(st, max, k, c) == DropRef(Bury(st1, p), p)
            && Pull(st, max, k, c).queues == st.queues[c := Cut(q, max[c])]
  {
    Entered(st, max, k, c);
    var st1 := Enter(st, k, c).(linked := st.linked - {k});
    var q := [st.next] + st.queues[c];
    assert QueueOK(st1, Raised(max, c), c);
    assert q[|q| - 1] in st1.queues[c];
    WithoutEnd(q);
  }

  lemma PullFlow(st: State, max: seq<nat>, k: Key, c: nat)
    requires Inv(st, max) && k in st.linked && c < |max|
    ensures |st.queues| == |st.sizes| == |max| && Enters(st, Pull(st, max, k, c), max, k, c)
  {
    Entered(st, max, k, c);
    var st1, st' := Enter(st, k, c).(linked := st.linked - {k}), Pull(st, max, k, c);
    if |st.queues[c]| == max[c] {
      TrimFlow(st, max, k, c);
      var q := [st.next] + st.queues[c];
      TrimBuries(st, max, k, c, q[|q| - 1]);
    }
  }

  lemma TrimBuries(st: State, max: seq<nat>, k: Key, c: nat, p: Ptr)
    requires Inv(st, max) && k in st.linked && c < |max|
    requires var st1 := Enter(st, k, c).(linked := st.linked - {k});
             && k !in st.index && st.next !in st.items && Inv(st1, Raised(max, c))
             && p in st1.items && !st1.items[p].dead && st1.items[p].clsid == c
    ensures |st.queues| == |st.sizes| == |max|
    ensures var st' := DropRef(Bury(Enter(st, k, c).(linked := st.linked - {k}), p), p);
            && Buried(st, st', p)
            && (forall q | q in st.items && q != p :: q in st'.items && st'.items[q] == st.items[q])
            && (forall l {:trigger l in st.index} | l in st.index && st.index[l] != p && l != k ::
                  l in st'.index && st'.index[l] == st.index[l])
            && (p != st.next ==> k in st'.index && st'.index[k] == st.next)
  {
    var st1 := Enter(st, k, c).(linked := st.linked - {k});
    var st' := DropRef(Bury(st1, p), p);
    assert ItemOK(st1, multiset{}, p);
    if p in st.items { assert ItemOK(st, multiset{}, p); }
    forall l | l in st'.index ensures st'.index[l] != p { assert IndexOK(st1, l); }
    forall l | l in st.index && st.index[l] != p && l != k ensures l in st'.index && st'.index[l] == st.index[l] {
      assert IndexOK(st, l) && IndexOK(st1, l);
    }
  }

  /** evict_shadowq_item: a dead record stays as it is; a live one leaves its queue and the index. */
  ghost predicate Evicts(st: State, st': State, p: Ptr) {
    p in st.items &&
    if st.items[p].dead then st' == st
    else
      && Buried(st, st', p) && st'.next == st.next && st'.linked == st.linked && st'.pins == st.pins
      && st'.storing == st.storing && |st'.queues| == |st.queues|
      && (forall q | q in st.items && q != p :: q in st'.items && st'.items[q] == st.items[q])
      && (forall q | q in st'.items :: q in st.items)
      && (forall l | l in st.index && st.index[l] != p :: l in st'.index && st'.index[l] == st.index[l])
      && (forall l | l in st'.index :: l in st.index)
      && forall c | 0 <= c < |st.queues| :: st'.queues[c] == F.Others(st.queues[c], p)
  }

  lemma EvictFlow(st: State, max: seq<nat>, p: Ptr)
    requires Inv(st, max) && p in st.items
    ensures st.items[p].clsid < |st.queues| == |st.sizes| && Evicts(st, Evict(st, p), p)
  {
    assert ItemOK(st, multiset{}, p);
    if !st.items[p].dead {
      EvictQueues(st, max, p);
      EvictIndex(st, max, p);
    }
  }

  lemma EvictIndex(st: State, max: seq<nat>, p: Ptr)
    requires Inv(st, max) && p in st.items && !st.items[p].dead
    ensures st.items[p].clsid < |st.queues| == |st.sizes|
    ensures var st' := Evict(st, p);
            && Buried(st, st', p)
            && (forall l | l in st.index && st.index[l] != p :: l in st'.index && st'.index[l] == st.index[l])
  {
    assert ItemOK(st, multiset{}, p);
    var st' := Evict(st, p);
    forall l | l in st'.index ensures st'.index[l] != p { assert IndexOK(st, l); }
    forall l | l in st.index && st.index[l] != p ensures l in st'.index && st'.index[l] == st.index[l] {
      assert IndexOK(st, l);
    }
  }

  lemma EvictQueues(st: State, max: seq<nat>, p: Ptr)
    requires Inv(st, max) && p in st.items && !st.items[p].dead
    ensures st.items[p].clsid < |st.queues| == |st.sizes| && |Evict(st, p).queues| == |st.queues|
    ensures forall c | 0 <= c < |st.queues| :: Evict(st, p).queues[c] == F.Others(st.queues[c], p)
  {
    assert ItemOK(st, multiset{}, p);
    forall c | 0 <= c < |st.queues| ensures Evict(st, p).queues[c] == F.Others(st.queues[c], p) {
      assert QueueOK(st, max, c);
      F.OthersCut(st.queues[c], p);
      if c != st.items[p].clsid { F.OthersSame(st.queues[c], p); }
    }
  }

  /** What the event does to the queues. */
  lemma QueueFlow(st: State, max: seq<nat>, e: Event, c: nat)
    requires Inv(st, max) && Enabled(st, max, e) && c < |max|
    ensures |Next(st, max, e).queues| == |max| && Next(st, max, e).queues[c] == QueueAfter(st, max, e, c)
  {
    assert QueueOK(st, max, c);
    match e {
      case StoreEvict(k) =>
        EvictFlow(st, max, st.storing[k].p);
        F.OthersSame(if st.storing[k].p in st.queues[c] then [] else st.queues[c], st.storing[k].p);
      case PullEvict(k, cls) => PullFlow(st, max, k, cls);
      case Touch(p) =>
        assert ItemOK(st, multiset{}, p);
        F.OthersCut(st.queues[c], p);
      case _ =>
    }
  }

  /** Where the stores and the lookups then are: a store pins the shadow of its key if there is one and is ready at once
      if not, then it has evicted it, then given the pin back, and at last it is done; a lookup has a pin between its
      find and its release. */
  ghost predicate Phases(st: State, st': State, e: Event) {
    && st'.storing ==
         (match e
          case StoreStart(k) => st.storing[k := if k in st.index then Pinned(st.index[k]) else Ready]
          case StoreEvict(k) =>
            if k in st.storing && st.storing[k].Pinned? then st.storing[k := Evicted(st.storing[k].p)] else st.storing
          case StoreRelease(k) => st.storing[k := Ready]
          case StoreLink(k) => st.storing - {k}
          case _ => st.storing)
    && st'.pins ==
         match e
         case Pin(k) => st.pins + (if k in st.index then multiset{st.index[k]} else multiset{})
         case Release(p) => st.pins - multiset{p}
         case _ => st.pins
  }

  lemma PhaseFlow(st: State, max: seq<nat>, e: Event)
    requires Inv(st, max) && Enabled(st, max, e)
    ensures Phases(st, Next(st, max, e), e)
  {
    match e {
      case StoreStart(k) => if k in st.index { assert IndexOK(st, k); }
      case StoreEvict(k) => EvictFlow(st, max, st.storing[k].p);
      case PullEvict(k, cls) => PullFlow(st, max, k, cls);
      case _ =>
    }
  }

  // ---------- the order over runs ----------

  /** When each record last came in or was looked up, given when it did before the events es, the first of which is the
      event number t; records are named next, next + 1, ... as they come in. */
  function LastSeen(es: seq<Event>, next: Ptr, t: nat, seen: map<Ptr, nat>): map<Ptr, nat>
    decreases es
  {
    if es == [] then seen
    else LastSeen(es[1..], next + Bit(es[0].PullEvict?), t + 1, Noted(es[0], next, t, seen))
  }

  function Noted(e: Event, next: Ptr, t: nat, seen: map<Ptr, nat>): map<Ptr, nat> {
    if e.PullEvict? then seen[next := t] else if e.Touch? then seen[e.p := t] else seen
  }

  /** The records of q were all seen, the head later than all others, and so on. */
  ghost predicate NewestFirst(q: seq<Ptr>, seen: map<Ptr, nat>) {
    q == [] || (q[0] in seen && AllSeen(q[1..], seen, seen[q[0]]) && NewestFirst(q[1..], seen))
  }

  ghost predicate AllSeen(q: seq<Ptr>, seen: map<Ptr, nat>, t: nat) { forall p <- q :: p in seen && seen[p] < t }

  lemma {:induction false} NewestAt(q: seq<Ptr>, seen: map<Ptr, nat>, i: nat, j: nat)
    requires NewestFirst(q, seen) && i < j < |q|
    ensures q[i] in seen && q[j] in seen && seen[q[i]] > seen[q[j]]
    decreases q
  {
    if i == 0 {
      assert q[j] == q[1..][j - 1];
    } else {
      NewestAt(q[1..], seen, i - 1, j - 1);
    }
  }

  lemma {:induction false} SameSeen(q: seq<Ptr>, p: Ptr, seen: map<Ptr, nat>, t: nat)
    requires NewestFirst(q, seen) && p !in q
    ensures NewestFirst(q, seen[p := t])
    decreases q
  {
    if q != [] { SameSeen(q[1..], p, seen, t); }
  }

  /** p is now seen and goes to the head. */
  lemma HeadNewest(q: seq<Ptr>, p: Ptr, seen: map<Ptr, nat>, t: nat)
    requires NewestFirst(q, seen) && AllSeen(q, seen, t) && p !in q
    ensures NewestFirst([p] + q, seen[p := t]) && AllSeen([p] + q, seen[p := t], t + 1)
  {
    SameSeen(q, p, seen, t);
    assert ([p] + q)[1..] == q;
  }

  lemma {:induction false} CutNewest(q: seq<Ptr>, n: nat, seen: map<Ptr, nat>, t: nat)
    requires NewestFirst(q, seen) && AllSeen(q, seen, t)
    ensures NewestFirst(Cut(q, n), seen) && AllSeen(Cut(q, n), seen, t)
    decreases q
  {
    if n > 0 && |q| > n {
      assert forall p <- q[1..] :: p in q;
      CutNewest(q[1..], n - 1, seen, t);
      assert q[..n][1..] == Cut(q[1..], n - 1);
    }
  }

  lemma {:induction false} OthersNewest(q: seq<Ptr>, p: Ptr, seen: map<Ptr, nat>, t: nat)
    requires NewestFirst(q, seen) && AllSeen(q, seen, t)
    ensures NewestFirst(F.Others(q, p), seen) && AllSeen(F.Others(q, p), seen, t) && p !in F.Others(q, p)
    decreases q
  {
    if q != [] {
      var r := F.Others(q[1..], p);
      OthersNewest(q[1..], p, seen, seen[q[0]]);
      assert q[0] in q;
      assert [] + r == r && ([q[0]] + r)[1..] == r;
    }
  }

  lemma NewestStep(st: State, max: seq<nat>, e: Event, seen: map<Ptr, nat>, t: nat, c: nat)
    requires Inv(st, max) && Enabled(st, max, e) && c < |max|
    requires NewestFirst(st.queues[c], seen) && AllSeen(st.queues[c], seen, t)
    ensures var q := QueueAfter(st, max, e, c);
            NewestFirst(q, Noted(e, st.next, t, seen)) && AllSeen(q, Noted(e, st.next, t, seen), t + 1)
  {
    var q := st.queues[c];
    assert QueueOK(st, max, c);
    match e {
      case StoreEvict(k) => OthersNewest(q, st.storing[k].p, seen, t);
      case PullEvict(k, _) =>
        Entered(st, max, k, c);
        HeadNewest(q, st.next, seen, t);
        SameSeen(q, st.next, seen, t);
        CutNewest([st.next] + q, max[c], seen[st.next := t], t + 1);
      case Touch(p) =>
        OthersNewest(q, p, seen, t);
        HeadNewest(F.Others(q, p), p, seen, t);
        if p !in q { SameSeen(q, p, seen, t); }
      case _ =>
    }
  }

  lemma NextName(st: State, max: seq<nat>, e: Event)
    requires Inv(st, max) && Enabled(st, max, e)
    ensures Next(st, max, e).next == st.next + Bit(e.PullEvict?)
  {
    if e.PullEvict? { PullFlow(st, max, e.key, e.clsid); }
    if e.StoreEvict? { EvictFlow(st, max, st.storing[e.key].p); }
  }

  ghost predicate Recent(st: State, c: nat, seen: map<Ptr, nat>, t: nat) {
    c < |st.queues| && NewestFirst(st.queues[c], seen) && AllSeen(st.queues[c], seen, t)
  }

  lemma EventNewest(st: State, max: seq<nat>, e: Event, seen: map<Ptr, nat>, t: nat, c: nat)
    returns (st': State, seen': map<Ptr, nat>)
    requires Inv(st, max) && Enabled(st, max, e) && c < |max| && Recent(st, c, seen, t)
    ensures st' == Next(st, max, e) && seen' == Noted(e, st.next, t, seen)
    ensures Inv(st', max) && st'.next == st.next + Bit(e.PullEvict?) && Recent(st', c, seen', t + 1)
  {
    st', seen' := Next(st, max, e), Noted(e, st.next, t, seen);
    StepKeeps(st, max, e);
    QueueFlow(st, max, e, c);
    NewestStep(st, max, e, seen, t, c);
    NextName(st, max, e);
  }

  lemma FirstEvent(st: State, max: seq<nat>, es: seq<Event>, st': State) returns (st1: State)
    requires Runs(st, max, es, st') && es != []
    ensures Enabled(st, max, es[0]) && st1 == Next(st, max, es[0]) && Runs(st1, max, es[1..], st')
  {
    st1 := Next(st, max, es[0]);
  }

  lemma OneMore(st: State, max: seq<nat>, es: seq<Event>, st': State, seen: map<Ptr, nat>, t: nat, c: nat)
    returns (st1: State, seen1: map<Ptr, nat>)
    requires Inv(st, max) && Runs(st, max, es, st') && c < |max| && Recent(st, c, seen, t) && es != []
    ensures Inv(st1, max) && Runs(st1, max, es[1..], st') && Recent(st1, c, seen1, t + 1)
    ensures LastSeen(es, st.next, t, seen) == LastSeen(es[1..], st1.next, t + 1, seen1)
  {
    var st2 := FirstEvent(st, max, es, st');
    st1, seen1 := EventNewest(st, max, es[0], seen, t, c);
    SeenOn(es, st.next, t, seen, st1.next, seen1);
  }

  lemma SeenOn(es: seq<Event>, next: Ptr, t: nat, seen: map<Ptr, nat>, next1: Ptr, seen1: map<Ptr, nat>)
    requires es != [] && next1 == next + Bit(es[0].PullEvict?) && seen1 == Noted(es[0], next, t, seen)
    ensures LastSeen(es, next, t, seen) == LastSeen(es[1..], next1, t + 1, seen1)
  {}

  lemma {:induction false} RunsNewest(st: State, max: seq<nat>, es: seq<Event>, st': State, seen: map<Ptr, nat>, t: nat,
      c: nat)
    requires Inv(st, max) && Runs(st, max, es, st') && c < |max| && Recent(st, c, seen, t)
    ensures Inv(st', max) && Recent(st', c, LastSeen(es, st.next, t, seen), t + |es|)
    decreases es
  {
    if es != [] {
      var st1, seen1 := OneMore(st, max, es, st', seen, t, c);
      RunsNewest(st1, max, es[1..], st', seen1, t + 1, c);
    }
  }

  /** After every run from the start, each queue lists exactly the live records of its class, the one seen last at its
      head. */
  lemma QueuesByRecency(st: State, max: seq<nat>, es: seq<Event>, st': State, c: nat)
    requires Initial(st, max) && Runs(st, max, es, st') && c < |max|
    ensures Inv(st', max) && Recent(st', c, LastSeen(es, st.next, 0, map[]), |es|)
    ensures forall p :: p in st'.queues[c] <==> p in st'.items && !st'.items[p].dead && st'.items[p].clsid == c
  {
    forall j | 0 <= j < |max| ensures QueueOK(st, max, j) { }
    RunsNewest(st, max, es, st', map[], 0, c);
    assert QueueOK(st', max, c);
    forall p | p in st'.items && !st'.items[p].dead && st'.items[p].clsid == c ensures p in st'.queues[c] {
      assert ItemOK(st', multiset{}, p);
    }
  }

  /** So the record that a pull pushes out of its class is, of all live ones, the one not seen for longest. */
  lemma OldestGoes(st: State, max: seq<nat>, es: seq<Event>, st1: State, k: Key, c: nat, p: Ptr)
    requires Initial(st, max) && Runs(st, max, es, st1) && c < |max| && k in st1.linked
    requires p in st1.items && !st1.items[p].dead
    requires |st1.queues| == |st1.sizes| == |max|
    requires var st' := Pull(st1, max, k, c); p !in st'.items || st'.items[p].dead
    ensures st1.items[p].clsid == c
    ensures var seen := LastSeen(es, st.next, 0, map[]);
            forall q | q in st1.items && !st1.items[q].dead && st1.items[q].clsid == c && q != p ::
              q in seen && p in seen && seen[q] > seen[p]
  {
    QueuesByRecency(st, max, es, st1, c);
    VictimLast(st1, max, k, c, p);
    Later(st1.queues[c], LastSeen(es, st.next, 0, map[]), p);
  }

  lemma VictimLast(st: State, max: seq<nat>, k: Key, c: nat, p: Ptr)
    requires Inv(st, max) && c < |max| && k in st.linked && p in st.items && !st.items[p].dead
    requires var st' := Pull(st, max, k, c); p !in st'.items || st'.items[p].dead
    ensures st.items[p].clsid == c && st.queues[c] != [] && p == st.queues[c][|st.queues[c]| - 1]
  {
    PullFlow(st, max, k, c);
    assert ItemOK(st, multiset{}, p);
    assert p in Victims(st, max, c);
    assert QueueOK(st, max, c);
    var q := st.queues[c];
    assert q != [] ==> q[|q| - 1] in q;
  }

  lemma Later(q: seq<Ptr>, seen: map<Ptr, nat>, p: Ptr)
    requires NewestFirst(q, seen) && q != [] && p == q[|q| - 1]
    ensures forall x <- q | x != p :: x in seen && p in seen && seen[x] > seen[p]
  {
    forall x | x in q && x != p ensures x in seen && p in seen && seen[x] > seen[p] {
      var i :| 0 <= i < |q| && q[i] == x;
      NewestAt(q, seen, i, |q| - 1);
    }
  }

  /** Whether k is in the cache after the event. */
  predicate CachedAfter(e: Event, k: Key, was: bool) {
    if e == StoreLink(k) then true else if e == Unlink(k) || (e.PullEvict? && e.key == k) then false else was
  }

  ghost predicate Cached(es: seq<Event>, k: Key, was: bool)
    decreases es
  {
    if es == [] then was else Cached(es[1..], k, CachedAfter(es[0], k, was))
  }

  lemma CachedStep(st: State, max: seq<nat>, e: Event, k: Key) returns (st': State)
    requires Inv(st, max) && Enabled(st, max, e)
    ensures st' == Next(st, max, e) && Inv(st', max) && (k in st'.linked <==> CachedAfter(e, k, k in st.linked))
  {
    st' := Next(st, max, e);
    StepKeeps(st, max, e);
    if e.PullEvict? { PullFlow(st, max, e.key, e.clsid); }
    if e.StoreEvict? { EvictFlow(st, max, st.storing[e.key].p); }
  }

  /** A key is in the cache exactly when nothing took it out since it was last linked. */
  lemma {:induction false} CachedKeys(st: State, max: seq<nat>, es: seq<Event>, st': State, k: Key)
    requires Inv(st, max) && Runs(st, max, es, st')
    ensures k in st'.linked <==> Cached(es, k, k in st.linked)
    decreases es
  {
    if es != [] {
      var st1 := FirstEvent(st, max, es, st');
      var st2 := CachedStep(st, max, es[0], k);
      CachedKeys(st2, max, es[1..], st', k);
    }
  }

  /** The shadow structures as the threads change them. */
  class ShadowTable {
    const max: seq<nat>
    var st: State

    ghost predicate Valid() reads this { Inv(st, max) }

    constructor (max: seq<nat>)
      ensures Valid() && this.max == max && Initial(st, max)
    {
      this.max := max;
      st := State(map[], map[], seq(|max|, _ => []), seq(|max|, _ => 0), [], 0, multiset{}, {}, map[]);
      new;
      forall c | 0 <= c < |max| ensures QueueOK(st, max, c) { }
    }

    /** remove_shadowq_item_locked. */
    method RemoveFromQueue(p: Ptr, c: nat)
      requires c < |st.queues| == |st.sizes|
      modifies this
      ensures st == old(st).(queues := old(st.queues)[c := L.Without(old(st.queues)[c], p)],
              sizes := old(st.sizes)[c := old(st.sizes)[c] - 1])
    {
      st := st.(queues := st.queues[c := L.Without(st.queues[c], p)]);
      st := st.(sizes := st.sizes[c := st.sizes[c] - 1]);
    }

    /** evict_shadowq_item_locked: nothing for a dead item; otherwise the item ends dead and out of everything, and is
        freed at once exactly when nobody has it pinned. */
    method EvictLocked(p: Ptr, ghost limit: seq<nat>)
      requires Inv(st, limit) && p in st.items
      modifies this
      ensures Inv(st, limit) && old(st.items[p].clsid < |st.queues| == |st.sizes|) && st == Evict(old(st), p) &&
              Evicts(old(st), st, p)
      ensures old(!st.items[p].dead) ==> (p in st.freed <==> old(Pins(st, p) == 0))
    {
      EvictKeeps(st, limit, p);
      EvictFlow(st, limit, p);
      var it := st.items[p];
      if it.dead { return; }
      RemoveFromQueue(p, it.clsid);
      st := st.(items := st.items[p := it.(dead := true, inTree := false)], index := st.index - {it.key});
      ReleaseRef(p);
    }

    /** atomic_fetch_sub on refcnt and, with the last reference of a dead item, shadow_maybe_free. */
    method ReleaseRef(p: Ptr)
      requires p in st.items
      modifies this
      ensures st == DropRef(old(st), p)
    {
      var prev := st.items[p].refcnt;
      if prev == 1 && st.items[p].dead {
        st := st.(items := st.items - {p}, freed := st.freed + [p]);
      } else {
        st := st.(items := st.items[p := st.items[p].(refcnt := prev - 1)]);
      }
    }

    /** The eviction branch of lru_pull_tail: create_shadow_item, shadow_assoc_insert and insert_shadowq_item, then the
        unlink of the item. The new record never meets an older one for its key. */
    method PullIntoShadow(k: Key, c: nat)
      requires Valid() && k in st.linked && c < |max|
      modifies this
      ensures Valid() && old(k !in st.index) && old(|st.queues| == |st.sizes| == |max|) &&
              st == Pull(old(st), max, k, c) && Enters(old(st), st, max, k, c)
    {
      PullFlow(st, max, k, c);
      EnterAndTrim(k, c);
    }

    method EnterAndTrim(k: Key, c: nat)
      requires Valid() && k in st.linked && c < |max|
      modifies this
      ensures Valid() && old(k !in st.index) && old(|st.queues| == |st.sizes| == |max|) &&
              st == Pull(old(st), max, k, c)
    {
      EnterKeeps(st, max, k, c);
      PullKeeps(st, max, k, c);
      var p := st.next;
      ghost var was := st;
      st := st.(items := st.items[p := Shadow(k, c, 1, false, true)], next := p + 1, index := st.index[k := p]);
      st := st.(queues := st.queues[c := [p] + st.queues[c]], sizes := st.sizes[c := st.sizes[c] + 1]);
      st := st.(linked := st.linked - {k});
      if st.sizes[c] > max[c] {
        assert QueueOK(st, Raised(max, c), c);
        var victim := st.queues[c][|st.queues[c]| - 1];
        assert ItemOK(st, multiset{}, victim);
        EvictLocked(victim, Raised(max, c));
      }
    }
  }
}
