/** The item index of src/assoc.c: a chained hash table that doubles by moving one bucket at a time
    while finds, inserts and deletes go on. */
module Assoc {
  import opened Basics
  import opened Addresses
  import opened HashChains

  function Pow2(n: nat): (r: nat)
    ensures r >= 1
  {
    if n == 0 then 1 else 2 * Pow2(n - 1)
  }

  /** hv & hashmask(n): the n lowest bits. */
  function Mask(hv: nat, n: nat): (b: nat)
    ensures b < Pow2(n)
  {
    if n == 0 then 0 else hv % 2 + 2 * Mask(hv / 2, n - 1)
  }

  /** How far an expansion has got. */
  datatype Phase = Phase(power: nat, expanding: bool, bucket: nat)

  /** Where a key with hash hv is looked for: while expanding, buckets from `bucket` on are still in the old table. */
  function Route(ph: Phase, hv: nat): (s: Slot) {
    if ph.expanding && ph.power > 0 && Mask(hv, ph.power - 1) >= ph.bucket
    then Old(Mask(hv, ph.power - 1))
    else New(Mask(hv, ph.power))
  }

  predicate PhaseOK(ph: Phase) {
    ph.expanding ==> ph.power > 0 && ph.bucket < Pow2(ph.power - 1)
  }

  predicate IsSlot(ph: Phase, s: Slot) {
    match s
    case New(b) => b < Pow2(ph.power)
    case Old(b) => ph.expanding && ph.power > 0 && ph.bucket <= b < Pow2(ph.power - 1)
  }

  lemma RouteIsSlot(ph: Phase, hv: nat)
    ensures IsSlot(ph, Route(ph, hv))
  {}

  /** The head of a bucket. */
  function HeadOf(primary: seq<Ptr>, old_: seq<Ptr>, s: Slot): Ptr {
    match s
    case New(b) => if b < |primary| then primary[b] else NULL
    case Old(b) => if b < |old_| then old_[b] else NULL
  }

  predicate Sized(ph: Phase, primary: seq<Ptr>, old_: seq<Ptr>) {
    PhaseOK(ph) && |primary| == Pow2(ph.power) && (ph.expanding ==> |old_| == Pow2(ph.power - 1))
  }

  /** There is one chain per bucket in use, it starts at that bucket, and keys are where they are routed to. */
  ghost predicate Routed(ph: Phase, primary: seq<Ptr>, old_: seq<Ptr>, heads: map<Slot, Ptr>,
      chains: map<Slot, seq<Ptr>>) {
    && (forall s {:trigger s in chains} {:trigger IsSlot(ph, s)} :: s in chains <==> IsSlot(ph, s))
    && heads.Keys == chains.Keys
    && (forall s {:trigger heads[s]} | s in heads :: heads[s] == HeadOf(primary, old_, s))
  }

  ghost predicate AtHome(ph: Phase, hash: Key -> nat, m: map<Key, Ptr>, place: map<Key, Slot>) {
    forall k {:trigger place[k]} | k in m && k in place :: place[k] == Route(ph, hash(k))
  }

  /** What the program stores. */
  datatype State = State(ph: Phase, primary: seq<Ptr>, old_: seq<Ptr>, mem: Memory, items: int, started: bool)

  /** What the proof adds: the map the table stands for, and where everything is. */
  datatype View = View(m: map<Key, Ptr>, heads: map<Slot, Ptr>, chains: map<Slot, seq<Ptr>>, place: map<Key, Slot>)

  ghost predicate Shows(hash: Key -> nat, st: State, v: View) {
    && Sized(st.ph, st.primary, st.old_) && Placed(st.mem, v.heads, v.chains, v.m, v.place)
    && Routed(st.ph, st.primary, st.old_, v.heads, v.chains) && AtHome(st.ph, hash, v.m, v.place)
    && st.items == |v.m|
  }

  // ---------- insert ----------

  function Inserted(st: State, s: Slot, it: Ptr, key: Key): State
    requires Sized(st.ph, st.primary, st.old_) && IsSlot(st.ph, s)
  {
    st.(mem := st.mem[it := Item(key, HeadOf(st.primary, st.old_, s))],
        primary := if s.New? then st.primary[s.b := it] else st.primary,
        old_ := if s.Old? then st.old_[s.b := it] else st.old_,
        items := st.items + 1,
        started := st.started || (!st.ph.expanding && st.items + 1 > Pow2(st.ph.power) * 3 / 2))
  }

  ghost function InsertedView(v: View, s: Slot, it: Ptr, key: Key): View
    requires s in v.chains
  {
    View(v.m[key := it], v.heads[s := it], v.chains[s := [it] + v.chains[s]], v.place[key := s])
  }

  lemma SetHead(ph: Phase, primary: seq<Ptr>, old_: seq<Ptr>, heads: map<Slot, Ptr>, chains: map<Slot, seq<Ptr>>,
      s: Slot, p: Ptr, c: seq<Ptr>)
    requires Sized(ph, primary, old_) && Routed(ph, primary, old_, heads, chains) && s in chains
    ensures IsSlot(ph, s) && s in heads
    ensures var primary', old' := if s.New? then primary[s.b := p] else primary,
            if s.Old? then old_[s.b := p] else old_;
            Sized(ph, primary', old') && Routed(ph, primary', old', heads[s := p], chains[s := c])
  {
    var primary', old' := if s.New? then primary[s.b := p] else primary, if s.Old? then old_[s.b := p] else old_;
    forall s' | s' in heads[s := p] ensures heads[s := p][s'] == HeadOf(primary', old', s') {
      assert s' in heads;
      assert heads[s'] == HeadOf(primary, old_, s');
    }
  }

  lemma InsertShows(hash: Key -> nat, st: State, v: View, it: Ptr, key: Key)
    requires Shows(hash, st, v) && it != NULL && it !in st.mem && key !in v.m
    ensures var s := Route(st.ph, hash(key));
            IsSlot(st.ph, s) && s in v.chains && Shows(hash, Inserted(st, s, it, key), InsertedView(v, s, it, key))
  {
    var s := Route(st.ph, hash(key));
    RouteIsSlot(st.ph, hash(key));
    assert s in v.chains;
    assert v.heads[s] == HeadOf(st.primary, st.old_, s);
    PushFront(st.mem, v.heads, v.chains, v.m, v.place, s, it, key);
    SetHead(st.ph, st.primary, st.old_, v.heads, v.chains, s, it, [it] + v.chains[s]);
    InsertHome(st.ph, hash, v.m, v.place, key, it);
  }

  lemma InsertHome(ph: Phase, hash: Key -> nat, m: map<Key, Ptr>, place: map<Key, Slot>, key: Key, it: Ptr)
    requires AtHome(ph, hash, m, place) && m.Keys == place.Keys && key !in m
    ensures AtHome(ph, hash, m[key := it], place[key := Route(ph, hash(key))]) && |m[key := it]| == |m| + 1
  {
    assert m[key := it].Keys == m.Keys + {key};
    assert |m[key := it].Keys| == |m.Keys| + 1;
  }

  // ---------- delete ----------

  function Deleted(st: State, s: Slot, a: seq<Ptr>, x: Ptr): State
    requires Sized(st.ph, st.primary, st.old_) && IsSlot(st.ph, s) && x in st.mem
  {
    st.(mem := CutMemory(st.mem, a, x),
        primary := if s.New? && a == [] then st.primary[s.b := st.mem[x].hNext] else st.primary,
        old_ := if s.Old? && a == [] then st.old_[s.b := st.mem[x].hNext] else st.old_,
        items := st.items - 1)
  }

  ghost function DeletedView(v: View, s: Slot, a: seq<Ptr>, b: seq<Ptr>, key: Key, next: Ptr): View
    requires s in v.chains
  {
    View(v.m - {key}, if a == [] then v.heads[s := next] else v.heads, v.chains[s := a + b], v.place - {key})
  }

  lemma DeleteShows(hash: Key -> nat, st: State, v: View, key: Key, a: seq<Ptr>, x: Ptr, b: seq<Ptr>)
    requires Shows(hash, st, v) && Route(st.ph, hash(key)) in v.chains &&
             v.chains[Route(st.ph, hash(key))] == a + [x] + b
    requires key in v.m && v.m[key] == x && x in st.mem && st.mem[x].key == key && (a != [] ==> a[|a| - 1] in st.mem)
    ensures var s := Route(st.ph, hash(key));
            IsSlot(st.ph, s) && Shows(hash, Deleted(st, s, a, x), DeletedView(v, s, a, b, key, st.mem[x].hNext))
  {
    var s := Route(st.ph, hash(key));
    BucketChain(hash, st, v, key);
    CutOut(st.mem, v.heads, v.chains, v.m, v.place, s, a, x, b);
    if a == [] {
      SetHead(st.ph, st.primary, st.old_, v.heads, v.chains, s, st.mem[x].hNext, a + b);
    } else {
      KeepHead(st.ph, st.primary, st.old_, v.heads, v.chains, s, a + b);
    }
    DeleteHome(st.ph, hash, v.m, v.place, key);
  }

  lemma DeletedParts(v: View, s: Slot, a: seq<Ptr>, b: seq<Ptr>, key: Key, next: Ptr)
    requires s in v.chains
    ensures var v' := DeletedView(v, s, a, b, key, next); v'.m == v.m - {key} && OthersKept(v.chains, v'.chains, s)
  {}

  lemma KeepHead(ph: Phase, primary: seq<Ptr>, old_: seq<Ptr>, heads: map<Slot, Ptr>, chains: map<Slot, seq<Ptr>>,
      s: Slot, c: seq<Ptr>)
    requires Routed(ph, primary, old_, heads, chains) && s in chains
    ensures Routed(ph, primary, old_, heads, chains[s := c])
  {}

  lemma DeleteHome(ph: Phase, hash: Key -> nat, m: map<Key, Ptr>, place: map<Key, Slot>, key: Key)
    requires AtHome(ph, hash, m, place) && key in m
    ensures AtHome(ph, hash, m - {key}, place - {key}) && |m - {key}| == |m| - 1
  {
    assert (m - {key}).Keys == m.Keys - {key};
    assert |(m - {key}).Keys| == |m.Keys| - 1;
    forall k | k in m - {key} && k in place - {key} ensures (place - {key})[k] == Route(ph, hash(k)) {
      assert place[k] == Route(ph, hash(k));
    }
  }

  // ---------- start of an expansion ----------

  function Expanded(st: State): State {
    st.(old_ := st.primary, primary := seq(Pow2(st.ph.power + 1), _ => NULL), ph := Phase(st.ph.power + 1, true, 0))
  }

  /** Every chain is now a chain of the old table, and the new buckets are empty. */
  ghost function ExpandedView(st: State, v: View): View {
    var slots := (set b: nat | b < Pow2(st.ph.power) :: Old(b)) + (set b: nat | b < Pow2(st.ph.power + 1) :: New(b));
    View(v.m,
         map s | s in slots :: if s.Old? && New(s.b) in v.heads then v.heads[New(s.b)] else NULL,
         map s | s in slots :: if s.Old? && New(s.b) in v.chains then v.chains[New(s.b)] else [],
         map k | k in v.place :: Old(v.place[k].b))
  }

  lemma ExpandShows(hash: Key -> nat, st: State, v: View)
    requires Shows(hash, st, v) && !st.ph.expanding
    ensures Shows(hash, Expanded(st), ExpandedView(st, v))
  {
    AllNew(st.ph, st.primary, st.old_, v.heads, v.chains);
    ExpandRouted(st, v);
    ExpandThreads(st, v);
    ExpandFiled(st, v);
    ExpandIndexed(st, v);
    ExpandHome(hash, st, v);
  }

  /** Outside an expansion the chains are those of the primary table. */
  lemma AllNew(ph: Phase, primary: seq<Ptr>, old_: seq<Ptr>, heads: map<Slot, Ptr>, chains: map<Slot, seq<Ptr>>)
    requires Routed(ph, primary, old_, heads, chains) && !ph.expanding
    ensures OnlyNew(ph, chains)
  {
    forall s | s in chains ensures s.New? && s.b < Pow2(ph.power) { assert IsSlot(ph, s); }
    forall b: nat | b < Pow2(ph.power) ensures New(b) in chains { assert IsSlot(ph, New(b)); }
  }

  ghost predicate OnlyNew(ph: Phase, chains: map<Slot, seq<Ptr>>) {
    && (forall s {:trigger s in chains} | s in chains :: s.New? && s.b < Pow2(ph.power))
    && (forall b: nat {:trigger New(b)} | b < Pow2(ph.power) :: New(b) in chains)
  }

  lemma ExpandedSlots(st: State, v: View, s: Slot)
    ensures s in ExpandedView(st, v).chains <==> IsSlot(Expanded(st).ph, s)
  {}

  lemma ExpandedHead(st: State, v: View, s: Slot)
    requires Routed(st.ph, st.primary, st.old_, v.heads, v.chains) && OnlyNew(st.ph, v.chains)
    requires |st.primary| == Pow2(st.ph.power) && s in ExpandedView(st, v).heads
    ensures ExpandedView(st, v).heads[s] == HeadOf(Expanded(st).primary, Expanded(st).old_, s)
  {
    if s.Old? { assert v.heads[New(s.b)] == HeadOf(st.primary, st.old_, New(s.b)); }
  }

  lemma ExpandRouted(st: State, v: View)
    requires Routed(st.ph, st.primary, st.old_, v.heads, v.chains) && OnlyNew(st.ph, v.chains)
    requires |st.primary| == Pow2(st.ph.power)
    ensures var st', v' := Expanded(st), ExpandedView(st, v); Routed(st'.ph, st'.primary, st'.old_, v'.heads, v'.chains)
  {
    var st', v' := Expanded(st), ExpandedView(st, v);
    forall s ensures s in v'.chains <==> IsSlot(st'.ph, s) { ExpandedSlots(st, v, s); }
    forall s | s in v'.heads ensures v'.heads[s] == HeadOf(st'.primary, st'.old_, s) { ExpandedHead(st, v, s); }
  }

  lemma ExpandThreads(st: State, v: View)
    requires Threaded(st.mem, v.heads, v.chains) && OnlyNew(st.ph, v.chains)
    ensures Threaded(st.mem, ExpandedView(st, v).heads, ExpandedView(st, v).chains)
  {
    var v' := ExpandedView(st, v);
    forall s | s in v'.chains ensures Chain(st.mem, v'.heads[s], v'.chains[s]) && Distinct(v'.chains[s]) {
      if s.Old? {
        assert Chain(st.mem, v.heads[New(s.b)], v.chains[New(s.b)]) && Distinct(v.chains[New(s.b)]);
      }
    }
  }

  lemma ExpandFiled(st: State, v: View)
    requires Filed(st.mem, v.chains, v.m, v.place) && OnlyNew(st.ph, v.chains)
    ensures var v' := ExpandedView(st, v); Filed(st.mem, v'.chains, v'.m, v'.place)
  {
    var v' := ExpandedView(st, v);
    forall s, p | s in v'.chains && p in v'.chains[s]
      ensures p in st.mem && st.mem[p].key in v'.m && v'.m[st.mem[p].key] == p && st.mem[p].key in v'.place &&
              v'.place[st.mem[p].key] == s
    {
      assert p in v.chains[New(s.b)];
    }
  }

  lemma ExpandIndexed(st: State, v: View)
    requires Indexed(st.mem, v.chains, v.m, v.place) && OnlyNew(st.ph, v.chains)
    ensures var v' := ExpandedView(st, v); Indexed(st.mem, v'.chains, v'.m, v'.place)
  {
    var v' := ExpandedView(st, v);
    assert v'.place.Keys == v'.m.Keys;
    forall k | k in v'.m ensures v'.m[k] in st.mem && st.mem[v'.m[k]].key == k && v'.place[k] in v'.chains &&
        v'.m[k] in v'.chains[v'.place[k]] {
      assert v.m[k] in v.chains[v.place[k]];
      ExpandedChain(st, v, v.place[k]);
    }
  }

  lemma ExpandedChain(st: State, v: View, s: Slot)
    requires OnlyNew(st.ph, v.chains) && s in v.chains
    ensures s.New? && Old(s.b) in ExpandedView(st, v).chains && ExpandedView(st, v).chains[Old(s.b)] == v.chains[s]
  {
    assert s == New(s.b);
  }

  lemma ExpandHome(hash: Key -> nat, st: State, v: View)
    requires AtHome(st.ph, hash, v.m, v.place) && !st.ph.expanding
    ensures AtHome(Expanded(st).ph, hash, ExpandedView(st, v).m, ExpandedView(st, v).place)
  {
    var v' := ExpandedView(st, v);
    forall k | k in v'.m && k in v'.place ensures v'.place[k] == Route(Expanded(st).ph, hash(k)) {
      assert v.place[k] == Route(st.ph, hash(k));
    }
  }

  // ---------- moving one bucket ----------

  /** expand_bucket advances; after the last bucket the expansion is over. */
  function Advanced(ph: Phase): Phase
    requires PhaseOK(ph) && ph.expanding
  {
    ph.(bucket := ph.bucket + 1, expanding := ph.bucket + 1 != Pow2(ph.power - 1))
  }

  /** Advancing re-routes exactly the keys of the bucket that was moved. */
  lemma AdvanceRoutes(ph: Phase, hv: nat)
    requires PhaseOK(ph) && ph.expanding
    ensures Route(Advanced(ph), hv) == if Route(ph, hv) == Old(ph.bucket) then New(Mask(hv, ph.power))
            else Route(ph, hv)
  {}

  /** The buckets a move reads or writes: the old one and the two it splits into. */
  predicate Touched(ph: Phase, s: Slot)
    requires ph.power > 0
  {
    s == Old(ph.bucket) || s == New(ph.bucket) || s == New(ph.bucket + Pow2(ph.power - 1))
  }

  lemma {:induction false} MaskSplits(hv: nat, n: nat)
    ensures Mask(hv, n + 1) == Mask(hv, n) || Mask(hv, n + 1) == Mask(hv, n) + Pow2(n)
    decreases n
  {
    if n > 0 { MaskSplits(hv / 2, n - 1); }
  }

  /** While the bucket is being moved: what is left of it starts at `it`; a key of the bucket is still there or
      already in its new bucket. */
  ghost predicate InTransit(hash: Key -> nat, ph: Phase, m: map<Key, Ptr>, place: map<Key, Slot>) {
    forall k {:trigger place[k]} | k in m && k in place ::
      || place[k] == Route(ph, hash(k))
      || (Route(ph, hash(k)) == Old(ph.bucket) && place[k] == New(Mask(hash(k), ph.power)))
  }

  ghost predicate Moving(hash: Key -> nat, st: State, v: View, it: Ptr) {
    && Sized(st.ph, st.primary, st.old_) && st.ph.expanding && Old(st.ph.bucket) in v.chains
    && Placed(st.mem, v.heads, v.chains, v.m, v.place)
    && Routed(st.ph, st.primary, st.old_[st.ph.bucket := it], v.heads, v.chains)
    && InTransit(hash, st.ph, v.m, v.place)
    && st.items == |v.m|
  }

  /** One round of the inner loop. */
  function Moved(hash: Key -> nat, st: State, it: Ptr): State
    requires Sized(st.ph, st.primary, st.old_) && it in st.mem
  {
    var b := Mask(hash(st.mem[it].key), st.ph.power);
    st.(mem := st.mem[it := st.mem[it].(hNext := st.primary[b])], primary := st.primary[b := it])
  }

  ghost function MovedView(hash: Key -> nat, st: State, v: View, it: Ptr): View
    requires it in st.mem
  {
    var s, k := Old(st.ph.bucket), st.mem[it].key;
    var s' := New(Mask(hash(k), st.ph.power));
    if s !in v.chains || s' !in v.chains || v.chains[s] == [] then v else
    View(v.m, v.heads[s := st.mem[it].hNext][s' := it], v.chains[s := v.chains[s][1..]][s' := [it] + v.chains[s']],
        v.place[k := s'])
  }

  lemma MoveStep(hash: Key -> nat, st: State, v: View, it: Ptr)
    requires Moving(hash, st, v, it) && it != NULL
    ensures it in st.mem && v.chains[Old(st.ph.bucket)] != []
    ensures Moving(hash, Moved(hash, st, it), MovedView(hash, st, v, it), st.mem[it].hNext)
  {
    var s := Old(st.ph.bucket);
    TransitHead(hash, st, v, it);
    var k := st.mem[it].key;
    var b := Mask(hash(k), st.ph.power);
    assert IsSlot(st.ph, New(b));
    assert New(b) in v.chains;
    assert v.heads[New(b)] == HeadOf(st.primary, st.old_[st.ph.bucket := it], New(b));
    MoveFront(st.mem, v.heads, v.chains, v.m, v.place, s, New(b));
    SetHead(st.ph, st.primary, st.old_[st.ph.bucket := it], v.heads, v.chains, s, st.mem[it].hNext, v.chains[s][1..]);
    SetHead(st.ph, st.primary, st.old_[st.ph.bucket := st.mem[it].hNext], v.heads[s := st.mem[it].hNext],
        v.chains[s := v.chains[s][1..]], New(b), it, [it] + v.chains[New(b)]);
    TransitMove(hash, st.ph, v.m, v.place, k);
  }

  /** The bucket gets shorter. */
  lemma MoveShortens(hash: Key -> nat, st: State, v: View, it: Ptr)
    requires Sized(st.ph, st.primary, st.old_) && st.ph.expanding && it in st.mem
    requires Old(st.ph.bucket) in v.chains && v.chains[Old(st.ph.bucket)] != []
    requires New(Mask(hash(st.mem[it].key), st.ph.power)) in v.chains
    ensures var s, v' := Old(st.ph.bucket), MovedView(hash, st, v, it);
            v'.m == v.m && s in v'.chains && |v'.chains[s]| < |v.chains[s]|
  {}

  /** A move stays among the three buckets. */
  lemma MoveTouches(hash: Key -> nat, st: State, v: View, it: Ptr)
    requires Moving(hash, st, v, it) && it != NULL
    ensures it in st.mem && Untouched(st.ph, v.chains, MovedView(hash, st, v, it).chains)
  {
    TransitHead(hash, st, v, it);
    var k := st.mem[it].key;
    var s' := New(Mask(hash(k), st.ph.power));
    assert Touched(st.ph, s') by {
      assert k in v.place && v.place[k] == Old(st.ph.bucket);
      SplitTouched(st.ph, hash(k));
    }
    TwoTouched(st.ph, v.chains, s', v.chains[Old(st.ph.bucket)][1..],
        [it] + (if s' in v.chains then v.chains[s'] else []));
    assert Untouched(st.ph, v.chains, v.chains);
  }

  /** The new bucket of a key of the bucket being moved. */
  lemma SplitTouched(ph: Phase, hv: nat)
    requires PhaseOK(ph) && ph.expanding && Route(ph, hv) == Old(ph.bucket)
    ensures Touched(ph, New(Mask(hv, ph.power)))
  {
    MaskSplits(hv, ph.power - 1);
  }

  lemma TwoTouched(ph: Phase, chains: map<Slot, seq<Ptr>>, s: Slot, a: seq<Ptr>, b: seq<Ptr>)
    requires ph.power > 0 && Touched(ph, s)
    ensures Untouched(ph, chains, chains[Old(ph.bucket) := a][s := b])
  {}

  /** Chains that the move has no business with. */
  ghost predicate Untouched(ph: Phase, chains: map<Slot, seq<Ptr>>, chains': map<Slot, seq<Ptr>>)
    requires ph.power > 0
  {
    forall s {:trigger s in chains'} {:trigger s in chains} | s in chains && !Touched(ph, s) :: s in chains' &&
        chains'[s] == chains[s]
  }

  lemma TransitHead(hash: Key -> nat, st: State, v: View, it: Ptr)
    requires Moving(hash, st, v, it)
    ensures var s := Old(st.ph.bucket);
            && s in v.chains && s in v.heads && v.heads[s] == it && Chain(st.mem, it, v.chains[s])
            && (it != NULL ==> it in st.mem && v.chains[s] != [] && it in v.chains[s])
            && (it == NULL ==> v.chains[s] == [])
            && st.old_[st.ph.bucket := it][st.ph.bucket := if it in st.mem then st.mem[it].hNext else NULL]
               == st.old_[st.ph.bucket := if it in st.mem then st.mem[it].hNext else NULL]
  {
    var s := Old(st.ph.bucket);
    assert v.heads[s] == HeadOf(st.primary, st.old_[st.ph.bucket := it], s);
    assert Chain(st.mem, v.heads[s], v.chains[s]);
  }

  lemma TransitMove(hash: Key -> nat, ph: Phase, m: map<Key, Ptr>, place: map<Key, Slot>, k: Key)
    requires InTransit(hash, ph, m, place) && k in m && k in place && place[k] == Old(ph.bucket)
    ensures InTransit(hash, ph, m, place[k := New(Mask(hash(k), ph.power))])
  {
    forall k' | k' in m && k' in place[k := New(Mask(hash(k), ph.power))]
      ensures var p := place[k := New(Mask(hash(k), ph.power))][k'];
              p == Route(ph, hash(k')) || (Route(ph, hash(k')) == Old(ph.bucket) && p == New(Mask(hash(k'), ph.power)))
    {
      assert place[k'] == place[k'] && place[k] == Old(ph.bucket);
    }
  }

  lemma MoveStarts(hash: Key -> nat, st: State, v: View)
    requires Shows(hash, st, v) && st.ph.expanding
    ensures Moving(hash, st, v, st.old_[st.ph.bucket])
  {
    assert IsSlot(st.ph, Old(st.ph.bucket));
    assert st.old_[st.ph.bucket := st.old_[st.ph.bucket]] == st.old_;
    assert Old(st.ph.bucket) in v.chains;
  }

  function Finished(st: State): State
    requires Sized(st.ph, st.primary, st.old_) && st.ph.expanding
  {
    st.(old_ := st.old_[st.ph.bucket := NULL], ph := Advanced(st.ph))
  }

  ghost function FinishedView(st: State, v: View): View {
    View(v.m, v.heads - {Old(st.ph.bucket)}, v.chains - {Old(st.ph.bucket)}, v.place)
  }

  lemma MoveEnds(hash: Key -> nat, st: State, v: View)
    requires Moving(hash, st, v, NULL)
    ensures Shows(hash, Finished(st), FinishedView(st, v))
  {
    var s, v', st' := Old(st.ph.bucket), FinishedView(st, v), Finished(st);
    TransitHead(hash, st, v, NULL);
    EmptyDropped(st.mem, v.heads, v.chains, v.m, v.place, s);
    assert Routed(st'.ph, st'.primary, st'.old_, v'.heads, v'.chains) by {
      forall s' ensures s' in v'.chains <==> IsSlot(st'.ph, s') {
        assert s' in v.chains <==> IsSlot(st.ph, s');
      }
      forall s' | s' in v'.heads ensures v'.heads[s'] == HeadOf(st'.primary, st'.old_, s') {
        assert v.heads[s'] == HeadOf(st.primary, st.old_[st.ph.bucket := NULL], s');
      }
    }
    ArrivedHome(hash, st, v);
  }

  lemma EmptyDropped(mem: Memory, heads: map<Slot, Ptr>, chains: map<Slot, seq<Ptr>>, m: map<Key, Ptr>,
      place: map<Key, Slot>, s: Slot)
    requires Placed(mem, heads, chains, m, place) && s in chains && chains[s] == []
    ensures Placed(mem, heads - {s}, chains - {s}, m, place)
    ensures forall k | k in m :: place[k] != s
  {
    var chains' := chains - {s};
    assert Threaded(mem, heads - {s}, chains') by {
      forall s' | s' in chains' ensures Chain(mem, (heads - {s})[s'], chains'[s']) && Distinct(chains'[s']) {
        assert Chain(mem, heads[s'], chains[s']) && Distinct(chains[s']);
      }
    }
    forall k | k in m ensures place[k] != s { assert m[k] in chains[place[k]]; }
  }

  lemma ArrivedHome(hash: Key -> nat, st: State, v: View)
    requires PhaseOK(st.ph) && st.ph.expanding && InTransit(hash, st.ph, v.m, v.place) && v.place.Keys == v.m.Keys
    requires forall k | k in v.m :: v.place[k] != Old(st.ph.bucket)
    ensures AtHome(Advanced(st.ph), hash, v.m, v.place)
  {
    forall k | k in v.m && k in v.place ensures v.place[k] == Route(Advanced(st.ph), hash(k)) {
      AdvanceRoutes(st.ph, hash(k));
    }
  }

  class HashTable {
    const hash: Key -> nat
    var ph: Phase                // hashpower, expanding, expand_bucket
    var primary: seq<Ptr>
    var old_: seq<Ptr>
    var mem: Memory
    var hashItems: int
    var startedExpanding: bool
    ghost var v: View

    ghost function Now(): State
      reads this
    {
      State(ph, primary, old_, mem, hashItems, startedExpanding)
    }

    ghost predicate Valid()
      reads this
    {
      Shows(hash, Now(), v)
    }

    /** assoc_init. */
    constructor (hash: Key -> nat, power: nat)
      ensures Valid() && v.m == map[] && ph == Phase(power, false, 0) && this.hash == hash && mem == map[]
    {
      this.hash := hash;
      ph, primary, old_ := Phase(power, false, 0), seq(Pow2(power), _ => NULL), [];
      mem, hashItems, startedExpanding := map[], 0, false;
      ghost var slots := set b: nat | b < Pow2(power) :: New(b);
      v := View(map[], map s | s in slots :: NULL, map s | s in slots :: [], map[]);
    }

    /** The loop shared by assoc_find and _hashitem_before: walk the chain c from head; prev is the item
        whose h_next was followed last, NULL while still at the bucket itself. */
    method Walk(head: Ptr, key: Key, ghost c: seq<Ptr>) returns (prev: Ptr, it: Ptr, ghost a: seq<Ptr>,
        ghost b: seq<Ptr>)
      requires Chain(mem, head, c)
      ensures Lacks(mem, a, key) && prev == if a == [] then NULL else a[|a| - 1]
      ensures it == NULL ==> c == a
      ensures it != NULL ==> c == a + [it] + b && it in mem && mem[it].key == key
    {
      prev, it, a, b := NULL, head, [], c;
      while it != NULL && key != mem[it].key
        invariant c == a + b && Chain(mem, it, b) && Lacks(mem, a, key) && prev == if a == [] then NULL else a[|a| - 1]
        decreases b
      {
        LacksAppend(mem, a, it, key);
        assert a + b == (a + [b[0]]) + b[1..];
        prev := it;
        it := mem[it].hNext;
        a, b := a + [b[0]], b[1..];
      }
      if it != NULL {
        assert a + b == a + [it] + b[1..];
        b := b[1..];
      }
    }

    /** The head of the bucket a key is routed to. */
    method Bucket(key: Key) returns (head: Ptr, ghost s: Slot)
      requires Valid()
      ensures s == Route(ph, hash(key)) && s in v.chains && head == HeadOf(primary, old_, s) &&
              Chain(mem, head, v.chains[s])
    {
      s := Route(ph, hash(key));
      BucketChain(hash, Now(), v, key);
      if ph.expanding && Mask(hash(key), ph.power - 1) >= ph.bucket {
        head := old_[Mask(hash(key), ph.power - 1)];
      } else {
        head := primary[Mask(hash(key), ph.power)];
      }
    }

    /** _hashitem_before: the item with the key, if any, and the item before it on its chain. */
    method HashitemBefore(key: Key) returns (prev: Ptr, it: Ptr, ghost a: seq<Ptr>, ghost b: seq<Ptr>)
      requires Valid()
      ensures it == if key in v.m then v.m[key] else NULL
      ensures prev == if a == [] then NULL else a[|a| - 1]
      ensures it != NULL ==>
                && it in mem && mem[it].key == key && (a != [] ==> prev in mem && prev != NULL)
                && Route(ph, hash(key)) in v.chains && v.chains[Route(ph, hash(key))] == a + [it] + b
    {
      var head, s := Bucket(key);
      prev, it, a, b := Walk(head, key, v.chains[s]);
      FindAnswers(hash, Now(), v, key, a, it, b);
      if it != NULL { PrefixInMemory(mem, head, a, it, b); }
    }

    /** assoc_find. */
    method Find(key: Key) returns (it: Ptr)
      requires Valid()
      ensures it == if key in v.m then v.m[key] else NULL
    {
      ghost var prev, a, b;
      prev, it, a, b := HashitemBefore(key);
    }

    /** The writes of assoc_insert. */
    method LinkFront(it: Ptr, key: Key)
      requires Sized(ph, primary, old_)
      modifies this
      ensures v == old(v) && IsSlot(old(ph), Route(old(ph), hash(key))) &&
              Now() == Inserted(old(Now()), Route(old(ph), hash(key)), it, key)
    {
      RouteIsSlot(ph, hash(key));
      if ph.expanding && Mask(hash(key), ph.power - 1) >= ph.bucket {
        mem := mem[it := Item(key, old_[Mask(hash(key), ph.power - 1)])];
        old_ := old_[Mask(hash(key), ph.power - 1) := it];
      } else {
        mem := mem[it := Item(key, primary[Mask(hash(key), ph.power)])];
        primary := primary[Mask(hash(key), ph.power) := it];
      }
      hashItems := hashItems + 1;
      if !ph.expanding && hashItems > Pow2(ph.power) * 3 / 2 {
        startedExpanding := true;
      }
    }

    /** assoc_insert; the caller has made sure that the key is not there. */
    method Insert(it: Ptr, key: Key)
      requires Valid() && it != NULL && it !in mem && key !in v.m
      modifies this
      ensures Valid() && v.m == old(v.m)[key := it] && ph == old(ph)
      ensures OthersKept(old(v.chains), v.chains, Route(ph, hash(key)))
      ensures startedExpanding <==> old(startedExpanding) || (!ph.expanding && |v.m| > Pow2(ph.power) * 3 / 2)
    {
      ghost var s := Route(ph, hash(key));
      InsertShows(hash, Now(), v, it, key);
      ghost var st1, v1 := Inserted(Now(), s, it, key), InsertedView(v, s, it, key);
      LinkFront(it, key);
      v := v1;
      assert Now() == st1;
    }

    /** The writes of assoc_delete, once the item x is found behind prev. */
    method UnlinkAfter(prev: Ptr, x: Ptr, key: Key, ghost a: seq<Ptr>, ghost v1: View)
      requires Sized(ph, primary, old_) && x in mem
      requires prev == (if a == [] then NULL else a[|a| - 1]) && (a != [] ==> prev in mem && prev != NULL)
      modifies this
      ensures v == v1 && ph == old(ph) && IsSlot(ph, Route(ph, hash(key)))
      ensures Now() == Deleted(old(Now()), Route(ph, hash(key)), a, x)
    {
      RouteIsSlot(ph, hash(key));
      hashItems := hashItems - 1;
      var nxt := mem[x].hNext;
      if prev != NULL {
        mem := mem[prev := mem[prev].(hNext := nxt)];
      } else if ph.expanding && Mask(hash(key), ph.power - 1) >= ph.bucket {
        old_ := old_[Mask(hash(key), ph.power - 1) := nxt];
      } else {
        primary := primary[Mask(hash(key), ph.power) := nxt];
      }
      mem := mem - {x};
      v := v1;
    }

    method RemoveFound(prev: Ptr, it: Ptr, key: Key, ghost a: seq<Ptr>, ghost b: seq<Ptr>)
      requires Valid() && key in v.m && v.m[key] == it && it in mem && mem[it].key == key
      requires prev == (if a == [] then NULL else a[|a| - 1]) && (a != [] ==> prev in mem && prev != NULL)
      requires Route(ph, hash(key)) in v.chains && v.chains[Route(ph, hash(key))] == a + [it] + b
      modifies this
      ensures Valid() && ph == old(ph)
      ensures v == DeletedView(old(v), Route(ph, hash(key)), a, b, key, old(mem)[it].hNext)
    {
      DeleteShows(hash, Now(), v, key, a, it, b);
      UnlinkAfter(prev, it, key, a, DeletedView(v, Route(ph, hash(key)), a, b, key, mem[it].hNext));
    }

    /** assoc_delete; found is false exactly where the program's assertion fails. */
    method Delete(key: Key) returns (found: bool)
      requires Valid()
      modifies this
      ensures Valid() && found == (key in old(v.m)) && v.m == old(v.m) - {key} && ph == old(ph)
      ensures OthersKept(old(v.chains), v.chains, Route(ph, hash(key)))
    {
      var prev, it, a, b := HashitemBefore(key);
      if it != NULL {
        DeletedParts(v, Route(ph, hash(key)), a, b, key, mem[it].hNext);
        RemoveFound(prev, it, key, a, b);
        found := true;
      } else {
        KeepsAll(hash, Now(), v, key);
        found := false;
      }
    }

    /** The writes of assoc_expand. */
    method SwitchTables(gotMemory: bool, ghost v1: View)
      modifies this
      ensures v == v1
      ensures Now() == if gotMemory then Expanded(old(Now())) else old(Now()).(old_ := old(primary))
    {
      old_ := primary;
      if gotMemory {
        primary := seq(Pow2(ph.power + 1), _ => NULL);
        ph := Phase(ph.power + 1, true, 0);
      }
      v := v1;
    }

    /** assoc_expand; gotMemory says whether the larger table could be had. */
    method Expand(gotMemory: bool)
      requires Valid() && !ph.expanding
      modifies this
      ensures Valid() && v.m == old(v.m)
      ensures ph == if gotMemory then Phase(old(ph).power + 1, true, 0) else old(ph)
    {
      if gotMemory {
        ExpandShows(hash, Now(), v);
      } else {
        ExpandFails(hash, Now(), v);
      }
      SwitchTables(gotMemory, if gotMemory then ExpandedView(Now(), v) else v);
    }

    /** One item of the bucket goes to the front of its new bucket. */
    method RelinkOne(it: Ptr, ghost v1: View) returns (next: Ptr)
      requires Sized(ph, primary, old_) && it in mem
      modifies this
      ensures v == v1 && ph == old(ph) && next == old(mem)[it].hNext && Now() == Moved(hash, old(Now()), it)
    {
      next := mem[it].hNext;
      var bucket := Mask(hash(mem[it].key), ph.power);
      mem := mem[it := mem[it].(hNext := primary[bucket])];
      primary := primary[bucket := it];
      v := v1;
    }

    method MoveOne(it: Ptr) returns (next: Ptr)
      requires Moving(hash, Now(), v, it) && it != NULL
      modifies this
      ensures Moving(hash, Now(), v, next) && v.m == old(v.m) && ph == old(ph)
      ensures Untouched(ph, old(v.chains), v.chains)
      ensures |v.chains[Old(ph.bucket)]| < old(|v.chains[Old(ph.bucket)]|)
    {
      MoveStep(hash, Now(), v, it);
      MoveTouches(hash, Now(), v, it);
      assert IsSlot(ph, New(Mask(hash(mem[it].key), ph.power)));
      MoveShortens(hash, Now(), v, it);
      next := RelinkOne(it, MovedView(hash, Now(), v, it));
    }

    /** The inner loop: the bucket is emptied item by item. */
    method EmptyBucket()
      requires Valid() && ph.expanding
      modifies this
      ensures Moving(hash, Now(), v, NULL) && v.m == old(v.m) && ph == old(ph)
      ensures Untouched(ph, old(v.chains), v.chains)
    {
      MoveStarts(hash, Now(), v);
      var it := old_[ph.bucket];
      while it != NULL
        invariant Moving(hash, Now(), v, it) && v.m == old(v.m) && ph == old(ph)
        invariant Untouched(ph, old(v.chains), v.chains)
        decreases |v.chains[Old(ph.bucket)]|
      {
        ghost var before := v.chains;
        it := MoveOne(it);
        UntouchedStill(ph, old(v.chains), before, v.chains);
      }
    }

    /** The maintenance thread moves one bucket, under the item lock of that bucket. */
    method MigrateBucket()
      requires Valid() && ph.expanding
      modifies this
      ensures Valid() && v.m == old(v.m) && ph == Advanced(old(ph))
      ensures Untouched(old(ph), old(v.chains), v.chains)
    {
      EmptyBucket();
      MoveEnds(hash, Now(), v);
      FinishTouches(ph, old(v.chains), v.chains);
      EndBucket(FinishedView(Now(), v));
    }

    /** Any run of finds, inserts, deletes, expansions and bucket moves is a run of the plain map: the same
        answers and the same contents at the end. */
    method Run(ops: seq<Op>) returns (answers: seq<Ptr>)
      requires Valid()
      modifies this
      ensures Valid() && Replay(old(v.m), ops) == (v.m, answers)
    {
      answers := [];
      var n := 0;
      ReplayStart(v.m, ops);
      while n < |ops|
        invariant 0 <= n <= |ops| && Valid() && Replay(old(v.m), ops[..n]) == (v.m, answers)
      {
        ReplayNext(old(v.m), ops, n);
        var answer := Perform(ops[n]);
        answers := answers + [answer];
        n := n + 1;
      }
      ReplayEnd(old(v.m), ops);
    }

    /** An insert as its caller guards it: of an item that is new, under a key that is not there. */
    method InsertIfNew(it: Ptr, key: Key) returns (answer: Ptr)
      requires Valid()
      modifies this
      ensures Valid() && MapStep(old(v.m), OpInsert(it, key)) == (v.m, answer)
    {
      answer := Find(key);
      LinkedItems(hash, Now(), v, it);
      NoNull(hash, Now(), v, key);
      if answer == NULL && it != NULL && it !in mem {
        Insert(it, key);
      }
    }

    method FindAndDelete(key: Key) returns (answer: Ptr)
      requires Valid()
      modifies this
      ensures Valid() && MapStep(old(v.m), OpDelete(key)) == (v.m, answer)
    {
      answer := Find(key);
      var found := Delete(key);
    }

    /** One operation. */
    method Perform(op: Op) returns (answer: Ptr)
      requires Valid()
      modifies this
      ensures Valid() && MapStep(old(v.m), op) == (v.m, answer)
    {
      match op
      case OpFind(key) =>
        answer := Find(key);
      case OpInsert(it, key) =>
        answer := InsertIfNew(it, key);
      case OpDelete(key) =>
        answer := FindAndDelete(key);
      case OpExpand(gotMemory) =>
        answer := NULL;
        if !ph.expanding { Expand(gotMemory); }
      case OpMigrate =>
        answer := NULL;
        if ph.expanding { MigrateBucket(); }
    }

    method EndBucket(ghost v1: View)
      requires Sized(ph, primary, old_) && ph.expanding
      modifies this
      ensures v == v1 && Now() == Finished(old(Now()))
    {
      old_ := old_[ph.bucket := NULL];
      ph := ph.(bucket := ph.bucket + 1);
      if ph.bucket == Pow2(ph.power - 1) {
        ph := ph.(expanding := false);
      }
      v := v1;
    }
  }

  lemma FinishTouches(ph: Phase, c0: map<Slot, seq<Ptr>>, c1: map<Slot, seq<Ptr>>)
    requires ph.power > 0 && Untouched(ph, c0, c1)
    ensures Untouched(ph, c0, c1 - {Old(ph.bucket)})
  {}

  lemma UntouchedStill(ph: Phase, c0: map<Slot, seq<Ptr>>, c1: map<Slot, seq<Ptr>>, c2: map<Slot, seq<Ptr>>)
    requires ph.power > 0 && Untouched(ph, c0, c1) && Untouched(ph, c1, c2)
    ensures Untouched(ph, c0, c2)
  {
    forall s | s in c0 && !Touched(ph, s) ensures s in c2 && c2[s] == c0[s] { assert c1[s] == c0[s]; }
  }

  lemma KeepsAll(hash: Key -> nat, st: State, v: View, key: Key)
    requires Shows(hash, st, v) && key !in v.m
    ensures v.m - {key} == v.m && OthersKept(v.chains, v.chains, Route(st.ph, hash(key)))
  {
    BucketChain(hash, st, v, key);
  }

  datatype Op =
    | OpFind(key: Key) | OpInsert(it: Ptr, key: Key) | OpDelete(key: Key) | OpExpand(gotMemory: bool) | OpMigrate

  /** What an operation means for the plain map, and what it answers. */
  ghost function MapStep(m: map<Key, Ptr>, op: Op): (map<Key, Ptr>, Ptr) {
    match op
    case OpFind(key) => (m, if key in m then m[key] else NULL)
    case OpInsert(it, key) =>
      if key in m then (m, m[key]) else if it == NULL || it in m.Values then (m, NULL) else (m[key := it], NULL)
    case OpDelete(key) => (m - {key}, if key in m then m[key] else NULL)
    case OpExpand(_) => (m, NULL)
    case OpMigrate => (m, NULL)
  }

  ghost function Replay(m: map<Key, Ptr>, ops: seq<Op>): (map<Key, Ptr>, seq<Ptr>) {
    if ops == [] then (m, [])
    else
      var (m1, answers) := Replay(m, ops[..|ops| - 1]);
      var (m2, answer) := MapStep(m1, ops[|ops| - 1]);
      (m2, answers + [answer])
  }

  lemma ReplayStart(m: map<Key, Ptr>, ops: seq<Op>)
    ensures Replay(m, ops[..0]) == (m, [])
  {}

  lemma ReplayNext(m: map<Key, Ptr>, ops: seq<Op>, n: nat)
    requires n < |ops|
    ensures var (m1, answers) := Replay(m, ops[..n]); var (m2, answer) := MapStep(m1, ops[n]);
            Replay(m, ops[..n + 1]) == (m2, answers + [answer])
  {
    assert ops[..n + 1][..n] == ops[..n];
  }

  lemma ReplayEnd(m: map<Key, Ptr>, ops: seq<Op>)
    ensures Replay(m, ops[..|ops|]) == Replay(m, ops)
  {
    assert ops[..|ops|] == ops;
  }

  /** The items in memory are exactly the map's. */
  lemma LinkedItems(hash: Key -> nat, st: State, v: View, it: Ptr)
    requires Shows(hash, st, v)
    ensures it in st.mem <==> it in v.m.Values
  {
    if it in st.mem { assert Listed(st.mem, v.m, it); }
    if it in v.m.Values {
      var k :| k in v.m && v.m[k] == it;
    }
  }

  lemma NoNull(hash: Key -> nat, st: State, v: View, key: Key)
    requires Shows(hash, st, v)
    ensures key in v.m ==> v.m[key] != NULL
  {}

  /** No chain but the one at s has changed. */
  ghost predicate OthersKept(chains: map<Slot, seq<Ptr>>, chains': map<Slot, seq<Ptr>>, s: Slot) {
    s in chains && s in chains' && chains' == chains[s := chains'[s]]
  }

  lemma PrefixInMemory(mem: Memory, head: Ptr, a: seq<Ptr>, x: Ptr, b: seq<Ptr>)
    requires Chain(mem, head, a + [x] + b)
    ensures a != [] ==> a[|a| - 1] in mem && a[|a| - 1] != NULL
  {
    ChainIn(mem, head, a + [x] + b);
    if a != [] {
      assert a + [x] + b == a[..|a| - 1] + ([a[|a| - 1], x] + b);
      ChainSplit(mem, head, a[..|a| - 1], [a[|a| - 1], x] + b);
      assert a[|a| - 1] in a + [x] + b;
    }
  }

  lemma ExpandFails(hash: Key -> nat, st: State, v: View)
    requires Shows(hash, st, v) && !st.ph.expanding
    ensures Shows(hash, st.(old_ := st.primary), v)
  {
    forall s | s in v.heads ensures v.heads[s] == HeadOf(st.primary, st.primary, s) {
      assert v.heads[s] == HeadOf(st.primary, st.old_, s);
      assert IsSlot(st.ph, s);
    }
  }

  lemma BucketChain(hash: Key -> nat, st: State, v: View, key: Key)
    requires Shows(hash, st, v)
    ensures var s := Route(st.ph, hash(key));
            IsSlot(st.ph, s) && s in v.chains && s in v.heads && v.heads[s] == HeadOf(st.primary, st.old_, s) &&
                Chain(st.mem, v.heads[s], v.chains[s])
    ensures key in v.m ==> key in v.place && v.place[key] == Route(st.ph, hash(key))
  {
    RouteIsSlot(st.ph, hash(key));
    var s := Route(st.ph, hash(key));
    assert s in v.chains;
    assert v.heads[s] == HeadOf(st.primary, st.old_, s);
    assert Chain(st.mem, v.heads[s], v.chains[s]);
    assert key in v.m ==> v.place[key] == s;
  }

  lemma FindAnswers(hash: Key -> nat, st: State, v: View, key: Key, a: seq<Ptr>, it: Ptr, b: seq<Ptr>)
    requires Shows(hash, st, v)
    requires Lacks(st.mem, a, key) && Route(st.ph, hash(key)) in v.chains
    requires it == NULL ==> v.chains[Route(st.ph, hash(key))] == a
    requires it != NULL ==> v.chains[Route(st.ph, hash(key))] == a + [it] + b && it in st.mem && st.mem[it].key == key
    ensures it == if key in v.m then v.m[key] else NULL
  {
    BucketChain(hash, st, v, key);
    WalkAnswers(st.mem, v.chains, v.m, v.place, Route(st.ph, hash(key)), key, a, it, b);
  }
}
