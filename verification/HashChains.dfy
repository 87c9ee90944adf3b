/** Hash chains in memory: h_next links of src/assoc.c as a map from item addresses to (key, h_next). */
module HashChains {
  import opened Basics
  import opened Addresses

  datatype Item = Item(key: Key, hNext: Ptr)

  type Memory = map<Ptr, Item>

  /** Following h_next from head visits exactly s, in order. */
  ghost predicate Chain(mem: Memory, head: Ptr, s: seq<Ptr>)
    decreases s
  {
    if s == [] then head == NULL
    else head == s[0] && head != NULL && head in mem && Chain(mem, mem[head].hNext, s[1..])
  }

  lemma {:induction false} ChainFrame(mem: Memory, mem': Memory, head: Ptr, s: seq<Ptr>)
    requires Chain(mem, head, s)
    requires forall q <- s :: q in mem ==> q in mem' && mem'[q].hNext == mem[q].hNext
    ensures Chain(mem', head, s)
    decreases s
  {
    if s != [] { ChainFrame(mem, mem', mem[head].hNext, s[1..]); }
  }

  lemma {:induction false} ChainIn(mem: Memory, head: Ptr, s: seq<Ptr>)
    requires Chain(mem, head, s)
    ensures forall q <- s :: q in mem
    decreases s
  {
    if s != [] {
      ChainIn(mem, mem[head].hNext, s[1..]);
      assert forall q :: q in s <==> q == s[0] || q in s[1..];
    }
  }

  /** The address found by following the chain up to a prefix a is where the rest b begins. */
  lemma {:induction false} ChainSplit(mem: Memory, head: Ptr, a: seq<Ptr>, b: seq<Ptr>)
    requires Chain(mem, head, a + b)
    ensures a == [] ==> Chain(mem, head, b)
    ensures a != [] ==> a[|a| - 1] in mem && Chain(mem, mem[a[|a| - 1]].hNext, b)
    decreases a
  {
    if a == [] {
      assert a + b == b;
    } else {
      assert (a + b)[1..] == a[1..] + b;
      ChainSplit(mem, mem[head].hNext, a[1..], b);
    }
  }

  lemma ChainCutSecond(mem: Memory, mem': Memory, head: Ptr, y: Ptr, x: Ptr, b: seq<Ptr>)
    requires Chain(mem, head, [y] + [x] + b) && Distinct([y] + [x] + b) && x in mem
    requires forall q <- b :: q in mem' && (q in mem && q != y ==> mem'[q].hNext == mem[q].hNext)
    requires y in mem' && mem'[y].hNext == mem[x].hNext
    ensures Chain(mem', head, [y] + b)
  {
    assert ([y] + [x] + b)[1..] == [x] + b && ([x] + b)[1..] == b && ([y] + b)[1..] == b;
    DistinctSplit([y] + [x], b);
    ChainFrame(mem, mem', mem[x].hNext, b);
  }

  /** Cutting x out after the prefix a by redirecting the last pointer of a. */
  lemma {:induction false} ChainCut(mem: Memory, mem': Memory, head: Ptr, a: seq<Ptr>, x: Ptr, b: seq<Ptr>)
    requires Chain(mem, head, a + [x] + b) && Distinct(a + [x] + b) && x in mem
    requires forall q :: q in a + b ==> q in mem'
    requires forall q :: q in a + b && q in mem && (a == [] || q != a[|a| - 1]) ==> mem'[q].hNext == mem[q].hNext
    requires a != [] ==> mem'[a[|a| - 1]].hNext == mem[x].hNext
    ensures Chain(mem', if a == [] then mem[x].hNext else head, a + b)
    decreases a
  {
    if a == [] {
      assert a + [x] + b == [x] + b && ([x] + b)[1..] == b && a + b == b;
      ChainFrame(mem, mem', mem[x].hNext, b);
    } else if |a| == 1 {
      assert a == [a[0]];
      assert forall q <- b :: q in a + b;
      assert a[0] in a + b;
      ChainCutSecond(mem, mem', head, a[0], x, b);
    } else {
      var s := a + [x] + b;
      assert s[1..] == a[1..] + [x] + b && (a + b)[1..] == a[1..] + b;
      assert forall q :: q in a[1..] + b ==> q in a + b;
      assert a[1..][|a[1..]| - 1] == a[|a| - 1];
      assert a[0] != a[|a| - 1] by {
        assert a[|a| - 1] in s[1..] by { assert s[1..][|a| - 2] == a[|a| - 1]; }
      }
      ChainCut(mem, mem', mem[head].hNext, a[1..], x, b);
    }
  }

  // ---------- many chains, one map ----------

  /** A chain belongs to a bucket of the old or of the primary table. */
  datatype Slot = Old(b: nat) | New(b: nat)

  /** Every chain is threaded through memory and visits no item twice. */
  ghost predicate Threaded(mem: Memory, heads: map<Slot, Ptr>, chains: map<Slot, seq<Ptr>>) {
    && heads.Keys == chains.Keys
    && (forall s {:trigger Chain(mem, heads[s], chains[s])} | s in chains :: Chain(mem, heads[s], chains[s]))
    && (forall s {:trigger Distinct(chains[s])} | s in chains :: Distinct(chains[s]))
  }

  /** An item on a chain is the map's item for its key, and that chain is the one `place` names. */
  ghost predicate Filed(mem: Memory, chains: map<Slot, seq<Ptr>>, m: map<Key, Ptr>, place: map<Key, Slot>) {
    forall s, p {:trigger p in chains[s]} | s in chains && p in chains[s] ::
      p in mem && mem[p].key in m && m[mem[p].key] == p && mem[p].key in place && place[mem[p].key] == s
  }

  ghost predicate Listed(mem: Memory, m: map<Key, Ptr>, p: Ptr) {
    p in mem && mem[p].key in m && m[mem[p].key] == p
  }

  /** The map's item for a key carries the key and is on the chain `place` names. */
  ghost predicate Indexed(mem: Memory, chains: map<Slot, seq<Ptr>>, m: map<Key, Ptr>, place: map<Key, Slot>) {
    && place.Keys == m.Keys
    && (forall k {:trigger m[k]} | k in m ::
          m[k] in mem && mem[m[k]].key == k && place[k] in chains && m[k] in chains[place[k]])
    && (forall p {:trigger Listed(mem, m, p)} | p in mem :: Listed(mem, m, p))
  }

  /** All chains together hold exactly the items of the map m, each item on exactly one chain. */
  ghost predicate Placed(mem: Memory, heads: map<Slot, Ptr>, chains: map<Slot, seq<Ptr>>, m: map<Key, Ptr>,
      place: map<Key, Slot>) {
    NULL !in mem && Threaded(mem, heads, chains) && Filed(mem, chains, m, place) && Indexed(mem, chains, m, place)
  }

  /** Putting an unlinked item p at the front of the chain s. */
  lemma PushFront(mem: Memory, heads: map<Slot, Ptr>, chains: map<Slot, seq<Ptr>>, m: map<Key, Ptr>,
      place: map<Key, Slot>, s: Slot, p: Ptr, key: Key)
    requires Placed(mem, heads, chains, m, place) && s in chains && p != NULL && p !in mem && key !in m
    ensures Placed(mem[p := Item(key, heads[s])], heads[s := p], chains[s := [p] + chains[s]], m[key := p],
            place[key := s])
  {
    var mem' := mem[p := Item(key, heads[s])];
    assert forall s' :: s' in chains ==> p !in chains[s'];
    PushThreads(mem, heads, chains, s, p, key);
    PushFiled(mem, mem', chains, m, place, s, p, key);
    PushIndexed(mem, mem', chains, m, place, s, p, key);
  }

  lemma PushFiled(mem: Memory, mem': Memory, chains: map<Slot, seq<Ptr>>, m: map<Key, Ptr>, place: map<Key, Slot>,
      s: Slot, p: Ptr, key: Key)
    requires Filed(mem, chains, m, place) && s in chains && p !in mem && key !in m && mem'.Keys == mem.Keys + {p}
    requires mem'[p].key == key && forall q | q in mem :: mem'[q].key == mem[q].key
    ensures Filed(mem', chains[s := [p] + chains[s]], m[key := p], place[key := s])
  {
    var chains', m', place' := chains[s := [p] + chains[s]], m[key := p], place[key := s];
    forall s', q | s' in chains' && q in chains'[s']
      ensures q in mem' && mem'[q].key in m' && m'[mem'[q].key] == q && mem'[q].key in place' &&
              place'[mem'[q].key] == s'
    {
      if q != p || s' != s { assert q in chains[s']; }
    }
  }

  lemma PushIndexed(mem: Memory, mem': Memory, chains: map<Slot, seq<Ptr>>, m: map<Key, Ptr>, place: map<Key, Slot>,
      s: Slot, p: Ptr, key: Key)
    requires Indexed(mem, chains, m, place) && s in chains && p !in mem && key !in m && mem'.Keys == mem.Keys + {p}
    requires mem'[p].key == key && forall q | q in mem :: mem'[q].key == mem[q].key
    ensures Indexed(mem', chains[s := [p] + chains[s]], m[key := p], place[key := s])
  {
    var chains', m', place' := chains[s := [p] + chains[s]], m[key := p], place[key := s];
    forall k | k in m' ensures m'[k] in mem' && mem'[m'[k]].key == k && place'[k] in chains' &&
        m'[k] in chains'[place'[k]] {
      if k != key { assert m[k] in chains[place[k]]; }
    }
    forall q | q in mem' ensures Listed(mem', m', q) {
      if q != p { assert Listed(mem, m, q); }
    }
  }

  lemma PushThreads(mem: Memory, heads: map<Slot, Ptr>, chains: map<Slot, seq<Ptr>>, s: Slot, p: Ptr, key: Key)
    requires Threaded(mem, heads, chains) && s in chains && p != NULL &&
             (forall s' :: s' in chains ==> p !in chains[s'])
    ensures Threaded(mem[p := Item(key, heads[s])], heads[s := p], chains[s := [p] + chains[s]])
  {
    var mem', chains' := mem[p := Item(key, heads[s])], chains[s := [p] + chains[s]];
    assert ([p] + chains[s])[1..] == chains[s];
    forall s' | s' in chains' ensures Chain(mem', heads[s := p][s'], chains'[s']) && Distinct(chains'[s']) {
      assert Chain(mem, heads[s'], chains[s']);
      ChainFrame(mem, mem', heads[s'], chains[s']);
    }
  }

  /** Memory after x was cut out behind the prefix a. */
  function CutMemory(mem: Memory, a: seq<Ptr>, x: Ptr): Memory
    requires x in mem
  {
    if a == [] || a[|a| - 1] !in mem then mem - {x}
    else mem[a[|a| - 1] := mem[a[|a| - 1]].(hNext := mem[x].hNext)] - {x}
  }

  lemma CutMemoryKeys(mem: Memory, a: seq<Ptr>, x: Ptr)
    requires x in mem
    ensures var mem' := CutMemory(mem, a, x);
            mem'.Keys == mem.Keys - {x} && forall q | q in mem' :: mem'[q].key == mem[q].key
  {}

  /** Cutting x, found after the prefix a, out of the chain s. */
  lemma CutOut(mem: Memory, heads: map<Slot, Ptr>, chains: map<Slot, seq<Ptr>>, m: map<Key, Ptr>, place: map<Key, Slot>,
               s: Slot, a: seq<Ptr>, x: Ptr, b: seq<Ptr>)
    requires Placed(mem, heads, chains, m, place) && s in chains && chains[s] == a + [x] + b && x in mem
    ensures var k := mem[x].key;
            Placed(CutMemory(mem, a, x), if a == [] then heads[s := mem[x].hNext] else heads, chains[s := a + b],
                m - {k}, place - {k})
  {
    assert x !in a + b by {
      assert Distinct(chains[s]);
      CutDistinct(a, x, b);
    }
    CutMemoryKeys(mem, a, x);
    CutThreads(mem, heads, chains, m, place, s, a, x, b);
    CutFiled(mem, CutMemory(mem, a, x), chains, m, place, s, a, x, b);
    CutIndexed(mem, CutMemory(mem, a, x), chains, m, place, s, a, x, b);
  }

  lemma CutFiled(mem: Memory, mem': Memory, chains: map<Slot, seq<Ptr>>, m: map<Key, Ptr>, place: map<Key, Slot>,
                 s: Slot, a: seq<Ptr>, x: Ptr, b: seq<Ptr>)
    requires Filed(mem, chains, m, place) && s in chains && chains[s] == a + [x] + b && x in mem && x !in a + b
    requires mem'.Keys == mem.Keys - {x} && forall q | q in mem' :: mem'[q].key == mem[q].key
    ensures Filed(mem', chains[s := a + b], m - {mem[x].key}, place - {mem[x].key})
  {
    var k, chains' := mem[x].key, chains[s := a + b];
    assert x in chains[s] && forall q :: q in a + b ==> q in chains[s];
    forall s', q | s' in chains' && q in chains'[s']
      ensures q in mem' && mem'[q].key in m - {k} && m[mem'[q].key] == q && mem'[q].key in place &&
              place[mem'[q].key] == s'
    {
      assert q in chains[s'];
    }
  }

  lemma CutIndexed(mem: Memory, mem': Memory, chains: map<Slot, seq<Ptr>>, m: map<Key, Ptr>, place: map<Key, Slot>,
                   s: Slot, a: seq<Ptr>, x: Ptr, b: seq<Ptr>)
    requires Indexed(mem, chains, m, place) && s in chains && chains[s] == a + [x] + b && x in mem
    requires mem'.Keys == mem.Keys - {x} && forall q | q in mem' :: mem'[q].key == mem[q].key
    ensures Indexed(mem', chains[s := a + b], m - {mem[x].key}, place - {mem[x].key})
  {
    var k, chains' := mem[x].key, chains[s := a + b];
    assert forall q :: q in chains[s] && q != x ==> q in a + b;
    forall k' | k' in m - {k} ensures m[k'] in mem' && mem'[m[k']].key == k' && place[k'] in chains' &&
        m[k'] in chains'[place[k']] {
      assert m[k'] in chains[place[k']] && m[k'] in mem;
    }
    forall p | p in mem' ensures Listed(mem', m - {k}, p) {
      assert Listed(mem, m, p) && Listed(mem, m, x);
    }
  }

  lemma CutThreads(mem: Memory, heads: map<Slot, Ptr>, chains: map<Slot, seq<Ptr>>, m: map<Key, Ptr>,
      place: map<Key, Slot>, s: Slot, a: seq<Ptr>, x: Ptr, b: seq<Ptr>)
    requires Threaded(mem, heads, chains) && Filed(mem, chains, m, place) && s in chains && chains[s] == a + [x] + b &&
             x in mem
    ensures Threaded(CutMemory(mem, a, x), if a == [] then heads[s := mem[x].hNext] else heads, chains[s := a + b])
  {
    var mem', chains', heads' := CutMemory(mem, a, x), chains[s := a + b],
        if a == [] then heads[s := mem[x].hNext] else heads;
    assert Chain(mem, heads[s], chains[s]) && Distinct(chains[s]);
    CutDistinct(a, x, b);
    ChainIn(mem, heads[s], chains[s]);
    assert forall q :: q in a + b || q == x ==> q in chains[s];
    assert a != [] ==> a[|a| - 1] in a + b;
    ChainCut(mem, mem', heads[s], a, x, b);
    forall s' | s' in chains' ensures Chain(mem', heads'[s'], chains'[s']) && Distinct(chains'[s']) {
      if s' != s {
        assert Chain(mem, heads[s'], chains[s']);
        forall q <- chains[s'] ensures q !in chains[s] {}
        ChainFrame(mem, mem', heads[s'], chains[s']);
      }
    }
  }

  /** The first item of one chain becomes the first item of another. */
  lemma MoveFront(mem: Memory, heads: map<Slot, Ptr>, chains: map<Slot, seq<Ptr>>, m: map<Key, Ptr>,
      place: map<Key, Slot>, s: Slot, s': Slot)
    requires Placed(mem, heads, chains, m, place) && s in chains && s' in chains && s != s' && chains[s] != []
    ensures var x := heads[s];
            && x in mem && mem[x].key in m && place[mem[x].key] == s && x == chains[s][0]
            && Placed(mem[x := mem[x].(hNext := heads[s'])], heads[s := mem[x].hNext][s' := x],
                      chains[s := chains[s][1..]][s' := [x] + chains[s']], m, place[mem[x].key := s'])
  {
    var x, b := heads[s], chains[s][1..];
    assert Chain(mem, heads[s], chains[s]);
    assert x in chains[s];
    assert chains[s] == [] + [x] + b && [] + b == b;
    var k := mem[x].key;
    CutOut(mem, heads, chains, m, place, s, [], x, b);
    PushFront(mem - {x}, heads[s := mem[x].hNext], chains[s := b], m - {k}, place - {k}, s', x, k);
    assert (mem - {x})[x := Item(k, heads[s'])] == mem[x := mem[x].(hNext := heads[s'])];
    assert (m - {k})[k := x] == m;
    assert (place - {k})[k := s'] == place[k := s'];
  }

  lemma CutDistinct(a: seq<Ptr>, x: Ptr, b: seq<Ptr>)
    requires Distinct(a + [x] + b)
    ensures Distinct(a + b) && x !in a + b
  {
    DistinctSplit(a + [x], b);
    DistinctSplit(a, [x]);
    DistinctSplit(a, b);
    assert x in [x];
  }

  // ---------- searching ----------

  /** No item of s carries the key. */
  ghost predicate Lacks(mem: Memory, s: seq<Ptr>, key: Key) {
    s != [] ==> s[0] in mem && mem[s[0]].key != key && Lacks(mem, s[1..], key)
  }

  lemma {:induction false} LacksAppend(mem: Memory, s: seq<Ptr>, p: Ptr, key: Key)
    requires Lacks(mem, s, key) && p in mem && mem[p].key != key
    ensures Lacks(mem, s + [p], key)
    decreases s
  {
    if s != [] {
      assert (s + [p])[1..] == s[1..] + [p];
      LacksAppend(mem, s[1..], p, key);
    } else {
      assert (s + [p])[1..] == [];
    }
  }

  lemma {:induction false} LacksAll(mem: Memory, s: seq<Ptr>, key: Key)
    requires Lacks(mem, s, key)
    ensures forall q <- s :: q in mem && mem[q].key != key
    decreases s
  {
    if s != [] {
      LacksAll(mem, s[1..], key);
      assert forall q <- s :: q == s[0] || q in s[1..];
    }
  }

  /** A walk down the right chain finds the map's answer. */
  lemma WalkAnswers(mem: Memory, chains: map<Slot, seq<Ptr>>, m: map<Key, Ptr>, place: map<Key, Slot>,
                    s: Slot, key: Key, a: seq<Ptr>, it: Ptr, b: seq<Ptr>)
    requires Filed(mem, chains, m, place) && Indexed(mem, chains, m, place) && s in chains &&
             (key in m ==> place[key] == s)
    requires Lacks(mem, a, key) && (it == NULL ==> chains[s] == a)
    requires it != NULL ==> chains[s] == a + [it] + b && it in mem && mem[it].key == key
    ensures it != NULL ==> key in m && m[key] == it
    ensures it == NULL ==> key !in m
  {
    LacksAll(mem, a, key);
    assert key in m ==> m[key] in chains[place[key]];
    assert it != NULL ==> it in chains[s];
  }
}
