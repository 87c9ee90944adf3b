/** The chunks of one slab class (src/slabs.c): the freelist with sl_curr and requested, and what the cache does
    with chunks that left it. A chunk is named by its position; the pages of the class are ranges of positions. */
module SlabChunks {
  import opened Basics
  import opened Addresses
  import opened CacheState
  import L = LruQueues

  type Value = seq<char>

  /** slabbed, fetched and linked are ITEM_SLABBED, ITEM_FETCHED and ITEM_LINKED. */
  datatype Chunk = Chunk(slabbed: bool, fetched: bool, linked: bool, refcount: int, size: nat, key: Key, value: Value)

  /** index and lru stand for the hash table and the queues; dying holds chunks whose last reference went away
      and whose slabs_free has not happened yet. */
  datatype Slabs = Slabs(chunks: seq<Chunk>, free: seq<Ptr>, slCurr: int, requested: int, index: map<Key, Ptr>,
      lru: set<Ptr>, dying: set<Ptr>)

  /** ITEM_SLABBED|ITEM_FETCHED: cleared for the move. */
  predicate Cleared(ch: Chunk) { ch.slabbed && ch.fetched }

  function Weight(ch: Chunk): int { if ch.slabbed then 0 else ch.size }

  /** Bytes in chunks that are neither free nor cleared. */
  function Live(cs: seq<Chunk>): int {
    if cs == [] then 0 else Live(cs[..|cs| - 1]) + Weight(cs[|cs| - 1])
  }

  lemma {:induction false} LiveUpdate(cs: seq<Chunk>, c: nat, ch: Chunk)
    requires c < |cs|
    ensures Live(cs[c := ch]) == Live(cs) - Weight(cs[c]) + Weight(ch)
    decreases |cs|
  {
    var n := |cs| - 1;
    if c == n {
      assert cs[c := ch][..n] == cs[..n];
    } else {
      assert cs[c := ch][..n] == cs[..n][c := ch];
      LiveUpdate(cs[..n], c, ch);
    }
  }

  /** What is true of chunk c when held counts the references to each chunk besides its link. */
  ghost predicate ChunkOK(s: Slabs, held: multiset<Ptr>, c: Ptr) {
    c < |s.chunks| &&
    var ch := s.chunks[c];
    && (ch.slabbed ==>
          && !ch.linked && held[c] == 0 && c !in s.dying
          && (ch.fetched <==> c !in s.free) && (ch.fetched ==> ch.refcount == 0))
    && (!ch.slabbed ==> c !in s.free && ch.refcount == Bit(ch.linked) + held[c] && (c in s.dying <==> ch.refcount == 0))
    && (ch.linked <==> c in s.lru) && (ch.linked ==> ch.key in s.index && s.index[ch.key] == c)
  }

  ghost predicate IndexedOK(s: Slabs, k: Key)
    requires k in s.index
  {
    s.index[k] < |s.chunks| && s.chunks[s.index[k]].linked && s.chunks[s.index[k]].key == k
  }

  /** Named by something other than its position in a page. */
  ghost predicate Mentioned(s: Slabs, held: multiset<Ptr>, c: Ptr) {
    c in s.free || c in held || c in s.lru || c in s.dying
  }

  /** The class is consistent; extra is what requested still carries for a move in progress. */
  ghost predicate SlabsOK(s: Slabs, held: multiset<Ptr>, extra: int) {
    && s.slCurr == |s.free| && Distinct(s.free)
    && s.requested == Live(s.chunks) + extra
    && (forall c: Ptr {:trigger ChunkOK(s, held, c)} | c < |s.chunks| || Mentioned(s, held, c) :: ChunkOK(s, held, c))
    && (forall k {:trigger IndexedOK(s, k)} | k in s.index :: IndexedOK(s, k))
  }

  /** s' differs from s at chunk c only. */
  ghost predicate OnlyAt(s: Slabs, s': Slabs, held: multiset<Ptr>, held': multiset<Ptr>, c: Ptr) {
    && c < |s.chunks| == |s'.chunks| && s'.chunks == s.chunks[c := s'.chunks[c]]
    && (forall q :: q != c ==>
          && (q in s'.free <==> q in s.free) && (q in s'.lru <==> q in s.lru)
          && (q in s'.dying <==> q in s.dying) && held'[q] == held[q])
    && (forall k | k in s.index :: s.index[k] != c ==> k in s'.index && s'.index[k] == s.index[k])
    && (forall k | k in s'.index :: s'.index[k] == c || (k in s.index && s.index[k] == s'.index[k]))
  }

  lemma OneChunk(s: Slabs, s': Slabs, held: multiset<Ptr>, held': multiset<Ptr>, c: Ptr, extra: int, extra': int)
    requires SlabsOK(s, held, extra) && OnlyAt(s, s', held, held', c)
    requires s'.slCurr == |s'.free| && Distinct(s'.free) && ChunkOK(s', held', c)
    requires forall k | k in s'.index :: s'.index[k] == c ==> IndexedOK(s', k)
    requires s'.requested - extra' - Weight(s'.chunks[c]) == s.requested - extra - Weight(s.chunks[c])
    ensures SlabsOK(s', held', extra')
  {
    LiveUpdate(s.chunks, c, s'.chunks[c]);
    forall q: Ptr | q < |s'.chunks| || Mentioned(s', held', q) ensures ChunkOK(s', held', q) {
      if q != c { assert Mentioned(s', held', q) ==> Mentioned(s, held, q); assert ChunkOK(s, held, q); }
    }
    forall k | k in s'.index ensures IndexedOK(s', k) {
      if s'.index[k] != c { assert IndexedOK(s, k); }
    }
  }

  lemma NotIndexed(s: Slabs, held: multiset<Ptr>, extra: int, c: Ptr)
    requires SlabsOK(s, held, extra) && c < |s.chunks| && !s.chunks[c].linked
    ensures forall k | k in s.index :: s.index[k] != c
  {
    forall k | k in s.index ensures s.index[k] != c { assert IndexedOK(s, k); }
  }

  /** do_slabs_alloc taking the head of the freelist; the caller writes the item into it. */
  function Alloc(s: Slabs, key: Key, value: Value, size: nat): Slabs
    requires s.free != [] && s.free[0] < |s.chunks|
  {
    var c := s.free[0];
    s.(chunks := s.chunks[c := Chunk(false, s.chunks[c].fetched, s.chunks[c].linked, 1, size, key, value)],
       free := s.free[1..], slCurr := s.slCurr - 1, requested := s.requested + size)
  }

  lemma AllocKeeps(s: Slabs, held: multiset<Ptr>, extra: int, key: Key, value: Value, size: nat)
    requires SlabsOK(s, held, extra) && s.slCurr != 0
    ensures s.free != [] && s.free[0] < |s.chunks| && s.chunks[s.free[0]].slabbed && !s.chunks[s.free[0]].fetched
    ensures SlabsOK(Alloc(s, key, value, size), held + multiset{s.free[0]}, extra)
  {
    var c := s.free[0];
    assert Mentioned(s, held, c);
    assert ChunkOK(s, held, c);
    assert forall q :: q in s.free <==> q == c || q in s.free[1..];
    NotIndexed(s, held, extra, c);
    OneChunk(s, Alloc(s, key, value, size), held, held + multiset{c}, c, extra, extra);
  }

  /** do_slabs_free of an unchunked item. */
  function FreeChunk(s: Slabs, c: Ptr): Slabs
    requires c < |s.chunks|
  {
    s.(chunks := s.chunks[c := s.chunks[c].(slabbed := true, fetched := false, linked := false)],
       free := [c] + s.free, slCurr := s.slCurr + 1, requested := s.requested - s.chunks[c].size,
           dying := s.dying - {c})
  }

  lemma FreeKeeps(s: Slabs, held: multiset<Ptr>, extra: int, c: Ptr)
    requires SlabsOK(s, held, extra) && c < |s.chunks| && !s.chunks[c].slabbed && !s.chunks[c].linked && held[c] <= 1
    requires held[c] == 0 ==> c in s.dying
    ensures SlabsOK(FreeChunk(s, c), held - multiset{c}, extra)
  {
    assert ChunkOK(s, held, c);
    var s' := FreeChunk(s, c);
    assert s'.free[1..] == s.free;
    assert forall q :: q in s'.free <==> q == c || q in s.free;
    NotIndexed(s, held, extra, c);
    OneChunk(s, s', held, held - multiset{c}, c, extra, extra);
  }

  /** A new chunk at the end of the class, put on the freelist by split_slab_page_into_freelist. */
  function Grow(s: Slabs, ch: Chunk): Slabs {
    s.(chunks := s.chunks + [ch.(slabbed := true, fetched := false, linked := false)], free := [|s.chunks|] + s.free,
        slCurr := s.slCurr + 1)
  }

  lemma GrowKeeps(s: Slabs, held: multiset<Ptr>, extra: int, ch: Chunk)
    requires SlabsOK(s, held, extra)
    ensures SlabsOK(Grow(s, ch), held, extra)
  {
    var s', n := Grow(s, ch), |s.chunks|;
    assert !Mentioned(s, held, n) by { assert Mentioned(s, held, n) ==> ChunkOK(s, held, n); }
    assert s'.free[1..] == s.free && s'.chunks[..n] == s.chunks;
    forall q: Ptr | q < |s'.chunks| || Mentioned(s', held, q) ensures ChunkOK(s', held, q) {
      if q != n { assert Mentioned(s', held, q) ==>
          Mentioned(s, held, q); assert ChunkOK(s, held, q); assert s'.chunks[q] == s.chunks[q]; }
    }
    forall k | k in s'.index ensures IndexedOK(s', k) { assert IndexedOK(s, k); }
  }

  /** slab_rebalance_cut_free and the marking that follows it. */
  function CutFree(s: Slabs, c: Ptr): Slabs
    requires c < |s.chunks|
  {
    s.(chunks := s.chunks[c := s.chunks[c].(slabbed := true, fetched := true, refcount := 0)],
       free := L.Without(s.free, c), slCurr := s.slCurr - 1)
  }

  lemma CutKeeps(s: Slabs, held: multiset<Ptr>, extra: int, c: Ptr)
    requires SlabsOK(s, held, extra) && c < |s.chunks| && s.chunks[c].slabbed && !s.chunks[c].fetched
    ensures SlabsOK(CutFree(s, c), held, extra)
  {
    assert ChunkOK(s, held, c);
    WithoutMembers(s.free, c);
    WithoutLength(s.free, c);
    NotIndexed(s, held, extra, c);
    OneChunk(s, CutFree(s, c), held, held, c, extra, extra);
  }

  /** do_item_link, without the reference of whoever links. */
  function Link(s: Slabs, c: Ptr): Slabs
    requires c < |s.chunks|
  {
    var ch := s.chunks[c];
    s.(chunks := s.chunks[c := ch.(linked := true, refcount := ch.refcount + 1)], index := s.index[ch.key := c],
        lru := s.lru + {c})
  }

  lemma LinkKeeps(s: Slabs, held: multiset<Ptr>, extra: int, c: Ptr)
    requires SlabsOK(s, held, extra) && c in held && c < |s.chunks| && !s.chunks[c].linked &&
             s.chunks[c].key !in s.index
    ensures SlabsOK(Link(s, c), held, extra)
  {
    assert ChunkOK(s, held, c);
    NotIndexed(s, held, extra, c);
    OneChunk(s, Link(s, c), held, held, c, extra, extra);
  }

  /** refcount_incr, by a reader that also marks the item fetched. */
  function Take(s: Slabs, c: Ptr, fetch: bool): Slabs
    requires c < |s.chunks|
  {
    s.(chunks := s.chunks[c := s.chunks[c].(refcount := s.chunks[c].refcount + 1, fetched := fetch ||
        s.chunks[c].fetched)])
  }

  lemma TakeKeeps(s: Slabs, held: multiset<Ptr>, extra: int, c: Ptr, fetch: bool)
    requires SlabsOK(s, held, extra) && c < |s.chunks| && s.chunks[c].linked
    ensures SlabsOK(Take(s, c, fetch), held + multiset{c}, extra)
  {
    assert ChunkOK(s, held, c);
    var s' := Take(s, c, fetch);
    forall k | k in s'.index && s'.index[k] == c ensures IndexedOK(s', k) { assert IndexedOK(s, k); }
    OneChunk(s, s', held, held + multiset{c}, c, extra, extra);
  }

  /** do_item_unlink, down to its refcount_decr. */
  function Unlink(s: Slabs, c: Ptr): Slabs
    requires c < |s.chunks|
  {
    var ch := s.chunks[c];
    s.(chunks := s.chunks[c := ch.(linked := false, refcount := ch.refcount - 1)], index := s.index - {ch.key},
        lru := s.lru - {c},
       dying := if ch.refcount == 1 then s.dying + {c} else s.dying)
  }

  lemma UnlinkKeeps(s: Slabs, held: multiset<Ptr>, extra: int, c: Ptr)
    requires SlabsOK(s, held, extra) && c < |s.chunks| && s.chunks[c].linked
    ensures SlabsOK(Unlink(s, c), held, extra)
  {
    assert ChunkOK(s, held, c);
    var s' := Unlink(s, c);
    forall k | k in s.index ensures s.index[k] != c ==> k in s'.index { assert IndexedOK(s, k); }
    forall k | k in s'.index ensures s'.index[k] != c { assert IndexedOK(s, k); }
    OneChunk(s, s', held, held, c, extra, extra);
  }

  /** do_item_remove by a holder. */
  function Release(s: Slabs, c: Ptr): Slabs
    requires c < |s.chunks|
  {
    var ch := s.chunks[c];
    s.(chunks := s.chunks[c := ch.(refcount := ch.refcount - 1)],
        dying := if ch.refcount == 1 then s.dying + {c} else s.dying)
  }

  lemma ReleaseKeeps(s: Slabs, held: multiset<Ptr>, extra: int, c: Ptr)
    requires SlabsOK(s, held, extra) && c in held
    ensures c < |s.chunks| && SlabsOK(Release(s, c), held - multiset{c}, extra)
  {
    assert Mentioned(s, held, c);
    assert ChunkOK(s, held, c);
    var s' := Release(s, c);
    forall k | k in s'.index && s'.index[k] == c ensures IndexedOK(s', k) { assert IndexedOK(s, k); }
    OneChunk(s, s', held, held - multiset{c}, c, extra, extra);
  }

  /** The mover wipes a chunk only it holds; requested is settled later. */
  function Wipe(s: Slabs, c: Ptr): Slabs
    requires c < |s.chunks|
  {
    s.(chunks := s.chunks[c := s.chunks[c].(slabbed := true, fetched := true, linked := false, refcount := 0)])
  }

  lemma WipeKeeps(s: Slabs, held: multiset<Ptr>, extra: int, c: Ptr)
    requires SlabsOK(s, held, extra) && c in held && held[c] == 1 && c < |s.chunks| && !s.chunks[c].linked
    ensures SlabsOK(Wipe(s, c), held - multiset{c}, extra + s.chunks[c].size)
  {
    assert ChunkOK(s, held, c);
    NotIndexed(s, held, extra, c);
    OneChunk(s, Wipe(s, c), held, held - multiset{c}, c, extra, extra + s.chunks[c].size);
  }

  /** memcpy of an item into a chunk that is not linked, keeping the chunk's own count and link. */
  function Fill(s: Slabs, c: Ptr, from: Chunk): Slabs
    requires c < |s.chunks|
  {
    s.(chunks := s.chunks[c := s.chunks[c].(fetched := from.fetched, key := from.key, value := from.value)])
  }

  lemma FillKeeps(s: Slabs, held: multiset<Ptr>, extra: int, c: Ptr, from: Chunk)
    requires SlabsOK(s, held, extra) && c in held && c < |s.chunks| && !s.chunks[c].linked
    ensures SlabsOK(Fill(s, c, from), held, extra)
  {
    assert ChunkOK(s, held, c);
    NotIndexed(s, held, extra, c);
    OneChunk(s, Fill(s, c, from), held, held, c, extra, extra);
  }

  /** An item wherever it lies: its value and size, and whether it was fetched. */
  datatype Content = Content(value: Value, size: nat, fetched: bool)

  function ContentOf(ch: Chunk): Content { Content(ch.value, ch.size, ch.fetched) }

  /** The item a client finds under k. */
  ghost function Lookup(s: Slabs, k: Key): Option<Content> {
    if k in s.index && s.index[k] < |s.chunks| then Some(ContentOf(s.chunks[s.index[k]])) else None
  }
}
