/** How the operations of src/shadows.c change the memory of the shadow tree, as values: what one write
    sequence does to the tree that the pointers form. */
module ShadowEdits {
  import opened Addresses
  import opened ShadowShapes

  /** Nodes keep their stamps and weights; links and heights may differ. */
  ghost predicate SameNodes(mem: Memory, mem': Memory) {
    mem'.Keys == mem.Keys && forall q <- mem :: mem'[q].stamp == mem[q].stamp && mem'[q].weight == mem[q].weight
  }

  /** z is gone and the others carry the same stamps and weights. */
  ghost predicate OthersSame(mem: Memory, mem': Memory, z: Ptr) {
    && mem'.Keys == mem.Keys - {z}
    && forall q <- mem' :: mem'[q].stamp == mem[q].stamp && mem'[q].weight == mem[q].weight
  }

  /** What a focus (c, t) on the tree tells about memory. */
  lemma Focus(mem: Memory, root: Ptr, c: Ctx, t: Shape)
    requires IsTree(mem, root, Plug(c, t))
    ensures RepCtx(mem, c, Root(t)) && Rep(mem, t, Up(c))
    ensures Flat(Plug(c, t)) == Before(c) + Flat(t) + After(c) && Distinct(Before(c) + Flat(t) + After(c))
    ensures NULL !in Flat(t) && (forall q <- Flat(t) :: q in mem)
    ensures c.Top? ==> root == Root(t)
    ensures !c.Top? ==> root != Root(t) || t.Leaf?
  {
    PlugRep(mem, c, t);
    PlugFlat(c, t);
    ElemsIn(Flat(Plug(c, t)));
    assert forall q <- Flat(t) :: q in Flat(Plug(c, t));
    if !c.Top? && t.Branch? {
      TopDiffers(c, t);
      ApartCtx(c, t);
      Heads(c, t);
    }
  }

  lemma {:induction false} TopDiffers(c: Ctx, t: Shape)
    requires !c.Top?
    ensures Root(Plug(c, t)) in Before(c) || Root(Plug(c, t)) in After(c)
    decreases c
  {
    match c
    case InLeft(p, r, up) =>
      if up.Top? { assert Plug(c, t) == Branch(t, p, r); } else { TopDiffers(up, Branch(t, p, r)); }
    case InRight(l, p, up) =>
      if up.Top? { assert Plug(c, t) == Branch(l, p, t); } else { TopDiffers(up, Branch(l, p, t)); }
  }

  /** Put the rebuilt subtree back in its place. */
  lemma Refocus(mem: Memory, root: Ptr, c: Ctx, t: Shape, mem': Memory, root': Ptr, t': Shape)
    requires IsTree(mem, root, Plug(c, t)) && SameNodes(mem, mem') && Flat(t') == Flat(t)
    requires RepCtx(mem', c, Root(t')) && Rep(mem', t', Up(c)) && root' == Root(Plug(c, t'))
    ensures IsTree(mem', root', Plug(c, t'))
  {
    PlugRep(mem', c, t');
    PlugFlat(c, t');
    PlugFlat(c, t);
    Rearranged(mem, mem', root, Plug(c, t), root', Plug(c, t'));
  }

  lemma {:induction false} PlugRoot(c: Ctx, t: Shape, t': Shape)
    ensures Root(Plug(c, t')) == if c.Top? then Root(t') else Root(Plug(c, t))
    decreases c
  {
    match c
    case Top =>
    case InLeft(p, r, up) => PlugRoot(up, Branch(t, p, r), Branch(t', p, r));
    case InRight(l, p, up) => PlugRoot(up, Branch(l, p, t), Branch(l, p, t'));
  }

  lemma LeftPointers(mem: Memory, root: Ptr, c: Ctx, t: Shape)
    requires IsTree(mem, root, Plug(c, t)) && t.Branch? && t.r.Branch?
    ensures LeftRotatable(mem, t.p) && mem[t.p].right == t.r.p && mem[t.p].parent == Up(c)
  {
    Focus(mem, root, c, t);
    LeftRotationApart(c, t);
    Heads(c, t.r.l);
  }

  /** What left_rotate does to the tree: same nodes, same order, weights untouched. */
  lemma LeftRotation(mem: Memory, root: Ptr, c: Ctx, t: Shape)
    requires IsTree(mem, root, Plug(c, t)) && t.Branch? && t.r.Branch?
    ensures LeftRotatable(mem, t.p) && mem[t.p].right == t.r.p
    ensures var mem' := LeftRotated(mem, t.p);
            SameNodes(mem, mem') && IsTree(mem', if mem[t.p].parent == NULL then t.r.p else root, Plug(c, RotL(t)))
  {
    Focus(mem, root, c, t);
    LeftPointers(mem, root, c, t);
    var mem' := LeftRotated(mem, t.p);
    LeftRotatedLinks(mem, t.p);
    LeftRotatedRep(mem, mem', c, t);
    RotationKeepsOrder(t);
    PlugRoot(c, t, RotL(t));
    Refocus(mem, root, c, t, mem', if c.Top? then t.r.p else root, RotL(t));
  }

  lemma RightPointers(mem: Memory, root: Ptr, c: Ctx, t: Shape)
    requires IsTree(mem, root, Plug(c, t)) && t.Branch? && t.l.Branch?
    ensures RightRotatable(mem, t.p) && mem[t.p].left == t.l.p && mem[t.p].parent == Up(c)
  {
    Focus(mem, root, c, t);
    RightRotationApart(c, t);
    Heads(c, t.l.r);
  }

  /** What right_rotate does to the tree: same nodes, same order, weights untouched. */
  lemma RightRotation(mem: Memory, root: Ptr, c: Ctx, t: Shape)
    requires IsTree(mem, root, Plug(c, t)) && t.Branch? && t.l.Branch?
    ensures RightRotatable(mem, t.p) && mem[t.p].left == t.l.p
    ensures var mem' := RightRotated(mem, t.p);
            SameNodes(mem, mem') && IsTree(mem', if mem[t.p].parent == NULL then t.l.p else root, Plug(c, RotR(t)))
  {
    Focus(mem, root, c, t);
    RightPointers(mem, root, c, t);
    var mem' := RightRotated(mem, t.p);
    RightRotatedLinks(mem, t.p);
    RightRotatedRep(mem, mem', c, t);
    RotationKeepsOrder(t);
    PlugRoot(c, t, RotR(t));
    Refocus(mem, root, c, t, mem', if c.Top? then t.l.p else root, RotR(t));
  }

  /** Memory differs in weight and height fields at most. */
  ghost predicate SameShape(mem: Memory, mem': Memory) {
    && mem'.Keys == mem.Keys
    && forall q <- mem :: mem'[q].stamp == mem[q].stamp && SameLinks(mem[q], mem'[q])
  }

  lemma SameShapeIsTree(mem: Memory, mem': Memory, root: Ptr, t: Shape)
    requires IsTree(mem, root, t) && SameShape(mem, mem')
    ensures IsTree(mem', root, t)
  {
    RepFrame(mem, mem', t, NULL);
    Rearranged(mem, mem', root, t, root, t);
  }

  /** The new stamp was compared with every node on the path, and went left or right accordingly. */
  ghost predicate Fits(mem: Memory, c: Ctx, stamp: Stamp) {
    match c
    case Top => true
    case InLeft(p, _, up) => p in mem && Less(stamp, mem[p].stamp) && Fits(mem, up, stamp)
    case InRight(_, p, up) => p in mem && Less(mem[p].stamp, stamp) && Fits(mem, up, stamp)
  }

  lemma IncreasingUp(mem: Memory, c: Ctx)
    requires !c.Top? && Increasing(mem, Before(c) + After(c))
    ensures Increasing(mem, Before(c.up) + After(c.up))
    ensures c.InLeft? ==> Below(mem, [c.p], Flat(c.r))
    ensures c.InRight? ==> Below(mem, Flat(c.l), [c.p])
  {
    var up, p := c.up, c.p;
    IncreasingSplit(mem, Before(c), After(c));
    if c.InLeft? {
      IncreasingSplit(mem, [p] + Flat(c.r), After(up));
      IncreasingSplit(mem, [p], Flat(c.r));
      assert forall q <- After(up) :: q in After(c);
    } else {
      IncreasingSplit(mem, Before(up) + Flat(c.l), [p]);
      IncreasingSplit(mem, Before(up), Flat(c.l));
      assert forall q <- Before(up) :: q in Before(c);
    }
    IncreasingSplit(mem, Before(up), After(up));
  }

  /** Comparing along the path places the stamp against the whole tree. */
  lemma {:induction false} FitsAll(mem: Memory, c: Ctx, stamp: Stamp)
    requires Fits(mem, c, stamp) && Increasing(mem, Before(c) + After(c))
    ensures forall q <- Before(c) :: q in mem ==> Less(mem[q].stamp, stamp)
    ensures forall q <- After(c) :: q in mem ==> Less(stamp, mem[q].stamp)
    decreases c
  {
    if !c.Top? {
      IncreasingUp(mem, c);
      FitsAll(mem, c.up, stamp);
      assert c.p in [c.p];
    }
  }

  /** Memory after adding d to the weight of every node whose right subtree holds the hole. */
  ghost function Bumped(mem: Memory, c: Ctx, d: int): Memory {
    match c
    case Top => mem
    case InLeft(_, _, up) => Bumped(mem, up, d)
    case InRight(_, p, up) =>
      var m := Bumped(mem, up, d);
      if p in m then m[p := m[p].(weight := m[p].weight + d)] else m
  }

  lemma {:induction false} BumpedShape(mem: Memory, c: Ctx, d: int)
    ensures SameShape(mem, Bumped(mem, c, d))
    ensures forall q <- mem :: q !in Before(c) ==> Bumped(mem, c, d)[q] == mem[q]
    decreases c
  {
    match c
    case Top =>
    case InLeft(p, r, up) => BumpedShape(mem, up, d);
    case InRight(l, p, up) =>
      BumpedShape(mem, up, d);
      assert forall q :: q in Before(up) || q == p ==> q in Before(c);
  }

  /** If the hole grows (or shrinks) by d nodes, the bumped weights are the right ones. */
  lemma {:induction false} BumpedWeights(mem: Memory, c: Ctx, d: int, n: int)
    requires WeightsCtx(mem, c, n) && Distinct(Before(c) + After(c))
    ensures WeightsCtx(Bumped(mem, c, d), c, n + d)
    decreases c
  {
    match c
    case Top =>
    case InLeft(p, r, up) =>
      ApartUp(c);
      BumpedWeights(mem, up, d, n + 1 + Size(r));
      BumpedLeft(mem, p, r, up, d, n);
    case InRight(l, p, up) =>
      ApartUp(c);
      BumpedWeights(mem, up, d, n + 1 + Size(l));
      BumpedRight(mem, l, p, up, d, n);
  }

  lemma BumpedLeft(mem: Memory, p: Ptr, r: Shape, up: Ctx, d: int, n: int)
    requires p in mem && mem[p].weight == Size(r) && Weights(mem, r)
    requires WeightsCtx(Bumped(mem, up, d), up, n + d + 1 + Size(r))
    requires p !in Before(up) && forall q <- Flat(r) :: q !in Before(up)
    ensures WeightsCtx(Bumped(mem, InLeft(p, r, up), d), InLeft(p, r, up), n + d)
  {
    BumpedShape(mem, up, d);
    WeightsFrame(mem, Bumped(mem, up, d), r);
  }

  lemma BumpedRight(mem: Memory, l: Shape, p: Ptr, up: Ctx, d: int, n: int)
    requires p in mem && mem[p].weight == n && Weights(mem, l)
    requires WeightsCtx(Bumped(mem, up, d), up, n + d + 1 + Size(l))
    requires p !in Before(up) && p !in After(up) && p !in Flat(l) && forall q <- Flat(l) :: q !in Before(up)
    ensures WeightsCtx(Bumped(mem, InRight(l, p, up), d), InRight(l, p, up), n + d)
  {
    var m0 := Bumped(mem, up, d);
    BumpedShape(mem, up, d);
    WeightsFrame(mem, m0, l);
    WeightsElsewhere(m0, p, m0[p].(weight := n + d), up, l, n + d + 1 + Size(l));
  }

  lemma WeightsElsewhere(mem: Memory, p: Ptr, node: Node, c: Ctx, t: Shape, n: int)
    requires p !in Flat(t) && Weights(mem, t) && p !in Before(c) && p !in After(c) && WeightsCtx(mem, c, n)
    ensures Weights(mem[p := node], t) && WeightsCtx(mem[p := node], c, n)
  {
    WeightsFrame(mem, mem[p := node], t);
    WeightsCtxFrame(mem, mem[p := node], c, n);
  }

  /** insert_tree_node's attachment of the new leaf n at the hole of c. */
  ghost function Attached(mem: Memory, c: Ctx, n: Ptr, stamp: Stamp): Memory {
    var m := mem[n := Node(stamp, Up(c), NULL, NULL, 0, 1)];
    if c.Top? || c.p !in m then m
    else if c.InLeft? then m[c.p := m[c.p].(left := n)]
    else m[c.p := m[c.p].(right := n)]
  }

  lemma AttachedData(mem: Memory, c: Ctx, n: Ptr, stamp: Stamp)
    requires n !in mem && (!c.Top? ==> c.p in mem)
    ensures var m := Attached(mem, c, n, stamp);
            && m.Keys == mem.Keys + {n} && m[n] == Node(stamp, Up(c), NULL, NULL, 0, 1)
            && (forall q <- mem :: m[q].stamp == mem[q].stamp && m[q].weight == mem[q].weight)
            && (forall q <- mem :: q != Up(c) ==> m[q] == mem[q])
            && (c.InLeft? ==> m[c.p] == mem[c.p].(left := n)) && (c.InRight? ==> m[c.p] == mem[c.p].(right := n))
  {}

  lemma AttachedRep(mem: Memory, root: Ptr, c: Ctx, n: Ptr, stamp: Stamp)
    requires IsTree(mem, root, Plug(c, Leaf)) && n != NULL && n !in mem
    ensures Rep(Attached(mem, c, n, stamp), Plug(c, Branch(Leaf, n, Leaf)), NULL)
    ensures !c.Top? ==> c.p in mem
  {
    var m := Attached(mem, c, n, stamp);
    assert RepCtx(mem, c, NULL) && Distinct(Before(c) + After(c)) by {
      Focus(mem, root, c, Leaf);
      assert Before(c) + [] + After(c) == Before(c) + After(c);
    }
    AttachedData(mem, c, n, stamp);
    RetargetCtx(mem, m, c, NULL, n);
    PlugRep(m, c, Branch(Leaf, n, Leaf));
  }

  /** The new node goes between everything older and everything newer. */
  lemma AttachedIsTree(mem: Memory, root: Ptr, c: Ctx, n: Ptr, stamp: Stamp)
    requires IsTree(mem, root, Plug(c, Leaf)) && n != NULL && n !in mem && Fits(mem, c, stamp)
    ensures IsTree(Attached(mem, c, n, stamp), if c.Top? then n else root, Plug(c, Branch(Leaf, n, Leaf)))
  {
    var m, t := Attached(mem, c, n, stamp), Branch(Leaf, n, Leaf);
    AttachedRep(mem, root, c, n, stamp);
    AttachedData(mem, c, n, stamp);
    PlugRoot(c, Leaf, t);
    AttachedFlat(c, n);
    AttachedOrder(mem, m, c, n);
  }

  lemma AttachedFlat(c: Ctx, n: Ptr)
    ensures Flat(Plug(c, Leaf)) == Before(c) + After(c)
    ensures Flat(Plug(c, Branch(Leaf, n, Leaf))) == Before(c) + [n] + After(c)
  {
    PlugFlat(c, Branch(Leaf, n, Leaf));
    PlugFlat(c, Leaf);
    assert Before(c) + [] + After(c) == Before(c) + After(c) && Flat(Branch(Leaf, n, Leaf)) == [n];
  }

  lemma AttachedOrder(mem: Memory, m: Memory, c: Ctx, n: Ptr)
    requires n !in mem && m.Keys == mem.Keys + {n} && (forall q <- mem :: m[q].stamp == mem[q].stamp) &&
             Fits(mem, c, m[n].stamp)
    requires var s := Before(c) + After(c); Elems(s) == mem.Keys && Distinct(s) && Increasing(mem, s)
    ensures var s := Before(c) + [n] + After(c); Elems(s) == m.Keys && Distinct(s) && Increasing(m, s)
  {
    var a, b := Before(c), After(c);
    ElemsIn(a + b);
    ElemsIn(a + [n] + b);
    FitsAll(mem, c, m[n].stamp);
    SameStamps(mem, m, a + b);
    SortedAround(m, a, n, b);
  }

  lemma SortedAround(mem: Memory, a: seq<Ptr>, n: Ptr, b: seq<Ptr>)
    requires n in mem && n !in a && n !in b && Distinct(a + b) && Increasing(mem, a + b)
    requires forall q <- a :: q in mem ==> Less(mem[q].stamp, mem[n].stamp)
    requires forall q <- b :: q in mem ==> Less(mem[n].stamp, mem[q].stamp)
    ensures Distinct(a + [n] + b) && Increasing(mem, a + [n] + b)
  {
    assert Distinct(a + [n] + b) by {
      DistinctSplit(a, b);
      DistinctSplit(a, [n]);
      DistinctSplit(a + [n], b);
    }
    assert Increasing(mem, [n]) by { assert [n][1..] == []; }
    assert Increasing(mem, a + [n] + b) by {
      IncreasingSplit(mem, a, b);
      IncreasingSplit(mem, a, [n]);
      IncreasingSplit(mem, a + [n], b);
    }
  }

  /** The subtree one step up from the focus. */
  function Above(c: Ctx, t: Shape): Shape
    requires !c.Top?
  {
    if c.InLeft? then Branch(t, c.p, c.r) else Branch(c.l, c.p, t)
  }

  lemma Climb(mem: Memory, root: Ptr, c: Ctx, t: Shape)
    requires IsTree(mem, root, Plug(c, t)) && t.Branch? && (Up(c) != NULL || !c.Top?)
    ensures !c.Top? && Plug(c.up, Above(c, t)) == Plug(c, t)
    ensures c.p in mem && t.p in mem && mem[t.p].parent == c.p && mem[c.p].parent == Up(c.up)
    ensures (mem[c.p].left == t.p <==> c.InLeft?) && (mem[c.p].right == t.p <==> c.InRight?)
    ensures (Up(c.up) == NULL <==> c.up.Top?) && (Up(c.up) != NULL ==> Up(c.up) in mem)
  {
    OnlyChild(mem, root, c, t);
    OnlyChild(mem, root, c.up, Above(c, t));
  }

  lemma WeightsTransfer(mem: Memory, mem': Memory, t: Shape)
    requires SameNodes(mem, mem')
    ensures Weights(mem', t) <==> Weights(mem, t)
  {
    if Weights(mem, t) { WeightsFrame(mem, mem', t); }
    if Weights(mem', t) { WeightsFrame(mem', mem, t); }
  }

  /** One of the four rotation cases was applied below c. */
  ghost predicate Rotation(g: Shape, g': Shape) {
    || (g.Branch? && g.l.Branch? && g' == RotR(g))
    || (g.Branch? && g.r.Branch? && g' == RotL(g))
    || (g.Branch? && g.l.Branch? && g.l.r.Branch? && g' == RotR(g.(l := RotL(g.l))))
    || (g.Branch? && g.r.Branch? && g.r.l.Branch? && g' == RotL(g.(r := RotR(g.r))))
  }

  /** Each case keeps the order and never keeps the weights right. */
  lemma Rebuilt(mem: Memory, mem': Memory, c: Ctx, g: Shape, g': Shape)
    requires SameNodes(mem, mem') && Rotation(g, g')
    ensures Flat(Plug(c, g')) == Flat(Plug(c, g))
    ensures Weights(mem, Plug(c, g)) ==> !Weights(mem', Plug(c, g'))
  {
    PlugFlat(c, g);
    PlugFlat(c, g');
    RotationFlat(g, g');
    PlugWeights(mem, c, g);
    PlugWeights(mem', c, g');
    if Weights(mem, Plug(c, g)) {
      WeightsTransfer(mem, mem', g);
      RotationsBreakWeights(mem', g);
    }
  }

  lemma RotationFlat(g: Shape, g': Shape)
    requires Rotation(g, g')
    ensures Flat(g') == Flat(g)
  {
    RotationKeepsOrder(g);
    if g.l.Branch? && g.l.r.Branch? {
      RotationKeepsOrder(g.l);
      RotationKeepsOrder(g.(l := RotL(g.l)));
    }
    if g.r.Branch? && g.r.l.Branch? {
      RotationKeepsOrder(g.r);
      RotationKeepsOrder(g.(r := RotR(g.r)));
    }
  }

  /** s' is s with n put in somewhere. */
  ghost predicate InsertedInto(s: seq<Ptr>, s': seq<Ptr>, n: Ptr) {
    exists k :: 0 <= k <= |s| && s' == s[..k] + [n] + s[k..]
  }

  /** Everything known at the moment of attachment. */
  lemma InsertionPoint(mem: Memory, root: Ptr, c: Ctx, n: Ptr, stamp: Stamp)
    requires IsTree(mem, root, Plug(c, Leaf)) && n != NULL && n !in mem && Fits(mem, c, stamp)
    ensures var m := Bumped(mem, c, 1); var m' := Attached(m, c, n, stamp); var t := Plug(c, Branch(Leaf, n, Leaf));
            && IsTree(m', if c.Top? then n else root, t)
            && m.Keys == mem.Keys && m'.Keys == mem.Keys + {n} && m'[n].stamp == stamp
            && (forall q <- mem :: m'[q].stamp == mem[q].stamp == m[q].stamp)
            && InsertedInto(Flat(Plug(c, Leaf)), Flat(t), n)
            && (Weights(mem, Plug(c, Leaf)) ==> Weights(m', t))
    ensures !c.Top? ==> c.p in mem && c.p != NULL && (c.InLeft? <==> Less(stamp, mem[c.p].stamp))
  {
    var m := Bumped(mem, c, 1);
    var m' := Attached(m, c, n, stamp);
    var t := Branch(Leaf, n, Leaf);
    BumpedShape(mem, c, 1);
    SameShapeIsTree(mem, m, root, Plug(c, Leaf));
    FitsSame(mem, m, c, stamp);
    AttachedIsTree(m, root, c, n, stamp);
    AttachedRep(m, root, c, n, stamp);
    AttachedData(m, c, n, stamp);
    if Weights(mem, Plug(c, Leaf)) { AttachedWeights(mem, root, c, n, stamp); }
    InsertedHere(c, n);
    assert RepCtx(mem, c, NULL) by { Focus(mem, root, c, Leaf); }
  }

  lemma InsertedHere(c: Ctx, n: Ptr)
    ensures InsertedInto(Flat(Plug(c, Leaf)), Flat(Plug(c, Branch(Leaf, n, Leaf))), n)
  {
    PlugFlat(c, Leaf);
    PlugFlat(c, Branch(Leaf, n, Leaf));
    var s := Flat(Plug(c, Leaf));
    assert s == Before(c) + After(c);
    assert s[..|Before(c)|] == Before(c) && s[|Before(c)|..] == After(c);
  }

  lemma {:induction false} FitsSame(mem: Memory, mem': Memory, c: Ctx, stamp: Stamp)
    requires Fits(mem, c, stamp) && SameShape(mem, mem')
    ensures Fits(mem', c, stamp)
    decreases c
  {
    if !c.Top? { FitsSame(mem, mem', c.up, stamp); }
  }

  lemma AttachedSameWeights(mem: Memory, c: Ctx, n: Ptr, stamp: Stamp, s: seq<Ptr>)
    requires n !in mem
    ensures SameWeights(mem, Attached(mem, c, n, stamp), s)
  {}

  lemma AttachedWeights(mem: Memory, root: Ptr, c: Ctx, n: Ptr, stamp: Stamp)
    requires IsTree(mem, root, Plug(c, Leaf)) && n != NULL && n !in mem && Weights(mem, Plug(c, Leaf))
    ensures Weights(Attached(Bumped(mem, c, 1), c, n, stamp), Plug(c, Branch(Leaf, n, Leaf)))
  {
    var m := Bumped(mem, c, 1);
    var m' := Attached(m, c, n, stamp);
    AttachedFlat(c, n);
    assert WeightsCtx(mem, c, 0) by { PlugWeights(mem, c, Leaf); }
    BumpedWeights(mem, c, 1, 0);
    assert n !in m by { BumpedShape(mem, c, 1); }
    assert WeightsCtx(m', c, 1) by {
      AttachedSameWeights(m, c, n, stamp, Before(c));
      AttachedSameWeights(m, c, n, stamp, After(c));
      WeightsCtxFrame(m, m', c, 1);
    }
    NewLeafWeights(m', c, n);
  }

  lemma NewLeafWeights(mem: Memory, c: Ctx, n: Ptr)
    requires WeightsCtx(mem, c, 1) && n in mem && mem[n].weight == 0
    ensures Weights(mem, Plug(c, Branch(Leaf, n, Leaf)))
  {
    PlugWeights(mem, c, Branch(Leaf, n, Leaf));
    assert Weights(mem, Branch(Leaf, n, Leaf)) && Size(Branch(Leaf, n, Leaf)) == 1;
  }

  lemma DescentStep(mem: Memory, root: Ptr, c: Ctx, t: Shape, d: int)
    requires IsTree(mem, root, Plug(c, t)) && Root(t) != NULL
    ensures t.p in mem && var m := Bumped(mem, c, d);
            t.p in m && m[t.p] == mem[t.p] && m[t.p].left == Root(t.l) && m[t.p].right == Root(t.r) &&
                m[t.p].parent == Up(c)
  {
    Focus(mem, root, c, t);
    ApartCtx(c, t);
    Heads(c, t);
    BumpedShape(mem, c, d);
  }

  lemma LeafFocus(mem: Memory, root: Ptr, c: Ctx, t: Shape)
    requires IsTree(mem, root, Plug(c, t)) && Root(t) == NULL
    ensures t == Leaf
  {
    Focus(mem, root, c, t);
    Heads(c, t);
  }

  lemma OnlyChild(mem: Memory, root: Ptr, c: Ctx, t: Shape)
    requires IsTree(mem, root, Plug(c, t)) && t.Branch?
    ensures t.p in mem && mem[t.p].parent == Up(c)
    ensures !c.Top? ==> c.p in mem && (mem[c.p].left == t.p <==> c.InLeft?) && (mem[c.p].right == t.p <==> c.InRight?)
    ensures Up(c) == NULL <==> c.Top?
  {
    Focus(mem, root, c, t);
    if !c.Top? { OtherChild(c, t); }
  }

  /** Every node of a tree is in focus somewhere. */
  lemma {:induction false} Locate(c0: Ctx, t0: Shape, p: Ptr) returns (c: Ctx, t: Shape)
    requires p in Flat(t0)
    ensures Plug(c, t) == Plug(c0, t0) && t.Branch? && t.p == p
    decreases t0
  {
    if p == t0.p {
      c, t := c0, t0;
    } else if p in Flat(t0.l) {
      c, t := Locate(InLeft(t0.p, t0.r, c0), t0.l, p);
    } else {
      c, t := Locate(InRight(t0.l, t0.p, c0), t0.r, p);
    }
  }
}
