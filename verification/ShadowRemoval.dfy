/** Taking a node out of the shadow tree (transplant, delete_tree_node, fix_weights) and the rank walk. */
module ShadowRemoval {
  import opened Addresses
  import opened ShadowShapes
  import opened ShadowEdits

  /** s' is s without its one occurrence of z. */
  ghost predicate RemovedFrom(s: seq<Ptr>, s': seq<Ptr>, z: Ptr) {
    exists k :: 0 <= k < |s| && s[k] == z && s' == s[..k] + s[k + 1..]
  }

  /** transplant: u's parent gets v in place of u, and v that parent. */
  function Transplanted(mem: Memory, u: Ptr, v: Ptr): Memory
    requires u in mem
  {
    Adopted(Replaced(mem, mem[u].parent, u, v), v, mem[u].parent)
  }

  /** Replacing the subtree at u by any other subtree v that shares no node with the path. */
  lemma TransplantRep(mem: Memory, c: Ctx, u: Ptr, v: Shape, par: Ptr)
    requires NULL !in mem && u in mem && mem[u].parent == Up(c) && RepCtx(mem, c, u) && Rep(mem, v, par)
    requires Distinct(Before(c) + Flat(v) + After(c)) && NULL !in Flat(v)
    requires c.InRight? ==> mem[c.p].left != u
    ensures var m := Transplanted(mem, u, Root(v));
            && RepCtx(m, c, Root(v)) && Rep(m, v, Up(c)) && m.Keys == mem.Keys
            && (forall q <- mem :: m[q].stamp == mem[q].stamp && m[q].weight == mem[q].weight)
            && (forall q <- mem :: q != Up(c) && q != Root(v) ==> m[q] == mem[q])
  {
    ApartCtx(c, v);
    Heads(c, v);
    TransplantFrame(mem, c, u, v);
    RetargetCtx(mem, Transplanted(mem, u, Root(v)), c, u, Root(v));
    Reparent(mem, Transplanted(mem, u, Root(v)), v, par, Up(c));
  }

  lemma TransplantFrame(mem: Memory, c: Ctx, u: Ptr, v: Shape)
    requires NULL !in mem && u in mem && mem[u].parent == Up(c) && (c.InRight? ==> c.p in mem && mem[c.p].left != u)
    requires (c.InLeft? ==> c.p in mem && mem[c.p].left == u) && (Up(c) == Root(v) ==> Up(c) == NULL)
    ensures var m := Transplanted(mem, u, Root(v));
            && m.Keys == mem.Keys
            && (forall q <- mem :: q != Up(c) && q != Root(v) ==> m[q] == mem[q])
            && (Root(v) in mem ==> m[Root(v)] == mem[Root(v)].(parent := Up(c)))
            && (c.InLeft? ==> m[c.p] == mem[c.p].(left := Root(v)))
            && (c.InRight? ==> m[c.p] == mem[c.p].(right := Root(v)))
  {}

  /** Dropping z from memory leaves a shape without z as it is. */
  lemma Freed(mem: Memory, z: Ptr, t: Shape)
    requires Rep(mem, t, NULL) && z !in Flat(t)
    ensures Rep(mem - {z}, t, NULL)
  {
    RepFrame(mem, mem - {z}, t, NULL);
  }

  /** If the pointers form t', and t' is t without z in order, then memory without z is the tree t'. */
  lemma RemovedIsTree(mem0: Memory, root0: Ptr, t: Shape, mem: Memory, t': Shape, a: seq<Ptr>, z: Ptr, b: seq<Ptr>)
    requires IsTree(mem0, root0, t) && Rep(mem, t', NULL) && mem.Keys == mem0.Keys
    requires forall q <- mem0 :: mem[q].stamp == mem0[q].stamp
    requires Flat(t) == a + [z] + b && Flat(t') == a + b
    ensures IsTree(mem - {z}, Root(t'), t')
  {
    WithoutMiddle(mem0, a, z, b);
    assert Elems(Flat(t')) == (mem - {z}).Keys;
    ElemsIn(Flat(t'));
    SameStamps(mem0, mem - {z}, Flat(t'));
    Freed(mem, z, t');
  }

  lemma WithoutMiddle(mem: Memory, a: seq<Ptr>, z: Ptr, b: seq<Ptr>)
    requires Distinct(a + [z] + b)
    ensures Distinct(a + b) && z !in a + b && Elems(a + b) == Elems(a + [z] + b) - {z}
    ensures Increasing(mem, a + [z] + b) ==> Increasing(mem, a + b)
  {
    DistinctSplit(a + [z], b);
    DistinctSplit(a, [z]);
    DistinctSplit(a, b);
    IncreasingSplit(mem, a + [z], b);
    IncreasingSplit(mem, a, [z]);
    IncreasingSplit(mem, a, b);
    assert z in [z];
    ElemsIn(a + b);
    ElemsIn(a + [z] + b);
  }

  lemma RemovedAt(a: seq<Ptr>, z: Ptr, b: seq<Ptr>)
    ensures RemovedFrom(a + [z] + b, a + b, z)
  {
    var s := a + [z] + b;
    assert s[|a|] == z && s[..|a|] == a && s[|a| + 1..] == b;
  }

  // ---------- a node with at most one child ----------

  lemma SpliceOne(mem: Memory, root: Ptr, c: Ctx, t: Shape)
    requires IsTree(mem, root, Plug(c, t)) && t.Branch? && (t.l.Leaf? || t.r.Leaf?)
    ensures t.p in mem && mem[t.p].left == Root(t.l) && mem[t.p].right == Root(t.r) && mem[t.p].parent == Up(c)
    ensures Up(c) != NULL ==> Up(c) in mem
    ensures var v := if t.l.Leaf? then t.r else t.l; var m := Transplanted(mem, t.p, Root(v));
            && IsTree(m - {t.p}, Root(Plug(c, v)), Plug(c, v)) && SameNodes(mem, m)
            && RemovedFrom(Flat(Plug(c, t)), Flat(Plug(c, v)), t.p)
  {
    var v := if t.l.Leaf? then t.r else t.l;
    var a, b := Before(c) + Flat(t.l), Flat(t.r) + After(c);
    Focus(mem, root, c, t);
    OnlyChild(mem, root, c, t);
    SplicedOrder(c, t);
    RemovedAt(a, t.p, b);
    WithoutMiddle(mem, a, t.p, b);
    PlugFlat(c, v);
    TransplantRep(mem, c, t.p, v, t.p);
    var m := Transplanted(mem, t.p, Root(v));
    PlugRep(m, c, v);
    RemovedIsTree(mem, root, Plug(c, t), m, Plug(c, v), a, t.p, b);
  }

  lemma SplicedOrder(c: Ctx, t: Shape)
    requires t.Branch?
    ensures var a, b := Before(c) + Flat(t.l), Flat(t.r) + After(c);
            && Flat(Plug(c, t)) == a + [t.p] + b
            && (t.l.Leaf? ==> Flat(Plug(c, t.r)) == a + b)
            && (t.r.Leaf? ==> Flat(Plug(c, t.l)) == a + b)
  {
    PlugFlat(c, t);
    Around(Before(c), Flat(t.l), [t.p], Flat(t.r), After(c));
    if t.l.Leaf? { PlugFlat(c, t.r); Around(Before(c), [], [], Flat(t.r), After(c)); }
    if t.r.Leaf? { PlugFlat(c, t.l); Around(Before(c), Flat(t.l), [], [], After(c)); }
  }

  lemma Around(a: seq<Ptr>, b: seq<Ptr>, c: seq<Ptr>, d: seq<Ptr>, e: seq<Ptr>)
    ensures a + (b + c + d) + e == (a + b) + c + (d + e)
    ensures b == [] ==> a + d + e == (a + b) + (d + e)
    ensures d == [] ==> a + b + e == (a + b) + (d + e)
  {}

  /** With the path weights already lowered, removing a node with at most one child makes them all right. */
  lemma SpliceOneWeights(mem: Memory, root: Ptr, c: Ctx, t: Shape)
    requires IsTree(mem, root, Plug(c, t)) && t.Branch? && (t.l.Leaf? || t.r.Leaf?)
    requires Weights(mem, t) && WeightsCtx(mem, c, Size(t) - 1)
    ensures var v := if t.l.Leaf? then t.r else t.l;
            t.p in mem && Weights(Transplanted(mem, t.p, Root(v)) - {t.p}, Plug(c, v))
  {
    var v := if t.l.Leaf? then t.r else t.l;
    SpliceOne(mem, root, c, t);
    assert t.p !in Flat(Plug(c, v)) by {
      SplicedOrder(c, t);
      WithoutMiddle(mem, Before(c) + Flat(t.l), t.p, Flat(t.r) + After(c));
    }
    assert Weights(mem, Plug(c, v)) by {
      assert Size(v) == Size(t) - 1;
      PlugWeights(mem, c, v);
    }
    WeightsSurvive(mem, Transplanted(mem, t.p, Root(v)), t.p, Plug(c, v));
  }

  lemma RootStays(mem: Memory, root: Ptr, c: Ctx, t: Shape)
    requires IsTree(mem, root, Plug(c, t)) && t.Branch?
    ensures Root(t.l) != t.p && Root(t.r) != t.p
  {
    Focus(mem, root, c, t);
    ApartCtx(c, t);
    ApartBranch(t);
    Heads(c, t.l);
    Heads(c, t.r);
  }

  // ---------- a node with two children ----------

  /** The context i inside the hole of o. */
  function Join(i: Ctx, o: Ctx): Ctx {
    match i
    case Top => o
    case InLeft(p, r, up) => InLeft(p, r, Join(up, o))
    case InRight(l, p, up) => InRight(l, p, Join(up, o))
  }

  lemma {:induction false} JoinPlug(i: Ctx, o: Ctx, t: Shape)
    ensures Plug(Join(i, o), t) == Plug(o, Plug(i, t))
    ensures Up(Join(i, o)) == if i.Top? then Up(o) else Up(i)
    decreases i
  {
    match i
    case Top =>
    case InLeft(p, r, up) => JoinPlug(up, o, Branch(t, p, r));
    case InRight(l, p, up) => JoinPlug(up, o, Branch(l, p, t));
  }

  predicate AllLeft(i: Ctx) { i.Top? || (i.InLeft? && AllLeft(i.up)) }

  lemma {:induction false} AllLeftBefore(i: Ctx)
    requires AllLeft(i)
    ensures Before(i) == []
    decreases i
  {
    if !i.Top? { AllLeftBefore(i.up); }
  }

  /** y is the leftmost node of the right subtree of t; what remains of that subtree without it. */
  ghost predicate Successor(t: Shape, i: Ctx, y: Ptr, ry: Shape) {
    t.Branch? && t.l.Branch? && AllLeft(i) && t.r == Plug(i, Branch(Leaf, y, ry))
  }

  /** The tree with y in the place of t's root. */
  function Promoted(t: Shape, i: Ctx, y: Ptr, ry: Shape): Shape
    requires t.Branch?
  {
    Branch(t.l, y, Plug(i, ry))
  }

  lemma SuccessorFlat(t: Shape, i: Ctx, y: Ptr, ry: Shape)
    requires Successor(t, i, y, ry)
    ensures Flat(t.r) == [y] + Flat(Plug(i, ry))
  {
    AllLeftBefore(i);
    PlugFlat(i, Branch(Leaf, y, ry));
    PlugFlat(i, ry);
    FirstOut(y, Flat(ry), After(i));
  }

  lemma FirstOut(y: Ptr, b: seq<Ptr>, c: seq<Ptr>)
    ensures [] + ([] + [y] + b) + c == [y] + ([] + b + c)
  {}

  lemma PromotedOrder(c: Ctx, t: Shape, i: Ctx, y: Ptr, ry: Shape)
    requires Successor(t, i, y, ry)
    ensures var a, b := Before(c) + Flat(t.l), Flat(t.r) + After(c);
            Flat(Plug(c, t)) == a + [t.p] + b && Flat(Plug(c, Promoted(t, i, y, ry))) == a + b
  {
    SplicedOrder(c, t);
    SuccessorFlat(t, i, y, ry);
    PlugFlat(c, Promoted(t, i, y, ry));
    Promotion(Before(c), Flat(t.l), [y], Flat(Plug(i, ry)), After(c));
  }

  lemma Promotion(a: seq<Ptr>, b: seq<Ptr>, c: seq<Ptr>, d: seq<Ptr>, e: seq<Ptr>)
    ensures a + (b + c + d) + e == (a + b) + ((c + d) + e)
  {}

  /** No address in two places among: the path, the left subtree, what remains on the right, y and z. */
  lemma PromotedApart(c: Ctx, t: Shape, i: Ctx, y: Ptr, ry: Shape)
    requires Successor(t, i, y, ry) && t.p != NULL && Distinct(Before(c) + Flat(t) + After(c))
    ensures c.InRight? ==> Root(c.l) != t.p
    ensures var r' := Plug(i, ry);
            && Distinct(Flat(t.l)) && Distinct(Flat(r')) && Distinct(Before(c) + After(c)) && y != t.p
            && t.p !in Flat(t.l) && t.p !in Flat(r') && t.p !in Before(c) && t.p !in After(c)
            && y !in Flat(t.l) && y !in Flat(r') && y !in Before(c) && y !in After(c)
            && (forall q <- Flat(t.l) :: q !in Flat(r') && q !in Before(c) && q !in After(c))
            && (forall q <- Flat(r') :: q !in Before(c) && q !in After(c))
  {
    SuccessorFlat(t, i, y, ry);
    ApartCtx(c, t);
    ApartBranch(t);
    DistinctSplit([y], Flat(Plug(i, ry)));
    assert y in [y];
    if c.InRight? { OtherChild(c, t); }
  }

  /** delete_tree_node, first half: y leaves its place below and takes over the right subtree. */
  function Detached(mem: Memory, z: Ptr, y: Ptr): Memory
    requires y in mem && z in mem
  {
    if mem[y].parent == z then mem
    else
      var m1 := Transplanted(mem, y, mem[y].right);
      if y !in m1 || z !in m1 then m1 else
      var m2 := m1[y := m1[y].(right := m1[z].right)];
      Adopted(m2, m2[y].right, y)
  }

  /** Second half: y takes z's place and the left subtree. */
  function SwappedIn(mem: Memory, z: Ptr, y: Ptr): Memory
    requires y in mem && z in mem
  {
    var m4 := Transplanted(mem, z, y);
    if y !in m4 || z !in m4 then m4 else
    var m5 := m4[y := m4[y].(left := m4[z].left)];
    Adopted(m5, m5[y].left, y)
  }

  /** Between the two halves. */
  ghost predicate Ready(mem: Memory, c: Ctx, l: Shape, z: Ptr, y: Ptr, r': Shape) {
    && NULL !in mem && y in mem && z in mem
    && RepCtx(mem, c, z) && Rep(mem, l, z) && Rep(mem, r', y)
    && mem[z].left == Root(l) && mem[z].parent == Up(c) && mem[y].right == Root(r')
  }

  /** What the second half leaves: y under c with lp on its left, lp under y, c pointing at y. */
  ghost predicate Swapped(mem: Memory, m: Memory, c: Ctx, lp: Ptr, y: Ptr) {
    && m.Keys == mem.Keys && y in mem && lp in mem
    && m[y] == mem[y].(parent := Up(c), left := lp) && m[lp] == mem[lp].(parent := y)
    && (forall q <- mem :: q != y && q != lp && q != Up(c) ==> m[q] == mem[q])
    && (c.InLeft? ==> c.p in mem && m[c.p] == mem[c.p].(left := y))
    && (c.InRight? ==> c.p in mem && m[c.p] == mem[c.p].(right := y))
  }

  lemma SwappedWrites(mem: Memory, c: Ctx, l: Shape, z: Ptr, y: Ptr, r': Shape)
    requires Ready(mem, c, l, z, y, r') && l.Branch? && y != z && y != NULL && y != l.p
    requires z !in Flat(l) && z !in Before(c) && z !in After(c) && (c.InRight? ==> mem[c.p].left != z)
    requires y !in Before(c) && y !in After(c) && l.p !in Before(c) && l.p !in After(c)
    ensures Swapped(mem, SwappedIn(mem, z, y), c, l.p, y)
  {
    Heads(c, l);
  }

  lemma SwappedRep(mem: Memory, m: Memory, c: Ctx, l: Shape, z: Ptr, y: Ptr, r': Shape)
    requires Ready(mem, c, l, z, y, r') && l.Branch? && y != NULL && Swapped(mem, m, c, l.p, y)
    requires Distinct(Flat(l)) && Distinct(Before(c) + After(c))
    requires y !in Flat(l) && y !in Flat(r') && y !in Before(c) && y !in After(c)
    requires forall q <- Flat(l) :: q !in Flat(r') && q !in Before(c) && q !in After(c)
    requires forall q <- Flat(r') :: q !in Before(c) && q !in After(c)
    ensures Rep(m, Plug(c, Branch(l, y, r')), NULL)
  {
    Heads(c, l);
    RepFrame(mem, m, r', y);
    Reparent(mem, m, l, z, y);
    RetargetCtx(mem, m, c, z, y);
    PlugRep(m, c, Branch(l, y, r'));
  }

  lemma SwappedInRep(mem: Memory, c: Ctx, l: Shape, z: Ptr, y: Ptr, r': Shape)
    requires Ready(mem, c, l, z, y, r') && l.Branch? && y != z && y != NULL
    requires Distinct(Flat(l)) && Distinct(Before(c) + After(c))
    requires z !in Flat(l) && z !in Before(c) && z !in After(c) && (c.InRight? ==> mem[c.p].left != z)
    requires y !in Flat(l) && y !in Flat(r') && y !in Before(c) && y !in After(c)
    requires forall q <- Flat(l) :: q !in Flat(r') && q !in Before(c) && q !in After(c)
    requires forall q <- Flat(r') :: q !in Before(c) && q !in After(c)
    ensures Rep(SwappedIn(mem, z, y), Plug(c, Branch(l, y, r')), NULL) && SameNodes(mem, SwappedIn(mem, z, y))
  {
    Heads(c, l);
    SwappedWrites(mem, c, l, z, y, r');
    SwappedRep(mem, SwappedIn(mem, z, y), c, l, z, y, r');
  }

  /** Where y hangs when it is not z's right child. */
  lemma DeepPointers(mem: Memory, root: Ptr, c: Ctx, t: Shape, i: Ctx, y: Ptr, ry: Shape)
    requires IsTree(mem, root, Plug(c, t)) && Successor(t, i, y, ry) && !i.Top?
    ensures y in mem && t.p in mem && mem[y].parent == i.p && i.p in mem && i.p != t.p && i.p != NULL &&
            mem[y].right == Root(ry)
  {
    var cy, ty := Join(i, InRight(t.l, t.p, c)), Branch(Leaf, y, ry);
    JoinPlug(i, InRight(t.l, t.p, c), ty);
    OnlyChild(mem, root, cy, ty);
    Focus(mem, root, cy, ty);
    PathInside(i, ty);
    Focus(mem, root, c, t);
    ApartCtx(c, t);
    ApartBranch(t);
  }

  lemma {:induction false} PathInside(i: Ctx, t: Shape)
    requires !i.Top?
    ensures i.p in Flat(Plug(i, t))
  {
    PlugFlat(i, t);
    Heads(i, t);
  }

  /** The first half gets there when the successor is deeper down ... */
  lemma DetachedDeep(mem: Memory, root: Ptr, c: Ctx, t: Shape, i: Ctx, y: Ptr, ry: Shape)
    requires IsTree(mem, root, Plug(c, t)) && Successor(t, i, y, ry) && !i.Top?
    ensures y in mem && t.p in mem && Ready(Detached(mem, t.p, y), c, t.l, t.p, y, Plug(i, ry)) &&
            SameNodes(mem, Detached(mem, t.p, y))
    ensures mem[y].right == Root(ry) && Transplanted(mem, y, mem[y].right)[t.p].right in mem
  {
    var r', o := Plug(i, ry), InRight(t.l, t.p, c);
    var cy := Join(i, o);
    DeepPointers(mem, root, c, t, i, y, ry);
    JoinPlug(i, o, Branch(Leaf, y, ry));
    JoinPlug(i, o, ry);
    DetachedPath(mem, root, cy, Branch(Leaf, y, ry));
    var m1 := Transplanted(mem, y, Root(ry));
    PlugRep(m1, cy, ry);
    PlugRep(m1, o, r');
    PlugNonempty(i, ry);
    assert Distinct(Before(c) + Flat(t) + After(c)) && t.p != NULL by { Focus(mem, root, c, t); }
    PromotedApart(c, t, i, y, ry);
    DetachedRest(m1, c, t.l, t.p, y, r');
  }

  /** transplant(y, y->right) alone, before anything is freed. */
  lemma DetachedPath(mem: Memory, root: Ptr, c: Ctx, t: Shape)
    requires IsTree(mem, root, Plug(c, t)) && t.Branch? && t.l.Leaf?
    ensures t.p in mem && mem[t.p].right == Root(t.r) && var m := Transplanted(mem, t.p, Root(t.r));
            RepCtx(m, c, Root(t.r)) && Rep(m, t.r, Up(c)) && SameNodes(mem, m)
  {
    Focus(mem, root, c, t);
    OnlyChild(mem, root, c, t);
    SplicedOrder(c, t);
    WithoutMiddle(mem, Before(c) + Flat(t.l), t.p, Flat(t.r) + After(c));
    PlugFlat(c, t.r);
    TransplantRep(mem, c, t.p, t.r, t.p);
  }

  /** ... by handing what remains of the right subtree to y. */
  lemma DetachedRest(m1: Memory, c: Ctx, l: Shape, z: Ptr, y: Ptr, r': Shape)
    requires NULL !in m1 && RepCtx(m1, InRight(l, z, c), Root(r')) && Rep(m1, r', z) && y in m1 && y != z && r'.Branch?
    requires Distinct(Flat(r')) && y !in Flat(l) && y !in Flat(r') && y !in Before(c) && y !in After(c) &&
             z !in Flat(r')
    requires forall q <- Flat(r') :: q !in Flat(l) && q !in Before(c) && q !in After(c)
    ensures var m2 := m1[y := m1[y].(right := m1[z].right)]; var m3 := Adopted(m2, m2[y].right, y);
            Ready(m3, c, l, z, y, r') && SameNodes(m1, m3)
  {
    var m2 := m1[y := m1[y].(right := m1[z].right)];
    var m3 := Adopted(m2, m2[y].right, y);
    Heads(c, r');
    assert Rep(m3, l, z) by { RepFrame(m1, m3, l, z); }
    assert RepCtx(m3, c, z) by { CtxFrame(m1, m3, c, z); }
    assert Rep(m3, r', y) by { Reparent(m1, m3, r', z, y); }
  }

  /** When the successor is the right child itself there is nothing to detach. */
  lemma DetachedNear(mem: Memory, root: Ptr, c: Ctx, t: Shape, y: Ptr, ry: Shape)
    requires IsTree(mem, root, Plug(c, t)) && Successor(t, Top, y, ry)
    ensures y in mem && t.p in mem && mem[y].parent == t.p && Ready(mem, c, t.l, t.p, y, ry)
  {
    Focus(mem, root, c, t);
  }

  lemma PlugNonempty(i: Ctx, t: Shape)
    requires !i.Top?
    ensures Plug(i, t).Branch?
    decreases i
  {
    PlugKeepsBranch(i.up, Above(i, t));
  }

  lemma {:induction false} PlugKeepsBranch(i: Ctx, t: Shape)
    requires t.Branch?
    ensures Plug(i, t).Branch?
    decreases i
  {
    if !i.Top? { PlugKeepsBranch(i.up, Above(i, t)); }
  }

  /** Memory after both halves. */
  function SuccessorIn(mem: Memory, z: Ptr, y: Ptr): Memory
    requires y in mem && z in mem
  {
    var m := Detached(mem, z, y);
    if y in m && z in m then SwappedIn(m, z, y) else m
  }

  lemma SpliceTwo(mem: Memory, root: Ptr, c: Ctx, t: Shape, i: Ctx, y: Ptr, ry: Shape)
    requires IsTree(mem, root, Plug(c, t)) && Successor(t, i, y, ry)
    ensures y in mem && t.p in mem && var m, t' := SuccessorIn(mem, t.p, y), Plug(c, Promoted(t, i, y, ry));
            && IsTree(m - {t.p}, Root(t'), t') && SameNodes(mem, m)
            && RemovedFrom(Flat(Plug(c, t)), Flat(t'), t.p)
  {
    var z, r', a, b := t.p, Plug(i, ry), Before(c) + Flat(t.l), Flat(t.r) + After(c);
    if i.Top? { DetachedNear(mem, root, c, t, y, ry); }
        else { PlugNonempty(i, ry); DetachedDeep(mem, root, c, t, i, y, ry); }
    var m1 := Detached(mem, z, y);
    assert Distinct(Before(c) + Flat(t) + After(c)) && t.p != NULL by { Focus(mem, root, c, t); }
    PromotedApart(c, t, i, y, ry);
    SwappedInRep(m1, c, t.l, z, y, r');
    PromotedOrder(c, t, i, y, ry);
    RemovedAt(a, z, b);
    RemovedIsTree(mem, root, Plug(c, t), SwappedIn(m1, z, y), Plug(c, Promoted(t, i, y, ry)), a, z, b);
  }

  lemma Children(mem: Memory, root: Ptr, c: Ctx, t: Shape)
    requires IsTree(mem, root, Plug(c, t)) && t.Branch?
    ensures t.p in mem && mem[t.p].left == Root(t.l) && mem[t.p].right == Root(t.r) && mem[t.p].parent == Up(c)
    ensures (Root(t.l) == NULL <==> t.l.Leaf?) && (Root(t.r) == NULL <==> t.r.Leaf?)
    ensures (Root(t.l) != NULL ==> Root(t.l) in mem) && (Root(t.r) != NULL ==> Root(t.r) in mem)
    ensures Up(c) == NULL <==> c.Top?
    ensures Up(c) != NULL ==> Up(c) in mem
    ensures Plug(InLeft(t.p, t.r, c), t.l) == Plug(c, t) == Plug(InRight(t.l, t.p, c), t.r)
  {
    Focus(mem, root, c, t);
    OnlyChild(mem, root, c, t);
  }

  lemma {:induction false} NearSuccessor(r: Shape, i: Ctx, y: Ptr, ry: Shape)
    requires r == Plug(i, Branch(Leaf, y, ry)) && AllLeft(i)
    ensures r.Branch? && (r.l.Leaf? <==> i.Top?)
    decreases i
  {
    if !i.Top? { LeftmostDeeper(i, Branch(Leaf, y, ry)); }
  }

  lemma {:induction false} LeftmostDeeper(i: Ctx, t: Shape)
    requires AllLeft(i) && t.Branch? && !i.Top?
    ensures Plug(i, t).Branch? && Plug(i, t).l.Branch?
    decreases i
  {
    if !i.up.Top? { LeftmostDeeper(i.up, Above(i, t)); }
  }

  /** What delete_tree_node reads and writes through in the case of two children is there. */
  lemma SuccessorPointers(mem: Memory, root: Ptr, c: Ctx, t: Shape, i: Ctx, y: Ptr, ry: Shape)
    requires IsTree(mem, root, Plug(c, t)) && Successor(t, i, y, ry)
    ensures y in mem && t.p in mem && NULL !in mem &&
            (mem[y].parent == t.p || (mem[y].parent != NULL && mem[y].parent in mem))
    ensures mem[y].parent != t.p ==> Transplanted(mem, y, mem[y].right)[t.p].right in mem
    ensures var m := Detached(mem, t.p, y);
            && m.Keys == mem.Keys && m[t.p].parent == Up(c) && (Up(c) != NULL ==> Up(c) in m)
            && t.l.p in m && Transplanted(m, t.p, y)[t.p].left == t.l.p && y != t.p
  {
    Children(mem, root, c, t);
    assert Distinct(Before(c) + Flat(t) + After(c)) && t.p != NULL by { Focus(mem, root, c, t); }
    PromotedApart(c, t, i, y, ry);
    if i.Top? { DetachedNear(mem, root, c, t, y, ry); }
        else { DeepPointers(mem, root, c, t, i, y, ry); DetachedDeep(mem, root, c, t, i, y, ry); }
    SwapPointers(Detached(mem, t.p, y), c, t.l, t.p, y, Plug(i, ry));
  }

  lemma SwapPointers(m: Memory, c: Ctx, l: Shape, z: Ptr, y: Ptr, r': Shape)
    requires Ready(m, c, l, z, y, r') && y != z && z !in Before(c) && z !in After(c)
    ensures Transplanted(m, z, y)[z].left == Root(l) && Transplanted(m, z, y).Keys == m.Keys
  {
    Heads(c, l);
  }

  // ---------- weights ----------

  lemma {:induction false} AllLeftWeights(mem: Memory, i: Ctx, n: int, n': int)
    requires AllLeft(i) && WeightsCtx(mem, i, n)
    ensures WeightsCtx(mem, i, n')
    decreases i
  {
    if !i.Top? { AllLeftWeights(mem, i.up, n + 1 + Size(i.r), n' + 1 + Size(i.r)); }
  }

  lemma {:induction false} PlugSize(c: Ctx, t: Shape, t': Shape)
    ensures Size(Plug(c, t)) - Size(t) == Size(Plug(c, t')) - Size(t')
    ensures Size(Plug(c, t)) >= Size(t) && (Size(Plug(c, t)) == Size(t) <==> c.Top?)
    decreases c
  {
    if !c.Top? { PlugSize(c.up, Above(c, t), Above(c, t')); }
  }

  /** The promoted subtree as far as weights go. */
  lemma PromotedWeights(mem: Memory, t: Shape, i: Ctx, y: Ptr, ry: Shape)
    requires Successor(t, i, y, ry) && Weights(mem, t)
    ensures Size(Promoted(t, i, y, ry)) == Size(t) - 1
    ensures Weights(mem, Promoted(t, i, y, ry)) <==> i.Top?
  {
    PlugSize(i, ry, Branch(Leaf, y, ry));
    PlugWeights(mem, i, Branch(Leaf, y, ry));
    AllLeftWeights(mem, i, Size(ry) + 1, Size(ry));
    PlugWeights(mem, i, ry);
  }

  /** With the path weights already lowered, promoting the successor makes all weights right exactly
      when it was the right child; otherwise it keeps the weight of its old place. */
  lemma SpliceTwoWeights(mem: Memory, root: Ptr, c: Ctx, t: Shape, i: Ctx, y: Ptr, ry: Shape)
    requires IsTree(mem, root, Plug(c, t)) && Successor(t, i, y, ry)
    requires Weights(mem, t) && WeightsCtx(mem, c, Size(t) - 1)
    ensures y in mem && t.p in mem &&
            (Weights(SuccessorIn(mem, t.p, y) - {t.p}, Plug(c, Promoted(t, i, y, ry))) <==> i.Top?)
  {
    var p := Promoted(t, i, y, ry);
    SpliceTwo(mem, root, c, t, i, y, ry);
    assert Weights(mem, Plug(c, p)) <==> i.Top? by {
      PromotedWeights(mem, t, i, y, ry);
      PlugWeights(mem, c, p);
    }
    assert t.p !in Flat(Plug(c, p)) by {
      PromotedOrder(c, t, i, y, ry);
      WithoutMiddle(mem, Before(c) + Flat(t.l), t.p, Flat(t.r) + After(c));
    }
    WeightsSurvive(mem, SuccessorIn(mem, t.p, y), t.p, Plug(c, p));
  }

  lemma WeightsSurvive(mem: Memory, m: Memory, z: Ptr, t: Shape)
    requires SameNodes(mem, m) && z !in Flat(t)
    ensures Weights(m - {z}, t) <==> Weights(mem, t)
  {
    if Weights(mem, t) { WeightsFrame(mem, m - {z}, t); }
    if Weights(m - {z}, t) { WeightsFrame(m - {z}, mem, t); }
  }

  lemma {:induction false} SizeFlat(t: Shape)
    ensures Size(t) == |Flat(t)|
    decreases t
  {
    if t.Branch? { SizeFlat(t.l); SizeFlat(t.r); }
  }

  /** The nodes seen more recently than n. */
  ghost function Newer(mem: Memory, n: Ptr): set<Ptr>
    requires n in mem
  {
    set q | q in mem && Less(mem[n].stamp, mem[q].stamp)
  }

  /** They are exactly what comes after n in order. */
  lemma NewerAfter(mem: Memory, root: Ptr, c: Ctx, t: Shape)
    requires IsTree(mem, root, Plug(c, t)) && t.Branch?
    ensures t.p in mem && |Newer(mem, t.p)| == Size(t.r) + |After(c)|
  {
    Focus(mem, root, c, t);
    SplicedOrder(c, t);
    var a, b := Before(c) + Flat(t.l), Flat(t.r) + After(c);
    DistinctSplit(a + [t.p], b);
    NewerSet(mem, a, t.p, b);
    ElemsCount(b);
    SizeFlat(t.r);
  }

  lemma NewerSet(mem: Memory, a: seq<Ptr>, n: Ptr, b: seq<Ptr>)
    requires Increasing(mem, a + [n] + b) && Elems(a + [n] + b) == mem.Keys && n in mem
    ensures Newer(mem, n) == Elems(b)
  {
    IncreasingSplit(mem, a + [n], b);
    IncreasingSplit(mem, a, [n]);
    ElemsIn(a + [n] + b);
    ElemsIn(b);
    assert n in [n];
    assert forall q :: q in a + [n] + b <==> q in a || q == n || q in b;
  }

  // ---------- steps of the climbs ----------

  /** An unbalanced node has the taller child it is about to rotate, whatever the heights are worth. */
  lemma TallerChild(mem: Memory, root: Ptr, c: Ctx, t: Shape)
    requires IsTree(mem, root, Plug(c, t)) && t.Branch? && t.p in mem
    requires BalanceFactor(mem, t.p) <= -2 || BalanceFactor(mem, t.p) >= 2
    ensures t.l.Branch? || t.r.Branch?
    ensures t.l.Branch? ==> t.l.p in mem && mem[t.l.p].left == Root(t.l.l) && mem[t.l.p].right == Root(t.l.r)
    ensures t.r.Branch? ==> t.r.p in mem && mem[t.r.p].left == Root(t.r.l) && mem[t.r.p].right == Root(t.r.r)
    ensures t.l.Branch? ==> (Root(t.l.r) != NULL <==> t.l.r.Branch?) && (Root(t.l.l) != NULL <==> t.l.l.Branch?)
    ensures t.r.Branch? ==> (Root(t.r.l) != NULL <==> t.r.l.Branch?) && (Root(t.r.r) != NULL <==> t.r.r.Branch?)
    ensures forall n <- mem ::
              (mem[n].left != NULL ==> mem[n].left in mem) && (mem[n].right != NULL ==> mem[n].right in mem)
    ensures t.l.Branch? && t.r.Branch? ==> t.l.p != t.r.p
  {
    Children(mem, root, c, t);
    if t.l.Branch? { Children(mem, root, InLeft(t.p, t.r, c), t.l); }
    if t.r.Branch? { Children(mem, root, InRight(t.l, t.p, c), t.r); }
    forall n <- mem ensures (mem[n].left != NULL ==> mem[n].left in mem) &&
        (mem[n].right != NULL ==> mem[n].right in mem) {
      ElemsIn(Flat(Plug(c, t)));
      var cn, tn := Locate(Top, Plug(c, t), n);
      Children(mem, root, cn, tn);
    }
    if t.l.Branch? && t.r.Branch? {
      EitherChild(mem, root, c, t);
    }
  }

  lemma EitherChild(mem: Memory, root: Ptr, c: Ctx, t: Shape)
    requires IsTree(mem, root, Plug(c, t)) && t.Branch? && t.l.Branch? && t.r.Branch?
    ensures t.l.p != t.r.p
  {
    Focus(mem, root, c, t);
    ApartCtx(c, t);
    ApartBranch(t);
    Heads(c, t.l);
    Heads(c, t.r);
  }

  lemma TallerGrandchild(mem: Memory, root: Ptr, c: Ctx, t: Shape)
    requires IsTree(mem, root, Plug(c, t)) && t.Branch?
    ensures t.p in mem && mem[t.p].left == Root(t.l) && mem[t.p].right == Root(t.r) && NULL !in mem
    ensures Height(mem, Root(t.l)) > Height(mem, Root(t.r)) ==> t.l.Branch? && Root(t.l) != Root(t.r)
    ensures Height(mem, Root(t.r)) > Height(mem, Root(t.l)) ==> t.r.Branch? && Root(t.l) != Root(t.r)
  {
    Children(mem, root, c, t);
  }

  lemma RotatedOrder(c: Ctx, t: Shape, g: Shape)
    requires Rotation(t, g)
    ensures Flat(Plug(c, g)) == Flat(Plug(c, t))
  {
    PlugFlat(c, t);
    PlugFlat(c, g);
    RotationFlat(t, g);
  }

  lemma RotationChild(t: Shape, g: Shape)
    requires Rotation(t, g)
    ensures g.Branch? && ((g.l.Branch? && g.l.p == t.p) || (g.r.Branch? && g.r.p == t.p))
  {}

  lemma RotatedParent(mem: Memory, root: Ptr, c: Ctx, t: Shape, g: Shape)
    requires IsTree(mem, root, Plug(c, g)) && t.Branch?
    requires g.Branch? && ((g.l.Branch? && g.l.p == t.p) || (g.r.Branch? && g.r.p == t.p))
    ensures t.p in mem && mem[t.p].parent == g.p
  {
    if g.l.Branch? && g.l.p == t.p {
      assert Plug(InLeft(g.p, g.r, c), g.l) == Plug(c, g);
      OnlyChild(mem, root, InLeft(g.p, g.r, c), g.l);
    } else {
      assert Plug(InRight(g.l, g.p, c), g.r) == Plug(c, g);
      OnlyChild(mem, root, InRight(g.l, g.p, c), g.r);
    }
  }

  /** One step of fix_weights goes from one description of the path to the shorter one. */
  lemma BumpedStep(mem: Memory, root: Ptr, c: Ctx, t: Shape, d: int)
    requires IsTree(mem, root, Plug(c, t)) && t.Branch? && c.InRight?
    ensures c.p in mem && Bumped(mem[c.p := mem[c.p].(weight := mem[c.p].weight + d)], c.up, d) == Bumped(mem, c, d)
    ensures SameShape(mem, mem[c.p := mem[c.p].(weight := mem[c.p].weight + d)])
  {
    OnlyChild(mem, root, c, t);
    assert c.p !in Before(c.up) by {
      Focus(mem, root, c, t);
      ApartCtx(c, t);
      ApartUp(c);
    }
    BumpedCommutes(mem, c.p, c.up, d);
  }

  lemma {:induction false} BumpedCommutes(mem: Memory, p: Ptr, c: Ctx, d: int)
    requires p in mem && p !in Before(c)
    ensures p in Bumped(mem, c, d)
    ensures var m := Bumped(mem, c, d);
            Bumped(mem[p := mem[p].(weight := mem[p].weight + d)], c, d) == m[p := m[p].(weight := m[p].weight + d)]
    decreases c
  {
    BumpedShape(mem, c, d);
    match c
    case Top =>
    case InLeft(_, _, up) => BumpedCommutes(mem, p, up, d);
    case InRight(l, q, up) =>
      assert q in Before(c) && forall a <- Before(up) :: a in Before(c);
      BumpedCommutes(mem, p, up, d);
  }

  lemma FixedWeights(mem: Memory, root: Ptr, c: Ctx, t: Shape)
    requires IsTree(mem, root, Plug(c, t)) && Weights(mem, Plug(c, t))
    ensures Weights(Bumped(mem, c, -1), t) && WeightsCtx(Bumped(mem, c, -1), c, Size(t) - 1)
  {
    assert Distinct(Before(c) + Flat(t) + After(c)) by { Focus(mem, root, c, t); }
    ApartCtx(c, t);
    PlugWeights(mem, c, t);
    BumpedWeights(mem, c, -1, Size(t));
    assert SameWeights(mem, Bumped(mem, c, -1), Flat(t)) by { BumpedShape(mem, c, -1); }
    WeightsFrame(mem, Bumped(mem, c, -1), t);
  }
}
