/** The search tree of the shadow queue (src/shadows.c): nodes with parent pointers, stored
    right-subtree weights and stored heights, all rewritten in place.

    The program's memory is a map from addresses to node records; 0 is NULL.  A ghost shape says
    which tree the pointers form.  A position in the tree is a context (the path up to the root,
    with the subtrees hanging off it) around the subtree in focus. */
module ShadowShapes {
  import opened Addresses

  /** When the item was last seen and, as the last tie breaker, the item's address. */
  datatype Stamp = Stamp(sec: int, usec: int, item: int)

  datatype Node = Node(stamp: Stamp, parent: Ptr, left: Ptr, right: Ptr, weight: int, height: nat)

  type Memory = map<Ptr, Node>

  datatype Shape = Leaf | Branch(l: Shape, p: Ptr, r: Shape)

  datatype Ctx = Top | InLeft(p: Ptr, r: Shape, up: Ctx) | InRight(l: Shape, p: Ptr, up: Ctx)

  function Root(t: Shape): Ptr { if t.Leaf? then NULL else t.p }

  function Up(c: Ctx): Ptr { if c.Top? then NULL else c.p }

  /** The in-order sequence of addresses. */
  function Flat(t: Shape): seq<Ptr> {
    if t.Leaf? then [] else Flat(t.l) + [t.p] + Flat(t.r)
  }

  function Plug(c: Ctx, t: Shape): Shape
    decreases c
  {
    match c
    case Top => t
    case InLeft(p, r, up) => Plug(up, Branch(t, p, r))
    case InRight(l, p, up) => Plug(up, Branch(l, p, t))
  }

  /** What comes before and after the focus in in-order. */
  function Before(c: Ctx): seq<Ptr> {
    match c
    case Top => []
    case InLeft(_, _, up) => Before(up)
    case InRight(l, p, up) => Before(up) + Flat(l) + [p]
  }

  function After(c: Ctx): seq<Ptr> {
    match c
    case Top => []
    case InLeft(p, r, up) => [p] + Flat(r) + After(up)
    case InRight(_, _, up) => After(up)
  }

  lemma Reassociate(a: seq<Ptr>, b: seq<Ptr>, c: seq<Ptr>, d: seq<Ptr>, e: seq<Ptr>)
    ensures a + (b + c + d) + e == a + b + (c + d + e)
    ensures a + (b + c + d) + e == (a + b + c) + d + e
    ensures a + b + (c + d + e) == (a + b + c) + d + e
  {}

  lemma {:induction false} PlugFlat(c: Ctx, t: Shape)
    ensures Flat(Plug(c, t)) == Before(c) + Flat(t) + After(c)
    decreases c
  {
    match c
    case Top =>
    case InLeft(p, r, up) =>
      PlugFlat(up, Branch(t, p, r));
      Reassociate(Before(up), Flat(t), [p], Flat(r), After(up));
    case InRight(l, p, up) =>
      PlugFlat(up, Branch(l, p, t));
      Reassociate(Before(up), Flat(l), [p], Flat(t), After(up));
  }

  /** The pointers below `parent` form exactly the shape t. */
  ghost predicate Rep(mem: Memory, t: Shape, parent: Ptr) {
    t.Branch? ==>
      && t.p != NULL && t.p in mem
      && mem[t.p].left == Root(t.l) && mem[t.p].right == Root(t.r) && mem[t.p].parent == parent
      && Rep(mem, t.l, t.p) && Rep(mem, t.r, t.p)
  }

  /** The pointers from the hole up to the root form exactly the context c. */
  ghost predicate RepCtx(mem: Memory, c: Ctx, child: Ptr) {
    match c
    case Top => true
    case InLeft(p, r, up) =>
      && p != NULL && p in mem && mem[p].left == child && mem[p].right == Root(r) && mem[p].parent == Up(up)
      && Rep(mem, r, p) && RepCtx(mem, up, p)
    case InRight(l, p, up) =>
      && p != NULL && p in mem && mem[p].right == child && mem[p].left == Root(l) && mem[p].parent == Up(up)
      && Rep(mem, l, p) && RepCtx(mem, up, p)
  }

  lemma {:induction false} PlugRep(mem: Memory, c: Ctx, t: Shape)
    ensures Rep(mem, Plug(c, t), NULL) <==> RepCtx(mem, c, Root(t)) && Rep(mem, t, Up(c))
    decreases c
  {
    match c
    case Top =>
    case InLeft(p, r, up) => PlugRep(mem, up, Branch(t, p, r));
    case InRight(l, p, up) => PlugRep(mem, up, Branch(l, p, t));
  }

  predicate SameLinks(a: Node, b: Node) {
    a.left == b.left && a.right == b.right && a.parent == b.parent
  }

  ghost predicate Agree(mem: Memory, mem': Memory, s: seq<Ptr>) {
    forall q <- s :: q in mem ==> q in mem' && SameLinks(mem[q], mem'[q])
  }

  lemma {:induction false} RepFrame(mem: Memory, mem': Memory, t: Shape, parent: Ptr)
    requires Rep(mem, t, parent)
    requires Agree(mem, mem', Flat(t))
    ensures Rep(mem', t, parent)
    decreases t
  {
    if t.Branch? {
      assert forall q :: q in Flat(t.l) || q in Flat(t.r) || q == t.p ==> q in Flat(t);
      RepFrame(mem, mem', t.l, t.p);
      RepFrame(mem, mem', t.r, t.p);
    }
  }

  lemma {:induction false} CtxFrame(mem: Memory, mem': Memory, c: Ctx, child: Ptr)
    requires RepCtx(mem, c, child)
    requires Agree(mem, mem', Before(c)) && Agree(mem, mem', After(c))
    ensures RepCtx(mem', c, child)
    decreases c
  {
    match c
    case Top =>
    case InLeft(p, r, up) =>
      assert forall q :: q in After(up) || q in Flat(r) || q == p ==> q in After(c);
      RepFrame(mem, mem', r, p);
      CtxFrame(mem, mem', up, p);
    case InRight(l, p, up) =>
      assert forall q :: q in Before(up) || q in Flat(l) || q == p ==> q in Before(c);
      RepFrame(mem, mem', l, p);
      CtxFrame(mem, mem', up, p);
  }

  lemma Heads(c: Ctx, t: Shape)
    ensures t.Branch? ==> t.p in Flat(t)
    ensures !c.Top? ==> c.p in Before(c) || c.p in After(c)
  {}

  /** A node, its two subtrees and its context share no address. */
  lemma ApartBranch(t: Shape)
    requires t.Branch? && Distinct(Flat(t))
    ensures Distinct(Flat(t.l)) && Distinct(Flat(t.r))
    ensures forall q :: q in Flat(t) <==> q == t.p || q in Flat(t.l) || q in Flat(t.r)
    ensures t.p !in Flat(t.l) && t.p !in Flat(t.r) && forall q :: !(q in Flat(t.l) && q in Flat(t.r))
  {
    DistinctSplit(Flat(t.l) + [t.p], Flat(t.r));
    DistinctSplit(Flat(t.l), [t.p]);
  }

  lemma ApartCtx(c: Ctx, t: Shape)
    requires Distinct(Before(c) + Flat(t) + After(c))
    ensures Distinct(Flat(t)) && Distinct(Before(c) + After(c))
    ensures forall q <- Flat(t) :: q !in Before(c) && q !in After(c)
    ensures Up(c) !in Flat(t) || c.Top?
  {
    Heads(c, t);
    DistinctSplit(Before(c) + Flat(t), After(c));
    DistinctSplit(Before(c), Flat(t));
    DistinctSplit(Before(c), After(c));
  }

  /** Going one step up a context: the node there, the subtree hanging off it and the rest of the path. */
  lemma ApartUp(c: Ctx)
    requires !c.Top? && Distinct(Before(c) + After(c))
    ensures Distinct(Before(c.up) + After(c.up)) && c.p !in Before(c.up) && c.p !in After(c.up)
    ensures var s := if c.InLeft? then Flat(c.r) else Flat(c.l);
            c.p !in s && Distinct(s) && forall q <- s :: q !in Before(c.up) && q !in After(c.up)
  {
    var up, p := c.up, c.p;
    DistinctSplit(Before(c), After(c));
    if c.InLeft? {
      DistinctSplit([p] + Flat(c.r), After(up));
      DistinctSplit([p], Flat(c.r));
    } else {
      DistinctSplit(Before(up) + Flat(c.l), [p]);
      DistinctSplit(Before(up), Flat(c.l));
    }
    assert p in [p];
    DistinctSplit(Before(up), After(up));
  }

  /** A node is never both children of its parent. */
  lemma OtherChild(c: Ctx, t: Shape)
    requires t.Branch? && t.p != NULL && !c.Top? && Distinct(Before(c) + Flat(t) + After(c))
    ensures c.InLeft? ==> Root(c.r) != t.p
    ensures c.InRight? ==> Root(c.l) != t.p
  {
    ApartCtx(c, t);
    Heads(c, t);
    if c.InLeft? { Heads(c, c.r); } else { Heads(c, c.l); }
  }

  /** The hole's parent points at a different child; nothing else on the path moves. */
  lemma RetargetCtx(mem: Memory, mem': Memory, c: Ctx, child: Ptr, child': Ptr)
    requires RepCtx(mem, c, child) && Distinct(Before(c) + After(c))
    requires forall q :: (q in Before(c) || q in After(c)) && q in mem && q != Up(c) ==>
               q in mem' && SameLinks(mem[q], mem'[q])
    requires c.InLeft? ==>
              && c.p in mem'
              && mem'[c.p] == mem[c.p].(left := child', height := mem'[c.p].height, weight := mem'[c.p].weight)
    requires c.InRight? ==>
              && c.p in mem'
              && mem'[c.p] == mem[c.p].(right := child', height := mem'[c.p].height, weight := mem'[c.p].weight)
    ensures RepCtx(mem', c, child')
  {
    if !c.Top? { ApartUp(c); }
    match c
    case Top =>
    case InLeft(p, r, up) =>
      assert forall q :: q in After(up) || q in Flat(r) ==> q in After(c);
      RepFrame(mem, mem', r, p);
      CtxFrame(mem, mem', up, p);
    case InRight(l, p, up) =>
      assert forall q :: q in Before(up) || q in Flat(l) ==> q in Before(c);
      RepFrame(mem, mem', l, p);
      CtxFrame(mem, mem', up, p);
  }

  /** The root of a subtree gets a different parent; nothing below it moves. */
  lemma Reparent(mem: Memory, mem': Memory, t: Shape, parent: Ptr, parent': Ptr)
    requires Rep(mem, t, parent) && Distinct(Flat(t))
    requires forall q <- Flat(t) :: q in mem && q != Root(t) ==> q in mem' && SameLinks(mem[q], mem'[q])
    requires t.Branch? ==>
              && t.p in mem' && mem'[t.p].left == mem[t.p].left && mem'[t.p].right == mem[t.p].right
              && mem'[t.p].parent == parent'
    ensures Rep(mem', t, parent')
  {
    if t.Branch? {
      ApartBranch(t);
      RepFrame(mem, mem', t.l, t.p);
      RepFrame(mem, mem', t.r, t.p);
    }
  }

  // ---------- rotations ----------

  function RotL(t: Shape): Shape
    requires t.Branch? && t.r.Branch?
  {
    Branch(Branch(t.l, t.p, t.r.l), t.r.p, t.r.r)
  }

  function RotR(t: Shape): Shape
    requires t.Branch? && t.l.Branch?
  {
    Branch(t.l.l, t.l.p, Branch(t.l.r, t.p, t.r))
  }

  /** A rotation does not change the in-order sequence. */
  lemma RotationKeepsOrder(t: Shape)
    requires t.Branch?
    ensures t.r.Branch? ==> Flat(RotL(t)) == Flat(t)
    ensures t.l.Branch? ==> Flat(RotR(t)) == Flat(t)
  {
    if t.r.Branch? {
      Reassociate(Flat(t.l), [t.p], Flat(t.r.l), [t.r.p], Flat(t.r.r));
    }
    if t.l.Branch? {
      Reassociate(Flat(t.l.l), [t.l.p], Flat(t.l.r), [t.p], Flat(t.r));
    }
  }

  /** The pointer writes of left_rotate at x: x goes down, its right child y comes up. */
  ghost predicate LeftRotates(mem: Memory, mem': Memory, x: Ptr)
    requires x in mem && mem[x].right in mem
  {
    var y := mem[x].right;
    var b, p := mem[y].left, mem[x].parent;
    && mem'.Keys == mem.Keys
    && (forall n <- mem :: mem'[n].stamp == mem[n].stamp && mem'[n].weight == mem[n].weight)
    && (forall n <- mem :: mem'[n].left == if n == y then x else if n == p && mem[p].left == x then y else mem[n].left)
    && (forall n <- mem :: mem'[n].right == if n == x then b else if n == p &&
        mem[p].left != x then y else mem[n].right)
    && (forall n <- mem :: mem'[n].parent == if n == x then y else if n == y then p else if n == b then x
        else mem[n].parent)
  }

  lemma LeftRotationSpares(mem: Memory, mem': Memory, x: Ptr, s: seq<Ptr>)
    requires x in mem && mem[x].right in mem && LeftRotates(mem, mem', x)
    requires x !in s && mem[x].right !in s && mem[mem[x].right].left !in s && mem[x].parent !in s
    ensures Agree(mem, mem', s)
  {}

  /** Where the four addresses a left rotation writes to are, and are not. */
  lemma LeftRotationApart(c: Ctx, t: Shape)
    requires t.Branch? && t.r.Branch? && Distinct(Before(c) + Flat(t) + After(c)) && NULL !in Flat(t)
    ensures var s := Flat(t.l); t.p !in s && t.r.p !in s && Root(t.r.l) !in s && Up(c) !in s
    ensures var s := Flat(t.r.r); t.p !in s && t.r.p !in s && Root(t.r.l) !in s && Up(c) !in s
    ensures var s := Flat(t.r.l); t.p !in s && t.r.p !in s && Up(c) !in s && Distinct(s)
    ensures t.p != t.r.p && t.p != Root(t.r.l) && t.p != Up(c) && t.r.p != Root(t.r.l) && t.r.p != Up(c)
  {
    ApartCtx(c, t);
    ApartBranch(t);
    ApartBranch(t.r);
    Heads(c, t.r.l);
    Heads(c, t.r);
  }

  lemma LeftRotatedRep(mem: Memory, mem': Memory, c: Ctx, t: Shape)
    requires t.Branch? && t.r.Branch? && NULL !in mem && NULL !in Flat(t)
    requires RepCtx(mem, c, t.p) && Rep(mem, t, Up(c)) && Distinct(Before(c) + Flat(t) + After(c))
    requires mem[t.p].right in mem && LeftRotates(mem, mem', t.p)
    ensures RepCtx(mem', c, t.r.p) && Rep(mem', RotL(t), Up(c))
  {
    LeftRotationApart(c, t);
    LeftRotationSpares(mem, mem', t.p, Flat(t.l));
    LeftRotationSpares(mem, mem', t.p, Flat(t.r.r));
    RepFrame(mem, mem', t.l, t.p);
    RepFrame(mem, mem', t.r.r, t.r.p);
    Reparent(mem, mem', t.r.l, t.r.p, t.p);
    LeftRotatedCtx(mem, mem', c, t);
  }

  lemma LeftRotatedCtx(mem: Memory, mem': Memory, c: Ctx, t: Shape)
    requires t.Branch? && t.r.Branch? && NULL !in mem
    requires RepCtx(mem, c, t.p) && Rep(mem, t, Up(c)) && Distinct(Before(c) + Flat(t) + After(c))
    requires mem[t.p].right in mem && LeftRotates(mem, mem', t.p)
    ensures RepCtx(mem', c, t.r.p)
  {
    ApartCtx(c, t);
    ApartBranch(t);
    Heads(c, t.r.l);
    Heads(c, t.r);
    if c.InRight? { OtherChild(c, t); }
    RetargetCtx(mem, mem', c, t.p, t.r.p);
  }

  /** The pointer writes of right_rotate at x: x goes down, its left child y comes up. */
  ghost predicate RightRotates(mem: Memory, mem': Memory, x: Ptr)
    requires x in mem && mem[x].left in mem
  {
    var y := mem[x].left;
    var b, p := mem[y].right, mem[x].parent;
    && mem'.Keys == mem.Keys
    && (forall n <- mem :: mem'[n].stamp == mem[n].stamp && mem'[n].weight == mem[n].weight)
    && (forall n <- mem :: mem'[n].right == if n == y then x else if n == p &&
        mem[p].left != x then y else mem[n].right)
    && (forall n <- mem :: mem'[n].left == if n == x then b else if n == p && mem[p].left == x then y else mem[n].left)
    && (forall n <- mem :: mem'[n].parent == if n == x then y else if n == y then p else if n == b then x
        else mem[n].parent)
  }

  lemma RightRotationSpares(mem: Memory, mem': Memory, x: Ptr, s: seq<Ptr>)
    requires x in mem && mem[x].left in mem && RightRotates(mem, mem', x)
    requires x !in s && mem[x].left !in s && mem[mem[x].left].right !in s && mem[x].parent !in s
    ensures Agree(mem, mem', s)
  {}

  /** Where the four addresses a right rotation writes to are, and are not. */
  lemma RightRotationApart(c: Ctx, t: Shape)
    requires t.Branch? && t.l.Branch? && Distinct(Before(c) + Flat(t) + After(c)) && NULL !in Flat(t)
    ensures var s := Flat(t.r); t.p !in s && t.l.p !in s && Root(t.l.r) !in s && Up(c) !in s
    ensures var s := Flat(t.l.l); t.p !in s && t.l.p !in s && Root(t.l.r) !in s && Up(c) !in s
    ensures var s := Flat(t.l.r); t.p !in s && t.l.p !in s && Up(c) !in s && Distinct(s)
    ensures t.p != t.l.p && t.p != Root(t.l.r) && t.p != Up(c) && t.l.p != Root(t.l.r) && t.l.p != Up(c)
  {
    ApartCtx(c, t);
    ApartBranch(t);
    ApartBranch(t.l);
    Heads(c, t.l.r);
    Heads(c, t.l);
  }

  lemma RightRotatedRep(mem: Memory, mem': Memory, c: Ctx, t: Shape)
    requires t.Branch? && t.l.Branch? && NULL !in mem && NULL !in Flat(t)
    requires RepCtx(mem, c, t.p) && Rep(mem, t, Up(c)) && Distinct(Before(c) + Flat(t) + After(c))
    requires mem[t.p].left in mem && RightRotates(mem, mem', t.p)
    ensures RepCtx(mem', c, t.l.p) && Rep(mem', RotR(t), Up(c))
  {
    RightRotationApart(c, t);
    RightRotationSpares(mem, mem', t.p, Flat(t.r));
    RightRotationSpares(mem, mem', t.p, Flat(t.l.l));
    RepFrame(mem, mem', t.r, t.p);
    RepFrame(mem, mem', t.l.l, t.l.p);
    Reparent(mem, mem', t.l.r, t.l.p, t.p);
    RightRotatedCtx(mem, mem', c, t);
  }

  lemma RightRotatedCtx(mem: Memory, mem': Memory, c: Ctx, t: Shape)
    requires t.Branch? && t.l.Branch? && NULL !in mem
    requires RepCtx(mem, c, t.p) && Rep(mem, t, Up(c)) && Distinct(Before(c) + Flat(t) + After(c))
    requires mem[t.p].left in mem && RightRotates(mem, mem', t.p)
    ensures RepCtx(mem', c, t.l.p)
  {
    ApartCtx(c, t);
    ApartBranch(t);
    Heads(c, t.l.r);
    Heads(c, t.l);
    if c.InRight? { OtherChild(c, t); }
    RetargetCtx(mem, mem', c, t.p, t.l.p);
  }

  function Max(a: int, b: int): int { if a > b then a else b }

  /** height(): -1 for a missing node. */
  function Height(mem: Memory, n: Ptr): int {
    if n in mem then mem[n].height else -1
  }

  function NewHeight(mem: Memory, n: Ptr): nat
    requires n in mem
  {
    1 + Max(Height(mem, mem[n].left), Height(mem, mem[n].right))
  }

  /** balance_factor(), on whatever heights are stored. */
  function BalanceFactor(mem: Memory, n: Ptr): int
    requires n in mem
  {
    Height(mem, mem[n].left) - Height(mem, mem[n].right)
  }

  /** The parent of u now has v where it had u. */
  function Replaced(mem: Memory, p: Ptr, u: Ptr, v: Ptr): Memory {
    if p !in mem then mem
    else if mem[p].left == u then mem[p := mem[p].(left := v)]
    else mem[p := mem[p].(right := v)]
  }

  /** n, if there is such a node, now has the parent p. */
  function Adopted(mem: Memory, n: Ptr, p: Ptr): Memory {
    if n in mem then mem[n := mem[n].(parent := p)] else mem
  }

  /** left_rotate, write by write. */
  function LeftRotated(mem: Memory, x: Ptr): Memory
    requires x in mem && mem[x].right in mem
  {
    var y := mem[x].right;
    var m1 := mem[x := mem[x].(right := mem[y].left)];
    var m2 := Adopted(m1, m1[y].left, x);
    var m3 := m2[y := m2[y].(parent := m2[x].parent)];
    var m4 := Replaced(m3, m3[x].parent, x, y);
    var m5 := m4[y := m4[y].(left := x)];
    var m6 := m5[x := m5[x].(parent := y)];
    var m7 := m6[x := m6[x].(height := NewHeight(m6, x))];
    m7[y := m7[y].(height := NewHeight(m7, y))]
  }

  /** The four addresses written by a left rotation are different nodes. */
  ghost predicate LeftRotatable(mem: Memory, x: Ptr) {
    && NULL !in mem && x in mem && mem[x].right in mem
    && var y := mem[x].right; var b, p := mem[y].left, mem[x].parent;
    && (b != NULL ==> b in mem) && (p != NULL ==> p in mem)
    && x != y && x != b && x != p && y != b && y != p && (b == p ==> b == NULL)
  }

  lemma LeftRotatedKeys(mem: Memory, x: Ptr)
    requires LeftRotatable(mem, x)
    ensures LeftRotated(mem, x).Keys == mem.Keys
  {}

  lemma LeftRotatedData(mem: Memory, x: Ptr)
    requires LeftRotatable(mem, x)
    ensures var mem' := LeftRotated(mem, x);
            forall n <- mem :: mem'[n].stamp == mem[n].stamp && mem'[n].weight == mem[n].weight
  {}

  lemma LeftRotatedLefts(mem: Memory, x: Ptr)
    requires LeftRotatable(mem, x)
    ensures var y := mem[x].right; var p, mem' := mem[x].parent, LeftRotated(mem, x);
            forall n <- mem :: mem'[n].left == if n == y then x else if n == p &&
                mem[p].left == x then y else mem[n].left
  {}

  lemma LeftRotatedRights(mem: Memory, x: Ptr)
    requires LeftRotatable(mem, x)
    ensures var y := mem[x].right; var b, p, mem' := mem[y].left, mem[x].parent, LeftRotated(mem, x);
            forall n <- mem :: mem'[n].right == if n == x then b else if n == p &&
                mem[p].left != x then y else mem[n].right
  {}

  lemma LeftRotatedParents(mem: Memory, x: Ptr)
    requires LeftRotatable(mem, x)
    ensures var y := mem[x].right; var b, p, mem' := mem[y].left, mem[x].parent, LeftRotated(mem, x);
            forall n <- mem :: mem'[n].parent == if n == x then y else if n == y then p else if n == b then x
                else mem[n].parent
  {}

  lemma LeftRotatedLinks(mem: Memory, x: Ptr)
    requires LeftRotatable(mem, x)
    ensures LeftRotates(mem, LeftRotated(mem, x), x)
  {
    LeftRotatedKeys(mem, x);
    LeftRotatedData(mem, x);
    LeftRotatedLefts(mem, x);
    LeftRotatedRights(mem, x);
    LeftRotatedParents(mem, x);
  }

  /** right_rotate, write by write. */
  function RightRotated(mem: Memory, x: Ptr): Memory
    requires x in mem && mem[x].left in mem
  {
    var y := mem[x].left;
    var m1 := mem[x := mem[x].(left := mem[y].right)];
    var m2 := Adopted(m1, m1[y].right, x);
    var m3 := m2[y := m2[y].(parent := m2[x].parent)];
    var m4 := Replaced(m3, m3[x].parent, x, y);
    var m5 := m4[y := m4[y].(right := x)];
    var m6 := m5[x := m5[x].(parent := y)];
    var m7 := m6[x := m6[x].(height := NewHeight(m6, x))];
    m7[y := m7[y].(height := NewHeight(m7, y))]
  }

  /** The four addresses written by a right rotation are different nodes. */
  ghost predicate RightRotatable(mem: Memory, x: Ptr) {
    && NULL !in mem && x in mem && mem[x].left in mem
    && var y := mem[x].left; var b, p := mem[y].right, mem[x].parent;
    && (b != NULL ==> b in mem) && (p != NULL ==> p in mem)
    && x != y && x != b && x != p && y != b && y != p && (b == p ==> b == NULL)
  }

  lemma RightRotatedKeys(mem: Memory, x: Ptr)
    requires RightRotatable(mem, x)
    ensures RightRotated(mem, x).Keys == mem.Keys
  {}

  lemma RightRotatedData(mem: Memory, x: Ptr)
    requires RightRotatable(mem, x)
    ensures var mem' := RightRotated(mem, x);
            forall n <- mem :: mem'[n].stamp == mem[n].stamp && mem'[n].weight == mem[n].weight
  {}

  lemma RightRotatedRights(mem: Memory, x: Ptr)
    requires RightRotatable(mem, x)
    ensures var y := mem[x].left; var p, mem' := mem[x].parent, RightRotated(mem, x);
            forall n <- mem :: mem'[n].right == if n == y then x else if n == p &&
                mem[p].left != x then y else mem[n].right
  {}

  lemma RightRotatedLefts(mem: Memory, x: Ptr)
    requires RightRotatable(mem, x)
    ensures var y := mem[x].left; var b, p, mem' := mem[y].right, mem[x].parent, RightRotated(mem, x);
            forall n <- mem :: mem'[n].left == if n == x then b else if n == p &&
                mem[p].left == x then y else mem[n].left
  {}

  lemma RightRotatedParents(mem: Memory, x: Ptr)
    requires RightRotatable(mem, x)
    ensures var y := mem[x].left; var b, p, mem' := mem[y].right, mem[x].parent, RightRotated(mem, x);
            forall n <- mem :: mem'[n].parent == if n == x then y else if n == y then p else if n == b then x
                else mem[n].parent
  {}

  lemma RightRotatedLinks(mem: Memory, x: Ptr)
    requires RightRotatable(mem, x)
    ensures RightRotates(mem, RightRotated(mem, x), x)
  {
    RightRotatedKeys(mem, x);
    RightRotatedData(mem, x);
    RightRotatedRights(mem, x);
    RightRotatedLefts(mem, x);
    RightRotatedParents(mem, x);
  }

  // ---------- the tree as a whole ----------

  /** Strict lexicographic order on stamps: older before newer. */
  predicate Less(a: Stamp, b: Stamp) {
    || a.sec < b.sec
    || (a.sec == b.sec && a.usec < b.usec)
    || (a.sec == b.sec && a.usec == b.usec && a.item < b.item)
  }

  /** compare_nodes. */
  function CompareNodes(a: Stamp, b: Stamp): (c: int)
    ensures c < 0 <==> Less(a, b)
    ensures c == 0 <==> a == b
    ensures c > 0 <==> Less(b, a)
  {
    if a.sec != b.sec then (if a.sec < b.sec then -1 else 1)
    else if a.usec != b.usec then (if a.usec < b.usec then -1 else 1)
    else if a.item < b.item then -1
    else if a.item > b.item then 1
    else 0
  }

  /** Strictly increasing stamps. */
  ghost predicate Increasing(mem: Memory, s: seq<Ptr>) {
    s != [] ==> Below(mem, [s[0]], s[1..]) && Increasing(mem, s[1..])
  }

  ghost predicate Below(mem: Memory, a: seq<Ptr>, b: seq<Ptr>) {
    forall p <- a, q <- b :: p in mem && q in mem ==> Less(mem[p].stamp, mem[q].stamp)
  }

  lemma {:induction false} IncreasingSplit(mem: Memory, a: seq<Ptr>, b: seq<Ptr>)
    ensures Increasing(mem, a + b) <==> Increasing(mem, a) && Increasing(mem, b) && Below(mem, a, b)
    decreases a
  {
    if a == [] {
      assert a + b == b;
    } else {
      assert (a + b)[1..] == a[1..] + b;
      IncreasingSplit(mem, a[1..], b);
      assert forall q :: q in a <==> q == a[0] || q in a[1..];
      assert forall q :: q in a[1..] + b <==> q in a[1..] || q in b;
      assert a[0] in [a[0]];
    }
  }

  lemma {:induction false} SameStamps(mem: Memory, mem': Memory, s: seq<Ptr>)
    requires forall q <- s :: q in mem && q in mem' && mem'[q].stamp == mem[q].stamp
    ensures Increasing(mem', s) <==> Increasing(mem, s)
    decreases s
  {
    if s != [] {
      SameStamps(mem, mem', s[1..]);
    }
  }

  /** The pointers in memory form the search tree t: all of memory, each node once, parents and
      children agreeing, strictly increasing stamps from left to right. */
  ghost predicate IsTree(mem: Memory, root: Ptr, t: Shape) {
    && NULL !in mem && root == Root(t) && Rep(mem, t, NULL)
    && Elems(Flat(t)) == mem.Keys
    && Distinct(Flat(t)) && Increasing(mem, Flat(t))
  }

  /** Same nodes in the same order, differently arranged. */
  lemma Rearranged(mem: Memory, mem': Memory, root: Ptr, t: Shape, root': Ptr, t': Shape)
    requires IsTree(mem, root, t) && Rep(mem', t', NULL) && root' == Root(t')
    requires mem'.Keys == mem.Keys && (forall q <- mem :: mem'[q].stamp == mem[q].stamp)
    requires Flat(t') == Flat(t)
    ensures IsTree(mem', root', t')
  {
    ElemsIn(Flat(t));
    SameStamps(mem, mem', Flat(t));
  }

  function Size(t: Shape): nat { if t.Leaf? then 0 else Size(t.l) + 1 + Size(t.r) }

  /** Every stored weight is the size of the right subtree. */
  ghost predicate Weights(mem: Memory, t: Shape) {
    t.Branch? ==> t.p in mem && mem[t.p].weight == Size(t.r) && Weights(mem, t.l) && Weights(mem, t.r)
  }

  /** The same along a context whose hole holds n nodes. */
  ghost predicate WeightsCtx(mem: Memory, c: Ctx, n: int) {
    match c
    case Top => true
    case InLeft(p, r, up) => p in mem && mem[p].weight == Size(r) && Weights(mem, r) &&
        WeightsCtx(mem, up, n + 1 + Size(r))
    case InRight(l, p, up) => p in mem && mem[p].weight == n && Weights(mem, l) && WeightsCtx(mem, up, n + 1 + Size(l))
  }

  lemma {:induction false} PlugWeights(mem: Memory, c: Ctx, t: Shape)
    ensures Weights(mem, Plug(c, t)) <==> WeightsCtx(mem, c, Size(t)) && Weights(mem, t)
    decreases c
  {
    match c
    case Top =>
    case InLeft(p, r, up) => PlugWeights(mem, up, Branch(t, p, r));
    case InRight(l, p, up) => PlugWeights(mem, up, Branch(l, p, t));
  }

  ghost predicate SameWeights(mem: Memory, mem': Memory, s: seq<Ptr>) {
    forall q <- s :: q in mem ==> q in mem' && mem'[q].weight == mem[q].weight
  }

  lemma {:induction false} WeightsFrame(mem: Memory, mem': Memory, t: Shape)
    requires Weights(mem, t) && SameWeights(mem, mem', Flat(t))
    ensures Weights(mem', t)
    decreases t
  {
    if t.Branch? {
      assert forall q :: q in Flat(t.l) || q in Flat(t.r) || q == t.p ==> q in Flat(t);
      WeightsFrame(mem, mem', t.l);
      WeightsFrame(mem, mem', t.r);
    }
  }

  lemma {:induction false} WeightsCtxFrame(mem: Memory, mem': Memory, c: Ctx, n: int)
    requires WeightsCtx(mem, c, n) && SameWeights(mem, mem', Before(c)) && SameWeights(mem, mem', After(c))
    ensures WeightsCtx(mem', c, n)
    decreases c
  {
    match c
    case Top =>
    case InLeft(p, r, up) =>
      assert forall q :: q in After(up) || q in Flat(r) || q == p ==> q in After(c);
      WeightsFrame(mem, mem', r);
      WeightsCtxFrame(mem, mem', up, n + 1 + Size(r));
    case InRight(l, p, up) =>
      assert forall q :: q in Before(up) || q in Flat(l) || q == p ==> q in Before(c);
      WeightsFrame(mem, mem', l);
      WeightsCtxFrame(mem, mem', up, n + 1 + Size(l));
  }

  /** The rotations leave the weight fields alone, and that is always wrong: whatever stands around
      them, no rotated subtree with right weights has right weights afterwards. */
  lemma RotationsBreakWeights(mem: Memory, t: Shape)
    requires t.Branch? && Weights(mem, t)
    ensures t.r.Branch? ==> !Weights(mem, RotL(t))
    ensures t.l.Branch? ==> !Weights(mem, RotR(t))
    ensures t.l.Branch? && t.l.r.Branch? ==> !Weights(mem, RotR(t.(l := RotL(t.l))))
    ensures t.r.Branch? && t.r.l.Branch? ==> !Weights(mem, RotL(t.(r := RotR(t.r))))
  {}
}
