/** Stored heights in the shadow tree of src/shadows.c: when an insert or a removal rotates, told from the memory before
    it, and why the fix-up climb ends although stored heights may be stale. */
module ShadowHeights {
  import opened Basics
  import opened Addresses
  import opened ShadowShapes
  import opened ShadowEdits
  import opened ShadowRemoval

  /** The other child of the parent of the hole. */
  function Sibling(c: Ctx): Ptr
    requires !c.Top?
  {
    if c.InLeft? then Root(c.r) else Root(c.l)
  }

  predicate Tilted(hl: int, hr: int) { hl - hr <= -2 || hl - hr >= 2 }

  /** insert_tree_node, with the node in the hole of c now h high, rotates: going up, some grandparent is out of balance
      between the refreshed height of the parent and the stored height on its other side. */
  ghost predicate Unbalances(mem: Memory, c: Ctx, h: int)
    decreases c
  {
    !c.Top? && !c.up.Top? &&
    var up := 1 + Max(h, Height(mem, Sibling(c)));
    Tilted(up, Height(mem, Sibling(c.up))) || Unbalances(mem, c.up, up)
  }

  /** The grandparent of t after one of the four rotation cases. */
  function Straightened(c: Ctx, t: Shape): Shape
    requires !c.Top? && !c.up.Top? && t.Branch?
  {
    var g := Above(c.up, Above(c, t));
    if c.up.InLeft? then (if c.InLeft? then RotR(g) else RotR(g.(l := RotL(g.l))))
    else (if c.InRight? then RotL(g) else RotL(g.(r := RotR(g.r))))
  }

  /** The whole tree after the climb that starts at t, h high, in the hole of c. */
  ghost function Settled(mem: Memory, c: Ctx, t: Shape, h: int): Shape
    requires t.Branch?
    decreases c
  {
    if c.Top? || c.up.Top? then Plug(c, t)
    else
      var up := 1 + Max(h, Height(mem, Sibling(c)));
      if Tilted(up, Height(mem, Sibling(c.up))) then Plug(c.up.up, Straightened(c, t))
      else Settled(mem, c.up, Above(c, t), up)
  }

  /** The hole that the descent of insert_tree_node finds for a stamp below t. */
  ghost function Hole(mem: Memory, t: Shape, stamp: Stamp, c: Ctx): Ctx
    decreases t
  {
    if t.Leaf? || t.p !in mem then c
    else if CompareNodes(stamp, mem[t.p].stamp) < 0 then Hole(mem, t.l, stamp, InLeft(t.p, t.r, c))
    else Hole(mem, t.r, stamp, InRight(t.l, t.p, c))
  }

  /** The two memories agree on the heights the climb from the hole of c reads besides those it writes. */
  ghost predicate SameAlong(mem: Memory, mem': Memory, c: Ctx) {
    c.Top? || (Height(mem', Sibling(c)) == Height(mem, Sibling(c)) && SameAlong(mem, mem', c.up))
  }

  /** Heights differ at a and b at most. */
  ghost predicate Elsewhere(mem: Memory, mem': Memory, a: Ptr, b: Ptr) {
    forall q :: q != a && q != b ==> Height(mem', q) == Height(mem, q)
  }

  lemma {:induction false} SameAlongFrame(mem0: Memory, mem: Memory, mem': Memory, c: Ctx, x: Ptr)
    requires SameAlong(mem0, mem, c) && Elsewhere(mem, mem', x, x) && x != NULL && x !in Before(c) && x !in After(c)
    ensures SameAlong(mem0, mem', c)
    decreases c
  {
    if !c.Top? {
      SiblingInside(c);
      SameAlongFrame(mem0, mem, mem', c.up, x);
    }
  }

  lemma {:induction false} SameAlongSelf(mem: Memory, c: Ctx)
    ensures SameAlong(mem, mem, c)
    decreases c
  {
    if !c.Top? { SameAlongSelf(mem, c.up); }
  }

  /** The climb looks at those heights only. */
  lemma {:induction false} UnbalancesFrame(mem: Memory, mem': Memory, c: Ctx, t: Shape, h: int)
    requires SameAlong(mem, mem', c) && t.Branch?
    ensures Unbalances(mem', c, h) <==> Unbalances(mem, c, h)
    ensures Settled(mem', c, t, h) == Settled(mem, c, t, h)
    decreases c
  {
    if !c.Top? && !c.up.Top? {
      UnbalancesFrame(mem, mem', c.up, Above(c, t), 1 + Max(h, Height(mem, Sibling(c))));
    }
  }

  /** The sibling, and what is outside the parent, belong to the context. */
  lemma SiblingInside(c: Ctx)
    requires !c.Top?
    ensures Sibling(c) == NULL || Sibling(c) in Before(c) || Sibling(c) in After(c)
    ensures forall q <- Before(c.up) :: q in Before(c)
    ensures forall q <- After(c.up) :: q in After(c)
    ensures c.p in Before(c) || c.p in After(c)
  {
    Heads(c, if c.InLeft? then c.r else c.l);
  }

  /** The parent of t points at t and at the sibling. */
  lemma BothChildren(mem: Memory, root: Ptr, c: Ctx, t: Shape)
    requires IsTree(mem, root, Plug(c, t)) && t.Branch? && !c.Top?
    ensures c.p in mem && t.p in mem && NULL !in mem && Sibling(c) != t.p && c.p != t.p
    ensures c.InLeft? ==> mem[c.p].left == t.p && mem[c.p].right == Sibling(c)
    ensures c.InRight? ==> mem[c.p].right == t.p && mem[c.p].left == Sibling(c)
    ensures t.p !in Before(c) && t.p !in After(c)
  {
    Climb(mem, root, c, t);
    Focus(mem, root, c, t);
    OtherChild(c, t);
    ApartCtx(c, t);
    Heads(c, t);
  }

  function Refreshed(mem: Memory, p: Ptr): Memory
    requires p in mem
  {
    mem[p := mem[p].(height := NewHeight(mem, p))]
  }

  lemma RefreshedElsewhere(mem: Memory, p: Ptr)
    requires p in mem
    ensures Elsewhere(mem, Refreshed(mem, p), p, p)
  {}

  predicate OutOfBalance(mem: Memory, p: Ptr)
    requires p in mem
  {
    BalanceFactor(mem, p) <= -2 || BalanceFactor(mem, p) >= 2
  }

  /** A rotation where there is one to do. */
  ghost function TurnL(mem: Memory, x: Ptr): Memory { if LeftRotatable(mem, x) then LeftRotated(mem, x) else mem }

  ghost function TurnR(mem: Memory, x: Ptr): Memory { if RightRotatable(mem, x) then RightRotated(mem, x) else mem }

  /** The memory after one of the four rotation cases at the grandparent of the hole of c. */
  ghost function Twisted(mem: Memory, c: Ctx): Memory
    requires !c.Top? && !c.up.Top?
  {
    if c.up.InLeft? then TurnR(if c.InLeft? then mem else TurnL(mem, c.p), c.up.p)
    else TurnL(if c.InRight? then mem else TurnR(mem, c.p), c.up.p)
  }

  /** The memory after the climb of insert_tree_node from the hole of c: one height after the other is refreshed, up to
      the first grandparent out of balance, which is rotated. */
  ghost function Climbed(mem: Memory, c: Ctx): Memory
    decreases c
  {
    if c.Top? || c.p !in mem then mem
    else
      var m := Refreshed(mem, c.p);
      if !c.up.Top? && c.up.p in m && OutOfBalance(m, c.up.p) then Twisted(m, c) else Climbed(m, c.up)
  }

  /** One turn of the climb: the parent gets the height that the node below it and the sibling give, and the
      grandparent is out of balance if that height and its other side's are two apart. */
  lemma ClimbTurn(mem0: Memory, mem: Memory, root: Ptr, c: Ctx, t: Shape)
    requires IsTree(mem, root, Plug(c, t)) && t.Branch? && !c.Top? && SameAlong(mem0, mem, c)
    ensures c.p in mem && t.p in mem && SameAlong(mem0, Refreshed(mem, c.p), c.up)
    ensures NewHeight(mem, c.p) == 1 + Max(mem[t.p].height, Height(mem0, Sibling(c)))
    ensures !c.up.Top? ==>
              && c.up.p in mem
              && (OutOfBalance(Refreshed(mem, c.p), c.up.p) <==>
                    Tilted(NewHeight(mem, c.p), Height(mem0, Sibling(c.up))))
  {
    var t1 := Above(c, t);
    BothChildren(mem, root, c, t);
    RefreshedElsewhere(mem, c.p);
    assert Plug(c.up, t1) == Plug(c, t);
    if !c.up.Top? { BothChildren(mem, root, c.up, t1); }
    SameAlongFrame(mem0, mem, Refreshed(mem, c.p), c.up, c.p);
  }

  /** Whether the test of one turn sees a tilt settles that turn of Unbalances and Settled. */
  lemma InsertTurn(mem0: Memory, mem: Memory, root: Ptr, c: Ctx, t: Shape)
    requires IsTree(mem, root, Plug(c, t)) && t.Branch? && !c.Top? && SameAlong(mem0, mem, c)
    ensures c.p in mem && t.p in mem && SameAlong(mem0, Refreshed(mem, c.p), c.up) && (!c.up.Top? ==> c.up.p in mem)
    ensures var h, up := mem[t.p].height, NewHeight(mem, c.p);
            if !c.up.Top? && OutOfBalance(Refreshed(mem, c.p), c.up.p)
            then Unbalances(mem0, c, h) && Settled(mem0, c, t, h) == Plug(c.up.up, Straightened(c, t))
            else && (Unbalances(mem0, c, h) <==> Unbalances(mem0, c.up, up))
                 && Settled(mem0, c, t, h) == Settled(mem0, c.up, Above(c, t), up)
    ensures var m := Refreshed(mem, c.p);
            Climbed(mem, c) == if !c.up.Top? && OutOfBalance(m, c.up.p) then Twisted(m, c) else Climbed(m, c.up)
  {
    ClimbTurn(mem0, mem, root, c, t);
    InsertStep(mem0, c, t, mem[t.p].height);
  }

  lemma InsertStep(mem: Memory, c: Ctx, t: Shape, h: int)
    requires t.Branch? && !c.Top?
    ensures var up := 1 + Max(h, Height(mem, Sibling(c)));
            if !c.up.Top? && Tilted(up, Height(mem, Sibling(c.up)))
            then Unbalances(mem, c, h) && Settled(mem, c, t, h) == Plug(c.up.up, Straightened(c, t))
            else && (Unbalances(mem, c, h) <==> Unbalances(mem, c.up, up))
                 && Settled(mem, c, t, h) == Settled(mem, c.up, Above(c, t), up)
  {}

  /** What is known of heights at the moment of attachment. */
  lemma AttachedHeights(mem: Memory, root: Ptr, c: Ctx, n: Ptr, stamp: Stamp)
    requires IsTree(mem, root, Plug(c, Leaf)) && n != NULL && n !in mem
    ensures var m := Attached(Bumped(mem, c, 1), c, n, stamp);
            SameAlong(mem, m, c) && n in m && m[n].height == 1
  {
    var m := Attached(Bumped(mem, c, 1), c, n, stamp);
    Focus(mem, root, c, Leaf);
    BumpedHeights(mem, c, 1);
    assert Elsewhere(mem, m, n, n) && n in m && m[n].height == 1 by {
      assert !c.Top? ==> c.p in mem;
      AttachedData(Bumped(mem, c, 1), c, n, stamp);
    }
    PlugFlat(c, Leaf);
    ElemsIn(Flat(Plug(c, Leaf)));
    SameAlongSelf(mem, c);
    SameAlongFrame(mem, mem, m, c, n);
  }

  lemma {:induction false} BumpedHeights(mem: Memory, c: Ctx, d: int)
    ensures Bumped(mem, c, d).Keys == mem.Keys && forall q <- mem :: Bumped(mem, c, d)[q].height == mem[q].height
    decreases c
  {
    if !c.Top? { BumpedHeights(mem, c.up, d); }
  }

  // ---------- rotations ----------

  /** The heights after a left rotation of t: two are computed anew, bottom up, and the others stay. */
  ghost predicate TurnedLeft(mem: Memory, mem': Memory, t: Shape)
    requires t.Branch? && t.r.Branch?
  {
    && Elsewhere(mem, mem', t.p, t.r.p)
    && Height(mem', t.p) == 1 + Max(Height(mem, Root(t.l)), Height(mem, Root(t.r.l)))
    && Height(mem', t.r.p) == 1 + Max(Height(mem', t.p), Height(mem, Root(t.r.r)))
  }

  ghost predicate TurnedRight(mem: Memory, mem': Memory, t: Shape)
    requires t.Branch? && t.l.Branch?
  {
    && Elsewhere(mem, mem', t.p, t.l.p)
    && Height(mem', t.p) == 1 + Max(Height(mem, Root(t.l.r)), Height(mem, Root(t.r)))
    && Height(mem', t.l.p) == 1 + Max(Height(mem, Root(t.l.l)), Height(mem', t.p))
  }

  lemma LeftRotatedHeights(mem: Memory, x: Ptr)
    requires LeftRotatable(mem, x) && mem[x].left != mem[x].right && mem[x].left != x && mem[mem[x].right].right != x
    requires mem[mem[x].right].right != mem[x].right
    ensures var y, mem' := mem[x].right, LeftRotated(mem, x);
            && mem'.Keys == mem.Keys && Elsewhere(mem, mem', x, y)
            && mem'[x].height == 1 + Max(Height(mem, mem[x].left), Height(mem, mem[y].left))
            && mem'[y].height == 1 + Max(mem'[x].height, Height(mem, mem[y].right))
  {}

  lemma RightRotatedHeights(mem: Memory, x: Ptr)
    requires RightRotatable(mem, x) && mem[x].left != mem[x].right && mem[x].right != x && mem[mem[x].left].left != x
    requires mem[mem[x].left].left != mem[x].left
    ensures var y, mem' := mem[x].left, RightRotated(mem, x);
            && mem'.Keys == mem.Keys && Elsewhere(mem, mem', x, y)
            && mem'[x].height == 1 + Max(Height(mem, mem[y].right), Height(mem, mem[x].right))
            && mem'[y].height == 1 + Max(Height(mem, mem[y].left), mem'[x].height)
  {}

  lemma LeftTurn(mem: Memory, root: Ptr, c: Ctx, t: Shape)
    requires IsTree(mem, root, Plug(c, t)) && t.Branch? && t.r.Branch?
    ensures LeftRotatable(mem, t.p) && TurnedLeft(mem, LeftRotated(mem, t.p), t)
  {
    LeftPointers(mem, root, c, t);
    LeftNodes(mem, root, c, t);
    LeftRotatedHeights(mem, t.p);
  }

  lemma LeftNodes(mem: Memory, root: Ptr, c: Ctx, t: Shape)
    requires IsTree(mem, root, Plug(c, t)) && t.Branch? && t.r.Branch?
    ensures t.p in mem && t.r.p in mem && mem[t.p].left == Root(t.l) && mem[t.p].right == t.r.p
    ensures mem[t.r.p].left == Root(t.r.l) && mem[t.r.p].right == Root(t.r.r)
    ensures Root(t.l) != t.r.p && Root(t.l) != t.p && Root(t.r.r) != t.p && Root(t.r.r) != t.r.p
  {
    Children(mem, root, c, t);
    Children(mem, root, InRight(t.l, t.p, c), t.r);
    SubtreeNodes(mem, root, c, t);
    ApartBranch(t);
    ApartBranch(t.r);
    Heads(c, t.l);
    Heads(c, t.r);
    Heads(c, t.r.r);
  }

  lemma RightTurn(mem: Memory, root: Ptr, c: Ctx, t: Shape)
    requires IsTree(mem, root, Plug(c, t)) && t.Branch? && t.l.Branch?
    ensures RightRotatable(mem, t.p) && TurnedRight(mem, RightRotated(mem, t.p), t)
  {
    RightPointers(mem, root, c, t);
    RightNodes(mem, root, c, t);
    RightRotatedHeights(mem, t.p);
  }

  lemma RightNodes(mem: Memory, root: Ptr, c: Ctx, t: Shape)
    requires IsTree(mem, root, Plug(c, t)) && t.Branch? && t.l.Branch?
    ensures t.p in mem && t.l.p in mem && mem[t.p].right == Root(t.r) && mem[t.p].left == t.l.p
    ensures mem[t.l.p].left == Root(t.l.l) && mem[t.l.p].right == Root(t.l.r)
    ensures Root(t.r) != t.l.p && Root(t.r) != t.p && Root(t.l.l) != t.p && Root(t.l.l) != t.l.p
  {
    Children(mem, root, c, t);
    Children(mem, root, InLeft(t.p, t.r, c), t.l);
    SubtreeNodes(mem, root, c, t);
    ApartBranch(t);
    ApartBranch(t.l);
    Heads(c, t.r);
    Heads(c, t.l);
    Heads(c, t.l.l);
  }

  // ---------- why delete_fixup ends ----------

  /** Nodes of t whose stored height is not the one their children's stored heights give. */
  ghost function Stale(mem: Memory, t: Shape): nat {
    if t.Leaf? then 0
    else
      Bit(Height(mem, t.p) != 1 + Max(Height(mem, Root(t.l)), Height(mem, Root(t.r))))
      + Stale(mem, t.l) + Stale(mem, t.r)
  }

  ghost function StaleBelow(mem: Memory, t: Shape): nat { if t.Leaf? then 0 else Stale(mem, t.l) + Stale(mem, t.r) }

  /** 0 for a balanced node; otherwise more the taller its taller side is. */
  ghost function Uneven(mem: Memory, t: Shape): nat {
    if t.Leaf? || !Tilted(Height(mem, Root(t.l)), Height(mem, Root(t.r))) then 0
    else 2 + Max(Height(mem, Root(t.l)), Height(mem, Root(t.r)))
  }

  ghost predicate Kept(mem: Memory, mem': Memory, t: Shape) {
    Stale(mem', t) == Stale(mem, t) && Height(mem', Root(t)) == Height(mem, Root(t))
  }

  /** Subtrees without the two changed nodes keep their heights. */
  lemma {:induction false} Spared(mem: Memory, mem': Memory, a: Ptr, b: Ptr, t: Shape)
    requires Elsewhere(mem, mem', a, b) && a != NULL && b != NULL && a !in Flat(t) && b !in Flat(t)
    ensures Kept(mem, mem', t)
    decreases t
  {
    if t.Branch? {
      Spared(mem, mem', a, b, t.l);
      Spared(mem, mem', a, b, t.r);
      Heads(Top, t);
    }
  }

  /** A rotation either repairs a stale height or lowers the taller side. */
  ghost predicate Calmer(mem: Memory, t: Shape, mem': Memory, g: Shape) {
    || StaleBelow(mem', g) < StaleBelow(mem, t)
    || (StaleBelow(mem', g) == StaleBelow(mem, t) && Uneven(mem', g) < Uneven(mem, t))
  }

  lemma SubtreeNodes(mem: Memory, root: Ptr, c: Ctx, t: Shape)
    requires IsTree(mem, root, Plug(c, t))
    ensures Distinct(Flat(t)) && NULL !in Flat(t)
  {
    Focus(mem, root, c, t);
    ApartCtx(c, t);
    ElemsIn(Flat(Plug(c, t)));
    PlugFlat(c, t);
  }

  lemma CalmerRight(mem: Memory, mem': Memory, t: Shape)
    requires t.Branch? && t.l.Branch? && Distinct(Flat(t)) && NULL !in Flat(t) && TurnedRight(mem, mem', t)
    requires Height(mem, t.l.p) - Height(mem, Root(t.r)) >= 2 && Height(mem, Root(t.l.l)) >= Height(mem, Root(t.l.r))
    ensures Calmer(mem, t, mem', RotR(t))
  {
    ApartBranch(t);
    ApartBranch(t.l);
    Heads(Top, t.l);
    Spared(mem, mem', t.p, t.l.p, t.l.l);
    Spared(mem, mem', t.p, t.l.p, t.l.r);
    Spared(mem, mem', t.p, t.l.p, t.r);
  }

  lemma CalmerLeft(mem: Memory, mem': Memory, t: Shape)
    requires t.Branch? && t.r.Branch? && Distinct(Flat(t)) && NULL !in Flat(t) && TurnedLeft(mem, mem', t)
    requires Height(mem, t.r.p) - Height(mem, Root(t.l)) >= 2 && Height(mem, Root(t.r.r)) >= Height(mem, Root(t.r.l))
    ensures Calmer(mem, t, mem', RotL(t))
  {
    ApartBranch(t);
    ApartBranch(t.r);
    Heads(Top, t.r);
    Spared(mem, mem', t.p, t.r.p, t.r.r);
    Spared(mem, mem', t.p, t.r.p, t.r.l);
    Spared(mem, mem', t.p, t.r.p, t.l);
  }

  /** Both sides of g are freshly computed, and what hangs below them is as it was in mem. */
  ghost predicate FreshSides(mem: Memory, mem': Memory, g: Shape)
    requires g.Branch? && g.l.Branch? && g.r.Branch?
  {
    && Height(mem', g.l.p) == 1 + Max(Height(mem, Root(g.l.l)), Height(mem, Root(g.l.r)))
    && Height(mem', g.r.p) == 1 + Max(Height(mem, Root(g.r.l)), Height(mem, Root(g.r.r)))
    && Kept(mem, mem', g.l.l) && Kept(mem, mem', g.l.r) && Kept(mem, mem', g.r.l) && Kept(mem, mem', g.r.r)
  }

  lemma SparedTwice(mem: Memory, m: Memory, mem': Memory, a: Ptr, b: Ptr, d: Ptr, t: Shape)
    requires Elsewhere(mem, m, a, b) && Elsewhere(m, mem', d, b) && a != NULL && b != NULL && d != NULL
    requires a !in Flat(t) && b !in Flat(t) && d !in Flat(t)
    ensures Kept(mem, m, t) && Kept(mem, mem', t)
  {
    Spared(mem, m, a, b, t);
    Spared(m, mem', d, b, t);
  }

  lemma LeftRightSides(mem: Memory, m: Memory, mem': Memory, t: Shape)
    requires t.Branch? && t.l.Branch? && t.l.r.Branch? && Distinct(Flat(t)) && NULL !in Flat(t)
    requires TurnedLeft(mem, m, t.l) && TurnedRight(m, mem', t.(l := RotL(t.l)))
    ensures FreshSides(mem, mem', RotR(t.(l := RotL(t.l))))
  {
    ApartBranch(t);
    ApartBranch(t.l);
    ApartBranch(t.l.r);
    Heads(Top, t.l);
    Heads(Top, t.l.r);
    var x, y, w := t.p, t.l.p, t.l.r.p;
    SparedTwice(mem, m, mem', y, w, x, t.l.l);
    SparedTwice(mem, m, mem', y, w, x, t.l.r.l);
    SparedTwice(mem, m, mem', y, w, x, t.l.r.r);
    SparedTwice(mem, m, mem', y, w, x, t.r);
  }

  lemma CalmerLeftRight(mem: Memory, mem': Memory, t: Shape)
    requires t.Branch? && t.l.Branch? && t.l.r.Branch? && FreshSides(mem, mem', RotR(t.(l := RotL(t.l))))
    requires Height(mem, t.l.p) - Height(mem, Root(t.r)) >= 2 && Height(mem, Root(t.l.l)) < Height(mem, t.l.r.p)
    ensures Calmer(mem, t, mem', RotR(t.(l := RotL(t.l))))
  {
    assert Stale(mem, t.l) == Bit(Height(mem, t.l.p) != 1 + Max(Height(mem, Root(t.l.l)), Height(mem, t.l.r.p)))
           + Stale(mem, t.l.l) + Stale(mem, t.l.r);
  }

  lemma RightLeftSides(mem: Memory, m: Memory, mem': Memory, t: Shape)
    requires t.Branch? && t.r.Branch? && t.r.l.Branch? && Distinct(Flat(t)) && NULL !in Flat(t)
    requires TurnedRight(mem, m, t.r) && TurnedLeft(m, mem', t.(r := RotR(t.r)))
    ensures FreshSides(mem, mem', RotL(t.(r := RotR(t.r))))
  {
    ApartBranch(t);
    ApartBranch(t.r);
    ApartBranch(t.r.l);
    Heads(Top, t.r);
    Heads(Top, t.r.l);
    var x, y, w := t.p, t.r.p, t.r.l.p;
    SparedTwice(mem, m, mem', y, w, x, t.r.r);
    SparedTwice(mem, m, mem', y, w, x, t.r.l.l);
    SparedTwice(mem, m, mem', y, w, x, t.r.l.r);
    SparedTwice(mem, m, mem', y, w, x, t.l);
  }

  lemma CalmerRightLeft(mem: Memory, mem': Memory, t: Shape)
    requires t.Branch? && t.r.Branch? && t.r.l.Branch? && FreshSides(mem, mem', RotL(t.(r := RotR(t.r))))
    requires Height(mem, t.r.p) - Height(mem, Root(t.l)) >= 2 && Height(mem, Root(t.r.r)) < Height(mem, t.r.l.p)
    ensures Calmer(mem, t, mem', RotL(t.(r := RotR(t.r))))
  {
    assert Stale(mem, t.r) == Bit(Height(mem, t.r.p) != 1 + Max(Height(mem, t.r.l.p), Height(mem, Root(t.r.r))))
           + Stale(mem, t.r.l) + Stale(mem, t.r.r);
  }

  function Depth(c: Ctx): nat { if c.Top? then 0 else 1 + Depth(c.up) }

  // ---------- when a removal rotates ----------

  /** delete_fixup started at a node in the hole of c, whose children are hl and hr high, rotates somewhere: that node
      is out of balance, or its refreshed height makes a node further up so. */
  ghost predicate Tilts(mem: Memory, c: Ctx, hl: int, hr: int)
    decreases c
  {
    Tilted(hl, hr) ||
    (!c.Top? &&
     var h := 1 + Max(hl, hr);
     if c.InLeft? then Tilts(mem, c.up, h, Height(mem, Sibling(c))) else Tilts(mem, c.up, Height(mem, Sibling(c)), h))
  }

  lemma {:induction false} TiltsFrame(mem: Memory, mem': Memory, c: Ctx, hl: int, hr: int)
    requires SameAlong(mem, mem', c)
    ensures Tilts(mem', c, hl, hr) <==> Tilts(mem, c, hl, hr)
    decreases c
  {
    if !c.Top? {
      var h, s := 1 + Max(hl, hr), Height(mem, Sibling(c));
      if c.InLeft? { TiltsFrame(mem, mem', c.up, h, s); } else { TiltsFrame(mem, mem', c.up, s, h); }
    }
  }

  /** The removal of t.p rotates on the way up: nothing is looked at after a leaf; otherwise the climb starts at the
      node that takes its place. */
  ghost predicate RemovalTilts(mem: Memory, c: Ctx, t: Shape)
    requires t.Branch?
  {
    if t.l.Leaf? && t.r.Leaf? then false
    else if t.l.Leaf? then Tilts(mem, c, Height(mem, Root(t.r.l)), Height(mem, Root(t.r.r)))
    else if t.r.Leaf? then Tilts(mem, c, Height(mem, Root(t.l.l)), Height(mem, Root(t.l.r)))
    else Tilts(mem, c, Height(mem, Root(t.l)), Height(mem, if t.r.l.Leaf? then Root(t.r.r) else Root(t.r)))
  }

  /** The leftmost node of t, and t without it. */
  function Least(t: Shape): Ptr
    requires t.Branch?
  {
    if t.l.Leaf? then t.p else Least(t.l)
  }

  function Lesser(t: Shape): Shape
    requires t.Branch?
  {
    if t.l.Leaf? then t.r else Branch(Lesser(t.l), t.p, t.r)
  }

  /** What takes the place of t when its top node leaves: the other child, or the successor with what is left. */
  function Vacated(t: Shape): Shape
    requires t.Branch?
  {
    if t.l.Leaf? then t.r else if t.r.Leaf? then t.l else Branch(t.l, Least(t.r), Lesser(t.r))
  }

  lemma {:induction false} LeastPlug(i: Ctx, s: Shape)
    requires AllLeft(i) && s.Branch?
    ensures Plug(i, s).Branch? && Least(Plug(i, s)) == Least(s) && Lesser(Plug(i, s)) == Plug(i, Lesser(s))
    decreases i
  {
    if !i.Top? { LeastPlug(i.up, Above(i, s)); }
  }

  lemma PromotedVacates(t: Shape, i: Ctx, y: Ptr, ry: Shape)
    requires t.Branch? && t.l.Branch? && AllLeft(i) && t.r == Plug(i, Branch(Leaf, y, ry))
    ensures Promoted(t, i, y, ry) == Vacated(t)
  {
    LeastPlug(i, Branch(Leaf, y, ry));
  }

  ghost predicate HeightsKept(mem: Memory, mem': Memory) {
    forall q <- mem' :: q in mem && mem'[q].height == mem[q].height
  }

  lemma TransplantedHeights(mem: Memory, u: Ptr, v: Ptr)
    requires u in mem
    ensures HeightsKept(mem, Transplanted(mem, u, v))
  {}

  lemma SuccessorInHeights(mem: Memory, z: Ptr, y: Ptr)
    requires y in mem && z in mem
    ensures HeightsKept(mem, SuccessorIn(mem, z, y))
  {
    DetachedHeights(mem, z, y);
    var m := Detached(mem, z, y);
    if y in m && z in m { SwappedInHeights(m, z, y); }
  }

  lemma DetachedHeights(mem: Memory, z: Ptr, y: Ptr)
    requires y in mem && z in mem
    ensures HeightsKept(mem, Detached(mem, z, y))
  {
    TransplantedHeights(mem, y, mem[y].right);
  }

  lemma SwappedInHeights(mem: Memory, z: Ptr, y: Ptr)
    requires y in mem && z in mem
    ensures HeightsKept(mem, SwappedIn(mem, z, y))
  {
    TransplantedHeights(mem, z, y);
  }

  /** The climb after a removal sees the heights of before it. */
  lemma RemovalSeen(mem: Memory, mem': Memory, root: Ptr, c: Ctx, t: Shape)
    requires t.Branch? && t.p != NULL && IsTree(mem', root, Plug(c, Vacated(t)))
    requires HeightsKept(mem, mem') && mem'.Keys == mem.Keys - {t.p} && NULL !in mem
    ensures var v := Vacated(t);
            && (Root(v) == NULL <==> v.Leaf?) && (v.Leaf? ==> !RemovalTilts(mem, c, t))
            && (v.Branch? ==>
                  (RemovalTilts(mem, c, t) <==> Tilts(mem', c, Height(mem', Root(v.l)), Height(mem', Root(v.r)))))
  {
    var v := Vacated(t);
    Focus(mem', root, c, v);
    if v.Branch? {
      Children(mem', root, c, v);
      assert Elsewhere(mem, mem', t.p, t.p);
      GoneFromContext(mem', root, c, v, t.p);
      SameAlongSelf(mem, c);
      SameAlongFrame(mem, mem, mem', c, t.p);
      TiltsFrame(mem, mem', c, Height(mem', Root(v.l)), Height(mem', Root(v.r)));
    }
  }

  lemma GoneFromContext(mem: Memory, root: Ptr, c: Ctx, v: Shape, z: Ptr)
    requires IsTree(mem, root, Plug(c, v)) && z !in mem
    ensures z !in Before(c) && z !in After(c)
  {
    ElemsIn(Flat(Plug(c, v)));
    PlugFlat(c, v);
  }

  /** One turn of delete_fixup at t: what refreshing its height changes and what it does not. */
  lemma FixupTurn(mem: Memory, root: Ptr, c: Ctx, t: Shape)
    requires IsTree(mem, root, Plug(c, t)) && t.Branch?
    ensures t.p in mem && NewHeight(mem, t.p) == 1 + Max(Height(mem, Root(t.l)), Height(mem, Root(t.r)))
    ensures var mem' := Refreshed(mem, t.p);
            && Kept(mem, mem', t.l) && Kept(mem, mem', t.r)
            && (OutOfBalance(mem', t.p) <==> Tilted(Height(mem, Root(t.l)), Height(mem, Root(t.r))))
  {
    Children(mem, root, c, t);
    assert t.p !in Flat(t.l) && t.p !in Flat(t.r) && t.p != NULL by {
      Focus(mem, root, c, t);
      ApartCtx(c, t);
      ApartBranch(t);
    }
    RefreshedElsewhere(mem, t.p);
    Spared(mem, Refreshed(mem, t.p), t.p, t.p, t.l);
    Spared(mem, Refreshed(mem, t.p), t.p, t.p, t.r);
  }

  /** Nothing has rotated on the way to t: the heights above it are those of mem0, and what is still to come decides
      whether anything will. */
  ghost predicate Traced(mem0: Memory, mem: Memory, c: Ctx, t: Shape, tilts: bool)
    requires t.Branch?
  {
    SameAlong(mem0, mem, c) && (tilts <==> Tilts(mem0, c, Height(mem, Root(t.l)), Height(mem, Root(t.r))))
  }

  /** A balanced turn: the climb goes on above, or ends at the top without a rotation. */
  lemma TracedUp(mem0: Memory, mem: Memory, root: Ptr, c: Ctx, t: Shape, tilts: bool)
    requires IsTree(mem, root, Plug(c, t)) && t.Branch? && Traced(mem0, mem, c, t, tilts)
    requires !Tilted(Height(mem, Root(t.l)), Height(mem, Root(t.r)))
    ensures t.p in mem && if c.Top? then !tilts else Traced(mem0, Refreshed(mem, t.p), c.up, Above(c, t), tilts)
  {
    FixupTurn(mem, root, c, t);
    if !c.Top? {
      BothChildren(mem, root, c, t);
      RefreshedElsewhere(mem, t.p);
      SameAlongFrame(mem0, mem, Refreshed(mem, t.p), c, t.p);
    }
  }

  function Weight(mem: Memory, p: Ptr): int { if p in mem then mem[p].weight else 0 }

  /** The rank of n as the stored weights give it, read from the top: its own weight, and for each node it lies left of
      that node's weight and one. */
  ghost function Rank(mem: Memory, t: Shape, n: Ptr): int {
    if t.Leaf? then 0
    else if n == t.p then Weight(mem, n)
    else if n in Flat(t.l) then Rank(mem, t.l, n) + Weight(mem, t.p) + 1
    else Rank(mem, t.r, n)
  }

  /** What calculate_reuse_distance adds up above its start. */
  ghost function PassedWeight(mem: Memory, c: Ctx): int {
    if c.Top? then 0 else (if c.InLeft? then Weight(mem, c.p) + 1 else 0) + PassedWeight(mem, c.up)
  }

  /** Upward or downward, the same sum. */
  lemma {:induction false} RankPlug(mem: Memory, c: Ctx, t: Shape, n: Ptr)
    requires Distinct(Flat(Plug(c, t))) && n in Flat(t)
    ensures Rank(mem, Plug(c, t), n) == Rank(mem, t, n) + PassedWeight(mem, c)
    decreases c
  {
    if !c.Top? {
      var u := Above(c, t);
      assert Distinct(Flat(u)) by {
        PlugFlat(c.up, u);
        ApartCtx(c.up, u);
      }
      ApartBranch(u);
      RankPlug(mem, c.up, u, n);
    }
  }

  // ---------- weights and shape ----------

  /** A node has no more nodes on its right than come after it in order. */
  lemma {:induction false} WeightAtMost(mem: Memory, t: Shape, i: nat)
    requires Weights(mem, t) && i < |Flat(t)|
    ensures Flat(t)[i] in mem && mem[Flat(t)[i]].weight <= |Flat(t)| - 1 - i
    decreases t
  {
    SizeFlat(t.r);
    if i < |Flat(t.l)| {
      WeightAtMost(mem, t.l, i);
    } else if i > |Flat(t.l)| {
      WeightAtMost(mem, t.r, i - |Flat(t.l)| - 1);
    }
  }

  lemma RootFirst(mem: Memory, t: Shape, t': Shape)
    requires t.Branch? && t'.Branch? && Flat(t) == Flat(t') && Weights(mem, t) && Weights(mem, t')
    ensures |Flat(t'.l)| <= |Flat(t.l)|
  {
    var i := |Flat(t.l)|;
    SizeFlat(t.r);
    if i < |Flat(t'.l)| {
      assert Flat(t)[i] == t.p && Flat(t')[i] == Flat(t'.l)[i];
      WeightAtMost(mem, t'.l, i);
    }
  }

  /** There is one shape for an order of nodes in which given weights are right. */
  lemma {:induction false} OneShape(mem: Memory, t: Shape, t': Shape)
    requires Flat(t) == Flat(t') && Weights(mem, t) && Weights(mem, t')
    ensures t == t'
    decreases t
  {
    if t.Branch? && t'.Branch? {
      RootFirst(mem, t, t');
      RootFirst(mem, t', t);
      var n := |Flat(t.l)|;
      assert Flat(t)[..n] == Flat(t.l) && Flat(t')[..n] == Flat(t'.l);
      assert Flat(t)[n] == t.p && Flat(t')[n] == t'.p;
      assert Flat(t)[n + 1..] == Flat(t.r) && Flat(t')[n + 1..] == Flat(t'.r);
      OneShape(mem, t.l, t'.l);
      OneShape(mem, t.r, t'.r);
    }
  }
}
