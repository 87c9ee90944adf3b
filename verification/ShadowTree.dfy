/** The shadow tree of src/shadows.c as the program runs it: one object, updated write by write. */
module ShadowTree {
  import opened Addresses
  import opened ShadowShapes
  import opened ShadowEdits
  import opened ShadowRemoval
  import opened ShadowHeights
  import opened ShadowFixup

  class SearchTree {
    var root: Ptr
    var mem: Memory
    ghost var shape: Shape

    ghost predicate Valid()
      reads this
    {
      IsTree(mem, root, shape)
    }

    constructor ()
      ensures Valid() && mem == map[] && shape == Leaf
    {
      root, mem, shape := NULL, map[], Leaf;
    }

    method PointParent(u: Ptr, v: Ptr)
      requires NULL !in mem && u in mem && (mem[u].parent != NULL ==> mem[u].parent in mem)
      modifies this
      ensures mem == Replaced(old(mem), old(mem)[u].parent, u, v) && shape == old(shape)
      ensures root == if old(mem)[u].parent == NULL then v else old(root)
    {
      var p := mem[u].parent;
      if p == NULL {
        root := v;
      } else if u == mem[p].left {
        mem := mem[p := mem[p].(left := v)];
      } else {
        mem := mem[p := mem[p].(right := v)];
      }
    }

    /** The same, testing the right child first as right_rotate does. */
    method PointParentRightFirst(u: Ptr, v: Ptr)
      requires NULL !in mem && u in mem && (mem[u].parent != NULL ==> mem[u].parent in mem)
      requires var p := mem[u].parent; p != NULL ==> (mem[p].left == u) != (mem[p].right == u)
      modifies this
      ensures mem == Replaced(old(mem), old(mem)[u].parent, u, v) && shape == old(shape)
      ensures root == if old(mem)[u].parent == NULL then v else old(root)
    {
      var p := mem[u].parent;
      if p == NULL {
        root := v;
      } else if u == mem[p].right {
        mem := mem[p := mem[p].(right := v)];
      } else {
        mem := mem[p := mem[p].(left := v)];
      }
    }

    method RelinkLeft(x: Ptr)
      requires LeftRotatable(mem, x)
      modifies this
      ensures mem == LeftRotated(old(mem), x) && shape == old(shape)
      ensures root == if old(mem)[x].parent == NULL then old(mem)[x].right else old(root)
    {
      var y := mem[x].right;
      mem := mem[x := mem[x].(right := mem[y].left)];
      if mem[y].left != NULL {
        mem := mem[mem[y].left := mem[mem[y].left].(parent := x)];
      }
      mem := mem[y := mem[y].(parent := mem[x].parent)];
      PointParent(x, y);
      mem := mem[y := mem[y].(left := x)];
      mem := mem[x := mem[x].(parent := y)];
      mem := mem[x := mem[x].(height := NewHeight(mem, x))];
      mem := mem[y := mem[y].(height := NewHeight(mem, y))];
    }

    method LeftRotate(x: Ptr, ghost c: Ctx, ghost t: Shape)
      requires Valid() && shape == Plug(c, t) && t.Branch? && t.p == x && t.r.Branch?
      modifies this
      ensures Valid() && shape == Plug(c, RotL(t)) && SameNodes(old(mem), mem) && TurnedLeft(old(mem), mem, t)
      ensures mem == TurnL(old(mem), x)
    {
      LeftRotation(mem, root, c, t);
      LeftTurn(mem, root, c, t);
      RelinkLeft(x);
      shape := Plug(c, RotL(t));
    }

    method RelinkRight(x: Ptr)
      requires RightRotatable(mem, x)
      requires var p := mem[x].parent; p != NULL ==> (mem[p].left == x) != (mem[p].right == x)
      modifies this
      ensures mem == RightRotated(old(mem), x) && shape == old(shape)
      ensures root == if old(mem)[x].parent == NULL then old(mem)[x].left else old(root)
    {
      var y := mem[x].left;
      mem := mem[x := mem[x].(left := mem[y].right)];
      if mem[y].right != NULL {
        mem := mem[mem[y].right := mem[mem[y].right].(parent := x)];
      }
      mem := mem[y := mem[y].(parent := mem[x].parent)];
      PointParentRightFirst(x, y);
      mem := mem[y := mem[y].(right := x)];
      mem := mem[x := mem[x].(parent := y)];
      mem := mem[x := mem[x].(height := NewHeight(mem, x))];
      mem := mem[y := mem[y].(height := NewHeight(mem, y))];
    }

    method RightRotate(x: Ptr, ghost c: Ctx, ghost t: Shape)
      requires Valid() && shape == Plug(c, t) && t.Branch? && t.p == x && t.l.Branch?
      modifies this
      ensures Valid() && shape == Plug(c, RotR(t)) && SameNodes(old(mem), mem) && TurnedRight(old(mem), mem, t)
      ensures mem == TurnR(old(mem), x)
    {
      RightRotation(mem, root, c, t);
      RightTurn(mem, root, c, t);
      OnlyChild(mem, root, c, t);
      RelinkRight(x);
      shape := Plug(c, RotR(t));
    }

    /** The descent of insert_tree_node: finds the hole and bumps the weight of every node passed on its right. */
    method Descend(stamp: Stamp) returns (y: Ptr, ghost c: Ctx)
      requires Valid() && forall q <- mem :: mem[q].stamp != stamp
      modifies this`mem
      ensures shape == Plug(c, Leaf) && y == Up(c) && Fits(old(mem), c, stamp)
      ensures mem == Bumped(old(mem), c, 1) && c == Hole(old(mem), shape, stamp, Top)
    {
      ghost var mem0 := mem;
      ghost var t := shape;
      y, c := NULL, Top;
      var temp := root;
      while temp != NULL
        invariant shape == Plug(c, t) && temp == Root(t) && y == Up(c)
        invariant Fits(mem0, c, stamp) && mem == Bumped(mem0, c, 1)
        invariant Hole(mem0, shape, stamp, Top) == Hole(mem0, t, stamp, c)
        decreases t
      {
        DescentStep(mem0, root, c, t, 1);
        y := temp;
        if CompareNodes(stamp, mem[temp].stamp) < 0 {
          temp := mem[temp].left;
          c, t := InLeft(t.p, t.r, c), t.l;
        } else {
          mem := mem[temp := mem[temp].(weight := mem[temp].weight + 1)];
          temp := mem[temp].right;
          c, t := InRight(t.l, t.p, c), t.r;
        }
      }
      LeafFocus(mem0, root, c, t);
    }

    /** insert_tree_node. The new node is inserted into the in-order sequence and nothing else moves there. The heights
        stored before the call decide whether and where the climb rotates, and which heights are stored afterwards. If
        the weights were right they stay right exactly when it does not rotate. */
    method InsertTreeNode(n: Ptr, stamp: Stamp) returns (rotated: bool)
      requires Valid() && n != NULL && n !in mem && forall q <- mem :: mem[q].stamp != stamp
      modifies this
      ensures Valid() && InsertedInto(old(Flat(shape)), Flat(shape), n)
      ensures mem.Keys == old(mem).Keys + {n} && mem[n].stamp == stamp
      ensures forall q <- old(mem) :: mem[q].stamp == old(mem)[q].stamp
      ensures var c := Hole(old(mem), old(shape), stamp, Top);
              && (rotated <==> Unbalances(old(mem), c, 1))
              && shape == Settled(old(mem), c, Branch(Leaf, n, Leaf), 1)
              && SameNodes(Attached(Bumped(old(mem), c, 1), c, n, stamp), mem)
              && mem == Climbed(Attached(Bumped(old(mem), c, 1), c, n, stamp), c)
      ensures old(Weights(mem, shape)) ==> (Weights(mem, shape) <==> !rotated)
    {
      ghost var mem0 := mem;
      var y, c := Descend(stamp);
      InsertionPoint(mem0, root, c, n, stamp);
      mem := mem[n := Node(stamp, y, NULL, NULL, 0, 1)];
      if y == NULL {
        root := n;
      } else if CompareNodes(stamp, mem[y].stamp) < 0 {
        mem := mem[y := mem[y].(left := n)];
      } else {
        mem := mem[y := mem[y].(right := n)];
      }
      shape := Plug(c, Branch(Leaf, n, Leaf));
      assert mem == Attached(Bumped(mem0, c, 1), c, n, stamp);
      AttachedHeights(mem0, old(root), c, n, stamp);
      UnbalancesFrame(mem0, mem, c, Branch(Leaf, n, Leaf), 1);
      rotated := RebalanceAfterInsert(n, y, c);
    }

    method RefreshHeight(p: Ptr)
      requires Valid() && p in mem
      modifies this`mem
      ensures Valid() && SameShape(old(mem), mem) && SameNodes(old(mem), mem)
      ensures mem == Refreshed(old(mem), p)
    {
      mem := mem[p := mem[p].(height := NewHeight(mem, p))];
      SameShapeIsTree(old(mem), mem, root, shape);
    }

    /** The climb of insert_tree_node: heights are refreshed up to the first unbalanced node, which is rotated. */
    method RebalanceAfterInsert(n: Ptr, y0: Ptr, ghost c0: Ctx) returns (rotated: bool)
      requires Valid() && shape == Plug(c0, Branch(Leaf, n, Leaf)) && y0 == Up(c0) && n in mem
      modifies this
      ensures Valid() && SameNodes(old(mem), mem) && Flat(shape) == old(Flat(shape))
      ensures rotated <==> Unbalances(old(mem), c0, old(mem)[n].height)
      ensures shape == Settled(old(mem), c0, Branch(Leaf, n, Leaf), old(mem)[n].height)
      ensures mem == Climbed(old(mem), c0)
      ensures old(Weights(mem, shape)) ==> (Weights(mem, shape) <==> !rotated)
    {
      rotated := false;
      var y, z := y0, n;
      ghost var c, t := c0, Branch(Leaf, n, Leaf);
      ghost var mem0, t0, h0 := mem, t, mem[n].height;
      SameAlongSelf(mem, c);
      while y != NULL
        invariant Valid() && shape == old(shape) == Plug(c, t) && SameNodes(mem0, mem)
        invariant y == Up(c) && t.Branch? && z == t.p && z in mem
        invariant SameAlong(mem0, mem, c) && Climbed(mem0, c0) == Climbed(mem, c)
        invariant Unbalances(mem0, c0, h0) <==> Unbalances(mem0, c, mem[z].height)
        invariant Settled(mem0, c0, t0, h0) == Settled(mem0, c, t, mem[z].height)
        decreases c
      {
        Climb(mem, root, c, t);
        InsertTurn(mem0, mem, root, c, t);
        RefreshHeight(y);
        Climb(mem, root, c, t);
        var x := mem[y].parent;
        if x != NULL && OutOfBalance(mem, x) {
          WeightsTransfer(old(mem), mem, shape);
          rotated := RotateGrandparent(x, y, z, c, t);
          return;
        }
        y := mem[y].parent;
        z := mem[z].parent;
        c, t := c.up, Above(c, t);
      }
      assert c.Top? by { Focus(mem, root, c, t); }
      WeightsTransfer(old(mem), mem, shape);
    }

    /** x is out of balance, y its child and z its grandchild on the way to the new node: all four cases. */
    method RotateGrandparent(x: Ptr, y: Ptr, z: Ptr, ghost c: Ctx, ghost t: Shape) returns (rotated: bool)
      requires Valid() && shape == Plug(c, t) && t.Branch? && !c.Top? && !c.up.Top? && z == t.p && y == c.p &&
               x == c.up.p
      modifies this
      ensures Valid() && SameNodes(old(mem), mem) && Flat(shape) == old(Flat(shape))
      ensures rotated && shape == Plug(c.up.up, Straightened(c, t)) && mem == Twisted(old(mem), c)
      ensures old(Weights(mem, shape)) ==> !Weights(mem, shape)
    {
      Climb(mem, root, c, t);
      Climb(mem, root, c.up, Above(c, t));
      ghost var g := Above(c.up, Above(c, t));
      rotated := false;
      if y == mem[x].left {
        if z == mem[mem[x].left].left {
          RightRotate(x, c.up.up, g);
          rotated := true;
          Rebuilt(old(mem), mem, c.up.up, g, RotR(g));
        } else if z == mem[mem[x].left].right {
          LeftRotate(y, c.up, g.l);
          RightRotate(x, c.up.up, g.(l := RotL(g.l)));
          rotated := true;
          Rebuilt(old(mem), mem, c.up.up, g, RotR(g.(l := RotL(g.l))));
        }
      } else if y == mem[x].right {
        if z == mem[mem[x].right].right {
          LeftRotate(x, c.up.up, g);
          rotated := true;
          Rebuilt(old(mem), mem, c.up.up, g, RotL(g));
        } else if z == mem[mem[x].right].left {
          RightRotate(y, c.up, g.r);
          LeftRotate(x, c.up.up, g.(r := RotR(g.r)));
          rotated := true;
          Rebuilt(old(mem), mem, c.up.up, g, RotL(g.(r := RotR(g.r))));
        }
      }
    }

    method Transplant(u: Ptr, v: Ptr)
      requires NULL !in mem && u in mem && (mem[u].parent != NULL ==> mem[u].parent in mem)
      modifies this
      ensures mem == Transplanted(old(mem), u, v) && shape == old(shape)
      ensures root == if old(mem)[u].parent == NULL then v else old(root)
    {
      PointParent(u, v);
      if v != NULL {
        if v in mem {
          mem := mem[v := mem[v].(parent := mem[u].parent)];
        }
      }
    }

    /** minimum: the leftmost node below x0. */
    method Minimum(x0: Ptr, ghost c: Ctx, ghost t: Shape) returns (x: Ptr, ghost i: Ctx, ghost r: Shape)
      requires Valid() && shape == Plug(c, t) && t.Branch? && t.p == x0
      ensures AllLeft(i) && t == Plug(i, Branch(Leaf, x, r))
    {
      x, i := x0, Top;
      ghost var s := t;
      JoinPlug(i, c, s);
      Focus(mem, root, c, s);
      while mem[x].left != NULL
        invariant AllLeft(i) && t == Plug(i, s) && s.Branch? && s.p == x && x in mem && mem[x].left == Root(s.l)
        decreases s
      {
        x := mem[x].left;
        i, s := InLeft(s.p, s.r, i), s.l;
        JoinPlug(i, c, s);
        Focus(mem, root, Join(i, c), s);
      }
      JoinPlug(i, c, s);
      LeafFocus(mem, root, InLeft(s.p, s.r, Join(i, c)), s.l);
      r := s.r;
    }

    /** delete_tree_node up to its call of delete_fixup; p is the node that call starts from, NULL if there
        is none. Exactly z disappears from the in-order sequence. */
    method SpliceOut(z: Ptr, ghost c: Ctx, ghost t: Shape) returns (p: Ptr)
      requires Valid() && shape == Plug(c, t) && t.Branch? && t.p == z
      modifies this
      ensures Valid() && RemovedFrom(old(Flat(shape)), Flat(shape), z) && OthersSame(old(mem), mem, z)
      ensures shape == Plug(c, Vacated(t)) && p == Root(Vacated(t)) && HeightsKept(old(mem), mem)
      ensures old(Weights(mem, t) && WeightsCtx(mem, c, Size(t) - 1)) ==>
                (Weights(mem, shape) <==> t.l.Leaf? || t.r.Leaf? || t.r.l.Leaf?)
    {
      Children(mem, root, c, t);
      if mem[z].left == NULL || mem[z].right == NULL {
        p := SpliceSingle(z, c, t);
      } else {
        p := SpliceSuccessor(z, c, t);
      }
    }

    /** The case of a missing child: the other one, or nothing, moves into z's place. */
    method SpliceSingle(z: Ptr, ghost c: Ctx, ghost t: Shape) returns (p: Ptr)
      requires Valid() && shape == Plug(c, t) && t.Branch? && t.p == z && (t.l.Leaf? || t.r.Leaf?)
      modifies this
      ensures Valid() && RemovedFrom(old(Flat(shape)), Flat(shape), z) && OthersSame(old(mem), mem, z)
      ensures shape == Plug(c, Vacated(t)) && p == Root(Vacated(t)) && HeightsKept(old(mem), mem)
      ensures old(Weights(mem, t) && WeightsCtx(mem, c, Size(t) - 1)) ==> Weights(mem, shape)
    {
      ghost var w := Weights(mem, t) && WeightsCtx(mem, c, Size(t) - 1);
      Children(mem, root, c, t);
      SpliceOne(mem, root, c, t);
      if w { SpliceOneWeights(mem, root, c, t); }
      ghost var v := if t.l.Leaf? then t.r else t.l;
      PlugRoot(c, t, v);
      RootStays(mem, root, c, t);
      TransplantedHeights(mem, z, Root(v));
      if mem[z].left == NULL {
        p := mem[z].right;
        Transplant(z, mem[z].right);
      } else {
        p := mem[z].left;
        Transplant(z, mem[z].left);
      }
      shape := Plug(c, v);
      mem := mem - {z};
    }

    /** The case of two children: the successor y moves into z's place. */
    method SpliceSuccessor(z: Ptr, ghost c: Ctx, ghost t: Shape) returns (y: Ptr)
      requires Valid() && shape == Plug(c, t) && t.Branch? && t.p == z && t.l.Branch? && t.r.Branch?
      modifies this
      ensures Valid() && RemovedFrom(old(Flat(shape)), Flat(shape), z) && OthersSame(old(mem), mem, z)
      ensures shape == Plug(c, Vacated(t)) && y == Root(Vacated(t)) && HeightsKept(old(mem), mem)
      ensures old(Weights(mem, t) && WeightsCtx(mem, c, Size(t) - 1)) ==> (Weights(mem, shape) <==> t.r.l.Leaf?)
    {
      ghost var w := Weights(mem, t) && WeightsCtx(mem, c, Size(t) - 1);
      Children(mem, root, c, t);
      ghost var i, ry;
      y, i, ry := Minimum(mem[z].right, InRight(t.l, t.p, c), t.r);
      SpliceTwo(mem, root, c, t, i, y, ry);
      if w { SpliceTwoWeights(mem, root, c, t, i, y, ry); }
      NearSuccessor(t.r, i, y, ry);
      PromotedVacates(t, i, y, ry);
      PlugRoot(c, t, Vacated(t));
      SuccessorPointers(mem, root, c, t, i, y, ry);
      SuccessorInHeights(mem, z, y);
      SwapIn(z, y);
      shape := Plug(c, Vacated(t));
      mem := mem - {z};
    }

    /** The writes of that case. */
    method SwapIn(z: Ptr, y: Ptr)
      requires NULL !in mem && y in mem && z in mem && y != z
      requires mem[y].parent == z || (mem[y].parent != NULL && mem[y].parent in mem)
      requires mem[y].parent != z ==> Transplanted(mem, y, mem[y].right)[z].right in mem
      requires var m := Detached(mem, z, y);
               && m.Keys == mem.Keys && (m[z].parent != NULL ==> m[z].parent in m)
               && Transplanted(m, z, y)[z].left in m
      modifies this
      ensures mem == SuccessorIn(old(mem), z, y) && shape == old(shape)
      ensures root == if Detached(old(mem), z, y)[z].parent == NULL then y else old(root)
    {
      if mem[y].parent != z {
        Transplant(y, mem[y].right);
        mem := mem[y := mem[y].(right := mem[z].right)];
        mem := mem[mem[y].right := mem[mem[y].right].(parent := y)];
      }
      Transplant(z, y);
      mem := mem[y := mem[y].(left := mem[z].left)];
      mem := mem[mem[y].left := mem[mem[y].left].(parent := y)];
    }

    /** delete_fixup. Stored heights may be stale, yet the climb ends: a rotation repairs a stale height or lowers the
        taller side. Order, nodes and weights stay, and no rotation reads a missing child. The heights stored before the
        call decide whether anything rotates, and which tree is left. */
    method DeleteFixup(p0: Ptr, ghost c0: Ctx, ghost t0: Shape) returns (ghost rotated: bool)
      requires Valid() && shape == Plug(c0, t0) && t0.Branch? && t0.p == p0
      modifies this
      ensures Valid() && SameNodes(old(mem), mem) && Flat(shape) == old(Flat(shape))
      ensures rotated <==> Tilts(old(mem), c0, Height(old(mem), Root(t0.l)), Height(old(mem), Root(t0.r)))
      ensures !rotated ==> shape == old(shape)
      ensures Sound(old(mem), c0, t0) && shape == Leveled(old(mem), c0, t0)
    {
      var p := p0;
      TreeIsSound(mem, root, c0, t0);
      ghost var goal := Leveled(mem, c0, t0);
      ghost var c, t, mem0 := c0, t0, mem;
      ghost var tilts := Tilts(mem0, c0, Height(mem, Root(t.l)), Height(mem, Root(t.r)));
      Children(mem, root, c, t);
      SameAlongSelf(mem, c);
      rotated := false;
      while p != NULL
        invariant Valid() && SameNodes(mem0, mem) && Flat(shape) == old(Flat(shape))
        invariant p != NULL ==> shape == Plug(c, t) && t.Branch? && t.p == p
        invariant if p == NULL then shape == goal else Sound(mem, c, t) && Leveled(mem, c, t) == goal
        invariant rotated ==> tilts
        invariant !rotated ==> shape == old(shape) && if p == NULL then !tilts else Traced(mem0, mem, c, t, tilts)
        decreases if p == NULL then 0 else 1 + Depth(c), StaleBelow(mem, t), Uneven(mem, t)
      {
        if !rotated && !Tilted(Height(mem, Root(t.l)), Height(mem, Root(t.r))) {
          TracedUp(mem0, mem, root, c, t, tilts);
        }
        ghost var turned, m, c1, t1 := false, mem, c, t;
        p, c, t, turned := FixupRound(p, c, t);
        if turned { RotatedRound(m, c1, t1, mem, root, t); } else { BalancedRound(m, c1, t1, mem, root); }
        rotated := rotated || turned;
      }
    }

    /** One round: the height of p is refreshed; then p is rotated down, or the climb moves to its parent. */
    method FixupRound(p: Ptr, ghost c: Ctx, ghost t: Shape)
        returns (q: Ptr, ghost c': Ctx, ghost t': Shape, ghost turned: bool)
      requires Valid() && shape == Plug(c, t) && t.Branch? && t.p == p
      modifies this
      ensures Valid() && SameNodes(old(mem), mem) && Flat(shape) == old(Flat(shape))
      ensures q != NULL ==> shape == Plug(c', t') && t'.Branch? && t'.p == q
      ensures turned <==> Tilted(Height(old(mem), Root(t.l)), Height(old(mem), Root(t.r)))
      ensures turned ==> q != NULL && c' == c && Calmer(old(mem), t, mem, t')
      ensures turned ==>
                && (t.l.Branch? || t.r.Branch?) && t' == Bent(Fresh(old(mem), t), t)
                && SameHeights(BentHeights(Fresh(old(mem), t), t), mem)
      ensures SameHeights(Fresh(old(mem), t), mem) || turned
      ensures !turned ==> p in old(mem) && mem == Refreshed(old(mem), p) && shape == old(shape)
      ensures !turned ==> (q == NULL <==> c.Top?) && (q != NULL ==> c' == c.up && t' == Above(c, t))
    {
      FixupTurn(mem, root, c, t);
      c', t' := c, t;
      RefreshHeight(p);
      assert mem == Fresh(old(mem), t);
      Children(mem, root, c, t);
      turned := OutOfBalance(mem, p);
      if OutOfBalance(mem, p) {
        t' := RotateUnbalanced(p, c, t);
        q := mem[p].parent;
        Children(mem, root, c, t');
      } else {
        q := mem[p].parent;
        if q != NULL { c', t' := c.up, Above(c, t); }
      }
    }

    /** One unbalanced node x: y its taller child, z the taller child of y, which a stale height can make NULL. */
    method RotateUnbalanced(x: Ptr, ghost c: Ctx, ghost t: Shape) returns (ghost g: Shape)
      requires Valid() && shape == Plug(c, t) && t.Branch? && t.p == x && x in mem
      requires OutOfBalance(mem, x)
      modifies this
      ensures Valid() && SameNodes(old(mem), mem) && Flat(shape) == old(Flat(shape))
      ensures shape == Plug(c, g) && g.Branch? && mem[x].parent == g.p && Calmer(old(mem), t, mem, g)
      ensures (t.l.Branch? || t.r.Branch?) && g == Bent(old(mem), t) && SameHeights(BentHeights(old(mem), t), mem)
    {
      Children(mem, root, c, t);
      var y := if mem[x].left != NULL && mem[x].right != NULL
               then (if mem[mem[x].left].height > mem[mem[x].right].height then mem[x].left else mem[x].right)
               else if mem[x].left == NULL then mem[x].right else mem[x].left;
      TallerChild(mem, root, c, t);
      var z := if mem[y].left != NULL && mem[y].right != NULL
               then (if mem[mem[y].left].height > mem[mem[y].right].height then mem[y].left
                     else if mem[mem[y].left].height < mem[mem[y].right].height then mem[y].right
                     else if y == mem[x].left then mem[y].left else mem[y].right)
               else if mem[y].left == NULL then mem[y].right else mem[y].left;
      if y == mem[x].left {
        g := StraightenLeft(x, y, z, c, t);
      } else {
        g := StraightenRight(x, y, z, c, t);
      }
      RotatedOrder(c, t, g);
      RotationChild(t, g);
      RotatedParent(mem, root, c, t, g);
    }

    /** The taller child is the left one. */
    method StraightenLeft(x: Ptr, y: Ptr, z: Ptr, ghost c: Ctx, ghost t: Shape) returns (ghost g: Shape)
      requires Valid() && shape == Plug(c, t) && t.Branch? && t.p == x && x in mem && t.l.Branch? && y == t.l.p
      requires Height(mem, y) - Height(mem, Root(t.r)) >= 2
      requires z == if Height(mem, Root(t.l.l)) >= Height(mem, Root(t.l.r)) then Root(t.l.l) else Root(t.l.r)
      modifies this
      ensures Valid() && SameNodes(old(mem), mem) && shape == Plug(c, g) && Rotation(t, g)
      ensures Calmer(old(mem), t, mem, g) && g == Bent(old(mem), t) && SameHeights(BentHeights(old(mem), t), mem)
    {
      Children(mem, root, c, t);
      TallerGrandchild(mem, root, InLeft(t.p, t.r, c), t.l);
      TreeLeans(mem, root, c, t);
      SubtreeNodes(mem, root, c, t);
      if z == mem[mem[x].left].left {
        g := RotR(t);
        RightRotate(x, c, t);
        CalmerRight(old(mem), mem, t);
        OneTurn(old(mem), mem, t);
      } else {
        g := RotR(t.(l := RotL(t.l)));
        LeftRotate(y, InLeft(t.p, t.r, c), t.l);
        ghost var m := mem;
        RightRotate(x, c, t.(l := RotL(t.l)));
        LeftRightSides(old(mem), m, mem, t);
        CalmerLeftRight(old(mem), mem, t);
        LeftRightTurns(old(mem), m, mem, t);
      }
    }

    /** The taller child is the right one. */
    method StraightenRight(x: Ptr, y: Ptr, z: Ptr, ghost c: Ctx, ghost t: Shape) returns (ghost g: Shape)
      requires Valid() && shape == Plug(c, t) && t.Branch? && t.p == x && x in mem && t.r.Branch? && y == t.r.p
      requires Height(mem, y) - Height(mem, Root(t.l)) >= 2
      requires z == if Height(mem, Root(t.r.r)) >= Height(mem, Root(t.r.l)) then Root(t.r.r) else Root(t.r.l)
      modifies this
      ensures Valid() && SameNodes(old(mem), mem) && shape == Plug(c, g) && Rotation(t, g)
      ensures Calmer(old(mem), t, mem, g) && g == Bent(old(mem), t) && SameHeights(BentHeights(old(mem), t), mem)
    {
      Children(mem, root, c, t);
      TallerGrandchild(mem, root, InRight(t.l, t.p, c), t.r);
      TreeLeans(mem, root, c, t);
      SubtreeNodes(mem, root, c, t);
      if z == mem[mem[x].right].right {
        g := RotL(t);
        LeftRotate(x, c, t);
        CalmerLeft(old(mem), mem, t);
        OneTurn(old(mem), mem, t);
      } else {
        g := RotL(t.(r := RotR(t.r)));
        RightRotate(y, InRight(t.l, t.p, c), t.r);
        ghost var m := mem;
        LeftRotate(x, c, t.(r := RotR(t.r)));
        RightLeftSides(old(mem), m, mem, t);
        CalmerRightLeft(old(mem), mem, t);
        RightLeftTurns(old(mem), m, mem, t);
      }
    }

    /** One turn of fix_weights: the node hangs on the right of p. */
    method Lighten(p: Ptr, ghost c: Ctx, ghost t: Shape)
      requires Valid() && shape == Plug(c, t) && t.Branch? && c.InRight? && c.p == p
      modifies this`mem
      ensures Valid() && SameShape(old(mem), mem) && Bumped(mem, c.up, -1) == Bumped(old(mem), c, -1)
    {
      BumpedStep(mem, root, c, t, -1);
      mem := mem[p := mem[p].(weight := mem[p].weight - 1)];
      SameShapeIsTree(old(mem), mem, root, shape);
    }

    /** fix_weights: one less along the path wherever node hangs on the right. */
    method FixWeights(node0: Ptr, ghost c0: Ctx, ghost t0: Shape)
      requires Valid() && shape == Plug(c0, t0) && t0.Branch? && t0.p == node0
      modifies this`mem
      ensures Valid() && mem == Bumped(old(mem), c0, -1)
      ensures old(Weights(mem, shape)) ==> Weights(mem, t0) && WeightsCtx(mem, c0, Size(t0) - 1)
    {
      ghost var mem0 := mem;
      var node := node0;
      ghost var c, t := c0, t0;
      while node != root
        invariant Valid() && Bumped(mem, c, -1) == Bumped(mem0, c0, -1)
        invariant shape == Plug(c, t) && t.Branch? && t.p == node
        decreases c
      {
        assert !c.Top? by { Focus(mem, root, c, t); }
        Climb(mem, root, c, t);
        var p := mem[node].parent;
        if node == mem[p].right {
          Lighten(p, c, t);
        }
        node := mem[node].parent;
        c, t := c.up, Above(c, t);
      }
      assert c.Top? by { Focus(mem, root, c, t); }
      if Weights(mem0, shape) { FixedWeights(mem0, root, c0, t0); }
    }

    /** calculate_reuse_distance: with right weights, the number of items seen more recently; otherwise whatever the
        stored weights on the path add up to. */
    method ReuseDistance(node0: Ptr) returns (x: int)
      requires Valid() && node0 in mem
      ensures x == Rank(mem, shape, node0)
      ensures Weights(mem, shape) ==> x == |Newer(mem, node0)|
    {
      ElemsIn(Flat(shape));
      ghost var c0, t0 := Locate(Top, shape, node0);
      ghost var w := Weights(mem, shape);
      var node := node0;
      x := mem[node].weight;
      ghost var c, t := c0, t0;
      PlugWeights(mem, c0, t0);
      while node != root
        invariant shape == Plug(c, t) && t.Branch? && t.p == node && node in mem
        invariant x + PassedWeight(mem, c) == mem[node0].weight + PassedWeight(mem, c0)
        invariant w ==> x == Size(t0.r) + |After(c0)| - |After(c)|
        decreases c
      {
        Focus(mem, root, c, t);
        Climb(mem, root, c, t);
        if mem[node].parent == NULL {
          break;
        }
        if node == mem[mem[node].parent].left {
          PlugWeights(mem, c, t);
          SizeFlat(c.r);
          x := x + mem[mem[node].parent].weight + 1;
        }
        node := mem[node].parent;
        c, t := c.up, Above(c, t);
      }
      assert c.Top? by { Focus(mem, root, c, t); }
      Heads(c0, t0);
      RankPlug(mem, c0, t0, node0);
      NewerAfter(mem, root, c0, t0);
    }

    /** What eviction and a hit do to the tree: fix_weights, then delete_tree_node. The heights stored before the call
        decide whether the fix-up rotates; it never does when z is a leaf. If it does not, right weights stay right
        exactly when z had at most one child or its successor was its right child. In every case those heights give the
        tree that is left, and right weights stay right exactly when it is the one in which the left subtree of z hangs
        below the successor of z. */
    method Remove(z: Ptr) returns (ghost rotated: bool, ghost c: Ctx, ghost t: Shape)
      requires Valid() && z in mem
      modifies this
      ensures Valid() && RemovedFrom(old(Flat(shape)), Flat(shape), z)
      ensures OthersSame(Bumped(old(mem), c, -1), mem, z)
      ensures old(shape) == Plug(c, t) && t.Branch? && t.p == z && (rotated <==> RemovalTilts(old(mem), c, t))
      ensures !rotated ==> shape == Plug(c, Vacated(t))
      ensures old(Weights(mem, shape)) && !rotated ==>
                (Weights(mem, shape) <==> t.l.Leaf? || t.r.Leaf? || t.r.l.Leaf?)
      ensures shape == Removed(old(mem), c, t)
      ensures old(Weights(mem, shape)) ==>
                (Weights(mem, shape) <==> Removed(old(mem), c, t) == Plug(c, Hung(t.l, t.r)))
    {
      ElemsIn(Flat(shape));
      c, t := Locate(Top, shape, z);
      BumpedShape(mem, c, -1);
      BumpedHeights(mem, c, -1);
      FixWeights(z, c, t);
      ghost var m := mem;
      rotated := DeleteTreeNode(z, c, t);
      RemovedSame(old(mem), m, c, t);
      if old(Weights(mem, shape)) { RightAfter(m, mem, root, c, t, shape); }
    }

    /** delete_tree_node. */
    method DeleteTreeNode(z: Ptr, ghost c: Ctx, ghost t: Shape) returns (ghost rotated: bool)
      requires Valid() && shape == Plug(c, t) && t.Branch? && t.p == z && z != NULL
      modifies this
      ensures Valid() && RemovedFrom(old(Flat(shape)), Flat(shape), z) && OthersSame(old(mem), mem, z)
      ensures Flat(shape) == Flat(Plug(c, Vacated(t))) && (rotated <==> RemovalTilts(old(mem), c, t))
      ensures shape == Removed(old(mem), c, t) && (!rotated ==> shape == Plug(c, Vacated(t)))
      ensures old(Weights(mem, t) && WeightsCtx(mem, c, Size(t) - 1)) && !rotated ==>
                (Weights(mem, shape) <==> t.l.Leaf? || t.r.Leaf? || t.r.l.Leaf?)
    {
      var p := SpliceOut(z, c, t);
      RemovalSeen(old(mem), mem, root, c, t);
      RemovedSeen(old(mem), mem, root, c, t);
      rotated := false;
      if p != NULL {
        ghost var m := mem;
        rotated := DeleteFixup(p, c, Vacated(t));
        WeightsTransfer(m, mem, Plug(c, Vacated(t)));
      }
    }
  }

  // ---------- small trees ----------

  /** Two items that arrive in order: the older on top, with one node on its right. */
  function InOrderMemory(a: Stamp, b: Stamp): Memory {
    map[1 := Node(a, NULL, NULL, 2, 1, 2), 2 := Node(b, 1, NULL, NULL, 0, 1)]
  }

  function OneMemory(a: Stamp): Memory { map[1 := Node(a, NULL, NULL, NULL, 0, 1)] }

  method GrowByOne(a: Stamp) returns (tree: SearchTree)
    ensures fresh(tree) && tree.Valid() && tree.shape == Branch(Leaf, 1, Leaf) && tree.mem == OneMemory(a)
  {
    tree := new SearchTree();
    assert Attached(Bumped(map[], Top, 1), Top, 1, a) == OneMemory(a);
    var rotated := tree.InsertTreeNode(1, a);
  }

  lemma SecondNewer(a: Stamp, b: Stamp)
    requires Less(a, b)
    ensures var m, c := OneMemory(a), InRight(Leaf, 1, Top);
            && Hole(m, Branch(Leaf, 1, Leaf), b, Top) == c && !Unbalances(m, c, 1)
            && Settled(m, c, Branch(Leaf, 2, Leaf), 1) == Branch(Leaf, 1, Branch(Leaf, 2, Leaf))
            && Climbed(Attached(Bumped(m, c, 1), c, 2, b), c) == InOrderMemory(a, b)
  {
    var m, c := OneMemory(a), InRight(Leaf, 1, Top);
    assert Bumped(m, c, 1) == map[1 := Node(a, NULL, NULL, NULL, 1, 1)];
    var m1 := Attached(Bumped(m, c, 1), c, 2, b);
    assert m1 == map[1 := Node(a, NULL, NULL, 2, 1, 1), 2 := Node(b, 1, NULL, NULL, 0, 1)];
    assert Climbed(m1, c) == Climbed(Refreshed(m1, 1), Top);
  }

  method GrowByTwo(a: Stamp, b: Stamp) returns (tree: SearchTree)
    requires Less(a, b)
    ensures fresh(tree) && tree.Valid() && tree.shape == Branch(Leaf, 1, Branch(Leaf, 2, Leaf))
    ensures tree.mem == InOrderMemory(a, b)
  {
    tree := GrowByOne(a);
    AddSecond(tree, a, b);
  }

  method AddSecond(tree: SearchTree, a: Stamp, b: Stamp)
    requires tree.Valid() && tree.shape == Branch(Leaf, 1, Leaf) && tree.mem == OneMemory(a) && Less(a, b)
    modifies tree
    ensures tree.Valid() && tree.shape == Branch(Leaf, 1, Branch(Leaf, 2, Leaf)) && tree.mem == InOrderMemory(a, b)
  {
    SecondNewer(a, b);
    var rotated := tree.InsertTreeNode(2, b);
  }

  /** A third newer item goes below the second, and the oldest is then three apart. */
  lemma ThirdUnbalances(m: Memory, d: Stamp)
    requires m.Keys == {1, 2} && Less(m[1].stamp, m[2].stamp) && Less(m[2].stamp, d) && m[1].weight == 1
    requires m[2].weight == 0
    ensures var c := InRight(Leaf, 2, InRight(Leaf, 1, Top));
            && Hole(m, Branch(Leaf, 1, Branch(Leaf, 2, Leaf)), d, Top) == c && Unbalances(m, c, 1)
            && Settled(m, c, Branch(Leaf, 3, Leaf), 1) == Branch(Branch(Leaf, 1, Leaf), 2, Branch(Leaf, 3, Leaf))
            && Bumped(m, c, 1) == m[1 := m[1].(weight := 2)][2 := m[2].(weight := 1)]
  {
    var c1 := InRight(Leaf, 1, Top);
    var c2 := InRight(Leaf, 2, c1);
    assert Hole(m, Branch(Leaf, 1, Branch(Leaf, 2, Leaf)), d, Top) == Hole(m, Branch(Leaf, 2, Leaf), d, c1);
    assert Hole(m, Branch(Leaf, 2, Leaf), d, c1) == Hole(m, Leaf, d, c2) == c2;
    assert Bumped(m, c1, 1) == m[1 := m[1].(weight := 2)];
  }

  /** A third item that arrives in order unbalances the oldest: the climb rotates, no weight is corrected, and the
      oldest item then reports a reuse distance of 4 although only two items are newer. */
  method GrowByThree(a: Stamp, b: Stamp, d: Stamp) returns (tree: SearchTree, rotated: bool, x: int)
    requires Less(a, b) && Less(b, d)
    ensures tree.Valid() && tree.mem.Keys == {1, 2, 3} && rotated && x == 4 && |Newer(tree.mem, 1)| == 2
  {
    tree := GrowByTwo(a, b);
    rotated := AddThird(tree, a, b, d);
    x := OldestDistance(tree);
  }

  method AddThird(tree: SearchTree, a: Stamp, b: Stamp, d: Stamp) returns (rotated: bool)
    requires tree.Valid() && tree.shape == Branch(Leaf, 1, Branch(Leaf, 2, Leaf)) && tree.mem == InOrderMemory(a, b)
    requires Less(a, b) && Less(b, d)
    modifies tree
    ensures tree.Valid() && tree.mem.Keys == {1, 2, 3} && rotated
    ensures tree.shape == Branch(Branch(Leaf, 1, Leaf), 2, Branch(Leaf, 3, Leaf))
    ensures tree.mem[1].weight == 2 && tree.mem[2].weight == 1
  {
    ThirdUnbalances(tree.mem, d);
    rotated := tree.InsertTreeNode(3, d);
  }

  method OldestDistance(tree: SearchTree) returns (x: int)
    requires tree.Valid() && tree.shape == Branch(Branch(Leaf, 1, Leaf), 2, Branch(Leaf, 3, Leaf)) && 1 in tree.mem
    requires 2 in tree.mem && tree.mem[1].weight == 2 && tree.mem[2].weight == 1
    ensures x == 4 && |Newer(tree.mem, 1)| == 2
  {
    x := tree.ReuseDistance(1);
    assert Rank(tree.mem, Branch(Leaf, 1, Leaf), 1) == 2;
    NewerAfter(tree.mem, tree.root, InLeft(2, Branch(Leaf, 3, Leaf), Top), Branch(Leaf, 1, Leaf));
  }

  /** Four items that arrive as 4, 2, 6, 5 in the order of their stamps: 4 on top, 2 on its left, 6 on its right and 5
      below 6. Nothing rotates and all weights are right. */
  function FourShape(): Shape {
    Branch(Branch(Leaf, 2, Leaf), 1, Branch(Branch(Leaf, 4, Leaf), 3, Leaf))
  }

  function TwoMemory(s2: Stamp, s4: Stamp): Memory {
    map[1 := Node(s4, NULL, 2, NULL, 0, 2), 2 := Node(s2, 1, NULL, NULL, 0, 1)]
  }

  function ThreeMemory(s2: Stamp, s4: Stamp, s6: Stamp): Memory {
    map[1 := Node(s4, NULL, 2, 3, 1, 2), 2 := Node(s2, 1, NULL, NULL, 0, 1), 3 := Node(s6, 1, NULL, NULL, 0, 1)]
  }

  function FourMemory(s2: Stamp, s4: Stamp, s5: Stamp, s6: Stamp): Memory {
    map[1 := Node(s4, NULL, 2, 3, 2, 3), 2 := Node(s2, 1, NULL, NULL, 0, 1), 3 := Node(s6, 1, 4, NULL, 0, 2),
        4 := Node(s5, 3, NULL, NULL, 0, 1)]
  }

  lemma SecondOlder(s2: Stamp, s4: Stamp)
    requires Less(s2, s4)
    ensures var m, c := OneMemory(s4), InLeft(1, Leaf, Top);
            && Hole(m, Branch(Leaf, 1, Leaf), s2, Top) == c && !Unbalances(m, c, 1)
            && Settled(m, c, Branch(Leaf, 2, Leaf), 1) == Branch(Branch(Leaf, 2, Leaf), 1, Leaf)
            && Climbed(Attached(Bumped(m, c, 1), c, 2, s2), c) == TwoMemory(s2, s4)
  {
    var m, c := OneMemory(s4), InLeft(1, Leaf, Top);
    assert Bumped(m, c, 1) == m;
    var m1 := Attached(m, c, 2, s2);
    assert m1 == map[1 := Node(s4, NULL, 2, NULL, 0, 1), 2 := Node(s2, 1, NULL, NULL, 0, 1)];
    assert Climbed(m1, c) == Climbed(Refreshed(m1, 1), Top);
  }

  lemma ThirdNewer(s2: Stamp, s4: Stamp, s6: Stamp)
    requires Less(s4, s6)
    ensures var m, l := TwoMemory(s2, s4), Branch(Leaf, 2, Leaf);
            var c := InRight(l, 1, Top);
            && Hole(m, Branch(l, 1, Leaf), s6, Top) == c && !Unbalances(m, c, 1)
            && Settled(m, c, Branch(Leaf, 3, Leaf), 1) == Branch(l, 1, Branch(Leaf, 3, Leaf))
            && Climbed(Attached(Bumped(m, c, 1), c, 3, s6), c) == ThreeMemory(s2, s4, s6)
  {
    var m, l := TwoMemory(s2, s4), Branch(Leaf, 2, Leaf);
    var c := InRight(l, 1, Top);
    assert Bumped(m, c, 1) == m[1 := m[1].(weight := 1)];
    var m1 := Attached(Bumped(m, c, 1), c, 3, s6);
    assert m1 == m[1 := Node(s4, NULL, 2, 3, 1, 2)][3 := Node(s6, 1, NULL, NULL, 0, 1)];
    assert Climbed(m1, c) == Climbed(Refreshed(m1, 1), Top);
  }

  lemma FourthBetween(s2: Stamp, s4: Stamp, s5: Stamp, s6: Stamp)
    requires Less(s4, s5) && Less(s5, s6)
    ensures var m, l := ThreeMemory(s2, s4, s6), Branch(Leaf, 2, Leaf);
            var c := InLeft(3, Leaf, InRight(l, 1, Top));
            && Hole(m, Branch(l, 1, Branch(Leaf, 3, Leaf)), s5, Top) == c && !Unbalances(m, c, 1)
            && Settled(m, c, Branch(Leaf, 4, Leaf), 1) == FourShape()
            && Climbed(Attached(Bumped(m, c, 1), c, 4, s5), c) == FourMemory(s2, s4, s5, s6)
  {
    var m, l := ThreeMemory(s2, s4, s6), Branch(Leaf, 2, Leaf);
    var c1 := InRight(l, 1, Top);
    var c := InLeft(3, Leaf, c1);
    assert Hole(m, Branch(l, 1, Branch(Leaf, 3, Leaf)), s5, Top) == Hole(m, Branch(Leaf, 3, Leaf), s5, c1);
    assert Hole(m, Branch(Leaf, 3, Leaf), s5, c1) == Hole(m, Leaf, s5, c) == c;
    assert Bumped(m, c1, 1) == m[1 := m[1].(weight := 2)];
    assert Bumped(m, c, 1) == Bumped(m, c1, 1);
    var m1 := Attached(Bumped(m, c, 1), c, 4, s5);
    assert m1 ==
           m[1 := Node(s4, NULL, 2, 3, 2, 2)][3 := Node(s6, 1, 4, NULL, 0, 1)][4 := Node(s5, 3, NULL, NULL, 0, 1)];
    var m2 := Refreshed(m1, 3);
    assert m2 == m1[3 := Node(s6, 1, 4, NULL, 0, 2)];
    assert Climbed(m1, c) == Climbed(m2, c1) == Climbed(Refreshed(m2, 1), Top);
  }

  method GrowByOlder(s2: Stamp, s4: Stamp) returns (tree: SearchTree)
    requires Less(s2, s4)
    ensures fresh(tree) && tree.Valid() && tree.shape == Branch(Branch(Leaf, 2, Leaf), 1, Leaf)
    ensures tree.mem == TwoMemory(s2, s4)
  {
    tree := GrowByOne(s4);
    AddOlder(tree, s2, s4);
  }

  method AddOlder(tree: SearchTree, s2: Stamp, s4: Stamp)
    requires tree.Valid() && tree.shape == Branch(Leaf, 1, Leaf) && tree.mem == OneMemory(s4) && Less(s2, s4)
    modifies tree
    ensures tree.Valid() && tree.shape == Branch(Branch(Leaf, 2, Leaf), 1, Leaf) && tree.mem == TwoMemory(s2, s4)
  {
    SecondOlder(s2, s4);
    var rotated := tree.InsertTreeNode(2, s2);
  }

  method AddNewer(tree: SearchTree, s2: Stamp, s4: Stamp, s6: Stamp)
    requires tree.Valid() && tree.shape == Branch(Branch(Leaf, 2, Leaf), 1, Leaf) && tree.mem == TwoMemory(s2, s4)
    requires Less(s2, s4) && Less(s4, s6)
    modifies tree
    ensures tree.Valid() && tree.shape == Branch(Branch(Leaf, 2, Leaf), 1, Branch(Leaf, 3, Leaf))
    ensures tree.mem == ThreeMemory(s2, s4, s6)
  {
    ThirdNewer(s2, s4, s6);
    var rotated := tree.InsertTreeNode(3, s6);
  }

  method AddBetween(tree: SearchTree, s2: Stamp, s4: Stamp, s5: Stamp, s6: Stamp)
    requires tree.Valid() && tree.shape == Branch(Branch(Leaf, 2, Leaf), 1, Branch(Leaf, 3, Leaf))
    requires tree.mem == ThreeMemory(s2, s4, s6) && Less(s2, s4) && Less(s4, s5) && Less(s5, s6)
    modifies tree
    ensures tree.Valid() && tree.shape == FourShape() && tree.mem == FourMemory(s2, s4, s5, s6)
  {
    FourthBetween(s2, s4, s5, s6);
    var rotated := tree.InsertTreeNode(4, s5);
  }

  method GrowByFour(s2: Stamp, s4: Stamp, s5: Stamp, s6: Stamp) returns (tree: SearchTree)
    requires Less(s2, s4) && Less(s4, s5) && Less(s5, s6)
    ensures fresh(tree) && tree.Valid() && tree.shape == FourShape() && tree.mem == FourMemory(s2, s4, s5, s6)
  {
    tree := GrowByOlder(s2, s4);
    AddNewer(tree, s2, s4, s6);
    AddBetween(tree, s2, s4, s5, s6);
  }

  /** Taking out 4 puts 5 in its place, with the weight it had below 6: nothing tilts, and no item is counted as newer
      than 5 although 6 is. */
  lemma FourVacated(m: Memory)
    requires m.Keys == {1, 2, 3, 4} && m[2].height == 1 && m[3].height == 2
    ensures Vacated(FourShape()) == Branch(Branch(Leaf, 2, Leaf), 4, Branch(Leaf, 3, Leaf))
    ensures !RemovalTilts(m, Top, FourShape())
  {
    var r := Branch(Branch(Leaf, 4, Leaf), 3, Leaf);
    assert Least(r) == Least(Branch(Leaf, 4, Leaf)) == 4;
    assert Lesser(r) == Branch(Lesser(Branch(Leaf, 4, Leaf)), 3, Leaf) == Branch(Leaf, 3, Leaf);
  }

  lemma FourWeights(m: Memory)
    requires m.Keys == {1, 2, 3, 4} && m[1].weight == 2 && m[2].weight == 0 && m[3].weight == 0 && m[4].weight == 0
    ensures Weights(m, FourShape())
  {
    assert Weights(m, Branch(Leaf, 2, Leaf)) && Weights(m, Branch(Leaf, 4, Leaf));
    assert Weights(m, Branch(Branch(Leaf, 4, Leaf), 3, Leaf));
    assert Size(Branch(Branch(Leaf, 4, Leaf), 3, Leaf)) == Size(Branch(Leaf, 4, Leaf)) + 1 == 2;
  }

  method RemoveTop(tree: SearchTree) returns (ghost rotated: bool)
    requires tree.Valid() && tree.shape == FourShape() && tree.mem.Keys == {1, 2, 3, 4}
    requires tree.mem[2].height == 1 && tree.mem[3].height == 2 && tree.mem[4].weight == 0
    modifies tree
    ensures !rotated && tree.Valid() && tree.shape == Branch(Branch(Leaf, 2, Leaf), 4, Branch(Leaf, 3, Leaf))
    ensures tree.mem.Keys == {2, 3, 4} && tree.mem[4].weight == 0
  {
    ghost var m, r := tree.mem, tree.root;
    FourVacated(m);
    ghost var c, t;
    rotated, c, t := tree.Remove(1);
    assert c.Top? by {
      Children(m, r, c, t);
      Children(m, r, Top, FourShape());
    }
  }

  /** A removal that spoils right weights without any rotation: of the items 4, 2, 6, 5 the item 4 is removed, and 5
      then reports a reuse distance of 0 although one item is newer. */
  method RemoveSpoils(s2: Stamp, s4: Stamp, s5: Stamp, s6: Stamp)
      returns (tree: SearchTree, ghost right: bool, ghost rotated: bool, x: int)
    requires Less(s2, s4) && Less(s4, s5) && Less(s5, s6)
    ensures tree.Valid() && tree.mem.Keys == {2, 3, 4} && right && !rotated
    ensures x == 0 && |Newer(tree.mem, 4)| == 1
  {
    tree := GrowByFour(s2, s4, s5, s6);
    right := Weights(tree.mem, tree.shape);
    FourWeights(tree.mem);
    rotated := RemoveTop(tree);
    x := tree.ReuseDistance(4);
    NewerAfter(tree.mem, tree.root, Top, tree.shape);
  }
}
