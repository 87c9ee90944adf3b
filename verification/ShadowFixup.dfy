/** The tree that a removal from the shadow tree of src/shadows.c leaves, told from the heights stored before it, and
    the one tree in which the weights are then right. */
module ShadowFixup {
  import opened Basics
  import opened Addresses
  import opened ShadowShapes
  import opened ShadowEdits
  import opened ShadowRemoval
  import opened ShadowHeights

  ghost predicate SameHeights(m: Memory, m': Memory) { forall q :: Height(m', q) == Height(m, q) }

  /** The nodes of the tree are distinct and have stored heights. */
  ghost predicate Sound(mem: Memory, c: Ctx, t: Shape) {
    && t.Branch? && NULL !in mem && Distinct(Flat(Plug(c, t)))
    && forall q <- Flat(Plug(c, t)) :: q in mem
  }

  // ---------- heights only ----------

  /** The height of the top node of t computed anew. */
  ghost function Fresh(mem: Memory, t: Shape): Memory {
    if t.Branch? && t.p in mem
    then mem[t.p := mem[t.p].(height := 1 + Max(Height(mem, Root(t.l)), Height(mem, Root(t.r))))] else mem
  }

  /** The heights after a rotation of t. */
  ghost function TurnsR(mem: Memory, t: Shape): Memory
    requires t.Branch? && t.l.Branch?
  {
    Fresh(Fresh(mem, RotR(t).r), RotR(t))
  }

  ghost function TurnsL(mem: Memory, t: Shape): Memory
    requires t.Branch? && t.r.Branch?
  {
    Fresh(Fresh(mem, RotL(t).l), RotL(t))
  }

  lemma FreshIs(mem: Memory, t: Shape)
    requires t.Branch? && t.p in mem
    ensures Fresh(mem, t).Keys == mem.Keys && Elsewhere(mem, Fresh(mem, t), t.p, t.p)
    ensures Height(Fresh(mem, t), t.p) == 1 + Max(Height(mem, Root(t.l)), Height(mem, Root(t.r)))
  {}

  /** The top node, a child of it and the subtrees below them are different nodes. */
  lemma Apart(t: Shape, left: bool)
    requires t.Branch? && NULL !in Flat(t) && Distinct(Flat(t)) && if left then t.l.Branch? else t.r.Branch?
    ensures var y, u, v, w := if left then t.l.p else t.r.p, if left then Root(t.r) else Root(t.l),
                              Root((if left then t.l else t.r).l), Root((if left then t.l else t.r).r);
            t.p != y && u != t.p && u != y && v != t.p && v != y && w != t.p && w != y
  {
    var s := if left then t.l else t.r;
    ApartBranch(t);
    ApartBranch(s);
    Heads(Top, t.l);
    Heads(Top, t.r);
    Heads(Top, s.l);
    Heads(Top, s.r);
  }

  lemma TurnsRight(mem: Memory, t: Shape)
    requires t.Branch? && t.l.Branch? && Distinct(Flat(t)) && NULL !in Flat(t) && t.p in mem && t.l.p in mem
    ensures TurnedRight(mem, TurnsR(mem, t), t) && TurnsR(mem, t).Keys == mem.Keys
  {
    Apart(t, true);
    FreshIs(mem, RotR(t).r);
    FreshIs(Fresh(mem, RotR(t).r), RotR(t));
  }

  lemma TurnsLeft(mem: Memory, t: Shape)
    requires t.Branch? && t.r.Branch? && Distinct(Flat(t)) && NULL !in Flat(t) && t.p in mem && t.r.p in mem
    ensures TurnedLeft(mem, TurnsL(mem, t), t) && TurnsL(mem, t).Keys == mem.Keys
  {
    Apart(t, false);
    FreshIs(mem, RotL(t).l);
    FreshIs(Fresh(mem, RotL(t).l), RotL(t));
  }

  /** A rotation determines the heights after it by those before it. */
  lemma RightDetermined(m: Memory, m1: Memory, mem: Memory, mem1: Memory, t: Shape)
    requires t.Branch? && t.l.Branch? && SameHeights(m, mem) && TurnedRight(m, m1, t) && TurnedRight(mem, mem1, t)
    ensures SameHeights(m1, mem1)
  {}

  lemma LeftDetermined(m: Memory, m1: Memory, mem: Memory, mem1: Memory, t: Shape)
    requires t.Branch? && t.r.Branch? && SameHeights(m, mem) && TurnedLeft(m, m1, t) && TurnedLeft(mem, mem1, t)
    ensures SameHeights(m1, mem1)
  {}

  // ---------- one unbalanced node ----------

  predicate LeftHeavy(mem: Memory, t: Shape)
    requires t.Branch?
  {
    t.l.Branch? && Height(mem, Root(t.l)) > Height(mem, Root(t.r))
  }

  /** The tree after the rotation that delete_fixup chooses at the top of t, by the stored heights of its children and
      of the children of the taller one. */
  ghost function Bent(mem: Memory, t: Shape): Shape
    requires t.Branch? && (t.l.Branch? || t.r.Branch?)
  {
    if LeftHeavy(mem, t) then
      if Height(mem, Root(t.l.l)) >= Height(mem, Root(t.l.r)) || t.l.r.Leaf? then RotR(t)
      else RotR(t.(l := RotL(t.l)))
    else if t.r.Leaf? then t
    else if Height(mem, Root(t.r.r)) >= Height(mem, Root(t.r.l)) || t.r.l.Leaf? then RotL(t)
    else RotL(t.(r := RotR(t.r)))
  }

  ghost function BentHeights(mem: Memory, t: Shape): Memory
    requires t.Branch? && (t.l.Branch? || t.r.Branch?)
  {
    if LeftHeavy(mem, t) then
      if Height(mem, Root(t.l.l)) >= Height(mem, Root(t.l.r)) || t.l.r.Leaf? then TurnsR(mem, t)
      else TurnsR(TurnsL(mem, t.l), t.(l := RotL(t.l)))
    else if t.r.Leaf? then mem
    else if Height(mem, Root(t.r.r)) >= Height(mem, Root(t.r.l)) || t.r.l.Leaf? then TurnsL(mem, t)
    else TurnsL(TurnsR(mem, t.r), t.(r := RotR(t.r)))
  }

  /** What is known of the nodes of a tilted tree. */
  ghost predicate Leaning(mem: Memory, t: Shape) {
    && t.Branch? && NULL !in mem && Distinct(Flat(t)) && (forall q <- Flat(t) :: q in mem)
    && Tilted(Height(mem, Root(t.l)), Height(mem, Root(t.r)))
  }

  lemma BentLeft(mem: Memory, t: Shape)
    requires Leaning(mem, t) && Height(mem, Root(t.l)) > Height(mem, Root(t.r))
    ensures LeftHeavy(mem, t) && Rotation(t, Bent(mem, t)) && BentHeights(mem, t).Keys == mem.Keys
    ensures Calmer(mem, t, BentHeights(mem, t), Bent(mem, t))
  {
    ApartBranch(t);
    ApartBranch(t.l);
    Heads(Top, t.l);
    Heads(Top, t.l.r);
    if Height(mem, Root(t.l.l)) >= Height(mem, Root(t.l.r)) {
      TurnsRight(mem, t);
      CalmerRight(mem, TurnsR(mem, t), t);
    } else {
      var m, u := TurnsL(mem, t.l), t.(l := RotL(t.l));
      TurnsLeft(mem, t.l);
      FlatInside(t, true);
      TurnsRight(m, u);
      LeftRightSides(mem, m, TurnsR(m, u), t);
      CalmerLeftRight(mem, TurnsR(m, u), t);
    }
  }

  lemma BentRight(mem: Memory, t: Shape)
    requires Leaning(mem, t) && Height(mem, Root(t.l)) < Height(mem, Root(t.r))
    ensures t.r.Branch? && Rotation(t, Bent(mem, t)) && BentHeights(mem, t).Keys == mem.Keys
    ensures Calmer(mem, t, BentHeights(mem, t), Bent(mem, t))
  {
    ApartBranch(t);
    ApartBranch(t.r);
    Heads(Top, t.r);
    Heads(Top, t.r.l);
    if Height(mem, Root(t.r.r)) >= Height(mem, Root(t.r.l)) {
      TurnsLeft(mem, t);
      CalmerLeft(mem, TurnsL(mem, t), t);
    } else {
      var m, u := TurnsR(mem, t.r), t.(r := RotR(t.r));
      TurnsRight(mem, t.r);
      FlatInside(t, false);
      TurnsLeft(m, u);
      RightLeftSides(mem, m, TurnsL(m, u), t);
      CalmerRightLeft(mem, TurnsL(m, u), t);
    }
  }

  /** A rotation of one side keeps the order. */
  lemma FlatInside(t: Shape, left: bool)
    requires t.Branch? && if left then t.l.Branch? && t.l.r.Branch? else t.r.Branch? && t.r.l.Branch?
    ensures Flat(if left then t.(l := RotL(t.l)) else t.(r := RotR(t.r))) == Flat(t)
  {
    if left { RotationFlat(t.l, RotL(t.l)); } else { RotationFlat(t.r, RotR(t.r)); }
  }

  lemma BentCalmer(mem: Memory, t: Shape)
    requires Leaning(mem, t)
    ensures (t.l.Branch? || t.r.Branch?) && Rotation(t, Bent(mem, t)) && BentHeights(mem, t).Keys == mem.Keys
    ensures Calmer(mem, t, BentHeights(mem, t), Bent(mem, t))
  {
    if Height(mem, Root(t.l)) > Height(mem, Root(t.r)) { BentLeft(mem, t); } else { BentRight(mem, t); }
  }

  // ---------- the climb ----------

  lemma SoundBelow(mem: Memory, c: Ctx, t: Shape)
    requires Sound(mem, c, t)
    ensures Distinct(Flat(t)) && (forall q <- Flat(t) :: q in mem) && t.p in mem && NULL !in Flat(t)
    ensures !c.Top? ==> Plug(c.up, Above(c, t)) == Plug(c, t)
  {
    PlugFlat(c, t);
    ApartCtx(c, t);
    Heads(c, t);
    assert forall q <- Flat(t) :: q in Flat(Plug(c, t));
  }

  /** Refreshing the height of the top node leaves the measure of the climb alone. */
  lemma FreshBelow(mem: Memory, t: Shape)
    requires t.Branch? && NULL !in mem && Distinct(Flat(t)) && t.p in mem
    ensures Fresh(mem, t).Keys == mem.Keys && Elsewhere(mem, Fresh(mem, t), t.p, t.p)
    ensures StaleBelow(Fresh(mem, t), t) == StaleBelow(mem, t) && Uneven(Fresh(mem, t), t) == Uneven(mem, t)
    ensures Tilted(Height(Fresh(mem, t), Root(t.l)), Height(Fresh(mem, t), Root(t.r))) <==>
            Tilted(Height(mem, Root(t.l)), Height(mem, Root(t.r)))
  {
    ApartBranch(t);
    Spared(mem, Fresh(mem, t), t.p, t.p, t.l);
    Spared(mem, Fresh(mem, t), t.p, t.p, t.r);
  }

  /** One round of delete_fixup at t: its height refreshed, then a rotation if it is out of balance. */
  lemma Round(mem: Memory, c: Ctx, t: Shape)
    requires Sound(mem, c, t)
    ensures Sound(Fresh(mem, t), c, t)
    ensures !c.Top? ==> Sound(Fresh(mem, t), c.up, Above(c, t))
    ensures var m := Fresh(mem, t);
            Tilted(Height(m, Root(t.l)), Height(m, Root(t.r))) ==>
              && (t.l.Branch? || t.r.Branch?) && Rotation(t, Bent(m, t)) && Sound(BentHeights(m, t), c, Bent(m, t))
              && Calmer(mem, t, BentHeights(m, t), Bent(m, t))
  {
    SoundBelow(mem, c, t);
    FreshBelow(mem, t);
    var m := Fresh(mem, t);
    if Tilted(Height(m, Root(t.l)), Height(m, Root(t.r))) {
      BentCalmer(m, t);
      RotatedOrder(c, t, Bent(m, t));
      RotationChild(t, Bent(m, t));
    }
  }

  /** The tree that delete_fixup leaves when it starts at the top of t in the hole of c. */
  ghost function Leveled(mem: Memory, c: Ctx, t: Shape): Shape
    requires Sound(mem, c, t)
    decreases Depth(c), StaleBelow(mem, t), Uneven(mem, t)
  {
    Round(mem, c, t);
    var m := Fresh(mem, t);
    if Tilted(Height(m, Root(t.l)), Height(m, Root(t.r))) then Leveled(BentHeights(m, t), c, Bent(m, t))
    else if c.Top? then t
    else Leveled(m, c.up, Above(c, t))
  }

  lemma FreshSame(mem: Memory, mem': Memory, t: Shape)
    requires SameHeights(mem, mem')
    ensures SameHeights(Fresh(mem, t), Fresh(mem', t))
  {
    if t.Branch? {
      assert Height(mem', t.p) == Height(mem, t.p) && Height(mem', Root(t.l)) == Height(mem, Root(t.l)) &&
             Height(mem', Root(t.r)) == Height(mem, Root(t.r));
      forall q ensures Height(Fresh(mem', t), q) == Height(Fresh(mem, t), q) {
        assert Height(mem', q) == Height(mem, q);
      }
    }
  }

  lemma BentSame(mem: Memory, mem': Memory, t: Shape)
    requires SameHeights(mem, mem') && t.Branch? && (t.l.Branch? || t.r.Branch?)
    ensures Bent(mem', t) == Bent(mem, t) && SameHeights(BentHeights(mem, t), BentHeights(mem', t))
  {
    if LeftHeavy(mem, t) {
      if Height(mem, Root(t.l.l)) >= Height(mem, Root(t.l.r)) || t.l.r.Leaf? {
        TurnsSame(mem, mem', t, false);
      } else {
        TurnsSame(mem, mem', t.l, true);
        TurnsSame(TurnsL(mem, t.l), TurnsL(mem', t.l), t.(l := RotL(t.l)), false);
      }
    } else if t.r.Branch? {
      if Height(mem, Root(t.r.r)) >= Height(mem, Root(t.r.l)) || t.r.l.Leaf? {
        TurnsSame(mem, mem', t, true);
      } else {
        TurnsSame(mem, mem', t.r, false);
        TurnsSame(TurnsR(mem, t.r), TurnsR(mem', t.r), t.(r := RotR(t.r)), true);
      }
    }
  }

  lemma TurnsSame(mem: Memory, mem': Memory, t: Shape, left: bool)
    requires SameHeights(mem, mem') && t.Branch? && if left then t.r.Branch? else t.l.Branch?
    ensures left ==> SameHeights(TurnsL(mem, t), TurnsL(mem', t))
    ensures !left ==> SameHeights(TurnsR(mem, t), TurnsR(mem', t))
  {
    if left {
      FreshSame(mem, mem', RotL(t).l);
      FreshSame(Fresh(mem, RotL(t).l), Fresh(mem', RotL(t).l), RotL(t));
    } else {
      FreshSame(mem, mem', RotR(t).r);
      FreshSame(Fresh(mem, RotR(t).r), Fresh(mem', RotR(t).r), RotR(t));
    }
  }

  /** The climb looks at stored heights only. */
  lemma {:induction false} LeveledSame(mem: Memory, mem': Memory, c: Ctx, t: Shape)
    requires Sound(mem, c, t) && Sound(mem', c, t) && SameHeights(mem, mem')
    ensures Leveled(mem', c, t) == Leveled(mem, c, t)
    decreases Depth(c), StaleBelow(mem, t), Uneven(mem, t)
  {
    Round(mem, c, t);
    Round(mem', c, t);
    var m, m' := Fresh(mem, t), Fresh(mem', t);
    FreshSame(mem, mem', t);
    if Tilted(Height(m, Root(t.l)), Height(m, Root(t.r))) {
      BentSame(m, m', t);
      LeveledSame(BentHeights(m, t), BentHeights(m', t), c, Bent(m, t));
    } else if !c.Top? {
      LeveledSame(m, m', c.up, Above(c, t));
    }
  }

  // ---------- what the program's rotations do to the heights ----------

  lemma TreeIsSound(mem: Memory, root: Ptr, c: Ctx, t: Shape)
    requires IsTree(mem, root, Plug(c, t)) && t.Branch?
    ensures Sound(mem, c, t)
  {
    ElemsIn(Flat(Plug(c, t)));
  }

  lemma TreeLeans(mem: Memory, root: Ptr, c: Ctx, t: Shape)
    requires IsTree(mem, root, Plug(c, t)) && t.Branch? && Tilted(Height(mem, Root(t.l)), Height(mem, Root(t.r)))
    ensures Leaning(mem, t)
  {
    TreeIsSound(mem, root, c, t);
    SoundBelow(mem, c, t);
  }

  /** A single rotation of an unbalanced node. */
  lemma OneTurn(mem: Memory, mem': Memory, t: Shape)
    requires Leaning(mem, t)
    requires LeftHeavy(mem, t) ==> TurnedRight(mem, mem', t) && Height(mem, Root(t.l.l)) >= Height(mem, Root(t.l.r))
    requires !LeftHeavy(mem, t) ==>
               t.r.Branch? && TurnedLeft(mem, mem', t) && Height(mem, Root(t.r.r)) >= Height(mem, Root(t.r.l))
    ensures Bent(mem, t) == (if LeftHeavy(mem, t) then RotR(t) else RotL(t)) && SameHeights(BentHeights(mem, t), mem')
  {
    ApartBranch(t);
    if LeftHeavy(mem, t) {
      Heads(Top, t.l);
      TurnsRight(mem, t);
      RightDetermined(mem, TurnsR(mem, t), mem, mem', t);
    } else {
      Heads(Top, t.r);
      TurnsLeft(mem, t);
      LeftDetermined(mem, TurnsL(mem, t), mem, mem', t);
    }
  }

  /** A double rotation, from the left and from the right. */
  lemma LeftRightTurns(mem: Memory, m: Memory, mem': Memory, t: Shape)
    requires Leaning(mem, t) && LeftHeavy(mem, t) && t.l.r.Branch? && TurnedLeft(mem, m, t.l)
    requires TurnedRight(m, mem', t.(l := RotL(t.l))) && Height(mem, Root(t.l.l)) < Height(mem, Root(t.l.r))
    ensures Bent(mem, t) == RotR(t.(l := RotL(t.l))) && SameHeights(BentHeights(mem, t), mem')
  {
    ApartBranch(t);
    ApartBranch(t.l);
    Heads(Top, t.l);
    Heads(Top, t.l.r);
    var u, m1 := t.(l := RotL(t.l)), TurnsL(mem, t.l);
    TurnsLeft(mem, t.l);
    LeftDetermined(mem, m1, mem, m, t.l);
    FlatInside(t, true);
    TurnsRight(m1, u);
    RightDetermined(m1, TurnsR(m1, u), m, mem', u);
  }

  lemma RightLeftTurns(mem: Memory, m: Memory, mem': Memory, t: Shape)
    requires Leaning(mem, t) && !LeftHeavy(mem, t) && t.r.Branch? && t.r.l.Branch? && TurnedRight(mem, m, t.r)
    requires TurnedLeft(m, mem', t.(r := RotR(t.r))) && Height(mem, Root(t.r.r)) < Height(mem, Root(t.r.l))
    ensures Bent(mem, t) == RotL(t.(r := RotR(t.r))) && SameHeights(BentHeights(mem, t), mem')
  {
    ApartBranch(t);
    ApartBranch(t.r);
    Heads(Top, t.r);
    Heads(Top, t.r.l);
    var u, m1 := t.(r := RotR(t.r)), TurnsR(mem, t.r);
    TurnsRight(mem, t.r);
    RightDetermined(mem, m1, mem, m, t.r);
    FlatInside(t, false);
    TurnsLeft(m1, u);
    LeftDetermined(m1, TurnsL(m1, u), m, mem', u);
  }

  /** After one round of the program the tree to come is the same. */
  lemma RotatedRound(mem: Memory, c: Ctx, t: Shape, mem': Memory, root: Ptr, t': Shape)
    requires Sound(mem, c, t) && Tilted(Height(mem, Root(t.l)), Height(mem, Root(t.r))) && (t.l.Branch? || t.r.Branch?)
    requires t' == Bent(Fresh(mem, t), t) && SameHeights(BentHeights(Fresh(mem, t), t), mem')
    requires IsTree(mem', root, Plug(c, t')) && t'.Branch?
    ensures Sound(mem', c, t') && Leveled(mem', c, t') == Leveled(mem, c, t)
  {
    Round(mem, c, t);
    SoundBelow(mem, c, t);
    FreshBelow(mem, t);
    TreeIsSound(mem', root, c, t');
    LeveledSame(BentHeights(Fresh(mem, t), t), mem', c, t');
  }

  lemma BalancedRound(mem: Memory, c: Ctx, t: Shape, mem': Memory, root: Ptr)
    requires Sound(mem, c, t) && !Tilted(Height(mem, Root(t.l)), Height(mem, Root(t.r)))
    requires SameHeights(Fresh(mem, t), mem') && IsTree(mem', root, Plug(c, t))
    ensures c.Top? ==> Leveled(mem, c, t) == t == Plug(c, t)
    ensures !c.Top? ==> Sound(mem', c.up, Above(c, t)) && Leveled(mem', c.up, Above(c, t)) == Leveled(mem, c, t)
  {
    Round(mem, c, t);
    SoundBelow(mem, c, t);
    FreshBelow(mem, t);
    if !c.Top? {
      TreeIsSound(mem', root, c.up, Above(c, t));
      LeveledSame(Fresh(mem, t), mem', c.up, Above(c, t));
    }
  }

  // ---------- the tree with right weights ----------

  /** r with l hanging below its leftmost node. */
  function Hung(l: Shape, r: Shape): Shape {
    if r.Leaf? then l else r.(l := Hung(l, r.l))
  }

  lemma {:induction false} HungFlat(l: Shape, r: Shape)
    ensures Flat(Hung(l, r)) == Flat(l) + Flat(r) && Size(Hung(l, r)) == Size(l) + Size(r)
    decreases r
  {
    if r.Leaf? {
      assert Flat(l) + [] == Flat(l);
    } else {
      HungFlat(l, r.l);
      assert Flat(l) + Flat(r.l) + [r.p] + Flat(r.r) == Flat(l) + (Flat(r.l) + [r.p] + Flat(r.r));
    }
  }

  lemma {:induction false} HungWeights(mem: Memory, l: Shape, r: Shape)
    requires Weights(mem, l) && Weights(mem, r)
    ensures Weights(mem, Hung(l, r))
    decreases r
  {
    if r.Branch? { HungWeights(mem, l, r.l); }
  }

  /** Without the top node of t the prepared weights are right where its left subtree hangs below its successor. */
  lemma HungIsRight(mem: Memory, c: Ctx, t: Shape)
    requires t.Branch? && Weights(mem, t) && WeightsCtx(mem, c, Size(t) - 1)
    ensures Weights(mem, Plug(c, Hung(t.l, t.r)))
  {
    HungFlat(t.l, t.r);
    HungWeights(mem, t.l, t.r);
    PlugWeights(mem, c, Hung(t.l, t.r));
  }

  lemma {:induction false} LeastFlat(r: Shape)
    requires r.Branch?
    ensures Flat(r) == [Least(r)] + Flat(Lesser(r))
    decreases r
  {
    if r.l.Branch? {
      LeastFlat(r.l);
      assert [Least(r.l)] + Flat(Lesser(r.l)) + [r.p] + Flat(r.r) ==
             [Least(r.l)] + (Flat(Lesser(r.l)) + [r.p] + Flat(r.r));
    } else {
      assert [] + [r.p] + Flat(r.r) == [r.p] + Flat(r.r);
    }
  }

  /** It has the nodes of the tree that the removal makes, in the same order, and is that tree exactly when there was no
      successor to move or it was the right child. */
  lemma HungVacated(c: Ctx, t: Shape)
    requires t.Branch?
    ensures Flat(Plug(c, Hung(t.l, t.r))) == Flat(Plug(c, Vacated(t)))
    ensures Vacated(t) == Hung(t.l, t.r) <==> t.l.Leaf? || t.r.Leaf? || t.r.l.Leaf?
  {
    SameOrder(t);
    PlugFlat(c, Hung(t.l, t.r));
    PlugFlat(c, Vacated(t));
    if t.l.Leaf? { HungLeaf(t.r); }
  }

  lemma SameOrder(t: Shape)
    requires t.Branch?
    ensures Flat(Hung(t.l, t.r)) == Flat(Vacated(t))
  {
    if t.l.Branch? && t.r.Branch? {
      HungFlat(t.l, t.r);
      LeastFlat(t.r);
      assert Flat(t.l) + ([Least(t.r)] + Flat(Lesser(t.r))) == Flat(t.l) + [Least(t.r)] + Flat(Lesser(t.r));
    } else if t.l.Leaf? {
      HungLeaf(t.r);
    }
  }

  lemma {:induction false} HungLeaf(r: Shape)
    ensures Hung(Leaf, r) == r
    decreases r
  {
    if r.Branch? { HungLeaf(r.l); }
  }

  /** The tree after the removal of the top node of t. */
  ghost function Removed(mem: Memory, c: Ctx, t: Shape): Shape
    requires t.Branch?
  {
    if Sound(mem - {t.p}, c, Vacated(t)) then Leveled(mem - {t.p}, c, Vacated(t)) else Plug(c, Vacated(t))
  }

  /** After the removal, whatever rotates, weights prepared by fix_weights are right in that tree and in no other. */
  lemma RightAfter(m: Memory, mem: Memory, root: Ptr, c: Ctx, t: Shape, shape: Shape)
    requires t.Branch? && Weights(m, t) && WeightsCtx(m, c, Size(t) - 1) && OthersSame(m, mem, t.p)
    requires IsTree(mem, root, shape) && Flat(shape) == Flat(Plug(c, Vacated(t)))
    ensures Weights(mem, shape) <==> shape == Plug(c, Hung(t.l, t.r))
  {
    var right := Plug(c, Hung(t.l, t.r));
    HungIsRight(m, c, t);
    HungVacated(c, t);
    ElemsIn(Flat(shape));
    WeightsFrame(m, mem, right);
    if Weights(mem, shape) { OneShape(mem, shape, right); }
  }

  /** The climb after a removal sees the heights of before it. */
  lemma RemovedSeen(mem: Memory, m: Memory, root: Ptr, c: Ctx, t: Shape)
    requires t.Branch? && IsTree(m, root, Plug(c, Vacated(t))) && HeightsKept(mem, m) && m.Keys == mem.Keys - {t.p}
    ensures Vacated(t).Branch? ==>
              Sound(m, c, Vacated(t)) && Removed(mem, c, t) == Leveled(m, c, Vacated(t))
    ensures Vacated(t).Leaf? ==> Removed(mem, c, t) == Plug(c, Vacated(t))
  {
    if Vacated(t).Branch? {
      TreeIsSound(m, root, c, Vacated(t));
      assert (mem - {t.p}).Keys == m.Keys;
      LeveledSame(mem - {t.p}, m, c, Vacated(t));
    }
  }

  /** All of this is decided by stored heights. */
  lemma RemovedSame(mem: Memory, mem': Memory, c: Ctx, t: Shape)
    requires t.Branch? && mem'.Keys == mem.Keys && SameHeights(mem, mem')
    ensures Removed(mem', c, t) == Removed(mem, c, t) && (RemovalTilts(mem', c, t) <==> RemovalTilts(mem, c, t))
  {
    var m, m' := mem - {t.p}, mem' - {t.p};
    assert m'.Keys == m.Keys;
    forall q ensures Height(m', q) == Height(m, q) { assert Height(mem', q) == Height(mem, q); }
    if Sound(m, c, Vacated(t)) { LeveledSame(m, m', c, Vacated(t)); }
    SameEverywhere(mem, mem', c);
    TiltsSame(mem, mem', c, t);
  }

  lemma {:induction false} SameEverywhere(mem: Memory, mem': Memory, c: Ctx)
    requires SameHeights(mem, mem')
    ensures SameAlong(mem, mem', c)
    decreases c
  {
    if !c.Top? { SameEverywhere(mem, mem', c.up); }
  }

  lemma TiltsSame(mem: Memory, mem': Memory, c: Ctx, t: Shape)
    requires t.Branch? && SameHeights(mem, mem') && SameAlong(mem, mem', c)
    ensures RemovalTilts(mem', c, t) <==> RemovalTilts(mem, c, t)
  {
    if t.l.Leaf? && t.r.Leaf? {
    } else if t.l.Leaf? {
      TiltsFrame(mem, mem', c, Height(mem, Root(t.r.l)), Height(mem, Root(t.r.r)));
    } else if t.r.Leaf? {
      TiltsFrame(mem, mem', c, Height(mem, Root(t.l.l)), Height(mem, Root(t.l.r)));
    } else {
      TiltsFrame(mem, mem', c, Height(mem, Root(t.l)), Height(mem, if t.r.l.Leaf? then Root(t.r.r) else Root(t.r)));
    }
  }

  /** The left child 1 low, the right child 4 high with the successor 3 on its left: the removal of 2 rotates, and the
      rotation leaves just the tree in which the weights are right, though without it they would not be. */
  lemma RotationHeals(mem: Memory)
    requires mem.Keys == {1, 2, 3, 4, 5} && mem[1].height == 0 && mem[3].height == 0
    requires mem[4].height == 2 && mem[5].height == 1
    ensures var t := Branch(Branch(Leaf, 1, Leaf), 2, Branch(Branch(Leaf, 3, Leaf), 4, Branch(Leaf, 5, Leaf)));
            RemovalTilts(mem, Top, t) && Removed(mem, Top, t) == Hung(t.l, t.r) != Vacated(t)
  {
    var l, w := Branch(Leaf, 1, Leaf), Branch(Leaf, 5, Leaf);
    var t := Branch(l, 2, Branch(Branch(Leaf, 3, Leaf), 4, w));
    assert Vacated(t) == Branch(l, 3, Branch(Leaf, 4, w)) && Hung(t.l, t.r) == Branch(Branch(l, 3, Leaf), 4, w);
    HealsFrom(mem - {2});
  }

  lemma HealsFrom(m: Memory)
    requires m.Keys == {1, 3, 4, 5} && m[1].height == 0 && m[3].height == 0 && m[4].height == 2 && m[5].height == 1
    ensures var l, w := Branch(Leaf, 1, Leaf), Branch(Leaf, 5, Leaf);
            var v := Branch(l, 3, Branch(Leaf, 4, w));
            Sound(m, Top, v) && Leveled(m, Top, v) == Branch(Branch(l, 3, Leaf), 4, w)
  {
    var l, w := Branch(Leaf, 1, Leaf), Branch(Leaf, 5, Leaf);
    var v, g := Branch(l, 3, Branch(Leaf, 4, w)), Branch(Branch(l, 3, Leaf), 4, w);
    FourNodes(m, v);
    SoundBelow(m, Top, v);
    Round(m, Top, v);
    var m1 := Fresh(m, v);
    assert Bent(m1, v) == g && BentHeights(m1, v) == TurnsL(m1, v);
    TurnsLeft(m1, v);
    LevelAtTop(TurnsL(m1, v), g);
  }

  lemma FourNodes(m: Memory, v: Shape)
    requires m.Keys == {1, 3, 4, 5} && v == Branch(Branch(Leaf, 1, Leaf), 3, Branch(Leaf, 4, Branch(Leaf, 5, Leaf)))
    ensures Sound(m, Top, v)
  {
    assert Flat(v) == [1, 3, 4, 5] && Distinct([5]) && Distinct([4, 5]) && Distinct([3, 4, 5]);
  }

  lemma LevelAtTop(m: Memory, t: Shape)
    requires Sound(m, Top, t) && !Tilted(Height(m, Root(t.l)), Height(m, Root(t.r)))
    ensures Leveled(m, Top, t) == t
  {
    SoundBelow(m, Top, t);
    FreshBelow(m, t);
  }
}
