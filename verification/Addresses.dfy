/** Addresses and sequences of addresses without repetition. */
module Addresses {

  type Ptr = nat
  const NULL: Ptr := 0

  /** No address twice. */
  ghost predicate Distinct(s: seq<Ptr>) {
    s != [] ==> s[0] !in s[1..] && Distinct(s[1..])
  }

  ghost function Elems(s: seq<Ptr>): set<Ptr> {
    if s == [] then {} else {s[0]} + Elems(s[1..])
  }

  lemma {:induction false} ElemsIn(s: seq<Ptr>)
    ensures forall q :: q in Elems(s) <==> q in s
    decreases s
  {
    if s != [] {
      ElemsIn(s[1..]);
      assert forall q :: q in s <==> q == s[0] || q in s[1..];
    }
  }

  lemma {:induction false} DistinctSplit(a: seq<Ptr>, b: seq<Ptr>)
    ensures Distinct(a + b) <==> Distinct(a) && Distinct(b) && (forall q <- a :: q !in b)
    decreases a
  {
    if a == [] {
      assert a + b == b;
    } else {
      assert (a + b)[1..] == a[1..] + b;
      DistinctSplit(a[1..], b);
      assert forall q :: q in a <==> q == a[0] || q in a[1..];
    }
  }

  lemma {:induction false} ElemsCount(s: seq<Ptr>)
    requires Distinct(s)
    ensures |Elems(s)| == |s|
    decreases s
  {
    if s != [] { ElemsCount(s[1..]); ElemsIn(s[1..]); }
  }
}
