/** The handshake by which trackers of different nodes trade pages (src/start_tracker.c, with the tracker locks of
    src/shm_malloc.c): a request H with a one-digit number, offers s that repeat the digit, and answers x, p and r, over
    a network that delays, reorders and loses messages. */
module Tracker {
  import opened Basics

  /** The digit is on the wire. round and offer are not: round counts the accepts of the requester before the request,
      offer names the offer that an answer is about. */
  datatype Msg =
    | H(from: nat, to: nat, digit: nat, round: nat)
    | S(from: nat, to: nat, digit: nat, round: nat, offer: nat)
    | X(from: nat, to: nat, offer: nat)
    | P(from: nat, to: nat, offer: nat)
    | R(from: nat, to: nat, offer: nat)

  /** mc_id, client and waiting of a tracker and the spare and min-score locks of its node; accepts counts the offers it
      accepted, open holds the offers it made that are neither answered nor timed out. */
  datatype Node = Node(mcId: nat, client: bool, waiting: bool, spareLock: bool, minLock: bool, accepts: nat,
      open: set<nat>)

  datatype World = World(nodes: seq<Node>, net: multiset<Msg>, nextOffer: nat)

  /** agree stands for the score comparisons a step makes. */
  datatype Event =
    | Broadcast(i: nat, to: nat) | Deliver(m: Msg, agree: bool) | Lose(m: Msg) | TimeOut(i: nat)
    | UnlockSpare(i: nat) | LockSpare(i: nat) | UnlockMin(i: nat)

  /** recv_msg for 's': a current digit, the better score and a free spare lock. */
  predicate Accepts(n: Node, m: Msg, agree: bool) {
    m.S? && m.digit == n.mcId && agree && !n.spareLock
  }

  /** recv_msg for 'H': not waiting for an answer, agreeable, and the min-score lock obtained. */
  predicate Offers(n: Node, m: Msg, agree: bool) {
    m.H? && !n.waiting && agree && !n.minLock
  }

  function BumpDigit(d: nat): nat { if d + 1 > 9 then 0 else d + 1 }

  /** The tracker's side of a delivered message. */
  function Handled(n: Node, m: Msg, agree: bool, nextOffer: nat): Node {
    match m
    case H(_, _, _, _) => if Offers(n, m, agree)
        then n.(waiting := true, minLock := true, open := n.open + {nextOffer}) else n
    case S(_, _, _, _, _) => if Accepts(n, m, agree)
        then n.(spareLock := true, mcId := BumpDigit(n.mcId), accepts := n.accepts + 1) else n
    case X(_, _, _) => n.(client := true)
    case P(_, _, o) => if n.client then n.(waiting := false, open := n.open - {o}) else n.(minLock := false)
    case R(_, _, o) => n.(waiting := false, minLock := false, open := n.open - {o})
  }

  /** What it sends in return. */
  function Answer(n: Node, m: Msg, agree: bool, nextOffer: nat): Option<Msg> {
    match m
    case H(from, to, d, r) => if Offers(n, m, agree) then Some(S(to, from, d, r, nextOffer)) else None
    case S(from, to, _, _, o) => if Accepts(n, m, agree) then Some(X(to, from, o)) else Some(R(to, from, o))
    case X(from, to, o) => Some(P(to, from, o))
    case P(from, to, o) => if n.client then None else Some(P(to, from, o))
    case R(_, _, _) => None
  }

  predicate Enabled(w: World, e: Event) {
    match e
    case Broadcast(i, to) => i < |w.nodes| && to < |w.nodes| && i != to
    case Deliver(m, agree) => m in w.net && m.to < |w.nodes| &&
        (m.H? && !w.nodes[m.to].waiting && agree ==> !w.nodes[m.to].minLock)
    case Lose(m) => m in w.net
    case TimeOut(i) => i < |w.nodes| && w.nodes[i].waiting
    case UnlockSpare(i) => i < |w.nodes|
    case LockSpare(i) => i < |w.nodes|
    case UnlockMin(i) => i < |w.nodes|
  }

  function Sent(net: multiset<Msg>, a: Option<Msg>): multiset<Msg> {
    if a.Some? then net + multiset{a.value} else net
  }

  function Next(w: World, e: Event): World
    requires Enabled(w, e)
  {
    match e
    case Broadcast(i, to) =>
      World(w.nodes[i := w.nodes[i].(client := false)],
          w.net + multiset{H(i, to, w.nodes[i].mcId, w.nodes[i].accepts)}, w.nextOffer)
    case Deliver(m, agree) =>
      var n := w.nodes[m.to];
      World(w.nodes[m.to := Handled(n, m, agree, w.nextOffer)],
          Sent(w.net - multiset{m}, Answer(n, m, agree, w.nextOffer)),
            if Offers(n, m, agree) then w.nextOffer + 1 else w.nextOffer)
    case Lose(m) => w.(net := w.net - multiset{m})
    case TimeOut(i) => w.(nodes := w.nodes[i := w.nodes[i].(waiting := false, minLock := false, open := {})])
    case UnlockSpare(i) => w.(nodes := w.nodes[i := w.nodes[i].(spareLock := false)])
    case LockSpare(i) => w.(nodes := w.nodes[i := w.nodes[i].(spareLock := true)])
    case UnlockMin(i) => w.(nodes := w.nodes[i := w.nodes[i].(minLock := false)])
  }

  /** The digit of a tracker is the number of its accepts modulo ten. */
  ghost predicate NodeOK(w: World, i: nat)
    requires i < |w.nodes|
  {
    w.nodes[i].mcId == w.nodes[i].accepts % 10
  }

  /** A request carries the digit of its round, and offers repeat both; rounds do not lie in the future. */
  ghost predicate MsgOK(w: World, m: Msg) {
    && (m.H? ==> m.from < |w.nodes| && m.digit == m.round % 10 && m.round <= w.nodes[m.from].accepts)
    && (m.S? ==> m.to < |w.nodes| && m.digit == m.round % 10 && m.round <= w.nodes[m.to].accepts)
  }

  ghost predicate Inv(w: World) {
    (forall i {:trigger NodeOK(w, i)} | 0 <= i < |w.nodes| :: NodeOK(w, i)) &&
        (forall m {:trigger MsgOK(w, m)} | m in w.net :: MsgOK(w, m))
  }

  /** Only a delivery changes a digit or a count of accepts, and it raises both. */
  lemma NodeStep(w: World, e: Event, i: nat)
    requires Enabled(w, e) && i < |w.nodes|
    ensures |Next(w, e).nodes| == |w.nodes|
    ensures var n, n' := w.nodes[i], Next(w, e).nodes[i];
            if AcceptsHere(w, e, i) then n'.accepts == n.accepts + 1 && n'.mcId == BumpDigit(n.mcId) && n'.spareLock
            else n'.accepts == n.accepts && n'.mcId == n.mcId && (n.spareLock && e != UnlockSpare(i) ==> n'.spareLock)
  {
    if e.Deliver? && e.m.to == i { HandledNode(w.nodes[i], e.m, e.agree, w.nextOffer); }
  }

  lemma HandledNode(n: Node, m: Msg, agree: bool, next: nat)
    ensures var n' := Handled(n, m, agree, next);
            if Accepts(n, m, agree) then n'.accepts == n.accepts + 1 && n'.mcId == BumpDigit(n.mcId) && n'.spareLock
            else n'.accepts == n.accepts && n'.mcId == n.mcId && n'.spareLock == n.spareLock
  {
  }

  /** The step is an accept by tracker i. */
  ghost predicate AcceptsHere(w: World, e: Event, i: nat) {
    e.Deliver? && e.m.to == i < |w.nodes| && Accepts(w.nodes[i], e.m, e.agree)
  }

  lemma StepKeeps(w: World, e: Event)
    requires Inv(w) && Enabled(w, e)
    ensures Inv(Next(w, e))
  {
    var w' := Next(w, e);
    forall i | 0 <= i < |w'.nodes| ensures NodeOK(w', i) { assert NodeOK(w, i); NodeStep(w, e, i); }
    forall m | m in w'.net ensures MsgOK(w', m) { MsgStep(w, e, m); }
  }

  lemma MsgStep(w: World, e: Event, m: Msg)
    requires Inv(w) && Enabled(w, e) && m in Next(w, e).net
    ensures MsgOK(Next(w, e), m)
  {
    if m in w.net {
      assert MsgOK(w, m);
      if m.H? { NodeStep(w, e, m.from); }
      if m.S? { NodeStep(w, e, m.to); }
    } else if e.Deliver? {
      assert MsgOK(w, e.m);
      if m.S? { NodeStep(w, e, m.to); }
    } else {
      assert e.Broadcast?;
      assert NodeOK(w, e.i);
    }
  }

  ghost predicate Runs(w: World, es: seq<Event>, w': World)
    decreases es
  {
    if es == [] then w' == w else Enabled(w, es[0]) && Runs(Next(w, es[0]), es[1..], w')
  }

  lemma {:induction false} RunKeeps(w: World, es: seq<Event>, w': World, i: nat)
    requires Inv(w) && Runs(w, es, w') && i < |w.nodes|
    ensures Inv(w') && |w'.nodes| == |w.nodes| && w'.nodes[i].accepts >= w.nodes[i].accepts
    decreases es
  {
    if es != [] {
      StepKeeps(w, es[0]);
      NodeStep(w, es[0], i);
      RunKeeps(Next(w, es[0]), es[1..], w', i);
    }
  }

  /** Two accepts of one tracker with the same digit are a multiple of ten accepts apart. */
  lemma SameDigitTenApart(w: World, e: Event, es: seq<Event>, w': World, e': Event, i: nat)
    requires Inv(w) && Enabled(w, e) && AcceptsHere(w, e, i) && Runs(Next(w, e), es, w') && Enabled(w', e') &&
             AcceptsHere(w', e', i)
    ensures e.m.digit == e'.m.digit <==> (w'.nodes[i].accepts - w.nodes[i].accepts) % 10 == 0
    ensures w'.nodes[i].accepts > w.nodes[i].accepts
  {
    StepKeeps(w, e);
    NodeStep(w, e, i);
    RunKeeps(Next(w, e), es, w', i);
    var a, b := w.nodes[i].accepts, w'.nodes[i].accepts;
    assert e.m.digit == a % 10 by { assert NodeOK(w, i); }
    assert e'.m.digit == b % 10 by { assert NodeOK(w', i); }
    SameRest(a, b, e.m.digit, e'.m.digit);
  }

  lemma SameRest(a: nat, b: nat, d: nat, d': nat)
    requires d == a % 10 && d' == b % 10
    ensures d == d' <==> (b - a) % 10 == 0
  {
  }

  /** Without a release the spare lock of a tracker stays taken. */
  lemma {:induction false} SpareStaysLocked(w: World, es: seq<Event>, w': World, i: nat)
    requires Runs(w, es, w') && i < |w.nodes| && w.nodes[i].spareLock && UnlockSpare(i) !in es
    ensures i < |w'.nodes| && w'.nodes[i].spareLock
    decreases es
  {
    if es != [] {
      assert es[0] in es && forall e <- es[1..] :: e in es;
      NodeStep(w, es[0], i);
      SpareStaysLocked(Next(w, es[0]), es[1..], w', i);
    }
  }

  /** Between two accepts of a tracker its spare lock was released. */
  lemma ReleaseBetweenAccepts(w: World, e: Event, es: seq<Event>, w': World, e': Event, i: nat)
    requires Enabled(w, e) && AcceptsHere(w, e, i) && Runs(Next(w, e), es, w') && AcceptsHere(w', e', i)
    ensures UnlockSpare(i) in es
  {
    NodeStep(w, e, i);
    if UnlockSpare(i) !in es { SpareStaysLocked(Next(w, e), es, w', i); }
  }

  /** How far behind the requester's accepts an offer's round is. */
  function Lag(w: World, m: Msg): int
    requires m.S? && m.to < |w.nodes|
  {
    w.nodes[m.to].accepts - m.round
  }

  /** A tracker takes an offer for current exactly when its lag is a multiple of ten; so with less than ten only the
      offers of the present round pass. */
  lemma DigitTest(w: World, m: Msg)
    requires Inv(w) && m in w.net && m.S?
    ensures m.to < |w.nodes| && Lag(w, m) >= 0
    ensures m.digit == w.nodes[m.to].mcId <==> Lag(w, m) % 10 == 0
    ensures Lag(w, m) < 10 ==> (m.digit == w.nodes[m.to].mcId <==> Lag(w, m) == 0)
  {
    assert MsgOK(w, m);
    assert NodeOK(w, m.to);
  }

  /** If a tracker accepts two offers of one round, the second lags by at least ten accepts; so with less than ten
      accepts of staleness a round gets at most one. */
  lemma OneAcceptPerRound(w: World, e: Event, es: seq<Event>, w': World, e': Event, i: nat)
    requires Inv(w) && Enabled(w, e) && AcceptsHere(w, e, i) && Runs(Next(w, e), es, w') && Enabled(w', e') &&
             AcceptsHere(w', e', i)
    ensures e.m.round == e'.m.round ==> Lag(w', e'.m) >= 10 && Lag(w', e'.m) % 10 == 0
  {
    StepKeeps(w, e);
    NodeStep(w, e, i);
    RunKeeps(Next(w, e), es, w', i);
    DigitTest(w, e.m);
    DigitTest(w', e'.m);
  }

  /** Waiting exactly while an offer is open, and never more than one. */
  ghost predicate OneOffer(n: Node) { (n.waiting <==> n.open != {}) && |n.open| <= 1 }

  /** An answer that ends the wait of a tracker for another offer than the one it is about. */
  ghost predicate Stale(w: World, e: Event) {
    && e.Deliver? && e.m.to < |w.nodes| && w.nodes[e.m.to].waiting
    && (e.m.R? || (e.m.P? && w.nodes[e.m.to].client)) && e.m.offer !in w.nodes[e.m.to].open
  }

  ghost predicate OffersOK(w: World) { forall i | 0 <= i < |w.nodes| :: OneOffer(w.nodes[i]) }

  /** A step keeps one open offer per tracker exactly when it is not a stale answer. */
  lemma OfferStep(w: World, e: Event)
    requires OffersOK(w) && Enabled(w, e)
    ensures OffersOK(Next(w, e)) <==> !Stale(w, e)
  {
    var w' := Next(w, e);
    if e.Deliver? {
      var i := e.m.to;
      HandledOffer(w.nodes[i], e.m, e.agree, w.nextOffer);
      assert w'.nodes[i] == Handled(w.nodes[i], e.m, e.agree, w.nextOffer);
      assert forall j | 0 <= j < |w.nodes| :: j != i ==> w'.nodes[j] == w.nodes[j];
    }
  }

  lemma HandledOffer(n: Node, m: Msg, agree: bool, next: nat)
    requires OneOffer(n)
    ensures OneOffer(Handled(n, m, agree, next)) <==> !(n.waiting && (m.R? || (m.P? && n.client)) && m.offer !in n.open)
  {
    if m.P? || m.R? { AnswerOffer(n, m.offer); }
    if Offers(n, m, agree) { assert n.open + {next} == {next}; }
  }

  lemma AnswerOffer(n: Node, o: nat)
    requires OneOffer(n)
    ensures n.open - {o} == {} <==> n.open == {} || o in n.open
    ensures |n.open - {o}| <= |n.open|
  {
    if n.open != {} {
      var x :| x in n.open;
      assert |n.open - {x}| == |n.open| - 1;
      assert n.open == {x};
    }
  }

  ghost predicate NoStale(w: World, es: seq<Event>)
    decreases es
  {
    es == [] || !Enabled(w, es[0]) || (!Stale(w, es[0]) && NoStale(Next(w, es[0]), es[1..]))
  }

  /** In a run without stale answers no tracker ever has two open offers. */
  lemma {:induction false} OneOpenOffer(w: World, es: seq<Event>, w': World)
    requires OffersOK(w) && Runs(w, es, w') && NoStale(w, es)
    ensures OffersOK(w')
    decreases es
  {
    if es != [] {
      OfferStep(w, es[0]);
      OneOpenOffer(Next(w, es[0]), es[1..], w');
    }
  }

  const FRESH := Node(0, false, false, false, false, 0, {})

  /** With one it happens: tracker 0 offers to 1 and times out, offers to 2, is freed by the late answer of 1, and
      offers to 1 again while the offer to 2 is still open. */
  lemma TwoOpenOffers()
    ensures exists es, w' ::
              && Runs(World([FRESH, FRESH, FRESH], multiset{}, 0), es, w')
              && |w'.nodes| == 3 && |w'.nodes[0].open| == 2
  {
    var w0 := World([FRESH, FRESH, FRESH], multiset{}, 0);
    var a, w4 := LateAnswer(w0);
    var b, w7 := FreedEarly(w4);
    var c, w9 := OfferAgain(w7);
    RunsJoin(w4, b, w7, c, w9);
    RunsJoin(w0, a, w4, b + c, w9);
  }

  lemma RunsCons(e: Event, w: World, es: seq<Event>, w': World)
    requires Enabled(w, e) && Runs(Next(w, e), es, w')
    ensures Runs(w, [e] + es, w')
  {
    assert ([e] + es)[1..] == es;
  }

  lemma LateAnswer(w: World) returns (es: seq<Event>, w': World)
    requires w == World([FRESH, FRESH, FRESH], multiset{}, 0)
    ensures w' == World([FRESH, FRESH, FRESH], multiset{R(1, 0, 0)}, 1) && Runs(w, es, w')
  {
    var a := Next(w, Broadcast(1, 0));
    assert a == World([FRESH, FRESH, FRESH], multiset{H(1, 0, 0, 0)}, 0);
    var b := Next(a, Deliver(H(1, 0, 0, 0), true));
    assert b == World([FRESH.(waiting := true, minLock := true, open := {0}), FRESH, FRESH],
           multiset{S(0, 1, 0, 0, 0)}, 1) by { assert {} + {0} == {0}; }
    var c := Next(b, TimeOut(0));
    assert c == World([FRESH, FRESH, FRESH], multiset{S(0, 1, 0, 0, 0)}, 1);
    w' := Next(c, Deliver(S(0, 1, 0, 0, 0), false));
    RunsCons(Deliver(S(0, 1, 0, 0, 0), false), c, [], w');
    es := [Deliver(S(0, 1, 0, 0, 0), false)] + [];
    RunsCons(TimeOut(0), b, es, w');
    es := [TimeOut(0)] + es;
    RunsCons(Deliver(H(1, 0, 0, 0), true), a, es, w');
    es := [Deliver(H(1, 0, 0, 0), true)] + es;
    RunsCons(Broadcast(1, 0), w, es, w');
    es := [Broadcast(1, 0)] + es;
  }

  lemma FreedEarly(w: World) returns (es: seq<Event>, w': World)
    requires w == World([FRESH, FRESH, FRESH], multiset{R(1, 0, 0)}, 1)
    ensures Runs(w, es, w') && w'.nodes == [FRESH.(open := {1}), FRESH, FRESH] && w'.nextOffer == 2
  {
    var a := Next(w, Broadcast(2, 0));
    assert a == World([FRESH, FRESH, FRESH], multiset{R(1, 0, 0), H(2, 0, 0, 0)}, 1);
    es, w' := OffersToTwo(a);
    RunsCons(Broadcast(2, 0), w, es, w');
    es := [Broadcast(2, 0)] + es;
  }

  lemma OffersToTwo(w: World) returns (es: seq<Event>, w': World)
    requires w == World([FRESH, FRESH, FRESH], multiset{R(1, 0, 0), H(2, 0, 0, 0)}, 1)
    ensures Runs(w, es, w') && w'.nodes == [FRESH.(open := {1}), FRESH, FRESH] && w'.nextOffer == 2
  {
    var a := Next(w, Deliver(H(2, 0, 0, 0), true));
    assert a.nodes == [FRESH.(waiting := true, minLock := true, open := {1}), FRESH, FRESH] by {
      assert {} + {1} == {1};
    }
    assert R(1, 0, 0) in a.net;
    w' := Next(a, Deliver(R(1, 0, 0), true));
    assert {1} - {0} == {1};
    RunsCons(Deliver(R(1, 0, 0), true), a, [], w');
    es := [Deliver(R(1, 0, 0), true)] + [];
    RunsCons(Deliver(H(2, 0, 0, 0), true), w, es, w');
    es := [Deliver(H(2, 0, 0, 0), true)] + es;
  }

  lemma OfferAgain(w: World) returns (es: seq<Event>, w': World)
    requires w.nodes == [FRESH.(open := {1}), FRESH, FRESH] && w.nextOffer == 2
    ensures Runs(w, es, w') && |w'.nodes| == 3 && |w'.nodes[0].open| == 2
  {
    var a := Next(w, Broadcast(1, 0));
    w' := Next(a, Deliver(H(1, 0, 0, 0), true));
    assert w'.nodes[0].open == {1} + {2};
    RunsCons(Deliver(H(1, 0, 0, 0), true), a, [], w');
    es := [Deliver(H(1, 0, 0, 0), true)] + [];
    RunsCons(Broadcast(1, 0), w, es, w');
    es := [Broadcast(1, 0)] + es;
  }

  lemma {:induction false} RunsJoin(w: World, a: seq<Event>, m: World, b: seq<Event>, w': World)
    requires Runs(w, a, m) && Runs(m, b, w')
    ensures Runs(w, a + b, w')
    decreases a
  {
    if a == [] {
      assert a + b == b;
    } else {
      assert (a + b)[1..] == a[1..] + b;
      RunsJoin(Next(w, a[0]), a[1..], m, b, w');
    }
  }

  /** What a tracker answers: an offer it takes with x and any other with r, both about that offer and to its maker; a
      request with an offer that repeats its digit, if it makes one; x, and p unless it is the client, with p. */
  ghost predicate AnswersRight(n: Node, m: Msg, agree: bool, offer: nat, answer: Option<Msg>) {
    match m
    case H(from, to, d, r) =>
      if !n.waiting && agree && !n.minLock
      then answer == Some(S(to, from, d, r, offer)) else answer == None
    case S(from, to, d, _, o) =>
      if d == n.mcId && agree && !n.spareLock then answer == Some(X(to, from, o)) else answer == Some(R(to, from, o))
    case X(from, to, o) => answer == Some(P(to, from, o))
    case P(from, to, o) => if n.client then answer == None else answer == Some(P(to, from, o))
    case R(_, _, _) => answer == None
  }

  /** And what becomes of it: the locks and the digit change only where it makes or takes an offer or is answered, and
      it becomes client by an x alone. */
  ghost predicate ChangesRight(n: Node, n': Node, m: Msg, answer: Option<Msg>, offer: nat) {
    var took, made := answer.Some? && answer.value.X?, answer.Some? && answer.value.S?;
    && n'.mcId == (if took then (if n.mcId >= 9 then 0 else n.mcId + 1) else n.mcId)
    && n'.accepts == n.accepts + Bit(took) && n'.spareLock == (n.spareLock || took)
    && n'.client == (n.client || m.X?)
    && n'.waiting == (made || (n.waiting && !m.R? && !(m.P? && n.client)))
    && n'.minLock == (made || (n.minLock && !m.R? && !(m.P? && !n.client)))
    && n'.open == if made then n.open + {offer}
                  else if m.R? || (m.P? && n.client) then n.open - {m.offer} else n.open
  }

  lemma RecvFlow(n: Node, m: Msg, agree: bool, offer: nat)
    ensures AnswersRight(n, m, agree, offer, Answer(n, m, agree, offer))
    ensures ChangesRight(n, Handled(n, m, agree, offer), m, Answer(n, m, agree, offer), offer)
  {}

  /** What the other steps do to a tracker: a request makes it stop being client, a timeout ends its wait and frees its
      candidate, and the owners of the locks take and free them. */
  ghost predicate StepsRight(w: World, e: Event, w': World, i: nat)
    requires i < |w.nodes| == |w'.nodes| && !e.Deliver?
  {
    w'.nodes[i] ==
    match e
    case Broadcast(j, _) => w.nodes[i].(client := w.nodes[i].client && j != i)
    case TimeOut(j) => if j == i then w.nodes[i].(waiting := false, minLock := false, open := {}) else w.nodes[i]
    case UnlockSpare(j) => w.nodes[i].(spareLock := w.nodes[i].spareLock && j != i)
    case LockSpare(j) => w.nodes[i].(spareLock := w.nodes[i].spareLock || j == i)
    case UnlockMin(j) => w.nodes[i].(minLock := w.nodes[i].minLock && j != i)
    case Lose(_) => w.nodes[i]
  }

  lemma StepFlow(w: World, e: Event, i: nat)
    requires Enabled(w, e) && i < |w.nodes| && !e.Deliver?
    ensures |Next(w, e).nodes| == |w.nodes| && StepsRight(w, e, Next(w, e), i)
  {}

  /** One tracker process with the locks of its node. */
  class Process {
    var mcId: nat
    var client: bool
    var waiting: bool
    var spareLock: bool
    var minLock: bool
    ghost var accepts: nat
    ghost var open: set<nat>

    ghost function Now(): Node reads this { Node(mcId, client, waiting, spareLock, minLock, accepts, open) }

    constructor ()
      ensures Now() == FRESH && OneOffer(Now())
    {
      mcId, client, waiting, spareLock, minLock, accepts, open := 0, false, false, false, false, 0, {};
    }

    /** lock_spare of shm_malloc.c. */
    method LockSpareRegion() returns (b: bool)
      modifies `spareLock
      ensures b == !old(spareLock) && spareLock
    {
      b := false;
      if !spareLock { spareLock := true; b := true; }
    }

    /** lock_min_score: 1 without a candidate, 2 when the lock was obtained, and 0 when somebody has it. */
    method LockMinScore(candidate: bool) returns (q: nat)
      modifies `minLock
      ensures q == 2 <==> candidate && !old(minLock)
      ensures q == 0 <==> candidate && old(minLock)
      ensures q <= 2 && minLock == (old(minLock) || candidate)
    {
      q := 0;
      if !candidate {
        q := 1;
      } else if !minLock {
        minLock := true;
        q := 2;
      }
    }

    /** The request of sender_routine: it carries the present digit, and the tracker is no client any more. */
    method SendRequest() returns (digit: nat)
      modifies `client
      ensures digit == mcId && !client
    {
      client := false;
      digit := mcId;
    }

    /** The other part of sender_routine: a wait that has been too long ends, and the candidate is free again. */
    method CheckTimeout(over: bool)
      modifies `waiting, `minLock, `open
      ensures if old(waiting) && over then !waiting && !minLock && open == {}
              else waiting == old(waiting) && minLock == old(minLock) && open == old(open)
    {
      if waiting && over {
        minLock := false;
        waiting, open := false, {};
      }
    }

    /** recv_msg: the new state and the message sent back. */
    method RecvMsg(m: Msg, agree: bool, offer: nat) returns (answer: Option<Msg>)
      requires m.H? && !waiting && agree ==> !minLock
      modifies this
      ensures Now() == Handled(old(Now()), m, agree, offer) && answer == Answer(old(Now()), m, agree, offer)
      ensures AnswersRight(old(Now()), m, agree, offer, answer)
      ensures ChangesRight(old(Now()), Now(), m, answer, offer)
    {
      RecvFlow(Now(), m, agree, offer);
      match m {
        case H(from, to, d, r) =>
          if waiting || !agree { return None; }
          var q := LockMinScore(true);
          waiting, open := true, open + {offer};
          return Some(S(to, from, d, r, offer));
        case S(from, to, d, r, o) =>
          if d != mcId || !agree { return Some(R(to, from, o)); }
          var locked := LockSpareRegion();
          if !locked { return Some(R(to, from, o)); }
          mcId, accepts := mcId + 1, accepts + 1;
          if mcId > 9 { mcId := 0; }
          return Some(X(to, from, o));
        case X(from, to, o) =>
          client := true;
          return Some(P(to, from, o));
        case P(from, to, o) =>
          if client {
            waiting, open := false, open - {o};
            return None;
          }
          minLock := false;
          return Some(P(to, from, o));
        case R(_, _, o) =>
          waiting, minLock, open := false, false, open - {o};
          return None;
      }
    }
  }
}
