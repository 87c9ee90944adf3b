/** The messages of the handshake in src/start_tracker.c over whole runs: every x on the wire stands for one accept of
    one offer, no offer is accepted or answered twice, and whoever becomes client does so for an offer of its own that
    was accepted. */
module TrackerMail {
  import opened Basics
  import opened Tracker

  // ---------- what a step sends ----------

  /** How many copies of m the step takes off the network. */
  function Taken(e: Event, m: Msg): nat { Bit((e.Deliver? && e.m == m) || e == Lose(m)) }

  /** How many it puts there, told from the network before and after. */
  function Posted(w: World, e: Event, m: Msg): int
    requires Enabled(w, e)
  {
    Next(w, e).net[m] + Taken(e, m) - w.net[m]
  }

  /** The step is an offer by tracker i to tracker j. */
  ghost predicate OffersHere(w: World, e: Event, i: nat, j: nat) {
    && e.Deliver? && e.m.H? && e.m.to == i < |w.nodes| && e.m.from == j && e.agree
    && !w.nodes[i].waiting && !w.nodes[i].minLock
  }

  /** The step delivers to tracker i an offer o that j made. */
  ghost predicate Reaches(e: Event, i: nat, j: nat, o: nat) {
    e.Deliver? && e.m.S? && e.m.to == i && e.m.from == j && e.m.offer == o
  }

  /** How many copies of m the step is to send: an x exactly for an accept, to the tracker that made the offer; an r
      exactly for an offer delivered and not accepted; an s for an offer made; a p for an x, or for a p to a tracker
      that is not client; and an H by a broadcast. */
  ghost function Letters(w: World, e: Event, m: Msg): nat
    requires Enabled(w, e)
  {
    match m
    case H(i, j, d, r) => Bit(e == Broadcast(i, j) && d == w.nodes[i].mcId && r == w.nodes[i].accepts)
    case S(i, j, d, r, o) => Bit(OffersHere(w, e, i, j) && e.m.digit == d && e.m.round == r && o == w.nextOffer)
    case X(i, j, o) => Bit(Reaches(e, i, j, o) && AcceptsHere(w, e, i))
    case R(i, j, o) => Bit(Reaches(e, i, j, o) && !AcceptsHere(w, e, i))
    case P(i, j, o) =>
      Bit(e.Deliver? && e.m.to == i && e.m.from == j && (e.m.X? || (e.m.P? && !w.nodes[i].client)) && e.m.offer == o)
  }

  /** And it sends just those. */
  lemma PostedExactly(w: World, e: Event, m: Msg)
    requires Enabled(w, e)
    ensures Posted(w, e, m) == Letters(w, e, m)
  {
    if e.Deliver? { DeliveredPosts(w, e, m); }
  }

  lemma DeliveredPosts(w: World, e: Event, m: Msg)
    requires Enabled(w, e) && e.Deliver?
    ensures Posted(w, e, m) == Letters(w, e, m)
  {
    var answer := Answer(w.nodes[e.m.to], e.m, e.agree, w.nextOffer);
    RecvFlow(w.nodes[e.m.to], e.m, e.agree, w.nextOffer);
    AnswerPosted(w, e, m, answer);
    AnswerLetters(w, e, m, answer);
  }

  lemma AnswerPosted(w: World, e: Event, m: Msg, answer: Option<Msg>)
    requires Enabled(w, e) && e.Deliver? && answer == Answer(w.nodes[e.m.to], e.m, e.agree, w.nextOffer)
    ensures Posted(w, e, m) == Bit(answer == Some(m))
  {}

  lemma AnswerLetters(w: World, e: Event, m: Msg, answer: Option<Msg>)
    requires Enabled(w, e) && e.Deliver? && AnswersRight(w.nodes[e.m.to], e.m, e.agree, w.nextOffer, answer)
    ensures Letters(w, e, m) == Bit(answer == Some(m))
  {}

  // ---------- the record of a run ----------

  /** An offer: who made it to whom, and the request it answers. */
  datatype Offer = Offer(maker: nat, asker: nat, digit: nat, round: nat)

  /** What has happened so far: the offers made, by number, those delivered, and those accepted. */
  datatype Record = Record(made: map<nat, Offer>, heard: set<nat>, accepted: set<nat>)

  ghost function Recorded(w: World, e: Event, h: Record): Record {
    if e.Deliver? && e.m.H? && OffersHere(w, e, e.m.to, e.m.from) then
      h.(made := h.made[w.nextOffer := Offer(e.m.to, e.m.from, e.m.digit, e.m.round)])
    else if e.Deliver? && e.m.S? then
      h.(heard := h.heard + {e.m.offer},
         accepted := if AcceptsHere(w, e, e.m.to) then h.accepted + {e.m.offer} else h.accepted)
    else h
  }

  /** The offer of which m is a part was made by i to j. */
  predicate Between(h: Record, o: nat, i: nat, j: nat) { o in h.made && h.made[o].maker == i && h.made[o].asker == j }

  /** What a message on the wire tells: an s is one offer that has not arrived yet; x and r go back from where it was
      accepted or refused; and p goes between the two only once it is accepted. */
  ghost predicate TellsTrue(w: World, h: Record, m: Msg) {
    match m
    case H(_, _, _, _) => true
    case S(i, j, d, r, o) => o in h.made && h.made[o] == Offer(i, j, d, r) && o !in h.heard && w.net[m] == 1
    case X(i, j, o) => Between(h, o, j, i) && o in h.accepted
    case R(i, j, o) => Between(h, o, j, i) && o in h.heard && o !in h.accepted
    case P(i, j, o) => (Between(h, o, i, j) || Between(h, o, j, i)) && o in h.accepted
  }

  ghost predicate MailOK(w: World, h: Record) {
    && (forall o | o in h.made :: o < w.nextOffer) && h.accepted <= h.heard
    && (forall o <- h.heard :: o in h.made)
    && forall m {:trigger TellsTrue(w, h, m)} | m in w.net :: TellsTrue(w, h, m)
  }

  lemma RecordGrows(w: World, e: Event, h: Record)
    requires MailOK(w, h) && Enabled(w, e)
    ensures var h' := Recorded(w, e, h);
            && (forall o | o in h.made :: o in h'.made && h'.made[o] == h.made[o])
            && h.heard <= h'.heard && h.accepted <= h'.accepted
  {}

  lemma MailStep(w: World, e: Event, h: Record)
    requires MailOK(w, h) && Enabled(w, e)
    ensures MailOK(Next(w, e), Recorded(w, e, h))
  {
    var w', h' := Next(w, e), Recorded(w, e, h);
    if e.Deliver? { assert TellsTrue(w, h, e.m); }
    forall m | m in w'.net ensures TellsTrue(w', h', m) {
      PostedExactly(w, e, m);
      if m in w.net { OldMail(w, e, h, m); } else { NewMail(w, e, h, m); }
    }
  }

  lemma OldMail(w: World, e: Event, h: Record, m: Msg)
    requires MailOK(w, h) && Enabled(w, e) && m in w.net && m in Next(w, e).net
    ensures TellsTrue(Next(w, e), Recorded(w, e, h), m)
  {
    assert TellsTrue(w, h, m);
    PostedExactly(w, e, m);
    RecordGrows(w, e, h);
    if e.Deliver? && e.m.S? { assert TellsTrue(w, h, e.m); }
  }

  lemma NewMail(w: World, e: Event, h: Record, m: Msg)
    requires MailOK(w, h) && Enabled(w, e) && m !in w.net && m in Next(w, e).net
    ensures TellsTrue(Next(w, e), Recorded(w, e, h), m)
  {
    PostedExactly(w, e, m);
    if e.Deliver? { assert TellsTrue(w, h, e.m); }
  }

  // ---------- whole runs ----------

  ghost function RecordOf(w: World, es: seq<Event>, h: Record): Record
    decreases es
  {
    if es == [] || !Enabled(w, es[0]) then h else RecordOf(Next(w, es[0]), es[1..], Recorded(w, es[0], h))
  }

  const NOTHING := Record(map[], {}, {})

  lemma {:induction false} RunMail(w: World, es: seq<Event>, w': World, h: Record)
    requires MailOK(w, h) && Runs(w, es, w')
    ensures MailOK(w', RecordOf(w, es, h))
    decreases es
  {
    if es != [] {
      MailStep(w, es[0], h);
      RunMail(Next(w, es[0]), es[1..], w', Recorded(w, es[0], h));
    }
  }

  /** How often offer o of tracker j is accepted by tracker i in a run, and how many copies of m are sent in it. */
  ghost function AcceptsOf(w: World, es: seq<Event>, i: nat, j: nat, o: nat): nat
    decreases es
  {
    if es == [] || !Enabled(w, es[0]) then 0
    else Bit(Reaches(es[0], i, j, o) && AcceptsHere(w, es[0], i)) + AcceptsOf(Next(w, es[0]), es[1..], i, j, o)
  }

  ghost function PostedInAll(w: World, es: seq<Event>, m: Msg): int
    decreases es
  {
    if es == [] || !Enabled(w, es[0]) then 0 else Posted(w, es[0], m) + PostedInAll(Next(w, es[0]), es[1..], m)
  }

  /** Over every run the x sent for an offer are as many as its accepts. */
  lemma {:induction false} AsManyAsAccepts(w: World, es: seq<Event>, i: nat, j: nat, o: nat)
    ensures PostedInAll(w, es, X(i, j, o)) == AcceptsOf(w, es, i, j, o)
    decreases es
  {
    if es != [] && Enabled(w, es[0]) {
      PostedExactly(w, es[0], X(i, j, o));
      AsManyAsAccepts(Next(w, es[0]), es[1..], i, j, o);
    }
  }

  /** An offer that was delivered is not accepted again. */
  lemma {:induction false} NotAgain(w: World, es: seq<Event>, h: Record, i: nat, j: nat, o: nat)
    requires MailOK(w, h) && o in h.heard
    ensures AcceptsOf(w, es, i, j, o) == 0
    decreases es
  {
    if es != [] && Enabled(w, es[0]) {
      assert es[0].Deliver? ==> TellsTrue(w, h, es[0].m);
      MailStep(w, es[0], h);
      RecordGrows(w, es[0], h);
      NotAgain(Next(w, es[0]), es[1..], Recorded(w, es[0], h), i, j, o);
    }
  }

  /** An offer is accepted at most once, and by the tracker it was made to alone. */
  lemma {:induction false} AcceptedOnce(w: World, es: seq<Event>, h: Record, i: nat, j: nat, o: nat)
    requires MailOK(w, h)
    ensures AcceptsOf(w, es, i, j, o) <= 1
    ensures AcceptsOf(w, es, i, j, o) == 1 ==> o in RecordOf(w, es, h).accepted && Between(RecordOf(w, es, h), o, j, i)
    decreases es
  {
    if es != [] && Enabled(w, es[0]) {
      var w1, h1 := Next(w, es[0]), Recorded(w, es[0], h);
      MailStep(w, es[0], h);
      if Reaches(es[0], i, j, o) && AcceptsHere(w, es[0], i) {
        assert TellsTrue(w, h, es[0].m);
        NotAgain(w1, es[1..], h1, i, j, o);
        Remembered(w1, es[1..], h1, o);
      } else {
        AcceptedOnce(w1, es[1..], h1, i, j, o);
      }
    }
  }

  lemma {:induction false} Remembered(w: World, es: seq<Event>, h: Record, o: nat)
    requires MailOK(w, h) && o in h.made
    ensures var h' := RecordOf(w, es, h);
            o in h'.made && h'.made[o] == h.made[o] && (o in h.accepted ==> o in h'.accepted)
    decreases es
  {
    if es != [] && Enabled(w, es[0]) {
      MailStep(w, es[0], h);
      RecordGrows(w, es[0], h);
      Remembered(Next(w, es[0]), es[1..], Recorded(w, es[0], h), o);
    }
  }

  /** From a network without messages: whoever is made client is made so by an x about an offer of its own, which the
      sender of the x accepted. */
  lemma ClientForOwnOffer(w: World, es: seq<Event>, w': World, e: Event, j: nat)
    requires w.net == multiset{} && Runs(w, es, w') && Enabled(w', e) && j < |w'.nodes|
    requires !w'.nodes[j].client && j < |Next(w', e).nodes| && Next(w', e).nodes[j].client
    ensures e.Deliver? && e.m.X? && e.m.to == j
    ensures var h := RecordOf(w, es, NOTHING); Between(h, e.m.offer, j, e.m.from) && e.m.offer in h.accepted
  {
    RunMail(w, es, w', NOTHING);
    if e.Deliver? {
      RecvFlow(w'.nodes[e.m.to], e.m, e.agree, w'.nextOffer);
      assert TellsTrue(w', RecordOf(w, es, NOTHING), e.m);
    }
  }

  /** And whoever gets a p, first or in reply, gets it about an offer between the two that was accepted. */
  lemma PortsForAccepted(w: World, es: seq<Event>, w': World, m: Msg)
    requires w.net == multiset{} && Runs(w, es, w') && m in w'.net && m.P?
    ensures var h := RecordOf(w, es, NOTHING);
            && m.offer in h.accepted
            && (Between(h, m.offer, m.from, m.to) || Between(h, m.offer, m.to, m.from))
  {
    RunMail(w, es, w', NOTHING);
    assert TellsTrue(w', RecordOf(w, es, NOTHING), m);
  }
}
