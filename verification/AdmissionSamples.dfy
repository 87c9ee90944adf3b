/** What the moving average of src/rdma_util.c is an average of: over every interleaving each remote read that was
    posted, or could not be, enters it exactly once, as a timeout or as a success by how it ended. */
module AdmissionSamples {
  import opened Basics
  import opened Admission
  import opened AdmissionRuns

  /** How often u is in the log. */
  function Logged(log: seq<Update>, u: Update): nat {
    if log == [] then 0 else Logged(log[..|log| - 1], u) + Bit(log[|log| - 1] == u)
  }

  /** The update that a thread at p still owes the average. */
  function Owes(p: Pc): Option<Update> {
    match p
    case DecayLoad => Some(Decay)
    case DecaySwap(_) => Some(Decay)
    case FailLoad => Some(Sample(1_000_000))
    case FailSwap(_) => Some(Sample(1_000_000))
    case LateLoad => Some(Sample(1_000_000))
    case LateSwap(_) => Some(Sample(1_000_000))
    case GoodLoad => Some(Sample(0))
    case GoodSwap(_) => Some(Sample(0))
    case _ => None
  }

  function Owing(ps: seq<Pc>, u: Update): nat {
    if ps == [] then 0 else Owing(ps[..|ps| - 1], u) + Bit(Owes(ps[|ps| - 1]) == Some(u))
  }

  lemma {:induction false} OwingUpdate(ps: seq<Pc>, t: nat, p: Pc, u: Update)
    requires t < |ps|
    ensures Owing(ps[t := p], u) == Owing(ps, u) - Bit(Owes(ps[t]) == Some(u)) + Bit(Owes(p) == Some(u))
    decreases |ps|
  {
    var n := |ps| - 1;
    if t == n {
      assert ps[t := p][..n] == ps[..n];
    } else {
      assert ps[t := p][..n] == ps[..n][t := p];
      OwingUpdate(ps[..n], t, p, u);
    }
  }

  /** What happened to a thread in the step: its read could not be posted, was not there in time, or arrived, or its
      call is the one that performs the decay. */
  predicate CouldNotPost(s: State, e: Event)
    requires e.t < |s.pcs|
  {
    s.pcs[e.t].Post? && e.yes
  }

  predicate TimedOut(s: State, e: Event)
    requires e.t < |s.pcs|
  {
    s.pcs[e.t].Wait? && !e.yes && e.late
  }

  predicate Arrived(s: State, e: Event)
    requires e.t < |s.pcs|
  {
    s.pcs[e.t].Wait? && e.yes
  }

  predicate Decays(s: State, e: Event)
    requires e.t < |s.pcs|
  {
    s.pcs[e.t].Out? && e.yes
  }

  /** The step calls for the update u. */
  ghost predicate CallsFor(s: State, e: Event, u: Update)
    requires e.t < |s.pcs|
  {
    match u
    case Decay => Decays(s, e)
    case Sample(ppm) =>
      if ppm == 0 then Arrived(s, e) else ppm == 1_000_000 && (CouldNotPost(s, e) || TimedOut(s, e))
  }

  ghost function Calls(s: State, es: seq<Event>, u: Update): nat
    decreases es
  {
    if es == [] || !Enabled(s, es[0]) then 0 else Bit(CallsFor(s, es[0], u)) + Calls(Next(s, es[0]), es[1..], u)
  }

  lemma LoggedMore(log: seq<Update>, v: Update, u: Update)
    ensures Logged(log + [v], u) == Logged(log, u) + Bit(v == u)
  {
    assert (log + [v])[..|log|] == log;
  }

  /** What the thread owes afterwards is what it owed before, with what the step calls for and less what it pays. */
  lemma OwesAfter(s: State, e: Event, u: Update)
    requires Enabled(s, e)
    ensures Bit(Owes(Next(s, e).pcs[e.t]) == Some(u)) + Bit(Updating(s.pcs[e.t], s.sh, e.yes) == Some(u)) ==
            Bit(Owes(s.pcs[e.t]) == Some(u)) + Bit(CallsFor(s, e, u))
  {}

  lemma OneSampled(s: State, e: Event, u: Update) returns (s': State)
    requires Enabled(s, e)
    ensures s' == Next(s, e)
    ensures Logged(s'.sh.log, u) + Owing(s'.pcs, u) == Logged(s.sh.log, u) + Owing(s.pcs, u) + Bit(CallsFor(s, e, u))
  {
    s' := Next(s, e);
    OwesAfter(s, e, u);
    OwingUpdate(s.pcs, e.t, s'.pcs[e.t], u);
    MovedUpdates(s.pcs[e.t], s.sh, e.yes, e.late);
    var v := Updating(s.pcs[e.t], s.sh, e.yes);
    if v.Some? { LoggedMore(s.sh.log, v.value, u); }
  }

  lemma {:induction false} SampledOnce(s: State, es: seq<Event>, s': State, u: Update)
    requires Runs(s, es, s')
    ensures Logged(s'.sh.log, u) + Owing(s'.pcs, u) == Logged(s.sh.log, u) + Owing(s.pcs, u) + Calls(s, es, u)
    decreases es
  {
    if es != [] {
      var s1 := OneSampled(s, es[0], u);
      SampledOnce(s1, es[1..], s', u);
    }
  }

  lemma {:induction false} NobodyOwes(ps: seq<Pc>, u: Update)
    requires forall p <- ps :: p == Out
    ensures Owing(ps, u) == 0
    decreases |ps|
  {
    if ps != [] {
      var n := |ps| - 1;
      assert ps[n] in ps && forall p <- ps[..n] :: p in ps;
      NobodyOwes(ps[..n], u);
    }
  }

  /** From the start to a state with all threads outside: the average is the fold of exactly one timeout for every read
      that was late or could not be posted, one success for every read that arrived, and one decay for every call that
      performed it; nothing else is in it. */
  lemma EveryOutcomeCounts(s: State, es: seq<Event>, s': State)
    requires Initial(s) && Runs(s, es, s') && forall p <- s'.pcs :: p == Out
    ensures s'.sh.ewma == Folded(s'.sh.log) && forall u :: Logged(s'.sh.log, u) == Calls(s, es, u)
  {
    NobodyHolds(s.pcs);
    RunKeeps(s, es, s');
    forall u ensures Logged(s'.sh.log, u) == Calls(s, es, u) {
      SampledOnce(s, es, s', u);
      NobodyOwes(s.pcs, u);
      NobodyOwes(s'.pcs, u);
    }
  }
}
