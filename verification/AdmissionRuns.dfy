/** Any number of threads inside get_remote_item of src/rdma_util.c at once, interleaved at every atomic access. */
module AdmissionRuns {
  import opened Basics
  import opened Admission

  /** Where a thread is in get_remote_item, each name standing before the access it is about to make. The three ways out
      after a reservation have program points of their own: the read could not be posted (Fail), it was not ready in
      time (Late), or it arrived (Good). Each loads the average, swaps it, and releases the slot. */
  datatype Pc =
    | Out | DecayLoad | DecaySwap(seen: nat) | Decide | Seen(v: nat) | Judged(v: nat, over: bool)
    | Reserve | Overshot | Post | Wait
    | FailLoad | FailSwap(seen: nat) | FailRelease
    | LateLoad | LateSwap(seen: nat) | LateRelease
    | GoodLoad | GoodSwap(seen: nat) | GoodRelease

  datatype Update = Decay | Sample(ppm: nat)

  /** The shared variables; log lists the updates of the average that took effect. */
  datatype Shared = Shared(slots: int, ewma: nat, overloaded: bool, log: seq<Update>)

  datatype State = State(pcs: seq<Pc>, sh: Shared)

  /** Thread t goes on by one access. yes is what is not decided here: that this call performs the decay of the
      interval, that a weak compare-and-swap fails for no reason, that a probe is allowed, that posting failed, that the
      data is there. late says that the wait has been long enough. */
  datatype Event = Step(t: nat, yes: bool, late: bool)

  /** The latch after a thread acts on an average v it saw. */
  function Latch(v: nat, over: bool, now: bool): bool {
    if over && v <= PPM_LOW then false else if !over && v >= PPM_HIGH then true else now
  }

  /** Whether that thread goes on to reserve a slot. */
  predicate Admitted(v: nat, over: bool, probe: bool) {
    if over then v <= PPM_LOW || probe else v < PPM_HIGH || probe
  }

  /** A compare-and-swap of the average from seen to the value after u. */
  function Swapped(sh: Shared, u: Update): Shared
    requires sh.ewma <= PPM && (u.Sample? ==> u.ppm <= PPM)
  {
    AppliedBounds(sh.ewma, u);
    sh.(ewma := Applied(sh.ewma, u), log := sh.log + [u])
  }

  function Applied(v: nat, u: Update): int {
    match u
    case Decay => Decayed(v)
    case Sample(s) => Smoothed(v, s, ALPHA_PPM)
  }

  lemma AppliedBounds(v: nat, u: Update)
    requires v <= PPM && (u.Sample? ==> u.ppm <= PPM)
    ensures 0 <= Applied(v, u) <= PPM
  {
    if u.Sample? { SmoothedBetween(v, u.ppm, ALPHA_PPM); } else { DecayedGrows(v, v); }
  }

  /** The program, access by access. */
  function Moved(p: Pc, sh: Shared, yes: bool, late: bool): (Pc, Shared)
    requires sh.ewma <= PPM
  {
    match p
    case Out => (if yes then DecayLoad else Decide, sh)
    case DecayLoad => (DecaySwap(sh.ewma), sh)
    case DecaySwap(seen) => if sh.ewma == seen && !yes then (Decide, Swapped(sh, Decay)) else (DecayLoad, sh)
    case Decide => (Seen(sh.ewma), sh)
    case Seen(v) => (Judged(v, sh.overloaded), sh)
    case Judged(v, over) =>
      (if Admitted(v, over, yes) then Reserve else Out, sh.(overloaded := Latch(v, over, sh.overloaded)))
    case Reserve => (if sh.slots >= MAX_OUTSTANDING then Overshot else Post, sh.(slots := sh.slots + 1))
    case Overshot => (Out, sh.(slots := sh.slots - 1))
    case Post => (if yes then FailLoad else Wait, sh)
    case FailLoad => (FailSwap(sh.ewma), sh)
    case FailSwap(seen) => if sh.ewma == seen && !yes then (FailRelease, Swapped(sh, Sample(PPM))) else (FailLoad, sh)
    case FailRelease => (Out, sh.(slots := sh.slots - 1))
    case Wait => (if yes then GoodLoad else if late then LateLoad else Wait, sh)
    case LateLoad => (LateSwap(sh.ewma), sh)
    case LateSwap(seen) => if sh.ewma == seen && !yes then (LateRelease, Swapped(sh, Sample(PPM))) else (LateLoad, sh)
    case LateRelease => (Out, sh.(slots := sh.slots - 1))
    case GoodLoad => (GoodSwap(sh.ewma), sh)
    case GoodSwap(seen) => if sh.ewma == seen && !yes then (GoodRelease, Swapped(sh, Sample(0))) else (GoodLoad, sh)
    case GoodRelease => (Out, sh.(slots := sh.slots - 1))
  }

  predicate Enabled(s: State, e: Event) { e.t < |s.pcs| && s.sh.ewma <= PPM }

  function Next(s: State, e: Event): State
    requires Enabled(s, e)
  {
    var (p, sh) := Moved(s.pcs[e.t], s.sh, e.yes, e.late);
    State(s.pcs[e.t := p], sh)
  }

  /** The thread has a slot. */
  predicate Holds(p: Pc) {
    p.Post? || p.Wait? || p.FailLoad? || p.FailSwap? || p.FailRelease? || p.LateLoad? || p.LateSwap? || p.LateRelease?
    || p.GoodLoad? || p.GoodSwap? || p.GoodRelease?
  }

  function Holders(ps: seq<Pc>): nat { if ps == [] then 0 else Holders(ps[..|ps| - 1]) + Bit(Holds(ps[|ps| - 1])) }

  /** Slots counted for a thread: its own, or the one it must take back. */
  function Share(p: Pc): int { Bit(Holds(p)) + Bit(p.Overshot?) }

  function Counted(ps: seq<Pc>): nat { if ps == [] then 0 else Counted(ps[..|ps| - 1]) + Share(ps[|ps| - 1]) }

  lemma {:induction false} CountUpdate(ps: seq<Pc>, t: nat, p: Pc)
    requires t < |ps|
    ensures Holders(ps[t := p]) == Holders(ps) - Bit(Holds(ps[t])) + Bit(Holds(p))
    ensures Counted(ps[t := p]) == Counted(ps) - Share(ps[t]) + Share(p)
    decreases |ps|
  {
    var n := |ps| - 1;
    if t == n {
      assert ps[t := p][..n] == ps[..n];
    } else {
      assert ps[t := p][..n] == ps[..n][t := p];
      CountUpdate(ps[..n], t, p);
    }
  }

  lemma {:induction false} HoldersCounted(ps: seq<Pc>)
    ensures Holders(ps) <= Counted(ps)
    decreases |ps|
  {
    if ps != [] { HoldersCounted(ps[..|ps| - 1]); }
  }

  /** The average after the updates of the log, one after the other from zero. */
  ghost function Folded(log: seq<Update>): int {
    if log == [] then 0 else var v := Folded(log[..|log| - 1]); if v < 0 then 0 else Applied(v, log[|log| - 1])
  }

  ghost predicate Inv(s: State) {
    && s.sh.slots == Counted(s.pcs) && Holders(s.pcs) <= MAX_OUTSTANDING
    && s.sh.ewma <= PPM && s.sh.ewma == Folded(s.sh.log)
  }

  /** A step moves the counter by the change of the thread's share in it, and takes the last free slot at most. */
  lemma MovedShare(p: Pc, sh: Shared, yes: bool, late: bool)
    requires sh.ewma <= PPM
    ensures var (p', sh') := Moved(p, sh, yes, late);
            && sh'.slots - sh.slots == Share(p') - Share(p)
            && (Holds(p') && !Holds(p) ==> sh.slots < MAX_OUTSTANDING)
  {
  }

  /** A swap that goes through is logged. */
  lemma SwappedAverage(sh: Shared, u: Update)
    requires sh.ewma <= PPM && sh.ewma == Folded(sh.log) && (u.Sample? ==> u.ppm <= PPM)
    ensures var sh' := Swapped(sh, u); sh'.ewma <= PPM && sh'.ewma == Folded(sh'.log)
  {
    assert (sh.log + [u])[..|sh.log|] == sh.log;
    AppliedBounds(sh.ewma, u);
  }

  /** The update a step makes to the average, if it makes one. */
  function Updating(p: Pc, sh: Shared, yes: bool): Option<Update> {
    match p
    case DecaySwap(seen) => if sh.ewma == seen && !yes then Some(Decay) else None
    case FailSwap(seen) => if sh.ewma == seen && !yes then Some(Sample(PPM)) else None
    case LateSwap(seen) => if sh.ewma == seen && !yes then Some(Sample(PPM)) else None
    case GoodSwap(seen) => if sh.ewma == seen && !yes then Some(Sample(0)) else None
    case _ => None
  }

  lemma MovedUpdates(p: Pc, sh: Shared, yes: bool, late: bool)
    requires sh.ewma <= PPM
    ensures match Updating(p, sh, yes)
            case None => Moved(p, sh, yes, late).1.ewma == sh.ewma && Moved(p, sh, yes, late).1.log == sh.log
            case Some(u) => (u.Sample? ==> u.ppm <= PPM) && Moved(p, sh, yes, late).1 == Swapped(sh, u)
  {}

  /** Whatever the interleaving, the slots add up, no more than 256 threads hold one, and the average is on its scale
      and has lost no update. */
  lemma StepKeeps(s: State, e: Event)
    requires Inv(s) && Enabled(s, e)
    ensures Inv(Next(s, e))
  {
    CountUpdate(s.pcs, e.t, Next(s, e).pcs[e.t]);
    HoldersCounted(s.pcs);
    MovedShare(s.pcs[e.t], s.sh, e.yes, e.late);
    MovedUpdates(s.pcs[e.t], s.sh, e.yes, e.late);
    var u := Updating(s.pcs[e.t], s.sh, e.yes);
    if u.Some? { SwappedAverage(s.sh, u.value); }
  }

  ghost predicate Runs(s: State, es: seq<Event>, s': State)
    decreases es
  {
    if es == [] then s' == s else Enabled(s, es[0]) && Runs(Next(s, es[0]), es[1..], s')
  }

  ghost predicate Initial(s: State) {
    (forall p <- s.pcs :: p == Out) && s.sh == Shared(0, 0, false, [])
  }

  lemma {:induction false} NobodyHolds(ps: seq<Pc>)
    requires forall p <- ps :: p == Out
    ensures Counted(ps) == Holders(ps) == 0
    decreases |ps|
  {
    if ps != [] {
      var n := |ps| - 1;
      assert ps[n] in ps && forall p <- ps[..n] :: p in ps;
      NobodyHolds(ps[..n]);
    }
  }

  lemma {:induction false} RunKeeps(s: State, es: seq<Event>, s': State)
    requires Inv(s) && Runs(s, es, s')
    ensures Inv(s')
    decreases es
  {
    if es != [] {
      StepKeeps(s, es[0]);
      RunKeeps(Next(s, es[0]), es[1..], s');
    }
  }

  /** In every reachable state at most 256 threads hold a slot, and with all threads outside every slot is back. */
  lemma SlotSafety(s: State, es: seq<Event>, s': State)
    requires Initial(s) && Runs(s, es, s')
    ensures Holders(s'.pcs) <= MAX_OUTSTANDING && s'.sh.ewma <= PPM
    ensures (forall p <- s'.pcs :: p == Out) ==> s'.sh.slots == 0
  {
    NobodyHolds(s.pcs);
    RunKeeps(s, es, s');
    if forall p <- s'.pcs :: p == Out { NobodyHolds(s'.pcs); }
  }

  /** What thread t did to the counter in a run, read off the counter: how often it raised and lowered it, and how often
      the thread entered. */
  datatype Tally = Tally(raised: nat, lowered: nat, entered: nat)

  ghost function TallyOf(s: State, es: seq<Event>, t: nat): Tally
    decreases es
  {
    if es == [] || !Enabled(s, es[0]) then Tally(0, 0, 0)
    else
      var s1, rest := Next(s, es[0]), TallyOf(Next(s, es[0]), es[1..], t);
      if es[0].t != t then rest
      else if s1.sh.slots > s.sh.slots then rest.(raised := rest.raised + 1)
      else if s1.sh.slots < s.sh.slots then rest.(lowered := rest.lowered + 1)
      else if s.pcs[t].Out? then rest.(entered := rest.entered + 1)
      else rest
  }

  /** The thread is in a call and has not reached the reservation. */
  predicate Early(p: Pc) { p.DecayLoad? || p.DecaySwap? || p.Decide? || p.Seen? || p.Judged? || p.Reserve? }

  /** Only the reservation raises the counter, and only entering leads to it. */
  lemma MovedEarly(p: Pc, sh: Shared, yes: bool, late: bool)
    requires sh.ewma <= PPM
    ensures var (p', sh') := Moved(p, sh, yes, late);
            && -1 <= sh'.slots - sh.slots <= 1 && (sh'.slots > sh.slots ==> Early(p) && !Early(p'))
            && (sh'.slots != sh.slots ==> !p.Out?) && (Early(p') ==> Early(p) || p.Out?)
  {}

  /** On every path through every exit: a thread has always lowered the counter as often as it raised it, but for the
      slot it holds or must take back; so when it is outside again it has given back each slot exactly once. It raises
      the counter at most once per call. */
  lemma {:induction false} GivesBackOnce(s: State, es: seq<Event>, s': State, t: nat)
    requires Runs(s, es, s') && t < |s.pcs|
    ensures t < |s'.pcs|
    ensures var y := TallyOf(s, es, t);
            && y.raised + Share(s.pcs[t]) == y.lowered + Share(s'.pcs[t])
            && y.raised + Bit(Early(s'.pcs[t])) <= y.entered + Bit(Early(s.pcs[t]))
    decreases es
  {
    if es != [] {
      MovedShare(s.pcs[es[0].t], s.sh, es[0].yes, es[0].late);
      MovedEarly(s.pcs[es[0].t], s.sh, es[0].yes, es[0].late);
      GivesBackOnce(Next(s, es[0]), es[1..], s', t);
    }
  }

  /** The average is strictly between the thresholds in every state of the run. */
  ghost predicate AverageInBand(s: State, es: seq<Event>)
    decreases es
  {
    PPM_LOW < s.sh.ewma < PPM_HIGH && (es != [] && Enabled(s, es[0]) ==> AverageInBand(Next(s, es[0]), es[1..]))
  }

  /** No thread is about to act on an average from outside the band. */
  ghost predicate NobodyPrimed(ps: seq<Pc>) { forall p <- ps :: p.Seen? || p.Judged? ==> PPM_LOW < p.v < PPM_HIGH }

  /** Hysteresis: while the average stays between the thresholds the latch does not change, whatever the threads do. */
  lemma {:induction false} LatchHolds(s: State, es: seq<Event>, s': State)
    requires Runs(s, es, s') && AverageInBand(s, es) && NobodyPrimed(s.pcs)
    ensures s'.sh.overloaded == s.sh.overloaded
    decreases es
  {
    if es != [] {
      var s1 := Next(s, es[0]);
      assert s.pcs[es[0].t] in s.pcs;
      assert forall p <- s1.pcs :: p in s.pcs || p == s1.pcs[es[0].t];
      LatchHolds(s1, es[1..], s');
    }
  }

  /** Outside the band a single call does change it: an idle thread that sees a high average sets the latch, and one
      that sees a low one clears it. The thread goes on to reserve exactly when it may probe or leaves the latch open.
      */
  lemma LatchTurns(s: State, t: nat, probe: bool)
    requires t < |s.pcs| && s.pcs[t] == Decide && s.sh.ewma <= PPM
    ensures exists s' :: Runs(s, [Step(t, probe, false), Step(t, probe, false), Step(t, probe, false)], s') &&
              (s'.sh.overloaded != s.sh.overloaded <==>
                 if s.sh.overloaded then s.sh.ewma <= PPM_LOW else s.sh.ewma >= PPM_HIGH) &&
              t < |s'.pcs| && (s'.pcs[t] == Reserve <==> probe || !s'.sh.overloaded) &&
              (s'.pcs[t] == Out <==> !probe && s'.sh.overloaded)
  {
    var e := Step(t, probe, false);
    var a := Next(s, e);
    var b := Next(a, e);
    var c := Next(b, e);
    assert Runs(c, [], c);
    assert [e][1..] == [] && [e, e][1..] == [e] && [e, e, e][1..] == [e, e];
    assert Runs(b, [e], c);
    assert Runs(a, [e, e], c);
    assert Runs(s, [e, e, e], c);
  }

  /** The average after the first n of the changes by others. */
  function After(v: nat, others: seq<nat>, n: nat): nat
    requires n <= |others|
  {
    if n == 0 then v else others[n - 1]
  }

  /** n changes by others come before the swap that succeeds: the last of them changed nothing, or there are no more. */
  ghost predicate Settles(v: nat, others: seq<nat>, n: nat) {
    n <= |others| && (n < |others| ==> n > 0 && After(v, others, n) == After(v, others, n - 1))
  }

  /** One thread's call in the form of the source, with everybody else's accesses in between. raised, lowered, reserved
      and released count what this thread does. */
  class Gate {
    var slots: int
    var ewma: nat
    var overloaded: bool
    ghost var raised: nat
    ghost var lowered: nat
    ghost var reserved: nat
    ghost var released: nat

    ghost predicate Valid() reads this { ewma <= PPM }

    constructor ()
      ensures Valid() && slots == 0 && ewma == 0 && !overloaded && raised == lowered == reserved == released == 0
    {
      slots, ewma, overloaded, raised, lowered, reserved, released := 0, 0, false, 0, 0, 0, 0;
    }

    /** reserve_outstanding_slot: a slot, or nothing and the counter set right again. */
    method ReserveSlot(other: int) returns (ok: bool)
      requires Valid()
      modifies `slots, `raised, `lowered, `reserved
      ensures Valid() && raised == old(raised) + 1 && released == old(released)
      ensures (ok <==> old(slots) < MAX_OUTSTANDING)
      ensures lowered == old(lowered) + Bit(!ok) && reserved == old(reserved) + Bit(ok)
      ensures slots == if ok then old(slots) + 1 else other - 1
    {
      var prev := slots;
      slots, raised := slots + 1, raised + 1;
      if prev >= MAX_OUTSTANDING {
        slots := other;
        slots, lowered := slots - 1, lowered + 1;
        return false;
      }
      reserved := reserved + 1;
      return true;
    }

    /** release_outstanding_slot. */
    method ReleaseSlot()
      modifies `slots, `lowered, `released
      ensures slots == old(slots) - 1 && lowered == old(lowered) + 1 && released == old(released) + 1
    {
      slots, lowered, released := slots - 1, lowered + 1, released + 1;
    }

    /** ewma_push_sample: between load and swap others may change the average, others[j] being what they leave before
        the j-th swap; the loop goes on until a swap finds what was loaded, which it does once others has come to its
        end. The sample is smoothed into the value in place at that swap, so no update by others is lost. */
    method PushSample(sample: nat, others: seq<nat>) returns (ghost n: nat)
      requires Valid() && sample <= PPM && forall v <- others :: v <= PPM
      modifies `ewma
      ensures Valid() && Settles(old(ewma), others, n)
      ensures ewma == Smoothed(After(old(ewma), others, n), sample, ALPHA_PPM)
    {
      var j := 0;
      n := 0;
      while true
        invariant Valid() && 0 <= j <= |others| && n == j && ewma == After(old(ewma), others, j)
        decreases |others| - j
      {
        var oldv := ewma;
        SmoothedBetween(oldv, sample, ALPHA_PPM);
        if j < |others| {
          assert others[j] in others;
          ewma := others[j];
          n := j + 1;
        }
        if ewma == oldv {
          ewma := Smoothed(oldv, sample, ALPHA_PPM);
          return;
        }
        j := j + 1;
      }
    }

    /** get_remote_item after its decay, with its three exits. polls has an entry for every look that finds no data yet,
        telling whether the time is up; after them the data is there. others and other are what the rest leaves behind.
        Every return gives back exactly the slots this call reserved; those without a reservation release nothing. The
        average takes in one sample if a slot was had, good or bad by the result, and none otherwise. */
    method GetRemoteItem(probe: bool, postFails: bool, polls: seq<bool>, others: seq<nat>, other: int)
        returns (got: bool, ghost n: nat)
      requires Valid() && forall v <- others :: v <= PPM
      modifies this
      ensures Valid() && raised - old(raised) == lowered - old(lowered) <= 1
      ensures released - old(released) == reserved - old(reserved) <= 1
      ensures reserved > old(reserved) <==>
                old(slots) < 256 && (probe || if old(overloaded) then old(ewma) <= 50_000 else old(ewma) < 200_000)
      ensures overloaded <==> if old(overloaded) then old(ewma) > 50_000 else old(ewma) >= 200_000
      ensures got <==> reserved > old(reserved) && !postFails && true !in polls
      ensures reserved == old(reserved) ==> ewma == old(ewma)
      ensures reserved > old(reserved) ==>
                && Settles(old(ewma), others, n)
                && ewma == (950_000 * After(old(ewma), others, n) + if got then 0 else 50_000 * 1_000_000) / 1_000_000
    {
      n := 0;
      if overloaded {
        if ewma <= PPM_LOW {
          overloaded := false;
        } else if !probe {
          return false, n;
        }
      } else if ewma >= PPM_HIGH {
        overloaded := true;
        if !probe { return false, n; }
      }
      var ok := ReserveSlot(other);
      if !ok { return false, n; }
      if postFails {
        n := PushSample(PPM, others);
        ReleaseSlot();
        return false, n;
      }
      var j := 0;
      while j < |polls|
        invariant 0 <= j <= |polls| && true !in polls[..j] && ewma == old(ewma)
        invariant Valid() && raised == old(raised) + 1 && lowered == old(lowered) && released == old(released)
        invariant reserved == old(reserved) + 1 && overloaded == Latch(old(ewma), old(overloaded), old(overloaded))
      {
        if polls[j] {
          n := PushSample(PPM, others);
          ReleaseSlot();
          return false, n;
        }
        assert polls[..j + 1] == polls[..j] + [false];
        j := j + 1;
      }
      assert polls[..j] == polls;
      n := PushSample(0, others);
      ReleaseSlot();
      return true, n;
    }
  }
}
