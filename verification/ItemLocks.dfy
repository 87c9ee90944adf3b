/** Why moving a bucket needs only one item lock (src/thread.c and the comment in src/assoc.c). */
module ItemLocks {
  import opened Basics
  import opened Addresses
  import opened HashChains
  import opened Assoc

  /** The size of the lock table by the number of worker threads. */
  function LockPower(threads: nat): (p: nat) {
    if threads < 3 then 10
    else if threads < 4 then 11
    else if threads < 5 then 12
    else if threads <= 10 then 13
    else if threads <= 20 then 14
    else 15
  }

  /** item_lock(hv): the stripe that guards hash value hv. */
  function Stripe(hv: nat, lockPower: nat): (s: nat)
    ensures s < Pow2(lockPower)
  {
    Mask(hv, lockPower)
  }

  /** memcached_thread_init gives up unless the lock table is smaller than the hash table. */
  predicate InitAccepts(threads: nat, hashpower: nat) { LockPower(threads) < hashpower }

  lemma {:induction false} MaskOfMask(hv: nat, n: nat, k: nat)
    requires k <= n
    ensures Mask(Mask(hv, n), k) == Mask(hv, k)
    decreases k
  {
    if k > 0 {
      MaskOfMask(hv / 2, n - 1, k - 1);
      Halves(hv % 2, Mask(hv / 2, n - 1));
    }
  }

  lemma Halves(bit: nat, rest: nat)
    requires bit < 2
    ensures (bit + 2 * rest) % 2 == bit && (bit + 2 * rest) / 2 == rest
  {}

  lemma MaskAgrees(hv: nat, n: nat, b: nat, k: nat)
    requires k <= n && Mask(hv, n) == b
    ensures Mask(hv, k) == Mask(b, k)
  {
    MaskOfMask(hv, n, k);
  }

  lemma {:induction false} MaskOfSum(b: nat, n: nat, k: nat)
    requires k <= n
    ensures Mask(b + Pow2(n), k) == Mask(b, k)
    decreases k
  {
    if k > 0 {
      assert Pow2(n) == 2 * Pow2(n - 1);
      assert (b + Pow2(n)) / 2 == b / 2 + Pow2(n - 1) && (b + Pow2(n)) % 2 == b % 2;
      MaskOfSum(b / 2, n - 1, k - 1);
    }
  }

  /** The phases the table goes through. */
  ghost predicate PhaseStep(ph: Phase, ph': Phase) {
    || (!ph.expanding && ph' == Phase(ph.power + 1, true, 0))
    || (ph.expanding && PhaseOK(ph) && ph' == Advanced(ph))
    || ph' == ph
  }

  ghost predicate PhaseRun(run: seq<Phase>, power: nat) {
    && |run| > 0 && run[0] == Phase(power, false, 0)
    && forall i {:trigger run[i]} | 0 < i < |run| :: PhaseStep(run[i - 1], run[i])
  }

  /** In every run that starts from an accepted configuration, the lock table stays smaller than the table
      that is being split. */
  lemma {:induction false} LocksStayCoarse(threads: nat, power: nat, run: seq<Phase>)
    requires InitAccepts(threads, power) && PhaseRun(run, power)
    ensures var ph := run[|run| - 1];
            PhaseOK(ph) && LockPower(threads) < ph.power && (ph.expanding ==> LockPower(threads) < ph.power - 1)
    decreases |run|
  {
    if |run| > 1 {
      var shorter := run[..|run| - 1];
      forall i {:trigger shorter[i]} | 0 < i < |shorter| ensures PhaseStep(shorter[i - 1], shorter[i]) {
        assert shorter[i] == run[i] && shorter[i - 1] == run[i - 1];
      }
      LocksStayCoarse(threads, power, shorter);
      assert run[|run| - 1] == run[|run| - 1] && PhaseStep(shorter[|shorter| - 1], run[|run| - 1]);
    }
  }

  /** A hash value routed to a touched bucket agrees with the bucket in its low bits, or in one more. */
  lemma TouchedMask(ph: Phase, now: Phase, hv: nat)
    requires PhaseOK(ph) && ph.expanding && now.power == ph.power && Touched(ph, Route(now, hv))
    ensures Mask(hv, ph.power - 1) == ph.bucket || Mask(hv, ph.power) == ph.bucket ||
            Mask(hv, ph.power) == ph.bucket + Pow2(ph.power - 1)
  {}

  lemma LowBits(hv: nat, power: nat, bucket: nat, k: nat)
    requires power > 0 && k <= power - 1
    requires Mask(hv, power - 1) == bucket || Mask(hv, power) == bucket ||
             Mask(hv, power) == bucket + Pow2(power - 1)
    ensures Mask(hv, k) == Mask(bucket, k)
  {
    if Mask(hv, power - 1) == bucket {
      MaskAgrees(hv, power - 1, bucket, k);
    } else if Mask(hv, power) == bucket {
      MaskAgrees(hv, power, bucket, k);
    } else {
      MaskAgrees(hv, power, bucket + Pow2(power - 1), k);
      MaskOfSum(bucket, power - 1, k);
    }
  }

  /** Every key whose operations go to a bucket that the move touches is guarded by the lock the move holds. */
  lemma OneLockExcludesAll(ph: Phase, lockPower: nat, hv: nat)
    requires PhaseOK(ph) && ph.expanding && lockPower <= ph.power - 1
    requires Touched(ph, Route(ph, hv)) || Touched(ph, Route(Advanced(ph), hv))
    ensures Stripe(hv, lockPower) == Stripe(ph.bucket, lockPower)
  {
    if Touched(ph, Route(ph, hv)) {
      TouchedMask(ph, ph, hv);
    } else {
      TouchedMask(ph, Advanced(ph), hv);
    }
    LowBits(hv, ph.power, ph.bucket, lockPower);
  }

  /** Advancing expand_bucket, or ending the expansion, re-routes no key outside that lock: a key is
      re-routed exactly when it lives in the bucket that was moved. */
  lemma AdvanceNeedsNoOtherLock(ph: Phase, lockPower: nat, hv: nat)
    requires PhaseOK(ph) && ph.expanding && lockPower <= ph.power - 1
    ensures Route(Advanced(ph), hv) != Route(ph, hv) <==> Mask(hv, ph.power - 1) == ph.bucket
    ensures Route(Advanced(ph), hv) != Route(ph, hv) ==> Stripe(hv, lockPower) == Stripe(ph.bucket, lockPower)
  {
    MaskOfMask(hv, ph.power - 1, lockPower);
    AdvanceRoutes(ph, hv);
  }
}
