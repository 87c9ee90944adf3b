/** Admission control for remote reads (src/rdma_util.c): a shared slot counter, a moving average of timeouts kept by
    compare-and-swap loops, and an overload latch with two thresholds. Every atomic access is a step of its own. */
module Admission {
  import opened Basics

  const MAX_OUTSTANDING: nat := 256
  const PPM: nat := 1_000_000
  const PPM_HIGH: nat := 200_000
  const PPM_LOW: nat := 50_000
  const ALPHA_PPM: nat := 50_000
  const DECAY_FACTOR_PPM: nat := 980_000

  /** ewma_update. */
  function Smoothed(was: nat, sample: nat, alpha: nat): int
    requires alpha <= PPM
  {
    (alpha * sample + (PPM - alpha) * was) / PPM
  }

  lemma Product(a: nat, x: nat, y: nat)
    requires x <= y
    ensures a * x <= a * y
  {
  }

  lemma DivideBounds(n: nat, lo: nat, hi: nat)
    requires PPM * lo <= n <= PPM * hi
    ensures lo <= n / PPM <= hi
  {
  }

  /** The update stays between the old value and the sample, so within the scale, and its products fit 64 bits. */
  lemma SmoothedBetween(was: nat, sample: nat, alpha: nat)
    requires alpha <= PPM && was <= PPM && sample <= PPM
    ensures alpha * sample + (PPM - alpha) * was < TWO64
    ensures var n := Smoothed(was, sample, alpha); if was <= sample then was <= n <= sample else sample <= n <= was
  {
    var lo, hi := if was <= sample then was else sample, if was <= sample then sample else was;
    Product(alpha, lo, sample);
    Product(alpha, sample, hi);
    Product(PPM - alpha, lo, was);
    Product(PPM - alpha, was, hi);
    assert alpha * lo + (PPM - alpha) * lo == PPM * lo;
    assert alpha * hi + (PPM - alpha) * hi == PPM * hi;
    DivideBounds(alpha * sample + (PPM - alpha) * was, lo, hi);
  }

  function Timeout(v: nat): (r: nat)
    ensures r == Smoothed(v, PPM, ALPHA_PPM)
  {
    (50_000_000_000 + 950_000 * v) / 1_000_000
  }

  function Decayed(v: nat): nat { v * DECAY_FACTOR_PPM / PPM }

  function TimesTimeout(v: nat, n: nat): nat
    decreases n
  {
    if n == 0 then v else TimesTimeout(Timeout(v), n - 1)
  }

  function TimesDecayed(v: nat, n: nat): nat
    decreases n
  {
    if n == 0 then v else TimesDecayed(Decayed(v), n - 1)
  }

  lemma TimeoutGrows(v: nat, w: nat)
    requires v <= w
    ensures Timeout(v) <= Timeout(w)
  {
  }

  lemma {:induction false} TimesTimeoutGrows(v: nat, w: nat, n: nat)
    requires v <= w
    ensures TimesTimeout(v, n) <= TimesTimeout(w, n)
    decreases n
  {
    if n > 0 {
      TimeoutGrows(v, w);
      TimesTimeoutGrows(Timeout(v), Timeout(w), n - 1);
    }
  }

  /** Five timeouts in a row reach the overload threshold from wherever the average stands; from zero four do not. */
  lemma FiveTimeoutsOverload(v: nat)
    ensures TimesTimeout(v, 5) >= PPM_HIGH && TimesTimeout(0, 4) < PPM_HIGH
  {
    assert Timeout(0) == 50_000 && Timeout(50_000) == 97_500 && Timeout(97_500) == 142_625 &&
           Timeout(142_625) == 185_493 && Timeout(185_493) == 226_218;
    assert TimesTimeout(185_493, 1) == TimesTimeout(226_218, 0);
    assert TimesTimeout(97_500, 3) == TimesTimeout(142_625, 2) == TimesTimeout(185_493, 1);
    assert TimesTimeout(0, 5) == TimesTimeout(50_000, 4) == TimesTimeout(97_500, 3);
    assert TimesTimeout(0, 4) == TimesTimeout(50_000, 3) == TimesTimeout(97_500, 2) == TimesTimeout(142_625, 1) ==
           TimesTimeout(185_493, 0);
    TimesTimeoutGrows(0, v, 5);
  }

  lemma DecayedGrows(v: nat, w: nat)
    requires v <= w
    ensures Decayed(v) <= Decayed(w) && Decayed(v) <= v
  {
  }

  lemma {:induction false} TimesDecayedGrows(v: nat, w: nat, n: nat)
    requires v <= w
    ensures TimesDecayed(v, n) <= TimesDecayed(w, n) && TimesDecayed(v, n) <= v
    decreases n
  {
    if n > 0 {
      DecayedGrows(v, w);
      TimesDecayedGrows(Decayed(v), Decayed(w), n - 1);
    }
  }

  lemma {:induction false} TimesDecayedSplit(v: nat, a: nat, b: nat)
    ensures TimesDecayed(v, a + b) == TimesDecayed(TimesDecayed(v, a), b)
    decreases a
  {
    if a > 0 { TimesDecayedSplit(Decayed(v), a - 1, b); }
  }

  lemma DecayedOnce(v: nat)
    ensures 100 * Decayed(v) <= 98 * v <= 100 * Decayed(v) + 99
  {
  }

  lemma FiveSteps(v: nat, n: nat)
    ensures TimesDecayed(v, n + 5) == TimesDecayed(Decayed(Decayed(Decayed(Decayed(Decayed(v))))), n)
  {
    var w := Decayed(Decayed(v));
    assert TimesDecayed(v, n + 5) == TimesDecayed(Decayed(v), n + 4) == TimesDecayed(w, n + 3);
    assert TimesDecayed(w, n + 3) == TimesDecayed(Decayed(w), n + 2) == TimesDecayed(Decayed(Decayed(w)), n + 1);
  }

  /** Five steps multiply by 0.98 to the fifth power, up to rounding. */
  lemma FiveDecays(v: nat) returns (w: nat)
    ensures w == Decayed(Decayed(Decayed(Decayed(Decayed(v))))) && 1_000_000 * w <= 903_921 * v &&
            903_920 * v - 5_000_000 <= 1_000_000 * w
  {
    var a := Decayed(v);
    var b := Decayed(a);
    var c := Decayed(b);
    var d := Decayed(c);
    w := Decayed(d);
    DecayedOnce(v);
    DecayedOnce(a);
    DecayedOnce(b);
    DecayedOnce(c);
    DecayedOnce(d);
  }

  /** Twenty-five steps. */
  lemma Decays25(v: nat) returns (w: nat)
    ensures w == TimesDecayed(v, 25) && 1_000_000 * w <= 603_468 * v && 603_460 * v - 25_000_000 <= 1_000_000 * w
  {
    var d := Decays20(v);
    w := FiveDecays(d);
    assert w == TimesDecayed(v, 25) by { TimesDecayedSplit(v, 20, 5); FiveSteps(d, 0); assert TimesDecayed(w, 0) == w; }
  }

  lemma Decays20(v: nat) returns (w: nat)
    ensures w == TimesDecayed(v, 20) && 1_000_000 * w <= 667_609 * v && 667_605 * v - 20_000_000 <= 1_000_000 * w
  {
    var a := FiveDecays(v);
    var b := FiveDecays(a);
    var c := FiveDecays(b);
    w := FiveDecays(c);
    assert w == TimesDecayed(v, 20) by {
      FiveSteps(v, 15);
      FiveSteps(a, 10);
      FiveSteps(b, 5);
      FiveSteps(c, 0);
      assert TimesDecayed(w, 0) == w;
    }
  }

  /** 125 steps from the top. */
  lemma Decays125() returns (w: nat)
    ensures w == TimesDecayed(PPM, 125) && 79_900 <= w <= 80_040
  {
    var a := Decays25(PPM);
    var b := Decays25(a);
    assert 364_100 <= b <= 364_180;
    var c := Decays25(b);
    var d := Decays25(c);
    w := Decays25(d);
    assert w == TimesDecayed(PPM, 125) by {
      TimesDecayedSplit(PPM, 25, 100);
      TimesDecayedSplit(a, 25, 75);
      TimesDecayedSplit(b, 25, 50);
      TimesDecayedSplit(c, 25, 25);
    }
  }

  /** 148 and 149 steps from the top. */
  lemma DecayFromTop()
    ensures TimesDecayed(PPM, 149) <= PPM_LOW < TimesDecayed(PPM, 148)
  {
    var w := Decays125();
    var d := Decays20(w);
    assert 53_320 <= d <= 53_440;
    assert TimesDecayed(PPM, 149) == TimesDecayed(d, 4) by {
      TimesDecayedSplit(PPM, 125, 24);
      TimesDecayedSplit(w, 20, 4);
    }
    assert TimesDecayed(PPM, 148) == TimesDecayed(d, 3) by {
      TimesDecayedSplit(PPM, 125, 23);
      TimesDecayedSplit(w, 20, 3);
    }
    LastDecays(d);
  }

  lemma LastDecays(d: nat)
    requires 53_320 <= d <= 53_440
    ensures TimesDecayed(d, 4) <= PPM_LOW < TimesDecayed(d, 3)
  {
    var x := Decayed(d);
    var y := Decayed(x);
    var z := Decayed(y);
    DecayedOnce(d);
    DecayedOnce(x);
    DecayedOnce(y);
    DecayedOnce(z);
    assert TimesDecayed(d, 3) == TimesDecayed(x, 2) == TimesDecayed(y, 1) == TimesDecayed(z, 0) == z;
    assert TimesDecayed(d, 4) == TimesDecayed(x, 3) == TimesDecayed(y, 2) == TimesDecayed(z, 1) ==
           TimesDecayed(Decayed(z), 0) == Decayed(z);
  }

  /** 149 decay steps bring any value on the scale to the recovery threshold, and more keep it there; from the top 148
      are not enough. */
  lemma DecayRecovers(v: nat, n: nat)
    requires v <= PPM && n >= 149
    ensures TimesDecayed(v, n) <= PPM_LOW && TimesDecayed(PPM, 148) > PPM_LOW
  {
    DecayFromTop();
    TimesDecayedGrows(v, PPM, 149);
    TimesDecayedSplit(v, 149, n - 149);
    TimesDecayedGrows(TimesDecayed(v, 149), TimesDecayed(v, 149), n - 149);
  }
}
