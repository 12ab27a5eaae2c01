/// Half-life decay of an association's usage bins.

module UsageDecay {

  /** Bins are usage periods, the current one first. */
  function Sum(bins: seq<real>): real
  {
    if bins == [] then 0.0 else Sum(bins[..|bins| - 1]) + bins[|bins| - 1]
  }

  function Power(x: real, k: nat): real
  {
    if k == 0 then 1.0 else x * Power(x, k - 1)
  }

  /** The bins one half-life later: everything moves on one bin and decays, the
      oldest is dropped and the current one is empty. */
  function Shifted(bins: seq<real>, decay: real): (r: seq<real>)
    ensures |r| == |bins|
  {
    seq(|bins|, i requires 0 <= i < |bins| => if i == 0 then 0.0 else bins[i - 1] * decay)
  }

  /** The bins k half-lives later, with no jobs in between. */
  function Rollovers(bins: seq<real>, decay: real, k: nat): (r: seq<real>)
    ensures |r| == |bins|
  {
    if k == 0 then bins else Shifted(Rollovers(bins, decay, k - 1), decay)
  }

  /** What is in bin i after k half-lives: what was in bin i - k, decayed k times. */
  function Closed(bins: seq<real>, decay: real, k: nat, i: nat): real
    requires i < |bins|
  {
    if i < k then 0.0 else Power(decay, k) * bins[i - k]
  }

  /** Closed form: after k half-lives the first k bins are empty, and what is in
      bin i was in bin i - k and has decayed k times. */
  lemma {:induction false} RolloversClosedForm(bins: seq<real>, decay: real, k: nat)
    ensures forall i | 0 <= i < |bins| :: Rollovers(bins, decay, k)[i] == Closed(bins, decay, k, i)
  {
    if k != 0 {
      RolloversClosedForm(bins, decay, k - 1);
      forall i | k <= i < |bins| ensures Rollovers(bins, decay, k)[i] == Closed(bins, decay, k, i) {
        assert Rollovers(bins, decay, k - 1)[i - 1] == Closed(bins, decay, k - 1, i - 1);
        Commute(Power(decay, k - 1), bins[i - k], decay);
      }
    }
  }

  lemma Commute(p: real, b: real, d: real)
    ensures (p * b) * d == (d * p) * b
  {
  }

  lemma {:induction false} SumOfZeros(bins: seq<real>)
    requires forall i | 0 <= i < |bins| :: bins[i] == 0.0
    ensures Sum(bins) == 0.0
  {
    if bins != [] {
      SumOfZeros(bins[..|bins| - 1]);
    }
  }

  /** Once there have been as many half-lives as bins, nothing is left. */
  lemma NothingLeft(bins: seq<real>, decay: real, k: nat)
    requires |bins| <= k
    ensures Sum(Rollovers(bins, decay, k)) == 0.0
  {
    RolloversClosedForm(bins, decay, k);
    SumOfZeros(Rollovers(bins, decay, k));
  }

  lemma {:induction false} SumFirst(bins: seq<real>)
    requires bins != []
    ensures Sum(bins) == bins[0] + Sum(bins[1..])
  {
    if |bins| > 1 {
      var n := |bins| - 1;
      SumFirst(bins[..n]);
      assert bins[..n][1..] == bins[1..][..n - 1];
    }
  }

  lemma {:induction false} SumScaled(bins: seq<real>, decay: real, scaled: seq<real>)
    requires |scaled| == |bins| && forall i | 0 <= i < |bins| :: scaled[i] == bins[i] * decay
    ensures Sum(scaled) == Sum(bins) * decay
  {
    if bins != [] {
      var n := |bins| - 1;
      SumScaled(bins[..n], decay, scaled[..n]);
    }
  }

  /** One half-life costs the oldest bin and a share of all others. */
  lemma ShiftedSum(bins: seq<real>, decay: real)
    requires bins != []
    ensures Sum(Shifted(bins, decay)) == Sum(bins[..|bins| - 1]) * decay
  {
    SumFirst(Shifted(bins, decay));
    SumScaled(bins[..|bins| - 1], decay, Shifted(bins, decay)[1..]);
  }

  lemma {:induction false} SumAdds(x: seq<real>, y: seq<real>, z: seq<real>)
    requires |x| == |y| == |z| && forall i | 0 <= i < |x| :: x[i] == y[i] + z[i]
    ensures Sum(x) == Sum(y) + Sum(z)
  {
    if x != [] {
      var n := |x| - 1;
      SumAdds(x[..n], y[..n], z[..n]);
    }
  }
}
