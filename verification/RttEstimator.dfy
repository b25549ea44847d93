/** The round-trip-time estimator of RFC 6298 as an object updated in place, and what its estimates keep. */
module RttEstimatorClass {
  import opened EngineState
  import Spec = EngineSpec
  import opened GiveUpBound

  class RttEstimator {
    const cfg: TimerConfig
    var srtt: Option<real>
    var rttvar: real
    var rto: real

    function Value(): Rtt
      reads this
    {
      Rtt(srtt, rttvar, rto)
    }

    constructor (cfg: TimerConfig)
      ensures Value() == Rtt(None, 0.0, cfg.rtoInitial) && this.cfg == cfg
    {
      this.cfg := cfg;
      srtt, rttvar, rto := None, 0.0, cfg.rtoInitial;
    }

    method Sample(r: real)
      modifies this
      ensures Value() == Spec.RttSample(cfg, old(Value()), r)
    {
      if srtt.None? {
        srtt := Some(r);
        rttvar := r / 2.0;
      } else {
        rttvar := (1.0 - 1.0/4.0) * rttvar + (1.0/4.0) * Spec.AbsR(srtt.value - r);
        srtt := Some((1.0 - 1.0/8.0) * srtt.value + (1.0/8.0) * r);
      }
      rto := Spec.RtoClamp(cfg, srtt.value + MaxR(cfg.rttG, 4.0 * rttvar));
    }

    method Backoff()
      modifies this
      ensures Value() == Spec.RttBackoff(cfg, old(Value()))
    {
      rto := MinR(rto * 2.0, cfg.rtoMax);
    }
  }

  /** The estimate after a sequence of samples. */
  function Sampled(cfg: TimerConfig, r: Rtt, samples: seq<real>): Rtt
    decreases |samples|
  {
    if samples == [] then r else Sampled(cfg, Spec.RttSample(cfg, r, samples[0]), samples[1..])
  }

  /** The smoothed time never leaves the range of the samples, the deviation stays between zero and the upper end
      of that range, and the timeout stays between its bounds. */
  lemma {:induction false} EstimateStaysInRange(cfg: TimerConfig, r: Rtt, samples: seq<real>, lo: real, hi: real)
    requires 0.0 <= lo <= hi && forall i :: 0 <= i < |samples| ==> lo <= samples[i] <= hi
    requires r.srtt.Some? ==> lo <= r.srtt.value <= hi && 0.0 <= r.rttvar <= hi
    requires samples != [] || r.srtt.Some?
    ensures var f := Sampled(cfg, r, samples);
            && f.srtt.Some? && lo <= f.srtt.value <= hi && 0.0 <= f.rttvar <= hi
            && (samples != [] && cfg.rtoMin <= cfg.rtoMax ==> cfg.rtoMin <= f.rto <= cfg.rtoMax)
    decreases |samples|
  {
    if samples != [] {
      assert lo <= samples[0] <= hi;
      EstimateStaysInRange(cfg, Spec.RttSample(cfg, r, samples[0]), samples[1..], lo, hi);
    }
  }

  function Power(x: real, k: nat): real { if k == 0 then 1.0 else x * Power(x, k - 1) }

  function Repeated(v: real, k: nat): seq<real> { seq(k, _ => v) }

  /** The first sample is the estimate, and half of it the deviation. */
  lemma FirstSample(cfg: TimerConfig, r: Rtt, v: real)
    requires r.srtt.None?
    ensures var f := Sampled(cfg, r, [v]); f.srtt == Some(v) && f.rttvar == v / 2.0 && TimeoutIs(cfg, f)
  {
    assert Sampled(cfg, Spec.RttSample(cfg, r, v), []) == Spec.RttSample(cfg, r, v);
    assert [v][1..] == [];
  }

  /** The timeout is the estimate and four deviations, or the clock's grain, cut to its bounds. */
  predicate TimeoutIs(cfg: TimerConfig, f: Rtt)
    requires f.srtt.Some?
  {
    var t := f.srtt.value + (if cfg.rttG >= 4.0 * f.rttvar then cfg.rttG else 4.0 * f.rttvar);
    f.rto == if cfg.rtoMax < t || cfg.rtoMax < cfg.rtoMin then cfg.rtoMax else if t < cfg.rtoMin then cfg.rtoMin else t
  }

  /** One more equal sample, at the end. */
  lemma {:induction false} OneMore(cfg: TimerConfig, r: Rtt, v: real, k: nat)
    ensures Sampled(cfg, r, Repeated(v, k + 1)) == Spec.RttSample(cfg, Sampled(cfg, r, Repeated(v, k)), v)
    decreases k
  {
    hide Spec.RttSample;
    assert Repeated(v, k + 1)[1..] == Repeated(v, k);
    if k > 0 {
      assert Repeated(v, k)[1..] == Repeated(v, k - 1);
      OneMore(cfg, Spec.RttSample(cfg, r, v), v, k - 1);
    } else {
      assert Repeated(v, 0) == [];
    }
  }

  lemma {:induction false} PowerPositive(x: real, k: nat)
    requires x > 0.0
    ensures Power(x, k) > 0.0
  {
    if k > 0 { PowerPositive(x, k - 1); }
  }

  function Distance(a: real, b: real): real { if a <= b then b - a else a - b }

  /** Convergence (section 2.3 of RFC 6298): after `k` samples of `v` the estimate has come seven eighths closer to it
      each time, and the deviation is what that leaves: a mix of the old one, fading by three quarters, and the distance. */
  lemma {:induction false} EstimateConverges(cfg: TimerConfig, r: Rtt, v: real, k: nat)
    requires r.srtt.Some?
    ensures var f := Sampled(cfg, r, Repeated(v, k));
            && f.srtt == Some(Toward(v, Power(7.0/8.0, k), r.srtt.value))
            && f.rttvar == Mixed(Power(3.0/4.0, k), r.rttvar, Power(7.0/8.0, k), Distance(r.srtt.value, v))
            && (k > 0 ==> TimeoutIs(cfg, f))
    decreases k
  {
    hide Spec.RttSample, TimeoutIs, Mixed, Toward, Distance, Sampled;
    if k == 0 {
      assert Repeated(v, 0) == [];
      NoSamples(cfg, r, v);
    } else {
      EstimateConverges(cfg, r, v, k - 1);
      OneMore(cfg, r, v, k - 1);
      var g := Sampled(cfg, r, Repeated(v, k - 1));
      var p, q := Power(7.0/8.0, k - 1), Power(3.0/4.0, k - 1);
      PowerPositive(7.0/8.0, k - 1);
      OneStep(cfg, g, v, p, Power(7.0/8.0, k), q, Power(3.0/4.0, k), r.srtt.value, r.rttvar);
    }
  }

  /** From `v`, the part `p` of the way to `s`. */
  function Toward(v: real, p: real, s: real): real { v + Product(p, s - v) }

  /** Hidden where the solver would multiply out. */
  function Product(a: real, b: real): real { a * b }

  /** The old deviation, weighed with `q`, and the distance as far as `p` is ahead of `q`. */
  function Mixed(q: real, dev: real, p: real, d: real): real { Product(q, dev) + 2.0 * Product(d, p - q) }

  lemma NoSamples(cfg: TimerConfig, r: Rtt, v: real)
    requires r.srtt.Some?
    ensures Sampled(cfg, r, []) == r && r.srtt == Some(Toward(v, 1.0, r.srtt.value))
    ensures r.rttvar == Mixed(1.0, r.rttvar, 1.0, Distance(r.srtt.value, v))
  {
  }

  lemma GapShrinks(s: real, v: real, p: real)
    requires p > 0.0
    ensures Spec.AbsR(Product(p, s - v)) == Product(p, Distance(s, v))
  {
    if s <= v { assert p * (s - v) == -(p * (v - s)); }
  }

  lemma OneStep(cfg: TimerConfig, g: Rtt, v: real, p: real, p': real, q: real, q': real, s: real, dev: real)
    requires p > 0.0 && p' == 7.0/8.0 * p && q' == 3.0/4.0 * q
    requires g.srtt == Some(Toward(v, p, s)) && g.rttvar == Mixed(q, dev, p, Distance(s, v))
    ensures var f := Spec.RttSample(cfg, g, v);
            f.srtt == Some(Toward(v, p', s)) && f.rttvar == Mixed(q', dev, p', Distance(s, v)) && TimeoutIs(cfg, f)
  {
    hide Spec.RttSample, TimeoutIs, Product;
    GapShrinks(s, v, p);
    ScaledGap(p, p', s - v);
    ScaledGap(q, q', dev);
    ScaledMix(p, p', q, q', Distance(s, v));
    FromGap(cfg, g, v, Product(p, s - v));
  }

  lemma FromGap(cfg: TimerConfig, g: Rtt, v: real, x: real)
    requires g.srtt == Some(v + x)
    ensures var f := Spec.RttSample(cfg, g, v);
            f.srtt == Some(v + 7.0/8.0 * x) && f.rttvar == 3.0/4.0 * g.rttvar + 1.0/4.0 * Spec.AbsR(x) && TimeoutIs(cfg, f)
  {
  }

  lemma ScaledGap(p: real, p': real, x: real)
    ensures p' == 7.0/8.0 * p ==> Product(p', x) == 7.0/8.0 * Product(p, x)
    ensures p' == 3.0/4.0 * p ==> Product(p', x) == 3.0/4.0 * Product(p, x)
  {
    assert (7.0/8.0 * p) * x == 7.0/8.0 * (p * x);
  }

  lemma ScaledMix(p: real, p': real, q: real, q': real, d: real)
    requires p' == 7.0/8.0 * p && q' == 3.0/4.0 * q
    ensures 2.0 * Product(d, p' - q') == 3.0/4.0 * (2.0 * Product(d, p - q)) + 1.0/4.0 * Product(p, d)
  {
  }

  function BackedOff(cfg: TimerConfig, r: Rtt, k: nat): Rtt {
    if k == 0 then r else Spec.RttBackoff(cfg, BackedOff(cfg, r, k - 1))
  }

  /** `k` timeouts in a row make the timeout `min(2^k * rto, rtoMax)`. */
  lemma {:induction false} BackoffDoubles(cfg: TimerConfig, r: Rtt, k: nat)
    requires 0.0 <= r.rto <= cfg.rtoMax
    ensures BackedOff(cfg, r, k) == r.(rto := Interval(r.rto, cfg.rtoMax, k))
  {
    if k == 0 {
      assert Pow2(0) == 1.0;
    } else {
      BackoffDoubles(cfg, r, k - 1);
      Doubles(r.rto, cfg.rtoMax, k - 1);
    }
  }
}
