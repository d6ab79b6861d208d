// The DualPI2 control law over whole runs (RFC 9332, section 2.1 and Appendix A).
module PiControl {
  import opened Packets
  import opened DualPi2

  // Updates for a list of observed queueing delays, one per update.
  function Run(cfg: Config, pi: Pi, delays: seq<real>): Pi
    decreases |delays|
  {
    if delays == [] then pi else Run(cfg, pi.Update(cfg, delays[0]), delays[1..])
  }

  // ----- the laws of multiplication the control law needs -----

  lemma MulMonotone(a: real, x: real, y: real)
    requires a >= 0.0 && x <= y
    ensures Mul(a, x) <= Mul(a, y)
  {
  }

  lemma MulNonNegative(a: real, x: real)
    requires a >= 0.0 && x >= 0.0
    ensures Mul(a, x) >= 0.0
  {
  }

  lemma MulZero(a: real)
    ensures Mul(a, 0.0) == 0.0
  {
  }

  lemma MulNegate(a: real, x: real)
    ensures Mul(a, -x) == -Mul(a, x)
  {
  }

  lemma MulDistributes(a: real, x: real, y: real)
    ensures Mul(a, x + y) == Mul(a, x) + Mul(a, y)
  {
  }

  lemma MulSuccessor(n: nat, x: real)
    ensures Mul((n + 1) as real, x) == Mul(n as real, x) + x
  {
  }

  lemma MulZeroTimes(x: real)
    ensures Mul(0 as real, x) == 0.0
  {
  }

  lemma SquareInUnit(p: real)
    requires 0.0 <= p <= 1.0
    ensures 0.0 <= Mul(p, p) <= 1.0
  {
    assert p * p <= p * 1.0;
  }

  lemma GainsArePositive(cfg: Config)
    ensures Alpha(cfg) > 0.0 && Beta(cfg) > 0.0
  {
    assert cfg.rttMaxS * cfg.rttMaxS > 0.0;
  }

  // ----- coupling -----

  // One base probability; the classic and the coupled L4S probabilities are its two images.
  ghost predicate Coupled(cfg: Config, pi: Pi) {
    0.0 <= pi.pBase <= 1.0 && pi.pC == Mul(pi.pBase, pi.pBase) && pi.pCl == Min(1.0, Mul(pi.pBase, cfg.k))
  }

  lemma UpdateCouples(cfg: Config, pi: Pi, curq: real)
    requires cfg.k >= 0.0
    ensures Coupled(cfg, pi.Update(cfg, curq))
  {
    hide Increment, Mul;
    var p := Clamp01(pi.pBase + Increment(cfg, curq, pi.prevQ));
    SquareInUnit(p);
    MulNonNegative(p, cfg.k);
  }

  lemma {:induction false} RunCouples(cfg: Config, pi: Pi, delays: seq<real>)
    requires cfg.k >= 0.0 && Coupled(cfg, pi)
    ensures Coupled(cfg, Run(cfg, pi, delays))
    decreases |delays|
  {
    hide Mul, Increment;
    if delays != [] {
      UpdateCouples(cfg, pi, delays[0]);
      RunCouples(cfg, pi.Update(cfg, delays[0]), delays[1..]);
    }
  }

  lemma SquareOfQuotient(k: real, p: real)
    requires k > 0.0
    ensures Mul(p, p) == (Mul(p, k) / k) * (Mul(p, k) / k)
  {
    assert (p * k) / k == p;
  }

  /** The square coupling of RFC 9332 section 2.1: below saturation p_C = (p_CL / k)^2. */
  lemma SquareCoupling(cfg: Config, pi: Pi, delays: seq<real>)
    requires cfg.k > 0.0 && Coupled(cfg, pi)
    ensures var r := Run(cfg, pi, delays);
            r.pCl < 1.0 ==> r.pC == (r.pCl / cfg.k) * (r.pCl / cfg.k)
  {
    hide Run, Mul;
    RunCouples(cfg, pi, delays);
    SquareOfQuotient(cfg.k, Run(cfg, pi, delays).pBase);
  }

  /** The update period is the target or a third of the maximum RTT, whichever is shorter, and the gains are those of
      RFC 9332 Appendix A: 0.1 of it over the square of that RTT, and 0.3 over that RTT. */
  lemma GainsFollowTheRtt(cfg: Config)
    requires cfg.targetS > 0.0
    ensures var t, rtt := UpdatePeriod(cfg), cfg.rttMaxS;
            && 0.0 < t <= cfg.targetS && 3.0 * t <= rtt && (t == cfg.targetS || 3.0 * t == rtt)
            && Alpha(cfg) * (rtt * rtt) == 0.1 * t && Beta(cfg) * rtt == 0.3
  {
    var rtt := cfg.rttMaxS;
    assert rtt * rtt > 0.0;
    Quotient(0.1 * UpdatePeriod(cfg), rtt * rtt);
    Quotient(0.3, rtt);
  }

  lemma Quotient(x: real, z: real)
    requires z > 0.0
    ensures x / z * z == x
  {
  }

  /** Both at the queue's default target of 15 ms and maximum RTT of 100 ms. */
  lemma GainsAtDefaults(cfg: Config)
    requires cfg.targetS == 0.015 && cfg.rttMaxS == 0.1
    ensures UpdatePeriod(cfg) == 0.015 && Alpha(cfg) == 0.15 && Beta(cfg) == 3.0
  {
  }

  // ----- the controller is proportional and integral -----

  // The delays above the target, added up.
  function Excess(cfg: Config, delays: seq<real>): real {
    if delays == [] then 0.0 else delays[0] - cfg.targetS + Excess(cfg, delays[1..])
  }

  function LastOf(prevQ: real, delays: seq<real>): real {
    if delays == [] then prevQ else delays[|delays| - 1]
  }

  // No update is cut off at 0 or 1.
  predicate Unclamped(cfg: Config, pi: Pi, delays: seq<real>)
    decreases |delays|
  {
    delays == [] || (0.0 <= pi.pBase + Increment(cfg, delays[0], pi.prevQ) <= 1.0
                     && Unclamped(cfg, pi.Update(cfg, delays[0]), delays[1..]))
  }

  /** As long as nothing is cut off, any updates together change the base probability by alpha times the sum of the
      delays above the target and beta times the difference between the last delay and the one before the first. */
  lemma {:induction false} UpdatesIntegrate(cfg: Config, pi: Pi, delays: seq<real>)
    requires Unclamped(cfg, pi, delays)
    ensures var r := Run(cfg, pi, delays);
            && r.pBase == pi.pBase + Mul(Alpha(cfg), Excess(cfg, delays))
                          + Mul(Beta(cfg), LastOf(pi.prevQ, delays) - pi.prevQ)
            && r.prevQ == LastOf(pi.prevQ, delays)
    decreases |delays|
  {
    hide Alpha, Beta, Mul;
    if delays == [] {
      MulZero(Alpha(cfg));
      MulZero(Beta(cfg));
    } else {
      var q, rest := delays[0], delays[1..];
      UpdatesIntegrate(cfg, pi.Update(cfg, q), rest);
      MulDistributes(Alpha(cfg), q - cfg.targetS, Excess(cfg, rest));
      MulDistributes(Beta(cfg), q - pi.prevQ, LastOf(q, rest) - q);
      assert q - pi.prevQ + (LastOf(q, rest) - q) == LastOf(q, rest) - pi.prevQ;
    }
  }

  // ----- pressure in both directions -----

  lemma IncrementAtLeast(cfg: Config, q: real, prevQ: real, d: real)
    requires prevQ <= q && cfg.targetS + d <= q
    ensures Increment(cfg, q, prevQ) >= Mul(Alpha(cfg), d)
  {
    hide Alpha, Beta, Mul;
    GainsArePositive(cfg);
    MulMonotone(Alpha(cfg), d, q - cfg.targetS);
    MulNonNegative(Beta(cfg), q - prevQ);
  }

  lemma IdleIncrement(cfg: Config, prevQ: real)
    requires prevQ >= 0.0
    ensures Increment(cfg, 0.0, prevQ) <= -Mul(Alpha(cfg), cfg.targetS)
  {
    hide Alpha, Beta, Mul;
    GainsArePositive(cfg);
    MulNegate(Alpha(cfg), cfg.targetS);
    MulMonotone(Beta(cfg), 0.0 - prevQ, 0.0);
    MulZero(Beta(cfg));
    assert 0.0 - cfg.targetS == -cfg.targetS;
  }

  /** Overload: N updates under a delay that never falls and stays at least d above the target raise the
      base probability by at least N * alpha * d, or saturate it. */
  lemma {:induction false} OverloadRaises(cfg: Config, pi: Pi, delays: seq<real>, d: real)
    requires 0.0 <= pi.pBase <= 1.0 && d >= 0.0
    requires forall i :: 0 <= i < |delays| ==> delays[i] >= cfg.targetS + d
    requires forall i, j :: 0 <= i <= j < |delays| ==> delays[i] <= delays[j]
    requires delays != [] ==> pi.prevQ <= delays[0]
    ensures Run(cfg, pi, delays).pBase >= Min(1.0, pi.pBase + Mul(|delays| as real, Mul(Alpha(cfg), d)))
    decreases |delays|
  {
    hide Alpha, Beta, Increment, Mul;
    var x := Mul(Alpha(cfg), d);
    if delays == [] {
      MulZeroTimes(x);
    } else {
      IncrementAtLeast(cfg, delays[0], pi.prevQ, d);
      GainsArePositive(cfg);
      MulNonNegative(Alpha(cfg), d);
      var n := |delays[1..]|;
      MulNonNegative(n as real, x);
      MulSuccessor(n, x);
      OverloadRaises(cfg, pi.Update(cfg, delays[0]), delays[1..], d);
    }
  }

  /** Idle: N updates with both queues empty lower the base probability by at least N * alpha * target,
      or bring it to zero. */
  lemma {:induction false} IdleLowers(cfg: Config, pi: Pi, delays: seq<real>)
    requires 0.0 <= pi.pBase <= 1.0 && pi.prevQ >= 0.0 && cfg.targetS >= 0.0
    requires forall i :: 0 <= i < |delays| ==> delays[i] == 0.0
    ensures Run(cfg, pi, delays).pBase <= Max(0.0, pi.pBase - Mul(|delays| as real, Mul(Alpha(cfg), cfg.targetS)))
    decreases |delays|
  {
    hide Alpha, Beta, Increment, Mul;
    var x := Mul(Alpha(cfg), cfg.targetS);
    if delays == [] {
      MulZeroTimes(x);
    } else {
      IdleIncrement(cfg, pi.prevQ);
      GainsArePositive(cfg);
      MulNonNegative(Alpha(cfg), cfg.targetS);
      var n := |delays[1..]|;
      MulNonNegative(n as real, x);
      MulSuccessor(n, x);
      IdleLowers(cfg, pi.Update(cfg, 0.0), delays[1..]);
    }
  }

  // ----- the same law at the queue: steps with nothing served in between -----

  function Steps(q: DualQ, ts: seq<real>): DualQ
    decreases |ts|
  {
    if ts == [] then q else Steps(q.StepTo(ts[0]), ts[1..])
  }

  // Each step comes no earlier than one update period after the one before.
  predicate Spaced(ts: seq<real>, first: real, period: real)
    decreases |ts|
  {
    ts == [] || (ts[0] >= first && Spaced(ts[1..], ts[0] + period, period))
  }

  function DelayAt(lanes: Lanes, t: real): real {
    Max(QueueDelay(lanes.l, t), QueueDelay(lanes.c, t))
  }

  function DelaysAt(lanes: Lanes, ts: seq<real>): (ds: seq<real>)
    ensures |ds| == |ts|
    ensures forall i :: 0 <= i < |ts| ==> ds[i] == DelayAt(lanes, ts[i])
  {
    seq(|ts|, i requires 0 <= i < |ts| => DelayAt(lanes, ts[i]))
  }

  /** Steps spaced by the update period are controller updates on the delays the queue shows. */
  lemma {:induction false} StepsAreUpdates(q: DualQ, ts: seq<real>)
    requires Spaced(ts, q.aqm.nextUpdateT, UpdatePeriod(q.cfg))
    ensures Steps(q, ts).aqm.pi == Run(q.cfg, q.aqm.pi, DelaysAt(q.lanes, ts))
    decreases |ts|
  {
    hide Pi.Update;
    if ts != [] {
      StepsAreUpdates(q.StepTo(ts[0]), ts[1..]);
      assert DelaysAt(q.lanes, ts)[1..] == DelaysAt(q.lanes, ts[1..]);
    }
  }

  /** After an update the registers stay as they are until a whole period is over. */
  lemma NoUpdateWithinAPeriod(q: DualQ, t: real, later: real)
    requires q.aqm.nextUpdateT <= t && later < t + UpdatePeriod(q.cfg)
    ensures q.StepTo(t).StepTo(later).aqm == q.StepTo(t).aqm
    ensures q.StepTo(t).aqm.pi == q.aqm.pi.Update(q.cfg, DelayAt(q.lanes, t))
  {
    hide Pi.Update, UpdatePeriod, QueueDelay;
  }

  /** The delay the controller sees is the longest wait of the packets next to be served, the heads of the two lanes. */
  lemma DelayIsLongestWait(lanes: Lanes, t: real, d: real)
    requires d > 0.0
    ensures DelayAt(lanes, t) >= 0.0
    ensures DelayAt(lanes, t) >= d
        <==> (lanes.l != [] && t - lanes.l[0].currentT >= d) || (lanes.c != [] && t - lanes.c[0].currentT >= d)
  {
  }

  /** A stalled head: while nothing is served and the oldest head has already waited the target plus d,
      every update raises the base probability by at least alpha * d until it saturates. */
  lemma StalledHeadRaises(q: DualQ, ts: seq<real>, d: real)
    requires 0.0 <= q.aqm.pi.pBase <= 1.0 && d >= 0.0 && ts != []
    requires Spaced(ts, q.aqm.nextUpdateT, UpdatePeriod(q.cfg))
    requires DelayAt(q.lanes, ts[0]) >= q.cfg.targetS + d
    requires q.aqm.pi.prevQ <= DelayAt(q.lanes, ts[0])
    ensures Steps(q, ts).aqm.pi.pBase >= Min(1.0, q.aqm.pi.pBase + Mul(|ts| as real, Mul(Alpha(q.cfg), d)))
  {
    hide Run, Steps, Alpha, Spaced, Mul;
    StepsAreUpdates(q, ts);
    SpacedAscends(ts, q.aqm.nextUpdateT, UpdatePeriod(q.cfg));
    OverloadRaises(q.cfg, q.aqm.pi, DelaysAt(q.lanes, ts), d);
  }

  /** So does any one packet that stalls at the head of its lane. */
  lemma StalledPacketRaises(q: DualQ, ts: seq<real>, p: IpPkt, d: real)
    requires 0.0 <= q.aqm.pi.pBase <= 1.0 && d >= 0.0 && ts != []
    requires Spaced(ts, q.aqm.nextUpdateT, UpdatePeriod(q.cfg))
    requires (q.lanes.l != [] && q.lanes.l[0] == p) || (q.lanes.c != [] && q.lanes.c[0] == p)
    requires ts[0] - p.currentT >= Max(q.cfg.targetS + d, q.aqm.pi.prevQ) > 0.0
    ensures Steps(q, ts).aqm.pi.pBase >= Min(1.0, q.aqm.pi.pBase + Mul(|ts| as real, Mul(Alpha(q.cfg), d)))
  {
    hide Steps, Alpha, Spaced, Mul, DelayAt;
    DelayIsLongestWait(q.lanes, ts[0], ts[0] - p.currentT);
    StalledHeadRaises(q, ts, d);
  }

  lemma {:induction false} SpacedAscends(ts: seq<real>, first: real, period: real)
    requires Spaced(ts, first, period) && period > 0.0
    ensures forall i :: 0 <= i < |ts| ==> first <= ts[i]
    ensures forall i, j :: 0 <= i <= j < |ts| ==> ts[i] <= ts[j]
    decreases |ts|
  {
    if ts != [] {
      SpacedAscends(ts[1..], ts[0] + period, period);
      assert forall i :: 1 <= i < |ts| ==> ts[i] == ts[1..][i - 1];
    }
  }
}
