// What every dual-queue operation keeps: exact bit counters, classification, statistics that
// agree with the history, at most one congestion signal per packet, and fair service.
module DualPi2Laws {
  import opened Packets
  import opened DualPi2

  // ----- the history's own counts -----

  // How many congestion signals (marks and drops) the history holds for one packet.
  function Signals(log: seq<Service>, u: nat): nat {
    if log == [] then 0
    else Signals(log[..|log| - 1], u)
         + if log[|log| - 1].uid == u && log[|log| - 1].action != Pass then 1 else 0
  }

  function Count(log: seq<Service>, a: Action): nat {
    if log == [] then 0
    else Count(log[..|log| - 1], a) + if log[|log| - 1].action == a then 1 else 0
  }

  // The bits of the packets the history's services of one kind were of.
  function BitsOfAction(log: seq<Service>, a: Action): nat {
    if log == [] then 0
    else BitsOfAction(log[..|log| - 1], a) + if log[|log| - 1].action == a then log[|log| - 1].bits else 0
  }

  function Signalled(log: seq<Service>): set<nat> {
    set s | s in log && s.action != Pass :: s.uid
  }

  // When a classic packet was last dequeued; the queue's register starts at time 0.
  function LastClassic(log: seq<Service>): real {
    if log == [] then 0.0
    else if !log[|log| - 1].fromL4s then log[|log| - 1].at
    else LastClassic(log[..|log| - 1])
  }

  lemma LogSnoc(log: seq<Service>, s: Service)
    ensures (log + [s])[..|log|] == log
    ensures forall u :: Signals(log + [s], u) == Signals(log, u) + (if s.uid == u && s.action != Pass then 1 else 0)
    ensures forall a :: Count(log + [s], a) == Count(log, a) + (if s.action == a then 1 else 0)
    ensures forall a :: BitsOfAction(log + [s], a) == BitsOfAction(log, a) + (if s.action == a then s.bits else 0)
    ensures LastClassic(log + [s]) == if s.fromL4s then LastClassic(log) else s.at
  {
    assert (log + [s])[..|log|] == log;
  }

  // ----- invariants -----

  // Each lane holds its own class of packet, and the counters are exactly the bits queued.
  ghost predicate LanesSound(q: Lanes) {
    && (forall p :: p in q.l ==> p.IsL4s() && p.EcnConsistent())
    && (forall p :: p in q.c ==> !p.IsL4s() && p.EcnConsistent())
    && q.lBits == Weigh(AllBits, q.l)
    && q.cBits == Weigh(AllBits, q.c)
  }

  // Totals are the reports handed out plus the open interval, and count the history's actions and their bits;
  // the history signals only as RFC 3168 section 5 and RFC 9332 section 2.3 allow.
  ghost predicate Accounted(a: Aqm) {
    && a.total == a.reported.Plus(a.interval)
    && a.total.cePackets == Count(a.log, Mark)
    && a.total.aqmDrops == Count(a.log, Drop)
    && a.total.ceBits == BitsOfAction(a.log, Mark)
    && a.total.aqmDropBits == BitsOfAction(a.log, Drop)
    && (forall s :: s in a.log ==>
          && (s.action == Drop ==> s.arrivedEcn == NotEct || s.arrivedEcn == Ect0)
          && (s.action == Mark ==> s.arrivedEcn == Ect0 || s.arrivedEcn == Ect1))
  }

  // With both queues backlogged the choice follows the guard since the last classic dequeue.
  predicate ServedFairly(guard: real, log: seq<Service>, i: nat)
    requires i < |log|
  {
    log[i].otherBacklogged ==>
      (log[i].fromL4s <==> (guard <= 0.0 || log[i].at - LastClassic(log[..i]) < guard))
  }

  ghost predicate Fair(guard: real, log: seq<Service>) {
    forall i :: 0 <= i < |log| ==> ServedFairly(guard, log, i)
  }

  ghost predicate Timely(log: seq<Service>, now: real) {
    && (forall i, j :: 0 <= i <= j < |log| ==> log[i].at <= log[j].at)
    && (forall i :: 0 <= i < |log| ==> log[i].at <= now)
  }

  ghost predicate AqmSound(guard: real, now: real, a: Aqm) {
    Accounted(a) && a.lastClassicT == LastClassic(a.log) && Fair(guard, a.log) && Timely(a.log, now)
  }

  ghost predicate Sound(q: DualQ) {
    LanesSound(q.lanes) && AqmSound(q.cfg.classicGuardS, q.now, q.aqm)
  }

  lemma TakeHeadKeeps(q: Lanes, fromL4s: bool, g: Gauge)
    requires if fromL4s then q.l != [] else q.c != []
    requires LanesSound(q)
    ensures var (q', p) := q.TakeHead(fromL4s);
            && LanesSound(q') && p.EcnConsistent() && p.IsL4s() == fromL4s && q'.dropped == q.dropped
            && Weigh(g, q'.l) + Weigh(g, q'.c) + Measure(g, p) == Weigh(g, q.l) + Weigh(g, q.c)
  {
  }

  lemma EnqueueKeeps(q: Lanes, p: IpPkt, g: Gauge)
    requires LanesSound(q) && p.EcnConsistent()
    ensures var q' := q.Enqueue(p);
            LanesSound(q') && q'.dropped == q.dropped
            && Weigh(g, q'.l) + Weigh(g, q'.c) == Weigh(g, q.l) + Weigh(g, q.c) + Measure(g, p)
  {
    WeighSnoc(AllBits, q.l, p);
    WeighSnoc(AllBits, q.c, p);
    WeighSnoc(g, q.l, p);
    WeighSnoc(g, q.c, p);
  }

  lemma FairSnoc(guard: real, log: seq<Service>, s: Service)
    requires Fair(guard, log) && ServedFairly(guard, log + [s], |log|)
    ensures Fair(guard, log + [s])
  {
    forall i | 0 <= i <= |log|
      ensures ServedFairly(guard, log + [s], i)
    {
      if i < |log| {
        assert (log + [s])[..i] == log[..i];
        assert ServedFairly(guard, log, i);
      }
    }
  }

  // ----- the AQM stage -----

  // A dequeue record that fits the packet being judged and the choice that was made.
  ghost predicate Matches(s: Service, p: IpPkt, guard: real, a: Aqm) {
    && p.EcnConsistent() && s.uid == p.uid && s.bits == p.size && s.arrivedEcn == p.originalEcn
    && s.fromL4s == p.IsL4s()
    && (s.otherBacklogged ==> (s.fromL4s <==> (guard <= 0.0 || s.at - a.lastClassicT < guard)))
  }

  // An action the AQM may take on a packet: only an unmarked one is marked or dropped.
  predicate Allowed(p: IpPkt, action: Action) {
    match action
    case Pass => true
    case Mark => p.ecn == Ect0 || p.ecn == Ect1
    case Drop => p.ecn == NotEct || p.ecn == Ect0
  }

  // The books of one more service.
  lemma DidAccounts(a: Aqm, s: Service, p: IpPkt, action: Action)
    requires Accounted(a) && p.EcnConsistent() && Allowed(p, action)
    requires s.bits == p.size && s.arrivedEcn == p.originalEcn
    ensures Accounted(a.Did(s, action, p.size))
  {
    LogSnoc(a.log, s.(action := action));
    hide Count, BitsOfAction;
  }

  // One more service keeps the order of times and the guard.
  lemma DidFollowsGuard(a: Aqm, s: Service, p: IpPkt, action: Action, guard: real)
    requires AqmSound(guard, s.at, a) && Matches(s, p, guard, a)
    ensures var a' := a.Did(s, action, p.size).(lastClassicT := if p.IsL4s() then a.lastClassicT else s.at);
            Fair(guard, a'.log) && Timely(a'.log, s.at) && a'.lastClassicT == LastClassic(a'.log)
  {
    hide Accounted, Count, BitsOfAction, Signals;
    var s' := s.(action := action);
    LogSnoc(a.log, s');
    assert (a.log + [s'])[..|a.log|] == a.log;
    FairSnoc(guard, a.log, s');
  }

  // A signal raised takes an unmarked entry away.
  lemma DidSignals(a: Aqm, s: Service, p: IpPkt, action: Action, u: nat)
    requires p.EcnConsistent() && s.uid == p.uid && Allowed(p, action)
    ensures Treated(p, action).EcnConsistent()
    ensures Signals(a.Did(s, action, p.size).log, u)
            + (if action == Drop then 0 else Measure(Unmarked(u), Treated(p, action)))
            == Signals(a.log, u) + Measure(Unmarked(u), p)
  {
    LogSnoc(a.log, s.(action := action));
    hide Signals;
  }

  lemma DidKeeps(a: Aqm, s: Service, p: IpPkt, action: Action, guard: real, u: nat)
    requires AqmSound(guard, s.at, a) && Matches(s, p, guard, a) && Allowed(p, action)
    ensures var a' := a.Did(s, action, p.size).(lastClassicT := if p.IsL4s() then a.lastClassicT else s.at);
            AqmSound(guard, s.at, a')
    ensures Treated(p, action).EcnConsistent()
    ensures Signals(a.Did(s, action, p.size).log, u)
            + (if action == Drop then 0 else Measure(Unmarked(u), Treated(p, action)))
            == Signals(a.log, u) + Measure(Unmarked(u), p)
  {
    hide Fair, Timely, LastClassic, Signals, Count, BitsOfAction, Measure;
    DidAccounts(a, s, p, action);
    DidFollowsGuard(a, s, p, action, guard);
    DidSignals(a, s, p, action, u);
  }

  lemma JudgeKeeps(a: Aqm, cfg: Config, rng: nat -> real, p: IpPkt, s: Service, u: nat)
    requires AqmSound(cfg.classicGuardS, s.at, a) && Matches(s, p, cfg.classicGuardS, a)
    ensures var (a', action) := a.Judge(cfg, rng, p, s);
            && Allowed(p, action) && AqmSound(cfg.classicGuardS, s.at, a')
            && Treated(p, action).EcnConsistent()
            && Signals(a'.log, u) + (if action == Drop then 0 else Measure(Unmarked(u), Treated(p, action)))
               == Signals(a.log, u) + Measure(Unmarked(u), p)
  {
    hide MarkProbability, Fair, Timely, LastClassic, Signals;
    var (a', action) := a.Judge(cfg, rng, p, s);
    var a0 := a.(pLLast := a'.pLLast, draws := a'.draws);
    DidKeeps(a0, s, p, action, cfg.classicGuardS, u);
  }

  // ----- the dequeue loop -----

  /** What a dequeue moves: bits leave the queues for the caller or for the dropped queue, and the
      signals raised for a packet plus its unmarked entries stay the same. */
  ghost predicate Moved(q: DualQ, g: Gauge, q': DualQ, r: Option<IpPkt>) {
    var out := if r.Some? then Measure(g, r.value) else 0;
    && q'.cfg == q.cfg && q'.now == q.now && q'.aqm.pi == q.aqm.pi
    && (r.Some? ==> r.value.EcnConsistent())
    && (match g
        case Unmarked(u) =>
          Signals(q'.aqm.log, u) + Weigh(g, q'.lanes.l) + Weigh(g, q'.lanes.c) + out
          == Signals(q.aqm.log, u) + Weigh(g, q.lanes.l) + Weigh(g, q.lanes.c)
        case _ =>
          Weigh(g, q'.lanes.l) + Weigh(g, q'.lanes.c) + Weigh(g, q'.lanes.dropped) + out
          == Weigh(g, q.lanes.l) + Weigh(g, q.lanes.c) + Weigh(g, q.lanes.dropped))
  }

  // One turn of the loop in stages: the head leaves its queue, then the AQM judges it.
  ghost predicate Stages(q: DualQ, g: Gauge, rest: Lanes, p: IpPkt, action: Action)
    requires q.HasPkts()
  {
    var q' := q.ServeOne().0;
    && LanesSound(rest) && rest.dropped == q.lanes.dropped
    && Weigh(g, rest.l) + Weigh(g, rest.c) + Measure(g, p) == Weigh(g, q.lanes.l) + Weigh(g, q.lanes.c)
    && q' == q.(aqm := q'.aqm,
                lanes := if action == Drop then rest.(dropped := rest.dropped + [Treated(p, Drop)]) else rest)
    && q.ServeOne().1 == (if action == Drop then None else Some(Treated(p, action)))
    && q'.aqm.pi == q.aqm.pi && AqmSound(q.cfg.classicGuardS, q.now, q'.aqm) && Treated(p, action).EcnConsistent()
    && (g.Unmarked? ==>
          Signals(q'.aqm.log, g.uid) + (if action == Drop then 0 else Measure(g, Treated(p, action)))
          == Signals(q.aqm.log, g.uid) + Measure(g, p))
  }

  lemma ServeOneStages(q: DualQ, g: Gauge) returns (rest: Lanes, p: IpPkt, action: Action)
    requires Sound(q) && q.HasPkts()
    ensures Stages(q, g, rest, p, action)
  {
    hide AqmSound, Aqm.Judge, LastClassic, Signals, Lanes.TakeHead, Weigh, Measure;
    var fromL4s := ChooseL4s(q.cfg, q.lanes.l, q.lanes.c, q.now, q.aqm.lastClassicT);
    rest, p := q.lanes.TakeHead(fromL4s).0, q.lanes.TakeHead(fromL4s).1;
    var s := q.Serving(p, fromL4s);
    action := q.aqm.Judge(q.cfg, q.unitDist, p, s).1;
    TakeHeadKeeps(q.lanes, fromL4s, g);
    JudgeKeeps(q.aqm, q.cfg, q.unitDist, p, s, if g.AllBits? then 0 else g.uid);
    JudgeKeepsPi(q.aqm, q.cfg, q.unitDist, p, s);
  }

  /** The history is what happens: each turn of the loop records the head that left its lane, with its bits, the time,
      whether the other lane was waiting, the code point it arrived with, and whether it was dropped or newly marked. */
  lemma ServiceIsRecorded(q: DualQ)
    requires q.HasPkts()
    ensures var (q', served) := q.ServeOne(); var n := |q.aqm.log|;
            && |q'.aqm.log| == n + 1 && q'.aqm.log[..n] == q.aqm.log
            && var v := q'.aqm.log[n];
               var mine := if v.fromL4s then q.lanes.l else q.lanes.c;
               var other := if v.fromL4s then q.lanes.c else q.lanes.l;
               && mine != [] && v.uid == mine[0].uid && v.bits == mine[0].size && v.arrivedEcn == mine[0].originalEcn
               && v.at == q.now && (v.otherBacklogged <==> other != [])
               && (if v.fromL4s then q'.lanes.l == mine[1..] && q'.lanes.c == other
                   else q'.lanes.c == mine[1..] && q'.lanes.l == other)
               && (v.action == Drop <==> served == None)
               && (v.action == Drop ==> q'.lanes.dropped == q.lanes.dropped + [mine[0].(aqmDropped := true)])
               && (v.action == Mark ==> served == Some(mine[0].(ecn := Ce, ceMarked := true)))
               && (v.action == Pass ==> served == Some(mine[0]))
  {
    hide MarkProbability, Aqm.MarkLikelihood;
  }

  lemma JudgeLogs(a: Aqm, cfg: Config, rng: nat -> real, p: IpPkt, s: Service)
    ensures var (a', action) := a.Judge(cfg, rng, p, s); a'.log == a.log + [s.(action := action)]
  {
    hide MarkProbability;
  }

  lemma JudgeKeepsPi(a: Aqm, cfg: Config, rng: nat -> real, p: IpPkt, s: Service)
    ensures a.Judge(cfg, rng, p, s).0.pi == a.pi
  {
    hide MarkProbability;
  }

  lemma {:induction false} PopNextKeeps(q: DualQ, g: Gauge)
    requires Sound(q)
    ensures Sound(q.PopNext().0) && Moved(q, g, q.PopNext().0, q.PopNext().1)
    decreases |q.lanes.l| + |q.lanes.c|
  {
    hide AqmSound, DualQ.ServeOne, Weigh, Signals;
    if q.HasPkts() {
      var rest, p, action := ServeOneStages(q, g);
      WeighSnoc(g, rest.dropped, Treated(p, Drop));
      if q.ServeOne().1.None? {
        PopNextKeeps(q.ServeOne().0, g);
      }
    }
  }

  lemma PopOldestKeeps(q: DualQ, g: Gauge)
    requires Sound(q)
    ensures var (q', r) := q.PopOldest();
            Sound(q') && q' == q.(lanes := q'.lanes) && q'.lanes.dropped == q.lanes.dropped
            && r.Some? == q.HasPkts() && (r.Some? ==> r.value.EcnConsistent() && Some(r.value) == q.PeekOldest())
            && Weigh(g, q'.lanes.l) + Weigh(g, q'.lanes.c) + (if r.Some? then Measure(g, r.value) else 0)
               == Weigh(g, q.lanes.l) + Weigh(g, q.lanes.c)
  {
    if q.HasPkts() {
      TakeHeadKeeps(q.lanes, OldestIsL4s(q.lanes.l, q.lanes.c), g);
    }
  }

  lemma StepToKeeps(q: DualQ, t: real)
    requires Sound(q) && q.now <= t
    ensures Sound(q.StepTo(t)) && q.StepTo(t).lanes == q.lanes && q.StepTo(t).aqm.log == q.aqm.log
  {
    hide Increment;
  }

  lemma NothingPlus(a: AqmStats)
    ensures NO_STATS.Plus(a) == a
  {
  }

  lemma TakeReportKeeps(q: DualQ)
    requires Sound(q)
    ensures Sound(q.TakeReport().0)
    ensures q.aqm.reported.Plus(q.TakeReport().1) == q.TakeReport().0.aqm.reported
  {
    hide LanesSound, Fair, Timely, LastClassic, Count, BitsOfAction;
  }

  // ----- the AQM's decisions -----

  /** At the extremes nothing is left to chance: a saturated classic probability drops every classic packet, ECN-capable
      or not, a saturated L4S one marks every packet that is not CE yet, and a zero one lets everything pass. In
      between, an ECN-capable classic packet is never dropped. */
  lemma JudgeAtExtremes(a: Aqm, cfg: Config, rng: nat -> real, p: IpPkt, s: Service)
    ensures var action := a.Judge(cfg, rng, p, s).1;
            var pL := MarkProbability(cfg, s.at, a.pi.pCl, p);
            && (!p.IsL4s() && a.pi.pC >= 1.0 ==> action == Drop)
            && (!p.IsL4s() && a.pi.pC <= 0.0 ==> action == Pass)
            && (p.ecn == Ect0 && a.pi.pC < 1.0 ==> action != Drop)
            && (p.IsL4s() && pL >= 1.0 ==> action == if p.ecn == Ce then Pass else Mark)
            && (p.IsL4s() && pL <= 0.0 ==> action == Pass)
  {
    hide MarkProbability;
  }

  // The probability a packet at its head meets: the marking one in the L4S lane, the classic one in the other.
  function Chance(a: Aqm, cfg: Config, p: IpPkt, at: real): real {
    if p.IsL4s() then MarkProbability(cfg, at, a.pi.pCl, p) else a.pi.pC
  }

  /** Between the extremes the next draw decides, and is used up: a packet is signalled exactly if it is not CE yet and
      the draw lies below its probability. At the extremes no draw is used. A packet that is signalled is marked if it
      arrived in the L4S class, or as ECT(0) with the classic probability below 1, and dropped otherwise. */
  lemma JudgeByDraw(a: Aqm, cfg: Config, rng: nat -> real, p: IpPkt, s: Service)
    ensures var (a', action) := a.Judge(cfg, rng, p, s); var chance := Chance(a, cfg, p, s.at);
            && (0.0 < chance < 1.0 ==>
                  && a'.draws == a.draws + 1
                  && (action != Pass <==> p.ecn != Ce && rng(a.draws) < chance))
            && (chance <= 0.0 || chance >= 1.0 ==> a'.draws == a.draws)
            && (action != Pass ==> (action == Mark <==> p.IsL4s() || (p.ecn == Ect0 && a.pi.pC < 1.0)))
  {
    hide MarkProbability;
  }

  /** More congestion never means fewer signals: with the same draw, a packet that is marked or dropped is still marked
      or dropped when the classic and the coupled probability are higher. */
  lemma SignallingNeverFalls(a: Aqm, b: Aqm, cfg: Config, rng: nat -> real, p: IpPkt, s: Service)
    requires a.draws == b.draws && a.pi.pC <= b.pi.pC && a.pi.pCl <= b.pi.pCl && cfg.pLMax >= 0.0
    ensures a.Judge(cfg, rng, p, s).1 != Pass ==> b.Judge(cfg, rng, p, s).1 != Pass
  {
    MarkingNeverFalls(cfg, s.at, s.at, a.pi.pCl, b.pi.pCl, p);
    hide MarkProbability;
  }

  lemma QuotientMonotone(x: real, y: real, z: real)
    requires z > 0.0 && x <= y
    ensures x / z <= y / z
    ensures x >= 0.0 ==> x / z >= 0.0
  {
  }

  lemma QuotientOf(x: real, z: real)
    requires z > 0.0
    ensures (x * z) / z == x
  {
  }

  /** The L4S ramp: nothing up to the threshold, then rising with the delay by `range` per unit of probability, and
      never above the maximum. */
  lemma RampRises(cfg: Config, d: real, e: real, x: real)
    requires cfg.pLMax >= 0.0 && d <= e && 0.0 < x <= cfg.pLMax
    ensures 0.0 <= Laqm(cfg, d) <= Laqm(cfg, e) <= cfg.pLMax
    ensures Laqm(cfg, cfg.minThS) == 0.0
    ensures cfg.rangeS > 0.0 ==> Laqm(cfg, cfg.minThS + x * cfg.rangeS) == x
    ensures cfg.rangeS <= 0.0 && d > cfg.minThS ==> Laqm(cfg, d) == cfg.pLMax
  {
    if cfg.rangeS > 0.0 {
      QuotientMonotone(d - cfg.minThS, e - cfg.minThS, cfg.rangeS);
      if d > cfg.minThS {
        QuotientMonotone(0.0, d - cfg.minThS, cfg.rangeS);
      }
      if e > cfg.minThS {
        QuotientMonotone(0.0, e - cfg.minThS, cfg.rangeS);
      }
      QuotientOf(x, cfg.rangeS);
      assert x * cfg.rangeS > 0.0;
      assert cfg.minThS + x * cfg.rangeS - cfg.minThS == x * cfg.rangeS;
    }
  }

  /** The marking probability of an L4S packet never falls as its own delay or the coupled probability grows; it is the
      larger of the ramp on its own delay and the coupled one, as far as the configured maximum allows. */
  lemma MarkingNeverFalls(cfg: Config, now: real, later: real, pCl: real, pCl': real, p: IpPkt)
    requires cfg.pLMax >= 0.0 && now <= later && pCl <= pCl'
    ensures MarkProbability(cfg, now, pCl, p) <= MarkProbability(cfg, later, pCl', p) <= cfg.pLMax
    ensures var ramp := Laqm(cfg, Max(0.0, now - p.currentT));
            Min(Max(ramp, pCl), cfg.pLMax) <= MarkProbability(cfg, now, pCl, p) <= Max(Max(ramp, pCl), 0.0)
  {
    if cfg.pLMax > 0.0 {
      RampRises(cfg, Max(0.0, now - p.currentT), Max(0.0, later - p.currentT), cfg.pLMax);
    } else {
      assert Laqm(cfg, Max(0.0, now - p.currentT)) <= 0.0;
    }
  }

  /** The oldest packet a caller is shown is the head that arrived first; equal heads go to the L4S queue. */
  lemma OldestIsEarlierHead(q: DualQ)
    ensures q.PeekOldest().Some? <==> q.HasPkts()
    ensures q.PeekOldest().Some? ==>
              var p := q.PeekOldest().value; var l, c := q.lanes.l, q.lanes.c;
              && (l != [] ==> p.currentT <= l[0].currentT) && (c != [] ==> p.currentT <= c[0].currentT)
              && (p in l[..if l == [] then 0 else 1] || p in c[..if c == [] then 0 else 1])
              && (l != [] && c != [] && l[0].currentT == c[0].currentT ==> p == l[0])
  {
  }

  // ----- what the history says about every run that keeps Sound -----

  /** Marks plus drops are the number of distinct packets signalled, once no packet is signalled twice. */
  lemma {:induction false} SignalsAreDistinct(log: seq<Service>)
    requires forall u: nat :: Signals(log, u) <= 1
    ensures |Signalled(log)| == Count(log, Mark) + Count(log, Drop)
  {
    if log == [] {
      assert Signalled(log) == {};
    } else {
      var prefix, s := log[..|log| - 1], log[|log| - 1];
      assert log == prefix + [s];
      LogSnoc(prefix, s);
      forall u: nat
        ensures Signals(prefix, u) <= 1
      {
        assert Signals(log, u) <= 1;
      }
      SignalsAreDistinct(prefix);
      if s.action == Pass {
        assert Signalled(log) == Signalled(prefix);
      } else {
        assert Signals(log, s.uid) <= 1;
        SignalledHasSignal(prefix, s.uid);
        assert Signalled(log) == Signalled(prefix) + {s.uid};
      }
    }
  }

  lemma {:induction false} SignalledHasSignal(log: seq<Service>, u: nat)
    ensures u in Signalled(log) <==> Signals(log, u) > 0
  {
    if log != [] {
      var prefix, s := log[..|log| - 1], log[|log| - 1];
      assert log == prefix + [s];
      SignalledHasSignal(prefix, u);
    }
  }

  lemma {:induction false} LastClassicIsLatest(log: seq<Service>, i: nat, now: real)
    requires i < |log| && !log[i].fromL4s && Timely(log, now)
    ensures log[i].at <= LastClassic(log)
  {
    if log[|log| - 1].fromL4s {
      LastClassicIsLatest(log[..|log| - 1], i, now);
    }
  }

  /** While L4S traffic waits, two classic dequeues are a full guard apart:
      at most one classic packet is taken per instant. */
  lemma ClassicIsRateLimited(guard: real, now: real, log: seq<Service>, i: nat, j: nat)
    requires Fair(guard, log) && Timely(log, now)
    requires i < j < |log| && !log[i].fromL4s && !log[j].fromL4s && log[j].otherBacklogged
    ensures guard > 0.0 && log[j].at - log[i].at >= guard
  {
    assert ServedFairly(guard, log, j);
    LastClassicIsLatest(log[..j], i, now);
  }

  /** While classic traffic waits behind a positive guard, L4S is served only for less than the guard
      after the last classic dequeue (or after time 0, before the first). */
  lemma L4sCannotStarveClassic(guard: real, now: real, log: seq<Service>, j: nat)
    requires Fair(guard, log) && Timely(log, now) && guard > 0.0
    requires j < |log| && log[j].fromL4s && log[j].otherBacklogged
    ensures log[j].at < guard || exists i :: 0 <= i < j && !log[i].fromL4s && log[j].at - log[i].at < guard
  {
    assert ServedFairly(guard, log, j);
    LastClassicOccurs(log[..j]);
  }

  lemma {:induction false} LastClassicOccurs(log: seq<Service>)
    ensures LastClassic(log) == 0.0 || exists i :: 0 <= i < |log| && !log[i].fromL4s && log[i].at == LastClassic(log)
  {
    if log != [] && log[|log| - 1].fromL4s {
      LastClassicOccurs(log[..|log| - 1]);
    }
  }

  /** With the guard configured off, classic traffic is starved whenever L4S traffic waits:
      the positive guard above is needed. */
  lemma NoGuardStarvesClassic(guard: real, log: seq<Service>, j: nat)
    requires Fair(guard, log) && guard <= 0.0 && j < |log| && log[j].otherBacklogged
    ensures log[j].fromL4s
  {
    assert ServedFairly(guard, log, j);
  }
}
