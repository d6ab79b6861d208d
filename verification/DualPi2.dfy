// The DualPI2 dual queue (src/pdcp_layer/dualpi2_queue.cpp): the state it keeps, what each
// operation does to that state, and the class that does it in place.
module DualPi2 {
  import opened Packets

  function Max(a: real, b: real): real { if a < b then b else a }
  function Min(a: real, b: real): real { if b < a then b else a }
  function Clamp01(x: real): real { Min(Max(x, 0.0), 1.0) }
  // A product kept as one term: proofs use its laws (in PiControl) instead of nonlinear arithmetic.
  function Mul(x: real, y: real): real { x * y }
  function AtLeastZero(n: int): int { if n < 0 then 0 else n }

  datatype ConfigValues = Config(
    k: real, targetS: real, rttMaxS: real, minThS: real, rangeS: real, pLMax: real, classicGuardS: real)
  // The controller divides by the maximum round-trip time.
  type Config = c: ConfigValues | c.rttMaxS > 0.0 witness Config(2.0, 0.015, 0.1, 0.0008, 0.0004, 1.0, 0.001)

  /** The PI controller's registers. */
  datatype Pi = Pi(pBase: real, pCl: real, pC: real, prevQ: real) {
    function Update(cfg: Config, curq: real): Pi {
      var p := Clamp01(pBase + Increment(cfg, curq, prevQ));
      Pi(p, Clamp01(Mul(p, cfg.k)), Clamp01(Mul(p, p)), curq)
    }
  }

  function UpdatePeriod(cfg: Config): real {
    var t := Min(cfg.targetS, cfg.rttMaxS / 3.0);
    if t <= 0.0 then 0.001 else t
  }

  function Alpha(cfg: Config): real { 0.1 * UpdatePeriod(cfg) / (cfg.rttMaxS * cfg.rttMaxS) }
  function Beta(cfg: Config): real { 0.3 / cfg.rttMaxS }

  predicate ChooseL4s(cfg: Config, l: seq<IpPkt>, c: seq<IpPkt>, now: real, lastClassicT: real) {
    if l == [] then false
    else if c == [] then true
    else if cfg.classicGuardS <= 0.0 then true
    else now - lastClassicT < cfg.classicGuardS
  }

  function Laqm(cfg: Config, qdelay: real): real {
    if qdelay <= cfg.minThS then 0.0
    else if cfg.rangeS <= 0.0 then cfg.pLMax
    else Min(cfg.pLMax, (qdelay - cfg.minThS) / cfg.rangeS)
  }

  function MarkProbability(cfg: Config, now: real, pCl: real, p: IpPkt): real {
    Min(Max(Max(Laqm(cfg, Max(0.0, now - p.currentT)), pCl), 0.0), cfg.pLMax)
  }

  function QueueDelay(q: seq<IpPkt>, now: real): real {
    if q == [] then 0.0 else Max(0.0, now - q[0].currentT)
  }

  predicate OldestIsL4s(l: seq<IpPkt>, c: seq<IpPkt>)
    requires l != [] || c != []
  {
    c == [] || (l != [] && l[0].currentT <= c[0].currentT)
  }

  // The controller's step: integral of the excess over the target plus the trend.
  function Increment(cfg: Config, curq: real, prevQ: real): real {
    Mul(Alpha(cfg), curq - cfg.targetS) + Mul(Beta(cfg), curq - prevQ)
  }

  datatype AqmStats = AqmStats(cePackets: nat, ceBits: nat, aqmDrops: nat, aqmDropBits: nat) {
    function AddMark(bits: nat): AqmStats { AqmStats(cePackets + 1, ceBits + bits, aqmDrops, aqmDropBits) }
    function AddDrop(bits: nat): AqmStats { AqmStats(cePackets, ceBits, aqmDrops + 1, aqmDropBits + bits) }
    function Plus(o: AqmStats): AqmStats {
      AqmStats(cePackets + o.cePackets, ceBits + o.ceBits, aqmDrops + o.aqmDrops, aqmDropBits + o.aqmDropBits)
    }
  }

  const NO_STATS := AqmStats(0, 0, 0, 0)

  datatype Action = Pass | Mark | Drop

  /** One dequeue, as history: who was served and with how many bits, when, from which queue, whether the other queue
      was backlogged, the code point the packet arrived with and what the AQM did to it. */
  datatype Service = Service(
    uid: nat, bits: Bits, at: real, fromL4s: bool, otherBacklogged: bool, arrivedEcn: Ecn, action: Action)

  /** The two queues, the packets the AQM dropped, and the bit counters kept beside them. */
  datatype Lanes = Lanes(l: seq<IpPkt>, c: seq<IpPkt>, dropped: seq<IpPkt>, lBits: int, cBits: int) {
    predicate HasPkts() { l != [] || c != [] }

    function Enqueue(p: IpPkt): Lanes {
      if p.IsL4s() then this.(l := l + [p], lBits := lBits + p.size)
      else this.(c := c + [p], cBits := cBits + p.size)
    }

    function TakeHead(fromL4s: bool): (Lanes, IpPkt)
      requires if fromL4s then l != [] else c != []
    {
      if fromL4s then (this.(l := l[1..], lBits := AtLeastZero(lBits - l[0].size)), l[0])
      else (this.(c := c[1..], cBits := AtLeastZero(cBits - c[0].size)), c[0])
    }
  }

  /** The AQM's registers. `draws` is how much of the random stream is used; `log` and `reported`
      are history: every dequeue, and the sum of all interval reports handed out. */
  datatype Aqm = Aqm(
    pi: Pi, pLLast: real, nextUpdateT: real, lastClassicT: real,
    total: AqmStats, interval: AqmStats, draws: nat, log: seq<Service>, reported: AqmStats)
  {
    // A draw is used up only when the probability leaves something to chance.
    function MarkLikelihood(unitDist: nat -> real, probability: real): (bool, nat) {
      if probability <= 0.0 then (false, draws)
      else if probability >= 1.0 then (true, draws)
      else (unitDist(draws) < probability, draws + 1)
    }

    // Records one dequeue and its action.
    function Did(s: Service, action: Action, bits: nat): Aqm {
      var a := this.(log := log + [s.(action := action)]);
      match action
      case Pass => a
      case Mark => a.(total := total.AddMark(bits), interval := interval.AddMark(bits))
      case Drop => a.(total := total.AddDrop(bits), interval := interval.AddDrop(bits))
    }

    function JudgeL4s(cfg: Config, unitDist: nat -> real, p: IpPkt, s: Service): (Aqm, Action) {
      var pL := MarkProbability(cfg, s.at, pi.pCl, p);
      var (hit, d) := MarkLikelihood(unitDist, pL);
      var action := if hit && p.ecn != Ce then Mark else Pass;
      (this.(pLLast := pL, draws := d).Did(s, action, p.size), action)
    }

    function JudgeClassic(unitDist: nat -> real, p: IpPkt, s: Service): (Aqm, Action) {
      var (hit, d) := MarkLikelihood(unitDist, pi.pC);
      var action := if !hit then Pass else if p.ecn == Ect0 && pi.pC < 1.0 then Mark else Drop;
      (this.(lastClassicT := s.at, draws := d).Did(s, action, p.size), action)
    }

    function Judge(cfg: Config, unitDist: nat -> real, p: IpPkt, s: Service): (Aqm, Action) {
      if p.IsL4s() then JudgeL4s(cfg, unitDist, p, s) else JudgeClassic(unitDist, p, s)
    }
  }

  // The packet as the AQM leaves it.
  function Treated(p: IpPkt, action: Action): IpPkt {
    match action
    case Pass => p
    case Mark => p.(ecn := Ce, ceMarked := true)
    case Drop => p.(aqmDropped := true)
  }

  /** The whole dual queue; `unitDist` is the random stream, an arbitrary input. */
  datatype DualQ = DualQ(cfg: Config, unitDist: nat -> real, now: real, lanes: Lanes, aqm: Aqm) {
    predicate HasPkts() { lanes.HasPkts() }

    function Enqueue(p: IpPkt): DualQ {
      this.(lanes := lanes.Enqueue(p))
    }

    // What history keeps of serving a head.
    function Serving(p: IpPkt, fromL4s: bool): Service {
      Service(p.uid, p.size, now, fromL4s, if fromL4s then lanes.c != [] else lanes.l != [], p.originalEcn, Pass)
    }

    // One turn of the dequeue loop: a packet for the caller, or none if the AQM dropped it.
    function ServeOne(): (r: (DualQ, Option<IpPkt>))
      requires HasPkts()
      ensures |r.0.lanes.l| + |r.0.lanes.c| + 1 == |lanes.l| + |lanes.c|
    {
      var fromL4s := ChooseL4s(cfg, lanes.l, lanes.c, now, aqm.lastClassicT);
      var (rest, p) := lanes.TakeHead(fromL4s);
      var s := Serving(p, fromL4s);
      var (a, action) := aqm.Judge(cfg, unitDist, p, s);
      if action == Drop then
        (this.(lanes := rest.(dropped := rest.dropped + [Treated(p, Drop)]), aqm := a), None)
      else
        (this.(lanes := rest, aqm := a), Some(Treated(p, action)))
    }

    function PopNext(): (r: (DualQ, Option<IpPkt>))
      ensures |r.0.lanes.l| + |r.0.lanes.c| + (if r.1.Some? then 1 else 0) <= |lanes.l| + |lanes.c|
      ensures r.1.None? ==> !r.0.HasPkts()
      decreases |lanes.l| + |lanes.c|
    {
      if !HasPkts() then (this, None)
      else
        var (q, served) := ServeOne();
        if served.Some? then (q, served) else q.PopNext()
    }

    function PeekOldest(): Option<IpPkt> {
      if !HasPkts() then None
      else Some(if OldestIsL4s(lanes.l, lanes.c) then lanes.l[0] else lanes.c[0])
    }

    function PopOldest(): (DualQ, Option<IpPkt>) {
      if !HasPkts() then (this, None)
      else
        var (rest, p) := lanes.TakeHead(OldestIsL4s(lanes.l, lanes.c));
        (this.(lanes := rest), Some(p))
    }

    function PopDropped(): (DualQ, Option<IpPkt>) {
      if lanes.dropped == [] then (this, None)
      else (this.(lanes := lanes.(dropped := lanes.dropped[1..])), Some(lanes.dropped[0]))
    }

    function StepTo(t: real): DualQ {
      if t < aqm.nextUpdateT then this.(now := t)
      else
        var curq := Max(QueueDelay(lanes.l, t), QueueDelay(lanes.c, t));
        this.(now := t, aqm := aqm.(pi := aqm.pi.Update(cfg, curq), nextUpdateT := t + UpdatePeriod(cfg)))
    }

    // Hands out the open interval's statistics and starts a new interval.
    function TakeReport(): (DualQ, AqmStats) {
      (this.(aqm := aqm.(interval := NO_STATS, reported := aqm.reported.Plus(aqm.interval))), aqm.interval)
    }
  }

  const NO_LANES := Lanes([], [], [], 0, 0)
  const FRESH_AQM := Aqm(Pi(0.0, 0.0, 0.0, 0.0), 0.0, 0.0, 0.0, NO_STATS, NO_STATS, 0, [], NO_STATS)

  function EmptyQueue(cfg: Config, unitDist: nat -> real): DualQ {
    DualQ(cfg, unitDist, 0.0, NO_LANES, FRESH_AQM)
  }

  class DualPi2Queue {
    const cfg: Config
    const unitDist: nat -> real
    var lQueue: seq<IpPkt>
    var cQueue: seq<IpPkt>
    var droppedQueue: seq<IpPkt>
    var lBits: int
    var cBits: int
    var currentT: real
    var pBase: real
    var pCl: real
    var pC: real
    var pLLast: real
    var prevQ: real
    var nextUpdateT: real
    var lastClassicDequeueT: real
    var totalStats: AqmStats
    var intervalStats: AqmStats
    var draws: nat
    ghost var log: seq<Service>
    ghost var reported: AqmStats

    ghost function LanesState(): Lanes
      reads this
    {
      Lanes(lQueue, cQueue, droppedQueue, lBits, cBits)
    }

    ghost function AqmState(): Aqm
      reads this
    {
      Aqm(Pi(pBase, pCl, pC, prevQ), pLLast, nextUpdateT, lastClassicDequeueT,
          totalStats, intervalStats, draws, log, reported)
    }

    ghost function State(): DualQ
      reads this
    {
      DualQ(cfg, unitDist, currentT, LanesState(), AqmState())
    }

    constructor (cfg: Config, unitDist: nat -> real)
      ensures State() == EmptyQueue(cfg, unitDist)
    {
      this.cfg, this.unitDist := cfg, unitDist;
      lQueue, cQueue, droppedQueue, lBits, cBits := [], [], [], 0, 0;
      currentT, pBase, pCl, pC, pLLast, prevQ := 0.0, 0.0, 0.0, 0.0, 0.0, 0.0;
      nextUpdateT, lastClassicDequeueT := 0.0, 0.0;
      totalStats, intervalStats, draws := NO_STATS, NO_STATS, 0;
      log, reported := [], NO_STATS;
    }

    method Enqueue(pkt: IpPkt)
      modifies this`lQueue, this`cQueue, this`lBits, this`cBits
      ensures State() == old(State()).Enqueue(pkt)
    {
      if pkt.IsL4s() {
        lBits := lBits + pkt.size;
        lQueue := lQueue + [pkt];
      } else {
        cBits := cBits + pkt.size;
        cQueue := cQueue + [pkt];
      }
    }

    method MarkLikelihood(probability: real) returns (hit: bool)
      modifies this`draws
      ensures (hit, draws) == old(AqmState()).MarkLikelihood(unitDist, probability)
    {
      if probability <= 0.0 {
        return false;
      }
      if probability >= 1.0 {
        return true;
      }
      hit := unitDist(draws) < probability;
      draws := draws + 1;
    }

    method TakeHead(fromL4s: bool) returns (pkt: IpPkt)
      requires if fromL4s then lQueue != [] else cQueue != []
      modifies this`lQueue, this`cQueue, this`lBits, this`cBits
      ensures (LanesState(), pkt) == old(LanesState()).TakeHead(fromL4s)
    {
      if fromL4s {
        pkt := lQueue[0];
        lQueue := lQueue[1..];
        lBits := lBits - pkt.size;
        if lBits < 0 {
          lBits := 0;
        }
      } else {
        pkt := cQueue[0];
        cQueue := cQueue[1..];
        cBits := cBits - pkt.size;
        if cBits < 0 {
          cBits := 0;
        }
      }
    }

    // A packet that is CE already is passed on as it is and counted nowhere.
    method MarkCe(pkt: IpPkt, ghost s: Service) returns (action: Action)
      modifies this`totalStats, this`intervalStats, this`log
      ensures action == if pkt.ecn == Ce then Pass else Mark
      ensures AqmState() == old(AqmState()).Did(s, action, pkt.size)
    {
      if pkt.ecn == Ce {
        log := log + [s.(action := Pass)];
        return Pass;
      }
      totalStats := totalStats.AddMark(pkt.size);
      intervalStats := intervalStats.AddMark(pkt.size);
      log := log + [s.(action := Mark)];
      return Mark;
    }

    method RecordDrop(pkt: IpPkt, ghost s: Service)
      modifies this`totalStats, this`intervalStats, this`log
      ensures AqmState() == old(AqmState()).Did(s, Drop, pkt.size)
    {
      totalStats := totalStats.AddDrop(pkt.size);
      intervalStats := intervalStats.AddDrop(pkt.size);
      log := log + [s.(action := Drop)];
    }

    method JudgeL4s(pkt: IpPkt, ghost s: Service) returns (action: Action)
      requires s.at == currentT
      modifies this`pLLast, this`draws, this`totalStats, this`intervalStats, this`log
      ensures (AqmState(), action) == old(AqmState()).JudgeL4s(cfg, unitDist, pkt, s)
    {
      hide MarkProbability;
      pLLast := MarkProbability(cfg, currentT, pCl, pkt);
      var hit := MarkLikelihood(pLLast);
      if hit {
        action := MarkCe(pkt, s);
      } else {
        log := log + [s.(action := Pass)];
        action := Pass;
      }
    }

    method JudgeClassic(pkt: IpPkt, ghost s: Service) returns (action: Action)
      requires s.at == currentT
      modifies this`lastClassicDequeueT, this`draws, this`totalStats, this`intervalStats, this`log
      ensures (AqmState(), action) == old(AqmState()).JudgeClassic(unitDist, pkt, s)
    {
      lastClassicDequeueT := currentT;
      var hit := MarkLikelihood(pC);
      if !hit {
        log := log + [s.(action := Pass)];
        action := Pass;
      } else if pkt.ecn == Ect0 && pC < 1.0 {
        action := MarkCe(pkt, s);
      } else {
        RecordDrop(pkt, s);
        action := Drop;
      }
    }

    method Judge(pkt: IpPkt, ghost s: Service) returns (action: Action)
      requires s.at == currentT
      modifies this`pLLast, this`lastClassicDequeueT, this`draws, this`totalStats, this`intervalStats, this`log
      ensures (AqmState(), action) == old(AqmState()).Judge(cfg, unitDist, pkt, s)
    {
      if pkt.IsL4s() {
        action := JudgeL4s(pkt, s);
      } else {
        action := JudgeClassic(pkt, s);
      }
    }

    // The body of the dequeue loop.
    method ServeOne() returns (pkt: Option<IpPkt>)
      requires lQueue != [] || cQueue != []
      modifies this
      ensures (State(), pkt) == old(State()).ServeOne()
    {
      hide Aqm.Judge, Lanes.TakeHead, Treated;
      var fromL4s := ChooseL4s(cfg, lQueue, cQueue, currentT, lastClassicDequeueT);
      // The swap to the other queue: the specification does without it, so it is never taken.
      if (if fromL4s then lQueue == [] else cQueue == []) {
        fromL4s := !fromL4s;
      }
      ghost var otherBacklogged := if fromL4s then cQueue != [] else lQueue != [];
      var p := TakeHead(fromL4s);
      ghost var s := Service(p.uid, p.size, currentT, fromL4s, otherBacklogged, p.originalEcn, Pass);
      var action := Judge(p, s);
      if action == Drop {
        droppedQueue := droppedQueue + [Treated(p, Drop)];
        return None;
      }
      return Some(Treated(p, action));
    }

    method PopNext() returns (pkt: Option<IpPkt>)
      modifies this
      ensures (State(), pkt) == old(State()).PopNext()
    {
      while lQueue != [] || cQueue != []
        invariant State().PopNext() == old(State()).PopNext()
        decreases |lQueue| + |cQueue|
      {
        pkt := ServeOne();
        if pkt.Some? {
          return;
        }
      }
      return None;
    }

    method PopDropped() returns (pkt: Option<IpPkt>)
      modifies this`droppedQueue
      ensures (State(), pkt) == old(State()).PopDropped()
    {
      if droppedQueue == [] {
        return None;
      }
      pkt := Some(droppedQueue[0]);
      droppedQueue := droppedQueue[1..];
    }

    method PopOldest() returns (pkt: Option<IpPkt>)
      modifies this`lQueue, this`cQueue, this`lBits, this`cBits
      ensures (State(), pkt) == old(State()).PopOldest()
    {
      if lQueue == [] && cQueue == [] {
        return None;
      }
      var p := TakeHead(OldestIsL4s(lQueue, cQueue));
      return Some(p);
    }

    method StepTo(t: real)
      modifies this`currentT, this`pBase, this`pCl, this`pC, this`prevQ, this`nextUpdateT
      ensures State() == old(State()).StepTo(t)
    {
      currentT := t;
      MaybeUpdatePi();
    }

    method MaybeUpdatePi()
      modifies this`pBase, this`pCl, this`pC, this`prevQ, this`nextUpdateT
      ensures State() == old(State()).StepTo(currentT)
    {
      hide UpdatePeriod, QueueDelay, Max;
      if currentT < nextUpdateT {
        return;
      }
      UpdatePi(Max(QueueDelay(lQueue, currentT), QueueDelay(cQueue, currentT)));
      nextUpdateT := currentT + UpdatePeriod(cfg);
    }

    method UpdatePi(curq: real)
      modifies this`pBase, this`pCl, this`pC, this`prevQ
      ensures Pi(pBase, pCl, pC, prevQ) == old(Pi(pBase, pCl, pC, prevQ)).Update(cfg, curq)
    {
      hide Increment, Mul;
      pBase := Clamp01(pBase + Increment(cfg, curq, prevQ));
      pCl := Clamp01(Mul(pBase, cfg.k));
      pC := Clamp01(Mul(pBase, pBase));
      prevQ := curq;
    }

    method GetIntervalStats() returns (stats: AqmStats)
      modifies this`intervalStats, this`reported
      ensures (State(), stats) == old(State()).TakeReport()
    {
      stats := intervalStats;
      reported := reported.Plus(intervalStats);
      intervalStats := NO_STATS;
    }
  }
}
