// Why a packet is dropped, where every packet finds room and nothing fails: with nothing over budget the AQM is the
// only reason, and in FIFO mode the packet's own age.
module DropCauses {
  import opened Packets
  import opened DualPi2
  import opened DualPi2Laws
  import opened IpBuffer
  import opened IpBufferLaws
  import opened Ipv4Ecn
  import opened Capture
  import opened CapturedHandler
  import opened CapturedHandlerLaws
  import opened IdentityLaws
  import opened PdcpLayer
  import opened PdcpInduction
  import opened PdcpRuns
  import opened PdcpTheorems
  import opened CaptureTimes
  import opened SignalLaws
  import opened Expiry
  import Bounds
  import FifoBudget
  import FifoOrder

  // At every tick there is room for every packet that arrived.
  predicate Roomy(l: Layer, es: seq<Event>)
    requires CanRun(l, es)
    decreases |es|
  {
    es == [] || ((es[0].Step? ==> FifoOrder.HasRoom(l.Tick(es[0].t))) && Roomy(Apply(l, es[0]), es[1..]))
  }

  // Some packet ingested is over budget by now.
  ghost predicate SomethingLate(l: Layer) {
    exists k: nat :: k < l.ho.ticks && l.ho.clock(k) < l.now - l.budget
  }

  // Nothing has spoiled the packet so far.
  ghost predicate Clean(l: Layer, u: nat) {
    && !Spoiled(l.ho.out, u) && !ToldDrop(l.ho.verdicts, u) && !Holds(l.buf.q.lanes.dropped, u)
  }

  /** If anything spoiled the packet, the AQM dropped it or something is over budget. */
  ghost predicate Blameless(l: Layer, u: nat) {
    Did(l.buf.q.aqm.log, u, Drop) || SomethingLate(l) || Clean(l, u)
  }

  lemma DropSpoilsOnly(h: Handler, block: HarqPkt, u: nat)
    requires !Spoiled(h.out, u) && !Holds(block.pkts, u)
    ensures !Spoiled(h.DropBlock(block).out, u)
  {
    hide Spoiled, RemoveAll;
    RemoveAllSpoilsOnly(h.out, block.pkts, block.tOut, block.ipT, u);
  }

  lemma {:induction false} AddAllSpoilsNothing(out: seq<IpPkt>, pkts: seq<IpPkt>, tOut: real, ipT: real, u: nat)
    requires !Spoiled(out, u) && forall i :: 0 <= i < |pkts| ==> !pkts[i].erase
    ensures !Spoiled(AddAll(out, pkts, tOut, ipT), u)
    decreases |pkts|
  {
    if pkts != [] {
      var p := Stamped(pkts[0], tOut, ipT);
      var i, out' := FindUid(out, p.uid), AddData(out, p);
      assert forall j :: 0 <= j < |out| ==> out'[j].uid == out[j].uid && out'[j].erase == out[j].erase;
      assert !Spoiled(out', u);
      hide AddData, Spoiled;
      AddAllSpoilsNothing(out', pkts[1..], tOut, ipT, u);
    }
  }

  lemma PushSpoilsNothing(h: Handler, block: HarqPkt, jitter: real, u: nat)
    requires !Spoiled(h.out, u) && forall i :: 0 <= i < |block.pkts| ==> !block.pkts[i].erase
    ensures !Spoiled(h.Push(block, jitter).out, u)
  {
    hide AddAll, SortByUid, ReleaseTime;
    var out := AddAll(h.out, block.pkts, ReleaseTime(block, jitter), block.ipT);
    AddAllSpoilsNothing(h.out, block.pkts, ReleaseTime(block, jitter), block.ipT, u);
    SortKeepsMembers(out);
    var r := SortByUid(out);
    forall i | 0 <= i < |r|
      ensures r[i] in out
    {
      assert r[i] in r;
    }
  }

  // Whatever is queued, in ingress or taken for service was not spoiled before.
  ghost predicate Unspoilt(l: Layer) {
    && BufferHolds(l.buf, (p: IpPkt) => !p.erase) && (forall i :: 0 <= i < |l.ho.ingress| ==> !l.ho.ingress[i].erase)
    && l.harq.buf == []
  }

  // A piece of a captured packet that is late shows that something is.
  lemma LatePieceIsSomething(l: Layer, p: IpPkt)
    requires HandlerDated(l.ho) && Ingested(l.ho)(p)
    requires p.currentT < l.now - l.budget
    ensures SomethingLate(l)
  {
    hide PlaceOf, HandlerDated;
  }

  lemma LateHeadIsSomething(l: Layer)
    requires Dated(l) && HeadIsLate(l)
    ensures SomethingLate(l)
  {
    hide HandlerDated, FromCapture;
    var q, limit := l.buf.q.lanes, l.now - l.budget;
    if !l.buf.dual {
      LatePieceIsSomething(l, l.buf.fifo[0]);
    } else if q.l != [] && q.l[0].currentT < limit {
      LatePieceIsSomething(l, q.l[0]);
    } else {
      LatePieceIsSomething(l, q.c[0]);
    }
  }

  // What keeps lateness: time goes on, and the clock is only read further.
  lemma StaysLate(l: Layer, l': Layer)
    requires SomethingLate(l) && l'.now >= l.now && l'.budget == l.budget
    requires l'.ho.clock == l.ho.clock && l'.ho.ticks >= l.ho.ticks
    ensures SomethingLate(l')
  {
  }

  // ----- one operation at a time -----

  ghost predicate Kept(l: Layer, u: nat) { Dated(l) && Unspoilt(l) && Blameless(l, u) }

  lemma {:induction false} IngestUnspoilt(h: Handler)
    requires forall i :: 0 <= i < |h.ingress| ==> !h.ingress[i].erase
    ensures forall i :: 0 <= i < |h.Ingest().ingress| ==> !h.Ingest().ingress[i].erase
    ensures h.Ingest().ticks >= h.ticks
    decreases |h.store.captured|
  {
    if h.store.captured != [] {
      IngestUnspoilt(h.(store := h.store.Pop().0).IngestOne(h.store.captured[0]));
    }
  }

  lemma TickKept(l: Layer, t: real, u: nat)
    requires Kept(l, u) && l.now <= t
    ensures Kept(l.Tick(t), u)
  {
    hide Dated, BufferHolds, Spoiled, ToldDrop, Holds, Did, Buffer.StepTo, Handler.Ingest, SomethingLate;
    TickDated(l, t);
    IngestUnspoilt(l.ho.(now := t));
    IngestOnly(l.ho.(now := t));
    StepKeepsQueues(l.buf, t);
    SameQueues(l.buf, l.Tick(t).buf, (p: IpPkt) => !p.erase);
    if SomethingLate(l) {
      StaysLate(l, l.Tick(t));
    }
  }

  lemma SameQueues(b: Buffer, b': Buffer, ok: IpPkt -> bool)
    requires BufferHolds(b, ok) && b'.fifo == b.fifo && b'.q.lanes == b.q.lanes
    ensures BufferHolds(b', ok)
  {
  }

  lemma DrainOneKept(l: Layer, u: nat)
    requires Kept(l, u) && l.ho.ingress != [] && FifoOrder.HasRoom(l)
    ensures Kept(l.DrainOne(), u) && FifoOrder.HasRoom(l.DrainOne())
  {
    hide Dated, BufferHolds, Spoiled, ToldDrop, Holds, Did, SomethingLate, SortByUid;
    DrainOneDated(l);
    var p := l.ho.ingress[0];
    assert forall i :: 0 <= i < |l.ho.ingress[1..]| ==> l.ho.ingress[1..][i] == l.ho.ingress[i + 1];
    OtherOperationsHold(l.buf, p, (p: IpPkt) => !p.erase);
    if SomethingLate(l) {
      StaysLate(l, l.DrainOne());
    }
  }

  lemma DroppedRest(b: Buffer, u: nat)
    requires b.PopAqmDropped().1.Some? && !Holds(b.q.lanes.dropped, u)
    ensures var (b', v) := b.PopAqmDropped();
            !Holds(b'.q.lanes.dropped, u) && v.value.uid != u && b'.q.aqm.log == b.q.aqm.log
  {
    var s := b.q.lanes.dropped;
    assert forall i :: 0 <= i < |s| - 1 ==> s[1..][i] == s[i + 1];
  }

  lemma NotHeldAlone(p: IpPkt, u: nat)
    requires p.uid != u
    ensures !Holds([p], u)
  {
  }

  lemma VictimLog(b: Buffer)
    ensures b.PopAqmDropped().0.q.aqm.log == b.q.aqm.log
  {
  }

  lemma CollectOneKept(l: Layer, u: nat)
    requires Kept(l, u) && l.buf.PopAqmDropped().1.Some?
    ensures Kept(l.CollectOne(), u)
  {
    hide Dated, BufferHolds, Spoiled, ToldDrop, Holds, Did, SomethingLate, Handler.DropBlock, Buffer.PopAqmDropped;
    LoopsDated(l);
    var (b, victim) := l.buf.PopAqmDropped();
    OtherOperationsHold(l.buf, victim.value, (p: IpPkt) => !p.erase);
    DropKeepsHandler(l.ho, AqmBlock(victim.value, b.now));
    VictimLog(l.buf);
    if SomethingLate(l) {
      StaysLate(l, l.CollectOne());
    } else if !Did(l.buf.q.aqm.log, u, Drop) {
      DroppedRest(l.buf, u);
      NotHeldAlone(victim.value, u);
      DropSpoilsOnly(l.ho, AqmBlock(victim.value, b.now), u);
    }
  }

  lemma DropOldestKept(l: Layer, u: nat)
    requires Kept(l, u) && LateHead(l)
    ensures Kept(l.DropOldest(), u)
  {
    LateIsLate(l);
    LateHeadIsSomething(l);
    hide Dated, BufferHolds, Handler.DropBlock, SomethingLate, HeadIsLate, Buffer.PopOldest, Buffer.OldestTimestamp,
         Did, Clean;
    LoopsDated(l);
    PopOldestFindsOne(l.buf);
    var p := l.buf.PopOldest().1.value;
    OtherOperationsHold(l.buf, p, (p: IpPkt) => !p.erase);
    DropKeepsHandler(l.ho, BlockOf(l.nextId, l.buf.OldestTimestamp(), l.now, l.bhD, l.bhVar, [p]));
    StaysLate(l, l.DropOldest());
  }

  lemma StepKept(l: Layer, t: real, u: nat)
    requires Kept(l, u) && l.now <= t && FifoOrder.HasRoom(l.Tick(t))
    ensures Kept(l.StepTo(t), u)
  {
    hide Kept, Layer.Tick, Layer.DrainOne, Layer.DrainIngress, Layer.CollectOne, Layer.CollectDropped,
         Layer.DropOldest, Layer.CleanupIp, FifoOrder.HasRoom, Buffer.OldestTimestamp, Buffer.HasPkts;
    TickKept(l, t, u);
    forall k: Layer | Kept(k, u)
      ensures k.ho.ingress != [] && FifoOrder.HasRoom(k) ==> Kept(k.DrainOne(), u) && FifoOrder.HasRoom(k.DrainOne())
      ensures k.buf.PopAqmDropped().1.Some? ==> Kept(k.CollectOne(), u)
      ensures LateHead(k) ==> Kept(k.DropOldest(), u)
    {
      if k.ho.ingress != [] && FifoOrder.HasRoom(k) { DrainOneKept(k, u); }
      if k.buf.PopAqmDropped().1.Some? { CollectOneKept(k, u); }
      if LateHead(k) { DropOldestKept(k, u); }
    }
    DrainInduction(l.Tick(t), (k: Layer) => Kept(k, u) && FifoOrder.HasRoom(k));
    CollectInduction(l.Tick(t).DrainIngress(), (k: Layer) => Kept(k, u));
    CleanupIpInduction(l.Tick(t).DrainIngress().CollectDropped(), (k: Layer) => Kept(k, u));
    NoBlocksExpire(l.Tick(t).DrainIngress().CollectDropped().CleanupIp(), u);
  }

  lemma NoBlocksExpire(l: Layer, u: nat)
    requires Kept(l, u)
    ensures l.CleanupHarq() == l
  {
  }

  // ----- grants and releases -----

  // The AQM's victims are the packets it dropped.
  ghost predicate Blames(q: DualQ, q': DualQ, u: nat) {
    && q.aqm.log <= q'.aqm.log
    && (Holds(q'.lanes.dropped, u) ==> Holds(q.lanes.dropped, u) || Did(q'.aqm.log, u, Drop))
  }

  lemma ServeOneBlames(q: DualQ, u: nat)
    requires q.HasPkts()
    ensures Blames(q, q.ServeOne().0, u)
  {
    hide Aqm.Judge;
    var fromL4s := ChooseL4s(q.cfg, q.lanes.l, q.lanes.c, q.now, q.aqm.lastClassicT);
    var p := q.lanes.TakeHead(fromL4s).1;
    var s := q.Serving(p, fromL4s);
    JudgeLogs(q.aqm, q.cfg, q.unitDist, p, s);
    var q' := q.ServeOne().0;
    assert q'.aqm.log[|q.aqm.log|].uid == p.uid;
    assert forall i :: 0 <= i < |q.lanes.dropped| ==> q'.lanes.dropped[i] == q.lanes.dropped[i];
  }

  lemma BlamesTwice(a: DualQ, b: DualQ, c: DualQ, u: nat)
    requires Blames(a, b, u) && Blames(b, c, u)
    ensures Blames(a, c, u)
  {
    HistoryGrows(b.aqm.log, c.aqm.log, u);
    hide Did, Holds;
  }

  lemma {:induction false} PopNextBlames(q: DualQ, u: nat)
    ensures Blames(q, q.PopNext().0, u)
    decreases |q.lanes.l| + |q.lanes.c|
  {
    hide Blames, DualQ.ServeOne;
    NothingBlamed(q, u);
    if q.HasPkts() {
      ServeOneBlames(q, u);
      if q.ServeOne().1.None? {
        PopNextBlames(q.ServeOne().0, u);
        BlamesTwice(q, q.ServeOne().0, q.PopNext().0, u);
      }
    }
  }

  lemma NothingBlamed(q: DualQ, u: nat)
    ensures Blames(q, q, u)
  {
  }

  lemma EnqueueBlames(q: DualQ, p: IpPkt, u: nat)
    ensures Blames(q, q.Enqueue(p), u)
  {
  }

  lemma {:induction false} FillBlames(b: Buffer, bits: nat, u: nat)
    ensures Blames(b.q, b.Fill(bits).0.q, u)
    decreases bits
  {
    hide Blames, DualQ.PopNext, DualQ.Enqueue;
    NothingBlamed(b.q, u);
    if bits > 0 && b.HasPkts() {
      PopNextBlames(b.q, u);
      var (b1, next) := b.PopNext();
      if next.Some? {
        if next.value.size <= bits {
          FillBlames(b1, bits - next.value.size, u);
          BlamesTwice(b.q, b1.q, b1.Fill(bits - next.value.size).0.q, u);
        } else if b.dual {
          EnqueueBlames(b1.q, Remainder(next.value, bits), u);
          BlamesTwice(b.q, b1.q, b1.q.Enqueue(Remainder(next.value, bits)), u);
        }
      }
    }
  }

  lemma UnspoiltLasts()
    ensures Lasting((p: IpPkt) => !p.erase)
  {
  }

  lemma GrantKept(l: Layer, grant: nat, u: nat)
    requires Kept(l, u)
    ensures var (b, out) := l.buf.GetPkts(grant);
            Kept(l.(buf := b, nextId := l.nextId + 1), u) && forall i :: 0 <= i < |out| ==> !out[i].erase
  {
    hide Dated, BufferHolds, Spoiled, ToldDrop, Holds, Did, SomethingLate, Buffer.Fill, Lasting;
    var ok := (p: IpPkt) => !p.erase;
    GrantDated(l, grant);
    UnspoiltLasts();
    FillHolds(l.buf, grant, ok);
    SizeIsNoMatter(l.buf.Fill(grant).0, l.buf.GetPkts(grant).0.curSize, ok);
    FillBlames(l.buf, grant, u);
    HistoryGrows(l.buf.q.aqm.log, l.buf.GetPkts(grant).0.q.aqm.log, u);
    var l' := l.(buf := l.buf.GetPkts(grant).0, nextId := l.nextId + 1);
    if SomethingLate(l) {
      StaysLate(l, l');
    }
  }

  lemma CollectKept(l: Layer, u: nat)
    requires Kept(l, u)
    ensures var l' := l.CollectDropped();
            Kept(l', u) && l'.now == l.now && l'.budget == l.budget && l'.ho.clock == l.ho.clock
            && l'.ho.ticks == l.ho.ticks
  {
    hide Kept, Layer.CollectDropped, Handler.DropBlock;
    var inv := (k: Layer) =>
      Kept(k, u) && k.now == l.now && k.budget == l.budget && k.ho.clock == l.ho.clock && k.ho.ticks == l.ho.ticks;
    forall k: Layer | inv(k) && k.buf.PopAqmDropped().1.Some?
      ensures inv(k.CollectOne())
    {
      CollectOneKept(k, u);
      DropKeepsHandler(k.ho, AqmBlock(k.buf.PopAqmDropped().1.value, k.buf.PopAqmDropped().0.now));
    }
    CollectInduction(l, inv);
  }

  // A block dropped as expired while something is late, or delivered.
  lemma LandingKept(l: Layer, block: HarqPkt, jitter: real, u: nat)
    requires Kept(l, u) && forall i :: 0 <= i < |block.pkts| ==> !block.pkts[i].erase
    ensures SomethingLate(l) ==> Kept(l.(ho := l.ho.DropBlock(block)), u)
    ensures Kept(l.(ho := l.ho.Push(block, jitter)), u)
  {
    hide Dated, BufferHolds, Spoiled, ToldDrop, Holds, Did, SomethingLate, Handler.DropBlock, Handler.Push;
    BlockDated(l, l.harq, block, jitter);
    DropKeepsHandler(l.ho, block);
    PushKeepsHandler(l.ho, block, jitter);
    if SomethingLate(l) {
      StaysLate(l, l.(ho := l.ho.DropBlock(block)));
      StaysLate(l, l.(ho := l.ho.Push(block, jitter)));
    } else if !Did(l.buf.q.aqm.log, u, Drop) {
      PushSpoilsNothing(l.ho, block, jitter, u);
    }
  }

  lemma ExpiredIsSomething(l: Layer, u: nat)
    requires Kept(l, u) && l.buf.HasPkts()
    ensures l.IsExpired(l.buf.OldestTimestamp()) ==> SomethingLate(l)
  {
    LateIsLate(l);
    if HeadIsLate(l) {
      LateHeadIsSomething(l);
    }
  }

  lemma TurnKept(l: Layer, bits: real, radio: Radio, u: nat)
    requires Kept(l, u) && bits > 0.0 && l.buf.HasPkts() && !radio.fails
    ensures Kept(l.Turn(bits, radio).0, u)
  {
    hide Kept, Buffer.GetPkts, Layer.CollectDropped, Handler.DropBlock, Handler.Push, Buffer.HasPkts,
         Buffer.OldestTimestamp, SomethingLate;
    ExpiredIsSomething(l, u);
    var (b, out) := l.buf.GetPkts(bits.Floor);
    var l1 := l.(buf := b, nextId := l.nextId + 1);
    GrantKept(l, bits.Floor, u);
    CollectKept(l1, u);
    var l2 := l1.CollectDropped();
    if SomethingLate(l) {
      StaysLate(l, l2);
    }
    LandingKept(l2, BlockOf(l.nextId, l.buf.OldestTimestamp(), l.now, l.bhD, l.bhVar, out), radio.jitter, u);
  }

  lemma ReleaseFrontKept(l: Layer, u: nat)
    requires Kept(l, u) && l.ho.out != []
    ensures Kept(l.(ho := l.ho.ReleaseFront()), u)
  {
    hide HandlerDated, BufferHolds, Holds, Did, SomethingLate, Store.Verdict;
    var h, h' := l.ho, l.ho.ReleaseFront();
    VerdictKeepsOrder(h.store, h.out[0].uid, KindOf(h.out[0]));
    Unnoticed(h, h');
    var told := |h.verdicts|;
    assert h'.verdicts[told].pkt == h.out[0] && forall i :: 0 <= i < told ==> h'.verdicts[i] == h.verdicts[i];
    assert forall i :: 0 <= i < |h.out| - 1 ==> h'.out[i] == h.out[i + 1];
    if SomethingLate(l) {
      StaysLate(l, l.(ho := h'));
    }
  }

  lemma {:induction false} ReleaseKept(l: Layer, u: nat)
    requires Kept(l, u)
    ensures Kept(l.Release(), u)
    decreases |l.ho.out|
  {
    hide Kept, Handler.FrontGoes, Store.Verdict;
    if l.ho.FrontGoes() {
      FrontIsThere(l.ho);
      ReleaseFrontKept(l, u);
      ReleaseKept(l.(ho := l.ho.ReleaseFront()), u);
    }
  }

  lemma ReportKept(l: Layer, u: nat)
    requires Kept(l, u)
    ensures Kept(l.Report(), u)
  {
    hide HandlerDated, BufferHolds, Holds, Did, SomethingLate, Buffer.TakeReport, Spoiled, ToldDrop;
    ReportKeepsLanes(l.buf);
    SameQueues(l.buf, l.Report().buf, (p: IpPkt) => !p.erase);
    SameQueues(l.buf, l.Report().buf, Ingested(l.ho));
    if SomethingLate(l) {
      StaysLate(l, l.Report());
    }
  }

  lemma CapturedKept(l: Layer, info: Info, payload: seq<Byte>, u: nat)
    requires Kept(l, u) && info.uid !in l.ho.store.seen
    ensures Kept(l.Captured(info, payload), u)
  {
    CapturedDated(l, info, payload);
    hide Dated, BufferHolds, Holds, Did, SomethingLate, Spoiled, ToldDrop;
    if SomethingLate(l) {
      StaysLate(l, l.Captured(info, payload));
    }
  }

  lemma GrantEventKept(l: Layer, bits: real, radio: Radio, u: nat)
    requires Kept(l, u) && !radio.fails && l.Halts(bits)
    ensures !l.harq.IsPktReady() && Kept(l.ServeNew(bits, radio).0, u)
  {
    NoBlocksExpire(l, u);
    assert !l.harq.IsPktReady();
    hide Kept, Layer.Turn, Layer.ServeNew;
    forall k: Layer | Kept(k, u) && bits > 0.0 && k.buf.HasPkts()
      ensures Kept(k.Turn(bits, radio).0, u)
    {
      TurnKept(k, bits, radio, u);
    }
    GrantInduction(l, bits, radio, (k: Layer) => Kept(k, u));
  }

  lemma NothingReady(l: Layer, u: nat)
    requires Kept(l, u)
    ensures !l.harq.IsPktReady()
  {
  }

  lemma EventKept(l: Layer, e: Event, u: nat)
    requires Kept(l, u) && Enabled(l, e) && Succeeds(e) && (e.Step? ==> FifoOrder.HasRoom(l.Tick(e.t)))
    ensures Kept(Apply(l, e), u)
  {
    hide Kept, Layer.StepTo, Layer.ServeNew, Layer.Release, Layer.Report, Layer.Captured;
    match e
    case Capture(info, payload) => CapturedKept(l, info, payload, u);
    case Step(t) => StepKept(l, t, u);
    case Grant(bits, radio) =>
      NothingReady(l, u);
      GrantEventKept(l, bits, radio, u);
    case Release => ReleaseKept(l, u);
    case Report => ReportKept(l, u);
  }

  lemma {:induction false} RunKept(l: Layer, es: seq<Event>, u: nat)
    requires Kept(l, u) && CanRun(l, es) && Roomy(l, es) && forall e :: e in es ==> Succeeds(e)
    ensures Kept(Run(l, es), u)
    decreases |es|
  {
    hide Kept, Enabled, Apply, Succeeds, FifoOrder.HasRoom, Layer.Tick;
    if es != [] {
      EventKept(l, es[0], u);
      RunKept(Apply(l, es[0]), es[1..], u);
    }
  }

  lemma StartsKept(l: Layer, u: nat)
    requires Initial(l)
    ensures Kept(l, u)
  {
    InitialIsDated(l);
  }

  lemma KeptIsBlameless(l: Layer, u: nat)
    requires Kept(l, u)
    ensures Blameless(l, u)
  {
  }

  /** Over every run in either mode in which every packet finds room and no transmission fails, up to any time at which
      no packet ingested is over its delay budget: a packet told is dropped if and only if the AQM dropped it. */
  lemma OnlyTheAqmDrops(l: Layer, es: seq<Event>, i: nat)
    requires Initial(l) && CanRun(l, es) && Roomy(l, es) && (forall e :: e in es ==> Succeeds(e))
    requires var r := Run(l, es);
             && i < |r.ho.verdicts|
             && forall k: nat :: k < r.ho.ticks ==> r.ho.clock(k) >= r.now - r.budget
    ensures var r := Run(l, es); var v := r.ho.verdicts[i];
            v.kind == Discarded <==> Did(r.buf.q.aqm.log, v.pkt.uid, Drop)
  {
    hide Initial, Run, CanRun, Roomy, Kept, Did, Spoiled, Holds;
    var r := Run(l, es);
    var v := r.ho.verdicts[i];
    StartsKept(l, v.pkt.uid);
    RunKept(l, es, v.pkt.uid);
    KeptIsBlameless(r, v.pkt.uid);
    VerdictsHeedSignals(l, es, i);
  }

  // ----- FIFO mode: every packet by its own arrival -----

  // The packet was ingested more than the budget before the time.
  predicate ArrivedBefore(l: Layer, u: nat, limit: real) {
    var k := PlaceOf(l.ho.store.order, u); k < l.ho.ticks && l.ho.clock(k) < limit
  }

  /** In FIFO mode nothing but its own lateness spoils a packet. */
  ghost predicate SpoiltByAge(l: Layer, u: nat) {
    && !l.buf.dual && l.ho.now == l.now
    && (Spoiled(l.ho.out, u) ==> ArrivedBefore(l, u, l.now - l.budget))
    && (forall i :: 0 <= i < |l.ho.verdicts| && l.ho.verdicts[i].pkt.uid == u && l.ho.verdicts[i].kind == Discarded ==>
          ArrivedBefore(l, u, l.ho.verdicts[i].at - l.budget))
  }

  ghost predicate Aging(l: Layer, u: nat) { Dated(l) && Unspoilt(l) && SpoiltByAge(l, u) }

  // What a step owes the packet.
  lemma AgesOn(l: Layer, l': Layer, u: nat)
    requires SpoiltByAge(l, u) && HandlerDated(l.ho) && !l'.buf.dual && l'.ho.now == l'.now >= l.now
    requires l'.budget == l.budget && l'.ho.clock == l.ho.clock && l'.ho.ticks >= l.ho.ticks
    requires l'.ho.store.order == l.ho.store.order && l'.ho.verdicts == l.ho.verdicts
    requires Spoiled(l'.ho.out, u) ==> Spoiled(l.ho.out, u) || ArrivedBefore(l, u, l.now - l.budget)
    ensures SpoiltByAge(l', u)
  {
    hide HandlerDated, PlaceOf, Spoiled;
  }

  lemma TickAges(l: Layer, t: real, u: nat)
    requires Aging(l, u) && l.now <= t
    ensures Aging(l.Tick(t), u)
  {
    hide HandlerDated, BufferHolds, Spoiled, Buffer.StepTo, Handler.Ingest, SpoiltByAge, Ingested;
    TickDated(l, t);
    IngestUnspoilt(l.ho.(now := t));
    IngestOnly(l.ho.(now := t));
    StepKeepsQueues(l.buf, t);
    SameQueues(l.buf, l.Tick(t).buf, (p: IpPkt) => !p.erase);
    ModeOf(l, u);
    AgesOn(l, l.Tick(t), u);
  }

  lemma ModeOf(l: Layer, u: nat)
    requires SpoiltByAge(l, u)
    ensures !l.buf.dual && l.ho.now == l.now
  {
  }

  lemma DrainOneAges(l: Layer, u: nat)
    requires Aging(l, u) && l.ho.ingress != [] && FifoOrder.HasRoom(l)
    ensures Aging(l.DrainOne(), u) && FifoOrder.HasRoom(l.DrainOne())
  {
    hide HandlerDated, BufferHolds, Spoiled, SortByUid, SpoiltByAge, Ingested;
    DrainOneDated(l);
    assert forall i :: 0 <= i < |l.ho.ingress[1..]| ==> l.ho.ingress[1..][i] == l.ho.ingress[i + 1];
    OtherOperationsHold(l.buf, l.ho.ingress[0], (p: IpPkt) => !p.erase);
    ModeOf(l, u);
    AgesOn(l, l.DrainOne(), u);
  }

  lemma DropOldestAges(l: Layer, u: nat)
    requires Aging(l, u) && LateHead(l)
    ensures Aging(l.DropOldest(), u)
  {
    LateIsLate(l);
    ModeOf(l, u);
    LoopsDated(l);
    var p := l.buf.fifo[0];
    assert p.uid == u ==> ArrivedBefore(l, u, l.now - l.budget);
    OtherOperationsHold(l.buf, p, (p: IpPkt) => !p.erase);
    hide HandlerDated, BufferHolds, Spoiled, SpoiltByAge, Ingested, RemoveAll, ArrivedBefore;
    if !Spoiled(l.ho.out, u) && p.uid != u {
      NotHeldAlone(p, u);
      DropSpoilsOnly(l.ho, BlockOf(l.nextId, l.buf.OldestTimestamp(), l.now, l.bhD, l.bhVar, [p]), u);
    }
    AgesOn(l, l.DropOldest(), u);
  }

  lemma StepAges(l: Layer, t: real, u: nat)
    requires Aging(l, u) && l.now <= t && FifoOrder.HasRoom(l.Tick(t))
    ensures Aging(l.StepTo(t), u)
  {
    hide Aging, Layer.Tick, Layer.DrainOne, Layer.DrainIngress, Layer.DropOldest, Layer.CleanupIp,
         FifoOrder.HasRoom, Buffer.OldestTimestamp, Buffer.HasPkts;
    TickAges(l, t, u);
    forall k: Layer | Aging(k, u)
      ensures k.ho.ingress != [] && FifoOrder.HasRoom(k) ==> Aging(k.DrainOne(), u) && FifoOrder.HasRoom(k.DrainOne())
      ensures LateHead(k) ==> Aging(k.DropOldest(), u)
    {
      if k.ho.ingress != [] && FifoOrder.HasRoom(k) { DrainOneAges(k, u); }
      if LateHead(k) { DropOldestAges(k, u); }
    }
    var drained := l.Tick(t).DrainIngress();
    DrainInduction(l.Tick(t), (k: Layer) => Aging(k, u) && FifoOrder.HasRoom(k));
    AgingIsFifo(drained, u);
    FifoBudget.CollectIsIdle(drained);
    CleanupIpInduction(drained, (k: Layer) => Aging(k, u));
    AgingIsFifo(drained.CleanupIp(), u);
  }

  lemma AgingIsFifo(l: Layer, u: nat)
    requires Aging(l, u)
    ensures !l.buf.dual && l.CleanupHarq() == l && !l.harq.IsPktReady()
  {
  }

  lemma TurnAges(l: Layer, bits: real, radio: Radio, u: nat)
    requires Aging(l, u) && bits > 0.0 && l.buf.HasPkts() && !radio.fails && !l.IsExpired(l.buf.OldestTimestamp())
    ensures Aging(l.Turn(bits, radio).0, u)
  {
    hide HandlerDated, BufferHolds, Spoiled, SpoiltByAge, Ingested, Buffer.Fill, Handler.Push, Lasting,
         Buffer.OldestTimestamp;
    ModeOf(l, u);
    var ok := (p: IpPkt) => !p.erase;
    var (b, out) := l.buf.GetPkts(bits.Floor);
    var l1 := l.(buf := b, nextId := l.nextId + 1);
    TurnDated(l, bits, radio);
    UnspoiltLasts();
    FillHolds(l.buf, bits.Floor, ok);
    SizeIsNoMatter(l.buf.Fill(bits.Floor).0, b.curSize, ok);
    Bounds.FillFrame(l.buf, bits.Floor);
    FifoBudget.CollectIsIdle(l1);
    var block := BlockOf(l.nextId, l.buf.OldestTimestamp(), l.now, l.bhD, l.bhVar, out);
    PushKeepsHandler(l.ho, block, radio.jitter);
    if !Spoiled(l.ho.out, u) {
      PushSpoilsNothing(l.ho, block, radio.jitter, u);
    }
    AgesOn(l, l.Turn(bits, radio).0, u);
  }

  lemma ReleaseFrontAges(l: Layer, u: nat)
    requires Aging(l, u) && l.ho.out != []
    ensures Aging(l.(ho := l.ho.ReleaseFront()), u)
  {
    hide HandlerDated, BufferHolds, Store.Verdict, PlaceOf, FromCapture;
    var h, h' := l.ho, l.ho.ReleaseFront();
    VerdictKeepsOrder(h.store, h.out[0].uid, KindOf(h.out[0]));
    Unnoticed(h, h');
    var told := |h.verdicts|;
    assert h'.verdicts[told].pkt == h.out[0] && forall i :: 0 <= i < told ==> h'.verdicts[i] == h.verdicts[i];
    assert forall i :: 0 <= i < |h.out| - 1 ==> h'.out[i] == h.out[i + 1];
  }

  lemma {:induction false} ReleaseAges(l: Layer, u: nat)
    requires Aging(l, u)
    ensures Aging(l.Release(), u)
    decreases |l.ho.out|
  {
    hide Aging, Handler.FrontGoes, Store.Verdict;
    if l.ho.FrontGoes() {
      FrontIsThere(l.ho);
      ReleaseFrontAges(l, u);
      ReleaseAges(l.(ho := l.ho.ReleaseFront()), u);
    }
  }

  lemma CapturedAges(l: Layer, info: Info, payload: seq<Byte>, u: nat)
    requires Aging(l, u) && info.uid !in l.ho.store.seen
    ensures Aging(l.Captured(info, payload), u)
  {
    CapturedDated(l, info, payload);
    hide BufferHolds, Spoiled, PlaceOf, Every;
    forall v | PlaceOf(l.ho.store.order, v) < l.ho.ticks
      ensures PlaceOf(l.ho.store.order + [info.uid], v) == PlaceOf(l.ho.store.order, v)
    {
      PlaceStays(l.ho.store.order, v, info.uid);
    }
  }

  lemma ReportAges(l: Layer, u: nat)
    requires Aging(l, u)
    ensures Aging(l.Report(), u)
  {
    hide HandlerDated, BufferHolds, Spoiled, SpoiltByAge, Ingested;
    ModeOf(l, u);
    AgesOn(l, l.Report(), u);
  }

  lemma GrantAges(l: Layer, bits: real, radio: Radio, u: nat)
    requires Aging(l, u) && FifoBudget.Ascending(l) && FifoBudget.Fresh(l) && l.Halts(bits) && !radio.fails
    ensures Aging(l.HandlePkt(bits, radio).0, u)
  {
    hide Aging, FifoBudget.Ascending, FifoBudget.Fresh, Layer.Turn, Layer.ServeNew;
    AgingIsFifo(l, u);
    FifoBudget.OneTurnServes(l, bits, radio);
    if bits > 0.0 && l.buf.HasPkts() {
      FifoBudget.GrantNeverExpires(l);
      TurnAges(l, bits, radio, u);
    }
  }

  lemma EventAges(l: Layer, e: Event, u: nat)
    requires Aging(l, u) && FifoBudget.Ascending(l) && FifoBudget.Fresh(l) && Enabled(l, e) && Succeeds(e)
    requires e.Step? ==> FifoOrder.HasRoom(l.Tick(e.t))
    ensures Aging(Apply(l, e), u)
  {
    hide Aging, FifoBudget.Ascending, FifoBudget.Fresh, Layer.StepTo, Layer.HandlePkt, Layer.Release, Layer.Report,
         Layer.Captured;
    AgingIsFifo(l, u);
    match e
    case Capture(info, payload) => CapturedAges(l, info, payload, u);
    case Step(t) => StepAges(l, t, u);
    case Grant(bits, radio) => GrantAges(l, bits, radio, u);
    case Release => ReleaseAges(l, u);
    case Report => ReportAges(l, u);
  }

  lemma {:induction false} RunAges(l: Layer, es: seq<Event>, u: nat)
    requires Good(l) && Aging(l, u) && FifoBudget.Ascending(l) && FifoBudget.Fresh(l)
    requires CanRun(l, es) && Roomy(l, es) && forall e :: e in es ==> Succeeds(e)
    ensures Aging(Run(l, es), u)
    decreases |es|
  {
    hide Good, Aging, FifoBudget.Ascending, FifoBudget.Fresh, Enabled, Apply, Succeeds, FifoOrder.HasRoom, Layer.Tick;
    if es != [] {
      EventAges(l, es[0], u);
      EventKeeps(l, es[0]);
      FifoBudget.EventKeepsFresh(l, es[0]);
      RunAges(Apply(l, es[0]), es[1..], u);
    }
  }

  lemma StartsAging(l: Layer, u: nat)
    requires Initial(l) && !l.buf.dual
    ensures Aging(l, u)
  {
    InitialIsDated(l);
  }

  lemma DropIsByAge(l: Layer, i: nat)
    requires i < |l.ho.verdicts| && Aging(l, l.ho.verdicts[i].pkt.uid) && l.ho.verdicts[i].kind == Discarded
    ensures ArrivedBefore(l, l.ho.verdicts[i].pkt.uid, l.ho.verdicts[i].at - l.budget)
  {
    hide Dated, Unspoilt, PlaceOf;
  }

  /** Over every run of FIFO mode in which every packet finds room and no transmission fails, with a capture clock that
      does not run backwards: a packet is dropped only if its own arrival lay more than the delay budget before its
      verdict. */
  lemma FifoDropsOnlyLate(l: Layer, es: seq<Event>, i: nat)
    requires Initial(l) && CanRun(l, es) && !l.buf.dual && FifoBudget.ClockAscends(l.ho.clock)
    requires Roomy(l, es) && (forall e :: e in es ==> Succeeds(e))
    requires i < |Run(l, es).ho.verdicts| && Run(l, es).ho.verdicts[i].kind == Discarded
    ensures var r := Run(l, es); var v := r.ho.verdicts[i];
            ArrivedBefore(r, v.pkt.uid, v.at - r.budget)
  {
    hide Good, Run, CanRun, Roomy, Aging, FifoBudget.Ascending, FifoBudget.Fresh, FifoBudget.ClockAscends;
    var u := Run(l, es).ho.verdicts[i].pkt.uid;
    InitialIsGood(l);
    StartsAging(l, u);
    FifoBudget.InitialAscends(l);
    RunAges(l, es, u);
    DropIsByAge(Run(l, es), i);
  }
}
