// Why ordered release needs safe releases: a packet refused for want of space and told at once moves the order cursor
// past packets captured before it, and then no run of the pipeline ever gives a verdict again.
module OrderLimits {
  import opened Packets
  import opened DualPi2
  import opened DualPi2Laws
  import opened IpBuffer
  import opened IpBufferLaws
  import opened Ipv4Ecn
  import opened Capture
  import opened CapturedHandler
  import opened CapturedHandlerLaws
  import opened IdentityLaws
  import opened PdcpLayer
  import opened PdcpInduction
  import opened PdcpRuns
  import opened PdcpLaws
  import opened PdcpTheorems
  import opened PdcpProgress
  import opened Reassembly
  import opened Overtaking
  import opened FifoOrder
  import opened CaptureOrder
  import opened Histories
  import opened ShutGate
  import Bounds
  import FifoBudget
  import HarqLaws

  // ----- a tick that refuses packets behind a queued one -----

  /** At a tick at `t` the oldest packet not handed to the radio link is, or gets, queued and is within budget, and one
      of the packets behind it finds no room. */
  predicate OverflowsBehind(l: Layer, t: real) {
    var k := l.Tick(t);
    && Line(k) != [] && !k.IsExpired(Line(k)[0].currentT)
    && (k.buf.fifo == [] ==> k.buf.Fits(k.ho.ingress[0]))
    && !HasRoom(k)
  }

  // The packet is at the head of the FIFO, and reassembly holds nothing but complete refused packets captured later.
  ghost predicate Overtaken(l: Layer, head: IpPkt) {
    && Orderly(l) && l.buf.fifo != [] && l.buf.fifo[0] == head
    && forall i :: 0 <= i < |l.ho.out| ==> l.ho.out[i].erase && l.ho.out[i].IsReady() && l.ho.out[i].uid > head.uid
  }

  lemma LineRises(l: Layer)
    requires Orderly(l) && l.buf.fifo != []
    ensures Later(l.buf.fifo[1..], l.buf.fifo[0].uid) && Later(l.ho.ingress, l.buf.fifo[0].uid)
    ensures !l.buf.fifo[0].erase && WholeOnes(l.ho.ingress)
  {
    assert Rising(Line(l)) && Intact(Line(l));
    hide Orderly;
    HeadIsLeast(l.buf.fifo, l.ho.ingress);
  }

  lemma HeadIsLeast(fifo: seq<IpPkt>, ingress: seq<IpPkt>)
    requires fifo != [] && Rising(fifo + ingress) && Intact(fifo + ingress)
    ensures Later(fifo[1..], fifo[0].uid) && Later(ingress, fifo[0].uid) && !fifo[0].erase
  {
    var line, n := fifo + ingress, |fifo|;
    assert line[0] == fifo[0];
    assert forall j :: 0 <= j < n - 1 ==> fifo[1..][j] == line[j + 1];
    assert forall j :: 0 <= j < |ingress| ==> ingress[j] == line[n + j];
  }

  lemma RefusedStandBehind(out: seq<IpPkt>, e: IpPkt, u: nat)
    requires forall i :: 0 <= i < |out| ==> out[i].erase && out[i].IsReady() && out[i].uid > u
    requires e.erase && e.IsReady() && e.uid > u
    ensures var r := SortByUid(out + [e]); forall i :: 0 <= i < |r| ==> r[i].erase && r[i].IsReady() && r[i].uid > u
  {
    hide SortByUid;
    var r := SortByUid(out + [e]);
    SortKeepsMembers(out + [e]);
    forall i | 0 <= i < |r|
      ensures r[i].erase && r[i].IsReady() && r[i].uid > u
    {
      assert r[i] in out + [e];
    }
  }

  lemma DrainOneCases(l: Layer)
    requires !l.buf.dual && l.ho.ingress != [] && !l.ho.ingress[0].isFragment
    ensures var p, l' := l.ho.ingress[0], l.DrainOne();
            && l'.buf.fifo == (if l.buf.Fits(p) then l.buf.fifo + [p] else l.buf.fifo)
            && l'.ho.out == if l.buf.Fits(p) then l.ho.out
                            else SortByUid(l.ho.out + [p.(erase := true, tOut := l.ho.now)])
  {
    hide SortByUid;
  }

  lemma DrainOneOvertaken(l: Layer, head: IpPkt)
    requires Overtaken(l, head) && l.ho.ingress != []
    ensures Overtaken(l.DrainOne(), head)
  {
    hide SortByUid, Orderly, Layer.DrainOne;
    DrainOneOrderly(l);
    LineRises(l);
    OrderlyIsFifo(l);
    DrainOneCases(l);
    RefusedStandBehind(l.ho.out, l.ho.ingress[0].(erase := true, tOut := l.ho.now), head.uid);
  }

  lemma SortKeepsLength(s: seq<IpPkt>)
    ensures |SortByUid(s)| == |s|
  {
    SortByUidSorts(s);
    assert |multiset(SortByUid(s))| == |multiset(s)|;
  }

  lemma {:induction false} DrainRefuses(l: Layer)
    ensures |l.DrainIngress().ho.out| >= |l.ho.out| + if HasRoom(l) then 0 else 1
    decreases |l.ho.ingress|
  {
    hide SortByUid, Buffer.AddPkt;
    if l.ho.ingress != [] {
      SortKeepsLength(l.ho.out + [l.ho.ingress[0].(erase := true, tOut := l.ho.now)]);
      DrainRefuses(l.DrainOne());
    }
  }

  // All that draining the ingress queue changes.
  ghost predicate Drained(l: Layer, l': Layer) {
    && l' == l.(buf := l'.buf, ho := l'.ho) && l'.ho == l.ho.(ingress := l'.ho.ingress, out := l'.ho.out)
    && l'.buf == l.buf.(fifo := l'.buf.fifo, curSize := l'.buf.curSize)
  }

  lemma DrainOneDrains(l: Layer)
    requires !l.buf.dual && l.ho.ingress != []
    ensures Drained(l, l.DrainOne())
  {
    hide SortByUid;
  }

  lemma DrainOvertakes(l: Layer)
    requires Orderly(l) && l.ho.out == [] && Line(l) != [] && (l.buf.fifo == [] ==> l.buf.Fits(l.ho.ingress[0]))
    ensures Overtaken(l.DrainIngress(), Line(l)[0]) && Drained(l, l.DrainIngress())
    ensures l.DrainIngress().ho.ingress == []
  {
    hide Orderly, Layer.DrainOne, Layer.DrainIngress;
    var head := Line(l)[0];
    var start := if l.buf.fifo == [] then l.DrainOne() else l;
    if l.buf.fifo == [] {
      FirstQueues(l);
    }
    var inv := (k: Layer) => Overtaken(k, head) && Drained(l, k);
    forall k: Layer | inv(k) && k.ho.ingress != []
      ensures inv(k.DrainOne())
    {
      DrainOneOvertaken(k, head);
      OrderlyIsFifo(k);
      DrainOneDrains(k);
    }
    DrainInduction(start, inv);
    DrainEnds(l);
    DrainEnds(start);
  }

  lemma OrderlyIsFifo(l: Layer)
    requires Orderly(l)
    ensures !l.buf.dual && l.harq.buf == [] && l.buf.q.lanes == NO_LANES
  {
    hide Laid;
  }

  lemma FirstQueues(l: Layer)
    requires Orderly(l) && l.ho.out == [] && l.buf.fifo == [] && l.ho.ingress != [] && l.buf.Fits(l.ho.ingress[0])
    ensures Overtaken(l.DrainOne(), Line(l)[0]) && Drained(l, l.DrainOne())
  {
    hide Orderly, SortByUid;
    DrainOneOrderly(l);
    OrderlyIsFifo(l);
    assert Line(l)[0] == l.ho.ingress[0];
  }

  // A tick's cleanups change nothing while the oldest queued packet is within budget.
  lemma NothingExpires(l: Layer)
    requires !l.buf.dual && l.buf.fifo != [] && l.harq.buf == [] && !l.IsExpired(l.buf.fifo[0].currentT)
    ensures l.CollectDropped().CleanupIp().CleanupHarq() == l
  {
    FifoBudget.CollectIsIdle(l);
    assert l.CleanupIp() == l;
    assert l.CleanupHarq() == l;
  }

  lemma TickOvertakes(l: Layer, t: real)
    requires Orderly(l) && l.ho.out == [] && OverflowsBehind(l, t)
    ensures var k, s := l.Tick(t), l.StepTo(t);
            Overtaken(s, Line(k)[0]) && Drained(k, s) && s.ho.out != [] && s.ho.ingress == []
  {
    hide Orderly, Handler.Ingest, Layer.DrainIngress, HasRoom;
    var k := l.Tick(t);
    TickOrderly(l, t);
    IngestOnly(l.ho.(now := t));
    DrainOvertakes(k);
    DrainRefuses(k);
    OrderlyIsFifo(k);
    NothingExpires(k.DrainIngress());
  }

  // ----- and a release -----

  lemma {:induction false} SpoiledAllGo(h: Handler)
    requires forall i :: 0 <= i < |h.out| ==> h.out[i].erase && h.out[i].IsReady()
    ensures var r := h.Release();
            && r == h.(store := r.store, out := [], prevReleased := r.prevReleased, verdicts := r.verdicts)
            && r.store == h.store.(payloads := r.store.payloads)
            && r.prevReleased == (if h.out == [] then h.prevReleased else h.out[|h.out| - 1].uid)
            && h.verdicts <= r.verdicts
    decreases |h.out|
  {
    hide Store.Verdict;
    if h.out != [] {
      VerdictKeepsOrder(h.store, h.out[0].uid, KindOf(h.out[0]));
      SpoiledAllGo(h.ReleaseFront());
    }
  }

  lemma OvertakenIsUnsafe(l: Layer, head: IpPkt)
    requires Overtaken(l, head) && l.ho.out != []
    ensures !SafeToRelease(l)
  {
    hide Orderly;
    assert Line(l)[0].uid < l.ho.out[0].uid;
    assert OvertakesIn(l.ho.out, Line(l), 0);
    NotShielded(l.ho.out, l.ho.now);
  }

  // Everything captured before the head of the FIFO has its verdict.
  lemma OlderAreTold(l: Layer, head: IpPkt)
    requires Overtaken(l, head)
    ensures head.prevUid < head.uid && !head.erase && Later(l.buf.fifo[1..], head.uid)
    ensures forall v :: v < head.uid && v in l.ho.store.seen ==> v in ToldUids(l.ho.verdicts)
    ensures head.uid !in ToldUids(l.ho.verdicts)
  {
    LineRises(l);
    HeadIsNext(l.ho.out, Line(l), l.buf.fifo != [], l.ho.store.order, |l.ho.verdicts|, IngestedUpTo(l.ho.store));
    hide Laid;
    OrderlyHistory(l, head);
  }

  lemma HeadIsNext(out: seq<IpPkt>, line: seq<IpPkt>, queued: bool, order: seq<nat>, lo: nat, hi: nat)
    requires Laid(out, line, queued, order, lo, hi) && line != []
    requires forall i :: 0 <= i < |out| ==> out[i].uid > line[0].uid
    ensures lo < hi <= |order| && line[0].uid == order[lo] && line[0].prevUid == LastOf(order, lo)
    ensures LastOf(order, lo) < order[lo]
  {
    assert Seated(line[0], order, lo, hi);
    assert Holds(out, order[lo]) || Holds(line, order[lo]);
  }

  lemma OrderlyHistory(l: Layer, head: IpPkt)
    requires Orderly(l) && |l.ho.verdicts| < |l.ho.store.order| && head.uid == l.ho.store.order[|l.ho.verdicts|]
    ensures forall v :: v < head.uid && v in l.ho.store.seen ==> v in ToldUids(l.ho.verdicts)
    ensures head.uid !in ToldUids(l.ho.verdicts)
  {
    var order, vs := l.ho.store.order, l.ho.verdicts;
    assert Increasing(order) && ToldAsCaptured(vs, order) && forall u :: u in l.ho.store.seen ==> u in order;
    hide Orderly;
    forall v | v < head.uid && v in order
      ensures v in ToldUids(vs)
    {
      var k :| 0 <= k < |order| && order[k] == v;
      assert k < |vs|;
      assert vs[k] in vs && vs[k].pkt.uid == v;
    }
  }

  lemma HeadIsAlone(l: Layer)
    requires Orderly(l) && l.ho.out == [] && Line(l) != []
    ensures var u := Line(l)[0].uid;
            && u !in ToldUids(l.ho.verdicts)
            && Weigh(BitsOf(u), l.buf.fifo) + Weigh(BitsOf(u), l.ho.ingress) == Line(l)[0].size
  {
    var line, u := Line(l), Line(l)[0].uid;
    HeadIsNext(l.ho.out, line, l.buf.fifo != [], l.ho.store.order, |l.ho.verdicts|, IngestedUpTo(l.ho.store));
    OrderlyHistory(l, line[0]);
    assert Rising(line);
    hide Orderly;
    NobodyWeighs(line[1..], u);
    WeighAppend(BitsOf(u), l.buf.fifo, l.ho.ingress);
  }

  lemma LineIsGenuine(l: Layer)
    requires Shape(l) && Line(l) != []
    ensures Genuine(Line(l)[0], l.ho.store.seen)
  {
    hide Genuine, BufferSound, BlocksGenuine, LanesGenuine;
    assert Line(l)[0] == if l.buf.fifo != [] then l.buf.fifo[0] else l.ho.ingress[0];
  }

  // With nothing in reassembly, the head of the line has all the bits captured of it.
  lemma HeadIsWhole(l: Layer)
    requires Balanced(l) && Orderly(l) && l.ho.out == [] && l.ho.store.captured == [] && Line(l) != []
    ensures Line(l)[0].IsReady()
  {
    hide Orderly, Shape, Signals;
    var u := Line(l)[0].uid;
    HeadIsAlone(l);
    OrderlyIsFifo(l);
    LineIsGenuine(l);
    assert Books(l, u);
    ShapeSettles(l);
    ToldIsVerdicts(l.ho.verdicts, l.ho.store.seen, u);
  }

  lemma HeadArrivesWhole(l: Layer, t: real)
    requires Good(l) && Orderly(l) && l.ho.out == [] && l.now <= t && OverflowsBehind(l, t)
    ensures var k := l.Tick(t);
            && Line(k) != [] && Line(k)[0].IsReady() && !k.IsExpired(Line(k)[0].currentT)
            && k.ho.doCheck == l.ho.doCheck && k.harq.buf == l.harq.buf
  {
    hide Shape, Books, HarqLaws.WithinTurns, Orderly, Handler.Ingest, IpPkt.IsReady, HasRoom;
    TickOrderly(l, t);
    IngestOnly(l.ho.(now := t));
    forall u: nat
      ensures Books(l.Tick(t), u)
    {
      TickKeeps(l, t, u);
    }
    TickKeeps(l, t, 0);
    HeadIsWhole(l.Tick(t));
  }

  /** The refused packets get their verdicts at once, ahead of the packet still queued, which everything captured before
      it has had: the verdicts no longer follow the captures, and the cursor has passed the queued packet. */
  lemma OverflowJumpsTheQueue(l: Layer, t: real)
    requires Good(l) && Orderly(l) && l.ho.out == [] && l.now <= t && OverflowsBehind(l, t)
    ensures CanRun(l, [Step(t), Release])
    ensures var head, r := Line(l.Tick(t))[0], Run(l, [Step(t), Release]);
            && OutOfOrder(r.ho) && Good(r)
            && r.buf.fifo != [] && r.buf.fifo[0] == head && head.IsReady() && !head.erase
            && Later(r.buf.fifo[1..], head.uid)
            && r.ho.out == [] && r.ho.prevReleased > head.uid > head.prevUid
            && (forall v :: v < head.uid && v in r.ho.store.seen ==> v in ToldUids(r.ho.verdicts))
            && !r.buf.dual && r.harq.buf == [] && !r.IsExpired(head.currentT) && r.ho.doCheck == l.ho.doCheck
  {
    hide Good, Orderly, OverflowsBehind, Layer.StepTo, Layer.Tick, Handler.Release, SafeToRelease, OutOfOrder,
         IpPkt.IsReady;
    HeadArrivesWhole(l, t);
    var head, s := Line(l.Tick(t))[0], l.StepTo(t);
    TickOvertakes(l, t);
    RunTwo(l, Step(t), Release);
    EventKeeps(l, Step(t));
    EventKeeps(s, Release);
    GoodIsBalanced(s);
    ReleaseExactly(s);
    OvertakenIsUnsafe(s, head);
    OlderAreTold(s, head);
    SpoiledAllGo(s.ho);
    OrderlyIsFifo(s);
  }

  // ----- the overtaken packet is delivered -----

  lemma {:induction false} FillIsLater(b: Buffer, bits: nat, u: nat)
    requires !b.dual && Later(b.fifo, u)
    ensures Later(b.Fill(bits).1, u)
    decreases bits
  {
    if bits > 0 && b.HasPkts() {
      var (b1, next) := b.PopNext();
      if next.value.size <= bits {
        FillIsLater(b1, bits - next.value.size, u);
      }
    }
  }

  lemma FillTakesHead(b: Buffer, bits: nat)
    requires !b.dual && b.fifo != [] && b.fifo[0].size <= bits && Later(b.fifo[1..], b.fifo[0].uid)
    ensures var out := b.Fill(bits).1; out != [] && out[0] == Whole(b.fifo[0]) && Later(out[1..], b.fifo[0].uid)
  {
    FillIsLater(b.PopNext().0, bits - b.fifo[0].size, b.fifo[0].uid);
  }

  // A block pushed onto an empty list leaves its oldest packet in front.
  lemma DeliveredFirst(h: Handler, block: HarqPkt, jitter: real)
    requires h.out == [] && block.pkts != [] && Later(block.pkts[1..], block.pkts[0].uid)
    ensures var h' := h.Push(block, jitter); var p := block.pkts[0];
            && h' == h.(out := h'.out, delivered := h'.delivered) && h'.out != []
            && h'.out[0] == Stamped(p, ReleaseTime(block, jitter), block.ipT).(fragsRecovered := p.fragsRecovered + 1)
  {
    hide SortByUid, ReleaseTime, Later;
    var p, tOut := block.pkts[0], ReleaseTime(block, jitter);
    var entry := Stamped(p, tOut, block.ipT).(fragsRecovered := p.fragsRecovered + 1);
    assert AddData(h.out, Stamped(p, tOut, block.ipT)) == [entry];
    NoneLater(p.uid);
    assert [entry][1..] == [];
    AddAllKeepsFront([entry], block.pkts[1..], tOut, block.ipT, p.uid);
    SortKeepsFront(AddAll([entry], block.pkts[1..], tOut, block.ipT), p.uid);
  }

  lemma NoneLater(u: nat)
    ensures Later([], u)
  {
  }

  /** Once the head of the FIFO is delivered whole, it stands complete in front and is not released however late it
      gets: with the order check on, the gate waits for a predecessor whose turn is over. */
  lemma ThenTheGateIsShut(r: Layer, bits: real, radio: Radio)
    requires !r.buf.dual && r.harq.buf == [] && r.ho.out == [] && r.buf.fifo != []
    requires Later(r.buf.fifo[1..], r.buf.fifo[0].uid) && r.buf.fifo[0].IsReady() && !r.buf.fifo[0].erase
    requires r.ho.doCheck && r.ho.prevReleased >= 0 && r.ho.prevReleased != r.buf.fifo[0].prevUid
    requires bits.Floor >= r.buf.fifo[0].size && !radio.fails && !r.IsExpired(r.buf.fifo[0].currentT)
    ensures var p, after := r.buf.fifo[0], r.HandlePkt(bits, radio).0;
            && after.ho == r.ho.(out := after.ho.out, delivered := after.ho.delivered)
            && after.ho.out != [] && SamePacket(after.ho.out[0], p)
            && after.ho.out[0].IsReady() && !after.ho.out[0].erase
            && after.Release() == after
            && (forall later: real :: !after.ho.(now := later).FrontGoes())
  {
    hide Later, Buffer.Fill, Handler.Push, ReleaseTime, Layer.CollectDropped, Layer.Turn;
    FillTakesHead(r.buf, bits.Floor);
    var (b, out) := r.buf.GetPkts(bits.Floor);
    var l1 := r.(buf := b, nextId := r.nextId + 1);
    Bounds.FillFrame(r.buf, bits.Floor);
    FifoBudget.CollectIsIdle(l1);
    var block := BlockOf(r.nextId, r.buf.OldestTimestamp(), r.now, r.bhD, r.bhVar, out);
    DeliveredFirst(r.ho, block, radio.jitter);
    TurnDelivers(r, bits, radio);
  }

  /** An overflow behind a queued packet stops a pipeline for good, whatever has run before: after a tick, a release and
      a grant that delivers the packet the layer is stuck, and from there no run gives a verdict (NoMoreVerdicts). */
  lemma OneOverflowStopsAllVerdicts(l: Layer, t: real, bits: real, radio: Radio)
    requires Good(l) && Orderly(l) && l.ho.doCheck && l.ho.out == [] && l.now <= t && OverflowsBehind(l, t)
    requires bits.Floor >= Line(l.Tick(t))[0].size && !radio.fails
    ensures var es := [Step(t), Release, Grant(bits, radio)];
            CanRun(l, es) && OutOfOrder(Run(l, es).ho) && Stuck(Run(l, es), Line(l.Tick(t))[0].uid)
  {
    hide Good, Orderly, OverflowsBehind, Layer.Tick, Layer.HandlePkt, Run, CanRun, OutOfOrder, IpPkt.IsReady, Later;
    HeadArrivesWhole(l, t);
    OverflowJumpsTheQueue(l, t);
    var head, r := Line(l.Tick(t))[0], Run(l, [Step(t), Release]);
    ThenTheGateIsShut(r, bits, radio);
    GrantIsEnabled(r, bits, radio);
    RunOne(r, Grant(bits, radio));
    RunAppend(l, [Step(t), Release], [Grant(bits, radio)]);
    assert [Step(t), Release] + [Grant(bits, radio)] == [Step(t), Release, Grant(bits, radio)];
    EventKeeps(r, Grant(bits, radio));
    var after := r.HandlePkt(bits, radio).0;
    GoodIsBalanced(after);
    EventExtends(r, Grant(bits, radio));
    StaysOutOfOrder(r.ho, after.ho);
    ToldAreVerdicts(after, head.uid);
  }

  lemma GrantIsEnabled(l: Layer, bits: real, radio: Radio)
    requires bits.Floor >= 1
    ensures Enabled(l, Grant(bits, radio)) && Apply(l, Grant(bits, radio)) == l.HandlePkt(bits, radio).0
  {
  }

  lemma ToldAreVerdicts(l: Layer, u: nat)
    requires Good(l) && forall v :: v < u && v in l.ho.store.seen ==> v in ToldUids(l.ho.verdicts)
    ensures forall v: nat :: v < u && v in l.ho.store.seen ==> Verdicts(l.ho.verdicts, v) > 0
  {
    hide Shape, Books, HarqLaws.WithinTurns;
    ShapeSettles(l);
    forall v: nat | v < u && v in l.ho.store.seen
      ensures Verdicts(l.ho.verdicts, v) > 0
    {
      ToldIsVerdicts(l.ho.verdicts, l.ho.store.seen, v);
    }
  }

  // ----- from a fresh pipeline, at any capacity -----

  // Captures with increasing ids and nothing else.
  predicate Burst(es: seq<Event>) {
    && (forall i :: 0 <= i < |es| ==> es[i].Capture?)
    && (forall i, j :: 0 <= i < j < |es| ==> es[i].info.uid < es[j].info.uid)
  }

  function InfosOf(es: seq<Event>): seq<Info>
    requires Burst(es)
  {
    seq(|es|, i requires 0 <= i < |es| => es[i].info)
  }

  lemma {:induction false} BurstRuns(l: Layer, es: seq<Event>)
    requires Good(l) && Orderly(l) && Burst(es)
    requires es != [] ==> forall u :: u in l.ho.store.order ==> u < es[0].info.uid
    ensures CanRun(l, es)
    ensures var r := Run(l, es);
            && Good(r) && Orderly(r) && r == l.(ho := l.ho.(store := r.ho.store))
            && r.ho.store.captured == l.ho.store.captured + InfosOf(es)
    decreases |es|
  {
    hide Good, Orderly;
    if es != [] {
      FreshCapture(l, es[0]);
      var l' := Apply(l, es[0]);
      assert Burst(es[1..]) && InfosOf(es) == [es[0].info] + InfosOf(es[1..]);
      if es[1..] != [] {
        assert es[1..][0] == es[1];
      }
      BurstRuns(l', es[1..]);
    }
  }

  lemma FreshCapture(l: Layer, e: Event)
    requires Good(l) && Orderly(l) && e.Capture? && forall u :: u in l.ho.store.order ==> u < e.info.uid
    ensures Enabled(l, e) && Good(Apply(l, e)) && Orderly(Apply(l, e))
  {
    assert forall u :: u in l.ho.store.seen ==> u in l.ho.store.order;
    hide Good, Orderly;
    EventKeeps(l, e);
    CapturedOrderly(l, e.info, e.payload);
  }

  // Room for the whole ingress queue needs room for all its bits.
  lemma {:induction false} RoomIsForAll(l: Layer)
    requires !l.buf.dual && HasRoom(l) && WholeOnes(l.ho.ingress)
    ensures l.buf.curSize + Weigh(AllBits, l.ho.ingress) <= l.buf.maxSize || l.ho.ingress == []
    decreases |l.ho.ingress|
  {
    if l.ho.ingress != [] {
      RoomIsForAll(l.DrainOne());
    }
  }

  // Nothing but captures has happened yet.
  predicate Untried(l: Layer) {
    && !l.buf.dual && l.buf.fifo == [] && l.buf.curSize == 0 && l.ho.ingress == [] && l.ho.out == [] && l.ho.ticks == 0
    && l.now == 0.0
  }

  // The tick after a burst meets exactly the packets of the burst.
  lemma BurstArrives(l: Layer, t: real)
    requires Untried(l) && Recorded(l.ho.store) && l.ho.store.captured != []
    ensures var k, first := l.Tick(t), l.ho.store.captured[0];
            && Line(k) == k.ho.ingress != [] && k.buf == l.buf.(now := t) && k.now == t && k.budget == l.budget
            && Line(k)[0].size == first.bytes * 8 && Line(k)[0].uid == first.uid && Line(k)[0].currentT == l.ho.clock(0)
            && WholeOnes(k.ho.ingress) && Weigh(AllBits, k.ho.ingress) == WeighInfos(AllBits, l.ho.store.captured)
  {
    hide Weigh, WeighInfos, WholeOnes, Recorded;
    var h, s := l.ho.(now := t), l.ho.store;
    IngestKeeps(h, AllBits);
    NothingWeighs();
    IngestWhole(h);
    IngestFront(h.(store := s.Pop().0).IngestOne(s.captured[0]));
    assert h.Ingest() == h.(store := s.Pop().0).IngestOne(s.captured[0]).Ingest();
    hide Handler.Ingest;
    assert Line(l.Tick(t)) == h.Ingest().ingress;
  }

  lemma NothingWeighs()
    ensures Weigh(AllBits, []) == 0 && WholeOnes([])
  {
  }

  lemma {:induction false} IngestFront(h: Handler)
    requires h.ingress != []
    ensures h.Ingest().ingress != [] && h.Ingest().ingress[0] == h.ingress[0]
    decreases |h.store.captured|
  {
    if h.store.captured != [] {
      IngestFront(h.(store := h.store.Pop().0).IngestOne(h.store.captured[0]));
    }
  }

  lemma {:induction false} IngestWhole(h: Handler)
    requires WholeOnes(h.ingress)
    ensures WholeOnes(h.Ingest().ingress)
    decreases |h.store.captured|
  {
    if h.store.captured != [] {
      IngestWhole(h.(store := h.store.Pop().0).IngestOne(h.store.captured[0]));
    }
  }

  lemma GoodRecords(l: Layer)
    requires Good(l)
    ensures Recorded(l.ho.store)
  {
    hide BufferSound, BufferGenuine, BlocksGenuine, Books, HarqLaws.WithinTurns;
  }

  // At a tick at `t` the oldest packet not handed to the radio link is the one captured with `info`.
  predicate Heads(l: Layer, t: real, info: Info) {
    var line := Line(l.Tick(t));
    line != [] && line[0].size == info.bytes * 8 && line[0].uid == info.uid
  }

  // The tick after a burst finds its first packet in front and no room for them all.
  lemma BurstMeetsNoRoom(r: Layer, t: real)
    requires Untried(r) && Recorded(r.ho.store) && r.ho.store.captured != []
    requires r.ho.store.captured[0].bytes * 8 <= r.buf.maxSize < WeighInfos(AllBits, r.ho.store.captured)
    requires t - r.budget <= r.ho.clock(0)
    ensures OverflowsBehind(r, t) && Heads(r, t, r.ho.store.captured[0])
  {
    hide HasRoom, Layer.Tick, WeighInfos, Weigh, WholeOnes, Recorded;
    BurstArrives(r, t);
    if HasRoom(r.Tick(t)) {
      RoomIsForAll(r.Tick(t));
    }
  }

  lemma FreshIsUntried(l: Layer)
    requires Initial(l) && !l.buf.dual
    ensures Untried(l) && l.ho.store.captured == [] && l.ho.store.order == []
  {
  }

  lemma BurstOverflows(l: Layer, es: seq<Event>, t: real)
    requires Initial(l) && !l.buf.dual && Burst(es) && es != []
    requires es[0].info.bytes * 8 <= l.buf.maxSize < WeighInfos(AllBits, InfosOf(es))
    requires 0.0 <= t && t - l.budget <= l.ho.clock(0)
    ensures CanRun(l, es)
    ensures var r := Run(l, es);
            && Good(r) && Orderly(r) && r == l.(ho := l.ho.(store := r.ho.store)) && r.ho.out == []
            && r.now <= t && OverflowsBehind(r, t) && Heads(r, t, es[0].info)
  {
    hide Initial, Good, Orderly, Run, CanRun, WeighInfos, Recorded, OverflowsBehind, Heads, Burst;
    InitialIsGood(l);
    InitialIsOrderly(l);
    FreshIsUntried(l);
    BurstRuns(l, es);
    var r := Run(l, es);
    assert r.ho.store.captured == [] + InfosOf(es) == InfosOf(es);
    GoodRecords(r);
    BurstMeetsNoRoom(r, t);
  }

  /** From a fresh pipeline of any capacity: a burst of captures whose first fits and whose sum does not, then a tick
      within the first one's budget, a release and a grant that delivers it, and the layer is stuck. */
  lemma BurstStopsAllVerdicts(l: Layer, es: seq<Event>, t: real, bits: real, radio: Radio)
    requires Initial(l) && !l.buf.dual && l.ho.doCheck && Burst(es) && es != []
    requires es[0].info.bytes * 8 <= l.buf.maxSize < WeighInfos(AllBits, InfosOf(es))
    requires 0.0 <= t && t - l.budget <= l.ho.clock(0)
    requires bits.Floor >= es[0].info.bytes * 8 && !radio.fails
    ensures var all := es + [Step(t), Release, Grant(bits, radio)];
            CanRun(l, all) && Stuck(Run(l, all), es[0].info.uid) && OutOfOrder(Run(l, all).ho)
  {
    hide Initial, Good, Orderly, Stuck, OutOfOrder, OverflowsBehind, Layer.Tick, Run, CanRun, WeighInfos, Burst;
    BurstOverflows(l, es, t);
    OneOverflowStopsAllVerdicts(Run(l, es), t, bits, radio);
    RunAppend(l, es, [Step(t), Release, Grant(bits, radio)]);
  }

  // ----- at the capacity the buffer is built with -----

  // One packet more than fills the buffer, each of 65500 bytes.
  function Flood(payload: seq<Byte>): seq<Event> {
    seq(20001, i requires 0 <= i => Capture(Info(i, 65500, NotEct), payload))
  }

  lemma {:induction false} EqualInfos(s: seq<Info>, bytes: Bits)
    requires forall i :: 0 <= i < |s| ==> s[i].bytes == bytes
    ensures WeighInfos(AllBits, s) == |s| * (bytes * 8)
  {
    if s != [] {
      EqualInfos(s[1..], bytes);
      assert |s| * (bytes * 8) == |s[1..]| * (bytes * 8) + bytes * 8;
    }
  }

  /** At the source's own capacity the packets are ones that can be captured: 20001 of 65500 bytes. */
  lemma FloodStopsAllVerdicts(l: Layer, payload: seq<Byte>, t: real, bits: real, radio: Radio)
    requires Initial(l) && !l.buf.dual && l.ho.doCheck && l.buf.maxSize == MAX_SIZE
    requires 0.0 <= t && t - l.budget <= l.ho.clock(0)
    requires bits.Floor >= 65500 * 8 && !radio.fails
    ensures var all := Flood(payload) + [Step(t), Release, Grant(bits, radio)];
            CanRun(l, all) && Stuck(Run(l, all), 0) && OutOfOrder(Run(l, all).ho)
  {
    hide Initial, Stuck, OutOfOrder, Run, CanRun;
    var es := Flood(payload);
    EqualInfos(InfosOf(es), 65500);
    BurstStopsAllVerdicts(l, es, t, bits, radio);
  }

  // ----- a packet that is passed over -----

  /** Over every run in either mode, with the order check on: once another packet's verdict has followed that of a
      packet's predecessor, the packet is never accepted, whatever comes. */
  lemma PassedOverIsNeverAccepted(l: Layer, es: seq<Event>, k: nat, i: nat)
    requires Initial(l) && CanRun(l, es) && l.ho.doCheck && k + 1 < i < |Run(l, es).ho.verdicts|
    requires var vs := Run(l, es).ho.verdicts; vs[k].pkt.uid == vs[i].pkt.prevUid
    ensures Run(l, es).ho.verdicts[i].kind == Discarded
  {
    hide Initial, CanRun, Run, Verdicts;
    var vs := Run(l, es).ho.verdicts;
    if vs[i].kind != Discarded {
      CheckIsFixed(l, es);
      AcceptedInSequence(l, es, i);
      VerdictsCount(vs, k, i - 1, vs[k].pkt.uid);
      BitsAreConserved(l, es, vs[k].pkt.uid);
    }
  }

  // ----- a shut gate stays shut -----

  // A capture that comes later than the blocked packet, as ids are given out.
  predicate CapturesAfter(e: Event, u: nat) { e.Capture? ==> e.info.uid > u }

  lemma CapturedStuck(l: Layer, info: Info, payload: seq<Byte>, u: nat)
    requires Stuck(l, u) && info.uid !in l.ho.store.seen && info.uid > u
    ensures Stuck(l.Captured(info, payload), u)
  {
    hide Shape, Books;
    forall v: nat
      ensures Books(l.Captured(info, payload), v)
    {
      CapturedKeeps(l, info, payload, v);
    }
    CapturedKeeps(l, info, payload, 0);
  }

  lemma ReportStuck(l: Layer, u: nat)
    requires Stuck(l, u)
    ensures Stuck(l.Report(), u) && l.Report().ho == l.ho
  {
    hide Shape, Books, Buffer.TakeReport;
    forall v: nat
      ensures Books(l.Report(), v)
    {
      ReportKeeps(l, v);
    }
    ReportKeeps(l, 0);
  }

  lemma EventStuck(l: Layer, e: Event, u: nat)
    requires Stuck(l, u) && Enabled(l, e) && CapturesAfter(e, u)
    ensures Stuck(Apply(l, e), u) && Apply(l, e).ho.verdicts == l.ho.verdicts
  {
    hide Balanced, Layer.StepTo, Layer.ServeNew, Layer.ServeAgain, Layer.Report;
    match e
    case Capture(info, payload) => CapturedStuck(l, info, payload, u);
    case Step(t) => StepStuck(l, t, u);
    case Grant(bits, radio) =>
      if l.harq.IsPktReady() {
        ServeAgainStuck(l, radio, u);
      } else {
        ServeNewStuck(l, bits, radio, u);
      }
    case Release =>
      assert l.Release() == l;
    case Report => ReportStuck(l, u);
  }

  /** From a stuck state, in either mode, no events whatever (deliveries, drops, expiry, failures, releases at any
      time) lead to another verdict, as long as new captures get larger ids. */
  lemma {:induction false} NoMoreVerdicts(l: Layer, es: seq<Event>, u: nat)
    requires Stuck(l, u) && CanRun(l, es) && forall e :: e in es ==> CapturesAfter(e, u)
    ensures Stuck(Run(l, es), u) && Run(l, es).ho.verdicts == l.ho.verdicts
    decreases |es|
  {
    hide Stuck, Enabled, Apply, CapturesAfter;
    if es != [] {
      EventStuck(l, es[0], u);
      NoMoreVerdicts(Apply(l, es[0]), es[1..], u);
    }
  }
}
