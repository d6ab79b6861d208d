// Two concrete runs of one packet in FIFO mode: one that accepts it before its second half is due, and one in which a
// retransmission reports more bits than it was granted.
module OnePacket {
  import opened Packets
  import opened IpBuffer
  import opened Harq
  import opened Ipv4Ecn
  import opened Capture
  import opened CapturedHandler
  import opened PdcpLayer
  import opened PdcpRuns
  import opened PdcpProgress
  import opened FifoStream
  import opened Punctuality
  import FifoBudget

  // A packet of 100 bytes, and transmissions that succeed or fail at once.
  const INFO := Info(7, 100, NotEct)
  const PACKET := NewPkt(0.0, 800, -1, 7, NotEct)
  const CLEAR := Radio(false, 0.0, 0.0)
  const FADED := Radio(true, 0.0, 0.0)

  // A fresh pipeline in FIFO mode with the configured constant backhaul delay of 3 ms.
  ghost predicate Prepared(l: Layer) {
    && Initial(l) && !l.buf.dual && l.buf.maxSize == MAX_SIZE
    && l.budget >= 0.1 && l.bhD == 0.003 && l.bhVar == 0.0 && l.ho.clock(0) == 0.0
  }

  // The packet, or the rest of it, alone in the buffer of a layer that has told nothing.
  ghost predicate Waits(l: Layer, p: IpPkt, now: real) {
    && !l.buf.dual && l.buf.fifo == [p] && l.buf.curSize == p.size && p.currentT == 0.0
    && l.harq.buf == [] && l.now == l.ho.now == l.harq.now == now && l.budget >= 0.1 && l.bhD == 0.003 && l.bhVar == 0.0
    && l.ho.ingress == [] && l.ho.store.captured == [] && l.ho.prevReleased == -1 && l.ho.verdicts == []
  }

  lemma StartsEmpty(l: Layer, payload: seq<Byte>)
    requires Prepared(l)
    ensures Enabled(l, Capture(INFO, payload)) && Apply(l, Capture(INFO, payload)) == l.Captured(INFO, payload)
    ensures l.Captured(INFO, payload).now == 0.0
  {
  }

  lemma Arrives(l: Layer, payload: seq<Byte>)
    requires Prepared(l)
    ensures var l1 := l.Captured(INFO, payload).StepTo(0.0);
            Waits(l1, PACKET, 0.0) && l1.ho.out == [] && l1.ho.delivered == []
  {
    var s := l.Captured(INFO, payload);
    var h1 := s.ho.(store := s.ho.store.Pop().0).IngestOne(INFO);
    assert s.ho.store.captured == [INFO] && [INFO][1..] == [] && h1.Ingest() == h1;
    assert s.ho.Ingest() == h1 && h1.ingress == [PACKET];
    var k := s.Tick(0.0);
    assert k.ho == h1;
    assert [PACKET][1..] == [] && [] + [PACKET] == [PACKET];
    var l1 := k.DrainOne();
    assert l1.buf.fifo == [PACKET] && k.DrainIngress() == l1.DrainIngress() == l1;
    FifoBudget.CollectIsIdle(l1);
    assert l1.CleanupIp() == l1;
    assert l1.CleanupHarq() == l1;
  }

  // A tick while the rest of the packet waits within its budget moves only the clocks.
  lemma Ticks(l: Layer, p: IpPkt, now: real, t: real)
    requires Waits(l, p, now) && t <= 0.1
    ensures Waits(l.StepTo(t), p, t) && l.StepTo(t).ho == l.ho.(now := t)
  {
    var k := l.Tick(t);
    assert k.ho == l.ho.(now := t) && k.DrainIngress() == k;
    FifoBudget.CollectIsIdle(k);
    assert k.CleanupIp() == k;
    assert k.CleanupHarq() == k;
  }

  lemma Alone(p: IpPkt)
    ensures Weigh(AllBits, [p]) == p.size && [p][1..] == []
  {
    assert [p][1..] == [];
  }

  // ----- the first run -----

  const EARLIER := Delivery(7, 400, 0.003, false)
  const LATER := Delivery(7, 400, 0.004, false)

  const FIRST := Fragment(PACKET, 400)
  const REST := Remainder(PACKET, 400)
  const ENTRY := FIRST.(fragsRecovered := 1, tOut := 0.003)
  const JOINED := ENTRY.(size := 800, fragsRecovered := 2, fragsCreated := 2)

  lemma FirstHalf(l: Layer)
    requires Waits(l, PACKET, 0.0) && l.ho.out == [] && l.ho.delivered == []
    ensures var l' := l.HandlePkt(400.0, CLEAR).0;
            Waits(l', REST, 0.0) && l'.ho.out == [ENTRY] && l'.ho.delivered == [EARLIER]
  {
    CutGoesBack(l.buf, 400);
    Alone(FIRST);
    assert [REST] + l.buf.fifo[1..] == [REST];
    var b := l.buf.GetPkts(400).0;
    var l1 := l.(buf := b, nextId := l.nextId + 1);
    FifoBudget.CollectIsIdle(l1);
    TurnDelivers(l, 400.0, CLEAR);
    var block := BlockOf(l.nextId, 0.0, l.now, l.bhD, l.bhVar, [FIRST]);
    assert ReleaseTime(block, 0.0) == 0.003;
    assert AddData([], Stamped(FIRST, 0.003, 0.0)) == [ENTRY];
    assert AddAll([], [FIRST], 0.003, 0.0) == AddAll([ENTRY], [], 0.003, 0.0) == [ENTRY];
    SortOfSorted([ENTRY]);
    assert Deliveries([FIRST], 0.003) == [EARLIER];
  }

  lemma LastJoins(h: Handler, block: HarqPkt)
    requires h.out == [ENTRY] && block.pkts == [Whole(REST)] && ReleaseTime(block, 0.0) == 0.004
    ensures h.Push(block, 0.0) == h.(out := [JOINED], delivered := h.delivered + [LATER])
  {
    var last := Whole(REST);
    assert [last][1..] == [];
    assert AddData([ENTRY], Stamped(last, 0.004, block.ipT)) == [JOINED];
    assert AddAll([ENTRY], [last], 0.004, block.ipT) == AddAll([JOINED], [], 0.004, block.ipT) == [JOINED];
    SortOfSorted([JOINED]);
    assert Deliveries([last], 0.004) == [LATER];
  }

  lemma TakesAll(b: Buffer, p: IpPkt)
    requires !b.dual && b.fifo == [p]
    ensures b.Fill(p.size) == (b.(fifo := []), [Whole(p)])
  {
    var b1 := b.PopNext().0;
    assert [p][1..] == [] && b1.Fill(0) == (b1, []) && [Whole(p)] + [] == [Whole(p)];
  }

  lemma SecondHalf(l: Layer)
    requires Waits(l, REST, 0.001) && l.ho.out == [ENTRY] && l.ho.delivered == [EARLIER]
    ensures var l' := l.HandlePkt(400.0, CLEAR).0;
            && l'.buf.fifo == [] && l'.harq.buf == [] && l'.now == 0.001 && !l'.buf.dual
            && l'.ho == l.ho.(out := [JOINED], delivered := [EARLIER, LATER])
  {
    hide Handler.Push, Buffer.Fill;
    TakesAll(l.buf, REST);
    var l1 := l.(buf := l.buf.GetPkts(400).0, nextId := l.nextId + 1);
    FifoBudget.CollectIsIdle(l1);
    TurnDelivers(l, 400.0, CLEAR);
    var block := BlockOf(l.nextId, 0.0, l.now, l.bhD, l.bhVar, [Whole(REST)]);
    assert ReleaseTime(block, 0.0) == 0.004;
    LastJoins(l.ho, block);
  }

  // A tick of an empty buffer.
  lemma EmptyTick(l: Layer, t: real)
    requires !l.buf.dual && l.buf.fifo == [] && l.harq.buf == [] && l.ho.ingress == [] && l.ho.store.captured == []
    ensures l.StepTo(t).ho == l.ho.(now := t)
  {
    var k := l.Tick(t);
    assert k.ho == l.ho.(now := t) && k.DrainIngress() == k;
    FifoBudget.CollectIsIdle(k);
    assert k.CleanupIp() == k;
    assert k.CleanupHarq() == k;
  }

  lemma IsAccepted(h: Handler)
    requires h.out == [JOINED] && h.prevReleased == -1 && h.now == 0.003 && h.verdicts == []
    ensures var h' := h.Release();
            && |h'.verdicts| == 1 && h'.verdicts[0].pkt == JOINED && h'.verdicts[0].kind == Accepted
            && h'.verdicts[0].at == 0.003 && h'.delivered == h.delivered
  {
    assert [JOINED][1..] == [];
    assert h.Release() == h.ReleaseFront().Release() == h.ReleaseFront();
  }

  /** One packet cut in half by grants at 0 and at 1 ms, with a constant backhaul of 3 ms: it is accepted at 3 ms, and
      its second half is due at 4 ms. */
  lemma HalfDueIsAccepted(l: Layer, payload: seq<Byte>)
    requires Prepared(l)
    ensures var es := [Capture(INFO, payload), Step(0.0)] + [Grant(400.0, CLEAR), Step(0.001)]
                      + [Grant(400.0, CLEAR), Step(0.003)] + [Release];
            CanRun(l, es)
            && var h := Run(l, es).ho;
               && |h.verdicts| == 1 && h.verdicts[0].pkt.uid == 7 && h.verdicts[0].kind == Accepted
               && h.verdicts[0].at == 0.003 && h.delivered == [EARLIER, LATER]
               && !OnTime(h.verdicts[0], h.delivered)
  {
    hide Prepared, Waits, Layer.StepTo, Layer.HandlePkt, Handler.Release, Run, CanRun;
    var l0 := l.Captured(INFO, payload);
    StartsEmpty(l, payload);
    Arrives(l, payload);
    var l1 := l0.StepTo(0.0);
    FirstHalf(l1);
    var l2 := l1.HandlePkt(400.0, CLEAR).0;
    Ticks(l2, REST, 0.0, 0.001);
    var l3 := l2.StepTo(0.001);
    SecondHalf(l3);
    var l4 := l3.HandlePkt(400.0, CLEAR).0;
    WaitsIsUntold(l3, REST, 0.001);
    EmptyTick(l4, 0.003);
    var l5 := l4.StepTo(0.003);
    IsAccepted(l5.ho);
    WaitsNow(l1, PACKET, 0.0);
    WaitsNow(l2, REST, 0.0);
    RunTwo(l, Capture(INFO, payload), Step(0.0));
    RunTwo(l1, Grant(400.0, CLEAR), Step(0.001));
    RunTwo(l3, Grant(400.0, CLEAR), Step(0.003));
    RunOne(l5, Release);
    RunAppend(l, [Capture(INFO, payload), Step(0.0)], [Grant(400.0, CLEAR), Step(0.001)]);
    RunAppend(l, [Capture(INFO, payload), Step(0.0)] + [Grant(400.0, CLEAR), Step(0.001)],
              [Grant(400.0, CLEAR), Step(0.003)]);
    RunAppend(l, [Capture(INFO, payload), Step(0.0)] + [Grant(400.0, CLEAR), Step(0.001)]
                 + [Grant(400.0, CLEAR), Step(0.003)], [Release]);
    assert l5.Release().ho.delivered[1].due > 0.003;
  }

  lemma WaitsNow(l: Layer, p: IpPkt, now: real)
    requires Waits(l, p, now)
    ensures l.now == now
  {
  }

  lemma WaitsIsUntold(l: Layer, p: IpPkt, now: real)
    requires Waits(l, p, now)
    ensures l.ho.prevReleased == -1 && l.ho.verdicts == [] && l.ho.ingress == [] && l.ho.store.captured == []
  {
  }

  // ----- the second run -----

  lemma FailsOnce(l: Layer)
    requires Waits(l, PACKET, 0.0)
    ensures var l' := l.HandlePkt(800.0, FADED).0;
            l'.now == l'.harq.now == 0.0 && l'.harq.IsPktReady() && l'.harq.buf[0].bits == 800
  {
    hide Buffer.Fill;
    TakesAll(l.buf, PACKET);
    Alone(Whole(PACKET));
    var l1 := l.(buf := l.buf.GetPkts(800).0, nextId := l.nextId + 1);
    FifoBudget.CollectIsIdle(l1);
    TurnFails(l, 800.0, FADED);
  }

  /** Were one transmission to fail, the next grant would be spent on it whatever its size: 800 bits sent again with a
      grant of 400. */
  lemma RetransmissionExceedsGrant(l: Layer, payload: seq<Byte>)
    requires Prepared(l)
    ensures var es := [Capture(INFO, payload), Step(0.0)] + [Grant(800.0, FADED)];
            CanRun(l, es) && Run(l, es).harq.IsPktReady() && Run(l, es).HandlePkt(400.0, CLEAR).1 == 800
  {
    hide Prepared, Waits, Layer.StepTo, Run, CanRun, Harq.AddPkts;
    var l1 := l.Captured(INFO, payload).StepTo(0.0);
    StartsEmpty(l, payload);
    Arrives(l, payload);
    FailsOnce(l1);
    hide Layer.ServeNew, Handler.Push;
    RunTwo(l, Capture(INFO, payload), Step(0.0));
    RunOne(l1, Grant(800.0, FADED));
    RunAppend(l, [Capture(INFO, payload), Step(0.0)], [Grant(800.0, FADED)]);
  }
}
