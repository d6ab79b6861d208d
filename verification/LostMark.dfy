// A concrete run in which the AQM marks a packet and the kernel is told to accept it without a mark.
module LostMark {
  import opened Packets
  import opened DualPi2
  import opened IpBuffer
  import opened Ipv4Ecn
  import opened Capture
  import opened CapturedHandler
  import opened PdcpLayer
  import opened PdcpRuns
  import opened SignalLaws
  import PiControl

  // The queue's default configuration, an L4S packet of 100 bytes, and a transmission that succeeds at once.
  const DEFAULTS: Config := Config(2.0, 0.015, 0.1, 0.0008, 0.0004, 1.0, 0.001)
  const INFO := Info(7, 100, Ect1)
  const PACKET := NewPkt(0.0, 800, -1, 7, Ect1)
  const CLEAR := Radio(false, 0.0, 0.0)
  const IDLE := Pi(0.0, 0.0, 0.0, 0.0)

  // The AQM's registers after the first tick, after the first half was let through, and after the second was marked.
  const TICKED := FRESH_AQM.(nextUpdateT := 0.015)
  const PASSED := TICKED.(log := [Service(7, 800, 0.0, true, false, Ect1, Pass)])

  lemma Products()
    ensures Mul(0.15, -0.015) == -0.00225 && Mul(3.0, 0.0) == Mul(0.0, 2.0) == Mul(0.0, 0.0) == 0.0
  {
  }

  // On empty queues the controller stays where it starts.
  lemma IdleControl()
    ensures IDLE.Update(DEFAULTS, 0.0) == IDLE && UpdatePeriod(DEFAULTS) == 0.015
  {
    hide Mul, Alpha, Beta, UpdatePeriod;
    PiControl.GainsAtDefaults(DEFAULTS);
    Products();
    assert 0.0 - DEFAULTS.targetS == -0.015;
    assert Increment(DEFAULTS, 0.0, 0.0) == -0.00225;
  }

  function Lane(p: IpPkt): Lanes { Lanes([p], [], [], p.size, 0) }

  ghost predicate Prepared(l: Layer) {
    && Initial(l) && l.buf.dual && l.buf.q.cfg == DEFAULTS && l.buf.maxSize == MAX_SIZE
    && l.budget >= 0.1 && l.bhD == l.bhVar == 0.0 && l.ho.clock(0) == 0.0
  }

  // After the first tick the packet stands alone in the L4S queue.
  lemma Arrives(l: Layer, payload: seq<Byte>)
    requires Prepared(l)
    ensures var s, l1 := l.Captured(INFO, payload), l.Captured(INFO, payload).StepTo(0.0);
            && l1 == s.(ho := l1.ho, buf := l.buf.(
                          q := DualQ(DEFAULTS, l.buf.q.unitDist, 0.0, Lane(PACKET), TICKED), curSize := 800))
            && l1.ho == s.ho.(prevUid := 7, ticks := 1, store := s.ho.store.(captured := []))
  {
    IdleControl();
    hide Pi.Update, UpdatePeriod;
    var s := l.Captured(INFO, payload);
    var q := l.buf.q.StepTo(0.0);
    assert q == DualQ(DEFAULTS, l.buf.q.unitDist, 0.0, NO_LANES, TICKED);
    var h1 := s.ho.(store := s.ho.store.Pop().0).IngestOne(INFO);
    assert s.ho.store.captured == [INFO] && [INFO][1..] == [] && h1.Ingest() == h1;
    assert s.ho.Ingest() == h1 && h1.ingress == [PACKET];
    var k := s.Tick(0.0);
    assert k.ho == h1;
    assert [PACKET][1..] == [] && [] + [PACKET] == [PACKET];
    var l1 := k.DrainOne();
    assert l1.buf.q.lanes == Lane(PACKET);
    assert k.DrainIngress() == l1.DrainIngress() == l1;
    assert l1.CollectDropped() == l1;
    assert l1.CleanupIp() == l1;
    assert l1.CleanupHarq() == l1;
  }

  // The first dequeue lets the packet through, half of it goes out and the rest is queued again.
  lemma FirstHalf(b: Buffer)
    requires b.dual && b.q.cfg == DEFAULTS && b.q.now == 0.0 && b.q.lanes == Lane(PACKET) && b.q.aqm == TICKED
    requires b.curSize == 800
    ensures b.GetPkts(400)
         == (b.(q := b.q.(lanes := Lane(Remainder(PACKET, 400)), aqm := PASSED), curSize := 400),
             [Fragment(PACKET, 400)])
  {
    var s := Service(7, 800, 0.0, true, false, Ect1, Pass);
    assert [PACKET][1..] == [];
    assert MarkProbability(DEFAULTS, 0.0, 0.0, PACKET) == 0.0;
    assert TICKED.log + [s] == [s];
    assert b.q.aqm.Judge(DEFAULTS, b.q.unitDist, PACKET, s) == (PASSED, Pass);
    var q := b.q.(lanes := NO_LANES, aqm := PASSED);
    assert b.q.ServeOne() == (q, Some(PACKET));
    assert b.PopNext() == (b.(q := q), Some(PACKET));
    assert [] + [Remainder(PACKET, 400)] == [Remainder(PACKET, 400)];
    AllOf(Fragment(PACKET, 400));
  }

  lemma AllOf(p: IpPkt)
    ensures Weigh(AllBits, [p]) == p.size
  {
    assert [p][1..] == [];
  }

  // The first half's entry in reassembly, and the second half as the AQM leaves it.
  const ENTRY := Fragment(PACKET, 400).(fragsRecovered := 1)
  const LATE := Remainder(PACKET, 400).(ecn := Ce, ceMarked := true)

  // The second dequeue comes late enough to mark what is left.
  lemma SecondHalf(b: Buffer)
    requires b.dual && b.q.cfg == DEFAULTS && b.q.now == 0.01 && b.q.lanes == Lane(Remainder(PACKET, 400))
    requires b.q.aqm == PASSED && b.curSize == 400
    ensures var (b', out) := b.GetPkts(400);
            && out == [Whole(LATE)] && b' == b.(q := b'.q, curSize := 0) && b'.q.lanes == NO_LANES
            && Did(b'.q.aqm.log, 7, Mark)
  {
    var p := Remainder(PACKET, 400);
    var s := Service(7, 400, 0.01, true, false, Ect1, Pass);
    assert [p][1..] == [];
    assert MarkProbability(DEFAULTS, 0.01, 0.0, p) == 1.0 by {
      LateRamp();
    }
    var (a, action) := b.q.aqm.Judge(DEFAULTS, b.q.unitDist, p, s);
    assert action == Mark && a.log == PASSED.log + [s.(action := Mark)];
    assert a.log[1] == s.(action := Mark);
    var q := b.q.(lanes := NO_LANES, aqm := a);
    assert b.q.ServeOne() == (q, Some(LATE));
    assert b.PopNext() == (b.(q := q), Some(LATE));
    assert b.(q := q).Fill(0) == (b.(q := q), []);
    assert [Whole(LATE)] + [] == [Whole(LATE)];
    AllOf(Whole(LATE));
  }

  lemma LateRamp()
    ensures Laqm(DEFAULTS, 0.01) == 1.0
  {
    assert (0.01 - 0.0008) / 0.0004 == 23.0;
  }

  // Each half is delivered at once; the entry keeps what it knew of the first.
  lemma Delivered(h: Handler, block: HarqPkt, first: bool)
    requires block.tOut + block.backhaulD == 0.0 || !first
    requires block.backhaulVar == 0.0 && (first ==> block.ipT == 0.0)
    requires if first then h.out == [] && block.pkts == [Fragment(PACKET, 400)]
             else h.out == [ENTRY] && block.pkts == [Whole(LATE)]
    ensures var h' := h.Push(block, 0.0);
            h' == h.(delivered := h'.delivered,
                     out := [if first then ENTRY else ENTRY.(size := 800, fragsRecovered := 2, fragsCreated := 2)])
  {
    var tOut := ReleaseTime(block, 0.0);
    var p := Stamped(block.pkts[0], tOut, block.ipT);
    var out := [if first then ENTRY else ENTRY.(size := 800, fragsRecovered := 2, fragsCreated := 2)];
    assert block.pkts[1..] == [];
    assert AddData(h.out, p) == out;
    assert AddAll(h.out, block.pkts, tOut, block.ipT) == AddAll(out, [], tOut, block.ipT) == out;
    SortOfSorted(out);
  }

  // A grant to a layer with the packet alone in its buffer.
  lemma OneGrant(l: Layer, first: bool)
    requires l.buf.dual && l.harq.buf == [] && l.buf.q.lanes.dropped == [] && l.buf.HasPkts()
    requires l.buf.OldestTimestamp() == 0.0 && l.now <= l.budget && l.bhD == l.bhVar == 0.0 && (first ==> l.now == 0.0)
    requires var (b, out) := l.buf.GetPkts(400);
             && b.dual && b.q.lanes.dropped == []
             && out == [if first then Fragment(PACKET, 400) else Whole(LATE)]
    requires l.ho.out == if first then [] else [ENTRY]
    ensures var l' := l.HandlePkt(400.0, CLEAR).0;
            l' == l.(buf := l.buf.GetPkts(400).0, nextId := l.nextId + 1,
                     ho := l.ho.(delivered := l'.ho.delivered,
                                 out := [if first then ENTRY
                                         else ENTRY.(size := 800, fragsRecovered := 2, fragsCreated := 2)]))
  {
    hide Buffer.GetPkts, Handler.Push;
    assert 400.0.Floor == 400;
    var (b, out) := l.buf.GetPkts(400);
    var l1 := l.(buf := b, nextId := l.nextId + 1);
    assert l1.CollectDropped() == l1;
    var block := BlockOf(l.nextId, l.buf.OldestTimestamp(), l.now, l.bhD, l.bhVar, out);
    Delivered(l.ho, block, first);
    assert l.Turn(400.0, CLEAR).0 == l1.(ho := l.ho.Push(block, 0.0)) && l.Turn(400.0, CLEAR).1 != Again;
  }

  // A tick without captures, updates or expiry moves only the clocks.
  lemma QuietTick(l: Layer)
    requires l.buf.dual && l.harq.buf == [] && l.buf.q.lanes.dropped == [] && l.ho.ingress == [] && l.buf.HasPkts()
    requires l.ho.store.captured == [] && l.buf.q.aqm.nextUpdateT == 0.015
    requires l.buf.OldestTimestamp() == 0.0 && l.budget >= 0.1
    ensures l.StepTo(0.01)
         == l.(now := 0.01, buf := l.buf.(now := 0.01, q := l.buf.q.(now := 0.01)), harq := l.harq.(now := 0.01),
               ho := l.ho.(now := 0.01))
  {
    var k := l.Tick(0.01);
    assert k.ho == l.ho.(now := 0.01);
    assert k.buf == l.buf.(now := 0.01, q := l.buf.q.(now := 0.01));
    assert k.DrainIngress() == k && k.CollectDropped() == k;
    assert k.buf.OldestTimestamp() == 0.0 && k.CleanupIp() == k;
    assert k.CleanupHarq() == k;
  }

  lemma FrontAccepted(h: Handler, p: IpPkt)
    requires h.out == [p] && p.IsReady() && !p.erase && !p.ceMarked && h.prevReleased == -1 && p.tOut <= h.now
    requires h.verdicts == []
    ensures var vs := h.Release().verdicts; |vs| == 1 && vs[0].pkt == p && vs[0].kind == Accepted
  {
    assert h.out[1..] == [];
    assert h.Release() == h.ReleaseFront().Release() == h.ReleaseFront();
  }

  const EVENTS := [Step(0.0), Grant(400.0, CLEAR), Step(0.01), Grant(400.0, CLEAR), Release]

  /** One L4S packet, cut in half by two grants 10 ms apart: the first half passes an empty queue unmarked, the second
      has waited long enough to be marked, and the verdict is to accept the packet as it came. */
  lemma LateMarkIsLost(l: Layer, payload: seq<Byte>)
    requires Prepared(l)
    ensures var es := [Capture(INFO, payload)] + EVENTS;
            CanRun(l, es)
            && var r := Run(l, es);
               && |r.ho.verdicts| == 1 && r.ho.verdicts[0].pkt.uid == 7 && r.ho.verdicts[0].kind == Accepted
               && Did(r.buf.q.aqm.log, 7, Mark)
  {
    hide Initial, Layer.StepTo, Layer.HandlePkt, Buffer.GetPkts, Handler.Release, Run, CanRun, Did;
    var l0 := l.Captured(INFO, payload);
    StartsEmpty(l, payload);
    Arrives(l, payload);
    var l1 := l0.StepTo(0.0);
    FirstHalf(l1.buf);
    OneGrant(l1, true);
    var l2 := l1.HandlePkt(400.0, CLEAR).0;
    QuietTick(l2);
    var l3 := l2.StepTo(0.01);
    SecondHalf(l3.buf);
    OneGrant(l3, false);
    var l4 := l3.HandlePkt(400.0, CLEAR).0;
    FrontAccepted(l4.ho, ENTRY.(size := 800, fragsRecovered := 2, fragsCreated := 2));
    FiveEvents(l0, l1, l2, l3, l4);
    RunOne(l, Capture(INFO, payload));
    RunAppend(l, [Capture(INFO, payload)], EVENTS);
  }

  lemma StartsEmpty(l: Layer, payload: seq<Byte>)
    requires Initial(l)
    ensures var l0 := l.Captured(INFO, payload);
            && Enabled(l, Capture(INFO, payload)) && Apply(l, Capture(INFO, payload)) == l0
            && l0.harq.buf == [] && l0.ho.out == [] && l0.ho.ingress == [] && l0.now == 0.0 && l0.ho.prevReleased == -1
            && l0.ho.verdicts == [] && l0.buf.fifo == []
  {
  }

  lemma FiveEvents(l0: Layer, l1: Layer, l2: Layer, l3: Layer, l4: Layer)
    requires l0.now <= 0.0 && l2.now <= 0.01
    requires l1 == l0.StepTo(0.0) && l2 == l1.HandlePkt(400.0, CLEAR).0 && l3 == l2.StepTo(0.01)
    requires l4 == l3.HandlePkt(400.0, CLEAR).0
    ensures CanRun(l0, EVENTS) && Run(l0, EVENTS) == l4.Release()
  {
    hide Layer.StepTo, Layer.HandlePkt, Layer.Release, Run, CanRun;
    RunTwo(l0, Step(0.0), Grant(400.0, CLEAR));
    RunTwo(l2, Step(0.01), Grant(400.0, CLEAR));
    RunOne(l4, Release);
    RunAppend(l2, [Step(0.01), Grant(400.0, CLEAR)], [Release]);
    RunAppend(l0, [Step(0.0), Grant(400.0, CLEAR)], [Step(0.01), Grant(400.0, CLEAR)] + [Release]);
    assert [Step(0.0), Grant(400.0, CLEAR)] + ([Step(0.01), Grant(400.0, CLEAR)] + [Release]) == EVENTS;
  }
}
