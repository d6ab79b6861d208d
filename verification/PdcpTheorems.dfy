// What holds in every run of the pipeline.
module PdcpTheorems {
  import opened Packets
  import opened DualPi2
  import opened DualPi2Laws
  import opened IpBuffer
  import opened IpBufferLaws
  import opened Ipv4Ecn
  import opened Capture
  import opened CapturedHandler
  import opened CapturedHandlerLaws
  import opened IdentityLaws
  import opened PdcpLayer
  import opened PdcpRuns
  import opened PdcpLaws
  import HarqLaws

  // ----- every run -----

  ghost predicate Good(l: Layer) {
    Shape(l) && (forall u: nat :: Books(l, u)) && (forall id: nat :: HarqLaws.WithinTurns(l.harq, l.nextId, id))
  }

  lemma EmptyBufferIsSound(dual: bool, maxSize: int, cfg: Config, rng: nat -> real, u: nat)
    ensures var b := EmptyBuffer(dual, maxSize, cfg, rng);
            && BufferSound(b) && b.fifo == [] && b.q.lanes == NO_LANES && b.q.now == 0.0
            && Signals(b.q.aqm.log, u) == 0
  {
    hide AqmStats.Plus;
    NothingPlus(NO_STATS);
  }

  lemma InitialIsGood(l: Layer)
    requires Initial(l)
    ensures Good(l)
  {
    hide BufferSound, EmptyBuffer, Signals, Settled, Genuine;
    EmptyBufferIsSound(l.buf.dual, l.buf.maxSize, l.buf.q.cfg, l.buf.q.unitDist, 0);
    assert Shape(l);
    forall u: nat
      ensures Books(l, u)
    {
      EmptyBufferIsSound(l.buf.dual, l.buf.maxSize, l.buf.q.cfg, l.buf.q.unitDist, u);
    }
  }

  lemma EventKeepsOne(l: Layer, e: Event, u: nat)
    requires Shape(l) && (forall u: nat :: Books(l, u)) && Enabled(l, e)
    ensures Shape(Apply(l, e)) && Books(Apply(l, e), u)
  {
    hide Shape, Books, Layer.StepTo, Layer.ServeNew, Layer.ServeAgain, Layer.Release, Layer.Report, Layer.Captured;
    match e
    case Capture(info, payload) => CapturedKeeps(l, info, payload, u);
    case Step(t) => PdcpLaws.StepToKeeps(l, t, u);
    case Grant(bits, radio) =>
      if l.harq.IsPktReady() {
        ServeAgainKeeps(l, radio, u);
      } else {
        ServeNewKeeps(l, bits, radio, u);
      }
    case Release => ReleaseKeeps(l);
    case Report => ReportKeeps(l, u);
  }

  lemma EventKeepsTurns(l: Layer, e: Event, id: nat)
    requires HarqLaws.WithinTurns(l.harq, l.nextId, id) && Enabled(l, e)
    ensures HarqLaws.WithinTurns(Apply(l, e).harq, Apply(l, e).nextId, id)
  {
    hide HarqLaws.WithinTurns, Layer.StepTo, Layer.ServeNew;
    match e
    case Step(t) => StepTurns(l, t, id);
    case Grant(bits, radio) =>
      if l.harq.IsPktReady() {
        HarqLaws.ServeKeepsTurns(l.harq, radio.fails, radio.ackDelay, l.nextId, id);
      } else {
        ServeNewTurns(l, bits, radio, id);
      }
    case _ =>
  }

  lemma EventKeeps(l: Layer, e: Event)
    requires Good(l) && Enabled(l, e)
    ensures Good(Apply(l, e))
  {
    hide Shape, Books, HarqLaws.WithinTurns, Apply, Enabled;
    EventKeepsOne(l, e, 0);
    forall u: nat
      ensures Books(Apply(l, e), u)
    {
      EventKeepsOne(l, e, u);
    }
    forall id: nat
      ensures HarqLaws.WithinTurns(Apply(l, e).harq, Apply(l, e).nextId, id)
    {
      EventKeepsTurns(l, e, id);
    }
  }

  lemma RunsAreGood(l: Layer, es: seq<Event>)
    requires Initial(l) && CanRun(l, es)
    ensures Good(Run(l, es))
  {
    hide Good, Initial, Run, CanRun, Enabled, Apply;
    InitialIsGood(l);
    forall k: Layer, e: Event | Good(k) && Enabled(k, e)
      ensures Good(Apply(k, e))
    {
      EventKeeps(k, e);
    }
    RunInduction(l, es, (k: Layer) => Good(k));
  }

  // ----- what that means -----

  /** Conservation, over every run: a captured packet has all its bits somewhere in the pipeline until its
      verdict and none after it; nobody gets two verdicts, and only captured packets get one. */
  lemma BitsAreConserved(l: Layer, es: seq<Event>, u: nat)
    requires Initial(l) && CanRun(l, es)
    ensures var r := Run(l, es);
            && Verdicts(r.ho.verdicts, u) <= (if u in r.ho.store.seen then 1 else 0)
            && Live(BitsOf(u), r) == (if Verdicts(r.ho.verdicts, u) == 0 then CapturedBits(r, u) else 0)
  {
    hide Shape, Live, BufferSound, Run, Initial;
    RunsAreGood(l, es);
    var r := Run(l, es);
    assert Books(r, u);
    assert forall v :: v in r.ho.verdicts ==> Settled(v, r.ho.store.seen) by {
      ShapeSettles(r);
    }
    ToldIsVerdicts(r.ho.verdicts, r.ho.store.seen, u);
  }

  lemma ShapeSettles(l: Layer)
    requires Shape(l)
    ensures forall v :: v in l.ho.verdicts ==> Settled(v, l.ho.store.seen)
    ensures l.ho.store.payloads.Keys == l.ho.store.seen.Keys - ToldUids(l.ho.verdicts)
    ensures l.ho.store.received.Keys == l.ho.store.seen.Keys
    ensures Loyal(l.ho.store.payloads, l.ho.store.received, l.ho.verdicts)
  {
  }

  /** The payload store, over every run: its keys are exactly the captured packets without a verdict, each with the
      payload captured; no verdict ever meets a missing payload; and each CE verdict, and no other, went out with a
      payload, the packet's own with its ECN field rewritten. */
  lemma PayloadsAwaitVerdicts(l: Layer, es: seq<Event>, u: nat)
    requires Initial(l) && CanRun(l, es)
    ensures var r := Run(l, es);
            && (u in r.ho.store.payloads <==> u in r.ho.store.seen && Verdicts(r.ho.verdicts, u) == 0)
            && (forall v :: v in r.ho.verdicts ==> Settled(v, r.ho.store.seen))
            && r.ho.store.received.Keys == r.ho.store.seen.Keys
            && Loyal(r.ho.store.payloads, r.ho.store.received, r.ho.verdicts)
  {
    hide Shape, Books, Run, Initial, Settled, Loyal;
    RunsAreGood(l, es);
    var r := Run(l, es);
    ShapeSettles(r);
    ToldIsVerdicts(r.ho.verdicts, r.ho.store.seen, u);
    assert u in r.ho.store.payloads <==> u in r.ho.store.payloads.Keys;
  }

  /** What the kernel gets, over every run: with a CE verdict it is handed the bytes that were captured. If they start
      with a header of at least 20 bytes, four times the low half of the first byte, that is there, only the two ECN
      bits, now CE, and the checksum of that header differ, and the checksum verifies: it is 0 recomputed, and the
      header is a multiple of 65535 read as one number. Any other bytes it is handed unchanged. */
  lemma KernelGetsCapturedBytes(l: Layer, es: seq<Event>, i: nat)
    requires Initial(l) && CanRun(l, es) && i < |Run(l, es).ho.verdicts| && Run(l, es).ho.verdicts[i].kind == AcceptedCe
    ensures var h := Run(l, es).ho; var v := h.verdicts[i];
            && v.sent.Patched? && v.pkt.uid in h.store.received
            && var p, sent := h.store.received[v.pkt.uid], v.sent.payload;
               if |p| >= 20 && p[0] % 16 >= 5 && |p| >= 4 * (p[0] % 16) then
                 && |sent| == |p| && sent[1] % 4 == ECN_CE && sent[1] / 4 == p[1] / 4
                 && (forall k :: 0 <= k < |p| && k != 1 && k != 10 && k != 11 ==> sent[k] == p[k])
                 && Checksum(sent[..4 * (p[0] % 16)]) == 0 && Number(sent[..4 * (p[0] % 16)]) % 0xFFFF == 0
               else sent == p
  {
    hide Run, Initial, CanRun, Settled, Rewritten, Checksum, Number;
    PayloadsAwaitVerdicts(l, es, 0);
    var h := Run(l, es).ho;
    var p := h.store.received[h.verdicts[i].pkt.uid];
    RewrittenTouchesOnlyEcn(p, ECN_CE);
    if |p| >= 20 && p[0] % 16 >= 5 && |p| >= 4 * (p[0] % 16) {
      RewrittenVerifies(p, ECN_CE);
    }
  }

  /** Congestion signals, over every run: at most one per packet however often it is cut and requeued, so marks
      plus drops count distinct packets; totals are the interval reports plus the open interval; and only
      code points that may be marked or dropped ever are. */
  lemma OneSignalPerPacket(l: Layer, es: seq<Event>, u: nat)
    requires Initial(l) && CanRun(l, es)
    ensures var a := Run(l, es).buf.q.aqm;
            && Signals(a.log, u) <= 1
            && a.total.cePackets + a.total.aqmDrops == |Signalled(a.log)|
            && Accounted(a)
  {
    hide Run, Initial, Live, Pending, BufferGenuine, BlocksGenuine, HandlerShape, LanesSound, Fair, Timely;
    RunsAreGood(l, es);
    var r := Run(l, es);
    forall u: nat
      ensures Signals(r.buf.q.aqm.log, u) <= 1
    {
      assert Books(r, u);
    }
    SignalsAreDistinct(r.buf.q.aqm.log);
  }

  /** Occupancy, over every run: the buffer's size is the bits in the FIFO or in both queues and the uncollected
      victims, and each queue's counter is the sum over its packets. */
  lemma OccupancyIsExact(l: Layer, es: seq<Event>)
    requires Initial(l) && CanRun(l, es)
    ensures var b := Run(l, es).buf;
            && b.curSize == Weigh(AllBits, b.fifo) + Weigh(AllBits, b.q.lanes.l) + Weigh(AllBits, b.q.lanes.c)
                            + Weigh(AllBits, b.q.lanes.dropped)
            && b.q.lanes.lBits == Weigh(AllBits, b.q.lanes.l) && b.q.lanes.cBits == Weigh(AllBits, b.q.lanes.c)
  {
    hide Run, Initial, AqmSound, BufferGenuine, BlocksGenuine, HandlerShape, Weigh;
    RunsAreGood(l, es);
  }

  /** Service, over every run: the dequeue history is in time order and follows the guard. So while classic traffic
      waits behind a positive guard, L4S is served only within the guard after a classic dequeue (or after time 0,
      before the first); while L4S traffic waits, classic dequeues are at least a guard apart, so at most one happens
      per instant; and without a positive guard classic traffic is never served while L4S traffic waits. */
  lemma ClassicIsNotStarved(l: Layer, es: seq<Event>, i: nat, j: nat)
    requires Initial(l) && CanRun(l, es) && j < |Run(l, es).buf.q.aqm.log|
    ensures var q := Run(l, es).buf.q; var log, guard := q.aqm.log, q.cfg.classicGuardS;
            && Fair(guard, log) && Timely(log, q.now)
            && (guard > 0.0 && log[j].fromL4s && log[j].otherBacklogged ==>
                  log[j].at < guard || exists k :: 0 <= k < j && !log[k].fromL4s && log[j].at - log[k].at < guard)
            && (i < j && !log[i].fromL4s && !log[j].fromL4s && log[j].otherBacklogged ==>
                  guard > 0.0 && log[j].at - log[i].at >= guard)
            && (guard <= 0.0 && log[j].otherBacklogged ==> log[j].fromL4s)
  {
    hide Run, Initial, CanRun, Fair, Timely, Accounted, BufferGenuine, BlocksGenuine, HandlerShape, LanesSound;
    RunsAreGood(l, es);
    var q := Run(l, es).buf.q;
    var log, guard := q.aqm.log, q.cfg.classicGuardS;
    if guard > 0.0 && log[j].fromL4s && log[j].otherBacklogged {
      L4sCannotStarveClassic(guard, q.now, log, j);
    }
    if i < j && !log[i].fromL4s && !log[j].fromL4s && log[j].otherBacklogged {
      ClassicIsRateLimited(guard, q.now, log, i, j);
    }
    if guard <= 0.0 && log[j].otherBacklogged {
      NoGuardStarvesClassic(guard, log, j);
    }
  }

  /** Ordered release, over every run in either mode and whatever is dropped: with the order check on, an accepted
      packet got its verdict right after the packet it points at, or was the first told; and its first piece was due.
      (Punctuality.AcceptedWhenAllIsDue says when all its pieces were.) */
  lemma AcceptedInSequence(l: Layer, es: seq<Event>, i: nat)
    requires Initial(l) && CanRun(l, es) && i < |Run(l, es).ho.verdicts| && Run(l, es).ho.verdicts[i].kind != Discarded
    ensures var h := Run(l, es).ho; var v := h.verdicts[i];
            && v.pkt.tOut <= v.at
            && (h.doCheck && i > 0 ==> h.verdicts[i - 1].pkt.uid == v.pkt.prevUid)
  {
    hide Run, Initial, BufferSound, BufferGenuine, BlocksGenuine, Settled, Genuine, Books;
    RunsAreGood(l, es);
  }

  /** Giving up, over every run: a block whose retransmission fails stays in the buffer exactly if it has had fewer than
      five turns by then. */
  lemma GivenUpExactlyAtFive(l: Layer, es: seq<Event>, bits: real, radio: Radio)
    requires Initial(l) && CanRun(l, es) && Run(l, es).harq.IsPktReady() && radio.fails
    ensures var h := Run(l, es).harq; var h' := Run(l, es).HandlePkt(bits, radio).0.harq; var id := h.buf[0].id;
            && HarqLaws.Turns(h'.served, id) == HarqLaws.Turns(h.served, id) + 1
            && ((exists i :: 0 <= i < |h'.buf| && h'.buf[i].id == id) <==> HarqLaws.Turns(h'.served, id) < 5)
  {
    hide Run, Initial, CanRun, Shape, Books, HarqLaws.WithinTurns, HarqLaws.Turns;
    RunsAreGood(l, es);
    var r := Run(l, es);
    assert HarqLaws.WithinTurns(r.harq, r.nextId, r.harq.buf[0].id);
    HarqLaws.GivenUpAtTheFifth(r.harq, radio.ackDelay, r.nextId);
  }

  /** Release leaves nothing behind that could go, over every run in either mode: the packet in front is incomplete, or
      it is unspoiled and not due, or out of order behind the packet told last. */
  lemma ReleaseStopsForAReason(l: Layer, es: seq<Event>)
    requires Initial(l) && CanRun(l, es)
    ensures var h := Run(l, es).Release().ho;
            h.out == []
            || !h.out[0].IsReady()
            || (!h.out[0].erase
                && (h.out[0].tOut > h.now
                    || (h.doCheck && h.verdicts != [] && h.verdicts[|h.verdicts| - 1].pkt.uid != h.out[0].prevUid)))
  {
    hide Run, Initial, CanRun, Good, Handler.Release, Handler.FrontGoes, Enabled;
    RunsAreGood(l, es);
    var r := Run(l, es);
    ReleaseIsEnabled(r);
    EventKeeps(r, Release);
    ReleaseStops(r.ho);
    StoppedInSequence(r.Release());
  }

  lemma ReleaseIsEnabled(l: Layer)
    ensures Enabled(l, Release) && Apply(l, Release) == l.Release()
  {
  }

  lemma {:induction false} ReleaseStops(h: Handler)
    ensures !h.Release().FrontGoes()
    decreases |h.out|
  {
    hide Store.Verdict;
    if h.FrontGoes() {
      ReleaseStops(h.ReleaseFront());
    }
  }

  lemma StoppedInSequence(l: Layer)
    requires Good(l) && !l.ho.FrontGoes()
    ensures var h := l.ho;
            h.out == []
            || !h.out[0].IsReady()
            || (!h.out[0].erase
                && (h.out[0].tOut > h.now
                    || (h.doCheck && h.verdicts != [] && h.verdicts[|h.verdicts| - 1].pkt.uid != h.out[0].prevUid)))
  {
    hide BufferSound, Books, HarqLaws.WithinTurns, Settled, Genuine, BlocksGenuine, BufferGenuine, Loyal;
  }

  /** Retransmission, over every run and whatever fails: a block is served at most five times, its count stays
      in 0..4, and by its fifth turn it has left the buffer. */
  lemma BlocksLeaveInFiveTurns(l: Layer, es: seq<Event>, id: nat)
    requires Initial(l) && CanRun(l, es)
    ensures var h := Run(l, es).harq;
            && HarqLaws.Turns(h.served, id) <= 5
            && (HarqLaws.Turns(h.served, id) == 5 ==> forall b :: b in h.buf ==> b.id != id)
            && (forall b :: b in h.buf ==> b.nTx <= 4)
  {
    hide Run, Initial, Shape, Books;
    RunsAreGood(l, es);
    var r := Run(l, es);
    assert HarqLaws.WithinTurns(r.harq, r.nextId, id);
    HarqLaws.FiveTurnsAtMost(r.harq, r.nextId, id);
  }
}
