// What bounds every run: one time in all components, the buffer's capacity, and the setup that never changes.
module Bounds {
  import opened Packets
  import opened DualPi2
  import opened IpBuffer
  import opened IpBufferLaws
  import opened Harq
  import opened CapturedHandler
  import opened Capture
  import opened CapturedHandlerLaws
  import opened PdcpLayer
  import opened PdcpInduction
  import opened PdcpRuns
  import opened PdcpLaws
  import opened PdcpTheorems

  // Every component has the layer's time; the dual queue's own clock runs only while it is the backend.
  ghost predicate OneTime(l: Layer) {
    l.buf.now == l.harq.now == l.ho.now == l.now && (l.buf.dual ==> l.buf.q.now == l.now)
  }

  ghost predicate WithinCapacity(b: Buffer) { b.curSize <= b.maxSize || b.curSize <= 0 }

  ghost predicate SetupStays(l: Layer, l': Layer) {
    && l'.buf.dual == l.buf.dual && l'.buf.maxSize == l.buf.maxSize && l'.buf.q.cfg == l.buf.q.cfg
    && l'.budget == l.budget && l'.bhD == l.bhD && l'.bhVar == l.bhVar
    && l'.ho.doCheck == l.ho.doCheck && l'.ho.clock == l.ho.clock
  }

  ghost predicate Bounded(l: Layer, k: Layer) { OneTime(k) && WithinCapacity(k.buf) && SetupStays(l, k) }

  // ----- the buffer -----

  ghost predicate SameFrame(b: Buffer, b': Buffer) {
    b' == b.(fifo := b'.fifo, q := b'.q) && b'.q.now == b.q.now && b'.q.cfg == b.q.cfg
  }

  lemma {:induction false} PopNextFrame(q: DualQ)
    ensures q.PopNext().0.now == q.now && q.PopNext().0.cfg == q.cfg
    decreases |q.lanes.l| + |q.lanes.c|
  {
    hide Aqm.Judge, Lanes.TakeHead;
    if q.HasPkts() && q.ServeOne().1.None? {
      PopNextFrame(q.ServeOne().0);
    }
  }

  lemma {:induction false} FillFrame(b: Buffer, bits: nat)
    ensures SameFrame(b, b.Fill(bits).0)
    decreases bits
  {
    hide DualQ.PopNext, DualQ.HasPkts;
    if bits > 0 && b.HasPkts() {
      PopNextFrame(b.q);
      var (b1, next) := b.PopNext();
      if next.Some? && next.value.size <= bits {
        FillFrame(b1, bits - next.value.size);
      }
    }
  }

  lemma GetPktsBounded(b: Buffer, grant: nat)
    requires WithinCapacity(b)
    ensures var b' := b.GetPkts(grant).0; SameFrame(b, b'.(curSize := b.curSize)) && WithinCapacity(b')
  {
    hide Buffer.Fill, Weigh;
    FillFrame(b, grant);
  }

  // ----- the pipeline's steps -----

  lemma LoopsBounded(l: Layer, k: Layer)
    requires Bounded(l, k)
    ensures k.ho.ingress != [] ==> Bounded(l, k.DrainOne())
    ensures k.buf.PopAqmDropped().1.Some? ==> Bounded(l, k.CollectOne())
    ensures LateHead(k) ==> Bounded(l, k.DropOldest())
    ensures LateBlock(k) ==> Bounded(l, k.DropExpiredBlock())
  {
    hide SortByUid, RemoveAll, BlockOf, Buffer.OldestTimestamp;
  }

  lemma TickBounded(l: Layer, k: Layer, t: real)
    requires Bounded(l, k)
    ensures Bounded(l, k.Tick(t))
  {
    hide Handler.Ingest, Increment;
    IngestOnly(k.ho.(now := t));
  }

  lemma StepBounded(l: Layer, k: Layer, t: real)
    requires Bounded(l, k)
    ensures Bounded(l, k.StepTo(t))
  {
    hide Bounded, Layer.Tick, Layer.StepTo, Layer.DrainOne, Layer.CollectOne, Layer.DropOldest,
         Layer.DropExpiredBlock, Harq.PopOlderThan;
    TickBounded(l, k, t);
    forall m: Layer | Bounded(l, m)
      ensures m.ho.ingress != [] ==> Bounded(l, m.DrainOne())
      ensures m.buf.PopAqmDropped().1.Some? ==> Bounded(l, m.CollectOne())
      ensures LateHead(m) ==> Bounded(l, m.DropOldest())
      ensures LateBlock(m) ==> Bounded(l, m.DropExpiredBlock())
    {
      LoopsBounded(l, m);
    }
    StepInduction(k, t, (m: Layer) => Bounded(l, m));
  }

  lemma CollectBounded(l: Layer, k: Layer)
    requires Bounded(l, k)
    ensures Bounded(l, k.CollectDropped())
  {
    hide Bounded, Layer.CollectOne, Layer.CollectDropped;
    forall m: Layer | Bounded(l, m) && m.buf.PopAqmDropped().1.Some?
      ensures Bounded(l, m.CollectOne())
    {
      LoopsBounded(l, m);
    }
    CollectInduction(k, (m: Layer) => Bounded(l, m));
  }

  lemma BlockBounded(l: Layer, k: Layer, h: Harq, block: HarqPkt, jitter: real)
    requires Bounded(l, k) && h.now == k.harq.now
    ensures Bounded(l, k.(harq := h)) && Bounded(l, k.(harq := h, ho := k.ho.DropBlock(block)))
    ensures Bounded(l, k.(harq := h, ho := k.ho.Push(block, jitter)))
  {
    hide Handler.DropBlock, Handler.Push;
    DropKeepsHandler(k.ho, block);
    PushKeepsHandler(k.ho, block, jitter);
  }

  lemma GrantBounded(l: Layer, k: Layer, grant: nat)
    requires Bounded(l, k)
    ensures Bounded(l, k.(buf := k.buf.GetPkts(grant).0, nextId := k.nextId + 1))
  {
    hide Buffer.GetPkts;
    GetPktsBounded(k.buf, grant);
  }

  lemma TurnBounded(l: Layer, k: Layer, bits: real, radio: Radio)
    requires Bounded(l, k) && bits > 0.0 && k.buf.HasPkts()
    ensures Bounded(l, k.Turn(bits, radio).0)
  {
    hide Bounded, Buffer.GetPkts, Layer.CollectDropped, Handler.DropBlock, Handler.Push, Harq.AddPkts, Buffer.HasPkts,
         Buffer.OldestTimestamp;
    var (b, out) := k.buf.GetPkts(bits.Floor);
    var k1 := k.(buf := b, nextId := k.nextId + 1);
    GrantBounded(l, k, bits.Floor);
    CollectBounded(l, k1);
    CollectKeepsQueues(k1);
    var k2 := k1.CollectDropped();
    var block := BlockOf(k.nextId, k.buf.OldestTimestamp(), k.now, k.bhD, k.bhVar, out);
    AddedNow(k2.harq, block, radio.ackDelay);
    BlockBounded(l, k2, k2.harq, block, radio.jitter);
    BlockBounded(l, k2, k2.harq.AddPkts(block, radio.ackDelay), block, radio.jitter);
  }

  lemma AddedNow(h: Harq, b: HarqPkt, ackDelay: real)
    ensures h.AddPkts(b, ackDelay).now == h.now
  {
  }

  lemma HandleBounded(l: Layer, k: Layer, bits: real, radio: Radio)
    requires Bounded(l, k) && (k.harq.IsPktReady() || k.Halts(bits))
    ensures Bounded(l, k.HandlePkt(bits, radio).0)
  {
    hide Bounded, Layer.Turn, Layer.ServeNew, Handler.Push, Handler.DropBlock;
    if k.harq.IsPktReady() {
      var (h, b) := k.harq.GetPkt();
      BlockBounded(l, k, h, b, radio.jitter);
      BlockBounded(l, k, h.Queue(b, radio.ackDelay), b, radio.jitter);
    } else {
      forall m: Layer | Bounded(l, m) && bits > 0.0 && m.buf.HasPkts()
        ensures Bounded(l, m.Turn(bits, radio).0)
      {
        TurnBounded(l, m, bits, radio);
      }
      GrantInduction(k, bits, radio, (m: Layer) => Bounded(l, m));
    }
  }

  lemma {:induction false} ReleaseFrame(h: Handler)
    ensures var h' := h.Release(); h'.now == h.now && h'.doCheck == h.doCheck && h'.clock == h.clock
    decreases |h.out|
  {
    hide Store.Verdict;
    if h.FrontGoes() {
      ReleaseFrame(h.ReleaseFront());
    }
  }

  lemma EventBounded(l: Layer, k: Layer, e: Event)
    requires Bounded(l, k) && Enabled(k, e)
    ensures Bounded(l, Apply(k, e))
  {
    hide Layer.StepTo, Layer.HandlePkt, Handler.Release;
    match e
    case Capture(info, payload) =>
    case Step(t) => StepBounded(l, k, t);
    case Grant(bits, radio) => HandleBounded(l, k, bits, radio);
    case Release => ReleaseFrame(k.ho);
    case Report =>
  }

  lemma RunsAreBounded(l: Layer, es: seq<Event>)
    requires Initial(l) && CanRun(l, es)
    ensures Bounded(l, Run(l, es))
  {
    hide Run, CanRun, Enabled, Apply;
    assert Bounded(l, l);
    hide Bounded, Initial;
    forall k: Layer, e: Event | Bounded(l, k) && Enabled(k, e)
      ensures Bounded(l, Apply(k, e))
    {
      EventBounded(l, k, e);
    }
    RunInduction(l, es, (k: Layer) => Bounded(l, k));
  }

  /** Over every run: buffer, retransmission buffer, packet handler and, in dual mode, the dual queue all have the time
      of the last tick. */
  lemma ClocksAgree(l: Layer, es: seq<Event>)
    requires Initial(l) && CanRun(l, es)
    ensures var r := Run(l, es);
            r.buf.now == r.harq.now == r.ho.now == r.now && (l.buf.dual ==> r.buf.q.now == r.now)
  {
    hide Run, CanRun, Initial, WithinCapacity;
    RunsAreBounded(l, es);
  }

  /** Over every run in either mode: the bits held, uncollected victims included, never exceed the capacity. */
  lemma NeverOverCapacity(l: Layer, es: seq<Event>)
    requires Initial(l) && CanRun(l, es) && l.buf.maxSize >= 0
    ensures Held(AllBits, Run(l, es).buf) <= l.buf.maxSize
  {
    hide Run, CanRun, Initial, OneTime, Held, Weigh;
    RunsAreBounded(l, es);
    OccupancyIsHeld(l, es);
  }

  lemma OccupancyIsHeld(l: Layer, es: seq<Event>)
    requires Initial(l) && CanRun(l, es)
    ensures Run(l, es).buf.curSize == Held(AllBits, Run(l, es).buf)
  {
    hide Run, CanRun, Initial, Weigh;
    OccupancyIsExact(l, es);
  }

  // ----- admission -----

  /** A packet is admitted exactly if it fits beside the bits held, to the last bit: it then adds its bits to them, and
      otherwise leaves the buffer as it is and stands spoiled in reassembly, which is put in order of ids. */
  lemma AdmittedIfItFits(l: Layer)
    requires Shape(l) && l.ho.ingress != []
    ensures var p, l' := l.ho.ingress[0], l.DrainOne();
            && l'.ho.ingress == l.ho.ingress[1..]
            && if Held(AllBits, l.buf) + p.size <= l.buf.maxSize then
                 Held(AllBits, l'.buf) == Held(AllBits, l.buf) + p.size && l'.ho.out == l.ho.out
               else
                 && l'.buf == l.buf && SortedByUid(l'.ho.out)
                 && multiset(l'.ho.out) == multiset(l.ho.out) + multiset{p.(erase := true, tOut := l.ho.now)}
  {
    hide BlocksGenuine, Settled, Loyal, SortByUid, Buffer.AddPkt, Weigh;
    var p := l.ho.ingress[0];
    assert Genuine(p, l.ho.store.seen);
    if l.buf.Fits(p) {
      AddPktKeeps(l.buf, p, AllBits);
    } else {
      SortByUidSorts(l.ho.out + [p.(erase := true, tOut := l.ho.now)]);
    }
  }
}
