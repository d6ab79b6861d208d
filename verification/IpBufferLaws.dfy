// What the IP buffer keeps: every bit is accounted for, occupancy is exact over both backends,
// a grant is used up or the buffer is empty, and packets keep their identity.
module IpBufferLaws {
  import opened Packets
  import opened DualPi2
  import opened DualPi2Laws
  import opened IpBuffer

  // ----- amounts -----

  // What waits to be served, in whichever backend.
  function Waiting(g: Gauge, b: Buffer): nat {
    Weigh(g, b.fifo) + Weigh(g, b.q.lanes.l) + Weigh(g, b.q.lanes.c)
  }

  // What the buffer still answers for: also the AQM's victims nobody has collected yet.
  function Held(g: Gauge, b: Buffer): nat {
    Waiting(g, b) + Weigh(g, b.q.lanes.dropped)
  }

  // Occupancy is the bits held, in exact arithmetic, so no clamp at zero ever fires.
  ghost predicate BufferSound(b: Buffer) {
    && Sound(b.q)
    && (forall p :: p in b.fifo ==> p.EcnConsistent())
    && b.curSize == Held(AllBits, b)
  }

  /** What an operation that hands out `out` does to the books: bits leave exactly with `out`, and the
      signals raised for a packet plus its unmarked waiting entries never grow. */
  ghost predicate Booked(g: Gauge, b: Buffer, b': Buffer, out: seq<IpPkt>) {
    match g
    case Unmarked(u) => Signals(b'.q.aqm.log, u) + Waiting(g, b') <= Signals(b.q.aqm.log, u) + Waiting(g, b)
    case _ => Held(g, b') + Weigh(g, out) == Held(g, b)
  }

  ghost predicate SameSetup(b: Buffer, b': Buffer) {
    b'.dual == b.dual && b'.maxSize == b.maxSize && b'.now == b.now && b'.q.cfg == b.q.cfg && b'.q.now == b.q.now
    && b'.q.aqm.pi == b.q.aqm.pi
  }

  // ----- the packing loop -----

  // The fragment takes its bits out of the packet; what is left keeps its mark and its place in the books.
  lemma CutMeasures(g: Gauge, p: IpPkt, bits: Bits)
    requires bits < p.size
    ensures g.Unmarked? ==> Measure(g, Remainder(p, bits)) == Measure(g, p)
    ensures !g.Unmarked? ==> Measure(g, Remainder(p, bits)) + Measure(g, Fragment(p, bits)) == Measure(g, p)
    ensures Measure(g, Whole(p)) == Measure(g, p)
  {
  }

  lemma PopNextBooks(b: Buffer, g: Gauge)
    requires Sound(b.q) && forall p :: p in b.fifo ==> p.EcnConsistent()
    ensures var (b', r) := b.PopNext();
            && Sound(b'.q) && (forall p :: p in b'.fifo ==> p.EcnConsistent()) && SameSetup(b, b')
            && (r.Some? ==> r.value.EcnConsistent())
            && b'.curSize == b.curSize && |b'.fifo| <= |b.fifo|
            && (match g
                case Unmarked(u) =>
                  Signals(b'.q.aqm.log, u) + Waiting(g, b') + (if r.Some? then Measure(g, r.value) else 0)
                  == Signals(b.q.aqm.log, u) + Waiting(g, b)
                case _ => Held(g, b') + (if r.Some? then Measure(g, r.value) else 0) == Held(g, b))
  {
    hide Sound, DualQ.PopNext, Signals;
    PopNextKeeps(b.q, g);
  }

  lemma RequeueBooks(b: Buffer, p: IpPkt, g: Gauge)
    requires Sound(b.q) && (forall p :: p in b.fifo ==> p.EcnConsistent()) && p.EcnConsistent()
    ensures var b' := b.Requeue(p);
            && Sound(b'.q) && (forall p :: p in b'.fifo ==> p.EcnConsistent()) && SameSetup(b, b')
            && b'.curSize == b.curSize && b'.q.aqm == b.q.aqm && b'.q.lanes.dropped == b.q.lanes.dropped
            && Waiting(g, b') == Waiting(g, b) + Measure(g, p)
  {
    EnqueueKeeps(b.q.lanes, p, g);
    WeighSnoc(g, b.fifo, p);
    WeighCons(g, p, b.fifo);
  }

  lemma {:induction false} FillBooks(b: Buffer, bits: nat, g: Gauge)
    requires Sound(b.q) && forall p :: p in b.fifo ==> p.EcnConsistent()
    ensures var (b', out) := b.Fill(bits);
            && Sound(b'.q) && (forall p :: p in b'.fifo ==> p.EcnConsistent()) && SameSetup(b, b')
            && b'.curSize == b.curSize
            && Booked(g, b, b', out)
            && Weigh(AllBits, out) <= bits
            && (Weigh(AllBits, out) == bits || !b'.HasPkts())
    decreases bits
  {
    hide Sound, Buffer.PopNext, Buffer.Requeue, Signals, Waiting, IpPkt.EcnConsistent, Measure;
    if bits > 0 && b.HasPkts() {
      PopNextBooks(b, g);
      var (b1, next) := b.PopNext();
      if next.Some? {
        var p := next.value;
        if p.size <= bits {
          FillBooks(b1, bits - p.size, g);
          var rest := b1.Fill(bits - p.size).1;
          WeighCons(g, Whole(p), rest);
          WeighCons(AllBits, Whole(p), rest);
          WholeMeasures(g, p);
          WholeMeasures(AllBits, p);
        } else {
          CutKeepsEcn(p, bits);
          RequeueBooks(b1, Remainder(p, bits), g);
          CutMeasures(g, p, bits);
          FragmentWeighs(g, p, bits);
        }
      } else {
        NoneMeansEmpty(b);
      }
    }
  }

  lemma NoneMeansEmpty(b: Buffer)
    ensures b.PopNext().1.None? ==> !b.PopNext().0.HasPkts()
  {
  }

  lemma WholeMeasures(g: Gauge, p: IpPkt)
    ensures Measure(g, Whole(p)) == Measure(g, p) && Measure(AllBits, p) == p.size
  {
  }

  lemma CutKeepsEcn(p: IpPkt, bits: Bits)
    requires bits < p.size
    ensures p.EcnConsistent() ==> Remainder(p, bits).EcnConsistent()
  {
  }

  lemma FragmentWeighs(g: Gauge, p: IpPkt, bits: Bits)
    ensures Weigh(g, [Fragment(p, bits)]) == Measure(g, Fragment(p, bits))
    ensures Weigh(AllBits, [Fragment(p, bits)]) == bits
  {
  }

  // ----- the operations -----

  /** A grant of whole bits is used exactly or leaves the buffer empty, in both modes, whatever is dropped
      on the way; nothing is lost or created and occupancy stays exact. */
  lemma GetPktsKeeps(b: Buffer, grant: nat, g: Gauge)
    requires BufferSound(b)
    ensures var (b', out) := b.GetPkts(grant);
            && BufferSound(b') && SameSetup(b, b') && Booked(g, b, b', out)
            && Weigh(AllBits, out) <= grant
            && (Weigh(AllBits, out) == grant || !b'.HasPkts())
  {
    hide Sound, Signals, Buffer.Fill, Weigh;
    FillBooks(b, grant, g);
    FillBooks(b, grant, AllBits);
  }

  lemma AddPktKeeps(b: Buffer, p: IpPkt, g: Gauge)
    requires BufferSound(b) && p.EcnConsistent() && b.Fits(p)
    ensures var b' := b.AddPkt(p);
            && BufferSound(b') && SameSetup(b, b') && b'.q.aqm == b.q.aqm
            && b'.q.lanes.dropped == b.q.lanes.dropped
            && Waiting(g, b') == Waiting(g, b) + Measure(g, p)
  {
    hide Sound, Buffer.Requeue;
    var b1 := b.(curSize := b.curSize + p.size);
    RequeueBooks(b1, p, g);
    RequeueBooks(b1, p, AllBits);
  }

  lemma PopOldestKeeps(b: Buffer, g: Gauge)
    requires BufferSound(b)
    ensures var (b', r) := b.PopOldest();
            && BufferSound(b') && SameSetup(b, b') && b'.q.aqm == b.q.aqm
            && b'.q.lanes.dropped == b.q.lanes.dropped
            && r.Some? == b.HasPkts() && (r.Some? ==> r == b.PeekOldest())
            && Waiting(g, b') + (if r.Some? then Measure(g, r.value) else 0) == Waiting(g, b)
  {
    hide Sound, DualQ.PopOldest;
    DualPi2Laws.PopOldestKeeps(b.q, g);
    DualPi2Laws.PopOldestKeeps(b.q, AllBits);
  }

  lemma PopAqmDroppedKeeps(b: Buffer, g: Gauge)
    requires BufferSound(b)
    ensures var (b', r) := b.PopAqmDropped();
            && BufferSound(b') && SameSetup(b, b') && b'.q.aqm == b.q.aqm && b'.fifo == b.fifo
            && b'.q.lanes == b.q.lanes.(dropped := b'.q.lanes.dropped)
            && Weigh(g, b'.q.lanes.dropped) + (if r.Some? then Measure(g, r.value) else 0)
               == Weigh(g, b.q.lanes.dropped)
  {
  }

  lemma StepToKeeps(b: Buffer, t: real)
    requires BufferSound(b) && b.q.now <= t
    ensures var b' := b.StepTo(t);
            && BufferSound(b') && b'.fifo == b.fifo && b'.q.lanes == b.q.lanes && b'.q.aqm.log == b.q.aqm.log
            && b'.dual == b.dual && b'.maxSize == b.maxSize && b'.curSize == b.curSize && b'.q.now <= t
  {
    hide DualQ.StepTo, Sound;
    DualPi2Laws.StepToKeeps(b.q, t);
    StepToTime(b.q, t);
  }

  lemma StepToTime(q: DualQ, t: real)
    ensures q.StepTo(t).now == t
  {
    hide Increment;
  }

  // What is handed out is what the history adds to the reports, so nothing in FIFO mode.
  lemma TakeReportKeeps(b: Buffer)
    requires BufferSound(b)
    ensures var (b', stats) := b.TakeReport();
            && BufferSound(b') && SameSetup(b, b') && b'.fifo == b.fifo && b'.q.lanes == b.q.lanes
            && b'.q.aqm.log == b.q.aqm.log && b'.curSize == b.curSize
            && b'.q.aqm.reported == b.q.aqm.reported.Plus(stats) && (!b.dual ==> b'.q == b.q)
  {
    hide Sound;
    DualPi2Laws.TakeReportKeeps(b.q);
  }

  // ----- progress -----

  lemma ServeOneShrinks(q: DualQ)
    requires q.HasPkts()
    ensures var (q', r) := q.ServeOne();
            Weigh(AllBits, q'.lanes.l) + Weigh(AllBits, q'.lanes.c) + (if r.Some? then r.value.size else 1)
            <= Weigh(AllBits, q.lanes.l) + Weigh(AllBits, q.lanes.c)
  {
    hide Aqm.Judge;
  }

  lemma {:induction false} PopNextShrinks(q: DualQ)
    ensures var (q', r) := q.PopNext();
            Weigh(AllBits, q'.lanes.l) + Weigh(AllBits, q'.lanes.c)
            + (if r.Some? then r.value.size else if q.HasPkts() then 1 else 0)
            <= Weigh(AllBits, q.lanes.l) + Weigh(AllBits, q.lanes.c)
    decreases |q.lanes.l| + |q.lanes.c|
  {
    hide DualQ.ServeOne, Weigh;
    if q.HasPkts() {
      ServeOneShrinks(q);
      if q.ServeOne().1.None? {
        PopNextShrinks(q.ServeOne().0);
      }
    }
  }

  lemma EnqueueGrows(q: DualQ, p: IpPkt)
    ensures Weigh(AllBits, q.Enqueue(p).lanes.l) + Weigh(AllBits, q.Enqueue(p).lanes.c)
            == Weigh(AllBits, q.lanes.l) + Weigh(AllBits, q.lanes.c) + p.size
  {
    WeighSnoc(AllBits, q.lanes.l, p);
    WeighSnoc(AllBits, q.lanes.c, p);
  }

  lemma {:induction false} FillShrinks(b: Buffer, bits: nat)
    ensures var b' := b.Fill(bits).0;
            Waiting(AllBits, b') + (if bits > 0 && b.HasPkts() then 1 else 0) <= Waiting(AllBits, b)
    decreases bits
  {
    hide DualQ.PopNext, DualQ.Enqueue;
    if bits > 0 && b.HasPkts() {
      PopNextShrinks(b.q);
      var (b1, next) := b.PopNext();
      if next.Some? {
        if next.value.size <= bits {
          FillShrinks(b1, bits - next.value.size);
        } else {
          var p := Remainder(next.value, bits);
          EnqueueGrows(b1.q, p);
          WeighSnoc(AllBits, b1.fifo, p);
          WeighCons(AllBits, p, b1.fifo);
        }
      }
    }
  }

  /** Each turn of the grant loop with a whole bit to give makes progress on the queued bits. */
  lemma GetPktsShrinks(b: Buffer, grant: nat)
    requires grant > 0 && b.HasPkts()
    ensures Waiting(AllBits, b.GetPkts(grant).0) < Waiting(AllBits, b)
  {
    FillShrinks(b, grant);
  }

  // A tick of the buffer moves only clocks and the controller.
  lemma StepKeepsQueues(b: Buffer, t: real)
    ensures var b' := b.StepTo(t);
            && b'.dual == b.dual && b'.fifo == b.fifo && b'.q.lanes == b.q.lanes && b'.q.aqm.log == b.q.aqm.log
            && b'.curSize == b.curSize && b'.maxSize == b.maxSize
  {
    hide Increment;
  }
}
