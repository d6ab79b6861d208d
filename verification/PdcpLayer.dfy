// The orchestration of one direction of one UE (src/pdcp_layer/pdcp_layer.cpp): ingress, IP buffer,
// retransmission buffer and packet handler, driven by steps, grants and releases.
module PdcpLayer {
  import opened Packets
  import opened DualPi2
  import opened IpBuffer
  import opened Harq
  import opened Capture
  import opened Ipv4Ecn
  import opened CapturedHandler
  import IpBufferLaws

  // The service routine retransmits a block while it has been sent fewer than this many times again.
  const MAX_RTX := 4

  // A block built around the packets of one grant.
  function BlockOf(id: nat, ipT: real, t: real, bhD: real, bhVar: real, pkts: seq<IpPkt>): HarqPkt {
    NewBlock(id, ipT, t, bhD, bhVar).(bits := Weigh(AllBits, pkts), pkts := pkts)
  }

  // The block an AQM victim is reported in; the source leaves its id unset, and nothing reads it.
  function AqmBlock(p: IpPkt, t: real): HarqPkt {
    HarqPkt(0, p.ipT, t, t, 0, p.size, 0.0, 0.0, [p])
  }

  // What one turn of the grant loop decides: go round again, or finish having sent some bits.
  datatype Outcome = Again | Done(sent: nat)

  // The inputs of one grant besides its size: whether this transmission fails, the backhaul jitter
  // drawn on delivery and the acknowledgement delay drawn on a retransmission.
  datatype Radio = Radio(fails: bool, jitter: real, ackDelay: real)

  datatype Layer = Layer(
    buf: Buffer, harq: Harq, ho: Handler, now: real, nextId: nat, budget: real, bhD: real, bhVar: real)
  {
    predicate IsExpired(ipT: real) { ipT < now - budget }

    function Captured(info: Info, payload: seq<Byte>): Layer {
      this.(ho := ho.(store := ho.store.Captured(info, payload)))
    }

    function DrainOne(): Layer
      requires ho.ingress != []
    {
      var p := ho.ingress[0];
      var rest := ho.(ingress := ho.ingress[1..]);
      if buf.Fits(p) then this.(buf := buf.AddPkt(p), ho := rest) else this.(ho := rest.DropIngress(p))
    }

    function DrainIngress(): Layer
      decreases |ho.ingress|
    {
      if ho.ingress == [] then this else DrainOne().DrainIngress()
    }

    // One of the AQM's victims is handed to the packet handler.
    function CollectOne(): Layer
      requires buf.PopAqmDropped().1.Some?
    {
      var (b, victim) := buf.PopAqmDropped();
      this.(buf := b, ho := ho.DropBlock(AqmBlock(victim.value, b.now)))
    }

    function CollectDropped(): Layer
      decreases |buf.q.lanes.dropped|
    {
      if buf.PopAqmDropped().1.None? then this else CollectOne().CollectDropped()
    }

    function DropOldest(): Layer
      requires buf.HasPkts()
    {
      var t := buf.OldestTimestamp();
      var (b, p) := buf.PopOldest();
      this.(buf := b, nextId := nextId + 1,
            ho := ho.DropBlock(BlockOf(nextId, t, now, bhD, bhVar, [p.value])))
    }

    function CleanupIp(): Layer
      decreases |buf.fifo| + |buf.q.lanes.l| + |buf.q.lanes.c|
    {
      if buf.HasPkts() && IsExpired(buf.OldestTimestamp()) then DropOldest().CleanupIp() else this
    }

    function DropExpiredBlock(): Layer
      requires harq.PopOlderThan(now - budget).1.Some?
    {
      var (h, b) := harq.PopOlderThan(now - budget);
      this.(harq := h, ho := ho.DropBlock(b.value))
    }

    function CleanupHarq(): Layer
      decreases |harq.buf|
    {
      if harq.PopOlderThan(now - budget).1.None? then this else DropExpiredBlock().CleanupHarq()
    }

    // A tick up to and including the ingest of new captures.
    function Tick(t: real): Layer {
      this.(now := t, buf := buf.StepTo(t), harq := harq.(now := t), ho := ho.(now := t).Ingest())
    }

    function StepTo(t: real): Layer {
      Tick(t).DrainIngress().CollectDropped().CleanupIp().CleanupHarq()
    }

    // One turn of the loop that serves a grant from the IP buffer.
    function Turn(bits: real, radio: Radio): (Layer, Outcome)
      requires bits > 0.0 && buf.HasPkts()
    {
      var (b, out) := buf.GetPkts(bits.Floor);
      var block := BlockOf(nextId, buf.OldestTimestamp(), now, bhD, bhVar, out);
      var l := this.(buf := b, nextId := nextId + 1).CollectDropped();
      if out == [] then (l, Again)
      else if IsExpired(block.ipT) then (l.(ho := l.ho.DropBlock(block)), Again)
      else if radio.fails then (l.(harq := l.harq.AddPkts(block, radio.ackDelay)), Done(0))
      else (l.(ho := l.ho.Push(block, radio.jitter)), Done(block.bits))
    }

    // A grant strictly between zero and one bit would go round for ever on a non-empty buffer.
    predicate Halts(bits: real) {
      !buf.HasPkts() || bits <= 0.0 || bits >= 1.0
    }

    function ServeNew(bits: real, radio: Radio): (Layer, nat)
      requires Halts(bits)
      decreases IpBufferLaws.Waiting(AllBits, buf)
    {
      if bits <= 0.0 || !buf.HasPkts() then (this, 0)
      else
        TurnShrinks(this, bits, radio);
        var (l, outcome) := Turn(bits, radio);
        if outcome == Again then l.ServeNew(bits, radio) else (l, outcome.sent)
    }

    // The front block of the retransmission buffer takes its turn.
    function ServeAgain(radio: Radio): (Layer, nat)
      requires harq.buf != []
    {
      var (h, b) := harq.GetPkt();
      if radio.fails then
        if b.nTx < MAX_RTX then (this.(harq := h.Queue(b, radio.ackDelay)), 0)
        else (this.(harq := h, ho := ho.DropBlock(b)), 0)
      else (this.(harq := h, ho := ho.Push(b, radio.jitter)), b.bits)
    }

    function HandlePkt(bits: real, radio: Radio): (Layer, nat)
      requires harq.IsPktReady() || Halts(bits)
    {
      if harq.IsPktReady() then ServeAgain(radio) else ServeNew(bits, radio)
    }

    function Release(): Layer { this.(ho := ho.Release()) }

    function Report(): Layer { this.(buf := buf.TakeReport().0) }
  }

  // In FIFO mode, the packets on their way to the radio link, oldest first.
  function Line(l: Layer): seq<IpPkt> { l.buf.fifo + l.ho.ingress }

  lemma {:induction false} CollectKeepsQueues(l: Layer)
    ensures var l' := l.CollectDropped();
            && l' == l.(buf := l'.buf, ho := l'.ho)
            && l'.buf.dual == l.buf.dual && l'.buf.fifo == l.buf.fifo
            && l'.buf.q.lanes.l == l.buf.q.lanes.l && l'.buf.q.lanes.c == l.buf.q.lanes.c
    decreases |l.buf.q.lanes.dropped|
  {
    if l.buf.PopAqmDropped().1.Some? {
      CollectKeepsQueues(l.CollectOne());
    }
  }

  /** Every turn with at least one whole bit to give takes bits out of the queues. */
  lemma TurnShrinks(l: Layer, bits: real, radio: Radio)
    requires bits >= 1.0 && l.buf.HasPkts()
    ensures IpBufferLaws.Waiting(AllBits, l.Turn(bits, radio).0.buf) < IpBufferLaws.Waiting(AllBits, l.buf)
  {
    hide Buffer.GetPkts, Layer.CollectDropped;
    IpBufferLaws.GetPktsShrinks(l.buf, bits.Floor);
    CollectKeepsQueues(l.(buf := l.buf.GetPkts(bits.Floor).0, nextId := l.nextId + 1));
  }

  lemma PopOldestFindsOne(b: Buffer)
    requires b.HasPkts()
    ensures b.PopOldest().1.Some?
  {
  }

  lemma DropOldestShrinks(l: Layer)
    requires l.buf.HasPkts()
    ensures var b, b' := l.buf, l.DropOldest().buf;
            |b'.fifo| + |b'.q.lanes.l| + |b'.q.lanes.c| < |b.fifo| + |b.q.lanes.l| + |b.q.lanes.c|
  {
    hide Handler.DropBlock;
  }

  class PdcpLayer {
    const ipBuffer: IpBuffer
    const harqBuffer: HarqHandler
    const packetH: CapturedPacketHandler
    const pktDelayBudgetS: real
    const bhD: real
    const bhDVar: real
    var currentT: real
    var currentId: nat

    ghost function State(): Layer
      reads this, ipBuffer, ipBuffer.queue, harqBuffer, packetH, packetH.capture
    {
      Layer(ipBuffer.State(), harqBuffer.State(), packetH.State(), currentT, currentId,
            pktDelayBudgetS, bhD, bhDVar)
    }

    constructor (ipBuffer: IpBuffer, harqBuffer: HarqHandler, packetH: CapturedPacketHandler,
                 budget: real, bhD: real, bhDVar: real)
      ensures State() == Layer(ipBuffer.State(), harqBuffer.State(), packetH.State(), 0.0, 0, budget, bhD, bhDVar)
    {
      this.ipBuffer, this.harqBuffer, this.packetH := ipBuffer, harqBuffer, packetH;
      pktDelayBudgetS, this.bhD, this.bhDVar := budget, bhD, bhDVar;
      currentT, currentId := 0.0, 0;
    }

    method StepTo(t: real)
      modifies this, ipBuffer, ipBuffer.queue, harqBuffer, packetH, packetH.capture
      ensures State() == old(State()).StepTo(t)
    {
      currentT := t;
      ipBuffer.StepTo(t);
      harqBuffer.StepTo(t);
      packetH.StepTo(t);
      packetH.Ingest();
      assert State() == old(State()).Tick(t);
      DrainIngress();
      CollectDropped();
      CleanupExpiredIpPkts();
      CleanupExpiredHarqPkts();
    }

    method DrainIngress()
      modifies ipBuffer, ipBuffer.queue, packetH
      ensures State() == old(State()).DrainIngress()
    {
      hide Handler.DropIngress, Buffer.AddPkt;
      while packetH.ingressPkts != []
        invariant State().DrainIngress() == old(State()).DrainIngress()
        decreases |packetH.ingressPkts|
      {
        var pkt := packetH.PopIngressPkt();
        var added := ipBuffer.AddPkt(pkt);
        if !added {
          packetH.DropIngressPkt(pkt);
        }
      }
    }

    method CollectDropped()
      modifies ipBuffer, ipBuffer.queue, packetH
      ensures State() == old(State()).CollectDropped()
    {
      hide Handler.DropBlock;
      while true
        invariant State().CollectDropped() == old(State()).CollectDropped()
        decreases |ipBuffer.queue.droppedQueue|
      {
        var victim := ipBuffer.PopAqmDropped();
        if victim.None? {
          break;
        }
        packetH.DropBlock(AqmBlock(victim.value, ipBuffer.currentT));
      }
    }

    // The oldest packet leaves the buffer for `drop`, in a block of its own.
    method DropOldest()
      requires State().buf.HasPkts()
      modifies this`currentId, ipBuffer, ipBuffer.queue, packetH
      ensures State() == old(State()).DropOldest()
    {
      hide Handler.DropBlock, BlockOf, Buffer.PopOldest, Buffer.OldestTimestamp;
      var oldest := ipBuffer.OldestTimestamp();
      var id := currentId;
      currentId := currentId + 1;
      PopOldestFindsOne(State().buf);
      var pkt := ipBuffer.PopOldest();
      packetH.DropBlock(BlockOf(id, oldest, currentT, bhD, bhDVar, [pkt.value]));
    }

    method CleanupExpiredIpPkts()
      modifies this, ipBuffer, ipBuffer.queue, packetH
      ensures State() == old(State()).CleanupIp()
    {
      hide Layer.DropOldest, Buffer.OldestTimestamp;
      while true
        invariant State().CleanupIp() == old(State()).CleanupIp()
        decreases |State().buf.fifo| + |State().buf.q.lanes.l| + |State().buf.q.lanes.c|
      {
        var more := ipBuffer.HasPkts();
        if !more {
          break;
        }
        var oldest := ipBuffer.OldestTimestamp();
        if oldest >= currentT - pktDelayBudgetS {
          break;
        }
        DropOldestShrinks(State());
        DropOldest();
      }
    }

    method CleanupExpiredHarqPkts()
      modifies harqBuffer, packetH
      ensures State() == old(State()).CleanupHarq()
    {
      hide Handler.DropBlock, Harq.PopOlderThan;
      while true
        invariant State().CleanupHarq() == old(State()).CleanupHarq()
        decreases |harqBuffer.harqBuffer|
      {
        var block := harqBuffer.PopPktOlderThan(currentT - pktDelayBudgetS);
        if block.None? {
          break;
        }
        packetH.DropBlock(block.value);
      }
    }

    method Turn(bits: real, radio: Radio) returns (outcome: Outcome)
      requires bits > 0.0 && State().buf.HasPkts()
      modifies this, ipBuffer, ipBuffer.queue, harqBuffer, packetH
      ensures (State(), outcome) == old(State()).Turn(bits, radio)
    {
      hide Buffer.GetPkts, Handler.Push, Handler.DropBlock, Buffer.OldestTimestamp, Layer.CollectDropped, Weigh,
           Buffer.HasPkts;
      var oldest := ipBuffer.OldestTimestamp();
      var id := currentId;
      currentId := currentId + 1;
      var out := ipBuffer.GetPkts(bits.Floor);
      var block := BlockOf(id, oldest, currentT, bhD, bhDVar, out);
      CollectDropped();
      CollectKeepsQueues(old(State()).(buf := old(State()).buf.GetPkts(bits.Floor).0, nextId := id + 1));
      if out == [] {
        return Again;
      }
      if oldest < currentT - pktDelayBudgetS {
        packetH.DropBlock(block);
        return Again;
      }
      if radio.fails {
        harqBuffer.AddPkts(block, radio.ackDelay);
        return Done(0);
      }
      packetH.Push(block, radio.jitter);
      return Done(block.bits);
    }

    method HandlePkt(bits: real, radio: Radio) returns (sent: nat)
      requires State().harq.IsPktReady() || State().Halts(bits)
      modifies this, ipBuffer, ipBuffer.queue, harqBuffer, packetH
      ensures (State(), sent) == old(State()).HandlePkt(bits, radio)
    {
      hide Layer.Turn, Harq.Queue, Handler.Push, Handler.DropBlock;
      var ready := harqBuffer.IsPktReady();
      if !ready {
        var more := ipBuffer.HasPkts();
        while bits > 0.0 && more
          invariant more == State().buf.HasPkts()
          invariant State().Halts(bits) && State().ServeNew(bits, radio) == old(State()).ServeNew(bits, radio)
          decreases IpBufferLaws.Waiting(AllBits, State().buf)
        {
          TurnShrinks(State(), bits, radio);
          var outcome := Turn(bits, radio);
          if outcome != Again {
            return outcome.sent;
          }
          more := ipBuffer.HasPkts();
        }
        return 0;
      }
      var block := harqBuffer.GetPkt();
      if radio.fails {
        if block.nTx < MAX_RTX {
          harqBuffer.Queue(block, radio.ackDelay);
        } else {
          packetH.DropBlock(block);
        }
        return 0;
      }
      packetH.Push(block, radio.jitter);
      return block.bits;
    }

    method Release() returns (bits: nat)
      modifies packetH, packetH.capture
      ensures State() == old(State()).Release()
      ensures bits == AcceptedBits(packetH.verdicts) - AcceptedBits(old(packetH.verdicts))
    {
      bits := packetH.Release();
    }

    method GetL4sIntervalStats() returns (stats: AqmStats)
      modifies ipBuffer.queue
      ensures State() == old(State()).Report() && stats == old(State()).buf.TakeReport().1
    {
      stats := ipBuffer.TakeReport();
    }
  }
}
