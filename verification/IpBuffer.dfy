// The IP buffer (src/pdcp_layer/ip_buffer.cpp): admission, fragmentation into a grant, and
// exact occupancy, over either a plain FIFO or the dual queue.
module IpBuffer {
  import opened Packets
  import opened DualPi2

  /** `dual` selects the backend, as the L4S configuration does; the other one stays unused. */
  datatype Buffer = Buffer(dual: bool, fifo: seq<IpPkt>, q: DualQ, now: real, maxSize: int, curSize: int) {
    predicate HasPkts() { if dual then q.HasPkts() else fifo != [] }

    function PeekOldest(): Option<IpPkt> {
      if dual then q.PeekOldest() else if fifo == [] then None else Some(fifo[0])
    }

    function OldestTimestamp(): real {
      if PeekOldest().Some? then PeekOldest().value.currentT else now
    }

    function PopNext(): (Buffer, Option<IpPkt>) {
      if dual then var (q', r) := q.PopNext(); (this.(q := q'), r)
      else if fifo == [] then (this, None)
      else (this.(fifo := fifo[1..]), Some(fifo[0]))
    }

    // Despite its name it puts a whole packet at the FIFO's tail and only a fragment at its front;
    // in the dual queue everything goes to a tail.
    function Requeue(p: IpPkt): Buffer {
      if dual then this.(q := q.Enqueue(p))
      else if p.size <= p.originalSize && p.isFragment then this.(fifo := [p] + fifo)
      else this.(fifo := fifo + [p])
    }

    predicate Fits(p: IpPkt) { curSize + p.size <= maxSize }

    function AddPkt(p: IpPkt): Buffer
      requires Fits(p)
    {
      this.(curSize := curSize + p.size).Requeue(p)
    }

    // The loop that packs packets into a grant of whole bits, cutting the last one if needed.
    function Fill(bits: nat): (r: (Buffer, seq<IpPkt>))
      decreases bits
    {
      if bits == 0 || !HasPkts() then (this, [])
      else
        var (b, next) := PopNext();
        if next.None? then (b, [])
        else if next.value.size <= bits then
          var (b', rest) := b.Fill(bits - next.value.size);
          (b', [Whole(next.value)] + rest)
        else
          (b.Requeue(Remainder(next.value, bits)), [Fragment(next.value, bits)])
    }

    function GetPkts(grant: nat): (Buffer, seq<IpPkt>) {
      var (b, out) := Fill(grant);
      (b.(curSize := AtLeastZero(b.curSize - Weigh(AllBits, out))), out)
    }

    function PopOldest(): (Buffer, Option<IpPkt>) {
      if dual then
        var (q', r) := q.PopOldest();
        (this.(q := q', curSize := if r.Some? then AtLeastZero(curSize - r.value.size) else curSize), r)
      else if fifo == [] then (this, None)
      else (this.(fifo := fifo[1..], curSize := AtLeastZero(curSize - fifo[0].size)), Some(fifo[0]))
    }

    function PopAqmDropped(): (Buffer, Option<IpPkt>) {
      if !dual then (this, None)
      else
        var (q', r) := q.PopDropped();
        (this.(q := q', curSize := if r.Some? then AtLeastZero(curSize - r.value.size) else curSize), r)
    }

    function StepTo(t: real): Buffer {
      this.(now := t, q := if dual then q.StepTo(t) else q)
    }

    function TakeReport(): (Buffer, AqmStats) {
      if !dual then (this, NO_STATS)
      else var (q', stats) := q.TakeReport(); (this.(q := q'), stats)
    }
  }

  // A packet that leaves the buffer complete: whole, or the last piece of a packet cut before.
  function Whole(p: IpPkt): IpPkt {
    p.(isFragment := false, fragsCreated := p.fragsCreated + 1)
  }

  function Fragment(p: IpPkt, bits: Bits): IpPkt {
    p.(size := bits, isFragment := true, fragsCreated := p.fragsCreated + 1)
  }

  function Remainder(p: IpPkt, bits: nat): IpPkt
    requires bits < p.size
  {
    p.(size := p.size - bits, isFragment := true, fragsCreated := p.fragsCreated + 1)
  }

  lemma EmptyWeighsNothing()
    ensures Weigh(AllBits, []) == 0
  {
  }

  lemma AppendWhole(out: seq<IpPkt>, p: IpPkt)
    ensures Weigh(AllBits, out + [Whole(p)]) == Weigh(AllBits, out) + p.size
  {
    WeighSnoc(AllBits, out, Whole(p));
  }

  lemma AppendFragment(out: seq<IpPkt>, p: IpPkt, bits: Bits)
    ensures Weigh(AllBits, out + [Fragment(p, bits)]) == Weigh(AllBits, out) + bits
  {
    WeighSnoc(AllBits, out, Fragment(p, bits));
  }

  // The capacity in bits every buffer is built with.
  const MAX_SIZE := 65500 * 8 * 20000

  function EmptyBuffer(dual: bool, maxSize: int, cfg: Config, unitDist: nat -> real): Buffer {
    Buffer(dual, [], EmptyQueue(cfg, unitDist), 0.0, maxSize, 0)
  }

  class IpBuffer {
    const dual: bool
    const maxSize: int
    const queue: DualPi2Queue
    var pktList: seq<IpPkt>
    var currentT: real
    var currentSize: int

    ghost function State(): Buffer
      reads this, queue
    {
      Buffer(dual, pktList, queue.State(), currentT, maxSize, currentSize)
    }

    constructor (dual: bool, maxSize: int, cfg: Config, unitDist: nat -> real)
      ensures State() == EmptyBuffer(dual, maxSize, cfg, unitDist) && fresh(queue)
    {
      this.dual, this.maxSize := dual, maxSize;
      queue := new DualPi2Queue(cfg, unitDist);
      pktList, currentT, currentSize := [], 0.0, 0;
    }

    method HasPkts() returns (r: bool)
      ensures r == State().HasPkts()
    {
      if dual {
        r := queue.lQueue != [] || queue.cQueue != [];
      } else {
        r := pktList != [];
      }
    }

    method OldestTimestamp() returns (t: real)
      ensures t == State().OldestTimestamp()
    {
      if dual {
        if queue.lQueue == [] && queue.cQueue == [] {
          return currentT;
        }
        return (if OldestIsL4s(queue.lQueue, queue.cQueue) then queue.lQueue[0] else queue.cQueue[0]).currentT;
      }
      return if pktList == [] then currentT else pktList[0].currentT;
    }

    method PopNext() returns (pkt: Option<IpPkt>)
      modifies this`pktList, queue
      ensures (State(), pkt) == old(State()).PopNext()
    {
      if dual {
        pkt := queue.PopNext();
      } else if pktList == [] {
        pkt := None;
      } else {
        pkt := Some(pktList[0]);
        pktList := pktList[1..];
      }
    }

    method Requeue(pkt: IpPkt)
      modifies this`pktList, queue
      ensures State() == old(State()).Requeue(pkt)
    {
      if dual {
        queue.Enqueue(pkt);
      } else if pkt.size <= pkt.originalSize && pkt.isFragment {
        pktList := [pkt] + pktList;
      } else {
        pktList := pktList + [pkt];
      }
    }

    method AddPkt(pkt: IpPkt) returns (ok: bool)
      modifies this, queue
      ensures ok == old(State()).Fits(pkt)
      ensures State() == if ok then old(State()).AddPkt(pkt) else old(State())
    {
      if currentSize + pkt.size > maxSize {
        return false;
      }
      currentSize := currentSize + pkt.size;
      Requeue(pkt);
      return true;
    }

    // The packing loop; `sent` is the running total the source keeps in the block.
    method Fill(grant: nat) returns (out: seq<IpPkt>, sent: nat)
      modifies this`pktList, queue
      ensures (State(), out) == old(State()).Fill(grant)
      ensures sent == Weigh(AllBits, out)
    {
      hide Buffer.HasPkts, Buffer.PopNext, Buffer.Requeue, Whole, Fragment, Remainder, Weigh;
      var bits: nat := grant;
      out, sent := [], 0;
      EmptyWeighsNothing();
      ghost var target := old(State()).Fill(grant);
      assert [] + target.1 == target.1;
      while bits > 0
        invariant target == (State().Fill(bits).0, out + State().Fill(bits).1)
        invariant sent == Weigh(AllBits, out)
        decreases bits
      {
        var more := HasPkts();
        if !more {
          break;
        }
        ghost var before := State().Fill(bits);
        var next := PopNext();
        if next.None? {
          assert out + [] == out;
          return;
        }
        var pkt := next.value;
        if bits >= pkt.size {
          AppendWhole(out, pkt);
          sent := sent + pkt.size;
          bits := bits - pkt.size;
          assert before == (State().Fill(bits).0, [Whole(pkt)] + State().Fill(bits).1);
          assert out + ([Whole(pkt)] + State().Fill(bits).1) == out + [Whole(pkt)] + State().Fill(bits).1;
          out := out + [Whole(pkt)];
        } else {
          AppendFragment(out, pkt, bits);
          sent := sent + bits;
          Requeue(Remainder(pkt, bits));
          assert before == (State(), [Fragment(pkt, bits)]);
          out := out + [Fragment(pkt, bits)];
          bits := 0;
          assert out + State().Fill(0).1 == out;
        }
      }
      assert State().Fill(bits) == (State(), []);
      assert out + [] == out;
    }

    method GetPkts(grant: nat) returns (out: seq<IpPkt>)
      modifies this, queue
      ensures (State(), out) == old(State()).GetPkts(grant)
    {
      hide Buffer.Fill;
      var sent;
      out, sent := Fill(grant);
      currentSize := currentSize - sent;
      if currentSize < 0 {
        currentSize := 0;
      }
    }

    method PopOldest() returns (pkt: Option<IpPkt>)
      modifies this, queue
      ensures (State(), pkt) == old(State()).PopOldest()
    {
      if dual {
        pkt := queue.PopOldest();
      } else if pktList == [] {
        pkt := None;
      } else {
        pkt := Some(pktList[0]);
        pktList := pktList[1..];
      }
      if pkt.Some? {
        currentSize := currentSize - pkt.value.size;
        if currentSize < 0 {
          currentSize := 0;
        }
      }
    }

    method PopAqmDropped() returns (pkt: Option<IpPkt>)
      modifies this, queue
      ensures (State(), pkt) == old(State()).PopAqmDropped()
    {
      if !dual {
        return None;
      }
      pkt := queue.PopDropped();
      if pkt.Some? {
        currentSize := currentSize - pkt.value.size;
        if currentSize < 0 {
          currentSize := 0;
        }
      }
    }

    method StepTo(t: real)
      modifies this, queue
      ensures State() == old(State()).StepTo(t)
    {
      currentT := t;
      if dual {
        queue.StepTo(t);
      }
    }

    method TakeReport() returns (stats: AqmStats)
      modifies queue
      ensures (State(), stats) == old(State()).TakeReport()
    {
      if !dual {
        return NO_STATS;
      }
      stats := queue.GetIntervalStats();
    }
  }
}
