// What every step of the pipeline keeps: each packet's bits are all accounted for until its one verdict, it is
// congestion-signalled at most once, and the payload store holds exactly the packets without a verdict.
module PdcpLaws {
  import opened Packets
  import opened DualPi2Laws
  import opened IpBuffer
  import opened IpBufferLaws
  import opened Harq
  import HarqLaws
  import opened Ipv4Ecn
  import opened Capture
  import opened CapturedHandler
  import opened CapturedHandlerLaws
  import opened IdentityLaws
  import opened PdcpLayer
  import opened PdcpInduction

  // ----- the books -----

  // Everything of a packet the pipeline still holds: not ingested, ingress, buffer and AQM victims,
  // retransmissions, reassembly.
  function Live(g: Gauge, l: Layer): nat {
    WeighInfos(g, l.ho.store.captured) + Weigh(g, l.ho.ingress) + Held(g, l.buf)
    + WeighBlocks(g, l.harq.buf) + Weigh(g, l.ho.out)
  }

  // What the AQM may still meet.
  function Pending(g: Gauge, l: Layer): nat {
    WeighInfos(g, l.ho.store.captured) + Weigh(g, l.ho.ingress) + Waiting(g, l.buf)
  }

  function CapturedBits(l: Layer, u: nat): nat {
    if u in l.ho.store.seen then l.ho.store.seen[u].bytes * 8 else 0
  }

  /** For one packet: the bits still held plus the bits told are the bits captured; and its congestion
      signals plus its unmarked pending entries are at most one. */
  ghost predicate Books(l: Layer, u: nat) {
    && Live(BitsOf(u), l) + Told(BitsOf(u), l.ho.verdicts) == CapturedBits(l, u)
    && Signals(l.buf.q.aqm.log, u) + Pending(Unmarked(u), l) <= (if u in l.ho.store.seen then 1 else 0)
  }

  ghost predicate BlocksGenuine(s: seq<HarqPkt>, seen: map<nat, Info>) {
    forall i :: 0 <= i < |s| ==> AllGenuine(s[i].pkts, seen)
  }

  ghost predicate HandlerShape(h: Handler) {
    && AllGenuine(h.ingress, h.store.seen) && AllGenuine(h.out, h.store.seen) && Recorded(h.store)
    && h.store.payloads.Keys == h.store.seen.Keys - ToldUids(h.verdicts)
    && h.store.received.Keys == h.store.seen.Keys && Loyal(h.store.payloads, h.store.received, h.verdicts)
    && (forall v :: v in h.verdicts ==> Settled(v, h.store.seen))
    && InSequence(h)
  }

  ghost predicate Shape(l: Layer) {
    && BufferSound(l.buf) && l.buf.q.now <= l.now
    && BufferGenuine(l.buf, l.ho.store.seen)
    && BlocksGenuine(l.harq.buf, l.ho.store.seen)
    && HandlerShape(l.ho)
  }

  // ----- one operation at a time -----

  lemma MoreSeen(s: seq<IpPkt>, seen: map<nat, Info>, info: Info)
    requires AllGenuine(s, seen) && info.uid !in seen
    ensures AllGenuine(s, seen[info.uid := info])
  {
    hide IpPkt.EcnConsistent;
  }

  lemma CapturedShape(h: Handler, info: Info, payload: seq<Byte>)
    requires HandlerShape(h) && info.uid !in h.store.seen
    ensures HandlerShape(h.(store := h.store.Captured(info, payload)))
  {
    hide Loyal, AllGenuine, IpPkt.EcnConsistent;
    ToldUidsSeen(h);
    MoreSeen(h.ingress, h.store.seen, info);
    MoreSeen(h.out, h.store.seen, info);
    CapturedStaysLoyal(h.store, h.verdicts, info, payload);
  }

  lemma CapturedKeeps(l: Layer, info: Info, payload: seq<Byte>, u: nat)
    requires Shape(l) && Books(l, u) && info.uid !in l.ho.store.seen
    ensures Shape(l.Captured(info, payload)) && Books(l.Captured(info, payload), u)
  {
    hide BufferSound, Held, Waiting, Signals, Weigh, WeighBlocks, Told, AllGenuine, HandlerShape;
    WeighInfosSnoc(BitsOf(u), l.ho.store.captured, info);
    WeighInfosSnoc(Unmarked(u), l.ho.store.captured, info);
    CapturedShape(l.ho, info, payload);
    MoreSeen(l.buf.fifo, l.ho.store.seen, info);
    MoreSeen(l.buf.q.lanes.l, l.ho.store.seen, info);
    MoreSeen(l.buf.q.lanes.c, l.ho.store.seen, info);
    MoreSeen(l.buf.q.lanes.dropped, l.ho.store.seen, info);
    forall i | 0 <= i < |l.harq.buf|
      ensures AllGenuine(l.harq.buf[i].pkts, l.ho.store.seen[info.uid := info])
    {
      MoreSeen(l.harq.buf[i].pkts, l.ho.store.seen, info);
    }
  }

  lemma ToldUidsSeen(h: Handler)
    requires HandlerShape(h)
    ensures ToldUids(h.verdicts) <= h.store.seen.Keys
  {
  }

  lemma TickKeeps(l: Layer, t: real, u: nat)
    requires Shape(l) && Books(l, u) && l.now <= t
    ensures Shape(l.Tick(t)) && Books(l.Tick(t), u)
  {
    hide BufferSound, Signals, Weigh, WeighBlocks, Told, Genuine, Settled, Buffer.StepTo, Handler.Ingest, Loyal;
    IpBufferLaws.StepToKeeps(l.buf, t);
    IngestKeeps(l.ho.(now := t), BitsOf(u));
    IngestKeeps(l.ho.(now := t), Unmarked(u));
  }

  lemma DrainOneKeeps(l: Layer, u: nat)
    requires Shape(l) && Books(l, u) && l.ho.ingress != []
    ensures Shape(l.DrainOne()) && Books(l.DrainOne(), u)
  {
    hide BufferSound, Signals, WeighBlocks, WeighInfos, Told, Genuine, Settled, Buffer.AddPkt, Handler.DropIngress,
         BufferGenuine;
    var p := l.ho.ingress[0];
    assert Genuine(p, l.ho.store.seen);
    GenuineIsConsistent(p, l.ho.store.seen);
    if l.buf.Fits(p) {
      AddPktKeeps(l.buf, p, BitsOf(u));
      AddPktKeeps(l.buf, p, Unmarked(u));
      OtherOperationsGenuine(l.buf, p, 0.0, l.ho.store.seen);
    } else {
      DropIngressKeeps(l.ho.(ingress := l.ho.ingress[1..]), p, BitsOf(u));
    }
  }

  lemma GenuineIsConsistent(p: IpPkt, seen: map<nat, Info>)
    requires Genuine(p, seen)
    ensures p.EcnConsistent()
  {
  }

  // Handing a block to `drop` moves its bits to the reassembly list.
  lemma DropMoves(h: Handler, b: HarqPkt, u: nat)
    requires HandlerShape(h) && AllGenuine(b.pkts, h.store.seen)
    ensures var h' := h.DropBlock(b);
            h' == h.(out := h'.out) && HandlerShape(h')
            && Weigh(BitsOf(u), h'.out) == Weigh(BitsOf(u), h.out) + Weigh(BitsOf(u), b.pkts)
  {
    hide Handler.DropBlock, Weigh, Settled, Genuine;
    DropBlockKeeps(h, b, BitsOf(u));
  }

  lemma PushMoves(h: Handler, b: HarqPkt, jitter: real, u: nat)
    requires HandlerShape(h) && AllGenuine(b.pkts, h.store.seen)
    ensures var h' := h.Push(b, jitter);
            h' == h.(out := h'.out, delivered := h'.delivered) && HandlerShape(h')
            && Weigh(BitsOf(u), h'.out) == Weigh(BitsOf(u), h.out) + Weigh(BitsOf(u), b.pkts)
  {
    hide Handler.Push, Weigh, Settled, Genuine;
    PushKeeps(h, b, jitter, BitsOf(u));
  }

  lemma DropOldestKeeps(l: Layer, u: nat)
    requires Shape(l) && Books(l, u) && l.buf.HasPkts()
    ensures Shape(l.DropOldest()) && Books(l.DropOldest(), u)
  {
    hide BufferSound, Signals, WeighBlocks, WeighInfos, Told, Genuine, Settled, Handler.DropBlock,
         BufferGenuine, HandlerShape, Buffer.PopOldest;
    IpBufferLaws.PopOldestKeeps(l.buf, BitsOf(u));
    IpBufferLaws.PopOldestKeeps(l.buf, Unmarked(u));
    var p := l.buf.PopOldest().1.value;
    OtherOperationsGenuine(l.buf, p, 0.0, l.ho.store.seen);
    DropMoves(l.ho, BlockOf(l.nextId, l.buf.OldestTimestamp(), l.now, l.bhD, l.bhVar, [p]), u);
  }

  // Taking one block out of the retransmission buffer, and putting one in.
  lemma BlockOut(s: seq<HarqPkt>, i: nat, g: Gauge, seen: map<nat, Info>)
    requires i < |s| && BlocksGenuine(s, seen)
    ensures WeighBlocks(g, s[..i] + s[i + 1..]) + Weigh(g, s[i].pkts) == WeighBlocks(g, s)
    ensures BlocksGenuine(s[..i] + s[i + 1..], seen) && AllGenuine(s[i].pkts, seen)
  {
    BlocksWithout(g, s, i);
    hide AllGenuine;
    var rest := s[..i] + s[i + 1..];
    forall j | 0 <= j < |rest|
      ensures AllGenuine(rest[j].pkts, seen)
    {
      assert rest[j] == s[if j < i then j else j + 1];
    }
  }

  lemma BlockIn(s: seq<HarqPkt>, b: HarqPkt, g: Gauge, seen: map<nat, Info>)
    requires BlocksGenuine(s, seen) && AllGenuine(b.pkts, seen)
    ensures WeighBlocks(g, s + [b]) == WeighBlocks(g, s) + Weigh(g, b.pkts)
    ensures BlocksGenuine(s + [b], seen)
  {
    BlocksSnoc(g, s, b);
  }

  lemma DropExpiredBlockKeeps(l: Layer, u: nat)
    requires Shape(l) && Books(l, u) && LateBlock(l)
    ensures Shape(l.DropExpiredBlock()) && Books(l.DropExpiredBlock(), u)
  {
    hide BufferSound, Signals, WeighBlocks, Weigh, WeighInfos, Told, AllGenuine, Settled, Handler.DropBlock,
         BufferGenuine, BlocksGenuine, HandlerShape;
    var limit := l.now - l.budget;
    BlockOut(l.harq.buf, FirstOlder(l.harq.buf, limit), BitsOf(u), l.ho.store.seen);
    DropMoves(l.ho, l.harq.PopOlderThan(limit).1.value, u);
  }

  // ----- grants -----

  /** The books while a block of just-granted packets is in nobody's hands yet. */
  ghost predicate BooksInFlight(l: Layer, u: nat, flight: seq<IpPkt>) {
    && Live(BitsOf(u), l) + Weigh(BitsOf(u), flight) + Told(BitsOf(u), l.ho.verdicts) == CapturedBits(l, u)
    && Signals(l.buf.q.aqm.log, u) + Pending(Unmarked(u), l) <= (if u in l.ho.store.seen then 1 else 0)
  }

  lemma GrantTaken(l: Layer, grant: nat, u: nat)
    requires Shape(l) && Books(l, u)
    ensures var (b, out) := l.buf.GetPkts(grant);
            var l' := l.(buf := b, nextId := l.nextId + 1);
            Shape(l') && BooksInFlight(l', u, out) && AllGenuine(out, l.ho.store.seen)
  {
    hide BufferSound, Signals, WeighBlocks, WeighInfos, Told, AllGenuine, BufferGenuine, HandlerShape,
         BlocksGenuine, Buffer.GetPkts;
    GetPktsKeeps(l.buf, grant, BitsOf(u));
    GetPktsKeeps(l.buf, grant, Unmarked(u));
    GetPktsGenuine(l.buf, grant, l.ho.store.seen);
  }

  lemma CollectOneInFlight(l: Layer, u: nat, flight: seq<IpPkt>)
    requires Shape(l) && BooksInFlight(l, u, flight) && l.buf.PopAqmDropped().1.Some?
    ensures var l' := l.CollectOne(); Shape(l') && BooksInFlight(l', u, flight) && l'.ho.store == l.ho.store
  {
    hide BufferSound, Signals, WeighBlocks, WeighInfos, Told, Genuine, Settled, Handler.DropBlock,
         BufferGenuine, HandlerShape, Buffer.PopAqmDropped;
    var (b, victim) := l.buf.PopAqmDropped();
    PopAqmDroppedKeeps(l.buf, BitsOf(u));
    PopAqmDroppedKeeps(l.buf, Unmarked(u));
    OtherOperationsGenuine(l.buf, victim.value, 0.0, l.ho.store.seen);
    DropMoves(l.ho, AqmBlock(victim.value, b.now), u);
  }

  lemma CollectInFlight(l: Layer, u: nat, flight: seq<IpPkt>)
    requires Shape(l) && BooksInFlight(l, u, flight)
    ensures var l' := l.CollectDropped(); Shape(l') && BooksInFlight(l', u, flight) && l'.ho.store == l.ho.store
  {
    hide Shape, BooksInFlight, Layer.CollectOne, Layer.CollectDropped;
    var inv := (k: Layer) => Shape(k) && BooksInFlight(k, u, flight) && k.ho.store == l.ho.store;
    forall k: Layer | inv(k) && k.buf.PopAqmDropped().1.Some?
      ensures inv(k.CollectOne())
    {
      CollectOneInFlight(k, u, flight);
    }
    CollectInduction(l, inv);
  }

  // Wherever the block goes (dropped, retransmission buffer, delivered), its bits land there.
  lemma BlockLands(l: Layer, block: HarqPkt, radio: Radio, u: nat)
    requires Shape(l) && BooksInFlight(l, u, block.pkts) && AllGenuine(block.pkts, l.ho.store.seen)
    ensures var dropped := l.(ho := l.ho.DropBlock(block)); Shape(dropped) && Books(dropped, u)
    ensures var queued := l.(harq := l.harq.AddPkts(block, radio.ackDelay)); Shape(queued) && Books(queued, u)
    ensures var pushed := l.(ho := l.ho.Push(block, radio.jitter)); Shape(pushed) && Books(pushed, u)
  {
    hide BufferSound, Signals, WeighBlocks, Weigh, WeighInfos, Told, AllGenuine, BufferGenuine, HandlerShape,
         BlocksGenuine, Handler.DropBlock, Handler.Push, Held, Waiting;
    DropMoves(l.ho, block, u);
    PushMoves(l.ho, block, radio.jitter, u);
    BlockIn(l.harq.buf, Delayed(block, radio.ackDelay), BitsOf(u), l.ho.store.seen);
  }

  lemma TurnKeeps(l: Layer, bits: real, radio: Radio, u: nat)
    requires Shape(l) && Books(l, u) && bits > 0.0 && l.buf.HasPkts()
    ensures Shape(l.Turn(bits, radio).0) && Books(l.Turn(bits, radio).0, u)
  {
    hide Shape, Live, Pending, Told, Signals, AllGenuine, Buffer.GetPkts, Layer.CollectDropped, Buffer.HasPkts,
         Handler.DropBlock, Handler.Push, Harq.AddPkts, Buffer.OldestTimestamp;
    var (b, out) := l.buf.GetPkts(bits.Floor);
    GrantTaken(l, bits.Floor, u);
    var l1 := l.(buf := b, nextId := l.nextId + 1);
    CollectInFlight(l1, u, out);
    CollectKeepsQueues(l1);
    BlockLands(l1.CollectDropped(), BlockOf(l.nextId, l.buf.OldestTimestamp(), l.now, l.bhD, l.bhVar, out), radio, u);
  }

  lemma ServeNewKeeps(l: Layer, bits: real, radio: Radio, u: nat)
    requires Shape(l) && Books(l, u) && l.Halts(bits)
    ensures Shape(l.ServeNew(bits, radio).0) && Books(l.ServeNew(bits, radio).0, u)
  {
    hide Shape, Books, Layer.Turn, Layer.ServeNew;
    var inv := (k: Layer) => Shape(k) && Books(k, u);
    forall k: Layer | inv(k) && bits > 0.0 && k.buf.HasPkts()
      ensures inv(k.Turn(bits, radio).0)
    {
      TurnKeeps(k, bits, radio, u);
    }
    GrantInduction(l, bits, radio, inv);
  }

  lemma ServeAgainKeeps(l: Layer, radio: Radio, u: nat)
    requires Shape(l) && Books(l, u) && l.harq.buf != []
    ensures Shape(l.ServeAgain(radio).0) && Books(l.ServeAgain(radio).0, u)
  {
    hide BufferSound, Signals, WeighBlocks, Weigh, WeighInfos, Told, AllGenuine, BufferGenuine, HandlerShape,
         BlocksGenuine, Handler.DropBlock, Handler.Push, Held, Waiting;
    var (h, b) := l.harq.GetPkt();
    BlockOut(l.harq.buf, 0, BitsOf(u), l.ho.store.seen);
    assert l.harq.buf[..0] + l.harq.buf[1..] == h.buf;
    BlockLands(l.(harq := h), b, radio, u);
    BlockLands(l.(harq := h), b.(nTx := b.nTx + 1), radio, u);
  }

  // ----- a tick -----

  lemma CollectOneKeeps(l: Layer, u: nat)
    requires Shape(l) && Books(l, u) && l.buf.PopAqmDropped().1.Some?
    ensures Shape(l.CollectOne()) && Books(l.CollectOne(), u)
  {
    hide Shape, Live, Pending, Signals, Told, Layer.CollectOne;
    CollectOneInFlight(l, u, []);
  }

  lemma StepToKeeps(l: Layer, t: real, u: nat)
    requires Shape(l) && Books(l, u) && l.now <= t
    ensures Shape(l.StepTo(t)) && Books(l.StepTo(t), u)
  {
    hide Shape, Books, Layer.Tick, Layer.StepTo, Layer.DrainOne, Layer.CollectOne, Layer.DropOldest,
         Layer.DropExpiredBlock, Harq.PopOlderThan;
    var inv := (k: Layer) => Shape(k) && Books(k, u);
    TickKeeps(l, t, u);
    forall k: Layer | inv(k)
      ensures k.ho.ingress != [] ==> inv(k.DrainOne())
      ensures k.buf.PopAqmDropped().1.Some? ==> inv(k.CollectOne())
      ensures LateHead(k) ==> inv(k.DropOldest())
      ensures LateBlock(k) ==> inv(k.DropExpiredBlock())
    {
      if k.ho.ingress != [] { DrainOneKeeps(k, u); }
      if k.buf.PopAqmDropped().1.Some? { CollectOneKeeps(k, u); }
      if LateHead(k) { DropOldestKeeps(k, u); }
      if LateBlock(k) { DropExpiredBlockKeeps(k, u); }
    }
    StepInduction(l, t, inv);
  }

  // ----- release -----

  lemma ReleaseFrontKeeps(l: Layer, u: nat)
    requires Shape(l) && Books(l, u) && l.ho.FrontGoes() && Books(l, l.ho.out[0].uid)
    ensures var l' := l.(ho := l.ho.ReleaseFront()); Shape(l') && Books(l', u)
  {
    hide BufferSound, Signals, WeighBlocks, WeighInfos, BufferGenuine, BlocksGenuine, Held, Waiting, HandlerShape;
    FrontIsUntold(l);
    FrontSettles(l.ho);
    ToldSnoc(l.ho.verdicts, l.ho.ReleaseFront().verdicts[|l.ho.verdicts|]);
  }

  lemma FrontSettles(h: Handler)
    requires HandlerShape(h) && h.FrontGoes() && h.out[0].uid in h.store.payloads
    ensures HandlerShape(h.ReleaseFront()) && h.ReleaseFront().store.seen == h.store.seen
    ensures h.ReleaseFront().store.captured == h.store.captured
  {
    hide Genuine, Rewritten, Loyal;
    assert Genuine(h.out[0], h.store.seen);
    ToldStaysLoyal(h.store, h.verdicts, h.ReleaseFront().verdicts[|h.verdicts|]);
    ToldSnoc(h.verdicts, h.ReleaseFront().verdicts[|h.verdicts|]);
  }

  // A complete packet at the front holds all the bits captured, so it has had no verdict: its payload is stored.
  lemma FrontIsUntold(l: Layer)
    requires Shape(l) && l.ho.FrontGoes() && Books(l, l.ho.out[0].uid)
    ensures l.ho.out[0].uid in l.ho.store.payloads
  {
    hide BufferSound, Signals, WeighBlocks, WeighInfos, BufferGenuine, BlocksGenuine, Held, Waiting, Told;
    var p := l.ho.out[0];
    assert Genuine(p, l.ho.store.seen);
    WeighMember(BitsOf(p.uid), l.ho.out, 0);
    ToldIsVerdicts(l.ho.verdicts, l.ho.store.seen, p.uid);
  }

  lemma {:induction false} ReleaseKeeps(l: Layer)
    requires Shape(l) && forall u: nat :: Books(l, u)
    ensures Shape(l.Release()) && forall u: nat :: Books(l.Release(), u)
    decreases |l.ho.out|
  {
    hide Shape, Books, Handler.ReleaseFront;
    if l.ho.FrontGoes() {
      var l' := l.(ho := l.ho.ReleaseFront());
      forall u: nat
        ensures Shape(l') && Books(l', u)
      {
        ReleaseFrontKeeps(l, u);
      }
      assert Shape(l') by {
        ReleaseFrontKeeps(l, 0);
      }
      ReleaseShrinks(l.ho);
      ReleaseKeeps(l');
    }
  }

  lemma ReleaseShrinks(h: Handler)
    requires h.out != []
    ensures |h.ReleaseFront().out| < |h.out|
  {
  }

  lemma ReportKeeps(l: Layer, u: nat)
    requires Shape(l) && Books(l, u)
    ensures Shape(l.Report()) && Books(l.Report(), u)
  {
    hide BufferSound, Signals, Weigh, WeighBlocks, WeighInfos, Told, AllGenuine, BlocksGenuine, HandlerShape,
         Buffer.TakeReport;
    IpBufferLaws.TakeReportKeeps(l.buf);
  }

  // ----- retransmission turns -----

  lemma MoreIds(h: Harq, nextId: nat, id: nat)
    requires HarqLaws.WithinTurns(h, nextId, id)
    ensures HarqLaws.WithinTurns(h, nextId + 1, id)
  {
  }

  lemma TickTurns(l: Layer, t: real, id: nat)
    requires HarqLaws.WithinTurns(l.harq, l.nextId, id)
    ensures HarqLaws.WithinTurns(l.Tick(t).harq, l.Tick(t).nextId, id)
  {
  }

  lemma StepTurns(l: Layer, t: real, id: nat)
    requires HarqLaws.WithinTurns(l.harq, l.nextId, id)
    ensures HarqLaws.WithinTurns(l.StepTo(t).harq, l.StepTo(t).nextId, id)
  {
    hide Layer.StepTo, Layer.Tick, HarqLaws.WithinTurns, Handler.DropBlock, Harq.PopOlderThan,
         Buffer.PopAqmDropped, Handler.DropIngress, Buffer.AddPkt, Buffer.PopOldest, Buffer.OldestTimestamp, BlockOf;
    var inv := (k: Layer) => HarqLaws.WithinTurns(k.harq, k.nextId, id);
    TickTurns(l, t, id);
    forall k: Layer | inv(k)
      ensures k.ho.ingress != [] ==> inv(k.DrainOne())
      ensures k.buf.PopAqmDropped().1.Some? ==> inv(k.CollectOne())
      ensures LateHead(k) ==> inv(k.DropOldest())
      ensures LateBlock(k) ==> inv(k.DropExpiredBlock())
    {
      HarqLaws.PopKeepsTurns(k.harq, k.now - k.budget, k.nextId, id);
      MoreIds(k.harq, k.nextId, id);
    }
    StepInduction(l, t, inv);
  }

  lemma ServeNewTurns(l: Layer, bits: real, radio: Radio, id: nat)
    requires HarqLaws.WithinTurns(l.harq, l.nextId, id) && l.Halts(bits)
    ensures var l' := l.ServeNew(bits, radio).0; HarqLaws.WithinTurns(l'.harq, l'.nextId, id)
  {
    hide Buffer.GetPkts, Layer.CollectDropped, Handler.DropBlock, Handler.Push, Buffer.HasPkts, Harq.AddPkts,
         Layer.ServeNew, HarqLaws.WithinTurns;
    var inv := (k: Layer) => HarqLaws.WithinTurns(k.harq, k.nextId, id);
    forall k: Layer | inv(k) && bits > 0.0 && k.buf.HasPkts()
      ensures inv(k.Turn(bits, radio).0)
    {
      var (b, out) := k.buf.GetPkts(bits.Floor);
      CollectKeepsQueues(k.(buf := b, nextId := k.nextId + 1));
      MoreIds(k.harq, k.nextId, id);
      HarqLaws.AddKeepsTurns(k.harq, BlockOf(k.nextId, k.buf.OldestTimestamp(), k.now, k.bhD, k.bhVar, out),
                             radio.ackDelay, k.nextId, id);
    }
    GrantInduction(l, bits, radio, inv);
  }
}
