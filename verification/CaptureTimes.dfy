// Where and when every packet was captured: ids are captured once, ingest takes them in that order, and every piece
// of a packet keeps the clock reading of its ingest.
module CaptureTimes {
  import opened Packets
  import opened DualPi2
  import opened IpBuffer
  import opened IpBufferLaws
  import opened Harq
  import opened Ipv4Ecn
  import opened Capture
  import opened CapturedHandler
  import opened CapturedHandlerLaws
  import opened IdentityLaws
  import opened PdcpLayer
  import opened PdcpInduction
  import opened PdcpRuns

  // ----- places in the order of capture -----

  function PlaceOf(order: seq<nat>, u: nat): (k: nat)
    ensures k <= |order| && (k < |order| ==> order[k] == u)
    ensures forall j :: 0 <= j < k ==> order[j] != u
  {
    if order == [] || order[0] == u then 0 else 1 + PlaceOf(order[1..], u)
  }

  predicate Once(order: seq<nat>) {
    forall i, j :: 0 <= i < j < |order| ==> order[i] != order[j]
  }

  lemma PlaceAt(order: seq<nat>, i: nat)
    requires Once(order) && i < |order|
    ensures PlaceOf(order, order[i]) == i
  {
    hide PlaceOf;
  }

  lemma PlaceStays(order: seq<nat>, u: nat, x: nat)
    requires PlaceOf(order, u) < |order|
    ensures PlaceOf(order + [x], u) == PlaceOf(order, u)
  {
    hide PlaceOf;
    var k := PlaceOf(order, u);
    assert (order + [x])[k] == u;
    assert forall j :: 0 <= j < |order| ==> (order + [x])[j] == order[j];
  }

  lemma PlaceIn(order: seq<nat>, u: nat)
    ensures PlaceOf(order, u) < |order| <==> u in order
  {
    hide PlaceOf;
  }

  // ----- the books of capture and ingest -----

  // A piece of one of the `n` packets ingested, with the clock reading taken when that packet was.
  predicate OfCapture(p: IpPkt, order: seq<nat>, clock: nat -> real, n: nat) {
    var k := PlaceOf(order, p.uid); k < n && p.currentT == clock(k)
  }

  function FromCapture(order: seq<nat>, clock: nat -> real, n: nat): IpPkt -> bool {
    p => OfCapture(p, order, clock, n)
  }

  function Ingested(h: Handler): IpPkt -> bool { FromCapture(h.store.order, h.clock, h.ticks) }

  // How many packets have left ingress.
  function Entered(h: Handler): int { |h.store.order| - |h.store.captured| - |h.ingress| }

  /** The ids captured are distinct; ingress and the capture queue hold the last of them, in order; the clock was read
      once for each packet ingested. */
  ghost predicate HandlerDated(h: Handler) {
    && Entered(h) >= 0 && Once(h.store.order) && (forall u :: u in h.store.order <==> u in h.store.seen)
    && h.ticks == |h.store.order| - |h.store.captured|
    && (forall i :: 0 <= i < |h.ingress| ==> h.ingress[i].uid == h.store.order[Entered(h) + i])
    && (forall i :: 0 <= i < |h.store.captured| ==> h.store.captured[i].uid == h.store.order[h.ticks + i])
    && Every(h.ingress, Ingested(h))
  }

  ghost predicate Dated(l: Layer) {
    HandlerDated(l.ho) && BufferHolds(l.buf, Ingested(l.ho))
  }

  // All that the books look at.
  ghost predicate SameDates(h: Handler, h': Handler) {
    && h'.ingress == h.ingress && h'.ticks == h.ticks && h'.clock == h.clock
    && h'.store == h.store.(payloads := h'.store.payloads)
  }

  lemma MoreCaptures(s: seq<IpPkt>, order: seq<nat>, clock: nat -> real, n: nat, x: nat)
    requires Every(s, FromCapture(order, clock, n)) && n <= |order|
    ensures Every(s, FromCapture(order + [x], clock, n))
  {
    hide PlaceOf;
    forall i | 0 <= i < |s|
      ensures OfCapture(s[i], order + [x], clock, n)
    {
      assert OfCapture(s[i], order, clock, n);
      PlaceStays(order, s[i].uid, x);
    }
  }

  lemma CapturedDated(l: Layer, info: Info, payload: seq<Byte>)
    requires Dated(l) && info.uid !in l.ho.store.seen
    ensures Dated(l.Captured(info, payload))
  {
    var h, h' := l.ho, l.Captured(info, payload).ho;
    MoreCaptures(h.ingress, h.store.order, h.clock, h.ticks, info.uid);
    MoreCaptures(l.buf.fifo, h.store.order, h.clock, h.ticks, info.uid);
    MoreCaptures(l.buf.q.lanes.l, h.store.order, h.clock, h.ticks, info.uid);
    MoreCaptures(l.buf.q.lanes.c, h.store.order, h.clock, h.ticks, info.uid);
    MoreCaptures(l.buf.q.lanes.dropped, h.store.order, h.clock, h.ticks, info.uid);
    hide FromCapture, Every;
    assert h'.store.order == h.store.order + [info.uid] && info.uid !in h.store.order;
    assert forall u :: u in h'.store.order <==> u in h.store.order || u == info.uid;
  }

  // Pieces of packets ingested before stay such.
  lemma MoreTicks(s: seq<IpPkt>, order: seq<nat>, clock: nat -> real, n: nat, m: nat)
    requires Every(s, FromCapture(order, clock, n)) && n <= m
    ensures Every(s, FromCapture(order, clock, m))
  {
    hide PlaceOf;
  }

  lemma IngestOneDated(h: Handler)
    requires HandlerDated(h) && h.store.captured != []
    ensures HandlerDated(h.(store := h.store.Pop().0).IngestOne(h.store.captured[0]))
  {
    var h' := h.(store := h.store.Pop().0).IngestOne(h.store.captured[0]);
    assert h.store.captured[0].uid == h.store.order[h.ticks];
    PlaceAt(h.store.order, h.ticks);
    MoreTicks(h.ingress, h.store.order, h.clock, h.ticks, h.ticks + 1);
    assert OfCapture(h'.ingress[|h.ingress|], h.store.order, h.clock, h.ticks + 1);
    hide PlaceOf;
    assert Entered(h') == Entered(h);
  }

  lemma {:induction false} IngestDated(h: Handler)
    requires HandlerDated(h)
    ensures HandlerDated(h.Ingest()) && h.Ingest().ticks >= h.ticks
    decreases |h.store.captured|
  {
    hide HandlerDated;
    if h.store.captured != [] {
      IngestOneDated(h);
      IngestDated(h.(store := h.store.Pop().0).IngestOne(h.store.captured[0]));
    }
  }

  lemma LatersAreLast(h: Handler)
    requires HandlerDated(h) && h.ingress != []
    ensures Entered(h) < |h.store.order| && PlaceOf(h.store.order, h.ingress[0].uid) == Entered(h)
    ensures Ingested(h)(h.ingress[0])
  {
    PlaceAt(h.store.order, Entered(h));
  }

  lemma RestDated(h: Handler)
    requires HandlerDated(h) && h.ingress != []
    ensures var h' := h.(ingress := h.ingress[1..]); HandlerDated(h') && Entered(h') == Entered(h) + 1
  {
    hide FromCapture;
    assert forall i :: 0 <= i < |h.ingress[1..]| ==> h.ingress[1..][i] == h.ingress[i + 1];
  }

  lemma DrainOneDated(l: Layer)
    requires Dated(l) && l.ho.ingress != []
    ensures Dated(l.DrainOne()) && Entered(l.DrainOne().ho) == Entered(l.ho) + 1
  {
    hide SortByUid, HandlerDated, FromCapture, Buffer.AddPkt, BufferHolds;
    RestDated(l.ho);
    LatersAreLast(l.ho);
    OtherOperationsHold(l.buf, l.ho.ingress[0], Ingested(l.ho));
    Unnoticed(l.ho.(ingress := l.ho.ingress[1..]), l.DrainOne().ho);
  }

  lemma Unnoticed(h: Handler, h': Handler)
    requires HandlerDated(h) && SameDates(h, h')
    ensures HandlerDated(h') && Entered(h') == Entered(h)
  {
    hide Every, FromCapture;
  }

  lemma LoopsDated(l: Layer)
    requires Dated(l)
    ensures l.buf.PopAqmDropped().1.Some? ==> Dated(l.CollectOne())
    ensures LateHead(l) ==> Dated(l.DropOldest())
    ensures LateBlock(l) ==> Dated(l.DropExpiredBlock())
  {
    hide HandlerDated, FromCapture, BufferHolds, Handler.DropBlock, Buffer.PopOldest, Buffer.PopAqmDropped,
         Buffer.OldestTimestamp, Harq.PopOlderThan, BlockOf;
    var ok := Ingested(l.ho);
    if l.buf.PopAqmDropped().1.Some? {
      var (b, victim) := l.buf.PopAqmDropped();
      OtherOperationsHold(l.buf, victim.value, ok);
      DropKeepsHandler(l.ho, AqmBlock(victim.value, b.now));
      Unnoticed(l.ho, l.CollectOne().ho);
    }
    if LateHead(l) {
      PopOldestFindsOne(l.buf);
      var p := l.buf.PopOldest().1.value;
      OtherOperationsHold(l.buf, p, ok);
      DropKeepsHandler(l.ho, BlockOf(l.nextId, l.buf.OldestTimestamp(), l.now, l.bhD, l.bhVar, [p]));
      Unnoticed(l.ho, l.DropOldest().ho);
    }
    if LateBlock(l) {
      DropKeepsHandler(l.ho, l.harq.PopOlderThan(l.now - l.budget).1.value);
      Unnoticed(l.ho, l.DropExpiredBlock().ho);
    }
  }

  lemma TickDated(l: Layer, t: real)
    requires Dated(l)
    ensures Dated(l.Tick(t))
  {
    Unnoticed(l.ho, l.ho.(now := t));
    IngestDated(l.ho.(now := t));
    IngestOnly(l.ho.(now := t));
    hide HandlerDated, FromCapture, Handler.Ingest, DualQ.StepTo, Every;
    StepKeepsQueues(l.buf, t);
    var h, n := l.ho, l.Tick(t).ho.ticks;
    MoreTicks(l.buf.fifo, h.store.order, h.clock, h.ticks, n);
    MoreTicks(l.buf.q.lanes.l, h.store.order, h.clock, h.ticks, n);
    MoreTicks(l.buf.q.lanes.c, h.store.order, h.clock, h.ticks, n);
    MoreTicks(l.buf.q.lanes.dropped, h.store.order, h.clock, h.ticks, n);
  }

  lemma StepDated(l: Layer, t: real)
    requires Dated(l)
    ensures Dated(l.StepTo(t))
  {
    hide Dated, Layer.Tick, Layer.StepTo, Layer.DrainOne, Layer.CollectOne, Layer.DropOldest, Layer.DropExpiredBlock,
         Harq.PopOlderThan;
    TickDated(l, t);
    forall k: Layer | Dated(k)
      ensures k.ho.ingress != [] ==> Dated(k.DrainOne())
      ensures k.buf.PopAqmDropped().1.Some? ==> Dated(k.CollectOne())
      ensures LateHead(k) ==> Dated(k.DropOldest())
      ensures LateBlock(k) ==> Dated(k.DropExpiredBlock())
    {
      if k.ho.ingress != [] { DrainOneDated(k); }
      LoopsDated(k);
    }
    StepInduction(l, t, (k: Layer) => Dated(k));
  }

  // ----- grants and releases -----

  lemma CaptureLasts(order: seq<nat>, clock: nat -> real, n: nat)
    ensures Lasting(FromCapture(order, clock, n))
  {
    hide PlaceOf;
  }

  lemma GrantDated(l: Layer, grant: nat)
    requires Dated(l)
    ensures Dated(l.(buf := l.buf.GetPkts(grant).0, nextId := l.nextId + 1))
    ensures Every(l.buf.GetPkts(grant).1, Ingested(l.ho))
  {
    hide HandlerDated, FromCapture, BufferHolds, Lasting, Buffer.Fill, Every;
    var ok := Ingested(l.ho);
    CaptureLasts(l.ho.store.order, l.ho.clock, l.ho.ticks);
    FillHolds(l.buf, grant, ok);
    SizeIsNoMatter(l.buf.Fill(grant).0, l.buf.GetPkts(grant).0.curSize, ok);
  }

  lemma CollectDated(l: Layer)
    requires Dated(l)
    ensures Dated(l.CollectDropped())
  {
    hide Dated, Layer.CollectOne, Layer.CollectDropped;
    forall k: Layer | Dated(k) && k.buf.PopAqmDropped().1.Some?
      ensures Dated(k.CollectOne())
    {
      LoopsDated(k);
    }
    CollectInduction(l, (k: Layer) => Dated(k));
  }

  lemma BlockDated(l: Layer, h: Harq, block: HarqPkt, jitter: real)
    requires Dated(l)
    ensures Dated(l.(harq := h)) && Dated(l.(harq := h, ho := l.ho.DropBlock(block)))
    ensures Dated(l.(harq := h, ho := l.ho.Push(block, jitter)))
  {
    hide HandlerDated, FromCapture, BufferHolds, Handler.DropBlock, Handler.Push;
    DropKeepsHandler(l.ho, block);
    PushKeepsHandler(l.ho, block, jitter);
    Unnoticed(l.ho, l.ho.DropBlock(block));
    Unnoticed(l.ho, l.ho.Push(block, jitter));
  }

  lemma TurnDated(l: Layer, bits: real, radio: Radio)
    requires Dated(l) && bits > 0.0 && l.buf.HasPkts()
    ensures Dated(l.Turn(bits, radio).0)
  {
    hide Dated, Buffer.GetPkts, Layer.CollectDropped, Handler.DropBlock, Handler.Push, Harq.AddPkts, Buffer.HasPkts,
         Buffer.OldestTimestamp;
    var (b, out) := l.buf.GetPkts(bits.Floor);
    var l1 := l.(buf := b, nextId := l.nextId + 1);
    GrantDated(l, bits.Floor);
    CollectDated(l1);
    CollectKeepsQueues(l1);
    var l2 := l1.CollectDropped();
    var block := BlockOf(l.nextId, l.buf.OldestTimestamp(), l.now, l.bhD, l.bhVar, out);
    BlockDated(l2, l2.harq, block, radio.jitter);
    BlockDated(l2, l2.harq.AddPkts(block, radio.ackDelay), block, radio.jitter);
  }

  lemma HandleDated(l: Layer, bits: real, radio: Radio)
    requires Dated(l) && (l.harq.IsPktReady() || l.Halts(bits))
    ensures Dated(l.HandlePkt(bits, radio).0)
  {
    hide Dated, Layer.Turn, Layer.ServeNew, Handler.Push, Handler.DropBlock, Harq.Queue;
    if l.harq.IsPktReady() {
      var (h, b) := l.harq.GetPkt();
      BlockDated(l, h, b, radio.jitter);
      BlockDated(l, h.Queue(b, radio.ackDelay), b, radio.jitter);
    } else {
      forall k: Layer | Dated(k) && bits > 0.0 && k.buf.HasPkts()
        ensures Dated(k.Turn(bits, radio).0)
      {
        TurnDated(k, bits, radio);
      }
      GrantInduction(l, bits, radio, (k: Layer) => Dated(k));
    }
  }

  lemma {:induction false} ReleaseDates(h: Handler)
    ensures SameDates(h, h.Release())
    decreases |h.out|
  {
    hide Store.Verdict;
    if h.FrontGoes() {
      VerdictKeepsOrder(h.store, h.out[0].uid, KindOf(h.out[0]));
      ReleaseDates(h.ReleaseFront());
    }
  }

  lemma ReportKeepsLanes(b: Buffer)
    ensures var b' := b.TakeReport().0;
            && b'.dual == b.dual && b'.fifo == b.fifo && b'.q.lanes == b.q.lanes && b'.q.aqm.log == b.q.aqm.log
  {
    hide AqmStats.Plus;
  }

  lemma EventDated(l: Layer, e: Event)
    requires Dated(l) && Enabled(l, e)
    ensures Dated(Apply(l, e))
  {
    hide HandlerDated, FromCapture, Every, Layer.StepTo, Layer.HandlePkt, Handler.Release, Buffer.TakeReport;
    match e
    case Capture(info, payload) => CapturedDated(l, info, payload);
    case Step(t) => StepDated(l, t);
    case Grant(bits, radio) => HandleDated(l, bits, radio);
    case Release =>
      ReleaseDates(l.ho);
      Unnoticed(l.ho, l.ho.Release());
    case Report => ReportKeepsLanes(l.buf);
  }

  lemma InitialIsDated(l: Layer)
    requires Initial(l)
    ensures Dated(l)
  {
  }
}
