// Order over whole runs of FIFO mode with a clean radio link and room in the buffer: verdicts come out in
// capture order, one after the other, and nothing complete and due is held back.
module FifoOrder {
  import opened Packets
  import opened IpBuffer
  import opened Ipv4Ecn
  import opened Capture
  import opened CapturedHandler
  import opened CapturedHandlerLaws
  import opened PdcpLayer
  import opened PdcpInduction
  import opened PdcpRuns
  import opened Reassembly
  import FifoBudget

  // The uid each captured packet is given as its predecessor's.
  function Predecessors(order: seq<nat>): seq<int> {
    seq(|order|, k requires 0 <= k < |order| => LastOf(order, k))
  }

  // Where the packets not ingested yet start in the capture order.
  function Ingested(l: Layer): int {
    |l.ho.verdicts| + |l.ho.out| - Seam(l.ho.out) + |Line(l)|
  }

  function CourseOf(order: seq<nat>, base: nat, end: nat): Course {
    Course(order, Predecessors(order), base, end)
  }

  /** The verdicts so far are the first packets captured, in order; an accepted one was reassembled from all the
      fragments made of it. */
  ghost predicate ToldInOrder(vs: seq<Verdict>, order: seq<nat>) {
    && |vs| <= |order|
    && forall i :: 0 <= i < |vs| ==> vs[i].pkt.uid == order[i] && Complete(vs[i].pkt) && vs[i].kind == KindOf(vs[i].pkt)
  }

  ghost predicate AwaitsIngest(captured: seq<Info>, order: seq<nat>, n: int) {
    0 <= n && n + |captured| == |order| && forall k :: 0 <= k < |captured| ==> captured[k].uid == order[n + k]
  }

  /** Verdicts, reassembly, FIFO, ingress and capture queue hold the captured packets in capture order. */
  ghost predicate Ordered(l: Layer) {
    && !l.buf.dual && l.harq.buf == [] && Ingested(l) >= 0
    && ToldInOrder(l.ho.verdicts, l.ho.store.order)
    && Rejoins(l.ho.out, Line(l), CourseOf(l.ho.store.order, |l.ho.verdicts|, Ingested(l)))
    && (Open(l.ho.out) ==> l.buf.fifo != [])
    && AwaitsIngest(l.ho.store.captured, l.ho.store.order, Ingested(l))
    && l.ho.prevUid == LastOf(l.ho.store.order, Ingested(l))
    && l.ho.prevReleased == LastOf(l.ho.store.order, |l.ho.verdicts|)
  }

  // ----- the conditions -----

  // Every packet of this tick's ingress finds room in the buffer.
  predicate HasRoom(l: Layer)
    decreases |l.ho.ingress|
  {
    l.ho.ingress == [] || (l.buf.Fits(l.ho.ingress[0]) && HasRoom(l.DrainOne()))
  }

  // No transmission fails, and captures bring increasing ids.
  predicate Faultless(l: Layer, e: Event) {
    match e
    case Capture(info, _) => forall u :: u in l.ho.store.order ==> u < info.uid
    case Grant(_, radio) => !radio.fails
    case _ => true
  }

  // Nor does anything overflow.
  predicate Smooth(l: Layer, e: Event) {
    Faultless(l, e) && (e.Step? ==> HasRoom(l.Tick(e.t)))
  }

  predicate SmoothRun(l: Layer, es: seq<Event>)
    requires CanRun(l, es)
    decreases |es|
  {
    es == [] || (Smooth(l, es[0]) && SmoothRun(Apply(l, es[0]), es[1..]))
  }

  // ----- capture and ingest -----

  lemma CourseGrows(out: seq<IpPkt>, line: seq<IpPkt>, order: seq<nat>, base: nat, end: nat, u: nat)
    requires Rejoins(out, line, CourseOf(order, base, end)) && forall v :: v in order ==> v < u
    ensures Rejoins(out, line, CourseOf(order + [u], base, end))
  {
    hide Unbroken, Increasing;
    OrderGrows(order, u);
  }

  lemma OrderGrows(order: seq<nat>, u: nat)
    requires Increasing(order) && forall v :: v in order ==> v < u
    ensures Increasing(order + [u])
  {
    assert forall i :: 0 <= i < |order| ==> order[i] in order;
  }

  lemma CapturedOrdered(l: Layer, info: Info, payload: seq<Byte>)
    requires Ordered(l) && forall u :: u in l.ho.store.order ==> u < info.uid
    ensures Ordered(l.Captured(info, payload))
  {
    hide Rejoins, Open;
    CourseGrows(l.ho.out, Line(l), l.ho.store.order, |l.ho.verdicts|, Ingested(l), info.uid);
  }

  // A new packet joins the end of the line.
  lemma LineGrows(out: seq<IpPkt>, line: seq<IpPkt>, order: seq<nat>, base: nat, end: nat, p: IpPkt)
    requires Rejoins(out, line, CourseOf(order, base, end)) && end < |order|
    requires p.uid == order[end] && p.prevUid == LastOf(order, end) && Untouched(p)
    ensures Rejoins(out, line + [p], CourseOf(order, base, end + 1))
  {
    hide Increasing, Untouched, Complete, Halves;
  }

  lemma {:induction false} IngestOrdered(l: Layer)
    requires Ordered(l)
    ensures Ordered(l.(ho := l.ho.Ingest()))
    decreases |l.ho.store.captured|
  {
    hide Rejoins, Open;
    if l.ho.store.captured != [] {
      var h := l.ho.(store := l.ho.store.Pop().0).IngestOne(l.ho.store.captured[0]);
      var l' := l.(ho := h);
      var p := h.ingress[|l.ho.ingress|];
      LineGrows(l.ho.out, Line(l), l.ho.store.order, |l.ho.verdicts|, Ingested(l), p);
      assert Line(l') == Line(l) + [p];
      IngestOrdered(l');
    }
  }

  // ----- the steps of a tick -----

  lemma DrainOneOrdered(l: Layer)
    requires Ordered(l) && l.ho.ingress != [] && l.buf.Fits(l.ho.ingress[0])
    ensures Ordered(l.DrainOne())
  {
    hide InPlace, Complete, Halves;
    var p := l.ho.ingress[0];
    assert Line(l)[|l.buf.fifo|] == p;
    assert Untouched(p);
    assert Line(l.DrainOne()) == Line(l);
  }

  lemma {:induction false} DrainOrdered(l: Layer)
    requires Ordered(l) && HasRoom(l)
    ensures Ordered(l.DrainIngress())
    decreases |l.ho.ingress|
  {
    hide Ordered;
    if l.ho.ingress != [] {
      DrainOneOrdered(l);
      DrainOrdered(l.DrainOne());
    }
  }

  // An expired packet, or what is left of it, goes to reassembly as a drop.
  lemma DropOldestOrdered(l: Layer)
    requires Ordered(l) && l.buf.HasPkts()
    ensures Ordered(l.DropOldest())
  {
    hide Rejoins, Join;
    var t, p := l.buf.OldestTimestamp(), l.buf.fifo[0];
    var block := BlockOf(l.nextId, t, l.now, l.bhD, l.bhVar, [p]);
    var c := CourseOf(l.ho.store.order, |l.ho.verdicts|, Ingested(l));
    JoinOne(l.ho.out, p, block.tOut, block.ipT, true);
    JoinLast(l.ho.out, Line(l), c, Stamped(p, block.tOut, block.ipT), true);
    SameEnd(Join(l.ho.out, Stamped(p, block.tOut, block.ipT), true), Line(l)[1..], c);
    assert Line(l.DropOldest()) == Line(l)[1..];
  }

  lemma SameEnd(out: seq<IpPkt>, line: seq<IpPkt>, c: Course)
    requires Rejoins(out, line, c)
    ensures c.end == c.base + |out| - Seam(out) + |line|
  {
  }

  lemma CleanupIpOrdered(l: Layer)
    requires Ordered(l)
    ensures Ordered(l.CleanupIp())
  {
    hide Ordered, Layer.DropOldest, Layer.CleanupIp;
    forall k: Layer | Ordered(k) && LateHead(k)
      ensures Ordered(k.DropOldest())
    {
      DropOldestOrdered(k);
    }
    CleanupIpInduction(l, (k: Layer) => Ordered(k));
  }

  lemma StepOrdered(l: Layer, t: real)
    requires Ordered(l) && HasRoom(l.Tick(t))
    ensures Ordered(l.StepTo(t))
  {
    hide Rejoins, Open, ToldInOrder, AwaitsIngest, HasRoom, Handler.Ingest, Layer.DrainIngress, Layer.CleanupIp;
    var l0 := l.(now := t, buf := l.buf.StepTo(t), harq := l.harq.(now := t), ho := l.ho.(now := t));
    assert Ordered(l0);
    IngestOrdered(l0);
    DrainOrdered(l.Tick(t));
    var l1 := l.Tick(t).DrainIngress();
    assert l1.CollectDropped() == l1;
    CleanupIpOrdered(l1);
    assert l1.CleanupIp().CleanupHarq() == l1.CleanupIp();
  }

  // ----- grants -----

  lemma BlockOrdered(l: Layer, grant: nat, block: HarqPkt, jitter: real, id: nat)
    requires Ordered(l) && block.pkts == l.buf.GetPkts(grant).1
    ensures var l' := l.(buf := l.buf.GetPkts(grant).0, nextId := id);
            Ordered(l'.(ho := l.ho.DropBlock(block))) && Ordered(l'.(ho := l.ho.Push(block, jitter)))
  {
    hide Rejoins, Open, AddAll, RemoveAll, SortByUid, Buffer.Fill, ToldInOrder, AwaitsIngest;
    var b := l.buf.GetPkts(grant).0;
    var c := CourseOf(l.ho.store.order, |l.ho.verdicts|, Ingested(l));
    FillRejoins(l.ho.out, l.buf, grant, l.ho.ingress, c, block.tOut, block.ipT, true);
    FillRejoins(l.ho.out, l.buf, grant, l.ho.ingress, c, ReleaseTime(block, jitter), block.ipT, false);
    var dropped := RemoveAll(l.ho.out, block.pkts, block.tOut, block.ipT);
    var pushed := AddAll(l.ho.out, block.pkts, ReleaseTime(block, jitter), block.ipT);
    RejoinedIsSorted(pushed, b.fifo + l.ho.ingress, c);
    SameEnd(dropped, b.fifo + l.ho.ingress, c);
    SameEnd(pushed, b.fifo + l.ho.ingress, c);
  }

  lemma TurnOrdered(l: Layer, bits: real, radio: Radio)
    requires Ordered(l) && bits > 0.0 && l.buf.HasPkts() && !radio.fails
    ensures Ordered(l.Turn(bits, radio).0)
  {
    hide Rejoins, Open, Buffer.Fill, ToldInOrder, AwaitsIngest, Handler.Push, Handler.DropBlock;
    var (b, out) := l.buf.GetPkts(bits.Floor);
    var block := BlockOf(l.nextId, l.buf.OldestTimestamp(), l.now, l.bhD, l.bhVar, out);
    BlockOrdered(l, bits.Floor, block, radio.jitter, l.nextId + 1);
    var l1 := l.(buf := b, nextId := l.nextId + 1);
    FifoBudget.CollectIsIdle(l1);
    EmptyBlock(l.ho, block);
  }

  lemma EmptyBlock(h: Handler, b: HarqPkt)
    ensures b.pkts == [] ==> h.DropBlock(b) == h
  {
  }

  lemma ServeNewOrdered(l: Layer, bits: real, radio: Radio)
    requires Ordered(l) && l.Halts(bits) && !radio.fails
    ensures Ordered(l.ServeNew(bits, radio).0)
  {
    hide Ordered, Layer.Turn, Layer.ServeNew;
    forall k: Layer | Ordered(k) && bits > 0.0 && k.buf.HasPkts()
      ensures Ordered(k.Turn(bits, radio).0)
    {
      TurnOrdered(k, bits, radio);
    }
    GrantInduction(l, bits, radio, (k: Layer) => Ordered(k));
  }

  // ----- release -----

  // The order gate never stops the front packet: its predecessor had the last verdict.
  lemma GateIsOpen(l: Layer)
    requires Ordered(l) && l.ho.out != []
    ensures l.ho.CheckOrder(l.ho.out[0].prevUid)
    ensures |l.ho.verdicts| < |l.ho.store.order| && l.ho.out[0].uid == l.ho.store.order[|l.ho.verdicts|]
    ensures l.ho.out[0].IsReady() ==> Complete(l.ho.out[0])
  {
    hide Increasing;
  }

  lemma FrontRejoins(out: seq<IpPkt>, line: seq<IpPkt>, c: Course)
    requires Rejoins(out, line, c) && out != [] && out[0].IsReady()
    ensures Rejoins(out[1..], line, c.(base := c.base + 1)) && Open(out[1..]) == Open(out)
  {
    hide Increasing, Halves, Untouched;
    assert forall i :: 0 <= i < |out[1..]| ==> out[1..][i] == out[i + 1];
  }

  lemma ReleaseFrontOrdered(l: Layer)
    requires Ordered(l) && l.ho.FrontGoes()
    ensures Ordered(l.(ho := l.ho.ReleaseFront()))
  {
    hide Rejoins, Open, Complete, Store.Verdict, ToldInOrder;
    GateIsOpen(l);
    TellNext(l.ho.verdicts, l.ho.store.order, l.ho.ReleaseFront().verdicts[|l.ho.verdicts|]);
    FrontRejoins(l.ho.out, Line(l), CourseOf(l.ho.store.order, |l.ho.verdicts|, Ingested(l)));
    VerdictKeepsOrder(l.ho.store, l.ho.out[0].uid, KindOf(l.ho.out[0]));
  }

  lemma TellNext(vs: seq<Verdict>, order: seq<nat>, v: Verdict)
    requires ToldInOrder(vs, order) && |vs| < |order| && v.pkt.uid == order[|vs|]
    requires Complete(v.pkt) && v.kind == KindOf(v.pkt)
    ensures ToldInOrder(vs + [v], order)
  {
    hide Complete, KindOf;
  }

  lemma {:induction false} ReleaseOrdered(l: Layer)
    requires Ordered(l)
    ensures Ordered(l.Release())
    ensures !l.Release().ho.FrontGoes()
    decreases |l.ho.out|
  {
    hide Ordered, Store.Verdict;
    if l.ho.FrontGoes() {
      ReleaseFrontOrdered(l);
      ReleaseOrdered(l.(ho := l.ho.ReleaseFront()));
    }
  }

  // ----- every run -----

  lemma EventOrdered(l: Layer, e: Event)
    requires Ordered(l) && Enabled(l, e) && Smooth(l, e)
    ensures Ordered(Apply(l, e))
  {
    hide Rejoins, Open, ToldInOrder, AwaitsIngest, HasRoom, Layer.StepTo, Layer.ServeNew, Layer.Release;
    match e
    case Capture(info, payload) => CapturedOrdered(l, info, payload);
    case Step(t) => StepOrdered(l, t);
    case Grant(bits, radio) => ServeNewOrdered(l, bits, radio);
    case Release => ReleaseOrdered(l);
    case Report =>
  }

  lemma {:induction false} RunOrdered(l: Layer, es: seq<Event>)
    requires Ordered(l) && CanRun(l, es) && SmoothRun(l, es)
    ensures Ordered(Run(l, es))
    decreases |es|
  {
    hide Ordered, Enabled, Apply, Smooth;
    if es != [] {
      EventOrdered(l, es[0]);
      RunOrdered(Apply(l, es[0]), es[1..]);
    }
  }

  lemma InitialIsOrdered(l: Layer)
    requires Initial(l) && !l.buf.dual
    ensures Ordered(l)
  {
  }

  /** Over every run of FIFO mode without failed transmissions, overflow or decreasing ids, even when packets expire
      half-sent: the verdicts are a prefix of the captures, each accepted packet was reassembled from all its
      fragments at full size, the order gate never blocks, and after a release the front packet is incomplete or
      not yet due. */
  lemma VerdictsFollowCaptures(l: Layer, es: seq<Event>)
    requires Initial(l) && !l.buf.dual && CanRun(l, es) && SmoothRun(l, es)
    ensures var h := Run(l, es).ho;
            && |h.verdicts| <= |h.store.order|
            && (forall i :: 0 <= i < |h.verdicts| ==>
                  && h.verdicts[i].pkt.uid == h.store.order[i] && h.verdicts[i].pkt.IsReady()
                  && (h.verdicts[i].kind != Discarded ==>
                        h.verdicts[i].pkt.fragsRecovered == h.verdicts[i].pkt.fragsCreated))
            && (h.out != [] ==>
                  && h.CheckOrder(h.out[0].prevUid)
                  && |h.verdicts| < |h.store.order| && h.out[0].uid == h.store.order[|h.verdicts|])
            && var released := h.Release().out;
               released == [] || !released[0].IsReady() || (!released[0].erase && released[0].tOut > h.now)
  {
    hide Run, Initial, Rejoins, Open, AwaitsIngest, Handler.Release;
    InitialIsOrdered(l);
    RunOrdered(l, es);
    var r := Run(l, es);
    if r.ho.out != [] {
      GateIsOpen(r);
    }
    ReleaseOrdered(r);
    ReleaseKeepsClock(r.ho);
    if r.Release().ho.out != [] {
      GateIsOpen(r.Release());
    }
  }

  lemma {:induction false} ReleaseKeepsClock(h: Handler)
    ensures h.Release().now == h.now
    decreases |h.out|
  {
    hide Store.Verdict;
    if h.FrontGoes() {
      ReleaseKeepsClock(h.ReleaseFront());
    }
  }
}
