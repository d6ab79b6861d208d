// What a reassembled packet keeps of the pieces it was delivered in: an unspoiled entry has the release time and the
// mark of the first of them, over every run in either mode and whatever fails.
module Arrivals {
  import opened Packets
  import opened DualPi2Laws
  import opened IpBuffer
  import opened Harq
  import opened Capture
  import opened CapturedHandler
  import opened CapturedHandlerLaws
  import opened PdcpLayer
  import opened PdcpInduction
  import opened PdcpRuns
  import opened PdcpLaws
  import opened PdcpTheorems
  import opened ShutGate
  import opened EntryLists
  import HarqLaws

  // ----- the deliveries of one packet -----

  predicate Reached(ds: seq<Delivery>, u: nat) {
    exists k :: 0 <= k < |ds| && ds[k].uid == u
  }

  // The packet's first delivery.
  predicate IsFirst(ds: seq<Delivery>, k: nat, u: nat) {
    k < |ds| && ds[k].uid == u && forall j :: 0 <= j < k ==> ds[j].uid != u
  }

  // The entry, or the packet told, has the release time and the mark of its first delivery.
  predicate Opened(ds: seq<Delivery>, p: IpPkt) {
    exists k :: 0 <= k < |ds| && IsFirst(ds, k, p.uid) && ds[k].due == p.tOut && ds[k].marked == p.ceMarked
  }

  function OpenedIn(ds: seq<Delivery>): IpPkt -> bool { (p: IpPkt) => Opened(ds, p) }

  ghost predicate ToldOpened(vs: seq<Verdict>, ds: seq<Delivery>, u: nat) {
    forall i :: 0 <= i < |vs| && vs[i].pkt.uid == u && vs[i].kind != Discarded ==> Opened(ds, vs[i].pkt)
  }

  ghost predicate Arrived(h: Handler, u: nat) {
    && Entries(h.out, u, OpenedIn(h.delivered)) && ToldOpened(h.verdicts, h.delivered, u)
    && (Reached(h.delivered, u) ==> Holds(h.out, u) || Verdicts(h.verdicts, u) >= 1)
  }

  lemma FirstStays(ds: seq<Delivery>, more: seq<Delivery>, p: IpPkt)
    requires Opened(ds, p)
    ensures Opened(ds + more, p)
  {
    var k :| 0 <= k < |ds| && IsFirst(ds, k, p.uid) && ds[k].due == p.tOut && ds[k].marked == p.ceMarked;
    assert forall j :: 0 <= j < |ds| ==> (ds + more)[j] == ds[j];
    assert IsFirst(ds + more, k, p.uid);
  }

  lemma MoreDeliveries(h: Handler, more: seq<Delivery>, u: nat)
    requires Entries(h.out, u, OpenedIn(h.delivered)) && ToldOpened(h.verdicts, h.delivered, u)
    ensures Entries(h.out, u, OpenedIn(h.delivered + more)) && ToldOpened(h.verdicts, h.delivered + more, u)
  {
    hide Opened;
    forall i | 0 <= i < |h.out| && h.out[i].uid == u && !h.out[i].erase
      ensures Opened(h.delivered + more, h.out[i])
    {
      FirstStays(h.delivered, more, h.out[i]);
    }
    forall i | 0 <= i < |h.verdicts| && h.verdicts[i].pkt.uid == u && h.verdicts[i].kind != Discarded
      ensures Opened(h.delivered + more, h.verdicts[i].pkt)
    {
      FirstStays(h.delivered, more, h.verdicts[i].pkt);
    }
  }

  // ----- one piece, and a block of them -----

  lemma AddDataArrives(out: seq<IpPkt>, p: IpPkt, ds: seq<Delivery>, u: nat)
    requires Entries(out, u, OpenedIn(ds)) && (p.uid == u && Reached(ds, u) ==> Holds(out, u))
    ensures Entries(AddData(out, p), u, OpenedIn(ds + [Delivery(p.uid, p.size, p.tOut, p.ceMarked)]))
    ensures Holds(out, u) || p.uid == u ==> Holds(AddData(out, p), u)
  {
    var d := Delivery(p.uid, p.size, p.tOut, p.ceMarked);
    var i, out' := FindUid(out, p.uid), AddData(out, p);
    assert out'[i].uid == p.uid && forall j :: 0 <= j < |out| ==> out'[j].uid == out[j].uid;
    forall j | 0 <= j < |out'| && out'[j].uid == u && !out'[j].erase
      ensures Opened(ds + [d], out'[j])
    {
      if j < |out| {
        assert Opened(ds, out[j]);
        FirstStays(ds, [d], out[j]);
        SameOpening(ds + [d], out[j], out'[j]);
      } else {
        assert !Reached(ds, u);
        assert (ds + [d])[|ds|] == d && forall k :: 0 <= k < |ds| ==> (ds + [d])[k] == ds[k];
        assert IsFirst(ds + [d], |ds|, u);
      }
    }
  }

  lemma SameOpening(ds: seq<Delivery>, p: IpPkt, q: IpPkt)
    requires Opened(ds, p) && q.uid == p.uid && q.tOut == p.tOut && q.ceMarked == p.ceMarked
    ensures Opened(ds, q)
  {
  }

  lemma DeliveriesCons(pkts: seq<IpPkt>, due: real)
    requires pkts != []
    ensures var p := pkts[0];
            Deliveries(pkts, due) == [Delivery(p.uid, p.size, due, p.ceMarked)] + Deliveries(pkts[1..], due)
  {
  }

  lemma ReachedMore(ds: seq<Delivery>, d: Delivery, u: nat)
    ensures Reached(ds + [d], u) <==> Reached(ds, u) || d.uid == u
  {
    assert (ds + [d])[|ds|] == d && forall k :: 0 <= k < |ds| ==> (ds + [d])[k] == ds[k];
  }

  lemma {:induction false} AddAllArrives(out: seq<IpPkt>, pkts: seq<IpPkt>, tOut: real, ipT: real, ds: seq<Delivery>,
      u: nat)
    requires Entries(out, u, OpenedIn(ds)) && (Holds(pkts, u) && Reached(ds, u) ==> Holds(out, u))
    ensures var out' := AddAll(out, pkts, tOut, ipT);
            && Entries(out', u, OpenedIn(ds + Deliveries(pkts, tOut)))
            && (Holds(out, u) || Holds(pkts, u) ==> Holds(out', u))
            && (Reached(ds + Deliveries(pkts, tOut), u) ==> Reached(ds, u) || Holds(pkts, u))
    decreases |pkts|
  {
    hide Entries, AddData, Deliveries;
    if pkts == [] {
      assert Deliveries(pkts, tOut) == [] by {
        NoDeliveries(tOut);
      }
      assert ds + [] == ds;
    } else {
      var p, rest := Stamped(pkts[0], tOut, ipT), pkts[1..];
      var d := Delivery(p.uid, p.size, tOut, p.ceMarked);
      assert pkts[0].uid == u ==> Holds(pkts, u);
      assert forall i :: 0 < i < |pkts| ==> pkts[i] == rest[i - 1];
      assert forall i :: 0 <= i < |rest| ==> rest[i] == pkts[i + 1];
      AddDataArrives(out, p, ds, u);
      ReachedMore(ds, d, u);
      AddAllArrives(AddData(out, p), rest, tOut, ipT, ds + [d], u);
      DeliveriesCons(pkts, tOut);
      assert ds + ([d] + Deliveries(rest, tOut)) == (ds + [d]) + Deliveries(rest, tOut);
    }
  }

  lemma NoDeliveries(due: real)
    ensures Deliveries([], due) == []
  {
  }

  lemma PushArrives(h: Handler, block: HarqPkt, jitter: real, u: nat)
    requires Arrived(h, u) && (Verdicts(h.verdicts, u) >= 1 ==> !Holds(block.pkts, u))
    ensures Arrived(h.Push(block, jitter), u)
  {
    hide Entries, ToldOpened, Reached, Holds, AddAll, SortByUid, ReleaseTime, Deliveries, Opened;
    var due := ReleaseTime(block, jitter);
    AddAllArrives(h.out, block.pkts, due, block.ipT, h.delivered, u);
    SortEntries(AddAll(h.out, block.pkts, due, block.ipT), u, OpenedIn(h.delivered + Deliveries(block.pkts, due)));
    MoreDeliveries(h, Deliveries(block.pkts, due), u);
  }

  lemma KeptArrives(h: Handler, h': Handler, u: nat)
    requires Arrived(h, u) && Kept(h, h', u, OpenedIn(h.delivered))
    ensures Arrived(h', u)
  {
    hide Entries, ToldOpened, Holds, Reached;
  }

  lemma DropArrives(h: Handler, block: HarqPkt, u: nat)
    requires Arrived(h, u)
    ensures Arrived(h.DropBlock(block), u)
  {
    hide Entries, ToldOpened, Holds, Reached, Handler.DropBlock;
    DropEntries(h, h, block, u, OpenedIn(h.delivered));
    KeptArrives(h, h.DropBlock(block), u);
  }

  // ----- the pipeline's steps -----

  // A packet that has its verdict has no piece in a block taken for service.
  lemma ToldHasNoBlock(l: Layer, u: nat)
    requires Shape(l) && Books(l, u) && l.harq.buf != [] && Verdicts(l.ho.verdicts, u) >= 1
    ensures !Holds(l.harq.buf[0].pkts, u)
  {
    hide Shape, Signals, Weigh, WeighInfos;
    ShapeSettles(l);
    ToldIsVerdicts(l.ho.verdicts, l.ho.store.seen, u);
    BlocksWithout(BitsOf(u), l.harq.buf, 0);
    NoWeightNoPiece(l.harq.buf[0].pkts, u);
  }

  // Nor is one in the block of a grant being served.
  lemma ToldHasNoFlight(l: Layer, u: nat, flight: seq<IpPkt>)
    requires Shape(l) && BooksInFlight(l, u, flight) && Verdicts(l.ho.verdicts, u) >= 1
    ensures !Holds(flight, u)
  {
    hide Shape, Live, Pending, Signals;
    ShapeSettles(l);
    ToldIsVerdicts(l.ho.verdicts, l.ho.store.seen, u);
    NoWeightNoPiece(flight, u);
  }

  lemma TurnArrives(l: Layer, bits: real, radio: Radio, u: nat)
    requires Shape(l) && Books(l, u) && Arrived(l.ho, u) && bits > 0.0 && l.buf.HasPkts()
    ensures Arrived(l.Turn(bits, radio).0.ho, u)
  {
    hide Shape, Books, Arrived, Buffer.GetPkts, Layer.CollectDropped, Buffer.HasPkts, Handler.DropBlock, Handler.Push,
         Harq.AddPkts, Buffer.OldestTimestamp, BooksInFlight, AllGenuine, Holds, Entries;
    var (b, out) := l.buf.GetPkts(bits.Floor);
    var l1 := l.(buf := b, nextId := l.nextId + 1);
    GrantTaken(l, bits.Floor, u);
    if Verdicts(l.ho.verdicts, u) >= 1 {
      ToldHasNoFlight(l1, u, out);
    }
    ArrivedEntries(l.ho, u);
    CollectEntries(l1, u, OpenedIn(l.ho.delivered));
    var l2 := l1.CollectDropped();
    KeptArrives(l.ho, l2.ho, u);
    CollectKeepsQueues(l1);
    var block := BlockOf(l.nextId, l.buf.OldestTimestamp(), l.now, l.bhD, l.bhVar, out);
    DropArrives(l2.ho, block, u);
    PushArrives(l2.ho, block, radio.jitter, u);
  }

  lemma ArrivedEntries(h: Handler, u: nat)
    requires Arrived(h, u)
    ensures Entries(h.out, u, OpenedIn(h.delivered))
  {
  }

  lemma ServeNewArrives(l: Layer, bits: real, radio: Radio, u: nat)
    requires Shape(l) && Books(l, u) && Arrived(l.ho, u) && l.Halts(bits)
    ensures Arrived(l.ServeNew(bits, radio).0.ho, u)
  {
    hide Shape, Books, Arrived, Layer.Turn, Layer.ServeNew;
    var inv := (k: Layer) => Shape(k) && Books(k, u) && Arrived(k.ho, u);
    forall k: Layer | inv(k) && bits > 0.0 && k.buf.HasPkts()
      ensures inv(k.Turn(bits, radio).0)
    {
      TurnKeeps(k, bits, radio, u);
      TurnArrives(k, bits, radio, u);
    }
    GrantInduction(l, bits, radio, inv);
  }

  lemma ServeAgainArrives(l: Layer, radio: Radio, u: nat)
    requires Shape(l) && Books(l, u) && Arrived(l.ho, u) && l.harq.buf != []
    ensures Arrived(l.ServeAgain(radio).0.ho, u)
  {
    hide Shape, Books, Arrived, Handler.Push, Handler.DropBlock, Harq.Queue;
    if Verdicts(l.ho.verdicts, u) >= 1 {
      ToldHasNoBlock(l, u);
    }
    DropArrives(l.ho, l.harq.buf[0], u);
    PushArrives(l.ho, l.harq.buf[0], radio.jitter, u);
  }

  lemma StepArrives(l: Layer, t: real, u: nat)
    requires Arrived(l.ho, u)
    ensures Arrived(l.StepTo(t).ho, u)
  {
    hide Arrived, Layer.StepTo, Entries, Holds;
    ArrivedEntries(l.ho, u);
    StepEntries(l, t, u, OpenedIn(l.ho.delivered));
    KeptArrives(l.ho, l.StepTo(t).ho, u);
  }

  lemma ReleaseFrontArrives(h: Handler, u: nat)
    requires Arrived(h, u) && h.out != []
    ensures Arrived(h.ReleaseFront(), u)
  {
    hide Opened, Reached, Store.Verdict;
    var out, h' := h.out, h.ReleaseFront();
    var rest, told := out[1..], |h.verdicts|;
    assert forall i :: 0 <= i < |rest| ==> rest[i] == out[i + 1];
    assert h'.verdicts[told].pkt == out[0] && forall i :: 0 <= i < told ==> h'.verdicts[i] == h.verdicts[i];
    assert h'.verdicts[told].kind != Discarded ==> !out[0].erase;
    ToldSnoc(h.verdicts, h'.verdicts[told]);
    if Holds(out, u) && out[0].uid != u {
      var i :| 0 <= i < |out| && out[i].uid == u;
      assert rest[i - 1].uid == u;
    }
  }

  lemma {:induction false} ReleaseArrives(h: Handler, u: nat)
    requires Arrived(h, u)
    ensures Arrived(h.Release(), u)
    decreases |h.out|
  {
    hide Arrived, Store.Verdict, Handler.FrontGoes;
    if h.FrontGoes() {
      FrontIsThere(h);
      ReleaseFrontArrives(h, u);
      ReleaseArrives(h.ReleaseFront(), u);
    }
  }

  lemma EventArrives(l: Layer, e: Event, u: nat)
    requires Good(l) && Arrived(l.ho, u) && Enabled(l, e)
    ensures Arrived(Apply(l, e).ho, u)
  {
    hide Shape, Books, HarqLaws.WithinTurns, Entries, ToldOpened, Reached, Layer.StepTo, Layer.ServeNew,
         Layer.ServeAgain, Handler.Release;
    match e
    case Capture(info, payload) =>
    case Step(t) => StepArrives(l, t, u);
    case Grant(bits, radio) =>
      assert Books(l, u);
      if l.harq.IsPktReady() {
        ServeAgainArrives(l, radio, u);
      } else {
        ServeNewArrives(l, bits, radio, u);
      }
    case Release => ReleaseArrives(l.ho, u);
    case Report =>
  }

  // ----- every run -----

  lemma RunsArrive(l: Layer, es: seq<Event>, u: nat)
    requires Initial(l) && CanRun(l, es)
    ensures Good(Run(l, es)) && Arrived(Run(l, es).ho, u)
  {
    hide Good, Run, CanRun, Enabled, Apply;
    InitialIsGood(l);
    assert Arrived(l.ho, u);
    hide Arrived;
    var inv := (k: Layer) => Good(k) && Arrived(k.ho, u);
    forall k: Layer, e: Event | inv(k) && Enabled(k, e)
      ensures inv(Apply(k, e))
    {
      EventKeeps(k, e);
      EventArrives(k, e, u);
    }
    RunInduction(l, es, inv);
  }

  /** The first piece decides, over every run in either mode, whatever fails or is retransmitted: an accepted packet
      has the release time of its first delivery, which was due, and is accepted as CE if and only if that one was
      marked. */
  lemma FirstPieceDecides(l: Layer, es: seq<Event>, i: nat)
    requires Initial(l) && CanRun(l, es) && i < |Run(l, es).ho.verdicts| && Run(l, es).ho.verdicts[i].kind != Discarded
    ensures var h := Run(l, es).ho; var v := h.verdicts[i];
            exists k :: 0 <= k < |h.delivered| && IsFirst(h.delivered, k, v.pkt.uid)
                        && h.delivered[k].due == v.pkt.tOut <= v.at
                        && (v.kind == AcceptedCe <==> h.delivered[k].marked)
  {
    hide Initial, Run, CanRun, Good, Entries, Reached, IsFirst;
    AcceptedInSequence(l, es, i);
    var h := Run(l, es).ho;
    RunsArrive(l, es, h.verdicts[i].pkt.uid);
    KindsAreOwn(Run(l, es), i);
  }

  lemma KindsAreOwn(l: Layer, i: nat)
    requires Good(l) && i < |l.ho.verdicts|
    ensures l.ho.verdicts[i].kind == KindOf(l.ho.verdicts[i].pkt)
  {
    hide Shape, Books, HarqLaws.WithinTurns, Genuine;
    ShapeSettles(l);
    assert l.ho.verdicts[i] in l.ho.verdicts;
  }
}
