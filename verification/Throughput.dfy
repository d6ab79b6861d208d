// What is reported sent and what arrives: over every run the bits reported are the bits delivered, the pieces delivered
// of an accepted packet are all of it, and a grant that fails nothing is used up.
module Throughput {
  import opened Packets
  import opened DualPi2
  import opened DualPi2Laws
  import opened IpBuffer
  import opened IpBufferLaws
  import opened Harq
  import opened Capture
  import opened CapturedHandler
  import opened CapturedHandlerLaws
  import opened IdentityLaws
  import opened PdcpLayer
  import opened PdcpInduction
  import opened PdcpRuns
  import opened PdcpLaws
  import opened PdcpTheorems
  import opened EntryLists
  import opened Arrivals
  import opened Overtaking
  import Bounds
  import Draining
  import FifoBudget
  import HarqLaws
  import PdcpProgress
  import Punctuality

  // ----- the bits delivered -----

  function Brought(g: Gauge, ds: seq<Delivery>): nat {
    if ds == [] then 0
    else
      var d := ds[|ds| - 1];
      Brought(g, ds[..|ds| - 1]) + (match g
                                    case AllBits => d.size
                                    case BitsOf(u) => if d.uid == u then d.size else 0
                                    case Unmarked(_) => 0)
  }

  lemma {:induction false} BroughtAppend(g: Gauge, a: seq<Delivery>, b: seq<Delivery>)
    ensures Brought(g, a + b) == Brought(g, a) + Brought(g, b)
  {
    if b == [] {
      assert a + b == a;
    } else {
      BroughtAppend(g, a, b[..|b| - 1]);
      assert (a + b)[..|a + b| - 1] == a + b[..|b| - 1];
    }
  }

  lemma BroughtOne(g: Gauge, p: IpPkt, due: real)
    requires !g.Unmarked?
    ensures Brought(g, [Delivery(p.uid, p.size, due, p.ceMarked)]) == Measure(g, p)
  {
  }

  lemma {:induction false} BroughtBlock(g: Gauge, pkts: seq<IpPkt>, due: real)
    requires !g.Unmarked?
    ensures Brought(g, Deliveries(pkts, due)) == Weigh(g, pkts)
  {
    hide Deliveries, Measure;
    if pkts == [] {
      NoDeliveries(due);
    } else {
      var p := pkts[0];
      DeliveriesCons(pkts, due);
      BroughtBlock(g, pkts[1..], due);
      BroughtOne(g, p, due);
      BroughtAppend(g, [Delivery(p.uid, p.size, due, p.ceMarked)], Deliveries(pkts[1..], due));
    }
  }

  lemma PushBrings(h: Handler, block: HarqPkt, jitter: real, g: Gauge)
    requires !g.Unmarked?
    ensures Brought(g, h.Push(block, jitter).delivered) == Brought(g, h.delivered) + Weigh(g, block.pkts)
  {
    hide Brought, ReleaseTime, AddAll, SortByUid;
    BroughtAppend(g, h.delivered, Deliveries(block.pkts, ReleaseTime(block, jitter)));
    BroughtBlock(g, block.pkts, ReleaseTime(block, jitter));
  }

  // ----- the blocks kept for retransmission -----

  /** Every block kept carries the bits of its packets and the backhaul it was built with. */
  ghost predicate Built(l: Layer) {
    forall i :: 0 <= i < |l.harq.buf| ==>
      var b := l.harq.buf[i]; b.bits == Weigh(AllBits, b.pkts) && b.backhaulD == l.bhD && b.backhaulVar == l.bhVar
  }

  lemma StepBuilt(l: Layer, t: real)
    requires Built(l)
    ensures Built(l.StepTo(t)) && l.StepTo(t).ho.delivered == l.ho.delivered
  {
    hide Weigh, Layer.StepTo, PdcpProgress.Unexpired;
    Punctuality.StepDelivers(l, t);
    PdcpProgress.StepClearsHarq(l, t);
    StepKeepsBackhaul(l, t);
    var s := l.StepTo(t);
    forall i | 0 <= i < |s.harq.buf|
      ensures s.harq.buf[i] in l.harq.buf
    {
      assert s.harq.buf[i] in s.harq.buf;
    }
  }

  lemma StepKeepsBackhaul(l: Layer, t: real)
    ensures l.StepTo(t).bhD == l.bhD && l.StepTo(t).bhVar == l.bhVar
  {
    hide Layer.StepTo, Handler.Ingest, Buffer.StepTo;
    StepInduction(l, t, (k: Layer) => k.bhD == l.bhD && k.bhVar == l.bhVar);
  }

  lemma TurnReports(l: Layer, bits: real, radio: Radio)
    requires bits > 0.0 && l.buf.HasPkts() && Built(l)
    ensures var (l', outcome) := l.Turn(bits, radio);
            && Brought(AllBits, l'.ho.delivered)
               == Brought(AllBits, l.ho.delivered) + (if outcome.Done? then outcome.sent else 0)
            && Built(l') && l'.bhD == l.bhD && l'.bhVar == l.bhVar
  {
    hide Buffer.GetPkts, Buffer.HasPkts, Buffer.OldestTimestamp, Layer.CollectDropped, Handler.DropBlock, Handler.Push,
         Weigh, Brought;
    var (b, out) := l.buf.GetPkts(bits.Floor);
    var l1 := l.(buf := b, nextId := l.nextId + 1);
    CollectKeepsQueues(l1);
    Punctuality.CollectDelivers(l1);
    var l2 := l1.CollectDropped();
    var block := BlockOf(l.nextId, l.buf.OldestTimestamp(), l.now, l.bhD, l.bhVar, out);
    DropKeepsHandler(l2.ho, block);
    PushBrings(l2.ho, block, radio.jitter, AllBits);
  }

  lemma {:induction false} ServeNewReports(l: Layer, bits: real, radio: Radio)
    requires l.Halts(bits) && Built(l)
    ensures var (l', sent) := l.ServeNew(bits, radio);
            Brought(AllBits, l'.ho.delivered) == Brought(AllBits, l.ho.delivered) + sent && Built(l')
    decreases Waiting(AllBits, l.buf)
  {
    hide Layer.Turn, Waiting, Brought, Built;
    if bits > 0.0 && l.buf.HasPkts() {
      TurnShrinks(l, bits, radio);
      TurnReports(l, bits, radio);
      if l.Turn(bits, radio).1 == Again {
        ServeNewReports(l.Turn(bits, radio).0, bits, radio);
      }
    }
  }

  lemma ServeAgainReports(l: Layer, radio: Radio)
    requires l.harq.buf != [] && Built(l)
    ensures var (l', sent) := l.ServeAgain(radio);
            Brought(AllBits, l'.ho.delivered) == Brought(AllBits, l.ho.delivered) + sent && Built(l')
  {
    hide Handler.DropBlock, Handler.Push, Weigh, Brought;
    var (h, b) := l.harq.GetPkt();
    assert forall i :: 0 <= i < |h.buf| ==> h.buf[i] == l.harq.buf[i + 1];
    DropKeepsHandler(l.ho, b);
    PushBrings(l.ho, b, radio.jitter, AllBits);
  }

  // ----- every run -----

  // What all grants of a run report sent.
  function Reported(l: Layer, es: seq<Event>): nat
    requires CanRun(l, es)
    decreases |es|
  {
    if es == [] then 0
    else (if es[0].Grant? then l.HandlePkt(es[0].bits, es[0].radio).1 else 0) + Reported(Apply(l, es[0]), es[1..])
  }

  lemma EventReports(l: Layer, e: Event)
    requires Built(l) && Enabled(l, e)
    ensures var l' := Apply(l, e);
            && Built(l')
            && Brought(AllBits, l'.ho.delivered) == Brought(AllBits, l.ho.delivered)
                                                    + if e.Grant? then l.HandlePkt(e.bits, e.radio).1 else 0
  {
    hide Weigh, Brought, Layer.StepTo, Layer.ServeNew, Layer.ServeAgain, Handler.Release;
    match e
    case Capture(info, payload) =>
    case Step(t) => StepBuilt(l, t);
    case Grant(bits, radio) =>
      if l.harq.IsPktReady() {
        ServeAgainReports(l, radio);
      } else {
        ServeNewReports(l, bits, radio);
      }
    case Release => Punctuality.ReleaseDelivers(l.ho);
    case Report =>
  }

  lemma {:induction false} RunReports(l: Layer, es: seq<Event>)
    requires Built(l) && CanRun(l, es)
    ensures Built(Run(l, es))
    ensures Brought(AllBits, Run(l, es).ho.delivered) == Brought(AllBits, l.ho.delivered) + Reported(l, es)
    decreases |es|
  {
    hide Built, Brought, Enabled, Apply, Layer.HandlePkt;
    if es != [] {
      EventReports(l, es[0]);
      RunReports(Apply(l, es[0]), es[1..]);
    }
  }

  lemma NothingBroughtYet(l: Layer)
    requires Initial(l)
    ensures Built(l) && Brought(AllBits, l.ho.delivered) == 0
  {
  }

  /** Over every run in either mode, whatever fails, expires or is dropped: the bits all grants report sent are exactly
      the bits of the pieces delivered. */
  lemma ReportsAreDeliveries(l: Layer, es: seq<Event>)
    requires Initial(l) && CanRun(l, es)
    ensures Reported(l, es) == Brought(AllBits, Run(l, es).ho.delivered)
  {
    hide Initial, Run, CanRun, Reported, Brought, Built;
    NothingBroughtYet(l);
    RunReports(l, es);
  }

  // ----- an accepted packet is delivered whole -----

  predicate SummedEntry(p: IpPkt, ds: seq<Delivery>) { p.size == Brought(BitsOf(p.uid), ds) }

  function SummedIn(ds: seq<Delivery>): IpPkt -> bool { (p: IpPkt) => SummedEntry(p, ds) }

  ghost predicate ToldSummed(vs: seq<Verdict>, ds: seq<Delivery>, u: nat) {
    forall i :: 0 <= i < |vs| && vs[i].pkt.uid == u && vs[i].kind != Discarded ==> SummedEntry(vs[i].pkt, ds)
  }

  /** An unspoiled entry, or an accepted packet, has the bits of all the pieces delivered of it. */
  ghost predicate Summed(h: Handler, u: nat) {
    Entries(h.out, u, SummedIn(h.delivered)) && ToldSummed(h.verdicts, h.delivered, u)
  }

  lemma {:induction false} UnreachedIsEmpty(ds: seq<Delivery>, u: nat)
    requires !Reached(ds, u)
    ensures Brought(BitsOf(u), ds) == 0
  {
    if ds != [] {
      var rest := ds[..|ds| - 1];
      assert forall k :: 0 <= k < |rest| ==> rest[k] == ds[k];
      UnreachedIsEmpty(rest, u);
    }
  }

  lemma BroughtMore(p: IpPkt, due: real, ds: seq<Delivery>, u: nat)
    ensures var ds' := ds + [Delivery(p.uid, p.size, due, p.ceMarked)];
            Brought(BitsOf(u), ds') == Brought(BitsOf(u), ds) + if p.uid == u then p.size else 0
  {
    BroughtAppend(BitsOf(u), ds, [Delivery(p.uid, p.size, due, p.ceMarked)]);
    BroughtOne(BitsOf(u), p, due);
  }

  lemma AddDataSums(out: seq<IpPkt>, p: IpPkt, ds: seq<Delivery>, u: nat)
    requires Distinct(out) && Entries(out, u, SummedIn(ds)) && (p.uid == u && Reached(ds, u) ==> Holds(out, u))
    ensures var ds' := ds + [Delivery(p.uid, p.size, p.tOut, p.ceMarked)]; Entries(AddData(out, p), u, SummedIn(ds'))
  {
    BroughtMore(p, p.tOut, ds, u);
    hide Brought;
    var i := FindUid(out, p.uid);
    if i == |out| && p.uid == u {
      assert !Holds(out, u);
      UnreachedIsEmpty(ds, u);
    }
  }

  lemma {:induction false} AddAllSums(out: seq<IpPkt>, pkts: seq<IpPkt>, tOut: real, ipT: real, ds: seq<Delivery>,
      u: nat)
    requires Distinct(out) && Entries(out, u, SummedIn(ds)) && (Holds(pkts, u) && Reached(ds, u) ==> Holds(out, u))
    ensures Entries(AddAll(out, pkts, tOut, ipT), u, SummedIn(ds + Deliveries(pkts, tOut)))
    decreases |pkts|
  {
    hide Entries, AddData, Deliveries, Distinct, SummedIn;
    if pkts == [] {
      NoDeliveries(tOut);
      assert ds + [] == ds;
    } else {
      var p, rest := Stamped(pkts[0], tOut, ipT), pkts[1..];
      var d := Delivery(p.uid, p.size, tOut, p.ceMarked);
      assert pkts[0].uid == u ==> Holds(pkts, u);
      assert forall i :: 0 <= i < |rest| ==> rest[i] == pkts[i + 1];
      AddDataSums(out, p, ds, u);
      AddDataHolds(out, p, u);
      ReachedMore(ds, d, u);
      DataStaysDistinct(out, p);
      AddAllSums(AddData(out, p), rest, tOut, ipT, ds + [d], u);
      DeliveriesCons(pkts, tOut);
      assert ds + ([d] + Deliveries(rest, tOut)) == (ds + [d]) + Deliveries(rest, tOut);
    }
  }

  lemma AddDataHolds(out: seq<IpPkt>, p: IpPkt, u: nat)
    ensures Holds(out, u) || p.uid == u ==> Holds(AddData(out, p), u)
  {
    var i, out' := FindUid(out, p.uid), AddData(out, p);
    assert out'[i].uid == p.uid && forall j :: 0 <= j < |out| ==> out'[j].uid == out[j].uid;
  }

  lemma DataStaysDistinct(out: seq<IpPkt>, p: IpPkt)
    requires Distinct(out)
    ensures Distinct(AddData(out, p))
  {
  }

  lemma PushSums(h: Handler, block: HarqPkt, jitter: real, u: nat)
    requires Summed(h, u) && Distinct(h.out) && (Holds(block.pkts, u) && Reached(h.delivered, u) ==> Holds(h.out, u))
    requires Verdicts(h.verdicts, u) >= 1 ==> !Holds(block.pkts, u)
    ensures Summed(h.Push(block, jitter), u)
  {
    hide Entries, Reached, Holds, AddAll, SortByUid, ReleaseTime, Deliveries, Brought, Distinct, Verdicts;
    var due := ReleaseTime(block, jitter);
    AddAllSums(h.out, block.pkts, due, block.ipT, h.delivered, u);
    SortEntries(AddAll(h.out, block.pkts, due, block.ipT), u, SummedIn(h.delivered + Deliveries(block.pkts, due)));
    forall i | 0 <= i < |h.verdicts| && h.verdicts[i].pkt.uid == u && h.verdicts[i].kind != Discarded
      ensures SummedEntry(h.verdicts[i].pkt, h.delivered + Deliveries(block.pkts, due))
    {
      VerdictCounts(h.verdicts, i, u);
      NobodyWeighs(block.pkts, u);
      PushBrings(h, block, jitter, BitsOf(u));
    }
  }

  lemma KeptSums(h: Handler, h': Handler, u: nat)
    requires Summed(h, u) && Kept(h, h', u, SummedIn(h.delivered))
    ensures Summed(h', u)
  {
    hide Entries, ToldSummed, Holds;
  }

  lemma SummedEntries(h: Handler, u: nat)
    requires Summed(h, u)
    ensures Entries(h.out, u, SummedIn(h.delivered))
  {
  }

  lemma DropSums(h: Handler, block: HarqPkt, u: nat)
    requires Summed(h, u)
    ensures Summed(h.DropBlock(block), u)
  {
    hide Entries, ToldSummed, Holds, Handler.DropBlock;
    DropEntries(h, h, block, u, SummedIn(h.delivered));
    KeptSums(h, h.DropBlock(block), u);
  }

  // What one packet's sums need of the state.
  ghost predicate Tallied(l: Layer, u: nat) {
    Shape(l) && (forall v: nat :: Books(l, v)) && Draining.Neat(l) && Arrived(l.ho, u) && Summed(l.ho, u)
  }

  // The victims collected, and a block that is in nobody's hands yet.
  lemma FlightSums(l: Layer, grant: nat, u: nat)
    requires Shape(l) && Books(l, u) && Draining.Neat(l) && Arrived(l.ho, u) && Summed(l.ho, u)
    ensures var (b, out) := l.buf.GetPkts(grant);
            var h := l.(buf := b, nextId := l.nextId + 1).CollectDropped().ho;
            && Summed(h, u) && Distinct(h.out)
            && (Verdicts(h.verdicts, u) >= 1 ==> !Holds(out, u))
            && (Reached(h.delivered, u) && Verdicts(h.verdicts, u) == 0 ==> Holds(h.out, u))
  {
    hide Shape, Books, Summed, Arrived, Buffer.GetPkts, Layer.CollectDropped, BooksInFlight, Holds, Entries,
         Draining.Neat, Verdicts, AllGenuine;
    var (b, out) := l.buf.GetPkts(grant);
    var l1 := l.(buf := b, nextId := l.nextId + 1);
    GrantTaken(l, grant, u);
    if Verdicts(l.ho.verdicts, u) >= 1 {
      ToldHasNoFlight(l1, u, out);
    }
    SummedEntries(l.ho, u);
    CollectEntries(l1, u, SummedIn(l.ho.delivered));
    var l2 := l1.CollectDropped();
    KeptSums(l.ho, l2.ho, u);
    ReachedIsHeld(l.ho, l2.ho, u);
    CollectDistinct(l1, l);
  }

  lemma TurnSums(l: Layer, bits: real, radio: Radio, u: nat)
    requires Shape(l) && Books(l, u) && Draining.Neat(l) && Arrived(l.ho, u) && Summed(l.ho, u)
    requires bits > 0.0 && l.buf.HasPkts()
    ensures Summed(l.Turn(bits, radio).0.ho, u)
  {
    hide Shape, Books, Summed, Arrived, Buffer.GetPkts, Layer.CollectDropped, Buffer.HasPkts, Handler.DropBlock,
         Handler.Push, Harq.AddPkts, Buffer.OldestTimestamp, Holds, Reached, Draining.Neat, Verdicts, Distinct;
    var (b, out) := l.buf.GetPkts(bits.Floor);
    FlightSums(l, bits.Floor, u);
    var l1 := l.(buf := b, nextId := l.nextId + 1);
    var block := BlockOf(l.nextId, l.buf.OldestTimestamp(), l.now, l.bhD, l.bhVar, out);
    CollectKeepsQueues(l1);
    DropSums(l1.CollectDropped().ho, block, u);
    PushSums(l1.CollectDropped().ho, block, radio.jitter, u);
  }

  lemma ReachedIsHeld(h: Handler, h': Handler, u: nat)
    requires Arrived(h, u) && h'.delivered == h.delivered && h'.verdicts == h.verdicts
    requires Holds(h.out, u) ==> Holds(h'.out, u)
    ensures Reached(h'.delivered, u) && Verdicts(h'.verdicts, u) == 0 ==> Holds(h'.out, u)
  {
    hide Entries, ToldOpened, Holds, Reached, Verdicts;
  }

  lemma CollectDistinct(l1: Layer, l: Layer)
    requires Draining.Neat(l) && l1.ho == l.ho
    ensures Distinct(l1.CollectDropped().ho.out)
  {
    hide Layer.CollectDropped, Handler.DropBlock;
    forall k: Layer | Distinct(k.ho.out) && k.buf.PopAqmDropped().1.Some?
      ensures Distinct(k.CollectOne().ho.out)
    {
      var (b, victim) := k.buf.PopAqmDropped();
      Draining.HandlerDistinct(k.ho, AqmBlock(victim.value, b.now), 0.0);
    }
    CollectInduction(l1, (k: Layer) => Distinct(k.ho.out));
  }

  lemma TurnTallies(l: Layer, bits: real, radio: Radio, u: nat)
    requires Tallied(l, u) && bits > 0.0 && l.buf.HasPkts()
    ensures Tallied(l.Turn(bits, radio).0, u)
  {
    hide Shape, Books, Draining.Neat, Arrived, Summed, Layer.Turn;
    assert Books(l, u);
    TurnSums(l, bits, radio, u);
    forall v: nat
      ensures Books(l.Turn(bits, radio).0, v) && Shape(l.Turn(bits, radio).0)
    {
      TurnKeeps(l, bits, radio, v);
    }
    assert Shape(l.Turn(bits, radio).0) && Books(l, u) by {
      TurnKeeps(l, bits, radio, 0);
    }
    TurnArrives(l, bits, radio, u);
    Draining.TurnNeat(l, bits, radio);
  }

  lemma HandleSums(l: Layer, bits: real, radio: Radio, u: nat)
    requires Tallied(l, u) && (l.harq.IsPktReady() || l.Halts(bits))
    ensures Summed(l.HandlePkt(bits, radio).0.ho, u)
  {
    hide Shape, Books, Draining.Neat, Arrived, Summed, Layer.Turn, Layer.ServeNew, Handler.Push, Handler.DropBlock,
         Harq.Queue, Holds, Reached;
    if l.harq.IsPktReady() {
      var b := l.harq.buf[0];
      assert Books(l, u);
      if Verdicts(l.ho.verdicts, u) >= 1 {
        ToldHasNoBlock(l, u);
      }
      ReachedIsHeld(l.ho, l.ho, u);
      NeatIsDistinct(l);
      DropSums(l.ho, b, u);
      PushSums(l.ho, b, radio.jitter, u);
    } else {
      hide Tallied;
      forall k: Layer | Tallied(k, u) && bits > 0.0 && k.buf.HasPkts()
        ensures Tallied(k.Turn(bits, radio).0, u)
      {
        TurnTallies(k, bits, radio, u);
      }
      GrantInduction(l, bits, radio, (k: Layer) => Tallied(k, u));
      TalliedIsSummed(l.ServeNew(bits, radio).0, u);
    }
  }

  lemma NeatIsDistinct(l: Layer)
    requires Draining.Neat(l)
    ensures Distinct(l.ho.out)
  {
  }

  lemma TalliedIsSummed(l: Layer, u: nat)
    requires Tallied(l, u)
    ensures Summed(l.ho, u)
  {
  }

  lemma {:induction false} ReleaseSums(h: Handler, u: nat)
    requires Summed(h, u)
    ensures Summed(h.Release(), u)
    decreases |h.out|
  {
    hide Store.Verdict, SummedIn, Handler.FrontGoes;
    if h.FrontGoes() {
      FrontIsThere(h);
      var h', told := h.ReleaseFront(), |h.verdicts|;
      assert h'.verdicts[told].pkt == h.out[0] && h'.verdicts[told].kind == KindOf(h.out[0]);
      assert SummedIn(h.delivered)(h.out[0]) == SummedEntry(h.out[0], h.delivered) by {
        IsSummed(h.out[0], h.delivered);
      }
      hide SummedEntry;
      assert forall i :: 0 <= i < told ==> h'.verdicts[i] == h.verdicts[i];
      ReleaseSums(h', u);
    }
  }

  lemma IsSummed(p: IpPkt, ds: seq<Delivery>)
    ensures SummedIn(ds)(p) == SummedEntry(p, ds)
  {
  }

  lemma EventSums(l: Layer, e: Event, u: nat)
    requires Good(l) && Draining.Neat(l) && Arrived(l.ho, u) && Summed(l.ho, u) && Enabled(l, e)
    ensures Summed(Apply(l, e).ho, u)
  {
    hide Shape, Books, HarqLaws.WithinTurns, Draining.Neat, Arrived, Layer.StepTo, Layer.HandlePkt, Handler.Release,
         Entries, ToldSummed, Holds;
    match e
    case Capture(info, payload) =>
    case Step(t) =>
      StepEntries(l, t, u, SummedIn(l.ho.delivered));
      KeptSums(l.ho, l.StepTo(t).ho, u);
    case Grant(bits, radio) => HandleSums(l, bits, radio, u);
    case Release => ReleaseSums(l.ho, u);
    case Report =>
  }

  lemma RunsSum(l: Layer, es: seq<Event>, u: nat)
    requires Initial(l) && CanRun(l, es)
    ensures Good(Run(l, es)) && Summed(Run(l, es).ho, u)
  {
    hide Good, Run, CanRun, Enabled, Apply, Draining.Neat, Arrived, Summed;
    InitialIsGood(l);
    StartsSummed(l, u);
    var inv := (k: Layer) => Good(k) && Draining.Neat(k) && Arrived(k.ho, u) && Summed(k.ho, u);
    forall k: Layer, e: Event | inv(k) && Enabled(k, e)
      ensures inv(Apply(k, e))
    {
      EventKeeps(k, e);
      Draining.EventNeat(k, e);
      EventArrives(k, e, u);
      EventSums(k, e, u);
    }
    RunInduction(l, es, inv);
  }

  lemma StartsSummed(l: Layer, u: nat)
    requires Initial(l)
    ensures Draining.Neat(l) && Arrived(l.ho, u) && Summed(l.ho, u)
  {
  }

  /** Over every run in either mode, whatever fails or is retransmitted: the pieces delivered of an accepted packet are
      exactly all the bits captured of it, no more and no fewer. */
  lemma AcceptedIsDelivered(l: Layer, es: seq<Event>, i: nat)
    requires Initial(l) && CanRun(l, es) && i < |Run(l, es).ho.verdicts| && Run(l, es).ho.verdicts[i].kind != Discarded
    ensures var h := Run(l, es).ho; var u := h.verdicts[i].pkt.uid;
            u in h.store.seen && Brought(BitsOf(u), h.delivered) == h.store.seen[u].bytes * 8
  {
    hide Initial, Run, CanRun, Good, Entries, Brought;
    var r := Run(l, es);
    RunsSum(l, es, r.ho.verdicts[i].pkt.uid);
    ToldIsWhole(r, i);
  }

  lemma ToldIsWhole(l: Layer, i: nat)
    requires Good(l) && i < |l.ho.verdicts|
    ensures var p := l.ho.verdicts[i].pkt; p.uid in l.ho.store.seen && p.size == l.ho.store.seen[p.uid].bytes * 8
  {
    hide Shape, Books, HarqLaws.WithinTurns;
    ShapeSettles(l);
    assert l.ho.verdicts[i] in l.ho.verdicts;
  }

  // ----- a grant that succeeds is used up -----

  lemma TurnUsesUp(l: Layer, bits: real, radio: Radio)
    requires Shape(l) && bits >= 1.0 && l.buf.HasPkts() && !radio.fails
    ensures var (l', outcome) := l.Turn(bits, radio);
            outcome.Done? ==> outcome.sent == bits.Floor || !l'.buf.HasPkts()
  {
    hide BufferGenuine, BlocksGenuine, HandlerShape, BufferSound, Buffer.GetPkts, Layer.CollectDropped,
         Handler.DropBlock, Handler.Push, Weigh, Booked;
    GetPktsKeeps(l.buf, bits.Floor, AllBits);
    CollectKeepsQueues(l.(buf := l.buf.GetPkts(bits.Floor).0, nextId := l.nextId + 1));
  }

  /** A grant of whole bits whose transmission succeeds is used up exactly or empties the buffer, in either mode and
      whatever the AQM drops or expires on the way. */
  lemma {:induction false} CleanGrantIsUsedUp(l: Layer, bits: real, radio: Radio)
    requires Shape(l) && Books(l, 0) && bits >= 1.0 && !radio.fails
    ensures var (l', sent) := l.ServeNew(bits, radio); sent == bits.Floor || !l'.buf.HasPkts()
    decreases Waiting(AllBits, l.buf)
  {
    hide Shape, Books, Layer.Turn, Waiting, Buffer.HasPkts;
    if l.buf.HasPkts() {
      TurnShrinks(l, bits, radio);
      TurnUsesUp(l, bits, radio);
      TurnKeeps(l, bits, radio, 0);
      if l.Turn(bits, radio).1 == Again {
        CleanGrantIsUsedUp(l.Turn(bits, radio).0, bits, radio);
      }
    }
  }

  // The FIFO gives what is asked for, or all it has.
  lemma FifoGives(b: Buffer, grant: nat)
    requires BufferSound(b) && !b.dual && b.q.lanes == NO_LANES
    ensures var (b', out) := b.GetPkts(grant);
            && Weigh(AllBits, out) == (if grant < Weigh(AllBits, b.fifo) then grant else Weigh(AllBits, b.fifo))
            && !b'.dual && (grant > 0 && b.fifo != [] ==> out != [])
  {
    GetPktsKeeps(b, grant, AllBits);
    FifoLeavesLanes(b, grant);
    hide Buffer.Fill, Sound, Weigh;
    EmptyWeighsNothing();
  }

  lemma {:induction false} FifoLeavesLanes(b: Buffer, grant: nat)
    requires !b.dual
    ensures b.Fill(grant).0 == b.(fifo := b.Fill(grant).0.fifo)
    ensures grant > 0 && b.fifo != [] ==> b.Fill(grant).1 != []
    decreases grant
  {
    if grant > 0 && b.fifo != [] && b.fifo[0].size <= grant {
      FifoLeavesLanes(b.PopNext().0, grant - b.fifo[0].size);
    }
  }

  /** Over every run of FIFO mode with a capture clock that does not run backwards: a grant that is not spent on a
      retransmission and succeeds reports its whole bits or, if there are fewer, all the bits queued, and adds exactly
      those to reassembly. */
  lemma FifoGrantsAreExact(l: Layer, es: seq<Event>, bits: real, radio: Radio)
    requires Initial(l) && CanRun(l, es) && !l.buf.dual && FifoBudget.ClockAscends(l.ho.clock)
    requires var r := Run(l, es); !r.harq.IsPktReady() && r.Halts(bits) && bits >= 0.0 && !radio.fails
    ensures var r := Run(l, es); var (r', sent) := r.HandlePkt(bits, radio); var queued := Weigh(AllBits, r.buf.fifo);
            && sent == (if bits.Floor < queued then bits.Floor else queued)
            && Weigh(AllBits, r'.ho.out) == Weigh(AllBits, r.ho.out) + sent
  {
    hide Initial, Run, CanRun, Good, Draining.Neat, Weigh, FifoBudget.ClockAscends, FifoBudget.Ascending,
         Layer.ServeNew, BufferSound, Layer.Halts;
    RunsAreNeatFifo(l, es);
    FifoBudget.FifoNeverServesLate(l, es, bits, radio);
    var r := Run(l, es);
    FifoGrantIsExact(r, bits, radio);
  }

  lemma RunsAreNeatFifo(l: Layer, es: seq<Event>)
    requires Initial(l) && CanRun(l, es) && !l.buf.dual
    ensures var r := Run(l, es); !r.buf.dual && BufferSound(r.buf) && r.buf.q.lanes == NO_LANES
  {
    hide Run, CanRun, Good, Draining.Neat, Bounds.OneTime, Bounds.WithinCapacity;
    Draining.RunsAreNeat(l, es);
    Bounds.RunsAreBounded(l, es);
    NeatFifo(Run(l, es));
  }

  lemma NeatFifo(l: Layer)
    requires Good(l) && Draining.Neat(l)
    ensures BufferSound(l.buf) && (!l.buf.dual ==> l.buf.q.lanes == NO_LANES)
  {
    hide BufferSound, Books, HarqLaws.WithinTurns, BufferGenuine, BlocksGenuine, HandlerShape;
  }

  lemma FifoGrantIsExact(r: Layer, bits: real, radio: Radio)
    requires !r.buf.dual && BufferSound(r.buf) && r.buf.q.lanes == NO_LANES && !r.harq.IsPktReady() && r.Halts(bits)
    requires bits >= 0.0 && !radio.fails && (r.buf.HasPkts() ==> !r.IsExpired(r.buf.OldestTimestamp()))
    ensures var (r', sent) := r.HandlePkt(bits, radio); var queued := Weigh(AllBits, r.buf.fifo);
            && sent == (if bits.Floor < queued then bits.Floor else queued)
            && Weigh(AllBits, r'.ho.out) == Weigh(AllBits, r.ho.out) + sent
  {
    hide BufferSound, Weigh, Handler.Push, Layer.CollectDropped, Buffer.GetPkts;
    EmptyWeighsNothing();
    if bits > 0.0 && r.buf.HasPkts() {
      FifoGives(r.buf, bits.Floor);
      PdcpProgress.TurnDelivers(r, bits, radio);
      var (b, out) := r.buf.GetPkts(bits.Floor);
      FifoBudget.CollectIsIdle(r.(buf := b, nextId := r.nextId + 1));
      var block := BlockOf(r.nextId, r.buf.OldestTimestamp(), r.now, r.bhD, r.bhVar, out);
      PushKeeps(r.ho, block, radio.jitter, AllBits);
      assert r.HandlePkt(bits, radio) == (r.Turn(bits, radio).0, block.bits);
    }
  }
}
