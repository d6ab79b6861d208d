// The delay budget in either mode: a tick takes exactly the late packets off the fronts of the queues, and a grant
// drops its block exactly if a head is late.
module Expiry {
  import opened Packets
  import opened IpBuffer
  import opened CapturedHandler
  import opened CapturedHandlerLaws
  import opened PdcpLayer
  import opened PdcpInduction
  import opened SignalLaws
  import PdcpProgress

  // ----- heads over budget -----

  // Some packet that could be served next arrived more than the budget ago.
  predicate HeadIsLate(l: Layer) {
    var limit, q := l.now - l.budget, l.buf.q.lanes;
    if l.buf.dual then (q.l != [] && q.l[0].currentT < limit) || (q.c != [] && q.c[0].currentT < limit)
    else l.buf.fifo != [] && l.buf.fifo[0].currentT < limit
  }

  lemma LateIsLate(l: Layer)
    ensures LateHead(l) <==> HeadIsLate(l)
  {
  }

  // ----- the tick -----

  // A queue without the late packets at its front.
  function Timely(s: seq<IpPkt>, limit: real): seq<IpPkt> {
    if s != [] && s[0].currentT < limit then Timely(s[1..], limit) else s
  }

  /** What is taken off is late, packet by packet; what is left starts with a packet within budget, and every packet
      within budget is left. */
  lemma {:induction false} TimelyMeans(s: seq<IpPkt>, limit: real)
    ensures var r := Timely(s, limit); var n := |s| - |r|;
            && n >= 0 && r == s[n..] && (forall i :: 0 <= i < n ==> s[i].currentT < limit)
            && (r != [] ==> r[0].currentT >= limit)
            && (forall p :: p in s && p.currentT >= limit ==> p in r)
  {
    if s != [] && s[0].currentT < limit {
      TimelyMeans(s[1..], limit);
      assert s == [s[0]] + s[1..];
    }
  }

  ghost predicate FrontsTaken(b: Buffer, b': Buffer, limit: real) {
    && b'.dual == b.dual && b'.q.lanes.dropped == b.q.lanes.dropped && b'.q.aqm.log == b.q.aqm.log
    && (if b.dual then
          && b'.fifo == b.fifo
          && b'.q.lanes.l == Timely(b.q.lanes.l, limit) && b'.q.lanes.c == Timely(b.q.lanes.c, limit)
        else
          && b'.q.lanes.l == b.q.lanes.l && b'.q.lanes.c == b.q.lanes.c && b'.fifo == Timely(b.fifo, limit))
  }

  lemma OldestLeaves(l: Layer)
    requires HeadIsLate(l)
    ensures var l' := l.DropOldest(); var limit := l.now - l.budget;
            && l'.now == l.now && l'.budget == l.budget
            && (forall b: Buffer :: FrontsTaken(l'.buf, b, limit) ==> FrontsTaken(l.buf, b, limit))
  {
    hide Handler.DropBlock;
  }

  /** In either mode, whatever the order in which the packets arrived: the cleanup of a tick takes exactly the late
      packets off the front of each queue. */
  lemma {:induction false} CleanupTakesLateFronts(l: Layer)
    ensures FrontsTaken(l.buf, l.CleanupIp().buf, l.now - l.budget)
    ensures !HeadIsLate(l.CleanupIp())
    decreases |l.buf.fifo| + |l.buf.q.lanes.l| + |l.buf.q.lanes.c|
  {
    LateIsLate(l);
    if LateHead(l) {
      hide FrontsTaken, Layer.DropOldest, Buffer.OldestTimestamp, Buffer.HasPkts, HeadIsLate;
      HasOldest(l);
      DropOldestShrinks(l);
      OldestLeaves(l);
      CleanupTakesLateFronts(l.DropOldest());
    }
  }

  lemma HasOldest(l: Layer)
    requires LateHead(l)
    ensures l.buf.HasPkts() && l.CleanupIp() == l.DropOldest().CleanupIp()
  {
    hide Layer.DropOldest;
  }

  /** A packet within budget that is queued stays queued over the cleanup of a tick, whatever stands before it. */
  lemma CleanupSparesFresh(l: Layer, p: IpPkt)
    requires p.currentT >= l.now - l.budget
    ensures var b, b' := l.buf, l.CleanupIp().buf;
            && (p in b.fifo ==> p in b'.fifo) && (p in b.q.lanes.l ==> p in b'.q.lanes.l)
            && (p in b.q.lanes.c ==> p in b'.q.lanes.c)
  {
    hide Layer.CleanupIp, Timely;
    CleanupTakesLateFronts(l);
    TimelyMeans(l.buf.fifo, l.now - l.budget);
    TimelyMeans(l.buf.q.lanes.l, l.now - l.budget);
    TimelyMeans(l.buf.q.lanes.c, l.now - l.budget);
  }

  lemma CleanupHarqLeaves(l: Layer)
    ensures var r := l.CleanupHarq(); r.buf == l.buf && r.now == l.now && r.budget == l.budget
  {
    hide Layer.CleanupHarq, PdcpProgress.Unexpired, PdcpProgress.Expired;
    PdcpProgress.CleanupHarqFilters(l);
  }

  lemma LoopsKeepTime(l: Layer)
    ensures var k := l.DrainIngress().CollectDropped(); k.now == l.now && k.budget == l.budget
    ensures l.CleanupIp().now == l.now && l.CleanupIp().budget == l.budget
  {
    hide Layer.DrainIngress, Layer.CollectDropped, Layer.CleanupIp, Handler.DropBlock, Handler.DropIngress,
         Buffer.AddPkt, Buffer.PopOldest, Buffer.OldestTimestamp, BlockOf;
    var inv := (k: Layer) => k.now == l.now && k.budget == l.budget;
    DrainInduction(l, inv);
    CollectInduction(l.DrainIngress(), inv);
    CleanupIpInduction(l, inv);
  }

  /** A whole tick, in either mode: what ingress and the AQM's victims leave queued, without the late packets at the
      fronts; so afterwards no packet that could be served next is late. */
  lemma StepTakesLateFronts(l: Layer, t: real)
    ensures var k := l.Tick(t).DrainIngress().CollectDropped();
            FrontsTaken(k.buf, l.StepTo(t).buf, t - l.budget) && !HeadIsLate(l.StepTo(t))
  {
    hide Layer.DrainIngress, Layer.CollectDropped, Layer.CleanupIp, Layer.CleanupHarq, Handler.Ingest, Buffer.StepTo,
         FrontsTaken;
    LoopsKeepTime(l.Tick(t));
    var k := l.Tick(t).DrainIngress().CollectDropped();
    LoopsKeepTime(k);
    CleanupTakesLateFronts(k);
    CleanupHarqLeaves(k.CleanupIp());
  }

  // ----- the grant -----

  /** What a turn of the grant loop does with the packets it takes, in either mode: nothing is delivered if a head was
      late, and every packet taken is spoiled, whatever its own age; otherwise they are delivered, due after the
      backhaul delay with its jitter, reassembly is put in order of ids and their bits are reported, or all are kept in
      one block, to be retransmitted once its acknowledgement delay is over, with nothing reported. */
  ghost predicate Decided(l: Layer, radio: Radio, out: seq<IpPkt>, l': Layer, outcome: Outcome) {
    var ds, ds' := l.ho.delivered, l'.ho.delivered;
    if HeadIsLate(l) then
      && ds' == ds && l'.harq.buf == l.harq.buf && outcome == Again
      && (forall p :: p in out ==> Spoiled(l'.ho.out, p.uid))
    else if radio.fails then
      && ds' == ds && outcome == Done(0) && |l'.harq.buf| == |l.harq.buf| + 1
      && l'.harq.buf[..|l.harq.buf|] == l.harq.buf
      && var b := l'.harq.buf[|l.harq.buf|];
         && b.pkts == out && b.bits == Weigh(AllBits, out) && b.id == l.nextId && b.nTx == 0
         && b.tOut == l'.harq.tOut == l.now + radio.ackDelay
    else
      && l'.harq.buf == l.harq.buf && outcome == Done(Weigh(AllBits, out)) && SortedByUid(l'.ho.out)
      && |ds'| == |ds| + |out| && ds <= ds'
      && forall i :: 0 <= i < |out| ==>
           ds'[|ds| + i] == Delivery(out[i].uid, out[i].size, l.now + l.bhD + radio.jitter * l.bhVar, out[i].ceMarked)
  }

  lemma {:induction false} RemoveAllSpoils(out: seq<IpPkt>, pkts: seq<IpPkt>, tOut: real, ipT: real, u: nat)
    requires Spoiled(out, u) || Holds(pkts, u)
    ensures Spoiled(RemoveAll(out, pkts, tOut, ipT), u)
    decreases |pkts|
  {
    hide RemoveData, Spoiled, Holds;
    if pkts == [] {
      NobodyHeld(u);
    } else {
      var p := Stamped(pkts[0], tOut, ipT);
      RemoveDataSpoils(out, p, u);
      HoldsRest(pkts, u);
      RemoveAllSpoils(RemoveData(out, p), pkts[1..], tOut, ipT, u);
    }
  }

  lemma HoldsRest(pkts: seq<IpPkt>, u: nat)
    requires pkts != []
    ensures Holds(pkts, u) <==> pkts[0].uid == u || Holds(pkts[1..], u)
  {
    assert forall i :: 0 < i < |pkts| ==> pkts[i] == pkts[1..][i - 1];
    assert forall i :: 0 <= i < |pkts| - 1 ==> pkts[1..][i] == pkts[i + 1];
  }

  // Spoiling one piece's packet spoils exactly that one.
  lemma RemoveDataSpoils(out: seq<IpPkt>, p: IpPkt, u: nat)
    ensures Spoiled(RemoveData(out, p), u) <==> Spoiled(out, u) || p.uid == u
  {
    var i, out' := FindUid(out, p.uid), RemoveData(out, p);
    assert out'[i].uid == p.uid && out'[i].erase;
    assert forall j :: 0 <= j < |out| ==> out'[j].uid == out[j].uid && (j != i ==> out'[j] == out[j]);
    if Spoiled(out, u) {
      var j :| 0 <= j < |out| && out[j].uid == u && out[j].erase;
      assert out'[j].uid == u && out'[j].erase;
    }
  }

  lemma {:induction false} RemoveAllSpoilsOnly(out: seq<IpPkt>, pkts: seq<IpPkt>, tOut: real, ipT: real, u: nat)
    requires !Spoiled(out, u) && !Holds(pkts, u)
    ensures !Spoiled(RemoveAll(out, pkts, tOut, ipT), u)
    decreases |pkts|
  {
    hide RemoveData, Spoiled, Holds;
    if pkts != [] {
      var p := Stamped(pkts[0], tOut, ipT);
      RemoveDataSpoils(out, p, u);
      HoldsRest(pkts, u);
      RemoveAllSpoilsOnly(RemoveData(out, p), pkts[1..], tOut, ipT, u);
    }
  }

  lemma TurnDecides(l: Layer, bits: real, radio: Radio)
    requires bits > 0.0 && l.buf.HasPkts() && l.buf.GetPkts(bits.Floor).1 != []
    ensures var (l', outcome) := l.Turn(bits, radio);
            Decided(l, radio, l.buf.GetPkts(bits.Floor).1, l', outcome)
  {
    LateIsLate(l);
    hide Buffer.GetPkts, Layer.CollectDropped, RemoveAll, AddAll, SortByUid, Weigh, Spoiled, Buffer.OldestTimestamp,
         HeadIsLate, Buffer.HasPkts;
    var (b, out) := l.buf.GetPkts(bits.Floor);
    var l1 := l.(buf := b, nextId := l.nextId + 1);
    CollectKeepsQueues(l1);
    CollectDeliversNothing(l1);
    var l2 := l1.CollectDropped();
    var block := BlockOf(l.nextId, l.buf.OldestTimestamp(), l.now, l.bhD, l.bhVar, out);
    DeliverySorts(l2.ho, block, radio.jitter);
    if HeadIsLate(l) {
      forall p | p in out
        ensures Spoiled(l2.ho.DropBlock(block).out, p.uid)
      {
        var i :| 0 <= i < |out| && out[i] == p;
        assert Holds(out, p.uid);
        RemoveAllSpoils(l2.ho.out, out, block.tOut, block.ipT, p.uid);
      }
    }
  }

  lemma CollectDeliversNothing(l: Layer)
    ensures var l' := l.CollectDropped(); l'.ho.delivered == l.ho.delivered && l'.harq == l.harq
  {
    hide Layer.CollectDropped, Handler.DropBlock;
    forall h: Handler, b: HarqPkt
      ensures h.DropBlock(b).delivered == h.delivered
    {
      DropKeepsHandler(h, b);
    }
    CollectInduction(l, (k: Layer) => k.ho.delivered == l.ho.delivered && k.harq == l.harq);
  }
}
