// When an accepted packet is early: reassembly keeps the release time of a packet's first piece, so a release can tell
// a packet whose later pieces are not due yet. Exactly when that happens, over every run.
module Punctuality {
  import opened Packets
  import opened IpBuffer
  import opened Harq
  import opened Capture
  import opened CapturedHandler
  import opened CapturedHandlerLaws
  import opened PdcpLayer
  import opened PdcpInduction
  import opened PdcpRuns
  import opened PdcpLaws
  import opened PdcpTheorems
  import opened EntryLists
  import opened Arrivals
  import opened SignalLaws
  import opened Histories

  // Some piece delivered of the packet is not due for release yet.
  predicate HasLatePiece(ds: seq<Delivery>, u: nat, now: real) {
    exists k :: 0 <= k < |ds| && ds[k].uid == u && ds[k].due > now
  }

  // An accepted packet was told no earlier than the release time of each of its pieces.
  predicate OnTime(v: Verdict, ds: seq<Delivery>) {
    v.kind != Discarded ==> !HasLatePiece(ds, v.pkt.uid, v.at)
  }

  ghost predicate AllOnTime(vs: seq<Verdict>, ds: seq<Delivery>) {
    forall i :: 0 <= i < |vs| ==> OnTime(vs[i], ds)
  }

  // ----- the condition -----

  // Whether the release stops at an entry, if it gets there: incomplete, or unspoiled and not due or out of order.
  predicate Stops(h: Handler, i: nat)
    requires i < |h.out|
  {
    var p, before := h.out[i], if i == 0 then h.prevReleased else h.out[i - 1].uid;
    !p.IsReady() || (!p.erase && (p.tOut > h.now || (h.doCheck && before > -1 && before != p.prevUid)))
  }

  predicate Sheltered(h: Handler, i: nat)
    requires i < |h.out|
  {
    exists j :: 0 <= j <= i && Stops(h, j)
  }

  /** What a caller can look up before a release: every unspoiled entry with a piece that is not due stands at or behind
      an entry the release stops at. */
  predicate TimelyRelease(h: Handler) {
    forall i :: 0 <= i < |h.out| && !h.out[i].erase && HasLatePiece(h.delivered, h.out[i].uid, h.now) ==>
      Sheltered(h, i)
  }

  predicate TimelyRun(l: Layer, es: seq<Event>)
    requires CanRun(l, es)
    decreases |es|
  {
    es == [] || ((es[0].Release? ==> TimelyRelease(l.ho)) && TimelyRun(Apply(l, es[0]), es[1..]))
  }

  // ----- one release -----

  lemma StopsAtFront(h: Handler)
    ensures h.FrontGoes() <==> h.out != [] && !Stops(h, 0)
  {
  }

  // Once the front has gone, the release stops at the same entries.
  lemma StopsMoveUp(h: Handler, i: nat)
    requires h.out != [] && i < |h.out| - 1
    ensures i < |h.ReleaseFront().out| && h.ReleaseFront().out[i] == h.out[i + 1]
    ensures Stops(h.ReleaseFront(), i) <==> Stops(h, i + 1)
  {
    hide Store.Verdict;
  }

  lemma ShelterMovesUp(h: Handler, i: nat)
    requires h.FrontGoes() && i < |h.out| - 1
    ensures i < |h.ReleaseFront().out| && (Sheltered(h.ReleaseFront(), i) <==> Sheltered(h, i + 1))
  {
    StopsAtFront(h);
    StopsMoveUp(h, i);
    hide Stops, Store.Verdict;
    var h' := h.ReleaseFront();
    if Sheltered(h, i + 1) {
      var j :| 0 <= j <= i + 1 && Stops(h, j);
      StopsMoveUp(h, j - 1);
    }
    if Sheltered(h', i) {
      var j :| 0 <= j <= i && Stops(h', j);
      StopsMoveUp(h, j);
      assert Stops(h, j + 1);
    }
  }

  // A front that goes is not sheltered, so what the others need is what they need after it has gone.
  lemma TimelyMovesUp(h: Handler)
    requires h.FrontGoes() && (h.out[0].erase || !HasLatePiece(h.delivered, h.out[0].uid, h.now))
    ensures TimelyRelease(h) <==> TimelyRelease(h.ReleaseFront())
  {
    FrontIsThere(h);
    hide Stops, HasLatePiece, Sheltered, Store.Verdict, Handler.FrontGoes;
    var h' := h.ReleaseFront();
    forall i | 0 <= i < |h'.out|
      ensures h'.out[i] == h.out[i + 1] && (Sheltered(h', i) <==> Sheltered(h, i + 1))
    {
      ShelterMovesUp(h, i);
      StopsMoveUp(h, i);
    }
    if TimelyRelease(h') {
      forall i | 0 <= i < |h.out| && !h.out[i].erase && HasLatePiece(h.delivered, h.out[i].uid, h.now)
        ensures Sheltered(h, i)
      {
        assert i > 0 && h'.out[i - 1] == h.out[i];
      }
    }
  }

  lemma FrontIsToldOnTime(h: Handler)
    requires h.FrontGoes()
    ensures var h' := h.ReleaseFront();
            && |h'.verdicts| == |h.verdicts| + 1 && h.verdicts <= h'.verdicts
            && (OnTime(h'.verdicts[|h.verdicts|], h.delivered) <==>
                  h.out[0].erase || !HasLatePiece(h.delivered, h.out[0].uid, h.now))
            && h'.delivered == h.delivered && h'.now == h.now && |h'.out| < |h.out|
  {
    hide HasLatePiece, Store.Verdict;
  }

  lemma UntimelyFront(h: Handler)
    requires h.FrontGoes() && !h.out[0].erase && HasLatePiece(h.delivered, h.out[0].uid, h.now)
    ensures !TimelyRelease(h)
  {
    hide HasLatePiece;
    StopsAtFront(h);
    hide Stops, Handler.FrontGoes;
    assert !Sheltered(h, 0);
  }

  lemma StoppedIsTimely(h: Handler)
    requires !h.FrontGoes()
    ensures TimelyRelease(h) && h.Release() == h
  {
    hide HasLatePiece;
    StopsAtFront(h);
    hide Stops;
    forall i | 0 <= i < |h.out|
      ensures Sheltered(h, i)
    {
      assert Stops(h, 0);
    }
  }

  /** One release: the packets it accepts are on time exactly if it is timely. */
  lemma {:induction false} ReleaseIsOnTime(h: Handler)
    requires AllOnTime(h.verdicts, h.delivered)
    ensures AllOnTime(h.Release().verdicts, h.delivered) <==> TimelyRelease(h)
    decreases |h.out|
  {
    hide OnTime, HasLatePiece, TimelyRelease, Handler.FrontGoes, Handler.ReleaseFront;
    if !h.FrontGoes() {
      StoppedIsTimely(h);
    } else {
      FrontIsThere(h);
      FrontIsToldOnTime(h);
      var h', n := h.ReleaseFront(), |h.verdicts|;
      if h.out[0].erase || !HasLatePiece(h.delivered, h.out[0].uid, h.now) {
        assert forall i :: 0 <= i < |h'.verdicts| ==> OnTime(h'.verdicts[i], h.delivered);
        ReleaseIsOnTime(h');
        TimelyMovesUp(h);
      } else {
        ReleaseExtends(h');
        assert h.Release().verdicts[n] == h'.verdicts[n];
        UntimelyFront(h);
      }
    }
  }

  // ----- every run -----

  // Nothing is told, and nothing delivered of the packet.
  ghost predicate DeliversNone(h: Handler, h': Handler, u: nat) {
    && h.delivered <= h'.delivered && h'.verdicts == h.verdicts
    && forall k :: |h.delivered| <= k < |h'.delivered| ==> h'.delivered[k].uid != u
  }

  lemma PushDeliversNone(h0: Handler, h: Handler, block: HarqPkt, jitter: real, u: nat)
    requires DeliversNone(h0, h, u) && !Holds(block.pkts, u)
    ensures DeliversNone(h0, h.Push(block, jitter), u)
  {
    hide AddAll, SortByUid, ReleaseTime;
    var h', n := h.Push(block, jitter), |h.delivered|;
    assert forall k :: n <= k < |h'.delivered| ==> h'.delivered[k].uid == block.pkts[k - n].uid;
    assert forall k :: 0 <= k < n ==> h'.delivered[k] == h.delivered[k];
  }

  lemma SameTold(h0: Handler, h: Handler, u: nat)
    requires DeliversNone(h0, h, u)
    ensures h.verdicts == h0.verdicts
  {
  }

  lemma SameDeliveries(h0: Handler, h: Handler, h': Handler, u: nat)
    requires DeliversNone(h0, h, u) && h'.delivered == h.delivered && h'.verdicts == h.verdicts
    ensures DeliversNone(h0, h', u)
  {
  }

  lemma CollectDelivers(l: Layer)
    ensures var h := l.CollectDropped().ho; h.delivered == l.ho.delivered && h.verdicts == l.ho.verdicts
  {
    hide Layer.CollectDropped;
    CollectEntries(l, 0, (p: IpPkt) => true);
  }

  lemma TurnDeliversNone(h0: Handler, l: Layer, bits: real, radio: Radio, u: nat)
    requires Shape(l) && Books(l, u) && DeliversNone(h0, l.ho, u) && Verdicts(l.ho.verdicts, u) >= 1
    requires bits > 0.0 && l.buf.HasPkts()
    ensures DeliversNone(h0, l.Turn(bits, radio).0.ho, u)
  {
    hide Shape, Books, DeliversNone, Buffer.GetPkts, Layer.CollectDropped, Buffer.HasPkts, Handler.DropBlock,
         Handler.Push, Harq.AddPkts, Buffer.OldestTimestamp, BooksInFlight, AllGenuine, Holds, Verdicts, Weigh;
    var (b, out) := l.buf.GetPkts(bits.Floor);
    var l1 := l.(buf := b, nextId := l.nextId + 1);
    GrantTaken(l, bits.Floor, u);
    ToldHasNoFlight(l1, u, out);
    CollectDelivers(l1);
    var h2 := l1.CollectDropped().ho;
    SameDeliveries(h0, l.ho, h2, u);
    CollectKeepsQueues(l1);
    var block := BlockOf(l.nextId, l.buf.OldestTimestamp(), l.now, l.bhD, l.bhVar, out);
    DropKeepsHandler(h2, block);
    SameDeliveries(h0, h2, h2.DropBlock(block), u);
    PushDeliversNone(h0, h2, block, radio.jitter, u);
  }

  lemma GrantDeliversNone(l: Layer, bits: real, radio: Radio, u: nat)
    requires Shape(l) && Books(l, u) && Verdicts(l.ho.verdicts, u) >= 1 && (l.harq.IsPktReady() || l.Halts(bits))
    ensures DeliversNone(l.ho, l.HandlePkt(bits, radio).0.ho, u)
  {
    assert DeliversNone(l.ho, l.ho, u);
    if l.harq.IsPktReady() {
      hide Shape, Books, DeliversNone, Handler.Push, Handler.DropBlock, Harq.Queue;
      ToldHasNoBlock(l, u);
      PushDeliversNone(l.ho, l.ho, l.harq.buf[0], radio.jitter, u);
      DropKeepsHandler(l.ho, l.harq.buf[0]);
      SameDeliveries(l.ho, l.ho, l.ho.DropBlock(l.harq.buf[0]), u);
    } else {
      hide Shape, Books, DeliversNone, Layer.Turn, Layer.ServeNew;
      var inv := (k: Layer) => Shape(k) && Books(k, u) && DeliversNone(l.ho, k.ho, u);
      forall k: Layer | inv(k) && bits > 0.0 && k.buf.HasPkts()
        ensures inv(k.Turn(bits, radio).0)
      {
        SameTold(l.ho, k.ho, u);
        TurnKeeps(k, bits, radio, u);
        TurnDeliversNone(l.ho, k, bits, radio, u);
      }
      GrantInduction(l, bits, radio, inv);
    }
  }

  lemma LateStaysLate(v: Verdict, ds: seq<Delivery>, ds': seq<Delivery>)
    requires ds <= ds' && !OnTime(v, ds)
    ensures !OnTime(v, ds')
  {
    var k :| 0 <= k < |ds| && ds[k].uid == v.pkt.uid && ds[k].due > v.at;
    assert ds'[k] == ds[k];
  }

  // A packet on time stays so: nothing more is delivered of it.
  lemma OnTimeStays(h: Handler, h': Handler, v: Verdict)
    requires DeliversNone(h, h', v.pkt.uid) && OnTime(v, h.delivered)
    ensures OnTime(v, h'.delivered)
  {
    assert forall k :: 0 <= k < |h.delivered| ==> h'.delivered[k] == h.delivered[k];
  }

  lemma GrantKeepsOnTime(l: Layer, bits: real, radio: Radio)
    requires Good(l) && AllOnTime(l.ho.verdicts, l.ho.delivered) && (l.harq.IsPktReady() || l.Halts(bits))
    ensures var h := l.HandlePkt(bits, radio).0.ho; AllOnTime(h.verdicts, h.delivered)
  {
    var h, vs := l.HandlePkt(bits, radio).0.ho, l.ho.verdicts;
    GrantKeepsHistory(l, bits, radio);
    assert Shape(l) && forall u: nat :: Books(l, u);
    hide Good, Shape, Books, OnTime, Layer.HandlePkt, DeliversNone;
    forall i | 0 <= i < |vs|
      ensures OnTime(vs[i], h.delivered)
    {
      VerdictCounts(vs, i, vs[i].pkt.uid);
      GrantDeliversNone(l, bits, radio, vs[i].pkt.uid);
      OnTimeStays(l.ho, h, vs[i]);
    }
  }

  lemma EventKeepsOnTime(l: Layer, e: Event)
    requires Good(l) && AllOnTime(l.ho.verdicts, l.ho.delivered) && Enabled(l, e)
    requires e.Release? ==> TimelyRelease(l.ho)
    ensures var h := Apply(l, e).ho; AllOnTime(h.verdicts, h.delivered)
  {
    hide Good, AllOnTime, Layer.StepTo, Layer.HandlePkt, Handler.Release, TimelyRelease;
    match e
    case Capture(info, payload) =>
    case Step(t) => StepDelivers(l, t);
    case Grant(bits, radio) => GrantKeepsOnTime(l, bits, radio);
    case Release =>
      ReleaseIsOnTime(l.ho);
      ReleaseDelivers(l.ho);
    case Report =>
  }

  lemma StepDelivers(l: Layer, t: real)
    ensures var h := l.StepTo(t).ho; h.delivered == l.ho.delivered && h.verdicts == l.ho.verdicts
  {
    hide Layer.StepTo;
    StepEntries(l, t, 0, (p: IpPkt) => true);
  }

  lemma {:induction false} ReleaseDelivers(h: Handler)
    ensures h.Release().delivered == h.delivered
    decreases |h.out|
  {
    hide Store.Verdict;
    if h.FrontGoes() {
      ReleaseDelivers(h.ReleaseFront());
    }
  }

  lemma {:induction false} NeverOnTimeAgain(l: Layer, es: seq<Event>)
    requires !AllOnTime(l.ho.verdicts, l.ho.delivered) && CanRun(l, es)
    ensures var h := Run(l, es).ho; !AllOnTime(h.verdicts, h.delivered)
    decreases |es|
  {
    hide Enabled, Apply, OnTime;
    if es != [] {
      EventExtends(l, es[0]);
      var h, h' := l.ho, Apply(l, es[0]).ho;
      var i :| 0 <= i < |h.verdicts| && !OnTime(h.verdicts[i], h.delivered);
      LateStaysLate(h.verdicts[i], h.delivered, h'.delivered);
      assert h'.verdicts[i] == h.verdicts[i];
      NeverOnTimeAgain(Apply(l, es[0]), es[1..]);
    }
  }

  lemma {:induction false} RunIsOnTime(l: Layer, es: seq<Event>)
    requires Good(l) && AllOnTime(l.ho.verdicts, l.ho.delivered) && CanRun(l, es)
    ensures var h := Run(l, es).ho; AllOnTime(h.verdicts, h.delivered) <==> TimelyRun(l, es)
    decreases |es|
  {
    hide Good, Enabled, Apply, AllOnTime, TimelyRelease;
    if es != [] {
      if es[0].Release? && !TimelyRelease(l.ho) {
        ReleaseIsOnTime(l.ho);
        ReleaseDelivers(l.ho);
        ReleaseOfHandler(l);
        NeverOnTimeAgain(Apply(l, es[0]), es[1..]);
      } else {
        EventKeepsOnTime(l, es[0]);
        EventKeeps(l, es[0]);
        RunIsOnTime(Apply(l, es[0]), es[1..]);
      }
    }
  }

  lemma ReleaseOfHandler(l: Layer)
    ensures Enabled(l, Release) && Apply(l, Release).ho == l.ho.Release()
  {
  }

  lemma InitialIsOnTime(l: Layer)
    requires Initial(l)
    ensures AllOnTime(l.ho.verdicts, l.ho.delivered)
  {
  }

  /** Over every run in either mode, whatever fails or is dropped: every accepted packet was told no earlier than the
      release time of each piece delivered of it if and only if every release was timely. */
  lemma AcceptedWhenAllIsDue(l: Layer, es: seq<Event>)
    requires Initial(l) && CanRun(l, es)
    ensures var h := Run(l, es).ho; AllOnTime(h.verdicts, h.delivered) <==> TimelyRun(l, es)
  {
    hide Initial, Good, AllOnTime, Run, CanRun, TimelyRun;
    InitialIsGood(l);
    InitialIsOnTime(l);
    RunIsOnTime(l, es);
  }
}
