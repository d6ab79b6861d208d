// Exactly when FIFO mode with a clean radio link gives its verdicts in capture order, whatever overflows or expires:
// when no release reaches a spoiled entry while an older packet is queued or stands behind it.
module CaptureOrder {
  import opened Packets
  import opened DualPi2
  import opened DualPi2Laws
  import opened IpBuffer
  import opened IpBufferLaws
  import opened IdentityLaws
  import opened Ipv4Ecn
  import opened Capture
  import opened CapturedHandler
  import opened CapturedHandlerLaws
  import opened PdcpLayer
  import opened PdcpInduction
  import opened PdcpRuns
  import opened PdcpLaws
  import opened PdcpTheorems
  import opened FifoStream
  import opened Reassembly
  import opened Overtaking
  import opened FifoOrder
  import opened Histories
  import opened ShutGate
  import FifoBudget

  // The verdicts so far are those of the first packets captured, in the order of capture.
  ghost predicate ToldAsCaptured(vs: seq<Verdict>, order: seq<nat>) {
    |vs| <= |order| && forall i :: 0 <= i < |vs| ==> vs[i].pkt.uid == order[i]
  }

  function IngestedUpTo(s: Store): int { |s.order| - |s.captured| }

  ghost predicate WholeOnes(s: seq<IpPkt>) {
    forall i :: 0 <= i < |s| ==> !s[i].isFragment && s[i].size == s[i].originalSize
  }

  /** FIFO mode with the verdicts as captured, and every packet ingested since laid out in reassembly list and line. */
  ghost predicate Orderly(l: Layer) {
    var s, told := l.ho.store, |l.ho.verdicts|;
    && !l.buf.dual && l.buf.q.lanes == NO_LANES && l.harq.buf == [] && WholeOnes(l.ho.ingress)
    && told <= IngestedUpTo(s) && ToldAsCaptured(l.ho.verdicts, s.order)
    && AwaitsIngest(s.captured, s.order, IngestedUpTo(s))
    && (forall u :: u in s.seen ==> u in s.order)
    && l.ho.prevUid == LastOf(s.order, IngestedUpTo(s)) && l.ho.prevReleased == LastOf(s.order, told)
    && Laid(l.ho.out, Line(l), l.buf.fifo != [], s.order, told, IngestedUpTo(s))
  }

  // ----- the condition -----

  // Whether an entry would be told if everything in front of it were.
  predicate Goes(p: IpPkt, now: real) { p.IsReady() && (p.erase || p.tOut <= now) }

  predicate Shielded(out: seq<IpPkt>, now: real, i: nat)
    requires i < |out|
  {
    exists j :: 0 <= j <= i && !Goes(out[j], now)
  }

  predicate NobodyOvertakes(out: seq<IpPkt>, line: seq<IpPkt>, now: real) {
    forall i :: 0 <= i < |out| && OvertakesIn(out, line, i) ==> Shielded(out, now, i)
  }

  /** What a caller can look up before a release: every entry with an older packet queued or behind it is incomplete,
      or stands behind one that is incomplete or not yet due. */
  predicate SafeToRelease(l: Layer) { NobodyOvertakes(l.ho.out, Line(l), l.ho.now) }

  predicate FaultlessRun(l: Layer, es: seq<Event>)
    requires CanRun(l, es)
    decreases |es|
  {
    es == [] || (Faultless(l, es[0]) && FaultlessRun(Apply(l, es[0]), es[1..]))
  }

  predicate SafeRun(l: Layer, es: seq<Event>)
    requires CanRun(l, es)
    decreases |es|
  {
    es == [] || ((es[0].Release? ==> SafeToRelease(l)) && SafeRun(Apply(l, es[0]), es[1..]))
  }

  // ----- capture and tick -----

  lemma CapturedOrderly(l: Layer, info: Info, payload: seq<Byte>)
    requires Orderly(l) && forall u :: u in l.ho.store.order ==> u < info.uid
    ensures Orderly(l.Captured(info, payload))
  {
    hide Laid, WholeOnes;
    var s := l.ho.store;
    CaptureLaid(l.ho.out, Line(l), l.buf.fifo != [], s.order, |l.ho.verdicts|, IngestedUpTo(s), info.uid);
    assert forall u :: u in s.order ==> u in s.order + [info.uid];
    assert info.uid in s.order + [info.uid];
  }

  lemma IngestOneOrderly(l: Layer)
    requires Orderly(l) && l.ho.store.captured != []
    ensures Orderly(l.(ho := l.ho.(store := l.ho.store.Pop().0).IngestOne(l.ho.store.captured[0])))
  {
    hide Laid;
    var s := l.ho.store;
    var l' := l.(ho := l.ho.(store := s.Pop().0).IngestOne(s.captured[0]));
    var p := l'.ho.ingress[|l.ho.ingress|];
    ArrivalLaid(l.ho.out, Line(l), l.buf.fifo != [], s.order, |l.ho.verdicts|, IngestedUpTo(s), p);
    assert Line(l') == Line(l) + [p];
  }

  lemma {:induction false} IngestOrderly(l: Layer)
    requires Orderly(l)
    ensures Orderly(l.(ho := l.ho.Ingest()))
    decreases |l.ho.store.captured|
  {
    hide Orderly;
    if l.ho.store.captured != [] {
      IngestOneOrderly(l);
      IngestOrderly(l.(ho := l.ho.(store := l.ho.store.Pop().0).IngestOne(l.ho.store.captured[0])));
    }
  }

  lemma TickOrderly(l: Layer, t: real)
    requires Orderly(l)
    ensures Orderly(l.Tick(t))
  {
    hide Laid, WholeOnes, AwaitsIngest, ToldAsCaptured, Handler.Ingest;
    var l0 := l.(now := t, buf := l.buf.StepTo(t), harq := l.harq.(now := t), ho := l.ho.(now := t));
    assert Line(l0) == Line(l);
    IngestOrderly(l0);
  }

  lemma DrainOneOrderly(l: Layer)
    requires Orderly(l) && l.ho.ingress != []
    ensures Orderly(l.DrainOne())
  {
    hide Laid, AwaitsIngest, ToldAsCaptured, SortByUid;
    var s, p, rest := l.ho.store, l.ho.ingress[0], l.ho.ingress[1..];
    assert forall i :: 0 <= i < |rest| ==> rest[i] == l.ho.ingress[i + 1];
    if l.buf.Fits(p) {
      assert Line(l.DrainOne()) == Line(l);
      LooselyApart(l.ho.out, Line(l), l.buf.fifo != [], s.order, |l.ho.verdicts|, IngestedUpTo(s));
    } else {
      var e := p.(erase := true, tOut := l.ho.now);
      RefusalLaid(l.ho.out, l.buf.fifo, l.ho.ingress, s.order, |l.ho.verdicts|, IngestedUpTo(s), e);
      SortLaid(l.ho.out + [e], l.buf.fifo + rest, l.buf.fifo != [], s.order, |l.ho.verdicts|, IngestedUpTo(s));
    }
  }

  lemma DropOldestOrderly(l: Layer)
    requires Orderly(l) && l.buf.HasPkts()
    ensures Orderly(l.DropOldest())
  {
    hide Laid, Join, AwaitsIngest, ToldAsCaptured, WholeOnes;
    var s, p, l' := l.ho.store, l.buf.fifo[0], l.DropOldest();
    var block := BlockOf(l.nextId, l.buf.OldestTimestamp(), l.now, l.bhD, l.bhVar, [p]);
    JoinOne(l.ho.out, p, block.tOut, block.ipT, true);
    assert Line(l') == Line(l)[1..];
    WholeJoins(l.ho.out, Line(l), l'.buf.fifo != [], s.order, |l.ho.verdicts|, IngestedUpTo(s), block.tOut, block.ipT,
               true);
  }

  lemma StepOrderly(l: Layer, t: real)
    requires Orderly(l)
    ensures Orderly(l.StepTo(t))
  {
    hide Orderly, Layer.Tick, Layer.StepTo, Layer.DrainOne, Layer.CollectOne, Layer.DropOldest, Layer.DropExpiredBlock;
    TickOrderly(l, t);
    forall k: Layer | Orderly(k)
      ensures k.ho.ingress != [] ==> Orderly(k.DrainOne())
      ensures k.buf.PopAqmDropped().1.Some? ==> Orderly(k.CollectOne())
      ensures LateHead(k) ==> Orderly(k.DropOldest())
      ensures LateBlock(k) ==> Orderly(k.DropExpiredBlock())
    {
      NoVictimsNoBlocks(k);
      if k.ho.ingress != [] { DrainOneOrderly(k); }
      if LateHead(k) { DropOldestOrderly(k); }
    }
    StepInduction(l, t, (k: Layer) => Orderly(k));
  }

  lemma NoVictimsNoBlocks(l: Layer)
    requires Orderly(l)
    ensures l.buf.PopAqmDropped().1.None? && !LateBlock(l) && !l.harq.IsPktReady()
  {
    hide Laid;
  }

  // ----- grants -----

  lemma BlockOrderly(l: Layer, grant: nat, block: HarqPkt, jitter: real, id: nat)
    requires Orderly(l) && block.pkts == l.buf.GetPkts(grant).1
    ensures var l' := l.(buf := l.buf.GetPkts(grant).0, nextId := id);
            Orderly(l'.(ho := l.ho.DropBlock(block))) && Orderly(l'.(ho := l.ho.Push(block, jitter)))
  {
    hide Laid, AddAll, RemoveAll, SortByUid, Buffer.Fill, ToldAsCaptured, AwaitsIngest, WholeOnes;
    var b, s, told := l.buf.GetPkts(grant).0, l.ho.store, |l.ho.verdicts|;
    FillLaid(l.ho.out, l.buf, grant, l.ho.ingress, s.order, told, IngestedUpTo(s), block.tOut, block.ipT, true);
    FillLaid(l.ho.out, l.buf, grant, l.ho.ingress, s.order, told, IngestedUpTo(s), ReleaseTime(block, jitter),
             block.ipT, false);
    SortLaid(AddAll(l.ho.out, block.pkts, ReleaseTime(block, jitter), block.ipT), b.fifo + l.ho.ingress, b.fifo != [],
             s.order, told, IngestedUpTo(s));
  }

  lemma TurnOrderly(l: Layer, bits: real, radio: Radio)
    requires Orderly(l) && bits > 0.0 && l.buf.HasPkts() && !radio.fails
    ensures Orderly(l.Turn(bits, radio).0)
  {
    hide Laid, Buffer.Fill, ToldAsCaptured, AwaitsIngest, WholeOnes, Handler.Push, Handler.DropBlock;
    var (b, out) := l.buf.GetPkts(bits.Floor);
    var block := BlockOf(l.nextId, l.buf.OldestTimestamp(), l.now, l.bhD, l.bhVar, out);
    BlockOrderly(l, bits.Floor, block, radio.jitter, l.nextId + 1);
    var l1 := l.(buf := b, nextId := l.nextId + 1);
    FifoBudget.CollectIsIdle(l1);
    EmptyBlock(l.ho, block);
  }

  lemma ServeNewOrderly(l: Layer, bits: real, radio: Radio)
    requires Orderly(l) && l.Halts(bits) && !radio.fails
    ensures Orderly(l.ServeNew(bits, radio).0)
  {
    hide Orderly, Layer.Turn, Layer.ServeNew;
    forall k: Layer | Orderly(k) && bits > 0.0 && k.buf.HasPkts()
      ensures Orderly(k.Turn(bits, radio).0)
    {
      TurnOrderly(k, bits, radio);
    }
    GrantInduction(l, bits, radio, (k: Layer) => Orderly(k));
  }

  // ----- release -----

  // A complete entry holds all its packet's bits, so nothing of it is queued.
  lemma CompleteLeftTheLine(l: Layer)
    requires Balanced(l) && l.ho.out != [] && l.ho.out[0].IsReady()
    ensures !Holds(Line(l), l.ho.out[0].uid)
  {
    hide BufferSound, Signals, WeighBlocks, WeighInfos, BufferGenuine, BlocksGenuine;
    var p := l.ho.out[0];
    assert Books(l, p.uid);
    assert Genuine(p, l.ho.store.seen);
    WeighMember(BitsOf(p.uid), l.ho.out, 0);
    NoWeightNoPiece(l.buf.fifo, p.uid);
    NoWeightNoPiece(l.ho.ingress, p.uid);
  }

  // An entry that can go and overtakes nobody is next in order, so the order gate lets it through.
  lemma NextGoes(l: Layer)
    requires Orderly(l) && l.ho.out != [] && Goes(l.ho.out[0], l.ho.now)
    ensures l.ho.FrontGoes()
  {
    hide Increasing, AllSeated, Covered, Distinct, Rising, Apart, Undisturbed, WithinOriginal;
    var s := l.ho.store;
    FrontIsNext(l.ho.out, Line(l), l.buf.fifo != [], s.order, |l.ho.verdicts|, IngestedUpTo(s));
  }

  lemma ReleaseNextOrderly(l: Layer)
    requires Balanced(l) && Orderly(l) && l.ho.FrontGoes() && !OvertakesIn(l.ho.out, Line(l), 0)
    ensures Orderly(l.(ho := l.ho.ReleaseFront()))
  {
    hide Balanced, Laid, Store.Verdict, AwaitsIngest, WholeOnes, OvertakesIn;
    var s, h' := l.ho.store, l.ho.ReleaseFront();
    FrontIsNext(l.ho.out, Line(l), l.buf.fifo != [], s.order, |l.ho.verdicts|, IngestedUpTo(s));
    CompleteLeftTheLine(l);
    FrontLeavesLaid(l.ho.out, Line(l), l.buf.fifo != [], s.order, |l.ho.verdicts|, IngestedUpTo(s));
    VerdictKeepsOrder(s, l.ho.out[0].uid, KindOf(l.ho.out[0]));
    assert Line(l.(ho := h')) == Line(l);
  }

  // Some verdict is not the one of the packet captured in its place; more verdicts and captures do not mend that.
  ghost predicate OutOfOrder(h: Handler) {
    exists i :: 0 <= i < |h.verdicts| && i < |h.store.order| && h.verdicts[i].pkt.uid != h.store.order[i]
  }

  lemma StaysOutOfOrder(h: Handler, h': Handler)
    requires OutOfOrder(h) && Extends(h, h')
    ensures OutOfOrder(h') && !ToldAsCaptured(h'.verdicts, h'.store.order)
  {
    var i :| 0 <= i < |h.verdicts| && i < |h.store.order| && h.verdicts[i].pkt.uid != h.store.order[i];
    assert h'.verdicts[i] == h.verdicts[i] && h'.store.order[i] == h.store.order[i];
  }

  lemma OvertakerBreaksOrder(l: Layer)
    requires Orderly(l) && l.ho.FrontGoes() && OvertakesIn(l.ho.out, Line(l), 0)
    ensures OutOfOrder(l.ho.ReleaseFront())
  {
    hide Laid, Store.Verdict, AwaitsIngest, WholeOnes, OvertakesIn;
    var s, h' := l.ho.store, l.ho.ReleaseFront();
    FrontIsNext(l.ho.out, Line(l), l.buf.fifo != [], s.order, |l.ho.verdicts|, IngestedUpTo(s));
    VerdictKeepsOrder(s, l.ho.out[0].uid, KindOf(l.ho.out[0]));
    assert h'.verdicts[|l.ho.verdicts|].pkt.uid != h'.store.order[|l.ho.verdicts|];
  }

  // Once the front has gone, the same entries overtake and the same are shielded.
  lemma ConditionMovesUp(out: seq<IpPkt>, line: seq<IpPkt>, now: real)
    requires out != [] && Goes(out[0], now) && !OvertakesIn(out, line, 0)
    ensures NobodyOvertakes(out, line, now) <==> NobodyOvertakes(out[1..], line, now)
  {
    hide Goes;
    var rest := out[1..];
    assert forall i :: 0 <= i < |rest| ==> rest[i] == out[i + 1];
    forall i | 0 <= i < |rest|
      ensures OvertakesIn(rest, line, i) <==> OvertakesIn(out, line, i + 1)
      ensures Shielded(rest, now, i) <==> Shielded(out, now, i + 1)
    {
      OneFurther(out, line, now, i);
    }
    if NobodyOvertakes(rest, line, now) {
      forall i | 0 <= i < |out| && OvertakesIn(out, line, i)
        ensures Shielded(out, now, i)
      {
        assert i > 0 && OvertakesIn(rest, line, i - 1);
      }
    }
  }

  lemma OneFurther(out: seq<IpPkt>, line: seq<IpPkt>, now: real, i: nat)
    requires out != [] && Goes(out[0], now) && i < |out| - 1
    ensures OvertakesIn(out[1..], line, i) <==> OvertakesIn(out, line, i + 1)
    ensures Shielded(out[1..], now, i) <==> Shielded(out, now, i + 1)
  {
    hide Goes;
    var rest := out[1..];
    assert forall j :: 0 <= j < |rest| ==> rest[j] == out[j + 1];
    if Shielded(out, now, i + 1) {
      var j :| 0 <= j <= i + 1 && !Goes(out[j], now);
      assert rest[j - 1] == out[j];
    }
    if Shielded(rest, now, i) {
      var j :| 0 <= j <= i && !Goes(rest[j], now);
      assert rest[j] == out[j + 1];
    }
    if OvertakesIn(out, line, i + 1) && !(exists j :: 0 <= j < |line| && line[j].uid < out[i + 1].uid) {
      var j :| i + 1 < j < |out| && out[j].uid < out[i + 1].uid;
      assert rest[j - 1] == out[j];
    }
    if OvertakesIn(rest, line, i) && !(exists j :: 0 <= j < |line| && line[j].uid < rest[i].uid) {
      var j :| i < j < |rest| && rest[j].uid < rest[i].uid;
      assert rest[j] == out[j + 1];
    }
  }

  /** One release, from any orderly state: its verdicts continue the captures exactly if nobody overtakes. */
  lemma {:induction false} ReleaseExactly(l: Layer)
    requires Balanced(l) && Orderly(l)
    ensures ToldAsCaptured(l.Release().ho.verdicts, l.Release().ho.store.order) <==> SafeToRelease(l)
    ensures if SafeToRelease(l) then Orderly(l.Release()) else OutOfOrder(l.Release().ho)
    decreases |l.ho.out|
  {
    hide Balanced, Orderly, Handler.ReleaseFront, OvertakesIn, Goes, ToldAsCaptured, Extends, OutOfOrder, Shielded;
    OrderlyIsTold(l);
    if l.ho.out != [] && Goes(l.ho.out[0], l.ho.now) {
      NextGoes(l);
      var l' := l.(ho := l.ho.ReleaseFront());
      assert l.Release() == l'.Release();
      if OvertakesIn(l.ho.out, Line(l), 0) {
        OvertakerBreaksOrder(l);
        ReleaseExtends(l'.ho);
        StaysOutOfOrder(l'.ho, l'.Release().ho);
        NotShielded(l.ho.out, l.ho.now);
      } else {
        ReleaseNextOrderly(l);
        FrontReleased(l);
        ReleaseShrinks(l.ho);
        ReleaseExactly(l');
        ConditionMovesUp(l.ho.out, Line(l), l.ho.now);
      }
    } else {
      FrontStays(l.ho);
      assert l.Release() == l;
      AllShielded(l.ho.out, l.ho.now);
    }
  }

  lemma OrderlyIsTold(l: Layer)
    requires Orderly(l)
    ensures ToldAsCaptured(l.ho.verdicts, l.ho.store.order)
  {
  }

  lemma NotShielded(out: seq<IpPkt>, now: real)
    requires out != [] && Goes(out[0], now)
    ensures !Shielded(out, now, 0)
  {
  }

  lemma AllShielded(out: seq<IpPkt>, now: real)
    requires out != [] ==> !Goes(out[0], now)
    ensures forall i :: 0 <= i < |out| ==> Shielded(out, now, i)
  {
  }

  lemma FrontStays(h: Handler)
    requires h.out != [] ==> !Goes(h.out[0], h.now)
    ensures h.Release() == h
  {
  }

  lemma FrontReleased(l: Layer)
    requires Balanced(l) && l.ho.FrontGoes()
    ensures var l' := l.(ho := l.ho.ReleaseFront());
            Balanced(l') && Line(l') == Line(l) && l'.ho.out == l.ho.out[1..] && l'.ho.now == l.ho.now
  {
    hide Shape, Books, Store.Verdict;
    var l' := l.(ho := l.ho.ReleaseFront());
    forall u: nat
      ensures Books(l', u)
    {
      ReleaseFrontKeeps(l, u);
    }
    ReleaseFrontKeeps(l, 0);
  }

  // ----- every run -----

  lemma {:induction false} NeverInOrderAgain(l: Layer, es: seq<Event>)
    requires OutOfOrder(l.ho) && CanRun(l, es)
    ensures OutOfOrder(Run(l, es).ho)
    decreases |es|
  {
    hide OutOfOrder, Enabled, Apply;
    if es != [] {
      EventExtends(l, es[0]);
      StaysOutOfOrder(l.ho, Apply(l, es[0]).ho);
      NeverInOrderAgain(Apply(l, es[0]), es[1..]);
    }
  }

  lemma EventOrderly(l: Layer, e: Event)
    requires Balanced(l) && Orderly(l) && Enabled(l, e) && Faultless(l, e) && (e.Release? ==> SafeToRelease(l))
    ensures Orderly(Apply(l, e))
  {
    hide Balanced, Layer.StepTo, Layer.ServeNew, Layer.Release, SafeToRelease, Laid, WholeOnes, AwaitsIngest;
    match e
    case Capture(info, payload) => CapturedOrderly(l, info, payload);
    case Step(t) => StepOrderly(l, t);
    case Grant(bits, radio) =>
      NoVictimsNoBlocks(l);
      ServeNewOrderly(l, bits, radio);
    case Release => ReleaseExactly(l);
    case Report =>
  }

  lemma {:induction false} RunExactly(l: Layer, es: seq<Event>)
    requires Good(l) && Orderly(l) && CanRun(l, es) && FaultlessRun(l, es)
    ensures var h := Run(l, es).ho; ToldAsCaptured(h.verdicts, h.store.order) <==> SafeRun(l, es)
    ensures SafeRun(l, es) ==> Orderly(Run(l, es))
    decreases |es|
  {
    hide Good, Orderly, Enabled, Apply, Faultless, SafeToRelease, ToldAsCaptured, OutOfOrder, Balanced;
    GoodIsBalanced(l);
    if es == [] {
      OrderlyIsTold(l);
    } else if es[0].Release? && !SafeToRelease(l) {
      ReleaseExactly(l);
      ReleaseIsEnabled(l);
      NeverInOrderAgain(l.Release(), es[1..]);
      var h := Run(l, es).ho;
      StaysOutOfOrder(h, h);
    } else {
      EventOrderly(l, es[0]);
      EventKeeps(l, es[0]);
      RunExactly(Apply(l, es[0]), es[1..]);
    }
  }

  lemma GoodIsBalanced(l: Layer)
    requires Good(l)
    ensures Balanced(l)
  {
    hide Shape, Books;
  }

  lemma InitialIsOrderly(l: Layer)
    requires Initial(l) && !l.buf.dual
    ensures Orderly(l)
  {
  }

  /** Over every run of FIFO mode with no failed transmission and increasing ids, whatever overflows or expires and with
      the order check on or off: the verdicts are a prefix of the captures if and only if every release was safe. */
  lemma VerdictsFollowExactly(l: Layer, es: seq<Event>)
    requires Initial(l) && !l.buf.dual && CanRun(l, es) && FaultlessRun(l, es)
    ensures var h := Run(l, es).ho; ToldAsCaptured(h.verdicts, h.store.order) <==> SafeRun(l, es)
  {
    hide Initial, Good, Orderly, FaultlessRun, SafeRun, ToldAsCaptured, Run, CanRun;
    InitialIsGood(l);
    InitialIsOrderly(l);
    RunExactly(l, es);
  }

  lemma {:induction false} SmoothIsFaultless(l: Layer, es: seq<Event>)
    requires CanRun(l, es) && SmoothRun(l, es)
    ensures FaultlessRun(l, es)
    decreases |es|
  {
    hide Enabled, Apply, HasRoom, Layer.Tick;
    if es != [] {
      SmoothIsFaultless(Apply(l, es[0]), es[1..]);
    }
  }

  /** Room for every packet makes every release safe, even when packets expire. */
  lemma RoomIsSafe(l: Layer, es: seq<Event>)
    requires Initial(l) && !l.buf.dual && CanRun(l, es) && SmoothRun(l, es)
    ensures FaultlessRun(l, es) && SafeRun(l, es)
  {
    hide Initial, SmoothRun, FaultlessRun, SafeRun, Run, CanRun, Handler.Release, Handler.CheckOrder;
    VerdictsFollowCaptures(l, es);
    SmoothIsFaultless(l, es);
    VerdictsFollowExactly(l, es);
  }
}
