// Nothing is forgotten: once every delay budget is over, one tick and one release give every captured packet its
// verdict.
module Draining {
  import opened Packets
  import opened DualPi2
  import opened DualPi2Laws
  import opened IpBuffer
  import opened IpBufferLaws
  import opened Harq
  import opened Capture
  import opened CapturedHandler
  import opened CapturedHandlerLaws
  import opened IdentityLaws
  import opened PdcpLayer
  import opened PdcpInduction
  import opened PdcpRuns
  import opened PdcpLaws
  import opened PdcpTheorems
  import opened Reassembly
  import opened Overtaking
  import opened CaptureOrder
  import opened Histories
  import opened ShutGate
  import FifoBudget
  import PdcpProgress

  // ----- one entry per packet, over every run -----

  ghost predicate OneBackend(b: Buffer) {
    if b.dual then b.fifo == [] else b.q.lanes == NO_LANES
  }

  /** Reassembly has one entry per packet, ingress whole packets, and the backend that is not selected stays empty. */
  ghost predicate Neat(l: Layer) {
    Distinct(l.ho.out) && Unshortened(l.ho.ingress) && OneBackend(l.buf)
  }

  lemma {:induction false} JoinAllDistinct(out: seq<IpPkt>, pkts: seq<IpPkt>, tOut: real, ipT: real, drop: bool)
    requires Distinct(out)
    ensures Distinct(JoinAll(out, pkts, tOut, ipT, drop))
    decreases |pkts|
  {
    hide Join, Distinct;
    if pkts != [] {
      JoinDistinct(out, Stamped(pkts[0], tOut, ipT), drop);
      JoinAllDistinct(Join(out, Stamped(pkts[0], tOut, ipT), drop), pkts[1..], tOut, ipT, drop);
      assert pkts == [pkts[0]] + pkts[1..];
      JoinCons(out, pkts[0], pkts[1..], tOut, ipT, drop);
    } else {
      NothingJoins(out, tOut, ipT, drop);
    }
  }

  lemma HandlerDistinct(h: Handler, block: HarqPkt, jitter: real)
    requires Distinct(h.out)
    ensures Distinct(h.DropBlock(block).out) && h.DropBlock(block) == h.(out := h.DropBlock(block).out)
    ensures var h' := h.Push(block, jitter); Distinct(h'.out) && h' == h.(out := h'.out, delivered := h'.delivered)
  {
    hide Distinct, AddAll, RemoveAll, SortByUid;
    JoinAllDistinct(h.out, block.pkts, block.tOut, block.ipT, true);
    JoinAllDistinct(h.out, block.pkts, ReleaseTime(block, jitter), block.ipT, false);
    SortDistinct(AddAll(h.out, block.pkts, ReleaseTime(block, jitter), block.ipT));
  }

  lemma SortDistinct(s: seq<IpPkt>)
    requires Distinct(s)
    ensures Distinct(SortByUid(s))
  {
    SortRises(s);
  }

  // All of a whole packet is in ingress, so reassembly has nothing of it yet.
  lemma IngressIsNew(l: Layer)
    requires Balanced(l) && l.ho.ingress != [] && Unshortened(l.ho.ingress)
    ensures !Holds(l.ho.out, l.ho.ingress[0].uid)
  {
    var p := l.ho.ingress[0];
    assert Books(l, p.uid);
    assert Genuine(p, l.ho.store.seen);
    hide BufferSound, Signals, WeighBlocks, WeighInfos, BufferGenuine, BlocksGenuine, Held, Waiting, Told, Genuine;
    WeighMember(BitsOf(p.uid), l.ho.ingress, 0);
    NoWeightNoPiece(l.ho.out, p.uid);
  }

  lemma NewEntryDistinct(out: seq<IpPkt>, e: IpPkt)
    requires Distinct(out) && !Holds(out, e.uid)
    ensures Distinct(SortByUid(out + [e]))
  {
    hide SortByUid;
    var all := out + [e];
    assert forall i :: 0 <= i < |out| ==> all[i] == out[i] && out[i].uid != e.uid;
    SortDistinct(all);
  }

  lemma DrainOneNeat(l: Layer)
    requires Balanced(l) && Neat(l) && l.ho.ingress != []
    ensures Neat(l.DrainOne())
  {
    hide Balanced, Distinct, Unshortened, SortByUid, Buffer.AddPkt, Buffer.Fits, OneBackend;
    IngressIsNew(l);
    RestUnshortened(l.ho.ingress);
    NewEntryDistinct(l.ho.out, l.ho.ingress[0].(erase := true, tOut := l.ho.now));
    if l.buf.Fits(l.ho.ingress[0]) {
      AddKeepsBackend(l.buf, l.ho.ingress[0]);
    }
  }

  lemma RestUnshortened(s: seq<IpPkt>)
    requires Unshortened(s) && s != []
    ensures Unshortened(s[1..])
  {
    assert forall i :: 0 <= i < |s[1..]| ==> s[1..][i] == s[i + 1];
  }

  lemma AddKeepsBackend(b: Buffer, p: IpPkt)
    requires OneBackend(b) && b.Fits(p)
    ensures OneBackend(b.AddPkt(p))
  {
  }

  lemma {:induction false} IngestNeat(h: Handler)
    requires Unshortened(h.ingress)
    ensures Unshortened(h.Ingest().ingress)
    decreases |h.store.captured|
  {
    if h.store.captured != [] {
      IngestNeat(h.(store := h.store.Pop().0).IngestOne(h.store.captured[0]));
    }
  }

  lemma TickNeat(l: Layer, t: real)
    requires Neat(l)
    ensures Neat(l.Tick(t))
  {
    hide Distinct, Unshortened, Handler.Ingest, Increment;
    IngestNeat(l.ho.(now := t));
    IngestOnly(l.ho.(now := t));
  }

  lemma DropOldestNeat(l: Layer)
    requires Neat(l) && l.buf.HasPkts()
    ensures Neat(l.DropOldest())
  {
    hide Distinct, Unshortened, Handler.DropBlock;
    var p := l.buf.PopOldest().1.value;
    HandlerDistinct(l.ho, BlockOf(l.nextId, l.buf.OldestTimestamp(), l.now, l.bhD, l.bhVar, [p]), 0.0);
  }

  lemma CollectOneNeat(l: Layer)
    requires Neat(l) && l.buf.PopAqmDropped().1.Some?
    ensures Neat(l.CollectOne())
  {
    hide Distinct, Unshortened, Handler.DropBlock;
    HandlerDistinct(l.ho, AqmBlock(l.buf.PopAqmDropped().1.value, l.buf.PopAqmDropped().0.now), 0.0);
  }

  lemma DropExpiredBlockNeat(l: Layer)
    requires Neat(l) && LateBlock(l)
    ensures Neat(l.DropExpiredBlock())
  {
    hide Distinct, Unshortened, Handler.DropBlock, Harq.PopOlderThan;
    HandlerDistinct(l.ho, l.harq.PopOlderThan(l.now - l.budget).1.value, 0.0);
  }

  // Any turn of a tick's loops that can be taken keeps everybody's books.
  ghost predicate TurnsBalanced(l: Layer) {
    && (l.ho.ingress != [] ==> Balanced(l.DrainOne()))
    && (l.buf.PopAqmDropped().1.Some? ==> Balanced(l.CollectOne()))
    && (LateHead(l) ==> Balanced(l.DropOldest()))
    && (LateBlock(l) ==> Balanced(l.DropExpiredBlock()))
  }

  lemma LoopsKeepBalance(l: Layer)
    requires Balanced(l)
    ensures TurnsBalanced(l)
  {
    hide Shape, Books, Layer.DrainOne, Layer.CollectOne, Layer.DropOldest, Layer.DropExpiredBlock, Harq.PopOlderThan,
         Buffer.PopAqmDropped;
    forall u: nat
      ensures l.ho.ingress != [] ==> Shape(l.DrainOne()) && Books(l.DrainOne(), u)
      ensures l.buf.PopAqmDropped().1.Some? ==> Shape(l.CollectOne()) && Books(l.CollectOne(), u)
      ensures LateHead(l) ==> Shape(l.DropOldest()) && Books(l.DropOldest(), u)
      ensures LateBlock(l) ==> Shape(l.DropExpiredBlock()) && Books(l.DropExpiredBlock(), u)
    {
      if l.ho.ingress != [] { DrainOneKeeps(l, u); }
      if l.buf.PopAqmDropped().1.Some? { CollectOneKeeps(l, u); }
      if LateHead(l) { DropOldestKeeps(l, u); }
      if LateBlock(l) { DropExpiredBlockKeeps(l, u); }
    }
    assert Books(l, 0);
    if l.ho.ingress != [] { DrainOneKeeps(l, 0); }
    if l.buf.PopAqmDropped().1.Some? { CollectOneKeeps(l, 0); }
    if LateHead(l) { DropOldestKeeps(l, 0); }
    if LateBlock(l) { DropExpiredBlockKeeps(l, 0); }
  }

  lemma TickBalanced(l: Layer, t: real)
    requires Balanced(l) && l.now <= t
    ensures Balanced(l.Tick(t))
  {
    hide Shape, Books, Layer.Tick;
    forall u: nat
      ensures Books(l.Tick(t), u)
    {
      TickKeeps(l, t, u);
    }
    TickKeeps(l, t, 0);
  }

  lemma StepNeat(l: Layer, t: real)
    requires Balanced(l) && Neat(l) && l.now <= t
    ensures Neat(l.StepTo(t))
  {
    hide Balanced, Neat, Layer.Tick, Layer.StepTo, Layer.DrainOne, Layer.CollectOne, Layer.DropOldest,
         Layer.DropExpiredBlock, Harq.PopOlderThan;
    var inv := (k: Layer) => Balanced(k) && Neat(k);
    TickBalanced(l, t);
    TickNeat(l, t);
    forall k: Layer | inv(k)
      ensures k.ho.ingress != [] ==> inv(k.DrainOne())
      ensures k.buf.PopAqmDropped().1.Some? ==> inv(k.CollectOne())
      ensures LateHead(k) ==> inv(k.DropOldest())
      ensures LateBlock(k) ==> inv(k.DropExpiredBlock())
    {
      LoopsKeepBalance(k);
      if k.ho.ingress != [] { DrainOneNeat(k); }
      if k.buf.PopAqmDropped().1.Some? { CollectOneNeat(k); }
      if LateHead(k) { DropOldestNeat(k); }
      if LateBlock(k) { DropExpiredBlockNeat(k); }
    }
    StepInduction(l, t, inv);
  }

  lemma {:induction false} FillKeepsBackend(b: Buffer, bits: nat)
    requires OneBackend(b)
    ensures OneBackend(b.Fill(bits).0)
    decreases bits
  {
    hide DualQ.PopNext;
    if bits > 0 && b.HasPkts() {
      var (b1, next) := b.PopNext();
      if next.Some? && next.value.size <= bits {
        FillKeepsBackend(b1, bits - next.value.size);
      }
    }
  }

  lemma CollectNeat(l: Layer)
    requires Neat(l)
    ensures Neat(l.CollectDropped())
  {
    hide Neat, Layer.CollectOne, Layer.CollectDropped;
    forall k: Layer | Neat(k) && k.buf.PopAqmDropped().1.Some?
      ensures Neat(k.CollectOne())
    {
      CollectOneNeat(k);
    }
    CollectInduction(l, (k: Layer) => Neat(k));
  }

  lemma TurnNeat(l: Layer, bits: real, radio: Radio)
    requires Neat(l) && bits > 0.0 && l.buf.HasPkts()
    ensures Neat(l.Turn(bits, radio).0)
  {
    hide Distinct, Unshortened, Buffer.Fill, Layer.CollectDropped, Handler.DropBlock, Handler.Push,
         Buffer.OldestTimestamp, Weigh;
    FillKeepsBackend(l.buf, bits.Floor);
    var (b, out) := l.buf.GetPkts(bits.Floor);
    CollectNeat(l.(buf := b, nextId := l.nextId + 1));
    HandlerDistinct(l.(buf := b, nextId := l.nextId + 1).CollectDropped().ho,
                    BlockOf(l.nextId, l.buf.OldestTimestamp(), l.now, l.bhD, l.bhVar, out), radio.jitter);
  }

  lemma GrantNeat(l: Layer, bits: real, radio: Radio)
    requires Neat(l) && (l.harq.IsPktReady() || l.Halts(bits))
    ensures Neat(l.HandlePkt(bits, radio).0)
  {
    if l.harq.IsPktReady() {
      hide Distinct, Unshortened, OneBackend, Handler.DropBlock, Handler.Push, Harq.Queue;
      HandlerDistinct(l.ho, l.harq.buf[0], radio.jitter);
    } else {
      hide Neat, Layer.Turn, Layer.ServeNew;
      forall k: Layer | Neat(k) && bits > 0.0 && k.buf.HasPkts()
        ensures Neat(k.Turn(bits, radio).0)
      {
        TurnNeat(k, bits, radio);
      }
      GrantInduction(l, bits, radio, (k: Layer) => Neat(k));
    }
  }

  lemma {:induction false} ReleaseNeat(l: Layer)
    requires Neat(l)
    ensures Neat(l.Release())
    decreases |l.ho.out|
  {
    hide Store.Verdict;
    if l.ho.FrontGoes() {
      var l' := l.(ho := l.ho.ReleaseFront());
      assert forall i :: 0 <= i < |l'.ho.out| ==> l'.ho.out[i] == l.ho.out[i + 1];
      ReleaseNeat(l');
    }
  }

  lemma EventNeat(l: Layer, e: Event)
    requires Good(l) && Neat(l) && Enabled(l, e)
    ensures Neat(Apply(l, e))
  {
    GoodIsBalanced(l);
    hide Good, Distinct, Unshortened, Layer.StepTo, Layer.HandlePkt, Layer.Release, AqmStats.Plus;
    match e
    case Capture(info, payload) =>
    case Step(t) => StepNeat(l, t);
    case Grant(bits, radio) => GrantNeat(l, bits, radio);
    case Release => ReleaseNeat(l);
    case Report =>
  }

  lemma RunsAreNeat(l: Layer, es: seq<Event>)
    requires Initial(l) && CanRun(l, es)
    ensures Good(Run(l, es)) && Neat(Run(l, es))
  {
    hide Good, Run, CanRun, Enabled, Apply;
    InitialIsGood(l);
    assert Neat(l);
    hide Neat;
    var inv := (k: Layer) => Good(k) && Neat(k);
    forall k: Layer, e: Event | inv(k) && Enabled(k, e)
      ensures inv(Apply(k, e))
    {
      EventKeeps(k, e);
      EventNeat(k, e);
    }
    RunInduction(l, es, inv);
  }

  // ----- a tick past every budget -----

  predicate AllBefore(s: seq<IpPkt>, limit: real) {
    forall i :: 0 <= i < |s| ==> s[i].currentT < limit
  }

  predicate LateQueues(b: Buffer, limit: real) {
    AllBefore(b.fifo, limit) && AllBefore(b.q.lanes.l, limit) && AllBefore(b.q.lanes.c, limit)
  }

  predicate DueOrSpoiled(out: seq<IpPkt>, t: real) {
    forall i :: 0 <= i < |out| ==> out[i].erase || out[i].tOut <= t
  }

  /** At `t` every packet queued and every block kept for retransmission is over the delay budget, what was delivered
      is due, and no capture waits to be ingested. */
  predicate AllLate(l: Layer, t: real) {
    && LateQueues(l.buf, t - l.budget) && AllBefore(l.ho.ingress, t - l.budget)
    && (forall i :: 0 <= i < |l.harq.buf| ==> l.harq.buf[i].ipT < t - l.budget)
    && DueOrSpoiled(l.ho.out, t) && l.ho.store.captured == []
  }

  // The same in the middle of the tick.
  predicate Emptying(l: Layer, t: real) { AllLate(l, t) && l.now == l.ho.now == t }

  lemma {:induction false} RemoveAllDue(out: seq<IpPkt>, pkts: seq<IpPkt>, tOut: real, ipT: real, t: real)
    requires DueOrSpoiled(out, t)
    ensures DueOrSpoiled(RemoveAll(out, pkts, tOut, ipT), t)
    decreases |pkts|
  {
    if pkts != [] {
      RemoveAllDue(RemoveData(out, Stamped(pkts[0], tOut, ipT)), pkts[1..], tOut, ipT, t);
    }
  }

  lemma DropDue(h: Handler, block: HarqPkt, t: real)
    requires DueOrSpoiled(h.out, t)
    ensures var h' := h.DropBlock(block); DueOrSpoiled(h'.out, t) && h' == h.(out := h'.out)
  {
    RemoveAllDue(h.out, block.pkts, block.tOut, block.ipT, t);
  }

  lemma RefusalDue(out: seq<IpPkt>, e: IpPkt, t: real)
    requires DueOrSpoiled(out, t) && e.erase
    ensures DueOrSpoiled(SortByUid(out + [e]), t)
  {
    hide SortByUid;
    SortKeepsMembers(out + [e]);
    forall i | 0 <= i < |SortByUid(out + [e])|
      ensures SortByUid(out + [e])[i] in out + [e]
    {
    }
  }

  lemma TickEmptying(l: Layer, t: real)
    requires AllLate(l, t)
    ensures Emptying(l.Tick(t), t)
  {
    hide AllBefore, DueOrSpoiled, Buffer.StepTo;
    IngestOnly(l.ho.(now := t));
    assert l.ho.(now := t).Ingest() == l.ho.(now := t);
    StepKeepsQueues(l.buf, t);
  }

  lemma DrainOneEmptying(l: Layer, t: real)
    requires Emptying(l, t) && l.ho.ingress != []
    ensures Emptying(l.DrainOne(), t)
  {
    hide SortByUid, DueOrSpoiled;
    assert forall i :: 0 <= i < |l.ho.ingress[1..]| ==> l.ho.ingress[1..][i] == l.ho.ingress[i + 1];
    RefusalDue(l.ho.out, l.ho.ingress[0].(erase := true, tOut := l.ho.now), t);
  }

  lemma CollectOneEmptying(l: Layer, t: real)
    requires Emptying(l, t) && l.buf.PopAqmDropped().1.Some?
    ensures Emptying(l.CollectOne(), t)
  {
    hide Handler.DropBlock, DueOrSpoiled, AllBefore;
    DropDue(l.ho, AqmBlock(l.buf.PopAqmDropped().1.value, l.buf.PopAqmDropped().0.now), t);
  }

  lemma DropOldestEmptying(l: Layer, t: real)
    requires Emptying(l, t) && l.buf.HasPkts()
    ensures Emptying(l.DropOldest(), t) && l.DropOldest().ho.ingress == l.ho.ingress
    ensures l.DropOldest().buf.q.lanes.dropped == l.buf.q.lanes.dropped
  {
    hide Handler.DropBlock, DueOrSpoiled, BlockOf;
    var p := l.buf.PopOldest().1.value;
    DropDue(l.ho, BlockOf(l.nextId, l.buf.OldestTimestamp(), l.now, l.bhD, l.bhVar, [p]), t);
  }

  lemma DropExpiredBlockEmptying(l: Layer, t: real)
    requires Emptying(l, t) && LateBlock(l)
    ensures Emptying(l.DropExpiredBlock(), t)
  {
    hide Handler.DropBlock, DueOrSpoiled, AllBefore;
    DropDue(l.ho, l.harq.PopOlderThan(l.now - l.budget).1.value, t);
    var i, rest := FirstOlder(l.harq.buf, l.now - l.budget), l.DropExpiredBlock().harq.buf;
    assert forall j :: 0 <= j < |rest| ==> rest[j] == l.harq.buf[if j < i then j else j + 1];
  }

  lemma StepEmptying(l: Layer, t: real)
    requires AllLate(l, t)
    ensures Emptying(l.StepTo(t), t)
  {
    hide Emptying, AllLate, Layer.Tick, Layer.StepTo, Layer.DrainOne, Layer.CollectOne, Layer.DropOldest,
         Layer.DropExpiredBlock, Harq.PopOlderThan;
    TickEmptying(l, t);
    forall k: Layer | Emptying(k, t)
      ensures k.ho.ingress != [] ==> Emptying(k.DrainOne(), t)
      ensures k.buf.PopAqmDropped().1.Some? ==> Emptying(k.CollectOne(), t)
      ensures LateHead(k) ==> Emptying(k.DropOldest(), t)
      ensures LateBlock(k) ==> Emptying(k.DropExpiredBlock(), t)
    {
      if k.ho.ingress != [] { DrainOneEmptying(k, t); }
      if k.buf.PopAqmDropped().1.Some? { CollectOneEmptying(k, t); }
      if LateHead(k) { DropOldestEmptying(k, t); }
      if LateBlock(k) { DropExpiredBlockEmptying(k, t); }
    }
    StepInduction(l, t, (k: Layer) => Emptying(k, t));
  }

  lemma {:induction false} CollectEnds(l: Layer)
    requires OneBackend(l.buf)
    ensures var r := l.CollectDropped();
            r.buf.q.lanes.dropped == [] && r.ho.ingress == l.ho.ingress && OneBackend(r.buf)
    decreases |l.buf.q.lanes.dropped|
  {
    hide Handler.DropBlock;
    if l.buf.PopAqmDropped().1.Some? {
      DropKeepsHandler(l.ho, AqmBlock(l.buf.PopAqmDropped().1.value, l.buf.PopAqmDropped().0.now));
      CollectEnds(l.CollectOne());
    }
  }

  lemma {:induction false} CleanupIpEnds(l: Layer, t: real)
    requires Emptying(l, t)
    ensures var r := l.CleanupIp();
            && !r.buf.HasPkts() && r.ho.ingress == l.ho.ingress && r.buf.q.lanes.dropped == l.buf.q.lanes.dropped
            && Emptying(r, t)
    decreases |l.buf.fifo| + |l.buf.q.lanes.l| + |l.buf.q.lanes.c|
  {
    hide Layer.DropOldest, DueOrSpoiled;
    if l.buf.HasPkts() {
      OldestIsLate(l, t);
      DropOldestEmptying(l, t);
      DropOldestShrinks(l);
      CleanupIpEnds(l.DropOldest(), t);
    }
  }

  lemma OldestIsLate(l: Layer, t: real)
    requires Emptying(l, t) && l.buf.HasPkts()
    ensures l.IsExpired(l.buf.OldestTimestamp())
  {
    hide DueOrSpoiled;
  }

  lemma {:induction false} NoneUnexpired(s: seq<HarqPkt>, limit: real)
    requires forall i :: 0 <= i < |s| ==> s[i].ipT < limit
    ensures PdcpProgress.Unexpired(s, limit) == []
  {
    if s != [] {
      NoneUnexpired(s[1..], limit);
    }
  }

  // Nothing of any packet is anywhere but in reassembly.
  ghost predicate AllInReassembly(l: Layer) {
    && l.ho.store.captured == [] && l.ho.ingress == [] && l.harq.buf == [] && !l.buf.HasPkts()
    && l.buf.q.lanes.dropped == [] && OneBackend(l.buf)
  }

  // After the victims are collected and the expired packets dropped, the buffer is empty.
  lemma BufferEmpties(a: Layer, t: real)
    requires OneBackend(a.buf) && Emptying(a, t) && a.ho.ingress == []
    ensures var c := a.CollectDropped().CleanupIp();
            c.ho.ingress == [] && c.buf.q.lanes.dropped == [] && !c.buf.HasPkts() && Emptying(c, t)
  {
    hide Emptying, Layer.CollectDropped, Layer.CleanupIp, Buffer.HasPkts;
    CollectEnds(a);
    CollectEmptying(a, t);
    CleanupIpEnds(a.CollectDropped(), t);
  }

  // And so is the retransmission buffer after its own cleanup.
  lemma BlocksEmpty(c: Layer, t: real)
    requires Emptying(c, t)
    ensures var d := c.CleanupHarq(); d.harq.buf == [] && d.buf == c.buf && d.ho.ingress == c.ho.ingress
  {
    hide LateQueues, AllBefore, DueOrSpoiled, Layer.CleanupHarq, PdcpProgress.Unexpired, PdcpProgress.Expired,
         PdcpProgress.DropAll;
    PdcpProgress.CleanupHarqFilters(c);
    NoneUnexpired(c.harq.buf, c.now - c.budget);
    FifoBudget.CleanupHarqKeepsLine(c);
  }

  lemma StepGathersAll(l: Layer, t: real)
    requires Balanced(l) && Neat(l) && l.now <= t && AllLate(l, t)
    ensures var s := l.StepTo(t); AllInReassembly(s) && DueOrSpoiled(s.ho.out, t) && s.ho.now == t && Neat(s)
  {
    StepNeat(l, t);
    StepEmptying(l, t);
    hide Balanced, Distinct, Unshortened, LateQueues, AllBefore, DueOrSpoiled, Layer.Tick, Layer.DrainIngress,
         Layer.CollectDropped, Layer.CleanupIp, Layer.CleanupHarq, OneBackend, Buffer.HasPkts;
    var a := l.Tick(t).DrainIngress();
    DrainEnds(l.Tick(t));
    DrainedNeat(l, t);
    BufferEmpties(a, t);
    BlocksEmpty(a.CollectDropped().CleanupIp(), t);
  }

  lemma DrainedNeat(l: Layer, t: real)
    requires Balanced(l) && Neat(l) && l.now <= t && AllLate(l, t)
    ensures Neat(l.Tick(t).DrainIngress()) && Emptying(l.Tick(t).DrainIngress(), t)
  {
    hide Balanced, Neat, Emptying, AllLate, Layer.Tick, Layer.DrainOne, Layer.DrainIngress;
    TickBalanced(l, t);
    TickNeat(l, t);
    TickEmptying(l, t);
    var inv := (k: Layer) => Balanced(k) && Neat(k) && Emptying(k, t);
    forall k: Layer | inv(k) && k.ho.ingress != []
      ensures inv(k.DrainOne())
    {
      LoopsKeepBalance(k);
      DrainOneNeat(k);
      DrainOneEmptying(k, t);
    }
    DrainInduction(l.Tick(t), inv);
  }

  lemma CollectEmptying(l: Layer, t: real)
    requires Emptying(l, t)
    ensures Emptying(l.CollectDropped(), t)
  {
    hide Emptying, Layer.CollectOne, Layer.CollectDropped;
    forall k: Layer | Emptying(k, t) && k.buf.PopAqmDropped().1.Some?
      ensures Emptying(k.CollectOne(), t)
    {
      CollectOneEmptying(k, t);
    }
    CollectInduction(l, (k: Layer) => Emptying(k, t));
  }

  // ----- and a release -----

  lemma {:induction false} OneEntryWeighs(out: seq<IpPkt>, i: nat)
    requires Distinct(out) && i < |out|
    ensures Weigh(BitsOf(out[i].uid), out) == out[i].size
  {
    var rest := out[1..];
    assert forall j :: 0 <= j < |rest| ==> rest[j] == out[j + 1];
    if i == 0 {
      NobodyWeighs(rest, out[0].uid);
    } else {
      OneEntryWeighs(rest, i - 1);
    }
  }

  lemma NothingElsewhere(l: Layer, g: Gauge)
    requires AllInReassembly(l)
    ensures Live(g, l) == Weigh(g, l.ho.out)
  {
  }

  // With everything in reassembly, every entry has all its packet's bits.
  lemma AllComplete(l: Layer)
    requires Balanced(l) && Neat(l) && AllInReassembly(l)
    ensures forall i :: 0 <= i < |l.ho.out| ==> l.ho.out[i].IsReady()
  {
    forall i | 0 <= i < |l.ho.out|
      ensures l.ho.out[i].IsReady()
    {
      var p := l.ho.out[i];
      assert Books(l, p.uid) && Genuine(p, l.ho.store.seen);
      hide Balanced, AllInReassembly, Signals;
      OneEntryWeighs(l.ho.out, i);
      NothingElsewhere(l, BitsOf(p.uid));
      BalancedSettles(l);
      ToldIsVerdicts(l.ho.verdicts, l.ho.store.seen, p.uid);
    }
  }

  lemma BalancedSettles(l: Layer)
    requires Balanced(l)
    ensures forall v :: v in l.ho.verdicts ==> Settled(v, l.ho.store.seen)
    ensures l.ho.store.payloads.Keys == l.ho.store.seen.Keys - ToldUids(l.ho.verdicts)
  {
    ShapeSettles(l);
  }

  // Without bits anywhere, every captured packet has had its verdict and no payload is kept.
  lemma EmptyMeansTold(l: Layer)
    requires Balanced(l) && AllInReassembly(l) && l.ho.out == []
    ensures forall u: nat :: u in l.ho.store.seen ==> Verdicts(l.ho.verdicts, u) == 1
    ensures l.ho.store.payloads == map[]
  {
    BalancedSettles(l);
    forall u: nat | u in l.ho.store.seen
      ensures Verdicts(l.ho.verdicts, u) == 1 && u in ToldUids(l.ho.verdicts)
    {
      assert Books(l, u);
      hide Balanced, AllInReassembly, Signals;
      NothingElsewhere(l, BitsOf(u));
      ToldIsVerdicts(l.ho.verdicts, l.ho.store.seen, u);
    }
    assert l.ho.store.payloads.Keys == {};
  }

  lemma {:induction false} AllGo(h: Handler)
    requires !h.doCheck && (forall i :: 0 <= i < |h.out| ==> h.out[i].IsReady()) && DueOrSpoiled(h.out, h.now)
    ensures h.Release().out == []
    decreases |h.out|
  {
    hide Store.Verdict;
    if h.out != [] {
      assert forall i :: 0 <= i < |h.ReleaseFront().out| ==> h.ReleaseFront().out[i] == h.out[i + 1];
      AllGo(h.ReleaseFront());
    }
  }

  lemma {:induction false} ReleaseEnds(h: Handler)
    ensures var r := h.Release();
            && !r.FrontGoes() && r.now == h.now && |r.out| <= |h.out| && r.out == h.out[|h.out| - |r.out|..]
            && r.ingress == h.ingress && r.store.captured == h.store.captured
    decreases |h.out|
  {
    hide Store.Verdict, Handler.FrontGoes;
    if h.FrontGoes() {
      GoesIsSome(h);
      VerdictKeepsOrder(h.store, h.out[0].uid, KindOf(h.out[0]));
      ReleaseEnds(h.ReleaseFront());
    }
  }

  lemma GoesIsSome(h: Handler)
    ensures h.FrontGoes() ==> h.out != []
  {
  }

  lemma StillInReassembly(l: Layer)
    requires AllInReassembly(l)
    ensures AllInReassembly(l.Release())
  {
    ReleaseEnds(l.ho);
    hide Handler.Release;
  }

  ghost predicate AllTold(l: Layer) {
    && (forall u: nat :: u in l.ho.store.seen ==> Verdicts(l.ho.verdicts, u) == 1)
    && l.ho.store.payloads == map[] && l.ho.out == [] && !l.buf.HasPkts() && l.harq.buf == []
  }

  lemma DrainedAndReleased(l: Layer, t: real)
    requires Good(l) && Neat(l) && l.now <= t && AllLate(l, t)
    ensures CanRun(l, [Step(t), Release]) && Run(l, [Step(t), Release]) == l.StepTo(t).Release()
    ensures var s := l.StepTo(t);
            && Balanced(s) && Balanced(s.Release()) && AllInReassembly(s) && AllInReassembly(s.Release())
            && (forall i :: 0 <= i < |s.ho.out| ==> Goes(s.ho.out[i], s.ho.now))
            && s.ho.now == t
  {
    hide Good, Neat, AllLate, Layer.StepTo, Layer.Release, Balanced, AllInReassembly, Run, CanRun, IpPkt.IsReady;
    GoodIsBalanced(l);
    StepGathersAll(l, t);
    EventKeeps(l, Step(t));
    var s := l.StepTo(t);
    GoodIsBalanced(s);
    EventKeeps(s, Release);
    GoodIsBalanced(s.Release());
    AllComplete(s);
    StillInReassembly(s);
    RunTwo(l, Step(t), Release);
  }

  /** Nobody waits for ever: from any state a run of either mode can reach with the order check off, whatever failed,
      overflowed or was dropped, a tick past every budget and a release give every captured packet its one verdict and
      leave no payload, packet or block behind. */
  lemma DrainTellsAll(l: Layer, es: seq<Event>, t: real)
    requires Initial(l) && CanRun(l, es) && !l.ho.doCheck && Run(l, es).now <= t && AllLate(Run(l, es), t)
    ensures CanRun(l, es + [Step(t), Release]) && AllTold(Run(l, es + [Step(t), Release]))
  {
    hide Initial, Good, Neat, AllLate, Run, CanRun, Layer.StepTo, Handler.Release, Balanced, AllInReassembly,
         IpPkt.IsReady;
    RunsAreNeat(l, es);
    var r := Run(l, es);
    DrainedAndReleased(r, t);
    RunAppend(l, es, [Step(t), Release]);
    CheckIsFixed(l, es);
    StepKeepsHistory(r, t);
    var s := r.StepTo(t);
    AllGo(s.ho);
    EmptyMeansTold(s.Release());
    EmptyBuffers(s.Release());
  }

  lemma EmptyBuffers(l: Layer)
    requires AllInReassembly(l)
    ensures !l.buf.HasPkts() && l.harq.buf == []
  {
  }

  // A safe release of entries that can all go leaves none behind.
  lemma SafeReleaseEmpties(l: Layer)
    requires Balanced(l) && Orderly(l) && SafeToRelease(l)
    requires forall i :: 0 <= i < |l.ho.out| ==> Goes(l.ho.out[i], l.ho.now)
    ensures l.Release().ho.out == []
  {
    hide Balanced, Orderly, SafeToRelease, Goes, Handler.Release, Handler.FrontGoes;
    ReleaseExactly(l);
    ReleaseEnds(l.ho);
    var d := l.Release();
    if d.ho.out != [] {
      assert d.ho.out[0] == l.ho.out[|l.ho.out| - |d.ho.out|];
      NextGoes(d);
    }
  }

  /** In FIFO mode with a clean radio link, order check on or off: after the tick past every budget the release tells
      every captured packet, in the order of capture, if and only if no entry overtakes another. */
  lemma DrainTellsInOrder(l: Layer, es: seq<Event>, t: real)
    requires Initial(l) && !l.buf.dual && CanRun(l, es) && FaultlessRun(l, es) && SafeRun(l, es)
    requires Run(l, es).now <= t && AllLate(Run(l, es), t)
    ensures CanRun(l, es + [Step(t), Release])
    ensures var d := Run(l, es + [Step(t), Release]);
            AllTold(d) && ToldAsCaptured(d.ho.verdicts, d.ho.store.order) <==> SafeToRelease(Run(l, es).StepTo(t))
  {
    hide Initial, Good, Neat, AllLate, Run, CanRun, FaultlessRun, SafeRun, Layer.StepTo, Handler.Release, Balanced,
         Goes, AllInReassembly, Orderly, SafeToRelease, ToldAsCaptured, Verdicts;
    RunsAreNeat(l, es);
    InitialIsGood(l);
    InitialIsOrderly(l);
    RunExactly(l, es);
    var r := Run(l, es);
    StepOrderly(r, t);
    DrainedAndReleased(r, t);
    RunAppend(l, es, [Step(t), Release]);
    var s := r.StepTo(t);
    ReleaseExactly(s);
    if SafeToRelease(s) {
      SafeReleaseEmpties(s);
      EmptyMeansTold(s.Release());
      EmptyBuffers(s.Release());
    }
  }
}
