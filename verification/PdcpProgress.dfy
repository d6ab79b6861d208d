// Termination of the grant loop, the delay budget, and the class that runs the pipeline in place.
module PdcpProgress {
  import opened Packets
  import opened IpBuffer
  import opened IpBufferLaws
  import opened Harq
  import opened CapturedHandler
  import opened PdcpLayer
  import opened PdcpInduction
  import opened PdcpRuns

  // ----- the class and the runs -----

  /** The layer driven in place by any list of events ends in the state the run describes. */
  method Drive(layer: PdcpLayer, es: seq<Event>)
    requires CanRun(layer.State(), es)
    modifies layer, layer.ipBuffer, layer.ipBuffer.queue, layer.harqBuffer, layer.packetH, layer.packetH.capture
    ensures layer.State() == Run(old(layer.State()), es)
  {
    hide Layer.StepTo, Layer.HandlePkt, Layer.Release, Layer.Report, Layer.Halts;
    var i := 0;
    while i < |es|
      invariant 0 <= i <= |es|
      invariant CanRun(layer.State(), es[i..])
      invariant Run(layer.State(), es[i..]) == Run(old(layer.State()), es)
      decreases |es| - i
    {
      ghost var before := layer.State();
      assert es[i..][0] == es[i] && es[i..][1..] == es[i + 1..];
      match es[i] {
        case Capture(info, payload) => layer.packetH.capture.EnqueueCapturedPacket(info, payload);
        case Step(t) => layer.StepTo(t);
        case Grant(bits, radio) => var _ := layer.HandlePkt(bits, radio);
        case Release => var _ := layer.Release();
        case Report => var _ := layer.GetL4sIntervalStats();
      }
      assert layer.State() == Apply(before, es[i]);
      i := i + 1;
    }
  }

  // ----- the grant loop halts exactly when a whole bit is granted or nothing waits -----

  predicate HaltsWithin(l: Layer, bits: real, radio: Radio, turns: nat)
    decreases turns
  {
    bits <= 0.0 || !l.buf.HasPkts()
    || (turns > 0
        && var (l', outcome) := l.Turn(bits, radio);
           outcome != Again || HaltsWithin(l', bits, radio, turns - 1))
  }

  lemma {:induction false} WholeBitsHalt(l: Layer, bits: real, radio: Radio, turns: nat)
    requires l.Halts(bits) && turns >= Waiting(AllBits, l.buf)
    ensures HaltsWithin(l, bits, radio, turns)
    decreases turns
  {
    hide Layer.Turn, Waiting;
    if bits > 0.0 && l.buf.HasPkts() {
      TurnShrinks(l, bits, radio);
      if l.Turn(bits, radio).1 == Again {
        WholeBitsHalt(l.Turn(bits, radio).0, bits, radio, turns - 1);
      }
    }
  }

  lemma {:induction false} FractionSpins(l: Layer, bits: real, radio: Radio, turns: nat)
    requires l.buf.HasPkts() && 0.0 < bits < 1.0
    ensures !HaltsWithin(l, bits, radio, turns)
    decreases turns
  {
    if turns > 0 {
      assert bits.Floor == 0;
      var l1 := l.(buf := l.buf.GetPkts(0).0, nextId := l.nextId + 1);
      CollectKeepsQueues(l1);
      FractionSpins(l.Turn(bits, radio).0, bits, radio, turns - 1);
    }
  }

  /** A grant strictly between zero and one bit on a non-empty buffer never finishes; every other grant does. */
  lemma GrantLoopHalts(l: Layer, bits: real, radio: Radio)
    ensures (exists turns: nat :: HaltsWithin(l, bits, radio, turns)) <==> l.Halts(bits)
  {
    if l.Halts(bits) {
      WholeBitsHalt(l, bits, radio, Waiting(AllBits, l.buf));
    } else {
      forall turns: nat
        ensures !HaltsWithin(l, bits, radio, turns)
      {
        FractionSpins(l, bits, radio, turns);
      }
    }
  }

  // ----- a grant that is served in one turn -----

  lemma TurnDelivers(l: Layer, bits: real, radio: Radio)
    requires l.buf.HasPkts() && bits > 0.0 && l.buf.GetPkts(bits.Floor).1 != [] && !radio.fails
    requires !l.IsExpired(l.buf.OldestTimestamp())
    ensures var (b, out) := l.buf.GetPkts(bits.Floor);
            var l1 := l.(buf := b, nextId := l.nextId + 1).CollectDropped();
            var block := BlockOf(l.nextId, l.buf.OldestTimestamp(), l.now, l.bhD, l.bhVar, out);
            l.Turn(bits, radio) == (l1.(ho := l1.ho.Push(block, radio.jitter)), Done(block.bits))
  {
    hide Buffer.GetPkts, Layer.CollectDropped, Handler.Push;
  }

  lemma TurnFails(l: Layer, bits: real, radio: Radio)
    requires l.buf.HasPkts() && bits > 0.0 && l.buf.GetPkts(bits.Floor).1 != [] && radio.fails
    requires !l.IsExpired(l.buf.OldestTimestamp())
    ensures var (b, out) := l.buf.GetPkts(bits.Floor);
            var l1 := l.(buf := b, nextId := l.nextId + 1).CollectDropped();
            var block := BlockOf(l.nextId, l.buf.OldestTimestamp(), l.now, l.bhD, l.bhVar, out);
            l.Turn(bits, radio) == (l1.(harq := l1.harq.AddPkts(block, radio.ackDelay)), Done(0))
  {
    hide Buffer.GetPkts, Layer.CollectDropped, Handler.Push, Harq.AddPkts;
  }

  // ----- what is reported sent of a grant -----

  lemma {:induction false} FillWithin(b: Buffer, bits: nat)
    ensures Weigh(AllBits, b.Fill(bits).1) <= bits
    decreases bits
  {
    hide Buffer.PopNext, Buffer.Requeue;
    if bits > 0 && b.HasPkts() {
      var (b1, next) := b.PopNext();
      if next.Some? {
        if next.value.size <= bits {
          FillWithin(b1, bits - next.value.size);
          WeighCons(AllBits, Whole(next.value), b1.Fill(bits - next.value.size).1);
        } else {
          WeighCons(AllBits, Fragment(next.value, bits), []);
          assert [Fragment(next.value, bits)] + [] == [Fragment(next.value, bits)];
        }
      }
    }
  }

  lemma {:induction false} NewTrafficWithin(l: Layer, bits: real, radio: Radio)
    requires l.Halts(bits)
    ensures l.ServeNew(bits, radio).1 == 0 || l.ServeNew(bits, radio).1 as real <= bits
    decreases Waiting(AllBits, l.buf)
  {
    hide Buffer.Fill, Layer.CollectDropped, Handler.DropBlock, Handler.Push, Waiting, Buffer.HasPkts, Weigh;
    if bits > 0.0 && l.buf.HasPkts() {
      FillWithin(l.buf, bits.Floor);
      TurnShrinks(l, bits, radio);
      if l.Turn(bits, radio).1 == Again {
        NewTrafficWithin(l.Turn(bits, radio).0, bits, radio);
      }
    }
  }

  /** A grant reports at most its bits sent, exactly unless it is spent on a retransmission that succeeds and is larger:
      then the whole block is reported, and more is sent than was scheduled. */
  lemma OnlyRetransmissionsExceed(l: Layer, bits: real, radio: Radio)
    requires (l.harq.IsPktReady() || l.Halts(bits)) && bits >= 0.0
    ensures l.HandlePkt(bits, radio).1 as real > bits
        <==> l.harq.IsPktReady() && !radio.fails && l.harq.buf[0].bits as real > bits
  {
    hide Handler.DropBlock, Handler.Push, Layer.ServeNew;
    if !l.harq.IsPktReady() {
      NewTrafficWithin(l, bits, radio);
    }
  }

  // ----- the delay budget: retransmission buffer -----

  function Unexpired(s: seq<HarqPkt>, limit: real): seq<HarqPkt> {
    if s == [] then []
    else if s[0].ipT < limit then Unexpired(s[1..], limit)
    else [s[0]] + Unexpired(s[1..], limit)
  }

  function Expired(s: seq<HarqPkt>, limit: real): seq<HarqPkt> {
    if s == [] then []
    else if s[0].ipT < limit then [s[0]] + Expired(s[1..], limit)
    else Expired(s[1..], limit)
  }

  function DropAll(h: Handler, blocks: seq<HarqPkt>): Handler
    decreases |blocks|
  {
    if blocks == [] then h else DropAll(h.DropBlock(blocks[0]), blocks[1..])
  }

  lemma SplitCons(b: HarqPkt, s: seq<HarqPkt>, limit: real)
    ensures Unexpired([b] + s, limit) == if b.ipT < limit then Unexpired(s, limit) else [b] + Unexpired(s, limit)
    ensures Expired([b] + s, limit) == if b.ipT < limit then [b] + Expired(s, limit) else Expired(s, limit)
  {
    assert ([b] + s)[1..] == s;
  }

  lemma FrontJoins(a: seq<HarqPkt>, s: seq<HarqPkt>)
    requires a != []
    ensures [a[0]] + (a[1..] + s) == a + s
  {
  }

  lemma {:induction false} SplitBehindFresh(a: seq<HarqPkt>, s: seq<HarqPkt>, limit: real)
    requires forall j :: 0 <= j < |a| ==> a[j].ipT >= limit
    ensures Unexpired(a + s, limit) == a + Unexpired(s, limit)
    ensures Expired(a + s, limit) == Expired(s, limit)
  {
    hide Unexpired, Expired;
    if a == [] {
      assert a + s == s && a + Unexpired(s, limit) == Unexpired(s, limit);
    } else {
      SplitBehindFresh(a[1..], s, limit);
      SplitCons(a[0], a[1..] + s, limit);
      FrontJoins(a, s);
      FrontJoins(a, Unexpired(s, limit));
    }
  }

  lemma OneTakenOut(a: seq<HarqPkt>, b: HarqPkt, rest: seq<HarqPkt>, limit: real)
    requires (forall j :: 0 <= j < |a| ==> a[j].ipT >= limit) && b.ipT < limit
    ensures Unexpired(a + rest, limit) == Unexpired(a + ([b] + rest), limit)
    ensures [b] + Expired(a + rest, limit) == Expired(a + ([b] + rest), limit)
  {
    hide Unexpired, Expired;
    SplitBehindFresh(a, rest, limit);
    SplitBehindFresh(a, [b] + rest, limit);
    SplitCons(b, rest, limit);
  }

  // Taking out the first expired block takes it off both lists.
  lemma FirstExpired(s: seq<HarqPkt>, limit: real)
    ensures var i := FirstOlder(s, limit);
            if i == |s| then Unexpired(s, limit) == s && Expired(s, limit) == []
            else Unexpired(s[..i] + s[i + 1..], limit) == Unexpired(s, limit)
                 && [s[i]] + Expired(s[..i] + s[i + 1..], limit) == Expired(s, limit)
  {
    var i := FirstOlder(s, limit);
    if i == |s| {
      SplitBehindFresh(s, [], limit);
      assert s + [] == s;
    } else {
      hide Unexpired, Expired;
      OneTakenOut(s[..i], s[i], s[i + 1..], limit);
      assert s == s[..i] + ([s[i]] + s[i + 1..]);
    }
  }

  lemma DropCons(h: Handler, b: HarqPkt, rest: seq<HarqPkt>)
    ensures DropAll(h, [b] + rest) == DropAll(h.DropBlock(b), rest)
  {
    assert ([b] + rest)[1..] == rest;
  }

  lemma PopTakesFirst(h: Harq, limit: real)
    ensures var (h', b) := h.PopOlderThan(limit); var i := FirstOlder(h.buf, limit);
            if i == |h.buf| then b == None
            else b == Some(h.buf[i]) && h'.buf == h.buf[..i] + h.buf[i + 1..]
  {
  }

  lemma {:induction false} CleanupHarqFilters(l: Layer)
    ensures l.CleanupHarq().harq.buf == Unexpired(l.harq.buf, l.now - l.budget)
    ensures l.CleanupHarq().ho == DropAll(l.ho, Expired(l.harq.buf, l.now - l.budget))
    ensures l.CleanupHarq().buf == l.buf && l.CleanupHarq().now == l.now && l.CleanupHarq().budget == l.budget
    decreases |l.harq.buf|
  {
    hide Handler.DropBlock, Unexpired, Expired, Harq.PopOlderThan, DropAll;
    var limit := l.now - l.budget;
    FirstExpired(l.harq.buf, limit);
    PopTakesFirst(l.harq, limit);
    DropNone(l.ho);
    var (h, b) := l.harq.PopOlderThan(limit);
    if b.Some? {
      DropCons(l.ho, b.value, Expired(h.buf, limit));
      CleanupHarqFilters(l.DropExpiredBlock());
    }
  }

  lemma DropNone(h: Handler)
    ensures DropAll(h, []) == h
  {
  }

  lemma {:induction false} UnexpiredIsFresh(s: seq<HarqPkt>, limit: real)
    ensures forall b :: b in Unexpired(s, limit) <==> b in s && b.ipT >= limit
    ensures multiset(Unexpired(s, limit)) + multiset(Expired(s, limit)) == multiset(s)
  {
    if s != [] {
      UnexpiredIsFresh(s[1..], limit);
      assert s == [s[0]] + s[1..];
    }
  }

  /** After a step, in either mode, the retransmission buffer holds exactly its blocks within the delay budget, in
      their old order; the others were handed to `drop` in theirs. */
  lemma StepClearsHarq(l: Layer, t: real)
    ensures var r := l.StepTo(t);
            && r.harq.buf == Unexpired(l.harq.buf, t - l.budget)
            && (forall b :: b in r.harq.buf <==> b in l.harq.buf && b.ipT >= t - l.budget)
            && r.ho == DropAll(l.Tick(t).DrainIngress().CollectDropped().CleanupIp().ho,
                               Expired(l.harq.buf, t - l.budget))
  {
    hide Layer.DrainIngress, Layer.CollectDropped, Layer.CleanupIp, Layer.CleanupHarq, Handler.Ingest, Buffer.StepTo,
         Unexpired, Expired, DropAll, Handler.DropBlock, Handler.DropIngress, Buffer.AddPkt, Buffer.PopOldest;
    var l1 := l.Tick(t);
    var inv := (k: Layer) => k.now == t && k.budget == l.budget && k.harq.buf == l.harq.buf;
    DrainInduction(l1, inv);
    CollectInduction(l1.DrainIngress(), inv);
    CleanupIpInduction(l1.DrainIngress().CollectDropped(), inv);
    CleanupHarqFilters(l1.DrainIngress().CollectDropped().CleanupIp());
    UnexpiredIsFresh(l.harq.buf, t - l.budget);
  }

  // ----- the AQM's victims -----

  // Victims handed to `drop` first to last, each in a block of its own.
  function DropVictims(h: Handler, victims: seq<IpPkt>, t: real): Handler
    decreases |victims|
  {
    if victims == [] then h else DropVictims(h.DropBlock(AqmBlock(victims[0], t)), victims[1..], t)
  }

  /** Collecting the victims hands them to `drop` in the order in which the AQM dropped them, leaves none behind and
      gives their bits back; in FIFO mode there is nothing to collect. */
  lemma {:induction false} VictimsGoInOrder(l: Layer)
    ensures var l' := l.CollectDropped();
            if !l.buf.dual then l' == l
            else
              && l'.ho == DropVictims(l.ho, l.buf.q.lanes.dropped, l.buf.now) && l'.buf.q.lanes.dropped == []
              && l'.buf.q.lanes == l.buf.q.lanes.(dropped := [])
              && (l.buf.curSize >= Weigh(AllBits, l.buf.q.lanes.dropped) ==>
                    l'.buf.curSize == l.buf.curSize - Weigh(AllBits, l.buf.q.lanes.dropped))
    decreases |l.buf.q.lanes.dropped|
  {
    hide Handler.DropBlock;
    if l.buf.PopAqmDropped().1.Some? {
      VictimsGoInOrder(l.CollectOne());
    }
  }

  // ----- where no transmission fails -----

  lemma EventKeepsNoBlocks(l: Layer, e: Event)
    requires l.harq.buf == [] && Enabled(l, e) && Succeeds(e)
    ensures Apply(l, e).harq.buf == []
  {
    hide Layer.StepTo, Layer.Turn, Layer.ServeNew, Handler.Release;
    match e
    case Capture(info, payload) =>
    case Step(t) => StepClearsHarq(l, t);
    case Grant(bits, radio) =>
      forall k: Layer | k.harq.buf == [] && bits > 0.0 && k.buf.HasPkts()
        ensures k.Turn(bits, radio).0.harq.buf == []
      {
        TurnKeepsBlocks(k, bits, radio);
      }
      GrantInduction(l, bits, radio, (k: Layer) => k.harq.buf == []);
    case Release =>
    case Report =>
  }

  lemma TurnKeepsBlocks(l: Layer, bits: real, radio: Radio)
    requires bits > 0.0 && l.buf.HasPkts() && !radio.fails
    ensures l.Turn(bits, radio).0.harq == l.harq
  {
    hide Buffer.GetPkts, Layer.CollectDropped, Handler.DropBlock, Handler.Push, Buffer.HasPkts, Buffer.OldestTimestamp;
    CollectKeepsQueues(l.(buf := l.buf.GetPkts(bits.Floor).0, nextId := l.nextId + 1));
  }

  lemma {:induction false} NothingToRetransmit(l: Layer, es: seq<Event>)
    requires l.harq.buf == [] && CanRun(l, es) && forall e :: e in es ==> Succeeds(e)
    ensures Run(l, es).harq.buf == []
    decreases |es|
  {
    hide Enabled, Apply, Succeeds;
    if es != [] {
      EventKeepsNoBlocks(l, es[0]);
      NothingToRetransmit(Apply(l, es[0]), es[1..]);
    }
  }

  /** Over every run in which no transmission fails, as none does in the source as compiled, the retransmission buffer
      is empty and no grant reports more than its bits. */
  lemma CleanGrantsStayWithin(l: Layer, es: seq<Event>, bits: real, radio: Radio)
    requires Initial(l) && CanRun(l, es) && (forall e :: e in es ==> Succeeds(e))
    ensures var r := Run(l, es);
            r.harq.buf == [] && (bits >= 0.0 && r.Halts(bits) ==> r.HandlePkt(bits, radio).1 as real <= bits)
  {
    hide Run, CanRun, Succeeds, Layer.HandlePkt, Layer.Halts;
    NothingToRetransmit(l, es);
    if bits >= 0.0 && Run(l, es).Halts(bits) {
      OnlyRetransmissionsExceed(Run(l, es), bits, radio);
    }
  }
}
