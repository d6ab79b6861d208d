// A shut order gate: a complete packet at the front whose predecessor is not the last one told, while everything
// captured before it has its verdict. No step of the pipeline opens it.
module ShutGate {
  import opened Packets
  import opened DualPi2Laws
  import opened IpBuffer
  import opened IpBufferLaws
  import opened Harq
  import opened CapturedHandler
  import opened CapturedHandlerLaws
  import opened IdentityLaws
  import opened PdcpLayer
  import opened PdcpInduction
  import opened PdcpLaws

  // The front packet is complete and unspoiled but out of order, and everything older has its verdict.
  ghost predicate Blocked(h: Handler, u: nat) {
    && h.doCheck && h.prevReleased > -1 && h.out != [] && h.out[0].uid == u
    && h.out[0].IsReady() && !h.out[0].erase && h.prevReleased != h.out[0].prevUid
    && (forall v: nat :: v < u && v in h.store.seen ==> Verdicts(h.verdicts, v) > 0)
  }

  ghost predicate Balanced(l: Layer) { Shape(l) && forall v: nat :: Books(l, v) }

  ghost predicate Stuck(l: Layer, u: nat) { Balanced(l) && Blocked(l.ho, u) }

  // ----- nothing of the front packet, or of anything older, is left anywhere else -----

  lemma {:induction false} NoWeightNoPiece(s: seq<IpPkt>, v: nat)
    requires Weigh(BitsOf(v), s) == 0
    ensures forall i :: 0 <= i < |s| ==> s[i].uid != v
  {
    forall i | 0 <= i < |s|
      ensures s[i].uid != v
    {
      WeighMember(BitsOf(v), s, i);
    }
  }

  // The same while a block of just-granted packets is in nobody's hands yet.
  ghost predicate StuckWith(l: Layer, u: nat, flight: seq<IpPkt>) {
    Shape(l) && (forall v: nat :: BooksInFlight(l, v, flight)) && Blocked(l.ho, u)
  }

  lemma NothingInFlight(l: Layer, u: nat)
    requires Stuck(l, u)
    ensures StuckWith(l, u, [])
  {
    hide Shape, Live, Pending, Signals, Told;
    forall v: nat
      ensures BooksInFlight(l, v, [])
    {
      assert Books(l, v);
    }
  }

  lemma FrontHoldsAll(l: Layer, u: nat, v: nat, flight: seq<IpPkt>)
    requires StuckWith(l, u, flight) && v <= u
    ensures Live(BitsOf(v), l) + Weigh(BitsOf(v), flight) == if v == u then l.ho.out[0].size else 0
  {
    hide BufferSound, Signals, WeighBlocks, WeighInfos, BufferGenuine, BlocksGenuine, Held, Waiting;
    assert BooksInFlight(l, v, flight);
    ToldIsVerdicts(l.ho.verdicts, l.ho.store.seen, v);
    if v == u {
      assert Genuine(l.ho.out[0], l.ho.store.seen);
      WeighMember(BitsOf(u), l.ho.out, 0);
    }
  }

  // Everything outside the front entry belongs to packets captured later.
  lemma OthersAreLater(l: Layer, u: nat, v: nat, flight: seq<IpPkt>)
    requires StuckWith(l, u, flight) && v <= u
    ensures Weigh(BitsOf(v), l.ho.ingress) == Held(BitsOf(v), l.buf) == WeighBlocks(BitsOf(v), l.harq.buf) == 0
    ensures Weigh(BitsOf(v), l.ho.out[1..]) == Weigh(BitsOf(v), flight) == 0
  {
    hide Shape, BooksInFlight, Held, WeighBlocks, WeighInfos, IpPkt.IsReady;
    FrontHoldsAll(l, u, v, flight);
  }

  ghost predicate Later(s: seq<IpPkt>, u: nat) {
    forall i :: 0 <= i < |s| ==> s[i].uid > u
  }

  lemma LaterByWeight(s: seq<IpPkt>, u: nat)
    requires forall v: nat :: v <= u ==> Weigh(BitsOf(v), s) == 0
    ensures Later(s, u)
  {
    forall i | 0 <= i < |s|
      ensures s[i].uid > u
    {
      if s[i].uid <= u {
        NoWeightNoPiece(s, s[i].uid);
      }
    }
  }

  lemma AllLater(l: Layer, u: nat, flight: seq<IpPkt>)
    requires StuckWith(l, u, flight)
    ensures Later(flight, u) && Later(l.ho.out[1..], u) && Later(l.ho.ingress, u) && Later(l.buf.fifo, u)
    ensures Later(l.buf.q.lanes.l, u) && Later(l.buf.q.lanes.c, u) && Later(l.buf.q.lanes.dropped, u)
  {
    assert l.ho.out != [] && l.ho.out[0].uid == u;
    hide StuckWith, WeighBlocks, Later, Weigh;
    forall v: nat | v <= u
      ensures Weigh(BitsOf(v), flight) == Weigh(BitsOf(v), l.ho.out[1..]) == Weigh(BitsOf(v), l.ho.ingress) == 0
      ensures Weigh(BitsOf(v), l.buf.fifo) == Weigh(BitsOf(v), l.buf.q.lanes.dropped) == 0
      ensures Weigh(BitsOf(v), l.buf.q.lanes.l) == Weigh(BitsOf(v), l.buf.q.lanes.c) == 0
    {
      OthersAreLater(l, u, v, flight);
    }
    LaterByWeight(flight, u);
    LaterByWeight(l.ho.out[1..], u);
    LaterByWeight(l.ho.ingress, u);
    LaterByWeight(l.buf.fifo, u);
    LaterByWeight(l.buf.q.lanes.l, u);
    LaterByWeight(l.buf.q.lanes.c, u);
    LaterByWeight(l.buf.q.lanes.dropped, u);
  }

  // ----- the front entry stays at the front -----

  lemma {:induction false} RemoveAllKeepsFront(out: seq<IpPkt>, pkts: seq<IpPkt>, tOut: real, ipT: real, u: nat)
    requires out != [] && out[0].uid == u && Later(pkts, u)
    ensures var r := RemoveAll(out, pkts, tOut, ipT); r != [] && r[0] == out[0]
    decreases |pkts|
  {
    if pkts != [] {
      RemoveAllKeepsFront(RemoveData(out, Stamped(pkts[0], tOut, ipT)), pkts[1..], tOut, ipT, u);
    }
  }

  lemma {:induction false} AddAllKeepsFront(out: seq<IpPkt>, pkts: seq<IpPkt>, tOut: real, ipT: real, u: nat)
    requires out != [] && out[0].uid == u && Later(out[1..], u) && Later(pkts, u)
    ensures var r := AddAll(out, pkts, tOut, ipT); r != [] && r[0] == out[0] && Later(r[1..], u)
    decreases |pkts|
  {
    if pkts != [] {
      var next := AddData(out, Stamped(pkts[0], tOut, ipT));
      assert forall i :: 0 < i < |out| ==> out[i] == out[1..][i - 1];
      assert forall i :: 0 < i < |next| ==> next[i].uid > u;
      AddAllKeepsFront(next, pkts[1..], tOut, ipT, u);
    }
  }

  lemma SortKeepsFront(out: seq<IpPkt>, u: nat)
    requires out != [] && out[0].uid == u && Later(out[1..], u)
    ensures var r := SortByUid(out); r != [] && r[0] == out[0]
  {
    SortKeepsMembers(out[1..]);
    var rest := SortByUid(out[1..]);
    if rest != [] {
      assert rest[0] in rest;
      assert rest[0] in out[1..];
    }
  }

  lemma DropKeepsBlocked(h: Handler, b: HarqPkt, u: nat)
    requires Blocked(h, u) && Later(b.pkts, u)
    ensures Blocked(h.DropBlock(b), u) && h.DropBlock(b) == h.(out := h.DropBlock(b).out)
  {
    hide Later;
    RemoveAllKeepsFront(h.out, b.pkts, b.tOut, b.ipT, u);
  }

  lemma PushKeepsBlocked(h: Handler, b: HarqPkt, jitter: real, u: nat)
    requires Blocked(h, u) && Later(h.out[1..], u) && Later(b.pkts, u)
    ensures var h' := h.Push(b, jitter); Blocked(h', u) && h' == h.(out := h'.out, delivered := h'.delivered)
  {
    hide Later, AddAll, SortByUid;
    AddAllKeepsFront(h.out, b.pkts, ReleaseTime(b, jitter), b.ipT, u);
    SortKeepsFront(AddAll(h.out, b.pkts, ReleaseTime(b, jitter), b.ipT), u);
  }

  lemma RefusalKeepsBlocked(h: Handler, p: IpPkt, u: nat)
    requires Blocked(h, u) && Later(h.out[1..], u) && p.uid > u
    ensures Blocked(h.DropIngress(p), u) && h.DropIngress(p) == h.(out := h.DropIngress(p).out)
  {
    hide SortByUid;
    var all := h.out + [p.(erase := true, tOut := h.now)];
    assert all[1..] == h.out[1..] + [p.(erase := true, tOut := h.now)];
    SortKeepsFront(all, u);
  }

  // ----- one step at a time -----

  lemma DrainOneStuck(l: Layer, u: nat)
    requires Stuck(l, u) && l.ho.ingress != []
    ensures Stuck(l.DrainOne(), u) && l.DrainOne().ho.verdicts == l.ho.verdicts
  {
    hide Shape, Books, Handler.DropIngress, Buffer.AddPkt;
    forall v: nat
      ensures Shape(l.DrainOne()) && Books(l.DrainOne(), v)
    {
      DrainOneKeeps(l, v);
    }
    assert Shape(l.DrainOne()) by {
      DrainOneKeeps(l, 0);
    }
    NothingInFlight(l, u);
    AllLater(l, u, []);
    RefusalKeepsBlocked(l.ho.(ingress := l.ho.ingress[1..]), l.ho.ingress[0], u);
  }

  lemma BlocksAreLater(l: Layer, u: nat, i: nat)
    requires Stuck(l, u) && i < |l.harq.buf|
    ensures Later(l.harq.buf[i].pkts, u)
  {
    assert l.ho.out != [] && l.ho.out[0].uid == u;
    hide Stuck, StuckWith, Held, Later;
    NothingInFlight(l, u);
    forall v: nat | v <= u
      ensures Weigh(BitsOf(v), l.harq.buf[i].pkts) == 0
    {
      OthersAreLater(l, u, v, []);
      BlocksWithout(BitsOf(v), l.harq.buf, i);
    }
    LaterByWeight(l.harq.buf[i].pkts, u);
  }

  lemma DropOldestStuck(l: Layer, u: nat)
    requires Stuck(l, u) && l.buf.HasPkts()
    ensures Stuck(l.DropOldest(), u) && l.DropOldest().ho.verdicts == l.ho.verdicts
  {
    hide Shape, Books, Handler.DropBlock;
    forall v: nat
      ensures Books(l.DropOldest(), v)
    {
      DropOldestKeeps(l, v);
    }
    DropOldestKeeps(l, 0);
    NothingInFlight(l, u);
    AllLater(l, u, []);
    var p := l.buf.PopOldest().1.value;
    DropKeepsBlocked(l.ho, BlockOf(l.nextId, l.buf.OldestTimestamp(), l.now, l.bhD, l.bhVar, [p]), u);
  }

  lemma DropBlockStuck(l: Layer, u: nat)
    requires Stuck(l, u) && LateBlock(l)
    ensures Stuck(l.DropExpiredBlock(), u) && l.DropExpiredBlock().ho.verdicts == l.ho.verdicts
  {
    hide Shape, Books, Handler.DropBlock;
    forall v: nat
      ensures Books(l.DropExpiredBlock(), v)
    {
      DropExpiredBlockKeeps(l, v);
    }
    DropExpiredBlockKeeps(l, 0);
    BlocksAreLater(l, u, FirstOlder(l.harq.buf, l.now - l.budget));
    DropKeepsBlocked(l.ho, l.harq.PopOlderThan(l.now - l.budget).1.value, u);
  }

  lemma TickStuck(l: Layer, t: real, u: nat)
    requires Stuck(l, u) && l.now <= t
    ensures Stuck(l.Tick(t), u) && l.Tick(t).ho.verdicts == l.ho.verdicts
  {
    hide Shape, Books, Handler.Ingest, Buffer.StepTo;
    forall v: nat
      ensures Books(l.Tick(t), v)
    {
      TickKeeps(l, t, v);
    }
    TickKeeps(l, t, 0);
    ShapeRecords(l);
    IngestKeeps(l.ho.(now := t), AllBits);
  }

  lemma ShapeRecords(l: Layer)
    requires Shape(l)
    ensures Recorded(l.ho.store)
  {
  }

  // ----- grants -----

  lemma CollectOneFlight(l: Layer, u: nat, flight: seq<IpPkt>)
    requires StuckWith(l, u, flight) && l.buf.PopAqmDropped().1.Some?
    ensures var l' := l.CollectOne();
            StuckWith(l', u, flight) && l'.ho.verdicts == l.ho.verdicts && l'.ho.store == l.ho.store
  {
    hide Shape, BooksInFlight, Handler.DropBlock;
    var (b, victim) := l.buf.PopAqmDropped();
    forall v: nat
      ensures BooksInFlight(l.CollectOne(), v, flight)
    {
      CollectOneInFlight(l, v, flight);
    }
    CollectOneInFlight(l, 0, flight);
    AllLater(l, u, flight);
    DropKeepsBlocked(l.ho, AqmBlock(victim.value, b.now), u);
  }

  lemma CollectFlight(l: Layer, u: nat, flight: seq<IpPkt>)
    requires StuckWith(l, u, flight)
    ensures var l' := l.CollectDropped();
            StuckWith(l', u, flight) && l'.ho.verdicts == l.ho.verdicts && l'.ho.store == l.ho.store
  {
    hide StuckWith, Layer.CollectOne, Layer.CollectDropped;
    var inv := (k: Layer) =>
      StuckWith(k, u, flight) && k.ho.verdicts == l.ho.verdicts && k.ho.store == l.ho.store;
    forall k: Layer | inv(k) && k.buf.PopAqmDropped().1.Some?
      ensures inv(k.CollectOne())
    {
      CollectOneFlight(k, u, flight);
    }
    CollectInduction(l, inv);
  }

  lemma EmptyFlight(l: Layer, u: nat, flight: seq<IpPkt>)
    requires StuckWith(l, u, flight)
    ensures flight == [] ==> Stuck(l, u)
  {
    hide Shape, Live, Pending, Signals, Told, Blocked;
    if flight == [] {
      forall v: nat
        ensures Books(l, v)
      {
        assert BooksInFlight(l, v, flight);
      }
    }
  }

  // Wherever the block goes, the front stays blocked.
  lemma LandingStuck(l: Layer, block: HarqPkt, radio: Radio, u: nat)
    requires StuckWith(l, u, block.pkts) && AllGenuine(block.pkts, l.ho.store.seen)
    ensures var dropped := l.(ho := l.ho.DropBlock(block)); Stuck(dropped, u) && dropped.ho.verdicts == l.ho.verdicts
    ensures Stuck(l.(harq := l.harq.AddPkts(block, radio.ackDelay)), u)
    ensures var pushed := l.(ho := l.ho.Push(block, radio.jitter));
            Stuck(pushed, u) && pushed.ho.verdicts == l.ho.verdicts
  {
    hide Shape, Books, BooksInFlight, Handler.DropBlock, Handler.Push, Harq.AddPkts, AllGenuine;
    var dropped, queued := l.(ho := l.ho.DropBlock(block)), l.(harq := l.harq.AddPkts(block, radio.ackDelay));
    var pushed := l.(ho := l.ho.Push(block, radio.jitter));
    forall v: nat
      ensures Books(dropped, v) && Books(queued, v) && Books(pushed, v)
    {
      BlockLands(l, block, radio, v);
    }
    BlockLands(l, block, radio, 0);
    AllLater(l, u, block.pkts);
    DropKeepsBlocked(l.ho, block, u);
    PushKeepsBlocked(l.ho, block, radio.jitter, u);
  }

  lemma GrantStuck(l: Layer, grant: nat, u: nat)
    requires Stuck(l, u)
    ensures var (b, out) := l.buf.GetPkts(grant);
            StuckWith(l.(buf := b, nextId := l.nextId + 1), u, out) && AllGenuine(out, l.ho.store.seen)
  {
    hide Shape, Books, BooksInFlight, Buffer.GetPkts, AllGenuine;
    var (b, out) := l.buf.GetPkts(grant);
    var l1 := l.(buf := b, nextId := l.nextId + 1);
    forall v: nat
      ensures BooksInFlight(l1, v, out)
    {
      GrantTaken(l, grant, v);
    }
    GrantTaken(l, grant, 0);
  }

  lemma TurnStuck(l: Layer, bits: real, radio: Radio, u: nat)
    requires Stuck(l, u) && bits > 0.0 && l.buf.HasPkts()
    ensures Stuck(l.Turn(bits, radio).0, u) && l.Turn(bits, radio).0.ho.verdicts == l.ho.verdicts
  {
    hide Stuck, StuckWith, Buffer.GetPkts, Layer.CollectDropped, AllGenuine, Buffer.HasPkts, Handler.DropBlock,
         Handler.Push, Harq.AddPkts, Buffer.OldestTimestamp, Weigh;
    var (b, out) := l.buf.GetPkts(bits.Floor);
    GrantStuck(l, bits.Floor, u);
    var l1 := l.(buf := b, nextId := l.nextId + 1);
    CollectFlight(l1, u, out);
    CollectKeepsQueues(l1);
    var l2 := l1.CollectDropped();
    LandingStuck(l2, BlockOf(l.nextId, l.buf.OldestTimestamp(), l.now, l.bhD, l.bhVar, out), radio, u);
    EmptyFlight(l2, u, out);
  }

  lemma ServeNewStuck(l: Layer, bits: real, radio: Radio, u: nat)
    requires Stuck(l, u) && l.Halts(bits)
    ensures Stuck(l.ServeNew(bits, radio).0, u) && l.ServeNew(bits, radio).0.ho.verdicts == l.ho.verdicts
  {
    hide Stuck, Layer.Turn, Layer.ServeNew;
    var inv := (k: Layer) => Stuck(k, u) && k.ho.verdicts == l.ho.verdicts;
    forall k: Layer | inv(k) && bits > 0.0 && k.buf.HasPkts()
      ensures inv(k.Turn(bits, radio).0)
    {
      TurnStuck(k, bits, radio, u);
    }
    GrantInduction(l, bits, radio, inv);
  }

  lemma ServeAgainStuck(l: Layer, radio: Radio, u: nat)
    requires Stuck(l, u) && l.harq.buf != []
    ensures Stuck(l.ServeAgain(radio).0, u) && l.ServeAgain(radio).0.ho.verdicts == l.ho.verdicts
  {
    hide Shape, Books, Handler.DropBlock, Handler.Push, Harq.Queue, Later;
    var l' := l.ServeAgain(radio).0;
    forall v: nat
      ensures Books(l', v)
    {
      ServeAgainKeeps(l, radio, v);
    }
    ServeAgainKeeps(l, radio, 0);
    BlocksAreLater(l, u, 0);
    NothingInFlight(l, u);
    AllLater(l, u, []);
    DropKeepsBlocked(l.ho, l.harq.buf[0], u);
    PushKeepsBlocked(l.ho, l.harq.buf[0], radio.jitter, u);
  }

  // ----- a tick -----

  lemma CollectOneStuck(l: Layer, u: nat)
    requires Stuck(l, u) && l.buf.PopAqmDropped().1.Some?
    ensures Stuck(l.CollectOne(), u) && l.CollectOne().ho.verdicts == l.ho.verdicts
  {
    hide Stuck, StuckWith, Layer.CollectOne;
    NothingInFlight(l, u);
    CollectOneFlight(l, u, []);
    EmptyFlight(l.CollectOne(), u, []);
  }

  lemma StepStuck(l: Layer, t: real, u: nat)
    requires Stuck(l, u) && l.now <= t
    ensures Stuck(l.StepTo(t), u) && l.StepTo(t).ho.verdicts == l.ho.verdicts
  {
    hide Stuck, Layer.Tick, Layer.StepTo, Layer.DrainOne, Layer.CollectOne, Layer.DropOldest, Layer.DropExpiredBlock,
         Harq.PopOlderThan;
    var inv := (k: Layer) => Stuck(k, u) && k.ho.verdicts == l.ho.verdicts;
    TickStuck(l, t, u);
    forall k: Layer | inv(k)
      ensures k.ho.ingress != [] ==> inv(k.DrainOne())
      ensures k.buf.PopAqmDropped().1.Some? ==> inv(k.CollectOne())
      ensures LateHead(k) ==> inv(k.DropOldest())
      ensures LateBlock(k) ==> inv(k.DropExpiredBlock())
    {
      if k.ho.ingress != [] { DrainOneStuck(k, u); }
      if k.buf.PopAqmDropped().1.Some? { CollectOneStuck(k, u); }
      if LateHead(k) { DropOldestStuck(k, u); }
      if LateBlock(k) { DropBlockStuck(k, u); }
    }
    StepInduction(l, t, inv);
  }
}
