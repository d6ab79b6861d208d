// The delay budget of the FIFO: with a capture clock that does not run backwards, no queued packet
// is ever served late.
module FifoBudget {
  import opened Packets
  import opened IpBuffer
  import opened IpBufferLaws
  import opened DualPi2Laws
  import opened Capture
  import opened CapturedHandler
  import opened CapturedHandlerLaws
  import opened IdentityLaws
  import opened PdcpLayer
  import opened PdcpInduction
  import opened PdcpRuns
  import opened PdcpLaws
  import opened PdcpTheorems

  ghost predicate ClockAscends(clock: nat -> real) {
    forall i: nat, j: nat :: i <= j ==> clock(i) <= clock(j)
  }

  // Packets in order of arrival, none of them later than the clock readings still to come.
  ghost predicate InOrder(s: seq<IpPkt>, clock: nat -> real, ticks: nat) {
    && (forall i, j :: 0 <= i <= j < |s| ==> s[i].currentT <= s[j].currentT)
    && (forall i, k: nat :: 0 <= i < |s| && ticks <= k ==> s[i].currentT <= clock(k))
  }

  /** FIFO mode with packets in order of arrival; whatever reaches the line from ingress is whole. */
  ghost predicate Ascending(l: Layer) {
    && !l.buf.dual && ClockAscends(l.ho.clock) && InOrder(Line(l), l.ho.clock, l.ho.ticks)
    && (forall p :: p in l.ho.ingress ==> !p.isFragment)
  }

  // No queued packet is older than the delay budget.
  ghost predicate Fresh(l: Layer) {
    forall p :: p in l.buf.fifo ==> !l.IsExpired(p.currentT)
  }

  // ----- what moves the line -----

  lemma {:induction false} IngestAscends(h: Handler, s: seq<IpPkt>)
    requires ClockAscends(h.clock) && InOrder(s + h.ingress, h.clock, h.ticks)
    requires forall p :: p in h.ingress ==> !p.isFragment
    ensures var h' := h.Ingest();
            && h'.clock == h.clock && InOrder(s + h'.ingress, h'.clock, h'.ticks)
            && (forall p :: p in h'.ingress ==> !p.isFragment)
    decreases |h.store.captured|
  {
    if h.store.captured != [] {
      var h1 := h.(store := h.store.Pop().0).IngestOne(h.store.captured[0]);
      assert s + h1.ingress == (s + h.ingress) + [h1.ingress[|h.ingress|]];
      IngestAscends(h1, s);
    }
  }

  lemma DrainOneAscends(l: Layer)
    requires Ascending(l) && l.ho.ingress != []
    ensures Ascending(l.DrainOne()) && l.DrainOne().now == l.now && l.DrainOne().budget == l.budget
  {
    hide SortByUid;
    var p := l.ho.ingress[0];
    var s := Line(l);
    if l.buf.Fits(p) {
      assert Line(l.DrainOne()) == s;
    } else {
      assert forall i :: 0 <= i < |Line(l.DrainOne())| ==>
          Line(l.DrainOne())[i] == s[if i < |l.buf.fifo| then i else i + 1];
    }
  }

  lemma DrainAscends(l: Layer)
    requires Ascending(l)
    ensures Ascending(l.DrainIngress()) && l.DrainIngress().now == l.now && l.DrainIngress().budget == l.budget
  {
    hide Ascending, Layer.DrainOne, Layer.DrainIngress;
    var inv := (k: Layer) => Ascending(k) && k.now == l.now && k.budget == l.budget;
    forall k: Layer | inv(k) && k.ho.ingress != []
      ensures inv(k.DrainOne())
    {
      DrainOneAscends(k);
    }
    DrainInduction(l, inv);
  }

  lemma CollectIsIdle(l: Layer)
    requires !l.buf.dual
    ensures l.CollectDropped() == l
  {
  }

  // The front `n` packets handed to `drop`, one block each.
  function FrontDropped(l: Layer, n: nat): Layer
    requires !l.buf.dual && n <= |l.buf.fifo|
    decreases n
  {
    if n == 0 then l else FrontDropped(l.DropOldest(), n - 1)
  }

  ghost predicate LateDropped(l: Layer, r: Layer) {
    !l.buf.dual && exists n: nat :: n <= |l.buf.fifo| && r == FrontDropped(l, n) && r.buf.fifo == l.buf.fifo[n..]
  }

  // The cleanup stops at the first packet within budget; the ones behind it are no older.
  lemma {:induction false} CleanupIpFreshens(l: Layer)
    requires Ascending(l)
    ensures var r := l.CleanupIp();
            && Ascending(r) && Fresh(r) && r.now == l.now && r.budget == l.budget
            && LateDropped(l, r)
    decreases |l.buf.fifo| + |l.buf.q.lanes.l| + |l.buf.q.lanes.c|
  {
    hide Handler.DropBlock;
    if l.buf.HasPkts() && l.IsExpired(l.buf.OldestTimestamp()) {
      var l1 := l.DropOldest();
      DropKeepsHandler(l.ho, BlockOf(l.nextId, l.buf.OldestTimestamp(), l.now, l.bhD, l.bhVar, [l.buf.fifo[0]]));
      assert Line(l1) == Line(l)[1..];
      CleanupIpFreshens(l1);
      var n: nat :| n <= |l1.buf.fifo| && l1.CleanupIp() == FrontDropped(l1, n)
          && l1.CleanupIp().buf.fifo == l1.buf.fifo[n..];
      assert FrontDropped(l, n + 1) == FrontDropped(l1, n);
      assert l1.buf.fifo[n..] == l.buf.fifo[n + 1..];
    } else {
      assert FrontDropped(l, 0) == l && l.buf.fifo == l.buf.fifo[0..];
      forall p | p in l.buf.fifo
        ensures !l.IsExpired(p.currentT)
      {
        var i :| 0 <= i < |l.buf.fifo| && l.buf.fifo[i] == p;
        assert Line(l)[0].currentT <= Line(l)[i].currentT;
      }
    }
  }

  lemma CleanupHarqKeepsLine(l: Layer)
    ensures var r := l.CleanupHarq();
            r == l.(harq := r.harq, ho := r.ho) && r.ho == l.ho.(out := r.ho.out)
  {
    hide Layer.CleanupHarq;
    CleanupHarqInduction(l, (k: Layer) => k == l.(harq := k.harq, ho := k.ho) && k.ho == l.ho.(out := k.ho.out));
  }

  /** After a step no queued packet is over budget; the ones removed are the oldest, each handed to `drop`,
      and the survivors keep their order. */
  lemma StepFreshens(l: Layer, t: real)
    requires Ascending(l)
    ensures var r, drained := l.StepTo(t), l.Tick(t).DrainIngress();
            && Ascending(r) && Fresh(r)
            && LateDropped(drained, drained.CleanupIp()) && r.buf.fifo == drained.CleanupIp().buf.fifo
  {
    hide Layer.DrainIngress, Layer.CollectDropped, Layer.CleanupIp, Layer.CleanupHarq, Handler.Ingest;
    var l1 := l.Tick(t);
    IngestAscends(l.ho.(now := t), l.buf.fifo);
    DrainAscends(l1);
    CollectIsIdle(l1.DrainIngress());
    CleanupIpFreshens(l1.DrainIngress());
    CleanupHarqKeepsLine(l1.DrainIngress().CleanupIp());
  }

  // ----- grants -----

  lemma FrontLeaves(s: seq<IpPkt>, clock: nat -> real, ticks: nat, p: IpPkt)
    requires s != [] && InOrder(s, clock, ticks)
    ensures InOrder(s[1..], clock, ticks)
    ensures p.currentT == s[0].currentT ==> InOrder(s[0 := p], clock, ticks)
  {
  }

  // A grant takes packets off the front, and puts back at most what is left of the last one.
  lemma {:induction false} FillKeepsOrder(b: Buffer, bits: nat, tail: seq<IpPkt>, clock: nat -> real, ticks: nat,
      limit: real)
    requires !b.dual && InOrder(b.fifo + tail, clock, ticks)
    requires forall p :: p in b.fifo ==> p.size <= p.originalSize && p.currentT >= limit
    ensures var b' := b.Fill(bits).0;
            && !b'.dual && InOrder(b'.fifo + tail, clock, ticks)
            && (forall p :: p in b'.fifo ==> p.currentT >= limit)
    decreases bits
  {
    hide InOrder;
    if bits > 0 && b.HasPkts() {
      var p := b.fifo[0];
      var b1 := b.PopNext().0;
      assert b1.fifo + tail == (b.fifo + tail)[1..];
      if p.size <= bits {
        FrontLeaves(b.fifo + tail, clock, ticks, p);
        FillKeepsOrder(b1, bits - p.size, tail, clock, ticks, limit);
      } else {
        var r := Remainder(p, bits);
        FrontLeaves(b.fifo + tail, clock, ticks, r);
        assert ([r] + b.fifo[1..]) + tail == (b.fifo + tail)[0 := r];
      }
    }
  }

  // Nobody holds more of a packet than was captured of it.
  lemma SizesWithinCapture(l: Layer)
    requires Good(l)
    ensures forall p :: p in l.buf.fifo ==> p.size <= p.originalSize
  {
    hide BufferSound, LanesGenuine, BlocksGenuine, HandlerShape, HarqLaws.WithinTurns, Signals, WeighBlocks,
        WeighInfos, Told;
    forall p | p in l.buf.fifo
      ensures p.size <= p.originalSize
    {
      var i :| 0 <= i < |l.buf.fifo| && l.buf.fifo[i] == p;
      assert Genuine(p, l.ho.store.seen);
      WeighMember(BitsOf(p.uid), l.buf.fifo, i);
      assert Books(l, p.uid);
    }
  }

  /** The oldest timestamp a grant stamps its block with is within budget, so the loop's expiry branch is dead. */
  lemma GrantNeverExpires(l: Layer)
    requires Ascending(l) && Fresh(l) && l.buf.HasPkts()
    ensures !l.IsExpired(l.buf.OldestTimestamp())
  {
  }

  lemma TurnKeepsFresh(l: Layer, bits: real, radio: Radio)
    requires Good(l) && Ascending(l) && Fresh(l) && bits > 0.0 && l.buf.HasPkts()
    ensures var l' := l.Turn(bits, radio).0; Ascending(l') && Fresh(l')
  {
    hide InOrder, Good, Handler.DropBlock, Handler.Push, Buffer.Fill;
    SizesWithinCapture(l);
    FillKeepsOrder(l.buf, bits.Floor, l.ho.ingress, l.ho.clock, l.ho.ticks, l.now - l.budget);
    var (b, out) := l.buf.GetPkts(bits.Floor);
    CollectIsIdle(l.(buf := b, nextId := l.nextId + 1));
    var block := BlockOf(l.nextId, l.buf.OldestTimestamp(), l.now, l.bhD, l.bhVar, out);
    DropKeepsHandler(l.ho, block);
    PushKeepsHandler(l.ho, block, radio.jitter);
  }

  // With nothing late and a whole bit to give, the loop is left after its first turn.
  lemma OneTurnServes(l: Layer, bits: real, radio: Radio)
    requires Ascending(l) && Fresh(l) && l.Halts(bits)
    ensures l.ServeNew(bits, radio)
         == if bits <= 0.0 || !l.buf.HasPkts() then (l, 0)
            else var (l', outcome) := l.Turn(bits, radio); (l', if outcome.Done? then outcome.sent else 0)
    ensures bits > 0.0 && l.buf.HasPkts() ==> l.Turn(bits, radio).1.Done?
  {
    hide InOrder, Handler.DropBlock, Handler.Push;
    if bits > 0.0 && l.buf.HasPkts() {
      GrantNeverExpires(l);
    }
  }

  // ----- every run -----

  lemma {:induction false} ReleaseKeepsFresh(l: Layer)
    requires Ascending(l) && Fresh(l)
    ensures Ascending(l.Release()) && Fresh(l.Release())
    decreases |l.ho.out|
  {
    hide InOrder, Store.Verdict;
    if l.ho.FrontGoes() {
      ReleaseKeepsFresh(l.(ho := l.ho.ReleaseFront()));
    }
  }

  lemma InitialAscends(l: Layer)
    requires Initial(l) && !l.buf.dual && ClockAscends(l.ho.clock)
    ensures Ascending(l) && Fresh(l)
  {
  }

  lemma EventKeepsFresh(l: Layer, e: Event)
    requires Good(l) && Enabled(l, e) && Ascending(l) && Fresh(l)
    ensures Ascending(Apply(l, e)) && Fresh(Apply(l, e))
  {
    hide Good, InOrder, Layer.StepTo, Layer.Turn, Layer.ServeNew, Handler.Push, Handler.DropBlock, Layer.Release;
    match e
    case Step(t) => StepFreshens(l, t);
    case Grant(bits, radio) =>
      if !l.harq.IsPktReady() {
        OneTurnServes(l, bits, radio);
        if bits > 0.0 && l.buf.HasPkts() {
          TurnKeepsFresh(l, bits, radio);
        }
      } else {
        PushKeepsHandler(l.ho, l.harq.buf[0], radio.jitter);
        DropKeepsHandler(l.ho, l.harq.buf[0]);
      }
    case Release => ReleaseKeepsFresh(l);
    case _ =>
  }

  /** The delay budget over every run of FIFO mode, whatever overflows or fails: with a capture clock that does not
      run backwards no queued packet is ever over budget, so the grant loop's expiry branch is never taken and
      every grant of a whole bit is served in one turn. */
  lemma FifoNeverServesLate(l: Layer, es: seq<Event>, bits: real, radio: Radio)
    requires Initial(l) && CanRun(l, es) && !l.buf.dual && ClockAscends(l.ho.clock)
    ensures var r := Run(l, es);
            && (forall p :: p in r.buf.fifo ==> r.now - r.budget <= p.currentT)
            && (r.buf.HasPkts() ==> !r.IsExpired(r.buf.OldestTimestamp()))
            && (bits >= 1.0 && r.buf.HasPkts() ==> r.Turn(bits, radio).1.Done?)
  {
    hide Good, Run, ClockAscends, InOrder, Layer.Turn, Enabled, Apply, CanRun;
    InitialIsGood(l);
    InitialAscends(l);
    var inv := (k: Layer) => Good(k) && Ascending(k) && Fresh(k);
    forall k: Layer, e: Event | inv(k) && Enabled(k, e)
      ensures inv(Apply(k, e))
    {
      EventKeeps(k, e);
      EventKeepsFresh(k, e);
    }
    RunInduction(l, es, inv);
    var r := Run(l, es);
    if r.buf.HasPkts() {
      GrantNeverExpires(r);
      if bits >= 1.0 {
        OneTurnServes(r, bits, radio);
      }
    }
  }
}
