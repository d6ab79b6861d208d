// The buffer and the retransmissions over the simulated handler, one loop turn at a time and in any order: what they
// hand over is never more of a packet than was generated of it.
module SimPipeline {
  import opened Packets
  import opened DualPi2
  import opened DualPi2Laws
  import opened IpBuffer
  import opened IpBufferLaws
  import opened IdentityLaws
  import opened Harq
  import opened Simulated
  import opened SimulatedLaws
  import PdcpLayer

  /** The pipeline up to its handler. `flight` is the block of the grant being served; `sizes` (what was generated, by
      id), `refused` (whose packets found no room) and `ops` (what the handler was told to do) are history. */
  datatype Feed = Feed(
    buf: Buffer, harq: Harq, ingress: seq<IpPkt>, flight: Option<HarqPkt>, now: real, nextId: nat,
    budget: real, bhD: real, bhVar: real, sizes: seq<Bits>, refused: set<nat>, ops: seq<Op>)
  {
    function Hand(op: Op): Feed { this.(ops := ops + [op]) }

    function Apply(m: Move): Feed
      requires Enabled(m)
    {
      match m
      case Generate(pkts) =>
        this.(ingress := ingress + pkts, sizes := sizes + seq(|pkts|, k requires 0 <= k < |pkts| => pkts[k].size))
      case Admit =>
        var f := this.(ingress := ingress[1..]);
        if buf.Fits(ingress[0]) then f.(buf := buf.AddPkt(ingress[0])) else f.(refused := refused + {ingress[0].uid})
      case Collect =>
        var (b, victim) := buf.PopAqmDropped();
        this.(buf := b).Hand(Dropping(PdcpLayer.AqmBlock(victim.value, b.now)))
      case Expire =>
        var (b, p) := buf.PopOldest();
        var block := PdcpLayer.BlockOf(nextId, buf.OldestTimestamp(), now, bhD, bhVar, [p.value]);
        this.(buf := b, nextId := nextId + 1).Hand(Dropping(block))
      case ExpireBlock =>
        var (h, b) := harq.PopOlderThan(now - budget);
        this.(harq := h).Hand(Dropping(b.value))
      case Take(grant) =>
        var (b, out) := buf.GetPkts(grant);
        this.(buf := b, nextId := nextId + 1,
              flight := Some(PdcpLayer.BlockOf(nextId, buf.OldestTimestamp(), now, bhD, bhVar, out)))
      case Land(landing) =>
        var f := this.(flight := None);
        if flight.value.pkts == [] then f else f.Landed(flight.value, landing)
      case Again(landing) =>
        var (h, b) := harq.GetPkt();
        this.(harq := h).Landed(if landing.Kept? then b.(nTx := b.nTx + 1) else b, landing)
      case Tell => Hand(Releasing)
      case Tick(t) => this.(now := t, buf := buf.StepTo(t), harq := harq.(now := t)).Hand(Ticking(t))
    }

    function Landed(b: HarqPkt, landing: Landing): Feed {
      match landing
      case Delivered(jitter) => Hand(Delivering(b, jitter))
      case GivenUp => Hand(Dropping(b))
      case Kept(ackDelay) => this.(harq := harq.AddPkts(b, ackDelay))
    }

    ghost predicate Enabled(m: Move) {
      match m
      case Generate(pkts) => Numbered(pkts, |sizes|, now)
      case Admit => ingress != []
      case Collect => buf.PopAqmDropped().1.Some?
      case Expire => buf.HasPkts()
      case ExpireBlock => harq.PopOlderThan(now - budget).1.Some?
      case Take(_) => flight.None? && buf.HasPkts()
      case Land(_) => flight.Some?
      case Again(_) => harq.buf != []
      case Tell => true
      case Tick(t) => now <= t
    }
  }

  // Where a block goes: delivered, given up, or kept for a retransmission.
  datatype Landing = Delivered(jitter: real) | GivenUp | Kept(ackDelay: real)

  // One turn of one of the pipeline's loops.
  datatype Move =
    | Generate(pkts: seq<IpPkt>) | Admit | Collect | Expire | ExpireBlock
    | Take(grant: nat) | Land(landing: Landing) | Again(landing: Landing) | Tell | Tick(t: real)

  ghost predicate CanGo(f: Feed, ms: seq<Move>)
    decreases |ms|
  {
    ms == [] || (f.Enabled(ms[0]) && CanGo(f.Apply(ms[0]), ms[1..]))
  }

  ghost function Go(f: Feed, ms: seq<Move>): Feed
    requires CanGo(f, ms)
    decreases |ms|
  {
    if ms == [] then f else Go(f.Apply(ms[0]), ms[1..])
  }

  ghost predicate Initial(f: Feed) {
    && f.buf == EmptyBuffer(f.buf.dual, f.buf.maxSize, f.buf.q.cfg, f.buf.q.unitDist)
    && f.harq == Harq([], -1.0, 0.0, []) && f.ingress == [] && f.flight == None && f.now == 0.0
    && f.sizes == [] && f.refused == {} && f.ops == []
  }

  // ----- the books of one packet -----

  function SizeOf(sizes: seq<Bits>, u: nat): nat { if u < |sizes| then sizes[u] else 0 }

  function InFlight(f: Feed): seq<IpPkt> { if f.flight.Some? then f.flight.value.pkts else [] }

  // Everything of a packet that is held or was handed over.
  function Account(f: Feed, u: nat): nat {
    Weigh(BitsOf(u), f.ingress) + Held(BitsOf(u), f.buf) + Weigh(BitsOf(u), InFlight(f))
    + WeighBlocks(BitsOf(u), f.harq.buf) + Given(f.ops, u)
  }

  // A piece of a packet that was generated.
  predicate Origin(p: IpPkt, sizes: seq<Bits>) {
    p.uid < |sizes| && p.originalSize == sizes[p.uid] && p.EcnConsistent()
  }

  function FromSizes(sizes: seq<Bits>): IpPkt -> bool { p => Origin(p, sizes) }

  ghost predicate BlocksFrom(s: seq<HarqPkt>, sizes: seq<Bits>) {
    forall i :: 0 <= i < |s| ==> Every(s[i].pkts, FromSizes(sizes))
  }

  ghost predicate OpsFrom(ops: seq<Op>, sizes: seq<Bits>) {
    forall i :: 0 <= i < |ops| ==> Every(BlockOf(ops[i]), FromSizes(sizes))
  }

  ghost predicate Traced(f: Feed) {
    && BufferSound(f.buf) && f.buf.q.now <= f.now
    && Every(f.ingress, FromSizes(f.sizes)) && BufferHolds(f.buf, FromSizes(f.sizes))
    && Every(InFlight(f), FromSizes(f.sizes)) && BlocksFrom(f.harq.buf, f.sizes) && OpsFrom(f.ops, f.sizes)
    && Unshortened(f.ingress) && (forall u :: u in f.refused ==> u < |f.sizes|)
  }

  /** All the bits generated of a packet are held or were handed over, and none of one that was refused. */
  ghost predicate Fed(f: Feed, u: nat) {
    Traced(f) && Account(f, u) == if u in f.refused then 0 else SizeOf(f.sizes, u)
  }

  lemma OriginLasts(sizes: seq<Bits>)
    ensures Lasting(FromSizes(sizes))
  {
  }

  lemma MoreSizes(s: seq<IpPkt>, sizes: seq<Bits>, more: seq<Bits>)
    requires Every(s, FromSizes(sizes))
    ensures Every(s, FromSizes(sizes + more))
  {
  }

  lemma {:induction false} GivenSnoc(ops: seq<Op>, op: Op, u: nat)
    ensures Given(ops + [op], u) == Given(ops, u) + Weigh(BitsOf(u), BlockOf(op))
    decreases |ops|
  {
    hide Weigh;
    if ops == [] {
      assert [] + [op] == [op] && [op][1..] == [];
    } else {
      GivenSnoc(ops[1..], op, u);
      assert (ops + [op])[0] == ops[0] && (ops + [op])[1..] == ops[1..] + [op];
    }
  }

  // Handing something over puts its bits on the account of what was handed over.
  lemma Handed(f: Feed, op: Op, u: nat)
    requires Traced(f) && Every(BlockOf(op), FromSizes(f.sizes))
    ensures Traced(f.Hand(op)) && Account(f.Hand(op), u) == Account(f, u) + Weigh(BitsOf(u), BlockOf(op))
  {
    hide BufferSound, BufferHolds, Every, Weigh, WeighBlocks, Held;
    GivenSnoc(f.ops, op, u);
    var ops := f.ops + [op];
    assert ops[|f.ops|] == op && forall i :: 0 <= i < |f.ops| ==> ops[i] == f.ops[i];
  }

  // ----- one turn at a time -----

  lemma {:induction false} NewSizes(pkts: seq<IpPkt>, first: nat, t: real, u: nat)
    requires Numbered(pkts, first, t)
    ensures Weigh(BitsOf(u), pkts) == if first <= u < first + |pkts| then pkts[u - first].size else 0
  {
    if pkts != [] {
      assert forall k :: 0 <= k < |pkts[1..]| ==> pkts[1..][k] == pkts[k + 1];
      NewSizes(pkts[1..], first + 1, t, u);
    }
  }

  // Packets generated before stay pieces of what was generated.
  lemma StillTraced(f: Feed, more: seq<Bits>)
    requires Traced(f)
    ensures Traced(f.(sizes := f.sizes + more))
  {
    hide BufferSound, Every, FromSizes;
    MoreSizes(f.ingress, f.sizes, more);
    MoreSizes(InFlight(f), f.sizes, more);
    MoreSizes(f.buf.fifo, f.sizes, more);
    MoreSizes(f.buf.q.lanes.l, f.sizes, more);
    MoreSizes(f.buf.q.lanes.c, f.sizes, more);
    MoreSizes(f.buf.q.lanes.dropped, f.sizes, more);
    forall i | 0 <= i < |f.harq.buf|
      ensures Every(f.harq.buf[i].pkts, FromSizes(f.sizes + more))
    {
      MoreSizes(f.harq.buf[i].pkts, f.sizes, more);
    }
    forall i | 0 <= i < |f.ops|
      ensures Every(BlockOf(f.ops[i]), FromSizes(f.sizes + more))
    {
      MoreSizes(BlockOf(f.ops[i]), f.sizes, more);
    }
  }

  lemma NewOrigins(s: seq<IpPkt>, pkts: seq<IpPkt>, sizes: seq<Bits>, t: real)
    requires Numbered(pkts, |sizes|, t)
    requires var more := seq(|pkts|, k requires 0 <= k < |pkts| => pkts[k].size); Every(s, FromSizes(sizes + more))
    ensures var more := seq(|pkts|, k requires 0 <= k < |pkts| => pkts[k].size);
            Every(s + pkts, FromSizes(sizes + more)) && (Unshortened(s) ==> Unshortened(s + pkts))
  {
    var more := seq(|pkts|, k requires 0 <= k < |pkts| => pkts[k].size);
    forall k | 0 <= k < |pkts|
      ensures Origin(pkts[k], sizes + more)
    {
      assert (sizes + more)[|sizes| + k] == more[k];
    }
  }

  lemma SizesGrow(sizes: seq<Bits>, pkts: seq<IpPkt>, t: real, u: nat)
    requires Numbered(pkts, |sizes|, t)
    ensures var more := seq(|pkts|, k requires 0 <= k < |pkts| => pkts[k].size);
            && SizeOf(sizes + more, u) == SizeOf(sizes, u) + Weigh(BitsOf(u), pkts)
            && (u < |sizes| ==> Weigh(BitsOf(u), pkts) == 0)
  {
    NewSizes(pkts, |sizes|, t, u);
    hide Weigh, Numbered;
  }

  lemma GenerateFeeds(f: Feed, pkts: seq<IpPkt>, u: nat)
    requires Fed(f, u) && f.Enabled(Generate(pkts))
    ensures Fed(f.Apply(Generate(pkts)), u)
  {
    hide BufferSound, BufferHolds, BlocksFrom, OpsFrom, Weigh, WeighBlocks, Held, Given, Every, FromSizes, Numbered,
         SizeOf;
    StillTraced(f, seq(|pkts|, k requires 0 <= k < |pkts| => pkts[k].size));
    SizesGrow(f.sizes, pkts, f.now, u);
    NewOrigins(f.ingress, pkts, f.sizes, f.now);
    WeighAppend(BitsOf(u), f.ingress, pkts);
  }

  lemma AdmitFeeds(f: Feed, u: nat)
    requires Fed(f, u) && f.Enabled(Admit)
    ensures Fed(f.Apply(Admit), u)
  {
    hide Traced, Account, SizeOf, Buffer.Fits, Buffer.AddPkt, Weigh, FromSizes, Every;
    var p := f.ingress[0];
    FirstOut(f, u);
    if f.buf.Fits(p) {
      BufferGains(f.(ingress := f.ingress[1..]), p, u);
    }
  }

  // The first ingress packet, whole, and what the books are without it.
  lemma FirstOut(f: Feed, u: nat)
    requires Traced(f) && f.ingress != []
    ensures var p, f' := f.ingress[0], f.(ingress := f.ingress[1..]);
            && Traced(f') && Origin(p, f.sizes) && p.size == p.originalSize && p.uid < |f.sizes|
            && Account(f', u) + Measure(BitsOf(u), p) == Account(f, u)
            && Traced(f'.(refused := f.refused + {p.uid}))
            && Account(f'.(refused := f.refused + {p.uid}), u) == Account(f', u)
            && Measure(BitsOf(u), p) == if u == p.uid then SizeOf(f.sizes, u) else 0
  {
    hide BufferSound, BufferHolds, WeighBlocks, Given, BlocksFrom, OpsFrom, Held;
    assert Origin(f.ingress[0], f.sizes);
    assert forall i :: 0 <= i < |f.ingress[1..]| ==> f.ingress[1..][i] == f.ingress[i + 1];
  }

  lemma BufferGains(f: Feed, p: IpPkt, u: nat)
    requires Traced(f) && Origin(p, f.sizes) && f.buf.Fits(p)
    ensures var f' := f.(buf := f.buf.AddPkt(p));
            Traced(f') && Account(f', u) == Account(f, u) + Measure(BitsOf(u), p)
  {
    hide BufferSound, BufferHolds, WeighBlocks, Given, Buffer.AddPkt, Buffer.Fits, BlocksFrom, OpsFrom, Held, Every,
         Unshortened;
    OtherOperationsHold(f.buf, p, FromSizes(f.sizes));
    AddPktHeld(f.buf, p, BitsOf(u));
  }

  lemma AddPktHeld(b: Buffer, p: IpPkt, g: Gauge)
    requires BufferSound(b) && p.EcnConsistent() && b.Fits(p)
    ensures var b' := b.AddPkt(p); BufferSound(b') && Held(g, b') == Held(g, b) + Measure(g, p) && b'.q.now == b.q.now
  {
    hide BufferSound, Buffer.AddPkt;
    AddPktKeeps(b, p, g);
  }

  lemma CollectFeeds(f: Feed, u: nat)
    requires Fed(f, u) && f.Enabled(Collect)
    ensures Fed(f.Apply(Collect), u)
  {
    hide BufferSound, BufferHolds, WeighBlocks, Given, Buffer.PopAqmDropped, BlocksFrom, OpsFrom, Origin;
    PopAqmDroppedKeeps(f.buf, BitsOf(u));
    var (b, victim) := f.buf.PopAqmDropped();
    OtherOperationsHold(f.buf, victim.value, FromSizes(f.sizes));
    Handed(f.(buf := b), Dropping(PdcpLayer.AqmBlock(victim.value, b.now)), u);
    WeighOne(BitsOf(u), victim.value);
  }

  lemma WeighOne(g: Gauge, p: IpPkt)
    ensures Weigh(g, [p]) == Measure(g, p)
  {
    assert [p][1..] == [];
  }

  lemma ExpireFeeds(f: Feed, u: nat)
    requires Fed(f, u) && f.Enabled(Expire)
    ensures Fed(f.Apply(Expire), u)
  {
    hide BufferSound, BufferHolds, WeighBlocks, Given, Buffer.PopOldest, Buffer.OldestTimestamp, BlocksFrom, OpsFrom,
         Origin;
    IpBufferLaws.PopOldestKeeps(f.buf, BitsOf(u));
    var (b, p) := f.buf.PopOldest();
    OtherOperationsHold(f.buf, p.value, FromSizes(f.sizes));
    var block := PdcpLayer.BlockOf(f.nextId, f.buf.OldestTimestamp(), f.now, f.bhD, f.bhVar, [p.value]);
    Handed(f.(buf := b, nextId := f.nextId + 1), Dropping(block), u);
    WeighOne(BitsOf(u), p.value);
  }

  // Taking one block out of the retransmission buffer.
  lemma BlockOut(s: seq<HarqPkt>, i: nat, u: nat, sizes: seq<Bits>)
    requires i < |s| && BlocksFrom(s, sizes)
    ensures WeighBlocks(BitsOf(u), s[..i] + s[i + 1..]) + Weigh(BitsOf(u), s[i].pkts) == WeighBlocks(BitsOf(u), s)
    ensures BlocksFrom(s[..i] + s[i + 1..], sizes) && Every(s[i].pkts, FromSizes(sizes))
  {
    BlocksWithout(BitsOf(u), s, i);
    hide Every, FromSizes, Weigh, WeighBlocks;
    var rest := s[..i] + s[i + 1..];
    assert forall j :: 0 <= j < |rest| ==> rest[j] == s[if j < i then j else j + 1];
  }

  lemma ExpireBlockFeeds(f: Feed, u: nat)
    requires Fed(f, u) && f.Enabled(ExpireBlock)
    ensures Fed(f.Apply(ExpireBlock), u)
  {
    hide BufferSound, BufferHolds, WeighBlocks, Weigh, Held, Given, BlocksFrom, OpsFrom, Every;
    BlockOut(f.harq.buf, FirstOlder(f.harq.buf, f.now - f.budget), u, f.sizes);
    var (h, b) := f.harq.PopOlderThan(f.now - f.budget);
    Handed(f.(harq := h), Dropping(b.value), u);
  }

  lemma TakeFeeds(f: Feed, grant: nat, u: nat)
    requires Fed(f, u) && f.Enabled(Take(grant))
    ensures Fed(f.Apply(Take(grant)), u)
  {
    hide BufferSound, BufferHolds, WeighBlocks, Weigh, Given, BlocksFrom, OpsFrom, Every, Buffer.Fill, Held, Lasting,
         Buffer.OldestTimestamp;
    GetPktsKeeps(f.buf, grant, BitsOf(u));
    OriginLasts(f.sizes);
    FillHolds(f.buf, grant, FromSizes(f.sizes));
    SizeIsNoMatter(f.buf.Fill(grant).0, f.buf.GetPkts(grant).0.curSize, FromSizes(f.sizes));
    NothingWeighs(u);
  }

  // Wherever a block lands, its bits are there.
  lemma LandedFeeds(f: Feed, b: HarqPkt, landing: Landing, u: nat)
    requires Traced(f) && Every(b.pkts, FromSizes(f.sizes))
    requires Account(f, u) + Weigh(BitsOf(u), b.pkts) == if u in f.refused then 0 else SizeOf(f.sizes, u)
    ensures Fed(f.Landed(b, landing), u)
  {
    hide BufferSound, BufferHolds, WeighBlocks, Weigh, Held, Given, OpsFrom, Every;
    match landing
    case Delivered(jitter) => Handed(f, Delivering(b, jitter), u);
    case GivenUp => Handed(f, Dropping(b), u);
    case Kept(ackDelay) =>
      BlocksSnoc(BitsOf(u), f.harq.buf, Delayed(b, ackDelay));
      var blocks := f.harq.buf + [Delayed(b, ackDelay)];
      assert forall i :: 0 <= i < |f.harq.buf| ==> blocks[i] == f.harq.buf[i];
      assert blocks[|f.harq.buf|] == Delayed(b, ackDelay);
  }

  lemma LandFeeds(f: Feed, landing: Landing, u: nat)
    requires Fed(f, u) && f.Enabled(Land(landing))
    ensures Fed(f.Apply(Land(landing)), u)
  {
    hide Traced, Account, SizeOf, WeighBlocks, Weigh, Every, Feed.Landed;
    NoneInFlight(f, u);
    NothingWeighs(u);
    if f.flight.value.pkts != [] {
      LandedFeeds(f.(flight := None), f.flight.value, landing, u);
    }
  }

  // With the block of the grant in nobody's hands.
  lemma NoneInFlight(f: Feed, u: nat)
    requires Fed(f, u) && f.flight.Some?
    ensures var f', pkts := f.(flight := None), f.flight.value.pkts;
            && Traced(f') && Every(pkts, FromSizes(f.sizes))
            && Account(f', u) + Weigh(BitsOf(u), pkts) == if u in f.refused then 0 else SizeOf(f.sizes, u)
  {
    hide BufferSound, BufferHolds, WeighBlocks, Weigh, Held, Given, OpsFrom, BlocksFrom, FromSizes;
    NothingWeighs(u);
  }

  lemma AgainFeeds(f: Feed, landing: Landing, u: nat)
    requires Fed(f, u) && f.Enabled(Again(landing))
    ensures Fed(f.Apply(Again(landing)), u)
  {
    hide BufferSound, BufferHolds, WeighBlocks, Weigh, Held, Given, OpsFrom, BlocksFrom, Every, Feed.Landed;
    var (h, b) := f.harq.GetPkt();
    BlockOut(f.harq.buf, 0, u, f.sizes);
    assert f.harq.buf[..0] + f.harq.buf[1..] == h.buf;
    LandedFeeds(f.(harq := h), if landing.Kept? then b.(nTx := b.nTx + 1) else b, landing, u);
  }

  lemma TickFeeds(f: Feed, t: real, u: nat)
    requires Fed(f, u) && f.Enabled(Tick(t))
    ensures Fed(f.Apply(Tick(t)), u)
  {
    hide BufferSound, WeighBlocks, Weigh, Given, OpsFrom, BlocksFrom, Every, Buffer.StepTo;
    IpBufferLaws.StepToKeeps(f.buf, t);
    var f1 := f.(now := t, buf := f.buf.StepTo(t), harq := f.harq.(now := t));
    NoneOfNothing(f.sizes);
    Handed(f1, Ticking(t), u);
    NothingWeighs(u);
  }

  lemma NoneOfNothing(sizes: seq<Bits>)
    ensures Every([], FromSizes(sizes))
  {
  }

  lemma TellFeeds(f: Feed, u: nat)
    requires Fed(f, u) && f.Enabled(Tell)
    ensures Fed(f.Apply(Tell), u)
  {
    hide Traced, Weigh, Account, Every;
    NoneOfNothing(f.sizes);
    NothingWeighs(u);
    Handed(f, Releasing, u);
  }

  lemma MoveFeeds(f: Feed, m: Move, u: nat)
    requires Fed(f, u) && f.Enabled(m)
    ensures Fed(f.Apply(m), u)
  {
    hide Fed, Feed.Apply, Numbered;
    match m
    case Generate(pkts) => GenerateFeeds(f, pkts, u);
    case Admit => AdmitFeeds(f, u);
    case Collect => CollectFeeds(f, u);
    case Expire => ExpireFeeds(f, u);
    case ExpireBlock => ExpireBlockFeeds(f, u);
    case Take(grant) => TakeFeeds(f, grant, u);
    case Land(landing) => LandFeeds(f, landing, u);
    case Again(landing) => AgainFeeds(f, landing, u);
    case Tell => TellFeeds(f, u);
    case Tick(t) => TickFeeds(f, t, u);
  }

  lemma {:induction false} GoFeeds(f: Feed, ms: seq<Move>, u: nat)
    requires Fed(f, u) && CanGo(f, ms)
    ensures Fed(Go(f, ms), u)
    decreases |ms|
  {
    hide Fed, Feed.Apply, Feed.Enabled;
    if ms != [] {
      MoveFeeds(f, ms[0], u);
      GoFeeds(f.Apply(ms[0]), ms[1..], u);
    }
  }

  lemma InitialFeeds(f: Feed, u: nat)
    requires Initial(f)
    ensures Fed(f, u)
  {
    hide AqmStats.Plus;
    NothingPlus(NO_STATS);
  }

  // ----- every run -----

  function Sizing(sizes: seq<Bits>): nat -> Bits { (u: nat) => if u < |sizes| then sizes[u] else 1 }

  lemma TracedOpsAreSized(f: Feed)
    requires Traced(f)
    ensures WellFormed(f.ops, Sizing(f.sizes))
  {
    hide BufferSound, BufferHolds, BlocksFrom, IpPkt.EcnConsistent;
    forall i | 0 <= i < |f.ops|
      ensures Sized(BlockOf(f.ops[i]), Sizing(f.sizes))
    {
      assert Every(BlockOf(f.ops[i]), FromSizes(f.sizes));
    }
  }

  /** Over every run of the pipeline with simulated traffic, in either mode, with any turns in any order: the handler
      is never given more of a packet than was generated, the packet is pending exactly while part of it is told, and
      it gets one verdict exactly when all of it is told: a drop if any of it was dropped, else CE if any was marked. */
  lemma SimulatedPacketsGetOneVerdict(f: Feed, ms: seq<Move>, u: nat)
    requires Initial(f) && CanGo(f, ms) && u < |Go(f, ms).sizes|
    ensures var r := Go(f, ms); var h := SimulatedLaws.Run(FRESH, r.ops);
            var told := SimulatedLaws.Bits(h.fates, u);
            && told + WeighBlocks(BitsOf(u), h.list) == Given(r.ops, u) <= r.sizes[u]
            && (u in h.pending <==> 0 < told < r.sizes[u])
            && KindsFor(h.verdicts, u)
               == if told == r.sizes[u] then [Deserved(AnyDropped(h.fates, u), AnyMarked(h.fates, u))] else []
  {
    hide Fed, CanGo, Go, Initial, SimulatedLaws.Run, AnyDropped, AnyMarked, SimulatedLaws.Bits, KindsFor, WellFormed;
    InitialFeeds(f, u);
    GoFeeds(f, ms, u);
    var r := Go(f, ms);
    FedIsEnough(r, u);
    OneVerdictWhenAllIsTold(r.ops, Sizing(r.sizes), u);
  }

  lemma FedIsEnough(f: Feed, u: nat)
    requires Fed(f, u)
    ensures Given(f.ops, u) <= SizeOf(f.sizes, u) && WellFormed(f.ops, Sizing(f.sizes))
  {
    TracedOpsAreSized(f);
  }

  /** Nothing is held any more, in the pipeline or by the handler. */
  ghost predicate Emptied(f: Feed) {
    && f.ingress == [] && f.buf.curSize == 0 && InFlight(f) == [] && f.harq.buf == []
    && SimulatedLaws.Run(FRESH, f.ops).list == []
  }

  lemma {:induction false} NoMoreThanAll(s: seq<IpPkt>, u: nat)
    ensures Weigh(BitsOf(u), s) <= Weigh(AllBits, s)
  {
    if s != [] {
      NoMoreThanAll(s[1..], u);
    }
  }

  lemma NothingHeld(b: Buffer, u: nat)
    requires BufferSound(b) && b.curSize == 0
    ensures Held(BitsOf(u), b) == 0
  {
    hide Sound, Weigh;
    NoMoreThanAll(b.fifo, u);
    NoMoreThanAll(b.q.lanes.l, u);
    NoMoreThanAll(b.q.lanes.c, u);
    NoMoreThanAll(b.q.lanes.dropped, u);
  }

  /** Which packets get a verdict: once a run has emptied the pipeline, a generated packet has exactly one, the one its
      pieces deserve whatever their order, if and only if it was not refused for want of room. */
  lemma AdmittedPacketsAreTold(f: Feed, ms: seq<Move>, u: nat)
    requires Initial(f) && CanGo(f, ms) && u < |Go(f, ms).sizes| && Emptied(Go(f, ms))
    ensures var r := Go(f, ms);
            KindsFor(SimulatedLaws.Run(FRESH, r.ops).verdicts, u)
            == if u in r.refused then [] else [Deserved(Drops(r.ops, u), MarkedOps(r.ops, u))]
  {
    hide Fed, CanGo, Go, Initial, SimulatedLaws.Run, AnyDropped, AnyMarked, SimulatedLaws.Bits, Drops, MarkedOps,
         Emptied, KindsFor, WellFormed;
    InitialFeeds(f, u);
    GoFeeds(f, ms, u);
    var r := Go(f, ms);
    FedIsEnough(r, u);
    EmptiedIsHandedOver(r, u);
    if u in r.refused {
      OneVerdictWhenAllIsTold(r.ops, Sizing(r.sizes), u);
    } else {
      VerdictIgnoresOrder(r.ops, Sizing(r.sizes), u);
    }
  }

  lemma EmptiedIsHandedOver(f: Feed, u: nat)
    requires Fed(f, u) && Emptied(f)
    ensures Given(f.ops, u) == if u in f.refused then 0 else SizeOf(f.sizes, u)
    ensures SimulatedLaws.Run(FRESH, f.ops).list == []
  {
    NothingHeld(f.buf, u);
    hide Traced, SimulatedLaws.Run, Held;
  }
}
