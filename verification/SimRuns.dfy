// The ticks, grants and releases of the pipeline over the simulated handler, in the source's order, are lists of the
// single turns that SimPipeline runs in any order.
module SimRuns {
  import opened Packets
  import opened IpBuffer
  import opened IpBufferLaws
  import opened Harq
  import opened Simulated
  import opened SimPipeline
  import PdcpLayer

  // ----- the loops -----

  function DrainIngress(f: Feed): Feed
    decreases |f.ingress|
  {
    if f.ingress == [] then f else DrainIngress(f.Apply(Admit))
  }

  function CollectDropped(f: Feed): Feed
    decreases |f.buf.q.lanes.dropped|
  {
    if f.buf.PopAqmDropped().1.None? then f else CollectDropped(f.Apply(Collect))
  }

  predicate LateHead(f: Feed) { f.buf.HasPkts() && f.buf.OldestTimestamp() < f.now - f.budget }

  function CleanupIp(f: Feed): Feed
    decreases |f.buf.fifo| + |f.buf.q.lanes.l| + |f.buf.q.lanes.c|
  {
    if LateHead(f) then CleanupIp(f.Apply(Expire)) else f
  }

  function CleanupHarq(f: Feed): Feed
    decreases |f.harq.buf|
  {
    if f.harq.PopOlderThan(f.now - f.budget).1.None? then f else CleanupHarq(f.Apply(ExpireBlock))
  }

  ghost predicate CanStep(f: Feed, t: real, pkts: seq<IpPkt>) {
    f.now <= t && Numbered(pkts, |f.sizes|, t)
  }

  // A tick that generates these packets.
  function StepTo(f: Feed, t: real, pkts: seq<IpPkt>): Feed
    requires CanStep(f, t, pkts)
  {
    CleanupHarq(CleanupIp(CollectDropped(DrainIngress(f.Apply(Tick(t)).Apply(Generate(pkts))))))
  }

  // What becomes of a block taken for a grant, and of one taken for a retransmission.
  function FateOf(f: Feed, b: HarqPkt, radio: PdcpLayer.Radio): Landing {
    if b.ipT < f.now - f.budget then GivenUp
    else if radio.fails then Kept(radio.ackDelay)
    else Delivered(radio.jitter)
  }

  function FateAgain(b: HarqPkt, radio: PdcpLayer.Radio): Landing {
    if !radio.fails then Delivered(radio.jitter)
    else if b.nTx < PdcpLayer.MAX_RTX then Kept(radio.ackDelay)
    else GivenUp
  }

  // One turn of the grant loop, and whether it goes round again.
  function Turn(f: Feed, bits: real, radio: PdcpLayer.Radio): (Feed, bool)
    requires bits > 0.0 && f.buf.HasPkts() && f.flight.None?
  {
    CollectKeepsFlight(f.Apply(Take(bits.Floor)));
    var g := CollectDropped(f.Apply(Take(bits.Floor)));
    var b := g.flight.value;
    (g.Apply(Land(FateOf(g, b, radio))), b.pkts == [] || FateOf(g, b, radio) == GivenUp)
  }

  lemma {:induction false} CollectKeepsFlight(f: Feed)
    ensures var g := CollectDropped(f);
            && g.flight == f.flight && g.buf.dual == f.buf.dual && g.buf.fifo == f.buf.fifo
            && g.buf.q.lanes.l == f.buf.q.lanes.l && g.buf.q.lanes.c == f.buf.q.lanes.c
    decreases |f.buf.q.lanes.dropped|
  {
    if f.buf.PopAqmDropped().1.Some? {
      CollectKeepsFlight(f.Apply(Collect));
    }
  }

  lemma TurnShrinks(f: Feed, bits: real, radio: PdcpLayer.Radio)
    requires bits >= 1.0 && f.buf.HasPkts() && f.flight.None?
    ensures var g := Turn(f, bits, radio).0;
            g.flight.None? && Waiting(AllBits, g.buf) < Waiting(AllBits, f.buf)
  {
    hide Buffer.GetPkts, CollectDropped, Weigh, Buffer.HasPkts, Buffer.OldestTimestamp, FateOf;
    GetPktsShrinks(f.buf, bits.Floor);
    CollectKeepsFlight(f.Apply(Take(bits.Floor)));
  }

  predicate Halts(f: Feed, bits: real) {
    !f.buf.HasPkts() || bits <= 0.0 || bits >= 1.0
  }

  function ServeNew(f: Feed, bits: real, radio: PdcpLayer.Radio): Feed
    requires Halts(f, bits) && f.flight.None?
    decreases Waiting(AllBits, f.buf)
  {
    if bits <= 0.0 || !f.buf.HasPkts() then f
    else
      TurnShrinks(f, bits, radio);
      var (g, again) := Turn(f, bits, radio);
      if again then ServeNew(g, bits, radio) else g
  }

  function HandlePkt(f: Feed, bits: real, radio: PdcpLayer.Radio): Feed
    requires f.flight.None? && (f.harq.IsPktReady() || Halts(f, bits))
  {
    if f.harq.IsPktReady() then f.Apply(Again(FateAgain(f.harq.buf[0], radio))) else ServeNew(f, bits, radio)
  }

  // ----- each is a list of turns -----

  lemma GoOne(f: Feed, m: Move, ms: seq<Move>)
    requires f.Enabled(m) && CanGo(f.Apply(m), ms)
    ensures CanGo(f, [m] + ms) && Go(f, [m] + ms) == Go(f.Apply(m), ms)
  {
    hide Feed.Enabled, Feed.Apply;
    assert ([m] + ms)[1..] == ms;
  }

  lemma {:induction false} GoOn(f: Feed, a: seq<Move>, b: seq<Move>)
    requires CanGo(f, a) && CanGo(Go(f, a), b)
    ensures CanGo(f, a + b) && Go(f, a + b) == Go(Go(f, a), b)
    decreases |a|
  {
    hide Feed.Enabled, Feed.Apply;
    if a == [] {
      assert a + b == b;
    } else {
      GoOn(f.Apply(a[0]), a[1..], b);
      assert (a + b)[0] == a[0] && (a + b)[1..] == a[1..] + b;
    }
  }

  // `ms` leads from `f` to `g`.
  ghost predicate Leads(f: Feed, ms: seq<Move>, g: Feed) { CanGo(f, ms) && Go(f, ms) == g }

  lemma LeadsNowhere(f: Feed)
    ensures Leads(f, [], f)
  {
  }

  lemma LeadsByOne(f: Feed, m: Move, ms: seq<Move>, g: Feed)
    requires f.Enabled(m) && Leads(f.Apply(m), ms, g)
    ensures Leads(f, [m] + ms, g)
  {
    GoOne(f, m, ms);
  }

  lemma LeadsOn(f: Feed, a: seq<Move>, g: Feed, b: seq<Move>, h: Feed)
    requires Leads(f, a, g) && Leads(g, b, h)
    ensures Leads(f, a + b, h)
  {
    GoOn(f, a, b);
  }

  lemma {:induction false} DrainIsTurns(f: Feed) returns (ms: seq<Move>)
    ensures Leads(f, ms, DrainIngress(f))
    decreases |f.ingress|
  {
    hide Leads, Buffer.AddPkt;
    if f.ingress == [] {
      ms := [];
      LeadsNowhere(f);
    } else {
      var rest := DrainIsTurns(f.Apply(Admit));
      ms := [Admit] + rest;
      LeadsByOne(f, Admit, rest, DrainIngress(f));
    }
  }

  lemma {:induction false} CollectIsTurns(f: Feed) returns (ms: seq<Move>)
    ensures Leads(f, ms, CollectDropped(f))
    decreases |f.buf.q.lanes.dropped|
  {
    hide Leads;
    if f.buf.PopAqmDropped().1.None? {
      ms := [];
      LeadsNowhere(f);
    } else {
      var rest := CollectIsTurns(f.Apply(Collect));
      ms := [Collect] + rest;
      LeadsByOne(f, Collect, rest, CollectDropped(f));
    }
  }

  lemma {:induction false} CleanupIpIsTurns(f: Feed) returns (ms: seq<Move>)
    ensures Leads(f, ms, CleanupIp(f))
    decreases |f.buf.fifo| + |f.buf.q.lanes.l| + |f.buf.q.lanes.c|
  {
    hide Leads;
    if LateHead(f) {
      var rest := CleanupIpIsTurns(f.Apply(Expire));
      ms := [Expire] + rest;
      LeadsByOne(f, Expire, rest, CleanupIp(f));
    } else {
      ms := [];
      LeadsNowhere(f);
    }
  }

  lemma {:induction false} CleanupHarqIsTurns(f: Feed) returns (ms: seq<Move>)
    ensures Leads(f, ms, CleanupHarq(f))
    decreases |f.harq.buf|
  {
    hide Leads, Harq.PopOlderThan;
    if f.harq.PopOlderThan(f.now - f.budget).1.None? {
      ms := [];
      LeadsNowhere(f);
    } else {
      var rest := CleanupHarqIsTurns(f.Apply(ExpireBlock));
      ms := [ExpireBlock] + rest;
      LeadsByOne(f, ExpireBlock, rest, CleanupHarq(f));
    }
  }

  lemma StepIsTurns(f: Feed, t: real, pkts: seq<IpPkt>) returns (ms: seq<Move>)
    requires CanStep(f, t, pkts)
    ensures Leads(f, ms, StepTo(f, t, pkts))
  {
    hide Leads, DrainIngress, CollectDropped, CleanupIp, CleanupHarq, Numbered, Buffer.StepTo;
    var f1 := f.Apply(Tick(t));
    var f2 := f1.Apply(Generate(pkts));
    LeadsNowhere(f2);
    LeadsByOne(f1, Generate(pkts), [], f2);
    LeadsByOne(f, Tick(t), [Generate(pkts)] + [], f2);
    var a := DrainIsTurns(f2);
    var b := CollectIsTurns(DrainIngress(f2));
    var c := CleanupIpIsTurns(CollectDropped(DrainIngress(f2)));
    var d := CleanupHarqIsTurns(CleanupIp(CollectDropped(DrainIngress(f2))));
    ms := [Tick(t)] + ([Generate(pkts)] + []) + a + b + c + d;
    LeadsOn(f, [Tick(t)] + ([Generate(pkts)] + []), f2, a, DrainIngress(f2));
    LeadsOn(f, [Tick(t)] + ([Generate(pkts)] + []) + a, DrainIngress(f2), b, CollectDropped(DrainIngress(f2)));
    LeadsOn(f, [Tick(t)] + ([Generate(pkts)] + []) + a + b, CollectDropped(DrainIngress(f2)), c,
            CleanupIp(CollectDropped(DrainIngress(f2))));
    LeadsOn(f, [Tick(t)] + ([Generate(pkts)] + []) + a + b + c, CleanupIp(CollectDropped(DrainIngress(f2))), d,
            StepTo(f, t, pkts));
  }

  lemma TurnIsTurns(f: Feed, bits: real, radio: PdcpLayer.Radio) returns (ms: seq<Move>)
    requires bits > 0.0 && f.buf.HasPkts() && f.flight.None?
    ensures Leads(f, ms, Turn(f, bits, radio).0)
  {
    hide Leads, CollectDropped, Buffer.GetPkts, FateOf, Feed.Landed;
    var f1 := f.Apply(Take(bits.Floor));
    CollectKeepsFlight(f1);
    var g := CollectDropped(f1);
    var land := Land(FateOf(g, g.flight.value, radio));
    var collect := CollectIsTurns(f1);
    LeadsByOne(f, Take(bits.Floor), collect, g);
    LeadsNowhere(g.Apply(land));
    LeadsByOne(g, land, [], g.Apply(land));
    ms := [Take(bits.Floor)] + collect + ([land] + []);
    LeadsOn(f, [Take(bits.Floor)] + collect, g, [land] + [], g.Apply(land));
  }

  lemma {:induction false} ServeNewIsTurns(f: Feed, bits: real, radio: PdcpLayer.Radio) returns (ms: seq<Move>)
    requires Halts(f, bits) && f.flight.None?
    ensures Leads(f, ms, ServeNew(f, bits, radio)) && ServeNew(f, bits, radio).flight.None?
    decreases Waiting(AllBits, f.buf)
  {
    hide Leads, Turn, Waiting;
    if bits <= 0.0 || !f.buf.HasPkts() {
      ms := [];
      LeadsNowhere(f);
    } else {
      TurnShrinks(f, bits, radio);
      ms := TurnIsTurns(f, bits, radio);
      var (g, again) := Turn(f, bits, radio);
      if again {
        var rest := ServeNewIsTurns(g, bits, radio);
        LeadsOn(f, ms, g, rest, ServeNew(g, bits, radio));
        ms := ms + rest;
      }
    }
  }

  lemma HandlePktIsTurns(f: Feed, bits: real, radio: PdcpLayer.Radio) returns (ms: seq<Move>)
    requires f.flight.None? && (f.harq.IsPktReady() || Halts(f, bits))
    ensures Leads(f, ms, HandlePkt(f, bits, radio)) && HandlePkt(f, bits, radio).flight.None?
  {
    hide Leads, ServeNew;
    if f.harq.IsPktReady() {
      var m := Again(FateAgain(f.harq.buf[0], radio));
      ms := [m] + [];
      LeadsNowhere(f.Apply(m));
      LeadsByOne(f, m, [], f.Apply(m));
    } else {
      ms := ServeNewIsTurns(f, bits, radio);
    }
  }

  // ----- runs -----

  datatype Event = Step(t: real, pkts: seq<IpPkt>) | Grant(bits: real, radio: PdcpLayer.Radio) | Release

  ghost predicate Enabled(f: Feed, e: Event) {
    f.flight.None?
    && match e
       case Step(t, pkts) => CanStep(f, t, pkts)
       case Grant(bits, _) => f.harq.IsPktReady() || Halts(f, bits)
       case Release => true
  }

  function Apply(f: Feed, e: Event): Feed
    requires Enabled(f, e)
  {
    match e
    case Step(t, pkts) => StepTo(f, t, pkts)
    case Grant(bits, radio) => HandlePkt(f, bits, radio)
    case Release => f.Apply(Tell)
  }

  ghost predicate CanRun(f: Feed, es: seq<Event>)
    decreases |es|
  {
    es == [] || (Enabled(f, es[0]) && CanRun(Apply(f, es[0]), es[1..]))
  }

  ghost function Run(f: Feed, es: seq<Event>): Feed
    requires CanRun(f, es)
    decreases |es|
  {
    if es == [] then f else Run(Apply(f, es[0]), es[1..])
  }

  lemma EventIsTurns(f: Feed, e: Event) returns (ms: seq<Move>)
    requires Enabled(f, e)
    ensures Leads(f, ms, Apply(f, e))
  {
    hide Leads, StepTo, HandlePkt, CanStep, Halts;
    match e
    case Step(t, pkts) => ms := StepIsTurns(f, t, pkts);
    case Grant(bits, radio) => ms := HandlePktIsTurns(f, bits, radio);
    case Release =>
      ms := [Tell] + [];
      LeadsNowhere(f.Apply(Tell));
      LeadsByOne(f, Tell, [], f.Apply(Tell));
  }

  /** Any ticks, grants and releases of the source are turns of the pipeline, so every result about turns in any order
      holds of its runs. */
  lemma {:induction false} RunsAreTurns(f: Feed, es: seq<Event>) returns (ms: seq<Move>)
    requires CanRun(f, es)
    ensures Leads(f, ms, Run(f, es))
    decreases |es|
  {
    hide Leads, Enabled, Apply;
    if es == [] {
      ms := [];
      LeadsNowhere(f);
    } else {
      var first := EventIsTurns(f, es[0]);
      var rest := RunsAreTurns(Apply(f, es[0]), es[1..]);
      ms := first + rest;
      LeadsOn(f, first, Apply(f, es[0]), rest, Run(f, es));
    }
  }
}
