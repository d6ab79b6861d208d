// Assigning a resource block to a UE (src/mac_layer/resource_block.cpp with src/mac_layer/metric_handler.cpp),
// and the order in which the grid considers its blocks (src/mac_layer/resource_grid.cpp).
module Scheduler {
  import opened Packets

  // ----- the round-robin state every UE carries a copy of -----

  datatype RoundRobin = RoundRobin(rrIndex: int, prevF: int) {
    // The turn moves on when a frequency index other than the last one asked about comes up.
    function Asked(f: int, nUes: int): RoundRobin {
      if prevF == f then this else RoundRobin(if rrIndex + 1 >= nUes then 0 else rrIndex + 1, f)
    }
  }

  const FRESH := RoundRobin(0, -1)

  class MetricHandler {
    var rrIndex: int
    var prevF: int

    ghost function State(): RoundRobin
      reads this
    {
      RoundRobin(rrIndex, prevF)
    }

    constructor ()
      ensures State() == FRESH
    {
      rrIndex, prevF := 0, -1;
    }

    method GetRrMetric(f: int, id: int, nUes: int) returns (metric: real)
      modifies this
      ensures State() == old(State()).Asked(f, nUes)
      ensures metric == if State().rrIndex == id then 1.0 else 0.0
    {
      if prevF != f {
        rrIndex := rrIndex + 1;
        if rrIndex >= nUes {
          rrIndex := 0;
        }
        prevF := f;
      }
      return if rrIndex == id then 1.0 else 0.0;
    }
  }

  // ----- choosing the best candidate for one block -----

  // What a UE offers on a block; `metric` is used unless the metric is round robin, and `serve` is what it reports
  // sent of a grant.
  datatype Offer = Offer(hasPkts: bool, bitsPerSymbol: real, metric: real, serve: real -> real) {
    function Sends(granted: real): real { serve(granted) }
  }

  datatype Candidate = Candidate(hasData: bool, tp: real, metric: real)

  datatype Best = Best(taken: bool, tp: real, value: real, index: int)

  const NOBODY := Best(false, 0.0, -1.0, -1)

  function CandidateOf(rr: bool, id: int, s: RoundRobin, o: Offer): Candidate {
    Candidate(o.hasPkts && o.bitsPerSymbol > 0.0, o.bitsPerSymbol,
              if rr then (if s.rrIndex == id then 1.0 else 0.0) else o.metric)
  }

  function Compared(b: Best, c: Candidate, i: nat): Best {
    if c.hasData && c.metric >= b.value then Best(true, c.tp, c.metric, i) else b
  }

  // The loop over the candidates, first to last.
  function Select(cands: seq<Candidate>): Best {
    if cands == [] then NOBODY
    else Compared(Select(cands[..|cands| - 1]), cands[|cands| - 1], |cands| - 1)
  }

  /** The block goes to the last of the candidates with data whose metric is highest; to nobody exactly when no
      candidate with data reaches the initial value -1. */
  lemma {:induction false} SelectFindsLastBest(cands: seq<Candidate>)
    ensures var b := Select(cands);
            && (b.taken <==> exists i :: 0 <= i < |cands| && cands[i].hasData && cands[i].metric >= -1.0)
            && b.value >= -1.0
            && (!b.taken ==> b == NOBODY)
            && (b.taken ==>
                  && 0 <= b.index < |cands| && cands[b.index].hasData
                  && b.tp == cands[b.index].tp && b.value == cands[b.index].metric
                  && (forall j :: 0 <= j < |cands| && cands[j].hasData ==>
                        if j <= b.index then cands[j].metric <= b.value else cands[j].metric < b.value))
  {
    if cands != [] {
      var rest := cands[..|cands| - 1];
      SelectFindsLastBest(rest);
      assert forall i :: 0 <= i < |rest| ==> rest[i] == cands[i];
    }
  }

  lemma SelectNobody()
    ensures Select([]) == NOBODY
  {
  }

  lemma SelectNext(cands: seq<Candidate>, i: nat)
    requires i < |cands|
    ensures var b, c := Select(cands[..i]), cands[i];
            Select(cands[..i + 1]) == if c.hasData && c.metric >= b.value then Best(true, c.tp, c.metric, i) else b
  {
    assert cands[..i + 1][..i] == cands[..i];
  }

  class MaxMetricHandler {
    var best: Best

    constructor ()
      ensures best == NOBODY
    {
      best := NOBODY;
    }

    method Reset()
      modifies this
      ensures best == NOBODY
    {
      best := NOBODY;
    }

    method Assign(tp: real, value: real, index: int)
      modifies this
      ensures best == Best(true, tp, value, index)
    {
      best := Best(true, tp, value, index);
    }
  }

  // A UE as the scheduler sees it.
  class Ue {
    const id: int
    const metricH: MetricHandler

    constructor (id: int)
      ensures this.id == id && metricH.State() == FRESH && fresh(metricH)
    {
      this.id := id;
      metricH := new MetricHandler();
    }

    method GetScheduleCandidate(f: int, nUes: int, rr: bool, o: Offer) returns (c: Candidate)
      modifies metricH
      ensures metricH.State() == if rr then old(metricH.State()).Asked(f, nUes) else old(metricH.State())
      ensures c == CandidateOf(rr, id, metricH.State(), o)
    {
      var metric := o.metric;
      if rr {
        metric := metricH.GetRrMetric(f, id, nUes);
      }
      c := Candidate(o.hasPkts && o.bitsPerSymbol > 0.0, o.bitsPerSymbol, metric);
    }
  }

  ghost predicate Distinct(ues: seq<Ue>) {
    forall i, j :: 0 <= i < j < |ues| ==> ues[i].metricH != ues[j].metricH
  }

  ghost function Handlers(ues: seq<Ue>): set<MetricHandler> {
    set i | 0 <= i < |ues| :: ues[i].metricH
  }

  ghost function States(ues: seq<Ue>): seq<RoundRobin>
    reads Handlers(ues)
  {
    seq(|ues|, i requires 0 <= i < |ues| reads Handlers(ues) => ues[i].metricH.State())
  }

  function AskAll(ss: seq<RoundRobin>, f: int, rr: bool): seq<RoundRobin> {
    seq(|ss|, i requires 0 <= i < |ss| => if rr then ss[i].Asked(f, |ss|) else ss[i])
  }

  function Ids(ues: seq<Ue>): seq<int> {
    seq(|ues|, i requires 0 <= i < |ues| => ues[i].id)
  }

  function Candidates(ids: seq<int>, ss: seq<RoundRobin>, rr: bool, offers: seq<Offer>): seq<Candidate>
    requires |ids| == |ss| == |offers|
  {
    seq(|ids|, i requires 0 <= i < |ids| => CandidateOf(rr, ids[i], ss[i], offers[i]))
  }

  // A block served: to whom, the bits granted and the bits the UE reports sent.
  datatype Use = Use(ue: int, granted: real, sent: real)

  // The bits a rate is worth over some symbols.
  function Worth(tp: real, syms: nat): real { tp * syms as real }

  function UseOf(b: Best, offers: seq<Offer>, syms: nat): Option<Use>
    requires b.taken ==> 0 <= b.index < |offers|
  {
    if b.taken && b.tp > 0.0 then
      Some(Use(b.index, Worth(b.tp, syms), offers[b.index].Sends(Worth(b.tp, syms))))
    else None
  }

  // One block with symbols: everyone is asked, and the best candidate is served.
  function Served(ids: seq<int>, ss: seq<RoundRobin>, f: int, rr: bool, offers: seq<Offer>, syms: nat)
      : (seq<RoundRobin>, Option<Use>)
    requires |ids| == |ss| == |offers|
  {
    var after := AskAll(ss, f, rr);
    var cands := Candidates(ids, after, rr, offers);
    SelectFindsLastBest(cands);
    (after, UseOf(Select(cands), offers, syms))
  }

  class Rb {
    const f: int
    const maxMetric: MaxMetricHandler
    var lastUeIndex: int
    var lastScheduledBits: real
    var lastEffectiveBits: real

    constructor (f: int)
      ensures this.f == f && maxMetric.best == NOBODY && fresh(maxMetric) && lastUeIndex == -1
      ensures lastScheduledBits == lastEffectiveBits == 0.0
    {
      this.f, lastUeIndex, lastScheduledBits, lastEffectiveBits := f, -1, 0.0, 0.0;
      maxMetric := new MaxMetricHandler();
    }

    /** Nobody is asked on a block without symbols; otherwise every UE is, once, and the best candidate is kept. */
    method EstimateParams(ues: seq<Ue>, rr: bool, offers: seq<Offer>, syms: int)
      requires Distinct(ues) && |offers| == |ues| && maxMetric.best == NOBODY
      modifies maxMetric, Handlers(ues)
      ensures syms <= 0 ==> States(ues) == old(States(ues)) && maxMetric.best == NOBODY
      ensures syms > 0 ==>
                && States(ues) == AskAll(old(States(ues)), f, rr)
                && maxMetric.best == Select(Candidates(Ids(ues), AskAll(old(States(ues)), f, rr), rr, offers))
    {
      hide CandidateOf, RoundRobin.Asked, Select, Compared;
      if syms > 0 {
        SelectNobody();
        ghost var before := States(ues);
        ghost var after := AskAll(before, f, rr);
        ghost var cands := Candidates(Ids(ues), after, rr, offers);
        var i := 0;
        assert cands[..0] == [];
        while i < |ues|
          invariant 0 <= i <= |ues|
          invariant forall k :: 0 <= k < i ==> ues[k].metricH.State() == after[k]
          invariant forall k :: i <= k < |ues| ==> ues[k].metricH.State() == before[k]
          invariant maxMetric.best == Select(cands[..i])
        {
          SelectNext(cands, i);
          var c := ues[i].GetScheduleCandidate(f, |ues|, rr, offers[i]);
          assert cands[i] == c;
          if c.hasData && c.metric >= maxMetric.best.value {
            maxMetric.Assign(c.tp, c.metric, i);
          }
          i := i + 1;
        }
        assert cands[..i] == cands;
      }
    }

    // The kept candidate is served if it has a rate; the register is cleared either way.
    method HandlePacket(offers: seq<Offer>, syms: nat) returns (scheduled: Option<Use>)
      requires maxMetric.best.taken ==> 0 <= maxMetric.best.index < |offers|
      modifies this, maxMetric
      ensures maxMetric.best == NOBODY && scheduled == UseOf(old(maxMetric.best), offers, syms)
      ensures lastUeIndex == if scheduled.Some? then scheduled.value.ue else -1
      ensures lastScheduledBits == if scheduled.Some? then scheduled.value.granted else 0.0
      ensures lastEffectiveBits == if scheduled.Some? then scheduled.value.sent else 0.0
    {
      lastUeIndex, lastScheduledBits, lastEffectiveBits := -1, 0.0, 0.0;
      scheduled := None;
      if maxMetric.best.taken {
        if maxMetric.best.tp > 0.0 {
          lastUeIndex := maxMetric.best.index;
          lastScheduledBits := Worth(maxMetric.best.tp, syms);
          lastEffectiveBits := offers[lastUeIndex].Sends(lastScheduledBits);
          scheduled := Some(Use(lastUeIndex, lastScheduledBits, lastEffectiveBits));
        }
      }
      maxMetric.Reset();
    }
  }

  // ----- the grid -----

  // The blocks of one slot, in frequency order, the first `n` of them.
  function Row(ids: seq<int>, ss: seq<RoundRobin>, rr: bool, offers: (nat, nat) -> seq<Offer>, t: nat,
      syms: nat, n: nat)
      : (r: (seq<RoundRobin>, seq<Option<Use>>))
    requires |ids| == |ss| && forall t, f :: |offers(t, f)| == |ids|
    ensures |r.0| == |ss| && |r.1| == n
    decreases n
  {
    if n == 0 then (ss, [])
    else
      var (s, w) := Row(ids, ss, rr, offers, t, syms, n - 1);
      var (s', served) := Served(ids, s, n - 1, rr, offers(t, n - 1), syms);
      (s', w + [served])
  }

  function Nobody(n: nat): seq<Option<Use>> { seq(n, i => None) }

  // Slot after slot; a slot without symbols for this direction considers no block.
  function Rows(ids: seq<int>, ss: seq<RoundRobin>, rr: bool, offers: (nat, nat) -> seq<Offer>, syms: seq<nat>,
      nFreq: nat)
      : (r: (seq<RoundRobin>, seq<Option<Use>>))
    requires |ids| == |ss| && forall t, f :: |offers(t, f)| == |ids|
    ensures |r.0| == |ss|
  {
    if syms == [] then (ss, [])
    else
      var t := |syms| - 1;
      var (s, w) := Rows(ids, ss, rr, offers, syms[..t], nFreq);
      if syms[t] > 0 then var (s', row) := Row(ids, s, rr, offers, t, syms[t], nFreq); (s', w + row)
      else (s, w + Nobody(nFreq))
  }

  function CountServed(winners: seq<Option<Use>>): nat {
    if winners == [] then 0
    else CountServed(winners[..|winners| - 1]) + if winners[|winners| - 1].Some? then 1 else 0
  }

  function GrantedBits(winners: seq<Option<Use>>): real {
    if winners == [] then 0.0
    else GrantedBits(winners[..|winners| - 1])
         + if winners[|winners| - 1].Some? then winners[|winners| - 1].value.granted else 0.0
  }

  function SentBits(winners: seq<Option<Use>>): real {
    if winners == [] then 0.0
    else SentBits(winners[..|winners| - 1])
         + if winners[|winners| - 1].Some? then winners[|winners| - 1].value.sent else 0.0
  }

  // The different UEs served, of the `n` there are.
  ghost function ServedUes(winners: seq<Option<Use>>, n: nat): set<int> {
    set w | w in winners && w.Some? && 0 <= w.value.ue < n :: w.value.ue
  }

  lemma ServedSnoc(winners: seq<Option<Use>>, w: Option<Use>, n: nat)
    ensures CountServed(winners + [w]) == CountServed(winners) + if w.Some? then 1 else 0
    ensures GrantedBits(winners + [w]) == GrantedBits(winners) + if w.Some? then w.value.granted else 0.0
    ensures SentBits(winners + [w]) == SentBits(winners) + if w.Some? then w.value.sent else 0.0
    ensures ServedUes(winners + [w], n) == ServedUes(winners, n)
                                            + if w.Some? && 0 <= w.value.ue < n then {w.value.ue} else {}
  {
    assert (winners + [w])[..|winners|] == winners;
    assert forall x :: x in winners + [w] <==> x in winners || x == w;
    assert w in winners + [w];
  }

  // The step's running report: blocks served, how many different UEs among them, and the bits granted and sent.
  class StepMetrics {
    var scheduledRbgs: nat
    var scheduledUes: nat
    var scheduledBits: real
    var effectiveBits: real
    const flags: array<bool>
    ghost var noted: seq<Option<Use>>

    ghost predicate Valid()
      reads this, flags
    {
      && scheduledBits == GrantedBits(noted) && effectiveBits == SentBits(noted)
      && scheduledRbgs == CountServed(noted) && scheduledUes == |ServedUes(noted, flags.Length)|
      && forall u :: 0 <= u < flags.Length ==> (flags[u] <==> u in ServedUes(noted, flags.Length))
    }

    constructor (n: nat)
      ensures Valid() && fresh(flags) && flags.Length == n && noted == []
    {
      scheduledRbgs, scheduledUes, scheduledBits, effectiveBits, noted := 0, 0, 0.0, 0.0, [];
      flags := new bool[n](i => false);
    }

    method Note(w: Option<Use>)
      requires Valid()
      modifies this, flags
      ensures Valid() && noted == old(noted) + [w]
    {
      hide CountServed, ServedUes, GrantedBits, SentBits;
      ghost var ues, ues' := ServedUes(noted, flags.Length), ServedUes(noted + [w], flags.Length);
      ServedSnoc(noted, w, flags.Length);
      noted := noted + [w];
      if w.Some? {
        scheduledRbgs := scheduledRbgs + 1;
        scheduledBits := scheduledBits + w.value.granted;
        effectiveBits := effectiveBits + w.value.sent;
        if 0 <= w.value.ue < flags.Length && !flags[w.value.ue] {
          assert w.value.ue !in ues && ues' == ues + {w.value.ue};
          flags[w.value.ue] := true;
          scheduledUes := scheduledUes + 1;
        } else {
          assert ues' == ues;
        }
      } else {
        assert ues' == ues;
      }
    }
  }

  ghost predicate Ready(rbs: seq<Rb>) {
    forall f :: 0 <= f < |rbs| ==> rbs[f].f == f
  }

  ghost predicate Cleared(rbs: seq<Rb>)
    reads Registers(rbs)
  {
    forall f :: 0 <= f < |rbs| ==> rbs[f].maxMetric.best == NOBODY
  }

  ghost function Registers(rbs: seq<Rb>): set<object> {
    set f | 0 <= f < |rbs| :: rbs[f].maxMetric
  }

  // One block: choose, then serve.
  method ServeBlock(rb: Rb, ues: seq<Ue>, rr: bool, offers: seq<Offer>, syms: nat) returns (w: Option<Use>)
    requires Distinct(ues) && |offers| == |ues| && rb.maxMetric.best == NOBODY
    modifies Handlers(ues), rb, rb.maxMetric
    ensures rb.maxMetric.best == NOBODY
    ensures (States(ues), w) ==
        if syms > 0 then Served(Ids(ues), old(States(ues)), rb.f, rr, offers, syms) else (old(States(ues)), None)
  {
    hide Select;
    rb.EstimateParams(ues, rr, offers, syms);
    SelectFindsLastBest(Candidates(Ids(ues), AskAll(old(States(ues)), rb.f, rr), rr, offers));
    w := rb.HandlePacket(offers, syms);
  }

  lemma SnocAssociates(a: seq<Option<Use>>, b: seq<Option<Use>>, w: Option<Use>)
    ensures (a + b) + [w] == a + (b + [w])
  {
  }

  // One slot's blocks, in frequency order.
  method ServeSlot(rbs: seq<Rb>, ues: seq<Ue>, rr: bool, offers: (nat, nat) -> seq<Offer>, t: nat, syms: nat,
      m: StepMetrics)
    requires Ready(rbs) && Cleared(rbs) && Distinct(ues) && m.Valid() && forall t, f :: |offers(t, f)| == |ues|
    modifies Handlers(ues), Registers(rbs), rbs, m, m.flags
    ensures Cleared(rbs) && m.Valid()
    ensures if syms > 0 then
              (States(ues), m.noted) == (Row(Ids(ues), old(States(ues)), rr, offers, t, syms, |rbs|).0,
                                         old(m.noted) + Row(Ids(ues), old(States(ues)), rr, offers, t, syms, |rbs|).1)
            else States(ues) == old(States(ues)) && m.noted == old(m.noted) + Nobody(|rbs|)
  {
    hide Served, CountServed, ServedUes, GrantedBits, SentBits, StepMetrics.Valid;
    assert m.noted + [] == m.noted && m.noted + Nobody(0) == m.noted;
    ghost var start, noted := States(ues), m.noted;
    var f := 0;
    while f < |rbs|
      invariant 0 <= f <= |rbs| && Cleared(rbs) && m.Valid()
      invariant if syms > 0 then
                  (States(ues), m.noted) == (Row(Ids(ues), start, rr, offers, t, syms, f).0,
                                             noted + Row(Ids(ues), start, rr, offers, t, syms, f).1)
                else States(ues) == start && m.noted == noted + Nobody(f)
    {
      ghost var row := if syms > 0 then Row(Ids(ues), start, rr, offers, t, syms, f).1 else Nobody(f);
      var w := ServeBlock(rbs[f], ues, rr, offers(t, f), syms);
      m.Note(w);
      SnocAssociates(noted, row, w);
      assert syms == 0 ==> row + [w] == Nobody(f + 1);
      f := f + 1;
    }
  }

  /** One step of the grid over its slots: every block of every slot with symbols asks every UE once, in order, and
      serves the best; the report counts the blocks served, those left empty and the different UEs served. */
  method GridStep(grid: seq<seq<Rb>>, ues: seq<Ue>, rr: bool, offers: (nat, nat) -> seq<Offer>, syms: seq<nat>,
      nFreq: nat)
    returns (m: StepMetrics, emptyRbgs: int)
    requires |grid| == |syms| && forall t :: 0 <= t < |grid| ==>
        |grid[t]| == nFreq && Ready(grid[t]) && Cleared(grid[t])
    requires Distinct(ues) && forall t, f :: |offers(t, f)| == |ues|
    modifies Handlers(ues), (set t, f | 0 <= t < |grid| && 0 <= f < |grid[t]| :: grid[t][f]),
             (set t, f | 0 <= t < |grid| && 0 <= f < |grid[t]| :: grid[t][f].maxMetric)
    ensures fresh(m) && m.Valid() && m.flags.Length == |ues|
    ensures (States(ues), m.noted) == Rows(Ids(ues), old(States(ues)), rr, offers, syms, nFreq)
    ensures emptyRbgs == nFreq * |syms| - m.scheduledRbgs
    ensures forall t :: 0 <= t < |grid| ==> Cleared(grid[t])
  {
    hide Row, CountServed, ServedUes, GrantedBits, SentBits, StepMetrics.Valid;
    m := new StepMetrics(|ues|);
    ghost var before := States(ues);
    var t := 0;
    while t < |syms|
      invariant 0 <= t <= |syms| && m.Valid() && fresh(m) && fresh(m.flags)
      invariant forall a :: 0 <= a < |grid| ==> Cleared(grid[a])
      invariant (States(ues), m.noted) == Rows(Ids(ues), before, rr, offers, syms[..t], nFreq)
    {
      ServeSlot(grid[t], ues, rr, offers, t, syms[t], m);
      assert syms[..t + 1][..t] == syms[..t];
      t := t + 1;
    }
    assert syms[..t] == syms;
    emptyRbgs := nFreq * |syms| - m.scheduledRbgs;
  }
}
