// The runs of the pipeline: what can happen to it, and what the environment owes.
module PdcpRuns {
  import opened IpBuffer
  import opened Harq
  import opened Ipv4Ecn
  import opened Capture
  import opened CapturedHandler
  import opened PdcpLayer

  datatype Event =
    | Capture(info: Info, payload: seq<Byte>)
    | Step(t: real)
    | Grant(bits: real, radio: Radio)
    | Release
    | Report

  /** What the environment owes: a capture brings a fresh id, time does not run backwards, and a grant
      does not ask for a positive part of a bit. Overflow, expiry, AQM drops, failed transmissions and
      the capture clock are unconstrained. */
  predicate Enabled(l: Layer, e: Event) {
    match e
    case Capture(info, _) => info.uid !in l.ho.store.seen
    case Step(t) => l.now <= t
    case Grant(bits, _) => l.harq.IsPktReady() || l.Halts(bits)
    case Release => true
    case Report => true
  }

  function Apply(l: Layer, e: Event): Layer
    requires Enabled(l, e)
  {
    match e
    case Capture(info, payload) => l.Captured(info, payload)
    case Step(t) => l.StepTo(t)
    case Grant(bits, radio) => l.HandlePkt(bits, radio).0
    case Release => l.Release()
    case Report => l.Report()
  }

  // No transmission fails; the compiled failure question always says so.
  predicate Succeeds(e: Event) { e.Grant? ==> !e.radio.fails }

  predicate CanRun(l: Layer, es: seq<Event>)
    decreases |es|
  {
    es == [] || (Enabled(l, es[0]) && CanRun(Apply(l, es[0]), es[1..]))
  }

  function Run(l: Layer, es: seq<Event>): Layer
    requires CanRun(l, es)
    decreases |es|
  {
    if es == [] then l else Run(Apply(l, es[0]), es[1..])
  }

  // A freshly built layer, whatever its configuration and random streams.
  ghost predicate Initial(l: Layer) {
    && l.buf == EmptyBuffer(l.buf.dual, l.buf.maxSize, l.buf.q.cfg, l.buf.q.unitDist)
    && l.harq == Harq([], -1.0, 0.0, [])
    && l.ho == Handler(l.ho.doCheck, [], -1, -1, [], 0.0, NO_CAPTURES, l.ho.clock, 0, [], [])
    && l.now == 0.0 && l.nextId == 0
  }

  /** What every event keeps, every run keeps. */
  lemma {:induction false} RunInduction(l: Layer, es: seq<Event>, inv: Layer -> bool)
    requires inv(l) && CanRun(l, es)
    requires forall k: Layer, e: Event :: inv(k) && Enabled(k, e) ==> inv(Apply(k, e))
    ensures inv(Run(l, es))
    decreases |es|
  {
    hide Enabled, Apply;
    if es != [] {
      RunInduction(Apply(l, es[0]), es[1..], inv);
    }
  }

  lemma {:induction false} RunAppend(l: Layer, a: seq<Event>, b: seq<Event>)
    requires CanRun(l, a) && CanRun(Run(l, a), b)
    ensures CanRun(l, a + b) && Run(l, a + b) == Run(Run(l, a), b)
    decreases |a|
  {
    hide Enabled, Apply;
    if a == [] {
      assert a + b == b;
    } else {
      RunAppend(Apply(l, a[0]), a[1..], b);
      assert (a + b)[0] == a[0] && (a + b)[1..] == a[1..] + b;
    }
  }

  lemma RunOne(l: Layer, e: Event)
    requires Enabled(l, e)
    ensures CanRun(l, [e]) && Run(l, [e]) == Apply(l, e)
  {
    hide Enabled, Apply;
    assert [e][1..] == [];
  }

  lemma RunTwo(l: Layer, a: Event, b: Event)
    requires Enabled(l, a) && Enabled(Apply(l, a), b)
    ensures CanRun(l, [a, b]) && Run(l, [a, b]) == Apply(Apply(l, a), b)
  {
    hide Enabled, Apply, CanRun, Run;
    RunOne(l, a);
    RunOne(Apply(l, a), b);
    RunAppend(l, [a], [b]);
    assert [a] + [b] == [a, b];
  }
}
