// Which marks reach the kernel: with a clean radio link exactly those put on a packet before any part of it was let
// through, because reassembly keeps the mark of the first piece and ignores the others'.
module MarkLaws {
  import opened Packets
  import opened DualPi2
  import opened DualPi2Laws
  import opened IpBuffer
  import opened IpBufferLaws
  import opened Capture
  import opened CapturedHandler
  import opened CapturedHandlerLaws
  import opened PdcpLayer
  import opened PdcpInduction
  import opened PdcpRuns
  import opened PdcpLaws
  import opened PdcpTheorems
  import opened SignalLaws
  import opened EntryLists
  import Arrivals
  import HarqLaws

  // A mark settles it: what is let through later was not let through before any mark.
  lemma MarkSettles(log: seq<Service>, log': seq<Service>, u: nat)
    requires log <= log' && Did(log, u, Mark) && PassedUnmarked(log', u)
    ensures PassedUnmarked(log, u)
  {
    var m :| 0 <= m < |log| && log[m].uid == u && log[m].action == Mark;
    var i :| 0 <= i < |log'| && log'[i].uid == u && log'[i].action == Pass
             && forall j :: 0 <= j < i && log'[j].uid == u ==> log'[j].action != Mark;
    assert log'[m] == log[m];
    assert i < m && log[i] == log'[i] && forall j :: 0 <= j < i ==> log[j] == log'[j];
  }

  // ----- the dequeue -----

  // An unmarked piece of the packet.
  predicate Plain(p: IpPkt, u: nat) { p.uid == u && !p.ceMarked }

  lemma ServeOnePasses(q: DualQ, u: nat)
    requires q.HasPkts() && Backed(q.lanes, u, Did(q.aqm.log, u, Mark))
    ensures var (q', r) := q.ServeOne();
            PassedUnmarked(q'.aqm.log, u) ==> PassedUnmarked(q.aqm.log, u) || (r.Some? && Plain(r.value, u))
  {
    var fromL4s := ChooseL4s(q.cfg, q.lanes.l, q.lanes.c, q.now, q.aqm.lastClassicT);
    var (rest, p) := q.lanes.TakeHead(fromL4s);
    var s := q.Serving(p, fromL4s);
    JudgeLogs(q.aqm, q.cfg, q.unitDist, p, s);
    HeadTaken(q.lanes, fromL4s, u, Did(q.aqm.log, u, Mark));
    hide Aqm.Judge, Lanes.TakeHead, Signals, Weigh;
    OnePass(q.aqm.log, s.(action := q.aqm.Judge(q.cfg, q.unitDist, p, s).1), p, u);
  }

  lemma OnePass(log: seq<Service>, s: Service, p: IpPkt, u: nat)
    requires s.uid == p.uid && MarksOwed([p], u, Did(log, u, Mark))
    ensures PassedUnmarked(log + [s], u) ==> PassedUnmarked(log, u) || (s.action == Pass && Plain(p, u))
  {
    var log' := log + [s];
    assert forall j :: 0 <= j < |log| ==> log'[j] == log[j];
    assert [p][0] == p;
    if PassedUnmarked(log', u) && !PassedUnmarked(log, u) {
      var i :| 0 <= i < |log'| && log'[i].uid == u && log'[i].action == Pass
               && forall j :: 0 <= j < i && log'[j].uid == u ==> log'[j].action != Mark;
      assert i == |log|;
    }
  }

  lemma {:induction false} PopNextPasses(q: DualQ, u: nat)
    requires Sound(q) && Backed(q.lanes, u, Did(q.aqm.log, u, Mark))
    requires Signals(q.aqm.log, u) + Weigh(Unmarked(u), q.lanes.l) + Weigh(Unmarked(u), q.lanes.c) <= 1
    ensures var (q', r) := q.PopNext();
            PassedUnmarked(q'.aqm.log, u) ==> PassedUnmarked(q.aqm.log, u) || (r.Some? && Plain(r.value, u))
    decreases |q.lanes.l| + |q.lanes.c|
  {
    hide Sound, Signals, Weigh, DualQ.ServeOne, MarksOwed, PassesOwed, Did, PassedUnmarked, Holds;
    if q.HasPkts() {
      ServeOnePasses(q, u);
      ServeOneDequeues(q, u);
      if q.ServeOne().1.None? {
        SignalLaws.ServeOneKeeps(q, u);
        PopNextPasses(q.ServeOne().0, u);
      }
    }
  }

  // ----- a grant -----

  // The first piece of the packet in a grant is marked only if none of it was let through unmarked before; and if one
  // was in this grant, the grant has a piece of it.
  ghost predicate FairGrant(log: seq<Service>, log': seq<Service>, pkts: seq<IpPkt>, u: nat) {
    PassedUnmarked(log', u) && !PassedUnmarked(log, u) ==>
      && Holds(pkts, u)
      && forall k :: 0 <= k < |pkts| && pkts[k].uid == u && pkts[k].ceMarked ==> Holds(pkts[..k], u)
  }

  lemma PopNextIsFair(b: Buffer, u: nat)
    requires Sound(b.q) && Queued(b, u) && Signals(b.q.aqm.log, u) + Waiting(Unmarked(u), b) <= 1
    ensures var (b', r) := b.PopNext();
            FairGrant(b.q.aqm.log, b'.q.aqm.log, if r.Some? then [r.value] else [], u)
  {
    hide Sound, Signals, Weigh, DualQ.PopNext, Did, PassedUnmarked;
    if b.dual {
      PopNextPasses(b.q, u);
      var r := b.q.PopNext().1;
      assert r.Some? ==> [r.value][0] == r.value;
    }
  }

  lemma FairGrantCons(log: seq<Service>, log1: seq<Service>, log2: seq<Service>, p: IpPkt, rest: seq<IpPkt>, u: nat)
    requires FairGrant(log, log1, [p], u) && FairGrant(log1, log2, rest, u) && log1 <= log2
    requires MarksOwed([p], u, Did(log1, u, Mark))
    ensures FairGrant(log, log2, [Whole(p)] + rest, u)
  {
    var pkts := [Whole(p)] + rest;
    assert [p][0] == p && pkts[0] == Whole(p) && forall k :: 0 <= k < |rest| ==> pkts[k + 1] == rest[k];
    assert [p][..0] == [];
    if PassedUnmarked(log2, u) && !PassedUnmarked(log, u) {
      if p.uid == u && p.ceMarked {
        MarkSettles(log1, log2, u);
      }
      hide PassedUnmarked, Did;
      if p.uid == u {
        assert forall k :: 0 < k <= |pkts| ==> pkts[..k][0] == Whole(p);
      } else {
        var k :| 0 <= k < |rest| && rest[k].uid == u;
        assert pkts[k + 1].uid == u;
        forall k | 0 <= k < |pkts| && pkts[k].uid == u && pkts[k].ceMarked
          ensures Holds(pkts[..k], u)
        {
          var j :| 0 <= j < |rest[..k - 1]| && rest[..k - 1][j].uid == u;
          assert pkts[..k][j + 1].uid == u;
        }
      }
    }
  }

  lemma NothingGranted(log: seq<Service>, u: nat)
    ensures FairGrant(log, log, [], u)
  {
  }

  lemma CutIsFair(log: seq<Service>, log': seq<Service>, p: IpPkt, bits: Bits, u: nat)
    requires FairGrant(log, log', [p], u)
    ensures FairGrant(log, log', [Fragment(p, bits)], u)
  {
    hide PassedUnmarked;
    assert [p][0] == p && [Fragment(p, bits)][0] == Fragment(p, bits);
    assert [p][..0] == [] && [Fragment(p, bits)][..0] == [];
  }

  lemma {:induction false} FillIsFair(b: Buffer, bits: nat, u: nat)
    requires Sound(b.q) && Queued(b, u) && (forall p :: p in b.fifo ==> p.EcnConsistent())
    requires Signals(b.q.aqm.log, u) + Waiting(Unmarked(u), b) <= 1
    ensures FairGrant(b.q.aqm.log, b.Fill(bits).0.q.aqm.log, b.Fill(bits).1, u)
    decreases bits
  {
    hide Sound, Queued, FairGrant, Buffer.PopNext, Buffer.Requeue, Signals, Waiting, Did, IpPkt.EcnConsistent, Whole,
         Fragment, Remainder;
    if bits > 0 && b.HasPkts() {
      PopNextHandsOut(b, u);
      PopNextIsFair(b, u);
      PopNextBooks(b, Unmarked(u));
      var (b1, next) := b.PopNext();
      StillQueued(b, b1, if next.Some? then [next.value] else [], u);
      if next.Some? {
        if next.value.size <= bits {
          FillIsFair(b1, bits - next.value.size, u);
          FillHandsOut(b1, bits - next.value.size, u);
          var (b2, rest) := b1.Fill(bits - next.value.size);
          FairGrantCons(b.q.aqm.log, b1.q.aqm.log, b2.q.aqm.log, next.value, rest, u);
        } else {
          RequeueBooks(b1, Remainder(next.value, bits), Unmarked(u)) by {
            CutKeepsEcn(next.value, bits);
          }
          CutIsFair(b.q.aqm.log, b1.q.aqm.log, next.value, bits, u);
        }
      }
    } else {
      NothingGranted(b.q.aqm.log, u);
    }
  }

  // ----- reassembly -----

  // An unspoiled marked entry of the packet means that none of it was let through unmarked before.
  predicate EntriesFair(out: seq<IpPkt>, u: nat, passed: bool) { Entries(out, u, UnmarkedIf(passed)) }

  function UnmarkedIf(passed: bool): IpPkt -> bool { (p: IpPkt) => p.ceMarked ==> !passed }

  lemma AddDataIsFair(out: seq<IpPkt>, p: IpPkt, u: nat, passed: bool)
    requires EntriesFair(out, u, passed) && (p.uid == u && p.ceMarked && passed ==> Holds(out, u))
    ensures EntriesFair(AddData(out, p), u, passed)
    ensures Holds(out, u) || p.uid == u ==> Holds(AddData(out, p), u)
  {
    var i, out' := FindUid(out, p.uid), AddData(out, p);
    assert out'[i].uid == p.uid && forall j :: 0 <= j < |out| ==> out'[j].uid == out[j].uid;
  }

  // Marked pieces join an entry, or follow an earlier piece of their packet that starts one.
  predicate JoinsFairly(out: seq<IpPkt>, pkts: seq<IpPkt>, u: nat, passed: bool) {
    passed && !Holds(out, u) ==>
      forall k :: 0 <= k < |pkts| && pkts[k].uid == u && pkts[k].ceMarked ==> Holds(pkts[..k], u)
  }

  lemma {:induction false} AddAllIsFair(out: seq<IpPkt>, pkts: seq<IpPkt>, tOut: real, ipT: real, u: nat, passed: bool)
    requires EntriesFair(out, u, passed) && JoinsFairly(out, pkts, u, passed)
    ensures EntriesFair(AddAll(out, pkts, tOut, ipT), u, passed)
    ensures Holds(out, u) || Holds(pkts, u) ==> Holds(AddAll(out, pkts, tOut, ipT), u)
    decreases |pkts|
  {
    hide EntriesFair, AddData;
    if pkts != [] {
      var p, rest := Stamped(pkts[0], tOut, ipT), pkts[1..];
      assert pkts[..0] == [];
      AddDataIsFair(out, p, u, passed);
      NextJoinsFairly(out, pkts, AddData(out, p), u, passed);
      AddAllIsFair(AddData(out, p), rest, tOut, ipT, u, passed);
      assert forall i :: 0 < i < |pkts| ==> pkts[i] == rest[i - 1];
    }
  }

  lemma NextJoinsFairly(out: seq<IpPkt>, pkts: seq<IpPkt>, out': seq<IpPkt>, u: nat, passed: bool)
    requires pkts != [] && JoinsFairly(out, pkts, u, passed) && (Holds(out, u) || pkts[0].uid == u ==> Holds(out', u))
    ensures JoinsFairly(out', pkts[1..], u, passed)
  {
    var rest := pkts[1..];
    if passed && !Holds(out', u) {
      forall k | 0 <= k < |rest| && rest[k].uid == u && rest[k].ceMarked
        ensures Holds(rest[..k], u)
      {
        assert pkts[k + 1] == rest[k];
        var j :| 0 <= j < |pkts[..k + 1]| && pkts[..k + 1][j].uid == u;
        assert j > 0 && rest[..k][j - 1].uid == u;
      }
    }
  }

  // ----- the pipeline with a clean radio link -----

  ghost predicate VerdictsFair(vs: seq<Verdict>, u: nat, passed: bool) {
    forall i :: 0 <= i < |vs| && vs[i].pkt.uid == u && vs[i].kind == AcceptedCe ==> !passed
  }

  // A packet partly let through unmarked has an entry or its verdict, and neither carries a mark.
  ghost predicate Fairly(l: Layer, u: nat, passed: bool) {
    && EntriesFair(l.ho.out, u, passed) && VerdictsFair(l.ho.verdicts, u, passed)
    && (passed ==> Holds(l.ho.out, u) || Verdicts(l.ho.verdicts, u) >= 1)
  }

  ghost predicate MarksFair(l: Layer, u: nat) {
    l.harq.buf == [] && Fairly(l, u, PassedUnmarked(l.buf.q.aqm.log, u))
  }

  lemma MarkedVerdictsWereMarked(l: Layer, u: nat)
    requires Heeded(l, u)
    ensures var vs := l.ho.verdicts;
            forall i :: 0 <= i < |vs| && vs[i].pkt.uid == u && vs[i].kind == AcceptedCe ==>
              Did(l.buf.q.aqm.log, u, Mark)
  {
    hide Did, PassedUnmarked, Queued, BlocksServed, DropKept;
    forall i | 0 <= i < |l.ho.verdicts| && l.ho.verdicts[i].pkt.uid == u && l.ho.verdicts[i].kind == AcceptedCe
      ensures Did(l.buf.q.aqm.log, u, Mark)
    {
      assert [l.ho.verdicts[i].pkt][0] == l.ho.verdicts[i].pkt;
    }
  }

  // More history changes nothing for packets marked before.
  lemma FairStill(l: Layer, log': seq<Service>, u: nat)
    requires MarksFair(l, u) && Heeded(l, u) && l.buf.q.aqm.log <= log'
    ensures EntriesFair(l.ho.out, u, PassedUnmarked(log', u)) && VerdictsFair(l.ho.verdicts, u, PassedUnmarked(log', u))
  {
    var log := l.buf.q.aqm.log;
    MarkedVerdictsWereMarked(l, u);
    if PassedUnmarked(log', u) && Did(log, u, Mark) {
      MarkSettles(log, log', u);
    }
    hide Did, PassedUnmarked;
  }

  // ----- the pipeline's steps -----

  lemma FlightJoinsFairly(l: Layer, l': Layer, log': seq<Service>, flight: seq<IpPkt>, u: nat)
    requires MarksFair(l, u) && FairGrant(l.buf.q.aqm.log, log', flight, u)
    requires Verdicts(l.ho.verdicts, u) >= 1 ==> !Holds(flight, u)
    requires Holds(l.ho.out, u) ==> Holds(l'.ho.out, u)
    ensures JoinsFairly(l'.ho.out, flight, u, PassedUnmarked(log', u))
  {
    hide PassedUnmarked, EntriesFair, VerdictsFair;
    assert forall k :: 0 <= k < |flight| && flight[k].uid == u ==> Holds(flight, u);
  }

  lemma TurnIsFair(l: Layer, bits: real, radio: Radio, u: nat)
    requires Shape(l) && Books(l, u) && Heeded(l, u) && MarksFair(l, u)
    requires bits > 0.0 && l.buf.HasPkts() && !radio.fails
    ensures MarksFair(l.Turn(bits, radio).0, u)
  {
    hide Shape, Books, Heeded, MarksFair, Buffer.GetPkts, Layer.CollectDropped, Buffer.HasPkts, Handler.DropBlock,
         Handler.Push, Buffer.OldestTimestamp, PassedUnmarked, EntriesFair, VerdictsFair, Holds, BooksInFlight,
         FairGrant, AllGenuine, Weigh;
    var (b, out) := l.buf.GetPkts(bits.Floor);
    var l1 := l.(buf := b, nextId := l.nextId + 1);
    GrantIsFair(l, bits.Floor, u);
    GrantTaken(l, bits.Floor, u);
    if Verdicts(l.ho.verdicts, u) >= 1 {
      Arrivals.ToldHasNoFlight(l1, u, out);
    }
    LandingIsFair(l, l1, BlockOf(l.nextId, l.buf.OldestTimestamp(), l.now, l.bhD, l.bhVar, out), radio, u);
    CollectKeepsQueues(l1);
  }

  // What a grant takes off the queues, before it lands anywhere.
  lemma GrantIsFair(l: Layer, grant: nat, u: nat)
    requires Shape(l) && Books(l, u) && Heeded(l, u) && MarksFair(l, u)
    ensures var (b, out) := l.buf.GetPkts(grant); var passed := PassedUnmarked(b.q.aqm.log, u);
            && EntriesFair(l.ho.out, u, passed) && VerdictsFair(l.ho.verdicts, u, passed)
            && FairGrant(l.buf.q.aqm.log, b.q.aqm.log, out, u)
  {
    assert Signals(l.buf.q.aqm.log, u) + Waiting(Unmarked(u), l.buf) <= 1;
    ShapeIsSound(l);
    assert Queued(l.buf, u);
    hide Shape, Books, Heeded, MarksFair, Buffer.Fill, Did, PassedUnmarked, EntriesFair, VerdictsFair, Queued, Sound,
         Signals, Waiting, FairGrant;
    FillIsFair(l.buf, grant, u);
    FillHandsOut(l.buf, grant, u);
    FairStill(l, l.buf.GetPkts(grant).0.q.aqm.log, u);
  }

  lemma LandingIsFair(l: Layer, l1: Layer, block: HarqPkt, radio: Radio, u: nat)
    requires MarksFair(l, u) && l1.ho == l.ho && l1.harq == l.harq
    requires var passed := PassedUnmarked(l1.buf.q.aqm.log, u);
             EntriesFair(l.ho.out, u, passed) && VerdictsFair(l.ho.verdicts, u, passed)
    requires FairGrant(l.buf.q.aqm.log, l1.buf.q.aqm.log, block.pkts, u)
    requires Verdicts(l.ho.verdicts, u) >= 1 ==> !Holds(block.pkts, u)
    ensures var l2 := l1.CollectDropped();
            && MarksFair(l2.(ho := l2.ho.DropBlock(block)), u)
            && MarksFair(l2.(ho := l2.ho.Push(block, radio.jitter)), u)
            && (block.pkts == [] ==> MarksFair(l2, u))
  {
    hide Layer.CollectDropped, PassedUnmarked, Entries, VerdictsFair, AddAll, RemoveAll, SortByUid, ReleaseTime;
    var passed := PassedUnmarked(l1.buf.q.aqm.log, u);
    var before := PassedUnmarked(l.buf.q.aqm.log, u);
    CollectEntries(l1, u, UnmarkedIf(passed));
    var l2 := l1.CollectDropped();
    FlightJoinsFairly(l, l2, l1.buf.q.aqm.log, block.pkts, u);
    assert passed ==> before || Holds(block.pkts, u);
    hide FairGrant, Holds, JoinsFairly;
    RemoveAllEntries(l2.ho.out, block.pkts, block.tOut, block.ipT, u, UnmarkedIf(passed));
    AddAllIsFair(l2.ho.out, block.pkts, ReleaseTime(block, radio.jitter), block.ipT, u, passed);
    SortEntries(AddAll(l2.ho.out, block.pkts, ReleaseTime(block, radio.jitter), block.ipT), u, UnmarkedIf(passed));
    NobodyHeld(u);
  }

  lemma ServeNewIsFair(l: Layer, bits: real, radio: Radio, u: nat)
    requires Shape(l) && Books(l, u) && Heeded(l, u) && MarksFair(l, u) && l.Halts(bits) && !radio.fails
    ensures MarksFair(l.ServeNew(bits, radio).0, u)
  {
    hide Shape, Books, Heeded, MarksFair, Layer.Turn, Layer.ServeNew;
    var inv := (k: Layer) => Shape(k) && Books(k, u) && Heeded(k, u) && MarksFair(k, u);
    forall k: Layer | inv(k) && bits > 0.0 && k.buf.HasPkts()
      ensures inv(k.Turn(bits, radio).0)
    {
      TurnKeeps(k, bits, radio, u);
      TurnHeeds(k, bits, radio, u);
      TurnIsFair(k, bits, radio, u);
    }
    GrantInduction(l, bits, radio, inv);
  }

  lemma StepIsFair(l: Layer, t: real, u: nat)
    requires MarksFair(l, u)
    ensures MarksFair(l.StepTo(t), u)
  {
    hide PassedUnmarked, Entries, Holds, VerdictsFair, Layer.StepTo;
    StepEntries(l, t, u, UnmarkedIf(PassedUnmarked(l.buf.q.aqm.log, u)));
  }

  lemma ReleaseFrontIsFair(l: Layer, u: nat)
    requires MarksFair(l, u) && l.ho.out != []
    ensures MarksFair(l.(ho := l.ho.ReleaseFront()), u)
  {
    hide PassedUnmarked, Store.Verdict;
    var out, h' := l.ho.out, l.ho.ReleaseFront();
    var rest, vs, told := out[1..], h'.verdicts, |l.ho.verdicts|;
    assert forall i :: 0 <= i < |rest| ==> rest[i] == out[i + 1];
    assert vs[told].pkt == out[0] && forall i :: 0 <= i < told ==> vs[i] == l.ho.verdicts[i];
    ToldSnoc(l.ho.verdicts, vs[told]);
    assert vs == l.ho.verdicts + [vs[told]];
    if Holds(out, u) && out[0].uid != u {
      var i :| 0 <= i < |out| && out[i].uid == u;
      assert rest[i - 1].uid == u;
    }
  }

  lemma {:induction false} ReleaseIsFair(l: Layer, u: nat)
    requires MarksFair(l, u)
    ensures MarksFair(l.Release(), u)
    decreases |l.ho.out|
  {
    hide MarksFair, Handler.ReleaseFront;
    if l.ho.FrontGoes() {
      ReleaseFrontIsFair(l, u);
      ReleaseShrinks(l.ho);
      ReleaseIsFair(l.(ho := l.ho.ReleaseFront()), u);
    }
  }

  lemma EventIsFair(l: Layer, e: Event, u: nat)
    requires Good(l) && Heeded(l, u) && MarksFair(l, u) && Enabled(l, e) && Succeeds(e)
    ensures MarksFair(Apply(l, e), u)
  {
    hide Shape, Books, HarqLaws.WithinTurns, Heeded, Layer.StepTo, Layer.ServeNew, Layer.Release, EntriesFair,
         VerdictsFair, Holds, PassedUnmarked;
    match e
    case Capture(info, payload) =>
    case Step(t) => StepIsFair(l, t, u);
    case Grant(bits, radio) =>
      assert Books(l, u);
      ServeNewIsFair(l, bits, radio, u);
    case Release => ReleaseIsFair(l, u);
    case Report =>
  }

  lemma {:induction false} RunIsFair(l: Layer, es: seq<Event>, u: nat)
    requires Good(l) && Heeded(l, u) && MarksFair(l, u) && CanRun(l, es) && forall e :: e in es ==> Succeeds(e)
    ensures MarksFair(Run(l, es), u)
    decreases |es|
  {
    hide Good, Heeded, MarksFair, Enabled, Apply, Succeeds;
    if es != [] {
      EventIsFair(l, es[0], u);
      EventHeeds(l, es[0], u);
      EventKeeps(l, es[0]);
      RunIsFair(Apply(l, es[0]), es[1..], u);
    }
  }

  lemma InitialIsFair(l: Layer, u: nat)
    requires Initial(l)
    ensures MarksFair(l, u)
  {
  }

  /** Exactly which marks reach the kernel, over every run in either mode whose transmissions succeed: a packet that is
      accepted is accepted as CE if and only if the AQM marked it before letting any part of it through. */
  lemma EarlyMarksReachVerdicts(l: Layer, es: seq<Event>, i: nat)
    requires Initial(l) && CanRun(l, es) && (forall e :: e in es ==> Succeeds(e))
    requires i < |Run(l, es).ho.verdicts| && Run(l, es).ho.verdicts[i].kind != Discarded
    ensures var r := Run(l, es); var v, log := r.ho.verdicts[i], r.buf.q.aqm.log;
            v.kind == AcceptedCe <==> Did(log, v.pkt.uid, Mark) && !PassedUnmarked(log, v.pkt.uid)
  {
    hide Initial, Good, Run, CanRun, Succeeds, Did, PassedUnmarked, Queued, BlocksServed, EntriesFair, DropKept;
    var r := Run(l, es);
    var v := r.ho.verdicts[i];
    var u := v.pkt.uid;
    InitialIsGood(l);
    InitialHeeds(l, u);
    InitialIsFair(l, u);
    RunIsFair(l, es, u);
    RunsHeed(l, es, u);
    MarkedVerdictsWereMarked(r, u);
    assert Served([v.pkt], u, r.buf) && v.kind == KindOf(v.pkt) && [v.pkt][0] == v.pkt;
    if !r.buf.dual {
      FifoMarksNobody(r, u);
    }
  }

  lemma FifoMarksNobody(l: Layer, u: nat)
    requires Heeded(l, u) && !l.buf.dual
    ensures !Did(l.buf.q.aqm.log, u, Mark)
  {
  }
}
