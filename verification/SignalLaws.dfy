// From the AQM's history to the verdicts: a CE verdict needs a mark, a drop leaves no other verdict than a drop, and a
// mark is lost only on a packet that was cut before it was marked.
module SignalLaws {
  import opened Packets
  import opened DualPi2
  import opened DualPi2Laws
  import opened IpBuffer
  import opened IpBufferLaws
  import opened Harq
  import opened Ipv4Ecn
  import opened Capture
  import opened CapturedHandler
  import opened CapturedHandlerLaws
  import opened PdcpLayer
  import opened PdcpInduction
  import opened PdcpRuns
  import opened PdcpLaws
  import opened PdcpTheorems
  import opened ShutGate
  import HarqLaws

  // ----- the history of one packet -----

  ghost predicate Did(log: seq<Service>, u: nat, a: Action) {
    exists i :: 0 <= i < |log| && log[i].uid == u && log[i].action == a
  }

  // A piece of the packet was let through before any mark.
  ghost predicate PassedUnmarked(log: seq<Service>, u: nat) {
    exists i :: 0 <= i < |log| && log[i].uid == u && log[i].action == Pass
                && forall j :: 0 <= j < i && log[j].uid == u ==> log[j].action != Mark
  }

  lemma HistoryGrows(log: seq<Service>, log': seq<Service>, u: nat)
    requires log <= log'
    ensures forall a :: Did(log, u, a) ==> Did(log', u, a)
    ensures PassedUnmarked(log, u) ==> PassedUnmarked(log', u)
  {
    assert forall i :: 0 <= i < |log| ==> log'[i] == log[i];
  }

  // ----- what every list of pieces owes that history -----

  // Every marked piece of the packet was marked by the AQM.
  predicate MarksOwed(s: seq<IpPkt>, u: nat, marked: bool) {
    forall i :: 0 <= i < |s| && s[i].uid == u && s[i].ceMarked ==> marked
  }

  // Every piece served without a mark, and not spoiled since, was let through before any mark.
  predicate PassesOwed(s: seq<IpPkt>, u: nat, passed: bool) {
    forall i :: 0 <= i < |s| && s[i].uid == u && !s[i].ceMarked && !s[i].erase ==> passed
  }

  ghost predicate Queued(b: Buffer, u: nat) {
    var marked := Did(b.q.aqm.log, u, Mark);
    && MarksOwed(b.fifo, u, marked) && MarksOwed(b.q.lanes.l, u, marked) && MarksOwed(b.q.lanes.c, u, marked)
    && MarksOwed(b.q.lanes.dropped, u, marked)
    && (!b.dual ==> b.q.aqm.log == [])
  }

  ghost predicate Served(s: seq<IpPkt>, u: nat, b: Buffer) {
    && MarksOwed(s, u, Did(b.q.aqm.log, u, Mark))
    && PassesOwed(s, u, b.dual ==> PassedUnmarked(b.q.aqm.log, u))
  }

  predicate Spoiled(out: seq<IpPkt>, u: nat) {
    exists i :: 0 <= i < |out| && out[i].uid == u && out[i].erase
  }

  predicate ToldDrop(vs: seq<Verdict>, u: nat) {
    exists i :: 0 <= i < |vs| && vs[i].pkt.uid == u && vs[i].kind == Discarded
  }

  // A drop the AQM decided on is still to be collected, or has spoiled the packet's entry, or was told.
  ghost predicate DropKept(l: Layer, u: nat) {
    Did(l.buf.q.aqm.log, u, Drop) ==>
      Holds(l.buf.q.lanes.dropped, u) || Spoiled(l.ho.out, u) || ToldDrop(l.ho.verdicts, u)
  }

  ghost predicate ToldRightly(vs: seq<Verdict>, u: nat, b: Buffer) {
    forall i :: 0 <= i < |vs| && vs[i].pkt.uid == u ==> Served([vs[i].pkt], u, b) && vs[i].kind == KindOf(vs[i].pkt)
  }

  ghost predicate BlocksServed(s: seq<HarqPkt>, u: nat, b: Buffer) {
    forall i :: 0 <= i < |s| ==> Served(s[i].pkts, u, b)
  }

  ghost predicate Heeded(l: Layer, u: nat) {
    && Queued(l.buf, u) && MarksOwed(l.ho.ingress, u, false)
    && BlocksServed(l.harq.buf, u, l.buf) && Served(l.ho.out, u, l.buf) && ToldRightly(l.ho.verdicts, u, l.buf)
    && DropKept(l, u)
  }

  // ----- the dequeue -----

  lemma NoSignalNoMark(log: seq<Service>, u: nat)
    requires Signals(log, u) == 0
    ensures forall j :: 0 <= j < |log| && log[j].uid == u ==> log[j].action == Pass
  {
    SignalledHasSignal(log, u);
    forall j | 0 <= j < |log| && log[j].uid == u
      ensures log[j].action == Pass
    {
      assert log[j] in log;
    }
  }

  // What a dequeue leaves and hands out, as one packet's history sees it.
  ghost predicate Dequeued(q: DualQ, q': DualQ, r: Option<IpPkt>, u: nat) {
    var log' := q'.aqm.log; var marked := Did(log', u, Mark);
    && q.aqm.log <= log' && q.lanes.dropped <= q'.lanes.dropped
    && MarksOwed(q'.lanes.l, u, marked) && MarksOwed(q'.lanes.c, u, marked) && MarksOwed(q'.lanes.dropped, u, marked)
    && (r.Some? ==> MarksOwed([r.value], u, marked) && PassesOwed([r.value], u, PassedUnmarked(log', u)))
    && (Did(log', u, Drop) ==> Did(q.aqm.log, u, Drop) || Holds(q'.lanes.dropped, u))
  }

  ghost predicate Backed(q: Lanes, u: nat, marked: bool) {
    MarksOwed(q.l, u, marked) && MarksOwed(q.c, u, marked) && MarksOwed(q.dropped, u, marked)
  }

  // One more service in the history of its packet.
  lemma OneMoreService(log: seq<Service>, s: Service, p: IpPkt, u: nat)
    requires s.uid == p.uid && MarksOwed([p], u, Did(log, u, Mark))
    requires p.uid == u && !p.ceMarked ==> Signals(log, u) == 0
    ensures var log', t := log + [s], Treated(p, s.action);
            && MarksOwed([t], u, Did(log', u, Mark))
            && (s.action != Drop ==> PassesOwed([t], u, PassedUnmarked(log', u)))
            && (Did(log', u, Drop) ==> Did(log, u, Drop) || (p.uid == u && s.action == Drop))
            && (Did(log, u, Mark) ==> Did(log', u, Mark))
  {
    hide Signals;
    var log' := log + [s];
    HistoryGrows(log, log', u);
    assert log'[|log|] == s;
    assert [p][0] == p;
    if p.uid == u && !p.ceMarked {
      NoSignalNoMark(log, u);
      if s.action == Pass {
        assert log'[|log|].uid == u && forall j :: 0 <= j < |log| && log'[j].uid == u ==> log'[j].action != Mark;
      }
    }
  }

  lemma HeadTaken(q: Lanes, fromL4s: bool, u: nat, marked: bool)
    requires Backed(q, u, marked) && if fromL4s then q.l != [] else q.c != []
    ensures var (rest, p) := q.TakeHead(fromL4s);
            && Backed(rest, u, marked) && MarksOwed([p], u, marked) && rest.dropped == q.dropped
            && Measure(Unmarked(u), p) <= Weigh(Unmarked(u), q.l) + Weigh(Unmarked(u), q.c)
  {
    WeighMember(Unmarked(u), if fromL4s then q.l else q.c, 0);
  }

  lemma VictimJoins(rest: Lanes, p: IpPkt, u: nat, marked: bool)
    requires Backed(rest, u, marked) && MarksOwed([p], u, marked)
    ensures Backed(rest.(dropped := rest.dropped + [p]), u, marked) && (p.uid == u ==> Holds(rest.dropped + [p], u))
  {
    assert (rest.dropped + [p])[|rest.dropped|] == p == [p][0];
  }

  lemma ServeOneDequeues(q: DualQ, u: nat)
    requires q.HasPkts() && Backed(q.lanes, u, Did(q.aqm.log, u, Mark))
    requires Signals(q.aqm.log, u) + Weigh(Unmarked(u), q.lanes.l) + Weigh(Unmarked(u), q.lanes.c) <= 1
    ensures Dequeued(q, q.ServeOne().0, q.ServeOne().1, u)
  {
    hide Signals, Weigh, Aqm.Judge, Lanes.TakeHead, Holds, Did, PassedUnmarked;
    var fromL4s := ChooseL4s(q.cfg, q.lanes.l, q.lanes.c, q.now, q.aqm.lastClassicT);
    var (rest, p) := q.lanes.TakeHead(fromL4s);
    var s := q.Serving(p, fromL4s);
    JudgeLogs(q.aqm, q.cfg, q.unitDist, p, s);
    var action := q.aqm.Judge(q.cfg, q.unitDist, p, s).1;
    HeadTaken(q.lanes, fromL4s, u, Did(q.aqm.log, u, Mark));
    OneMoreService(q.aqm.log, s.(action := action), p, u);
    var log' := q.aqm.log + [s.(action := action)];
    MoreMarked(rest, u, Did(q.aqm.log, u, Mark), Did(log', u, Mark));
    if action == Drop {
      VictimJoins(rest, Treated(p, Drop), u, Did(log', u, Mark));
    }
  }

  lemma MoreMarked(q: Lanes, u: nat, before: bool, after: bool)
    requires Backed(q, u, before) && (before ==> after)
    ensures Backed(q, u, after)
  {
  }

  lemma DequeuedTwice(q: DualQ, q1: DualQ, q2: DualQ, r: Option<IpPkt>, u: nat)
    requires Dequeued(q, q1, None, u) && Dequeued(q1, q2, r, u)
    ensures Dequeued(q, q2, r, u)
  {
    hide MarksOwed, PassesOwed, Did, PassedUnmarked;
    assert forall i :: 0 <= i < |q1.lanes.dropped| ==> q2.lanes.dropped[i] == q1.lanes.dropped[i];
  }

  lemma {:induction false} PopNextDequeues(q: DualQ, u: nat)
    requires Sound(q) && Backed(q.lanes, u, Did(q.aqm.log, u, Mark))
    requires Signals(q.aqm.log, u) + Weigh(Unmarked(u), q.lanes.l) + Weigh(Unmarked(u), q.lanes.c) <= 1
    ensures Dequeued(q, q.PopNext().0, q.PopNext().1, u)
    decreases |q.lanes.l| + |q.lanes.c|
  {
    hide Sound, Signals, Weigh, DualQ.ServeOne, MarksOwed, PassesOwed, Did, PassedUnmarked, Holds;
    if q.HasPkts() {
      ServeOneDequeues(q, u);
      var (q', served) := q.ServeOne();
      if served.None? {
        ServeOneKeeps(q, u);
        PopNextDequeues(q', u);
        DequeuedTwice(q, q', q'.PopNext().0, q'.PopNext().1, u);
      }
    } else {
      assert q.PopNext() == (q, None);
    }
  }

  lemma ServeOneKeeps(q: DualQ, u: nat)
    requires Sound(q) && q.HasPkts() && q.ServeOne().1.None?
    requires Signals(q.aqm.log, u) + Weigh(Unmarked(u), q.lanes.l) + Weigh(Unmarked(u), q.lanes.c) <= 1
    ensures var q' := q.ServeOne().0;
            Sound(q') && Signals(q'.aqm.log, u) + Weigh(Unmarked(u), q'.lanes.l) + Weigh(Unmarked(u), q'.lanes.c) <= 1
  {
    hide AqmSound, DualQ.ServeOne, Weigh, Signals;
    var rest, p, action := ServeOneStages(q, Unmarked(u));
  }

  // ----- the packing loop -----

  // What an operation that hands out `out` leaves in the buffer, as one packet's history sees it.
  ghost predicate HandedOut(b: Buffer, b': Buffer, out: seq<IpPkt>, u: nat) {
    && Queued(b', u) && Served(out, u, b') && b'.dual == b.dual
    && b.q.aqm.log <= b'.q.aqm.log && b.q.lanes.dropped <= b'.q.lanes.dropped
    && (Did(b'.q.aqm.log, u, Drop) ==> Did(b.q.aqm.log, u, Drop) || Holds(b'.q.lanes.dropped, u))
  }

  lemma PopNextHandsOut(b: Buffer, u: nat)
    requires Sound(b.q) && Queued(b, u) && Signals(b.q.aqm.log, u) + Waiting(Unmarked(u), b) <= 1
    ensures var (b', r) := b.PopNext(); HandedOut(b, b', if r.Some? then [r.value] else [], u)
  {
    hide Sound, Signals, Weigh, DualQ.PopNext, Did, PassedUnmarked;
    if b.dual {
      PopNextDequeues(b.q, u);
      hide Holds;
      var (q', r) := b.q.PopNext();
      assert MarksOwed(b.fifo, u, Did(q'.aqm.log, u, Mark)) by {
        HistoryGrows(b.q.aqm.log, q'.aqm.log, u);
      }
    }
  }

  lemma RequeueKeepsQueued(b: Buffer, p: IpPkt, u: nat)
    requires Queued(b, u) && MarksOwed([p], u, Did(b.q.aqm.log, u, Mark))
    ensures var b' := b.Requeue(p);
            && Queued(b', u) && b'.q.aqm == b.q.aqm && b'.q.lanes.dropped == b.q.lanes.dropped && b'.dual == b.dual
  {
    hide Did;
    assert [p][0] == p;
  }

  lemma PieceServed(p: IpPkt, bits: Bits, rest: seq<IpPkt>, u: nat, b: Buffer)
    requires Served([p], u, b)
    ensures Served(rest, u, b) ==> Served([Whole(p)] + rest, u, b)
    ensures Served([Fragment(p, bits)], u, b)
    ensures bits < p.size ==> MarksOwed([Remainder(p, bits)], u, Did(b.q.aqm.log, u, Mark))
  {
    hide Did, PassedUnmarked;
    assert [p][0] == p;
  }

  // What was served before more happened at the queue.
  lemma ServedStill(s: seq<IpPkt>, u: nat, b: Buffer, b': Buffer)
    requires Served(s, u, b) && b.q.aqm.log <= b'.q.aqm.log && b'.dual == b.dual
    ensures Served(s, u, b')
  {
    HistoryGrows(b.q.aqm.log, b'.q.aqm.log, u);
    hide Did, PassedUnmarked;
  }

  lemma HandedOutTwice(b: Buffer, b1: Buffer, b2: Buffer, p: IpPkt, rest: seq<IpPkt>, u: nat)
    requires HandedOut(b, b1, [p], u) && HandedOut(b1, b2, rest, u)
    ensures HandedOut(b, b2, [Whole(p)] + rest, u)
  {
    hide Did, PassedUnmarked, Queued;
    ServedStill([p], u, b1, b2);
    PieceServed(p, 1, rest, u, b2);
    assert forall i :: 0 <= i < |b1.q.lanes.dropped| ==> b2.q.lanes.dropped[i] == b1.q.lanes.dropped[i];
    hide Served;
  }

  lemma CutHandsOut(b: Buffer, b1: Buffer, p: IpPkt, bits: Bits, u: nat)
    requires HandedOut(b, b1, [p], u) && bits < p.size
    ensures HandedOut(b, b1.Requeue(Remainder(p, bits)), [Fragment(p, bits)], u)
  {
    hide Did, PassedUnmarked, Queued, Holds, Buffer.Requeue;
    PieceServed(p, bits, [], u, b1);
    RequeueKeepsQueued(b1, Remainder(p, bits), u);
    ServedStill([Fragment(p, bits)], u, b1, b1.Requeue(Remainder(p, bits)));
  }

  lemma NothingHandedOut(b: Buffer, u: nat)
    requires Queued(b, u)
    ensures HandedOut(b, b, [], u)
  {
  }

  lemma StillQueued(b: Buffer, b': Buffer, out: seq<IpPkt>, u: nat)
    requires HandedOut(b, b', out, u)
    ensures Queued(b', u)
  {
  }

  lemma {:induction false} FillHandsOut(b: Buffer, bits: nat, u: nat)
    requires Sound(b.q) && Queued(b, u) && (forall p :: p in b.fifo ==> p.EcnConsistent())
    requires Signals(b.q.aqm.log, u) + Waiting(Unmarked(u), b) <= 1
    ensures HandedOut(b, b.Fill(bits).0, b.Fill(bits).1, u)
    decreases bits
  {
    hide Sound, Queued, HandedOut, Buffer.PopNext, Buffer.Requeue, Signals, Waiting, Did, IpPkt.EcnConsistent;
    if bits > 0 && b.HasPkts() {
      PopNextHandsOut(b, u);
      PopNextBooks(b, Unmarked(u));
      var (b1, next) := b.PopNext();
      StillQueued(b, b1, if next.Some? then [next.value] else [], u);
      if next.Some? {
        if next.value.size <= bits {
          FillHandsOut(b1, bits - next.value.size, u);
          HandedOutTwice(b, b1, b1.Fill(bits - next.value.size).0, next.value, b1.Fill(bits - next.value.size).1, u);
        } else {
          CutHandsOut(b, b1, next.value, bits, u);
        }
      }
    } else {
      NothingHandedOut(b, u);
    }
  }

  lemma GetPktsHandsOut(b: Buffer, grant: nat, u: nat)
    requires BufferSound(b) && Queued(b, u) && Signals(b.q.aqm.log, u) + Waiting(Unmarked(u), b) <= 1
    ensures HandedOut(b, b.GetPkts(grant).0, b.GetPkts(grant).1, u)
  {
    hide Sound, Signals, Waiting, Held, Did, PassedUnmarked, Holds, MarksOwed, PassesOwed, Buffer.Fill;
    FillHandsOut(b, grant, u);
  }

  // ----- reassembly -----

  lemma RemoveDataHeeds(out: seq<IpPkt>, p: IpPkt, u: nat, b: Buffer)
    requires Served(out, u, b) && MarksOwed([p], u, Did(b.q.aqm.log, u, Mark))
    ensures Served(RemoveData(out, p), u, b)
    ensures Spoiled(out, u) || p.uid == u ==> Spoiled(RemoveData(out, p), u)
  {
    hide Did, PassedUnmarked;
    assert [p][0] == p;
    var i, out' := FindUid(out, p.uid), RemoveData(out, p);
    assert out'[i].uid == p.uid && out'[i].erase;
    assert forall j :: 0 <= j < |out| && j != i ==> out'[j] == out[j];
  }

  lemma AddDataHeeds(out: seq<IpPkt>, p: IpPkt, u: nat, b: Buffer)
    requires Served(out, u, b) && Served([p], u, b)
    ensures Served(AddData(out, p), u, b)
    ensures Spoiled(out, u) ==> Spoiled(AddData(out, p), u)
  {
    hide Did, PassedUnmarked;
    assert [p][0] == p;
    var i, out' := FindUid(out, p.uid), AddData(out, p);
    assert forall j :: 0 <= j < |out| && j != i ==> out'[j] == out[j];
    if Spoiled(out, u) {
      var j :| 0 <= j < |out| && out[j].uid == u && out[j].erase;
      assert out'[j].uid == u && out'[j].erase;
    }
  }

  lemma FirstPiece(pkts: seq<IpPkt>, tOut: real, ipT: real, u: nat, b: Buffer)
    requires pkts != []
    ensures Served(pkts, u, b) ==> Served([Stamped(pkts[0], tOut, ipT)], u, b) && Served(pkts[1..], u, b)
    ensures var marked := Did(b.q.aqm.log, u, Mark);
            MarksOwed(pkts, u, marked) ==>
              MarksOwed([Stamped(pkts[0], tOut, ipT)], u, marked) && MarksOwed(pkts[1..], u, marked)
  {
    hide Did, PassedUnmarked;
    assert forall i :: 0 <= i < |pkts[1..]| ==> pkts[1..][i] == pkts[i + 1];
  }

  lemma {:induction false} RemoveAllHeeds(out: seq<IpPkt>, pkts: seq<IpPkt>, tOut: real, ipT: real, u: nat, b: Buffer)
    requires Served(out, u, b) && MarksOwed(pkts, u, Did(b.q.aqm.log, u, Mark))
    ensures Served(RemoveAll(out, pkts, tOut, ipT), u, b)
    ensures Spoiled(out, u) || Holds(pkts, u) ==> Spoiled(RemoveAll(out, pkts, tOut, ipT), u)
    decreases |pkts|
  {
    hide Served, MarksOwed, RemoveData, Spoiled, Did;
    if pkts != [] {
      FirstPiece(pkts, tOut, ipT, u, b);
      RemoveDataHeeds(out, Stamped(pkts[0], tOut, ipT), u, b);
      RemoveAllHeeds(RemoveData(out, Stamped(pkts[0], tOut, ipT)), pkts[1..], tOut, ipT, u, b);
      if Holds(pkts, u) && pkts[0].uid != u {
        var i :| 0 <= i < |pkts| && pkts[i].uid == u;
        assert pkts[1..][i - 1].uid == u;
      }
    }
  }

  lemma {:induction false} AddAllHeeds(out: seq<IpPkt>, pkts: seq<IpPkt>, tOut: real, ipT: real, u: nat, b: Buffer)
    requires Served(out, u, b) && Served(pkts, u, b)
    ensures Served(AddAll(out, pkts, tOut, ipT), u, b)
    ensures Spoiled(out, u) ==> Spoiled(AddAll(out, pkts, tOut, ipT), u)
    decreases |pkts|
  {
    hide Served, AddData, Spoiled;
    if pkts != [] {
      FirstPiece(pkts, tOut, ipT, u, b);
      AddDataHeeds(out, Stamped(pkts[0], tOut, ipT), u, b);
      AddAllHeeds(AddData(out, Stamped(pkts[0], tOut, ipT)), pkts[1..], tOut, ipT, u, b);
    }
  }

  lemma SortHeeds(out: seq<IpPkt>, u: nat, b: Buffer)
    requires Served(out, u, b)
    ensures Served(SortByUid(out), u, b)
    ensures Spoiled(out, u) ==> Spoiled(SortByUid(out), u)
  {
    hide SortByUid, Did, PassedUnmarked;
    SortKeepsMembers(out);
    var r := SortByUid(out);
    forall i | 0 <= i < |r|
      ensures r[i] in out
    {
      assert r[i] in r;
    }
    if Spoiled(out, u) {
      var i :| 0 <= i < |out| && out[i].uid == u && out[i].erase;
      assert out[i] in r;
    }
  }

  // Whatever is handed to reassembly, a packet's entries stay explained and its spoiled ones spoiled.
  lemma DropHeeds(h: Handler, block: HarqPkt, u: nat, b: Buffer)
    requires Served(h.out, u, b) && MarksOwed(block.pkts, u, Did(b.q.aqm.log, u, Mark))
    ensures var h' := h.DropBlock(block);
            && h' == h.(out := h'.out) && Served(h'.out, u, b)
            && (Spoiled(h.out, u) || Holds(block.pkts, u) ==> Spoiled(h'.out, u))
  {
    hide Served, MarksOwed, Spoiled, Holds, Did, RemoveAll;
    RemoveAllHeeds(h.out, block.pkts, block.tOut, block.ipT, u, b);
  }

  lemma PushHeeds(h: Handler, block: HarqPkt, jitter: real, u: nat, b: Buffer)
    requires Served(h.out, u, b) && Served(block.pkts, u, b)
    ensures var h' := h.Push(block, jitter);
            && h' == h.(out := h'.out, delivered := h'.delivered) && Served(h'.out, u, b)
            && (Spoiled(h.out, u) ==> Spoiled(h'.out, u))
  {
    hide Served, Spoiled, AddAll, SortByUid, ReleaseTime;
    AddAllHeeds(h.out, block.pkts, ReleaseTime(block, jitter), block.ipT, u, b);
    SortHeeds(AddAll(h.out, block.pkts, ReleaseTime(block, jitter), block.ipT), u, b);
  }

  // ----- the pipeline's steps -----

  lemma CapturedHeeds(l: Layer, info: Info, payload: seq<Byte>, u: nat)
    requires Heeded(l, u)
    ensures Heeded(l.Captured(info, payload), u)
  {
    hide Queued, Served, BlocksServed, ToldRightly, Did, Holds, Spoiled, ToldDrop;
  }

  // What was explained before more happened at the queue.
  lemma EarlierStill(l: Layer, b: Buffer, u: nat)
    requires Heeded(l, u) && l.buf.q.aqm.log <= b.q.aqm.log && b.dual == l.buf.dual
    ensures BlocksServed(l.harq.buf, u, b) && Served(l.ho.out, u, b) && ToldRightly(l.ho.verdicts, u, b)
  {
    hide Served, Queued, DropKept;
    ServedStill(l.ho.out, u, l.buf, b);
    forall i | 0 <= i < |l.harq.buf|
      ensures Served(l.harq.buf[i].pkts, u, b)
    {
      ServedStill(l.harq.buf[i].pkts, u, l.buf, b);
    }
    forall i | 0 <= i < |l.ho.verdicts| && l.ho.verdicts[i].pkt.uid == u
      ensures Served([l.ho.verdicts[i].pkt], u, b)
    {
      ServedStill([l.ho.verdicts[i].pkt], u, l.buf, b);
    }
  }

  // A step that only moves pieces, without a dequeue.
  lemma SameLogHeeds(l: Layer, l': Layer, u: nat)
    requires Heeded(l, u) && l'.buf.q.aqm.log == l.buf.q.aqm.log && l'.buf.dual == l.buf.dual
    requires Queued(l'.buf, u) && MarksOwed(l'.ho.ingress, u, false)
    requires l'.harq.buf == l.harq.buf && Served(l'.ho.out, u, l'.buf) && l'.ho.verdicts == l.ho.verdicts
    requires Spoiled(l.ho.out, u) ==> Spoiled(l'.ho.out, u)
    requires Holds(l.buf.q.lanes.dropped, u) ==> Holds(l'.buf.q.lanes.dropped, u) || Spoiled(l'.ho.out, u)
    ensures Heeded(l', u)
  {
    hide Served, Queued, Spoiled, Holds, BlocksServed, ToldRightly;
    EarlierStill(l, l'.buf, u);
  }

  lemma {:induction false} IngestHeeds(h: Handler, u: nat)
    requires MarksOwed(h.ingress, u, false)
    ensures MarksOwed(h.Ingest().ingress, u, false) && h.Ingest().out == h.out && h.Ingest().verdicts == h.verdicts
    decreases |h.store.captured|
  {
    if h.store.captured != [] {
      IngestHeeds(h.(store := h.store.Pop().0).IngestOne(h.store.captured[0]), u);
    }
  }

  lemma TickHeeds(l: Layer, t: real, u: nat)
    requires Heeded(l, u)
    ensures Heeded(l.Tick(t), u)
  {
    hide BlocksServed, ToldRightly, Spoiled, Holds, Handler.Ingest, Buffer.StepTo, Did, PassedUnmarked;
    StepKeepsQueues(l.buf, t);
    IngestHeeds(l.ho.(now := t), u);
    SameLogHeeds(l, l.Tick(t), u);
  }

  lemma RestOwed(s: seq<IpPkt>, u: nat, marked: bool)
    requires s != [] && MarksOwed(s, u, marked)
    ensures MarksOwed([s[0]], u, marked) && MarksOwed(s[1..], u, marked)
  {
  }

  lemma DrainOneHeeds(l: Layer, u: nat)
    requires Heeded(l, u) && l.ho.ingress != []
    ensures Heeded(l.DrainOne(), u)
  {
    var p := l.ho.ingress[0];
    RestOwed(l.ho.ingress, u, false);
    assert MarksOwed([p], u, Did(l.buf.q.aqm.log, u, Mark)) by {
      hide Did;
    }
    hide BlocksServed, ToldRightly, Holds, Did, PassedUnmarked, Queued, SortByUid, Buffer.Requeue;
    if l.buf.Fits(p) {
      StillQueuedAt(l.buf, l.buf.curSize + p.size, u);
      RequeueKeepsQueued(l.buf.(curSize := l.buf.curSize + p.size), p, u);
      ServedStill(l.ho.out, u, l.buf, l.DrainOne().buf);
    } else {
      var e := p.(erase := true, tOut := l.ho.now);
      SpoiledJoins(l.ho.out, e, u, l.buf);
      SortHeeds(l.ho.out + [e], u, l.buf);
    }
    hide Served, Spoiled;
    SameLogHeeds(l, l.DrainOne(), u);
  }

  lemma StillQueuedAt(b: Buffer, n: int, u: nat)
    requires Queued(b, u)
    ensures Queued(b.(curSize := n), u)
  {
  }

  lemma SpoiledJoins(out: seq<IpPkt>, e: IpPkt, u: nat, b: Buffer)
    requires Served(out, u, b) && e.erase && (e.uid == u ==> !e.ceMarked)
    ensures Served(out + [e], u, b) && (Spoiled(out, u) ==> Spoiled(out + [e], u))
  {
    hide Did, PassedUnmarked;
    if Spoiled(out, u) {
      var i :| 0 <= i < |out| && out[i].uid == u && out[i].erase;
      assert (out + [e])[i] == out[i];
    }
  }

  lemma PopOldestLeaves(b: Buffer, u: nat)
    requires Queued(b, u) && b.HasPkts()
    ensures var (b', p) := b.PopOldest();
            && p.Some? && Queued(b', u) && MarksOwed([p.value], u, Did(b.q.aqm.log, u, Mark))
            && b'.q.aqm.log == b.q.aqm.log && b'.dual == b.dual && b'.q.lanes.dropped == b.q.lanes.dropped
  {
    hide Did;
  }

  lemma DropOldestHeeds(l: Layer, u: nat)
    requires Heeded(l, u) && l.buf.HasPkts()
    ensures Heeded(l.DropOldest(), u)
  {
    hide BlocksServed, ToldRightly, Holds, Did, PassedUnmarked, Queued, Spoiled, Served, Buffer.PopOldest, MarksOwed,
         Handler.DropBlock, Buffer.OldestTimestamp;
    PopOldestLeaves(l.buf, u);
    var (b, p) := l.buf.PopOldest();
    var block := BlockOf(l.nextId, l.buf.OldestTimestamp(), l.now, l.bhD, l.bhVar, [p.value]);
    ServedStill(l.ho.out, u, l.buf, b);
    DropHeeds(l.ho, block, u, b);
    SameLogHeeds(l, l.DropOldest(), u);
  }

  lemma VictimLeaves(b: Buffer, u: nat)
    requires Queued(b, u) && b.PopAqmDropped().1.Some?
    ensures var (b', p) := b.PopAqmDropped();
            && Queued(b', u) && MarksOwed([p.value], u, Did(b.q.aqm.log, u, Mark))
            && b'.q.aqm.log == b.q.aqm.log && b'.dual == b.dual
            && (Holds(b.q.lanes.dropped, u) ==> Holds(b'.q.lanes.dropped, u) || Holds([p.value], u))
  {
    hide Did;
    var dropped := b.q.lanes.dropped;
    assert [dropped[0]][0] == dropped[0];
    if Holds(dropped, u) {
      var i :| 0 <= i < |dropped| && dropped[i].uid == u;
      assert i > 0 ==> dropped[1..][i - 1].uid == u;
    }
  }

  lemma CollectOneHeeds(l: Layer, u: nat)
    requires Heeded(l, u) && l.buf.PopAqmDropped().1.Some?
    ensures Heeded(l.CollectOne(), u) && l.CollectOne().buf.q.aqm.log == l.buf.q.aqm.log
    ensures l.CollectOne().buf.dual == l.buf.dual
  {
    hide BlocksServed, ToldRightly, Holds, Did, PassedUnmarked, Queued, Spoiled, Served, Buffer.PopAqmDropped,
         MarksOwed, Handler.DropBlock;
    VictimLeaves(l.buf, u);
    var (b, p) := l.buf.PopAqmDropped();
    ServedStill(l.ho.out, u, l.buf, b);
    DropHeeds(l.ho, AqmBlock(p.value, b.now), u, b);
    SameLogHeeds(l, l.CollectOne(), u);
  }

  lemma DropExpiredBlockHeeds(l: Layer, u: nat)
    requires Heeded(l, u) && LateBlock(l)
    ensures Heeded(l.DropExpiredBlock(), u)
  {
    hide ToldRightly, Holds, Did, PassedUnmarked, Queued, Spoiled, MarksOwed, PassesOwed, Handler.DropBlock;
    var (h, b) := l.harq.PopOlderThan(l.now - l.budget);
    var i := FirstOlder(l.harq.buf, l.now - l.budget);
    assert forall j :: 0 <= j < |h.buf| ==> h.buf[j] == l.harq.buf[if j < i then j else j + 1];
    assert b.value == l.harq.buf[i];
    hide Harq.PopOlderThan;
    DropHeeds(l.ho, b.value, u, l.buf);
  }

  lemma StepHeeds(l: Layer, t: real, u: nat)
    requires Heeded(l, u)
    ensures Heeded(l.StepTo(t), u)
  {
    hide Heeded, Layer.Tick, Layer.StepTo, Layer.DrainOne, Layer.CollectOne, Layer.DropOldest, Layer.DropExpiredBlock,
         Harq.PopOlderThan;
    TickHeeds(l, t, u);
    forall k: Layer | Heeded(k, u)
      ensures k.ho.ingress != [] ==> Heeded(k.DrainOne(), u)
      ensures k.buf.PopAqmDropped().1.Some? ==> Heeded(k.CollectOne(), u)
      ensures LateHead(k) ==> Heeded(k.DropOldest(), u)
      ensures LateBlock(k) ==> Heeded(k.DropExpiredBlock(), u)
    {
      if k.ho.ingress != [] { DrainOneHeeds(k, u); }
      if k.buf.PopAqmDropped().1.Some? { CollectOneHeeds(k, u); }
      if LateHead(k) { DropOldestHeeds(k, u); }
      if LateBlock(k) { DropExpiredBlockHeeds(k, u); }
    }
    StepInduction(l, t, (k: Layer) => Heeded(k, u));
  }

  lemma GrantHeeds(l: Layer, grant: nat, u: nat)
    requires Shape(l) && Books(l, u) && Heeded(l, u)
    ensures var (b, out) := l.buf.GetPkts(grant);
            Heeded(l.(buf := b, nextId := l.nextId + 1), u) && Served(out, u, b)
  {
    var (b, out) := l.buf.GetPkts(grant);
    assert Signals(l.buf.q.aqm.log, u) + Waiting(Unmarked(u), l.buf) <= 1;
    hide Shape, Books, Buffer.GetPkts, Did, PassedUnmarked, Signals, Waiting, MarksOwed, PassesOwed, Spoiled, ToldDrop;
    ShapeIsSound(l);
    GetPktsHandsOut(l.buf, grant, u);
    EarlierStill(l, b, u);
    assert forall i :: 0 <= i < |l.buf.q.lanes.dropped| ==> b.q.lanes.dropped[i] == l.buf.q.lanes.dropped[i];
    hide BlocksServed, ToldRightly, Queued;
  }

  lemma ShapeIsSound(l: Layer)
    requires Shape(l)
    ensures BufferSound(l.buf)
  {
  }

  lemma CollectHeeds(l: Layer, u: nat)
    requires Heeded(l, u)
    ensures var l' := l.CollectDropped();
            Heeded(l', u) && l'.buf.q.aqm.log == l.buf.q.aqm.log && l'.buf.dual == l.buf.dual
  {
    hide Heeded, Layer.CollectOne, Layer.CollectDropped;
    var inv := (k: Layer) => Heeded(k, u) && k.buf.q.aqm.log == l.buf.q.aqm.log && k.buf.dual == l.buf.dual;
    forall k: Layer | inv(k) && k.buf.PopAqmDropped().1.Some?
      ensures inv(k.CollectOne())
    {
      CollectOneHeeds(k, u);
    }
    CollectInduction(l, inv);
  }

  lemma BlockLandsHeeded(l: Layer, block: HarqPkt, radio: Radio, u: nat)
    requires Heeded(l, u) && Served(block.pkts, u, l.buf)
    ensures Heeded(l.(ho := l.ho.DropBlock(block)), u)
    ensures Heeded(l.(harq := l.harq.AddPkts(block, radio.ackDelay)), u)
    ensures Heeded(l.(ho := l.ho.Push(block, radio.jitter)), u)
  {
    hide ToldRightly, Holds, Did, PassedUnmarked, Queued, Spoiled, MarksOwed, PassesOwed, Handler.DropBlock,
         Handler.Push;
    DropHeeds(l.ho, block, u, l.buf);
    PushHeeds(l.ho, block, radio.jitter, u, l.buf);
  }

  lemma TurnHeeds(l: Layer, bits: real, radio: Radio, u: nat)
    requires Shape(l) && Books(l, u) && Heeded(l, u) && bits > 0.0 && l.buf.HasPkts()
    ensures Heeded(l.Turn(bits, radio).0, u)
  {
    hide Shape, Books, Heeded, Buffer.GetPkts, Layer.CollectDropped, Buffer.HasPkts, Handler.DropBlock, Handler.Push,
         Harq.AddPkts, Buffer.OldestTimestamp, MarksOwed, PassesOwed, Did, PassedUnmarked;
    var (b, out) := l.buf.GetPkts(bits.Floor);
    GrantHeeds(l, bits.Floor, u);
    var l1 := l.(buf := b, nextId := l.nextId + 1);
    CollectHeeds(l1, u);
    ServedStill(out, u, b, l1.CollectDropped().buf);
    CollectKeepsQueues(l1);
    BlockLandsHeeded(l1.CollectDropped(),
                     BlockOf(l.nextId, l.buf.OldestTimestamp(), l.now, l.bhD, l.bhVar, out), radio, u);
  }

  lemma ServeNewHeeds(l: Layer, bits: real, radio: Radio, u: nat)
    requires Shape(l) && Books(l, u) && Heeded(l, u) && l.Halts(bits)
    ensures Heeded(l.ServeNew(bits, radio).0, u)
  {
    hide Shape, Books, Heeded, Layer.Turn, Layer.ServeNew;
    var inv := (k: Layer) => Shape(k) && Books(k, u) && Heeded(k, u);
    forall k: Layer | inv(k) && bits > 0.0 && k.buf.HasPkts()
      ensures inv(k.Turn(bits, radio).0)
    {
      TurnKeeps(k, bits, radio, u);
      TurnHeeds(k, bits, radio, u);
    }
    GrantInduction(l, bits, radio, inv);
  }

  lemma ServeAgainHeeds(l: Layer, radio: Radio, u: nat)
    requires Heeded(l, u) && l.harq.buf != []
    ensures Heeded(l.ServeAgain(radio).0, u)
  {
    hide ToldRightly, Served, Did, Queued, Handler.DropBlock, Handler.Push, DropKept;
    var (h, b) := l.harq.GetPkt();
    assert forall j :: 0 <= j < |h.buf| ==> h.buf[j] == l.harq.buf[j + 1];
    var l1 := l.(harq := h);
    assert Heeded(l1, u) by {
      hide MarksOwed;
      SameDrops(l, l1, u);
    }
    hide Heeded, BlocksServed;
    BlockLandsHeeded(l1, b, radio, u);
    BlockLandsHeeded(l1, b.(nTx := b.nTx + 1), radio, u);
  }

  lemma SameDrops(l: Layer, l': Layer, u: nat)
    requires DropKept(l, u) && l'.buf == l.buf && l'.ho == l.ho
    ensures DropKept(l', u)
  {
  }

  lemma ReleaseFrontHeeds(l: Layer, u: nat)
    requires Heeded(l, u) && l.ho.out != []
    ensures Heeded(l.(ho := l.ho.ReleaseFront()), u)
  {
    hide Did, PassedUnmarked, Queued, BlocksServed, Store.Verdict, Holds;
    var out, h' := l.ho.out, l.ho.ReleaseFront();
    var rest, vs, told := out[1..], h'.verdicts, |l.ho.verdicts|;
    assert forall i :: 0 <= i < |rest| ==> rest[i] == out[i + 1];
    assert vs[told].pkt == out[0] && forall i :: 0 <= i < told ==> vs[i] == l.ho.verdicts[i];
    assert [out[0]][0] == out[0];
    if Spoiled(out, u) {
      var i :| 0 <= i < |out| && out[i].uid == u && out[i].erase;
      if i > 0 {
        assert rest[i - 1].uid == u && rest[i - 1].erase;
      } else {
        assert vs[told].pkt.uid == u && vs[told].kind == Discarded;
      }
    }
    if ToldDrop(l.ho.verdicts, u) {
      var i :| 0 <= i < told && l.ho.verdicts[i].pkt.uid == u && l.ho.verdicts[i].kind == Discarded;
      assert vs[i] == l.ho.verdicts[i];
    }
  }

  lemma {:induction false} ReleaseHeeds(l: Layer, u: nat)
    requires Heeded(l, u)
    ensures Heeded(l.Release(), u)
    decreases |l.ho.out|
  {
    hide Heeded, Handler.ReleaseFront;
    if l.ho.FrontGoes() {
      ReleaseFrontHeeds(l, u);
      ReleaseShrinks(l.ho);
      ReleaseHeeds(l.(ho := l.ho.ReleaseFront()), u);
    }
  }

  lemma ReportHeeds(l: Layer, u: nat)
    requires Heeded(l, u)
    ensures Heeded(l.Report(), u)
  {
    hide Did, PassedUnmarked, BlocksServed, ToldRightly, Spoiled, Holds, AqmStats.Plus;
    SameLogHeeds(l, l.Report(), u);
  }

  lemma EventHeeds(l: Layer, e: Event, u: nat)
    requires Good(l) && Heeded(l, u) && Enabled(l, e)
    ensures Heeded(Apply(l, e), u)
  {
    hide Shape, Books, HarqLaws.WithinTurns, Heeded, Layer.StepTo, Layer.ServeNew, Layer.ServeAgain, Layer.Release,
         Layer.Report, Layer.Captured;
    match e
    case Capture(info, payload) => CapturedHeeds(l, info, payload, u);
    case Step(t) => StepHeeds(l, t, u);
    case Grant(bits, radio) =>
      if l.harq.IsPktReady() {
        ServeAgainHeeds(l, radio, u);
      } else {
        assert Books(l, u);
        ServeNewHeeds(l, bits, radio, u);
      }
    case Release => ReleaseHeeds(l, u);
    case Report => ReportHeeds(l, u);
  }

  // ----- every run -----

  lemma RunsHeed(l: Layer, es: seq<Event>, u: nat)
    requires Initial(l) && CanRun(l, es)
    ensures Good(Run(l, es)) && Heeded(Run(l, es), u)
  {
    hide Good, Heeded, Run, CanRun, Enabled, Apply;
    InitialIsGood(l);
    InitialHeeds(l, u);
    var inv := (k: Layer) => Good(k) && Heeded(k, u);
    forall k: Layer, e: Event | inv(k) && Enabled(k, e)
      ensures inv(Apply(k, e))
    {
      EventKeeps(k, e);
      EventHeeds(k, e, u);
    }
    RunInduction(l, es, inv);
  }

  lemma InitialHeeds(l: Layer, u: nat)
    requires Initial(l)
    ensures Heeded(l, u)
  {
  }

  // A packet with a verdict has no piece left anywhere.
  lemma NothingLeft(l: Layer, u: nat)
    requires Live(BitsOf(u), l) == 0
    ensures !Holds(l.buf.q.lanes.dropped, u) && !Spoiled(l.ho.out, u)
  {
    hide Weigh, WeighBlocks, WeighInfos;
    NoWeightNoPiece(l.buf.q.lanes.dropped, u);
    NoWeightNoPiece(l.ho.out, u);
  }

  // The packet was served unmarked, and marked later.
  ghost predicate CutThenMarked(log: seq<Service>, u: nat) {
    exists i, j :: 0 <= i < j < |log| && log[i].uid == log[j].uid == u && log[i].action == Pass && log[j].action == Mark
  }

  lemma PassedThenMarked(log: seq<Service>, u: nat)
    requires PassedUnmarked(log, u) && Did(log, u, Mark)
    ensures CutThenMarked(log, u)
  {
    var i :| 0 <= i < |log| && log[i].uid == u && log[i].action == Pass
             && forall j :: 0 <= j < i && log[j].uid == u ==> log[j].action != Mark;
    var j :| 0 <= j < |log| && log[j].uid == u && log[j].action == Mark;
    assert i < j;
  }

  /** From the AQM to the kernel, over every run in either mode, whatever fails, expires or overflows: a CE verdict
      means the AQM marked the packet; a packet the AQM dropped gets no verdict but a drop; and a marked packet that is
      accepted without the mark was served in part before it was marked. */
  lemma VerdictsHeedSignals(l: Layer, es: seq<Event>, i: nat)
    requires Initial(l) && CanRun(l, es) && i < |Run(l, es).ho.verdicts|
    ensures var r := Run(l, es); var v, log := r.ho.verdicts[i], r.buf.q.aqm.log;
            && (v.kind == AcceptedCe ==> Did(log, v.pkt.uid, Mark))
            && (Did(log, v.pkt.uid, Drop) ==> v.kind == Discarded)
            && (v.kind == Accepted && Did(log, v.pkt.uid, Mark) ==> CutThenMarked(log, v.pkt.uid))
  {
    hide Initial, Run, CanRun, Good, Live, PassedUnmarked, CutThenMarked, BlocksServed, Holds, Spoiled;
    var r := Run(l, es);
    var v, log, vs := r.ho.verdicts[i], r.buf.q.aqm.log, r.ho.verdicts;
    var u := v.pkt.uid;
    RunsHeed(l, es, u);
    BitsAreConserved(l, es, u);
    VerdictCounts(vs, i, u);
    NothingLeft(r, u);
    assert Served([v.pkt], u, r.buf) && v.kind == KindOf(v.pkt) && [v.pkt][0] == v.pkt;
    if Did(log, u, Drop) {
      var j :| 0 <= j < |vs| && vs[j].pkt.uid == u && vs[j].kind == Discarded;
      if i != j {
        VerdictsCount(vs, if i < j then i else j, if i < j then j else i, u);
      }
    }
    if v.kind == Accepted && Did(log, u, Mark) {
      PassedThenMarked(log, u);
    }
  }
}
