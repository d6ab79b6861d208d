// The order in which the dual queue serves: each lane is first in, first out, and packets of one class are first
// dequeued in the order in which they were captured.
module LaneOrder {
  import opened Packets
  import opened DualPi2
  import opened DualPi2Laws
  import opened IpBuffer
  import opened IpBufferLaws
  import opened Harq
  import opened Ipv4Ecn
  import opened Capture
  import opened CapturedHandler
  import opened CapturedHandlerLaws
  import opened IdentityLaws
  import opened PdcpLayer
  import opened PdcpInduction
  import opened PdcpRuns
  import opened PdcpLaws
  import opened PdcpTheorems
  import opened CaptureTimes

  // ----- one grant: a lane's services and what waits in it -----

  function Uids(s: seq<IpPkt>): seq<nat> {
    if s == [] then [] else [s[0].uid] + Uids(s[1..])
  }

  // The packets served from one lane, in order.
  function ServedFrom(log: seq<Service>, fromL4s: bool): seq<nat> {
    if log == [] then []
    else ServedFrom(log[..|log| - 1], fromL4s)
         + if log[|log| - 1].fromL4s == fromL4s then [log[|log| - 1].uid] else []
  }

  // Everything that went through one lane: what it served and then what waits in it.
  function Passage(q: DualQ, fromL4s: bool): seq<nat> {
    ServedFrom(q.aqm.log, fromL4s) + Uids(if fromL4s then q.lanes.l else q.lanes.c)
  }

  // What a grant puts back into a lane: the packet it cut last, if it is of that lane's class now.
  function PutBack(out: seq<IpPkt>, fromL4s: bool): seq<nat> {
    if out != [] && out[|out| - 1].isFragment && out[|out| - 1].IsL4s() == fromL4s then [out[|out| - 1].uid] else []
  }

  lemma ServedSnoc(log: seq<Service>, s: Service, fromL4s: bool)
    ensures ServedFrom(log + [s], fromL4s) == ServedFrom(log, fromL4s) + if s.fromL4s == fromL4s then [s.uid] else []
  {
    assert (log + [s])[..|log|] == log;
  }

  lemma {:induction false} UidsSnoc(s: seq<IpPkt>, p: IpPkt)
    ensures Uids(s + [p]) == Uids(s) + [p.uid]
  {
    if s == [] {
      assert s + [p] == [p];
    } else {
      UidsSnoc(s[1..], p);
      assert (s + [p])[1..] == s[1..] + [p];
    }
  }

  // The head served moves from what waits to what was served.
  lemma ServeOnePasses(q: DualQ, x: bool)
    requires q.HasPkts()
    ensures Passage(q.ServeOne().0, x) == Passage(q, x)
  {
    hide Aqm.Judge, ServedFrom;
    var fromL4s := ChooseL4s(q.cfg, q.lanes.l, q.lanes.c, q.now, q.aqm.lastClassicT);
    var p := q.lanes.TakeHead(fromL4s).1;
    var s := q.Serving(p, fromL4s);
    JudgeLogs(q.aqm, q.cfg, q.unitDist, p, s);
    ServedSnoc(q.aqm.log, s.(action := q.aqm.Judge(q.cfg, q.unitDist, p, s).1), x);
    if x == fromL4s {
      JoinAgain(ServedFrom(q.aqm.log, x), p.uid, Uids((if x then q.lanes.l else q.lanes.c)[1..]));
    } else {
      assert ServedFrom(q.aqm.log, x) + [] == ServedFrom(q.aqm.log, x);
    }
  }

  lemma JoinAgain(a: seq<nat>, u: nat, b: seq<nat>)
    ensures (a + [u]) + b == a + ([u] + b)
  {
  }

  lemma {:induction false} PopNextPasses(q: DualQ, x: bool)
    ensures Passage(q.PopNext().0, x) == Passage(q, x)
    decreases |q.lanes.l| + |q.lanes.c|
  {
    hide Passage, DualQ.ServeOne;
    if q.HasPkts() {
      ServeOnePasses(q, x);
      if q.ServeOne().1.None? {
        PopNextPasses(q.ServeOne().0, x);
      }
    }
  }

  lemma EnqueuePasses(q: DualQ, p: IpPkt, x: bool)
    ensures Passage(q.Enqueue(p), x) == Passage(q, x) + if p.IsL4s() == x then [p.uid] else []
  {
    hide ServedFrom, Uids;
    UidsSnoc(q.lanes.l, p);
    UidsSnoc(q.lanes.c, p);
  }

  lemma PutBackLast(p: IpPkt, rest: seq<IpPkt>, x: bool)
    ensures PutBack([Whole(p)] + rest, x) == PutBack(rest, x)
  {
    var all := [Whole(p)] + rest;
    assert rest != [] ==> all[|all| - 1] == rest[|rest| - 1];
  }

  /** A grant in dual mode, whatever it drops or marks on the way: from each lane it serves the packets in the order
      in which they waited there, and at most the one it cuts goes back, behind everything else in its lane. */
  lemma {:induction false} GrantServesLanesInTurn(b: Buffer, bits: nat, fromL4s: bool)
    requires b.dual
    ensures var (b', out) := b.Fill(bits);
            b'.dual && Passage(b'.q, fromL4s) == Passage(b.q, fromL4s) + PutBack(out, fromL4s)
    decreases bits
  {
    hide Passage, DualQ.PopNext, DualQ.HasPkts, DualQ.Enqueue;
    assert Passage(b.q, fromL4s) + [] == Passage(b.q, fromL4s);
    if bits > 0 && b.HasPkts() {
      PopNextPasses(b.q, fromL4s);
      var (b1, next) := b.PopNext();
      if next.Some? {
        var p := next.value;
        if p.size <= bits {
          GrantServesLanesInTurn(b1, bits - p.size, fromL4s);
          PutBackLast(p, b1.Fill(bits - p.size).1, fromL4s);
        } else {
          EnqueuePasses(b1.q, Remainder(p, bits), fromL4s);
        }
      }
    }
  }

  // ----- every run: the first services of a class -----

  predicate Unserved(log: seq<Service>, u: nat) {
    forall k :: 0 <= k < |log| ==> log[k].uid != u
  }

  predicate IsFirst(log: seq<Service>, i: nat) {
    i < |log| && forall k :: 0 <= k < i ==> log[k].uid != log[i].uid
  }

  // Captured with an L4S code point.
  predicate ArrivesL4s(seen: map<nat, Info>, u: nat) {
    u in seen && (seen[u].ecn == Ect1 || seen[u].ecn == Ce)
  }

  // What was captured, in order, and how many of these packets have left ingress.
  datatype Roll = Roll(order: seq<nat>, seen: map<nat, Info>, entered: int)

  function RollOf(h: Handler): Roll { Roll(h.store.order, h.store.seen, Entered(h)) }

  // The packets of a lane that were never served stand in the order of capture, unmarked.
  predicate LaneSorted(s: seq<IpPkt>, log: seq<Service>, r: Roll) {
    && (forall a :: 0 <= a < |s| && Unserved(log, s[a].uid) ==>
          !s[a].ceMarked && PlaceOf(r.order, s[a].uid) < r.entered)
    && (forall a, b :: 0 <= a < b < |s| && Unserved(log, s[a].uid) && Unserved(log, s[b].uid) ==>
          PlaceOf(r.order, s[a].uid) < PlaceOf(r.order, s[b].uid))
  }

  // They were captured after everything of their class that was served.
  predicate LaneBehind(s: seq<IpPkt>, l4s: bool, log: seq<Service>, r: Roll) {
    forall a, k :: 0 <= a < |s| && Unserved(log, s[a].uid)
                   && 0 <= k < |log| && ArrivesL4s(r.seen, log[k].uid) == l4s ==>
      PlaceOf(r.order, log[k].uid) < PlaceOf(r.order, s[a].uid)
  }

  predicate LaneLined(s: seq<IpPkt>, l4s: bool, log: seq<Service>, r: Roll) {
    LaneSorted(s, log, r) && LaneBehind(s, l4s, log, r)
  }

  /** First services of one class are in the order of capture. */
  predicate LogLined(log: seq<Service>, r: Roll) {
    && (forall k :: 0 <= k < |log| ==> PlaceOf(r.order, log[k].uid) < r.entered)
    && (forall i, j :: 0 <= i < j < |log| && IsFirst(log, i) && IsFirst(log, j)
                       && ArrivesL4s(r.seen, log[i].uid) == ArrivesL4s(r.seen, log[j].uid) ==>
          PlaceOf(r.order, log[i].uid) < PlaceOf(r.order, log[j].uid))
  }

  ghost predicate Lined(q: DualQ, r: Roll) {
    && LaneLined(q.lanes.l, true, q.aqm.log, r) && LaneLined(q.lanes.c, false, q.aqm.log, r)
    && LogLined(q.aqm.log, r)
  }

  lemma OneMoreServed(log: seq<Service>, v: Service, u: nat)
    ensures Unserved(log + [v], u) <==> Unserved(log, u) && v.uid != u
  {
    assert (log + [v])[|log|] == v && forall k :: 0 <= k < |log| ==> (log + [v])[k] == log[k];
  }

  // With one more service, what was never served is less.
  lemma StillSorted(s: seq<IpPkt>, log: seq<Service>, v: Service, r: Roll)
    requires LaneSorted(s, log, r)
    ensures LaneSorted(s, log + [v], r)
  {
    hide PlaceOf, Unserved;
    forall u
      ensures Unserved(log + [v], u) <==> Unserved(log, u) && v.uid != u
    {
      OneMoreServed(log, v, u);
    }
  }

  lemma StillBehind(s: seq<IpPkt>, l4s: bool, log: seq<Service>, v: Service, r: Roll)
    requires LaneBehind(s, l4s, log, r)
    requires forall a :: 0 <= a < |s| && Unserved(log, s[a].uid) && v.uid != s[a].uid
                         && ArrivesL4s(r.seen, v.uid) == l4s ==>
               PlaceOf(r.order, v.uid) < PlaceOf(r.order, s[a].uid)
    ensures LaneBehind(s, l4s, log + [v], r)
  {
    hide PlaceOf, Unserved, ArrivesL4s;
    forall u
      ensures Unserved(log + [v], u) <==> Unserved(log, u) && v.uid != u
    {
      OneMoreServed(log, v, u);
    }
    assert (log + [v])[|log|] == v && forall k :: 0 <= k < |log| ==> (log + [v])[k] == log[k];
  }

  // A packet served before is in front of every unserved one of its class.
  lemma ServedIsAhead(s: seq<IpPkt>, l4s: bool, log: seq<Service>, u: nat, r: Roll)
    requires LaneBehind(s, l4s, log, r) && !Unserved(log, u) && ArrivesL4s(r.seen, u) == l4s
    ensures forall a :: 0 <= a < |s| && Unserved(log, s[a].uid) ==> PlaceOf(r.order, u) < PlaceOf(r.order, s[a].uid)
  {
    var k :| 0 <= k < |log| && log[k].uid == u;
    hide PlaceOf, Unserved, ArrivesL4s;
  }

  lemma HeadLeaves(s: seq<IpPkt>, l4s: bool, log: seq<Service>, r: Roll)
    requires LaneLined(s, l4s, log, r) && s != []
    ensures LaneLined(s[1..], l4s, log, r)
    ensures Unserved(log, s[0].uid) ==> forall a :: 0 <= a < |s| - 1 && Unserved(log, s[1..][a].uid) ==>
        PlaceOf(r.order, s[0].uid) < PlaceOf(r.order, s[1..][a].uid)
  {
    hide PlaceOf, Unserved, ArrivesL4s;
    assert forall a :: 0 <= a < |s| - 1 ==> s[1..][a] == s[a + 1];
  }

  // The head of a lane is served.
  lemma HeadServed(s: seq<IpPkt>, l4s: bool, log: seq<Service>, v: Service, r: Roll)
    requires LaneLined(s, l4s, log, r) && s != [] && v.uid == s[0].uid
    requires Unserved(log, v.uid) ==> ArrivesL4s(r.seen, v.uid) == l4s
    ensures LaneLined(s[1..], l4s, log + [v], r)
  {
    hide PlaceOf, Unserved, ArrivesL4s, LaneSorted, LaneBehind;
    HeadLeaves(s, l4s, log, r);
    if !Unserved(log, v.uid) && ArrivesL4s(r.seen, v.uid) == l4s {
      ServedIsAhead(s[1..], l4s, log, v.uid, r);
    }
    StillSorted(s[1..], log, v, r);
    StillBehind(s[1..], l4s, log, v, r);
  }

  lemma LogGrows(s: seq<IpPkt>, l4s: bool, log: seq<Service>, v: Service, r: Roll)
    requires LaneLined(s, l4s, log, r) && LogLined(log, r) && s != [] && v.uid == s[0].uid
    requires Unserved(log, v.uid) ==> ArrivesL4s(r.seen, v.uid) == l4s
    ensures LogLined(log + [v], r)
  {
    hide PlaceOf, ArrivesL4s, LaneLined;
    var log', n := log + [v], |log|;
    assert log'[n] == v && forall k :: 0 <= k < n ==> log'[k] == log[k];
    BehindTheServed(s, l4s, log, r);
    forall i, j | 0 <= i < j < |log'| && IsFirst(log', i) && IsFirst(log', j)
                  && ArrivesL4s(r.seen, log'[i].uid) == ArrivesL4s(r.seen, log'[j].uid)
      ensures PlaceOf(r.order, log'[i].uid) < PlaceOf(r.order, log'[j].uid)
    {
      if j < n {
        assert IsFirst(log, i) && IsFirst(log, j);
      } else {
        assert Unserved(log, v.uid);
      }
    }
  }

  lemma BehindTheServed(s: seq<IpPkt>, l4s: bool, log: seq<Service>, r: Roll)
    requires LaneLined(s, l4s, log, r) && LogLined(log, r) && s != []
    ensures PlaceOf(r.order, s[0].uid) < r.entered
    ensures forall i :: 0 <= i < |log| && Unserved(log, s[0].uid) && ArrivesL4s(r.seen, log[i].uid) == l4s ==>
        PlaceOf(r.order, log[i].uid) < PlaceOf(r.order, s[0].uid)
  {
    hide PlaceOf, ArrivesL4s, IsFirst;
  }

  // The other lane does not notice.
  lemma OtherLane(s: seq<IpPkt>, l4s: bool, log: seq<Service>, v: Service, r: Roll)
    requires LaneLined(s, l4s, log, r) && (Unserved(log, v.uid) ==> ArrivesL4s(r.seen, v.uid) != l4s)
    ensures LaneLined(s, l4s, log + [v], r)
  {
    hide PlaceOf, Unserved, ArrivesL4s, LaneSorted, LaneBehind;
    if ArrivesL4s(r.seen, v.uid) == l4s {
      ServedIsAhead(s, l4s, log, v.uid, r);
    }
    StillSorted(s, log, v, r);
    StillBehind(s, l4s, log, v, r);
  }

  // A packet served before comes back to the tail.
  lemma ComesBack(s: seq<IpPkt>, l4s: bool, log: seq<Service>, p: IpPkt, r: Roll)
    requires LaneLined(s, l4s, log, r) && !Unserved(log, p.uid)
    ensures LaneLined(s + [p], l4s, log, r)
  {
    hide PlaceOf, Unserved, ArrivesL4s;
    assert forall a :: 0 <= a < |s| ==> (s + [p])[a] == s[a];
  }

  // The next packet of the order of capture joins the tail.
  lemma JoinsTail(s: seq<IpPkt>, l4s: bool, log: seq<Service>, p: IpPkt, r: Roll)
    requires LaneLined(s, l4s, log, r) && LogLined(log, r) && !p.ceMarked && PlaceOf(r.order, p.uid) == r.entered
    ensures LaneLined(s + [p], l4s, log, r.(entered := r.entered + 1))
  {
    hide PlaceOf, Unserved, ArrivesL4s, IsFirst;
    assert forall a :: 0 <= a < |s| ==> (s + [p])[a] == s[a];
  }

  // ----- the dequeue -----

  // A packet never served is of the class it arrived in.
  lemma FreshHead(q: DualQ, fromL4s: bool, r: Roll)
    requires Sound(q) && Lined(q, r) && LanesGenuine(q.lanes, r.seen)
    requires if fromL4s then q.lanes.l != [] else q.lanes.c != []
    ensures var p := q.lanes.TakeHead(fromL4s).1;
            Unserved(q.aqm.log, p.uid) ==> ArrivesL4s(r.seen, p.uid) == fromL4s
  {
    hide AqmSound, PlaceOf, Unserved, LogLined;
    var s := if fromL4s then q.lanes.l else q.lanes.c;
    assert s[0] in s && Genuine(s[0], r.seen);
  }

  lemma ServeOneLined(q: DualQ, r: Roll)
    requires Sound(q) && q.HasPkts() && Lined(q, r) && LanesGenuine(q.lanes, r.seen)
    ensures var (q', served) := q.ServeOne();
            Lined(q', r) && (served.Some? ==> !Unserved(q'.aqm.log, served.value.uid))
  {
    var fromL4s := ChooseL4s(q.cfg, q.lanes.l, q.lanes.c, q.now, q.aqm.lastClassicT);
    FreshHead(q, fromL4s, r);
    hide Sound, Aqm.Judge, LaneLined, LogLined, Unserved, ArrivesL4s, LanesGenuine, PlaceOf;
    var p := q.lanes.TakeHead(fromL4s).1;
    var s := q.Serving(p, fromL4s);
    JudgeLogs(q.aqm, q.cfg, q.unitDist, p, s);
    var v := s.(action := q.aqm.Judge(q.cfg, q.unitDist, p, s).1);
    var lane := if fromL4s then q.lanes.l else q.lanes.c;
    HeadServed(lane, fromL4s, q.aqm.log, v, r);
    LogGrows(lane, fromL4s, q.aqm.log, v, r);
    OtherLane(if fromL4s then q.lanes.c else q.lanes.l, !fromL4s, q.aqm.log, v, r);
    OneMoreServed(q.aqm.log, v, p.uid);
  }

  lemma ServeOneStays(q: DualQ, seen: map<nat, Info>)
    requires Sound(q) && q.HasPkts() && LanesGenuine(q.lanes, seen)
    ensures Sound(q.ServeOne().0) && LanesGenuine(q.ServeOne().0.lanes, seen)
  {
    hide AqmSound, DualQ.ServeOne, Weigh, Signals, Genuine, Lasting;
    var rest, p, action := ServeOneStages(q, AllBits);
    GenuineLasts(seen);
    ServeOneHolds(q, x => Genuine(x, seen));
  }

  lemma {:induction false} PopNextLined(q: DualQ, r: Roll)
    requires Sound(q) && Lined(q, r) && LanesGenuine(q.lanes, r.seen)
    ensures var (q', next) := q.PopNext();
            && Lined(q', r) && Sound(q') && LanesGenuine(q'.lanes, r.seen)
            && (next.Some? ==> !Unserved(q'.aqm.log, next.value.uid) && next.value.EcnConsistent())
    decreases |q.lanes.l| + |q.lanes.c|
  {
    hide Sound, Lined, LanesGenuine, DualQ.ServeOne, Unserved, IpPkt.EcnConsistent, Signals, Weigh;
    PopNextKeeps(q, AllBits);
    if q.HasPkts() {
      ServeOneLined(q, r);
      ServeOneStays(q, r.seen);
      if q.ServeOne().1.None? {
        PopNextLined(q.ServeOne().0, r);
      }
    }
  }

  lemma EnqueueLined(q: DualQ, p: IpPkt, r: Roll)
    requires Lined(q, r) && !Unserved(q.aqm.log, p.uid)
    ensures Lined(q.Enqueue(p), r)
  {
    hide LaneLined, LogLined, Unserved;
    ComesBack(q.lanes.l, true, q.aqm.log, p, r);
    ComesBack(q.lanes.c, false, q.aqm.log, p, r);
  }

  lemma {:induction false} FillLined(b: Buffer, bits: nat, r: Roll)
    requires Sound(b.q) && Lined(b.q, r) && LanesGenuine(b.q.lanes, r.seen)
    ensures Lined(b.Fill(bits).0.q, r)
    decreases bits
  {
    hide Sound, Lined, LanesGenuine, DualQ.PopNext, DualQ.HasPkts, DualQ.Enqueue, Unserved;
    if bits > 0 && b.HasPkts() {
      PopNextLined(b.q, r);
      var (b1, next) := b.PopNext();
      if next.Some? {
        if next.value.size <= bits {
          FillLined(b1, bits - next.value.size, r);
        } else if b.dual {
          EnqueueLined(b1.q, Remainder(next.value, bits), r);
        }
      }
    }
  }

  // ----- the pipeline's steps -----

  ghost predicate Ordered(l: Layer) {
    Dated(l) && Lined(l.buf.q, RollOf(l.ho)) && (forall i :: 0 <= i < |l.ho.ingress| ==> !l.ho.ingress[i].ceMarked)
  }

  lemma SameLined(q: DualQ, q': DualQ, r: Roll)
    requires Lined(q, r) && q'.lanes.l == q.lanes.l && q'.lanes.c == q.lanes.c && q'.aqm.log == q.aqm.log
    ensures Lined(q', r)
  {
  }

  lemma MoreSeen(log: seq<Service>, s: seq<IpPkt>, l4s: bool, r: Roll, info: Info)
    requires LaneLined(s, l4s, log, r) && LogLined(log, r) && r.entered <= |r.order| && info.uid !in r.order
    ensures var r' := r.(order := r.order + [info.uid], seen := r.seen[info.uid := info]);
            LaneLined(s, l4s, log, r') && LogLined(log, r')
  {
    hide Unserved, PlaceOf, IsFirst;
    var r' := r.(order := r.order + [info.uid], seen := r.seen[info.uid := info]);
    forall u | PlaceOf(r.order, u) < |r.order|
      ensures PlaceOf(r'.order, u) == PlaceOf(r.order, u)
      ensures ArrivesL4s(r'.seen, u) == ArrivesL4s(r.seen, u)
    {
      PlaceStays(r.order, u, info.uid);
      PlaceIn(r.order, u);
    }
  }

  lemma CapturedOrdered(l: Layer, info: Info, payload: seq<Byte>)
    requires Ordered(l) && info.uid !in l.ho.store.seen
    ensures Ordered(l.Captured(info, payload))
  {
    CapturedDated(l, info, payload);
    hide LaneLined, LogLined, BufferHolds, Every, FromCapture;
    MoreSeen(l.buf.q.aqm.log, l.buf.q.lanes.l, true, RollOf(l.ho), info);
    MoreSeen(l.buf.q.aqm.log, l.buf.q.lanes.c, false, RollOf(l.ho), info);
  }

  lemma {:induction false} IngestUnmarked(h: Handler)
    requires forall i :: 0 <= i < |h.ingress| ==> !h.ingress[i].ceMarked
    ensures forall i :: 0 <= i < |h.Ingest().ingress| ==> !h.Ingest().ingress[i].ceMarked
    ensures |h.Ingest().ingress| == |h.ingress| + |h.store.captured|
    decreases |h.store.captured|
  {
    if h.store.captured != [] {
      IngestUnmarked(h.(store := h.store.Pop().0).IngestOne(h.store.captured[0]));
    }
  }

  lemma TickOrdered(l: Layer, t: real)
    requires Ordered(l)
    ensures Ordered(l.Tick(t))
  {
    hide Dated, Lined, Handler.Ingest, Buffer.StepTo;
    TickDated(l, t);
    IngestUnmarked(l.ho.(now := t));
    IngestOnly(l.ho.(now := t));
    StepKeepsQueues(l.buf, t);
    SameLined(l.buf.q, l.Tick(t).buf.q, RollOf(l.ho));
  }

  lemma DrainOneOrdered(l: Layer)
    requires Ordered(l) && l.ho.ingress != []
    ensures Ordered(l.DrainOne())
  {
    DrainOneDated(l);
    LatersAreLast(l.ho);
    hide Dated, HandlerDated, LaneLined, LogLined, SortByUid, PlaceOf, FromCapture;
    var p, r := l.ho.ingress[0], RollOf(l.ho);
    JoinsTail(l.buf.q.lanes.l, true, l.buf.q.aqm.log, p, r);
    JoinsTail(l.buf.q.lanes.c, false, l.buf.q.aqm.log, p, r);
    OneFurther(l.buf.q, r);
    assert forall i :: 0 <= i < |l.ho.ingress[1..]| ==> l.ho.ingress[1..][i] == l.ho.ingress[i + 1];
    assert RollOf(l.DrainOne().ho) == r.(entered := r.entered + 1);
  }

  lemma OneFurther(q: DualQ, r: Roll)
    requires Lined(q, r)
    ensures Lined(q, r.(entered := r.entered + 1))
  {
    hide PlaceOf, Unserved, IsFirst, ArrivesL4s;
  }

  // A step that leaves capture and ingress alone.
  lemma StaysOrdered(l: Layer, l': Layer)
    requires Ordered(l) && SameDates(l.ho, l'.ho) && Dated(l') && Lined(l'.buf.q, RollOf(l.ho))
    ensures Ordered(l')
  {
    hide Dated, Lined;
  }

  lemma CollectOneOrdered(l: Layer)
    requires Ordered(l) && l.buf.PopAqmDropped().1.Some?
    ensures Ordered(l.CollectOne())
  {
    hide Dated, LaneLined, LogLined, Handler.DropBlock;
    LoopsDated(l);
    DropKeepsHandler(l.ho, AqmBlock(l.buf.PopAqmDropped().1.value, l.buf.PopAqmDropped().0.now));
    SameLined(l.buf.q, l.CollectOne().buf.q, RollOf(l.ho));
    StaysOrdered(l, l.CollectOne());
  }

  lemma PopOldestLined(b: Buffer, r: Roll)
    requires Lined(b.q, r)
    ensures Lined(b.PopOldest().0.q, r)
  {
    hide LaneLined, LogLined;
    if b.q.lanes.l != [] { HeadLeaves(b.q.lanes.l, true, b.q.aqm.log, r); }
    if b.q.lanes.c != [] { HeadLeaves(b.q.lanes.c, false, b.q.aqm.log, r); }
  }

  lemma DropOldestOrdered(l: Layer)
    requires Ordered(l) && LateHead(l)
    ensures Ordered(l.DropOldest())
  {
    LoopsDated(l);
    hide Dated, Lined, Handler.DropBlock, BlockOf, Buffer.OldestTimestamp, Buffer.PopOldest;
    PopOldestFindsOne(l.buf);
    PopOldestLined(l.buf, RollOf(l.ho));
    DropKeepsHandler(l.ho, BlockOf(l.nextId, l.buf.OldestTimestamp(), l.now, l.bhD, l.bhVar,
                                   [l.buf.PopOldest().1.value]));
    StaysOrdered(l, l.DropOldest());
  }

  lemma DropExpiredBlockOrdered(l: Layer)
    requires Ordered(l) && LateBlock(l)
    ensures Ordered(l.DropExpiredBlock())
  {
    LoopsDated(l);
    hide Dated, Lined, Handler.DropBlock, Harq.PopOlderThan;
    DropKeepsHandler(l.ho, l.harq.PopOlderThan(l.now - l.budget).1.value);
    StaysOrdered(l, l.DropExpiredBlock());
  }

  lemma StepOrdered(l: Layer, t: real)
    requires Ordered(l)
    ensures Ordered(l.StepTo(t))
  {
    hide Ordered, Layer.Tick, Layer.StepTo, Layer.DrainOne, Layer.CollectOne, Layer.DropOldest,
         Layer.DropExpiredBlock, Harq.PopOlderThan;
    TickOrdered(l, t);
    forall k: Layer | Ordered(k)
      ensures k.ho.ingress != [] ==> Ordered(k.DrainOne())
      ensures k.buf.PopAqmDropped().1.Some? ==> Ordered(k.CollectOne())
      ensures LateHead(k) ==> Ordered(k.DropOldest())
      ensures LateBlock(k) ==> Ordered(k.DropExpiredBlock())
    {
      if k.ho.ingress != [] { DrainOneOrdered(k); }
      if k.buf.PopAqmDropped().1.Some? { CollectOneOrdered(k); }
      if LateHead(k) { DropOldestOrdered(k); }
      if LateBlock(k) { DropExpiredBlockOrdered(k); }
    }
    StepInduction(l, t, (k: Layer) => Ordered(k));
  }

  lemma CollectOrdered(l: Layer)
    requires Ordered(l)
    ensures Ordered(l.CollectDropped())
  {
    hide Ordered, Layer.CollectOne, Layer.CollectDropped;
    forall k: Layer | Ordered(k) && k.buf.PopAqmDropped().1.Some?
      ensures Ordered(k.CollectOne())
    {
      CollectOneOrdered(k);
    }
    CollectInduction(l, (k: Layer) => Ordered(k));
  }

  lemma GrantOrdered(l: Layer, grant: nat)
    requires Shape(l) && Ordered(l)
    ensures Ordered(l.(buf := l.buf.GetPkts(grant).0, nextId := l.nextId + 1))
  {
    assert Sound(l.buf.q) && LanesGenuine(l.buf.q.lanes, l.ho.store.seen);
    hide Shape, Dated, Lined, Sound, LanesGenuine, Buffer.Fill;
    GrantDated(l, grant);
    FillLined(l.buf, grant, RollOf(l.ho));
  }

  lemma BlockOrdered(l: Layer, h: Harq, block: HarqPkt, jitter: real)
    requires Ordered(l)
    ensures Ordered(l.(harq := h)) && Ordered(l.(harq := h, ho := l.ho.DropBlock(block)))
    ensures Ordered(l.(harq := h, ho := l.ho.Push(block, jitter)))
  {
    hide Dated, Lined, Handler.DropBlock, Handler.Push;
    BlockDated(l, h, block, jitter);
    DropKeepsHandler(l.ho, block);
    PushKeepsHandler(l.ho, block, jitter);
  }

  lemma TurnOrdered(l: Layer, bits: real, radio: Radio)
    requires Shape(l) && Ordered(l) && bits > 0.0 && l.buf.HasPkts()
    ensures Ordered(l.Turn(bits, radio).0)
  {
    hide Shape, Ordered, Buffer.GetPkts, Layer.CollectDropped, Handler.DropBlock, Handler.Push, Harq.AddPkts,
         Buffer.HasPkts, Buffer.OldestTimestamp;
    var (b, out) := l.buf.GetPkts(bits.Floor);
    var l1 := l.(buf := b, nextId := l.nextId + 1);
    GrantOrdered(l, bits.Floor);
    CollectOrdered(l1);
    CollectKeepsQueues(l1);
    var l2 := l1.CollectDropped();
    var block := BlockOf(l.nextId, l.buf.OldestTimestamp(), l.now, l.bhD, l.bhVar, out);
    BlockOrdered(l2, l2.harq, block, radio.jitter);
    BlockOrdered(l2, l2.harq.AddPkts(block, radio.ackDelay), block, radio.jitter);
  }

  lemma GoodShape(l: Layer)
    requires Good(l)
    ensures Shape(l) && Books(l, 0)
  {
    hide Shape, Books, HarqLaws.WithinTurns;
  }

  lemma HandleOrdered(l: Layer, bits: real, radio: Radio)
    requires Good(l) && Ordered(l) && (l.harq.IsPktReady() || l.Halts(bits))
    ensures Ordered(l.HandlePkt(bits, radio).0)
  {
    hide Good, Shape, Books, Ordered, Layer.Turn, Layer.ServeNew, Handler.Push, Handler.DropBlock, Harq.Queue;
    if l.harq.IsPktReady() {
      var (h, b) := l.harq.GetPkt();
      BlockOrdered(l, h, b, radio.jitter);
      BlockOrdered(l, h.Queue(b, radio.ackDelay), b, radio.jitter);
    } else {
      GoodShape(l);
      var inv := (k: Layer) => Shape(k) && Books(k, 0) && Ordered(k);
      forall k: Layer | inv(k) && bits > 0.0 && k.buf.HasPkts()
        ensures inv(k.Turn(bits, radio).0)
      {
        TurnKeeps(k, bits, radio, 0);
        TurnOrdered(k, bits, radio);
      }
      GrantInduction(l, bits, radio, inv);
    }
  }

  lemma EventOrdered(l: Layer, e: Event)
    requires Good(l) && Ordered(l) && Enabled(l, e)
    ensures Ordered(Apply(l, e))
  {
    EventDated(l, e);
    hide Good, Dated, Ordered, Lined, Layer.StepTo, Layer.HandlePkt, Handler.Release, Buffer.TakeReport;
    match e
    case Capture(info, payload) => CapturedOrdered(l, info, payload);
    case Step(t) => StepOrdered(l, t);
    case Grant(bits, radio) => HandleOrdered(l, bits, radio);
    case Release => ReleaseOrdered(l);
    case Report => ReportOrdered(l);
  }

  lemma ReleaseOrdered(l: Layer)
    requires Ordered(l) && Dated(l.Release())
    ensures Ordered(l.Release())
  {
    hide Dated, Lined, Handler.Release;
    ReleaseDates(l.ho);
    StaysOrdered(l, l.Release());
  }

  lemma ReportOrdered(l: Layer)
    requires Ordered(l) && Dated(l.Report())
    ensures Ordered(l.Report())
  {
    hide Dated, Lined, Buffer.TakeReport;
    ReportKeepsLanes(l.buf);
    SameLined(l.buf.q, l.Report().buf.q, RollOf(l.ho));
    StaysOrdered(l, l.Report());
  }

  // ----- every run -----

  lemma InitialIsOrdered(l: Layer)
    requires Initial(l)
    ensures Ordered(l)
  {
    InitialIsDated(l);
    hide Dated;
  }

  lemma RunsAreOrdered(l: Layer, es: seq<Event>)
    requires Initial(l) && CanRun(l, es)
    ensures Ordered(Run(l, es)) && Good(Run(l, es))
  {
    hide Good, Ordered, Run, CanRun, Enabled, Apply;
    InitialIsGood(l);
    InitialIsOrdered(l);
    var inv := (k: Layer) => Good(k) && Ordered(k);
    forall k: Layer, e: Event | inv(k) && Enabled(k, e)
      ensures inv(Apply(k, e))
    {
      EventKeeps(k, e);
      EventOrdered(k, e);
    }
    RunInduction(l, es, inv);
  }

  /** Over every run, whatever is cut, marked, dropped, refused or expires: of two packets that arrived in the same
      class, the one captured first is the one first dequeued. A packet that is cut goes back to the tail of its lane,
      or of the other one if it was marked, and that is after its first service. */
  lemma ClassesAreServedInOrder(l: Layer, es: seq<Event>, i: nat, j: nat)
    requires Initial(l) && CanRun(l, es)
    requires var log := Run(l, es).buf.q.aqm.log; i != j && IsFirst(log, i) && IsFirst(log, j)
    ensures var r := Run(l, es); var log, order, seen := r.buf.q.aqm.log, r.ho.store.order, r.ho.store.seen;
            && log[i].uid in order && log[j].uid in order
            && (ArrivesL4s(seen, log[i].uid) == ArrivesL4s(seen, log[j].uid) ==>
                  (i < j <==> PlaceOf(order, log[i].uid) < PlaceOf(order, log[j].uid)))
  {
    hide Initial, Run, CanRun, Good, PlaceOf, LaneLined, BufferHolds, Every, FromCapture, ArrivesL4s;
    RunsAreOrdered(l, es);
    var r := Run(l, es);
    PlaceIn(r.ho.store.order, r.buf.q.aqm.log[i].uid);
    PlaceIn(r.ho.store.order, r.buf.q.aqm.log[j].uid);
  }
}
