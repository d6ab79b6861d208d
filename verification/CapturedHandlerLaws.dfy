// What reassembly and release keep: every bit of every packet, and every packet's identity.
module CapturedHandlerLaws {
  import opened Packets
  import opened Ipv4Ecn
  import opened Capture
  import opened CapturedHandler

  /** A packet or fragment of something that was captured: its size at capture and arriving code point
      are the captured ones, and its code point now is explained by its mark. */
  ghost predicate Genuine(p: IpPkt, seen: map<nat, Info>) {
    && p.uid in seen && p.originalSize == seen[p.uid].bytes * 8 && p.originalEcn == seen[p.uid].ecn
    && p.EcnConsistent()
  }

  ghost predicate AllGenuine(s: seq<IpPkt>, seen: map<nat, Info>) {
    forall i :: 0 <= i < |s| ==> Genuine(s[i], seen)
  }

  lemma AddDataKeeps(out: seq<IpPkt>, p: IpPkt, g: Gauge, seen: map<nat, Info>)
    requires !g.Unmarked?
    ensures Weigh(g, AddData(out, p)) == Weigh(g, out) + Measure(g, p)
    ensures AllGenuine(out, seen) && Genuine(p, seen) ==> AllGenuine(AddData(out, p), seen)
  {
    var i := FindUid(out, p.uid);
    if i < |out| {
      WeighUpdate(g, out, i, AddData(out, p)[i]);
    } else {
      WeighSnoc(g, out, AddData(out, p)[i]);
    }
  }

  lemma RemoveDataKeeps(out: seq<IpPkt>, p: IpPkt, g: Gauge, seen: map<nat, Info>)
    requires !g.Unmarked?
    ensures Weigh(g, RemoveData(out, p)) == Weigh(g, out) + Measure(g, p)
    ensures AllGenuine(out, seen) && Genuine(p, seen) ==> AllGenuine(RemoveData(out, p), seen)
  {
    var i := FindUid(out, p.uid);
    if i < |out| {
      WeighUpdate(g, out, i, RemoveData(out, p)[i]);
    } else {
      WeighSnoc(g, out, RemoveData(out, p)[i]);
    }
  }

  lemma {:induction false} AddAllKeeps(out: seq<IpPkt>, pkts: seq<IpPkt>, tOut: real, ipT: real, g: Gauge,
      seen: map<nat, Info>)
    requires !g.Unmarked?
    ensures Weigh(g, AddAll(out, pkts, tOut, ipT)) == Weigh(g, out) + Weigh(g, pkts)
    ensures AllGenuine(out, seen) && AllGenuine(pkts, seen) ==> AllGenuine(AddAll(out, pkts, tOut, ipT), seen)
    decreases |pkts|
  {
    hide AddData;
    if pkts != [] {
      var p := Stamped(pkts[0], tOut, ipT);
      AddDataKeeps(out, p, g, seen);
      AddAllKeeps(AddData(out, p), pkts[1..], tOut, ipT, g, seen);
    }
  }

  lemma {:induction false} RemoveAllKeeps(out: seq<IpPkt>, pkts: seq<IpPkt>, tOut: real, ipT: real, g: Gauge,
      seen: map<nat, Info>)
    requires !g.Unmarked?
    ensures Weigh(g, RemoveAll(out, pkts, tOut, ipT)) == Weigh(g, out) + Weigh(g, pkts)
    ensures AllGenuine(out, seen) && AllGenuine(pkts, seen) ==> AllGenuine(RemoveAll(out, pkts, tOut, ipT), seen)
    decreases |pkts|
  {
    hide RemoveData;
    if pkts != [] {
      var p := Stamped(pkts[0], tOut, ipT);
      RemoveDataKeeps(out, p, g, seen);
      RemoveAllKeeps(RemoveData(out, p), pkts[1..], tOut, ipT, g, seen);
    }
  }

  // ----- the handler's operations -----

  lemma SortKeeps(s: seq<IpPkt>, g: Gauge, seen: map<nat, Info>)
    ensures Weigh(g, SortByUid(s)) == Weigh(g, s)
    ensures AllGenuine(s, seen) ==> AllGenuine(SortByUid(s), seen)
  {
    WeighSort(g, s);
    SortKeepsMembers(s);
    if AllGenuine(s, seen) {
      forall i | 0 <= i < |SortByUid(s)|
        ensures Genuine(SortByUid(s)[i], seen)
      {
        assert SortByUid(s)[i] in s;
      }
    }
  }

  lemma PushKeeps(h: Handler, b: HarqPkt, jitter: real, g: Gauge)
    requires !g.Unmarked?
    ensures var h' := h.Push(b, jitter);
            && h' == h.(out := h'.out, delivered := h'.delivered)
            && Weigh(g, h'.out) == Weigh(g, h.out) + Weigh(g, b.pkts)
            && (AllGenuine(h.out, h.store.seen) && AllGenuine(b.pkts, h.store.seen) ==>
                AllGenuine(h'.out, h.store.seen))
  {
    hide AddAll, SortByUid, ReleaseTime;
    AddAllKeeps(h.out, b.pkts, ReleaseTime(b, jitter), b.ipT, g, h.store.seen);
    SortKeeps(AddAll(h.out, b.pkts, ReleaseTime(b, jitter), b.ipT), g, h.store.seen);
  }

  lemma DropBlockKeeps(h: Handler, b: HarqPkt, g: Gauge)
    requires !g.Unmarked?
    ensures var h' := h.DropBlock(b);
            && h' == h.(out := h'.out)
            && Weigh(g, h'.out) == Weigh(g, h.out) + Weigh(g, b.pkts)
            && (AllGenuine(h.out, h.store.seen) && AllGenuine(b.pkts, h.store.seen) ==>
                AllGenuine(h'.out, h.store.seen))
  {
    RemoveAllKeeps(h.out, b.pkts, b.tOut, b.ipT, g, h.store.seen);
  }

  lemma DropIngressKeeps(h: Handler, p: IpPkt, g: Gauge)
    requires !g.Unmarked?
    ensures var h' := h.DropIngress(p);
            && h' == h.(out := h'.out)
            && Weigh(g, h'.out) == Weigh(g, h.out) + Measure(g, p)
            && (AllGenuine(h.out, h.store.seen) && Genuine(p, h.store.seen) ==> AllGenuine(h'.out, h.store.seen))
  {
    hide SortByUid;
    var spoiled := p.(erase := true, tOut := h.now);
    WeighSnoc(g, h.out, spoiled);
    SortKeeps(h.out + [spoiled], g, h.store.seen);
  }

  // All that the handler's operations change.
  lemma DropKeepsHandler(h: Handler, b: HarqPkt)
    ensures h.DropBlock(b) == h.(out := h.DropBlock(b).out)
  {
  }

  lemma PushKeepsHandler(h: Handler, b: HarqPkt, jitter: real)
    ensures var h' := h.Push(b, jitter);
            h' == h.(out := h'.out, delivered := h'.delivered) && h.delivered <= h'.delivered
  {
  }

  lemma FrontIsThere(h: Handler)
    requires h.FrontGoes()
    ensures h.out != [] && |h.ReleaseFront().out| < |h.out|
  {
  }

  lemma VerdictKeepsOrder(s: Store, u: nat, kind: Kind)
    ensures s.Verdict(u, kind).0 == s.(payloads := s.Verdict(u, kind).0.payloads)
  {
    hide Rewritten;
  }

  /** After a delivery the entries are in order of ids. */
  lemma DeliverySorts(h: Handler, b: HarqPkt, jitter: real)
    ensures SortedByUid(h.Push(b, jitter).out)
  {
    hide AddAll, ReleaseTime;
    SortByUidSorts(AddAll(h.out, b.pkts, ReleaseTime(b, jitter), b.ipT));
  }

  ghost predicate SpoiltInPlace(out: seq<IpPkt>, pkts: seq<IpPkt>, r: seq<IpPkt>) {
    && |r| >= |out|
    && (forall i :: 0 <= i < |out| ==>
          r[i].uid == out[i].uid && if Holds(pkts, out[i].uid) then r[i] == out[i] || r[i].erase
                                    else r[i] == out[i])
    && (forall i :: |out| <= i < |r| ==> r[i].erase)
  }

  lemma {:induction false} RemoveMovesNothing(out: seq<IpPkt>, pkts: seq<IpPkt>, tOut: real, ipT: real)
    ensures SpoiltInPlace(out, pkts, RemoveAll(out, pkts, tOut, ipT))
    decreases |pkts|
  {
    if pkts != [] {
      var p := Stamped(pkts[0], tOut, ipT);
      RemoveMovesNothing(RemoveData(out, p), pkts[1..], tOut, ipT);
      assert forall u :: Holds(pkts[1..], u) ==> Holds(pkts, u) by {
        assert forall i :: 0 <= i < |pkts| - 1 ==> pkts[1..][i] == pkts[i + 1];
      }
      assert Holds(pkts, p.uid);
    }
  }

  /** A drop moves no entry: at most those of the packets it drops change, and only by being spoiled in their places,
      and new spoiled ones join the end. */
  lemma DropMovesNothing(h: Handler, b: HarqPkt)
    ensures SpoiltInPlace(h.out, b.pkts, h.DropBlock(b).out)
  {
    RemoveMovesNothing(h.out, b.pkts, b.tOut, b.ipT);
  }

  // ----- the capture queue and ingest -----

  function InfoMeasure(g: Gauge, i: Info): nat {
    match g
    case AllBits => i.bytes * 8
    case BitsOf(u) => if i.uid == u then i.bytes * 8 else 0
    case Unmarked(u) => if i.uid == u then 1 else 0
  }

  function WeighInfos(g: Gauge, s: seq<Info>): nat {
    if s == [] then 0 else InfoMeasure(g, s[0]) + WeighInfos(g, s[1..])
  }

  lemma {:induction false} WeighInfosSnoc(g: Gauge, s: seq<Info>, i: Info)
    ensures WeighInfos(g, s + [i]) == WeighInfos(g, s) + InfoMeasure(g, i)
  {
    if s == [] {
      assert s + [i] == [i];
    } else {
      WeighInfosSnoc(g, s[1..], i);
      assert (s + [i])[1..] == s[1..] + [i];
    }
  }

  // Captures not ingested yet are recorded as they were captured.
  ghost predicate Recorded(store: Store) {
    forall i :: i in store.captured ==> i.uid in store.seen && store.seen[i.uid] == i
  }

  // All that ingest changes.
  lemma {:induction false} IngestOnly(h: Handler)
    ensures var h' := h.Ingest();
            h' == h.(ingress := h'.ingress, prevUid := h'.prevUid, ticks := h'.ticks,
                store := h.store.(captured := []))
    decreases |h.store.captured|
  {
    if h.store.captured != [] {
      IngestOnly(h.(store := h.store.Pop().0).IngestOne(h.store.captured[0]));
    }
  }

  lemma {:induction false} IngestKeeps(h: Handler, g: Gauge)
    requires Recorded(h.store)
    ensures var h' := h.Ingest();
            && h' == h.(ingress := h'.ingress, prevUid := h'.prevUid, ticks := h'.ticks,
                store := h.store.(captured := []))
            && Weigh(g, h'.ingress) == Weigh(g, h.ingress) + WeighInfos(g, h.store.captured)
            && (AllGenuine(h.ingress, h.store.seen) ==> AllGenuine(h'.ingress, h.store.seen))
    decreases |h.store.captured|
  {
    if h.store.captured != [] {
      var i := h.store.captured[0];
      var p := NewPkt(h.clock(h.ticks), i.bytes * 8, h.prevUid, i.uid, i.ecn);
      WeighSnoc(g, h.ingress, p);
      assert Genuine(p, h.store.seen);
      IngestKeeps(h.(store := h.store.Pop().0).IngestOne(i), g);
    }
  }

  // ----- verdicts -----

  function Told(g: Gauge, vs: seq<Verdict>): nat {
    if vs == [] then 0 else Told(g, vs[..|vs| - 1]) + Measure(g, vs[|vs| - 1].pkt)
  }

  function Verdicts(vs: seq<Verdict>, u: nat): nat {
    if vs == [] then 0 else Verdicts(vs[..|vs| - 1], u) + if vs[|vs| - 1].pkt.uid == u then 1 else 0
  }

  ghost function ToldUids(vs: seq<Verdict>): set<nat> {
    set v | v in vs :: v.pkt.uid
  }

  lemma ToldSnoc(vs: seq<Verdict>, v: Verdict)
    ensures forall g :: Told(g, vs + [v]) == Told(g, vs) + Measure(g, v.pkt)
    ensures forall u :: Verdicts(vs + [v], u) == Verdicts(vs, u) + if v.pkt.uid == u then 1 else 0
    ensures ToldUids(vs + [v]) == ToldUids(vs) + {v.pkt.uid}
  {
    assert (vs + [v])[..|vs|] == vs;
  }

  /** A settled verdict: a complete, genuine packet; CE only on a packet that arrived ECN-capable, sent with a
      payload whose ECN field was rewritten, accepted and dropped without one; the missing-payload fallback never
      taken. */
  ghost predicate Settled(v: Verdict, seen: map<nat, Info>) {
    && Genuine(v.pkt, seen) && v.pkt.IsReady() && v.kind == KindOf(v.pkt)
    && v.sent != MissingPayload
    && (v.kind == AcceptedCe <==> v.sent.Patched?)
    && (v.kind == Accepted <==> v.sent == Plain) && (v.kind == Discarded <==> v.sent == Refused)
  }

  /** Stored payloads are the ones received, and every CE verdict went out with its packet's own, rewritten. */
  ghost predicate Loyal(payloads: map<nat, seq<Byte>>, received: map<nat, seq<Byte>>, vs: seq<Verdict>) {
    && (forall u :: u in payloads ==> u in received && payloads[u] == received[u])
    && (forall i :: 0 <= i < |vs| && vs[i].kind == AcceptedCe ==>
          && vs[i].pkt.uid in received
          && vs[i].sent == Patched(Rewritten(received[vs[i].pkt.uid], ECN_CE)))
  }

  lemma CapturedStaysLoyal(s: Store, vs: seq<Verdict>, info: Info, payload: seq<Byte>)
    requires Loyal(s.payloads, s.received, vs) && info.uid !in s.received
    ensures Loyal(s.Captured(info, payload).payloads, s.Captured(info, payload).received, vs)
  {
    hide Rewritten;
  }

  lemma ToldStaysLoyal(s: Store, vs: seq<Verdict>, v: Verdict)
    requires Loyal(s.payloads, s.received, vs) && v.pkt.uid in s.payloads && v.sent == s.Verdict(v.pkt.uid, v.kind).1
    ensures Loyal(s.Verdict(v.pkt.uid, v.kind).0.payloads, s.received, vs + [v])
    ensures s.Verdict(v.pkt.uid, v.kind).0.received == s.received
  {
    hide Rewritten;
  }

  function LastTold(vs: seq<Verdict>): int {
    if vs == [] then -1 else vs[|vs| - 1].pkt.uid
  }

  /** The order cursor is the packet told last; an accepted packet was due and, with the order check on, was told
      right after the packet it points at, unless it was the first. */
  ghost predicate InSequence(h: Handler) {
    && h.prevReleased == LastTold(h.verdicts)
    && forall i :: 0 <= i < |h.verdicts| && h.verdicts[i].kind != Discarded ==>
         && h.verdicts[i].pkt.tOut <= h.verdicts[i].at
         && (h.doCheck && i > 0 ==> h.verdicts[i - 1].pkt.uid == h.verdicts[i].pkt.prevUid)
  }

  // The bits told for a packet are its original size once per verdict.
  lemma {:induction false} ToldIsVerdicts(vs: seq<Verdict>, seen: map<nat, Info>, u: nat)
    requires forall v :: v in vs ==> Settled(v, seen)
    ensures Verdicts(vs, u) == 0 ==> Told(BitsOf(u), vs) == 0
    ensures Verdicts(vs, u) == 1 ==> u in seen && Told(BitsOf(u), vs) == seen[u].bytes * 8
    ensures Verdicts(vs, u) >= 2 ==> u in seen && Told(BitsOf(u), vs) >= 2 * (seen[u].bytes * 8)
    ensures u in ToldUids(vs) <==> Verdicts(vs, u) > 0
  {
    if vs != [] {
      var rest, v := vs[..|vs| - 1], vs[|vs| - 1];
      assert vs == rest + [v];
      ToldSnoc(rest, v);
      ToldIsVerdicts(rest, seen, u);
      assert Settled(v, seen);
    }
  }

  lemma {:induction false} VerdictCounts(vs: seq<Verdict>, i: nat, u: nat)
    requires i < |vs| && vs[i].pkt.uid == u
    ensures Verdicts(vs, u) >= 1
  {
    if i < |vs| - 1 {
      VerdictCounts(vs[..|vs| - 1], i, u);
    }
  }

  lemma {:induction false} VerdictsCount(vs: seq<Verdict>, i: nat, j: nat, u: nat)
    requires i < j < |vs| && vs[i].pkt.uid == vs[j].pkt.uid == u
    ensures Verdicts(vs, u) >= 2
  {
    if j < |vs| - 1 {
      VerdictsCount(vs[..|vs| - 1], i, j, u);
    } else {
      VerdictCounts(vs[..|vs| - 1], i, u);
    }
  }
}
