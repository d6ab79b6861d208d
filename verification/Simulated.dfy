// The simulated-traffic handler (src/pdcp_layer/simulated_packet_handler.cpp over the queues of
// src/pdcp_layer/packet_handler.cpp): segmentation of generated traffic, and one verdict per packet
// aggregated from its fragments, in whatever order they are delivered or dropped.
module Simulated {
  import opened Packets
  import opened Capture

  // What is known so far of a packet whose bits are not all accounted for.
  datatype Pending = Pending(originalSize: int, accounted: nat, dropped: bool, signal: bool)

  const NOTHING_YET := Pending(0, 0, false, false)

  datatype Told = Told(uid: nat, kind: Kind)

  function Noted(s: Pending, p: IpPkt, dropped: bool): Pending {
    Pending(if s.originalSize <= 0 then p.originalSize else s.originalSize, s.accounted + p.size,
            s.dropped || dropped, s.signal || p.ceMarked)
  }

  predicate AllIn(s: Pending) { s.originalSize > 0 && s.accounted >= s.originalSize }

  function VerdictOf(s: Pending): Kind {
    if s.dropped then Discarded else if s.signal then AcceptedCe else Accepted
  }

  function Backhauled(b: HarqPkt, jitter: real): HarqPkt {
    b.(tOut := b.tOut + b.backhaulD + jitter * b.backhaulVar)
  }

  // A generated packet: whole, without ECN, its predecessor the id before its own.
  function Generated(t: real, size: Bits, id: nat): IpPkt { NewPkt(t, size, id as int - 1, id, NotEct) }

  // What became of a fragment.
  datatype Fate = Fate(pkt: IpPkt, dropped: bool)

  /** The handler's registers; `fates` and `verdicts` are history. */
  datatype Handler = Handler(
    ingress: seq<IpPkt>, nextId: nat, list: seq<HarqPkt>, pending: map<nat, Pending>, now: real,
    fates: seq<Fate>, verdicts: seq<Told>)
  {
    function Update(p: IpPkt, dropped: bool): Handler {
      var s := Noted(if p.uid in pending then pending[p.uid] else NOTHING_YET, p, dropped);
      var h := this.(fates := fates + [Fate(p, dropped)]);
      if AllIn(s) then h.(pending := pending - {p.uid}, verdicts := verdicts + [Told(p.uid, VerdictOf(s))])
      else h.(pending := pending[p.uid := s])
    }

    function UpdateAll(pkts: seq<IpPkt>, dropped: bool): Handler
      decreases |pkts|
    {
      if pkts == [] then this else Update(pkts[0], dropped).UpdateAll(pkts[1..], dropped)
    }

    function Drop(b: HarqPkt): Handler { UpdateAll(b.pkts, true) }

    function Push(b: HarqPkt, jitter: real): Handler {
      this.(list := list + [Backhauled(b, jitter)])
    }

    // The blocks that are due are told, in their order; the others stay, in theirs.
    function ReleaseRest(kept: seq<HarqPkt>, rest: seq<HarqPkt>): Handler
      decreases |rest|
    {
      if rest == [] then this.(list := kept)
      else if rest[0].tOut <= now then UpdateAll(rest[0].pkts, false).ReleaseRest(kept, rest[1..])
      else ReleaseRest(kept + [rest[0]], rest[1..])
    }

    function Release(): Handler { this.(list := []).ReleaseRest([], list) }
  }

  function DueBits(list: seq<HarqPkt>, now: real): nat {
    if list == [] then 0
    else DueBits(list[..|list| - 1], now) + if list[|list| - 1].tOut <= now then list[|list| - 1].bits else 0
  }

  lemma DueNext(list: seq<HarqPkt>, k: nat, now: real)
    requires k <= |list|
    ensures DueBits([], now) == 0
    ensures k < |list| ==>
              DueBits(list[..k + 1], now) == DueBits(list[..k], now) + if list[k].tOut <= now then list[k].bits else 0
  {
    if k < |list| {
      assert list[..k + 1][..k] == list[..k];
    }
  }

  // Telling packets does not look at the queue.
  lemma {:induction false} UpdatesIgnoreQueue(h: Handler, queue: seq<HarqPkt>, pkts: seq<IpPkt>, dropped: bool)
    ensures h.(list := queue).UpdateAll(pkts, dropped) == h.UpdateAll(pkts, dropped).(list := queue)
    decreases |pkts|
  {
    if pkts != [] {
      UpdatesIgnoreQueue(h.Update(pkts[0], dropped), queue, pkts[1..], dropped);
    }
  }

  class SimulatedPacketHandler {
    var ingressPkts: seq<IpPkt>
    var currentId: nat
    var pktList: seq<HarqPkt>
    var pendingResults: map<nat, Pending>
    var currentT: real
    ghost var fates: seq<Fate>
    ghost var verdicts: seq<Told>

    ghost function State(): Handler
      reads this
    {
      Handler(ingressPkts, currentId, pktList, pendingResults, currentT, fates, verdicts)
    }

    constructor ()
      ensures State() == Handler([], 0, [], map[], 0.0, [], [])
    {
      ingressPkts, currentId, pktList, pendingResults, currentT := [], 0, [], map[], 0.0;
      fates, verdicts := [], [];
    }

    method StepTo(t: real)
      modifies this`currentT
      ensures State() == old(State()).(now := t)
    {
      currentT := t;
    }

    method PushIngress(size: Bits, t: real)
      modifies this`ingressPkts, this`currentId
      ensures ingressPkts == old(ingressPkts) + [Generated(t, size, old(currentId))]
      ensures currentId == old(currentId) + 1
    {
      ingressPkts := ingressPkts + [Generated(t, size, currentId)];
      currentId := currentId + 1;
    }

    /** Generated traffic becomes packets of at most the configured size with consecutive ids: all of that size but
        possibly the last, and together exactly the bits generated. */
    method Ingest(bits: nat, pktSize: Bits, t: real)
      modifies this`ingressPkts, this`currentId
      ensures exists pkts :: Segmented(pkts, bits, pktSize, old(currentId), t)
                && ingressPkts == old(ingressPkts) + pkts && currentId == old(currentId) + |pkts|
    {
      hide Weigh, Cuts;
      ghost var pkts: seq<IpPkt> := [];
      assert old(ingressPkts) + pkts == ingressPkts;
      NoCuts(pktSize, currentId, t);
      if bits == 0 {
        assert Segmented(pkts, bits, pktSize, old(currentId), t);
        return;
      }
      var n := (bits + pktSize - 1) / pktSize;
      CeilingCovers(bits, pktSize);
      for i := 0 to n - 1
        invariant |pkts| == i && ingressPkts == old(ingressPkts) + pkts && currentId == old(currentId) + i
        invariant Cuts(pkts, i * pktSize, pktSize, old(currentId), t)
      {
        OneMoreCut(pkts, i * pktSize, pktSize, old(currentId), t);
        PushIngress(pktSize, t);
        pkts := pkts + [Generated(t, pktSize, old(currentId) + i)];
        NextMultiple(i, pktSize);
      }
      var bitsLeft := bits - (n - 1) * pktSize;
      if bitsLeft > 0 {
        NextMultiple(n - 1, pktSize);
        LastCut(pkts, (n - 1) * pktSize, bitsLeft, pktSize, old(currentId), t);
        PushIngress(bitsLeft, t);
        pkts := pkts + [Generated(t, bitsLeft, old(currentId) + n - 1)];
      }
      assert Segmented(pkts, bits, pktSize, old(currentId), t);
    }

    method UpdatePendingPacket(pkt: IpPkt, dropped: bool)
      modifies this`pendingResults, this`fates, this`verdicts
      ensures State() == old(State()).Update(pkt, dropped)
    {
      fates := fates + [Fate(pkt, dropped)];
      if pkt.uid !in pendingResults {
        pendingResults := pendingResults[pkt.uid := NOTHING_YET];
      }
      var state := pendingResults[pkt.uid];
      assert pendingResults == old(pendingResults)[pkt.uid := state];
      if state.originalSize <= 0 {
        state := state.(originalSize := pkt.originalSize);
      }
      state := state.(accounted := state.accounted + pkt.size, dropped := state.dropped || dropped,
                      signal := state.signal || pkt.ceMarked);
      pendingResults := pendingResults[pkt.uid := state];
      if state.originalSize > 0 && state.accounted >= state.originalSize {
        var kind := if state.dropped then Discarded else if state.signal then AcceptedCe else Accepted;
        verdicts := verdicts + [Told(pkt.uid, kind)];
        pendingResults := pendingResults - {pkt.uid};
        assert pendingResults == old(pendingResults) - {pkt.uid};
      }
    }

    method UpdateAll(pkts: seq<IpPkt>, dropped: bool)
      modifies this`pendingResults, this`fates, this`verdicts
      ensures State() == old(State()).UpdateAll(pkts, dropped)
    {
      hide Handler.Update;
      var k := 0;
      while k < |pkts|
        invariant 0 <= k <= |pkts|
        invariant State().UpdateAll(pkts[k..], dropped) == old(State()).UpdateAll(pkts, dropped)
      {
        UpdatePendingPacket(pkts[k], dropped);
        assert pkts[k..][1..] == pkts[k + 1..];
        k := k + 1;
      }
    }

    method Drop(block: HarqPkt)
      modifies this`pendingResults, this`fates, this`verdicts
      ensures State() == old(State()).Drop(block)
    {
      UpdateAll(block.pkts, true);
    }

    method Push(block: HarqPkt, jitter: real)
      modifies this`pktList
      ensures State() == old(State()).Push(block, jitter)
    {
      pktList := pktList + [Backhauled(block, jitter)];
    }

    method Release() returns (bits: nat)
      modifies this`pktList, this`pendingResults, this`fates, this`verdicts
      ensures State() == old(State()).Release()
      ensures bits == DueBits(old(pktList), currentT)
    {
      hide Handler.UpdateAll, DueBits;
      DueNext(old(pktList), 0, currentT);
      bits := 0;
      ghost var done := 0;
      var i := 0;
      while i < |pktList|
        invariant 0 <= i <= |pktList| && done + |pktList| - i == |old(pktList)| && 0 <= done
        invariant pktList[i..] == old(pktList)[done..]
        invariant State().(list := []).ReleaseRest(pktList[..i], pktList[i..])
               == old(State()).(list := []).ReleaseRest([], old(pktList))
        invariant bits == DueBits(old(pktList)[..done], currentT)
        decreases |pktList| - i
      {
        DueNext(old(pktList), done, currentT);
        assert pktList[i..][0] == pktList[i] && pktList[i..][1..] == pktList[i + 1..];
        if pktList[i].tOut <= currentT {
          bits := bits + pktList[i].bits;
          UpdatesIgnoreQueue(State(), [], pktList[i].pkts, false);
          UpdateAll(pktList[i].pkts, false);
          ghost var before := pktList;
          pktList := pktList[..i] + pktList[i + 1..];
          assert pktList[..i] == before[..i] && pktList[i..] == before[i + 1..];
        } else {
          assert pktList[..i] + [pktList[i]] == pktList[..i + 1];
          i := i + 1;
        }
        done := done + 1;
      }
      assert pktList[..i] == pktList && old(pktList)[..done] == old(pktList);
    }
  }

  lemma CeilingCovers(bits: nat, pktSize: Bits)
    requires bits > 0
    ensures var n := (bits + pktSize - 1) / pktSize; n >= 1 && (n - 1) * pktSize < bits <= n * pktSize
  {
  }

  lemma NextMultiple(i: nat, k: Bits)
    ensures (i + 1) * k == i * k + k
  {
  }

  // Consecutive ids, each pointing at the one before, stamped with the time, whole, complete and without ECN.
  ghost predicate Numbered(pkts: seq<IpPkt>, first: nat, t: real) {
    forall k :: 0 <= k < |pkts| ==>
      && pkts[k].uid == first + k && pkts[k].prevUid == first + k - 1 && pkts[k].originalSize == pkts[k].size
      && pkts[k].currentT == pkts[k].ipT == t && !pkts[k].isFragment && pkts[k].fragsCreated == 0
      && pkts[k].ecn == pkts[k].originalEcn == NotEct && !pkts[k].erase && !pkts[k].ceMarked && !pkts[k].aqmDropped
  }

  ghost predicate Segmented(pkts: seq<IpPkt>, bits: nat, pktSize: Bits, first: nat, t: real) {
    && Numbered(pkts, first, t) && Weigh(AllBits, pkts) == bits
    && (forall k :: 0 <= k < |pkts| ==> if k < |pkts| - 1 then pkts[k].size == pktSize else pkts[k].size <= pktSize)
  }

  // So far only packets of the full size.
  ghost predicate Cuts(pkts: seq<IpPkt>, bits: nat, pktSize: Bits, first: nat, t: real) {
    && Numbered(pkts, first, t) && Weigh(AllBits, pkts) == bits
    && (forall k :: 0 <= k < |pkts| ==> pkts[k].size == pktSize)
  }

  lemma NoCuts(pktSize: Bits, first: nat, t: real)
    ensures Cuts([], 0, pktSize, first, t) && Segmented([], 0, pktSize, first, t)
  {
  }

  lemma OneMoreCut(pkts: seq<IpPkt>, bits: nat, pktSize: Bits, first: nat, t: real)
    requires Cuts(pkts, bits, pktSize, first, t)
    ensures Cuts(pkts + [Generated(t, pktSize, first + |pkts|)], bits + pktSize, pktSize, first, t)
  {
    WeighSnoc(AllBits, pkts, Generated(t, pktSize, first + |pkts|));
  }

  lemma LastCut(pkts: seq<IpPkt>, bits: nat, rest: Bits, pktSize: Bits, first: nat, t: real)
    requires Cuts(pkts, bits, pktSize, first, t) && rest <= pktSize
    ensures Segmented(pkts + [Generated(t, rest, first + |pkts|)], bits + rest, pktSize, first, t)
  {
    WeighSnoc(AllBits, pkts, Generated(t, rest, first + |pkts|));
  }
}
