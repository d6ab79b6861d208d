// The captured-packet handler (src/pdcp_layer/captured_packet_handler.cpp and the ingress queue of
// src/pdcp_layer/packet_handler.cpp): ingest, reassembly of fragments and ordered release.
module CapturedHandler {
  import opened Packets
  import opened Capture

  // A piece delivered, as history: of which packet, how many bits, when it is due and whether it carried a mark.
  datatype Delivery = Delivery(uid: nat, size: Bits, due: real, marked: bool)

  // A final verdict, as history: the reassembled packet, its kind, what was told to the kernel and when.
  datatype Verdict = Verdict(pkt: IpPkt, kind: Kind, sent: Sent, at: real)

  // The first entry of a packet, or the list's length if it has none.
  function FindUid(s: seq<IpPkt>, u: nat): (i: nat)
    ensures i <= |s|
    ensures i < |s| ==> s[i].uid == u
    ensures forall j :: 0 <= j < i ==> s[j].uid != u
  {
    if s == [] || s[0].uid == u then 0 else 1 + FindUid(s[1..], u)
  }

  function Stamped(p: IpPkt, tOut: real, ipT: real): IpPkt {
    p.(tOut := tOut, ipT := ipT)
  }

  // A fragment joins the entry its packet already has, or starts one.
  function AddData(out: seq<IpPkt>, p: IpPkt): seq<IpPkt> {
    var i := FindUid(out, p.uid);
    if i < |out| then
      out[i := out[i].(size := out[i].size + p.size, fragsRecovered := out[i].fragsRecovered + 1,
                       fragsCreated := p.fragsCreated)]
    else out + [p.(fragsRecovered := p.fragsRecovered + 1)]
  }

  // A dropped fragment spoils the entry its packet already has, or starts a spoiled one.
  function RemoveData(out: seq<IpPkt>, p: IpPkt): seq<IpPkt> {
    var i := FindUid(out, p.uid);
    if i < |out| then out[i := out[i].(erase := true, size := out[i].size + p.size)]
    else out + [p.(erase := true)]
  }

  function AddAll(out: seq<IpPkt>, pkts: seq<IpPkt>, tOut: real, ipT: real): seq<IpPkt>
    decreases |pkts|
  {
    if pkts == [] then out else AddAll(AddData(out, Stamped(pkts[0], tOut, ipT)), pkts[1..], tOut, ipT)
  }

  function RemoveAll(out: seq<IpPkt>, pkts: seq<IpPkt>, tOut: real, ipT: real): seq<IpPkt>
    decreases |pkts|
  {
    if pkts == [] then out else RemoveAll(RemoveData(out, Stamped(pkts[0], tOut, ipT)), pkts[1..], tOut, ipT)
  }

  // When a delivered block's packets may be released: its time out plus the backhaul delay and jitter.
  function ReleaseTime(b: HarqPkt, jitter: real): real {
    b.tOut + b.backhaulD + jitter * b.backhaulVar
  }

  function Deliveries(pkts: seq<IpPkt>, due: real): seq<Delivery> {
    seq(|pkts|, i requires 0 <= i < |pkts| => Delivery(pkts[i].uid, pkts[i].size, due, pkts[i].ceMarked))
  }

  function KindOf(p: IpPkt): Kind {
    if p.erase then Discarded else if p.ceMarked then AcceptedCe else Accepted
  }

  function AcceptedBits(vs: seq<Verdict>): nat {
    if vs == [] then 0
    else AcceptedBits(vs[..|vs| - 1])
         + if vs[|vs| - 1].kind == Discarded then 0 else vs[|vs| - 1].pkt.originalSize
  }

  lemma AcceptedSnoc(vs: seq<Verdict>, v: Verdict)
    ensures AcceptedBits(vs + [v]) == AcceptedBits(vs) + if v.kind == Discarded then 0 else v.pkt.originalSize
  {
    assert (vs + [v])[..|vs|] == vs;
  }

  /** The handler's registers. `clock` is the capture clock, read once per ingested packet (`ticks` so far);
      `verdicts` and `delivered` are history. Uids are below 2^31, so -1 stands for "none yet" in both cursors. */
  datatype Handler = Handler(
    doCheck: bool, ingress: seq<IpPkt>, prevUid: int, prevReleased: int, out: seq<IpPkt>, now: real,
    store: Store, clock: nat -> real, ticks: nat, verdicts: seq<Verdict>,
    delivered: seq<Delivery>)
  {
    function IngestOne(info: Info): Handler {
      this.(ingress := ingress + [NewPkt(clock(ticks), info.bytes * 8, prevUid, info.uid, info.ecn)],
            prevUid := info.uid, ticks := ticks + 1)
    }

    function Ingest(): Handler
      decreases |store.captured|
    {
      if store.captured == [] then this
      else this.(store := store.Pop().0).IngestOne(store.captured[0]).Ingest()
    }

    function DropIngress(p: IpPkt): Handler {
      this.(out := SortByUid(out + [p.(erase := true, tOut := now)]))
    }

    function Push(b: HarqPkt, jitter: real): Handler {
      this.(out := SortByUid(AddAll(out, b.pkts, ReleaseTime(b, jitter), b.ipT)),
            delivered := delivered + Deliveries(b.pkts, ReleaseTime(b, jitter)))
    }

    function DropBlock(b: HarqPkt): Handler {
      this.(out := RemoveAll(out, b.pkts, b.tOut, b.ipT))
    }

    predicate CheckOrder(id: int) {
      if prevReleased > -1 && doCheck then prevReleased == id else true
    }

    // The front packet gets its verdict: spoiled ones at once, the others in order and when due.
    predicate FrontGoes() {
      out != [] && out[0].IsReady() && (out[0].erase || (CheckOrder(out[0].prevUid) && out[0].tOut <= now))
    }

    function ReleaseFront(): Handler
      requires out != []
    {
      var p := out[0];
      var (store', sent) := store.Verdict(p.uid, KindOf(p));
      this.(store := store', out := out[1..], prevReleased := p.uid,
            verdicts := verdicts + [Verdict(p, KindOf(p), sent, now)])
    }

    function Release(): Handler
      decreases |out|
    {
      if !FrontGoes() then this else ReleaseFront().Release()
    }
  }

  class CapturedPacketHandler {
    const doCheck: bool
    const clock: nat -> real
    const capture: PktCapture
    var ingressPkts: seq<IpPkt>
    var prevUid: int
    var prevReleasedId: int
    var outPkts: seq<IpPkt>
    var currentT: real
    var ticks: nat
    ghost var verdicts: seq<Verdict>
    ghost var delivered: seq<Delivery>

    ghost function State(): Handler
      reads this, capture
    {
      Handler(doCheck, ingressPkts, prevUid, prevReleasedId, outPkts, currentT,
              capture.State(), clock, ticks, verdicts, delivered)
    }

    constructor (doCheck: bool, clock: nat -> real)
      ensures State() == Handler(doCheck, [], -1, -1, [], 0.0, NO_CAPTURES, clock, 0, [], [])
      ensures fresh(capture)
    {
      this.doCheck, this.clock := doCheck, clock;
      capture := new PktCapture();
      ingressPkts, prevUid, prevReleasedId, outPkts, currentT, ticks := [], -1, -1, [], 0.0, 0;
      verdicts, delivered := [], [];
    }

    method StepTo(t: real)
      modifies this`currentT
      ensures State() == old(State()).(now := t)
    {
      currentT := t;
    }

    method Ingest()
      modifies this`ingressPkts, this`prevUid, this`ticks, capture`capturedPackets
      ensures State() == old(State()).Ingest()
    {
      while true
        invariant State().Ingest() == old(State()).Ingest()
        decreases |capture.capturedPackets|
      {
        var info := capture.PopCapturedPacket();
        if info.None? {
          break;
        }
        var pkt := NewPkt(clock(ticks), info.value.bytes * 8, prevUid, info.value.uid, info.value.ecn);
        ticks := ticks + 1;
        ingressPkts := ingressPkts + [pkt];
        prevUid := info.value.uid;
      }
    }

    method PopIngressPkt() returns (pkt: IpPkt)
      requires ingressPkts != []
      modifies this`ingressPkts
      ensures State() == old(State()).(ingress := old(ingressPkts)[1..]) && pkt == old(ingressPkts)[0]
    {
      pkt := ingressPkts[0];
      ingressPkts := ingressPkts[1..];
    }

    method DropIngressPkt(pkt: IpPkt)
      modifies this`outPkts
      ensures State() == old(State()).DropIngress(pkt)
    {
      outPkts := outPkts + [pkt.(erase := true, tOut := currentT)];
      outPkts := SortByUid(outPkts);
    }

    method Locate(uid: nat) returns (i: nat)
      ensures i == FindUid(outPkts, uid)
    {
      i := 0;
      while i < |outPkts| && outPkts[i].uid != uid
        invariant 0 <= i <= |outPkts|
        invariant forall j :: 0 <= j < i ==> outPkts[j].uid != uid
      {
        i := i + 1;
      }
    }

    method AddPkt(pkt: IpPkt)
      modifies this`outPkts
      ensures outPkts == AddData(old(outPkts), pkt)
    {
      var i := Locate(pkt.uid);
      if i < |outPkts| {
        var entry := outPkts[i];
        outPkts := outPkts[i := entry.(size := entry.size + pkt.size, fragsRecovered := entry.fragsRecovered + 1,
                                       fragsCreated := pkt.fragsCreated)];
      } else {
        outPkts := outPkts + [pkt.(fragsRecovered := pkt.fragsRecovered + 1)];
      }
    }

    method RemovePkt(pkt: IpPkt)
      modifies this`outPkts
      ensures outPkts == RemoveData(old(outPkts), pkt)
    {
      var i := Locate(pkt.uid);
      if i < |outPkts| {
        var entry := outPkts[i];
        outPkts := outPkts[i := entry.(erase := true, size := entry.size + pkt.size)];
      } else {
        outPkts := outPkts + [pkt.(erase := true)];
      }
    }

    method Push(block: HarqPkt, jitter: real)
      modifies this`outPkts, this`delivered
      ensures State() == old(State()).Push(block, jitter)
    {
      hide AddData, ReleaseTime, Deliveries;
      var tOut := ReleaseTime(block, jitter);
      var k := 0;
      while k < |block.pkts|
        invariant 0 <= k <= |block.pkts|
        invariant delivered == old(delivered)
        invariant AddAll(outPkts, block.pkts[k..], tOut, block.ipT)
               == AddAll(old(outPkts), block.pkts, tOut, block.ipT)
      {
        AddPkt(Stamped(block.pkts[k], tOut, block.ipT));
        assert block.pkts[k..][1..] == block.pkts[k + 1..];
        k := k + 1;
      }
      outPkts := SortByUid(outPkts);
      delivered := delivered + Deliveries(block.pkts, tOut);
    }

    method DropBlock(block: HarqPkt)
      modifies this`outPkts
      ensures State() == old(State()).DropBlock(block)
    {
      hide RemoveData;
      var k := 0;
      while k < |block.pkts|
        invariant 0 <= k <= |block.pkts|
        invariant RemoveAll(outPkts, block.pkts[k..], block.tOut, block.ipT)
               == RemoveAll(old(outPkts), block.pkts, block.tOut, block.ipT)
      {
        RemovePkt(Stamped(block.pkts[k], block.tOut, block.ipT));
        assert block.pkts[k..][1..] == block.pkts[k + 1..];
        k := k + 1;
      }
    }

    // Tells the capture store and removes the front entry.
    method Conclude(kind: Kind)
      requires outPkts != [] && kind == KindOf(outPkts[0])
      modifies this`outPkts, this`prevReleasedId, this`verdicts, capture`payloads
      ensures State() == old(State()).ReleaseFront()
    {
      var p := outPkts[0];
      prevReleasedId := p.uid;
      var sent := capture.Verdict(p.uid, kind);
      verdicts := verdicts + [Verdict(p, kind, sent, currentT)];
      outPkts := outPkts[1..];
    }

    method Release() returns (bits: nat)
      modifies this`outPkts, this`prevReleasedId, this`verdicts, capture`payloads
      ensures State() == old(State()).Release()
      ensures bits == AcceptedBits(verdicts) - AcceptedBits(old(verdicts))
    {
      bits := 0;
      while outPkts != []
        invariant State().Release() == old(State()).Release()
        invariant bits == AcceptedBits(verdicts) - AcceptedBits(old(verdicts))
        decreases |outPkts|
      {
        var p := outPkts[0];
        ghost var told := verdicts;
        if !p.IsReady() {
          break;
        }
        if p.erase {
          Conclude(Discarded);
        } else {
          if prevReleasedId > -1 && doCheck && prevReleasedId != p.prevUid {
            break;
          }
          if p.tOut > currentT {
            break;
          }
          bits := bits + p.originalSize;
          Conclude(if p.ceMarked then AcceptedCe else Accepted);
        }
        AcceptedSnoc(told, verdicts[|told|]);
      }
    }
  }
}
