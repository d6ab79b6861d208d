// The captured-packet store (include/netfilter/pkt_capture.h): payloads waiting for a verdict and
// the queue of captures not yet ingested.
module Capture {
  import opened Packets
  import opened Ipv4Ecn

  const ECN_CE := 3

  datatype Info = Info(uid: nat, bytes: Bits, ecn: Ecn)

  datatype Kind = Accepted | AcceptedCe | Discarded

  // What the kernel is told about a packet; MissingPayload is the fallback to a drop.
  datatype Sent = Plain | Patched(payload: seq<Byte>) | Refused | MissingPayload

  /** `seen`, `order` and `received` are history: everything ever captured, in which order and with which payload. */
  datatype Store = Store(
    payloads: map<nat, seq<Byte>>, captured: seq<Info>, seen: map<nat, Info>, order: seq<nat>,
    received: map<nat, seq<Byte>>)
  {
    function Captured(info: Info, payload: seq<Byte>): Store {
      Store(payloads[info.uid := payload], captured + [info], seen[info.uid := info], order + [info.uid],
            received[info.uid := payload])
    }

    function Pop(): (Store, Option<Info>) {
      if captured == [] then (this, None) else (this.(captured := captured[1..]), Some(captured[0]))
    }

    function Verdict(uid: nat, kind: Kind): (Store, Sent) {
      var sent :=
        match kind
        case Discarded => Refused
        case Accepted => Plain
        case AcceptedCe => if uid in payloads then Patched(Rewritten(payloads[uid], ECN_CE)) else MissingPayload;
      (this.(payloads := payloads - {uid}), sent)
    }
  }

  const NO_CAPTURES := Store(map[], [], map[], [], map[])

  class PktCapture {
    var payloads: map<nat, seq<Byte>>
    var capturedPackets: seq<Info>
    ghost var seen: map<nat, Info>
    ghost var order: seq<nat>
    ghost var received: map<nat, seq<Byte>>

    ghost function State(): Store
      reads this
    {
      Store(payloads, capturedPackets, seen, order, received)
    }

    constructor ()
      ensures State() == NO_CAPTURES
    {
      payloads, capturedPackets, seen, order, received := map[], [], map[], [], map[];
    }

    method EnqueueCapturedPacket(info: Info, payload: seq<Byte>)
      modifies this
      ensures State() == old(State()).Captured(info, payload)
    {
      payloads := payloads[info.uid := payload];
      capturedPackets := capturedPackets + [info];
      seen := seen[info.uid := info];
      order := order + [info.uid];
      received := received[info.uid := payload];
    }

    method PopCapturedPacket() returns (info: Option<Info>)
      modifies this`capturedPackets
      ensures (State(), info) == old(State()).Pop()
    {
      if capturedPackets == [] {
        return None;
      }
      info := Some(capturedPackets[0]);
      capturedPackets := capturedPackets[1..];
    }

    method Verdict(pktId: nat, kind: Kind) returns (sent: Sent)
      modifies this`payloads
      ensures (State(), sent) == old(State()).Verdict(pktId, kind)
    {
      if kind == Discarded {
        sent := Refused;
        payloads := payloads - {pktId};
        return;
      }
      if kind == Accepted {
        sent := Plain;
        payloads := payloads - {pktId};
        return;
      }
      if pktId !in payloads {
        assert payloads - {pktId} == payloads;
        return MissingPayload;
      }
      var stored := payloads[pktId];
      var payload := new Byte[|stored|](i requires 0 <= i < |stored| => stored[i]);
      assert payload[..] == stored;
      ApplyIpv4Ecn(payload, ECN_CE);
      sent := Patched(payload[..]);
      payloads := payloads - {pktId};
    }
  }
}
