// The retransmission buffer (src/mac_layer/harq_handler.cpp).
module Harq {
  import opened Packets

  const INF := 1000000000.0

  // The first block older than the limit, or the buffer's length if there is none.
  function FirstOlder(buf: seq<HarqPkt>, limit: real): (i: nat)
    ensures i <= |buf|
    ensures i < |buf| ==> buf[i].ipT < limit
    ensures forall j :: 0 <= j < i ==> buf[j].ipT >= limit
  {
    if buf == [] then 0
    else if buf[0].ipT < limit then 0
    else 1 + FirstOlder(buf[1..], limit)
  }

  // When the buffer looks ready again after a block has been taken out of it.
  function NextOut(buf: seq<HarqPkt>): real {
    if buf == [] then INF else buf[0].tOut
  }

  function Delayed(b: HarqPkt, ackDelay: real): HarqPkt {
    b.(tOut := b.currentT + ackDelay)
  }

  /** The buffer's registers; `tOut` caches the newest block's time after an insertion and the front
      block's after a removal. `served` is history: the ids taken out for service, in order. */
  datatype Harq = Harq(buf: seq<HarqPkt>, tOut: real, now: real, served: seq<nat>) {
    predicate IsPktReady() { buf != [] && tOut <= now }

    function AddPkts(b: HarqPkt, ackDelay: real): Harq {
      this.(buf := buf + [Delayed(b, ackDelay)], tOut := b.currentT + ackDelay)
    }

    // A block that failed again goes to the back with one more transmission on its count.
    function Queue(b: HarqPkt, ackDelay: real): Harq {
      AddPkts(b.(nTx := b.nTx + 1), ackDelay)
    }

    function GetPkt(): (Harq, HarqPkt)
      requires buf != []
    {
      (this.(buf := buf[1..], tOut := NextOut(buf[1..]), served := served + [buf[0].id]), buf[0])
    }

    function PopOlderThan(limit: real): (r: (Harq, Option<HarqPkt>))
      ensures if r.1.Some? then |r.0.buf| + 1 == |buf| else r.0 == this
    {
      var i := FirstOlder(buf, limit);
      if i == |buf| then (this, None)
      else
        var rest := buf[..i] + buf[i + 1..];
        (this.(buf := rest, tOut := NextOut(rest)), Some(buf[i]))
    }
  }

  class HarqHandler {
    var harqBuffer: seq<HarqPkt>
    var tOut: real
    var currentT: real
    ghost var served: seq<nat>

    ghost function State(): Harq
      reads this
    {
      Harq(harqBuffer, tOut, currentT, served)
    }

    constructor ()
      ensures State() == Harq([], -1.0, 0.0, [])
    {
      harqBuffer, tOut, currentT, served := [], -1.0, 0.0, [];
    }

    method StepTo(t: real)
      modifies this`currentT
      ensures State() == old(State()).(now := t)
    {
      currentT := t;
    }

    method IsPktReady() returns (ready: bool)
      ensures ready == State().IsPktReady()
    {
      return harqBuffer != [] && tOut <= currentT;
    }

    method Queue(pkt: HarqPkt, ackDelay: real)
      modifies this`harqBuffer, this`tOut
      ensures State() == old(State()).Queue(pkt, ackDelay)
    {
      var p := Delayed(pkt.(nTx := pkt.nTx + 1), ackDelay);
      harqBuffer := harqBuffer + [p];
      tOut := p.tOut;
    }

    method AddPkts(pkt: HarqPkt, ackDelay: real)
      modifies this`harqBuffer, this`tOut
      ensures State() == old(State()).AddPkts(pkt, ackDelay)
    {
      var p := Delayed(pkt, ackDelay);
      harqBuffer := harqBuffer + [p];
      tOut := p.tOut;
    }

    method GetPkt() returns (pkt: HarqPkt)
      requires State().IsPktReady()
      modifies this`harqBuffer, this`tOut, this`served
      ensures (State(), pkt) == old(State()).GetPkt()
    {
      pkt := harqBuffer[0];
      if |harqBuffer| > 1 {
        harqBuffer := harqBuffer[1..];
        tOut := harqBuffer[0].tOut;
      } else {
        tOut := INF;
        harqBuffer := [];
      }
      served := served + [pkt.id];
    }

    method PopPktOlderThan(oldestAllowed: real) returns (pkt: Option<HarqPkt>)
      modifies this`harqBuffer, this`tOut
      ensures (State(), pkt) == old(State()).PopOlderThan(oldestAllowed)
    {
      var i := 0;
      while i < |harqBuffer|
        invariant 0 <= i <= |harqBuffer|
        invariant forall j :: 0 <= j < i ==> harqBuffer[j].ipT >= oldestAllowed
      {
        if harqBuffer[i].ipT >= oldestAllowed {
          i := i + 1;
          continue;
        }
        pkt := Some(harqBuffer[i]);
        harqBuffer := harqBuffer[..i] + harqBuffer[i + 1..];
        tOut := if harqBuffer != [] then harqBuffer[0].tOut else INF;
        return;
      }
      return None;
    }
  }
}
