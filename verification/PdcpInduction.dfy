// Induction over the pipeline's loops: what every turn of a loop keeps, the loop keeps.
module PdcpInduction {
  import opened Packets
  import opened IpBuffer
  import opened IpBufferLaws
  import opened PdcpLayer

  lemma {:induction false} DrainInduction(l: Layer, inv: Layer -> bool)
    requires inv(l) && forall k: Layer :: inv(k) && k.ho.ingress != [] ==> inv(k.DrainOne())
    ensures inv(l.DrainIngress())
    decreases |l.ho.ingress|
  {
    if l.ho.ingress != [] {
      DrainInduction(l.DrainOne(), inv);
    }
  }

  // Draining leaves nothing in ingress.
  lemma {:induction false} DrainEnds(l: Layer)
    ensures l.DrainIngress().ho.ingress == []
    ensures l.ho.ingress != [] ==> l.DrainIngress() == l.DrainOne().DrainIngress()
    decreases |l.ho.ingress|
  {
    hide SortByUid, Buffer.AddPkt;
    if l.ho.ingress != [] {
      DrainEnds(l.DrainOne());
    }
  }

  lemma {:induction false} CollectInduction(l: Layer, inv: Layer -> bool)
    requires inv(l) && forall k: Layer :: inv(k) && k.buf.PopAqmDropped().1.Some? ==> inv(k.CollectOne())
    ensures inv(l.CollectDropped())
    decreases |l.buf.q.lanes.dropped|
  {
    if l.buf.PopAqmDropped().1.Some? {
      CollectInduction(l.CollectOne(), inv);
    }
  }

  predicate LateHead(l: Layer) { l.buf.HasPkts() && l.IsExpired(l.buf.OldestTimestamp()) }

  lemma {:induction false} CleanupIpInduction(l: Layer, inv: Layer -> bool)
    requires inv(l) && forall k: Layer :: inv(k) && LateHead(k) ==> inv(k.DropOldest())
    ensures inv(l.CleanupIp())
    decreases |l.buf.fifo| + |l.buf.q.lanes.l| + |l.buf.q.lanes.c|
  {
    if LateHead(l) {
      CleanupIpInduction(l.DropOldest(), inv);
    }
  }

  predicate LateBlock(l: Layer) { l.harq.PopOlderThan(l.now - l.budget).1.Some? }

  lemma {:induction false} CleanupHarqInduction(l: Layer, inv: Layer -> bool)
    requires inv(l) && forall k: Layer :: inv(k) && LateBlock(k) ==> inv(k.DropExpiredBlock())
    ensures inv(l.CleanupHarq())
    decreases |l.harq.buf|
  {
    if LateBlock(l) {
      CleanupHarqInduction(l.DropExpiredBlock(), inv);
    }
  }

  /** What a tick's first part establishes and every turn of its loops keeps holds after the tick. */
  lemma StepInduction(l: Layer, t: real, inv: Layer -> bool)
    requires inv(l.Tick(t))
    requires forall k: Layer :: inv(k) && k.ho.ingress != [] ==> inv(k.DrainOne())
    requires forall k: Layer :: inv(k) && k.buf.PopAqmDropped().1.Some? ==> inv(k.CollectOne())
    requires forall k: Layer :: inv(k) && LateHead(k) ==> inv(k.DropOldest())
    requires forall k: Layer :: inv(k) && LateBlock(k) ==> inv(k.DropExpiredBlock())
    ensures inv(l.StepTo(t))
  {
    hide Layer.Tick, Layer.DrainIngress, Layer.CollectDropped, Layer.CleanupIp, Layer.CleanupHarq, LateHead, LateBlock;
    DrainInduction(l.Tick(t), inv);
    CollectInduction(l.Tick(t).DrainIngress(), inv);
    CleanupIpInduction(l.Tick(t).DrainIngress().CollectDropped(), inv);
    CleanupHarqInduction(l.Tick(t).DrainIngress().CollectDropped().CleanupIp(), inv);
  }

  /** What every turn of the grant loop keeps, the grant keeps. */
  lemma {:induction false} GrantInduction(l: Layer, bits: real, radio: Radio, inv: Layer -> bool)
    requires inv(l) && l.Halts(bits)
    requires forall k: Layer :: inv(k) && bits > 0.0 && k.buf.HasPkts() ==> inv(k.Turn(bits, radio).0)
    ensures inv(l.ServeNew(bits, radio).0)
    decreases Waiting(AllBits, l.buf)
  {
    hide Layer.Turn, Waiting;
    if bits > 0.0 && l.buf.HasPkts() {
      TurnShrinks(l, bits, radio);
      if l.Turn(bits, radio).1 == Again {
        GrantInduction(l.Turn(bits, radio).0, bits, radio, inv);
      }
    }
  }
}
