// Whatever is queued, cut, marked, dropped or requeued stays a piece of something captured.
module IdentityLaws {
  import opened Packets
  import opened DualPi2
  import opened DualPi2Laws
  import opened IpBuffer
  import opened Capture
  import opened CapturedHandlerLaws

  ghost predicate LanesGenuine(q: Lanes, seen: map<nat, Info>) {
    AllGenuine(q.l, seen) && AllGenuine(q.c, seen) && AllGenuine(q.dropped, seen)
  }

  ghost predicate BufferGenuine(b: Buffer, seen: map<nat, Info>) {
    AllGenuine(b.fifo, seen) && LanesGenuine(b.q.lanes, seen)
  }

  // ----- any property of pieces that the AQM's actions and cutting keep -----

  ghost predicate Lasting(ok: IpPkt -> bool) {
    && (forall p, action :: ok(p) && Allowed(p, action) ==> ok(Treated(p, action)))
    && (forall p :: ok(p) ==> ok(Whole(p)))
    && (forall p, bits: Bits :: ok(p) ==> ok(Fragment(p, bits)))
    && (forall p, bits: nat :: ok(p) && bits < p.size ==> ok(Remainder(p, bits)))
  }

  ghost predicate Every(s: seq<IpPkt>, ok: IpPkt -> bool) {
    forall i :: 0 <= i < |s| ==> ok(s[i])
  }

  ghost predicate LanesHold(q: Lanes, ok: IpPkt -> bool) {
    Every(q.l, ok) && Every(q.c, ok) && Every(q.dropped, ok)
  }

  ghost predicate BufferHolds(b: Buffer, ok: IpPkt -> bool) {
    Every(b.fifo, ok) && LanesHold(b.q.lanes, ok)
  }

  lemma JudgeAllows(a: Aqm, cfg: Config, rng: nat -> real, p: IpPkt, s: Service)
    ensures Allowed(p, a.Judge(cfg, rng, p, s).1)
  {
    hide MarkProbability;
  }

  lemma ServeOneHolds(q: DualQ, ok: IpPkt -> bool)
    requires LanesHold(q.lanes, ok) && Lasting(ok) && q.HasPkts()
    ensures LanesHold(q.ServeOne().0.lanes, ok)
    ensures q.ServeOne().1.Some? ==> ok(q.ServeOne().1.value)
  {
    hide Aqm.Judge, Allowed, Treated;
    var fromL4s := ChooseL4s(q.cfg, q.lanes.l, q.lanes.c, q.now, q.aqm.lastClassicT);
    var (rest, p) := q.lanes.TakeHead(fromL4s);
    var s := q.Serving(p, fromL4s);
    JudgeAllows(q.aqm, q.cfg, q.unitDist, p, s);
  }

  lemma {:induction false} PopNextHolds(q: DualQ, ok: IpPkt -> bool)
    requires LanesHold(q.lanes, ok) && Lasting(ok)
    ensures LanesHold(q.PopNext().0.lanes, ok)
    ensures q.PopNext().1.Some? ==> ok(q.PopNext().1.value)
    decreases |q.lanes.l| + |q.lanes.c|
  {
    hide DualQ.ServeOne, LanesHold, Lasting;
    if q.HasPkts() {
      ServeOneHolds(q, ok);
      if q.ServeOne().1.None? {
        PopNextHolds(q.ServeOne().0, ok);
      }
    }
  }

  lemma {:induction false} FillHolds(b: Buffer, bits: nat, ok: IpPkt -> bool)
    requires BufferHolds(b, ok) && Lasting(ok)
    ensures BufferHolds(b.Fill(bits).0, ok) && Every(b.Fill(bits).1, ok)
    decreases bits
  {
    hide DualQ.PopNext, DualQ.HasPkts, Whole, Fragment, Remainder;
    if bits > 0 && b.HasPkts() {
      PopNextHolds(b.q, ok);
      var (b1, next) := b.PopNext();
      if next.Some? && next.value.size <= bits {
        FillHolds(b1, bits - next.value.size, ok);
      }
    }
  }

  lemma SizeIsNoMatter(b: Buffer, n: int, ok: IpPkt -> bool)
    requires BufferHolds(b, ok)
    ensures BufferHolds(b.(curSize := n), ok)
  {
  }

  lemma OtherOperationsHold(b: Buffer, p: IpPkt, ok: IpPkt -> bool)
    requires BufferHolds(b, ok)
    ensures ok(p) && b.Fits(p) ==> BufferHolds(b.AddPkt(p), ok)
    ensures BufferHolds(b.PopOldest().0, ok)
    ensures b.PopOldest().1.Some? ==> ok(b.PopOldest().1.value)
    ensures BufferHolds(b.PopAqmDropped().0, ok)
    ensures b.PopAqmDropped().1.Some? ==> ok(b.PopAqmDropped().1.value)
  {
  }

  // ----- being a piece of something captured is such a property -----

  lemma GenuineLasts(seen: map<nat, Info>)
    ensures Lasting(p => Genuine(p, seen))
  {
  }

  lemma GetPktsGenuine(b: Buffer, grant: nat, seen: map<nat, Info>)
    requires BufferGenuine(b, seen)
    ensures BufferGenuine(b.GetPkts(grant).0, seen) && AllGenuine(b.GetPkts(grant).1, seen)
  {
    hide Genuine, Lasting, Buffer.Fill;
    GenuineLasts(seen);
    FillHolds(b, grant, p => Genuine(p, seen));
  }

  lemma OtherOperationsGenuine(b: Buffer, p: IpPkt, t: real, seen: map<nat, Info>)
    requires BufferGenuine(b, seen)
    ensures Genuine(p, seen) && b.Fits(p) ==> BufferGenuine(b.AddPkt(p), seen)
    ensures BufferGenuine(b.PopOldest().0, seen)
    ensures b.PopOldest().1.Some? ==> Genuine(b.PopOldest().1.value, seen)
    ensures BufferGenuine(b.PopAqmDropped().0, seen)
    ensures b.PopAqmDropped().1.Some? ==> Genuine(b.PopAqmDropped().1.value, seen)
  {
    hide Genuine, Buffer.AddPkt, Buffer.PopOldest, Buffer.PopAqmDropped;
    OtherOperationsHold(b, p, q => Genuine(q, seen));
  }
}
