// What drops, refusals and ticks leave of one packet's entries in reassembly: unspoiled ones stay as they are, and a
// packet that has an entry keeps one.
module EntryLists {
  import opened Packets
  import opened IpBuffer
  import opened IpBufferLaws
  import opened Harq
  import opened CapturedHandler
  import opened CapturedHandlerLaws
  import opened PdcpLayer
  import opened PdcpInduction

  // Every unspoiled entry of the packet is as `ok` says.
  predicate Entries(out: seq<IpPkt>, u: nat, ok: IpPkt -> bool) {
    forall i :: 0 <= i < |out| && out[i].uid == u && !out[i].erase ==> ok(out[i])
  }

  // The packet's entries stay, and neither deliveries nor verdicts are added.
  ghost predicate Kept(h: Handler, h': Handler, u: nat, ok: IpPkt -> bool) {
    && Entries(h'.out, u, ok) && (Holds(h.out, u) ==> Holds(h'.out, u))
    && h'.verdicts == h.verdicts && h'.delivered == h.delivered
  }

  lemma RemoveDataEntries(out: seq<IpPkt>, p: IpPkt, u: nat, ok: IpPkt -> bool)
    requires Entries(out, u, ok)
    ensures Entries(RemoveData(out, p), u, ok)
    ensures Holds(out, u) || p.uid == u ==> Holds(RemoveData(out, p), u)
  {
    var i, out' := FindUid(out, p.uid), RemoveData(out, p);
    assert out'[i].uid == p.uid && forall j :: 0 <= j < |out| ==> out'[j].uid == out[j].uid;
  }

  lemma {:induction false} RemoveAllEntries(out: seq<IpPkt>, pkts: seq<IpPkt>, tOut: real, ipT: real, u: nat,
      ok: IpPkt -> bool)
    requires Entries(out, u, ok)
    ensures Entries(RemoveAll(out, pkts, tOut, ipT), u, ok)
    ensures Holds(out, u) || Holds(pkts, u) ==> Holds(RemoveAll(out, pkts, tOut, ipT), u)
    decreases |pkts|
  {
    hide Entries, RemoveData;
    if pkts != [] {
      RemoveDataEntries(out, Stamped(pkts[0], tOut, ipT), u, ok);
      RemoveAllEntries(RemoveData(out, Stamped(pkts[0], tOut, ipT)), pkts[1..], tOut, ipT, u, ok);
      assert forall i :: 0 < i < |pkts| ==> pkts[i] == pkts[1..][i - 1];
    }
  }

  lemma SortEntries(out: seq<IpPkt>, u: nat, ok: IpPkt -> bool)
    requires Entries(out, u, ok)
    ensures Entries(SortByUid(out), u, ok) && (Holds(out, u) ==> Holds(SortByUid(out), u))
  {
    hide SortByUid;
    SortKeepsMembers(out);
    var r := SortByUid(out);
    forall i | 0 <= i < |r|
      ensures r[i] in out
    {
      assert r[i] in r;
    }
    if Holds(out, u) {
      var i :| 0 <= i < |out| && out[i].uid == u;
      assert out[i] in r;
    }
  }

  lemma DropEntries(h0: Handler, h: Handler, block: HarqPkt, u: nat, ok: IpPkt -> bool)
    requires Kept(h0, h, u, ok)
    ensures Kept(h0, h.DropBlock(block), u, ok)
  {
    hide Entries, Holds, RemoveAll;
    RemoveAllEntries(h.out, block.pkts, block.tOut, block.ipT, u, ok);
  }

  lemma RefusalEntries(out: seq<IpPkt>, e: IpPkt, u: nat, ok: IpPkt -> bool)
    requires Entries(out, u, ok) && e.erase
    ensures Entries(SortByUid(out + [e]), u, ok) && (Holds(out, u) ==> Holds(SortByUid(out + [e]), u))
  {
    hide SortByUid;
    assert forall i :: 0 <= i < |out| ==> (out + [e])[i] == out[i];
    SortEntries(out + [e], u, ok);
  }

  lemma CollectEntries(l: Layer, u: nat, ok: IpPkt -> bool)
    requires Entries(l.ho.out, u, ok)
    ensures var l' := l.CollectDropped();
            Kept(l.ho, l'.ho, u, ok) && l'.harq == l.harq && l'.buf.q.aqm.log == l.buf.q.aqm.log
  {
    hide Entries, Holds, Layer.CollectDropped, Handler.DropBlock;
    var inv := (k: Layer) => Kept(l.ho, k.ho, u, ok) && k.harq == l.harq && k.buf.q.aqm.log == l.buf.q.aqm.log;
    forall k: Layer | inv(k) && k.buf.PopAqmDropped().1.Some?
      ensures inv(k.CollectOne())
    {
      DropEntries(l.ho, k.ho, AqmBlock(k.buf.PopAqmDropped().1.value, k.buf.PopAqmDropped().0.now), u, ok);
    }
    CollectInduction(l, inv);
  }

  lemma LoopsEntries(h0: Handler, k: Layer, u: nat, ok: IpPkt -> bool)
    requires Kept(h0, k.ho, u, ok)
    ensures k.ho.ingress != [] ==> Kept(h0, k.DrainOne().ho, u, ok)
    ensures k.buf.PopAqmDropped().1.Some? ==> Kept(h0, k.CollectOne().ho, u, ok)
    ensures LateHead(k) ==> Kept(h0, k.DropOldest().ho, u, ok)
    ensures LateBlock(k) ==> Kept(h0, k.DropExpiredBlock().ho, u, ok)
  {
    hide Entries, Holds, Handler.DropBlock, SortByUid, BlockOf, Buffer.PopOldest, Buffer.PopAqmDropped,
         Buffer.OldestTimestamp, Buffer.AddPkt, Harq.PopOlderThan;
    if k.ho.ingress != [] {
      RefusalEntries(k.ho.out, k.ho.ingress[0].(erase := true, tOut := k.ho.now), u, ok);
    }
    if k.buf.PopAqmDropped().1.Some? {
      var (b, victim) := k.buf.PopAqmDropped();
      DropEntries(h0, k.ho, AqmBlock(victim.value, b.now), u, ok);
    }
    if LateHead(k) {
      PopOldestFindsOne(k.buf);
      var p := k.buf.PopOldest().1.value;
      DropEntries(h0, k.ho, BlockOf(k.nextId, k.buf.OldestTimestamp(), k.now, k.bhD, k.bhVar, [p]), u, ok);
    }
    if LateBlock(k) {
      DropEntries(h0, k.ho, k.harq.PopOlderThan(k.now - k.budget).1.value, u, ok);
    }
  }

  lemma LoopsLeaveTheLog(k: Layer)
    ensures k.ho.ingress != [] ==> k.DrainOne().harq == k.harq && k.DrainOne().buf.q.aqm.log == k.buf.q.aqm.log
    ensures k.buf.PopAqmDropped().1.Some? ==>
              k.CollectOne().harq == k.harq && k.CollectOne().buf.q.aqm.log == k.buf.q.aqm.log
    ensures LateHead(k) ==> k.DropOldest().harq == k.harq && k.DropOldest().buf.q.aqm.log == k.buf.q.aqm.log
    ensures LateBlock(k) ==> k.DropExpiredBlock().buf == k.buf && k.harq.buf != []
  {
    hide SortByUid, Handler.DropBlock, BlockOf;
  }

  /** A tick, one turn of its loops after another. */
  lemma StepEntries(l: Layer, t: real, u: nat, ok: IpPkt -> bool)
    requires Entries(l.ho.out, u, ok)
    ensures var s := l.StepTo(t);
            && Kept(l.ho, s.ho, u, ok) && s.buf.q.aqm.log == l.buf.q.aqm.log
            && (l.harq.buf == [] ==> s.harq.buf == [])
  {
    var inv := (k: Layer) =>
      && Kept(l.ho, k.ho, u, ok) && k.buf.q.aqm.log == l.buf.q.aqm.log && (l.harq.buf == [] ==> k.harq.buf == []);
    IngestOnly(l.ho.(now := t));
    StepKeepsQueues(l.buf, t);
    hide Entries, Holds, Handler.Ingest, Buffer.StepTo, Layer.StepTo, Layer.DrainOne, Layer.CollectOne,
         Layer.DropOldest, Layer.DropExpiredBlock;
    assert inv(l.Tick(t));
    forall k: Layer | inv(k)
      ensures k.ho.ingress != [] ==> inv(k.DrainOne())
      ensures k.buf.PopAqmDropped().1.Some? ==> inv(k.CollectOne())
      ensures LateHead(k) ==> inv(k.DropOldest())
      ensures LateBlock(k) ==> inv(k.DropExpiredBlock())
    {
      LoopsEntries(l.ho, k, u, ok);
      LoopsLeaveTheLog(k);
    }
    StepInduction(l, t, inv);
  }
}
