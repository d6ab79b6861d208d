// What every event does to the history the handler keeps: verdicts, captures and deliveries are only ever added, and
// the order check is never switched.
module Histories {
  import opened Packets
  import opened IpBuffer
  import opened Harq
  import opened Capture
  import opened CapturedHandler
  import opened CapturedHandlerLaws
  import opened PdcpLayer
  import opened PdcpInduction
  import opened PdcpRuns

  ghost predicate Extends(h: Handler, h': Handler) {
    && h.verdicts <= h'.verdicts && h.store.order <= h'.store.order && h.delivered <= h'.delivered
    && h'.doCheck == h.doCheck
  }

  ghost predicate SameHistory(h: Handler, h': Handler) {
    && h'.verdicts == h.verdicts && h'.store.order == h.store.order && h.delivered <= h'.delivered
    && h'.doCheck == h.doCheck
  }

  lemma {:induction false} ReleaseExtends(h: Handler)
    ensures Extends(h, h.Release())
    decreases |h.out|
  {
    hide Store.Verdict;
    if h.FrontGoes() {
      VerdictKeepsOrder(h.store, h.out[0].uid, KindOf(h.out[0]));
      ReleaseExtends(h.ReleaseFront());
    }
  }

  lemma StepKeepsHistory(l: Layer, t: real)
    ensures SameHistory(l.ho, l.StepTo(t).ho)
  {
    hide Layer.StepTo, Handler.Ingest, Handler.DropBlock, Buffer.AddPkt, Buffer.PopOldest, Buffer.PopAqmDropped,
         BlockOf, Buffer.OldestTimestamp, SortByUid, Harq.PopOlderThan, Buffer.StepTo;
    var inv := (k: Layer) => SameHistory(l.ho, k.ho);
    IngestOnly(l.ho.(now := t));
    forall h: Handler, b: HarqPkt
      ensures SameHistory(h, h.DropBlock(b))
    {
      DropKeepsHandler(h, b);
    }
    StepInduction(l, t, inv);
  }

  lemma CollectKeepsHistory(l: Layer)
    ensures SameHistory(l.ho, l.CollectDropped().ho)
  {
    hide Handler.DropBlock, Buffer.PopAqmDropped, Layer.CollectDropped;
    forall h: Handler, b: HarqPkt
      ensures SameHistory(h, h.DropBlock(b))
    {
      DropKeepsHandler(h, b);
    }
    CollectInduction(l, (k: Layer) => SameHistory(l.ho, k.ho));
  }

  lemma TurnKeepsHistory(l: Layer, bits: real, radio: Radio)
    requires bits > 0.0 && l.buf.HasPkts()
    ensures SameHistory(l.ho, l.Turn(bits, radio).0.ho)
  {
    hide Handler.DropBlock, Handler.Push, Buffer.GetPkts, Layer.CollectDropped, Buffer.OldestTimestamp, Buffer.HasPkts;
    var (b, out) := l.buf.GetPkts(bits.Floor);
    var block := BlockOf(l.nextId, l.buf.OldestTimestamp(), l.now, l.bhD, l.bhVar, out);
    var l1 := l.(buf := b, nextId := l.nextId + 1).CollectDropped();
    CollectKeepsHistory(l.(buf := b, nextId := l.nextId + 1));
    DropKeepsHandler(l1.ho, block);
    PushKeepsHandler(l1.ho, block, radio.jitter);
  }

  lemma GrantKeepsHistory(l: Layer, bits: real, radio: Radio)
    requires l.harq.IsPktReady() || l.Halts(bits)
    ensures SameHistory(l.ho, l.HandlePkt(bits, radio).0.ho)
  {
    hide Layer.Turn, Layer.ServeNew, Handler.Push, Handler.DropBlock, Harq.Queue;
    if l.harq.IsPktReady() {
      DropKeepsHandler(l.ho, l.harq.buf[0]);
      PushKeepsHandler(l.ho, l.harq.buf[0], radio.jitter);
    } else {
      forall k: Layer | SameHistory(l.ho, k.ho) && bits > 0.0 && k.buf.HasPkts()
        ensures SameHistory(l.ho, k.Turn(bits, radio).0.ho)
      {
        TurnKeepsHistory(k, bits, radio);
      }
      GrantInduction(l, bits, radio, (k: Layer) => SameHistory(l.ho, k.ho));
    }
  }

  // Nothing told, captured or delivered is forgotten.
  lemma EventExtends(l: Layer, e: Event)
    requires Enabled(l, e)
    ensures Extends(l.ho, Apply(l, e).ho)
  {
    hide Layer.StepTo, Layer.HandlePkt, Handler.Release;
    match e
    case Capture(info, payload) =>
    case Step(t) => StepKeepsHistory(l, t);
    case Grant(bits, radio) => GrantKeepsHistory(l, bits, radio);
    case Release => ReleaseExtends(l.ho);
    case Report =>
  }

  lemma CheckIsFixed(l: Layer, es: seq<Event>)
    requires CanRun(l, es)
    ensures Run(l, es).ho.doCheck == l.ho.doCheck
  {
    hide Enabled, Apply, Run, CanRun;
    var inv := (k: Layer) => k.ho.doCheck == l.ho.doCheck;
    forall k: Layer, e: Event | inv(k) && Enabled(k, e)
      ensures inv(Apply(k, e))
    {
      EventExtends(k, e);
    }
    RunInduction(l, es, inv);
  }
}
