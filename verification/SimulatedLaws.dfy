// One verdict per simulated packet, over every interleaving of drops, deliveries and releases.
module SimulatedLaws {
  import opened Packets
  import opened Capture
  import opened Simulated

  datatype Op = Dropping(b: HarqPkt) | Delivering(b: HarqPkt, jitter: real) | Releasing | Ticking(t: real)

  function Apply(h: Handler, op: Op): Handler {
    match op
    case Dropping(b) => h.Drop(b)
    case Delivering(b, jitter) => h.Push(b, jitter)
    case Releasing => h.Release()
    case Ticking(t) => h.(now := t)
  }

  function Run(h: Handler, ops: seq<Op>): Handler
    decreases |ops|
  {
    if ops == [] then h else Run(Apply(h, ops[0]), ops[1..])
  }

  const FRESH := Handler([], 0, [], map[], 0.0, [], [])

  // ----- one packet's view of lists and histories -----

  function Bits(fates: seq<Fate>, u: nat): nat {
    if fates == [] then 0
    else Bits(fates[..|fates| - 1], u) + Measure(BitsOf(u), fates[|fates| - 1].pkt)
  }

  predicate AnyDropped(fates: seq<Fate>, u: nat) {
    exists f :: f in fates && f.pkt.uid == u && f.dropped
  }

  predicate AnyMarked(fates: seq<Fate>, u: nat) {
    exists f :: f in fates && f.pkt.uid == u && f.pkt.ceMarked
  }

  function KindsFor(vs: seq<Told>, u: nat): seq<Kind> {
    if vs == [] then []
    else KindsFor(vs[..|vs| - 1], u) + if vs[|vs| - 1].uid == u then [vs[|vs| - 1].kind] else []
  }

  predicate Marks(pkts: seq<IpPkt>, u: nat) { exists p :: p in pkts && p.uid == u && p.ceMarked }

  predicate Sized(pkts: seq<IpPkt>, size: nat -> Bits) {
    forall i :: 0 <= i < |pkts| ==> pkts[i].originalSize == size(pkts[i].uid)
  }

  // The verdict a packet deserves: a drop anywhere spoils it, else a mark anywhere is signalled.
  function Deserved(dropped: bool, marked: bool): Kind {
    if dropped then Discarded else if marked then AcceptedCe else Accepted
  }

  /** One packet's tally: pending exactly while partly accounted, one verdict exactly when all bits are in. */
  ghost predicate Tally(h: Handler, size: nat -> Bits, u: nat) {
    var n := Bits(h.fates, u);
    && n <= size(u)
    && (u in h.pending <==> 0 < n < size(u))
    && (u in h.pending ==> h.pending[u] == Pending(size(u), n, AnyDropped(h.fates, u), AnyMarked(h.fates, u)))
    && KindsFor(h.verdicts, u)
       == (if n == size(u) then [Deserved(AnyDropped(h.fates, u), AnyMarked(h.fates, u))] else [])
    && (n == 0 ==> !AnyDropped(h.fates, u) && !AnyMarked(h.fates, u))
  }

  lemma FateSnoc(fates: seq<Fate>, f: Fate, u: nat)
    ensures Bits(fates + [f], u) == Bits(fates, u) + Measure(BitsOf(u), f.pkt)
    ensures AnyDropped(fates + [f], u) == (AnyDropped(fates, u) || (f.pkt.uid == u && f.dropped))
    ensures AnyMarked(fates + [f], u) == (AnyMarked(fates, u) || (f.pkt.uid == u && f.pkt.ceMarked))
  {
    assert (fates + [f])[..|fates|] == fates;
    assert f in fates + [f];
    assert forall g :: g in fates + [f] <==> g in fates || g == f;
  }

  lemma KindSnoc(vs: seq<Told>, v: Told, u: nat)
    ensures KindsFor(vs + [v], u) == KindsFor(vs, u) + if v.uid == u then [v.kind] else []
  {
    assert (vs + [v])[..|vs|] == vs;
  }

  lemma UpdateKeeps(h: Handler, p: IpPkt, dropped: bool, size: nat -> Bits, u: nat)
    requires Tally(h, size, u) && p.originalSize == size(p.uid)
    requires p.uid == u ==> Bits(h.fates, u) + p.size <= size(u)
    ensures Tally(h.Update(p, dropped), size, u)
    ensures h.Update(p, dropped).fates == h.fates + [Fate(p, dropped)]
  {
    hide Bits, AnyDropped, AnyMarked, KindsFor;
    FateSnoc(h.fates, Fate(p, dropped), u);
    if |h.Update(p, dropped).verdicts| > |h.verdicts| {
      KindSnoc(h.verdicts, h.Update(p, dropped).verdicts[|h.verdicts|], u);
    }
  }

  // What telling a list of fragments adds to one packet's history.
  ghost predicate Adds(fates: seq<Fate>, fates': seq<Fate>, pkts: seq<IpPkt>, dropped: bool, u: nat) {
    && Bits(fates', u) == Bits(fates, u) + Weigh(BitsOf(u), pkts)
    && AnyDropped(fates', u) == (AnyDropped(fates, u) || (dropped && Holds(pkts, u)))
    && AnyMarked(fates', u) == (AnyMarked(fates, u) || Marks(pkts, u))
  }

  lemma HoldsCons(p: IpPkt, rest: seq<IpPkt>, u: nat)
    ensures Holds([p] + rest, u) == (p.uid == u || Holds(rest, u))
    ensures Marks([p] + rest, u) == ((p.uid == u && p.ceMarked) || Marks(rest, u))
  {
    var all := [p] + rest;
    assert all[0] == p && forall i :: 0 < i < |all| ==> all[i] == rest[i - 1];
    assert forall i :: 0 <= i < |rest| ==> rest[i] == all[i + 1];
    assert forall q :: q in all <==> q == p || q in rest;
  }

  lemma {:induction false} UpdateAllKeeps(h: Handler, pkts: seq<IpPkt>, dropped: bool, size: nat -> Bits, u: nat)
    requires Tally(h, size, u) && Sized(pkts, size) && Bits(h.fates, u) + Weigh(BitsOf(u), pkts) <= size(u)
    ensures var h' := h.UpdateAll(pkts, dropped);
            Tally(h', size, u) && Adds(h.fates, h'.fates, pkts, dropped, u) && h'.list == h.list && h'.now == h.now
    decreases |pkts|
  {
    hide Tally, Bits, AnyDropped, AnyMarked, Holds, Marks;
    if pkts != [] {
      var p, rest := pkts[0], pkts[1..];
      assert pkts == [p] + rest;
      UpdateKeeps(h, p, dropped, size, u);
      FateSnoc(h.fates, Fate(p, dropped), u);
      HoldsCons(p, rest, u);
      UpdateAllKeeps(h.Update(p, dropped), rest, dropped, size, u);
    } else {
      assert !Holds(pkts, u) && !Marks(pkts, u) by {
        NoneHeld(u);
      }
    }
  }

  lemma NoneHeld(u: nat)
    ensures !Holds([], u) && !Marks([], u)
  {
  }

  // ----- the queue of delivered blocks -----

  predicate AllSized(blocks: seq<HarqPkt>, size: nat -> Bits) {
    forall i :: 0 <= i < |blocks| ==> Sized(blocks[i].pkts, size)
  }

  predicate MarksIn(blocks: seq<HarqPkt>, u: nat) {
    exists i :: 0 <= i < |blocks| && Marks(blocks[i].pkts, u)
  }

  /** One packet's books: its bits told and its bits queued are the `given` ones, marks included. */
  ghost predicate Books(h: Handler, queue: seq<HarqPkt>, size: nat -> Bits, u: nat, given: nat, marked: bool) {
    && Tally(h, size, u) && AllSized(queue, size)
    && Bits(h.fates, u) + WeighBlocks(BitsOf(u), queue) == given <= size(u)
    && marked == (AnyMarked(h.fates, u) || MarksIn(queue, u))
  }

  lemma {:induction false} ReleaseKeeps(h: Handler, kept: seq<HarqPkt>, rest: seq<HarqPkt>, size: nat -> Bits, u: nat,
                                        given: nat, marked: bool)
    requires Books(h, kept + rest, size, u, given, marked)
    ensures var h' := h.ReleaseRest(kept, rest);
            && Books(h', h'.list, size, u, given, marked) && h'.now == h.now
            && AnyDropped(h'.fates, u) == AnyDropped(h.fates, u)
    decreases |rest|
  {
    hide Tally, Bits, AnyDropped, AnyMarked, Marks, Sized, Weigh;
    if rest == [] {
      assert kept + rest == kept;
      TallyIgnoresQueue(h, kept, h.now, size, u);
    } else {
      var b := rest[0];
      if b.tOut <= h.now {
        OutOfQueue(kept, b, rest[1..], size, u);
        assert kept + rest == kept + ([b] + rest[1..]);
        UpdateAllKeeps(h, b.pkts, false, size, u);
        ReleaseKeeps(h.UpdateAll(b.pkts, false), kept, rest[1..], size, u, given, marked);
      } else {
        assert kept + rest == (kept + [b]) + rest[1..];
        ReleaseKeeps(h, kept + [b], rest[1..], size, u, given, marked);
      }
    }
  }

  lemma OutOfQueue(kept: seq<HarqPkt>, b: HarqPkt, rest: seq<HarqPkt>, size: nat -> Bits, u: nat)
    ensures WeighBlocks(BitsOf(u), kept + ([b] + rest)) ==
        WeighBlocks(BitsOf(u), kept + rest) + Weigh(BitsOf(u), b.pkts)
    ensures AllSized(kept + ([b] + rest), size) ==> AllSized(kept + rest, size) && Sized(b.pkts, size)
    ensures MarksIn(kept + ([b] + rest), u) == (MarksIn(kept + rest, u) || Marks(b.pkts, u))
  {
    hide Sized, Marks, Weigh;
    BlocksAppend(BitsOf(u), kept, [b] + rest);
    BlocksAppend(BitsOf(u), kept, rest);
    assert ([b] + rest)[1..] == rest;
    var all, less := kept + ([b] + rest), kept + rest;
    assert all[|kept|] == b;
    assert forall i :: 0 <= i < |less| ==> less[i] == all[if i < |kept| then i else i + 1];
    assert forall i :: 0 <= i < |all| && i != |kept| ==> all[i] == less[if i < |kept| then i else i - 1];
  }

  // ----- when a block is told -----

  function Undue(list: seq<HarqPkt>, now: real): seq<HarqPkt> {
    if list == [] then []
    else if list[0].tOut <= now then Undue(list[1..], now) else [list[0]] + Undue(list[1..], now)
  }

  function Delivered(pkts: seq<IpPkt>): seq<Fate> {
    seq(|pkts|, i requires 0 <= i < |pkts| => Fate(pkts[i], false))
  }

  function DueFates(list: seq<HarqPkt>, now: real): seq<Fate> {
    if list == [] then []
    else (if list[0].tOut <= now then Delivered(list[0].pkts) else []) + DueFates(list[1..], now)
  }

  lemma {:induction false} UpdateAllTells(h: Handler, pkts: seq<IpPkt>)
    ensures var h' := h.UpdateAll(pkts, false);
            h'.fates == h.fates + Delivered(pkts) && h'.list == h.list && h'.now == h.now
    decreases |pkts|
  {
    if pkts != [] {
      UpdateAllTells(h.Update(pkts[0], false), pkts[1..]);
      assert Delivered(pkts) == [Fate(pkts[0], false)] + Delivered(pkts[1..]);
    }
  }

  lemma {:induction false} ReleaseRestTells(h: Handler, kept: seq<HarqPkt>, rest: seq<HarqPkt>)
    ensures var h' := h.ReleaseRest(kept, rest);
            h'.list == kept + Undue(rest, h.now) && h'.fates == h.fates + DueFates(rest, h.now)
    decreases |rest|
  {
    hide Handler.UpdateAll, Delivered;
    if rest == [] {
      assert kept + [] == kept;
    } else if rest[0].tOut <= h.now {
      UpdateAllTells(h, rest[0].pkts);
      ReleaseRestTells(h.UpdateAll(rest[0].pkts, false), kept, rest[1..]);
    } else {
      ReleaseRestTells(h, kept + [rest[0]], rest[1..]);
      assert kept + [rest[0]] + Undue(rest[1..], h.now) == kept + ([rest[0]] + Undue(rest[1..], h.now));
    }
  }

  lemma Regroup<T>(a: seq<T>, b: seq<T>, c: seq<T>)
    ensures a + (b + c) == a + b + c
  {
  }

  lemma {:induction false} UndueSnoc(list: seq<HarqPkt>, b: HarqPkt, now: real)
    ensures Undue(list + [b], now) == Undue(list, now) + if b.tOut <= now then [] else [b]
  {
    if list == [] {
      assert list + [b] == [b] && [b][1..] == [];
    } else {
      UndueSnoc(list[1..], b, now);
      assert (list + [b])[1..] == list[1..] + [b];
      Regroup([list[0]], Undue(list[1..], now), if b.tOut <= now then [] else [b]);
    }
  }

  lemma {:induction false} DueSnoc(list: seq<HarqPkt>, b: HarqPkt, now: real)
    ensures DueFates(list + [b], now) == DueFates(list, now) + if b.tOut <= now then Delivered(b.pkts) else []
  {
    hide Delivered;
    if list == [] {
      assert list + [b] == [b] && [b][1..] == [];
    } else {
      DueSnoc(list[1..], b, now);
      assert (list + [b])[1..] == list[1..] + [b];
      Regroup(if list[0].tOut <= now then Delivered(list[0].pkts) else [], DueFates(list[1..], now),
              if b.tOut <= now then Delivered(b.pkts) else []);
    }
  }

  /** A delivered block is told by the first release at or after its time out plus the backhaul delay and its jitter,
      behind every block delivered before it that is due by then, and kept, in its place, by any earlier release. */
  lemma ToldOnceDue(h: Handler, b: HarqPkt, jitter: real, t: real)
    ensures var h' := h.Push(b, jitter).(now := t).Release();
            if b.tOut + b.backhaulD + jitter * b.backhaulVar <= t then
              && h'.list == Undue(h.list, t) && h'.fates == h.fates + (DueFates(h.list, t) + Delivered(b.pkts))
            else
              && |h'.list| == |Undue(h.list, t)| + 1 && h'.list[..|h'.list| - 1] == Undue(h.list, t)
              && h'.list[|h'.list| - 1].pkts == b.pkts && h'.fates == h.fates + DueFates(h.list, t)
  {
    hide Handler.ReleaseRest, Undue, DueFates, Delivered;
    var h0 := h.Push(b, jitter).(now := t);
    ReleaseRestTells(h0.(list := []), [], h0.list);
    UndueSnoc(h.list, Backhauled(b, jitter), t);
    DueSnoc(h.list, Backhauled(b, jitter), t);
  }

  // ----- runs -----

  function BlockOf(op: Op): seq<IpPkt> {
    match op
    case Dropping(b) => b.pkts
    case Delivering(b, _) => b.pkts
    case _ => []
  }

  // The bits of a packet handed over by a run, and whether any of them were dropped or marked.
  function Given(ops: seq<Op>, u: nat): nat {
    if ops == [] then 0 else Weigh(BitsOf(u), BlockOf(ops[0])) + Given(ops[1..], u)
  }

  predicate Drops(ops: seq<Op>, u: nat) {
    ops != [] && ((ops[0].Dropping? && Holds(ops[0].b.pkts, u)) || Drops(ops[1..], u))
  }

  predicate MarkedOps(ops: seq<Op>, u: nat) {
    ops != [] && (Marks(BlockOf(ops[0]), u) || MarkedOps(ops[1..], u))
  }

  // Fragments know their packet's size.
  predicate WellFormed(ops: seq<Op>, size: nat -> Bits) {
    forall i :: 0 <= i < |ops| ==> Sized(BlockOf(ops[i]), size)
  }

  lemma ApplyKeeps(h: Handler, op: Op, size: nat -> Bits, u: nat, given: nat, marked: bool)
    requires Books(h, h.list, size, u, given, marked) && Sized(BlockOf(op), size)
    requires given + Weigh(BitsOf(u), BlockOf(op)) <= size(u)
    ensures var h' := Apply(h, op);
            && Books(h', h'.list, size, u, given + Weigh(BitsOf(u), BlockOf(op)), marked || Marks(BlockOf(op), u))
            && AnyDropped(h'.fates, u) == (AnyDropped(h.fates, u) || (op.Dropping? && Holds(op.b.pkts, u)))
  {
    hide Tally, Bits, AnyDropped, AnyMarked, Marks, MarksIn, AllSized, Holds, Sized, Weigh, WeighBlocks,
         Handler.UpdateAll, Handler.ReleaseRest, Backhauled;
    NoneHeld(u);
    NothingWeighs(u);
    match op
    case Dropping(b) =>
      UpdateAllKeeps(h, b.pkts, true, size, u);
    case Delivering(b, jitter) =>
      IntoQueue(h.list, Backhauled(b, jitter), size, u);
      SameFragments(b, jitter);
      TallyIgnoresQueue(h, h.list + [Backhauled(b, jitter)], h.now, size, u);
    case Releasing =>
      assert [] + h.list == h.list;
      TallyIgnoresQueue(h, [], h.now, size, u);
      ReleaseKeeps(h.(list := []), [], h.list, size, u, given, marked);
    case Ticking(t) =>
      TallyIgnoresQueue(h, h.list, t, size, u);
  }

  lemma SameFragments(b: HarqPkt, jitter: real)
    ensures Backhauled(b, jitter).pkts == b.pkts
  {
  }

  lemma IntoQueue(list: seq<HarqPkt>, b: HarqPkt, size: nat -> Bits, u: nat)
    ensures WeighBlocks(BitsOf(u), list + [b]) == WeighBlocks(BitsOf(u), list) + Weigh(BitsOf(u), b.pkts)
    ensures AllSized(list, size) && Sized(b.pkts, size) ==> AllSized(list + [b], size)
    ensures MarksIn(list + [b], u) == (MarksIn(list, u) || Marks(b.pkts, u))
  {
    hide Marks, Sized, Weigh;
    BlocksSnoc(BitsOf(u), list, b);
    assert (list + [b])[|list|] == b;
    assert forall i :: 0 <= i < |list| ==> (list + [b])[i] == list[i];
  }

  lemma NothingWeighs(u: nat)
    ensures Weigh(BitsOf(u), []) == 0
  {
  }

  lemma TallyIgnoresQueue(h: Handler, queue: seq<HarqPkt>, t: real, size: nat -> Bits, u: nat)
    requires Tally(h, size, u)
    ensures Tally(h.(list := queue), size, u) && Tally(h.(now := t), size, u)
  {
  }

  lemma {:induction false} RunKeeps(h: Handler, ops: seq<Op>, size: nat -> Bits, u: nat, given: nat, marked: bool)
    requires Books(h, h.list, size, u, given, marked) && WellFormed(ops, size)
    requires given + Given(ops, u) <= size(u)
    ensures var h' := Run(h, ops);
            && Books(h', h'.list, size, u, given + Given(ops, u), marked || MarkedOps(ops, u))
            && AnyDropped(h'.fates, u) == (AnyDropped(h.fates, u) || Drops(ops, u))
    decreases |ops|
  {
    hide Books, AnyDropped, Marks, Holds, Sized, Weigh, Apply;
    if ops != [] {
      ApplyKeeps(h, ops[0], size, u, given, marked);
      RunKeeps(Apply(h, ops[0]), ops[1..], size, u, given + Weigh(BitsOf(u), BlockOf(ops[0])),
               marked || Marks(BlockOf(ops[0]), u));
    }
  }

  lemma StartsUntold(size: nat -> Bits, u: nat)
    ensures Books(FRESH, FRESH.list, size, u, 0, false)
  {
  }

  /** Over any run that never hands over more of a packet than there is of it: its bits are told or queued, it is
      pending exactly while partly told, and it has its one verdict, the one the pieces told deserve, exactly when all
      its bits are told. */
  lemma OneVerdictWhenAllIsTold(ops: seq<Op>, size: nat -> Bits, u: nat)
    requires WellFormed(ops, size) && Given(ops, u) <= size(u)
    ensures var h := Run(FRESH, ops);
            var told := Bits(h.fates, u);
            && told + WeighBlocks(BitsOf(u), h.list) == Given(ops, u)
            && (u in h.pending <==> 0 < told < size(u))
            && KindsFor(h.verdicts, u)
               == if told == size(u) then [Deserved(AnyDropped(h.fates, u), AnyMarked(h.fates, u))] else []
  {
    hide Run, AnyDropped, AnyMarked, Bits;
    StartsUntold(size, u);
    RunKeeps(FRESH, ops, size, u, 0, false);
  }

  /** The verdict does not depend on the order or interleaving of the fragments: once all of a packet is handed over
      and none of it is queued, it is DROP if any fragment was dropped, else ACCEPT_CE if any was marked, else
      ACCEPT. */
  lemma VerdictIgnoresOrder(ops: seq<Op>, size: nat -> Bits, u: nat)
    requires WellFormed(ops, size) && Given(ops, u) == size(u)
    requires forall b :: b in Run(FRESH, ops).list ==> !Holds(b.pkts, u)
    ensures KindsFor(Run(FRESH, ops).verdicts, u) == [Deserved(Drops(ops, u), MarkedOps(ops, u))]
    ensures u !in Run(FRESH, ops).pending
  {
    hide Run, Holds, Marks;
    RunKeeps(FRESH, ops, size, u, 0, false);
    NotQueued(Run(FRESH, ops).list, u);
  }

  lemma {:induction false} NotHeldWeighsNothing(pkts: seq<IpPkt>, u: nat)
    requires !Holds(pkts, u)
    ensures Weigh(BitsOf(u), pkts) == 0 && !Marks(pkts, u)
  {
    if pkts != [] {
      assert pkts == [pkts[0]] + pkts[1..];
      HoldsCons(pkts[0], pkts[1..], u);
      NotHeldWeighsNothing(pkts[1..], u);
    }
  }

  lemma {:induction false} NotQueued(list: seq<HarqPkt>, u: nat)
    requires forall b :: b in list ==> !Holds(b.pkts, u)
    ensures WeighBlocks(BitsOf(u), list) == 0 && !MarksIn(list, u)
  {
    hide Holds, Marks;
    if list != [] {
      assert list == [list[0]] + list[1..];
      NotHeldWeighsNothing(list[0].pkts, u);
      NotQueued(list[1..], u);
      assert forall i :: 0 < i < |list| ==> list[i] == list[1..][i - 1];
    }
  }
}
