// The retransmission buffer over whole runs.
module HarqLaws {
  import opened Packets
  import opened Harq

  // The transmission limit is the literal 4 of the service routine: five transmissions in all.
  const MAX_TURNS := 5

  // How often a block id was taken out for service.
  function Turns(served: seq<nat>, id: nat): nat {
    if served == [] then 0
    else Turns(served[..|served| - 1], id) + if served[|served| - 1] == id then 1 else 0
  }

  // How many service turns the buffered entries of a block id may still take.
  function TurnsLeft(buf: seq<HarqPkt>, id: nat): int {
    if buf == [] then 0
    else (if buf[0].id == id then MAX_TURNS - buf[0].nTx else 0) + TurnsLeft(buf[1..], id)
  }

  ghost predicate Counted(buf: seq<HarqPkt>) {
    forall b :: b in buf ==> b.nTx < MAX_TURNS
  }

  /** Turns taken, turns left and, for an id not issued yet, the whole allowance: never more than five; and a block's
      count is the number of turns it has had. */
  ghost predicate WithinTurns(h: Harq, nextId: nat, id: nat) {
    && Counted(h.buf)
    && Turns(h.served, id) + TurnsLeft(h.buf, id) + (if id >= nextId then MAX_TURNS else 0) <= MAX_TURNS
    && (forall i :: 0 <= i < |h.buf| && h.buf[i].id == id ==> h.buf[i].nTx == Turns(h.served, id))
  }

  lemma {:induction false} TurnsLeftAppend(a: seq<HarqPkt>, b: seq<HarqPkt>, id: nat)
    ensures TurnsLeft(a + b, id) == TurnsLeft(a, id) + TurnsLeft(b, id)
  {
    if a == [] {
      assert a + b == b;
    } else {
      TurnsLeftAppend(a[1..], b, id);
      assert (a + b)[1..] == a[1..] + b;
    }
  }

  lemma {:induction false} TurnsLeftBounds(buf: seq<HarqPkt>, id: nat)
    requires Counted(buf)
    ensures TurnsLeft(buf, id) >= 0
    ensures forall i :: 0 <= i < |buf| && buf[i].id == id ==> TurnsLeft(buf, id) >= MAX_TURNS - buf[i].nTx >= 1
  {
    if buf != [] {
      TurnsLeftBounds(buf[1..], id);
      assert forall i :: 0 < i < |buf| ==> buf[i] == buf[1..][i - 1];
      assert forall b :: b in buf[1..] ==> b in buf;
    }
  }

  /** A block leaves the buffer by its fifth turn: no id is ever served more than five times, and one that
      was served five times is no longer buffered. */
  lemma FiveTurnsAtMost(h: Harq, nextId: nat, id: nat)
    requires WithinTurns(h, nextId, id)
    ensures Turns(h.served, id) <= MAX_TURNS
    ensures Turns(h.served, id) == MAX_TURNS ==> forall b :: b in h.buf ==> b.id != id
  {
    TurnsLeftBounds(h.buf, id);
  }

  lemma AddKeepsTurns(h: Harq, b: HarqPkt, ackDelay: real, nextId: nat, id: nat)
    requires WithinTurns(h, nextId, id) && b.nTx == 0 && b.id == nextId
    ensures WithinTurns(h.AddPkts(b, ackDelay), nextId + 1, id)
  {
    TurnsLeftAppend(h.buf, [Delayed(b, ackDelay)], id);
    TurnsLeftBounds(h.buf, id);
  }

  /** One service turn: the front block is delivered or, if it failed, requeued below the limit and given up at it. */
  lemma ServeKeepsTurns(h: Harq, failed: bool, ackDelay: real, nextId: nat, id: nat)
    requires WithinTurns(h, nextId, id) && h.buf != []
    ensures var (h', b) := h.GetPkt();
            WithinTurns(if failed && b.nTx < 4 then h'.Queue(b, ackDelay) else h', nextId, id)
  {
    var (h', b) := h.GetPkt();
    assert (h.served + [b.id])[..|h.served|] == h.served;
    assert h.buf == [b] + h'.buf;
    TurnsLeftAppend(h'.buf, [Delayed(b.(nTx := b.nTx + 1), ackDelay)], id);
    TurnsLeftBounds(h'.buf, id);
    assert forall i :: 0 <= i < |h'.buf| ==> h'.buf[i] == h.buf[i + 1];
  }

  /** A block that fails is kept exactly if it has now had fewer than five turns; whatever is kept of its id is that
      one block. */
  lemma GivenUpAtTheFifth(h: Harq, ackDelay: real, nextId: nat)
    requires h.buf != [] && WithinTurns(h, nextId, h.buf[0].id)
    ensures var (h1, b) := h.GetPkt();
            var h' := if b.nTx < 4 then h1.Queue(b, ackDelay) else h1;
            && Turns(h'.served, b.id) == Turns(h.served, b.id) + 1
            && ((exists i :: 0 <= i < |h'.buf| && h'.buf[i].id == b.id) <==> Turns(h'.served, b.id) < MAX_TURNS)
  {
    var (h1, b) := h.GetPkt();
    var h' := if b.nTx < 4 then h1.Queue(b, ackDelay) else h1;
    assert (h.served + [b.id])[..|h.served|] == h.served;
    assert h.buf == [b] + h1.buf;
    assert forall i :: 0 <= i < |h1.buf| ==> h1.buf[i] == h.buf[i + 1];
    TurnsLeftBounds(h1.buf, b.id);
    if b.nTx < 4 {
      assert h'.buf[|h1.buf|].id == b.id;
    }
  }

  function Ids(buf: seq<HarqPkt>): seq<nat> {
    if buf == [] then [] else [buf[0].id] + Ids(buf[1..])
  }

  lemma {:induction false} IdsSnoc(buf: seq<HarqPkt>, b: HarqPkt)
    ensures Ids(buf + [b]) == Ids(buf) + [b.id]
  {
    if buf == [] {
      assert buf + [b] == [b];
    } else {
      IdsSnoc(buf[1..], b);
      assert (buf + [b])[1..] == buf[1..] + [b];
    }
  }

  /** First in, first out: what was served and then what waits is only ever added to at the end, by new blocks and by
      those that failed and may try again. */
  lemma BlocksAreServedInOrder(h: Harq, failed: bool, ackDelay: real, added: HarqPkt)
    requires h.buf != []
    ensures var (h1, b) := h.GetPkt();
            var again := failed && b.nTx < 4;
            var h' := if again then h1.Queue(b, ackDelay) else h1;
            h'.served + Ids(h'.buf) == h.served + Ids(h.buf) + if again then [b.id] else []
    ensures var h' := h.AddPkts(added, ackDelay); h'.served + Ids(h'.buf) == h.served + Ids(h.buf) + [added.id]
  {
    var (h1, b) := h.GetPkt();
    IdsSnoc(h1.buf, Delayed(b.(nTx := b.nTx + 1), ackDelay));
    IdsSnoc(h.buf, Delayed(added, ackDelay));
    assert h.served + [b.id] + Ids(h1.buf) == h.served + Ids(h.buf);
  }

  /** When the front block may be taken: after an insertion once the acknowledgement delay of the block inserted last is
      over, counted from when that block was built, and after a removal once that of the new front is. */
  lemma ReadyAfterTheDelay(h: Harq, b: HarqPkt, ackDelay: real, t: real)
    ensures h.AddPkts(b, ackDelay).(now := t).IsPktReady() <==> b.currentT + ackDelay <= t
    ensures h.Queue(b, ackDelay).(now := t).IsPktReady() <==> b.currentT + ackDelay <= t
    ensures |h.buf| > 1 ==> (h.GetPkt().0.(now := t).IsPktReady() <==> h.buf[1].tOut <= t)
    ensures |h.buf| == 1 ==> !h.GetPkt().0.(now := t).IsPktReady()
  {
  }

  lemma PopKeepsTurns(h: Harq, limit: real, nextId: nat, id: nat)
    requires WithinTurns(h, nextId, id)
    ensures WithinTurns(h.PopOlderThan(limit).0, nextId, id)
    ensures WithinTurns(h.PopOlderThan(limit).0, nextId + 1, id)
  {
    var i := FirstOlder(h.buf, limit);
    if i < |h.buf| {
      Without(h.buf, i, id);
      hide TurnsLeft, Turns, FirstOlder, Counted;
      var rest := h.buf[..i] + h.buf[i + 1..];
      assert forall j :: 0 <= j < |rest| ==> rest[j] == h.buf[if j < i then j else j + 1];
    }
  }

  lemma Without(buf: seq<HarqPkt>, i: nat, id: nat)
    requires i < |buf| && Counted(buf)
    ensures var rest := buf[..i] + buf[i + 1..]; Counted(rest) && TurnsLeft(rest, id) <= TurnsLeft(buf, id)
  {
    var a, b, c := buf[..i], buf[i], buf[i + 1..];
    assert buf == a + ([b] + c) && ([b] + c)[1..] == c && b in buf;
    TurnsLeftAppend(a, [b] + c, id);
    TurnsLeftAppend(a, c, id);
  }

  // ----- service with nothing new arriving empties the buffer -----

  function AllTurnsLeft(buf: seq<HarqPkt>): int {
    if buf == [] then 0 else MAX_TURNS - buf[0].nTx + AllTurnsLeft(buf[1..])
  }

  lemma {:induction false} AllTurnsAppend(a: seq<HarqPkt>, b: HarqPkt)
    ensures AllTurnsLeft(a + [b]) == AllTurnsLeft(a) + MAX_TURNS - b.nTx
  {
    if a == [] {
      assert a + [b] == [b];
    } else {
      AllTurnsAppend(a[1..], b);
      assert (a + [b])[1..] == a[1..] + [b];
    }
  }

  function ServeTurns(h: Harq, fails: nat -> bool, delays: nat -> real, n: nat): Harq
    decreases n
  {
    if n == 0 || h.buf == [] then h
    else
      var (h', b) := h.GetPkt();
      ServeTurns(if fails(n) && b.nTx < 4 then h'.Queue(b, delays(n)) else h', fails, delays, n - 1)
  }

  /** Whatever fails, the turns the buffered blocks have left are enough to empty the buffer. */
  lemma {:induction false} TurnsEmptyTheBuffer(h: Harq, fails: nat -> bool, delays: nat -> real, n: nat)
    requires Counted(h.buf) && n >= AllTurnsLeft(h.buf)
    ensures ServeTurns(h, fails, delays, n).buf == []
    decreases n
  {
    if h.buf != [] {
      var (h', b) := h.GetPkt();
      assert h.buf == [b] + h'.buf;
      AllTurnsNonNegative(h'.buf);
      AllTurnsAppend(h'.buf, Delayed(b.(nTx := b.nTx + 1), delays(n)));
      TurnsEmptyTheBuffer(if fails(n) && b.nTx < 4 then h'.Queue(b, delays(n)) else h', fails, delays, n - 1);
    }
  }

  lemma {:induction false} AllTurnsNonNegative(buf: seq<HarqPkt>)
    requires Counted(buf)
    ensures AllTurnsLeft(buf) >= 0
  {
    if buf != [] {
      AllTurnsNonNegative(buf[1..]);
    }
  }
}
