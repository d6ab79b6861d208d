// Reassembly undoes fragmentation: pieces taken off a FIFO and joined in order give back the packets,
// whatever the grants were and even when some pieces arrive as drops.
module Reassembly {
  import opened Packets
  import opened IpBuffer
  import opened CapturedHandler
  import opened FifoStream

  ghost predicate Increasing(order: seq<nat>) {
    forall i, j :: 0 <= i < j < |order| ==> order[i] < order[j]
  }

  // The uid captured just before the packet at `n`, or -1 before the first.
  function LastOf(order: seq<nat>, n: nat): int
    requires n <= |order|
  {
    if n == 0 then -1 else order[n - 1]
  }

  /** A stretch of a stream of packets, each with the predecessor's uid it was given: those from `base` up to, not
      including, `end`. */
  datatype Course = Course(order: seq<nat>, prev: seq<int>, base: nat, end: nat)

  ghost predicate Placed(s: seq<IpPkt>, c: Course, at: int) {
    && 0 <= at && at + |s| <= |c.order| && |c.prev| == |c.order|
    && forall i :: 0 <= i < |s| ==> s[i].uid == c.order[at + i] && s[i].prevUid == c.prev[at + i]
  }

  predicate Untouched(p: IpPkt) {
    !p.isFragment && p.size == p.originalSize && p.fragsCreated == 0 && p.fragsRecovered == 0 && !p.erase
  }

  // All its bits are back and, unless spoiled, every fragment made of it was recovered.
  predicate Complete(p: IpPkt) {
    p.IsReady() && (p.erase || p.fragsRecovered == p.fragsCreated)
  }

  // A reassembly entry and the queued remainder of the same packet.
  predicate Halves(entry: IpPkt, rest: IpPkt) {
    && entry.size + rest.size == entry.originalSize == rest.originalSize && rest.isFragment
    && (entry.erase || entry.fragsRecovered == entry.fragsCreated == rest.fragsCreated)
  }

  // The newest reassembly entry still misses bits.
  predicate Open(out: seq<IpPkt>) {
    out != [] && !out[|out| - 1].IsReady()
  }

  function Seam(out: seq<IpPkt>): nat {
    if Open(out) then 1 else 0
  }

  // Reassembly list and line together are the packets of the course, in order and each once, except that the
  // last entry and the head of the line share a packet while that entry is open.
  ghost predicate InPlace(out: seq<IpPkt>, line: seq<IpPkt>, c: Course) {
    && Increasing(c.order) && Placed(out, c, c.base) && Placed(line, c, c.base + |out| - Seam(out))
    && c.base + |out| - Seam(out) + |line| == c.end
  }

  ghost predicate Unbroken(out: seq<IpPkt>, line: seq<IpPkt>) {
    && (Open(out) ==> line != [] && Halves(out[|out| - 1], line[0]))
    && (forall i :: 0 <= i < |out| - Seam(out) ==> Complete(out[i]))
    && (forall j :: Seam(out) <= j < |line| ==> Untouched(line[j]))
  }

  /** The packets of the course, in order, each once and whole: reassembled, untouched in the line, or the two
      halves of one at the seam. */
  ghost predicate Rejoins(out: seq<IpPkt>, line: seq<IpPkt>, c: Course) {
    InPlace(out, line, c) && Unbroken(out, line)
  }

  // ----- one piece -----

  function Join(out: seq<IpPkt>, p: IpPkt, drop: bool): seq<IpPkt> {
    if drop then RemoveData(out, p) else AddData(out, p)
  }

  // `q` carries `bits` of `p`; a delivered piece counts the cut that made it.
  predicate Piece(q: IpPkt, p: IpPkt, bits: int, drop: bool) {
    && q.uid == p.uid && q.prevUid == p.prevUid && q.originalSize == p.originalSize && q.size == bits
    && q.fragsRecovered == p.fragsRecovered && q.erase == p.erase && (drop || q.fragsCreated == p.fragsCreated + 1)
  }

  lemma OnePlaceEach(order: seq<nat>, i: nat, j: nat)
    requires Increasing(order) && i < |order| && j < |order| && order[i] == order[j]
    ensures i == j
  {
  }

  lemma SeamIsFound(out: seq<IpPkt>, line: seq<IpPkt>, c: Course)
    requires InPlace(out, line, c) && line != []
    ensures FindUid(out, line[0].uid) == |out| - Seam(out)
  {
    hide Increasing, Open, FindUid;
    SeamFits(out);
    var k := |out| - Seam(out);
    assert line[0].uid == c.order[c.base + k];
    assert k < |out| ==> out[k].uid == c.order[c.base + k];
    var i := FindUid(out, line[0].uid);
    if i < |out| {
      assert out[i].uid == c.order[c.base + i];
      OnePlaceEach(c.order, c.base + i, c.base + k);
    }
  }

  lemma SeamFits(out: seq<IpPkt>)
    ensures |out| - 1 <= |out| - Seam(out) <= |out| && |out| - Seam(out) >= 0
  {
  }

  // Where a piece of the head of the line lands, and what the landing entry then holds.
  lemma Landing(out: seq<IpPkt>, line: seq<IpPkt>, c: Course, q: IpPkt, bits: int, drop: bool)
    requires Rejoins(out, line, c) && line != [] && bits <= line[0].size && Piece(q, line[0], bits, drop)
    ensures var out' := Join(out, q, drop); var k: int := |out| - Seam(out);
            && k >= 0 && |out'| == k + 1 && out'[..k] == out[..k]
            && out'[k].uid == line[0].uid && out'[k].prevUid == line[0].prevUid
            && (if bits == line[0].size then Complete(out'[k]) else Halves(out'[k], Remainder(line[0], bits)))
  {
    SeamIsFound(out, line, c);
    if Open(out) {
      SeamIsShared(out, line, c);
    } else {
      assert Untouched(line[0]);
    }
    hide InPlace, FindUid;
  }

  lemma SeamIsShared(out: seq<IpPkt>, line: seq<IpPkt>, c: Course)
    requires InPlace(out, line, c) && Open(out) && line != []
    ensures out[|out| - 1].uid == line[0].uid && out[|out| - 1].prevUid == line[0].prevUid
  {
    hide Increasing;
  }

  lemma LastInPlace(out: seq<IpPkt>, out': seq<IpPkt>, line: seq<IpPkt>, c: Course)
    requires InPlace(out, line, c) && line != []
    requires !Open(out') && |out'| == |out| - Seam(out) + 1 && out'[..|out'| - 1] == out[..|out| - Seam(out)]
    requires out'[|out'| - 1].uid == line[0].uid && out'[|out'| - 1].prevUid == line[0].prevUid
    ensures InPlace(out', line[1..], c)
  {
    hide Increasing, IpPkt.IsReady;
    forall i | 0 <= i < |out'| - 1
      ensures out'[i] == out[i]
    {
      assert out'[..|out'| - 1][i] == out[..|out| - Seam(out)][i];
    }
  }

  lemma LastUnbroken(out: seq<IpPkt>, out': seq<IpPkt>, line: seq<IpPkt>)
    requires Unbroken(out, line) && line != []
    requires !Open(out') && |out'| == |out| - Seam(out) + 1 && out'[..|out'| - 1] == out[..|out| - Seam(out)]
    requires Complete(out'[|out'| - 1])
    ensures Unbroken(out', line[1..])
  {
    hide Halves, Untouched, Complete, IpPkt.IsReady;
    forall i | 0 <= i < |out'| - 1
      ensures Complete(out'[i])
    {
      assert out'[..|out'| - 1][i] == out[..|out| - Seam(out)][i];
    }
  }

  lemma JoinLast(out: seq<IpPkt>, line: seq<IpPkt>, c: Course, q: IpPkt, drop: bool)
    requires Rejoins(out, line, c) && line != [] && Piece(q, line[0], line[0].size, drop)
    ensures Rejoins(Join(out, q, drop), line[1..], c) && !Open(Join(out, q, drop))
  {
    hide Join, Piece, Untouched, Halves, InPlace, Unbroken;
    Landing(out, line, c, q, line[0].size, drop);
    LastInPlace(out, Join(out, q, drop), line, c);
    LastUnbroken(out, Join(out, q, drop), line);
  }

  lemma CutInPlace(out: seq<IpPkt>, out': seq<IpPkt>, line: seq<IpPkt>, c: Course, r: IpPkt)
    requires InPlace(out, line, c) && line != [] && r.uid == line[0].uid && r.prevUid == line[0].prevUid
    requires Open(out') && |out'| == |out| - Seam(out) + 1 && out'[..|out'| - 1] == out[..|out| - Seam(out)]
    requires out'[|out'| - 1].uid == r.uid && out'[|out'| - 1].prevUid == r.prevUid
    ensures InPlace(out', line[0 := r], c)
  {
    hide Increasing, IpPkt.IsReady;
    assert Seam(out') == 1;
    forall i | 0 <= i < |out'| - 1
      ensures out'[i] == out[i]
    {
      assert out'[..|out'| - 1][i] == out[..|out| - Seam(out)][i];
    }
  }

  lemma CutUnbroken(out: seq<IpPkt>, out': seq<IpPkt>, line: seq<IpPkt>, r: IpPkt)
    requires Unbroken(out, line) && line != []
    requires Open(out') && |out'| == |out| - Seam(out) + 1 && out'[..|out'| - 1] == out[..|out| - Seam(out)]
    requires Halves(out'[|out'| - 1], r)
    ensures Unbroken(out', line[0 := r])
  {
    hide Halves, Untouched, Complete, IpPkt.IsReady;
    assert Seam(out') == 1;
    forall i | 0 <= i < |out'| - 1
      ensures Complete(out'[i])
    {
      assert out'[..|out'| - 1][i] == out[..|out| - Seam(out)][i];
    }
  }

  lemma JoinCut(out: seq<IpPkt>, line: seq<IpPkt>, c: Course, q: IpPkt, bits: Bits, drop: bool)
    requires Rejoins(out, line, c) && line != [] && bits < line[0].size && Piece(q, line[0], bits, drop)
    ensures Rejoins(Join(out, q, drop), [Remainder(line[0], bits)] + line[1..], c)
  {
    hide Join, Piece, Untouched, Halves, Complete, InPlace, Unbroken, Open;
    Landing(out, line, c, q, bits, drop);
    var out', r := Join(out, q, drop), Remainder(line[0], bits);
    StillOpen(out', line[0], bits);
    CutInPlace(out, out', line, c, r);
    CutUnbroken(out, out', line, r);
    assert [r] + line[1..] == line[0 := r];
  }

  lemma StillOpen(out: seq<IpPkt>, p: IpPkt, bits: Bits)
    requires out != [] && bits < p.size && Halves(out[|out| - 1], Remainder(p, bits))
    ensures Open(out)
  {
  }

  // ----- one block -----

  function JoinAll(out: seq<IpPkt>, pkts: seq<IpPkt>, tOut: real, ipT: real, drop: bool): seq<IpPkt> {
    if drop then RemoveAll(out, pkts, tOut, ipT) else AddAll(out, pkts, tOut, ipT)
  }

  lemma JoinCons(out: seq<IpPkt>, p: IpPkt, rest: seq<IpPkt>, tOut: real, ipT: real, drop: bool)
    ensures JoinAll(out, [p] + rest, tOut, ipT, drop)
         == JoinAll(Join(out, Stamped(p, tOut, ipT), drop), rest, tOut, ipT, drop)
  {
    assert ([p] + rest)[1..] == rest;
  }

  lemma JoinOne(out: seq<IpPkt>, p: IpPkt, tOut: real, ipT: real, drop: bool)
    ensures JoinAll(out, [p], tOut, ipT, drop) == Join(out, Stamped(p, tOut, ipT), drop)
  {
    JoinCons(out, p, [], tOut, ipT, drop);
    assert [p] + [] == [p];
  }

  lemma TakeWhole(out: seq<IpPkt>, line: seq<IpPkt>, c: Course, tOut: real, ipT: real, drop: bool)
    requires Rejoins(out, line, c) && line != []
    ensures var out' := Join(out, Stamped(Whole(line[0]), tOut, ipT), drop);
            Rejoins(out', line[1..], c) && !Open(out')
  {
    hide Rejoins, Join;
    JoinLast(out, line, c, Stamped(Whole(line[0]), tOut, ipT), drop);
  }

  lemma TakeCut(out: seq<IpPkt>, line: seq<IpPkt>, c: Course, bits: Bits, tOut: real, ipT: real, drop: bool)
    requires Rejoins(out, line, c) && line != [] && bits < line[0].size
    ensures Rejoins(Join(out, Stamped(Fragment(line[0], bits), tOut, ipT), drop),
                    [Remainder(line[0], bits)] + line[1..], c)
    ensures line[0].size <= line[0].originalSize
  {
    hide Join;
    JoinCut(out, line, c, Stamped(Fragment(line[0], bits), tOut, ipT), bits, drop);
  }

  /** A grant delivered, or dropped, as one block: what it took off the FIFO rejoins what was there before. */
  lemma {:induction false} FillRejoins(out: seq<IpPkt>, b: Buffer, bits: nat, tail: seq<IpPkt>, c: Course,
                                       tOut: real, ipT: real, drop: bool)
    requires !b.dual && Rejoins(out, b.fifo + tail, c) && (Open(out) ==> b.fifo != [])
    ensures var (b', pkts) := b.Fill(bits);
            var out' := JoinAll(out, pkts, tOut, ipT, drop);
            !b'.dual && Rejoins(out', b'.fifo + tail, c) && (Open(out') ==> b'.fifo != [])
    decreases bits
  {
    hide Rejoins, Join, JoinAll, Open, Whole, Fragment, Remainder, Buffer.Requeue, Stamped;
    if bits > 0 && b.HasPkts() {
      var line, p, b1 := b.fifo + tail, b.fifo[0], b.PopNext().0;
      assert line[1..] == b1.fifo + tail;
      if p.size <= bits {
        TakeWhole(out, line, c, tOut, ipT, drop);
        FillRejoins(Join(out, Stamped(Whole(p), tOut, ipT), drop), b1, bits - p.size, tail, c, tOut, ipT, drop);
        JoinCons(out, Whole(p), b1.Fill(bits - p.size).1, tOut, ipT, drop);
      } else {
        TakeCut(out, line, c, bits, tOut, ipT, drop);
        CutGoesBack(b, bits);
        assert [Remainder(p, bits)] + line[1..] == ([Remainder(p, bits)] + b1.fifo) + tail;
        JoinOne(out, Fragment(p, bits), tOut, ipT, drop);
      }
    } else {
      NothingJoins(out, tOut, ipT, drop);
    }
  }

  lemma NothingJoins(out: seq<IpPkt>, tOut: real, ipT: real, drop: bool)
    ensures JoinAll(out, [], tOut, ipT, drop) == out
  {
  }

  // ----- sorting changes nothing -----

  lemma {:induction false} PlacedIsSorted(s: seq<IpPkt>, c: Course, at: int)
    requires Increasing(c.order) && Placed(s, c, at)
    ensures SortedByUid(s)
  {
    if |s| >= 2 {
      assert Placed(s[1..], c, at + 1) by {
        assert forall i :: 0 <= i < |s[1..]| ==> s[1..][i] == s[i + 1];
      }
      PlacedIsSorted(s[1..], c, at + 1);
    }
  }

  lemma RejoinedIsSorted(out: seq<IpPkt>, line: seq<IpPkt>, c: Course)
    requires Rejoins(out, line, c)
    ensures SortByUid(out) == out
  {
    PlacedIsSorted(out, c, c.base);
    SortOfSorted(out);
  }

  // ----- fragmentation undone -----

  function Uids(s: seq<IpPkt>): seq<nat> {
    seq(|s|, i requires 0 <= i < |s| => s[i].uid)
  }

  function Prevs(s: seq<IpPkt>): seq<int> {
    seq(|s|, i requires 0 <= i < |s| => s[i].prevUid)
  }

  // Every grant is served from the buffer and its block pushed to reassembly at once.
  function Deliver(out: seq<IpPkt>, b: Buffer, grants: seq<nat>, tOut: nat -> real, ipT: nat -> real)
      : (seq<IpPkt>, Buffer)
    decreases |grants|
  {
    if grants == [] then (out, b)
    else
      var (b', pkts) := b.GetPkts(grants[0]);
      Deliver(SortByUid(AddAll(out, pkts, tOut(|grants|), ipT(|grants|))), b', grants[1..], tOut, ipT)
  }

  lemma {:induction false} DeliverRejoins(out: seq<IpPkt>, b: Buffer, grants: seq<nat>, tOut: nat -> real,
      ipT: nat -> real, c: Course)
    requires !b.dual && Rejoins(out, b.fifo, c)
    ensures var (out', b') := Deliver(out, b, grants, tOut, ipT); Rejoins(out', b'.fifo, c)
    decreases |grants|
  {
    hide Rejoins, Buffer.Fill, AddAll, SortByUid;
    if grants != [] {
      var (b', pkts) := b.GetPkts(grants[0]);
      assert b.fifo + [] == b.fifo && b'.fifo + [] == b'.fifo;
      OpenNeedsLine(out, b.fifo, c);
      FillRejoins(out, b, grants[0], [], c, tOut(|grants|), ipT(|grants|), false);
      RejoinedIsSorted(AddAll(out, pkts, tOut(|grants|), ipT(|grants|)), b'.fifo, c);
      DeliverRejoins(AddAll(out, pkts, tOut(|grants|), ipT(|grants|)), b', grants[1..], tOut, ipT, c);
    }
  }

  lemma OpenNeedsLine(out: seq<IpPkt>, line: seq<IpPkt>, c: Course)
    requires Rejoins(out, line, c)
    ensures Open(out) ==> line != []
  {
  }

  function Total(grants: seq<nat>): nat {
    if grants == [] then 0 else grants[0] + Total(grants[1..])
  }

  lemma {:induction false} DeliverDrains(out: seq<IpPkt>, b: Buffer, grants: seq<nat>, tOut: nat -> real,
      ipT: nat -> real)
    requires !b.dual && WithinOriginal(b.fifo)
    ensures var left := Weigh(AllBits, Deliver(out, b, grants, tOut, ipT).1.fifo);
            left == if Total(grants) <= Weigh(AllBits, b.fifo) then Weigh(AllBits, b.fifo) - Total(grants) else 0
    decreases |grants|
  {
    hide WithinOriginal, Buffer.Fill, AddAll, SortByUid, Weigh, Stream;
    if grants != [] {
      var (b', pkts) := b.GetPkts(grants[0]);
      FillTakesFront(b, grants[0]);
      StreamWeighs(b.fifo);
      StreamWeighs(b'.fifo);
      DeliverDrains(SortByUid(AddAll(out, pkts, tOut(|grants|), ipT(|grants|))), b', grants[1..], tOut, ipT);
    }
  }

  // Nothing spoiled, and every entry knows its packet's size at capture.
  ghost predicate Clean(s: seq<IpPkt>, sizes: map<nat, Bits>) {
    forall i :: 0 <= i < |s| ==> !s[i].erase && s[i].uid in sizes && s[i].originalSize == sizes[s[i].uid]
  }

  lemma {:induction false} FillClean(b: Buffer, bits: nat, sizes: map<nat, Bits>)
    requires !b.dual && Clean(b.fifo, sizes)
    ensures Clean(b.Fill(bits).0.fifo, sizes) && Clean(b.Fill(bits).1, sizes)
    decreases bits
  {
    if bits > 0 && b.HasPkts() && b.fifo[0].size <= bits {
      FillClean(b.PopNext().0, bits - b.fifo[0].size, sizes);
    }
  }

  lemma {:induction false} AddAllClean(out: seq<IpPkt>, pkts: seq<IpPkt>, tOut: real, ipT: real, sizes: map<nat, Bits>)
    requires Clean(out, sizes) && Clean(pkts, sizes)
    ensures Clean(AddAll(out, pkts, tOut, ipT), sizes)
    decreases |pkts|
  {
    if pkts != [] {
      AddAllClean(AddData(out, Stamped(pkts[0], tOut, ipT)), pkts[1..], tOut, ipT, sizes);
    }
  }

  lemma {:induction false} DeliverClean(out: seq<IpPkt>, b: Buffer, grants: seq<nat>, tOut: nat -> real,
      ipT: nat -> real, sizes: map<nat, Bits>)
    requires !b.dual && Clean(out, sizes) && Clean(b.fifo, sizes)
    ensures Clean(Deliver(out, b, grants, tOut, ipT).0, sizes)
    decreases |grants|
  {
    hide Buffer.Fill, AddAll, SortByUid, Clean;
    if grants != [] {
      var (b', pkts) := b.GetPkts(grants[0]);
      FillClean(b, grants[0], sizes);
      FillKeepsMode(b, grants[0]);
      AddAllClean(out, pkts, tOut(|grants|), ipT(|grants|), sizes);
      var joined := AddAll(out, pkts, tOut(|grants|), ipT(|grants|));
      SortClean(joined, sizes);
      DeliverClean(SortByUid(joined), b', grants[1..], tOut, ipT, sizes);
    }
  }

  lemma SortClean(s: seq<IpPkt>, sizes: map<nat, Bits>)
    requires Clean(s, sizes)
    ensures Clean(SortByUid(s), sizes)
  {
    SortKeepsMembers(s);
    forall i | 0 <= i < |SortByUid(s)|
      ensures SortByUid(s)[i] in s
    {
    }
  }

  lemma {:induction false} FillKeepsMode(b: Buffer, bits: nat)
    requires !b.dual
    ensures !b.Fill(bits).0.dual
    decreases bits
  {
    if bits > 0 && b.HasPkts() && b.fifo[0].size <= bits {
      FillKeepsMode(b.PopNext().0, bits - b.fifo[0].size);
    }
  }

  lemma NothingLeft(out: seq<IpPkt>, c: Course)
    requires Rejoins(out, [], c)
    ensures |out| == c.end - c.base && c.end <= |c.order|
    ensures forall i :: 0 <= i < |out| ==> out[i].uid == c.order[c.base + i] && Complete(out[i])
  {
    hide Increasing, Complete;
  }

  function SizesOf(line: seq<IpPkt>): map<nat, Bits> {
    map u | u in Uids(line) :: line[FindUid(line, u)].originalSize
  }

  lemma SizesAreKnown(line: seq<IpPkt>)
    requires Increasing(Uids(line))
    ensures forall i :: 0 <= i < |line| ==>
              line[i].uid in SizesOf(line) && SizesOf(line)[line[i].uid] == line[i].originalSize
  {
    forall i | 0 <= i < |line|
      ensures line[i].uid in SizesOf(line) && SizesOf(line)[line[i].uid] == line[i].originalSize
    {
      assert Uids(line)[i] == line[i].uid;
      var k := FindUid(line, line[i].uid);
      assert k < |line| && Uids(line)[k] == Uids(line)[i];
    }
  }

  lemma FreshStart(line: seq<IpPkt>)
    requires (forall i :: 0 <= i < |line| ==> Untouched(line[i]))
    requires Increasing(Uids(line))
    ensures Rejoins([], line, Course(Uids(line), Prevs(line), 0, |line|)) && WithinOriginal(line)
    ensures Clean(line, SizesOf(line))
    ensures forall i :: 0 <= i < |line| ==>
              line[i].uid in SizesOf(line) && SizesOf(line)[line[i].uid] == line[i].originalSize
  {
    SizesAreKnown(line);
    hide Increasing, SizesOf;
  }

  /** Whatever the grants that empty a FIFO of whole packets, reassembly ends with exactly those packets, in order,
      unspoiled, each at its full size and with as many fragments recovered as were made of it. */
  lemma GrantsAreUndone(b: Buffer, grants: seq<nat>, tOut: nat -> real, ipT: nat -> real)
    requires !b.dual && (forall i :: 0 <= i < |b.fifo| ==> Untouched(b.fifo[i]))
    requires Increasing(Uids(b.fifo))
    requires Total(grants) >= Weigh(AllBits, b.fifo)
    ensures var (out, b') := Deliver([], b, grants, tOut, ipT);
            && b'.fifo == [] && |out| == |b.fifo|
            && (forall i :: 0 <= i < |out| ==>
                  && out[i].uid == b.fifo[i].uid && out[i].size == b.fifo[i].originalSize
                  && !out[i].erase && out[i].fragsRecovered == out[i].fragsCreated)
  {
    hide Deliver, Rejoins, Untouched, Increasing, WithinOriginal, SizesOf;
    var c := Course(Uids(b.fifo), Prevs(b.fifo), 0, |b.fifo|);
    FreshStart(b.fifo);
    DeliverRejoins([], b, grants, tOut, ipT, c);
    DeliverDrains([], b, grants, tOut, ipT);
    DeliverClean([], b, grants, tOut, ipT, SizesOf(b.fifo));
    NothingLeft(Deliver([], b, grants, tOut, ipT).0, c);
  }
}
