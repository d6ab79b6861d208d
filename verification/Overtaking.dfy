// The reassembly list of FIFO mode when packets may be refused or expire: spoiled entries can stand in it ahead of
// older packets, unspoiled ones never do.
module Overtaking {
  import opened Packets
  import opened IpBuffer
  import opened CapturedHandler
  import opened FifoStream
  import opened Reassembly

  // The packet is one of those captured from `lo` up to, not including, `hi`, and points at its predecessor.
  ghost predicate Seated(p: IpPkt, order: seq<nat>, lo: nat, hi: nat) {
    hi <= |order| && exists k :: lo <= k < hi && p.uid == order[k] && p.prevUid == LastOf(order, k)
  }

  ghost predicate AllSeated(s: seq<IpPkt>, order: seq<nat>, lo: nat, hi: nat) {
    forall i :: 0 <= i < |s| ==> Seated(s[i], order, lo, hi)
  }

  ghost predicate Covered(out: seq<IpPkt>, line: seq<IpPkt>, order: seq<nat>, lo: nat, hi: nat) {
    hi <= |order| && forall k :: lo <= k < hi ==> Holds(out, order[k]) || Holds(line, order[k])
  }

  ghost predicate Distinct(s: seq<IpPkt>) {
    forall i, j :: 0 <= i < j < |s| ==> s[i].uid != s[j].uid
  }

  ghost predicate Rising(s: seq<IpPkt>) {
    forall i, j :: 0 <= i < j < |s| ==> s[i].uid < s[j].uid
  }

  // Only the queued head of the line may have an entry already.
  ghost predicate Apart(out: seq<IpPkt>, line: seq<IpPkt>, queued: bool) {
    forall i, j :: 0 <= i < |out| && 0 <= j < |line| && (queued ==> j > 0) ==> out[i].uid != line[j].uid
  }

  // Nothing behind an unspoiled entry, and nothing in the line, is older.
  ghost predicate Undisturbed(out: seq<IpPkt>, line: seq<IpPkt>) {
    forall i :: 0 <= i < |out| && !out[i].erase ==>
      && (forall j :: i < j < |out| ==> out[i].uid < out[j].uid)
      && (forall j :: 0 <= j < |line| ==> out[i].uid <= line[j].uid)
  }

  // Nobody's queued bits exceed the packet they came from, and nothing queued is spoiled.
  ghost predicate Intact(s: seq<IpPkt>) {
    forall i :: 0 <= i < |s| ==> s[i].size <= s[i].originalSize && !s[i].erase
  }

  /** Reassembly list and line hold exactly the packets captured from `lo` up to `hi`: the line in capture order, the
      list each once, with unspoiled entries before everything captured later. */
  ghost predicate Laid(out: seq<IpPkt>, line: seq<IpPkt>, queued: bool, order: seq<nat>, lo: nat, hi: nat) {
    && Increasing(order)
    && AllSeated(out, order, lo, hi) && AllSeated(line, order, lo, hi) && Covered(out, line, order, lo, hi)
    && Distinct(out) && Rising(line) && Apart(out, line, queued) && Undisturbed(out, line)
    && Intact(line)
  }

  predicate SamePacket(p: IpPkt, q: IpPkt) { p.uid == q.uid && p.prevUid == q.prevUid }

  // ----- a piece of the head of the line joins -----

  // Where a piece lands: in its packet's entry, or in a new one at the end.
  lemma Lands(out: seq<IpPkt>, q: IpPkt, drop: bool)
    ensures var i, out' := FindUid(out, q.uid), Join(out, q, drop);
            && |out'| == (if i < |out| then |out| else |out| + 1) && i < |out'|
            && (forall j :: 0 <= j < |out| && j != i ==> out'[j] == out[j])
            && SamePacket(out'[i], if i < |out| then out[i] else q)
            && (i < |out| && out[i].erase ==> out'[i].erase)
  {
  }

  lemma JoinSeats(out: seq<IpPkt>, line: seq<IpPkt>, order: seq<nat>, lo: nat, hi: nat, q: IpPkt, drop: bool)
    requires AllSeated(out, order, lo, hi) && Seated(q, order, lo, hi)
    ensures AllSeated(Join(out, q, drop), order, lo, hi)
  {
    hide Join, Seated, FindUid;
    Lands(out, q, drop);
    var out', k := Join(out, q, drop), FindUid(out, q.uid);
    forall i | 0 <= i < |out'|
      ensures Seated(out'[i], order, lo, hi)
    {
      if i == k {
        SameSeat(out'[i], if i < |out| then out[i] else q, order, lo, hi);
      }
    }
  }

  lemma SameSeat(p: IpPkt, q: IpPkt, order: seq<nat>, lo: nat, hi: nat)
    requires SamePacket(p, q) && Seated(q, order, lo, hi)
    ensures Seated(p, order, lo, hi)
  {
  }

  lemma JoinHolds(out: seq<IpPkt>, q: IpPkt, drop: bool, u: nat)
    ensures Holds(Join(out, q, drop), u) <==> Holds(out, u) || q.uid == u
  {
    hide Join;
    Lands(out, q, drop);
    var out', k := Join(out, q, drop), FindUid(out, q.uid);
    if Holds(out, u) {
      var i :| 0 <= i < |out| && out[i].uid == u;
      assert out'[i].uid == u;
    }
    assert out'[k].uid == q.uid;
  }

  lemma JoinDistinct(out: seq<IpPkt>, q: IpPkt, drop: bool)
    requires Distinct(out)
    ensures Distinct(Join(out, q, drop))
  {
    hide Join;
    Lands(out, q, drop);
    var out', k := Join(out, q, drop), FindUid(out, q.uid);
    forall i, j | 0 <= i < j < |out'|
      ensures out'[i].uid != out'[j].uid
    {
      if j == |out| {
        assert out'[i] == out[i];
      } else {
        assert out'[i].uid == out[i].uid && out'[j].uid == out[j].uid;
      }
    }
  }

  lemma JoinUndisturbed(out: seq<IpPkt>, line: seq<IpPkt>, q: IpPkt, drop: bool)
    requires Undisturbed(out, line) && Rising(line) && line != [] && q.uid == line[0].uid
    ensures Undisturbed(Join(out, q, drop), line)
  {
    hide Join;
    Lands(out, q, drop);
    var out', k := Join(out, q, drop), FindUid(out, q.uid);
    forall i, j | 0 <= i < j < |out'| && !out'[i].erase
      ensures out'[i].uid < out'[j].uid
    {
      assert out'[i].uid == out[i].uid && !out[i].erase;
      if j == |out| {
        assert out[i].uid <= line[0].uid && out[i].uid != q.uid;
      } else {
        assert out'[j].uid == out[j].uid;
      }
    }
    forall i, j | 0 <= i < |out'| && 0 <= j < |line| && !out'[i].erase
      ensures out'[i].uid <= line[j].uid
    {
      if i == |out| {
        assert line[0].uid <= line[j].uid;
      } else {
        assert out'[i].uid == out[i].uid && !out[i].erase;
      }
    }
  }

  lemma HeadSeated(line: seq<IpPkt>, order: seq<nat>, lo: nat, hi: nat, q: IpPkt)
    requires AllSeated(line, order, lo, hi) && line != [] && SamePacket(q, line[0])
    ensures Seated(q, order, lo, hi)
  {
    SameSeat(q, line[0], order, lo, hi);
  }

  // A piece of the head joins; the line is not touched yet.
  lemma JoinLaid(out: seq<IpPkt>, line: seq<IpPkt>, order: seq<nat>, lo: nat, hi: nat, q: IpPkt, drop: bool)
    requires Laid(out, line, true, order, lo, hi) && line != [] && SamePacket(q, line[0])
    ensures Laid(Join(out, q, drop), line, true, order, lo, hi) && Holds(Join(out, q, drop), q.uid)
  {
    var out' := Join(out, q, drop);
    hide Join, Seated, Holds, Undisturbed, Distinct, Intact, Increasing;
    HeadSeated(line, order, lo, hi, q);
    JoinSeats(out, line, order, lo, hi, q, drop);
    JoinDistinct(out, q, drop);
    JoinUndisturbed(out, line, q, drop);
    JoinHolds(out, q, drop, q.uid);
    assert Covered(out', line, order, lo, hi) by {
      forall k | lo <= k < hi
        ensures Holds(out', order[k]) || Holds(line, order[k])
      {
        JoinHolds(out, q, drop, order[k]);
      }
    }
    Lands(out, q, drop);
    assert Apart(out', line, true);
  }

  // Once its piece has joined, the head may leave the line.
  lemma HeadLeaves(out: seq<IpPkt>, line: seq<IpPkt>, queued: bool, order: seq<nat>, lo: nat, hi: nat)
    requires Laid(out, line, true, order, lo, hi) && line != [] && Holds(out, line[0].uid)
    ensures Laid(out, line[1..], queued, order, lo, hi)
  {
    hide Seated, Distinct, Increasing;
    var rest := line[1..];
    assert forall j :: 0 <= j < |rest| ==> rest[j] == line[j + 1];
    forall k | lo <= k < hi
      ensures Holds(out, order[k]) || Holds(rest, order[k])
    {
      if !Holds(out, order[k]) {
        var i :| 0 <= i < |line| && line[i].uid == order[k];
        assert i > 0 && rest[i - 1].uid == order[k];
      }
    }
  }

  // Or only part of it has left.
  lemma HeadShrinks(out: seq<IpPkt>, line: seq<IpPkt>, order: seq<nat>, lo: nat, hi: nat, r: IpPkt)
    requires Laid(out, line, true, order, lo, hi) && line != [] && SamePacket(r, line[0]) && Intact([r])
    ensures Laid(out, [r] + line[1..], true, order, lo, hi)
  {
    hide Seated, Distinct, Increasing;
    var line' := [r] + line[1..];
    assert line'[0] == [r][0];
    assert forall j :: 0 < j < |line| ==> line'[j] == line[j];
    SameSeat(r, line[0], order, lo, hi);
    forall k | lo <= k < hi
      ensures Holds(out, order[k]) || Holds(line', order[k])
    {
      if Holds(line, order[k]) {
        var i :| 0 <= i < |line| && line[i].uid == order[k];
        assert line'[i].uid == order[k];
      }
    }
  }

  lemma WholeJoins(out: seq<IpPkt>, line: seq<IpPkt>, queued: bool, order: seq<nat>, lo: nat, hi: nat, tOut: real,
      ipT: real, drop: bool)
    requires Laid(out, line, true, order, lo, hi) && line != []
    ensures Laid(Join(out, Stamped(Whole(line[0]), tOut, ipT), drop), line[1..], queued, order, lo, hi)
    ensures Laid(Join(out, Stamped(line[0], tOut, ipT), drop), line[1..], queued, order, lo, hi)
  {
    hide Laid, Join;
    JoinLaid(out, line, order, lo, hi, Stamped(Whole(line[0]), tOut, ipT), drop);
    HeadLeaves(Join(out, Stamped(Whole(line[0]), tOut, ipT), drop), line, queued, order, lo, hi);
    JoinLaid(out, line, order, lo, hi, Stamped(line[0], tOut, ipT), drop);
    HeadLeaves(Join(out, Stamped(line[0], tOut, ipT), drop), line, queued, order, lo, hi);
  }

  lemma CutJoins(out: seq<IpPkt>, line: seq<IpPkt>, order: seq<nat>, lo: nat, hi: nat, bits: Bits, tOut: real,
      ipT: real, drop: bool)
    requires Laid(out, line, true, order, lo, hi) && line != [] && bits < line[0].size
    ensures Laid(Join(out, Stamped(Fragment(line[0], bits), tOut, ipT), drop), [Remainder(line[0], bits)] + line[1..],
                 true, order, lo, hi)
    ensures line[0].size <= line[0].originalSize
  {
    assert line[0].size <= line[0].originalSize && Intact([Remainder(line[0], bits)]);
    hide Laid, Join;
    JoinLaid(out, line, order, lo, hi, Stamped(Fragment(line[0], bits), tOut, ipT), drop);
    HeadShrinks(Join(out, Stamped(Fragment(line[0], bits), tOut, ipT), drop), line, order, lo, hi,
                Remainder(line[0], bits));
  }

  // What is not known to be queued yet may be treated as queued.
  lemma LooselyApart(out: seq<IpPkt>, line: seq<IpPkt>, queued: bool, order: seq<nat>, lo: nat, hi: nat)
    requires Laid(out, line, queued, order, lo, hi)
    ensures Laid(out, line, true, order, lo, hi)
  {
    hide Seated, Holds, Increasing, Undisturbed, Intact;
  }

  /** A grant's block, delivered or dropped, keeps the packets laid out. */
  lemma {:induction false} FillLaid(out: seq<IpPkt>, b: Buffer, bits: nat, tail: seq<IpPkt>, order: seq<nat>, lo: nat,
      hi: nat, tOut: real, ipT: real, drop: bool)
    requires !b.dual && Laid(out, b.fifo + tail, b.fifo != [], order, lo, hi)
    ensures var (b', pkts) := b.Fill(bits);
            && !b'.dual && b'.q == b.q
            && Laid(JoinAll(out, pkts, tOut, ipT, drop), b'.fifo + tail, b'.fifo != [], order, lo, hi)
    decreases bits
  {
    hide Laid, Join, JoinAll, Whole, Fragment, Remainder, Buffer.Requeue, Stamped;
    if bits > 0 && b.HasPkts() {
      var line, p, b1 := b.fifo + tail, b.fifo[0], b.PopNext().0;
      assert line[1..] == b1.fifo + tail;
      if p.size <= bits {
        WholeJoins(out, line, b1.fifo != [], order, lo, hi, tOut, ipT, drop);
        FillLaid(Join(out, Stamped(Whole(p), tOut, ipT), drop), b1, bits - p.size, tail, order, lo, hi, tOut, ipT,
                 drop);
        JoinCons(out, Whole(p), b1.Fill(bits - p.size).1, tOut, ipT, drop);
      } else {
        CutJoins(out, line, order, lo, hi, bits, tOut, ipT, drop);
        CutGoesBack(b, bits);
        assert [Remainder(p, bits)] + line[1..] == ([Remainder(p, bits)] + b1.fifo) + tail;
        JoinOne(out, Fragment(p, bits), tOut, ipT, drop);
      }
    } else {
      NothingJoins(out, tOut, ipT, drop);
    }
  }

  // ----- sorting -----

  lemma RisingCons(p: IpPkt, s: seq<IpPkt>)
    requires Rising(s) && forall i :: 0 <= i < |s| ==> p.uid < s[i].uid
    ensures Rising([p] + s)
  {
  }

  lemma InsertMembers(p: IpPkt, s: seq<IpPkt>)
    ensures forall q :: q in InsertByUid(p, s) <==> q == p || q in s
  {
    hide InsertByUid;
    InsertPermutes(p, s);
    assert forall q :: q in InsertByUid(p, s) <==> q in multiset(InsertByUid(p, s));
  }

  lemma {:induction false} InsertRises(p: IpPkt, s: seq<IpPkt>)
    requires Rising(s) && !Holds(s, p.uid)
    ensures Rising(InsertByUid(p, s))
  {
    if s != [] && p.uid > s[0].uid {
      var rest := s[1..];
      assert forall i :: 0 <= i < |rest| ==> rest[i] == s[i + 1];
      InsertRises(p, rest);
      var r := InsertByUid(p, rest);
      InsertMembers(p, rest);
      forall i | 0 <= i < |r|
        ensures s[0].uid < r[i].uid
      {
        assert r[i] in r;
      }
      RisingCons(s[0], r);
    } else {
      assert forall i :: 0 <= i < |s| ==> s[i].uid != p.uid;
      RisingCons(p, s);
    }
  }

  lemma {:induction false} SortRises(s: seq<IpPkt>)
    requires Distinct(s)
    ensures Rising(SortByUid(s))
  {
    if s != [] {
      var rest := s[1..];
      assert forall i :: 0 <= i < |rest| ==> rest[i] == s[i + 1];
      SortRises(rest);
      SortKeepsMembers(rest);
      forall i | 0 <= i < |SortByUid(rest)|
        ensures SortByUid(rest)[i].uid != s[0].uid
      {
        assert SortByUid(rest)[i] in rest;
      }
      InsertRises(s[0], SortByUid(rest));
    }
  }

  lemma SortHolds(s: seq<IpPkt>, u: nat)
    ensures Holds(s, u) <==> Holds(SortByUid(s), u)
  {
    SortKeepsMembers(s);
    var r := SortByUid(s);
    if Holds(s, u) {
      var i :| 0 <= i < |s| && s[i].uid == u;
      assert s[i] in r;
    }
    if Holds(r, u) {
      var i :| 0 <= i < |r| && r[i].uid == u;
      assert r[i] in s;
    }
  }

  lemma SortLaid(out: seq<IpPkt>, line: seq<IpPkt>, queued: bool, order: seq<nat>, lo: nat, hi: nat)
    requires Laid(out, line, queued, order, lo, hi)
    ensures Laid(SortByUid(out), line, queued, order, lo, hi) && Rising(SortByUid(out))
  {
    hide Seated, Holds, Increasing, Intact, SortByUid;
    var r := SortByUid(out);
    SortRises(out);
    SortKeepsMembers(out);
    forall i | 0 <= i < |r|
      ensures exists j :: 0 <= j < |out| && out[j] == r[i]
    {
      assert r[i] in out;
    }
    forall k | lo <= k < hi
      ensures Holds(r, order[k]) || Holds(line, order[k])
    {
      SortHolds(out, order[k]);
    }
  }

  // ----- arrivals -----

  lemma WithoutOne(fifo: seq<IpPkt>, ingress: seq<IpPkt>)
    requires ingress != []
    ensures var line, line', n := fifo + ingress, fifo + ingress[1..], |fifo|;
            && (forall j :: 0 <= j < |line'| ==> line'[j] == line[if j < n then j else j + 1])
            && (forall j :: 0 <= j < |line| && j != n ==> line[j] == line'[if j < n then j else j - 1])
            && line[n] == ingress[0] && n < |line|
  {
  }

  lemma RefusalCovered(out: seq<IpPkt>, fifo: seq<IpPkt>, ingress: seq<IpPkt>, order: seq<nat>, lo: nat, hi: nat,
      e: IpPkt)
    requires Covered(out, fifo + ingress, order, lo, hi) && ingress != [] && e.uid == ingress[0].uid
    ensures Covered(out + [e], fifo + ingress[1..], order, lo, hi)
  {
    var line, line', out', n := fifo + ingress, fifo + ingress[1..], out + [e], |fifo|;
    WithoutOne(fifo, ingress);
    assert out'[|out|] == e && forall i :: 0 <= i < |out| ==> out'[i] == out[i];
    forall k | lo <= k < hi
      ensures Holds(out', order[k]) || Holds(line', order[k])
    {
      if Holds(out, order[k]) {
        var i :| 0 <= i < |out| && out[i].uid == order[k];
        assert out'[i].uid == order[k];
      } else {
        var i :| 0 <= i < |line| && line[i].uid == order[k];
        assert if i == n then out'[|out|].uid == order[k] else line'[if i < n then i else i - 1].uid == order[k];
      }
    }
  }

  lemma RefusalUndisturbed(out: seq<IpPkt>, line: seq<IpPkt>, n: nat, e: IpPkt, queued: bool)
    requires Undisturbed(out, line) && Apart(out, line, queued) && n < |line| && (queued ==> n > 0)
    requires e.uid == line[n].uid && e.erase
    ensures Undisturbed(out + [e], line)
  {
    forall i | 0 <= i < |out| && !out[i].erase
      ensures out[i].uid < e.uid
    {
      assert out[i].uid <= line[n].uid && out[i].uid != line[n].uid;
    }
  }

  // What is left of a line without one of its packets.
  lemma LineWithoutOne(out: seq<IpPkt>, line: seq<IpPkt>, line': seq<IpPkt>, n: nat, order: seq<nat>, lo: nat, hi: nat)
    requires n < |line| && |line'| == |line| - 1
    requires forall j :: 0 <= j < |line'| ==> line'[j] == line[if j < n then j else j + 1]
    requires AllSeated(line, order, lo, hi) && Rising(line) && Intact(line) && Undisturbed(out, line)
    ensures AllSeated(line', order, lo, hi) && Rising(line') && Intact(line') && Undisturbed(out, line')
  {
    hide Seated;
  }

  lemma RefusalApart(out: seq<IpPkt>, line: seq<IpPkt>, line': seq<IpPkt>, n: nat, e: IpPkt, queued: bool)
    requires n < |line| && |line'| == |line| - 1 && (queued ==> n > 0)
    requires forall j :: 0 <= j < |line'| ==> line'[j] == line[if j < n then j else j + 1]
    requires Apart(out, line, queued) && Rising(line) && e.uid == line[n].uid
    ensures Apart(out + [e], line', queued)
  {
  }

  lemma RefusalDistinct(out: seq<IpPkt>, line: seq<IpPkt>, n: nat, e: IpPkt, queued: bool)
    requires n < |line| && (queued ==> n > 0) && Apart(out, line, queued) && Distinct(out) && e.uid == line[n].uid
    ensures Distinct(out + [e])
  {
  }

  // A packet refused on arrival joins the list spoiled.
  lemma RefusalLaid(out: seq<IpPkt>, fifo: seq<IpPkt>, ingress: seq<IpPkt>, order: seq<nat>, lo: nat, hi: nat, e: IpPkt)
    requires Laid(out, fifo + ingress, fifo != [], order, lo, hi)
    requires ingress != [] && SamePacket(e, ingress[0]) && e.erase
    ensures Laid(out + [e], fifo + ingress[1..], fifo != [], order, lo, hi)
  {
    var line, line', n := fifo + ingress, fifo + ingress[1..], |fifo|;
    WithoutOne(fifo, ingress);
    SameSeat(e, line[n], order, lo, hi);
    hide Seated, Increasing, Covered, Rising, Distinct, Apart, Undisturbed, Intact;
    RefusalCovered(out, fifo, ingress, order, lo, hi, e);
    RefusalUndisturbed(out, line, n, e, fifo != []);
    LineWithoutOne(out + [e], line, line', n, order, lo, hi);
    RefusalApart(out, line, line', n, e, fifo != []);
    RefusalDistinct(out, line, n, e, fifo != []);
  }

  lemma ArrivalCovered(out: seq<IpPkt>, line: seq<IpPkt>, order: seq<nat>, lo: nat, hi: nat, p: IpPkt)
    requires Covered(out, line, order, lo, hi) && hi < |order| && p.uid == order[hi]
    ensures Covered(out, line + [p], order, lo, hi + 1)
  {
    var line' := line + [p];
    assert line'[|line|] == p;
    forall k | lo <= k < hi + 1
      ensures Holds(out, order[k]) || Holds(line', order[k])
    {
      if k == hi {
        assert line'[|line|].uid == order[k];
      } else if Holds(line, order[k]) {
        var i :| 0 <= i < |line| && line[i].uid == order[k];
        assert line'[i].uid == order[k];
      }
    }
  }

  // Everything seated is older than the packet captured next, and stays seated once that one is ingested.
  lemma SeatedBefore(s: seq<IpPkt>, order: seq<nat>, lo: nat, hi: nat)
    requires Increasing(order) && AllSeated(s, order, lo, hi) && hi < |order|
    ensures AllSeated(s, order, lo, hi + 1) && forall i :: 0 <= i < |s| ==> s[i].uid < order[hi]
  {
    forall i | 0 <= i < |s|
      ensures s[i].uid < order[hi] && Seated(s[i], order, lo, hi + 1)
    {
      assert Seated(s[i], order, lo, hi);
    }
  }

  lemma ArrivalLast(out: seq<IpPkt>, line: seq<IpPkt>, queued: bool, p: IpPkt)
    requires Rising(line) && Apart(out, line, queued) && Undisturbed(out, line) && Intact(line) && Intact([p])
    requires forall i :: 0 <= i < |line| ==> line[i].uid < p.uid
    requires forall i :: 0 <= i < |out| ==> out[i].uid < p.uid
    ensures Rising(line + [p]) && Apart(out, line + [p], queued) && Undisturbed(out, line + [p]) && Intact(line + [p])
  {
    assert (line + [p])[|line|] == [p][0];
  }

  // A packet is ingested at the end of the line.
  lemma ArrivalLaid(out: seq<IpPkt>, line: seq<IpPkt>, queued: bool, order: seq<nat>, lo: nat, hi: nat, p: IpPkt)
    requires Laid(out, line, queued, order, lo, hi) && lo <= hi < |order|
    requires p.uid == order[hi] && p.prevUid == LastOf(order, hi) && Intact([p])
    ensures Laid(out, line + [p], queued, order, lo, hi + 1)
  {
    assert Seated(p, order, lo, hi + 1);
    hide Seated, Covered, Increasing, Rising, Distinct, Apart, Undisturbed, Intact;
    SeatedBefore(out, order, lo, hi);
    SeatedBefore(line, order, lo, hi);
    ArrivalCovered(out, line, order, lo, hi, p);
    ArrivalLast(out, line, queued, p);
  }

  lemma CaptureLaid(out: seq<IpPkt>, line: seq<IpPkt>, queued: bool, order: seq<nat>, lo: nat, hi: nat, u: nat)
    requires Laid(out, line, queued, order, lo, hi) && forall v :: v in order ==> v < u
    ensures Laid(out, line, queued, order + [u], lo, hi)
  {
    var order' := order + [u];
    assert forall k :: 0 <= k < |order| ==> order[k] in order;
    assert forall p :: Seated(p, order, lo, hi) ==> Seated(p, order', lo, hi) by {
      forall p | Seated(p, order, lo, hi)
        ensures Seated(p, order', lo, hi)
      {
        var k :| lo <= k < hi && p.uid == order[k] && p.prevUid == LastOf(order, k);
        assert order'[k] == order[k] && LastOf(order', k) == LastOf(order, k);
      }
    }
    assert forall k :: lo <= k < hi ==> order'[k] == order[k];
  }

  // ----- the front -----

  // Something older than the entry is queued, or stands behind it.
  predicate OvertakesIn(out: seq<IpPkt>, line: seq<IpPkt>, i: nat)
    requires i < |out|
  {
    (exists j :: 0 <= j < |line| && line[j].uid < out[i].uid) || (exists j :: i < j < |out| && out[j].uid < out[i].uid)
  }

  lemma SeatedFrom(s: seq<IpPkt>, order: seq<nat>, lo: nat, hi: nat)
    requires Increasing(order) && AllSeated(s, order, lo, hi) && lo < hi <= |order|
    ensures forall i :: 0 <= i < |s| ==> s[i].uid >= order[lo]
  {
    forall i | 0 <= i < |s|
      ensures s[i].uid >= order[lo]
    {
      assert Seated(s[i], order, lo, hi);
    }
  }

  // The front entry is the next packet in order exactly if it overtakes nobody.
  lemma FrontIsNext(out: seq<IpPkt>, line: seq<IpPkt>, queued: bool, order: seq<nat>, lo: nat, hi: nat)
    requires Laid(out, line, queued, order, lo, hi) && out != []
    ensures lo < hi <= |order| && (out[0].uid == order[lo] <==> !OvertakesIn(out, line, 0))
    ensures out[0].uid == order[lo] ==> out[0].prevUid == LastOf(order, lo)
    ensures !out[0].erase ==> !OvertakesIn(out, line, 0)
  {
    assert Seated(out[0], order, lo, hi);
    hide Rising, Apart, Intact;
    SeatedFrom(out, order, lo, hi);
    SeatedFrom(line, order, lo, hi);
    assert Holds(out, order[lo]) || Holds(line, order[lo]);
    hide Seated, Covered;
    assert Undisturbed(out, line);
    if out[0].uid != order[lo] {
      if Holds(line, order[lo]) {
        var j :| 0 <= j < |line| && line[j].uid == order[lo];
        assert line[j].uid < out[0].uid;
      } else {
        var j :| 0 <= j < |out| && out[j].uid == order[lo];
        assert 0 < j && out[j].uid < out[0].uid;
      }
    }
  }

  lemma RestSeated(s: seq<IpPkt>, order: seq<nat>, lo: nat, hi: nat)
    requires AllSeated(s, order, lo, hi) && lo < hi <= |order| && !Holds(s, order[lo])
    ensures AllSeated(s, order, lo + 1, hi)
  {
    hide Seated;
    forall i | 0 <= i < |s|
      ensures Seated(s[i], order, lo + 1, hi)
    {
      SeatedLater(s[i], order, lo, hi);
    }
  }

  lemma RestCovered(out: seq<IpPkt>, line: seq<IpPkt>, order: seq<nat>, lo: nat, hi: nat)
    requires Covered(out, line, order, lo, hi) && Increasing(order) && out != [] && lo < hi && out[0].uid == order[lo]
    ensures Covered(out[1..], line, order, lo + 1, hi)
  {
    forall k | lo + 1 <= k < hi
      ensures Holds(out[1..], order[k]) || Holds(line, order[k])
    {
      if Holds(out, order[k]) {
        var i :| 0 <= i < |out| && out[i].uid == order[k];
        assert order[lo] < order[k];
        assert out[1..][i - 1].uid == order[k];
      }
    }
  }

  lemma RestUndisturbed(out: seq<IpPkt>, line: seq<IpPkt>, queued: bool)
    requires out != [] && Distinct(out) && Apart(out, line, queued) && Undisturbed(out, line)
    ensures Distinct(out[1..]) && Apart(out[1..], line, queued) && Undisturbed(out[1..], line)
    ensures !Holds(out[1..], out[0].uid)
  {
    assert forall i :: 0 <= i < |out[1..]| ==> out[1..][i] == out[i + 1];
  }

  lemma FrontLeavesLaid(out: seq<IpPkt>, line: seq<IpPkt>, queued: bool, order: seq<nat>, lo: nat, hi: nat)
    requires Laid(out, line, queued, order, lo, hi) && out != [] && lo < hi <= |order| && out[0].uid == order[lo]
    requires !Holds(line, out[0].uid)
    ensures Laid(out[1..], line, queued, order, lo + 1, hi)
  {
    hide Seated, Rising, Intact, Increasing, Covered, Holds, Distinct, Apart, Undisturbed;
    RestCovered(out, line, order, lo, hi);
    RestUndisturbed(out, line, queued);
    assert AllSeated(out[1..], order, lo, hi);
    hide AllSeated;
    RestSeated(out[1..], order, lo, hi);
    RestSeated(line, order, lo, hi);
  }

  lemma SeatedLater(p: IpPkt, order: seq<nat>, lo: nat, hi: nat)
    requires Seated(p, order, lo, hi) && lo < hi && p.uid != order[lo]
    ensures Seated(p, order, lo + 1, hi)
  {
  }
}
