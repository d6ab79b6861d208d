// The packet data model (include/pkts/pkts.h) and the two ways of measuring it that
// every conservation result in this project uses.
module Packets {

  // Sizes are whole positive numbers of bits, so the 0.99-bit margin means equality.
  type Bits = x: int | 1 <= x witness 1

  datatype Option<+T> = None | Some(value: T)

  datatype Ecn = NotEct | Ect1 | Ect0 | Ce

  datatype IpPkt = IpPkt(
    uid: nat, prevUid: int,
    size: Bits, originalSize: Bits,
    currentT: real, ipT: real, tOut: real,
    isFragment: bool, fragsCreated: nat, fragsRecovered: nat,
    erase: bool,
    ecn: Ecn, originalEcn: Ecn, ceMarked: bool, aqmDropped: bool)
  {
    predicate IsReady() {
      size == originalSize
    }

    predicate IsL4s() {
      ecn == Ect1 || ecn == Ce
    }

    // The packet's code point is the one it arrived with, unless the AQM rewrote it to CE;
    // only an ECN-capable packet that was not CE already can have been rewritten.
    predicate EcnConsistent() {
      if ceMarked then ecn == Ce && (originalEcn == Ect0 || originalEcn == Ect1) else ecn == originalEcn
    }
  }

  // Some entry of the list is the packet or a piece of it.
  predicate Holds(s: seq<IpPkt>, u: nat) {
    exists i :: 0 <= i < |s| && s[i].uid == u
  }

  // Whole packets.
  predicate Unshortened(s: seq<IpPkt>) {
    forall i :: 0 <= i < |s| ==> s[i].size == s[i].originalSize
  }

  // A transport block: whole packets and fragments sent together.
  datatype HarqPkt = HarqPkt(
    id: nat, ipT: real, currentT: real, tOut: real, nTx: nat,
    bits: nat, backhaulD: real, backhaulVar: real, pkts: seq<IpPkt>)

  function NewPkt(t: real, size: Bits, prevUid: int, uid: nat, ecn: Ecn): IpPkt {
    IpPkt(uid, prevUid, size, size, t, t, t, false, 0, 0, false, ecn, ecn, false, false)
  }

  function NewBlock(id: nat, ipT: real, t: real, bhD: real, bhVar: real): HarqPkt {
    HarqPkt(id, ipT, t, t, 0, 0, bhD, bhVar, [])
  }

  /** What is being added up over a list of packets: all bits, the bits of one packet,
      or how many entries of one packet still carry no AQM mark. */
  datatype Gauge = AllBits | BitsOf(uid: nat) | Unmarked(uid: nat)

  function Measure(g: Gauge, p: IpPkt): nat {
    match g
    case AllBits => p.size
    case BitsOf(u) => if p.uid == u then p.size else 0
    case Unmarked(u) => if p.uid == u && !p.ceMarked then 1 else 0
  }

  function Weigh(g: Gauge, s: seq<IpPkt>): nat {
    if s == [] then 0 else Measure(g, s[0]) + Weigh(g, s[1..])
  }

  function WeighBlocks(g: Gauge, s: seq<HarqPkt>): nat {
    if s == [] then 0 else Weigh(g, s[0].pkts) + WeighBlocks(g, s[1..])
  }

  lemma {:induction false} WeighAppend(g: Gauge, a: seq<IpPkt>, b: seq<IpPkt>)
    ensures Weigh(g, a + b) == Weigh(g, a) + Weigh(g, b)
  {
    if a == [] {
      assert a + b == b;
    } else {
      WeighAppend(g, a[1..], b);
      assert (a + b)[1..] == a[1..] + b;
    }
  }

  lemma WeighSnoc(g: Gauge, a: seq<IpPkt>, p: IpPkt)
    ensures Weigh(g, a + [p]) == Weigh(g, a) + Measure(g, p)
  {
    WeighAppend(g, a, [p]);
    assert [p][1..] == [];
  }

  lemma WeighCons(g: Gauge, p: IpPkt, a: seq<IpPkt>)
    ensures Weigh(g, [p] + a) == Measure(g, p) + Weigh(g, a)
  {
    assert ([p] + a)[1..] == a;
  }

  lemma {:induction false} WeighUpdate(g: Gauge, s: seq<IpPkt>, i: nat, p: IpPkt)
    requires i < |s|
    ensures Weigh(g, s[i := p]) == Weigh(g, s) - Measure(g, s[i]) + Measure(g, p)
  {
    if i == 0 {
      assert s[0 := p][1..] == s[1..];
    } else {
      WeighUpdate(g, s[1..], i - 1, p);
      assert s[i := p][1..] == s[1..][i - 1 := p];
    }
  }

  lemma {:induction false} WeighMember(g: Gauge, s: seq<IpPkt>, i: nat)
    requires i < |s|
    ensures Measure(g, s[i]) <= Weigh(g, s)
  {
    if i > 0 {
      WeighMember(g, s[1..], i - 1);
    }
  }

  lemma {:induction false} NobodyWeighs(s: seq<IpPkt>, u: nat)
    requires !Holds(s, u)
    ensures Weigh(BitsOf(u), s) == 0
  {
    if s != [] {
      assert forall i :: 0 <= i < |s[1..]| ==> s[1..][i] == s[i + 1];
      NobodyWeighs(s[1..], u);
    }
  }

  lemma NobodyHeld(u: nat)
    ensures !Holds([], u)
  {
  }

  lemma {:induction false} BlocksAppend(g: Gauge, a: seq<HarqPkt>, b: seq<HarqPkt>)
    ensures WeighBlocks(g, a + b) == WeighBlocks(g, a) + WeighBlocks(g, b)
  {
    if a == [] {
      assert a + b == b;
    } else {
      BlocksAppend(g, a[1..], b);
      assert (a + b)[1..] == a[1..] + b;
    }
  }

  lemma BlocksSnoc(g: Gauge, a: seq<HarqPkt>, b: HarqPkt)
    ensures WeighBlocks(g, a + [b]) == WeighBlocks(g, a) + Weigh(g, b.pkts)
  {
    BlocksAppend(g, a, [b]);
    assert [b][1..] == [];
  }

  // One block taken out takes its own weight along.
  lemma BlocksWithout(g: Gauge, s: seq<HarqPkt>, i: nat)
    requires i < |s|
    ensures WeighBlocks(g, s[..i] + s[i + 1..]) + Weigh(g, s[i].pkts) == WeighBlocks(g, s)
  {
    assert s == s[..i] + ([s[i]] + s[i + 1..]);
    BlocksAppend(g, s[..i], [s[i]] + s[i + 1..]);
    BlocksAppend(g, s[..i], s[i + 1..]);
    assert ([s[i]] + s[i + 1..])[1..] == s[i + 1..];
  }

  // ----- ordering by uid, as std::sort with the uid comparator leaves a list -----

  function InsertByUid(p: IpPkt, s: seq<IpPkt>): seq<IpPkt> {
    if s == [] || p.uid <= s[0].uid then [p] + s else [s[0]] + InsertByUid(p, s[1..])
  }

  function SortByUid(s: seq<IpPkt>): seq<IpPkt> {
    if s == [] then [] else InsertByUid(s[0], SortByUid(s[1..]))
  }

  predicate SortedByUid(s: seq<IpPkt>) {
    |s| >= 2 ==> s[0].uid <= s[1].uid && SortedByUid(s[1..])
  }

  lemma {:induction false} InsertSorted(p: IpPkt, s: seq<IpPkt>)
    requires SortedByUid(s)
    ensures SortedByUid(InsertByUid(p, s))
  {
    if s != [] && p.uid > s[0].uid {
      InsertSorted(p, s[1..]);
      assert InsertByUid(p, s)[1..] == InsertByUid(p, s[1..]);
    } else {
      assert ([p] + s)[1..] == s;
    }
  }

  lemma {:induction false} InsertPermutes(p: IpPkt, s: seq<IpPkt>)
    ensures multiset(InsertByUid(p, s)) == multiset(s) + multiset{p}
  {
    if s != [] && p.uid > s[0].uid {
      InsertPermutes(p, s[1..]);
      assert s == [s[0]] + s[1..];
    }
  }

  // SortByUid is a sort: ordered, and the same packets.
  lemma {:induction false} SortByUidSorts(s: seq<IpPkt>)
    ensures SortedByUid(SortByUid(s))
    ensures multiset(SortByUid(s)) == multiset(s)
  {
    if s != [] {
      SortByUidSorts(s[1..]);
      InsertSorted(s[0], SortByUid(s[1..]));
      InsertPermutes(s[0], SortByUid(s[1..]));
      assert s == [s[0]] + s[1..];
    }
  }

  lemma SortKeepsMembers(s: seq<IpPkt>)
    ensures forall p :: p in SortByUid(s) <==> p in s
  {
    SortByUidSorts(s);
    assert forall p :: p in SortByUid(s) <==> p in multiset(SortByUid(s));
  }

  lemma {:induction false} WeighInsert(g: Gauge, p: IpPkt, s: seq<IpPkt>)
    ensures Weigh(g, InsertByUid(p, s)) == Measure(g, p) + Weigh(g, s)
  {
    if s == [] || p.uid <= s[0].uid {
      WeighCons(g, p, s);
    } else {
      WeighInsert(g, p, s[1..]);
      WeighCons(g, s[0], InsertByUid(p, s[1..]));
    }
  }

  lemma {:induction false} WeighSort(g: Gauge, s: seq<IpPkt>)
    ensures Weigh(g, SortByUid(s)) == Weigh(g, s)
  {
    if s != [] {
      WeighSort(g, s[1..]);
      WeighInsert(g, s[0], SortByUid(s[1..]));
    }
  }

  lemma {:induction false} SortOfSorted(s: seq<IpPkt>)
    requires SortedByUid(s)
    ensures SortByUid(s) == s
  {
    if s != [] {
      SortOfSorted(s[1..]);
      assert s == [s[0]] + s[1..];
    }
  }
}
