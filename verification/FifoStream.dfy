// Cutting packets into grants loses nothing and reorders nothing: the FIFO is a stream of bits, a grant
// takes its front, and two grants in a row are one grant of their sum.
module FifoStream {
  import opened Packets
  import opened IpBuffer

  // One packet's bits, each labelled with the packet it belongs to.
  function BitsOfPkt(u: nat, n: nat): seq<nat> {
    seq(n, i => u)
  }

  function Stream(s: seq<IpPkt>): seq<nat> {
    if s == [] then [] else BitsOfPkt(s[0].uid, s[0].size) + Stream(s[1..])
  }

  // Nobody's queued bits exceed the packet they came from.
  ghost predicate WithinOriginal(s: seq<IpPkt>) {
    forall i :: 0 <= i < |s| ==> s[i].size <= s[i].originalSize
  }

  lemma StreamCons(p: IpPkt, s: seq<IpPkt>)
    ensures Stream([p] + s) == BitsOfPkt(p.uid, p.size) + Stream(s)
  {
    assert ([p] + s)[1..] == s;
  }

  lemma CutBits(u: nat, n: nat, bits: nat)
    requires bits <= n
    ensures BitsOfPkt(u, bits) + BitsOfPkt(u, n - bits) == BitsOfPkt(u, n)
  {
  }

  lemma {:induction false} StreamWeighs(s: seq<IpPkt>)
    ensures |Stream(s)| == Weigh(AllBits, s)
  {
    if s != [] {
      StreamWeighs(s[1..]);
    }
  }

  lemma Regroup(a: seq<nat>, b: seq<nat>, c: seq<nat>)
    ensures a + (b + c) == (a + b) + c
  {
  }

  lemma CutGoesBack(b: Buffer, bits: Bits)
    requires !b.dual && b.fifo != [] && bits < b.fifo[0].size && b.fifo[0].size <= b.fifo[0].originalSize
    ensures b.Fill(bits) == (b.(fifo := [Remainder(b.fifo[0], bits)] + b.fifo[1..]), [Fragment(b.fifo[0], bits)])
  {
  }

  lemma PieceStreams(p: IpPkt, bits: Bits, rest: seq<IpPkt>)
    ensures Stream([Whole(p)] + rest) == BitsOfPkt(p.uid, p.size) + Stream(rest)
    ensures Stream([Fragment(p, bits)]) == BitsOfPkt(p.uid, bits)
    ensures bits < p.size ==> Stream([Remainder(p, bits)] + rest) == BitsOfPkt(p.uid, p.size - bits) + Stream(rest)
  {
    hide Stream, BitsOfPkt;
    StreamCons(Whole(p), rest);
    StreamCons(Fragment(p, bits), []);
    assert [Fragment(p, bits)] + [] == [Fragment(p, bits)];
    NoStream();
    if bits < p.size {
      StreamCons(Remainder(p, bits), rest);
    }
  }

  lemma NoStream()
    ensures Stream([]) == []
  {
  }

  lemma RemainderWithin(s: seq<IpPkt>, bits: Bits)
    requires WithinOriginal(s) && s != [] && bits < s[0].size
    ensures WithinOriginal([Remainder(s[0], bits)] + s[1..]) && s[0].size <= s[0].originalSize
  {
  }

  /** A grant sends the front of the stream, as much as was granted or all there is, and leaves the rest. */
  lemma {:induction false} FillTakesFront(b: Buffer, bits: nat)
    requires !b.dual && WithinOriginal(b.fifo)
    ensures var (b', out) := b.Fill(bits);
            && !b'.dual && WithinOriginal(b'.fifo)
            && Stream(out) + Stream(b'.fifo) == Stream(b.fifo)
            && |Stream(out)| == if bits <= |Stream(b.fifo)| then bits else |Stream(b.fifo)|
    decreases bits
  {
    hide Stream, BitsOfPkt, Whole, Fragment, Remainder, Buffer.Requeue;
    NoStream();
    if bits > 0 && b.HasPkts() {
      var p, b1 := b.fifo[0], b.PopNext().0;
      assert b.fifo == [p] + b1.fifo;
      StreamCons(p, b1.fifo);
      BitsOfPktCounts(p.uid, p.size);
      if p.size <= bits {
        FillTakesFront(b1, bits - p.size);
        var (b', rest) := b1.Fill(bits - p.size);
        PieceStreams(p, bits, rest);
        Regroup(BitsOfPkt(p.uid, p.size), Stream(rest), Stream(b'.fifo));
      } else {
        RemainderWithin(b.fifo, bits);
        CutGoesBack(b, bits);
        PieceStreams(p, bits, b1.fifo);
        CutBits(p.uid, p.size, bits);
        Regroup(BitsOfPkt(p.uid, bits), BitsOfPkt(p.uid, p.size - bits), Stream(b1.fifo));
        BitsOfPktCounts(p.uid, bits);
      }
    } else {
      assert [] + Stream(b.fifo) == Stream(b.fifo);
    }
  }

  lemma BitsOfPktCounts(u: nat, n: nat)
    ensures |BitsOfPkt(u, n)| == n
  {
  }

  lemma SameFront(a: seq<nat>, b: seq<nat>, c: seq<nat>, d: seq<nat>)
    requires a + b == c + d && |a| == |c|
    ensures a == c && b == d
  {
    assert a == (a + b)[..|a|] && b == (a + b)[|a|..];
    assert c == (c + d)[..|c|] && d == (c + d)[|c|..];
  }

  /** Granting `first` and then `second` sends the same bits in the same order as granting their sum, and leaves
      the same bits waiting. */
  lemma TwoGrantsAreOne(b: Buffer, first: nat, second: nat)
    requires !b.dual && WithinOriginal(b.fifo)
    ensures var (b1, out1) := b.GetPkts(first);
            var (b2, out2) := b1.GetPkts(second);
            var (both, out) := b.GetPkts(first + second);
            && Stream(out1) + Stream(out2) == Stream(out)
            && Stream(b2.fifo) == Stream(both.fifo)
  {
    hide Stream, Buffer.Fill, WithinOriginal;
    var (b1, out1) := b.GetPkts(first);
    var (b2, out2) := b1.GetPkts(second);
    var (both, out) := b.GetPkts(first + second);
    FillTakesFront(b, first);
    FillTakesFront(b1, second);
    FillTakesFront(b, first + second);
    Regroup(Stream(out1), Stream(out2), Stream(b2.fifo));
    SameFront(Stream(out1) + Stream(out2), Stream(b2.fifo), Stream(out), Stream(both.fifo));
  }
}
