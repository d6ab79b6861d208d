// The ECN rewrite of a captured IPv4 packet and its header checksum (include/netfilter/pkt_capture.h;
// RFC 791 section 3.1, RFC 1071 section 1, RFC 3168 section 5).
module Ipv4Ecn {

  type Byte = x: int | 0 <= x < 0x100
  const WORD := 0x1_0000
  const UINT32 := 0x1_0000_0000

  function Word(hi: Byte, lo: Byte): nat { hi as int * 0x100 + lo as int }

  // The sum of the big-endian 16-bit words; an odd last byte is the high half of a word.
  function WordSum(s: seq<Byte>): nat {
    if s == [] then 0
    else if |s| == 1 then Word(s[0], 0)
    else Word(s[0], s[1]) + WordSum(s[2..])
  }

  // Carries folded back until 16 bits are left.
  function Fold(n: nat): (r: nat)
    ensures r < WORD
    decreases n
  {
    if n < WORD then n else Fold(n % WORD + n / WORD)
  }

  // The accumulator is 32 bits wide and wraps.
  function Wrap(n: nat): (r: nat)
    ensures r < UINT32 && (n < UINT32 ==> r == n)
  {
    n % UINT32
  }

  function Checksum(s: seq<Byte>): (r: nat)
    ensures r < WORD
  {
    WORD - 1 - Fold(Wrap(WordSum(s)))
  }

  function HeaderLength(p: seq<Byte>): nat
    requires p != []
  {
    (p[0] % 0x10) * 4
  }

  predicate WellFormed(p: seq<Byte>) {
    |p| >= 20 && 20 <= HeaderLength(p) <= |p|
  }

  // The header with the new code point and the checksum field cleared.
  function Prepared(p: seq<Byte>, ecn: nat): (r: seq<Byte>)
    requires |p| >= 20
    ensures |r| == |p|
  {
    p[1 := p[1] - p[1] % 4 + ecn % 4][10 := 0][11 := 0]
  }

  function Rewritten(p: seq<Byte>, ecn: nat): seq<Byte> {
    if !WellFormed(p) then p
    else
      var q := Prepared(p, ecn);
      var csum := Checksum(q[..HeaderLength(p)]);
      q[10 := csum / 0x100][11 := csum % 0x100]
  }

  method ComputeChecksum(data: array<Byte>, len: nat) returns (csum: nat)
    requires len <= data.Length
    ensures csum == Checksum(data[..len])
  {
    hide Fold, Wrap, Word;
    var sum: nat := 0;
    var i := 0;
    ghost var s := data[..len];
    while i + 1 < len
      invariant 0 <= i <= len && i % 2 == 0
      invariant Wrap(sum + WordSum(s[i..])) == Wrap(WordSum(s)) && sum < UINT32
    {
      var word := Word(data[i], data[i + 1]);
      assert s[i..][2..] == s[i + 2..];
      WrapAdd(sum + word, WordSum(s[i + 2..]));
      sum := Wrap(sum + word);
      i := i + 2;
    }
    if len % 2 == 1 {
      sum := Wrap(sum + Word(data[len - 1], 0));
    }
    assert sum == Wrap(WordSum(s));
    sum := FoldCarries(sum);
    csum := WORD - 1 - sum;
  }

  method FoldCarries(n: nat) returns (sum: nat)
    ensures sum == Fold(n)
  {
    sum := n;
    while sum / WORD > 0
      invariant Fold(sum) == Fold(n)
      decreases sum
    {
      sum := sum % WORD + sum / WORD;
    }
  }

  method ApplyIpv4Ecn(payload: array<Byte>, ecn: nat)
    modifies payload
    ensures payload[..] == Rewritten(old(payload[..]), ecn)
  {
    if payload.Length < 20 {
      return;
    }
    var ihl := (payload[0] % 0x10) * 4;
    if ihl < 20 || payload.Length < ihl {
      return;
    }
    payload[1] := payload[1] - payload[1] % 4 + ecn % 4;
    payload[10] := 0;
    payload[11] := 0;
    assert payload[..] == Prepared(old(payload[..]), ecn);
    assert payload[..ihl] == payload[..][..ihl];
    var csum := ComputeChecksum(payload, ihl);
    payload[10] := csum / 0x100;
    payload[11] := csum % 0x100;
  }

  lemma WrapAdd(a: nat, b: nat)
    ensures Wrap(Wrap(a) + b) == Wrap(a + b)
  {
  }

  // Folding takes away a multiple of 65535, and never makes a nonzero sum zero.
  lemma {:induction false} FoldQuotient(n: nat) returns (k: nat)
    ensures n == Fold(n) + k * (WORD - 1)
    ensures Fold(n) == 0 <==> n == 0
    decreases n
  {
    if n < WORD {
      k := 0;
    } else {
      var j := FoldQuotient(n % WORD + n / WORD);
      k := j + n / WORD;
    }
  }

  lemma {:induction false} ModShift(q: nat, x: nat)
    ensures (x + q * (WORD - 1)) % (WORD - 1) == x % (WORD - 1)
  {
    if q > 0 {
      ModShift(q - 1, x);
      var y := x + (q - 1) * (WORD - 1);
      assert (y + (WORD - 1)) % (WORD - 1) == y % (WORD - 1);
    }
  }

  /** Folding terminates and preserves the value modulo 65535. */
  lemma FoldPreserves(n: nat)
    ensures Fold(n) % (WORD - 1) == n % (WORD - 1)
  {
    var k := FoldQuotient(n);
    ModShift(k, Fold(n));
  }

  /** A header of at most 60 bytes cannot overflow the 32-bit sum. */
  lemma {:induction false} SumBound(s: seq<Byte>)
    ensures WordSum(s) <= (|s| + 1) / 2 * (WORD - 1)
  {
    if |s| >= 2 {
      SumBound(s[2..]);
    }
  }

  lemma {:induction false} SumAfterUpdate(s: seq<Byte>, k: nat, hi: Byte, lo: Byte)
    requires k % 2 == 0 && k + 1 < |s|
    ensures WordSum(s[k := hi][k + 1 := lo]) == WordSum(s) - Word(s[k], s[k + 1]) + Word(hi, lo)
  {
    var t := s[k := hi][k + 1 := lo];
    if k == 0 {
      assert t[2..] == s[2..];
    } else {
      SumAfterUpdate(s[2..], k - 2, hi, lo);
      assert t[2..] == s[2..][k - 2 := hi][k - 1 := lo];
    }
  }

  // A sum completed by its own checksum folds to all ones.
  lemma ComplementCloses(n: nat)
    ensures Fold(n + (WORD - 1 - Fold(n))) == WORD - 1
  {
    hide Fold;
    var k := FoldQuotient(n);
    var m := n + (WORD - 1 - Fold(n));
    var j := FoldQuotient(m);
    assert Fold(m) == (k + 1 - j) * (WORD - 1);
  }

  // ----- the checksum as a remainder -----

  // The bytes read as one big-endian number.
  function Number(s: seq<Byte>): nat {
    if s == [] then 0 else Number(s[..|s| - 1]) * 0x100 + s[|s| - 1] as int
  }

  lemma {:induction false} SumSnoc(s: seq<Byte>, hi: Byte, lo: Byte)
    requires |s| % 2 == 0
    ensures WordSum(s + [hi, lo]) == WordSum(s) + Word(hi, lo)
  {
    if s == [] {
      assert s + [hi, lo] == [hi, lo] && [hi, lo][2..] == [];
    } else {
      SumSnoc(s[2..], hi, lo);
      assert (s + [hi, lo])[2..] == s[2..] + [hi, lo];
    }
  }

  // 2^16 leaves the remainder 1, so the words count alike wherever they stand.
  lemma {:induction false} WordsAreDigits(s: seq<Byte>)
    requires |s| % 2 == 0
    ensures Number(s) % (WORD - 1) == WordSum(s) % (WORD - 1)
    ensures WordSum(s) == 0 ==> Number(s) == 0
  {
    if s != [] {
      var t, hi, lo := s[..|s| - 2], s[|s| - 2], s[|s| - 1];
      WordsAreDigits(t);
      assert s == t + [hi, lo];
      SumSnoc(t, hi, lo);
      assert s[..|s| - 1][..|s| - 2] == t;
      assert Number(s) == (Number(t) + Word(hi, lo)) + Number(t) * (WORD - 1);
      ModShift(Number(t), Number(t) + Word(hi, lo));
      AddEqual(Number(t), WordSum(t), Word(hi, lo));
    }
  }

  lemma AddEqual(a: nat, b: nat, c: nat)
    requires a % (WORD - 1) == b % (WORD - 1)
    ensures (a + c) % (WORD - 1) == (b + c) % (WORD - 1)
  {
    var m := WORD - 1;
    if a >= b {
      assert a + c == (b + c) + (a / m - b / m) * m;
      ModShift(a / m - b / m, b + c);
    } else {
      assert b + c == (a + c) + (b / m - a / m) * m;
      ModShift(b / m - a / m, a + c);
    }
  }

  /** A header whose sum fits 32 bits checks exactly if it is a positive multiple of 65535, read as one number. */
  lemma ChecksIsMultiple(s: seq<Byte>)
    requires |s| % 2 == 0 && WordSum(s) < UINT32
    ensures Checksum(s) == 0 <==> WordSum(s) > 0 && Number(s) % (WORD - 1) == 0
  {
    WordsAreDigits(s);
    FoldPreserves(WordSum(s));
    var k := FoldQuotient(WordSum(s));
    hide Fold, WordSum, Number;
  }

  // ----- the rewrite, on the bytes of the packet -----

  /** After the rewrite the receiver's check passes: the header's length is four times the low half of its first byte,
      recomputing the checksum over it gives 0, and read as one number it is a multiple of 65535. */
  lemma RewrittenVerifies(p: seq<Byte>, ecn: nat)
    requires |p| >= 20 && p[0] % 16 >= 5 && |p| >= 4 * (p[0] % 16)
    ensures var r, n := Rewritten(p, ecn), 4 * (p[0] % 16);
            && |r| == |p| && r[0] == p[0] && Checksum(r[..n]) == 0 && Number(r[..n]) % (WORD - 1) == 0
            && WordSum(r[..n]) < UINT32
  {
    hide Fold, WordSum, Number;
    var len := 4 * (p[0] % 16);
    var header: seq<Byte> := Prepared(p, ecn)[..len];
    var csum := Checksum(header);
    SumBound(header);
    assert WordSum(header) < UINT32;
    var r := Rewritten(p, ecn);
    var hi: Byte, lo: Byte := csum / 0x100, csum % 0x100;
    SumAfterUpdate(header, 10, hi, lo);
    assert r[..len] == header[10 := hi][11 := lo];
    SumBound(r[..len]);
    ComplementCloses(WordSum(header));
    assert WordSum(r[..len]) == WordSum(header) + csum;
    ChecksIsMultiple(r[..len]);
  }

  /** Only the two ECN bits and the checksum change, and they do whenever the first byte announces a header of at least
      20 bytes that is there; anything else is left alone. */
  lemma RewrittenTouchesOnlyEcn(p: seq<Byte>, ecn: nat)
    ensures var r := Rewritten(p, ecn);
            if |p| >= 20 && p[0] % 16 >= 5 && |p| >= 4 * (p[0] % 16) then
              && |r| == |p| && r[1] % 4 == ecn % 4 && r[1] / 4 == p[1] / 4
              && forall i :: 0 <= i < |p| && i != 1 && i != 10 && i != 11 ==> r[i] == p[i]
            else r == p
  {
  }
}
