// Counting round a cycle: positions of an endlessly repeated pattern, and turns taken in rotation.
module Cyclic {

  // Where the k-th element of an endlessly repeated cycle stands in the cycle.
  function Place(k: nat, length: nat): (r: nat)
    requires length > 0
    ensures r < length
  {
    if k < length then k else Place(k - length, length)
  }

  lemma {:induction false} PlaceNext(k: nat, length: nat)
    requires 0 < length
    ensures Place(k + 1, length) == Place(Place(k, length) + 1, length)
  {
    if k >= length {
      PlaceNext(k - length, length);
    }
  }

  lemma FullTurn(n: nat, length: nat)
    requires 0 < length
    ensures Place(length + n, length) == Place(n, length)
  {
  }

  lemma {:induction false} SamePlace(a: nat, b: nat, n: nat, length: nat)
    requires 0 < length && Place(a, length) == Place(b, length)
    ensures Place(a + n, length) == Place(b + n, length)
  {
    if n > 0 {
      SamePlace(a, b, n - 1, length);
      PlaceNext(a + n - 1, length);
      PlaceNext(b + n - 1, length);
    }
  }

  lemma {:induction false} PlaceIsRemainder(k: nat, length: nat)
    requires 0 < length
    ensures exists q: nat :: k == Times(q, length) + Place(k, length)
  {
    if k >= length {
      PlaceIsRemainder(k - length, length);
      var q: nat :| k - length == Times(q, length) + Place(k - length, length);
      assert k == Times(q + 1, length) + Place(k, length);
    } else {
      assert k == Times(0, length) + Place(k, length);
    }
  }

  function Times(k: nat, n: nat): nat {
    if k == 0 then 0 else Times(k - 1, n) + n
  }

  // In any `length` consecutive elements of the repeated cycle every place comes up, exactly once.
  lemma {:induction false} EveryPlaceOnce(from: nat, length: nat, r: nat) returns (k: nat)
    requires r < length
    ensures from <= k < from + length && Place(k, length) == r
    ensures forall j: nat :: from <= j < from + length && Place(j, length) == r ==> j == k
  {
    if from == 0 {
      k := r;
      assert forall j: nat :: j < length ==> Place(j, length) == j;
    } else {
      var p := EveryPlaceOnce(from - 1, length, r);
      FullTurn(from - 1, length);
      if p == from - 1 {
        k := from - 1 + length;
      } else {
        k := p;
      }
    }
  }
}
