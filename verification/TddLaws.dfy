// What the counter adds up to over any number of calls.
module TddLaws {
  import opened Cyclic
  import opened Tdd

  // One direction's calls: each asks for some symbols.
  function Total(slots: seq<nat>): nat {
    if slots == [] then 0 else Total(slots[..|slots| - 1]) + slots[|slots| - 1]
  }

  function CursorAfter(length: nat, slots: seq<nat>): nat
    requires length > 0
  {
    if slots == [] then 0 else Moved(CursorAfter(length, slots[..|slots| - 1]), slots[|slots| - 1], length)
  }

  function Granted(pattern: seq<Sym>, tx: Direction, slots: seq<nat>): nat
    requires pattern != []
  {
    if slots == [] then 0
    else Granted(pattern, tx, slots[..|slots| - 1])
         + Counted(pattern, tx, CursorAfter(|pattern|, slots[..|slots| - 1]), slots[|slots| - 1])
  }

  lemma {:induction false} MovedPlaces(cursor: nat, n: nat, length: nat)
    requires 0 < length && cursor <= length
    ensures Moved(cursor, n, length) <= length
    ensures Place(Moved(cursor, n, length), length) == Place(cursor + n, length)
    decreases n
  {
    if n > 0 {
      var c := if cursor >= length then 0 else cursor;
      MovedPlaces(c + 1, n - 1, length);
      if cursor >= length {
        FullTurn(n, length);
      }
    }
  }

  // A window's count depends only on where it starts modulo the pattern.
  lemma {:induction false} CountedByPlace(pattern: seq<Sym>, tx: Direction, a: nat, b: nat, n: nat)
    requires pattern != [] && Place(a, |pattern|) == Place(b, |pattern|)
    ensures Counted(pattern, tx, a, n) == Counted(pattern, tx, b, n)
  {
    if n > 0 {
      CountedByPlace(pattern, tx, a, b, n - 1);
      SamePlace(a, b, n - 1, |pattern|);
    }
  }

  lemma {:induction false} CountedSplits(pattern: seq<Sym>, tx: Direction, from: nat, m: nat, n: nat)
    requires pattern != []
    ensures Counted(pattern, tx, from, m + n) == Counted(pattern, tx, from, m) + Counted(pattern, tx, from + m, n)
  {
    if n > 0 {
      CountedSplits(pattern, tx, from, m, n - 1);
    }
  }

  /** After any calls of any sizes the cursor stands for the symbols consumed modulo the pattern's length, and the
      total granted is the count of the direction's symbols in that window of the repeated pattern. */
  lemma {:induction false} TotalsFollowThePattern(pattern: seq<Sym>, tx: Direction, slots: seq<nat>)
    requires pattern != []
    ensures CursorAfter(|pattern|, slots) <= |pattern|
    ensures Place(CursorAfter(|pattern|, slots), |pattern|) == Place(Total(slots), |pattern|)
    ensures Granted(pattern, tx, slots) == Counted(pattern, tx, 0, Total(slots))
  {
    if slots != [] {
      var rest, n := slots[..|slots| - 1], slots[|slots| - 1];
      TotalsFollowThePattern(pattern, tx, rest);
      var c := CursorAfter(|pattern|, rest);
      MovedPlaces(c, n, |pattern|);
      SamePlace(c, Total(rest), n, |pattern|);
      CountedByPlace(pattern, tx, c, Total(rest), n);
      CountedSplits(pattern, tx, 0, Total(rest), n);
    }
  }

  // ----- the two directions -----

  function Unclaimed(pattern: seq<Sym>, from: nat, n: nat): nat
    requires pattern != []
  {
    if n == 0 then 0
    else Unclaimed(pattern, from, n - 1) + if pattern[Place(from + n - 1, |pattern|)] == Other then 1 else 0
  }

  lemma {:induction false} WindowIsShared(pattern: seq<Sym>, from: nat, n: nat)
    requires pattern != []
    ensures Counted(pattern, TxDl, from, n) + Counted(pattern, TxUl, from, n) + Unclaimed(pattern, from, n) == n
  {
    if n > 0 {
      WindowIsShared(pattern, from, n - 1);
    }
  }

  /** Downlink and uplink handlers built alike and called alike stay in lockstep: the same cursor, no symbol granted
      to both, and every symbol consumed granted to one of them or to neither as the pattern says. */
  lemma DirectionsShareTheSlots(nDl: int, nUl: int, transition: int, slots: seq<nat>)
    requires Pattern(nDl, nUl, transition) != []
    ensures var p := Pattern(nDl, nUl, transition);
            Granted(p, TxDl, slots) + Granted(p, TxUl, slots) + Unclaimed(p, 0, Total(slots)) == Total(slots)
    ensures forall s :: !(Claims(s, TxDl) && Claims(s, TxUl))
  {
    var p := Pattern(nDl, nUl, transition);
    TotalsFollowThePattern(p, TxDl, slots);
    TotalsFollowThePattern(p, TxUl, slots);
    WindowIsShared(p, 0, Total(slots));
  }

  /** The two handlers driven in place, slot by slot: the same cursor throughout, and totals that are the counts of
      their symbols in the window of the repeated pattern consumed. */
  method DriveBoth(dl: TddHandler, ul: TddHandler, slots: seq<nat>) returns (dlTotal: nat, ulTotal: nat)
    requires dl != ul && dl.tx == TxDl && ul.tx == TxUl
    requires dl.scheme == ul.scheme && dl.Valid() && dl.cIndex == ul.cIndex == 0
    modifies dl, ul
    ensures dl.scheme == ul.scheme == old(dl.scheme) && dl.cIndex == ul.cIndex
    ensures Place(dl.cIndex, |dl.scheme|) == Place(Total(slots), |dl.scheme|)
    ensures dlTotal == Counted(dl.scheme, TxDl, 0, Total(slots))
    ensures ulTotal == Counted(dl.scheme, TxUl, 0, Total(slots))
  {
    dlTotal, ulTotal := 0, 0;
    var i := 0;
    while i < |slots|
      invariant 0 <= i <= |slots|
      invariant dl.scheme == ul.scheme == old(dl.scheme) && dl.Valid()
      invariant dl.cIndex == ul.cIndex == CursorAfter(|dl.scheme|, slots[..i])
      invariant dlTotal == Granted(dl.scheme, TxDl, slots[..i]) && ulTotal == Granted(dl.scheme, TxUl, slots[..i])
    {
      assert slots[..i + 1][..i] == slots[..i];
      dl.SetSyms(slots[i]);
      ul.SetSyms(slots[i]);
      var d := dl.GetSyms();
      var u := ul.GetSyms();
      dlTotal, ulTotal := dlTotal + d, ulTotal + u;
      i := i + 1;
    }
    assert slots[..i] == slots;
    TotalsFollowThePattern(dl.scheme, TxDl, slots);
    TotalsFollowThePattern(dl.scheme, TxUl, slots);
  }

  // ----- whole patterns -----

  /** A window of one pattern length counts the same wherever it starts. */
  lemma {:induction false} AnyFullWindow(pattern: seq<Sym>, tx: Direction, from: nat)
    requires pattern != []
    ensures Counted(pattern, tx, from, |pattern|) == Counted(pattern, tx, 0, |pattern|)
    decreases from
  {
    if from > 0 {
      AnyFullWindow(pattern, tx, from - 1);
      CountedSplits(pattern, tx, from - 1, 1, |pattern| - 1);
      CountedSplits(pattern, tx, from, |pattern| - 1, 1);
      FullTurn(from - 1, |pattern|);
      OneSymbol(pattern, tx, from - 1);
      OneSymbol(pattern, tx, from + |pattern| - 1);
    }
  }

  lemma OneSymbol(pattern: seq<Sym>, tx: Direction, at: nat)
    requires pattern != []
    ensures Counted(pattern, tx, at, 1) == if Claims(pattern[Place(at, |pattern|)], tx) then 1 else 0
  {
    assert Counted(pattern, tx, at, 0) == 0;
  }

  /** However many times the calls wrap it, `k` whole patterns grant `k` times what one does. */
  lemma {:induction false} WholePatterns(pattern: seq<Sym>, tx: Direction, from: nat, k: nat)
    requires pattern != []
    ensures Counted(pattern, tx, from, Times(k, |pattern|)) == Times(k, Counted(pattern, tx, 0, |pattern|))
    decreases k
  {
    if k > 0 {
      WholePatterns(pattern, tx, from, k - 1);
      CountedSplits(pattern, tx, from, Times(k - 1, |pattern|), |pattern|);
      AnyFullWindow(pattern, tx, from + Times(k - 1, |pattern|));
    }
  }

  lemma {:induction false} CountedPrefix(pattern: seq<Sym>, tx: Direction, n: nat)
    requires n <= |pattern| && pattern != []
    ensures Counted(pattern, tx, 0, n) == Matching(pattern[..n], tx)
  {
    if n > 0 {
      CountedPrefix(pattern, tx, n - 1);
      assert pattern[..n][..n - 1] == pattern[..n - 1];
      assert Place(n - 1, |pattern|) == n - 1;
    }
  }

  function Matching(s: seq<Sym>, tx: Direction): nat {
    if s == [] then 0 else Matching(s[..|s| - 1], tx) + if Claims(s[|s| - 1], tx) then 1 else 0
  }

  lemma {:induction false} MatchingAppend(a: seq<Sym>, b: seq<Sym>, tx: Direction)
    ensures Matching(a + b, tx) == Matching(a, tx) + Matching(b, tx)
  {
    if b == [] {
      assert a + b == a;
    } else {
      MatchingAppend(a, b[..|b| - 1], tx);
      assert (a + b)[..|a + b| - 1] == a + b[..|b| - 1];
    }
  }

  lemma {:induction false} MatchingRepeat(s: Sym, n: nat, tx: Direction)
    ensures Matching(Repeat(s, n), tx) == if Claims(s, tx) then n else 0
  {
    if n > 0 {
      MatchingRepeat(s, n - 1, tx);
      assert Repeat(s, n)[..n - 1] == Repeat(s, n - 1);
    }
  }

  /** One pattern grants each direction its slots, of 14 symbols each, and its part of the transition slot. */
  lemma PatternGrants(nDl: int, nUl: int, transition: int)
    requires Pattern(nDl, nUl, transition) != []
    ensures var p, row := Pattern(nDl, nUl, transition), Chosen(transition);
            && Counted(p, TxDl, 0, |p|) == (if nDl <= 0 then 0 else 14 * nDl) + row.dl
            && Counted(p, TxUl, 0, |p|) == (if nUl <= 0 then 0 else 14 * nUl) + row.ul
  {
    var p, row := Pattern(nDl, nUl, transition), Chosen(transition);
    var dl, other, ul := Repeat(Dl, Slots(nDl) + row.dl), Repeat(Other, row.other), Repeat(Ul, row.ul + Slots(nUl));
    forall tx
      ensures Counted(p, tx, 0, |p|) == Matching(dl, tx) + Matching(other, tx) + Matching(ul, tx)
    {
      CountedPrefix(p, tx, |p|);
      assert p[..|p|] == p;
      MatchingAppend(dl + other, ul, tx);
      MatchingAppend(dl, other, tx);
    }
    forall tx
      ensures Matching(dl, tx) == (if tx == TxDl then |dl| else 0) && Matching(other, tx) == 0
      ensures Matching(ul, tx) == if tx == TxUl then |ul| else 0
    {
      MatchingRepeat(Dl, |dl|, tx);
      MatchingRepeat(Other, |other|, tx);
      MatchingRepeat(Ul, |ul|, tx);
    }
  }

  /** A transition outside 1..61 is replaced by a slot of 12 downlink symbols and 2 of neither direction. */
  lemma FallbackGrants(nDl: int, nUl: int, transition: int)
    requires transition <= 0 || transition > 61
    ensures var p := Pattern(nDl, nUl, transition);
            && p != [] && Counted(p, TxDl, 0, |p|) == (if nDl <= 0 then 0 else 14 * nDl) + 12
            && Counted(p, TxUl, 0, |p|) == if nUl <= 0 then 0 else 14 * nUl
  {
    PatternGrants(nDl, nUl, transition);
  }

  /** A pattern starts with everything it grants the downlink and ends with everything it grants the uplink: of its
      first `n` symbols the downlink gets as many as it has left, and the uplink none until only its own are left. */
  lemma {:induction false} DownlinkFirstUplinkLast(nDl: int, nUl: int, transition: int, n: nat)
    requires var p := Pattern(nDl, nUl, transition); p != [] && n <= |p|
    ensures var p, row := Pattern(nDl, nUl, transition), Chosen(transition);
            var dl, ul := Slots(nDl) + row.dl, row.ul + Slots(nUl);
            && Counted(p, TxDl, 0, n) == (if n <= dl then n else dl)
            && Counted(p, TxUl, 0, n) == (if n <= |p| - ul then 0 else n - (|p| - ul))
    decreases n
  {
    if n > 0 {
      DownlinkFirstUplinkLast(nDl, nUl, transition, n - 1);
      assert Place(n - 1, |Pattern(nDl, nUl, transition)|) == n - 1;
    }
  }

  // ----- which configurations have a pattern -----

  /** A configuration has a pattern, and so a counter that can be used, exactly unless it asks for no slots and for
      the one transition row the table leaves out; a pattern is always whole slots. */
  lemma PatternExists(nDl: int, nUl: int, transition: int)
    ensures Pattern(nDl, nUl, transition) == [] <==> nDl <= 0 && nUl <= 0 && transition == CONFIGS - 1
    ensures |Pattern(nDl, nUl, transition)|
         == (if nDl <= 0 then 0 else 14 * nDl) + (if nUl <= 0 then 0 else 14 * nUl)
            + if transition == CONFIGS - 1 then 0 else 14
  {
    assert |TRANSITIONS| == CONFIGS - 1;
  }
}
