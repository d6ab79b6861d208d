// The TDD symbol counter (src/mac_layer/tdd_handler.cpp with the slot tables of
// include/mac_layer/mac_definitions.h): a cursor that wraps over the configured pattern.
module Tdd {
  import opened Cyclic

  datatype Sym = Dl | Other | Ul

  datatype Direction = TxDl | TxUl

  const SLOT := 14
  const CONFIGS := 62
  const FALLBACK := 45

  datatype Row = Row(dl: nat, other: nat, ul: nat)

  // A row that fills one slot.
  type FullRow = r: Row | r.dl + r.other + r.ul == SLOT witness Row(SLOT, 0, 0)

  function Cut(dl: nat, other: nat, ul: nat): FullRow
    requires dl + other + ul == SLOT
  {
    Row(dl, other, ul)
  }

  // The transition slots as written: one row fewer than the source declares.
  const TRANSITIONS: seq<FullRow> := [
    Cut(0, 0, 14), Cut(0, 14, 0), Cut(13, 1, 0), Cut(12, 2, 0), Cut(11, 3, 0), Cut(10, 4, 0), Cut(9, 5, 0),
    Cut(0, 13, 1), Cut(0, 12, 2), Cut(0, 1, 13), Cut(0, 2, 12), Cut(0, 3, 11), Cut(0, 4, 10), Cut(0, 5, 9),
    Cut(0, 6, 8), Cut(1, 13, 0), Cut(2, 12, 0), Cut(3, 11, 0), Cut(1, 12, 1), Cut(2, 11, 1), Cut(3, 10, 1),
    Cut(1, 11, 2), Cut(2, 10, 2), Cut(3, 9, 2), Cut(1, 10, 3), Cut(2, 9, 3), Cut(3, 8, 3), Cut(12, 1, 1),
    Cut(11, 2, 1), Cut(10, 3, 1), Cut(11, 1, 2), Cut(10, 2, 2), Cut(9, 3, 2), Cut(1, 1, 12), Cut(2, 1, 11),
    Cut(3, 1, 10), Cut(1, 2, 11), Cut(2, 2, 10), Cut(3, 2, 9), Cut(1, 3, 10), Cut(2, 3, 9), Cut(3, 3, 8),
    Cut(9, 4, 1), Cut(6, 6, 2), Cut(6, 2, 6), Cut(12, 2, 0), Cut(10, 4, 0), Cut(4, 10, 0), Cut(2, 12, 0),
    Cut(0, 2, 12), Cut(0, 4, 10), Cut(0, 10, 4), Cut(0, 12, 2), Cut(10, 2, 2), Cut(2, 2, 10), Cut(2, 2, 10),
    Cut(8, 4, 2), Cut(4, 4, 6), Cut(2, 2, 10), Cut(2, 10, 2), Cut(4, 8, 2)
  ]

  function Slots(n: int): nat { if n < 0 then 0 else n * SLOT }

  // The rows of the table that are not written are filled with zeros.
  function RowAt(c: nat): Row {
    if c < |TRANSITIONS| then TRANSITIONS[c] else Row(0, 0, 0)
  }

  function Chosen(transition: int): Row {
    RowAt(if 0 < transition < CONFIGS then transition else FALLBACK)
  }

  function Repeat(s: Sym, n: nat): seq<Sym> { seq(n, i => s) }

  // Downlink slots, the transition slot, uplink slots.
  function Pattern(nDl: int, nUl: int, transition: int): seq<Sym> {
    var row := Chosen(transition);
    Repeat(Dl, Slots(nDl) + row.dl) + Repeat(Other, row.other) + Repeat(Ul, row.ul + Slots(nUl))
  }

  predicate Claims(s: Sym, tx: Direction) { (s == Ul && tx == TxUl) || (s == Dl && tx == TxDl) }

  /** Symbols claimed in a window of the endlessly repeated pattern. */
  function Counted(pattern: seq<Sym>, tx: Direction, from: nat, n: nat): nat
    requires pattern != []
  {
    if n == 0 then 0
    else Counted(pattern, tx, from, n - 1) + if Claims(pattern[Place(from + n - 1, |pattern|)], tx) then 1 else 0
  }

  // The cursor after `n` symbols: at most one past the end, wrapped at the next use.
  function Moved(cursor: nat, n: nat, length: nat): nat
    requires length > 0
    decreases n
  {
    if n == 0 then cursor else Moved((if cursor >= length then 0 else cursor) + 1, n - 1, length)
  }

  lemma RepeatSnoc(s: Sym, n: nat)
    ensures Repeat(s, n) + [s] == Repeat(s, n + 1)
  {
  }

  class TddHandler {
    var scheme: seq<Sym>
    var cIndex: nat
    var syms: nat
    const tx: Direction

    ghost predicate Valid()
      reads this
    {
      scheme != [] && cIndex <= |scheme|
    }

    method Extend(s: Sym, n: int)
      modifies this`scheme
      ensures scheme == old(scheme) + Repeat(s, if n < 0 then 0 else n)
    {
      var i := 0;
      while i < n
        invariant 0 <= i && (i <= n || i == 0)
        invariant scheme == old(scheme) + Repeat(s, i)
      {
        RepeatSnoc(s, i);
        assert old(scheme) + Repeat(s, i) + [s] == old(scheme) + (Repeat(s, i) + [s]);
        scheme := scheme + [s];
        i := i + 1;
      }
    }

    constructor (nDl: int, nUl: int, transition: int, tx: Direction)
      ensures scheme == Pattern(nDl, nUl, transition) && cIndex == 0 && this.tx == tx
    {
      this.tx, scheme, cIndex, syms := tx, [], 0, 0;
      new;
      var row := Chosen(transition);
      Extend(Dl, nDl * SLOT);
      Extend(Dl, row.dl);
      Extend(Other, row.other);
      Extend(Ul, row.ul);
      Extend(Ul, nUl * SLOT);
      RepeatJoins(Dl, Slots(nDl), row.dl);
      RepeatJoins(Ul, row.ul, Slots(nUl));
      assert scheme == Pattern(nDl, nUl, transition);
    }

    method SetSyms(n: nat)
      modifies this`syms
      ensures syms == n
    {
      syms := n;
    }

    method GetSyms() returns (out: nat)
      requires Valid()
      modifies this`cIndex
      ensures Valid()
      ensures out == Counted(scheme, tx, old(cIndex), syms) && cIndex == Moved(old(cIndex), syms, |scheme|)
    {
      hide Place;
      out := 0;
      var index: nat, i: nat := cIndex, 0;
      while i < syms
        invariant i <= syms && index <= |scheme| && cIndex == old(cIndex)
        invariant Place(index, |scheme|) == Place(cIndex + i, |scheme|)
        invariant out == Counted(scheme, tx, cIndex, i)
        invariant Moved(index, syms - i, |scheme|) == Moved(cIndex, syms, |scheme|)
      {
        WrapsAt(cIndex + i, index, |scheme|);
        if index >= |scheme| {
          index := 0;
        }
        if scheme[index] == Ul && tx == TxUl {
          out := out + 1;
        }
        if scheme[index] == Dl && tx == TxDl {
          out := out + 1;
        }
        index := index + 1;
        i := i + 1;
      }
      cIndex := index;
    }
  }

  lemma RepeatJoins(s: Sym, a: nat, b: nat)
    ensures Repeat(s, a) + Repeat(s, b) == Repeat(s, a + b)
  {
  }

  // One step of a cursor that stands for a position in the repeated pattern.
  lemma WrapsAt(position: nat, index: nat, length: nat)
    requires 0 < length && index <= length && Place(index, length) == Place(position, length)
    ensures var i := if index >= length then 0 else index;
            i == Place(position, length) && Place(i + 1, length) == Place(position + 1, length)
  {
    PlaceNext(position, length);
  }
}
