// Round robin over the grid: the copies of its state stay together, turns rotate, and nobody with data is
// passed over for nothing.
module SchedulerLaws {
  import opened Packets
  import opened Cyclic
  import opened Scheduler

  // ----- the blocks considered, and the copies in lockstep -----

  function Frequencies(n: nat): seq<int> { seq(n, i => i) }

  // The frequency indices asked about, slot after slot; slots without symbols ask nobody.
  function Considered(syms: seq<nat>, nFreq: nat): seq<int> {
    if syms == [] then []
    else Considered(syms[..|syms| - 1], nFreq) + if syms[|syms| - 1] > 0 then Frequencies(nFreq) else []
  }

  function AskedAbout(s: RoundRobin, fs: seq<int>, nUes: int): RoundRobin {
    if fs == [] then s else AskedAbout(s, fs[..|fs| - 1], nUes).Asked(fs[|fs| - 1], nUes)
  }

  function Copies(s: RoundRobin, n: nat): seq<RoundRobin> { seq(n, i => s) }

  lemma {:induction false} AskedAboutAppend(s: RoundRobin, a: seq<int>, b: seq<int>, nUes: int)
    ensures AskedAbout(s, a + b, nUes) == AskedAbout(AskedAbout(s, a, nUes), b, nUes)
  {
    if b == [] {
      assert a + b == a;
    } else {
      AskedAboutAppend(s, a, b[..|b| - 1], nUes);
      assert (a + b)[..|a + b| - 1] == a + b[..|b| - 1];
    }
  }

  lemma {:induction false} RowInLockstep(ids: seq<int>, s: RoundRobin, offers: (nat, nat) -> seq<Offer>, t: nat,
      syms: nat, n: nat)
    requires forall t, f :: |offers(t, f)| == |ids|
    ensures Row(ids, Copies(s, |ids|), true, offers, t, syms, n).0
         == Copies(AskedAbout(s, Frequencies(n), |ids|), |ids|)
    decreases n
  {
    hide RoundRobin.Asked, Select, Candidates;
    if n > 0 {
      RowInLockstep(ids, s, offers, t, syms, n - 1);
      assert Frequencies(n)[..n - 1] == Frequencies(n - 1);
      AskAllCopies(AskedAbout(s, Frequencies(n - 1), |ids|), n - 1, |ids|);
    }
  }

  lemma AskAllCopies(s: RoundRobin, f: int, n: nat)
    ensures AskAll(Copies(s, n), f, true) == Copies(s.Asked(f, n), n)
  {
  }

  /** Whatever the UEs offer, after any number of slots every UE's copy of the round-robin state is the same. */
  lemma {:induction false} GridInLockstep(ids: seq<int>, s: RoundRobin, offers: (nat, nat) -> seq<Offer>,
      syms: seq<nat>, nFreq: nat)
    requires forall t, f :: |offers(t, f)| == |ids|
    ensures Rows(ids, Copies(s, |ids|), true, offers, syms, nFreq).0
         == Copies(AskedAbout(s, Considered(syms, nFreq), |ids|), |ids|)
  {
    hide Row, RoundRobin.Asked;
    if syms != [] {
      var t := |syms| - 1;
      GridInLockstep(ids, s, offers, syms[..t], nFreq);
      var before := Considered(syms[..t], nFreq);
      if syms[t] > 0 {
        RowInLockstep(ids, AskedAbout(s, before, |ids|), offers, t, syms[t], nFreq);
        AskedAboutAppend(s, before, Frequencies(nFreq), |ids|);
      } else {
        assert before + [] == before;
      }
    }
  }

  // ----- turns -----

  function Latest(prev: int, fs: seq<int>): int {
    if fs == [] then prev else fs[|fs| - 1]
  }

  // No block asks about the frequency index asked about just before.
  predicate NoRepeats(prev: int, fs: seq<int>) {
    fs == [] || (NoRepeats(prev, fs[..|fs| - 1]) && fs[|fs| - 1] != Latest(prev, fs[..|fs| - 1]))
  }

  lemma {:induction false} TurnsRotate(fs: seq<int>, nUes: nat)
    requires NoRepeats(-1, fs) && nUes > 0
    ensures AskedAbout(FRESH, fs, nUes).rrIndex == Place(|fs|, nUes)
    ensures fs != [] ==> AskedAbout(FRESH, fs, nUes).prevF == fs[|fs| - 1]
    ensures fs == [] ==> AskedAbout(FRESH, fs, nUes).prevF == -1
  {
    if fs != [] {
      TurnsRotate(fs[..|fs| - 1], nUes);
      PlaceNext(|fs| - 1, nUes);
    }
  }

  lemma OneMore(prev: int, fs: seq<int>, x: int)
    ensures NoRepeats(prev, fs) && x != Latest(prev, fs) ==> NoRepeats(prev, fs + [x])
    ensures Latest(prev, fs + [x]) == x
  {
    assert (fs + [x])[..|fs|] == fs;
  }

  lemma {:induction false} RowNeverRepeats(fs: seq<int>, n: nat)
    requires NoRepeats(-1, fs) && Latest(-1, fs) != 0
    ensures NoRepeats(-1, fs + Frequencies(n)) && (n > 0 ==> Latest(-1, fs + Frequencies(n)) == n - 1)
  {
    hide NoRepeats, Latest;
    if n == 0 {
      assert fs + Frequencies(0) == fs;
    } else {
      RowNeverRepeats(fs, n - 1);
      OneMore(-1, fs + Frequencies(n - 1), n - 1);
      assert Frequencies(n) == Frequencies(n - 1) + [n - 1];
      assert fs + Frequencies(n) == (fs + Frequencies(n - 1)) + [n - 1];
      if n == 1 {
        assert fs + Frequencies(0) == fs;
      }
    }
  }

  lemma {:induction false} GridNeverRepeats(syms: seq<nat>, nFreq: nat)
    requires nFreq >= 2
    ensures var fs := Considered(syms, nFreq); NoRepeats(-1, fs) && Latest(-1, fs) != 0
  {
    if syms != [] {
      var before := Considered(syms[..|syms| - 1], nFreq);
      GridNeverRepeats(syms[..|syms| - 1], nFreq);
      RowNeverRepeats(before, nFreq);
      assert before + [] == before;
    }
  }

  lemma {:induction false} PrefixNeverRepeats(prev: int, fs: seq<int>, k: nat)
    requires NoRepeats(prev, fs) && k <= |fs|
    ensures NoRepeats(prev, fs[..k])
  {
    if k == |fs| {
      assert fs[..k] == fs;
    } else {
      PrefixNeverRepeats(prev, fs[..|fs| - 1], k);
      assert fs[..|fs| - 1][..k] == fs[..k];
    }
  }

  // Whose turn the k-th considered block is, by the state the UEs share after being asked about it.
  function TurnOf(fs: seq<int>, nUes: nat, k: nat): int
    requires k < |fs|
  {
    AskedAbout(FRESH, fs[..k + 1], nUes).rrIndex
  }

  /** With at least two frequency groups, any `nUes` consecutive blocks considered, over any number of slots and
      steps, give each UE number its turn exactly once. */
  lemma EachUeInTurn(syms: seq<nat>, nFreq: nat, nUes: nat, from: nat, ue: nat) returns (k: nat)
    requires nFreq >= 2 && ue < nUes && from + nUes <= |Considered(syms, nFreq)|
    ensures from <= k < from + nUes && TurnOf(Considered(syms, nFreq), nUes, k) == ue
    ensures forall j: nat :: from <= j < from + nUes && TurnOf(Considered(syms, nFreq), nUes, j) == ue ==> j == k
  {
    hide Place, AskedAbout, Considered, NoRepeats;
    var fs := Considered(syms, nFreq);
    GridNeverRepeats(syms, nFreq);
    forall j: nat | j < |fs|
      ensures TurnOf(fs, nUes, j) == Place(j + 1, nUes)
    {
      PrefixNeverRepeats(-1, fs, j + 1);
      TurnsRotate(fs[..j + 1], nUes);
    }
    var p := EveryPlaceOnce(from + 1, nUes, ue);
    k := p - 1;
    forall j: nat | from <= j < from + nUes && TurnOf(fs, nUes, j) == ue
      ensures j == k
    {
      assert Place(j + 1, nUes) == ue;
    }
  }

  predicate TurnComes(fs: seq<int>, nUes: nat, ue: nat) {
    exists k: nat :: k < nUes && k < |fs| && TurnOf(fs, nUes, k) == ue
  }

  /** The first `nUes` blocks considered give every UE a turn exactly when there are at least two frequency groups or
      only one UE; with a single group the turn stays where the first block put it. */
  lemma RotatesExactlyWithTwoGroups(syms: seq<nat>, nFreq: nat, nUes: nat)
    requires nFreq > 0 && nUes > 0 && |Considered(syms, nFreq)| >= nUes
    ensures (forall ue: nat :: ue < nUes ==> TurnComes(Considered(syms, nFreq), nUes, ue)) <==> nFreq >= 2 || nUes == 1
    ensures nFreq == 1 ==> forall k: nat :: k < |Considered(syms, nFreq)| ==>
        TurnOf(Considered(syms, nFreq), nUes, k) == Place(1, nUes)
  {
    var fs := Considered(syms, nFreq);
    if nFreq >= 2 {
      forall ue: nat | ue < nUes
        ensures TurnComes(fs, nUes, ue)
      {
        var k := EachUeInTurn(syms, nFreq, nUes, 0, ue);
        assert k < nUes && TurnOf(fs, nUes, k) == ue;
      }
    } else {
      forall k: nat | k < |fs|
        ensures TurnOf(fs, nUes, k) == Place(1, nUes)
      {
        PrefixOfOneGroup(syms, k + 1);
        AllZeros(fs[..k + 1], nUes);
      }
      if nUes == 1 {
        assert TurnOf(fs, 1, 0) == 0;
      } else {
        assert !TurnComes(fs, nUes, 0);
      }
    }
  }

  lemma {:induction false} PrefixOfOneGroup(syms: seq<nat>, k: nat)
    requires k <= |Considered(syms, 1)|
    ensures forall i :: 0 <= i < k ==> Considered(syms, 1)[..k][i] == 0
  {
    if syms != [] {
      var before := Considered(syms[..|syms| - 1], 1);
      PrefixOfOneGroup(syms[..|syms| - 1], |before|);
      assert forall i :: 0 <= i < |before| ==> before[..|before|][i] == before[i];
    }
  }

  lemma {:induction false} AllZeros(fs: seq<int>, nUes: nat)
    requires nUes > 0 && fs != [] && forall i :: 0 <= i < |fs| ==> fs[i] == 0
    ensures AskedAbout(FRESH, fs, nUes) == RoundRobin(Place(1, nUes), 0)
  {
    if |fs| > 1 {
      AllZeros(fs[..|fs| - 1], nUes);
    } else {
      assert fs[..0] == [];
    }
  }

  // ----- who is served -----

  predicate HasData(o: Offer) { o.hasPkts && o.bitsPerSymbol > 0.0 }

  // The grant is the rate of the UE served times the slot's symbols.
  ghost predicate Paid(u: Use, offers: seq<Offer>, syms: nat) {
    && 0 <= u.ue < |offers| && u.granted == offers[u.ue].bitsPerSymbol * syms as real
    && u.sent == offers[u.ue].Sends(u.granted)
  }

  // UEs numbered as they stand in the list, as the configuration adds them.
  predicate Numbered(ids: seq<int>) {
    forall i :: 0 <= i < |ids| ==> ids[i] == i
  }

  /** The UE whose turn it is gets the block if it has data; otherwise some UE that has data gets it; and nobody
      gets it exactly when nobody has data. */
  lemma TurnWinsElseSomeoneWithData(ids: seq<int>, s: RoundRobin, f: int, offers: seq<Offer>, syms: nat)
    requires Numbered(ids) && |offers| == |ids|
    ensures var w := Served(ids, Copies(s, |ids|), f, true, offers, syms).1; var turn := s.Asked(f, |ids|).rrIndex;
            && (0 <= turn < |ids| && HasData(offers[turn]) ==> w.Some? && w.value.ue == turn)
            && (w.Some? ==> 0 <= w.value.ue < |ids| && HasData(offers[w.value.ue]) && Paid(w.value, offers, syms))
            && (w == None <==> forall i :: 0 <= i < |ids| ==> !HasData(offers[i]))
  {
    hide RoundRobin.Asked;
    AskAllCopies(s, f, |ids|);
    var cands := Candidates(ids, Copies(s.Asked(f, |ids|), |ids|), true, offers);
    SelectFindsLastBest(cands);
    assert forall i :: 0 <= i < |ids| ==> (cands[i].hasData <==> HasData(offers[i]));
    var b := Select(cands);
    var turn := s.Asked(f, |ids|).rrIndex;
    if 0 <= turn < |ids| && HasData(offers[turn]) {
      assert cands[turn].metric == 1.0;
      if b.index != turn {
        assert cands[b.index].metric == 0.0;
      }
    }
  }

  /** Without round robin the metric each UE offers decides: the block goes to a UE with data that offers the most, the
      last of them on a tie, and to nobody exactly if no UE with data offers -1 or more; nobody's state moves. */
  lemma BestOfferWins(ids: seq<int>, ss: seq<RoundRobin>, f: int, offers: seq<Offer>, syms: nat)
    requires |ids| == |ss| == |offers|
    ensures var (ss', w) := Served(ids, ss, f, false, offers, syms);
            && ss' == ss
            && (w == None <==> forall i :: 0 <= i < |offers| && HasData(offers[i]) ==> offers[i].metric < -1.0)
            && (w.Some? ==>
                  && 0 <= w.value.ue < |offers| && HasData(offers[w.value.ue]) && Paid(w.value, offers, syms)
                  && (forall i :: 0 <= i < |offers| && HasData(offers[i]) ==>
                        && offers[i].metric <= offers[w.value.ue].metric
                        && (i > w.value.ue ==> offers[i].metric < offers[w.value.ue].metric)))
  {
    var cands := Candidates(ids, AskAll(ss, f, false), false, offers);
    SelectFindsLastBest(cands);
    assert forall i :: 0 <= i < |offers| ==>
        (cands[i].hasData <==> HasData(offers[i])) && cands[i].metric == offers[i].metric;
  }

  lemma {:induction false} RowWinner(ids: seq<int>, ss: seq<RoundRobin>, rr: bool,
      offers: (nat, nat) -> seq<Offer>, t: nat, syms: nat, n: nat, f: nat)
    requires |ids| == |ss| && f < n && forall t, f :: |offers(t, f)| == |ids|
    ensures Row(ids, ss, rr, offers, t, syms, n).1[f]
         == Served(ids, Row(ids, ss, rr, offers, t, syms, f).0, f, rr, offers(t, f), syms).1
    decreases n
  {
    hide Served;
    if f < n - 1 {
      RowWinner(ids, ss, rr, offers, t, syms, n - 1, f);
    }
  }

  /** Every block the grid considers, in every slot with symbols: its turn goes round the UEs by the count of blocks
      considered so far; the UE whose turn it is wins if it has data, else somebody who has data does, and the block
      stays empty exactly when nobody has data. */
  lemma EveryBlockIsServedInTurn(ids: seq<int>, offers: (nat, nat) -> seq<Offer>, syms: seq<nat>, nFreq: nat,
      t: nat, f: nat)
    requires Numbered(ids) && ids != [] && nFreq >= 2 && (forall t, f :: |offers(t, f)| == |ids|)
    requires t < |syms| && f < nFreq && syms[t] > 0
    ensures var start := Rows(ids, Copies(FRESH, |ids|), true, offers, syms[..t], nFreq).0;
            var w := Row(ids, start, true, offers, t, syms[t], nFreq).1[f];
            var turn := Place(|Considered(syms[..t], nFreq)| + f + 1, |ids|);
            && (HasData(offers(t, f)[turn]) ==> w.Some? && w.value.ue == turn)
            && (w.Some? ==>
                  && 0 <= w.value.ue < |ids| && HasData(offers(t, f)[w.value.ue])
                  && Paid(w.value, offers(t, f), syms[t]))
            && (w == None <==> forall i :: 0 <= i < |ids| ==> !HasData(offers(t, f)[i]))
  {
    hide Rows, Row, Served, HasData, Paid, Considered, AskedAbout, NoRepeats, RoundRobin.Asked, Place;
    var before := Considered(syms[..t], nFreq);
    var s := AskedAbout(FRESH, before, |ids|);
    GridInLockstep(ids, FRESH, offers, syms[..t], nFreq);
    RowWinner(ids, Copies(s, |ids|), true, offers, t, syms[t], nFreq, f);
    RowInLockstep(ids, s, offers, t, syms[t], f);
    var s' := AskedAbout(s, Frequencies(f), |ids|);
    TurnWinsElseSomeoneWithData(ids, s', f, offers(t, f), syms[t]);
    AskedAboutAppend(FRESH, before, Frequencies(f + 1), |ids|);
    AskedAboutSnoc(s, f, |ids|);
    GridNeverRepeats(syms[..t], nFreq);
    RowNeverRepeats(before, f + 1);
    TurnsRotate(before + Frequencies(f + 1), |ids|);
  }

  lemma AskedAboutSnoc(s: RoundRobin, f: nat, nUes: nat)
    ensures AskedAbout(s, Frequencies(f + 1), nUes) == AskedAbout(s, Frequencies(f), nUes).Asked(f, nUes)
  {
    assert Frequencies(f + 1)[..f] == Frequencies(f);
  }

  // ----- numbering -----

  // How the UE handler grows: by a group from the configuration, or by one UE.
  datatype Build = Group(n: nat) | Single

  // The list of UE ids as the UE handler builds it.
  datatype UeList = UeList(ids: seq<int>, nextId: int) {
    function AddUes(n: nat): UeList { UeList(ids + seq(n, i => nextId + i), nextId + n) }

    function AddUe(): UeList { UeList(ids + [nextId + 1], nextId + 1) }

    function Built(bs: seq<Build>): UeList
      decreases |bs|
    {
      if bs == [] then this
      else (match bs[0] case Group(n) => AddUes(n) case Single => AddUe()).Built(bs[1..])
    }
  }

  const NO_UES := UeList([], 0)

  predicate OnlyGroups(bs: seq<Build>) {
    forall i :: 0 <= i < |bs| ==> bs[i].Group?
  }

  predicate HasTurn(ids: seq<int>, turn: int) {
    exists i :: 0 <= i < |ids| && ids[i] == turn
  }

  // Every turn of the rotation designates some UE, and so, there being as many turns as UEs, exactly one.
  ghost predicate OneEach(ids: seq<int>) {
    forall turn :: 0 <= turn < |ids| ==> HasTurn(ids, turn)
  }

  lemma {:induction false} GroupsAreNumbered(u: UeList, bs: seq<Build>)
    requires Numbered(u.ids) && u.nextId == |u.ids| && OnlyGroups(bs)
    ensures Numbered(u.Built(bs).ids) && u.Built(bs).nextId == |u.Built(bs).ids|
    decreases |bs|
  {
    if bs != [] {
      GroupsAreNumbered(u.AddUes(bs[0].n), bs[1..]);
    }
  }

  // A number passed over is not given out again.
  lemma {:induction false} SkippedStays(u: UeList, bs: seq<Build>, skipped: int)
    requires 0 <= skipped < |u.ids| && skipped < u.nextId && !HasTurn(u.ids, skipped)
    ensures skipped < |u.Built(bs).ids| && !HasTurn(u.Built(bs).ids, skipped)
    decreases |bs|
  {
    if bs != [] {
      SkippedStays(match bs[0] case Group(n) => u.AddUes(n) case Single => u.AddUe(), bs[1..], skipped);
    }
  }

  lemma {:induction false} BuiltAppend(u: UeList, a: seq<Build>, b: seq<Build>)
    ensures u.Built(a + b) == u.Built(a).Built(b)
    decreases |a|
  {
    if a == [] {
      assert a + b == b;
    } else {
      assert (a + b)[1..] == a[1..] + b;
      BuiltAppend(match a[0] case Group(n) => u.AddUes(n) case Single => u.AddUe(), a[1..], b);
    }
  }

  /** The first UE added singly skips the number of its own place: on that turn no UE is ever designated, whatever is
      added later. */
  lemma FirstSingleSkipsItsTurn(before: seq<Build>, after: seq<Build>)
    requires OnlyGroups(before)
    ensures var turn, ids := |NO_UES.Built(before).ids|, NO_UES.Built(before + ([Single] + after)).ids;
            0 <= turn < |ids| && !HasTurn(ids, turn)
  {
    var u := NO_UES.Built(before);
    GroupsAreNumbered(NO_UES, before);
    BuiltAppend(NO_UES, before, [Single] + after);
    assert ([Single] + after)[1..] == after;
    assert u.AddUe().ids[|u.ids|] == |u.ids| + 1;
    SkippedStays(u.AddUe(), after, |u.ids|);
  }

  /** The rotation designates every UE, one on each turn, if and only if none was ever added singly. */
  lemma EveryUeHasATurn(bs: seq<Build>)
    ensures OneEach(NO_UES.Built(bs).ids) <==> OnlyGroups(bs)
  {
    if OnlyGroups(bs) {
      GroupsAreNumbered(NO_UES, bs);
      var ids := NO_UES.Built(bs).ids;
      forall turn | 0 <= turn < |ids|
        ensures HasTurn(ids, turn)
      {
        assert ids[turn] == turn;
      }
    } else {
      var k := FirstSingle(bs);
      assert bs == bs[..k] + ([Single] + bs[k + 1..]);
      FirstSingleSkipsItsTurn(bs[..k], bs[k + 1..]);
    }
  }

  function FirstSingle(bs: seq<Build>): (k: nat)
    requires !OnlyGroups(bs)
    ensures k < |bs| && bs[k].Single? && OnlyGroups(bs[..k])
  {
    if bs[0].Single? then 0
    else
      assert !OnlyGroups(bs[1..]) by {
        var i :| 0 <= i < |bs| && !bs[i].Group?;
        assert bs[1..][i - 1] == bs[i];
      }
      1 + FirstSingle(bs[1..])
  }
}
