/** Brackets over whole runs: how many results a field takes, and that nothing
    but the seed order and the results decides what a bracket looks like. */
module BracketRuns {
  import opened Basics
  import opened Brackets
  import opened BracketRules
  import opened Elimination

  // ---------- counting matches ----------

  function Count(ms: seq<Match>, p: Match -> bool): nat {
    if ms == [] then 0 else (if p(ms[0]) then 1 else 0) + Count(ms[1..], p)
  }

  predicate IsOpen(m: Match) {
    m.winner.None?
  }

  predicate IsPlayedMatch(m: Match) {
    m.IsPlayed()
  }

  predicate IsBye(m: Match) {
    m.winner.Some? && !m.IsReady()
  }

  /** The matches that still wait for a winner. */
  function OpenCount(R: Rounds): nat {
    Count(Flat(R), IsOpen)
  }

  function PlayedCount(R: Rounds): nat {
    Count(Flat(R), IsPlayedMatch)
  }

  lemma {:induction false} CountAppend(ms: seq<Match>, ns: seq<Match>, p: Match -> bool)
    ensures Count(ms + ns, p) == Count(ms, p) + Count(ns, p)
  {
    if ms == [] {
      assert ms + ns == ns;
    } else {
      assert (ms + ns)[1..] == ms[1..] + ns;
      CountAppend(ms[1..], ns, p);
    }
  }

  lemma CountFlat(R: Rounds, p: Match -> bool)
    requires R != []
    ensures Count(Flat(R), p) == Count(R[0], p) + Count(Flat(R[1..]), p)
  {
    CountAppend(R[0], Flat(R[1..]), p);
  }

  lemma {:induction false} CountUpdate(ms: seq<Match>, i: nat, m: Match, p: Match -> bool)
    requires i < |ms|
    ensures Count(ms[i := m], p) ==
            Count(ms, p) - (if p(ms[i]) then 1 else 0) + (if p(m) then 1 else 0)
  {
    if i == 0 {
      assert ms[0 := m][1..] == ms[1..];
    } else {
      assert ms[i := m][1..] == ms[1..][i - 1 := m];
      CountUpdate(ms[1..], i - 1, m, p);
    }
  }

  lemma {:induction false} CountFlatUpdate(R: Rounds, r: nat, s: nat, m: Match, p: Match -> bool)
    requires At(R, r, s)
    ensures Count(Flat(R[r := R[r][s := m]]), p) ==
            Count(Flat(R), p) - (if p(R[r][s]) then 1 else 0) + (if p(m) then 1 else 0)
  {
    var R' := R[r := R[r][s := m]];
    CountFlat(R, p);
    CountFlat(R', p);
    if r == 0 {
      assert R'[1..] == R[1..];
      CountUpdate(R[0], s, m, p);
    } else {
      assert R'[1..] == R[1..][r - 1 := R[1..][r - 1][s := m]];
      CountFlatUpdate(R[1..], r - 1, s, m, p);
    }
  }

  lemma {:induction false} CountNone(ms: seq<Match>, p: Match -> bool)
    requires forall i :: 0 <= i < |ms| ==> !p(ms[i])
    ensures Count(ms, p) == 0
  {
    if ms != [] {
      CountNone(ms[1..], p);
    }
  }

  lemma {:induction false} CountSome(ms: seq<Match>, i: nat, p: Match -> bool)
    requires i < |ms| && p(ms[i])
    ensures Count(ms, p) > 0
  {
    if i > 0 {
      CountSome(ms[1..], i - 1, p);
    }
  }

  lemma {:induction false} CountPrefix(ms: seq<Match>, c: nat, p: Match -> bool)
    requires c <= |ms|
    requires forall i :: 0 <= i < |ms| ==> (p(ms[i]) <==> i < c)
    ensures Count(ms, p) == c
  {
    if ms != [] {
      if c == 0 {
        CountNone(ms, p);
      } else {
        CountPrefix(ms[1..], c - 1, p);
      }
    }
  }

  lemma {:induction false} MemberOfFlat(R: Rounds, i: nat) returns (r: nat, s: nat)
    requires i < |Flat(R)|
    ensures At(R, r, s) && R[r][s] == Flat(R)[i]
  {
    if i < |R[0]| {
      r, s := 0, i;
    } else {
      var r', s' := MemberOfFlat(R[1..], i - |R[0]|);
      r, s := r' + 1, s';
    }
  }

  lemma {:induction false} FlatIndex(R: Rounds, r: nat, s: nat) returns (i: nat)
    requires At(R, r, s)
    ensures i < |Flat(R)| && Flat(R)[i] == R[r][s]
  {
    if r == 0 {
      i := s;
    } else {
      var i' := FlatIndex(R[1..], r - 1, s);
      i := |R[0]| + i';
    }
  }

  /** A bracket with `size / 2` round-one matches has `size - 1` in all. */
  lemma {:induction false} TotalMatches(R: Rounds)
    requires Halving(R)
    ensures |Flat(R)| == 2 * |R[0]| - 1
  {
    if |R| > 1 {
      assert forall r :: 0 < r < |R[1..]| ==> R[1..][r - 1] == R[r] && R[1..][r] == R[r + 1];
      assert Halving(R[1..]);
      TotalMatches(R[1..]);
    } else {
      assert R[1..] == [];
    }
  }

  lemma {:induction false} CountPartition(ms: seq<Match>)
    requires forall i :: 0 <= i < |ms| ==> (IsPlayedMatch(ms[i]) || IsOpen(ms[i]) || IsBye(ms[i]))
    ensures Count(ms, IsOpen) + Count(ms, IsPlayedMatch) + Count(ms, IsBye) == |ms|
  {
    if ms != [] {
      CountPartition(ms[1..]);
    }
  }

  lemma ByeCount(order: seq<EntrantId>, R: Rounds)
    requires Valid(order, R)
    ensures Count(Flat(R), IsBye) == 2 * |R[0]| - |order|
  {
    CountFlat(R, IsBye);
    forall s | 0 <= s < |R[0]| ensures IsBye(R[0][s]) <==> s < 2 * |R[0]| - |order| {
      assert At(R, 0, s) && Settled(R[0][s]);
      assert R[0][s].a == SeatA(order, |R[0]|, s) && R[0][s].b == SeatB(order, |R[0]|, s);
    }
    CountPrefix(R[0], 2 * |R[0]| - |order|, IsBye);
    var later := Flat(R[1..]);
    forall i | 0 <= i < |later| ensures !IsBye(later[i]) {
      var r, s := MemberOfFlat(R[1..], i);
      assert At(R, r + 1, s) && Settled(R[r + 1][s]);
    }
    CountNone(later, IsBye);
  }

  /** A field of n takes n - 1 results, byes or not: what is open and what is
      played always add up to it. */
  lemma OpenPlusPlayed(order: seq<EntrantId>, R: Rounds)
    requires Valid(order, R)
    ensures OpenCount(R) + PlayedCount(R) == |order| - 1
  {
    TotalMatches(R);
    ByeCount(order, R);
    CountPartition(Flat(R));
  }

  lemma ChampionMeansNoneOpen(order: seq<EntrantId>, R: Rounds)
    requires Valid(order, R)
    ensures ChampionOf(R).Some? <==> OpenCount(R) == 0
  {
    if ChampionOf(R).Some? {
      forall i | 0 <= i < |Flat(R)| ensures !IsOpen(Flat(R)[i]) {
        var r, s := MemberOfFlat(R, i);
        ChampionDecidesAll(order, R, r, s);
      }
      CountNone(Flat(R), IsOpen);
    } else {
      var i := FlatIndex(R, |R| - 1, 0);
      CountSome(Flat(R), i, IsOpen);
    }
  }

  lemma WriteChangesOpenCount(R: Rounds, r: nat, s: nat, w: Option<EntrantId>)
    requires At(R, r, s)
    ensures OpenCount(SetWinner(R, r, s, w)) ==
            OpenCount(R) - (if R[r][s].winner.None? then 1 else 0) + (if w.None? then 1 else 0)
  {
    var m := R[r][s].(winner := w);
    var R1 := R[r := R[r][s := m]];
    CountFlatUpdate(R, r, s, m, IsOpen);
    if At(R1, r + 1, s / 2) {
      CountFlatUpdate(R1, r + 1, s / 2, R1[r + 1][s / 2].WithSide(s, w), IsOpen);
    }
  }

  // ---------- how many results a run enters ----------

  /** What one operation adds to the number of results: a first result adds one,
      a changed or refused one nothing, and a removal takes one away. */
  function Gain(R: Rounds, op: Op): int {
    if Apply(R, op).Err? then 0
    else
      var (r, s) := Locate(R, op.id).value;
      (if R[r][s].winner.Some? then -1 else 0) + (if op.OpReport? then 1 else 0)
  }

  function Gains(R: Rounds, ops: seq<Op>): int {
    if ops == [] then 0
    else
      var before := ops[..|ops| - 1];
      Gains(R, before) + Gain(Run(R, before), ops[|ops| - 1])
  }

  lemma StepChangesOpenCount(R: Rounds, op: Op)
    ensures OpenCount(After(R, op)) == OpenCount(R) - Gain(R, op)
  {
    if Apply(R, op).Ok? {
      var (r, s) := Locate(R, op.id).value;
      match op {
        case OpReport(_, winner) => WriteChangesOpenCount(R, r, s, Some(winner));
        case OpClear(_) => WriteChangesOpenCount(R, r, s, None);
      }
    }
  }

  lemma {:induction false} RunChangesOpenCount(R: Rounds, ops: seq<Op>)
    ensures OpenCount(Run(R, ops)) == OpenCount(R) - Gains(R, ops)
    decreases |ops|
  {
    if ops != [] {
      RunChangesOpenCount(R, ops[..|ops| - 1]);
      StepChangesOpenCount(Run(R, ops[..|ops| - 1]), ops[|ops| - 1]);
    }
  }

  /** From the generated bracket of n entrants, any run of accepted and refused
      operations in any order has a champion exactly when its gains reach
      n - 1, and the gains can never pass n - 1. */
  lemma ChampionAfterExactlyAllResults(order: seq<EntrantId>, ids: (nat, nat) -> MatchId, ops: seq<Op>)
    requires 2 <= |order| <= MAX_ENTRANTS && NoDup(order) && Supply(ids, |order|)
    ensures var R := Run(Blank(order, ids), ops);
      && 0 <= Gains(Blank(order, ids), ops) <= |order| - 1
      && (ChampionOf(R).Some? <==> Gains(Blank(order, ids), ops) == |order| - 1)
      && PlayedCount(R) == Gains(Blank(order, ids), ops)
  {
    var B := Blank(order, ids);
    BlankIsValid(order, ids);
    RunKeepsValid(order, B, ops);
    RunChangesOpenCount(B, ops);
    OpenPlusPlayed(order, Run(B, ops));
    ChampionMeansNoneOpen(order, Run(B, ops));
    NothingPlayedAtTheStart(order, ids);
    OpenPlusPlayed(order, B);
  }

  lemma NothingPlayedAtTheStart(order: seq<EntrantId>, ids: (nat, nat) -> MatchId)
    requires 2 <= |order| <= MAX_ENTRANTS && NoDup(order) && Supply(ids, |order|)
    ensures PlayedCount(Blank(order, ids)) == 0
  {
    var B := Blank(order, ids);
    BlankIsValid(order, ids);
    forall i | 0 <= i < |Flat(B)| ensures !IsPlayedMatch(Flat(B)[i]) {
      var r, s := MemberOfFlat(B, i);
      assert At(B, r, s);
    }
    CountNone(Flat(B), IsPlayedMatch);
  }

  /** One more first result, from any bracket that has no champion yet. */
  lemma PlayOne(order: seq<EntrantId>, R: Rounds) returns (op: Op)
    requires Valid(order, R) && OpenCount(R) > 0
    ensures op.OpReport? && Apply(R, op).Ok?
    ensures Valid(order, After(R, op)) && OpenCount(After(R, op)) == OpenCount(R) - 1
  {
    ChampionMeansNoneOpen(order, R);
    var r, s := PlayNeverSticks(order, R);
    op := OpReport(R[r][s].id, R[r][s].a.value);
    assert Sits(R, r, s, op.winner);
    LocateFinds(R, r, s);
    StepChangesOpenCount(R, op);
    StepKeepsValid(order, R, op);
  }

  /** From any bracket, as many results as matches are open lead to a
      champion. */
  lemma {:induction false} PlayOut(order: seq<EntrantId>, R: Rounds) returns (ops: seq<Op>)
    requires Valid(order, R)
    ensures ChampionOf(Run(R, ops)).Some? && |ops| == OpenCount(R)
    decreases OpenCount(R)
  {
    ChampionMeansNoneOpen(order, R);
    if OpenCount(R) == 0 {
      ops := [];
    } else {
      var op := PlayOne(order, R);
      var rest := PlayOut(order, After(R, op));
      ops := [op] + rest;
      assert Run(R, [op]) == After(R, op) by { assert [op][..0] == []; }
      RunAppend(R, [op], rest);
    }
  }

  // ---------- the state is the seed order plus the results ----------

  /** The winner a played match has. Byes have none in this sense. */
  function ResultOf(R: Rounds, id: MatchId): Option<EntrantId> {
    match Locate(R, id)
    case None => None
    case Some((r, s)) => if R[r][s].IsPlayed() then R[r][s].winner else None
  }

  lemma LocateAcrossSameIds(R: Rounds, R': Rounds, id: MatchId)
    requires SameIds(R, R') && DistinctIds(R)
    ensures Locate(R, id) == Locate(R', id)
  {
    var p, q := Locate(R, id), Locate(R', id);
    if p.Some? {
      var (r, s) := p.value;
      assert At(R', r, s) && R'[r][s].id == id;
    }
    if q.Some? {
      var (r, s) := q.value;
      assert At(R, r, s) && R[r][s].id == id;
    }
  }

  /** The refinement: on the results, a report is one insert and a clear one
      removal. Byes, feeding and guards leave no other trace. */
  lemma OperationIsOneResult(order: seq<EntrantId>, R: Rounds, op: Op, x: MatchId)
    requires Valid(order, R) && Apply(R, op).Ok?
    ensures ResultOf(After(R, op), x) ==
            if x != op.id then ResultOf(R, x)
            else if op.OpReport? then Some(op.winner) else None
  {
    AcceptedIsOneWrite(R, op);
    StepKeepsValid(order, R, op);
    LocateAcrossSameIds(R, After(R, op), x);
    var (r, s) := Locate(R, op.id).value;
    var w := if op.OpReport? then Some(op.winner) else None;
    SetWinnerAt(R, r, s, w);
    if Locate(R, x).Some? {
      var (i, j) := Locate(R, x).value;
      if x != op.id {
        assert !(i == r && j == s);
      } else {
        LocateFinds(R, r, s);
      }
    }
  }

  lemma {:induction false} SameResultsSameRound(order: seq<EntrantId>, R: Rounds, R': Rounds, r: nat, s: nat)
    requires Valid(order, R) && Valid(order, R') && SameIds(R, R')
    requires forall id :: ResultOf(R, id) == ResultOf(R', id)
    requires At(R, r, s)
    ensures At(R', r, s) && R[r][s] == R'[r][s]
    decreases r
  {
    var m, m' := R[r][s], R'[r][s];
    assert At(R', r, s);
    if r == 0 {
      assert m.a == SeatA(order, |R[0]|, s) && m.b == SeatB(order, |R[0]|, s);
      assert m'.a == SeatA(order, |R[0]|, s) && m'.b == SeatB(order, |R[0]|, s);
    } else {
      SidesAreFeederWinners(order, R, r, s);
      SidesAreFeederWinners(order, R', r, s);
      SameResultsSameRound(order, R, R', r - 1, 2 * s);
      SameResultsSameRound(order, R, R', r - 1, 2 * s + 1);
    }
    assert m.id == m'.id && m.round == m'.round && m.slot == m'.slot;
    assert Settled(m) && Settled(m');
    LocateFinds(R, r, s);
    LocateFinds(R', r, s);
    assert ResultOf(R, m.id) == ResultOf(R', m.id);
  }

  /** Two brackets of one seed order with the same results are the same
      bracket, whatever the order the results came in. */
  lemma ResultsDetermineTheBracket(order: seq<EntrantId>, R: Rounds, R': Rounds)
    requires Valid(order, R) && Valid(order, R') && SameIds(R, R')
    requires forall id :: ResultOf(R, id) == ResultOf(R', id)
    ensures R == R'
  {
    forall r | 0 <= r < |R| ensures R[r] == R'[r] {
      forall s | 0 <= s < |R[r]| ensures R[r][s] == R'[r][s] {
        SameResultsSameRound(order, R, R', r, s);
      }
    }
  }

  /** Clearing a first result restores the bracket as it was. */
  lemma ClearUndoesFirstReport(order: seq<EntrantId>, R: Rounds, id: MatchId, winner: EntrantId)
    requires Valid(order, R) && Reported(R, id, winner).Ok? && ResultOf(R, id) == None
    ensures Cleared(Reported(R, id, winner).value.rounds, id).Ok?
    ensures Cleared(Reported(R, id, winner).value.rounds, id).value.rounds == R
  {
    var report, clear := OpReport(id, winner), OpClear(id);
    var R1 := After(R, report);
    AcceptedIsOneWrite(R, report);
    var (r, s) := Locate(R, id).value;
    SetWinnerAt(R, r, s, Some(winner));
    StepKeepsValid(order, R, report);
    LocateAcrossSameIds(R, R1, id);
    var R2 := After(R1, clear);
    StepKeepsValid(order, R1, clear);
    forall x ensures ResultOf(R2, x) == ResultOf(R, x) {
      OperationIsOneResult(order, R, report, x);
      OperationIsOneResult(order, R1, clear, x);
    }
    ResultsDetermineTheBracket(order, R2, R);
  }

  // ---------- valid means reachable ----------

  lemma {:induction false} HalvingSizes(R: Rounds, r: nat)
    requires Halving(R) && r < |R|
    ensures |R[r]| == Pow2(|R| - 1 - r)
    decreases |R| - r
  {
    if r < |R| - 1 {
      HalvingSizes(R, r + 1);
      assert |R[r + 1 - 1]| == 2 * |R[r + 1]|;
    }
  }

  lemma ShapeOfField(order: seq<EntrantId>, R: Rounds)
    requires Valid(order, R)
    ensures |R| == Log2Ceil(|order|)
    ensures forall r: nat, s: nat :: InShape(|order|, r, s) <==> At(R, r, s)
    ensures |R[0]| <= 128
  {
    HalvingSizes(R, 0);
    assert |order| <= Pow2(|R|);
    Log2CeilUnique(|order|, |R|);
    SizesGiveShape(R, |order|);
    HalfOfTheLargestField(|R| - 1);
  }

  lemma SizesGiveShape(R: Rounds, n: nat)
    requires Halving(R) && |R| == Log2Ceil(n)
    ensures forall r: nat, s: nat :: InShape(n, r, s) <==> At(R, r, s)
  {
    forall r: nat, s: nat ensures InShape(n, r, s) <==> At(R, r, s) {
      if r < |R| {
        HalvingSizes(R, r);
      }
    }
  }

  lemma HalfOfTheLargestField(k: nat)
    requires Pow2(k) < MAX_ENTRANTS
    ensures Pow2(k) <= 128
  {
    assert Pow2(8) == 256 && Pow2(7) == 128;
    if k >= 8 {
      Pow2Monotone(8, k);
    } else {
      Pow2Monotone(k, 7);
    }
  }

  /** What generation makes of n entrants: rounds that halve from the next power
      of two down to one final, byes in the first slots and nowhere else, no
      empty match, and every entrant on exactly one side of round one. */
  lemma GeneratedShape(order: seq<EntrantId>, ids: (nat, nat) -> MatchId)
    requires 2 <= |order| <= MAX_ENTRANTS && NoDup(order) && Supply(ids, |order|)
    ensures var R := Blank(order, ids); var size := NextPowerOfTwo(|order|);
      && |R| == TrailingZeros(size)
      && (forall r :: 0 <= r < |R| ==> |R[r]| == ShiftRight(size, r + 1))
      && |Flat(R)| == size - 1
      && (forall s :: 0 <= s < |R[0]| ==> R[0][s].a.Some? && (R[0][s].b.None? <==> s < size - |order|))
      && (forall e :: e in order <==> exists s: nat :: Sits(R, 0, s, e))
      && (forall s: nat, s': nat, e :: Sits(R, 0, s, e) && Sits(R, 0, s', e) ==> s == s' && R[0][s].a != R[0][s].b)
  {
    var R, size := Blank(order, ids), NextPowerOfTwo(|order|);
    BlankIsValid(order, ids);
    NextPowerOfTwoIs(|order|);
    ShapeOfField(order, R);
    TotalMatches(R);
    forall r | 0 <= r < |R| ensures |R[r]| == ShiftRight(size, r + 1) {
      HalvingSizes(R, r);
      ShiftRightOfPow2(|R|, r + 1);
    }
    HalvingSizes(R, 0);
    forall s | 0 <= s < |R[0]| ensures R[0][s].a.Some? && (R[0][s].b.None? <==> s < size - |order|) {
      assert R[0][s].a == SeatA(order, |R[0]|, s) && R[0][s].b == SeatB(order, |R[0]|, s);
    }
    forall e ensures e in order <==> exists s: nat :: Sits(R, 0, s, e) {
      if e in order {
        HomeIsSeated(order, R, e);
      }
      if s: nat :| Sits(R, 0, s, e) {
        SitsAtHome(order, R, s, e);
      }
    }
    forall s: nat, s': nat, e | Sits(R, 0, s, e) && Sits(R, 0, s', e)
      ensures s == s' && R[0][s].a != R[0][s].b
    {
      OneMatchPerRound(order, R, 0, s, s', e);
      if R[0][s].IsReady() {
        SidesDiffer(order, R, 0, s);
      }
    }
  }

  /** Every match of a generated bracket, column by column. Neighbours of the seed
      order meet, seed 1 first, and the winner of a bye stands in round two. */
  lemma GeneratedMatches(order: seq<EntrantId>, ids: (nat, nat) -> MatchId, r: nat, s: nat)
    requires 2 <= |order| <= 256 && At(Blank(order, ids), r, s)
    ensures var m := Blank(order, ids)[r][s]; var byes := NextPowerOfTwo(|order|) - |order|;
      && m.id == ids(r, s) && m.round == r + 1 && m.slot == s
      && (r == 0 && s < byes ==>
            s < |order| && m.a == Some(order[s]) && m.b == None && m.winner == Some(order[s]))
      && (r == 0 && s >= byes ==>
            && 0 <= 2 * s - byes < |order| - 1 && m.a == Some(order[2 * s - byes])
            && m.b == Some(order[2 * s - byes + 1]) && m.winner == None)
      && (r == 1 && 2 * s < byes ==> 2 * s < |order| && m.a == Some(order[2 * s]))
      && (r == 1 && 2 * s + 1 < byes ==> 2 * s + 1 < |order| && m.b == Some(order[2 * s + 1]))
      && (r == 1 && 2 * s >= byes ==> m.a == None)
      && (r == 1 && 2 * s + 1 >= byes ==> m.b == None)
      && (r >= 2 ==> m.a == None && m.b == None)
      && (r >= 1 ==> m.winner == None)
  {
    var k := Log2Ceil(|order|);
    NextPowerOfTwoIs(|order|);
    assert Blank(order, ids)[r] == BlankRound(order, ids, r);
    assert Blank(order, ids)[r][s] == BlankMatch(order, ids, r, s);
    assert Pow2(k) == 2 * Pow2(k - 1);
  }

  ghost function IdsOf(R: Rounds): (nat, nat) -> MatchId {
    (r: nat, s: nat) => if At(R, r, s) then R[r][s].id else 0
  }

  lemma BlankOfOwnIds(order: seq<EntrantId>, R: Rounds)
    requires Valid(order, R)
    ensures Supply(IdsOf(R), |order|)
    ensures Valid(order, Blank(order, IdsOf(R)))
    ensures SameIds(R, Blank(order, IdsOf(R)))
  {
    ShapeOfField(order, R);
    var ids := IdsOf(R);
    BlankIsValid(order, ids);
    var B: Rounds := Blank(order, ids);
    forall r, s | 0 <= r < |B| && 0 <= s < |B[r]| ensures B[r][s].id == R[r][s].id {
      assert B[r] == BlankRound(order, ids, r);
      assert InShape(|order|, r, s);
    }
    forall r | 0 <= r < |B| ensures |B[r]| == |R[r]| {
      assert B[r] == BlankRound(order, ids, r);
      HalvingSizes(R, r);
    }
  }

  /** A bracket has no results exactly when it is the one that was generated. */
  lemma NoResultsMeansGenerated(order: seq<EntrantId>, ids: (nat, nat) -> MatchId, R: Rounds)
    requires Valid(order, R) && |order| >= 2 && Supply(ids, |order|)
    requires SameIds(R, Blank(order, ids))
    ensures !HasResults(R) <==> R == Blank(order, ids)
  {
    BlankIsValid(order, ids);
    var B := Blank(order, ids);
    if !HasResults(R) {
      forall id ensures ResultOf(R, id) == ResultOf(B, id) {
        if Locate(R, id).Some? {
          var (r, s) := Locate(R, id).value;
          assert At(R, r, s);
        }
        if Locate(B, id).Some? {
          var (r, s) := Locate(B, id).value;
          assert At(B, r, s);
        }
      }
      ResultsDetermineTheBracket(order, R, B);
    }
  }

  /** Above any played match there is one whose next match is undecided. */
  lemma {:induction false} LastPlayedAbove(order: seq<EntrantId>, R: Rounds, r: nat, s: nat)
    returns (r': nat, s': nat)
    requires Valid(order, R) && At(R, r, s) && R[r][s].IsPlayed()
    ensures At(R, r', s') && R[r'][s'].IsPlayed() && !NextIsDecided(R, r', s')
    decreases |R| - r
  {
    if NextIsDecided(R, r, s) {
      DecidedFromBelow(order, R, r + 1, s / 2);
      r', s' := LastPlayedAbove(order, R, r + 1, s / 2);
    } else {
      r', s' := r, s;
    }
  }

  /** Some result can be taken back, and reporting it again gives the bracket. */
  lemma TakeOneBack(order: seq<EntrantId>, R: Rounds) returns (R0: Rounds, op: Op)
    requires Valid(order, R) && HasResults(R)
    ensures Valid(order, R0) && SameIds(R0, R) && PlayedCount(R0) == PlayedCount(R) - 1
    ensures op.OpReport? && After(R0, op) == R
  {
    var r0, s0 :| 0 <= r0 < |R| && 0 <= s0 < |R[r0]| && R[r0][s0].IsPlayed();
    var r, s := LastPlayedAbove(order, R, r0, s0);
    R0, op := TakeBack(order, R, r, s);
  }

  lemma SameIdsTransitive(A: Rounds, B: Rounds, C: Rounds)
    requires SameIds(A, B) && SameIds(B, C)
    ensures SameIds(A, C)
  {
  }

  /** Every valid bracket with these ids is a run of first reports away from the
      generated one. */
  lemma {:induction false} ReachableByReports(order: seq<EntrantId>, ids: (nat, nat) -> MatchId, R: Rounds)
    returns (ops: seq<Op>)
    requires Valid(order, R) && |order| >= 2 && Supply(ids, |order|)
    requires SameIds(R, Blank(order, ids))
    ensures Run(Blank(order, ids), ops) == R
    ensures |ops| == PlayedCount(R) && forall op :: op in ops ==> op.OpReport?
    decreases PlayedCount(R)
  {
    NoResultsMeansGenerated(order, ids, R);
    if !HasResults(R) {
      ops := [];
      NothingPlayedAtTheStart(order, ids);
    } else {
      var R0, op := TakeOneBack(order, R);
      SameIdsTransitive(R0, R, Blank(order, ids));
      var before := ReachableByReports(order, ids, R0);
      ops := before + [op];
      assert ops[..|ops| - 1] == before;
    }
  }

  lemma TakeBack(order: seq<EntrantId>, R: Rounds, r: nat, s: nat) returns (R0: Rounds, op: Op)
    requires Valid(order, R) && At(R, r, s) && R[r][s].IsPlayed() && !NextIsDecided(R, r, s)
    ensures Valid(order, R0) && SameIds(R0, R) && PlayedCount(R0) == PlayedCount(R) - 1
    ensures op.OpReport? && After(R0, op) == R
  {
    var w := R[r][s].winner;
    assert Settled(R[r][s]);
    R0 := SetWinner(R, r, s, None);
    op := OpReport(R[r][s].id, w.value);
    WriteKeepsValid(order, R, r, s, None);
    SetWinnerAt(R, r, s, None);
    WriteChangesOpenCount(R, r, s, None);
    OpenPlusPlayed(order, R);
    OpenPlusPlayed(order, R0);
    FreshReportSucceeds(order, R0, r, s, w.value);
    WriteBack(order, R, r, s);
  }

  lemma WriteBack(order: seq<EntrantId>, R: Rounds, r: nat, s: nat)
    requires Valid(order, R) && At(R, r, s)
    ensures At(SetWinner(R, r, s, None), r, s)
    ensures SetWinner(SetWinner(R, r, s, None), r, s, R[r][s].winner) == R
  {
    var R0 := SetWinner(R, r, s, None);
    SetWinnerAt(R, r, s, None);
    assert Fed(R, r, s);
    NextExists(R, r, s);
    var R1 := SetWinner(R0, r, s, R[r][s].winner);
    SetWinnerAt(R0, r, s, R[r][s].winner);
    forall i | 0 <= i < |R| ensures R1[i] == R[i] {
      forall j | 0 <= j < |R[i]| ensures R1[i][j] == R[i][j] {
        assert At(R, i, j) && At(R0, i, j);
      }
    }
  }

  /** The valid brackets are exactly the brackets play can reach: a bracket is
      valid when and only when some run of operations leads to it from a
      generated one. */
  lemma ValidMeansReachable(order: seq<EntrantId>, R: Rounds)
    requires 2 <= |order| <= MAX_ENTRANTS && NoDup(order)
    ensures Valid(order, R) <==>
            exists ids, ops :: Supply(ids, |order|) && Run(Blank(order, ids), ops) == R
  {
    if Valid(order, R) {
      BlankOfOwnIds(order, R);
      var ops := ReachableByReports(order, IdsOf(R), R);
      assert Supply(IdsOf(R), |order|) && Run(Blank(order, IdsOf(R)), ops) == R;
    }
    if ids, ops :| Supply(ids, |order|) && Run(Blank(order, ids), ops) == R {
      BlankIsValid(order, ids);
      RunKeepsValid(order, Blank(order, ids), ops);
    }
  }
}
