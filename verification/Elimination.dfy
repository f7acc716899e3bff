/** Single elimination as a theorem about every valid bracket: where an entrant
    can sit, how often they can lose, and why play never gets stuck. */
module Elimination {
  import opened Basics
  import opened Brackets
  import opened BracketRules

  ghost predicate Sits(R: Rounds, r: nat, s: nat, e: EntrantId) {
    At(R, r, s) && (R[r][s].a == Some(e) || R[r][s].b == Some(e))
  }

  ghost predicate LosesAt(R: Rounds, r: nat, s: nat, e: EntrantId) {
    Sits(R, r, s, e) && R[r][s].IsPlayed() && R[r][s].winner != Some(e)
  }

  // ---------- where an entrant can sit ----------

  /** The round-one slot of the entrant with seed number `i + 1`. */
  function SlotOf(order: seq<EntrantId>, half: nat, i: nat): (s: nat)
    requires half < |order| <= 2 * half && i < |order|
    ensures s < half
  {
    var byes := 2 * half - |order|;
    if i < byes then i else (i + byes) / 2
  }

  ghost function Home(order: seq<EntrantId>, half: nat, e: EntrantId): (s: nat)
    requires half < |order| <= 2 * half && e in order
    ensures s < half
  {
    var i :| 0 <= i < |order| && order[i] == e;
    SlotOf(order, half, i)
  }

  /** The slot of round `r` that the round-one slot `k` leads to. */
  function Ancestor(k: nat, r: nat): nat {
    if r == 0 then k else Ancestor(k, r - 1) / 2
  }

  lemma HomeIsUnique(order: seq<EntrantId>, half: nat, i: nat)
    requires half < |order| <= 2 * half && i < |order| && NoDup(order)
    ensures Home(order, half, order[i]) == SlotOf(order, half, i)
  {
    var j :| 0 <= j < |order| && order[j] == order[i] && Home(order, half, order[i]) == SlotOf(order, half, j);
    assert i == j;
  }

  lemma SitsAtHome(order: seq<EntrantId>, R: Rounds, s: nat, e: EntrantId)
    requires Valid(order, R) && Sits(R, 0, s, e)
    ensures e in order && Home(order, |R[0]|, e) == s
  {
    var byes := 2 * |R[0]| - |order|;
    var i := if s < byes then s
             else if R[0][s].a == Some(e) then 2 * s - byes else 2 * s - byes + 1;
    assert order[i] == e;
    HomeIsUnique(order, |R[0]|, i);
  }

  lemma HomeIsSeated(order: seq<EntrantId>, R: Rounds, e: EntrantId)
    requires Valid(order, R) && e in order
    ensures Sits(R, 0, Home(order, |R[0]|, e), e)
  {
    var i :| 0 <= i < |order| && order[i] == e;
    HomeIsUnique(order, |R[0]|, i);
  }

  /** Whoever sits in a later match won the match below it. */
  lemma SitterWonBelow(order: seq<EntrantId>, R: Rounds, r: nat, s: nat, e: EntrantId) returns (s': nat)
    requires Valid(order, R) && Sits(R, r, s, e) && r > 0
    ensures s' / 2 == s && Sits(R, r - 1, s', e) && R[r - 1][s'].winner == Some(e)
  {
    SidesAreFeederWinners(order, R, r, s);
    s' := if R[r][s].a == Some(e) then 2 * s else 2 * s + 1;
    assert Settled(R[r - 1][s']);
  }

  /** Whoever sits in round r, slot s started in a round-one slot below it. */
  lemma {:induction false} SitsUnderHome(order: seq<EntrantId>, R: Rounds, r: nat, s: nat, e: EntrantId)
    requires Valid(order, R) && Sits(R, r, s, e)
    ensures e in order && s == Ancestor(Home(order, |R[0]|, e), r)
  {
    if r == 0 {
      SitsAtHome(order, R, s, e);
    } else {
      var s' := SitterWonBelow(order, R, r, s, e);
      SitsUnderHome(order, R, r - 1, s', e);
    }
  }

  /** "Below" in plain arithmetic: the 2^r round-one slots from s * 2^r on. */
  lemma {:induction false} AncestorBlock(k: nat, r: nat)
    ensures Ancestor(k, r) * Pow2(r) <= k < (Ancestor(k, r) + 1) * Pow2(r)
  {
    if r > 0 {
      AncestorBlock(k, r - 1);
      DoubleBlock(k, Pow2(r - 1), Ancestor(k, r - 1));
    }
  }

  lemma DoubleBlock(k: nat, p: nat, q: nat)
    requires q * p <= k < (q + 1) * p
    ensures q / 2 * (2 * p) <= k < (q / 2 + 1) * (2 * p)
  {
    var s := q / 2;
    if q == 2 * s {
      assert q * p == s * (2 * p);
    } else {
      assert q == 2 * s + 1;
      assert (q + 1) * p == (s + 1) * (2 * p);
    }
  }

  /** The 2^r round-one slots below round r, slot s are the only place the two
      sides of that match can have started. */
  lemma EntrantsStayInTheirBlock(order: seq<EntrantId>, R: Rounds, r: nat, s: nat, e: EntrantId)
    requires Valid(order, R) && Sits(R, r, s, e)
    ensures e in order
    ensures s * Pow2(r) <= Home(order, |R[0]|, e) < (s + 1) * Pow2(r)
  {
    SitsUnderHome(order, R, r, s, e);
    AncestorBlock(Home(order, |R[0]|, e), r);
  }

  lemma OneMatchPerRound(order: seq<EntrantId>, R: Rounds, r: nat, s: nat, s': nat, e: EntrantId)
    requires Valid(order, R) && Sits(R, r, s, e) && Sits(R, r, s', e)
    ensures s == s'
  {
    SitsUnderHome(order, R, r, s, e);
    SitsUnderHome(order, R, r, s', e);
  }

  lemma SidesDiffer(order: seq<EntrantId>, R: Rounds, r: nat, s: nat)
    requires Valid(order, R) && At(R, r, s) && R[r][s].IsReady()
    ensures R[r][s].a != R[r][s].b
  {
    if r == 0 {
      assert R[0][s].a == SeatA(order, |R[0]|, s) && R[0][s].b == SeatB(order, |R[0]|, s);
    } else {
      SidesAreFeederWinners(order, R, r, s);
      if R[r][s].a == R[r][s].b {
        var e := R[r][s].a.value;
        assert Settled(R[r - 1][2 * s]) && Settled(R[r - 1][2 * s + 1]);
        OneMatchPerRound(order, R, r - 1, 2 * s, 2 * s + 1, e);
      }
    }
  }

  // ---------- how often an entrant can lose ----------

  /** Whoever sits in a round won in every earlier one. */
  lemma {:induction false} WonEveryEarlierRound(
      order: seq<EntrantId>, R: Rounds, r: nat, s: nat, e: EntrantId, r0: nat)
    requires Valid(order, R) && Sits(R, r, s, e) && r0 < r
    ensures e in order
    ensures At(R, r0, Ancestor(Home(order, |R[0]|, e), r0))
    ensures R[r0][Ancestor(Home(order, |R[0]|, e), r0)].winner == Some(e)
  {
    var s' := SitterWonBelow(order, R, r, s, e);
    if r0 == r - 1 {
      SitsUnderHome(order, R, r0, s', e);
    } else {
      WonEveryEarlierRound(order, R, r - 1, s', e, r0);
    }
  }

  lemma LoserIsOut(order: seq<EntrantId>, R: Rounds, r: nat, s: nat, r': nat, s': nat, e: EntrantId)
    requires Valid(order, R) && LosesAt(R, r, s, e) && Sits(R, r', s', e)
    ensures r' <= r
  {
    if r < r' {
      WonEveryEarlierRound(order, R, r', s', e, r);
      SitsUnderHome(order, R, r, s, e);
    }
  }

  /** Nobody loses two matches. */
  lemma AtMostOneLoss(order: seq<EntrantId>, R: Rounds, r: nat, s: nat, r': nat, s': nat, e: EntrantId)
    requires Valid(order, R) && LosesAt(R, r, s, e) && LosesAt(R, r', s', e)
    ensures r == r' && s == s'
  {
    LoserIsOut(order, R, r, s, r', s', e);
    LoserIsOut(order, R, r', s', r, s, e);
    OneMatchPerRound(order, R, r, s, s', e);
  }

  /** No match is decided while a match below it is undecided. */
  lemma DecidedFromBelow(order: seq<EntrantId>, R: Rounds, r: nat, s: nat)
    requires Valid(order, R) && At(R, r, s) && r > 0 && R[r][s].winner.Some?
    ensures R[r - 1][2 * s].winner.Some? && R[r - 1][2 * s + 1].winner.Some?
    ensures R[r][s].IsPlayed()
  {
    SidesAreFeederWinners(order, R, r, s);
    assert Settled(R[r][s]);
  }

  /** Once there is a champion, every match is decided. */
  lemma {:induction false} ChampionDecidesAll(order: seq<EntrantId>, R: Rounds, r: nat, s: nat)
    requires Valid(order, R) && ChampionOf(R).Some? && At(R, r, s)
    ensures R[r][s].winner.Some?
    decreases |R| - r
  {
    if r < |R| - 1 {
      NextExists(R, r, s);
      ChampionDecidesAll(order, R, r + 1, s / 2);
      DecidedFromBelow(order, R, r + 1, s / 2);
      assert s == 2 * (s / 2) || s == 2 * (s / 2) + 1;
    }
  }

  /** A winner moves up. */
  lemma WinnerSitsAbove(order: seq<EntrantId>, R: Rounds, r: nat, s: nat, e: EntrantId)
    requires Valid(order, R) && At(R, r, s) && R[r][s].winner == Some(e)
    ensures Sits(R, r, s, e)
    ensures r + 1 < |R| ==> Sits(R, r + 1, s / 2, e)
  {
    assert Settled(R[r][s]);
    NextExists(R, r, s);
    assert Fed(R, r, s);
  }

  /** From any match an entrant sits in, their one loss is found going up. */
  lemma {:induction false} FindLoss(
      order: seq<EntrantId>, R: Rounds, r: nat, s: nat, e: EntrantId) returns (r': nat, s': nat)
    requires Valid(order, R) && ChampionOf(R).Some? && ChampionOf(R) != Some(e) && Sits(R, r, s, e)
    ensures LosesAt(R, r', s', e)
    decreases |R| - r
  {
    ChampionDecidesAll(order, R, r, s);
    assert Settled(R[r][s]);
    if R[r][s].winner == Some(e) {
      WinnerSitsAbove(order, R, r, s, e);
      r', s' := FindLoss(order, R, r + 1, s / 2, e);
    } else {
      r', s' := r, s;
    }
  }

  /** With a champion, every other entrant has lost exactly one match and the
      champion none. */
  lemma EveryoneElseLostOnce(order: seq<EntrantId>, R: Rounds, e: EntrantId)
    requires Valid(order, R) && ChampionOf(R).Some? && e in order
    ensures ChampionOf(R) == Some(e) ==> forall r: nat, s: nat :: !LosesAt(R, r, s, e)
    ensures ChampionOf(R) != Some(e) ==> exists r: nat, s: nat ::
              LosesAt(R, r, s, e)
              && forall r': nat, s': nat :: LosesAt(R, r', s', e) ==> r' == r && s' == s
  {
    if ChampionOf(R) == Some(e) {
      var last := |R| - 1;
      WinnerSitsAbove(order, R, last, 0, e);
      forall r: nat, s: nat ensures !LosesAt(R, r, s, e) {
        if LosesAt(R, r, s, e) {
          LoserIsOut(order, R, r, s, last, 0, e);
          OneMatchPerRound(order, R, last, 0, s, e);
        }
      }
    } else {
      HomeIsSeated(order, R, e);
      var r, s := FindLoss(order, R, 0, Home(order, |R[0]|, e), e);
      forall r': nat, s': nat | LosesAt(R, r', s', e) ensures r' == r && s' == s {
        AtMostOneLoss(order, R, r, s, r', s', e);
      }
    }
  }

  // ---------- play never gets stuck ----------

  lemma {:induction false} OpenMatchBelow(order: seq<EntrantId>, R: Rounds, r: nat, s: nat) returns (r': nat, s': nat)
    requires Valid(order, R) && At(R, r, s) && R[r][s].winner.None?
    ensures At(R, r', s') && R[r'][s'].IsReady() && R[r'][s'].winner.None?
    decreases r
  {
    if r == 0 || R[r][s].IsReady() {
      r', s' := r, s;
      if r == 0 {
        assert R[0][s].a == SeatA(order, |R[0]|, s) && Settled(R[0][s]);
      }
    } else {
      SidesAreFeederWinners(order, R, r, s);
      var below := if R[r][s].a.None? then 2 * s else 2 * s + 1;
      r', s' := OpenMatchBelow(order, R, r - 1, below);
    }
  }

  /** A ready match without a winner takes a result for either side: the guard
      on the next match can only stop a change, never a first result. */
  lemma FreshReportSucceeds(order: seq<EntrantId>, R: Rounds, r: nat, s: nat, winner: EntrantId)
    requires Valid(order, R) && At(R, r, s) && R[r][s].winner.None?
    requires R[r][s].IsReady() && Sits(R, r, s, winner)
    ensures Reported(R, R[r][s].id, winner) ==
            Ok(Edit(SetWinner(R, r, s, Some(winner)),
                    ChangedMatches(SetWinner(R, r, s, Some(winner)), r, s)))
  {
    LocateFinds(R, r, s);
    if NextIsDecided(R, r, s) {
      assert s == 2 * (s / 2) || s == 2 * (s / 2) + 1;
      DecidedFromBelow(order, R, r + 1, s / 2);
    }
  }

  /** Progress: without a champion some match is ready and open, and a result
      for either of its sides is accepted. */
  lemma PlayNeverSticks(order: seq<EntrantId>, R: Rounds) returns (r: nat, s: nat)
    requires Valid(order, R) && ChampionOf(R).None?
    ensures At(R, r, s) && R[r][s].IsReady() && R[r][s].winner.None?
    ensures forall w :: Sits(R, r, s, w) ==> Reported(R, R[r][s].id, w).Ok?
  {
    r, s := OpenMatchBelow(order, R, |R| - 1, 0);
    forall w | Sits(R, r, s, w) ensures Reported(R, R[r][s].id, w).Ok? {
      FreshReportSucceeds(order, R, r, s, w);
    }
  }
}
