/** The payments of a tournament in plain numbers: who is paid what for which
    reason, and the sums of it, without the tables of the rules. */
module Payouts {
  import opened Basics
  import opened Brackets
  import opened BracketRuns
  import opened Elimination
  import opened Entrants
  import opened Points

  // ---------- the prizes ----------

  /** A prize that grows with the field, from 8 and again from 16 entrants on. */
  function Prize(n: nat, small: int, medium: int, large: int): int {
    if n < 8 then small else if n < 16 then medium else large
  }

  lemma PrizesAre(n: nat)
    ensures Cycles(Champion, TierOf(n)) == Some(Prize(n, 120, 200, 300))
    ensures Cycles(Finalist, TierOf(n)) == Some(Prize(n, 70, 120, 180))
    ensures Cycles(Semifinalist, TierOf(n)) == Some(Prize(n, 40, 60, 90))
  {
  }

  // ---------- each award, and nothing else ----------

  /** The list has this entrant, with this account. */
  ghost predicate Names(list: seq<Entrant>, e: EntrantId, p: PlayerId) {
    exists i :: 0 <= i < |list| && list[i].id == e && list[i].player == Some(p)
  }

  lemma NamesThePlayer(list: seq<Entrant>, e: EntrantId, p: PlayerId)
    requires NoDup(Ids(list))
    ensures Names(list, e, p) <==> PlayerOf(list, e) == Some(p)
  {
    if Names(list, e, p) {
      var i :| 0 <= i < |list| && list[i].id == e && list[i].player == Some(p);
      PlayerOfEntry(list, i);
    }
  }

  ghost predicate PaysEntry(t: TournamentId, list: seq<Entrant>, a: Award) {
    && a.kind == TournamentEntry && a.amount == 40 && a.source == t
    && exists i :: 0 <= i < |list| && list[i].player == Some(a.player)
  }

  ghost predicate PaysWin(list: seq<Entrant>, R: Rounds, a: Award) {
    && a.kind == MatchWin && a.amount == 30
    && exists r, s :: At(R, r, s) && R[r][s].id == a.source && WonHere(list, R[r][s], a.player)
  }

  /** A match with two sides whose winner has this account. */
  ghost predicate WonHere(list: seq<Entrant>, m: Match, p: PlayerId) {
    m.a.Some? && m.b.Some? && m.winner.Some? && Names(list, m.winner.value, p)
  }

  ghost predicate PaysChampion(t: TournamentId, list: seq<Entrant>, winner: Option<EntrantId>, prize: int, a: Award) {
    && a.kind == Champion && a.amount == prize && a.source == t
    && winner.Some? && Names(list, winner.value, a.player)
  }

  ghost predicate PaysFinalist(t: TournamentId, list: seq<Entrant>, R: Rounds, prize: int, a: Award) {
    && a.kind == Finalist && a.amount == prize && a.source == t
    && |R| >= 1 && exists e :: LosesAt(R, |R| - 1, 0, e) && Names(list, e, a.player)
  }

  ghost predicate PaysSemifinalist(t: TournamentId, list: seq<Entrant>, R: Rounds, prize: int, a: Award) {
    && a.kind == Semifinalist && a.amount == prize && a.source == t
    && |R| >= 2 && exists e :: LostSemifinal(R, e) && Names(list, e, a.player)
  }

  ghost predicate LostSemifinal(R: Rounds, e: EntrantId) {
    |R| >= 2 && (LosesAt(R, |R| - 2, 0, e) || LosesAt(R, |R| - 2, 1, e))
  }

  lemma {:induction false} EntryPaid(list: seq<Entrant>, t: TournamentId, a: Award)
    ensures a in EntryAwards(list, t) <==> PaysEntry(t, list, a)
  {
    if list != [] {
      EntryPaid(list[1..], t, a);
      assert forall i :: 0 < i < |list| ==> list[i] == list[1..][i - 1];
      if PaysEntry(t, list, a) {
        var i :| 0 <= i < |list| && list[i].player == Some(a.player);
        assert i > 0 ==> list[1..][i - 1].player == Some(a.player);
      }
      if PaysEntry(t, list[1..], a) {
        var i :| 0 <= i < |list[1..]| && list[1..][i].player == Some(a.player);
        assert list[i + 1].player == Some(a.player);
      }
    }
  }

  lemma {:induction false} ClaimIsPaid(list: seq<Entrant>, claims: seq<Claim>, c: Claim)
    requires c in claims && PlayerOf(list, c.entrant).Some?
    ensures Award(PlayerOf(list, c.entrant).value, c.amount, c.kind, c.source) in Pay(list, claims)
  {
    if claims[0] != c {
      ClaimIsPaid(list, claims[1..], c);
    }
  }

  lemma {:induction false} PlayedIsClaimed(ms: seq<Match>, m: Match)
    requires m in ms && m.IsPlayed()
    ensures Claim(m.winner.value, MatchWin, MATCH_WIN_CYCLES, m.id) in WinClaims(ms)
  {
    if ms[0] != m {
      PlayedIsClaimed(ms[1..], m);
    }
  }

  /** The award of a played match whose winner has an account. */
  lemma WinIsPaid(t: TournamentId, list: seq<Entrant>, R: Rounds, r: nat, s: nat)
    requires At(R, r, s) && R[r][s].IsPlayed() && PlayerOf(list, R[r][s].winner.value).Some?
    ensures Award(PlayerOf(list, R[r][s].winner.value).value, MATCH_WIN_CYCLES, MatchWin, R[r][s].id)
            in TournamentAwards(t, list, Some(R), None)
  {
    var i := FlatIndex(R, r, s);
    PlayedIsClaimed(Flat(R), R[r][s]);
    ClaimIsPaid(list, WinClaims(Flat(R)), Claim(R[r][s].winner.value, MatchWin, MATCH_WIN_CYCLES, R[r][s].id));
  }

  /** The played match behind an award for a win. */
  lemma PaidWin(t: TournamentId, list: seq<Entrant>, order: seq<EntrantId>, C: Rounds, a: Award)
    returns (r: nat, s: nat)
    requires Valid(order, C) && DistinctField(list)
    requires a in TournamentAwards(t, list, Some(C), None) && a.kind == MatchWin
    ensures At(C, r, s) && C[r][s].IsPlayed() && C[r][s].id == a.source
    ensures PlayerOf(list, C[r][s].winner.value) == Some(a.player)
  {
    var tier := TierOf(|list|);
    EntriesDistinct(list, t);
    PlacementsDistinct(order, C, tier, t);
    forall b | b in Pay(list, PlacementClaims(C, tier, t)) ensures b.kind != MatchWin {
      var j := PaidClaim(list, PlacementClaims(C, tier, t), b);
      assert PlacementClaims(C, tier, t)[j] in PlacementClaims(C, tier, t);
    }
    var i := PaidClaim(list, WinClaims(Flat(C)), a);
    var k := WinOfAMatch(Flat(C), WinClaims(Flat(C))[i]);
    r, s := MemberOfFlat(C, k);
  }

  lemma WinPaid(t: TournamentId, list: seq<Entrant>, R: Rounds, a: Award)
    requires DistinctField(list)
    ensures a in Pay(list, WinClaims(Flat(R))) <==> PaysWin(list, R, a)
  {
    var claims := WinClaims(Flat(R));
    if a in Pay(list, claims) {
      var i := PaidClaim(list, claims, a);
      var k := WinOfAMatch(Flat(R), claims[i]);
      var r, s := MemberOfFlat(R, k);
      NamesThePlayer(list, R[r][s].winner.value, a.player);
      assert At(R, r, s) && R[r][s].id == a.source && WonHere(list, R[r][s], a.player);
    }
    if PaysWin(list, R, a) {
      var r, s :| At(R, r, s) && R[r][s].id == a.source && WonHere(list, R[r][s], a.player);
      NamesThePlayer(list, R[r][s].winner.value, a.player);
      var i := FlatIndex(R, r, s);
      PlayedIsClaimed(Flat(R), R[r][s]);
      ClaimIsPaid(list, claims, Claim(R[r][s].winner.value, MatchWin, MATCH_WIN_CYCLES, R[r][s].id));
    }
  }

  /** One placement pays one award, to an entrant with an account. */
  lemma PlacementPaid(
      list: seq<Entrant>, x: Option<EntrantId>, kind: PointKind, tier: FieldTier, t: TournamentId, a: Award)
    requires NoDup(Ids(list)) && Cycles(kind, tier).Some?
    ensures a in Pay(list, Placement(x, kind, tier, t)) <==>
            x.Some? && Names(list, x.value, a.player)
            && a.kind == kind && a.source == t && Some(a.amount) == Cycles(kind, tier)
  {
    var claims := Placement(x, kind, tier, t);
    if x.Some? {
      NamesThePlayer(list, x.value, a.player);
      assert claims[1..] == [] && Pay(list, claims[1..]) == [];
    }
  }

  lemma {:induction false} PayAppend(list: seq<Entrant>, xs: seq<Claim>, ys: seq<Claim>)
    ensures Pay(list, xs + ys) == Pay(list, xs) + Pay(list, ys)
  {
    if xs == [] {
      assert xs + ys == ys;
    } else {
      assert (xs + ys)[1..] == xs[1..] + ys;
      PayAppend(list, xs[1..], ys);
    }
  }

  lemma LoserLost(order: seq<EntrantId>, R: Rounds, r: nat, s: nat, e: EntrantId)
    requires Valid(order, R) && At(R, r, s)
    ensures LoserOf(R[r][s]) == Some(e) <==> LosesAt(R, r, s, e)
  {
    assert Settled(R[r][s]);
    if R[r][s].IsPlayed() {
      SidesDiffer(order, R, r, s);
    }
  }

  lemma FinalistPaid(
      t: TournamentId, list: seq<Entrant>, order: seq<EntrantId>, R: Rounds, tier: FieldTier, prize: int, a: Award)
    requires Valid(order, R) && NoDup(Ids(list)) && Cycles(Finalist, tier) == Some(prize)
    ensures a in Pay(list, Placement(LoserOf(R[|R| - 1][0]), Finalist, tier, t)) <==>
            PaysFinalist(t, list, R, prize, a)
  {
    var x := LoserOf(R[|R| - 1][0]);
    PlacementPaid(list, x, Finalist, tier, t, a);
    assert At(R, |R| - 1, 0);
    forall e ensures x == Some(e) <==> LosesAt(R, |R| - 1, 0, e) {
      LoserLost(order, R, |R| - 1, 0, e);
    }
  }

  lemma SemifinalistPaid(
      t: TournamentId, list: seq<Entrant>, order: seq<EntrantId>, R: Rounds, tier: FieldTier, prize: int, a: Award)
    requires Valid(order, R) && NoDup(Ids(list)) && |R| >= 2 && Cycles(Semifinalist, tier) == Some(prize)
    ensures a in Pay(list, Placement(LoserOf(R[|R| - 2][0]), Semifinalist, tier, t))
                 + Pay(list, Placement(LoserOf(R[|R| - 2][1]), Semifinalist, tier, t)) <==>
            PaysSemifinalist(t, list, R, prize, a)
  {
    var x, y := LoserOf(R[|R| - 2][0]), LoserOf(R[|R| - 2][1]);
    PlacementPaid(list, x, Semifinalist, tier, t, a);
    PlacementPaid(list, y, Semifinalist, tier, t, a);
    SemifinalIsTwo(order, R);
    forall e ensures x == Some(e) || y == Some(e) <==> LostSemifinal(R, e) {
      LoserLost(order, R, |R| - 2, 0, e);
      LoserLost(order, R, |R| - 2, 1, e);
    }
  }

  lemma PlacesPaid(
      t: TournamentId, list: seq<Entrant>, order: seq<EntrantId>, R: Rounds, tier: FieldTier,
      first: int, second: int, third: int, a: Award)
    requires Valid(order, R) && NoDup(Ids(list)) && Cycles(Champion, tier) == Some(first)
    requires Cycles(Finalist, tier) == Some(second) && Cycles(Semifinalist, tier) == Some(third)
    ensures a in Pay(list, PlacementClaims(R, tier, t)) <==>
            || PaysChampion(t, list, R[|R| - 1][0].winner, first, a)
            || PaysFinalist(t, list, R, second, a)
            || PaysSemifinalist(t, list, R, third, a)
  {
    PlacementsOf(order, R, tier, t);
    var c := Placement(ChampionOf(R), Champion, tier, t);
    var f := Placement(LoserOf(R[|R| - 1][0]), Finalist, tier, t);
    PlacementPaid(list, ChampionOf(R), Champion, tier, t, a);
    FinalistPaid(t, list, order, R, tier, second, a);
    PayAppend(list, c, f);
    if |R| >= 2 {
      var x := Placement(LoserOf(R[|R| - 2][0]), Semifinalist, tier, t);
      var y := Placement(LoserOf(R[|R| - 2][1]), Semifinalist, tier, t);
      SemifinalistPaid(t, list, order, R, tier, third, a);
      PayAppend(list, x, y);
      PayAppend(list, c + f, x + y);
    } else {
      assert c + f + [] == c + f;
    }
  }

  /** Exactly the awards of a bracket, decided or not: 40 for every entry, 30 for
      every win on the match that was won, and the prizes of the last two rounds. */
  lemma AwardsOfABracket(t: TournamentId, list: seq<Entrant>, order: seq<EntrantId>, R: Rounds, a: Award)
    requires Valid(order, R) && DistinctField(list)
    ensures a in TournamentAwards(t, list, Some(R), None) <==>
            || PaysEntry(t, list, a)
            || PaysWin(list, R, a)
            || PaysChampion(t, list, R[|R| - 1][0].winner, Prize(|list|, 120, 200, 300), a)
            || PaysFinalist(t, list, R, Prize(|list|, 70, 120, 180), a)
            || PaysSemifinalist(t, list, R, Prize(|list|, 40, 60, 90), a)
  {
    EntryPaid(list, t, a);
    WinPaid(t, list, R, a);
    var n := |list|;
    PrizesAre(n);
    PlacesPaid(t, list, order, R, TierOf(n), Prize(n, 120, 200, 300), Prize(n, 70, 120, 180), Prize(n, 40, 60, 90), a);
  }

  /** Exactly the awards without a bracket: the entries, and the first prize for
      the entrant who was named. */
  lemma AwardsWithoutABracket(t: TournamentId, list: seq<Entrant>, named: Option<EntrantId>, a: Award)
    requires DistinctField(list)
    ensures a in TournamentAwards(t, list, None, named) <==>
            PaysEntry(t, list, a) || PaysChampion(t, list, named, Prize(|list|, 120, 200, 300), a)
  {
    EntryPaid(list, t, a);
    PrizesAre(|list|);
    PlacementPaid(list, named, Champion, TierOf(|list|), t, a);
  }

  // ---------- sums ----------

  /** Without a bracket, a field with accounts is paid 40 each and the first prize. */
  lemma TotalWithoutABracket(t: TournamentId, list: seq<Entrant>, named: Option<EntrantId>)
    requires DistinctField(list) && forall i :: 0 <= i < |list| ==> list[i].player.Some?
    requires named.Some? ==> named.value in Ids(list)
    ensures Total(TournamentAwards(t, list, None, named)) ==
            40 * |list| + if named.Some? then Prize(|list|, 120, 200, 300) else 0
  {
    var places := Placement(named, Champion, TierOf(|list|), t);
    PrizesAre(|list|);
    EntriesTotal(list, t);
    TotalAppend(EntryAwards(list, t), Pay(list, places));
    if named.Some? {
      var i :| 0 <= i < |list| && Ids(list)[i] == named.value;
      PlayerOfEntry(list, i);
      assert places[1..] == [] && Pay(list, places[1..]) == [];
      assert Pay(list, places)[1..] == [];
    }
  }

  /** The account of one entrant gets 40, 30 for each match won, and the prize of
      the place: for the title, the lost final, a lost semifinal, or none. */
  lemma TakingsInNumbers(t: TournamentId, list: seq<Entrant>, order: seq<EntrantId>, R: Rounds, e: EntrantId)
    requires Valid(order, R) && EveryoneHasAnAccount(order, list) && e in order
    ensures Takings(t, list, R, e) ==
            40 + 30 * Count(Flat(R), WonBy(e)) + PlacePrize(R, |order|, e)
  {
    assert |list| == |order| by {
      assert |multiset(order)| == |order| && |multiset(Ids(list))| == |list|;
    }
    var n, tier := |order|, TierOf(|order|);
    PrizesAre(n);
    TakingsParts(t, list, order, R, e);
    PlacementsClaimed(order, R, tier, t, e);
    assert At(R, |R| - 1, 0);
    LoserLost(order, R, |R| - 1, 0, e);
    if |R| >= 2 {
      SemifinalIsTwo(order, R);
      LoserLost(order, R, |R| - 2, 0, e);
      LoserLost(order, R, |R| - 2, 1, e);
    }
    OnePlaceAtMost(order, R, e);
  }

  /** The prize of the place an entrant has reached. */
  ghost function PlacePrize(R: Rounds, n: nat, e: EntrantId): int
    requires Halving(R)
  {
    if R[|R| - 1][0].winner == Some(e) then Prize(n, 120, 200, 300)
    else if LosesAt(R, |R| - 1, 0, e) then Prize(n, 70, 120, 180)
    else if LostSemifinal(R, e) then Prize(n, 40, 60, 90)
    else 0
  }

  /** Who lost a semifinal is not in the final. */
  lemma SemifinalIsNotTheFinal(order: seq<EntrantId>, R: Rounds, s: nat, e: EntrantId)
    requires Valid(order, R) && |R| >= 2 && LosesAt(R, |R| - 2, s, e)
    ensures R[|R| - 1][0].winner != Some(e) && !LosesAt(R, |R| - 1, 0, e)
  {
    if R[|R| - 1][0].winner == Some(e) {
      WinnerSitsAbove(order, R, |R| - 1, 0, e);
      LoserIsOut(order, R, |R| - 2, s, |R| - 1, 0, e);
    }
    if LosesAt(R, |R| - 1, 0, e) {
      LoserIsOut(order, R, |R| - 2, s, |R| - 1, 0, e);
    }
  }

  /** Nobody has two places. */
  lemma OnePlaceAtMost(order: seq<EntrantId>, R: Rounds, e: EntrantId)
    requires Valid(order, R)
    ensures LostSemifinal(R, e) ==> R[|R| - 1][0].winner != Some(e) && !LosesAt(R, |R| - 1, 0, e)
    ensures |R| >= 2 && LosesAt(R, |R| - 2, 0, e) ==> !LosesAt(R, |R| - 2, 1, e)
  {
    if |R| >= 2 && LosesAt(R, |R| - 2, 0, e) {
      SemifinalIsNotTheFinal(order, R, 0, e);
      if LosesAt(R, |R| - 2, 1, e) {
        AtMostOneLoss(order, R, |R| - 2, 0, |R| - 2, 1, e);
      }
    } else if |R| >= 2 && LosesAt(R, |R| - 2, 1, e) {
      SemifinalIsNotTheFinal(order, R, 1, e);
    }
  }
}
