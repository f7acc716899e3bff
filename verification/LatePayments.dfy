/** What a conclusion that was overtaken pays: the awards of the bracket that is
    stored when it commits if and only if no match changed since its read. */
module LatePayments {
  import opened Basics
  import opened Brackets
  import opened BracketRules
  import opened BracketRuns
  import opened Elimination
  import opened Entrants
  import opened Points
  import opened Payouts
  import opened Tables
  import opened Protocol
  import opened StoreInvariants
  import opened StoreWrites
  import opened WorldInvariant
  import opened WorldSteps
  import opened Sequential
  import opened Rules

  // ---------- round one never changes in place ----------

  /** Where a snapshot and the rows share a match of round one, they agree on who
      plays it. */
  ghost predicate SeatsAgree(R: Rounds, rows: MatchTable) {
    forall s :: At(R, 0, s) && R[0][s].id in rows ==>
      rows[R[0][s].id].a == R[0][s].a && rows[R[0][s].id].b == R[0][s].b
  }

  ghost predicate SeatsOk(w: World) {
    forall rid :: rid in w.requests ==> SeatsOfRequest(w.db.tours, w.requests[rid])
  }

  ghost predicate SeatsOfRequest(tours: map<TournamentId, Tour>, q: Request) {
    q.bracket.Some? && q.bracket.value.Some? && q.t in tours ==>
      SeatsAgree(q.bracket.value.value, tours[q.t].matches)
  }

  /** Rows of round one keep their sides, or all rows are new. */
  ghost predicate SeatsStay(owner: map<MatchId, TournamentId>, rows: MatchTable, rows': MatchTable) {
    || (forall id :: id in rows' ==> id !in owner)
    || (forall id :: id in rows' ==>
          id in rows && (rows[id].round == 1 ==> rows'[id].a == rows[id].a && rows'[id].b == rows[id].b))
  }

  lemma AgreementStays(
      owner: map<MatchId, TournamentId>, t: TournamentId, R: Rounds, rows: MatchTable, rows': MatchTable)
    requires SeatsAgree(R, rows) && SeatsStay(owner, rows, rows')
    requires SnapshotOwned(owner, t, R) && Compatible(R, rows)
    ensures SeatsAgree(R, rows')
  {
    forall s | At(R, 0, s) && R[0][s].id in rows'
      ensures rows'[R[0][s].id].a == R[0][s].a && rows'[R[0][s].id].b == R[0][s].b
    {
      assert R[0][s].id in owner;
      assert R[0][s].id in rows && rows[R[0][s].id].round == 0 + 1;
    }
  }

  /** Both brackets are of one seed order, and that order is round one. */
  lemma ResultKeepsSeats(
      owner: map<MatchId, TournamentId>, tour: Tour, tour': Tour, order: seq<EntrantId>, C: Rounds, C': Rounds)
    requires Holds(tour, order, C) && Holds(tour', order, C') && SameIds(C, C')
    ensures SeatsStay(owner, tour.matches, tour'.matches)
  {
    ResultKeepsRows(tour, tour', order, C, C');
    forall id | id in tour'.matches && tour.matches[id].round == 1
      ensures tour'.matches[id].a == tour.matches[id].a && tour'.matches[id].b == tour.matches[id].b
    {
      LocateAcrossSameIds(C, C', id);
      var (r, s) := Locate(C, id).value;
      assert tour.matches[id] == C[r][s] && tour'.matches[id] == C'[r][s];
      assert At(C, r, s) && r == 0;
      assert C[0][s].a == SeatA(order, |C[0]|, s) && C'[0][s].a == SeatA(order, |C'[0]|, s);
      assert C[0][s].b == SeatB(order, |C[0]|, s) && C'[0][s].b == SeatB(order, |C'[0]|, s);
    }
  }

  lemma ResultWriteKeepsSeats(
      owner: map<MatchId, TournamentId>, t: TournamentId, tour: Tour, expected: Status, R: Rounds, op: Op)
    requires TourOk(owner, t, tour) && Sound(owner, tour, WriteResult(expected, R, op))
    ensures SeatsStay(owner, tour.matches, UpdateMatches(tour, expected, ResultChanges(R, op)).0.matches)
  {
    var (tour', written) := UpdateMatches(tour, expected, ResultChanges(R, op));
    if written && Apply(R, op).value.changed != [] {
      var orderR :| Valid(orderR, R);
      ResultNeedsRows(tour, expected, R, op);
      var order, C :| Holds(tour, order, C);
      CommittedResultIsAtomic(tour, expected, orderR, R, op, order, C);
      ResultKeepsSeats(owner, tour, tour', order, C, After(C, op));
    } else if written {
      assert ResultChanges(R, op) == [];
      assert tour' == tour;
    }
  }

  lemma RebuildHasNewRows(
      owner: map<MatchId, TournamentId>, tour: Tour, expected: Status, order: seq<EntrantId>, ids: (nat, nat) -> MatchId)
    requires Sound(owner, tour, WriteBracket(expected, order, ids))
    ensures SeatsStay(owner, tour.matches, ReplaceBracket(tour, expected, order, Blank(order, ids)).0.matches)
  {
    if ReplaceBracket(tour, expected, order, Blank(order, ids)).1 == Done {
      RebuiltHolds(tour, expected, order, ids);
    }
  }

  lemma WriteKeepsSeats(
      owner: map<MatchId, TournamentId>, t: TournamentId, players: map<PlayerId, bool>, tour: Tour, write: Write)
    requires TourOk(owner, t, tour) && Sound(owner, tour, write)
    ensures SeatsStay(owner, tour.matches, Written(players, tour, write).matches)
  {
    match write {
      case WriteResult(expected, R, op) => ResultWriteKeepsSeats(owner, t, tour, expected, R, op);
      case WriteBracket(expected, order, ids) => RebuildHasNewRows(owner, tour, expected, order, ids);
      case _ => OtherWritesKeepRows(players, tour, write);
    }
  }

  lemma OtherWritesKeepRows(players: map<PlayerId, bool>, tour: Tour, write: Write)
    requires !write.WriteResult? && !write.WriteBracket?
    ensures var rows := Written(players, tour, write).matches; rows == tour.matches || rows == map[]
  {
  }

  lemma StepKeepsSeats(w: World, action: Action, t: TournamentId)
    requires WorldOk(w) && t in w.db.tours && t in Next(w, action).db.tours
    ensures SeatsStay(w.owner, w.db.tours[t].matches, Next(w, action).db.tours[t].matches)
  {
    StepOnTour(w, action, t);
    if CommittedOn(w, action, t).Some? {
      CommittedIsSound(w, action, t);
      WriteKeepsSeats(w.owner, t, w.db.players, w.db.tours[t], CommittedOn(w, action, t).value);
    }
  }

  /** Only a read of the matches gives a request a snapshot. */
  lemma SnapshotsComeFromReads(w: World, action: Action, rid: int)
    requires rid in Next(w, action).requests
    requires !(action.ReadMatches? && action.rid == rid)
    ensures var q := Next(w, action).requests[rid];
      q.bracket == None || (rid in w.requests && w.requests[rid].t == q.t && w.requests[rid].bracket == q.bracket)
  {
  }

  lemma FreshReadAgrees(w: World, action: Action)
    requires WorldOk(w) && SeatsOk(w) && action.ReadMatches? && action.rid in Next(w, action).requests
    ensures SeatsOfRequest(Next(w, action).db.tours, Next(w, action).requests[action.rid])
  {
    var (rid, rows) := (action.rid, action.rows);
    var q := w.requests[rid];
    assert SeatsOfRequest(w.db.tours, q);
    if ListsMatches(rows, MatchesOf(w.db, q.t)) && rows != [] && q.t in w.db.tours {
      var tour := w.db.tours[q.t];
      assert TourOk(w.owner, q.t, tour);
      assert tour.matches != map[];
      var order, C :| Holds(tour, order, C);
      ReadGivesStoredBracket(rows, tour.matches, order, C);
      StoredSeatsAgree(C, tour.matches);
    }
  }

  lemma StoredSeatsAgree(C: Rounds, rows: MatchTable)
    requires Stores(rows, C)
    ensures SeatsAgree(C, rows)
  {
  }

  lemma OldSnapshotAgrees(w: World, action: Action, rid: int)
    requires WorldOk(w) && SeatsOk(w) && rid in Next(w, action).requests
    requires !(action.ReadMatches? && action.rid == rid)
    ensures SeatsOfRequest(Next(w, action).db.tours, Next(w, action).requests[rid])
  {
    var w' := Next(w, action);
    var q := w'.requests[rid];
    SnapshotsComeFromReads(w, action, rid);
    if q.bracket.Some? && q.bracket.value.Some? && q.t in w'.db.tours {
      if q.t in w.db.tours {
        assert SeatsOfRequest(w.db.tours, w.requests[rid]);
        assert RequestOk(w.owner, w.db.tours, w.requests[rid]);
        StepKeepsSeats(w, action, q.t);
        AgreementStays(w.owner, q.t, q.bracket.value.value, w.db.tours[q.t].matches, w'.db.tours[q.t].matches);
      } else {
        NewTourIsEmpty(w, action, q.t);
      }
    }
  }

  lemma NextKeepsSeats(w: World, action: Action)
    requires WorldOk(w) && SeatsOk(w)
    ensures SeatsOk(Next(w, action))
  {
    forall rid | rid in Next(w, action).requests
      ensures SeatsOfRequest(Next(w, action).db.tours, Next(w, action).requests[rid])
    {
      if action.ReadMatches? && action.rid == rid {
        FreshReadAgrees(w, action);
      } else {
        OldSnapshotAgrees(w, action, rid);
      }
    }
  }

  lemma {:induction false} PlayKeepsSeats(actions: seq<Action>)
    ensures SeatsOk(Play(START, actions))
    decreases |actions|
  {
    if actions != [] {
      var before := actions[..|actions| - 1];
      PlayKeepsSeats(before);
      ReachableIsOk(Play(START, before));
      NextKeepsSeats(Play(START, before), actions[|actions| - 1]);
    }
  }

  /** A snapshot of the stored bracket is a bracket of the stored seed order. */
  lemma SnapshotHasTheOrder(R: Rounds, orderR: seq<EntrantId>, order: seq<EntrantId>, C: Rounds, rows: MatchTable)
    requires Valid(orderR, R) && Valid(order, C) && Stores(rows, C) && SameIds(R, C) && SeatsAgree(R, rows)
    ensures Valid(order, R)
  {
    forall s | 0 <= s < |R[0]|
      ensures R[0][s].a == SeatA(order, |R[0]|, s) && R[0][s].b == SeatB(order, |R[0]|, s)
    {
      assert At(R, 0, s) && At(C, 0, s) && C[0][s].id == R[0][s].id;
      assert rows[C[0][s].id] == C[0][s];
    }
    assert Seated(order, R);
  }

  // ---------- the awards give the results back ----------

  /** Every winner of the snapshot has an account in the list. */
  ghost predicate WinnersHaveAccounts(R: Rounds, list: seq<Entrant>) {
    forall r, s :: At(R, r, s) && R[r][s].winner.Some? ==> PlayerOf(list, R[r][s].winner.value).Some?
  }

  /** A win that both brackets pay is the same win. */
  lemma SameWin(
      t: TournamentId, list: seq<Entrant>, R: Rounds, order: seq<EntrantId>, C: Rounds, r: nat, s: nat)
    requires Valid(order, C) && DistinctField(list) && WinnersHaveAccounts(R, list)
    requires TournamentAwards(t, list, Some(R), None) == TournamentAwards(t, list, Some(C), None)
    requires At(R, r, s) && R[r][s].IsPlayed()
    ensures ResultOf(C, R[r][s].id) == R[r][s].winner
    ensures Locate(C, R[r][s].id).Some?
  {
    WinIsPaid(t, list, R, r, s);
    var a := Award(PlayerOf(list, R[r][s].winner.value).value, MATCH_WIN_CYCLES, MatchWin, R[r][s].id);
    var i, j := PaidWin(t, list, order, C, a);
    PlayerOfIsInjective(list, C[i][j].winner.value, R[r][s].winner.value);
    LocateFinds(C, i, j);
  }

  /** With a champion, every match that is not a bye is played. */
  lemma FinishedMatches(order: seq<EntrantId>, R: Rounds, r: nat, s: nat)
    requires Valid(order, R) && ChampionOf(R).Some? && At(R, r, s)
    ensures R[r][s].IsPlayed() || (r == 0 && R[r][s].b == None)
  {
    ChampionDecidesAll(order, R, r, s);
    assert Settled(R[r][s]);
    if r == 0 {
      assert R[0][s].a == SeatA(order, |R[0]|, s);
    }
  }

  lemma SameResults(
      t: TournamentId, list: seq<Entrant>, order: seq<EntrantId>, R: Rounds, C: Rounds, id: MatchId)
    requires Valid(order, R) && Valid(order, C) && SameIds(R, C) && ChampionOf(R).Some?
    requires DistinctField(list) && WinnersHaveAccounts(R, list)
    requires TournamentAwards(t, list, Some(R), None) == TournamentAwards(t, list, Some(C), None)
    ensures ResultOf(R, id) == ResultOf(C, id)
  {
    LocateAcrossSameIds(R, C, id);
    if Locate(R, id).Some? {
      var (r, s) := Locate(R, id).value;
      FinishedMatches(order, R, r, s);
      if R[r][s].IsPlayed() {
        SameWin(t, list, R, order, C, r, s);
      } else {
        assert R[0][s].b == SeatB(order, |R[0]|, s) && C[0][s].b == SeatB(order, |C[0]|, s);
      }
    }
  }

  lemma SameAwardsSameBracket(
      t: TournamentId, list: seq<Entrant>, rows: MatchTable, orderR: seq<EntrantId>, R: Rounds,
      order: seq<EntrantId>, C: Rounds)
    requires Valid(orderR, R) && ChampionOf(R).Some? && Valid(order, C) && Stores(rows, C)
    requires Compatible(R, rows) && SeatsAgree(R, rows)
    requires DistinctField(list) && WinnersHaveAccounts(R, list)
    requires TournamentAwards(t, list, Some(R), None) == TournamentAwards(t, list, Some(C), None)
    ensures R == C
  {
    var last := |R| - 1;
    FinalIsPlayed(orderR, R);
    assert At(R, last, 0);
    SameWin(t, list, R, order, C, last, 0);
    var (i, j) := Locate(C, R[last][0].id).value;
    assert At(C, i, j) && R[last][0].id in rows;
    SamePlacesMeansSameIds(R, C, rows);
    SnapshotHasTheOrder(R, orderR, order, C, rows);
    forall id ensures ResultOf(R, id) == ResultOf(C, id) {
      SameResults(t, list, order, R, C, id);
    }
    ResultsDetermineTheBracket(order, R, C);
  }

  /** In any reachable world, a conclusion decided on a snapshot whose winners all
      have accounts pays the awards of the stored bracket if and only if that
      bracket is still the one that was read. */
  lemma ConclusionPaysTheStoredBracketExactlyWhen(
      w: World, rid: int, chance: Chance, order: seq<EntrantId>, C: Rounds)
    requires Reachable(w) && rid in w.requests && Ready(w.requests[rid])
    requires Plan(w.requests[rid], chance).Ok? && Plan(w.requests[rid], chance).value.WriteStatus?
    requires Plan(w.requests[rid], chance).value.to == Concluded && w.requests[rid].bracket.value.Some?
    requires WinnersHaveAccounts(w.requests[rid].bracket.value.value, w.requests[rid].entrants.value)
    requires w.requests[rid].t in w.db.tours && Holds(w.db.tours[w.requests[rid].t], order, C)
    ensures var q := w.requests[rid];
      Plan(q, chance).value.awards == TournamentAwards(q.t, q.entrants.value, Some(C), None)
      <==> q.bracket.value.value == C
  {
    var q := w.requests[rid];
    var R, list := q.bracket.value.value, q.entrants.value;
    var actions :| Play(START, actions) == w;
    PlayKeepsSeats(actions);
    ReachableIsOk(w);
    assert RequestOk(w.owner, w.db.tours, q) && SeatsOfRequest(w.db.tours, q);
    BracketConclusion(q, chance);
    var orderR :| Valid(orderR, R);
    if TournamentAwards(q.t, list, Some(R), None) == TournamentAwards(q.t, list, Some(C), None) {
      SameAwardsSameBracket(q.t, list, w.db.tours[q.t].matches, orderR, R, order, C);
    }
  }

  lemma BracketConclusion(q: Request, chance: Chance)
    requires Ready(q) && Plan(q, chance).Ok? && Plan(q, chance).value.WriteStatus?
    requires Plan(q, chance).value.to == Concluded && q.bracket.Some? && q.bracket.value.Some?
    ensures q.entrants.Some? && ChampionOf(q.bracket.value.value).Some?
    ensures Plan(q, chance).value.awards == TournamentAwards(q.t, q.entrants.value, q.bracket.value, None)
  {
    StatusPlan(q, chance);
    ConclusionNamesTheChampion(q, chance);
  }
}
