/** Where interleaving does break a rule. A status move checks the status again
    when it writes, but not the bracket it was decided on, so a result or a
    rebuild that commits in between goes unnoticed. A rebuild checks that each
    entrant it names is still there, but not that no one came in. */
module Overtaking {
  import opened Basics
  import opened Brackets
  import opened BracketRules
  import opened BracketRuns
  import opened Elimination
  import opened Entrants
  import opened Points
  import opened Tables
  import opened Protocol
  import opened StoreInvariants
  import opened StoreWrites
  import opened WorldInvariant
  import opened WorldSteps
  import opened Guarantees
  import opened Rules
  import opened RequestRuns

  // ---------- a conclusion goes through ----------

  /** The accounts the list names exist. */
  ghost predicate NamesAccounts(list: seq<Entrant>, players: map<PlayerId, bool>) {
    forall e :: e in list && e.player.Some? ==> e.player.value in players
  }

  lemma ListNamesAccounts(list: seq<Entrant>, players: map<PlayerId, bool>, tour: Tour)
    requires ListsEntrants(list, tour.entrants) && AccountsExist(players, tour)
    ensures NamesAccounts(list, players)
  {
    forall e | e in list && e.player.Some? ensures e.player.value in players {
      var i :| 0 <= i < |list| && list[i] == e;
      assert e.id in tour.entrants;
    }
  }

  lemma AwardsNameAccountsOfTheList(t: TournamentId, list: seq<Entrant>, R: Option<Rounds>, named: Option<EntrantId>, a: Award)
    requires DistinctField(list) && a in TournamentAwards(t, list, R, named)
    ensures exists i :: 0 <= i < |list| && list[i].player == Some(a.player)
  {
    EntriesDistinct(list, t);
    var tier := TierOf(|list|);
    var claims := if R.Some? then WinClaims(Flat(R.value)) else Placement(named, Champion, tier, t);
    var places := if R.Some? then PlacementClaims(R.value, tier, t) else [];
    if a in Pay(list, claims) {
      var i := PaidClaim(list, claims, a);
    } else if a in Pay(list, places) {
      var i := PaidClaim(list, places, a);
    }
  }

  lemma {:induction false} InsertsGoThrough(
      players: map<PlayerId, bool>, ledger: set<Entry>, awards: seq<Award>,
      tournament: Option<TournamentId>, event: Option<EventId>)
    requires DistinctKeys(awards)
    requires forall a :: a in awards ==> !KeyTaken(ledger, a.Key()) && a.player in players
    ensures InsertAwards(players, ledger, awards, tournament, event).Ok?
    decreases |awards|
  {
    if awards != [] {
      var x := ToEntry(awards[0], tournament, event);
      assert x.Key() == awards[0].Key() && awards[0] in awards;
      forall a | a in awards[1..] ensures !KeyTaken(ledger + {x}, a.Key()) && a.player in players {
        assert a in awards;
      }
      InsertsGoThrough(players, ledger + {x}, awards[1..], tournament, event);
    }
  }

  /** A conclusion decided on any snapshot commits as long as the status is still
      the one read, its winner is still an entrant and no account has gone. */
  lemma StaleConclusionCommits(
      w: World, t: TournamentId, from: Status, list: seq<Entrant>, R: Option<Rounds>, named: Option<EntrantId>,
      winner: Option<EntrantId>)
    requires WorldOk(w) && t in w.db.tours && w.db.tours[t].status == from != Concluded
    requires DistinctField(list) && NamesAccounts(list, w.db.players)
    requires R.Some? ==> SnapshotOwned(w.owner, t, R.value) && exists order :: Valid(order, R.value)
    requires winner.Some? ==> winner.value in w.db.tours[t].entrants
    ensures var awards := TournamentAwards(t, list, R, named);
      var (db', written) := SetStatus(w.db, t, from, Concluded, winner, awards);
      && written == Ok(true)
      && db' == w.db.(tours := w.db.tours[t := w.db.tours[t].(status := Concluded, winner := winner)],
                      ledger := w.db.ledger + EntriesOf(awards, Some(t), None))
  {
    var awards := TournamentAwards(t, list, R, named);
    if R.Some? {
      var order :| Valid(order, R.value);
      BracketAwardsAreSound(w.owner, t, list, order, R.value);
      assert awards == TournamentAwards(t, list, R, None);
    } else {
      NamedAwardsAreSound(w.owner, t, list, named);
    }
    NothingPaidBeforeTheEnd(w, t, awards);
    forall a | a in awards ensures a.player in w.db.players {
      AwardsNameAccountsOfTheList(t, list, R, named, a);
      var i :| 0 <= i < |list| && list[i].player == Some(a.player);
      assert list[i] in list;
    }
    InsertsGoThrough(w.db.players, w.db.ledger, awards, Some(t), None);
    assert UniqueKeys(w.db.ledger);
    InsertAwardsAdds(w.db.players, w.db.ledger, awards, Some(t), None);
  }

  lemma PlannedConclusion(
      w: World, t: TournamentId, view: View, list: seq<Entrant>, R: Option<Rounds>, named: Option<EntrantId>, chance: Chance)
    requires view.status != Concluded
    requires R.Some? ==> named.None? && ChampionOf(R.value).Some?
    requires named.Some? ==> named.value in Ids(list)
    ensures var q := Request(t, ChangeStatus(Concluded, named), Some(view), Some(list), Some(R));
      && Ready(q) && FairChance(w, q, chance)
      && Plan(q, chance) == Ok(WriteStatus(view.status, Concluded, if R.Some? then ChampionOf(R.value) else named,
                                           TournamentAwards(t, list, R, named)))
  {
  }

  /** The commit of a loaded conclusion is its status move. */
  lemma ConclusionCommit(
      w: World, rid: int, t: TournamentId, view: View, list: seq<Entrant>, R: Option<Rounds>, named: Option<EntrantId>,
      chance: Chance)
    requires rid in w.requests && view.status != Concluded
    requires w.requests[rid] == Request(t, ChangeStatus(Concluded, named), Some(view), Some(list), Some(R))
    requires R.Some? ==> named.None? && ChampionOf(R.value).Some?
    requires named.Some? ==> named.value in Ids(list)
    ensures Next(w, Commit(rid, chance)).db ==
            SetStatus(w.db, t, view.status, Concluded, if R.Some? then ChampionOf(R.value) else named,
                      TournamentAwards(t, list, R, named)).0
  {
    PlannedConclusion(w, t, view, list, R, named, chance);
    NextIsCommit(w, rid, chance);
    CommitWrites(w, rid, chance);
  }

  lemma StoredSnapshotIsOwned(owner: map<MatchId, TournamentId>, t: TournamentId, tour: Tour, order: seq<EntrantId>, R: Rounds)
    requires TourOk(owner, t, tour) && Holds(tour, order, R)
    ensures SnapshotOwned(owner, t, R)
  {
  }

  lemma ChampionIsAnEntrant(tour: Tour, order: seq<EntrantId>, R: Rounds)
    requires Holds(tour, order, R) && ChampionOf(R).Some?
    ensures ChampionOf(R).value in tour.entrants
  {
    WinnerSitsAbove(order, R, |R| - 1, 0, ChampionOf(R).value);
    SitsUnderHome(order, R, |R| - 1, 0, ChampionOf(R).value);
  }

  // ---------- overtaken by a correction ----------

  /** Clearing the final of a finished stored bracket commits, and leaves a
      valid bracket without a champion. */
  lemma ClearTheFinal(tour: Tour, order: seq<EntrantId>, R: Rounds) returns (f: MatchId)
    requires Holds(tour, order, R) && ChampionOf(R).Some? && tour.status == Live
    ensures Apply(R, OpClear(f)).Ok?
    ensures UpdateMatches(tour, Live, ResultChanges(R, OpClear(f))).1
    ensures Holds(UpdateMatches(tour, Live, ResultChanges(R, OpClear(f))).0, order, After(R, OpClear(f)))
    ensures UpdateMatches(tour, Live, ResultChanges(R, OpClear(f))).0.entrants == tour.entrants
    ensures UpdateMatches(tour, Live, ResultChanges(R, OpClear(f))).0.status == Live
    ensures ChampionOf(After(R, OpClear(f))).None?
  {
    var last := |R| - 1;
    var m := R[last][0];
    f := m.id;
    assert At(R, last, 0);
    LocateFinds(R, last, 0);
    FinalIsPlayed(order, R);
    var R' := SetWinner(R, last, 0, None);
    SetWinnerAt(R, last, 0, None);
    assert Apply(R, OpClear(f)) == Ok(Edit(R', ChangedMatches(R', last, 0)));
    assert ChangedMatches(R', last, 0)[0] == R'[last][0];
    ResultPairs(R, OpClear(f));
    assert ResultChanges(R, OpClear(f)) == [(m, R'[last][0])];
    ApplyOne(tour.matches, m, R'[last][0]);
    StoredIsCompatible(R, tour.matches);
    CommittedResultIsAtomic(tour, Live, order, R, OpClear(f), order, R);
  }

  /** The second request clears the final and is done. */
  lemma LoadAndClear(w: World, rid: int, t: TournamentId, rows: seq<Match>, order: seq<EntrantId>, R: Rounds, chance: Chance)
    returns (actions: seq<Action>, tour': Tour)
    requires t in w.db.tours && rid !in w.requests && Holds(w.db.tours[t], order, R)
    requires w.db.tours[t].status == Live && ChampionOf(R).Some? && ListsMatches(rows, w.db.tours[t].matches)
    ensures Play(w, actions) == w.(db := w.db.(tours := w.db.tours[t := tour']))
    ensures tour'.status == Live && tour'.entrants == w.db.tours[t].entrants
    ensures exists C :: Holds(tour', order, C) && ChampionOf(C).None?
  {
    var tour := w.db.tours[t];
    var f := ClearTheFinal(tour, order, R);
    var op := OpClear(f);
    tour' := UpdateMatches(tour, Live, ResultChanges(R, op)).0;
    assert Holds(tour', order, After(R, op)) && ChampionOf(After(R, op)).None?;
    var load := LoadCorrection(w, rid, t, rows, order, R, op);
    var w1 := Play(w, load);
    OneMoreStep(w, load, Commit(rid, chance));
    actions := load + [Commit(rid, chance)];
    CorrectionCommit(w1, rid, chance, t, R, op, tour);
    assert w1.requests - {rid} == w.requests;
  }

  /** Whenever a live tournament has a finished bracket, the following run exists:
      one request decides to conclude it, a second one clears the final, and then
      the first one commits. The tournament is concluded for good with a winner,
      over a stored bracket that has no champion. */
  lemma ConclusionOvertakenByACorrection(
      w: World, t: TournamentId, order: seq<EntrantId>, R: Rounds, list: seq<Entrant>, rows: seq<Match>,
      first: int, second: int, chance: Chance)
    returns (actions: seq<Action>)
    requires Reachable(w) && t in w.db.tours && w.db.tours[t].status == Live
    requires Holds(w.db.tours[t], order, R) && ChampionOf(R).Some?
    requires ListsEntrants(list, w.db.tours[t].entrants) && ListsMatches(rows, w.db.tours[t].matches)
    requires first != second && first !in w.requests && second !in w.requests
    ensures var db' := Play(w, actions).db;
      && t in db'.tours && db'.tours[t].status == Concluded
      && db'.tours[t].winner == ChampionOf(R)
      && !FinalNamesWinner(db'.tours[t])
  {
    ReachableIsOk(w);
    var tour := w.db.tours[t];
    assert TourOk(w.owner, t, tour);
    var load := LoadWithBracket(w, first, t, ChangeStatus(Concluded, None), list, rows, order, R);
    var w1 := Play(w, load);
    var clear, tour' := LoadAndClear(w1, second, t, rows, order, R, chance);
    PlayAppend(w, load, clear);
    var w2 := Play(w, load + clear);
    PlayKeepsWorld(w, load + clear);
    OneMoreStep(w, load + clear, Commit(first, chance));
    actions := load + clear + [Commit(first, chance)];
    ReadGivesEveryEntrant(list, tour.entrants);
    EntriesNameAccounts(w, t);
    ListNamesAccounts(list, w.db.players, tour);
    StoredSnapshotIsOwned(w.owner, t, tour, order, R);
    ChampionIsAnEntrant(tour, order, R);
    StaleConclusionCommits(w2, t, Live, list, Some(R), None, ChampionOf(R));
    ConclusionCommit(w2, first, t, ViewOf(tour), list, Some(R), None, chance);
    NoChampionNamesNobody(tour', order, ChampionOf(R));
  }

  /** Over a stored bracket without a champion, no winner is right. */
  lemma NoChampionNamesNobody(tour: Tour, order: seq<EntrantId>, winner: Option<EntrantId>)
    requires exists C :: Holds(tour, order, C) && ChampionOf(C).None?
    ensures !FinalNamesWinner(tour.(status := Concluded, winner := winner))
  {
    var C :| Holds(tour, order, C) && ChampionOf(C).None?;
    BlankRowsNotEmpty(order, C, tour.matches);
    ConclusionIsRightExactlyWhen(tour, winner);
    LastRowNamesTheChampion(order, C, tour.matches, winner);
  }

  // ---------- overtaken by a draw ----------

  /** A draw from its first read to its commit, with nothing in between. */
  lemma LoadAndDraw(w: World, rid: int, t: TournamentId, list: seq<Entrant>, chance: Chance)
    returns (actions: seq<Action>, order: seq<EntrantId>, tour': Tour)
    requires t in w.db.tours && rid !in w.requests
    requires w.db.tours[t].status == Live && w.db.tours[t].matches == map[]
    requires OnePerPlayer(w.db.tours[t].entrants) && |w.db.tours[t].entrants| <= MAX_ENTRANTS
    requires ListsEntrants(list, w.db.tours[t].entrants) && DrawChance(w.issued, list, chance)
    ensures 2 <= |order| <= MAX_ENTRANTS && NoDup(order) && Supply(chance.ids, |order|)
    ensures Elements(order) == w.db.tours[t].entrants.Keys
    ensures tour'.matches != map[] && Holds(tour', order, Blank(order, chance.ids))
    ensures tour' == w.db.tours[t].(matches := tour'.matches, entrants := WithSeeds(w.db.tours[t].entrants, order))
    ensures Play(w, actions).db == w.db.(tours := w.db.tours[t := tour'])
    ensures Play(w, actions).requests == w.requests
  {
    var tour := w.db.tours[t];
    var load := LoadWithoutBracket(w, rid, t, GenerateBracket, list);
    var w1 := Play(w, load);
    assert w1.db == w.db && w1.issued == w.issued && w1.requests - {rid} == w.requests;
    order := DrawStep(w1, rid, t, ViewOf(tour), list, tour.entrants, chance);
    var w2 := Next(w1, Commit(rid, chance));
    tour' := w2.db.tours[t];
    OneMoreStep(w, load, Commit(rid, chance));
    actions := load + [Commit(rid, chance)];
    assert Play(w, actions) == w2;
  }

  lemma BlankHasNoChampion(order: seq<EntrantId>, ids: (nat, nat) -> MatchId)
    requires 2 <= |order| <= MAX_ENTRANTS && NoDup(order) && Supply(ids, |order|)
    ensures ChampionOf(Blank(order, ids)).None?
  {
    BlankIsValid(order, ids);
    NothingPlayedAtTheStart(order, ids);
    OpenPlusPlayed(order, Blank(order, ids));
    ChampionMeansNoneOpen(order, Blank(order, ids));
  }

  /** Whenever a live tournament has no bracket yet, the following run exists:
      one request decides to conclude it, with a named winner or without one, a
      second one draws the bracket, and then the first one commits. The tournament
      is concluded for good over a bracket in which nothing was played. */
  lemma ConclusionOvertakenByADraw(
      w: World, t: TournamentId, list: seq<Entrant>, named: Option<EntrantId>, first: int, second: int, chance: Chance)
    returns (actions: seq<Action>)
    requires Reachable(w) && t in w.db.tours && w.db.tours[t].status == Live && w.db.tours[t].matches == map[]
    requires first != second && first !in w.requests && second !in w.requests
    requires ListsEntrants(list, w.db.tours[t].entrants) && DrawChance(w.issued, list, chance)
    requires named.Some? ==> named.value in w.db.tours[t].entrants
    ensures var db' := Play(w, actions).db;
      && t in db'.tours && db'.tours[t].status == Concluded && db'.tours[t].winner == named
      && !FinalNamesWinner(db'.tours[t])
  {
    ReachableIsOk(w);
    var tour := w.db.tours[t];
    assert TourOk(w.owner, t, tour);
    var load := LoadWithoutBracket(w, first, t, ChangeStatus(Concluded, named), list);
    var w1 := Play(w, load);
    var draw, order, tour' := LoadAndDraw(w1, second, t, list, chance);
    PlayAppend(w, load, draw);
    PlayKeepsWorld(w, load + draw);
    var w2 := Play(w, load + draw);
    OneMoreStep(w, load + draw, Commit(first, chance));
    actions := load + draw + [Commit(first, chance)];
    ReadGivesEveryEntrant(list, tour.entrants);
    EntriesNameAccounts(w, t);
    ListNamesAccounts(list, w.db.players, tour);
    assert named.Some? ==> named.value in Elements(Ids(list));
    StaleConclusionCommits(w2, t, Live, list, None, named, named);
    ConclusionCommit(w2, first, t, ViewOf(tour), list, None, named, chance);
    BlankHasNoChampion(order, chance.ids);
    NoChampionNamesNobody(tour', order, named);
  }

  /** The commit of a reopening that saw no bracket, when there is one by now. */
  lemma LateReopeningStep(w: World, rid: int, t: TournamentId, view: View, chance: Chance)
    requires t in w.db.tours && w.db.tours[t].status == Live && w.db.tours[t].matches != map[]
    requires view.status == Live && !view.hasBracket
    requires rid in w.requests && w.requests[rid] == Request(t, ChangeStatus(Open, None), Some(view), None, None)
    ensures var db' := Next(w, Commit(rid, chance)).db;
      t in db'.tours && db'.tours[t].status == Open && !BracketOnlyOnceLive(db'.tours[t])
  {
    MoveStep(w, rid, t, view, Open, chance);
  }

  /** Whenever a live tournament has no bracket yet, the following run exists:
      one request decides to open registration again because it saw no bracket, a
      second one draws the bracket, and then the first one commits. The tournament
      is open with a bracket. */
  lemma ReopeningOvertakenByADraw(
      w: World, t: TournamentId, list: seq<Entrant>, first: int, second: int, chance: Chance)
    returns (actions: seq<Action>)
    requires Reachable(w) && t in w.db.tours && w.db.tours[t].status == Live && w.db.tours[t].matches == map[]
    requires first != second && first !in w.requests && second !in w.requests
    requires ListsEntrants(list, w.db.tours[t].entrants) && DrawChance(w.issued, list, chance)
    ensures var db' := Play(w, actions).db;
      t in db'.tours && db'.tours[t].status == Open && !BracketOnlyOnceLive(db'.tours[t])
  {
    FieldIsBounded(w, t);
    var tour := w.db.tours[t];
    BeginThenReadTour(w, first, t, ChangeStatus(Open, None));
    var load := [Begin(first, t, ChangeStatus(Open, None)), ReadTour(first)];
    var w1 := Play(w, load);
    var draw, order, tour' := LoadAndDraw(w1, second, t, list, chance);
    PlayAppend(w, load, draw);
    LateReopeningStep(Play(w1, draw), first, t, ViewOf(tour), chance);
    OneMoreStep(w, load + draw, Commit(first, chance));
    actions := load + draw + [Commit(first, chance)];
  }

  // ---------- a draw overtaken by an entry ----------

  /** An entry from its first read to its commit, with nothing in between. */
  lemma LoadAndEnter(w: World, rid: int, t: TournamentId, player: PlayerId, level: Option<int>, chance: Chance)
    returns (actions: seq<Action>)
    requires t in w.db.tours && w.db.tours[t].status == Live && w.db.tours[t].matches == map[]
    requires |w.db.tours[t].entrants| < MAX_ENTRANTS && !HasEntry(w.db.tours[t], player) && player in w.db.players
    requires rid !in w.requests && chance.id !in w.issued
    ensures var tour := w.db.tours[t];
      Play(w, actions) ==
      w.(db := w.db.(tours := w.db.tours[t := tour.(
                       entrants := tour.entrants[chance.id := EntrantRow(Some(player), None, level)])]),
         issued := w.issued + {chance.id})
  {
    var tour := w.db.tours[t];
    var intent := EnrolPlayer(player, level);
    BeginThenReadTour(w, rid, t, intent);
    var load := [Begin(rid, t, intent), ReadTour(rid)];
    var w1 := Play(w, load);
    EntryStep(w1, rid, t, ViewOf(tour), player, level, chance);
    OneMoreStep(w, load, Commit(rid, chance));
    actions := load + [Commit(rid, chance)];
    assert w1.requests - {rid} == w.requests;
  }

  /** Whenever a live tournament without a bracket has a place left, the following
      run exists: one request decides to draw the bracket, a second one enters one
      more player, and then the first one commits. The new entrant has no place in
      the bracket that now freezes the field. */
  lemma DrawOvertakenByAnEntry(
      w: World, t: TournamentId, list: seq<Entrant>, first: int, second: int, player: PlayerId, level: Option<int>,
      entry: Chance, draw: Chance)
    returns (actions: seq<Action>)
    requires Reachable(w) && t in w.db.tours && w.db.tours[t].status == Live && w.db.tours[t].matches == map[]
    requires |w.db.tours[t].entrants| < MAX_ENTRANTS && !HasEntry(w.db.tours[t], player) && player in w.db.players
    requires first != second && first !in w.requests && second !in w.requests
    requires ListsEntrants(list, w.db.tours[t].entrants)
    requires entry.id !in w.issued && DrawChance(w.issued + {entry.id}, list, draw)
    ensures var db' := Play(w, actions).db;
      && t in db'.tours && entry.id in db'.tours[t].entrants && db'.tours[t].entrants[entry.id].seed == None
      && !EveryoneSeeded(db'.tours[t])
  {
    ReachableIsOk(w);
    var tour := w.db.tours[t];
    assert TourOk(w.owner, t, tour) && EntriesIssued(w.issued, tour);
    var load := LoadWithoutBracket(w, first, t, GenerateBracket, list);
    var w1 := Play(w, load);
    var enter := LoadAndEnter(w1, second, t, player, level, entry);
    PlayAppend(w, load, enter);
    var w2 := Play(w, load + enter);
    OneMoreStep(w, load + enter, Commit(first, draw));
    actions := load + enter + [Commit(first, draw)];
    var order := DrawStep(w2, first, t, ViewOf(tour), list, tour.entrants, draw);
    assert entry.id !in Elements(order);
  }
}
