/** What each write asks of the rows as they are when it begins, column by
    column, what it answers otherwise, and what follows for every step. */
module Guards {
  import opened Basics
  import opened Brackets
  import opened BracketRules
  import opened BracketRuns
  import opened Entrants
  import opened Points
  import opened Tables
  import opened Protocol
  import opened StoreInvariants
  import opened StoreWrites
  import opened WorldInvariant
  import opened WorldSteps
  import opened Rules
  import opened Histories

  // ---------- entries ----------

  /** An entry goes in exactly when the status is the one asked for, the deadline
      is still ahead of the time given, if one is given, no match is stored, the
      player has no entry yet, a place is free and the account exists. */
  lemma EntryAnswers(
      players: map<PlayerId, bool>, tour: Tour, id: EntrantId, player: PlayerId, skill: Option<int>,
      status: Status, openAt: Option<int>)
    ensures var (tour', answer) := AddEntrant(players, tour, id, player, skill, EntrantGuard(status, openAt));
      var open := tour.status == status && (openAt.Some? ==> openAt.value < tour.closesAt) && tour.matches == map[];
      var has := exists e :: e in tour.entrants && tour.entrants[e].player == Some(player);
      && (answer == Ok(New) <==> open && !has && |tour.entrants| < 256 && player in players)
      && (answer == Ok(Already) <==> open && has)
      && (answer == Ok(Refused) <==> !open || (!has && |tour.entrants| >= 256))
      && (answer == Err(ForeignKeyViolation) <==>
            open && !has && |tour.entrants| < 256 && player !in players)
      && (answer == Ok(New) ==>
            tour' == tour.(entrants := tour.entrants[id := EntrantRow(Some(player), None, skill)]))
      && (answer != Ok(New) ==> tour' == tour)
  {
  }

  /** A level changes, and an entry goes, under the same conditions. */
  lemma EntryChangeAnswers(
      tour: Tour, player: PlayerId, skill: int, entrant: EntrantId, status: Status, openAt: Option<int>)
    ensures var guard := EntrantGuard(status, openAt);
      var open := tour.status == status && (openAt.Some? ==> openAt.value < tour.closesAt) && tour.matches == map[];
      var has := exists e :: e in tour.entrants && tour.entrants[e].player == Some(player);
      && (SetSkill(tour, player, skill, guard).1 <==> open && has)
      && (RemoveEntrantOf(tour, player, guard).1 <==> open && has)
      && (RemoveEntrant(tour, entrant, guard).1 <==> open && entrant in tour.entrants)
      && (!SetSkill(tour, player, skill, guard).1 ==> SetSkill(tour, player, skill, guard).0 == tour)
      && (!RemoveEntrantOf(tour, player, guard).1 ==> RemoveEntrantOf(tour, player, guard).0 == tour)
      && (!RemoveEntrant(tour, entrant, guard).1 ==> RemoveEntrant(tour, entrant, guard).0 == tour)
  {
  }

  /** What the service answers to these writes. */
  lemma EntryServiceAnswers(db: Db, t: TournamentId, id: EntrantId, player: PlayerId, skill: Option<int>, guard: EntrantGuard)
    requires t in db.tours
    ensures var written := AddEntrant(db.players, db.tours[t], id, player, skill, guard).1;
      var answer := Execute(db, t, WriteEntrant(id, player, skill, guard)).1;
      && (answer == Ok(Wrote) <==> written == Ok(New))
      && (answer == Ok(AlreadyEntered) <==> written == Ok(Already))
      && (answer == Err(TournamentFull) <==> written == Ok(Refused))
      && (answer == Err(PlayerNotFound(player)) <==> written.Err?)
  {
  }

  /** A result, a change of the fields and a move that find the tournament changed
      say so. A move for which an award or the winner has gone says the same. */
  lemma ChangedAnswers(db: Db, t: TournamentId, write: Write)
    requires t in db.tours && (write.WriteResult? || write.WriteFields? || write.WriteStatus?)
    requires GuardStatus(write) != Some(db.tours[t].status)
    ensures Execute(db, t, write) == (db, Err(TournamentChanged))
  {
    assert db.tours[t := db.tours[t]] == db.tours;
  }

  /** Whose request it is: the time a player asked at, for an entry of their own
      or for its end. */
  function AskedAt(intent: Intent): Option<int> {
    match intent
    case Register(_, _, now) => Some(now)
    case Retire(_, now) => Some(now)
    case _ => None
  }

  lemma PlayersOwnWrite(q: Request, chance: Chance)
    requires Ready(q) && Plan(q, chance).Ok? && AskedAt(q.intent).Some?
    ensures var write := Plan(q, chance).value;
      && (write.WriteEntrant? || write.WriteRetirement?)
      && write.guard.status == Open && write.guard.openAt == AskedAt(q.intent)
  {
  }

  lemma CommittedEntryWrite(players: map<PlayerId, bool>, tour: Tour, write: Write)
    requires write.WriteEntrant? || write.WriteRetirement?
    requires WriteTour(players, tour, write).1 == Ok(Wrote)
    ensures tour.status == write.guard.status && tour.matches == map[]
    ensures write.guard.openAt.Some? ==> write.guard.openAt.value < tour.closesAt
  {
  }

  /** However late a request of a player commits: when it does, registration is
      open, the time it was made at is before the deadline as it is now, and no
      match is stored. */
  lemma NothingAfterTheDeadline(w: World, action: Action, t: TournamentId)
    requires t in w.db.tours && CommittedOn(w, action, t).Some?
    requires AskedAt(w.requests[action.rid].intent).Some?
    ensures w.db.tours[t].status == Open && w.db.tours[t].matches == map[]
    ensures AskedAt(w.requests[action.rid].intent).value < w.db.tours[t].closesAt
  {
    PlayersOwnWrite(w.requests[action.rid], action.chance);
    CommittedEntryWrite(w.db.players, w.db.tours[t], CommittedOn(w, action, t).value);
  }

  // ---------- brackets ----------

  /** A match that somebody has won against somebody. */
  ghost predicate HasAResult(rows: MatchTable) {
    exists id :: id in rows && rows[id].a.Some? && rows[id].b.Some? && rows[id].winner.Some?
  }

  /** A rebuild and a removal need the status they ask for and no played match. A
      rebuild needs besides that every entrant it names is there. */
  lemma BracketAnswers(tour: Tour, expected: Status, order: seq<EntrantId>, R: Rounds)
    ensures var (rebuilt, answer) := ReplaceBracket(tour, expected, order, R);
      var here := forall e :: e in order ==> e in tour.entrants;
      && (answer == Done <==> tour.status == expected && !HasAResult(tour.matches) && here)
      && (answer == Locked <==> tour.status == expected && HasAResult(tour.matches))
      && (answer == Changed <==> tour.status != expected || (!HasAResult(tour.matches) && !here))
      && (answer != Done ==> rebuilt == tour)
    ensures var (removed, answer) := DeleteBracket(tour, expected);
      && (answer == Done <==> tour.status == expected && !HasAResult(tour.matches))
      && (answer == Locked <==> tour.status == expected && HasAResult(tour.matches))
      && (answer == Changed <==> tour.status != expected)
      && (answer != Done ==> removed == tour)
      && (answer == Done ==>
            && removed == tour.(matches := map[], entrants := removed.entrants)
            && removed.entrants.Keys == tour.entrants.Keys
            && forall e :: e in tour.entrants ==> removed.entrants[e] == tour.entrants[e].(seed := None))
  {
  }

  /** The same as answers of the service, with the store left as it was. */
  lemma RefusedRebuild(db: Db, t: TournamentId, write: Write)
    requires t in db.tours && (write.WriteBracket? || write.WriteNoBracket?)
    requires write.WriteBracket? ==> |write.order| >= 2
    ensures db.tours[t].status == write.expected && HasAResult(db.tours[t].matches) ==>
              Execute(db, t, write) == (db, Err(BracketLocked))
    ensures db.tours[t].status != write.expected ==> Execute(db, t, write) == (db, Err(TournamentChanged))
  {
    var tour := db.tours[t];
    assert db.tours[t := tour] == db.tours;
    if write.WriteBracket? {
      BracketAnswers(tour, write.expected, write.order, Blank(write.order, write.ids));
    } else {
      BracketAnswers(tour, write.expected, [], []);
    }
  }

  /** A rebuild or a removal never erases a result, whatever it was decided on:
      when one commits, every stored row misses a side or a winner. */
  lemma RebuildErasesNoResult(w: World, action: Action, t: TournamentId)
    requires t in w.db.tours && CommittedOn(w, action, t).Some?
    requires CommittedOn(w, action, t).value.WriteBracket? || CommittedOn(w, action, t).value.WriteNoBracket?
    ensures forall id :: id in w.db.tours[t].matches ==>
              var m := w.db.tours[t].matches[id];
              m.a == None || m.b == None || m.winner == None
  {
    var q := w.requests[action.rid];
    var write := CommittedOn(w, action, t).value;
    if write.WriteBracket? {
      OrderOfPlan(q, action.chance);
    }
    RefusedRebuild(w.db, t, write);
    if !HasAResult(w.db.tours[t].matches) {
      forall id | id in w.db.tours[t].matches
        ensures var m := w.db.tours[t].matches[id]; m.a == None || m.b == None || m.winner == None
      {
        var m := w.db.tours[t].matches[id];
        assert !(m.a.Some? && m.b.Some? && m.winner.Some?);
      }
    }
  }

  /** The winner of a played row. */
  ghost predicate PlayedFor(rows: MatchTable, id: MatchId, winner: EntrantId) {
    id in rows && rows[id].a.Some? && rows[id].b.Some? && rows[id].winner == Some(winner)
  }

  /** The step commits an operation on this match. */
  ghost predicate Corrects(w: World, action: Action, t: TournamentId, id: MatchId) {
    match CommittedOn(w, action, t)
    case Some(WriteResult(_, _, op)) => op.id == id
    case _ => false
  }

  lemma ResultKeepsOthers(
      owner: map<MatchId, TournamentId>, t: TournamentId, tour: Tour, expected: Status, R: Rounds, op: Op,
      id: MatchId, winner: EntrantId)
    requires TourOk(owner, t, tour) && Sound(owner, tour, WriteResult(expected, R, op))
    requires PlayedFor(tour.matches, id, winner) && op.id != id
    ensures PlayedFor(UpdateMatches(tour, expected, ResultChanges(R, op)).0.matches, id, winner)
  {
    var (tour', written) := UpdateMatches(tour, expected, ResultChanges(R, op));
    if written && Apply(R, op).value.changed != [] {
      var orderR :| Valid(orderR, R);
      var order, C :| Holds(tour, order, C);
      CommittedResultIsAtomic(tour, expected, orderR, R, op, order, C);
      OperationIsOneResult(order, C, op, id);
      StoredResult(tour.matches, order, C, id);
      StoredResult(tour'.matches, order, After(C, op), id);
      LocateAcrossSameIds(C, After(C, op), id);
    } else if written {
      assert ResultChanges(R, op) == [];
      assert tour' == tour;
    }
  }

  lemma StoredResult(rows: MatchTable, order: seq<EntrantId>, C: Rounds, id: MatchId)
    requires Valid(order, C) && Stores(rows, C)
    ensures forall e :: ResultOf(C, id) == Some(e) <==> PlayedFor(rows, id, e)
  {
    if Locate(C, id).Some? {
      var (r, s) := Locate(C, id).value;
      assert At(C, r, s) && rows[id] == C[r][s];
    }
  }

  /** A result stays until the same match is corrected: over every step of every
      run, a row that is played for a winner is still played for that winner,
      unless the step commits an operation on that very match or the tournament
      as a whole goes. */
  lemma ResultsAreOnlyCorrected(w: World, action: Action, t: TournamentId, id: MatchId, winner: EntrantId)
    requires WorldOk(w) && t in w.db.tours && t in Next(w, action).db.tours
    requires PlayedFor(w.db.tours[t].matches, id, winner)
    ensures PlayedFor(Next(w, action).db.tours[t].matches, id, winner) || Corrects(w, action, t, id)
  {
    var tour := w.db.tours[t];
    StepOnTour(w, action, t);
    if CommittedOn(w, action, t).Some? && !Corrects(w, action, t, id) {
      var write := CommittedOn(w, action, t).value;
      CommittedIsSound(w, action, t);
      if write.WriteBracket? || write.WriteNoBracket? {
        RebuildErasesNoResult(w, action, t);
      } else if write.WriteResult? {
        ResultKeepsOthers(w.owner, t, tour, write.expected, write.read, write.op, id, winner);
      } else {
        OtherWriteKeepsSeats(w.db.players, tour, write);
      }
    }
  }

  // ---------- the tournament row ----------

  /** A change of the fields needs the status it was decided in. A deadline that is
      not given stays, and nothing else moves. */
  lemma FieldAnswers(tour: Tour, expected: Status, closesAt: Option<int>)
    ensures var (tour', answer) := UpdateFields(tour, expected, closesAt);
      && (answer <==> tour.status == expected)
      && tour' == tour.(closesAt :=
           if tour.status == expected && closesAt.Some? then closesAt.value else tour.closesAt)
  {
  }

  /** A move needs the status it was decided in, and a winner who is an entrant.
      Only a conclusion may name one. */
  lemma MoveAnswers(
      db: Db, t: TournamentId, from: Status, to: Status, winner: Option<EntrantId>, awards: seq<Award>)
    ensures var (db', answer) := SetStatus(db, t, from, to, winner, awards);
      var here := t in db.tours && db.tours[t].status == from;
      && (answer == Ok(false) <==> !here)
      && (answer == Err(CheckViolation) <==> here && winner.Some? && to != Concluded)
      && (here && winner.Some? && to == Concluded && winner.value !in db.tours[t].entrants ==>
            answer == Err(ForeignKeyViolation))
      && (answer == Ok(true) ==>
            && here && (winner.Some? ==> to == Concluded && winner.value in db.tours[t].entrants)
            && db'.tours == db.tours[t := db.tours[t].(status := to, winner := winner)])
      && (answer != Ok(true) ==> db' == db)
      && db' == db.(tours := db'.tours, ledger := db'.ledger)
  {
    InsertsBreakTwoRules(db.players, db.ledger, awards, Some(t), None);
  }

  lemma {:induction false} InsertsBreakTwoRules(
      players: map<PlayerId, bool>, ledger: set<Entry>, awards: seq<Award>,
      tournament: Option<TournamentId>, event: Option<EventId>)
    ensures InsertAwards(players, ledger, awards, tournament, event) != Err(CheckViolation)
    decreases |awards|
  {
    if awards != [] {
      InsertsBreakTwoRules(players, ledger + {ToEntry(awards[0], tournament, event)}, awards[1..], tournament, event);
    }
  }

  // ---------- cascades ----------

  /** A removed tournament takes its own ledger rows and nothing else. */
  lemma TourGone(db: Db, t: TournamentId)
    ensures var db' := DeleteTour(db, t);
      && t !in db'.tours && (forall u :: u != t && u in db.tours ==> u in db'.tours && db'.tours[u] == db.tours[u])
      && (forall x :: x in db'.ledger <==> x in db.ledger && x.tournament != Some(t))
      && db' == db.(tours := db'.tours, ledger := db'.ledger)
      && db'.tours.Keys <= db.tours.Keys
  {
  }

  /** A removed account takes its check-ins and its cycles. Its entries stay, with
      their seeds and levels, and name nobody. */
  lemma AccountGone(db: Db, p: PlayerId)
    ensures var db' := DeletePlayer(db, p);
      && db'.players == db.players - {p} && db'.events == db.events
      && (forall k :: k in db'.checkins <==> k in db.checkins && k.1 != p)
      && (forall k :: k in db'.checkins ==> db'.checkins[k] == db.checkins[k])
      && (forall x :: x in db'.ledger <==> x in db.ledger && x.player != p)
      && db'.tours.Keys == db.tours.Keys
      && forall t :: t in db.tours ==> EntriesForgotten(db.tours[t], db'.tours[t], p)
  {
  }

  ghost predicate EntriesForgotten(was: Tour, now: Tour, p: PlayerId) {
    && now.(entrants := was.entrants) == was && now.entrants.Keys == was.entrants.Keys
    && forall e :: e in was.entrants ==>
         now.entrants[e] == if was.entrants[e].player == Some(p) then was.entrants[e].(player := None)
                            else was.entrants[e]
  }

  // ---------- new rows ----------

  /** A tournament begins as an empty draft, an account and an event as they are
      given, and an id that was handed out before begins nothing. */
  lemma NewRows(w: World, t: TournamentId, closesAt: int, p: PlayerId, admin: bool, e: EventId, event: EventRow)
    ensures Next(w, CreateTour(t, closesAt)).db ==
            if t in w.issued then w.db
            else w.db.(tours := w.db.tours[t := Tour(Draft, closesAt, None, map[], map[])])
    ensures Next(w, SignUp(p, admin)).db ==
            if p in w.issued then w.db else w.db.(players := w.db.players[p := admin])
    ensures Next(w, CreateEvent(e, event)).db ==
            if e in w.issued then w.db else w.db.(events := w.db.events[e := event])
  {
  }
}
