/** The store as an object whose methods change its tables step by step. A
    transaction works on copies of the tables it writes and assigns them at its
    commit, so a return before that drops the whole write. */
module Store {
  import opened Basics
  import opened Brackets
  import opened BracketRules
  import opened BracketObjects
  import opened Entrants
  import opened Points
  import opened Tables
  import opened Protocol
  import opened StoreInvariants
  import opened Balances

  class Database {
    var players: map<PlayerId, bool>
    var tours: map<TournamentId, Tour>
    var events: map<EventId, EventRow>
    var checkins: map<(EventId, PlayerId), int>
    var ledger: set<Entry>

    constructor ()
      ensures State() == Db(map[], map[], map[], map[], {})
    {
      players, tours, events, checkins, ledger := map[], map[], map[], map[], {};
    }

    function State(): Db
      reads this
    {
      Db(players, tours, events, checkins, ledger)
    }

    // ---------- entrants ----------

    /** A row for the player when the guard holds and there is a place, or the
        answer that says why not. Nothing else moves. */
    method AddEntrant(t: TournamentId, id: EntrantId, player: PlayerId, skill: Option<int>, guard: EntrantGuard)
      returns (res: Result<Enrolled, Violation>)
      requires t in tours ==> id !in tours[t].entrants
      modifies this`tours
      ensures t !in old(tours) ==> res == Ok(Refused) && tours == old(tours)
      ensures t in old(tours) ==>
                && res == Tables.AddEntrant(players, old(tours)[t], id, player, skill, guard).1
                && tours == old(tours)[t := Tables.AddEntrant(players, old(tours)[t], id, player, skill, guard).0]
      ensures res == Ok(New) <==>
                && t in old(tours) && old(tours)[t].status == guard.status
                && (guard.openAt.Some? ==> guard.openAt.value < old(tours)[t].closesAt)
                && old(tours)[t].matches == map[] && |old(tours)[t].entrants| < 256 && player in players
                && forall e :: e in old(tours)[t].entrants ==> old(tours)[t].entrants[e].player != Some(player)
      ensures res == Ok(New) ==>
                && tours == old(tours)[t := old(tours)[t].(entrants :=
                     old(tours)[t].entrants[id := EntrantRow(Some(player), None, skill)])]
                && |tours[t].entrants| == |old(tours)[t].entrants| + 1 <= 256
      ensures res != Ok(New) ==> tours == old(tours)
    {
      if t !in tours {
        return Ok(Refused);
      }
      assert tours[t := tours[t]] == tours;
      var tour := tours[t];
      if !GuardHolds(tour, guard) {
        return Ok(Refused);
      }
      if HasEntry(tour, player) {
        return Ok(Already);
      }
      if |tour.entrants| >= MAX_ENTRANTS {
        return Ok(Refused);
      }
      if player !in players {
        return Err(ForeignKeyViolation);
      }
      tours := tours[t := tour.(entrants := tour.entrants[id := EntrantRow(Some(player), None, skill)])];
      return Ok(New);
    }

    method SetSkill(t: TournamentId, player: PlayerId, skill: int, guard: EntrantGuard) returns (updated: bool)
      modifies this`tours
      ensures t !in old(tours) ==> !updated && tours == old(tours)
      ensures t in old(tours) ==>
                && updated == Tables.SetSkill(old(tours)[t], player, skill, guard).1
                && tours == old(tours)[t := Tables.SetSkill(old(tours)[t], player, skill, guard).0]
      ensures updated <==>
                && t in old(tours) && old(tours)[t].status == guard.status
                && (guard.openAt.Some? ==> guard.openAt.value < old(tours)[t].closesAt)
                && old(tours)[t].matches == map[]
                && exists e :: e in old(tours)[t].entrants && old(tours)[t].entrants[e].player == Some(player)
      ensures updated ==> SkillSet(old(tours)[t], tours[t], player, skill)
    {
      if t !in tours {
        return false;
      }
      assert tours[t := tours[t]] == tours;
      var tour := tours[t];
      if !GuardHolds(tour, guard) || !HasEntry(tour, player) {
        return false;
      }
      var entrants := map e | e in tour.entrants ::
        if tour.entrants[e].player == Some(player) then tour.entrants[e].(skill := Some(skill)) else tour.entrants[e];
      tours := tours[t := tour.(entrants := entrants)];
      return true;
    }

    /** The cascade of a removed row clears a winner column that named it. */
    method RemoveEntrant(t: TournamentId, entrant: EntrantId, guard: EntrantGuard) returns (removed: bool)
      modifies this`tours
      ensures t !in old(tours) ==> !removed && tours == old(tours)
      ensures t in old(tours) ==>
                && removed == Tables.RemoveEntrant(old(tours)[t], entrant, guard).1
                && tours == old(tours)[t := Tables.RemoveEntrant(old(tours)[t], entrant, guard).0]
      ensures removed <==>
                && t in old(tours) && old(tours)[t].status == guard.status
                && (guard.openAt.Some? ==> guard.openAt.value < old(tours)[t].closesAt)
                && old(tours)[t].matches == map[] && entrant in old(tours)[t].entrants
      ensures removed ==> EntriesGone(old(tours)[t], tours[t], {entrant})
    {
      if t !in tours {
        return false;
      }
      assert tours[t := tours[t]] == tours;
      var tour := tours[t];
      if !GuardHolds(tour, guard) || entrant !in tour.entrants {
        return false;
      }
      tours := tours[t := DropEntrants(tour, {entrant})];
      return true;
    }

    method RemoveEntrantOf(t: TournamentId, player: PlayerId, guard: EntrantGuard) returns (removed: bool)
      modifies this`tours
      ensures t !in old(tours) ==> !removed && tours == old(tours)
      ensures t in old(tours) ==>
                && removed == Tables.RemoveEntrantOf(old(tours)[t], player, guard).1
                && tours == old(tours)[t := Tables.RemoveEntrantOf(old(tours)[t], player, guard).0]
      ensures removed <==>
                && t in old(tours) && old(tours)[t].status == guard.status
                && (guard.openAt.Some? ==> guard.openAt.value < old(tours)[t].closesAt)
                && old(tours)[t].matches == map[]
                && exists e :: e in old(tours)[t].entrants && old(tours)[t].entrants[e].player == Some(player)
      ensures removed ==> EntriesGone(old(tours)[t], tours[t], EntriesOfPlayer(old(tours)[t], player))
      ensures removed ==> !HasEntry(tours[t], player)
    {
      if t !in tours {
        return false;
      }
      assert tours[t := tours[t]] == tours;
      var tour := tours[t];
      if !GuardHolds(tour, guard) || !HasEntry(tour, player) {
        return false;
      }
      tours := tours[t := DropEntrants(tour, set e | e in tour.entrants && tour.entrants[e].player == Some(player))];
      return true;
    }

    // ---------- brackets ----------

    /** Compares and sets each changed match. The first row that moved drops the
        whole write. */
    method UpdateMatches(t: TournamentId, expected: Status, changes: seq<(Match, Match)>) returns (written: bool)
      modifies this`tours
      ensures t !in old(tours) ==> !written && tours == old(tours)
      ensures t in old(tours) ==>
                && written == Tables.UpdateMatches(old(tours)[t], expected, changes).1
                && tours == old(tours)[t := Tables.UpdateMatches(old(tours)[t], expected, changes).0]
    {
      if t !in tours {
        return false;
      }
      assert tours[t := tours[t]] == tours;
      if tours[t].status != expected {
        return false;
      }
      var rows := tours[t].matches;
      for i := 0 to |changes|
        invariant tours == old(tours)
        invariant ApplyChanges(tours[t].matches, changes) == ApplyChanges(rows, changes[i..])
      {
        var (before, after) := changes[i];
        assert changes[i..][0] == changes[i] && changes[i..][1..] == changes[i + 1..];
        if after.id !in rows {
          return false;
        }
        var row := rows[after.id];
        if row.a != before.a || row.b != before.b || row.winner != before.winner {
          return false;
        }
        rows := rows[after.id := row.(a := after.a, b := after.b, winner := after.winner)];
      }
      assert changes[|changes|..] == [];
      tours := tours[t := tours[t].(matches := rows)];
      return true;
    }

    /** Seeds by the order given, one row after the other, then the matches one
        after the other. */
    method ReplaceBracket(t: TournamentId, expected: Status, order: seq<EntrantId>, bracket: Bracket)
      returns (written: BracketWrite)
      modifies this`tours
      ensures t !in old(tours) ==> written == Changed && tours == old(tours)
      ensures t in old(tours) ==>
                && written == Tables.ReplaceBracket(old(tours)[t], expected, order, bracket.rounds).1
                && tours == old(tours)[t := Tables.ReplaceBracket(old(tours)[t], expected, order, bracket.rounds).0]
      ensures written == Locked <==>
                && t in old(tours) && old(tours)[t].status == expected
                && exists id :: id in old(tours)[t].matches && old(tours)[t].matches[id].a.Some?
                     && old(tours)[t].matches[id].b.Some? && old(tours)[t].matches[id].winner.Some?
      ensures written == Done ==>
                && t in old(tours) && old(tours)[t].status == expected
                && forall e :: e in order ==> e in old(tours)[t].entrants
      ensures written != Done ==> tours == old(tours)
    {
      if t !in tours {
        return Changed;
      }
      assert tours[t := tours[t]] == tours;
      var blocked := BracketBlocked(tours[t], expected);
      if blocked != Done {
        return blocked;
      }
      var entrants := ClearSeeds(tours[t].entrants);
      assert order[..0] == [];
      for i := 0 to |order|
        invariant tours == old(tours)
        invariant entrants == WithSeeds(tours[t].entrants, order[..i])
        invariant forall k :: 0 <= k < i ==> order[k] in tours[t].entrants
      {
        var e := order[i];
        if e !in entrants {
          assert e in order && e !in tours[t].entrants;
          return Changed;
        }
        OneMoreSeed(tours[t].entrants, order, i);
        entrants := entrants[e := entrants[e].(seed := Some(i + 1))];
      }
      assert order[..|order|] == order;
      var rows: MatchTable := map[];
      var flat := Flat(bracket.rounds);
      for i := 0 to |flat|
        invariant tours == old(tours)
        invariant rows == Overlay(map[], flat[..i])
      {
        OverlayLast(map[], flat[..i], flat[i]);
        assert flat[..i + 1] == flat[..i] + [flat[i]];
        rows := rows[flat[i].id := flat[i]];
      }
      assert flat[..|flat|] == flat;
      tours := tours[t := tours[t].(entrants := entrants, matches := rows)];
      return Done;
    }

    method DeleteBracket(t: TournamentId, expected: Status) returns (written: BracketWrite)
      modifies this`tours
      ensures t !in old(tours) ==> written == Changed && tours == old(tours)
      ensures t in old(tours) ==>
                && written == Tables.DeleteBracket(old(tours)[t], expected).1
                && tours == old(tours)[t := Tables.DeleteBracket(old(tours)[t], expected).0]
      ensures written == Locked <==>
                && t in old(tours) && old(tours)[t].status == expected
                && exists id :: id in old(tours)[t].matches && old(tours)[t].matches[id].a.Some?
                     && old(tours)[t].matches[id].b.Some? && old(tours)[t].matches[id].winner.Some?
      ensures written == Changed <==> t !in old(tours) || old(tours)[t].status != expected
      ensures written != Done ==> tours == old(tours)
    {
      if t !in tours {
        return Changed;
      }
      assert tours[t := tours[t]] == tours;
      var blocked := BracketBlocked(tours[t], expected);
      if blocked != Done {
        return blocked;
      }
      var entrants := ClearSeeds(tours[t].entrants);
      assert entrants == WithSeeds(tours[t].entrants, []);
      tours := tours[t := tours[t].(matches := map[], entrants := entrants)];
      return Done;
    }

    // ---------- the ledger ----------

    /** One insert per award, into a copy of the ledger. A duplicate or a missing
        player fails the caller's transaction. */
    method InsertAwards(awards: seq<Award>, tournament: Option<TournamentId>, event: Option<EventId>)
      returns (res: Result<set<Entry>, Violation>)
      ensures res == Tables.InsertAwards(players, ledger, awards, tournament, event)
    {
      var rows := ledger;
      for i := 0 to |awards|
        invariant Tables.InsertAwards(players, ledger, awards, tournament, event) ==
                  Tables.InsertAwards(players, rows, awards[i..], tournament, event)
      {
        assert awards[i..][0] == awards[i] && awards[i..][1..] == awards[i + 1..];
        var x := ToEntry(awards[i], tournament, event);
        if KeyTaken(rows, x.Key()) {
          return Err(UniqueViolation);
        }
        if x.player !in players {
          return Err(ForeignKeyViolation);
        }
        rows := rows + {x};
      }
      assert awards[|awards|..] == [];
      return Ok(rows);
    }

    /** The move, the winner and the payment, or none of it. */
    method SetStatus(t: TournamentId, from: Status, to: Status, winner: Option<EntrantId>, awards: seq<Award>)
      returns (res: Result<bool, Violation>)
      modifies this`tours, this`ledger
      ensures (State(), res) == Tables.SetStatus(old(State()), t, from, to, winner, awards)
    {
      if t !in tours || tours[t].status != from {
        return Ok(false);
      }
      if to != Concluded && winner.Some? {
        return Err(CheckViolation);
      }
      if winner.Some? && winner.value !in tours[t].entrants {
        return Err(ForeignKeyViolation);
      }
      var inserted := InsertAwards(awards, Some(t), None);
      if inserted.Err? {
        return Err(inserted.error);
      }
      tours := tours[t := tours[t].(status := to, winner := winner)];
      ledger := inserted.value;
      return Ok(true);
    }

    /** The row names itself as what paid, so a new id is always a new key. */
    method AddAdjustment(id: int, p: PlayerId, amount: int) returns (res: Result<(), Violation>)
      modifies this`ledger
      ensures (State(), res) == Tables.AddAdjustment(old(State()), id, p, amount)
      ensures res == Err(UniqueViolation) <==> KeyTaken(old(ledger), (Adjustment, p, id))
      ensures res.Ok? <==> p in players && !KeyTaken(old(ledger), (Adjustment, p, id))
      ensures res.Ok? ==>
                && ledger == old(ledger) + {Entry(p, amount, Adjustment, id, None, None)}
                && |ledger| == |old(ledger)| + 1
      ensures res.Ok? ==> Balance(ledger, p) == old(Balance(ledger, p)) + amount
      ensures forall other :: other != p ==> Balance(ledger, other) == old(Balance(ledger, other))
      ensures res.Err? ==> ledger == old(ledger)
    {
      var x := Entry(p, amount, Adjustment, id, None, None);
      if KeyTaken(ledger, x.Key()) {
        return Err(UniqueViolation);
      }
      if p !in players {
        return Err(ForeignKeyViolation);
      }
      OneRowMore(ledger, x, p);
      forall other | other != p ensures Balance(ledger + {x}, other) == Balance(ledger, other) {
        OneRowMore(ledger, x, other);
      }
      ledger := ledger + {x};
      return Ok(());
    }

    // ---------- check-ins ----------

    /** Adds to both tables or to neither. */
    method CheckIn(e: EventId, p: PlayerId, at: int) returns (res: Result<CheckedIn, Violation>)
      modifies this`checkins, this`ledger
      ensures (State(), res) == Tables.CheckIn(old(State()), e, p, at)
    {
      var wasActive := IsActive(State(), p);
      if (e, p) in checkins {
        return Ok(AlreadyIn(checkins[(e, p)]));
      }
      if e !in events || p !in players {
        return Err(ForeignKeyViolation);
      }
      var inserted := InsertAwards([CheckinAward(e, p)], None, Some(e));
      if inserted.Err? {
        return Err(inserted.error);
      }
      checkins := checkins[(e, p) := at];
      ledger := inserted.value;
      return Ok(NewCheckin(at, wasActive));
    }

    method RemoveCheckin(e: EventId, p: PlayerId) returns (removed: bool)
      modifies this`checkins, this`ledger
      ensures (State(), removed) == Tables.RemoveCheckin(old(State()), e, p)
      ensures (e, p) !in checkins && (removed <==> (e, p) in old(checkins))
      ensures forall k :: k != (e, p) && k in old(checkins) ==> k in checkins && checkins[k] == old(checkins)[k]
      ensures forall x :: x in ledger ==> x in old(ledger) && !PaidFor(x, e, p)
      ensures forall x :: x in old(ledger) && !PaidFor(x, e, p) ==> x in ledger
    {
      ledger := set x | x in ledger && !(x.kind == Checkin && x.event == Some(e) && x.player == p);
      removed := (e, p) in checkins;
      checkins := checkins - {(e, p)};
    }

    /** The cascade of an event reaches two tables. */
    method DeleteEvent(e: EventId)
      modifies this`events, this`checkins, this`ledger
      ensures State() == Tables.DeleteEvent(old(State()), e)
      ensures e !in events && forall k :: k in checkins ==> k.0 != e
      ensures forall x :: x in ledger ==> x.event != Some(e)
      ensures forall f :: f != e && f in old(events) ==> f in events && events[f] == old(events)[f]
      ensures forall k :: k in old(checkins) && k.0 != e ==> k in checkins && checkins[k] == old(checkins)[k]
      ensures forall x :: x in old(ledger) && x.event != Some(e) ==> x in ledger
      ensures checkins.Keys <= old(checkins).Keys && ledger <= old(ledger) && events.Keys <= old(events).Keys
    {
      events := events - {e};
      checkins := map k | k in checkins && k.0 != e :: checkins[k];
      ledger := set x | x in ledger && x.event != Some(e);
    }

    // ---------- a result from end to end ----------

    /** `report_result` on its own: reads the rows, groups them, enters the result
        on a copy, and writes the changes against the bracket as read. The new
        rows are those of the bracket it answers with. */
    method EnterResult(t: TournamentId, op: Op, rows: seq<Match>) returns (res: Result<Rounds, ServiceError>)
      requires t in tours ==> ListsMatches(rows, tours[t].matches)
      modifies this`tours
      ensures t !in old(tours) ==> res == Err(TournamentNotFound) && tours == old(tours)
      ensures t in old(tours) && old(tours)[t].status == Concluded ==>
                res == Err(TournamentConcluded) && tours == old(tours)
      ensures t in old(tours) && old(tours)[t].status != Concluded && old(tours)[t].matches == map[] ==>
                res == Err(MatchNotFound(op.id)) && tours == old(tours)
      ensures t in old(tours) ==> t in tours && tours == old(tours)[t := tours[t]]
      ensures t in old(tours) && old(tours)[t].status != Concluded ==>
                forall order, C :: Holds(old(tours)[t], order, C) ==>
                  EnteredAs(old(tours)[t], tours[t], order, C, op, res)
    {
      if t !in tours {
        return Err(TournamentNotFound);
      }
      ghost var tour := tours[t];
      var expected := tours[t].status;
      if expected == Concluded {
        return Err(TournamentConcluded);
      }
      if rows == [] {
        NoRowsNoBracket(tour, rows);
        return Err(MatchNotFound(op.id));
      }
      var read := Bracket.FromMatches(rows);
      if read.Err? {
        MalformedMeansNoBracket(tour, rows);
        return Err(BadBracket(Malformed));
      }
      ReadIsTheOnlyBracket(tour, rows, read.value);
      var bracket := new Bracket(read.value);
      var entered;
      match op {
        case OpReport(id, winner) => entered := bracket.Report(id, winner);
        case OpClear(id) => entered := bracket.Clear(id);
      }
      if entered.Err? {
        return Err(BadBracket(entered.error));
      }
      var changes := Pairs(read.value, entered.value);
      assert changes == ResultChanges(read.value, op);
      var written := UpdateMatches(t, expected, changes);
      forall order | Holds(tour, order, read.value)
        ensures written && Holds(tours[t], order, bracket.rounds)
        ensures tours[t] == tour.(matches := tours[t].matches)
      {
        FreshResultCommits(tour, order, read.value, op);
      }
      if !written {
        return Err(TournamentChanged);
      }
      return Ok(bracket.rounds);
    }
  }

  /** The answer and the new rows are those of the operation on the stored
      bracket, and nothing else about the tournament changed. */
  ghost predicate EnteredAs(
      was: Tour, now: Tour, order: seq<EntrantId>, C: Rounds, op: Op, res: Result<Rounds, ServiceError>)
  {
    match Apply(C, op)
    case Err(error) => res == Err(BadBracket(error)) && now == was
    case Ok(edit) =>
      res == Ok(edit.rounds) && Holds(now, order, edit.rounds) && now == was.(matches := now.matches)
  }

  // ---------- what a write leaves alone ----------

  /** Exactly the entries of the player have the level now, and nothing else about
      the tournament changed. */
  ghost predicate SkillSet(was: Tour, now: Tour, player: PlayerId, skill: int) {
    && now.(entrants := was.entrants) == was
    && now.entrants.Keys == was.entrants.Keys
    && forall e :: e in was.entrants ==>
         && now.entrants[e].player == was.entrants[e].player && now.entrants[e].seed == was.entrants[e].seed
         && now.entrants[e].skill ==
              if was.entrants[e].player == Some(player) then Some(skill) else was.entrants[e].skill
  }

  function EntriesOfPlayer(tour: Tour, player: PlayerId): set<EntrantId> {
    set e | e in tour.entrants && tour.entrants[e].player == Some(player)
  }

  /** Exactly these entries went, and a winner among them with them. */
  ghost predicate EntriesGone(was: Tour, now: Tour, gone: set<EntrantId>) {
    && now.entrants.Keys == was.entrants.Keys - gone
    && (forall e :: e in now.entrants ==> now.entrants[e] == was.entrants[e])
    && (now.winner.Some? ==> now.winner.value !in gone)
    && (now.winner != was.winner ==> was.winner.Some? && was.winner.value in gone)
    && now.(entrants := was.entrants, winner := was.winner) == was
  }

  /** The cycles of one check-in. */
  ghost predicate PaidFor(x: Entry, e: EventId, p: PlayerId) {
    x.kind == Checkin && x.event == Some(e) && x.player == p
  }

  // ---------- the steps of a rebuild ----------

  function ClearSeeds(entrants: map<EntrantId, EntrantRow>): map<EntrantId, EntrantRow> {
    map e | e in entrants :: entrants[e].(seed := None)
  }

  lemma OneMoreSeed(entrants: map<EntrantId, EntrantRow>, order: seq<EntrantId>, i: nat)
    requires i < |order| && order[i] in entrants
    ensures WithSeeds(entrants, order[..i + 1]) ==
            WithSeeds(entrants, order[..i])[order[i] := entrants[order[i]].(seed := Some(i + 1))]
  {
    assert order[..i + 1][..i] == order[..i] && order[..i + 1][i] == order[i];
  }

  lemma {:induction false} OverlayLast(rows: MatchTable, ms: seq<Match>, m: Match)
    ensures Overlay(rows, ms + [m]) == Overlay(rows, ms)[m.id := m]
    decreases |ms|
  {
    if ms == [] {
      assert ms + [m] == [m];
      OverlayOne(rows, m);
    } else {
      assert (ms + [m])[1..] == ms[1..] + [m];
      OverlayLast(rows[ms[0].id := ms[0]], ms[1..], m);
    }
  }

  // ---------- the steps of a result ----------

  lemma NoRowsNoBracket(tour: Tour, rows: seq<Match>)
    requires ListsMatches(rows, tour.matches) && rows == []
    ensures tour.matches == map[]
    ensures forall order, C :: !Holds(tour, order, C)
  {
    assert |tour.matches| == 0;
    forall order, C ensures !Holds(tour, order, C) {
      if Holds(tour, order, C) {
        ReadGivesStoredBracket(rows, tour.matches, order, C);
      }
    }
  }

  lemma MalformedMeansNoBracket(tour: Tour, rows: seq<Match>)
    requires ListsMatches(rows, tour.matches) && Regrouped(rows).None?
    ensures forall order, C :: !Holds(tour, order, C)
  {
    forall order, C ensures !Holds(tour, order, C) {
      if Holds(tour, order, C) {
        ReadGivesStoredBracket(rows, tour.matches, order, C);
      }
    }
  }

  lemma ReadIsTheOnlyBracket(tour: Tour, rows: seq<Match>, R: Rounds)
    requires ListsMatches(rows, tour.matches) && Regrouped(rows) == Some(R)
    ensures forall order, C :: Holds(tour, order, C) ==> C == R
  {
    forall order, C | Holds(tour, order, C) ensures C == R {
      ReadGivesStoredBracket(rows, tour.matches, order, C);
    }
  }

  /** The rows that were read are still there, so comparing them passes. */
  lemma FreshPairsPass(rows: MatchTable, R: Rounds, r: nat, s: nat, w: Option<EntrantId>)
    requires DistinctIds(R) && Stores(rows, R) && At(R, r, s)
    ensures ApplyChanges(rows, WritePairs(R, r, s, w)).Some?
  {
    SetWinnerAt(R, r, s, w);
    var R' := SetWinner(R, r, s, w);
    ApplyOne(rows, R[r][s], R'[r][s]);
    if At(R, r + 1, s / 2) {
      ApplyTwo(rows, (R[r][s], R'[r][s]), (R[r + 1][s / 2], R'[r + 1][s / 2]));
      ApplyOne(rows[R'[r][s].id := R'[r][s]], R[r + 1][s / 2], R'[r + 1][s / 2]);
    }
  }

  /** Nothing moved since the read, so the compare-and-set passes. */
  lemma FreshResultCommits(tour: Tour, order: seq<EntrantId>, R: Rounds, op: Op)
    requires Holds(tour, order, R) && Apply(R, op).Ok?
    ensures var (tour', written) := Tables.UpdateMatches(tour, tour.status, ResultChanges(R, op));
      && written && Holds(tour', order, After(R, op)) && tour' == tour.(matches := tour'.matches)
  {
    if Apply(R, op).value.changed == [] {
      AcceptedIsOneWrite(R, op);
      assert ResultChanges(R, op) == [];
    } else {
      ResultPairs(R, op);
      var (r, s) := Locate(R, op.id).value;
      FreshPairsPass(tour.matches, R, r, s, if op.OpReport? then Some(op.winner) else None);
      StoredIsCompatible(R, tour.matches);
      CommittedResultIsAtomic(tour, tour.status, order, R, op, order, R);
    }
  }
}
