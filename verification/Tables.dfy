/** The store: its tables, and what each guarded write does to them. A write is
    one statement or one `BEGIN IMMEDIATE` transaction, so it is one function
    from the tables before to the tables after and an answer. */
module Tables {
  import opened Basics
  import opened Brackets
  import opened BracketRules
  import opened Entrants
  import opened Points

  type EventId = int

  datatype Status = Draft | Open | Live | Concluded

  datatype EntrantRow = EntrantRow(player: Option<PlayerId>, seed: Option<nat>, skill: Option<int>)

  /** A tournament row with the rows that name it. Every statement on entrants
      and matches names its tournament. */
  datatype Tour = Tour(
    status: Status,
    closesAt: int,
    winner: Option<EntrantId>,
    entrants: map<EntrantId, EntrantRow>,
    matches: MatchTable)

  datatype EventRow = EventRow(published: bool, startsAt: int, endsAt: int)

  /** A ledger row, with the column that ties it to what paid it. */
  datatype Entry = Entry(
    player: PlayerId,
    amount: int,
    kind: PointKind,
    source: SourceRef,
    tournament: Option<TournamentId>,
    event: Option<EventId>)
  {
    function Key(): (PointKind, PlayerId, SourceRef) {
      (kind, player, source)
    }
  }

  datatype Db = Db(
    players: map<PlayerId, bool>, // the value says if the player is an admin
    tours: map<TournamentId, Tour>,
    events: map<EventId, EventRow>,
    checkins: map<(EventId, PlayerId), int>,
    ledger: set<Entry>)

  /** A constraint of the schema that a write broke. The write is dropped. */
  datatype Violation = UniqueViolation | ForeignKeyViolation | CheckViolation

  // ---------- entrants ----------

  /** The state of a tournament an entrant write expects. */
  datatype EntrantGuard = EntrantGuard(status: Status, openAt: Option<int>)

  datatype Enrolled = New | Already | Refused

  predicate GuardHolds(tour: Tour, guard: EntrantGuard) {
    && tour.status == guard.status
    && (guard.openAt.Some? ==> tour.closesAt > guard.openAt.value)
    && tour.matches == map[]
  }

  predicate HasEntry(tour: Tour, player: PlayerId) {
    exists e :: e in tour.entrants && tour.entrants[e].player == Some(player)
  }

  /** `insert ... select ... where exists`: the guard and a free place, then the
      unique index on the player, then the foreign key. */
  function AddEntrant(
      players: map<PlayerId, bool>, tour: Tour, id: EntrantId, player: PlayerId, skill: Option<int>,
      guard: EntrantGuard): (Tour, Result<Enrolled, Violation>)
  {
    if !(GuardHolds(tour, guard) && (|tour.entrants| < MAX_ENTRANTS || HasEntry(tour, player))) then
      (tour, Ok(Refused))
    else if HasEntry(tour, player) then (tour, Ok(Already))
    else if player !in players then (tour, Err(ForeignKeyViolation))
    else (tour.(entrants := tour.entrants[id := EntrantRow(Some(player), None, skill)]), Ok(New))
  }

  function SetSkill(tour: Tour, player: PlayerId, skill: int, guard: EntrantGuard): (Tour, bool) {
    if GuardHolds(tour, guard) && HasEntry(tour, player) then
      (tour.(entrants := map e | e in tour.entrants ::
               if tour.entrants[e].player == Some(player) then tour.entrants[e].(skill := Some(skill))
               else tour.entrants[e]), true)
    else (tour, false)
  }

  /** The rows go, and a winner column that named one becomes null. */
  function DropEntrants(tour: Tour, gone: set<EntrantId>): Tour {
    tour.(entrants := tour.entrants - gone,
          winner := if tour.winner.Some? && tour.winner.value in gone then None else tour.winner)
  }

  function RemoveEntrant(tour: Tour, entrant: EntrantId, guard: EntrantGuard): (Tour, bool) {
    if GuardHolds(tour, guard) && entrant in tour.entrants then (DropEntrants(tour, {entrant}), true)
    else (tour, false)
  }

  function RemoveEntrantOf(tour: Tour, player: PlayerId, guard: EntrantGuard): (Tour, bool) {
    if GuardHolds(tour, guard) && HasEntry(tour, player) then
      (DropEntrants(tour, set e | e in tour.entrants && tour.entrants[e].player == Some(player)), true)
    else (tour, false)
  }

  // ---------- brackets ----------

  datatype BracketWrite = Done | Locked | Changed

  predicate AnyPlayed(rows: MatchTable) {
    exists id :: id in rows && rows[id].IsPlayed()
  }

  function BracketBlocked(tour: Tour, expected: Status): BracketWrite {
    if tour.status != expected then Changed
    else if AnyPlayed(tour.matches) then Locked
    else Done
  }

  /** The seed an order gives an entrant: the last place that names it. */
  function SeedOf(order: seq<EntrantId>, e: EntrantId): (seed: Option<nat>)
    ensures seed.Some? ==> 1 <= seed.value <= |order| && order[seed.value - 1] == e
    ensures seed.None? <==> e !in order
  {
    if order == [] then None
    else if order[|order| - 1] == e then Some(|order|)
    else SeedOf(order[..|order| - 1], e)
  }

  function WithSeeds(entrants: map<EntrantId, EntrantRow>, order: seq<EntrantId>): map<EntrantId, EntrantRow> {
    map e | e in entrants :: entrants[e].(seed := SeedOf(order, e))
  }

  /** Seeds and matches are replaced together, or nothing is. */
  function ReplaceBracket(tour: Tour, expected: Status, order: seq<EntrantId>, R: Rounds): (Tour, BracketWrite) {
    var blocked := BracketBlocked(tour, expected);
    if blocked != Done then (tour, blocked)
    else if exists e :: e in order && e !in tour.entrants then (tour, Changed)
    else
      (tour.(entrants := WithSeeds(tour.entrants, order), matches := Overlay(map[], Flat(R))), Done)
  }

  function DeleteBracket(tour: Tour, expected: Status): (Tour, BracketWrite) {
    var blocked := BracketBlocked(tour, expected);
    if blocked != Done then (tour, blocked)
    else (tour.(entrants := WithSeeds(tour.entrants, []), matches := map[]), Done)
  }

  /** Each change names a row that must still hold the value read. The first row
      that does not drops the whole write. */
  function ApplyChanges(rows: MatchTable, changes: seq<(Match, Match)>): Option<MatchTable>
    decreases |changes|
  {
    if changes == [] then Some(rows)
    else
      var (before, after) := changes[0];
      if after.id in rows && rows[after.id].a == before.a && rows[after.id].b == before.b
         && rows[after.id].winner == before.winner then
        var row := rows[after.id].(a := after.a, b := after.b, winner := after.winner);
        ApplyChanges(rows[after.id := row], changes[1..])
      else None
  }

  function UpdateMatches(tour: Tour, expected: Status, changes: seq<(Match, Match)>): (Tour, bool) {
    if tour.status != expected then (tour, false)
    else
      match ApplyChanges(tour.matches, changes)
      case Some(rows) => (tour.(matches := rows), true)
      case None => (tour, false)
  }

  // ---------- the tournament row ----------

  function UpdateFields(tour: Tour, expected: Status, closesAt: Option<int>): (Tour, bool) {
    if tour.status == expected then
      (if closesAt.Some? then tour.(closesAt := closesAt.value) else tour, true)
    else (tour, false)
  }

  function ToEntry(a: Award, tournament: Option<TournamentId>, event: Option<EventId>): Entry {
    Entry(a.player, a.amount, a.kind, a.source, tournament, event)
  }

  predicate KeyTaken(ledger: set<Entry>, key: (PointKind, PlayerId, SourceRef)) {
    exists x :: x in ledger && x.Key() == key
  }

  /** One insert per award, each under the unique index and the foreign key to
      the player. */
  function InsertAwards(
      players: map<PlayerId, bool>, ledger: set<Entry>, awards: seq<Award>,
      tournament: Option<TournamentId>, event: Option<EventId>): Result<set<Entry>, Violation>
    decreases |awards|
  {
    if awards == [] then Ok(ledger)
    else
      var x := ToEntry(awards[0], tournament, event);
      if KeyTaken(ledger, x.Key()) then Err(UniqueViolation)
      else if x.player !in players then Err(ForeignKeyViolation)
      else InsertAwards(players, ledger + {x}, awards[1..], tournament, event)
  }

  /** The move, its winner and the cycles it pays, in one transaction. */
  function SetStatus(
      db: Db, t: TournamentId, from: Status, to: Status, winner: Option<EntrantId>, awards: seq<Award>)
    : (Db, Result<bool, Violation>)
  {
    if t !in db.tours || db.tours[t].status != from then (db, Ok(false))
    else if to != Concluded && winner.Some? then (db, Err(CheckViolation))
    else if winner.Some? && winner.value !in db.tours[t].entrants then (db, Err(ForeignKeyViolation))
    else
      match InsertAwards(db.players, db.ledger, awards, Some(t), None)
      case Err(violation) => (db, Err(violation))
      case Ok(ledger) =>
        var tour := db.tours[t].(status := to, winner := winner);
        (db.(tours := db.tours[t := tour], ledger := ledger), Ok(true))
  }

  function DeleteTour(db: Db, t: TournamentId): Db {
    db.(tours := db.tours - {t},
        ledger := set x | x in db.ledger && x.tournament != Some(t))
  }

  /** An entry loses its account, and the cycles and the check-ins go. */
  function ForgetPlayer(tour: Tour, p: PlayerId): Tour {
    tour.(entrants := map e | e in tour.entrants ::
            if tour.entrants[e].player == Some(p) then tour.entrants[e].(player := None)
            else tour.entrants[e])
  }

  function DeletePlayer(db: Db, p: PlayerId): Db {
    Db(db.players - {p},
       map t | t in db.tours :: ForgetPlayer(db.tours[t], p),
       db.events,
       map k | k in db.checkins && k.1 != p :: db.checkins[k],
       set x | x in db.ledger && x.player != p)
  }

  // ---------- check-ins ----------

  datatype CheckedIn = NewCheckin(at: int, wasActive: bool) | AlreadyIn(at: int)

  function CheckinAward(e: EventId, p: PlayerId): Award {
    Award(p, CHECKIN_CYCLES, Checkin, e)
  }

  predicate IsActive(db: Db, p: PlayerId) {
    p in db.players && (db.players[p] || exists k :: k in db.checkins && k.1 == p)
  }

  /** Adds a row to the check-ins and one to the ledger. For a pair that is there
      already the store is as before, and the answer has the time of that row. */
  function CheckIn(db: Db, e: EventId, p: PlayerId, at: int): (Db, Result<CheckedIn, Violation>) {
    if (e, p) in db.checkins then (db, Ok(AlreadyIn(db.checkins[(e, p)])))
    else if e !in db.events || p !in db.players then (db, Err(ForeignKeyViolation))
    else
      match InsertAwards(db.players, db.ledger, [CheckinAward(e, p)], None, Some(e))
      case Err(violation) => (db, Err(violation))
      case Ok(ledger) =>
        (db.(checkins := db.checkins[(e, p) := at], ledger := ledger),
         Ok(NewCheckin(at, IsActive(db, p))))
  }

  function RemoveCheckin(db: Db, e: EventId, p: PlayerId): (Db, bool) {
    (db.(checkins := db.checkins - {(e, p)},
         ledger := set x | x in db.ledger && !(x.kind == Checkin && x.event == Some(e) && x.player == p)),
     (e, p) in db.checkins)
  }

  function DeleteEvent(db: Db, e: EventId): Db {
    db.(events := db.events - {e},
        checkins := map k | k in db.checkins && k.0 != e :: db.checkins[k],
        ledger := set x | x in db.ledger && x.event != Some(e))
  }

  /** The source of the new row is the row itself. */
  function AddAdjustment(db: Db, id: int, p: PlayerId, amount: int): (Db, Result<(), Violation>) {
    var x := Entry(p, amount, Adjustment, id, None, None);
    if KeyTaken(db.ledger, x.Key()) then (db, Err(UniqueViolation))
    else if p !in db.players then (db, Err(ForeignKeyViolation))
    else (db.(ledger := db.ledger + {x}), Ok(()))
  }
}
