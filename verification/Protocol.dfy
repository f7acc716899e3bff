/** The tournament service as a transition system. A request reads the store
    step by step, keeps what it read, decides on it, and then makes one guarded
    write. Reads and writes of different requests interleave freely, so a
    request may decide on a snapshot that is long out of date. */
module Protocol {
  import opened Basics
  import opened Brackets
  import opened BracketRules
  import opened BracketObjects
  import opened Entrants
  import opened Points
  import opened Seeding
  import opened Tables

  // ---------- what a request asks, and what it has read ----------

  datatype Intent =
    | EnterResult(op: Op)
    | GenerateBracket
    | ReorderSeeds(order: seq<EntrantId>)
    | RemoveBracket
    | ChangeStatus(to: Status, winner: Option<EntrantId>)
    | Register(player: PlayerId, skill: int, now: int)
    | Retire(player: PlayerId, now: int)
    | EnrolPlayer(player: PlayerId, level: Option<int>)
    | RemoveEntry(entrant: EntrantId)
    | EditFields(closesAt: Option<int>)
    | FixSkill(player: PlayerId, skill: int, guard: EntrantGuard)

  /** The tournament row as a request read it. */
  datatype View = View(status: Status, closesAt: int, hasBracket: bool)

  function ViewOf(tour: Tour): View {
    View(tour.status, tour.closesAt, tour.matches != map[])
  }

  datatype Request = Request(
    t: TournamentId,
    intent: Intent,
    view: Option<View>,
    entrants: Option<seq<Entrant>>,
    bracket: Option<Option<Rounds>>)

  datatype ServiceError =
    | TournamentNotFound
    | TournamentConcluded
    | TournamentChanged
    | TournamentFull
    | InvalidTransition
    | RegistrationClosed
    | NotLive
    | BracketExists
    | BracketMissing
    | BracketLocked
    | BracketIncomplete
    | SeedOrderMismatch
    | UnexpectedWinner
    | NotAnEntrant(entrant: EntrantId)
    | PlayerNotFound(player: PlayerId)
    | MatchNotFound(id: MatchId)
    | BadBracket(error: BracketError)
    | StorageFailure(violation: Violation)

  /** What chance gives a request: a fresh entry id, fresh match ids and a
      shuffle of the entrants. */
  datatype Chance = Chance(id: EntrantId, ids: (nat, nat) -> MatchId, shuffled: seq<Entrant>)

  /** The one guarded write a request ends in. */
  datatype Write =
    | NoWrite
    | WriteResult(expected: Status, read: Rounds, op: Op)
    | WriteBracket(expected: Status, order: seq<EntrantId>, ids: (nat, nat) -> MatchId)
    | WriteNoBracket(expected: Status)
    | WriteStatus(from: Status, to: Status, winner: Option<EntrantId>, awards: seq<Award>)
    | WriteEntrant(id: EntrantId, player: PlayerId, skill: Option<int>, guard: EntrantGuard)
    | WriteSkill(player: PlayerId, level: int, guard: EntrantGuard)
    | WriteRemoval(entrant: EntrantId, guard: EntrantGuard)
    | WriteRetirement(player: PlayerId, guard: EntrantGuard)
    | WriteFields(expected: Status, closesAt: Option<int>)

  // ---------- the decision, from the snapshot alone ----------

  predicate ReadsBracket(intent: Intent) {
    intent.EnterResult? || intent.GenerateBracket? || intent.ReorderSeeds?
    || (intent.ChangeStatus? && intent.to == Concluded)
  }

  predicate ReadsEntrants(intent: Intent) {
    intent.GenerateBracket? || intent.ReorderSeeds? || (intent.ChangeStatus? && intent.to == Concluded)
  }

  /** The request has read what its decision needs. */
  predicate Ready(q: Request) {
    && (q.view.Some? || q.intent.FixSkill?)
    && (ReadsBracket(q.intent) ==> q.bracket.Some?)
    && (ReadsEntrants(q.intent) ==> q.entrants.Some?)
  }

  function RequireNotConcluded(view: View): Option<ServiceError> {
    if view.status == Concluded then Some(TournamentConcluded) else None
  }

  function RequireEntrantsEditable(view: View): Option<ServiceError> {
    if view.status == Concluded then Some(TournamentConcluded)
    else if view.hasBracket then Some(BracketExists)
    else None
  }

  function RequireRegistrationOpen(view: View, now: int): Option<ServiceError> {
    if view.status == Draft then Some(TournamentNotFound)
    else if view.status == Open && now < view.closesAt then None
    else Some(RegistrationClosed)
  }

  /** Why a draw or a reordering is refused on what was read, if it is. */
  function RequireBracketEditable(view: View, bracket: Option<Rounds>): Option<ServiceError> {
    if view.status == Concluded then Some(TournamentConcluded)
    else if view.status != Live then Some(NotLive)
    else if bracket.Some? && HasResults(bracket.value) then Some(BracketLocked)
    else None
  }

  function BuildBracket(view: View, order: seq<EntrantId>, ids: (nat, nat) -> MatchId)
    : Result<Write, ServiceError>
  {
    if |order| < 2 then Err(BadBracket(TooFewEntrants(|order|)))
    else if |order| > MAX_ENTRANTS then Err(BadBracket(TooManyEntrants(|order|)))
    else Ok(WriteBracket(view.status, order, ids))
  }

  function IdKey(e: EntrantId): int {
    e
  }

  /** The status write of a conclusion. Its winner is the champion of the bracket
      that was read, or else `named`, which must then be in the list that was read. */
  function Conclusion(
      t: TournamentId, view: View, entrants: seq<Entrant>, bracket: Option<Rounds>, named: Option<EntrantId>)
    : Result<Write, ServiceError>
  {
    match bracket
    case Some(R) =>
      if named.Some? then Err(UnexpectedWinner)
      else if ChampionOf(R).None? then Err(BracketIncomplete)
      else Ok(WriteStatus(view.status, Concluded, ChampionOf(R),
                          TournamentAwards(t, entrants, Some(R), None)))
    case None =>
      if named.Some? && named.value !in Ids(entrants) then Err(NotAnEntrant(named.value))
      else Ok(WriteStatus(view.status, Concluded, named, TournamentAwards(t, entrants, None, named)))
  }

  function PlanTransition(q: Request): Result<Write, ServiceError>
    requires q.intent.ChangeStatus? && Ready(q)
  {
    var view, to := q.view.value, q.intent.to;
    if view.status == to && q.intent.winner.None? then Ok(NoWrite)
    else if view.status != Concluded && to == Concluded then
      Conclusion(q.t, view, q.entrants.value, q.bracket.value, q.intent.winner)
    else if (view.status == Draft && to == Open)
         || ((view.status == Draft || view.status == Open) && to == Live)
         || (view.status == Live && to == Open && !view.hasBracket) then
      if q.intent.winner.Some? then Err(UnexpectedWinner)
      else Ok(WriteStatus(view.status, to, None, []))
    else Err(InvalidTransition)
  }

  function OrFail(error: Option<ServiceError>, write: Write): Result<Write, ServiceError> {
    match error
    case Some(e) => Err(e)
    case None => Ok(write)
  }

  function Plan(q: Request, chance: Chance): Result<Write, ServiceError>
    requires Ready(q)
  {
    match q.intent
    case EnterResult(op) =>
      if q.view.value.status == Concluded then Err(TournamentConcluded)
      else if q.bracket.value.None? then Err(MatchNotFound(op.id))
      else
        (match Apply(q.bracket.value.value, op)
         case Err(error) => Err(BadBracket(error))
         case Ok(_) => Ok(WriteResult(q.view.value.status, q.bracket.value.value, op)))
    case GenerateBracket =>
      (match RequireBracketEditable(q.view.value, q.bracket.value)
       case Some(error) => Err(error)
       case None => BuildBracket(q.view.value, Ids(DrawOrder(chance.shuffled)), chance.ids))
    case ReorderSeeds(order) =>
      (match RequireBracketEditable(q.view.value, q.bracket.value)
       case Some(error) => Err(error)
       case None =>
         if !q.view.value.hasBracket then Err(BracketMissing)
         else if SortBy(Ids(q.entrants.value), IdKey) != SortBy(order, IdKey) then Err(SeedOrderMismatch)
         else BuildBracket(q.view.value, order, chance.ids))
    case RemoveBracket => OrFail(RequireNotConcluded(q.view.value), WriteNoBracket(q.view.value.status))
    case ChangeStatus(_, _) => PlanTransition(q)
    case Register(player, skill, now) =>
      OrFail(RequireRegistrationOpen(q.view.value, now),
             WriteEntrant(chance.id, player, Some(skill), EntrantGuard(Open, Some(now))))
    case Retire(player, now) =>
      OrFail(RequireRegistrationOpen(q.view.value, now),
             WriteRetirement(player, EntrantGuard(Open, Some(now))))
    case EnrolPlayer(player, level) =>
      OrFail(RequireEntrantsEditable(q.view.value),
             WriteEntrant(chance.id, player, level, EntrantGuard(q.view.value.status, None)))
    case RemoveEntry(entrant) =>
      OrFail(RequireEntrantsEditable(q.view.value),
             WriteRemoval(entrant, EntrantGuard(q.view.value.status, None)))
    case EditFields(closesAt) =>
      OrFail(RequireNotConcluded(q.view.value), WriteFields(q.view.value.status, closesAt))
    case FixSkill(player, skill, guard) => Ok(WriteSkill(player, skill, guard))
  }

  // ---------- the guarded write ----------

  /** Each changed match beside the match as it was read. */
  function Pairs(read: Rounds, changed: seq<Match>): seq<(Match, Match)> {
    if changed == [] then []
    else
      (match Locate(read, changed[0].id)
       case Some((r, s)) => [(read[r][s], changed[0])]
       case None => []) + Pairs(read, changed[1..])
  }

  function ResultChanges(read: Rounds, op: Op): seq<(Match, Match)> {
    match Apply(read, op)
    case Ok(edit) => Pairs(read, edit.changed)
    case Err(_) => []
  }

  datatype Effect = Wrote | Unchanged | AlreadyEntered

  function FromBracketWrite(written: BracketWrite): Result<Effect, ServiceError> {
    match written
    case Done => Ok(Wrote)
    case Locked => Err(BracketLocked)
    case Changed => Err(TournamentChanged)
  }

  function FromBool(written: bool, otherwise: Result<Effect, ServiceError>): Result<Effect, ServiceError> {
    if written then Ok(Wrote) else otherwise
  }

  /** A write that touches one tournament and nothing else. */
  function WriteTour(players: map<PlayerId, bool>, tour: Tour, write: Write): (Tour, Result<Effect, ServiceError>)
    requires write.WriteBracket? ==> |write.order| >= 2
  {
    match write
    case NoWrite => (tour, Ok(Unchanged))
    case WriteResult(expected, read, op) =>
      var (after, written) := UpdateMatches(tour, expected, ResultChanges(read, op));
      (after, FromBool(written, Err(TournamentChanged)))
    case WriteBracket(expected, order, ids) =>
      var (after, written) := ReplaceBracket(tour, expected, order, Blank(order, ids));
      (after, FromBracketWrite(written))
    case WriteNoBracket(expected) =>
      var (after, written) := DeleteBracket(tour, expected);
      (after, FromBracketWrite(written))
    case WriteStatus(_, _, _, _) => (tour, Ok(Unchanged))
    case WriteEntrant(id, player, skill, guard) =>
      var (after, written) := AddEntrant(players, tour, id, player, skill, guard);
      (match written
       case Ok(New) => (after, Ok(Wrote))
       case Ok(Already) => (after, Ok(AlreadyEntered))
       case Ok(Refused) => (after, Err(TournamentFull))
       case Err(_) => (after, Err(PlayerNotFound(player))))
    case WriteSkill(player, level, guard) =>
      var (after, written) := SetSkill(tour, player, level, guard);
      (after, FromBool(written, Ok(Unchanged)))
    case WriteRemoval(entrant, guard) =>
      var (after, written) := RemoveEntrant(tour, entrant, guard);
      (after, FromBool(written, Ok(Unchanged)))
    case WriteRetirement(player, guard) =>
      var (after, written) := RemoveEntrantOf(tour, player, guard);
      (after, FromBool(written, Ok(Unchanged)))
    case WriteFields(expected, closesAt) =>
      var (after, written) := UpdateFields(tour, expected, closesAt);
      (after, FromBool(written, Err(TournamentChanged)))
  }

  function Execute(db: Db, t: TournamentId, write: Write): (Db, Result<Effect, ServiceError>)
    requires write.WriteBracket? ==> |write.order| >= 2
  {
    if write.WriteStatus? then
      var (after, written) := SetStatus(db, t, write.from, write.to, write.winner, write.awards);
      (after,
       match written
       case Ok(true) => Ok(Wrote)
       case Ok(false) => Err(TournamentChanged)
       case Err(ForeignKeyViolation) => Err(TournamentChanged)
       case Err(violation) => Err(StorageFailure(violation)))
    else if t !in db.tours then (db, Err(TournamentChanged))
    else
      var (tour, answer) := WriteTour(db.players, db.tours[t], write);
      (db.(tours := db.tours[t := tour]), answer)
  }

  // ---------- the world ----------

  /** The store, the requests in flight with what they have read, and three
      records that only the proofs use: the uuids handed out so far, the
      tournament each match id was made for, and the conclusions that committed. */
  datatype World = World(
    db: Db,
    requests: map<int, Request>,
    scans: map<int, (EventId, PlayerId)>,
    issued: set<int>,
    owner: map<MatchId, TournamentId>,
    conclusions: seq<TournamentId>)

  const START := World(Db(map[], map[], map[], map[], {}), map[], map[], {}, map[], [])

  datatype Action =
    | Begin(rid: int, t: TournamentId, intent: Intent)
    | ReadTour(rid: int)
    | ReadEntrants(rid: int, list: seq<Entrant>)
    | ReadMatches(rid: int, rows: seq<Match>)
    | Commit(rid: int, chance: Chance)
    | CreateTour(t: TournamentId, closesAt: int)
    | RemoveTour(t: TournamentId)
    | SignUp(p: PlayerId, admin: bool)
    | RemovePlayer(p: PlayerId)
    | CreateEvent(e: EventId, event: EventRow)
    | SetEventStatus(e: EventId, published: bool)
    | RemoveEvent(e: EventId)
    | Scan(rid: int, e: EventId, p: PlayerId, now: int)
    | ManualCheckin(rid: int, e: EventId, p: PlayerId)
    | RecordCheckin(rid: int, at: int)
    | UndoCheckin(e: EventId, p: PlayerId)
    | Adjust(id: int, p: PlayerId, amount: int)

  /** The rows a bounded read returns: distinct rows of the table, all of them
      when they fit the limit. */
  ghost predicate ListsEntrants(list: seq<Entrant>, rows: map<EntrantId, EntrantRow>) {
    && NoDup(Ids(list))
    && |list| == (if |rows| < MAX_ENTRANTS then |rows| else MAX_ENTRANTS)
    && forall i :: 0 <= i < |list| ==>
         && list[i].id in rows
         && list[i] == Entrant(list[i].id, rows[list[i].id].player, rows[list[i].id].seed, rows[list[i].id].skill)
  }

  function MatchIds(ms: seq<Match>): seq<MatchId> {
    seq(|ms|, i requires 0 <= i < |ms| => ms[i].id)
  }

  ghost predicate ListsMatches(list: seq<Match>, rows: MatchTable) {
    && NoDup(MatchIds(list))
    && |list| == (if |rows| < MAX_ENTRANTS then |rows| else MAX_ENTRANTS)
    && forall i :: 0 <= i < |list| ==> list[i].id in rows && list[i] == rows[list[i].id]
  }

  function EntrantsOf(db: Db, t: TournamentId): map<EntrantId, EntrantRow> {
    if t in db.tours then db.tours[t].entrants else map[]
  }

  function MatchesOf(db: Db, t: TournamentId): MatchTable {
    if t in db.tours then db.tours[t].matches else map[]
  }

  function FlatIds(R: Rounds): set<MatchId> {
    set m | m in Flat(R) :: m.id
  }

  /** Chance is fair to the model: ids are fresh, and a shuffle is a
      permutation of the entrants that were read. */
  ghost predicate FairChance(w: World, q: Request, chance: Chance)
    requires Ready(q)
  {
    && (q.intent.GenerateBracket? ==> multiset(chance.shuffled) == multiset(q.entrants.value))
    && match Plan(q, chance)
       case Ok(WriteEntrant(id, _, _, _)) => id !in w.issued
       case Ok(WriteBracket(_, order, ids)) =>
         |order| >= 2 && Supply(ids, |order|) && FlatIds(Blank(order, ids)) !! w.issued
       case _ => true
  }

  /** The request is over, unless a second registration still has to correct the
      level of the entry it found. */
  function AfterWrite(w: World, rid: int, write: Write, answer: Result<Effect, ServiceError>): map<int, Request>
    requires rid in w.requests
  {
    var q := w.requests[rid];
    if write.WriteEntrant? && answer == Ok(AlreadyEntered) && write.skill.Some? then
      w.requests[rid := Request(q.t, FixSkill(write.player, write.skill.value, write.guard), None, None, None)]
    else w.requests - {rid}
  }

  function OwnerMap(R: Rounds, t: TournamentId): map<MatchId, TournamentId> {
    map id | id in FlatIds(R) :: t
  }

  /** A request ends: it decides on its snapshot and makes its write. */
  ghost function CommitRequest(w: World, rid: int, chance: Chance): World
    requires rid in w.requests && Ready(w.requests[rid]) && FairChance(w, w.requests[rid], chance)
  {
    var q := w.requests[rid];
    match Plan(q, chance)
    case Err(_) => w.(requests := w.requests - {rid})
    case Ok(write) =>
      var (db, answer) := Execute(w.db, q.t, write);
      var w1 := w.(db := db, requests := AfterWrite(w, rid, write, answer));
      if answer != Ok(Wrote) then w1
      else if write.WriteEntrant? then w1.(issued := w.issued + {write.id})
      else if write.WriteBracket? then
        var R := Blank(write.order, write.ids);
        w1.(issued := w.issued + FlatIds(R), owner := w.owner + OwnerMap(R, q.t))
      else if write.WriteStatus? && write.to == Concluded then
        w1.(conclusions := w.conclusions + [q.t])
      else w1
  }

  ghost function Next(w: World, action: Action): World {
    match action
    case Begin(rid, t, intent) =>
      if rid in w.requests || intent.FixSkill? then w
      else w.(requests := w.requests[rid := Request(t, intent, None, None, None)])
    case ReadTour(rid) =>
      if rid !in w.requests then w
      else
        var q := w.requests[rid];
        if q.t !in w.db.tours then w.(requests := w.requests - {rid})
        else
          var tour := w.db.tours[q.t];
          w.(requests := w.requests[rid :=
               q.(view := Some(ViewOf(tour)))])
    case ReadEntrants(rid, list) =>
      if rid !in w.requests || !ListsEntrants(list, EntrantsOf(w.db, w.requests[rid].t)) then w
      else w.(requests := w.requests[rid := w.requests[rid].(entrants := Some(list))])
    case ReadMatches(rid, rows) =>
      if rid !in w.requests || !ListsMatches(rows, MatchesOf(w.db, w.requests[rid].t)) then w
      else if rows == [] then w.(requests := w.requests[rid := w.requests[rid].(bracket := Some(None))])
      else
        (match Regrouped(rows)
         case Some(R) => w.(requests := w.requests[rid := w.requests[rid].(bracket := Some(Some(R)))])
         case None => w.(requests := w.requests - {rid}))
    case Commit(rid, chance) =>
      if rid in w.requests && Ready(w.requests[rid]) && FairChance(w, w.requests[rid], chance) then
        CommitRequest(w, rid, chance)
      else w
    case CreateTour(t, closesAt) =>
      if t in w.issued then w
      else w.(db := w.db.(tours := w.db.tours[t := Tour(Draft, closesAt, None, map[], map[])]),
              issued := w.issued + {t})
    case RemoveTour(t) => w.(db := DeleteTour(w.db, t))
    case SignUp(p, admin) =>
      if p in w.issued then w
      else w.(db := w.db.(players := w.db.players[p := admin]), issued := w.issued + {p})
    case RemovePlayer(p) => w.(db := DeletePlayer(w.db, p))
    case CreateEvent(e, event) =>
      if e in w.issued then w
      else w.(db := w.db.(events := w.db.events[e := event]), issued := w.issued + {e})
    case SetEventStatus(e, published) =>
      if e !in w.db.events then w
      else w.(db := w.db.(events := w.db.events[e := w.db.events[e].(published := published)]))
    case RemoveEvent(e) => w.(db := DeleteEvent(w.db, e))
    case Scan(rid, e, p, now) =>
      if rid in w.scans || e !in w.db.events || !w.db.events[e].published
         || !(w.db.events[e].startsAt <= now < w.db.events[e].endsAt) then w
      else w.(scans := w.scans[rid := (e, p)])
    case ManualCheckin(rid, e, p) =>
      if rid in w.scans || e !in w.db.events || p !in w.db.players then w
      else w.(scans := w.scans[rid := (e, p)])
    case RecordCheckin(rid, at) =>
      if rid !in w.scans then w
      else
        var (e, p) := w.scans[rid];
        w.(db := CheckIn(w.db, e, p, at).0, scans := w.scans - {rid})
    case UndoCheckin(e, p) =>
      if e !in w.db.events then w else w.(db := RemoveCheckin(w.db, e, p).0)
    case Adjust(id, p, amount) =>
      if id in w.issued then w
      else w.(db := AddAdjustment(w.db, id, p, amount).0, issued := w.issued + {id})
  }

  ghost function Play(w: World, actions: seq<Action>): World {
    if actions == [] then w
    else Next(Play(w, actions[..|actions| - 1]), actions[|actions| - 1])
  }
}
