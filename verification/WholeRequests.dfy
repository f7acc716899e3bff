/** What a request does when nobody else moves between its first read and its
    commit: for each kind of request exactly when it takes effect, in terms of the
    rows that are stored, and what it leaves. */
module WholeRequests {
  import opened Basics
  import opened Brackets
  import opened Entrants
  import opened Points
  import opened Seeding
  import opened Tables
  import opened Protocol
  import opened Store
  import opened StoreInvariants
  import opened StoreWrites
  import opened WorldInvariant
  import opened WorldSteps
  import opened Guarantees
  import opened Guards
  import opened Decisions
  import opened RequestRuns
  import opened Overtaking

  /** Begin, read the tournament, commit. */
  function Steps(rid: int, t: TournamentId, intent: Intent, chance: Chance): seq<Action> {
    [Begin(rid, t, intent), ReadTour(rid), Commit(rid, chance)]
  }

  /** The request as it stands before its commit. */
  function Loaded(w: World, t: TournamentId, intent: Intent): Request
    requires t in w.db.tours
  {
    Request(t, intent, Some(ViewOf(w.db.tours[t])), None, None)
  }

  ghost predicate ReadsTourOnly(intent: Intent) {
    !intent.FixSkill? && !ReadsBracket(intent) && !ReadsEntrants(intent)
  }

  lemma ChanceIsFair(w: World, q: Request, chance: Chance)
    requires Ready(q) && ReadsTourOnly(q.intent) && chance.id !in w.issued
    ensures FairChance(w, q, chance)
  {
  }

  lemma Alone(w: World, rid: int, t: TournamentId, intent: Intent, chance: Chance)
    requires t in w.db.tours && rid !in w.requests && ReadsTourOnly(intent) && chance.id !in w.issued
    ensures var w1 := With(w, rid, Loaded(w, t, intent));
      && Ready(Loaded(w, t, intent)) && FairChance(w1, Loaded(w, t, intent), chance)
      && Play(w, Steps(rid, t, intent, chance)) == CommitRequest(w1, rid, chance)
  {
    var q := Loaded(w, t, intent);
    var w1 := With(w, rid, q);
    BeginThenReadTour(w, rid, t, intent);
    ChanceIsFair(w1, q, chance);
    NextIsCommit(w1, rid, chance);
    var load := [Begin(rid, t, intent), ReadTour(rid)];
    OneMoreStep(w, load, Commit(rid, chance));
    assert load + [Commit(rid, chance)] == Steps(rid, t, intent, chance);
  }

  /** A request that is refused leaves the store as it was. */
  lemma AloneRefused(w: World, rid: int, t: TournamentId, intent: Intent, chance: Chance)
    requires t in w.db.tours && rid !in w.requests && ReadsTourOnly(intent) && chance.id !in w.issued
    requires Plan(Loaded(w, t, intent), chance).Err?
    ensures Play(w, Steps(rid, t, intent, chance)).db == w.db
  {
    Alone(w, rid, t, intent, chance);
  }

  lemma AloneWrites(w: World, rid: int, t: TournamentId, intent: Intent, chance: Chance)
    requires t in w.db.tours && rid !in w.requests && ReadsTourOnly(intent) && chance.id !in w.issued
    requires Plan(Loaded(w, t, intent), chance).Ok?
    ensures Play(w, Steps(rid, t, intent, chance)).db ==
            Execute(w.db, t, Plan(Loaded(w, t, intent), chance).value).0
  {
    Alone(w, rid, t, intent, chance);
    CommitWrites(With(w, rid, Loaded(w, t, intent)), rid, chance);
  }

  /** The request is over, unless it is a registration that still has to set a level. */
  lemma AloneEnds(w: World, rid: int, t: TournamentId, intent: Intent, chance: Chance)
    requires t in w.db.tours && rid !in w.requests && ReadsTourOnly(intent) && chance.id !in w.issued
    requires intent.Register? ==> !HasEntry(w.db.tours[t], intent.player)
    requires !intent.EnrolPlayer?
    ensures Play(w, Steps(rid, t, intent, chance)).requests == w.requests
  {
    var q := Loaded(w, t, intent);
    var w1 := With(w, rid, q);
    Alone(w, rid, t, intent, chance);
    assert w1.requests - {rid} == w.requests;
    CommitEnds(w1, rid, chance);
    if intent.Register? && Plan(q, chance).Ok? {
      NewPlayerIsNotIn(w.db, t, Plan(q, chance).value);
    }
  }

  lemma CommitEnds(w: World, rid: int, chance: Chance)
    requires rid in w.requests && Ready(w.requests[rid]) && FairChance(w, w.requests[rid], chance)
    ensures CommitRequest(w, rid, chance).requests ==
            match Plan(w.requests[rid], chance)
            case Err(_) => w.requests - {rid}
            case Ok(write) => AfterWrite(w, rid, write, Execute(w.db, w.requests[rid].t, write).1)
  {
  }

  lemma NewPlayerIsNotIn(db: Db, t: TournamentId, write: Write)
    requires t in db.tours && write.WriteEntrant? && !HasEntry(db.tours[t], write.player)
    ensures Execute(db, t, write).1 != Ok(AlreadyEntered)
  {
  }

  lemma AloneWritesTour(w: World, rid: int, t: TournamentId, intent: Intent, chance: Chance, write: Write)
    requires t in w.db.tours && rid !in w.requests && ReadsTourOnly(intent) && chance.id !in w.issued
    requires Plan(Loaded(w, t, intent), chance) == Ok(write) && !write.WriteStatus? && !write.WriteBracket?
    ensures Play(w, Steps(rid, t, intent, chance)).db ==
            w.db.(tours := w.db.tours[t := WriteTour(w.db.players, w.db.tours[t], write).0])
  {
    AloneWrites(w, rid, t, intent, chance);
  }

  lemma SameTour(db: Db, t: TournamentId)
    requires t in db.tours
    ensures db.(tours := db.tours[t := db.tours[t]]) == db
  {
    assert db.tours[t := db.tours[t]] == db.tours;
  }

  // ---------- entries ----------

  /** A registration puts the player in exactly when the tournament is open, the
      deadline is ahead, no match is stored, the player is not in yet, a place is
      free and the account exists. The entry has the level that was given. */
  lemma RegisterAlone(
      w: World, rid: int, t: TournamentId, player: PlayerId, skill: int, now: int, chance: Chance)
    requires t in w.db.tours && rid !in w.requests && chance.id !in w.issued
    ensures var tour := w.db.tours[t];
      var db' := Play(w, Steps(rid, t, Register(player, skill, now), chance)).db;
      var has := exists e :: e in tour.entrants && tour.entrants[e].player == Some(player);
      db' ==
      if tour.status == Open && now < tour.closesAt && tour.matches == map[] && !has
         && |tour.entrants| < 256 && player in w.db.players then
        w.db.(tours := w.db.tours[t := tour.(
                entrants := tour.entrants[chance.id := EntrantRow(Some(player), None, Some(skill))])])
      else w.db
  {
    var intent := Register(player, skill, now);
    PlayersDecision(Loaded(w, t, intent), chance);
    SameTour(w.db, t);
    if Plan(Loaded(w, t, intent), chance).Ok? {
      AloneWritesTour(w, rid, t, intent, chance, WriteEntrant(chance.id, player, Some(skill), EntrantGuard(Open, Some(now))));
      EntryAnswers(w.db.players, w.db.tours[t], chance.id, player, Some(skill), Open, Some(now));
    } else {
      AloneRefused(w, rid, t, intent, chance);
    }
  }

  /** A player who is in already gets the level of the second registration: the
      request makes one more write, and then it is over. */
  lemma RegisterAgain(
      w: World, rid: int, t: TournamentId, player: PlayerId, skill: int, now: int, chance: Chance)
    requires t in w.db.tours && rid !in w.requests && chance.id !in w.issued
    requires w.db.tours[t].status == Open && now < w.db.tours[t].closesAt && w.db.tours[t].matches == map[]
    requires exists e :: e in w.db.tours[t].entrants && w.db.tours[t].entrants[e].player == Some(player)
    ensures var w' := Play(w, Steps(rid, t, Register(player, skill, now), chance) + [Commit(rid, chance)]);
      && w'.requests == w.requests && t in w'.db.tours
      && w'.db == w.db.(tours := w.db.tours[t := w'.db.tours[t]])
      && SkillSet(w.db.tours[t], w'.db.tours[t], player, skill)
  {
    var intent := Register(player, skill, now);
    var q := Loaded(w, t, intent);
    var guard := EntrantGuard(Open, Some(now));
    var tour := w.db.tours[t];
    PlayersDecision(q, chance);
    EntryAnswers(w.db.players, tour, chance.id, player, Some(skill), Open, Some(now));
    Alone(w, rid, t, intent, chance);
    var w1 := With(w, rid, q);
    CommitShape(w1, rid, chance);
    var fix := Request(t, FixSkill(player, skill, guard), None, None, None);
    var w2 := CommitRequest(w1, rid, chance);
    SameTour(w.db, t);
    assert w2.requests == w.requests[rid := fix] && w2.db == w.db;
    assert w2 == With(w, rid, fix);
    LevelStep(w, rid, t, player, skill, guard, chance);
    OneMoreStep(w, Steps(rid, t, intent, chance), Commit(rid, chance));
  }

  /** The second write of such a registration. */
  lemma LevelStep(
      w: World, rid: int, t: TournamentId, player: PlayerId, skill: int, guard: EntrantGuard, chance: Chance)
    requires t in w.db.tours && rid !in w.requests && SetSkill(w.db.tours[t], player, skill, guard).1
    ensures var w' := Next(With(w, rid, Request(t, FixSkill(player, skill, guard), None, None, None)), Commit(rid, chance));
      && w'.requests == w.requests && t in w'.db.tours
      && w'.db == w.db.(tours := w.db.tours[t := w'.db.tours[t]])
      && SkillSet(w.db.tours[t], w'.db.tours[t], player, skill)
  {
    var q := Request(t, FixSkill(player, skill, guard), None, None, None);
    var w1 := With(w, rid, q);
    NextIsCommit(w1, rid, chance);
    CommitShape(w1, rid, chance);
    assert w1.requests - {rid} == w.requests;
  }

  /** A retirement takes the player out under the same conditions of time. */
  lemma RetireAlone(w: World, rid: int, t: TournamentId, player: PlayerId, now: int, chance: Chance)
    requires t in w.db.tours && rid !in w.requests && chance.id !in w.issued
    ensures var tour := w.db.tours[t];
      var db' := Play(w, Steps(rid, t, Retire(player, now), chance)).db;
      var has := exists e :: e in tour.entrants && tour.entrants[e].player == Some(player);
      if tour.status == Open && now < tour.closesAt && tour.matches == map[] && has then
        && t in db'.tours && db' == w.db.(tours := w.db.tours[t := db'.tours[t]])
        && EntriesGone(tour, db'.tours[t], EntriesOfPlayer(tour, player))
      else db' == w.db
  {
    var intent := Retire(player, now);
    PlayersDecision(Loaded(w, t, intent), chance);
    SameTour(w.db, t);
    if Plan(Loaded(w, t, intent), chance).Ok? {
      AloneWritesTour(w, rid, t, intent, chance, WriteRetirement(player, EntrantGuard(Open, Some(now))));
      EntryChangeAnswers(w.db.tours[t], player, 0, 0, Open, Some(now));
    } else {
      AloneRefused(w, rid, t, intent, chance);
    }
  }

  /** An organiser enters a player whatever the deadline, as long as the tournament
      is not concluded and no match is stored. */
  lemma EnrolAlone(w: World, rid: int, t: TournamentId, player: PlayerId, level: Option<int>, chance: Chance)
    requires t in w.db.tours && rid !in w.requests && chance.id !in w.issued
    ensures var tour := w.db.tours[t];
      var db' := Play(w, Steps(rid, t, EnrolPlayer(player, level), chance)).db;
      var has := exists e :: e in tour.entrants && tour.entrants[e].player == Some(player);
      db' ==
      if tour.status != Concluded && tour.matches == map[] && !has && |tour.entrants| < 256
         && player in w.db.players then
        w.db.(tours := w.db.tours[t := tour.(
                entrants := tour.entrants[chance.id := EntrantRow(Some(player), None, level)])])
      else w.db
  {
    var intent := EnrolPlayer(player, level);
    OrganisersDecision(Loaded(w, t, intent), chance);
    SameTour(w.db, t);
    if Plan(Loaded(w, t, intent), chance).Ok? {
      AloneWritesTour(w, rid, t, intent, chance, WriteEntrant(chance.id, player, level, EntrantGuard(w.db.tours[t].status, None)));
      EntryAnswers(w.db.players, w.db.tours[t], chance.id, player, level, w.db.tours[t].status, None);
    } else {
      AloneRefused(w, rid, t, intent, chance);
    }
  }

  lemma RemoveEntryAlone(w: World, rid: int, t: TournamentId, entrant: EntrantId, chance: Chance)
    requires t in w.db.tours && rid !in w.requests && chance.id !in w.issued
    ensures var tour := w.db.tours[t];
      var db' := Play(w, Steps(rid, t, RemoveEntry(entrant), chance)).db;
      if tour.status != Concluded && tour.matches == map[] && entrant in tour.entrants then
        && t in db'.tours && db' == w.db.(tours := w.db.tours[t := db'.tours[t]])
        && EntriesGone(tour, db'.tours[t], {entrant})
      else db' == w.db
  {
    var intent := RemoveEntry(entrant);
    OrganisersDecision(Loaded(w, t, intent), chance);
    SameTour(w.db, t);
    if Plan(Loaded(w, t, intent), chance).Ok? {
      AloneWritesTour(w, rid, t, intent, chance, WriteRemoval(entrant, EntrantGuard(w.db.tours[t].status, None)));
      EntryChangeAnswers(w.db.tours[t], 0, 0, entrant, w.db.tours[t].status, None);
    } else {
      AloneRefused(w, rid, t, intent, chance);
    }
  }

  // ---------- the tournament row ----------

  /** A deadline that is given is stored until the tournament is concluded. */
  lemma EditAlone(w: World, rid: int, t: TournamentId, closesAt: Option<int>, chance: Chance)
    requires t in w.db.tours && rid !in w.requests && chance.id !in w.issued
    ensures var tour := w.db.tours[t];
      Play(w, Steps(rid, t, EditFields(closesAt), chance)).db ==
      if tour.status != Concluded && closesAt.Some? then
        w.db.(tours := w.db.tours[t := tour.(closesAt := closesAt.value)])
      else w.db
  {
    var intent := EditFields(closesAt);
    OrganisersDecision(Loaded(w, t, intent), chance);
    SameTour(w.db, t);
    if Plan(Loaded(w, t, intent), chance).Ok? {
      AloneWritesTour(w, rid, t, intent, chance, WriteFields(w.db.tours[t].status, closesAt));
      FieldAnswers(w.db.tours[t], w.db.tours[t].status, closesAt);
    } else {
      AloneRefused(w, rid, t, intent, chance);
    }
  }

  /** A move that does not conclude stores the new status exactly when it is one of
      the plain moves and names no winner, and changes nothing else. */
  lemma MoveAlone(w: World, rid: int, t: TournamentId, to: Status, named: Option<EntrantId>, chance: Chance)
    requires t in w.db.tours && rid !in w.requests && chance.id !in w.issued && to != Concluded
    ensures var tour := w.db.tours[t];
      Play(w, Steps(rid, t, ChangeStatus(to, named), chance)).db ==
      if named == None && PlainMove(tour.status, to, tour.matches != map[]) then
        w.db.(tours := w.db.tours[t := tour.(status := to, winner := None)])
      else w.db
  {
    var intent := ChangeStatus(to, named);
    var q := Loaded(w, t, intent);
    MoveDecision(q, chance);
    SameTour(w.db, t);
    if Plan(q, chance).Ok? {
      AloneWrites(w, rid, t, intent, chance);
    } else {
      AloneRefused(w, rid, t, intent, chance);
    }
  }

  // ---------- conclusions ----------

  lemma CommitAfter(w: World, load: seq<Action>, rid: int, q: Request, chance: Chance)
    requires Play(w, load) == With(w, rid, q) && Ready(q) && FairChance(w, q, chance)
    ensures FairChance(With(w, rid, q), q, chance)
    ensures Play(w, load + [Commit(rid, chance)]) == CommitRequest(With(w, rid, q), rid, chance)
  {
    OneMoreStep(w, load, Commit(rid, chance));
    NextIsCommit(With(w, rid, q), rid, chance);
  }

  /** The conclusion of a tournament with a bracket. It goes through exactly when
      the tournament is not concluded, nobody is named and the last round has a
      winner, and then it stores that winner and pays the awards of the bracket. */
  lemma ConcludeWithBracketAlone(
      w: World, rid: int, t: TournamentId, named: Option<EntrantId>, list: seq<Entrant>, rows: seq<Match>,
      order: seq<EntrantId>, C: Rounds, chance: Chance)
    returns (actions: seq<Action>)
    requires Reachable(w) && t in w.db.tours && rid !in w.requests && Holds(w.db.tours[t], order, C)
    requires ListsEntrants(list, w.db.tours[t].entrants) && ListsMatches(rows, w.db.tours[t].matches)
    ensures var tour, winner := w.db.tours[t], C[|C| - 1][0].winner;
      Play(w, actions).db ==
      if tour.status != Concluded && named == None && winner.Some? then
        w.db.(tours := w.db.tours[t := tour.(status := Concluded, winner := winner)],
              ledger := w.db.ledger + EntriesOf(TournamentAwards(t, list, Some(C), None), Some(t), None))
      else w.db
  {
    ReachableIsOk(w);
    var tour, view := w.db.tours[t], ViewOf(w.db.tours[t]);
    assert TourOk(w.owner, t, tour);
    BlankRowsNotEmpty(order, C, tour.matches);
    var intent := ChangeStatus(Concluded, named);
    var load := LoadWithBracket(w, rid, t, intent, list, rows, order, C);
    var q := Request(t, intent, Some(view), Some(list), Some(Some(C)));
    actions := load + [Commit(rid, chance)];
    MoveDecision(q, chance);
    CommitAfter(w, load, rid, q, chance);
    var w1 := With(w, rid, q);
    if tour.status != Concluded && named == None && C[|C| - 1][0].winner.Some? {
      PlayKeepsWorld(w, load);
      ReadGivesEveryEntrant(list, tour.entrants);
      EntriesNameAccounts(w, t);
      ListNamesAccounts(list, w.db.players, tour);
      StoredSnapshotIsOwned(w.owner, t, tour, order, C);
      ChampionIsAnEntrant(tour, order, C);
      StaleConclusionCommits(w1, t, tour.status, list, Some(C), None, ChampionOf(C));
      ConclusionCommit(w1, rid, t, view, list, Some(C), None, chance);
      NextIsCommit(w1, rid, chance);
    } else {
      NothingPlanned(w1, rid, chance);
    }
  }

  /** A commit that was refused, or that found the status asked for. */
  lemma NothingPlanned(w: World, rid: int, chance: Chance)
    requires rid in w.requests && Ready(w.requests[rid]) && FairChance(w, w.requests[rid], chance)
    requires Plan(w.requests[rid], chance).Err? || Plan(w.requests[rid], chance) == Ok(NoWrite)
    ensures CommitRequest(w, rid, chance).db == w.db
  {
    var t := w.requests[rid].t;
    if Plan(w.requests[rid], chance).Ok? {
      CommitWrites(w, rid, chance);
      if t in w.db.tours {
        SameTour(w.db, t);
      }
    }
  }

  /** The conclusion of a tournament without a bracket. It goes through exactly when
      the tournament is not concluded and a winner who is named is an entrant. */
  lemma ConcludeWithoutBracketAlone(
      w: World, rid: int, t: TournamentId, named: Option<EntrantId>, list: seq<Entrant>, chance: Chance)
    returns (actions: seq<Action>)
    requires Reachable(w) && t in w.db.tours && rid !in w.requests && w.db.tours[t].matches == map[]
    requires ListsEntrants(list, w.db.tours[t].entrants)
    ensures var tour := w.db.tours[t];
      Play(w, actions).db ==
      if tour.status != Concluded && (named.Some? ==> named.value in tour.entrants) then
        w.db.(tours := w.db.tours[t := tour.(status := Concluded, winner := named)],
              ledger := w.db.ledger + EntriesOf(TournamentAwards(t, list, None, named), Some(t), None))
      else w.db
  {
    ReachableIsOk(w);
    var tour, view := w.db.tours[t], ViewOf(w.db.tours[t]);
    assert TourOk(w.owner, t, tour);
    var intent := ChangeStatus(Concluded, named);
    var load := LoadWithoutBracket(w, rid, t, intent, list);
    var q := Request(t, intent, Some(view), Some(list), Some(None));
    actions := load + [Commit(rid, chance)];
    MoveDecision(q, chance);
    CommitAfter(w, load, rid, q, chance);
    var w1 := With(w, rid, q);
    ReadGivesEveryEntrant(list, tour.entrants);
    assert named.Some? ==> (named.value in tour.entrants <==> named.value in Elements(Ids(list)));
    if named.Some? {
      IdIsListed(list, named.value);
    }
    if tour.status != Concluded && (named.Some? ==> named.value in tour.entrants) {
      PlayKeepsWorld(w, load);
      EntriesNameAccounts(w, t);
      ListNamesAccounts(list, w.db.players, tour);
      StaleConclusionCommits(w1, t, tour.status, list, None, named, named);
      ConclusionCommit(w1, rid, t, view, list, None, named, chance);
      NextIsCommit(w1, rid, chance);
    } else {
      NothingPlanned(w1, rid, chance);
    }
  }

  // ---------- brackets ----------

  /** The removal of a bracket goes through exactly when the tournament is not
      concluded and no stored match is played. */
  lemma RemoveBracketAlone(w: World, rid: int, t: TournamentId, chance: Chance)
    requires t in w.db.tours && rid !in w.requests && chance.id !in w.issued
    ensures var tour := w.db.tours[t];
      var db' := Play(w, Steps(rid, t, RemoveBracket, chance)).db;
      if tour.status != Concluded && !HasAResult(tour.matches) then
        && t in db'.tours && db' == w.db.(tours := w.db.tours[t := db'.tours[t]])
        && db'.tours[t] == tour.(matches := map[], entrants := db'.tours[t].entrants)
        && db'.tours[t].entrants.Keys == tour.entrants.Keys
        && forall e :: e in tour.entrants ==> db'.tours[t].entrants[e] == tour.entrants[e].(seed := None)
      else db' == w.db
  {
    OrganisersDecision(Loaded(w, t, RemoveBracket), chance);
    SameTour(w.db, t);
    if Plan(Loaded(w, t, RemoveBracket), chance).Ok? {
      AloneWrites(w, rid, t, RemoveBracket, chance);
      BracketAnswers(w.db.tours[t], w.db.tours[t].status, [], []);
    } else {
      AloneRefused(w, rid, t, RemoveBracket, chance);
    }
  }

  lemma StoredResults(tour: Tour, order: seq<EntrantId>, C: Rounds)
    requires Holds(tour, order, C)
    ensures ReadAResult(Some(C)) <==> HasAResult(tour.matches)
  {
    if ReadAResult(Some(C)) {
      var r, s :| At(C, r, s) && C[r][s].IsReady() && C[r][s].winner.Some?;
      assert tour.matches[C[r][s].id] == C[r][s];
    }
    if HasAResult(tour.matches) {
      var id :| id in tour.matches && tour.matches[id].a.Some? && tour.matches[id].b.Some?
                && tour.matches[id].winner.Some?;
      var (r, s) := Locate(C, id).value;
      assert At(C, r, s) && tour.matches[id] == C[r][s];
    }
  }

  /** A draw, or the reordering into `order`. */
  ghost predicate BuildsOrder(intent: Intent, chance: Chance, order: seq<EntrantId>, list: seq<Entrant>) {
    || (intent.GenerateBracket? && order == Ids(DrawOrder(chance.shuffled)) && multiset(chance.shuffled) == multiset(list))
    || intent == ReorderSeeds(order)
  }

  /** When a rebuild on a current read goes through. */
  ghost predicate CanRebuild(tour: Tour, intent: Intent, order: seq<EntrantId>, list: seq<Entrant>) {
    && tour.status == Live && !HasAResult(tour.matches) && 2 <= |order| <= 256
    && multiset(order) == multiset(Ids(list))
    && (intent.ReorderSeeds? ==> tour.matches != map[])
  }

  lemma RebuildDecision(tour: Tour, q: Request, chance: Chance, order: seq<EntrantId>, list: seq<Entrant>)
    requires q.view == Some(ViewOf(tour)) && q.entrants == Some(list) && q.bracket.Some?
    requires q.intent.GenerateBracket? || q.intent.ReorderSeeds?
    requires BuildsOrder(q.intent, chance, order, list)
    requires ReadAResult(q.bracket.value) <==> HasAResult(tour.matches)
    ensures CanRebuild(tour, q.intent, order, list) ==> Plan(q, chance) == Ok(WriteBracket(Live, order, chance.ids))
    ensures !CanRebuild(tour, q.intent, order, list) ==> Plan(q, chance).Err?
  {
    if q.intent.GenerateBracket? {
      DrawDecision(q, chance);
      DrawnIds(list, chance.shuffled);
      var draw := DrawOrder(chance.shuffled);
      assert |multiset(draw)| == |draw| && |multiset(chance.shuffled)| == |chance.shuffled|;
    } else {
      ReorderDecision(q, chance);
    }
  }

  /** A rebuild on a current read goes through exactly when the tournament is live,
      no stored match is played, the field has 2 to 256 entrants, and an order that
      is given is a permutation of them and replaces a bracket. Then the store holds
      the new bracket of that order. */
  lemma RebuildAlone(
      w: World, rid: int, t: TournamentId, intent: Intent, list: seq<Entrant>, rows: seq<Match>,
      order: seq<EntrantId>, chance: Chance)
    returns (actions: seq<Action>)
    requires Reachable(w) && t in w.db.tours && rid !in w.requests
    requires intent.GenerateBracket? || intent.ReorderSeeds?
    requires ListsEntrants(list, w.db.tours[t].entrants) && ListsMatches(rows, w.db.tours[t].matches)
    requires BuildsOrder(intent, chance, order, list)
    requires |order| >= 2 ==> Supply(chance.ids, |order|) && FlatIds(Blank(order, chance.ids)) !! w.issued
    ensures var tour, db' := w.db.tours[t], Play(w, actions).db;
      if CanRebuild(tour, intent, order, list) then
        && t in db'.tours && db' == w.db.(tours := w.db.tours[t := db'.tours[t]])
        && Holds(db'.tours[t], order, Blank(order, chance.ids))
        && db'.tours[t] ==
             tour.(matches := db'.tours[t].matches, entrants := WithSeeds(tour.entrants, order))
      else db' == w.db
  {
    ReachableIsOk(w);
    var tour := w.db.tours[t];
    assert TourOk(w.owner, t, tour);
    var load, bracket := LoadRebuild(w, rid, t, intent, list, rows);
    var q := Request(t, intent, Some(ViewOf(tour)), Some(list), Some(bracket));
    actions := load + [Commit(rid, chance)];
    RebuildDecision(tour, q, chance, order, list);
    CommitAfter(w, load, rid, q, chance);
    var w1 := With(w, rid, q);
    if CanRebuild(tour, intent, order, list) {
      RebuildCommits(w1, rid, t, list, order, chance);
    } else {
      NothingPlanned(w1, rid, chance);
    }
  }

  lemma LoadRebuild(w: World, rid: int, t: TournamentId, intent: Intent, list: seq<Entrant>, rows: seq<Match>)
    returns (load: seq<Action>, bracket: Option<Rounds>)
    requires t in w.db.tours && rid !in w.requests && BracketOk(w.db.tours[t]) && !intent.FixSkill?
    requires ListsEntrants(list, w.db.tours[t].entrants) && ListsMatches(rows, w.db.tours[t].matches)
    ensures Play(w, load) ==
            With(w, rid, Request(t, intent, Some(ViewOf(w.db.tours[t])), Some(list), Some(bracket)))
    ensures ReadAResult(bracket) <==> HasAResult(w.db.tours[t].matches)
  {
    var tour := w.db.tours[t];
    if tour.matches == map[] {
      load := LoadWithoutBracket(w, rid, t, intent, list);
      bracket := None;
    } else {
      var seeds, C :| Holds(tour, seeds, C);
      load := LoadWithBracket(w, rid, t, intent, list, rows, seeds, C);
      bracket := Some(C);
      StoredResults(tour, seeds, C);
    }
  }

  lemma RebuildCommits(w: World, rid: int, t: TournamentId, list: seq<Entrant>, order: seq<EntrantId>, chance: Chance)
    requires t in w.db.tours && rid in w.requests && w.requests[rid].t == t && Ready(w.requests[rid])
    requires FairChance(w, w.requests[rid], chance)
    requires Plan(w.requests[rid], chance) == Ok(WriteBracket(Live, order, chance.ids))
    requires OnePerPlayer(w.db.tours[t].entrants) && |w.db.tours[t].entrants| <= MAX_ENTRANTS
    requires ListsEntrants(list, w.db.tours[t].entrants) && multiset(order) == multiset(Ids(list))
    requires w.db.tours[t].status == Live && !HasAResult(w.db.tours[t].matches)
    requires 2 <= |order| <= MAX_ENTRANTS && Supply(chance.ids, |order|)
    ensures var tour, db' := w.db.tours[t], CommitRequest(w, rid, chance).db;
      && t in db'.tours && db' == w.db.(tours := w.db.tours[t := db'.tours[t]])
      && Holds(db'.tours[t], order, Blank(order, chance.ids))
      && db'.tours[t] == tour.(matches := db'.tours[t].matches, entrants := WithSeeds(tour.entrants, order))
  {
    var tour := w.db.tours[t];
    ReadGivesEveryEntrant(list, tour.entrants);
    PermutationKeepsNoDup(Ids(list), order);
    forall e | e in order ensures e in tour.entrants {
      assert e in Elements(order);
    }
    BracketAnswers(tour, Live, order, Blank(order, chance.ids));
    RebuiltHolds(tour, Live, order, chance.ids);
    CommitWrites(w, rid, chance);
  }
}
