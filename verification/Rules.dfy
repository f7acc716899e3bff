/** Three rules that no constraint of the schema holds, and for each of them the
    one kind of commit that breaks it. Each condition is about rows that are
    stored when the commit begins, so the commit itself could check it. */
module Rules {
  import opened Basics
  import opened Brackets
  import opened BracketRules
  import opened Entrants
  import opened Tables
  import opened Protocol
  import opened StoreInvariants
  import opened StoreWrites
  import opened WorldInvariant
  import opened WorldSteps
  import opened Guarantees
  import opened Sequential

  /** A tournament concluded with a bracket has the champion of it as winner. */
  ghost predicate FinalNamesWinner(tour: Tour) {
    tour.status == Concluded && tour.matches != map[] ==>
      exists order, C :: Holds(tour, order, C) && ChampionOf(C).Some? && tour.winner == ChampionOf(C)
  }

  /** A bracket exists only in a live or concluded tournament. */
  ghost predicate BracketOnlyOnceLive(tour: Tour) {
    tour.matches != map[] ==> tour.status == Live || tour.status == Concluded
  }

  /** Beside a bracket, every entrant has a place in it. */
  ghost predicate EveryoneSeeded(tour: Tour) {
    tour.matches != map[] ==> forall e :: e in tour.entrants ==> tour.entrants[e].seed.Some?
  }

  // ---------- what a step does to one tournament ----------

  /** The write this step commits on the tournament, if it commits one. */
  ghost function CommittedOn(w: World, action: Action, t: TournamentId): Option<Write> {
    if !(action.Commit? && action.rid in w.requests) then None
    else
      var q := w.requests[action.rid];
      if !(q.t == t && Ready(q) && FairChance(w, q, action.chance)) then None
      else
        match Plan(q, action.chance)
        case Err(_) => None
        case Ok(write) => if Execute(w.db, t, write).1 == Ok(Wrote) then Some(write) else None
  }

  lemma RefusedWriteChangesNothing(players: map<PlayerId, bool>, tour: Tour, write: Write)
    requires write.WriteBracket? ==> |write.order| >= 2
    requires WriteTour(players, tour, write).1 != Ok(Wrote)
    ensures WriteTour(players, tour, write).0 == tour
  {
  }

  lemma RefusedMoveChangesNothing(db: Db, t: TournamentId, write: Write)
    requires write.WriteStatus? && Execute(db, t, write).1 != Ok(Wrote)
    ensures Execute(db, t, write).0 == db
  {
  }

  lemma MoveThatWrites(db: Db, t: TournamentId, write: Write)
    requires write.WriteStatus? && Execute(db, t, write).1 == Ok(Wrote)
    ensures t in db.tours && db.tours[t].status == write.from
    ensures Execute(db, t, write).0.tours ==
            db.tours[t := db.tours[t].(status := write.to, winner := write.winner)]
  {
  }

  /** The tournament after its own committed write. */
  function Written(players: map<PlayerId, bool>, tour: Tour, write: Write): Tour
    requires write.WriteBracket? ==> |write.order| >= 2
  {
    if write.WriteStatus? then tour.(status := write.to, winner := write.winner)
    else WriteTour(players, tour, write).0
  }

  lemma CommitOnTour(w: World, rid: int, chance: Chance, t: TournamentId)
    requires t in w.db.tours && rid in w.requests && Ready(w.requests[rid])
    requires FairChance(w, w.requests[rid], chance)
    ensures t in CommitRequest(w, rid, chance).db.tours
    ensures var tour, tour' := w.db.tours[t], CommitRequest(w, rid, chance).db.tours[t];
      match CommittedOn(w, Commit(rid, chance), t)
      case None => tour' == tour
      case Some(write) => tour' == Written(w.db.players, tour, write)
  {
    var q := w.requests[rid];
    if Plan(q, chance).Ok? {
      var write := Plan(q, chance).value;
      CommitWrites(w, rid, chance);
      ExecuteTouchesOneTour(w.db, q.t, write, t);
      if q.t == t && write.WriteStatus? {
        if Execute(w.db, t, write).1 == Ok(Wrote) {
          MoveThatWrites(w.db, t, write);
        } else {
          RefusedMoveChangesNothing(w.db, t, write);
        }
      } else if q.t == t && Execute(w.db, t, write).1 != Ok(Wrote) {
        RefusedWriteChangesNothing(w.db.players, w.db.tours[t], write);
      }
    }
  }

  /** A tournament that survives a step is as it was, but for accounts that are
      deleted, or as its own committed write leaves it. */
  lemma StepOnTour(w: World, action: Action, t: TournamentId)
    requires WorldOk(w) && t in w.db.tours && t in Next(w, action).db.tours
    ensures var tour, tour' := w.db.tours[t], Next(w, action).db.tours[t];
      match CommittedOn(w, action, t)
      case None => SameButForgotten(tour, tour')
      case Some(write) => tour' == Written(w.db.players, tour, write)
  {
    assert t in w.issued by { assert IdsOk(w); }
    if action.Commit? {
      var (rid, chance) := (action.rid, action.chance);
      if rid in w.requests && Ready(w.requests[rid]) && FairChance(w, w.requests[rid], chance) {
        CommitOnTour(w, rid, chance, t);
      }
    } else if action.RemovePlayer? {
      AccountStep(w, action.p, t);
    } else if action.RecordCheckin? {
      CheckinStep(w, action);
    } else {
      OtherSteps(w, action, t);
    }
  }

  /** What is known of a write that commits. */
  lemma CommittedIsSound(w: World, action: Action, t: TournamentId)
    requires WorldOk(w) && t in w.db.tours && CommittedOn(w, action, t).Some?
    ensures var write := CommittedOn(w, action, t).value;
      && TourOk(w.owner, t, w.db.tours[t]) && Sound(w.owner, w.db.tours[t], write)
      && GuardStatus(write) != Some(Concluded)
      && (GuardStatus(write).Some? ==> GuardStatus(write).value == w.db.tours[t].status)
      && (write.WriteBracket? ==> write.expected == Live && |write.order| >= 2)
      && (write.WriteStatus? && write.to != Concluded ==>
            (write.from == Live ==> write.to == Open) && write.to != Draft)
  {
    var (rid, chance) := (action.rid, action.chance);
    var q := w.requests[rid];
    var write := Plan(q, chance).value;
    assert RequestOk(w.owner, w.db.tours, q);
    DecisionIsSound(w, rid, chance);
    GuardsAreNeverConcluded(q, chance);
    if write.WriteBracket? {
      OrderOfPlan(q, chance);
    }
    if write.WriteStatus? {
      MoveThatWrites(w.db, t, write);
      if write.to != Concluded {
        PlannedMoves(q, chance);
      }
    } else {
      CommittedGuardHolds(w.db.players, w.db.tours[t], write);
    }
  }

  lemma PlannedMoves(q: Request, chance: Chance)
    requires Ready(q) && Plan(q, chance).Ok? && Plan(q, chance).value.WriteStatus?
    requires Plan(q, chance).value.to != Concluded
    ensures Plan(q, chance).value.from == Live ==> Plan(q, chance).value.to == Open
    ensures Plan(q, chance).value.to != Draft
  {
  }

  lemma CommittedGuardHolds(players: map<PlayerId, bool>, tour: Tour, write: Write)
    requires write.WriteBracket? ==> |write.order| >= 2
    requires !write.WriteStatus? && WriteTour(players, tour, write).1 == Ok(Wrote)
    ensures GuardStatus(write).Some? ==> GuardStatus(write).value == tour.status
  {
  }

  // ---------- the final names the winner ----------

  /** A row of the last round there is. */
  ghost predicate LastRow(rows: MatchTable, id: MatchId) {
    id in rows && forall other :: other in rows ==> rows[other].round <= rows[id].round
  }

  /** The row of the last round is decided for `winner`. */
  ghost predicate LastRowNames(rows: MatchTable, winner: Option<EntrantId>) {
    winner.Some? && exists id :: LastRow(rows, id) && rows[id].winner == winner
  }

  lemma LastRowIsTheFinal(order: seq<EntrantId>, C: Rounds, rows: MatchTable, id: MatchId)
    requires Valid(order, C) && Stores(rows, C)
    ensures LastRow(rows, id) <==> id == C[|C| - 1][0].id
  {
    var final := C[|C| - 1][0];
    assert At(C, |C| - 1, 0) && rows[final.id] == final;
    forall other | other in rows ensures rows[other].round <= |C| {
      var (r, s) := Locate(C, other).value;
      assert rows[other] == C[r][s];
    }
    if LastRow(rows, id) {
      var (r, s) := Locate(C, id).value;
      assert rows[id] == C[r][s] && r == |C| - 1 && s == 0;
    }
  }

  lemma LastRowNamesTheChampion(order: seq<EntrantId>, C: Rounds, rows: MatchTable, winner: Option<EntrantId>)
    requires Valid(order, C) && Stores(rows, C)
    ensures LastRowNames(rows, winner) <==> winner.Some? && winner == ChampionOf(C)
  {
    var final := C[|C| - 1][0];
    assert At(C, |C| - 1, 0) && rows[final.id] == final;
    LastRowIsTheFinal(order, C, rows, final.id);
    if LastRowNames(rows, winner) {
      var id :| LastRow(rows, id) && rows[id].winner == winner;
      LastRowIsTheFinal(order, C, rows, id);
    }
  }

  /** Exactly when a conclusion with a given winner is right for a tournament:
      there is no match, or the row of the last round is decided for that winner. */
  lemma ConclusionIsRightExactlyWhen(tour: Tour, winner: Option<EntrantId>)
    requires BracketOk(tour)
    ensures FinalNamesWinner(tour.(status := Concluded, winner := winner)) <==>
            tour.matches == map[] || LastRowNames(tour.matches, winner)
  {
    var tour' := tour.(status := Concluded, winner := winner);
    if tour.matches != map[] {
      var order, C :| Holds(tour, order, C);
      LastRowNamesTheChampion(order, C, tour.matches, winner);
      assert Holds(tour', order, C);
      if FinalNamesWinner(tour') {
        var order', C' :| Holds(tour', order', C') && ChampionOf(C').Some? && winner == ChampionOf(C');
        StoredBracketIsUnique(tour.matches, order, C, order', C');
      }
    }
  }

  /** The same for a conclusion that commits in any reachable world, however old
      the reads are that it was decided on. */
  lemma CommittedConclusionIsRightExactlyWhen(w: World, rid: int, chance: Chance)
    requires Reachable(w) && rid in w.requests && Ready(w.requests[rid]) && Plan(w.requests[rid], chance).Ok?
    requires Plan(w.requests[rid], chance).value.WriteStatus? && Plan(w.requests[rid], chance).value.to == Concluded
    requires Execute(w.db, w.requests[rid].t, Plan(w.requests[rid], chance).value).1 == Ok(Wrote)
    ensures var q := w.requests[rid]; var write := Plan(q, chance).value;
      var db' := Execute(w.db, q.t, write).0;
      && q.t in w.db.tours && q.t in db'.tours
      && (FinalNamesWinner(db'.tours[q.t]) <==>
            w.db.tours[q.t].matches == map[] || LastRowNames(w.db.tours[q.t].matches, write.winner))
  {
    ReachableIsOk(w);
    var q := w.requests[rid];
    var write := Plan(q, chance).value;
    MoveThatWrites(w.db, q.t, write);
    assert TourOk(w.owner, q.t, w.db.tours[q.t]);
    ConclusionIsRightExactlyWhen(w.db.tours[q.t], write.winner);
  }

  /** A commit that concludes a tournament with a winner its last row does not
      name, or with none over an undecided bracket. */
  ghost predicate LateConclusion(w: World, action: Action, t: TournamentId)
    requires t in w.db.tours
  {
    match CommittedOn(w, action, t)
    case Some(WriteStatus(_, to, winner, _)) =>
      to == Concluded && w.db.tours[t].matches != map[] && !LastRowNames(w.db.tours[t].matches, winner)
    case _ => false
  }

  lemma ForgottenKeepsTheWinner(tour: Tour, tour': Tour)
    requires FinalNamesWinner(tour) && SameButForgotten(tour, tour')
    ensures FinalNamesWinner(tour')
  {
    if tour.status == Concluded && tour.matches != map[] {
      var order, C :| Holds(tour, order, C) && ChampionOf(C).Some? && tour.winner == ChampionOf(C);
      assert Holds(tour', order, C);
    }
  }

  /** Over every step of every run: the final stops naming the winner exactly
      when a conclusion commits over a last row that names somebody else. */
  lemma FinalNamesWinnerUnlessLate(w: World, action: Action, t: TournamentId)
    requires WorldOk(w) && t in w.db.tours && t in Next(w, action).db.tours
    requires FinalNamesWinner(w.db.tours[t])
    ensures FinalNamesWinner(Next(w, action).db.tours[t]) <==> !LateConclusion(w, action, t)
  {
    var tour, tour' := w.db.tours[t], Next(w, action).db.tours[t];
    StepOnTour(w, action, t);
    match CommittedOn(w, action, t) {
      case None => ForgottenKeepsTheWinner(tour, tour');
      case Some(write) =>
        CommittedIsSound(w, action, t);
        if write.WriteStatus? && write.to == Concluded {
          ConclusionIsRightExactlyWhen(tour, write.winner);
        } else {
          CommittedElsewhereIsNotConcluded(w.db.players, tour, write);
        }
    }
  }

  lemma CommittedElsewhereIsNotConcluded(players: map<PlayerId, bool>, tour: Tour, write: Write)
    requires write.WriteBracket? ==> |write.order| >= 2
    requires write.WriteStatus? ==> write.to != Concluded
    requires GuardStatus(write) != Some(Concluded)
    requires GuardStatus(write).Some? ==> GuardStatus(write).value == tour.status
    requires !write.NoWrite?
    ensures Written(players, tour, write).status != Concluded
  {
    if !write.WriteStatus? {
      WriteKeepsStatus(players, tour, write);
    }
  }

  // ---------- a bracket only once live ----------

  /** A commit that reopens a live tournament while it has a match. */
  ghost predicate LateReopening(w: World, action: Action, t: TournamentId)
    requires t in w.db.tours
  {
    match CommittedOn(w, action, t)
    case Some(WriteStatus(from, to, _, _)) => from == Live && to == Open && w.db.tours[t].matches != map[]
    case _ => false
  }

  /** Only a rebuild puts a match where there was none. */
  lemma OnlyARebuildAddsMatches(players: map<PlayerId, bool>, tour: Tour, write: Write)
    requires !write.WriteBracket? && tour.matches == map[]
    requires write.WriteResult? ==> DistinctIds(write.read) && Apply(write.read, write.op).Ok?
    ensures Written(players, tour, write).matches == map[]
  {
    if write.WriteResult? {
      var (tour', written) := UpdateMatches(tour, write.expected, ResultChanges(write.read, write.op));
      if written && Apply(write.read, write.op).value.changed != [] {
        ResultNeedsRows(tour, write.expected, write.read, write.op);
      } else if written {
        assert ResultChanges(write.read, write.op) == [];
        assert tour' == tour;
      }
    }
  }

  /** Over every step of every run: a bracket comes to be outside `live` and
      `concluded` exactly when a reopening commits while there is a match. */
  lemma BracketOnlyOnceLiveUnlessLate(w: World, action: Action, t: TournamentId)
    requires WorldOk(w) && t in w.db.tours && t in Next(w, action).db.tours
    requires BracketOnlyOnceLive(w.db.tours[t])
    ensures BracketOnlyOnceLive(Next(w, action).db.tours[t]) <==> !LateReopening(w, action, t)
  {
    var tour, tour' := w.db.tours[t], Next(w, action).db.tours[t];
    StepOnTour(w, action, t);
    if CommittedOn(w, action, t).Some? {
      var write := CommittedOn(w, action, t).value;
      CommittedIsSound(w, action, t);
      if !write.WriteStatus? {
        WriteKeepsStatus(w.db.players, tour, write);
      }
      if !write.WriteBracket? && tour.matches == map[] {
        OnlyARebuildAddsMatches(w.db.players, tour, write);
      }
    }
  }

  // ---------- every entrant, one time ----------

  /** Exactly when a committed rebuild gives everyone a place: the field still
      has as many rows as the order. */
  lemma RebuildHoldsTheFieldExactlyWhen(
      owner: map<MatchId, TournamentId>, tour: Tour, expected: Status, order: seq<EntrantId>, ids: (nat, nat) -> MatchId)
    requires Sound(owner, tour, WriteBracket(expected, order, ids))
    requires ReplaceBracket(tour, expected, order, Blank(order, ids)).1 == Done
    ensures var tour' := ReplaceBracket(tour, expected, order, Blank(order, ids)).0;
      tour'.matches != map[] && (EveryoneSeeded(tour') <==> |tour.entrants| == |order|)
  {
    var tour' := ReplaceBracket(tour, expected, order, Blank(order, ids)).0;
    RebuiltHolds(tour, expected, order, ids);
    assert tour'.entrants == WithSeeds(tour.entrants, order);
    NoDupCardinality(order);
    forall e | e in Elements(order) ensures e in tour.entrants.Keys {
      assert e in order;
    }
    assert |tour.entrants| == |tour.entrants.Keys|;
    if |tour.entrants| == |order| {
      SubsetOfSameSize(Elements(order), tour.entrants.Keys);
      assert forall e :: e in tour.entrants ==> e in Elements(order);
    }
    if EveryoneSeeded(tour') {
      forall e | e in tour.entrants ensures e in Elements(order) {
        assert tour'.entrants[e].seed == SeedOf(order, e);
      }
      assert Elements(order) == tour.entrants.Keys;
    }
  }

  /** A commit that rebuilds the bracket for an order of another size than the
      field has at that moment. */
  ghost predicate LateRebuild(w: World, action: Action, t: TournamentId)
    requires t in w.db.tours
  {
    match CommittedOn(w, action, t)
    case Some(WriteBracket(_, order, _)) => |order| != |w.db.tours[t].entrants|
    case _ => false
  }

  /** Beside a bracket, no other write touches an entrant. */
  lemma OnlyARebuildMovesSeeds(players: map<PlayerId, bool>, tour: Tour, write: Write)
    requires !write.WriteBracket? && tour.matches != map[]
    ensures Written(players, tour, write).matches == map[] || Written(players, tour, write).entrants == tour.entrants
  {
  }

  lemma SeedsAfterWrite(owner: map<MatchId, TournamentId>, players: map<PlayerId, bool>, tour: Tour, write: Write)
    requires Sound(owner, tour, write) && EveryoneSeeded(tour)
    requires write.WriteBracket? ==> WriteTour(players, tour, write).1 == Ok(Wrote)
    ensures EveryoneSeeded(Written(players, tour, write)) <==>
            (write.WriteBracket? ==> |write.order| == |tour.entrants|)
  {
    if write.WriteBracket? {
      RebuildHoldsTheFieldExactlyWhen(owner, tour, write.expected, write.order, write.ids);
    } else if tour.matches == map[] {
      OnlyARebuildAddsMatches(players, tour, write);
    } else {
      OnlyARebuildMovesSeeds(players, tour, write);
    }
  }

  /** Over every step of every run: an entrant is left out of the bracket exactly
      when a rebuild commits for an order that has not as many entrants as the
      field. */
  lemma EveryoneSeededUnlessLate(w: World, action: Action, t: TournamentId)
    requires WorldOk(w) && t in w.db.tours && t in Next(w, action).db.tours
    requires EveryoneSeeded(w.db.tours[t])
    ensures EveryoneSeeded(Next(w, action).db.tours[t]) <==> !LateRebuild(w, action, t)
  {
    var tour := w.db.tours[t];
    StepOnTour(w, action, t);
    if CommittedOn(w, action, t).Some? {
      var write := CommittedOn(w, action, t).value;
      CommittedIsSound(w, action, t);
      assert write.WriteBracket? ==> WriteTour(w.db.players, tour, write).1 == Ok(Wrote);
      SeedsAfterWrite(w.owner, w.db.players, tour, write);
    }
  }

  // ---------- over whole runs ----------

  ghost predicate RulesHold(tour: Tour) {
    FinalNamesWinner(tour) && BracketOnlyOnceLive(tour) && EveryoneSeeded(tour)
  }

  ghost predicate AllRulesHold(w: World) {
    forall t :: t in w.db.tours ==> RulesHold(w.db.tours[t])
  }

  ghost predicate LateOn(w: World, action: Action, t: TournamentId) {
    t in w.db.tours && (LateConclusion(w, action, t) || LateReopening(w, action, t) || LateRebuild(w, action, t))
  }

  /** The step is a late commit on some tournament. */
  ghost predicate Late(w: World, action: Action) {
    exists t :: LateOn(w, action, t)
  }

  lemma RulesOfATour(w: World, action: Action, t: TournamentId)
    requires WorldOk(w) && t in w.db.tours && t in Next(w, action).db.tours && RulesHold(w.db.tours[t])
    ensures RulesHold(Next(w, action).db.tours[t]) <==> !LateOn(w, action, t)
  {
    FinalNamesWinnerUnlessLate(w, action, t);
    BracketOnlyOnceLiveUnlessLate(w, action, t);
    EveryoneSeededUnlessLate(w, action, t);
  }

  lemma LateTourStays(w: World, action: Action, t: TournamentId)
    requires LateOn(w, action, t)
    ensures t in Next(w, action).db.tours
  {
    CommitOnTour(w, action.rid, action.chance, t);
  }

  lemma RulesBreakOnlyWhenLate(w: World, action: Action)
    requires WorldOk(w) && AllRulesHold(w)
    ensures AllRulesHold(Next(w, action)) <==> !Late(w, action)
  {
    var w' := Next(w, action);
    forall t | t in w.db.tours && t in w'.db.tours ensures RulesHold(w'.db.tours[t]) <==> !LateOn(w, action, t) {
      RulesOfATour(w, action, t);
    }
    forall t | t in w'.db.tours && t !in w.db.tours ensures RulesHold(w'.db.tours[t]) {
      NewTourIsEmpty(w, action, t);
    }
    forall t | LateOn(w, action, t) ensures t in w'.db.tours {
      LateTourStays(w, action, t);
    }
  }

  lemma NewTourIsEmpty(w: World, action: Action, t: TournamentId)
    requires WorldOk(w) && t !in w.db.tours && t in Next(w, action).db.tours
    ensures Next(w, action).db.tours[t].matches == map[]
  {
    if action.Commit? {
      var (rid, chance) := (action.rid, action.chance);
      if rid in w.requests && Ready(w.requests[rid]) && FairChance(w, w.requests[rid], chance) {
        CommitCreatesNothing(w, rid, chance);
      }
    } else if action.RemovePlayer? {
      AccountStep(w, action.p, t);
    } else if action.RecordCheckin? {
      CheckinStep(w, action);
    } else {
      CreatedIsEmpty(w, action, t);
    }
  }

  /** The rules hold in every world the run passes through. */
  ghost predicate RulesHoldThroughout(actions: seq<Action>) {
    && AllRulesHold(Play(START, actions))
    && (actions == [] || RulesHoldThroughout(actions[..|actions| - 1]))
  }

  /** No step of the run is a late commit. */
  ghost predicate Timely(actions: seq<Action>) {
    actions == [] ||
    var before := actions[..|actions| - 1];
    Timely(before) && !Late(Play(START, before), actions[|actions| - 1])
  }

  lemma StepOfARun(before: seq<Action>, action: Action)
    requires AllRulesHold(Play(START, before))
    ensures AllRulesHold(Next(Play(START, before), action)) <==> !Late(Play(START, before), action)
  {
    ReachableIsOk(Play(START, before));
    RulesBreakOnlyWhenLate(Play(START, before), action);
  }

  /** The three rules hold in every world a run passes through if and only if no
      step of it is a late commit. */
  lemma {:induction false} RulesHoldExactlyInTimelyRuns(actions: seq<Action>)
    ensures RulesHoldThroughout(actions) <==> Timely(actions)
    decreases |actions|
  {
    if actions == [] {
      assert AllRulesHold(START);
    } else {
      var before := actions[..|actions| - 1];
      RulesHoldExactlyInTimelyRuns(before);
      if RulesHoldThroughout(before) {
        StepOfARun(before, actions[|actions| - 1]);
      }
    }
  }
}
