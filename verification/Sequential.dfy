/** What holds besides when requests do not overtake each other: every commit
    decides on the store as it is. Some of it is not true of every interleaving,
    and the module `Overtaking` shows where. */
module Sequential {
  import opened Basics
  import opened Brackets
  import opened BracketRules
  import opened BracketObjects
  import opened Elimination
  import opened Entrants
  import opened Points
  import opened Tables
  import opened Protocol
  import opened StoreInvariants
  import opened StoreWrites
  import opened WorldInvariant
  import opened WorldSteps
  import opened Guarantees

  /** What the request read is what the store holds now. */
  ghost predicate Current(w: World, q: Request) {
    && (q.view.Some? ==>
          && q.t in w.db.tours
          && q.view.value == ViewOf(w.db.tours[q.t]))
    && (q.entrants.Some? ==> ListsEntrants(q.entrants.value, EntrantsOf(w.db, q.t)))
    && (q.bracket.Some? ==> exists rows ::
          ListsMatches(rows, MatchesOf(w.db, q.t)) && (if rows == [] then q.bracket == Some(None)
                                                       else q.bracket == Some(Regrouped(rows))))
  }

  /** A run in which no commit was overtaken. */
  ghost predicate OneAtATime(actions: seq<Action>) {
    actions == [] ||
    var w := Play(START, actions[..|actions| - 1]);
    var last := actions[|actions| - 1];
    && OneAtATime(actions[..|actions| - 1])
    && (last.Commit? && last.rid in w.requests ==> Current(w, w.requests[last.rid]))
  }

  /** The bracket is over exactly the entrants, and a concluded tournament names
      its champion. */
  ghost predicate HoldsWholeField(tour: Tour, order: seq<EntrantId>, R: Rounds) {
    && Holds(tour, order, R)
    && Elements(order) == tour.entrants.Keys
    && (tour.status == Concluded ==> ChampionOf(R).Some? && tour.winner == ChampionOf(R))
  }

  ghost predicate TourInOrder(tour: Tour) {
    tour.matches != map[] ==>
      (tour.status == Live || tour.status == Concluded) && exists order, R :: HoldsWholeField(tour, order, R)
  }

  ghost predicate InOrder(w: World) {
    forall t :: t in w.db.tours ==> TourInOrder(w.db.tours[t])
  }

  // ---------- current reads ----------

  lemma CurrentBracketIsStored(w: World, q: Request)
    requires WorldOk(w) && Current(w, q) && q.bracket.Some? && q.t in w.db.tours
    ensures q.bracket.value.None? <==> w.db.tours[q.t].matches == map[]
    ensures q.bracket.value.Some? ==> Stores(w.db.tours[q.t].matches, q.bracket.value.value)
    ensures q.bracket.value.Some? ==> exists order :: Valid(order, q.bracket.value.value)
  {
    var tour := w.db.tours[q.t];
    assert TourOk(w.owner, q.t, tour);
    var rows :| ListsMatches(rows, tour.matches)
      && (if rows == [] then q.bracket == Some(None) else q.bracket == Some(Regrouped(rows)));
    if tour.matches != map[] {
      var order, R :| Holds(tour, order, R);
      ReadGivesStoredBracket(rows, tour.matches, order, R);
    } else {
      assert |tour.matches| == 0;
    }
  }

  lemma StoredBracketIsUnique(rows: MatchTable, orderR: seq<EntrantId>, R: Rounds, order: seq<EntrantId>, C: Rounds)
    requires Valid(orderR, R) && Valid(order, C) && Stores(rows, R) && Stores(rows, C)
    ensures R == C
  {
    StoredIsCompatible(R, rows);
    SamePlacesMeansSameIds(R, C, rows);
    forall i | 0 <= i < |R| ensures R[i] == C[i] {
      forall j | 0 <= j < |R[i]| ensures R[i][j] == C[i][j] {
        assert At(R, i, j) && At(C, i, j);
      }
    }
  }

  // ---------- commits in order ----------

  lemma BuildInOrder(
      owner: map<MatchId, TournamentId>, t: TournamentId, tour: Tour, expected: Status,
      order: seq<EntrantId>, ids: (nat, nat) -> MatchId, list: seq<Entrant>)
    requires TourOk(owner, t, tour) && TourInOrder(tour) && expected == Live
    requires Sound(owner, tour, WriteBracket(expected, order, ids))
    requires ListsEntrants(list, tour.entrants) && multiset(order) == multiset(Ids(list))
    ensures TourInOrder(ReplaceBracket(tour, expected, order, Blank(order, ids)).0)
  {
    var (tour', written) := ReplaceBracket(tour, expected, order, Blank(order, ids));
    if written == Done {
      RebuiltHolds(tour, expected, order, ids);
      WholeListWholeField(tour.entrants, list, order);
      assert tour'.entrants.Keys == tour.entrants.Keys && tour'.status == Live;
      assert HoldsWholeField(tour', order, Blank(order, ids));
    } else {
      assert tour' == tour;
    }
  }

  lemma WholeListWholeField(rows: map<EntrantId, EntrantRow>, list: seq<Entrant>, order: seq<EntrantId>)
    requires ListsEntrants(list, rows) && |rows| <= MAX_ENTRANTS && OnePerPlayer(rows)
    requires multiset(order) == multiset(Ids(list))
    ensures Elements(order) == rows.Keys
  {
    ReadGivesEveryEntrant(list, rows);
    PermutationKeepsNoDup(Ids(list), order);
  }

  lemma ResultInOrder(
      owner: map<MatchId, TournamentId>, t: TournamentId, tour: Tour, expected: Status, R: Rounds, op: Op)
    requires TourOk(owner, t, tour) && TourInOrder(tour) && expected != Concluded
    requires Sound(owner, tour, WriteResult(expected, R, op))
    ensures TourInOrder(UpdateMatches(tour, expected, ResultChanges(R, op)).0)
  {
    var (tour', written) := UpdateMatches(tour, expected, ResultChanges(R, op));
    if written && Apply(R, op).value.changed != [] {
      var orderR :| Valid(orderR, R);
      ResultNeedsRows(tour, expected, R, op);
      var order, C :| HoldsWholeField(tour, order, C);
      CommittedResultIsAtomic(tour, expected, orderR, R, op, order, C);
      assert HoldsWholeField(tour', order, After(C, op));
    } else if written {
      assert ResultChanges(R, op) == [];
      assert tour' == tour;
    }
  }

  /** A move out of `draft` or `open`, or out of a live tournament without a
      bracket, finds no match; a conclusion names the stored champion. */
  lemma MoveInOrder(tour: Tour, to: Status, winner: Option<EntrantId>)
    requires TourInOrder(tour)
    requires tour.matches != map[] && to != Concluded ==> tour.status == Draft || tour.status == Open
    requires tour.matches != map[] && to == Concluded ==>
               winner.Some? && exists order, R :: Valid(order, R) && Stores(tour.matches, R) && ChampionOf(R) == winner
    ensures TourInOrder(tour.(status := to, winner := winner))
  {
    var tour' := tour.(status := to, winner := winner);
    if tour.matches != map[] {
      var order, C :| HoldsWholeField(tour, order, C);
      var orderR, R :| Valid(orderR, R) && Stores(tour.matches, R) && ChampionOf(R) == winner;
      StoredBracketIsUnique(tour.matches, orderR, R, order, C);
      assert HoldsWholeField(tour', order, C);
    }
  }

  lemma FieldWriteInOrder(players: map<PlayerId, bool>, tour: Tour, write: Write)
    requires TourInOrder(tour)
    requires write.WriteEntrant? || write.WriteSkill? || write.WriteRemoval? || write.WriteRetirement?
             || write.WriteNoBracket? || write.NoWrite? || write.WriteStatus?
    ensures TourInOrder(WriteTour(players, tour, write).0)
  {
  }

  lemma FieldsInOrder(players: map<PlayerId, bool>, tour: Tour, write: Write)
    requires TourInOrder(tour) && write.WriteFields?
    ensures TourInOrder(WriteTour(players, tour, write).0)
  {
    var tour' := WriteTour(players, tour, write).0;
    if tour.matches != map[] {
      var order, R :| HoldsWholeField(tour, order, R);
      assert HoldsWholeField(tour', order, R);
    }
  }

  lemma StatusCommitInOrder(w: World, rid: int, chance: Chance)
    requires WorldOk(w) && InOrder(w) && rid in w.requests && Ready(w.requests[rid])
    requires Current(w, w.requests[rid])
    requires Plan(w.requests[rid], chance).Ok? && Plan(w.requests[rid], chance).value.WriteStatus?
    requires w.requests[rid].t in w.db.tours
    ensures var q := w.requests[rid]; var write := Plan(q, chance).value;
      TourInOrder(w.db.tours[q.t].(status := write.to, winner := write.winner))
  {
    var q := w.requests[rid];
    var write := Plan(q, chance).value;
    var tour := w.db.tours[q.t];
    assert TourInOrder(tour);
    StatusPlan(q, chance);
    if write.to != Concluded {
      MovesWithoutBracket(q, chance);
    } else if tour.matches != map[] {
      CurrentBracketIsStored(w, q);
      ConclusionNamesTheChampion(q, chance);
    }
    MoveInOrder(tour, write.to, write.winner);
  }

  lemma MovesWithoutBracket(q: Request, chance: Chance)
    requires Ready(q) && Plan(q, chance).Ok? && Plan(q, chance).value.WriteStatus?
    requires Plan(q, chance).value.to != Concluded
    ensures q.view.value.status == Draft || q.view.value.status == Open || !q.view.value.hasBracket
  {
  }

  lemma ConclusionNamesTheChampion(q: Request, chance: Chance)
    requires Ready(q) && Plan(q, chance).Ok? && Plan(q, chance).value.WriteStatus?
    requires Plan(q, chance).value.to == Concluded && q.bracket.Some? && q.bracket.value.Some?
    ensures Plan(q, chance).value.winner.Some?
    ensures Plan(q, chance).value.winner == ChampionOf(q.bracket.value.value)
  {
  }

  lemma TourCommitInOrder(w: World, rid: int, chance: Chance)
    requires WorldOk(w) && InOrder(w) && rid in w.requests && Ready(w.requests[rid])
    requires FairChance(w, w.requests[rid], chance) && Current(w, w.requests[rid])
    requires Plan(w.requests[rid], chance).Ok? && w.requests[rid].t in w.db.tours
    ensures TourInOrder(WriteTour(w.db.players, w.db.tours[w.requests[rid].t], Plan(w.requests[rid], chance).value).0)
  {
    var q := w.requests[rid];
    var tour, write := w.db.tours[q.t], Plan(q, chance).value;
    assert TourInOrder(tour) && TourOk(w.owner, q.t, tour) && RequestOk(w.owner, w.db.tours, q);
    DecisionIsSound(w, rid, chance);
    GuardsAreNeverConcluded(q, chance);
    if write.WriteBracket? {
      OrderOfPlan(q, chance);
      BuiltOrderIsThePermutation(w, q, chance);
      BuildInOrder(w.owner, q.t, tour, write.expected, write.order, write.ids, q.entrants.value);
    } else if write.WriteResult? {
      ResultInOrder(w.owner, q.t, tour, write.expected, write.read, write.op);
    } else if write.WriteFields? {
      FieldsInOrder(w.db.players, tour, write);
    } else {
      FieldWriteInOrder(w.db.players, tour, write);
    }
  }

  lemma CommitInOrder(w: World, rid: int, chance: Chance, t: TournamentId)
    requires WorldOk(w) && InOrder(w) && rid in w.requests && Ready(w.requests[rid])
    requires FairChance(w, w.requests[rid], chance) && Current(w, w.requests[rid])
    requires t in w.db.tours
    ensures t in CommitRequest(w, rid, chance).db.tours
    ensures TourInOrder(CommitRequest(w, rid, chance).db.tours[t])
  {
    var q := w.requests[rid];
    assert TourInOrder(w.db.tours[t]);
    CommitTouchesOneTour(w, rid, chance, t);
    if q.t == t && Plan(q, chance).Ok? {
      if Plan(q, chance).value.WriteStatus? {
        StatusCommitInOrder(w, rid, chance);
      } else {
        TourCommitInOrder(w, rid, chance);
      }
    }
  }

  lemma ExecuteTouchesOneTour(db: Db, u: TournamentId, write: Write, t: TournamentId)
    requires t in db.tours && (write.WriteBracket? ==> |write.order| >= 2)
    ensures var db' := Execute(db, u, write).0;
      && t in db'.tours
      && (u != t ==> db'.tours[t] == db.tours[t])
      && (u == t && !write.WriteStatus? ==> db'.tours[t] == WriteTour(db.players, db.tours[t], write).0)
      && (u == t && write.WriteStatus? ==>
            || db'.tours[t] == db.tours[t]
            || db'.tours[t] == db.tours[t].(status := write.to, winner := write.winner))
  {
  }

  lemma CommitTouchesOneTour(w: World, rid: int, chance: Chance, t: TournamentId)
    requires rid in w.requests && Ready(w.requests[rid]) && FairChance(w, w.requests[rid], chance)
    requires t in w.db.tours
    ensures var q := w.requests[rid]; var w' := CommitRequest(w, rid, chance);
      && t in w'.db.tours
      && (q.t != t || Plan(q, chance).Err? ==> w'.db.tours[t] == w.db.tours[t])
      && (q.t == t && Plan(q, chance).Ok? && !Plan(q, chance).value.WriteStatus? ==>
            w'.db.tours[t] == WriteTour(w.db.players, w.db.tours[t], Plan(q, chance).value).0)
      && (q.t == t && Plan(q, chance).Ok? && Plan(q, chance).value.WriteStatus? ==>
            || w'.db.tours[t] == w.db.tours[t]
            || w'.db.tours[t] ==
                 w.db.tours[t].(status := Plan(q, chance).value.to, winner := Plan(q, chance).value.winner))
  {
    var q := w.requests[rid];
    if Plan(q, chance).Ok? {
      CommitWrites(w, rid, chance);
      ExecuteTouchesOneTour(w.db, q.t, Plan(q, chance).value, t);
    }
  }

  lemma StepInOrder(w: World, action: Action)
    requires WorldOk(w) && InOrder(w)
    requires action.Commit? && action.rid in w.requests ==> Current(w, w.requests[action.rid])
    ensures InOrder(Next(w, action))
  {
    if action.Commit? {
      var (rid, chance) := (action.rid, action.chance);
      if rid in w.requests && Ready(w.requests[rid]) && FairChance(w, w.requests[rid], chance) {
        CommitCreatesNothing(w, rid, chance);
        forall t | t in CommitRequest(w, rid, chance).db.tours
          ensures TourInOrder(CommitRequest(w, rid, chance).db.tours[t])
        {
          CommitInOrder(w, rid, chance, t);
        }
      }
    } else {
      forall t | t in Next(w, action).db.tours ensures TourInOrder(Next(w, action).db.tours[t]) {
        OtherStepInOrder(w, action, t);
      }
    }
  }

  lemma ForgetInOrder(tour: Tour, p: PlayerId)
    requires TourInOrder(tour)
    ensures TourInOrder(ForgetPlayer(tour, p))
  {
    if tour.matches != map[] {
      var order, R :| HoldsWholeField(tour, order, R);
      assert HoldsWholeField(ForgetPlayer(tour, p), order, R);
    }
  }

  lemma OtherStepInOrder(w: World, action: Action, t: TournamentId)
    requires InOrder(w) && IdsOk(w) && (action.RecordCheckin? ==> WorldOk(w))
    requires !action.Commit? && t in Next(w, action).db.tours
    ensures TourInOrder(Next(w, action).db.tours[t])
  {
    if action.RemovePlayer? {
      ForgetInOrder(w.db.tours[t], action.p);
    } else if action.RecordCheckin? {
      CheckinStep(w, action);
      assert TourInOrder(w.db.tours[t]);
    } else if t in w.db.tours {
      assert t in w.issued;
      OtherSteps(w, action, t);
      assert TourInOrder(w.db.tours[t]);
    } else {
      CreatedIsEmpty(w, action, t);
    }
  }

  lemma CreatedIsEmpty(w: World, action: Action, t: TournamentId)
    requires !action.Commit? && !action.RemovePlayer? && !action.RecordCheckin?
    requires t !in w.db.tours && t in Next(w, action).db.tours
    ensures Next(w, action).db.tours[t].matches == map[]
  {
  }

  /** One at a time, a bracket exists only in a live or concluded tournament, it
      is over exactly the entrants, and a tournament concluded with a bracket
      stores its champion. */
  lemma {:induction false} RunsInOrder(actions: seq<Action>)
    requires OneAtATime(actions)
    ensures InOrder(Play(START, actions))
    decreases |actions|
  {
    if actions != [] {
      var before := actions[..|actions| - 1];
      RunsInOrder(before);
      ReachableIsOk(Play(START, before));
      StepInOrder(Play(START, before), actions[|actions| - 1]);
    }
  }

  ghost predicate HasSeed(entrants: map<EntrantId, EntrantRow>, k: nat) {
    exists e :: e in entrants && entrants[e].seed == Some(k)
  }

  /** Every entrant has a seed, and the seeds are 1 to n. */
  ghost predicate SeededWithoutGap(entrants: map<EntrantId, EntrantRow>) {
    && (forall e :: e in entrants ==> entrants[e].seed.Some?)
    && (forall k: nat :: 1 <= k <= |entrants| ==> HasSeed(entrants, k))
  }

  ghost predicate EveryMatchDecided(rows: MatchTable) {
    forall id :: id in rows ==> rows[id].winner.Some?
  }

  lemma WholeFieldSeeds(tour: Tour, order: seq<EntrantId>, R: Rounds)
    requires HoldsWholeField(tour, order, R)
    ensures |tour.entrants| == |order| && SeededWithoutGap(tour.entrants)
  {
    NamedEntrantsHaveRows(tour, order, R);
    NoDupCardinality(order);
    assert |tour.entrants| == |tour.entrants.Keys|;
    forall e | e in tour.entrants ensures tour.entrants[e].seed.Some? {
      assert e in Elements(order);
      assert SeedOf(order, e).Some?;
    }
    forall k: nat | 1 <= k <= |tour.entrants| ensures HasSeed(tour.entrants, k) {
      var e := order[k - 1];
      assert e in tour.entrants && tour.entrants[e].seed == Some(k);
    }
  }

  lemma WholeFieldResults(tour: Tour, order: seq<EntrantId>, R: Rounds)
    requires HoldsWholeField(tour, order, R) && tour.status == Concluded
    ensures tour.winner.Some? && EveryMatchDecided(tour.matches)
  {
    forall id | id in tour.matches ensures tour.matches[id].winner.Some? {
      var (r, s) := Locate(R, id).value;
      ChampionDecidesAll(order, R, r, s);
      assert tour.matches[id] == R[r][s];
    }
  }

  /** Some run in which no commit was overtaken leads to this world. */
  ghost predicate ReachableInOrder(w: World) {
    exists actions :: OneAtATime(actions) && Play(START, actions) == w
  }

  lemma ReachableInOrderIsOk(w: World)
    requires ReachableInOrder(w)
    ensures Reachable(w) && WorldOk(w) && InOrder(w)
  {
    var actions :| OneAtATime(actions) && Play(START, actions) == w;
    RunsInOrder(actions);
    ReachableIsOk(w);
  }

  /** One at a time, a bracket exists only in a live or concluded tournament, its
      seeds are 1 to n without a gap, where n is the number of entrants, and a
      tournament concluded with a bracket has every match decided. */
  lemma SeedsAndResultsInOrder(w: World, t: TournamentId)
    requires ReachableInOrder(w) && t in w.db.tours && w.db.tours[t].matches != map[]
    ensures w.db.tours[t].status == Live || w.db.tours[t].status == Concluded
    ensures SeededWithoutGap(w.db.tours[t].entrants)
    ensures exists order, R :: HoldsWholeField(w.db.tours[t], order, R)
    ensures w.db.tours[t].status == Concluded ==>
              w.db.tours[t].winner.Some? && EveryMatchDecided(w.db.tours[t].matches)
  {
    ReachableInOrderIsOk(w);
    var tour := w.db.tours[t];
    assert TourInOrder(tour);
    var order, R :| HoldsWholeField(tour, order, R);
    WholeFieldSeeds(tour, order, R);
    if tour.status == Concluded {
      WholeFieldResults(tour, order, R);
    }
  }

  lemma WholeFieldHasAccounts(tour: Tour, order: seq<EntrantId>, C: Rounds, list: seq<Entrant>)
    requires HoldsWholeField(tour, order, C)
    requires ListsEntrants(list, tour.entrants) && DistinctField(list) && Elements(Ids(list)) == tour.entrants.Keys
    requires forall e :: e in tour.entrants ==> tour.entrants[e].player.Some?
    ensures EveryoneHasAnAccount(order, list)
  {
    forall e ensures e in order <==> e in Ids(list) {
      assert e in Elements(order) <==> e in Elements(Ids(list));
    }
    SameElementsPermute(order, Ids(list));
  }

  /** What the stored bracket of a whole field with accounts pays. */
  lemma WholeFieldPays(
      owner: map<MatchId, TournamentId>, t: TournamentId, tour: Tour, list: seq<Entrant>,
      orderR: seq<EntrantId>, R: Rounds)
    requires TourOk(owner, t, tour) && TourInOrder(tour) && tour.matches != map[]
    requires ListsEntrants(list, tour.entrants) && Valid(orderR, R) && Stores(tour.matches, R)
    requires ChampionOf(R).Some? && forall e :: e in tour.entrants ==> tour.entrants[e].player.Some?
    ensures Total(TournamentAwards(t, list, Some(R), None)) == FieldTotal(|tour.entrants|)
  {
    var order, C :| HoldsWholeField(tour, order, C);
    StoredBracketIsUnique(tour.matches, orderR, R, order, C);
    ReadGivesEveryEntrant(list, tour.entrants);
    WholeFieldHasAccounts(tour, order, C, list);
    FinishedBracketPaysAFixedTotal(t, list, order, C);
    WholeFieldSeeds(tour, order, C);
  }

  /** From registration to the ledger: one at a time, the conclusion of a
      bracket in which every entrant still has an account pays exactly the fixed
      total of the size of the field. */
  lemma ConclusionPaysTheFieldTotal(w: World, rid: int, chance: Chance)
    requires ReachableInOrder(w) && rid in w.requests && Ready(w.requests[rid])
    requires Current(w, w.requests[rid]) && w.requests[rid].t in w.db.tours
    requires w.db.tours[w.requests[rid].t].matches != map[]
    requires Plan(w.requests[rid], chance).Ok? && Plan(w.requests[rid], chance).value.WriteStatus?
    requires Plan(w.requests[rid], chance).value.to == Concluded
    requires var tour := w.db.tours[w.requests[rid].t];
      forall e :: e in tour.entrants ==> tour.entrants[e].player.Some?
    ensures Total(Plan(w.requests[rid], chance).value.awards) ==
            FieldTotal(|w.db.tours[w.requests[rid].t].entrants|)
  {
    ReachableInOrderIsOk(w);
    var q := w.requests[rid];
    var tour := w.db.tours[q.t];
    assert TourInOrder(tour) && TourOk(w.owner, q.t, tour);
    StatusPlan(q, chance);
    CurrentBracketIsStored(w, q);
    ConclusionNamesTheChampion(q, chance);
    var orderR :| Valid(orderR, q.bracket.value.value);
    WholeFieldPays(w.owner, q.t, tour, q.entrants.value, orderR, q.bracket.value.value);
  }
}
