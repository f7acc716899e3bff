/** Every step of every interleaving keeps the invariant of the world. */
module WorldSteps {
  import opened Basics
  import opened Brackets
  import opened BracketObjects
  import opened BracketRuns
  import opened Entrants
  import opened Points
  import opened Tables
  import opened Protocol
  import opened StoreInvariants
  import opened StoreWrites
  import opened WorldInvariant

  // ---------- what a conclusion pays ----------

  ghost predicate AwardOf(owner: map<MatchId, TournamentId>, t: TournamentId, a: Award) {
    if a.kind == MatchWin then a.source in owner && owner[a.source] == t
    else a.kind in {TournamentEntry, Champion, Finalist, Semifinalist} && a.source == t
  }

  ghost predicate SoundAwards(owner: map<MatchId, TournamentId>, t: TournamentId, awards: seq<Award>) {
    DistinctKeys(awards) && forall a :: a in awards ==> AwardOf(owner, t, a)
  }

  lemma BracketAwardsAreSound(
      owner: map<MatchId, TournamentId>, t: TournamentId, list: seq<Entrant>, order: seq<EntrantId>, R: Rounds)
    requires Valid(order, R) && SnapshotOwned(owner, t, R) && DistinctField(list)
    ensures SoundAwards(owner, t, TournamentAwards(t, list, Some(R), None))
  {
    AwardsHaveDistinctKeys(t, list, order, R);
    var tier := TierOf(|list|);
    var wins, places := Pay(list, WinClaims(Flat(R))), Pay(list, PlacementClaims(R, tier, t));
    EntriesDistinct(list, t);
    forall a | a in wins ensures AwardOf(owner, t, a) {
      var i := PaidClaim(list, WinClaims(Flat(R)), a);
      WinComesFromAMatch(owner, t, R, WinClaims(Flat(R))[i]);
    }
    PlacementsDistinct(order, R, tier, t);
    forall a | a in places ensures AwardOf(owner, t, a) {
      var i := PaidClaim(list, PlacementClaims(R, tier, t), a);
      assert PlacementClaims(R, tier, t)[i] in PlacementClaims(R, tier, t);
    }
  }

  lemma WinComesFromAMatch(owner: map<MatchId, TournamentId>, t: TournamentId, R: Rounds, c: Claim)
    requires DistinctIds(R) && SnapshotOwned(owner, t, R) && c in WinClaims(Flat(R))
    ensures c.kind == MatchWin && c.source in owner && owner[c.source] == t
  {
    var i := WinOfAMatch(Flat(R), c);
    var r, s := MemberOfFlat(R, i);
    assert At(R, r, s);
  }

  lemma NamedAwardsAreSound(
      owner: map<MatchId, TournamentId>, t: TournamentId, list: seq<Entrant>, named: Option<EntrantId>)
    requires DistinctField(list)
    ensures SoundAwards(owner, t, TournamentAwards(t, list, None, named))
  {
    var claims := Placement(named, Champion, TierOf(|list|), t);
    EntriesDistinct(list, t);
    PayDistinct(list, claims);
    forall a | a in Pay(list, claims) ensures a.kind == Champion && a.source == t {
      var i := PaidClaim(list, claims, a);
    }
    DistinctAppend(EntryAwards(list, t), Pay(list, claims));
  }

  /** The shape of a status write: never out of `concluded`, and paid only into
      it, from what the request read. */
  lemma StatusPlan(q: Request, chance: Chance)
    requires Ready(q) && Plan(q, chance).Ok? && Plan(q, chance).value.WriteStatus?
    ensures var write := Plan(q, chance).value;
      && q.view.Some? && write.from == q.view.value.status && write.from != Concluded
      && (write.to != Concluded ==> write.winner == None && write.awards == [])
      && (write.to == Concluded ==>
            && q.entrants.Some? && q.bracket.Some?
            && (q.bracket.value.None? ==>
                  write.awards == TournamentAwards(q.t, q.entrants.value, None, q.intent.winner))
            && (q.bracket.value.Some? ==>
                  write.awards == TournamentAwards(q.t, q.entrants.value, q.bracket.value, None)))
  {
  }

  lemma PlannedAwardsAreSound(w: World, rid: int, chance: Chance)
    requires WorldOk(w) && rid in w.requests && Ready(w.requests[rid])
    requires Plan(w.requests[rid], chance).Ok? && Plan(w.requests[rid], chance).value.WriteStatus?
    ensures SoundAwards(w.owner, w.requests[rid].t, Plan(w.requests[rid], chance).value.awards)
  {
    var q := w.requests[rid];
    StatusPlan(q, chance);
    assert RequestOk(w.owner, w.db.tours, q);
    if Plan(q, chance).value.to == Concluded {
      if q.bracket.value.Some? {
        var order :| Valid(order, q.bracket.value.value);
        BracketAwardsAreSound(w.owner, q.t, q.entrants.value, order, q.bracket.value.value);
      } else {
        NamedAwardsAreSound(w.owner, q.t, q.entrants.value, q.intent.winner);
      }
    }
  }

  function EntriesOf(awards: seq<Award>, tournament: Option<TournamentId>, event: Option<EventId>): set<Entry> {
    set a | a in awards :: ToEntry(a, tournament, event)
  }

  /** The loop of inserts adds one row per award and keeps the keys unique. */
  lemma {:induction false} InsertAwardsAdds(
      players: map<PlayerId, bool>, ledger: set<Entry>, awards: seq<Award>,
      tournament: Option<TournamentId>, event: Option<EventId>)
    requires UniqueKeys(ledger) && InsertAwards(players, ledger, awards, tournament, event).Ok?
    ensures var ledger' := InsertAwards(players, ledger, awards, tournament, event).value;
      && ledger' == ledger + EntriesOf(awards, tournament, event)
      && UniqueKeys(ledger')
      && forall a :: a in awards ==> a.player in players
    decreases |awards|
  {
    if awards != [] {
      var x := ToEntry(awards[0], tournament, event);
      InsertAwardsAdds(players, ledger + {x}, awards[1..], tournament, event);
      assert EntriesOf(awards, tournament, event) == {x} + EntriesOf(awards[1..], tournament, event) by {
        assert awards == [awards[0]] + awards[1..];
      }
      assert forall a :: a in awards ==> a == awards[0] || a in awards[1..];
    }
  }

  /** Distinct fresh keys never trip the unique index. */
  lemma {:induction false} FreshKeysNeverCollide(
      players: map<PlayerId, bool>, ledger: set<Entry>, awards: seq<Award>,
      tournament: Option<TournamentId>, event: Option<EventId>)
    requires DistinctKeys(awards)
    requires forall a :: a in awards ==> !KeyTaken(ledger, a.Key())
    ensures InsertAwards(players, ledger, awards, tournament, event) != Err(UniqueViolation)
    decreases |awards|
  {
    if awards != [] {
      var x := ToEntry(awards[0], tournament, event);
      assert x.Key() == awards[0].Key();
      forall a | a in awards[1..] ensures !KeyTaken(ledger + {x}, a.Key()) {
        assert a in awards;
      }
      FreshKeysNeverCollide(players, ledger + {x}, awards[1..], tournament, event);
    }
  }

  /** The ledger has no row of a tournament that is not concluded. */
  lemma NothingPaidBeforeTheEnd(w: World, t: TournamentId, awards: seq<Award>)
    requires WorldOk(w) && t in w.db.tours && w.db.tours[t].status != Concluded
    requires SoundAwards(w.owner, t, awards)
    ensures forall a :: a in awards ==> !KeyTaken(w.db.ledger, a.Key())
  {
    forall a, x | a in awards && x in w.db.ledger ensures x.Key() != a.Key() {
      assert EntryOk(w, x) && AwardOf(w.owner, t, a);
    }
  }

  // ---------- status moves ----------

  lemma MovedTourKept(owner: map<MatchId, TournamentId>, t: TournamentId, tour: Tour, to: Status, winner: Option<EntrantId>)
    requires TourOk(owner, t, tour) && (to != Concluded ==> winner == None)
    ensures TourOk(owner, t, tour.(status := to, winner := winner))
  {
    var tour' := tour.(status := to, winner := winner);
    if tour.matches != map[] {
      var order, R :| Holds(tour, order, R);
      assert Holds(tour', order, R);
    }
  }

  /** The parts of the world a status move cannot touch. */
  lemma MoveKeepsTheRest(w: World, t: TournamentId, tour: Tour, ledger: set<Entry>, conclusions: seq<TournamentId>)
    requires WorldOk(w) && t in w.db.tours && TourOk(w.owner, t, tour)
    requires tour.matches == w.db.tours[t].matches && tour.entrants == w.db.tours[t].entrants
    requires w.db.ledger <= ledger
    ensures var w' := w.(db := w.db.(tours := w.db.tours[t := tour], ledger := ledger), conclusions := conclusions);
      ToursOk(w') && RequestsOk(w') && CheckinsOk(w') && IdsOk(w')
  {
    var w' := w.(db := w.db.(tours := w.db.tours[t := tour], ledger := ledger), conclusions := conclusions);
    forall rid | rid in w'.requests ensures RequestOk(w'.owner, w'.db.tours, w'.requests[rid]) {
      assert RequestOk(w.owner, w.db.tours, w.requests[rid]);
    }
    assert forall u :: u in w.db.tours ==> EntriesIssued(w.issued, w.db.tours[u]);
  }

  lemma ConclusionKeepsWorld(w: World, t: TournamentId, winner: Option<EntrantId>, awards: seq<Award>, ledger: set<Entry>)
    requires WorldOk(w) && t in w.db.tours && w.db.tours[t].status != Concluded
    requires SoundAwards(w.owner, t, awards)
    requires InsertAwards(w.db.players, w.db.ledger, awards, Some(t), None) == Ok(ledger)
    ensures WorldOk(w.(db := w.db.(tours := w.db.tours[t := w.db.tours[t].(status := Concluded, winner := winner)],
                                   ledger := ledger),
                       conclusions := w.conclusions + [t]))
  {
    var tour := w.db.tours[t].(status := Concluded, winner := winner);
    var w' := w.(db := w.db.(tours := w.db.tours[t := tour], ledger := ledger), conclusions := w.conclusions + [t]);
    MovedTourKept(w.owner, t, w.db.tours[t], Concluded, winner);
    InsertAwardsAdds(w.db.players, w.db.ledger, awards, Some(t), None);
    MoveKeepsTheRest(w, t, tour, ledger, w.conclusions + [t]);
    forall x | x in ledger ensures EntryOk(w', x) {
      if x in w.db.ledger {
        assert EntryOk(w, x);
      } else {
        var a :| a in awards && x == ToEntry(a, Some(t), None);
        assert AwardOf(w.owner, t, a);
      }
    }
    assert ConclusionsOk(w');
  }

  lemma MoveKeepsWorld(w: World, t: TournamentId, to: Status)
    requires WorldOk(w) && t in w.db.tours && w.db.tours[t].status != Concluded && to != Concluded
    ensures WorldOk(w.(db := w.db.(tours := w.db.tours[t := w.db.tours[t].(status := to, winner := None)])))
  {
    var tour := w.db.tours[t].(status := to, winner := None);
    var w' := w.(db := w.db.(tours := w.db.tours[t := tour]));
    MovedTourKept(w.owner, t, w.db.tours[t], to, None);
    MoveKeepsTheRest(w, t, tour, w.db.ledger, w.conclusions);
    forall x | x in w.db.ledger ensures EntryOk(w', x) {
      assert EntryOk(w, x);
    }
    assert ConclusionsOk(w');
  }

  // ---------- commits ----------

  lemma BlankRequestOk(w: World, rid: int, write: Write, answer: Result<Effect, ServiceError>)
    requires RequestsOk(w) && rid in w.requests
    requires write.WriteEntrant? ==> write.guard.status != Concluded
    ensures forall r :: r in AfterWrite(w, rid, write, answer) ==>
              RequestOk(w.owner, w.db.tours, AfterWrite(w, rid, write, answer)[r])
  {
  }

  /** No decision guards a write by the status `concluded`. */
  lemma GuardsAreNeverConcluded(q: Request, chance: Chance)
    requires Ready(q) && Plan(q, chance).Ok? && (q.intent.FixSkill? ==> q.intent.guard.status != Concluded)
    ensures GuardStatus(Plan(q, chance).value) != Some(Concluded)
  {
  }

  /** The status a write needs the tournament to have. */
  function GuardStatus(write: Write): Option<Status> {
    match write
    case NoWrite => None
    case WriteResult(expected, _, _) => Some(expected)
    case WriteBracket(expected, _, _) => Some(expected)
    case WriteNoBracket(expected) => Some(expected)
    case WriteStatus(from, _, _, _) => Some(from)
    case WriteEntrant(_, _, _, guard) => Some(guard.status)
    case WriteSkill(_, _, guard) => Some(guard.status)
    case WriteRemoval(_, guard) => Some(guard.status)
    case WriteRetirement(_, guard) => Some(guard.status)
    case WriteFields(expected, _) => Some(expected)
  }

  /** A commit changes the store by its one write and nothing else. */
  lemma CommitWrites(w: World, rid: int, chance: Chance)
    requires rid in w.requests && Ready(w.requests[rid]) && FairChance(w, w.requests[rid], chance)
    requires Plan(w.requests[rid], chance).Ok?
    ensures CommitRequest(w, rid, chance).db ==
            Execute(w.db, w.requests[rid].t, Plan(w.requests[rid], chance).value).0
  {
  }

  /** What a commit does to the world, one tournament write at a time. */
  lemma CommitShape(w: World, rid: int, chance: Chance)
    requires rid in w.requests && Ready(w.requests[rid]) && FairChance(w, w.requests[rid], chance)
    requires Plan(w.requests[rid], chance).Ok? && w.requests[rid].t in w.db.tours
    requires !Plan(w.requests[rid], chance).value.WriteStatus?
    ensures var q := w.requests[rid]; var write := Plan(q, chance).value;
      var (tour', answer) := WriteTour(w.db.players, w.db.tours[q.t], write);
      var w0 := w.(requests := AfterWrite(w, rid, write, answer));
      CommitRequest(w, rid, chance) ==
        if answer == Ok(Wrote) && write.WriteEntrant? then
          WithTour(w0, q.t, tour', w.owner, w.issued + {write.id})
        else if answer == Ok(Wrote) && write.WriteBracket? then
          WithTour(w0, q.t, tour', w.owner + OwnerMap(Blank(write.order, write.ids), q.t),
                   w.issued + FlatIds(Blank(write.order, write.ids)))
        else WithTour(w0, q.t, tour', w.owner, w.issued)
  {
  }

  lemma RefusedRebuildChangesNothing(players: map<PlayerId, bool>, tour: Tour, write: Write)
    requires write.WriteBracket? && |write.order| >= 2
    requires WriteTour(players, tour, write).1 != Ok(Wrote)
    ensures WriteTour(players, tour, write).0 == tour
  {
  }

  lemma EntriesStayIssued(issued: set<int>, players: map<PlayerId, bool>, tour: Tour, write: Write)
    requires EntriesIssued(issued, tour) && (write.WriteBracket? ==> |write.order| >= 2)
    requires write.WriteEntrant? ==> WriteTour(players, tour, write).1 != Ok(Wrote)
    ensures EntriesIssued(issued, WriteTour(players, tour, write).0)
  {
  }

  lemma NewEntryIssued(issued: set<int>, players: map<PlayerId, bool>, tour: Tour, write: Write)
    requires EntriesIssued(issued, tour) && write.WriteEntrant?
    ensures EntriesIssued(issued + {write.id}, WriteTour(players, tour, write).0)
  {
  }

  lemma CommitTourWrite(w: World, rid: int, chance: Chance)
    requires WorldOk(w) && rid in w.requests && Ready(w.requests[rid])
    requires FairChance(w, w.requests[rid], chance) && Plan(w.requests[rid], chance).Ok?
    requires !Plan(w.requests[rid], chance).value.WriteStatus? && w.requests[rid].t in w.db.tours
    ensures WorldOk(CommitRequest(w, rid, chance))
  {
    var q := w.requests[rid];
    var t, write := q.t, Plan(q, chance).value;
    var tour := w.db.tours[t];
    var (tour', answer) := WriteTour(w.db.players, tour, write);
    var w0 := w.(requests := AfterWrite(w, rid, write, answer));
    CommitShape(w, rid, chance);
    assert RequestOk(w.owner, w.db.tours, q);
    GuardsAreNeverConcluded(q, chance);
    BlankRequestOk(w, rid, write, answer);
    FewerRequestsOk(w, w0.requests);
    DecisionIsSound(w, rid, chance);
    assert EntriesIssued(w.issued, tour);
    if write.WriteBracket? && answer != Ok(Wrote) {
      RefusedRebuildChangesNothing(w.db.players, tour, write);
      assert w.db.tours[t := tour] == w.db.tours;
      assert WithTour(w0, t, tour', w.owner, w.issued) == w0;
    } else if write.WriteBracket? {
      SoundRebuildKeepsWorld(w0, t, write);
    } else if write.WriteEntrant? && answer == Ok(Wrote) {
      NewEntryIssued(w.issued, w.db.players, tour, write);
      SoundWriteKeepsWorld(w0, t, write, w.issued + {write.id});
    } else {
      EntriesStayIssued(w.issued, w.db.players, tour, write);
      SoundWriteKeepsWorld(w0, t, write, w.issued);
    }
  }

  /** A sound rebuild, with the match ids it hands out. */
  lemma SoundRebuildKeepsWorld(w: World, t: TournamentId, write: Write)
    requires WorldOk(w) && t in w.db.tours && Sound(w.owner, w.db.tours[t], write)
    requires write.WriteBracket? && FlatIds(Blank(write.order, write.ids)) !! w.issued
    ensures var tour' := WriteTour(w.db.players, w.db.tours[t], write).0; var R := Blank(write.order, write.ids);
      WorldOk(WithTour(w, t, tour', w.owner + OwnerMap(R, t), w.issued + FlatIds(R)))
  {
    var tour := w.db.tours[t];
    var tour' := WriteTour(w.db.players, tour, write).0;
    var R := Blank(write.order, write.ids);
    WriteTourKeeps(w.owner, t, w.db.players, tour, write);
    assert EntriesIssued(w.issued, tour);
    TourWriteKeepsWorld(w, t, tour', w.owner + OwnerMap(R, t), w.issued + FlatIds(R));
  }

  /** Any other sound write to one tournament. */
  lemma SoundWriteKeepsWorld(w: World, t: TournamentId, write: Write, issued: set<int>)
    requires WorldOk(w) && t in w.db.tours && Sound(w.owner, w.db.tours[t], write) && !write.WriteBracket?
    requires w.issued <= issued && EntriesIssued(issued, WriteTour(w.db.players, w.db.tours[t], write).0)
    ensures WorldOk(WithTour(w, t, WriteTour(w.db.players, w.db.tours[t], write).0, w.owner, issued))
  {
    WriteTourKeeps(w.owner, t, w.db.players, w.db.tours[t], write);
    TourWriteKeepsWorld(w, t, WriteTour(w.db.players, w.db.tours[t], write).0, w.owner, issued);
  }

  /** What a commit of a status move does to the world. */
  lemma StatusShape(w: World, rid: int, chance: Chance)
    requires rid in w.requests && Ready(w.requests[rid]) && FairChance(w, w.requests[rid], chance)
    requires Plan(w.requests[rid], chance).Ok? && Plan(w.requests[rid], chance).value.WriteStatus?
    ensures var q := w.requests[rid]; var write := Plan(q, chance).value;
      var (db, written) := SetStatus(w.db, q.t, write.from, write.to, write.winner, write.awards);
      var w0 := w.(requests := w.requests - {rid});
      CommitRequest(w, rid, chance) ==
        if written == Ok(true) && write.to == Concluded then
          w0.(db := db, conclusions := w.conclusions + [q.t])
        else if written == Ok(true) then w0.(db := db)
        else w0
  {
  }

  /** A status move that goes through, on the tournament it names. */
  lemma SetStatusKeepsWorld(
      w: World, t: TournamentId, from: Status, to: Status, winner: Option<EntrantId>, awards: seq<Award>)
    requires WorldOk(w) && from != Concluded && SoundAwards(w.owner, t, awards)
    requires to != Concluded ==> winner == None && awards == []
    requires SetStatus(w.db, t, from, to, winner, awards).1 == Ok(true)
    ensures var w' := w.(db := SetStatus(w.db, t, from, to, winner, awards).0);
      WorldOk(if to == Concluded then w'.(conclusions := w.conclusions + [t]) else w')
  {
    var db := SetStatus(w.db, t, from, to, winner, awards).0;
    if to == Concluded {
      ConclusionKeepsWorld(w, t, winner, awards, db.ledger);
    } else {
      MoveKeepsWorld(w, t, to);
    }
  }

  lemma CommitStatusWrite(w: World, rid: int, chance: Chance)
    requires WorldOk(w) && rid in w.requests && Ready(w.requests[rid])
    requires FairChance(w, w.requests[rid], chance) && Plan(w.requests[rid], chance).Ok?
    requires Plan(w.requests[rid], chance).value.WriteStatus?
    ensures WorldOk(CommitRequest(w, rid, chance))
  {
    var q := w.requests[rid];
    var t, write := q.t, Plan(q, chance).value;
    var w0 := w.(requests := w.requests - {rid});
    FewerRequestsOk(w, w0.requests);
    StatusPlan(q, chance);
    PlannedAwardsAreSound(w, rid, chance);
    StatusShape(w, rid, chance);
    if SetStatus(w.db, t, write.from, write.to, write.winner, write.awards).1 == Ok(true) {
      SetStatusKeepsWorld(w0, t, write.from, write.to, write.winner, write.awards);
    }
  }

  lemma CommitKeepsWorld(w: World, rid: int, chance: Chance)
    requires WorldOk(w) && rid in w.requests && Ready(w.requests[rid])
    requires FairChance(w, w.requests[rid], chance)
    ensures WorldOk(CommitRequest(w, rid, chance))
  {
    var q := w.requests[rid];
    if Plan(q, chance).Err? {
      FewerRequestsOk(w, w.requests - {rid});
    } else if Plan(q, chance).value.WriteStatus? {
      CommitStatusWrite(w, rid, chance);
    } else if q.t in w.db.tours {
      CommitTourWrite(w, rid, chance);
    } else {
      FewerRequestsOk(w, w.requests - {rid});
      assert CommitRequest(w, rid, chance) == w.(requests := w.requests - {rid});
    }
  }

  // ---------- reads ----------

  lemma ReadMatchesKeeps(w: World, rid: int, rows: seq<Match>)
    requires WorldOk(w) && rid in w.requests && ListsMatches(rows, MatchesOf(w.db, w.requests[rid].t))
    ensures WorldOk(Next(w, ReadMatches(rid, rows)))
  {
    var q := w.requests[rid];
    assert RequestOk(w.owner, w.db.tours, q);
    if rows == [] {
      FewerRequestsOk(w, w.requests[rid := q.(bracket := Some(None))]);
    } else {
      StoredSnapshotOk(w, q.t, rows);
      FewerRequestsOk(w, w.requests[rid := q.(bracket := Some(Regrouped(rows)))]);
    }
  }

  /** A read of match rows that finds any finds a whole bracket. */
  lemma StoredSnapshotOk(w: World, t: TournamentId, rows: seq<Match>)
    requires WorldOk(w) && ListsMatches(rows, MatchesOf(w.db, t)) && rows != []
    ensures t in w.db.tours
    ensures Regrouped(rows).Some? && SnapshotOk(w.owner, w.db.tours, t, Regrouped(rows).value)
    ensures exists order :: Holds(w.db.tours[t], order, Regrouped(rows).value)
  {
    var tour := w.db.tours[t];
    assert TourOk(w.owner, t, tour);
    assert tour.matches != map[];
    var order, R :| Holds(tour, order, R);
    ReadGivesStoredBracket(rows, tour.matches, order, R);
    StoredIsCompatible(R, tour.matches);
  }

  lemma ReadEntrantsKeeps(w: World, rid: int, list: seq<Entrant>)
    requires WorldOk(w) && rid in w.requests && ListsEntrants(list, EntrantsOf(w.db, w.requests[rid].t))
    ensures WorldOk(Next(w, ReadEntrants(rid, list)))
  {
    var q := w.requests[rid];
    assert RequestOk(w.owner, w.db.tours, q);
    if q.t in w.db.tours {
      assert TourOk(w.owner, q.t, w.db.tours[q.t]);
    }
    ReadGivesEveryEntrant(list, EntrantsOf(w.db, q.t));
    FewerRequestsOk(w, w.requests[rid := q.(entrants := Some(list))]);
  }

  lemma RequestStepKeeps(w: World, action: Action)
    requires WorldOk(w)
    requires action.Begin? || action.ReadTour? || action.ReadEntrants? || action.ReadMatches? || action.Commit?
    ensures WorldOk(Next(w, action))
  {
    match action {
      case Begin(rid, t, intent) =>
        if !intent.FixSkill? {
          FewerRequestsOk(w, w.requests[rid := Request(t, intent, None, None, None)]);
        }
      case ReadTour(rid) =>
        if rid in w.requests {
          var q := w.requests[rid];
          assert RequestOk(w.owner, w.db.tours, q);
          FewerRequestsOk(w, w.requests - {rid});
          if q.t in w.db.tours {
            var tour := w.db.tours[q.t];
            FewerRequestsOk(w, w.requests[rid :=
              q.(view := Some(ViewOf(tour)))]);
          }
        }
      case ReadEntrants(rid, list) =>
        if rid in w.requests && ListsEntrants(list, EntrantsOf(w.db, w.requests[rid].t)) {
          ReadEntrantsKeeps(w, rid, list);
        }
      case ReadMatches(rid, rows) =>
        if rid in w.requests && ListsMatches(rows, MatchesOf(w.db, w.requests[rid].t)) {
          ReadMatchesKeeps(w, rid, rows);
        }
      case Commit(rid, chance) =>
        if rid in w.requests && Ready(w.requests[rid]) && FairChance(w, w.requests[rid], chance) {
          CommitKeepsWorld(w, rid, chance);
        }
    }
  }

  // ---------- tournaments and players ----------

  lemma CreateTourKeeps(w: World, t: TournamentId, closesAt: int)
    requires WorldOk(w) && t !in w.issued
    ensures WorldOk(Next(w, CreateTour(t, closesAt)))
  {
    var w' := Next(w, CreateTour(t, closesAt));
    assert ToursOk(w') by {
      assert TourOk(w.owner, t, w'.db.tours[t]);
    }
    forall rid | rid in w'.requests ensures RequestOk(w'.owner, w'.db.tours, w'.requests[rid]) {
      assert RequestOk(w.owner, w.db.tours, w.requests[rid]);
    }
    forall x | x in w'.db.ledger ensures EntryOk(w', x) {
      assert EntryOk(w, x);
    }
    assert IdsOk(w') && ConclusionsOk(w');
  }

  lemma RemoveTourKeeps(w: World, t: TournamentId)
    requires WorldOk(w)
    ensures WorldOk(Next(w, RemoveTour(t)))
  {
    var w' := Next(w, RemoveTour(t));
    forall rid | rid in w'.requests ensures RequestOk(w'.owner, w'.db.tours, w'.requests[rid]) {
      assert RequestOk(w.owner, w.db.tours, w.requests[rid]);
    }
    forall x | x in w'.db.ledger ensures EntryOk(w', x) {
      assert EntryOk(w, x);
    }
    forall e, p | (e, p) in w'.db.checkins ensures CheckinEntry(e, p) in w'.db.ledger {
    }
    assert ToursOk(w') && IdsOk(w') && ConclusionsOk(w');
  }

  lemma RemovePlayerKeepsTours(w: World, p: PlayerId)
    requires WorldOk(w)
    ensures var w' := Next(w, RemovePlayer(p));
      ToursOk(w') && RequestsOk(w') && IdsOk(w') && ConclusionsOk(w')
  {
    var w' := Next(w, RemovePlayer(p));
    forall t | t in w'.db.tours ensures TourOk(w'.owner, t, w'.db.tours[t]) {
      ForgetPlayerKeeps(w.owner, t, w.db.tours[t], p);
    }
    forall rid | rid in w'.requests ensures RequestOk(w'.owner, w'.db.tours, w'.requests[rid]) {
      assert RequestOk(w.owner, w.db.tours, w.requests[rid]);
    }
    forall t | t in w'.db.tours ensures EntriesIssued(w'.issued, w'.db.tours[t]) {
      assert EntriesIssued(w.issued, w.db.tours[t]);
    }
  }

  lemma RemovePlayerKeeps(w: World, p: PlayerId)
    requires WorldOk(w)
    ensures WorldOk(Next(w, RemovePlayer(p)))
  {
    var w' := Next(w, RemovePlayer(p));
    RemovePlayerKeepsTours(w, p);
    assert forall t :: t in w'.db.tours ==> w'.db.tours[t].status == w.db.tours[t].status;
    forall x | x in w'.db.ledger ensures EntryOk(w', x) {
      assert EntryOk(w, x);
    }
    forall e, q | (e, q) in w'.db.checkins
      ensures e in w'.db.events && q in w'.db.players && CheckinEntry(e, q) in w'.db.ledger
    {
      assert (e, q) in w.db.checkins && (e, q).1 != p;
    }
  }

  // ---------- events and the ledger ----------

  /** Changes to players, events, check-ins and the ledger alone. */
  lemma DoorKeepsTours(w: World, db: Db, issued: set<int>)
    requires WorldOk(w) && db.tours == w.db.tours && w.issued <= issued
    ensures var w' := w.(db := db, issued := issued);
      ToursOk(w') && RequestsOk(w') && IdsOk(w') && ConclusionsOk(w')
  {
    var w' := w.(db := db, issued := issued);
    forall t | t in db.tours ensures EntriesIssued(issued, db.tours[t]) {
      assert EntriesIssued(w.issued, w.db.tours[t]);
    }
  }

  lemma CheckInOutcome(w: World, e: EventId, p: PlayerId, at: int)
    requires WorldOk(w)
    ensures var (db, answer) := CheckIn(w.db, e, p, at);
      && answer != Err(UniqueViolation)
      && (answer.Ok? && answer.value.NewCheckin? <==>
            (e, p) !in w.db.checkins && e in w.db.events && p in w.db.players)
      && (answer.Ok? && answer.value.NewCheckin? ==>
            db == w.db.(checkins := w.db.checkins[(e, p) := at], ledger := w.db.ledger + {CheckinEntry(e, p)})
            && !KeyTaken(w.db.ledger, CheckinEntry(e, p).Key()))
      && (!(answer.Ok? && answer.value.NewCheckin?) ==> db == w.db)
  {
    InsertOne(w.db.players, w.db.ledger, CheckinAward(e, p), None, Some(e));
    if (e, p) !in w.db.checkins {
      forall x | x in w.db.ledger ensures x.Key() != CheckinEntry(e, p).Key() {
        assert EntryOk(w, x);
      }
    }
  }

  lemma InsertOne(
      players: map<PlayerId, bool>, ledger: set<Entry>, a: Award,
      tournament: Option<TournamentId>, event: Option<EventId>)
    ensures InsertAwards(players, ledger, [a], tournament, event) ==
            if KeyTaken(ledger, a.Key()) then Err(UniqueViolation)
            else if a.player !in players then Err(ForeignKeyViolation)
            else Ok(ledger + {ToEntry(a, tournament, event)})
  {
    assert [a][1..] == [];
    assert ToEntry(a, tournament, event).Key() == a.Key();
    assert InsertAwards(players, ledger + {ToEntry(a, tournament, event)}, [], tournament, event) ==
           Ok(ledger + {ToEntry(a, tournament, event)});
  }

  lemma CheckInKeeps(w: World, e: EventId, p: PlayerId, at: int)
    requires WorldOk(w)
    ensures WorldOk(w.(db := CheckIn(w.db, e, p, at).0))
  {
    var (db, answer) := CheckIn(w.db, e, p, at);
    var w' := w.(db := db);
    CheckInOutcome(w, e, p, at);
    DoorKeepsTours(w, db, w.issued);
    if answer.Ok? && answer.value.NewCheckin? {
      assert UniqueKeys(db.ledger);
      forall x | x in db.ledger ensures EntryOk(w', x) {
        if x in w.db.ledger {
          assert EntryOk(w, x);
        }
      }
      assert CheckinsOk(w');
    }
  }

  lemma UndoCheckinKeeps(w: World, e: EventId, p: PlayerId)
    requires WorldOk(w)
    ensures WorldOk(w.(db := RemoveCheckin(w.db, e, p).0))
  {
    var db := RemoveCheckin(w.db, e, p).0;
    var w' := w.(db := db);
    DoorKeepsTours(w, db, w.issued);
    forall x | x in db.ledger ensures EntryOk(w', x) {
      assert EntryOk(w, x);
    }
    assert CheckinsOk(w');
  }

  lemma RemoveEventKeeps(w: World, e: EventId)
    requires WorldOk(w)
    ensures WorldOk(w.(db := DeleteEvent(w.db, e)))
  {
    var db := DeleteEvent(w.db, e);
    var w' := w.(db := db);
    DoorKeepsTours(w, db, w.issued);
    forall x | x in db.ledger ensures EntryOk(w', x) {
      assert EntryOk(w, x);
    }
    forall f, p | (f, p) in db.checkins ensures f in db.events && p in db.players && CheckinEntry(f, p) in db.ledger {
      assert (f, p) in w.db.checkins && (f, p).0 != e;
    }
  }

  lemma AdjustKeeps(w: World, id: int, p: PlayerId, amount: int)
    requires WorldOk(w) && id !in w.issued
    ensures WorldOk(Next(w, Adjust(id, p, amount)))
    ensures AddAdjustment(w.db, id, p, amount).1 != Err(UniqueViolation)
  {
    var w' := Next(w, Adjust(id, p, amount));
    DoorKeepsTours(w, w'.db, w'.issued);
    AdjustmentEntriesOk(w, id, p, amount);
    assert CheckinsOk(w');
  }

  lemma AdjustmentEntriesOk(w: World, id: int, p: PlayerId, amount: int)
    requires WorldOk(w) && id !in w.issued
    ensures LedgerOk(Next(w, Adjust(id, p, amount)))
    ensures !KeyTaken(w.db.ledger, (Adjustment, p, id))
  {
    var w' := Next(w, Adjust(id, p, amount));
    forall x | x in w.db.ledger ensures x.Key() != (Adjustment, p, id) && EntryOk(w', x) {
      assert EntryOk(w, x);
    }
  }

  /** New players and new or changed events touch nothing else. */
  lemma DoorRowsKeep(w: World, players: map<PlayerId, bool>, events: map<EventId, EventRow>, issued: set<int>)
    requires WorldOk(w) && w.issued <= issued
    requires w.db.players.Keys <= players.Keys && w.db.events.Keys <= events.Keys
    ensures WorldOk(w.(db := w.db.(players := players, events := events), issued := issued))
  {
    var w' := w.(db := w.db.(players := players, events := events), issued := issued);
    DoorKeepsTours(w, w'.db, issued);
    forall x | x in w.db.ledger ensures EntryOk(w', x) {
      assert EntryOk(w, x);
    }
    assert CheckinsOk(w');
  }

  lemma SignUpKeeps(w: World, p: PlayerId, admin: bool)
    requires WorldOk(w)
    ensures WorldOk(Next(w, SignUp(p, admin)))
  {
    if p !in w.issued {
      DoorRowsKeep(w, w.db.players[p := admin], w.db.events, w.issued + {p});
    }
  }

  lemma CreateEventKeeps(w: World, e: EventId, event: EventRow)
    requires WorldOk(w)
    ensures WorldOk(Next(w, CreateEvent(e, event)))
  {
    if e !in w.issued {
      DoorRowsKeep(w, w.db.players, w.db.events[e := event], w.issued + {e});
    }
  }

  lemma SetEventStatusKeeps(w: World, e: EventId, published: bool)
    requires WorldOk(w)
    ensures WorldOk(Next(w, SetEventStatus(e, published)))
  {
    if e in w.db.events {
      DoorRowsKeep(w, w.db.players, w.db.events[e := w.db.events[e].(published := published)], w.issued);
    }
  }

  // ---------- every step ----------

  lemma RecordKeepsWorld(w: World, rid: int, at: int)
    requires WorldOk(w)
    ensures WorldOk(Next(w, RecordCheckin(rid, at)))
  {
    if rid in w.scans {
      var (e, p) := w.scans[rid];
      CheckInKeeps(w, e, p, at);
      ScansDoNotMatter(w.(db := CheckIn(w.db, e, p, at).0), w.scans - {rid});
    }
  }

  lemma ScanKeepsWorld(w: World, action: Action)
    requires WorldOk(w)
    requires action.Scan? || action.ManualCheckin?
    ensures WorldOk(Next(w, action))
  {
    ScansDoNotMatter(w, Next(w, action).scans);
    assert Next(w, action) == w.(scans := Next(w, action).scans);
  }

  lemma CheckinKeepsWorld(w: World, action: Action)
    requires WorldOk(w)
    requires action.RemoveEvent? || action.RecordCheckin? || action.UndoCheckin?
    ensures WorldOk(Next(w, action))
  {
    match action {
      case RemoveEvent(e) => RemoveEventKeeps(w, e);
      case RecordCheckin(rid, at) => RecordKeepsWorld(w, rid, at);
      case UndoCheckin(e, p) => UndoCheckinKeeps(w, e, p);
    }
  }

  /** The steps at the door and in the ledger. */
  lemma DoorKeepsWorld(w: World, action: Action)
    requires WorldOk(w)
    requires action.SignUp? || action.CreateEvent? || action.SetEventStatus? || action.RemoveEvent? || action.Scan?
             || action.ManualCheckin? || action.RecordCheckin? || action.UndoCheckin? || action.Adjust?
    ensures WorldOk(Next(w, action))
  {
    if action.SignUp? {
      SignUpKeeps(w, action.p, action.admin);
    } else if action.CreateEvent? {
      CreateEventKeeps(w, action.e, action.event);
    } else if action.SetEventStatus? {
      SetEventStatusKeeps(w, action.e, action.published);
    } else if action.Scan? || action.ManualCheckin? {
      ScanKeepsWorld(w, action);
    } else if action.Adjust? {
      if action.id in w.issued {
        assert Next(w, action) == w;
      } else {
        AdjustKeeps(w, action.id, action.p, action.amount);
      }
    } else {
      CheckinKeepsWorld(w, action);
    }
  }

  lemma NextKeepsWorld(w: World, action: Action)
    requires WorldOk(w)
    ensures WorldOk(Next(w, action))
  {
    if action.CreateTour? {
      if action.t !in w.issued {
        CreateTourKeeps(w, action.t, action.closesAt);
      }
    } else if action.RemoveTour? {
      RemoveTourKeeps(w, action.t);
    } else if action.RemovePlayer? {
      RemovePlayerKeeps(w, action.p);
    } else if action.Begin? || action.ReadTour? || action.ReadEntrants? || action.ReadMatches? || action.Commit? {
      RequestStepKeeps(w, action);
    } else {
      DoorKeepsWorld(w, action);
    }
  }

  /** The invariant holds after every interleaving of every number of requests. */
  lemma {:induction false} PlayKeepsWorld(w: World, actions: seq<Action>)
    requires WorldOk(w)
    ensures WorldOk(Play(w, actions))
    decreases |actions|
  {
    if actions != [] {
      PlayKeepsWorld(w, actions[..|actions| - 1]);
      NextKeepsWorld(Play(w, actions[..|actions| - 1]), actions[|actions| - 1]);
    }
  }

  /** Some interleaving of requests leads to this world. */
  ghost predicate Reachable(w: World) {
    exists actions :: Play(START, actions) == w
  }

  /** The invariant of the world is an invariant of every run. */
  lemma ReachableIsOk(w: World)
    requires Reachable(w)
    ensures WorldOk(w)
  {
    assert WorldOk(START);
    var actions :| Play(START, actions) == w;
    PlayKeepsWorld(START, actions);
  }
}
