/** What the protocol guarantees under every interleaving. */
module Guarantees {
  import opened Basics
  import opened Brackets
  import opened BracketRules
  import opened Elimination
  import opened Entrants
  import opened Points
  import opened Tables
  import opened Protocol
  import opened StoreInvariants
  import opened StoreWrites
  import opened WorldInvariant
  import opened WorldSteps

  // ---------- the stored matches ----------

  /** After any interleaving, the match rows of a tournament are none at all or
      a valid bracket of entrants that have a row, seeded 1 to n in the order
      round one reads. */
  lemma StoredMatchesAreABracket(w: World, t: TournamentId)
    requires Reachable(w) && t in w.db.tours
    ensures w.db.tours[t].matches == map[] || exists order, R :: Holds(w.db.tours[t], order, R)
  {
    ReachableIsOk(w);
    assert TourOk(w.owner, t, w.db.tours[t]);
  }

  /** Every entrant a stored match names is a row of the tournament, and the
      seed of an entrant is one more than the place in the order. */
  lemma NamedEntrantsHaveRows(tour: Tour, order: seq<EntrantId>, R: Rounds)
    requires Holds(tour, order, R)
    ensures forall id, e :: id in tour.matches
              && (tour.matches[id].a == Some(e) || tour.matches[id].b == Some(e) || tour.matches[id].winner == Some(e))
              ==> e in tour.entrants
    ensures forall i :: 0 <= i < |order| ==>
              order[i] in tour.entrants && tour.entrants[order[i]].seed == Some(i + 1)
    ensures forall e :: e in tour.entrants && e !in order ==> tour.entrants[e].seed == None
  {
    forall id, e | id in tour.matches
        && (tour.matches[id].a == Some(e) || tour.matches[id].b == Some(e) || tour.matches[id].winner == Some(e))
      ensures e in tour.entrants
    {
      var (r, s) := Locate(R, id).value;
      assert tour.matches[id] == R[r][s] && Settled(R[r][s]);
      SitsUnderHome(order, R, r, s, e);
    }
    forall i | 0 <= i < |order|
      ensures order[i] in tour.entrants && tour.entrants[order[i]].seed == Some(i + 1)
    {
      assert order[i] in order;
      var seed := SeedOf(order, order[i]);
      assert order[seed.value - 1] == order[i];
    }
  }

  // ---------- results ----------

  /** The request reports or clears a result, has read a bracket, and its
      operation on that snapshot changes something. */
  ghost predicate EntersResult(q: Request) {
    && q.intent.EnterResult? && Ready(q)
    && q.bracket.value.Some?
    && Apply(q.bracket.value.value, q.intent.op).Ok?
    && Apply(q.bracket.value.value, q.intent.op).value.changed != []
  }

  /** Linearization: in any reachable world, if a result commits from a snapshot
      of any age, the commit does to the stored bracket exactly what the
      operation itself does to it at that moment, in the status it was read in. */
  lemma ResultsActAtTheirCommit(w: World, rid: int, chance: Chance)
    requires Reachable(w) && rid in w.requests && EntersResult(w.requests[rid])
    requires Plan(w.requests[rid], chance).Ok?
    requires Execute(w.db, w.requests[rid].t, Plan(w.requests[rid], chance).value).1 == Ok(Wrote)
    ensures var q := w.requests[rid]; var db' := Execute(w.db, q.t, Plan(q, chance).value).0;
      && q.t in w.db.tours && q.t in db'.tours
      && w.db.tours[q.t].status == q.view.value.status != Concluded
      && exists order, C ::
           && Holds(w.db.tours[q.t], order, C)
           && Apply(C, q.intent.op).Ok?
           && Holds(db'.tours[q.t], order, After(C, q.intent.op))
           && db' == w.db.(tours := w.db.tours[q.t :=
                w.db.tours[q.t].(matches := Overlay(w.db.tours[q.t].matches, Apply(C, q.intent.op).value.changed))])
  {
    ReachableIsOk(w);
    var q := w.requests[rid];
    var op, R := q.intent.op, q.bracket.value.value;
    assert RequestOk(w.owner, w.db.tours, q);
    assert Plan(q, chance).value == WriteResult(q.view.value.status, R, op);
    var tour := w.db.tours[q.t];
    assert TourOk(w.owner, q.t, tour);
    var orderR :| Valid(orderR, R);
    ResultNeedsRows(tour, q.view.value.status, R, op);
    var order, C :| Holds(tour, order, C);
    CommittedResultIsAtomic(tour, q.view.value.status, orderR, R, op, order, C);
  }

  // ---------- concluded is final ----------

  /** The same rows, but for accounts that were deleted. */
  ghost predicate SameButForgotten(a: Tour, b: Tour) {
    && b.status == a.status && b.closesAt == a.closesAt && b.winner == a.winner && b.matches == a.matches
    && b.entrants.Keys == a.entrants.Keys
    && forall e :: e in a.entrants ==>
         && b.entrants[e].seed == a.entrants[e].seed && b.entrants[e].skill == a.entrants[e].skill
         && (b.entrants[e].player == a.entrants[e].player || b.entrants[e].player == None)
  }

  /** Nothing about a tournament moved, and nothing more was paid for it. */
  ghost predicate Frozen(w: World, w': World, t: TournamentId) {
    && t in w.db.tours
    && (t in w'.db.tours ==> SameButForgotten(w.db.tours[t], w'.db.tours[t]))
    && (forall x :: x in w'.db.ledger && x.tournament == Some(t) ==> x in w.db.ledger)
    && t in w.issued && t in w'.issued
  }

  lemma WrongStatusWritesNothing(players: map<PlayerId, bool>, tour: Tour, write: Write)
    requires GuardStatus(write).Some? ==> GuardStatus(write).value != tour.status
    requires write.WriteBracket? ==> |write.order| >= 2
    ensures WriteTour(players, tour, write).0 == tour
  {
  }

  lemma WrongStatusMovesNothing(db: Db, t: TournamentId, write: Write)
    requires write.WriteStatus? && t in db.tours && write.from != db.tours[t].status
    ensures Execute(db, t, write) == (db, Err(TournamentChanged))
  {
  }

  lemma MoveOnConcluded(w: World, rid: int, chance: Chance, t: TournamentId)
    requires WorldOk(w) && t in w.db.tours && w.db.tours[t].status == Concluded
    requires rid in w.requests && Ready(w.requests[rid]) && Plan(w.requests[rid], chance).Ok?
    requires Plan(w.requests[rid], chance).value.WriteStatus?
    ensures var db' := Execute(w.db, w.requests[rid].t, Plan(w.requests[rid], chance).value).0;
      && t in db'.tours && db'.tours[t] == w.db.tours[t]
      && forall x :: x in db'.ledger && x.tournament == Some(t) ==> x in w.db.ledger
  {
    var q := w.requests[rid];
    StatusPlan(q, chance);
    if q.t == t {
      WrongStatusMovesNothing(w.db, t, Plan(q, chance).value);
    } else {
      assert UniqueKeys(w.db.ledger);
      MoveElsewhere(w.db, q.t, t, Plan(q, chance).value);
    }
  }

  lemma CommitKeepsIssued(w: World, rid: int, chance: Chance)
    requires rid in w.requests && Ready(w.requests[rid]) && FairChance(w, w.requests[rid], chance)
    ensures w.issued <= CommitRequest(w, rid, chance).issued
  {
  }

  lemma CommitOnConcluded(w: World, rid: int, chance: Chance, t: TournamentId)
    requires WorldOk(w) && t in w.db.tours && w.db.tours[t].status == Concluded
    requires rid in w.requests && Ready(w.requests[rid]) && FairChance(w, w.requests[rid], chance)
    ensures Frozen(w, CommitRequest(w, rid, chance), t) && t in CommitRequest(w, rid, chance).db.tours
  {
    var q := w.requests[rid];
    assert t in w.issued by { assert IdsOk(w); }
    CommitKeepsIssued(w, rid, chance);
    if Plan(q, chance).Ok? {
      var write := Plan(q, chance).value;
      assert GuardStatus(write) != Some(Concluded) by {
        assert RequestOk(w.owner, w.db.tours, q);
        GuardsAreNeverConcluded(q, chance);
      }
      CommitWrites(w, rid, chance);
      if write.WriteStatus? {
        MoveOnConcluded(w, rid, chance, t);
      } else if q.t == t {
        WrongStatusWritesNothing(w.db.players, w.db.tours[t], write);
      }
    }
  }

  /** A status move elsewhere pays nothing for this tournament. */
  lemma MoveElsewhere(db: Db, u: TournamentId, t: TournamentId, write: Write)
    requires write.WriteStatus? && u != t && t in db.tours && UniqueKeys(db.ledger)
    ensures var db' := Execute(db, u, write).0;
      && t in db'.tours && db'.tours[t] == db.tours[t]
      && forall x :: x in db'.ledger && x.tournament == Some(t) ==> x in db.ledger
  {
    var inserted := InsertAwards(db.players, db.ledger, write.awards, Some(u), None);
    if inserted.Ok? {
      InsertAwardsAdds(db.players, db.ledger, write.awards, Some(u), None);
    }
  }

  /** What a step other than a commit or the end of an account can do to a
      tournament: create it or remove it, and never pay for it. */
  lemma OtherSteps(w: World, action: Action, t: TournamentId)
    requires !action.Commit? && !action.RemovePlayer? && !action.RecordCheckin?
    ensures var w' := Next(w, action);
      && (t in w.db.tours && t in w'.db.tours && t in w.issued ==> w'.db.tours[t] == w.db.tours[t])
      && (t in w'.db.tours && t !in w.db.tours ==> t !in w.issued)
      && (forall x :: x in w'.db.ledger ==> x in w.db.ledger || x.tournament == None)
      && w.issued <= w'.issued
  {
  }

  lemma CheckinStep(w: World, action: Action)
    requires WorldOk(w) && action.RecordCheckin?
    ensures var w' := Next(w, action);
      && w'.db.tours == w.db.tours
      && (forall x :: x in w'.db.ledger ==> x in w.db.ledger || x.tournament == None)
      && w.issued == w'.issued
  {
    if action.rid in w.scans {
      CheckInOutcome(w, w.scans[action.rid].0, w.scans[action.rid].1, action.at);
    }
  }

  lemma AccountStep(w: World, p: PlayerId, t: TournamentId)
    ensures var w' := Next(w, RemovePlayer(p));
      && w'.db.tours.Keys == w.db.tours.Keys
      && (t in w.db.tours ==> SameButForgotten(w.db.tours[t], w'.db.tours[t]))
      && (forall x :: x in w'.db.ledger ==> x in w.db.ledger)
      && w.issued == w'.issued
  {
  }

  lemma StepOnConcluded(w: World, action: Action, t: TournamentId)
    requires WorldOk(w) && t in w.db.tours && w.db.tours[t].status == Concluded
    ensures Frozen(w, Next(w, action), t)
  {
    assert t in w.issued by { assert IdsOk(w); }
    if action.Commit? {
      var (rid, chance) := (action.rid, action.chance);
      if rid in w.requests && Ready(w.requests[rid]) && FairChance(w, w.requests[rid], chance) {
        CommitOnConcluded(w, rid, chance, t);
      }
    } else if action.RemovePlayer? {
      AccountStep(w, action.p, t);
    } else if action.RecordCheckin? {
      CheckinStep(w, action);
    } else {
      OtherSteps(w, action, t);
    }
  }

  lemma ExecuteKeepsTours(db: Db, t: TournamentId, write: Write)
    requires write.WriteBracket? ==> |write.order| >= 2
    ensures Execute(db, t, write).0.tours.Keys == db.tours.Keys
  {
  }

  lemma CommitCreatesNothing(w: World, rid: int, chance: Chance)
    requires rid in w.requests && Ready(w.requests[rid]) && FairChance(w, w.requests[rid], chance)
    ensures CommitRequest(w, rid, chance).db.tours.Keys == w.db.tours.Keys
    ensures w.issued <= CommitRequest(w, rid, chance).issued
  {
    CommitKeepsIssued(w, rid, chance);
    if Plan(w.requests[rid], chance).Ok? {
      CommitWrites(w, rid, chance);
      ExecuteKeepsTours(w.db, w.requests[rid].t, Plan(w.requests[rid], chance).value);
    }
  }

  /** A removed tournament stays removed: its id is never handed out again. */
  lemma GoneStaysGone(w: World, action: Action, t: TournamentId)
    requires WorldOk(w) && t in w.issued && t !in w.db.tours
    ensures t !in Next(w, action).db.tours && t in Next(w, action).issued
    ensures forall x :: x in Next(w, action).db.ledger ==> x.tournament != Some(t)
  {
    NextKeepsWorld(w, action);
    var w' := Next(w, action);
    if action.Commit? {
      var (rid, chance) := (action.rid, action.chance);
      if rid in w.requests && Ready(w.requests[rid]) && FairChance(w, w.requests[rid], chance) {
        CommitCreatesNothing(w, rid, chance);
      }
    } else if action.RemovePlayer? {
      AccountStep(w, action.p, t);
    } else if action.RecordCheckin? {
      CheckinStep(w, action);
    } else {
      OtherSteps(w, action, t);
    }
    forall x | x in w'.db.ledger ensures x.tournament != Some(t) {
      assert EntryOk(w', x);
    }
  }

  /** Once a tournament is concluded, no later write of any request changes its
      row, its entrants or its matches, and nothing is paid for it again. It can
      only be removed as a whole, and entries can lose their accounts. */
  lemma {:induction false} ConcludedIsFinal(w: World, actions: seq<Action>, t: TournamentId)
    requires WorldOk(w) && t in w.db.tours && w.db.tours[t].status == Concluded
    ensures Frozen(w, Play(w, actions), t)
    decreases |actions|
  {
    if actions == [] {
      assert t in w.issued by { assert IdsOk(w); }
    } else {
      var before := actions[..|actions| - 1];
      var v := Play(w, before);
      ConcludedIsFinal(w, before, t);
      PlayKeepsWorld(w, before);
      if t in v.db.tours {
        StepOnConcluded(v, actions[|actions| - 1], t);
      } else {
        GoneStaysGone(v, actions[|actions| - 1], t);
      }
    }
  }

  lemma OnlyTheConcludedArePaid(w: World)
    requires WorldOk(w)
    ensures NoDup(w.conclusions)
    ensures forall t :: t in w.db.tours ==> (w.db.tours[t].status == Concluded <==> t in w.conclusions)
    ensures forall x :: x in w.db.ledger && x.tournament.Some? ==> x.tournament.value in w.conclusions
  {
    assert ConclusionsOk(w);
    forall x | x in w.db.ledger && x.tournament.Some? ensures x.tournament.value in w.conclusions {
      var t := x.tournament.value;
      assert EntryOk(w, x);
      assert t in w.db.tours && w.db.tours[t].status == Concluded;
      assert t in w.conclusions;
    }
  }

  /** In any run a tournament concludes at most one time, it is concluded from
      then on, and no cycles were paid for one that did not. */
  lemma ConcludesAtMostOnce(w: World)
    requires Reachable(w)
    ensures NoDup(w.conclusions)
    ensures forall t :: t in w.db.tours ==> (w.db.tours[t].status == Concluded <==> t in w.conclusions)
    ensures forall x :: x in w.db.ledger && x.tournament.Some? ==> x.tournament.value in w.conclusions
  {
    ReachableIsOk(w);
    OnlyTheConcludedArePaid(w);
  }

  /** A move writes the tournament row and every award, or nothing at all. */
  lemma MoveIsAllOrNothing(w: World, t: TournamentId, write: Write)
    requires WorldOk(w) && write.WriteStatus? && write.from != Concluded
    requires SoundAwards(w.owner, t, write.awards)
    ensures var (db', answer) := Execute(w.db, t, write);
      && answer != Err(StorageFailure(UniqueViolation))
      && (answer != Ok(Wrote) ==> db' == w.db)
      && (answer == Ok(Wrote) ==>
            && t in w.db.tours && w.db.tours[t].status == write.from
            && db'.tours == w.db.tours[t := w.db.tours[t].(status := write.to, winner := write.winner)]
            && db'.ledger == w.db.ledger + EntriesOf(write.awards, Some(t), None))
  {
    if t in w.db.tours && w.db.tours[t].status == write.from {
      NothingPaidBeforeTheEnd(w, t, write.awards);
      FreshKeysNeverCollide(w.db.players, w.db.ledger, write.awards, Some(t), None);
      assert UniqueKeys(w.db.ledger);
      if InsertAwards(w.db.players, w.db.ledger, write.awards, Some(t), None).Ok? {
        InsertAwardsAdds(w.db.players, w.db.ledger, write.awards, Some(t), None);
      }
    }
  }

  /** The conclusion and its payment are one step: every planned award becomes a
      row that was not there, or nothing is written at all, and the unique index
      is never what stops it. */
  lemma ConclusionPaysInOneStep(w: World, rid: int, chance: Chance)
    requires Reachable(w) && rid in w.requests && Ready(w.requests[rid])
    requires Plan(w.requests[rid], chance).Ok? && Plan(w.requests[rid], chance).value.WriteStatus?
    ensures var q := w.requests[rid]; var write := Plan(q, chance).value;
      var (db', answer) := Execute(w.db, q.t, write);
      && answer != Err(StorageFailure(UniqueViolation))
      && (answer != Ok(Wrote) ==> db' == w.db)
      && (answer == Ok(Wrote) ==>
            && q.t in w.db.tours && w.db.tours[q.t].status == write.from != Concluded
            && db'.tours == w.db.tours[q.t := w.db.tours[q.t].(status := write.to, winner := write.winner)]
            && db'.ledger == w.db.ledger + EntriesOf(write.awards, Some(q.t), None)
            && forall a :: a in write.awards ==> !KeyTaken(w.db.ledger, a.Key()))
  {
    ReachableIsOk(w);
    var q := w.requests[rid];
    StatusPlan(q, chance);
    PlannedAwardsAreSound(w, rid, chance);
    MoveIsAllOrNothing(w, q.t, Plan(q, chance).value);
    if q.t in w.db.tours && w.db.tours[q.t].status != Concluded {
      NothingPaidBeforeTheEnd(w, q.t, Plan(q, chance).value.awards);
    }
  }

  // ---------- the field is frozen ----------

  /** The field of a tournament, but for accounts and seeds. */
  ghost predicate SameField(a: Tour, b: Tour) {
    && b.entrants.Keys == a.entrants.Keys
    && forall e :: e in a.entrants ==>
         && b.entrants[e].skill == a.entrants[e].skill
         && (b.entrants[e].player == a.entrants[e].player || b.entrants[e].player == None)
  }

  lemma BracketFreezesField(players: map<PlayerId, bool>, tour: Tour, write: Write)
    requires tour.matches != map[] && (write.WriteBracket? ==> |write.order| >= 2)
    ensures SameField(tour, WriteTour(players, tour, write).0)
  {
  }

  lemma MoveKeepsEntrants(db: Db, u: TournamentId, write: Write, t: TournamentId)
    requires t in db.tours && (write.WriteStatus? || u !in db.tours)
    requires write.WriteBracket? ==> |write.order| >= 2
    ensures t in Execute(db, u, write).0.tours
    ensures Execute(db, u, write).0.tours[t].entrants == db.tours[t].entrants
  {
  }

  lemma CommitKeepsField(w: World, rid: int, chance: Chance, t: TournamentId)
    requires WorldOk(w) && t in w.db.tours && w.db.tours[t].matches != map[]
    requires rid in w.requests && Ready(w.requests[rid]) && FairChance(w, w.requests[rid], chance)
    ensures t in CommitRequest(w, rid, chance).db.tours
    ensures SameField(w.db.tours[t], CommitRequest(w, rid, chance).db.tours[t])
  {
    var q := w.requests[rid];
    if Plan(q, chance).Ok? {
      CommitWrites(w, rid, chance);
      if Plan(q, chance).value.WriteStatus? || q.t !in w.db.tours {
        MoveKeepsEntrants(w.db, q.t, Plan(q, chance).value, t);
      } else if q.t == t {
        BracketFreezesField(w.db.players, w.db.tours[t], Plan(q, chance).value);
      }
    }
  }

  /** While a tournament has a match, no step inserts an entrant, removes one or
      changes a level. */
  lemma FieldIsFrozenWhileAMatchExists(w: World, action: Action, t: TournamentId)
    requires WorldOk(w) && t in w.db.tours && w.db.tours[t].matches != map[]
    ensures t in Next(w, action).db.tours ==> SameField(w.db.tours[t], Next(w, action).db.tours[t])
  {
    assert t in w.issued by { assert IdsOk(w); }
    if action.Commit? {
      var (rid, chance) := (action.rid, action.chance);
      if rid in w.requests && Ready(w.requests[rid]) && FairChance(w, w.requests[rid], chance) {
        CommitKeepsField(w, rid, chance, t);
      }
    } else if action.RemovePlayer? {
      AccountStep(w, action.p, t);
    } else if action.RecordCheckin? {
      CheckinStep(w, action);
    } else {
      OtherSteps(w, action, t);
    }
  }

  /** Never more than 256 entrants and never two entries of one player. */
  lemma FieldIsBounded(w: World, t: TournamentId)
    requires Reachable(w) && t in w.db.tours
    ensures |w.db.tours[t].entrants| <= 256
    ensures OnePerPlayer(w.db.tours[t].entrants)
  {
    ReachableIsOk(w);
    assert TourOk(w.owner, t, w.db.tours[t]);
  }

  /** The bounded reads return every row there is. */
  lemma ReadsAreNeverCut(w: World, t: TournamentId, list: seq<Entrant>, rows: seq<Match>)
    requires Reachable(w) && t in w.db.tours
    requires ListsEntrants(list, w.db.tours[t].entrants) && ListsMatches(rows, w.db.tours[t].matches)
    ensures Elements(Ids(list)) == w.db.tours[t].entrants.Keys
    ensures Elements(MatchIds(rows)) == w.db.tours[t].matches.Keys
  {
    ReachableIsOk(w);
    var tour := w.db.tours[t];
    assert TourOk(w.owner, t, tour);
    ReadGivesEveryEntrant(list, tour.entrants);
    if tour.matches != map[] {
      var order, R :| Holds(tour, order, R);
      MostMatches(order, R);
      StoredIds(R, tour.matches);
    }
    ListedMatchesAreAll(rows, tour.matches);
  }

  // ---------- check-ins and the ledger ----------

  ghost function CheckinRows(db: Db, e: EventId, p: PlayerId): set<Entry> {
    set x | x in db.ledger && x.kind == Checkin && x.event == Some(e) && x.player == p
  }

  /** In every reachable world a check-in row exists exactly when the ledger
      holds exactly one check-in entry for it, and that entry is of 100 cycles. */
  lemma CheckinsMatchTheLedger(w: World, e: EventId, p: PlayerId)
    requires Reachable(w)
    ensures (e, p) in w.db.checkins <==> CheckinRows(w.db, e, p) == {CheckinEntry(e, p)}
    ensures (e, p) !in w.db.checkins <==> CheckinRows(w.db, e, p) == {}
    ensures CheckinEntry(e, p) == Entry(p, 100, Checkin, e, None, Some(e))
  {
    ReachableIsOk(w);
    forall x | x in CheckinRows(w.db, e, p) ensures x == CheckinEntry(e, p) && (e, p) in w.db.checkins {
      assert EntryOk(w, x);
    }
    if (e, p) in w.db.checkins {
      assert CheckinEntry(e, p) in CheckinRows(w.db, e, p);
    }
  }

  /** What a call at the door answers. */
  datatype Receipt = Receipt(checkedInAt: int, cycles: int, activated: bool)

  function ReceiptOf(answer: CheckedIn): Receipt {
    match answer
    case NewCheckin(at, wasActive) => Receipt(at, CHECKIN_CYCLES, !wasActive)
    case AlreadyIn(first) => Receipt(first, 0, false)
  }

  /** A call says it paid exactly when it made the row, and then the ledger grew
      by the entry and nothing else; a repeat answers the first time. It says it
      activated the player exactly when the player was not active before. */
  lemma ReceiptsTellTheTruth(w: World, e: EventId, p: PlayerId, at: int)
    requires Reachable(w) && CheckIn(w.db, e, p, at).1.Ok?
    ensures var db := w.db;
      var (db', answer) := CheckIn(db, e, p, at);
      var receipt := ReceiptOf(answer.value);
      && (receipt.cycles == 100 <==> (e, p) !in db.checkins)
      && (receipt.cycles == 100 ==>
            && db' == db.(checkins := db.checkins[(e, p) := at],
                          ledger := db.ledger + {Entry(p, 100, Checkin, e, None, Some(e))})
            && Entry(p, 100, Checkin, e, None, Some(e)) !in db.ledger
            && p in db.players && receipt.checkedInAt == at)
      && (receipt.cycles != 100 ==>
            receipt.cycles == 0 && db' == db && receipt.checkedInAt == db.checkins[(e, p)])
    ensures ReceiptOf(CheckIn(w.db, e, p, at).1.value).activated <==>
            (e, p) !in w.db.checkins && !w.db.players[p] && forall k :: k in w.db.checkins ==> k.1 != p
  {
    ReachableIsOk(w);
    CheckInOutcome(w, e, p, at);
    var (db', answer) := CheckIn(w.db, e, p, at);
    if (e, p) in w.db.checkins {
      assert (e, p).1 == p && CheckinsOk(w);
    } else {
      assert CheckinEntry(e, p) !in w.db.ledger;
      assert (e, p) in db'.checkins && (e, p).1 == p;
    }
  }

  // ---------- entries and accounts ----------

  /** Each row of a field that names an account names one that exists. */
  ghost predicate AccountsExist(players: map<PlayerId, bool>, tour: Tour) {
    forall e :: e in tour.entrants && tour.entrants[e].player.Some? ==> tour.entrants[e].player.value in players
  }

  ghost predicate AllAccountsExist(db: Db) {
    forall t :: t in db.tours ==> AccountsExist(db.players, db.tours[t])
  }

  lemma WriteKeepsAccounts(players: map<PlayerId, bool>, tour: Tour, write: Write)
    requires AccountsExist(players, tour) && (write.WriteBracket? ==> |write.order| >= 2)
    ensures AccountsExist(players, WriteTour(players, tour, write).0)
  {
  }

  lemma ExecuteKeepsAccounts(db: Db, t: TournamentId, write: Write)
    requires AllAccountsExist(db) && (write.WriteBracket? ==> |write.order| >= 2)
    ensures AllAccountsExist(Execute(db, t, write).0)
  {
    if t in db.tours {
      WriteKeepsAccounts(db.players, db.tours[t], write);
      assert AccountsExist(db.players, db.tours[t]);
    }
  }

  lemma CheckInKeepsFields(db: Db, e: EventId, p: PlayerId, at: int)
    ensures CheckIn(db, e, p, at).0.tours == db.tours && CheckIn(db, e, p, at).0.players == db.players
  {
  }

  lemma NextKeepsAccounts(w: World, action: Action)
    requires AllAccountsExist(w.db)
    ensures AllAccountsExist(Next(w, action).db)
  {
    if action.Commit? {
      var (rid, chance) := (action.rid, action.chance);
      if rid in w.requests && Ready(w.requests[rid]) && FairChance(w, w.requests[rid], chance)
         && Plan(w.requests[rid], chance).Ok? {
        CommitWrites(w, rid, chance);
        ExecuteKeepsAccounts(w.db, w.requests[rid].t, Plan(w.requests[rid], chance).value);
      }
    } else if action.RecordCheckin? {
      if action.rid in w.scans {
        CheckInKeepsFields(w.db, w.scans[action.rid].0, w.scans[action.rid].1, action.at);
      }
    } else if action.RemovePlayer? {
      ForgettingKeepsAccounts(w.db, action.p);
    } else {
      forall t | t in Next(w, action).db.tours
        ensures AccountsExist(Next(w, action).db.players, Next(w, action).db.tours[t])
      {
        QuietStep(w, action, t);
        assert t in w.db.tours ==> AccountsExist(w.db.players, w.db.tours[t]);
      }
    }
  }

  lemma ForgettingKeepsAccounts(db: Db, p: PlayerId)
    requires AllAccountsExist(db)
    ensures AllAccountsExist(DeletePlayer(db, p))
  {
    forall t | t in db.tours ensures AccountsExist(db.players - {p}, ForgetPlayer(db.tours[t], p)) {
      assert AccountsExist(db.players, db.tours[t]);
    }
  }

  lemma QuietStep(w: World, action: Action, t: TournamentId)
    requires !action.Commit? && !action.RemovePlayer? && !action.RecordCheckin? && t in Next(w, action).db.tours
    ensures w.db.players.Keys <= Next(w, action).db.players.Keys
    ensures Next(w, action).db.tours[t].entrants == map[]
            || (t in w.db.tours && Next(w, action).db.tours[t] == w.db.tours[t])
  {
  }

  lemma {:induction false} PlayKeepsAccounts(w: World, actions: seq<Action>)
    requires AllAccountsExist(w.db)
    ensures AllAccountsExist(Play(w, actions).db)
    decreases |actions|
  {
    if actions != [] {
      PlayKeepsAccounts(w, actions[..|actions| - 1]);
      NextKeepsAccounts(Play(w, actions[..|actions| - 1]), actions[|actions| - 1]);
    }
  }

  /** In every reachable world an entry names an account that exists, or none. */
  lemma EntriesNameAccounts(w: World, t: TournamentId)
    requires Reachable(w) && t in w.db.tours
    ensures AccountsExist(w.db.players, w.db.tours[t])
  {
    var actions :| Play(START, actions) == w;
    PlayKeepsAccounts(START, actions);
  }
}
