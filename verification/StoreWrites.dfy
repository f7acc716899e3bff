/** Each guarded write keeps the invariants of the tournament it touches. */
module StoreWrites {
  import opened Basics
  import opened Brackets
  import opened BracketRules
  import opened BracketRuns
  import opened Entrants
  import opened Tables
  import opened Protocol
  import opened StoreInvariants

  /** What a decision guarantees about the write it asks for. */
  ghost predicate Sound(owner: map<MatchId, TournamentId>, tour: Tour, write: Write) {
    match write
    case WriteResult(_, read, op) =>
      (exists order :: Valid(order, read)) && Apply(read, op).Ok? && Compatible(read, tour.matches)
    case WriteBracket(_, order, ids) =>
      && 2 <= |order| <= MAX_ENTRANTS && NoDup(order) && Supply(ids, |order|)
      && forall id :: id in FlatIds(Blank(order, ids)) ==> id !in owner
    case WriteEntrant(id, _, _, _) => id !in tour.entrants
    case _ => true
  }

  /** The record of match ids after the write. */
  ghost function OwnerAfter(owner: map<MatchId, TournamentId>, t: TournamentId, write: Write): map<MatchId, TournamentId>
    requires write.WriteBracket? ==> |write.order| >= 2
  {
    if write.WriteBracket? then owner + OwnerMap(Blank(write.order, write.ids), t) else owner
  }

  /** A write kept the invariants and the status of its tournament, and left its
      match rows comparable with every older snapshot. */
  ghost predicate Kept(
      owner: map<MatchId, TournamentId>, owner': map<MatchId, TournamentId>, t: TournamentId, tour: Tour, tour': Tour)
  {
    TourOk(owner', t, tour') && Evolves(owner, tour.matches, tour'.matches) && tour'.status == tour.status
  }

  // ---------- entrants ----------

  lemma AddEntrantKeeps(
      owner: map<MatchId, TournamentId>, t: TournamentId, players: map<PlayerId, bool>, tour: Tour,
      id: EntrantId, player: PlayerId, skill: Option<int>, guard: EntrantGuard)
    requires TourOk(owner, t, tour) && id !in tour.entrants
    ensures TourOk(owner, t, AddEntrant(players, tour, id, player, skill, guard).0)
  {
    var (tour', written) := AddEntrant(players, tour, id, player, skill, guard);
    if written == Ok(New) {
      assert tour'.entrants.Keys == tour.entrants.Keys + {id};
      assert |tour'.entrants| == |tour.entrants| + 1;
    }
  }

  lemma SetSkillKeeps(
      owner: map<MatchId, TournamentId>, t: TournamentId, tour: Tour, player: PlayerId, skill: int, guard: EntrantGuard)
    requires TourOk(owner, t, tour)
    ensures TourOk(owner, t, SetSkill(tour, player, skill, guard).0)
  {
    var tour' := SetSkill(tour, player, skill, guard).0;
    SameKeysSameSize(tour.entrants, tour'.entrants);
  }

  lemma SameKeysSameSize<K, V>(m: map<K, V>, n: map<K, V>)
    requires m.Keys == n.Keys
    ensures |m| == |n|
  {
    assert |m| == |m.Keys| && |n| == |n.Keys|;
  }

  lemma FewerKeysSmaller<K, V>(m: map<K, V>, n: map<K, V>)
    requires n.Keys <= m.Keys
    ensures |n| <= |m|
  {
    SubsetCardinality(n.Keys, m.Keys);
    assert |m| == |m.Keys| && |n| == |n.Keys|;
  }

  lemma DropEntrantsKeeps(owner: map<MatchId, TournamentId>, t: TournamentId, tour: Tour, gone: set<EntrantId>)
    requires TourOk(owner, t, tour) && tour.matches == map[]
    ensures TourOk(owner, t, DropEntrants(tour, gone))
  {
    FewerKeysSmaller(tour.entrants, DropEntrants(tour, gone).entrants);
  }

  lemma ForgetPlayerKeeps(owner: map<MatchId, TournamentId>, t: TournamentId, tour: Tour, p: PlayerId)
    requires TourOk(owner, t, tour)
    ensures TourOk(owner, t, ForgetPlayer(tour, p))
  {
    var tour' := ForgetPlayer(tour, p);
    SameKeysSameSize(tour.entrants, tour'.entrants);
    if tour.matches != map[] {
      var order, R :| Holds(tour, order, R);
      assert Holds(tour', order, R);
    }
  }

  // ---------- brackets ----------

  lemma BlankRowsNotEmpty(order: seq<EntrantId>, R: Rounds, rows: MatchTable)
    requires Valid(order, R) && Stores(rows, R)
    ensures rows != map[]
  {
    assert At(R, |R| - 1, 0);
    assert R[|R| - 1][0].id in rows;
  }

  lemma OwnedByItsOwnerMap(owner: map<MatchId, TournamentId>, t: TournamentId, R: Rounds, rows: MatchTable)
    requires rows.Keys == FlatIds(R)
    ensures Owned(owner + OwnerMap(R, t), t, rows)
  {
  }

  /** What a rebuild that goes through leaves. */
  lemma RebuiltHolds(tour: Tour, expected: Status, order: seq<EntrantId>, ids: (nat, nat) -> MatchId)
    requires 2 <= |order| <= MAX_ENTRANTS && NoDup(order) && Supply(ids, |order|)
    requires ReplaceBracket(tour, expected, order, Blank(order, ids)).1 == Done
    ensures var R := Blank(order, ids); var tour' := ReplaceBracket(tour, expected, order, R).0;
      && Holds(tour', order, R) && tour'.matches != map[] && tour'.matches.Keys == FlatIds(R)
      && tour' == tour.(matches := tour'.matches, entrants := WithSeeds(tour.entrants, order))
  {
    var R := Blank(order, ids);
    BlankIsValid(order, ids);
    TableOfFlat(R);
    var rows := Overlay(map[], Flat(R));
    StoredIds(R, rows);
    BlankRowsNotEmpty(order, R, rows);
    assert SeedsAre(order, WithSeeds(tour.entrants, order));
  }

  /** The same field with other seeds and the rows of a bracket of it. */
  lemma RebuiltTourOk(
      owner: map<MatchId, TournamentId>, t: TournamentId, tour: Tour, tour': Tour, order: seq<EntrantId>, R: Rounds)
    requires TourOk(owner, t, tour) && Holds(tour', order, R)
    requires tour'.matches != map[] && tour'.matches.Keys == FlatIds(R)
    requires tour' == tour.(matches := tour'.matches, entrants := WithSeeds(tour.entrants, order))
    ensures TourOk(owner + OwnerMap(R, t), t, tour')
  {
    SameKeysSameSize(tour.entrants, tour'.entrants);
    OwnedByItsOwnerMap(owner, t, R, tour'.matches);
    assert BracketOk(tour');
    assert OnePerPlayer(tour'.entrants);
  }

  lemma ReplaceBracketKeeps(
      owner: map<MatchId, TournamentId>, t: TournamentId, tour: Tour, expected: Status,
      order: seq<EntrantId>, ids: (nat, nat) -> MatchId)
    requires TourOk(owner, t, tour) && Sound(owner, tour, WriteBracket(expected, order, ids))
    ensures var (tour', written) := ReplaceBracket(tour, expected, order, Blank(order, ids));
      && TourOk(owner + OwnerMap(Blank(order, ids), t), t, tour')
      && Evolves(owner, tour.matches, tour'.matches)
      && (written == Done ==> Holds(tour', order, Blank(order, ids)))
  {
    var R := Blank(order, ids);
    var (tour', written) := ReplaceBracket(tour, expected, order, R);
    if written == Done {
      RebuiltHolds(tour, expected, order, ids);
      RebuiltTourOk(owner, t, tour, tour', order, R);
    } else {
      assert tour' == tour;
      BracketOkAnyOwner(owner, t, tour, R);
    }
  }

  lemma BracketOkAnyOwner(owner: map<MatchId, TournamentId>, t: TournamentId, tour: Tour, R: Rounds)
    requires TourOk(owner, t, tour)
    ensures TourOk(owner + OwnerMap(R, t), t, tour)
  {
  }

  lemma DeleteBracketKeeps(owner: map<MatchId, TournamentId>, t: TournamentId, tour: Tour, expected: Status)
    requires TourOk(owner, t, tour)
    ensures TourOk(owner, t, DeleteBracket(tour, expected).0)
    ensures Evolves(owner, tour.matches, DeleteBracket(tour, expected).0.matches)
  {
    SameKeysSameSize(tour.entrants, DeleteBracket(tour, expected).0.entrants);
  }

  /** A committed result is the atomic operation on the stored bracket. Without
      a bracket, or from a snapshot of another bracket, none commits. */
  lemma UpdateMatchesKeeps(
      owner: map<MatchId, TournamentId>, t: TournamentId, tour: Tour, expected: Status, R: Rounds, op: Op)
    requires TourOk(owner, t, tour) && Sound(owner, tour, WriteResult(expected, R, op))
    ensures TourOk(owner, t, UpdateMatches(tour, expected, ResultChanges(R, op)).0)
    ensures Evolves(owner, tour.matches, UpdateMatches(tour, expected, ResultChanges(R, op)).0.matches)
  {
    var (tour', written) := UpdateMatches(tour, expected, ResultChanges(R, op));
    if written && Apply(R, op).value.changed != [] {
      var orderR :| Valid(orderR, R);
      ResultNeedsRows(tour, expected, R, op);
      var order, C :| Holds(tour, order, C);
      CommittedResultIsAtomic(tour, expected, orderR, R, op, order, C);
      ResultKeepsRows(tour, tour', order, C, After(C, op));
      assert Holds(tour', order, After(C, op));
    } else if written {
      assert ResultChanges(R, op) == [];
      assert tour' == tour;
    }
  }

  lemma ResultNeedsRows(tour: Tour, expected: Status, R: Rounds, op: Op)
    requires DistinctIds(R) && Apply(R, op).Ok? && Apply(R, op).value.changed != []
    requires UpdateMatches(tour, expected, ResultChanges(R, op)).1
    ensures tour.matches != map[]
  {
    ResultPairs(R, op);
    var (r, s) := Locate(R, op.id).value;
    var w := if op.OpReport? then Some(op.winner) else None;
    SetWinnerAt(R, r, s, w);
    assert ResultChanges(R, op)[0] == (R[r][s], SetWinner(R, r, s, w)[r][s]);
  }

  lemma ResultKeepsRows(tour: Tour, tour': Tour, order: seq<EntrantId>, C: Rounds, C': Rounds)
    requires Holds(tour, order, C) && Holds(tour', order, C') && SameIds(C, C')
    ensures tour'.matches.Keys == tour.matches.Keys
    ensures forall id :: id in tour.matches ==>
              tour'.matches[id].round == tour.matches[id].round && tour'.matches[id].slot == tour.matches[id].slot
  {
    forall id ensures id in tour.matches <==> id in tour'.matches {
      LocateAcrossSameIds(C, C', id);
      if id in tour.matches {
        var (r, s) := Locate(C, id).value;
        assert At(C', r, s) && C'[r][s].id == id;
      }
      if id in tour'.matches {
        var (r, s) := Locate(C, id).value;
        assert At(C, r, s) && C[r][s].id == id;
      }
    }
    forall id | id in tour.matches
      ensures tour'.matches[id].round == tour.matches[id].round && tour'.matches[id].slot == tour.matches[id].slot
    {
      LocateAcrossSameIds(C, C', id);
      var (r, s) := Locate(C, id).value;
      assert At(C, r, s) && At(C', r, s);
      assert tour.matches[id] == C[r][s] && tour'.matches[id] == C'[r][s];
    }
  }

  // ---------- any write to one tournament ----------

  lemma FieldsKeep(
      owner: map<MatchId, TournamentId>, t: TournamentId, tour: Tour, expected: Status, closesAt: Option<int>)
    requires TourOk(owner, t, tour)
    ensures TourOk(owner, t, UpdateFields(tour, expected, closesAt).0)
  {
    var tour' := UpdateFields(tour, expected, closesAt).0;
    if tour.matches != map[] {
      var order, R :| Holds(tour, order, R);
      assert Holds(tour', order, R);
    }
  }

  lemma RemovalKeeps(
      owner: map<MatchId, TournamentId>, t: TournamentId, tour: Tour, entrant: EntrantId, guard: EntrantGuard)
    requires TourOk(owner, t, tour)
    ensures TourOk(owner, t, RemoveEntrant(tour, entrant, guard).0)
  {
    var tour' := RemoveEntrant(tour, entrant, guard).0;
    if tour' != tour {
      DropEntrantsKeeps(owner, t, tour, {entrant});
      assert tour' == DropEntrants(tour, {entrant});
    }
  }

  lemma RetirementKeeps(
      owner: map<MatchId, TournamentId>, t: TournamentId, tour: Tour, player: PlayerId, guard: EntrantGuard)
    requires TourOk(owner, t, tour)
    ensures TourOk(owner, t, RemoveEntrantOf(tour, player, guard).0)
  {
    var tour' := RemoveEntrantOf(tour, player, guard).0;
    if tour' != tour {
      var gone := set e | e in tour.entrants && tour.entrants[e].player == Some(player);
      DropEntrantsKeeps(owner, t, tour, gone);
      assert tour' == DropEntrants(tour, gone);
    }
  }

  lemma WriteKeepsStatus(players: map<PlayerId, bool>, tour: Tour, write: Write)
    requires write.WriteBracket? ==> |write.order| >= 2
    ensures WriteTour(players, tour, write).0.status == tour.status
  {
  }

  lemma FieldWriteKeepsRows(players: map<PlayerId, bool>, tour: Tour, write: Write)
    requires !(write.WriteResult? || write.WriteBracket? || write.WriteNoBracket?)
    ensures WriteTour(players, tour, write).0.matches == tour.matches
  {
  }

  /** Every sound write to the field keeps the tournament. */
  lemma FieldWriteKeeps(
      owner: map<MatchId, TournamentId>, t: TournamentId, players: map<PlayerId, bool>, tour: Tour, write: Write)
    requires TourOk(owner, t, tour) && Sound(owner, tour, write)
    requires write.WriteEntrant? || write.WriteSkill? || write.WriteRemoval? || write.WriteRetirement?
             || write.WriteFields?
    ensures TourOk(owner, t, WriteTour(players, tour, write).0)
  {
    match write {
      case WriteEntrant(id, player, skill, guard) =>
        AddEntrantKeeps(owner, t, players, tour, id, player, skill, guard);
      case WriteSkill(player, level, guard) => SetSkillKeeps(owner, t, tour, player, level, guard);
      case WriteRemoval(entrant, guard) => RemovalKeeps(owner, t, tour, entrant, guard);
      case WriteRetirement(player, guard) => RetirementKeeps(owner, t, tour, player, guard);
      case WriteFields(expected, closesAt) => FieldsKeep(owner, t, tour, expected, closesAt);
    }
  }

  /** Every sound write to the bracket keeps the tournament. */
  lemma BracketWriteKeeps(
      owner: map<MatchId, TournamentId>, t: TournamentId, players: map<PlayerId, bool>, tour: Tour, write: Write)
    requires TourOk(owner, t, tour) && Sound(owner, tour, write)
    requires write.WriteResult? || write.WriteBracket? || write.WriteNoBracket?
    ensures TourOk(OwnerAfter(owner, t, write), t, WriteTour(players, tour, write).0)
    ensures Evolves(owner, tour.matches, WriteTour(players, tour, write).0.matches)
  {
    match write {
      case WriteResult(expected, read, op) => UpdateMatchesKeeps(owner, t, tour, expected, read, op);
      case WriteBracket(expected, order, ids) => ReplaceBracketKeeps(owner, t, tour, expected, order, ids);
      case WriteNoBracket(expected) => DeleteBracketKeeps(owner, t, tour, expected);
    }
  }

  /** Every sound write to a tournament keeps it. */
  lemma WriteTourKeeps(
      owner: map<MatchId, TournamentId>, t: TournamentId, players: map<PlayerId, bool>, tour: Tour, write: Write)
    requires TourOk(owner, t, tour) && Sound(owner, tour, write)
    ensures Kept(owner, OwnerAfter(owner, t, write), t, tour, WriteTour(players, tour, write).0)
  {
    if write.WriteResult? || write.WriteBracket? || write.WriteNoBracket? {
      BracketWriteKeeps(owner, t, players, tour, write);
    } else if write.NoWrite? || write.WriteStatus? {
      assert WriteTour(players, tour, write).0 == tour;
    } else {
      FieldWriteKeeps(owner, t, players, tour, write);
      FieldWriteKeepsRows(players, tour, write);
    }
    WriteKeepsStatus(players, tour, write);
  }
}
