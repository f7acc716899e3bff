/** What every write keeps about one tournament: its match rows are none or the
    rows of a valid bracket over entrants it has, the seeds are the places of
    that bracket, and no player has two entries. */
module StoreInvariants {
  import opened Basics
  import opened Brackets
  import opened BracketRules
  import opened BracketObjects
  import opened BracketRuns
  import opened Entrants
  import opened Points
  import opened Tables
  import opened Protocol

  /** Every entrant the order names has a row, and every seed is the place the
      order gives. */
  ghost predicate SeedsAre(order: seq<EntrantId>, entrants: map<EntrantId, EntrantRow>) {
    && (forall e :: e in order ==> e in entrants)
    && (forall e :: e in entrants ==> entrants[e].seed == SeedOf(order, e))
  }

  /** The rows of the tournament are those of the bracket `R` of `order`. */
  ghost predicate Holds(tour: Tour, order: seq<EntrantId>, R: Rounds) {
    Valid(order, R) && Stores(tour.matches, R) && SeedsAre(order, tour.entrants)
  }

  ghost predicate BracketOk(tour: Tour) {
    if tour.matches == map[] then SeedsAre([], tour.entrants)
    else exists order, R :: Holds(tour, order, R)
  }

  ghost predicate OnePerPlayer(entrants: map<EntrantId, EntrantRow>) {
    forall e, f ::
      (e in entrants && f in entrants && entrants[e].player.Some?
       && entrants[e].player == entrants[f].player) ==> e == f
  }

  ghost predicate Owned(owner: map<MatchId, TournamentId>, t: TournamentId, rows: MatchTable) {
    forall id :: id in rows ==> id in owner && owner[id] == t
  }

  ghost predicate TourOk(owner: map<MatchId, TournamentId>, t: TournamentId, tour: Tour) {
    && |tour.entrants| <= MAX_ENTRANTS
    && OnePerPlayer(tour.entrants)
    && (tour.status != Concluded ==> tour.winner == None)
    && BracketOk(tour)
    && Owned(owner, t, tour.matches)
  }

  /** What a write may do to the match rows: keep every row's id and place, or
      leave only rows with ids no one has seen. */
  ghost predicate Evolves(owner: map<MatchId, TournamentId>, rows: MatchTable, rows': MatchTable) {
    || (&& rows'.Keys == rows.Keys
        && forall id :: id in rows ==> rows'[id].round == rows[id].round && rows'[id].slot == rows[id].slot)
    || (forall id :: id in rows' ==> id !in owner)
  }

  /** A snapshot and the rows stored now are of the same generated bracket, or
      have no match in common. */
  ghost predicate Compatible(R: Rounds, rows: MatchTable) {
    || (forall r, s :: At(R, r, s) ==> R[r][s].id !in rows)
    || SamePlaces(R, rows)
  }

  ghost predicate SamePlaces(R: Rounds, rows: MatchTable) {
    && (forall r, s :: At(R, r, s) ==>
          R[r][s].id in rows && rows[R[r][s].id].round == r + 1 && rows[R[r][s].id].slot == s)
    && (forall id :: id in rows ==> Locate(R, id).Some?)
  }

  ghost predicate SnapshotOwned(owner: map<MatchId, TournamentId>, t: TournamentId, R: Rounds) {
    forall r, s :: At(R, r, s) ==> R[r][s].id in owner && owner[R[r][s].id] == t
  }

  // ---------- tables and brackets ----------

  lemma {:induction false} OverlayHolds(rows: MatchTable, ms: seq<Match>)
    requires forall i, j :: 0 <= i < j < |ms| ==> ms[i].id != ms[j].id
    ensures forall i :: 0 <= i < |ms| ==> ms[i].id in Overlay(rows, ms) && Overlay(rows, ms)[ms[i].id] == ms[i]
    ensures forall id :: id in Overlay(rows, ms) <==> id in rows || exists i :: 0 <= i < |ms| && ms[i].id == id
    ensures forall id :: id in rows && (forall i :: 0 <= i < |ms| ==> ms[i].id != id)
              ==> Overlay(rows, ms)[id] == rows[id]
    decreases |ms|
  {
    if ms != [] {
      var rows1 := rows[ms[0].id := ms[0]];
      OverlayHolds(rows1, ms[1..]);
      assert forall i :: 0 < i < |ms| ==> ms[i] == ms[1..][i - 1];
      assert forall i :: 0 <= i < |ms[1..]| ==> ms[1..][i] == ms[i + 1];
    }
  }

  lemma FlatHasDistinctIds(R: Rounds)
    requires DistinctIds(R)
    ensures forall i, j :: 0 <= i < j < |Flat(R)| ==> Flat(R)[i].id != Flat(R)[j].id
    ensures NoDup(MatchIds(Flat(R))) && NoDup(Flat(R))
  {
    forall i, j | 0 <= i < j < |Flat(R)| ensures Flat(R)[i].id != Flat(R)[j].id {
      FlatIdsDistinct(R, i, j);
    }
  }

  /** Inserting every match of a bracket into an empty table stores it. */
  lemma TableOfFlat(R: Rounds)
    requires DistinctIds(R)
    ensures Stores(Overlay(map[], Flat(R)), R)
  {
    FlatHasDistinctIds(R);
    OverlayHolds(map[], Flat(R));
    forall r, s | At(R, r, s)
      ensures R[r][s].id in Overlay(map[], Flat(R)) && Overlay(map[], Flat(R))[R[r][s].id] == R[r][s]
    {
      var i := FlatIndex(R, r, s);
    }
    forall id | id in Overlay(map[], Flat(R)) ensures Locate(R, id).Some? {
      var i :| 0 <= i < |Flat(R)| && Flat(R)[i].id == id;
      var r, s := MemberOfFlat(R, i);
      LocateFinds(R, r, s);
    }
  }

  lemma StoredIdIsARow(R: Rounds, rows: MatchTable, id: MatchId)
    requires DistinctIds(R) && Stores(rows, R)
    ensures id in rows <==> id in FlatIds(R)
  {
    if id in rows {
      var (r, s) := Locate(R, id).value;
      var i := FlatIndex(R, r, s);
      assert Flat(R)[i] in Flat(R);
    }
    if id in FlatIds(R) {
      var m :| m in Flat(R) && m.id == id;
      var i :| 0 <= i < |Flat(R)| && Flat(R)[i] == m;
      var r, s := MemberOfFlat(R, i);
      assert At(R, r, s);
    }
  }

  lemma FlatIdsListed(R: Rounds)
    ensures FlatIds(R) == Elements(MatchIds(Flat(R)))
  {
    var ids := MatchIds(Flat(R));
    forall id ensures id in FlatIds(R) <==> id in Elements(ids) {
      if id in FlatIds(R) {
        var m :| m in Flat(R) && m.id == id;
        var i :| 0 <= i < |Flat(R)| && Flat(R)[i] == m;
        assert ids[i] == id;
      }
      if id in Elements(ids) {
        var i :| 0 <= i < |ids| && ids[i] == id;
        assert Flat(R)[i] in Flat(R);
      }
    }
  }

  lemma StoredIds(R: Rounds, rows: MatchTable)
    requires DistinctIds(R) && Stores(rows, R)
    ensures rows.Keys == FlatIds(R) == Elements(MatchIds(Flat(R)))
    ensures |rows| == |Flat(R)|
  {
    forall id ensures id in rows.Keys <==> id in FlatIds(R) {
      StoredIdIsARow(R, rows, id);
    }
    FlatIdsListed(R);
    FlatHasDistinctIds(R);
    NoDupCardinality(MatchIds(Flat(R)));
    assert |rows| == |rows.Keys|;
  }

  lemma MostMatches(order: seq<EntrantId>, R: Rounds)
    requires Valid(order, R)
    ensures 0 < |Flat(R)| < MAX_ENTRANTS
  {
    ShapeOfField(order, R);
    TotalMatches(R);
  }

  lemma ListedMatchesAreAll(list: seq<Match>, rows: MatchTable)
    requires ListsMatches(list, rows) && |rows| < MAX_ENTRANTS
    ensures Elements(MatchIds(list)) == rows.Keys
    ensures forall id :: id in rows ==> rows[id] in list
    ensures NoDup(list)
  {
    var ids := MatchIds(list);
    forall id | id in ids ensures id in rows.Keys {
      var i :| 0 <= i < |ids| && ids[i] == id;
      assert list[i].id == id;
    }
    FullListCovers(ids, rows.Keys);
    forall id | id in rows ensures rows[id] in list {
      assert id in Elements(ids);
      var i :| 0 <= i < |ids| && ids[i] == id;
      assert list[i] == rows[id];
    }
    forall i, j | 0 <= i < j < |list| ensures list[i] != list[j] {
      assert ids[i] != ids[j];
    }
  }

  /** A read of the match rows is never cut by its limit, and gives back exactly
      the bracket that is stored. */
  lemma ReadGivesStoredBracket(list: seq<Match>, rows: MatchTable, order: seq<EntrantId>, R: Rounds)
    requires Valid(order, R) && Stores(rows, R) && ListsMatches(list, rows)
    ensures list != [] && Regrouped(list) == Some(R)
  {
    MostMatches(order, R);
    StoredIds(R, rows);
    ListedMatchesAreAll(list, rows);
    FlatHasDistinctIds(R);
    forall m ensures m in list <==> m in Flat(R) {
      if m in list {
        var k :| 0 <= k < |list| && list[k] == m;
        assert m == rows[m.id] && m.id in rows;
        var (r, s) := Locate(R, m.id).value;
        var i := FlatIndex(R, r, s);
      }
      if m in Flat(R) {
        var i :| 0 <= i < |Flat(R)| && Flat(R)[i] == m;
        var r, s := MemberOfFlat(R, i);
        assert At(R, r, s) && rows[m.id] == m && m.id in rows;
      }
    }
    SameElementsPermute(list, Flat(R));
    RegroupedIs(R, list);
  }

  /** A read of the entrants is never cut either. */
  lemma ReadGivesEveryEntrant(list: seq<Entrant>, rows: map<EntrantId, EntrantRow>)
    requires ListsEntrants(list, rows) && |rows| <= MAX_ENTRANTS && OnePerPlayer(rows)
    ensures Elements(Ids(list)) == rows.Keys && |list| == |rows|
    ensures DistinctField(list)
  {
    var ids := Ids(list);
    forall id | id in ids ensures id in rows.Keys {
      var i :| 0 <= i < |ids| && ids[i] == id;
      assert list[i].id == id;
    }
    FullListCovers(ids, rows.Keys);
    forall i, j | 0 <= i < j < |list| && list[i].player.Some? ensures list[i].player != list[j].player {
      assert ids[i] != ids[j];
      assert list[i].id in rows && list[j].id in rows;
    }
  }

  // ---------- snapshots against the rows stored now ----------

  lemma StoredIsCompatible(R: Rounds, rows: MatchTable)
    requires Grid(R) && DistinctIds(R) && Stores(rows, R)
    ensures SamePlaces(R, rows)
  {
  }

  lemma EvolvingKeepsCompatible(
      owner: map<MatchId, TournamentId>, t: TournamentId, R: Rounds, rows: MatchTable, rows': MatchTable)
    requires Compatible(R, rows) && Evolves(owner, rows, rows') && SnapshotOwned(owner, t, R)
    ensures Compatible(R, rows')
  {
    if forall id :: id in rows' ==> id !in owner {
      assert forall r, s :: At(R, r, s) ==> R[r][s].id !in rows';
    } else if SamePlaces(R, rows) {
      assert SamePlaces(R, rows');
    }
  }

  /** Two brackets in the same table rows have the same ids in the same places. */
  lemma SamePlacesMeansSameIds(R: Rounds, C: Rounds, rows: MatchTable)
    requires Grid(R) && DistinctIds(R) && Grid(C) && DistinctIds(C)
    requires SamePlaces(R, rows) && Stores(rows, C)
    ensures SameIds(R, C)
  {
    forall r, s | At(R, r, s) ensures At(C, r, s) && C[r][s].id == R[r][s].id {
      var (i, j) := Locate(C, R[r][s].id).value;
      assert At(C, i, j) && rows[R[r][s].id] == C[i][j];
    }
    forall r, s | At(C, r, s) ensures At(R, r, s) {
      assert C[r][s].id in rows;
      var (i, j) := Locate(R, C[r][s].id).value;
      assert At(R, i, j) && rows[C[r][s].id] == C[r][s];
    }
    assert |R| <= |C| by {
      assert At(R, |R| - 1, 0);
    }
    assert |C| <= |R| by {
      assert At(C, |C| - 1, 0);
    }
    forall i | 0 <= i < |R| ensures |R[i]| == |C[i]| {
      RoundsAreNotEmpty(R, i);
      RoundsAreNotEmpty(C, i);
      assert At(R, i, |R[i]| - 1) && At(C, i, |C[i]| - 1);
    }
  }

  // ---------- the compare-and-set of a result ----------

  /** The pairs a result writes: the match itself, and the next one if any. */
  function WritePairs(R: Rounds, r: nat, s: nat, w: Option<EntrantId>): seq<(Match, Match)>
    requires At(R, r, s)
  {
    var R' := SetWinner(R, r, s, w);
    SetWinnerAt(R, r, s, w);
    [(R[r][s], R'[r][s])] + (if At(R, r + 1, s / 2) then [(R[r + 1][s / 2], R'[r + 1][s / 2])] else [])
  }

  lemma ResultPairs(R: Rounds, op: Op)
    requires DistinctIds(R) && Apply(R, op).Ok? && Apply(R, op).value.changed != []
    ensures Locate(R, op.id).Some?
    ensures var (r, s) := Locate(R, op.id).value;
      var w := if op.OpReport? then Some(op.winner) else None;
      var R' := SetWinner(R, r, s, w);
      && Writable(R, r, s, w)
      && Apply(R, op).value == Edit(R', ChangedMatches(R', r, s))
      && ResultChanges(R, op) == WritePairs(R, r, s, w)
  {
    AcceptedIsOneWrite(R, op);
    var (r, s) := Locate(R, op.id).value;
    var w := if op.OpReport? then Some(op.winner) else None;
    var R' := SetWinner(R, r, s, w);
    SetWinnerAt(R, r, s, w);
    LocateFinds(R, r, s);
    var m := R'[r][s];
    if At(R, r + 1, s / 2) {
      var n := R'[r + 1][s / 2];
      LocateFinds(R, r + 1, s / 2);
      assert ChangedMatches(R', r, s) == [m, n] && [m, n][1..] == [n] && [n][1..] == [];
      assert Pairs(R, [n]) == [(R[r + 1][s / 2], n)];
    } else {
      assert ChangedMatches(R', r, s) == [m] && [m][1..] == [];
      assert Pairs(R, [m]) == [(R[r][s], m)];
    }
  }

  lemma ApplyOne(rows: MatchTable, before: Match, after: Match)
    ensures ApplyChanges(rows, [(before, after)]) ==
            if after.id in rows && rows[after.id].a == before.a && rows[after.id].b == before.b
               && rows[after.id].winner == before.winner
            then Some(rows[after.id := rows[after.id].(a := after.a, b := after.b, winner := after.winner)])
            else None
  {
    assert [(before, after)][1..] == [];
  }

  lemma ApplyTwo(rows: MatchTable, c: (Match, Match), d: (Match, Match))
    ensures ApplyChanges(rows, [c] + [d]) ==
            match ApplyChanges(rows, [c])
            case Some(rows') => ApplyChanges(rows', [d])
            case None => None
  {
    assert ([c] + [d])[0] == c && ([c] + [d])[1..] == [d];
    ApplyOne(rows, c.0, c.1);
  }

  /** If the compare-and-set of one match passes against the rows of a valid
      bracket, the stored match is the match that was read. */
  lemma PassedRowIsTheReadRow(
      R: Rounds, C: Rounds, rows: MatchTable, r: nat, s: nat, after: Match)
    requires Grid(R) && Grid(C) && SameIds(R, C) && Stores(rows, C) && At(R, r, s) && At(C, r, s)
    requires after.id == R[r][s].id && ApplyChanges(rows, [(R[r][s], after)]).Some?
    ensures C[r][s] == R[r][s] && rows[after.id] == R[r][s]
  {
    ApplyOne(rows, R[r][s], after);
    assert C[r][s].id == R[r][s].id && rows[C[r][s].id] == C[r][s];
  }

  /** A result decided on any old snapshot, if its write commits, does exactly
      what the same operation would do to the bracket stored at that moment. */
  lemma CommittedResultIsAtomic(
      tour: Tour, expected: Status, orderR: seq<EntrantId>, R: Rounds, op: Op, order: seq<EntrantId>, C: Rounds)
    requires Valid(orderR, R) && Apply(R, op).Ok? && Apply(R, op).value.changed != []
    requires Holds(tour, order, C) && Compatible(R, tour.matches)
    requires UpdateMatches(tour, expected, ResultChanges(R, op)).1
    ensures Apply(C, op).Ok? && Apply(C, op).value.changed == Apply(R, op).value.changed
    ensures UpdateMatches(tour, expected, ResultChanges(R, op)).0 ==
            tour.(matches := Overlay(tour.matches, Apply(C, op).value.changed))
    ensures Holds(UpdateMatches(tour, expected, ResultChanges(R, op)).0, order, After(C, op))
    ensures SameIds(C, After(C, op))
  {
    var rows := tour.matches;
    ResultPairs(R, op);
    var (r, s) := Locate(R, op.id).value;
    var w := if op.OpReport? then Some(op.winner) else None;
    SetWinnerAt(R, r, s, w);
    var m := SetWinner(R, r, s, w)[r][s];
    var first := (R[r][s], m);
    MatchedSnapshot(tour, R, r, s, w, order, C);
    assert Apply(C, op) == Ok(Edit(SetWinner(C, r, s, w), ChangedMatches(SetWinner(C, r, s, w), r, s))) by {
      LocateAcrossSameIds(R, C, op.id);
    }
    StepKeepsValid(order, C, op);
    WriteOverlay(C, rows, r, s, w);
  }

  /** The heart of it: the rows checked are all the rows the decision looked at. */
  lemma MatchedSnapshot(
      tour: Tour, R: Rounds, r: nat, s: nat, w: Option<EntrantId>, order: seq<EntrantId>, C: Rounds)
    requires Grid(R) && DistinctIds(R) && At(R, r, s) && Writable(R, r, s, w)
    requires Holds(tour, order, C) && Compatible(R, tour.matches)
    requires ApplyChanges(tour.matches, WritePairs(R, r, s, w)).Some?
    ensures SameIds(R, C) && At(C, r, s) && C[r][s] == R[r][s] && Writable(C, r, s, w)
    ensures At(R, r + 1, s / 2) <==> At(C, r + 1, s / 2)
    ensures At(R, r + 1, s / 2) ==> C[r + 1][s / 2] == R[r + 1][s / 2]
    ensures ChangedMatches(SetWinner(C, r, s, w), r, s) == ChangedMatches(SetWinner(R, r, s, w), r, s)
    ensures ApplyChanges(tour.matches, WritePairs(R, r, s, w)) ==
            Some(Overlay(tour.matches, ChangedMatches(SetWinner(C, r, s, w), r, s)))
  {
    var rows := tour.matches;
    SetWinnerAt(R, r, s, w);
    var R' := SetWinner(R, r, s, w);
    var m := R'[r][s];
    ApplyOne(rows, R[r][s], m);
    if At(R, r + 1, s / 2) {
      ApplyTwo(rows, (R[r][s], m), (R[r + 1][s / 2], R'[r + 1][s / 2]));
    }
    assert SamePlaces(R, rows);
    SamePlacesMeansSameIds(R, C, rows);
    PassedRowIsTheReadRow(R, C, rows, r, s, m);
    SetWinnerAt(C, r, s, w);
    if At(R, r + 1, s / 2) {
      var n := R'[r + 1][s / 2];
      var rows1: MatchTable := rows[m.id := m];
      assert n.id != m.id;
      ApplyOne(rows1, R[r + 1][s / 2], n);
      ApplyOne(rows, R[r + 1][s / 2], n);
      PassedRowIsTheReadRow(R, C, rows, r + 1, s / 2, n);
      OverlayTwo(rows, m, n);
      assert ChangedMatches(SetWinner(C, r, s, w), r, s) == [m, n] == ChangedMatches(R', r, s);
    } else {
      OverlayOne(rows, m);
      assert ChangedMatches(SetWinner(C, r, s, w), r, s) == [m] == ChangedMatches(R', r, s);
    }
  }
}
