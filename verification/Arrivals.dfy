/** Runs from the empty store to the worlds that matter: fields of every size,
    every bracket that results can make, and every failure of the three rules.
    So none of the conditions proved elsewhere is about a world that never is. */
module Arrivals {
  import opened Basics
  import opened Brackets
  import opened BracketRules
  import opened BracketRuns
  import opened Entrants
  import opened Seeding
  import opened Tables
  import opened Protocol
  import opened Store
  import opened StoreInvariants
  import opened WorldInvariant
  import opened WorldSteps
  import opened Guarantees
  import opened Rules
  import opened RequestRuns
  import opened Overtaking
  import opened WholeRequests

  // ---------- new ids and complete reads ----------

  lemma {:induction false} Above(ids: set<int>) returns (bound: int)
    ensures forall id :: id in ids ==> id < bound
    decreases |ids|
  {
    if forall id :: id !in ids {
      bound := 0;
    } else {
      var id :| id in ids;
      bound := Above(ids - {id});
      bound := if id < bound then bound else id + 1;
      assert forall x :: x in ids ==> x == id || x in ids - {id};
    }
  }

  /** Match ids from `bound` up, one per place. */
  function IdsFrom(bound: int): (nat, nat) -> MatchId {
    (r, s) => bound + MAX_ENTRANTS * r + s
  }

  lemma PlaceIsSmall(n: nat, r: nat, s: nat)
    requires 2 <= n <= MAX_ENTRANTS && InShape(n, r, s)
    ensures s < MAX_ENTRANTS
  {
    Pow2Monotone(Log2Ceil(n) - 1 - r, Log2Ceil(n) - 1);
  }

  lemma IdsFromAreNew(order: seq<EntrantId>, bound: int)
    requires 2 <= |order| <= MAX_ENTRANTS && NoDup(order)
    ensures Supply(IdsFrom(bound), |order|)
    ensures forall id :: id in FlatIds(Blank(order, IdsFrom(bound))) ==> bound <= id
  {
    var ids := IdsFrom(bound);
    forall r: nat, s: nat, r': nat, s': nat |
      InShape(|order|, r, s) && InShape(|order|, r', s') && ids(r, s) == ids(r', s')
      ensures r == r' && s == s'
    {
      PlaceIsSmall(|order|, r, s);
      PlaceIsSmall(|order|, r', s');
    }
    BlankIsValid(order, ids);
    forall id | id in FlatIds(Blank(order, ids)) ensures bound <= id {
      var m :| m in Flat(Blank(order, ids)) && m.id == id;
      var i :| 0 <= i < |Flat(Blank(order, ids))| && Flat(Blank(order, ids))[i] == m;
      var r, s := MemberOfFlat(Blank(order, ids), i);
      assert At(Blank(order, ids), r, s);
    }
  }

  lemma {:induction false} ListOf(rows: map<EntrantId, EntrantRow>) returns (list: seq<Entrant>)
    ensures NoDup(Ids(list)) && |list| == |rows|
    ensures forall i :: 0 <= i < |list| ==>
              && list[i].id in rows
              && list[i] == Entrant(list[i].id, rows[list[i].id].player, rows[list[i].id].seed, rows[list[i].id].skill)
    decreases |rows|
  {
    if forall e :: e !in rows {
      assert rows == map[];
      list := [];
    } else {
      var e :| e in rows;
      assert (rows - {e}).Keys == rows.Keys - {e} && |rows - {e}| == |rows| - 1 by {
        assert |rows| == |rows.Keys| && |rows - {e}| == |(rows - {e}).Keys|;
      }
      var rest := ListOf(rows - {e});
      list := [Entrant(e, rows[e].player, rows[e].seed, rows[e].skill)] + rest;
      assert Ids(list) == [e] + Ids(rest);
    }
  }

  lemma RowsOfBracket(tour: Tour, order: seq<EntrantId>, R: Rounds)
    requires Holds(tour, order, R)
    ensures ListsMatches(Flat(R), tour.matches)
  {
    MostMatches(order, R);
    StoredIds(R, tour.matches);
    FlatHasDistinctIds(R);
    forall i | 0 <= i < |Flat(R)| ensures Flat(R)[i].id in tour.matches && Flat(R)[i] == tour.matches[Flat(R)[i].id] {
      var r, s := MemberOfFlat(R, i);
      assert At(R, r, s);
    }
  }

  // ---------- fields ----------

  /** Nobody has a request in flight, and the tournament is live with `n` entrants
      who all have an account, and without a bracket. */
  ghost predicate LiveField(w: World, t: TournamentId, n: nat) {
    && Reachable(w) && w.requests == map[] && t in w.db.tours
    && w.db.tours[t].status == Live && w.db.tours[t].matches == map[]
    && |w.db.tours[t].entrants| == n
    && forall e :: e in w.db.tours[t].entrants ==> w.db.tours[t].entrants[e].player.Some?
  }

  const NO_CHANCE := Chance(0, IdsFrom(0), [])

  lemma EmptyField() returns (w: World, t: TournamentId)
    ensures LiveField(w, t, 0)
  {
    t := 0;
    var w1 := Next(START, CreateTour(t, 0));
    assert Play(START, []) == START;
    OneMoreStep(START, [], CreateTour(t, 0));
    assert Reachable(w1);
    var intent := ChangeStatus(Live, None);
    BeginThenReadTour(w1, 0, t, intent);
    var load := [Begin(0, t, intent), ReadTour(0)];
    OneMoreStep(w1, load, Commit(0, NO_CHANCE));
    MoveStep(Play(w1, load), 0, t, ViewOf(w1.db.tours[t]), Live, NO_CHANCE);
    w := Play(w1, load + [Commit(0, NO_CHANCE)]);
    RunOnward(w1, load + [Commit(0, NO_CHANCE)]);
  }

  /** A new account. */
  lemma OneMorePlayer(w: World, t: TournamentId, n: nat) returns (w': World, p: PlayerId)
    requires LiveField(w, t, n)
    ensures LiveField(w', t, n) && w'.db.tours == w.db.tours
    ensures p in w'.db.players && !HasEntry(w'.db.tours[t], p)
  {
    w', p := SignedUp(w, t);
  }

  lemma OneMoreEntrant(w: World, t: TournamentId, n: nat) returns (w': World)
    requires LiveField(w, t, n) && n < MAX_ENTRANTS
    ensures LiveField(w', t, n + 1)
  {
    var w1, p := OneMorePlayer(w, t, n);
    var tour := w1.db.tours[t];
    var id := Above(w1.issued);
    var enter := LoadAndEnter(w1, 0, t, p, None, NO_CHANCE.(id := id));
    w' := Play(w1, enter);
    RunOnward(w1, enter);
    ReachableIsOk(w1);
    assert EntriesIssued(w1.issued, tour);
    assert w'.db.tours[t].entrants.Keys == tour.entrants.Keys + {id} && id !in tour.entrants;
    assert |w'.db.tours[t].entrants| == |tour.entrants| + 1;
  }

  /** Fields of every size up to the largest are reached. */
  lemma {:induction false} FieldOf(n: nat) returns (w: World, t: TournamentId)
    requires n <= MAX_ENTRANTS
    ensures LiveField(w, t, n)
  {
    if n == 0 {
      w, t := EmptyField();
    } else {
      w, t := FieldOf(n - 1);
      w := OneMoreEntrant(w, t, n - 1);
    }
  }

  /** A read of the field and a chance for its draw, with ids above `more` too. */
  lemma ReadyToDraw(w: World, t: TournamentId, n: nat, more: set<int>) returns (list: seq<Entrant>, chance: Chance)
    requires LiveField(w, t, n) && 2 <= n <= MAX_ENTRANTS
    ensures ListsEntrants(list, w.db.tours[t].entrants) && |list| == n
    ensures DrawChance(w.issued + more, list, chance)
  {
    list := ListOf(w.db.tours[t].entrants);
    var bound := Above(w.issued + more);
    chance := Chance(0, IdsFrom(bound), list);
    DrawIsByLevel(list, list, 0);
    DrawnIds(list, list);
    var order := Ids(DrawOrder(list));
    PermutationKeepsNoDup(Ids(list), order);
    IdsFromAreNew(order, bound);
  }

  // ---------- by registration ----------

  /** Registration is open, and `n` players have registered themselves. */
  ghost predicate OpenField(w: World, t: TournamentId, n: nat) {
    && Reachable(w) && w.requests == map[] && t in w.db.tours
    && w.db.tours[t].status == Open && 0 < w.db.tours[t].closesAt && w.db.tours[t].matches == map[]
    && |w.db.tours[t].entrants| == n
    && forall e :: e in w.db.tours[t].entrants ==> w.db.tours[t].entrants[e].player.Some?
  }

  lemma EmptyOpenField() returns (w: World, t: TournamentId)
    ensures OpenField(w, t, 0)
  {
    t := 0;
    var w1 := Next(START, CreateTour(t, 1));
    assert Play(START, []) == START;
    OneMoreStep(START, [], CreateTour(t, 1));
    assert Reachable(w1);
    var chance := NO_CHANCE.(id := 1);
    MoveAlone(w1, 0, t, Open, None, chance);
    AloneEnds(w1, 0, t, ChangeStatus(Open, None), chance);
    w := Play(w1, Steps(0, t, ChangeStatus(Open, None), chance));
    RunOnward(w1, Steps(0, t, ChangeStatus(Open, None), chance));
  }

  lemma SignedUp(w: World, t: TournamentId) returns (w': World, p: PlayerId)
    requires Reachable(w) && t in w.db.tours
    ensures Reachable(w') && w'.db.tours == w.db.tours && w'.requests == w.requests
    ensures p in w'.db.players && !HasEntry(w'.db.tours[t], p)
  {
    p := Above(w.issued + w.db.players.Keys);
    w' := Next(w, SignUp(p, false));
    OneMoreStep(w, [], SignUp(p, false));
    assert Play(w, []) == w;
    RunOnward(w, [] + [SignUp(p, false)]);
    EntriesNameAccounts(w, t);
    assert p !in w.db.players;
  }

  lemma OneMoreRegistration(w: World, t: TournamentId, n: nat) returns (w': World)
    requires OpenField(w, t, n) && n < MAX_ENTRANTS
    ensures OpenField(w', t, n + 1)
  {
    var w1, p := SignedUp(w, t);
    var tour := w1.db.tours[t];
    var id := Above(w1.issued);
    var chance := NO_CHANCE.(id := id);
    var steps := Steps(0, t, Register(p, 3, 0), chance);
    RegisterAlone(w1, 0, t, p, 3, 0, chance);
    AloneEnds(w1, 0, t, Register(p, 3, 0), chance);
    w' := Play(w1, steps);
    RunOnward(w1, steps);
    ReachableIsOk(w1);
    assert EntriesIssued(w1.issued, tour);
    assert w'.db.tours[t].entrants.Keys == tour.entrants.Keys + {id} && id !in tour.entrants;
    assert |w'.db.tours[t].entrants| == |tour.entrants| + 1;
  }

  lemma {:induction false} Registered(n: nat) returns (w: World, t: TournamentId)
    requires n <= MAX_ENTRANTS
    ensures OpenField(w, t, n)
  {
    if n == 0 {
      w, t := EmptyOpenField();
    } else {
      w, t := Registered(n - 1);
      w := OneMoreRegistration(w, t, n - 1);
    }
  }

  /** For fields of every size, a run from draft through open, where each player
      registers, to live. */
  lemma RegisteredField(n: nat) returns (w: World, t: TournamentId)
    requires n <= MAX_ENTRANTS
    ensures LiveField(w, t, n)
  {
    var w1, u := Registered(n);
    t := u;
    var id := Above(w1.issued);
    var chance := NO_CHANCE.(id := id);
    MoveAlone(w1, 0, t, Live, None, chance);
    AloneEnds(w1, 0, t, ChangeStatus(Live, None), chance);
    w := Play(w1, Steps(0, t, ChangeStatus(Live, None), chance));
    RunOnward(w1, Steps(0, t, ChangeStatus(Live, None), chance));
  }

  // ---------- brackets ----------

  /** Nobody has a request in flight, and the live tournament holds the bracket. */
  ghost predicate LiveBracket(w: World, t: TournamentId, order: seq<EntrantId>, R: Rounds) {
    && Reachable(w) && w.requests == map[] && t in w.db.tours
    && w.db.tours[t].status == Live && Holds(w.db.tours[t], order, R)
  }

  lemma DrawnField(n: nat)
    returns (w: World, t: TournamentId, order: seq<EntrantId>, ids: (nat, nat) -> MatchId)
    requires 2 <= n <= MAX_ENTRANTS
    ensures |order| == n && NoDup(order) && Supply(ids, n)
    ensures LiveBracket(w, t, order, Blank(order, ids))
  {
    var w0: World;
    w0, t := FieldOf(n);
    FieldIsBounded(w0, t);
    var list, chance := ReadyToDraw(w0, t, n, {});
    assert w0.issued + {} == w0.issued;
    var draw, order', tour' := LoadAndDraw(w0, 0, t, list, chance);
    order, ids := order', chance.ids;
    NoDupCardinality(order);
    assert |w0.db.tours[t].entrants| == |w0.db.tours[t].entrants.Keys|;
    w := Play(w0, draw);
    RunOnward(w0, draw);
  }

  /** One accepted operation on the stored bracket, from its reads to its commit. */
  lemma OneMoreResult(w: World, t: TournamentId, order: seq<EntrantId>, R: Rounds, op: Op) returns (w': World)
    requires LiveBracket(w, t, order, R)
    ensures LiveBracket(w', t, order, After(R, op))
  {
    if Apply(R, op).Err? {
      w' := w;
    } else {
      var tour := w.db.tours[t];
      RowsOfBracket(tour, order, R);
      var load := LoadCorrection(w, 0, t, Flat(R), order, R, op);
      FreshResultCommits(tour, order, R, op);
      var w1 := Play(w, load);
      CorrectionCommit(w1, 0, NO_CHANCE, t, R, op, tour);
      OneMoreStep(w, load, Commit(0, NO_CHANCE));
      w' := Play(w, load + [Commit(0, NO_CHANCE)]);
      RunOnward(w, load + [Commit(0, NO_CHANCE)]);
      assert w1.requests - {0} == map[];
    }
  }

  lemma {:induction false} ResultsAreStored(w: World, t: TournamentId, order: seq<EntrantId>, R: Rounds, ops: seq<Op>)
    returns (w': World)
    requires LiveBracket(w, t, order, R)
    ensures LiveBracket(w', t, order, Run(R, ops))
    decreases |ops|
  {
    if ops == [] {
      w' := w;
    } else {
      var last := |ops| - 1;
      var w1 := ResultsAreStored(w, t, order, R, ops[..last]);
      w' := OneMoreResult(w1, t, order, Run(R, ops[..last]), ops[last]);
    }
  }

  /** For fields of every size, some run of the store ends in a finished bracket. */
  lemma FinishedField(n: nat) returns (w: World, t: TournamentId, order: seq<EntrantId>, R: Rounds)
    requires 2 <= n <= MAX_ENTRANTS
    ensures LiveBracket(w, t, order, R) && ChampionOf(R).Some? && |order| == n
  {
    var w0, u, seeds, ids := DrawnField(n);
    var ops := PlayOut(seeds, Blank(seeds, ids));
    t, order, R := u, seeds, Run(Blank(seeds, ids), ops);
    w := ResultsAreStored(w0, t, order, Blank(seeds, ids), ops);
  }

  // ---------- failures ----------

  /** A reachable world in which a tournament broke the rule of its winner. */
  lemma TheFinalCanBeOvertaken(n: nat) returns (w: World, t: TournamentId)
    requires 2 <= n <= MAX_ENTRANTS
    ensures Reachable(w) && t in w.db.tours && !FinalNamesWinner(w.db.tours[t]) && w.db.tours[t].winner.Some?
  {
    var w0, u, order, R := FinishedField(n);
    t := u;
    ReachableIsOk(w0);
    assert TourOk(w0.owner, t, w0.db.tours[t]);
    var list := ListOf(w0.db.tours[t].entrants);
    RowsOfBracket(w0.db.tours[t], order, R);
    var actions := ConclusionOvertakenByACorrection(w0, t, order, R, list, Flat(R), 0, 1, NO_CHANCE);
    w := Play(w0, actions);
    RunOnward(w0, actions);
  }

  /** The same for a conclusion that saw no bracket. */
  lemma NoBracketCanBeOvertaken(n: nat) returns (w: World, t: TournamentId)
    requires 2 <= n <= MAX_ENTRANTS
    ensures Reachable(w) && t in w.db.tours && !FinalNamesWinner(w.db.tours[t]) && w.db.tours[t].winner.None?
  {
    var w0, u := FieldOf(n);
    t := u;
    var list, chance := ReadyToDraw(w0, t, n, {});
    assert w0.issued + {} == w0.issued;
    var actions := ConclusionOvertakenByADraw(w0, t, list, None, 0, 1, chance);
    w := Play(w0, actions);
    RunOnward(w0, actions);
  }

  /** A reachable world with a bracket in an open tournament. */
  lemma ReopeningCanBeOvertaken(n: nat) returns (w: World, t: TournamentId)
    requires 2 <= n <= MAX_ENTRANTS
    ensures Reachable(w) && t in w.db.tours && !BracketOnlyOnceLive(w.db.tours[t])
  {
    var w0, u := FieldOf(n);
    t := u;
    var list, chance := ReadyToDraw(w0, t, n, {});
    assert w0.issued + {} == w0.issued;
    var actions := ReopeningOvertakenByADraw(w0, t, list, 0, 1, chance);
    w := Play(w0, actions);
    RunOnward(w0, actions);
  }

  /** A reachable world with an entrant the bracket left out. */
  lemma DrawCanBeOvertaken(n: nat) returns (w: World, t: TournamentId)
    requires 2 <= n < MAX_ENTRANTS
    ensures Reachable(w) && t in w.db.tours && !EveryoneSeeded(w.db.tours[t])
  {
    var w0, u := FieldOf(n);
    t := u;
    var w1, p := OneMorePlayer(w0, t, n);
    var id := Above(w1.issued);
    var list, draw := ReadyToDraw(w1, t, n, {id});
    var actions := DrawOvertakenByAnEntry(w1, t, list, 0, 1, p, None, NO_CHANCE.(id := id), draw);
    w := Play(w1, actions);
    RunOnward(w1, actions);
  }
}
