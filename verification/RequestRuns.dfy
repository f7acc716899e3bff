/** Requests from beginning to commit: what a run of the steps of one request
    does when nobody else moves in between. */
module RequestRuns {
  import opened Basics
  import opened Brackets
  import opened BracketRules
  import opened Entrants
  import opened Seeding
  import opened Tables
  import opened Protocol
  import opened StoreInvariants
  import opened StoreWrites
  import opened WorldInvariant
  import opened WorldSteps

  // ---------- runs ----------

  lemma OneMoreStep(w: World, actions: seq<Action>, action: Action)
    ensures Play(w, actions + [action]) == Next(Play(w, actions), action)
  {
    assert (actions + [action])[..|actions + [action]| - 1] == actions;
  }

  lemma {:induction false} PlayAppend(w: World, actions: seq<Action>, more: seq<Action>)
    ensures Play(w, actions + more) == Play(Play(w, actions), more)
    decreases |more|
  {
    if more == [] {
      assert actions + more == actions;
    } else {
      var last := |more| - 1;
      assert (actions + more)[..|actions + more| - 1] == actions + more[..last];
      assert (actions + more)[|actions + more| - 1] == more[last];
      PlayAppend(w, actions, more[..last]);
    }
  }

  lemma RunOnward(w: World, actions: seq<Action>)
    requires Reachable(w)
    ensures Reachable(Play(w, actions))
  {
    var before :| Play(START, before) == w;
    PlayAppend(START, before, actions);
  }

  /** The world in which one more request waits. */
  function With(w: World, rid: int, q: Request): World {
    w.(requests := w.requests[rid := q])
  }

  // ---------- reading ----------

  lemma BeginThenReadTour(w: World, rid: int, t: TournamentId, intent: Intent)
    requires t in w.db.tours && rid !in w.requests && !intent.FixSkill?
    ensures Play(w, [Begin(rid, t, intent), ReadTour(rid)]) == With(w, rid, Request(t, intent, Some(ViewOf(w.db.tours[t])), None, None))
  {
    var a0, a1 := Begin(rid, t, intent), ReadTour(rid);
    OneMoreStep(w, [], a0);
    OneMoreStep(w, [a0], a1);
    assert [] + [a0] == [a0] && [a0] + [a1] == [a0, a1];
    var w1 := With(w, rid, Request(t, intent, None, None, None));
    assert [a0][..0] == [] && Play(w, [a0]) == w1;
    var q := Request(t, intent, Some(ViewOf(w.db.tours[t])), None, None);
    assert w1.requests[rid := q] == w.requests[rid := q];
  }

  lemma ThenReadEntrants(w: World, actions: seq<Action>, rid: int, q: Request, list: seq<Entrant>)
    requires q.t in w.db.tours && Play(w, actions) == With(w, rid, q) && q.entrants.None?
    requires ListsEntrants(list, w.db.tours[q.t].entrants)
    ensures Play(w, actions + [ReadEntrants(rid, list)]) == With(w, rid, q.(entrants := Some(list)))
  {
    OneMoreStep(w, actions, ReadEntrants(rid, list));
    var q' := q.(entrants := Some(list));
    assert With(w, rid, q).requests[rid := q'] == w.requests[rid := q'];
  }

  lemma ThenReadMatches(w: World, actions: seq<Action>, rid: int, q: Request, rows: seq<Match>, order: seq<EntrantId>, R: Rounds)
    requires q.t in w.db.tours && Play(w, actions) == With(w, rid, q) && q.bracket.None?
    requires Holds(w.db.tours[q.t], order, R) && ListsMatches(rows, w.db.tours[q.t].matches)
    ensures Play(w, actions + [ReadMatches(rid, rows)]) == With(w, rid, q.(bracket := Some(Some(R))))
  {
    ReadGivesStoredBracket(rows, w.db.tours[q.t].matches, order, R);
    OneMoreStep(w, actions, ReadMatches(rid, rows));
    var q' := q.(bracket := Some(Some(R)));
    assert With(w, rid, q).requests[rid := q'] == w.requests[rid := q'];
  }

  lemma ThenReadNoMatches(w: World, actions: seq<Action>, rid: int, q: Request)
    requires q.t in w.db.tours && Play(w, actions) == With(w, rid, q) && w.db.tours[q.t].matches == map[]
    ensures Play(w, actions + [ReadMatches(rid, [])]) == With(w, rid, q.(bracket := Some(None)))
  {
    OneMoreStep(w, actions, ReadMatches(rid, []));
    assert ListsMatches([], w.db.tours[q.t].matches);
    var q' := q.(bracket := Some(None));
    assert With(w, rid, q).requests[rid := q'] == w.requests[rid := q'];
  }

  /** A request that has read the entrants and the bracket. */
  lemma LoadWithBracket(
      w: World, rid: int, t: TournamentId, intent: Intent, list: seq<Entrant>, rows: seq<Match>,
      order: seq<EntrantId>, R: Rounds)
    returns (actions: seq<Action>)
    requires t in w.db.tours && rid !in w.requests && Holds(w.db.tours[t], order, R) && !intent.FixSkill?
    requires ListsEntrants(list, w.db.tours[t].entrants) && ListsMatches(rows, w.db.tours[t].matches)
    ensures Play(w, actions) == With(w, rid,
      Request(t, intent, Some(ViewOf(w.db.tours[t])), Some(list), Some(Some(R))))
  {
    var q := Request(t, intent, Some(ViewOf(w.db.tours[t])), None, None);
    BeginThenReadTour(w, rid, t, intent);
    var started := [Begin(rid, t, intent), ReadTour(rid)];
    ThenReadEntrants(w, started, rid, q, list);
    ThenReadMatches(w, started + [ReadEntrants(rid, list)], rid, q.(entrants := Some(list)), rows, order, R);
    actions := started + [ReadEntrants(rid, list)] + [ReadMatches(rid, rows)];
  }

  /** A request that has read what it needs to enter or clear a result. */
  lemma LoadCorrection(w: World, rid: int, t: TournamentId, rows: seq<Match>, order: seq<EntrantId>, R: Rounds, op: Op)
    returns (actions: seq<Action>)
    requires t in w.db.tours && rid !in w.requests && Holds(w.db.tours[t], order, R)
    requires ListsMatches(rows, w.db.tours[t].matches)
    ensures Play(w, actions) == With(w, rid,
      Request(t, EnterResult(op), Some(ViewOf(w.db.tours[t])), None, Some(Some(R))))
  {
    var q := Request(t, EnterResult(op), Some(ViewOf(w.db.tours[t])), None, None);
    BeginThenReadTour(w, rid, t, EnterResult(op));
    var started := [Begin(rid, t, EnterResult(op)), ReadTour(rid)];
    ThenReadMatches(w, started, rid, q, rows, order, R);
    actions := started + [ReadMatches(rid, rows)];
  }

  /** A request that has read the entrants and that there is no match. */
  lemma LoadWithoutBracket(w: World, rid: int, t: TournamentId, intent: Intent, list: seq<Entrant>)
    returns (actions: seq<Action>)
    requires t in w.db.tours && rid !in w.requests && w.db.tours[t].matches == map[] && !intent.FixSkill?
    requires ListsEntrants(list, w.db.tours[t].entrants)
    ensures Play(w, actions) == With(w, rid,
      Request(t, intent, Some(ViewOf(w.db.tours[t])), Some(list), Some(None)))
  {
    var q := Request(t, intent, Some(ViewOf(w.db.tours[t])), None, None);
    BeginThenReadTour(w, rid, t, intent);
    var started := [Begin(rid, t, intent), ReadTour(rid)];
    ThenReadEntrants(w, started, rid, q, list);
    ThenReadNoMatches(w, started + [ReadEntrants(rid, list)], rid, q.(entrants := Some(list)));
    actions := started + [ReadEntrants(rid, list)] + [ReadMatches(rid, [])];
  }

  // ---------- deciding and committing ----------

  lemma NextIsCommit(w: World, rid: int, chance: Chance)
    requires rid in w.requests && Ready(w.requests[rid]) && FairChance(w, w.requests[rid], chance)
    ensures Next(w, Commit(rid, chance)) == CommitRequest(w, rid, chance)
  {
  }

  lemma PlannedCorrection(w: World, t: TournamentId, R: Rounds, op: Op, view: View, chance: Chance)
    requires Apply(R, op).Ok? && view.status == Live
    ensures var q := Request(t, EnterResult(op), Some(view), None, Some(Some(R)));
      Ready(q) && Plan(q, chance) == Ok(WriteResult(Live, R, op)) && FairChance(w, q, chance)
  {
  }

  lemma CorrectionCommit(w: World, rid: int, chance: Chance, t: TournamentId, R: Rounds, op: Op, read: Tour)
    requires rid in w.requests && Apply(R, op).Ok? && read.status == Live && t in w.db.tours
    requires w.requests[rid] ==
      Request(t, EnterResult(op), Some(ViewOf(read)), None, Some(Some(R)))
    requires UpdateMatches(w.db.tours[t], Live, ResultChanges(R, op)).1
    ensures Next(w, Commit(rid, chance)) ==
            w.(db := w.db.(tours := w.db.tours[t := UpdateMatches(w.db.tours[t], Live, ResultChanges(R, op)).0]),
               requests := w.requests - {rid})
  {
    var view := ViewOf(read);
    PlannedCorrection(w, t, R, op, view, chance);
    NextIsCommit(w, rid, chance);
    CommitShape(w, rid, chance);
  }

  lemma PlannedMove(w: World, t: TournamentId, view: View, to: Status, chance: Chance)
    requires (view.status == Draft && to == Live) || (view.status == Live && to == Open && !view.hasBracket)
    ensures var q := Request(t, ChangeStatus(to, None), Some(view), None, None);
      Ready(q) && FairChance(w, q, chance) && Plan(q, chance) == Ok(WriteStatus(view.status, to, None, []))
  {
  }

  /** The commit of a loaded move from draft to live, or from live back to open. */
  lemma MoveStep(w: World, rid: int, t: TournamentId, view: View, to: Status, chance: Chance)
    requires (view.status == Draft && to == Live) || (view.status == Live && to == Open && !view.hasBracket)
    requires t in w.db.tours && w.db.tours[t].status == view.status
    requires rid in w.requests && w.requests[rid] == Request(t, ChangeStatus(to, None), Some(view), None, None)
    ensures Next(w, Commit(rid, chance)) ==
            w.(db := w.db.(tours := w.db.tours[t := w.db.tours[t].(status := to, winner := None)]),
               requests := w.requests - {rid})
  {
    PlannedMove(w, t, view, to, chance);
    NextIsCommit(w, rid, chance);
    StatusShape(w, rid, chance);
    assert InsertAwards(w.db.players, w.db.ledger, [], Some(t), None) == Ok(w.db.ledger);
  }

  lemma PlannedEntry(w: World, t: TournamentId, view: View, player: PlayerId, level: Option<int>, chance: Chance)
    requires view.status == Live && !view.hasBracket && chance.id !in w.issued
    ensures var q := Request(t, EnrolPlayer(player, level), Some(view), None, None);
      && Ready(q) && FairChance(w, q, chance)
      && Plan(q, chance) == Ok(WriteEntrant(chance.id, player, level, EntrantGuard(Live, None)))
  {
  }

  /** The commit of a loaded entry by an organiser. */
  lemma EntryStep(w: World, rid: int, t: TournamentId, view: View, player: PlayerId, level: Option<int>, chance: Chance)
    requires t in w.db.tours && w.db.tours[t].status == Live && w.db.tours[t].matches == map[]
    requires |w.db.tours[t].entrants| < MAX_ENTRANTS && !HasEntry(w.db.tours[t], player) && player in w.db.players
    requires rid in w.requests && view.status == Live && !view.hasBracket && chance.id !in w.issued
    requires w.requests[rid] == Request(t, EnrolPlayer(player, level), Some(view), None, None)
    ensures var tour := w.db.tours[t];
      Next(w, Commit(rid, chance)) ==
      w.(db := w.db.(tours := w.db.tours[t := tour.(
                       entrants := tour.entrants[chance.id := EntrantRow(Some(player), None, level)])]),
         requests := w.requests - {rid}, issued := w.issued + {chance.id})
  {
    PlannedEntry(w, t, view, player, level, chance);
    NextIsCommit(w, rid, chance);
    CommitShape(w, rid, chance);
  }

  /** Chance as a draw of this list needs it: a shuffle, and new match ids. */
  ghost predicate DrawChance(issued: set<int>, list: seq<Entrant>, chance: Chance) {
    && 2 <= |list| <= MAX_ENTRANTS
    && multiset(chance.shuffled) == multiset(list)
    && |DrawOrder(chance.shuffled)| == |list|
    && Supply(chance.ids, |list|)
    && FlatIds(Blank(Ids(DrawOrder(chance.shuffled)), chance.ids)) !! issued
  }

  lemma PlannedDraw(w: World, t: TournamentId, view: View, list: seq<Entrant>, chance: Chance)
    requires view.status == Live && DrawChance(w.issued, list, chance)
    ensures var q := Request(t, GenerateBracket, Some(view), Some(list), Some(None));
      && Ready(q) && FairChance(w, q, chance)
      && Plan(q, chance) == Ok(WriteBracket(Live, Ids(DrawOrder(chance.shuffled)), chance.ids))
  {
  }

  lemma DrawWrites(tour: Tour, order: seq<EntrantId>, ids: (nat, nat) -> MatchId, players: map<PlayerId, bool>)
    requires tour.status == Live && tour.matches == map[]
    requires 2 <= |order| <= MAX_ENTRANTS && NoDup(order) && Supply(ids, |order|)
    requires forall e :: e in order ==> e in tour.entrants
    ensures var (tour', answer) := WriteTour(players, tour, WriteBracket(Live, order, ids));
      && answer == Ok(Wrote) && tour'.matches != map[] && Holds(tour', order, Blank(order, ids))
      && tour' == tour.(matches := tour'.matches, entrants := WithSeeds(tour.entrants, order))
  {
    assert ReplaceBracket(tour, Live, order, Blank(order, ids)).1 == Done;
    RebuiltHolds(tour, Live, order, ids);
  }

  /** The commit of a loaded draw. `rows` is the field that was read: as long as
      none of it has left, the draw commits, over exactly that field. */
  lemma DrawStep(
      w: World, rid: int, t: TournamentId, view: View, list: seq<Entrant>, rows: map<EntrantId, EntrantRow>, chance: Chance)
    returns (order: seq<EntrantId>)
    requires t in w.db.tours && w.db.tours[t].status == Live && w.db.tours[t].matches == map[]
    requires rid in w.requests && view.status == Live
    requires w.requests[rid] == Request(t, GenerateBracket, Some(view), Some(list), Some(None))
    requires OnePerPlayer(rows) && |rows| <= MAX_ENTRANTS && ListsEntrants(list, rows)
    requires forall e :: e in rows ==> e in w.db.tours[t].entrants
    requires DrawChance(w.issued, list, chance)
    ensures 2 <= |order| <= MAX_ENTRANTS && NoDup(order) && Supply(chance.ids, |order|) && Elements(order) == rows.Keys
    ensures var w' := Next(w, Commit(rid, chance));
      && t in w'.db.tours && w'.requests == w.requests - {rid}
      && w'.db == w.db.(tours := w.db.tours[t := w'.db.tours[t]])
      && w'.db.tours[t].matches != map[] && Holds(w'.db.tours[t], order, Blank(order, chance.ids))
      && w'.db.tours[t] ==
           w.db.tours[t].(matches := w'.db.tours[t].matches, entrants := WithSeeds(w.db.tours[t].entrants, order))
  {
    order := Ids(DrawOrder(chance.shuffled));
    ReadGivesEveryEntrant(list, rows);
    DrawnIds(list, chance.shuffled);
    PermutationKeepsNoDup(Ids(list), order);
    forall e | e in order ensures e in w.db.tours[t].entrants {
      assert e in Elements(order);
    }
    DrawWrites(w.db.tours[t], order, chance.ids, w.db.players);
    PlannedDraw(w, t, view, list, chance);
    NextIsCommit(w, rid, chance);
    CommitShape(w, rid, chance);
  }
}
