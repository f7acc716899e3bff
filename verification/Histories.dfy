/** Linearization of whole runs: the bracket a tournament stores is the one the
    last rebuild generated, with the results committed since then entered one
    after the other, however old the snapshots were that they were decided on. */
module Histories {
  import opened Basics
  import opened Brackets
  import opened BracketRules
  import opened Entrants
  import opened Tables
  import opened Protocol
  import opened StoreInvariants
  import opened StoreWrites
  import opened WorldInvariant
  import opened WorldSteps
  import opened Guarantees
  import opened Rules

  /** The last rebuild, and the operations that changed a result since then. */
  datatype History =
    | Nothing
    | Rebuilt(order: seq<EntrantId>, ids: (nat, nat) -> MatchId, ops: seq<Op>)

  /** What one committed write makes of the history. */
  ghost function Recorded(write: Write, h: History): History {
    match write
    case WriteBracket(_, order, ids) => Rebuilt(order, ids, [])
    case WriteNoBracket(_) => Nothing
    case WriteResult(_, read, op) =>
      (match Apply(read, op)
       case Ok(edit) => if h.Rebuilt? && edit.changed != [] then h.(ops := h.ops + [op]) else h
       case Err(_) => h)
    case _ => h
  }

  ghost function Advance(w: World, action: Action, t: TournamentId, h: History): History {
    if t !in Next(w, action).db.tours || t !in w.db.tours then Nothing
    else
      match CommittedOn(w, action, t)
      case Some(write) => Recorded(write, h)
      case None => h
  }

  ghost function HistoryOf(actions: seq<Action>, t: TournamentId): History {
    if actions == [] then Nothing
    else
      var before := actions[..|actions| - 1];
      Advance(Play(START, before), actions[|actions| - 1], t, HistoryOf(before, t))
  }

  /** Every operation was accepted and changed something when it was entered. */
  ghost predicate AllTook(R: Rounds, ops: seq<Op>) {
    ops == [] ||
    var before, last := ops[..|ops| - 1], ops[|ops| - 1];
    && AllTook(R, before)
    && Apply(Run(R, before), last).Ok? && Apply(Run(R, before), last).value.changed != []
  }

  /** The history tells what the tournament stores. */
  ghost predicate Tells(h: History, tour: Tour) {
    match h
    case Nothing => tour.matches == map[]
    case Rebuilt(order, ids, ops) =>
      && 2 <= |order| <= MAX_ENTRANTS && NoDup(order) && Supply(ids, |order|)
      && AllTook(Blank(order, ids), ops)
      && Holds(tour, order, Run(Blank(order, ids), ops))
  }

  lemma ForgottenIsTold(h: History, tour: Tour, tour': Tour)
    requires Tells(h, tour) && SameButForgotten(tour, tour')
    ensures Tells(h, tour')
  {
  }

  lemma RunOneMore(R: Rounds, ops: seq<Op>, op: Op)
    ensures Run(R, ops + [op]) == After(Run(R, ops), op)
    ensures AllTook(R, ops) && Apply(Run(R, ops), op).Ok? && Apply(Run(R, ops), op).value.changed != [] ==>
              AllTook(R, ops + [op])
  {
    assert (ops + [op])[..|ops|] == ops;
  }

  lemma RebuildIsTold(
      owner: map<MatchId, TournamentId>, players: map<PlayerId, bool>, tour: Tour, expected: Status,
      order: seq<EntrantId>, ids: (nat, nat) -> MatchId)
    requires Sound(owner, tour, WriteBracket(expected, order, ids))
    requires WriteTour(players, tour, WriteBracket(expected, order, ids)).1 == Ok(Wrote)
    ensures Tells(Rebuilt(order, ids, []), WriteTour(players, tour, WriteBracket(expected, order, ids)).0)
  {
    RebuiltHolds(tour, expected, order, ids);
    assert Run(Blank(order, ids), []) == Blank(order, ids);
  }

  lemma ResultIsTold(
      owner: map<MatchId, TournamentId>, t: TournamentId, tour: Tour, expected: Status, R: Rounds, op: Op, h: History)
    requires TourOk(owner, t, tour) && Sound(owner, tour, WriteResult(expected, R, op)) && Tells(h, tour)
    requires UpdateMatches(tour, expected, ResultChanges(R, op)).1
    ensures var tour' := UpdateMatches(tour, expected, ResultChanges(R, op)).0;
      if h.Rebuilt? && Apply(R, op).value.changed != [] then Tells(h.(ops := h.ops + [op]), tour')
      else Tells(h, tour')
  {
    if Apply(R, op).value.changed == [] {
      assert ResultChanges(R, op) == [];
      assert UpdateMatches(tour, expected, []).0 == tour;
    } else {
      var orderR :| Valid(orderR, R);
      ResultNeedsRows(tour, expected, R, op);
      if h.Rebuilt? {
        var B := Blank(h.order, h.ids);
        CommittedResultIsAtomic(tour, expected, orderR, R, op, h.order, Run(B, h.ops));
        RunOneMore(B, h.ops, op);
      }
    }
  }

  lemma RemovalIsTold(players: map<PlayerId, bool>, tour: Tour, expected: Status)
    requires WriteTour(players, tour, WriteNoBracket(expected)).1 == Ok(Wrote)
    ensures Tells(Nothing, WriteTour(players, tour, WriteNoBracket(expected)).0)
  {
  }

  /** A write that is not about the bracket leaves what is told, because beside a
      bracket it cannot touch an entrant. */
  lemma OtherWriteIsTold(players: map<PlayerId, bool>, tour: Tour, write: Write, h: History)
    requires !write.WriteResult? && !write.WriteBracket? && !write.WriteNoBracket?
    requires Tells(h, tour)
    ensures Tells(h, Written(players, tour, write))
  {
    if tour.matches == map[] {
      OnlyARebuildAddsMatches(players, tour, write);
      if h.Rebuilt? {
        BlankRowsNotEmpty(h.order, Run(Blank(h.order, h.ids), h.ops), tour.matches);
      }
    } else {
      OtherWriteKeepsSeats(players, tour, write);
    }
  }

  lemma OtherWriteKeepsSeats(players: map<PlayerId, bool>, tour: Tour, write: Write)
    requires !write.WriteResult? && !write.WriteBracket? && !write.WriteNoBracket? && tour.matches != map[]
    ensures Written(players, tour, write).matches == tour.matches
    ensures Written(players, tour, write).entrants == tour.entrants
  {
  }

  lemma StepIsTold(w: World, action: Action, t: TournamentId, h: History)
    requires WorldOk(w) && t in Next(w, action).db.tours
    requires t in w.db.tours ==> Tells(h, w.db.tours[t])
    ensures Tells(Advance(w, action, t, h), Next(w, action).db.tours[t])
  {
    if t !in w.db.tours {
      NewTourIsEmpty(w, action, t);
    } else {
      var tour := w.db.tours[t];
      StepOnTour(w, action, t);
      match CommittedOn(w, action, t) {
        case None => ForgottenIsTold(h, tour, Next(w, action).db.tours[t]);
        case Some(write) =>
          CommittedIsSound(w, action, t);
          CommitIsTold(w.owner, t, w.db.players, tour, write, h);
      }
    }
  }

  lemma CommitIsTold(
      owner: map<MatchId, TournamentId>, t: TournamentId, players: map<PlayerId, bool>, tour: Tour, write: Write, h: History)
    requires TourOk(owner, t, tour) && Sound(owner, tour, write) && Tells(h, tour)
    requires write.WriteStatus? || WriteTour(players, tour, write).1 == Ok(Wrote)
    ensures Tells(Recorded(write, h), Written(players, tour, write))
  {
    match write {
      case WriteBracket(expected, order, ids) => RebuildIsTold(owner, players, tour, expected, order, ids);
      case WriteNoBracket(expected) => RemovalIsTold(players, tour, expected);
      case WriteResult(expected, read, op) => ResultIsTold(owner, t, tour, expected, read, op, h);
      case _ => OtherWriteIsTold(players, tour, write, h);
    }
  }

  /** In every reachable world, whatever overtook what, the stored bracket of a
      tournament is the generated one with the committed results entered in the
      order of their commits, and each of them took effect. */
  lemma {:induction false} RunsAreLinear(actions: seq<Action>, t: TournamentId)
    requires t in Play(START, actions).db.tours
    ensures Tells(HistoryOf(actions, t), Play(START, actions).db.tours[t])
    decreases |actions|
  {
    if actions != [] {
      var before, last := actions[..|actions| - 1], actions[|actions| - 1];
      var w := Play(START, before);
      ReachableIsOk(w);
      if t in w.db.tours {
        RunsAreLinear(before, t);
      }
      StepIsTold(w, last, t, HistoryOf(before, t));
    }
  }
}
