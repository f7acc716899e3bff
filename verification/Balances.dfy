/** The ledger as an account book: the balance of a player is the sum of their
    rows, and every step moves every balance by exactly what it stands for. */
module Balances {
  import opened Basics
  import opened Entrants
  import opened Points
  import opened Tables
  import opened Protocol
  import opened WorldInvariant
  import opened WorldSteps
  import opened Guarantees
  import opened Rules

  // ---------- sums of rows ----------

  ghost function Sum(rows: set<Entry>): int {
    if rows == {} then 0
    else
      var x :| x in rows;
      x.amount + Sum(rows - {x})
  }

  ghost function RowsOf(ledger: set<Entry>, p: PlayerId): set<Entry> {
    set x | x in ledger && x.player == p
  }

  ghost function Balance(ledger: set<Entry>, p: PlayerId): int {
    Sum(RowsOf(ledger, p))
  }

  /** It does not matter which row is taken first. */
  lemma {:induction false} SumWithout(rows: set<Entry>, y: Entry)
    requires y in rows
    ensures Sum(rows) == y.amount + Sum(rows - {y})
    decreases |rows|
  {
    var x :| x in rows && Sum(rows) == x.amount + Sum(rows - {x});
    if x != y {
      SumWithout(rows - {x}, y);
      SumWithout(rows - {y}, x);
      assert rows - {x} - {y} == rows - {y} - {x};
    }
  }

  lemma SumWith(rows: set<Entry>, y: Entry)
    requires y !in rows
    ensures Sum(rows + {y}) == Sum(rows) + y.amount
  {
    SumWithout(rows + {y}, y);
    assert rows + {y} - {y} == rows;
  }

  /** One row more moves the balance of its player and no other. */
  lemma OneRowMore(ledger: set<Entry>, x: Entry, p: PlayerId)
    requires x !in ledger
    ensures Balance(ledger + {x}, p) == Balance(ledger, p) + if x.player == p then x.amount else 0
  {
    if x.player == p {
      SumWith(RowsOf(ledger, p), x);
      assert RowsOf(ledger + {x}, p) == RowsOf(ledger, p) + {x};
    } else {
      assert RowsOf(ledger + {x}, p) == RowsOf(ledger, p);
    }
  }

  lemma OneRowLess(ledger: set<Entry>, x: Entry, p: PlayerId)
    requires x in ledger
    ensures Balance(ledger - {x}, p) == Balance(ledger, p) - if x.player == p then x.amount else 0
  {
    OneRowMore(ledger - {x}, x, p);
    assert ledger - {x} + {x} == ledger;
  }

  /** Rows that go in one piece take their sum with them. */
  lemma {:induction false} RowsGone(rows: set<Entry>, gone: set<Entry>)
    requires gone <= rows
    ensures Sum(rows - gone) == Sum(rows) - Sum(gone)
    decreases |gone|
  {
    if gone == {} {
      assert rows - gone == rows;
    } else {
      var x :| x in gone && Sum(gone) == x.amount + Sum(gone - {x});
      SumWithout(rows, x);
      RowsGone(rows - {x}, gone - {x});
      assert rows - {x} - (gone - {x}) == rows - gone;
    }
  }

  // ---------- awards ----------

  /** Awards that go in raise each balance by what they say. */
  lemma {:induction false} AwardsRaiseBalances(
      players: map<PlayerId, bool>, ledger: set<Entry>, awards: seq<Award>,
      tournament: Option<TournamentId>, event: Option<EventId>, p: PlayerId)
    requires InsertAwards(players, ledger, awards, tournament, event).Ok?
    ensures Balance(InsertAwards(players, ledger, awards, tournament, event).value, p) ==
            Balance(ledger, p) + Earned(awards, p)
    decreases |awards|
  {
    if awards != [] {
      var x := ToEntry(awards[0], tournament, event);
      assert x !in ledger by {
        assert !KeyTaken(ledger, x.Key());
      }
      OneRowMore(ledger, x, p);
      AwardsRaiseBalances(players, ledger + {x}, awards[1..], tournament, event, p);
    }
  }

  // ---------- adjustments ----------

  /** An adjustment is refused for a key that is taken, then for a player who is
      not there. Otherwise the balance of the player moves by the amount, up or
      down as its sign says, and no other balance moves. */
  lemma AdjustmentMovesOneBalance(db: Db, id: int, p: PlayerId, amount: int, other: PlayerId)
    ensures var (db', answer) := AddAdjustment(db, id, p, amount);
      var taken := exists x :: x in db.ledger && x.kind == Adjustment && x.player == p && x.source == id;
      && (answer == Err(UniqueViolation) <==> taken)
      && (answer == Err(ForeignKeyViolation) <==> !taken && p !in db.players)
      && (answer == Ok(()) <==> !taken && p in db.players)
      && (answer != Ok(()) ==> db' == db)
      && (answer == Ok(()) ==>
            && db' == db.(ledger := db.ledger + {Entry(p, amount, Adjustment, id, None, None)})
            && Balance(db'.ledger, p) == Balance(db.ledger, p) + amount
            && (other != p ==> Balance(db'.ledger, other) == Balance(db.ledger, other)))
  {
    var x := Entry(p, amount, Adjustment, id, None, None);
    if x !in db.ledger {
      OneRowMore(db.ledger, x, p);
      OneRowMore(db.ledger, x, other);
    }
  }

  // ---------- every step ----------

  /** Whether the step makes a new check-in row for this pair. */
  ghost predicate ChecksIn(w: World, action: Action, e: EventId, p: PlayerId) {
    && action.RecordCheckin? && action.rid in w.scans && w.scans[action.rid] == (e, p)
    && (e, p) !in w.db.checkins && e in w.db.events && p in w.db.players
  }

  /** Cycles a step pays to a player, by what the step is: a prize or an entry in
      a tournament that concludes, 100 at a door, or an adjustment. */
  ghost function PaidBy(w: World, action: Action, p: PlayerId): int {
    if action.Commit? && action.rid in w.requests then
      (match CommittedOn(w, action, w.requests[action.rid].t)
       case Some(WriteStatus(_, _, _, awards)) => Earned(awards, p)
       case _ => 0)
    else if action.RecordCheckin? then
      if exists e :: ChecksIn(w, action, e, p) then 100 else 0
    else if action.Adjust? then
      if action.id !in w.issued && action.p == p && p in w.db.players then action.amount else 0
    else 0
  }

  /** Cycles that go with what they were paid for: a check-in that is taken back,
      an event or a tournament that is removed, the account itself. */
  ghost function TakenBy(w: World, action: Action, p: PlayerId): int {
    match action
    case UndoCheckin(e, q) => if q == p && (e, p) in w.db.checkins then 100 else 0
    case RemoveEvent(e) => if (e, p) in w.db.checkins then 100 else 0
    case RemoveTour(t) => Sum(set x | x in w.db.ledger && x.player == p && x.tournament == Some(t))
    case RemovePlayer(q) => if q == p then Balance(w.db.ledger, p) else 0
    case _ => 0
  }

  lemma CommitMovesBalances(w: World, action: Action, p: PlayerId)
    requires action.Commit? && action.rid in w.requests && Ready(w.requests[action.rid])
    requires FairChance(w, w.requests[action.rid], action.chance)
    ensures Balance(CommitRequest(w, action.rid, action.chance).db.ledger, p) ==
            Balance(w.db.ledger, p) + PaidBy(w, action, p)
  {
    var q := w.requests[action.rid];
    if Plan(q, action.chance).Ok? {
      var write := Plan(q, action.chance).value;
      CommitWrites(w, action.rid, action.chance);
      if write.WriteStatus? {
        MoveMovesBalances(w.db, q.t, write, p);
      } else {
        OtherWritesKeepLedger(w.db, q.t, write);
      }
    }
  }

  lemma OtherWritesKeepLedger(db: Db, t: TournamentId, write: Write)
    requires !write.WriteStatus? && (write.WriteBracket? ==> |write.order| >= 2)
    ensures Execute(db, t, write).0.ledger == db.ledger
  {
  }

  lemma MoveMovesBalances(db: Db, t: TournamentId, write: Write, p: PlayerId)
    requires write.WriteStatus?
    ensures var (db', answer) := Execute(db, t, write);
      Balance(db'.ledger, p) == Balance(db.ledger, p) + if answer == Ok(Wrote) then Earned(write.awards, p) else 0
  {
    if Execute(db, t, write).1 == Ok(Wrote) {
      AwardsRaiseBalances(db.players, db.ledger, write.awards, Some(t), None, p);
    } else {
      RefusedMoveChangesNothing(db, t, write);
    }
  }

  lemma CheckinMovesBalances(w: World, action: Action, p: PlayerId)
    requires WorldOk(w) && action.RecordCheckin? && action.rid in w.scans
    ensures Balance(Next(w, action).db.ledger, p) == Balance(w.db.ledger, p) + PaidBy(w, action, p)
  {
    var (e, q) := w.scans[action.rid];
    CheckInOutcome(w, e, q, action.at);
    CheckInAnswers(w.db, e, q, action.at);
    if ChecksIn(w, action, e, q) {
      var x := CheckinEntry(e, q);
      assert !KeyTaken(w.db.ledger, x.Key()) && x !in w.db.ledger;
      OneRowMore(w.db.ledger, x, p);
    }
    assert forall f :: ChecksIn(w, action, f, p) ==> f == e && p == q;
  }

  /** When a check-in goes in, and what it is otherwise. */
  lemma CheckInAnswers(db: Db, e: EventId, p: PlayerId, at: int)
    ensures var answer := CheckIn(db, e, p, at).1;
      && (answer.Ok? && answer.value.NewCheckin? ==> (e, p) !in db.checkins && e in db.events && p in db.players)
      && (((e, p) !in db.checkins && e in db.events && p in db.players && !KeyTaken(db.ledger, (Checkin, p, e)))
          ==> answer.Ok? && answer.value.NewCheckin?)
  {
    InsertOne(db.players, db.ledger, CheckinAward(e, p), None, Some(e));
  }

  lemma UndoMovesBalances(w: World, e: EventId, q: PlayerId, p: PlayerId)
    requires WorldOk(w)
    ensures Balance(RemoveCheckin(w.db, e, q).0.ledger, p) ==
            Balance(w.db.ledger, p) - if q == p && (e, p) in w.db.checkins then 100 else 0
  {
    var ledger' := RemoveCheckin(w.db, e, q).0.ledger;
    CheckinRowsAre(w, e, q);
    if (e, q) in w.db.checkins {
      OneRowLess(w.db.ledger, CheckinEntry(e, q), p);
      assert ledger' == w.db.ledger - {CheckinEntry(e, q)} by {
        assert ledger' == w.db.ledger - CheckinRows(w.db, e, q);
      }
    } else {
      assert ledger' == w.db.ledger - CheckinRows(w.db, e, q);
      assert ledger' == w.db.ledger;
    }
  }

  lemma CheckinRowsAre(w: World, e: EventId, p: PlayerId)
    requires WorldOk(w)
    ensures CheckinRows(w.db, e, p) == if (e, p) in w.db.checkins then {CheckinEntry(e, p)} else {}
  {
    forall x | x in CheckinRows(w.db, e, p) ensures x == CheckinEntry(e, p) && (e, p) in w.db.checkins {
      assert EntryOk(w, x);
    }
    assert (e, p) in w.db.checkins ==> CheckinEntry(e, p) in CheckinRows(w.db, e, p);
  }

  lemma EventMovesBalances(w: World, e: EventId, p: PlayerId)
    requires WorldOk(w)
    ensures Balance(DeleteEvent(w.db, e).ledger, p) ==
            Balance(w.db.ledger, p) - if (e, p) in w.db.checkins then 100 else 0
  {
    var ledger' := DeleteEvent(w.db, e).ledger;
    CheckinRowsAre(w, e, p);
    forall x | x in RowsOf(w.db.ledger, p) ensures x.event == Some(e) <==> x in CheckinRows(w.db, e, p) {
      assert EntryOk(w, x);
    }
    assert RowsOf(ledger', p) == RowsOf(w.db.ledger, p) - CheckinRows(w.db, e, p);
    if (e, p) in w.db.checkins {
      SumWithout(RowsOf(w.db.ledger, p), CheckinEntry(e, p));
    } else {
      assert RowsOf(ledger', p) == RowsOf(w.db.ledger, p);
    }
  }

  lemma TourMovesBalances(db: Db, t: TournamentId, p: PlayerId)
    ensures Balance(DeleteTour(db, t).ledger, p) ==
            Balance(db.ledger, p) - Sum(set x | x in db.ledger && x.player == p && x.tournament == Some(t))
  {
    var gone := set x | x in db.ledger && x.player == p && x.tournament == Some(t);
    RowsGone(RowsOf(db.ledger, p), gone);
    assert RowsOf(DeleteTour(db, t).ledger, p) == RowsOf(db.ledger, p) - gone;
  }

  lemma AccountMovesBalances(db: Db, q: PlayerId, p: PlayerId)
    ensures Balance(DeletePlayer(db, q).ledger, p) == if q == p then 0 else Balance(db.ledger, p)
  {
    if q == p {
      assert RowsOf(DeletePlayer(db, q).ledger, p) == {};
    } else {
      assert RowsOf(DeletePlayer(db, q).ledger, p) == RowsOf(db.ledger, p);
    }
  }

  lemma AdjustMovesBalances(w: World, id: int, q: PlayerId, amount: int, p: PlayerId)
    requires WorldOk(w)
    ensures Balance(Next(w, Adjust(id, q, amount)).db.ledger, p) ==
            Balance(w.db.ledger, p) + PaidBy(w, Adjust(id, q, amount), p)
  {
    if id !in w.issued {
      NewIdIsANewKey(w, id, q);
      AdjustmentMovesOneBalance(w.db, id, q, amount, p);
      assert Next(w, Adjust(id, q, amount)).db == AddAdjustment(w.db, id, q, amount).0;
    }
  }

  lemma NewIdIsANewKey(w: World, id: int, p: PlayerId)
    requires LedgerOk(w) && id !in w.issued
    ensures forall x :: x in w.db.ledger ==> !(x.kind == Adjustment && x.player == p && x.source == id)
  {
    forall x | x in w.db.ledger ensures !(x.kind == Adjustment && x.player == p && x.source == id) {
      assert EntryOk(w, x);
    }
  }

  lemma QuietStepKeepsLedger(w: World, action: Action)
    requires action.Begin? || action.ReadTour? || action.ReadEntrants? || action.ReadMatches? || action.CreateTour?
             || action.SignUp? || action.CreateEvent? || action.SetEventStatus? || action.Scan? || action.ManualCheckin?
    ensures Next(w, action).db.ledger == w.db.ledger
  {
  }

  /** Every cycle is accounted for: over any step of any run, the balance of any
      player moves by what the step pays less what it takes. */
  lemma EveryCycleIsAccountedFor(w: World, action: Action, p: PlayerId)
    requires WorldOk(w)
    ensures Balance(Next(w, action).db.ledger, p) ==
            Balance(w.db.ledger, p) + PaidBy(w, action, p) - TakenBy(w, action, p)
  {
    if action.Commit? {
      if action.rid in w.requests && Ready(w.requests[action.rid])
         && FairChance(w, w.requests[action.rid], action.chance) {
        CommitMovesBalances(w, action, p);
      }
    } else if action.RecordCheckin? {
      if action.rid in w.scans {
        CheckinMovesBalances(w, action, p);
      }
    } else if action.UndoCheckin? {
      UndoStepMovesBalances(w, action.e, action.p, p);
    } else if action.RemoveEvent? {
      EventMovesBalances(w, action.e, p);
    } else if action.RemoveTour? {
      TourMovesBalances(w.db, action.t, p);
    } else if action.RemovePlayer? {
      AccountMovesBalances(w.db, action.p, p);
    } else if action.Adjust? {
      AdjustMovesBalances(w, action.id, action.p, action.amount, p);
    } else {
      QuietStepKeepsLedger(w, action);
    }
  }

  lemma UndoStepMovesBalances(w: World, e: EventId, q: PlayerId, p: PlayerId)
    requires WorldOk(w)
    ensures Balance(Next(w, UndoCheckin(e, q)).db.ledger, p) ==
            Balance(w.db.ledger, p) - if q == p && (e, p) in w.db.checkins then 100 else 0
  {
    if e in w.db.events {
      UndoMovesBalances(w, e, q, p);
    } else {
      assert (e, p) !in w.db.checkins by {
        assert CheckinsOk(w);
      }
    }
  }

  ghost function PaidOver(actions: seq<Action>, p: PlayerId): int {
    if actions == [] then 0
    else
      var before, last := actions[..|actions| - 1], actions[|actions| - 1];
      PaidOver(before, p) + PaidBy(Play(START, before), last, p)
  }

  ghost function TakenOver(actions: seq<Action>, p: PlayerId): int {
    if actions == [] then 0
    else
      var before, last := actions[..|actions| - 1], actions[|actions| - 1];
      TakenOver(before, p) + TakenBy(Play(START, before), last, p)
  }

  /** After any run a balance is all that was paid less all that was taken. */
  lemma {:induction false} BalancesAddUp(actions: seq<Action>, p: PlayerId)
    ensures Balance(Play(START, actions).db.ledger, p) == PaidOver(actions, p) - TakenOver(actions, p)
    decreases |actions|
  {
    if actions == [] {
      assert RowsOf({}, p) == {};
    } else {
      var before := actions[..|actions| - 1];
      BalancesAddUp(before, p);
      ReachableIsOk(Play(START, before));
      EveryCycleIsAccountedFor(Play(START, before), actions[|actions| - 1], p);
    }
  }
}
