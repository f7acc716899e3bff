/** When a scan and a manual check-in go in, from the first look at the event to
    the row in the ledger. */
module Door {
  import opened Basics
  import opened Entrants
  import opened Points
  import opened Tables
  import opened Protocol
  import opened WorldInvariant
  import opened WorldSteps
  import opened RequestRuns

  /** The store with one more check-in and the 100 cycles it pays. */
  function WithCheckin(db: Db, e: EventId, p: PlayerId, at: int): Db {
    db.(checkins := db.checkins[(e, p) := at],
        ledger := db.ledger + {Entry(p, 100, Checkin, e, None, Some(e))})
  }

  lemma CheckInIs(w: World, e: EventId, p: PlayerId, at: int)
    requires WorldOk(w)
    ensures CheckIn(w.db, e, p, at).0 ==
            if e in w.db.events && p in w.db.players && (e, p) !in w.db.checkins then WithCheckin(w.db, e, p, at)
            else w.db
  {
    CheckInOutcome(w, e, p, at);
    InsertOne(w.db.players, w.db.ledger, CheckinAward(e, p), None, Some(e));
    if (e, p) !in w.db.checkins {
      forall x | x in w.db.ledger ensures x.Key() != CheckinEntry(e, p).Key() {
        assert EntryOk(w, x);
      }
    }
  }

  /** A scan goes in exactly when the event is published, the time is from its
      start on and before its end, the account exists and it is the first one. */
  lemma ScanAlone(w: World, rid: int, e: EventId, p: PlayerId, now: int, at: int)
    requires WorldOk(w) && rid !in w.scans
    ensures Play(w, [Scan(rid, e, p, now), RecordCheckin(rid, at)]).db ==
            if e in w.db.events && w.db.events[e].published
               && w.db.events[e].startsAt <= now && now < w.db.events[e].endsAt
               && p in w.db.players && (e, p) !in w.db.checkins then
              WithCheckin(w.db, e, p, at)
            else w.db
  {
    DoorRun(w, Scan(rid, e, p, now), RecordCheckin(rid, at));
    CheckInIs(w, e, p, at);
  }

  /** A manual check-in asks neither for a published event nor for the time. */
  lemma ManualAlone(w: World, rid: int, e: EventId, p: PlayerId, at: int)
    requires WorldOk(w) && rid !in w.scans
    ensures Play(w, [ManualCheckin(rid, e, p), RecordCheckin(rid, at)]).db ==
            if e in w.db.events && p in w.db.players && (e, p) !in w.db.checkins then WithCheckin(w.db, e, p, at)
            else w.db
  {
    DoorRun(w, ManualCheckin(rid, e, p), RecordCheckin(rid, at));
    CheckInIs(w, e, p, at);
  }

  lemma DoorRun(w: World, first: Action, second: Action)
    ensures Play(w, [first, second]) == Next(Next(w, first), second)
  {
    OneMoreStep(w, [], first);
    OneMoreStep(w, [first], second);
    assert [] + [first] == [first] && [first] + [second] == [first, second];
  }

  /** Publishing opens the door and taking it back closes it. Nothing else about
      the event changes. */
  lemma PublishingIsStored(w: World, e: EventId, published: bool)
    ensures Next(w, SetEventStatus(e, published)).db ==
            if e in w.db.events then
              w.db.(events := w.db.events[e := EventRow(published, w.db.events[e].startsAt, w.db.events[e].endsAt)])
            else w.db
  {
  }
}
