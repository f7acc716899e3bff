/** The invariant of the whole store and of every request in flight. */
module WorldInvariant {
  import opened Basics
  import opened Brackets
  import opened Entrants
  import opened Points
  import opened Seeding
  import opened Tables
  import opened Protocol
  import opened StoreInvariants
  import opened StoreWrites

  ghost predicate ToursOk(w: World) {
    forall t :: t in w.db.tours ==> TourOk(w.owner, t, w.db.tours[t])
  }

  /** A bracket a request holds was once stored, and is comparable with the rows
      stored now. */
  ghost predicate SnapshotOk(owner: map<MatchId, TournamentId>, tours: map<TournamentId, Tour>, t: TournamentId, R: Rounds) {
    && (exists order :: Valid(order, R))
    && SnapshotOwned(owner, t, R)
    && (t in tours ==> Compatible(R, tours[t].matches))
  }

  ghost predicate RequestOk(owner: map<MatchId, TournamentId>, tours: map<TournamentId, Tour>, q: Request) {
    && (q.bracket.Some? && q.bracket.value.Some? ==> SnapshotOk(owner, tours, q.t, q.bracket.value.value))
    && (q.entrants.Some? ==> DistinctField(q.entrants.value) && |q.entrants.value| <= MAX_ENTRANTS)
    && (q.intent.FixSkill? ==> q.intent.guard.status != Concluded)
  }

  ghost predicate RequestsOk(w: World) {
    forall rid :: rid in w.requests ==> RequestOk(w.owner, w.db.tours, w.requests[rid])
  }

  function CheckinEntry(e: EventId, p: PlayerId): Entry {
    Entry(p, CHECKIN_CYCLES, Checkin, e, None, Some(e))
  }

  /** A ledger row points at what paid it, and the rows of a tournament exist
      only once it is concluded. */
  ghost predicate EntryOk(w: World, x: Entry) {
    && x.player in w.db.players
    && (x.tournament.Some? ==>
          x.tournament.value in w.db.tours && w.db.tours[x.tournament.value].status == Concluded)
    && match x.kind
       case Checkin => x == CheckinEntry(x.source, x.player) && (x.source, x.player) in w.db.checkins
       case MatchWin => x.event == None && x.source in w.owner && x.tournament == Some(w.owner[x.source])
       case Adjustment => x.event == None && x.tournament == None && x.source in w.issued
       case _ => x.event == None && x.tournament == Some(x.source)
  }

  ghost predicate UniqueKeys(ledger: set<Entry>) {
    forall x, y :: x in ledger && y in ledger && x.Key() == y.Key() ==> x == y
  }

  ghost predicate LedgerOk(w: World) {
    UniqueKeys(w.db.ledger) && forall x :: x in w.db.ledger ==> EntryOk(w, x)
  }

  ghost predicate CheckinsOk(w: World) {
    forall e, p :: (e, p) in w.db.checkins ==>
      e in w.db.events && p in w.db.players && CheckinEntry(e, p) in w.db.ledger
  }

  ghost predicate IdsOk(w: World) {
    && (forall id :: id in w.owner ==> id in w.issued)
    && (forall t :: t in w.db.tours ==> t in w.issued && EntriesIssued(w.issued, w.db.tours[t]))
  }

  ghost predicate EntriesIssued(issued: set<int>, tour: Tour) {
    forall e :: e in tour.entrants ==> e in issued
  }

  /** A tournament is in the record of conclusions one time, from the moment it
      is concluded. */
  ghost predicate ConclusionsOk(w: World) {
    && NoDup(w.conclusions)
    && (forall t :: t in w.conclusions ==> t in w.issued)
    && (forall t :: t in w.db.tours ==> (w.db.tours[t].status == Concluded <==> t in w.conclusions))
  }

  ghost predicate WorldOk(w: World) {
    && ToursOk(w) && RequestsOk(w) && LedgerOk(w) && CheckinsOk(w) && IdsOk(w) && ConclusionsOk(w)
  }

  // ---------- requests come and go ----------

  lemma FewerRequestsOk(w: World, requests: map<int, Request>)
    requires WorldOk(w)
    requires forall rid :: rid in requests ==> RequestOk(w.owner, w.db.tours, requests[rid])
    ensures WorldOk(w.(requests := requests))
  {
    var w' := w.(requests := requests);
    assert ToursOk(w') && RequestsOk(w') && CheckinsOk(w') && IdsOk(w') && ConclusionsOk(w');
    assert forall x :: x in w.db.ledger ==> EntryOk(w, x) ==> EntryOk(w', x);
  }

  lemma ScansDoNotMatter(w: World, scans: map<int, (EventId, PlayerId)>)
    requires WorldOk(w)
    ensures WorldOk(w.(scans := scans))
  {
    var w' := w.(scans := scans);
    assert ToursOk(w') && RequestsOk(w') && CheckinsOk(w') && IdsOk(w') && ConclusionsOk(w');
    assert forall x :: x in w.db.ledger ==> EntryOk(w, x) ==> EntryOk(w', x);
  }

  // ---------- one tournament changes ----------

  /** The world after a write to one tournament. */
  function WithTour(w: World, t: TournamentId, tour: Tour, owner: map<MatchId, TournamentId>, issued: set<int>): World {
    w.(db := w.db.(tours := w.db.tours[t := tour]), owner := owner, issued := issued)
  }

  ghost predicate Extends(w: World, owner: map<MatchId, TournamentId>, issued: set<int>) {
    && (forall id :: id in w.owner ==> id in owner && owner[id] == w.owner[id])
    && (forall id :: id in owner ==> id in w.owner || id !in w.issued)
    && (forall id :: id in owner ==> id in issued)
    && w.issued <= issued
  }

  lemma OtherToursStay(w: World, t: TournamentId, tour: Tour, owner: map<MatchId, TournamentId>, issued: set<int>)
    requires ToursOk(w) && Extends(w, owner, issued) && TourOk(owner, t, tour)
    ensures ToursOk(WithTour(w, t, tour, owner, issued))
  {
    forall u | u in w.db.tours && u != t ensures TourOk(owner, u, w.db.tours[u]) {
      assert TourOk(w.owner, u, w.db.tours[u]);
    }
  }

  lemma SnapshotsStay(w: World, t: TournamentId, tour: Tour, owner: map<MatchId, TournamentId>, issued: set<int>)
    requires RequestsOk(w) && Extends(w, owner, issued)
    requires t in w.db.tours && Evolves(w.owner, w.db.tours[t].matches, tour.matches)
    ensures RequestsOk(WithTour(w, t, tour, owner, issued))
  {
    var w' := WithTour(w, t, tour, owner, issued);
    forall rid | rid in w.requests ensures RequestOk(owner, w'.db.tours, w.requests[rid]) {
      var q := w.requests[rid];
      assert RequestOk(w.owner, w.db.tours, q);
      if q.bracket.Some? && q.bracket.value.Some? {
        var R := q.bracket.value.value;
        if q.t == t {
          EvolvingKeepsCompatible(w.owner, t, R, w.db.tours[t].matches, tour.matches);
        }
        assert SnapshotOwned(owner, q.t, R);
      }
    }
  }

  lemma LedgerStays(w: World, t: TournamentId, tour: Tour, owner: map<MatchId, TournamentId>, issued: set<int>)
    requires LedgerOk(w) && CheckinsOk(w) && Extends(w, owner, issued)
    requires t in w.db.tours ==> tour.status == w.db.tours[t].status
    ensures LedgerOk(WithTour(w, t, tour, owner, issued)) && CheckinsOk(WithTour(w, t, tour, owner, issued))
  {
    var w' := WithTour(w, t, tour, owner, issued);
    forall x | x in w'.db.ledger ensures EntryOk(w', x) {
      assert EntryOk(w, x);
    }
  }

  /** A write that keeps its tournament keeps the world. */
  lemma TourWriteKeepsWorld(w: World, t: TournamentId, tour: Tour, owner: map<MatchId, TournamentId>, issued: set<int>)
    requires WorldOk(w) && Extends(w, owner, issued) && t in w.db.tours
    requires Kept(w.owner, owner, t, w.db.tours[t], tour) && EntriesIssued(issued, tour)
    ensures WorldOk(WithTour(w, t, tour, owner, issued))
  {
    OtherToursStay(w, t, tour, owner, issued);
    SnapshotsStay(w, t, tour, owner, issued);
    LedgerStays(w, t, tour, owner, issued);
    var w' := WithTour(w, t, tour, owner, issued);
    assert IdsOk(w') by {
      assert forall u :: u in w.db.tours && u != t ==> EntriesIssued(w.issued, w.db.tours[u]);
    }
    assert ConclusionsOk(w');
  }

  // ---------- a decision is sound ----------

  /** The sort-and-compare of a given order accepts exactly the permutations of
      the entrants. */
  lemma SortAndCompare(expected: seq<EntrantId>, given: seq<EntrantId>)
    ensures SortBy(expected, IdKey) == SortBy(given, IdKey) <==> multiset(expected) == multiset(given)
  {
    if multiset(expected) == multiset(given) {
      SortedIdsAreUnique(SortBy(expected, IdKey), SortBy(given, IdKey));
    }
  }

  lemma SortedTail(xs: seq<EntrantId>)
    requires xs != [] && SortedBy(xs, IdKey)
    ensures SortedBy(xs[1..], IdKey)
  {
    forall i, j | 0 <= i < j < |xs[1..]| ensures IdKey(xs[1..][i]) <= IdKey(xs[1..][j]) {
      assert IdKey(xs[i + 1]) <= IdKey(xs[j + 1]);
    }
  }

  lemma SortedHead(xs: seq<EntrantId>, ys: seq<EntrantId>)
    requires multiset(xs) == multiset(ys) && SortedBy(xs, IdKey) && xs != [] && ys != []
    ensures IdKey(xs[0]) <= IdKey(ys[0])
  {
    assert ys[0] in multiset(xs);
    var j :| 0 <= j < |xs| && xs[j] == ys[0];
    assert j > 0 ==> IdKey(xs[0]) <= IdKey(xs[j]);
  }

  lemma {:induction false} SortedIdsAreUnique(xs: seq<EntrantId>, ys: seq<EntrantId>)
    requires multiset(xs) == multiset(ys) && SortedBy(xs, IdKey) && SortedBy(ys, IdKey)
    ensures xs == ys
  {
    assert |multiset(xs)| == |xs| && |multiset(ys)| == |ys|;
    if xs != [] {
      SortedHead(xs, ys);
      SortedHead(ys, xs);
      assert xs == [xs[0]] + xs[1..] && ys == [ys[0]] + ys[1..];
      assert multiset(xs[1..]) == multiset(xs) - multiset{xs[0]};
      assert multiset(ys[1..]) == multiset(ys) - multiset{ys[0]};
      SortedTail(xs);
      SortedTail(ys);
      SortedIdsAreUnique(xs[1..], ys[1..]);
    }
  }

  /** Where the order of a rebuild comes from. */
  lemma OrderOfPlan(q: Request, chance: Chance)
    requires Ready(q) && Plan(q, chance).Ok? && Plan(q, chance).value.WriteBracket?
    ensures q.entrants.Some? && q.view.Some? && q.bracket.Some?
    ensures q.view.value.status == Live
    ensures Plan(q, chance).value.expected == Live && Plan(q, chance).value.ids == chance.ids
    ensures 2 <= |Plan(q, chance).value.order| <= MAX_ENTRANTS
    ensures || (q.intent.GenerateBracket? && Plan(q, chance).value.order == Ids(DrawOrder(chance.shuffled)))
            || (q.intent.ReorderSeeds? && Plan(q, chance).value.order == q.intent.order
                && SortBy(Ids(q.entrants.value), IdKey) == SortBy(q.intent.order, IdKey))
  {
  }

  lemma DrawnIds(list: seq<Entrant>, shuffled: seq<Entrant>)
    requires multiset(shuffled) == multiset(list)
    ensures multiset(Ids(DrawOrder(shuffled))) == multiset(Ids(list))
  {
    IdsPermute(DrawOrder(shuffled), list);
  }

  /** A rebuild names exactly the entrants that were read, each one time. */
  lemma BuiltOrderIsThePermutation(w: World, q: Request, chance: Chance)
    requires Ready(q) && FairChance(w, q, chance) && q.entrants.Some? && DistinctField(q.entrants.value)
    requires Plan(q, chance).Ok? && Plan(q, chance).value.WriteBracket?
    ensures multiset(Plan(q, chance).value.order) == multiset(Ids(q.entrants.value))
    ensures NoDup(Plan(q, chance).value.order)
  {
    var order := Plan(q, chance).value.order;
    OrderOfPlan(q, chance);
    assert multiset(order) == multiset(Ids(q.entrants.value)) by {
      if q.intent.GenerateBracket? {
        DrawnIds(q.entrants.value, chance.shuffled);
      } else {
        SortAndCompare(Ids(q.entrants.value), q.intent.order);
      }
    }
    PermutationKeepsNoDup(Ids(q.entrants.value), order);
  }

  /** Whatever a request read and however long ago, the write it decides on is
      sound against the tournament as it is now. */
  lemma DecisionIsSound(w: World, rid: int, chance: Chance)
    requires WorldOk(w) && rid in w.requests && Ready(w.requests[rid])
    requires FairChance(w, w.requests[rid], chance) && w.requests[rid].t in w.db.tours
    requires Plan(w.requests[rid], chance).Ok?
    ensures Sound(w.owner, w.db.tours[w.requests[rid].t], Plan(w.requests[rid], chance).value)
  {
    var q := w.requests[rid];
    var write := Plan(q, chance).value;
    assert RequestOk(w.owner, w.db.tours, q);
    if write.WriteBracket? {
      OrderOfPlan(q, chance);
      BuiltOrderIsThePermutation(w, q, chance);
    } else if write.WriteEntrant? {
      assert EntriesIssued(w.issued, w.db.tours[q.t]);
    }
  }
}
