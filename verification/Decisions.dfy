/** The decision table of the service: for every request and everything it may
    have read, the write it asks for or the error it answers. */
module Decisions {
  import opened Basics
  import opened Brackets
  import opened BracketRules
  import opened Entrants
  import opened Points
  import opened Seeding
  import opened Tables
  import opened Protocol
  import opened WorldInvariant

  // ---------- moves ----------

  /** The moves that take nothing but the status: forward from draft and from
      open, and from live back to open as long as no bracket was seen. */
  ghost predicate PlainMove(from: Status, to: Status, hasBracket: bool) {
    || (from == Draft && to == Open)
    || (from == Draft && to == Live)
    || (from == Open && to == Live)
    || (from == Live && to == Open && !hasBracket)
  }

  /** For every status read, every status asked for and every winner named. */
  lemma MoveDecision(q: Request, chance: Chance)
    requires q.intent.ChangeStatus? && Ready(q)
    ensures var from, to, named := q.view.value.status, q.intent.to, q.intent.winner;
      var plain := PlainMove(from, to, q.view.value.hasBracket);
      var ends := to == Concluded && from != Concluded;
      && (Plan(q, chance) == Ok(NoWrite) <==> from == to && named == None)
      && (plain && named == None ==> Plan(q, chance) == Ok(WriteStatus(from, to, None, [])))
      && (plain && named != None ==> Plan(q, chance) == Err(UnexpectedWinner))
      && (!plain && !ends && !(from == to && named == None) ==> Plan(q, chance) == Err(InvalidTransition))
      && (ends && q.bracket.value.Some? && named != None ==> Plan(q, chance) == Err(UnexpectedWinner))
      && (ends && q.bracket.value.Some? && named == None ==>
            Plan(q, chance) == EndWithBracket(from, q.t, q.entrants.value, q.bracket.value.value))
      && (ends && q.bracket.value.None? ==>
            Plan(q, chance) == EndWithoutBracket(from, q.t, q.entrants.value, named))
  {
    if q.intent.to == Concluded && q.intent.winner.Some? {
      IdIsListed(q.entrants.value, q.intent.winner.value);
    }
  }

  lemma IdIsListed(list: seq<Entrant>, e: EntrantId)
    ensures e in Ids(list) <==> exists i :: 0 <= i < |list| && list[i].id == e
  {
    if e in Ids(list) {
      var i :| 0 <= i < |Ids(list)| && Ids(list)[i] == e;
      assert list[i].id == e;
    }
    if i :| 0 <= i < |list| && list[i].id == e {
      assert Ids(list)[i] == e;
    }
  }

  /** The winner of the last match of the last round, if it has one. */
  ghost function EndWithBracket(from: Status, t: TournamentId, list: seq<Entrant>, R: Rounds): Result<Write, ServiceError> {
    if |R| == 0 || |R[|R| - 1]| == 0 || R[|R| - 1][0].winner == None then Err(BracketIncomplete)
    else Ok(WriteStatus(from, Concluded, R[|R| - 1][0].winner, TournamentAwards(t, list, Some(R), None)))
  }

  ghost function EndWithoutBracket(
      from: Status, t: TournamentId, list: seq<Entrant>, named: Option<EntrantId>): Result<Write, ServiceError> {
    if named.Some? && forall i :: 0 <= i < |list| ==> list[i].id != named.value then Err(NotAnEntrant(named.value))
    else Ok(WriteStatus(from, Concluded, named, TournamentAwards(t, list, None, named)))
  }

  // ---------- entries ----------

  /** A player's own request needs an open tournament and a time before the
      deadline. A draft does not show at all. */
  lemma PlayersDecision(q: Request, chance: Chance)
    requires (q.intent.Register? || q.intent.Retire?) && Ready(q)
    ensures var view, now := q.view.value, q.intent.now;
      && (view.status == Draft ==> Plan(q, chance) == Err(TournamentNotFound))
      && (view.status != Draft && !(view.status == Open && now < view.closesAt) ==>
            Plan(q, chance) == Err(RegistrationClosed))
      && (view.status == Open && now < view.closesAt ==>
            Plan(q, chance) == Ok(
              if q.intent.Register? then
                WriteEntrant(chance.id, q.intent.player, Some(q.intent.skill), EntrantGuard(Open, Some(now)))
              else WriteRetirement(q.intent.player, EntrantGuard(Open, Some(now)))))
  {
  }

  /** An organiser's request needs a tournament that is not concluded, and for the
      entrants one without a bracket. */
  lemma OrganisersDecision(q: Request, chance: Chance)
    requires Ready(q)
    requires q.intent.EnrolPlayer? || q.intent.RemoveEntry? || q.intent.EditFields? || q.intent.RemoveBracket?
    ensures var status, free := q.view.value.status, !q.view.value.hasBracket;
      var onEntrants := q.intent.EnrolPlayer? || q.intent.RemoveEntry?;
      && (status == Concluded ==> Plan(q, chance) == Err(TournamentConcluded))
      && (status != Concluded && onEntrants && !free ==> Plan(q, chance) == Err(BracketExists))
      && (status != Concluded && (onEntrants ==> free) ==>
            Plan(q, chance) == Ok(
              match q.intent
              case EnrolPlayer(player, level) => WriteEntrant(chance.id, player, level, EntrantGuard(status, None))
              case RemoveEntry(entrant) => WriteRemoval(entrant, EntrantGuard(status, None))
              case EditFields(closesAt) => WriteFields(status, closesAt)
              case _ => WriteNoBracket(status)))
  {
  }

  // ---------- brackets ----------

  /** A match of the snapshot that somebody has won against somebody. */
  ghost predicate ReadAResult(bracket: Option<Rounds>) {
    bracket.Some? && exists r, s :: At(bracket.value, r, s) && bracket.value[r][s].IsReady()
                                    && bracket.value[r][s].winner.Some?
  }

  lemma ResultsAreMatches(R: Rounds)
    ensures HasResults(R) <==> ReadAResult(Some(R))
  {
    if HasResults(R) {
      var r, s :| 0 <= r < |R| && 0 <= s < |R[r]| && R[r][s].IsPlayed();
      assert At(R, r, s);
    }
  }

  /** What stops a draw and a reordering alike. */
  ghost function NotEditable(q: Request): Option<ServiceError>
    requires q.view.Some? && q.bracket.Some?
  {
    if q.view.value.status == Concluded then Some(TournamentConcluded)
    else if q.view.value.status != Live then Some(NotLive)
    else if ReadAResult(q.bracket.value) then Some(BracketLocked)
    else None
  }

  /** The size of the field decides the rest. */
  ghost function Sized(n: nat, write: Write): Result<Write, ServiceError> {
    if n < 2 then Err(BadBracket(TooFewEntrants(n)))
    else if n > 256 then Err(BadBracket(TooManyEntrants(n)))
    else Ok(write)
  }

  lemma EditableIs(q: Request)
    requires q.view.Some? && q.bracket.Some?
    ensures RequireBracketEditable(q.view.value, q.bracket.value) == NotEditable(q)
  {
    if q.bracket.value.Some? {
      ResultsAreMatches(q.bracket.value.value);
    }
  }

  lemma DrawDecision(q: Request, chance: Chance)
    requires q.intent.GenerateBracket? && Ready(q)
    ensures NotEditable(q).Some? ==> Plan(q, chance) == Err(NotEditable(q).value)
    ensures NotEditable(q).None? ==>
              Plan(q, chance) ==
              Sized(|chance.shuffled|, WriteBracket(Live, Ids(DrawOrder(chance.shuffled)), chance.ids))
  {
    EditableIs(q);
    var draw := DrawOrder(chance.shuffled);
    assert |multiset(draw)| == |draw| && |multiset(chance.shuffled)| == |chance.shuffled|;
  }

  /** The decision with the comparison of the sorted lists left in. */
  lemma ReorderBySorting(q: Request, chance: Chance)
    requires q.intent.ReorderSeeds? && Ready(q)
    ensures NotEditable(q).Some? ==> Plan(q, chance) == Err(NotEditable(q).value)
    ensures NotEditable(q).None? ==>
              Plan(q, chance) ==
              if !q.view.value.hasBracket then Err(BracketMissing)
              else if SortBy(Ids(q.entrants.value), IdKey) != SortBy(q.intent.order, IdKey) then Err(SeedOrderMismatch)
              else Sized(|q.intent.order|, WriteBracket(Live, q.intent.order, chance.ids))
  {
    EditableIs(q);
  }

  /** A reordering takes every permutation of the entrants read, and no other list. */
  lemma ReorderDecision(q: Request, chance: Chance)
    requires q.intent.ReorderSeeds? && Ready(q)
    ensures NotEditable(q).Some? ==> Plan(q, chance) == Err(NotEditable(q).value)
    ensures NotEditable(q).None? ==>
              Plan(q, chance) ==
              if !q.view.value.hasBracket then Err(BracketMissing)
              else if multiset(q.intent.order) != multiset(Ids(q.entrants.value)) then Err(SeedOrderMismatch)
              else Sized(|q.intent.order|, WriteBracket(Live, q.intent.order, chance.ids))
  {
    ReorderBySorting(q, chance);
    SortAndCompare(Ids(q.entrants.value), q.intent.order);
  }

  lemma ResultDecision(q: Request, chance: Chance)
    requires q.intent.EnterResult? && Ready(q)
    ensures var status, op := q.view.value.status, q.intent.op;
      && (status == Concluded ==> Plan(q, chance) == Err(TournamentConcluded))
      && (status != Concluded && q.bracket.value.None? ==> Plan(q, chance) == Err(MatchNotFound(op.id)))
      && (status != Concluded && q.bracket.value.Some? ==>
            match Apply(q.bracket.value.value, op)
            case Err(error) => Plan(q, chance) == Err(BadBracket(error))
            case Ok(_) => Plan(q, chance) == Ok(WriteResult(status, q.bracket.value.value, op)))
  {
  }
}
