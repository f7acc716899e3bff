/** Single elimination brackets: the data, the rules as functions of the data,
    and what it means for nested rounds to be a bracket of a seed order. */
module Brackets {
  import opened Basics

  const MAX_ENTRANTS: nat := 256

  // Identifiers are uuids, and a uuid is only ever compared.
  type EntrantId = int
  type MatchId = int

  /** Rows count rounds from one and slots from zero. `None` on a side says that
      nobody is there: for good in round one, for now in any other. */
  datatype Match = Match(
    id: MatchId,
    round: nat,
    slot: nat,
    a: Option<EntrantId>,
    b: Option<EntrantId>,
    winner: Option<EntrantId>)
  {
    predicate IsReady() {
      a.Some? && b.Some?
    }

    predicate IsPlayed() {
      IsReady() && winner.Some?
    }

    /** The side an even (a) or odd (b) slot of the round before feeds. */
    function Side(slot: nat): Option<EntrantId> {
      if slot % 2 == 0 then a else b
    }

    function WithSide(slot: nat, entrant: Option<EntrantId>): Match {
      if slot % 2 == 0 then this.(a := entrant) else this.(b := entrant)
    }
  }

  /** The matches nested by round, so `R[r][s]` has round number r + 1 and slot s. */
  type Rounds = seq<seq<Match>>

  datatype BracketError =
    | TooFewEntrants(count: nat)
    | TooManyEntrants(count: nat)
    | UnknownMatch(id: MatchId)
    | NotReady(id: MatchId)
    | NotAParticipant(entrant: EntrantId, id: MatchId)
    | NextDecided(id: MatchId)
    | Malformed

  // ---------- reading ----------

  predicate At(R: Rounds, r: int, s: int) {
    0 <= r < |R| && 0 <= s < |R[r]|
  }

  function PositionOf(ms: seq<Match>, id: MatchId): (p: Option<nat>)
    ensures p.Some? ==> p.value < |ms| && ms[p.value].id == id
    ensures p.None? ==> forall i :: 0 <= i < |ms| ==> ms[i].id != id
  {
    if ms == [] then None
    else if ms[0].id == id then Some(0)
    else
      var rest := PositionOf(ms[1..], id);
      if rest.Some? then Some(rest.value + 1) else None
  }

  function LocateFrom(R: Rounds, id: MatchId, r: nat): (p: Option<(nat, nat)>)
    ensures p.Some? ==> At(R, p.value.0, p.value.1) && R[p.value.0][p.value.1].id == id
    ensures p.None? ==> forall i, j :: r <= i && At(R, i, j) ==> R[i][j].id != id
    decreases |R| - r
  {
    if r >= |R| then None
    else
      var here := PositionOf(R[r], id);
      if here.Some? then Some((r, here.value)) else LocateFrom(R, id, r + 1)
  }

  /** The position of the first match with the id, round by round. */
  function Locate(R: Rounds, id: MatchId): Option<(nat, nat)> {
    LocateFrom(R, id, 0)
  }

  predicate NextIsDecided(R: Rounds, r: nat, s: nat) {
    At(R, r + 1, s / 2) && R[r + 1][s / 2].winner.Some?
  }

  function ChampionOf(R: Rounds): Option<EntrantId> {
    if |R| > 0 && |R[|R| - 1]| > 0 then R[|R| - 1][0].winner else None
  }

  predicate HasResults(R: Rounds) {
    exists r, s :: 0 <= r < |R| && 0 <= s < |R[r]| && R[r][s].IsPlayed()
  }

  /** Every match, round by round and slot by slot. */
  function Flat(R: Rounds): seq<Match> {
    if R == [] then [] else R[0] + Flat(R[1..])
  }

  // ---------- writing ----------

  /** Puts `entrant` where the winner of match (r, s) goes: side a or b of match
      (r + 1, s / 2), by the parity of s. Without such a match, nothing changes. */
  function Feed(R: Rounds, r: nat, s: nat, entrant: Option<EntrantId>): Rounds {
    if At(R, r + 1, s / 2) then
      R[r + 1 := R[r + 1][s / 2 := R[r + 1][s / 2].WithSide(s, entrant)]]
    else R
  }

  function SetWinner(R: Rounds, r: nat, s: nat, winner: Option<EntrantId>): Rounds
    requires At(R, r, s)
  {
    Feed(R[r := R[r][s := R[r][s].(winner := winner)]], r, s, winner)
  }

  function ChangedMatches(R: Rounds, r: nat, s: nat): seq<Match> {
    (if At(R, r, s) then [R[r][s]] else []) +
    (if At(R, r + 1, s / 2) then [R[r + 1][s / 2]] else [])
  }

  /** The bracket after a write, and the matches the write changed. */
  datatype Edit = Edit(rounds: Rounds, changed: seq<Match>)

  function Reported(R: Rounds, id: MatchId, winner: EntrantId): Result<Edit, BracketError> {
    match Locate(R, id)
    case None => Err(UnknownMatch(id))
    case Some((r, s)) =>
      if !R[r][s].IsReady() then Err(NotReady(id))
      else if R[r][s].a != Some(winner) && R[r][s].b != Some(winner) then
        Err(NotAParticipant(winner, id))
      else if NextIsDecided(R, r, s) then Err(NextDecided(id))
      else
        var after := SetWinner(R, r, s, Some(winner));
        Ok(Edit(after, ChangedMatches(after, r, s)))
  }

  function Cleared(R: Rounds, id: MatchId): Result<Edit, BracketError> {
    match Locate(R, id)
    case None => Err(UnknownMatch(id))
    case Some((r, s)) =>
      if !R[r][s].IsReady() then Err(NotReady(id))
      else if R[r][s].winner.None? then Ok(Edit(R, []))
      else if NextIsDecided(R, r, s) then Err(NextDecided(id))
      else
        var after := SetWinner(R, r, s, None);
        Ok(Edit(after, ChangedMatches(after, r, s)))
  }

  // ---------- what a bracket is ----------

  /** Sizes 2^(k-1), ..., 2, 1. */
  ghost predicate Halving(R: Rounds) {
    && |R| > 0
    && |R[|R| - 1]| == 1
    && forall r :: 0 < r < |R| ==> |R[r - 1]| == 2 * |R[r]|
  }

  /** A whole bracket by shape: rounds 1 to k, slots 0 to len - 1. */
  ghost predicate Grid(R: Rounds) {
    && Halving(R)
    && forall r, s :: At(R, r, s) ==> R[r][s].round == r + 1 && R[r][s].slot == s
  }

  ghost predicate DistinctIds(R: Rounds) {
    forall r, s, r', s' ::
      At(R, r, s) && At(R, r', s') && R[r][s].id == R[r'][s'].id ==> r == r' && s == s'
  }

  /** Who sits in round one: the first `byes` slots hold one entrant each, and
      the rest hold neighbours in seed order. */
  function SeatA(order: seq<EntrantId>, half: nat, s: nat): Option<EntrantId>
    requires half < |order| <= 2 * half && s < half
  {
    var byes := 2 * half - |order|;
    if s < byes then Some(order[s]) else Some(order[2 * s - byes])
  }

  function SeatB(order: seq<EntrantId>, half: nat, s: nat): Option<EntrantId>
    requires half < |order| <= 2 * half && s < half
  {
    var byes := 2 * half - |order|;
    if s < byes then None else Some(order[2 * s - byes + 1])
  }

  ghost predicate Seated(order: seq<EntrantId>, R: Rounds)
    requires |R| > 0
  {
    && NoDup(order)
    && |order| <= MAX_ENTRANTS
    && |R[0]| < |order| <= 2 * |R[0]|
    && forall s :: 0 <= s < |R[0]| ==>
         R[0][s].a == SeatA(order, |R[0]|, s) && R[0][s].b == SeatB(order, |R[0]|, s)
  }

  /** One match on its own: the winner is one of its sides, a bye holds its
      winner, and a later match is decided only between two known sides. */
  ghost predicate Settled(m: Match) {
    && (m.winner == None || m.winner == m.a || m.winner == m.b)
    && (m.round == 1 && m.b == None ==> m.winner == m.a)
    && (m.round > 1 && m.winner.Some? ==> m.IsReady())
  }

  /** The match this slot feeds shows its winner on the side it feeds. */
  ghost predicate Fed(R: Rounds, r: nat, s: nat)
    requires At(R, r, s)
  {
    At(R, r + 1, s / 2) ==> R[r + 1][s / 2].Side(s) == R[r][s].winner
  }

  /** `R` is a bracket of the seed order `order`, with any results entered. */
  ghost predicate Valid(order: seq<EntrantId>, R: Rounds) {
    && Grid(R)
    && DistinctIds(R)
    && Seated(order, R)
    && (forall r, s :: At(R, r, s) ==> Settled(R[r][s]))
    && (forall r, s {:trigger Fed(R, r, s)} :: At(R, r, s) ==> Fed(R, r, s))
  }

  // ---------- the bracket without a result ----------

  /** A supply of match ids, one per position of the bracket of a field of n:
      `MatchId::generate` never gives one id twice. */
  ghost predicate Supply(ids: (nat, nat) -> MatchId, n: nat) {
    forall r: nat, s: nat, r': nat, s': nat ::
      InShape(n, r, s) && InShape(n, r', s') && ids(r, s) == ids(r', s') ==> r == r' && s == s'
  }

  predicate InShape(n: nat, r: nat, s: nat) {
    r < Log2Ceil(n) && s < Pow2(Log2Ceil(n) - 1 - r)
  }

  /** The entrant a round-one match hands on before anything is played. */
  function ByeWinner(order: seq<EntrantId>, half: nat, s: nat): Option<EntrantId>
    requires half < |order| <= 2 * half && s < half
  {
    if SeatB(order, half, s) == None then SeatA(order, half, s) else None
  }

  function BlankMatch(order: seq<EntrantId>, ids: (nat, nat) -> MatchId, r: nat, s: nat): Match
    requires |order| >= 2 && InShape(|order|, r, s)
  {
    var k := Log2Ceil(|order|);
    var half := Pow2(k - 1);
    if r == 0 then
      Match(ids(0, s), 1, s, SeatA(order, half, s), SeatB(order, half, s), ByeWinner(order, half, s))
    else if r == 1 then
      Match(ids(1, s), 2, s, ByeWinner(order, half, 2 * s), ByeWinner(order, half, 2 * s + 1), None)
    else
      Match(ids(r, s), r + 1, s, None, None, None)
  }

  function BlankRound(order: seq<EntrantId>, ids: (nat, nat) -> MatchId, r: nat): (ms: seq<Match>)
    requires |order| >= 2 && r < Log2Ceil(|order|)
    ensures |ms| == Pow2(Log2Ceil(|order|) - 1 - r)
    ensures forall s :: 0 <= s < |ms| ==> ms[s] == BlankMatch(order, ids, r, s)
  {
    var size := Pow2(Log2Ceil(|order|) - 1 - r);
    seq(size, s requires 0 <= s < size => BlankMatch(order, ids, r, s))
  }

  /** The bracket of a seed order before anything is played. */
  function Blank(order: seq<EntrantId>, ids: (nat, nat) -> MatchId): (R: Rounds)
    requires |order| >= 2
    ensures |R| == Log2Ceil(|order|)
    ensures forall r :: 0 <= r < |R| ==> R[r] == BlankRound(order, ids, r)
  {
    var k := Log2Ceil(|order|);
    seq(k, r requires 0 <= r < k => BlankRound(order, ids, r))
  }
}
