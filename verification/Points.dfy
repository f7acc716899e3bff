/** The payments of a tournament, and what the bracket rules make of them: no
    payment is made twice, the total depends on the size of the field alone, and
    the champion earns the most. */
module Points {
  import opened Basics
  import opened Brackets
  import opened Elimination
  import opened BracketRuns
  import opened Entrants

  const CHECKIN_CYCLES := 100
  const ENTRY_CYCLES := 40
  const MATCH_WIN_CYCLES := 30

  datatype FieldTier = Small | Medium | Large

  datatype PointKind =
    | Checkin | TournamentEntry | MatchWin | Champion | Finalist | Semifinalist | Adjustment

  /** What paid: an event, a tournament, a match or the row itself, by its uuid. */
  type SourceRef = int

  datatype Award = Award(player: PlayerId, amount: int, kind: PointKind, source: SourceRef)
  {
    /** The unique index of the ledger. */
    function Key(): (PointKind, PlayerId, SourceRef) {
      (kind, player, source)
    }
  }

  function MinEntrants(tier: FieldTier): nat {
    match tier
    case Small => 2
    case Medium => 8
    case Large => 16
  }

  /** The largest tier whose smallest field is no larger than `count`. */
  function TierOf(count: nat): FieldTier {
    if count >= MinEntrants(Large) then Large
    else if count >= MinEntrants(Medium) then Medium
    else Small
  }

  function Cycles(kind: PointKind, tier: FieldTier): Option<int> {
    match (kind, tier)
    case (Checkin, _) => Some(CHECKIN_CYCLES)
    case (TournamentEntry, _) => Some(ENTRY_CYCLES)
    case (MatchWin, _) => Some(MATCH_WIN_CYCLES)
    case (Champion, Small) => Some(120)
    case (Champion, Medium) => Some(200)
    case (Champion, Large) => Some(300)
    case (Finalist, Small) => Some(70)
    case (Finalist, Medium) => Some(120)
    case (Finalist, Large) => Some(180)
    case (Semifinalist, Small) => Some(40)
    case (Semifinalist, Medium) => Some(60)
    case (Semifinalist, Large) => Some(90)
    case (Adjustment, _) => None
  }

  /** The fixed amount of a kind, and nothing for an adjustment. */
  function AmountOf(kind: PointKind, tier: FieldTier): int {
    match Cycles(kind, tier)
    case Some(amount) => amount
    case None => 0
  }

  function LoserOf(m: Match): Option<EntrantId> {
    if m.a.Some? && m.b.Some? && m.winner.Some? then
      if m.winner == m.a then m.b else if m.winner == m.b then m.a else None
    else None
  }

  // ---------- the awards ----------

  /** An award before the entrant is resolved to an account. */
  datatype Claim = Claim(entrant: EntrantId, kind: PointKind, amount: int, source: SourceRef)

  /** An entrant without an account is paid nothing. */
  function Pay(entrants: seq<Entrant>, claims: seq<Claim>): seq<Award> {
    if claims == [] then []
    else
      var c := claims[0];
      (match PlayerOf(entrants, c.entrant)
       case Some(p) => [Award(p, c.amount, c.kind, c.source)]
       case None => []) + Pay(entrants, claims[1..])
  }

  function EntryAwards(entrants: seq<Entrant>, t: TournamentId): seq<Award> {
    if entrants == [] then []
    else
      (match entrants[0].player
       case Some(p) => [Award(p, ENTRY_CYCLES, TournamentEntry, t)]
       case None => []) + EntryAwards(entrants[1..], t)
  }

  /** One claim per match that was played, by whoever won it. */
  function WinClaims(ms: seq<Match>): seq<Claim> {
    if ms == [] then []
    else
      (if ms[0].IsPlayed() then
         [Claim(ms[0].winner.value, MatchWin, MATCH_WIN_CYCLES, ms[0].id)]
       else []) + WinClaims(ms[1..])
  }

  function Placement(e: Option<EntrantId>, kind: PointKind, tier: FieldTier, t: TournamentId): seq<Claim> {
    match (e, Cycles(kind, tier))
    case (Some(e), Some(amount)) => [Claim(e, kind, amount, t)]
    case _ => []
  }

  function SemifinalClaims(ms: seq<Match>, tier: FieldTier, t: TournamentId): seq<Claim> {
    if ms == [] then []
    else
      (if ms[0].IsPlayed() then Placement(LoserOf(ms[0]), Semifinalist, tier, t) else []) +
      SemifinalClaims(ms[1..], tier, t)
  }

  function PlacementClaims(R: Rounds, tier: FieldTier, t: TournamentId): seq<Claim> {
    var last := if |R| > 0 && |R[|R| - 1]| > 0 then Some(R[|R| - 1][0]) else None;
    var champion := if last.Some? then last.value.winner else None;
    var finalist := if last.Some? then LoserOf(last.value) else None;
    Placement(champion, Champion, tier, t) +
    Placement(finalist, Finalist, tier, t) +
    (if |R| >= 2 then SemifinalClaims(R[|R| - 2], tier, t) else [])
  }

  function TournamentAwards(
      t: TournamentId, entrants: seq<Entrant>, bracket: Option<Rounds>, winner: Option<EntrantId>): seq<Award>
  {
    var tier := TierOf(|entrants|);
    match bracket
    case None => EntryAwards(entrants, t) + Pay(entrants, Placement(winner, Champion, tier, t))
    case Some(R) =>
      EntryAwards(entrants, t) + Pay(entrants, WinClaims(Flat(R))) + Pay(entrants, PlacementClaims(R, tier, t))
  }

  // ---------- no payment is made twice ----------

  ghost predicate DistinctKeys(awards: seq<Award>) {
    forall i, j :: 0 <= i < j < |awards| ==> awards[i].Key() != awards[j].Key()
  }

  ghost predicate DistinctClaims(claims: seq<Claim>) {
    forall i, j :: 0 <= i < j < |claims| ==>
      !(claims[i].entrant == claims[j].entrant && claims[i].kind == claims[j].kind
        && claims[i].source == claims[j].source)
  }

  /** Every award comes from a claim of the entrant whose account it names. */
  lemma {:induction false} PaidClaim(entrants: seq<Entrant>, claims: seq<Claim>, a: Award) returns (i: nat)
    requires a in Pay(entrants, claims)
    ensures i < |claims| && PlayerOf(entrants, claims[i].entrant) == Some(a.player)
    ensures claims[i].kind == a.kind && claims[i].source == a.source && claims[i].amount == a.amount
  {
    var p := PlayerOf(entrants, claims[0].entrant);
    if p.Some? && a == Award(p.value, claims[0].amount, claims[0].kind, claims[0].source) {
      i := 0;
    } else {
      var j := PaidClaim(entrants, claims[1..], a);
      i := j + 1;
    }
  }

  lemma DistinctAppend(a: seq<Award>, b: seq<Award>)
    requires DistinctKeys(a) && DistinctKeys(b)
    requires forall x, y :: x in a && y in b ==> x.Key() != y.Key()
    ensures DistinctKeys(a + b)
  {
  }

  lemma {:induction false} PayDistinct(entrants: seq<Entrant>, claims: seq<Claim>)
    requires DistinctField(entrants) && DistinctClaims(claims)
    ensures DistinctKeys(Pay(entrants, claims))
  {
    if claims != [] {
      var c, rest := claims[0], Pay(entrants, claims[1..]);
      PayDistinct(entrants, claims[1..]);
      var p := PlayerOf(entrants, c.entrant);
      if p.Some? {
        var head := Award(p.value, c.amount, c.kind, c.source);
        forall x, y | x in [head] && y in rest ensures x.Key() != y.Key() {
          var i := PaidClaim(entrants, claims[1..], y);
          assert claims[i + 1] == claims[1..][i];
          if x.Key() == y.Key() {
            PlayerOfIsInjective(entrants, c.entrant, claims[i + 1].entrant);
          }
        }
        DistinctAppend([head], rest);
      }
    }
  }

  lemma {:induction false} EntriesDistinct(entrants: seq<Entrant>, t: TournamentId)
    requires forall i, j :: 0 <= i < j < |entrants| && entrants[i].player.Some? ==>
               entrants[i].player != entrants[j].player
    ensures DistinctKeys(EntryAwards(entrants, t))
    ensures forall a :: a in EntryAwards(entrants, t) ==>
              a.kind == TournamentEntry && a.source == t && a.amount == ENTRY_CYCLES
              && exists i :: 0 <= i < |entrants| && entrants[i].player == Some(a.player)
  {
    if entrants != [] {
      var rest := EntryAwards(entrants[1..], t);
      EntriesDistinct(entrants[1..], t);
      assert forall i :: 0 <= i < |entrants[1..]| ==> entrants[1..][i] == entrants[i + 1];
      if entrants[0].player.Some? {
        DistinctAppend([Award(entrants[0].player.value, ENTRY_CYCLES, TournamentEntry, t)], rest);
      }
    }
  }

  lemma {:induction false} FlatIdsDistinct(R: Rounds, i: nat, j: nat)
    requires DistinctIds(R) && i < j < |Flat(R)|
    ensures Flat(R)[i].id != Flat(R)[j].id
  {
    forall r, s, r', s' | At(R[1..], r, s) && At(R[1..], r', s') && R[1..][r][s].id == R[1..][r'][s'].id
      ensures r == r' && s == s'
    {
      assert At(R, r + 1, s) && At(R, r' + 1, s');
    }
    if j < |R[0]| {
      assert At(R, 0, i) && At(R, 0, j);
    } else if i < |R[0]| {
      var r, s := MemberOfFlat(R[1..], j - |R[0]|);
      assert At(R, 0, i) && At(R, r + 1, s);
    } else {
      FlatIdsDistinct(R[1..], i - |R[0]|, j - |R[0]|);
    }
  }

  /** Each win claim comes from a played match. */
  lemma {:induction false} WinOfAMatch(ms: seq<Match>, c: Claim) returns (i: nat)
    requires c in WinClaims(ms)
    ensures i < |ms| && ms[i].IsPlayed() && ms[i].id == c.source && ms[i].winner == Some(c.entrant)
    ensures c.kind == MatchWin && c.amount == MATCH_WIN_CYCLES
  {
    if ms[0].IsPlayed() && c == Claim(ms[0].winner.value, MatchWin, MATCH_WIN_CYCLES, ms[0].id) {
      i := 0;
    } else {
      var j := WinOfAMatch(ms[1..], c);
      i := j + 1;
    }
  }

  lemma DistinctClaimsCons(c: Claim, claims: seq<Claim>)
    requires DistinctClaims(claims) && forall d :: d in claims ==> d.source != c.source
    ensures DistinctClaims([c] + claims)
  {
  }

  lemma {:induction false} WinClaimsDistinct(ms: seq<Match>)
    requires forall i, j :: 0 <= i < j < |ms| ==> ms[i].id != ms[j].id
    ensures DistinctClaims(WinClaims(ms))
  {
    if ms != [] {
      var rest := WinClaims(ms[1..]);
      WinClaimsDistinct(ms[1..]);
      if ms[0].IsPlayed() {
        forall d | d in rest ensures d.source != ms[0].id {
          var i := WinOfAMatch(ms[1..], d);
          assert ms[1..][i] == ms[i + 1];
        }
        DistinctClaimsCons(Claim(ms[0].winner.value, MatchWin, MATCH_WIN_CYCLES, ms[0].id), rest);
      } else {
        assert WinClaims(ms) == rest;
      }
    }
  }

  /** The last round but one has two matches, and these two have
      different losers. */
  lemma SemifinalIsTwo(order: seq<EntrantId>, R: Rounds)
    requires Valid(order, R) && |R| >= 2
    ensures R[|R| - 2] == [R[|R| - 2][0], R[|R| - 2][1]]
    ensures var x, y := LoserOf(R[|R| - 2][0]), LoserOf(R[|R| - 2][1]);
      x.Some? && y.Some? ==> x != y
  {
    var r := |R| - 2;
    assert |R[|R| - 1 - 1]| == 2 * |R[|R| - 1]|;
    var x, y := LoserOf(R[r][0]), LoserOf(R[r][1]);
    if x.Some? && x == y {
      OneMatchPerRound(order, R, r, 0, 1, x.value);
    }
  }

  lemma SemifinalClaimsOfTwo(m: Match, n: Match, tier: FieldTier, t: TournamentId)
    ensures SemifinalClaims([m, n], tier, t) ==
            Placement(LoserOf(m), Semifinalist, tier, t) + Placement(LoserOf(n), Semifinalist, tier, t)
  {
    assert [m, n][1..] == [n] && [n][1..] == [];
    assert SemifinalClaims([], tier, t) == [];
  }

  /** The placements one by one: champion, finalist and two semifinalists. */
  lemma PlacementsOf(order: seq<EntrantId>, R: Rounds, tier: FieldTier, t: TournamentId)
    requires Valid(order, R)
    ensures PlacementClaims(R, tier, t) ==
            Placement(ChampionOf(R), Champion, tier, t) +
            Placement(LoserOf(R[|R| - 1][0]), Finalist, tier, t) +
            (if |R| >= 2 then Placement(LoserOf(R[|R| - 2][0]), Semifinalist, tier, t) +
                              Placement(LoserOf(R[|R| - 2][1]), Semifinalist, tier, t) else [])
  {
    if |R| >= 2 {
      SemifinalIsTwo(order, R);
      SemifinalClaimsOfTwo(R[|R| - 2][0], R[|R| - 2][1], tier, t);
    }
  }

  lemma PlacementsDistinct(order: seq<EntrantId>, R: Rounds, tier: FieldTier, t: TournamentId)
    requires Valid(order, R)
    ensures DistinctClaims(PlacementClaims(R, tier, t))
    ensures forall c :: c in PlacementClaims(R, tier, t) ==>
              c.kind in {Champion, Finalist, Semifinalist} && c.source == t && c.amount > 0
  {
    PlacementsOf(order, R, tier, t);
    var champion, finalist := Placement(ChampionOf(R), Champion, tier, t), Placement(LoserOf(R[|R| - 1][0]), Finalist, tier, t);
    FitsPlace(ChampionOf(R), Champion, tier, t);
    FitsPlace(LoserOf(R[|R| - 1][0]), Finalist, tier, t);
    if |R| >= 2 {
      SemifinalIsTwo(order, R);
      var a, b := R[|R| - 2][0], R[|R| - 2][1];
      FitsPlace(LoserOf(a), Semifinalist, tier, t);
      FitsPlace(LoserOf(b), Semifinalist, tier, t);
      PlacesApart(champion, finalist, Placement(LoserOf(a), Semifinalist, tier, t), Placement(LoserOf(b), Semifinalist, tier, t), t);
      assert PlacementClaims(R, tier, t) == champion + finalist +
             Placement(LoserOf(a), Semifinalist, tier, t) + Placement(LoserOf(b), Semifinalist, tier, t);
    } else {
      PlacesApart(champion, finalist, [], [], t);
      assert PlacementClaims(R, tier, t) == champion + finalist + [] + [];
    }
  }

  /** At most one claim, of the given kind on the given tournament. */
  ghost predicate IsPlace(claims: seq<Claim>, kind: PointKind, t: TournamentId) {
    |claims| <= 1 && forall c :: c in claims ==> c.kind == kind && c.source == t && c.amount > 0
  }

  lemma FitsPlace(e: Option<EntrantId>, kind: PointKind, tier: FieldTier, t: TournamentId)
    requires kind in {Champion, Finalist, Semifinalist}
    ensures IsPlace(Placement(e, kind, tier, t), kind, t)
    ensures forall c :: c in Placement(e, kind, tier, t) ==> e == Some(c.entrant)
  {
  }

  lemma PlacesApart(champion: seq<Claim>, finalist: seq<Claim>, a: seq<Claim>, b: seq<Claim>, t: TournamentId)
    requires IsPlace(champion, Champion, t) && IsPlace(finalist, Finalist, t)
    requires IsPlace(a, Semifinalist, t) && IsPlace(b, Semifinalist, t)
    requires forall c, d :: c in a && d in b ==> c.entrant != d.entrant
    ensures DistinctClaims(champion + finalist + a + b)
    ensures forall c :: c in champion + finalist + a + b ==>
              c.kind in {Champion, Finalist, Semifinalist} && c.source == t && c.amount > 0
  {
    var claims := champion + finalist + a + b;
    forall i, j | 0 <= i < j < |claims| ensures claims[i].kind != claims[j].kind || claims[i].entrant != claims[j].entrant {
      if i < |champion| {
        assert claims[i] == champion[i];
        assert claims[j] in finalist + a + b;
      } else if i < |champion| + |finalist| {
        assert claims[i] == finalist[i - |champion|];
        assert claims[j] in a + b;
      } else {
        assert claims[i] in a && claims[j] in b;
      }
    }
  }

  /** No two awards of a bracket share a kind, a player and a source, whatever
      is decided in it, so the unique index never refuses a conclusion. */
  lemma AwardsHaveDistinctKeys(t: TournamentId, entrants: seq<Entrant>, order: seq<EntrantId>, R: Rounds)
    requires Valid(order, R) && DistinctField(entrants)
    ensures DistinctKeys(TournamentAwards(t, entrants, Some(R), None))
  {
    var tier := TierOf(|entrants|);
    var entries := EntryAwards(entrants, t);
    var wins := Pay(entrants, WinClaims(Flat(R)));
    var places := Pay(entrants, PlacementClaims(R, tier, t));
    EntriesDistinct(entrants, t);
    forall i, j | 0 <= i < j < |Flat(R)| ensures Flat(R)[i].id != Flat(R)[j].id {
      FlatIdsDistinct(R, i, j);
    }
    WinClaimsDistinct(Flat(R));
    PayDistinct(entrants, WinClaims(Flat(R)));
    PlacementsDistinct(order, R, tier, t);
    PayDistinct(entrants, PlacementClaims(R, tier, t));
    forall a | a in wins ensures a.kind == MatchWin {
      var i := PaidClaim(entrants, WinClaims(Flat(R)), a);
      var k := WinOfAMatch(Flat(R), WinClaims(Flat(R))[i]);
    }
    forall a | a in places ensures a.kind in {Champion, Finalist, Semifinalist} {
      var i := PaidClaim(entrants, PlacementClaims(R, tier, t), a);
      assert PlacementClaims(R, tier, t)[i] in PlacementClaims(R, tier, t);
    }
    DistinctAppend(entries, wins);
    DistinctAppend(entries + wins, places);
  }

  // ---------- conservation ----------

  function Total(awards: seq<Award>): int {
    if awards == [] then 0 else awards[0].amount + Total(awards[1..])
  }

  function ClaimTotal(claims: seq<Claim>): int {
    if claims == [] then 0 else claims[0].amount + ClaimTotal(claims[1..])
  }

  lemma {:induction false} TotalAppend(a: seq<Award>, b: seq<Award>)
    ensures Total(a + b) == Total(a) + Total(b)
  {
    if a == [] {
      assert a + b == b;
    } else {
      assert (a + b)[1..] == a[1..] + b;
      TotalAppend(a[1..], b);
    }
  }

  lemma {:induction false} ClaimTotalAppend(a: seq<Claim>, b: seq<Claim>)
    ensures ClaimTotal(a + b) == ClaimTotal(a) + ClaimTotal(b)
  {
    if a == [] {
      assert a + b == b;
    } else {
      assert (a + b)[1..] == a[1..] + b;
      ClaimTotalAppend(a[1..], b);
    }
  }

  /** The field of the bracket is the list of entrants, each with an account. */
  ghost predicate EveryoneHasAnAccount(order: seq<EntrantId>, entrants: seq<Entrant>) {
    && DistinctField(entrants)
    && multiset(order) == multiset(Ids(entrants))
    && forall i :: 0 <= i < |entrants| ==> entrants[i].player.Some?
  }

  lemma AccountOf(order: seq<EntrantId>, entrants: seq<Entrant>, e: EntrantId)
    requires EveryoneHasAnAccount(order, entrants) && e in order
    ensures PlayerOf(entrants, e).Some?
    ensures exists i :: 0 <= i < |entrants| && entrants[i].id == e
  {
    assert e in multiset(order) && e in multiset(Ids(entrants));
    var i :| 0 <= i < |entrants| && Ids(entrants)[i] == e;
    PlayerOfEntry(entrants, i);
  }

  lemma {:induction false} EveryClaimIsPaid(entrants: seq<Entrant>, claims: seq<Claim>)
    requires forall c :: c in claims ==> PlayerOf(entrants, c.entrant).Some?
    ensures Total(Pay(entrants, claims)) == ClaimTotal(claims)
  {
    if claims != [] {
      EveryClaimIsPaid(entrants, claims[1..]);
      var c, rest := claims[0], Pay(entrants, claims[1..]);
      assert c in claims;
      var head := Award(PlayerOf(entrants, c.entrant).value, c.amount, c.kind, c.source);
      assert ([head] + rest)[1..] == rest;
    }
  }

  lemma {:induction false} EntriesTotal(entrants: seq<Entrant>, t: TournamentId)
    requires forall i :: 0 <= i < |entrants| ==> entrants[i].player.Some?
    ensures Total(EntryAwards(entrants, t)) == ENTRY_CYCLES * |entrants|
  {
    if entrants != [] {
      EntriesTotal(entrants[1..], t);
      var head := Award(entrants[0].player.value, ENTRY_CYCLES, TournamentEntry, t);
      assert ([head] + EntryAwards(entrants[1..], t))[1..] == EntryAwards(entrants[1..], t);
    }
  }

  lemma {:induction false} WinsTotal(ms: seq<Match>)
    ensures ClaimTotal(WinClaims(ms)) == MATCH_WIN_CYCLES * Count(ms, IsPlayedMatch)
  {
    if ms != [] {
      WinsTotal(ms[1..]);
      if ms[0].IsPlayed() {
        var head := Claim(ms[0].winner.value, MatchWin, MATCH_WIN_CYCLES, ms[0].id);
        assert ([head] + WinClaims(ms[1..]))[1..] == WinClaims(ms[1..]);
      } else {
        assert WinClaims(ms) == WinClaims(ms[1..]);
      }
    }
  }

  /** The losers that reach the semifinal round of a finished bracket. */
  function SemifinalLosers(n: nat): nat {
    if n == 2 then 0 else if n == 3 then 1 else 2
  }

  lemma LoserExists(order: seq<EntrantId>, R: Rounds, r: nat, s: nat)
    requires Valid(order, R) && At(R, r, s) && R[r][s].IsPlayed()
    ensures LoserOf(R[r][s]).Some? && LoserOf(R[r][s]) != R[r][s].winner
    ensures LosesAt(R, r, s, LoserOf(R[r][s]).value)
  {
    assert Settled(R[r][s]);
    SidesDiffer(order, R, r, s);
  }

  lemma FinalIsPlayed(order: seq<EntrantId>, R: Rounds)
    requires Valid(order, R) && ChampionOf(R).Some?
    ensures R[|R| - 1][0].IsPlayed()
  {
    if |R| > 1 {
      DecidedFromBelow(order, R, |R| - 1, 0);
    } else {
      assert R[0][0].b == SeatB(order, |R[0]|, 0);
    }
  }

  /** Only a field of three has a bye in its semifinal. */
  lemma SemifinalsPlayed(order: seq<EntrantId>, R: Rounds)
    requires Valid(order, R) && ChampionOf(R).Some? && |R| >= 2
    ensures |order| >= 3
    ensures R[|R| - 2][1].IsPlayed()
    ensures R[|R| - 2][0].IsPlayed() <==> |order| > 3
    ensures !R[|R| - 2][0].IsPlayed() ==> LoserOf(R[|R| - 2][0]).None?
  {
    var r := |R| - 2;
    SemifinalIsTwo(order, R);
    ChampionDecidesAll(order, R, r, 0);
    ChampionDecidesAll(order, R, r, 1);
    if r > 0 {
      DecidedFromBelow(order, R, r, 0);
      DecidedFromBelow(order, R, r, 1);
      HalvingSizes(R, 0);
      Pow2Monotone(2, |R| - 1);
      assert Pow2(2) == 4;
    } else {
      assert R[0][0].b == SeatB(order, 2, 0) && R[0][1].b == SeatB(order, 2, 1);
      assert R[0][0].a == SeatA(order, 2, 0) && R[0][1].a == SeatA(order, 2, 1);
    }
  }

  lemma PlacementTotal(e: Option<EntrantId>, kind: PointKind, tier: FieldTier, t: TournamentId)
    requires Cycles(kind, tier).Some?
    ensures ClaimTotal(Placement(e, kind, tier, t)) == if e.Some? then AmountOf(kind, tier) else 0
  {
    if e.Some? {
      assert Placement(e, kind, tier, t)[1..] == [];
    }
  }

  lemma PlacementsTotal(order: seq<EntrantId>, R: Rounds, tier: FieldTier, t: TournamentId)
    requires Valid(order, R) && ChampionOf(R).Some?
    ensures ClaimTotal(PlacementClaims(R, tier, t)) ==
            AmountOf(Champion, tier) + AmountOf(Finalist, tier)
            + SemifinalLosers(|order|) * AmountOf(Semifinalist, tier)
  {
    PlacementsOf(order, R, tier, t);
    var last := R[|R| - 1][0];
    var c := Placement(ChampionOf(R), Champion, tier, t);
    var f := Placement(LoserOf(last), Finalist, tier, t);
    FinalIsPlayed(order, R);
    LoserExists(order, R, |R| - 1, 0);
    PlacementTotal(ChampionOf(R), Champion, tier, t);
    PlacementTotal(LoserOf(last), Finalist, tier, t);
    ClaimTotalAppend(c, f);
    if |R| >= 2 {
      SemifinalsPlayed(order, R);
      var x := Placement(LoserOf(R[|R| - 2][0]), Semifinalist, tier, t);
      var y := Placement(LoserOf(R[|R| - 2][1]), Semifinalist, tier, t);
      LoserExists(order, R, |R| - 2, 1);
      if R[|R| - 2][0].IsPlayed() {
        LoserExists(order, R, |R| - 2, 0);
      }
      PlacementTotal(LoserOf(R[|R| - 2][0]), Semifinalist, tier, t);
      PlacementTotal(LoserOf(R[|R| - 2][1]), Semifinalist, tier, t);
      ClaimTotalAppend(x, y);
      ClaimTotalAppend(c + f, x + y);
    } else {
      assert c + f + [] == c + f;
      assert |order| == 2;
    }
  }

  lemma WinnersAreInTheField(order: seq<EntrantId>, R: Rounds, c: Claim)
    requires Valid(order, R) && c in WinClaims(Flat(R))
    ensures c.entrant in order
  {
    var i := WinOfAMatch(Flat(R), c);
    var r, s := MemberOfFlat(R, i);
    WinnerSitsAbove(order, R, r, s, c.entrant);
    SitsUnderHome(order, R, r, s, c.entrant);
  }

  lemma LosersAreInTheField(order: seq<EntrantId>, R: Rounds, r: nat, s: nat)
    requires Valid(order, R) && At(R, r, s) && LoserOf(R[r][s]).Some?
    ensures LoserOf(R[r][s]).value in order
  {
    SitsUnderHome(order, R, r, s, LoserOf(R[r][s]).value);
  }

  lemma PlacedAreInTheField(order: seq<EntrantId>, R: Rounds, tier: FieldTier, t: TournamentId, c: Claim)
    requires Valid(order, R) && c in PlacementClaims(R, tier, t)
    ensures c.entrant in order
  {
    PlacementsOf(order, R, tier, t);
    var last := |R| - 1;
    if ChampionOf(R) == Some(c.entrant) {
      WinnerSitsAbove(order, R, last, 0, c.entrant);
      SitsUnderHome(order, R, last, 0, c.entrant);
    } else if LoserOf(R[last][0]) == Some(c.entrant) {
      LosersAreInTheField(order, R, last, 0);
    } else {
      SemifinalIsTwo(order, R);
      var s := if LoserOf(R[last - 1][0]) == Some(c.entrant) then 0 else 1;
      LosersAreInTheField(order, R, last - 1, s);
    }
  }

  /** What a finished field of n pays in all. */
  function FieldTotal(n: nat): int {
    var s := SemifinalLosers(n);
    40 * n + 30 * (n - 1) +
    (if n < 8 then 120 + 70 + 40 * s
     else if n < 16 then 200 + 120 + 60 * s
     else 300 + 180 + 90 * s)
  }

  lemma FieldTotalInTiers(n: nat)
    ensures FieldTotal(n) ==
            ENTRY_CYCLES * n + MATCH_WIN_CYCLES * (n - 1)
            + AmountOf(Champion, TierOf(n)) + AmountOf(Finalist, TierOf(n))
            + SemifinalLosers(n) * AmountOf(Semifinalist, TierOf(n))
  {
  }

  lemma PartsTotal(t: TournamentId, entrants: seq<Entrant>, R: Rounds)
    ensures Total(TournamentAwards(t, entrants, Some(R), None)) ==
            Total(EntryAwards(entrants, t)) + Total(Pay(entrants, WinClaims(Flat(R))))
            + Total(Pay(entrants, PlacementClaims(R, TierOf(|entrants|), t)))
  {
    var entries, wins := EntryAwards(entrants, t), Pay(entrants, WinClaims(Flat(R)));
    TotalAppend(entries, wins);
    TotalAppend(entries + wins, Pay(entrants, PlacementClaims(R, TierOf(|entrants|), t)));
  }

  lemma WinsAndPlacesArePaid(t: TournamentId, entrants: seq<Entrant>, order: seq<EntrantId>, R: Rounds)
    requires Valid(order, R) && EveryoneHasAnAccount(order, entrants)
    ensures Total(Pay(entrants, WinClaims(Flat(R)))) == ClaimTotal(WinClaims(Flat(R)))
    ensures var claims := PlacementClaims(R, TierOf(|entrants|), t);
      Total(Pay(entrants, claims)) == ClaimTotal(claims)
  {
    var wins, places := WinClaims(Flat(R)), PlacementClaims(R, TierOf(|entrants|), t);
    forall c | c in wins || c in places ensures PlayerOf(entrants, c.entrant).Some? {
      if c in wins {
        WinnersAreInTheField(order, R, c);
      } else {
        PlacedAreInTheField(order, R, TierOf(|entrants|), t, c);
      }
      AccountOf(order, entrants, c.entrant);
    }
    EveryClaimIsPaid(entrants, wins);
    EveryClaimIsPaid(entrants, places);
  }

  /** A finished bracket of n entrants with accounts pays an amount that depends
      on n alone, whoever wins and however the byes fall. */
  lemma FinishedBracketPaysAFixedTotal(t: TournamentId, entrants: seq<Entrant>, order: seq<EntrantId>, R: Rounds)
    requires Valid(order, R) && ChampionOf(R).Some? && EveryoneHasAnAccount(order, entrants)
    ensures Total(TournamentAwards(t, entrants, Some(R), None)) == FieldTotal(|order|)
  {
    assert |entrants| == |order| by {
      assert |multiset(order)| == |order| && |multiset(Ids(entrants))| == |entrants|;
    }
    PartsTotal(t, entrants, R);
    EntriesTotal(entrants, t);
    WinsAndPlacesArePaid(t, entrants, order, R);
    WinsTotal(Flat(R));
    assert Count(Flat(R), IsPlayedMatch) == |order| - 1 by {
      OpenPlusPlayed(order, R);
      ChampionMeansNoneOpen(order, R);
    }
    PlacementsTotal(order, R, TierOf(|entrants|), t);
    FieldTotalInTiers(|order|);
  }

  // ---------- the champion earns the most ----------

  function Earned(awards: seq<Award>, p: PlayerId): int {
    if awards == [] then 0
    else (if awards[0].player == p then awards[0].amount else 0) + Earned(awards[1..], p)
  }

  function ClaimedBy(claims: seq<Claim>, e: EntrantId): int {
    if claims == [] then 0
    else (if claims[0].entrant == e then claims[0].amount else 0) + ClaimedBy(claims[1..], e)
  }

  lemma {:induction false} EarnedAppend(a: seq<Award>, b: seq<Award>, p: PlayerId)
    ensures Earned(a + b, p) == Earned(a, p) + Earned(b, p)
  {
    if a == [] {
      assert a + b == b;
    } else {
      assert (a + b)[1..] == a[1..] + b;
      EarnedAppend(a[1..], b, p);
    }
  }

  lemma {:induction false} ClaimedAppend(a: seq<Claim>, b: seq<Claim>, e: EntrantId)
    ensures ClaimedBy(a + b, e) == ClaimedBy(a, e) + ClaimedBy(b, e)
  {
    if a == [] {
      assert a + b == b;
    } else {
      assert (a + b)[1..] == a[1..] + b;
      ClaimedAppend(a[1..], b, e);
    }
  }

  lemma {:induction false} EarnedIsClaimed(entrants: seq<Entrant>, claims: seq<Claim>, e: EntrantId)
    requires DistinctField(entrants) && PlayerOf(entrants, e).Some?
    ensures Earned(Pay(entrants, claims), PlayerOf(entrants, e).value) == ClaimedBy(claims, e)
  {
    if claims != [] {
      EarnedIsClaimed(entrants, claims[1..], e);
      var c, rest := claims[0], Pay(entrants, claims[1..]);
      var p := PlayerOf(entrants, c.entrant);
      if p.Some? {
        assert ([Award(p.value, c.amount, c.kind, c.source)] + rest)[1..] == rest;
        if p == PlayerOf(entrants, e) {
          PlayerOfIsInjective(entrants, c.entrant, e);
        }
      } else {
        assert Pay(entrants, claims) == rest;
      }
    }
  }

  lemma {:induction false} EntryEarned(entrants: seq<Entrant>, t: TournamentId, p: PlayerId)
    requires forall i, j :: 0 <= i < j < |entrants| && entrants[i].player.Some? ==>
               entrants[i].player != entrants[j].player
    ensures Earned(EntryAwards(entrants, t), p) ==
            if exists i :: 0 <= i < |entrants| && entrants[i].player == Some(p) then ENTRY_CYCLES else 0
  {
    if entrants != [] {
      EntryEarned(entrants[1..], t, p);
      var rest := EntryAwards(entrants[1..], t);
      assert forall i :: 0 <= i < |entrants[1..]| ==> entrants[1..][i] == entrants[i + 1];
      if entrants[0].player.Some? {
        assert ([Award(entrants[0].player.value, ENTRY_CYCLES, TournamentEntry, t)] + rest)[1..] == rest;
      } else {
        assert EntryAwards(entrants, t) == rest;
      }
      if i :| 0 <= i < |entrants| && entrants[i].player == Some(p) {
        assert i > 0 ==> entrants[1..][i - 1].player == Some(p);
      }
    }
  }

  function WonBy(e: EntrantId): Match -> bool {
    (m: Match) => m.IsPlayed() && m.winner == Some(e)
  }

  lemma {:induction false} WinsClaimed(ms: seq<Match>, e: EntrantId)
    ensures ClaimedBy(WinClaims(ms), e) == MATCH_WIN_CYCLES * Count(ms, WonBy(e))
  {
    if ms != [] {
      WinsClaimed(ms[1..], e);
      if ms[0].IsPlayed() {
        var head := Claim(ms[0].winner.value, MatchWin, MATCH_WIN_CYCLES, ms[0].id);
        assert ([head] + WinClaims(ms[1..]))[1..] == WinClaims(ms[1..]);
      } else {
        assert WinClaims(ms) == WinClaims(ms[1..]);
      }
    }
  }

  lemma {:induction false} CountAtMostOne(ms: seq<Match>, p: Match -> bool, j: int)
    requires forall i :: 0 <= i < |ms| && p(ms[i]) ==> i == j
    ensures Count(ms, p) <= 1
  {
    if ms != [] {
      if p(ms[0]) {
        CountNone(ms[1..], p);
      } else {
        CountAtMostOne(ms[1..], p, j - 1);
      }
    }
  }

  /** In one round a later loser wins at most one match, and none from the round
      of the loss on. */
  lemma LoserWinsInRound(order: seq<EntrantId>, R: Rounds, e: EntrantId, lost: nat, s: nat, r: nat)
    requires Valid(order, R) && LosesAt(R, lost, s, e) && r < |R|
    ensures Count(R[r], WonBy(e)) <= if r < lost then 1 else 0
  {
    SitsUnderHome(order, R, lost, s, e);
    var home := Ancestor(Home(order, |R[0]|, e), r);
    forall i | 0 <= i < |R[r]| && WonBy(e)(R[r][i]) ensures i == home && r < lost {
      WinnerSitsAbove(order, R, r, i, e);
      SitsUnderHome(order, R, r, i, e);
      LoserIsOut(order, R, lost, s, r, i, e);
    }
    if r < lost {
      CountAtMostOne(R[r], WonBy(e), home);
    } else {
      CountNone(R[r], WonBy(e));
    }
  }

  /** Whoever loses in round `lost` has won at most the rounds before it. */
  lemma {:induction false} LoserWins(order: seq<EntrantId>, R: Rounds, e: EntrantId, lost: nat, s: nat, from: nat)
    requires Valid(order, R) && LosesAt(R, lost, s, e) && from <= |R|
    ensures Count(Flat(R[from..]), WonBy(e)) <= if from < lost then lost - from else 0
    decreases |R| - from
  {
    if from < |R| {
      assert R[from..][0] == R[from] && R[from..][1..] == R[from + 1..];
      CountFlat(R[from..], WonBy(e));
      LoserWins(order, R, e, lost, s, from + 1);
      LoserWinsInRound(order, R, e, lost, s, from);
    }
  }

  /** The champion has won every round after the first, byes or not. */
  lemma {:induction false} ChampionWins(order: seq<EntrantId>, R: Rounds, c: EntrantId, from: nat)
    requires Valid(order, R) && ChampionOf(R) == Some(c) && 1 <= from <= |R|
    ensures Count(Flat(R[from..]), WonBy(c)) >= |R| - from
    decreases |R| - from
  {
    if from < |R| {
      assert R[from..][0] == R[from] && R[from..][1..] == R[from + 1..];
      CountFlat(R[from..], WonBy(c));
      ChampionWins(order, R, c, from + 1);
      var s := ChampionSlot(order, R, c, from);
      DecidedFromBelow(order, R, from, s);
      CountSome(R[from], s, WonBy(c));
    }
  }

  lemma ChampionSlot(order: seq<EntrantId>, R: Rounds, c: EntrantId, r: nat) returns (s: nat)
    requires Valid(order, R) && ChampionOf(R) == Some(c) && r < |R|
    ensures At(R, r, s) && R[r][s].winner == Some(c)
  {
    WinnerSitsAbove(order, R, |R| - 1, 0, c);
    if r == |R| - 1 {
      s := 0;
    } else {
      WonEveryEarlierRound(order, R, |R| - 1, 0, c, r);
      s := Ancestor(Home(order, |R[0]|, c), r);
    }
  }

  lemma PlacementClaimed(x: Option<EntrantId>, kind: PointKind, tier: FieldTier, t: TournamentId, e: EntrantId)
    requires Cycles(kind, tier).Some?
    ensures ClaimedBy(Placement(x, kind, tier, t), e) == if x == Some(e) then AmountOf(kind, tier) else 0
  {
    if x.Some? {
      assert Placement(x, kind, tier, t)[1..] == [];
    }
  }

  function AmountIf(holds: bool, kind: PointKind, tier: FieldTier): (amount: int)
    ensures amount >= 0
  {
    if holds then AmountOf(kind, tier) else 0
  }

  lemma PlacementsClaimed(order: seq<EntrantId>, R: Rounds, tier: FieldTier, t: TournamentId, e: EntrantId)
    requires Valid(order, R)
    ensures ClaimedBy(PlacementClaims(R, tier, t), e) ==
            AmountIf(ChampionOf(R) == Some(e), Champion, tier)
            + AmountIf(LoserOf(R[|R| - 1][0]) == Some(e), Finalist, tier)
            + (if |R| >= 2 then AmountIf(LoserOf(R[|R| - 2][0]) == Some(e), Semifinalist, tier)
                                + AmountIf(LoserOf(R[|R| - 2][1]) == Some(e), Semifinalist, tier) else 0)
  {
    PlacementsOf(order, R, tier, t);
    var c := Placement(ChampionOf(R), Champion, tier, t);
    var f := Placement(LoserOf(R[|R| - 1][0]), Finalist, tier, t);
    PlacementClaimed(ChampionOf(R), Champion, tier, t, e);
    PlacementClaimed(LoserOf(R[|R| - 1][0]), Finalist, tier, t, e);
    ClaimedAppend(c, f, e);
    if |R| >= 2 {
      var x := Placement(LoserOf(R[|R| - 2][0]), Semifinalist, tier, t);
      var y := Placement(LoserOf(R[|R| - 2][1]), Semifinalist, tier, t);
      PlacementClaimed(LoserOf(R[|R| - 2][0]), Semifinalist, tier, t, e);
      PlacementClaimed(LoserOf(R[|R| - 2][1]), Semifinalist, tier, t, e);
      ClaimedAppend(x, y, e);
      ClaimedAppend(c + f, x + y, e);
    } else {
      assert c + f + [] == c + f;
    }
  }

  /** What a concluded bracket pays the account of one entrant. */
  function Takings(t: TournamentId, entrants: seq<Entrant>, R: Rounds, e: EntrantId): int {
    match PlayerOf(entrants, e)
    case Some(p) => Earned(TournamentAwards(t, entrants, Some(R), None), p)
    case None => 0
  }

  /** The entry, the wins and the placements. */
  lemma TakingsParts(t: TournamentId, entrants: seq<Entrant>, order: seq<EntrantId>, R: Rounds, e: EntrantId)
    requires Valid(order, R) && EveryoneHasAnAccount(order, entrants) && e in order
    ensures Takings(t, entrants, R, e) ==
            ENTRY_CYCLES + MATCH_WIN_CYCLES * Count(Flat(R), WonBy(e))
            + ClaimedBy(PlacementClaims(R, TierOf(|entrants|), t), e)
  {
    AccountOf(order, entrants, e);
    var p := PlayerOf(entrants, e).value;
    var wins, places := WinClaims(Flat(R)), PlacementClaims(R, TierOf(|entrants|), t);
    var entries := EntryAwards(entrants, t);
    EntryEarned(entrants, t, p);
    EarnedIsClaimed(entrants, wins, e);
    EarnedIsClaimed(entrants, places, e);
    WinsClaimed(Flat(R), e);
    EarnedAppend(entries, Pay(entrants, wins), p);
    EarnedAppend(entries + Pay(entrants, wins), Pay(entrants, places), p);
  }

  lemma ChampionsPart(order: seq<EntrantId>, R: Rounds, tier: FieldTier, t: TournamentId, c: EntrantId)
    requires Valid(order, R) && ChampionOf(R) == Some(c)
    ensures c in order
    ensures Count(Flat(R), WonBy(c)) >= |R| - 1
    ensures ClaimedBy(PlacementClaims(R, tier, t), c) >= AmountOf(Champion, tier)
  {
    WinnerSitsAbove(order, R, |R| - 1, 0, c);
    SitsUnderHome(order, R, |R| - 1, 0, c);
    CountFlat(R, WonBy(c));
    ChampionWins(order, R, c, 1);
    ChampionsPlacement(order, R, tier, t, c);
  }

  lemma ChampionsPlacement(order: seq<EntrantId>, R: Rounds, tier: FieldTier, t: TournamentId, c: EntrantId)
    requires Valid(order, R) && ChampionOf(R) == Some(c)
    ensures ClaimedBy(PlacementClaims(R, tier, t), c) >= AmountOf(Champion, tier)
  {
    PlacementsClaimed(order, R, tier, t, c);
  }

  lemma NamedLoserLost(R: Rounds, r: nat, s: nat, e: EntrantId)
    requires At(R, r, s) && LoserOf(R[r][s]) == Some(e) && R[r][s].a != R[r][s].b
    ensures LosesAt(R, r, s, e)
  {
  }

  /** A placement short of the title goes to whoever lost in the final or in the
      semifinal, and to nobody twice. */
  lemma LosersPlacement(
      order: seq<EntrantId>, R: Rounds, tier: FieldTier, t: TournamentId, e: EntrantId, lost: nat, s: nat)
    requires Valid(order, R) && LosesAt(R, lost, s, e) && ChampionOf(R) != Some(e)
    ensures ClaimedBy(PlacementClaims(R, tier, t), e) <=
            if lost == |R| - 1 then AmountOf(Finalist, tier)
            else if lost == |R| - 2 then AmountOf(Semifinalist, tier) else 0
  {
    PlacementsClaimed(order, R, tier, t, e);
    if LoserOf(R[|R| - 1][0]) == Some(e) {
      LostThere(order, R, |R| - 1, 0, lost, s, e);
    }
    if |R| >= 2 {
      SemifinalIsTwo(order, R);
      if LoserOf(R[|R| - 2][0]) == Some(e) {
        LostThere(order, R, |R| - 2, 0, lost, s, e);
      }
      if LoserOf(R[|R| - 2][1]) == Some(e) {
        LostThere(order, R, |R| - 2, 1, lost, s, e);
      }
    }
  }

  lemma LostThere(order: seq<EntrantId>, R: Rounds, r: nat, s: nat, lost: nat, s': nat, e: EntrantId)
    requires Valid(order, R) && At(R, r, s) && LoserOf(R[r][s]) == Some(e) && LosesAt(R, lost, s', e)
    ensures lost == r && s' == s
  {
    SidesDiffer(order, R, r, s);
    NamedLoserLost(R, r, s, e);
    AtMostOneLoss(order, R, lost, s', r, s, e);
  }

  /** Everyone else loses in some round, having won at most the rounds before. */
  lemma OthersPart(order: seq<EntrantId>, R: Rounds, tier: FieldTier, t: TournamentId, e: EntrantId)
    returns (lost: nat)
    requires Valid(order, R) && e in order
    requires ChampionOf(R).Some? && ChampionOf(R) != Some(e)
    ensures lost < |R| && Count(Flat(R), WonBy(e)) <= lost
    ensures ClaimedBy(PlacementClaims(R, tier, t), e) <=
            if lost == |R| - 1 then AmountOf(Finalist, tier)
            else if lost == |R| - 2 then AmountOf(Semifinalist, tier) else 0
  {
    var home := Home(order, |R[0]|, e);
    HomeIsSeated(order, R, e);
    var s: nat;
    lost, s := FindLoss(order, R, 0, home, e);
    assert R[0..] == R;
    LoserWins(order, R, e, lost, s, 0);
    LosersPlacement(order, R, tier, t, e, lost, s);
  }

  /** The amounts themselves: one round more is worth less than a placement. */
  lemma TitlePaysMore(tier: FieldTier, rounds: nat, lost: nat, wins: int, place: int, won: int, other: int)
    requires lost < rounds && wins >= rounds - 1 && place >= AmountOf(Champion, tier) && won <= lost
    requires other <= if lost == rounds - 1 then AmountOf(Finalist, tier)
                      else if lost == rounds - 2 then AmountOf(Semifinalist, tier) else 0
    ensures MATCH_WIN_CYCLES * wins + place > MATCH_WIN_CYCLES * won + other
  {
  }

  /** In a finished bracket the champion earns strictly more than anyone else,
      even when byes left them fewer matches to win. */
  lemma ChampionEarnsTheMost(
      t: TournamentId, entrants: seq<Entrant>, order: seq<EntrantId>, R: Rounds, c: EntrantId, e: EntrantId)
    requires Valid(order, R) && EveryoneHasAnAccount(order, entrants)
    requires ChampionOf(R) == Some(c) && e in order && e != c
    ensures Takings(t, entrants, R, c) > Takings(t, entrants, R, e)
  {
    var tier := TierOf(|entrants|);
    ChampionsPart(order, R, tier, t, c);
    TakingsParts(t, entrants, order, R, c);
    var lost := OthersPart(order, R, tier, t, e);
    TakingsParts(t, entrants, order, R, e);
    TitlePaysMore(tier, |R|, lost, Count(Flat(R), WonBy(c)), ClaimedBy(PlacementClaims(R, tier, t), c),
                  Count(Flat(R), WonBy(e)), ClaimedBy(PlacementClaims(R, tier, t), e));
  }
}
