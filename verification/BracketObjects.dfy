/** The bracket as the object the server works on: generated from a seed order,
    changed in place by results, and rebuilt from the rows of the store. */
module BracketObjects {
  import opened Basics
  import opened Brackets
  import opened BracketRules

  class Bracket {
    var rounds: Rounds

    constructor (rounds: Rounds)
      ensures this.rounds == rounds
    {
      this.rounds := rounds;
    }

    /** The seed order this is a bracket of. */
    ghost predicate Of(order: seq<EntrantId>)
      reads this
    {
      Valid(order, rounds)
    }

    method Feed(r: nat, s: nat, entrant: Option<EntrantId>)
      modifies this
      ensures rounds == Brackets.Feed(old(rounds), r, s, entrant)
      ensures |rounds| == |old(rounds)| && forall i :: 0 <= i < |rounds| ==> |rounds[i]| == |old(rounds)[i]|
      ensures forall i, j :: At(old(rounds), i, j) && !(i == r + 1 && j == s / 2) ==>
                rounds[i][j] == old(rounds)[i][j]
      ensures At(old(rounds), r + 1, s / 2) ==>
                var was, now := old(rounds)[r + 1][s / 2], rounds[r + 1][s / 2];
                && now.Side(s) == entrant && now.Side(s + 1) == was.Side(s + 1)
                && now.(a := None, b := None) == was.(a := None, b := None)
    {
      if At(rounds, r + 1, s / 2) {
        var next := rounds[r + 1][s / 2];
        if s % 2 == 0 {
          next := next.(a := entrant);
        } else {
          next := next.(b := entrant);
        }
        rounds := rounds[r + 1 := rounds[r + 1][s / 2 := next]];
      }
    }

    /** Enters a result. A refusal leaves the bracket as it was, and an accepted
        result keeps it a bracket of the same seed order. */
    method Report(id: MatchId, winner: EntrantId) returns (res: Result<seq<Match>, BracketError>)
      modifies this
      ensures match Reported(old(rounds), id, winner)
              case Ok(edit) => res == Ok(edit.changed) && rounds == edit.rounds
              case Err(error) => res == Err(error) && rounds == old(rounds)
      ensures forall order :: old(Of(order)) ==> Of(order) && SameIds(old(rounds), rounds)
    {
      ghost var before := rounds;
      var at := Locate(rounds, id);
      if at.None? {
        return Err(UnknownMatch(id));
      }
      var (r, s) := at.value;
      var current := rounds[r][s];
      if !current.IsReady() {
        return Err(NotReady(id));
      }
      if current.a != Some(winner) && current.b != Some(winner) {
        return Err(NotAParticipant(winner, id));
      }
      if NextIsDecided(rounds, r, s) {
        return Err(NextDecided(id));
      }
      rounds := rounds[r := rounds[r][s := current.(winner := Some(winner))]];
      Feed(r, s, Some(winner));
      res := Ok(ChangedMatches(rounds, r, s));
      forall order | Valid(order, before) ensures Valid(order, rounds) && SameIds(before, rounds) {
        ReportIsSafe(order, before, id, winner);
      }
    }

    /** Takes a winner out of its match and out of the match above it. */
    method Clear(id: MatchId) returns (res: Result<seq<Match>, BracketError>)
      modifies this
      ensures match Cleared(old(rounds), id)
              case Ok(edit) => res == Ok(edit.changed) && rounds == edit.rounds
              case Err(error) => res == Err(error) && rounds == old(rounds)
      ensures forall order :: old(Of(order)) ==> Of(order) && SameIds(old(rounds), rounds)
    {
      ghost var before := rounds;
      var at := Locate(rounds, id);
      if at.None? {
        return Err(UnknownMatch(id));
      }
      var (r, s) := at.value;
      var current := rounds[r][s];
      if !current.IsReady() {
        return Err(NotReady(id));
      }
      if current.winner.None? {
        return Ok([]);
      }
      if NextIsDecided(rounds, r, s) {
        return Err(NextDecided(id));
      }
      rounds := rounds[r := rounds[r][s := current.(winner := None)]];
      Feed(r, s, None);
      res := Ok(ChangedMatches(rounds, r, s));
      forall order | Valid(order, before) ensures Valid(order, rounds) && SameIds(before, rounds) {
        ClearIsSafe(order, before, id);
      }
    }

    // ---------- generation ----------

    /** Builds every match of a field from two to `MAX_ENTRANTS` entrants, then
        feeds the bye winners into round two. */
    static method Generate(seeded: seq<EntrantId>, ids: (nat, nat) -> MatchId)
      returns (res: Result<Bracket, BracketError>)
      ensures |seeded| < 2 ==> res == Err(TooFewEntrants(|seeded|))
      ensures |seeded| > 256 ==> res == Err(TooManyEntrants(|seeded|))
      ensures 2 <= |seeded| <= 256 ==>
                res.Ok? && fresh(res.value) && res.value.rounds == Blank(seeded, ids)
      ensures 2 <= |seeded| <= 256 && NoDup(seeded) && Supply(ids, |seeded|) ==>
                res.value.Of(seeded) && !HasResults(res.value.rounds)
    {
      var count := |seeded|;
      if count < 2 {
        return Err(TooFewEntrants(count));
      }
      if count > MAX_ENTRANTS {
        return Err(TooManyEntrants(count));
      }
      var size := NextPowerOfTwo(count);
      NextPowerOfTwoIs(count);
      var byes := size - count;
      var firstRound := FirstRound(seeded, ids, size, byes);
      var later := LaterRounds(seeded, ids, size);
      var bracket := new Bracket([firstRound] + later);
      bracket.FeedByes(seeded, ids);
      if NoDup(seeded) && Supply(ids, |seeded|) {
        BlankIsValid(seeded, ids);
      }
      return Ok(bracket);
    }

    /** The entrants that skip round one move into round two. */
    method FeedByes(ghost seeded: seq<EntrantId>, ghost ids: (nat, nat) -> MatchId)
      requires |seeded| >= 2 && FedUpTo(seeded, ids, rounds, 0)
      modifies this
      ensures rounds == Blank(seeded, ids)
    {
      var byeWinners := ByeWinners(rounds[0], 0);
      ByesOfRoundOne(seeded, ids, rounds[0]);
      for i := 0 to |byeWinners|
        invariant FedUpTo(seeded, ids, rounds, i)
      {
        var (slot, winner) := byeWinners[i];
        FeedOneMore(seeded, ids, rounds, i);
        Feed(0, slot, Some(winner));
      }
      AllFedIsBlank(seeded, ids, rounds);
    }

    // ---------- from the rows of the store ----------

    /** Sorts loose rows into a bracket. It gives back the one bracket shape with
        exactly these rows, and refuses when there is none. */
    static method FromMatches(matches: seq<Match>) returns (res: Result<Rounds, BracketError>)
      ensures res.Ok? ==> Grid(res.value) && multiset(Flat(res.value)) == multiset(matches)
      ensures res.Err? ==> res.error == Malformed && RowsOfNoGrid(matches)
      ensures res.Ok? <==> Regrouped(matches).Some?
      ensures res.Ok? ==> Regrouped(matches) == Some(res.value)
    {
      var byRound := GroupByRound(matches);
      res := RoundsInOrder(matches, byRound);
      if res.Err? {
        return;
      }
      var rounds := res.value;
      if |rounds| == 0 || |rounds[|rounds| - 1]| != 1 || !SizesHalve(rounds) {
        forall R | Grid(R) ensures multiset(Flat(R)) != multiset(matches) {
          if multiset(Flat(R)) == multiset(matches) {
            AllGroupsAreRounds(R, matches, rounds);
          }
        }
        return Err(Malformed);
      }
      GroupedIsGrid(matches, rounds);
      RegroupedIs(rounds, matches);
    }
  }

  method GroupByRound(matches: seq<Match>) returns (byRound: map<nat, seq<Match>>)
    ensures Remaining(matches, byRound, 0)
  {
    byRound := map[];
    for i := 0 to |matches|
      invariant forall k :: k in byRound <==> Group(matches[..i], k) != []
      invariant forall k :: k in byRound ==> byRound[k] == Group(matches[..i], k)
    {
      var m := matches[i];
      forall k: int ensures Group(matches[..i + 1], k) ==
                            Group(matches[..i], k) + (if m.round == k then [m] else [])
      {
        WithKeyLast(matches[..i], m, RoundKey, k);
        assert matches[..i + 1] == matches[..i] + [m];
      }
      var slots := if m.round in byRound then byRound[m.round] else [];
      byRound := byRound[m.round := slots + [m]];
    }
    assert matches[..|matches|] == matches;
  }

  /** The next key of a `BTreeMap` that is being emptied: the least one. */
  method FirstKey(rest: map<nat, seq<Match>>) returns (round: nat)
    requires rest != map[]
    ensures round in rest && forall k :: k in rest ==> round <= k
  {
    assert rest.Keys != {};
    ghost var least := LeastOf(rest.Keys);
    round :| round in rest.Keys && forall k :: k in rest.Keys ==> round <= k;
  }

  /** The groups that are left once rounds 1 to `done` are taken. */
  ghost predicate Remaining(matches: seq<Match>, rest: map<nat, seq<Match>>, done: nat) {
    && (forall k :: k in rest <==> Group(matches, k) != [] && !(1 <= k <= done))
    && (forall k :: k in rest ==> rest[k] == Group(matches, k))
  }

  /** Sorts the next group by slot. It must be the round after `done`, and its
      slots must be 0 to len - 1. */
  method NextRound(matches: seq<Match>, rest: map<nat, seq<Match>>, done: nat)
    returns (res: Result<seq<Match>, BracketError>)
    requires rest != map[] && Remaining(matches, rest, done)
    ensures res.Ok? ==> GroupedAt(matches, res.value, done + 1)
    ensures res.Err? ==> res.error == Malformed && RowsOfNoGrid(matches)
  {
    var round := FirstKey(rest);
    if round != done + 1 {
      FirstGroupIsAGap(matches, rest, done, round);
      return Err(Malformed);
    }
    var slots := SortBy(rest[round], SlotKey);
    var inOrder := InOrder(slots);
    FirstGroupSorted(matches, rest, done, round);
    if !inOrder {
      return Err(Malformed);
    }
    return Ok(slots);
  }

  /** Takes the groups in ascending round order. */
  method RoundsInOrder(matches: seq<Match>, byRound: map<nat, seq<Match>>)
    returns (res: Result<Rounds, BracketError>)
    requires Remaining(matches, byRound, 0)
    ensures res.Ok? ==> GroupedUpTo(matches, res.value) && NoGroupAbove(matches, |res.value|)
    ensures res.Err? ==> res.error == Malformed && RowsOfNoGrid(matches)
  {
    var rounds: Rounds := [];
    var rest := byRound;
    while rest != map[]
      invariant Remaining(matches, rest, |rounds|) && GroupedUpTo(matches, rounds)
      decreases |rest|
    {
      var slots := NextRound(matches, rest, |rounds|);
      if slots.Err? {
        return Err(slots.error);
      }
      var taken := rounds + [slots.value];
      var left := rest - {|taken|};
      TakeOneGroup(matches, rest, rounds, slots.value, taken, left);
      rounds, rest := taken, left;
    }
    NothingRemains(matches, rest, |rounds|);
    return Ok(rounds);
  }

  /** No row has a round outside 1..k. */
  ghost predicate NoGroupAbove(matches: seq<Match>, k: nat) {
    forall round: nat :: Group(matches, round) != [] ==> 1 <= round <= k
  }

  ghost predicate RowsOfNoGrid(matches: seq<Match>) {
    forall R :: Grid(R) ==> multiset(Flat(R)) != multiset(matches)
  }

  predicate SizesHalve(R: Rounds) {
    forall r :: 0 < r < |R| ==> |R[r - 1]| == 2 * |R[r]|
  }

  // ---------- the steps of generation ----------

  /** Round one, consuming the seed order from the front. */
  method FirstRound(seeded: seq<EntrantId>, ids: (nat, nat) -> MatchId, size: nat, byes: nat)
    returns (ms: seq<Match>)
    requires |seeded| >= 2
    requires size == Pow2(Log2Ceil(|seeded|)) && byes == size - |seeded|
    ensures |ms| == size / 2
    ensures ms == BlankRound(seeded, ids, 0)
  {
    ms := [];
    var next := 0;
    for slot := 0 to size / 2
      invariant |ms| == slot
      invariant next == if slot <= byes then slot else 2 * slot - byes
      invariant forall s :: 0 <= s < slot ==> ms[s] == BlankMatch(seeded, ids, 0, s)
    {
      var a := Some(seeded[next]);
      next := next + 1;
      var b := None;
      if slot >= byes {
        b := Some(seeded[next]);
        next := next + 1;
      }
      var winner := if b.None? then a else None;
      ms := ms + [Match(ids(0, slot), 1, slot, a, b, winner)];
    }
  }

  /** Rounds two and up, every side and winner empty. */
  method LaterRounds(seeded: seq<EntrantId>, ids: (nat, nat) -> MatchId, size: nat) returns (later: Rounds)
    requires |seeded| >= 2 && size == Pow2(Log2Ceil(|seeded|))
    ensures |later| == Log2Ceil(|seeded|) - 1
    ensures |later| > 0 ==> EmptyRound(seeded, ids, later[0], 1)
    ensures forall r :: 2 <= r <= |later| ==> later[r - 1] == BlankRound(seeded, ids, r)
  {
    var roundCount := TrailingZeros(size);
    TrailingZerosOfPow2(Log2Ceil(|seeded|));
    later := [];
    for round := 2 to roundCount + 1
      invariant |later| == round - 2
      invariant forall r :: 0 <= r < |later| ==> EmptyRound(seeded, ids, later[r], r + 1)
    {
      ShiftRightOfPow2(roundCount, round);
      var slots: seq<Match> := [];
      for slot := 0 to ShiftRight(size, round)
        invariant |slots| == slot
        invariant forall s :: 0 <= s < slot ==>
                    slots[s] == Match(ids(round - 1, s), round, s, None, None, None)
      {
        slots := slots + [Match(ids(round - 1, slot), round, slot, None, None, None)];
      }
      later := later + [slots];
    }
    assert |later| > 0 ==> EmptyRound(seeded, ids, later[0], 0 + 1);
    forall r | 2 <= r <= |later| ensures later[r - 1] == BlankRound(seeded, ids, r) {
      assert EmptyRound(seeded, ids, later[r - 1], r - 1 + 1);
      LaterRoundIsBlank(seeded, ids, later[r - 1], r);
    }
  }

  ghost predicate EmptyRound(seeded: seq<EntrantId>, ids: (nat, nat) -> MatchId, ms: seq<Match>, r: nat)
    requires |seeded| >= 2
  {
    && r < Log2Ceil(|seeded|)
    && |ms| == Pow2(Log2Ceil(|seeded|) - 1 - r)
    && forall s :: 0 <= s < |ms| ==> ms[s] == Match(ids(r, s), r + 1, s, None, None, None)
  }

  /** The matches of round one that already hold a winner. */
  function ByeWinners(ms: seq<Match>, slot: nat): seq<(nat, EntrantId)>
    requires slot <= |ms|
    decreases |ms| - slot
  {
    if slot == |ms| then []
    else if ms[slot].winner.Some? then [(slot, ms[slot].winner.value)] + ByeWinners(ms, slot + 1)
    else ByeWinners(ms, slot + 1)
  }

  /** The places `from` to `to` of a seed order, with who is there. */
  function Places(seeded: seq<EntrantId>, from: nat, to: nat): (places: seq<(nat, EntrantId)>)
    requires from <= to <= |seeded|
  {
    seq(to - from, i requires 0 <= i < to - from => (from + i, seeded[from + i]))
  }

  /** The byes go to the front of the seed order. */
  lemma {:induction false} ByeWinnersAre(seeded: seq<EntrantId>, ms: seq<Match>, byes: nat, slot: nat)
    requires slot <= |ms| && byes <= |ms| && byes <= |seeded|
    requires forall s :: 0 <= s < byes ==> ms[s].winner == Some(seeded[s])
    requires forall s :: byes <= s < |ms| ==> ms[s].winner == None
    ensures ByeWinners(ms, slot) == if slot < byes then Places(seeded, slot, byes) else []
    decreases |ms| - slot
  {
    if slot < |ms| {
      ByeWinnersAre(seeded, ms, byes, slot + 1);
      if slot < byes {
        assert ms[slot].winner == Some(seeded[slot]);
        assert Places(seeded, slot, byes) == [(slot, seeded[slot])] + Places(seeded, slot + 1, byes);
        assert slot + 1 == byes ==> Places(seeded, slot + 1, byes) == [];
      }
    }
  }

  lemma HalfOfTheSize(n: nat)
    requires n >= 2
    ensures Pow2(Log2Ceil(n) - 1) < n <= 2 * Pow2(Log2Ceil(n) - 1)
  {
  }

  /** Who wins a match of a generated round one. */
  lemma WinnerOfRoundOne(seeded: seq<EntrantId>, ids: (nat, nat) -> MatchId, half: nat, s: nat)
    requires |seeded| >= 2 && half == Pow2(Log2Ceil(|seeded|) - 1) && s < half
    ensures s < |BlankRound(seeded, ids, 0)|
    ensures BlankRound(seeded, ids, 0)[s].winner == if s < 2 * half - |seeded| then Some(seeded[s]) else None
  {
    HalfOfTheSize(|seeded|);
    assert BlankRound(seeded, ids, 0)[s] == BlankMatch(seeded, ids, 0, s);
    assert BlankMatch(seeded, ids, 0, s).winner == ByeWinner(seeded, half, s);
  }

  /** The byes of a generated round one. */
  lemma ByesOfRoundOne(seeded: seq<EntrantId>, ids: (nat, nat) -> MatchId, ms: seq<Match>)
    requires |seeded| >= 2 && ms == BlankRound(seeded, ids, 0)
    ensures 0 <= 2 * |ms| - |seeded| < |ms| < |seeded|
    ensures ByeWinners(ms, 0) == Places(seeded, 0, 2 * |ms| - |seeded|)
  {
    HalfOfTheSize(|seeded|);
    forall s | 0 <= s < |ms| ensures ms[s].winner == if s < 2 * |ms| - |seeded| then Some(seeded[s]) else None {
      WinnerOfRoundOne(seeded, ids, |ms|, s);
    }
    ByeWinnersAre(seeded, ms, 2 * |ms| - |seeded|, 0);
  }

  /** Round two with the first `fed` bye winners written into it. */
  ghost predicate RoundTwoFedUpTo(
      seeded: seq<EntrantId>, ids: (nat, nat) -> MatchId, ms: seq<Match>, half: nat, fed: nat)
  {
    && fed <= |seeded| && half == 2 * |ms|
    && forall s :: 0 <= s < |ms| ==>
         ms[s] == Match(ids(1, s), 2, s,
                        if 2 * s < fed then Some(seeded[2 * s]) else None,
                        if 2 * s + 1 < fed then Some(seeded[2 * s + 1]) else None, None)
  }

  /** Every round as generated, with the first `fed` byes fed. */
  ghost predicate FedUpTo(seeded: seq<EntrantId>, ids: (nat, nat) -> MatchId, R: Rounds, fed: nat)
    requires |seeded| >= 2
  {
    && |R| == Log2Ceil(|seeded|)
    && R[0] == BlankRound(seeded, ids, 0)
    && (|R| > 1 ==> RoundTwoFedUpTo(seeded, ids, R[1], |R[0]|, fed))
    && (forall r :: 2 <= r < |R| ==> R[r] == BlankRound(seeded, ids, r))
  }

  lemma RoundTwoTakesOneMore(
      seeded: seq<EntrantId>, ids: (nat, nat) -> MatchId, ms: seq<Match>, half: nat, i: nat)
    requires RoundTwoFedUpTo(seeded, ids, ms, half, i)
    requires i < |seeded| && i < half
    ensures i / 2 < |ms|
    ensures RoundTwoFedUpTo(seeded, ids, ms[i / 2 := ms[i / 2].WithSide(i, Some(seeded[i]))], half, i + 1)
  {
  }

  lemma FeedOneMore(seeded: seq<EntrantId>, ids: (nat, nat) -> MatchId, R: Rounds, i: nat)
    requires |seeded| >= 2 && FedUpTo(seeded, ids, R, i) && i < |seeded| && i < |R[0]|
    ensures FedUpTo(seeded, ids, Feed(R, 0, i, Some(seeded[i])), i + 1)
  {
    if |R| > 1 {
      RoundTwoTakesOneMore(seeded, ids, R[1], |R[0]|, i);
    }
  }

  lemma AllFedIsBlank(seeded: seq<EntrantId>, ids: (nat, nat) -> MatchId, R: Rounds)
    requires |seeded| >= 2 && 2 * Pow2(Log2Ceil(|seeded|) - 1) >= |seeded|
    requires FedUpTo(seeded, ids, R, 2 * Pow2(Log2Ceil(|seeded|) - 1) - |seeded|)
    ensures R == Blank(seeded, ids)
  {
    if |R| > 1 {
      RoundTwoIsBlank(seeded, ids, R[1], |R[0]|);
    }
    forall r | 0 <= r < |R| ensures R[r] == Blank(seeded, ids)[r] {
    }
  }

  lemma RoundTwoIsBlank(seeded: seq<EntrantId>, ids: (nat, nat) -> MatchId, ms: seq<Match>, half: nat)
    requires |seeded| >= 2 && Log2Ceil(|seeded|) > 1 && half == Pow2(Log2Ceil(|seeded|) - 1)
    requires RoundTwoFedUpTo(seeded, ids, ms, half, 2 * half - |seeded|)
    ensures ms == BlankRound(seeded, ids, 1)
  {
    assert half == 2 * Pow2(Log2Ceil(|seeded|) - 2);
  }

  lemma LaterRoundIsBlank(seeded: seq<EntrantId>, ids: (nat, nat) -> MatchId, ms: seq<Match>, r: nat)
    requires |seeded| >= 2 && r >= 2 && EmptyRound(seeded, ids, ms, r)
    ensures ms == BlankRound(seeded, ids, r)
  {
  }

  // ---------- the steps of grouping ----------

  function RoundKey(m: Match): int {
    m.round
  }

  function SlotKey(m: Match): int {
    m.slot
  }

  /** The rows of round `k`, in the order they came. */
  function Group(ms: seq<Match>, k: int): seq<Match> {
    WithKey(ms, RoundKey, k)
  }

  predicate InOrder(ms: seq<Match>) {
    forall s :: 0 <= s < |ms| ==> ms[s].slot == s
  }

  lemma WithKeyLast<T>(xs: seq<T>, x: T, key: T -> int, k: int)
    ensures WithKey(xs + [x], key, k) == WithKey(xs, key, k) + (if key(x) == k then [x] else [])
  {
    WithKeyAppend(xs, [x], key, k);
    assert [x] == [x] + [] && WithKey([], key, k) == [];
    WithKeyCons(x, [], key, k);
  }

  lemma {:induction false} WithKeyAppend<T>(xs: seq<T>, ys: seq<T>, key: T -> int, k: int)
    ensures WithKey(xs + ys, key, k) == WithKey(xs, key, k) + WithKey(ys, key, k)
  {
    if xs == [] {
      assert xs + ys == ys;
    } else {
      assert xs + ys == [xs[0]] + (xs[1..] + ys);
      WithKeyAppend(xs[1..], ys, key, k);
      WithKeyCons(xs[0], xs[1..] + ys, key, k);
    }
  }

  lemma {:induction false} WithKeyMultiplicity<T>(xs: seq<T>, key: T -> int, k: int, x: T)
    ensures multiset(WithKey(xs, key, k))[x] == if key(x) == k then multiset(xs)[x] else 0
  {
    if xs != [] {
      WithKeyMultiplicity(xs[1..], key, k, x);
      assert xs == [xs[0]] + xs[1..];
    }
  }

  lemma GroupsOfPermutation<T>(xs: seq<T>, ys: seq<T>, key: T -> int, k: int)
    requires multiset(xs) == multiset(ys)
    ensures multiset(WithKey(xs, key, k)) == multiset(WithKey(ys, key, k))
  {
    var gs, hs := multiset(WithKey(xs, key, k)), multiset(WithKey(ys, key, k));
    forall x: T ensures gs[x] == hs[x] {
      WithKeyMultiplicity(xs, key, k, x);
      WithKeyMultiplicity(ys, key, k, x);
    }
    EqualMultisets(gs, hs);
  }

  lemma EqualMultisets<T>(gs: multiset<T>, hs: multiset<T>)
    requires forall x :: gs[x] == hs[x]
    ensures gs == hs
  {
  }

  lemma SameGroupsPermute<T>(xs: seq<T>, ys: seq<T>, key: T -> int)
    requires forall k :: multiset(WithKey(xs, key, k)) == multiset(WithKey(ys, key, k))
    ensures multiset(xs) == multiset(ys)
  {
    forall x ensures multiset(xs)[x] == multiset(ys)[x] {
      WithKeyMultiplicity(xs, key, key(x), x);
      WithKeyMultiplicity(ys, key, key(x), x);
    }
  }

  lemma {:induction false} WithKeyAll<T>(xs: seq<T>, key: T -> int, k: int)
    requires forall i :: 0 <= i < |xs| ==> key(xs[i]) == k
    ensures WithKey(xs, key, k) == xs
  {
    if xs != [] {
      WithKeyAll(xs[1..], key, k);
    }
  }

  lemma {:induction false} WithKeyNone<T>(xs: seq<T>, key: T -> int, k: int)
    requires forall i :: 0 <= i < |xs| ==> key(xs[i]) != k
    ensures WithKey(xs, key, k) == []
  {
    if xs != [] {
      WithKeyNone(xs[1..], key, k);
    }
  }

  ghost predicate Numbered(R: Rounds, from: nat) {
    forall r, s :: At(R, r, s) ==> R[r][s].round == from + r
  }

  lemma GroupOfRound(ms: seq<Match>, from: nat, k: int)
    requires forall s :: 0 <= s < |ms| ==> ms[s].round == from
    ensures Group(ms, k) == if k == from then ms else []
  {
    if k == from {
      WithKeyAll(ms, RoundKey, k);
    } else {
      WithKeyNone(ms, RoundKey, k);
    }
  }

  lemma NumberedTail(R: Rounds, from: nat)
    requires Numbered(R, from) && R != []
    ensures Numbered(R[1..], from + 1)
    ensures forall s :: 0 <= s < |R[0]| ==> R[0][s].round == from
  {
    forall s | 0 <= s < |R[0]| ensures R[0][s].round == from {
      assert At(R, 0, s);
    }
    forall r, s | At(R[1..], r, s) ensures R[1..][r][s].round == from + 1 + r {
      assert At(R, r + 1, s);
    }
  }

  lemma {:induction false} GroupOfFlat(R: Rounds, from: nat, k: int)
    requires Numbered(R, from)
    ensures Group(Flat(R), k) == if from <= k < from + |R| then R[k - from] else []
  {
    if R != [] {
      NumberedTail(R, from);
      WithKeyAppend(R[0], Flat(R[1..]), RoundKey, k);
      GroupOfRound(R[0], from, k);
      GroupOfFlat(R[1..], from + 1, k);
    }
  }

  lemma GroupOfGrid(R: Rounds, k: int)
    requires Grid(R)
    ensures WithKey(Flat(R), RoundKey, k) == if 1 <= k <= |R| then R[k - 1] else []
  {
    GroupOfFlat(R, 1, k);
  }

  lemma {:induction false} RoundsAreNotEmpty(R: Rounds, r: nat)
    requires Halving(R) && r < |R|
    ensures R[r] != []
    decreases |R| - r
  {
    if r < |R| - 1 {
      RoundsAreNotEmpty(R, r + 1);
      assert |R[r + 1 - 1]| == 2 * |R[r + 1]|;
    }
  }

  lemma SortedSlots(ms: seq<Match>, group: seq<Match>)
    requires multiset(ms) == multiset(group) && InOrder(ms)
    ensures SortBy(group, SlotKey) == ms && |group| == |ms|
  {
    SortedPermutationIsUnique(ms, SortBy(group, SlotKey), SlotKey);
    assert |multiset(group)| == |group| && |multiset(ms)| == |ms|;
  }

  /** If the rows are those of a bracket, each sorted group is its round. */
  lemma GroupsAreRounds(R: Rounds, matches: seq<Match>, k: int)
    requires Grid(R) && multiset(Flat(R)) == multiset(matches)
    ensures SortBy(Group(matches, k), SlotKey) == if 1 <= k <= |R| then R[k - 1] else []
    ensures Group(matches, k) != [] <==> 1 <= k <= |R|
    ensures 1 <= k <= |R| ==> InOrder(R[k - 1])
  {
    GroupOfGrid(R, k);
    GroupsOfPermutation(Flat(R), matches, RoundKey, k);
    if 1 <= k <= |R| {
      RoundsAreNotEmpty(R, k - 1);
      var ms := R[k - 1];
      forall s | 0 <= s < |ms| ensures ms[s].slot == s {
        assert At(R, k - 1, s);
      }
      SortedSlots(ms, Group(matches, k));
    } else {
      SortedSlots([], Group(matches, k));
    }
  }

  ghost predicate GroupedAt(matches: seq<Match>, ms: seq<Match>, k: int) {
    && ms != []
    && multiset(ms) == multiset(Group(matches, k))
    && InOrder(ms)
  }

  ghost predicate GroupedUpTo(matches: seq<Match>, rounds: Rounds) {
    forall r :: 0 <= r < |rounds| ==> GroupedAt(matches, rounds[r], r + 1)
  }

  lemma OrderedGroup(matches: seq<Match>, slots: seq<Match>, k: int)
    requires Group(matches, k) != [] && InOrder(slots)
    requires slots == SortBy(Group(matches, k), SlotKey)
    ensures GroupedAt(matches, slots, k)
  {
    var group := Group(matches, k);
    assert |multiset(slots)| == |slots| && |multiset(group)| == |group|;
  }

  lemma TakeOneGroup(
      matches: seq<Match>, rest: map<nat, seq<Match>>, rounds: Rounds, slots: seq<Match>,
      taken: Rounds, left: map<nat, seq<Match>>)
    requires Remaining(matches, rest, |rounds|) && GroupedUpTo(matches, rounds)
    requires GroupedAt(matches, slots, |rounds| + 1)
    requires taken == rounds + [slots] && left == rest - {|taken|}
    ensures Remaining(matches, left, |taken|) && GroupedUpTo(matches, taken)
    ensures |left| < |rest|
  {
    var round := |rounds| + 1;
    assert slots[0] in multiset(slots);
    assert Group(matches, round) != [];
    assert round in rest;
    assert left.Keys == rest.Keys - {round};
    assert |rest.Keys - {round}| == |rest.Keys| - 1;
  }

  lemma NothingRemains(matches: seq<Match>, rest: map<nat, seq<Match>>, done: nat)
    requires Remaining(matches, rest, done) && rest == map[]
    ensures NoGroupAbove(matches, done)
  {
  }

  lemma DisorderMeansMalformed(matches: seq<Match>, round: nat)
    requires Group(matches, round) != []
    requires !InOrder(SortBy(Group(matches, round), SlotKey))
    ensures RowsOfNoGrid(matches)
  {
    forall R | Grid(R) ensures multiset(Flat(R)) != multiset(matches) {
      if multiset(Flat(R)) == multiset(matches) {
        GroupsAreRounds(R, matches, round);
      }
    }
  }

  lemma GapMeansMalformed(matches: seq<Match>, done: nat, round: nat)
    requires round != done + 1 && Group(matches, round) != []
    requires forall k: nat :: Group(matches, k) != [] && !(1 <= k <= done) ==> round <= k
    requires !(1 <= round <= done)
    ensures RowsOfNoGrid(matches)
  {
    forall R | Grid(R) ensures multiset(Flat(R)) != multiset(matches) {
      if multiset(Flat(R)) == multiset(matches) {
        GroupsAreRounds(R, matches, done + 1);
        GroupsAreRounds(R, matches, round);
      }
    }
  }

  lemma FirstGroupIsAGap(matches: seq<Match>, rest: map<nat, seq<Match>>, done: nat, round: nat)
    requires Remaining(matches, rest, done) && round in rest && forall k :: k in rest ==> round <= k
    requires round != done + 1
    ensures RowsOfNoGrid(matches)
  {
    forall k: nat | Group(matches, k) != [] && !(1 <= k <= done) ensures round <= k {
      assert k in rest;
    }
    GapMeansMalformed(matches, done, round);
  }

  lemma FirstGroupSorted(matches: seq<Match>, rest: map<nat, seq<Match>>, done: nat, round: nat)
    requires Remaining(matches, rest, done) && round in rest
    ensures InOrder(SortBy(rest[round], SlotKey)) ==> GroupedAt(matches, SortBy(rest[round], SlotKey), round)
    ensures !InOrder(SortBy(rest[round], SlotKey)) ==> RowsOfNoGrid(matches)
  {
    assert rest[round] == Group(matches, round) != [];
    if InOrder(SortBy(rest[round], SlotKey)) {
      OrderedGroup(matches, SortBy(rest[round], SlotKey), round);
    } else {
      DisorderMeansMalformed(matches, round);
    }
  }

  lemma AllGroupsAreRounds(R: Rounds, matches: seq<Match>, rounds: Rounds)
    requires Grid(R) && multiset(Flat(R)) == multiset(matches)
    requires GroupedUpTo(matches, rounds)
    requires NoGroupAbove(matches, |rounds|)
    ensures rounds == R
  {
    assert |R| <= |rounds| by {
      GroupsAreRounds(R, matches, |R|);
    }
    assert |rounds| <= |R| by {
      GroupsAreRounds(R, matches, |rounds|);
      assert |rounds| > 0 ==> GroupedAt(matches, rounds[|rounds| - 1], |rounds| - 1 + 1);
    }
    forall r | 0 <= r < |R| ensures rounds[r] == R[r] {
      GroupsAreRounds(R, matches, r + 1);
      assert GroupedAt(matches, rounds[r], r + 1);
      SortedSlots(rounds[r], Group(matches, r + 1));
    }
  }

  lemma {:induction false} GroupHasKey<T>(xs: seq<T>, key: T -> int, k: int)
    ensures forall x :: x in WithKey(xs, key, k) ==> key(x) == k && x in xs
  {
    if xs != [] {
      GroupHasKey(xs[1..], key, k);
    }
  }

  lemma GroupedRound(matches: seq<Match>, ms: seq<Match>, k: int)
    requires GroupedAt(matches, ms, k)
    ensures forall s :: 0 <= s < |ms| ==> ms[s].round == k && ms[s].slot == s
    ensures multiset(ms) == multiset(Group(matches, k))
  {
    GroupHasKey(matches, RoundKey, k);
    forall s | 0 <= s < |ms| ensures ms[s].round == k {
      assert ms[s] in multiset(ms);
      assert ms[s] in Group(matches, k);
      assert RoundKey(ms[s]) == k;
    }
  }

  lemma GroupedPlaces(matches: seq<Match>, rounds: Rounds)
    requires GroupedUpTo(matches, rounds) && SizesHalve(rounds)
    requires |rounds| > 0 && |rounds[|rounds| - 1]| == 1
    ensures Grid(rounds)
  {
    forall r, s | At(rounds, r, s) ensures rounds[r][s].round == r + 1 && rounds[r][s].slot == s {
      assert GroupedAt(matches, rounds[r], r + 1);
      GroupedRound(matches, rounds[r], r + 1);
    }
    assert Halving(rounds);
  }

  /** Round `k` of the grid holds the rows of round `k`. */
  lemma GroupedKey(matches: seq<Match>, rounds: Rounds, k: int)
    requires GroupedUpTo(matches, rounds) && Grid(rounds) && NoGroupAbove(matches, |rounds|)
    ensures multiset(WithKey(Flat(rounds), RoundKey, k)) == multiset(WithKey(matches, RoundKey, k))
  {
    GroupOfGrid(rounds, k);
    if 1 <= k <= |rounds| {
      assert GroupedAt(matches, rounds[k - 1], k - 1 + 1);
      GroupedRound(matches, rounds[k - 1], k);
    } else if k < 0 {
      WithKeyNone(matches, RoundKey, k);
    } else {
      var round: nat := k;
      assert Group(matches, round) == [];
    }
  }

  lemma GroupedIsGrid(matches: seq<Match>, rounds: Rounds)
    requires GroupedUpTo(matches, rounds) && SizesHalve(rounds)
    requires |rounds| > 0 && |rounds[|rounds| - 1]| == 1
    requires NoGroupAbove(matches, |rounds|)
    ensures Grid(rounds) && multiset(Flat(rounds)) == multiset(matches)
  {
    GroupedPlaces(matches, rounds);
    var flat := Flat(rounds);
    forall k ensures multiset(WithKey(flat, RoundKey, k)) == multiset(WithKey(matches, RoundKey, k)) {
      GroupedKey(matches, rounds, k);
    }
    SameGroupsPermute(flat, matches, RoundKey);
  }

  lemma {:induction false} LeastOf(keys: set<nat>) returns (round: nat)
    requires keys != {}
    ensures round in keys && forall k :: k in keys ==> round <= k
    decreases |keys|
  {
    var pick :| pick in keys;
    var below := set k | k in keys && k < pick;
    assert forall k :: k in keys && k < pick ==> k in below;
    if below == {} {
      round := pick;
    } else {
      assert below <= keys - {pick};
      SubsetCardinality(below, keys - {pick});
      round := LeastOf(below);
    }
  }

  /** No two brackets have the same rows, so `from_matches` undoes `flat`
      whatever order the rows come in. */
  lemma RowsDetermineTheGrid(R: Rounds, R': Rounds)
    requires Grid(R) && Grid(R') && multiset(Flat(R)) == multiset(Flat(R'))
    ensures R == R'
  {
    var rows := Flat(R');
    assert |R| == |R'| by {
      GroupsAreRounds(R, rows, |R|);
      GroupsAreRounds(R', rows, |R|);
      GroupsAreRounds(R, rows, |R'|);
      GroupsAreRounds(R', rows, |R'|);
    }
    forall r | 0 <= r < |R| ensures R[r] == R'[r] {
      GroupsAreRounds(R, rows, r + 1);
      GroupsAreRounds(R', rows, r + 1);
    }
  }

  /** What `from_matches` makes of a list of rows, if anything. */
  ghost function Regrouped(rows: seq<Match>): Option<Rounds> {
    if exists R :: Grid(R) && multiset(Flat(R)) == multiset(rows) then
      var R :| Grid(R) && multiset(Flat(R)) == multiset(rows);
      Some(R)
    else None
  }

  /** The round trip through the store: the rows of a bracket, in any order,
      give back that bracket. */
  lemma RegroupedIs(R: Rounds, rows: seq<Match>)
    requires Grid(R) && multiset(rows) == multiset(Flat(R))
    ensures Regrouped(rows) == Some(R)
  {
    var R' :| Regrouped(rows) == Some(R') && Grid(R') && multiset(Flat(R')) == multiset(rows);
    RowsDetermineTheGrid(R, R');
  }
}
