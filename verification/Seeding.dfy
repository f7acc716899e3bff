/** Seeding by level: the order a draw gives, who gets the byes, and why pairing
    neighbours is the fairest round one there is. */
module Seeding {
  import opened Basics
  import opened Brackets
  import opened BracketRules
  import opened Entrants

  const UNRATED := 3

  function SeedingLevel(e: Entrant): int {
    match e.skill
    case Some(level) => level
    case None => UNRATED
  }

  function StrongestFirst(e: Entrant): int {
    -SeedingLevel(e)
  }

  /** The draw: shuffled entrants, sorted by level with the strongest first. */
  function DrawOrder(shuffled: seq<Entrant>): seq<Entrant> {
    SortBy(shuffled, StrongestFirst)
  }

  ghost predicate Descending(levels: seq<int>) {
    forall i, j :: 0 <= i < j < |levels| ==> levels[i] >= levels[j]
  }

  function Levels(entrants: seq<Entrant>): seq<int> {
    seq(|entrants|, i requires 0 <= i < |entrants| => SeedingLevel(entrants[i]))
  }

  /** Whatever the shuffle, the draw has every entrant one time, the stronger
      before the weaker, and one level stays in the order of the shuffle. */
  lemma DrawIsByLevel(entrants: seq<Entrant>, shuffled: seq<Entrant>, level: int)
    requires multiset(shuffled) == multiset(entrants)
    ensures multiset(DrawOrder(shuffled)) == multiset(entrants)
    ensures Descending(Levels(DrawOrder(shuffled)))
    ensures WithKey(DrawOrder(shuffled), StrongestFirst, -level) ==
            WithKey(shuffled, StrongestFirst, -level)
  {
    SortIsStable(shuffled, StrongestFirst, -level);
    SortedIsDescending(DrawOrder(shuffled));
  }

  lemma SortedIsDescending(draw: seq<Entrant>)
    requires SortedBy(draw, StrongestFirst)
    ensures Descending(Levels(draw))
  {
    forall i, j | 0 <= i < j < |draw| ensures Levels(draw)[i] >= Levels(draw)[j] {
      assert StrongestFirst(draw[i]) <= StrongestFirst(draw[j]);
    }
  }

  // ---------- the gap of a pairing ----------

  function Abs(x: int): nat {
    if x < 0 then -x else x
  }

  /** The total level gap when the list is paired off two by two. */
  function PairGap(q: seq<int>): nat {
    if |q| < 2 then 0 else Abs(q[0] - q[1]) + PairGap(q[2..])
  }

  function Straddles(a: int, b: int, k: int): nat {
    if (a >= k) != (b >= k) then 1 else 0
  }

  /** The pairs with exactly one of the two at level k or above. */
  function StraddleCount(q: seq<int>, k: int): nat {
    if |q| < 2 then 0 else Straddles(q[0], q[1], k) + StraddleCount(q[2..], k)
  }

  function StraddleSum(q: seq<int>, lo: int, hi: int): nat
    decreases hi - lo
  {
    if hi <= lo then 0 else StraddleCount(q, hi) + StraddleSum(q, lo, hi - 1)
  }

  function PairSum(a: int, b: int, lo: int, hi: int): nat
    decreases hi - lo
  {
    if hi <= lo then 0 else Straddles(a, b, hi) + PairSum(a, b, lo, hi - 1)
  }

  lemma {:induction false} PairSumIsGap(a: int, b: int, lo: int, hi: int)
    requires lo <= a && lo <= b
    ensures PairSum(a, b, lo, hi) ==
            (if hi <= lo then 0 else Abs((if a < hi then a else hi) - (if b < hi then b else hi)))
    decreases hi - lo
  {
    if hi > lo {
      PairSumIsGap(a, b, lo, hi - 1);
    }
  }

  lemma {:induction false} StraddleSumSplits(q: seq<int>, lo: int, hi: int)
    requires |q| >= 2
    ensures StraddleSum(q, lo, hi) == PairSum(q[0], q[1], lo, hi) + StraddleSum(q[2..], lo, hi)
    decreases hi - lo
  {
    if hi > lo {
      StraddleSumSplits(q, lo, hi - 1);
    }
  }

  lemma {:induction false} NothingStraddles(q: seq<int>, lo: int, hi: int)
    requires |q| < 2
    ensures StraddleSum(q, lo, hi) == 0
    decreases hi - lo
  {
    if hi > lo {
      NothingStraddles(q, lo, hi - 1);
    }
  }

  /** A gap is the number of levels that lie between the two. */
  lemma {:induction false} GapIsStraddleSum(q: seq<int>, lo: int, hi: int)
    requires forall i :: 0 <= i < |q| ==> lo <= q[i] <= hi
    ensures PairGap(q) == StraddleSum(q, lo, hi)
  {
    if |q| < 2 {
      NothingStraddles(q, lo, hi);
    } else {
      GapIsStraddleSum(q[2..], lo, hi);
      StraddleSumSplits(q, lo, hi);
      PairSumIsGap(q[0], q[1], lo, hi);
    }
  }

  function CountAtLeast(q: seq<int>, k: int): nat {
    if q == [] then 0 else (if q[0] >= k then 1 else 0) + CountAtLeast(q[1..], k)
  }

  /** Pairs either take both or none from the strong side, or straddle. */
  lemma {:induction false} StraddleParity(q: seq<int>, k: int)
    requires |q| % 2 == 0
    ensures StraddleCount(q, k) % 2 == CountAtLeast(q, k) % 2
  {
    if q != [] {
      StraddleParity(q[2..], k);
      assert q[1..][0] == q[1] && q[1..][1..] == q[2..];
    }
  }

  lemma {:induction false} WeakNeverStraddle(q: seq<int>, k: int)
    requires forall i :: 0 <= i < |q| ==> q[i] < k
    ensures StraddleCount(q, k) == 0
  {
    if |q| >= 2 {
      WeakNeverStraddle(q[2..], k);
    }
  }

  lemma {:induction false} SortedStraddlesOnce(p: seq<int>, k: int)
    requires Descending(p)
    ensures StraddleCount(p, k) <= 1
  {
    if |p| >= 2 {
      assert forall i :: 0 <= i < |p[2..]| ==> p[2..][i] == p[i + 2] <= p[1];
      if p[1] < k {
        WeakNeverStraddle(p[2..], k);
      } else {
        SortedStraddlesOnce(p[2..], k);
      }
    }
  }

  lemma {:induction false} CountAtLeastAppend(a: seq<int>, b: seq<int>, k: int)
    ensures CountAtLeast(a + b, k) == CountAtLeast(a, k) + CountAtLeast(b, k)
  {
    if a == [] {
      assert a + b == b;
    } else {
      assert (a + b)[1..] == a[1..] + b;
      CountAtLeastAppend(a[1..], b, k);
    }
  }

  lemma {:induction false} CountAtLeastPermutes(p: seq<int>, q: seq<int>, k: int)
    requires multiset(p) == multiset(q)
    ensures CountAtLeast(p, k) == CountAtLeast(q, k)
    decreases |p|
  {
    if p == [] {
      assert |multiset(q)| == |q|;
    } else {
      var i := FindHead(p, q);
      var a, b := q[..i], q[i + 1..];
      CountAtLeastPermutes(p[1..], a + b, k);
      CountAtLeastAppend(a, [q[i]] + b, k);
      CountAtLeastAppend(a, b, k);
      assert ([q[i]] + b)[1..] == b;
    }
  }

  lemma {:induction false} StraddleSumMonotone(p: seq<int>, q: seq<int>, lo: int, hi: int)
    requires forall k :: StraddleCount(p, k) <= StraddleCount(q, k)
    ensures StraddleSum(p, lo, hi) <= StraddleSum(q, lo, hi)
    decreases hi - lo
  {
    if hi > lo {
      StraddleSumMonotone(p, q, lo, hi - 1);
    }
  }

  function Bound(q: seq<int>): nat {
    if q == [] then 0
    else if Abs(q[0]) > Bound(q[1..]) then Abs(q[0]) else Bound(q[1..])
  }

  lemma {:induction false} BoundHolds(q: seq<int>)
    ensures forall i :: 0 <= i < |q| ==> Abs(q[i]) <= Bound(q)
  {
    if q != [] {
      BoundHolds(q[1..]);
      assert forall i :: 0 < i < |q| ==> q[i] == q[1..][i - 1];
    }
  }

  lemma SortedStraddlesLeast(p: seq<int>, q: seq<int>, k: int)
    requires Descending(p) && multiset(p) == multiset(q) && |p| % 2 == 0 && |q| % 2 == 0
    ensures StraddleCount(p, k) <= StraddleCount(q, k)
  {
    SortedStraddlesOnce(p, k);
    StraddleParity(p, k);
    StraddleParity(q, k);
    CountAtLeastPermutes(p, q, k);
  }

  lemma PermutationIsBound(p: seq<int>, q: seq<int>) returns (b: int)
    requires multiset(p) == multiset(q)
    ensures forall i :: 0 <= i < |p| ==> -b <= p[i] <= b
    ensures forall i :: 0 <= i < |q| ==> -b <= q[i] <= b
  {
    b := Bound(p);
    BoundHolds(p);
    forall i | 0 <= i < |q| ensures -b <= q[i] <= b {
      assert q[i] in multiset(p);
    }
  }

  /** Pairing neighbours of a sorted list has the least total gap of any pairing
      of the same levels. */
  lemma NeighboursAreFairest(p: seq<int>, q: seq<int>)
    requires Descending(p) && multiset(p) == multiset(q) && |p| % 2 == 0
    ensures PairGap(p) <= PairGap(q)
  {
    assert |q| % 2 == 0 by {
      assert |multiset(p)| == |p| && |multiset(q)| == |q|;
    }
    var b := PermutationIsBound(p, q);
    GapIsStraddleSum(p, -b, b);
    GapIsStraddleSum(q, -b, b);
    forall k ensures StraddleCount(p, k) <= StraddleCount(q, k) {
      SortedStraddlesLeast(p, q, k);
    }
    StraddleSumMonotone(p, q, -b, b);
  }

  // ---------- round one of a bracket ----------

  /** The total gap of the round-one matches that are played. */
  function RoundOneGap(ms: seq<Match>, level: EntrantId -> int): nat {
    if ms == [] then 0
    else
      (if ms[0].IsReady() then Abs(level(ms[0].a.value) - level(ms[0].b.value)) else 0)
      + RoundOneGap(ms[1..], level)
  }

  function LevelsOf(order: seq<EntrantId>, level: EntrantId -> int): seq<int> {
    seq(|order|, i requires 0 <= i < |order| => level(order[i]))
  }

  /** The entrants without a bye, in seed order. */
  function PlaysRoundOne(order: seq<EntrantId>, half: nat): seq<EntrantId>
    requires half < |order| <= 2 * half
  {
    order[2 * half - |order|..]
  }

  lemma {:induction false} RoundOneIsPaired(order: seq<EntrantId>, R: Rounds, level: EntrantId -> int, s: nat)
    requires Valid(order, R) && s <= |R[0]|
    ensures var byes := 2 * |R[0]| - |order|;
      RoundOneGap(R[0][s..], level) ==
      PairGap(LevelsOf(order[if s < byes then byes else 2 * s - byes..], level))
    decreases |R[0]| - s
  {
    var byes := 2 * |R[0]| - |order|;
    if s < |R[0]| {
      assert R[0][s..][0] == R[0][s] && R[0][s..][1..] == R[0][s + 1..];
      assert R[0][s].a == SeatA(order, |R[0]|, s) && R[0][s].b == SeatB(order, |R[0]|, s);
      RoundOneIsPaired(order, R, level, s + 1);
      if s >= byes {
        var i := 2 * s - byes;
        assert LevelsOf(order[i..], level)[2..] == LevelsOf(order[i + 2..], level);
      }
    }
  }

  /** A bracket drawn by level gives its byes to the strongest: whoever skips
      round one is rated at least as high as everyone who plays it. */
  lemma ByesGoToTheStrongest(order: seq<EntrantId>, R: Rounds, level: EntrantId -> int, s: nat, e: EntrantId)
    requires Valid(order, R) && Descending(LevelsOf(order, level))
    requires s < |R[0]| && !R[0][s].IsReady() && e in PlaysRoundOne(order, |R[0]|)
    ensures R[0][s].a.Some? && level(R[0][s].a.value) >= level(e)
  {
    var byes := 2 * |R[0]| - |order|;
    var i :| 0 <= i < |order[byes..]| && order[byes..][i] == e;
    assert order[byes + i] == e;
    assert R[0][s].a == SeatA(order, |R[0]|, s) && R[0][s].b == SeatB(order, |R[0]|, s);
    assert LevelsOf(order, level)[s] >= LevelsOf(order, level)[byes + i];
  }

  lemma RoundOneGapIs(order: seq<EntrantId>, R: Rounds, level: EntrantId -> int)
    requires Valid(order, R)
    ensures RoundOneGap(R[0], level) == PairGap(LevelsOf(PlaysRoundOne(order, |R[0]|), level))
  {
    assert R[0][0..] == R[0];
    RoundOneIsPaired(order, R, level, 0);
  }

  lemma TailDescends(order: seq<EntrantId>, from: nat, level: EntrantId -> int)
    requires from <= |order| && Descending(LevelsOf(order, level))
    ensures Descending(LevelsOf(order[from..], level))
  {
    var all, tail := LevelsOf(order, level), LevelsOf(order[from..], level);
    assert forall i :: 0 <= i < |tail| ==> tail[i] == all[i + from];
  }

  /** Among all brackets where the same entrants play round one, the round-one
      matches of a bracket drawn by level have the least total level gap. */
  lemma DrawnBracketIsFair(
      order: seq<EntrantId>, R: Rounds, order': seq<EntrantId>, R': Rounds, level: EntrantId -> int)
    requires Valid(order, R) && Descending(LevelsOf(order, level)) && Valid(order', R')
    requires multiset(PlaysRoundOne(order, |R[0]|)) == multiset(PlaysRoundOne(order', |R'[0]|))
    ensures RoundOneGap(R[0], level) <= RoundOneGap(R'[0], level)
  {
    var p, q := PlaysRoundOne(order, |R[0]|), PlaysRoundOne(order', |R'[0]|);
    RoundOneGapIs(order, R, level);
    RoundOneGapIs(order', R', level);
    LevelsPermute(p, q, level);
    TailDescends(order, 2 * |R[0]| - |order|, level);
    NeighboursAreFairest(LevelsOf(p, level), LevelsOf(q, level));
  }

  lemma {:induction false} LevelsPermute(p: seq<EntrantId>, q: seq<EntrantId>, level: EntrantId -> int)
    requires multiset(p) == multiset(q)
    ensures multiset(LevelsOf(p, level)) == multiset(LevelsOf(q, level))
    decreases |p|
  {
    assert |multiset(p)| == |p| && |multiset(q)| == |q|;
    if p != [] {
      var i := FindHead(p, q);
      var a, b := q[..i], q[i + 1..];
      LevelsPermute(p[1..], a + b, level);
      assert LevelsOf(p, level) == [level(p[0])] + LevelsOf(p[1..], level);
      assert LevelsOf(q, level) == LevelsOf(a, level) + [level(q[i])] + LevelsOf(b, level);
      assert LevelsOf(a + b, level) == LevelsOf(a, level) + LevelsOf(b, level);
    }
  }

  // ---------- every draw ----------

  /** The rating of every entrant of the list, by id. No level counts as 3. */
  ghost predicate RatedBy(entrants: seq<Entrant>, level: EntrantId -> int) {
    forall e :: e in entrants ==> level(e.id) == if e.skill.Some? then e.skill.value else 3
  }

  lemma DrawDescends(entrants: seq<Entrant>, shuffled: seq<Entrant>, level: EntrantId -> int)
    requires multiset(shuffled) == multiset(entrants) && RatedBy(entrants, level)
    ensures Descending(LevelsOf(Ids(DrawOrder(shuffled)), level))
  {
    var draw := DrawOrder(shuffled);
    DrawIsByLevel(entrants, shuffled, 0);
    forall i | 0 <= i < |draw| ensures LevelsOf(Ids(draw), level)[i] == Levels(draw)[i] {
      assert draw[i] in multiset(draw);
    }
    assert LevelsOf(Ids(draw), level) == Levels(draw);
  }

  lemma DrawIsABracket(entrants: seq<Entrant>, shuffled: seq<Entrant>, ids: (nat, nat) -> MatchId)
    requires 2 <= |entrants| <= MAX_ENTRANTS && DistinctField(entrants)
    requires multiset(shuffled) == multiset(entrants) && Supply(ids, |entrants|)
    ensures var order := Ids(DrawOrder(shuffled));
      |order| == |entrants| && multiset(order) == multiset(Ids(entrants)) && Valid(order, Blank(order, ids))
  {
    var order := Ids(DrawOrder(shuffled));
    DrawIsByLevel(entrants, shuffled, 0);
    IdsPermute(DrawOrder(shuffled), entrants);
    PermutationKeepsNoDup(Ids(entrants), order);
    BlankIsValid(order, ids);
  }

  /** Whoever skips round one is rated at least as high as everyone in it. */
  ghost predicate ByesAreStrongest(order: seq<EntrantId>, R: Rounds, level: EntrantId -> int)
    requires Valid(order, R)
  {
    forall s: nat, e :: s < |R[0]| && !R[0][s].IsReady() && e in PlaysRoundOne(order, |R[0]|) ==>
      R[0][s].a.Some? && level(R[0][s].a.value) >= level(e)
  }

  /** No bracket with the same entrants in round one has a smaller total gap. */
  ghost predicate NoneIsFairer(order: seq<EntrantId>, R: Rounds, level: EntrantId -> int)
    requires Valid(order, R)
  {
    forall order', R' ::
      (Valid(order', R') && multiset(PlaysRoundOne(order, |R[0]|)) == multiset(PlaysRoundOne(order', |R'[0]|)))
      ==> RoundOneGap(R[0], level) <= RoundOneGap(R'[0], level)
  }

  /** For every field and every outcome of the shuffle, the generated bracket is
      over exactly the entrants, its byes are with the strongest, and no bracket
      with the same entrants in round one has closer round-one matches. */
  lemma EveryDrawIsFair(
      entrants: seq<Entrant>, shuffled: seq<Entrant>, ids: (nat, nat) -> MatchId, level: EntrantId -> int)
    requires 2 <= |entrants| <= MAX_ENTRANTS && DistinctField(entrants) && RatedBy(entrants, level)
    requires multiset(shuffled) == multiset(entrants) && Supply(ids, |entrants|)
    ensures |Ids(DrawOrder(shuffled))| == |entrants|
    ensures var order := Ids(DrawOrder(shuffled)); var R := Blank(order, ids);
      && Valid(order, R) && multiset(order) == multiset(Ids(entrants))
      && ByesAreStrongest(order, R, level)
      && NoneIsFairer(order, R, level)
  {
    DrawIsABracket(entrants, shuffled, ids);
    DrawDescends(entrants, shuffled, level);
    var order := Ids(DrawOrder(shuffled));
    var R: Rounds := Blank(order, ids);
    forall s: nat, e: EntrantId | s < |R[0]| && !R[0][s].IsReady() && e in PlaysRoundOne(order, |R[0]|)
      ensures R[0][s].a.Some? && level(R[0][s].a.value) >= level(e)
    {
      ByesGoToTheStrongest(order, R, level, s, e);
    }
    forall order': seq<EntrantId>, R': Rounds |
      Valid(order', R') && multiset(PlaysRoundOne(order, |R[0]|)) == multiset(PlaysRoundOne(order', |R'[0]|))
      ensures RoundOneGap(R[0], level) <= RoundOneGap(R'[0], level)
    {
      DrawnBracketIsFair(order, R, order', R', level);
    }
  }
}
