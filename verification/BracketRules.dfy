/** What every write keeps: the bracket a seed order starts with is valid, a
    result or a cleared result keeps it valid, and the list of changes a write
    returns is all that changed. */
module BracketRules {
  import opened Basics
  import opened Brackets

  // ---------- positions ----------

  lemma NextExists(R: Rounds, r: nat, s: nat)
    requires Halving(R) && At(R, r, s)
    ensures At(R, r + 1, s / 2) <==> r + 1 < |R|
  {
    if r + 1 < |R| {
      assert |R[r + 1 - 1]| == 2 * |R[r + 1]|;
    }
  }

  lemma FeedersExist(R: Rounds, r: nat, s: nat)
    requires Halving(R) && At(R, r, s) && r > 0
    ensures At(R, r - 1, 2 * s) && At(R, r - 1, 2 * s + 1)
  {
  }

  /** A later match shows the winners of the two slots that feed it. */
  lemma SidesAreFeederWinners(order: seq<EntrantId>, R: Rounds, r: nat, s: nat)
    requires Valid(order, R) && At(R, r, s) && r > 0
    ensures At(R, r - 1, 2 * s) && At(R, r - 1, 2 * s + 1)
    ensures R[r][s].a == R[r - 1][2 * s].winner
    ensures R[r][s].b == R[r - 1][2 * s + 1].winner
  {
    FeedersExist(R, r, s);
    assert Fed(R, r - 1, 2 * s);
    assert Fed(R, r - 1, 2 * s + 1);
  }

  lemma LocateFinds(R: Rounds, r: nat, s: nat)
    requires DistinctIds(R) && At(R, r, s)
    ensures Locate(R, R[r][s].id) == Some((r, s))
  {
    var p := Locate(R, R[r][s].id);
    assert p.Some?;
  }

  // ---------- one write ----------

  /** A write touches the winner of one match and one side of the next. */
  lemma SetWinnerAt(R: Rounds, r: nat, s: nat, w: Option<EntrantId>)
    requires At(R, r, s)
    ensures var R' := SetWinner(R, r, s, w);
      && |R'| == |R|
      && (forall i :: 0 <= i < |R| ==> |R'[i]| == |R[i]|)
      && (forall i, j :: At(R, i, j) <==> At(R', i, j))
      && R'[r][s] == R[r][s].(winner := w)
      && (At(R, r + 1, s / 2) ==> R'[r + 1][s / 2] == R[r + 1][s / 2].WithSide(s, w))
      && (forall i, j :: At(R, i, j) && !(i == r && j == s) && !(i == r + 1 && j == s / 2)
            ==> R'[i][j] == R[i][j])
  {
  }

  /** The guard of a write: the match is ready, the new winner is one of its
      sides or nobody, and the next match is undecided. */
  ghost predicate Writable(R: Rounds, r: nat, s: nat, w: Option<EntrantId>)
    requires At(R, r, s)
  {
    && R[r][s].IsReady()
    && (w == None || w == R[r][s].a || w == R[r][s].b)
    && !NextIsDecided(R, r, s)
  }

  lemma WriteKeepsFed(R: Rounds, r: nat, s: nat, w: Option<EntrantId>, i: nat, j: nat)
    requires Halving(R) && At(R, r, s) && At(R, i, j) && Fed(R, i, j)
    ensures At(SetWinner(R, r, s, w), i, j) && Fed(SetWinner(R, r, s, w), i, j)
  {
    SetWinnerAt(R, r, s, w);
  }

  /** Each match keeps its place and its id, and stays settled. */
  lemma WriteKeepsSettled(R: Rounds, r: nat, s: nat, w: Option<EntrantId>, i: nat, j: nat)
    requires Grid(R) && At(R, r, s) && Writable(R, r, s, w)
    requires At(R, i, j) && Settled(R[i][j])
    ensures var R' := SetWinner(R, r, s, w);
      && At(R', i, j)
      && R'[i][j].id == R[i][j].id && R'[i][j].round == i + 1 && R'[i][j].slot == j
      && Settled(R'[i][j])
      && (i == 0 ==> R'[i][j].a == R[i][j].a && R'[i][j].b == R[i][j].b)
  {
    SetWinnerAt(R, r, s, w);
  }

  lemma WriteKeepsHalving(R: Rounds, r: nat, s: nat, w: Option<EntrantId>)
    requires Halving(R) && At(R, r, s)
    ensures Halving(SetWinner(R, r, s, w))
  {
    SetWinnerAt(R, r, s, w);
  }

  lemma WriteKeepsValid(order: seq<EntrantId>, R: Rounds, r: nat, s: nat, w: Option<EntrantId>)
    requires Valid(order, R) && At(R, r, s) && Writable(R, r, s, w)
    ensures Valid(order, SetWinner(R, r, s, w))
  {
    var R' := SetWinner(R, r, s, w);
    WriteKeepsHalving(R, r, s, w);
    forall i, j | At(R', i, j)
      ensures At(R, i, j) && Settled(R'[i][j]) && Fed(R', i, j)
      ensures R'[i][j].id == R[i][j].id && R'[i][j].round == i + 1 && R'[i][j].slot == j
      ensures i == 0 ==> R'[i][j].a == R[i][j].a && R'[i][j].b == R[i][j].b
    {
      SetWinnerAt(R, r, s, w);
      assert Fed(R, i, j);
      WriteKeepsSettled(R, r, s, w, i, j);
      WriteKeepsFed(R, r, s, w, i, j);
    }
    assert forall i, j, i', j' ::
      At(R', i, j) && At(R', i', j') && R'[i][j].id == R'[i'][j'].id ==> i == i' && j == j';
    assert |R'[0]| == |R[0]| by { SetWinnerAt(R, r, s, w); }
    forall j | 0 <= j < |R'[0]|
      ensures R'[0][j].a == SeatA(order, |R[0]|, j) && R'[0][j].b == SeatB(order, |R[0]|, j)
    {
      assert At(R', 0, j);
    }
  }

  lemma SameIdsAfterWrite(R: Rounds, r: nat, s: nat, w: Option<EntrantId>)
    requires At(R, r, s)
    ensures SameIds(R, SetWinner(R, r, s, w))
  {
    SetWinnerAt(R, r, s, w);
  }

  /** The same match ids in the same places. */
  ghost predicate SameIds(R: Rounds, R': Rounds) {
    && |R| == |R'|
    && (forall i :: 0 <= i < |R| ==> |R[i]| == |R'[i]|)
    && (forall i, j :: At(R, i, j) ==> R[i][j].id == R'[i][j].id)
  }

  // ---------- the two operations ----------

  /** `report` accepts exactly a side of a ready match whose next match is
      undecided, and then the bracket stays a bracket of the same field. */
  lemma ReportIsSafe(order: seq<EntrantId>, R: Rounds, id: MatchId, winner: EntrantId)
    requires Valid(order, R)
    ensures Reported(R, id, winner).Ok? <==>
            exists r: nat, s: nat :: At(R, r, s) && R[r][s].id == id
              && (R[r][s].a == Some(winner) || R[r][s].b == Some(winner))
              && Writable(R, r, s, Some(winner))
    ensures Reported(R, id, winner).Ok? ==>
            Valid(order, Reported(R, id, winner).value.rounds)
            && SameIds(R, Reported(R, id, winner).value.rounds)
  {
    if r: nat, s: nat :|
      && At(R, r, s) && R[r][s].id == id
      && (R[r][s].a == Some(winner) || R[r][s].b == Some(winner))
      && Writable(R, r, s, Some(winner))
    {
      LocateFinds(R, r, s);
    }
    if Reported(R, id, winner).Ok? {
      var (r, s) := Locate(R, id).value;
      assert Writable(R, r, s, Some(winner));
      WriteKeepsValid(order, R, r, s, Some(winner));
      SameIdsAfterWrite(R, r, s, Some(winner));
    }
  }

  lemma ClearIsSafe(order: seq<EntrantId>, R: Rounds, id: MatchId)
    requires Valid(order, R)
    ensures Cleared(R, id).Ok? <==>
            exists r: nat, s: nat :: At(R, r, s) && R[r][s].id == id && R[r][s].IsReady()
              && (R[r][s].winner.None? || Writable(R, r, s, None))
    ensures Cleared(R, id).Ok? ==>
            Valid(order, Cleared(R, id).value.rounds) && SameIds(R, Cleared(R, id).value.rounds)
  {
    if r: nat, s: nat :|
      && At(R, r, s) && R[r][s].id == id && R[r][s].IsReady()
      && (R[r][s].winner.None? || Writable(R, r, s, None))
    {
      LocateFinds(R, r, s);
    }
    if Cleared(R, id).Ok? && Locate(R, id).Some? {
      var (r, s) := Locate(R, id).value;
      if R[r][s].winner.Some? {
        assert Writable(R, r, s, None);
        WriteKeepsValid(order, R, r, s, None);
        SameIdsAfterWrite(R, r, s, None);
      }
    }
  }

  // ---------- whole runs ----------

  /** What an admin enters: a result, or the removal of one. */
  datatype Op = OpReport(id: MatchId, winner: EntrantId) | OpClear(id: MatchId)

  function Apply(R: Rounds, op: Op): Result<Edit, BracketError> {
    match op
    case OpReport(id, winner) => Reported(R, id, winner)
    case OpClear(id) => Cleared(R, id)
  }

  /** The bracket after one operation. A refused one changes nothing. */
  function After(R: Rounds, op: Op): Rounds {
    match Apply(R, op)
    case Ok(edit) => edit.rounds
    case Err(_) => R
  }

  function Run(R: Rounds, ops: seq<Op>): Rounds {
    if ops == [] then R else After(Run(R, ops[..|ops| - 1]), ops[|ops| - 1])
  }

  lemma StepKeepsValid(order: seq<EntrantId>, R: Rounds, op: Op)
    requires Valid(order, R)
    ensures Valid(order, After(R, op)) && SameIds(R, After(R, op))
  {
    match op {
      case OpReport(id, winner) => ReportIsSafe(order, R, id, winner);
      case OpClear(id) => ClearIsSafe(order, R, id);
    }
  }

  /** The feed invariant over every run of accepted and refused operations. */
  lemma {:induction false} RunKeepsValid(order: seq<EntrantId>, R: Rounds, ops: seq<Op>)
    requires Valid(order, R)
    ensures Valid(order, Run(R, ops)) && SameIds(R, Run(R, ops))
    decreases |ops|
  {
    if ops != [] {
      RunKeepsValid(order, R, ops[..|ops| - 1]);
      StepKeepsValid(order, Run(R, ops[..|ops| - 1]), ops[|ops| - 1]);
    }
  }

  lemma {:induction false} RunAppend(R: Rounds, ops: seq<Op>, more: seq<Op>)
    ensures Run(R, ops + more) == Run(Run(R, ops), more)
    decreases |more|
  {
    if more == [] {
      assert ops + more == ops;
    } else {
      var last := |more| - 1;
      assert (ops + more)[..|ops + more| - 1] == ops + more[..last];
      RunAppend(R, ops, more[..last]);
    }
  }

  // ---------- the start ----------

  lemma BlankIsHalving(order: seq<EntrantId>, ids: (nat, nat) -> MatchId)
    requires |order| >= 2
    ensures Halving(Blank(order, ids))
    ensures forall r, s :: At(Blank(order, ids), r, s) ==> InShape(|order|, r, s)
  {
    var R := Blank(order, ids);
    var k := Log2Ceil(|order|);
    forall r | 0 < r < |R| ensures |R[r - 1]| == 2 * |R[r]| {
      assert R[r - 1] == BlankRound(order, ids, r - 1) && R[r] == BlankRound(order, ids, r);
      assert Pow2(k - 1 - (r - 1)) == 2 * Pow2(k - 1 - r);
    }
    assert R[k - 1] == BlankRound(order, ids, k - 1);
    forall r, s | At(R, r, s) ensures InShape(|order|, r, s) {
      assert R[r] == BlankRound(order, ids, r);
    }
  }

  /** Before a result, round one hands on its byes and nothing else moves. */
  lemma BlankIsValid(order: seq<EntrantId>, ids: (nat, nat) -> MatchId)
    requires 2 <= |order| <= MAX_ENTRANTS && NoDup(order) && Supply(ids, |order|)
    ensures Valid(order, Blank(order, ids))
    ensures !HasResults(Blank(order, ids))
  {
    var R := Blank(order, ids);
    BlankIsHalving(order, ids);
    forall r, s | At(R, r, s)
      ensures R[r][s].round == r + 1 && R[r][s].slot == s && Settled(R[r][s])
      ensures !R[r][s].IsPlayed() && R[r][s].id == ids(r, s)
    {
      assert R[r] == BlankRound(order, ids, r);
    }
    assert R[0] == BlankRound(order, ids, 0);
    forall r, s | At(R, r, s) ensures Fed(R, r, s) {
      BlankIsFed(order, ids, r, s);
    }
  }

  lemma BlankIsFed(order: seq<EntrantId>, ids: (nat, nat) -> MatchId, r: nat, s: nat)
    requires |order| >= 2 && At(Blank(order, ids), r, s)
    ensures Fed(Blank(order, ids), r, s)
  {
    var R := Blank(order, ids);
    BlankIsHalving(order, ids);
    NextExists(R, r, s);
    assert R[r] == BlankRound(order, ids, r);
    if r + 1 < |R| {
      assert R[r + 1] == BlankRound(order, ids, r + 1);
    }
  }

  // ---------- the changes a write returns ----------

  /** The rows of the matches table: one row per match, keyed by its id. */
  type MatchTable = map<MatchId, Match>

  ghost predicate Stores(rows: MatchTable, R: Rounds) {
    && (forall r, s :: At(R, r, s) ==> R[r][s].id in rows && rows[R[r][s].id] == R[r][s])
    && (forall id :: id in rows ==> Locate(R, id).Some?)
  }

  function Overlay(rows: MatchTable, ms: seq<Match>): MatchTable
    decreases |ms|
  {
    if ms == [] then rows else Overlay(rows[ms[0].id := ms[0]], ms[1..])
  }

  lemma OverlayOne(rows: MatchTable, m: Match)
    ensures Overlay(rows, [m]) == rows[m.id := m]
  {
    assert Overlay(rows[m.id := m], []) == rows[m.id := m];
  }

  lemma OverlayTwo(rows: MatchTable, m: Match, n: Match)
    ensures Overlay(rows, [m, n]) == rows[m.id := m][n.id := n]
  {
    assert [m, n][1..] == [n];
    OverlayOne(rows[m.id := m], n);
  }

  /** Overlaying the returned changes on the old rows gives the new rows. */
  lemma WriteOverlay(R: Rounds, rows: MatchTable, r: nat, s: nat, w: Option<EntrantId>)
    requires DistinctIds(R) && At(R, r, s) && Stores(rows, R)
    ensures Stores(Overlay(rows, ChangedMatches(SetWinner(R, r, s, w), r, s)), SetWinner(R, r, s, w))
  {
    var R' := SetWinner(R, r, s, w);
    SetWinnerAt(R, r, s, w);
    var m: Match := R'[r][s];
    var rows': MatchTable := rows[m.id := m];
    if At(R, r + 1, s / 2) {
      var n := R'[r + 1][s / 2];
      rows' := rows'[n.id := n];
      OverlayTwo(rows, m, n);
      assert ChangedMatches(R', r, s) == [m, n];
    } else {
      OverlayOne(rows, m);
      assert ChangedMatches(R', r, s) == [m];
    }
    forall i, j | At(R', i, j) ensures R'[i][j].id in rows' && rows'[R'[i][j].id] == R'[i][j] {
      assert At(R, i, j) && R'[i][j].id == R[i][j].id;
    }
    forall id | id in rows' ensures Locate(R', id).Some? {
      var (i, j) := if id in rows then Locate(R, id).value
                    else if id == m.id then (r, s) else (r + 1, s / 2);
      assert At(R', i, j) && R'[i][j].id == id;
    }
  }

  lemma WriteFrame(R: Rounds, r: nat, s: nat, w: Option<EntrantId>)
    requires At(R, r, s)
    ensures var R' := SetWinner(R, r, s, w);
      && (forall i, j :: At(R, i, j) && R[i][j] != R'[i][j] ==> R'[i][j] in ChangedMatches(R', r, s))
      && (forall m :: m in ChangedMatches(R', r, s) ==>
            m == R'[r][s] || (At(R', r + 1, s / 2) && m == R'[r + 1][s / 2]))
  {
    SetWinnerAt(R, r, s, w);
    var R' := SetWinner(R, r, s, w);
    assert ChangedMatches(R', r, s)[0] == R'[r][s];
    if At(R', r + 1, s / 2) {
      assert ChangedMatches(R', r, s)[1] == R'[r + 1][s / 2];
    }
  }

  /** An accepted operation is one write, or it changes nothing. */
  lemma AcceptedIsOneWrite(R: Rounds, op: Op)
    requires Apply(R, op).Ok?
    ensures Locate(R, op.id).Some?
    ensures var (r, s) := Locate(R, op.id).value;
      var w := if op.OpReport? then Some(op.winner) else None;
      || Apply(R, op).value == Edit(R, [])
      || (&& Apply(R, op).value == Edit(SetWinner(R, r, s, w), ChangedMatches(SetWinner(R, r, s, w), r, s))
          && Writable(R, r, s, w))
  {
  }

  /** The list an operation returns holds every match that differs, as it is
      now, and laid over the old rows it gives exactly the new rows. */
  lemma ChangesAreTheFrame(order: seq<EntrantId>, R: Rounds, op: Op, rows: MatchTable)
    requires Valid(order, R) && Apply(R, op).Ok? && Stores(rows, R)
    ensures var edit := Apply(R, op).value;
      && SameIds(R, edit.rounds)
      && (forall i, j :: At(R, i, j) && R[i][j] != edit.rounds[i][j]
            ==> edit.rounds[i][j] in edit.changed)
      && (forall m :: m in edit.changed ==> Locate(edit.rounds, m.id).Some?)
      && Stores(Overlay(rows, edit.changed), edit.rounds)
  {
    AcceptedIsOneWrite(R, op);
    var (r, s) := Locate(R, op.id).value;
    var w := if op.OpReport? then Some(op.winner) else None;
    SameIdsAfterWrite(R, r, s, w);
    WriteFrame(R, r, s, w);
    WriteOverlay(R, rows, r, s, w);
  }

  // ---------- every answer ----------

  /** The bracket with this winner entered or taken out, place by place, and the
      list of the one or two matches that a change names. */
  ghost predicate Entered(R: Rounds, r: nat, s: nat, w: Option<EntrantId>, edit: Edit)
    requires At(R, r, s)
  {
    && |edit.rounds| == |R| && (forall i :: 0 <= i < |R| ==> |edit.rounds[i]| == |R[i]|)
    && (forall i, j :: At(R, i, j) && !(i == r && j == s) && !(i == r + 1 && j == s / 2) ==>
          edit.rounds[i][j] == R[i][j])
    && edit.rounds[r][s] == R[r][s].(winner := w)
    && (At(R, r + 1, s / 2) ==>
          && edit.rounds[r + 1][s / 2] ==
               (if s % 2 == 0 then R[r + 1][s / 2].(a := w) else R[r + 1][s / 2].(b := w))
          && edit.changed == [edit.rounds[r][s], edit.rounds[r + 1][s / 2]])
    && (!At(R, r + 1, s / 2) ==> edit.changed == [edit.rounds[r][s]])
  }

  /** Every answer of a report: no such match, a side that is missing, a winner who
      does not play, a next match that is decided, or the result. */
  lemma ReportAnswers(R: Rounds, id: MatchId, winner: EntrantId, r: nat, s: nat)
    requires DistinctIds(R)
    ensures (forall i, j :: At(R, i, j) ==> R[i][j].id != id) ==> Reported(R, id, winner) == Err(UnknownMatch(id))
    ensures At(R, r, s) && R[r][s].id == id ==>
              var m, answer := R[r][s], Reported(R, id, winner);
              var plays := m.a == Some(winner) || m.b == Some(winner);
              var later := At(R, r + 1, s / 2) && R[r + 1][s / 2].winner != None;
              && (m.a == None || m.b == None ==> answer == Err(NotReady(id)))
              && (m.a != None && m.b != None && !plays ==> answer == Err(NotAParticipant(winner, id)))
              && (m.a != None && m.b != None && plays && later ==> answer == Err(NextDecided(id)))
              && (m.a != None && m.b != None && plays && !later ==>
                    answer.Ok? && Entered(R, r, s, Some(winner), answer.value))
  {
    if At(R, r, s) && R[r][s].id == id {
      LocateFinds(R, r, s);
      SetWinnerAt(R, r, s, Some(winner));
    }
  }

  /** Every answer of a clear. A match without a winner is left alone. */
  lemma ClearAnswers(R: Rounds, id: MatchId, r: nat, s: nat)
    requires DistinctIds(R)
    ensures (forall i, j :: At(R, i, j) ==> R[i][j].id != id) ==> Cleared(R, id) == Err(UnknownMatch(id))
    ensures At(R, r, s) && R[r][s].id == id ==>
              var m, answer := R[r][s], Cleared(R, id);
              var later := At(R, r + 1, s / 2) && R[r + 1][s / 2].winner != None;
              && (m.a == None || m.b == None ==> answer == Err(NotReady(id)))
              && (m.a != None && m.b != None && m.winner == None ==> answer == Ok(Edit(R, [])))
              && (m.a != None && m.b != None && m.winner != None && later ==> answer == Err(NextDecided(id)))
              && (m.a != None && m.b != None && m.winner != None && !later ==>
                    answer.Ok? && Entered(R, r, s, None, answer.value))
  {
    if At(R, r, s) && R[r][s].id == id {
      LocateFinds(R, r, s);
      SetWinnerAt(R, r, s, None);
    }
  }
}
