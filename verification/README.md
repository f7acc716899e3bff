# Single elimination tournaments: a verified model

This project models the tournament engine of Bunker and the protocol that
stores it, and proves what the two promise.

A bracket is a tree of matches kept round by round. It is generated from a
seed order, changed in place by results, and rebuilt from rows. Its invariant
(`Brackets.Valid`) says that each later side is the winner of its feeder, each
winner is a side, a bye holds its own winner, and round one is the seed order.
`BracketRuns.ValidMeansReachable` shows that this invariant is exact: it
describes the brackets that results can reach and no others.

The store is a set of tables with guarded writes. A request is a state machine:
it begins, reads the tournament, the entrants and the matches in separate
steps, decides on that snapshot, and commits one write. `Protocol.Next` lets
the steps of any number of requests interleave freely, together with scans at
the door, removals of events, players and tournaments, and adjustments.
`WorldInvariant.WorldOk` holds after every such run, and the module
`Guarantees` says what follows. `Histories` shows that every run is linear: the
stored bracket is the generated one with the committed results entered in the
order of their commits. `Sequential` says what holds besides when no commit is
overtaken. For three rules that can fail otherwise, `Rules` gives the exact
condition on the commit, `Overtaking` the runs that break them, and `Arrivals`
shows that these runs start in worlds the store reaches.

| modules | content |
|---|---|
| `Basics`, `Brackets`, `Entrants` | sequences, sorting, powers of two; the bracket as data, its operations and its invariant |
| `BracketRules`, `Elimination`, `BracketRuns` | what one operation keeps; single elimination; whole runs, counting and reachability |
| `BracketObjects` | the class `Bracket` with its methods, generation and grouping of rows |
| `Seeding`, `Points`, `Payouts` | the draw by level; the awards of a tournament, and the same in numbers |
| `Tables`, `Store` | each guarded write as a function on tables, and the class `Database` whose methods do it step by step |
| `Protocol`, `StoreInvariants`, `StoreWrites`, `WorldInvariant`, `WorldSteps` | requests, steps and the invariant that every step keeps |
| `Decisions`, `Guards`, `WholeRequests`, `Door` | the decision table of the service, the answers of the store over raw columns, and whole requests that run alone |
| `Balances` | the ledger as an account book |
| `Guarantees`, `Histories`, `Sequential` | the results for every run, and those for runs in order |
| `Rules`, `RequestRuns`, `Overtaking`, `LatePayments`, `Arrivals` | the rules that overtaking can break, when exactly, by which runs, and what is paid |

## Assumptions

- Identifiers are integers, and a new one was never used before: the world
  keeps the set of identifiers it has issued, and `Supply` says that the ids of
  a new bracket are distinct. The source takes random uuids for this.
- The schema in `crates/bunker-api/migrations` is taken as it is written: the
  unique index on (tournament, player), the key of a check-in, the unique award
  key, the cascades, and the player column that becomes null with an account.
  Entrant and match rows are kept inside their tournament, because every
  statement on them names it. The checks and foreign keys on matches are not
  enforced by the model; that they hold is proved.
- A statement, or a `BEGIN IMMEDIATE` transaction, is one step. A transaction
  that fails changes nothing.
- A shuffle is any permutation of the list, and the time is a number.

## Where the code and its documentation differ

`set_status` checks the status again when it writes, but not the bracket its
decision was made on, and `replace_bracket` checks that the entrants it names
are still there, but not that no one came in. Three rules that the guards
stand for hold when requests do not overtake each other (`Sequential`) and can
fail when they do: "the final names the winner", "a bracket exists only in a
live or concluded tournament", and "every entrant, one time". The model follows
the code.

For each rule `Rules` proves, over every step, that it breaks exactly when one
kind of late commit happens, named by rows that are stored at that moment; and
that all three hold throughout a run if and only if no step of it is such a
commit. `Overtaking` and `Arrivals` give the failing runs from the empty store,
for fields of every size. What `concluded` promises (no later change and no
second payment) holds under every interleaving.

## Model

| member | source | states |
|---|---|---|
| `BracketObjects.Bracket.Generate` | crates/bunker-models/src/bracket.rs:77-139 | refuses fewer than 2 and more than 256 entrants with the count; otherwise a fresh bracket equal to the independent definition `Blank`, which for distinct entrants is a valid bracket of that seed order without results |
| `BracketObjects.FirstRound` | crates/bunker-models/src/bracket.rs:92-106 | consuming the seed order from the front gives round one of `Blank`: byes in the first slots, already won |
| `BracketObjects.LaterRounds` | crates/bunker-models/src/bracket.rs:108-124 | the later rounds have `size >> round` empty matches each, numbered from 0 |
| `BracketObjects.Bracket.FeedByes` | crates/bunker-models/src/bracket.rs:126-136 | after the feeding loop every bye winner sits in round two and nothing else moved |
| `BracketObjects.ByeWinnersAre` | crates/bunker-models/src/bracket.rs:126-130 | the bye winners are exactly the first `size - count` entrants of the order, in slot order |
| `BracketRules.BlankIsValid` | crates/bunker-models/src/bracket.rs:69-139 | every generated bracket meets the invariant, and has no result |
| `BracketRuns.GeneratedShape` | crates/bunker-models/src/bracket.rs:85-124 | for every 2 <= n <= 256: log2(size) rounds of size/2^r matches, size-1 in all, a side a in every round-one match, byes in exactly the first size-n slots, every entrant on exactly one round-one side |
| `BracketRuns.ShapeOfField` | crates/bunker-models/src/bracket.rs:85-124 | the number of rounds and matches of any valid bracket follow from n alone |
| `Basics.NextPowerOfTwoIs` | crates/bunker-models/src/bracket.rs:85 | the next power of two of n is 2^k for the one k with 2^(k-1) < n <= 2^k |
| `BracketObjects.Bracket.Feed` | crates/bunker-models/src/bracket.rs:272-280 | the one side this slot feeds has the entrant now; the other side, the id, the place and the winner of that match, every other match and all sizes are as before, and nothing changes when there is no next match |
| `BracketObjects.Bracket.Report` | crates/bunker-models/src/bracket.rs:193-212 | the result, or the first refusal in the order of the checks with the bracket untouched; a valid bracket stays valid for the same seed order with the same match ids |
| `BracketObjects.Bracket.Clear` | crates/bunker-models/src/bracket.rs:216-235 | the same for `clear`, where a match without a winner answers an empty change list |
| `BracketRules.ReportIsSafe` | crates/bunker-models/src/bracket.rs:193-212 | in a valid bracket `report` is accepted if and only if the match exists, the winner is one of its two sides, both sides are known and the next match is undecided; what it gives is valid |
| `BracketRules.ClearIsSafe` | crates/bunker-models/src/bracket.rs:216-235 | `clear` is accepted if and only if the match exists, is ready, and is without a winner or has an undecided next match; what it gives is valid |
| `BracketRules.SidesAreFeederWinners` | crates/bunker-models/src/bracket.rs:42-48 | both feeders of a later match exist, and its sides are their winners |
| `BracketRules.LocateFinds` | crates/bunker-models/src/bracket.rs:237-248 | ids are distinct, so the search by id finds exactly the match at that place |
| `BracketRules.SetWinnerAt` | crates/bunker-models/src/bracket.rs:206-211 | a result touches the match, one side of the next match, and no other place |
| `BracketRules.WriteKeepsValid` | crates/bunker-models/src/bracket.rs:258-280 | setting or removing a winner behind the guard keeps feed consistency, winners that are sides, byes and the order of decisions |
| `BracketRules.StepKeepsValid` | crates/bunker-models/src/bracket.rs:193-235 | one operation, accepted or refused, keeps a valid bracket of the same order and ids |
| `BracketRules.RunKeepsValid` | crates/bunker-models/src/bracket.rs:193-235 | so does every sequence of reports and clears |
| `BracketRules.AcceptedIsOneWrite` | crates/bunker-models/src/bracket.rs:193-235 | an accepted operation changes nothing or is one guarded write with its list of changes |
| `BracketRules.ChangesAreTheFrame` | crates/bunker-models/src/bracket.rs:190-192 | the returned list holds every match that differs, and laying it over the old rows by id gives exactly the rows of the new bracket |
| `BracketObjects.Bracket.FromMatches` | crates/bunker-models/src/bracket.rs:141-175 | accepts a list if and only if some grid (rounds 1 to k, slots 0 to len-1, each round half the one before, one final) has exactly these rows, and answers that grid; otherwise `Malformed` |
| `BracketObjects.GroupByRound` | crates/bunker-models/src/bracket.rs:146-149 | one group per round that occurs, with its rows in the order given |
| `BracketObjects.NextRound` | crates/bunker-models/src/bracket.rs:153-165 | the next group is the next round with slots 0 to len-1, or no grid has these rows |
| `BracketObjects.RoundsInOrder` | crates/bunker-models/src/bracket.rs:150-167 | all groups are rounds 1 to k in slot order, or no grid has these rows |
| `BracketObjects.GroupsAreRounds` | crates/bunker-models/src/bracket.rs:141-167 | grouping and sorting the rows of a grid, in any order, gives back each of its rounds |
| `BracketObjects.GroupedIsGrid` | crates/bunker-models/src/bracket.rs:168-174 | groups that are rounds 1 to k with halving sizes down to one form a grid with exactly the given rows |
| `BracketObjects.RowsDetermineTheGrid` | crates/bunker-models/src/bracket.rs:141-179 | two brackets with the same rows are the same bracket |
| `BracketObjects.RegroupedIs` | crates/bunker-models/src/bracket.rs:141-179 | `from_matches` undoes `flat` whatever the row order |
| `Elimination.SitsUnderHome` | crates/bunker-models/src/bracket.rs:69-76 | whoever sits in a match sits under the round-one slot they started in |
| `Elimination.EntrantsStayInTheirBlock` | crates/bunker-models/src/bracket.rs:69-76 | whoever sits in slot s of round r+1 started in one of the 2^r round-one slots below it |
| `Elimination.OneMatchPerRound` | crates/bunker-models/src/bracket.rs:42-48 | an entrant is in at most one match per round |
| `Elimination.SidesDiffer` | crates/bunker-models/src/bracket.rs:30-40 | a match that is ready has two different entrants |
| `Elimination.WonEveryEarlierRound` | crates/bunker-models/src/bracket.rs:190-192 | who sits in a round won every match on the way there |
| `Elimination.LoserIsOut` | crates/bunker-models/src/bracket.rs:190-192 | who lost a match is in no later round |
| `Elimination.AtMostOneLoss` | crates/bunker-models/src/bracket.rs:36-39 | an entrant loses at most one match |
| `Elimination.ChampionDecidesAll` | crates/bunker-models/src/bracket.rs:186-188 | with a champion every match is decided |
| `Elimination.EveryoneElseLostOnce` | crates/bunker-models/src/bracket.rs:186-188 | with a champion, the champion lost nothing and every other entrant lost exactly one match |
| `Elimination.OpenMatchBelow` | crates/bunker-models/src/bracket.rs:30-34 | below an undecided match there is a ready undecided match |
| `Elimination.FreshReportSucceeds` | crates/bunker-models/src/bracket.rs:193-212 | reporting either side of a ready undecided match succeeds |
| `Elimination.PlayNeverSticks` | crates/bunker-models/src/bracket.rs:186-212 | without a champion there is a match to report, and either side of it is accepted |
| `BracketRuns.TotalMatches` | crates/bunker-models/src/bracket.rs:177-179 | a bracket whose rounds halve has twice the first round less one matches |
| `BracketRuns.ByeCount` | crates/bunker-models/src/bracket.rs:72-75 | there are exactly size-n byes in any valid bracket |
| `BracketRuns.OpenPlusPlayed` | crates/bunker-models/src/bracket.rs:177-188 | undecided and played matches are n-1 together, always |
| `BracketRuns.ChampionMeansNoneOpen` | crates/bunker-models/src/bracket.rs:186-188 | there is a champion if and only if no match is undecided |
| `BracketRuns.RunChangesOpenCount` | crates/bunker-models/src/bracket.rs:193-235 | over any run the undecided matches go down by the fresh reports less the real clears |
| `BracketRuns.ChampionAfterExactlyAllResults` | crates/bunker-models/src/bracket.rs:77-235 | for every n and every run from a generated bracket, there is a champion if and only if exactly n-1 results stand |
| `BracketRuns.PlayOut` | crates/bunker-models/src/bracket.rs:186-235 | every valid bracket can be played to a champion in exactly as many reports as it has undecided matches |
| `BracketRuns.OperationIsOneResult` | crates/bunker-models/src/bracket.rs:193-235 | an accepted operation changes the result of its own match and of no other |
| `BracketRuns.ResultsDetermineTheBracket` | crates/bunker-models/src/bracket.rs:42-48 | two valid brackets of one order with the same ids and the same results are equal |
| `BracketRuns.ClearUndoesFirstReport` | crates/bunker-models/src/bracket.rs:193-235 | clearing a fresh report is accepted and gives back the bracket before it |
| `BracketRuns.NoResultsMeansGenerated` | crates/bunker-models/src/bracket.rs:181-184 | a bracket has no results if and only if it equals the generated one |
| `BracketRuns.ReachableByReports` | crates/bunker-models/src/bracket.rs:190-212 | every valid bracket is reached from the generated one with one report per played match |
| `BracketRuns.ValidMeansReachable` | crates/bunker-models/src/bracket.rs:77-235 | the invariant is exact: a bracket is valid if and only if some run from a generated bracket reaches it |
| `Basics.SortIsStable` | crates/bunker-api/src/services/tournament_service.rs:246-247 | the sort keeps the given order inside one key |
| `Seeding.DrawIsByLevel` | crates/bunker-api/src/services/tournament_service.rs:238-248 | for every shuffle the order is a permutation, descends by level with no level as 3, and keeps the shuffled order inside a level |
| `Seeding.ByesGoToTheStrongest` | crates/bunker-api/src/services/tournament_service.rs:238-241 | who has a bye is rated at least as high as everyone who plays round one |
| `Seeding.NeighboursAreFairest` | crates/bunker-api/src/services/tournament_service.rs:238-241 | pairing a descending list by neighbours has the least total gap of all ways to pair the same levels |
| `Seeding.DrawnBracketIsFair` | crates/bunker-api/src/services/tournament_service.rs:238-250 | the drawn bracket has the least total level gap in round one among all brackets whose round-one players are the same |
| `Seeding.EveryDrawIsFair` | crates/bunker-api/src/services/tournament_service.rs:238-250 | for every field and every shuffle the generated bracket is over exactly the entrants, its byes are with the strongest and no bracket with the same round-one players has a smaller total gap |
| `WorldInvariant.SortAndCompare` | crates/bunker-api/src/services/tournament_service.rs:263-275 | sorting both lists by id and comparing accepts exactly the permutations |
| `Entrants.PlayerOfIsInjective` | crates/bunker-models/src/points.rs:419-425 | two entrants of a field with one entry per player are never the same player |
| `Points.SemifinalIsTwo` | crates/bunker-models/src/points.rs:464-474 | the round before the final has two matches and their losers differ |
| `Points.PlacementsDistinct` | crates/bunker-models/src/points.rs:461-480 | champion, finalist and semifinalists are never the same claim |
| `Points.AwardsHaveDistinctKeys` | crates/bunker-models/src/points.rs:406-495 | no two awards of a valid bracket share kind, player and source, decided or not |
| `Points.FinishedBracketPaysAFixedTotal` | crates/bunker-models/src/points.rs:406-482 | a finished bracket of n entrants with accounts pays 40n + 30(n-1) + champion + finalist + s semifinalists at the tier of n, s = 0, 1 or 2 for n = 2, 3 or more |
| `Points.ChampionEarnsTheMost` | crates/bunker-models/src/points.rs:406-482 | the champion earns strictly more than every other entrant, byes or not |
| `Store.Database.AddEntrant` | crates/bunker-api/src/storage/tournament_storage.rs:381-435 | a new row exactly when the status, the deadline, the absence of matches, a free place, no entry of the player and the account allow it, over the raw columns; the answers otherwise; at most 256 rows |
| `Store.Database.SetSkill` | crates/bunker-api/src/storage/tournament_storage.rs:437-473 | answers true exactly when status, deadline and the absence of matches allow it and the player has an entry; then exactly the entries of the player have the level, and every other column, row and field is as it was |
| `Store.Database.RemoveEntrant` | crates/bunker-api/src/storage/tournament_storage.rs:475-508 | answers true exactly when status, deadline and the absence of matches allow it and there is such a row; then exactly that row goes, and a winner column that named it becomes null |
| `Store.Database.RemoveEntrantOf` | crates/bunker-api/src/storage/tournament_storage.rs:510-542 | the same for the entries of a player, who then has none |
| `Store.Database.ReplaceBracket` | crates/bunker-api/src/storage/tournament_storage.rs:563-635 | locked exactly when a stored match has two sides and a winner; otherwise the seeds of the order and exactly the rows of the bracket, or no change at all |
| `Store.Database.DeleteBracket` | crates/bunker-api/src/storage/tournament_storage.rs:637-666 | locked exactly when a stored match has two sides and a winner; otherwise no matches and no seeds, or no change |
| `Store.Database.UpdateMatches` | crates/bunker-api/src/storage/tournament_storage.rs:668-730 | every change whose row still holds the value read, or no change |
| `Store.Database.SetStatus` | crates/bunker-api/src/storage/tournament_storage.rs:257-293 | status, winner and every award, or none of them |
| `Store.Database.InsertAwards` | crates/bunker-api/src/storage/point_storage.rs:163-199 | one row per award in order; the first duplicate key or missing player drops them all |
| `Store.Database.AddAdjustment` | crates/bunker-api/src/storage/point_storage.rs:45-85 | goes through exactly when the account exists and the key is new, and then adds the row with the amount as given: the balance of the player moves by it and no other balance moves |
| `Store.Database.CheckIn` | crates/bunker-api/src/storage/event_storage.rs:299-369 | the check-in and its award or neither; a repeat leaves the store as it was and answers the time on record |
| `Store.Database.RemoveCheckin` | crates/bunker-api/src/storage/event_storage.rs:241-273 | the row of the pair is gone, no check-in entry for the pair remains, every other check-in and ledger row stays, and the answer says if there was one |
| `Store.Database.DeleteEvent` | crates/bunker-api/src/storage/event_storage.rs:230-239 | no check-in and no ledger row names the event any more, and all others stay |
| `Store.Database.EnterResult` | crates/bunker-api/src/services/tournament_service.rs:288-313 | `report_result` and `clear_result` from read to write: the stored rows become those of the operation on the stored bracket, or nothing changes and the answer is the error of the operation |
| `Store.FreshResultCommits` | crates/bunker-api/src/services/tournament_service.rs:408-429 | changes computed on the rows as they are pass the compare-and-set and store the new bracket |
| `StoreInvariants.ReadGivesStoredBracket` | crates/bunker-api/src/services/tournament_service.rs:330-337 | reading the rows in any order and grouping them gives the stored bracket |
| `StoreInvariants.ReadGivesEveryEntrant` | crates/bunker-api/src/storage/tournament_storage.rs:306-330 | a read with limit 256 returns every entrant once |
| `StoreInvariants.SamePlacesMeansSameIds` | crates/bunker-api/src/storage/tournament_storage.rs:668-672 | a snapshot and the stored rows that share one match share all of them, place by place |
| `StoreInvariants.ResultPairs` | crates/bunker-api/src/services/tournament_service.rs:416-419 | the change list pairs each changed match with the same match as read |
| `StoreInvariants.CommittedResultIsAtomic` | crates/bunker-api/src/storage/tournament_storage.rs:668-730 | if the compare-and-set of a snapshot of any age passes, the operation is accepted on the stored bracket too and its effect is what is written |
| `StoreInvariants.MatchedSnapshot` | crates/bunker-api/src/storage/tournament_storage.rs:700-724 | the guarded columns pin what the guard of `report` and `clear` needs to know about the next match |
| `StoreWrites.ReplaceBracketKeeps` | crates/bunker-api/src/storage/tournament_storage.rs:563-635 | a rebuild stores a valid bracket with seeds that are its places |
| `StoreWrites.UpdateMatchesKeeps` | crates/bunker-api/src/storage/tournament_storage.rs:668-730 | a result keeps the rows of a tournament a valid bracket |
| `StoreWrites.WriteTourKeeps` | crates/bunker-api/src/storage/tournament_storage.rs:375-760 | every write of the service keeps field size, one entry per player, the stored bracket and its seeds |
| `WorldInvariant.BuiltOrderIsThePermutation` | crates/bunker-api/src/services/tournament_service.rs:238-278 | a rebuild names exactly the entrants that were read, each one time |
| `WorldInvariant.DecisionIsSound` | crates/bunker-api/src/services/tournament_service.rs:238-313 | whatever a request read and however long ago, the write it decides on is sound for the store as it is |
| `WorldSteps.PlannedAwardsAreSound` | crates/bunker-api/src/services/tournament_service.rs:361-389 | the awards of any planned move have distinct keys and belong to the tournament |
| `WorldSteps.NothingPaidBeforeTheEnd` | crates/bunker-api/src/storage/point_storage.rs:163-165 | no key of a tournament that is not concluded is in the ledger yet |
| `WorldSteps.FreshKeysNeverCollide` | crates/bunker-api/src/storage/point_storage.rs:163-199 | with new and distinct keys the unique index never refuses |
| `WorldSteps.CheckInOutcome` | crates/bunker-api/src/storage/event_storage.rs:299-369 | a check-in that is new never trips the award key, and adds exactly its row and its entry |
| `WorldSteps.NextKeepsWorld` | crates/bunker-api/src/services/tournament_service.rs:114-313 | every step of every request keeps the invariant of the store, the ledger and the snapshots in flight |
| `WorldSteps.PlayKeepsWorld` | crates/bunker-api/src/services/tournament_service.rs:114-313 | so does every interleaving of any number of requests |
| `Guarantees.StoredMatchesAreABracket` | crates/bunker-api/src/storage/tournament_storage.rs:563-730 | in every reachable world the match rows of a tournament are none or a valid bracket |
| `Guarantees.NamedEntrantsHaveRows` | crates/bunker-api/migrations/20260911092707_tournaments.sql:37-51 | every entrant a stored match names is a row of the tournament, so the foreign keys of the matches hold; seeds are the places of the order |
| `Guarantees.ResultsActAtTheirCommit` | crates/bunker-api/src/services/tournament_service.rs:288-313 | linearization: a result that commits from a stale snapshot does to the stored bracket what the operation does to it at that moment, in the status read, and changes nothing else |
| `Guarantees.StepOnConcluded` | crates/bunker-api/src/services/tournament_service.rs:108-112 | no step writes a concluded tournament or pays for it |
| `Guarantees.ConcludedIsFinal` | README.md:103-107 | the same over every later run: status, deadline, winner, entrants and matches stay, but for accounts that are deleted |
| `Guarantees.GoneStaysGone` | crates/bunker-api/src/services/tournament_service.rs:101-106 | a removed tournament never comes back and leaves no ledger row |
| `Guarantees.ConcludesAtMostOnce` | crates/bunker-api/src/services/tournament_service.rs:108-112 | in any run a tournament concludes at most one time, and only a concluded one has ledger rows |
| `Guarantees.MoveIsAllOrNothing` | crates/bunker-api/src/storage/tournament_storage.rs:257-293 | a move writes the row and every award or nothing, and never trips the unique index |
| `Guarantees.ConclusionPaysInOneStep` | crates/bunker-api/src/services/tournament_service.rs:108-131 | a conclusion that commits adds exactly its planned awards in the same step, none of which was paid before |
| `Guarantees.FieldIsFrozenWhileAMatchExists` | crates/bunker-api/src/storage/tournament_storage.rs:403-410 | while a match is stored no step inserts an entrant, removes one or changes a level |
| `Guarantees.FieldIsBounded` | crates/bunker-api/src/storage/tournament_storage.rs:399-412 | never more than 256 entrants and never two entries of one player |
| `Guarantees.ReadsAreNeverCut` | crates/bunker-api/src/storage/tournament_storage.rs:544-561 | the limit of the reads never drops an entrant or a match |
| `Guarantees.CheckinsMatchTheLedger` | crates/bunker-api/src/storage/event_storage.rs:299-301 | in every reachable world a check-in row exists if and only if the ledger holds exactly one check-in entry for it, of 100 cycles |
| `Guarantees.ReceiptsTellTheTruth` | crates/bunker-api/src/services/event_service.rs:153-189 | a call says it paid if and only if it made the row, and that it activated the player if and only if it did |
| `Sequential.StoredBracketIsUnique` | crates/bunker-models/src/bracket.rs:141-179 | two valid brackets stored by the same rows are equal |
| `Sequential.BuildInOrder` | crates/bunker-api/src/services/tournament_service.rs:446-459 | a rebuild from a current read is over exactly the entrants |
| `Sequential.MoveInOrder` | crates/bunker-api/src/services/tournament_service.rs:347-389 | a move decided on a current read leaves a bracket only in a live tournament, or in a concluded one that names its champion |
| `Sequential.RunsInOrder` | crates/bunker-api/src/services/tournament_service.rs:114-313 | over every run in which no commit is overtaken, a bracket exists only in `live` or `concluded`, over the whole field |
| `Sequential.SeedsAndResultsInOrder` | crates/bunker-api/src/services/tournament_service.rs:253-278 | in such a run the seeds are 1 to n without a gap, and a concluded bracket is decided throughout and names its champion |
| `Sequential.ConclusionPaysTheFieldTotal` | crates/bunker-api/src/services/tournament_service.rs:361-379 | in such a run, concluding a bracket whose entrants all have accounts pays exactly the fixed total of its field |
| `Rules.StepOnTour` | crates/bunker-api/src/storage/tournament_storage.rs:214-730 | any step leaves a tournament as it was, but for accounts that are deleted, or as its own committed write leaves it |
| `Rules.LastRowNamesTheChampion` | crates/bunker-models/src/bracket.rs:186-188 | the stored row of the last round is decided for a winner if and only if that winner is the champion of the stored bracket |
| `Rules.ConclusionIsRightExactlyWhen` | crates/bunker-api/src/services/tournament_service.rs:361-389 | concluding a tournament with a winner, or with none, names the champion of the stored bracket if and only if no match is stored or the row of the last round is decided for that winner |
| `Rules.CommittedConclusionIsRightExactlyWhen` | crates/bunker-api/src/storage/tournament_storage.rs:276-289 | the same for every conclusion that commits in a reachable world, decided on a bracket of any age, on one that was rebuilt since, or on none |
| `Rules.FinalNamesWinnerUnlessLate` | crates/bunker-api/src/storage/tournament_storage.rs:276-289 | over every step, "the final names the winner" breaks if and only if the step commits a conclusion over matches whose last row is not decided for its winner |
| `Rules.BracketOnlyOnceLiveUnlessLate` | crates/bunker-api/src/services/tournament_service.rs:352-355 | over every step, "a bracket only in live or concluded" breaks if and only if the step commits a move from live to open while a match is stored |
| `Rules.RebuildHoldsTheFieldExactlyWhen` | crates/bunker-api/src/storage/tournament_storage.rs:589-605 | a committed rebuild gives every entrant a place if and only if the field has as many rows as the order |
| `Rules.EveryoneSeededUnlessLate` | crates/bunker-api/src/storage/tournament_storage.rs:589-605 | over every step, "every entrant, one time" breaks if and only if the step commits a rebuild for an order of another size than the field |
| `Rules.RulesHoldExactlyInTimelyRuns` | crates/bunker-api/src/services/tournament_service.rs:114-313 | the three rules hold in every world a run passes through if and only if none of its steps is one of these three late commits |
| `Guarantees.EntriesNameAccounts` | crates/bunker-api/migrations/20260911092707_tournaments.sql:22-31 | in every reachable world an entry names an account that exists, or none |
| `Histories.RunsAreLinear` | crates/bunker-api/src/storage/tournament_storage.rs:668-730 | in every reachable world the stored bracket is the one the last rebuild generated with the results committed since then entered in the order of their commits, each of which was accepted and took effect |
| `Histories.ResultIsTold` | crates/bunker-api/src/storage/tournament_storage.rs:668-730 | a committed result of any age appends its operation to that history, and one that changed nothing appends none |
| `LatePayments.PlayKeepsSeats` | crates/bunker-api/src/storage/tournament_storage.rs:700-724 | in every reachable world a snapshot and the stored rows that share a match of round one agree on who plays it |
| `LatePayments.SameAwardsSameBracket` | crates/bunker-models/src/points.rs:406-482 | two brackets of the same matches, one of them finished, pay the same awards only if they are equal, as long as the winners have accounts |
| `LatePayments.ConclusionPaysTheStoredBracketExactlyWhen` | crates/bunker-api/src/services/tournament_service.rs:361-379 | in every reachable world a conclusion whose winners have accounts pays the awards of the stored bracket if and only if that bracket is still the one that was read |
| `RequestRuns.DrawStep` | crates/bunker-api/src/storage/tournament_storage.rs:589-635 | a draw commits over exactly the field it read as long as nobody of it has left |
| `Overtaking.StaleConclusionCommits` | crates/bunker-api/src/storage/tournament_storage.rs:276-289 | a conclusion decided on any snapshot commits whenever the status is still the one read, its winner is still an entrant and no account has gone |
| `Overtaking.ConclusionOvertakenByACorrection` | README.md:109-113 | from every reachable world with a finished live bracket, a run that concludes the tournament with a winner over a bracket without a champion |
| `Overtaking.ConclusionOvertakenByADraw` | README.md:109-113 | from every reachable live world without a bracket, a run that concludes the tournament, with a named winner or none, over a bracket in which nothing was played |
| `Overtaking.ReopeningOvertakenByADraw` | crates/bunker-api/src/services/tournament_service.rs:352-355 | from every reachable live world without a bracket, a run that leaves the tournament open with a bracket |
| `Overtaking.DrawOvertakenByAnEntry` | crates/bunker-api/src/storage/tournament_storage.rs:589-605 | from every reachable live world without a bracket and with a place left, a run whose bracket leaves out an entrant |
| `Arrivals.FieldOf` | crates/bunker-api/src/services/tournament_service.rs:196-217 | for every n up to 256, a run from the empty store to a live tournament with n entrants who have accounts |
| `Arrivals.DrawnField` | crates/bunker-api/src/services/tournament_service.rs:238-251 | for every n from 2 to 256, a run to a generated bracket of n entrants |
| `Arrivals.ResultsAreStored` | crates/bunker-api/src/services/tournament_service.rs:288-313 | whatever results can be entered on a bracket, a run of the store enters them on the stored one |
| `Arrivals.FinishedField` | crates/bunker-api/src/services/tournament_service.rs:288-313 | for every n from 2 to 256, a run to a stored bracket with a champion |
| `Arrivals.TheFinalCanBeOvertaken` | crates/bunker-api/src/storage/tournament_storage.rs:276-289 | for every n from 2 to 256, a reachable world that breaks "the final names the winner" with a winner |
| `Arrivals.NoBracketCanBeOvertaken` | crates/bunker-api/src/storage/tournament_storage.rs:276-289 | for every n from 2 to 256, a reachable world that breaks it without a winner |
| `Arrivals.ReopeningCanBeOvertaken` | crates/bunker-api/src/storage/tournament_storage.rs:276-289 | for every n from 2 to 256, a reachable world with a bracket in an open tournament |
| `Arrivals.DrawCanBeOvertaken` | crates/bunker-api/src/storage/tournament_storage.rs:589-605 | for every n from 2 to 255, a reachable world with an entrant the bracket leaves out |
| `BracketRules.ReportAnswers` | crates/bunker-models/src/bracket.rs:193-212 | every answer of a report in turn: no such match, a missing side, a winner who does not play, a decided next match, or the one or two changed matches column by column |
| `BracketRules.ClearAnswers` | crates/bunker-models/src/bracket.rs:216-235 | every answer of a clear in turn, where a match without a winner is left alone with an empty list |
| `BracketRuns.GeneratedMatches` | crates/bunker-models/src/bracket.rs:69-139 | every column of every generated match: neighbours of the seed order meet, byes have won, and their winners stand in round two |
| `Payouts.AwardsOfABracket` | crates/bunker-models/src/points.rs:406-483 | exactly who is paid what for what reason, in numbers: 40 per entry, 30 per win on the match that was won, and 120/200/300, 70/120/180 and 40/60/90 with cuts at 8 and 16 entrants |
| `Payouts.AwardsWithoutABracket` | crates/bunker-models/src/points.rs:445-449 | without a bracket exactly the entries and the first prize of the entrant who is named |
| `Payouts.TotalWithoutABracket` | crates/bunker-models/src/points.rs:445-449 | the sum of that: 40n and 120, 200 or 300 |
| `Payouts.TakingsInNumbers` | crates/bunker-models/src/points.rs:406-482 | an entrant gets 40, 30 per match won, and the prize of the title, the lost final or a lost semifinal |
| `Payouts.PrizesAre` | crates/bunker-models/src/points.rs:38-58 | the tiers and amounts of the three prizes as numbers for every size of the field |
| `Balances.AdjustmentMovesOneBalance` | crates/bunker-api/src/storage/point_storage.rs:45-85 | an adjustment goes through exactly for a new key of an existing account, and moves that balance by exactly its amount and no other balance |
| `Balances.AwardsRaiseBalances` | crates/bunker-api/src/storage/point_storage.rs:163-199 | awards that go in raise each balance by exactly what they say |
| `Balances.EveryCycleIsAccountedFor` | README.md:117-122 | over every step the balance of every player moves by what the step pays (the awards of a conclusion, 100 at the door, an adjustment) less what it takes back |
| `Balances.BalancesAddUp` | README.md:117-122 | after any run a balance is all that was paid less all that was taken |
| `Guards.EntryAnswers` | crates/bunker-api/src/storage/tournament_storage.rs:395-434 | exactly when an entry goes in, is there already, is refused or has no account, over status, deadline, matches and rows, and the row it makes |
| `Guards.EntryChangeAnswers` | crates/bunker-api/src/storage/tournament_storage.rs:437-542 | exactly when a level changes and an entry goes, over the same columns |
| `Guards.NothingAfterTheDeadline` | crates/bunker-api/src/services/tournament_service.rs:158-194 | in every interleaving, when the registration or retirement of a player commits, the tournament is open, the time it was asked at is before the deadline and no match is stored |
| `Guards.BracketAnswers` | crates/bunker-api/src/storage/tournament_storage.rs:733-761 | exactly when a rebuild and a removal go through, are locked or find the tournament changed, over the raw rows; a refusal changes nothing |
| `Guards.RefusedRebuild` | crates/bunker-api/src/services/tournament_service.rs:583-589 | a played match answers `BracketLocked` and another status `TournamentChanged`, with the store as it was |
| `Guards.RebuildErasesNoResult` | crates/bunker-api/src/storage/tournament_storage.rs:563-566 | in every interleaving, a rebuild or removal commits only when every stored match misses a side or a winner |
| `Guards.ResultsAreOnlyCorrected` | crates/bunker-api/src/storage/tournament_storage.rs:563-730 | over every step, a stored result stays until an operation on the same match commits or the tournament is removed |
| `Guards.FieldAnswers` | crates/bunker-api/src/storage/tournament_storage.rs:212-255 | a deadline that is given is stored in the status expected, and nothing else moves |
| `Guards.MoveAnswers` | crates/bunker-api/src/storage/tournament_storage.rs:257-293 | what a status write asks of the status and the winner, and what it changes |
| `Guards.TourGone` | crates/bunker-api/src/storage/tournament_storage.rs:295-304 | a removed tournament takes its ledger rows and nothing else |
| `Guards.AccountGone` | crates/bunker-api/migrations/20260911092707_tournaments.sql:22-33 | a removed account takes its check-ins and ledger rows, and leaves its entries without a name |
| `Guards.EntryServiceAnswers` | crates/bunker-api/src/services/tournament_service.rs:481-500 | the answer of the service for each outcome of an entry |
| `Guards.ChangedAnswers` | crates/bunker-api/src/services/tournament_service.rs:136-147 | a write that finds another status answers `TournamentChanged` and changes nothing |
| `Decisions.MoveDecision` | crates/bunker-api/src/services/tournament_service.rs:339-389 | for every status, target and named winner: the one write, no write or the one error |
| `Decisions.PlayersDecision` | crates/bunker-api/src/services/tournament_service.rs:322-328 | a registration and a retirement need an open tournament and a time before the deadline; a draft does not show |
| `Decisions.OrganisersDecision` | crates/bunker-api/src/services/tournament_service.rs:560-574 | what an organiser may do to entrants, fields and the bracket, and the error otherwise |
| `Decisions.DrawDecision` | crates/bunker-api/src/services/tournament_service.rs:242-251 | the errors of a draw in their order, and the order it asks for |
| `Decisions.ReorderDecision` | crates/bunker-api/src/services/tournament_service.rs:254-278 | the errors of a reordering in their order; it takes exactly the permutations of the entrants read |
| `Decisions.ResultDecision` | crates/bunker-api/src/services/tournament_service.rs:391-406 | what a result asks of the tournament, and the errors it passes on |
| `WholeRequests.RegisterAlone` | crates/bunker-api/src/services/tournament_service.rs:158-177 | a registration takes effect exactly when the tournament is open, the deadline is ahead, no match is stored, the player is not in, a place is free and the account exists |
| `WholeRequests.RegisterAgain` | crates/bunker-api/src/services/tournament_service.rs:481-490 | a second registration sets the level of the entry and changes nothing else |
| `WholeRequests.RetireAlone` | crates/bunker-api/src/services/tournament_service.rs:179-194 | a retirement takes effect exactly when the tournament is open, the deadline is ahead, no match is stored and the player is in |
| `WholeRequests.EnrolAlone` | crates/bunker-api/src/services/tournament_service.rs:196-217 | an organiser enters a player exactly when the tournament is not concluded, no match is stored, the player is not in, a place is free and the account exists |
| `WholeRequests.RemoveEntryAlone` | crates/bunker-api/src/services/tournament_service.rs:219-236 | an organiser removes an entrant exactly when the tournament is not concluded and no match is stored |
| `WholeRequests.MoveAlone` | crates/bunker-api/src/services/tournament_service.rs:339-355 | a move stores exactly draft to open, draft to live, open to live, and live to open without a match, for no named winner |
| `WholeRequests.ConcludeWithBracketAlone` | crates/bunker-api/src/services/tournament_service.rs:361-379 | with a bracket a conclusion takes effect exactly when nobody is named and the last round has a winner, and pays its awards |
| `WholeRequests.ConcludeWithoutBracketAlone` | crates/bunker-api/src/services/tournament_service.rs:380-387 | without one it takes effect exactly when a named winner is an entrant |
| `WholeRequests.RemoveBracketAlone` | crates/bunker-api/src/services/tournament_service.rs:280-286 | a removal takes effect exactly when the tournament is not concluded and no stored match is played |
| `WholeRequests.RebuildAlone` | crates/bunker-api/src/services/tournament_service.rs:238-278 | a draw and a reordering take effect exactly when the tournament is live, no stored match is played, there are 2 to 256 entrants and a given order is a permutation that replaces a bracket |
| `WholeRequests.EditAlone` | crates/bunker-api/src/storage/tournament_storage.rs:212-255 | a deadline is stored exactly until the tournament is concluded |
| `Arrivals.RegisteredField` | crates/bunker-api/src/services/tournament_service.rs:347-351 | for every n up to 256, a run from draft through open, where n players register, to live |
| `Door.ScanAlone` | crates/bunker-api/src/services/event_service.rs:107-120 | a scan takes effect exactly when the event is published, the time is from its start on and before its end, the account exists and it is the first |
| `Door.ManualAlone` | crates/bunker-api/src/services/event_service.rs:122-136 | a manual check-in takes effect for every event and every time, once per account |

## Left out

- Sequential.RunsInOrder: a commit that was not overtaken is one whose reads all match the store at the commit; requests are not required to be contiguous, so the claim covers more runs than one request after the other.
- Store.Database.EnterResult: is about a request that runs alone; what a result does when others write between its read and its commit is `Guarantees.ResultsActAtTheirCommit`.
- LatePayments.ConclusionPaysTheStoredBracketExactlyWhen: is about snapshots whose winners all have accounts in the list that was read; an entrant without an account is paid nothing, so without this the awards do not tell who won.
- Store.Database.InsertAwards: row ids, notes, authors and times of ledger rows are not modelled, and neither is the check that an amount is not zero and at most 10000.
- Store.Database.AddEntrant: the registration time and the order of the reads that use it are not modelled, so a read is any listing of the rows.
- The second read of `change_status` that answers a lost race with success when the status is already the one asked for, and the reads of `explain_refusal` and `stale` that choose an error text: a refused write has one error here. They write nothing.
- The lookups `players.exists` before an entry or a manual check-in: the foreign key of the write gives the same refusal.
- The fields of a tournament, an event and a player that no rule reads: names, texts, images, dates, covers; a later edit of the window of an event.
- The check-in code and its lookup: a scan names the event.
- The guard that keeps the last admin: a step may delete any account.
- Totals, standings, ranks, nemesis, history and pagination: queries over the ledger and the matches that change nothing.
- Glyphs, passwords, tokens, sessions, mail, HTTP and the web client.
