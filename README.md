# FPLAI transfer optimiser and prediction pipeline, in Dafny

This project models the core of FPLAI, a Fantasy Premier League assistant written in Java, and
proves properties of it.

**The transfer optimiser.** `optimizeTeam` runs three stages on one team instance:
- It generates the candidate transfers: each squad player paired with each same-position pool
  player whose id differs.
- It keeps the affordable candidates whose incoming club still has fewer than three squad
  players, and sorts them stably by point gain, then cost.
- It applies them greedily. Each candidate is re-checked against the squad as already changed.
  The squad is then cut to the 2/5/5/3 template, best predictions first.

**The helpers around it:**
- `Player`, whose identity is its id;
- `PlayerTeam`, which keeps home and away fixture lists consistent across two clubs;
- the club strength tier, home flag and five-result form of `PlayerTeamServiceImpl`;
- the upcoming-fixture look-ups and the team-name map of `FixtureServiceImpl`;
- the prediction run of `PredictionServiceImpl`. It builds feature maps per player and fixture,
  scores them with an external model, and saves the mean. A player unlikely to play gets 0, and
  any failure stops the run before anything is saved.

**Modules, one per source file or concern:**
- `Wrappers`: `Option` and `Result`.
- `JavaInt`: 32-bit wrap-around for hash codes.
- `Players`: `Player`, id equality and `List.remove` by id.
- `Teams`: the `PlayerTeam` class and the `Fixture` value.
- `Transfers`: a candidate and its cost and gain.
- `Squads`: the mutable `Team`.
- `ClubCounts`: the per-club tally and the 3-per-club test.
- `Ranking`: a stable sort and the proof that it is the unique stable order.
- `Blocks`: ordered concatenation of position blocks.
- `Normalisation`: the 2/5/5/3 cut.
- `CandidateGeneration`, `TransferSelection` and `TransferApplication`: the three stages.
- `TeamService`: the pipeline.
- `PlayerTeamService`, `FixtureService` and `PredictionService`: the three services.

**How state is modelled:**
- Where the source mutates an object in place, the model is a class with `modifies` clauses:
  `Team`, `PlayerTeam.addHomeFixture` and the `applyTransfers` loop.
- Where the source loops, the model is a method with loop invariants. Each such method is
  proved equal to a specification function, and the properties are proved about that function.
- Java exceptions and nulls become `Result`/`Option` values, or a `completed` flag that is false
  where the source throws.

## Model

| member | source | states |
|---|---|---|
| Players.HashCode | backend/src/main/java/com/fploptimizer/fplai/model/Player.java:170-173 | The hash is a 32-bit value congruent to 31 + id, so it depends on the id alone |
| Players.EqualityIsById | backend/src/main/java/com/fploptimizer/fplai/model/Player.java:162-173 | Two players are equal exactly when their ids are equal. Equality is reflexive, symmetric and transitive, never holds for null or an object of another class, and equal players hash equally |
| Players.FirstWithId | backend/src/main/java/com/fploptimizer/fplai/service/TransferServiceImpl.java:193 | The index `List.remove` looks at is the first one holding the id, or the length when no player has it |
| Players.RemoveFirstSpec | backend/src/main/java/com/fploptimizer/fplai/service/TransferServiceImpl.java:193 | Removing by id changes nothing when the id is absent. Otherwise it drops exactly the first player with that id, giving a sub-multiset one shorter |
| Players.OfPosition | backend/src/main/java/com/fploptimizer/fplai/service/TransferServiceImpl.java:116-133 | The filter keeps exactly the list's players of that element type |
| Players.OfPositionSubMultiset | backend/src/main/java/com/fploptimizer/fplai/service/TransferServiceImpl.java:116-120 | The filtered list is a sub-multiset of the list |
| Players.DistinctIdsSubMultiset | backend/src/main/java/com/fploptimizer/fplai/model/Player.java:162-168 | Distinct ids stay distinct in any sub-multiset |
| Transfers.CostDifference | backend/src/test/java/com/fploptimizer/fplai/service/TransferServiceImplTest.java:55-56 | The incoming price minus the outgoing price; `FindBestSample` gives 5 for 100 out and 105 in |
| Transfers.PointDifference | backend/src/test/java/com/fploptimizer/fplai/service/TransferServiceImplTest.java:55-56 | The incoming prediction minus the outgoing prediction; `FindBestSample` gives 2.0 for 6.0 out and 8.0 in |
| Teams.PlayerTeam.constructor | backend/src/main/java/com/fploptimizer/fplai/model/PlayerTeam.java:56-62 | Stores the five arguments; both fixture lists start empty |
| Teams.PlayerTeam.Blank | backend/src/main/java/com/fploptimizer/fplai/model/PlayerTeam.java:69-70 | The no-argument constructor leaves every field at its Java default, with null names |
| Teams.PlayerTeam.HashCode | backend/src/main/java/com/fploptimizer/fplai/model/PlayerTeam.java:127-130 | The hash is a 32-bit value congruent to 31 + code, so it depends on the code alone |
| Teams.PlayerTeam.AddHomeFixture | backend/src/main/java/com/fploptimizer/fplai/model/PlayerTeam.java:91-99 | A fixture already listed (by field equality) changes nothing. Otherwise it is appended to this club's home list and, when missing there, to the away club's away list. Nothing else changes, including when one club is both home and away |
| Teams.PlayerTeam.AddAwayFixture | backend/src/main/java/com/fploptimizer/fplai/model/PlayerTeam.java:109-117 | The mirror image: this club's away list and the home club's home list |
| Teams.PlayerTeam.AllFixtures | backend/src/main/java/com/fploptimizer/fplai/model/PlayerTeam.java:77-81 | A new list of the home fixtures followed by the away fixtures; this order decides which fixture `StrengthAtFirst`, `HomeAtFirst` and `IsHomeGame` find first for a gameweek |
| Teams.TeamEqualityIsByCode | backend/src/main/java/com/fploptimizer/fplai/model/PlayerTeam.java:119-130 | Clubs are equal exactly when their codes are equal. Equality is an equivalence, null is never equal, and equal clubs hash equally |
| Teams.FixtureEqualsIsEquivalence | backend/src/main/java/com/fploptimizer/fplai/model/Fixture.java:12-14 | The generated field-by-field fixture equality is an equivalence |
| Teams.ContainsAppended | backend/src/main/java/com/fploptimizer/fplai/model/PlayerTeam.java:92-96 | After an append the list contains the new fixture and everything it contained before |
| Teams.AddHomeFixtureTwice | backend/src/main/java/com/fploptimizer/fplai/model/PlayerTeam.java:91-99 | Adding a home fixture twice has the effect of adding it once, on both clubs |
| Teams.AddAwayFixtureTwice | backend/src/main/java/com/fploptimizer/fplai/model/PlayerTeam.java:109-117 | Adding an away fixture twice has the effect of adding it once, on both clubs |
| Squads.Team.constructor | backend/src/test/java/com/fploptimizer/fplai/service/TransferServiceImplTest.java:99 | A team holds the given players, budget and transfer count |
| ClubCounts.Bump | backend/src/main/java/com/fploptimizer/fplai/service/TransferServiceImpl.java:197 | Raises the count of one club by one and leaves every other club's count as it was |
| ClubCounts.TallyCounts | backend/src/main/java/com/fploptimizer/fplai/service/TransferServiceImpl.java:52-53 | The grouped count of every club name is the number of squad players of that club |
| ClubCounts.CountKeyConcat | backend/src/main/java/com/fploptimizer/fplai/service/TransferServiceImpl.java:176-177 | A club's count over two lists put together is the sum of its counts |
| ClubCounts.CountKeySubMultiset | backend/src/main/java/com/fploptimizer/fplai/service/TransferServiceImpl.java:176-177 | Club counts depend on the multiset alone and shrink with it |
| ClubCounts.CountKeyRemove | backend/src/main/java/com/fploptimizer/fplai/service/TransferServiceImpl.java:193 | Removing one player lowers the count of that player's club alone, by one |
| ClubCounts.CanAddPlayerFromTeam | backend/src/main/java/com/fploptimizer/fplai/service/TransferServiceImpl.java:74-76 | A club may receive a player exactly when it is missing from the count map (counted as 0) or counted below 3 |
| Ranking.AheadIsStrictTotalOrder | backend/src/main/java/com/fploptimizer/fplai/service/TransferServiceImpl.java:58-59 | The comparator (major key descending, minor key ascending) is a strict total order on ranks |
| Ranking.InsertStable | backend/src/main/java/com/fploptimizer/fplai/service/TransferServiceImpl.java:58-59 | Inserting an element puts it at the front of its own tie class and leaves every other class alone |
| Ranking.InsertRanked | backend/src/main/java/com/fploptimizer/fplai/service/TransferServiceImpl.java:58-59 | Insertion keeps a ranked list ranked and adds exactly the element to its multiset |
| Ranking.SortByCorrect | backend/src/main/java/com/fploptimizer/fplai/service/TransferServiceImpl.java:58-59 | The sort returns a permutation that is ranked and keeps every tie class in input order |
| Ranking.StableSortIsUnique | backend/src/main/java/com/fploptimizer/fplai/service/TransferServiceImpl.java:58-59 | Any ranked list with the input's tie classes in input order is the sort's result, so every stable sort agrees with this one |
| Ranking.RankedClassesDetermine | backend/src/main/java/com/fploptimizer/fplai/service/TransferServiceImpl.java:58-59 | Two ranked lists with the same tie classes are equal |
| Ranking.RankedPrefixIsTop | backend/src/main/java/com/fploptimizer/fplai/service/TransferServiceImpl.java:205-208 | Nothing a prefix of a ranked list leaves out sorts before anything it keeps |
| Ranking.WithRankOfPrefix | backend/src/main/java/com/fploptimizer/fplai/service/TransferServiceImpl.java:205-208 | Each tie class of a prefix is a prefix of that class in the whole list |
| Normalisation.Normalise | backend/src/main/java/com/fploptimizer/fplai/service/TransferServiceImpl.java:202-211 | The new player list: the top 2/5/5/3 of each position by prediction, concatenated in position order; its shape, sub-multiset and reordering properties are stated by `NormaliseShape`, `NormaliseSubMultiset` and `NormaliseWithinTemplate` |
| Normalisation.BlockSize | backend/src/main/java/com/fploptimizer/fplai/service/TransferServiceImpl.java:205-208 | A block holds min(quota, players of that type) players; the quotas are 2, 5, 5 and 3 |
| Normalisation.BlockOfType | backend/src/main/java/com/fploptimizer/fplai/service/TransferServiceImpl.java:205-208 | A block is a sub-multiset of the players of its type |
| Normalisation.BlockByPrediction | backend/src/main/java/com/fploptimizer/fplai/service/TransferServiceImpl.java:205-208 | Within a block, predictions never increase |
| Normalisation.BlockIsTop | backend/src/main/java/com/fploptimizer/fplai/service/TransferServiceImpl.java:205-208 | Every player of the type that the block leaves out predicts no more than each player it keeps |
| Normalisation.BlockKeepsTies | backend/src/main/java/com/fploptimizer/fplai/service/TransferServiceImpl.java:205-208 | Players with equal predictions keep their list order, and the block takes the earliest of them |
| Normalisation.OfPositionCounts | backend/src/main/java/com/fploptimizer/fplai/service/TransferServiceImpl.java:116-120 | The players of type k, as a multiset, are the squad's multiset restricted to type k |
| Normalisation.FourPositions | backend/src/main/java/com/fploptimizer/fplai/service/TransferServiceImpl.java:204-209 | The four position lists put together hold exactly the players of types 1..4 |
| Normalisation.InTemplateSubMultiset | backend/src/main/java/com/fploptimizer/fplai/service/TransferServiceImpl.java:204-209 | Players of types 1..4 are a sub-multiset of the squad |
| Normalisation.InTemplateWhole | backend/src/main/java/com/fploptimizer/fplai/service/TransferServiceImpl.java:204-209 | When every type is in 1..4, no player is dropped |
| Normalisation.NormaliseShape | backend/src/main/java/com/fploptimizer/fplai/service/TransferServiceImpl.java:202-211 | The new list has at most 15 players, all of types 1..4, in GK, DEF, MID, FWD block order |
| Normalisation.NormaliseSubMultiset | backend/src/main/java/com/fploptimizer/fplai/service/TransferServiceImpl.java:202-211 | The new list is a sub-multiset of the old one: nothing is added or padded |
| Normalisation.NormaliseWithinTemplate | backend/src/main/java/com/fploptimizer/fplai/service/TransferServiceImpl.java:202-211 | A squad of types 1..4 within the quotas is only reordered |
| Normalisation.BlockWhole | backend/src/main/java/com/fploptimizer/fplai/service/TransferServiceImpl.java:205-208 | A type within its quota keeps all of its players |
| Normalisation.NormaliseKeepsIdsDistinct | backend/src/main/java/com/fploptimizer/fplai/service/TransferServiceImpl.java:202-211 | Normalisation keeps ids distinct |
| CandidateGeneration.GenerateTransfersForPosition | backend/src/main/java/com/fploptimizer/fplai/service/TransferServiceImpl.java:144-163 | The nested loops return every (out, in) pair with differing ids, in squad order and then pool order |
| CandidateGeneration.GeneratePotentialTransfers | backend/src/main/java/com/fploptimizer/fplai/service/TransferServiceImpl.java:87-107 | The candidates are the four position blocks, GK to FWD, over the team's players and the whole pool |
| CandidateGeneration.PairsForMembership | backend/src/main/java/com/fploptimizer/fplai/service/TransferServiceImpl.java:149-153 | One outgoing player yields a pair exactly when the incoming player is in the pool with a different id |
| CandidateGeneration.PairsMembership | backend/src/main/java/com/fploptimizer/fplai/service/TransferServiceImpl.java:148-155 | A pair is generated exactly when its out player is in the squad list and its in player is in the pool list, with differing ids |
| CandidateGeneration.GenerateMembership | backend/src/main/java/com/fploptimizer/fplai/service/TransferServiceImpl.java:95-98 | A transfer is a candidate exactly when its out player is in the squad, its in player is in the pool, they share a type in 1..4, and their ids differ. The in player may already be in the squad |
| CandidateGeneration.OfPositionMembership | backend/src/main/java/com/fploptimizer/fplai/service/TransferServiceImpl.java:129-133 | A player is in the filtered list exactly when it is in the list with that type |
| CandidateGeneration.PositionBlock | backend/src/main/java/com/fploptimizer/fplai/service/TransferServiceImpl.java:95-98 | Every candidate of one position's block has an out player of that position |
| CandidateGeneration.GenerateInPositionBlocks | backend/src/main/java/com/fploptimizer/fplai/service/TransferServiceImpl.java:95-98 | Candidates come in GK, DEF, MID, FWD blocks: out types never decrease |
| CandidateGeneration.PairsCount | backend/src/main/java/com/fploptimizer/fplai/service/TransferServiceImpl.java:148-155 | One position yields squad × pool pairs minus those with equal ids |
| CandidateGeneration.PairsForCount | backend/src/main/java/com/fploptimizer/fplai/service/TransferServiceImpl.java:149-153 | One out player yields one pair per pool player except those with its id |
| CandidateGeneration.GenerateCount | backend/src/main/java/com/fploptimizer/fplai/service/TransferServiceImpl.java:95-98 | The candidate count is the same-position pair count minus same-id pairs, summed over types 1..4; other types yield nothing |
| TransferSelection.Filtered | backend/src/main/java/com/fploptimizer/fplai/service/TransferServiceImpl.java:55-57 | The lazy filters fail exactly when an affordable candidate has no incoming club. Otherwise they keep exactly the eligible candidates |
| TransferSelection.FindBestTransfers | backend/src/main/java/com/fploptimizer/fplai/service/TransferServiceImpl.java:49-65 | The selection: when it fails is stated by `FindBestFails`, which candidates it keeps by `FindBestSelects`, and their order by `FindBestOrder` |
| TransferSelection.FindBestFails | backend/src/main/java/com/fploptimizer/fplai/service/TransferServiceImpl.java:49-65 | Selection fails, with "Failed to find the best transfers.", exactly when the squad cannot be counted or an affordable candidate has no club |
| TransferSelection.FindBestWithoutTransfers | backend/src/main/java/com/fploptimizer/fplai/service/TransferServiceImpl.java:56 | With no transfers left the result is empty |
| TransferSelection.NoneEligible | backend/src/main/java/com/fploptimizer/fplai/service/TransferServiceImpl.java:56 | With no transfers left no candidate is eligible |
| TransferSelection.EligiblesFilter | backend/src/main/java/com/fploptimizer/fplai/service/TransferServiceImpl.java:55-57 | The filter keeps each eligible candidate as often as it occurs, and nothing else |
| TransferSelection.FindBestSelects | backend/src/main/java/com/fploptimizer/fplai/service/TransferServiceImpl.java:52-57 | On success the result holds exactly the candidates that are affordable, have a transfer left, and join a club with fewer than 3 squad players at call time, each as often as in the input. The kept candidates are not counted against each other |
| TransferSelection.FindBestOrder | backend/src/main/java/com/fploptimizer/fplai/service/TransferServiceImpl.java:58-60 | On success the result is ordered by point gain descending, then cost ascending, and full ties keep input order; it is the one such order |
| TransferSelection.FindBestSample | backend/src/test/java/com/fploptimizer/fplai/service/TransferServiceImplTest.java:32-57 | One affordable candidate, from a club with one player in the squad, is kept on its own, with a gain of 2.0 at a cost of 5 |
| TransferApplication.ApplyTransfers | backend/src/main/java/com/fploptimizer/fplai/service/TransferServiceImpl.java:174-218 | The team after the method, and whether it returned, are those of the loop-then-normalise specification. A throw leaves the squad as far as it got |
| TransferApplication.Consider | backend/src/main/java/com/fploptimizer/fplai/service/TransferServiceImpl.java:180-197 | One iteration re-checks the four conditions against the changed squad. An accepted candidate pays, uses a transfer, swaps the players and counts its club; a rejected one changes nothing |
| TransferApplication.RunAt | backend/src/main/java/com/fploptimizer/fplai/service/TransferServiceImpl.java:179-180 | The loop throws at the first candidate whose incoming player has no club, and otherwise steps on |
| TransferApplication.RunAccounting | backend/src/main/java/com/fploptimizer/fplai/service/TransferServiceImpl.java:186-192 | Each accepted candidate uses one transfer and pays its cost. From a non-negative start transfers stay at or above 0, so at most that many are accepted. After an accepted step the budget is not negative, and with nothing accepted nothing changes |
| TransferApplication.AcceptedAreCandidates | backend/src/main/java/com/fploptimizer/fplai/service/TransferServiceImpl.java:179-199 | Every accepted transfer is one of the ranked candidates |
| TransferApplication.RunCountsBounded | backend/src/main/java/com/fploptimizer/fplai/service/TransferServiceImpl.java:189-197 | A running club count grows only by accepting a player of that club while the count is below 3 |
| TransferApplication.StepCountsCover | backend/src/main/java/com/fploptimizer/fplai/service/TransferServiceImpl.java:191-197 | The running counts never fall below the squad's actual club counts, because they are never decremented |
| TransferApplication.RunCountsCover | backend/src/main/java/com/fploptimizer/fplai/service/TransferServiceImpl.java:176-199 | The same over the whole loop |
| TransferApplication.StepKeepsIdsDistinct | backend/src/main/java/com/fploptimizer/fplai/service/TransferServiceImpl.java:183-194 | The incoming id is checked first, so no duplicate id is ever added |
| TransferApplication.RunKeepsIdsDistinct | backend/src/main/java/com/fploptimizer/fplai/service/TransferServiceImpl.java:179-199 | Distinct ids stay distinct through the loop |
| TransferApplication.RunLength | backend/src/main/java/com/fploptimizer/fplai/service/TransferServiceImpl.java:193-194 | The loop never shrinks the list, and grows it by at most one per accepted candidate |
| TransferApplication.AppliedSpec | backend/src/main/java/com/fploptimizer/fplai/service/TransferServiceImpl.java:174-218 | Whether it returns or throws: transfers stay in 0..initial from a non-negative start; an unchanged transfer count means an unchanged budget, a smaller one a non-negative budget; no club ends above max(its initial count, 3); distinct ids stay distinct. A normal return leaves at most 15 players in block order |
| TransferApplication.NothingAcceptedOnlyNormalises | backend/src/main/java/com/fploptimizer/fplai/service/TransferServiceImpl.java:202-211 | With nothing accepted, normalisation still runs and is the only change |
| TransferApplication.SquadCanGrow | backend/src/main/java/com/fploptimizer/fplai/service/TransferServiceImpl.java:193-194 | Two accepted candidates sharing an outgoing player both add their incoming player, so the squad grows from 1 to 2 |
| TransferApplication.SampleRun | backend/src/main/java/com/fploptimizer/fplai/service/TransferServiceImpl.java:186-194 | In that sample both candidates are accepted and the second removal finds nothing to remove |
| TeamService.OptimizeTeam | backend/src/main/java/com/fploptimizer/fplai/service/TeamServiceImpl.java:43-64 | Generate, select with the budget and transfers as they were, then apply. The team ends in the pipeline's state. Success returns the same instance; any failure is the single error "Failed to optimize the team." |
| TeamService.OptimizeSpec | backend/src/main/java/com/fploptimizer/fplai/service/TeamServiceImpl.java:47-58 | After a normal return: at most 15 players in GK, DEF, MID, FWD order; transfers within bounds; the budget accounted; no club above max(initial, 3); distinct ids kept |
| TeamService.OptimizeFails | backend/src/main/java/com/fploptimizer/fplai/service/TeamServiceImpl.java:47-63 | The run fails exactly when the squad cannot be counted, an affordable candidate has no club, or applying throws. A failed selection leaves the team untouched |
| TeamService.OptimizeWithoutTransfers | backend/src/main/java/com/fploptimizer/fplai/service/TeamServiceImpl.java:51-55 | With no free transfers the run only normalises the squad |
| TeamService.OptimizeEmptySquad | backend/src/test/java/com/fploptimizer/fplai/service/TeamServiceImplTest.java:43-71 | An empty squad comes back unchanged, with its budget and transfer count |
| PlayerTeamService.FirstAt | backend/src/main/java/com/fploptimizer/fplai/service/PlayerTeamServiceImpl.java:163-164 | The search stops at the first fixture of the gameweek, or finds none |
| PlayerTeamService.Tier | backend/src/main/java/com/fploptimizer/fplai/service/PlayerTeamServiceImpl.java:172-178 | A tier is 1, 2 or 3: tier 3 exactly from 1270, tier 1 exactly below 1160 |
| PlayerTeamService.TierMonotone | backend/src/main/java/com/fploptimizer/fplai/service/PlayerTeamServiceImpl.java:172-178 | A stronger club never gets a lower tier |
| PlayerTeamService.StrengthIn | backend/src/main/java/com/fploptimizer/fplai/service/PlayerTeamServiceImpl.java:163-182 | The strength, when the loop does not throw, is in 0..3 |
| PlayerTeamService.CalculateTeamStrength | backend/src/main/java/com/fploptimizer/fplai/service/PlayerTeamServiceImpl.java:158-183 | The strength, when it does not throw, is in 0..3 |
| PlayerTeamService.StrengthAtFirst | backend/src/main/java/com/fploptimizer/fplai/service/PlayerTeamServiceImpl.java:162-182 | The first fixture of the gameweek decides: 0 when there is none, a failure when its home club is null, else the tier of the home strength when the club is home (by code) and of the away strength otherwise |
| PlayerTeamService.HomeAtFirst | backend/src/main/java/com/fploptimizer/fplai/service/PlayerTeamServiceImpl.java:198-205 | A home game exactly when the first fixture of the gameweek has the club as home club; false with no fixture; a failure on a null home club |
| PlayerTeamService.IsHomeGame | backend/src/main/java/com/fploptimizer/fplai/service/PlayerTeamServiceImpl.java:193-205 | Over home-then-away fixtures, the first fixture of the gameweek decides: a home game exactly when its home club has this club's code, false when there is none, and a failure (None) on a null home club |
| PlayerTeamService.StrengthMatchesHome | backend/src/main/java/com/fploptimizer/fplai/service/PlayerTeamServiceImpl.java:162-205 | Strength and home flag fail together, and the strength is the home tier exactly on a home game |
| PlayerTeamService.ResultPoints | backend/src/main/java/com/fploptimizer/fplai/service/PlayerTeamServiceImpl.java:230-234 | W, D and L score 3, 2 and 1; any other result scores nothing |
| PlayerTeamService.CalculateTeamForm | backend/src/main/java/com/fploptimizer/fplai/service/PlayerTeamServiceImpl.java:218-246 | The loop's window over fixtures before the gameweek gives the mean of the window, or 0 when it is empty |
| PlayerTeamService.WindowBounds | backend/src/main/java/com/fploptimizer/fplai/service/PlayerTeamServiceImpl.java:225-235 | The window holds at most 5 entries, each 1, 2 or 3, and is a suffix of the recognised results |
| PlayerTeamService.WindowRange | backend/src/main/java/com/fploptimizer/fplai/service/PlayerTeamServiceImpl.java:227-234 | The window holds at most 5 entries, each in 1..3 |
| PlayerTeamService.WindowSuffix | backend/src/main/java/com/fploptimizer/fplai/service/PlayerTeamServiceImpl.java:225-235 | The window is a suffix of the recognised results before the gameweek |
| PlayerTeamService.WindowIsLastFive | backend/src/main/java/com/fploptimizer/fplai/service/PlayerTeamServiceImpl.java:225-235 | When every earlier result is recognised, the window is exactly the last five of them, or all when fewer |
| PlayerTeamService.SumBounds | backend/src/main/java/com/fploptimizer/fplai/service/PlayerTeamServiceImpl.java:243 | The sum of n entries in 1..3 is between n and 3n |
| PlayerTeamService.FormBounds | backend/src/main/java/com/fploptimizer/fplai/service/PlayerTeamServiceImpl.java:238-245 | The form is 0 with no past results, and otherwise between 1 and 3 |
| PlayerTeamService.MeanBounds | backend/src/main/java/com/fploptimizer/fplai/service/PlayerTeamServiceImpl.java:245 | A sum between n and 3n, divided by n, lies in 1..3 |
| PlayerTeamService.WindowSnoc | backend/src/main/java/com/fploptimizer/fplai/service/PlayerTeamServiceImpl.java:225-235 | The window after one more fixture is one more slide of the window |
| PlayerTeamService.FormOfWinDrawLoss | backend/src/test/java/com/fploptimizer/fplai/service/PlayerTeamServiceImplTest.java:129-145 | A win, a draw and a loss give a form of 2 |
| PlayerTeamService.UnrecognisedResultShrinksWindow | backend/src/main/java/com/fploptimizer/fplai/service/PlayerTeamServiceImpl.java:227-234 | Eviction comes first, so a full window followed by an unrecognised result shrinks to 4 |
| FixtureService.MapTeamName | backend/src/main/java/com/fploptimizer/fplai/service/FixtureServiceImpl.java:46-57 | The seven feed names map to their FPL names; every other name is returned unchanged |
| FixtureService.MapTeamNameIdempotent | backend/src/main/java/com/fploptimizer/fplai/service/FixtureServiceImpl.java:89-91 | Mapping twice is mapping once |
| FixtureService.MapTeamNameInjective | backend/src/main/java/com/fploptimizer/fplai/service/FixtureServiceImpl.java:49-55 | The seven feed names map to seven distinct names, each different from its source |
| FixtureService.UpcomingFilter | backend/src/main/java/com/fploptimizer/fplai/service/FixtureServiceImpl.java:178-180 | The upcoming list keeps exactly the fixtures from the current gameweek on that are not done, each as often as it occurs |
| FixtureService.UpcomingPrefix | backend/src/main/java/com/fploptimizer/fplai/service/FixtureServiceImpl.java:178-185 | The upcoming fixtures of a prefix of the list are a prefix of the upcoming fixtures |
| FixtureService.NextFixturesSpec | backend/src/main/java/com/fploptimizer/fplai/service/FixtureServiceImpl.java:174-188 | The next fixtures are at most five upcoming fixtures of the club: a prefix of the upcoming list, fewer than five only when there are no more |
| FixtureService.GetNextFixtures | backend/src/main/java/com/fploptimizer/fplai/service/FixtureServiceImpl.java:174-188 | The loop with its break at five returns the first five upcoming fixtures, and it changes nothing |
| FixtureService.FindNextFixture | backend/src/main/java/com/fploptimizer/fplai/service/FixtureServiceImpl.java:155-164 | The first upcoming fixture, or null (None) when there is none; it changes nothing |
| FixtureService.NextIsFirstOfNext | backend/src/main/java/com/fploptimizer/fplai/service/FixtureServiceImpl.java:155-188 | The next fixture is the first of the next fixtures, and it exists exactly when that list is not empty |
| FixtureService.UpcomingEmpty | backend/src/main/java/com/fploptimizer/fplai/service/FixtureServiceImpl.java:158-163 | The upcoming list is empty exactly when no fixture is upcoming |
| PredictionService.PositionName | backend/src/main/java/com/fploptimizer/fplai/service/PredictionServiceImpl.java:66-74 | Element types 1..4 map to GK, DEF, MID and FWD; any other code is an error carrying it |
| PredictionService.PositionNameInjective | backend/src/main/java/com/fploptimizer/fplai/service/PredictionServiceImpl.java:67-71 | Different positions get different names |
| PredictionService.GoalkeeperFeatures | backend/src/main/java/com/fploptimizer/fplai/service/PredictionServiceImpl.java:94-99 | Goalkeepers add saves, goals conceded, penalties saved and clean sheets |
| PredictionService.DefenderFeatures | backend/src/main/java/com/fploptimizer/fplai/service/PredictionServiceImpl.java:100-103 | Defenders add clean sheets and goals conceded |
| PredictionService.AttackerFeatures | backend/src/main/java/com/fploptimizer/fplai/service/PredictionServiceImpl.java:104-117 | Midfielders and forwards add goals scored and assists, and creativity, ICT index and threat each only when numeric |
| PredictionService.ConvertToPlayerData | backend/src/main/java/com/fploptimizer/fplai/service/PredictionServiceImpl.java:83-130 | Conversion fails exactly on an invalid element type; the data carries the player's id and a zero prediction |
| PredictionService.ConvertKeys | backend/src/main/java/com/fploptimizer/fplai/service/PredictionServiceImpl.java:88-127 | The keys are the nine common ones, influence when numeric, and the position's own keys |
| PredictionService.ConvertValues | backend/src/main/java/com/fploptimizer/fplai/service/PredictionServiceImpl.java:124-127 | The transfer balance is transfers in minus transfers out, and the value is the current cost |
| PredictionService.InputsSnoc | backend/src/main/java/com/fploptimizer/fplai/service/PredictionServiceImpl.java:186-210 | The inputs of one more fixture are the earlier inputs followed by that fixture's input, if any |
| PredictionService.CreatePredictionInputs | backend/src/main/java/com/fploptimizer/fplai/service/PredictionServiceImpl.java:179-214 | The loop returns one input per usable fixture in fixture order, or the invalid element type it throws on |
| PredictionService.InputsForFixtures | backend/src/main/java/com/fploptimizer/fplai/service/PredictionServiceImpl.java:186-210 | The loop over the fixtures yields the inputs of the fixtures that are not skipped, in fixture order |
| PredictionService.InputForFixture | backend/src/main/java/com/fploptimizer/fplai/service/PredictionServiceImpl.java:187-209 | One fixture's input is skipped on a null club or a look-up that throws |
| PredictionService.FixtureInputShape | backend/src/main/java/com/fploptimizer/fplai/service/PredictionServiceImpl.java:188-204 | An input is the base data with exactly four keys added: opponent difficulty and team ranking in 0..3, a home flag of 0 or 1, and a form of 0 or in 1..3 |
| PredictionService.InputsShape | backend/src/main/java/com/fploptimizer/fplai/service/PredictionServiceImpl.java:186-210 | There is at most one input per fixture, and each extends the base data |
| PredictionService.FixtureInputSkips | backend/src/main/java/com/fploptimizer/fplai/service/PredictionServiceImpl.java:195-206 | A fixture with a null club gives no input; one with both clubs gives one exactly when the three look-ups succeed |
| PredictionService.OpponentIsOtherClub | backend/src/main/java/com/fploptimizer/fplai/service/PredictionServiceImpl.java:200 | The opponent is the home club when the player's club is the away club (by code), otherwise the away club |
| PredictionService.WithPredictions | backend/src/main/java/com/fploptimizer/fplai/service/PredictionServiceImpl.java:292-294 | Input i gets prediction i, and nothing else about it changes |
| PredictionService.SetPredictions | backend/src/main/java/com/fploptimizer/fplai/service/PredictionServiceImpl.java:292-294 | The loop sets the predictions in input order |
| PredictionService.UpdatePlayersWithPredictions | backend/src/main/java/com/fploptimizer/fplai/service/PredictionServiceImpl.java:315-338 | The update keeps the repository's keys |
| PredictionService.PredictionsOfPresent | backend/src/main/java/com/fploptimizer/fplai/service/PredictionServiceImpl.java:316-318 | A player has scores exactly when some input carries its id |
| PredictionService.RealSumBounds | backend/src/main/java/com/fploptimizer/fplai/service/PredictionServiceImpl.java:320-323 | The sum of n scores in lo..hi lies between n·lo and n·hi |
| PredictionService.AverageBounds | backend/src/main/java/com/fploptimizer/fplai/service/PredictionServiceImpl.java:320-323 | The mean of scores lies between their least and greatest |
| PredictionService.UpdateSpec | backend/src/main/java/com/fploptimizer/fplai/service/PredictionServiceImpl.java:320-333 | A stored player changes at most in its prediction. It is 0 when the player has scores and a known chance below 75, the mean of its scores when it has scores otherwise, and unchanged with no scores |
| PredictionService.CollectSnoc | backend/src/main/java/com/fploptimizer/fplai/service/PredictionServiceImpl.java:281-301 | The run over one more player is the earlier run followed by that player's batch, or stops |
| PredictionService.GenerateAndSavePlayerPredictions | backend/src/main/java/com/fploptimizer/fplai/service/PredictionServiceImpl.java:270-308 | The repository afterwards is the update with every player's scored inputs, or unchanged when any player stops the run |
| PredictionService.RunPlayer | backend/src/main/java/com/fploptimizer/fplai/service/PredictionServiceImpl.java:284-298 | One player's turn: next fixtures, inputs, then scores; None where the source stops the run |
| PredictionService.Score | backend/src/main/java/com/fploptimizer/fplai/service/PredictionServiceImpl.java:290-298 | Scoring fails when the inputs failed, the model failed, or the model returned fewer scores than inputs |
| PredictionService.CollectStops | backend/src/main/java/com/fploptimizer/fplai/service/PredictionServiceImpl.java:295-298 | Once one player stops the run, the whole run stops |
| PredictionService.CollectStopsAt | backend/src/main/java/com/fploptimizer/fplai/service/PredictionServiceImpl.java:281-301 | A run that stops has a player whose batch failed |
| PredictionService.CollectFails | backend/src/main/java/com/fploptimizer/fplai/service/PredictionServiceImpl.java:290-303 | The run stops, and nothing is saved, exactly when some player's batch fails |

## Left out

- HTTP and JSON I/O are left out: fetching clubs, players, fixtures and events, `getPredictionsFromPython`, and model training.
  - The prediction service is the parameter `oracle`. It may fail, or may return too few scores.
  - The current event is a parameter.
  - The pool of all players (`getAllPlayers`, `findAll`) is a list parameter.
- Repositories are left out. The player repository is a map keyed by id, and `save` is a map update. Hibernate initialisation, transactions, logging, the Spring configuration and the controllers are left out too.
- The controllers' 15-player check (backend/src/main/java/com/fploptimizer/fplai/controller/TeamController.java:58-60) is not a precondition. Every property here holds for a squad of any size.
- Floating point is left out. Predictions and scores are `real`. Prices and the budget are integer tenths; the source passes the budget to `findBestTransfers` as a `double`.
- Averaged features are recorded symbolically, by which quantity they hold, not as the double the source computes. `parseDoubleOrDefault` and `isNumeric` are a parameter predicate, since they call `Double.parseDouble`.
- PredictionService.ConvertKeys: states the keys, but not the values of the averaged and parsed features, which are floating-point divisions.
- 32-bit overflow of the `int` fields (costs, counts, budget arithmetic) is not modelled; only the hash codes wrap.
- `Transfer.java` and `Team.java` are not modelled as written, because their fields and constructors do not match what the services call. A transfer is (out, in), with cost = in.nowCost − out.nowCost and gain = in.prediction − out.prediction. A team is (players, budget, transfers).
- Two parts of `PlayerTeam` are left out. Its `players` list is never read by the core. The `getClass()` arm of its `equals` cannot arise, because the argument is always a club.
- Player's full constructor is the datatype's own constructor, which stores every argument in the field of the same name; it needs no separate member.
- `PlayerData` is a value. The source sets predictions on the same objects it collected earlier, and the model instead keeps the scored copies, so aliasing of those objects is not modelled.
- A null `result` or `name` string is not modelled (the `switch` on a null result would throw); strings are plain values.
- PredictionService.GenerateAndSavePlayerPredictions, RunPlayer and CreatePredictionInputs take a ghost set `clubs`: the clubs the repository holds. Their precondition `Covers` says every club a player's run reads is among them; it is a framing device for the verifier, not a condition the source checks.
- `PlayerServiceImpl.searchPlayers`, the React UI and the Python training script are not part of this model.
- TeamService.OptimizeEmptySquad: follows the test's first assertions only. The test's lines 63-66 check fetch calls that `optimizeTeam` never makes.
