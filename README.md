# Warlight bot planner — a Dafny model

This project models the per-turn planning of the CarloMagno Warlight bot, a
Java bot for a Risk-like game of regions, armies and two players. It covers:

- **The territory graph** (`Region`), in module `Regions`. It is an arena
  class `RegionGraph` holding every region by its integer id. Each region has
  an owner, an army count and a neighbour-id list. The class invariant is
  that adjacency is closed, symmetric and free of duplicates. `addNeighbor`,
  `setArmies`, `setPlayerName` and the two constructors are methods that
  reassign the arena. `isSafe` and `isThreatened` are loop scans over the
  neighbour list. `isNeighbor` and `ownedByPlayer` are the predicates
  `Region.IsNeighbor` and `Region.OwnedByPlayer`, and the getters are the
  fields of the `Region` datatype.
- **The ranking record** (`RegionAdvantage`), in module `Advantages`. It is the
  datatype `Advantage(region, difference)`; its constructor and getters are
  the datatype's constructor and fields. `compareTo` is proved to be a total
  preorder on the difference alone. `Collections.sort` is modelled as a
  stable insertion sort, proved sorted, a permutation and stable.
- **The planner** (`BotStarter`), in modules `Risk`, `Ranking`, `Placing` and
  `Attacking`. It works on a snapshot of the map: `Board` maps ids to regions,
  and the visible regions are a sequence of ids.
  - Each loop of the source is a method whose `ensures` ties its result to a
    specification function.
  - The budget and ordering properties are proved about those functions.
  - Every loop over a list is specified by a function defined on the list's
    prefixes, so the loop invariant reads `result == F(list[..i])`.

Java's `(int)` cast of a product with a rate is modelled as truncation toward
zero (`JavaInt.TruncDiv`). Each rate is its exact fraction:
- `(int) (0.8 * p)` is `TruncDiv(4 * p, 5)`;
- `(int) (0.7 * p)` is `TruncDiv(7 * p, 10)`;
- `n < p * 0.6` is `5 * n < 3 * p`;
- `ceil(n / 0.3)` is `(10 * n + 2) / 3`.

The two exceptions the code can raise are returned as `Err` values of
`Moves.Result`, not excluded by preconditions:
- `neighborAdvantages.get(0)` on an empty ranking with troops left over
  (`IndexOutOfBounds`);
- the integer division by an empty neighbour list in the transfer block
  (`DivisionByZero`).

Behaviour of the code that the model follows as written:
- Only owned regions that are not safe are ranked for placement.
- Rule (a)'s eligibility reads the origin's armies on the map. The troops it
  commits are taken from the running `presentTroops`.
- The transfer block is outside the `if owned` test, so it applies to every
  visible region whose neighbours are all the player's, whoever owns that
  region. `Attacking.NeutralRegionTransfers` exhibits a neutral region
  emitting a transfer.
- An opponent's region can never be the target of rule (c), because being
  next to it makes the origin threatened. So an origin of 10 armies next to
  an opponent's region of 4, short of the rule (b) estimate, issues no order
  (`Attacking.ThreatenedHoldScenario`).
- Rule (a) commits from the decremented `presentTroops`, so late in the
  neighbour loop it can emit an order of 0 troops
  (`Attacking.ComboDrainScenario`).

## Model

| member | source | states |
|---|---|---|
| JavaInt.TruncDiv | src/bot/BotStarter.java:346-347 | the `(int)` cast of a quotient: its magnitude is the floor of the exact magnitude, and its sign is the sign of the exact quotient |
| Regions.Link | src/main/Region.java:37-44 | `a.addNeighbor(b)`: `b` ends up in `a`'s list, only the neighbour lists of `a` and `b` can change, and every other region and every id, owner and army count is untouched |
| Regions.LinkConnects | src/main/Region.java:37-44 | in a symmetric graph, after linking, `b` is in `a`'s list and `a` is in `b`'s |
| Regions.LinkPreservesWellFormed | src/main/Region.java:37-44 | linking keeps adjacency closed, symmetric and duplicate-free |
| Regions.LinkIdempotent | src/main/Region.java:39-43 | linking the same pair again, in either order, changes nothing |
| Regions.LinkKeepsDuplicateFree | src/main/Region.java:39-43 | `addNeighbor` never adds a duplicate, in any graph, symmetric or not |
| Regions.Region.IsNeighbor | src/main/Region.java:50-55 | no ensures: the predicate is membership of `x` in the neighbour list |
| Regions.Region.OwnedByPlayer | src/main/Region.java:61-66 | no ensures: the predicate is equality of `p` with the region's owner |
| Regions.IsNeighborSymmetric | src/main/Region.java:50-55 | in a well-formed graph, `a.isNeighbor(b)` holds iff `b.isNeighbor(a)` |
| Regions.RegionGraph.NewRegion | src/main/Region.java:15-24 | the two-argument constructor adds a region with no neighbours, owner "unknown" and 0 armies, and keeps the invariant |
| Regions.RegionGraph.NewOwnedRegion | src/main/Region.java:26-35 | the four-argument constructor stores the given owner and armies, with no neighbours |
| Regions.RegionGraph.AddNeighbor | src/main/Region.java:37-44 | the arena becomes `Link` of the old one; the invariant is kept and both regions list each other |
| Regions.RegionGraph.SetArmies | src/main/Region.java:71-73 | only that region's army count changes |
| Regions.RegionGraph.SetPlayerName | src/main/Region.java:78-80 | only that region's owner changes |
| Regions.RegionGraph.IsSafe | src/main/Region.java:121-134 | true iff every neighbour has this region's own owner; true with no neighbours |
| Regions.RegionGraph.IsThreatened | src/main/Region.java:140-153 | true iff some neighbour is owned by the opponent |
| Advantages.CompareTo | src/bot/RegionAdvantage.java:29-37 | the result is -1, 0 or 1, being -1 exactly when this difference is smaller and 1 exactly when it is larger |
| Advantages.CompareToAntisymmetric | src/bot/RegionAdvantage.java:29-37 | `cmp(a, a) = 0` and `cmp(a, b) = -cmp(b, a)` |
| Advantages.CompareToTransitive | src/bot/RegionAdvantage.java:29-37 | at-most and strictly-below chains compose |
| Advantages.CompareToIgnoresRegion | src/bot/RegionAdvantage.java:29-37 | replacing the regions of both records leaves the comparison unchanged |
| Advantages.SortByDifference | src/bot/BotStarter.java:148 | `Collections.sort`: same length, a permutation of the input, non-decreasing by `compareTo` |
| Advantages.SortIsStable | src/bot/BotStarter.java:148 | for every difference value, the sorted list holds exactly the input's entries with that value in input order |
| Risk.IsSafe | src/bot/BotStarter.java:75-88 | true iff every neighbour of `r` is owned by `me`; true with no neighbours; `r`'s own owner is not read |
| Risk.IsThreatened | src/bot/BotStarter.java:94-107 | true iff some neighbour of `r` is the opponent's; false with no neighbours |
| Risk.SafeIsNotThreatened | src/bot/BotStarter.java:75-107 | between two distinct players a safe region is not threatened |
| Risk.SafeAndThreatenedAreNotComplements | src/bot/BotStarter.java:75-107 | a region next to a neutral one is neither safe nor threatened |
| Risk.Endangered | src/bot/BotStarter.java:248-252 | exactly the regions of the list that are owned by the player and not safe, each taken from the list; the filter of the fortifiable regions (248-252) and of the unsafe neighbours (370-374) |
| Risk.OwnedCount | src/bot/BotStarter.java:153-163 | the owned-region count lies between 0 and the number of visible regions |
| Risk.OwnedCountAll | src/bot/BotStarter.java:153-163 | the count equals the number of visible regions iff every visible region is the player's |
| Risk.CountOwnedRegions | src/bot/BotStarter.java:153-163 | the loop returns the count of visible regions owned by the player |
| Risk.ComboAttackChance | src/bot/BotStarter.java:165-188 | true iff the origin has more than 12 armies, the target has at most as many, the origin neighbours the target, and another neighbour of the target is the player's with more than 12 armies and at least the target's |
| Risk.EstimateAttackingTroops | src/bot/BotStarter.java:196-204 | the least `e` with `3e >= 10n` (`ceil(n / 0.3)`), non-negative for non-negative `n` |
| Ranking.StrongestOutsider | src/bot/BotStarter.java:133-142 | at least 0, at least every neighbour not owned by `me`, and either 0 or the armies of one such neighbour |
| Ranking.StrongestNeighbor | src/bot/BotStarter.java:133-142 | the inner max-tracking loop returns `StrongestOutsider` |
| Ranking.ComputeTroopDifferences | src/bot/BotStarter.java:125-151 | one entry per input region, each holding its armies minus its strongest outsider; the result is sorted, a permutation of those entries, and stable for every difference value |
| Ranking.RankSorted | src/bot/BotStarter.java:145-151 | the ranking placement works on is sorted by difference and holds one entry per region |
| Placing.CollectFortifiable | src/bot/BotStarter.java:248-252 | the loop collects `Endangered` of the visible regions |
| Placing.NegativeCount | src/bot/BotStarter.java:262-268 | `ind` bounds a run of negative differences and stops at the first non-negative one |
| Placing.NegativeTotal | src/bot/BotStarter.java:262-275 | a run of negative differences totals at most 0, and exactly 0 only when empty, so the deficit branch is taken iff `ind > 0` |
| Placing.SumNegativePrefix | src/bot/BotStarter.java:262-268 | the loop returns `ind` and the total of the prefix before it, negative iff `ind > 0` |
| Placing.Share | src/bot/BotStarter.java:279-280 | `(int) (initialTroops * difference / overall)`: 0 when the total is 0; between 0 and the pool when the difference is a part of the same-signed total (the same expression at 297-298) |
| Placing.ShareConcentrates | src/bot/BotStarter.java:277-280 | of two deficits, the larger one never receives a smaller share, and no share is negative |
| Placing.ShareScaled | src/bot/BotStarter.java:279-280 | a share of a difference with the total's sign is non-negative and at most `initialTroops × difference / overall` taken exactly (also 297-298) |
| Placing.FullShares | src/bot/BotStarter.java:277-303 | reference for the proportional loop when the guard never refuses: one positive placement of the player per entry with a positive share, in order |
| Placing.FullSharesBound | src/bot/BotStarter.java:277-303 | the truncated shares of same-signed differences total at most the pool's exact proportion of their sum |
| Placing.FullSharesZero | src/bot/BotStarter.java:292-303 | with a total of 0 no share is positive, so nothing is placed |
| Placing.GrantExtends | src/bot/BotStarter.java:280-284 | a pass whose positive share is covered by `armiesLeft` appends exactly that share; a non-positive share appends nothing |
| Placing.Grant | src/bot/BotStarter.java:280-284 | one pass either changes nothing or appends a positive placement covered by `armiesLeft`; `armiesLeft` and the placed total move together |
| Placing.Distribute | src/bot/BotStarter.java:277-303 | `armiesLeft` is the pool minus the placed total and never negative for a non-negative pool; every placement is the player's, positive and to a listed region; which entries are served is `DistributeFull` |
| Placing.DistributeFull | src/bot/BotStarter.java:277-303 | when the full shares fit the pool, the loop refuses nobody: its placements are exactly `FullShares`, one per entry with a positive share, in order |
| Placing.DeficitShares | src/bot/BotStarter.java:277-286 | the deficit loop yields `Distribute` over the negative prefix against its total |
| Placing.AddDifferences | src/bot/BotStarter.java:292-294 | the loop adds every difference onto the running total |
| Placing.ShareAll | src/bot/BotStarter.java:296-303 | the surplus loop yields `Distribute` over the whole ranking |
| Placing.SurplusShares | src/bot/BotStarter.java:288-304 | the surplus branch yields `Distribute` against the total of all differences |
| Placing.ProportionalShares | src/bot/BotStarter.java:262-304 | the proportional stage, either branch |
| Placing.Proportional | src/bot/BotStarter.java:262-304 | the proportional stage: `armiesLeft` is the pool minus the placed total, non-negative for a non-negative pool, and every placement is positive and the player's; its exact placements are `ProportionalFull` |
| Placing.Sharing | src/bot/BotStarter.java:262-304 | the entries shared among (the negative prefix, or the whole ranking when it is empty) start with the first ranked entry |
| Placing.ProportionalSharing | src/bot/BotStarter.java:262-304 | both branches are the one loop over `Sharing` against its own total |
| Placing.SharingFits | src/bot/BotStarter.java:262-304 | on a sorted ranking the shared entries all have their total's sign, so their full shares never exceed the pool and the `armiesLeft >= destinedTroops` guard never refuses |
| Placing.ProportionalFull | src/bot/BotStarter.java:262-304 | on a sorted ranking with a non-negative pool every shared region gets exactly its `(int)` share when positive, in ranking order, and nothing else is placed |
| Placing.PlaceArmies | src/bot/BotStarter.java:262-312 | the only failure is the index exception on an empty ranking; every placement is positive and the player's; its exact result is `PlaceArmiesShares` |
| Placing.PlaceArmiesShares | src/bot/BotStarter.java:262-312 | on a sorted non-empty ranking with a non-negative pool the result is the full shares in ranking order followed, when armies are left, by one placement of exactly those armies on the first ranked region |
| Placing.PlacementBudget | src/bot/BotStarter.java:262-310 | the only failure is a positive pool with an empty ranking; placements are positive and the player's, sum exactly to the pool when some region is ranked, never exceed it, and are absent for a pool of 0 or less |
| Placing.PlacementTargets | src/bot/BotStarter.java:262-310 | with a negative difference only the negative prefix is reinforced, remainder included; otherwise only ranked regions are |
| Placing.TwoDeficitsSplit | src/bot/BotStarter.java:275-286 | 5 troops over differences -4 and -1 are placed as 4 and 1 |
| Placing.GetPlaceArmiesMoves | src/bot/BotStarter.java:239-313 | the method returns `PlaceArmies` of the ranked fortifiable regions |
| Placing.RankedPlacement | src/bot/BotStarter.java:239-313 | for a non-empty list of regions ranked by difference and a non-negative pool, the placements are the full shares plus the remainder on the most exposed region |
| Placing.PlaceArmiesOnBoard | src/bot/BotStarter.java:239-313 | the call fails iff no owned region is unsafe and troops are positive; otherwise, with a fortifiable region and a non-negative pool, the placements sum to the pool |
| Attacking.ChooseRule | src/bot/BotStarter.java:345-356 | the first rule whose trigger holds is chosen: combo iff the target is the opponent's and `comboAttackChance` holds; defence iff not combo, the target is the opponent's, the origin is threatened and `estimate < (int) (0.7 p)`; expansion iff neither, the target is not the player's, the origin is unthreatened, `p > 2` and `5n < 3p`; hold iff no trigger holds |
| Attacking.Committed | src/bot/BotStarter.java:346-355 | a hold commits 0, rule (b) the estimate, and rules (a) and (c) `floor(0.8 p)` for non-negative `p` |
| Attacking.StepBounds | src/bot/BotStarter.java:345-356 | a firing rule commits between 0 and `presentTroops`; expansion commits something and leaves at least one unit |
| Attacking.Advance | src/bot/BotStarter.java:342-356 | one pass keeps `orders total + presentTroops` constant; it changes nothing iff the chosen rule is hold, and otherwise appends one order of exactly the troops `Committed` for that rule, which leave `presentTroops` |
| Attacking.AdvanceKeepsAttacked | src/bot/BotStarter.java:342-356 | a pass never removes an order already emitted |
| Attacking.ComboAdvanceAttacks | src/bot/BotStarter.java:345-347 | a pass over an opponent's region with a combo chance always emits an order to it |
| Attacking.ComboTargetsAttacked | src/bot/BotStarter.java:338-356 | every opponent neighbour with a combo chance receives an order, whatever troops remain when the loop reaches it |
| Attacking.AttackScan | src/bot/BotStarter.java:338-356 | the neighbour loop: orders total plus `presentTroops` equals the origin's armies, and every order is the player's, from the origin, to a scanned neighbour |
| Attacking.AttackScanBudget | src/bot/BotStarter.java:338-356 | `presentTroops` never goes negative, no order is negative, and the attack orders sum to at most the origin's armies |
| Attacking.OwnNeighboursDrawNoAttack | src/bot/BotStarter.java:345-356 | an origin whose neighbours are all the player's issues no attack |
| Attacking.ComboDrainScenario | src/bot/BotStarter.java:345-347 | a 15 facing three opponent 10s, each backed by a 13, sends 12, 2 and then 0 |
| Attacking.SendAll | src/bot/BotStarter.java:381-383 | one order of `troopChunk` per destination, in order |
| Attacking.SendAllTotal | src/bot/BotStarter.java:379-391 | the orders total `troopChunk × destinations` |
| Attacking.Split | src/bot/BotStarter.java:378-392 | the even split: with a positive chunk `transferrableTroops / n`, exactly one order of the chunk to each destination, in order, otherwise none; in all it sends at most `transferrableTroops` |
| Attacking.ChunkedTotal | src/bot/BotStarter.java:379-391 | `(t / n) × n <= t` for the chunk orders |
| Attacking.TransferBudget | src/bot/BotStarter.java:361-394 | transfers only below 30 owned regions from a region whose neighbours are all the player's; they total at most `armies - 1`, are positive and go to neighbours, and go only to unsafe owned ones when there are any; the even split itself is `TransferEvenSplit` |
| Attacking.Transfers | src/bot/BotStarter.java:361-394 | the transfer block for one region; its only failure is the division by zero, on a region without neighbours |
| Attacking.TransferEvenSplit | src/bot/BotStarter.java:361-394 | below the limit, from a region whose neighbours are all the player's and with more than one army: every unsafe owned neighbour, or every neighbour when there are none, gets exactly one order of `(armies - 1) / destinations`, and nothing is sent when that is 0 |
| Attacking.TransferFailure | src/bot/BotStarter.java:362-386 | the transfer block divides by zero iff the player owns fewer than 30 regions and the region has no neighbours and more than one army |
| Attacking.OrdersFrom | src/bot/BotStarter.java:334-394 | one visible region's orders fail exactly when its transfer block does, and a region not the player's issues only its transfers |
| Attacking.OriginBudget | src/bot/BotStarter.java:332-395 | per visible region, the orders are non-negative, leave that region and together move at most its armies |
| Attacking.Plan | src/bot/BotStarter.java:332-395 | the loop over the visible regions; its only exception is the division by zero |
| Attacking.AttackTransferPlan | src/bot/BotStarter.java:320-398 | `getAttackTransferMoves` with the owned count computed first; its only exception is the division by zero |
| Attacking.PlanFailure | src/bot/BotStarter.java:320-398 | the whole call fails iff fewer than 30 regions are owned and some visible region is isolated with troops to spare |
| Attacking.PlanFailureSticks | src/bot/BotStarter.java:332-395 | an exception in one region ends the whole call with that exception |
| Attacking.PlanOrders | src/bot/BotStarter.java:320-398 | every order of a successful call is the player's, leaves a visible region and is non-negative |
| Attacking.ExpansionScenario | src/bot/BotStarter.java:352-355 | an unthreatened 10 next to a neutral 4 sends 8 |
| Attacking.ThreatenedHoldScenario | src/bot/BotStarter.java:345-356 | a 10 next to an opponent's 4 is threatened, short of the estimate 14, and issues nothing |
| Attacking.DefenceScenario | src/bot/BotStarter.java:348-351 | a threatened 20 sends the estimate 10 against an opponent's 3 |
| Attacking.ComboScenario | src/bot/BotStarter.java:345-347 | a 15 backed by a 13 sends 12 against an opponent's 10 |
| Attacking.NeutralRegionTransfers | src/bot/BotStarter.java:357-365 | a neutral region whose neighbours are all the player's emits a transfer |
| Attacking.GetAttackTransferMoves | src/bot/BotStarter.java:320-398 | the method returns `AttackTransferPlan`, whose properties are the lemmas above |
| Attacking.PlanRegion | src/bot/BotStarter.java:334-394 | one visible region's attacks, when it is owned, followed by its transfers |
| Attacking.AttackFrom | src/bot/BotStarter.java:338-356 | the neighbour loop returns `AttackScan`'s orders |
| Attacking.AttackStep | src/bot/BotStarter.java:342-356 | the three-rule if-chain performs `Advance` |
| Attacking.TransferFrom | src/bot/BotStarter.java:361-394 | the transfer block returns `Transfers` |
| Attacking.UnsafeNeighbors | src/bot/BotStarter.java:364-374 | the collecting loop returns `Endangered` of the neighbours |
| Attacking.SendChunks | src/bot/BotStarter.java:380-391 | the appending loop returns `SendAll` |

## Left out

- `getPreferredStartingRegions` draws regions with `Math.random`, which is left out as randomness. Its retry loop never reassigns its variable.
- `main`, `BotParser`, `BotState`, `Map`, `SuperRegion` and the move classes are not part of this model.
  - A move is the record `Placement` or `Order`.
  - `state.getVisibleMap().getRegions()` is the `visible` id sequence over a `Board`.
  - `getMyPlayerName`, `getOpponentPlayerName` and `getStartingArmies` are parameters.
- `SuperRegion.addSubRegion` in both constructors is left out, since that class is not modelled; the super region is kept as an integer id.
- `timeOut`, the unused constants `COMBO_MIN_RATE`, `PANIC_RATE` and `SUPERPOWER_TROOP_LIMIT`, the commented-out `getMaximumThreat` and `prepareEscape`, and `RegionAdvantage.toString` are left out as unused or dead.
- Region identity by reference (`equals`, `contains`) is identity by id.
- Regions.RegionGraph.NewRegion: requires an id not yet in the arena. Two Java objects with one id cannot both live in an id-keyed arena.
- Regions.RegionGraph.NewOwnedRegion: requires an id not yet in the arena, for the same reason.
- The static field `ownedRegions` is returned by `Risk.CountOwnedRegions` and passed on as a parameter, not written to shared state.
- Share: `(int) (initialTroops * troopRate)` is the exact quotient truncated toward zero. Java's `float` rate can round across an integer and change a share by one; every budget property holds either way, because of the `armiesLeft >= destinedTroops` guard.
- Share: a total of 0 in the surplus branch means every difference is 0. The float rate is then NaN, whose cast is 0, which is what the model returns.
- Attacking.ChooseRule: `0.7 * p`, `0.8 * p` and `p * 0.6` are taken as exact fractions, not as IEEE doubles. For `0.8` and `0.6` the two agree at least up to 20000 troops. The double `(int) (0.7 * p)` is one below `floor(7p / 10)` for some `p`, among them 90, 170, 180 and 330. So with 330 present against an opponent's 69 (estimate 230), Java holds where the model's rule (b) sends 230.
- Risk.EstimateAttackingTroops: ignores that `1.0 - 0.7` is not exactly 0.3 as a double. The double `ceil` agrees with the integer form at least up to 20000 armies.
- Java's 32-bit `int` wrap-around is not modelled. Army counts are unbounded integers, on the assumption that the game keeps them small.
- Placing.Distribute: its own contract states the budget and the targets, not which entries are served. The exact placements, under the condition that the full shares fit the pool, are the lemma `DistributeFull`, so that callers of `Distribute` need not reason about every share.
- Placing.Proportional: its own contract states the budget, not the placements themselves. On a sorted ranking with a non-negative pool they are the lemma `ProportionalFull`, for the same reason.
- Placing.PlaceArmies: its own contract states the failure case and positivity. The full result on a sorted non-empty ranking, remainder included, is the lemma `PlaceArmiesShares` (and `RankedPlacement` on the map), for the same reason.
- Attacking.AttackStep: `isThreatened` is evaluated for every target instead of only where `&&` reaches it. It has no side effect, so the outcome is the same.
- Attacking.AttackScanBudget, Attacking.OriginBudget and Attacking.PlanOrders assume no region holds negative armies and the two player names differ. The game guarantees both, and the code does not check them.
