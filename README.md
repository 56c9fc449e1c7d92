# 上海大富翁: the turn and economy engine

A Dafny model of the game engine of 上海大富翁, a Monopoly-style board game for one
human against up to three AI players, played on a 62-tile map of Shanghai. The model
covers:

- the record types;
- the board builder, which lays a ring of 56 tiles and a six-tile shortcut from
  人民广场 (id 18) to 徐家汇 (id 32);
- the opening game;
- the turn controller: `nextTurn` with its skip over bankrupt seats, and `endAction`;
- the start-of-round events: the global economy shock every 20 rounds and the four
  black-swan actions;
- the dice roll with its jail skip, the movement loop with its branch suspension, pass-go
  reward and 20-pass brake, and the direction choice;
- the landing dispatcher;
- buying, upgrading, the AI's accept thresholds, rent, tax, bank bonus, chance money and
  bankruptcy.

## Layout

| file | module | what it holds |
|---|---|---|
| `types.dfy` | `Types` | tiles, players, characters and the game state as datatypes |
| `seqs.dfy` | `Seqs` | `find`, `filter` and an ascending numeric sort, as functions |
| `state.dfy` | `State` | the well-formedness invariant `ValidState`, `updatePlayer` as `UpdateById`, money totals |
| `board.dfy` | `Board` | `addTile` and `generateShanghaiMap` as methods with loops, and the graph facts of the board |
| `turns.dfy` | `Turns` | `nextTurn` (its skip loop as a method and as a function), `endAction`, the roll guard |
| `economy.dfy` | `Economy` | rent, the buy and upgrade decisions and records, rent payment, bankruptcy, money changes |
| `movement.dfy` | `Movement` | the walk of `performMovement` as a function, the landing, the direction choice, the roll |
| `macro.dfy` | `Macro` | the start-of-round effect, the global event and the black swan |
| `engine.dfy` | `Engine` | the opening game, and `class Session` |

`App.tsx` keeps the whole game in one React state cell, `gameState`, and replaces it
through `setGameState(prev => …)`. It also keeps the last round that had its start-of-round
event in `lastProcessedTurnRef`. `Engine.Session` holds these two as mutable fields,
`state` and `lastProcessedTurn`. Each handler is a method with `modifies this`, and each
method is proved equal to a pure transition function on the old state. The function's
properties are then proved as lemmas. Two loops of the source stay loops:

- the skip loop of `nextTurn` (`Turns.FindNextIndex`);
- the hop loop of `performMovement` (`Engine.Session.Walk`, one pass per call of
  `Engine.Session.Pass`).

`Session.Valid()` is the invariant that every reachable state keeps: a non-empty roster
with distinct ids, an index into it, positions on the board, a board whose successors name
existing tiles, and owners from the roster.

Money is an exact `real`. The factor 2.2 is 11/5 and `Math.floor` is `.Floor`.

Several behaviours of the source are reproduced as written and stated as lemmas:

- a direction choice with one step left never dispatches a landing and the game stalls
  (`Movement.OneStepChoiceStalls`);
- a player bankrupted by rent keeps the turn, while one bankrupted by tax passes it
  (`Economy.RentOutcome`, `Movement.LandingOnTax`);
- buying leaves net worth unchanged, while upgrading raises it by the cost
  (`Economy.Purchase`, `Economy.Improve`);
- the pass-go reward, the tax and the bank bonus change money only;
- `WIPE_PROPERTY` keeps owners, so an owned plot at level 0 charges 5/11 of its base rent
  (`Macro.WipePropertyKeepsOwners`, `Economy.RentAtLowLevels`);
- the round counter stops rising once seat 0 is bankrupt
  (`Turns.RoundCounterStallsWithoutSeatZero`);
- nothing sets `isJailed` above 0. `JailFree` holds in the opening game and every
  transition preserves it, so the jail skip of `handleRollDice` is unreachable.

## Model

| member | source | states |
|---|---|---|
| `Board.BoardGraph` | types.ts:13-19 | every tile's id is its position, and every tile has at least one successor, each naming a tile of the board |
| `Board.RentFor` | constants.ts:57 | base rent is 15% of the price, 0 for a tile without one |
| `Board.AddTile` | constants.ts:46-61 | appends one fresh tile (id = counter, unowned, level 0) with the given name, kind and price; its successor is the override or [id+1]; the counter rises by one and earlier tiles are kept |
| `Board.SideStep` | constants.ts:46-61 | appending the next tile of a side, named, typed and priced as that side lays it, extends the laid run by one and keeps the earlier tiles |
| `Board.LayPudongSide` | constants.ts:84-90 | appends the ten Pudong tiles, named in order, chance tiles at offsets 3 and 7 and plots elsewhere, priced 15M + offset × 1M, each leading to the next id, all fresh |
| `Board.LayNorthSide` | constants.ts:96-107 | appends the fifteen north-side tiles, named in order, a bank at offset 4, a shop at 8, a chance tile at 12, priced 50M at 南京东路 and 静安寺 and 40M elsewhere, each leading to the next id, all fresh |
| `Board.LayWestSide` | constants.ts:114-124 | appends the twelve west-side tiles, named in order, the jail at offset 2, the tax office at 7, a chance tile at 10, priced 30M before offset 7 and 15M from it, each leading to the next id, all fresh |
| `Board.LaySouthSide` | constants.ts:129-135 | appends the fifteen south-side tiles, named in order, a chance tile at offset 5 and a shop at 11, all priced 25M, each leading to the next id, all fresh |
| `Board.LayRing` | constants.ts:81-140 | the ring is 56 fresh tiles whose names, kinds and prices are `NameOf`, `KindOf` and `PriceOf` of their ids; 人民广场 is id 18 and 徐家汇 id 32, the first tiles with those names; every tile leads to the next id except tile 55, which leads back to 0 |
| `Board.LayShortcut` | constants.ts:153-190 | appends six fresh tiles named in order, a chance tile at offset 2 and a shop at 5, priced 80M for 新天地 and 55M for the others; each leads to the next id and the last one to `endId`; earlier tiles are kept |
| `Board.NameOf` | constants.ts:81-190 | the name of each of the 62 tile ids: 起点 at 0, then the Pudong, north, west and south names with the corners 东方明珠 (11), 虹桥机场 (27) and 老街 (40), then the six shortcut names from 56 |
| `Board.KindOf` | constants.ts:81-190 | the kind of each tile id: start at 0, the side kinds by offset, a plot at 11, the park at 27 and a shop at 40 |
| `Board.PriceOf` | constants.ts:81-190 | the price of each tile id: none at 0, 27 and 40, 60M at 11, and the side prices by offset elsewhere |
| `Board.SuccessorsOf` | constants.ts:138-193 | the successors of the finished board: 人民广场 (18) leads to 19 and to 56, tile 55 leads back to 0, the last shortcut tile 61 leads to 徐家汇 (32), and every other tile to the next id |
| `Board.ShanghaiBoard` | constants.ts:81-193 | the board `generateShanghaiMap` returns: 62 fresh unowned level-0 tiles whose names, kinds, prices and successors are `NameOf`, `KindOf`, `PriceOf` and `SuccessorsOf` of their ids, with rent 15% of the price |
| `Board.RingLookups` | constants.ts:145-146 | on the ring, the lookups by name find 人民广场 at id 18 and 徐家汇 at id 32 |
| `Board.GenerateShanghaiMap` | constants.ts:42-197 | the board is 62 fresh tiles with ids equal to indices; each tile has the name, kind and price of the closed forms `NameOf`, `KindOf`, `PriceOf` and the successor list `SuccessorsOf` (ring, shortcut 56..61 back to 32, branch at 18) |
| `Board.BranchCompletesBoard` | constants.ts:192-193 | the ring plus the shortcut, once 人民广场 also leads to id 56, is the Shanghai board, names, kinds and prices included |
| `Board.RingPrefix` | constants.ts:81-140 | the start, the four sides and three corners laid in order give 56 tiles with straight links and the closed-form names, kinds and prices |
| `Board.NorthPremiumNames` | constants.ts:104 | the name test of the north side holds exactly at offsets 2 and 9 |
| `Board.ShortcutPremiumName` | constants.ts:153-190 | the name test of the shortcut holds exactly at offset 0 |
| `Board.NamesBeforeRenmin` | constants.ts:84-124 | no tile before id 18 is named 人民广场 and none before id 32 is named 徐家汇 |
| `Board.ShanghaiBoardIsGraph` | constants.ts:140 | every successor on the board names one of its 62 tiles and every tile has one |
| `Board.OnlyRenminBranches` | constants.ts:192-193 | a tile has more than one successor iff it is 人民广场; its successors are 19 and 56 |
| `Board.SpecialTiles` | constants.ts:81-190 | on the finished board the start is tile 0, the bank 16, the park 27, the jail 30, the tax office 35; chance tiles are exactly 4, 8, 24, 38, 46, 58 and shops exactly 20, 40, 52, 61; only tiles 0, 27 and 40 have no price, and every plot costs at least 15M |
| `Board.HopsToStart` | constants.ts:138-193 | hops from a tile to the start: round the rest of the ring, or down the rest of the shortcut and round from 徐家汇 |
| `Board.HopApproachesStart` | constants.ts:138-193 | every hop from a tile other than the start strictly lowers the hop count to the start |
| `Board.WalkReachesStart` | constants.ts:138-193 | any walk along successors, whatever branch it takes, reaches tile 0 within `HopsToStart` hops |
| `Seqs.FindIndex` | App.tsx:15 | the index of the first element satisfying the predicate; none iff no element does |
| `Seqs.Filter` | App.tsx:156 | the result holds exactly the elements of the input that satisfy the predicate, never more copies of one than the input |
| `Seqs.FilterCounts` | App.tsx:156 | every copy of an element that satisfies the predicate is kept, and no copy of one that fails it |
| `Seqs.FilterAppend` | App.tsx:156 | the filter of a concatenation is the concatenation of the filters, so `filter` keeps the input order |
| `Seqs.FilterHeadIsFound` | App.tsx:156-157 | the filter is non-empty iff `find` succeeds, and its head is the found element |
| `Seqs.InsertAsc` | App.tsx:202 | inserting into an ascending sequence keeps it ascending and adds the element to the multiset |
| `Seqs.SortedCons` | App.tsx:202 | a lower bound of an ascending sequence put in front keeps it ascending |
| `Seqs.LowerBoundOfShuffle` | App.tsx:202 | a lower bound of every element bounds every element of any rearrangement |
| `Seqs.SortAsc` | App.tsx:202 | the sort is ascending, of the same length, and a permutation of its input |
| `State.ValidState` | types.ts:53-65 | the invariant every reachable game keeps: a non-empty roster with distinct ids, the active seat inside it, turnCount at least 1, positions on the board, a board graph, and owners that are players of the roster |
| `State.Ids` | types.ts:42-49 | the ids of the roster, in seat order |
| `State.IndexOf` | App.tsx:366 | the first seat holding the id |
| `State.IndexOfDistinct` | App.tsx:366 | with distinct ids, the seat found for a seat's id is that seat |
| `State.UpdateById` | App.tsx:142-144 | exactly the players with the id are rewritten; ids and length are kept |
| `State.UpdateByIdAt` | App.tsx:142-144 | with distinct ids, the update by id replaces exactly one seat |
| `State.ValidWithPlayers` | App.tsx:142-144 | a roster rewrite that keeps ids and positions keeps the state valid |
| `State.TotalsAfterReplace` | App.tsx:142-144 | replacing one player changes the money and net-worth totals by that player's difference |
| `Turns.Advance` | App.tsx:148-152 | the seat d steps after seat i, each step being `(i + 1) % n` |
| `Turns.HandsTurnOver` | App.tsx:148-154 | the new seat is d seats after the current one (1 ≤ d ≤ n), solvent, and every seat passed over is bankrupt |
| `Turns.Solvent` | App.tsx:156 | `players.filter(p => !p.isBankrupt)`: the solvent players in seat order |
| `Turns.SkipBankrupt` | App.tsx:148-154 | the skip loop stops on a seat of the roster |
| `Turns.FindNextIndex` | App.tsx:148-154 | the loop, run from (current+1) mod n, stops where `SkipBankrupt` says |
| `Turns.AdvanceWithinLap` | App.tsx:152 | within one lap the seat d steps on is i+d or i+d-n |
| `Turns.WrapOnce` | App.tsx:152 | one step past the last seat wraps to 0, any other step does not wrap |
| `Turns.AdvanceShift` | App.tsx:148-152 | d steps from (i+1) mod n are d+1 steps from i |
| `Turns.SkipBankruptSkipsOnlyBankrupt` | App.tsx:151-154 | the loop passes over bankrupt seats only, in cyclic order, and stops on a solvent one unless it ran out of attempts |
| `Turns.NextTurn` | App.tsx:146-171 | players and tiles are kept; the round counter stays or rises by exactly one onto seat 0 |
| `Turns.NextTurnRotates` | App.tsx:146-171 | at most one solvent player ends the game with that player (or none) as winner; otherwise the next solvent seat in cyclic order plays, the round counter rises iff that seat is 0, and dice, pending action and moving flag reset |
| `Turns.SkipFindsSolventSeat` | App.tsx:151-154 | with two solvent players the loop hands the turn to a solvent seat after passing over bankrupt ones only |
| `Turns.RoundCounterStallsWithoutSeatZero` | App.tsx:151-160 | once seat 0 is bankrupt, `nextTurn` never raises the round counter |
| `Turns.CanRoll` | App.tsx:264-266 | a roll is allowed only when nothing is moving, nothing is pending, no direction is awaited, and the seat is an AI or seat 0 |
| `Turns.EndAction` | App.tsx:483-487 | the pending action is cleared, and the turn passes exactly when asked to |
| `Economy.Pow` | App.tsx:440 | `Math.pow` for a natural exponent: the base multiplied by itself that many times |
| `Economy.Growth` | App.tsx:440 | `Math.pow(2.2, level − 1)` exactly, for every integer level, negative exponents included |
| `Economy.RentDue` | App.tsx:440-441 | base rent × 2.2^(level−1), halved when the payer's charm exceeds 90 and the draw exceeds 0.7 |
| `Economy.GrowthStep` | App.tsx:440 | one level more multiplies the rent factor 2.2^(level−1) by 2.2, at every level |
| `Economy.GrowthPositive` | App.tsx:440 | the rent factor is positive at every level |
| `Economy.RentGrowsGeometrically` | App.tsx:440-441 | raising a tile one level multiplies the rent due by 2.2 |
| `Economy.RentAtLowLevels` | App.tsx:440 | level 1 charges the base rent; level 0 charges 5/11 of it |
| `Economy.RentExample` | App.tsx:440-441 | a level-3 tile with base 3,000,000 charges 14,520,000, halved only for charm above 90 and a draw above 0.7 |
| `Economy.AiBuys` | App.tsx:396 | the AI buys when its money exceeds 1.2 × the price |
| `Economy.AiUpgrades` | App.tsx:407 | the AI upgrades when its money exceeds 1.5 × the upgrade cost |
| `Economy.AcceptDisabled` | App.tsx:398 | the human's accept button is disabled when the money is below the cost |
| `Economy.AiAcceptsOnlyAffordable` | App.tsx:396-409 | an AI that accepts a purchase or an upgrade could have pressed the human's button and keeps a positive balance |
| `Economy.Price` | App.tsx:394 | `tile.price || 0`: the price, or 0 for a tile without one |
| `Economy.UpgradeCost` | App.tsx:404 | one upgrade costs half the tile's price, 0 without one |
| `Economy.Purchase` | App.tsx:413-421 | the buyer pays the price and lists the tile, net worth unchanged; the tile gets that owner at level 1; total money falls by the price |
| `Economy.Improve` | App.tsx:426-434 | the owner pays half the price, which moves into net worth; the tile rises one level |
| `Economy.BuyProperty` | App.tsx:413-424 | the players and tiles are those of `Purchase`: the buyer pays the price and lists the plot, which gets the buyer as owner at level 1; nothing is left pending and the turn passes (`NextTurn` of the purchase) |
| `Economy.UpgradeProperty` | App.tsx:426-437 | the players and tiles are those of `Improve`: the owner pays the upgrade cost, which is added to net worth, and the plot goes up one level with its owner kept; nothing is left pending and the turn passes (`NextTurn` of the upgrade) |
| `Economy.PromptBuy` | App.tsx:391-400 | the offer keeps the state valid and never lowers the round counter |
| `Economy.PromptUpgrade` | App.tsx:402-411 | the offer keeps the state valid and never lowers the round counter |
| `Economy.BuyAcceptDisabled` | App.tsx:398 | the buy button is disabled when the current player's money is below the tile's price |
| `Economy.UpgradeAcceptDisabled` | App.tsx:409 | the upgrade button is disabled when the current player's money is below half the tile's price |
| `Economy.UnaffordableOfferExample` | App.tsx:398 | a human with 3,000,000 facing a 15,000,000 plot sees the button disabled; declining leaves the plot unowned and passes the turn |
| `Economy.BuyOfferOutcome` | App.tsx:391-400 | a human is left with the offer and nothing changes; an AI owns the plot afterwards iff its money exceeds 1.2 × the price, paying it; when it declines no player or tile changes |
| `Economy.UpgradeOfferOutcome` | App.tsx:402-411 | at level 5 the turn just passes; below it a human is left with the offer; an AI's plot rises one level iff its money exceeds 1.5 × the cost, paying it into net worth; when it declines nothing changes |
| `Economy.RentTransfer` | App.tsx:443-444 | the payer's money and net worth fall by the rent, the owner's rise by it, nobody else changes, and both totals are conserved |
| `Economy.PayRent` | App.tsx:439-450 | rent payment keeps the state valid and never lowers the round counter |
| `Economy.RentOutcome` | App.tsx:439-450 | the owner receives the rent; a payer left negative goes bankrupt with money 0, loses every tile and keeps the turn; otherwise the turn passes and total money is conserved |
| `Economy.Insolvent` | App.tsx:470-471 | the player with the id is on the roster and has a negative balance |
| `Economy.Bankrupt` | App.tsx:469-476 | bankrupting a player keeps the state valid |
| `Economy.CheckBankruptcy` | App.tsx:469-479 | the bankruptcy test keeps the state valid and the round counter |
| `Economy.BankruptcyReleasesTiles` | App.tsx:469-479 | a solvent player is left alone; an insolvent one is flagged bankrupt with money 0, keeps properties list and net worth, and every tile it owned is unowned at level 0, nothing else changing |
| `Economy.AddMoney` | App.tsx:311-315 | only the named player's money changes, by the amount; net worth is untouched |
| `Economy.ChanceEvent` | App.tsx:452-467 | the lander's money and net worth rise by the drawn amount, no other seat and no tile changes, and both totals rise by it; a human is left with the event to acknowledge, while an AI's turn passes at once |
| `Movement.SetPosition` | App.tsx:318-319 | only the named player's position changes |
| `Movement.ReplacePlayer` | App.tsx:142-144 | one seat is replaced by a player with the same id; the state stays valid |
| `Movement.HopPlayer` | App.tsx:310-319 | the walker moves to `next[0]`, and only its money and position may change |
| `Movement.WalkFrom` | App.tsx:288-326 | the walk ends on a tile of the board, changes only money and position, and a landing is on the walker's tile |
| `Movement.Mover` | App.tsx:294 | the seat of the walker, as `players.find(p => p.id === playerId)` finds it |
| `Movement.Hopped` | App.tsx:310-319 | one hop keeps the state valid, the ids and the tiles |
| `Movement.Move` | App.tsx:282-328 | the walk keeps the state valid, ids, tiles, seat and round counter, and lands on a tile of the board |
| `Movement.WalkCons` | App.tsx:310 | a hop onto the single successor followed by a single-successor walk is a single-successor walk |
| `Movement.WalkAccountsForSteps` | App.tsx:288-326 | each hop goes to the single successor; a landing comes after exactly `steps` hops; a suspension after fewer, on a branching tile; a halt only with no steps or at the brake |
| `Movement.WalkPaysPassGo` | App.tsx:311-319 | the walker gains the pass-go reward once per hop onto tile 0 and ends on the last tile hopped onto |
| `Movement.MoveMovesOnlyTheWalker` | App.tsx:282-328 | only the walker's record changes: money by the reward per hop onto tile 0, position to the last tile hopped onto |
| `Movement.MoveAccountsForSteps` | App.tsx:288-326 | every hop goes to the single successor; a landing is on the last tile after exactly `steps` hops; a halt only with no steps or at the brake |
| `Movement.MoveSuspension` | App.tsx:300-307 | a suspension leaves the walker on a branching tile with the game waiting for a direction and exactly the unspent steps stored; otherwise only players change |
| `Movement.MoveStep` | App.tsx:288-326 | with more than one step from a non-branching tile, the walk is the hop followed by the walk with one step and one pass fewer |
| `Movement.MoveStepTo` | App.tsx:288-326 | the same, with the counters of the next pass given by name |
| `Movement.LastHopLands` | App.tsx:320-325 | with one step left from a non-branching tile, the walk lands on the successor after one hop |
| `Movement.IdleMove` | App.tsx:288 | with no step to take or no pass left, the walk halts and changes nothing |
| `Movement.SuspendedMove` | App.tsx:300-307 | on a branching tile the walk suspends on the spot with the remaining steps stored |
| `Movement.HopUpdates` | App.tsx:310-319 | the pass-go update followed by the position update is one hop |
| `Movement.DiceNeverHitTheBrake` | App.tsx:275-288 | a throw of 1 to 6 never runs into the 20-pass brake: the walk lands or suspends |
| `Movement.Land` | App.tsx:348-388 | the landing keeps the state valid and never lowers the round counter |
| `Movement.LandingOnUnownedPlot` | App.tsx:358-361 | an unowned plot opens the buy offer: a human faces it with nothing else changed; an AI ends up owning the plot iff its money exceeds 1.2 × the price, paying the price and listing the plot, and otherwise no player or tile changes |
| `Movement.LandingOnOwnPlot` | App.tsx:362-364 | one's own plot below level 5 opens the upgrade offer: a human faces it with nothing else changed; an AI's plot goes up one level iff its money exceeds 1.5 × the upgrade cost, paying the cost into net worth, and otherwise no player or tile changes |
| `Movement.LandingOnFullyBuiltPlot` | App.tsx:362-364 | one's own plot at level 5 or more passes the turn and changes nothing else |
| `Movement.LandingOnForeignPlot` | App.tsx:365-368 | the owner is another seat; rent is charged iff that owner is free and solvent, otherwise the turn passes |
| `Movement.LandingOnTax` | App.tsx:373-379 | the tax takes 5,000,000 from money alone, then the bankruptcy check, then the turn passes; a player below 5,000,000 goes bankrupt |
| `Movement.LandingOnBank` | App.tsx:380-386 | the bank adds 5,000,000 to the lander's money alone, changes no other seat and no tile, and passes the turn |
| `Movement.LandingOnChance` | App.tsx:370 | a chance tile adds the drawn amount to the lander's money and net worth, changes no other seat and no tile, passes an AI's turn at once and leaves a human acknowledging the event |
| `Movement.LandingOnPlainTile` | App.tsx:372-387 | jail, start, shop and park tiles only pass the turn |
| `Movement.Movement` | App.tsx:282-328 | a movement keeps the state valid and never lowers the round counter |
| `Movement.Redirect` | App.tsx:334-341 | the current player stands on the chosen tile; the game plays on, moving, with no stored steps |
| `Movement.StepsAfterChoice` | App.tsx:331-344 | the steps still to walk after a direction choice: the stored `remainingSteps` less the one the choice spends |
| `Movement.DirectionSelect` | App.tsx:330-345 | the choice keeps the state valid and never lowers the round counter |
| `Movement.OneStepChoiceStalls` | App.tsx:288-345 | with one step left, the player is moved onto the chosen tile but no landing follows: `isMoving` stays set and no roll is possible |
| `Movement.ServeJailTurn` | App.tsx:268-271 | the jailed player has one jail turn fewer, nothing else changes |
| `Movement.RollDice` | App.tsx:262-279 | the roll keeps the state valid and never lowers the round counter |
| `Movement.RollDiceOutcome` | App.tsx:262-279 | a refused roll changes nothing; a jailed player serves a turn and the turn passes; otherwise the throw is recorded and movement starts |
| `Movement.RollAndMove` | App.tsx:262-279 | a roll with its movement keeps the state valid and never lowers the round counter |
| `Macro.RoundStartDue` | App.tsx:176-181 | the round start is due when the game is playing, seat 0 is to play, the round is past the first, the ref differs from turnCount, nothing is pending and nothing moves |
| `Macro.RoundStartEvent` | App.tsx:186-190 | every 20th round triggers the global event; otherwise a draw below 0.05 triggers the black swan, and anything else nothing |
| `Macro.Moneys` | App.tsx:249 | the moneys of the players, seat by seat |
| `Macro.Median` | App.tsx:202-203 | the money at index floor(n/2) of the players sorted by ascending money |
| `Macro.MedianIsAPlayersMoney` | App.tsx:202-203 | the median is some player's money, with the sorted moneys below index floor(n/2) at or below it and those above at or above it |
| `Macro.IsTargeted` | App.tsx:207-212 | ALL hits everyone, POOR money ≤ median, RICH money > median, LANDLORDS more than three plots, ODD_ID an odd id |
| `Macro.GlobalChange` | App.tsx:215-217 | the floored percentage of the money, pushed to ±2,000,000 by the sign of the percentage when smaller in magnitude and the percentage is not 0 |
| `Macro.GlobalChangeClamp` | App.tsx:215-217 | a non-zero percentage moves at least 2,000,000 in magnitude, with the sign of the percentage when clamped; a zero one moves nothing; otherwise the change is the floor of the percentage |
| `Macro.GlobalChangeExamples` | App.tsx:215-217 | −20% of 50,000,000 is −10,000,000; ±5% and +2.5% of 10,000,000 are clamped to ±2,000,000 |
| `Macro.ShockPlayer` | App.tsx:205-219 | the event keeps a player's id, position and jail count |
| `Macro.ApplyGlobalEvent` | App.tsx:201-222 | the event keeps the state valid, the tiles and the roster size |
| `Macro.GlobalEventEffect` | App.tsx:201-222 | only players change; bankrupt and untargeted players are untouched; a targeted solvent player gains the clamped change in both money and net worth |
| `Macro.IsShuffleOf` | App.tsx:249-250 | the shuffled moneys are a rearrangement of the players' moneys: same length, same multiset |
| `Macro.ApplyBlackSwan` | App.tsx:242-256 | the black swan keeps the state valid and the roster size |
| `Macro.SumRemove` | App.tsx:249-251 | summing after taking one element out accounts for that element |
| `Macro.MultisetRemove` | App.tsx:249-251 | taking one element out of a sequence takes one copy out of its multiset |
| `Macro.ShuffleHead` | App.tsx:249-251 | a rearrangement holds the first element somewhere, and the rest rearranges the remainder |
| `Macro.SumOfShuffle` | App.tsx:249-251 | the sum of a sequence depends only on its multiset |
| `Macro.TotalMoneyIsSum` | App.tsx:249 | the money total is the sum of the moneys |
| `Macro.SwapMoneyPreservesMoney` | App.tsx:248-251 | `SWAP_MONEY` keeps the multiset of moneys and total money, the tiles, and every other field of every player |
| `Macro.WipePropertyKeepsOwners` | App.tsx:247 | `WIPE_PROPERTY` zeroes every level, keeps every owner, and leaves the players alone |
| `Macro.CashActionsTouchMoneyOnly` | App.tsx:246-252 | `WIPE_CASH` sets every money to 100,000; `SUPER_TAX` sets every money, debts included, to the floor of its half, so a non-negative balance stays between 0 and what it was; neither touches anything else |
| `Macro.StartOfRound` | App.tsx:174-192 | the effect keeps the state valid and nobody is jailed by it; its gating is proved in `StartOfRoundFiresOnce` and which event it fires in `StartOfRoundDispatch` |
| `Macro.StartOfRoundFiresOnce` | App.tsx:174-192 | when the round start is not due nothing changes; afterwards the guard is closed for this round, the seat and round counter are unchanged, and a fired event leaves the game processing it |
| `Macro.StartOfRoundDispatch` | App.tsx:183-190 | on a due round start: every 20th round the global shock is applied while processing; in another round a draw below 0.05 applies the black swan while processing, and a higher draw only marks the round processed |
| `Engine.OtherCharacters` | App.tsx:16 | `otherChars`: the roster without the chosen character, in roster order |
| `Engine.ShuffledOpponents` | App.tsx:17 | `shuffledOthers` holds exactly the other characters, in any order |
| `Engine.Seat` | App.tsx:22-31 | a seat of the opening roster: 100,000,000 money and net worth, position 0, not bankrupt, not jailed, no plots, an AI unless it is seat 0 |
| `Engine.InitialState` | App.tsx:14-46 | the opening game is valid and nobody is jailed |
| `Engine.InitialSeating` | App.tsx:14-31 | seat 0 is the chosen character and the only human; exactly min(3, roster size − 1) AI opponents follow, the first of the shuffled other characters, none of them the chosen one |
| `Engine.OpponentCount` | App.tsx:16-17 | the shuffle holds all the other characters: one fewer than the roster |
| `Engine.OtherCharactersCount` | App.tsx:16 | with distinct ids, leaving out the chosen id drops exactly one character when it is on the roster |
| `Engine.OpponentsDistinct` | App.tsx:16-17 | the shuffled opponents have distinct ids, come from the roster and are not the chosen character |
| `Engine.InitialStateFacts` | App.tsx:22-45 | everyone has 100,000,000 in money and net worth on tile 0, free, solvent, with no plots; the board is the one given; round 1, seat 0, nothing pending, nothing moving, no winner |
| `Engine.Session.constructor` | App.tsx:14-46 | the session starts from the opening game on the Shanghai board with no round processed |
| `Engine.Session.NextTurn` | App.tsx:146-171 | the new state is `Turns.NextTurn` of the old one, found by the skip loop |
| `Engine.Session.EndAction` | App.tsx:483-487 | the new state is `Turns.EndAction` of the old one |
| `Engine.Session.StartOfRound` | App.tsx:174-192 | state and processed round are those of `Macro.StartOfRound`: unchanged when the round start is not due, otherwise the round is marked processed and the shock, the black swan or nothing is applied as `StartOfRoundDispatch` states |
| `Engine.Session.CheckBankruptcy` | App.tsx:469-479 | reports insolvency and leaves the state of `Economy.CheckBankruptcy` |
| `Engine.Session.BuyProperty` | App.tsx:413-424 | the new state is `Economy.BuyProperty` of the old one |
| `Engine.Session.UpgradeProperty` | App.tsx:426-437 | the new state is `Economy.UpgradeProperty` of the old one |
| `Engine.Session.PromptBuy` | App.tsx:391-400 | the new state is `Economy.PromptBuy` of the old one |
| `Engine.Session.PromptUpgrade` | App.tsx:402-411 | the new state is `Economy.PromptUpgrade` of the old one |
| `Engine.Session.PayRent` | App.tsx:439-450 | the new state is `Economy.PayRent` of the old one |
| `Engine.Session.ChanceEvent` | App.tsx:452-467 | the new state is `Economy.ChanceEvent` of the old one: the lander gains the drawn amount in money and net worth, nothing else changes, and an AI's turn passes |
| `Engine.Session.TileLanding` | App.tsx:348-388 | the new state is `Movement.Land` of the old one |
| `Engine.Session.Hop` | App.tsx:310-319 | one hop: returns `next[0]` of the walker's tile and leaves `Movement.Hopped` |
| `Engine.Session.Pass` | App.tsx:288-326 | one pass spends a pass; when the walk is over the state and stop are those of the whole walk; otherwise the walk from the new counters ends as the walk from before |
| `Engine.Session.Walk` | App.tsx:286-326 | the loop leaves the state and the stop of `Movement.Move` with the 20-pass brake |
| `Engine.Session.PerformMovement` | App.tsx:282-328 | the new state is `Movement.Movement` of the old one |
| `Engine.Session.DirectionSelect` | App.tsx:330-345 | the new state is `Movement.DirectionSelect` of the old one |
| `Engine.Session.RollDice` | App.tsx:262-279 | the new state is `Movement.RollAndMove` of the old one |

## Left out

- Rendering and input are not modelled. This covers the camera, zoom, drag, minimap,
  modals, banners, speech bubbles, the log list and `components/`. It includes the
  in-place `players.sort` in the scoreboard at App.tsx:596, which reorders the roster while
  rendering.
- The event provider is not modelled. `services/geminiService.ts` is a network client. The
  global event (target, percentage), the black-swan action and the chance amount are
  parameters of the transitions.
- `Math.random` is not modelled. The opponent shuffle, the black-swan draw, the money
  shuffle, the dice throw, the AI's direction choice and the rent-halving draw are
  parameters. The distributions are not modelled.
- Timers, `await` and the `gameStateRef` plumbing are not modelled. Each handler runs as
  one transition on the latest state. So the AI's buy and upgrade decision, the delayed
  bankruptcy check after rent and the delayed `nextTurn` happen at once. Interleavings of
  timers that a real session could produce are not captured.
- Economy.ChanceEvent: an AI's chance result is shown in a modal whose 关闭 button also runs
  `endAction` (App.tsx:462-463). A click on it within the 3 seconds before the timer fires
  runs `endAction` a second time, so the turn passes twice. The timer's own call closes the
  modal (App.tsx:484), so without such a click the turn passes once. The model takes the
  timer's call only.
- Movement.DirectionSelect: the chosen tile is any tile of the board. The source offers
  only a successor of the branching tile, and the model does not require that.
- Money is an exact `real`, so IEEE double rounding is not modelled.
- Character fields that the engine does not read (name, avatar, colour, description, iq,
  luck, catchphrase) are not modelled. Neither are tile coordinates, colours and
  districts, nor the roster data of constants.ts:8-36. Only `charm` matters, for rent
  halving. The opening game is stated for any roster with distinct ids, as the twenty
  characters there have (ids 0 to 19).
- The modal's rendering of the disabled accept button is not modelled. It appears as the
  predicates `Economy.BuyAcceptDisabled` and `Economy.UpgradeAcceptDisabled`.
