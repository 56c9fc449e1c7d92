/** The game session of App.tsx: the `gameState` cell that every `setGameState` replaces,
    and the `lastProcessedTurnRef` that remembers which round already had its start-of-round
    event. Each handler is a method that changes the cell step by step, proved equal to the
    transition function that specifies it. */
module Engine {
  import opened Types
  import opened Seqs
  import opened Board
  import opened State
  import opened Turns
  import opened Economy
  import opened Movement
  import opened Macro

  const OPPONENTS: nat := 3

  function CharIds(cs: seq<Character>): seq<int> {
    seq(|cs|, i requires 0 <= i < |cs| => cs[i].id)
  }

  /** `otherChars`: the roster without the chosen character, in roster order. */
  function OtherCharacters(roster: seq<Character>, selectedId: int): seq<Character> {
    Filter(roster, (c: Character) => c.id != selectedId)
  }

  /** `shuffledOthers`: a reordering of all the other characters. */
  predicate ShuffledOpponents(roster: seq<Character>, selectedId: int, shuffled: seq<Character>) {
    multiset(shuffled) == multiset(OtherCharacters(roster, selectedId))
  }

  /** With distinct ids, leaving out the chosen character leaves one fewer character when
      it is on the roster. */
  lemma {:induction false} OtherCharactersCount(roster: seq<Character>, selectedId: int)
    requires Distinct(CharIds(roster))
    ensures |OtherCharacters(roster, selectedId)| == if selectedId in CharIds(roster) then |roster| - 1 else |roster|
  {
    if |roster| > 0 {
      var rest := roster[1..];
      assert CharIds(roster) == [roster[0].id] + CharIds(rest);
      DistinctTail(roster);
      OtherCharactersCount(rest, selectedId);
    }
  }

  /** Past the first character the ids stay distinct and none is the first one's. */
  lemma DistinctTail(cs: seq<Character>)
    requires |cs| > 0 && Distinct(CharIds(cs))
    ensures Distinct(CharIds(cs[1..])) && cs[0].id !in CharIds(cs[1..])
  {
    var ids := CharIds(cs);
    assert CharIds(cs[1..]) == ids[1..];
    forall i, j | 0 <= i < j < |ids| - 1 ensures ids[1..][i] != ids[1..][j] {
      assert ids[1..][i] == ids[i + 1] && ids[1..][j] == ids[j + 1];
    }
    forall k | 0 <= k < |ids| - 1 ensures ids[1..][k] != cs[0].id {
      assert ids[0] != ids[k + 1];
    }
  }

  /** A character whose id occurs once on a roster occurs there once. */
  lemma {:induction false} CountedOnce(cs: seq<Character>, x: Character)
    requires Distinct(CharIds(cs))
    ensures multiset(cs)[x] <= 1
  {
    if |cs| > 0 {
      var rest := cs[1..];
      assert cs == [cs[0]] + rest;
      DistinctTail(cs);
      CountedOnce(rest, x);
      if x == cs[0] {
        forall k | 0 <= k < |rest| ensures rest[k] != x {
          assert CharIds(rest)[k] == rest[k].id;
        }
      }
    }
  }

  /** Two positions holding the same element count it twice. */
  lemma CountTwoPositions(cs: seq<Character>, i: int, j: int)
    requires 0 <= i < j < |cs|
    ensures multiset(cs)[cs[i]] >= if cs[j] == cs[i] then 2 else 1
  {
    assert cs == cs[..j] + [cs[j]] + cs[j + 1..];
    assert cs[i] in cs[..j];
  }

  /** The shuffled opponents of a roster with distinct ids have distinct ids, come from the
      roster and are not the chosen character. */
  lemma OpponentsDistinct(roster: seq<Character>, selectedId: int, shuffled: seq<Character>)
    requires Distinct(CharIds(roster)) && ShuffledOpponents(roster, selectedId, shuffled)
    ensures Distinct(CharIds(shuffled))
    ensures forall i :: 0 <= i < |shuffled| ==> shuffled[i] in roster && shuffled[i].id != selectedId
  {
    var others := OtherCharacters(roster, selectedId);
    forall i | 0 <= i < |shuffled| ensures shuffled[i] in roster && shuffled[i].id != selectedId {
      assert shuffled[i] in multiset(shuffled);
      assert shuffled[i] in others;
    }
    forall i, j | 0 <= i < j < |shuffled| ensures shuffled[i].id != shuffled[j].id {
      var x := shuffled[i];
      CountTwoPositions(shuffled, i, j);
      CountedOnce(roster, x);
      assert multiset(shuffled)[x] <= multiset(roster)[x];
      var a :| 0 <= a < |roster| && roster[a] == x;
      var b :| 0 <= b < |roster| && roster[b] == shuffled[j];
      assert CharIds(roster)[a] == x.id && CharIds(roster)[b] == shuffled[j].id;
    }
  }

  /** All the other characters are shuffled: one fewer than the roster. */
  lemma OpponentCount(roster: seq<Character>, selectedId: int, shuffled: seq<Character>)
    requires Distinct(CharIds(roster)) && FindIndex(roster, (c: Character) => c.id == selectedId).Some?
    requires ShuffledOpponents(roster, selectedId, shuffled)
    ensures |shuffled| == |roster| - 1
  {
    OtherCharactersCount(roster, selectedId);
    var k := FindIndex(roster, (c: Character) => c.id == selectedId).value;
    assert CharIds(roster)[k] == selectedId;
    assert |shuffled| == |multiset(shuffled)|;
  }

  /** A seat of the opening roster: full starting money, on the start tile, free, no plots;
      seat 0 is the human. */
  function Seat(c: Character, index: int): Player {
    Player(c.id, c.charm, index != 0, INITIAL_MONEY, 0, false, 0, [], INITIAL_MONEY)
  }

  /** `createInitialState(selectedId)`: the chosen character followed by the first three
      shuffled opponents, on a copy of the board, seat 0 to play, round 1. */
  function InitialState(roster: seq<Character>, selectedId: int, shuffled: seq<Character>,
                        board: seq<Tile>): (s: GameState)
    requires Distinct(CharIds(roster)) && FindIndex(roster, (c: Character) => c.id == selectedId).Some?
    requires ShuffledOpponents(roster, selectedId, shuffled)
    requires BoardGraph(board) && FreshTiles(board, |board|) && |board| > 0
    ensures ValidState(s) && JailFree(s.players)
  {
    var user := roster[FindIndex(roster, (c: Character) => c.id == selectedId).value];
    var opponents := if |shuffled| <= OPPONENTS then shuffled else shuffled[..OPPONENTS];
    var chars := [user] + opponents;
    var players := seq(|chars|, i requires 0 <= i < |chars| => Seat(chars[i], i));
    OpponentsDistinct(roster, selectedId, shuffled);
    assert Distinct(Ids(players)) by {
      forall i, j | 0 <= i < j < |players| ensures players[i].id != players[j].id {
        if i > 0 {
          assert CharIds(shuffled)[i - 1] == chars[i].id && CharIds(shuffled)[j - 1] == chars[j].id;
        } else {
          assert chars[j] == shuffled[j - 1];
        }
      }
    }
    GameState(players, board, 0, 1, Playing, None, 0, false, NoAction, None)
  }

  /** The opening seats: the chosen character in seat 0 as the only human, then
      min(3, roster size - 1) AI opponents, the first of the shuffled other characters. */
  lemma InitialSeating(roster: seq<Character>, selectedId: int, shuffled: seq<Character>, board: seq<Tile>)
    requires Distinct(CharIds(roster)) && FindIndex(roster, (c: Character) => c.id == selectedId).Some?
    requires ShuffledOpponents(roster, selectedId, shuffled)
    requires BoardGraph(board) && FreshTiles(board, |board|) && |board| > 0
    ensures var s := InitialState(roster, selectedId, shuffled, board);
      |s.players| == 1 + (if |roster| - 1 <= OPPONENTS then |roster| - 1 else OPPONENTS) &&
      s.players[0].id == selectedId && !s.players[0].isAI &&
      (forall i :: 1 <= i < |s.players| ==>
         s.players[i].isAI && s.players[i].id == shuffled[i - 1].id && s.players[i].id != selectedId) &&
      (forall i :: 0 <= i < |s.players| - 1 ==> shuffled[i] in roster)
  {
    var user := roster[FindIndex(roster, (c: Character) => c.id == selectedId).value];
    var opponents := if |shuffled| <= OPPONENTS then shuffled else shuffled[..OPPONENTS];
    var chars := [user] + opponents;
    var s := InitialState(roster, selectedId, shuffled, board);
    assert s.players == seq(|chars|, i requires 0 <= i < |chars| => Seat(chars[i], i));
    OpponentCount(roster, selectedId, shuffled);
    assert |s.players| == 1 + |opponents|;
    OpponentsDistinct(roster, selectedId, shuffled);
    forall i | 1 <= i < |s.players|
      ensures s.players[i].isAI && s.players[i].id == shuffled[i - 1].id && s.players[i].id != selectedId
    {
      assert s.players[i] == Seat(chars[i], i) && chars[i] == shuffled[i - 1];
    }
  }

  /** The opening game: everyone with 100,000,000 in money and net worth on the start tile,
      nobody bankrupt or jailed, no plot owned, round 1 with seat 0 to play and nothing
      pending. */
  lemma InitialStateFacts(roster: seq<Character>, selectedId: int, shuffled: seq<Character>, board: seq<Tile>)
    requires Distinct(CharIds(roster)) && FindIndex(roster, (c: Character) => c.id == selectedId).Some?
    requires ShuffledOpponents(roster, selectedId, shuffled)
    requires BoardGraph(board) && FreshTiles(board, |board|) && |board| > 0
    ensures var s := InitialState(roster, selectedId, shuffled, board);
      (forall i :: 0 <= i < |s.players| ==>
         s.players[i].money == INITIAL_MONEY && s.players[i].netWorth == INITIAL_MONEY &&
         s.players[i].position == 0 && !s.players[i].isBankrupt && s.players[i].isJailed == 0 &&
         s.players[i].properties == []) &&
      s.tiles == board && s.currentPlayerIndex == 0 && s.turnCount == 1 && s.gameStatus == Playing &&
      s.pendingAction == NoAction && !s.isMoving && s.lastDiceRoll == None && s.winner == None
  {
    var user := roster[FindIndex(roster, (c: Character) => c.id == selectedId).value];
    var opponents := if |shuffled| <= OPPONENTS then shuffled else shuffled[..OPPONENTS];
    var chars := [user] + opponents;
    var s := InitialState(roster, selectedId, shuffled, board);
    assert s.players == seq(|chars|, i requires 0 <= i < |chars| => Seat(chars[i], i));
  }

  class Session {
    /** `gameState`. */
    var state: GameState
    /** `lastProcessedTurnRef.current`. */
    var lastProcessedTurn: int

    ghost predicate Valid()
      reads this
    {
      ValidState(state)
    }

    /** Choosing a character: the board is built and the opening game laid out. */
    constructor (roster: seq<Character>, selectedId: int, shuffled: seq<Character>)
      requires Distinct(CharIds(roster)) && FindIndex(roster, (c: Character) => c.id == selectedId).Some?
      requires ShuffledOpponents(roster, selectedId, shuffled)
      ensures Valid() && JailFree(state.players) && ShanghaiBoard(state.tiles)
      ensures state == InitialState(roster, selectedId, shuffled, state.tiles)
      ensures lastProcessedTurn == 0
    {
      var board := GenerateShanghaiMap();
      ShanghaiBoardIsGraph(board);
      state := InitialState(roster, selectedId, shuffled, board);
      lastProcessedTurn := 0;
    }

    /** `nextTurn`, with its skip loop. */
    method NextTurn()
      requires Valid()
      modifies this
      ensures Valid() && state == Turns.NextTurn(old(state)) && lastProcessedTurn == old(lastProcessedTurn)
    {
      var s := state;
      var nextIndex := FindNextIndex(s.players, s.currentPlayerIndex);
      var active := Solvent(s.players);
      if |active| <= 1 {
        state := s.(gameStatus := GameOver, winner := if |active| == 0 then None else Some(active[0]));
        assert state == Turns.NextTurn(s);
        return;
      }
      var newTurnCount := if nextIndex == 0 then s.turnCount + 1 else s.turnCount;
      state := s.(currentPlayerIndex := nextIndex, turnCount := newTurnCount, lastDiceRoll := None,
                  pendingAction := NoAction, isMoving := false);
      assert state == Turns.NextTurn(s);
    }

    /** `endAction(advanceTurn)`. */
    method EndAction(advanceTurn: bool)
      requires Valid()
      modifies this
      ensures Valid() && state == Turns.EndAction(old(state), advanceTurn)
      ensures lastProcessedTurn == old(lastProcessedTurn)
    {
      state := state.(pendingAction := NoAction);
      if advanceTurn {
        NextTurn();
      }
    }

    /** The start-of-round effect, run whenever the state it watches changes. */
    method StartOfRound(swanDraw: real, shock: GlobalEvent, swan: BlackSwanAction, shuffled: seq<real>)
      requires Valid()
      requires swan == SwapMoney ==> IsShuffleOf(shuffled, Moneys(state.players))
      modifies this
      ensures Valid() && (state, lastProcessedTurn) ==
        Macro.StartOfRound(old(state), old(lastProcessedTurn), swanDraw, shock, swan, shuffled)
    {
      if RoundStartDue(state, lastProcessedTurn) {
        lastProcessedTurn := state.turnCount;
        if state.turnCount % GLOBAL_EVENT_PERIOD == 0 {
          state := state.(pendingAction := EventProcessing);
          state := ApplyGlobalEvent(state, shock);
        } else if swanDraw < BLACK_SWAN_CHANCE {
          state := state.(pendingAction := EventProcessing);
          state := ApplyBlackSwan(state, swan, shuffled);
        }
      }
    }

    /** `checkBankruptcy(id)`: true when the player was insolvent and is now bankrupt. */
    method CheckBankruptcy(id: int) returns (bankrupt: bool)
      requires Valid()
      modifies this
      ensures Valid() && bankrupt == Insolvent(old(state), id)
      ensures state == Economy.CheckBankruptcy(old(state), id) && lastProcessedTurn == old(lastProcessedTurn)
    {
      bankrupt := Insolvent(state, id);
      if bankrupt {
        state := Bankrupt(state, id);
      }
    }

    /** `buyProperty(tileId)`. */
    method BuyProperty(tileId: int)
      requires Valid() && 0 <= tileId < |state.tiles|
      modifies this
      ensures Valid() && state == Economy.BuyProperty(old(state), tileId)
      ensures lastProcessedTurn == old(lastProcessedTurn)
    {
      state := Purchase(state, tileId);
      EndAction(true);
    }

    /** `upgradeProperty(tileId)`. */
    method UpgradeProperty(tileId: int)
      requires Valid() && 0 <= tileId < |state.tiles|
      modifies this
      ensures Valid() && state == Economy.UpgradeProperty(old(state), tileId)
      ensures lastProcessedTurn == old(lastProcessedTurn)
    {
      state := Improve(state, tileId);
      EndAction(true);
    }

    /** `promptBuyProperty`: the AI answers at once; a human's answer comes later, through
        `BuyProperty` or `EndAction(true)`. */
    method PromptBuy(tileId: int)
      requires Valid() && 0 <= tileId < |state.tiles|
      modifies this
      ensures Valid() && state == Economy.PromptBuy(old(state), tileId)
      ensures lastProcessedTurn == old(lastProcessedTurn)
    {
      var player := state.players[state.currentPlayerIndex];
      var cost := Price(state.tiles[tileId]);
      if player.isAI {
        if AiBuys(player.money, cost) {
          BuyProperty(tileId);
        } else {
          EndAction(true);
        }
      }
    }

    /** `promptUpgradeProperty`. */
    method PromptUpgrade(tileId: int)
      requires Valid() && 0 <= tileId < |state.tiles|
      modifies this
      ensures Valid() && state == Economy.PromptUpgrade(old(state), tileId)
      ensures lastProcessedTurn == old(lastProcessedTurn)
    {
      var player := state.players[state.currentPlayerIndex];
      var tile := state.tiles[tileId];
      var cost := UpgradeCost(tile);
      if tile.level >= MAX_LEVEL {
        NextTurn();
        return;
      }
      if player.isAI {
        if AiUpgrades(player.money, cost) {
          UpgradeProperty(tileId);
        } else {
          EndAction(true);
        }
      }
    }

    /** `payRent(payer, owner, tile)` with the current player paying. */
    method PayRent(ownerIndex: int, tileId: int, draw: real)
      requires Valid() && 0 <= ownerIndex < |state.players| && ownerIndex != state.currentPlayerIndex
      requires 0 <= tileId < |state.tiles|
      modifies this
      ensures Valid() && state == Economy.PayRent(old(state), ownerIndex, tileId, draw)
      ensures lastProcessedTurn == old(lastProcessedTurn)
    {
      var payer := state.players[state.currentPlayerIndex];
      state := RentTransfer(state, ownerIndex, RentDue(state.tiles[tileId], payer.charm, draw));
      var bankrupt := CheckBankruptcy(payer.id);
      if !bankrupt {
        NextTurn();
      }
    }

    /** `triggerChanceEvent` with the drawn amount; an AI acknowledges at once. */
    method ChanceEvent(effectAmount: real)
      requires Valid()
      modifies this
      ensures Valid() && state == Economy.ChanceEvent(old(state), effectAmount)
      ensures lastProcessedTurn == old(lastProcessedTurn)
    {
      var player := state.players[state.currentPlayerIndex];
      state := state.(pendingAction := EventProcessing);
      state := state.(players := UpdateById(state.players, player.id,
        (p: Player) => p.(money := p.money + effectAmount, netWorth := p.netWorth + effectAmount)));
      if player.isAI {
        EndAction(true);
      }
    }

    /** `handleTileLanding(pos)`. */
    method TileLanding(pos: int, d: LandingDraws)
      requires Valid() && 0 <= pos < |state.tiles|
      modifies this
      ensures Valid() && state == Land(old(state), pos, d) && lastProcessedTurn == old(lastProcessedTurn)
    {
      state := state.(isMoving := false);
      var tile := state.tiles[pos];
      var player := state.players[state.currentPlayerIndex];
      match tile.kind {
        case Property =>
          if tile.ownerId.None? {
            state := state.(pendingAction := BuyDecision);
            PromptBuy(pos);
          } else if tile.ownerId.value == player.id {
            state := state.(pendingAction := BuyDecision);
            PromptUpgrade(pos);
          } else {
            var o := IndexOf(Ids(state.players), tile.ownerId.value);
            var owner := state.players[o];
            if owner.isJailed == 0 && !owner.isBankrupt {
              PayRent(o, pos, d.rentDraw);
            } else {
              NextTurn();
            }
          }
        case Chance =>
          ChanceEvent(d.chanceAmount);
        case Tax =>
          state := AddMoney(state, player.id, -TAX_AMOUNT);
          var _ := CheckBankruptcy(player.id);
          NextTurn();
        case Bank =>
          state := AddMoney(state, player.id, BANK_BONUS);
          NextTurn();
        case Jail =>
          NextTurn();
        case Start =>
          NextTurn();
        case Shop =>
          NextTurn();
        case Park =>
          NextTurn();
      }
    }

    /** One hop of `performMovement` from a non-branching tile: the pass-go reward when the
        successor is tile 0, then the new position. */
    method Hop(id: int) returns (nextId: int)
      requires Valid() && id in Ids(state.players)
      requires |state.tiles[state.players[Mover(state, id)].position].next| <= 1
      modifies this
      ensures Valid() && lastProcessedTurn == old(lastProcessedTurn)
      ensures nextId == old(state).tiles[old(state).players[Mover(old(state), id)].position].next[0]
      ensures state == Hopped(old(state), id)
    {
      HopUpdates(state, id);
      var player := state.players[IndexOf(Ids(state.players), id)];
      nextId := state.tiles[player.position].next[0];
      if nextId == 0 {
        state := AddMoney(state, id, PASS_GO_REWARD);
      }
      state := SetPosition(state, id, nextId);
    }

    /** One pass of the loop of `performMovement`, counters included: spend a pass, then
        suspend at a branching tile, or hop and spend a step. `done` tells whether the walk
        is over; otherwise the walk still to come, from the new counters, ends as the walk
        from before the pass. */
    method Pass(id: int, steps: int, passes: nat) returns (stop: Stop, done: bool, stepsLeft: int, passesLeft: nat)
      requires Valid() && id in Ids(state.players) && steps > 0 && passes > 0
      modifies this
      ensures Valid() && id in Ids(state.players) && lastProcessedTurn == old(lastProcessedTurn)
      ensures passesLeft < passes
      ensures done ==> state == Move(old(state), id, steps, passes).state && stop == Move(old(state), id, steps, passes).stop
      ensures !done ==> Move(state, id, stepsLeft, passesLeft).state == Move(old(state), id, steps, passes).state
      ensures !done ==> Move(state, id, stepsLeft, passesLeft).stop == Move(old(state), id, steps, passes).stop
    {
      passesLeft := passes - 1;
      stepsLeft := steps;
      var player := state.players[IndexOf(Ids(state.players), id)];
      if |state.tiles[player.position].next| > 1 {
        SuspendedMove(state, id, steps, passes);
        state := state.(isMoving := false, gameStatus := WaitingForDirection, remainingSteps := steps);
        return AwaitingDirection, true, stepsLeft, passesLeft;
      }
      stepsLeft := steps - 1;
      if stepsLeft == 0 {
        LastHopLands(state, id, passes);
      } else {
        MoveStepTo(state, id, steps, passes, stepsLeft, passesLeft);
      }
      var nextId := Hop(id);
      if stepsLeft == 0 {
        return Landed(nextId), true, stepsLeft, passesLeft;
      }
      return Halted, false, stepsLeft, passesLeft;
    }

    /** The loop of `performMovement(id, steps)`: hop by hop, at most 20 passes, suspending
        at a branch; reports the tile reached when the last step is taken. */
    method Walk(id: int, stepsRemaining: int) returns (stop: Stop)
      requires Valid() && id in Ids(state.players)
      modifies this
      ensures Valid() && lastProcessedTurn == old(lastProcessedTurn)
      ensures var o := Move(old(state), id, stepsRemaining, LOOP_LIMIT); state == o.state && stop == o.stop
    {
      ghost var target := Move(state, id, stepsRemaining, LOOP_LIMIT);
      var currentSteps := stepsRemaining;
      var loopLimit: nat := LOOP_LIMIT;
      while currentSteps > 0 && loopLimit > 0
        invariant Valid() && id in Ids(state.players) && lastProcessedTurn == old(lastProcessedTurn)
        invariant Move(state, id, currentSteps, loopLimit).state == target.state
        invariant Move(state, id, currentSteps, loopLimit).stop == target.stop
        decreases loopLimit
      {
        var done;
        stop, done, currentSteps, loopLimit := Pass(id, currentSteps, loopLimit);
        if done {
          return;
        }
      }
      IdleMove(state, id, currentSteps, loopLimit);
      return Halted;
    }

    /** `performMovement(id, steps)`: the walk, then the landing on the tile reached. */
    method PerformMovement(id: int, stepsRemaining: int, d: LandingDraws)
      requires Valid() && id in Ids(state.players)
      modifies this
      ensures Valid() && state == Movement.Movement(old(state), id, stepsRemaining, d)
      ensures lastProcessedTurn == old(lastProcessedTurn)
    {
      var stop := Walk(id, stepsRemaining);
      if stop.Landed? {
        TileLanding(stop.tileId, d);
      }
    }

    /** `handleDirectionSelect(next)`. */
    method DirectionSelect(nextTileId: int, d: LandingDraws)
      requires Valid() && 0 <= nextTileId < |state.tiles|
      modifies this
      ensures Valid() && state == Movement.DirectionSelect(old(state), nextTileId, d)
      ensures lastProcessedTurn == old(lastProcessedTurn)
    {
      var s := state;
      var playerId := s.players[s.currentPlayerIndex].id;
      state := Redirect(s, nextTileId);
      assert Ids(state.players)[s.currentPlayerIndex] == playerId;
      PerformMovement(playerId, StepsAfterChoice(s), d);
    }

    /** `handleRollDice` with the thrown value, followed by the movement it schedules. */
    method RollDice(roll: int, d: LandingDraws)
      requires Valid()
      modifies this
      ensures Valid() && state == RollAndMove(old(state), roll, d)
      ensures lastProcessedTurn == old(lastProcessedTurn)
    {
      if !CanRoll(state) {
        return;
      }
      var player := state.players[state.currentPlayerIndex];
      if player.isJailed > 0 {
        state := ServeJailTurn(state);
        NextTurn();
        return;
      }
      state := state.(lastDiceRoll := Some(roll), isMoving := true);
      PerformMovement(player.id, roll, d);
    }
  }
}
