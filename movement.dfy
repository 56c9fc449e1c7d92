/** The movement resolver (`performMovement`, `handleDirectionSelect`), the dice roll with
    its jail skip (`handleRollDice`) and the landing dispatcher (`handleTileLanding`). */
module Movement {
  import opened Types
  import opened Board
  import opened State
  import opened Turns
  import opened Economy

  /** The safety brake of `performMovement`: at most 20 hops per call. */
  const LOOP_LIMIT: nat := 20

  /** How a call of `performMovement` ends: the last hop lands on a tile, a branching tile
      suspends the walk to wait for a direction, or the loop stops without either (no
      steps to take, or the brake). */
  datatype Stop = Landed(tileId: int) | AwaitingDirection | Halted

  datatype MoveOutcome = MoveOutcome(state: GameState, stop: Stop, path: seq<int>)

  /** `prev.players.map(p => p.id === id ? { ...p, position: pos } : p)`. */
  function SetPosition(s: GameState, id: int, pos: int): (r: GameState)
    requires ValidState(s) && 0 <= pos < |s.tiles|
    ensures ValidState(r) && r.tiles == s.tiles && |r.players| == |s.players|
    ensures JailFree(s.players) ==> JailFree(r.players)
    ensures forall i :: 0 <= i < |s.players| ==>
      r.players[i] == if s.players[i].id == id then s.players[i].(position := pos) else s.players[i]
  {
    s.(players := UpdateById(s.players, id, (p: Player) => p.(position := pos)))
  }

  /** The state with the player at index `i` replaced by `p`, same id, on the board. */
  function ReplacePlayer(s: GameState, i: int, p: Player): (r: GameState)
    requires ValidState(s) && 0 <= i < |s.players| && p.id == s.players[i].id && 0 <= p.position < |s.tiles|
    ensures ValidState(r) && Ids(r.players) == Ids(s.players)
    ensures JailFree(s.players) && p.isJailed == 0 ==> JailFree(r.players)
    ensures r == s.(players := s.players[i := p])
  {
    assert Ids(s.players[i := p]) == Ids(s.players);
    s.(players := s.players[i := p])
  }

  /** One pass of the `performMovement` loop as it affects the walker, from a
      non-branching tile: the pass-go reward when the successor is tile 0, then the step
      onto the successor. */
  function HopPlayer(tiles: seq<Tile>, p: Player): (q: Player)
    requires BoardGraph(tiles) && 0 <= p.position < |tiles|
    ensures 0 <= q.position < |tiles| && q.position == tiles[p.position].next[0]
    ensures q == p.(money := q.money, position := q.position)
  {
    var nextId := tiles[p.position].next[0];
    p.(money := if nextId == 0 then p.money + PASS_GO_REWARD else p.money, position := nextId)
  }

  /** The walk of one `performMovement` call as it affects the walker: what the walker
      looks like afterwards, why the loop stopped, and the tiles hopped onto. */
  datatype Walk = Walk(walker: Player, stop: Stop, path: seq<int>)

  /** The hops of `performMovement` with `steps` to go and `limit` passes of the loop left:
      at a branching tile the walk suspends, otherwise the walker hops to `next[0]`, until
      the steps run out and the tile reached is handed to the landing. */
  function WalkFrom(tiles: seq<Tile>, p: Player, steps: int, limit: nat): (w: Walk)
    requires BoardGraph(tiles) && 0 <= p.position < |tiles|
    ensures 0 <= w.walker.position < |tiles|
    ensures w.walker == p.(money := w.walker.money, position := w.walker.position)
    ensures w.stop.Landed? ==> w.stop.tileId == w.walker.position
    decreases limit
  {
    if steps <= 0 || limit == 0 then Walk(p, Halted, [])
    else if |tiles[p.position].next| > 1 then Walk(p, AwaitingDirection, [])
    else
      var q := HopPlayer(tiles, p);
      if steps - 1 == 0 then Walk(q, Landed(q.position), [q.position])
      else
        var w := WalkFrom(tiles, q, steps - 1, limit - 1);
        Walk(w.walker, w.stop, [q.position] + w.path)
  }

  /** The player with id `id`, as `players.find(p => p.id === id)!` finds it. */
  function Mover(s: GameState, id: int): nat
    requires id in Ids(s.players)
  {
    IndexOf(Ids(s.players), id)
  }

  /** The game after one hop of the walker `id` from a non-branching tile. */
  function Hopped(s: GameState, id: int): (r: GameState)
    requires ValidState(s) && id in Ids(s.players)
    ensures ValidState(r) && Ids(r.players) == Ids(s.players) && r.tiles == s.tiles
  {
    var i := Mover(s, id);
    ReplacePlayer(s, i, HopPlayer(s.tiles, s.players[i]))
  }

  /** `performMovement(id, steps)` up to the landing: the walker's record after the walk;
      on a suspension the game waits for a direction with the unspent steps stored. */
  function Move(s: GameState, id: int, steps: int, limit: nat): (o: MoveOutcome)
    requires ValidState(s) && id in Ids(s.players)
    ensures ValidState(o.state) && Ids(o.state.players) == Ids(s.players) && o.state.tiles == s.tiles
    ensures o.state.turnCount == s.turnCount && o.state.currentPlayerIndex == s.currentPlayerIndex
    ensures JailFree(s.players) ==> JailFree(o.state.players)
    ensures o.stop.Landed? ==> 0 <= o.stop.tileId < |s.tiles|
  {
    var i := Mover(s, id);
    var w := WalkFrom(s.tiles, s.players[i], steps, limit);
    var s1 := ReplacePlayer(s, i, w.walker);
    if w.stop.AwaitingDirection? then
      MoveOutcome(s1.(isMoving := false, gameStatus := WaitingForDirection, remainingSteps := steps - |w.path|),
                  w.stop, w.path)
    else MoveOutcome(s1, w.stop, w.path)
  }

  function Occurrences(path: seq<int>, x: int): nat {
    if |path| == 0 then 0 else (if path[0] == x then 1 else 0) + Occurrences(path[1..], x)
  }

  /** Each hop of `path`, taken from `from`, goes to the single successor of a non-branching tile. */
  ghost predicate SingleSuccessorWalk(tiles: seq<Tile>, from: int, path: seq<int>) {
    var w := [from] + path;
    forall k :: 0 <= k < |path| ==> 0 <= w[k] < |tiles| && tiles[w[k]].next == [w[k + 1]]
  }

  lemma WalkCons(tiles: seq<Tile>, from: int, nextId: int, path: seq<int>)
    requires 0 <= from < |tiles| && tiles[from].next == [nextId] && SingleSuccessorWalk(tiles, nextId, path)
    ensures SingleSuccessorWalk(tiles, from, [nextId] + path)
  {
    var v := [nextId] + path;
    var w := [from] + v;
    forall k | 0 <= k < |v| ensures 0 <= w[k] < |tiles| && tiles[w[k]].next == [w[k + 1]] {
      if k > 0 {
        assert w[k] == ([nextId] + path)[k - 1] && w[k + 1] == ([nextId] + path)[k];
      }
    }
  }

  /** The walk accounts for every step: a landing comes after exactly `steps` hops, each
      onto the single successor of the tile it leaves; a suspension comes after fewer hops,
      on a branching tile; a halt happens only when there was nothing to do or the brake
      was reached. */
  lemma {:induction false} WalkAccountsForSteps(tiles: seq<Tile>, p: Player, steps: int, limit: nat)
    requires BoardGraph(tiles) && 0 <= p.position < |tiles|
    ensures var w := WalkFrom(tiles, p, steps, limit);
      SingleSuccessorWalk(tiles, p.position, w.path) &&
      (w.stop.Landed? ==> |w.path| == steps) &&
      (w.stop.AwaitingDirection? ==> |w.path| < steps && |tiles[w.walker.position].next| > 1) &&
      (w.stop.Halted? ==> (steps <= 0 && w.path == []) || (|w.path| == limit < steps))
    decreases limit
  {
    if steps > 0 && limit > 0 && |tiles[p.position].next| <= 1 {
      var q := HopPlayer(tiles, p);
      assert tiles[p.position].next == [q.position];
      if steps - 1 != 0 {
        WalkAccountsForSteps(tiles, q, steps - 1, limit - 1);
        WalkCons(tiles, p.position, q.position, WalkFrom(tiles, q, steps - 1, limit - 1).path);
      }
    }
  }

  /** The pass-go reward is paid once for every hop onto tile 0, and the walker ends on the
      last tile hopped onto. */
  lemma {:induction false} WalkPaysPassGo(tiles: seq<Tile>, p: Player, steps: int, limit: nat)
    requires BoardGraph(tiles) && 0 <= p.position < |tiles|
    ensures var w := WalkFrom(tiles, p, steps, limit);
      w.walker.money == p.money + Occurrences(w.path, 0) as real * PASS_GO_REWARD &&
      w.walker.position == if w.path == [] then p.position else w.path[|w.path| - 1]
    decreases limit
  {
    if steps > 0 && limit > 0 && |tiles[p.position].next| <= 1 {
      var q := HopPlayer(tiles, p);
      if steps - 1 != 0 {
        WalkPaysPassGo(tiles, q, steps - 1, limit - 1);
        var w := WalkFrom(tiles, q, steps - 1, limit - 1);
        assert ([q.position] + w.path)[1..] == w.path;
      }
    }
  }

  /** What `performMovement` does to the walker: only the walker's record changes, in
      money (by the pass-go reward per hop onto tile 0, net worth untouched) and in
      position (the last tile hopped onto). */
  lemma MoveMovesOnlyTheWalker(s: GameState, id: int, steps: int, limit: nat)
    requires ValidState(s) && id in Ids(s.players)
    ensures var o := Move(s, id, steps, limit); var i := Mover(s, id); var p := s.players[i];
      o.state.players == s.players[i := p.(money := p.money + Occurrences(o.path, 0) as real * PASS_GO_REWARD,
                                           position := if o.path == [] then p.position else o.path[|o.path| - 1])]
  {
    var i := Mover(s, id);
    WalkPaysPassGo(s.tiles, s.players[i], steps, limit);
  }

  /** The walk of `performMovement` accounts for its steps: every hop goes to the single
      successor of a non-branching tile; a landing is on the last tile hopped onto after
      exactly `steps` hops; a halt happens only when there was nothing to do or the brake
      was reached. */
  lemma MoveAccountsForSteps(s: GameState, id: int, steps: int, limit: nat)
    requires ValidState(s) && id in Ids(s.players)
    ensures var o := Move(s, id, steps, limit); var p := s.players[Mover(s, id)];
      SingleSuccessorWalk(s.tiles, p.position, o.path) &&
      (o.stop.Landed? ==> |o.path| == steps && o.stop.tileId == o.path[|o.path| - 1]) &&
      (o.stop.Halted? ==> (steps <= 0 && o.path == []) || (|o.path| == limit < steps))
  {
    var i := Mover(s, id);
    WalkAccountsForSteps(s.tiles, s.players[i], steps, limit);
    WalkPaysPassGo(s.tiles, s.players[i], steps, limit);
  }

  /** Apart from the walker, `performMovement` changes the game only on a suspension: the
      walker is then on a branching tile and the game waits for a direction with exactly
      the steps not yet taken stored. */
  lemma MoveSuspension(s: GameState, id: int, steps: int, limit: nat)
    requires ValidState(s) && id in Ids(s.players)
    ensures var o := Move(s, id, steps, limit);
      (o.stop.AwaitingDirection? ==>
         o.state == s.(players := o.state.players, isMoving := false, gameStatus := WaitingForDirection,
                       remainingSteps := steps - |o.path|) &&
         o.state.remainingSteps > 0 && |s.tiles[o.state.players[Mover(s, id)].position].next| > 1) &&
      (!o.stop.AwaitingDirection? ==> o.state == s.(players := o.state.players))
  {
    var i := Mover(s, id);
    WalkAccountsForSteps(s.tiles, s.players[i], steps, limit);
  }

  /** One pass of the loop, read on the game: from a non-branching tile with more than one
      step to go, the walk is the hop followed by the walk with one step and one pass fewer. */
  lemma MoveStep(s: GameState, id: int, steps: int, limit: nat)
    requires ValidState(s) && id in Ids(s.players) && steps > 1 && limit > 0
    requires |s.tiles[s.players[Mover(s, id)].position].next| <= 1
    ensures var o := Move(s, id, steps, limit); var o1 := Move(Hopped(s, id), id, steps - 1, limit - 1);
      o.state == o1.state && o.stop == o1.stop && o.path == [Hopped(s, id).players[Mover(s, id)].position] + o1.path
  {
    var i := Mover(s, id);
    var q := HopPlayer(s.tiles, s.players[i]);
    var s1 := ReplacePlayer(s, i, q);
    assert s1 == Hopped(s, id);
    assert Mover(s1, id) == i;
    var w1 := WalkFrom(s.tiles, q, steps - 1, limit - 1);
    assert WalkFrom(s.tiles, s.players[i], steps, limit) == Walk(w1.walker, w1.stop, [q.position] + w1.path);
    assert ReplacePlayer(s1, i, w1.walker) == ReplacePlayer(s, i, w1.walker);
  }

  /** `MoveStep` with the counters of the next pass given by name. */
  lemma MoveStepTo(s: GameState, id: int, steps: int, limit: nat, stepsLeft: int, limitLeft: nat)
    requires ValidState(s) && id in Ids(s.players) && steps > 1 && limit > 0
    requires |s.tiles[s.players[Mover(s, id)].position].next| <= 1
    requires stepsLeft == steps - 1 && limitLeft == limit - 1
    ensures Move(Hopped(s, id), id, stepsLeft, limitLeft).state == Move(s, id, steps, limit).state
    ensures Move(Hopped(s, id), id, stepsLeft, limitLeft).stop == Move(s, id, steps, limit).stop
  {
    MoveStep(s, id, steps, limit);
  }

  /** With one step to go from a non-branching tile, the walk lands on the successor. */
  lemma LastHopLands(s: GameState, id: int, limit: nat)
    requires ValidState(s) && id in Ids(s.players) && limit > 0
    requires |s.tiles[s.players[Mover(s, id)].position].next| <= 1
    ensures var o := Move(s, id, 1, limit);
      o.stop == Landed(s.tiles[s.players[Mover(s, id)].position].next[0]) && o.state == Hopped(s, id)
  {
  }

  /** With no step to take or no pass left, the walk halts and changes nothing. */
  lemma IdleMove(s: GameState, id: int, steps: int, limit: nat)
    requires ValidState(s) && id in Ids(s.players) && (steps <= 0 || limit == 0)
    ensures Move(s, id, steps, limit) == MoveOutcome(s, Halted, [])
  {
    assert s.players[Mover(s, id) := s.players[Mover(s, id)]] == s.players;
  }

  /** A branching tile suspends the walk on the spot, storing the steps still to take. */
  lemma SuspendedMove(s: GameState, id: int, steps: int, limit: nat)
    requires ValidState(s) && id in Ids(s.players) && steps > 0 && limit > 0
    requires |s.tiles[s.players[Mover(s, id)].position].next| > 1
    ensures var o := Move(s, id, steps, limit);
      o.stop == AwaitingDirection &&
      o.state == s.(isMoving := false, gameStatus := WaitingForDirection, remainingSteps := steps)
  {
    assert s.players[Mover(s, id) := s.players[Mover(s, id)]] == s.players;
  }

  /** The two record rewrites of one pass of the loop, the pass-go reward (when the
      successor is tile 0) and the new position, amount to replacing the walker by its hop. */
  lemma HopUpdates(s: GameState, id: int)
    requires ValidState(s) && id in Ids(s.players)
    requires |s.tiles[s.players[Mover(s, id)].position].next| <= 1
    ensures var nextId := s.tiles[s.players[Mover(s, id)].position].next[0];
      SetPosition(if nextId == 0 then AddMoney(s, id, PASS_GO_REWARD) else s, id, nextId) == Hopped(s, id)
  {
    var i := Mover(s, id);
    var nextId := s.tiles[s.players[i].position].next[0];
    var r := SetPosition(if nextId == 0 then AddMoney(s, id, PASS_GO_REWARD) else s, id, nextId);
    var e := ReplacePlayer(s, i, HopPlayer(s.tiles, s.players[i]));
    forall j | 0 <= j < |s.players| ensures r.players[j] == e.players[j] {
      if j != i {
        assert Ids(s.players)[j] != Ids(s.players)[i];
      }
    }
  }

  /** A throw of the dice (1 to 6) is always within the brake: the walk lands or waits for
      a direction, it never halts. */
  lemma DiceNeverHitTheBrake(s: GameState, id: int, roll: int)
    requires ValidState(s) && id in Ids(s.players) && 1 <= roll <= 6
    ensures !Move(s, id, roll, LOOP_LIMIT).stop.Halted?
  {
    MoveAccountsForSteps(s, id, roll, LOOP_LIMIT);
  }

  /** The random draws a landing may consume: the rent-halving draw and the amount of the
      fate event. */
  datatype LandingDraws = LandingDraws(rentDraw: real, chanceAmount: real)

  /** `handleTileLanding(pos)`: stop moving, then dispatch on the kind of the tile reached. */
  function Land(s: GameState, pos: int, d: LandingDraws): (r: GameState)
    requires ValidState(s) && 0 <= pos < |s.tiles|
    ensures ValidState(r) && r.turnCount >= s.turnCount
    ensures JailFree(s.players) ==> JailFree(r.players)
  {
    var s0 := s.(isMoving := false);
    var tile := s0.tiles[pos];
    var player := s0.players[s0.currentPlayerIndex];
    match tile.kind
    case Property =>
      if tile.ownerId.None? then PromptBuy(s0.(pendingAction := BuyDecision), pos)
      else if tile.ownerId.value == player.id then PromptUpgrade(s0.(pendingAction := BuyDecision), pos)
      else
        var o := IndexOf(Ids(s0.players), tile.ownerId.value);
        var owner := s0.players[o];
        if owner.isJailed == 0 && !owner.isBankrupt then PayRent(s0, o, pos, d.rentDraw) else NextTurn(s0)
    case Chance => ChanceEvent(s0, d.chanceAmount)
    case Jail => NextTurn(s0)
    case Tax => NextTurn(CheckBankruptcy(AddMoney(s0, player.id, -TAX_AMOUNT), player.id))
    case Bank => NextTurn(AddMoney(s0, player.id, BANK_BONUS))
    case Start => NextTurn(s0)
    case Shop => NextTurn(s0)
    case Park => NextTurn(s0)
  }

  /** Landing on an unowned plot opens the buy decision. A human is left facing the offer
      with nothing else changed; an AI ends up owning the plot exactly when its money exceeds
      1.2 × the price, paying the price and listing the plot, and otherwise nothing changes
      but the turn. */
  lemma LandingOnUnownedPlot(s: GameState, pos: int, d: LandingDraws)
    requires ValidState(s) && 0 <= pos < |s.tiles|
    requires s.tiles[pos].kind == Property && s.tiles[pos].ownerId.None?
    ensures Land(s, pos, d) == PromptBuy(s.(isMoving := false, pendingAction := BuyDecision), pos)
    ensures !s.players[s.currentPlayerIndex].isAI ==>
      Land(s, pos, d) == s.(isMoving := false, pendingAction := BuyDecision)
    ensures var c := s.currentPlayerIndex; var p := s.players[c]; var r := Land(s, pos, d);
      var cost := Price(s.tiles[pos]);
      p.isAI ==>
        (r.tiles[pos].ownerId == Some(p.id) <==> AiBuys(p.money, cost)) &&
        (AiBuys(p.money, cost) ==>
           r.players[c].money == p.money - cost && r.players[c].properties == p.properties + [pos]) &&
        (!AiBuys(p.money, cost) ==> r.players == s.players && r.tiles == s.tiles)
  {
    BuyOfferOutcome(s.(isMoving := false, pendingAction := BuyDecision), pos);
  }

  /** Landing on one's own plot below level 5 opens the upgrade decision. A human is left
      facing the offer with nothing else changed; an AI's plot goes up one level exactly
      when its money exceeds 1.5 × the upgrade cost, and otherwise nothing changes but the
      turn. */
  lemma LandingOnOwnPlot(s: GameState, pos: int, d: LandingDraws)
    requires ValidState(s) && 0 <= pos < |s.tiles|
    requires s.tiles[pos].kind == Property && s.tiles[pos].ownerId == Some(s.players[s.currentPlayerIndex].id)
    requires s.tiles[pos].level < MAX_LEVEL
    ensures Land(s, pos, d) == PromptUpgrade(s.(isMoving := false, pendingAction := BuyDecision), pos)
    ensures !s.players[s.currentPlayerIndex].isAI ==>
      Land(s, pos, d) == s.(isMoving := false, pendingAction := BuyDecision)
    ensures var c := s.currentPlayerIndex; var p := s.players[c]; var r := Land(s, pos, d);
      var t := s.tiles[pos]; var cost := UpgradeCost(t);
      p.isAI ==>
        (r.tiles[pos].level == t.level + 1 <==> AiUpgrades(p.money, cost)) &&
        (AiUpgrades(p.money, cost) ==>
           r.players[c].money == p.money - cost && r.players[c].netWorth == p.netWorth + cost) &&
        (!AiUpgrades(p.money, cost) ==> r.players == s.players && r.tiles == s.tiles)
  {
    UpgradeOfferOutcome(s.(isMoving := false, pendingAction := BuyDecision), pos);
  }

  /** Landing on one's own plot at level 5 or above changes nothing but passes the turn. */
  lemma LandingOnFullyBuiltPlot(s: GameState, pos: int, d: LandingDraws)
    requires ValidState(s) && 0 <= pos < |s.tiles|
    requires s.tiles[pos].kind == Property && s.tiles[pos].ownerId == Some(s.players[s.currentPlayerIndex].id)
    requires s.tiles[pos].level >= MAX_LEVEL
    ensures Land(s, pos, d) == NextTurn(s.(isMoving := false, pendingAction := BuyDecision))
  {
  }

  /** Rent is charged only when the owner is free and solvent; otherwise the turn passes. */
  lemma LandingOnForeignPlot(s: GameState, pos: int, d: LandingDraws)
    requires ValidState(s) && 0 <= pos < |s.tiles|
    requires s.tiles[pos].kind == Property && s.tiles[pos].ownerId.Some?
    requires s.tiles[pos].ownerId.value != s.players[s.currentPlayerIndex].id
    ensures var o := IndexOf(Ids(s.players), s.tiles[pos].ownerId.value);
      var owner := s.players[o];
      o != s.currentPlayerIndex &&
      Land(s, pos, d) == if owner.isJailed == 0 && !owner.isBankrupt
                         then PayRent(s.(isMoving := false), o, pos, d.rentDraw)
                         else NextTurn(s.(isMoving := false))
  {
  }

  /** The tax takes 5,000,000 from money alone; a player it leaves below zero goes bankrupt,
      and the turn passes either way (unlike rent). */
  lemma LandingOnTax(s: GameState, pos: int, d: LandingDraws)
    requires ValidState(s) && 0 <= pos < |s.tiles| && s.tiles[pos].kind == Tax
    ensures var c := s.currentPlayerIndex; var p := s.players[c];
      var taxed := AddMoney(s.(isMoving := false), p.id, -TAX_AMOUNT);
      taxed.players[c] == p.(money := p.money - TAX_AMOUNT) &&
      Land(s, pos, d) == NextTurn(CheckBankruptcy(taxed, p.id)) &&
      (p.money < TAX_AMOUNT ==> Land(s, pos, d).players[c].isBankrupt)
  {
    var c := s.currentPlayerIndex;
    var p := s.players[c];
    var taxed := AddMoney(s.(isMoving := false), p.id, -TAX_AMOUNT);
    IndexOfDistinct(Ids(taxed.players), c);
    BankruptcyReleasesTiles(taxed, p.id);
  }

  /** The bank adds 5,000,000 to the lander's money alone, changes no other seat and no
      tile, and passes the turn. */
  lemma LandingOnBank(s: GameState, pos: int, d: LandingDraws)
    requires ValidState(s) && 0 <= pos < |s.tiles| && s.tiles[pos].kind == Bank
    ensures var c := s.currentPlayerIndex; var p := s.players[c];
      Land(s, pos, d) == NextTurn(AddMoney(s.(isMoving := false), p.id, BANK_BONUS)) &&
      Land(s, pos, d).players == s.players[c := p.(money := p.money + BANK_BONUS)] &&
      Land(s, pos, d).tiles == s.tiles
  {
    var c := s.currentPlayerIndex;
    var p := s.players[c];
    LandsOnBank(s, pos, d);
    UpdateByIdAt(s.players, c, (q: Player) => q.(money := q.money + BANK_BONUS));
  }

  lemma LandsOnBank(s: GameState, pos: int, d: LandingDraws)
    requires ValidState(s) && 0 <= pos < |s.tiles| && s.tiles[pos].kind == Bank
    ensures Land(s, pos, d) == NextTurn(AddMoney(s.(isMoving := false), s.players[s.currentPlayerIndex].id, BANK_BONUS))
  {
  }

  /** A chance tile adds the drawn amount to the lander's money and net worth and changes
      no other seat and no tile; an AI's turn passes at once while a human's acknowledgement
      is awaited. */
  lemma LandingOnChance(s: GameState, pos: int, d: LandingDraws)
    requires ValidState(s) && 0 <= pos < |s.tiles| && s.tiles[pos].kind == Chance
    ensures var c := s.currentPlayerIndex; var p := s.players[c];
      Land(s, pos, d).players == s.players[c := p.(money := p.money + d.chanceAmount, netWorth := p.netWorth + d.chanceAmount)] &&
      Land(s, pos, d).tiles == s.tiles
    ensures var r := Land(s, pos, d); var s1 := s.(isMoving := false, players := r.players);
      (s.players[s.currentPlayerIndex].isAI ==> r == NextTurn(s1.(pendingAction := NoAction))) &&
      (!s.players[s.currentPlayerIndex].isAI ==> r == s1.(pendingAction := EventProcessing))
  {
    LandsOnChance(s, pos, d);
  }

  lemma LandsOnChance(s: GameState, pos: int, d: LandingDraws)
    requires ValidState(s) && 0 <= pos < |s.tiles| && s.tiles[pos].kind == Chance
    ensures Land(s, pos, d) == ChanceEvent(s.(isMoving := false), d.chanceAmount)
  {
  }

  /** Jail, start, shop and park tiles only pass the turn. */
  lemma LandingOnPlainTile(s: GameState, pos: int, d: LandingDraws)
    requires ValidState(s) && 0 <= pos < |s.tiles|
    requires s.tiles[pos].kind in {Jail, Start, Shop, Park}
    ensures Land(s, pos, d) == NextTurn(s.(isMoving := false))
  {
  }

  /** One call of `performMovement`: the hops, then the landing when the last step was taken. */
  function Movement(s: GameState, id: int, steps: int, d: LandingDraws): (r: GameState)
    requires ValidState(s) && id in Ids(s.players)
    ensures ValidState(r) && r.turnCount >= s.turnCount
    ensures JailFree(s.players) ==> JailFree(r.players)
  {
    var o := Move(s, id, steps, LOOP_LIMIT);
    if o.stop.Landed? then Land(o.state, o.stop.tileId, d) else o.state
  }

  /** The first half of `handleDirectionSelect(next)`: the current player stands on the
      chosen tile and the game resumes playing, moving, with no stored steps. */
  function Redirect(s: GameState, nextTileId: int): (r: GameState)
    requires ValidState(s) && 0 <= nextTileId < |s.tiles|
    ensures ValidState(r) && Ids(r.players) == Ids(s.players)
    ensures var c := s.currentPlayerIndex;
      r == s.(players := s.players[c := s.players[c].(position := nextTileId)],
              gameStatus := Playing, remainingSteps := 0, isMoving := true)
  {
    var c := s.currentPlayerIndex;
    var r := SetPosition(s.(gameStatus := Playing, remainingSteps := 0, isMoving := true), s.players[c].id, nextTileId);
    assert r.players == s.players[c := s.players[c].(position := nextTileId)] by {
      forall j | 0 <= j < |s.players| && j != c ensures r.players[j] == s.players[j] {
        assert Ids(s.players)[j] != Ids(s.players)[c];
      }
    }
    r
  }

  /** The steps still to walk once a direction is chosen: the choice itself spends one. */
  function StepsAfterChoice(s: GameState): int {
    s.remainingSteps - 1
  }

  /** `handleDirectionSelect(next)`: put the current player on the chosen tile, resume
      playing with no stored steps, and move on with one step fewer. */
  function DirectionSelect(s: GameState, nextTileId: int, d: LandingDraws): (r: GameState)
    requires ValidState(s) && 0 <= nextTileId < |s.tiles|
    ensures ValidState(r) && r.turnCount >= s.turnCount
    ensures JailFree(s.players) ==> JailFree(r.players)
  {
    Movement(Redirect(s, nextTileId), s.players[s.currentPlayerIndex].id, StepsAfterChoice(s), d)
  }

  /** A direction chosen with a single step left moves the player onto the chosen tile and
      then stops: no landing is dispatched, `isMoving` stays set, and nothing can roll again,
      so the game stalls. */
  lemma OneStepChoiceStalls(s: GameState, nextTileId: int, d: LandingDraws)
    requires ValidState(s) && 0 <= nextTileId < |s.tiles| && s.remainingSteps == 1
    ensures var r := DirectionSelect(s, nextTileId, d); var c := s.currentPlayerIndex;
      r.isMoving && r.gameStatus == Playing && r.remainingSteps == 0 &&
      r.players[c] == s.players[c].(position := nextTileId) &&
      r.currentPlayerIndex == c && r.pendingAction == s.pendingAction && !CanRoll(r)
  {
  }

  /** The jailed player serves one turn in jail. */
  function ServeJailTurn(s: GameState): (r: GameState)
    requires ValidState(s)
    ensures ValidState(r) && r.tiles == s.tiles
    ensures var c := s.currentPlayerIndex; var p := s.players[c];
      r == s.(players := s.players[c := p.(isJailed := p.isJailed - 1)])
  {
    var p := s.players[s.currentPlayerIndex];
    var serve := (q: Player) => q.(isJailed := p.isJailed - 1);
    UpdateByIdAt(s.players, s.currentPlayerIndex, serve);
    s.(players := UpdateById(s.players, p.id, serve))
  }

  /** `handleRollDice(roll)`: refused unless the roll is legal; a jailed player serves one
      turn and the turn passes; otherwise the roll is recorded and movement starts. */
  function RollDice(s: GameState, roll: int): (r: GameState)
    requires ValidState(s)
    ensures ValidState(r) && r.turnCount >= s.turnCount
    ensures JailFree(s.players) ==> JailFree(r.players)
  {
    if !CanRoll(s) then s
    else
      var p := s.players[s.currentPlayerIndex];
      if p.isJailed > 0 then NextTurn(ServeJailTurn(s))
      else s.(lastDiceRoll := Some(roll), isMoving := true)
  }

  /** A jailed player who may roll loses one jail turn and the turn passes without a move;
      with nobody jailed, a legal roll only records the throw and starts moving. */
  lemma RollDiceOutcome(s: GameState, roll: int)
    requires ValidState(s)
    ensures var c := s.currentPlayerIndex; var p := s.players[c]; var r := RollDice(s, roll);
      (!CanRoll(s) ==> r == s) &&
      (CanRoll(s) && p.isJailed > 0 ==>
         r == NextTurn(ServeJailTurn(s)) && r.players[c] == p.(isJailed := p.isJailed - 1)) &&
      (CanRoll(s) && JailFree(s.players) ==> r == s.(lastDiceRoll := Some(roll), isMoving := true))
  {
  }

  /** A roll together with the `performMovement` it schedules. */
  function RollAndMove(s: GameState, roll: int, d: LandingDraws): (r: GameState)
    requires ValidState(s)
    ensures ValidState(r) && r.turnCount >= s.turnCount
    ensures JailFree(s.players) ==> JailFree(r.players)
  {
    var s1 := RollDice(s, roll);
    if CanRoll(s) && s.players[s.currentPlayerIndex].isJailed <= 0
    then Movement(s1, s.players[s.currentPlayerIndex].id, roll, d)
    else s1
  }
}
