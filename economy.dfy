/** The economic transactions of App.tsx: buying and upgrading with the AI's accept
    thresholds, rent that grows geometrically with the level, tax, bank bonus, chance
    money, and bankruptcy, which releases the player's tiles. */
module Economy {
  import opened Types
  import opened Board
  import opened State
  import opened Turns

  const TAX_AMOUNT: real := 5000000.0
  const BANK_BONUS: real := 5000000.0
  const MAX_LEVEL: int := 5
  const RENT_GROWTH: real := 2.2

  function Pow(b: real, e: nat): real {
    if e == 0 then 1.0 else b * Pow(b, e - 1)
  }

  /** `Math.pow(2.2, level - 1)`, exact, for every integer level. */
  function Growth(level: int): real {
    if level >= 1 then Pow(RENT_GROWTH, level - 1) else Pow(1.0 / RENT_GROWTH, 1 - level)
  }

  /** One level more multiplies the growth factor by 2.2, below level 1 as above it. */
  lemma GrowthStep(level: int)
    ensures Growth(level + 1) == RENT_GROWTH * Growth(level)
  {
    if level < 0 {
      calc {
        RENT_GROWTH * Growth(level);
        RENT_GROWTH * ((1.0 / RENT_GROWTH) * Pow(1.0 / RENT_GROWTH, -level));
        Pow(1.0 / RENT_GROWTH, -level);
      }
    }
  }

  lemma {:induction false} GrowthPositive(level: int)
    ensures Growth(level) > 0.0
    decreases if level >= 1 then level else 2 - level
  {
    if level > 1 {
      GrowthPositive(level - 1);
      GrowthStep(level - 1);
    } else if level < 1 {
      GrowthPositive(level + 1);
      GrowthStep(level);
    }
  }

  /** `tile.price || 0`. */
  function Price(t: Tile): real {
    match t.price
    case Some(p) => p
    case None => 0.0
  }

  /** The price of one upgrade: half the tile's price. */
  function UpgradeCost(t: Tile): real {
    Price(t) * 0.5
  }

  /** The rent `payRent` charges: base rent times 2.2^(level-1), halved when the payer's
      charm exceeds 90 and the draw exceeds 0.7. */
  function RentDue(tile: Tile, payerCharm: int, draw: real): real {
    var rent := tile.rent * Growth(tile.level);
    if payerCharm > 90 && draw > 0.7 then rent / 2.0 else rent
  }

  /** Rent grows geometrically: each level multiplies it by 2.2. */
  lemma RentGrowsGeometrically(tile: Tile, payerCharm: int, draw: real)
    ensures RentDue(tile.(level := tile.level + 1), payerCharm, draw) == RENT_GROWTH * RentDue(tile, payerCharm, draw)
  {
    GrowthStep(tile.level);
  }

  /** At level 1 the full base rent is due; level 0 (left by a property wipe on an owned
      tile) charges 5/11 of it. */
  lemma RentAtLowLevels(tile: Tile)
    ensures RentDue(tile.(level := 1), 0, 0.0) == tile.rent
    ensures RentDue(tile.(level := 0), 0, 0.0) == tile.rent * 5.0 / 11.0
  {
    assert Growth(0) == 5.0 / 11.0;
  }

  /** A level-3 tile with base rent 3,000,000 charges 3,000,000 × 2.2² = 14,520,000, or
      half of it after the charm halving. */
  lemma RentExample(tile: Tile)
    requires tile.rent == 3000000.0 && tile.level == 3
    ensures RentDue(tile, 50, 0.9) == 14520000.0
    ensures RentDue(tile, 95, 0.9) == 7260000.0
    ensures RentDue(tile, 95, 0.5) == 14520000.0
  {
  }

  /** The AI accepts a purchase when its money exceeds 1.2 × the price. */
  predicate AiBuys(money: real, cost: real) {
    money > cost * 1.2
  }

  /** The AI accepts an upgrade when its money exceeds 1.5 × the upgrade cost. */
  predicate AiUpgrades(money: real, cost: real) {
    money > cost * 1.5
  }

  /** The human's accept button is disabled when the money does not cover the cost. */
  predicate AcceptDisabled(money: real, cost: real) {
    money < cost
  }

  /** An AI that accepts could also have pressed the human's button, and is left with a
      positive balance. */
  lemma AiAcceptsOnlyAffordable(money: real, cost: real)
    requires cost >= 0.0
    ensures AiBuys(money, cost) ==> !AcceptDisabled(money, cost) && money - cost > 0.0
    ensures AiUpgrades(money, cost) ==> !AcceptDisabled(money, cost) && money - cost > 0.0
  {
  }

  /** The record rewrite of `buyProperty`: the current player pays the price and lists the
      tile; the tile gets that owner and level 1. */
  function Purchase(s: GameState, tileId: int): (r: GameState)
    requires ValidState(s) && 0 <= tileId < |s.tiles|
    ensures JailFree(s.players) ==> JailFree(r.players)
    ensures ValidState(r)
    ensures var c := s.currentPlayerIndex; var p := s.players[c];
      r == s.(players := s.players[c := p.(money := p.money - Price(s.tiles[tileId]),
                                          properties := p.properties + [tileId])],
              tiles := s.tiles[tileId := s.tiles[tileId].(ownerId := Some(p.id), level := 1)])
    ensures TotalMoney(r.players) == TotalMoney(s.players) - Price(s.tiles[tileId])
    ensures TotalNetWorth(r.players) == TotalNetWorth(s.players)
  {
    var c := s.currentPlayerIndex;
    var player := s.players[c];
    var tile := s.tiles[tileId];
    var cost := Price(tile);
    var pay := (p: Player) => p.(money := p.money - cost, properties := p.properties + [tileId]);
    UpdateByIdAt(s.players, c, pay);
    TotalsAfterReplace(s.players, c, pay(player));
    s.(players := UpdateById(s.players, player.id, pay),
       tiles := s.tiles[tileId := tile.(ownerId := Some(player.id), level := 1)])
  }

  /** The record rewrite of `upgradeProperty`: the current player pays half the price,
      which is added to the player's net worth; the tile goes up one level. */
  function Improve(s: GameState, tileId: int): (r: GameState)
    requires ValidState(s) && 0 <= tileId < |s.tiles|
    ensures JailFree(s.players) ==> JailFree(r.players)
    ensures ValidState(r)
    ensures var c := s.currentPlayerIndex; var p := s.players[c]; var cost := UpgradeCost(s.tiles[tileId]);
      r == s.(players := s.players[c := p.(money := p.money - cost, netWorth := p.netWorth + cost)],
              tiles := s.tiles[tileId := s.tiles[tileId].(level := s.tiles[tileId].level + 1)])
    ensures TotalMoney(r.players) == TotalMoney(s.players) - UpgradeCost(s.tiles[tileId])
    ensures TotalNetWorth(r.players) == TotalNetWorth(s.players) + UpgradeCost(s.tiles[tileId])
  {
    var c := s.currentPlayerIndex;
    var player := s.players[c];
    var tile := s.tiles[tileId];
    var cost := UpgradeCost(tile);
    var pay := (p: Player) => p.(money := p.money - cost, netWorth := p.netWorth + cost);
    UpdateByIdAt(s.players, c, pay);
    TotalsAfterReplace(s.players, c, pay(player));
    s.(players := UpdateById(s.players, player.id, pay),
       tiles := s.tiles[tileId := tile.(level := tile.level + 1)])
  }

  /** `buyProperty`, which then ends the action and passes the turn. */
  function BuyProperty(s: GameState, tileId: int): (r: GameState)
    requires ValidState(s) && 0 <= tileId < |s.tiles|
    ensures JailFree(s.players) ==> JailFree(r.players)
    ensures ValidState(r) && r.turnCount >= s.turnCount
    ensures r.players == Purchase(s, tileId).players && r.tiles == Purchase(s, tileId).tiles
    ensures var c := s.currentPlayerIndex; var p := s.players[c];
      r.players[c].money == p.money - Price(s.tiles[tileId]) &&
      r.players[c].properties == p.properties + [tileId] &&
      r.tiles[tileId].ownerId == Some(p.id) && r.tiles[tileId].level == 1
    ensures r.pendingAction == NoAction && r == NextTurn(Purchase(s, tileId).(pendingAction := NoAction))
  {
    EndAction(Purchase(s, tileId), true)
  }

  /** `upgradeProperty`, which then ends the action and passes the turn. */
  function UpgradeProperty(s: GameState, tileId: int): (r: GameState)
    requires ValidState(s) && 0 <= tileId < |s.tiles|
    ensures JailFree(s.players) ==> JailFree(r.players)
    ensures ValidState(r) && r.turnCount >= s.turnCount
    ensures r.players == Improve(s, tileId).players && r.tiles == Improve(s, tileId).tiles
    ensures var c := s.currentPlayerIndex; var p := s.players[c]; var cost := UpgradeCost(s.tiles[tileId]);
      r.players[c].money == p.money - cost && r.players[c].netWorth == p.netWorth + cost &&
      r.tiles[tileId].level == s.tiles[tileId].level + 1 && r.tiles[tileId].ownerId == s.tiles[tileId].ownerId
    ensures r.pendingAction == NoAction && r == NextTurn(Improve(s, tileId).(pendingAction := NoAction))
  {
    EndAction(Improve(s, tileId), true)
  }

  /** `promptBuyProperty`: the AI decides at once by its threshold; a human is left with the
      offer pending. */
  function PromptBuy(s: GameState, tileId: int): (r: GameState)
    requires ValidState(s) && 0 <= tileId < |s.tiles|
    ensures JailFree(s.players) ==> JailFree(r.players)
    ensures ValidState(r) && r.turnCount >= s.turnCount
  {
    var player := s.players[s.currentPlayerIndex];
    var cost := Price(s.tiles[tileId]);
    if player.isAI then
      if AiBuys(player.money, cost) then BuyProperty(s, tileId) else EndAction(s, true)
    else s
  }

  /** `promptUpgradeProperty`: at level 5 or more the turn just passes; otherwise as for a
      purchase, with the upgrade cost and the AI's 1.5 margin. */
  function PromptUpgrade(s: GameState, tileId: int): (r: GameState)
    requires ValidState(s) && 0 <= tileId < |s.tiles|
    ensures JailFree(s.players) ==> JailFree(r.players)
    ensures ValidState(r) && r.turnCount >= s.turnCount
  {
    var player := s.players[s.currentPlayerIndex];
    var tile := s.tiles[tileId];
    var cost := UpgradeCost(tile);
    if tile.level >= MAX_LEVEL then NextTurn(s)
    else if player.isAI then
      if AiUpgrades(player.money, cost) then UpgradeProperty(s, tileId) else EndAction(s, true)
    else s
  }

  /** Whether the human's buy button is disabled for this tile. */
  function BuyAcceptDisabled(s: GameState, tileId: int): bool
    requires ValidState(s) && 0 <= tileId < |s.tiles|
  {
    AcceptDisabled(s.players[s.currentPlayerIndex].money, Price(s.tiles[tileId]))
  }

  /** Whether the human's upgrade button is disabled for this tile. */
  function UpgradeAcceptDisabled(s: GameState, tileId: int): bool
    requires ValidState(s) && 0 <= tileId < |s.tiles|
  {
    AcceptDisabled(s.players[s.currentPlayerIndex].money, UpgradeCost(s.tiles[tileId]))
  }

  /** A human with 3,000,000 facing a 15,000,000 plot sees the buy button disabled; turning
      the offer down leaves the plot unowned and passes the turn. */
  lemma UnaffordableOfferExample(s: GameState, tileId: int)
    requires ValidState(s) && 0 <= tileId < |s.tiles|
    requires s.players[s.currentPlayerIndex].money == 3000000.0 && s.tiles[tileId].price == Some(15000000.0)
    requires s.tiles[tileId].ownerId == None
    ensures BuyAcceptDisabled(s, tileId)
    ensures EndAction(s, true).tiles[tileId].ownerId == None
    ensures EndAction(s, true) == NextTurn(s.(pendingAction := NoAction))
  {
  }

  /** On an unowned plot a human is left with the offer and nothing changes, while an AI
      ends up owning the plot exactly when its money exceeds 1.2 × the price; when it
      declines, no player and no tile changes. */
  lemma BuyOfferOutcome(s: GameState, tileId: int)
    requires ValidState(s) && 0 <= tileId < |s.tiles| && s.tiles[tileId].ownerId == None
    ensures var c := s.currentPlayerIndex; var p := s.players[c]; var r := PromptBuy(s, tileId);
      var cost := Price(s.tiles[tileId]);
      (!p.isAI ==> r == s) &&
      (p.isAI ==> (r.tiles[tileId].ownerId == Some(p.id) <==> AiBuys(p.money, cost))) &&
      (p.isAI && AiBuys(p.money, cost) ==>
         r.players[c].money == p.money - cost && r.players[c].properties == p.properties + [tileId]) &&
      (p.isAI && !AiBuys(p.money, cost) ==> r.players == s.players && r.tiles == s.tiles)
  {
  }

  /** Below level 5 a human is left with the offer and nothing changes, while an AI's plot
      goes up one level exactly when its money exceeds 1.5 × the upgrade cost; at level 5
      the turn passes with nothing bought. */
  lemma UpgradeOfferOutcome(s: GameState, tileId: int)
    requires ValidState(s) && 0 <= tileId < |s.tiles|
    ensures var c := s.currentPlayerIndex; var p := s.players[c]; var r := PromptUpgrade(s, tileId);
      var t := s.tiles[tileId]; var cost := UpgradeCost(t);
      (t.level >= MAX_LEVEL ==> r == NextTurn(s)) &&
      (t.level < MAX_LEVEL && !p.isAI ==> r == s) &&
      (t.level < MAX_LEVEL && p.isAI ==>
         (r.tiles[tileId].level == t.level + 1 <==> AiUpgrades(p.money, cost))) &&
      (t.level < MAX_LEVEL && p.isAI && AiUpgrades(p.money, cost) ==>
         r.players[c].money == p.money - cost && r.players[c].netWorth == p.netWorth + cost) &&
      (t.level < MAX_LEVEL && p.isAI && !AiUpgrades(p.money, cost) ==>
         r.players == s.players && r.tiles == s.tiles)
  {
  }

  /** `payRent`'s two `updatePlayer` calls: the payer's money and net worth fall by `rent`,
      the owner's rise by it. */
  function RentTransfer(s: GameState, ownerIndex: int, rent: real): (r: GameState)
    requires ValidState(s) && 0 <= ownerIndex < |s.players| && ownerIndex != s.currentPlayerIndex
    ensures JailFree(s.players) ==> JailFree(r.players)
    ensures ValidState(r) && r.tiles == s.tiles && |r.players| == |s.players|
    ensures var c := s.currentPlayerIndex;
      r.players[c] == s.players[c].(money := s.players[c].money - rent, netWorth := s.players[c].netWorth - rent) &&
      r.players[ownerIndex] == s.players[ownerIndex].(money := s.players[ownerIndex].money + rent,
                                                      netWorth := s.players[ownerIndex].netWorth + rent) &&
      forall i :: 0 <= i < |s.players| && i != c && i != ownerIndex ==> r.players[i] == s.players[i]
    ensures TotalMoney(r.players) == TotalMoney(s.players)
    ensures TotalNetWorth(r.players) == TotalNetWorth(s.players)
  {
    var c := s.currentPlayerIndex;
    var payer := s.players[c];
    var owner := s.players[ownerIndex];
    var debit := (p: Player) => p.(money := p.money - rent, netWorth := p.netWorth - rent);
    var credit := (p: Player) => p.(money := p.money + rent, netWorth := p.netWorth + rent);
    var ps1 := UpdateById(s.players, payer.id, debit);
    UpdateByIdAt(s.players, c, debit);
    TotalsAfterReplace(s.players, c, debit(payer));
    UpdateByIdAt(ps1, ownerIndex, credit);
    TotalsAfterReplace(ps1, ownerIndex, credit(owner));
    s.(players := UpdateById(ps1, owner.id, credit))
  }

  /** `payRent` together with its delayed `if (!checkBankruptcy(payer.id)) nextTurn()`: the
      current player pays the rent due on the tile to the owner at `ownerIndex`; the turn
      passes only when the payer is still solvent. */
  function PayRent(s: GameState, ownerIndex: int, tileId: int, draw: real): (r: GameState)
    requires ValidState(s) && 0 <= ownerIndex < |s.players| && ownerIndex != s.currentPlayerIndex
    requires 0 <= tileId < |s.tiles|
    ensures JailFree(s.players) ==> JailFree(r.players)
    ensures ValidState(r) && r.turnCount >= s.turnCount
  {
    var payer := s.players[s.currentPlayerIndex];
    var s1 := RentTransfer(s, ownerIndex, RentDue(s.tiles[tileId], payer.charm, draw));
    var bankrupt := Insolvent(s1, payer.id);
    var s2 := CheckBankruptcy(s1, payer.id);
    if bankrupt then s2 else NextTurn(s2)
  }

  /** Rent conserves money and net worth between payer and owner. When it leaves the payer
      with a negative balance the payer goes bankrupt and keeps the turn; otherwise the
      payer keeps the rest and the turn passes. */
  lemma RentOutcome(s: GameState, ownerIndex: int, tileId: int, draw: real)
    requires ValidState(s) && 0 <= ownerIndex < |s.players| && ownerIndex != s.currentPlayerIndex
    requires 0 <= tileId < |s.tiles|
    ensures var c := s.currentPlayerIndex; var payer := s.players[c];
      var rent := RentDue(s.tiles[tileId], payer.charm, draw);
      var r := PayRent(s, ownerIndex, tileId, draw);
      r.players[ownerIndex].money == s.players[ownerIndex].money + rent &&
      (payer.money - rent < 0.0 ==>
         r.currentPlayerIndex == c && r.turnCount == s.turnCount &&
         r.players[c].isBankrupt && r.players[c].money == 0.0 &&
         forall k :: 0 <= k < |r.tiles| ==> r.tiles[k].ownerId != Some(payer.id)) &&
      (payer.money - rent >= 0.0 ==>
         r == NextTurn(RentTransfer(s, ownerIndex, rent)) &&
         r.players[c].money == payer.money - rent &&
         TotalMoney(r.players) == TotalMoney(s.players))
  {
    var c := s.currentPlayerIndex;
    var payer := s.players[c];
    var rent := RentDue(s.tiles[tileId], payer.charm, draw);
    var s1 := RentTransfer(s, ownerIndex, rent);
    IndexOfDistinct(Ids(s1.players), c);
    BankruptcyReleasesTiles(s1, payer.id);
  }

  /** `players.find(p => p.id === id)` has a negative balance. */
  predicate Insolvent(s: GameState, id: int) {
    id in Ids(s.players) && s.players[IndexOf(Ids(s.players), id)].money < 0.0
  }

  /** The rewrite of `checkBankruptcy` for an insolvent player: bankrupt with money 0, and
      every tile that player owned back to unowned at level 0. */
  function Bankrupt(s: GameState, id: int): (r: GameState)
    requires ValidState(s) && id in Ids(s.players)
    ensures JailFree(s.players) ==> JailFree(r.players)
    ensures ValidState(r)
  {
    var i := IndexOf(Ids(s.players), id);
    var wipe := (p: Player) => p.(isBankrupt := true, money := 0.0);
    var tiles := seq(|s.tiles|, k requires 0 <= k < |s.tiles| =>
      if s.tiles[k].ownerId == Some(id) then s.tiles[k].(ownerId := None, level := 0) else s.tiles[k]);
    UpdateByIdAt(s.players, i, wipe);
    s.(players := UpdateById(s.players, id, wipe), tiles := tiles)
  }

  /** `checkBankruptcy`: bankrupt the player when insolvent, otherwise change nothing. */
  function CheckBankruptcy(s: GameState, id: int): (r: GameState)
    requires ValidState(s)
    ensures JailFree(s.players) ==> JailFree(r.players)
    ensures ValidState(r) && r.turnCount == s.turnCount
  {
    if Insolvent(s, id) then Bankrupt(s, id) else s
  }

  /** Insolvency always ends in bankruptcy: the flag is set, the money is 0, the player's
      properties list and net worth stay as they were, no tile is owned by that player any
      more, the tiles it owned are back at level 0, and nothing else changes. A solvent
      player is left alone. */
  lemma BankruptcyReleasesTiles(s: GameState, id: int)
    requires ValidState(s)
    ensures var r := CheckBankruptcy(s, id);
      (!Insolvent(s, id) ==> r == s) &&
      (Insolvent(s, id) ==>
        var i := IndexOf(Ids(s.players), id);
        r.players == s.players[i := s.players[i].(isBankrupt := true, money := 0.0)] &&
        |r.tiles| == |s.tiles| &&
        (forall k :: 0 <= k < |s.tiles| ==> r.tiles[k].ownerId != Some(id)) &&
        (forall k :: 0 <= k < |s.tiles| && s.tiles[k].ownerId == Some(id) ==>
           r.tiles[k] == s.tiles[k].(ownerId := None, level := 0)) &&
        (forall k :: 0 <= k < |s.tiles| && s.tiles[k].ownerId != Some(id) ==> r.tiles[k] == s.tiles[k]) &&
        r.currentPlayerIndex == s.currentPlayerIndex && r.turnCount == s.turnCount &&
        r.gameStatus == s.gameStatus && r.pendingAction == s.pendingAction)
  {
    if Insolvent(s, id) {
      var i := IndexOf(Ids(s.players), id);
      UpdateByIdAt(s.players, i, (p: Player) => p.(isBankrupt := true, money := 0.0));
    }
  }

  /** Money added to (or, when negative, taken from) the current player, net worth left as
      it is: the pass-go reward, the tax and the bank bonus. */
  function AddMoney(s: GameState, id: int, amount: real): (r: GameState)
    requires ValidState(s)
    ensures JailFree(s.players) ==> JailFree(r.players)
    ensures ValidState(r) && r.tiles == s.tiles && |r.players| == |s.players|
    ensures forall i :: 0 <= i < |s.players| ==>
      r.players[i] == if s.players[i].id == id then s.players[i].(money := s.players[i].money + amount) else s.players[i]
  {
    s.(players := UpdateById(s.players, id, (p: Player) => p.(money := p.money + amount)))
  }

  /** The money update of `triggerChanceEvent`: the drawn amount goes to money and net worth.
      An AI acknowledges the event at once and the turn passes; a human's acknowledgement
      is awaited. */
  function ChanceEvent(s: GameState, effectAmount: real): (r: GameState)
    requires ValidState(s)
    ensures JailFree(s.players) ==> JailFree(r.players)
    ensures ValidState(r) && r.turnCount >= s.turnCount
    ensures var c := s.currentPlayerIndex; var p := s.players[c];
      r.players == s.players[c := p.(money := p.money + effectAmount, netWorth := p.netWorth + effectAmount)] &&
      r.tiles == s.tiles
    ensures TotalMoney(r.players) == TotalMoney(s.players) + effectAmount
    ensures TotalNetWorth(r.players) == TotalNetWorth(s.players) + effectAmount
    ensures !s.players[s.currentPlayerIndex].isAI ==>
      r == s.(players := r.players, pendingAction := EventProcessing)
    ensures s.players[s.currentPlayerIndex].isAI ==>
      r == NextTurn(s.(players := r.players, pendingAction := NoAction))
  {
    var c := s.currentPlayerIndex;
    var player := s.players[c];
    var gain := (p: Player) => p.(money := p.money + effectAmount, netWorth := p.netWorth + effectAmount);
    UpdateByIdAt(s.players, c, gain);
    TotalsAfterReplace(s.players, c, gain(player));
    var s1 := s.(pendingAction := EventProcessing, players := UpdateById(s.players, player.id, gain));
    if player.isAI then EndAction(s1, true) else s1
  }
}
