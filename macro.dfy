/** The start-of-round events of App.tsx: the global economy shock every 20 rounds, and
    otherwise, on a 5% draw, one of four black-swan actions. Neither passes the turn. */
module Macro {
  import opened Types
  import opened Seqs
  import opened Board
  import opened State
  import opened Turns

  const GLOBAL_EVENT_PERIOD: int := 20
  const BLACK_SWAN_CHANCE: real := 0.05
  /** The least magnitude of a global change when the percentage is not 0. */
  const MIN_IMPACT: int := 2000000
  /** What `WIPE_CASH` leaves every player with. */
  const WIPED_CASH: real := 100000.0

  /** The guard of the start-of-round effect: a game in progress, seat 0 to play, past the
      first round, this round not processed yet, nothing pending and nothing moving. */
  predicate RoundStartDue(s: GameState, lastProcessedTurn: int) {
    s.gameStatus == Playing && s.currentPlayerIndex == 0 && s.turnCount > 1 &&
    lastProcessedTurn != s.turnCount && s.pendingAction == NoAction && !s.isMoving
  }

  datatype RoundEvent = GlobalShock | BlackSwan | Quiet

  /** Which event a due round start triggers, given the black-swan draw. */
  function RoundStartEvent(turnCount: int, swanDraw: real): RoundEvent {
    if turnCount % GLOBAL_EVENT_PERIOD == 0 then GlobalShock
    else if swanDraw < BLACK_SWAN_CHANCE then BlackSwan
    else Quiet
  }

  /** The global event as the event provider returns it. */
  datatype GlobalEvent = GlobalEvent(target: GlobalEventTarget, effectPercentage: real)

  function Moneys(ps: seq<Player>): (r: seq<real>)
    ensures |r| == |ps| && forall i :: 0 <= i < |ps| ==> r[i] == ps[i].money
  {
    seq(|ps|, i requires 0 <= i < |ps| => ps[i].money)
  }

  /** The money of the player at position floor(n/2) once sorted by ascending money. */
  function Median(ps: seq<Player>): real
    requires |ps| > 0
  {
    SortAsc(Moneys(ps))[|ps| / 2]
  }

  /** The median is some player's money, with at least floor(n/2) sorted moneys at or below
      it and the rest at or above it. */
  lemma MedianIsAPlayersMoney(ps: seq<Player>)
    requires |ps| > 0
    ensures Median(ps) in Moneys(ps)
    ensures var sorted := SortAsc(Moneys(ps));
      multiset(sorted) == multiset(Moneys(ps)) &&
      (forall k :: 0 <= k < |ps| / 2 ==> sorted[k] <= Median(ps)) &&
      (forall k :: |ps| / 2 < k < |ps| ==> Median(ps) <= sorted[k])
  {
    var sorted := SortAsc(Moneys(ps));
    assert sorted[|ps| / 2] in multiset(Moneys(ps));
  }

  /** Whether a solvent player is hit by the event. */
  predicate IsTargeted(target: GlobalEventTarget, p: Player, median: real) {
    match target
    case All => true
    case Poor => p.money <= median
    case Rich => p.money > median
    case Landlords => |p.properties| > 3
    case OddId => p.id % 2 != 0
  }

  /** The change a global event makes to one player's money: the percentage of the money,
      rounded down, raised to 2,000,000 in magnitude (by the sign of the percentage) when
      the percentage is not 0 and the change would be smaller. */
  function GlobalChange(money: real, pct: real): real {
    var change := (money * (pct / 100.0)).Floor;
    if -MIN_IMPACT < change < MIN_IMPACT && pct != 0.0 then
      (if pct > 0.0 then MIN_IMPACT else -MIN_IMPACT) as real
    else change as real
  }

  /** The minimum-magnitude clamp: a non-zero percentage always moves at least 2,000,000,
      a small change takes the sign of the percentage, and a zero percentage moves nothing. */
  lemma GlobalChangeClamp(money: real, pct: real)
    ensures pct != 0.0 ==> GlobalChange(money, pct) >= MIN_IMPACT as real || GlobalChange(money, pct) <= -MIN_IMPACT as real
    ensures pct == 0.0 ==> GlobalChange(money, pct) == 0.0
    ensures var raw := (money * (pct / 100.0)).Floor;
      pct != 0.0 && -MIN_IMPACT < raw < MIN_IMPACT ==>
        GlobalChange(money, pct) == if pct > 0.0 then MIN_IMPACT as real else -MIN_IMPACT as real
    ensures var raw := (money * (pct / 100.0)).Floor;
      !(-MIN_IMPACT < raw < MIN_IMPACT) ==> GlobalChange(money, pct) == raw as real
  {
  }

  /** A 20% fall on 50,000,000 is 10,000,000; the provider's fallback of +5% on 10,000,000
      would be 500,000 and is raised to 2,000,000. */
  lemma GlobalChangeExamples()
    ensures GlobalChange(50000000.0, -20.0) == -10000000.0
    ensures GlobalChange(10000000.0, 5.0) == 2000000.0
    ensures GlobalChange(10000000.0, -5.0) == -2000000.0
    ensures GlobalChange(10000000.0, 2.5) == 2000000.0
  {
    assert 50000000.0 * (-20.0 / 100.0) == -10000000.0;
    assert 10000000.0 * (5.0 / 100.0) == 500000.0;
    assert 10000000.0 * (-5.0 / 100.0) == -500000.0;
    assert 10000000.0 * (2.5 / 100.0) == 250000.0;
  }

  /** The player rewrite of `triggerGlobalEvent`. */
  function ShockPlayer(p: Player, e: GlobalEvent, median: real): (q: Player)
    ensures q.id == p.id && q.position == p.position && q.isJailed == p.isJailed
  {
    if p.isBankrupt then p
    else if IsTargeted(e.target, p, median) then
      var change := GlobalChange(p.money, e.effectPercentage);
      p.(money := p.money + change, netWorth := p.netWorth + change)
    else p
  }

  /** The state rewrite of `triggerGlobalEvent`. */
  function ApplyGlobalEvent(s: GameState, e: GlobalEvent): (r: GameState)
    requires ValidState(s)
    ensures ValidState(r) && r.tiles == s.tiles && |r.players| == |s.players|
    ensures JailFree(s.players) ==> JailFree(r.players)
  {
    var median := Median(s.players);
    var ps := seq(|s.players|, i requires 0 <= i < |s.players| => ShockPlayer(s.players[i], e, median));
    assert Ids(ps) == Ids(s.players);
    s.(players := ps)
  }

  /** The global event leaves bankrupt and untargeted players alone and adds the clamped
      change to both money and net worth of every targeted solvent player; nothing but the
      players changes, so the turn does not pass. */
  lemma GlobalEventEffect(s: GameState, e: GlobalEvent)
    requires ValidState(s)
    ensures var r := ApplyGlobalEvent(s, e); var median := Median(s.players);
      r == s.(players := r.players) &&
      forall i :: 0 <= i < |s.players| ==>
        var p := s.players[i];
        if !p.isBankrupt && IsTargeted(e.target, p, median) then
          r.players[i] == p.(money := p.money + GlobalChange(p.money, e.effectPercentage),
                             netWorth := p.netWorth + GlobalChange(p.money, e.effectPercentage))
        else r.players[i] == p
  {
  }

  /** A shuffle of the moneys, as `moneys.sort(() => Math.random() - 0.5)` returns one. */
  predicate IsShuffleOf(shuffled: seq<real>, moneys: seq<real>) {
    |shuffled| == |moneys| && multiset(shuffled) == multiset(moneys)
  }

  /** The state rewrite of `triggerBlackSwanEvent`; `shuffled` is the random reordering of
      the moneys that `SWAP_MONEY` hands out. */
  function ApplyBlackSwan(s: GameState, action: BlackSwanAction, shuffled: seq<real>): (r: GameState)
    requires ValidState(s)
    requires action == SwapMoney ==> IsShuffleOf(shuffled, Moneys(s.players))
    ensures ValidState(r) && |r.players| == |s.players|
    ensures JailFree(s.players) ==> JailFree(r.players)
  {
    var ps := s.players;
    var n := |ps|;
    match action
    case WipeCash =>
      var ps' := seq(n, i requires 0 <= i < n => ps[i].(money := WIPED_CASH));
      assert Ids(ps') == Ids(ps);
      s.(players := ps')
    case WipeProperty =>
      s.(tiles := seq(|s.tiles|, k requires 0 <= k < |s.tiles| => s.tiles[k].(level := 0)))
    case SwapMoney =>
      var ps' := seq(n, i requires 0 <= i < n => ps[i].(money := shuffled[i]));
      assert Ids(ps') == Ids(ps);
      s.(players := ps')
    case SuperTax =>
      var ps' := seq(n, i requires 0 <= i < n => ps[i].(money := (ps[i].money * 0.5).Floor as real));
      assert Ids(ps') == Ids(ps);
      s.(players := ps')
  }

  function Sum(xs: seq<real>): real {
    if |xs| == 0 then 0.0 else xs[0] + Sum(xs[1..])
  }

  /** Summing after taking one element out. */
  lemma {:induction false} SumRemove(xs: seq<real>, j: int)
    requires 0 <= j < |xs|
    ensures Sum(xs) == xs[j] + Sum(xs[..j] + xs[j + 1..])
  {
    if j > 0 {
      SumRemove(xs[1..], j - 1);
      assert xs[1..][..j - 1] + xs[1..][j..] == (xs[..j] + xs[j + 1..])[1..];
    } else {
      assert xs[..j] + xs[j + 1..] == xs[1..];
    }
  }

  /** Taking the element at `j` out of a sequence takes one copy of it out of its multiset. */
  lemma MultisetRemove(ys: seq<real>, j: int)
    requires 0 <= j < |ys|
    ensures multiset(ys[..j] + ys[j + 1..]) == multiset(ys) - multiset{ys[j]}
  {
    assert ys == ys[..j] + [ys[j]] + ys[j + 1..];
    assert multiset(ys) == multiset(ys[..j]) + multiset{ys[j]} + multiset(ys[j + 1..]);
  }

  /** Where a rearrangement of `xs` keeps the first element of `xs`, and what is left of it
      once that element is taken out: a rearrangement of the rest of `xs`. */
  lemma ShuffleHead(xs: seq<real>, ys: seq<real>) returns (j: nat)
    requires |xs| > 0 && multiset(xs) == multiset(ys)
    ensures j < |ys| && ys[j] == xs[0]
    ensures multiset(xs[1..]) == multiset(ys[..j] + ys[j + 1..])
  {
    assert xs[0] in multiset(ys);
    j :| 0 <= j < |ys| && ys[j] == xs[0];
    MultisetRemove(ys, j);
    assert xs == [xs[0]] + xs[1..];
    assert multiset(xs) == multiset{xs[0]} + multiset(xs[1..]);
  }

  /** The sum of a sequence depends only on its multiset of elements. */
  lemma {:induction false} SumOfShuffle(xs: seq<real>, ys: seq<real>)
    requires multiset(xs) == multiset(ys)
    ensures Sum(xs) == Sum(ys)
    decreases |xs|
  {
    if |xs| > 0 {
      var j := ShuffleHead(xs, ys);
      SumOfShuffle(xs[1..], ys[..j] + ys[j + 1..]);
      SumRemove(ys, j);
    } else {
      assert |multiset(ys)| == 0;
    }
  }

  lemma {:induction false} TotalMoneyIsSum(ps: seq<Player>)
    ensures TotalMoney(ps) == Sum(Moneys(ps))
  {
    if |ps| > 0 {
      TotalMoneyIsSum(ps[1..]);
      assert Moneys(ps)[1..] == Moneys(ps[1..]);
    }
  }

  /** `SWAP_MONEY` deals the same amounts out again: the multiset of moneys, and so the money
      in play, is unchanged, while everything else of every player stays. */
  lemma SwapMoneyPreservesMoney(s: GameState, shuffled: seq<real>)
    requires ValidState(s) && IsShuffleOf(shuffled, Moneys(s.players))
    ensures var r := ApplyBlackSwan(s, SwapMoney, shuffled);
      multiset(Moneys(r.players)) == multiset(Moneys(s.players)) &&
      TotalMoney(r.players) == TotalMoney(s.players) &&
      r.tiles == s.tiles &&
      forall i :: 0 <= i < |s.players| ==> r.players[i] == s.players[i].(money := r.players[i].money)
  {
    var r := ApplyBlackSwan(s, SwapMoney, shuffled);
    assert Moneys(r.players) == shuffled;
    TotalMoneyIsSum(r.players);
    TotalMoneyIsSum(s.players);
    SumOfShuffle(shuffled, Moneys(s.players));
  }

  /** `WIPE_PROPERTY` zeroes every level but keeps every owner, so an owned plot keeps
      charging rent, at 5/11 of the base. */
  lemma WipePropertyKeepsOwners(s: GameState)
    requires ValidState(s)
    ensures var r := ApplyBlackSwan(s, WipeProperty, []);
      r.players == s.players && |r.tiles| == |s.tiles| &&
      forall k :: 0 <= k < |s.tiles| ==> r.tiles[k] == s.tiles[k].(level := 0) && r.tiles[k].ownerId == s.tiles[k].ownerId
  {
  }

  /** `WIPE_CASH` and `SUPER_TAX` touch money only: the first leaves everyone with 100,000,
      the second halves every balance, rounding down (so a debt of 3 becomes one of 2), and a
      non-negative balance stays between zero and what it was. */
  lemma CashActionsTouchMoneyOnly(s: GameState)
    requires ValidState(s)
    ensures var r := ApplyBlackSwan(s, WipeCash, []);
      r.tiles == s.tiles && forall i :: 0 <= i < |s.players| ==> r.players[i] == s.players[i].(money := WIPED_CASH)
    ensures var r := ApplyBlackSwan(s, SuperTax, []);
      r.tiles == s.tiles &&
      forall i :: 0 <= i < |s.players| ==>
        r.players[i] == s.players[i].(money := r.players[i].money) &&
        r.players[i].money == (s.players[i].money * 0.5).Floor as real &&
        (s.players[i].money >= 0.0 ==> 0.0 <= 2.0 * r.players[i].money <= s.players[i].money)
  {
  }

  /** The start-of-round effect on a due round: the round is marked processed, the event is
      processing, and the global event or the black swan is applied. The acknowledgement
      (`endAction(false)`) comes later, from the player. */
  function StartOfRound(s: GameState, lastProcessedTurn: int, swanDraw: real, shock: GlobalEvent,
                        swan: BlackSwanAction, shuffled: seq<real>): (r: (GameState, int))
    requires ValidState(s)
    requires swan == SwapMoney ==> IsShuffleOf(shuffled, Moneys(s.players))
    ensures ValidState(r.0)
    ensures JailFree(s.players) ==> JailFree(r.0.players)
  {
    if !RoundStartDue(s, lastProcessedTurn) then (s, lastProcessedTurn)
    else match RoundStartEvent(s.turnCount, swanDraw)
      case GlobalShock => (ApplyGlobalEvent(s.(pendingAction := EventProcessing), shock), s.turnCount)
      case BlackSwan =>
        assert Moneys(s.(pendingAction := EventProcessing).players) == Moneys(s.players);
        (ApplyBlackSwan(s.(pendingAction := EventProcessing), swan, shuffled), s.turnCount)
      case Quiet => (s, s.turnCount)
  }

  /** Round-start events fire at most once per round and never pass the turn: afterwards the
      round is marked processed, so the guard is closed until the round counter moves, and
      the seat and round counter are as before. */
  lemma StartOfRoundFiresOnce(s: GameState, lastProcessedTurn: int, swanDraw: real, shock: GlobalEvent,
                              swan: BlackSwanAction, shuffled: seq<real>)
    requires ValidState(s)
    requires swan == SwapMoney ==> IsShuffleOf(shuffled, Moneys(s.players))
    ensures var r := StartOfRound(s, lastProcessedTurn, swanDraw, shock, swan, shuffled);
      (!RoundStartDue(s, lastProcessedTurn) ==> r == (s, lastProcessedTurn)) &&
      r.0.currentPlayerIndex == s.currentPlayerIndex && r.0.turnCount == s.turnCount &&
      !RoundStartDue(r.0, r.1) &&
      (RoundStartDue(s, lastProcessedTurn) ==> r.1 == s.turnCount) &&
      (RoundStartDue(s, lastProcessedTurn) && RoundStartEvent(s.turnCount, swanDraw) != Quiet ==>
         r.0.pendingAction == EventProcessing)
  {
  }

  /** Which event a due round start fires: every 20th round the global shock, applied to the
      players while the event is processing; in any other round the black swan when the draw
      is below 5%, and otherwise nothing but marking the round processed. */
  lemma StartOfRoundDispatch(s: GameState, lastProcessedTurn: int, swanDraw: real, shock: GlobalEvent,
                             swan: BlackSwanAction, shuffled: seq<real>)
    requires ValidState(s) && RoundStartDue(s, lastProcessedTurn)
    requires swan == SwapMoney ==> IsShuffleOf(shuffled, Moneys(s.players))
    ensures var r := StartOfRound(s, lastProcessedTurn, swanDraw, shock, swan, shuffled);
      var processing := s.(pendingAction := EventProcessing);
      (s.turnCount % 20 == 0 ==> r == (ApplyGlobalEvent(processing, shock), s.turnCount)) &&
      (s.turnCount % 20 != 0 && swanDraw < 0.05 ==>
         r == (ApplyBlackSwan(processing, swan, shuffled), s.turnCount)) &&
      (s.turnCount % 20 != 0 && swanDraw >= 0.05 ==> r == (s, s.turnCount))
  {
  }
}
