/** The turn controller of App.tsx: `nextTurn`, `endAction` and the guard of `handleRollDice`. */
module Turns {
  import opened Types
  import opened Seqs
  import opened Board
  import opened State

  /** Where the skip loop of `nextTurn` stops when it is at index i after `attempts` skips:
      it moves on while the player there is bankrupt and fewer than |ps| skips were made. */
  function SkipBankrupt(ps: seq<Player>, i: int, attempts: int): (r: int)
    requires 0 <= i < |ps| && 0 <= attempts <= |ps|
    ensures 0 <= r < |ps|
    decreases |ps| - attempts
  {
    if ps[i].isBankrupt && attempts < |ps| then SkipBankrupt(ps, (i + 1) % |ps|, attempts + 1)
    else i
  }

  /** The skip loop of `nextTurn`, starting from the seat after `current`. */
  method FindNextIndex(ps: seq<Player>, current: int) returns (nextIndex: int)
    requires |ps| > 0 && 0 <= current < |ps|
    ensures nextIndex == SkipBankrupt(ps, (current + 1) % |ps|, 0)
  {
    nextIndex := (current + 1) % |ps|;
    var attempts := 0;
    while ps[nextIndex].isBankrupt && attempts < |ps|
      invariant 0 <= nextIndex < |ps| && 0 <= attempts <= |ps|
      invariant SkipBankrupt(ps, nextIndex, attempts) == SkipBankrupt(ps, (current + 1) % |ps|, 0)
      decreases |ps| - attempts
    {
      nextIndex := (nextIndex + 1) % |ps|;
      attempts := attempts + 1;
    }
  }

  /** The seat d steps after seat i, stepping as the loop does: `(i + 1) % n`. */
  function Advance(i: int, d: nat, n: int): int
    requires n > 0
  {
    if d == 0 then i else (Advance(i, d - 1, n) + 1) % n
  }

  /** Within one lap the steps do not wrap more than once. */
  lemma {:induction false} AdvanceWithinLap(i: int, d: nat, n: int)
    requires 0 <= i < n && d < n
    ensures Advance(i, d, n) == if i + d < n then i + d else i + d - n
  {
    if d > 0 {
      AdvanceWithinLap(i, d - 1, n);
      var x := Advance(i, d - 1, n) + 1;
      assert Advance(i, d, n) == x % n;
      WrapOnce(x, n);
    }
  }

  /** One step past the last seat wraps to seat 0, any other step does not wrap. */
  lemma WrapOnce(x: int, n: int)
    requires 0 < x <= n
    ensures x % n == if x < n then x else 0
  {
    if x == n {
      assert x % n == (n - n) % n;
    }
  }

  lemma {:induction false} AdvanceShift(i: int, d: nat, n: int)
    requires n > 0
    ensures Advance((i + 1) % n, d, n) == Advance(i, d + 1, n)
  {
    if d > 0 {
      AdvanceShift(i, d - 1, n);
    }
  }

  /** From seat i after `attempts` skips, the loop skips only bankrupt seats, taken in
      cyclic order, and stops on a solvent one unless it ran out of attempts. */
  lemma {:induction false} SkipBankruptSkipsOnlyBankrupt(ps: seq<Player>, i: int, attempts: int)
      returns (d: nat)
    requires 0 <= i < |ps| && 0 <= attempts <= |ps|
    ensures d <= |ps| - attempts && SkipBankrupt(ps, i, attempts) == Advance(i, d, |ps|)
    ensures forall e: nat :: e < d ==> ps[Advance(i, e, |ps|)].isBankrupt
    ensures d < |ps| - attempts ==> !ps[Advance(i, d, |ps|)].isBankrupt
    decreases |ps| - attempts
  {
    var n := |ps|;
    if ps[i].isBankrupt && attempts < n {
      var i' := (i + 1) % n;
      var d' := SkipBankruptSkipsOnlyBankrupt(ps, i', attempts + 1);
      d := d' + 1;
      AdvanceShift(i, d', n);
      forall e: nat | e < d ensures ps[Advance(i, e, n)].isBankrupt {
        if e > 0 { AdvanceShift(i, e - 1, n); }
      }
    } else {
      d := 0;
    }
  }

  /** `prev.players.filter(p => !p.isBankrupt)`. */
  function Solvent(ps: seq<Player>): seq<Player> {
    Filter(ps, (p: Player) => !p.isBankrupt)
  }

  /** `nextTurn`: hand the turn to the next solvent seat, or end the game when at most one
      player is solvent. */
  function NextTurn(s: GameState): (r: GameState)
    requires ValidState(s)
    ensures ValidState(r)
    ensures r.players == s.players && r.tiles == s.tiles
    ensures r.turnCount == s.turnCount || (r.turnCount == s.turnCount + 1 && r.currentPlayerIndex == 0)
  {
    var nextIndex := SkipBankrupt(s.players, (s.currentPlayerIndex + 1) % |s.players|, 0);
    var active := Solvent(s.players);
    if |active| <= 1 then
      s.(gameStatus := GameOver, winner := if |active| == 0 then None else Some(active[0]))
    else
      s.(currentPlayerIndex := nextIndex,
         turnCount := if nextIndex == 0 then s.turnCount + 1 else s.turnCount,
         lastDiceRoll := None,
         pendingAction := NoAction,
         isMoving := false)
  }

  /** The seat that `nextTurn` hands the turn to lies d seats after the current one
      (1 <= d <= n), every seat passed over is bankrupt, and the new seat is solvent. */
  ghost predicate HandsTurnOver(ps: seq<Player>, current: int, next: int)
    requires 0 <= current < |ps|
  {
    0 <= next < |ps| && !ps[next].isBankrupt &&
    exists d: nat :: 1 <= d <= |ps| && next == Advance(current, d, |ps|) &&
      forall e: nat :: 1 <= e < d ==> ps[Advance(current, e, |ps|)].isBankrupt
  }

  /** What one `nextTurn` does: with at most one solvent player the game is over and the
      winner is that player (or none); otherwise the turn passes to the next solvent seat in
      cyclic order, the round counter rises by one exactly when that seat is 0, and the
      dice, the pending action and the moving flag are reset. */
  lemma NextTurnRotates(s: GameState)
    requires ValidState(s)
    ensures var r := NextTurn(s);
      (|Solvent(s.players)| <= 1 ==>
        r == s.(gameStatus := GameOver,
                winner := if |Solvent(s.players)| == 0 then None else Some(Solvent(s.players)[0]))) &&
      (|Solvent(s.players)| >= 2 ==>
        HandsTurnOver(s.players, s.currentPlayerIndex, r.currentPlayerIndex) &&
        r.gameStatus == s.gameStatus &&
        (r.turnCount == s.turnCount + 1 <==> r.currentPlayerIndex == 0) &&
        (r.turnCount == s.turnCount <==> r.currentPlayerIndex != 0) &&
        r.lastDiceRoll == None && r.pendingAction == NoAction && !r.isMoving)
  {
    if |Solvent(s.players)| >= 2 {
      SkipFindsSolventSeat(s.players, s.currentPlayerIndex);
    }
  }

  /** With two solvent players the skip loop never runs out of attempts: it hands the turn
      to a solvent seat having passed over bankrupt ones only. */
  lemma SkipFindsSolventSeat(ps: seq<Player>, c: int)
    requires 0 <= c < |ps| && |Solvent(ps)| >= 2
    ensures HandsTurnOver(ps, c, SkipBankrupt(ps, (c + 1) % |ps|, 0))
  {
    var n := |ps|;
    var start := (c + 1) % n;
    var d := SkipBankruptSkipsOnlyBankrupt(ps, start, 0);
    var next := SkipBankrupt(ps, start, 0);
    if d == n {
      // every seat was passed over, yet the first solvent player sits somewhere
      var a := Solvent(ps)[0];
      assert a in Solvent(ps);
      var k :| 0 <= k < n && ps[k] == a;
      var e: nat := if k >= start then k - start else k + n - start;
      AdvanceWithinLap(start, e, n);
      assert false;
    }
    AdvanceShift(c, d, n);
    forall e: nat | 1 <= e < d + 1 ensures ps[Advance(c, e, n)].isBankrupt {
      AdvanceShift(c, e - 1, n);
      assert ps[Advance(start, e - 1, n)].isBankrupt;
    }
    assert HandsTurnOver(ps, c, next);
  }

  /** The round counter only rises when seat 0 is reached; so once seat 0 is bankrupt it
      stops rising for good. */
  lemma RoundCounterStallsWithoutSeatZero(s: GameState)
    requires ValidState(s) && s.players[0].isBankrupt
    ensures NextTurn(s).turnCount == s.turnCount
  {
    NextTurnRotates(s);
  }

  /** `endAction(advanceTurn)`: clear the pending action and pass the turn when asked to. */
  function EndAction(s: GameState, advanceTurn: bool): (r: GameState)
    requires ValidState(s)
    ensures ValidState(r) && r.players == s.players && r.tiles == s.tiles
    ensures advanceTurn ==> r == NextTurn(s.(pendingAction := NoAction))
    ensures !advanceTurn ==> r == s.(pendingAction := NoAction)
  {
    var s1 := s.(pendingAction := NoAction);
    if advanceTurn then NextTurn(s1) else s1
  }

  /** The guard of `handleRollDice`: nothing moving, nothing pending, no direction awaited,
      and the seat is an AI or seat 0. */
  predicate CanRoll(s: GameState)
    requires 0 <= s.currentPlayerIndex < |s.players|
  {
    !s.isMoving && s.pendingAction == NoAction && s.gameStatus != WaitingForDirection &&
    (s.players[s.currentPlayerIndex].isAI || s.currentPlayerIndex == 0)
  }
}
