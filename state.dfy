/** Well-formedness of a game state and the per-player record rewrite that every
    `updatePlayer(id, updates)` in App.tsx performs. */
module State {
  import opened Types
  import opened Board

  /** The ids of the players, in turn order. */
  function Ids(ps: seq<Player>): (r: seq<int>)
    ensures |r| == |ps| && forall i :: 0 <= i < |ps| ==> r[i] == ps[i].id
  {
    seq(|ps|, i requires 0 <= i < |ps| => ps[i].id)
  }

  predicate Distinct(ids: seq<int>) {
    forall i, j :: 0 <= i < j < |ids| ==> ids[i] != ids[j]
  }

  /** The position of `id` in `ids`, as `players.find(p => p.id === id)!` locates the player. */
  function IndexOf(ids: seq<int>, id: int): (r: nat)
    requires id in ids
    ensures r < |ids| && ids[r] == id
    ensures forall j :: 0 <= j < r ==> ids[j] != id
  {
    if ids[0] == id then 0 else 1 + IndexOf(ids[1..], id)
  }

  /** Under distinct ids, the player found for an id is the one at that index. */
  lemma IndexOfDistinct(ids: seq<int>, i: int)
    requires Distinct(ids) && 0 <= i < |ids|
    ensures IndexOf(ids, ids[i]) == i
  {
  }

  /** The invariant every reachable game state keeps: a non-empty roster with distinct ids,
      an active index inside it, positions on the board, a well-formed board graph, and
      owners that are players of the roster. */
  ghost predicate ValidState(s: GameState) {
    |s.players| > 0 && 0 <= s.currentPlayerIndex < |s.players| && s.turnCount >= 1 &&
    Distinct(Ids(s.players)) && BoardGraph(s.tiles) &&
    (forall i :: 0 <= i < |s.players| ==> 0 <= s.players[i].position < |s.tiles|) &&
    (forall k :: 0 <= k < |s.tiles| && s.tiles[k].ownerId.Some? ==> s.tiles[k].ownerId.value in Ids(s.players))
  }

  /** `prev.players.map(p => p.id === id ? f(p) : p)`, for an update `f` that leaves the id alone. */
  function UpdateById(ps: seq<Player>, id: int, f: Player -> Player): (r: seq<Player>)
    requires forall p :: f(p).id == p.id
    ensures |r| == |ps| && Ids(r) == Ids(ps)
    ensures forall i :: 0 <= i < |ps| ==> r[i] == if ps[i].id == id then f(ps[i]) else ps[i]
  {
    var r := seq(|ps|, i requires 0 <= i < |ps| => if ps[i].id == id then f(ps[i]) else ps[i]);
    assert Ids(r) == Ids(ps);
    r
  }

  /** With distinct ids the update by id touches exactly the player at index i. */
  lemma UpdateByIdAt(ps: seq<Player>, i: int, f: Player -> Player)
    requires Distinct(Ids(ps)) && 0 <= i < |ps| && forall p :: f(p).id == p.id
    ensures UpdateById(ps, ps[i].id, f) == ps[i := f(ps[i])]
  {
    var r := UpdateById(ps, ps[i].id, f);
    forall j | 0 <= j < |ps| ensures r[j] == ps[i := f(ps[i])][j] {
      if j != i {
        assert Ids(ps)[j] != Ids(ps)[i];
      }
    }
  }

  /** A rewrite of the roster that keeps ids and positions keeps the state valid. */
  lemma ValidWithPlayers(s: GameState, ps: seq<Player>)
    requires ValidState(s) && Ids(ps) == Ids(s.players)
    requires forall i :: 0 <= i < |ps| ==> ps[i].position == s.players[i].position
    ensures ValidState(s.(players := ps))
  {
  }

  /** Sum of the players' money. */
  function TotalMoney(ps: seq<Player>): real {
    if |ps| == 0 then 0.0 else ps[0].money + TotalMoney(ps[1..])
  }

  /** Sum of the players' net worth. */
  function TotalNetWorth(ps: seq<Player>): real {
    if |ps| == 0 then 0.0 else ps[0].netWorth + TotalNetWorth(ps[1..])
  }

  /** Replacing one player changes the money total by exactly that player's difference. */
  lemma {:induction false} TotalsAfterReplace(ps: seq<Player>, i: int, p: Player)
    requires 0 <= i < |ps|
    ensures TotalMoney(ps[i := p]) == TotalMoney(ps) - ps[i].money + p.money
    ensures TotalNetWorth(ps[i := p]) == TotalNetWorth(ps) - ps[i].netWorth + p.netWorth
  {
    if i > 0 {
      TotalsAfterReplace(ps[1..], i - 1, p);
      assert ps[i := p][1..] == ps[1..][i - 1 := p];
    }
  }

  /** No player is in jail. */
  predicate JailFree(ps: seq<Player>) {
    forall i :: 0 <= i < |ps| ==> ps[i].isJailed == 0
  }
}
