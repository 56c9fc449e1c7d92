/** The board of the Shanghai map (constants.ts): the starting money, the pass-go reward
    and the builder that lays out 62 tiles as a ring of 56 with a six-tile shortcut
    branching off at 人民广场 and rejoining at 徐家汇. */
module Board {
  import opened Types
  import opened Seqs

  const INITIAL_MONEY: real := 100000000.0
  const PASS_GO_REWARD: real := 10000000.0

  const PUDONG_NAMES: seq<string> :=
    ["张江高科", "迪士尼", "川沙", "金桥", "世纪公园", "上海科技馆", "东方艺术中心", "源深体育", "民生路", "陆家嘴中心"]
  const NORTH_NAMES: seq<string> :=
    ["外滩隧道", "外白渡桥", "南京东路", "和平饭店", "外滩18号", "福州路", "人民广场", "大剧院", "南京西路",
     "静安寺", "久光百货", "曹家渡", "长寿路", "中山公园", "虹桥枢纽"]
  const WEST_NAMES: seq<string> :=
    ["动物园", "古北", "龙之梦", "交通大学", "徐家汇", "港汇恒隆", "上海体育馆", "漕河泾", "锦江乐园", "南方商城",
     "莘庄", "闵行开发区"]
  const SOUTH_NAMES: seq<string> :=
    ["七宝", "华东理工", "上海南站", "植物园", "滨江大道", "西岸艺术", "龙华寺", "世博园", "中华艺术宫", "梅赛德斯",
     "后滩", "前滩太古里", "三林", "御桥", "康桥"]
  const SHORTCUT_NAMES: seq<string> := ["新天地", "淮海中路", "复兴公园", "田子坊", "打浦桥", "瑞金医院"]

  const TILE_COUNT := 62
  const RENMIN_ID := 18
  const XUJIAHUI_ID := 32
  const LAST_RING_ID := 55
  const SHORTCUT_HEAD_ID := 56
  const SHORTCUT_LAST_ID := 61

  /** Base rent of a tile: 15% of its price, 0 when it has none. */
  function RentFor(priceBase: Option<real>): (r: real)
    ensures priceBase.Some? ==> r == priceBase.value * 3.0 / 20.0
    ensures priceBase.None? ==> r == 0.0
  {
    match priceBase
    case Some(p) => p * 0.15
    case None => 0.0
  }

  /** The tiles are numbered 0..n-1 by position and are all still unowned empty plots whose
      rent is derived from their price. */
  ghost predicate FreshTiles(tiles: seq<Tile>, n: int) {
    |tiles| == n &&
    forall i :: 0 <= i < |tiles| ==>
      tiles[i].id == i && tiles[i].level == 0 && tiles[i].ownerId == None &&
      tiles[i].rent == RentFor(tiles[i].price)
  }

  /** Every successor names an existing tile, every tile has one, and ids are positions. */
  ghost predicate BoardGraph(tiles: seq<Tile>) {
    forall i :: 0 <= i < |tiles| ==>
      tiles[i].id == i && |tiles[i].next| > 0 &&
      forall j :: 0 <= j < |tiles[i].next| ==> 0 <= tiles[i].next[j] < |tiles|
  }

  /** The successor lists of the finished Shanghai board, in closed form. */
  function SuccessorsOf(i: int): seq<int> {
    if i == RENMIN_ID then [RENMIN_ID + 1, SHORTCUT_HEAD_ID]
    else if i == LAST_RING_ID then [0]
    else if i == SHORTCUT_LAST_ID then [XUJIAHUI_ID]
    else [i + 1]
  }

  /** The runs of tiles the builder lays in a loop: the four sides of the ring and the
      shortcut. */
  datatype Side = PudongSide | NorthSide | WestSide | SouthSide | ShortcutSide

  function SideNames(side: Side): seq<string> {
    match side
    case PudongSide => PUDONG_NAMES
    case NorthSide => NORTH_NAMES
    case WestSide => WEST_NAMES
    case SouthSide => SOUTH_NAMES
    case ShortcutSide => SHORTCUT_NAMES
  }

  /** The kind of the k-th tile of a side. */
  function SideKind(side: Side, k: int): TileType {
    match side
    case PudongSide => if k == 3 || k == 7 then Chance else Property
    case NorthSide => if k == 4 then Bank else if k == 8 then Shop else if k == 12 then Chance else Property
    case WestSide => if k == 2 then Jail else if k == 7 then Tax else if k == 10 then Chance else Property
    case SouthSide => if k == 5 then Chance else if k == 11 then Shop else Property
    case ShortcutSide => if k == 2 then Chance else if k == 5 then Shop else Property
  }

  /** The price of the k-th tile of a side, by position: on the north side 南京东路 (2) and
      静安寺 (9) cost 50M, on the shortcut 新天地 (0) costs 80M. */
  function SidePrice(side: Side, k: int): real {
    match side
    case PudongSide => 15000000.0 + k as real * 1000000.0
    case NorthSide => if k == 2 || k == 9 then 50000000.0 else 40000000.0
    case WestSide => if k < 7 then 30000000.0 else 15000000.0
    case SouthSide => 25000000.0
    case ShortcutSide => if k == 0 then 80000000.0 else 55000000.0
  }

  /** The name of tile i of the finished board. */
  function NameOf(i: int): string
    requires 0 <= i < TILE_COUNT
  {
    if i == 0 then "起点"
    else if i < 11 then PUDONG_NAMES[i - 1]
    else if i == 11 then "东方明珠"
    else if i < 27 then NORTH_NAMES[i - 12]
    else if i == 27 then "虹桥机场"
    else if i < 40 then WEST_NAMES[i - 28]
    else if i == 40 then "老街"
    else if i < 56 then SOUTH_NAMES[i - 41]
    else SHORTCUT_NAMES[i - 56]
  }

  /** The kind of tile i of the finished board: the three corners after the start are the
      Oriental Pearl plot, the airport park and the old-street shop. */
  function KindOf(i: int): TileType {
    if i == 0 then Start
    else if i < 11 then SideKind(PudongSide, i - 1)
    else if i == 11 then Property
    else if i < 27 then SideKind(NorthSide, i - 12)
    else if i == 27 then Park
    else if i < 40 then SideKind(WestSide, i - 28)
    else if i == 40 then Shop
    else if i < 56 then SideKind(SouthSide, i - 41)
    else SideKind(ShortcutSide, i - 56)
  }

  /** The price of tile i of the finished board; the start, the park and the old-street
      shop have none. */
  function PriceOf(i: int): Option<real> {
    if i == 0 || i == 27 || i == 40 then None
    else if i < 11 then Some(SidePrice(PudongSide, i - 1))
    else if i == 11 then Some(60000000.0)
    else if i < 27 then Some(SidePrice(NorthSide, i - 12))
    else if i < 40 then Some(SidePrice(WestSide, i - 28))
    else if i < 56 then Some(SidePrice(SouthSide, i - 41))
    else Some(SidePrice(ShortcutSide, i - 56))
  }

  /** What the builder guarantees about the board it returns: 62 fresh tiles, each with
      the name, kind, price and successors of its position. */
  ghost predicate ShanghaiBoard(tiles: seq<Tile>) {
    FreshTiles(tiles, TILE_COUNT) &&
    tiles[0].kind == Start &&
    tiles[RENMIN_ID].name == "人民广场" && tiles[XUJIAHUI_ID].name == "徐家汇" &&
    (forall i :: 0 <= i < |tiles| ==>
       tiles[i].name == NameOf(i) && tiles[i].kind == KindOf(i) && tiles[i].price == PriceOf(i)) &&
    forall i :: 0 <= i < |tiles| ==> tiles[i].next == SuccessorsOf(i)
  }

  /** Tiles base .. base+count-1 have the kinds and prices of the first count tiles of a
      side. */
  ghost predicate Priced(tiles: seq<Tile>, base: int, side: Side, count: int) {
    0 <= base && 0 <= count && base + count <= |tiles| &&
    forall j :: base <= j < base + count ==>
      tiles[j].kind == SideKind(side, j - base) && tiles[j].price == Some(SidePrice(side, j - base))
  }

  /** On the north side the loop's name test picks out positions 2 and 9. */
  lemma NorthPremiumNames(k: int)
    requires 0 <= k < |NORTH_NAMES|
    ensures (NORTH_NAMES[k] == "南京东路" || NORTH_NAMES[k] == "静安寺") <==> (k == 2 || k == 9)
  {
  }

  /** On the shortcut the loop's name test picks out position 0. */
  lemma ShortcutPremiumName(k: int)
    requires 0 <= k < |SHORTCUT_NAMES|
    ensures SHORTCUT_NAMES[k] == "新天地" <==> k == 0
  {
  }

  ghost predicate NamedRun(tiles: seq<Tile>, base: int, names: seq<string>, count: int) {
    0 <= base && 0 <= count <= |names| && base + count <= |tiles| &&
    forall k :: 0 <= k < count ==> tiles[base + k].name == names[k]
  }

  /** `addTile`: append a tile numbered by the running counter, whose successor defaults to
      the next number. */
  method AddTile(tiles: seq<Tile>, idCounter: int, name: string, kind: TileType,
                 priceBase: Option<real>, nextOverride: Option<seq<int>>)
    returns (tiles': seq<Tile>, idCounter': int)
    requires FreshTiles(tiles, idCounter)
    ensures FreshTiles(tiles', idCounter') && idCounter' == idCounter + 1
    ensures tiles'[..idCounter] == tiles
    ensures tiles'[idCounter].name == name && tiles'[idCounter].kind == kind
    ensures tiles'[idCounter].price == priceBase
    ensures tiles'[idCounter].next == if nextOverride.Some? then nextOverride.value else [idCounter + 1]
  {
    var next := match nextOverride case Some(ns) => ns case None => [idCounter + 1];
    tiles' := tiles + [Tile(idCounter, name, kind, next, priceBase, RentFor(priceBase), None, 0)];
    idCounter' := idCounter + 1;
  }

  /** The tiles from `lo` up to `hi` lead straight on to the next id. */
  ghost predicate Chained(tiles: seq<Tile>, lo: int, hi: int)
    requires 0 <= lo <= hi <= |tiles|
  {
    forall k :: lo <= k < hi ==> tiles[k].next == [k + 1]
  }

  /** The tiles appended by one side of the ring: named, typed and priced in order, each
      leading to the next. */
  ghost predicate LaidSide(old_: seq<Tile>, tiles: seq<Tile>, side: Side) {
    |tiles| == |old_| + |SideNames(side)| && tiles[..|old_|] == old_ &&
    NamedRun(tiles, |old_|, SideNames(side), |SideNames(side)|) &&
    Priced(tiles, |old_|, side, |SideNames(side)|) && Chained(tiles, |old_|, |tiles|)
  }

  /** The first i tiles of a side have been laid from `base` on. */
  ghost predicate SideProgress(tiles: seq<Tile>, base: int, side: Side, i: int) {
    0 <= base && |tiles| == base + i &&
    NamedRun(tiles, base, SideNames(side), i) && Priced(tiles, base, side, i) && Chained(tiles, base, |tiles|)
  }

  /** Appending the i-th tile of a side, named, typed and priced as the side says and leading
      to the next id, extends the run by one. */
  lemma SideStep(prev: seq<Tile>, next: seq<Tile>, base: int, side: Side, i: int)
    requires 0 <= i < |SideNames(side)| && SideProgress(prev, base, side, i)
    requires |next| == |prev| + 1 && next[..|prev|] == prev
    requires next[base + i].name == SideNames(side)[i] && next[base + i].next == [base + i + 1]
    requires next[base + i].kind == SideKind(side, i) && next[base + i].price == Some(SidePrice(side, i))
    ensures SideProgress(next, base, side, i + 1) && next[..base] == prev[..base]
  {
    forall j | 0 <= j < |prev| ensures next[j] == prev[j] {
      assert next[..|prev|][j] == next[j];
    }
    var names := SideNames(side);
    assert NamedRun(next, base, names, i + 1) by {
      forall k | 0 <= k < i + 1 ensures next[base + k].name == names[k] {
        if k < i { assert next[base + k] == prev[base + k]; }
      }
    }
    assert Priced(next, base, side, i + 1) by {
      forall j | base <= j < base + i + 1
        ensures next[j].kind == SideKind(side, j - base) && next[j].price == Some(SidePrice(side, j - base))
      {
        if j < base + i { assert next[j] == prev[j]; }
      }
    }
    assert Chained(next, base, |next|) by {
      forall j | base <= j < |next| ensures next[j].next == [j + 1] {
        if j < base + i { assert next[j] == prev[j]; }
      }
    }
  }

  /** The Pudong side: ten tiles going up, two of them chance tiles, priced 15M upward. */
  method LayPudongSide(tiles: seq<Tile>, idCounter: int) returns (tiles': seq<Tile>, idCounter': int)
    requires FreshTiles(tiles, idCounter)
    ensures FreshTiles(tiles', idCounter') && LaidSide(tiles, tiles', PudongSide)
  {
    tiles', idCounter' := tiles, idCounter;
    for i := 0 to |PUDONG_NAMES|
      invariant FreshTiles(tiles', idCounter') && idCounter' == idCounter + i
      invariant tiles'[..idCounter] == tiles
      invariant SideProgress(tiles', idCounter, PudongSide, i)
    {
      var kind := if i == 3 || i == 7 then Chance else Property;
      var prev := tiles';
      tiles', idCounter' := AddTile(tiles', idCounter', PUDONG_NAMES[i], kind, Some(15000000.0 + i as real * 1000000.0), None);
      SideStep(prev, tiles', idCounter, PudongSide, i);
    }
  }

  /** The north side along the river: fifteen tiles with a bank, a shop and a chance tile. */
  method LayNorthSide(tiles: seq<Tile>, idCounter: int) returns (tiles': seq<Tile>, idCounter': int)
    requires FreshTiles(tiles, idCounter)
    ensures FreshTiles(tiles', idCounter') && LaidSide(tiles, tiles', NorthSide)
  {
    tiles', idCounter' := tiles, idCounter;
    for i := 0 to |NORTH_NAMES|
      invariant FreshTiles(tiles', idCounter') && idCounter' == idCounter + i
      invariant tiles'[..idCounter] == tiles
      invariant SideProgress(tiles', idCounter, NorthSide, i)
    {
      var kind := Property;
      var price := 40000000.0;
      if i == 4 { kind := Bank; }
      if i == 8 { kind := Shop; }
      if i == 12 { kind := Chance; }
      if NORTH_NAMES[i] == "南京东路" || NORTH_NAMES[i] == "静安寺" { price := 50000000.0; }
      NorthPremiumNames(i);
      var prev := tiles';
      tiles', idCounter' := AddTile(tiles', idCounter', NORTH_NAMES[i], kind, Some(price), None);
      SideStep(prev, tiles', idCounter, NorthSide, i);
    }
  }

  /** The west side going down: twelve tiles with the jail, the tax office and a chance tile. */
  method LayWestSide(tiles: seq<Tile>, idCounter: int) returns (tiles': seq<Tile>, idCounter': int)
    requires FreshTiles(tiles, idCounter)
    ensures FreshTiles(tiles', idCounter') && LaidSide(tiles, tiles', WestSide)
  {
    tiles', idCounter' := tiles, idCounter;
    for i := 0 to |WEST_NAMES|
      invariant FreshTiles(tiles', idCounter') && idCounter' == idCounter + i
      invariant tiles'[..idCounter] == tiles
      invariant SideProgress(tiles', idCounter, WestSide, i)
    {
      var kind := Property;
      if i == 2 { kind := Jail; }
      if i == 7 { kind := Tax; }
      if i == 10 { kind := Chance; }
      var price := 20000000.0 + (if i < 7 then 10000000.0 else -5000000.0);
      var prev := tiles';
      tiles', idCounter' := AddTile(tiles', idCounter', WEST_NAMES[i], kind, Some(price), None);
      SideStep(prev, tiles', idCounter, WestSide, i);
    }
  }

  /** The south side going right: fifteen tiles at 25M with a chance tile and a shop. */
  method LaySouthSide(tiles: seq<Tile>, idCounter: int) returns (tiles': seq<Tile>, idCounter': int)
    requires FreshTiles(tiles, idCounter)
    ensures FreshTiles(tiles', idCounter') && LaidSide(tiles, tiles', SouthSide)
  {
    tiles', idCounter' := tiles, idCounter;
    for i := 0 to |SOUTH_NAMES|
      invariant FreshTiles(tiles', idCounter') && idCounter' == idCounter + i
      invariant tiles'[..idCounter] == tiles
      invariant SideProgress(tiles', idCounter, SouthSide, i)
    {
      var kind := Property;
      if i == 5 { kind := Chance; }
      if i == 11 { kind := Shop; }
      var prev := tiles';
      tiles', idCounter' := AddTile(tiles', idCounter', SOUTH_NAMES[i], kind, Some(25000000.0), None);
      SideStep(prev, tiles', idCounter, SouthSide, i);
    }
  }

  /** The main ring of 56 tiles, closed by pointing its last tile back at the start. */
  method LayRing() returns (tiles: seq<Tile>, idCounter: int)
    ensures FreshTiles(tiles, idCounter) && idCounter == 56
    ensures tiles[0].kind == Start
    ensures tiles[RENMIN_ID].name == "人民广场" && tiles[XUJIAHUI_ID].name == "徐家汇"
    ensures forall j :: 0 <= j < RENMIN_ID ==> tiles[j].name != "人民广场"
    ensures forall j :: 0 <= j < XUJIAHUI_ID ==> tiles[j].name != "徐家汇"
    ensures forall k :: 0 <= k < idCounter ==> tiles[k].next == if k == LAST_RING_ID then [0] else [k + 1]
    ensures forall k :: 0 <= k < idCounter ==>
      tiles[k].name == NameOf(k) && tiles[k].kind == KindOf(k) && tiles[k].price == PriceOf(k)
  {
    tiles := [];
    idCounter := 0;
    tiles, idCounter := AddTile(tiles, idCounter, "起点", Start, None, None);
    var t0 := tiles;
    tiles, idCounter := LayPudongSide(tiles, idCounter);
    var t1 := tiles;
    tiles, idCounter := AddTile(tiles, idCounter, "东方明珠", Property, Some(60000000.0), None);
    var t2 := tiles;
    tiles, idCounter := LayNorthSide(tiles, idCounter);
    var t3 := tiles;
    tiles, idCounter := AddTile(tiles, idCounter, "虹桥机场", Park, None, None);
    var t4 := tiles;
    tiles, idCounter := LayWestSide(tiles, idCounter);
    var t5 := tiles;
    tiles, idCounter := AddTile(tiles, idCounter, "老街", Shop, None, None);
    var t6 := tiles;
    tiles, idCounter := LaySouthSide(tiles, idCounter);
    RingPrefix(t0, t1, t2, t3, t4, t5, t6, tiles);
    // Close the ring: the last tile laid so far leads back to the start.
    tiles := tiles[|tiles| - 1 := tiles[|tiles| - 1].(next := [0])];
  }

  /** The shortcut: six tiles from `idCounter` on, the first one 新天地 at 80M, the others at
      55M with a chance tile and a shop; each leads to the next and the last one to `endId`. */
  method LayShortcut(tiles: seq<Tile>, idCounter: int, endId: int) returns (tiles': seq<Tile>, idCounter': int)
    requires FreshTiles(tiles, idCounter)
    ensures FreshTiles(tiles', idCounter') && idCounter' == idCounter + |SHORTCUT_NAMES|
    ensures tiles'[..idCounter] == tiles
    ensures forall k :: idCounter <= k < idCounter' ==> tiles'[k].next == if k == idCounter' - 1 then [endId] else [k + 1]
    ensures NamedRun(tiles', idCounter, SHORTCUT_NAMES, |SHORTCUT_NAMES|)
    ensures Priced(tiles', idCounter, ShortcutSide, |SHORTCUT_NAMES|)
  {
    tiles', idCounter' := tiles, idCounter;
    for i := 0 to |SHORTCUT_NAMES|
      invariant FreshTiles(tiles', idCounter') && idCounter' == idCounter + i
      invariant tiles'[..idCounter] == tiles
      invariant forall k :: idCounter <= k < idCounter' ==>
        tiles'[k].next == if k == idCounter + |SHORTCUT_NAMES| - 1 then [endId] else [k + 1]
      invariant NamedRun(tiles', idCounter, SHORTCUT_NAMES, i) && Priced(tiles', idCounter, ShortcutSide, i)
    {
      var kind := Property;
      var price := 55000000.0;
      if SHORTCUT_NAMES[i] == "新天地" { price := 80000000.0; }
      ShortcutPremiumName(i);
      if i == 2 { kind := Chance; }
      if i == 5 { kind := Shop; }
      tiles' := tiles' + [Tile(idCounter', SHORTCUT_NAMES[i], kind, [idCounter' + 1], Some(price), price * 0.15, None, 0)];
      if i == |SHORTCUT_NAMES| - 1 {
        tiles' := tiles'[|tiles'| - 1 := tiles'[|tiles'| - 1].(next := [endId])];
      }
      idCounter' := idCounter' + 1;
    }
  }

  predicate IsRenmin(t: Tile) {
    t.name == "人民广场"
  }

  predicate IsXujiahui(t: Tile) {
    t.name == "徐家汇"
  }

  /** On the ring the name lookups find 人民广场 at id 18 and 徐家汇 at id 32. */
  lemma RingLookups(tiles: seq<Tile>)
    requires |tiles| == 56
    requires tiles[RENMIN_ID].name == "人民广场" && tiles[XUJIAHUI_ID].name == "徐家汇"
    requires forall j :: 0 <= j < RENMIN_ID ==> tiles[j].name != "人民广场"
    requires forall j :: 0 <= j < XUJIAHUI_ID ==> tiles[j].name != "徐家汇"
    ensures FindIndex(tiles, IsRenmin) == Some(RENMIN_ID)
    ensures FindIndex(tiles, IsXujiahui) == Some(XUJIAHUI_ID)
  {
    var r := FindIndex(tiles, IsRenmin);
    assert IsRenmin(tiles[RENMIN_ID]);
    assert r.Some? && r.value <= RENMIN_ID;
    var x := FindIndex(tiles, IsXujiahui);
    assert IsXujiahui(tiles[XUJIAHUI_ID]);
    assert x.Some? && x.value <= XUJIAHUI_ID;
  }

  /** `generateShanghaiMap`: the ring, then the shortcut from 人民广场 to 徐家汇. */
  method GenerateShanghaiMap() returns (tiles: seq<Tile>)
    ensures ShanghaiBoard(tiles)
  {
    var idCounter;
    tiles, idCounter := LayRing();

    var renmin := FindIndex(tiles, IsRenmin);
    var xujiahui := FindIndex(tiles, IsXujiahui);
    RingLookups(tiles);
    var startId := tiles[renmin.value].id;
    var endId := tiles[xujiahui.value].id;

    var shortcutStartId := idCounter;
    var ring := tiles;
    tiles, idCounter := LayShortcut(tiles, idCounter, endId);
    BranchCompletesBoard(ring, tiles);

    // The branch: 人民广场 also leads to the head of the shortcut.
    tiles := tiles[startId := tiles[startId].(next := tiles[startId].next + [shortcutStartId])];
  }

  /** The ring followed by the shortcut back to 徐家汇, once 人民广场 also leads to the
      shortcut's head, is the Shanghai board. */
  lemma BranchCompletesBoard(ring: seq<Tile>, tiles: seq<Tile>)
    requires FreshTiles(ring, 56) && ring[0].kind == Start
    requires ring[RENMIN_ID].name == "人民广场" && ring[XUJIAHUI_ID].name == "徐家汇"
    requires forall k :: 0 <= k < 56 ==> ring[k].next == if k == LAST_RING_ID then [0] else [k + 1]
    requires FreshTiles(tiles, TILE_COUNT) && tiles[..56] == ring
    requires forall k :: 0 <= k < 56 ==>
      ring[k].name == NameOf(k) && ring[k].kind == KindOf(k) && ring[k].price == PriceOf(k)
    requires forall k :: 56 <= k < TILE_COUNT ==> tiles[k].next == if k == TILE_COUNT - 1 then [XUJIAHUI_ID] else [k + 1]
    requires NamedRun(tiles, 56, SHORTCUT_NAMES, |SHORTCUT_NAMES|) && Priced(tiles, 56, ShortcutSide, |SHORTCUT_NAMES|)
    ensures ShanghaiBoard(tiles[RENMIN_ID := tiles[RENMIN_ID].(next := tiles[RENMIN_ID].next + [SHORTCUT_HEAD_ID])])
  {
    var b := tiles[RENMIN_ID := tiles[RENMIN_ID].(next := tiles[RENMIN_ID].next + [SHORTCUT_HEAD_ID])];
    assert tiles[0] == ring[0] && tiles[XUJIAHUI_ID] == ring[XUJIAHUI_ID] && tiles[RENMIN_ID] == ring[RENMIN_ID];
    forall i | 0 <= i < |b|
      ensures b[i].next == SuccessorsOf(i)
      ensures b[i].name == NameOf(i) && b[i].kind == KindOf(i) && b[i].price == PriceOf(i)
    {
      if i < 56 {
        assert tiles[i] == ring[i];
      } else {
        assert tiles[56 + (i - 56)].name == SHORTCUT_NAMES[i - 56];
      }
    }
  }

  /** The four sides and corners laid in order give the ring's names, kinds, prices and
      straight links. */
  lemma RingPrefix(t0: seq<Tile>, t1: seq<Tile>, t2: seq<Tile>, t3: seq<Tile>, t4: seq<Tile>,
                   t5: seq<Tile>, t6: seq<Tile>, t7: seq<Tile>)
    requires |t0| == 1 && t0[0].name == "起点" && t0[0].next == [1] && t0[0].kind == Start && t0[0].price == None
    requires LaidSide(t0, t1, PudongSide)
    requires |t2| == |t1| + 1 && t2[..|t1|] == t1 && t2[|t1|].name == "东方明珠" && t2[|t1|].next == [|t1| + 1]
    requires t2[|t1|].kind == Property && t2[|t1|].price == Some(60000000.0)
    requires LaidSide(t2, t3, NorthSide)
    requires |t4| == |t3| + 1 && t4[..|t3|] == t3 && t4[|t3|].name == "虹桥机场" && t4[|t3|].next == [|t3| + 1]
    requires t4[|t3|].kind == Park && t4[|t3|].price == None
    requires LaidSide(t4, t5, WestSide)
    requires |t6| == |t5| + 1 && t6[..|t5|] == t5 && t6[|t5|].name == "老街" && t6[|t5|].next == [|t5| + 1]
    requires t6[|t5|].kind == Shop && t6[|t5|].price == None
    requires LaidSide(t6, t7, SouthSide)
    ensures |t7| == 56 && t7[0].kind == Start
    ensures forall k :: 0 <= k < 56 ==> t7[k].next == [k + 1]
    ensures forall k :: 0 <= k < 56 ==>
      t7[k].name == NameOf(k) && t7[k].kind == KindOf(k) && t7[k].price == PriceOf(k)
    ensures t7[RENMIN_ID].name == "人民广场" && t7[XUJIAHUI_ID].name == "徐家汇"
    ensures forall j :: 0 <= j < RENMIN_ID ==> t7[j].name != "人民广场"
    ensures forall j :: 0 <= j < XUJIAHUI_ID ==> t7[j].name != "徐家汇"
  {
    assert |t7| == 56;
    forall k | 0 <= k < 56
      ensures t7[k].next == [k + 1]
      ensures t7[k].name == NameOf(k) && t7[k].kind == KindOf(k) && t7[k].price == PriceOf(k)
    {
      if k < 1 { assert t7[k] == t6[k] == t5[k] == t4[k] == t3[k] == t2[k] == t1[k] == t0[k]; }
      else if k < 11 {
        assert t7[k] == t6[k] == t5[k] == t4[k] == t3[k] == t2[k] == t1[k];
        assert t1[1 + (k - 1)].name == PUDONG_NAMES[k - 1];
      }
      else if k < 12 { assert t7[k] == t6[k] == t5[k] == t4[k] == t3[k] == t2[k]; }
      else if k < 27 {
        assert t7[k] == t6[k] == t5[k] == t4[k] == t3[k];
        assert t3[12 + (k - 12)].name == NORTH_NAMES[k - 12];
      }
      else if k < 28 { assert t7[k] == t6[k] == t5[k] == t4[k]; }
      else if k < 40 {
        assert t7[k] == t6[k] == t5[k];
        assert t5[28 + (k - 28)].name == WEST_NAMES[k - 28];
      }
      else if k < 41 { assert t7[k] == t6[k]; }
      else {
        assert t7[41 + (k - 41)].name == SOUTH_NAMES[k - 41];
      }
    }
    assert NamedRun(t7, 1, PUDONG_NAMES, 10) by {
      forall k | 0 <= k < 10 ensures t7[1 + k].name == PUDONG_NAMES[k] { assert t7[1 + k].name == NameOf(1 + k); }
    }
    assert NamedRun(t7, 12, NORTH_NAMES, 15) by {
      forall k | 0 <= k < 15 ensures t7[12 + k].name == NORTH_NAMES[k] { assert t7[12 + k].name == NameOf(12 + k); }
    }
    assert NamedRun(t7, 28, WEST_NAMES, 12) by {
      forall k | 0 <= k < 12 ensures t7[28 + k].name == WEST_NAMES[k] { assert t7[28 + k].name == NameOf(28 + k); }
    }
    NamesBeforeRenmin(t7);
  }

  /** No tile laid before 人民广场 (or before 徐家汇) carries that name, so the name lookups
      find ids 18 and 32. */
  lemma NamesBeforeRenmin(tiles: seq<Tile>)
    requires |tiles| >= 40 && tiles[0].name == "起点" && tiles[11].name == "东方明珠"
    requires tiles[27].name == "虹桥机场"
    requires NamedRun(tiles, 1, PUDONG_NAMES, 10)
    requires NamedRun(tiles, 12, NORTH_NAMES, 15)
    requires NamedRun(tiles, 28, WEST_NAMES, 12)
    ensures tiles[RENMIN_ID].name == "人民广场" && tiles[XUJIAHUI_ID].name == "徐家汇"
    ensures forall j :: 0 <= j < RENMIN_ID ==> tiles[j].name != "人民广场"
    ensures forall j :: 0 <= j < XUJIAHUI_ID ==> tiles[j].name != "徐家汇"
  {
    assert tiles[18].name == NORTH_NAMES[6];
    assert tiles[32].name == WEST_NAMES[4];
    forall j | 0 <= j < XUJIAHUI_ID
      ensures tiles[j].name != "人民广场" || j >= RENMIN_ID
      ensures tiles[j].name != "徐家汇"
    {
      if 1 <= j <= 10 {
        assert tiles[j].name == PUDONG_NAMES[j - 1];
      } else if 12 <= j <= 26 {
        assert tiles[j].name == NORTH_NAMES[j - 12];
      } else if 28 <= j {
        assert tiles[j].name == WEST_NAMES[j - 28];
      }
    }
  }

  /** Where the special tiles are: the start at 0, the bank at 16, the airport park at 27,
      the jail at 30 and the tax office at 35, chance tiles at 4, 8, 24, 38, 46 and 58, shops
      at 20, 40, 52 and 61; every other tile is a priced plot, and only the start, the park and
      the old-street shop have no price. */
  lemma SpecialTiles(tiles: seq<Tile>, i: int)
    requires ShanghaiBoard(tiles) && 0 <= i < |tiles|
    ensures tiles[i].kind == Start <==> i == 0
    ensures tiles[i].kind == Bank <==> i == 16
    ensures tiles[i].kind == Park <==> i == 27
    ensures tiles[i].kind == Jail <==> i == 30
    ensures tiles[i].kind == Tax <==> i == 35
    ensures tiles[i].kind == Chance <==> i == 4 || i == 8 || i == 24 || i == 38 || i == 46 || i == 58
    ensures tiles[i].kind == Shop <==> i == 20 || i == 40 || i == 52 || i == 61
    ensures tiles[i].price.None? <==> i == 0 || i == 27 || i == 40
    ensures tiles[i].kind == Property ==> tiles[i].price.Some? && tiles[i].price.value >= 15000000.0
  {
    assert tiles[i].kind == KindOf(i) && tiles[i].price == PriceOf(i);
  }

  /** Every successor on the Shanghai board names one of its 62 tiles. */
  lemma ShanghaiBoardIsGraph(tiles: seq<Tile>)
    requires ShanghaiBoard(tiles)
    ensures BoardGraph(tiles)
  {
    forall i | 0 <= i < |tiles|
      ensures forall j :: 0 <= j < |tiles[i].next| ==> 0 <= tiles[i].next[j] < |tiles|
    {
      assert tiles[i].next == SuccessorsOf(i);
    }
  }

  /** 人民广场 is the one branching tile. */
  lemma OnlyRenminBranches(tiles: seq<Tile>, i: int)
    requires ShanghaiBoard(tiles) && 0 <= i < |tiles|
    ensures |tiles[i].next| > 1 <==> i == RENMIN_ID
    ensures i == RENMIN_ID ==> tiles[i].next == [RENMIN_ID + 1, SHORTCUT_HEAD_ID]
  {
    assert tiles[i].next == SuccessorsOf(i);
  }

  /** Hops still needed to reach the start when every choice is made: around the ring, or
      down the shortcut and round from 徐家汇. */
  function HopsToStart(i: int): nat {
    if i <= 0 then 0
    else if i <= LAST_RING_ID then LAST_RING_ID + 1 - i
    else if i <= SHORTCUT_LAST_ID then (SHORTCUT_LAST_ID - i) + 1 + (LAST_RING_ID + 1 - XUJIAHUI_ID)
    else 0
  }

  /** Every hop from a tile other than the start gets strictly closer to the start. */
  lemma HopApproachesStart(tiles: seq<Tile>, i: int, j: int)
    requires ShanghaiBoard(tiles) && 0 < i < |tiles| && j in tiles[i].next
    ensures 0 <= j < |tiles| && HopsToStart(j) < HopsToStart(i)
  {
    assert tiles[i].next == SuccessorsOf(i);
  }

  /** A sequence of tiles in which each one is a successor of the one before. */
  ghost predicate IsWalk(tiles: seq<Tile>, w: seq<int>) {
    |w| > 0 && (forall k :: 0 <= k < |w| ==> 0 <= w[k] < |tiles|) &&
    forall k :: 0 <= k < |w| - 1 ==> w[k + 1] in tiles[w[k]].next
  }

  /** Whatever branch is taken, a walk from tile t reaches the start within HopsToStart(t)
      hops: the board has no dead end and no cycle that avoids the start. */
  lemma {:induction false} WalkReachesStart(tiles: seq<Tile>, w: seq<int>)
    requires ShanghaiBoard(tiles) && IsWalk(tiles, w) && |w| > HopsToStart(w[0])
    ensures 0 in w[..HopsToStart(w[0]) + 1]
  {
    if w[0] != 0 {
      HopApproachesStart(tiles, w[0], w[1]);
      var rest := w[1..];
      assert IsWalk(tiles, rest) by {
        forall k | 0 <= k < |rest| - 1 ensures rest[k + 1] in tiles[rest[k]].next {
          assert rest[k] == w[k + 1] && rest[k + 1] == w[k + 2];
        }
      }
      WalkReachesStart(tiles, rest);
      var m := HopsToStart(w[1]) + 1;
      assert rest[..m] == w[1..m + 1];
      assert w[1..m + 1] <= w[..HopsToStart(w[0]) + 1][1..];
    }
  }
}
