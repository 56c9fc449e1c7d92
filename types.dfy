/** The record types of the game (types.ts): tiles of the board graph, players and
    the whole game state that the React component keeps in one state cell. Fields that
    only serve rendering (coordinates, colours, districts, avatars, text) are left out. */
module Types {

  datatype Option<+T> = None | Some(value: T)

  /** The eight kinds of board tile. */
  datatype TileType = Property | Start | Chance | Jail | Bank | Tax | Shop | Park

  /** One node of the board graph. `next` lists the successor ids; more than one entry is
      a branch. `ownerId == None` is an unowned tile; `level == 0` is an empty plot. */
  datatype Tile = Tile(
    id: int,
    name: string,
    kind: TileType,
    next: seq<int>,
    price: Option<real>,
    rent: real,
    ownerId: Option<int>,
    level: int)

  /** The part of a character profile that the engine reads: its id and its charm. */
  datatype Character = Character(id: int, charm: int)

  /** A participant. `isJailed` counts the turns still to be spent in jail, `properties`
      lists the ids of the tiles the player bought. */
  datatype Player = Player(
    id: int,
    charm: int,
    isAI: bool,
    money: real,
    position: int,
    isBankrupt: bool,
    isJailed: int,
    properties: seq<int>,
    netWorth: real)

  datatype GameStatus = Setup | SelectCharacter | Playing | WaitingForDirection | GameOver

  datatype PendingAction = NoAction | BuyDecision | EventProcessing | ShowingEvent

  /** The cohorts a global economy event can address. */
  datatype GlobalEventTarget = All | Poor | Rich | Landlords | OddId

  /** The four catastrophic ("black swan") actions. */
  datatype BlackSwanAction = WipeCash | WipeProperty | SwapMoney | SuperTax

  /** The whole session snapshot. `remainingSteps` holds the steps still owed while the
      game waits for a direction choice. The log list is left out. */
  datatype GameState = GameState(
    players: seq<Player>,
    tiles: seq<Tile>,
    currentPlayerIndex: int,
    turnCount: int,
    gameStatus: GameStatus,
    lastDiceRoll: Option<int>,
    remainingSteps: int,
    isMoving: bool,
    pendingAction: PendingAction,
    winner: Option<Player>)
}
