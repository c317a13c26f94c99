/**
 * The already-decoded command leaves the engine consumes. The decoder and the
 * flattener are outside the model: a leaf arrives with the kind of its parent
 * layer and with the values the engine reads through its parent chain.
 */
module Nodes {
  import opened Base

  /** The kind of a leaf's parent layer (the source tests it with isinstance). */
  datatype Layer = Hazel | Inner | GameData | Rpc | UpdateGameData | Spawn | SpawnSubcommand

  /** Player names are kept as the raw bytes the protocol carries. */
  type Name = seq<byte>

  /** The game settings mapping: stored and replaced wholesale, never interpreted. */
  type Settings = map<string, int>

  /** A child of a spawn layer: the net id it spawns and its raw payload. */
  datatype Child = Child(netId: int, data: seq<byte>)

  /** The properties of a leaf that the engine reads, each under the key named in its comment. */
  datatype Props = Props(
    ownerId: int,            // "ownerId": RemovePlayer's client id, Data's target net id
    clientId: int,           // "clientId": JoinedGame, Player spawn
    hostClientId: int,       // "hostclientId": JoinedGame
    gameId: Option<int>,     // "gameId", when the leaf has that key
    data: seq<byte>,         // "data": Data's movement payload
    exiledPlayerId: int,     // "exiledPlayerId": VotingComplete
    x: int, y: int,          // "x", "y": SnapTo
    seqNum: int,             // "seq": SnapTo
    netId: int,              // "netId": MurderPlayer's victim
    name: Name,              // "name": SetName
    id: int,                 // "id": SetSkin, SetHat, SetColor, SetPet
    playerIdList: seq<int>,  // "playerIdList": SetInfected
    message: string,         // "message": SendChat
    playerId: int,           // "PlayerId": game-data update
    playerName: Name,        // "PlayerName"
    skinId: int,             // "SkinId"
    hatId: int,              // "HatId"
    colorId: int,            // "ColorId"
    petId: int               // "PetId"
  )

  /** What the engine reads through the parent chain rather than from the leaf itself. */
  datatype Context = Context(
    rpcOwnerId: int,        // "ownerId" of the command that holds an rpc layer
    settings: Settings,     // props of the settings node beside a SyncSettings leaf
    reportId: int,          // "playerId" of the report node beside a StartMeeting leaf
    children: seq<Child>    // the spawned children of a spawn layer, in order
  )

  /**
   * The command names the engine acts on; `Other` is any name it ignores.
   * `Player`, `Lobby` and `GameData` name spawn leaves, and `Player` also the
   * game-data update leaf.
   */
  datatype Command =
    | Hello | RemovePlayer | StartGame | EndGame | JoinedGame | Data
    | SyncSettings | StartMeeting | Close | VotingComplete
    | EnterVent | ExitVent | SnapTo | MurderPlayer
    | SetName | SetSkin | SetHat | SetColor | SetPet | SetInfected | SendChat
    | Player | Lobby | GameData
    | Other(name: string)

  datatype Node = Node(layer: Layer, command: Command, props: Props, context: Context)

  /** EndGame and JoinedGame reset the whole session. */
  predicate IsResetCommand(n: Node) {
    n.layer == Inner && (n.command.EndGame? || n.command.JoinedGame?)
  }

  predicate IsPlayerSpawn(n: Node) {
    n.layer == Spawn && n.command.Player?
  }

  /** A Player spawn the source can unpack: three children, a two-byte control payload. */
  predicate WellFormedPlayerSpawn(n: Node) {
    |n.context.children| == 3 && |n.context.children[0].data| == 2
  }

  /** Deferred leaves of one net id: rpc-layer leaves addressed to that net id. */
  predicate DeferredFor(ns: seq<Node>, netId: int) {
    forall i :: 0 <= i < |ns| ==> ns[i].layer == Rpc && ns[i].context.rpcOwnerId == netId
  }
}
