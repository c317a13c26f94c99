# amongUsParser game engine, modelled in Dafny

This project models the game engine of amongUsParser (`gameEngine.py`). The engine is a single-threaded
state machine. It rebuilds an Among Us game world from a stream of already-decoded protocol leaves:

- players keyed by client id, and a second index by stable player id;
- entities keyed by net id, each owned by a player;
- a preload buffer for rpc commands that arrive before their entity is spawned;
- meeting state, lobby entity, game settings, tick, time and game id;
- per player: attributes, the owned entities, and a movement gate keyed on a sequence number.

Every callback the engine fires is appended to a `trace`. The handlers themselves are foreign code.

The model keeps the source's form:

- `PlayerClass` and `GameEngine` are Dafny classes whose methods update fields in place.
- `EntityClass` is never changed after `add_to_player`, so it is a value, `Entity(netId, owner)`.
- The loops of the source are `while` loops with invariants:
  - the leaf loop of `proc`;
  - the preload replay;
  - the `SetInfected` loop;
  - the child loops of the spawns;
  - the username-list reader;
  - the rename loop over `players`.
- Each loop is proved against a specification:
  - the leaf loop of `proc` grows a ghost log (`procLog`, written only by `ProcNode`) by the leaves it handed to `proc_node`, in order, each with its outcome, stopping at the first one that raises;
  - the preload replay logs the leaves it replays (`replayLog`), and that log grows by `Engine.Replayed`, while the buffer becomes `Engine.Drained`;
  - the `SetInfected` loop is specified by `InfectedEvents`, the child loops by `OwnedBy` and `NewIds`;
  - the username-list reader by `UserList.DecodeUserList`, and storing the list by `UserList.LookupAfter` and `UserList.NameAfter`;
  - the rename loop by `RenameEvents`;
  - the movement gate by `Movement.MoveStep` and `Movement.SnapStep`, and the preload buffer by `Engine.Deferred`.
- Each layer's transition is a two-state predicate (`RpcEffect`, `EntityLeafEffect`, `InnerEffect`, `SpawnEffect`, `PlayerSpawned`), and `LeafHandled` combines them by the parent layer's kind. The dispatchers' contracts state those predicates. Each predicate also states that the fields and players it does not name are as they were; for the Player spawn, `SpawnKept` states this beside `PlayerSpawned`. The one exception is what a well-formed Player spawn's replayed rpc leaves may change. Their composed effect on the trace, the meeting record, the settings, the game id and the player attributes other than the ids and entities is stated only for deaths and renames.

Modules:

- `Base`: optional values, bytes, little-endian 16-bit fields.
- `Movement`: the movement payload decoder, the sequence gate, `snap_to`, the coordinate scaling.
- `UserList`: the username list of a GameData spawn (decoder, encoder, round trip), and how storing it one record at a time ends.
- `Nodes`: the decoded leaves the engine consumes:
  - the parent layer's kind;
  - the props it reads;
  - what it reads through the parent chain (the rpc owner id, the settings, the report id, the spawned children).
- `Engine`: the `Player` and `GameEngine` classes and `proc_node`'s transitions.

Python's truth tests are kept where they decide a branch:

- An unset field holding `False` is `None`.
- `not self.name` also holds for an empty name.
- `not self.lobbyEntity` also holds for net id 0.
- `owner_id == player.networkTransformNetId` holds for owner id 0 when the field is still `False`.

A leaf on which the source raises an uncaught exception makes the step return `ok == false`. The
predicate `Engine.Raises` lists these leaves. The state changed before the raise is kept, and `proc`
stops at that leaf.

Behaviour kept as written in `gameEngine.py`:

- `remove_player` never shrinks the global entity index (lines 249-256). Its loop iterates the keys of `player.entities`, which are ints, and reads `.netId` on each. Every failure is swallowed, so every net id of the removed player still resolves, to that player where it did before (`StillResolves`, in `RemovePlayer`'s contract).
- `snap_to` stores the unscaled recentred offsets and never advances `lastMoveSeq` (lines 53-58). A movement payload with the same sequence number still overrides a snap (`Movement.SnapLeavesGateOpen`).
- `create_player` replaces any player under the client id. Only `spawn_entity` reuses one.
- `add_entity` consults only the player's own map, so a second player can take over a net id in the global index.
- `StartMeeting` with an unknown owner entity keeps the previous `meetingStartedBy`.
- `reset` does not clear `gameDataEntities`.
- A game-data update naming an unknown player id returns early, so that leaf's `gameId` is not recorded.

## Model

Three definitions are contract vocabulary only and have no row: `Engine.GameEngine.SpawnOwner` (gameEngine.py:443) is the one player whose stable id and entity net ids a Player spawn may write; `Engine.GameEngine.NextGameId` (gameEngine.py:492-493) is the game id that `Dispatch`, `ProcNode`, `ReplayLeaf` and `ReplayStep` record after a handled leaf, and `Engine.GameEngine.UnregisterIfHeld` (gameEngine.py:243-245) is the id index that `RemovePlayer` and `HandleRemovePlayer` leave.

| member | source | states |
|---|---|---|
| Base.LeU16 | gameEngine.py:63 | a `<H` field is the 16-bit value `lo + 256 * hi`; its low and high bytes are recovered by `% 256` and `/ 256` |
| Base.U16Bytes | gameEngine.py:63 | the two little-endian bytes of a 16-bit value decode back to that value |
| Movement.DecodeMove | gameEngine.py:60-69 | a payload decodes exactly when it is 6 or 10 bytes long; every field is 16-bit; a 6-byte ghost payload has zero speeds |
| Movement.AliveRoundTrip | gameEngine.py:62-63 | every valid payload encoded in the 10-byte alive layout decodes to itself |
| Movement.GhostRoundTrip | gameEngine.py:64-66 | every valid payload encoded in the 6-byte ghost layout decodes to itself with zero speeds |
| Movement.AliveDecodeIsLossless | gameEngine.py:62-63 | re-encoding a decoded 10-byte payload gives back the same bytes |
| Movement.Lerp | gameEngine.py:72-76 | a 16-bit coordinate is recentred on 32767 and scaled to 40 units per 32767 steps |
| Movement.LerpLandmarks | gameEngine.py:72-76 | the scaling maps 32767 to 0, 0 to -40, and 65535 to just above 40 |
| Movement.LerpRange | gameEngine.py:72-76 | every 16-bit coordinate scales into [-40, Lerp(65535)] |
| Movement.MoveStep | gameEngine.py:60-83 | a rejected payload changes nothing; the player moves exactly when the stored sequence number grows; a move returns the new position; the stored sequence number never decreases |
| Movement.MoveBadLength | gameEngine.py:60-69 | a payload that is neither 6 nor 10 bytes returns no position and changes nothing |
| Movement.MoveGate | gameEngine.py:71-83 | a well-formed payload moves the player to the scaled coordinates and stores its sequence number iff that number is newer; otherwise nothing changes |
| Movement.MoveIdempotent | gameEngine.py:71-83 | applying the same payload a second time changes nothing and returns no position |
| Movement.SnapStep | gameEngine.py:53-58 | a snap never changes the stored sequence number, and a stale one changes nothing |
| Movement.SnapLeavesGateOpen | gameEngine.py:53-58 | a movement payload with the snap's own sequence number moves the player as if the snap had not happened |
| UserList.DecodeRecord | gameEngine.py:476-483 | a record can be read exactly when the buffer holds the id, the length byte, the name and six more bytes; the record read is well formed and its encoding followed by the rest is the buffer |
| UserList.DecodeRecords | gameEngine.py:475-483 | at most `count` records are read, all well formed, and the list is complete exactly when `count` were read |
| UserList.DecodeUserList | gameEngine.py:473-483 | a complete list has exactly as many records as the count byte says |
| UserList.NextRecord | gameEngine.py:476-483 | the reads of one loop pass (id byte, length byte, a possibly short name slice, the six-byte unpack) return the record `DecodeRecord` reads, or fail where it does |
| UserList.ReadUserList | gameEngine.py:473-483 | the counted loop over the buffer returns the records and the completeness flag of `DecodeUserList` |
| UserList.RecordsRoundTrip | gameEngine.py:475-483 | the encoding of well-formed records, followed by any bytes, decodes back to those records, complete |
| UserList.UserListRoundTrip | gameEngine.py:473-483 | a list of fewer than 256 well-formed records survives encoding and decoding |
| UserList.LookupAfter | gameEngine.py:484 | the username lookup after storing the records in order, each one overwriting its id's entry |
| UserList.NameAfter | gameEngine.py:485-488 | a player's name after the records are stored in order: the name of the last record with its stable id, or its own name when none has it |
| UserList.LookupAfterKeys | gameEngine.py:484 | the lookup gains exactly the ids of the records |
| UserList.LaterDuplicatesWin | gameEngine.py:484 | a record's name stays in the lookup when no later record has its id |
| UserList.NameAgreesWithLookup | gameEngine.py:484-488 | a player whose id appears in the records ends with the name the lookup holds for that id |
| UserList.NameUntouched | gameEngine.py:485-488 | a player whose id appears in no record keeps its name |
| Engine.NameUnset | gameEngine.py:125 | `not self.name` holds for an unset name and for the empty name |
| Engine.AssignedName | gameEngine.py:122-126 | the listed name is taken only when the id is in the lookup and the player has no name |
| Engine.LobbyUnset | gameEngine.py:434 | `not self.lobbyEntity` holds for an unset lobby and for net id 0 |
| Engine.SameNetId | gameEngine.py:320 | a net id equals an unset field (`False`) exactly when it is 0, and a set field when the two are equal |
| Engine.Without | gameEngine.py:239 | deleting a client id leaves the other keys in order, each once, and no more of them |
| Engine.WithoutAbsent | gameEngine.py:239-241 | deleting an absent client id leaves the key order unchanged |
| Engine.Deferred | gameEngine.py:369-375 | the preload buffer gains the owner id; the leaf is appended to the end of that id's list; every other list is unchanged |
| Engine.NewIds | gameEngine.py:440-441 | a net id is new to the spawned player exactly when some child carries it and the player does not hold it |
| Engine.Drained | gameEngine.py:459-464 | the preload buffer after the lists of the given net ids are taken out, one after the other |
| Engine.DrainedKeys | gameEngine.py:459-464 | after the lists are taken out, the buffer holds exactly its other keys, each with its earlier list |
| Engine.Replayed | gameEngine.py:459-466 | the leaves a Player spawn replays: the list of each of its net ids, taken out of the buffer, in order; a net id listed twice contributes its list once |
| Engine.ReplayedPrefix | gameEngine.py:459-466 | replaying the first net ids replays a prefix of the leaves the whole spawn replays, so the order is kept |
| Engine.ReplayedDeferred | gameEngine.py:459-466 | every replayed leaf was deferred under one of the spawn's net ids |
| Engine.ReplayedCovers | gameEngine.py:459-466 | every leaf deferred under one of the spawn's net ids is replayed |
| Engine.Raises | gameEngine.py:381-488 | the uncaught exceptions of a leaf: a MurderPlayer whose victim net id is unknown (line 392), a first Lobby spawn without children (line 435), a GameData spawn without exactly two children (line 471) or with a username list that breaks off (lines 476-482) |
| Engine.SkipsGameId | gameEngine.py:419-423 | a game-data update naming an unknown player id returns before the game id is recorded |
| Engine.AddToPlayer | gameEngine.py:152-156 | the entity exists, owned by the player, exactly when the player did not hold the net id; the player's map changes only then |
| Engine.Updated | gameEngine.py:425-429 | a game-data update sets the name, skin, hat, colour and pet to the leaf's, and every other field of the player is as it was |
| Engine.Player.constructor | gameEngine.py:13-39 | a new player has every field at its initial value, including id -1 and last sequence number -1, and belongs to the given engine |
| Engine.Player.SnapTo | gameEngine.py:53-58 | the player's motion afterwards is `SnapStep` of its motion before; no other field changes |
| Engine.Player.ParseLocation | gameEngine.py:60-83 | the player's motion afterwards and the returned position are `MoveStep` of its motion before and the payload; no other field changes |
| Engine.Player.Vent | gameEngine.py:85-86 | the vent flag is the given one; no other field changes |
| Engine.Player.Exiled | gameEngine.py:88-90 | the player is dead, no other field changes, and `Exiled` fires, with no generic event |
| Engine.Player.Murdered | gameEngine.py:92-94 | the player is dead, no other field changes, and `Murdered` fires |
| Engine.Player.Murder | gameEngine.py:96-98 | the victim is dead; the murderer's `Murder` fires before the victim's `Murdered` |
| Engine.Player.SetSkin | gameEngine.py:100-102 | the skin is the given id, no other field changes, and `SetSkin` fires |
| Engine.Player.SetHat | gameEngine.py:104-106 | the hat is the given id, no other field changes, and `SetHat` fires |
| Engine.Player.SetPet | gameEngine.py:108-110 | the pet is the given id, no other field changes, and `SetPet` fires |
| Engine.Player.SetColor | gameEngine.py:112-114 | the colour is the given id, no other field changes, and `SetColor` fires |
| Engine.Player.SetInfected | gameEngine.py:116-118 | the infected flag is the given one, no other field changes, and `Infected` fires |
| Engine.Player.AssignId | gameEngine.py:120-128 | the stable id is recorded and registered; the name from the username lookup is taken, firing `SetName`, only when the id is in the lookup and the player has no name |
| Engine.Player.Chat | gameEngine.py:130-131 | `Chat` fires with the player and the message |
| Engine.Player.SetName | gameEngine.py:133-138 | the name is the given one, no other field changes, and `SetName` fires |
| Engine.Player.AddEntity | gameEngine.py:140-144 | the entity is added exactly when its net id is new to this player; otherwise the map is unchanged |
| Engine.GameEngine.Emitted | gameEngine.py:174-182 | a callback adds nothing to the trace exactly when no handler is registered under its name |
| Engine.GameEngine.Callback | gameEngine.py:174-182 | the trace grows by the fired callback when a handler is registered, and by nothing otherwise |
| Engine.GameEngine.GeCallback | gameEngine.py:184-187 | the generic `Event` fires before the named callback, except for `Reset` |
| Engine.GameEngine.constructor | gameEngine.py:161-163 | a new engine keeps the handlers, has a fresh, consistent session, and has fired only `Reset` |
| Engine.GameEngine.ClearIndexes | gameEngine.py:193-209 | players, client order, entities, id index, username lookup and preload buffer are empty, and the session is consistent |
| Engine.GameEngine.ClearMeeting | gameEngine.py:203-207 | the game has not started and no meeting is recorded |
| Engine.GameEngine.ClearCounters | gameEngine.py:190-213 | game id, client ids, tick, time, last spawned id, settings and lobby entity are at their defaults |
| Engine.GameEngine.ClearSession | gameEngine.py:189-213 | every session field is at its default and the session is consistent |
| Engine.GameEngine.Reset | gameEngine.py:189-215 | every session field is back at its default, the handlers are kept, and only `Reset` fires, with no generic event |
| Engine.GameEngine.RegisterPlayerId | gameEngine.py:217-218 | the id index maps the id to the player, replacing any earlier entry |
| Engine.GameEngine.CreatePlayer | gameEngine.py:229-233 | a fresh player in its initial state replaces any player under the client id; the key order grows only for a new client |
| Engine.GameEngine.StillResolves | gameEngine.py:249-256 | every net id the removed player held still resolves, and to that player wherever it did before |
| Engine.GameEngine.RemovePlayer | gameEngine.py:235-256 | the client id leaves `players` and the key order; its stable id leaves the index only while it maps to that player; an absent client id changes nothing; the entity index is unchanged, so the removed player's net ids still resolve to it (`StillResolves`) |
| Engine.GameEngine.AddEntity | gameEngine.py:258-263 | a net id the player already holds changes neither map; otherwise both maps gain it, owned by the player, and no other key changes |
| Engine.GameEngine.SpawnEntity | gameEngine.py:265-279 | under a Player spawn the client's existing player is reused, or else a fresh one in its initial state is created and appended to the key order; it gains the child's net id exactly when it did not hold it, and the global index gains it then, owned by that player; no other player's entities change; any other spawn changes only the last spawned id, which is always the child's |
| Engine.GameEngine.HandleRemovePlayer | gameEngine.py:290-294 | the player is removed as `RemovePlayer` states, its net ids still resolving to it, then `RemovePlayer` fires with the removed player or none |
| Engine.GameEngine.HandleStartGame | gameEngine.py:296-298 | the game has started and `StartGame` fires |
| Engine.GameEngine.HandleEndGame | gameEngine.py:300-302 | `EndGame` fires, then the session is reset |
| Engine.GameEngine.HandleJoinedGame | gameEngine.py:304-308 | the session is reset, then the local and host client ids are recorded and `JoinedGame` fires |
| Engine.GameEngine.Join | gameEngine.py:306-308 | the local and host client ids are the leaf's, and `JoinedGame` fires |
| Engine.GameEngine.Resolve | gameEngine.py:313-318 | an owner is found exactly when its net id is an entity |
| Engine.GameEngine.HandleData | gameEngine.py:311-321 | only the owner of the addressed entity, when that entity is its network transform, moves: its motion becomes what `MoveStep` says, and no other field of it or of any other player changes |
| Engine.GameEngine.HandleSyncSettings | gameEngine.py:338-340 | the settings are replaced wholesale and `GameSettings` fires |
| Engine.GameEngine.HandleStartMeeting | gameEngine.py:342-349 | the game has started; the starter is the owner entity's player, or the previous starter when that entity is unknown; the start time is the engine's time; report id 255 is the button |
| Engine.GameEngine.HandleClose | gameEngine.py:351-356 | the game has started, the meeting is cleared, and `EndMeeting` fires |
| Engine.GameEngine.HandleVotingComplete | gameEngine.py:358-367 | the game has started; the registered player under an exiled id below 255 dies and `Exiled` fires; otherwise nothing fires |
| Engine.GameEngine.Defer | gameEngine.py:369-375 | the leaf is appended to the end of its owner id's preload list, as `Deferred` says |
| Engine.GameEngine.HandleSetInfected | gameEngine.py:407-410 | every registered player in the id list is infected and changes in nothing else, no other player changes, and one `Infected` fires per registered id, in list order |
| Engine.GameEngine.ActorEffect | gameEngine.py:381-414 | each actor command sets exactly its own attribute of the owner's player (vent flag, snap motion, name, skin, hat, colour or pet) and fires its own callback; MurderPlayer kills the victim net id's owner, changing nothing else of it, with the murderer's callback first, and with an unknown victim changes and fires nothing; SetInfected infects exactly the registered listed players; SendChat only fires `Chat`; no other player and no other field changes |
| Engine.GameEngine.MeetingEffect | gameEngine.py:338-367 | SyncSettings replaces the settings and keeps the meeting record; StartMeeting records starter, time and reason and keeps the settings; Close clears the record and keeps the settings; VotingComplete starts the game, keeps record and settings, and kills only the exiled registered player; no meeting command changes any other player; any other command keeps the meeting record and the settings |
| Engine.GameEngine.RpcEffect | gameEngine.py:323-414 | the indexes, the clock, the lobby and spawn bookkeeping and the client ids never change; the meeting fields and settings change only as `MeetingEffect` says; with a known owner entity an actor command changes the players and the trace only as `ActorEffect` says; a leaf that is neither changes no player and fires nothing; the preload buffer gains the leaf exactly when the owner entity is unknown |
| Engine.GameEngine.DeadVictims | gameEngine.py:390-394 | every MurderPlayer leaf among the given ones names an existing entity whose owner is dead |
| Engine.GameEngine.HandleActorCommand | gameEngine.py:381-414 | the command acts as `ActorEffect` states, changing only its own field of the owner's player (or the victim's life, or the listed players' infection), and fails exactly when it is a MurderPlayer with an unknown victim |
| Engine.GameEngine.MoveOwner | gameEngine.py:382-388 | EnterVent and ExitVent set only the owner's vent flag and SnapTo only its motion, as `ActorEffect` states, firing nothing |
| Engine.GameEngine.MurderVictim | gameEngine.py:390-394 | MurderPlayer fails exactly when the victim net id is unknown; otherwise only the victim's life changes, as `ActorEffect` states |
| Engine.GameEngine.DressOwner | gameEngine.py:396-405 | each of SetName, SetSkin, SetHat, SetColor and SetPet changes only its own attribute of the owner and fires its callback, as `ActorEffect` states |
| Engine.GameEngine.HandleMeetingCommand | gameEngine.py:338-367 | the command acts as `MeetingEffect` states; any other command changes neither the meeting fields, the settings, any player nor the trace |
| Engine.GameEngine.MeetingRecord | gameEngine.py:338-356 | SyncSettings, StartMeeting and Close act as `MeetingEffect` states and change no player |
| Engine.GameEngine.MeetingVote | gameEngine.py:358-367 | VotingComplete acts as `MeetingEffect` states: only the exiled registered player dies |
| Engine.GameEngine.ActOn | gameEngine.py:381-414 | the owner's command acts as `ActorEffect` states and fails exactly with an unknown victim; no player comes back to life, and only a SetName renames |
| Engine.GameEngine.ProcRpc | gameEngine.py:323-414 | an rpc leaf raises exactly where `Raises` says and acts as `RpcEffect` states |
| Engine.GameEngine.RpcMeeting | gameEngine.py:338-375 | a meeting command acts as `RpcEffect` states, with or without a known owner entity |
| Engine.GameEngine.MeetingKnownOwner | gameEngine.py:338-367 | a meeting command whose owner entity is known acts as `RpcEffect` states and leaves the preload buffer alone |
| Engine.GameEngine.MeetingUnknownOwner | gameEngine.py:338-375 | a meeting command whose owner entity is unknown acts, then is deferred under the owner net id, as `RpcEffect` states |
| Engine.GameEngine.RpcActor | gameEngine.py:369-414 | any other rpc command raises exactly where `Raises` says and acts as `RpcEffect` states |
| Engine.GameEngine.ActorUnknownOwner | gameEngine.py:369-375 | a command whose owner entity is unknown is deferred under the owner net id and changes nothing else |
| Engine.GameEngine.ActorKnownOwner | gameEngine.py:381-414 | a command whose owner entity is known acts on that entity's player as `ActorEffect` states, and raises exactly where `Raises` says |
| Engine.GameEngine.HandleUpdatePlayer | gameEngine.py:417-429 | the registered player takes all five attributes as `Updated` says, changing in nothing else, with the five callbacks in source order; an unknown id changes nothing |
| Engine.GameEngine.HandleLobbySpawn | gameEngine.py:433-437 | an unset lobby takes the first child's net id, and raises when there is none; a set lobby is kept |
| Engine.GameEngine.ReplayLeaf | gameEngine.py:459-466 | a replayed leaf acts as a live rpc leaf, as `RpcEffect` states, and is not deferred again; it fails exactly when it is a MurderPlayer with an unknown victim, and otherwise its victim is dead; the game id to record is the leaf's own unless it failed |
| Engine.GameEngine.ReplayStep | gameEngine.py:465-466 | a replayed leaf is logged once; the game id is the leaf's own unless it failed; the buffer is unchanged; nobody comes back to life, and only a SetName renames |
| Engine.GameEngine.Rerun | gameEngine.py:465-466 | replaying one net id's list fails exactly when one of its leaves is a MurderPlayer with an unknown victim; on success each leaf is logged once, in order, and every victim is dead; the buffer is unchanged, nobody comes back to life, and only a SetName leaf renames |
| Engine.GameEngine.ReplayKey | gameEngine.py:459-466 | one net id's list is taken out of the buffer (`Drained` one key further) and replayed; the log grows by that key's part of `Replayed`, or the replay of the whole spawn fails |
| Engine.GameEngine.ReplayPreloaded | gameEngine.py:459-466 | the replay fails exactly when a leaf of `Replayed` raises; on success the buffer is `Drained` of the net ids, the log grows by exactly `Replayed` (each stored leaf once, in order), and every replayed victim is dead |
| Engine.GameEngine.ChildrenSpawned | gameEngine.py:440-441 | the spawn's client player, reused or created, gains exactly the children's net ids it did not hold, in both maps; no other player changes; the last spawned id is the last child's |
| Engine.GameEngine.SpawnChildren | gameEngine.py:440-441 | the child loop acts as `ChildrenSpawned` states; no name changes, and a freshly created player has none; no existing player's client id, sequence number, stable id or entity net ids change, and a created player has the spawn's client id and sequence number -1 |
| Engine.GameEngine.SpawnRest | gameEngine.py:440-441 | after the children past the first, the player and the global index hold exactly the new net ids of all the children; the last spawned id is the last child's; no other player changes |
| Engine.GameEngine.SpawnNext | gameEngine.py:440-441 | one more child adds its net id to both maps when it is new, and becomes the last spawned id |
| Engine.GameEngine.BindSpawnedPlayer | gameEngine.py:443-454 | the stable id is the control payload's second byte, registered to the player; the name follows `AssignedName`, with `SetName` only then; the three role net ids are the three children in order |
| Engine.GameEngine.BindPlayerSpawn | gameEngine.py:443-454 | the binding succeeds exactly when the spawn has three children, a two-byte control payload and a player; the player is then `SpawnedAs` the spawn and named as `AssignedName` says; a failed binding fires and registers nothing and changes no player; a successful one changes the id index only at the stable id; no other player is renamed or takes a new stable id or entity net id |
| Engine.GameEngine.ReplaySpawned | gameEngine.py:459-466 | the spawn's deferred leaves are replayed as `ReplayPreloaded` states; the binding is kept and, without a replayed SetName, the name too |
| Engine.GameEngine.BindAndReplay | gameEngine.py:443-466 | a malformed spawn raises and changes neither the trace, the id index, the buffer, the log, the meeting record, the settings, the game id nor any player attribute but the entities; otherwise the id index gains the player under its stable id and nothing else, no player's client id or sequence number changes, no other player's stable id or entity net ids change, the player is bound, its `assign_id` callbacks come first, and the deferred leaves are replayed as `ReplaySpawned` states |
| Engine.GameEngine.NetIds | gameEngine.py:459 | the net ids replayed for a spawn are its children's, one per child, in order |
| Engine.GameEngine.SpawnedAs | gameEngine.py:443-454 | the spawn's player holds the stable id, is registered under it, and holds the three children as its role entities, in order |
| Engine.GameEngine.PlayerSpawned | gameEngine.py:438-466 | the children are spawned as `ChildrenSpawned` says; `ok` exactly when the spawn is well formed and no replayed leaf raises; a malformed spawn changes no index, trace, buffer or log; a well-formed one binds the player, names it as `AssignedName` says unless a replayed SetName renames it, replays each deferred leaf of its net ids once and in order, and kills every replayed victim |
| Engine.GameEngine.SpawnBound | gameEngine.py:443-454 | after a well-formed Player spawn the id index is the old one with the spawn's player added under its stable id; no existing player's client id or movement sequence number changes; a created player has the spawn's client id and sequence number -1; only the spawn's player takes a new stable id and entity net ids |
| Engine.GameEngine.SpawnKept | gameEngine.py:438-466 | a Player spawn never writes the lobby, the game-data entities, the client ids or the username lookup; a malformed one raises before the meeting record, the settings, the game id or any attribute of an existing player but its entities changes; a well-formed one changes the ids only as `SpawnBound` says |
| Engine.GameEngine.HandlePlayerSpawn | gameEngine.py:438-466 | a Player spawn acts as `PlayerSpawned` and `SpawnKept` state |
| Engine.GameEngine.SpawnPlayer | gameEngine.py:438-466 | spawning the children, then binding and replaying, acts as `PlayerSpawned` states; a malformed spawn keeps the meeting record, the settings, the game id and every attribute of an existing player but its entities; a well-formed one changes the ids only as `SpawnBound` says |
| Engine.GameEngine.RenameIfMatching | gameEngine.py:486-488 | a player with the record's id takes the name and `SetName` fires; any other player is left alone |
| Engine.GameEngine.RenameMatching | gameEngine.py:485-488 | every live player with the id takes the name, and the `SetName` callbacks come in client key order |
| Engine.GameEngine.StoreRecord | gameEngine.py:484-488 | the lookup maps the record's id to its name; exactly the live players with that id are renamed, and only their names change; the others keep their names |
| Engine.GameEngine.LoadUserList | gameEngine.py:473-488 | the list is stored record by record: the lookup is `LookupAfter` the decoded records, each player's name is `NameAfter` them, no object outside `players` is renamed, and the leaf raises exactly when the list is incomplete |
| Engine.GameEngine.HandleGameDataSpawn | gameEngine.py:468-488 | the last spawned id is the last child's; a spawn without exactly two children raises and changes nothing else; otherwise both net ids are recorded and the username list is loaded; players outside `players` are untouched and live players change only in name |
| Engine.GameEngine.EntityLeafEffect | gameEngine.py:311-429 | a movement leaf changes only the motion of the player the addressed transform belongs to, as `MoveStep` says, and nothing else of any player or of the session; an rpc leaf acts as `RpcEffect` says; a Player update rewrites only the registered player's five attributes, as `Updated` says, with five callbacks; anything else changes nothing |
| Engine.GameEngine.InnerEffect | gameEngine.py:289-308 | RemovePlayer removes the client, announces it and changes nothing else; StartGame starts the game, keeps the rest of the meeting record and every player, and announces it; EndGame announces the end, then resets; JoinedGame resets, then records both client ids and announces; a reset keeps `gameDataEntities`; anything else changes nothing |
| Engine.GameEngine.SpawnEffect | gameEngine.py:432-488 | a Lobby spawn sets an unset lobby and changes nothing else; a Player spawn is `PlayerSpawned` and `SpawnKept`; a GameData spawn records its two children and loads the username list, changing live players only in name and no other player, or with a wrong child count changes no name, lookup or trace; anything else changes nothing |
| Engine.GameEngine.LeafHandled | gameEngine.py:281-491 | the leaf acts as its parent layer's effect predicate says; outside a Player spawn it raises exactly where `Raises` says; only EndGame and JoinedGame clear tick, time and game id |
| Engine.GameEngine.ProcEntityLeaf | gameEngine.py:311-429 | a data, rpc or update leaf acts as `LeafHandled` states |
| Engine.GameEngine.ProcRpcLeaf | gameEngine.py:323-414 | an rpc leaf acts as `LeafHandled` states |
| Engine.GameEngine.ProcDataLeaf | gameEngine.py:311-321 | a movement or update leaf never raises and acts as `LeafHandled` states |
| Engine.GameEngine.ProcData | gameEngine.py:311-321 | a movement leaf acts as `EntityLeafEffect` states |
| Engine.GameEngine.ProcUpdate | gameEngine.py:417-429 | a game-data update acts as `EntityLeafEffect` states |
| Engine.GameEngine.ProcInner | gameEngine.py:289-308 | an inner leaf acts as `InnerEffect` states; tick, time and game id are cleared exactly by EndGame and JoinedGame |
| Engine.GameEngine.InnerReset | gameEngine.py:300-308 | EndGame and JoinedGame act as `InnerEffect` states and clear the game id |
| Engine.GameEngine.InnerKeep | gameEngine.py:289-298 | RemovePlayer, StartGame and ignored commands act as `InnerEffect` states |
| Engine.GameEngine.ProcSpawn | gameEngine.py:432-488 | a spawn leaf acts as `LeafHandled` states |
| Engine.GameEngine.ProcPlayerSpawn | gameEngine.py:438-466 | a Player spawn acts as `LeafHandled` states, through `PlayerSpawned` and `SpawnKept` |
| Engine.GameEngine.ProcOtherSpawn | gameEngine.py:432-437 | a Lobby, GameData or ignored spawn acts as `LeafHandled` states |
| Engine.GameEngine.ProcLobbySpawn | gameEngine.py:433-437 | a Lobby spawn acts as `LeafHandled` states |
| Engine.GameEngine.ProcGameDataSpawn | gameEngine.py:468-488 | a GameData spawn acts as `LeafHandled` states |
| Engine.GameEngine.ProcSessionNode | gameEngine.py:284-308 | a Hazel, spawn-subcommand or inner leaf acts as `LeafHandled` states; the first two change nothing |
| Engine.GameEngine.Dispatch | gameEngine.py:281-493 | the leaf acts as `LeafHandled` states; the game id to record is the leaf's own when it carries one, unless the step raised or returned early |
| Engine.GameEngine.ProcNode | gameEngine.py:281-493 | outside a Player spawn the leaf raises exactly where `Raises` says; EndGame and JoinedGame clear tick and time, other leaves keep them; the leaf's game id is recorded unless the step raised or returned early; the leaf and its outcome are appended to the handled-leaf log |
| Engine.GameEngine.Proc | gameEngine.py:220-227 | the leaves are handed to `proc_node` in order, each once, until the first that raises, and exactly those leaves and outcomes are appended to the handled-leaf log that only `ProcNode` writes; `ok` exactly when none raised; when no handled leaf reset the session the time is the timestamp and the tick grew by one, and after a handled EndGame or JoinedGame both are 0 |

## Left out

- Decoding and flattening (`parse`, `flatten`, the layer classes) are not part of this model. `Proc` takes the flattened leaves, and the parent layer's class becomes a `Layer` tag.
- Pickling (`__getstate__`, `__setstate__`) is serialization plumbing and is not modelled.
- The unused `sendServer`, `sendClient`, `storedValue` and `PlayerClass.gameDataEntities` fields are not modelled.
- Coordinates use exact real arithmetic (`Movement.Lerp`); floating-point rounding of `/ 32767 * 40` is not modelled.
- Callback handlers are foreign code and their bodies are not modelled. A handler counts as registered when the engine's handler set holds its name, which stands for a truthy entry in `callbackDict`. The trace records the name, the player and the chat message; the `gameState` reference passed to every handler is omitted.
- A leaf's props and parent-chain context are total records, so the `KeyError`/`IndexError` raised on missing keys or children that the decoder always supplies are not modelled. The exceptions that depend on engine state or on payload lengths are modelled (`Engine.Raises`).
- Command names the engine does not act on are one `Command.Other` case; they change nothing.
- The non-Player branch of `spawn_entity` computes a server client id into a local it never uses; only its `lastSpawnedId` update is modelled.
- The GameData spawn's username loop interleaves reading with storing. The model reads the records first (`UserList.ReadUserList`) and then stores them (`LoadUserList`). Reading touches no engine state, so the result is the same, including a list that breaks off after some records.
- The contents of `gameSettings` are an opaque mapping that is replaced wholesale.
- Names and messages are kept as bytes and strings without any encoding.
- `replayLog` is a ghost field that records the deferred leaves a Player spawn replays; the source has no such field.
- Engine.GameEngine.PlayerSpawned: the effect of each replayed leaf is stated only for murders (every victim is dead) and names (unchanged without a replayed SetName); the other replayed commands' effects are not composed. The fields no replayed leaf can write are stated by `SpawnKept` and `SpawnBound`.
- Engine.GameEngine.ProcNode: states raising, tick, time and the game id; the transition itself is stated by `Dispatch`, which it calls.
- Engine.GameEngine.Proc: states, through the ghost log `procLog` that only `ProcNode` appends to, which leaves were handed to `proc_node`, in order and with their outcomes, and tick and time; it does not compose the leaves' effects on the state, each of which `Dispatch` states for one leaf.
- `procLog` is a ghost field recording every leaf `ProcNode` handled; the source has no such field.
- Engine.GameEngine.ReplayStep: states the log, the game id, raising, the victims and `Kept`; the rpc transition of the leaf itself is stated by `ReplayLeaf`, which it calls, and is not carried through.
- Engine.GameEngine.Rerun: over a list of several replayed leaves, states raising, the log, the victims and `Kept`; the composed effect of the leaves on attributes other than life and name is not stated.
- Engine.GameEngine.ReplayKey: the composed effect of one net id's replayed leaves is stated only as `Rerun` states it.
- Engine.GameEngine.ReplayPreloaded: the composed effect of all replayed leaves is stated only for the log, the buffer, raising, deaths and renames.
- Engine.GameEngine.ReplaySpawned: the replayed leaves' effects beyond deaths and renames are not composed.
- Engine.GameEngine.BindAndReplay: the replayed leaves' effects beyond deaths and renames are not composed.
- Engine.GameEngine.InnerEffect: a reset drops every player from the session (`Repr` becomes empty) and does not state the fields of the detached player objects.
- Engine.GameEngine.HandleData: does not state the position that `parse_location` returns, which the source discards.
