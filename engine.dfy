/**
 * The game engine: a single mutable session that rebuilds players, entities,
 * meetings and settings from a stream of already-decoded command leaves, and
 * reports what happens as a trace of fired callbacks.
 * Modelled on PlayerClass, EntityClass and GameEngine in gameEngine.py.
 */
module Engine {
  import opened Base
  import opened Nodes
  import Movement
  import UserList

  /** An entity: its net id and the player that owns it (EntityClass after add_to_player). */
  datatype Entity = Entity(netId: int, owner: Player)

  /** Why the last meeting started: the emergency button, or the id of the reported body. */
  datatype Reason = NoReason | Button | Reported(playerId: int)

  /** The callback names the engine fires. */
  datatype Hook =
    | Event | Reset | RemovePlayer | StartGame | EndGame | JoinedGame | GameSettings
    | StartMeeting | EndMeeting | Exiled | Murdered | Murder
    | SetSkin | SetHat | SetPet | SetColor | Infected | SetName | Chat

  /** One fired callback: its name and the context passed to the handler. */
  datatype Fired = Fired(hook: Hook, player: Option<Player>, message: Option<string>)

  /** Every field of a player, for stating what a step leaves unchanged. */
  datatype PlayerState = PlayerState(
    clientId: int, playerId: int, color: Option<int>, name: Option<Name>,
    skin: int, hat: int, pet: int, alive: bool, infected: bool,
    entities: map<int, Entity>,
    playerControlNetId: Option<int>, playerPhysicsNetId: Option<int>, networkTransformNetId: Option<int>,
    lastMoveSeq: int, x: real, y: real, inVent: bool)

  /** A freshly constructed player: no stable id yet, and the last movement sequence below every valid one. */
  function InitialState(clientId: int): PlayerState {
    PlayerState(clientId, -1, None, None, 0, 0, 0, true, false, map[], None, None, None, -1, 0.0, 0.0, false)
  }

  /** A player's state with its position and movement sequence number replaced by `m`. */
  function WithMotion(s: PlayerState, m: Movement.Motion): (r: PlayerState)
    ensures r.x == m.x && r.y == m.y && r.lastMoveSeq == m.lastMoveSeq
  {
    s.(x := m.x, y := m.y, lastMoveSeq := m.lastMoveSeq)
  }

  /** A player's state after a game-data Player update of `pr` rewrote its five attributes. */
  function Updated(s: PlayerState, pr: Props): (r: PlayerState)
    ensures r.name == Some(pr.playerName) && r.skin == pr.skinId && r.hat == pr.hatId
    ensures r.color == Some(pr.colorId) && r.pet == pr.petId
    ensures r.(name := s.name, skin := s.skin, hat := s.hat, color := s.color, pet := s.pet) == s
  {
    s.(name := Some(pr.playerName), skin := pr.skinId, hat := pr.hatId, color := Some(pr.colorId), pet := pr.petId)
  }

  /** Python's truth test on a name: `False` and the empty name both count as "no name". */
  predicate NameUnset(n: Option<Name>) {
    n.None? || n.value == []
  }

  /** The name assign_id leaves: the username list's entry for `pid`, but only where no name is set yet. */
  function AssignedName(lookup: map<int, Name>, pid: int, current: Option<Name>): Option<Name> {
    if pid in lookup && NameUnset(current) then Some(lookup[pid]) else current
  }

  /** Python's truth test on the lobby entity: `False` and net id 0 both count as unset. */
  predicate LobbyUnset(l: Option<int>) {
    l.None? || l.value == 0
  }

  /** Python's `netId == field`, where an unset field holds `False` and `0 == False`. */
  predicate SameNetId(netId: int, field: Option<int>) {
    if field.None? then netId == 0 else netId == field.value
  }

  predicate Distinct(s: seq<int>) {
    forall i, j :: 0 <= i < j < |s| ==> s[i] != s[j]
  }

  /** `s` without `c`, the rest in order: a dict's key order after `del d[c]`. */
  function Without(s: seq<int>, c: int): (r: seq<int>)
    ensures forall x :: x in r <==> x in s && x != c
    ensures Distinct(s) ==> Distinct(r)
    ensures |r| <= |s|
  {
    if s == [] then []
    else
      assert Distinct(s) ==> Distinct(s[1..]) && s[0] !in s[1..] by {
        if Distinct(s) {
          forall i, j | 0 <= i < j < |s| - 1 ensures s[1..][i] != s[1..][j] {
            assert s[1..][i] == s[i + 1] && s[1..][j] == s[j + 1];
          }
        }
      }
      if s[0] == c then Without(s[1..], c) else [s[0]] + Without(s[1..], c)
  }

  lemma {:induction false} WithoutAbsent(s: seq<int>, c: int)
    requires c !in s
    ensures Without(s, c) == s
  {
    if s != [] {
      WithoutAbsent(s[1..], c);
    }
  }

  /** A client order listing exactly the keys of `ps`: each of its entries is a key. */
  lemma OrderIndexes<V>(order: seq<int>, ps: map<int, V>)
    requires forall c :: c in order <==> c in ps
    ensures forall k :: 0 <= k < |order| ==> order[k] in ps
  {
    forall k | 0 <= k < |order| ensures order[k] in ps {
      var c := order[k];
      assert c in order;
    }
  }

  /** The preload buffer after `n` is appended to the list of net id `k`. */
  function Deferred(pre: map<int, seq<Node>>, k: int, n: Node): (r: map<int, seq<Node>>)
    ensures r.Keys == pre.Keys + {k}
    ensures r[k] == (if k in pre then pre[k] else []) + [n]
    ensures forall j :: j in pre && j != k ==> r[j] == pre[j]
  {
    pre[k := (if k in pre then pre[k] else []) + [n]]
  }

  /** The rpc-layer commands that act on the owner's player. */
  predicate IsActorCommand(c: Command) {
    || c.EnterVent? || c.ExitVent? || c.SnapTo? || c.MurderPlayer? || c.SetName? || c.SetSkin?
    || c.SetHat? || c.SetColor? || c.SetPet? || c.SetInfected? || c.SendChat?
  }

  /** The rpc-layer commands that need no player. */
  predicate IsMeetingCommand(c: Command) {
    c.SyncSettings? || c.StartMeeting? || c.Close? || c.VotingComplete?
  }

  /** The inner-layer commands proc_node acts on. */
  predicate IsInnerCommand(c: Command) {
    c.RemovePlayer? || c.StartGame? || c.EndGame? || c.JoinedGame?
  }

  /** The net ids among `cs` that a player already holding `held` does not hold yet. */
  function NewIds(held: set<int>, cs: seq<Child>): (r: set<int>)
    ensures forall k :: k in r <==> k !in held && exists i :: 0 <= i < |cs| && cs[i].netId == k
  {
    set i | 0 <= i < |cs| && cs[i].netId !in held :: cs[i].netId
  }

  /** Entities with the net ids `ids`, each owned by `p`. */
  function OwnedBy(ids: set<int>, p: Player): map<int, Entity> {
    map k | k in ids :: Entity(k, p)
  }

  /** The preload buffer after the lists of `keys` are taken out of it, one key after the other. */
  function Drained(pre: map<int, seq<Node>>, keys: seq<int>): map<int, seq<Node>>
  {
    if keys == [] then pre else Drained(pre, keys[..|keys| - 1]) - {keys[|keys| - 1]}
  }

  /** Taking the lists out leaves exactly the other keys, each with its list. */
  lemma {:induction false} DrainedKeys(pre: map<int, seq<Node>>, keys: seq<int>)
    ensures forall k :: k in Drained(pre, keys) <==> k in pre && k !in keys
    ensures forall k :: k in Drained(pre, keys) ==> Drained(pre, keys)[k] == pre[k]
  {
    if keys != [] {
      var init := keys[..|keys| - 1];
      DrainedKeys(pre, init);
      assert keys == init + [keys[|keys| - 1]];
    }
  }

  /**
   * The leaves a Player spawn replays for its net ids `keys`, in order: each
   * key's list is taken out of the buffer and replayed whole, so a key
   * listed twice contributes its list once, at its first occurrence.
   */
  ghost function Replayed(pre: map<int, seq<Node>>, keys: seq<int>): seq<Node>
  {
    if keys == [] then []
    else
      var init, k := keys[..|keys| - 1], keys[|keys| - 1];
      var rest := Drained(pre, init);
      Replayed(pre, init) + (if k in rest then rest[k] else [])
  }

  /** Replaying fewer keys replays a prefix of the same leaves. */
  lemma {:induction false} ReplayedPrefix(pre: map<int, seq<Node>>, keys: seq<int>, i: nat)
    requires i <= |keys|
    ensures Replayed(pre, keys[..i]) <= Replayed(pre, keys)
  {
    if i < |keys| {
      var init := keys[..|keys| - 1];
      assert init[..i] == keys[..i];
      ReplayedPrefix(pre, init, i);
    } else {
      assert keys[..i] == keys;
    }
  }

  /** Every replayed leaf was deferred under one of the keys. */
  lemma {:induction false} ReplayedDeferred(pre: map<int, seq<Node>>, keys: seq<int>, m: Node)
    requires m in Replayed(pre, keys)
    ensures exists k :: k in keys && k in pre && m in pre[k]
  {
    var init, k := keys[..|keys| - 1], keys[|keys| - 1];
    if m in Replayed(pre, init) {
      ReplayedDeferred(pre, init, m);
      var j :| j in init && j in pre && m in pre[j];
      assert j in keys;
    } else {
      DrainedKeys(pre, init);
      assert k in keys;
    }
  }

  /** Each listed key's deferred list is replayed whole: every leaf deferred under it is replayed. */
  lemma {:induction false} ReplayedCovers(pre: map<int, seq<Node>>, keys: seq<int>, k: int, m: Node)
    requires k in keys && k in pre && m in pre[k]
    ensures m in Replayed(pre, keys)
  {
    var init := keys[..|keys| - 1];
    if k in init {
      ReplayedCovers(pre, init, k, m);
    } else {
      DrainedKeys(pre, init);
      assert keys == init + [k];
    }
  }

  /** The leaves of `b` occur in any sequence that `a + b` is a prefix of. */
  lemma PrefixPart<T>(a: seq<T>, b: seq<T>, c: seq<T>)
    requires a + b <= c
    ensures forall m :: m in b ==> m in c
  {
    forall m | m in b ensures m in c {
      var k :| 0 <= k < |b| && b[k] == m;
      assert c[|a| + k] == (a + b)[|a| + k];
    }
  }

  /** One more child for a player that held `held` before the spawn: both entity maps gain its net id unless already held. */
  lemma OwnedByStep(held: map<int, Entity>, base: map<int, Entity>, cs: seq<Child>, c: Child, p: Player)
    ensures var m, g := held + OwnedBy(NewIds(held.Keys, cs), p), base + OwnedBy(NewIds(held.Keys, cs), p);
      var e := OwnedBy(NewIds(held.Keys, cs + [c]), p);
      && (if c.netId in m then m else m[c.netId := Entity(c.netId, p)]) == held + e
      && (if c.netId in m then g else g[c.netId := Entity(c.netId, p)]) == base + e
  {
    var ids := NewIds(held.Keys, cs);
    NewIdsStep(held.Keys, cs, c);
    if c.netId !in held {
      if c.netId in ids {
        assert ids + {c.netId} == ids;
      } else {
        AddOwned(held, ids, c.netId, p);
        AddOwned(base, ids, c.netId, p);
      }
    }
  }

  /** Giving `p` one more net id `k` in a merged map is the same as merging one more owned entity. */
  lemma AddOwned(x: map<int, Entity>, ids: set<int>, k: int, p: Player)
    ensures (x + OwnedBy(ids, p))[k := Entity(k, p)] == x + OwnedBy(ids + {k}, p)
  {
  }

  /** One more child adds its net id to the new ids unless it was already held. */
  lemma NewIdsStep(held: set<int>, cs: seq<Child>, c: Child)
    ensures NewIds(held, cs + [c]) == if c.netId in held then NewIds(held, cs) else NewIds(held, cs) + {c.netId}
  {
    assert (cs + [c])[|cs|] == c;
    assert forall i :: 0 <= i < |cs| ==> (cs + [c])[i] == cs[i];
  }

  /** The first child of a spawn for a player that held `held`: the same step from no new ids. */
  lemma OwnedByFirst(held: map<int, Entity>, base: map<int, Entity>, c: Child, p: Player)
    ensures var e := OwnedBy(NewIds(held.Keys, [c]), p);
      && (if c.netId in held then held else held[c.netId := Entity(c.netId, p)]) == held + e
      && (if c.netId in held then base else base[c.netId := Entity(c.netId, p)]) == base + e
  {
    var ids := NewIds(held.Keys, [c]);
    forall k ensures k in ids <==> k !in held && k == c.netId {
      if k !in held && k == c.netId {
        assert [c][0].netId == k;
      }
    }
    assert ids == if c.netId in held then {} else {c.netId};
  }

  /** No MurderPlayer leaf of `ns` names a net id missing from `entities` (the victim lookup would raise). */
  predicate NoneRaise(ns: seq<Node>, entities: map<int, Entity>) {
    forall m :: m in ns && m.command.MurderPlayer? ==> m.props.netId in entities
  }

  /** No leaf of `ns` is a SetName. */
  predicate NoRename(ns: seq<Node>) {
    forall m :: m in ns ==> !m.command.SetName?
  }

  /**
   * The leaves on which the source raises an uncaught exception (the stream of
   * the current frame then stops). `entities` and `lobby` are the engine's before the leaf.
   */
  predicate Raises(n: Node, entities: map<int, Entity>, lobby: Option<int>) {
    || (n.layer == Rpc && n.context.rpcOwnerId in entities && n.command.MurderPlayer?
        && n.props.netId !in entities)
    || (n.layer == Spawn && n.command.Lobby? && LobbyUnset(lobby) && |n.context.children| == 0)
    || (n.layer == Spawn && n.command.GameData?
        && (|n.context.children| != 2 || !UserList.DecodeUserList(n.context.children[0].data).1))
  }

  /** The leaf's "gameId" is not recorded when a game-data update names an unknown player id. */
  predicate SkipsGameId(n: Node, playerIdMap: map<int, Player>) {
    n.layer == UpdateGameData && n.command.Player? && n.props.playerId !in playerIdMap
  }

  /** EntityClass.add_to_player: the entity exists, owned by `player`, only if the player did not hold that net id. */
  method AddToPlayer(netId: int, player: Player) returns (entity: Option<Entity>)
    modifies player`entities
    ensures entity.Some? <==> netId !in old(player.entities)
    ensures entity.Some? ==> entity.value == Entity(netId, player)
    ensures player.entities == if entity.Some? then old(player.entities)[netId := entity.value] else old(player.entities)
  {
    var e := Entity(netId, player);
    var added := player.AddEntity(e);
    entity := if added then Some(e) else None;
  }

  class Player {
    const game: GameEngine
    var clientId: int
    var playerId: int
    var color: Option<int>
    var name: Option<Name>
    var skin: int
    var hat: int
    var pet: int
    var alive: bool
    var infected: bool
    var entities: map<int, Entity>
    var playerControlNetId: Option<int>
    var playerPhysicsNetId: Option<int>
    var networkTransformNetId: Option<int>
    var lastMoveSeq: int
    var x: real
    var y: real
    var inVent: bool

    ghost function Snapshot(): PlayerState
      reads this`clientId, this`playerId, this`color, this`name, this`skin, this`hat, this`pet, this`alive
      reads this`infected, this`entities, this`playerControlNetId, this`playerPhysicsNetId
      reads this`networkTransformNetId, this`lastMoveSeq, this`x, this`y, this`inVent
    {
      PlayerState(clientId, playerId, color, name, skin, hat, pet, alive, infected, entities,
                  playerControlNetId, playerPhysicsNetId, networkTransformNetId, lastMoveSeq, x, y, inVent)
    }

    /** Every field of the player except its name is as it was. */
    twostate predicate AllButName()
      reads this
    {
      unchanged(this`clientId, this`playerId, this`color, this`skin, this`hat, this`pet, this`alive, this`infected)
      && unchanged(this`entities, this`playerControlNetId, this`playerPhysicsNetId, this`networkTransformNetId)
      && unchanged(this`lastMoveSeq, this`x, this`y, this`inVent)
    }

    /** Every field of the player except the entities it owns is as it was. */
    twostate predicate AllButEntities()
      reads this
    {
      unchanged(this`clientId, this`playerId, this`color, this`name, this`skin, this`hat, this`pet, this`alive)
      && unchanged(this`infected, this`playerControlNetId, this`playerPhysicsNetId, this`networkTransformNetId)
      && unchanged(this`lastMoveSeq, this`x, this`y, this`inVent)
    }

    /** The player's client id and last movement sequence number are as they were. */
    twostate predicate ClientKept()
      reads this`clientId, this`lastMoveSeq
    {
      unchanged(this`clientId, this`lastMoveSeq)
    }

    /** The player's stable id and the net ids of its three entities are as they were. */
    twostate predicate BindingKept()
      reads this`playerId, this`playerControlNetId, this`playerPhysicsNetId, this`networkTransformNetId
    {
      unchanged(this`playerId, this`playerControlNetId, this`playerPhysicsNetId, this`networkTransformNetId)
    }

    function Position(): Movement.Motion
      reads this`x, this`y, this`lastMoveSeq
    {
      Movement.Motion(x, y, lastMoveSeq)
    }

    /** PlayerClass.__init__ followed by create_player's assignment of the client id. */
    constructor (game: GameEngine, clientId: int)
      ensures this.game == game
      ensures Snapshot() == InitialState(clientId)
    {
      this.game := game;
      this.clientId := clientId;
      playerId := -1;
      color := None;
      name := None;
      skin, hat, pet := 0, 0, 0;
      alive := true;
      infected := false;
      entities := map[];
      playerControlNetId, playerPhysicsNetId, networkTransformNetId := None, None, None;
      lastMoveSeq := -1;
      x, y := 0.0, 0.0;
      inVent := false;
    }

    /** snap_to: raw recentred offsets, guarded by the sequence number, which it does not advance. */
    method SnapTo(ix: int, iy: int, seqNum: int)
      modifies this`x, this`y
      ensures Position() == Movement.SnapStep(old(Position()), ix, iy, seqNum)
      ensures Snapshot() == WithMotion(old(Snapshot()), Movement.SnapStep(old(Position()), ix, iy, seqNum))
    {
      if seqNum > lastMoveSeq {
        x := (ix - 32767) as real;
        y := (iy - 32767) as real;
      }
    }

    /** parse_location: decode, then move only on a newer sequence number. */
    method ParseLocation(data: seq<byte>) returns (r: Option<(real, real)>)
      modifies this`x, this`y, this`lastMoveSeq
      ensures (Position(), r) == Movement.MoveStep(old(Position()), data)
      ensures Snapshot() == WithMotion(old(Snapshot()), Movement.MoveStep(old(Position()), data).0)
    {
      var payload := Movement.DecodeMove(data);
      if payload.None? {
        return None;
      }
      var p := payload.value;
      if p.seqNum > lastMoveSeq {
        x := Movement.Lerp(p.ix);
        y := Movement.Lerp(p.iy);
        lastMoveSeq := p.seqNum;
        return Some((x, y));
      }
      return None;
    }

    method Vent(inVent: bool)
      modifies this`inVent
      ensures this.inVent == inVent
      ensures Snapshot() == old(Snapshot()).(inVent := inVent)
    {
      this.inVent := inVent;
    }

    method Exiled()
      modifies this`alive, game`trace
      ensures !alive && Snapshot() == old(Snapshot()).(alive := false)
      ensures game.trace == old(game.trace) + game.Emitted(Hook.Exiled, Some(this), None)
    {
      alive := false;
      game.Callback(Hook.Exiled, Some(this), None);
    }

    method Murdered()
      modifies this`alive, game`trace
      ensures !alive && Snapshot() == old(Snapshot()).(alive := false)
      ensures game.trace == old(game.trace) + game.Emitted(Hook.Murdered, Some(this), None)
    {
      alive := false;
      game.Callback(Hook.Murdered, Some(this), None);
    }

    /** The murderer's `Murder` is reported before the victim's `Murdered`. */
    method Murder(victim: Player)
      requires victim.game == game
      modifies victim`alive, game`trace
      ensures !victim.alive
      ensures game.trace == old(game.trace) + game.Emitted(Hook.Murder, Some(this), None)
                                            + game.Emitted(Hook.Murdered, Some(victim), None)
    {
      game.Callback(Hook.Murder, Some(this), None);
      victim.Murdered();
    }

    method SetSkin(skinId: int)
      modifies this`skin, game`trace
      ensures skin == skinId
      ensures Snapshot() == old(Snapshot()).(skin := skinId)
      ensures game.trace == old(game.trace) + game.Emitted(Hook.SetSkin, Some(this), None)
    {
      skin := skinId;
      game.Callback(Hook.SetSkin, Some(this), None);
    }

    method SetHat(hatId: int)
      modifies this`hat, game`trace
      ensures hat == hatId
      ensures Snapshot() == old(Snapshot()).(hat := hatId)
      ensures game.trace == old(game.trace) + game.Emitted(Hook.SetHat, Some(this), None)
    {
      hat := hatId;
      game.Callback(Hook.SetHat, Some(this), None);
    }

    method SetPet(petId: int)
      modifies this`pet, game`trace
      ensures pet == petId
      ensures Snapshot() == old(Snapshot()).(pet := petId)
      ensures game.trace == old(game.trace) + game.Emitted(Hook.SetPet, Some(this), None)
    {
      pet := petId;
      game.Callback(Hook.SetPet, Some(this), None);
    }

    method SetColor(colorId: int)
      modifies this`color, game`trace
      ensures color == Some(colorId)
      ensures Snapshot() == old(Snapshot()).(color := Some(colorId))
      ensures game.trace == old(game.trace) + game.Emitted(Hook.SetColor, Some(this), None)
    {
      color := Some(colorId);
      game.Callback(Hook.SetColor, Some(this), None);
    }

    method SetInfected(isInfected: bool)
      modifies this`infected, game`trace
      ensures infected == isInfected
      ensures Snapshot() == old(Snapshot()).(infected := isInfected)
      ensures game.trace == old(game.trace) + game.Emitted(Hook.Infected, Some(this), None)
    {
      infected := isInfected;
      game.Callback(Hook.Infected, Some(this), None);
    }

    /** set_name, which set_username_from_list simply forwards to. */
    method SetName(newName: Name)
      modifies this`name, game`trace
      ensures name == Some(newName)
      ensures Snapshot() == old(Snapshot()).(name := Some(newName))
      ensures game.trace == old(game.trace) + game.Emitted(Hook.SetName, Some(this), None)
    {
      name := Some(newName);
      game.Callback(Hook.SetName, Some(this), None);
    }

    /**
     * assign_id: record the stable id, register it with the engine, and take the
     * name the username list gave that id, but only when the player has no name.
     */
    method AssignId(pid: int)
      modifies this`playerId, this`name, game`playerIdMap, game`trace
      ensures playerId == pid
      ensures game.playerIdMap == old(game.playerIdMap)[pid := this]
      ensures name == AssignedName(game.usernameLookup, pid, old(name))
      ensures game.trace == old(game.trace) + game.AssignEvents(this, pid, old(name))
    {
      playerId := pid;
      game.RegisterPlayerId(this, pid);
      if pid in game.usernameLookup {
        var preName := game.usernameLookup[pid];
        if NameUnset(name) {
          SetName(preName);
        }
      }
    }

    method Chat(message: string)
      modifies game`trace
      ensures game.trace == old(game.trace) + game.Emitted(Hook.Chat, Some(this), Some(message))
    {
      game.Callback(Hook.Chat, Some(this), Some(message));
    }

    /** add_entity: only this player's own map is consulted. */
    method AddEntity(e: Entity) returns (added: bool)
      modifies this`entities
      ensures added <==> e.netId !in old(entities)
      ensures entities == if added then old(entities)[e.netId := e] else old(entities)
    {
      if e.netId !in entities {
        entities := entities[e.netId := e];
        return true;
      }
      return false;
    }
  }

  class GameEngine {
    /** The names whose registered handler is callable; survives every reset. */
    const handlers: set<Hook>

    var gameId: Option<int>
    var selfClientId: Option<int>
    var hostClientId: Option<int>
    var players: map<int, Player>
    /** The key order of `players`, which Python's dict keeps in insertion order. */
    var clientOrder: seq<int>
    var entities: map<int, Entity>
    var playerIdMap: map<int, Player>
    var tick: int
    var time: int
    var usernameLookup: map<int, Name>
    var lastSpawnedId: Option<int>
    var gameHasStarted: bool
    var meetingStartedBy: Option<Player>
    var meetingStartedAt: Option<int>
    var meetingReason: Reason
    var entityPreload: map<int, seq<Node>>
    var gameSettings: Settings
    var lobbyEntity: Option<int>
    var gameDataEntities: seq<int>
    /** Every callback fired so far, in order. */
    var trace: seq<Fired>

    /** The players this session created and still refers to. */
    ghost var Repr: set<Player>
    /** Every deferred rpc-layer leaf handed back to the rpc handler, in order. */
    ghost var replayLog: seq<Node>
    /** Every leaf proc_node has handled, in order, with whether its transition completed. */
    ghost var procLog: seq<(Node, bool)>

    /** The session's indexes are consistent with each other. */
    ghost predicate Valid()
      reads this`players, this`playerIdMap, this`entities, this`Repr, this`entityPreload, this`clientOrder
      reads Repr`entities
    {
      Owned() && Preloaded() && Ordered()
    }

    /** Every player the indexes reach belongs to this session. */
    ghost predicate Owned()
      reads this`players, this`playerIdMap, this`entities, this`Repr, Repr`entities
    {
      && (forall p :: p in Repr ==> p.game == this)
      && players.Values <= Repr
      && playerIdMap.Values <= Repr
      && (forall k :: k in entities ==> entities[k].netId == k && entities[k].owner in Repr)
      // a live player's own entities are all in the global index (add_entity inserts into both)
      && (forall c :: c in players ==> players[c].entities.Keys <= entities.Keys)
    }

    /** Only rpc-layer leaves are deferred, each under the net id it is addressed to. */
    ghost predicate Preloaded()
      reads this`entityPreload
    {
      forall k :: k in entityPreload ==> DeferredFor(entityPreload[k], k)
    }

    /** `clientOrder` lists the keys of `players`, each once. */
    ghost predicate Ordered()
      reads this`players, this`clientOrder
    {
      Distinct(clientOrder) && (forall c :: c in clientOrder <==> c in players)
    }

    ghost predicate IndexesCleared()
      reads this`players, this`clientOrder, this`entities, this`playerIdMap, this`usernameLookup, this`entityPreload
    {
      && players == map[] && clientOrder == [] && entities == map[] && playerIdMap == map[]
      && usernameLookup == map[] && entityPreload == map[]
    }

    ghost predicate MeetingCleared()
      reads this`gameHasStarted, this`meetingStartedBy, this`meetingStartedAt, this`meetingReason
    {
      !gameHasStarted && meetingStartedBy == None && meetingStartedAt == None && meetingReason == NoReason
    }

    ghost predicate CountersCleared()
      reads this`gameId, this`tick, this`time, this`lastSpawnedId, this`gameSettings, this`lobbyEntity
    {
      gameId == None && ScalarsCleared()
    }

    ghost predicate ScalarsCleared()
      reads this`tick, this`time, this`lastSpawnedId, this`gameSettings, this`lobbyEntity
    {
      tick == 0 && time == 0 && lastSpawnedId == None && gameSettings == map[] && lobbyEntity == None
    }

    /** The session's indexes and the username lookup are as they were. */
    twostate predicate IndexesKept()
      reads this`players, this`clientOrder, this`entities, this`playerIdMap, this`usernameLookup
    {
      && players == old(players) && clientOrder == old(clientOrder) && entities == old(entities)
      && playerIdMap == old(playerIdMap) && usernameLookup == old(usernameLookup)
    }

    /** The clock, the spawn bookkeeping and the two client ids are as they were. */
    twostate predicate ScalarsKept()
      reads this`tick, this`time, this`lastSpawnedId, this`lobbyEntity, this`gameDataEntities
      reads this`selfClientId, this`hostClientId
    {
      && tick == old(tick) && time == old(time) && lastSpawnedId == old(lastSpawnedId)
      && lobbyEntity == old(lobbyEntity) && gameDataEntities == old(gameDataEntities)
      && selfClientId == old(selfClientId) && hostClientId == old(hostClientId)
    }

    /** The started flag, the meeting record and the game settings are as they were. */
    twostate predicate MeetingKept()
      reads this`gameHasStarted, this`meetingStartedBy, this`meetingStartedAt, this`meetingReason, this`gameSettings
    {
      && gameHasStarted == old(gameHasStarted) && meetingStartedBy == old(meetingStartedBy)
      && meetingStartedAt == old(meetingStartedAt) && meetingReason == old(meetingReason)
      && gameSettings == old(gameSettings)
    }

    /** The session has the same players, and no attribute of any of them has changed. */
    twostate predicate PlayersKept()
      reads this`Repr
      reads Repr`clientId, Repr`playerId, Repr`color, Repr`name, Repr`skin, Repr`hat, Repr`pet, Repr`alive
      reads Repr`infected, Repr`entities, Repr`playerControlNetId, Repr`playerPhysicsNetId
      reads Repr`networkTransformNetId, Repr`lastMoveSeq, Repr`x, Repr`y, Repr`inVent
    {
      Repr == old(Repr) && forall q :: q in Repr ==> q.Snapshot() == old(q.Snapshot())
    }

    /** Nothing the session holds has changed, the game id, the deferred-leaf buffer and the ghost logs aside. */
    twostate predicate Untouched()
      reads this`players, this`clientOrder, this`entities, this`playerIdMap, this`tick, this`time
      reads this`usernameLookup, this`lastSpawnedId, this`gameHasStarted, this`meetingStartedBy
      reads this`meetingStartedAt, this`meetingReason, this`gameSettings
      reads this`lobbyEntity, this`gameDataEntities, this`trace, this`selfClientId, this`hostClientId
      reads this`Repr
      reads Repr`clientId, Repr`playerId, Repr`color, Repr`name, Repr`skin, Repr`hat, Repr`pet, Repr`alive
      reads Repr`infected, Repr`entities, Repr`playerControlNetId, Repr`playerPhysicsNetId
      reads Repr`networkTransformNetId, Repr`lastMoveSeq, Repr`x, Repr`y, Repr`inVent
    {
      IndexesKept() && ScalarsKept() && MeetingKept() && trace == old(trace) && PlayersKept()
    }

    /** Every session field at the value reset gives it, except the local and host client ids. */
    ghost predicate SessionCleared()
      reads this`players, this`clientOrder, this`entities, this`playerIdMap, this`usernameLookup, this`entityPreload
      reads this`gameHasStarted, this`meetingStartedBy, this`meetingStartedAt, this`meetingReason
      reads this`gameId, this`tick, this`time, this`lastSpawnedId, this`gameSettings, this`lobbyEntity
    {
      IndexesCleared() && MeetingCleared() && CountersCleared()
    }

    ghost predicate FreshSession()
      reads this`players, this`clientOrder, this`entities, this`playerIdMap, this`usernameLookup, this`entityPreload
      reads this`gameHasStarted, this`meetingStartedBy, this`meetingStartedAt, this`meetingReason
      reads this`gameId, this`tick, this`time, this`lastSpawnedId, this`gameSettings, this`lobbyEntity
      reads this`selfClientId, this`hostClientId
    {
      SessionCleared() && selfClientId == None && hostClientId == None
    }

    /** What one callback adds to the trace: nothing when no handler is registered under the name. */
    function Emitted(hook: Hook, player: Option<Player>, message: Option<string>): (es: seq<Fired>)
      ensures es == [] <==> hook !in handlers
    {
      if hook in handlers then [Fired(hook, player, message)] else []
    }

    /** ge_callback: the generic `Event` first, except for `Reset`, then the named callback. */
    function GeEvents(hook: Hook, player: Option<Player>): seq<Fired> {
      (if hook != Hook.Reset then Emitted(Hook.Event, player, None) else []) + Emitted(hook, player, None)
    }

    /** The owner of the entity with this net id, if the entity exists. */
    function Resolve(netId: int): (r: Option<Player>)
      reads this`entities
      ensures r.Some? <==> netId in entities
    {
      if netId in entities then Some(entities[netId].owner) else None
    }

    /** The callbacks assign_id fires for `p` taking the stable id `pid` while named `current`. */
    function AssignEvents(p: Player, pid: int, current: Option<Name>): seq<Fired>
      reads this`usernameLookup
    {
      if pid in usernameLookup && NameUnset(current) then Emitted(Hook.SetName, Some(p), None) else []
    }

    /** The player registered under a stable id, as a set of at most one. */
    function Registered(pid: int): set<Player>
      reads this`playerIdMap
    {
      if pid in playerIdMap then {playerIdMap[pid]} else {}
    }

    constructor (handlers: set<Hook>)
      ensures Valid() && FreshSession()
      ensures this.handlers == handlers
      ensures trace == Emitted(Hook.Reset, None, None)
      ensures gameDataEntities == [] && replayLog == [] && procLog == []
    {
      this.handlers := handlers;
      trace := [];
      gameDataEntities := [];
      replayLog := [];
      procLog := [];
      new;
      Reset();
    }

    method Callback(hook: Hook, player: Option<Player>, message: Option<string>)
      modifies this`trace
      ensures trace == old(trace) + Emitted(hook, player, message)
    {
      if hook in handlers {
        trace := trace + [Fired(hook, player, message)];
      }
    }

    method GeCallback(hook: Hook, player: Option<Player>)
      modifies this`trace
      ensures trace == old(trace) + GeEvents(hook, player)
    {
      if hook != Hook.Reset {
        Callback(Hook.Event, player, None);
      }
      Callback(hook, player, None);
    }

    method ClearIndexes()
      modifies this`players, this`clientOrder, this`entities, this`playerIdMap, this`usernameLookup
      modifies this`entityPreload, this`Repr
      ensures Valid() && IndexesCleared() && Repr == {}
    {
      players, clientOrder, entities, playerIdMap := map[], [], map[], map[];
      usernameLookup, entityPreload := map[], map[];
      Repr := {};
    }

    method ClearMeeting()
      modifies this`gameHasStarted, this`meetingStartedBy, this`meetingStartedAt, this`meetingReason
      ensures MeetingCleared()
    {
      gameHasStarted := false;
      meetingStartedBy, meetingStartedAt, meetingReason := None, None, NoReason;
    }

    method ClearCounters()
      modifies this`gameId, this`tick, this`time, this`lastSpawnedId, this`gameSettings, this`lobbyEntity
      modifies this`selfClientId, this`hostClientId
      ensures CountersCleared() && selfClientId == None && hostClientId == None
    {
      selfClientId, hostClientId := None, None;
      gameId, tick, time, lastSpawnedId := None, 0, 0, None;
      gameSettings, lobbyEntity := map[], None;
    }

    method ClearSession()
      modifies this`players, this`clientOrder, this`entities, this`playerIdMap, this`usernameLookup
      modifies this`entityPreload, this`Repr
      modifies this`gameHasStarted, this`meetingStartedBy, this`meetingStartedAt, this`meetingReason
      modifies this`gameId, this`tick, this`time, this`lastSpawnedId, this`gameSettings, this`lobbyEntity
      modifies this`selfClientId, this`hostClientId
      ensures Valid() && Repr == {}
      ensures IndexesCleared() && MeetingCleared() && CountersCleared()
      ensures selfClientId == None && hostClientId == None
    {
      ClearCounters();
      ClearMeeting();
      ClearIndexes();
    }

    /** reset: every session field back to its default; the handlers are kept; only `Reset` fires. */
    method Reset()
      modifies this`players, this`clientOrder, this`entities, this`playerIdMap, this`usernameLookup
      modifies this`entityPreload, this`Repr
      modifies this`gameHasStarted, this`meetingStartedBy, this`meetingStartedAt, this`meetingReason
      modifies this`gameId, this`tick, this`time, this`lastSpawnedId, this`gameSettings, this`lobbyEntity
      modifies this`selfClientId, this`hostClientId, this`trace
      ensures Valid() && FreshSession() && Repr == {}
      ensures trace == old(trace) + Emitted(Hook.Reset, None, None)
    {
      ClearSession();
      Callback(Hook.Reset, None, None);   // ge_callback fires no generic event for a reset
    }

    method RegisterPlayerId(p: Player, pid: int)
      modifies this`playerIdMap
      ensures playerIdMap == old(playerIdMap)[pid := p]
    {
      playerIdMap := playerIdMap[pid := p];
    }

    /** create_player: a new player under `cid`, replacing any player already there. */
    method CreatePlayer(cid: int) returns (p: Player)
      requires Valid()
      modifies this`players, this`clientOrder, this`Repr
      ensures Valid()
      ensures fresh(p) && p.game == this && p.Snapshot() == InitialState(cid)
      ensures players == old(players)[cid := p] && Repr == old(Repr) + {p}
      ensures clientOrder == if cid in old(players) then old(clientOrder) else old(clientOrder) + [cid]
    {
      p := new Player(this, cid);
      if cid !in players {
        clientOrder := clientOrder + [cid];
      }
      players := players[cid := p];
      Repr := Repr + {p};
    }

    /** The id index after `p` leaves it: its id is dropped only while it still maps to `p`. */
    ghost function UnregisterIfHeld(m: map<int, Player>, p: Player): map<int, Player>
      reads p`playerId
    {
      if p.playerId in m && m[p.playerId] == p then m - {p.playerId} else m
    }

    /**
     * After a removal: every net id `p` held still resolves, and each one that
     * resolved to `p` still resolves to it, though `p` has left the session.
     */
    twostate predicate StillResolves(p: Player)
      reads this`entities
    {
      forall k :: k in old(p.entities) ==> k in entities && (old(Resolve(k)) == Some(p) ==> Resolve(k) == Some(p))
    }

    /**
     * remove_player as written: the client id and, if still held, the stable id
     * are dropped; the loop over the player's entities iterates net ids, reads
     * `.netId` on each, and every such failure is swallowed, so the global
     * entity index keeps the removed player's entities.
     */
    method RemovePlayer(cid: int)
      requires Valid()
      modifies this`players, this`clientOrder, this`playerIdMap
      ensures Valid()
      ensures players == old(players) - {cid}
      ensures clientOrder == Without(old(clientOrder), cid)
      ensures playerIdMap == if cid in old(players) then old(UnregisterIfHeld(playerIdMap, players[cid])) else old(playerIdMap)
      ensures entities == old(entities)
      ensures cid in old(players) ==> StillResolves(old(players[cid]))
    {
      if cid in players {
        var p := players[cid];
        players := players - {cid};
        clientOrder := Without(clientOrder, cid);
        if p.playerId in playerIdMap && playerIdMap[p.playerId] == p {
          playerIdMap := playerIdMap - {p.playerId};
        }
        // `for entity in player.entities: del self.entities[entity.netId]` raises on
        // every key and each failure is swallowed: nothing is removed.
      } else {
        assert cid !in clientOrder;
        assert Without(clientOrder, cid) == clientOrder by {
          WithoutAbsent(clientOrder, cid);
        }
      }
    }

    /** add_entity: both indexes gain the net id, owned by `p`, unless `p` already holds it. */
    method AddEntity(p: Player, netId: int)
      requires Valid() && p in Repr
      modifies p`entities, this`entities
      ensures Valid()
      ensures netId in old(p.entities) ==> p.entities == old(p.entities) && entities == old(entities)
      ensures netId !in old(p.entities) ==>
        && p.entities == old(p.entities)[netId := Entity(netId, p)]
        && entities == old(entities)[netId := Entity(netId, p)]
    {
      var entity := AddToPlayer(netId, p);
      if entity.Some? {
        entities := entities[netId := entity.value];
      }
    }

    /**
     * spawn_entity: under a Player spawn, find or create the player of the
     * spawn's client id and give it the child's net id; under any other spawn
     * only the last spawned id is recorded.
     */
    method SpawnEntity(owner: Node, child: Child)
      requires Valid()
      modifies this`players, this`clientOrder, this`Repr, this`entities, this`lastSpawnedId, Repr`entities
      ensures Valid() && fresh(Repr - old(Repr))
      ensures lastSpawnedId == Some(child.netId)
      ensures !owner.command.Player? ==>
        players == old(players) && clientOrder == old(clientOrder) && entities == old(entities)
        && Repr == old(Repr) && forall q :: q in old(Repr) ==> q.entities == old(q.entities)
      ensures owner.command.Player? ==>
        var cid := owner.props.clientId;
        && cid in players
        && (cid in old(players) ==> players == old(players) && clientOrder == old(clientOrder) && Repr == old(Repr))
        && (cid !in old(players) ==>
              && fresh(players[cid]) && players == old(players)[cid := players[cid]]
              && clientOrder == old(clientOrder) + [cid] && Repr == old(Repr) + {players[cid]}
              && players[cid].Snapshot() == InitialState(cid).(entities := players[cid].entities))
        && var p, held := players[cid], if cid in old(players) then old(players[cid].entities) else map[];
        && p.entities == (if child.netId in held then held else held[child.netId := Entity(child.netId, p)])
        && entities == (if child.netId in held then old(entities) else old(entities)[child.netId := Entity(child.netId, p)])
        && forall q :: q in old(Repr) && q != p ==> q.entities == old(q.entities)
    {
      if owner.command.Player? {
        var cid := owner.props.clientId;
        var p: Player;
        if cid in players {
          p := players[cid];
        } else {
          p := CreatePlayer(cid);
        }
        AddEntity(p, child.netId);
      }
      lastSpawnedId := Some(child.netId);
    }

    /** The game id after a leaf is processed: a leaf carrying "gameId" replaces it, any other keeps it. */
    static function NextGameId(props: Props, current: Option<int>): Option<int> {
      if props.gameId.Some? then props.gameId else current
    }

    // ---- inner-protocol layer ----

    method HandleRemovePlayer(cid: int)
      requires Valid()
      modifies this`players, this`clientOrder, this`playerIdMap, this`trace
      ensures Valid()
      ensures players == old(players) - {cid}
      ensures clientOrder == Without(old(clientOrder), cid)
      ensures playerIdMap == if cid in old(players) then old(UnregisterIfHeld(playerIdMap, players[cid])) else old(playerIdMap)
      ensures entities == old(entities)
      ensures cid in old(players) ==> StillResolves(old(players[cid]))
      ensures trace == old(trace) + GeEvents(Hook.RemovePlayer, if cid in old(players) then Some(old(players[cid])) else None)
    {
      var removed := if cid in players then Some(players[cid]) else None;
      RemovePlayer(cid);
      GeCallback(Hook.RemovePlayer, removed);
    }

    method HandleStartGame()
      modifies this`gameHasStarted, this`trace
      ensures gameHasStarted
      ensures trace == old(trace) + GeEvents(Hook.StartGame, None)
    {
      gameHasStarted := true;
      GeCallback(Hook.StartGame, None);
    }

    /** EndGame is reported first, then the session is reset. */
    method HandleEndGame()
      modifies this`players, this`clientOrder, this`entities, this`playerIdMap, this`usernameLookup
      modifies this`entityPreload, this`Repr
      modifies this`gameHasStarted, this`meetingStartedBy, this`meetingStartedAt, this`meetingReason
      modifies this`gameId, this`tick, this`time, this`lastSpawnedId, this`gameSettings, this`lobbyEntity
      modifies this`selfClientId, this`hostClientId, this`trace
      ensures Valid() && FreshSession() && Repr == {}
      ensures trace == old(trace) + GeEvents(Hook.EndGame, None) + Emitted(Hook.Reset, None, None)
    {
      GeCallback(Hook.EndGame, None);
      Reset();
    }

    /** JoinedGame resets the session first, then records the local and host client ids. */
    method HandleJoinedGame(clientId: int, hostId: int)
      modifies this`players, this`clientOrder, this`entities, this`playerIdMap, this`usernameLookup
      modifies this`entityPreload, this`Repr
      modifies this`gameHasStarted, this`meetingStartedBy, this`meetingStartedAt, this`meetingReason
      modifies this`gameId, this`tick, this`time, this`lastSpawnedId, this`gameSettings, this`lobbyEntity
      modifies this`selfClientId, this`hostClientId, this`trace
      ensures Valid() && SessionCleared() && Repr == {}
      ensures selfClientId == Some(clientId) && hostClientId == Some(hostId)
      ensures trace == old(trace) + Emitted(Hook.Reset, None, None) + GeEvents(Hook.JoinedGame, None)
      ensures gameDataEntities == old(gameDataEntities)
    {
      Reset();
      Join(clientId, hostId);
    }

    /** What joined_game does after the reset: record the two client ids and announce the join. */
    method Join(clientId: int, hostId: int)
      modifies this`selfClientId, this`hostClientId, this`trace
      ensures selfClientId == Some(clientId) && hostClientId == Some(hostId)
      ensures trace == old(trace) + GeEvents(Hook.JoinedGame, None)
    {
      selfClientId, hostClientId := Some(clientId), Some(hostId);
      GeCallback(Hook.JoinedGame, None);
    }

    // ---- game-data layer ----

    /** The player a Data leaf moves: the owner of the addressed entity, when that entity is its network transform. */
    function MoveTarget(ownerId: int): (r: set<Player>)
      reads this`entities, (if ownerId in entities then {entities[ownerId].owner} else {})`networkTransformNetId
    {
      if ownerId in entities && SameNetId(ownerId, entities[ownerId].owner.networkTransformNetId)
      then {entities[ownerId].owner} else {}
    }

    method HandleData(ownerId: int, data: seq<byte>)
      requires Valid()
      modifies MoveTarget(ownerId)`x, MoveTarget(ownerId)`y, MoveTarget(ownerId)`lastMoveSeq
      ensures forall q :: q in MoveTarget(ownerId) ==>
        q.Snapshot() == WithMotion(old(q.Snapshot()), Movement.MoveStep(old(q.Position()), data).0)
    {
      var player := Resolve(ownerId);
      if player.Some? {
        var p := player.value;
        if SameNetId(ownerId, p.networkTransformNetId) {
          var _ := p.ParseLocation(data);
        }
      }
    }

    // ---- rpc layer: commands that need no player ----

    method HandleSyncSettings(settings: Settings)
      modifies this`gameSettings, this`trace
      ensures gameSettings == settings
      ensures trace == old(trace) + GeEvents(Hook.GameSettings, None)
    {
      gameSettings := settings;
      GeCallback(Hook.GameSettings, None);
    }

    /** StartMeeting keeps the previous starter when the owner entity is unknown; report id 255 is the button. */
    method HandleStartMeeting(ownerId: int, reportId: int)
      modifies this`gameHasStarted, this`meetingStartedBy, this`meetingStartedAt, this`meetingReason, this`trace
      ensures gameHasStarted
      ensures meetingStartedBy == if ownerId in entities then Some(entities[ownerId].owner) else old(meetingStartedBy)
      ensures meetingStartedAt == Some(time)
      ensures meetingReason == if reportId == 255 then Button else Reported(reportId)
      ensures trace == old(trace) + GeEvents(Hook.StartMeeting, None)
    {
      gameHasStarted := true;
      if ownerId in entities {
        meetingStartedBy := Some(entities[ownerId].owner);
      }
      meetingStartedAt := Some(time);
      meetingReason := if reportId == 255 then Button else Reported(reportId);
      GeCallback(Hook.StartMeeting, None);
    }

    method HandleClose()
      modifies this`gameHasStarted, this`meetingStartedBy, this`meetingStartedAt, this`meetingReason, this`trace
      ensures gameHasStarted
      ensures meetingStartedBy == None && meetingStartedAt == None && meetingReason == NoReason
      ensures trace == old(trace) + GeEvents(Hook.EndMeeting, None)
    {
      gameHasStarted := true;
      meetingStartedBy, meetingStartedAt, meetingReason := None, None, NoReason;
      GeCallback(Hook.EndMeeting, None);
    }

    /** The player a VotingComplete exiles: the one registered under an exiled id below 255. */
    function ExileTarget(exiledId: int): set<Player>
      reads this`playerIdMap
    {
      if exiledId < 255 then Registered(exiledId) else {}
    }

    method HandleVotingComplete(exiledId: int)
      requires Valid()
      modifies this`gameHasStarted, ExileTarget(exiledId)`alive, this`trace
      ensures gameHasStarted
      ensures forall q :: q in ExileTarget(exiledId) ==> !q.alive
      ensures trace == old(trace) + (if exiledId < 255 && exiledId in playerIdMap
                                     then Emitted(Hook.Exiled, Some(playerIdMap[exiledId]), None) else [])
    {
      gameHasStarted := true;
      if exiledId < 255 && exiledId in playerIdMap {
        var v := playerIdMap[exiledId];
        v.Exiled();
      }
    }

    /** A leaf whose owner entity is unknown waits, in arrival order, under the owner's net id. */
    method Defer(ownerId: int, n: Node)
      requires Valid() && n.layer == Rpc && n.context.rpcOwnerId == ownerId
      modifies this`entityPreload
      ensures Valid()
      ensures entityPreload == Deferred(old(entityPreload), ownerId, n)
    {
      if ownerId !in entityPreload {
        entityPreload := entityPreload[ownerId := []];
      }
      entityPreload := entityPreload[ownerId := entityPreload[ownerId] + [n]];
    }

    // ---- rpc layer: commands that act on the owner's player ----

    /** The registered players among `ids`. */
    function InfectedTargets(ids: seq<int>): set<Player>
      reads this`playerIdMap
    {
      set i | 0 <= i < |ids| && ids[i] in playerIdMap :: playerIdMap[ids[i]]
    }

    /** One `Infected` callback per registered id of the list, in list order. */
    ghost function InfectedEvents(ids: seq<int>): seq<Fired>
      reads this`playerIdMap
    {
      if ids == [] then []
      else
        var last := ids[|ids| - 1];
        InfectedEvents(ids[..|ids| - 1])
          + (if last in playerIdMap then Emitted(Hook.Infected, Some(playerIdMap[last]), None) else [])
    }

    /** Every registered player belongs to this session. */
    ghost predicate RegistryLinked()
      reads this`playerIdMap
    {
      forall pid :: pid in playerIdMap ==> playerIdMap[pid].game == this
    }

    method HandleSetInfected(ids: seq<int>)
      requires RegistryLinked()
      modifies InfectedTargets(ids)`infected, this`trace
      ensures forall q :: q in InfectedTargets(ids) ==> q.Snapshot() == old(q.Snapshot()).(infected := true)
      ensures trace == old(trace) + InfectedEvents(ids)
    {
      var i := 0;
      while i < |ids|
        invariant 0 <= i <= |ids|
        invariant forall q :: q in InfectedTargets(ids[..i]) ==> q.infected
        invariant trace == old(trace) + InfectedEvents(ids[..i])
      {
        assert ids[..i + 1][..i] == ids[..i];
        assert InfectedTargets(ids[..i + 1]) == InfectedTargets(ids[..i]) + Registered(ids[i]) by {
          assert forall j :: 0 <= j < i ==> ids[..i + 1][j] == ids[..i][j];
        }
        var pid := ids[i];
        if pid in playerIdMap {
          playerIdMap[pid].SetInfected(true);
        }
        i := i + 1;
      }
      assert ids[..|ids|] == ids;
    }

    function When(b: bool, p: Player): set<Player> {
      if b then {p} else {}
    }

    /** The player a MurderPlayer leaf kills: the owner of its victim net id, if that entity exists. */
    function Victim(n: Node): (r: set<Player>)
      reads this`entities
    {
      if n.command.MurderPlayer? && n.props.netId in entities then {entities[n.props.netId].owner} else {}
    }

    /** The owner of the entity with this net id, as a set of at most one. */
    function Owner(netId: int): set<Player>
      reads this`entities
    {
      if netId in entities then {entities[netId].owner} else {}
    }

    /**
     * What an actor command of `n` did with its player `p`: each command
     * sets one attribute of `p` and fires its callbacks; MurderPlayer kills
     * the owner of the victim net id, and with that entity unknown does
     * nothing (and raises); SetInfected infects every registered player it
     * lists. No other player of the session, and no other attribute,
     * changes.
     */
    twostate predicate ActorEffect(p: Player, n: Node)
      reads this`trace, this`entities, this`playerIdMap, this`Repr, Repr, p, Victim(n)
      reads InfectedTargets(n.props.playerIdList)
    {
      var c, ids := n.command, n.props.playerIdList;
      && Repr == old(Repr)
      && (forall q :: q in Repr && q != p && q !in Victim(n) && !(c.SetInfected? && q in InfectedTargets(ids)) ==> unchanged(q))
      && (!IsActorCommand(c) ==> unchanged(p) && trace == old(trace))
      && (c.EnterVent? ==> p.Snapshot() == old(p.Snapshot()).(inVent := true) && trace == old(trace))
      && (c.ExitVent? ==> p.Snapshot() == old(p.Snapshot()).(inVent := false) && trace == old(trace))
      && (c.SnapTo? ==>
            && p.Snapshot() == WithMotion(old(p.Snapshot()), Movement.SnapStep(old(p.Position()), n.props.x, n.props.y, n.props.seqNum))
            && trace == old(trace))
      && (c.MurderPlayer? && n.props.netId in entities ==>
            var v := entities[n.props.netId].owner;
            && !v.alive && (v in Repr ==> v.Snapshot() == old(v.Snapshot()).(alive := false)) && (v != p ==> unchanged(p))
            && trace == old(trace) + Emitted(Hook.Murder, Some(p), None) + Emitted(Hook.Murdered, Some(v), None))
      && (c.MurderPlayer? && n.props.netId !in entities ==> unchanged(p) && trace == old(trace))
      && (c.SetName? ==> p.Snapshot() == old(p.Snapshot()).(name := Some(n.props.name))
                         && trace == old(trace) + Emitted(Hook.SetName, Some(p), None))
      && (c.SetSkin? ==> p.Snapshot() == old(p.Snapshot()).(skin := n.props.id)
                         && trace == old(trace) + Emitted(Hook.SetSkin, Some(p), None))
      && (c.SetHat? ==> p.Snapshot() == old(p.Snapshot()).(hat := n.props.id)
                        && trace == old(trace) + Emitted(Hook.SetHat, Some(p), None))
      && (c.SetColor? ==> p.Snapshot() == old(p.Snapshot()).(color := Some(n.props.id))
                          && trace == old(trace) + Emitted(Hook.SetColor, Some(p), None))
      && (c.SetPet? ==> p.Snapshot() == old(p.Snapshot()).(pet := n.props.id)
                        && trace == old(trace) + Emitted(Hook.SetPet, Some(p), None))
      && (c.SetInfected? ==>
            && (forall q :: q in Repr && q in InfectedTargets(ids) ==> q.Snapshot() == old(q.Snapshot()).(infected := true))
            && (p !in InfectedTargets(ids) ==> unchanged(p))
            && trace == old(trace) + InfectedEvents(ids))
      && (c.SendChat? ==> unchanged(p) && trace == old(trace) + Emitted(Hook.Chat, Some(p), Some(n.props.message)))
    }

    /**
     * What a meeting command of `n` did: SyncSettings stores the settings;
     * StartMeeting records who (the owner, if its entity exists, else the
     * previous starter), when and why; Close clears that; VotingComplete
     * marks the game started and the exiled player dead. Each leaves the
     * rest of the meeting record, the settings and every other player as
     * they were; any other command leaves all of them alone.
     */
    twostate predicate MeetingEffect(n: Node)
      reads this`gameSettings, this`gameHasStarted, this`meetingStartedBy, this`meetingStartedAt
      reads this`meetingReason, this`trace, this`playerIdMap, this`time, this`entities, this`Repr, Repr
      reads ExileTarget(n.props.exiledPlayerId)
    {
      var c := n.command;
      && Repr == old(Repr)
      && (!IsMeetingCommand(c) ==> MeetingKept())
      && (IsMeetingCommand(c) ==>
            forall q :: q in Repr && !(c.VotingComplete? && q in ExileTarget(n.props.exiledPlayerId)) ==> unchanged(q))
      && (c.SyncSettings? ==>
            && gameSettings == n.context.settings
            && gameHasStarted == old(gameHasStarted) && meetingStartedBy == old(meetingStartedBy)
            && meetingStartedAt == old(meetingStartedAt) && meetingReason == old(meetingReason)
            && trace == old(trace) + GeEvents(Hook.GameSettings, None))
      && (c.StartMeeting? ==>
            && gameHasStarted
            && meetingStartedBy == (if n.context.rpcOwnerId in entities then Some(entities[n.context.rpcOwnerId].owner)
                                    else old(meetingStartedBy))
            && meetingStartedAt == Some(time)
            && meetingReason == (if n.context.reportId == 255 then Button else Reported(n.context.reportId))
            && gameSettings == old(gameSettings)
            && trace == old(trace) + GeEvents(Hook.StartMeeting, None))
      && (c.Close? ==>
            && gameHasStarted && meetingStartedBy == None && meetingStartedAt == None && meetingReason == NoReason
            && gameSettings == old(gameSettings)
            && trace == old(trace) + GeEvents(Hook.EndMeeting, None))
      && (c.VotingComplete? ==>
            var id := n.props.exiledPlayerId;
            && gameHasStarted
            && meetingStartedBy == old(meetingStartedBy) && meetingStartedAt == old(meetingStartedAt)
            && meetingReason == old(meetingReason) && gameSettings == old(gameSettings)
            && (forall q :: q in Repr && q in ExileTarget(id) ==> q.Snapshot() == old(q.Snapshot()).(alive := false))
            && trace == old(trace) + (if id < 255 && id in playerIdMap then Emitted(Hook.Exiled, Some(playerIdMap[id]), None) else []))
    }

    /**
     * What an rpc leaf did: its meeting effect; then, with the owner entity
     * known, the actor effect on the owner's player, and with it unknown,
     * the leaf is deferred under the owner's net id. The indexes, the clock
     * and the spawn bookkeeping never change; any other leaf changes no
     * player and fires nothing.
     */
    twostate predicate RpcEffect(n: Node)
      reads this`players, this`clientOrder, this`entities, this`playerIdMap, this`tick, this`time
      reads this`usernameLookup, this`lastSpawnedId, this`gameHasStarted, this`meetingStartedBy
      reads this`meetingStartedAt, this`meetingReason, this`gameSettings, this`entityPreload
      reads this`lobbyEntity, this`gameDataEntities, this`trace, this`selfClientId, this`hostClientId
      reads this`Repr, Repr, Victim(n), InfectedTargets(n.props.playerIdList)
      reads ExileTarget(n.props.exiledPlayerId), Owner(n.context.rpcOwnerId)
    {
      var o := n.context.rpcOwnerId;
      && IndexesKept() && ScalarsKept()
      && MeetingEffect(n)
      && (o in entities && IsActorCommand(n.command) ==> ActorEffect(entities[o].owner, n))
      && (!IsMeetingCommand(n.command) && !(o in entities && IsActorCommand(n.command)) ==>
            trace == old(trace) && PlayersKept())
      && entityPreload == (if o in entities then old(entityPreload) else Deferred(old(entityPreload), o, n))
    }

    /** No player came back to life, the trace only grew, and unless `renames` no name changed. */
    twostate predicate Kept(ps: set<Player>, renames: bool)
      reads this`trace, ps`alive, ps`name
    {
      && old(trace) <= trace
      && forall q :: q in ps ==> (!old(q.alive) ==> !q.alive) && (!renames ==> q.name == old(q.name))
    }

    /** Every MurderPlayer leaf of `ns` names an existing entity whose owner is dead. */
    ghost predicate DeadVictims(ns: seq<Node>)
      reads this`entities, (set k | k in entities :: entities[k].owner)`alive
    {
      forall m :: m in ns && m.command.MurderPlayer? ==> m.props.netId in entities && !entities[m.props.netId].owner.alive
    }

    /**
     * The rpc commands that need the owner's player `p`; each command may
     * change only the fields its frame names. MurderPlayer with an unknown
     * victim net id raises.
     */
    method HandleActorCommand(p: Player, n: Node) returns (ok: bool)
      requires Valid() && p in Repr
      modifies When(n.command.EnterVent? || n.command.ExitVent?, p)`inVent
      modifies When(n.command.SnapTo?, p)`x, When(n.command.SnapTo?, p)`y
      modifies Victim(n)`alive
      modifies When(n.command.SetName?, p)`name, When(n.command.SetSkin?, p)`skin, When(n.command.SetHat?, p)`hat
      modifies When(n.command.SetColor?, p)`color, When(n.command.SetPet?, p)`pet
      modifies (if n.command.SetInfected? then InfectedTargets(n.props.playerIdList) else {})`infected
      modifies this`trace
      ensures ok <==> !(n.command.MurderPlayer? && n.props.netId !in entities)
      ensures ActorEffect(p, n)
    {
      ok := true;
      match n.command {
        case EnterVent | ExitVent | SnapTo => MoveOwner(p, n);
        case MurderPlayer => ok := MurderVictim(p, n);
        case SetName | SetSkin | SetHat | SetColor | SetPet => DressOwner(p, n);
        case SetInfected => HandleSetInfected(n.props.playerIdList);
        case SendChat => p.Chat(n.props.message);
        case _ =>
      }
    }

    /** EnterVent, ExitVent and SnapTo move the owner's player `p` and fire nothing. */
    method MoveOwner(p: Player, n: Node)
      requires Valid() && p in Repr && (n.command.EnterVent? || n.command.ExitVent? || n.command.SnapTo?)
      modifies When(n.command.EnterVent? || n.command.ExitVent?, p)`inVent
      modifies When(n.command.SnapTo?, p)`x, When(n.command.SnapTo?, p)`y
      ensures ActorEffect(p, n)
    {
      match n.command {
        case EnterVent => p.Vent(true);
        case ExitVent => p.Vent(false);
        case SnapTo => p.SnapTo(n.props.x, n.props.y, n.props.seqNum);
      }
    }

    /** MurderPlayer kills the owner of the victim net id; with that entity unknown it raises. */
    method MurderVictim(p: Player, n: Node) returns (ok: bool)
      requires Valid() && p in Repr && n.command.MurderPlayer?
      modifies Victim(n)`alive, this`trace
      ensures ok <==> n.props.netId in entities
      ensures ActorEffect(p, n)
    {
      if n.props.netId !in entities {
        return false;   // the victim lookup raises
      }
      var victim := entities[n.props.netId].owner;
      p.Murder(victim);
      return true;
    }

    /** The five attribute setters each set one attribute of `p` and fire its callback. */
    method DressOwner(p: Player, n: Node)
      requires Valid() && p in Repr
      requires n.command.SetName? || n.command.SetSkin? || n.command.SetHat? || n.command.SetColor? || n.command.SetPet?
      modifies When(n.command.SetName?, p)`name, When(n.command.SetSkin?, p)`skin, When(n.command.SetHat?, p)`hat
      modifies When(n.command.SetColor?, p)`color, When(n.command.SetPet?, p)`pet
      modifies this`trace
      ensures ActorEffect(p, n)
    {
      match n.command {
        case SetName => p.SetName(n.props.name);
        case SetSkin => p.SetSkin(n.props.id);
        case SetHat => p.SetHat(n.props.id);
        case SetColor => p.SetColor(n.props.id);
        case SetPet => p.SetPet(n.props.id);
      }
    }

    /** The rpc commands that need no player; any other command changes nothing here. */
    method HandleMeetingCommand(n: Node)
      requires Valid()
      modifies this`gameSettings, this`gameHasStarted, this`meetingStartedBy, this`meetingStartedAt
      modifies this`meetingReason, this`trace
      modifies (if n.command.VotingComplete? then ExileTarget(n.props.exiledPlayerId) else {})`alive
      ensures Valid()
      ensures MeetingEffect(n)
      ensures !IsMeetingCommand(n.command) ==> trace == old(trace)
    {
      match n.command {
        case SyncSettings | StartMeeting | Close => MeetingRecord(n);
        case VotingComplete => MeetingVote(n);
        case _ =>
      }
    }

    /** SyncSettings, StartMeeting and Close change the settings or the meeting record, and no player. */
    method MeetingRecord(n: Node)
      requires Valid() && (n.command.SyncSettings? || n.command.StartMeeting? || n.command.Close?)
      modifies this`gameSettings, this`gameHasStarted, this`meetingStartedBy, this`meetingStartedAt
      modifies this`meetingReason, this`trace
      ensures MeetingEffect(n)
    {
      match n.command {
        case SyncSettings => HandleSyncSettings(n.context.settings);
        case StartMeeting => HandleStartMeeting(n.context.rpcOwnerId, n.context.reportId);
        case Close => HandleClose();
      }
    }

    /** VotingComplete: the exiled player dies. */
    method MeetingVote(n: Node)
      requires Valid() && n.command.VotingComplete?
      modifies this`gameHasStarted, ExileTarget(n.props.exiledPlayerId)`alive, this`trace
      ensures MeetingEffect(n)
    {
      HandleVotingComplete(n.props.exiledPlayerId);
    }

    /** HandleActorCommand seen through the frame of the whole rpc layer. */
    method ActOn(p: Player, n: Node) returns (ok: bool)
      requires Valid() && p in Repr
      modifies Repr`inVent, Repr`x, Repr`y, Repr`alive, Repr`name, Repr`skin, Repr`hat, Repr`color
      modifies Repr`pet, Repr`infected, this`trace
      ensures ok <==> !(n.command.MurderPlayer? && n.props.netId !in entities)
      ensures ActorEffect(p, n)
      ensures Kept(Repr, n.command.SetName?)
    {
      ok := HandleActorCommand(p, n);
    }

    /**
     * proc_node on an rpc-layer leaf: the commands that need no player run
     * first; then a leaf whose owner entity is unknown is deferred, and
     * otherwise the owner's player acts.
     */
    method ProcRpc(n: Node) returns (ok: bool)
      requires Valid() && n.layer == Rpc
      modifies this`gameSettings, this`gameHasStarted, this`meetingStartedBy, this`meetingStartedAt
      modifies this`meetingReason, this`entityPreload, this`trace
      modifies Repr`inVent, Repr`x, Repr`y, Repr`alive, Repr`name, Repr`skin, Repr`hat, Repr`color
      modifies Repr`pet, Repr`infected
      ensures Valid()
      ensures ok <==> !Raises(n, old(entities), old(lobbyEntity))
      ensures RpcEffect(n)
      ensures Kept(Repr, n.command.SetName?)
    {
      // a command name is at most one of the two kinds, so at most one half of the source's rpc block acts
      if IsMeetingCommand(n.command) {
        RpcMeeting(n);
        ok := true;
      } else {
        ok := RpcActor(n);
      }
    }

    /** An rpc leaf with a meeting command: the command acts, then the leaf is deferred if its owner entity is unknown. */
    method RpcMeeting(n: Node)
      requires Valid() && n.layer == Rpc && IsMeetingCommand(n.command)
      modifies this`gameSettings, this`gameHasStarted, this`meetingStartedBy, this`meetingStartedAt
      modifies this`meetingReason, this`entityPreload, this`trace
      modifies (if n.command.VotingComplete? then ExileTarget(n.props.exiledPlayerId) else {})`alive
      ensures Valid()
      ensures RpcEffect(n)
      ensures Kept(Repr, false)
    {
      if n.context.rpcOwnerId in entities {
        MeetingKnownOwner(n);
      } else {
        MeetingUnknownOwner(n);
      }
    }

    /** A meeting command whose owner entity exists: it acts and is not deferred. */
    method MeetingKnownOwner(n: Node)
      requires Valid() && n.layer == Rpc && IsMeetingCommand(n.command) && n.context.rpcOwnerId in entities
      modifies this`gameSettings, this`gameHasStarted, this`meetingStartedBy, this`meetingStartedAt
      modifies this`meetingReason, this`trace
      modifies (if n.command.VotingComplete? then ExileTarget(n.props.exiledPlayerId) else {})`alive
      ensures Valid()
      ensures RpcEffect(n)
      ensures Kept(Repr, false)
    {
      HandleMeetingCommand(n);
    }

    /** A meeting command whose owner entity is unknown: it acts, then is deferred under the owner's net id. */
    method MeetingUnknownOwner(n: Node)
      requires Valid() && n.layer == Rpc && IsMeetingCommand(n.command) && n.context.rpcOwnerId !in entities
      modifies this`gameSettings, this`gameHasStarted, this`meetingStartedBy, this`meetingStartedAt
      modifies this`meetingReason, this`entityPreload, this`trace
      modifies (if n.command.VotingComplete? then ExileTarget(n.props.exiledPlayerId) else {})`alive
      ensures Valid()
      ensures RpcEffect(n)
      ensures Kept(Repr, false)
    {
      HandleMeetingCommand(n);
      Defer(n.context.rpcOwnerId, n);
    }

    /** Any other rpc leaf: deferred if its owner entity is unknown, else its owner's player acts on it. */
    method RpcActor(n: Node) returns (ok: bool)
      requires Valid() && n.layer == Rpc && !IsMeetingCommand(n.command)
      modifies this`entityPreload, this`trace
      modifies Repr`inVent, Repr`x, Repr`y, Repr`alive, Repr`name, Repr`skin, Repr`hat, Repr`color
      modifies Repr`pet, Repr`infected
      ensures Valid()
      ensures ok <==> !Raises(n, entities, lobbyEntity)
      ensures RpcEffect(n)
      ensures Kept(Repr, n.command.SetName?)
    {
      var player := Resolve(n.context.rpcOwnerId);
      if player.None? {
        ActorUnknownOwner(n);
        ok := true;
      } else {
        ok := ActorKnownOwner(n, player.value);
      }
    }

    /** A leaf whose owner entity is unknown waits in the buffer under the owner's net id. */
    method ActorUnknownOwner(n: Node)
      requires Valid() && n.layer == Rpc && !IsMeetingCommand(n.command) && n.context.rpcOwnerId !in entities
      modifies this`entityPreload
      ensures Valid()
      ensures RpcEffect(n)
      ensures Kept(Repr, false)
    {
      Defer(n.context.rpcOwnerId, n);
    }

    /** A leaf whose owner entity exists: an actor command acts on the owner's player `p`. */
    method ActorKnownOwner(n: Node, p: Player) returns (ok: bool)
      requires Valid() && n.layer == Rpc && !IsMeetingCommand(n.command)
      requires n.context.rpcOwnerId in entities && entities[n.context.rpcOwnerId].owner == p
      modifies Repr`inVent, Repr`x, Repr`y, Repr`alive, Repr`name, Repr`skin, Repr`hat, Repr`color
      modifies Repr`pet, Repr`infected, this`trace
      ensures Valid()
      ensures ok <==> !Raises(n, entities, lobbyEntity)
      ensures RpcEffect(n)
      ensures Kept(Repr, n.command.SetName?)
    {
      ok := true;
      if IsActorCommand(n.command) {
        ok := ActOn(p, n);
      }
    }

    // ---- game-data update layer ----

    /** A game-data `Player` update rewrites the five attributes of the registered player, if any. */
    method HandleUpdatePlayer(props: Props) returns (found: bool)
      requires Valid()
      modifies Registered(props.playerId)`name, Registered(props.playerId)`skin, Registered(props.playerId)`hat
      modifies Registered(props.playerId)`color, Registered(props.playerId)`pet, this`trace
      ensures found <==> props.playerId in playerIdMap
      ensures found ==>
        var p := playerIdMap[props.playerId];
        && p.Snapshot() == Updated(old(p.Snapshot()), props)
        && trace == old(trace) + Emitted(Hook.SetName, Some(p), None) + Emitted(Hook.SetSkin, Some(p), None)
                   + Emitted(Hook.SetHat, Some(p), None) + Emitted(Hook.SetColor, Some(p), None)
                   + Emitted(Hook.SetPet, Some(p), None)
      ensures !found ==> trace == old(trace)
    {
      if props.playerId !in playerIdMap {
        return false;
      }
      var p := playerIdMap[props.playerId];
      p.SetName(props.playerName);
      p.SetSkin(props.skinId);
      p.SetHat(props.hatId);
      p.SetColor(props.colorId);
      p.SetPet(props.petId);
      return true;
    }

    // ---- spawn layer ----

    /** The first Lobby spawn records the lobby entity; later ones are echoes and change nothing. */
    method HandleLobbySpawn(children: seq<Child>) returns (ok: bool)
      modifies this`lobbyEntity
      ensures ok <==> !(LobbyUnset(old(lobbyEntity)) && |children| == 0)
      ensures lobbyEntity == if LobbyUnset(old(lobbyEntity)) && |children| > 0 then Some(children[0].netId)
                             else old(lobbyEntity)
    {
      ok := true;
      if LobbyUnset(lobbyEntity) {
        if |children| == 0 {
          return false;
        }
        lobbyEntity := Some(children[0].netId);
      }
    }

    /**
     * proc_node on each deferred leaf of one net id, now that its entity
     * exists, stopping at the first that raises. Every leaf it reaches acts
     * as a live rpc leaf would, in the order it was deferred.
     */
    method Rerun(commands: seq<Node>, netId: int, ghost done: seq<Node>) returns (ok: bool)
      requires Valid() && DeferredFor(commands, netId) && netId in entities && DeadVictims(done)
      modifies this`gameSettings, this`gameHasStarted, this`meetingStartedBy, this`meetingStartedAt
      modifies this`meetingReason, this`entityPreload, this`trace, this`gameId, this`replayLog
      modifies Repr`inVent, Repr`x, Repr`y, Repr`alive, Repr`name, Repr`skin, Repr`hat, Repr`color
      modifies Repr`pet, Repr`infected
      ensures Valid() && entityPreload == old(entityPreload)
      ensures ok <==> NoneRaise(commands, entities)
      ensures ok ==> replayLog == old(replayLog) + commands && DeadVictims(done + commands)
      ensures Kept(Repr, !NoRename(commands))
    {
      ok := true;
      var j := 0;
      while j < |commands|
        invariant 0 <= j <= |commands|
        invariant Valid() && entityPreload == old(entityPreload)
        invariant replayLog == old(replayLog) + commands[..j]
        invariant NoneRaise(commands[..j], entities) && DeadVictims(commands[..j])
        invariant Kept(Repr, !NoRename(commands))
      {
        var m := commands[j];
        assert m in commands;
        ok := ReplayStep(m, netId);
        if !ok {
          return;
        }
        assert commands[..j + 1] == commands[..j] + [m];
        j := j + 1;
      }
      assert commands[..j] == commands;
      forall x | x in done && x.command.MurderPlayer?
        ensures x.props.netId in entities && !entities[x.props.netId].owner.alive
      {
        var v := entities[x.props.netId].owner;
        assert v in Repr && !old(v.alive);
      }
    }

    /**
     * proc_node on one deferred leaf whose owner entity now exists, up to
     * its last line: it acts as a live rpc leaf, as RpcEffect states, and is
     * not deferred again; `next` is the game id that last line records.
     */
    method ReplayLeaf(m: Node, netId: int) returns (ok: bool, next: Option<int>)
      requires Valid() && m.layer == Rpc && m.context.rpcOwnerId == netId && netId in entities
      modifies this`gameSettings, this`gameHasStarted, this`meetingStartedBy, this`meetingStartedAt
      modifies this`meetingReason, this`entityPreload, this`trace
      modifies Repr`inVent, Repr`x, Repr`y, Repr`alive, Repr`name, Repr`skin, Repr`hat, Repr`color
      modifies Repr`pet, Repr`infected
      ensures Valid() && entityPreload == old(entityPreload)
      ensures ok <==> NoneRaise([m], entities)
      ensures ok ==> DeadVictims([m])
      ensures Kept(Repr, m.command.SetName?)
      ensures RpcEffect(m)
      ensures next == if ok then NextGameId(m.props, gameId) else gameId
    {
      ok := ProcRpc(m);
      next := if ok then NextGameId(m.props, gameId) else gameId;
    }

    /** proc_node on one deferred leaf: the transition, then the game id its last line records; the leaf joins the replay log. */
    method ReplayStep(m: Node, netId: int) returns (ok: bool)
      requires Valid() && m.layer == Rpc && m.context.rpcOwnerId == netId && netId in entities
      modifies this`gameSettings, this`gameHasStarted, this`meetingStartedBy, this`meetingStartedAt
      modifies this`meetingReason, this`entityPreload, this`trace, this`gameId, this`replayLog
      modifies Repr`inVent, Repr`x, Repr`y, Repr`alive, Repr`name, Repr`skin, Repr`hat, Repr`color
      modifies Repr`pet, Repr`infected
      ensures Valid() && entityPreload == old(entityPreload)
      ensures ok <==> NoneRaise([m], entities)
      ensures replayLog == old(replayLog) + [m]
      ensures gameId == if ok then NextGameId(m.props, old(gameId)) else old(gameId)
      ensures ok ==> DeadVictims([m])
      ensures Kept(Repr, m.command.SetName?)
    {
      var next;
      ok, next := ReplayLeaf(m, netId);
      gameId, replayLog := next, replayLog + [m];
    }

    /** One net id of the replay: its deferred list is taken out of the buffer, then replayed. */
    method ReplayKey(netId: int, ghost pre: map<int, seq<Node>>, ghost keys: seq<int>, ghost i: nat) returns (ok: bool)
      requires Valid() && i < |keys| && keys[i] == netId && netId in entities
      requires entityPreload == Drained(pre, keys[..i])
      requires DeadVictims(Replayed(pre, keys[..i]))
      modifies this`gameSettings, this`gameHasStarted, this`meetingStartedBy, this`meetingStartedAt
      modifies this`meetingReason, this`entityPreload, this`trace, this`gameId, this`replayLog
      modifies Repr`inVent, Repr`x, Repr`y, Repr`alive, Repr`name, Repr`skin, Repr`hat, Repr`color
      modifies Repr`pet, Repr`infected
      ensures Valid()
      ensures entityPreload == Drained(pre, keys[..i + 1])
      ensures Replayed(pre, keys[..i]) <= Replayed(pre, keys[..i + 1])
      ensures var commands := Replayed(pre, keys[..i + 1])[|Replayed(pre, keys[..i])|..];
        && (ok <==> NoneRaise(commands, entities))
        && (ok ==> replayLog == old(replayLog) + commands && DeadVictims(Replayed(pre, keys[..i + 1])))
      ensures !ok ==> !NoneRaise(Replayed(pre, keys), entities)
      ensures Kept(Repr, !NoRename(Replayed(pre, keys)))
    {
      ghost var done := Replayed(pre, keys[..i]);
      assert keys[..i + 1][..i] == keys[..i];
      var deferred := if netId in entityPreload then entityPreload[netId] else [];
      assert Replayed(pre, keys[..i + 1]) == done + deferred;
      assert Replayed(pre, keys[..i + 1])[|done|..] == deferred;
      ReplayedPrefix(pre, keys, i + 1);
      PrefixPart(done, deferred, Replayed(pre, keys));
      entityPreload := entityPreload - {netId};
      ok := Rerun(deferred, netId, done);
    }

    /**
     * Replay each deferred leaf of the given net ids once, in order, taking
     * each list out of the buffer before replaying it.
     */
    method ReplayPreloaded(keys: seq<int>) returns (ok: bool)
      requires Valid()
      requires forall i :: 0 <= i < |keys| ==> keys[i] in entities
      modifies this`gameSettings, this`gameHasStarted, this`meetingStartedBy, this`meetingStartedAt
      modifies this`meetingReason, this`entityPreload, this`trace, this`gameId, this`replayLog
      modifies Repr`inVent, Repr`x, Repr`y, Repr`alive, Repr`name, Repr`skin, Repr`hat, Repr`color
      modifies Repr`pet, Repr`infected
      ensures Valid()
      ensures ok <==> NoneRaise(Replayed(old(entityPreload), keys), entities)
      ensures ok ==> entityPreload == Drained(old(entityPreload), keys)
      ensures ok ==> replayLog == old(replayLog) + Replayed(old(entityPreload), keys)
      ensures ok ==> DeadVictims(Replayed(old(entityPreload), keys))
      ensures Kept(Repr, !NoRename(Replayed(old(entityPreload), keys)))
    {
      ok := true;
      var i := 0;
      while i < |keys|
        invariant 0 <= i <= |keys|
        invariant Valid()
        invariant entityPreload == Drained(old(entityPreload), keys[..i])
        invariant replayLog == old(replayLog) + Replayed(old(entityPreload), keys[..i])
        invariant NoneRaise(Replayed(old(entityPreload), keys[..i]), entities)
        invariant DeadVictims(Replayed(old(entityPreload), keys[..i]))
        invariant Kept(Repr, !NoRename(Replayed(old(entityPreload), keys)))
      {
        ok := ReplayKey(keys[i], old(entityPreload), keys, i);
        if !ok {
          return;
        }
        i := i + 1;
      }
      assert keys[..|keys|] == keys;
    }

    /**
     * What spawning the children `cs` for client `cid` did: the player of
     * `cid`, created if unseen, gained exactly the net ids it did not hold,
     * and so did the global index; no other player changed.
     */
    twostate predicate ChildrenSpawned(cid: int, cs: seq<Child>)
      reads this`players, this`clientOrder, this`Repr, this`entities, this`lastSpawnedId, Repr`entities
    {
      && lastSpawnedId == (if |cs| == 0 then old(lastSpawnedId) else Some(cs[|cs| - 1].netId))
      && (|cs| == 0 ==>
            && players == old(players) && clientOrder == old(clientOrder) && Repr == old(Repr)
            && entities == old(entities) && forall q :: q in Repr ==> q.entities == old(q.entities))
      && (|cs| > 0 ==>
            && cid in players && players[cid] in Repr
            && (cid in old(players) ==> players == old(players) && clientOrder == old(clientOrder) && Repr == old(Repr))
            && (cid !in old(players) ==>
                  && fresh(players[cid]) && players == old(players)[cid := players[cid]]
                  && clientOrder == old(clientOrder) + [cid] && Repr == old(Repr) + {players[cid]})
            && var p, held := players[cid], if cid in old(players) then old(players[cid].entities) else map[];
            && p.entities == held + OwnedBy(NewIds(held.Keys, cs), p)
            && entities == old(entities) + OwnedBy(NewIds(held.Keys, cs), p)
            && forall q :: q in Repr && q in old(Repr) && q != p ==> q.entities == old(q.entities))
    }

    /** Each child of a Player spawn becomes an entity of the spawn's client, which is created if unseen. */
    method SpawnChildren(n: Node)
      requires Valid() && IsPlayerSpawn(n)
      modifies this`players, this`clientOrder, this`Repr, this`entities, this`lastSpawnedId, Repr`entities
      ensures Valid() && fresh(Repr - old(Repr))
      ensures ChildrenSpawned(n.props.clientId, n.context.children)
      ensures forall q :: q in old(Repr) ==> q.name == old(q.name)
      ensures |n.context.children| > 0 && n.props.clientId !in old(players) ==> players[n.props.clientId].name == None
      ensures |n.context.children| > 0 && n.props.clientId !in old(players) ==>
        players[n.props.clientId].clientId == n.props.clientId && players[n.props.clientId].lastMoveSeq == -1
      ensures forall q :: q in old(Repr) ==> q.ClientKept() && q.BindingKept()
    {
      var cs := n.context.children;
      var cid := n.props.clientId;
      if |cs| == 0 {
        return;
      }
      ghost var held := if cid in players then players[cid].entities else map[];
      // the first child finds or creates the player; the rest only add entities to it
      SpawnEntity(n, cs[0]);
      var p := players[cid];
      OwnedByFirst(held, old(entities), cs[0], p);
      assert [cs[0]] == cs[..1];
      SpawnRest(n, p, held, old(entities));
    }

    /** The children after the first, for the player the first one found or created. */
    method SpawnRest(n: Node, p: Player, ghost held: map<int, Entity>, ghost base: map<int, Entity>)
      requires Valid() && IsPlayerSpawn(n) && |n.context.children| > 0
      requires n.props.clientId in players && players[n.props.clientId] == p && p in Repr
      requires p.entities == held + OwnedBy(NewIds(held.Keys, n.context.children[..1]), p)
      requires entities == base + OwnedBy(NewIds(held.Keys, n.context.children[..1]), p)
      requires lastSpawnedId == Some(n.context.children[0].netId)
      modifies this`players, this`clientOrder, this`Repr, this`entities, this`lastSpawnedId, Repr`entities
      ensures Valid() && players == old(players) && clientOrder == old(clientOrder) && Repr == old(Repr)
      ensures lastSpawnedId == Some(n.context.children[|n.context.children| - 1].netId)
      ensures p.entities == held + OwnedBy(NewIds(held.Keys, n.context.children), p)
      ensures entities == base + OwnedBy(NewIds(held.Keys, n.context.children), p)
      ensures forall q :: q in Repr && q != p ==> q.entities == old(q.entities)
    {
      var cs := n.context.children;
      assert cs[..|cs|] == cs;
      var i := 1;
      while i < |cs|
        invariant 1 <= i <= |cs|
        invariant Valid() && players == old(players) && clientOrder == old(clientOrder) && Repr == old(Repr)
        invariant lastSpawnedId == Some(cs[i - 1].netId)
        invariant p.entities == held + OwnedBy(NewIds(held.Keys, cs[..i]), p)
        invariant entities == base + OwnedBy(NewIds(held.Keys, cs[..i]), p)
        invariant forall q :: q in Repr && q != p ==> q.entities == old(q.entities)
      {
        SpawnNext(n, p, held, base, i);
        i := i + 1;
      }
    }

    /** One child after the first: the player `p` gains its net id unless it holds it already. */
    method SpawnNext(n: Node, p: Player, ghost held: map<int, Entity>, ghost base: map<int, Entity>, i: nat)
      requires Valid() && IsPlayerSpawn(n) && 0 < i < |n.context.children|
      requires n.props.clientId in players && players[n.props.clientId] == p && p in Repr
      requires p.entities == held + OwnedBy(NewIds(held.Keys, n.context.children[..i]), p)
      requires entities == base + OwnedBy(NewIds(held.Keys, n.context.children[..i]), p)
      modifies this`players, this`clientOrder, this`Repr, this`entities, this`lastSpawnedId, Repr`entities
      ensures Valid() && players == old(players) && clientOrder == old(clientOrder) && Repr == old(Repr)
      ensures lastSpawnedId == Some(n.context.children[i].netId)
      ensures p.entities == held + OwnedBy(NewIds(held.Keys, n.context.children[..i + 1]), p)
      ensures entities == base + OwnedBy(NewIds(held.Keys, n.context.children[..i + 1]), p)
      ensures forall q :: q in Repr && q != p ==> q.entities == old(q.entities)
    {
      var cs := n.context.children;
      assert cs[..i + 1] == cs[..i] + [cs[i]];
      OwnedByStep(held, base, cs[..i], cs[i], p);
      SpawnEntity(n, cs[i]);
    }

    /** The spawn's player takes its stable id and the net ids of its three entities. */
    method BindSpawnedPlayer(p: Player, n: Node)
      requires Valid() && p in Repr && WellFormedPlayerSpawn(n)
      modifies p`playerId, p`name, this`playerIdMap, this`trace
      modifies p`playerControlNetId, p`playerPhysicsNetId, p`networkTransformNetId
      ensures Valid()
      ensures var cs := n.context.children;
        && p.playerId == cs[0].data[1] && playerIdMap == old(playerIdMap)[cs[0].data[1] := p]
        && p.name == AssignedName(usernameLookup, cs[0].data[1], old(p.name))
        && trace == old(trace) + AssignEvents(p, cs[0].data[1], old(p.name))
        && p.playerControlNetId == Some(cs[0].netId)
        && p.playerPhysicsNetId == Some(cs[1].netId)
        && p.networkTransformNetId == Some(cs[2].netId)
    {
      var cs := n.context.children;
      p.AssignId(cs[0].data[1]);
      p.playerControlNetId := Some(cs[0].netId);
      p.playerPhysicsNetId := Some(cs[1].netId);
      p.networkTransformNetId := Some(cs[2].netId);
    }

    /** The player a Player spawn binds, once its children are entities: the spawn client's player. */
    ghost function SpawnOwner(n: Node): set<Player>
      reads this`players, this`Repr
    {
      if n.props.clientId in players && players[n.props.clientId] in Repr then {players[n.props.clientId]} else {}
    }

    /** The checks and binding of a Player spawn once its children are entities. */
    method BindPlayerSpawn(n: Node) returns (ok: bool)
      requires Valid() && IsPlayerSpawn(n)
      requires |n.context.children| > 0 ==>
        && n.props.clientId in players
        && forall j :: 0 <= j < |n.context.children| ==>
             n.context.children[j].netId in players[n.props.clientId].entities && n.context.children[j].netId in entities
      modifies this`playerIdMap, this`trace, SpawnOwner(n)`playerId, Repr`name
      modifies SpawnOwner(n)`playerControlNetId, SpawnOwner(n)`playerPhysicsNetId, SpawnOwner(n)`networkTransformNetId
      ensures Valid()
      ensures ok <==> WellFormedPlayerSpawn(n) && n.props.clientId in players
      ensures ok ==> SpawnedAs(players[n.props.clientId], n)
      ensures ok ==> var p, pid := players[n.props.clientId], n.context.children[0].data[1];
        && p.name == AssignedName(usernameLookup, pid, old(p.name))
        && trace == old(trace) + AssignEvents(p, pid, old(p.name))
      ensures !ok ==> trace == old(trace) && playerIdMap == old(playerIdMap)
      ensures !ok ==> forall q :: q in old(Repr) ==> unchanged(q)
      ensures ok ==> playerIdMap == old(playerIdMap)[n.context.children[0].data[1] := players[n.props.clientId]]
      ensures forall q :: q in Repr && q.name != old(q.name) ==> ok && q == players[n.props.clientId]
    {
      var cs := n.context.children;
      var cid := n.props.clientId;
      if cid !in players {
        return false;   // no child spawned the player: the lookup raises
      }
      var p := players[cid];
      if |cs| != 3 {
        return false;   // the three-way unpack raises
      }
      if |cs[0].data| != 2 {
        return false;   // struct.unpack("BB") raises
      }
      BindSpawnedPlayer(p, n);
      ok := true;
    }

    /**
     * A Player spawn once its children are entities: bind the player, then
     * replay the leaves deferred under its three net ids.
     */
    method BindAndReplay(n: Node) returns (ok: bool)
      requires Valid() && IsPlayerSpawn(n)
      requires |n.context.children| > 0 ==>
        && n.props.clientId in players
        && forall j :: 0 <= j < |n.context.children| ==>
             n.context.children[j].netId in players[n.props.clientId].entities && n.context.children[j].netId in entities
      modifies this`playerIdMap, SpawnOwner(n)`playerId, SpawnOwner(n)`playerControlNetId
      modifies SpawnOwner(n)`playerPhysicsNetId, SpawnOwner(n)`networkTransformNetId
      modifies this`gameSettings, this`gameHasStarted, this`meetingStartedBy, this`meetingStartedAt
      modifies this`meetingReason, this`entityPreload, this`trace, this`gameId, this`replayLog
      modifies Repr`inVent, Repr`x, Repr`y, Repr`alive, Repr`name, Repr`skin, Repr`hat, Repr`color
      modifies Repr`pet, Repr`infected
      ensures Valid()
      ensures var replayed := Replayed(old(entityPreload), NetIds(n.context.children));
        && (ok <==> WellFormedPlayerSpawn(n) && NoneRaise(replayed, entities))
        && (ok ==> entityPreload == Drained(old(entityPreload), NetIds(n.context.children)))
        && (ok ==> replayLog == old(replayLog) + replayed && DeadVictims(replayed))
      ensures !WellFormedPlayerSpawn(n) ==>
        && trace == old(trace) && playerIdMap == old(playerIdMap) && entityPreload == old(entityPreload)
        && replayLog == old(replayLog)
      ensures !WellFormedPlayerSpawn(n) ==>
        && MeetingKept() && gameId == old(gameId) && forall q :: q in old(Repr) ==> q.AllButEntities()
      ensures WellFormedPlayerSpawn(n) ==> SpawnedAs(players[n.props.clientId], n)
      ensures WellFormedPlayerSpawn(n) ==>
        playerIdMap == old(playerIdMap)[n.context.children[0].data[1] := players[n.props.clientId]]
      ensures WellFormedPlayerSpawn(n) ==> var p := players[n.props.clientId];
        forall q :: q in old(Repr) ==> q.ClientKept() && (q != p ==> q.BindingKept())
      ensures WellFormedPlayerSpawn(n) ==> var p, pid := players[n.props.clientId], n.context.children[0].data[1];
        old(trace) + AssignEvents(p, pid, old(p.name)) <= trace
      ensures WellFormedPlayerSpawn(n) ==> var p, pid := players[n.props.clientId], n.context.children[0].data[1];
        NoRename(Replayed(old(entityPreload), NetIds(n.context.children))) ==>
          p.name == AssignedName(usernameLookup, pid, old(p.name))
    {
      ghost var p := if n.props.clientId in players then players[n.props.clientId] else null;
      ghost var before := if p != null then p.name else None;
      ok := BindPlayerSpawn(n);
      if ok {
        ghost var bound := trace;
        ok := ReplaySpawned(n, p);
        assert bound <= trace;
      }
    }

    /** The replay that ends a Player spawn, for its bound player `p`. */
    method ReplaySpawned(n: Node, ghost p: Player) returns (ok: bool)
      requires Valid() && SpawnedAs(p, n)
      modifies this`gameSettings, this`gameHasStarted, this`meetingStartedBy, this`meetingStartedAt
      modifies this`meetingReason, this`entityPreload, this`trace, this`gameId, this`replayLog
      modifies Repr`inVent, Repr`x, Repr`y, Repr`alive, Repr`name, Repr`skin, Repr`hat, Repr`color
      modifies Repr`pet, Repr`infected
      ensures Valid() && SpawnedAs(p, n) && old(trace) <= trace
      ensures var replayed := Replayed(old(entityPreload), NetIds(n.context.children));
        && (ok <==> NoneRaise(replayed, entities))
        && (ok ==> entityPreload == Drained(old(entityPreload), NetIds(n.context.children)))
        && (ok ==> replayLog == old(replayLog) + replayed && DeadVictims(replayed))
        && (NoRename(replayed) ==> p.name == old(p.name))
    {
      var cs := n.context.children;
      var ids := [cs[0].netId, cs[1].netId, cs[2].netId];
      assert ids == NetIds(cs);
      ok := ReplayPreloaded(ids);
    }

    /**
     * What a Player spawn did, the game id aside: every child became an
     * entity of the spawn's client (created if unseen); a well-formed spawn
     * then bound the player to its stable id (the control child's second
     * payload byte), whose username-list entry names a player without a
     * name, and to its three entities, and replayed the leaves deferred
     * under their net ids, each once, in order. `ok` is false where the
     * source raises: on a malformed spawn, or where a replayed leaf raises.
     */
    twostate predicate PlayerSpawned(n: Node, ok: bool)
      reads this`players, this`clientOrder, this`Repr, this`entities, this`lastSpawnedId, Repr`entities
      reads this`playerIdMap, this`entityPreload, this`replayLog, this`trace, this`usernameLookup
      reads players.Values`playerId, players.Values`name, players.Values`entities, players.Values`playerControlNetId
      reads players.Values`playerPhysicsNetId, players.Values`networkTransformNetId
      reads (set k | k in entities :: entities[k].owner)`alive
    {
      var cid, cs := n.props.clientId, n.context.children;
      var replayed := Replayed(old(entityPreload), NetIds(cs));
      && ChildrenSpawned(cid, cs)
      && (ok <==> WellFormedPlayerSpawn(n) && NoneRaise(replayed, entities))
      && (ok ==> entityPreload == Drained(old(entityPreload), NetIds(cs)))
      && (ok ==> replayLog == old(replayLog) + replayed && DeadVictims(replayed))
      && (!WellFormedPlayerSpawn(n) ==>
            && trace == old(trace) && playerIdMap == old(playerIdMap) && entityPreload == old(entityPreload)
            && replayLog == old(replayLog))
      && (WellFormedPlayerSpawn(n) ==>
            var p, pid := players[cid], cs[0].data[1];
            var before := if cid in old(players) then old(players[cid].name) else None;
            && SpawnedAs(p, n)
            && old(trace) + AssignEvents(p, pid, before) <= trace
            && (NoRename(replayed) ==> p.name == AssignedName(usernameLookup, pid, before)))
    }

    /**
     * What a Player spawn leaves alone: the lobby, the game-data entities,
     * the client ids and the username lookup are never written; a malformed
     * spawn raises before the meeting record, the settings, the game id or
     * any attribute of an existing player other than its entities change.
     */
    twostate predicate SpawnKept(n: Node)
      reads this`lobbyEntity, this`gameDataEntities, this`selfClientId, this`hostClientId, this`usernameLookup
      reads this`gameHasStarted, this`meetingStartedBy, this`meetingStartedAt, this`meetingReason, this`gameSettings
      reads this`gameId, this`players, this`playerIdMap, this`Repr, Repr
    {
      && lobbyEntity == old(lobbyEntity) && gameDataEntities == old(gameDataEntities)
      && selfClientId == old(selfClientId) && hostClientId == old(hostClientId)
      && usernameLookup == old(usernameLookup)
      && (!WellFormedPlayerSpawn(n) ==>
            && MeetingKept() && gameId == old(gameId)
            && forall q :: q in Repr && q in old(Repr) ==> q.AllButEntities())
      && (WellFormedPlayerSpawn(n) ==> SpawnBound(n))
    }

    /**
     * What a well-formed Player spawn does to the ids: the stable id index
     * gains the spawn's player under its stable id and nothing else; no
     * player's client id or movement sequence number changes, a player
     * created by the spawn has the spawn's client id and the initial
     * sequence number, and only the spawn's player takes a new stable id
     * and entity net ids.
     */
    twostate predicate SpawnBound(n: Node)
      requires WellFormedPlayerSpawn(n)
      reads this`players, this`playerIdMap, this`Repr, Repr`clientId, Repr`lastMoveSeq
      reads Repr`playerId, Repr`playerControlNetId, Repr`playerPhysicsNetId, Repr`networkTransformNetId
    {
      var cid := n.props.clientId;
      && cid in players && players[cid] in Repr
      && var p := players[cid];
      && playerIdMap == old(playerIdMap)[n.context.children[0].data[1] := p]
      && (p !in old(Repr) ==> p.clientId == cid && p.lastMoveSeq == -1)
      && forall q :: q in Repr && q in old(Repr) ==> q.ClientKept() && (q != p ==> q.BindingKept())
    }

    /**
     * A Player spawn: the children are spawned, then the player is bound and
     * its deferred leaves replayed, as PlayerSpawned states.
     */
    method HandlePlayerSpawn(n: Node) returns (ok: bool)
      requires Valid() && IsPlayerSpawn(n)
      modifies this`players, this`clientOrder, this`Repr, this`entities, this`lastSpawnedId, this`playerIdMap
      modifies this`gameSettings, this`gameHasStarted, this`meetingStartedBy, this`meetingStartedAt
      modifies this`meetingReason, this`entityPreload, this`trace, this`gameId, this`replayLog, Repr
      ensures Valid() && fresh(Repr - old(Repr))
      ensures PlayerSpawned(n, ok) && SpawnKept(n)
    {
      ok := SpawnPlayer(n);
    }

    /** The steps of a Player spawn, as PlayerSpawned states. */
    method SpawnPlayer(n: Node) returns (ok: bool)
      requires Valid() && IsPlayerSpawn(n)
      modifies this`players, this`clientOrder, this`Repr, this`entities, this`lastSpawnedId, this`playerIdMap
      modifies this`gameSettings, this`gameHasStarted, this`meetingStartedBy, this`meetingStartedAt
      modifies this`meetingReason, this`entityPreload, this`trace, this`gameId, this`replayLog, Repr
      ensures Valid() && fresh(Repr - old(Repr))
      ensures PlayerSpawned(n, ok)
      ensures !WellFormedPlayerSpawn(n) ==> MeetingKept() && gameId == old(gameId)
      ensures !WellFormedPlayerSpawn(n) ==> forall q :: q in Repr && q in old(Repr) ==> q.AllButEntities()
      ensures WellFormedPlayerSpawn(n) ==> SpawnBound(n)
    {
      SpawnChildren(n);
      label Spawned:
      ok := BindAndReplay(n);
      if !WellFormedPlayerSpawn(n) {
        forall q | q in Repr && q in old(Repr) ensures q.AllButEntities() {
          assert q in old@Spawned(Repr) && q.AllButEntities@Spawned();
        }
      }
    }

    /** The net ids of a spawn's children, in order. */
    function NetIds(cs: seq<Child>): (ids: seq<int>)
      ensures |ids| == |cs| && forall i :: 0 <= i < |cs| ==> ids[i] == cs[i].netId
    {
      if cs == [] then [] else [cs[0].netId] + NetIds(cs[1..])
    }

    /** After a Player spawn: `p` is the spawn's player, holds the stable id and the three entities, in order. */
    ghost predicate SpawnedAs(p: Player, n: Node)
      reads this`players, this`playerIdMap, this`entities, p`playerId, p`entities
      reads p`playerControlNetId, p`playerPhysicsNetId, p`networkTransformNetId
    {
      var cs := n.context.children;
      && WellFormedPlayerSpawn(n)
      && n.props.clientId in players && players[n.props.clientId] == p
      && var pid := cs[0].data[1];
      && p.playerId == pid && pid in playerIdMap && playerIdMap[pid] == p
      && p.playerControlNetId == Some(cs[0].netId)
      && p.playerPhysicsNetId == Some(cs[1].netId)
      && p.networkTransformNetId == Some(cs[2].netId)
      && cs[0].netId in p.entities && cs[1].netId in p.entities && cs[2].netId in p.entities
      && cs[0].netId in entities && cs[1].netId in entities && cs[2].netId in entities
    }

    /** The live players whose stable id is `pid`. */
    function Named(pid: int): set<Player>
      reads this`players, players.Values`playerId
    {
      set q | q in players.Values && q.playerId == pid
    }

    /** The stable id of each live player, by client id. */
    ghost function PlayerIds(): (ids: map<int, int>)
      reads this`players, players.Values`playerId
      ensures ids.Keys == players.Keys
      ensures forall c :: c in players ==> ids[c] == players[c].playerId
    {
      map c | c in players :: players[c].playerId
    }

    /** One `SetName` callback for each client of `order` whose stable id in `ids` is `pid`, in that order. */
    function RenameEvents(pid: int, order: seq<int>, ps: map<int, Player>, ids: map<int, int>): seq<Fired> {
      if order == [] then []
      else
        var c := order[|order| - 1];
        RenameEvents(pid, order[..|order| - 1], ps, ids)
          + (if c in ps && c in ids && ids[c] == pid then Emitted(Hook.SetName, Some(ps[c]), None) else [])
    }

    /** The callbacks of a whole username list: each record renames in client order. */
    function UserListEvents(recs: seq<UserList.UserRecord>, order: seq<int>, ps: map<int, Player>, ids: map<int, int>): seq<Fired> {
      if recs == [] then []
      else UserListEvents(recs[..|recs| - 1], order, ps, ids) + RenameEvents(recs[|recs| - 1].playerId, order, ps, ids)
    }

    /** One pass of the rename loop: `p` takes the name exactly when its stable id is `pid`. */
    method RenameIfMatching(p: Player, pid: int, newName: Name)
      requires p.game == this
      modifies When(p.playerId == pid, p)`name, this`trace
      ensures p.playerId == pid ==> p.name == Some(newName)
      ensures trace == old(trace) + if p.playerId == pid then Emitted(Hook.SetName, Some(p), None) else []
    {
      if p.playerId == pid {
        p.SetName(newName);
      } else {
        assert trace == old(trace) + [];
      }
    }

    /** Every live player belongs to this session and to its footprint. */
    ghost predicate Linked()
      reads this`players, this`Repr
    {
      (forall c :: c in players ==> players[c].game == this) && players.Values <= Repr
    }

    /** Every entry of the client order is a live client. */
    ghost predicate Listed()
      reads this`players, this`clientOrder
    {
      forall k :: 0 <= k < |clientOrder| ==> clientOrder[k] in players
    }

    /** Rename every live player whose stable id is `pid`, visiting the players in key order. */
    method RenameMatching(pid: int, newName: Name)
      requires Listed() && Linked()
      modifies Named(pid)`name, this`trace
      ensures forall k :: 0 <= k < |clientOrder| && players[clientOrder[k]].playerId == pid ==>
        players[clientOrder[k]].name == Some(newName)
      ensures trace == old(trace) + RenameEvents(pid, clientOrder, players, PlayerIds())
    {
      ghost var ids := PlayerIds();
      var j := 0;
      while j < |clientOrder|
        invariant 0 <= j <= |clientOrder|
        invariant forall k :: 0 <= k < j ==>
          players[clientOrder[k]].playerId == pid ==> players[clientOrder[k]].name == Some(newName)
        invariant trace == old(trace) + RenameEvents(pid, clientOrder[..j], players, ids)
        invariant PlayerIds() == ids
      {
        var c := clientOrder[j];
        var p := players[c];
        assert clientOrder[..j + 1][..j] == clientOrder[..j];
        ghost var done := RenameEvents(pid, clientOrder[..j], players, ids);
        RenameIfMatching(p, pid, newName);
        assert (old(trace) + done) + (if p.playerId == pid then Emitted(Hook.SetName, Some(p), None) else [])
            == old(trace) + (done + if p.playerId == pid then Emitted(Hook.SetName, Some(p), None) else []);
        j := j + 1;
      }
      assert clientOrder[..|clientOrder|] == clientOrder;
    }

    /** One record of the username list: store the name, then rename the live players with its id. */
    method StoreRecord(rec: UserList.UserRecord)
      requires Ordered() && Linked()
      modifies this`usernameLookup, this`trace, Named(rec.playerId)`name
      ensures usernameLookup == old(usernameLookup)[rec.playerId := rec.name]
      ensures forall c :: c in players ==>
        players[c].name == if players[c].playerId == rec.playerId then Some(rec.name) else old(players[c].name)
      ensures trace == old(trace) + RenameEvents(rec.playerId, clientOrder, players, PlayerIds())
    {
      usernameLookup := usernameLookup[rec.playerId := rec.name];
      OrderIndexes(clientOrder, players);
      RenameMatching(rec.playerId, rec.name);
      forall c | c in players && players[c].playerId == rec.playerId ensures players[c].name == Some(rec.name) {
        assert c in clientOrder;
        var k :| 0 <= k < |clientOrder| && clientOrder[k] == c;
      }
    }

    /**
     * The username list of a GameData spawn: each record is stored in the
     * lookup and renames the live players with its id, until the count is
     * reached or a record cannot be read (which raises, keeping what was done).
     */
    method LoadUserList(data: seq<byte>) returns (ok: bool)
      requires Ordered() && Linked()
      modifies this`usernameLookup, this`trace, Repr`name
      ensures ok == UserList.DecodeUserList(data).1
      ensures var recs := UserList.DecodeUserList(data).0;
        && usernameLookup == UserList.LookupAfter(old(usernameLookup), recs)
        && (forall c :: c in players ==> players[c].name == UserList.NameAfter(old(players[c].name), players[c].playerId, recs))
        && trace == old(trace) + UserListEvents(recs, clientOrder, players, PlayerIds())
      ensures forall q :: q in Repr && q !in players.Values ==> q.name == old(q.name)
    {
      var recs, complete := UserList.ReadUserList(data);
      ghost var ids := PlayerIds();
      var i := 0;
      while i < |recs|
        invariant 0 <= i <= |recs| && PlayerIds() == ids
        invariant usernameLookup == UserList.LookupAfter(old(usernameLookup), recs[..i])
        invariant forall c :: c in players ==>
          players[c].name == UserList.NameAfter(old(players[c].name), players[c].playerId, recs[..i])
        invariant trace == old(trace) + UserListEvents(recs[..i], clientOrder, players, ids)
        invariant forall q :: q in Repr && q !in players.Values ==> q.name == old(q.name)
      {
        ghost var done := UserListEvents(recs[..i], clientOrder, players, ids);
        StoreRecord(recs[i]);
        assert recs[..i + 1][..i] == recs[..i];
        ghost var step := RenameEvents(recs[i].playerId, clientOrder, players, ids);
        assert UserListEvents(recs[..i + 1], clientOrder, players, ids) == done + step;
        AppendAssoc(old(trace), done, step);
        i := i + 1;
      }
      assert recs[..|recs|] == recs;
      ok := complete;
    }

    /** A GameData spawn: record both children, then read the first child's payload as the username list. */
    method HandleGameDataSpawn(children: seq<Child>) returns (ok: bool)
      requires Valid()
      modifies this`lastSpawnedId, this`gameDataEntities, this`usernameLookup, this`trace, Repr`name
      ensures lastSpawnedId == if |children| == 0 then old(lastSpawnedId) else Some(children[|children| - 1].netId)
      ensures |children| != 2 ==>
        && !ok && gameDataEntities == old(gameDataEntities)
        && usernameLookup == old(usernameLookup) && trace == old(trace)
        && forall c :: c in players ==> players[c].name == old(players[c].name)
      ensures |children| == 2 ==>
        var (recs, complete) := UserList.DecodeUserList(children[0].data);
        && ok == complete
        && gameDataEntities == [children[0].netId, children[1].netId]
        && usernameLookup == UserList.LookupAfter(old(usernameLookup), recs)
        && (forall c :: c in players ==> players[c].name == UserList.NameAfter(old(players[c].name), players[c].playerId, recs))
        && trace == old(trace) + UserListEvents(recs, clientOrder, players, PlayerIds())
      ensures forall q :: q in Repr && q !in players.Values ==> unchanged(q)
      ensures forall q :: q in Repr && q in players.Values ==> q.AllButName()
    {
      var i := 0;
      while i < |children|
        invariant 0 <= i <= |children|
        invariant lastSpawnedId == if i == 0 then old(lastSpawnedId) else Some(children[i - 1].netId)
        modifies this`lastSpawnedId
      {
        // spawn_entity under a non-Player spawn only records the id
        lastSpawnedId := Some(children[i].netId);
        i := i + 1;
      }
      if |children| != 2 {
        return false;   // the two-way unpack raises
      }
      gameDataEntities := [children[0].netId, children[1].netId];
      ok := LoadUserList(children[0].data);
    }

    // ---- the dispatcher ----

    /**
     * What proc_node's transition did with one leaf, before its last line:
     * the handler its parent layer's kind and its command name select acted
     * as the layer's effect predicate states. `ok` is false exactly where the
     * source raises (for a Player spawn, where PlayerSpawned says). The game
     * id is reset with the session and otherwise only a Player spawn's replay
     * moves it.
     */
    twostate predicate LeafHandled(n: Node, ok: bool)
      reads this, Repr, players.Values, (set k | k in entities :: entities[k].owner)
      reads Victim(n), InfectedTargets(n.props.playerIdList), ExileTarget(n.props.exiledPlayerId)
      reads Owner(n.context.rpcOwnerId), Owner(n.props.ownerId), MoveTarget(n.props.ownerId)
      reads Registered(n.props.playerId)
    {
      && (!IsPlayerSpawn(n) ==> (ok <==> !Raises(n, old(entities), old(lobbyEntity))))
      && (n.layer == Inner ==> InnerEffect(n))
      && (n.layer == Layer.GameData || n.layer == Rpc || n.layer == UpdateGameData ==> EntityLeafEffect(n))
      && (n.layer == Spawn ==> SpawnEffect(n, ok))
      && (n.layer == Hazel || n.layer == SpawnSubcommand ==>
            Untouched() && entityPreload == old(entityPreload))
      && (IsResetCommand(n) ==> tick == 0 && time == 0)
      && (!IsResetCommand(n) ==> tick == old(tick) && time == old(time))
      && (!IsPlayerSpawn(n) ==> gameId == if IsResetCommand(n) then None else old(gameId))
      && (!IsPlayerSpawn(n) ==> replayLog == old(replayLog))
    }

    /**
     * proc_node up to its last line: the transition, as LeafHandled states,
     * and the game id that line records (`next`): the leaf's "gameId" if it
     * has one and the transition did not raise, except after a game-data
     * update naming an unknown player id, which returns before that line.
     */
    method Dispatch(n: Node) returns (ok: bool, next: Option<int>)
      requires Valid()
      modifies this, Repr
      ensures Valid() && fresh(Repr - old(Repr))
      ensures LeafHandled(n, ok)
      ensures next == if ok && !SkipsGameId(n, old(playerIdMap)) then NextGameId(n.props, gameId) else gameId
    {
      var skips := SkipsGameId(n, playerIdMap);
      match n.layer {
        case Hazel | SpawnSubcommand | Inner =>
          ok := ProcSessionNode(n);
        case GameData | Rpc | UpdateGameData =>
          ok := ProcEntityLeaf(n);
        case Spawn =>
          ok := ProcSpawn(n);
      }
      next := if ok && !skips then NextGameId(n.props, gameId) else gameId;
    }

    /**
     * proc_node: the transition, then its last line records the game id.
     * What the transition did is what Dispatch states.
     */
    method ProcNode(n: Node) returns (ok: bool)
      requires Valid()
      modifies this, Repr
      ensures Valid() && fresh(Repr - old(Repr))
      ensures !IsPlayerSpawn(n) ==> (ok <==> !Raises(n, old(entities), old(lobbyEntity)))
      ensures IsResetCommand(n) ==> tick == 0 && time == 0
      ensures !IsResetCommand(n) ==> tick == old(tick) && time == old(time)
      ensures !IsPlayerSpawn(n) ==>
        var before := if IsResetCommand(n) then None else old(gameId);
        gameId == if ok && !SkipsGameId(n, old(playerIdMap)) then NextGameId(n.props, before) else before
      ensures IsPlayerSpawn(n) && ok && n.props.gameId.Some? ==> gameId == n.props.gameId
      ensures procLog == old(procLog) + [(n, ok)]
    {
      var next;
      ok, next := Dispatch(n);
      gameId := next;
      procLog := old(procLog) + [(n, ok)];
    }

    /** The session-level leaves: Hello and the spawn subcommands do nothing, the inner layer acts. */
    method ProcSessionNode(n: Node) returns (ok: bool)
      requires Valid() && (n.layer == Hazel || n.layer == SpawnSubcommand || n.layer == Inner)
      modifies this`players, this`clientOrder, this`entities, this`playerIdMap, this`usernameLookup
      modifies this`entityPreload, this`Repr
      modifies this`gameHasStarted, this`meetingStartedBy, this`meetingStartedAt, this`meetingReason
      modifies this`gameId, this`tick, this`time, this`lastSpawnedId, this`gameSettings, this`lobbyEntity
      modifies this`selfClientId, this`hostClientId, this`trace
      ensures Valid() && fresh(Repr - old(Repr))
      ensures LeafHandled(n, ok)
    {
      ok := true;
      if n.layer == Inner {
        ProcInner(n);
      }
    }

    /**
     * What a leaf addressed to an entity did, the game id aside: a Data leaf
     * moves the player whose network transform it addresses, as MoveStep
     * says; an rpc leaf has its RpcEffect; a game-data Player
     * update rewrites the five attributes of the player registered under its
     * id, and with an unknown id changes nothing. Any other command changes
     * nothing.
     */
    twostate predicate EntityLeafEffect(n: Node)
      reads this`players, this`clientOrder, this`entities, this`playerIdMap, this`tick, this`time
      reads this`usernameLookup, this`lastSpawnedId, this`gameHasStarted, this`meetingStartedBy
      reads this`meetingStartedAt, this`meetingReason, this`gameSettings, this`entityPreload
      reads this`lobbyEntity, this`gameDataEntities, this`trace, this`selfClientId, this`hostClientId
      reads this`Repr, Repr, Victim(n), InfectedTargets(n.props.playerIdList), ExileTarget(n.props.exiledPlayerId)
      reads Owner(n.context.rpcOwnerId), Owner(n.props.ownerId), MoveTarget(n.props.ownerId), Registered(n.props.playerId)
    {
      var c, pid := n.command, n.props.playerId;
      && (n.layer == Layer.GameData && c.Data? ==>
            && IndexesKept() && ScalarsKept() && MeetingKept() && trace == old(trace)
            && entityPreload == old(entityPreload) && Repr == old(Repr)
            && (forall q :: q in Repr && q in MoveTarget(n.props.ownerId) ==>
                  q.Snapshot() == WithMotion(old(q.Snapshot()), Movement.MoveStep(old(q.Position()), n.props.data).0))
            && (forall q :: q in Repr && q !in MoveTarget(n.props.ownerId) ==> unchanged(q)))
      && (n.layer == Rpc ==> RpcEffect(n))
      && (n.layer == UpdateGameData && c.Player? && pid in playerIdMap ==>
            var p := playerIdMap[pid];
            && IndexesKept() && ScalarsKept() && MeetingKept()
            && entityPreload == old(entityPreload) && Repr == old(Repr)
            && (p in Repr ==> p.Snapshot() == Updated(old(p.Snapshot()), n.props))
            && (forall q :: q in Repr && q != p ==> unchanged(q))
            && trace == old(trace) + Emitted(Hook.SetName, Some(p), None) + Emitted(Hook.SetSkin, Some(p), None)
                       + Emitted(Hook.SetHat, Some(p), None) + Emitted(Hook.SetColor, Some(p), None)
                       + Emitted(Hook.SetPet, Some(p), None))
      && ((n.layer == Layer.GameData && !c.Data?) || (n.layer == UpdateGameData && !(c.Player? && pid in playerIdMap)) ==>
            Untouched() && entityPreload == old(entityPreload))
    }

    /** The leaves addressed to entities: movement data, rpc commands and game-data updates. */
    method ProcEntityLeaf(n: Node) returns (ok: bool)
      requires Valid() && (n.layer == Layer.GameData || n.layer == Rpc || n.layer == UpdateGameData)
      modifies this`gameSettings, this`gameHasStarted, this`meetingStartedBy, this`meetingStartedAt
      modifies this`meetingReason, this`entityPreload, this`trace
      modifies Repr`inVent, Repr`x, Repr`y, Repr`alive, Repr`name, Repr`skin, Repr`hat, Repr`color
      modifies Repr`pet, Repr`infected, Repr`lastMoveSeq
      ensures Valid()
      ensures LeafHandled(n, ok)
    {
      if n.layer == Rpc {
        ok := ProcRpcLeaf(n);
      } else {
        ProcDataLeaf(n);
        ok := true;
      }
    }

    /** An rpc-layer leaf, as RpcEffect states. */
    method ProcRpcLeaf(n: Node) returns (ok: bool)
      requires Valid() && n.layer == Rpc
      modifies this`gameSettings, this`gameHasStarted, this`meetingStartedBy, this`meetingStartedAt
      modifies this`meetingReason, this`entityPreload, this`trace
      modifies Repr`inVent, Repr`x, Repr`y, Repr`alive, Repr`name, Repr`skin, Repr`hat, Repr`color
      modifies Repr`pet, Repr`infected
      ensures Valid()
      ensures LeafHandled(n, ok)
    {
      ok := ProcRpc(n);
    }

    /** A leaf of the two game-data layers, which never raises. */
    method ProcDataLeaf(n: Node)
      requires Valid() && (n.layer == Layer.GameData || n.layer == UpdateGameData)
      modifies this`trace, Repr`name, Repr`skin, Repr`hat, Repr`color, Repr`pet, Repr`x, Repr`y, Repr`lastMoveSeq
      ensures LeafHandled(n, true)
    {
      if n.layer == Layer.GameData {
        ProcData(n);
      } else {
        ProcUpdate(n);
      }
    }

    /** A game-data leaf: only Data acts. */
    method ProcData(n: Node)
      requires Valid() && n.layer == Layer.GameData
      modifies Repr`x, Repr`y, Repr`lastMoveSeq
      ensures EntityLeafEffect(n)
    {
      if n.command.Data? {
        HandleData(n.props.ownerId, n.props.data);
      }
    }

    /** A game-data update leaf: only Player acts. */
    method ProcUpdate(n: Node)
      requires Valid() && n.layer == UpdateGameData
      modifies this`trace, Repr`name, Repr`skin, Repr`hat, Repr`color, Repr`pet
      ensures EntityLeafEffect(n)
    {
      if n.command.Player? {
        var found := HandleUpdatePlayer(n.props);
      }
    }

    /**
     * What an inner-layer leaf did, the game id aside: RemovePlayer drops the
     * client (its entities stay indexed) and announces the removed player;
     * StartGame sets the started flag; EndGame announces the end and resets
     * the session; JoinedGame resets it and records the two client ids. Any
     * other command changes nothing.
     */
    twostate predicate InnerEffect(n: Node)
      reads this`players, this`clientOrder, this`entities, this`playerIdMap, this`tick, this`time
      reads this`usernameLookup, this`lastSpawnedId, this`gameHasStarted, this`meetingStartedBy
      reads this`meetingStartedAt, this`meetingReason, this`gameSettings, this`entityPreload
      reads this`lobbyEntity, this`gameDataEntities, this`trace, this`selfClientId, this`hostClientId
      reads this`Repr, this`replayLog
      reads Repr`clientId, Repr`playerId, Repr`color, Repr`name, Repr`skin, Repr`hat, Repr`pet, Repr`alive
      reads Repr`infected, Repr`entities, Repr`playerControlNetId, Repr`playerPhysicsNetId
      reads Repr`networkTransformNetId, Repr`lastMoveSeq, Repr`x, Repr`y, Repr`inVent
    {
      var c, cid := n.command, n.props.ownerId;
      && replayLog == old(replayLog)
      && (c.RemovePlayer? ==>
            && players == old(players) - {cid} && clientOrder == Without(old(clientOrder), cid)
            && playerIdMap == (if cid in old(players) then old(UnregisterIfHeld(playerIdMap, players[cid])) else old(playerIdMap))
            && entities == old(entities) && usernameLookup == old(usernameLookup)
            && ScalarsKept() && MeetingKept() && PlayersKept() && entityPreload == old(entityPreload)
            && trace == old(trace) + GeEvents(Hook.RemovePlayer, if cid in old(players) then Some(old(players[cid])) else None))
      && (c.StartGame? ==>
            && gameHasStarted
            && meetingStartedBy == old(meetingStartedBy) && meetingStartedAt == old(meetingStartedAt)
            && meetingReason == old(meetingReason) && gameSettings == old(gameSettings)
            && IndexesKept() && ScalarsKept() && PlayersKept() && entityPreload == old(entityPreload)
            && trace == old(trace) + GeEvents(Hook.StartGame, None))
      && (c.EndGame? ==>
            && IndexesCleared() && MeetingCleared() && ScalarsCleared() && Repr == {}
            && selfClientId == None && hostClientId == None && gameDataEntities == old(gameDataEntities)
            && trace == old(trace) + GeEvents(Hook.EndGame, None) + Emitted(Hook.Reset, None, None))
      && (c.JoinedGame? ==>
            && IndexesCleared() && MeetingCleared() && ScalarsCleared() && Repr == {}
            && selfClientId == Some(n.props.clientId) && hostClientId == Some(n.props.hostClientId)
            && gameDataEntities == old(gameDataEntities)
            && trace == old(trace) + Emitted(Hook.Reset, None, None) + GeEvents(Hook.JoinedGame, None))
      && (!IsInnerCommand(c) ==> Untouched() && entityPreload == old(entityPreload))
    }

    /** The session-layer leaves: a player leaving, the game starting or ending, joining a game. */
    method ProcInner(n: Node)
      requires Valid() && n.layer == Inner
      modifies this`players, this`clientOrder, this`entities, this`playerIdMap, this`usernameLookup
      modifies this`entityPreload, this`Repr
      modifies this`gameHasStarted, this`meetingStartedBy, this`meetingStartedAt, this`meetingReason
      modifies this`gameId, this`tick, this`time, this`lastSpawnedId, this`gameSettings, this`lobbyEntity
      modifies this`selfClientId, this`hostClientId, this`trace
      ensures Valid() && fresh(Repr - old(Repr))
      ensures InnerEffect(n)
      ensures gameId == if IsResetCommand(n) then None else old(gameId)
      ensures !IsResetCommand(n) ==> tick == old(tick) && time == old(time)
    {
      if IsResetCommand(n) {
        InnerReset(n);
      } else {
        InnerKeep(n);
      }
    }

    /** EndGame and JoinedGame: both reset the session. */
    method InnerReset(n: Node)
      requires Valid() && IsResetCommand(n)
      modifies this`players, this`clientOrder, this`entities, this`playerIdMap, this`usernameLookup
      modifies this`entityPreload, this`Repr
      modifies this`gameHasStarted, this`meetingStartedBy, this`meetingStartedAt, this`meetingReason
      modifies this`gameId, this`tick, this`time, this`lastSpawnedId, this`gameSettings, this`lobbyEntity
      modifies this`selfClientId, this`hostClientId, this`trace
      ensures Valid() && Repr == {}
      ensures InnerEffect(n)
      ensures gameId == None
    {
      if n.command.EndGame? {
        HandleEndGame();
      } else {
        HandleJoinedGame(n.props.clientId, n.props.hostClientId);
      }
    }

    /** RemovePlayer and StartGame; any other inner command changes nothing. */
    method InnerKeep(n: Node)
      requires Valid() && n.layer == Inner && !IsResetCommand(n)
      modifies this`players, this`clientOrder, this`playerIdMap, this`trace, this`gameHasStarted
      ensures Valid()
      ensures InnerEffect(n)
    {
      if n.command.RemovePlayer? {
        HandleRemovePlayer(n.props.ownerId);
      } else if n.command.StartGame? {
        HandleStartGame();
      }
    }

    /**
     * What a spawn-layer leaf did, the game id aside: the first Lobby spawn
     * records the lobby entity; a Player spawn is PlayerSpawned; a GameData
     * spawn records its two children and loads the username list. Any other
     * command changes nothing.
     */
    twostate predicate SpawnEffect(n: Node, ok: bool)
      reads this`players, this`clientOrder, this`entities, this`playerIdMap, this`tick, this`time
      reads this`usernameLookup, this`lastSpawnedId, this`gameHasStarted, this`meetingStartedBy
      reads this`meetingStartedAt, this`meetingReason, this`gameSettings, this`entityPreload
      reads this`lobbyEntity, this`gameDataEntities, this`trace, this`selfClientId, this`hostClientId
      reads this`Repr, this`replayLog, this`gameId
      reads Repr`clientId, Repr`playerId, Repr`color, Repr`name, Repr`skin, Repr`hat, Repr`pet, Repr`alive
      reads Repr`infected, Repr`entities, Repr`playerControlNetId, Repr`playerPhysicsNetId
      reads Repr`networkTransformNetId, Repr`lastMoveSeq, Repr`x, Repr`y, Repr`inVent
      reads players.Values`playerId, players.Values`name, players.Values`entities, players.Values`playerControlNetId
      reads players.Values`playerPhysicsNetId, players.Values`networkTransformNetId
      reads (set k | k in entities :: entities[k].owner)`alive, Repr
    {
      var c, cs := n.command, n.context.children;
      && (!c.Player? ==> entityPreload == old(entityPreload))
      && (c.Lobby? ==>
            && IndexesKept() && MeetingKept() && PlayersKept() && trace == old(trace)
            && tick == old(tick) && time == old(time) && lastSpawnedId == old(lastSpawnedId)
            && gameDataEntities == old(gameDataEntities)
            && selfClientId == old(selfClientId) && hostClientId == old(hostClientId)
            && lobbyEntity == (if LobbyUnset(old(lobbyEntity)) && |cs| > 0 then Some(cs[0].netId) else old(lobbyEntity)))
      && (c.Player? ==> PlayerSpawned(n, ok) && SpawnKept(n))
      && (c.GameData? ==>
            && players == old(players) && clientOrder == old(clientOrder) && entities == old(entities)
            && playerIdMap == old(playerIdMap) && Repr == old(Repr) && MeetingKept()
            && tick == old(tick) && time == old(time) && lobbyEntity == old(lobbyEntity)
            && selfClientId == old(selfClientId) && hostClientId == old(hostClientId)
            && (forall q :: q in Repr && q !in players.Values ==> unchanged(q))
            && (forall q :: q in Repr && q in players.Values ==> q.AllButName())
            && lastSpawnedId == (if |cs| == 0 then old(lastSpawnedId) else Some(cs[|cs| - 1].netId))
            && (|cs| != 2 ==>
                  && gameDataEntities == old(gameDataEntities) && usernameLookup == old(usernameLookup)
                  && trace == old(trace) && forall k :: k in players ==> players[k].name == old(players[k].name))
            && (|cs| == 2 ==>
                  var recs := UserList.DecodeUserList(cs[0].data).0;
                  && gameDataEntities == [cs[0].netId, cs[1].netId]
                  && usernameLookup == UserList.LookupAfter(old(usernameLookup), recs)
                  && (forall k :: k in players ==> players[k].name == UserList.NameAfter(old(players[k].name), players[k].playerId, recs))
                  && trace == old(trace) + UserListEvents(recs, clientOrder, players, PlayerIds())))
      && (!c.Lobby? && !c.Player? && !c.GameData? ==> Untouched())
    }

    /** The spawn-layer leaves: a player, or the lobby, the game data and the kinds the engine ignores. */
    method ProcSpawn(n: Node) returns (ok: bool)
      requires Valid() && n.layer == Spawn
      modifies this`players, this`clientOrder, this`Repr, this`entities, this`lastSpawnedId, this`playerIdMap
      modifies this`gameSettings, this`gameHasStarted, this`meetingStartedBy, this`meetingStartedAt
      modifies this`meetingReason, this`entityPreload, this`trace, this`gameId, this`lobbyEntity
      modifies this`gameDataEntities, this`usernameLookup, this`replayLog, Repr
      ensures Valid() && fresh(Repr - old(Repr))
      ensures LeafHandled(n, ok)
    {
      if n.command.Player? {
        ok := ProcPlayerSpawn(n);
      } else {
        ok := ProcOtherSpawn(n);
      }
    }

    /** A Player spawn, as PlayerSpawned states. */
    method ProcPlayerSpawn(n: Node) returns (ok: bool)
      requires Valid() && IsPlayerSpawn(n)
      modifies this`players, this`clientOrder, this`Repr, this`entities, this`lastSpawnedId, this`playerIdMap
      modifies this`gameSettings, this`gameHasStarted, this`meetingStartedBy, this`meetingStartedAt
      modifies this`meetingReason, this`entityPreload, this`trace, this`gameId, this`replayLog, Repr
      ensures Valid() && fresh(Repr - old(Repr))
      ensures LeafHandled(n, ok)
    {
      ok := HandlePlayerSpawn(n);
    }

    /** The other spawn-layer leaves: the lobby and the game data act, any other kind is ignored. */
    method ProcOtherSpawn(n: Node) returns (ok: bool)
      requires Valid() && n.layer == Spawn && !n.command.Player?
      modifies this`lastSpawnedId, this`gameDataEntities, this`usernameLookup, this`trace, Repr`name
      modifies this`lobbyEntity
      ensures Valid()
      ensures LeafHandled(n, ok)
    {
      ok := true;
      if n.command.Lobby? {
        ok := ProcLobbySpawn(n);
      } else if n.command.GameData? {
        ok := ProcGameDataSpawn(n);
      }
    }

    /** A Lobby spawn, as HandleLobbySpawn states. */
    method ProcLobbySpawn(n: Node) returns (ok: bool)
      requires Valid() && n.layer == Spawn && n.command.Lobby?
      modifies this`lobbyEntity
      ensures LeafHandled(n, ok)
    {
      ok := HandleLobbySpawn(n.context.children);
    }

    /** A GameData spawn, as HandleGameDataSpawn states. */
    method ProcGameDataSpawn(n: Node) returns (ok: bool)
      requires Valid() && n.layer == Spawn && n.command.GameData?
      modifies this`lastSpawnedId, this`gameDataEntities, this`usernameLookup, this`trace, Repr`name
      ensures Valid()
      ensures LeafHandled(n, ok)
    {
      ok := HandleGameDataSpawn(n.context.children);
      assert SpawnEffect(n, ok);
    }

    /**
     * proc: record the timestamp, advance the tick, then hand the flattened
     * leaves to proc_node in order, stopping at the first leaf that raises.
     * `handled` lists the leaves handed over, each with whether it completed.
     */
    method Proc(nodes: seq<Node>, ts: int) returns (ok: bool, ghost handled: seq<(Node, bool)>)
      requires Valid()
      modifies this, Repr
      ensures Valid() && fresh(Repr - old(Repr))
      ensures (forall j :: 0 <= j < |handled| ==> !IsResetCommand(handled[j].0)) ==> tick == old(tick) + 1 && time == ts
      ensures (exists j :: 0 <= j < |handled| && IsResetCommand(handled[j].0)) ==> tick == 0 && time == 0
      ensures |handled| <= |nodes| && forall j :: 0 <= j < |handled| ==> handled[j].0 == nodes[j]
      ensures forall j :: 0 <= j < |handled| - 1 ==> handled[j].1
      ensures ok ==> |handled| == |nodes| && forall j :: 0 <= j < |handled| ==> handled[j].1
      ensures !ok ==> 0 < |handled| && !handled[|handled| - 1].1
      ensures procLog == old(procLog) + handled
    {
      time := ts;
      tick := tick + 1;
      ok := true;
      handled := [];
      var i := 0;
      while i < |nodes| && ok
        invariant 0 <= i <= |nodes| && |handled| == i
        invariant Valid() && fresh(Repr - old(Repr))
        invariant (forall j :: 0 <= j < i ==> !IsResetCommand(nodes[j])) ==> tick == old(tick) + 1 && time == ts
        invariant (exists j :: 0 <= j < i && IsResetCommand(nodes[j])) ==> tick == 0 && time == 0
        invariant forall j :: 0 <= j < i ==> handled[j].0 == nodes[j]
        invariant ok ==> forall j :: 0 <= j < i ==> handled[j].1
        invariant !ok ==> 0 < i && !handled[i - 1].1 && forall j :: 0 <= j < i - 1 ==> handled[j].1
        invariant procLog == old(procLog) + handled
      {
        ok := ProcNode(nodes[i]);
        handled := handled + [(nodes[i], ok)];
        i := i + 1;
      }
    }
  }
}
