/** The orchestrator of the game: the registry of joined connections and
    the one world they play in (lib/state.js, lines 87-116). */
module GameState {
  import opened Entities
  import opened World

  /** An inbound action: its `type` tag and a direction. */
  datatype PlayerAction = PlayerAction(kind: string, direction: Vector)

  /** The registry and the world's player table have the same keys. */
  ghost predicate Synced(registry: map<ConnId, Profile>, t: Table)
  {
    registry.Keys == t.Keys
  }

  /** Joining, leaving and moving keep the two key sets equal. This is the
      value-level form of the `Valid()` postconditions of `State.AddPlayer`,
      `State.RemovePlayer` and `State.Action`, which prove the same for the
      objects directly. */
  lemma SyncedPreserved(registry: map<ConnId, Profile>, t: Table, id: ConnId,
                        p: Profile, rx: real, ry: real, d: Vector, n: real)
    requires Synced(registry, t)
    requires 0.0 <= rx < 1.0 && 0.0 <= ry < 1.0
    ensures Synced(registry[id := p], Joined(t, id, p, rx, ry))
    ensures Synced(registry - {id}, Left(t, id))
    ensures id in t && IsNorm(d, n) ==> Synced(registry, Moved(t, id, d, n))
  {
  }

  /** The game state: it lives as long as the server process. */
  class State {
    /** Connection id to the profile the connection joined with. */
    var players: map<ConnId, Profile>
    /** The world (the source's `map` field; `map` is a Dafny keyword). */
    const world: Map

    ghost predicate Valid()
      reads this, world
    {
      Synced(players, world.players)
    }

    /** No one registered, and a fresh world. */
    constructor()
      ensures Valid() && fresh(world)
      ensures players == map[] && world.players == map[]
      ensures world.pickable == [] && world.structures == Grid()
    {
      players := map[];
      world := new Map();
    }

    /** Registers connection `id` with profile `p` and places its player in
        the world; a connection that is already registered is overwritten in
        both tables. */
    method AddPlayer(id: ConnId, p: Profile, rx: real, ry: real)
      requires Valid()
      requires 0.0 <= rx < 1.0 && 0.0 <= ry < 1.0
      modifies this`players, world`players
      ensures Valid()
      ensures players == old(players)[id := p]
      ensures world.players == Joined(old(world.players), id, p, rx, ry)
    {
      players := players[id := p];
      world.AddPlayer(id, p, rx, ry);
    }

    /** Removes connection `id` from the registry and from the world; an
        unknown id changes nothing. */
    method RemovePlayer(id: ConnId)
      requires Valid()
      modifies this`players, world`players
      ensures Valid()
      ensures players == old(players) - {id}
      ensures world.players == Left(old(world.players), id)
      ensures id !in old(players) ==> players == old(players) && world.players == old(world.players)
    {
      players := players - {id};
      world.RemovePlayer(id);
    }

    /** Routes an action of a registered connection to the world: `MOVE`
        moves its player, `SHOOT` shoots (which does nothing), any other
        type is ignored. Actions of unregistered connections are ignored.
        `n` is the norm of the direction, needed only for a move. */
    method Action(id: ConnId, a: PlayerAction, n: real)
      requires Valid()
      requires id in players && a.kind == "MOVE" ==> IsNorm(a.direction, n)
      modifies world`players
      ensures Valid()
      ensures players == old(players)
      ensures world.players ==
        if id in players && a.kind == "MOVE" then Moved(old(world.players), id, a.direction, n)
        else old(world.players)
    {
      if id in players {
        match a.kind {
          case "MOVE" => world.MovePlayer(id, a.direction, n);
          case "SHOOT" => world.ShootPlayer(id, a.direction);
          case _ =>
        }
      }
    }
  }
}
