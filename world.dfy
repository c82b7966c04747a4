/** The world of one match: the player table, the fixed grid of box
    structures, the (empty) pickup list and the map size, together with the
    operations that join, move and remove players (lib/state.js, lines
    48-85). */
module World {
  import opened Entities

  /** The player table: connection id to the player's map object. */
  type Table = map<ConnId, MapObject<Player>>

  /** The fixed map size. */
  const WIDTH: real := 10000.0
  const HEIGHT: real := 10000.0

  /** Number of grid cells per axis. */
  const GRID_CELLS: int := 9

  datatype Bounds = Bounds(width: real, height: real)

  /** The box structure of grid cell (i, j), at (i * 1000, j * 1000). */
  function BoxAt(i: int, j: int): MapObject<Geometry>
  {
    MapObject(Box(), (i * 1000) as real, (j * 1000) as real)
  }

  /** Reference layout of the structures: entry k is the box of row
      k / 9 + 1 and column k % 9 + 1. */
  function Grid(): seq<MapObject<Geometry>>
  {
    seq(GRID_CELLS * GRID_CELLS, k => BoxAt(k / GRID_CELLS + 1, k % GRID_CELLS + 1))
  }

  /** The entry that cell (i, j) occupies in the structure list. */
  function CellIndex(i: int, j: int): int
  {
    (i - 1) * GRID_CELLS + (j - 1)
  }

  /** `n` is the Euclidean norm of a nonzero direction `d`. */
  predicate IsNorm(d: Vector, n: real)
  {
    n > 0.0 && n * n == d.x * d.x + d.y * d.y
  }

  /** A freshly joined player: the profile's preset, scaled by the two
      random draws `rx`, `ry` in [0, 1) over the map size. */
  function Spawn(p: Profile, rx: real, ry: real): MapObject<Player>
  {
    MapObject(NewPlayer(p), rx * WIDTH, ry * HEIGHT)
  }

  /** A player moved by direction `d`, whose norm is `n`, scaled to the
      player velocity. */
  function Step(o: MapObject<Player>, d: Vector, n: real): MapObject<Player>
    requires n > 0.0
  {
    o.(x := o.x + d.x * PLAYER_VELOCITY / n, y := o.y + d.y * PLAYER_VELOCITY / n)
  }

  /** The table after `id` joins with profile `p`: the joined player is a
      circle of radius 5 with 100 hit points, carrying the profile's
      username and colour, placed inside [0, 10000) on both axes; every other
      entry is as before, and an existing entry under `id` is replaced. */
  function Joined(t: Table, id: ConnId, p: Profile, rx: real, ry: real): (r: Table)
    requires 0.0 <= rx < 1.0 && 0.0 <= ry < 1.0
    ensures r.Keys == t.Keys + {id}
    ensures r[id].geometry == Player(Geometry(Circle, p.color, Radius(5.0)), p.username, 100)
    ensures 0.0 <= r[id].x < WIDTH && 0.0 <= r[id].y < HEIGHT
    ensures forall k :: k in t && k != id ==> r[k] == t[k]
  {
    t[id := Spawn(p, rx, ry)]
  }

  /** The table after `id` moves by `d`: only the position of `id` changes,
      by a displacement of length exactly PLAYER_VELOCITY along `d`; the key
      set, the player's geometry and hit points, and every other entry are
      unchanged. */
  function Moved(t: Table, id: ConnId, d: Vector, n: real): (r: Table)
    requires id in t && IsNorm(d, n)
    ensures r.Keys == t.Keys
    ensures r[id].geometry == t[id].geometry
    ensures var dx, dy := r[id].x - t[id].x, r[id].y - t[id].y;
      && dx * dx + dy * dy == PLAYER_VELOCITY * PLAYER_VELOCITY
      && dx * n == d.x * PLAYER_VELOCITY && dy * n == d.y * PLAYER_VELOCITY
    ensures forall k :: k in t && k != id ==> r[k] == t[k]
  {
    StepLength(t[id], d, n);
    t[id := Step(t[id], d, n)]
  }

  /** The table after `id` leaves: exactly `id` is removed and every other
      entry is kept; leaving with an absent id changes nothing. */
  function Left(t: Table, id: ConnId): (r: Table)
    ensures r.Keys == t.Keys - {id}
    ensures forall k :: k in r ==> r[k] == t[k]
    ensures id !in t ==> r == t
  {
    t - {id}
  }

  // ----- The structure grid -----

  /** Cell (i, j) holds the box at (i * 1000, j * 1000). */
  lemma GridLayout(i: int, j: int)
    requires 1 <= i <= GRID_CELLS && 1 <= j <= GRID_CELLS
    ensures |Grid()| == 81
    ensures 0 <= CellIndex(i, j) < 81
    ensures Grid()[CellIndex(i, j)].geometry == Box()
    ensures Grid()[CellIndex(i, j)].x == (i * 1000) as real
    ensures Grid()[CellIndex(i, j)].y == (j * 1000) as real
  {
  }

  /** Every structure is a 20 by 20 box on one of the grid lines
      1000, 2000, ..., 9000 on both axes, so inside the map. */
  lemma GridBoxes()
    ensures |Grid()| == 81
    ensures forall k :: 0 <= k < |Grid()| ==>
      && Grid()[k].geometry == Geometry(Square, "#937710", Extent(20.0, 20.0))
      && 1000.0 <= Grid()[k].x <= 9000.0 && 1000.0 <= Grid()[k].y <= 9000.0
      && Grid()[k].x + 20.0 <= WIDTH && Grid()[k].y + 20.0 <= HEIGHT
  {
  }

  /** The structures are listed row by row: i outer, j inner. So positions
      strictly increase lexicographically, and no two coincide. */
  lemma GridOrdered()
    ensures forall k1, k2 :: 0 <= k1 < k2 < |Grid()| ==>
      Grid()[k1].x < Grid()[k2].x ||
      (Grid()[k1].x == Grid()[k2].x && Grid()[k1].y < Grid()[k2].y)
  {
  }

  // ----- Moving -----

  /** A step covers exactly the player velocity: its squared length is
      PLAYER_VELOCITY squared, and it points along `d`. */
  lemma {:induction false} StepLength(o: MapObject<Player>, d: Vector, n: real)
    requires IsNorm(d, n)
    ensures var s := Step(o, d, n);
      && (s.x - o.x) * (s.x - o.x) + (s.y - o.y) * (s.y - o.y) == PLAYER_VELOCITY * PLAYER_VELOCITY
      && (s.x - o.x) * n == d.x * PLAYER_VELOCITY
      && (s.y - o.y) * n == d.y * PLAYER_VELOCITY
      && s.geometry == o.geometry
  {
    var s := Step(o, d, n);
    var dx, dy := s.x - o.x, s.y - o.y;
    var c := PLAYER_VELOCITY / n;
    assert dx == d.x * c && dy == d.y * c;
    calc {
      dx * dx + dy * dy;
      == (d.x * d.x + d.y * d.y) * (c * c);
      == (n * n) * (c * c);
      == (n * c) * (n * c);
      == { assert n * c == PLAYER_VELOCITY; }
      PLAYER_VELOCITY * PLAYER_VELOCITY;
    }
  }

  /** Moving by the opposite direction returns the table to what it was. */
  lemma MoveReversible(t: Table, id: ConnId, d: Vector, n: real)
    requires id in t && IsNorm(d, n)
    ensures IsNorm(Vector(-d.x, -d.y), n)
    ensures Moved(Moved(t, id, d, n), id, Vector(-d.x, -d.y), n) == t
  {
  }

  // ----- Leaving -----

  /** Leaving undoes joining: a connection that was absent, joins and
      leaves leaves the table as it found it. */
  lemma LeaveUndoesJoin(t: Table, id: ConnId, p: Profile, rx: real, ry: real)
    requires 0.0 <= rx < 1.0 && 0.0 <= ry < 1.0
    ensures Left(Joined(t, id, p, rx, ry), id) == Left(t, id)
    ensures id !in t ==> Left(Joined(t, id, p, rx, ry), id) == t
  {
  }

  /** The structures of a new world, pushed row by row: for i in 1..9,
      for j in 1..9, a box at (i * 1000, j * 1000). */
  method BuildStructures() returns (structures: seq<MapObject<Geometry>>)
    ensures structures == Grid()
  {
    structures := [];
    for i := 1 to GRID_CELLS + 1
      invariant structures == Grid()[..CellIndex(i, 1)]
    {
      for j := 1 to GRID_CELLS + 1
        invariant structures == Grid()[..CellIndex(i, j)]
      {
        GridLayout(i, j);
        assert Grid()[..CellIndex(i, j) + 1] == Grid()[..CellIndex(i, j)] + [BoxAt(i, j)];
        structures := structures + [BoxAt(i, j)];
      }
    }
    assert CellIndex(GRID_CELLS + 1, 1) == |Grid()|;
  }

  /** The world (the source's `Map`). */
  class Map {
    /** Connection id to the player's map object, updated in place. */
    var players: Table
    /** Pickups; none are ever created. */
    var pickable: seq<MapObject<Geometry>>
    /** The static box structures. */
    var structures: seq<MapObject<Geometry>>
    /** The map size. */
    const size: Bounds := Bounds(WIDTH, HEIGHT)

    /** An empty world with the 9 by 9 grid of boxes. */
    constructor()
      ensures players == map[] && pickable == []
      ensures structures == Grid()
    {
      players := map[];
      pickable := [];
      var grid := BuildStructures();
      structures := grid;
    }

    /** Places the joining player at (rx * width, ry * height); the two
        draws stand for the source's random numbers in [0, 1). */
    method AddPlayer(id: ConnId, p: Profile, rx: real, ry: real)
      requires 0.0 <= rx < 1.0 && 0.0 <= ry < 1.0
      modifies this`players
      ensures players == Joined(old(players), id, p, rx, ry)
      ensures 0.0 <= players[id].x < size.width && 0.0 <= players[id].y < size.height
    {
      var x := rx * size.width;
      var y := ry * size.height;
      players := players[id := MapObject(NewPlayer(p), x, y)];
    }

    /** Moves a player along the normalised direction `d`, scaled to the
        player velocity; `n` is the norm of `d`. */
    method MovePlayer(id: ConnId, d: Vector, n: real)
      requires id in players && IsNorm(d, n)
      modifies this`players
      ensures players == Moved(old(players), id, d, n)
      ensures players.Keys == old(players).Keys
      ensures players[id].geometry == old(players)[id].geometry
    {
      var dx := d.x * PLAYER_VELOCITY / n;
      var dy := d.y * PLAYER_VELOCITY / n;
      var o := players[id];
      players := players[id := o.(x := o.x + dx, y := o.y + dy)];
    }

    /** Deletes a player; an absent id is a no-op. */
    method RemovePlayer(id: ConnId)
      modifies this`players
      ensures players == Left(old(players), id)
      ensures players.Keys == old(players).Keys - {id}
    {
      players := players - {id};
    }

    /** Shooting is not implemented: the method changes nothing. */
    method ShootPlayer(id: ConnId, d: Vector)
      ensures unchanged(this)
    {
    }
  }
}
