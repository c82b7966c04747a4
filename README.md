# pubg.io game state, modelled in Dafny

This project models the server-side game state of pubg.io, a top-down
multiplayer arena game. It covers the three parts of `lib/state.js`:

- **Entities** (`entities.dfy`): the plain records. A `Geometry` has a shape
  tag, a colour and a size. `Box()` is the structure preset: a 20 by 20
  square in colour `#937710`. `NewPlayer(p)` is the player preset: a circle
  of radius 5 in the profile's colour, with the profile's username and
  100 hit points. A `MapObject` places an entity at a position `(x, y)`.
  The source's `Player extends Geometry` becomes composition:
  `Player(geometry, username, hp)`.
- **World** (`world.dfy`): the source's `Map` class. It holds a player table
  keyed by connection id, which its methods update in place. It also holds
  an empty pickup list, a list of structures and a fixed 10000 by 10000 size.
  The constructor takes its structures from `BuildStructures`, which pushes
  the 9 by 9 grid of boxes in a nested loop. That loop is proved to produce
  exactly `Grid()`, an independent reference definition of the list.
  `AddPlayer`, `MovePlayer` and `RemovePlayer` are each proved against a
  function on the table value (`Joined`, `Moved`, `Left`). The contracts of
  those functions state what the source promises.
- **GameState** (`state.dfy`): the source's `State` class. It holds the
  registry (connection id to profile) and one world. Its invariant `Valid()`
  says that the registry and the world's player table have the same key set.
  Joining, leaving and every action keep that invariant. An action changes
  the world only when it is a `MOVE` from a registered connection.

Positions and sizes are `real`. There are two inputs the model cannot compute:

- The two `Math.random()` draws in `addPlayer` become parameters `rx` and
  `ry` in `[0, 1)`.
- The `Math.sqrt` norm in `movePlayer` becomes a parameter `n` with `n > 0`
  and `n * n == x * x + y * y` (`IsNorm`).

The model follows the code as written:

- The player radius is 5 (lib/state.js:32).
- Moves are not clamped to the map, so no bounds invariant holds after a move.
- There is no cooldown, weapon, pickup, hit detection or match end.
- A zero direction divides by zero (lib/state.js:71-73), so the model
  requires a nonzero direction.

## Model

| member | source | states |
|---|---|---|
| `Entities.Box` | lib/state.js:17-25 | the structure preset: a square, 20 by 20, in colour `#937710`; `World.GridBoxes` proves that every structure carries exactly this geometry |
| `Entities.NewPlayer` | lib/state.js:27-38 | the player preset: a circle of radius 5 in the profile's colour, with the profile's username and hp 100; `World.Joined` states these facts of every joined player |
| `World.BuildStructures` | lib/state.js:54-58 | the nested loop over `i` in 1..9 (outer) and `j` in 1..9 (inner), pushing a box at `(i*1000, j*1000)`, yields exactly the reference list `Grid()` |
| `World.Map.constructor` | lib/state.js:49-61 | the player table starts empty, the pickup list starts empty, and the structures list is exactly `Grid()` |
| `World.GridLayout` | lib/state.js:54-58 | there are 81 structures, and the entry for cell `(i, j)`, at index `(i-1)*9 + (j-1)`, is a `Box` at `(i*1000, j*1000)` for `i, j` in 1..9 |
| `World.GridBoxes` | lib/state.js:17-25 | every structure is the square 20 by 20 box in colour `#937710`, at coordinates between 1000 and 9000, so it lies inside the 10000 by 10000 map |
| `World.GridOrdered` | lib/state.js:54-58 | the structures are listed with `i` outer and `j` inner: positions strictly increase lexicographically, so no two structures coincide |
| `World.Joined` | lib/state.js:63-67 | after a join, `players[id]` is a circle of radius 5 with hp 100, carrying the profile's username and colour, at a position in `[0, 10000) x [0, 10000)`; the key set gains `id`, every other entry is unchanged, and an existing `id` is overwritten |
| `World.Map.AddPlayer` | lib/state.js:63-67 | the new table is `Joined(old table, id, p, rx, ry)`, with the position `(rx * width, ry * height)` inside the map; the structures and pickups are untouched |
| `World.StepLength` | lib/state.js:69-76 | a step adds `d.x*10/n` and `d.y*10/n`, has squared length exactly `PLAYER_VELOCITY` squared, points along `d`, and keeps the entity |
| `World.Moved` | lib/state.js:69-76 | a move keeps the key set, the moved player's geometry, username and hp, and every other entry; the mover is displaced along `d` by exactly the velocity |
| `World.MoveReversible` | lib/state.js:69-76 | a move by `d` followed by a move by `-d`, whose norm is the same, restores the table |
| `World.Map.MovePlayer` | lib/state.js:69-76 | the new table is `Moved(old table, id, d, n)`: same keys, same geometry for the mover, and nothing else changes |
| `World.Left` | lib/state.js:78-80 | leaving removes exactly `id` and keeps every other entry; an absent `id` is a no-op |
| `World.LeaveUndoesJoin` | lib/state.js:63-80 | a join followed by a leave of the same id gives the table minus `id`, and gives back the original table when `id` was absent |
| `World.Map.RemovePlayer` | lib/state.js:78-80 | the new table is the old one without `id`, and nothing else changes |
| `World.Map.ShootPlayer` | lib/state.js:82-84 | changes nothing: the source's body is an empty TODO, and the method has no modifies clause |
| `GameState.SyncedPreserved` | lib/state.js:93-103 | writing both tables under the same id, deleting from both, or moving a player keeps the registry's key set equal to the world's key set |
| `GameState.State.constructor` | lib/state.js:88-91 | an empty registry and a fresh world (empty tables, the full grid), with the invariant holding |
| `GameState.State.AddPlayer` | lib/state.js:93-97 | the registry maps `id` to the profile and the world's table is `Joined(...)` under the same id; the key sets stay equal |
| `GameState.State.RemovePlayer` | lib/state.js:99-103 | `id` is deleted from both tables, an unknown id changes neither, and the key sets stay equal |
| `GameState.State.Action` | lib/state.js:105-115 | the registry never changes; the world's table becomes `Moved(...)` for a `MOVE` from a registered id and is unchanged otherwise: for an unregistered id, for `SHOOT`, whose handler is a no-op, and for any other type; the key sets stay equal |

## Left out

- public/main.js (the browser client) and server.js (HTTP routes, socket
  logging, `listen`) are transport and UI code. They are not part of this
  model, and server.js never calls the game state.
- `Math.random` in `addPlayer` is replaced by the parameters `rx` and `ry`,
  because randomness is outside the model.
- `Math.sqrt` and IEEE floating point: arithmetic is over exact reals, and the
  norm is a parameter `n` tied to the direction by `n * n == x * x + y * y`.
- World.Map.MovePlayer: requires a nonzero direction. In the source a zero
  direction divides by zero and writes `NaN` into the position; there are no
  NaN values in the model.
- World.Map.MovePlayer: requires `id` in the table. In the source an absent id
  makes `movePlayer` throw a TypeError. `State.Action` always meets this
  requirement, by its invariant.
- GameState.State.Action: requires the norm witness only for a `MOVE` from a
  registered connection, for the same reason.
- The `client` argument of `State`'s methods is reduced to its `conn.id`,
  which is the only part of it the source uses.
- The `console.error` on an unknown action type, and the `isNode` export code
  (lib/state.js:112, 118-121), are logging and module plumbing.
- JavaScript object details: a registry entry holding a falsy value, and keys
  that clash with `Object.prototype` names, are not modelled. Profiles are
  always objects here, so "the registry has a truthy entry" is the same as
  "the id is registered".
- Input validation, which the source leaves as TODOs (lib/state.js:93, 105):
  well-typed profiles and actions are assumed. The registry stores the
  client's whole JSON object, and `Profile(username, color)` keeps only its
  two used fields. A malformed action makes the source throw a TypeError at
  lib/state.js:70 or 108, for example a MOVE without a `direction` or an
  undefined action. The typed `PlayerAction` rules both cases out.
- Shooting, hit detection, weapons, cooldowns, pickups, clamping and match-end
  detection: the source does not implement them.
