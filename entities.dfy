/** The plain records of the game state: geometries, the box and player
    presets, and the positional wrapper that places an entity on the map
    (lib/state.js, lines 5-46). */
module Entities {

  /** Connection identifiers, which also key the player tables. */
  type ConnId = string

  /** Distance a player travels per accepted movement. */
  const PLAYER_VELOCITY: real := 10.0

  /** A two-dimensional vector, used for directions sent by clients. */
  datatype Vector = Vector(x: real, y: real)

  /** The `shape` tag of a geometry. */
  datatype Shape = Square | Circle

  /** The `size` of a geometry: width and height for squares, a radius for circles. */
  datatype Size = Extent(width: real, height: real) | Radius(radius: real)

  /** A geometry: shape tag, display colour and size. */
  datatype Geometry = Geometry(shape: Shape, color: string, size: Size)

  /** What a client sends when it joins: a username and a colour. */
  datatype Profile = Profile(username: string, color: string)

  /** A player: a geometry extended with a username and hit points.
      The source's subclass is modelled by composition. */
  datatype Player = Player(geometry: Geometry, username: string, hp: int)

  /** An entity together with its position on the map. */
  datatype MapObject<G> = MapObject(geometry: G, x: real, y: real)

  /** The box preset: a 20 by 20 square in colour #937710. */
  function Box(): Geometry
  {
    Geometry(Square, "#937710", Extent(20.0, 20.0))
  }

  /** The player preset built from a profile: a circle of radius 5 in the
      profile's colour, with the profile's username and 100 hit points. */
  function NewPlayer(p: Profile): Player
  {
    Player(Geometry(Circle, p.color, Radius(5.0)), p.username, 100)
  }
}
