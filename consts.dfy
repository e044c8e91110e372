/**
 * The game constants of Planetoids. Their values live in a settings module
 * (consts.py) that is not part of this model, so each constant is declared
 * without a value; its type states the only assumption the model makes
 * about it.
 */
module Consts {

  type NonNegReal = r: real | 0.0 <= r
  type PosReal = r: real | 0.0 < r witness 1.0
  type PosInt = n: int | 0 < n witness 1

  /** Size of the playfield. */
  const GAME_WIDTH: PosReal
  const GAME_HEIGHT: PosReal
  /** Margin beyond the playfield edges in which objects may still travel. */
  const DEAD_ZONE: NonNegReal

  const SHIP_RADIUS: NonNegReal
  /** Magnitude of the thrust added per frame while "up" is held. */
  const SHIP_IMPULSE: real
  /** Speed a thrusting ship is slowed back to once it exceeds it. */
  const SHIP_MAX_SPEED: PosReal
  /** Degrees turned per frame while "left" or "right" is held. */
  const SHIP_TURN_RATE: real
  const SHIP_LIVES: PosInt

  const BULLET_RADIUS: NonNegReal
  const BULLET_SPEED: PosReal
  /** Frames to wait between two shots. */
  const BULLET_RATE: PosInt

  const SMALL_RADIUS: NonNegReal
  const MEDIUM_RADIUS: NonNegReal
  const LARGE_RADIUS: NonNegReal
  const SMALL_SPEED: NonNegReal
  const MEDIUM_SPEED: NonNegReal
  const LARGE_SPEED: NonNegReal

  /** Extra wrap margin that large asteroids get (a literal in Asteroid.move). */
  const LARGE_EXTRA_MARGIN: real := 20.0
}
