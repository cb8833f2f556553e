/** Plane geometry shared by every entity: SFML's Vector2f as a pair of reals,
    the window extent, and the position integration rule of the movable entities. */
module Geometry {

  datatype Vec = Vec(x: real, y: real)

  /** GAMEWIDTH and GAMEHEIGHT of Main.cpp. */
  const GAME_WIDTH: real := 2880.0
  const GAME_HEIGHT: real := 1800.0

  /** Where restart, respawn and levelUp put the ship: (GAMEWIDTH / 2, GAMEHEIGHT / 2). */
  const CENTER: Vec := Vec(1440.0, 900.0)

  function Add(a: Vec, b: Vec): Vec { Vec(a.x + b.x, a.y + b.y) }

  function Sub(a: Vec, b: Vec): Vec { Vec(a.x - b.x, a.y - b.y) }

  function Scale(a: Vec, k: real): Vec { Vec(a.x * k, a.y * k) }

  function Neg(a: Vec): Vec { Vec(-a.x, -a.y) }

  /** position + direction * velocity * dt: the motion rule of Bullet::moveBullet and Asteroid::moveAst. */
  function Advance(pos: Vec, direction: Vec, velocity: real, dt: real): Vec
  {
    Add(pos, Scale(direction, velocity * dt))
  }

  /** Conversion of a float to int in C++: truncation toward zero. */
  function TruncToInt(x: real): (n: int)
    ensures 0.0 <= x ==> n as real <= x < n as real + 1.0
    ensures x < 0.0 ==> n as real - 1.0 < x <= n as real
  {
    if x >= 0.0 then x.Floor else -((-x).Floor)
  }

  /** A frame of zero length, or a body at rest, does not move. */
  lemma AdvanceStill(pos: Vec, direction: Vec, velocity: real, dt: real)
    requires dt == 0.0 || velocity == 0.0
    ensures Advance(pos, direction, velocity, dt) == pos
  {
  }

  /** Motion is linear in time: two frames of dt1 and dt2 reach the same point as one frame of dt1 + dt2. */
  lemma AdvanceCompose(pos: Vec, direction: Vec, velocity: real, dt1: real, dt2: real)
    ensures Advance(Advance(pos, direction, velocity, dt1), direction, velocity, dt2)
         == Advance(pos, direction, velocity, dt1 + dt2)
  {
    assert velocity * (dt1 + dt2) == velocity * dt1 + velocity * dt2;
    assert direction.x * (velocity * (dt1 + dt2)) == direction.x * (velocity * dt1) + direction.x * (velocity * dt2);
    assert direction.y * (velocity * (dt1 + dt2)) == direction.y * (velocity * dt1) + direction.y * (velocity * dt2);
  }
}
