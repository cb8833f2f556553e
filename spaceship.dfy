/** SpaceShip.cpp: the player's craft; a CircleShape with a speed that moveShip applies downwards. */
module SpaceShips {
  import opened Geometry

  /** shipRadius of Main.cpp. */
  const SHIP_RADIUS: real := 55.0

  class SpaceShip {
    var pos: Vec
    var radius: real
    var velocity: real

    /** SpaceShip(r): setRadius(r); the position starts at the origin. */
    constructor (r: real)
      ensures radius == r && pos == Vec(0.0, 0.0)
    {
      radius := r;
      pos := Vec(0.0, 0.0);
      velocity := 0.0;
    }

    method SetVelocity(newVel: real)
      modifies this`velocity
      ensures velocity == newVel
    {
      velocity := newVel;
    }

    /** setPosition(getPosition() + Vector2f(0, velocity * dt)). */
    method MoveShip(dt: real)
      modifies this`pos
      ensures pos == Vec(old(pos).x, old(pos).y + velocity * dt)
    {
      pos := Add(pos, Vec(0.0, velocity * dt));
    }
  }
}
