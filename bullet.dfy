/** Bullet.cpp: a projectile with a direction, a speed and the clock started when it was fired. */
module Bullets {
  import opened Geometry

  /** An sf::Clock, known by the instant (in seconds) at which it was started. */
  datatype Clock = Clock(start: real)

  /** getElapsedTime().asSeconds() read at wall time `now`. */
  function Elapsed(c: Clock, now: real): real { now - c.start }

  /** A bullet lives for three seconds of wall time. */
  const LIFETIME: real := 3.0

  /** bulletRadius, bulletVelocity and the step of addVelocity. */
  const BULLET_RADIUS: real := 15.0
  const BULLET_VELOCITY: real := 500.0
  const VELOCITY_BOOST: real := 30.0

  predicate Expired(c: Clock, now: real) { Elapsed(c, now) >= LIFETIME }

  /** The state of one element of manyBullets. */
  datatype BulletData = BulletData(pos: Vec, direction: Vec, velocity: real, clock: Clock)

  /** moveBullet on a bullet value. */
  function Moved(b: BulletData, dt: real): BulletData
  {
    b.(pos := Advance(b.pos, b.direction, b.velocity, dt))
  }

  /** Expiry depends only on the clock: a bullet fired at t is alive at t + 2.9 s and dead at t + 3.1 s. */
  lemma ExpiryWindow(t: real)
    ensures !Expired(Clock(t), t + 2.9)
    ensures Expired(Clock(t), t + 3.1)
  {
  }

  /** Once expired, a bullet stays expired at every later instant. */
  lemma ExpiryIsPermanent(c: Clock, now: real, later: real)
    requires Expired(c, now) && now <= later
    ensures Expired(c, later)
  {
  }

  /** Moving a bullet keeps its clock, direction and speed, so it never changes whether it has expired. */
  lemma MovedKeepsIdentity(b: BulletData, dt: real, now: real)
    ensures Moved(b, dt).clock == b.clock && Moved(b, dt).direction == b.direction
    ensures Moved(b, dt).velocity == b.velocity
    ensures Expired(Moved(b, dt).clock, now) == Expired(b.clock, now)
  {
  }

  class Bullet {
    var pos: Vec
    var radius: real
    var velocity: real
    var direction: Vec
    var clock: Clock

    /** The value this object contributes to manyBullets. */
    function Data(): BulletData
      reads this
    {
      BulletData(pos, direction, velocity, clock)
    }

    /** Bullet(Clock): keeps the given clock. The CircleShape base starts at the origin with
        radius 0 and the Vector2f direction is (0, 0); the float velocity is left
        uninitialised by the source, so nothing is promised about it. */
    constructor (bulletClock: Clock)
      ensures clock == bulletClock
      ensures pos == Vec(0.0, 0.0) && radius == 0.0 && direction == Vec(0.0, 0.0)
    {
      clock := bulletClock;
      pos := Vec(0.0, 0.0);
      radius := 0.0;
      direction := Vec(0.0, 0.0);
      velocity := 0.0;
    }

    method SetDirection(newDirection: Vec)
      modifies this`direction
      ensures direction == newDirection
    {
      direction := newDirection;
    }

    method GetDirection() returns (d: Vec)
      ensures d == direction
    {
      d := direction;
    }

    method SetVelocity(newVelocity: real)
      modifies this`velocity
      ensures velocity == newVelocity
    {
      velocity := newVelocity;
    }

    method AddVelocity()
      modifies this`velocity
      ensures velocity == old(velocity) + VELOCITY_BOOST
    {
      velocity := velocity + VELOCITY_BOOST;
    }

    /** setPosition(getPosition() + direction * velocity * dt). */
    method MoveBullet(dt: real)
      modifies this`pos
      ensures Data() == Moved(old(Data()), dt)
    {
      pos := Add(pos, Scale(direction, velocity * dt));
    }

    /** The dt argument is ignored: only wall time since the clock started counts. */
    method IsDead(now: real, dt: real) returns (dead: bool)
      ensures dead <==> Elapsed(clock, now) >= LIFETIME
    {
      dead := now - clock.start >= 3.0;
    }
  }

  /** What a caller of the setters can rely on: getDirection returns the vector last set,
      and a moveBullet(0) leaves the bullet where it was. */
  method SetThenGet(b: Bullet, d: Vec) returns (r: Vec)
    modifies b
    ensures r == d && b.pos == old(b.pos)
  {
    b.SetDirection(d);
    b.MoveBullet(0.0);
    r := b.GetDirection();
  }
}
