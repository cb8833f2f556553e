/** The global state of Main.cpp as values, and the two per-frame entity loops of
    update_state (bullets, then asteroids). */
module World {
  import opened Geometry
  import opened Bullets
  import opened Asteroids
  import opened Animations
  import opened ShipControl
  import opened Wrap

  /** What the collision sweep reads and writes: manyAsteroids, manyBullets,
      asteroidsAdded, score, life, the ship's position and allExplosion. */
  datatype Arena = Arena(
    rocks: seq<AsteroidData>,
    bullets: seq<BulletData>,
    added: seq<AsteroidData>,
    score: int,
    life: int,
    ship: Vec,
    explosions: seq<AnimState>)

  /** GameState, isPaused, whether the window is open, level and astroidVelocity. */
  datatype Session = Session(gameState: int, paused: bool, open: bool, level: int, astVel: real)

  /** All of the simulation's globals; randCalls counts the std::rand() calls made so far. */
  datatype Snapshot = Snapshot(session: Session, control: Control, arena: Arena, randCalls: nat)

  /** What the model takes from outside: the std::rand() sequence, the normalisation of
      ast_bounce (v / |v|), the (sin n, cos n) direction of a created asteroid and the
      floating-point length sqrt(x * x + y * y) that is_collided compares. */
  datatype Env = Env(rand: nat -> nat, unit: Vec -> Vec, heading: int -> Vec, norm: Vec -> real)

  /** respawn(): no bullets and the ship back at the centre. */
  function Respawn(a: Arena): Arena
  {
    a.(bullets := [], ship := CENTER)
  }

  /** One bullet of the bullet loop: move, then wrap using the coordinates taken before the move. */
  function StepBullet(b: BulletData, dt: real): BulletData
  {
    var moved := Moved(b, dt);
    moved.(pos := WrappedAfterMove(b.pos, moved.pos, BULLET_RADIUS))
  }

  /** The bullet loop: erasing from the back keeps the lower indices valid, so the result
      is the surviving bullets, each stepped, in their original order. */
  function StepBullets(s: seq<BulletData>, now: real, dt: real): seq<BulletData>
  {
    if s == [] then []
    else (if Expired(s[0].clock, now) then [] else [StepBullet(s[0], dt)]) + StepBullets(s[1..], now, dt)
  }

  /** The bullet loop's step at index i: the bullets from i on are bullet i, stepped or
      dropped, followed by the bullets after it. */
  lemma StepBulletsFront(s: seq<BulletData>, i: int, now: real, dt: real)
    requires 0 <= i < |s|
    ensures StepBullets(s[i..], now, dt)
         == (if Expired(s[i].clock, now) then [] else [StepBullet(s[i], dt)]) + StepBullets(s[i + 1..], now, dt)
  {
    assert s[i..][1..] == s[i + 1..];
  }

  /** Erasing the last element of a prefix p + [x] from p + [x] + t leaves p + t. */
  lemma EraseAtSeam<T>(p: seq<T>, x: T, t: seq<T>)
    ensures var s := p + [x] + t; s[..|p|] + s[|p| + 1..] == p + t
  {
    var s := p + [x] + t;
    assert s[..|p|] == p;
    assert s[|p| + 1..] == t;
  }

  /** Replacing the last element of a prefix p + [x] in p + [x] + t gives p + ([y] + t). */
  lemma UpdateAtSeam<T>(p: seq<T>, x: T, y: T, t: seq<T>)
    ensures (p + [x] + t)[|p| := y] == p + ([y] + t)
  {
  }

  /** No bullet survives past its lifetime and none is created. */
  lemma {:induction false} StepBulletsSurvivors(s: seq<BulletData>, now: real, dt: real)
    ensures |StepBullets(s, now, dt)| <= |s|
    ensures forall k :: 0 <= k < |StepBullets(s, now, dt)| ==> !Expired(StepBullets(s, now, dt)[k].clock, now)
  {
    if s != [] {
      StepBulletsSurvivors(s[1..], now, dt);
    }
  }

  /** When every bullet is alive none is dropped and each is stepped in place. */
  lemma {:induction false} StepBulletsAllAlive(s: seq<BulletData>, now: real, dt: real)
    requires forall k :: 0 <= k < |s| ==> !Expired(s[k].clock, now)
    ensures |StepBullets(s, now, dt)| == |s|
    ensures forall k :: 0 <= k < |s| ==> StepBullets(s, now, dt)[k] == StepBullet(s[k], dt)
  {
    if s != [] {
      StepBulletsAllAlive(s[1..], now, dt);
    }
  }

  /** When every bullet has expired the list empties. */
  lemma {:induction false} StepBulletsAllExpired(s: seq<BulletData>, now: real, dt: real)
    requires forall k :: 0 <= k < |s| ==> Expired(s[k].clock, now)
    ensures StepBullets(s, now, dt) == []
  {
    if s != [] {
      StepBulletsAllExpired(s[1..], now, dt);
    }
  }

  /** A bullet fired at t is still there 2.9 s later and gone 3.1 s later, however it moved. */
  lemma BulletLifetime(b: BulletData, t: real, dt: real)
    requires b.clock == Clock(t)
    ensures |StepBullets([b], t + 2.9, dt)| == 1
    ensures StepBullets([b], t + 3.1, dt) == []
  {
    assert [b][1..] == [];
  }

  /** One asteroid of the asteroid loop: wrap first, then moveAst from the wrapped position. */
  function StepRock(a: AsteroidData, dt: real): AsteroidData
  {
    Drifted(a.(pos := Wrapped(a.pos, Radius(a.tier))), dt)
  }

  /** The asteroid loop walks forward and erases nothing. */
  function StepRocks(s: seq<AsteroidData>, dt: real): seq<AsteroidData>
  {
    seq(|s|, k requires 0 <= k < |s| => StepRock(s[k], dt))
  }

  /** The asteroid loop changes only positions: tiers, speeds and directions stay. */
  lemma StepRocksKeepsBodies(s: seq<AsteroidData>, dt: real)
    ensures |StepRocks(s, dt)| == |s| && Potential(StepRocks(s, dt)) == Potential(s)
    ensures forall k :: 0 <= k < |s| ==>
      StepRocks(s, dt)[k].tier == s[k].tier && StepRocks(s, dt)[k].velocity == s[k].velocity
      && StepRocks(s, dt)[k].direction == s[k].direction
  {
    PotentialOfTiers(StepRocks(s, dt), s);
  }

  /** An asteroid inside the window just drifts; in a frame of zero length it stays put. */
  lemma StepRockInside(a: AsteroidData, dt: real)
    requires InsideX(a.pos, Radius(a.tier)) && InsideY(a.pos, Radius(a.tier))
    ensures StepRock(a, dt) == Drifted(a, dt)
    ensures dt == 0.0 ==> StepRock(a, dt) == a
  {
    InsideIsFixed(a.pos, Radius(a.tier));
  }
}
