/** ck_optimize and ast_get_hit of Main.cpp: the collision sweep over manyAsteroids,
    walked from the last index down. For each asteroid: a ship hit costs a life, respawns
    the ship and ends the sweep; otherwise the asteroid bounces off every asteroid it
    touches, then the last bullet touching it (if any) is erased and the asteroid is hit.
    Offspring of split asteroids wait in asteroidsAdded until the sweep is over. */
module Sweep {
  import opened Geometry
  import opened Bullets
  import opened Asteroids
  import opened Animations
  import opened Collision
  import opened SpaceShips
  import opened World

  function RockDisc(a: AsteroidData): Disc { Disc(a.pos, Radius(a.tier)) }

  predicate HitsShip(a: AsteroidData, ship: Vec, norm: Vec -> real)
  {
    IsCollided(RockDisc(a), Disc(ship, SHIP_RADIUS), false, norm)
  }

  predicate HitsBullet(a: AsteroidData, b: BulletData, norm: Vec -> real)
  {
    IsCollided(RockDisc(a), Disc(b.pos, BULLET_RADIUS), false, norm)
  }

  /** Everything a collision test or a hit looks at, that is all but the direction. */
  predicate SameBody(x: AsteroidData, y: AsteroidData)
  {
    x.pos == y.pos && x.tier == y.tier && x.velocity == y.velocity
  }

  /** ast_bounce(rocks[i], rocks[k]): rocks[i] heads along the unit vector from rocks[k]
      to rocks[i], and rocks[k] along its negation. */
  function BouncePair(rocks: seq<AsteroidData>, i: nat, k: nat, env: Env): seq<AsteroidData>
    requires i < |rocks| && k < |rocks|
  {
    var u := env.unit(Sub(rocks[i].pos, rocks[k].pos));
    rocks[i := rocks[i].(direction := u)][k := rocks[k].(direction := Neg(u))]
  }

  /** The inner loop over k = k0, k0 - 1, ..., 0 that bounces rocks[i] off every asteroid it
      touches (never itself: is_collided rejects one object). Only directions change. */
  function BounceFrom(rocks: seq<AsteroidData>, i: nat, k: int, env: Env): (r: seq<AsteroidData>)
    requires i < |rocks| && -1 <= k < |rocks|
    ensures |r| == |rocks|
    ensures forall m :: 0 <= m < |rocks| ==> SameBody(r[m], rocks[m])
    decreases k + 1
  {
    if k < 0 then rocks
    else
      var next := if IsCollided(RockDisc(rocks[i]), RockDisc(rocks[k]), i == k, env.norm)
        then BouncePair(rocks, i, k, env) else rocks;
      BounceFrom(next, i, k - 1, env)
  }

  /** The bullet loop of one asteroid, j = j0 down to 0 until the first hit: the highest
      index not above j0 of a bullet touching the asteroid, or -1. */
  function LastHit(a: AsteroidData, bullets: seq<BulletData>, j: int, norm: Vec -> real): (r: int)
    requires -1 <= j < |bullets|
    ensures -1 <= r <= j
    ensures r >= 0 ==> HitsBullet(a, bullets[r], norm)
    ensures forall m :: r < m <= j ==> !HitsBullet(a, bullets[m], norm)
    decreases j + 1
  {
    if j < 0 then -1
    else if HitsBullet(a, bullets[j], norm) then j
    else LastHit(a, bullets, j - 1, norm)
  }

  /** vector::erase(begin() + j). */
  function Erase<T>(s: seq<T>, j: nat): seq<T>
    requires j < |s|
  {
    s[..j] + s[j + 1..]
  }

  /** The asteroid ast_get_hit pushes to asteroidsAdded: same position, direction (1, 0),
      the current astroidVelocity, one tier smaller. */
  function Offspring(a: AsteroidData, vel: real): AsteroidData
    requires a.tier != Small
  {
    AsteroidData(a.pos, Vec(1.0, 0.0), vel, Smaller(a.tier))
  }

  /** ast_get_hit(rocks[i], i): an explosion starts; a large or medium asteroid shrinks one
      tier, turns to direction (1, 1) at astroidVelocity and buffers one offspring; a small
      one is erased and scores a point. */
  function GetHit(w: Arena, i: nat, vel: real): Arena
    requires i < |w.rocks|
  {
    var a := w.rocks[i];
    var x := w.(explosions := w.explosions + [EXPLOSION]);
    if a.tier == Small then x.(rocks := Erase(w.rocks, i), score := w.score + 1)
    else x.(rocks := w.rocks[i := a.(tier := Smaller(a.tier), direction := Vec(1.0, 1.0), velocity := vel)],
            added := w.added + [Offspring(a, vel)])
  }

  /** The bullet part of one sweep step: erase the last bullet touching rocks[i] and hit it. */
  function ShootAt(w: Arena, i: nat, vel: real, norm: Vec -> real): Arena
    requires i < |w.rocks|
  {
    if w.bullets == [] then w
    else
      var j := LastHit(w.rocks[i], w.bullets, |w.bullets| - 1, norm);
      if j < 0 then w else GetHit(w.(bullets := Erase(w.bullets, j)), i, vel)
  }

  /** The ship branch: an explosion, life--, respawn(). */
  function Crash(w: Arena): Arena
  {
    Respawn(w.(life := w.life - 1, explosions := w.explosions + [EXPLOSION]))
  }

  /** The outer loop from index i down to 0. */
  function SweepDown(w: Arena, i: int, vel: real, env: Env): Arena
    requires -1 <= i < |w.rocks|
    decreases i + 1
  {
    if i < 0 then w
    else if HitsShip(w.rocks[i], w.ship, env.norm) then Crash(w)
    else SweepDown(Step(w, i, vel, env), i - 1, vel, env)
  }

  /** ck_optimize(): the sweep over every asteroid, then asteroidsAdded appended to
      manyAsteroids and cleared. */
  function CkOptimize(w: Arena, vel: real, env: Env): Arena
  {
    var s := SweepDown(w, |w.rocks| - 1, vel, env);
    s.(rocks := s.rocks + s.added, added := [])
  }

  /** The buffer only grows, and whatever a sweep adds is an offspring: direction (1, 0),
      the given velocity, and never large. */
  predicate Extends(before: seq<AsteroidData>, after: seq<AsteroidData>, vel: real)
  {
    |before| <= |after| && after[..|before|] == before
    && forall m :: |before| <= m < |after| ==>
         after[m].velocity == vel && after[m].direction == Vec(1.0, 0.0) && after[m].tier != Large
  }

  lemma ExtendsTransitive(a: seq<AsteroidData>, b: seq<AsteroidData>, c: seq<AsteroidData>, vel: real)
    requires Extends(a, b, vel) && Extends(b, c, vel)
    ensures Extends(a, c, vel)
  {
    assert c[..|a|] == c[..|b|][..|a|];
  }

  /** An asteroid hit keeps the asteroids below index i where they are, so the rest of the
      sweep still finds them. */
  lemma GetHitKeepsPrefix(w: Arena, i: nat, vel: real, norm: Vec -> real)
    requires i < |w.rocks|
    ensures |ShootAt(w, i, vel, norm).rocks| >= i
    ensures ShootAt(w, i, vel, norm).rocks[..i] == w.rocks[..i]
  {
  }

  /** ast_get_hit by tier, and its accounting: every hit consumes exactly one of the hits
      still needed to clear the asteroids on screen and in the buffer. */
  lemma GetHitFacts(w: Arena, i: nat, vel: real)
    requires i < |w.rocks|
    ensures var r := GetHit(w, i, vel);
      var a := w.rocks[i];
      && r.bullets == w.bullets && r.life == w.life && r.ship == w.ship
      && r.explosions == w.explosions + [EXPLOSION]
      && (a.tier != Small ==>
            |r.rocks| == |w.rocks| && r.rocks[i].tier == Smaller(a.tier) && r.rocks[i].pos == a.pos
            && r.rocks[i].direction == Vec(1.0, 1.0) && r.rocks[i].velocity == vel
            && (forall m :: 0 <= m < |w.rocks| && m != i ==> r.rocks[m] == w.rocks[m])
            && r.added == w.added + [Offspring(a, vel)] && r.score == w.score)
      && (a.tier == Small ==> r.rocks == Erase(w.rocks, i) && r.added == w.added && r.score == w.score + 1)
      && Potential(r.rocks) + Potential(r.added) + 1 == Potential(w.rocks) + Potential(w.added)
  {
    var a := w.rocks[i];
    if a.tier == Small {
      PotentialErase(w.rocks, i);
    } else {
      var a' := a.(tier := Smaller(a.tier), direction := Vec(1.0, 1.0), velocity := vel);
      PotentialUpdate(w.rocks, i, a');
      PotentialAppend(w.added, [Offspring(a, vel)]);
      PotentialSingle(Offspring(a, vel));
      HitsToClearSplits(a.tier);
    }
  }

  /** One asteroid removes at most one bullet, and removes one exactly when some bullet
      touches it; it is then the touching bullet of highest index. */
  lemma ShootAtChoice(w: Arena, i: nat, vel: real, norm: Vec -> real)
    requires i < |w.rocks|
    ensures var r := ShootAt(w, i, vel, norm);
      var used := |w.bullets| - |r.bullets|;
      && (used == 0 || used == 1)
      && (used == 1 <==> exists j :: 0 <= j < |w.bullets| && HitsBullet(w.rocks[i], w.bullets[j], norm))
      && (used == 0 ==> r == w)
      && (used == 1 ==> exists j :: (0 <= j < |w.bullets| && r.bullets == Erase(w.bullets, j)
            && HitsBullet(w.rocks[i], w.bullets[j], norm)
            && forall m :: j < m < |w.bullets| ==> !HitsBullet(w.rocks[i], w.bullets[m], norm)))
  {
    var r := ShootAt(w, i, vel, norm);
    if w.bullets != [] {
      var j := LastHit(w.rocks[i], w.bullets, |w.bullets| - 1, norm);
      if j >= 0 {
        assert r.bullets == Erase(w.bullets, j);
        assert |r.bullets| + 1 == |w.bullets|;
      } else {
        assert r == w;
      }
    }
  }

  /** The bookkeeping of one asteroid's bullet step: the bullet it uses, if any, consumes
      exactly one hit of the potential and adds at most one point; life and ship stay. */
  lemma ShootAtCounts(w: Arena, i: nat, vel: real, norm: Vec -> real)
    requires i < |w.rocks|
    ensures var r := ShootAt(w, i, vel, norm);
      var used := |w.bullets| - |r.bullets|;
      && r.life == w.life && r.ship == w.ship
      && 0 <= used <= 1
      && Potential(r.rocks) + Potential(r.added) + used == Potential(w.rocks) + Potential(w.added)
      && w.score <= r.score <= w.score + used
      && Extends(w.added, r.added, vel)
  {
    if w.bullets != [] {
      var j := LastHit(w.rocks[i], w.bullets, |w.bullets| - 1, norm);
      if j >= 0 {
        GetHitFacts(w.(bullets := Erase(w.bullets, j)), i, vel);
      } else {
        assert Extends(w.added, w.added, vel);
      }
    } else {
      assert Extends(w.added, w.added, vel);
    }
  }

  /** Two asteroids with the same body meet the ship alike: the test sees only the disc. */
  lemma SameBodySameDisc(x: AsteroidData, y: AsteroidData)
    requires SameBody(x, y)
    ensures RockDisc(x) == RockDisc(y)
  {
  }

  /** Bouncing changes no position or tier, so the potential and the ship test of every
      asteroid are unchanged. */
  lemma BounceKeepsShipTests(rocks: seq<AsteroidData>, i: nat, env: Env, ship: Vec)
    requires i < |rocks|
    ensures var b := BounceFrom(rocks, i, |rocks| - 1, env);
      Potential(b) == Potential(rocks)
      && forall m :: 0 <= m < |rocks| ==> (HitsShip(b[m], ship, env.norm) <==> HitsShip(rocks[m], ship, env.norm))
  {
    var b := BounceFrom(rocks, i, |rocks| - 1, env);
    PotentialOfTiers(b, rocks);
    forall m | 0 <= m < |rocks|
      ensures HitsShip(b[m], ship, env.norm) <==> HitsShip(rocks[m], ship, env.norm)
    {
      SameBodySameDisc(b[m], rocks[m]);
    }
  }

  /** The asteroid turned and shot at in one step of the sweep. */
  function Step(w: Arena, i: nat, vel: real, env: Env): (next: Arena)
    requires i < |w.rocks|
    ensures |next.rocks| >= i
  {
    GetHitKeepsPrefix(w.(rocks := BounceFrom(w.rocks, i, |w.rocks| - 1, env)), i, vel, env.norm);
    ShootAt(w.(rocks := BounceFrom(w.rocks, i, |w.rocks| - 1, env)), i, vel, env.norm)
  }

  /** A step leaves the asteroids below index i meeting the ship as before. */
  lemma StepKeepsShipTests(w: Arena, i: nat, vel: real, env: Env)
    requires i < |w.rocks|
    ensures var next := Step(w, i, vel, env);
      next.ship == w.ship
      && forall k :: 0 <= k < i ==> (HitsShip(next.rocks[k], w.ship, env.norm) <==> HitsShip(w.rocks[k], w.ship, env.norm))
  {
    var bounced := w.(rocks := BounceFrom(w.rocks, i, |w.rocks| - 1, env));
    var next := Step(w, i, vel, env);
    ShootAtCounts(bounced, i, vel, env.norm);
    GetHitKeepsPrefix(bounced, i, vel, env.norm);
    forall k | 0 <= k < i
      ensures HitsShip(next.rocks[k], w.ship, env.norm) <==> HitsShip(w.rocks[k], w.ship, env.norm)
    {
      assert next.rocks[k] == next.rocks[..i][k];
      SameBodySameDisc(bounced.rocks[k], w.rocks[k]);
    }
  }

  /** The bookkeeping of one step: the bounce changes no tier, then the bullet step's. */
  lemma StepCounts(w: Arena, i: nat, vel: real, env: Env)
    requires i < |w.rocks|
    ensures var next := Step(w, i, vel, env);
      var used := |w.bullets| - |next.bullets|;
      && next.life == w.life
      && 0 <= used <= 1
      && Potential(next.rocks) + Potential(next.added) + used == Potential(w.rocks) + Potential(w.added)
      && w.score <= next.score <= w.score + used
      && Extends(w.added, next.added, vel)
  {
    var bounced := w.(rocks := BounceFrom(w.rocks, i, |w.rocks| - 1, env));
    assert Step(w, i, vel, env) == ShootAt(bounced, i, vel, env.norm);
    PotentialOfTiers(bounced.rocks, w.rocks);
    ShootAtCounts(bounced, i, vel, env.norm);
  }

  /** A sweep either keeps life and ship, or costs exactly one life and clears the
      bullets with the ship back at the centre. */
  lemma {:induction false} SweepShape(w: Arena, i: int, vel: real, env: Env)
    requires -1 <= i < |w.rocks|
    ensures var s := SweepDown(w, i, vel, env);
      (s.life == w.life && s.ship == w.ship)
      || (s.life == w.life - 1 && s.bullets == [] && s.ship == CENTER)
    decreases i + 1
  {
    if i >= 0 && !HitsShip(w.rocks[i], w.ship, env.norm) {
      StepKeepsShipTests(w, i, vel, env);
      StepCounts(w, i, vel, env);
      SweepShape(Step(w, i, vel, env), i - 1, vel, env);
    }
  }

  /** An asteroid at index k <= i touching the ship ends the sweep with a life lost (the
      crash may come from it or from one checked before it). */
  lemma {:induction false} SweepCrashes(w: Arena, i: int, k: nat, vel: real, env: Env)
    requires k <= i < |w.rocks| && HitsShip(w.rocks[k], w.ship, env.norm)
    ensures SweepDown(w, i, vel, env).life == w.life - 1
    decreases i + 1
  {
    if !HitsShip(w.rocks[i], w.ship, env.norm) {
      StepKeepsShipTests(w, i, vel, env);
      StepCounts(w, i, vel, env);
      SweepCrashes(Step(w, i, vel, env), i - 1, k, vel, env);
    }
  }

  /** With no asteroid at index <= i touching the ship, the sweep keeps the life. */
  lemma {:induction false} SweepSafe(w: Arena, i: int, vel: real, env: Env)
    requires -1 <= i < |w.rocks|
    requires forall k :: 0 <= k <= i ==> !HitsShip(w.rocks[k], w.ship, env.norm)
    ensures SweepDown(w, i, vel, env).life == w.life
    decreases i + 1
  {
    if i >= 0 {
      StepKeepsShipTests(w, i, vel, env);
      StepCounts(w, i, vel, env);
      SweepSafe(Step(w, i, vel, env), i - 1, vel, env);
    }
  }

  /** Life drops by exactly one iff some asteroid at index <= i touches the ship; if it
      does not drop it stays with the ship, and if it drops the bullets are gone and the
      ship is at the centre. */
  lemma SweepLife(w: Arena, i: int, vel: real, env: Env)
    requires -1 <= i < |w.rocks|
    ensures var s := SweepDown(w, i, vel, env);
      && (s.life == w.life - 1 <==> exists k :: 0 <= k <= i && HitsShip(w.rocks[k], w.ship, env.norm))
      && (s.life == w.life || (s.life == w.life - 1 && s.bullets == [] && s.ship == CENTER))
      && (s.life == w.life ==> s.ship == w.ship)
  {
    SweepShape(w, i, vel, env);
    if exists k :: 0 <= k <= i && HitsShip(w.rocks[k], w.ship, env.norm) {
      var k :| 0 <= k <= i && HitsShip(w.rocks[k], w.ship, env.norm);
      SweepCrashes(w, i, k, vel, env);
    } else {
      SweepSafe(w, i, vel, env);
    }
  }

  /** Without a crash, each asteroid used up at most one bullet, every bullet used
      consumed exactly one hit of the potential, and the score rose by at most the number
      of bullets used; in any case the score never falls and the buffer only gains
      offspring. */
  lemma {:induction false} SweepCounts(w: Arena, i: int, vel: real, env: Env)
    requires -1 <= i < |w.rocks|
    ensures var s := SweepDown(w, i, vel, env);
      var used := |w.bullets| - |s.bullets|;
      && (s.life == w.life ==>
            0 <= used <= i + 1
            && Potential(s.rocks) + Potential(s.added) + used == Potential(w.rocks) + Potential(w.added)
            && s.score <= w.score + used)
      && w.score <= s.score
      && Extends(w.added, s.added, vel)
    decreases i + 1
  {
    if i >= 0 && !HitsShip(w.rocks[i], w.ship, env.norm) {
      StepCounts(w, i, vel, env);
      var next := Step(w, i, vel, env);
      SweepCounts(next, i - 1, vel, env);
      ExtendsTransitive(w.added, next.added, SweepDown(next, i - 1, vel, env).added, vel);
    } else {
      assert Extends(w.added, w.added, vel);
    }
  }

  /** ck_optimize as a whole: the same accounting over all asteroids; afterwards the
      buffer is empty and its offspring stand at the end of manyAsteroids. */
  lemma CkOptimizeFacts(w: Arena, vel: real, env: Env)
    ensures var s := SweepDown(w, |w.rocks| - 1, vel, env);
      var r := CkOptimize(w, vel, env);
      var used := |w.bullets| - |r.bullets|;
      && r.added == [] && r.rocks == s.rocks + s.added
      && (r.life == w.life - 1 <==> exists k :: 0 <= k < |w.rocks| && HitsShip(w.rocks[k], w.ship, env.norm))
      && (r.life == w.life || (r.life == w.life - 1 && r.bullets == [] && r.ship == CENTER))
      && (r.life == w.life ==>
            r.ship == w.ship && 0 <= used <= |w.rocks|
            && Potential(r.rocks) + used == Potential(w.rocks) + Potential(w.added)
            && r.score <= w.score + used)
      && w.score <= r.score
  {
    var s := SweepDown(w, |w.rocks| - 1, vel, env);
    SweepLife(w, |w.rocks| - 1, vel, env);
    SweepCounts(w, |w.rocks| - 1, vel, env);
    PotentialAppend(s.rocks, s.added);
  }

  /** A crash ends the sweep early, with the asteroid that caused it still present. */
  lemma {:induction false} CrashKeepsRocks(w: Arena, i: int, vel: real, env: Env)
    requires -1 <= i < |w.rocks|
    ensures SweepDown(w, i, vel, env).life != w.life ==> SweepDown(w, i, vel, env).rocks != []
    decreases i + 1
  {
    if i >= 0 && !HitsShip(w.rocks[i], w.ship, env.norm) {
      StepCounts(w, i, vel, env);
      CrashKeepsRocks(Step(w, i, vel, env), i - 1, vel, env);
    }
  }

  /** With nothing touching the ship and no bullets on screen, a sweep only turns
      asteroids: none is lost, none is added, and score, life, ship, bullets and
      explosions stay. */
  lemma {:induction false} QuietSweep(w: Arena, i: int, vel: real, env: Env)
    requires -1 <= i < |w.rocks| && w.bullets == []
    requires forall k :: 0 <= k <= i ==> !HitsShip(w.rocks[k], w.ship, env.norm)
    ensures var s := SweepDown(w, i, vel, env);
      |s.rocks| == |w.rocks| && s.added == w.added && s.score == w.score && s.life == w.life
      && s.bullets == [] && s.ship == w.ship && s.explosions == w.explosions
      && forall m :: 0 <= m < |w.rocks| ==> SameBody(s.rocks[m], w.rocks[m])
    decreases i + 1
  {
    if i >= 0 {
      var next := Step(w, i, vel, env);
      assert next == w.(rocks := BounceFrom(w.rocks, i, |w.rocks| - 1, env));
      StepKeepsShipTests(w, i, vel, env);
      QuietSweep(next, i - 1, vel, env);
    }
  }

  /** The last small asteroid shot: one small asteroid, one bullet touching it and the
      ship clear of it leave no asteroid, no bullet, and one more point. */
  lemma LastSmallShot(w: Arena, vel: real, env: Env)
    requires |w.rocks| == 1 && w.rocks[0].tier == Small && w.added == []
    requires |w.bullets| == 1 && HitsBullet(w.rocks[0], w.bullets[0], env.norm) && !HitsShip(w.rocks[0], w.ship, env.norm)
    ensures CkOptimize(w, vel, env).rocks == []
    ensures CkOptimize(w, vel, env).bullets == []
    ensures CkOptimize(w, vel, env).score == w.score + 1
    ensures CkOptimize(w, vel, env).life == w.life
  {
    var bounced := w.(rocks := BounceFrom(w.rocks, 0, 0, env));
    assert bounced == w.(rocks := BounceFrom(w.rocks, 0, -1, env));
    assert LastHit(w.rocks[0], w.bullets, 0, env.norm) == 0;
  }
}
