/** create_ast of Main.cpp: a wave of twelve asteroids placed on the four screen edges,
    each sized and placed from one std::rand() value. */
module Waves {
  import opened Geometry
  import opened Asteroids

  const WAVE_SIZE: nat := 12

  /** switch (randomNum % 3): 0 small, 1 medium, 2 large. */
  function TierOf(n: nat): Tier
  {
    if n % 3 == 0 then Small else if n % 3 == 1 then Medium else Large
  }

  /** The placement chain: i < 3 on the top edge, 3 <= i < 7 on the bottom edge,
      7 < i < 10 on the left edge, and everything else (7, 10, 11) on the right edge. */
  function SpawnPoint(i: nat, n: nat): Vec
  {
    if i < 3 then Vec((n % 2880) as real, 1.0)
    else if i >= 3 && i < 7 then Vec((n % 2880) as real, GAME_HEIGHT - 1.0)
    else if i > 7 && i < 10 then Vec(1.0, (n % 1800) as real)
    else Vec(GAME_WIDTH - 1.0, (n % 1800) as real)
  }

  /** The i-th asteroid of a wave, from the random value n: velocity astroidVelocity and
      direction (sin n, cos n), which `heading` stands for. */
  function Spawned(i: nat, n: nat, velocity: real, heading: int -> Vec): AsteroidData
  {
    AsteroidData(SpawnPoint(i, n), heading(n), velocity, TierOf(n))
  }

  /** The wave built from the twelve random values rand(start), ..., rand(start + 11). */
  function Wave(rand: nat -> nat, start: nat, velocity: real, heading: int -> Vec): seq<AsteroidData>
  {
    seq(WAVE_SIZE, i requires 0 <= i < WAVE_SIZE => Spawned(i, rand(start + i), velocity, heading))
  }

  predicate OnTop(p: Vec) { p.y == 1.0 && 0.0 <= p.x < GAME_WIDTH }
  predicate OnBottom(p: Vec) { p.y == GAME_HEIGHT - 1.0 && 0.0 <= p.x < GAME_WIDTH }
  predicate OnLeft(p: Vec) { p.x == 1.0 && 0.0 <= p.y < GAME_HEIGHT }
  predicate OnRight(p: Vec) { p.x == GAME_WIDTH - 1.0 && 0.0 <= p.y < GAME_HEIGHT }

  /** A wave built one asteroid at a time: the first i + 1 asteroids are the first i and
      the one spawned from the (i + 1)-th random value. */
  lemma WavePrefix(rand: nat -> nat, start: nat, velocity: real, heading: int -> Vec, i: nat)
    requires i < WAVE_SIZE
    ensures var w := Wave(rand, start, velocity, heading);
      w[..i + 1] == w[..i] + [Spawned(i, rand(start + i), velocity, heading)]
  {
    var w := Wave(rand, start, velocity, heading);
    assert w[i] == Spawned(i, rand(start + i), velocity, heading);
  }

  /** Every wave has twelve asteroids moving at the given speed, sized by rand() % 3, three
      on the top edge, four on the bottom, two on the left and three on the right. */
  lemma WaveLayout(rand: nat -> nat, start: nat, velocity: real, heading: int -> Vec)
    ensures var w := Wave(rand, start, velocity, heading);
      |w| == 12
      && (forall i :: 0 <= i < 12 ==> w[i].velocity == velocity && w[i].tier == TierOf(rand(start + i)))
      && (forall i :: 0 <= i < 3 ==> OnTop(w[i].pos))
      && (forall i :: 3 <= i < 7 ==> OnBottom(w[i].pos))
      && OnLeft(w[8].pos) && OnLeft(w[9].pos)
      && OnRight(w[7].pos) && OnRight(w[10].pos) && OnRight(w[11].pos)
  {
    var w := Wave(rand, start, velocity, heading);
    forall i | 0 <= i < 12
      ensures w[i] == Spawned(i, rand(start + i), velocity, heading)
    {
    }
  }

  /** A fresh wave is twelve asteroids at the given speed holding between 12 and 84 hits
      of work. */
  lemma WavePotential(rand: nat -> nat, start: nat, velocity: real, heading: int -> Vec)
    ensures var w := Wave(rand, start, velocity, heading);
      |w| == 12 && (forall k :: 0 <= k < 12 ==> w[k].velocity == velocity) && 12 <= Potential(w) <= 84
  {
    var w := Wave(rand, start, velocity, heading);
    forall k | 0 <= k < 12
      ensures w[k].velocity == velocity
    {
      assert w[k] == Spawned(k, rand(start + k), velocity, heading);
    }
    PotentialBounds(Wave(rand, start, velocity, heading));
  }

  /** Each asteroid's tier follows its random value: small, medium and large in turn. */
  lemma TierCycles(n: nat)
    ensures TierOf(n) == TierOf(n + 3)
    ensures TierOf(3 * n) == Small && TierOf(3 * n + 1) == Medium && TierOf(3 * n + 2) == Large
  {
  }
}
