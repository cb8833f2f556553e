/** Asteroid.cpp: an obstacle with a direction and a speed; its CircleShape radius is one
    of three sizes (sAstRadius, mAstRadius, bAstRadius of Main.cpp), kept here as a tier. */
module Asteroids {
  import opened Geometry

  datatype Tier = Small | Medium | Large

  function Radius(t: Tier): real
  {
    match t
    case Small => 35.0
    case Medium => 55.0
    case Large => 85.0
  }

  /** The three radii are distinct, so the radius comparisons of Main.cpp identify the tier. */
  lemma RadiusIdentifiesTier(t: Tier, u: Tier)
    ensures Radius(t) == Radius(u) <==> t == u
  {
  }

  /** The tier a hit leaves behind: large becomes medium, medium becomes small. */
  function Smaller(t: Tier): Tier
    requires t != Small
  {
    if t == Large then Medium else Small
  }

  /** How many bullet hits it takes to clear an asteroid of this tier together with all of
      its offspring: a hit on a large one leaves two medium ones, a hit on a medium one
      leaves two small ones, a hit on a small one leaves nothing. */
  function HitsToClear(t: Tier): (n: nat)
    ensures n >= 1
  {
    match t
    case Small => 1
    case Medium => 3
    case Large => 7
  }

  /** One hit replaces an asteroid by two of the next tier, consuming exactly one hit. */
  lemma HitsToClearSplits(t: Tier)
    requires t != Small
    ensures HitsToClear(t) == 2 * HitsToClear(Smaller(t)) + 1
  {
  }

  /** The state of one element of manyAsteroids (or of asteroidsAdded). */
  datatype AsteroidData = AsteroidData(pos: Vec, direction: Vec, velocity: real, tier: Tier)

  /** moveAst on an asteroid value. */
  function Drifted(a: AsteroidData, dt: real): AsteroidData
  {
    a.(pos := Advance(a.pos, a.direction, a.velocity, dt))
  }

  /** moveAsteroid on an asteroid value: straight down the screen, whatever the direction. */
  function Fallen(a: AsteroidData, dt: real): AsteroidData
  {
    a.(pos := Add(a.pos, Vec(0.0, a.velocity * dt)))
  }

  /** moveAsteroid is moveAst with the direction replaced by (0, 1). */
  lemma FallenIsDriftDown(a: AsteroidData, dt: real)
    ensures Fallen(a, dt) == Drifted(a.(direction := Vec(0.0, 1.0)), dt).(direction := a.direction)
  {
  }

  /** Sum of HitsToClear over a sequence of asteroids. */
  function Potential(s: seq<AsteroidData>): nat
  {
    if s == [] then 0 else HitsToClear(s[0].tier) + Potential(s[1..])
  }

  lemma {:induction false} PotentialAppend(s: seq<AsteroidData>, t: seq<AsteroidData>)
    ensures Potential(s + t) == Potential(s) + Potential(t)
  {
    if s == [] {
      assert s + t == t;
    } else {
      assert (s + t)[1..] == s[1..] + t;
      PotentialAppend(s[1..], t);
    }
  }

  lemma PotentialSingle(a: AsteroidData)
    ensures Potential([a]) == HitsToClear(a.tier)
  {
    assert [a][1..] == [];
  }

  /** Replacing the element at i changes the potential by the difference of the two tiers. */
  lemma PotentialUpdate(s: seq<AsteroidData>, i: nat, a: AsteroidData)
    requires i < |s|
    ensures Potential(s[i := a]) + HitsToClear(s[i].tier) == Potential(s) + HitsToClear(a.tier)
  {
    assert s == s[..i] + [s[i]] + s[i + 1..];
    assert s[i := a] == s[..i] + [a] + s[i + 1..];
    PotentialAppend(s[..i] + [s[i]], s[i + 1..]);
    PotentialAppend(s[..i], [s[i]]);
    PotentialAppend(s[..i] + [a], s[i + 1..]);
    PotentialAppend(s[..i], [a]);
    PotentialSingle(s[i]);
    PotentialSingle(a);
  }

  /** Erasing the element at i removes exactly its HitsToClear from the potential. */
  lemma PotentialErase(s: seq<AsteroidData>, i: nat)
    requires i < |s|
    ensures Potential(s[..i] + s[i + 1..]) + HitsToClear(s[i].tier) == Potential(s)
  {
    var p, q := s[..i], s[i + 1..];
    var t := [s[i]] + q;
    assert s == p + t;
    assert t[1..] == q;
    PotentialAppend(p, t);
    PotentialAppend(p, q);
  }

  /** Two sequences whose tiers agree position by position have the same potential. */
  lemma {:induction false} PotentialOfTiers(s: seq<AsteroidData>, t: seq<AsteroidData>)
    requires |s| == |t|
    requires forall m :: 0 <= m < |s| ==> s[m].tier == t[m].tier
    ensures Potential(s) == Potential(t)
  {
    if s != [] {
      PotentialOfTiers(s[1..], t[1..]);
    }
  }

  /** The potential bounds the population: it is zero exactly when no asteroid is left,
      and lies between one and seven hits per asteroid. */
  lemma {:induction false} PotentialBounds(s: seq<AsteroidData>)
    ensures |s| <= Potential(s) <= 7 * |s|
    ensures Potential(s) == 0 <==> s == []
  {
    if s != [] {
      PotentialBounds(s[1..]);
    }
  }

  class Asteroid {
    var pos: Vec
    var velocity: real
    var direction: Vec
    var tier: Tier

    /** The value this object contributes to manyAsteroids. */
    function Data(): AsteroidData
      reads this
    {
      AsteroidData(pos, direction, velocity, tier)
    }

    /** `new Asteroid()` followed by the setRadius call that create_ast and ast_get_hit
        always make: the position starts at the origin and the direction at (0, 0). */
    constructor (t: Tier)
      ensures tier == t && pos == Vec(0.0, 0.0) && direction == Vec(0.0, 0.0)
    {
      tier := t;
      pos := Vec(0.0, 0.0);
      direction := Vec(0.0, 0.0);
      velocity := 0.0;
    }

    method SetVelocity(newVel: real)
      modifies this`velocity
      ensures velocity == newVel
    {
      velocity := newVel;
    }

    method SetDirection(newDirection: Vec)
      modifies this`direction
      ensures direction == newDirection
    {
      direction := newDirection;
    }

    method GetDirection() returns (d: Vec)
      ensures d == direction
    {
      d := direction;
    }

    /** setPosition(getPosition() + Vector2f(0, velocity * dt)). */
    method MoveAsteroid(dt: real)
      modifies this`pos
      ensures Data() == Fallen(old(Data()), dt)
    {
      pos := Add(pos, Vec(0.0, velocity * dt));
    }

    /** setPosition(getPosition() + direction * velocity * dt). */
    method MoveAst(dt: real)
      modifies this`pos
      ensures Data() == Drifted(old(Data()), dt)
    {
      pos := Add(pos, Scale(direction, velocity * dt));
    }
  }
}
