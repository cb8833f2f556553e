/** The screen-wrap chains of update_state. Bullets and asteroids share one else-if chain
    (top, bottom, left, right, each against the entity's radius); the ship has its own
    chain that fires only while the key for that direction is held. */
module Wrap {
  import opened Geometry
  import opened Input

  datatype Edge = Top | Bottom | Left | Right

  datatype Option = None | Some(edge: Edge)

  /** Which branch of the bullet/asteroid chain fires for a body at p of radius r, if any. */
  function Crossed(p: Vec, r: real): (e: Option)
  {
    if p.y + r <= 0.0 then Some(Top)
    else if p.y + r >= GAME_HEIGHT then Some(Bottom)
    else if p.x + r <= 0.0 then Some(Left)
    else if p.x + r >= GAME_WIDTH then Some(Right)
    else None
  }

  /** The position the fired branch sets: one pixel inside the opposite edge, keeping the
      other coordinate of p. */
  function Landing(p: Vec, r: real, e: Edge): Vec
  {
    match e
    case Top => Vec(p.x, GAME_HEIGHT - r - 1.0)
    case Bottom => Vec(p.x, -r + 1.0)
    case Left => Vec(GAME_WIDTH - r - 1.0, p.y)
    case Right => Vec(-r + 1.0, p.y)
  }

  /** The asteroid chain: tests and rewrites the same position. */
  function Wrapped(p: Vec, r: real): Vec
  {
    match Crossed(p, r)
    case None => p
    case Some(e) => Landing(p, r, e)
  }

  /** The bullet chain: the tests and the rewritten coordinates are those captured before
      moveBullet; only when no branch fires does the moved position stand. */
  function WrappedAfterMove(before: Vec, moved: Vec, r: real): Vec
  {
    match Crossed(before, r)
    case None => moved
    case Some(e) => Landing(before, r, e)
  }

  predicate InsideY(p: Vec, r: real) { 0.0 < p.y + r < GAME_HEIGHT }
  predicate InsideX(p: Vec, r: real) { 0.0 < p.x + r < GAME_WIDTH }

  /** The chain fires exactly when the body is not strictly inside on both axes, and the
      vertical tests take precedence. */
  lemma CrossedIffOutside(p: Vec, r: real)
    ensures Crossed(p, r) == None <==> InsideY(p, r) && InsideX(p, r)
    ensures Crossed(p, r).Some? && Crossed(p, r).edge in {Left, Right} ==> InsideY(p, r)
  {
  }

  /** After any wrap the wrapped axis is strictly inside the window, and the other
      coordinate is the one that was checked. */
  lemma LandingIsInside(p: Vec, r: real)
    requires Crossed(p, r).Some?
    ensures var q := Landing(p, r, Crossed(p, r).edge);
      match Crossed(p, r).edge
      case Top => InsideY(q, r) && q.x == p.x && q.y + r == GAME_HEIGHT - 1.0
      case Bottom => InsideY(q, r) && q.x == p.x && q.y + r == 1.0
      case Left => InsideX(q, r) && q.y == p.y && q.x + r == GAME_WIDTH - 1.0
      case Right => InsideX(q, r) && q.y == p.y && q.x + r == 1.0
  {
  }

  /** A body that fails all four tests is left where it is, so a second check of a body
      already inside changes nothing. */
  lemma InsideIsFixed(p: Vec, r: real)
    requires InsideY(p, r) && InsideX(p, r)
    ensures Wrapped(p, r) == p
    ensures Wrapped(Wrapped(p, r), r) == p
  {
  }

  /** A body leaving through a corner wraps one axis per check: the second check settles
      it inside, and a third check changes nothing. */
  lemma TwoChecksSettle(p: Vec, r: real)
    ensures var q := Wrapped(Wrapped(p, r), r);
      InsideY(q, r) && InsideX(q, r) && Wrapped(q, r) == q
  {
    var p1 := Wrapped(p, r);
    if Crossed(p, r).Some? {
      LandingIsInside(p, r);
      if Crossed(p1, r).Some? {
        LandingIsInside(p1, r);
      }
    }
  }

  /** A bullet that wraps loses that frame's motion: the result does not depend on where
      moveBullet took it. */
  lemma WrappedBulletIgnoresMotion(before: Vec, moved1: Vec, moved2: Vec, r: real)
    requires Crossed(before, r).Some?
    ensures WrappedAfterMove(before, moved1, r) == WrappedAfterMove(before, moved2, r)
  {
  }

  /** The ship's chain; shipRadius is 55. A branch fires only while its key is held. */
  function WrappedShip(p: Vec, keys: Keys): Vec
  {
    var r := 55.0;
    if p.y + r <= 0.0 && keys.w then Vec(p.x, GAME_HEIGHT - r)
    else if p.y + r >= GAME_HEIGHT && keys.s then Vec(p.x, -r)
    else if p.x + r <= 0.0 && keys.a then Vec(GAME_WIDTH - r, p.y)
    else if p.x + r >= GAME_WIDTH && keys.d then Vec(-r, p.y)
    else p
  }

  /** With no movement key held the ship never wraps, however far off screen it is. */
  lemma ShipStaysWithoutKeys(p: Vec)
    ensures WrappedShip(p, NO_KEYS) == p
  {
  }

  /** Unlike bullets and asteroids, a wrapped ship lands exactly on the opposite edge
      (coordinate + radius equal to the extent or to 0), not strictly inside it. */
  lemma ShipLandsOnEdge(p: Vec, keys: Keys)
    requires WrappedShip(p, keys) != p
    ensures var q := WrappedShip(p, keys);
      (q.x == p.x && (q.y + 55.0 == GAME_HEIGHT || q.y + 55.0 == 0.0))
      || (q.y == p.y && (q.x + 55.0 == GAME_WIDTH || q.x + 55.0 == 0.0))
  {
  }
}
