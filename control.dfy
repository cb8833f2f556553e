/** setControl of Main.cpp: the ship's direction tag (shiptDirState) and its drift
    velocity (tempShipVelocity). While a movement key is held the velocity snaps to
    shipVelocity; with no key held it decays by speedInterval each frame. */
module ShipControl {
  import opened Geometry
  import opened Input

  /** shipVelocity and speedInterval. Both are integral, so the velocity is an int. */
  const SHIP_VELOCITY: int := 500
  const SPEED_INTERVAL: int := 4

  datatype Control = Control(tag: string, velocity: int)

  /** The state before the first frame: an empty sf::String and 0. */
  const INITIAL: Control := Control("", 0)

  /** The tags the decay chain recognises. */
  predicate Recognised(tag: string)
  {
    tag in {"A", "AW", "AS", "D", "DS", "DW", "W", "WA", "WD", "S", "SA", "SD"}
  }

  /** The tags setControl can actually store: W and S are only checked after A and D,
      so "WA", "WD", "SA" and "SD" are never set. */
  predicate Reachable(tag: string)
  {
    tag in {"", "A", "AW", "AS", "D", "DS", "DW", "W", "S"}
  }

  /** The per-axis factor of each tag's move call: a single direction moves one axis by
      velocity * dt, a diagonal moves both axes by velocity * dt / 2; an unrecognised
      tag does not move. */
  function Heading(tag: string): Vec
  {
    if tag == "A" then Vec(-1.0, 0.0)
    else if tag == "AW" || tag == "WA" then Vec(-0.5, -0.5)
    else if tag == "AS" || tag == "SA" then Vec(-0.5, 0.5)
    else if tag == "D" then Vec(1.0, 0.0)
    else if tag == "DS" || tag == "SD" then Vec(0.5, 0.5)
    else if tag == "DW" || tag == "WD" then Vec(0.5, -0.5)
    else if tag == "W" then Vec(0.0, -1.0)
    else if tag == "S" then Vec(0.0, 1.0)
    else Vec(0.0, 0.0)
  }

  /** One frame of decay as written: clamp to 0 when the drop would go negative, then drop. */
  function Decay(v: int): int
  {
    (if v - SPEED_INTERVAL < 0 then 0 else v) - SPEED_INTERVAL
  }

  /** The tag and velocity after one call of setControl. */
  function Steer(c: Control, k: Keys): Control
  {
    if k.a then Control(if k.w then "AW" else if k.s then "AS" else "A", SHIP_VELOCITY)
    else if k.d then Control(if k.s then "DS" else if k.w then "DW" else "D", SHIP_VELOCITY)
    else if k.w then Control("W", SHIP_VELOCITY)
    else if k.s then Control("S", SHIP_VELOCITY)
    else if Recognised(c.tag) then Control(c.tag, Decay(c.velocity))
    else Control("", c.velocity)
  }

  /** The ship's displacement in the frame, from the new tag and velocity. */
  function Displacement(c: Control, dt: real): Vec
  {
    Scale(Heading(c.tag), c.velocity as real * dt)
  }

  /** n frames with no movement key held. */
  function Coast(c: Control, n: nat): Control
    decreases n
  {
    if n == 0 then c else Coast(Steer(c, NO_KEYS), n - 1)
  }

  /** Holding any key snaps the velocity to shipVelocity; A beats D beats W beats S,
      and the second key only selects a diagonal. */
  lemma HeldKeySnaps(c: Control, k: Keys)
    requires AnyHeld(k)
    ensures Steer(c, k).velocity == SHIP_VELOCITY
    ensures Steer(c, k).tag[0] == (if k.a then 'A' else if k.d then 'D' else if k.w then 'W' else 'S')
    ensures Heading(Steer(c, k).tag) != Vec(0.0, 0.0)
  {
  }

  /** The decay quirk: the velocity falls by speedInterval while it stays non-negative,
      then becomes 0 - 4 and stays at -4 for ever; the tag is never cleared. */
  lemma {:induction false} CoastClosedForm(c: Control, n: nat)
    requires Recognised(c.tag) && c.velocity >= 0
    ensures Coast(c, n).tag == c.tag
    ensures Coast(c, n).velocity
         == if c.velocity - SPEED_INTERVAL * n >= 0 then c.velocity - SPEED_INTERVAL * n else -SPEED_INTERVAL
    decreases n
  {
    if n > 0 {
      var c1 := Steer(c, NO_KEYS);
      if c.velocity - SPEED_INTERVAL >= 0 {
        CoastClosedForm(c1, n - 1);
      } else {
        assert c1 == Control(c.tag, -SPEED_INTERVAL);
        CoastAtFloor(c1, n - 1);
      }
    }
  }

  /** -4 is a fixed point of the decay. */
  lemma {:induction false} CoastAtFloor(c: Control, n: nat)
    requires Recognised(c.tag) && c.velocity == -SPEED_INTERVAL
    ensures Coast(c, n) == c
    decreases n
  {
    if n > 0 {
      assert Steer(c, NO_KEYS) == c;
      CoastAtFloor(c, n - 1);
    }
  }

  /** From full speed: after 125 idle frames the velocity is exactly 0, and from the next
      frame on it is -4, so the ship creeps backwards along its last heading. */
  lemma ReleasedAtFullSpeed(tag: string, n: nat)
    requires Recognised(tag)
    ensures Coast(Control(tag, SHIP_VELOCITY), 125).velocity == 0
    ensures n > 125 ==> Coast(Control(tag, SHIP_VELOCITY), n) == Control(tag, -SPEED_INTERVAL)
  {
    CoastClosedForm(Control(tag, SHIP_VELOCITY), 125);
    CoastClosedForm(Control(tag, SHIP_VELOCITY), n);
  }

  /** At the -4 floor the displacement is the opposite of the tag's heading. */
  lemma CreepIsBackwards(tag: string, dt: real)
    requires Recognised(tag) && dt > 0.0
    ensures var m := Displacement(Control(tag, -SPEED_INTERVAL), dt);
      var h := Heading(tag);
      m == Scale(h, -4.0 * dt) && (h.x > 0.0 ==> m.x < 0.0) && (h.x < 0.0 ==> m.x > 0.0)
  {
    var h := Heading(tag);
    assert h.x == 1.0 || h.x == -1.0 || h.x == 0.5 || h.x == -0.5 || h.x == 0.0;
  }

  /** The states setControl can reach from the initial one: a reachable tag and a velocity
      in {500, 496, ..., 4, 0, -4}. */
  predicate Invariant(c: Control)
  {
    Reachable(c.tag) && -SPEED_INTERVAL <= c.velocity <= SHIP_VELOCITY && c.velocity % SPEED_INTERVAL == 0
  }

  lemma InvariantHolds(c: Control, k: Keys)
    ensures Invariant(INITIAL)
    ensures Invariant(c) ==> Invariant(Steer(c, k))
  {
  }

  /** With no key held and an unrecognised tag (the initial empty one), the tag is reset
      to empty, the velocity is kept and the ship does not move. */
  lemma UnrecognisedStandsStill(c: Control, dt: real)
    requires !Recognised(c.tag)
    ensures Steer(c, NO_KEYS) == Control("", c.velocity)
    ensures Displacement(Steer(c, NO_KEYS), dt) == Vec(0.0, 0.0)
  {
  }
}
