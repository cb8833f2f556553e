/** What the game reads from the keyboard and mouse in one frame, as plain values. */
module Input {
  import opened Geometry

  /** The four movement keys A, D, W and S. */
  datatype Keys = Keys(a: bool, d: bool, w: bool, s: bool)

  const NO_KEYS: Keys := Keys(false, false, false, false)

  predicate AnyHeld(k: Keys) { k.a || k.d || k.w || k.s }

  /** One frame's input: movement keys, the left mouse button (fire), the unit aim vector
      (sin, -cos) of the ship's rotation, the menu keys Enter, P, R and Escape, the
      invincibility key I, and whether the window reported a Closed event. */
  datatype FrameInput = FrameInput(
    keys: Keys,
    fire: bool,
    aim: Vec,
    enter: bool,
    p: bool,
    r: bool,
    esc: bool,
    i: bool,
    closed: bool)
}
