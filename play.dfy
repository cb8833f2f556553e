/** The game's frame logic in Main.cpp as functions on the whole global state: the wave,
    level and restart helpers, setControl and shoot, update_state, the three menu screens
    and main's dispatch on GameState. */
module Play {
  import opened Geometry
  import opened Input
  import opened Bullets
  import opened Asteroids
  import opened Animations
  import opened ShipControl
  import opened Wrap
  import opened Waves
  import opened World
  import opened Sweep

  /** GameState values: the menu, playing, exiting and the death screen. */
  const MENU: int := 0
  const PLAYING: int := 1
  const EXITING: int := 2
  const DEAD: int := 3

  /** astroidVelocity at the start and its raises on a level up and on the P key. */
  const START_VELOCITY: real := 250.0
  const LEVEL_BOOST: real := 50.0
  const SKIP_BOOST: real := 100.0
  const START_LIFE: int := 3

  /** How far ahead of the ship a bullet appears. */
  const MUZZLE: real := 80.0

  /** One pass of main's loop: the input polled and the time read in it. */
  datatype Tick = Tick(input: FrameInput, now: real, dt: real)

  /** create_ast(): a wave at the current astroidVelocity, from the next twelve rand() values. */
  function CreateAst(s: Snapshot, env: Env): Snapshot
  {
    s.(arena := s.arena.(rocks := s.arena.rocks + Wave(env.rand, s.randCalls, s.session.astVel, env.heading)),
       randCalls := s.randCalls + WAVE_SIZE)
  }

  /** The globals as initialised, the ship placed at the centre, then main's create_ast(). */
  function Boot(env: Env): Snapshot
  {
    CreateAst(Snapshot(Session(MENU, false, true, 1, START_VELOCITY), INITIAL,
                       Arena([], [], [], 0, START_LIFE, CENTER, []), 0), env)
  }

  /** restart(). isPaused, the ship control and asteroidsAdded are not touched. */
  function Restart(s: Snapshot, env: Env): Snapshot
  {
    var cleared := s.(session := s.session.(astVel := START_VELOCITY, level := 1, gameState := PLAYING),
                      arena := s.arena.(score := 0, life := START_LIFE, bullets := [], rocks := [], explosions := []));
    var filled := CreateAst(cleared, env);
    filled.(arena := filled.arena.(ship := CENTER))
  }

  /** levelUp(). */
  function LevelUp(s: Snapshot, env: Env): Snapshot
  {
    var cleared := s.(session := s.session.(level := s.session.level + 1, astVel := s.session.astVel + LEVEL_BOOST),
                      arena := s.arena.(bullets := [], rocks := [], explosions := []));
    var filled := CreateAst(cleared, env);
    filled.(arena := filled.arena.(ship := CENTER))
  }

  /** The P key during play: the ship to the centre, astroidVelocity + 100, a fresh wave
      instead of the asteroids and bullets on screen. */
  function SkipWave(s: Snapshot, env: Env): Snapshot
  {
    var cleared := s.(session := s.session.(astVel := s.session.astVel + SKIP_BOOST),
                      arena := s.arena.(ship := CENTER, bullets := [], rocks := []));
    CreateAst(cleared, env)
  }

  /** The bullet shoot() creates: 80 ahead of the ship along the aim, moving along the aim
      at bulletVelocity, its clock started now. */
  function NewBullet(ship: Vec, aim: Vec, now: real): BulletData
  {
    BulletData(Add(ship, Scale(aim, MUZZLE)), aim, BULLET_VELOCITY, Clock(now))
  }

  /** shoot(). */
  function Shoot(s: Snapshot, now: real, aim: Vec): Snapshot
  {
    s.(arena := s.arena.(bullets := s.arena.bullets + [NewBullet(s.arena.ship, aim, now)]))
  }

  /** setControl(dt): steer, move the ship by the new tag and velocity, and shoot while
      the left button is held. */
  function SetControl(s: Snapshot, input: FrameInput, now: real, dt: real): Snapshot
  {
    var c := Steer(s.control, input.keys);
    var moved := s.(control := c, arena := s.arena.(ship := Add(s.arena.ship, Displacement(c, dt))));
    if input.fire then Shoot(moved, now, input.aim) else moved
  }

  /** The entity loops of update_state: the ship wrap, the bullet loop, the asteroid loop. */
  function Move(a: Arena, keys: Keys, now: real, dt: real): Arena
  {
    a.(ship := WrappedShip(a.ship, keys), bullets := StepBullets(a.bullets, now, dt), rocks := StepRocks(a.rocks, dt))
  }

  /** The end of update_state: ck_optimize, a level up once no asteroid is left, and the
      explosion loop. */
  function Settle(s: Snapshot, env: Env): Snapshot
  {
    var swept := s.(arena := CkOptimize(s.arena, s.session.astVel, env));
    var next := if swept.arena.rocks == [] then LevelUp(swept, env) else swept;
    next.(arena := next.arena.(explosions := Cleanup(next.arena.explosions)))
  }

  /** The start of update_state: Escape pauses (the frame still runs to the end), a life
      count of zero or less switches to the death screen, and P skips to a fresh wave. */
  function Begin(s: Snapshot, input: FrameInput, env: Env): Snapshot
  {
    var s1 := if input.esc then s.(session := s.session.(paused := true)) else s;
    var s2 := if s1.arena.life <= 0 then s1.(session := s1.session.(gameState := DEAD)) else s1;
    if input.p then SkipWave(s2, env) else s2
  }

  /** update_state(dt): the start, then the entities move and the frame settles. The
      life test reads the life count from before this frame's sweep. */
  function Update(s: Snapshot, input: FrameInput, now: real, dt: real, env: Env): Snapshot
  {
    var s3 := Begin(s, input, env);
    Settle(s3.(arena := Move(s3.arena, input.keys, now, dt)), env)
  }

  /** render_menu(): Enter starts, otherwise P exits. */
  function Menu(s: Snapshot, input: FrameInput): Snapshot
  {
    if input.enter then s.(session := s.session.(gameState := PLAYING))
    else if input.p then s.(session := s.session.(gameState := EXITING))
    else s
  }

  /** render_pause(): Enter restarts, otherwise R resumes, otherwise P exits. */
  function Pause(s: Snapshot, input: FrameInput, env: Env): Snapshot
  {
    if input.enter then Restart(s.(session := s.session.(paused := false)), env)
    else if input.r then s.(session := s.session.(paused := false))
    else if input.p then s.(session := s.session.(gameState := EXITING))
    else s
  }

  /** render_death(): Enter restarts, otherwise Escape exits. */
  function Death(s: Snapshot, input: FrameInput, env: Env): Snapshot
  {
    if input.enter then Restart(s, env)
    else if input.esc then s.(session := s.session.(gameState := EXITING))
    else s
  }

  /** One pass of main's loop: a Closed event closes the window, then the GameState switch
      runs (the window is only checked at the top of the next pass). */
  function Frame(s: Snapshot, t: Tick, env: Env): Snapshot
  {
    var s0 := if t.input.closed then s.(session := s.session.(open := false)) else s;
    var g := s0.session.gameState;
    if g == MENU then Menu(s0, t.input)
    else if g == PLAYING then
      (if s0.session.paused then Pause(s0, t.input, env)
       else Update(SetControl(s0, t.input, t.now, t.dt), t.input, t.now, t.dt, env))
    else if g == EXITING then s0.(session := s0.session.(open := false))
    else if g == DEAD then Death(s0, t.input, env)
    else s0
  }

  /** main's loop over a sequence of passes, each made only while the window is open. */
  function Run(s: Snapshot, ticks: seq<Tick>, env: Env): Snapshot
    decreases |ticks|
  {
    if ticks == [] || !s.session.open then s
    else Run(Frame(s, ticks[0], env), ticks[1..], env)
  }

  /** GameState holds one of the four screens, and no offspring wait outside ck_optimize. */
  predicate Settled(s: Snapshot)
  {
    MENU <= s.session.gameState <= DEAD && s.arena.added == []
  }

  /** The starting state: the menu, 3 lives, level 1, speed 250, twelve asteroids standing
      for 12 to 84 hits, and twelve rand() calls made. */
  lemma BootFacts(env: Env)
    ensures var s := Boot(env);
      && Settled(s) && s.session.gameState == MENU && s.session.open && !s.session.paused
      && s.arena.life == 3 && s.arena.score == 0 && s.session.level == 1 && s.session.astVel == 250.0
      && |s.arena.rocks| == 12 && 12 <= Potential(s.arena.rocks) <= 84
      && s.arena.bullets == [] && s.arena.ship == CENTER && s.randCalls == 12
  {
    var w := Wave(env.rand, 0, START_VELOCITY, env.heading);
    WavePotential(env.rand, 0, START_VELOCITY, env.heading);
    assert [] + w == w;
  }

  /** restart() brings back the starting numbers whatever the state; the asteroids are
      the next wave at speed 250. */
  lemma RestartResets(s: Snapshot, env: Env)
    ensures var r := Restart(s, env);
      && r.session.gameState == PLAYING && r.session.level == 1 && r.session.astVel == 250.0
      && r.arena.score == 0 && r.arena.life == 3 && r.arena.bullets == [] && r.arena.explosions == []
      && r.arena.ship == CENTER && r.arena.rocks == Wave(env.rand, s.randCalls, 250.0, env.heading)
      && |r.arena.rocks| == 12 && r.randCalls == s.randCalls + 12
      && r.control == s.control && r.session.paused == s.session.paused && r.session.open == s.session.open
  {
    WavePotential(env.rand, s.randCalls, START_VELOCITY, env.heading);
  }

  /** levelUp() keeps score and life, raises level by one and speed by 50, and starts a
      twelve-asteroid wave at the new speed with the ship at the centre. */
  lemma LevelUpFacts(s: Snapshot, env: Env)
    ensures var r := LevelUp(s, env);
      && r.session.level == s.session.level + 1 && r.session.astVel == s.session.astVel + 50.0
      && r.arena.score == s.arena.score && r.arena.life == s.arena.life
      && r.session.gameState == s.session.gameState && r.arena.added == s.arena.added
      && |r.arena.rocks| == 12 && (forall k :: 0 <= k < 12 ==> r.arena.rocks[k].velocity == r.session.astVel)
      && 12 <= Potential(r.arena.rocks) <= 84
      && r.arena.bullets == [] && r.arena.explosions == [] && r.arena.ship == CENTER
  {
    var w := Wave(env.rand, s.randCalls, s.session.astVel + LEVEL_BOOST, env.heading);
    WavePotential(env.rand, s.randCalls, s.session.astVel + LEVEL_BOOST, env.heading);
    assert [] + w == w;
    assert LevelUp(s, env).arena.rocks == w;
  }

  /** The P key discards the asteroids and bullets on screen for a wave 100 faster, and
      keeps the level, score, life and explosions. */
  lemma SkipWaveFacts(s: Snapshot, env: Env)
    ensures var r := SkipWave(s, env);
      && r.session.astVel == s.session.astVel + 100.0 && r.session.level == s.session.level
      && r.arena.score == s.arena.score && r.arena.life == s.arena.life
      && r.arena.explosions == s.arena.explosions && r.arena.added == s.arena.added
      && |r.arena.rocks| == 12 && (forall k :: 0 <= k < 12 ==> r.arena.rocks[k].velocity == r.session.astVel)
      && r.arena.bullets == [] && r.arena.ship == CENTER && r.randCalls == s.randCalls + 12
  {
    var w := Wave(env.rand, s.randCalls, s.session.astVel + SKIP_BOOST, env.heading);
    WavePotential(env.rand, s.randCalls, s.session.astVel + SKIP_BOOST, env.heading);
    assert [] + w == w;
  }

  /** A shot adds exactly one bullet, at the end, 80 along the aim from the ship, alive
      for the next three seconds. */
  lemma ShootFacts(s: Snapshot, now: real, aim: Vec)
    ensures var r := Shoot(s, now, aim);
      var b := r.arena.bullets[|r.arena.bullets| - 1];
      && |r.arena.bullets| == |s.arena.bullets| + 1
      && r.arena.bullets[..|s.arena.bullets|] == s.arena.bullets
      && b.pos == Vec(s.arena.ship.x + 80.0 * aim.x, s.arena.ship.y + 80.0 * aim.y)
      && b.direction == aim && b.velocity == 500.0
      && (forall t :: now <= t < now + 3.0 ==> !Expired(b.clock, t))
      && r.arena.rocks == s.arena.rocks && r.arena.ship == s.arena.ship
  {
    assert (s.arena.bullets + [NewBullet(s.arena.ship, aim, now)])[..|s.arena.bullets|] == s.arena.bullets;
  }

  /** setControl: held keys give full speed, the ship moves by the frame's displacement
      (standing still on a cleared tag), and a bullet is added exactly when fire is held. */
  lemma SetControlFacts(s: Snapshot, input: FrameInput, now: real, dt: real)
    ensures var r := SetControl(s, input, now, dt);
      && r.control == Steer(s.control, input.keys)
      && (AnyHeld(input.keys) ==> r.control.velocity == SHIP_VELOCITY)
      && r.arena.ship == Add(s.arena.ship, Displacement(r.control, dt))
      && (r.control.tag == "" ==> r.arena.ship == s.arena.ship)
      && |r.arena.bullets| == |s.arena.bullets| + (if input.fire then 1 else 0)
      && r.arena.rocks == s.arena.rocks && r.session == s.session && r.arena.life == s.arena.life
      && (Invariant(s.control) ==> Invariant(r.control))
  {
    InvariantHolds(s.control, input.keys);
    if AnyHeld(input.keys) {
      HeldKeySnaps(s.control, input.keys);
    }
  }

  /** What a frame of play guarantees:
      - the death screen follows iff the life count read at the start was zero or less;
      - the game is paused afterwards iff it was or Escape was held;
      - at least one asteroid is on screen afterwards, and no offspring are left waiting;
      - at most one life is lost, the score never falls, the level rises by at most one;
      - no bullet is created. */
  lemma UpdateFacts(s: Snapshot, input: FrameInput, now: real, dt: real, env: Env)
    ensures var r := Update(s, input, now, dt, env);
      && r.session.gameState == (if s.arena.life <= 0 then DEAD else s.session.gameState)
      && (r.session.paused <==> s.session.paused || input.esc)
      && r.session.open == s.session.open && r.control == s.control
      && r.arena.rocks != [] && r.arena.added == []
      && (r.arena.life == s.arena.life || r.arena.life == s.arena.life - 1)
      && s.arena.score <= r.arena.score
      && (r.session.level == s.session.level || r.session.level == s.session.level + 1)
      && |r.arena.bullets| <= |s.arena.bullets|
  {
    var s3 := Begin(s, input, env);
    var m := s3.(arena := Move(s3.arena, input.keys, now, dt));
    StepBulletsSurvivors(s3.arena.bullets, now, dt);
    SettleFacts(m, env);
  }

  /** ck_optimize, the level check and the explosion loop together: the asteroids never run
      out, and without a crash every bullet used has consumed exactly one hit of the
      remaining work, unless the level was cleared and a new wave began. */
  lemma SettleFacts(s: Snapshot, env: Env)
    ensures var r := Settle(s, env);
      var used := |s.arena.bullets| - |r.arena.bullets|;
      && r.arena.rocks != [] && r.arena.added == []
      && r.session.gameState == s.session.gameState && r.session.paused == s.session.paused
      && r.session.open == s.session.open && r.control == s.control
      && (r.arena.life == s.arena.life || r.arena.life == s.arena.life - 1)
      && s.arena.score <= r.arena.score && 0 <= used
      && (r.session.level == s.session.level + 1 <==> CkOptimize(s.arena, s.session.astVel, env).rocks == [])
      && (r.session.level == s.session.level || r.session.level == s.session.level + 1)
      && (r.session.level == s.session.level && r.arena.life == s.arena.life ==>
            Potential(r.arena.rocks) + used == Potential(s.arena.rocks) + Potential(s.arena.added))
  {
    var c := CkOptimize(s.arena, s.session.astVel, env);
    CkOptimizeFacts(s.arena, s.session.astVel, env);
    var swept := s.(arena := c);
    if c.rocks == [] {
      LevelUpFacts(swept, env);
    }
  }

  /** The last asteroid shot: a single small asteroid meeting a single bullet, away from
      the ship, scores a point and starts the next level with a fresh wave 50 faster. */
  lemma LastAsteroidShot(s: Snapshot, env: Env)
    requires |s.arena.rocks| == 1 && s.arena.rocks[0].tier == Small && s.arena.added == []
    requires |s.arena.bullets| == 1 && HitsBullet(s.arena.rocks[0], s.arena.bullets[0], env.norm)
    requires !HitsShip(s.arena.rocks[0], s.arena.ship, env.norm)
    ensures var r := Settle(s, env);
      && r.arena.score == s.arena.score + 1 && r.arena.life == s.arena.life
      && r.session.level == s.session.level + 1 && r.session.astVel == s.session.astVel + 50.0
      && |r.arena.rocks| == 12 && r.arena.bullets == [] && r.arena.ship == CENTER
  {
    LastSmallShot(s.arena, s.session.astVel, env);
    var swept := s.(arena := CkOptimize(s.arena, s.session.astVel, env));
    LevelUpFacts(swept, env);
  }

  /** An asteroid on the ship costs one life, clears the bullets and recentres the ship;
      the level goes on since that asteroid is still there. */
  lemma CrashLosesLife(s: Snapshot, k: nat, env: Env)
    requires k < |s.arena.rocks| && HitsShip(s.arena.rocks[k], s.arena.ship, env.norm)
    ensures var r := Settle(s, env);
      && r.arena.life == s.arena.life - 1 && r.arena.bullets == [] && r.arena.ship == CENTER
      && r.session.level == s.session.level
  {
    CkOptimizeFacts(s.arena, s.session.astVel, env);
    var s' := SweepDown(s.arena, |s.arena.rocks| - 1, s.session.astVel, env);
    SweepCrashes(s.arena, |s.arena.rocks| - 1, k, s.session.astVel, env);
    CrashKeepsRocks(s.arena, |s.arena.rocks| - 1, s.session.astVel, env);
  }

  /** A frame of play with zero lives left ends on the death screen. */
  lemma NoLivesMeansDeath(s: Snapshot, t: Tick, env: Env)
    requires s.session.gameState == PLAYING && !s.session.paused && s.arena.life <= 0
    ensures Frame(s, t, env).session.gameState == DEAD
  {
    var s0 := if t.input.closed then s.(session := s.session.(open := false)) else s;
    var c := SetControl(s0, t.input, t.now, t.dt);
    UpdateFacts(c, t.input, t.now, t.dt, env);
  }

  /** The death screen: Enter restarts with three lives, otherwise Escape exits,
      otherwise nothing changes but the window. */
  lemma DeathTransitions(s: Snapshot, t: Tick, env: Env)
    requires s.session.gameState == DEAD
    ensures var r := Frame(s, t, env);
      && (t.input.enter ==>
            r.session.gameState == PLAYING && r.arena.life == 3 && r.arena.score == 0
            && r.session.level == 1 && |r.arena.rocks| == 12)
      && (!t.input.enter && t.input.esc ==> r.session.gameState == EXITING && r.arena == s.arena)
      && (!t.input.enter && !t.input.esc ==> r.session.gameState == DEAD && r.arena == s.arena)
  {
    var s0 := if t.input.closed then s.(session := s.session.(open := false)) else s;
    RestartResets(s0, env);
  }

  /** The menu: Enter starts, otherwise P exits, otherwise nothing changes but the window. */
  lemma MenuTransitions(s: Snapshot, t: Tick, env: Env)
    requires s.session.gameState == MENU
    ensures var r := Frame(s, t, env);
      && r.arena == s.arena && r.control == s.control && r.randCalls == s.randCalls
      && (r.session.gameState == PLAYING <==> t.input.enter)
      && (r.session.gameState == EXITING <==> !t.input.enter && t.input.p)
      && (r.session.gameState == MENU <==> !t.input.enter && !t.input.p)
      && (r.session.open <==> s.session.open && !t.input.closed)
  {
  }

  /** The pause screen: Enter restarts unpaused, otherwise R resumes with nothing else
      changed, otherwise P exits; the asteroids only move while unpaused. */
  lemma PauseTransitions(s: Snapshot, t: Tick, env: Env)
    requires s.session.gameState == PLAYING && s.session.paused
    ensures var r := Frame(s, t, env);
      && (t.input.enter ==>
            !r.session.paused && r.arena.life == 3 && r.arena.score == 0
            && r.session.level == 1 && r.session.gameState == PLAYING)
      && (!t.input.enter && t.input.r ==> !r.session.paused && r.arena == s.arena && r.session.gameState == PLAYING)
      && (!t.input.enter && !t.input.r && t.input.p ==> r.session.gameState == EXITING && r.arena == s.arena)
      && (!t.input.enter && !t.input.r && !t.input.p ==> r.session.paused && r.arena == s.arena)
  {
    var s0 := if t.input.closed then s.(session := s.session.(open := false)) else s;
    if t.input.enter {
      RestartResets(s0.(session := s0.session.(paused := false)), env);
    }
  }

  /** Any screen asks for GameState 2 only to close the window on the next pass; once the
      window is closed, no frame reopens it and the loop stops. */
  lemma ExitCloses(s: Snapshot, ticks: seq<Tick>, env: Env)
    requires s.session.gameState == EXITING && s.session.open && ticks != []
    ensures !Frame(s, ticks[0], env).session.open
    ensures Run(s, ticks, env) == Frame(s, ticks[0], env)
  {
    var r := Frame(s, ticks[0], env);
    assert Run(r, ticks[1..], env) == r;
  }

  /** A frame keeps the state settled: GameState stays one of the four screens and
      asteroidsAdded is empty between frames. */
  lemma FrameKeepsSettled(s: Snapshot, t: Tick, env: Env)
    requires Settled(s)
    ensures Settled(Frame(s, t, env))
    ensures !s.session.open ==> !Frame(s, t, env).session.open
  {
    var s0 := if t.input.closed then s.(session := s.session.(open := false)) else s;
    if s0.session.gameState == PLAYING && !s0.session.paused {
      var c := SetControl(s0, t.input, t.now, t.dt);
      UpdateFacts(c, t.input, t.now, t.dt, env);
    } else if s0.session.gameState == PLAYING {
      RestartResets(s0.(session := s0.session.(paused := false)), env);
    } else if s0.session.gameState == DEAD {
      RestartResets(s0, env);
    }
  }

  /** Over any run of the main loop the state stays settled. */
  lemma {:induction false} RunKeepsSettled(s: Snapshot, ticks: seq<Tick>, env: Env)
    requires Settled(s)
    ensures Settled(Run(s, ticks, env))
    decreases |ticks|
  {
    if ticks != [] && s.session.open {
      FrameKeepsSettled(s, ticks[0], env);
      RunKeepsSettled(Frame(s, ticks[0], env), ticks[1..], env);
    }
  }
}
