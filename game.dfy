/** The globals of Main.cpp and the functions that update them in place, as one object.
    Each method is proved to take the global state along the matching function of Play. */
module MainLoop {
  import opened Geometry
  import opened Input
  import opened Bullets
  import opened Asteroids
  import opened Animations
  import opened Collision
  import opened SpaceShips
  import opened ShipControl
  import opened Wrap
  import opened Waves
  import opened World
  import opened Sweep
  import Play

  class Game {
    var gameState: int
    var isPaused: bool
    var windowOpen: bool
    var score: int
    var life: int
    var level: int
    var astroidVelocity: real
    var shiptDirState: string
    var tempShipVelocity: int
    var manyBullets: seq<BulletData>
    var manyAsteroids: seq<AsteroidData>
    var asteroidsAdded: seq<AsteroidData>
    var allExplosion: seq<AnimState>
    var randCalls: nat
    const ship: SpaceShip
    const env: Env

    /** The globals as one value. */
    function Snap(): Snapshot
      reads this, ship
    {
      Snapshot(Session(gameState, isPaused, windowOpen, level, astroidVelocity),
               Control(shiptDirState, tempShipVelocity),
               Arena(manyAsteroids, manyBullets, asteroidsAdded, score, life, ship.pos, allExplosion),
               randCalls)
    }

    /** The ship keeps the radius it was built with. */
    ghost predicate Valid()
      reads this, ship
    {
      ship.radius == SHIP_RADIUS
    }

    /** The initialisers of the globals, then the setup in main that places the ship and
        creates the first wave. */
    constructor (e: Env)
      ensures Valid() && env == e
      ensures Snap() == Play.Boot(e)
    {
      gameState := Play.MENU;
      isPaused := false;
      windowOpen := true;
      score := 0;
      life := Play.START_LIFE;
      level := 1;
      astroidVelocity := Play.START_VELOCITY;
      shiptDirState := "";
      tempShipVelocity := 0;
      manyBullets := [];
      manyAsteroids := [];
      asteroidsAdded := [];
      allExplosion := [];
      randCalls := 0;
      ship := new SpaceShip(SHIP_RADIUS);
      env := e;
      new;
      ship.pos := CENTER;
      CreateAst();
    }

    /** One pass of create_ast's loop body: the asteroid built from the i-th random value. */
    method NewAsteroid(i: nat, randomNum: nat) returns (a: AsteroidData)
      ensures a == Spawned(i, randomNum, astroidVelocity, env.heading)
    {
      var thisRadius := randomNum % 3;
      var tier := if thisRadius == 0 then Small else if thisRadius == 1 then Medium else Large;
      var oneAsteroid := new Asteroid(tier);
      oneAsteroid.SetVelocity(astroidVelocity);
      oneAsteroid.SetDirection(env.heading(randomNum));
      if i < 3 {
        oneAsteroid.pos := Vec((randomNum % 2880) as real, 1.0);
      } else if i >= 3 && i < 7 {
        oneAsteroid.pos := Vec((randomNum % 2880) as real, GAME_HEIGHT - 1.0);
      } else if i > 7 && i < 10 {
        oneAsteroid.pos := Vec(1.0, (randomNum % 1800) as real);
      } else {
        oneAsteroid.pos := Vec(GAME_WIDTH - 1.0, (randomNum % 1800) as real);
      }
      a := oneAsteroid.Data();
    }

    /** create_ast(): twelve asteroids, each sized and placed from one rand() value. */
    method CreateAst()
      modifies this`manyAsteroids, this`randCalls
      ensures manyAsteroids == old(manyAsteroids) + Wave(env.rand, old(randCalls), astroidVelocity, env.heading)
      ensures randCalls == old(randCalls) + WAVE_SIZE
      ensures Snap() == Play.CreateAst(old(Snap()), env)
    {
      ghost var rocks := manyAsteroids;
      ghost var first := randCalls;
      ghost var wave := Wave(env.rand, first, astroidVelocity, env.heading);
      var i: nat := 0;
      while i < 12
        invariant i <= 12
        invariant manyAsteroids == rocks + wave[..i] && randCalls == first + i
      {
        var randomNum := env.rand(randCalls);
        randCalls := randCalls + 1;
        var oneAsteroid := NewAsteroid(i, randomNum);
        WavePrefix(env.rand, first, astroidVelocity, env.heading, i);
        manyAsteroids := manyAsteroids + [oneAsteroid];
        i := i + 1;
      }
      assert wave[..12] == wave;
    }

    /** ast_bounce(manyAsteroids[i], manyAsteroids[k]). */
    method AstBounce(i: nat, k: nat)
      requires i < |manyAsteroids| && k < |manyAsteroids|
      modifies this`manyAsteroids
      ensures manyAsteroids == BouncePair(old(manyAsteroids), i, k, env)
    {
      var aaa := env.unit(Sub(manyAsteroids[i].pos, manyAsteroids[k].pos));
      manyAsteroids := manyAsteroids[i := manyAsteroids[i].(direction := aaa)];
      manyAsteroids := manyAsteroids[k := manyAsteroids[k].(direction := Neg(aaa))];
    }

    /** The two splitting branches of ast_get_hit, comparing radii as the source does: the
        asteroid shrinks and turns, and a divided asteroid one tier smaller is buffered. */
    method Split(i: nat)
      requires i < |manyAsteroids| && manyAsteroids[i].tier != Small
      modifies this`manyAsteroids, this`asteroidsAdded
      ensures var a := old(manyAsteroids[i]);
        manyAsteroids == old(manyAsteroids)[i := a.(tier := Smaller(a.tier), direction := Vec(1.0, 1.0), velocity := astroidVelocity)]
        && asteroidsAdded == old(asteroidsAdded) + [Offspring(a, astroidVelocity)]
    {
      var theAst := manyAsteroids[i];
      var smaller := if Radius(theAst.tier) == 85.0 then Medium else Small;
      manyAsteroids := manyAsteroids[i := theAst.(tier := smaller, direction := Vec(1.0, 1.0), velocity := astroidVelocity)];
      var dividedAsteroid := new Asteroid(smaller);
      dividedAsteroid.SetVelocity(astroidVelocity);
      dividedAsteroid.SetDirection(Vec(1.0, 0.0));
      dividedAsteroid.pos := theAst.pos;
      asteroidsAdded := asteroidsAdded + [dividedAsteroid.Data()];
    }

    /** ast_get_hit(manyAsteroids[i], i). */
    method AstGetHit(i: nat)
      requires i < |manyAsteroids|
      modifies this
      ensures Snap() == old(Snap()).(arena := GetHit(old(Snap()).arena, i, astroidVelocity))
    {
      allExplosion := allExplosion + [EXPLOSION];
      if Radius(manyAsteroids[i].tier) == 85.0 || Radius(manyAsteroids[i].tier) == 55.0 {
        Split(i);
      } else {
        manyAsteroids := manyAsteroids[..i] + manyAsteroids[i + 1..];
        score := score + 1;
      }
    }

    /** respawn(). */
    method Respawn()
      modifies this`manyBullets, ship`pos
      ensures Snap() == old(Snap()).(arena := World.Respawn(old(Snap()).arena))
    {
      manyBullets := [];
      ship.pos := CENTER;
    }

    /** The bounce loop of ck_optimize for asteroid i. */
    method BounceAll(i: nat)
      requires i < |manyAsteroids|
      modifies this`manyAsteroids
      ensures manyAsteroids == BounceFrom(old(manyAsteroids), i, |old(manyAsteroids)| - 1, env)
    {
      var k := |manyAsteroids| - 1;
      while k >= 0
        invariant -1 <= k < |manyAsteroids| == |old(manyAsteroids)|
        invariant BounceFrom(manyAsteroids, i, k, env)
               == BounceFrom(old(manyAsteroids), i, |old(manyAsteroids)| - 1, env)
        decreases k + 1
      {
        if IsCollided(RockDisc(manyAsteroids[i]), RockDisc(manyAsteroids[k]), i == k, env.norm) {
          AstBounce(i, k);
        }
        k := k - 1;
      }
    }

    /** The bullet loop of ck_optimize for asteroid i: the last touching bullet is erased
        and the asteroid hit. */
    method ShootAsteroid(i: nat)
      requires i < |manyAsteroids|
      modifies this
      ensures Snap() == old(Snap()).(arena := ShootAt(old(Snap()).arena, i, astroidVelocity, env.norm))
    {
      if |manyBullets| != 0 {
        var j := |manyBullets| - 1;
        while j >= 0
          invariant -1 <= j < |manyBullets|
          invariant unchanged(this)
          invariant LastHit(manyAsteroids[i], manyBullets, j, env.norm) == LastHit(manyAsteroids[i], manyBullets, |manyBullets| - 1, env.norm)
          decreases j + 1
        {
          if IsCollided(RockDisc(manyAsteroids[i]), Disc(manyBullets[j].pos, BULLET_RADIUS), false, env.norm) {
            assert LastHit(manyAsteroids[i], manyBullets, |manyBullets| - 1, env.norm) == j;
            manyBullets := Erase(manyBullets, j);
            AstGetHit(i);
            return;
          }
          j := j - 1;
        }
      }
    }

    /** The ship branch of ck_optimize: an explosion, a life lost, respawn(). */
    method Crash()
      modifies this, ship`pos
      ensures Snap() == old(Snap()).(arena := Sweep.Crash(old(Snap()).arena))
    {
      allExplosion := allExplosion + [EXPLOSION];
      life := life - 1;
      Respawn();
    }

    /** The rest of ck_optimize's body for asteroid i: the bounce loop, then the bullet loop. */
    method SweepStep(i: nat)
      requires i < |manyAsteroids|
      modifies this
      ensures Snap() == old(Snap()).(arena := Step(old(Snap()).arena, i, astroidVelocity, env))
    {
      BounceAll(i);
      ShootAsteroid(i);
    }

    /** The outer loop of ck_optimize, from the last asteroid down, until the ship is hit. */
    method SweepAll()
      requires Valid()
      modifies this, ship`pos
      ensures Snap() == old(Snap()).(arena := SweepDown(old(Snap()).arena, |old(manyAsteroids)| - 1, astroidVelocity, env))
    {
      ghost var start := Snap();
      ghost var target := SweepDown(start.arena, |manyAsteroids| - 1, astroidVelocity, env);
      var i := |manyAsteroids| - 1;
      while i >= 0
        invariant -1 <= i < |manyAsteroids|
        invariant Snap() == start.(arena := Snap().arena)
        invariant SweepDown(Snap().arena, i, astroidVelocity, env) == target
        decreases i + 1
      {
        if IsCollided(RockDisc(manyAsteroids[i]), Disc(ship.pos, ship.radius), false, env.norm) {
          Crash();
          break;
        }
        SweepStep(i);
        i := i - 1;
      }
    }

    /** ck_optimize(). */
    method CkOptimize()
      requires Valid()
      modifies this, ship`pos
      ensures Snap() == old(Snap()).(arena := Sweep.CkOptimize(old(Snap()).arena, astroidVelocity, env))
    {
      SweepAll();
      if |asteroidsAdded| > 0 {
        manyAsteroids := manyAsteroids + asteroidsAdded;
        asteroidsAdded := [];
      } else {
        assert manyAsteroids + asteroidsAdded == manyAsteroids;
      }
    }

    /** The first assignments of restart(): speed, level, score, GameState and life. */
    method ResetProgress()
      modifies this`astroidVelocity, this`level, this`score, this`gameState, this`life
      ensures Snap() == old(Snap()).(session := old(Snap()).session.(astVel := Play.START_VELOCITY, level := 1, gameState := Play.PLAYING),
                                     arena := old(Snap()).arena.(score := 0, life := Play.START_LIFE))
    {
      astroidVelocity := Play.START_VELOCITY;
      level := 1;
      score := 0;
      gameState := Play.PLAYING;
      life := Play.START_LIFE;
    }

    /** The clear() calls of restart() and levelUp(): no bullets, asteroids or explosions. */
    method ClearScreen()
      modifies this`manyBullets, this`manyAsteroids, this`allExplosion
      ensures Snap() == old(Snap()).(arena := old(Snap()).arena.(bullets := [], rocks := [], explosions := []))
    {
      manyBullets := [];
      manyAsteroids := [];
      allExplosion := [];
    }

    /** restart(). */
    method Restart()
      modifies this, ship`pos
      ensures Snap() == Play.Restart(old(Snap()), env)
    {
      ResetProgress();
      ClearScreen();
      CreateAst();
      ship.pos := CENTER;
    }

    /** levelUp(). */
    method LevelUp()
      modifies this, ship`pos
      ensures Snap() == Play.LevelUp(old(Snap()), env)
    {
      level := level + 1;
      ClearScreen();
      astroidVelocity := astroidVelocity + Play.LEVEL_BOOST;
      CreateAst();
      ship.pos := CENTER;
    }

    /** The P-key block of update_state. */
    method SkipWave()
      modifies this, ship`pos
      ensures Snap() == Play.SkipWave(old(Snap()), env)
    {
      ghost var s := Snap();
      ship.pos := CENTER;
      astroidVelocity := astroidVelocity + Play.SKIP_BOOST;
      manyAsteroids := [];
      manyBullets := [];
      ghost var cleared := s.(session := s.session.(astVel := s.session.astVel + Play.SKIP_BOOST),
                              arena := s.arena.(ship := CENTER, bullets := [], rocks := []));
      assert Snap() == cleared;
      CreateAst();
    }

    /** shoot(): a new Bullet with its own clock, placed and aimed along the ship's rotation. */
    method Shoot(now: real, aim: Vec)
      modifies this`manyBullets
      ensures Snap() == Play.Shoot(old(Snap()), now, aim)
    {
      var oneBullet := new Bullet(Clock(now));
      oneBullet.radius := BULLET_RADIUS;
      oneBullet.pos := Vec(ship.pos.x + 80.0 * aim.x, ship.pos.y + 80.0 * aim.y);
      oneBullet.SetDirection(aim);
      oneBullet.SetVelocity(BULLET_VELOCITY);
      manyBullets := manyBullets + [oneBullet.Data()];
    }

    /** The ship's direction tag and drift velocity as one value. */
    function Steering(): Control
      reads this
    {
      Control(shiptDirState, tempShipVelocity)
    }

    /** The A branch of setControl: W or S makes a diagonal. */
    method HoldA(k: Keys, dt: real)
      requires k.a
      modifies this`shiptDirState, this`tempShipVelocity, ship`pos
      ensures Steering() == Steer(old(Steering()), k)
      ensures ship.pos == Add(old(ship.pos), Displacement(Steering(), dt))
    {
      var v := SHIP_VELOCITY as real;
      assert v == 500.0;
      shiptDirState := "A";
      tempShipVelocity := SHIP_VELOCITY;
      if k.w {
        shiptDirState := "AW";
        ship.pos := Add(ship.pos, Vec(-v * dt / 2.0, -v * dt / 2.0));
      } else if k.s {
        shiptDirState := "AS";
        ship.pos := Add(ship.pos, Vec(-v * dt / 2.0, v * dt / 2.0));
      } else {
        ship.pos := Add(ship.pos, Vec(-v * dt, 0.0));
      }
    }

    /** The D branch of setControl: S or W makes a diagonal. */
    method HoldD(k: Keys, dt: real)
      requires !k.a && k.d
      modifies this`shiptDirState, this`tempShipVelocity, ship`pos
      ensures Steering() == Steer(old(Steering()), k)
      ensures ship.pos == Add(old(ship.pos), Displacement(Steering(), dt))
    {
      var v := SHIP_VELOCITY as real;
      assert v == 500.0;
      shiptDirState := "D";
      tempShipVelocity := SHIP_VELOCITY;
      if k.s {
        shiptDirState := "DS";
        ship.pos := Add(ship.pos, Vec(v * dt / 2.0, v * dt / 2.0));
      } else if k.w {
        shiptDirState := "DW";
        ship.pos := Add(ship.pos, Vec(v * dt / 2.0, -v * dt / 2.0));
      } else {
        ship.pos := Add(ship.pos, Vec(v * dt, 0.0));
      }
    }

    /** The W and S branches of setControl. Their tests for a second key are left out:
        A and D are checked first, so neither holds there. */
    method HoldWS(k: Keys, dt: real)
      requires !k.a && !k.d && (k.w || k.s)
      modifies this`shiptDirState, this`tempShipVelocity, ship`pos
      ensures Steering() == Steer(old(Steering()), k)
      ensures ship.pos == Add(old(ship.pos), Displacement(Steering(), dt))
    {
      var v := SHIP_VELOCITY as real;
      assert v == 500.0;
      tempShipVelocity := SHIP_VELOCITY;
      if k.w {
        shiptDirState := "W";
        ship.pos := Add(ship.pos, Vec(0.0, -v * dt));
      } else {
        shiptDirState := "S";
        ship.pos := Add(ship.pos, Vec(0.0, v * dt));
      }
    }

    /** The decay chain of setControl with no key held: a recognised tag keeps its heading
        and its velocity decays; any other tag is replaced by the empty one. The twelve
        branches share one shape and are written once, with the tag's heading. */
    method Drift(dt: real)
      modifies this`shiptDirState, this`tempShipVelocity, ship`pos
      ensures Steering() == Steer(old(Steering()), NO_KEYS)
      ensures ship.pos == Add(old(ship.pos), Displacement(Steering(), dt))
    {
      if Recognised(shiptDirState) {
        if tempShipVelocity - SPEED_INTERVAL < 0 {
          tempShipVelocity := 0;
        }
        tempShipVelocity := tempShipVelocity - SPEED_INTERVAL;
        ghost var c := Steering();
        assert Displacement(c, dt) == Scale(Heading(shiptDirState), tempShipVelocity as real * dt);
        ship.pos := Add(ship.pos, Scale(Heading(shiptDirState), tempShipVelocity as real * dt));
      } else {
        shiptDirState := "";
        ghost var m := tempShipVelocity as real * dt;
        assert Heading("") == Vec(0.0, 0.0);
        assert Displacement(Steering(), dt) == Vec(0.0 * m, 0.0 * m) == Vec(0.0, 0.0);
        assert Add(ship.pos, Vec(0.0, 0.0)) == ship.pos;
      }
    }

    /** setControl(dt): steer by the keys held, then shoot while the left button is held. */
    method SetControl(input: FrameInput, now: real, dt: real)
      modifies this`shiptDirState, this`tempShipVelocity, ship`pos, this`manyBullets
      ensures Snap() == Play.SetControl(old(Snap()), input, now, dt)
    {
      var k := input.keys;
      if k.a {
        HoldA(k, dt);
      } else if k.d {
        HoldD(k, dt);
      } else if k.w || k.s {
        HoldWS(k, dt);
      } else {
        assert k == NO_KEYS;
        Drift(dt);
      }
      if input.fire {
        Shoot(now, input.aim);
      }
    }

    /** The bullet loop of update_state, from the last bullet down. */
    method UpdateBullets(now: real, dt: real)
      modifies this`manyBullets
      ensures manyBullets == StepBullets(old(manyBullets), now, dt)
    {
      ghost var orig := manyBullets;
      ghost var done: seq<BulletData> := [];
      var i := |manyBullets| - 1;
      while i >= 0
        invariant -1 <= i < |orig|
        invariant done == StepBullets(orig[i + 1..], now, dt)
        invariant manyBullets == orig[..i + 1] + done
        decreases i + 1
      {
        StepBulletsFront(orig, i, now, dt);
        assert orig[..i + 1] == orig[..i] + [orig[i]];
        assert manyBullets[i] == orig[i];
        if Expired(manyBullets[i].clock, now) {
          EraseAtSeam(orig[..i], orig[i], done);
          manyBullets := manyBullets[..i] + manyBullets[i + 1..];
          i := i - 1;
          continue;
        }
        var b := manyBullets[i];
        var moved := Moved(b, dt);
        UpdateAtSeam(orig[..i], orig[i], StepBullet(orig[i], dt), done);
        manyBullets := manyBullets[i := moved.(pos := WrappedAfterMove(b.pos, moved.pos, BULLET_RADIUS))];
        done := [StepBullet(orig[i], dt)] + done;
        i := i - 1;
      }
      assert orig[0..] == orig;
    }

    /** The asteroid loop of update_state, from the first asteroid up. */
    method UpdateAsteroids(dt: real)
      modifies this`manyAsteroids
      ensures manyAsteroids == StepRocks(old(manyAsteroids), dt)
    {
      var i := 0;
      while i < |manyAsteroids|
        invariant 0 <= i <= |manyAsteroids| == |old(manyAsteroids)|
        invariant forall m :: 0 <= m < i ==> manyAsteroids[m] == StepRock(old(manyAsteroids)[m], dt)
        invariant forall m :: i <= m < |manyAsteroids| ==> manyAsteroids[m] == old(manyAsteroids)[m]
      {
        var a := manyAsteroids[i];
        var wrapped := a.(pos := Wrapped(a.pos, Radius(a.tier)));
        manyAsteroids := manyAsteroids[i := Drifted(wrapped, dt)];
        i := i + 1;
      }
    }

    /** The explosion loop of update_state. An ended animation is erased and the index still
        advances, as the source's continue does. */
    method CleanupExplosions()
      modifies this`allExplosion
      ensures allExplosion == Cleanup(old(allExplosion))
    {
      if |allExplosion| > 0 {
        var i := 0;
        while i < |allExplosion|
          invariant i <= |allExplosion| + 1
          invariant i <= |allExplosion| ==> allExplosion[..i] + Cleanup(allExplosion[i..]) == Cleanup(old(allExplosion))
          invariant i == |allExplosion| + 1 ==> allExplosion == Cleanup(old(allExplosion))
          decreases |allExplosion| + 1 - i
        {
          if Ended(allExplosion[i]) {
            CleanupEraseStep(allExplosion, i);
            allExplosion := allExplosion[..i] + allExplosion[i + 1..];
            i := i + 1;
            continue;
          }
          CleanupAdvanceStep(allExplosion, i);
          allExplosion := allExplosion[i := Advanced(allExplosion[i])];
          i := i + 1;
        }
      }
    }

    /** The end of update_state: ck_optimize(), levelUp() once no asteroid is left, then
        the explosion loop. */
    method Settle()
      requires Valid()
      modifies this, ship`pos
      ensures Snap() == Play.Settle(old(Snap()), env)
    {
      CkOptimize();
      if |manyAsteroids| == 0 {
        LevelUp();
      }
      CleanupExplosions();
    }

    /** The start of update_state: Escape, the life test and the P key. The HUD strings
        are not modelled. */
    method Begin(input: FrameInput)
      modifies this, ship`pos
      ensures Snap() == Play.Begin(old(Snap()), input, env)
    {
      ghost var s := Snap();
      if input.esc {
        isPaused := true;
      }
      ghost var s1 := if input.esc then s.(session := s.session.(paused := true)) else s;
      assert Snap() == s1;
      if life <= 0 {
        gameState := Play.DEAD;
      }
      if input.p {
        SkipWave();
      }
    }

    /** The ship wrap, the bullet loop and the asteroid loop of update_state. The ship's
        rotation towards the mouse is not modelled. */
    method MoveAll(keys: Keys, now: real, dt: real)
      modifies this`manyBullets, this`manyAsteroids, ship`pos
      ensures Snap() == old(Snap()).(arena := Play.Move(old(Snap()).arena, keys, now, dt))
    {
      ship.pos := WrappedShip(ship.pos, keys);
      UpdateBullets(now, dt);
      UpdateAsteroids(dt);
    }

    /** update_state(dt). */
    method UpdateState(input: FrameInput, now: real, dt: real)
      requires Valid()
      modifies this, ship`pos
      ensures Snap() == Play.Update(old(Snap()), input, now, dt, env)
    {
      Begin(input);
      MoveAll(input.keys, now, dt);
      Settle();
    }

    /** render_menu(). */
    method RenderMenu(input: FrameInput)
      modifies this`gameState
      ensures Snap() == Play.Menu(old(Snap()), input)
    {
      if input.enter {
        gameState := Play.PLAYING;
      } else if input.p {
        gameState := Play.EXITING;
      }
    }

    /** render_pause(). */
    method RenderPause(input: FrameInput)
      modifies this, ship`pos
      ensures Snap() == Play.Pause(old(Snap()), input, env)
    {
      if input.enter {
        isPaused := false;
        Restart();
      } else if input.r {
        isPaused := false;
      } else if input.p {
        gameState := Play.EXITING;
      }
    }

    /** render_death(). */
    method RenderDeath(input: FrameInput)
      modifies this, ship`pos
      ensures Snap() == Play.Death(old(Snap()), input, env)
    {
      if input.enter {
        Restart();
      } else if input.esc {
        gameState := Play.EXITING;
      }
    }

    /** One pass of main's loop: the event poll, then the switch on GameState. */
    method Frame(t: Play.Tick)
      requires Valid()
      modifies this, ship`pos
      ensures Snap() == Play.Frame(old(Snap()), t, env)
    {
      if t.input.closed {
        windowOpen := false;
      }
      if gameState == Play.MENU {
        RenderMenu(t.input);
      } else if gameState == Play.PLAYING {
        if isPaused {
          RenderPause(t.input);
        } else {
          SetControl(t.input, t.now, t.dt);
          UpdateState(t.input, t.now, t.dt);
        }
      } else if gameState == Play.EXITING {
        windowOpen := false;
      } else if gameState == Play.DEAD {
        RenderDeath(t.input);
      }
    }

    /** main's while (window.isOpen()) loop over the given passes. */
    method Run(ticks: seq<Play.Tick>)
      requires Valid()
      modifies this, ship`pos
      ensures Snap() == Play.Run(old(Snap()), ticks, env)
    {
      var n := 0;
      while n < |ticks| && windowOpen
        invariant 0 <= n <= |ticks| && Valid()
        invariant Play.Run(Snap(), ticks[n..], env) == Play.Run(old(Snap()), ticks, env)
      {
        assert ticks[n..][1..] == ticks[n + 1..];
        Frame(ticks[n]);
        n := n + 1;
      }
    }
  }
}
