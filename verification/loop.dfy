/** One frame of the game loop (GameCanvas.tsx `loop`) and the run controls
    around it: restart, pause and the high score. A frame runs five phases in
    the source's order: steer and scroll, spawn, move and collide, level up,
    game over. */
module Loop {
  import opened Num
  import opened Pools
  import opened State
  import opened Levels
  import opened Geometry
  import opened Particles
  import opened Physics
  import opened Spawning
  import opened Collisions
  import opened Invariant

  /** A frame advances the simulation by at most 40 ms. */
  const MaxFrameMs: real := 40.0
  /** Each level-up raises the run's speed multiplier by 0.12. */
  const SpeedStep: real := 0.12
  /** Particles burst at the player on a level-up. */
  const LevelUpBurst: nat := 20

  // ---- Timing ----

  /** The timestamp the frame is measured from: the previous one, or `now`
      itself when there is none. A previous timestamp of 0 counts as none,
      because the loop tests the stored value for truthiness. */
  function Previous(last: Stamp, now: real): real
  {
    if last.Unset? || last.time == 0.0 then now else last.time
  }

  /** The frame length `dt` in milliseconds: the time since the previous
      frame, capped at 40; 0 on the first frame. */
  function FrameDt(last: Stamp, now: real): (dt: real)
    ensures dt <= MaxFrameMs
    ensures (last.Unset? || last.time == 0.0) ==> dt == 0.0
    ensures last.At? && last.time != 0.0 && now - last.time <= MaxFrameMs ==> dt == now - last.time
    ensures last.At? && last.time != 0.0 && now - last.time > MaxFrameMs ==> dt == MaxFrameMs
  {
    Min(MaxFrameMs, now - Previous(last, now))
  }

  /** With a clock that never runs backwards the frame length lies in [0, 40]. */
  lemma FrameDtBounds(last: Stamp, now: real)
    requires last.At? ==> now >= last.time
    ensures 0.0 <= FrameDt(last, now) <= MaxFrameMs
  {
  }

  /** The forward speed in pixels per second: the base traffic speed scaled by
      the run's multiplier and by 6% per level. */
  function ForwardSpeed(sm: real, li: int): (v: real)
    ensures sm >= 0.0 && li >= 0 ==> v >= 0.0
  {
    var v := BaseTrafficSpeed * sm * (1.0 + (li as real) * 0.06);
    assert sm >= 0.0 && li >= 0 ==> v >= 0.0 by {
      if sm >= 0.0 && li >= 0 {
        ProductNonNegative(BaseTrafficSpeed, sm);
        ProductNonNegative(BaseTrafficSpeed * sm, 1.0 + (li as real) * 0.06);
      }
    }
    v
  }

  /** How far the world scrolls in a frame of `delta` seconds. */
  function Scroll(g: Game, delta: real): real
  {
    ForwardSpeed(g.world.speedMultiplier, g.levelIndex) * delta
  }

  /** How far coins fall in the same frame: 0.98 of the scroll. */
  function CoinDrop(g: Game, delta: real): real
  {
    ForwardSpeed(g.world.speedMultiplier, g.levelIndex) * 0.98 * delta
  }

  // ---- Phase 1: steer and scroll ----

  /** The spawn interval is re-derived from the level, the player steers, the
      camera moves by the scroll, and the distance and score grow by its floor
      and by the floor of 6% of it. */
  function Steer(g: Game, inp: Input, lanes: seq<real>, delta: real): (r: Game)
    ensures r == g.(player := r.player, world := r.world)
    ensures r.player == Lateral(g.player, inp, lanes, delta)
    ensures r.world == g.world.(spawnInterval := SpawnInterval(g.levelIndex), cameraY := r.world.cameraY,
                                distance := r.world.distance, score := r.world.score)
    ensures r.world.cameraY == g.world.cameraY + Scroll(g, delta)
    ensures r.world.distance == g.world.distance + Scroll(g, delta).Floor
    ensures r.world.score == g.world.score + (Scroll(g, delta) * 0.06).Floor
  {
    var dist := Scroll(g, delta);
    g.(player := Lateral(g.player, inp, lanes, delta),
       world := g.world.(spawnInterval := SpawnInterval(g.levelIndex),
                         cameraY := g.world.cameraY + dist,
                         distance := g.world.distance + dist.Floor,
                         score := g.world.score + (dist * 0.06).Floor))
  }

  /** Scrolling forward never lowers the distance or the score. */
  lemma SteerMovesForward(g: Game, inp: Input, lanes: seq<real>, delta: real)
    requires g.world.speedMultiplier >= 0.0 && g.levelIndex >= 0 && delta >= 0.0
    ensures Steer(g, inp, lanes, delta).world.distance >= g.world.distance
    ensures Steer(g, inp, lanes, delta).world.score >= g.world.score
    ensures Steer(g, inp, lanes, delta).world.cameraY >= g.world.cameraY
  {
    ProductNonNegative(ForwardSpeed(g.world.speedMultiplier, g.levelIndex), delta);
  }

  // ---- Phase 2: spawn ----

  /** The spawners' view of a game, with the draw cursor at `k`. */
  function SpawnerOf(g: Game, k: nat): (s: Spawned)
    ensures s.nextId == g.nextId && s.cursor == k
  {
    Spawned(g.world.traffic, g.world.coins, g.world.obstacles, g.nextId, k)
  }

  /** The spawn block, starting from the frame's first draw. Returns the game
      and the cursor at the next unused draw. */
  function SpawnPhase(g: Game, lanes: seq<real>, dt: real, rolls: Rolls): (r: (Game, nat))
    ensures r.0 == g.(world := r.0.world, nextId := r.0.nextId)
    ensures r.0.world == g.world.(spawnTimer := r.0.world.spawnTimer, traffic := r.0.world.traffic,
                                  coins := r.0.world.coins, obstacles := r.0.world.obstacles)
    ensures g.world.spawnTimer + dt < g.world.spawnInterval ==> r.0 == g.(world := g.world.(spawnTimer := g.world.spawnTimer + dt))
    ensures g.world.spawnTimer + dt >= g.world.spawnInterval ==> r.0.world.spawnTimer == 0.0
    ensures g.world.spawnTimer + dt >= g.world.spawnInterval ==>
      var s0 := SpawnerOf(g, 0);
      var a := Attempts(s0.(cursor := s0.cursor + 1), SpawnCount(rolls(s0.cursor)), lanes, g.levelIndex, g.world.speedMultiplier, rolls);
      r.0.world.traffic == a.traffic && r.0.world.coins == a.coins && r.0.world.obstacles == a.obstacles
      && r.0.nextId == a.nextId && r.1 == a.cursor
    ensures r.0.nextId >= g.nextId
  {
    var st := SpawnStage(g.world.spawnTimer, g.world.spawnInterval, dt, SpawnerOf(g, 0), lanes,
                         g.levelIndex, g.world.speedMultiplier, rolls);
    (g.(world := g.world.(spawnTimer := st.0, traffic := st.1.traffic, coins := st.1.coins, obstacles := st.1.obstacles),
        nextId := st.1.nextId),
     st.1.cursor)
  }

  // ---- Phase 3: move and collide ----

  /** Coins the player collects this frame. */
  function CoinsTaken(g: Game, delta: real): nat
  {
    |Filter(Map(g.world.coins, Fallen(CoinDrop(g, delta))), Taken(PlayerRect(g.player)))|
  }

  /** Obstacles the player hits this frame. */
  function ObstaclesStruck(g: Game, delta: real): nat
  {
    |Filter(Map(g.world.obstacles, Dropped(Scroll(g, delta))), Struck(PlayerRect(g.player)))|
  }

  /** Cars the player hits this frame, after the cars have moved and been culled. */
  function CarsHit(g: Game, height: real, delta: real): nat
  {
    |Filter(DriveTraffic(g.world.traffic, delta, height), Crashed(PlayerRect(g.player)))|
  }

  /** Traffic moves, coins fall and are collected, obstacles fall and hit,
      cars hit, and the particles age, in that order. Every obstacle or car
      costs a life; the id counter advances by the 12, 16 and 18 particles each
      burst takes; only particles with life left remain. */
  function CollidePhase(g: Game, height: real, delta: real, k: nat, rolls: Rolls): (r: (Game, nat))
    ensures r.0 == g.(player := g.player.(velocityX := r.0.player.velocityX, lives := r.0.player.lives),
                      world := g.world.(score := r.0.world.score, traffic := r.0.world.traffic,
                                        coins := r.0.world.coins, obstacles := r.0.world.obstacles,
                                        particles := r.0.world.particles),
                      nextId := r.0.nextId)
    ensures r.0.player.lives == g.player.lives - ObstaclesStruck(g, delta) - CarsHit(g, height, delta)
    ensures r.0.nextId
         == g.nextId + 12 * CoinsTaken(g, delta) + 16 * ObstaclesStruck(g, delta) + 18 * CarsHit(g, height, delta)
    ensures forall p :: p in r.0.world.particles ==> p.life > 0.0
  {
    var pr := PlayerRect(g.player);
    var driven := DriveTraffic(g.world.traffic, delta, height);
    var c := CollectCoins(g.world.coins, pr, CoinDrop(g, delta), height, EffectsOf(g, k), rolls);
    var o := HitObstacles(g.world.obstacles, pr, Scroll(g, delta), height, c.1, rolls);
    var t := CrashTraffic(driven, pr, o.1, rolls);
    var g1 := WithEffects(g, t.1);
    ParticlesAged(t.1.particles, delta);
    (g1.(world := g1.world.(traffic := t.0, coins := c.0, obstacles := o.0,
                            particles := UpdateParticles(t.1.particles, delta))),
     t.1.cursor)
  }

  /** The collision pass's score and lateral velocity: every coin is worth
      100 points and every car hit then costs 200 (floored at 0), so a
      non-negative score stays non-negative; each obstacle hit damps the
      velocity by 0.4 and then each car hit by 0.2. */
  lemma CollideScore(g: Game, height: real, delta: real, k: nat, rolls: Rolls)
    ensures CollidePhase(g, height, delta, k, rolls).0.world.score
         == PenalisedBy(g.world.score + 100 * CoinsTaken(g, delta), CarsHit(g, height, delta))
    ensures g.world.score >= 0 ==> CollidePhase(g, height, delta, k, rolls).0.world.score >= 0
    ensures CollidePhase(g, height, delta, k, rolls).0.player.velocityX
         == Scaled(Scaled(g.player.velocityX, 0.4, ObstaclesStruck(g, delta)), 0.2, CarsHit(g, height, delta))
  {
    var pr := PlayerRect(g.player);
    var driven := DriveTraffic(g.world.traffic, delta, height);
    var c := CollectCoins(g.world.coins, pr, CoinDrop(g, delta), height, EffectsOf(g, k), rolls);
    var o := HitObstacles(g.world.obstacles, pr, Scroll(g, delta), height, c.1, rolls);
    var t := CrashTraffic(driven, pr, o.1, rolls);
    assert o.1.score == g.world.score + 100 * CoinsTaken(g, delta);
    assert t.1.score == PenalisedBy(o.1.score, CarsHit(g, height, delta));
  }

  // ---- Phase 4: level up ----

  /** The level-up test: the distance has passed (level + 1) * 3000 and a
      higher level exists. */
  predicate LevelReached(g: Game)
  {
    g.world.distance > (g.levelIndex + 1) * 3000 && g.levelIndex < LastLevel
  }

  /** Where the level-up burst appears: centred on the player, 20 px below its top. */
  function LevelUpSparks(g: Game, k: nat, rolls: Rolls): (fx: Effects)
    ensures Extends(EffectsOf(g, k), fx)
    ensures fx.nextId == g.nextId + LevelUpBurst
  {
    Emit(EffectsOf(g, k), g.player.pos.x + PlayerWidth / 2.0, g.player.pos.y + 20.0, LevelUpBurst, rolls)
  }

  /** On a level-up the level index rises (capped at the last level), the
      speed multiplier grows by 0.12, and 20 particles burst at the player;
      nothing else changes. */
  function LevelPhase(g: Game, k: nat, rolls: Rolls): (r: Game)
    ensures !LevelReached(g) ==> r == g
    ensures LevelReached(g) ==> r.levelIndex == g.levelIndex + 1 && r.world.speedMultiplier == g.world.speedMultiplier + SpeedStep
    ensures LevelReached(g) ==> r.nextId == g.nextId + LevelUpBurst
    ensures r == g.(levelIndex := r.levelIndex, nextId := r.nextId,
                    world := g.world.(particles := r.world.particles, speedMultiplier := r.world.speedMultiplier))
  {
    if LevelReached(g) then
      var g1 := WithEffects(g, LevelUpSparks(g, k, rolls));
      // The index is capped at the table's last row, as the source caps it.
      g1.(levelIndex := if g.levelIndex + 1 <= LastLevel then g.levelIndex + 1 else LastLevel,
          world := g1.world.(speedMultiplier := g.world.speedMultiplier + SpeedStep))
    else g
  }

  // ---- Phase 5: game over ----

  /** `saveHighScore`: the stored best is replaced only by a greater score. */
  function SaveHighScore(score: int, best: int): (r: int)
    ensures r >= score && r >= best
    ensures r == score || r == best
  {
    if score > best then score else best
  }

  /** When the lives have run out the game pauses, shows the pause menu and
      saves the score. */
  function GameOver(g: Game): (r: Game)
    ensures g.player.lives > 0 ==> r == g
  {
    if g.player.lives <= 0 then g.(paused := true, showPauseMenu := true, best := SaveHighScore(g.world.score, g.best))
    else g
  }

  // ---- Run controls ----

  /** `restartRun`: empties the pools and resets the run's counters, lives,
      velocity, multiplier, clock and pause state. */
  function Restart(g: Game): (r: Game)
    ensures r.world.traffic == [] && r.world.coins == [] && r.world.obstacles == [] && r.world.particles == []
  {
    g.(player := g.player.(velocityX := 0.0, lives := StartingLives, shield := 0),
       world := g.world.(traffic := [], coins := [], obstacles := [], particles := [],
                         cameraY := 0.0, distance := 0, score := 0, spawnTimer := 0.0, speedMultiplier := 1.0),
       lastTime := Unset, paused := false, showPauseMenu := false)
  }

  /** `togglePause`: flips the pause flag and shows the menu exactly when paused. */
  function TogglePause(g: Game): (r: Game)
    ensures r.paused == !g.paused && r.showPauseMenu == r.paused
    ensures r == g.(paused := r.paused, showPauseMenu := r.showPauseMenu)
  {
    g.(paused := !g.paused, showPauseMenu := !g.paused)
  }

  // ---- The invariant a run keeps ----

  lemma InitialValid(best: int)
    ensures Valid(Initial(best))
  {
  }

  /** Restarting returns to the mounted state, except for what `restartRun`
      leaves alone: the level, the player's position, the id counter, the
      spawn interval and the stored best. */
  lemma RestartIsInitialButLevel(g: Game)
    ensures Restart(g) == Initial(g.best).(
              player := Initial(g.best).player.(pos := g.player.pos),
              world := Initial(g.best).world.(spawnInterval := g.world.spawnInterval),
              nextId := g.nextId, levelIndex := g.levelIndex)
  {
  }

  lemma RestartValid(g: Game)
    requires Valid(g)
    ensures Valid(Restart(g))
  {
  }

  lemma TogglePauseValid(g: Game)
    requires Valid(g)
    ensures Valid(TogglePause(g))
  {
  }

  /** Pausing twice is no change at all, given that the menu shows exactly
      when paused. */
  lemma TogglePauseTwice(g: Game)
    requires g.showPauseMenu == g.paused
    ensures TogglePause(TogglePause(g)) == g
  {
  }

  /** The high-score rule: saving twice is saving once, and the stored best
      does not depend on the order in which scores were saved. */
  lemma SaveHighScoreIdempotent(score: int, best: int)
    ensures SaveHighScore(score, SaveHighScore(score, best)) == SaveHighScore(score, best)
    ensures forall other :: SaveHighScore(other, SaveHighScore(score, best)) == SaveHighScore(score, SaveHighScore(other, best))
  {
  }

  // ---- Scenarios ----

  /** A player with one life parked across two cars, on a canvas 800 high. */
  function TwoCarGame(): (g: Game)
    ensures g.player.lives == 1 && |g.world.traffic| == 2 && g.world.obstacles == []
  {
    Initial(0).(player := Player(Vec2(100.0, 500.0), 0.0, 1, 0),
                world := Initial(0).world.(traffic := [Traffic(1, 0, Vec2(110.0, 520.0), Size(50.0, 90.0), 200.0),
                                                      Traffic(2, 1, Vec2(120.0, 540.0), Size(50.0, 90.0), 250.0)]),
                nextId := 3)
  }

  /** In a frame of length 0 nothing moves, so both cars hit the player. */
  lemma TwoCarGameHits(g: Game, height: real, delta: real)
    requires g.player == TwoCarGame().player && g.world.traffic == TwoCarGame().world.traffic
    requires g.world.obstacles == [] && height == 800.0 && delta == 0.0
    ensures CarsHit(g, height, delta) == 2 && ObstaclesStruck(g, delta) == 0
  {
    var ts := g.world.traffic;
    assert DriveTraffic(ts, delta, height) == ts by {
      assert Map(ts, Driven(0.0)) == ts;
      FilterAll(ts, OnRoad(800.0));
    }
    assert Filter(ts, Crashed(PlayerRect(g.player))) == ts by {
      FilterAll(ts, Crashed(PlayerRect(g.player)));
    }
  }

  /** The collision pass takes one life per obstacle and per car hit, with no
      floor, so a run ends exactly when the hits reach the remaining lives. */
  lemma HitsCostLives(g: Game, height: real, delta: real, k: nat, rolls: Rolls)
    ensures CollidePhase(g, height, delta, k, rolls).0.player.lives
         == g.player.lives - ObstaclesStruck(g, delta) - CarsHit(g, height, delta)
    ensures !g.paused ==> (GameOver(CollidePhase(g, height, delta, k, rolls).0).paused
                           <==> ObstaclesStruck(g, delta) + CarsHit(g, height, delta) >= g.player.lives)
  {
  }

  /** A frame of length 0 with no lanes leaves a resting player where it is:
      no push, no friction, no scroll, and the interval is already the level's. */
  lemma StillSteer(g: Game, inp: Input, lanes: seq<real>, delta: real)
    requires |lanes| == 0 && delta == 0.0
    requires g.player.velocityX == 0.0 && g.world.spawnInterval == SpawnInterval(g.levelIndex)
    ensures Steer(g, inp, lanes, delta) == g
  {
    assert Push(0.0, inp, delta) == 0.0;
    assert Friction(0.0, delta) == 0.0;
    assert Scroll(g, delta) == 0.0;
  }

  /** Scenario: the first tick of `TwoCarGame` (no timestamp yet, so `dt` is 0)
      still runs the whole frame. Nothing moves and nothing spawns, both cars
      hit the player, so the lives drop to -1 and the run is over. */
  lemma FirstFrameDoubleCrash(g: Game, now: real, inp: Input, lanes: seq<real>, rolls: Rolls)
    requires g == TwoCarGame() && lanes == []
    ensures FrameDt(g.lastTime, now) == 0.0
    ensures Frame(g.(lastTime := At(now)), inp, lanes, 800.0, FrameDt(g.lastTime, now), rolls).player.lives == -1
    ensures Frame(g.(lastTime := At(now)), inp, lanes, 800.0, FrameDt(g.lastTime, now), rolls).paused
  {
    var g0 := g.(lastTime := At(now));
    var dt := FrameDt(g.lastTime, now);
    assert dt == 0.0 && Seconds(dt) == 0.0;
    StillSteer(g0, inp, lanes, Seconds(dt));
    var s := SpawnPhase(g0, lanes, dt, rolls).0;
    assert s == g0;
    TwoCarGameHits(s, 800.0, Seconds(dt));
    assert FrameHits(g0, inp, lanes, 800.0, dt, rolls) == 2;
  }

  // ---- The phases keep the invariant ----

  lemma SteerCore(g: Game, inp: Input, lanes: seq<real>, delta: real)
    requires Core(g) && delta >= 0.0
    ensures Core(Steer(g, inp, lanes, delta))
  {
    SteerMovesForward(g, inp, lanes, delta);
    var r := Steer(g, inp, lanes, delta);
    assert IdPools(r.world) == IdPools(g.world);
  }

  lemma SpawnPhaseValid(g: Game, lanes: seq<real>, dt: real, rolls: Rolls)
    requires Core(g) && dt >= 0.0
    ensures Valid(SpawnPhase(g, lanes, dt, rolls).0)
  {
    var st := SpawnStage(g.world.spawnTimer, g.world.spawnInterval, dt, SpawnerOf(g, 0), lanes,
                         g.levelIndex, g.world.speedMultiplier, rolls);
    var pids := Map(g.world.particles, ParticleId);
    assert SpawnPools(SpawnerOf(g, 0), pids) == IdPools(g.world);
    SpawnStageKeepsFresh(g.world.spawnTimer, g.world.spawnInterval, dt, SpawnerOf(g, 0), lanes,
                         g.levelIndex, g.world.speedMultiplier, rolls, pids);
    var r := SpawnPhase(g, lanes, dt, rolls).0;
    assert IdPools(r.world) == SpawnPools(st.1, pids);
  }

  /** The collision pass keeps every id unique: survivors keep their ids and
      the bursts take fresh ones from the counter. */
  lemma CollideKeepsIds(g: Game, height: real, delta: real, k: nat, rolls: Rolls)
    requires IdsOk(g)
    ensures IdsOk(CollidePhase(g, height, delta, k, rolls).0)
  {
    var pr := PlayerRect(g.player);
    var driven := DriveTraffic(g.world.traffic, delta, height);
    var fx0 := EffectsOf(g, k);
    var c := CollectCoins(g.world.coins, pr, CoinDrop(g, delta), height, fx0, rolls);
    var o := HitObstacles(g.world.obstacles, pr, Scroll(g, delta), height, c.1, rolls);
    var t := CrashTraffic(driven, pr, o.1, rolls);
    var r := CollidePhase(g, height, delta, k, rolls).0;
    var n := g.nextId;
    var n' := t.1.nextId;
    ExtendsTransitive(fx0, c.1, o.1);
    ExtendsTransitive(fx0, o.1, t.1);
    ExtendsIds(fx0, t.1);
    var p0 := IdPools(g.world);
    AppendFresh(p0, 3, n, n');
    var p1 := p0[3 := p0[3] + Range(n, n')];
    assert p1[3] == Map(t.1.particles, ParticleId);
    var aged := UpdateParticles(t.1.particles, delta);
    ParticlesAged(t.1.particles, delta);
    CarsDriven(g.world.traffic, delta, height);
    CarsKept(driven, pr);
    CoinsKept(g.world.coins, pr, CoinDrop(g, delta), height);
    ObstaclesKept(g.world.obstacles, pr, Scroll(g, delta), height);
    assert Ascending(p1[0]) && Ascending(p1[1]) && Ascending(p1[2]) && Ascending(p1[3]);
    ShrinkFour(p1, Map(t.0, TrafficId), Map(c.0, CoinId), Map(o.0, ObstacleId), Map(aged, ParticleId), n');
    assert IdPools(r.world) == [Map(t.0, TrafficId), Map(c.0, CoinId), Map(o.0, ObstacleId), Map(aged, ParticleId)];
  }

  lemma CollideValid(g: Game, height: real, delta: real, k: nat, rolls: Rolls)
    requires Valid(g)
    ensures Valid(CollidePhase(g, height, delta, k, rolls).0)
  {
    var r := CollidePhase(g, height, delta, k, rolls).0;
    var hits := CarsHit(g, height, delta);
    var struck := ObstaclesStruck(g, delta);
    var v1 := Scaled(g.player.velocityX, 0.4, struck);
    CollideScore(g, height, delta, k, rolls);
    ScaledShrinks(g.player.velocityX, 0.4, struck);
    ScaledShrinks(v1, 0.2, hits);
    assert Abs(r.player.velocityX) <= Abs(g.player.velocityX);
    assert -LateralMaxSpeed <= r.player.velocityX <= LateralMaxSpeed;
    assert r.player.lives <= StartingLives;
    CollideKeepsIds(g, height, delta, k, rolls);
  }

  /** A burst written back into a game takes its ids fresh from the counter,
      so every id stays unique. */
  lemma BurstKeepsIds(g: Game, k: nat, fx: Effects)
    requires IdsOk(g) && Extends(EffectsOf(g, k), fx)
    ensures IdsOk(WithEffects(g, fx))
  {
    var fx0 := EffectsOf(g, k);
    ExtendsIds(fx0, fx);
    AppendFresh(IdPools(g.world), 3, fx0.nextId, fx.nextId);
    assert IdPools(WithEffects(g, fx).world) == IdPools(g.world)[3 := IdPools(g.world)[3] + Range(fx0.nextId, fx.nextId)];
  }

  /** The level-up burst takes its ids fresh from the counter. */
  lemma LevelPhaseKeepsIds(g: Game, k: nat, rolls: Rolls)
    requires IdsOk(g)
    ensures IdsOk(LevelPhase(g, k, rolls))
  {
    if LevelReached(g) {
      var fx := LevelUpSparks(g, k, rolls);
      BurstKeepsIds(g, k, fx);
      assert IdPools(LevelPhase(g, k, rolls).world) == IdPools(WithEffects(g, fx).world);
    }
  }

  /** The level-up burst adds only particles with life left. */
  lemma LevelPhaseKeepsAlive(g: Game, k: nat, rolls: Rolls)
    requires forall p :: p in g.world.particles ==> p.life > 0.0
    ensures forall p :: p in LevelPhase(g, k, rolls).world.particles ==> p.life > 0.0
  {
    if LevelReached(g) {
      var fx := LevelUpSparks(g, k, rolls);
      ExtendsAlive(EffectsOf(g, k), fx);
      assert LevelPhase(g, k, rolls).world.particles == fx.particles;
    }
  }

  lemma LevelPhaseValid(g: Game, k: nat, rolls: Rolls)
    requires Valid(g)
    ensures Valid(LevelPhase(g, k, rolls))
  {
    LevelPhaseKeepsIds(g, k, rolls);
    LevelPhaseKeepsAlive(g, k, rolls);
  }

  lemma GameOverValid(g: Game)
    requires Valid(g)
    ensures Valid(GameOver(g))
  {
  }

  // ---- The frame ----

  /** The frame length `dt`, measured in milliseconds, in seconds. */
  function Seconds(dt: real): real
  {
    dt / 1000.0
  }

  /** The game after the steer and spawn phases of a frame of `dt`
      milliseconds, with the cursor at the next unused draw. */
  function Prepared(g: Game, inp: Input, lanes: seq<real>, dt: real, rolls: Rolls): (Game, nat)
  {
    SpawnPhase(Steer(g, inp, lanes, Seconds(dt)), lanes, dt, rolls)
  }

  /** Obstacles and cars the player hits in a frame. */
  function FrameHits(g: Game, inp: Input, lanes: seq<real>, height: real, dt: real, rolls: Rolls): nat
  {
    var s := Prepared(g, inp, lanes, dt, rolls).0;
    ObstaclesStruck(s, Seconds(dt)) + CarsHit(s, height, Seconds(dt))
  }

  /** One frame of the loop as a function: a paused game stays as it is;
      otherwise the five phases run in order. Each hit costs exactly one life,
      the player ends within the road bounds, and the run is over exactly
      when no lives are left. */
  function Frame(g: Game, inp: Input, lanes: seq<real>, height: real, dt: real, rolls: Rolls): (r: Game)
    ensures g.paused ==> r == g
    ensures !g.paused ==> r.player.lives == g.player.lives - FrameHits(g, inp, lanes, height, dt, rolls)
    ensures !g.paused && |lanes| > 0 ==> MinX(lanes) <= r.player.pos.x
    ensures !g.paused && |lanes| > 0 && MinX(lanes) <= MaxX(lanes) ==> r.player.pos.x <= MaxX(lanes)
    ensures !g.paused ==> (r.paused <==> r.player.lives <= 0)
  {
    if g.paused then g
    else
      var s := Prepared(g, inp, lanes, dt, rolls);
      var c := CollidePhase(s.0, height, Seconds(dt), s.1, rolls);
      GameOver(LevelPhase(c.0, c.1, rolls))
  }

  // `Step` runs each phase behind a method whose contract is all the next
  // phase sees, so its proof never unfolds the phases themselves.

  /** A running frame is the composition of its phases' results. */
  lemma FrameOfPhases(g: Game, inp: Input, lanes: seq<real>, height: real, dt: real, rolls: Rolls,
                      a: Game, s: Game, k: nat, c: Game, k': nat, l: Game)
    requires !g.paused && a == Steer(g, inp, lanes, Seconds(dt))
    requires s == SpawnPhase(a, lanes, dt, rolls).0 && k == SpawnPhase(a, lanes, dt, rolls).1
    requires c == CollidePhase(s, height, Seconds(dt), k, rolls).0 && k' == CollidePhase(s, height, Seconds(dt), k, rolls).1
    requires l == LevelPhase(c, k', rolls)
    ensures Frame(g, inp, lanes, height, dt, rolls) == GameOver(l)
  {
    assert Prepared(g, inp, lanes, dt, rolls) == (s, k);
  }

  /** Phase 1 as the frame runs it: only the player and the world change, and
      a frame of non-negative length keeps the invariant's core while the
      distance and score only grow. */
  method SteerBlock(g: Game, inp: Input, lanes: seq<real>, delta: real) returns (r: Game)
    ensures r == Steer(g, inp, lanes, delta)
    ensures r == g.(player := r.player, world := r.world)
    ensures r.player.lives == g.player.lives
    ensures r.world.speedMultiplier == g.world.speedMultiplier
    ensures Core(g) && delta >= 0.0 ==> Core(r)
    ensures Core(g) && delta >= 0.0 ==> r.world.distance >= g.world.distance && r.world.score >= g.world.score
  {
    r := Steer(g, inp, lanes, delta);
    if Core(g) && delta >= 0.0 {
      SteerCore(g, inp, lanes, delta);
      SteerMovesForward(g, inp, lanes, delta);
    }
  }

  /** Phase 2 as the frame runs it: only the world's timer and pools and the
      id counter change; from the core invariant the timer ends below the
      interval. Returns the cursor at the next unused draw. */
  method SpawnBlock(g: Game, lanes: seq<real>, dt: real, rolls: Rolls) returns (r: Game, k: nat)
    ensures r == SpawnPhase(g, lanes, dt, rolls).0 && k == SpawnPhase(g, lanes, dt, rolls).1
    ensures r == g.(world := r.world, nextId := r.nextId)
    ensures r.world.distance == g.world.distance && r.world.score == g.world.score
    ensures r.world.speedMultiplier == g.world.speedMultiplier
    ensures r.nextId >= g.nextId
    ensures Core(g) && dt >= 0.0 ==> Valid(r)
  {
    var s := SpawnPhase(g, lanes, dt, rolls);
    r, k := s.0, s.1;
    if Core(g) && dt >= 0.0 {
      SpawnPhaseValid(g, lanes, dt, rolls);
    }
  }

  /** Phase 3 as the frame runs it: the level, the pause state, the distance
      and the multiplier stay; lives never rise; the counter never falls. */
  method CollideBlock(g: Game, height: real, delta: real, k: nat, rolls: Rolls) returns (r: Game, k': nat)
    ensures r == CollidePhase(g, height, delta, k, rolls).0 && k' == CollidePhase(g, height, delta, k, rolls).1
    ensures r.levelIndex == g.levelIndex && r.paused == g.paused && r.showPauseMenu == g.showPauseMenu
    ensures r.lastTime == g.lastTime && r.best == g.best
    ensures r.world.distance == g.world.distance && r.world.speedMultiplier == g.world.speedMultiplier
    ensures r.player.lives <= g.player.lives
    ensures r.nextId >= g.nextId
    ensures Valid(g) ==> Valid(r)
  {
    var c := CollidePhase(g, height, delta, k, rolls);
    r, k' := c.0, c.1;
    if Valid(g) {
      CollideValid(g, height, delta, k, rolls);
    }
  }

  /** Phase 4 as the frame runs it: the level rises by one exactly when the
      level-up test passes, and then the multiplier grows by 0.12; the
      distance, lives and pause state stay. */
  method LevelBlock(g: Game, k: nat, rolls: Rolls) returns (r: Game)
    ensures r == LevelPhase(g, k, rolls)
    ensures r.levelIndex == g.levelIndex + 1 <==> LevelReached(g)
    ensures r.levelIndex == g.levelIndex || r.levelIndex == g.levelIndex + 1
    ensures r.world.speedMultiplier == g.world.speedMultiplier + (if LevelReached(g) then SpeedStep else 0.0)
    ensures r.world.distance == g.world.distance && r.world.score == g.world.score
    ensures r.player.lives == g.player.lives
    ensures r.paused == g.paused && r.showPauseMenu == g.showPauseMenu
    ensures r.lastTime == g.lastTime && r.best == g.best
    ensures r.nextId >= g.nextId
    ensures Valid(g) ==> Valid(r)
  {
    r := LevelPhase(g, k, rolls);
    if Valid(g) {
      LevelPhaseValid(g, k, rolls);
    }
  }

  /** `loop`: one frame of `dt` milliseconds, which leaves a paused game as it
      is. The frame's draws come from `rolls`, the canvas height is `height`,
      the lane x positions are `lanes`. A frame of non-negative length keeps
      the invariant; the distance never falls, the level rises by at most one
      and does so exactly when the distance passed the next threshold, the
      multiplier grows with it, lives never rise, and the game pauses and saves
      the best score exactly when the lives have run out. */
  method Step(g: Game, inp: Input, lanes: seq<real>, height: real, dt: real, rolls: Rolls) returns (r: Game)
    ensures r == Frame(g, inp, lanes, height, dt, rolls)
    ensures g.paused ==> r == g
    ensures r.lastTime == g.lastTime
    ensures Valid(g) && dt >= 0.0 ==> Valid(r)
    ensures Valid(g) && dt >= 0.0 ==> r.world.distance >= g.world.distance
    ensures r.levelIndex == g.levelIndex || r.levelIndex == g.levelIndex + 1
    ensures !g.paused ==>
      (r.levelIndex == g.levelIndex + 1 <==> r.world.distance > (g.levelIndex + 1) * 3000 && g.levelIndex < LastLevel)
    ensures r.world.speedMultiplier == g.world.speedMultiplier + (if r.levelIndex > g.levelIndex then SpeedStep else 0.0)
    ensures r.player.lives <= g.player.lives
    ensures !g.paused ==> r.player.lives == g.player.lives - FrameHits(g, inp, lanes, height, dt, rolls)
    ensures !g.paused && |lanes| > 0 ==> MinX(lanes) <= r.player.pos.x
    ensures !g.paused && |lanes| > 0 && MinX(lanes) <= MaxX(lanes) ==> r.player.pos.x <= MaxX(lanes)
    ensures r.nextId >= g.nextId
    ensures !g.paused ==> (r.paused <==> r.player.lives <= 0)
    ensures !g.paused ==> (r.showPauseMenu <==> g.showPauseMenu || r.player.lives <= 0)
    ensures !g.paused ==> r.best == (if r.player.lives <= 0 then SaveHighScore(r.world.score, g.best) else g.best)
  {
    if g.paused {
      return g;
    }
    var a := SteerBlock(g, inp, lanes, Seconds(dt));
    var s, k := SpawnBlock(a, lanes, dt, rolls);
    var c, k' := CollideBlock(s, height, Seconds(dt), k, rolls);
    var l := LevelBlock(c, k', rolls);
    r := GameOver(l);
    FrameOfPhases(g, inp, lanes, height, dt, rolls, a, s, k, c, k', l);
    if Valid(g) && dt >= 0.0 {
      GameOverValid(l);
    }
  }

  /** The animation-frame callback at time `now`: the frame length is measured
      and the timestamp stored whether or not the game is paused, so a paused
      tick changes nothing else. With a clock that never runs backwards every
      tick keeps the invariant. */
  method Tick(g: Game, now: real, inp: Input, lanes: seq<real>, height: real, rolls: Rolls) returns (r: Game)
    ensures r.lastTime == At(now)
    ensures r == Frame(g.(lastTime := At(now)), inp, lanes, height, FrameDt(g.lastTime, now), rolls)
    ensures g.paused ==> r == g.(lastTime := At(now))
    ensures Valid(g) && (g.lastTime.At? ==> now >= g.lastTime.time) ==> Valid(r)
  {
    var dt := FrameDt(g.lastTime, now);
    var g0 := g.(lastTime := At(now));
    if g.lastTime.At? ==> now >= g.lastTime.time {
      FrameDtBounds(g.lastTime, now);
      assert Valid(g) ==> Valid(g0);
    }
    r := Step(g0, inp, lanes, height, dt, rolls);
  }
}
