/** The simulation's state: the tunable constants, the player, the four entity
    pools and the world record that the game loop owns (GameCanvas.tsx). */
module State {
  import opened Pools

  const BaseSpawnIntervalMs: real := 1100.0
  const BaseTrafficSpeed: real := 160.0
  const LateralAcceleration: real := 1400.0
  const LateralMaxSpeed: real := 420.0
  const LateralFriction: real := 1800.0
  const CoinRadius: real := 12.0
  const PlayerWidth: real := 64.0
  const PlayerHeight: real := 110.0
  const StartingLives: int := 3

  /** One `Math.random()` draw. */
  type Draw = r: real | 0.0 <= r < 1.0

  /** The draws one tick makes, in call order; a cursor into it is threaded
      through the step. */
  type Rolls = nat -> Draw

  /** Steering input as the loop reads it: the two digital flags and the tilt. */
  datatype Input = Input(left: bool, right: bool, tilt: real)

  datatype Vec2 = Vec2(x: real, y: real)
  datatype Size = Size(w: real, h: real)

  /** `pos` is the top-left corner of the player's 64 x 110 box. */
  datatype Player = Player(pos: Vec2, velocityX: real, lives: int, shield: int)

  /** A traffic car; its palette colour is not modelled. */
  datatype Traffic = Traffic(id: int, lane: int, pos: Vec2, size: Size, speed: real)

  /** A coin; `pos` is its centre. */
  datatype Coin = Coin(id: int, pos: Vec2)

  datatype Obstacle = Obstacle(id: int, pos: Vec2, size: Size)

  /** A particle; its colour is not modelled. `life` is in seconds. */
  datatype Particle = Particle(id: int, x: real, y: real, vx: real, vy: real, life: real, size: real)

  datatype World = World(
    cameraY: real,
    distance: int,
    score: int,
    spawnTimer: real,
    spawnInterval: real,
    traffic: seq<Traffic>,
    coins: seq<Coin>,
    obstacles: seq<Obstacle>,
    particles: seq<Particle>,
    speedMultiplier: real)

  /** The previous frame's timestamp; `Unset` stands for null. */
  datatype Stamp = Unset | At(time: real)

  /** Everything one tick reads and writes. `nextId` is the module-wide id
      counter (never reset), `best` the persisted high score. */
  datatype Game = Game(
    player: Player,
    world: World,
    nextId: int,
    levelIndex: int,
    paused: bool,
    showPauseMenu: bool,
    lastTime: Stamp,
    best: int)

  /** The part of the state the collision loops and particle bursts write:
      score, the player's velocity and lives, the particle pool, the id
      counter, and the cursor into this tick's draws. */
  datatype Effects = Effects(score: int, velocityX: real, lives: int, particles: seq<Particle>,
                             nextId: int, cursor: nat)

  /** The effects part of a game, with the draw cursor at `k`. */
  function EffectsOf(g: Game, k: nat): (fx: Effects)
    ensures fx.particles == g.world.particles && fx.nextId == g.nextId && fx.cursor == k
  {
    Effects(g.world.score, g.player.velocityX, g.player.lives, g.world.particles, g.nextId, k)
  }

  /** Writes the effects back into a game. */
  function WithEffects(g: Game, fx: Effects): (r: Game)
    ensures EffectsOf(r, fx.cursor) == fx
  {
    g.(world := g.world.(score := fx.score, particles := fx.particles),
       player := g.player.(velocityX := fx.velocityX, lives := fx.lives),
       nextId := fx.nextId)
  }

  function TrafficId(t: Traffic): int { t.id }
  function CoinId(c: Coin): int { c.id }
  function ObstacleId(o: Obstacle): int { o.id }
  function ParticleId(p: Particle): int { p.id }

  /** The ids of the four pools, in a fixed order. */
  function IdPools(w: World): (pools: seq<seq<int>>)
    ensures |pools| == 4
  {
    [Map(w.traffic, TrafficId), Map(w.coins, CoinId), Map(w.obstacles, ObstacleId), Map(w.particles, ParticleId)]
  }

  /** Every live entity has its own id, all below the counter. */
  predicate IdsOk(g: Game)
  {
    Fresh(IdPools(g.world), g.nextId)
  }

  /** The state when the component mounts, before the first resize places the
      player; `best` is whatever the store held. */
  function Initial(best: int): (g: Game)
    ensures IdsOk(g)
    ensures g.player.lives == StartingLives && g.world.score == 0 && !g.paused
    ensures g.world.traffic == [] && g.world.coins == [] && g.world.obstacles == [] && g.world.particles == []
  {
    Game(Player(Vec2(0.0, 0.0), 0.0, StartingLives, 0),
         World(0.0, 0, 0, 0.0, BaseSpawnIntervalMs, [], [], [], [], 1.0),
         1, 0, false, false, Unset, best)
  }
}
