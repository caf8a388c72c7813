/** The invariant a run keeps between frames of the game loop. */
module Invariant {
  import opened State
  import opened Levels

  /** What holds between frames apart from the spawn timer's bound: the level
      is a row of the table, the multiplier never fell below 1, score and
      distance are non-negative, the lateral speed is within its cap, lives
      never exceed the starting three, the timer is non-negative against a
      positive interval, every particle still has life, the menu shows exactly
      when paused, and every live entity has its own id below the counter. */
  predicate Core(g: Game)
  {
    && 0 <= g.levelIndex <= LastLevel
    && g.world.speedMultiplier >= 1.0
    && g.world.score >= 0 && g.world.distance >= 0
    && -LateralMaxSpeed <= g.player.velocityX <= LateralMaxSpeed
    && g.player.lives <= StartingLives
    && g.world.spawnTimer >= 0.0 && g.world.spawnInterval >= 220.0
    && (forall p :: p in g.world.particles ==> p.life > 0.0)
    && g.showPauseMenu == g.paused
    && IdsOk(g)
  }

  /** Between frames, additionally, the spawn timer is below the interval. */
  predicate Valid(g: Game)
  {
    Core(g) && g.world.spawnTimer < g.world.spawnInterval
  }
}
