/** The read-only level table (LevelManager.tsx) and the by-index lookups the
    game loop performs on it. */
module Levels {

  /** Difficulty labels, declared in increasing order. */
  datatype Difficulty = Easy | Normal | Hard | Expert

  /** Position of a label in the order Easy < Normal < Hard < Expert. */
  function Rank(d: Difficulty): nat
  {
    match d
    case Easy => 0
    case Normal => 1
    case Hard => 2
    case Expert => 3
  }

  /** One row of the table. The free-text description is not modelled. */
  datatype Level = Level(id: int, name: string, theme: string, difficulty: Difficulty,
                         spawnMultiplier: real, trafficSpeedMultiplier: real)

  const Table: seq<Level> := [
    Level(1, "City Drive", "city", Easy, 1.0, 1.0),
    Level(2, "Desert Run", "desert", Normal, 1.1, 1.05),
    Level(3, "Forest Sprint", "forest", Normal, 1.2, 1.1),
    Level(4, "Night Chase", "night", Hard, 1.4, 1.25),
    Level(5, "Snow Drift", "snow", Hard, 1.6, 1.35),
    Level(6, "Neon Overdrive", "neon", Expert, 2.0, 1.6)
  ]

  /** Index of the last level; `TableShape` shows it is `|Table| - 1`. */
  const LastLevel: int := 5

  /** `levels[i] || levels[0]`: the level at an index, falling back to the first
      level when the index is out of range. */
  function LevelAt(i: int): (l: Level)
    ensures l in Table
    ensures l.id == if 0 <= i <= LastLevel then i + 1 else 1
  {
    if 0 <= i < |Table| then Table[i] else Table[0]
  }

  /** `levels[i]?.spawnMultiplier || 1`: out of range (or a zero entry) reads as 1. */
  function SpawnMultiplierAt(i: int): (m: real)
    ensures 1.0 <= m <= 2.0
    ensures !(0 <= i < |Table|) ==> m == 1.0
  {
    if 0 <= i < |Table| && Table[i].spawnMultiplier != 0.0 then Table[i].spawnMultiplier else 1.0
  }

  /** `levels[i]?.trafficSpeedMultiplier ?? 1`: out of range reads as 1. */
  function TrafficSpeedMultiplierAt(i: int): (m: real)
    ensures 1.0 <= m <= 1.6
    ensures !(0 <= i < |Table|) ==> m == 1.0
  {
    if 0 <= i < |Table| then Table[i].trafficSpeedMultiplier else 1.0
  }

  /** The table has six levels with ids 1..6 in order, so the last index is 5. */
  lemma TableShape()
    ensures |Table| == 6 && LastLevel == |Table| - 1
    ensures forall i :: 0 <= i < |Table| ==> Table[i].id == i + 1
  {
  }

  /** Spawn multipliers never decrease along the table and lie in [1, 2]. */
  lemma SpawnMultipliersGrow()
    ensures forall i, j :: 0 <= i <= j < |Table| ==> Table[i].spawnMultiplier <= Table[j].spawnMultiplier
    ensures forall i :: 0 <= i < |Table| ==> 1.0 <= Table[i].spawnMultiplier <= 2.0
  {
  }

  /** Traffic-speed multipliers never decrease along the table and are at least 1. */
  lemma TrafficSpeedsGrow()
    ensures forall i, j :: 0 <= i <= j < |Table| ==>
      Table[i].trafficSpeedMultiplier <= Table[j].trafficSpeedMultiplier
    ensures forall i :: 0 <= i < |Table| ==> Table[i].trafficSpeedMultiplier >= 1.0
  {
  }

  /** Difficulty labels never decrease along the table. */
  lemma DifficultiesGrow()
    ensures forall i, j :: 0 <= i <= j < |Table| ==> Rank(Table[i].difficulty) <= Rank(Table[j].difficulty)
  {
  }

  /** The two fallbacks the loop uses (first level, or the literal 1) agree,
      because the first level's multipliers are both 1. */
  lemma FallbacksAgree(i: int)
    ensures SpawnMultiplierAt(i) == LevelAt(i).spawnMultiplier
    ensures TrafficSpeedMultiplierAt(i) == LevelAt(i).trafficSpeedMultiplier
  {
  }
}
