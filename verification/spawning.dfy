/** Spawning (GameCanvas.tsx): the level-scaled spawn interval and chances,
    the three spawners, and the timer-driven spawn block of the loop. */
module Spawning {
  import opened Num
  import opened Pools
  import opened State
  import opened Levels

  /** `Math.max(220, base / (level.spawnMultiplier || 1))` with the level read
      as `levels[li] || levels[0]`. The 220 ms floor never binds: the table's
      multipliers are at most 2, so the interval stays in [550, 1100]. */
  function SpawnInterval(li: int): (r: real)
    ensures r >= 220.0
    ensures 550.0 <= r <= BaseSpawnIntervalMs
    ensures r * SpawnMultiplierAt(li) == BaseSpawnIntervalMs
  {
    var m := LevelAt(li).spawnMultiplier;
    var m' := if m != 0.0 then m else 1.0;
    FallbacksAgree(li);
    Max(220.0, BaseSpawnIntervalMs / m')
  }

  /** Chance per attempt of a traffic car; the 0.95 cap never binds. */
  function TrafficChance(li: int): (p: real)
    ensures 0.38 <= p <= 0.48
  {
    Min(0.95, 0.28 + SpawnMultiplierAt(li) * 0.1)
  }

  /** Chance per attempt of a coin. */
  function CoinChance(li: int): (p: real)
    ensures 0.2 <= p <= 0.22
  {
    0.18 + SpawnMultiplierAt(li) * 0.02
  }

  /** Chance per attempt of an obstacle. */
  function ObstacleChance(li: int): (p: real)
    ensures 0.15 <= p <= 0.18
  {
    0.12 + SpawnMultiplierAt(li) * 0.03
  }

  /** `Math.floor(Math.random() * laneCount)`: always a valid lane index. */
  function LaneIndex(roll: Draw, n: int): (lane: int)
    requires n > 0
    ensures 0 <= lane < n
  {
    var x := roll * (n as real);
    assert 0.0 <= x < n as real by {
      ScaleBounds(n as real, roll, 0.0, 1.0);
      assert x == (n as real) * roll;
      assert (n as real) * (1.0 - roll) > 0.0;
    }
    x.Floor
  }

  /** What the spawners write: the three pools, the id counter and the draw
      cursor. */
  datatype Spawned = Spawned(traffic: seq<Traffic>, coins: seq<Coin>, obstacles: seq<Obstacle>,
                             nextId: int, cursor: nat)

  /** A freshly spawned car: the given id, a valid lane, 32 left of that lane's
      x, between 140 and 320 above the top edge, the player's size, and a speed
      between 1 and 1.18 times the level- and run-scaled base speed. */
  predicate NewCar(t: Traffic, id: int, lanes: seq<real>, li: int, sm: real)
  {
    && t.id == id
    && 0 <= t.lane < |lanes|
    && t.pos.x == lanes[t.lane] - 32.0
    && -320.0 < t.pos.y <= -140.0
    && t.size == Size(PlayerWidth, PlayerHeight)
    && (sm >= 0.0 ==>
          BaseTrafficSpeed * TrafficSpeedMultiplierAt(li) * sm <= t.speed
          <= 1.18 * BaseTrafficSpeed * TrafficSpeedMultiplierAt(li) * sm)
  }

  /** A fresh coin: centred on a lane's x, between 100 and 260 above the top. */
  predicate NewCoin(c: Coin, id: int, lanes: seq<real>)
  {
    && c.id == id
    && (exists lane :: 0 <= lane < |lanes| && c.pos.x == lanes[lane])
    && -260.0 < c.pos.y <= -100.0
  }

  /** A fresh 56 x 28 obstacle, 28 left of a lane's x, 120 to 360 above the top. */
  predicate NewObstacle(o: Obstacle, id: int, lanes: seq<real>)
  {
    && o.id == id
    && (exists lane :: 0 <= lane < |lanes| && o.pos.x == lanes[lane] - 28.0)
    && -360.0 < o.pos.y <= -120.0
    && o.size == Size(56.0, 28.0)
  }

  /** The car's speed factor `(1 + r * 0.18)` scaled by non-negative factors
      stays between 1 and 1.18 times their product. */
  lemma SpeedBounds(u: real, tsm: real, sm: real)
    requires 0.0 <= u < 1.0 && tsm >= 1.0
    ensures sm >= 0.0 ==> BaseTrafficSpeed * tsm * sm <= BaseTrafficSpeed * (1.0 + u * 0.18) * tsm * sm
    ensures sm >= 0.0 ==> BaseTrafficSpeed * (1.0 + u * 0.18) * tsm * sm <= 1.18 * BaseTrafficSpeed * tsm * sm
  {
    if sm >= 0.0 {
      var x := BaseTrafficSpeed * tsm * sm;
      ProductNonNegative(BaseTrafficSpeed * tsm, sm);
      ScaleBounds(x, 1.0 + u * 0.18, 1.0, 1.18);
      assert BaseTrafficSpeed * (1.0 + u * 0.18) * tsm * sm == x * (1.0 + u * 0.18);
    }
  }

  /** `spawnTraffic`: with no lanes nothing happens and no draw is made;
      otherwise one car is appended from four draws (lane, height, speed, and
      the palette colour, which is not modelled). */
  function SpawnTraffic(s: Spawned, lanes: seq<real>, li: int, sm: real, rolls: Rolls): (r: Spawned)
    ensures |lanes| == 0 ==> r == s
    ensures |lanes| > 0 ==>
      && r == s.(traffic := r.traffic, nextId := s.nextId + 1, cursor := s.cursor + 4)
      && |r.traffic| == |s.traffic| + 1
      && r.traffic[..|s.traffic|] == s.traffic
      && NewCar(r.traffic[|s.traffic|], s.nextId, lanes, li, sm)
  {
    if |lanes| == 0 then s
    else
      var k := s.cursor;
      var lane := LaneIndex(rolls(k), |lanes|);
      var speed := BaseTrafficSpeed * (1.0 + rolls(k + 2) * 0.18) * TrafficSpeedMultiplierAt(li) * sm;
      var t := Traffic(s.nextId, lane, Vec2(lanes[lane] - 32.0, -140.0 - rolls(k + 1) * 180.0),
                       Size(PlayerWidth, PlayerHeight), speed);
      SpeedBounds(rolls(k + 2), TrafficSpeedMultiplierAt(li), sm);
      var r := s.(traffic := s.traffic + [t], nextId := s.nextId + 1, cursor := k + 4);
      assert r.traffic[..|s.traffic|] == s.traffic;
      r
  }

  /** `spawnCoin`: one coin from two draws (lane, height), or nothing without lanes. */
  function SpawnCoin(s: Spawned, lanes: seq<real>, rolls: Rolls): (r: Spawned)
    ensures |lanes| == 0 ==> r == s
    ensures |lanes| > 0 ==>
      && r == s.(coins := r.coins, nextId := s.nextId + 1, cursor := s.cursor + 2)
      && |r.coins| == |s.coins| + 1
      && r.coins[..|s.coins|] == s.coins
      && NewCoin(r.coins[|s.coins|], s.nextId, lanes)
  {
    if |lanes| == 0 then s
    else
      var k := s.cursor;
      var lane := LaneIndex(rolls(k), |lanes|);
      var c := Coin(s.nextId, Vec2(lanes[lane], -100.0 - rolls(k + 1) * 160.0));
      var r := s.(coins := s.coins + [c], nextId := s.nextId + 1, cursor := k + 2);
      assert r.coins[..|s.coins|] == s.coins;
      r
  }

  /** `spawnObstacle`: one obstacle from two draws (lane, height), or nothing
      without lanes. */
  function SpawnObstacle(s: Spawned, lanes: seq<real>, rolls: Rolls): (r: Spawned)
    ensures |lanes| == 0 ==> r == s
    ensures |lanes| > 0 ==>
      && r == s.(obstacles := r.obstacles, nextId := s.nextId + 1, cursor := s.cursor + 2)
      && |r.obstacles| == |s.obstacles| + 1
      && r.obstacles[..|s.obstacles|] == s.obstacles
      && NewObstacle(r.obstacles[|s.obstacles|], s.nextId, lanes)
  {
    if |lanes| == 0 then s
    else
      var k := s.cursor;
      var lane := LaneIndex(rolls(k), |lanes|);
      var o := Obstacle(s.nextId, Vec2(lanes[lane] - 28.0, -120.0 - rolls(k + 1) * 240.0), Size(56.0, 28.0));
      var r := s.(obstacles := s.obstacles + [o], nextId := s.nextId + 1, cursor := k + 2);
      assert r.obstacles[..|s.obstacles|] == s.obstacles;
      r
  }

  /** Whether the draw at `k` falls under `chance` and lanes exist, i.e.
      whether a spawner guarded by that draw adds something. */
  predicate Hit(rolls: Rolls, k: nat, chance: real, lanes: seq<real>)
  {
    |lanes| > 0 && rolls(k) < chance
  }

  /** 1 when `b` holds, else 0. */
  function Count(b: bool): nat
  {
    if b then 1 else 0
  }

  /** The first guarded call of the `for` body: one draw against the traffic
      chance, then `spawnTraffic` when it falls under it. */
  function TryTraffic(s: Spawned, lanes: seq<real>, li: int, sm: real, rolls: Rolls): (r: Spawned)
    ensures var hit := Hit(rolls, s.cursor, TrafficChance(li), lanes);
            && r.coins == s.coins && r.obstacles == s.obstacles
            && |r.traffic| == |s.traffic| + Count(hit)
            && r.nextId == s.nextId + Count(hit)
            && r.cursor == s.cursor + 1 + 4 * Count(hit)
    ensures Grew(s, r)
  {
    var k := s.cursor;
    if rolls(k) < TrafficChance(li) then SpawnTraffic(s.(cursor := k + 1), lanes, li, sm, rolls)
    else s.(cursor := k + 1)
  }

  /** The second guarded call: one draw against the coin chance, then `spawnCoin`. */
  function TryCoin(s: Spawned, lanes: seq<real>, li: int, rolls: Rolls): (r: Spawned)
    ensures var hit := Hit(rolls, s.cursor, CoinChance(li), lanes);
            && r.traffic == s.traffic && r.obstacles == s.obstacles
            && |r.coins| == |s.coins| + Count(hit)
            && r.nextId == s.nextId + Count(hit)
            && r.cursor == s.cursor + 1 + 2 * Count(hit)
    ensures Grew(s, r)
  {
    var k := s.cursor;
    if rolls(k) < CoinChance(li) then SpawnCoin(s.(cursor := k + 1), lanes, rolls)
    else s.(cursor := k + 1)
  }

  /** The third guarded call: one draw against the obstacle chance, then
      `spawnObstacle`. */
  function TryObstacle(s: Spawned, lanes: seq<real>, li: int, rolls: Rolls): (r: Spawned)
    ensures var hit := Hit(rolls, s.cursor, ObstacleChance(li), lanes);
            && r.traffic == s.traffic && r.coins == s.coins
            && |r.obstacles| == |s.obstacles| + Count(hit)
            && r.nextId == s.nextId + Count(hit)
            && r.cursor == s.cursor + 1 + 2 * Count(hit)
    ensures Grew(s, r)
  {
    var k := s.cursor;
    if rolls(k) < ObstacleChance(li) then SpawnObstacle(s.(cursor := k + 1), lanes, rolls)
    else s.(cursor := k + 1)
  }

  /** One pass of the spawn `for` body: the three guarded calls in order. Each
      pool grows by one exactly when its draw falls under the level's chance
      (and lanes exist), and the counter advances by the number spawned. */
  function Attempt(s: Spawned, lanes: seq<real>, li: int, sm: real, rolls: Rolls): (r: Spawned)
    ensures var k0 := s.cursor;
            var car := Hit(rolls, k0, TrafficChance(li), lanes);
            var k1 := k0 + 1 + 4 * Count(car);
            var coin := Hit(rolls, k1, CoinChance(li), lanes);
            var k2 := k1 + 1 + 2 * Count(coin);
            var obstacle := Hit(rolls, k2, ObstacleChance(li), lanes);
            && |r.traffic| == |s.traffic| + Count(car)
            && |r.coins| == |s.coins| + Count(coin)
            && |r.obstacles| == |s.obstacles| + Count(obstacle)
            && r.nextId == s.nextId + Count(car) + Count(coin) + Count(obstacle)
            && r.cursor == k2 + 1 + 2 * Count(obstacle)
    ensures Grew(s, r)
  {
    var s1 := TryTraffic(s, lanes, li, sm, rolls);
    var s2 := TryCoin(s1, lanes, li, rolls);
    var s3 := TryObstacle(s2, lanes, li, rolls);
    GrewTransitive(s, s1, s2);
    GrewTransitive(s, s2, s3);
    s3
  }

  /** `count` passes of the spawn `for` loop. */
  function Attempts(s: Spawned, count: nat, lanes: seq<real>, li: int, sm: real, rolls: Rolls): (r: Spawned)
    decreases count
  {
    if count == 0 then s
    else Attempts(Attempt(s, lanes, li, sm, rolls), count - 1, lanes, li, sm, rolls)
  }

  /** `spawnCount`: two attempts when the draw is below 0.18, else one. */
  function SpawnCount(roll: Draw): (n: nat)
    ensures n == 1 || n == 2
    ensures n == 2 <==> roll < 0.18
  {
    if roll < 0.18 then 2 else 1
  }

  /** The spawn block: the timer accumulates `dt` milliseconds; once it reaches
      the interval it resets to 0 and one or two attempts run. */
  function SpawnStage(timer: real, interval: real, dt: real, s: Spawned, lanes: seq<real>, li: int,
                      sm: real, rolls: Rolls): (r: (real, Spawned))
    ensures timer + dt < interval ==> r == (timer + dt, s)
    ensures timer + dt >= interval ==> r.0 == 0.0 && r.1.cursor > s.cursor
    ensures timer + dt >= interval ==>
      r.1 == Attempts(s.(cursor := s.cursor + 1), SpawnCount(rolls(s.cursor)), lanes, li, sm, rolls)
    ensures Grew(s, r.1)
    ensures |r.1.traffic| <= |s.traffic| + 2 && |r.1.coins| <= |s.coins| + 2 && |r.1.obstacles| <= |s.obstacles| + 2
  {
    var t := timer + dt;
    if t >= interval then
      var n := SpawnCount(rolls(s.cursor));
      var r1 := Attempts(s.(cursor := s.cursor + 1), n, lanes, li, sm, rolls);
      AttemptsGrow(s.(cursor := s.cursor + 1), n, lanes, li, sm, rolls);
      GrewTransitive(s, s.(cursor := s.cursor + 1), r1);
      (0.0, r1)
    else (t, s)
  }

  /** `b` is `a` with entities appended to the three pools, the counter
      advanced by exactly the number appended, and the cursor moved forward. */
  predicate Grew(a: Spawned, b: Spawned)
  {
    && |a.traffic| <= |b.traffic| && b.traffic[..|a.traffic|] == a.traffic
    && |a.coins| <= |b.coins| && b.coins[..|a.coins|] == a.coins
    && |a.obstacles| <= |b.obstacles| && b.obstacles[..|a.obstacles|] == a.obstacles
    && b.nextId - a.nextId == (|b.traffic| - |a.traffic|) + (|b.coins| - |a.coins|) + (|b.obstacles| - |a.obstacles|)
    && a.cursor <= b.cursor
  }

  /** The id pools of a spawner record, next to the particles' ids. */
  function SpawnPools(s: Spawned, particleIds: seq<int>): (pools: seq<seq<int>>)
    ensures |pools| == 4
  {
    [Map(s.traffic, TrafficId), Map(s.coins, CoinId), Map(s.obstacles, ObstacleId), particleIds]
  }

  /** Appending one element whose key is `n` appends the one-element range. */
  lemma MapAppend<T>(s: seq<T>, x: T, key: T -> int, n: int)
    requires key(x) == n
    ensures Map(s + [x], key) == Map(s, key) + Range(n, n + 1)
  {
  }

  /** One appended element whose key is the counter keeps the id discipline. */
  lemma AppendOneFresh(pools: seq<seq<int>>, p: int, n: int, pools': seq<seq<int>>)
    requires Fresh(pools, n) && 0 <= p < |pools|
    requires pools' == pools[p := pools[p] + Range(n, n + 1)]
    ensures Fresh(pools', n + 1)
  {
    AppendFresh(pools, p, n, n + 1);
  }

  /** A guarded traffic spawn keeps every id unique. */
  lemma TryTrafficFresh(s: Spawned, lanes: seq<real>, li: int, sm: real, rolls: Rolls, particleIds: seq<int>)
    requires Fresh(SpawnPools(s, particleIds), s.nextId)
    ensures Fresh(SpawnPools(TryTraffic(s, lanes, li, sm, rolls), particleIds), TryTraffic(s, lanes, li, sm, rolls).nextId)
  {
    var r := TryTraffic(s, lanes, li, sm, rolls);
    if r.nextId != s.nextId {
      assert r.traffic == s.traffic + [r.traffic[|s.traffic|]];
      MapAppend(s.traffic, r.traffic[|s.traffic|], TrafficId, s.nextId);
      AppendOneFresh(SpawnPools(s, particleIds), 0, s.nextId, SpawnPools(r, particleIds));
    }
  }

  /** A guarded coin spawn keeps every id unique. */
  lemma TryCoinFresh(s: Spawned, lanes: seq<real>, li: int, rolls: Rolls, particleIds: seq<int>)
    requires Fresh(SpawnPools(s, particleIds), s.nextId)
    ensures Fresh(SpawnPools(TryCoin(s, lanes, li, rolls), particleIds), TryCoin(s, lanes, li, rolls).nextId)
  {
    var r := TryCoin(s, lanes, li, rolls);
    if r.nextId != s.nextId {
      assert r.coins == s.coins + [r.coins[|s.coins|]];
      MapAppend(s.coins, r.coins[|s.coins|], CoinId, s.nextId);
      AppendOneFresh(SpawnPools(s, particleIds), 1, s.nextId, SpawnPools(r, particleIds));
    }
  }

  /** A guarded obstacle spawn keeps every id unique. */
  lemma TryObstacleFresh(s: Spawned, lanes: seq<real>, li: int, rolls: Rolls, particleIds: seq<int>)
    requires Fresh(SpawnPools(s, particleIds), s.nextId)
    ensures Fresh(SpawnPools(TryObstacle(s, lanes, li, rolls), particleIds), TryObstacle(s, lanes, li, rolls).nextId)
  {
    var r := TryObstacle(s, lanes, li, rolls);
    if r.nextId != s.nextId {
      assert r.obstacles == s.obstacles + [r.obstacles[|s.obstacles|]];
      MapAppend(s.obstacles, r.obstacles[|s.obstacles|], ObstacleId, s.nextId);
      AppendOneFresh(SpawnPools(s, particleIds), 2, s.nextId, SpawnPools(r, particleIds));
    }
  }

  /** One attempt keeps every id unique. */
  lemma AttemptKeepsFresh(s: Spawned, lanes: seq<real>, li: int, sm: real, rolls: Rolls, particleIds: seq<int>)
    requires Fresh(SpawnPools(s, particleIds), s.nextId)
    ensures Fresh(SpawnPools(Attempt(s, lanes, li, sm, rolls), particleIds), Attempt(s, lanes, li, sm, rolls).nextId)
  {
    var s1 := TryTraffic(s, lanes, li, sm, rolls);
    var s2 := TryCoin(s1, lanes, li, rolls);
    TryTrafficFresh(s, lanes, li, sm, rolls, particleIds);
    TryCoinFresh(s1, lanes, li, rolls, particleIds);
    TryObstacleFresh(s2, lanes, li, rolls, particleIds);
  }

  lemma GrewTransitive(a: Spawned, b: Spawned, c: Spawned)
    requires Grew(a, b) && Grew(b, c)
    ensures Grew(a, c)
  {
    assert c.traffic[..|a.traffic|] == c.traffic[..|b.traffic|][..|a.traffic|];
    assert c.coins[..|a.coins|] == c.coins[..|b.coins|][..|a.coins|];
    assert c.obstacles[..|a.obstacles|] == c.obstacles[..|b.obstacles|][..|a.obstacles|];
  }

  /** Over the whole loop: pools only grow, each by at most `count`, ids stay
      unique, and without lanes nothing but the cursor changes. */
  lemma {:induction false} AttemptsGrow(s: Spawned, count: nat, lanes: seq<real>, li: int, sm: real,
                                        rolls: Rolls)
    ensures Grew(s, Attempts(s, count, lanes, li, sm, rolls))
    ensures |Attempts(s, count, lanes, li, sm, rolls).traffic| <= |s.traffic| + count
    ensures |Attempts(s, count, lanes, li, sm, rolls).coins| <= |s.coins| + count
    ensures |Attempts(s, count, lanes, li, sm, rolls).obstacles| <= |s.obstacles| + count
    ensures Attempts(s, count, lanes, li, sm, rolls).cursor >= s.cursor + 3 * count
    ensures |lanes| == 0 ==> Attempts(s, count, lanes, li, sm, rolls) == s.(cursor := s.cursor + 3 * count)
    decreases count
  {
    if count > 0 {
      var a := Attempt(s, lanes, li, sm, rolls);
      AttemptsGrow(a, count - 1, lanes, li, sm, rolls);
      GrewTransitive(s, a, Attempts(a, count - 1, lanes, li, sm, rolls));
    }
  }

  /** Ids stay unique across the loop, next to any particle ids below the counter. */
  lemma {:induction false} AttemptsKeepFresh(s: Spawned, count: nat, lanes: seq<real>, li: int, sm: real,
                                             rolls: Rolls, particleIds: seq<int>)
    requires Fresh(SpawnPools(s, particleIds), s.nextId)
    ensures Fresh(SpawnPools(Attempts(s, count, lanes, li, sm, rolls), particleIds),
                  Attempts(s, count, lanes, li, sm, rolls).nextId)
    decreases count
  {
    if count > 0 {
      AttemptKeepsFresh(s, lanes, li, sm, rolls, particleIds);
      AttemptsKeepFresh(Attempt(s, lanes, li, sm, rolls), count - 1, lanes, li, sm, rolls, particleIds);
    }
  }

  /** The attempts of a spawn that fired keep every id unique. */
  lemma FiredKeepsFresh(s: Spawned, lanes: seq<real>, li: int, sm: real, rolls: Rolls, particleIds: seq<int>)
    requires Fresh(SpawnPools(s, particleIds), s.nextId)
    ensures var r := Attempts(s.(cursor := s.cursor + 1), SpawnCount(rolls(s.cursor)), lanes, li, sm, rolls);
            Fresh(SpawnPools(r, particleIds), r.nextId)
  {
    var s' := s.(cursor := s.cursor + 1);
    assert SpawnPools(s', particleIds) == SpawnPools(s, particleIds);
    AttemptsKeepFresh(s', SpawnCount(rolls(s.cursor)), lanes, li, sm, rolls, particleIds);
  }

  /** A spawn block that fires keeps every id unique. */
  lemma FiredStageKeepsFresh(timer: real, interval: real, dt: real, s: Spawned, lanes: seq<real>, li: int,
                             sm: real, rolls: Rolls, particleIds: seq<int>)
    requires timer + dt >= interval
    requires Fresh(SpawnPools(s, particleIds), s.nextId)
    ensures var r := SpawnStage(timer, interval, dt, s, lanes, li, sm, rolls);
            Fresh(SpawnPools(r.1, particleIds), r.1.nextId)
  {
    var r1 := Attempts(s.(cursor := s.cursor + 1), SpawnCount(rolls(s.cursor)), lanes, li, sm, rolls);
    assert SpawnStage(timer, interval, dt, s, lanes, li, sm, rolls).1 == r1;
    FiredKeepsFresh(s, lanes, li, sm, rolls, particleIds);
  }

  /** The spawn block keeps every id unique, next to any particle ids below the counter. */
  lemma SpawnStageKeepsFresh(timer: real, interval: real, dt: real, s: Spawned, lanes: seq<real>, li: int,
                             sm: real, rolls: Rolls, particleIds: seq<int>)
    requires Fresh(SpawnPools(s, particleIds), s.nextId)
    ensures var r := SpawnStage(timer, interval, dt, s, lanes, li, sm, rolls);
            Fresh(SpawnPools(r.1, particleIds), r.1.nextId)
  {
    if timer + dt >= interval {
      FiredStageKeepsFresh(timer, interval, dt, s, lanes, li, sm, rolls, particleIds);
    }
  }

  /** With no lanes the spawn block adds nothing to any pool. */
  lemma NoLanesNoSpawns(timer: real, interval: real, dt: real, s: Spawned, li: int, sm: real, rolls: Rolls)
    ensures var r := SpawnStage(timer, interval, dt, s, [], li, sm, rolls);
            r.1.traffic == s.traffic && r.1.coins == s.coins && r.1.obstacles == s.obstacles && r.1.nextId == s.nextId
  {
    if timer + dt >= interval {
      AttemptsGrow(s.(cursor := s.cursor + 1), SpawnCount(rolls(s.cursor)), [], li, sm, rolls);
    }
  }
}
