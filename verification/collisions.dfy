/** The four entity loops of one tick (GameCanvas.tsx): traffic moves and is
    culled, coins fall and are collected, obstacles fall and hit, and traffic
    hits the player. Each is a reverse index loop that splices entries out;
    each is modelled by recursion on the index and characterised as an
    order-preserving filter of the updated entities. */
module Collisions {
  import opened Num
  import opened Pools
  import opened State
  import opened Geometry
  import opened Particles

  /** Cars are culled 200 below the bottom edge. */
  const TrafficCullMargin: real := 200.0
  /** Coins are culled 80 below the bottom edge. */
  const CoinCullMargin: real := 80.0
  /** Obstacles are culled 120 below the bottom edge. */
  const ObstacleCullMargin: real := 120.0

  /** Particles burst by a collected coin, an obstacle hit and a car hit. */
  const CoinBurst: nat := 12
  const ObstacleBurst: nat := 16
  const CrashBurst: nat := 18

  /** The player's collision box. */
  function PlayerRect(p: Player): Rect
  {
    Rect(p.pos.x, p.pos.y, PlayerWidth, PlayerHeight)
  }

  /** A coin's box: a square of side twice the radius around its centre. */
  function CoinRect(c: Coin): Rect
  {
    Rect(c.pos.x - CoinRadius, c.pos.y - CoinRadius, CoinRadius + CoinRadius, CoinRadius + CoinRadius)
  }

  function ObstacleRect(o: Obstacle): Rect
  {
    Rect(o.pos.x, o.pos.y, o.size.w, o.size.h)
  }

  function TrafficRect(t: Traffic): Rect
  {
    Rect(t.pos.x, t.pos.y, t.size.w, t.size.h)
  }

  /** Collecting a coin: 100 points and a burst of 12 particles at its centre. */
  function CollectCoin(fx: Effects, c: Coin, rolls: Rolls): (r: Effects)
    ensures r.score == fx.score + 100 && r.nextId == fx.nextId + 12
    ensures r.velocityX == fx.velocityX && r.lives == fx.lives
    ensures Extends(fx, r)
  {
    Emit(fx.(score := fx.score + 100), c.pos.x, c.pos.y, CoinBurst, rolls)
  }

  /** Hitting an obstacle: velocity scaled by 0.4, one life lost, a burst of 16
      particles at its centre. */
  function HitObstacle(fx: Effects, o: Obstacle, rolls: Rolls): (r: Effects)
    ensures r.velocityX == Scale(fx.velocityX, 0.4) && r.lives == fx.lives - 1
    ensures r.score == fx.score && r.nextId == fx.nextId + 16
    ensures Extends(fx, r)
  {
    Emit(fx.(velocityX := Scale(fx.velocityX, 0.4), lives := fx.lives - 1),
         o.pos.x + o.size.w / 2.0, o.pos.y + o.size.h / 2.0, ObstacleBurst, rolls)
  }

  /** Hitting a car: velocity scaled by 0.2, one life lost, the score penalised,
      a burst of 18 particles at its centre. */
  function HitCar(fx: Effects, t: Traffic, rolls: Rolls): (r: Effects)
    ensures r.velocityX == Scale(fx.velocityX, 0.2) && r.lives == fx.lives - 1
    ensures r.score == Penalise(fx.score) && r.nextId == fx.nextId + 18
    ensures Extends(fx, r)
  {
    Emit(fx.(velocityX := Scale(fx.velocityX, 0.2), lives := fx.lives - 1, score := Penalise(fx.score)),
         t.pos.x + t.size.w / 2.0, t.pos.y + t.size.h / 2.0, CrashBurst, rolls)
  }

  // ---- Traffic movement ----

  function Drive(t: Traffic, delta: real): Traffic
  {
    t.(pos := t.pos.(y := t.pos.y + t.speed * delta))
  }

  function Driven(delta: real): Traffic -> Traffic
  {
    t => Drive(t, delta)
  }

  /** A car is kept while its top is at most 200 below the bottom edge. */
  function OnRoad(height: real): Traffic -> bool
  {
    (t: Traffic) => !(t.pos.y > height + TrafficCullMargin)
  }

  /** The "update traffic" loop: each car moves down by its own speed and is
      spliced out once below the cull line. */
  function DriveLoop(ts: seq<Traffic>, i: nat, delta: real, height: real): (r: seq<Traffic>)
    requires i <= |ts|
    ensures r == Filter(Map(ts[..i], Driven(delta)), OnRoad(height)) + ts[i..]
    decreases i
  {
    if i == 0 then
      assert ts[..0] == [] && ts[0..] == ts;
      ts
    else if Drive(ts[i - 1], delta).pos.y > height + TrafficCullMargin then
      SpliceOut(ts, i, Driven(delta), OnRoad(height));
      DriveLoop(ts[..i - 1] + ts[i..], i - 1, delta, height)
    else
      SpliceKeep(ts, i, Driven(delta), OnRoad(height));
      DriveLoop(ts[i - 1 := Drive(ts[i - 1], delta)], i - 1, delta, height)
  }

  /** Traffic after moving: exactly the moved cars above the cull line, in
      order, each displaced by its own speed times `delta`. */
  function DriveTraffic(ts: seq<Traffic>, delta: real, height: real): (r: seq<Traffic>)
    ensures r == Filter(Map(ts, Driven(delta)), OnRoad(height))
  {
    assert ts[..|ts|] == ts;
    DriveLoop(ts, |ts|, delta, height)
  }

  /** No moved car survives past the cull line, every survivor is a moved
      car, and a moved car above the line survives; ids keep their order and
      no id is new. */
  lemma CarsDriven(ts: seq<Traffic>, delta: real, height: real)
    ensures var r := DriveTraffic(ts, delta, height);
            && (forall t :: t in r ==> t.pos.y <= height + TrafficCullMargin)
            && (forall t :: t in r ==> exists u :: u in ts && t == Drive(u, delta))
            && (forall u :: u in ts && Drive(u, delta).pos.y <= height + TrafficCullMargin ==> Drive(u, delta) in r)
            && (Ascending(Map(ts, TrafficId)) ==> Ascending(Map(r, TrafficId)))
            && (forall x :: x in Map(r, TrafficId) ==> x in Map(ts, TrafficId))
  {
    var r := DriveTraffic(ts, delta, height);
    var moved := Map(ts, Driven(delta));
    FilterMembers(moved, OnRoad(height));
    forall t | t in r ensures exists u :: u in ts && t == Drive(u, delta) {
      var j :| 0 <= j < |moved| && moved[j] == t;
      assert ts[j] in ts;
    }
    forall u | u in ts && Drive(u, delta).pos.y <= height + TrafficCullMargin ensures Drive(u, delta) in r {
      var j :| 0 <= j < |ts| && ts[j] == u;
      assert moved[j] == Drive(u, delta);
    }
    FilterKeys(moved, OnRoad(height), TrafficId);
    MapSameKeys(ts, Driven(delta), TrafficId);
  }

  // ---- Coins ----

  function Fall(c: Coin, d: real): Coin
  {
    c.(pos := c.pos.(y := c.pos.y + d))
  }

  function Fallen(d: real): Coin -> Coin
  {
    c => Fall(c, d)
  }

  /** Whether the player's box overlaps the coin. */
  function Taken(pr: Rect): Coin -> bool
  {
    c => Overlaps(pr, CoinRect(c))
  }

  /** A coin is kept when it was not collected and is not past the cull line. */
  function CoinStays(pr: Rect, height: real): Coin -> bool
  {
    c => !Overlaps(pr, CoinRect(c)) && !(c.pos.y > height + CoinCullMargin)
  }

  /** The coin loop: each coin falls by `d`; one the player overlaps adds 100
      to the score, bursts 12 particles at its centre and is removed; one past
      the cull line is removed. Lives and lateral velocity never change. */
  function CoinLoop(cs: seq<Coin>, i: nat, pr: Rect, d: real, height: real, fx: Effects, rolls: Rolls)
    : (r: (seq<Coin>, Effects))
    requires i <= |cs|
    ensures r.0 == Filter(Map(cs[..i], Fallen(d)), CoinStays(pr, height)) + cs[i..]
    ensures var hits := CountHits(cs, i, Fallen(d), Taken(pr));
            && r.1.score == fx.score + 100 * hits
            && r.1.nextId == fx.nextId + 12 * hits
            && r.1.velocityX == fx.velocityX && r.1.lives == fx.lives
    decreases i
  {
    if i == 0 then
      assert cs[..0] == [] && cs[0..] == cs;
      (cs, fx)
    else
      var c := Fall(cs[i - 1], d);
      SpliceStep(cs, i, Fallen(d), CoinStays(pr, height), Taken(pr));
      var fx' := if Overlaps(pr, CoinRect(c)) then CollectCoin(fx, c, rolls) else fx;
      CoinLoop(Spliced(cs, i, Fallen(d), CoinStays(pr, height)), i - 1, pr, d, height, fx', rolls)
  }

  // ---- Obstacles ----

  function Drop(o: Obstacle, d: real): Obstacle
  {
    o.(pos := o.pos.(y := o.pos.y + d))
  }

  function Dropped(d: real): Obstacle -> Obstacle
  {
    o => Drop(o, d)
  }

  function Struck(pr: Rect): Obstacle -> bool
  {
    o => Overlaps(pr, ObstacleRect(o))
  }

  function ObstacleStays(pr: Rect, height: real): Obstacle -> bool
  {
    o => !Overlaps(pr, ObstacleRect(o)) && !(o.pos.y > height + ObstacleCullMargin)
  }

  /** The obstacle loop: each obstacle falls by `d`; one the player overlaps
      scales the lateral velocity by 0.4, costs one life, bursts 16 particles at
      its centre and is removed; one past the cull line is removed. The score
      never changes. */
  function ObstacleLoop(os: seq<Obstacle>, i: nat, pr: Rect, d: real, height: real, fx: Effects, rolls: Rolls)
    : (r: (seq<Obstacle>, Effects))
    requires i <= |os|
    ensures r.0 == Filter(Map(os[..i], Dropped(d)), ObstacleStays(pr, height)) + os[i..]
    ensures var hits := CountHits(os, i, Dropped(d), Struck(pr));
            && r.1.lives == fx.lives - hits
            && r.1.nextId == fx.nextId + 16 * hits
            && r.1.score == fx.score
    decreases i
  {
    if i == 0 then
      assert os[..0] == [] && os[0..] == os;
      (os, fx)
    else
      var o := Drop(os[i - 1], d);
      var os' := Spliced(os, i, Dropped(d), ObstacleStays(pr, height));
      SpliceStep(os, i, Dropped(d), ObstacleStays(pr, height), Struck(pr));
      var fx' := if Overlaps(pr, ObstacleRect(o)) then HitObstacle(fx, o, rolls) else fx;
      ObstacleLoop(os', i - 1, pr, d, height, fx', rolls)
  }

  // ---- Traffic collisions ----

  /** The collision pass does not move cars; this identity map lets the pass
      share the move-then-filter form of the other splice loops. */
  function Unmoved(): Traffic -> Traffic
  {
    t => t
  }

  function Crashed(pr: Rect): Traffic -> bool
  {
    t => Overlaps(pr, TrafficRect(t))
  }

  function Missed(pr: Rect): Traffic -> bool
  {
    t => !Overlaps(pr, TrafficRect(t))
  }

  /** `Math.max(0, score - 200)`. */
  function Penalise(score: int): (r: int)
    ensures r >= 0
    ensures score >= 200 ==> r == score - 200
    ensures score < 200 ==> r == 0
  {
    if score - 200 > 0 then score - 200 else 0
  }

  /** The score after `n` crashes, each applying the penalty in turn. */
  function PenalisedBy(score: int, n: nat): int
    decreases n
  {
    if n == 0 then score else PenalisedBy(Penalise(score), n - 1)
  }

  /** In closed form: `n` crashes take 200 each off the score, floored once at 0. */
  lemma {:induction false} PenaltyClosedForm(score: int, n: nat)
    ensures n > 0 ==> PenalisedBy(score, n) == if score - 200 * n > 0 then score - 200 * n else 0
    ensures n > 0 ==> PenalisedBy(score, n) >= 0
    ensures score >= 0 ==> PenalisedBy(score, n) >= 0
    decreases n
  {
    if n > 0 {
      PenaltyClosedForm(Penalise(score), n - 1);
    }
  }

  /** The traffic-collision loop: cars do not move here; one the player
      overlaps scales the lateral velocity by 0.2, costs one life, takes 200 off
      the score (floored at 0), bursts 18 particles at its centre and is
      removed. No car is culled. */
  function CrashLoop(ts: seq<Traffic>, i: nat, pr: Rect, fx: Effects, rolls: Rolls): (r: (seq<Traffic>, Effects))
    requires i <= |ts|
    ensures r.0 == Filter(Map(ts[..i], Unmoved()), Missed(pr)) + ts[i..]
    ensures var hits := CountHits(ts, i, Unmoved(), Crashed(pr));
            && r.1.lives == fx.lives - hits
            && r.1.nextId == fx.nextId + 18 * hits
    decreases i
  {
    if i == 0 then
      assert ts[..0] == [] && ts[0..] == ts;
      (ts, fx)
    else
      var t := ts[i - 1];
      var ts' := Spliced(ts, i, Unmoved(), Missed(pr));
      SpliceStep(ts, i, Unmoved(), Missed(pr), Crashed(pr));
      var fx' := if Overlaps(pr, TrafficRect(t)) then HitCar(fx, t, rolls) else fx;
      CrashLoop(ts', i - 1, pr, fx', rolls)
  }

  /** Each obstacle hit scales the lateral velocity by 0.4 in turn. */
  lemma {:induction false} ObstacleLoopVelocity(os: seq<Obstacle>, i: nat, pr: Rect, d: real, height: real,
                                                fx: Effects, rolls: Rolls)
    requires i <= |os|
    ensures ObstacleLoop(os, i, pr, d, height, fx, rolls).1.velocityX
         == Scaled(fx.velocityX, 0.4, CountHits(os, i, Dropped(d), Struck(pr)))
    decreases i
  {
    if i > 0 {
      var o := Drop(os[i - 1], d);
      var os' := Spliced(os, i, Dropped(d), ObstacleStays(pr, height));
      SpliceStep(os, i, Dropped(d), ObstacleStays(pr, height), Struck(pr));
      var fx' := if Overlaps(pr, ObstacleRect(o)) then HitObstacle(fx, o, rolls) else fx;
      assert ObstacleLoop(os, i, pr, d, height, fx, rolls) == ObstacleLoop(os', i - 1, pr, d, height, fx', rolls);
      ObstacleLoopVelocity(os', i - 1, pr, d, height, fx', rolls);
      if Overlaps(pr, ObstacleRect(o)) {
        ScaledStep(fx.velocityX, 0.4, CountHits(os', i - 1, Dropped(d), Struck(pr)));
      }
    }
  }

  /** Each car hit scales the lateral velocity by 0.2 and applies the score
      penalty in turn. */
  lemma {:induction false} CrashLoopVelocity(ts: seq<Traffic>, i: nat, pr: Rect, fx: Effects, rolls: Rolls)
    requires i <= |ts|
    ensures var hits := CountHits(ts, i, Unmoved(), Crashed(pr));
            && CrashLoop(ts, i, pr, fx, rolls).1.velocityX == Scaled(fx.velocityX, 0.2, hits)
            && CrashLoop(ts, i, pr, fx, rolls).1.score == PenalisedBy(fx.score, hits)
    decreases i
  {
    if i > 0 {
      var t := ts[i - 1];
      var ts' := Spliced(ts, i, Unmoved(), Missed(pr));
      SpliceStep(ts, i, Unmoved(), Missed(pr), Crashed(pr));
      var fx' := if Overlaps(pr, TrafficRect(t)) then HitCar(fx, t, rolls) else fx;
      assert CrashLoop(ts, i, pr, fx, rolls) == CrashLoop(ts', i - 1, pr, fx', rolls);
      CrashLoopVelocity(ts', i - 1, pr, fx', rolls);
      if Overlaps(pr, TrafficRect(t)) {
        ScaledStep(fx.velocityX, 0.2, CountHits(ts', i - 1, Unmoved(), Crashed(pr)));
      }
    }
  }

  // ---- Particle bookkeeping of the loops ----

  lemma ExtendsReflexive(a: Effects)
    ensures Extends(a, a)
  {
    assert a.particles[..|a.particles|] == a.particles;
  }

  /** The coin loop only appends particle bursts. */
  lemma {:induction false} CoinLoopExtends(cs: seq<Coin>, i: nat, pr: Rect, d: real, height: real, fx: Effects,
                                           rolls: Rolls)
    requires i <= |cs|
    ensures Extends(fx, CoinLoop(cs, i, pr, d, height, fx, rolls).1)
    decreases i
  {
    if i == 0 {
      ExtendsReflexive(fx);
    } else {
      var c := Fall(cs[i - 1], d);
      var cs' := Spliced(cs, i, Fallen(d), CoinStays(pr, height));
      if Overlaps(pr, CoinRect(c)) {
        var fx' := CollectCoin(fx, c, rolls);
        CoinLoopExtends(cs', i - 1, pr, d, height, fx', rolls);
        ExtendsTransitive(fx, fx', CoinLoop(cs, i, pr, d, height, fx, rolls).1);
      } else {
        CoinLoopExtends(cs', i - 1, pr, d, height, fx, rolls);
      }
    }
  }

  /** The obstacle loop only appends particle bursts. */
  lemma {:induction false} ObstacleLoopExtends(os: seq<Obstacle>, i: nat, pr: Rect, d: real, height: real,
                                               fx: Effects, rolls: Rolls)
    requires i <= |os|
    ensures Extends(fx, ObstacleLoop(os, i, pr, d, height, fx, rolls).1)
    decreases i
  {
    if i == 0 {
      ExtendsReflexive(fx);
    } else {
      var o := Drop(os[i - 1], d);
      var os' := Spliced(os, i, Dropped(d), ObstacleStays(pr, height));
      var fx' := if Overlaps(pr, ObstacleRect(o)) then HitObstacle(fx, o, rolls) else fx;
      var r := ObstacleLoop(os', i - 1, pr, d, height, fx', rolls);
      assert ObstacleLoop(os, i, pr, d, height, fx, rolls) == r;
      ObstacleLoopExtends(os', i - 1, pr, d, height, fx', rolls);
      if Overlaps(pr, ObstacleRect(o)) {
        ExtendsTransitive(fx, fx', r.1);
      }
    }
  }

  /** The traffic-collision loop only appends particle bursts. */
  lemma {:induction false} CrashLoopExtends(ts: seq<Traffic>, i: nat, pr: Rect, fx: Effects, rolls: Rolls)
    requires i <= |ts|
    ensures Extends(fx, CrashLoop(ts, i, pr, fx, rolls).1)
    decreases i
  {
    if i == 0 {
      ExtendsReflexive(fx);
    } else {
      var t := ts[i - 1];
      var ts' := Spliced(ts, i, Unmoved(), Missed(pr));
      if Overlaps(pr, TrafficRect(t)) {
        var fx' := HitCar(fx, t, rolls);
        CrashLoopExtends(ts', i - 1, pr, fx', rolls);
        ExtendsTransitive(fx, fx', CrashLoop(ts, i, pr, fx, rolls).1);
      } else {
        CrashLoopExtends(ts', i - 1, pr, fx, rolls);
      }
    }
  }

  // ---- The whole loops ----

  /** Coins after one tick: exactly the fallen coins that were neither collected
      nor culled, in order; every collected coin is worth 100 points and 12
      particles; lives and lateral velocity are untouched. */
  function CollectCoins(cs: seq<Coin>, pr: Rect, d: real, height: real, fx: Effects, rolls: Rolls)
    : (r: (seq<Coin>, Effects))
    ensures r.0 == Filter(Map(cs, Fallen(d)), CoinStays(pr, height))
    ensures var hits := |Filter(Map(cs, Fallen(d)), Taken(pr))|;
            && r.1.score == fx.score + 100 * hits
            && r.1.nextId == fx.nextId + 12 * hits
            && r.1.velocityX == fx.velocityX && r.1.lives == fx.lives
    ensures Extends(fx, r.1)
  {
    assert cs[..|cs|] == cs;
    CoinLoopExtends(cs, |cs|, pr, d, height, fx, rolls);
    CoinLoop(cs, |cs|, pr, d, height, fx, rolls)
  }

  /** Obstacles after one tick: exactly the fallen obstacles that were neither
      hit nor culled, in order; each hit costs one life and scales the lateral
      velocity by 0.4; the score is untouched. */
  function HitObstacles(os: seq<Obstacle>, pr: Rect, d: real, height: real, fx: Effects, rolls: Rolls)
    : (r: (seq<Obstacle>, Effects))
    ensures r.0 == Filter(Map(os, Dropped(d)), ObstacleStays(pr, height))
    ensures var hits := |Filter(Map(os, Dropped(d)), Struck(pr))|;
            && r.1.lives == fx.lives - hits
            && r.1.velocityX == Scaled(fx.velocityX, 0.4, hits)
            && r.1.nextId == fx.nextId + 16 * hits
            && r.1.score == fx.score
    ensures Extends(fx, r.1)
  {
    assert os[..|os|] == os;
    ObstacleLoopExtends(os, |os|, pr, d, height, fx, rolls);
    ObstacleLoopVelocity(os, |os|, pr, d, height, fx, rolls);
    ObstacleLoop(os, |os|, pr, d, height, fx, rolls)
  }

  /** Traffic after the collision pass: exactly the cars the player does not
      overlap, in order; each hit costs one life, scales the lateral velocity by
      0.2 and applies the 200-point penalty. */
  function CrashTraffic(ts: seq<Traffic>, pr: Rect, fx: Effects, rolls: Rolls): (r: (seq<Traffic>, Effects))
    ensures r.0 == Filter(ts, Missed(pr))
    ensures var hits := |Filter(ts, Crashed(pr))|;
            && r.1.lives == fx.lives - hits
            && r.1.velocityX == Scaled(fx.velocityX, 0.2, hits)
            && r.1.nextId == fx.nextId + 18 * hits
            && r.1.score == PenalisedBy(fx.score, hits)
    ensures fx.score >= 0 ==> r.1.score >= 0
    ensures Extends(fx, r.1)
  {
    assert ts[..|ts|] == ts;
    UnmovedIsIdentity(ts);
    CrashLoopExtends(ts, |ts|, pr, fx, rolls);
    CrashLoopVelocity(ts, |ts|, pr, fx, rolls);
    assert fx.score >= 0 ==> PenalisedBy(fx.score, CountHits(ts, |ts|, Unmoved(), Crashed(pr))) >= 0 by {
      if fx.score >= 0 {
        PenaltyClosedForm(fx.score, CountHits(ts, |ts|, Unmoved(), Crashed(pr)));
      }
    }
    CrashLoop(ts, |ts|, pr, fx, rolls)
  }

  lemma UnmovedIsIdentity(ts: seq<Traffic>)
    ensures Map(ts, Unmoved()) == ts
  {
  }

  // ---- What the survivors satisfy ----

  /** No surviving coin overlaps the player or lies past the cull line, and a
      fallen coin survives exactly when it does neither; ids keep their order
      and no id is new. */
  lemma CoinsKept(cs: seq<Coin>, pr: Rect, d: real, height: real)
    ensures var kept := Filter(Map(cs, Fallen(d)), CoinStays(pr, height));
            && (forall c :: c in kept ==> !Overlaps(pr, CoinRect(c)) && c.pos.y <= height + CoinCullMargin)
            && (forall c :: c in cs && !Overlaps(pr, CoinRect(Fall(c, d))) && Fall(c, d).pos.y <= height + CoinCullMargin
                  ==> Fall(c, d) in kept)
            && (Ascending(Map(cs, CoinId)) ==> Ascending(Map(kept, CoinId)))
            && (forall x :: x in Map(kept, CoinId) ==> x in Map(cs, CoinId))
  {
    var fallen := Map(cs, Fallen(d));
    FilterMembers(fallen, CoinStays(pr, height));
    forall c | c in cs && !Overlaps(pr, CoinRect(Fall(c, d))) && Fall(c, d).pos.y <= height + CoinCullMargin
      ensures Fall(c, d) in Filter(fallen, CoinStays(pr, height))
    {
      var j :| 0 <= j < |cs| && cs[j] == c;
      assert fallen[j] == Fall(c, d);
    }
    FilterKeys(fallen, CoinStays(pr, height), CoinId);
    MapSameKeys(cs, Fallen(d), CoinId);
  }

  /** No surviving obstacle overlaps the player or lies past the cull line,
      and a dropped obstacle that does neither survives; ids keep their order
      and no id is new. */
  lemma ObstaclesKept(os: seq<Obstacle>, pr: Rect, d: real, height: real)
    ensures var kept := Filter(Map(os, Dropped(d)), ObstacleStays(pr, height));
            && (forall o :: o in kept ==> !Overlaps(pr, ObstacleRect(o)) && o.pos.y <= height + ObstacleCullMargin)
            && (forall o :: o in Map(os, Dropped(d)) && ObstacleStays(pr, height)(o) ==> o in kept)
            && (Ascending(Map(os, ObstacleId)) ==> Ascending(Map(kept, ObstacleId)))
            && (forall x :: x in Map(kept, ObstacleId) ==> x in Map(os, ObstacleId))
  {
    var dropped := Map(os, Dropped(d));
    FilterMembers(dropped, ObstacleStays(pr, height));
    FilterKeys(dropped, ObstacleStays(pr, height), ObstacleId);
    MapSameKeys(os, Dropped(d), ObstacleId);
  }

  /** After the collision pass no car overlaps the player, and every car that
      does not is still there; ids keep their order and no id is new. */
  lemma CarsKept(ts: seq<Traffic>, pr: Rect)
    ensures var kept := Filter(ts, Missed(pr));
            && (forall t :: t in kept ==> !Overlaps(pr, TrafficRect(t)))
            && (forall t :: t in ts && !Overlaps(pr, TrafficRect(t)) ==> t in kept)
            && (Ascending(Map(ts, TrafficId)) ==> Ascending(Map(kept, TrafficId)))
            && (forall x :: x in Map(kept, TrafficId) ==> x in Map(ts, TrafficId))
  {
    FilterMembers(ts, Missed(pr));
    FilterKeys(ts, Missed(pr), TrafficId);
  }
}
