/** Particle bursts (spawnParticles) and the per-tick particle update. */
module Particles {
  import opened Pools
  import opened State

  /** Constant downward acceleration applied to particle velocity. */
  const Gravity: real := 400.0

  /** One particle of a burst at (x, y), built from the four draws starting at `k`
      (horizontal spread, upward-biased vertical spread, life, size). */
  function Spark(id: int, x: real, y: real, rolls: Rolls, k: nat): (p: Particle)
    ensures p.id == id && p.x == x && p.y == y
    ensures -150.0 <= p.vx < 150.0
    ensures -450.0 <= p.vy < -150.0
    ensures 0.5 <= p.life < 1.1
    ensures 3.0 <= p.size < 9.0
  {
    Particle(id, x, y, (rolls(k) - 0.5) * 300.0, (rolls(k + 1) - 1.5) * 300.0,
             0.5 + rolls(k + 2) * 0.6, 3.0 + rolls(k + 3) * 6.0)
  }

  /** `b` is `a` with a block of new particles appended, numbered by the id
      counter from `a.nextId` on, each with at least half a second to live. */
  predicate Extends(a: Effects, b: Effects)
  {
    && a.nextId <= b.nextId
    && a.cursor <= b.cursor
    && |b.particles| == |a.particles| + (b.nextId - a.nextId)
    && b.particles[..|a.particles|] == a.particles
    && (forall j :: |a.particles| <= j < |b.particles| ==>
          b.particles[j].id == a.nextId + (j - |a.particles|) && b.particles[j].life >= 0.5)
  }

  lemma ExtendsTransitive(a: Effects, b: Effects, c: Effects)
    requires Extends(a, b) && Extends(b, c)
    ensures Extends(a, c)
  {
    assert c.particles[..|a.particles|] == c.particles[..|b.particles|][..|a.particles|];
    forall j | |a.particles| <= j < |c.particles|
      ensures c.particles[j].id == a.nextId + (j - |a.particles|) && c.particles[j].life >= 0.5
    {
      if j < |b.particles| {
        assert c.particles[j] == c.particles[..|b.particles|][j];
      }
    }
  }

  /** Extending a pool of live particles leaves every particle alive. */
  lemma ExtendsAlive(a: Effects, b: Effects)
    requires Extends(a, b)
    requires forall p :: p in a.particles ==> p.life > 0.0
    ensures forall p :: p in b.particles ==> p.life > 0.0
  {
    forall p | p in b.particles ensures p.life > 0.0 {
      var j :| 0 <= j < |b.particles| && b.particles[j] == p;
      if j < |a.particles| {
        assert b.particles[..|a.particles|][j] == p;
      }
    }
  }

  /** The ids of an extended pool are the old ids followed by the counter's block. */
  lemma ExtendsIds(a: Effects, b: Effects)
    requires Extends(a, b)
    ensures Map(b.particles, ParticleId) == Map(a.particles, ParticleId) + Range(a.nextId, b.nextId)
  {
    forall j | 0 <= j < |a.particles| ensures b.particles[j] == a.particles[j] {
      assert b.particles[j] == b.particles[..|a.particles|][j];
    }
  }

  /** `spawnParticles(x, y, colour, count)`: appends `count` particles at (x, y),
      the i-th taking id `nextId + i` and the four draws from `cursor + 4i`. */
  function Emit(fx: Effects, x: real, y: real, count: nat, rolls: Rolls): (r: Effects)
    ensures r == fx.(particles := r.particles, nextId := fx.nextId + count, cursor := fx.cursor + 4 * count)
    ensures |r.particles| == |fx.particles| + count
    ensures r.particles[..|fx.particles|] == fx.particles
    ensures Extends(fx, r)
    decreases count
  {
    if count == 0 then fx
    else
      var f1 := Emit(fx, x, y, count - 1, rolls);
      var r := f1.(particles := f1.particles + [Spark(f1.nextId, x, y, rolls, f1.cursor)],
                   nextId := f1.nextId + 1, cursor := f1.cursor + 4);
      assert r.particles[..|fx.particles|] == f1.particles[..|fx.particles|];
      r
  }

  /** The i-th particle of a burst is the spark built from the counter's
      i-th next value and the i-th group of four draws. */
  lemma {:induction false} EmitSparks(fx: Effects, x: real, y: real, count: nat, rolls: Rolls)
    ensures forall i :: 0 <= i < count ==>
      Emit(fx, x, y, count, rolls).particles[|fx.particles| + i] == Spark(fx.nextId + i, x, y, rolls, fx.cursor + 4 * i)
    decreases count
  {
    if count > 0 {
      EmitSparks(fx, x, y, count - 1, rolls);
      var f1 := Emit(fx, x, y, count - 1, rolls);
      var r := Emit(fx, x, y, count, rolls);
      forall i | 0 <= i < count
        ensures r.particles[|fx.particles| + i] == Spark(fx.nextId + i, x, y, rolls, fx.cursor + 4 * i)
      {
        if i < count - 1 {
          assert r.particles[|fx.particles| + i] == f1.particles[|fx.particles| + i];
        }
      }
    }
  }

  /** One particle after `delta` seconds: life runs down, position integrates
      the old velocity, then gravity adds to the vertical velocity. */
  function Age(p: Particle, delta: real): (q: Particle)
    ensures q.id == p.id && q.vx == p.vx && q.size == p.size
    ensures q.life == p.life - delta
    ensures q.x == p.x + p.vx * delta && q.y == p.y + p.vy * delta
    ensures q.vy == p.vy + Gravity * delta
  {
    p.(life := p.life - delta, x := p.x + p.vx * delta, y := p.y + p.vy * delta, vy := p.vy + Gravity * delta)
  }

  function Aged(delta: real): Particle -> Particle
  {
    p => Age(p, delta)
  }

  predicate Alive(p: Particle)
  {
    p.life > 0.0
  }

  /** The source's reverse loop over indices i-1 .. 0: age each particle in
      place and splice it out once its life has run out. The processed prefix
      ends up as the order-preserving filter of the aged particles. */
  function ParticleLoop(ps: seq<Particle>, i: nat, delta: real): (r: seq<Particle>)
    requires i <= |ps|
    ensures r == Filter(Map(ps[..i], Aged(delta)), Alive) + ps[i..]
    decreases i
  {
    if i == 0 then
      assert ps[..0] == [] && ps[0..] == ps;
      ps
    else if Age(ps[i - 1], delta).life <= 0.0 then
      SpliceOut(ps, i, Aged(delta), Alive);
      ParticleLoop(ps[..i - 1] + ps[i..], i - 1, delta)
    else
      SpliceKeep(ps, i, Aged(delta), Alive);
      ParticleLoop(ps[i - 1 := Age(ps[i - 1], delta)], i - 1, delta)
  }

  /** The particle update of one tick: the aged particles whose life is
      still positive, in their original order. */
  function UpdateParticles(ps: seq<Particle>, delta: real): (r: seq<Particle>)
    ensures r == Filter(Map(ps, Aged(delta)), Alive)
  {
    assert ps[..|ps|] == ps;
    ParticleLoop(ps, |ps|, delta)
  }

  /** Every survivor has life left and is an original particle whose life
      dropped by exactly `delta`; every particle with more than `delta` life
      left survives; ids keep their order and no id is new. */
  lemma ParticlesAged(ps: seq<Particle>, delta: real)
    ensures var r := UpdateParticles(ps, delta);
            && (forall q :: q in r ==> q.life > 0.0)
            && (forall q :: q in r ==> exists p :: p in ps && q == Age(p, delta) && q.life == p.life - delta)
            && (forall p :: p in ps && p.life - delta > 0.0 ==> Age(p, delta) in r)
            && (Ascending(Map(ps, ParticleId)) ==> Ascending(Map(r, ParticleId)))
            && (forall x :: x in Map(r, ParticleId) ==> x in Map(ps, ParticleId))
  {
    var r := UpdateParticles(ps, delta);
    var aged := Map(ps, Aged(delta));
    FilterMembers(aged, Alive);
    forall q | q in r ensures exists p :: p in ps && q == Age(p, delta) && q.life == p.life - delta {
      var j :| 0 <= j < |aged| && aged[j] == q;
      assert ps[j] in ps;
    }
    forall p | p in ps && p.life - delta > 0.0 ensures Age(p, delta) in r {
      var j :| 0 <= j < |ps| && ps[j] == p;
      assert aged[j] == Age(p, delta);
    }
    FilterKeys(aged, Alive, ParticleId);
    MapSameKeys(ps, Aged(delta), ParticleId);
  }
}
