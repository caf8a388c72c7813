/** Lateral steering physics of one tick (GameCanvas.tsx, the "Lateral physics"
    block of the loop): acceleration from input, friction only when idle,
    speed clamp, position integration and the road-bounds clamp. */
module Physics {
  import opened Num
  import opened State

  /** Acceleration from the two steering flags and the tilt. The flags cancel
      when both are held; the tilt always contributes, however small. */
  function Accel(inp: Input): (a: real)
    ensures inp.left == inp.right ==> a == inp.tilt * LateralAcceleration
    ensures inp.left && !inp.right ==> a == (inp.tilt - 1.0) * LateralAcceleration
    ensures !inp.left && inp.right ==> a == (inp.tilt + 1.0) * LateralAcceleration
  {
    var a0 := if inp.left then -LateralAcceleration else 0.0;
    var a1 := if inp.right then a0 + LateralAcceleration else a0;
    a1 + inp.tilt * LateralAcceleration
  }

  /** No flag held and a tilt below the 0.02 dead zone: friction applies. */
  predicate Idle(inp: Input)
  {
    !inp.left && !inp.right && Abs(inp.tilt) < 0.02
  }

  /** Friction decelerates towards zero by at most `LateralFriction * delta`
      and never carries the velocity past zero. */
  function Friction(v: real, delta: real): (r: real)
    ensures delta >= 0.0 ==> Abs(r) == Max(0.0, Abs(v) - LateralFriction * delta)
    ensures delta >= 0.0 ==> (v >= 0.0 ==> r >= 0.0) && (v <= 0.0 ==> r <= 0.0)
  {
    v - Sign(v) * Min(Abs(v), LateralFriction * delta)
  }

  /** The two `if`s that cap lateral speed at `LateralMaxSpeed`. */
  function ClampSpeed(v: real): (r: real)
    ensures -LateralMaxSpeed <= r <= LateralMaxSpeed
    ensures -LateralMaxSpeed <= v <= LateralMaxSpeed ==> r == v
    ensures v > LateralMaxSpeed ==> r == LateralMaxSpeed
    ensures v < -LateralMaxSpeed ==> r == -LateralMaxSpeed
  {
    var v1 := if v > LateralMaxSpeed then LateralMaxSpeed else v;
    if v1 < -LateralMaxSpeed then -LateralMaxSpeed else v1
  }

  /** Leftmost x the player's box may reach: 120 left of the first lane value. */
  function MinX(lanes: seq<real>): real
    requires |lanes| > 0
  {
    lanes[0] - 120.0
  }

  /** Rightmost x the player's box may reach: 120 right of the last lane value. */
  function MaxX(lanes: seq<real>): real
    requires |lanes| > 0
  {
    lanes[|lanes| - 1] + 120.0
  }

  /** The road-bounds clamp: with lanes, x is pulled into [MinX, MaxX];
      without lanes it is left alone. */
  function KeepOnRoad(x: real, lanes: seq<real>): (x': real)
    ensures |lanes| == 0 ==> x' == x
    ensures |lanes| > 0 ==> MinX(lanes) <= x'
    ensures |lanes| > 0 && MinX(lanes) <= MaxX(lanes) ==> x' <= MaxX(lanes)
    ensures |lanes| > 0 && MinX(lanes) <= x <= MaxX(lanes) ==> x' == x
  {
    if |lanes| > 0 then Max(MinX(lanes), Min(MaxX(lanes), x)) else x
  }

  /** The velocity after the input's acceleration has acted for `delta`. */
  function Push(v: real, inp: Input, delta: real): real
  {
    v + Accel(inp) * delta
  }

  /** Friction applies only to an idle tick. */
  function Damp(v: real, inp: Input, delta: real): (r: real)
    ensures !Idle(inp) ==> r == v
    ensures Idle(inp) ==> r == Friction(v, delta)
  {
    if Idle(inp) then Friction(v, delta) else v
  }

  /** Over a non-negative time damping never raises the lateral speed and
      never flips the velocity's sign. */
  lemma DampNeverSpeedsUp(v: real, inp: Input, delta: real)
    requires delta >= 0.0
    ensures Abs(Damp(v, inp, delta)) <= Abs(v)
    ensures v >= 0.0 ==> Damp(v, inp, delta) >= 0.0
    ensures v <= 0.0 ==> Damp(v, inp, delta) <= 0.0
  {
  }

  /** The velocity after acceleration, idle friction and the clamp. */
  function SteeredVelocity(v: real, inp: Input, delta: real): (r: real)
    ensures -LateralMaxSpeed <= r <= LateralMaxSpeed
  {
    ClampSpeed(Damp(Push(v, inp, delta), inp, delta))
  }

  /** With no input, a sub-threshold tilt's acceleration is smaller than the
      friction, so an idle tick never increases lateral speed. */
  lemma IdleNeverSpeedsUp(v: real, inp: Input, delta: real)
    requires Idle(inp) && delta >= 0.0
    ensures Abs(SteeredVelocity(v, inp, delta)) <= Abs(v)
  {
    IdlePushBound(v, inp, delta);
    FrictionAbsorbs(Push(v, inp, delta), v, delta);
    ClampShrinks(Friction(Push(v, inp, delta), delta));
  }

  /** Inside the dead zone the push over `delta` is at most 28 * delta. */
  lemma IdlePushBound(v: real, inp: Input, delta: real)
    requires Idle(inp) && delta >= 0.0
    ensures v - 28.0 * delta <= Push(v, inp, delta) <= v + 28.0 * delta
  {
    assert -28.0 <= Accel(inp) <= 28.0;
    BoundedPush(Accel(inp), delta);
    assert -28.0 * delta <= Accel(inp) * delta <= 28.0 * delta;
    assert Push(v, inp, delta) == v + Accel(inp) * delta;
  }

  /** Friction of 1800 per second outweighs a push of at most 28 per second. */
  lemma FrictionAbsorbs(v1: real, v: real, delta: real)
    requires delta >= 0.0
    requires v - 28.0 * delta <= v1 <= v + 28.0 * delta
    ensures Abs(Friction(v1, delta)) <= Abs(v)
  {
  }

  /** The clamp never increases the magnitude. */
  lemma ClampShrinks(v: real)
    ensures Abs(ClampSpeed(v)) <= Abs(v)
  {
  }

  lemma BoundedPush(a: real, delta: real)
    requires -28.0 <= a <= 28.0 && delta >= 0.0
    ensures -28.0 * delta <= a * delta <= 28.0 * delta
  {
    if a >= 0.0 {
      ScaleBounds(delta, a, 0.0, 28.0);
    } else {
      ScaleBounds(delta, -a, 0.0, 28.0);
    }
  }

  /** The lateral update: velocity steered and clamped, then position
      integrated and, once lanes exist, clamped to the road bounds. Nothing
      but the x coordinate and the velocity changes. */
  function Lateral(p: Player, inp: Input, lanes: seq<real>, delta: real): (q: Player)
    ensures q == p.(pos := p.pos.(x := q.pos.x), velocityX := q.velocityX)
    ensures q.velocityX == SteeredVelocity(p.velocityX, inp, delta)
    ensures -LateralMaxSpeed <= q.velocityX <= LateralMaxSpeed
    ensures |lanes| == 0 ==> q.pos.x == p.pos.x + q.velocityX * delta
    ensures |lanes| > 0 ==> MinX(lanes) <= q.pos.x
    ensures |lanes| > 0 && MinX(lanes) <= MaxX(lanes) ==> q.pos.x <= MaxX(lanes)
    ensures |lanes| > 0 && MinX(lanes) <= p.pos.x + q.velocityX * delta <= MaxX(lanes) ==>
      q.pos.x == p.pos.x + q.velocityX * delta
  {
    var v := SteeredVelocity(p.velocityX, inp, delta);
    var x := p.pos.x + v * delta;
    var q := p.(pos := p.pos.(x := KeepOnRoad(x, lanes)), velocityX := v);
    assert q.velocityX == v && q.pos.x == KeepOnRoad(x, lanes);
    assert p.pos.x + q.velocityX * delta == x;
    q
  }

  /** Scenario: at 16 ms with no input, friction takes a velocity of 500 down by
      exactly 1800 * 0.016 = 28.8 before the speed cap applies. */
  lemma IdleFrictionScenario()
    ensures Friction(500.0, 0.016) == 471.2
    ensures SteeredVelocity(500.0, Input(false, false, 0.0), 0.016) == LateralMaxSpeed
  {
  }

  /** A tilt inside the dead zone still accelerates even though friction is on. */
  lemma DeadZoneTiltStillAccelerates()
    ensures Idle(Input(false, false, 0.01)) && Accel(Input(false, false, 0.01)) == 14.0
  {
  }
}
