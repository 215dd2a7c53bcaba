/**
 * The AI loop of main_ai.py: its own copies of the random and momentum drivers,
 * and the body of `while running` (apply the command by thresholds, friction,
 * position update, reset to the start pose on an obstacle hit or when the car
 * leaves the border rectangle).
 */
module MainAi {
  import opened Numeric
  import opened Objects
  import opened Drivers

  /** The playing area inside a 50-pixel border of the 1400x800 screen. */
  const BorderWidth: int := 50
  const BorderRect: Rect := Rect(BorderWidth, BorderWidth, 1400 - BorderWidth * 2, 800 - BorderWidth * 2)

  /** `Random_Driver.drive` of main_ai.py: two draws of `random.uniform(-1, 1)`. */
  function RandomDrive(forwardDraw: real, turnDraw: real): (c: Command)
    requires -1.0 <= forwardDraw <= 1.0 && -1.0 <= turnDraw <= 1.0
    ensures InUnitBox(c)
    ensures c == Command(forwardDraw, turnDraw)
  {
    RandomDriveCommand(forwardDraw, turnDraw)
  }

  /** Both coefficients are 0.2 in this copy of the momentum driver. */
  const AiForwardMomentumCoefficient: real := 0.2
  const AiLeftMomentumCoefficient: real := 0.2

  /**
   * One `Momentum_Driver.drive` AS WRITTEN: the new left momentum is bound to a local
   * variable, so the returned momenta keep the old left momentum.
   */
  function AiMomentumStep(m: Momenta, forwardDraw: real, turnDraw: real): (r: (Command, Momenta))
    requires -0.2 <= forwardDraw <= 1.0 && -1.0 <= turnDraw <= 1.0
    ensures r.0 == Command(Clamp(forwardDraw + m.forward, -1.0, 1.0), Clamp(turnDraw + m.left, -1.0, 1.0))
    ensures InUnitBox(r.0)
    ensures -1.0 <= r.1.forward <= 1.0
    ensures r.1.forward == Clamp(m.forward + r.0.forward * AiForwardMomentumCoefficient, -1.0, 1.0)
    ensures r.1.left == m.left
    ensures -1.0 <= turnDraw + m.left <= 1.0 ==> r.0.turnLeft == turnDraw + m.left
  {
    var forward := Clamp(forwardDraw + m.forward, -1.0, 1.0);
    var turnLeft := Clamp(turnDraw + m.left, -1.0, 1.0);
    var forwardMomentum := Clamp(m.forward + forward * AiForwardMomentumCoefficient, -1.0, 1.0);
    var leftMomentum := Clamp(m.left + turnLeft * AiLeftMomentumCoefficient, -1.0, 1.0);
    (Command(forward, turnLeft), Momenta(forwardMomentum, m.left))
  }

  /**
   * The same step with the evident intent of line 50, `self.left_momentum = ...`:
   * the left momentum follows the turn command within [-1, 1].
   */
  function CorrectedAiMomentumStep(m: Momenta, forwardDraw: real, turnDraw: real): (r: (Command, Momenta))
    requires -0.2 <= forwardDraw <= 1.0 && -1.0 <= turnDraw <= 1.0
    ensures InUnitBox(r.0)
    ensures -1.0 <= r.1.forward <= 1.0 && -1.0 <= r.1.left <= 1.0
    ensures r.0 == AiMomentumStep(m, forwardDraw, turnDraw).0
    ensures r.1.forward == AiMomentumStep(m, forwardDraw, turnDraw).1.forward
    ensures r.1.left == Clamp(m.left + r.0.turnLeft * AiLeftMomentumCoefficient, -1.0, 1.0)
    // from rest, a turn to the left builds up left momentum and a turn to the right the opposite
    ensures m.left == 0.0 && turnDraw > 0.0 ==> r.1.left > 0.0
    ensures m.left == 0.0 && turnDraw < 0.0 ==> r.1.left < 0.0
  {
    var forward := Clamp(forwardDraw + m.forward, -1.0, 1.0);
    var turnLeft := Clamp(turnDraw + m.left, -1.0, 1.0);
    var forwardMomentum := Clamp(m.forward + forward * AiForwardMomentumCoefficient, -1.0, 1.0);
    var leftMomentum := Clamp(m.left + turnLeft * AiLeftMomentumCoefficient, -1.0, 1.0);
    (Command(forward, turnLeft), Momenta(forwardMomentum, leftMomentum))
  }

  /** The discrepancy on one input: a full left draw from rest leaves the left momentum at 0, not 0.2. */
  lemma AiLeftMomentumIgnored()
    ensures AiMomentumStep(Momenta(0.0, 0.0), 0.5, 1.0).1.left == 0.0
    ensures CorrectedAiMomentumStep(Momenta(0.0, 0.0), 0.5, 1.0).1.left == 0.2
  {
  }

  /** The commands of successive `drive` calls as written, each draw pair feeding one call. */
  function AiMomentumRun(m: Momenta, draws: seq<(real, real)>): seq<Command>
    requires forall k :: 0 <= k < |draws| ==> -0.2 <= draws[k].0 <= 1.0 && -1.0 <= draws[k].1 <= 1.0
    decreases |draws|
  {
    if draws == [] then []
    else
      var r := AiMomentumStep(m, draws[0].0, draws[0].1);
      [r.0] + AiMomentumRun(r.1, draws[1..])
  }

  /**
   * From a fresh driver (left momentum 0), every turn command of every call is
   * exactly the raw turn draw: the left momentum never has any effect.
   */
  lemma {:induction false} AiTurnIsRawDraw(m: Momenta, draws: seq<(real, real)>)
    requires m.left == 0.0
    requires forall k :: 0 <= k < |draws| ==> -0.2 <= draws[k].0 <= 1.0 && -1.0 <= draws[k].1 <= 1.0
    ensures |AiMomentumRun(m, draws)| == |draws|
    ensures forall k :: 0 <= k < |draws| ==>
      InUnitBox(AiMomentumRun(m, draws)[k]) && AiMomentumRun(m, draws)[k].turnLeft == draws[k].1
    decreases |draws|
  {
    if draws != [] {
      var r := AiMomentumStep(m, draws[0].0, draws[0].1);
      AiTurnIsRawDraw(r.1, draws[1..]);
      assert AiMomentumRun(m, draws) == [r.0] + AiMomentumRun(r.1, draws[1..]);
      forall k | 0 <= k < |draws|
        ensures InUnitBox(AiMomentumRun(m, draws)[k]) && AiMomentumRun(m, draws)[k].turnLeft == draws[k].1
      {
        if k > 0 {
          assert AiMomentumRun(m, draws)[k] == AiMomentumRun(r.1, draws[1..])[k - 1];
          assert draws[k] == draws[1..][k - 1];
        }
      }
    }
  }

  /** `Momentum_Driver` of main_ai.py. */
  class AiMomentumDriver {
    var car: Car
    var win: int
    var forwardMomentum: real
    var leftMomentum: real

    function Momentum(): Momenta
      reads this
    {
      Momenta(forwardMomentum, leftMomentum)
    }

    constructor (car: Car)
      ensures this.car == car && win == 0
      ensures Momentum() == Momenta(0.0, 0.0)
    {
      this.car := car;
      this.win := 0;
      this.forwardMomentum := 0.0;
      this.leftMomentum := 0.0;
    }

    /** `drive()` as written: only `forward_momentum` is ever assigned. */
    method Drive(forwardDraw: real, turnDraw: real) returns (c: Command)
      requires -0.2 <= forwardDraw <= 1.0 && -1.0 <= turnDraw <= 1.0
      modifies this`forwardMomentum
      ensures (c, Momentum()) == AiMomentumStep(old(Momentum()), forwardDraw, turnDraw)
      ensures leftMomentum == old(leftMomentum)
    {
      var forward := Max(Min(forwardDraw + forwardMomentum, 1.0), -1.0);
      var turnLeft := Max(Min(turnDraw + leftMomentum, 1.0), -1.0);
      forwardMomentum := Max(Min(forwardMomentum + forward * AiForwardMomentumCoefficient, 1.0), -1.0);
      var leftMomentum := Max(Min(leftMomentum + turnLeft * AiLeftMomentumCoefficient, 1.0), -1.0);
      c := Command(forward, turnLeft);
    }
  }

  /** The dispatch of one command: strict thresholds at +-0.5; the turn sees the new speed. */
  function ApplyCommandStep(s: CarState, c: Command): (r: CarState)
    ensures r.x == s.x && r.y == s.y
    ensures c.forward > 0.5 ==> r.speed == s.speed + Acceleration
    ensures c.forward < -0.5 ==> r.speed == s.speed - Acceleration
    ensures -0.5 <= c.forward <= 0.5 ==> r.speed == s.speed
    ensures -0.5 <= c.turnLeft <= 0.5 ==> r.angle == s.angle
    ensures c.turnLeft > 0.5 ==> r.angle == TurnStep(s.(speed := r.speed), true).angle
    ensures c.turnLeft < -0.5 ==> r.angle == TurnStep(s.(speed := r.speed), false).angle
  {
    var s1 := if c.forward > 0.5 then ForwardStep(s) else if c.forward < -0.5 then ReverseStep(s) else s;
    if c.turnLeft > 0.5 then TurnStep(s1, true) else if c.turnLeft < -0.5 then TurnStep(s1, false) else s1
  }

  /** Lines 101-109: call the car methods the command selects. */
  method ApplyCommand(car: Car, c: Command)
    modifies car
    ensures car.State() == ApplyCommandStep(old(car.State()), c)
  {
    if c.forward > 0.5 {
      car.Forward();
    } else if c.forward < -0.5 {
      car.Reverse();
    }
    if c.turnLeft > 0.5 {
      car.Turn(true);
    } else if c.turnLeft < -0.5 {
      car.Turn(false);
    }
  }

  /** The obstacle loop: each obstacle in turn is tested against the current pose and may reset it. */
  function ObstaclePass(collide: Collider, start: Pose, s: CarState, obstacles: seq<Rect>): (r: CarState)
    // the loop either leaves the car alone or puts it back on the start pose at rest
    ensures r == s || r == ResetState(start)
    decreases |obstacles|
  {
    if obstacles == [] then s
    else
      var s1 := if Collides(collide, s, obstacles[0]) then ResetState(start) else s;
      ObstaclePass(collide, start, s1, obstacles[1..])
  }

  /** The loop resets the car exactly when the pose it starts with hits some obstacle. */
  lemma {:induction false} ObstaclePassOutcome(collide: Collider, start: Pose, s: CarState, obstacles: seq<Rect>)
    ensures ObstaclePass(collide, start, s, obstacles) ==
      if exists k :: 0 <= k < |obstacles| && Collides(collide, s, obstacles[k]) then ResetState(start) else s
    decreases |obstacles|
  {
    if obstacles != [] {
      var rest := obstacles[1..];
      if Collides(collide, s, obstacles[0]) {
        ObstaclePassFixed(collide, start, rest);
      } else {
        ObstaclePassOutcome(collide, start, s, rest);
        if exists k :: 0 <= k < |obstacles| && Collides(collide, s, obstacles[k]) {
          var k :| 0 <= k < |obstacles| && Collides(collide, s, obstacles[k]);
          assert rest[k - 1] == obstacles[k];
        } else {
          forall k | 0 <= k < |rest| ensures !Collides(collide, s, rest[k]) {
            assert rest[k] == obstacles[k + 1];
          }
        }
      }
    }
  }

  /** Once reset, the car stays at the start pose through the rest of the obstacle loop. */
  lemma {:induction false} ObstaclePassFixed(collide: Collider, start: Pose, obstacles: seq<Rect>)
    ensures ObstaclePass(collide, start, ResetState(start), obstacles) == ResetState(start)
    decreases |obstacles|
  {
    if obstacles != [] {
      ObstaclePassFixed(collide, start, obstacles[1..]);
    }
  }

  /** Command, friction and position update, in that order. */
  function Physics(s: CarState, c: Command, trig: Trig): CarState
  {
    MoveStep(FrictionStep(ApplyCommandStep(s, c)), trig)
  }

  /** One pass of the loop body after the command is read (lines 101-137). */
  function TickStep(s: CarState, c: Command, trig: Trig, collide: Collider, start: Pose, obstacles: seq<Rect>): (r: CarState)
    // a tick ends either at the moved car or back on the start pose at rest
    ensures r == Physics(s, c, trig) || r == ResetState(start)
  {
    var q := ObstaclePass(collide, start, Physics(s, c, trig), obstacles);
    if !Collides(collide, q, BorderRect) then ResetState(start) else q
  }

  /**
   * A tick either ends at rest on the start pose, when the moved car hits an obstacle
   * or does not overlap the border rectangle, or at the moved car.
   */
  lemma TickOutcome(s: CarState, c: Command, trig: Trig, collide: Collider, start: Pose, obstacles: seq<Rect>)
    ensures var p := Physics(s, c, trig);
      TickStep(s, c, trig, collide, start, obstacles) ==
        if (exists k :: 0 <= k < |obstacles| && Collides(collide, p, obstacles[k])) || !Collides(collide, p, BorderRect)
        then ResetState(start) else p
  {
    ObstaclePassOutcome(collide, start, Physics(s, c, trig), obstacles);
  }

  /** The order matters: friction runs after the command, so a first push from rest keeps 0.03 of speed. */
  lemma CommandBeforeFriction(s: CarState)
    requires s.speed == 0.0
    ensures FrictionStep(ApplyCommandStep(s, Command(1.0, 0.0))).speed == 0.03
    ensures ApplyCommandStep(FrictionStep(s), Command(1.0, 0.0)).speed == 0.05
  {
  }

  /** The loop body from the dispatch to the border test (lines 101-137); drawing is left out. */
  method Tick(car: Car, c: Command, trig: Trig, collide: Collider, start: Pose, obstacles: seq<Rect>)
    modifies car
    ensures car.State() == TickStep(old(car.State()), c, trig, collide, start, obstacles)
  {
    ApplyCommand(car, c);
    car.SimulateFriction();
    car.PositionFrameUpdate(trig);
    ghost var moved := car.State();
    var k := 0;
    while k < |obstacles|
      invariant 0 <= k <= |obstacles|
      invariant ObstaclePass(collide, start, car.State(), obstacles[k..]) == ObstaclePass(collide, start, moved, obstacles)
    {
      assert obstacles[k..][1..] == obstacles[k + 1..];
      if car.CollideRect(collide, obstacles[k]) {
        car.ForcePosition(start.x, start.y, start.angle);
      }
      k := k + 1;
    }
    if car.OutOfRect(collide, BorderRect) {
      car.ForcePosition(start.x, start.y, start.angle);
    }
  }

  /**
   * One whole iteration of the loop (lines 99-137): the driver draws the command, then
   * the car is ticked with it.  The driver's car is the car that moves.
   */
  method LoopIteration(driver: AiMomentumDriver, forwardDraw: real, turnDraw: real,
                       trig: Trig, collide: Collider, start: Pose, obstacles: seq<Rect>)
    requires -0.2 <= forwardDraw <= 1.0 && -1.0 <= turnDraw <= 1.0
    modifies driver`forwardMomentum, driver.car
    ensures var step := AiMomentumStep(old(driver.Momentum()), forwardDraw, turnDraw);
      driver.Momentum() == step.1 &&
      driver.car.State() == TickStep(old(driver.car.State()), step.0, trig, collide, start, obstacles)
  {
    var c := driver.Drive(forwardDraw, turnDraw);
    Tick(driver.car, c, trig, collide, start, obstacles);
  }
}
