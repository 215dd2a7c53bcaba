/**
 * The controllers of drivers.py.  Every driver is bound to one car and answers
 * `drive_command()` with a pair (forward, turn_left).  Key state and random draws
 * are inputs; a draw carries the range of the `random.uniform` call it stands for.
 */
module Drivers {
  import opened Numeric
  import Objects

  /** The (forward, turn_left) pair every driver returns. */
  datatype Command = Command(forward: real, turnLeft: real)

  predicate InUnitBox(c: Command) {
    -1.0 <= c.forward <= 1.0 && -1.0 <= c.turnLeft <= 1.0
  }

  /** The common part of every driver: the bound car and the win counter. */
  class Driver {
    var car: Objects.Car
    var win: int

    constructor (car: Objects.Car)
      ensures this.car == car && win == 0
    {
      this.car := car;
      this.win := 0;
    }
  }

  /** The four keys the player driver reads (pygame K_w, K_s, K_a, K_d). */
  datatype Keys = Keys(w: bool, s: bool, a: bool, d: bool)

  /** `Player_Driver.drive_command`: W/S add +1/-1 to forward, A/D add +1/-1 to turn_left. */
  function PlayerDriveCommand(keys: Keys): (c: Command)
    ensures c.forward in {-1.0, 0.0, 1.0} && c.turnLeft in {-1.0, 0.0, 1.0}
    ensures c.forward == 1.0 <==> keys.w && !keys.s
    ensures c.forward == -1.0 <==> keys.s && !keys.w
    ensures c.turnLeft == 1.0 <==> keys.a && !keys.d
    ensures c.turnLeft == -1.0 <==> keys.d && !keys.a
    ensures keys.w && keys.s ==> c.forward == 0.0
    ensures keys.a && keys.d ==> c.turnLeft == 0.0
  {
    var forward := 0.0;
    var forward := if keys.w then forward + 1.0 else forward;
    var forward := if keys.s then forward - 1.0 else forward;
    var turnLeft := 0.0;
    var turnLeft := if keys.a then turnLeft + 1.0 else turnLeft;
    var turnLeft := if keys.d then turnLeft - 1.0 else turnLeft;
    Command(forward, turnLeft)
  }

  /** `Random_Driver.drive_command`: two draws of `random.uniform(-1, 1)`. */
  function RandomDriveCommand(forwardDraw: real, turnDraw: real): (c: Command)
    requires -1.0 <= forwardDraw <= 1.0 && -1.0 <= turnDraw <= 1.0
    ensures InUnitBox(c)
    ensures c.forward == forwardDraw && c.turnLeft == turnDraw
  {
    Command(forwardDraw, turnDraw)
  }

  const ForwardMomentumCoefficient: real := 0.2
  const LeftMomentumCoefficient: real := 0.1
  /** The band `left_momentum` is clamped to. */
  const LeftMomentumBound: real := 0.2

  /** The two accumulators of `Momentum_Driver`. */
  datatype Momenta = Momenta(forward: real, left: real)

  predicate MomentaInBands(m: Momenta) {
    -1.0 <= m.forward <= 1.0 && -LeftMomentumBound <= m.left <= LeftMomentumBound
  }

  /**
   * One `Momentum_Driver.drive_command`: the command (draw plus momentum, clamped to
   * [-1, 1]) and the momenta afterwards, updated from the already clamped command.
   */
  function MomentumStep(m: Momenta, forwardDraw: real, turnDraw: real): (r: (Command, Momenta))
    requires -0.2 <= forwardDraw <= 1.0 && -1.0 <= turnDraw <= 1.0
    ensures r.0 == Command(Clamp(forwardDraw + m.forward, -1.0, 1.0), Clamp(turnDraw + m.left, -1.0, 1.0))
    ensures InUnitBox(r.0)
    ensures MomentaInBands(r.1)
    // draw and momentum are added and kept unchanged when the sum is in range
    ensures -1.0 <= forwardDraw + m.forward <= 1.0 ==> r.0.forward == forwardDraw + m.forward
    ensures -1.0 <= turnDraw + m.left <= 1.0 ==> r.0.turnLeft == turnDraw + m.left
    // each accumulator moves by its coefficient times the command it produced, within its band
    ensures r.1.forward == Clamp(m.forward + r.0.forward * ForwardMomentumCoefficient, -1.0, 1.0)
    ensures r.1.left == Clamp(m.left + r.0.turnLeft * LeftMomentumCoefficient, -LeftMomentumBound, LeftMomentumBound)
  {
    var forward := Clamp(forwardDraw + m.forward, -1.0, 1.0);
    var turnLeft := Clamp(turnDraw + m.left, -1.0, 1.0);
    var next := Momenta(
      Clamp(m.forward + forward * ForwardMomentumCoefficient, -1.0, 1.0),
      Clamp(m.left + turnLeft * LeftMomentumCoefficient, -LeftMomentumBound, LeftMomentumBound));
    (Command(forward, turnLeft), next)
  }

  /** The commands of successive calls, each draw pair feeding one call. */
  function MomentumRun(m: Momenta, draws: seq<(real, real)>): (cs: seq<Command>)
    requires forall k :: 0 <= k < |draws| ==> -0.2 <= draws[k].0 <= 1.0 && -1.0 <= draws[k].1 <= 1.0
    decreases |draws|
  {
    if draws == [] then []
    else
      var r := MomentumStep(m, draws[0].0, draws[0].1);
      [r.0] + MomentumRun(r.1, draws[1..])
  }

  /**
   * However long the driver runs, it issues one command per call and every command
   * stays in [-1, 1]; a turning momentum in its band never pushes the turn draw
   * further than 0.2 away.
   */
  lemma {:induction false} MomentumRunBounded(m: Momenta, draws: seq<(real, real)>)
    requires MomentaInBands(m)
    requires forall k :: 0 <= k < |draws| ==> -0.2 <= draws[k].0 <= 1.0 && -1.0 <= draws[k].1 <= 1.0
    ensures |MomentumRun(m, draws)| == |draws|
    ensures forall k :: 0 <= k < |draws| ==> InUnitBox(MomentumRun(m, draws)[k])
    ensures forall k :: 0 <= k < |draws| ==>
      Abs(MomentumRun(m, draws)[k].turnLeft - draws[k].1) <= LeftMomentumBound
    decreases |draws|
  {
    if draws != [] {
      var r := MomentumStep(m, draws[0].0, draws[0].1);
      MomentumRunBounded(r.1, draws[1..]);
      assert MomentumRun(m, draws) == [r.0] + MomentumRun(r.1, draws[1..]);
      forall k | 0 <= k < |draws|
        ensures InUnitBox(MomentumRun(m, draws)[k])
        ensures Abs(MomentumRun(m, draws)[k].turnLeft - draws[k].1) <= LeftMomentumBound
      {
        if k > 0 {
          assert MomentumRun(m, draws)[k] == MomentumRun(r.1, draws[1..])[k - 1];
          assert draws[k] == draws[1..][k - 1];
        }
      }
    }
  }

  /** `Momentum_Driver`: a driver with forward and left momentum accumulators. */
  class MomentumDriver {
    var car: Objects.Car
    var win: int
    var forwardMomentum: real
    var leftMomentum: real

    function Momentum(): Momenta
      reads this
    {
      Momenta(forwardMomentum, leftMomentum)
    }

    ghost predicate Valid()
      reads this
    {
      MomentaInBands(Momentum())
    }

    constructor (car: Objects.Car)
      ensures this.car == car && win == 0
      ensures Momentum() == Momenta(0.0, 0.0)
      ensures Valid()
    {
      this.car := car;
      this.win := 0;
      this.forwardMomentum := 0.0;
      this.leftMomentum := 0.0;
    }

    method DriveCommand(forwardDraw: real, turnDraw: real) returns (c: Command)
      requires -0.2 <= forwardDraw <= 1.0 && -1.0 <= turnDraw <= 1.0
      modifies this`forwardMomentum, this`leftMomentum
      ensures (c, Momentum()) == MomentumStep(old(Momentum()), forwardDraw, turnDraw)
      ensures Valid() && InUnitBox(c)
    {
      var forward := Max(Min(forwardDraw + forwardMomentum, 1.0), -1.0);
      var turnLeft := Max(Min(turnDraw + leftMomentum, 1.0), -1.0);
      forwardMomentum := Max(Min(forwardMomentum + forward * ForwardMomentumCoefficient, 1.0), -1.0);
      leftMomentum := Max(Min(leftMomentum + turnLeft * LeftMomentumCoefficient, LeftMomentumBound), -LeftMomentumBound);
      c := Command(forward, turnLeft);
    }
  }
}
