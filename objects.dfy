/**
 * The car of objects.py: a pose (x, y, heading in degrees) and a scalar speed,
 * updated in place once per frame.  The pure `CarState` functions below are the
 * specification of the `Car` methods; multi-frame properties are lemmas about them.
 */
module Objects {
  import opened Numeric

  /** Per-frame physics attributes, never reassigned after construction. */
  const RotationCoefficient: real := 1.0
  const Acceleration: real := 0.05
  const FrictionDeceleration: real := 0.02

  /** A pygame.Rect: left, top, width and height in pixels. */
  datatype Rect = Rect(left: int, top: int, width: int, height: int)

  /** A start pose as read from a level (x, y, heading). */
  datatype Pose = Pose(x: real, y: real, angle: real)

  /** The abstract value of a car. */
  datatype CarState = CarState(x: real, y: real, angle: real, speed: real)

  /**
   * `math.sin(math.radians(a))` and `math.cos(math.radians(a))` for a heading `a`
   * in degrees; the transcendental functions are left uninterpreted.
   */
  datatype Trig = Trig(sinDeg: real -> real, cosDeg: real -> real)

  /**
   * Whether the car image, rotated by the heading and centred at (x, y), overlaps
   * the rectangle (pygame's rotate / get_rect / colliderect).
   */
  type Collider = (real, real, real, Rect) -> bool

  predicate InAngleBand(a: real) {
    -360.0 <= a <= 360.0
  }

  /** The single correction of `turn`: subtracts 360 above 360, adds 360 below -360. */
  function WrapAngle(a: real): (r: real)
    ensures r == a || r == a - 360.0 || r == a + 360.0
    ensures -720.0 <= a <= 720.0 ==> InAngleBand(r)
    ensures InAngleBand(a) ==> r == a
    ensures a > 360.0 ==> r == a - 360.0
    ensures a < -360.0 ==> r == a + 360.0
  {
    if a > 360.0 then a - 360.0 else if a < -360.0 then a + 360.0 else a
  }

  /** The heading change a turn asks for before wrapping: +k*speed to the left, -k*speed to the right. */
  function TurnDelta(speed: real, left: bool): (d: real)
    ensures left ==> d == RotationCoefficient * speed
    ensures !left ==> d == -(RotationCoefficient * speed)
    ensures speed == 0.0 ==> d == 0.0
    ensures Abs(d) == Abs(RotationCoefficient * speed)
  {
    if left then RotationCoefficient * speed else -(RotationCoefficient * speed)
  }

  function TurnStep(s: CarState, left: bool): (r: CarState)
    // only the heading changes
    ensures r.x == s.x && r.y == s.y && r.speed == s.speed
    // the heading moves by the turn delta, corrected by at most one full turn
    ensures r.angle == WrapAngle(s.angle + TurnDelta(s.speed, left))
    ensures var a := s.angle + TurnDelta(s.speed, left);
      r.angle == a || r.angle == a - 360.0 || r.angle == a + 360.0
    // standing still inside the band, a turn does nothing
    ensures s.speed == 0.0 && InAngleBand(s.angle) ==> r == s
    // the band is kept as long as one turn is at most a full circle
    ensures InAngleBand(s.angle) && Abs(RotationCoefficient * s.speed) <= 360.0 ==> InAngleBand(r.angle)
  {
    s.(angle := WrapAngle(s.angle + TurnDelta(s.speed, left)))
  }

  function ForwardStep(s: CarState): (r: CarState)
    ensures r.speed == s.speed + Acceleration
    ensures r.x == s.x && r.y == s.y && r.angle == s.angle
  {
    s.(speed := s.speed + Acceleration)
  }

  function ReverseStep(s: CarState): (r: CarState)
    ensures r.speed == s.speed - Acceleration
    ensures r.x == s.x && r.y == s.y && r.angle == s.angle
  {
    s.(speed := s.speed - Acceleration)
  }

  /** `reverse` undoes `forward` and vice versa: there is no clamp that could lose speed. */
  lemma ForwardReverseInverse(s: CarState)
    ensures ReverseStep(ForwardStep(s)) == s
    ensures ForwardStep(ReverseStep(s)) == s
  {
  }

  /** One frame of friction on a speed. */
  function FrictionSpeed(v: real): (r: real)
    // the magnitude drops by exactly the deceleration, and not below zero
    ensures Abs(r) == Max(Abs(v) - FrictionDeceleration, 0.0)
    // the sign never flips
    ensures r > 0.0 ==> v > 0.0
    ensures r < 0.0 ==> v < 0.0
  {
    if Abs(v) < FrictionDeceleration then 0.0
    else if v > 0.0 then v - FrictionDeceleration
    else if v < 0.0 then v + FrictionDeceleration
    else v
  }

  function FrictionStep(s: CarState): (r: CarState)
    ensures r.x == s.x && r.y == s.y && r.angle == s.angle
    ensures r.speed == FrictionSpeed(s.speed)
    ensures Abs(r.speed) <= Abs(s.speed)
  {
    s.(speed := FrictionSpeed(s.speed))
  }

  /** The speed after `n` frames of friction and nothing else. */
  function FrictionIter(v: real, n: nat): real
    decreases n
  {
    if n == 0 then v else FrictionIter(FrictionSpeed(v), n - 1)
  }

  /** After `n` frames the magnitude is exactly |v| - n*deceleration, floored at 0, with the sign of `v`. */
  lemma {:induction false} FrictionIterMagnitude(v: real, n: nat)
    ensures Abs(FrictionIter(v, n)) == Max(Abs(v) - n as real * FrictionDeceleration, 0.0)
    ensures FrictionIter(v, n) > 0.0 ==> v > 0.0
    ensures FrictionIter(v, n) < 0.0 ==> v < 0.0
    decreases n
  {
    if n > 0 {
      FrictionIterMagnitude(FrictionSpeed(v), n - 1);
    }
  }

  /** The least number of frames after which friction has stopped a car moving at speed `v`. */
  function StopTime(v: real): (n: nat)
    ensures n as real * FrictionDeceleration >= Abs(v)
    ensures n > 0 ==> (n - 1) as real * FrictionDeceleration < Abs(v)
  {
    var q := Abs(v) / FrictionDeceleration;
    if q.Floor as real == q then q.Floor else q.Floor + 1
  }

  /** Friction alone brings every speed to exactly 0, at exactly `StopTime(v)` frames. */
  lemma FrictionStops(v: real, k: nat)
    ensures FrictionIter(v, StopTime(v)) == 0.0
    ensures FrictionIter(v, k) == 0.0 <==> k >= StopTime(v)
  {
    FrictionIterMagnitude(v, StopTime(v));
    FrictionIterMagnitude(v, k);
    if k < StopTime(v) {
      assert k as real * FrictionDeceleration <= (StopTime(v) - 1) as real * FrictionDeceleration;
    }
  }

  /** The position update of one frame: `y += cos(heading) * speed`, `x += sin(heading) * speed`. */
  function MoveStep(s: CarState, trig: Trig): (r: CarState)
    ensures r.angle == s.angle && r.speed == s.speed
    ensures s.speed == 0.0 ==> r == s
    // heading 0 drives along +y and heading 90 along +x (the x step takes the sine, the y step the cosine)
    ensures trig.sinDeg(s.angle) == 0.0 && trig.cosDeg(s.angle) == 1.0 ==> r == s.(y := s.y + s.speed)
    ensures trig.sinDeg(s.angle) == 1.0 && trig.cosDeg(s.angle) == 0.0 ==> r == s.(x := s.x + s.speed)
    // heading 180 drives along -y and heading -90 along -x
    ensures trig.sinDeg(s.angle) == 0.0 && trig.cosDeg(s.angle) == -1.0 ==> r == s.(y := s.y - s.speed)
    ensures trig.sinDeg(s.angle) == -1.0 && trig.cosDeg(s.angle) == 0.0 ==> r == s.(x := s.x - s.speed)
  {
    s.(y := s.y + trig.cosDeg(s.angle) * s.speed,
       x := s.x + trig.sinDeg(s.angle) * s.speed)
  }

  /** Where sin^2 + cos^2 = 1 holds for the heading, a frame covers exactly distance |speed|. */
  lemma MoveDistance(s: CarState, trig: Trig)
    requires trig.sinDeg(s.angle) * trig.sinDeg(s.angle) + trig.cosDeg(s.angle) * trig.cosDeg(s.angle) == 1.0
    ensures var r := MoveStep(s, trig);
      (r.x - s.x) * (r.x - s.x) + (r.y - s.y) * (r.y - s.y) == s.speed * s.speed
  {
  }

  function Collides(collide: Collider, s: CarState, rect: Rect): bool
  {
    collide(s.x, s.y, s.angle, rect)
  }

  /** The car state the simulation resets to: the start pose at rest. */
  function ResetState(start: Pose): (r: CarState)
    ensures r.speed == 0.0
    ensures r.x == start.x && r.y == start.y && r.angle == start.angle
  {
    CarState(start.x, start.y, start.angle, 0.0)
  }

  class Car {
    var x: real
    var y: real
    var angle: real
    var speed: real

    function State(): CarState
      reads this
    {
      CarState(x, y, angle, speed)
    }

    constructor (x: real, y: real, angle: real)
      ensures State() == CarState(x, y, angle, 0.0)
    {
      this.x := x;
      this.y := y;
      this.angle := angle;
      this.speed := 0.0;
    }

    method Turn(left: bool := false)
      modifies this
      ensures State() == TurnStep(old(State()), left)
    {
      if left {
        angle := angle + RotationCoefficient * speed;
      } else {
        angle := angle - RotationCoefficient * speed;
      }
      if angle > 360.0 {
        angle := angle - 360.0;
      } else if angle < -360.0 {
        angle := angle + 360.0;
      }
    }

    method Forward()
      modifies this
      ensures State() == ForwardStep(old(State()))
    {
      speed := speed + Acceleration;
    }

    method Reverse()
      modifies this
      ensures State() == ReverseStep(old(State()))
    {
      speed := speed - Acceleration;
    }

    method SimulateFriction()
      modifies this
      ensures State() == FrictionStep(old(State()))
    {
      if Abs(speed) < FrictionDeceleration {
        speed := 0.0;
      } else if speed > 0.0 {
        speed := speed - FrictionDeceleration;
      } else if speed < 0.0 {
        speed := speed + FrictionDeceleration;
      }
    }

    method PositionFrameUpdate(trig: Trig)
      modifies this
      ensures State() == MoveStep(old(State()), trig)
    {
      y := y + trig.cosDeg(angle) * speed;
      x := x + trig.sinDeg(angle) * speed;
    }

    method ForcePosition(x: real, y: real, angle: real, speed: real := 0.0)
      modifies this
      ensures State() == CarState(x, y, angle, speed)
    {
      this.x := x;
      this.y := y;
      this.angle := angle;
      this.speed := speed;
    }

    /** The overlap test depends on the pose only, never on the speed. */
    function CollideRect(collide: Collider, rect: Rect): (r: bool)
      reads this
      ensures forall v :: r == Collides(collide, CarState(x, y, angle, v), rect)
    {
      Collides(collide, State(), rect)
    }

    function OutOfRect(collide: Collider, rect: Rect): (r: bool)
      reads this
      ensures r == !CollideRect(collide, rect)
    {
      !CollideRect(collide, rect)
    }
  }
}
