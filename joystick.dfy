/** The virtual joystick: turns a touch offset from the widget's centre into a
    (direction, speed ratio, angle) sample and reports it to a listener.
    Floating-point values are modelled as reals; the results of sqrt and
    atan2 are inputs tied to their arguments by their defining relations. */
module Joystick {

  datatype Direction = NONE | UP | DOWN | LEFT | RIGHT | UP_LEFT | UP_RIGHT | DOWN_LEFT | DOWN_RIGHT

  /** What the listener receives: onDirectionChanged(direction, speedRatio, angle). */
  datatype Sample = Sample(direction: Direction, speedRatio: real, angle: real)

  /** An offset from the joystick centre; y grows downwards, as on screen. */
  datatype Offset = Offset(dx: real, dy: real)

  function Abs(x: real): real {
    if x < 0.0 then -x else x
  }

  function Norm2(o: Offset): real {
    o.dx * o.dx + o.dy * o.dy
  }

  /** c points the same way as o: collinear, and no component changes sign. */
  predicate SameDirection(c: Offset, o: Offset) {
    c.dx * o.dy == c.dy * o.dx && c.dx * o.dx >= 0.0 && c.dy * o.dy >= 0.0
  }

  // ---------------------------------------------------------------------
  // Sector classification

  /** The eight sectors in order of increasing angle, each 45 degrees wide,
      the first centred on 0. */
  const Octants: seq<Direction> := [UP, UP_LEFT, LEFT, DOWN_LEFT, DOWN, DOWN_RIGHT, RIGHT, UP_RIGHT]

  /** Index of the 45-degree sector holding the angle, sector 0 being
      [337.5, 360) together with [0, 22.5). */
  function OctantIndex(angle: real): (k: nat)
    requires 0.0 <= angle < 360.0
    ensures k < 8
  {
    ((angle + 22.5) / 45.0).Floor % 8
  }

  /** The if/else chain of calculateDirection over currentAngle. */
  function Sector(angle: real): (d: Direction)
    ensures d != NONE
  {
    if angle >= 337.5 || angle < 22.5 then UP
    else if angle >= 22.5 && angle < 67.5 then UP_LEFT
    else if angle >= 67.5 && angle < 112.5 then LEFT
    else if angle >= 112.5 && angle < 157.5 then DOWN_LEFT
    else if angle >= 157.5 && angle < 202.5 then DOWN
    else if angle >= 202.5 && angle < 247.5 then DOWN_RIGHT
    else if angle >= 247.5 && angle < 292.5 then RIGHT
    else UP_RIGHT
  }

  /** On [0, 360) the chain is exactly the partition into 45-degree sectors
      with lower bounds included and upper bounds excluded. */
  lemma SectorIsOctant(angle: real)
    requires 0.0 <= angle < 360.0
    ensures Sector(angle) == Octants[OctantIndex(angle)]
  {
    var x := (angle + 22.5) / 45.0;
    var k := x.Floor;
    assert k as real <= x < k as real + 1.0;
    assert 45.0 * (k as real) <= angle + 22.5 < 45.0 * (k as real) + 45.0;
    assert 0 <= k <= 8;
  }

  /** The sector boundaries: each lower bound belongs to the sector above it. */
  lemma SectorBoundaries()
    ensures Sector(0.0) == UP && Sector(22.5) == UP_LEFT && Sector(67.5) == LEFT
    ensures Sector(112.5) == DOWN_LEFT && Sector(157.5) == DOWN && Sector(202.5) == DOWN_RIGHT
    ensures Sector(247.5) == RIGHT && Sector(292.5) == UP_RIGHT && Sector(337.5) == UP
  {
  }

  // ---------------------------------------------------------------------
  // Diagonal override

  /** Position of a direction in Octants. */
  function OctantOf(d: Direction): (k: nat)
    requires d != NONE
    ensures k < 8 && Octants[k] == d
  {
    match d
    case UP => 0
    case UP_LEFT => 1
    case LEFT => 2
    case DOWN_LEFT => 3
    case DOWN => 4
    case DOWN_RIGHT => 5
    case RIGHT => 6
    case UP_RIGHT => 7
  }

  predicate IsDiagonal(d: Direction) {
    d == UP_LEFT || d == UP_RIGHT || d == DOWN_LEFT || d == DOWN_RIGHT
  }

  predicate IsForward(d: Direction) {
    d == UP || d == UP_LEFT || d == UP_RIGHT
  }

  predicate IsRightward(d: Direction) {
    d == RIGHT || d == UP_RIGHT || d == DOWN_RIGHT
  }

  /** a and b are neighbouring sectors. */
  predicate Adjacent(a: Direction, b: Direction) {
    a != NONE && b != NONE && (OctantOf(a) - OctantOf(b)) % 8 in {1, 7}
  }

  /** The diagonal threshold: both components must exceed 0.4 of the radius. */
  predicate BothBeyondThreshold(o: Offset, radius: real) {
    Abs(o.dx) > radius * 0.4 && Abs(o.dy) > radius * 0.4
  }

  /** The sensitivity adjustment of calculateDirection: far enough from both
      axes, UP and DOWN give way to the neighbouring diagonal on the side dx
      points to; every other sector is kept. */
  function DiagonalOverride(d: Direction, o: Offset, radius: real): (r: Direction)
    ensures r == d || (IsDiagonal(r) && Adjacent(d, r))
    ensures r != d <==> (d == UP || d == DOWN) && BothBeyondThreshold(o, radius)
    ensures r != d ==> (IsRightward(r) <==> o.dx > 0.0)
    ensures IsForward(r) == IsForward(d)
  {
    if BothBeyondThreshold(o, radius) then
      if d == UP then (if o.dx > 0.0 then UP_RIGHT else UP_LEFT)
      else if d == DOWN then (if o.dx > 0.0 then DOWN_RIGHT else DOWN_LEFT)
      else d
    else d
  }

  /** An upper bound of tan²(22.5°) = 3 − 2·sqrt(2) ≈ 0.171573. */
  const AxisConeSlope2: real := 0.1716

  /** The offset lies within 22.5 degrees of the vertical axis. */
  predicate InAxisCone(o: Offset) {
    o.dx * o.dx <= AxisConeSlope2 * (o.dy * o.dy)
  }

  /** What toDegrees(atan2(-dx, -dy)) guarantees about the offset when the
      angle falls in the UP or DOWN sector: the offset is within 22.5
      degrees of the vertical axis. The other sectors are not needed. */
  predicate AngleFits(o: Offset, angle: real) {
    (Sector(angle) == UP || Sector(angle) == DOWN) ==> InAxisCone(o)
  }

  /** Inside the circle and within 22.5 degrees of the vertical axis, the
      two components cannot both exceed 0.4 of the radius: that would need
      dx^2 + dy^2 > 1.09 R^2. */
  lemma OverrideNeverFires(o: Offset, radius: real)
    requires radius > 0.0 && Norm2(o) <= radius * radius && InAxisCone(o)
    ensures !BothBeyondThreshold(o, radius)
  {
    if BothBeyondThreshold(o, radius) {
      var x, y, t := Abs(o.dx), Abs(o.dy), radius * 0.4;
      SquareStrict(t, x);
      assert false;
    }
  }

  lemma SquareStrict(a: real, b: real)
    requires 0.0 <= a < b
    ensures a * a < b * b
  {
    var ab := a * b;
    assert a * a <= ab;
    assert b * b - ab == b * (b - a) > 0.0;
  }

  /** A positive rescaling keeps an offset in the cone. */
  lemma ScaledCone(o: Offset, k: real)
    requires k > 0.0 && InAxisCone(o)
    ensures InAxisCone(Offset(o.dx * k, o.dy * k))
  {
    var kk := k * k;
    assert (o.dx * k) * (o.dx * k) == kk * (o.dx * o.dx);
    assert (o.dy * k) * (o.dy * k) == kk * (o.dy * o.dy);
    assert kk * (o.dx * o.dx) <= kk * (AxisConeSlope2 * (o.dy * o.dy));
  }

  // ---------------------------------------------------------------------
  // Speed ratio, angle normalisation and clamping

  /** Math.min(distance / backgroundRadius, 1.0f). */
  function SpeedRatio(distance: real, radius: real): (r: real)
    requires radius > 0.0 && distance >= 0.0
    ensures 0.0 <= r <= 1.0
    ensures distance <= radius ==> r == distance / radius
    ensures distance > radius ==> r == 1.0
  {
    var q := distance / radius;
    if q <= 1.0 then q else 1.0
  }

  /** Truncation toward zero. */
  function Truncate(x: real): int {
    if x >= 0.0 then x.Floor else -((-x).Floor)
  }

  /** Java's % on doubles: the remainder takes the sign of the dividend. */
  function JavaRem(a: real, b: real): real
    requires b != 0.0
  {
    a - b * Truncate(a / b) as real
  }

  /** (degrees + 360) % 360, as calculateDirection normalises the atan2 angle. */
  function NormaliseAngle(degrees: real): real {
    JavaRem(degrees + 360.0, 360.0)
  }

  /** Any angle above -360 normalises into [0, 360), and one below 360 by
      adding 360 when it is negative and keeping it otherwise. */
  lemma NormaliseAngleRange(degrees: real)
    requires degrees > -360.0
    ensures 0.0 <= NormaliseAngle(degrees) < 360.0
    ensures degrees < 360.0 ==> NormaliseAngle(degrees) == if degrees < 0.0 then degrees + 360.0 else degrees
  {
    var a := degrees + 360.0;
    var q := a / 360.0;
    var t := q.Floor;
    assert t as real <= q < t as real + 1.0;
    assert 360.0 * (t as real) <= a < 360.0 * (t as real) + 360.0;
    assert Truncate(q) == t;
  }

  /** The clamp of onTouchEvent: an offset longer than the radius is scaled
      down by backgroundRadius / distance. */
  function Clamp(o: Offset, distance: real, radius: real): Offset
    requires radius > 0.0 && distance >= 0.0
  {
    if distance > radius then Offset(o.dx * (radius / distance), o.dy * (radius / distance)) else o
  }

  /** Math.min(distance, backgroundRadius): the length of the clamped offset. */
  function ClampedDistance(distance: real, radius: real): real {
    if distance > radius then radius else distance
  }

  /** When distance is the length of o, ClampedDistance is the length of
      Clamp(o): the value calculateDirection recomputes with sqrt. */
  lemma ClampedLength(o: Offset, distance: real, radius: real)
    requires radius > 0.0 && distance >= 0.0 && distance * distance == Norm2(o)
    ensures var d := ClampedDistance(distance, radius);
            d * d == Norm2(Clamp(o, distance, radius))
  {
    if distance > radius {
      var ratio := radius / distance;
      ScaledOffset(o, ratio);
      assert ratio * distance == radius;
      assert ratio * ratio * (distance * distance) == radius * radius;
    }
  }

  /** The clamped handle never leaves the background circle, reaches its
      rim when the touch is outside it, and points the way the touch does;
      inside the circle the touch is kept as it is. */
  lemma ClampSpec(o: Offset, distance: real, radius: real)
    requires radius > 0.0 && distance >= 0.0 && distance * distance == Norm2(o)
    ensures Norm2(Clamp(o, distance, radius)) <= radius * radius
    ensures distance > radius ==> Norm2(Clamp(o, distance, radius)) == radius * radius
    ensures distance <= radius ==> Clamp(o, distance, radius) == o
    ensures SameDirection(Clamp(o, distance, radius), o)
  {
    ClampedLength(o, distance, radius);
    if distance > radius {
      ScaledOffset(o, radius / distance);
    } else {
      SquareMonotone(distance, radius);
      SquaresNonNegative(o);
    }
  }

  lemma SquareMonotone(a: real, b: real)
    requires 0.0 <= a <= b
    ensures a * a <= b * b
  {
    assert a * a <= a * b <= b * b;
  }

  lemma SquaresNonNegative(o: Offset)
    ensures o.dx * o.dx >= 0.0 && o.dy * o.dy >= 0.0
  {
  }

  /** Scaling an offset by a positive factor keeps its direction and scales
      its squared length by the square of the factor. */
  lemma ScaledOffset(o: Offset, k: real)
    requires k > 0.0
    ensures Norm2(Offset(o.dx * k, o.dy * k)) == k * k * Norm2(o)
    ensures SameDirection(Offset(o.dx * k, o.dy * k), o)
  {
    SquaresNonNegative(o);
    assert (o.dx * k) * o.dx == k * (o.dx * o.dx);
    assert (o.dy * k) * o.dy == k * (o.dy * o.dy);
  }

  /** The direction calculateDirection settles on for a clamped offset and
      its normalised angle. */
  function Classify(o: Offset, angle: real, radius: real): (d: Direction)
    ensures d != NONE
  {
    DiagonalOverride(Sector(angle), o, radius)
  }

  /** For every touch the diagonal override is skipped: the direction
      calculateDirection settles on for the clamped offset is the plain
      45-degree sector of the angle. */
  lemma TouchDirectionIsSector(o: Offset, distance: real, radius: real, angle: real)
    requires radius > 0.0 && distance >= 0.0 && distance * distance == Norm2(o)
    requires AngleFits(o, angle)
    ensures Classify(Clamp(o, distance, radius), angle, radius) == Sector(angle)
  {
    var c := Clamp(o, distance, radius);
    if Sector(angle) == UP || Sector(angle) == DOWN {
      ClampSpec(o, distance, radius);
      if distance > radius {
        ScaledCone(o, radius / distance);
      }
      OverrideNeverFires(c, radius);
    }
  }

  /** The direction the diagonal override evidently intends: the same
      test, made on the touch offset before it is clamped, so that a touch
      far from both axes reports the diagonal it leans towards. */
  function ClassifyIntended(touch: Offset, angle: real, radius: real): (d: Direction)
    ensures d != NONE
    ensures d == Sector(angle) || (IsDiagonal(d) && Adjacent(Sector(angle), d))
    ensures IsForward(d) == IsForward(Sector(angle))
  {
    DiagonalOverride(Sector(angle), touch, radius)
  }

  /** Inside the circle the clamp changes nothing, so the correction only
      differs from the code for touches beyond the rim. */
  lemma IntendedAgreesInside(touch: Offset, distance: real, radius: real, angle: real)
    requires radius > 0.0 && 0.0 <= distance <= radius
    ensures ClassifyIntended(touch, angle, radius) == Classify(Clamp(touch, distance, radius), angle, radius)
  {
  }

  /** A touch beyond the rim and about 11.4 degrees right of straight up:
      as written the direction is UP, while the intended override reports
      UP_RIGHT. */
  lemma IntendedOverrideFires()
    ensures var touch, radius, angle := Offset(20.0, -99.0), 45.0, 348.58;
            AngleFits(touch, angle) && Norm2(touch) == 101.0 * 101.0
            && Classify(Clamp(touch, 101.0, radius), angle, radius) == UP
            && ClassifyIntended(touch, angle, radius) == UP_RIGHT
  {
    TouchDirectionIsSector(Offset(20.0, -99.0), 101.0, 45.0, 348.58);
  }

  // ---------------------------------------------------------------------
  // The widget's state

  class JoystickView {
    var centerX: real
    var centerY: real
    var backgroundRadius: real
    var handleX: real
    var handleY: real
    var currentDirection: Direction
    var currentSpeedRatio: real
    var currentAngle: real
    /** Whether a listener has been set (listener != null). */
    var hasListener: bool
    /** Every onDirectionChanged call made so far, in order. */
    var notified: seq<Sample>

    ghost predicate Valid()
      reads this
    {
      backgroundRadius > 0.0
      && 0.0 <= currentSpeedRatio <= 1.0
      && 0.0 <= currentAngle < 360.0
    }

    function HandleOffset(): Offset
      reads this
    {
      Offset(handleX - centerX, handleY - centerY)
    }

    /** A new view as laid out by onSizeChanged(w, h): centred, radius a
        third of the shorter side, handle at the centre, no listener yet. */
    constructor (w: real, h: real)
      requires w > 0.0 && h > 0.0
      ensures Valid()
      ensures centerX == w / 2.0 && centerY == h / 2.0
      ensures backgroundRadius == (if w <= h then w else h) / 3.0
      ensures handleX == centerX && handleY == centerY
      ensures currentDirection == NONE && currentSpeedRatio == 0.0 && currentAngle == 0.0
      ensures !hasListener && notified == []
    {
      centerX, centerY := w / 2.0, h / 2.0;
      handleX, handleY := w / 2.0, h / 2.0;
      backgroundRadius := (if w <= h then w else h) / 3.0;
      currentDirection, currentSpeedRatio, currentAngle := NONE, 0.0, 0.0;
      hasListener, notified := false, [];
    }

    method SetOnDirectionChangeListener(present: bool)
      modifies this
      ensures hasListener == present
      ensures centerX == old(centerX) && centerY == old(centerY) && backgroundRadius == old(backgroundRadius)
      ensures handleX == old(handleX) && handleY == old(handleY)
      ensures currentDirection == old(currentDirection) && currentSpeedRatio == old(currentSpeedRatio)
      ensures currentAngle == old(currentAngle) && notified == old(notified)
    {
      hasListener := present;
    }

    /** ACTION_DOWN / ACTION_MOVE. `distance` is sqrt(dx^2 + dy^2) of the
        touch offset and `degrees` is toDegrees(atan2(-dx, -dy)), which a
        positive rescaling does not change, so it is also the angle of the
        clamped offset. */
    method OnTouchDownOrMove(touchX: real, touchY: real, distance: real, degrees: real)
      requires Valid()
      requires distance >= 0.0
      requires distance * distance == Norm2(Offset(touchX - centerX, touchY - centerY))
      requires -180.0 <= degrees <= 180.0
      requires AngleFits(Offset(touchX - centerX, touchY - centerY), NormaliseAngle(degrees))
      modifies this
      ensures Valid()
      ensures centerX == old(centerX) && centerY == old(centerY)
      ensures backgroundRadius == old(backgroundRadius) && hasListener == old(hasListener)
      ensures var c := Clamp(Offset(touchX - centerX, touchY - centerY), distance, backgroundRadius);
              HandleOffset() == c
              && currentSpeedRatio == SpeedRatio(ClampedDistance(distance, backgroundRadius), backgroundRadius)
              && currentAngle == NormaliseAngle(degrees)
              && currentDirection == Classify(c, currentAngle, backgroundRadius)
      ensures currentDirection == Sector(currentAngle) && currentDirection != NONE
      ensures var s := Sample(currentDirection, currentSpeedRatio, currentAngle);
              notified == old(notified) + if hasListener then [s, s] else []
    {
      var delta := Offset(touchX - centerX, touchY - centerY);
      var c := Clamp(delta, distance, backgroundRadius);
      handleX := centerX + c.dx;
      handleY := centerY + c.dy;
      assert HandleOffset() == c;
      var clampedDistance := ClampedDistance(distance, backgroundRadius);
      ClampedLength(delta, distance, backgroundRadius);
      TouchDirectionIsSector(delta, distance, backgroundRadius, NormaliseAngle(degrees));
      CalculateDirection(c, clampedDistance, degrees);
      NotifyCurrent();
    }

    /** if (listener != null) listener.onDirectionChanged(currentDirection,
        currentSpeedRatio, currentAngle): one more sample, nothing else. */
    method NotifyCurrent()
      modifies this`notified
      ensures notified == old(notified)
                + if hasListener then [Sample(currentDirection, currentSpeedRatio, currentAngle)] else []
    {
      if hasListener {
        notified := notified + [Sample(currentDirection, currentSpeedRatio, currentAngle)];
      }
    }

    /** calculateDirection: speed ratio, normalised angle and classified
        direction of an already clamped offset. */
    method CalculateDirection(o: Offset, distance: real, degrees: real)
      requires Valid()
      requires distance >= 0.0 && distance * distance == Norm2(o)
      requires -180.0 <= degrees <= 180.0
      modifies this
      ensures Valid()
      ensures centerX == old(centerX) && centerY == old(centerY) && backgroundRadius == old(backgroundRadius)
      ensures handleX == old(handleX) && handleY == old(handleY) && hasListener == old(hasListener)
      ensures currentSpeedRatio == SpeedRatio(distance, backgroundRadius)
      ensures currentAngle == NormaliseAngle(degrees)
      ensures currentDirection == Classify(o, currentAngle, backgroundRadius)
      ensures notified == old(notified) + if hasListener then [Sample(currentDirection, currentSpeedRatio, currentAngle)] else []
    {
      currentSpeedRatio := SpeedRatio(distance, backgroundRadius);
      NormaliseAngleRange(degrees);
      currentAngle := NormaliseAngle(degrees);
      var newDirection := Sector(currentAngle);
      newDirection := DiagonalOverride(newDirection, o, backgroundRadius);
      TriggerDirectionChange(newDirection, currentAngle);
    }

    /** triggerDirectionChange: store the direction, then notify. */
    method TriggerDirectionChange(newDirection: Direction, angle: real)
      modifies this
      ensures currentDirection == newDirection
      ensures centerX == old(centerX) && centerY == old(centerY) && backgroundRadius == old(backgroundRadius)
      ensures handleX == old(handleX) && handleY == old(handleY) && hasListener == old(hasListener)
      ensures currentSpeedRatio == old(currentSpeedRatio) && currentAngle == old(currentAngle)
      ensures notified == old(notified) + if hasListener then [Sample(newDirection, currentSpeedRatio, angle)] else []
    {
      currentDirection := newDirection;
      if hasListener {
        notified := notified + [Sample(currentDirection, currentSpeedRatio, angle)];
      }
    }

    /** ACTION_UP: back to the centre at rest, and one (NONE, 0, 0) sample. */
    method OnTouchUp()
      requires Valid()
      modifies this
      ensures Valid()
      ensures centerX == old(centerX) && centerY == old(centerY)
      ensures backgroundRadius == old(backgroundRadius) && hasListener == old(hasListener)
      ensures handleX == centerX && handleY == centerY
      ensures currentDirection == NONE && currentSpeedRatio == 0.0 && currentAngle == 0.0
      ensures notified == old(notified) + if hasListener then [Sample(NONE, 0.0, 0.0)] else []
    {
      handleX := centerX;
      handleY := centerY;
      currentDirection := NONE;
      currentSpeedRatio := 0.0;
      currentAngle := 0.0;
      if hasListener {
        notified := notified + [Sample(NONE, 0.0, currentAngle)];
      }
    }

    method GetCurrentSpeedRatio() returns (r: real)
      requires Valid()
      ensures r == currentSpeedRatio && 0.0 <= r <= 1.0
    {
      r := currentSpeedRatio;
    }

    method GetCurrentAngle() returns (a: real)
      requires Valid()
      ensures a == currentAngle && 0.0 <= a < 360.0
    {
      a := currentAngle;
    }

    method GetCurrentDirection() returns (d: Direction)
      ensures d == currentDirection
    {
      d := currentDirection;
    }
  }
}
