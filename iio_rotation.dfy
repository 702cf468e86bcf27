/** The decision parts of the auto-rotation tool: classifying an accelerometer
    sample into a display orientation, validating a raw sample, and the thermal
    verdict that picks the polling cadence. */
module IioRotation {

  import opened Wrappers
  import opened CInt

  /** Polling interval when the CPU is cool enough (20 Hz). */
  const MAX_SAFE_FREQUENCY_MS := 50
  /** Whole degrees Celsius above which polling is slowed down. */
  const THERMAL_SAFETY_LIMIT := 45
  /** |x| beyond this is a landscape tilt. */
  const LANDSCAPE_THRESHOLD := 600
  /** |y| beyond this is a portrait tilt. */
  const PORTRAIT_THRESHOLD := 800
  /** Raw readings outside [-AXIS_BOUND, AXIS_BOUND] are discarded. */
  const AXIS_BOUND := 1225

  /** The display orientations; the declaration order is the compositor's
      transform number. */
  datatype Orientation = Normal | LeftUp | BottomUp | RightUp | Undefined

  /** The C enum value of an orientation: the transform index for the four
      defined ones, 4 for Undefined. */
  function Ordinal(o: Orientation): (n: nat)
    ensures n <= 4
    ensures n == 4 <==> o == Undefined
  {
    match o
    case Normal => 0
    case LeftUp => 1
    case BottomUp => 2
    case RightUp => 3
    case Undefined => 4
  }

  /** Distinct orientations are sent as distinct transform numbers. */
  lemma OrdinalInjective(a: Orientation, b: Orientation)
    ensures Ordinal(a) == Ordinal(b) ==> a == b
  {
  }

  /** First-match-wins classification: the x thresholds are tested before the
      y thresholds, so a strong x tilt wins whatever y says. */
  function Classify(x: int, y: int): (o: Orientation)
    ensures o == RightUp <==> x > LANDSCAPE_THRESHOLD
    ensures o == LeftUp <==> x < -LANDSCAPE_THRESHOLD
    ensures o == BottomUp <==>
      -LANDSCAPE_THRESHOLD <= x <= LANDSCAPE_THRESHOLD && y > PORTRAIT_THRESHOLD
    ensures o == Normal <==>
      -LANDSCAPE_THRESHOLD <= x <= LANDSCAPE_THRESHOLD && y < -PORTRAIT_THRESHOLD
    ensures o == Undefined <==>
      -LANDSCAPE_THRESHOLD <= x <= LANDSCAPE_THRESHOLD &&
      -PORTRAIT_THRESHOLD <= y <= PORTRAIT_THRESHOLD
  {
    if x > LANDSCAPE_THRESHOLD then RightUp
    else if x < -LANDSCAPE_THRESHOLD then LeftUp
    else if y > PORTRAIT_THRESHOLD then BottomUp
    else if y < -PORTRAIT_THRESHOLD then Normal
    else Undefined
  }

  /** What the three axis sources hold: `None` when the source cannot be opened. */
  datatype AxisSources = AxisSources(x: Option<int>, y: Option<int>, z: Option<int>)

  predicate AllOpen(src: AxisSources) {
    src.x.Some? && src.y.Some? && src.z.Some?
  }

  predicate InBounds(v: int) {
    -AXIS_BOUND <= v <= AXIS_BOUND
  }

  /** A read is accepted when all three sources open and x and y are in
      bounds; z is read but never range-checked. */
  predicate Accepted(src: AxisSources) {
    AllOpen(src) && InBounds(src.x.value) && InBounds(src.y.value)
  }

  /** The orientation of an accepted sample. */
  function Current(src: AxisSources): Orientation
    requires Accepted(src)
  {
    Classify(src.x.value, src.y.value)
  }

  /** Reads the three axes through out-parameters and reports whether the
      sample may be classified. When any source fails to open nothing is
      read (the out-parameters are then meaningless, here 0); otherwise all
      three values are delivered, even when the bounds check rejects them. */
  method ReadAccelerometer(src: AxisSources) returns (ok: bool, x: int, y: int, z: int)
    ensures ok <==> Accepted(src)
    ensures AllOpen(src) ==> x == src.x.value && y == src.y.value && z == src.z.value
  {
    if src.x.None? || src.y.None? || src.z.None? {
      return false, 0, 0, 0;
    }
    x, y, z := src.x.value, src.y.value, src.z.value;
    if x < -AXIS_BOUND || x > AXIS_BOUND || y < -AXIS_BOUND || y > AXIS_BOUND {
      ok := false;
      return;
    }
    ok := true;
  }

  /** The thermal verdict from the temperature source (millidegrees Celsius).
      It fails open: an unreadable source counts as safe. Because C truncates
      the division toward zero, the cut-off lies at 46000 millidegrees and
      every reading below zero is safe. */
  function ThermalSafe(milli: Option<int>): (safe: bool)
    ensures milli.None? ==> safe
    ensures milli.Some? ==> (safe <==> milli.value < 46000)
  {
    match milli
    case None => true
    case Some(m) => !(TruncDiv(m, 1000) > THERMAL_SAFETY_LIMIT)
  }
}
