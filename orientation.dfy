/**
 * The orientation indicator over the camera preview: a small dot moves with
 * the device's roll and pitch around a fixed ring, and the ring turns green
 * when the device is held close enough to flat. A repeating timer reads the
 * attitude sixty times a second; each timer tick is the `Tick` event with
 * the attitude of that moment. Animations are not modelled.
 */
module Orientation {
  import opened Reals

  /** `Double.pi`, to the precision of a double. */
  const Pi: real := 3.141592653589793

  /** The scale from radians to points. */
  const PointsPerRadian: real := 50.0

  /** The largest horizontal and vertical offsets, in points, still shown as level. */
  const HorizontalTolerance: real := 8.0
  const VerticalTolerance: real := 6.0

  datatype Tint = Grey | Green

  /** simd `sign`: −1, 0 or 1. */
  function Sign(x: real): (s: real)
    ensures x > 0.0 ==> s == 1.0
    ensures x < 0.0 ==> s == -1.0
    ensures x == 0.0 ==> s == 0.0
  {
    if x > 0.0 then 1.0 else if x < 0.0 then -1.0 else 0.0
  }

  /** The sign recombines with the absolute value into the number. */
  lemma SignTimesAbs(x: real)
    ensures Sign(x) * Abs(x) == x
    ensures Sign(-x) == -Sign(x)
  {
  }

  /**
   * The horizontal offset of the dot for a roll: proportional to the roll up
   * to a quarter turn; past it the offset falls back towards the centre, as
   * if the device were being turned back.
   */
  function HorizontalOffset(roll: real): real {
    if Abs(roll) > Pi / 2.0 then (Pi - Abs(roll)) * PointsPerRadian * Sign(roll)
    else roll * PointsPerRadian
  }

  /** The vertical offset: proportional to the pitch. */
  function VerticalOffset(pitch: real): real {
    pitch * PointsPerRadian
  }

  /** Whether the ring shows the device as level. */
  predicate IsLevel(horizontal: real, vertical: real) {
    Abs(horizontal) <= HorizontalTolerance && Abs(vertical) <= VerticalTolerance
  }

  /** The tint the ring is asked to take for a pair of offsets. */
  function LevelTint(horizontal: real, vertical: real): (t: Tint)
    ensures t == Green <==> IsLevel(horizontal, vertical)
  {
    if IsLevel(horizontal, vertical) then Green else Grey
  }

  /**
   * For every roll Core Motion reports (−π to π) the dot stays within 25π
   * points sideways, has the roll's sign, and is mirrored by mirroring the
   * roll.
   */
  lemma HorizontalOffsetBounded(roll: real)
    requires -Pi <= roll <= Pi
    ensures Abs(HorizontalOffset(roll)) <= Pi / 2.0 * PointsPerRadian
    ensures roll > 0.0 ==> HorizontalOffset(roll) > 0.0 || roll == Pi
    ensures roll < 0.0 ==> HorizontalOffset(roll) < 0.0 || roll == -Pi
    ensures HorizontalOffset(-roll) == -HorizontalOffset(roll)
  {
    assert Abs(-roll) == Abs(roll);
  }

  /** Up to a quarter turn the offset is 50 points per radian; beyond, it is measured back from a half turn. */
  lemma HorizontalOffsetCases(roll: real)
    ensures Abs(roll) <= Pi / 2.0 ==> HorizontalOffset(roll) == PointsPerRadian * roll
    ensures roll > Pi / 2.0 ==> HorizontalOffset(roll) == PointsPerRadian * (Pi - roll)
    ensures roll < -Pi / 2.0 ==> HorizontalOffset(roll) == PointsPerRadian * (-Pi - roll)
  {
  }

  /** Level means a roll within 0.16 and a pitch within 0.12 radians of flat. */
  lemma LevelAngles(roll: real, pitch: real)
    requires Abs(roll) <= Pi / 2.0
    ensures IsLevel(HorizontalOffset(roll), VerticalOffset(pitch)) <==> Abs(roll) <= 0.16 && Abs(pitch) <= 0.12
  {
  }

  class OrientationIndicator {
    /** Whether the `timer` property holds a timer. */
    var hasTimer: bool
    /** Scheduled timers not yet invalidated. */
    var liveTimers: nat
    /** The constants of the dot's centre-X and centre-Y constraints. */
    var xConstant: real
    var yConstant: real
    /** The tint of the ring image view that is on screen. */
    var shownTint: Tint
    /** The tints the ticks have assigned, in order. */
    var requestedTints: seq<Tint>

    /** The property always holds one of the live timers. */
    predicate Valid()
      reads this
    {
      hasTimer ==> liveTimers >= 1
    }

    constructor ()
      ensures Valid() && !hasTimer && liveTimers == 0
      ensures xConstant == 0.0 && yConstant == 0.0 && shownTint == Grey && requestedTints == []
    {
      hasTimer := false;
      liveTimers := 0;
      xConstant := 0.0;
      yConstant := 0.0;
      shownTint := Grey;
      requestedTints := [];
    }

    /**
     * One timer tick. The horizontal offset goes into the Y constraint and the
     * vertical offset into the X constraint. The tint is assigned through
     * `referenceIndicatorImageView`, a computed property that makes a new
     * image view on every read, so the ring on screen keeps its tint.
     */
    method Tick(roll: real, pitch: real)
      requires Valid()
      modifies this
      ensures Valid()
      ensures yConstant == HorizontalOffset(roll) && xConstant == VerticalOffset(pitch)
      ensures requestedTints == old(requestedTints) + [LevelTint(yConstant, xConstant)]
      ensures shownTint == old(shownTint)
      ensures hasTimer == old(hasTimer) && liveTimers == old(liveTimers)
    {
      var horizontal := roll * PointsPerRadian;
      if Abs(roll) > Pi / 2.0 {
        horizontal := (Pi - Abs(roll)) * PointsPerRadian * Sign(roll);
      }
      var vertical := pitch * PointsPerRadian;
      yConstant := horizontal;
      xConstant := vertical;
      var freshReference := LevelTint(horizontal, vertical);
      requestedTints := requestedTints + [freshReference];
    }

    /** A tick as intended, with the ring held in a stored property: the ring on screen takes the tint. */
    method TickWithStoredReference(roll: real, pitch: real)
      requires Valid()
      modifies this
      ensures Valid()
      ensures yConstant == HorizontalOffset(roll) && xConstant == VerticalOffset(pitch)
      ensures requestedTints == old(requestedTints) + [LevelTint(yConstant, xConstant)]
      ensures shownTint == Green <==> IsLevel(HorizontalOffset(roll), VerticalOffset(pitch))
      ensures hasTimer == old(hasTimer) && liveTimers == old(liveTimers)
    {
      Tick(roll, pitch);
      shownTint := LevelTint(yConstant, xConstant);
    }

    /** `startRunning`: schedule a new repeating timer and fire it once at once. */
    method StartRunning(roll: real, pitch: real)
      requires Valid()
      modifies this
      ensures Valid() && hasTimer && liveTimers == old(liveTimers) + 1
      ensures yConstant == HorizontalOffset(roll) && xConstant == VerticalOffset(pitch)
      ensures requestedTints == old(requestedTints) + [LevelTint(yConstant, xConstant)]
      ensures shownTint == old(shownTint)
    {
      liveTimers := liveTimers + 1;
      hasTimer := true;
      Tick(roll, pitch);
    }

    /** `stopRunning`: invalidate the held timer, if any, and forget it. */
    method StopRunning()
      requires Valid()
      modifies this
      ensures Valid() && !hasTimer
      ensures liveTimers == old(liveTimers) - (if old(hasTimer) then 1 else 0)
      ensures xConstant == old(xConstant) && yConstant == old(yConstant)
      ensures shownTint == old(shownTint) && requestedTints == old(requestedTints)
    {
      if hasTimer {
        liveTimers := liveTimers - 1;
      }
      hasTimer := false;
    }
  }

  /** Stopping twice is stopping once. */
  method StopTwice(running: bool) returns (once: nat, twice: nat)
    ensures once == twice && once == 0
  {
    var a := new OrientationIndicator();
    var b := new OrientationIndicator();
    if running {
      a.StartRunning(0.0, 0.0);
      b.StartRunning(0.0, 0.0);
    }
    a.StopRunning();
    b.StopRunning();
    b.StopRunning();
    once, twice := a.liveTimers, b.liveTimers;
  }

  /** Starting twice and stopping once leaves the first timer running: only the held one is invalidated. */
  method StartTwiceStopOnce(roll: real, pitch: real) returns (live: nat)
    ensures live == 1
  {
    var indicator := new OrientationIndicator();
    indicator.StartRunning(roll, pitch);
    indicator.StartRunning(roll, pitch);
    indicator.StopRunning();
    live := indicator.liveTimers;
  }

  /** As written: however level the device is held, the ring on screen stays grey. */
  method LevelButStillGrey() returns (shown: Tint, requested: Tint)
    ensures shown == Grey && requested == Green
  {
    var indicator := new OrientationIndicator();
    indicator.StartRunning(0.0, 0.0);
    indicator.Tick(0.0, 0.0);
    shown, requested := indicator.shownTint, indicator.requestedTints[1];
  }

  /** With a stored ring, a level device turns it green and a tilted one back to grey. */
  method LevelTurnsGreen() returns (level: Tint, tilted: Tint)
    ensures level == Green && tilted == Grey
  {
    var indicator := new OrientationIndicator();
    indicator.StartRunning(0.0, 0.0);
    indicator.TickWithStoredReference(0.1, -0.1);
    level := indicator.shownTint;
    indicator.TickWithStoredReference(0.0, 0.5);
    tilted := indicator.shownTint;
  }
}
