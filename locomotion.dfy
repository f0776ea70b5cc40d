/**
 * The crouch / stand-up / coyote-jump controller of the player character.
 *
 * Floats become exact `real`s: each formula is the engine lerp, clamp or
 * normalisation written out. The timeline that drives `CrouchAlpha` and the
 * timers that poll the stand-up probe and hold the coyote window are the
 * `Timing` abstractions; the sphere sweep, the falling test and the velocity
 * are parameters of the methods that read them.
 */
module Locomotion {
  import opened Timing

  /** `FMath::Lerp`. */
  function Lerp(a: real, b: real, t: real): real
  {
    a + t * (b - a)
  }

  /** `FMath::Clamp`. */
  function Clamp(v: real, lo: real, hi: real): (r: real)
    requires lo <= hi
    ensures lo <= r <= hi
    ensures lo <= v <= hi ==> r == v
  {
    if v < lo then lo else if v > hi then hi else v
  }

  /**
   * `UKismetMathLibrary::NormalizeToRange`: where `value` sits between the
   * two bounds, 0 at the first and 1 at the second. An empty range answers 0
   * below it and 1 otherwise; reversed bounds are swapped first.
   */
  function NormalizeToRange(value: real, rangeMin: real, rangeMax: real): (r: real)
    ensures rangeMin < rangeMax && value == rangeMin ==> r == 0.0
    ensures rangeMin < rangeMax && value == rangeMax ==> r == 1.0
    ensures rangeMin == rangeMax ==> (r == 0.0 <==> value < rangeMin) && (r == 1.0 <==> value >= rangeMin)
  {
    if rangeMin == rangeMax then (if value < rangeMin then 0.0 else 1.0)
    else if rangeMin > rangeMax then (value - rangeMax) / (rangeMin - rangeMax)
    else
      var span := rangeMax - rangeMin;
      DivideBySelf(span);
      assert value == rangeMax ==> value - rangeMin == span;
      (value - rangeMin) / span
  }

  /** A fraction between 0 and 1 of a non-negative amount lies between 0 and that amount. */
  lemma FractionBounds(k: real, alpha: real)
    ensures k >= 0.0 && 0.0 <= alpha ==> alpha * k >= 0.0
    ensures k >= 0.0 && alpha <= 1.0 ==> alpha * k <= k
  {
    if k >= 0.0 && alpha <= 1.0 {
      assert k - alpha * k == (1.0 - alpha) * k;
    }
  }

  /**
   * The ground speed cap at crouch blend `alpha` (`CrouchTLCallback`): the base
   * speed when standing, half of it fully crouched, and in between for a blend
   * between 0 and 1.
   */
  function CrouchWalkSpeed(baseWalkSpeed: real, alpha: real): (speed: real)
    ensures alpha == 0.0 ==> speed == baseWalkSpeed
    ensures alpha == 1.0 ==> speed == baseWalkSpeed * 0.5
    ensures baseWalkSpeed >= 0.0 && 0.0 <= alpha <= 1.0 ==>
              baseWalkSpeed * 0.5 <= speed <= baseWalkSpeed
  {
    var half := baseWalkSpeed * 0.5;
    LerpEndpoints(baseWalkSpeed, half, alpha);
    assert baseWalkSpeed >= 0.0 ==> half <= baseWalkSpeed;
    Lerp(baseWalkSpeed, half, alpha)
  }

  /**
   * The capsule half-height at crouch blend `alpha`: the standing height when
   * standing, the crouch height fully crouched, and between the two for a
   * blend between 0 and 1.
   */
  function CrouchCapsuleHalfHeight(standHeight: real, crouchHeight: real, alpha: real): (h: real)
    ensures alpha == 0.0 ==> h == standHeight
    ensures alpha == 1.0 ==> h == crouchHeight
    ensures crouchHeight <= standHeight && 0.0 <= alpha <= 1.0 ==> crouchHeight <= h <= standHeight
  {
    LerpEndpoints(standHeight, crouchHeight, alpha);
    Lerp(standHeight, crouchHeight, alpha)
  }

  /** A lerp starts at its first end, reaches its second, and between them stays between them. */
  lemma LerpEndpoints(a: real, b: real, t: real)
    ensures t == 0.0 ==> Lerp(a, b, t) == a
    ensures t == 1.0 ==> Lerp(a, b, t) == b
    ensures b <= a && 0.0 <= t <= 1.0 ==> b <= Lerp(a, b, t) <= a
  {
    var k := a - b;
    assert Lerp(a, b, t) == a - t * k;
    FractionBounds(k, t);
  }

  /** Towards a lower end, a lerp falls as its parameter grows. */
  lemma LerpFalls(a: real, b: real, t1: real, t2: real)
    requires b <= a && t1 <= t2
    ensures Lerp(a, b, t2) <= Lerp(a, b, t1)
  {
    var k := a - b;
    ScaleKeepsOrder(t1, t2, k);
    assert Lerp(a, b, t1) == a - k * t1;
    assert Lerp(a, b, t2) == a - k * t2;
  }

  /** A positive amount divided by itself is 1. */
  lemma DivideBySelf(d: real)
    requires d > 0.0
    ensures d / d == 1.0
  {
  }

  /** Dividing both sides by a positive amount keeps their order. */
  lemma DivideKeepsOrder(a: real, b: real, d: real)
    requires a <= b && d > 0.0
    ensures a / d <= b / d
  {
    assert b / d - a / d == (b - a) / d;
    assert (b - a) / d * d == b - a;
  }

  /** Multiplying both sides by a non-negative amount keeps their order. */
  lemma ScaleKeepsOrder(a: real, b: real, k: real)
    requires a <= b && k >= 0.0
    ensures k * a <= k * b
  {
    assert k * b - k * a == k * (b - a);
  }

  /**
   * Growing the blend never raises the speed cap or the capsule: both move
   * monotonically from their standing value to their crouched one.
   */
  lemma {:induction false} CrouchBlendMonotone(baseWalkSpeed: real, standHeight: real, crouchHeight: real,
                                               a1: real, a2: real)
    requires baseWalkSpeed >= 0.0 && crouchHeight <= standHeight && a1 <= a2
    ensures CrouchWalkSpeed(baseWalkSpeed, a2) <= CrouchWalkSpeed(baseWalkSpeed, a1)
    ensures CrouchCapsuleHalfHeight(standHeight, crouchHeight, a2)
            <= CrouchCapsuleHalfHeight(standHeight, crouchHeight, a1)
  {
    LerpFalls(baseWalkSpeed, baseWalkSpeed * 0.5, a1, a2);
    LerpFalls(standHeight, crouchHeight, a1, a2);
  }

  /** The normalised position grows with the value, whatever the bounds. */
  lemma {:induction false} NormalizeToRangeMonotone(v1: real, v2: real, rangeMin: real, rangeMax: real)
    requires v1 <= v2
    ensures NormalizeToRange(v1, rangeMin, rangeMax) <= NormalizeToRange(v2, rangeMin, rangeMax)
  {
    if rangeMin > rangeMax {
      DivideKeepsOrder(v1 - rangeMax, v2 - rangeMax, rangeMin - rangeMax);
    } else if rangeMin < rangeMax {
      DivideKeepsOrder(v1 - rangeMin, v2 - rangeMin, rangeMax - rangeMin);
    }
  }

  /** A ratio against a positive bound is at least 1 at or past it and at most 0 at or below 0. */
  lemma RatioBounds(a: real, d: real)
    ensures d > 0.0 && a >= d ==> a / d >= 1.0
    ensures d > 0.0 && a <= 0.0 ==> a / d <= 0.0
  {
    if d > 0.0 && a >= d {
      DivideKeepsOrder(d, a, d);
    }
    if d > 0.0 && a <= 0.0 {
      DivideKeepsOrder(a, 0.0, d);
    }
  }

  /** A non-negative amount scaled by a factor in [CoyoteMinFraction, 1] stays between those multiples of it. */
  lemma ScaledFactorBounds(k: real, factor: real)
    ensures k >= 0.0 && CoyoteMinFraction <= factor <= 1.0 ==> CoyoteMinFraction * k <= k * factor <= k
  {
    if k >= 0.0 && CoyoteMinFraction <= factor <= 1.0 {
      ScaleKeepsOrder(CoyoteMinFraction, factor, k);
      ScaleKeepsOrder(factor, 1.0, k);
    }
  }

  /** The shortest window is a quarter of the configured coyote time. */
  const CoyoteMinFraction: real := 0.25

  /**
   * The coyote window opened on entering Falling at `speed`: the configured
   * time scaled by a factor from a quarter (standing still) to one (at or
   * above the base walk speed).
   */
  function CoyoteDuration(coyoteTime: real, speed: real, baseWalkSpeed: real): (d: real)
    ensures coyoteTime >= 0.0 ==> CoyoteMinFraction * coyoteTime <= d <= coyoteTime
    ensures baseWalkSpeed > 0.0 && speed >= baseWalkSpeed ==> d == coyoteTime
    ensures baseWalkSpeed > 0.0 && speed <= 0.0 ==> d == CoyoteMinFraction * coyoteTime
  {
    var alpha := Clamp(NormalizeToRange(speed, 0.0, baseWalkSpeed), 0.0, 1.0);
    var factor := Lerp(CoyoteMinFraction, 1.0, alpha);
    RatioBounds(speed, baseWalkSpeed);
    ScaledFactorBounds(coyoteTime, factor);
    coyoteTime * factor
  }

  /** A faster fall never gets a shorter coyote window. */
  lemma {:induction false} CoyoteDurationMonotone(coyoteTime: real, s1: real, s2: real, baseWalkSpeed: real)
    requires coyoteTime >= 0.0 && s1 <= s2
    ensures CoyoteDuration(coyoteTime, s1, baseWalkSpeed) <= CoyoteDuration(coyoteTime, s2, baseWalkSpeed)
  {
    var n1 := NormalizeToRange(s1, 0.0, baseWalkSpeed);
    var n2 := NormalizeToRange(s2, 0.0, baseWalkSpeed);
    NormalizeToRangeMonotone(s1, s2, 0.0, baseWalkSpeed);
    var a1 := Clamp(n1, 0.0, 1.0);
    var a2 := Clamp(n2, 0.0, 1.0);
    assert a1 <= a2;
    ScaleKeepsOrder(Lerp(CoyoteMinFraction, 1.0, a1), Lerp(CoyoteMinFraction, 1.0, a2), coyoteTime);
  }

  /**
   * `CanJumpInternal`: a jump is allowed while the coyote window is open or
   * the base character rule allows it, and never while a stand-up probe is
   * pending (an obstacle may be overhead).
   */
  predicate JumpAllowed(coyoteOpen: bool, baseCanJump: bool, probePending: bool)
  {
    (coyoteOpen || baseCanJump) && !probePending
  }

  /** The coyote timer as the character arms it on entering Falling: looping. */
  function CoyoteTimerAsWritten(coyoteTime: real, speed: real, baseWalkSpeed: real): Timer
  {
    SetTimer(CoyoteDuration(coyoteTime, speed, baseWalkSpeed), true)
  }

  /** The coyote timer the grace window calls for: one-shot. */
  function CoyoteTimerIntended(coyoteTime: real, speed: real, baseWalkSpeed: real): Timer
  {
    SetTimer(CoyoteDuration(coyoteTime, speed, baseWalkSpeed), false)
  }

  /**
   * As written, the window never closes during a fall: the looping timer
   * re-arms on every expiry and its callback does nothing, so however many
   * periods pass, a jump is still allowed when no probe is pending, even
   * where the base rule forbids it.
   */
  lemma {:induction false} CoyoteWindowNeverCloses(coyoteTime: real, speed: real, baseWalkSpeed: real, k: nat)
    requires coyoteTime > 0.0
    ensures IsActive(FiredTimes(CoyoteTimerAsWritten(coyoteTime, speed, baseWalkSpeed), k))
    ensures JumpAllowed(IsActive(FiredTimes(CoyoteTimerAsWritten(coyoteTime, speed, baseWalkSpeed), k)),
                        false, false)
  {
    var t := CoyoteTimerAsWritten(coyoteTime, speed, baseWalkSpeed);
    assert CoyoteDuration(coyoteTime, speed, baseWalkSpeed) > 0.0;
    LoopingTimerStaysArmed(t, k);
  }

  /**
   * With a one-shot timer the window is open until its first expiry and
   * closed from then on, leaving the jump to the base rule.
   */
  lemma {:induction false} CoyoteWindowClosesOnExpiry(coyoteTime: real, speed: real, baseWalkSpeed: real,
                                                       k: nat, baseCanJump: bool)
    requires coyoteTime > 0.0
    ensures IsActive(CoyoteTimerIntended(coyoteTime, speed, baseWalkSpeed))
    ensures k >= 1 ==>
              var t := FiredTimes(CoyoteTimerIntended(coyoteTime, speed, baseWalkSpeed), k);
              !IsActive(t) && (JumpAllowed(IsActive(t), baseCanJump, false) <==> baseCanJump)
  {
    var t := CoyoteTimerIntended(coyoteTime, speed, baseWalkSpeed);
    assert CoyoteDuration(coyoteTime, speed, baseWalkSpeed) > 0.0;
    if k >= 1 {
      OneShotTimerIsSpent(t, k);
    }
  }

  /** `EMovementMode`. */
  datatype MovementMode = MoveNone | Walking | NavWalking | Falling | Swimming | Flying | Custom

  /** Poll rate of the stand-up probe (30 Hz). */
  const StandUpProbeRate: real := 1.0 / 30.0

  class OctahedronCharacter {
    const BaseWalkSpeed: real
    const StandHeight: real
    const CrouchHeight: real
    const CoyoteTime: real

    var CrouchAlpha: real
    /** `GetCharacterMovement()->MaxWalkSpeed`: the movement component's own setting until the crouch blend first writes it. */
    var MaxWalkSpeed: real
    /** `GetCapsuleComponent()->GetUnscaledCapsuleHalfHeight()`. */
    var CapsuleHalfHeight: real
    /** Playback of `CrouchTL`, whose updates call `CrouchTLCallback`. */
    var CrouchTL: Playback
    var UnCrouchTimer: Timer
    var CoyoteTimer: Timer

    /** The controller's fixed geometry: standing above crouched, a positive coyote time. */
    predicate Valid()
      reads this
    {
      CrouchHeight <= StandHeight && CoyoteTime > 0.0
    }

    constructor (baseWalkSpeed: real, initialMaxWalkSpeed: real)
      ensures Valid()
      ensures BaseWalkSpeed == baseWalkSpeed && StandHeight == 96.0 && CrouchHeight == 55.0
      ensures CoyoteTime == 0.35
      ensures CrouchAlpha == 0.0 && MaxWalkSpeed == initialMaxWalkSpeed && CapsuleHalfHeight == StandHeight
      ensures CrouchTL == Idle && UnCrouchTimer == Cleared && CoyoteTimer == Cleared
    {
      BaseWalkSpeed := baseWalkSpeed;
      StandHeight := 96.0;
      CrouchHeight := 55.0;
      CoyoteTime := 0.35;
      CrouchAlpha := 0.0;
      MaxWalkSpeed := initialMaxWalkSpeed;
      CapsuleHalfHeight := 96.0;
      CrouchTL := Idle;
      UnCrouchTimer := Cleared;
      CoyoteTimer := Cleared;
    }

    /** The crouch timeline's update: speed cap and capsule follow the blend. */
    method CrouchTLCallback(val: real)
      requires Valid()
      modifies this`CrouchAlpha, this`MaxWalkSpeed, this`CapsuleHalfHeight
      ensures CrouchAlpha == val
      ensures MaxWalkSpeed == CrouchWalkSpeed(BaseWalkSpeed, val)
      ensures CapsuleHalfHeight == CrouchCapsuleHalfHeight(StandHeight, CrouchHeight, val)
      ensures BaseWalkSpeed >= 0.0 && 0.0 <= val <= 1.0 ==>
                BaseWalkSpeed * 0.5 <= MaxWalkSpeed <= BaseWalkSpeed
                && CrouchHeight <= CapsuleHalfHeight <= StandHeight
    {
      CrouchAlpha := val;
      var newWalkSpeed := Lerp(BaseWalkSpeed, BaseWalkSpeed * 0.5, CrouchAlpha);
      MaxWalkSpeed := newWalkSpeed;
      var newCapsuleHalfHeight := Lerp(StandHeight, CrouchHeight, CrouchAlpha);
      CapsuleHalfHeight := newCapsuleHalfHeight;
    }

    /** Crouch pressed: any pending stand-up probe is cancelled and the crouch blend plays forward. */
    method CustomCrouch()
      modifies this`UnCrouchTimer, this`CrouchTL
      ensures !IsActive(UnCrouchTimer)
      ensures CrouchTL == Forward
    {
      UnCrouchTimer := Cleared;
      CrouchTL := Forward;
    }

    /**
     * Crouch released: the single probe handle is (re)armed at 30 Hz, looping.
     * The new state does not depend on the old one, so repeated releases leave
     * exactly one probe scheduled.
     */
    method ReleaseCrouch()
      modifies this`UnCrouchTimer
      ensures UnCrouchTimer == Armed(StandUpProbeRate, true)
    {
      UnCrouchTimer := SetTimer(StandUpProbeRate, true);
    }

    /** The crouch blend plays in reverse. */
    method StandUp()
      modifies this`CrouchTL
      ensures CrouchTL == Backward
    {
      CrouchTL := Backward;
    }

    /**
     * One stand-up probe: `isStuck` is the overhead sweep's result and
     * `isFalling` the movement component's. The character stands and the probe
     * stops exactly when it is clear overhead or airborne; otherwise nothing
     * changes and the probe keeps polling.
     */
    method OnCheckCanStand(isStuck: bool, isFalling: bool)
      modifies this`CrouchTL, this`UnCrouchTimer
      ensures !isStuck || isFalling ==> CrouchTL == Backward && UnCrouchTimer == Cleared
      ensures isStuck && !isFalling ==> CrouchTL == old(CrouchTL) && UnCrouchTimer == old(UnCrouchTimer)
    {
      if !isStuck || isFalling {
        StandUp();
        UnCrouchTimer := Cleared;
      }
    }

    /**
     * The probe timer's expiry: the looping handle stays armed, then the probe
     * runs. Polling stops only through the probe's own clear.
     */
    method UnCrouchTimerFires(isStuck: bool, isFalling: bool)
      requires UnCrouchTimer.Armed? && UnCrouchTimer.looping
      modifies this`CrouchTL, this`UnCrouchTimer
      ensures IsActive(UnCrouchTimer) <==> isStuck && !isFalling
      ensures !isStuck || isFalling ==> CrouchTL == Backward && UnCrouchTimer == Cleared
      ensures isStuck && !isFalling ==> CrouchTL == old(CrouchTL) && UnCrouchTimer == old(UnCrouchTimer)
    {
      UnCrouchTimer := AfterFiring(UnCrouchTimer);
      OnCheckCanStand(isStuck, isFalling);
    }

    /**
     * Movement mode changed to `mode` at `speed` (the velocity's length):
     * entering Falling arms the coyote timer for a duration between a quarter
     * of the coyote time and all of it; any other mode leaves it alone.
     */
    method OnMovementModeChanged(mode: MovementMode, speed: real)
      requires Valid()
      modifies this`CoyoteTimer
      ensures mode == Falling ==> CoyoteTimer == CoyoteTimerAsWritten(CoyoteTime, speed, BaseWalkSpeed)
      ensures mode == Falling ==>
                CoyoteTimer.Armed? && CoyoteTimer.looping
                && CoyoteMinFraction * CoyoteTime <= CoyoteTimer.rate <= CoyoteTime
      ensures mode != Falling ==> CoyoteTimer == old(CoyoteTimer)
    {
      if mode == Falling {
        var normalizedSpeed := NormalizeToRange(speed, 0.0, BaseWalkSpeed);
        var alpha := Clamp(normalizedSpeed, 0.0, 1.0);
        var lerpedValue := Lerp(CoyoteMinFraction, 1.0, alpha);
        var time := CoyoteTime * lerpedValue;
        assert time == CoyoteDuration(CoyoteTime, speed, BaseWalkSpeed);
        CoyoteTimer := SetTimer(time, true);
      }
    }

    /** Landing closes the coyote window. */
    method Landed()
      modifies this`CoyoteTimer
      ensures CoyoteTimer == Cleared
    {
      CoyoteTimer := Cleared;
    }

    /** Jumping closes the coyote window. */
    method OnJumped()
      modifies this`CoyoteTimer
      ensures CoyoteTimer == Cleared
    {
      CoyoteTimer := Cleared;
    }

    /** The coyote timer's expiry; `CoyoteTimePassed` itself has an empty body. */
    method CoyoteTimerFires()
      modifies this`CoyoteTimer
      ensures CoyoteTimer == AfterFiring(old(CoyoteTimer))
    {
      CoyoteTimer := AfterFiring(CoyoteTimer);
    }

    /**
     * Whether a jump is allowed now; `baseCanJump` is the base character's
     * rule. A pending probe always denies it; with none pending, an open
     * coyote window always allows it.
     */
    function CanJumpInternal(baseCanJump: bool): (r: bool)
      reads this
      ensures IsActive(UnCrouchTimer) ==> !r
      ensures !IsActive(UnCrouchTimer) && IsActive(CoyoteTimer) ==> r
      ensures !IsActive(CoyoteTimer) ==> (r <==> baseCanJump && !IsActive(UnCrouchTimer))
    {
      JumpAllowed(IsActive(CoyoteTimer), baseCanJump, IsActive(UnCrouchTimer))
    }
  }
}
