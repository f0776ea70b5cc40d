/**
 * Engine scheduling collaborators, reduced to the state the gameplay code
 * observes: a timer handle is either cleared or armed with a rate and a loop
 * flag, and a timeline is idle or playing forward or in reverse.
 * Time itself is not modelled: a timer's expiry is a callback method that the
 * caller invokes.
 */
module Timing {

  /** A timer handle as seen through the timer manager. */
  datatype Timer = Cleared | Armed(rate: real, looping: bool)

  /** `IsTimerActive`, and equally `GetTimerRemaining(h) > 0` between ticks. */
  predicate IsActive(t: Timer)
  {
    t.Armed?
  }

  /**
   * `SetTimer(handle, ..., rate, looping)`: any previous schedule on the handle
   * is replaced; a rate that is not positive clears the handle instead.
   */
  function SetTimer(rate: real, looping: bool): (r: Timer)
    ensures IsActive(r) <==> rate > 0.0
    ensures IsActive(r) ==> r.rate == rate && r.looping == looping
  {
    if rate > 0.0 then Armed(rate, looping) else Cleared
  }

  /**
   * The handle once its callback has run: a looping timer re-arms itself with
   * the same rate, a one-shot timer is spent.
   */
  function AfterFiring(t: Timer): (r: Timer)
    ensures IsActive(r) <==> IsActive(t) && t.looping
    ensures IsActive(r) ==> r == t
  {
    match t
    case Cleared => Cleared
    case Armed(rate, looping) => if looping then t else Cleared
  }

  /** The handle after its callback has run `k` times with nothing clearing it. */
  function FiredTimes(t: Timer, k: nat): Timer
  {
    if k == 0 then t else AfterFiring(FiredTimes(t, k - 1))
  }

  lemma {:induction false} LoopingTimerStaysArmed(t: Timer, k: nat)
    requires t.Armed? && t.looping
    ensures FiredTimes(t, k) == t
  {
    if k > 0 {
      LoopingTimerStaysArmed(t, k - 1);
    }
  }

  lemma {:induction false} OneShotTimerIsSpent(t: Timer, k: nat)
    requires t.Armed? && !t.looping && k >= 1
    ensures FiredTimes(t, k) == Cleared
  {
    if k > 1 {
      OneShotTimerIsSpent(t, k - 1);
    }
  }

  /** Playback direction of a timeline component (`Play`, `Reverse`). */
  datatype Playback = Idle | Forward | Backward
}
