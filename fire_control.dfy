/**
 * The weapon component's fire control (`UTP_WeaponComponent`): fire-mode
 * cycling, the guarded input handlers, the per-mode rules that stop firing,
 * the burst counter, the reload / equip / aim-down-sights flags and the step
 * of a hitscan shot that turns pellet traces into the arrays handed to the
 * decal and impact actors.
 *
 * Engine queries arrive as parameters: `canAct` stands for "the character and
 * its controller are set and the character can act", `rateTimerRunning` for
 * "the fire-rate timer has time remaining", and a shot's pellet traces and
 * muzzle position come in a `FireInputs` value.
 */
module FireControl {
  import opened Timing
  import opened Geometry
  import Decals
  import Impacts

  datatype FireMode = Single | Burst | Auto

  /** `SwitchFireMode`'s cycle: Single, Burst, Auto, back to Single. */
  function NextFireMode(m: FireMode): (r: FireMode)
    ensures r != m
    ensures m == Single <==> r == Burst
    ensures m == Burst <==> r == Auto
    ensures m == Auto <==> r == Single
  {
    match m
    case Single => Burst
    case Burst => Auto
    case Auto => Single
  }

  /** The mode after `k` switches. */
  function SwitchedTimes(m: FireMode, k: nat): FireMode
  {
    if k == 0 then m else NextFireMode(SwitchedTimes(m, k - 1))
  }

  /** Only the number of switches modulo three matters: three switches restore the mode. */
  lemma {:induction false} SwitchesCycleEveryThree(m: FireMode, k: nat)
    ensures SwitchedTimes(m, k) == SwitchedTimes(m, k % 3)
    ensures SwitchedTimes(m, 3) == m
  {
    assert SwitchedTimes(m, 3) == NextFireMode(NextFireMode(NextFireMode(m)));
    if k >= 3 {
      SwitchesCycleEveryThree(m, k - 3);
      SwitchAdditive(m, k - 3, 3);
      assert (k - 3) % 3 == k % 3;
    }
  }

  lemma {:induction false} SwitchAdditive(m: FireMode, j: nat, k: nat)
    ensures SwitchedTimes(m, j + k) == SwitchedTimes(SwitchedTimes(m, j), k)
  {
    if k > 0 {
      SwitchAdditive(m, j, k - 1);
    }
  }

  /** Every mode is reached within two switches, whatever the start. */
  lemma SwitchingReachesEveryMode(m: FireMode, target: FireMode)
    ensures exists k :: 0 <= k < 3 && SwitchedTimes(m, k) == target
  {
    assert SwitchedTimes(m, 1) == NextFireMode(m);
    assert SwitchedTimes(m, 2) == NextFireMode(NextFireMode(m));
    if target == m {
      assert SwitchedTimes(m, 0) == target;
    } else if target == NextFireMode(m) {
      assert SwitchedTimes(m, 1) == target;
    } else {
      assert SwitchedTimes(m, 2) == target;
    }
  }

  /** Whether the burst shot taken at counter `current` ends the burst. */
  predicate BurstEnds(current: int, rounds: int)
  {
    current + 1 >= rounds
  }

  /** The burst counter after one `BurstFire`: advanced, or back to 0 once the burst ends. */
  function BurstAdvance(current: int, rounds: int): (r: int)
    ensures BurstEnds(current, rounds) ==> r == 0
    ensures !BurstEnds(current, rounds) ==> r == current + 1 && r < rounds
  {
    if current + 1 >= rounds then 0 else current + 1
  }

  /** The counter stays in `[0, max(1, rounds))` between calls. */
  predicate BurstCounterInRange(current: int, rounds: int)
  {
    0 <= current && (current < rounds || current == 0)
  }

  lemma BurstAdvanceKeepsRange(current: int, rounds: int)
    requires BurstCounterInRange(current, rounds)
    ensures BurstCounterInRange(BurstAdvance(current, rounds), rounds)
  {
  }

  /** The counter after `k` burst shots from a fresh burst. */
  function BurstCounterAfter(rounds: int, k: nat): int
  {
    if k == 0 then 0 else BurstAdvance(BurstCounterAfter(rounds, k - 1), rounds)
  }

  /**
   * A burst of `rounds >= 1`: the first `rounds - 1` shots only count, the
   * shot numbered `rounds` ends the burst and resets the counter.
   */
  lemma {:induction false} BurstCountsUp(rounds: int, k: nat)
    requires k < rounds
    ensures BurstCounterAfter(rounds, k) == k
  {
    if k > 0 {
      BurstCountsUp(rounds, k - 1);
    }
  }

  lemma {:induction false} BurstEndsOnLastRound(rounds: int, k: nat)
    requires 1 <= k <= rounds
    ensures BurstEnds(BurstCounterAfter(rounds, k - 1), rounds) <==> k == rounds
    ensures BurstCounterAfter(rounds, rounds) == 0
  {
    BurstCountsUp(rounds, k - 1);
    BurstCountsUp(rounds, rounds - 1);
  }

  /** A burst size of 0 or less makes every shot a burst of one. */
  lemma {:induction false} NonPositiveRoundsFireSingly(rounds: int, k: nat)
    requires rounds <= 0
    ensures BurstEnds(BurstCounterAfter(rounds, k), rounds) && BurstCounterAfter(rounds, k) == 0
  {
    if k > 0 {
      NonPositiveRoundsFireSingly(rounds, k - 1);
    }
  }

  /** One pellet's muzzle trace (`FHitResult`), reduced to the fields the shot reads. */
  datatype HitResult = HitResult(blockingHit: bool, location: Vec, traceEnd: Vec, normal: Vec, surfaceType: int)

  /** Where a pellet's tracer ends: the hit location, or the trace end on a miss. */
  function TracerPoint(h: HitResult): Vec
  {
    if h.blockingHit then h.location else h.traceEnd
  }

  /** The blocking hits among `results`, in trace order. */
  function BlockingHits(results: seq<HitResult>): (hits: seq<HitResult>)
    ensures |hits| <= |results|
    ensures forall k :: 0 <= k < |hits| ==> hits[k].blockingHit && hits[k] in results
  {
    if results == [] then []
    else
      var last := results[|results| - 1];
      BlockingHits(results[..|results| - 1]) + (if last.blockingHit then [last] else [])
  }

  /** No blocking hit is lost: each one appears among the blocking hits. */
  lemma {:induction false} BlockingHitsComplete(results: seq<HitResult>)
    ensures forall i :: 0 <= i < |results| && results[i].blockingHit ==> results[i] in BlockingHits(results)
  {
    if results != [] {
      var init := results[..|results| - 1];
      BlockingHitsComplete(init);
      forall i | 0 <= i < |results| - 1 && results[i].blockingHit
        ensures results[i] in BlockingHits(results)
      {
        assert init[i] == results[i];
      }
    }
  }

  /** The indices of the blocking traces, in trace order. */
  function BlockingIndices(results: seq<HitResult>): (idx: seq<nat>)
    ensures |idx| <= |results|
    ensures forall k :: 0 <= k < |idx| ==> idx[k] < |results| && results[idx[k]].blockingHit
  {
    if results == [] then []
    else
      BlockingIndices(results[..|results| - 1])
        + (if results[|results| - 1].blockingHit then [|results| - 1] else [])
  }

  lemma {:induction false} BlockingIndicesIncreasing(results: seq<HitResult>)
    ensures forall j, k :: 0 <= j < k < |BlockingIndices(results)| ==>
              BlockingIndices(results)[j] < BlockingIndices(results)[k]
  {
    if results != [] {
      BlockingIndicesIncreasing(results[..|results| - 1]);
    }
  }

  lemma {:induction false} BlockingIndicesComplete(results: seq<HitResult>)
    ensures forall i :: 0 <= i < |results| && results[i].blockingHit ==> i in BlockingIndices(results)
  {
    if results != [] {
      var init := results[..|results| - 1];
      BlockingIndicesComplete(init);
      forall i | 0 <= i < |results| - 1 && results[i].blockingHit
        ensures i in BlockingIndices(results)
      {
        assert init[i] == results[i];
      }
    }
  }

  /**
   * The blocking hits are exactly the traces at `BlockingIndices`: with
   * BlockingIndicesIncreasing and BlockingIndicesComplete, each blocking
   * trace appears once, in trace order, and nothing else does.
   */
  lemma {:induction false} BlockingHitsArePicked(results: seq<HitResult>)
    ensures BlockingHits(results) == Impacts.Pick(results, BlockingIndices(results))
  {
    if results != [] {
      var init := results[..|results| - 1];
      BlockingHitsArePicked(init);
      var idx := BlockingIndices(init);
      assert forall k :: 0 <= k < |idx| ==> init[idx[k]] == results[idx[k]];
    }
  }

  function Locations(hits: seq<HitResult>): (r: seq<Vec>)
    ensures |r| == |hits| && forall k :: 0 <= k < |hits| ==> r[k] == hits[k].location
  {
    seq(|hits|, k requires 0 <= k < |hits| => hits[k].location)
  }

  function Normals(hits: seq<HitResult>): (r: seq<Vec>)
    ensures |r| == |hits| && forall k :: 0 <= k < |hits| ==> r[k] == hits[k].normal
  {
    seq(|hits|, k requires 0 <= k < |hits| => hits[k].normal)
  }

  function SurfaceTypes(hits: seq<HitResult>): (r: seq<int>)
    ensures |r| == |hits| && forall k :: 0 <= k < |hits| ==> r[k] == hits[k].surfaceType
  {
    seq(|hits|, k requires 0 <= k < |hits| => hits[k].surfaceType)
  }

  function Tracers(results: seq<HitResult>): (r: seq<Vec>)
    ensures |r| == |results| && forall i :: 0 <= i < |results| ==> r[i] == TracerPoint(results[i])
  {
    seq(|results|, i requires 0 <= i < |results| => TracerPoint(results[i]))
  }

  /**
   * The second loop of a hitscan `Fire`: one tracer point per trace, and one
   * position, normal and surface code per blocking hit, so the three impact
   * arrays are aligned and never longer than the tracer array.
   */
  method AssembleHits(results: seq<HitResult>)
    returns (tracerPositions: seq<Vec>, impactPositions: seq<Vec>, impactNormals: seq<Vec>,
             impactSurfaceTypes: seq<int>)
    ensures tracerPositions == Tracers(results)
    ensures impactPositions == Locations(BlockingHits(results))
    ensures impactNormals == Normals(BlockingHits(results))
    ensures impactSurfaceTypes == SurfaceTypes(BlockingHits(results))
    ensures |impactPositions| == |impactNormals| == |impactSurfaceTypes| <= |tracerPositions| == |results|
  {
    tracerPositions, impactPositions, impactNormals, impactSurfaceTypes := [], [], [], [];
    for i := 0 to |results|
      invariant tracerPositions == Tracers(results[..i])
      invariant impactPositions == Locations(BlockingHits(results[..i]))
      invariant impactNormals == Normals(BlockingHits(results[..i]))
      invariant impactSurfaceTypes == SurfaceTypes(BlockingHits(results[..i]))
    {
      var hitResult := results[i];
      assert results[..i + 1][..i] == results[..i];
      if hitResult.blockingHit {
        tracerPositions := tracerPositions + [hitResult.location];
        impactPositions := impactPositions + [hitResult.location];
        impactNormals := impactNormals + [hitResult.normal];
        impactSurfaceTypes := impactSurfaceTypes + [hitResult.surfaceType];
      } else {
        tracerPositions := tracerPositions + [hitResult.traceEnd];
      }
    }
    assert results[..|results|] == results;
  }

  /** What the engine supplies to one `Fire`. */
  datatype FireInputs = FireInputs(rateTimerRunning: bool, traces: seq<HitResult>, muzzle: Vec,
                                   ownerLocallyControlled: bool)

  /** What one `Fire` did. */
  datatype Shot =
    | NoShot
    | Projectile
    | Hitscan(tracers: seq<Vec>, impacts: seq<Vec>, normals: seq<Vec>, surfaces: seq<int>)

  /** Delay of the delayed reload clear after an interrupted reload (seconds). */
  const ReloadClearDelay: real := 0.2

  /** How long the recoil phase lasts once firing starts (seconds). */
  const RecoilPhaseTime: real := 10.0

  /** The component's flags and timers, for "nothing else changes" contracts. */
  datatype WeaponState = WeaponState(
    fireMode: FireMode, burstFireCurrent: int, isReloading: bool, isEquipping: bool,
    isHolding: bool, adsHeld: bool, fireRateTimer: Timer, fireCallback: FireMode,
    reloadDelayTimer: Timer, equipDelayTimer: Timer, isShouldRecoil: bool, recoil: bool,
    recoilRecovery: bool, recoilTimer: Timer, adsPlayback: Playback)

  class WeaponComponent {
    const CanSwitchFireMode: bool
    const BurstFireRounds: int
    /** Number of pellet traces per hitscan shot (`Pellets`; none when not positive). */
    const Pellets: int
    /** A projectile class is configured: shots spawn projectiles instead of tracing. */
    const HasProjectileClass: bool
    /** A recoil curve is configured. */
    const HasRecoilCurve: bool
    /** `60 / FireRate`: seconds between shots. */
    const FireDelay: real
    const EquipTime: real

    var FireMode: FireMode
    var BurstFireCurrent: int
    var IsReloading: bool
    var IsEquipping: bool
    var IsPlayerHoldingShootButton: bool
    var ADS_Held: bool
    var FireRateDelayTimer: Timer
    /** Which of SingleFire, BurstFire or FullAutoFire the fire-rate timer calls. */
    var FireRateCallback: FireMode
    var ReloadDelayTimer: Timer
    var EquipDelayTimer: Timer
    var IsShouldRecoil: bool
    var bRecoil: bool
    var bRecoilRecovery: bool
    /** `FireTimer`, which ends the recoil phase. */
    var RecoilTimer: Timer
    /** Playback of `ADSTL`. */
    var ADSPlayback: Playback

    const WeaponDecals: Decals.WeaponDecals
    const WeaponImpacts: Impacts.WeaponImpacts

    function State(): WeaponState
      reads this
    {
      WeaponState(FireMode, BurstFireCurrent, IsReloading, IsEquipping, IsPlayerHoldingShootButton, ADS_Held,
                  FireRateDelayTimer, FireRateCallback, ReloadDelayTimer, EquipDelayTimer, IsShouldRecoil,
                  bRecoil, bRecoilRecovery, RecoilTimer, ADSPlayback)
    }

    /** Between calls: the burst counter is in range and the impact actor's buckets are empty. */
    predicate Valid()
      reads this, WeaponImpacts
    {
      BurstCounterInRange(BurstFireCurrent, BurstFireRounds) && WeaponImpacts.BucketsEmpty()
    }

    /** How many traces a hitscan shot takes. */
    function PelletCount(): nat
    {
      if Pellets > 0 then Pellets else 0
    }

    constructor (canSwitchFireMode: bool, burstFireRounds: int, pellets: int, hasProjectileClass: bool,
                 hasRecoilCurve: bool, fireRate: real, equipTime: real, decals: Decals.WeaponDecals,
                 impacts: Impacts.WeaponImpacts)
      requires fireRate > 0.0
      requires impacts.BucketsEmpty()
      ensures Valid()
      ensures CanSwitchFireMode == canSwitchFireMode && BurstFireRounds == burstFireRounds
      ensures Pellets == pellets && HasProjectileClass == hasProjectileClass && HasRecoilCurve == hasRecoilCurve
      ensures FireDelay == 60.0 / fireRate && EquipTime == equipTime
      ensures WeaponDecals == decals && WeaponImpacts == impacts
      ensures State() == WeaponState(Single, 0, false, false, false, false, Cleared, Single, Cleared, Cleared,
                                     false, false, false, Cleared, Idle)
    {
      CanSwitchFireMode := canSwitchFireMode;
      BurstFireRounds := burstFireRounds;
      Pellets := pellets;
      HasProjectileClass := hasProjectileClass;
      HasRecoilCurve := hasRecoilCurve;
      FireDelay := 60.0 / fireRate;
      EquipTime := equipTime;
      WeaponDecals := decals;
      WeaponImpacts := impacts;
      FireMode := Single;
      BurstFireCurrent := 0;
      IsReloading, IsEquipping := false, false;
      IsPlayerHoldingShootButton, ADS_Held := false, false;
      FireRateDelayTimer, FireRateCallback := Cleared, Single;
      ReloadDelayTimer, EquipDelayTimer := Cleared, Cleared;
      IsShouldRecoil, bRecoil, bRecoilRecovery, RecoilTimer := false, false, false, Cleared;
      ADSPlayback := Idle;
    }

    /**
     * Fire pressed: the button counts as held whatever happens next. When the
     * character can act and no fire-rate delay is running, recoil starts and
     * the fire-rate timer is armed, looping, to call the current mode's
     * handler.
     */
    method PressedFire(canAct: bool, rateTimerRunning: bool)
      modifies this
      ensures IsPlayerHoldingShootButton
      ensures !canAct || rateTimerRunning ==> State() == old(State()).(isHolding := true)
      ensures canAct && !rateTimerRunning ==>
                && FireRateDelayTimer == SetTimer(FireDelay, true)
                && FireRateCallback == FireMode
                && (HasRecoilCurve ==>
                      State() == old(State()).(isHolding := true, fireRateTimer := FireRateDelayTimer,
                                               fireCallback := FireMode, isShouldRecoil := true, recoil := true,
                                               recoilRecovery := false,
                                               recoilTimer := Armed(RecoilPhaseTime, false)))
                && (!HasRecoilCurve ==>
                      State() == old(State()).(isHolding := true, fireRateTimer := FireRateDelayTimer,
                                               fireCallback := FireMode))
    {
      IsPlayerHoldingShootButton := true;
      if !canAct || rateTimerRunning {
        return;
      }
      FireRateDelayTimer := Cleared;
      RecoilStart();
      FireRateDelayTimer := SetTimer(FireDelay, true);
      FireRateCallback := FireMode;
    }

    /** Fire released: the only place the held flag goes false. */
    method ReleasedFire()
      modifies this
      ensures State() == old(State()).(isHolding := false)
    {
      IsPlayerHoldingShootButton := false;
    }

    /** Switch pressed: the mode advances only when switching is allowed and the character can act. */
    method PressedSwitchFireMode(canAct: bool)
      modifies this
      ensures CanSwitchFireMode && canAct ==> State() == old(State()).(fireMode := NextFireMode(old(FireMode)))
      ensures !(CanSwitchFireMode && canAct) ==> State() == old(State())
    {
      if !CanSwitchFireMode || !canAct {
        return;
      }
      SwitchFireMode();
    }

    method SwitchFireMode()
      modifies this
      ensures State() == old(State()).(fireMode := NextFireMode(old(FireMode)))
    {
      match FireMode {
        case Single => FireMode := Burst;
        case Burst => FireMode := Auto;
        case Auto => FireMode := Single;
      }
    }

    /**
     * Recoil begins only with a recoil curve: recoil should apply, the recoil
     * phase is on and its timer armed, and recovery is off.
     */
    method RecoilStart()
      modifies this
      ensures HasRecoilCurve ==> State() == old(State()).(isShouldRecoil := true, recoil := true,
                                                          recoilRecovery := false,
                                                          recoilTimer := Armed(RecoilPhaseTime, false))
      ensures !HasRecoilCurve ==> State() == old(State())
    {
      if HasRecoilCurve {
        IsShouldRecoil := true;
        RecoilTimer := SetTimer(RecoilPhaseTime, false);
        bRecoil := true;
        bRecoilRecovery := false;
      }
    }

    /** The recoil timer fires (`RecoilTimerFunction`): the recoil phase ends and the timer is paused. */
    method RecoilTimerFires()
      requires RecoilTimer.Armed?
      modifies this
      ensures State() == old(State()).(recoil := false, recoilTimer := Cleared)
    {
      RecoilTimer := Cleared;
      bRecoil := false;
    }

    /** `RecoilStop`: recoil should no longer apply; nothing else changes. */
    method RecoilStop()
      modifies this
      ensures State() == old(State()).(isShouldRecoil := false)
    {
      IsShouldRecoil := false;
    }

    /** Firing stops: recoil stops. */
    method StopFire()
      modifies this
      ensures State() == old(State()).(isShouldRecoil := false)
    {
      RecoilStop();
    }

    /** A forced stop from outside is the same as `StopFire`. */
    method ForceStopFire()
      modifies this
      ensures State() == old(State()).(isShouldRecoil := false)
    {
      StopFire();
    }

    /**
     * What one call of `Fire` leaves behind, between the state it started in
     * and the state now: no shot and neither actor changed while reloading,
     * equipping or during a fire-rate delay; a projectile with neither actor
     * changed; or a hitscan shot whose hits the decal actor (trimmed) and the
     * impact actor (bucketed by surface) now hold, with their systems updated.
     */
    twostate predicate FireOutcome(inputs: FireInputs, shot: Shot)
      reads WeaponDecals, WeaponImpacts
    {
      var blocked := old(IsReloading) || old(IsEquipping) || inputs.rateTimerRunning;
      && (blocked ==> shot == NoShot && unchanged(WeaponDecals) && unchanged(WeaponImpacts))
      && (!blocked && HasProjectileClass ==>
            shot == Projectile && unchanged(WeaponDecals) && unchanged(WeaponImpacts))
      && (!blocked && !HasProjectileClass ==>
            && shot == Hitscan(Tracers(inputs.traces), Locations(BlockingHits(inputs.traces)),
                               Normals(BlockingHits(inputs.traces)), SurfaceTypes(BlockingHits(inputs.traces)))
            && WeaponDecals.MuzzlePosition == inputs.muzzle
            && WeaponDecals.ImpactSurfaces == Decals.PopN(shot.surfaces, Decals.CountInvalid(shot.surfaces))
            && WeaponDecals.ImpactPositions == Decals.PopN(shot.impacts, Decals.CountInvalid(shot.surfaces))
            && WeaponDecals.ImpactNormals == Decals.PopN(shot.normals, Decals.CountInvalid(shot.surfaces))
            && WeaponDecals.CheckDestroyEffectTimer == Armed(Decals.DestroyCheckDelay, true)
            && WeaponDecals.Destroyed == old(WeaponDecals.Destroyed)
            && (if WeaponDecals.HasImpactDecalsFx then
                  && WeaponDecals.ImpactDecalsTrigger
                     == (Decals.DecalNeedsSpawn(old(WeaponDecals.NC_ImpactDecals)) || !old(WeaponDecals.ImpactDecalsTrigger))
                  && WeaponDecals.NC_ImpactDecals
                     == Decals.DecalSystem(true, WeaponDecals.ImpactSurfaces, WeaponDecals.ImpactPositions,
                                           WeaponDecals.ImpactNormals, |WeaponDecals.ImpactPositions|,
                                           inputs.muzzle, WeaponDecals.ImpactDecalsTrigger)
                else
                  && WeaponDecals.NC_ImpactDecals == old(WeaponDecals.NC_ImpactDecals)
                  && WeaponDecals.ImpactDecalsTrigger == old(WeaponDecals.ImpactDecalsTrigger))
            && WeaponImpacts.ImpactPositions == shot.impacts
            && WeaponImpacts.ImpactNormals == shot.normals
            && WeaponImpacts.ImpactSurfaces == shot.surfaces
            && WeaponImpacts.MuzzlePosition == inputs.muzzle
            && WeaponImpacts.CheckDestroyEffectTimer == Armed(Impacts.DestroyCheckDelay, false)
            && WeaponImpacts.Destroyed == old(WeaponImpacts.Destroyed)
            && WeaponImpacts.NC_Concrete
               == Impacts.SurfaceSystemAfterShot(old(WeaponImpacts.NC_Concrete), WeaponImpacts.HasConcreteFx,
                                                 Impacts.Bucket(shot.surfaces, shot.impacts, Impacts.ConcreteSurface),
                                                 Impacts.Bucket(shot.surfaces, shot.normals, Impacts.ConcreteSurface),
                                                 inputs.muzzle)
            && WeaponImpacts.NC_Glass
               == Impacts.SurfaceSystemAfterShot(old(WeaponImpacts.NC_Glass), WeaponImpacts.HasGlassFx,
                                                 Impacts.Bucket(shot.surfaces, shot.impacts, Impacts.GlassSurface),
                                                 Impacts.Bucket(shot.surfaces, shot.normals, Impacts.GlassSurface),
                                                 inputs.muzzle)
            && var body := Impacts.Bucket(shot.surfaces, shot.impacts, Impacts.BodySurface);
               && WeaponImpacts.NC_CharacterSparks
                  == (if body != [] && WeaponImpacts.HasCharacterSparksFx
                      then Impacts.Spawned(body[|body| - 1]) else old(WeaponImpacts.NC_CharacterSparks))
               && WeaponImpacts.NC_DamageNumber
                  == (if body != [] && WeaponImpacts.HasDamageNumberFx && inputs.ownerLocallyControlled
                      then Impacts.DamageNumberShown(old(WeaponImpacts.NC_DamageNumber), body)
                      else old(WeaponImpacts.NC_DamageNumber)))
    }

    /**
     * One shot. Nothing happens while reloading, equipping or during a
     * fire-rate delay. Otherwise a projectile weapon spawns a projectile, and
     * a hitscan weapon assembles its traces and hands them to the decal and
     * impact actors.
     */
    method Fire(inputs: FireInputs) returns (shot: Shot)
      requires Valid()
      requires |inputs.traces| == PelletCount()
      modifies WeaponDecals, WeaponImpacts
      ensures Valid()
      ensures FireOutcome(inputs, shot)
    {
      if IsReloading || IsEquipping || inputs.rateTimerRunning {
        return NoShot;
      }
      if HasProjectileClass {
        return Projectile;
      }
      var tracerPositions, impactPositions, impactNormals, impactSurfaceTypes := AssembleHits(inputs.traces);
      WeaponDecals.WeaponFire(impactPositions, impactNormals, impactSurfaceTypes, inputs.muzzle);
      WeaponImpacts.WeaponFire(impactPositions, impactNormals, impactSurfaceTypes, inputs.muzzle,
                               inputs.ownerLocallyControlled);
      shot := Hitscan(tracerPositions, impactPositions, impactNormals, impactSurfaceTypes);
    }

    /** Single fire: one shot, then the fire-rate timer is cleared and firing stops. */
    method SingleFire(inputs: FireInputs) returns (shot: Shot)
      requires Valid()
      requires |inputs.traces| == PelletCount()
      modifies this, WeaponDecals, WeaponImpacts
      ensures Valid()
      ensures FireOutcome(inputs, shot)
      ensures State() == old(State()).(fireRateTimer := Cleared, isShouldRecoil := false)
    {
      shot := Fire(inputs);
      FireRateDelayTimer := Cleared;
      StopFire();
    }

    /**
     * Burst fire: one shot and the counter advances; the shot that completes
     * the burst clears the fire-rate timer, resets the counter and stops firing.
     */
    method BurstFire(inputs: FireInputs) returns (shot: Shot)
      requires Valid()
      requires |inputs.traces| == PelletCount()
      modifies this, WeaponDecals, WeaponImpacts
      ensures Valid()
      ensures FireOutcome(inputs, shot)
      ensures BurstFireCurrent == BurstAdvance(old(BurstFireCurrent), BurstFireRounds)
      ensures BurstEnds(old(BurstFireCurrent), BurstFireRounds) ==>
                State() == old(State()).(burstFireCurrent := 0, fireRateTimer := Cleared, isShouldRecoil := false)
      ensures !BurstEnds(old(BurstFireCurrent), BurstFireRounds) ==>
                State() == old(State()).(burstFireCurrent := old(BurstFireCurrent) + 1)
    {
      shot := Fire(inputs);
      BurstFireCurrent := BurstFireCurrent + 1;
      if BurstFireCurrent >= BurstFireRounds {
        FireRateDelayTimer := Cleared;
        BurstFireCurrent := 0;
        StopFire();
      }
    }

    /** Full-auto fire: one shot; firing stops exactly when the button is no longer held. */
    method FullAutoFire(inputs: FireInputs) returns (shot: Shot)
      requires Valid()
      requires |inputs.traces| == PelletCount()
      modifies this, WeaponDecals, WeaponImpacts
      ensures Valid()
      ensures FireOutcome(inputs, shot)
      ensures !IsPlayerHoldingShootButton ==>
                State() == old(State()).(fireRateTimer := Cleared, isShouldRecoil := false)
      ensures IsPlayerHoldingShootButton ==> State() == old(State())
    {
      shot := Fire(inputs);
      if !IsPlayerHoldingShootButton {
        FireRateDelayTimer := Cleared;
        StopFire();
      }
    }

    /** A call through the fire-rate timer's delegate: the handler bound at the press runs. */
    method CallFireRateCallback(inputs: FireInputs) returns (shot: Shot)
      requires Valid()
      requires |inputs.traces| == PelletCount()
      modifies this, WeaponDecals, WeaponImpacts
      ensures Valid()
      ensures FireOutcome(inputs, shot)
      ensures FireRateCallback == old(FireRateCallback)
      ensures old(FireRateCallback) == Single ==>
                State() == old(State()).(fireRateTimer := Cleared, isShouldRecoil := false)
      ensures old(FireRateCallback) == Burst && BurstEnds(old(BurstFireCurrent), BurstFireRounds) ==>
                State() == old(State()).(burstFireCurrent := 0, fireRateTimer := Cleared, isShouldRecoil := false)
      ensures old(FireRateCallback) == Burst && !BurstEnds(old(BurstFireCurrent), BurstFireRounds) ==>
                State() == old(State()).(burstFireCurrent := old(BurstFireCurrent) + 1)
      ensures old(FireRateCallback) == Auto && !old(IsPlayerHoldingShootButton) ==>
                State() == old(State()).(fireRateTimer := Cleared, isShouldRecoil := false)
      ensures old(FireRateCallback) == Auto && old(IsPlayerHoldingShootButton) ==> State() == old(State())
    {
      match FireRateCallback {
        case Single => shot := SingleFire(inputs);
        case Burst => shot := BurstFire(inputs);
        case Auto => shot := FullAutoFire(inputs);
      }
    }

    /** The fire-rate timer's expiry: the looping timer re-arms and calls the handler bound at the press. */
    method FireRateTimerFires(inputs: FireInputs) returns (shot: Shot)
      requires Valid()
      requires FireRateDelayTimer.Armed? && FireRateDelayTimer.looping
      requires |inputs.traces| == PelletCount()
      modifies this, WeaponDecals, WeaponImpacts
      ensures Valid()
      ensures FireOutcome(inputs, shot)
      ensures IsActive(FireRateDelayTimer) <==>
                match FireRateCallback
                case Single => false
                case Burst => !BurstEnds(old(BurstFireCurrent), BurstFireRounds)
                case Auto => IsPlayerHoldingShootButton
      ensures FireRateCallback == old(FireRateCallback)
      ensures old(FireRateCallback) == Single ==>
                State() == old(State()).(fireRateTimer := Cleared, isShouldRecoil := false)
      ensures old(FireRateCallback) == Burst && BurstEnds(old(BurstFireCurrent), BurstFireRounds) ==>
                State() == old(State()).(burstFireCurrent := 0, fireRateTimer := Cleared, isShouldRecoil := false)
      ensures old(FireRateCallback) == Burst && !BurstEnds(old(BurstFireCurrent), BurstFireRounds) ==>
                State() == old(State()).(burstFireCurrent := old(BurstFireCurrent) + 1)
      ensures old(FireRateCallback) == Auto && !old(IsPlayerHoldingShootButton) ==>
                State() == old(State()).(fireRateTimer := Cleared, isShouldRecoil := false)
      ensures old(FireRateCallback) == Auto && old(IsPlayerHoldingShootButton) ==> State() == old(State())
    {
      FireRateDelayTimer := AfterFiring(FireRateDelayTimer);
      assert State() == old(State());
      shot := CallFireRateCallback(inputs);
    }

    /** Equip: ignored while equipping; otherwise equipping starts and its timer is armed, one-shot. */
    method Equip(hasCharacter: bool)
      modifies this
      ensures old(IsEquipping) || !hasCharacter ==> State() == old(State())
      ensures !old(IsEquipping) && hasCharacter ==>
                State() == old(State()).(isEquipping := true, equipDelayTimer := SetTimer(EquipTime, false))
    {
      if IsEquipping || !hasCharacter {
        return;
      }
      IsEquipping := true;
      EquipDelayTimer := SetTimer(EquipTime, false);
    }

    method SetIsEquippingFalse()
      modifies this
      ensures State() == old(State()).(isEquipping := false, equipDelayTimer := Cleared)
    {
      IsEquipping := false;
      EquipDelayTimer := Cleared;
    }

    /** Reload: ignored while reloading or equipping; otherwise reloading starts and aiming is left. */
    method Reload()
      modifies this
      ensures old(IsReloading) || old(IsEquipping) ==> State() == old(State())
      ensures !old(IsReloading) && !old(IsEquipping) ==>
                State() == old(State()).(isReloading := true, adsPlayback := Backward)
    {
      if IsReloading || IsEquipping {
        return;
      }
      IsReloading := true;
      ExitADS(false);
    }

    method PressedReload(canAct: bool)
      modifies this
      ensures canAct && !old(IsReloading) && !old(IsEquipping) ==>
                State() == old(State()).(isReloading := true, adsPlayback := Backward)
      ensures !canAct || old(IsReloading) || old(IsEquipping) ==> State() == old(State())
    {
      if !canAct {
        return;
      }
      Reload();
    }

    /**
     * The reload animation blends out. Uninterrupted, reloading ends at once.
     * Interrupted, the delayed clear is scheduled only when none is pending,
     * so repeated cancels cannot push it back.
     */
    method ReloadAnimationBlendOut(interrupted: bool, hasCharacter: bool)
      modifies this
      ensures !interrupted ==> State() == old(State()).(isReloading := false, reloadDelayTimer := Cleared)
      ensures interrupted && hasCharacter && !IsActive(old(ReloadDelayTimer)) ==>
                State() == old(State()).(reloadDelayTimer := Armed(ReloadClearDelay, false))
      ensures interrupted && (!hasCharacter || IsActive(old(ReloadDelayTimer))) ==> State() == old(State())
    {
      if interrupted {
        var isTimerActive := IsActive(ReloadDelayTimer);
        if hasCharacter && !isTimerActive {
          ReloadDelayTimer := SetTimer(ReloadClearDelay, false);
        }
      } else {
        SetIsReloadingFalse();
      }
    }

    method SetIsReloadingFalse()
      modifies this
      ensures State() == old(State()).(isReloading := false, reloadDelayTimer := Cleared)
    {
      IsReloading := false;
      ReloadDelayTimer := Cleared;
    }

    /** The delayed reload clear fires. */
    method ReloadDelayTimerFires()
      requires ReloadDelayTimer.Armed?
      modifies this
      ensures State() == old(State()).(isReloading := false, reloadDelayTimer := Cleared)
    {
      ReloadDelayTimer := AfterFiring(ReloadDelayTimer);
      SetIsReloadingFalse();
    }

    /** The equip timer fires. */
    method EquipDelayTimerFires()
      requires EquipDelayTimer.Armed?
      modifies this
      ensures State() == old(State()).(isEquipping := false, equipDelayTimer := Cleared)
    {
      EquipDelayTimer := AfterFiring(EquipDelayTimer);
      SetIsEquippingFalse();
    }

    method PressedADS()
      modifies this
      ensures !old(IsReloading) ==> State() == old(State()).(adsHeld := true, adsPlayback := Forward)
      ensures old(IsReloading) ==> State() == old(State()).(adsHeld := true)
    {
      ADS_Held := true;
      EnterADS();
    }

    /** Aiming starts, except while reloading. */
    method EnterADS()
      modifies this
      ensures !old(IsReloading) ==> State() == old(State()).(adsPlayback := Forward)
      ensures old(IsReloading) ==> State() == old(State())
    {
      if IsReloading {
        return;
      }
      ADSPlayback := Forward;
    }

    method ReleasedADS()
      modifies this
      ensures State() == old(State()).(adsHeld := false, adsPlayback := Backward)
    {
      ADS_Held := false;
      ADSPlayback := Backward;
    }

    method ExitADS(isFast: bool)
      modifies this
      ensures State() == old(State()).(adsPlayback := Backward)
    {
      ADSPlayback := Backward;
    }
  }
}
