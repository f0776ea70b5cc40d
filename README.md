# Octahedron gameplay core, modelled in Dafny

This project models four parts of the Octahedron first-person shooter (an
Unreal Engine C++ game) and proves properties of each:

- **Weapon fire control** (`FireControl`, `UTP_WeaponComponent`):
  - fire-mode cycling, and the guards on the fire, reload, switch and aim inputs;
  - the per-mode handlers that decide when firing stops, and the burst counter;
  - the reload, equip and recoil flags and their timers;
  - the hitscan step that turns pellet traces into the arrays handed to the decal and impact actors.
- **Impact decals** (`Decals`, `AWeaponDecals`): trimming the surfaces that get no decal, and feeding the decal system.
- **Impact effects** (`Impacts`, `AWeaponImpacts`):
  - sorting impacts into body, concrete and glass buckets;
  - driving one effect system per surface kind, plus the damage numbers;
  - emptying the buckets after each shot.
- **Crouch, stand-up and coyote jump** (`Locomotion`, `AOctahedronCharacter`):
  - the crouch blend of speed cap and capsule height;
  - the 30 Hz stand-up probe;
  - the speed-scaled coyote window and the jump rule.

`Timing` and `Geometry` hold the engine's timer handles, timeline playback and vectors.

Engine timers are values: `Cleared`, or `Armed(rate, looping)`. Time does
not pass in the model. A timer's expiry is a method the caller invokes, for
example `WeaponComponent.FireRateTimerFires` or `OctahedronCharacter.UnCrouchTimerFires`.
Engine queries become parameters. These include:

- "the character can act";
- "the fire-rate timer has time remaining";
- the pellet trace results;
- the stand-up sweep's `isStuck` result;
- `IsFalling()`;
- the velocity's length;
- whether the owning character is locally controlled.

Each class models an object whose fields the source updates in place. Its
methods state their entire new state, for example with
`State() == old(State()).(...)` in `FireControl`. A method that fires a shot
also states the shot and both actors' new state, through the two-state
predicate `WeaponComponent.FireOutcome`. The pure functions
beside each class define what the methods compute, and the lemmas state
properties of those functions.

Floats are exact `real`s, and the engine's `Lerp`, `Clamp` and
`NormalizeToRange` are written out. The crouch speed cap follows the code,
which blends to half the base walk speed.

## Model

| member | source | states |
|---|---|---|
| FireControl.NextFireMode | Source/Octahedron/TP_WeaponComponent.cpp:119-135 | the mode always changes, and Single→Burst, Burst→Auto, Auto→Single, each as an if-and-only-if |
| FireControl.SwitchesCycleEveryThree | Source/Octahedron/TP_WeaponComponent.cpp:119-135 | three switches restore the mode; k switches equal k mod 3 switches |
| FireControl.SwitchingReachesEveryMode | Source/Octahedron/TP_WeaponComponent.cpp:119-135 | every mode is reached from any mode within at most two switches |
| FireControl.BurstAdvance | Source/Octahedron/TP_WeaponComponent.cpp:147-160 | the counter resets to 0 when the shot completes the burst; otherwise it grows by one and stays below the burst size |
| FireControl.BurstAdvanceKeepsRange | Source/Octahedron/TP_WeaponComponent.cpp:147-160 | the counter stays within [0, max(1, BurstFireRounds)) between calls |
| FireControl.BurstCountsUp | Source/Octahedron/TP_WeaponComponent.cpp:147-160 | after k < BurstFireRounds shots of a fresh burst, the counter is k |
| FireControl.BurstEndsOnLastRound | Source/Octahedron/TP_WeaponComponent.cpp:147-160 | a burst ends exactly on shot number BurstFireRounds, which leaves the counter at 0 |
| FireControl.NonPositiveRoundsFireSingly | Source/Octahedron/TP_WeaponComponent.cpp:147-160 | with a burst size of 0 or less, every burst shot ends the burst |
| FireControl.BlockingHits | Source/Octahedron/TP_WeaponComponent.cpp:258-273 | only blocking hits among the traces are kept, and there are never more than the traces |
| FireControl.BlockingHitsComplete | Source/Octahedron/TP_WeaponComponent.cpp:258-273 | no blocking hit is lost |
| FireControl.BlockingIndices | Source/Octahedron/TP_WeaponComponent.cpp:258-273 | every listed index is a blocking trace |
| FireControl.BlockingIndicesIncreasing | Source/Octahedron/TP_WeaponComponent.cpp:258-273 | the blocking indices are strictly increasing, so each trace appears at most once, in trace order |
| FireControl.BlockingIndicesComplete | Source/Octahedron/TP_WeaponComponent.cpp:258-273 | every blocking trace's index is listed |
| FireControl.BlockingHitsArePicked | Source/Octahedron/TP_WeaponComponent.cpp:258-273 | the blocking hits are exactly the traces at the blocking indices: each blocking trace exactly once, in trace order, and nothing else |
| FireControl.AssembleHits | Source/Octahedron/TP_WeaponComponent.cpp:258-273 | one tracer point per trace (the hit location, or the trace end on a miss); the position, normal and surface arrays take one entry per blocking hit, in order, so they have equal length and are never longer than the tracer array |
| FireControl.WeaponComponent.constructor | Source/Octahedron/TP_WeaponComponent.h:84-101 | Single mode, burst counter 0, every flag false, every timer cleared, FireDelay = 60 / FireRate |
| FireControl.WeaponComponent.PressedFire | Source/Octahedron/TP_WeaponComponent.cpp:66-92 | the button counts as held even when the guard rejects the press; a rejected press changes nothing else; an accepted one starts recoil and arms the looping fire-rate timer bound to the current mode's handler |
| FireControl.WeaponComponent.ReleasedFire | Source/Octahedron/TP_WeaponComponent.cpp:94-97 | only the held flag changes, to false |
| FireControl.WeaponComponent.PressedSwitchFireMode | Source/Octahedron/TP_WeaponComponent.cpp:109-117 | the mode advances when switching is allowed and the character can act; otherwise nothing changes |
| FireControl.WeaponComponent.SwitchFireMode | Source/Octahedron/TP_WeaponComponent.cpp:119-135 | only the mode changes, to NextFireMode |
| FireControl.WeaponComponent.Fire | Source/Octahedron/TP_WeaponComponent.cpp:174-381 | FireOutcome holds: while reloading, equipping or during a fire-rate delay, there is no shot and neither actor changes; a projectile weapon changes neither actor; a hitscan shot passes the assembled arrays to the decal actor (positions, normals and surfaces trimmed alike) and to the impact actor, whose buckets are empty again afterwards. Both actors arm their self-destruct checks. The decal system and its trigger, and each impact system built from that shot's per-surface buckets, are stated as those actors leave them |
| FireControl.WeaponComponent.SingleFire | Source/Octahedron/TP_WeaponComponent.cpp:137-145 | the shot and both actors' new state are as FireOutcome gives them; after the shot, the fire-rate timer is cleared and recoil stops; nothing else in the component changes |
| FireControl.WeaponComponent.BurstFire | Source/Octahedron/TP_WeaponComponent.cpp:147-160 | the shot and both actors' new state are as FireOutcome gives them; the counter becomes BurstAdvance of the old counter; the completing shot also clears the timer and stops recoil |
| FireControl.WeaponComponent.FullAutoFire | Source/Octahedron/TP_WeaponComponent.cpp:162-172 | the shot and both actors' new state are as FireOutcome gives them; the timer is cleared and recoil stops exactly when the button is no longer held |
| FireControl.WeaponComponent.CallFireRateCallback | Source/Octahedron/TP_WeaponComponent.cpp:78-88 | the handler bound at the press runs: the shot and both actors' new state are as FireOutcome gives them, the bound handler does not change, and the component state is exactly what SingleFire, BurstFire or FullAutoFire leave |
| FireControl.WeaponComponent.FireRateTimerFires | Source/Octahedron/TP_WeaponComponent.cpp:78-88 | after the looping timer's expiry, it stays armed iff: the handler is Auto and the button is held; or the handler is Burst and the burst did not end. A Single handler always clears it. The shot and both actors' new state are as FireOutcome gives them. The bound handler does not change, and the rest of the state is exactly what SingleFire, BurstFire or FullAutoFire leave |
| FireControl.WeaponComponent.RecoilStart | Source/Octahedron/TP_WeaponComponent.cpp:592-612 | with a recoil curve: recoil should apply, the recoil phase is on and its 10 s timer armed, and recovery is off; without one, nothing changes |
| FireControl.WeaponComponent.RecoilTimerFires | Source/Octahedron/TP_WeaponComponent.cpp:615-619 | the recoil phase ends and its timer stops |
| FireControl.WeaponComponent.RecoilStop | Source/Octahedron/TP_WeaponComponent.cpp:622-625 | only the should-recoil flag changes, to false |
| FireControl.WeaponComponent.StopFire | Source/Octahedron/TP_WeaponComponent.cpp:383-386 | the same as RecoilStop |
| FireControl.WeaponComponent.ForceStopFire | Source/Octahedron/TP_WeaponComponent.cpp:388-391 | the same as StopFire |
| FireControl.WeaponComponent.Equip | Source/Octahedron/TP_WeaponComponent.cpp:397-411 | a no-op while equipping or without a character; otherwise sets IsEquipping and arms the one-shot equip timer |
| FireControl.WeaponComponent.SetIsEquippingFalse | Source/Octahedron/TP_WeaponComponent.cpp:413-420 | IsEquipping becomes false and its timer is cleared |
| FireControl.WeaponComponent.EquipDelayTimerFires | Source/Octahedron/TP_WeaponComponent.cpp:410 | the equip timer's expiry ends equipping |
| FireControl.WeaponComponent.Reload | Source/Octahedron/TP_WeaponComponent.cpp:422-444 | a no-op while reloading or equipping; otherwise sets IsReloading and reverses the aim timeline |
| FireControl.WeaponComponent.PressedReload | Source/Octahedron/TP_WeaponComponent.cpp:99-107 | Reload, only when the character can act |
| FireControl.WeaponComponent.ReloadAnimationBlendOut | Source/Octahedron/TP_WeaponComponent.cpp:714-728 | an uninterrupted blend-out clears IsReloading at once; an interrupted one arms the 0.2 s clear only if none is pending, and otherwise changes nothing |
| FireControl.WeaponComponent.SetIsReloadingFalse | Source/Octahedron/TP_WeaponComponent.cpp:730-738 | IsReloading becomes false and its timer is cleared |
| FireControl.WeaponComponent.ReloadDelayTimerFires | Source/Octahedron/TP_WeaponComponent.cpp:721 | the delayed clear ends reloading |
| FireControl.WeaponComponent.PressedADS | Source/Octahedron/TP_WeaponComponent.cpp:460-465 | the aim button counts as held; aiming starts unless reloading |
| FireControl.WeaponComponent.EnterADS | Source/Octahedron/TP_WeaponComponent.cpp:467-479 | a no-op while reloading; otherwise the aim timeline plays forward |
| FireControl.WeaponComponent.ReleasedADS | Source/Octahedron/TP_WeaponComponent.cpp:481-485 | the aim button is released and the timeline reverses |
| FireControl.WeaponComponent.ExitADS | Source/Octahedron/TP_WeaponComponent.cpp:487-494 | the aim timeline reverses |
| Decals.CountInvalid | Source/Octahedron/WeaponDecals.cpp:24-37 | the number of decal-free codes (0 and 1), which is the number of pops; it never exceeds the array length |
| Decals.KeptSurfacesGetDecals | Source/Octahedron/WeaponDecals.cpp:24-37 | after removal by index, every surface left gets a decal |
| Decals.TailTrimKeepsBodyHit | Source/Octahedron/WeaponDecals.cpp:24-37 | for surfaces [body, concrete], popping the tail keeps the body entry, while removal by index keeps the concrete one |
| Decals.WeaponDecals.constructor | Source/Octahedron/WeaponDecals.cpp:10-15 | empty arrays, no decal system, trigger off, no timer |
| Decals.WeaponDecals.RemoveInvalidSurfaces | Source/Octahedron/WeaponDecals.cpp:24-37 | each array loses as many tail entries as the snapshot has decal-free codes |
| Decals.WeaponDecals.RemoveInvalidSurfacesAt | Source/Octahedron/WeaponDecals.cpp:24-37 | corrected trim: exactly the entries with a decal surface remain in all three arrays, in order |
| Decals.WeaponDecals.WeaponFire | Source/Octahedron/WeaponDecals.cpp:39-78 | stores the trimmed arrays. With a decal asset: the trigger flips, or restarts on a respawn, and the system is active and fed the trimmed arrays. Without one, the system is untouched. Always arms the looping 3 s destroy check |
| Decals.WeaponDecals.CheckDestroyEffect | Source/Octahedron/WeaponDecals.cpp:80-89 | the actor is destroyed exactly when its decal system is gone |
| Impacts.Indices | Source/Octahedron/WeaponImpacts.cpp:28-51 | every listed index holds the code |
| Impacts.IndicesIncreasing | Source/Octahedron/WeaponImpacts.cpp:28-51 | indices are listed in increasing order |
| Impacts.IndicesComplete | Source/Octahedron/WeaponImpacts.cpp:28-51 | every index holding the code is listed |
| Impacts.BucketsTakeRoutedCodes | Source/Octahedron/WeaponImpacts.cpp:28-51 | the three buckets together take exactly the entries with codes 1-3, never more than the input |
| Impacts.BucketIsPick | Source/Octahedron/WeaponImpacts.cpp:28-51 | a bucket is exactly the values at its code's indices, in index order |
| Impacts.DamageInfoFor | Source/Octahedron/WeaponImpacts.cpp:124-145 | one damage-info entry per body hit: its position and a damage of 12 |
| Impacts.PlacedAt | Source/Octahedron/WeaponImpacts.cpp:74-85 | the result is always an active system at the location: one that is gone or inactive is replaced by a fresh `Spawned` system there, and an active one keeps its data and is moved there |
| Impacts.SurfaceSystemAfterShot | Source/Octahedron/WeaponImpacts.cpp:70-95 | an empty bucket, or no asset, leaves the system unchanged. Otherwise the system is active, placed at the FIRST impact, and fed the whole bucket and the muzzle |
| Impacts.DamageNumberShown | Source/Octahedron/WeaponImpacts.cpp:146-163 | an active system placed at the first body hit, no crit; the payload is DamageInfoFor of the body hits, one entry per hit, each carrying the body-hit damage |
| Impacts.WeaponImpacts.constructor | Source/Octahedron/WeaponImpacts.cpp:14-19 | empty buckets, no systems, no timer |
| Impacts.WeaponImpacts.SplitArrayBySurface | Source/Octahedron/WeaponImpacts.cpp:28-51 | each bucket grows by exactly the bucket of its code, for positions and normals alike |
| Impacts.WeaponImpacts.WeaponFire | Source/Octahedron/WeaponImpacts.cpp:53-172 | stores the inputs and arms the one-shot 3 s check. Concrete and glass follow SurfaceSystemAfterShot of their buckets. Sparks sit at the last body hit; damage numbers show only when locally controlled. The buckets end empty |
| Impacts.WeaponImpacts.ShotFx | Source/Octahedron/WeaponImpacts.cpp:66-171 | the same effects over the stored arrays, and the buckets end empty |
| Impacts.WeaponImpacts.SurfaceFx | Source/Octahedron/WeaponImpacts.cpp:70-164 | the concrete, glass and body blocks over the filled buckets |
| Impacts.WeaponImpacts.ClearBuckets | Source/Octahedron/WeaponImpacts.cpp:166-171 | every bucket is empty |
| Impacts.WeaponImpacts.ConcreteImpactFx | Source/Octahedron/WeaponImpacts.cpp:70-95 | the concrete system is SurfaceSystemAfterShot of the concrete bucket |
| Impacts.WeaponImpacts.GlassImpactFx | Source/Octahedron/WeaponImpacts.cpp:97-122 | the glass system is SurfaceSystemAfterShot of the glass bucket |
| Impacts.WeaponImpacts.BodyImpactFx | Source/Octahedron/WeaponImpacts.cpp:124-164 | with body hits: sparks are spawned at the last body hit (when the asset exists), and damage numbers are shown (when the asset exists and the owner is locally controlled); otherwise both are unchanged |
| Impacts.WeaponImpacts.CheckDestroyEffect | Source/Octahedron/WeaponImpacts.cpp:174-183 | the actor is destroyed exactly when none of its four systems is left |
| Locomotion.Clamp | Source/Octahedron/OctahedronCharacter.cpp:323 | the result lies within the bounds, and a value already inside is unchanged |
| Locomotion.NormalizeToRange | Source/Octahedron/OctahedronCharacter.cpp:322 | 0 at the lower bound and 1 at the upper; an empty range answers 0 below it and 1 otherwise |
| Locomotion.NormalizeToRangeMonotone | Source/Octahedron/OctahedronCharacter.cpp:322 | the normalised value grows with the input |
| Locomotion.CrouchWalkSpeed | Source/Octahedron/OctahedronCharacter.cpp:231-233 | the base speed when standing and half of it fully crouched; between the two for a blend in [0, 1] |
| Locomotion.CrouchCapsuleHalfHeight | Source/Octahedron/OctahedronCharacter.cpp:235-237 | the stand height when standing and the crouch height fully crouched; between the two for a blend in [0, 1] |
| Locomotion.CrouchBlendMonotone | Source/Octahedron/OctahedronCharacter.cpp:228-238 | a deeper crouch never raises the speed cap or the capsule |
| Locomotion.CoyoteDuration | Source/Octahedron/OctahedronCharacter.cpp:322-325 | between a quarter of the coyote time and all of it; the full time at or above walk speed; a quarter when still |
| Locomotion.CoyoteDurationMonotone | Source/Octahedron/OctahedronCharacter.cpp:322-325 | a faster fall never gets a shorter window |
| Locomotion.CoyoteWindowNeverCloses | Source/Octahedron/OctahedronCharacter.cpp:326 | as written, the looping timer stays armed after any number of expiries, so a jump stays allowed during the whole fall |
| Locomotion.CoyoteWindowClosesOnExpiry | Source/Octahedron/OctahedronCharacter.cpp:326 | corrected one-shot timer: open until its first expiry, then closed, leaving the jump to the base rule |
| Locomotion.OctahedronCharacter.constructor | Source/Octahedron/OctahedronCharacter.h:237-238 | stand height 96, crouch height 55, coyote time 0.35; standing, no timers; the speed cap is the movement component's own initial setting, a parameter, until the crouch blend first writes it |
| Locomotion.OctahedronCharacter.CrouchTLCallback | Source/Octahedron/OctahedronCharacter.cpp:228-238 | the speed cap and capsule follow the blend, and stay within their standing and crouched bounds |
| Locomotion.OctahedronCharacter.CustomCrouch | Source/Octahedron/OctahedronCharacter.cpp:240-246 | the stand-up probe is cancelled and the blend plays forward |
| Locomotion.OctahedronCharacter.ReleaseCrouch | Source/Octahedron/OctahedronCharacter.cpp:248-251 | one looping 30 Hz probe is armed, whatever was scheduled before |
| Locomotion.OctahedronCharacter.StandUp | Source/Octahedron/OctahedronCharacter.cpp:284-287 | the blend reverses |
| Locomotion.OctahedronCharacter.OnCheckCanStand | Source/Octahedron/OctahedronCharacter.cpp:253-282 | the character stands and the probe stops exactly when it is clear overhead or falling; otherwise nothing changes |
| Locomotion.OctahedronCharacter.UnCrouchTimerFires | Source/Octahedron/OctahedronCharacter.cpp:250 | the probe keeps polling iff the character is stuck and not falling. When clear overhead or falling, the crouch blend reverses and the probe timer is cleared; otherwise both are unchanged |
| Locomotion.OctahedronCharacter.OnMovementModeChanged | Source/Octahedron/OctahedronCharacter.cpp:316-328 | entering Falling arms a looping coyote timer whose rate is in [0.25·CoyoteTime, CoyoteTime]; other modes leave it alone |
| Locomotion.OctahedronCharacter.Landed | Source/Octahedron/OctahedronCharacter.cpp:330-338 | the coyote window closes |
| Locomotion.OctahedronCharacter.OnJumped | Source/Octahedron/OctahedronCharacter.cpp:340-348 | the coyote window closes |
| Locomotion.OctahedronCharacter.CoyoteTimerFires | Source/Octahedron/OctahedronCharacter.cpp:359-362 | the callback does nothing; the handle behaves as an expired timer |
| Locomotion.OctahedronCharacter.CanJumpInternal | Source/Octahedron/OctahedronCharacter.cpp:350-357 | a pending probe always denies the jump; with none pending, an open coyote window always allows it; with the window closed, the base rule decides |

## Left out

- Engine timers run as explicit expiry methods: time, tick order and timer rates firing more than once per frame are not modelled.
- Physics queries are inputs to the model: the camera and muzzle line traces, the random cone spread, and the stand-up sphere sweep.
- Also inputs: the physical-material surface lookup, which arrives as an integer per hit.
- Effect systems finishing on their own is an engine event the model does not have. A system's `active` flag never turns false, and an `NC_*` field never returns to no system. So `CheckDestroyEffect` destroys only an actor whose systems were never spawned.
- Projectile spawning is reduced to a `Projectile` result. Its spawn transform and collision handling are not modelled.
- Effect systems and presentation are not modelled beyond the parameters recorded in `DecalSystem` and `ImpactSystem`:
  - the Niagara systems;
  - `AWeaponFX`, including tracers, muzzle flash and shell ejection (`WeaponFX.cpp` is not part of this model);
  - `AWeaponSounds`;
  - camera shake;
  - the camera dip: `Landed` calls `LandingDip()` and `OnJumped` calls `Dip()`, driven by the `DipTL` timeline that the constructor builds (`OctahedronCharacter.cpp` lines 96-111);
  - the fire-animation delegate.
- On-demand spawning of the decal and impact actors is not modelled: the weapon component is given both actors at construction.
  - The declarations of these actor pointers are commented out in `TP_WeaponComponent.h`.
  - So the model does not decide what happens when a hitscan shot with no blocking hit reaches an impact actor that was never spawned.
- Recoil and aim-down-sights maths are not modelled: `RecoilTick`, `RecoveryStart`, `RecoveryTimerFunction`, `ADSTLCallback`, timeline play rates, `ForceStopSprint`.
- Montage playback and hand-IK flags are not modelled; `CancelReload` only stops a montage and calls `Stop`, and is not modelled.
- `Stow` has an empty body and is not modelled.
- Input binding (`AttachWeapon`, `SetupPlayerInputComponent`), `BeginPlay` and `EndPlay` are not modelled.
- `EFireMode.h` is not part of this model. The three modes are taken from the `switch` in `SwitchFireMode`.
- Sprint, slide, jump charges and magazine counts are outside the modelled core and are not modelled. This includes the weapon's call to `ForceStopSprint` when reloading.
- Impacts.Bucket: total, so it skips indices beyond the value array. Every caller requires the routed indices to be in range, where it is exactly the source's bucket.
- FireControl.WeaponComponent.constructor: requires a positive `FireRate`. The source divides by it unguarded.
- FireControl.WeaponComponent.Fire: the fire-rate timer query is an input (`rateTimerRunning`), because when a handler runs from the timer's own expiry, the engine's reading of that timer is not part of this model.
- FireControl.WeaponComponent.RecoilTimerFires: the source pauses the recoil timer, and the model clears it. Either way, the timer is no longer active. A paused timer's remaining time, and any later unpause, are not modelled.
- Numeric widths are not modelled: `int32` surface codes and counters are unbounded integers, and `float` is exact `real`.

## Findings

| source | as written | input that shows it | evidently intended | confidence | as-written member | corrected member |
|---|---|---|---|---|---|---|
| Source/Octahedron/WeaponDecals.cpp:27-35 | for each decal-free code in the snapshot, all three arrays `Pop()` their LAST entry | surfaces [1, 2]: the body entry is kept and the concrete entry is dropped | remove entry `i` itself, so exactly the entries with a decal surface remain | high, not executed | Decals.TailTrimKeepsBodyHit | Decals.WeaponDecals.RemoveInvalidSurfacesAt |
| Source/Octahedron/OctahedronCharacter.cpp:326 | the coyote timer is armed looping, and its callback `CoyoteTimePassed` (359-362) is empty | any fall with no landing and no jump: the timer stays active after every expiry, so `CanJumpInternal` allows a jump throughout the fall | a one-shot window that closes at its first expiry | medium, not executed | Locomotion.CoyoteWindowNeverCloses | Locomotion.CoyoteWindowClosesOnExpiry |
