/**
 * The impact-decal actor (`AWeaponDecals`): it receives the impacts of one
 * shot, trims the surfaces it does not draw decals on, and hands the arrays to
 * its Niagara system.
 */
module Decals {
  import opened Geometry
  import opened Timing

  /** Surface codes that get no decal: the default surface (0) and bodies (1). */
  predicate IsDecalFree(surface: int)
  {
    surface == 0 || surface == 1
  }

  /** How many codes of `s` are decal-free, i.e. how many times the trim pops. */
  function CountInvalid(s: seq<int>): (n: nat)
    ensures n <= |s|
  {
    if s == [] then 0 else (if IsDecalFree(s[0]) then 1 else 0) + CountInvalid(s[1..])
  }

  lemma {:induction false} CountInvalidAppend(a: seq<int>, b: seq<int>)
    ensures CountInvalid(a + b) == CountInvalid(a) + CountInvalid(b)
  {
    if a == [] {
      assert a + b == b;
    } else {
      assert (a + b)[1..] == a[1..] + b;
      CountInvalidAppend(a[1..], b);
    }
  }

  /** Scanning one more code from the back adds its own count, and a suffix never counts more than the whole. */
  lemma CountInvalidSuffix(s: seq<int>, i: nat)
    requires i < |s|
    ensures CountInvalid(s[i..]) == (if IsDecalFree(s[i]) then 1 else 0) + CountInvalid(s[i + 1..])
    ensures CountInvalid(s[i..]) <= CountInvalid(s)
  {
    assert s[i..][1..] == s[i + 1..];
    assert s[..i] + s[i..] == s;
    CountInvalidAppend(s[..i], s[i..]);
  }

  /** `v` with its last `n` elements popped. */
  function PopN<T>(v: seq<T>, n: nat): (r: seq<T>)
    requires n <= |v|
    ensures |r| == |v| - n
    ensures forall k :: 0 <= k < |r| ==> r[k] == v[k]
  {
    v[..|v| - n]
  }

  /**
   * The elements of `v` at the indices where `s` holds a code that gets a
   * decal: what removing each decal-free entry at its own index leaves.
   */
  function KeptBy<T>(s: seq<int>, v: seq<T>): (r: seq<T>)
    requires |v| == |s|
    ensures |r| == |s| - CountInvalid(s)
  {
    if s == [] then [] else (if IsDecalFree(s[0]) then [] else [v[0]]) + KeptBy(s[1..], v[1..])
  }

  lemma {:induction false} KeptSurfacesGetDecals(s: seq<int>)
    ensures forall k :: 0 <= k < |KeptBy(s, s)| ==> !IsDecalFree(KeptBy(s, s)[k])
  {
    if s != [] {
      KeptSurfacesGetDecals(s[1..]);
    }
  }

  /**
   * The pop-the-tail trim is wrong whenever a drawable surface follows a
   * decal-free one: for the surfaces [body, concrete] it keeps the body entry
   * and drops the concrete one, where removal at the index keeps the concrete one.
   */
  lemma TailTrimKeepsBodyHit()
    ensures CountInvalid([1, 2]) == 1
    ensures PopN([1, 2], CountInvalid([1, 2])) == [1]
    ensures IsDecalFree(PopN([1, 2], CountInvalid([1, 2]))[0])
    ensures KeptBy([1, 2], [1, 2]) == [2]
  {
    assert [1, 2][1..] == [2];
    assert CountInvalid([2]) == 0 by {
      assert [2][1..] == [];
    }
    assert KeptBy([2], [2]) == [2] by {
      assert [2][1..] == [];
    }
  }

  /**
   * One step of the corrected trim: when entry `i` is decal-free, removing it
   * from `cur` (the untouched prefix followed by what has been kept so far)
   * extends the kept part by nothing; otherwise `cur` already has that shape.
   */
  lemma TrimAtStep<T>(s: seq<int>, v: seq<T>, i: nat, cur: seq<T>)
    requires |v| == |s| && i < |s|
    requires cur == v[..i + 1] + KeptBy(s[i + 1..], v[i + 1..])
    ensures (if IsDecalFree(s[i]) then cur[..i] + cur[i + 1..] else cur) == v[..i] + KeptBy(s[i..], v[i..])
  {
    assert s[i..][1..] == s[i + 1..];
    assert v[i..][1..] == v[i + 1..];
    assert v[..i + 1] == v[..i] + [v[i]];
    var rest := KeptBy(s[i + 1..], v[i + 1..]);
    if IsDecalFree(s[i]) {
      assert cur[..i] == v[..i];
      assert cur[i + 1..] == rest;
    } else {
      assert KeptBy(s[i..], v[i..]) == [v[i]] + rest;
    }
  }

  /** The Niagara decal system, as the parameters the actor last gave it. */
  datatype DecalSystem =
    | NoDecalSystem
    | DecalSystem(active: bool, surfaces: seq<int>, positions: seq<Vec>, normals: seq<Vec>,
                  numberOfHits: int, muzzlePosition: Vec, trigger: bool)

  /** `!IsValid(NC_ImpactDecals) || !NC_ImpactDecals->IsActive()`: a new system is spawned. */
  predicate DecalNeedsSpawn(nc: DecalSystem)
  {
    nc.NoDecalSystem? || !nc.active
  }

  /** Interval of the looping self-destruct check armed by each shot (seconds). */
  const DestroyCheckDelay: real := 3.0

  class WeaponDecals {
    /** `IsValid(ImpactDecals_FX)`: a decal effect asset is configured. */
    const HasImpactDecalsFx: bool

    var ImpactPositions: seq<Vec>
    var ImpactNormals: seq<Vec>
    var ImpactSurfaces: seq<int>
    var MuzzlePosition: Vec
    var NC_ImpactDecals: DecalSystem
    var ImpactDecalsTrigger: bool
    var CheckDestroyEffectTimer: Timer
    var Destroyed: bool

    constructor (hasImpactDecalsFx: bool)
      ensures HasImpactDecalsFx == hasImpactDecalsFx
      ensures ImpactPositions == [] && ImpactNormals == [] && ImpactSurfaces == []
      ensures NC_ImpactDecals == NoDecalSystem && !ImpactDecalsTrigger
      ensures CheckDestroyEffectTimer == Cleared && !Destroyed
    {
      HasImpactDecalsFx := hasImpactDecalsFx;
      ImpactPositions, ImpactNormals, ImpactSurfaces := [], [], [];
      MuzzlePosition := Origin;
      NC_ImpactDecals := NoDecalSystem;
      ImpactDecalsTrigger := false;
      CheckDestroyEffectTimer := Cleared;
      Destroyed := false;
    }

    /**
     * Walks a snapshot of the surfaces from the back and, once per decal-free
     * code, pops the LAST entry of all three arrays. The effect is that each
     * array loses exactly as many tail entries as the snapshot has decal-free
     * codes; which entries those are does not depend on where the codes were.
     */
    method RemoveInvalidSurfaces()
      requires CountInvalid(ImpactSurfaces) <= |ImpactPositions|
      requires CountInvalid(ImpactSurfaces) <= |ImpactNormals|
      modifies this`ImpactSurfaces, this`ImpactPositions, this`ImpactNormals
      ensures ImpactSurfaces == PopN(old(ImpactSurfaces), CountInvalid(old(ImpactSurfaces)))
      ensures ImpactPositions == PopN(old(ImpactPositions), CountInvalid(old(ImpactSurfaces)))
      ensures ImpactNormals == PopN(old(ImpactNormals), CountInvalid(old(ImpactSurfaces)))
    {
      var localImpactSurfaces := ImpactSurfaces;
      ghost var positions, normals := ImpactPositions, ImpactNormals;
      var i := |localImpactSurfaces| - 1;
      assert localImpactSurfaces[i + 1..] == [];
      while i >= 0
        invariant -1 <= i < |localImpactSurfaces|
        invariant CountInvalid(localImpactSurfaces[i + 1..]) <= CountInvalid(localImpactSurfaces)
        invariant ImpactSurfaces == PopN(localImpactSurfaces, CountInvalid(localImpactSurfaces[i + 1..]))
        invariant ImpactPositions == PopN(positions, CountInvalid(localImpactSurfaces[i + 1..]))
        invariant ImpactNormals == PopN(normals, CountInvalid(localImpactSurfaces[i + 1..]))
      {
        CountInvalidSuffix(localImpactSurfaces, i);
        if IsDecalFree(localImpactSurfaces[i]) {
          PopLastEntry();
        }
        i := i - 1;
      }
      assert localImpactSurfaces[0..] == localImpactSurfaces;
    }

    /** `Pop()` on the three impact arrays together. */
    method PopLastEntry()
      requires ImpactSurfaces != [] && ImpactPositions != [] && ImpactNormals != []
      modifies this`ImpactSurfaces, this`ImpactPositions, this`ImpactNormals
      ensures ImpactSurfaces == old(ImpactSurfaces[..|ImpactSurfaces| - 1])
      ensures ImpactPositions == old(ImpactPositions[..|ImpactPositions| - 1])
      ensures ImpactNormals == old(ImpactNormals[..|ImpactNormals| - 1])
    {
      ImpactSurfaces := ImpactSurfaces[..|ImpactSurfaces| - 1];
      ImpactPositions := ImpactPositions[..|ImpactPositions| - 1];
      ImpactNormals := ImpactNormals[..|ImpactNormals| - 1];
    }

    /** `RemoveAt(i)` on the three impact arrays together. */
    method RemoveEntryAt(i: nat)
      requires i < |ImpactSurfaces| && i < |ImpactPositions| && i < |ImpactNormals|
      modifies this`ImpactSurfaces, this`ImpactPositions, this`ImpactNormals
      ensures ImpactSurfaces == old(ImpactSurfaces[..i] + ImpactSurfaces[i + 1..])
      ensures ImpactPositions == old(ImpactPositions[..i] + ImpactPositions[i + 1..])
      ensures ImpactNormals == old(ImpactNormals[..i] + ImpactNormals[i + 1..])
    {
      ImpactSurfaces := ImpactSurfaces[..i] + ImpactSurfaces[i + 1..];
      ImpactPositions := ImpactPositions[..i] + ImpactPositions[i + 1..];
      ImpactNormals := ImpactNormals[..i] + ImpactNormals[i + 1..];
    }

    /**
     * The trim the loop evidently means: remove each decal-free entry at its
     * own index (`RemoveAt(i)`), so that exactly the entries with a decal
     * surface remain, in their original order.
     */
    method RemoveInvalidSurfacesAt()
      requires |ImpactPositions| == |ImpactSurfaces| && |ImpactNormals| == |ImpactSurfaces|
      modifies this`ImpactSurfaces, this`ImpactPositions, this`ImpactNormals
      ensures ImpactSurfaces == KeptBy(old(ImpactSurfaces), old(ImpactSurfaces))
      ensures ImpactPositions == KeptBy(old(ImpactSurfaces), old(ImpactPositions))
      ensures ImpactNormals == KeptBy(old(ImpactSurfaces), old(ImpactNormals))
      ensures forall k :: 0 <= k < |ImpactSurfaces| ==> !IsDecalFree(ImpactSurfaces[k])
    {
      var localImpactSurfaces := ImpactSurfaces;
      ghost var positions, normals := ImpactPositions, ImpactNormals;
      var i := |localImpactSurfaces| - 1;
      assert localImpactSurfaces[i + 1..] == [] && positions[i + 1..] == [] && normals[i + 1..] == [];
      while i >= 0
        invariant -1 <= i < |localImpactSurfaces|
        invariant ImpactSurfaces
                  == localImpactSurfaces[..i + 1] + KeptBy(localImpactSurfaces[i + 1..], localImpactSurfaces[i + 1..])
        invariant ImpactPositions
                  == positions[..i + 1] + KeptBy(localImpactSurfaces[i + 1..], positions[i + 1..])
        invariant ImpactNormals
                  == normals[..i + 1] + KeptBy(localImpactSurfaces[i + 1..], normals[i + 1..])
      {
        TrimAtStep(localImpactSurfaces, localImpactSurfaces, i, ImpactSurfaces);
        TrimAtStep(localImpactSurfaces, positions, i, ImpactPositions);
        TrimAtStep(localImpactSurfaces, normals, i, ImpactNormals);
        if IsDecalFree(localImpactSurfaces[i]) {
          RemoveEntryAt(i);
        }
        i := i - 1;
      }
      assert localImpactSurfaces[0..] == localImpactSurfaces;
      assert positions[0..] == positions && normals[0..] == normals;
      KeptSurfacesGetDecals(localImpactSurfaces);
    }

    /**
     * Takes one shot's impacts, trims them, and (when a decal asset is
     * configured) respawns the decal system if it is gone or inactive, flips
     * the trigger and passes the trimmed arrays on; then arms the looping
     * self-destruct check.
     */
    method WeaponFire(inImpactPositions: seq<Vec>, inImpactNormals: seq<Vec>, inImpactSurfaces: seq<int>,
                      inMuzzlePosition: Vec)
      requires CountInvalid(inImpactSurfaces) <= |inImpactPositions|
      requires CountInvalid(inImpactSurfaces) <= |inImpactNormals|
      modifies this
      ensures ImpactSurfaces == PopN(inImpactSurfaces, CountInvalid(inImpactSurfaces))
      ensures ImpactPositions == PopN(inImpactPositions, CountInvalid(inImpactSurfaces))
      ensures ImpactNormals == PopN(inImpactNormals, CountInvalid(inImpactSurfaces))
      ensures MuzzlePosition == inMuzzlePosition
      ensures HasImpactDecalsFx ==>
                && ImpactDecalsTrigger == (DecalNeedsSpawn(old(NC_ImpactDecals)) || !old(ImpactDecalsTrigger))
                && NC_ImpactDecals == DecalSystem(true, ImpactSurfaces, ImpactPositions, ImpactNormals,
                                                  |ImpactPositions|, inMuzzlePosition, ImpactDecalsTrigger)
      ensures !HasImpactDecalsFx ==>
                NC_ImpactDecals == old(NC_ImpactDecals) && ImpactDecalsTrigger == old(ImpactDecalsTrigger)
      ensures CheckDestroyEffectTimer == Armed(DestroyCheckDelay, true)
      ensures Destroyed == old(Destroyed)
    {
      ImpactPositions := inImpactPositions;
      ImpactNormals := inImpactNormals;
      ImpactSurfaces := inImpactSurfaces;
      MuzzlePosition := inMuzzlePosition;

      RemoveInvalidSurfaces();

      if HasImpactDecalsFx {
        if DecalNeedsSpawn(NC_ImpactDecals) {
          NC_ImpactDecals := DecalSystem(true, [], [], [], 0, Origin, false);
          ImpactDecalsTrigger := false;
        }
        ImpactDecalsTrigger := !ImpactDecalsTrigger;
        NC_ImpactDecals := NC_ImpactDecals.(surfaces := ImpactSurfaces, positions := ImpactPositions,
                                            normals := ImpactNormals, numberOfHits := |ImpactPositions|,
                                            muzzlePosition := MuzzlePosition, trigger := ImpactDecalsTrigger);
      }

      CheckDestroyEffectTimer := Armed(DestroyCheckDelay, true);
    }

    /** The self-destruct check: the actor goes exactly when its decal system is gone. */
    method CheckDestroyEffect()
      modifies this`Destroyed
      ensures Destroyed == (old(Destroyed) || NC_ImpactDecals.NoDecalSystem?)
    {
      if NC_ImpactDecals.DecalSystem? {
        return;
      } else {
        Destroyed := true;
      }
    }
  }
}
