/**
 * The impact actor (`AWeaponImpacts`): it sorts one shot's impacts into body,
 * concrete and glass buckets by surface code, drives one Niagara system per
 * surface kind plus a damage-number system, and empties the buckets again.
 */
module Impacts {
  import opened Geometry
  import opened Timing

  const BodySurface: int := 1
  const ConcreteSurface: int := 2
  const GlassSurface: int := 3

  /** Fourth component of every damage-info entry: the damage shown for a body hit. */
  const BodyHitDamage: real := 12.0

  /** The indices of `s` that hold code `c`, in increasing order. */
  function Indices(s: seq<int>, c: int): (r: seq<nat>)
    ensures |r| <= |s|
    ensures forall k :: 0 <= k < |r| ==> r[k] < |s| && s[r[k]] == c
  {
    if s == [] then []
    else Indices(s[..|s| - 1], c) + (if s[|s| - 1] == c then [|s| - 1] else [])
  }

  lemma {:induction false} IndicesIncreasing(s: seq<int>, c: int)
    ensures forall j, k :: 0 <= j < k < |Indices(s, c)| ==> Indices(s, c)[j] < Indices(s, c)[k]
  {
    if s != [] {
      IndicesIncreasing(s[..|s| - 1], c);
    }
  }

  lemma {:induction false} IndicesComplete(s: seq<int>, c: int)
    ensures forall i :: 0 <= i < |s| && s[i] == c ==> i in Indices(s, c)
  {
    if s != [] {
      var init := s[..|s| - 1];
      IndicesComplete(init, c);
      forall i | 0 <= i < |s| - 1 && s[i] == c
        ensures i in Indices(s, c)
      {
        assert init[i] == s[i];
      }
    }
  }

  /** The number of codes in `s` that a bucket takes (body, concrete or glass). */
  function CountRouted(s: seq<int>): nat
  {
    if s == [] then 0
    else CountRouted(s[..|s| - 1]) + (if BodySurface <= s[|s| - 1] <= GlassSurface then 1 else 0)
  }

  lemma {:induction false} BucketsTakeRoutedCodes(s: seq<int>)
    ensures |Indices(s, BodySurface)| + |Indices(s, ConcreteSurface)| + |Indices(s, GlassSurface)|
            == CountRouted(s)
    ensures CountRouted(s) <= |s|
  {
    if s != [] {
      BucketsTakeRoutedCodes(s[..|s| - 1]);
    }
  }

  /** Every index a bucket reads (codes 1 to 3) exists in an array of length `len`. */
  predicate RoutedIndicesBelow(s: seq<int>, len: int)
  {
    forall i :: 0 <= i < |s| && BodySurface <= s[i] <= GlassSurface ==> i < len
  }

  /** Every index of `s` holding code `c` exists in an array of length `len`. */
  predicate CodeIndicesBelow(s: seq<int>, c: int, len: int)
  {
    forall i :: 0 <= i < |s| && s[i] == c ==> i < len
  }

  /** The entries of `v` at the indices `idx`, in that order. */
  function Pick<T>(v: seq<T>, idx: seq<nat>): (r: seq<T>)
    requires forall k :: 0 <= k < |idx| ==> idx[k] < |v|
    ensures |r| == |idx|
  {
    seq(|idx|, k requires 0 <= k < |idx| => v[idx[k]])
  }

  /** The bucket for code `c`: the entries of `v` whose index holds `c` in `s`, scanned in index order. */
  function Bucket<T>(s: seq<int>, v: seq<T>, c: int): seq<T>
  {
    if s == [] then []
    else Bucket(s[..|s| - 1], v, c) + (if s[|s| - 1] == c && |s| - 1 < |v| then [v[|s| - 1]] else [])
  }

  /** One more scanned index extends a bucket (and anything before it) by at most that index's entry. */
  lemma BucketSnoc<T>(acc: seq<T>, s: seq<int>, v: seq<T>, c: int, i: nat)
    requires i < |s| && (s[i] == c ==> i < |v|)
    ensures acc + Bucket(s[..i + 1], v, c) == acc + Bucket(s[..i], v, c) + (if s[i] == c then [v[i]] else [])
  {
    assert s[..i + 1][..i] == s[..i];
  }

  /**
   * A bucket is exactly the values at `Indices(s, c)`: with IndicesIncreasing
   * and IndicesComplete, it holds every entry of its code, in the original
   * order, and nothing else.
   */
  lemma {:induction false} BucketIsPick<T>(s: seq<int>, v: seq<T>, c: int)
    requires CodeIndicesBelow(s, c, |v|)
    ensures forall k :: 0 <= k < |Indices(s, c)| ==> Indices(s, c)[k] < |v|
    ensures Bucket(s, v, c) == Pick(v, Indices(s, c))
  {
    if s != [] {
      var init := s[..|s| - 1];
      assert CodeIndicesBelow(init, c, |v|);
      BucketIsPick(init, v, c);
    }
  }

  /** The damage-number payload: one entry per body hit, its position and the damage. */
  function DamageInfoFor(bodyImpacts: seq<Vec>): (info: seq<Vec4>)
    ensures |info| == |bodyImpacts|
    ensures forall i :: 0 <= i < |info| ==>
              info[i] == Vec4(bodyImpacts[i].x, bodyImpacts[i].y, bodyImpacts[i].z, BodyHitDamage)
  {
    if bodyImpacts == [] then []
    else
      var last := bodyImpacts[|bodyImpacts| - 1];
      DamageInfoFor(bodyImpacts[..|bodyImpacts| - 1]) + [Vec4(last.x, last.y, last.z, BodyHitDamage)]
  }

  /** A Niagara system the actor drives, as the parameters it last gave it. */
  datatype ImpactSystem =
    | NoSystem
    | ImpactSystem(active: bool, location: Vec, positions: seq<Vec>, normals: seq<Vec>,
                   numberOfHits: int, muzzlePosition: Vec, damageInfo: seq<Vec4>, crit: bool)

  /** `SpawnSystemAtLocation`: a fresh, auto-activated system at `location`. */
  function Spawned(location: Vec): ImpactSystem
  {
    ImpactSystem(true, location, [], [], 0, Origin, [], false)
  }

  /** `!IsValid(nc) || !nc->IsActive()`: a new system is spawned rather than moved. */
  predicate ImpactNeedsSpawn(nc: ImpactSystem)
  {
    nc.NoSystem? || !nc.active
  }

  /**
   * The system after being pointed at `location`: spawned there when it is
   * gone or inactive, otherwise moved there (`SetWorldLocation`).
   */
  function PlacedAt(nc: ImpactSystem, location: Vec): (r: ImpactSystem)
    ensures r.ImpactSystem? && r.location == location && r.active
    ensures ImpactNeedsSpawn(nc) ==> r == Spawned(location)
    ensures !ImpactNeedsSpawn(nc) ==> r == nc.(location := location)
  {
    if ImpactNeedsSpawn(nc) then Spawned(location) else nc.(location := location)
  }

  /**
   * A concrete or glass system after one shot whose bucket for its surface is
   * `impacts`: placed at the FIRST impact only (the loop body runs once and
   * breaks), fed the whole bucket, and activated.
   */
  function SurfaceSystemAfterShot(nc: ImpactSystem, hasFx: bool, impacts: seq<Vec>, normals: seq<Vec>,
                                  muzzle: Vec): (r: ImpactSystem)
    ensures impacts == [] || !hasFx ==> r == nc
    ensures impacts != [] && hasFx ==>
              r.ImpactSystem? && r.active && r.location == impacts[0] && r.positions == impacts
              && r.normals == normals && r.numberOfHits == |impacts| && r.muzzlePosition == muzzle
  {
    if impacts != [] && hasFx then
      var placed := PlacedAt(nc, impacts[0]);
      placed.(positions := impacts, normals := normals, numberOfHits := |impacts|,
              muzzlePosition := muzzle, active := true)
    else nc
  }

  /** The damage-number system after showing `body`: placed at the first body hit, fed one entry per hit, no crit. */
  function DamageNumberShown(nc: ImpactSystem, body: seq<Vec>): (r: ImpactSystem)
    requires body != []
    ensures r.ImpactSystem? && r.active && r.location == body[0] && !r.crit
    ensures |r.damageInfo| == |body| && forall i :: 0 <= i < |body| ==> r.damageInfo[i].w == BodyHitDamage
    ensures r.damageInfo == DamageInfoFor(body)
  {
    var placed := PlacedAt(nc, body[0]);
    placed.(damageInfo := DamageInfoFor(body), crit := false)
  }

  /** Delay of the one-shot self-destruct check armed by each shot (seconds). */
  const DestroyCheckDelay: real := 3.0

  class WeaponImpacts {
    /** Which effect assets are configured (`IsValid(...Impact_FX)`, `IsValid(DamageNumber_FX)`). */
    const HasConcreteFx: bool
    const HasGlassFx: bool
    const HasCharacterSparksFx: bool
    const HasDamageNumberFx: bool

    var ImpactPositions: seq<Vec>
    var ImpactNormals: seq<Vec>
    var ImpactSurfaces: seq<int>
    var MuzzlePosition: Vec

    var BodyImpacts: seq<Vec>
    var BodyNormals: seq<Vec>
    var ConcreteImpacts: seq<Vec>
    var ConcreteNormals: seq<Vec>
    var GlassImpacts: seq<Vec>
    var GlassNormals: seq<Vec>

    var NC_Concrete: ImpactSystem
    var NC_Glass: ImpactSystem
    var NC_CharacterSparks: ImpactSystem
    var NC_DamageNumber: ImpactSystem

    var CheckDestroyEffectTimer: Timer
    var Destroyed: bool

    /** Between shots every bucket is empty. */
    predicate BucketsEmpty()
      reads this
    {
      BodyImpacts == [] && BodyNormals == [] && ConcreteImpacts == [] && ConcreteNormals == []
      && GlassImpacts == [] && GlassNormals == []
    }

    constructor (hasConcreteFx: bool, hasGlassFx: bool, hasCharacterSparksFx: bool, hasDamageNumberFx: bool)
      ensures HasConcreteFx == hasConcreteFx && HasGlassFx == hasGlassFx
      ensures HasCharacterSparksFx == hasCharacterSparksFx && HasDamageNumberFx == hasDamageNumberFx
      ensures BucketsEmpty()
      ensures NC_Concrete == NoSystem && NC_Glass == NoSystem
      ensures NC_CharacterSparks == NoSystem && NC_DamageNumber == NoSystem
      ensures CheckDestroyEffectTimer == Cleared && !Destroyed
    {
      HasConcreteFx, HasGlassFx := hasConcreteFx, hasGlassFx;
      HasCharacterSparksFx, HasDamageNumberFx := hasCharacterSparksFx, hasDamageNumberFx;
      ImpactPositions, ImpactNormals, ImpactSurfaces, MuzzlePosition := [], [], [], Origin;
      BodyImpacts, BodyNormals := [], [];
      ConcreteImpacts, ConcreteNormals := [], [];
      GlassImpacts, GlassNormals := [], [];
      NC_Concrete, NC_Glass, NC_CharacterSparks, NC_DamageNumber := NoSystem, NoSystem, NoSystem, NoSystem;
      CheckDestroyEffectTimer := Cleared;
      Destroyed := false;
    }

    /**
     * Appends each impact to the bucket of its surface (1 body, 2 concrete,
     * 3 glass; other codes are dropped), scanning the surfaces in index order.
     * Position and normal buckets read the same indices, so they stay aligned.
     */
    method SplitArrayBySurface()
      requires RoutedIndicesBelow(ImpactSurfaces, |ImpactPositions|)
      requires RoutedIndicesBelow(ImpactSurfaces, |ImpactNormals|)
      modifies this`BodyImpacts, this`BodyNormals, this`ConcreteImpacts, this`ConcreteNormals,
               this`GlassImpacts, this`GlassNormals
      ensures BodyImpacts == old(BodyImpacts) + Bucket(ImpactSurfaces, ImpactPositions, BodySurface)
      ensures BodyNormals == old(BodyNormals) + Bucket(ImpactSurfaces, ImpactNormals, BodySurface)
      ensures ConcreteImpacts == old(ConcreteImpacts) + Bucket(ImpactSurfaces, ImpactPositions, ConcreteSurface)
      ensures ConcreteNormals == old(ConcreteNormals) + Bucket(ImpactSurfaces, ImpactNormals, ConcreteSurface)
      ensures GlassImpacts == old(GlassImpacts) + Bucket(ImpactSurfaces, ImpactPositions, GlassSurface)
      ensures GlassNormals == old(GlassNormals) + Bucket(ImpactSurfaces, ImpactNormals, GlassSurface)
    {
      ghost var surfaces := ImpactSurfaces;
      assert surfaces[..0] == [];
      var i := 0;
      while i < |ImpactSurfaces|
        invariant 0 <= i <= |ImpactSurfaces|
        invariant BodyImpacts == old(BodyImpacts) + Bucket(surfaces[..i], ImpactPositions, BodySurface)
        invariant BodyNormals == old(BodyNormals) + Bucket(surfaces[..i], ImpactNormals, BodySurface)
        invariant ConcreteImpacts == old(ConcreteImpacts) + Bucket(surfaces[..i], ImpactPositions, ConcreteSurface)
        invariant ConcreteNormals == old(ConcreteNormals) + Bucket(surfaces[..i], ImpactNormals, ConcreteSurface)
        invariant GlassImpacts == old(GlassImpacts) + Bucket(surfaces[..i], ImpactPositions, GlassSurface)
        invariant GlassNormals == old(GlassNormals) + Bucket(surfaces[..i], ImpactNormals, GlassSurface)
      {
        BucketSnoc(old(BodyImpacts), surfaces, ImpactPositions, BodySurface, i);
        BucketSnoc(old(BodyNormals), surfaces, ImpactNormals, BodySurface, i);
        BucketSnoc(old(ConcreteImpacts), surfaces, ImpactPositions, ConcreteSurface, i);
        BucketSnoc(old(ConcreteNormals), surfaces, ImpactNormals, ConcreteSurface, i);
        BucketSnoc(old(GlassImpacts), surfaces, ImpactPositions, GlassSurface, i);
        BucketSnoc(old(GlassNormals), surfaces, ImpactNormals, GlassSurface, i);
        match ImpactSurfaces[i] {
          case 1 =>
            BodyImpacts := BodyImpacts + [ImpactPositions[i]];
            BodyNormals := BodyNormals + [ImpactNormals[i]];
          case 2 =>
            ConcreteImpacts := ConcreteImpacts + [ImpactPositions[i]];
            ConcreteNormals := ConcreteNormals + [ImpactNormals[i]];
          case 3 =>
            GlassImpacts := GlassImpacts + [ImpactPositions[i]];
            GlassNormals := GlassNormals + [ImpactNormals[i]];
          case _ =>
        }
        i := i + 1;
      }
      assert surfaces[..i] == surfaces;
    }

    /**
     * One shot's impacts: arm the self-destruct check, split into buckets,
     * drive the concrete and glass systems once each, spawn sparks per body
     * hit and show the damage numbers, then empty every bucket.
     * `ownerLocallyControlled` is the engine query "the weapon is set and its
     * owning character is locally controlled".
     */
    method WeaponFire(inImpactPositions: seq<Vec>, inImpactNormals: seq<Vec>, inImpactSurfaces: seq<int>,
                      inMuzzlePosition: Vec, ownerLocallyControlled: bool)
      requires BucketsEmpty()
      requires RoutedIndicesBelow(inImpactSurfaces, |inImpactPositions|)
      requires RoutedIndicesBelow(inImpactSurfaces, |inImpactNormals|)
      modifies this`CheckDestroyEffectTimer, this`ImpactPositions, this`ImpactNormals, this`ImpactSurfaces,
               this`MuzzlePosition,
               this`BodyImpacts, this`BodyNormals, this`ConcreteImpacts, this`ConcreteNormals,
               this`GlassImpacts, this`GlassNormals,
               this`NC_Concrete, this`NC_Glass, this`NC_CharacterSparks, this`NC_DamageNumber
      ensures BucketsEmpty()
      ensures ImpactPositions == inImpactPositions && ImpactNormals == inImpactNormals
      ensures ImpactSurfaces == inImpactSurfaces && MuzzlePosition == inMuzzlePosition
      ensures CheckDestroyEffectTimer == Armed(DestroyCheckDelay, false)
      ensures NC_Concrete
              == SurfaceSystemAfterShot(old(NC_Concrete), HasConcreteFx,
                                        Bucket(ImpactSurfaces, ImpactPositions, ConcreteSurface),
                                        Bucket(ImpactSurfaces, ImpactNormals, ConcreteSurface),
                                        MuzzlePosition)
      ensures NC_Glass
              == SurfaceSystemAfterShot(old(NC_Glass), HasGlassFx,
                                        Bucket(ImpactSurfaces, ImpactPositions, GlassSurface),
                                        Bucket(ImpactSurfaces, ImpactNormals, GlassSurface),
                                        MuzzlePosition)
      ensures var body := Bucket(ImpactSurfaces, ImpactPositions, BodySurface);
              NC_CharacterSparks
              == if body != [] && HasCharacterSparksFx then Spawned(body[|body| - 1]) else old(NC_CharacterSparks)
      ensures var body := Bucket(ImpactSurfaces, ImpactPositions, BodySurface);
              NC_DamageNumber
              == if body != [] && HasDamageNumberFx && ownerLocallyControlled
                 then DamageNumberShown(old(NC_DamageNumber), body)
                 else old(NC_DamageNumber)
      ensures Destroyed == old(Destroyed)
    {
      CheckDestroyEffectTimer := Armed(DestroyCheckDelay, false);

      ImpactPositions := inImpactPositions;
      ImpactNormals := inImpactNormals;
      ImpactSurfaces := inImpactSurfaces;
      MuzzlePosition := inMuzzlePosition;

      ShotFx(ownerLocallyControlled);
    }

    /** The part of WeaponFire after the inputs are stored: split, drive every system, empty the buckets. */
    method ShotFx(ownerLocallyControlled: bool)
      requires BucketsEmpty()
      requires RoutedIndicesBelow(ImpactSurfaces, |ImpactPositions|)
      requires RoutedIndicesBelow(ImpactSurfaces, |ImpactNormals|)
      modifies this`BodyImpacts, this`BodyNormals, this`ConcreteImpacts, this`ConcreteNormals,
               this`GlassImpacts, this`GlassNormals,
               this`NC_Concrete, this`NC_Glass, this`NC_CharacterSparks, this`NC_DamageNumber
      ensures BucketsEmpty()
      ensures NC_Concrete
              == SurfaceSystemAfterShot(old(NC_Concrete), HasConcreteFx,
                                        Bucket(ImpactSurfaces, ImpactPositions, ConcreteSurface),
                                        Bucket(ImpactSurfaces, ImpactNormals, ConcreteSurface),
                                        MuzzlePosition)
      ensures NC_Glass
              == SurfaceSystemAfterShot(old(NC_Glass), HasGlassFx,
                                        Bucket(ImpactSurfaces, ImpactPositions, GlassSurface),
                                        Bucket(ImpactSurfaces, ImpactNormals, GlassSurface),
                                        MuzzlePosition)
      ensures var body := Bucket(ImpactSurfaces, ImpactPositions, BodySurface);
              NC_CharacterSparks
              == if body != [] && HasCharacterSparksFx then Spawned(body[|body| - 1]) else old(NC_CharacterSparks)
      ensures var body := Bucket(ImpactSurfaces, ImpactPositions, BodySurface);
              NC_DamageNumber
              == if body != [] && HasDamageNumberFx && ownerLocallyControlled
                 then DamageNumberShown(old(NC_DamageNumber), body)
                 else old(NC_DamageNumber)
    {
      SplitArrayBySurface();
      SurfaceFx(ownerLocallyControlled);

      ClearBuckets();
    }

    /** The concrete, glass and body blocks of WeaponFire, in source order, over the filled buckets. */
    method SurfaceFx(ownerLocallyControlled: bool)
      modifies this`NC_Concrete, this`NC_Glass, this`NC_CharacterSparks, this`NC_DamageNumber
      ensures NC_Concrete
              == SurfaceSystemAfterShot(old(NC_Concrete), HasConcreteFx, ConcreteImpacts, ConcreteNormals,
                                        MuzzlePosition)
      ensures NC_Glass
              == SurfaceSystemAfterShot(old(NC_Glass), HasGlassFx, GlassImpacts, GlassNormals, MuzzlePosition)
      ensures NC_CharacterSparks
              == if BodyImpacts != [] && HasCharacterSparksFx then Spawned(BodyImpacts[|BodyImpacts| - 1])
                 else old(NC_CharacterSparks)
      ensures NC_DamageNumber
              == if BodyImpacts != [] && HasDamageNumberFx && ownerLocallyControlled
                 then DamageNumberShown(old(NC_DamageNumber), BodyImpacts)
                 else old(NC_DamageNumber)
    {
      ConcreteImpactFx();
      GlassImpactFx();
      BodyImpactFx(ownerLocallyControlled);
    }

    /** The six `Empty()` calls that end WeaponFire. */
    method ClearBuckets()
      modifies this`BodyImpacts, this`BodyNormals, this`GlassImpacts, this`GlassNormals,
               this`ConcreteImpacts, this`ConcreteNormals
      ensures BucketsEmpty()
    {
      BodyImpacts := [];
      BodyNormals := [];
      GlassImpacts := [];
      GlassNormals := [];
      ConcreteImpacts := [];
      ConcreteNormals := [];
    }

    /** The concrete block of WeaponFire: a loop over the bucket whose body runs once and breaks. */
    method ConcreteImpactFx()
      modifies this`NC_Concrete
      ensures NC_Concrete
              == SurfaceSystemAfterShot(old(NC_Concrete), HasConcreteFx, ConcreteImpacts, ConcreteNormals,
                                        MuzzlePosition)
    {
      for i := 0 to |ConcreteImpacts|
        invariant i == 0 && NC_Concrete == old(NC_Concrete)
      {
        var concreteImpact := ConcreteImpacts[i];
        if HasConcreteFx {
          if ImpactNeedsSpawn(NC_Concrete) {
            NC_Concrete := Spawned(concreteImpact);
          } else {
            NC_Concrete := NC_Concrete.(location := concreteImpact);
          }
          NC_Concrete := NC_Concrete.(positions := ConcreteImpacts, normals := ConcreteNormals,
                                      numberOfHits := |ConcreteImpacts|, muzzlePosition := MuzzlePosition);
          NC_Concrete := NC_Concrete.(active := true);
        }
        break; // only run once
      }
    }

    /** The glass block of WeaponFire: a loop over the bucket whose body runs once and breaks. */
    method GlassImpactFx()
      modifies this`NC_Glass
      ensures NC_Glass
              == SurfaceSystemAfterShot(old(NC_Glass), HasGlassFx, GlassImpacts, GlassNormals, MuzzlePosition)
    {
      for i := 0 to |GlassImpacts|
        invariant i == 0 && NC_Glass == old(NC_Glass)
      {
        var glassImpact := GlassImpacts[i];
        if HasGlassFx {
          if ImpactNeedsSpawn(NC_Glass) {
            NC_Glass := Spawned(glassImpact);
          } else {
            NC_Glass := NC_Glass.(location := glassImpact);
          }
          NC_Glass := NC_Glass.(positions := GlassImpacts, normals := GlassNormals,
                                numberOfHits := |GlassImpacts|, muzzlePosition := MuzzlePosition);
          NC_Glass := NC_Glass.(active := true);
        }
        break; // only run once
      }
    }

    /**
     * The body block of WeaponFire: one damage-info entry and one sparks
     * system per body hit (the field keeps the last one), then the damage
     * numbers at the first body hit.
     */
    method BodyImpactFx(ownerLocallyControlled: bool)
      modifies this`NC_CharacterSparks, this`NC_DamageNumber
      ensures NC_CharacterSparks
              == if BodyImpacts != [] && HasCharacterSparksFx then Spawned(BodyImpacts[|BodyImpacts| - 1])
                 else old(NC_CharacterSparks)
      ensures NC_DamageNumber
              == if BodyImpacts != [] && HasDamageNumberFx && ownerLocallyControlled
                 then DamageNumberShown(old(NC_DamageNumber), BodyImpacts)
                 else old(NC_DamageNumber)
    {
      if |BodyImpacts| > 0 {
        var damageInfoArray: seq<Vec4> := [];
        for i := 0 to |BodyImpacts|
          invariant damageInfoArray == DamageInfoFor(BodyImpacts[..i])
          invariant NC_CharacterSparks
                    == if HasCharacterSparksFx && i > 0 then Spawned(BodyImpacts[i - 1]) else old(NC_CharacterSparks)
          invariant NC_DamageNumber == old(NC_DamageNumber)
        {
          assert BodyImpacts[..i + 1][..i] == BodyImpacts[..i];
          damageInfoArray := damageInfoArray + [Vec4(BodyImpacts[i].x, BodyImpacts[i].y, BodyImpacts[i].z,
                                                     BodyHitDamage)];
          if HasCharacterSparksFx {
            NC_CharacterSparks := Spawned(BodyImpacts[i]);
            NC_CharacterSparks := NC_CharacterSparks.(active := true);
          }
        }
        assert BodyImpacts[..|BodyImpacts|] == BodyImpacts;
        if HasDamageNumberFx && ownerLocallyControlled {
          if ImpactNeedsSpawn(NC_DamageNumber) {
            NC_DamageNumber := Spawned(BodyImpacts[0]);
          } else {
            NC_DamageNumber := NC_DamageNumber.(location := BodyImpacts[0]);
          }
          NC_DamageNumber := NC_DamageNumber.(damageInfo := damageInfoArray);
          NC_DamageNumber := NC_DamageNumber.(crit := false);
        }
      }
    }

    /** The self-destruct check: the actor goes exactly when none of its four systems is left. */
    method CheckDestroyEffect()
      modifies this`Destroyed
      ensures Destroyed
              == (old(Destroyed) || (NC_Concrete.NoSystem? && NC_Glass.NoSystem?
                                     && NC_CharacterSparks.NoSystem? && NC_DamageNumber.NoSystem?))
    {
      if NC_Concrete.ImpactSystem? || NC_Glass.ImpactSystem? || NC_CharacterSparks.ImpactSystem?
         || NC_DamageNumber.ImpactSystem? {
        return;
      } else {
        Destroyed := true;
      }
    }
  }
}
