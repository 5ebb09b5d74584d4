/**
 Byte-to-GiB arithmetic of the IBM provider in machine int64.
 */
module Capacity {
  import opened Basics
  import opened Decimal

  const GIB: int := 0x4000_0000

  /** math.MaxInt64 / GIB: the largest number of whole GiB whose byte count is an int64. */
  const MAX_UNITS: int := 0x1_ffff_ffff

  function Minimum(profile: string): int {
    if profile == "sdp" then 1 else 10
  }

  /** r is the least whole number of GiB that covers both the request and the profile minimum. */
  ghost predicate IsAllocation(profile: string, size: int, r: int) {
    && r % GIB == 0
    && r >= size
    && r >= Minimum(profile) * GIB
    && (forall m: int :: m % GIB == 0 && m >= size && m >= Minimum(profile) * GIB ==> r <= m)
  }

  function Max(a: int, b: int): int {
    if a < b then b else a
  }

  function CeilUnits(size: int): int {
    (size + GIB - 1) / GIB
  }

  /** The capacity the cloud is asked for, or None where the provider rejects the request. */
  function Normalized(profile: string, size: int): Option<int> {
    if size < 0 || size > MAX_UNITS * GIB then None
    else Some(Max(CeilUnits(size), Minimum(profile)) * GIB)
  }

  /** NormalizeCapacity: every intermediate value is checked to stay in int64. */
  method NormalizeCapacity(profile: string, sizeBytes: int64) returns (r: Option<int64>)
    ensures r == Normalized(profile, sizeBytes)
    ensures r.None? <==> sizeBytes < 0 || sizeBytes > MAX_UNITS * GIB
    ensures r.Some? ==> IsAllocation(profile, sizeBytes, r.value)
  {
    if sizeBytes < 0 {
      return None;
    }
    var units: int64 := sizeBytes / GIB;
    if sizeBytes % GIB != 0 {
      units := units + 1;
    }
    var minimum: int64 := 10;
    if profile == "sdp" {
      minimum := 1;
    }
    if units < minimum {
      units := minimum;
    }
    if units > MAX_INT64 / GIB {
      return None;
    }
    var bytes: int64 := units * GIB;
    NormalizedIsAllocation(profile, sizeBytes);
    r := Some(bytes);
  }

  lemma NormalizedIsAllocation(profile: string, size: int)
    requires Normalized(profile, size).Some?
    ensures IsAllocation(profile, size, Normalized(profile, size).value)
  {
    var r := Normalized(profile, size).value;
    forall m: int | m % GIB == 0 && m >= size && m >= Minimum(profile) * GIB
      ensures r <= m
    {
      assert m == (m / GIB) * GIB;
      assert m / GIB >= CeilUnits(size);
    }
  }

  /** The smallest disk is one GiB on sdp and ten on every other profile. */
  lemma SmallestAllocation(profile: string)
    ensures Normalized(profile, 0) == Some((if profile == "sdp" then 1 else 10) * 0x4000_0000)
  {
  }

  /** Larger requests never get smaller disks, and an allocation is its own allocation. */
  lemma NormalizedIsClosure(profile: string, a: int, b: int)
    requires Normalized(profile, a).Some? && Normalized(profile, b).Some?
    ensures a <= b ==> Normalized(profile, a).value <= Normalized(profile, b).value
    ensures Normalized(profile, Normalized(profile, a).value) == Normalized(profile, a)
  {
    var r := Normalized(profile, a).value;
    var units := Max(CeilUnits(a), Minimum(profile));
    assert r == units * GIB && CeilUnits(r) == units;
  }

  /** ExpandVolume's rounding: the addition may wrap, the division truncates. */
  function ExpandUnits(sizeBytes: int64): int {
    QuoTrunc(Wrap64(sizeBytes + (GIB - 1)), GIB)
  }

  /**
   The expand rounding covers a non-negative request exactly when the request is one
   NormalizeCapacity would accept; beyond that the addition wraps to a negative size.
   */
  lemma ExpandCoversRequestIff(size: int64)
    requires size >= 0
    ensures ExpandUnits(size) * GIB >= size <==> size <= MAX_UNITS * GIB
    ensures size > MAX_UNITS * GIB ==> ExpandUnits(size) < 0
    ensures size <= MAX_UNITS * GIB ==> ExpandUnits(size) == CeilUnits(size)
  {
    var sum := size + (GIB - 1);
    if size <= MAX_UNITS * GIB {
      assert sum <= MAX_INT64;
    } else {
      assert Wrap64(sum) == sum - 0x1_0000_0000_0000_0000;
    }
  }

  /** The concrete request at which expansion stops covering what was asked. */
  lemma ExpandWrapsAtMaxInt64()
    ensures ExpandUnits(MAX_INT64) == -MAX_UNITS
  {
  }

  /** Create and expand round alike for every accepted request at or above the minimum. */
  lemma ExpandAgreesWithNormalize(profile: string, size: int64)
    requires Minimum(profile) * GIB <= size <= MAX_UNITS * GIB
    ensures Normalized(profile, size) == Some(ExpandUnits(size) * GIB)
  {
    ExpandCoversRequestIff(size);
  }
}
