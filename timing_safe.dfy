/** `timing_safe_strcmp`: compare two C strings without an early exit once
    their lengths agree. */
module TimingSafe {
  import opened CStrings

  /** The accumulator after the first `n` loop iterations: the OR of
      `a[j] ^ b[j]` over every `j < n`. Every bit set in any one of those
      XORs stays set in it: a later byte pair never hides an earlier
      difference. */
  function OrOfXors(a: CStr, b: CStr, n: nat): (r: Byte)
    requires n <= |a| && n <= |b|
    ensures forall j :: 0 <= j < n ==> (a[j] ^ b[j]) & r == a[j] ^ b[j]
  {
    if n == 0 then 0 else OrOfXors(a, b, n - 1) | (a[n - 1] ^ b[n - 1])
  }

  /** The value `timing_safe_strcmp` returns: 1 for a length mismatch,
      otherwise the accumulated OR of XORs. */
  function StrcmpValue(a: CStr, b: CStr): (r: int)
    ensures |a| != |b| ==> r == 1
    ensures 0 <= r <= 255
  {
    if |a| != |b| then 1 else OrOfXors(a, b, |a|) as int
  }

  /** The accumulator is zero exactly when the first `n` byte pairs agree. */
  lemma {:induction false} OrOfXorsZeroIff(a: CStr, b: CStr, n: nat)
    requires n <= |a| && n <= |b|
    ensures OrOfXors(a, b, n) == 0 <==> forall j :: 0 <= j < n ==> a[j] == b[j]
  {
    if n > 0 {
      OrOfXorsZeroIff(a, b, n - 1);
      var x, y := OrOfXors(a, b, n - 1), a[n - 1] ^ b[n - 1];
      assert x | y == 0 <==> x == 0 && y == 0;
      assert y == 0 <==> a[n - 1] == b[n - 1];
    }
  }

  /** The comparison reports equality (zero) exactly for equal strings. */
  lemma StrcmpZeroIffEqual(a: CStr, b: CStr)
    ensures StrcmpValue(a, b) == 0 <==> a == b
  {
    if |a| == |b| {
      OrOfXorsZeroIff(a, b, |a|);
      if StrcmpValue(a, b) == 0 {
        assert forall j :: 0 <= j < |a| ==> a[j] == b[j];
      }
    }
  }

  /** Lengths are compared first; unequal lengths give 1 without reading a
      byte. Otherwise every index is visited exactly once, in order, and the
      OR of the XORs of all byte pairs is returned. `trace` records the
      indices read: it depends on the lengths alone, never on the contents. */
  method TimingSafeStrcmp(a: CStr, b: CStr) returns (r: int, ghost trace: seq<nat>)
    requires FitsInt(a) && FitsInt(b)
    ensures r == StrcmpValue(a, b)
    ensures r == 0 <==> a == b
    ensures 0 <= r <= 255
    ensures |a| != |b| ==> r == 1 && trace == []
    ensures |a| == |b| ==> |trace| == |a| && forall j :: 0 <= j < |a| ==> trace[j] == j
  {
    trace := [];
    var len1, len2 := |a|, |b|;
    if len1 != len2 {
      r := 1;
      StrcmpZeroIffEqual(a, b);
      return;
    }
    var ret: Byte := 0;
    var i := 0;
    while i < len1
      invariant 0 <= i <= len1
      invariant ret == OrOfXors(a, b, i)
      invariant |trace| == i && forall j :: 0 <= j < i ==> trace[j] == j
    {
      ret := ret | (a[i] ^ b[i]);
      trace := trace + [i];
      i := i + 1;
    }
    r := ret as int;
    StrcmpZeroIffEqual(a, b);
  }
}
