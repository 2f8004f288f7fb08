/** The container for the fuse and lock-bit byte values of one MCU
    (de.innot.avreclipse.core.toolinfo.fuses.ByteValues).

    Java's `int` values are unbounded integers here; they are only stored and
    copied, never computed with. The byte count comes from the abstract hook
    `getByteCount()` in the source; here it is a constructor argument. */
module Fuses {
  import opened Common

  /** The IllegalArgumentException thrown by checkIndex. */
  datatype ByteValuesError = InvalidByteIndex(index: int)

  /** The contents of a freshly cleared container: every byte unset (-1). */
  function Unset(n: nat): (s: seq<int>)
    ensures |s| == n
    ensures forall i :: 0 <= i < n ==> s[i] == -1
  {
    seq(n, _ => -1)
  }

  /** s with its first min(|s|, |p|) entries taken from p: the effect of
      copying p over the front of s without growing s. */
  function Overlay(s: seq<int>, p: seq<int>): (r: seq<int>)
    ensures |r| == |s|
    ensures forall i :: 0 <= i < |s| && i < |p| ==> r[i] == p[i]
    ensures forall i :: |p| <= i < |s| ==> r[i] == s[i]
  {
    if |s| <= |p| then p[..|s|] else p + s[|p|..]
  }

  /** java.lang.System.arraycopy(src, 0, dest, 0, count). The source array may
      be the destination itself. */
  method ArrayCopy(src: array<int>, dest: array<int>, count: nat)
    requires count <= src.Length && count <= dest.Length
    modifies dest
    ensures dest[..count] == old(src[..count])
    ensures dest[count..] == old(dest[count..])
  {
    for i := 0 to count
      invariant forall j :: 0 <= j < i ==> dest[j] == old(src[j])
      invariant forall j :: i <= j < dest.Length ==> dest[j] == old(dest[j])
      invariant forall j :: i <= j < src.Length ==> src[j] == old(src[j])
    {
      dest[i] := src[i];
    }
  }

  class ByteValues {
    /** The MCU the values belong to; fixed at construction (getMCUId). */
    const mcuId: string
    const byteCount: nat
    const values: array<int>

    ghost predicate Valid() {
      values.Length == byteCount
    }

    /** A container for mcuid with every one of its byteCount bytes unset. */
    constructor (mcuid: string, byteCount: nat)
      ensures Valid() && fresh(values)
      ensures mcuId == mcuid && this.byteCount == byteCount
      ensures values[..] == Unset(byteCount)
    {
      mcuId := mcuid;
      this.byteCount := byteCount;
      values := new int[byteCount];
      new;
      ClearValues();
    }

    /** The clone constructor: same MCU, same values, in an array of its own. */
    constructor Clone(source: ByteValues)
      requires source.Valid()
      ensures Valid() && fresh(values)
      ensures mcuId == source.mcuId && byteCount == source.byteCount
      ensures values[..] == source.values[..]
    {
      mcuId := source.mcuId;
      byteCount := source.byteCount;
      var copy := new int[source.byteCount];
      ArrayCopy(source.values, copy, source.byteCount);
      values := copy;
    }

    /** A container for mcuid holding byteCount bytes, filled from the front of
        source: longer sources are truncated, shorter ones padded with -1. */
    constructor Retarget(mcuid: string, byteCount: nat, source: ByteValues)
      requires source.Valid()
      ensures Valid() && fresh(values)
      ensures mcuId == mcuid && this.byteCount == byteCount
      ensures values[..] == Overlay(Unset(byteCount), source.values[..])
    {
      mcuId := mcuid;
      this.byteCount := byteCount;
      var a := new int[byteCount];
      for i := 0 to byteCount
        invariant forall j :: 0 <= j < i ==> a[j] == -1
      {
        a[i] := -1;
      }
      var copyCount := Min(byteCount, source.byteCount);
      ghost var padded := a[..];
      ArrayCopy(source.values, a, copyCount);
      forall i | 0 <= i < byteCount
        ensures a[i] == Overlay(padded, source.values[..])[i]
      {
        if i < copyCount {
          assert a[..copyCount][i] == a[i];
        } else {
          assert a[copyCount..][i - copyCount] == a[i];
        }
      }
      assert padded == Unset(byteCount);
      values := a;
    }

    /** setValue: writes one byte after the index check; the value itself is
        not range-checked. */
    method SetValue(index: int, value: int) returns (r: Outcome<ByteValuesError>)
      requires Valid()
      modifies values
      ensures 0 <= index < byteCount ==> r == Pass && values[..] == old(values[..])[index := value]
      ensures !(0 <= index < byteCount) ==> r == Fail(InvalidByteIndex(index)) && values[..] == old(values[..])
    {
      r := CheckIndex(index);
      if r.Pass? {
        values[index] := value;
      }
    }

    /** getValue: reads one byte after the index check. */
    method GetValue(index: int) returns (r: Result<int, ByteValuesError>)
      requires Valid()
      ensures 0 <= index < byteCount ==> r == Success(values[index])
      ensures !(0 <= index < byteCount) ==> r == Failure(InvalidByteIndex(index))
    {
      var check := CheckIndex(index);
      if check.Fail? {
        return Failure(check.error);
      }
      r := Success(values[index]);
    }

    /** setValues: copies min(|newValues|, byteCount) entries from the front of
        newValues; the remaining bytes and any extra source entries are left
        alone. */
    method SetValues(newValues: array<int>)
      requires Valid()
      modifies values
      ensures values[..] == Overlay(old(values[..]), old(newValues[..]))
    {
      var count := Min(newValues.Length, values.Length);
      ArrayCopy(newValues, values, count);
    }

    /** getValues: a new array with the current values. */
    method GetValues() returns (copy: array<int>)
      requires Valid()
      ensures fresh(copy)
      ensures copy[..] == values[..]
    {
      copy := new int[values.Length];
      ArrayCopy(values, copy, values.Length);
    }

    /** clearValues: every byte unset. */
    method ClearValues()
      modifies values
      ensures values[..] == Unset(values.Length)
    {
      for i := 0 to values.Length
        invariant forall j :: 0 <= j < i ==> values[j] == -1
      {
        values[i] := -1;
      }
    }

    /** checkIndex: the index must lie in [0, byteCount). */
    method CheckIndex(index: int) returns (r: Outcome<ByteValuesError>)
      ensures r.Pass? <==> 0 <= index < byteCount
      ensures r.Fail? ==> r.error == InvalidByteIndex(index)
    {
      if !(0 <= index < byteCount) {
        return Fail(InvalidByteIndex(index));
      }
      return Pass;
    }
  }
}
