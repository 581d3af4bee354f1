/**
 * Fat pointers (include/util/slice.h): a slice is a base pointer and a
 * length. Here a sub-slice is described by where it starts inside its
 * parent and how long it is. START and END are C `int`s and the length a
 * `size_t`; comparisons between them convert the `int` to `size_t`.
 */
module Slices {
  import opened Common

  /** 2^64: size_t arithmetic is modulo this. */
  const SIZE_MODULUS: int := 0x1_0000_0000_0000_0000

  /** A C `int`. */
  newtype Int32 = x: int | -0x8000_0000 <= x < 0x8000_0000

  /** A slice length: no object is larger than PTRDIFF_MAX. */
  type Len = n: nat | n < 0x8000_0000_0000_0000

  /** The conversion of an integer to size_t. */
  function AsSize(x: int): (r: nat)
    ensures r < SIZE_MODULUS
    ensures 0 <= x < SIZE_MODULUS ==> r == x
    ensures -SIZE_MODULUS <= x < 0 ==> r == x + SIZE_MODULUS
  {
    x % SIZE_MODULUS
  }

  /** A sub-slice: `&parent.ptr[start]` with `len` elements. */
  datatype View = View(start: nat, len: nat)

  /** The end index a possibly negative END stands for: negative counts back from the length. */
  function Normalise(len: Len, end: Int32): int
  {
    if end < 0 then len + end as int else end as int
  }

  /**
   * Slice_sub in a debug build, as written: START is checked against the
   * length, END is normalised, but the second check tests the raw END.
   * None is the abort.
   */
  function SubAsWritten(len: Len, start: Int32, end: Int32): (r: Option<View>)
    ensures r.Some? ==> 0 <= start as int < len && 0 <= end as int < len
  {
    if !(AsSize(start as int) < len) then None
    else
      var e := Normalise(len, end);
      if !(AsSize(end as int) < len) then None
      else Some(View(start as int, AsSize(e - start as int + 1)))
  }

  /** A negative END, which the normalisation is there for, always aborts. */
  lemma NegativeEndAlwaysAborts(len: Len, start: Int32, end: Int32)
    requires end < 0
    ensures SubAsWritten(len, start, end) == None
  {
  }

  /** Slice_sub with the second check on the normalised end. */
  function Sub(len: Len, start: Int32, end: Int32): (r: Option<View>)
    ensures r.Some? <==> 0 <= start as int < len && 0 <= Normalise(len, end) < len
    ensures r.Some? && start as int <= Normalise(len, end) ==>
              r.value == View(start as int, Normalise(len, end) - start as int + 1)
  {
    if !(AsSize(start as int) < len) then None
    else
      var e := Normalise(len, end);
      if !(AsSize(e) < len) then None
      else Some(View(start as int, AsSize(e - start as int + 1)))
  }

  /** The two versions agree on every non-negative END. */
  lemma SubAgreesOnNonNegativeEnd(len: Len, start: Int32, end: Int32)
    requires end >= 0
    ensures Sub(len, start, end) == SubAsWritten(len, start, end)
  {
  }

  /**
   * END is inclusive, and counting back from the length names the same
   * element: for START <= k < len, END = k and END = k - len give the
   * same sub-slice, which ends at element k and lies inside the parent
   * (for any length a negative `int` can count back from).
   */
  lemma SubInclusiveEnd(len: Len, start: Int32, k: Int32)
    requires 0 <= start <= k && k as int < len <= 0x8000_0000
    ensures Sub(len, start, k) == Some(View(start as int, k as int - start as int + 1))
    ensures Sub(len, start, (k as int - len) as Int32) == Sub(len, start, k)
    ensures Sub(len, start, k).value.start + Sub(len, start, k).value.len <= len
  {
  }

  /** forArray: visits ptr[0] .. ptr[len - 1], each once, in order. */
  method ForArray<T>(a: array<T>) returns (visited: seq<T>)
    ensures visited == a[..]
  {
    visited := [];
    var p := 0;
    while p != a.Length
      invariant 0 <= p <= a.Length
      invariant visited == a[..p]
    {
      visited := visited + [a[p]];
      p := p + 1;
    }
  }

  /** forIterArray: yields the indices 0 .. len - 1 in order. */
  method ForIterArray(len: nat) returns (indices: seq<nat>)
    ensures |indices| == len && forall k :: 0 <= k < len ==> indices[k] == k
  {
    indices := [];
    var i := 0;
    while i < len
      invariant 0 <= i <= len
      invariant |indices| == i && forall k :: 0 <= k < i ==> indices[k] == k
    {
      indices := indices + [i];
      i := i + 1;
    }
  }

  /** Array_create: `size` elements whose length can never change. */
  method ArrayCreate<T(0)>(size: nat) returns (a: array<T>)
    ensures fresh(a) && a.Length == size
  {
    a := new T[size];
  }
}
