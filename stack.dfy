/**
 * The growable stack (src/util/stack.c): a buffer of `max_len` elements
 * of which the first `len` are in use. The element size (`stride`) and the
 * byte copies are abstracted away: the buffer is an array of elements.
 */
module Stacks {
  import opened Common

  /** DEFAULT_STACK_SIZE: the capacity of a new stack, unless the build overrides it. */
  const DEFAULT_STACK_SIZE: nat := 8

  /** 2^24: every integer below it is a single-precision float. */
  const F32_EXACT: nat := 0x100_0000

  /**
   * The spacing of single-precision floats (24-bit significand) around the
   * integer v: 1 below 2^24, and doubling with each binade above.
   */
  function Ulp(v: nat): (u: nat)
    ensures u >= 1 && v < F32_EXACT * u
    ensures v < F32_EXACT ==> u == 1
    ensures u == 1 || 0x80_0000 * u <= v
  {
    if v < F32_EXACT then 1 else 2 * Ulp(v / 2)
  }

  /**
   * The single-precision float nearest to the integer v, ties to even (the
   * default rounding of an integer-to-float conversion and of float
   * arithmetic). The error is at most half the spacing.
   */
  function RoundF32(v: nat): (r: nat)
    ensures 2 * v <= 2 * r + Ulp(v) && 2 * r <= 2 * v + Ulp(v)
    ensures v < F32_EXACT ==> r == v
  {
    var u := Ulp(v);
    var q := v / u;
    var rem := v % u;
    var down := q * u;
    assert v == down + rem;
    if 2 * rem < u || (2 * rem == u && q % 2 == 0) then down else down + u
  }

  /**
   * The capacity after growing a full stack, as written: `max_len *= 1.5f`
   * converts max_len to float, multiplies by 1.5 in single precision and
   * truncates the product back to size_t. The product 1.5 * f is kept in
   * half units, 3 * f, which rounds the same way at twice the scale.
   */
  function GrowAsWritten(maxLen: nat): nat
  {
    RoundF32(3 * RoundF32(maxLen)) / 2
  }

  /** While 3 * max_len stays below 2^24 the float growth is exactly floor(1.5 * max_len). */
  lemma GrowAsWrittenExact(maxLen: nat)
    requires 3 * maxLen < F32_EXACT
    ensures GrowAsWritten(maxLen) == OneAndAHalf(maxLen)
  {
  }

  /**
   * Above that, the single-precision product can round up: capacity
   * 11451105, which growth from the default 8 reaches, becomes 17176658
   * rather than floor(1.5 * 11451105) = 17176657.
   */
  lemma GrowRoundsUp()
    ensures GrowAsWritten(11451105) == 17176658 == OneAndAHalf(11451105) + 1
  {
    assert RoundF32(11451105) == 11451105;
    assert Ulp(34353315) == 4 by {
      assert Ulp(8588328) == 1;
      assert Ulp(17176657) == 2 * Ulp(8588328);
    }
  }

  /** From two elements up the float growth always adds room, however large the stack. */
  lemma FloatGrowthGrows(maxLen: nat)
    requires maxLen >= 2
    ensures GrowAsWritten(maxLen) > maxLen
  {
    var f := RoundF32(maxLen);
    var r := RoundF32(3 * f);
    assert 2 * maxLen <= 2 * f + Ulp(maxLen);
    assert 2 * (3 * f) <= 2 * r + Ulp(3 * f);
    assert r >= 2 * maxLen + 2;
  }

  /**
   * If a build sets DEFAULT_STACK_SIZE to 0 or 1, a full stack "grows" to
   * the same capacity, and the push that follows copies its element one
   * past the end of the buffer. From two elements on it does grow.
   */
  lemma GrowthStallsAtOne()
    ensures GrowAsWritten(0) == 0 && GrowAsWritten(1) == 1
    ensures forall m: nat :: m >= 2 ==> GrowAsWritten(m) > m
  {
    forall m: nat | m >= 2
      ensures GrowAsWritten(m) > m
    {
      FloatGrowthGrows(m);
    }
  }

  /** The growth the push needs: the float growth, and always at least one more slot. */
  function Grow(maxLen: nat): (m: nat)
    ensures m > maxLen
    ensures maxLen >= 2 ==> m == GrowAsWritten(maxLen)
  {
    if maxLen >= 2 then FloatGrowthGrows(maxLen); GrowAsWritten(maxLen) else maxLen + 1
  }

  class Stack<T(0)> {
    var buf: array<T>
    var len: nat
    var maxLen: nat
    const stride: nat

    /** The elements in the stack, bottom first. */
    ghost function Contents(): seq<T>
      reads this, buf
      requires len <= buf.Length
    {
      buf[..len]
    }

    ghost predicate Valid()
      reads this, buf
    {
      buf.Length == maxLen && 1 <= maxLen && len <= maxLen
    }

    /** Stack_create: empty, with room for DEFAULT_STACK_SIZE elements of `stride` bytes. */
    constructor (stride: nat)
      ensures Valid() && Contents() == [] && maxLen == DEFAULT_STACK_SIZE
      ensures this.stride == stride && fresh(buf)
    {
      buf := new T[DEFAULT_STACK_SIZE];
      len := 0;
      maxLen := DEFAULT_STACK_SIZE;
      this.stride := stride;
    }

    /**
     * Stack_push: copies `x` on top, first growing the buffer if it is
     * full. Nothing already in the stack changes.
     */
    method Push(x: T)
      requires Valid()
      modifies this, buf
      ensures Valid()
      ensures Contents() == old(Contents()) + [x]
      ensures maxLen == if old(len) == old(maxLen) then Grow(old(maxLen)) else old(maxLen)
      ensures old(len) < old(maxLen) ==> buf == old(buf)
      ensures old(len) == old(maxLen) ==> fresh(buf)
    {
      if len == maxLen {
        var n := Grow(maxLen);
        var prev := buf[..];
        var grown := new T[n](k => if 0 <= k < |prev| then prev[k] else x);
        assert grown[..len] == prev[..len];
        buf := grown;
        maxLen := n;
      }
      buf[len] := x;
      len := len + 1;
    }

    /** The top element, if any: what Stack_peek gives the render context. */
    function Top(): (r: Option<T>)
      reads this, buf
      requires Valid()
      ensures r.None? <==> Contents() == []
      ensures r.Some? ==> r.value == Contents()[|Contents()| - 1]
    {
      if len == 0 then None else Some(buf[len - 1])
    }

    /**
     * Stack_pop: removes and returns the top element, or returns nothing
     * when the stack is empty. The buffer keeps its capacity.
     */
    method Pop() returns (r: Option<T>)
      requires Valid()
      modifies this
      ensures Valid() && buf == old(buf) && maxLen == old(maxLen)
      ensures r == old(Top())
      ensures old(Contents()) == [] ==> Contents() == []
      ensures old(Contents()) != [] ==> Contents() == old(Contents()[..|Contents()| - 1])
    {
      if len == 0 {
        return None;
      }
      len := len - 1;
      r := Some(buf[len]);
    }
  }

  /** Pushing and then popping gives back the pushed element and the stack as it was. */
  method PushPop<T(0)>(s: Stack<T>, x: T) returns (r: Option<T>)
    requires s.Valid()
    modifies s, s.buf
    ensures s.Valid()
    ensures r == Some(x) && s.Contents() == old(s.Contents())
  {
    s.Push(x);
    r := s.Pop();
  }
}
