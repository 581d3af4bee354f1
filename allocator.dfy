/**
 * The allocator capability (src/heap/allocator.c): the checked front-end
 * allocMem / freeMem / remapMem, and the standard allocator behind it.
 *
 * Memory blocks are abstract ids (`Ptr`); 0 plays NULL. The front-end's
 * checks are `debugAssert`s, compiled in only when DEBUG is defined: each
 * gate takes a `debug` flag and, when it is off, forwards every request
 * unchanged (the behaviour of a bad request is then undefined).
 */
module Alloc {
  import opened Common

  type Ptr = nat
  const NULL: Ptr := 0

  /** Which of an Allocator's three operation pointers are non-NULL. */
  datatype Ops = Ops(hasAlloc: bool, hasFree: bool, hasRemap: bool)

  /** A call the front-end passes on to the allocator's own operation. */
  datatype Request =
    | AllocReq(elemSize: nat, count: nat)
    | FreeReq(ptr: Ptr)
    | RemapReq(ptr: Ptr, elemSize: nat, count: nat)

  /** What a front-end entry point does: forward a request, or abort. */
  datatype Gate = Forward(req: Request) | Abort

  /**
   * A request the allocator can serve: the operation it names is present
   * and its sizes are positive and its pointer is not NULL.
   */
  predicate Serviceable(ops: Ops, req: Request) {
    match req
    case AllocReq(e, c) => ops.hasAlloc && e > 0 && c > 0
    case FreeReq(p) => ops.hasFree && p != NULL
    case RemapReq(p, e, c) => ops.hasRemap && p != NULL && e > 0 && c > 0
  }

  /** allocMem: a non-NULL allocator with an alloc operation, positive sizes. */
  function AllocMem(debug: bool, allocator: Option<Ops>, elemSize: nat, count: nat): (g: Gate)
    ensures g.Forward? ==> g.req == AllocReq(elemSize, count)
    ensures debug ==> (g.Forward? <==> allocator.Some? && Serviceable(allocator.value, AllocReq(elemSize, count)))
    ensures !debug ==> g.Forward?
  {
    if debug && allocator.None? then Abort
    else if debug && !allocator.value.hasAlloc then Abort
    else if debug && elemSize <= 0 then Abort
    else if debug && count <= 0 then Abort
    else Forward(AllocReq(elemSize, count))
  }

  /** freeMem: a non-NULL allocator with a free operation, a non-NULL pointer. */
  function FreeMem(debug: bool, allocator: Option<Ops>, ptr: Ptr): (g: Gate)
    ensures g.Forward? ==> g.req == FreeReq(ptr)
    ensures debug ==> (g.Forward? <==> allocator.Some? && Serviceable(allocator.value, FreeReq(ptr)))
    ensures !debug ==> g.Forward?
  {
    if debug && allocator.None? then Abort
    else if debug && !allocator.value.hasFree then Abort
    else if debug && ptr == NULL then Abort
    else Forward(FreeReq(ptr))
  }

  /**
   * remapMem as written: it checks the allocator's `alloc` operation and
   * then calls its `remap` operation.
   */
  function RemapMemAsWritten(debug: bool, allocator: Option<Ops>, ptr: Ptr, elemSize: nat, count: nat): (g: Gate)
    ensures g.Forward? ==> g.req == RemapReq(ptr, elemSize, count)
    ensures debug ==> (g.Forward? <==> allocator.Some? && Serviceable(allocator.value, AllocReq(elemSize, count)) && ptr != NULL)
    ensures !debug ==> g.Forward?
  {
    if debug && allocator.None? then Abort
    else if debug && !allocator.value.hasAlloc then Abort
    else if debug && ptr == NULL then Abort
    else if debug && elemSize <= 0 then Abort
    else if debug && count <= 0 then Abort
    else Forward(RemapReq(ptr, elemSize, count))
  }

  /**
   * In a debug build the as-written remap gate lets through an allocator
   * whose `remap` operation is NULL, as long as its `alloc` is set: the
   * forwarded call then jumps through a NULL pointer.
   */
  lemma RemapGateMissesNullRemap()
    ensures var ops := Ops(true, true, false);
            var g := RemapMemAsWritten(true, Some(ops), 1, 1, 1);
            g.Forward? && !Serviceable(ops, g.req)
  {
  }

  /** remapMem with the check on the operation it actually calls. */
  function RemapMem(debug: bool, allocator: Option<Ops>, ptr: Ptr, elemSize: nat, count: nat): (g: Gate)
    ensures g.Forward? ==> g.req == RemapReq(ptr, elemSize, count)
    ensures debug ==> (g.Forward? <==> allocator.Some? && Serviceable(allocator.value, RemapReq(ptr, elemSize, count)))
    ensures !debug ==> g.Forward?
  {
    if debug && allocator.None? then Abort
    else if debug && !allocator.value.hasRemap then Abort
    else if debug && ptr == NULL then Abort
    else if debug && elemSize <= 0 then Abort
    else if debug && count <= 0 then Abort
    else Forward(RemapReq(ptr, elemSize, count))
  }

  /**
   * The other way round, the as-written gate aborts a request the
   * allocator could serve: `remap` set, `alloc` NULL.
   */
  lemma RemapGateRejectsServiceable()
    ensures var ops := Ops(false, true, true);
            var g := RemapMemAsWritten(true, Some(ops), 1, 1, 1);
            g.Abort? && Serviceable(ops, RemapReq(1, 1, 1))
  {
  }

  /** The two remap gates agree on every allocator whose `alloc` and `remap` are both set or both NULL. */
  lemma RemapGatesAgree(debug: bool, allocator: Option<Ops>, ptr: Ptr, elemSize: nat, count: nat)
    requires allocator.Some? ==> allocator.value.hasAlloc == allocator.value.hasRemap
    ensures RemapMem(debug, allocator, ptr, elemSize, count) == RemapMemAsWritten(debug, allocator, ptr, elemSize, count)
  {
  }

  /**
   * They differ exactly on debug-build requests that pass every other
   * check and go to an allocator with one of `alloc` and `remap` but not
   * the other.
   */
  lemma RemapGatesDiffer(debug: bool, allocator: Option<Ops>, ptr: Ptr, elemSize: nat, count: nat)
    ensures RemapMem(debug, allocator, ptr, elemSize, count) != RemapMemAsWritten(debug, allocator, ptr, elemSize, count)
        <==> debug && allocator.Some? && allocator.value.hasAlloc != allocator.value.hasRemap
             && ptr != NULL && elemSize > 0 && count > 0
  {
  }

  /**
   * The standard allocator (calloc / free / realloc) as an issuer of block
   * ids. `blocks` is the set of live blocks with their sizes in bytes;
   * `released` records every block handed back, in order. Ids are never
   * reused, so "released at most once" is the absence of duplicates.
   */
  class Backing {
    var next: Ptr
    ghost var blocks: map<Ptr, nat>
    ghost var released: seq<Ptr>

    ghost predicate Valid()
      reads this
    {
      && NULL < next
      && (forall p :: p in blocks ==> NULL < p < next)
      && (forall i :: 0 <= i < |released| ==> NULL < released[i] < next && released[i] !in blocks)
      && (forall i, j :: 0 <= i < j < |released| ==> released[i] != released[j])
    }

    constructor ()
      ensures Valid() && blocks == map[] && released == []
    {
      next := 1;
      blocks := map[];
      released := [];
    }

    /** std_alloc: a fresh, zero-filled block of count * elemSize bytes. */
    method Alloc(elemSize: nat, count: nat) returns (p: Ptr)
      requires Valid()
      modifies this
      ensures Valid()
      ensures p != NULL && p !in old(blocks) && p !in released
      ensures blocks == old(blocks)[p := elemSize * count] && released == old(released)
    {
      p := next;
      next := next + 1;
      blocks := blocks[p := elemSize * count];
    }

    /** std_free: hands a live block back. */
    method Free(p: Ptr)
      requires Valid() && p in blocks
      modifies this
      ensures Valid()
      ensures blocks == old(blocks) - {p} && released == old(released) + [p]
    {
      blocks := blocks - {p};
      released := released + [p];
    }

    /**
     * std_remap: resizes a live block to count * elemSize bytes. Whether
     * realloc moves the block is its own choice, given here as `relocate`;
     * a moved block's old id is released.
     */
    method Remap(p: Ptr, elemSize: nat, count: nat, relocate: bool) returns (q: Ptr)
      requires Valid() && p in blocks
      modifies this
      ensures Valid() && q != NULL
      ensures !relocate ==> q == p && blocks == old(blocks)[p := elemSize * count] && released == old(released)
      ensures relocate ==> q !in old(blocks) && q !in old(released)
      ensures relocate ==> blocks == (old(blocks) - {p})[q := elemSize * count] && released == old(released) + [p]
    {
      if relocate {
        q := next;
        next := next + 1;
        blocks := (blocks - {p})[q := elemSize * count];
        released := released + [p];
      } else {
        q := p;
        blocks := blocks[p := elemSize * count];
      }
    }
  }
}
