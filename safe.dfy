/**
 * The NULL-tolerant call helpers (include/util/safe.h). An operation
 * pointer is an `Option` of a function; objects live at addresses in a
 * heap, and an object's operations receive the object's address first.
 */
module Safe {
  import opened Common
  import opened Alloc

  /** What a guarded call statement did. */
  datatype Dispatch<R> = Crash | Skipped | Done(result: R)

  /** safefn: the call, when the function pointer is not NULL; otherwise nothing happens. */
  function SafeFn<A, R>(fn: Option<A -> R>, arg: A): (d: Dispatch<R>)
    ensures !d.Crash?
    ensures d.Skipped? <==> fn.None?
    ensures fn.Some? ==> d == Done(fn.value(arg))
  {
    match fn
    case None => Skipped
    case Some(f) => Done(f(arg))
  }

  /** safefnelse: the call's result, or `orelse` when the function pointer is NULL. */
  function SafeFnElse<A, R>(orelse: R, fn: Option<A -> R>, arg: A): (r: R)
    ensures SafeFn(fn, arg).Done? ==> r == SafeFn(fn, arg).result
    ensures SafeFn(fn, arg).Skipped? ==> r == orelse
  {
    if fn == None then orelse else fn.value(arg)
  }

  /**
   * objrefcall(obj, fn, args): reads the operation through the object
   * pointer, so a NULL (or dangling) object crashes; a NULL operation is
   * skipped; otherwise it is called with the object's address first.
   */
  function ObjRefCall<S, A, R>(heap: map<Ptr, S>, obj: Ptr, op: S -> Option<((Ptr, A)) -> R>, arg: A): (d: Dispatch<R>)
    ensures d.Crash? <==> obj !in heap || obj == NULL
    ensures obj != NULL && obj in heap ==> d == SafeFn(op(heap[obj]), (obj, arg))
  {
    if obj == NULL || obj !in heap then Crash
    else SafeFn(op(heap[obj]), (obj, arg))
  }

  /** objcall(obj, fn, args): the same on an object named directly, passing its address. */
  function ObjCall<S, A, R>(heap: map<Ptr, S>, at: Ptr, op: S -> Option<((Ptr, A)) -> R>, arg: A): (d: Dispatch<R>)
    requires at != NULL && at in heap
    ensures !d.Crash?
  {
    SafeFn(op(heap[at]), (at, arg))
  }

  /** objcall on an object is objrefcall on its address. */
  lemma ObjCallIsObjRefCallOfAddress<S, A, R>(heap: map<Ptr, S>, at: Ptr, op: S -> Option<((Ptr, A)) -> R>, arg: A)
    requires at != NULL && at in heap
    ensures ObjCall(heap, at, op, arg) == ObjRefCall(heap, at, op, arg)
  {
  }

  /** objrefcallorelse: `orelse` for a NULL operation; a NULL object still crashes. */
  function ObjRefCallOrElse<S, A, R>(orelse: R, heap: map<Ptr, S>, obj: Ptr, op: S -> Option<((Ptr, A)) -> R>, arg: A): (r: Option<R>)
    ensures r.None? <==> ObjRefCall(heap, obj, op, arg).Crash?
    ensures ObjRefCall(heap, obj, op, arg).Done? ==> r == Some(ObjRefCall(heap, obj, op, arg).result)
    ensures ObjRefCall(heap, obj, op, arg).Skipped? ==> r == Some(orelse)
  {
    if obj == NULL || obj !in heap then None
    else Some(SafeFnElse(orelse, op(heap[obj]), (obj, arg)))
  }

  /** objcallorelse: `orelse` for a NULL operation of an object named directly. */
  function ObjCallOrElse<S, A, R>(orelse: R, heap: map<Ptr, S>, at: Ptr, op: S -> Option<((Ptr, A)) -> R>, arg: A): (r: R)
    requires at != NULL && at in heap
    ensures Some(r) == ObjRefCallOrElse(orelse, heap, at, op, arg)
  {
    SafeFnElse(orelse, op(heap[at]), (at, arg))
  }

  /** A pointer variable. */
  class PtrCell {
    var ptr: Ptr

    constructor (p: Ptr)
      ensures ptr == p
    {
      ptr := p;
    }
  }

  /** safefree: frees a non-NULL pointer and sets the variable to NULL; a NULL one is left alone. */
  method SafeFree(cell: PtrCell, heap: Backing)
    requires heap.Valid()
    requires cell.ptr != NULL ==> cell.ptr in heap.blocks
    modifies cell, heap
    ensures heap.Valid() && cell.ptr == NULL
    ensures old(cell.ptr) == NULL ==> heap.blocks == old(heap.blocks) && heap.released == old(heap.released)
    ensures old(cell.ptr) != NULL ==>
              heap.blocks == old(heap.blocks) - {old(cell.ptr)} && heap.released == old(heap.released) + [old(cell.ptr)]
  {
    if cell.ptr != NULL {
      heap.Free(cell.ptr);
      cell.ptr := NULL;
    }
  }

  /** A second safefree of the same variable does nothing: the block is freed once. */
  method SafeFreeTwice(cell: PtrCell, heap: Backing)
    requires heap.Valid()
    requires cell.ptr != NULL ==> cell.ptr in heap.blocks
    modifies cell, heap
    ensures heap.Valid() && cell.ptr == NULL
    ensures heap.released == old(heap.released) + (if old(cell.ptr) == NULL then [] else [old(cell.ptr)])
  {
    SafeFree(cell, heap);
    SafeFree(cell, heap);
  }
}
