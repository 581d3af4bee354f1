/**
 * The arena allocator (src/heap/arena_allocator.c): an allocator that keeps
 * a table of every block it hands out, so that the whole set can be
 * released by one `destroy`, and so that a foreign or already-freed
 * pointer is caught on `free` and `remap`.
 *
 * The first half states the slot table's behaviour on values; the class
 * ArenaAllocator below runs the source's scan loops over an array of slots
 * and is proved to follow it.
 */
module Arena {
  import opened Common
  import opened Alloc

  /** ArenaAllocatorPtrData: one tracked allocation. */
  datatype Slot = Slot(isAllocated: bool, ptr: Ptr)

  /** A zero-filled slot: not in use, NULL pointer. */
  const Empty: Slot := Slot(false, NULL)

  /** Number of slots in a new arena's table. */
  const INITIAL_SLOTS: nat := 8

  /** sizeof(ArenaAllocatorPtrData) on the 64-bit targets the program is built for. */
  const SLOT_BYTES: nat := 16

  /** The slot table together with the first-free hint. */
  datatype TableState = TableState(slots: seq<Slot>, hint: nat)

  // ---------------------------------------------------------------------
  // Reading the table

  /** The pointers of the in-use slots, in slot order. */
  function Held(s: seq<Slot>): seq<Ptr>
  {
    if s == [] then []
    else Held(s[..|s| - 1]) + (if s[|s| - 1].isAllocated then [s[|s| - 1].ptr] else [])
  }

  /** The set of blocks the table says are live. */
  ghost function InUse(s: seq<Slot>): set<Ptr>
  {
    set k | 0 <= k < |s| && s[k].isAllocated :: s[k].ptr
  }

  /** The first slot at or after `from` that is not in use, or |s| if there is none. */
  function FirstFree(s: seq<Slot>, from: nat): (r: nat)
    ensures r <= |s|
    ensures from <= |s| ==> from <= r
    ensures forall k :: from <= k < r ==> s[k].isAllocated
    ensures r < |s| ==> !s[r].isAllocated
    decreases |s| - from
  {
    if from >= |s| then |s|
    else if !s[from].isAllocated then from
    else FirstFree(s, from + 1)
  }

  /** The first in-use slot at or after `from` holding `p`, or |s| if there is none. */
  function Lookup(s: seq<Slot>, p: Ptr, from: nat): (r: nat)
    ensures r <= |s|
    ensures from <= |s| ==> from <= r
    ensures forall k :: from <= k < r ==> !(s[k].isAllocated && s[k].ptr == p)
    ensures r < |s| ==> s[r].isAllocated && s[r].ptr == p
    decreases |s| - from
  {
    if from >= |s| then |s|
    else if s[from].isAllocated && s[from].ptr == p then from
    else Lookup(s, p, from + 1)
  }

  /** The well-formedness every reachable table keeps. */
  ghost predicate Inv(t: TableState)
  {
    && 2 <= |t.slots|
    && t.hint <= |t.slots|
    // every slot below the hint is in use
    && (forall k :: 0 <= k < t.hint ==> t.slots[k].isAllocated)
    // a slot is in use exactly when it holds a pointer; a free slot is zero
    && (forall k :: 0 <= k < |t.slots| ==> (t.slots[k].isAllocated <==> t.slots[k].ptr != NULL))
    && (forall k :: 0 <= k < |t.slots| && !t.slots[k].isAllocated ==> t.slots[k] == Empty)
    // no block is recorded twice
    && (forall i, j :: 0 <= i < j < |t.slots| && t.slots[i].isAllocated ==> t.slots[i].ptr != t.slots[j].ptr)
  }

  // ---------------------------------------------------------------------
  // The operations on the table

  /** ArenaAllocator_create: eight zero-filled slots, hint 0. */
  function NewTable(): (t: TableState)
  {
    TableState(seq(INITIAL_SLOTS, _ => Empty), 0)
  }

  /** Growth: the table is resized to floor(len * 1.5), the new slots zero-filled. */
  function Grow(s: seq<Slot>): (r: seq<Slot>)
  {
    s + seq(OneAndAHalf(|s|) - |s|, _ => Empty)
  }

  /** The slot `alloc` fills: the first free slot at or after the hint. */
  function AllocIndex(t: TableState): nat
  {
    FirstFree(t.slots, t.hint)
  }

  /** Whether `alloc` must grow the table first. */
  predicate Full(t: TableState)
  {
    AllocIndex(t) >= |t.slots|
  }

  /** ArenaAllocator_alloc: record `p` in the chosen slot and move the hint past it. */
  function Place(t: TableState, p: Ptr): (r: TableState)
    requires 2 <= |t.slots|
  {
    var i := AllocIndex(t);
    var s := if Full(t) then Grow(t.slots) else t.slots;
    TableState(s[i := Slot(true, p)], i + 1)
  }

  /** ArenaAllocator_free, once slot `i` is found: clear it and rewind the hint. */
  function Release(t: TableState, i: nat): (r: TableState)
    requires i < |t.slots|
  {
    TableState(t.slots[i := Empty], if i < t.hint then i else t.hint)
  }

  /** ArenaAllocator_remap, once slot `i` is found: only that slot's pointer changes. */
  function Rebind(t: TableState, i: nat, q: Ptr): (r: TableState)
    requires i < |t.slots|
  {
    TableState(t.slots[i := Slot(true, q)], t.hint)
  }

  // ---------------------------------------------------------------------
  // Properties of the table operations

  /** `Held` lists exactly the live blocks. */
  lemma {:induction false} HeldMember(s: seq<Slot>, x: Ptr)
    ensures x in Held(s) <==> x in InUse(s)
    decreases |s|
  {
    if s != [] {
      var init := s[..|s| - 1];
      HeldMember(init, x);
      if x in InUse(init) {
        var k :| 0 <= k < |init| && init[k].isAllocated && init[k].ptr == x;
        assert s[k] == init[k];
      }
      if x in InUse(s) {
        var k :| 0 <= k < |s| && s[k].isAllocated && s[k].ptr == x;
        if k < |init| {
          assert init[k] == s[k];
        }
      }
    }
  }

  /** With no block recorded twice, `Held` has no duplicates: destroy frees each block once. */
  lemma {:induction false} HeldDistinct(s: seq<Slot>)
    requires forall i, j :: 0 <= i < j < |s| && s[i].isAllocated ==> s[i].ptr != s[j].ptr
    ensures forall i, j :: 0 <= i < j < |Held(s)| ==> Held(s)[i] != Held(s)[j]
    decreases |s|
  {
    if s != [] {
      var init := s[..|s| - 1];
      HeldDistinct(init);
      var last := s[|s| - 1];
      if last.isAllocated {
        HeldMember(init, last.ptr);
      }
    }
  }

  /** Overwriting one slot: its old block (if any) leaves the live set, the new one (if any) joins. */
  lemma InUseUpdate(s: seq<Slot>, i: nat, x: Slot)
    requires i < |s|
    requires s[i].isAllocated ==> forall j :: 0 <= j < |s| && j != i && s[j].isAllocated ==> s[j].ptr != s[i].ptr
    ensures InUse(s[i := x])
         == (InUse(s) - (if s[i].isAllocated then {s[i].ptr} else {})) + (if x.isAllocated then {x.ptr} else {})
  {
    var t := s[i := x];
    var removed: set<Ptr> := if s[i].isAllocated then {s[i].ptr} else {};
    var added: set<Ptr> := if x.isAllocated then {x.ptr} else {};
    forall y | y in InUse(t)
      ensures y in (InUse(s) - removed) + added
    {
      var k :| 0 <= k < |t| && t[k].isAllocated && t[k].ptr == y;
      if k != i {
        assert s[k] == t[k];
        assert y in InUse(s);
      }
    }
    forall y | y in (InUse(s) - removed) + added
      ensures y in InUse(t)
    {
      if y in added {
        assert t[i] == x;
      } else {
        var k :| 0 <= k < |s| && s[k].isAllocated && s[k].ptr == y;
        if k == i {
          assert false;
        }
        assert t[k] == s[k];
      }
    }
  }

  /** Extending a prefix of the table by one slot extends its live set by that slot's block. */
  lemma InUseSplit(s: seq<Slot>, i: nat)
    requires i < |s|
    ensures InUse(s[..i + 1]) == InUse(s[..i]) + (if s[i].isAllocated then {s[i].ptr} else {})
  {
    var a, b := s[..i], s[..i + 1];
    forall y | y in InUse(b)
      ensures y in InUse(a) + (if s[i].isAllocated then {s[i].ptr} else {})
    {
      var k :| 0 <= k < |b| && b[k].isAllocated && b[k].ptr == y;
      if k < i {
        assert a[k] == b[k];
      }
    }
    forall y | y in InUse(a)
      ensures y in InUse(b)
    {
      var k :| 0 <= k < |a| && a[k].isAllocated && a[k].ptr == y;
      assert b[k] == a[k];
    }
    if s[i].isAllocated {
      assert b[i] == s[i];
    }
  }

  /** Zero-filled slots add nothing to the live set. */
  lemma InUseGrow(s: seq<Slot>)
    ensures InUse(Grow(s)) == InUse(s)
  {
    var g := Grow(s);
    forall y | y in InUse(g)
      ensures y in InUse(s)
    {
      var k :| 0 <= k < |g| && g[k].isAllocated && g[k].ptr == y;
      assert k < |s| && s[k] == g[k];
    }
    forall y | y in InUse(s)
      ensures y in InUse(g)
    {
      var k :| 0 <= k < |s| && s[k].isAllocated && s[k].ptr == y;
      assert g[k] == s[k];
    }
  }

  /** A run of in-use slots does not change where the search for a free slot ends. */
  lemma {:induction false} FirstFreeSkip(s: seq<Slot>, a: nat, b: nat)
    requires a <= b <= |s|
    requires forall k :: a <= k < b ==> s[k].isAllocated
    ensures FirstFree(s, a) == FirstFree(s, b)
    decreases b - a
  {
    if a < b {
      FirstFreeSkip(s, a + 1, b);
    }
  }

  /** A new arena satisfies the invariant and holds no block. */
  lemma NewTableInv()
    ensures Inv(NewTable()) && InUse(NewTable().slots) == {}
    ensures |NewTable().slots| == INITIAL_SLOTS
  {
  }

  /**
   * First fit: the hint never skips a free slot, so `alloc` always fills
   * the lowest-numbered free slot of the table.
   */
  lemma AllocIndexIsLowestFree(t: TableState)
    requires Inv(t)
    ensures AllocIndex(t) == FirstFree(t.slots, 0)
    ensures AllocIndex(t) < |t.slots| ==> !t.slots[AllocIndex(t)].isAllocated
    ensures forall k :: 0 <= k < AllocIndex(t) ==> t.slots[k].isAllocated
  {
    FirstFreeSkip(t.slots, 0, t.hint);
  }

  /** The table grows exactly when every slot is in use. */
  lemma FullIffNoFreeSlot(t: TableState)
    requires Inv(t)
    ensures Full(t) <==> forall k :: 0 <= k < |t.slots| ==> t.slots[k].isAllocated
  {
    AllocIndexIsLowestFree(t);
  }

  /**
   * `alloc` keeps the invariant and adds exactly the new block to the live
   * set; the table keeps its size unless it was full, and then grows by half.
   */
  lemma PlaceInv(t: TableState, p: Ptr)
    requires Inv(t) && p != NULL && p !in InUse(t.slots)
    ensures Inv(Place(t, p))
    ensures InUse(Place(t, p).slots) == InUse(t.slots) + {p}
    ensures |Place(t, p).slots| == if Full(t) then OneAndAHalf(|t.slots|) else |t.slots|
  {
    var i := AllocIndex(t);
    var s := if Full(t) then Grow(t.slots) else t.slots;
    OneAndAHalfGrows(|t.slots|);
    FirstFreeSkip(t.slots, 0, t.hint);
    if Full(t) {
      InUseGrow(t.slots);
      assert i == |t.slots|;
    }
    assert i < |s| && !s[i].isAllocated;
    assert forall k :: 0 <= k < i ==> s[k].isAllocated by {
      forall k | 0 <= k < i
        ensures s[k].isAllocated
      {
        assert s[k] == t.slots[k];
      }
    }
    InUseUpdate(s, i, Slot(true, p));
    var r := Place(t, p);
    assert r.slots == s[i := Slot(true, p)];
    forall a, b | 0 <= a < b < |r.slots| && r.slots[a].isAllocated
      ensures r.slots[a].ptr != r.slots[b].ptr
    {
      if a == i {
        assert r.slots[b].isAllocated ==> r.slots[b].ptr in InUse(s);
      } else if b == i {
        assert r.slots[a].ptr in InUse(s);
      }
    }
  }

  /** The live block `p` is found by the scans of `free` and `remap`, and only a live block is. */
  lemma LookupFinds(s: seq<Slot>, p: Ptr)
    ensures Lookup(s, p, 0) < |s| <==> p in InUse(s)
  {
    if p in InUse(s) {
      var k :| 0 <= k < |s| && s[k].isAllocated && s[k].ptr == p;
      assert Lookup(s, p, 0) <= k;
    }
  }

  /** `free` of a live block keeps the invariant and removes exactly that block. */
  lemma ReleaseInv(t: TableState, p: Ptr)
    requires Inv(t) && p in InUse(t.slots)
    ensures Lookup(t.slots, p, 0) < |t.slots|
    ensures Inv(Release(t, Lookup(t.slots, p, 0)))
    ensures InUse(Release(t, Lookup(t.slots, p, 0)).slots) == InUse(t.slots) - {p}
  {
    LookupFinds(t.slots, p);
    var i := Lookup(t.slots, p, 0);
    InUseUpdate(t.slots, i, Empty);
  }

  /** Freeing and reallocating: the slot `free` empties is the next one `alloc` fills, or a lower one. */
  lemma ReleaseThenPlaceReuses(t: TableState, p: Ptr)
    requires Inv(t) && p in InUse(t.slots)
    ensures Lookup(t.slots, p, 0) < |t.slots|
    ensures AllocIndex(Release(t, Lookup(t.slots, p, 0))) <= Lookup(t.slots, p, 0)
  {
    ReleaseInv(t, p);
    var i := Lookup(t.slots, p, 0);
    var r := Release(t, i);
    AllocIndexIsLowestFree(r);
    assert !r.slots[i].isAllocated;
  }

  /**
   * `remap` of a live block keeps the invariant; the live set trades the old
   * block for the one the backing allocator returned (the same, if it did
   * not move).
   */
  lemma RebindInv(t: TableState, p: Ptr, q: Ptr)
    requires Inv(t) && p in InUse(t.slots)
    requires q != NULL && (q == p || q !in InUse(t.slots))
    ensures Lookup(t.slots, p, 0) < |t.slots|
    ensures Inv(Rebind(t, Lookup(t.slots, p, 0), q))
    ensures InUse(Rebind(t, Lookup(t.slots, p, 0), q).slots) == InUse(t.slots) - {p} + {q}
  {
    LookupFinds(t.slots, p);
    var i := Lookup(t.slots, p, 0);
    InUseUpdate(t.slots, i, Slot(true, q));
    var r := Rebind(t, i, q);
    forall a, b | 0 <= a < b < |r.slots| && r.slots[a].isAllocated
      ensures r.slots[a].ptr != r.slots[b].ptr
    {
      if a == i && r.slots[b].isAllocated {
        assert t.slots[b].ptr in InUse(t.slots);
      } else if b == i {
        assert t.slots[a].ptr in InUse(t.slots);
      }
    }
  }

  // ---------------------------------------------------------------------
  // Growth as written

  /**
   * Growth as the source writes it: the table is resized through the
   * backing allocator's remap, which is realloc, and realloc leaves the
   * added slots with whatever bytes were there (`garbage`).
   */
  function GrowAsWritten(s: seq<Slot>, garbage: seq<Slot>): (r: seq<Slot>)
    requires |garbage| == OneAndAHalf(|s|) - |s|
    ensures |r| == OneAndAHalf(|s|) && r[..|s|] == s
  {
    s + garbage
  }

  /** `alloc` with the as-written growth. */
  function PlaceAsWritten(t: TableState, p: Ptr, garbage: seq<Slot>): (r: TableState)
    requires 2 <= |t.slots| && |garbage| == OneAndAHalf(|t.slots|) - |t.slots|
    ensures |r.slots| == if Full(t) then OneAndAHalf(|t.slots|) else |t.slots|
    ensures Full(t) ==> r.slots[..|t.slots|] == t.slots
  {
    var i := AllocIndex(t);
    var s := if Full(t) then GrowAsWritten(t.slots, garbage) else t.slots;
    OneAndAHalfGrows(|t.slots|);
    TableState(s[i := Slot(true, p)], i + 1)
  }

  /** A full eight-slot table holding blocks 1 to 8. */
  function Eight(): seq<Slot>
  {
    [Slot(true, 1), Slot(true, 2), Slot(true, 3), Slot(true, 4),
     Slot(true, 5), Slot(true, 6), Slot(true, 7), Slot(true, 8)]
  }

  /**
   * The ninth allocation of a fresh arena grows the table to twelve slots;
   * if the memory behind the tenth slot reads as an in-use slot holding 99, the arena now
   * claims block 99, which it never allocated, and `destroy` will free it.
   */
  lemma GrowthLeavesGarbage()
    ensures var t := TableState(Eight(), 8);
            var r := PlaceAsWritten(t, 9, [Empty, Slot(true, 99), Empty, Empty]);
            && Inv(t) && Full(t)
            && 99 in InUse(r.slots) && 99 !in InUse(t.slots) + {9}
  {
    var t := TableState(Eight(), 8);
    var r := PlaceAsWritten(t, 9, [Empty, Slot(true, 99), Empty, Empty]);
    assert FirstFree(t.slots, 8) == 8;
    assert r.slots[9] == Slot(true, 99);
    assert 99 !in InUse(t.slots);
  }

  // ---------------------------------------------------------------------
  // The allocator object

  /**
   * ArenaAllocator: the slot table lives in a block of the backing
   * allocator (`table`), viewed here as the array `slots`; `hint` is
   * m_first_free_allocation. `live` is false once `destroy` has cleared
   * the operation pointers.
   */
  class ArenaAllocator {
    var slots: array<Slot>
    var hint: nat
    var table: Ptr
    var live: bool
    const backing: Backing

    /** The table as a value. */
    function Table(): TableState
      reads this, slots
    {
      TableState(slots[..], hint)
    }

    /** The blocks this arena currently owns on behalf of its callers. */
    ghost function Owned(): set<Ptr>
      reads this, slots
    {
      InUse(slots[..])
    }

    ghost predicate Valid()
      reads this, slots, backing
    {
      && backing.Valid()
      && (live ==>
            && Inv(Table())
            && table in backing.blocks
            && table !in Owned()
            && (forall p :: p in Owned() ==> p in backing.blocks))
      && (!live ==> slots.Length == 0 && hint == 0 && table == NULL)
    }

    /** ArenaAllocator_getAllocator: which operations the Allocator view offers. */
    function Operations(): (ops: Ops)
      reads this
      ensures ops.hasAlloc == ops.hasFree == ops.hasRemap == live
    {
      Ops(live, live, live)
    }

    /** ArenaAllocator_create: an eight-slot table from the backing allocator. */
    constructor (backing: Backing)
      requires backing.Valid()
      modifies backing
      ensures Valid() && live && this.backing == backing
      ensures Table() == NewTable() && Owned() == {}
      ensures table !in old(backing.blocks) && backing.blocks == old(backing.blocks)[table := SLOT_BYTES * INITIAL_SLOTS]
      ensures backing.released == old(backing.released)
    {
      var t := backing.Alloc(SLOT_BYTES, INITIAL_SLOTS);
      this.backing := backing;
      slots := new Slot[INITIAL_SLOTS](_ => Empty);
      hint := 0;
      table := t;
      live := true;
      new;
      assert slots[..] == NewTable().slots;
      NewTableInv();
    }

    /**
     * ArenaAllocator_alloc: finds the first free slot from the hint, grows
     * the table by half if there is none, and records a fresh block of the
     * backing allocator there. `relocate` is realloc's choice to move the
     * table when it grows.
     */
    method Alloc(elemSize: nat, count: nat, relocate: bool) returns (p: Ptr)
      requires Valid() && live
      requires elemSize > 0 && count > 0
      modifies this, slots, backing
      ensures Valid() && live
      ensures Table() == Place(old(Table()), p)
      ensures Owned() == old(Owned()) + {p}
      ensures p != NULL && p !in old(backing.blocks)
      ensures slots.Length == old(slots.Length) ==> table == old(table)
      ensures slots.Length != old(slots.Length) && !relocate ==> table == old(table)
      ensures slots.Length != old(slots.Length) && relocate ==> table !in old(backing.blocks)
      ensures var kept := if slots.Length != old(slots.Length) && relocate then old(backing.blocks) - {old(table)} else old(backing.blocks);
              var tabled := if slots.Length != old(slots.Length) then kept[table := SLOT_BYTES * slots.Length] else kept;
              backing.blocks == tabled[p := elemSize * count]
      ensures backing.released == old(backing.released) + if slots.Length != old(slots.Length) && relocate then [old(table)] else []
    {
      ghost var t0 := Table();
      var i := hint;
      while i < slots.Length && slots[i].isAllocated
        invariant hint <= i <= slots.Length
        invariant FirstFree(slots[..], i) == FirstFree(slots[..], hint)
        decreases slots.Length - i
      {
        i := i + 1;
      }
      assert i == AllocIndex(t0);
      if i >= slots.Length {
        GrowTable(relocate);
      }
      hint := i + 1;
      p := backing.Alloc(elemSize, count);
      slots[i] := Slot(true, p);
      PlaceInv(t0, p);
      assert Table() == Place(t0, p);
    }

    /**
     * The growth step of ArenaAllocator_alloc: the table block is resized
     * to half as much again through the backing allocator, and the slots
     * it gains are empty.
     */
    method GrowTable(relocate: bool)
      requires Valid() && live
      modifies this, backing
      ensures fresh(slots) && slots[..] == Grow(old(slots[..]))
      ensures hint == old(hint) && live
      ensures !relocate ==> table == old(table)
      ensures relocate ==> table !in old(backing.blocks)
      ensures backing.Valid()
      ensures backing.blocks == (if relocate then old(backing.blocks) - {old(table)} else old(backing.blocks))[table := SLOT_BYTES * slots.Length]
      ensures backing.released == old(backing.released) + if relocate then [old(table)] else []
    {
      var n := OneAndAHalf(slots.Length);
      var q := backing.Remap(table, SLOT_BYTES, n, relocate);
      var prev := slots[..];
      var grown := new Slot[n](k => if 0 <= k < |prev| then prev[k] else Empty);
      assert grown[..] == Grow(prev);
      slots := grown;
      table := q;
    }

    /**
     * ArenaAllocator_free: scans the table for an in-use slot holding `p`,
     * hands the block back, clears the slot and rewinds the hint. A
     * pointer the arena does not own aborts the program: `ok` is false and
     * nothing has changed.
     */
    method Free(p: Ptr) returns (ok: bool)
      requires Valid() && live && p != NULL
      modifies this, slots, backing
      ensures Valid() && live
      ensures ok <==> p in old(Owned())
      ensures ok ==> Lookup(old(slots[..]), p, 0) < old(slots.Length)
      ensures ok ==> Table() == Release(old(Table()), Lookup(old(slots[..]), p, 0))
      ensures ok ==> Owned() == old(Owned()) - {p}
      ensures ok ==> backing.blocks == old(backing.blocks) - {p} && backing.released == old(backing.released) + [p]
      ensures !ok ==> Table() == old(Table()) && backing.blocks == old(backing.blocks) && backing.released == old(backing.released)
      ensures table == old(table)
    {
      ghost var t0 := Table();
      LookupFinds(t0.slots, p);
      var i := 0;
      while i < slots.Length && !(slots[i].isAllocated && slots[i].ptr == p)
        invariant 0 <= i <= slots.Length
        invariant Lookup(slots[..], p, i) == Lookup(slots[..], p, 0)
        decreases slots.Length - i
      {
        i := i + 1;
      }
      if i == slots.Length {
        return false;
      }
      ReleaseInv(t0, p);
      backing.Free(p);
      slots[i] := Empty;
      if i < hint {
        hint := i;
      }
      assert Table() == Release(t0, i);
      ok := true;
    }

    /**
     * ArenaAllocator_remap: finds the slot holding `p`, resizes the block
     * through the backing allocator and records the pointer it returns
     * (`relocate` is realloc's choice to move it). An unowned pointer
     * aborts: `ok` is false and nothing has changed.
     */
    method Remap(p: Ptr, elemSize: nat, count: nat, relocate: bool) returns (ok: bool, q: Ptr)
      requires Valid() && live && p != NULL
      modifies this, slots, backing
      ensures Valid() && live
      ensures ok <==> p in old(Owned())
      ensures ok ==> Lookup(old(slots[..]), p, 0) < old(slots.Length)
      ensures ok ==> Table() == Rebind(old(Table()), Lookup(old(slots[..]), p, 0), q)
      ensures ok ==> Owned() == old(Owned()) - {p} + {q} && backing.blocks[q] == elemSize * count
      ensures ok && !relocate ==> q == p
      ensures ok && relocate ==> q !in old(backing.blocks)
      ensures ok ==> backing.blocks == (if relocate then old(backing.blocks) - {p} else old(backing.blocks))[q := elemSize * count]
      ensures ok ==> backing.released == old(backing.released) + if relocate then [p] else []
      ensures table == old(table)
      ensures !ok ==> Table() == old(Table()) && backing.blocks == old(backing.blocks) && backing.released == old(backing.released)
    {
      ghost var t0 := Table();
      LookupFinds(t0.slots, p);
      var i := 0;
      while i < slots.Length && !(slots[i].isAllocated && slots[i].ptr == p)
        invariant 0 <= i <= slots.Length
        invariant Lookup(slots[..], p, i) == Lookup(slots[..], p, 0)
        decreases slots.Length - i
      {
        i := i + 1;
      }
      if i == slots.Length {
        return false, NULL;
      }
      q := backing.Remap(p, elemSize, count, relocate);
      RebindInv(t0, p, q);
      slots[i] := Slot(true, q);
      assert Table() == Rebind(t0, i, q);
      ok := true;
    }

    /**
     * ArenaAllocator_destroy: hands back every block still in use, in slot
     * order, then the table itself, and clears the operations.
     */
    method Destroy()
      requires Valid() && live
      modifies this, slots, backing
      ensures Valid() && !live
      ensures backing.released == old(backing.released) + Held(old(slots[..])) + [old(table)]
      ensures backing.blocks == old(backing.blocks) - old(Owned()) - {old(table)}
      ensures forall e, c :: AllocMem(true, Some(Operations()), e, c).Abort?
    {
      ghost var s0 := slots[..];
      ghost var r0 := backing.released;
      ghost var b0 := backing.blocks;
      var i := 0;
      while i < slots.Length
        invariant slots == old(slots) && table == old(table) && |s0| == slots.Length
        invariant 0 <= i <= slots.Length
        invariant backing.Valid()
        invariant forall k :: i <= k < slots.Length ==> slots[k] == s0[k]
        invariant backing.released == r0 + Held(s0[..i])
        invariant backing.blocks == b0 - InUse(s0[..i])
      {
        assert s0[..i + 1][..i] == s0[..i];
        if slots[i].isAllocated {
          InUseSplit(s0, i);
          backing.Free(slots[i].ptr);
          slots[i] := Empty;
        } else {
          InUseSplit(s0, i);
        }
        i := i + 1;
      }
      assert s0[..i] == s0;
      var t := table;
      backing.Free(t);
      slots := new Slot[0];
      hint := 0;
      table := NULL;
      live := false;
    }
  }
}
