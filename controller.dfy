/**
 * The virtual game controller (src/input/controller.c): a uinput device
 * whose d-pad is kept as a 4-bit mask, and the component records that
 * list which buttons, axes or hat directions a control drives. Writing
 * an input event to the device is appending it to `written`.
 */
module Input {
  import opened Alloc

  /** Event types and codes of the Linux input subsystem. */
  const EV_SYN: int := 0x00
  const EV_KEY: int := 0x01
  const EV_ABS: int := 0x03
  const SYN_REPORT: int := 0
  const ABS_HAT0X: int := 0x10
  const ABS_HAT0Y: int := 0x11

  /** Bit positions of the d-pad directions in the hat mask. */
  const HAT_UP: nat := 0
  const HAT_RIGHT: nat := 1
  const HAT_DOWN: nat := 2
  const HAT_LEFT: nat := 3

  /** struct input_event, without its (zeroed) timestamp. */
  datatype InputEvent = InputEvent(evType: int, code: int, value: int)

  /** The event that closes a report. */
  const Sync: InputEvent := InputEvent(EV_SYN, SYN_REPORT, 0)

  /** Whether direction `k` is held in mask `m`: 1 or 0. */
  function Bit(m: bv4, k: nat): (b: int)
    requires k < 4
    ensures b == 0 || b == 1
  {
    if m & (1 << k) != 0 then 1 else 0
  }

  /**
   * The mask after setHat(id, value): a nonzero value ORs the direction's
   * bit in; a zero value XORs it, which toggles it.
   */
  function NextMask(m: bv4, id: nat, value: int): bv4
    requires id < 4
  {
    if value == 0 then m ^ (1 << id) else m | (1 << id)
  }

  /** The d-pad's horizontal value: right minus left. */
  function HatX(m: bv4): (dx: int)
    ensures -1 <= dx <= 1
    ensures dx == 0 <==> Bit(m, HAT_RIGHT) == Bit(m, HAT_LEFT)
  {
    Bit(m, HAT_RIGHT) - Bit(m, HAT_LEFT)
  }

  /** The d-pad's vertical value: up minus down. */
  function HatY(m: bv4): (dy: int)
    ensures -1 <= dy <= 1
    ensures dy == 0 <==> Bit(m, HAT_UP) == Bit(m, HAT_DOWN)
  {
    Bit(m, HAT_UP) - Bit(m, HAT_DOWN)
  }

  /** The report setHat writes for mask `m`. */
  function HatReport(m: bv4): seq<InputEvent>
  {
    [InputEvent(EV_ABS, ABS_HAT0X, HatX(m)), InputEvent(EV_ABS, ABS_HAT0Y, HatY(m)), Sync]
  }

  /** setHat only ever touches the bit of the direction it names. */
  lemma NextMaskKeepsOtherBits(m: bv4, id: nat, value: int, k: nat)
    requires id < 4 && k < 4 && k != id
    ensures Bit(NextMask(m, id, value), k) == Bit(m, k)
  {
    assert id == 0 || id == 1 || id == 2 || id == 3;
    assert k == 0 || k == 1 || k == 2 || k == 3;
  }

  /** A nonzero value presses the direction, and pressing twice is pressing once. */
  lemma PressIsIdempotent(m: bv4, id: nat, value: int)
    requires id < 4 && value != 0
    ensures Bit(NextMask(m, id, value), id) == 1
    ensures NextMask(NextMask(m, id, value), id, value) == NextMask(m, id, value)
  {
    assert id == 0 || id == 1 || id == 2 || id == 3;
  }

  /**
   * A zero value flips the direction: it releases a held direction, but
   * presses one that was not held; two zero values cancel out.
   */
  lemma ZeroToggles(m: bv4, id: nat)
    requires id < 4
    ensures Bit(NextMask(m, id, 0), id) == 1 - Bit(m, id)
    ensures NextMask(NextMask(m, id, 0), id, 0) == m
  {
    assert id == 0 || id == 1 || id == 2 || id == 3;
  }

  /** ControllerDevice: the uinput handle, the d-pad mask and what was written to it. */
  class ControllerDevice {
    var fd: int
    var hat: bv4
    var written: seq<InputEvent>

    /**
     * ControllerDevice_default: `fd` is the opened /dev/uinput handle and
     * `created` whether the device setup and creation requests succeeded;
     * on failure the result is the null device, whose fd is -1.
     */
    constructor Default(fd: int, created: bool)
      ensures this.fd == (if created then fd else -1)
      ensures hat == 0 && written == []
    {
      this.fd := if created then fd else -1;
      hat := 0;
      written := [];
    }

    /** ControllerDevice_destroy: the device is closed and its fd reset to -1. */
    method Destroy()
      modifies this
      ensures fd == -1 && hat == old(hat) && written == old(written)
    {
      fd := -1;
    }

    /** ControllerDevice_setButton: the key event, then a sync. */
    method SetButton(id: int, value: bool)
      modifies this
      ensures hat == old(hat)
      ensures written == old(written) + [InputEvent(EV_KEY, id, if value then 1 else 0), Sync]
    {
      written := written + [InputEvent(EV_KEY, id, if value then 1 else 0)];
      written := written + [Sync];
    }

    /** ControllerDevice_setAxis: the absolute-axis event, then a sync. */
    method SetAxis(axis: int, value: int)
      modifies this
      ensures hat == old(hat)
      ensures written == old(written) + [InputEvent(EV_ABS, axis, value), Sync]
    {
      written := written + [InputEvent(EV_ABS, axis, value)];
      written := written + [Sync];
    }

    /**
     * ControllerDevice_setHat: an id outside 0..3 is ignored; otherwise the
     * mask is updated and the whole d-pad state is reported: x, y, sync.
     */
    method SetHat(id: int, value: int)
      modifies this
      ensures !(0 <= id <= 3) ==> hat == old(hat) && written == old(written)
      ensures 0 <= id <= 3 ==> hat == NextMask(old(hat), id, value)
      ensures 0 <= id <= 3 ==> written == old(written) + HatReport(hat)
    {
      if id < 0 || id > 3 {
        return;
      }
      if value == 0 {
        hat := hat ^ (1 << id);
      } else {
        hat := hat | (1 << id);
      }
      var dx := Bit(hat, HAT_RIGHT) - Bit(hat, HAT_LEFT);
      var dy := Bit(hat, HAT_UP) - Bit(hat, HAT_DOWN);
      written := written + [InputEvent(EV_ABS, ABS_HAT0X, dx)];
      written := written + [InputEvent(EV_ABS, ABS_HAT0Y, dy)];
      written := written + [Sync];
    }
  }

  /** What a component drives. */
  datatype ComponentId = Button | Axis | Hat

  /** sizeof(int). */
  const INT_BYTES: nat := 4

  /** Up to four ids of what a control drives, and the buffer they are kept in. */
  datatype Component = Component(kind: ComponentId, ids: seq<int>, capacity: nat, buffer: Ptr)

  /** ControllerComponent_create: no ids yet, room for four. */
  method CreateComponent(allocator: Backing, kind: ComponentId) returns (c: Component)
    requires allocator.Valid()
    modifies allocator
    ensures allocator.Valid()
    ensures c.kind == kind && c.ids == [] && c.capacity == 4
    ensures c.buffer !in old(allocator.blocks) && allocator.blocks == old(allocator.blocks)[c.buffer := INT_BYTES * 4]
  {
    var p := allocator.Alloc(INT_BYTES, 4);
    c := Component(kind, [], 4, p);
  }

  /** The k-th id (0: primary … 3: quaterny), or -1 when there are not that many. */
  function Get(c: Component, k: nat): int
  {
    if |c.ids| > k then c.ids[k] else -1
  }

  function GetPrimary(c: Component): int { Get(c, 0) }
  function GetSecondary(c: Component): int { Get(c, 1) }
  function GetTertiary(c: Component): int { Get(c, 2) }
  function GetQuaterny(c: Component): int { Get(c, 3) }

  /**
   * With non-negative ids, -1 means exactly "not that many ids"; otherwise
   * a getter returns the id at its position.
   */
  lemma GetterMissingIff(c: Component, k: nat)
    requires forall i :: 0 <= i < |c.ids| ==> c.ids[i] >= 0
    ensures Get(c, k) == -1 <==> |c.ids| <= k
    ensures k < |c.ids| ==> Get(c, k) == c.ids[k]
  {
  }

  /** A new component answers -1 to all four getters. */
  lemma NewComponentHasNoIds(c: Component)
    requires c.ids == []
    ensures GetPrimary(c) == GetSecondary(c) == GetTertiary(c) == GetQuaterny(c) == -1
  {
  }

}
