/**
 * The player's keyboard controls and teardown (src/en/player.c). The
 * keyboard state SDL exposes as KEYS is the set of scancodes held down.
 */
module PlayerControls {
  import opened Common
  import opened Alloc
  import Scene

  /** SDL scancodes of the keys the default bindings use. */
  const SCANCODE_A: int := 4
  const SCANCODE_C: int := 6
  const SCANCODE_H: int := 11
  const SCANCODE_J: int := 13
  const SCANCODE_K: int := 14
  const SCANCODE_L: int := 15
  const SCANCODE_V: int := 25
  const SCANCODE_X: int := 27
  const SCANCODE_Z: int := 29
  const SCANCODE_RIGHT: int := 79
  const SCANCODE_LEFT: int := 80
  const SCANCODE_DOWN: int := 81
  const SCANCODE_UP: int := 82

  /** sizeof(KeyboardController) on a 64-bit target: 15 function pointers, an allocator pointer, 16 ints. */
  const KEYBOARD_BYTES: nat := 15 * 8 + 8 + 16 * 4

  /** The scancode each control of a KeyboardController is bound to. */
  datatype Bindings = Bindings(
    left: int, right: int, up: int, down: int,
    secondaryLeft: int, secondaryRight: int, secondaryUp: int, secondaryDown: int,
    jump: int, action: int, dismount: int, attack: int,
    primary: int, secondary: int, tertiary: int, quaterny: int)

  /** The bindings KeyboardController_default installs. */
  function DefaultBindings(): Bindings
  {
    Bindings(
      SCANCODE_LEFT, SCANCODE_RIGHT, SCANCODE_UP, SCANCODE_DOWN,
      SCANCODE_H, SCANCODE_L, SCANCODE_K, SCANCODE_J,
      SCANCODE_Z, SCANCODE_C, SCANCODE_A, SCANCODE_X,
      SCANCODE_Z, SCANCODE_X, SCANCODE_C, SCANCODE_V)
  }

  /** KEYS[k]: 1 while key k is held, 0 otherwise. */
  function Key(keys: set<int>, k: int): (v: int)
    ensures v == 0 || v == 1
    ensures v == 1 <==> k in keys
  {
    if k in keys then 1 else 0
  }

  /**
   * An axis driven by two keys, KEYS[pos] - KEYS[neg]: +1 when only the
   * positive key is held, -1 when only the negative one is, 0 otherwise.
   */
  function Axis(keys: set<int>, neg: int, pos: int): (v: int)
    ensures -1 <= v <= 1
    ensures v == 1 <==> pos in keys && neg !in keys
    ensures v == -1 <==> neg in keys && pos !in keys
    ensures v == 0 <==> (pos in keys <==> neg in keys) || pos == neg
  {
    Key(keys, pos) - Key(keys, neg)
  }

  function AxisX(b: Bindings, keys: set<int>): int { Axis(keys, b.left, b.right) }
  function AxisY(b: Bindings, keys: set<int>): int { Axis(keys, b.up, b.down) }
  function AxisRX(b: Bindings, keys: set<int>): int { Axis(keys, b.secondaryLeft, b.secondaryRight) }
  function AxisRY(b: Bindings, keys: set<int>): int { Axis(keys, b.secondaryUp, b.secondaryDown) }
  function HatX(b: Bindings, keys: set<int>): int { Key(keys, b.right) - Key(keys, b.left) }
  function HatY(b: Bindings, keys: set<int>): int { Key(keys, b.down) - Key(keys, b.up) }

  function PrimaryButton(b: Bindings, keys: set<int>): bool { b.primary in keys }
  function SecondaryButton(b: Bindings, keys: set<int>): bool { b.secondary in keys }
  function TertiaryButton(b: Bindings, keys: set<int>): bool { b.tertiary in keys }
  function QuaternyButton(b: Bindings, keys: set<int>): bool { b.quaterny in keys }
  function Jump(b: Bindings, keys: set<int>): bool { b.jump in keys }
  function Action(b: Bindings, keys: set<int>): bool { b.action in keys }
  function Dismount(b: Bindings, keys: set<int>): bool { b.dismount in keys }
  function Attack(b: Bindings, keys: set<int>): bool { b.attack in keys }

  /** The d-pad queries read the same keys as the main stick, so they always agree. */
  lemma HatMatchesAxis(b: Bindings, keys: set<int>)
    ensures HatX(b, keys) == AxisX(b, keys) && HatY(b, keys) == AxisY(b, keys)
    ensures -1 <= HatX(b, keys) <= 1 && -1 <= HatY(b, keys) <= 1
  {
  }

  /**
   * With the default bindings each stick direction has its own key:
   * holding exactly one arrow (or one of H/L/K/J) deflects exactly one
   * axis fully, and holding both opposite keys cancels out.
   */
  lemma DefaultAxes(keys: set<int>)
    ensures AxisX(DefaultBindings(), keys) == 1 <==> SCANCODE_RIGHT in keys && SCANCODE_LEFT !in keys
    ensures AxisY(DefaultBindings(), keys) == -1 <==> SCANCODE_UP in keys && SCANCODE_DOWN !in keys
    ensures AxisRX(DefaultBindings(), keys) == -1 <==> SCANCODE_H in keys && SCANCODE_L !in keys
    ensures AxisRY(DefaultBindings(), keys) == 1 <==> SCANCODE_J in keys && SCANCODE_K !in keys
    ensures SCANCODE_LEFT in keys && SCANCODE_RIGHT in keys ==> AxisX(DefaultBindings(), keys) == 0
  {
  }

  /**
   * The default bindings share keys between the generic buttons and the
   * game actions: Z is primary and jump, X secondary and attack, C
   * tertiary and action; dismount (A) and quaterny (V) have keys of their own.
   */
  lemma DefaultButtonsShareKeys(keys: set<int>)
    ensures PrimaryButton(DefaultBindings(), keys) == Jump(DefaultBindings(), keys) == (SCANCODE_Z in keys)
    ensures SecondaryButton(DefaultBindings(), keys) == Attack(DefaultBindings(), keys) == (SCANCODE_X in keys)
    ensures TertiaryButton(DefaultBindings(), keys) == Action(DefaultBindings(), keys) == (SCANCODE_C in keys)
    ensures QuaternyButton(DefaultBindings(), keys) == (SCANCODE_V in keys)
    ensures Dismount(DefaultBindings(), keys) == (SCANCODE_A in keys)
  {
  }

  /** Holding Z alone presses primary and jump and nothing else, and leaves both sticks centred. */
  lemma ZAlone()
    ensures var b, keys := DefaultBindings(), {SCANCODE_Z};
      && PrimaryButton(b, keys) && Jump(b, keys)
      && !SecondaryButton(b, keys) && !TertiaryButton(b, keys) && !QuaternyButton(b, keys)
      && !Action(b, keys) && !Dismount(b, keys) && !Attack(b, keys)
      && AxisX(b, keys) == 0 && AxisY(b, keys) == 0 && AxisRX(b, keys) == 0 && AxisRY(b, keys) == 0
  {
  }

  /** A KeyboardController: its bindings, and the allocator block it lives in. */
  class KeyboardController {
    const bindings: Bindings
    const allocator: Backing
    const block: Ptr

    constructor (allocator: Backing, block: Ptr, bindings: Bindings)
      ensures this.allocator == allocator && this.block == block && this.bindings == bindings
    {
      this.allocator := allocator;
      this.block := block;
      this.bindings := bindings;
    }

    /** KeyboardController_destroy: the controller's block goes back to the allocator it came from. */
    method Destroy()
      requires allocator.Valid() && block in allocator.blocks
      modifies allocator
      ensures allocator.Valid()
      ensures allocator.blocks == old(allocator.blocks) - {block}
      ensures allocator.released == old(allocator.released) + [block]
    {
      allocator.Free(block);
    }
  }

  /** KeyboardController_default: a fresh block from `allocator` holding the default bindings. */
  method DefaultController(allocator: Backing) returns (kc: KeyboardController)
    requires allocator.Valid()
    modifies allocator
    ensures fresh(kc) && allocator.Valid()
    ensures kc.allocator == allocator && kc.bindings == DefaultBindings()
    ensures kc.block !in old(allocator.blocks) && allocator.blocks == old(allocator.blocks)[kc.block := KEYBOARD_BYTES]
  {
    var p := allocator.Alloc(KEYBOARD_BYTES, 1);
    kc := new KeyboardController(allocator, p, DefaultBindings());
  }

  /** One step of tearing a player down. */
  datatype Teardown =
    | BodyDestroyed(body: nat)
    | ControllerDestroyed(block: Ptr)
    | BaseDestroyed(trace: seq<Scene.Event>)

  /**
   * Player_destroy as written: the physics body is destroyed, then the
   * controller's destroy is called through objrefcall, which dereferences
   * the controller pointer, so a player without a controller crashes
   * (None) after its body is gone.
   */
  function TeardownAsWritten(body: nat, controller: Option<Ptr>, base: seq<Scene.Event>): Option<seq<Teardown>>
  {
    if controller.None? then None
    else Some([BodyDestroyed(body), ControllerDestroyed(controller.value), BaseDestroyed(base)])
  }

  /**
   * Player_destroy as intended: the body, then the controller if there is
   * one, then the base object's destroy.
   */
  function TeardownOf(body: nat, controller: Option<Ptr>, base: seq<Scene.Event>): (t: seq<Teardown>)
    ensures 2 <= |t| <= 3 && t[0] == BodyDestroyed(body) && t[|t| - 1] == BaseDestroyed(base)
    ensures |t| == 3 <==> controller.Some?
    ensures controller.Some? ==> t[1] == ControllerDestroyed(controller.value)
  {
    [BodyDestroyed(body)]
    + (if controller.Some? then [ControllerDestroyed(controller.value)] else [])
    + [BaseDestroyed(base)]
  }

  /**
   * The two agree whenever the player has a controller; a player without
   * one — a state Player_update explicitly allows — crashes as written.
   */
  lemma TeardownCrashesWithoutController(body: nat, controller: Option<Ptr>, base: seq<Scene.Event>)
    ensures controller.Some? ==> TeardownAsWritten(body, controller, base) == Some(TeardownOf(body, controller, base))
    ensures controller.None? ==> TeardownAsWritten(body, controller, base).None? && |TeardownOf(body, controller, base)| == 2
  {
    if controller.Some? {
      var t := TeardownOf(body, controller, base);
      assert t == [t[0], t[1], t[2]];
    }
  }

  /** Player: the scene-graph object, the physics body id (0: none) and the controller, if any. */
  class Player {
    var super: Scene.Entity
    var body: nat
    var controller: KeyboardController?
    var teardown: seq<Teardown>

    constructor (super: Scene.Entity, body: nat, controller: KeyboardController?)
      ensures this.super == super && this.body == body && this.controller == controller && teardown == []
    {
      this.super := super;
      this.body := body;
      this.controller := controller;
      teardown := [];
    }

    /** The block of the player's controller, if it has one. */
    function ControllerBlock(): Option<Ptr>
      reads this, controller
    {
      if controller == null then None else Some(controller.block)
    }

    /**
     * Player_destroy with the controller call guarded: the steps of
     * TeardownOf, with the body id and the controller pointer cleared.
     */
    method Destroy()
      requires controller != null ==> controller.allocator.Valid() && controller.block in controller.allocator.blocks
      modifies this, if controller != null then {controller.allocator} else {}
      ensures body == 0 && controller == null && super == old(super)
      ensures teardown == old(teardown) + TeardownOf(old(body), old(ControllerBlock()), Scene.DestroyFrom(old(super), 0))
      ensures old(controller) != null ==>
        old(controller).allocator.released == old(controller.allocator.released) + [old(controller).block]
    {
      teardown := teardown + [BodyDestroyed(body)];
      body := 0;
      if controller != null {
        controller.Destroy();
        teardown := teardown + [ControllerDestroyed(controller.block)];
      }
      controller := null;
      var trace := Scene.Destroy(super);
      teardown := teardown + [BaseDestroyed(trace)];
    }
  }
}
