# ControllerTheGame core, modelled in Dafny

ControllerTheGame is a small SDL/Box2D game written in C. The player steers it
from the keyboard, and it drives a virtual uinput game controller. This project
models the parts of it that do not depend on the OS, the renderer or the physics
engine, and proves properties of them.

- `common.dfy` (`Common`): the `Option` type and the `len * 1.5` growth rule
  that the arena and the stack share.
- `allocator.dfy` (`Alloc`): the allocator front-end (`allocMem`, `freeMem`,
  `remapMem`), with its debug-build checks as explicit gates. `std_allocator`
  becomes `Backing`, an issuer of fresh block ids that keeps a ghost map of the
  live blocks and a log of released ones.
- `arena_allocator.dfy` (`Arena`): the arena allocator.
  - It has a pure specification of the slot table: first-free search, lookup,
    placement, release, rebinding and an invariant.
  - The class `ArenaAllocator` works on an `array<Slot>`. Each of its methods
    is proved to move the table as the specification says.
- `list.dfy` (`Lists`): the intrusive doubly linked list, as heap objects whose
  links must spell out a ghost node sequence.
- `stack.dfy` (`Stacks`): the growable stack over an array, with its
  single-precision `*= 1.5f` growth rounded as a float.
- `ctx.dfy` (`RenderCtx`): the render context and its transform stack.
- `obj.dfy` (`Scene`): the Object2D scene graph.
  - The tree is a value. Render, update and destroy are recorded as traces of
    the operation calls they make.
  - The methods walk the child lists with loops. They are proved equal to
    specification functions, and those functions are proved to be depth-first
    traversals.
- `slice.dfy` (`Slices`): `Slice_sub` with C `int`/`size_t` conversions, and
  the array iteration macros.
- `safe.dfy` (`Safe`): the NULL-guarded call and free macros of `safe.h`.
- `controller.dfy` (`Input`): the uinput device's 4-bit hat mask and the events
  it writes, and the controller component getters.
- `player.dfy` (`PlayerControls`): the keyboard-to-controller mapping and the
  player's teardown order.
- `debug_draw.dfy` (`DebugDraw`): colour unpacking, the polygon outline edge
  order, and the triangle-fan vertex and index buffers.

Conventions:

- Pointers are natural numbers, and `NULL` is 0.
- `debugAssert` becomes a `requires`. An unconditional `abort()` becomes an
  explicit failure result, and the state is left unchanged.
- Writing an event to the uinput file descriptor means appending it to a log.
- The keyboard state is the set of scancodes held down.

Behaviour the model follows as written:

- `Stack_pop` on an empty stack returns NULL; it is not fatal.
- The stack grows with `realloc`, not through an allocator's remap.
- `remapMem` checks `alloc`, not `remap` (see Findings).

## Model

| member | source | states |
|---|---|---|
| Common.OneAndAHalf | src/heap/arena_allocator.c:57 | `len * 1.5` truncated to an integer: 2m <= 3n < 2m + 2 |
| Common.OneAndAHalfGrows | src/heap/arena_allocator.c:56-62 | 1.5x growth adds capacity exactly when the old capacity is at least 2 |
| Alloc.AllocMem | src/heap/allocator.c:5-12 | a debug build forwards the request iff the allocator is non-NULL, has `alloc`, and both sizes are positive; a release build always forwards; only the request given is forwarded |
| Alloc.FreeMem | src/heap/allocator.c:13-19 | a debug build forwards iff the allocator is non-NULL, has `free`, and the pointer is non-NULL; a release build always forwards |
| Alloc.RemapMemAsWritten | src/heap/allocator.c:20-29 | the gate as written: a debug build forwards iff the allocator, its `alloc` operation, the pointer and both sizes are present; it forwards only the given remap request, and a release build forwards everything |
| Alloc.RemapGateMissesNullRemap | src/heap/allocator.c:23-28 | an allocator with `alloc` but a NULL `remap` passes the debug check, and the call it forwards cannot be served |
| Alloc.RemapMem | src/heap/allocator.c:20-29 | corrected gate: a debug build forwards iff the allocator, its `remap`, the pointer and both sizes are all present |
| Alloc.RemapGateRejectsServiceable | src/heap/allocator.c:23 | an allocator with `remap` set but `alloc` NULL fails the debug check although it could serve the request |
| Alloc.RemapGatesAgree | src/heap/allocator.c:20-29 | the two remap gates agree whenever `alloc` and `remap` are both set or both NULL |
| Alloc.RemapGatesDiffer | src/heap/allocator.c:20-29 | the two gates differ exactly on debug-build requests that pass the other checks and reach an allocator with one of `alloc` and `remap` but not both |
| Alloc.Backing.constructor | src/heap/allocator.c:40-44 | std_allocator starts with no live blocks and none released |
| Alloc.Backing.Alloc | src/heap/allocator.c:31-33 | calloc returns a non-NULL block that was not live and was never released, of `elemSize * count` bytes |
| Alloc.Backing.Free | src/heap/allocator.c:34 | free removes exactly that block from the live set and logs it as released |
| Alloc.Backing.Remap | src/heap/allocator.c:35-38 | realloc either resizes in place (same pointer) or moves to a fresh block and releases the old one |
| Arena.FirstFree | src/heap/arena_allocator.c:51-55 | the scan stops at the first slot not in use at or after the hint, or at the end |
| Arena.Lookup | src/heap/arena_allocator.c:27-43 | the scan finds the first in-use slot holding the pointer, or runs off the end |
| Arena.HeldMember | src/heap/arena_allocator.c:114-120 | the pointers destroy frees are exactly the arena's live blocks |
| Arena.HeldDistinct | src/heap/arena_allocator.c:114-120 | with no pointer in two in-use slots, destroy frees no block twice |
| Arena.InUseUpdate | src/heap/arena_allocator.c:33-35 | overwriting one slot changes the live set by exactly that slot's old and new pointer |
| Arena.InUseSplit | src/heap/arena_allocator.c:114-120 | the live set of a prefix grows by one slot at a time, as destroy's loop walks it |
| Arena.InUseGrow | src/heap/arena_allocator.c:56-63 | growing the table with empty slots keeps the live set |
| Arena.FirstFreeSkip | src/heap/arena_allocator.c:52 | starting the scan at the hint finds the same slot as starting at 0 when everything below the hint is in use |
| Arena.NewTableInv | src/heap/arena_allocator.c:95-104 | a new arena has 8 empty slots, a hint of 0, no live blocks, and satisfies the table invariant |
| Arena.AllocIndexIsLowestFree | src/heap/arena_allocator.c:49-55 | alloc picks the lowest free slot of the whole table |
| Arena.FullIffNoFreeSlot | src/heap/arena_allocator.c:56 | the table grows exactly when every slot is in use |
| Arena.PlaceInv | src/heap/arena_allocator.c:49-71 | alloc keeps the invariant and adds exactly the new block to the live set; the table grows to 1.5x iff it was full |
| Arena.LookupFinds | src/heap/arena_allocator.c:27-46 | free and remap find the pointer iff it is a live block of this arena |
| Arena.ReleaseInv | src/heap/arena_allocator.c:33-37 | free keeps the invariant and removes exactly that block; the hint moves down to the freed slot |
| Arena.ReleaseThenPlaceReuses | src/heap/arena_allocator.c:36-37 | after a free, the next alloc uses the freed slot or a lower one |
| Arena.RebindInv | src/heap/arena_allocator.c:78-89 | remap keeps the invariant; the live set trades the old block for the new one |
| Arena.GrowAsWritten | src/heap/arena_allocator.c:56-63 | as written, growth keeps the old slots and appends the bytes realloc left behind |
| Arena.PlaceAsWritten | src/heap/arena_allocator.c:49-71 | alloc with the as-written growth keeps the old slots and has the grown length |
| Arena.GrowthLeavesGarbage | src/heap/arena_allocator.c:56-69 | the ninth alloc of a fresh arena can make it claim block 99, which it never allocated |
| Arena.ArenaAllocator.Operations | src/heap/arena_allocator.c:128-130 | all three operation pointers are set while the arena lives, and all are NULL after destroy |
| Arena.ArenaAllocator.constructor | src/heap/arena_allocator.c:95-104 | the table is a fresh 8-slot block from the backing allocator; the arena owns nothing |
| Arena.ArenaAllocator.Alloc | src/heap/arena_allocator.c:49-71 | the table moves as `Place`; the arena owns exactly one more block, which is fresh, of `elemSize * count` bytes; the backing's other blocks are untouched except the table, which is resized (and released and replaced if realloc moves it) only when it grew; nothing else is released |
| Arena.ArenaAllocator.GrowTable | src/heap/arena_allocator.c:56-64 | the full table is resized to `len * 1.5` slots through the backing's remap: the old slots are kept, the new ones are empty, and the old table block is released only if realloc moved it |
| Arena.ArenaAllocator.Free | src/heap/arena_allocator.c:23-47 | it succeeds iff the arena owns the block: the table moves as `Release` and the backing releases exactly that block; otherwise it aborts and nothing changes; the table block stays where it is |
| Arena.ArenaAllocator.Remap | src/heap/arena_allocator.c:73-93 | it succeeds iff the arena owns the block: the table moves as `Rebind`, the owned set trades p for q, and q == p when the block is not moved; otherwise it aborts and nothing changes; on success the backing's other blocks are untouched, p is released only when the block moved, and the table block stays where it is |
| Arena.ArenaAllocator.Destroy | src/heap/arena_allocator.c:112-131 | every live block is freed in slot order, then the table; afterwards every allocation through the arena aborts in a debug build |
| Lists.List.constructor | src/util/list.c:23-30 | an empty list over the given allocator and element size |
| Lists.List.NodeSize | src/util/list.c:34-36 | push asks for `elem_size` bytes, or for a bare node's size when `elem_size` is 0 |
| Lists.List.Push | src/util/list.c:31-48 | the new node is appended at the tail in a fresh block; the links stay consistent |
| Lists.List.Pop | src/util/list.c:50-67 | the tail is removed and returned unlinked; an empty list gives NULL and stays empty |
| Lists.List.Remove | src/util/list.c:69-99 | the node is removed from its position, the order of the others is kept and its links are cleared; NULL is ignored |
| Lists.List.UnlinkOnly | src/util/list.c:76-79 | removing the only node empties the list |
| Lists.List.UnlinkHead | src/util/list.c:81-84 | removing the head of a longer list drops the first node |
| Lists.List.UnlinkTail | src/util/list.c:87-92 | removing the tail of a longer list drops the last node |
| Lists.List.UnlinkMiddle | src/util/list.c:95-98 | removing an inner node links its neighbours to each other; head and tail are kept |
| Lists.List.Destroy | src/util/list.c:101-109 | every node's block is freed once, head to tail; a non-empty list is left dangling |
| Stacks.Ulp | src/util/stack.c:33 | the spacing of single-precision floats around an integer: 1 below 2^24, and at most a 2^-23 fraction of the value above |
| Stacks.RoundF32 | src/util/stack.c:33 | conversion to float is exact below 2^24 and otherwise off by at most half the spacing |
| Stacks.GrowAsWrittenExact | src/util/stack.c:33 | the float growth equals floor(1.5 * max_len) while 3 * max_len is below 2^24 |
| Stacks.GrowRoundsUp | src/util/stack.c:33 | above that it can round up: capacity 11451105, reached from 8, grows to 17176658, one more than floor(1.5 * 11451105) |
| Stacks.FloatGrowthGrows | src/util/stack.c:32-34 | from capacity 2 up the float growth always adds room, at every size |
| Stacks.GrowthStallsAtOne | src/util/stack.c:32-34 | as written, growth from capacity 0 or 1 adds no room; from 2 up it always grows |
| Stacks.Grow | src/util/stack.c:32-34 | corrected growth: always larger, and the same as the single-precision growth as written from capacity 2 up |
| Stacks.Stack.constructor | src/util/stack.c:22-29 | an empty stack of capacity DEFAULT_STACK_SIZE |
| Stacks.Stack.Push | src/util/stack.c:31-39 | the element is appended and nothing below it changes; capacity grows iff the stack was full |
| Stacks.Stack.Top | src/screen/ctx.c:33-34 | the top element, or nothing on an empty stack |
| Stacks.Stack.Pop | src/util/stack.c:41-46 | returns the old top and drops it; an empty stack returns NULL and stays empty; capacity is kept |
| Stacks.PushPop | src/util/stack.c:31-46 | pop after push returns the pushed element and restores the contents |
| RenderCtx.RenderContext.constructor | src/screen/ctx.c:23-28 | a new context has an empty transform stack |
| RenderCtx.RenderContext.GetTransform | src/screen/ctx.c:29-35 | the origin on an empty stack, otherwise the top transform |
| RenderCtx.RenderContext.Destroy | src/screen/ctx.c:36-39 | the context is no longer live |
| Scene.Create | src/en/obj.c:30-43 | the given geometry, no parent, no children, and the five base operations |
| Scene.Default | src/en/obj.c:26 | a unit square at the origin |
| Scene.AddChild | src/en/obj.c:82-90 | a NULL child changes nothing; otherwise the child is appended last and records its parent |
| Scene.Trunc | src/en/obj.c:56-57 | the `(int)` cast truncates toward zero |
| Scene.RenderMatchesDrawn | src/en/obj.c:53-73 | on a tree whose objects push iff they pop, render makes the calls of the stack-free description and leaves the stack as it found it |
| Scene.ChildrenMatchDrawn | src/en/obj.c:61-70 | the same for the child loop from any position |
| Scene.RenderBalanced | src/en/obj.c:53-73 | render of a paired tree leaves the transform stack unchanged |
| Scene.UnpairedChildPopsParent | src/en/obj.c:71-73 | a child with a NULL preRender but the base postRender pops its parent's transform |
| Scene.PreOrderFromAppend | src/en/obj.c:82-90 | appending a child adds its subtree at the end of the visit order |
| Scene.AddChildVisitsLast | src/en/obj.c:82-90 | after addChild, the new child's subtree is visited last |
| Scene.RenderVisitsPreOrder | src/en/obj.c:61-70 | when every render reached chains to the base, render calls each object once, depth-first in insertion order |
| Scene.RenderFromVisitsPreOrder | src/en/obj.c:62-69 | the same for the child loop from any position |
| Scene.UpdateOkIffUpdatable | src/en/obj.c:75-80 | update does not call through NULL iff every object reached has an update and no child link reached is NULL |
| Scene.UpdateFromOkIff | src/en/obj.c:76-79 | the same for the child loop from any position |
| Scene.UpdateVisitsPreOrder | src/en/obj.c:75-80 | when every update reached chains to the base, update visits the tree depth-first in insertion order |
| Scene.DestroyVisitsPreOrder | src/en/obj.c:45-51 | when every destroy reached chains to the base, destroy visits the tree depth-first in insertion order |
| Scene.NullChildStopsTraversals | src/en/obj.c:45-80 | a NULL child object ends render and destroy there; update calls through it |
| Scene.PreRender | src/en/obj.c:53-60 | pushes the current transform moved by the truncated position |
| Scene.PostRender | src/en/obj.c:71-73 | pops the transform stack (an empty stack stays empty) |
| Scene.CallPreRender | src/en/obj.c:66 | a child's preRender call, as `PreRenderStep` |
| Scene.CallRender | src/en/obj.c:67 | a child's render call, as `RenderStep` |
| Scene.CallPostRender | src/en/obj.c:68 | a child's postRender call, as `PostRenderStep` |
| Scene.Render | src/en/obj.c:61-70 | the loop's calls and final stack are those of `ChildrenStep` |
| Scene.RenderChild | src/en/obj.c:66-68 | one turn of the render loop, as `ChildStep` |
| Scene.CallUpdate | src/en/obj.c:78 | a child's update call: a NULL update crashes |
| Scene.Update | src/en/obj.c:75-80 | the loop's calls and outcome are those of `UpdateFrom` |
| Scene.CallDestroy | src/en/obj.c:49 | a child's destroy call through objrefcall |
| Scene.Destroy | src/en/obj.c:45-51 | the loop's calls are those of `DestroyFrom` |
| Slices.AsSize | include/util/slice.h:35-37 | conversion to size_t is modulo 2^64 |
| Slices.SubAsWritten | include/util/slice.h:33-41 | as written: a sub-slice is returned only when START and the raw END are both in range |
| Slices.NegativeEndAlwaysAborts | include/util/slice.h:36-37 | every negative END fails the raw END check |
| Slices.Sub | include/util/slice.h:33-41 | corrected: succeeds iff START and the normalised end are in range, with length end - START + 1 |
| Slices.SubAgreesOnNonNegativeEnd | include/util/slice.h:33-41 | both versions agree on every non-negative END |
| Slices.SubInclusiveEnd | include/util/slice.h:36-39 | END is inclusive, END = k and END = k - len give the same sub-slice, and it lies inside the parent |
| Slices.ForArray | include/util/slice.h:42-44 | forArray visits every element in order |
| Slices.ForIterArray | include/util/slice.h:46-47 | forIterArray yields the indices 0 .. len - 1 in order |
| Slices.ArrayCreate | include/util/slice.h:55-59 | a fresh buffer of `size` elements |
| Safe.SafeFn | include/util/safe.h:22-25 | the call is made iff the function pointer is not NULL |
| Safe.SafeFnElse | include/util/safe.h:27 | the call's result, or `orelse` when the pointer is NULL |
| Safe.ObjRefCall | include/util/safe.h:30 | crashes iff the object pointer is NULL or dangling; otherwise a guarded call with the object as first argument |
| Safe.ObjCall | include/util/safe.h:29 | a call on an object in place never crashes |
| Safe.ObjCallIsObjRefCallOfAddress | include/util/safe.h:29-30 | objcall is objrefcall on the object's address |
| Safe.ObjRefCallOrElse | include/util/safe.h:33-34 | crashes exactly when objrefcall does; otherwise the result or `orelse` |
| Safe.ObjCallOrElse | include/util/safe.h:31-32 | objcallorelse is objrefcallorelse on the object's address |
| Safe.SafeFree | include/util/safe.h:36-40 | frees a non-NULL pointer once and NULLs it; a NULL pointer is left alone |
| Safe.SafeFreeTwice | include/util/safe.h:36-40 | a second safefree releases nothing more |
| Input.Bit | include/input/controller.h:32-37 | a direction's bit is 0 or 1 |
| Input.HatX | src/input/controller.c:145 | dx = right - left lies in {-1, 0, 1}, and is 0 iff both or neither are held |
| Input.HatY | src/input/controller.c:146 | dy = up - down lies in {-1, 0, 1}, and is 0 iff both or neither are held |
| Input.NextMaskKeepsOtherBits | src/input/controller.c:139-143 | setHat changes only the bit of the direction it names |
| Input.PressIsIdempotent | src/input/controller.c:141-142 | a nonzero value sets the bit, and doing it twice is the same as once |
| Input.ZeroToggles | src/input/controller.c:139-140 | a zero value flips the bit (it presses an unheld direction), and twice restores the mask |
| Input.ControllerDevice.Default | src/input/controller.c:34-104 | a created device has its fd and a released d-pad; a failed setup gives fd -1 |
| Input.ControllerDevice.Destroy | src/input/controller.c:106-112 | the fd becomes -1 |
| Input.ControllerDevice.SetButton | src/input/controller.c:127-130 | writes the key event, then SYN_REPORT |
| Input.ControllerDevice.SetAxis | src/input/controller.c:131-134 | writes the absolute-axis event, then SYN_REPORT |
| Input.ControllerDevice.SetHat | src/input/controller.c:135-151 | an id outside 0..3 changes and writes nothing; otherwise the mask is updated, then HAT0X = dx, HAT0Y = dy and SYN_REPORT are written |
| Input.CreateComponent | src/input/controller.c:153-165 | no ids, capacity 4, in a fresh 4-int buffer |
| Input.GetterMissingIff | src/input/controller.c:166-177 | getter k returns ids[k] when there are more than k ids; with non-negative ids, -1 means exactly "fewer than k + 1 ids" |
| Input.NewComponentHasNoIds | src/input/controller.c:153-177 | all four getters of a new component return -1 |
| PlayerControls.Key | src/en/player.c:111 | KEYS[k] is 1 iff k is held, else 0 |
| PlayerControls.Axis | src/en/player.c:110-121 | an axis is +1 iff only the positive key is held, -1 iff only the negative one, else 0 |
| PlayerControls.HatMatchesAxis | src/en/player.c:123-128 | the hat queries equal the main axes, in {-1, 0, 1} |
| PlayerControls.DefaultAxes | src/en/player.c:192-200 | the arrows drive the main stick and H/L/K/J the secondary stick, with opposite keys cancelling |
| PlayerControls.DefaultButtonsShareKeys | src/en/player.c:202-210 | primary and jump are Z, secondary and attack X, tertiary and action C, quaterny V, dismount A |
| PlayerControls.ZAlone | src/en/player.c:130-154 | holding Z alone presses only primary and jump and centres both sticks |
| PlayerControls.KeyboardController.constructor | src/en/player.c:188-211 | records the allocator, its block and the bindings |
| PlayerControls.KeyboardController.Destroy | src/en/player.c:155-158 | the controller's block goes back to the allocator stored at creation |
| PlayerControls.DefaultController | src/en/player.c:185-213 | a fresh block from the allocator, with the default bindings |
| PlayerControls.TeardownOf | src/en/player.c:56-65 | corrected teardown: body first, then the controller if there is one, then the base destroy |
| PlayerControls.TeardownCrashesWithoutController | src/en/player.c:60-62 | the as-written teardown equals the corrected one when there is a controller, and crashes when there is none |
| PlayerControls.Player.constructor | src/en/player.c:49-53 | the player's object, body and controller as given |
| PlayerControls.Player.Destroy | src/en/player.c:56-65 | performs the steps of `TeardownOf`, frees the controller's block, and clears the body id and the controller |
| DebugDraw.SetColor | src/debug/debug_draw.c:78-83 | r, g and b are the three low bytes of the colour, each below 256 |
| DebugDraw.SetColorOfHex | src/debug/debug_draw.c:79-81 | unpacking 0xRRGGBB gives back RR, GG and BB |
| DebugDraw.HexOfSetColor | src/debug/debug_draw.c:79-81 | repacking the channels gives the colour's low 24 bits |
| DebugDraw.ChainDegree | src/debug/debug_draw.c:106-111 | in the loop's open chain, the ends touch one segment and the inner vertices two |
| DebugDraw.ChainSteps | src/debug/debug_draw.c:106-111 | loop segment i joins vertex i to vertex i + 1 |
| DebugDraw.OutlineStep | src/debug/debug_draw.c:102-111 | each outline segment joins a vertex to the next one around the polygon |
| DebugDraw.OutlineSteps | src/debug/debug_draw.c:102-111 | the outline of an n-gon has n segments, each to the next vertex around |
| DebugDraw.OutlineDegree | src/debug/debug_draw.c:102-111 | every vertex is an endpoint of exactly two outline segments |
| DebugDraw.Outline | src/debug/debug_draw.c:94-112 | nothing without a context or with fewer than 3 vertices; otherwise an opaque pen and the closing edge, then (i-1, i) in order |
| DebugDraw.FanOf | src/debug/debug_draw.c:134-139 | the fan index buffer has 3(n - 2) entries |
| DebugDraw.FanCoversPolygon | src/debug/debug_draw.c:134-139 | triangle t is (0, t+1, t+2), every index is in [0, n), neighbouring triangles share an edge from 0, and every vertex is used |
| DebugDraw.FanVertices | src/debug/debug_draw.c:124-132 | one output vertex per input vertex, in input order, all in the opaque colour |
| DebugDraw.FanIndices | src/debug/debug_draw.c:134-139 | the loop fills the buffer with exactly `FanOf(n)` |
| DebugDraw.SolidPolygon | src/debug/debug_draw.c:114-145 | nothing without a context; otherwise a half-transparent pen, the placed vertices and the fan indices |

## Left out

- The OS and the engine are left out:
  - uinput `open`/`ioctl`/`write` are represented only by the device's fd and the event log;
  - SDL rendering calls and Box2D bodies are not modelled;
  - floating-point positions, velocities, PPM scaling and `getColor` are not modelled;
  - threads, locks and frame timing are not modelled.
- Out-of-memory is not modelled. The backing allocator always succeeds, and the `new_ptr != NULL` checks hold by construction.
- A release build with a failed `debugAssert` has undefined behaviour. Those cases are preconditions, so the model does not describe them.
- NULL `self`/`list` arguments are not modelled: `List_pop(NULL)`, `List_remove(NULL, …)` and every `self != NULL` assertion.
- Scene.Entity: the scene graph is a value tree. It captures neither aliasing between objects, nor cycles, nor the `parent` pointer as a live reference.
- Scene: custom operations are assumed to leave the transform stack alone. They are summarised as `Replaced` or `Chained` hooks.
- Scene: the `Object2DNode` wrappers that `Object2D_addChild` mallocs, and the list node each of them is pushed as, are not modelled. They are never freed.
- Lists: `ListNode.value` is not modelled; no code in the core reads or writes it.
- Some call sites do not match the signatures they call. The model follows each function body instead:
  - `Stack_create` is called with extra arguments;
  - `allocPtr`, `freePtr` and `remapBlock` are called where `allocMem`, `freeMem` and `remapMem` are defined;
  - `List_default` has no definition in the core.
- `Stack_peek` and `Stack_destroy` are not part of this model: `src/screen/ctx.c` calls them, but they are defined nowhere in the core. `Stacks.Stack.Top` stands in for the peek, and `RenderContext.Destroy` only marks the context dead.
- The stack's `stride` and the byte-wise `memcpy` are not modelled: the buffer is an array of elements.
- ArenaAllocator_getAllocator (`&self->super`) is the identity on the model. `Operations()` stands for the operation table it exposes.
- Slices.Sub: when `len + END` does not fit the `int` local `end`, the conversion is not modelled. `SubInclusiveEnd` assumes lengths up to 2^31.
- Player_render, Player_update and Player_create are not modelled, apart from the fields they set: they consist of Box2D calls and floating-point steering.
- The debug-draw point, string and segment callbacks are not modelled: they only draw at float positions. The circle, capsule and transform callbacks do nothing.
- ControllerComponent ids are never filled in by any code in the core. The getters are proved for any contents.
- `ControllerComponent_destroy` (src/input/controller.c:179-182) is not modelled. It hands `self`, the address of the component, to `freePtr`. `ControllerComponent_create` returns the component by value and allocates only the 16-byte `ids.value` buffer, so that address was never issued by the allocator, and the buffer is never freed. The model has no addresses for memory outside the allocator, so it cannot state this free.
- Stacks.GrowAsWritten: the single-precision product assumes `FLT_EVAL_METHOD` 0, so `float` arithmetic is not widened. A grown capacity too large for size_t, which the C conversion leaves undefined, is not modelled.

## Findings

| source | as written | input that shows it | evidently intended | confidence | as-written member | corrected member |
|---|---|---|---|---|---|---|
| src/heap/arena_allocator.c:56-63 | the slot table grows through realloc, which leaves the added slots uninitialised, and they are never cleared | the ninth alloc of a fresh arena, when the tenth slot's stale bytes read as "in use, 99" | new slots start empty (not in use, NULL) | medium, not executed | Arena.GrowthLeavesGarbage | Arena.PlaceInv |
| src/heap/allocator.c:23 | `remapMem` checks `allocator->alloc` and then calls `allocator->remap` | an allocator with `alloc` set and `remap` NULL, in a debug build (and the reverse, `alloc` NULL with `remap` set, aborts a request it could serve) | check `allocator->remap` | high, not executed | Alloc.RemapGateMissesNullRemap | Alloc.RemapGatesAgree |
| include/util/slice.h:37 | the second check compares the raw END, converted to size_t, with the length | any negative END in a debug build, e.g. `Slice_sub(s, 0, -1)` on a slice of length 4 | check the normalised `end` | high, not executed | Slices.NegativeEndAlwaysAborts | Slices.SubInclusiveEnd |
| src/en/player.c:61 | `objrefcall(self->controller, destroy)` dereferences the controller pointer without checking it for NULL | `Player_destroy` on a player created with a NULL controller, which `Player_update` explicitly allows | skip the controller when it is NULL | medium, not executed | PlayerControls.TeardownCrashesWithoutController | PlayerControls.TeardownOf |
| src/util/stack.c:33 | the product of `max_len *= 1.5f` is truncated back to size_t, so capacity 0 or 1 does not grow | a build with `DEFAULT_STACK_SIZE` defined as 1, pushing two elements | always grow by at least one | low, not executed | Stacks.GrowthStallsAtOne | Stacks.Grow |
