/**
 * The scene graph (src/en/obj.c). An Object2D holds a position, a size, a
 * parent back-reference, an ordered list of children and five operations
 * (preRender, render, postRender, update, destroy). The tree is a value
 * here; the traversals are recorded as traces of the operation calls they
 * make, with the transform on top of the render stack at each render-time
 * call.
 */
module Scene {
  import opened Common
  import opened Stacks
  import opened RenderCtx

  /**
   * What one of an object's operation pointers does.
   *  - Missing: the pointer is NULL;
   *  - Chained: the Object2D base operation, possibly preceded by the
   *    object's own work (Player_render, TestObj_render, Player_destroy
   *    end by calling the base);
   *  - Replaced: the object's own work only, without calling the base
   *    (Player_update).
   * Own work is assumed to leave the transform stack alone.
   */
  datatype Hook = Missing | Chained | Replaced

  datatype Hooks = Hooks(preRender: Hook, render: Hook, postRender: Hook, update: Hook, destroy: Hook)

  /** An Object2D; a child link whose object pointer is NULL is None. */
  datatype Entity = Entity(
    id: nat,
    x: real, y: real, width: real, height: real,
    parent: Option<nat>,
    hooks: Hooks,
    children: seq<Option<Entity>>)

  datatype Kind = PreRenderCall | RenderCall | PostRenderCall

  /** One call of an operation, as a traversal makes it. */
  datatype Event =
    | Rendered(kind: Kind, id: nat, at: Point)
    | Updated(id: nat)
    | Destroyed(id: nat)

  /** The calls a render-time traversal made, and the transform stack after it. */
  datatype Frame = Frame(trace: seq<Event>, stack: seq<Point>)

  /** The five base operations Object2D_create installs. */
  const BaseHooks: Hooks := Hooks(Chained, Chained, Chained, Chained, Chained)

  // ---------------------------------------------------------------------
  // Construction

  /** Object2D_create: the given geometry, no parent, no children, the base operations. */
  function Create(id: nat, x: real, y: real, width: real, height: real): (e: Entity)
    ensures e.id == id && e.x == x && e.y == y && e.width == width && e.height == height
    ensures e.parent == None && e.children == [] && e.hooks == BaseHooks
  {
    Entity(id, x, y, width, height, None, BaseHooks, [])
  }

  /** Object2D_default: a unit square at the origin. */
  function Default(id: nat): (e: Entity)
    ensures e == Create(id, 0.0, 0.0, 1.0, 1.0)
  {
    Create(id, 0.0, 0.0, 1.0, 1.0)
  }

  /**
   * Object2D_addChild: a NULL child changes nothing; otherwise the child
   * is linked at the end of the parent's children and records the parent.
   * Returns the new parent and the new child.
   */
  function AddChild(parent: Entity, child: Option<Entity>): (r: (Entity, Option<Entity>))
    ensures child.None? ==> r == (parent, child)
    ensures child.Some? ==>
              && r.1 == Some(child.value.(parent := Some(parent.id)))
              && r.0 == parent.(children := parent.children + [r.1])
  {
    match child
    case None => (parent, None)
    case Some(c) =>
      var c' := c.(parent := Some(parent.id));
      (parent.(children := parent.children + [Some(c')]), Some(c'))
  }

  // ---------------------------------------------------------------------
  // Transforms

  /** The C cast `(int)` of a float: truncation toward zero. */
  function Trunc(r: real): (n: int)
    ensures r >= 0.0 ==> n as real <= r < n as real + 1.0
    ensures r < 0.0 ==> n as real - 1.0 < r <= n as real
  {
    if r >= 0.0 then r.Floor else -((-r).Floor)
  }

  /** The offset preRender adds to the current transform. */
  function Offset(e: Entity): Point
  {
    Point(Trunc(e.x), Trunc(e.y))
  }

  function Translate(p: Point, d: Point): Point
  {
    Point(p.x + d.x, p.y + d.y)
  }

  /** Stack_pop on a value: an empty stack stays empty. */
  function Pop(st: seq<Point>): seq<Point>
  {
    if st == [] then [] else st[..|st| - 1]
  }

  /** Whether an operation pushes (preRender) or pops (postRender) a transform. */
  predicate Moves(h: Hook)
  {
    h == Chained
  }

  // ---------------------------------------------------------------------
  // Render, on the transform stack

  /** A call of `e`'s preRender with `st` on the stack. */
  function PreRenderStep(e: Entity, st: seq<Point>): (f: Frame)
  {
    match e.hooks.preRender
    case Missing => Frame([], st)
    case Replaced => Frame([Rendered(PreRenderCall, e.id, TransformOf(st))], st)
    case Chained =>
      Frame([Rendered(PreRenderCall, e.id, TransformOf(st))], st + [Translate(TransformOf(st), Offset(e))])
  }

  /** A call of `e`'s postRender with `st` on the stack. */
  function PostRenderStep(e: Entity, st: seq<Point>): (f: Frame)
  {
    match e.hooks.postRender
    case Missing => Frame([], st)
    case Replaced => Frame([Rendered(PostRenderCall, e.id, TransformOf(st))], st)
    case Chained => Frame([Rendered(PostRenderCall, e.id, TransformOf(st))], Pop(st))
  }

  /** A call of `e`'s render with `st` on the stack. */
  function RenderStep(e: Entity, st: seq<Point>): Frame
    decreases e, 1
  {
    match e.hooks.render
    case Missing => Frame([], st)
    case Replaced => Frame([Rendered(RenderCall, e.id, TransformOf(st))], st)
    case Chained =>
      var rest := ChildrenStep(e, 0, st);
      Frame([Rendered(RenderCall, e.id, TransformOf(st))] + rest.trace, rest.stack)
  }

  /**
   * Object2D_render's loop from child `i` on: preRender, render and
   * postRender of each child in order, stopping at a NULL object.
   */
  function ChildrenStep(e: Entity, i: nat, st: seq<Point>): Frame
    decreases e, 0, |e.children| - i
  {
    if i >= |e.children| || e.children[i].None? then Frame([], st)
    else
      var turn := ChildStep(e.children[i].value, st);
      var rest := ChildrenStep(e, i + 1, turn.stack);
      Frame(turn.trace + rest.trace, rest.stack)
  }

  /** One turn of the loop: preRender, render and postRender of child `c`. */
  function ChildStep(c: Entity, st: seq<Point>): Frame
    decreases c, 2
  {
    var a := PreRenderStep(c, st);
    var b := RenderStep(c, a.stack);
    var d := PostRenderStep(c, b.stack);
    Frame(a.trace + b.trace + d.trace, d.stack)
  }

  // ---------------------------------------------------------------------
  // Render, without a stack

  /**
   * Every object the render traversal reaches pops exactly when it pushes:
   * its preRender and postRender are both the base ones or both not.
   */
  ghost predicate Paired(e: Entity)
    decreases e, 1
  {
    PairedFrom(e, 0)
  }

  ghost predicate PairedFrom(e: Entity, i: nat)
    decreases e, 0, |e.children| - i
  {
    i >= |e.children| || e.children[i].None? ||
    (var c := e.children[i].value;
     Moves(c.hooks.preRender) == Moves(c.hooks.postRender) && Paired(c) && PairedFrom(e, i + 1))
  }

  /** The preRender event of `c` when called at `at`, if it has one. */
  function PreEvent(c: Entity, at: Point): seq<Event>
  {
    if c.hooks.preRender.Missing? then [] else [Rendered(PreRenderCall, c.id, at)]
  }

  /** The postRender event of `c` when called at `at`, if it has one. */
  function PostEvent(c: Entity, at: Point): seq<Event>
  {
    if c.hooks.postRender.Missing? then [] else [Rendered(PostRenderCall, c.id, at)]
  }

  /**
   * The intended meaning of render: each object's render is called with
   * its parent's transform moved by the object's own truncated position
   * (when its preRender is the base one), children in insertion order.
   */
  function Drawn(e: Entity, at: Point): seq<Event>
    decreases e, 1
  {
    match e.hooks.render
    case Missing => []
    case Replaced => [Rendered(RenderCall, e.id, at)]
    case Chained => [Rendered(RenderCall, e.id, at)] + DrawnFrom(e, 0, at)
  }

  function DrawnFrom(e: Entity, i: nat, at: Point): seq<Event>
    decreases e, 0, |e.children| - i
  {
    if i >= |e.children| || e.children[i].None? then []
    else
      var c := e.children[i].value;
      var inner := if Moves(c.hooks.preRender) then Translate(at, Offset(c)) else at;
      PreEvent(c, at) + Drawn(c, inner) + PostEvent(c, inner) + DrawnFrom(e, i + 1, at)
  }

  /**
   * On a paired tree, rendering with the transforms `st` on the stack makes
   * exactly the calls `Drawn` describes, starting from the top of `st`,
   * and leaves the stack as it found it.
   */
  lemma {:induction false} RenderMatchesDrawn(e: Entity, st: seq<Point>)
    requires Paired(e)
    ensures RenderStep(e, st) == Frame(Drawn(e, TransformOf(st)), st)
    decreases e, 1
  {
    if e.hooks.render.Chained? {
      ChildrenMatchDrawn(e, 0, st);
    }
  }

  lemma {:induction false} ChildrenMatchDrawn(e: Entity, i: nat, st: seq<Point>)
    requires PairedFrom(e, i)
    ensures ChildrenStep(e, i, st) == Frame(DrawnFrom(e, i, TransformOf(st)), st)
    decreases e, 0, |e.children| - i
  {
    if i < |e.children| && e.children[i].Some? {
      var c := e.children[i].value;
      var a := PreRenderStep(c, st);
      var inner := if Moves(c.hooks.preRender) then Translate(TransformOf(st), Offset(c)) else TransformOf(st);
      assert TransformOf(a.stack) == inner;
      RenderMatchesDrawn(c, a.stack);
      var b := RenderStep(c, a.stack);
      var d := PostRenderStep(c, b.stack);
      assert d.stack == st;
      ChildrenMatchDrawn(e, i + 1, st);
    }
  }

  /** Push/pop balance: on a paired tree, render leaves the transform stack unchanged. */
  lemma RenderBalanced(e: Entity, st: seq<Point>)
    requires Paired(e)
    ensures RenderStep(e, st).stack == st
  {
    RenderMatchesDrawn(e, st);
  }

  /**
   * A child whose preRender is NULL but whose postRender is the base one
   * pops its parent's transform: the pairing condition is needed.
   */
  lemma UnpairedChildPopsParent()
    ensures var child := Create(2, 5.0, 5.0, 1.0, 1.0).(hooks := BaseHooks.(preRender := Missing));
            var root := Create(1, 0.0, 0.0, 1.0, 1.0).(children := [Some(child)]);
            RenderStep(root, [Point(0, 480)]).stack == []
  {
    var child := Create(2, 5.0, 5.0, 1.0, 1.0).(hooks := BaseHooks.(preRender := Missing));
    var root := Create(1, 0.0, 0.0, 1.0, 1.0).(children := [Some(child)]);
    var st := [Point(0, 480)];
    assert PreRenderStep(child, st).stack == st;
    assert ChildrenStep(child, 0, st) == Frame([], st);
    assert RenderStep(child, st).stack == st;
    assert PostRenderStep(child, st).stack == [];
    assert ChildrenStep(root, 1, []) == Frame([], []);
    assert ChildrenStep(root, 0, st).stack == [];
  }

  // ---------------------------------------------------------------------
  // Visit order

  /**
   * The ids of the objects a depth-first walk over the child lists reaches,
   * parents before children, children in insertion order, stopping at a
   * NULL object.
   */
  function PreOrder(e: Entity): seq<nat>
    decreases e, 1
  {
    [e.id] + PreOrderFrom(e, 0)
  }

  function PreOrderFrom(e: Entity, i: nat): seq<nat>
    decreases e, 0, |e.children| - i
  {
    if i >= |e.children| || e.children[i].None? then []
    else PreOrder(e.children[i].value) + PreOrderFrom(e, i + 1)
  }

  /** The visit order depends only on the id and the children. */
  lemma {:induction false} PreOrderFromSameChildren(a: Entity, b: Entity, i: nat)
    requires a.children == b.children
    ensures PreOrderFrom(a, i) == PreOrderFrom(b, i)
    decreases |a.children| - i
  {
    if i < |a.children| && a.children[i].Some? {
      PreOrderFromSameChildren(a, b, i + 1);
    }
  }

  /** No child link from `i` on has a NULL object. */
  predicate LinkedFrom(e: Entity, i: nat)
  {
    forall k :: i <= k < |e.children| ==> e.children[k].Some?
  }

  lemma {:induction false} PreOrderFromAppend(e: Entity, c: Entity, i: nat)
    requires i <= |e.children| && LinkedFrom(e, i)
    ensures PreOrderFrom(e.(children := e.children + [Some(c)]), i) == PreOrderFrom(e, i) + PreOrder(c)
    decreases |e.children| - i
  {
    var e' := e.(children := e.children + [Some(c)]);
    if i < |e.children| {
      assert e'.children[i] == e.children[i];
      PreOrderFromAppend(e, c, i + 1);
    } else {
      assert e'.children[i] == Some(c);
      assert PreOrderFrom(e', i + 1) == [] && PreOrderFrom(e, i) == [];
    }
  }

  /**
   * addChild puts the new child, with its whole subtree, last in the visit
   * order of a parent whose child list has no NULL object.
   */
  lemma AddChildVisitsLast(parent: Entity, child: Entity)
    requires LinkedFrom(parent, 0)
    ensures PreOrder(AddChild(parent, Some(child)).0) == PreOrder(parent) + PreOrder(child)
  {
    var c' := child.(parent := Some(parent.id));
    PreOrderFromAppend(parent, c', 0);
    PreOrderFromSameChildren(c', child, 0);
  }

  /** The ids of the render calls in a trace, in order. */
  function RenderIds(t: seq<Event>): seq<nat>
  {
    if t == [] then []
    else (if t[0].Rendered? && t[0].kind == RenderCall then [t[0].id] else []) + RenderIds(t[1..])
  }

  lemma {:induction false} RenderIdsConcat(a: seq<Event>, b: seq<Event>)
    ensures RenderIds(a + b) == RenderIds(a) + RenderIds(b)
    decreases |a|
  {
    if a != [] {
      assert (a + b)[1..] == a[1..] + b;
      RenderIdsConcat(a[1..], b);
    } else {
      assert a + b == b;
    }
  }

  /** Every object the render traversal reaches has the base render. */
  ghost predicate RendersChained(e: Entity)
    decreases e, 1
  {
    e.hooks.render == Chained && RendersChainedFrom(e, 0)
  }

  ghost predicate RendersChainedFrom(e: Entity, i: nat)
    decreases e, 0, |e.children| - i
  {
    i >= |e.children| || e.children[i].None? ||
    (RendersChained(e.children[i].value) && RendersChainedFrom(e, i + 1))
  }

  /** Render calls every reachable object's render once, in depth-first insertion order. */
  lemma {:induction false} RenderVisitsPreOrder(e: Entity, at: Point)
    requires RendersChained(e)
    ensures RenderIds(Drawn(e, at)) == PreOrder(e)
    decreases e, 1
  {
    RenderIdsConcat([Rendered(RenderCall, e.id, at)], DrawnFrom(e, 0, at));
    RenderFromVisitsPreOrder(e, 0, at);
  }

  lemma {:induction false} RenderFromVisitsPreOrder(e: Entity, i: nat, at: Point)
    requires RendersChainedFrom(e, i)
    ensures RenderIds(DrawnFrom(e, i, at)) == PreOrderFrom(e, i)
    decreases e, 0, |e.children| - i
  {
    if i < |e.children| && e.children[i].Some? {
      var c := e.children[i].value;
      var inner := if Moves(c.hooks.preRender) then Translate(at, Offset(c)) else at;
      var p, d, q, rest := PreEvent(c, at), Drawn(c, inner), PostEvent(c, inner), DrawnFrom(e, i + 1, at);
      calc {
        RenderIds(DrawnFrom(e, i, at));
        RenderIds(p + d + q + rest);
        { RenderIdsConcat(p + d + q, rest); RenderIdsConcat(p + d, q); RenderIdsConcat(p, d); }
        RenderIds(p) + RenderIds(d) + RenderIds(q) + RenderIds(rest);
        { HooksRenderNoIds(c, at, inner); }
        RenderIds(d) + RenderIds(rest);
        { RenderVisitsPreOrder(c, inner); RenderFromVisitsPreOrder(e, i + 1, at); }
        PreOrder(c) + PreOrderFrom(e, i + 1);
      }
    }
  }

  /** The preRender and postRender calls are not render calls. */
  lemma HooksRenderNoIds(c: Entity, at: Point, inner: Point)
    ensures RenderIds(PreEvent(c, at)) == [] && RenderIds(PostEvent(c, inner)) == []
  {
    assert PreEvent(c, at) != [] ==> PreEvent(c, at)[1..] == [];
    assert PostEvent(c, inner) != [] ==> PostEvent(c, inner)[1..] == [];
  }

  // ---------------------------------------------------------------------
  // Update and destroy

  /** The calls an update made, and whether it got through without calling through NULL. */
  datatype Outcome = Outcome(trace: seq<Event>, ok: bool)

  /**
   * A direct call of `e`'s update, as Object2D_update makes for each
   * child: a NULL operation is a call through NULL.
   */
  function UpdateStep(e: Entity): Outcome
    decreases e, 1
  {
    match e.hooks.update
    case Missing => Outcome([], false)
    case Replaced => Outcome([Updated(e.id)], true)
    case Chained =>
      var rest := UpdateFrom(e, 0);
      Outcome([Updated(e.id)] + rest.trace, rest.ok)
  }

  /** Object2D_update's loop from child `i` on; a NULL object is dereferenced too. */
  function UpdateFrom(e: Entity, i: nat): Outcome
    decreases e, 0, |e.children| - i
  {
    if i >= |e.children| then Outcome([], true)
    else if e.children[i].None? then Outcome([], false)
    else
      var a := UpdateStep(e.children[i].value);
      if !a.ok then a
      else
        var b := UpdateFrom(e, i + 1);
        Outcome(a.trace + b.trace, b.ok)
  }

  /** Every object update reaches has an update operation, and no child link reached holds NULL. */
  ghost predicate Updatable(e: Entity)
    decreases e, 1
  {
    e.hooks.update != Missing && (e.hooks.update == Chained ==> UpdatableFrom(e, 0))
  }

  ghost predicate UpdatableFrom(e: Entity, i: nat)
    decreases e, 0, |e.children| - i
  {
    i >= |e.children| || (e.children[i].Some? && Updatable(e.children[i].value) && UpdatableFrom(e, i + 1))
  }

  /** Update runs to completion exactly when it never meets a NULL object or a NULL update. */
  lemma {:induction false} UpdateOkIffUpdatable(e: Entity)
    ensures UpdateStep(e).ok <==> Updatable(e)
    decreases e, 1
  {
    if e.hooks.update == Chained {
      UpdateFromOkIff(e, 0);
    }
  }

  lemma {:induction false} UpdateFromOkIff(e: Entity, i: nat)
    ensures UpdateFrom(e, i).ok <==> UpdatableFrom(e, i)
    decreases e, 0, |e.children| - i
  {
    if i < |e.children| && e.children[i].Some? {
      UpdateOkIffUpdatable(e.children[i].value);
      UpdateFromOkIff(e, i + 1);
    }
  }

  /** The update events for a sequence of ids. */
  function Updates(ids: seq<nat>): (t: seq<Event>)
    ensures |t| == |ids| && forall k :: 0 <= k < |ids| ==> t[k] == Updated(ids[k])
  {
    if ids == [] then [] else [Updated(ids[0])] + Updates(ids[1..])
  }

  lemma UpdatesConcat(a: seq<nat>, b: seq<nat>)
    ensures Updates(a + b) == Updates(a) + Updates(b)
  {
  }

  /** Every object update reaches uses the base update, and no child link reached holds NULL. */
  ghost predicate UpdatesChained(e: Entity)
    decreases e, 1
  {
    e.hooks.update == Chained && UpdatesChainedFrom(e, 0)
  }

  ghost predicate UpdatesChainedFrom(e: Entity, i: nat)
    decreases e, 0, |e.children| - i
  {
    i >= |e.children| ||
    (e.children[i].Some? && UpdatesChained(e.children[i].value) && UpdatesChainedFrom(e, i + 1))
  }

  /** With the base update everywhere, update reaches every object once, in depth-first insertion order. */
  lemma {:induction false} UpdateVisitsPreOrder(e: Entity)
    requires UpdatesChained(e)
    ensures UpdateStep(e) == Outcome(Updates(PreOrder(e)), true)
    decreases e, 1
  {
    UpdateFromVisitsPreOrder(e, 0);
    UpdatesConcat([e.id], PreOrderFrom(e, 0));
  }

  lemma {:induction false} UpdateFromVisitsPreOrder(e: Entity, i: nat)
    requires UpdatesChainedFrom(e, i)
    ensures UpdateFrom(e, i) == Outcome(Updates(PreOrderFrom(e, i)), true)
    decreases e, 0, |e.children| - i
  {
    if i < |e.children| {
      var c := e.children[i].value;
      UpdateVisitsPreOrder(c);
      UpdateFromVisitsPreOrder(e, i + 1);
      UpdatesConcat(PreOrder(c), PreOrderFrom(e, i + 1));
    }
  }

  /** A call of `e`'s destroy through objrefcall: a NULL operation is skipped. */
  function DestroyStep(e: Entity): seq<Event>
    decreases e, 1
  {
    match e.hooks.destroy
    case Missing => []
    case Replaced => [Destroyed(e.id)]
    case Chained => [Destroyed(e.id)] + DestroyFrom(e, 0)
  }

  /** Object2D_destroy's loop from child `i` on, stopping at a NULL object. */
  function DestroyFrom(e: Entity, i: nat): seq<Event>
    decreases e, 0, |e.children| - i
  {
    if i >= |e.children| || e.children[i].None? then []
    else DestroyStep(e.children[i].value) + DestroyFrom(e, i + 1)
  }

  /** The destroy events for a sequence of ids. */
  function Destroys(ids: seq<nat>): (t: seq<Event>)
    ensures |t| == |ids| && forall k :: 0 <= k < |ids| ==> t[k] == Destroyed(ids[k])
  {
    if ids == [] then [] else [Destroyed(ids[0])] + Destroys(ids[1..])
  }

  lemma DestroysConcat(a: seq<nat>, b: seq<nat>)
    ensures Destroys(a + b) == Destroys(a) + Destroys(b)
  {
  }

  /** Every object destroy reaches uses the base destroy (or own work ending in it). */
  ghost predicate DestroysChained(e: Entity)
    decreases e, 1
  {
    e.hooks.destroy == Chained && DestroysChainedFrom(e, 0)
  }

  ghost predicate DestroysChainedFrom(e: Entity, i: nat)
    decreases e, 0, |e.children| - i
  {
    i >= |e.children| || e.children[i].None? ||
    (DestroysChained(e.children[i].value) && DestroysChainedFrom(e, i + 1))
  }

  /** Destroy reaches exactly the objects of the visit order, each once, in that order. */
  lemma {:induction false} DestroyVisitsPreOrder(e: Entity)
    requires DestroysChained(e)
    ensures DestroyStep(e) == Destroys(PreOrder(e))
    decreases e, 1
  {
    DestroyFromVisitsPreOrder(e, 0);
    DestroysConcat([e.id], PreOrderFrom(e, 0));
  }

  lemma {:induction false} DestroyFromVisitsPreOrder(e: Entity, i: nat)
    requires DestroysChainedFrom(e, i)
    ensures DestroyFrom(e, i) == Destroys(PreOrderFrom(e, i))
    decreases e, 0, |e.children| - i
  {
    if i < |e.children| && e.children[i].Some? {
      var c := e.children[i].value;
      DestroyVisitsPreOrder(c);
      DestroyFromVisitsPreOrder(e, i + 1);
      DestroysConcat(PreOrder(c), PreOrderFrom(e, i + 1));
    }
  }

  /**
   * A NULL object in the child list ends render and destroy quietly, but
   * update calls through it.
   */
  lemma NullChildStopsTraversals(e: Entity, i: nat, st: seq<Point>)
    requires i < |e.children| && e.children[i].None?
    ensures ChildrenStep(e, i, st) == Frame([], st)
    ensures DestroyFrom(e, i) == []
    ensures !UpdateFrom(e, i).ok
  {
  }

  // ---------------------------------------------------------------------
  // The traversals, run against a render context

  /** Object2D_preRender: pushes the current transform moved by the truncated position. */
  method PreRender(e: Entity, ctx: RenderContext)
    requires ctx.Valid()
    modifies ctx.transforms, ctx.transforms.buf
    ensures ctx.Valid()
    ensures ctx.transforms.buf == old(ctx.transforms.buf) || fresh(ctx.transforms.buf)
    ensures ctx.Transforms() == old(ctx.Transforms()) + [Translate(old(ctx.GetTransform()), Offset(e))]
  {
    var t := ctx.GetTransform();
    ctx.transforms.Push(Translate(t, Offset(e)));
  }

  /** Object2D_postRender: pops the top transform (nothing, on an empty stack). */
  method PostRender(ctx: RenderContext)
    requires ctx.Valid()
    modifies ctx.transforms
    ensures ctx.Valid() && ctx.transforms.buf == old(ctx.transforms.buf)
    ensures ctx.Transforms() == Pop(old(ctx.Transforms()))
  {
    var _ := ctx.transforms.Pop();
  }

  /** objrefcall(child, preRender, ctx): the call, unless the operation is NULL. */
  method CallPreRender(c: Entity, ctx: RenderContext) returns (trace: seq<Event>)
    requires ctx.Valid()
    modifies ctx.transforms, ctx.transforms.buf
    ensures ctx.Valid()
    ensures ctx.transforms.buf == old(ctx.transforms.buf) || fresh(ctx.transforms.buf)
    ensures Frame(trace, ctx.Transforms()) == PreRenderStep(c, old(ctx.Transforms()))
  {
    trace := [];
    if c.hooks.preRender != Missing {
      trace := [Rendered(PreRenderCall, c.id, ctx.GetTransform())];
    }
    if c.hooks.preRender == Chained {
      PreRender(c, ctx);
    }
  }

  /** objrefcall(child, postRender, ctx): the call, unless the operation is NULL. */
  method CallPostRender(c: Entity, ctx: RenderContext) returns (trace: seq<Event>)
    requires ctx.Valid()
    modifies ctx.transforms
    ensures ctx.Valid() && ctx.transforms.buf == old(ctx.transforms.buf)
    ensures Frame(trace, ctx.Transforms()) == PostRenderStep(c, old(ctx.Transforms()))
  {
    trace := [];
    if c.hooks.postRender != Missing {
      trace := [Rendered(PostRenderCall, c.id, ctx.GetTransform())];
    }
    if c.hooks.postRender == Chained {
      PostRender(ctx);
    }
  }

  /** objrefcall(child, render, ctx): the call, unless the operation is NULL. */
  method CallRender(c: Entity, ctx: RenderContext) returns (trace: seq<Event>)
    requires ctx.Valid()
    modifies ctx.transforms, ctx.transforms.buf
    ensures ctx.Valid()
    ensures ctx.transforms.buf == old(ctx.transforms.buf) || fresh(ctx.transforms.buf)
    ensures Frame(trace, ctx.Transforms()) == RenderStep(c, old(ctx.Transforms()))
    decreases c, 1
  {
    trace := [];
    if c.hooks.render != Missing {
      trace := [Rendered(RenderCall, c.id, ctx.GetTransform())];
    }
    if c.hooks.render == Chained {
      var rest := Render(c, ctx);
      trace := trace + rest;
    }
  }

  /**
   * Object2D_render: preRender, render and postRender of each child in
   * insertion order, through objrefcall, up to the first NULL object.
   */
  method Render(e: Entity, ctx: RenderContext) returns (trace: seq<Event>)
    requires ctx.Valid()
    modifies ctx.transforms, ctx.transforms.buf
    ensures ctx.Valid()
    ensures ctx.transforms.buf == old(ctx.transforms.buf) || fresh(ctx.transforms.buf)
    ensures Frame(trace, ctx.Transforms()) == ChildrenStep(e, 0, old(ctx.Transforms()))
    decreases e, 0
  {
    ghost var goal := ChildrenStep(e, 0, ctx.Transforms());
    ghost var st := ctx.Transforms();
    trace := [];
    var i := 0;
    while i < |e.children| && e.children[i].Some?
      invariant 0 <= i <= |e.children|
      invariant ctx.Valid() && st == ctx.Transforms()
      invariant ctx.transforms.buf == old(ctx.transforms.buf) || fresh(ctx.transforms.buf)
      invariant goal == Frame(trace + ChildrenStep(e, i, st).trace, ChildrenStep(e, i, st).stack)
      decreases |e.children| - i
    {
      ghost var turn := ChildStep(e.children[i].value, st);
      var t := RenderChild(e.children[i].value, ctx);
      assert turn == Frame(t, ctx.Transforms());
      ghost var rest := ChildrenStep(e, i + 1, ctx.Transforms());
      assert ChildrenStep(e, i, st) == Frame(t + rest.trace, rest.stack);
      assert trace + (t + rest.trace) == (trace + t) + rest.trace;
      trace := trace + t;
      st := ctx.Transforms();
      i := i + 1;
    }
  }

  /** The body of Object2D_render's loop for one child. */
  method RenderChild(c: Entity, ctx: RenderContext) returns (trace: seq<Event>)
    requires ctx.Valid()
    modifies ctx.transforms, ctx.transforms.buf
    ensures ctx.Valid()
    ensures ctx.transforms.buf == old(ctx.transforms.buf) || fresh(ctx.transforms.buf)
    ensures Frame(trace, ctx.Transforms()) == ChildStep(c, old(ctx.Transforms()))
    decreases c, 2
  {
    var t1 := CallPreRender(c, ctx);
    var t2 := CallRender(c, ctx);
    var t3 := CallPostRender(c, ctx);
    trace := t1 + t2 + t3;
  }

  /** A direct call `child->update(child, dt)`: a NULL operation crashes. */
  method CallUpdate(c: Entity) returns (trace: seq<Event>, ok: bool)
    ensures Outcome(trace, ok) == UpdateStep(c)
    decreases c, 1
  {
    match c.hooks.update
    case Missing =>
      return [], false;
    case Replaced =>
      return [Updated(c.id)], true;
    case Chained =>
      var rest;
      rest, ok := Update(c);
      trace := [Updated(c.id)] + rest;
  }

  /**
   * Object2D_update: calls each child's update directly, in insertion
   * order; a NULL object or a NULL update operation ends it with a crash.
   */
  method Update(e: Entity) returns (trace: seq<Event>, ok: bool)
    ensures Outcome(trace, ok) == UpdateFrom(e, 0)
    decreases e, 0
  {
    trace := [];
    var i := 0;
    while i < |e.children|
      invariant 0 <= i <= |e.children|
      invariant UpdateFrom(e, 0).ok == UpdateFrom(e, i).ok
      invariant UpdateFrom(e, 0).trace == trace + UpdateFrom(e, i).trace
      decreases |e.children| - i
    {
      if e.children[i].None? {
        return trace, false;
      }
      var t, childOk := CallUpdate(e.children[i].value);
      trace := trace + t;
      if !childOk {
        return trace, false;
      }
      i := i + 1;
    }
    ok := true;
  }

  /** objrefcall(child, destroy): the call, unless the operation is NULL. */
  method CallDestroy(c: Entity) returns (trace: seq<Event>)
    ensures trace == DestroyStep(c)
    decreases c, 1
  {
    trace := [];
    if c.hooks.destroy != Missing {
      trace := [Destroyed(c.id)];
    }
    if c.hooks.destroy == Chained {
      var rest := Destroy(c);
      trace := trace + rest;
    }
  }

  /**
   * Object2D_destroy: each child's destroy in insertion order, up to the
   * first NULL object. Neither the node wrappers nor the list are freed.
   */
  method Destroy(e: Entity) returns (trace: seq<Event>)
    ensures trace == DestroyFrom(e, 0)
    decreases e, 0
  {
    trace := [];
    var i := 0;
    while i < |e.children| && e.children[i].Some?
      invariant 0 <= i <= |e.children|
      invariant DestroyFrom(e, 0) == trace + DestroyFrom(e, i)
      decreases |e.children| - i
    {
      var t := CallDestroy(e.children[i].value);
      trace := trace + t;
      i := i + 1;
    }
  }
}
