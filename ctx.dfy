/**
 * The render context (src/screen/ctx.c): the renderer handle, which is
 * left out, and the stack of transforms the scene graph pushes and pops
 * while it renders. Transforms hold whole numbers: every value pushed is
 * the frame's integer origin plus integer-truncated offsets.
 */
module RenderCtx {
  import opened Common
  import opened Stacks

  /** SDL_FPoint restricted to the integral values the program stores in it. */
  datatype Point = Point(x: int, y: int)

  /** sizeof(SDL_FPoint): the stride of the transform stack. */
  const POINT_BYTES: nat := 8

  /** The transform getTransform reports for a stack holding `st`, bottom first. */
  function TransformOf(st: seq<Point>): (p: Point)
  {
    if st == [] then Point(0, 0) else st[|st| - 1]
  }

  class RenderContext {
    const transforms: Stack<Point>
    var live: bool

    ghost predicate Valid()
      reads this, transforms, transforms.buf
    {
      live && transforms.Valid()
    }

    /** The transforms on the stack, bottom first. */
    ghost function Transforms(): seq<Point>
      reads this, transforms, transforms.buf
      requires Valid()
    {
      transforms.Contents()
    }

    /** RenderContext_create: an empty transform stack. */
    constructor ()
      ensures Valid() && Transforms() == []
      ensures fresh(transforms) && fresh(transforms.buf)
    {
      transforms := new Stack<Point>(POINT_BYTES);
      live := true;
    }

    /**
     * RenderContext_getTransform: the origin (0,0) when no transform has
     * been pushed, otherwise the top transform, which stays on the stack.
     */
    function GetTransform(): (p: Point)
      reads this, transforms, transforms.buf
      requires Valid()
      ensures Transforms() == [] ==> p == Point(0, 0)
      ensures Transforms() != [] ==> p == Transforms()[|Transforms()| - 1]
      ensures p == TransformOf(Transforms())
    {
      match transforms.Top()
      case None => Point(0, 0)
      case Some(t) => t
    }

    /** RenderContext_destroy: the transform stack is released and the context is no longer usable. */
    method Destroy()
      requires Valid()
      modifies this
      ensures !live
    {
      live := false;
    }
  }
}
