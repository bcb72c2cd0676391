/**
 * The older per-entity Metal attachment, still driven by the renderer's own
 * upload and per-frame passes: it is handed an already converted box, builds
 * one acceleration structure over it, and refits that structure from the
 * buffer it already holds.
 */
module Attachments {
  import opened Geometry
  import opened Gpu

  /** The box an attachment holds before its first build: all coordinates zero. */
  const ZeroBox: Aabb := Aabb(Vec3(0.0, 0.0, 0.0), Vec3(0.0, 0.0, 0.0))

  class MetalAttachment {
    var aabb: Aabb
    var blas: Ptr
    var aabbBuff: Ptr
    var blasDesc: Ptr
    var scratchBuff: Ptr
    var refitRequired: bool

    /** A value-initialised attachment: every handle null, nothing built. */
    constructor ()
      ensures GetBlas() == Null
      ensures aabbBuff == Null && blasDesc == Null && scratchBuff == Null
      ensures !refitRequired && aabb == ZeroBox
    {
      aabb, blas, aabbBuff, blasDesc, scratchBuff, refitRequired := ZeroBox, Null, Null, Null, Null, false;
    }

    /**
     * Records `a` and builds a structure over it: a fresh buffer holding `a`,
     * a fresh descriptor, scratch buffer and structure, one build command.
     * Handles held from an earlier build are overwritten, not released.
     */
    method BuildBlas(ctx: GpuContext, a: Aabb)
      modifies this, ctx
      ensures aabb == a && !NeedsRefit(a)
      ensures refitRequired == old(refitRequired)
      ensures aabbBuff.Ref? && blasDesc.Ref? && scratchBuff.Ref? && blas.Ref?
      ensures old(ctx.nextId) <= aabbBuff.id < blasDesc.id < scratchBuff.id < blas.id < ctx.nextId
      ensures ctx.buffers == old(ctx.buffers)[aabbBuff.id := a]
      ensures ctx.log == old(ctx.log) + [Build(blas, BoundingBoxGeometry(aabbBuff, 1, true), scratchBuff)]
      ensures ctx.released == old(ctx.released)
    {
      aabb := a;
      aabbBuff := ctx.NewAabbBuffer(a);
      blasDesc := ctx.Allocate();
      scratchBuff := ctx.Allocate();
      blas := ctx.Allocate();
      ctx.EncodeBuild(blas, BoundingBoxGeometry(aabbBuff, 1, true), scratchBuff);
    }

    /**
     * Refits the structure against the bounding-box buffer it already holds:
     * one refit command whose fresh result replaces the structure handle, and
     * the previous handle released when it was not null. The stored box and
     * the buffer contents stay as they were, so whether a box needs a refit is
     * the same afterwards as before.
     */
    method RefitBlas(ctx: GpuContext)
      modifies this, ctx
      ensures aabb == old(aabb) && aabbBuff == old(aabbBuff) && blasDesc == old(blasDesc)
      ensures scratchBuff == old(scratchBuff) && refitRequired == old(refitRequired)
      ensures forall x :: NeedsRefit(x) == old(NeedsRefit(x))
      ensures blas == Ref(old(ctx.nextId)) && ctx.nextId == old(ctx.nextId) + 1
      ensures ctx.buffers == old(ctx.buffers)
      ensures ctx.log == old(ctx.log) + [Refit(old(blas), BoundingBoxGeometry(aabbBuff, 1, true), blas, scratchBuff)]
      ensures ctx.released == old(ctx.released) + if old(blas).Ref? then {old(blas).id} else {}
    {
      var blasNew := ctx.EncodeRefit(blas, BoundingBoxGeometry(aabbBuff, 1, true), scratchBuff);
      if blas.Ref? {
        ctx.Release(blas);
      }
      blas := blasNew;
    }

    /** The current structure handle; null until the first build. */
    function GetBlas(): (r: Ptr)
      reads this
      ensures r == blas
    {
      blas
    }

    /**
     * Whether `candidate` moved beyond tolerance from the recorded box: true
     * exactly when one of the six coordinates differs by `Eps` or more.
     */
    function NeedsRefit(candidate: Aabb): (r: bool)
      reads this
      ensures r <==> SomeComponentMoved(aabb, candidate)
    {
      NeedsRefitIffSomeComponentMoved(aabb, candidate);
      Geometry.NeedsRefit(aabb, candidate)
    }
  }

  /**
   * Once the box handed to `NeedsRefit` has moved away from the one built,
   * refitting does not bring them back together: the attachment keeps asking
   * for a refit.
   */
  method RefitKeepsNeedingRefit(ctx: GpuContext, att: MetalAttachment, built: Aabb, moved: Aabb)
    requires Geometry.NeedsRefit(built, moved)
    modifies att, ctx
    ensures att.NeedsRefit(moved)
  {
    att.BuildBlas(ctx, built);
    att.RefitBlas(ctx);
    assert att.aabb == built;
  }
}
