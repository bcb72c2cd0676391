/**
 * The AABB render packet: one acceleration structure built over the single
 * axis-aligned box of an entity's bounding volume, with the change test that
 * decides between a refit and a no-op.
 */
module RenderPacket {
  import opened Wrappers
  import opened Components
  import opened Geometry
  import opened Gpu

  /**
   * The canonical box of a bounding volume. A sphere of size `d` is the box
   * centred on the origin with half-extent `d` on every axis; any other style
   * tag is an error and yields no box.
   */
  function ToMtlAabb(bbox: BoundingBox): (r: Result<Aabb>)
    ensures r.Ok? <==> bbox.style == Sphere
    ensures r.Err? ==> r.error == InvalidShapeError
    ensures r.Ok? ==> forall i :: 0 <= i < 6 ==> Coords(r.value)[i] == if i < 3 then -bbox.d else bbox.d
  {
    if bbox.style == Sphere then
      Ok(Aabb(Vec3(-bbox.d, -bbox.d, -bbox.d), Vec3(bbox.d, bbox.d, bbox.d)))
    else
      Err(InvalidShapeError)
  }

  /** For spheres the six-coordinate test reduces to: the size moved by `Eps` or more. */
  lemma SphereNeedsRefitIffSizeMoved(b: BoundingBox, b': BoundingBox)
    requires b.style == Sphere && b'.style == Sphere
    ensures NeedsRefit(ToMtlAabb(b).value, ToMtlAabb(b').value) <==> Abs(b.d - b'.d) >= Eps
  {
    var s, t := ToMtlAabb(b).value, ToMtlAabb(b').value;
    NeedsRefitIffSomeComponentMoved(s, t);
    if Abs(b.d - b'.d) >= Eps {
      assert Abs(Coords(s)[3] - Coords(t)[3]) >= Eps;
    } else {
      forall i | 0 <= i < 6
        ensures Abs(Coords(s)[i] - Coords(t)[i]) < Eps
      {
        if i < 3 {
          assert Coords(s)[i] - Coords(t)[i] == -(b.d - b'.d);
        } else {
          assert Coords(s)[i - 3 + 3] - Coords(t)[i - 3 + 3] == b.d - b'.d;
        }
      }
    }
  }

  /**
   * The box a packet holds after `smart_refit` towards `target`: the target
   * when it moved beyond tolerance, the old box otherwise. Either way the
   * result no longer needs a refit towards `target`.
   */
  function SmartRefitAabb(stored: Aabb, target: Aabb): (r: Aabb)
    ensures !NeedsRefit(r, target)
    ensures r == target || r == stored
    ensures r == stored <== !NeedsRefit(stored, target)
  {
    if NeedsRefit(stored, target) then target else stored
  }

  /** A second `smart_refit` towards the same target changes nothing. */
  lemma SmartRefitIdempotent(stored: Aabb, target: Aabb)
    ensures SmartRefitAabb(SmartRefitAabb(stored, target), target) == SmartRefitAabb(stored, target)
  {
  }

  /** Every field of a render packet, as a value. */
  datatype PacketState = PacketState(aabb: Aabb, blas: Ptr, aabbBuff: Ptr, scratchBuff: Ptr)

  /** The render packet of one entity and the GPU objects it owns. */
  class RenderPacketAabb {
    /** The box of the last build or refit. */
    var aabb: Aabb
    var blas: Ptr
    var aabbBuff: Ptr
    var scratchBuff: Ptr

    /** A packet always owns a structure, a bounding-box buffer and a scratch buffer. */
    ghost predicate Valid()
      reads this
    {
      blas.Ref? && aabbBuff.Ref? && scratchBuff.Ref?
    }

    /** The packet's fields as one value. */
    function State(): PacketState
      reads this
    {
      PacketState(aabb, blas, aabbBuff, scratchBuff)
    }

    /** The geometry this packet's structure is built from: its buffer, one opaque box. */
    function Descriptor(): GeometryDescriptor
      reads this
    {
      BoundingBoxGeometry(aabbBuff, 1, true)
    }

    /**
     * Builds the structure for an already converted box: a fresh buffer
     * holding `a`, a fresh scratch buffer, a fresh structure, and one build
     * command recorded into the context's encoder.
     */
    constructor (ctx: GpuContext, a: Aabb)
      modifies ctx
      ensures Valid() && aabb == a
      ensures old(ctx.nextId) <= aabbBuff.id < scratchBuff.id < blas.id < ctx.nextId
      ensures ctx.buffers == old(ctx.buffers)[aabbBuff.id := a]
      ensures ctx.log == old(ctx.log) + [Build(blas, Descriptor(), scratchBuff)]
      ensures Kinds(ctx.log) == Kinds(old(ctx.log)) + [BuildKind]
      ensures ctx.released == old(ctx.released)
    {
      var buff := ctx.NewAabbBuffer(a);
      var scratch := ctx.Allocate();
      var structure := ctx.Allocate();
      aabb, aabbBuff, scratchBuff, blas := a, buff, scratch, structure;
      new;
      ctx.EncodeBuild(blas, BoundingBoxGeometry(aabbBuff, 1, true), scratchBuff);
    }

    /**
     * Constructs the packet of a bounding volume. An unsupported style fails
     * before anything is allocated or recorded.
     */
    static method Create(ctx: GpuContext, bbox: BoundingBox) returns (r: Result<RenderPacketAabb>)
      modifies ctx
      ensures r.Ok? <==> bbox.style == Sphere
      ensures r.Err? ==> r.error == InvalidShapeError && unchanged(ctx)
      ensures r.Ok? ==> fresh(r.value) && r.value.Valid() && r.value.aabb == ToMtlAabb(bbox).value
      ensures r.Ok? ==> old(ctx.nextId) <= r.value.aabbBuff.id < r.value.scratchBuff.id < r.value.blas.id < ctx.nextId
      ensures r.Ok? ==> ctx.buffers == old(ctx.buffers)[r.value.aabbBuff.id := r.value.aabb]
      ensures r.Ok? ==> ctx.log == old(ctx.log) + [Build(r.value.blas, r.value.Descriptor(), r.value.scratchBuff)]
      ensures r.Ok? ==> Kinds(ctx.log) == Kinds(old(ctx.log)) + [BuildKind]
      ensures ctx.released == old(ctx.released)
      ensures ctx.Extends()
    {
      var a := ToMtlAabb(bbox);
      if a.Err? {
        return Err(a.error);
      }
      var p := new RenderPacketAabb(ctx, a.value);
      r := Ok(p);
    }

    /**
     * Whether `bbox` moved beyond tolerance from the stored box: true exactly
     * when one of the six coordinates differs by `Eps` or more. Fails on an
     * unsupported style.
     */
    function NeedsRefit(bbox: BoundingBox): (r: Result<bool>)
      reads this
      ensures r.Ok? <==> bbox.style == Sphere
      ensures r.Ok? ==> (r.value <==> SomeComponentMoved(aabb, ToMtlAabb(bbox).value))
    {
      match ToMtlAabb(bbox)
      case Err(e) => Err(e)
      case Ok(a) =>
        NeedsRefitIffSomeComponentMoved(aabb, a);
        Ok(Geometry.NeedsRefit(aabb, a))
    }

    /**
     * Refits the structure to `bbox`: the box is stored, copied into a fresh
     * buffer, and one refit command is recorded whose result replaces the
     * structure handle. The old structure and buffer are not released.
     */
    method Refit(ctx: GpuContext, bbox: BoundingBox) returns (r: Outcome)
      requires Valid()
      modifies this, ctx
      ensures Valid()
      ensures r.Pass? <==> bbox.style == Sphere
      ensures r.Fail? ==> r.error == InvalidShapeError && unchanged(this) && unchanged(ctx)
      ensures r.Pass? ==> aabb == ToMtlAabb(bbox).value && !Geometry.NeedsRefit(aabb, ToMtlAabb(bbox).value)
      ensures r.Pass? ==> RefitEffect(ctx)
      ensures ctx.Extends()
    {
      var a := ToMtlAabb(bbox);
      if a.Err? {
        return Fail(a.error);
      }
      aabb := a.value;
      aabbBuff := ctx.NewAabbBuffer(aabb);
      var blasNew := ctx.EncodeRefit(blas, BoundingBoxGeometry(aabbBuff, 1, true), scratchBuff);
      blas := blasNew;
      r := Pass;
    }

    /**
     * What a refit leaves behind: a fresh buffer holding the stored box, the
     * scratch buffer kept, one refit command from the old structure whose
     * fresh result is the new structure, nothing released.
     */
    twostate predicate RefitEffect(ctx: GpuContext)
      reads this, ctx
    {
      && scratchBuff == old(scratchBuff)
      && aabbBuff.Ref? && blas.Ref?
      && old(ctx.nextId) <= aabbBuff.id < blas.id < ctx.nextId
      && ctx.buffers == old(ctx.buffers)[aabbBuff.id := aabb]
      && ctx.log == old(ctx.log) + [Command.Refit(old(blas), Descriptor(), blas, scratchBuff)]
      && Kinds(ctx.log) == Kinds(old(ctx.log)) + [RefitKind]
      && ctx.released == old(ctx.released)
    }

    /**
     * Refits only when `bbox` moved beyond tolerance; otherwise changes
     * nothing and records nothing. Fails on an unsupported style.
     */
    method SmartRefit(ctx: GpuContext, bbox: BoundingBox) returns (r: Outcome)
      requires Valid()
      modifies this, ctx
      ensures Valid()
      ensures r.Pass? <==> bbox.style == Sphere
      ensures r.Fail? ==> r.error == InvalidShapeError && unchanged(this) && unchanged(ctx)
      ensures r.Pass? ==> aabb == SmartRefitAabb(old(aabb), ToMtlAabb(bbox).value)
      ensures r.Pass? && !old(NeedsRefit(bbox)).value ==> unchanged(this) && unchanged(ctx)
      ensures r.Pass? && old(NeedsRefit(bbox)).value ==> RefitEffect(ctx)
      ensures ctx.Extends()
      ensures r.Pass? ==> (Kinds(ctx.log) ==
        Kinds(old(ctx.log)) + if Geometry.NeedsRefit(old(aabb), ToMtlAabb(bbox).value) then [RefitKind] else [])
    {
      var needs := NeedsRefit(bbox);
      if needs.Err? {
        return Fail(needs.error);
      }
      if needs.value {
        r := Refit(ctx, bbox);
      } else {
        r := Pass;
      }
    }
  }

  /** Two `smart_refit` calls with the same box record at most one refit. */
  method SmartRefitTwice(ctx: GpuContext, p: RenderPacketAabb, bbox: BoundingBox) returns (r: Outcome)
    requires p.Valid()
    modifies p, ctx
    ensures p.Valid()
    ensures |ctx.log| <= old(|ctx.log|) + 1
  {
    r := p.SmartRefit(ctx, bbox);
    if r.Pass? {
      r := p.SmartRefit(ctx, bbox);
    }
  }
}
