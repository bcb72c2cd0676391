/**
 * The GPU layer the staging core talks to, reduced to what the core can
 * observe: handles are abstract ids, buffers remember the box copied into
 * them, and the acceleration-structure encoder is a log of the commands
 * recorded into it.
 */
module Gpu {
  import opened Geometry

  /** A GPU object pointer: null, or a handle naming one device object. */
  datatype Ptr = Null | Ref(id: nat)

  /** A bounding-box geometry descriptor: the buffer it reads, how many boxes it holds, and whether they are opaque. */
  datatype GeometryDescriptor = BoundingBoxGeometry(buffer: Ptr, count: nat, isOpaque: bool)

  /** A command recorded into the acceleration-structure command encoder. */
  datatype Command =
    | Build(blas: Ptr, geometry: GeometryDescriptor, scratch: Ptr)
    | Refit(source: Ptr, geometry: GeometryDescriptor, dest: Ptr, scratch: Ptr)

  datatype CommandKind = BuildKind | RefitKind

  function KindOf(c: Command): CommandKind
  {
    match c
    case Build(_, _, _) => BuildKind
    case Refit(_, _, _, _) => RefitKind
  }

  /** The kinds of the commands in a log, in recording order. */
  function Kinds(log: seq<Command>): (k: seq<CommandKind>)
    ensures |k| == |log|
  {
    if log == [] then [] else Kinds(log[..|log| - 1]) + [KindOf(log[|log| - 1])]
  }

  /** Each kind is the kind of the command recorded at the same position. */
  lemma {:induction false} KindsAt(log: seq<Command>, i: nat)
    requires i < |log|
    ensures Kinds(log)[i] == KindOf(log[i])
  {
    if i < |log| - 1 {
      KindsAt(log[..|log| - 1], i);
    }
  }

  /** Recording one more command extends the kinds by that command's kind. */
  lemma KindsSnoc(log: seq<Command>, c: Command)
    ensures Kinds(log + [c]) == Kinds(log) + [KindOf(c)]
  {
    assert (log + [c])[..|log|] == log;
  }

  /**
   * The frame's device and acceleration-structure command encoder. One object
   * stands for both halves of the renderer's GPU context.
   */
  class GpuContext {
    /** The next id the device hands out; every id below it is in use. */
    var nextId: nat
    /** Boxes copied into shared bounding-box buffers, by buffer id. */
    var buffers: map<nat, Aabb>
    /** Commands recorded into the encoder, oldest first. */
    var log: seq<Command>
    /** Ids of the objects released so far. */
    var released: set<nat>

    constructor ()
      ensures nextId == 0 && buffers == map[] && log == [] && released == {}
    {
      nextId, buffers, log, released := 0, map[], [], {};
    }

    /** Allocates a device object (a buffer, a descriptor or a structure). */
    method Allocate() returns (p: Ptr)
      modifies this`nextId
      ensures p == Ref(old(nextId)) && nextId == old(nextId) + 1
    {
      p := Ref(nextId);
      nextId := nextId + 1;
    }

    /** Allocates a shared bounding-box buffer and copies `a` into it. */
    method NewAabbBuffer(a: Aabb) returns (p: Ptr)
      modifies this`nextId, this`buffers
      ensures p == Ref(old(nextId)) && nextId == old(nextId) + 1
      ensures buffers == old(buffers)[p.id := a]
    {
      p := Allocate();
      buffers := buffers[p.id := a];
    }

    /** Records a build of `blas` from `geometry` using `scratch`. */
    method EncodeBuild(blas: Ptr, geometry: GeometryDescriptor, scratch: Ptr)
      modifies this`log
      ensures log == old(log) + [Build(blas, geometry, scratch)]
      ensures Kinds(log) == Kinds(old(log)) + [BuildKind]
    {
      KindsSnoc(log, Build(blas, geometry, scratch));
      log := log + [Build(blas, geometry, scratch)];
    }

    /** Records a refit of `source` against `geometry`; the result is a new handle. */
    method EncodeRefit(source: Ptr, geometry: GeometryDescriptor, scratch: Ptr) returns (dest: Ptr)
      modifies this`nextId, this`log
      ensures dest == Ref(old(nextId)) && nextId == old(nextId) + 1
      ensures log == old(log) + [Refit(source, geometry, dest, scratch)]
      ensures Kinds(log) == Kinds(old(log)) + [RefitKind]
    {
      dest := Allocate();
      KindsSnoc(log, Refit(source, geometry, dest, scratch));
      log := log + [Refit(source, geometry, dest, scratch)];
    }

    /**
     * What a staging step may do to the context: ids only advance, commands
     * are only appended, nothing is released, and a buffer that existed
     * below the old counter keeps its contents.
     */
    twostate predicate Extends()
      reads this
    {
      && old(nextId) <= nextId
      && old(log) <= log
      && released == old(released)
      && (forall id :: id in old(buffers) && id < old(nextId) ==> id in buffers && buffers[id] == old(buffers)[id])
    }

    /** Releases the object `p` names. */
    method Release(p: Ptr)
      requires p.Ref?
      modifies this`released
      ensures released == old(released) + {p.id}
    {
      released := released + {p.id};
    }
  }
}
