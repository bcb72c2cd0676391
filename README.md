# Staging and acceleration-structure lifecycle

This project models the per-frame staging logic of a small Metal ray-tracing renderer.

Each entity with a bounding volume (a `Bounding_Box` carrying a size `d` and a style tag) must have a render packet. A render packet holds:
- a canonical axis-aligned box;
- a bounding-box buffer;
- a scratch buffer;
- a bottom-level acceleration structure.

The stager owns a map from entity to packet. Its intended caller runs one pass per frame over the registry's view of bounded entities (the shipped frame loop in src/main.cpp drives `Renderer::stage`, the `Metal_Attachment` path, and constructs no `Stager`). A pass:
- An entity it has not seen gets a new packet, which issues one build command.
- An entity it knows is *smart-refitted*: the structure is refitted only when some coordinate moved by at least the tolerance ε = 1e-4.
- An unsupported style tag aborts the pass.

The destruction callback is the only way an entry leaves the map; the source declares it but does not connect it to the registry. The older `Metal_Attachment` component applies the same idea to a struct stored with the entity.

The Metal API is abstracted as a `GpuContext`:
- a monotone allocator of handle ids;
- the contents of the bounding-box buffers;
- a log of the build and refit commands recorded on the encoder;
- the set of released handles.

Entities are `nat`, coordinates are `real`, and the throw for an unsupported style is an `Err`/`Fail` result.

Modules and files:
- `wrappers.dfy`: results.
- `components.dfy`: the bounding-volume component.
- `geometry.dfy`: boxes and the tolerance test.
- `gpu.dfy`: handles, commands and the context.
- `render_packet.dfy`: `Render_Packet_AABB`.
- `stager.dfy`: the `StageAll` specification and the `Stager` class.
- `attachments.dfy`: `Metal_Attachment`.
- `scenarios.dfy`: the intended frame-by-frame behaviour (first sight, jitter, growth, an unknown tag) as concrete lemmas. Two methods restate the same sequences on a `Stager` object, and the verifier proves their assertions.

`Stager.Stage` is proved against the functional specification `StageAll`. `StageAll` works on the map seen through each packet's stored box, and the staging invariants are lemmas about it.

Where the intended resource policy and the code disagree, the model follows the code:
- Release-on-replace of the structure handle is intended; `Render_Packet_AABB::refit` does not do it, and it does not release the buffer it abandons either.
- Dropping a packet is meant to release its GPU objects; the packet's destructor releases nothing.

## Model

| member | source | states |
|---|---|---|
| Geometry.Abs | src/rhi/render_packet.cpp:10 | the absolute value is non-negative and equals the argument or its negation |
| Geometry.NeedsRefitIffSomeComponentMoved | src/rhi/render_packet.cpp:83-96 | the six-way conjunction of strict tolerance tests fails exactly when some component differs by at least ε |
| Geometry.ApproxEq | src/rhi/render_packet.cpp:9-11 | the body is the definition (`fabs(a - b) < eps`, also src/rhi/attachments.cpp:7-9); its contract states it as the open interval `b - eps < a < b + eps` |
| Geometry.NeedsRefit | src/rhi/render_packet.cpp:90-95 | the body is the definition: the negated six-way `approx_eq` conjunction with ε = 1e-4 in the source's order (the same test as src/rhi/attachments.cpp:99-104); its contract states that a box never needs a refit against itself; `NeedsRefitIffSomeComponentMoved` characterises it |
| Geometry.ExactlyEpsIsAChange | src/rhi/render_packet.cpp:9-11 | a difference of exactly ε counts as a change, because the comparison is strict |
| Geometry.WithinToleranceIsNoChange | src/rhi/render_packet.cpp:90-95 | when all six differences are below ε, no refit is needed |
| Gpu.KindsAt | src/rhi/render_packet.cpp:61-62 | the kind at each position is the kind of the command recorded there |
| Gpu.KindsSnoc | src/rhi/render_packet.cpp:129-130 | recording one more command appends exactly its kind |
| Gpu.GpuContext.Allocate | src/rhi/render_packet.cpp:59 | a new handle is an id never handed out before |
| Gpu.GpuContext.NewAabbBuffer | src/rhi/render_packet.cpp:26-29 | a new shared buffer holds exactly the copied box |
| Gpu.GpuContext.EncodeBuild | src/rhi/render_packet.cpp:61-62 | a build appends exactly one build command to the encoder's log |
| Gpu.GpuContext.EncodeRefit | src/rhi/render_packet.cpp:128-130 | a refit appends one refit command whose destination is a new handle |
| Gpu.GpuContext.Release | src/rhi/attachments.cpp:82-83 | releasing a handle adds it to the released set |
| RenderPacket.ToMtlAabb | src/rhi/render_packet.cpp:67-81 | the conversion succeeds exactly for `Sphere`, giving min (-d,-d,-d) and max (d,d,d); any other style is `InvalidShapeError` |
| RenderPacket.SphereNeedsRefitIffSizeMoved | src/rhi/render_packet.cpp:83-96 | between two spheres, a refit is needed exactly when the size moved by at least ε |
| RenderPacket.SmartRefitAabb | src/rhi/render_packet.cpp:136-140 | after a smart refit the stored box is within tolerance of the target, and is the old box when that was already within tolerance |
| RenderPacket.SmartRefitIdempotent | src/rhi/render_packet.cpp:136-140 | a second smart refit to the same target changes nothing |
| RenderPacket.RenderPacketAabb.constructor | src/rhi/render_packet.cpp:22-65 | the stored box is the given one; three new handles are taken; the buffer holds the box; exactly one build of a single opaque box is recorded; nothing is released |
| RenderPacket.RenderPacketAabb.Create | src/rhi/render_packet.cpp:22-25 | construction throws, touching nothing, unless the style is `Sphere`; otherwise it yields a fresh packet storing the canonical box, with one build recorded, and leaves every buffer handed out before unchanged |
| RenderPacket.RenderPacketAabb.NeedsRefit | src/rhi/render_packet.cpp:83-96 | fails for an unsupported style; otherwise true exactly when some component of the stored box differs from the canonical box by at least ε; it changes nothing |
| RenderPacket.RenderPacketAabb.Refit | src/rhi/render_packet.cpp:98-134 | fails, touching nothing, for an unsupported style. Otherwise the stored box becomes the canonical box, so no further refit is needed. A new buffer holds that box. The structure handle is replaced by the destination of exactly one recorded refit of the old structure. The scratch buffer is kept, buffers handed out before are unchanged and nothing is released |
| RenderPacket.RenderPacketAabb.SmartRefit | src/rhi/render_packet.cpp:136-140 | when no refit is needed, it changes nothing and records nothing; otherwise it has the effect of `Refit`; it records a refit exactly when the tolerance test fires |
| RenderPacket.SmartRefitTwice | src/rhi/render_packet.cpp:136-140 | two smart refits to the same bounding box record at most one command |
| Staging.StageEntity | src/stager.cpp:24-30 | the body is the definition of one loop iteration on the stored boxes; its contract states that it succeeds exactly for `Sphere`, that a failure changes no box and records nothing, and that it records at most one command; `StageEntityBuilds` and `Stager.StageNext` characterise it |
| Staging.StageAll | src/stager.cpp:19-32 | the body is the definition of the loop, aborting at the first failure; its contract states that a pass records at most one command per visited entity; the `StageAll*` lemmas below characterise it |
| Staging.StageAllOkIffAllSpheres | src/stager.cpp:16-33 | a pass completes exactly when every bounding box in the view has the `Sphere` style |
| Staging.StageAllKeys | src/stager.cpp:19-32 | a pass never removes an entry and adds entries only for entities in the view; a completed pass has an entry for every entity in the view |
| Staging.StageAllLeavesOthers | src/stager.cpp:16-33 | an entity the view does not visit keeps its entry, or its absence, unchanged |
| Staging.StageAllInSync | src/stager.cpp:24-30 | after a completed pass, each entity in the view holds its canonical box if it was new, or the smart-refit result of its old box if not, and either way needs no further refit |
| Staging.StageAllAbortsAtFirstFailure | src/stager.cpp:28-30 | a failing pass stops at the first unsupported box: the outcome is that of the prefix before it, and the failing entity gets no entry it did not already have |
| Staging.StageFailureSticks | src/stager.cpp:19-32 | once a prefix of the pass fails, the whole pass has that prefix's outcome |
| Staging.StageAllSteady | src/stager.cpp:24-27 | a pass over entities that are all staged within tolerance changes nothing and records no command |
| Staging.StageAllIdempotent | src/stager.cpp:16-33 | repeating a completed pass over the same view changes no box and records no command |
| Staging.StageAllBuildsOncePerNewEntity | src/stager.cpp:28-30 | a completed pass records exactly one build per entity in the view that had no entry |
| Staging.StageEntityBuilds | src/stager.cpp:24-30 | one entity records a build exactly when it had no entry |
| Staging.StagedMatchesView | src/stager.cpp:12-33 | once destroyed entities have been dropped, a completed pass leaves exactly one entry per entity in the view |
| Staging.StageAllSnoc | src/stager.cpp:19-32 | the loop's next step extends the specification of the prefix by one entity |
| Staging.Stager.constructor | include/stager.hpp:19 | a new stager has an empty map |
| Staging.Stager.CallbackBboxDestroyed | src/stager.cpp:12-14 | the entity's entry is removed and every other entry, with all its packet's fields, is unchanged; an absent entity is a no-op |
| Staging.Stager.GetRenderPackets | src/stager.cpp:35-38 | returns the map itself and changes nothing |
| Staging.Stager.RefitExisting | src/stager.cpp:24-27 | smart-refits the entity's own packet in place, with the effect `StageEntity` specifies, and touches no other packet. When no refit is recorded (a failure or a box within tolerance) the packet and the context are unchanged. When one is, the box changes and the packet gets `Refit`'s effect: a new structure that is the destination of the one recorded refit of the old one, a new buffer holding the box, the same scratch buffer. The log only grows, the allocator only advances, buffers handed out before are unchanged and nothing is released |
| Staging.Stager.InsertNew | src/stager.cpp:28-30 | inserts a fresh packet with the effect `StageEntity` specifies, leaving every other entry as it was. Its three handles are new, its buffer holds its box, and the log gains exactly its one build. A failed construction leaves the map and the context unchanged. The log only grows, buffers handed out before are unchanged and nothing is released |
| Staging.Stager.StageNext | src/stager.cpp:24-31 | one loop iteration: the boxes, the completion flag and the recorded command kinds are those of `StageEntity`; at most the visited entity's packet changes, and a changed packet has a different box; existing entries keep their packet objects and a new entry is fresh; the log only grows, buffers handed out before are unchanged and nothing is released |
| Staging.Stager.Stage | src/stager.cpp:16-33 | the boxes, the completion flag and the recorded command kinds are those of `StageAll`. Existing entries keep their packet objects and new entries are fresh. The packet of an entity the view does not visit keeps all its fields (box, structure, buffer, scratch buffer); over a view with distinct entities, so does each packet whose box did not change. The log only grows, buffers handed out before the pass are unchanged and nothing is released |
| Attachments.MetalAttachment.constructor | include/rhi/attachments.hpp:14-19 | all handles start null and no refit is pending |
| Attachments.MetalAttachment.BuildBlas | src/rhi/attachments.cpp:18-61 | the given box is stored, so it needs no refit; four new handles are taken; the buffer holds the box; exactly one build of a single opaque box is recorded |
| Attachments.MetalAttachment.RefitBlas | src/rhi/attachments.cpp:63-87 | the stored box, the buffers and the tolerance verdict are unchanged. The structure handle becomes the destination of one recorded refit of the old structure over the same buffer. The old handle is released exactly when it was non-null |
| Attachments.MetalAttachment.GetBlas | src/rhi/attachments.cpp:89-91 | returns the current structure handle, null before any build |
| Attachments.MetalAttachment.NeedsRefit | src/rhi/attachments.cpp:93-105 | true exactly when some component of the candidate differs from the stored box by at least ε |
| Attachments.RefitKeepsNeedingRefit | src/rhi/attachments.cpp:63-87 | a refit after a build does not clear a pending difference, because the stored box is not updated |
| Scenarios.FirstSightBuilds | src/stager.cpp:28-30 | the first pass over a unit sphere stores the box from (-1,-1,-1) to (1,1,1) and records one build |
| Scenarios.JitterIsNoOp | src/stager.cpp:24-27 | a size change of 1e-5 changes nothing and records nothing |
| Scenarios.GrowthRefits | src/stager.cpp:24-27 | growing the sphere to size 2 stores the new box and records one refit |
| Scenarios.UnknownTagFails | src/rhi/render_packet.cpp:76-77 | an unknown style tag aborts the pass with no entry and no command |

## Left out

- Floating point: `float` coordinates and `fabs` are modelled as exact `real`s. Rounding near the ε boundary is not modelled.
- Metal resource details are foreign calls and are abstracted to ids and a command log. These are the `memcpy` byte layout, scratch-buffer sizing by `accelerationStructureSizes`, storage modes, the descriptor objects and their `release` calls, and the attachment destructor's release of `m_blas_desc`.
- Handles: device allocation never fails, so no allocation error is modelled. Every new handle is a fresh id from a monotone allocator.
- Attachments.MetalAttachment.RefitBlas: src/rhi/attachments.cpp:79-84 passes an uninitialised `blas_new` as the refit destination and stores it in `m_blas`, so the second and every later refit releases an indeterminate handle. The model gives the destination a fresh valid id, so each later release is of a valid handle; the undefined behaviour is not captured.
- Gpu.GpuContext.EncodeRefit: the destination it returns is a fresh valid id, where src/rhi/attachments.cpp:79-84 and src/rhi/render_packet.cpp:128-131 pass an uninitialised pointer; from the second attachment refit on, that indeterminate handle is the one released.
- RenderPacket.RenderPacketAabb.Refit: the source passes an uninitialised `blas_new` as the refit destination. The model takes a fresh handle instead and does not capture the undefined value.
- RenderPacket.RenderPacketAabb.Refit: the replaced structure and the abandoned buffer are not released, as in the source. The model records nothing in the released set for them.
- Staging.Stager.CallbackBboxDestroyed: dropping the entry destroys the packet. Its destructor releases no Metal object, so the model only removes the entry.
- Staging.Stager.Stage: the registry view is an input sequence. EnTT iteration order and registry internals are not modelled. The source has no caller of `Stager::stage` and never connects `callback_bbox_destroyed` to the registry's destroy signal; the model states the contract of a caller that runs one pass per frame and calls the callback on destruction.
- Staging.Stager.Stage: the pass has no per-entity failure isolation, as in the source. The first unsupported style aborts with the earlier entries kept.
- Staging.Stager.GetRenderPackets: the map is returned as a value. The reference semantics are not modelled.
- `Stager::clean_up` is declared in include/stager.hpp:23 but never defined, so there is nothing to model.
- Attachments.MetalAttachment: the header declares neither `m_aabb`, nor a parameterised `refit_blas`, nor `needs_refit` (which the renderer calls), and gives no default ε for `approx_eq`. include/rhi/attachments.hpp:21-23 declares `build_blas` with a non-const `MTL::AxisAlignedBoundingBox &`, where src/rhi/attachments.cpp:18-20 defines it with `const &`. The model follows src/rhi/attachments.cpp with ε = 1e-4, and the stored box starts as the zero box.
- Not part of this model: the renderer, window, GPU interface and frame loop (`src/rhi/renderer.cpp`, `src/rhi/window.cpp`, `src/rhi/gpu_interface.cpp`), the entry point `src/main.cpp`, and the vector arithmetic in `src/math/vectors.cpp`. They are platform I/O plumbing or plain float arithmetic.
