/**
 * The staging walkthrough: first sight of an entity, jitter below the
 * tolerance, growth beyond it, an unknown style tag, and destruction.
 */
module Scenarios {
  import opened Components
  import opened Geometry
  import opened Gpu
  import opened RenderPacket
  import opened Staging

  function SphereBox(r: real): Aabb
  {
    Aabb(Vec3(-r, -r, -r), Vec3(r, r, r))
  }

  /** First sight of entity 7 with size 1 builds a packet over the unit box. */
  lemma FirstSightBuilds()
    ensures StageAll(map[], [(7, BoundingBox(1.0, Sphere))]) == StageOutcome(map[7 := SphereBox(1.0)], true, [BuildKind])
  {
    assert [(7, BoundingBox(1.0, Sphere))][..0] == [];
  }

  /** Moving the size from 1 to 1.00001 stays within the tolerance: no command, no change. */
  lemma JitterIsNoOp()
    ensures StageAll(map[7 := SphereBox(1.0)], [(7, BoundingBox(1.00001, Sphere))]) ==
      StageOutcome(map[7 := SphereBox(1.0)], true, [])
  {
    assert [(7, BoundingBox(1.00001, Sphere))][..0] == [];
    assert map[7 := SphereBox(1.0)][7 := SphereBox(1.0)] == map[7 := SphereBox(1.0)];
  }

  /** Growing to size 2 refits the entry to the box of size 2. */
  lemma GrowthRefits()
    ensures StageAll(map[7 := SphereBox(1.0)], [(7, BoundingBox(2.0, Sphere))]) ==
      StageOutcome(map[7 := SphereBox(2.0)], true, [RefitKind])
  {
    assert [(7, BoundingBox(2.0, Sphere))][..0] == [];
    assert map[7 := SphereBox(1.0)][7 := SphereBox(2.0)] == map[7 := SphereBox(2.0)];
  }

  /** An unknown style tag fails the pass and leaves no entry behind. */
  lemma UnknownTagFails()
    ensures StageAll(map[], [(8, BoundingBox(1.0, 3))]) == StageOutcome(map[], false, [])
  {
    assert [(8, BoundingBox(1.0, 3))][..0] == [];
  }

  /** On the objects: the packet of entity 7 is kept through jitter and refit. */
  method WalkthroughRefitKeepsPacket()
  {
    var ctx := new GpuContext();
    var stager := new Stager();

    FirstSightBuilds();
    var ok := stager.Stage(ctx, [(7, BoundingBox(1.0, Sphere))]);
    assert ok && stager.Staged() == map[7 := SphereBox(1.0)];
    assert Kinds(ctx.log) == [BuildKind];
    var packet := stager.packets[7];

    JitterIsNoOp();
    ok := stager.Stage(ctx, [(7, BoundingBox(1.00001, Sphere))]);
    assert Kinds(ctx.log) == [BuildKind];

    GrowthRefits();
    ok := stager.Stage(ctx, [(7, BoundingBox(2.0, Sphere))]);
    assert ok && stager.Staged() == map[7 := SphereBox(2.0)];
    assert stager.packets[7] == packet;
    assert Kinds(ctx.log) == [BuildKind, RefitKind];
  }

  /** On the objects: destruction drops the entry, and a bad tag adds none. */
  method WalkthroughDestroyAndBadTag()
  {
    var ctx := new GpuContext();
    var stager := new Stager();

    FirstSightBuilds();
    var ok := stager.Stage(ctx, [(7, BoundingBox(1.0, Sphere))]);
    stager.CallbackBboxDestroyed(7);
    var packets := stager.GetRenderPackets();
    assert packets == map[];

    UnknownTagFails();
    ok := stager.Stage(ctx, [(8, BoundingBox(1.0, 3))]);
    assert !ok && stager.packets == map[];
  }
}
