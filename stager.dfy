/**
 * The staging policy: the map from entity to render packet, kept in step with
 * the entities that carry a bounding box. Each pass either builds a packet for
 * a new entity or lets the existing packet decide between refit and no-op;
 * the destruction callback is the only way an entry leaves the map.
 */
module Staging {
  import opened Wrappers
  import opened Components
  import opened Geometry
  import opened Gpu
  import opened RenderPacket

  /** One element of the registry's view: an entity and its bounding box. */
  type ViewEntry = (nat, BoundingBox)

  /** The entities a view visits. */
  function ViewKeys(view: seq<ViewEntry>): set<nat>
  {
    set i | 0 <= i < |view| :: view[i].0
  }

  /** A registry view visits every entity at most once. */
  predicate DistinctEntities(view: seq<ViewEntry>)
  {
    forall i, j :: 0 <= i < j < |view| ==> view[i].0 != view[j].0
  }

  /**
   * The result of staging, seen through the stored boxes: the box of every
   * staged entity, whether the pass ran to completion, and the kinds of the
   * commands it recorded.
   */
  datatype StageOutcome = StageOutcome(staged: map<nat, Aabb>, ok: bool, issued: seq<CommandKind>)

  /**
   * One entity of the pass. An unsupported style aborts without touching the
   * map; an entity with a packet is smart-refitted; a new entity gets the
   * canonical box of its bounding volume and one build command.
   */
  function StageEntity(m: map<nat, Aabb>, e: nat, bbox: BoundingBox): (r: StageOutcome)
    ensures r.ok <==> bbox.style == Sphere
    ensures !r.ok ==> r.staged == m && r.issued == []
    ensures |r.issued| <= 1
  {
    match ToMtlAabb(bbox)
    case Err(_) => StageOutcome(m, false, [])
    case Ok(a) =>
      if e in m then
        StageOutcome(m[e := SmartRefitAabb(m[e], a)], true, if NeedsRefit(m[e], a) then [RefitKind] else [])
      else
        StageOutcome(m[e := a], true, [BuildKind])
  }

  /** A whole pass over `view` in iteration order; the first failure aborts the rest. */
  function StageAll(m: map<nat, Aabb>, view: seq<ViewEntry>): (r: StageOutcome)
    ensures |r.issued| <= |view|
    decreases |view|
  {
    if view == [] then StageOutcome(m, true, [])
    else
      var prev := StageAll(m, view[..|view| - 1]);
      if !prev.ok then prev
      else
        var last := view[|view| - 1];
        var step := StageEntity(prev.staged, last.0, last.1);
        StageOutcome(step.staged, step.ok, prev.issued + step.issued)
  }

  /** A pass completes exactly when every box in the view has the sphere style. */
  lemma {:induction false} StageAllOkIffAllSpheres(m: map<nat, Aabb>, view: seq<ViewEntry>)
    ensures StageAll(m, view).ok <==> forall i :: 0 <= i < |view| ==> view[i].1.style == Sphere
  {
    if view != [] {
      var init := view[..|view| - 1];
      StageAllOkIffAllSpheres(m, init);
      assert forall i :: 0 <= i < |init| ==> init[i] == view[i];
    }
  }

  /**
   * Staging never removes an entry and only adds entries for entities of the
   * view; a completed pass has an entry for every entity of the view.
   */
  lemma {:induction false} StageAllKeys(m: map<nat, Aabb>, view: seq<ViewEntry>)
    ensures m.Keys <= StageAll(m, view).staged.Keys <= m.Keys + ViewKeys(view)
    ensures StageAll(m, view).ok ==> StageAll(m, view).staged.Keys == m.Keys + ViewKeys(view)
  {
    if view != [] {
      var init := view[..|view| - 1];
      StageAllKeys(m, init);
      assert ViewKeys(view) == ViewKeys(init) + {view[|view| - 1].0} by {
        assert forall i :: 0 <= i < |init| ==> init[i] == view[i];
      }
    }
  }

  /** An entity the view does not visit keeps its entry, or its absence, unchanged. */
  lemma {:induction false} StageAllLeavesOthers(m: map<nat, Aabb>, view: seq<ViewEntry>, e: nat)
    requires e !in ViewKeys(view)
    ensures e in StageAll(m, view).staged <==> e in m
    ensures e in m ==> StageAll(m, view).staged[e] == m[e]
  {
    if view != [] {
      var init := view[..|view| - 1];
      assert ViewKeys(init) <= ViewKeys(view) by {
        assert forall i :: 0 <= i < |init| ==> init[i] == view[i];
      }
      assert view[|view| - 1].0 in ViewKeys(view);
      StageAllLeavesOthers(m, init, e);
    }
  }

  /**
   * After a completed pass over distinct entities, each entity of the view
   * holds the canonical box of its bounding volume if it was new, and the
   * smart-refit result of its previous box otherwise; either way its box is
   * within tolerance of the canonical one.
   */
  lemma {:induction false} StageAllInSync(m: map<nat, Aabb>, view: seq<ViewEntry>, k: nat)
    requires DistinctEntities(view) && StageAll(m, view).ok && k < |view|
    ensures view[k].1.style == Sphere
    ensures var e, a := view[k].0, ToMtlAabb(view[k].1).value;
      && e in StageAll(m, view).staged
      && StageAll(m, view).staged[e] == (if e in m then SmartRefitAabb(m[e], a) else a)
      && !NeedsRefit(StageAll(m, view).staged[e], a)
  {
    var init := view[..|view| - 1];
    assert forall i :: 0 <= i < |init| ==> init[i] == view[i];
    var prev := StageAll(m, init);
    if k == |view| - 1 {
      assert view[k].0 !in ViewKeys(init);
      StageAllLeavesOthers(m, init, view[k].0);
    } else {
      StageAllInSync(m, init, k);
    }
  }

  /**
   * A failing pass stops at the first unsupported bounding box: the map is the
   * one the entities before it produced, and the failing entity gets no entry
   * it did not already have.
   */
  lemma {:induction false} StageAllAbortsAtFirstFailure(m: map<nat, Aabb>, view: seq<ViewEntry>, k: nat)
    requires k < |view| && view[k].1.style != Sphere
    requires forall i :: 0 <= i < k ==> view[i].1.style == Sphere
    ensures !StageAll(m, view).ok
    ensures StageAll(m, view) == StageOutcome(StageAll(m, view[..k]).staged, false, StageAll(m, view[..k]).issued)
    ensures DistinctEntities(view) ==> (view[k].0 in StageAll(m, view).staged <==> view[k].0 in m)
  {
    var init := view[..|view| - 1];
    assert forall i :: 0 <= i < |init| ==> init[i] == view[i];
    if k == |view| - 1 {
      assert init == view[..k];
      StageAllOkIffAllSpheres(m, init);
    } else {
      StageAllAbortsAtFirstFailure(m, init, k);
      assert init[..k] == view[..k];
    }
    if DistinctEntities(view) {
      assert view[k].0 !in ViewKeys(view[..k]);
      StageAllLeavesOthers(m, view[..k], view[k].0);
    }
  }

  /**
   * A pass over entities that are all staged within tolerance changes nothing
   * and records no command.
   */
  lemma {:induction false} StageAllSteady(m: map<nat, Aabb>, view: seq<ViewEntry>)
    requires forall i :: 0 <= i < |view| ==>
      view[i].1.style == Sphere && view[i].0 in m && !NeedsRefit(m[view[i].0], ToMtlAabb(view[i].1).value)
    ensures StageAll(m, view) == StageOutcome(m, true, [])
  {
    if view != [] {
      var init := view[..|view| - 1];
      assert forall i :: 0 <= i < |init| ==> init[i] == view[i];
      StageAllSteady(m, init);
      var last := view[|view| - 1];
      assert m[last.0 := m[last.0]] == m;
    }
  }

  /**
   * Staging is idempotent: repeating a completed pass over the same view
   * leaves every box as it is and records no build and no refit.
   */
  lemma StageAllIdempotent(m: map<nat, Aabb>, view: seq<ViewEntry>)
    requires DistinctEntities(view) && StageAll(m, view).ok
    ensures StageAll(StageAll(m, view).staged, view) == StageOutcome(StageAll(m, view).staged, true, [])
  {
    var m' := StageAll(m, view).staged;
    forall i | 0 <= i < |view|
      ensures view[i].1.style == Sphere && view[i].0 in m' && !NeedsRefit(m'[view[i].0], ToMtlAabb(view[i].1).value)
    {
      StageAllInSync(m, view, i);
    }
    StageAllSteady(m', view);
  }

  /**
   * A completed pass over distinct entities records one build command for
   * every entity it had no packet for, and no other build.
   */
  lemma {:induction false} StageAllBuildsOncePerNewEntity(m: map<nat, Aabb>, view: seq<ViewEntry>)
    requires DistinctEntities(view) && StageAll(m, view).ok
    ensures multiset(StageAll(m, view).issued)[BuildKind] == |ViewKeys(view) - m.Keys|
  {
    if view != [] {
      var init := view[..|view| - 1];
      var last := view[|view| - 1];
      assert forall i :: 0 <= i < |init| ==> init[i] == view[i];
      assert ViewKeys(view) == ViewKeys(init) + {last.0};
      assert last.0 !in ViewKeys(init);
      var prev := StageAll(m, init);
      assert prev.ok;
      StageAllBuildsOncePerNewEntity(m, init);
      StageAllKeys(m, init);
      assert last.0 in prev.staged <==> last.0 in m;
      var step := StageEntity(prev.staged, last.0, last.1);
      assert step.ok;
      StageEntityBuilds(prev.staged, last.0, last.1);
      assert multiset(prev.issued + step.issued) == multiset(prev.issued) + multiset(step.issued);
      NewKeysSnoc(ViewKeys(init), m.Keys, last.0);
    }
  }

  /** One entity records a build exactly when it had no entry. */
  lemma StageEntityBuilds(m: map<nat, Aabb>, e: nat, bbox: BoundingBox)
    requires StageEntity(m, e, bbox).ok
    ensures multiset(StageEntity(m, e, bbox).issued)[BuildKind] == if e in m then 0 else 1
  {
  }

  /** Adding a key the view had not visited adds one new entity, unless it was staged. */
  lemma NewKeysSnoc(seen: set<nat>, staged: set<nat>, e: nat)
    requires e !in seen
    ensures |(seen + {e}) - staged| == |seen - staged| + if e in staged then 0 else 1
  {
    if e in staged {
      assert (seen + {e}) - staged == seen - staged;
    } else {
      assert (seen + {e}) - staged == (seen - staged) + {e};
    }
  }

  /**
   * When the destruction callback has dropped every entity that lost its
   * bounding box, a completed pass leaves exactly one entry per entity of
   * the view and none for anything else.
   */
  lemma StagedMatchesView(m: map<nat, Aabb>, view: seq<ViewEntry>)
    requires m.Keys <= ViewKeys(view) && StageAll(m, view).ok
    ensures StageAll(m, view).staged.Keys == ViewKeys(view)
  {
    StageAllKeys(m, view);
  }

  /** Owner of the entity-to-packet map. */
  class Stager {
    var packets: map<nat, RenderPacketAabb>
    /** The packets this stager may touch: every packet of the map is one of them; a dropped packet may stay. */
    ghost var Repr: set<RenderPacketAabb>
    /** The fields of every entity's packet, as values. */
    ghost var states: map<nat, PacketState>

    /**
     * Each entry owns its packet exclusively, every packet is fully built,
     * and `states` holds exactly the packets' fields.
     */
    ghost predicate Valid()
      reads this, Repr
    {
      && states.Keys == packets.Keys
      && (forall e :: e in packets ==> packets[e] in Repr && packets[e].Valid() && states[e] == packets[e].State())
      && (forall e, e' :: e in packets && e' in packets && e != e' ==> packets[e] != packets[e'])
    }

    /** The map seen through the boxes its packets hold. */
    ghost function Staged(): (s: map<nat, Aabb>)
      reads this
      ensures s.Keys == states.Keys
    {
      Boxes(states)
    }

    constructor ()
      ensures Valid() && packets == map[] && Repr == {}
    {
      packets, Repr, states := map[], {}, map[];
    }

    /** Drops the entry of `e`, if any; every other entry stays as it was. */
    method CallbackBboxDestroyed(e: nat)
      requires Valid()
      modifies this
      ensures Valid() && Repr == old(Repr)
      ensures packets == old(packets) - {e}
      ensures states == old(states) - {e}
      ensures Staged() == old(Staged()) - {e}
    {
      BoxesRemove(states, e);
      packets, states := packets - {e}, states - {e};
    }

    /** Read-only access to the map. */
    method GetRenderPackets() returns (r: map<nat, RenderPacketAabb>)
      ensures r == packets
    {
      r := packets;
    }

    /** Smart-refits the packet of a staged entity; nothing else changes. */
    method RefitExisting(ctx: GpuContext, e: nat, bbox: BoundingBox) returns (ok: bool)
      requires Valid() && e in packets
      modifies this, packets[e], ctx
      ensures Valid() && packets == old(packets) && Repr == old(Repr)
      ensures var r := StageEntity(old(Staged()), e, bbox);
        Staged() == r.staged && ok == r.ok && Kinds(ctx.log) == Kinds(old(ctx.log)) + r.issued
      ensures ctx.Extends()
      ensures !ok ==> unchanged(ctx)
      ensures StageEntity(old(Staged()), e, bbox).issued == [] ==> unchanged(packets[e]) && unchanged(ctx)
      ensures StageEntity(old(Staged()), e, bbox).issued != [] ==>
        packets[e].aabb != old(packets[e].aabb) && packets[e].RefitEffect(ctx)
      ensures states == old(states)[e := packets[e].State()]
    {
      ghost var before := Staged();
      var p := packets[e];
      var r := p.SmartRefit(ctx, bbox);
      ok := r.Pass?;
      BoxesUpdate(states, e, p.State());
      states := states[e := p.State()];
      forall e' | e' in packets
        ensures packets[e'].Valid() && states[e'] == packets[e'].State()
      {
        if e' != e {
          assert packets[e'] != p;
        }
      }
      if ok {
        ghost var a := ToMtlAabb(bbox).value;
        assert StageEntity(before, e, bbox) ==
          StageOutcome(before[e := SmartRefitAabb(before[e], a)], true, if NeedsRefit(before[e], a) then [RefitKind] else []);
      } else {
        assert p.aabb == before[e] && before[e := before[e]] == before;
        assert StageEntity(before, e, bbox) == StageOutcome(before, false, []);
      }
    }

    /** Constructs and inserts the packet of a new entity; nothing else changes. */
    method InsertNew(ctx: GpuContext, e: nat, bbox: BoundingBox) returns (ok: bool)
      requires Valid() && e !in packets
      modifies this, ctx
      ensures Valid()
      ensures var r := StageEntity(old(Staged()), e, bbox);
        Staged() == r.staged && ok == r.ok && Kinds(ctx.log) == Kinds(old(ctx.log)) + r.issued
      ensures ok ==> fresh(packets[e]) && packets == old(packets)[e := packets[e]] && Repr == old(Repr) + {packets[e]}
      ensures !ok ==> packets == old(packets) && Repr == old(Repr)
      ensures ctx.Extends()
      ensures !ok ==> unchanged(ctx)
      ensures ok ==> var p := packets[e];
        && old(ctx.nextId) <= p.aabbBuff.id < p.scratchBuff.id < p.blas.id < ctx.nextId
        && ctx.buffers == old(ctx.buffers)[p.aabbBuff.id := p.aabb]
        && ctx.log == old(ctx.log) + [Build(p.blas, p.Descriptor(), p.scratchBuff)]
      ensures ok ==> states == old(states)[e := packets[e].State()]
      ensures !ok ==> states == old(states)
    {
      ghost var before := Staged();
      var r := RenderPacketAabb.Create(ctx, bbox);
      ok := r.Ok?;
      if ok {
        assert StageEntity(before, e, bbox) == StageOutcome(before[e := r.value.aabb], true, [BuildKind]);
        packets := packets[e := r.value];
        Repr := Repr + {r.value};
        BoxesUpdate(states, e, r.value.State());
        states := states[e := r.value.State()];
      } else {
        assert StageEntity(before, e, bbox) == StageOutcome(before, false, []);
      }
    }

    /**
     * One entity of the pass (the loop body of `stage`): an entity with a
     * packet is smart-refitted, a new one gets a newly constructed packet.
     * Only that entity's packet is touched, and a packet that is touched
     * gets a different box.
     */
    method StageNext(ctx: GpuContext, e: nat, bbox: BoundingBox) returns (ok: bool)
      requires Valid()
      modifies this, Repr, ctx
      ensures Valid() && old(Repr) <= Repr && fresh(Repr - old(Repr))
      ensures var r := StageEntity(old(Staged()), e, bbox);
        Staged() == r.staged && ok == r.ok && Kinds(ctx.log) == Kinds(old(ctx.log)) + r.issued
      ensures forall e' :: e' in old(packets) ==> e' in packets && packets[e'] == old(packets[e'])
      ensures forall e' :: e' in packets && e' !in old(packets) ==> fresh(packets[e'])
      ensures ctx.Extends()
      ensures states == old(states) || (e in states && states == old(states)[e := states[e]])
      ensures e in old(states) ==> states[e] == old(states)[e] || states[e].aabb != old(states)[e].aabb
    {
      if e in packets {
        ok := RefitExisting(ctx, e, bbox);
      } else {
        ok := InsertNew(ctx, e, bbox);
      }
    }

    /**
     * Walks the view once: an entity with a packet is smart-refitted, a new
     * entity gets a newly constructed packet. The first unsupported bounding
     * box aborts the pass with the entries made so far kept. No entry is
     * removed and no existing packet is replaced.
     */
    method Stage(ctx: GpuContext, view: seq<ViewEntry>) returns (ok: bool)
      requires Valid()
      modifies this, Repr, ctx
      ensures Valid() && old(Repr) <= Repr && fresh(Repr - old(Repr))
      ensures var r := StageAll(old(Staged()), view);
        Staged() == r.staged && ok == r.ok && Kinds(ctx.log) == Kinds(old(ctx.log)) + r.issued
      ensures forall e :: e in old(packets) ==> e in packets && packets[e] == old(packets[e])
      ensures forall e :: e in packets && e !in old(packets) ==> fresh(packets[e])
      ensures ctx.Extends()
      ensures forall e :: e in old(packets) && e !in ViewKeys(view) ==> states[e] == old(states)[e]
      ensures DistinctEntities(view) ==>
        forall e :: e in old(packets) && states[e].aabb == old(states)[e].aabb ==> states[e] == old(states)[e]
    {
      ghost var m0, log0, s0 := Staged(), Kinds(ctx.log), states;
      ghost var done := StageOutcome(m0, true, []);
      var i := 0;
      ok := true;
      while ok && i < |view|
        invariant 0 <= i <= |view|
        invariant Valid() && old(Repr) <= Repr && fresh(Repr - old(Repr))
        invariant done == StageAll(m0, view[..i]) && done.ok == ok
        invariant Staged() == done.staged
        invariant Kinds(ctx.log) == log0 + done.issued
        invariant forall e :: e in old(packets) ==> e in packets && packets[e] == old(packets[e])
        invariant forall e :: e in packets && e !in old(packets) ==> fresh(packets[e])
        invariant ctx.Extends()
        invariant SnapshotKept(s0, states, view, i)
      {
        ghost var step := StageEntity(done.staged, view[i].0, view[i].1);
        StageAllSnoc(m0, view, i);
        ghost var cur := states;
        ok := StageNext(ctx, view[i].0, view[i].1);
        ConcatAssoc(log0, done.issued, step.issued);
        done := StageOutcome(step.staged, step.ok, done.issued + step.issued);
        SnapshotStep(s0, cur, states, view, i);
        i := i + 1;
      }
      if ok {
        assert view[..|view|] == view;
      } else {
        StageFailureSticks(m0, view, i);
      }
    }
  }

  /** The stored boxes of a snapshot. */
  function Boxes(s: map<nat, PacketState>): (b: map<nat, Aabb>)
    ensures b.Keys == s.Keys
  {
    map e | e in s :: s[e].aabb
  }

  lemma BoxesUpdate(s: map<nat, PacketState>, e: nat, v: PacketState)
    ensures Boxes(s[e := v]) == Boxes(s)[e := v.aabb]
  {
  }

  lemma BoxesRemove(s: map<nat, PacketState>, e: nat)
    ensures Boxes(s - {e}) == Boxes(s) - {e}
  {
  }

  /**
   * What a pass keeps of the packets it started from (`s0`) after `i`
   * entities: every packet of an entity outside the view is untouched, and
   * over distinct entities, so is every packet not yet visited and every
   * packet whose box is still the old one.
   */
  ghost predicate SnapshotKept(s0: map<nat, PacketState>, cur: map<nat, PacketState>, view: seq<ViewEntry>, i: nat)
  {
    && s0.Keys <= cur.Keys
    && (forall e :: e in s0 && e !in ViewKeys(view) ==> cur[e] == s0[e])
    && (DistinctEntities(view) ==> forall j :: i <= j < |view| && view[j].0 in s0 ==> cur[view[j].0] == s0[view[j].0])
    && (DistinctEntities(view) ==> forall e :: e in s0 && cur[e].aabb == s0[e].aabb ==> cur[e] == s0[e])
  }

  /**
   * One step of the pass touches at most the packet of `view[i].0`, and a
   * packet it does touch gets a different box.
   */
  lemma SnapshotStep(s0: map<nat, PacketState>, cur: map<nat, PacketState>, next: map<nat, PacketState>,
                     view: seq<ViewEntry>, i: nat)
    requires i < |view| && SnapshotKept(s0, cur, view, i)
    requires next == cur || (view[i].0 in next && next == cur[view[i].0 := next[view[i].0]])
    requires view[i].0 in cur ==> next[view[i].0] == cur[view[i].0] || next[view[i].0].aabb != cur[view[i].0].aabb
    ensures SnapshotKept(s0, next, view, i + 1)
  {
    var x := view[i].0;
    assert x in ViewKeys(view);
    if DistinctEntities(view) && x in s0 {
      assert cur[x] == s0[x];
    }
  }

  /** Staging one more entity after a completed prefix. */
  lemma StageAllSnoc(m: map<nat, Aabb>, view: seq<ViewEntry>, i: nat)
    requires i < |view| && StageAll(m, view[..i]).ok
    ensures var prev := StageAll(m, view[..i]);
      var step := StageEntity(prev.staged, view[i].0, view[i].1);
      StageAll(m, view[..i + 1]) == StageOutcome(step.staged, step.ok, prev.issued + step.issued)
  {
    assert view[..i + 1][..i] == view[..i];
  }

  lemma ConcatAssoc<T>(a: seq<T>, b: seq<T>, c: seq<T>)
    ensures a + b + c == a + (b + c)
  {
  }

  /** Once a prefix of the view fails, the whole pass has that prefix's outcome. */
  lemma {:induction false} StageFailureSticks(m: map<nat, Aabb>, view: seq<ViewEntry>, k: nat)
    requires k <= |view| && !StageAll(m, view[..k]).ok
    ensures StageAll(m, view) == StageAll(m, view[..k])
    decreases |view| - k
  {
    if k < |view| {
      assert view[..k + 1][..k] == view[..k];
      StageFailureSticks(m, view, k + 1);
    } else {
      assert view[..k] == view;
    }
  }
}
