/**
 * Axis-aligned bounding boxes and the tolerance test that decides whether a
 * stored box and a newly computed one differ enough to refit a structure.
 * Coordinates are exact reals; the single-precision `fabs` test of the
 * renderer becomes an exact comparison.
 */
module Geometry {

  datatype Vec3 = Vec3(x: real, y: real, z: real)

  /** The bounding-box layout the acceleration-structure builder reads. */
  datatype Aabb = Aabb(min: Vec3, max: Vec3)

  /** The absolute tolerance of the change test (1e-4). */
  const Eps: real := 0.0001

  function Abs(r: real): (a: real)
    ensures a >= 0.0 && (a == r || a == -r)
  {
    if r < 0.0 then -r else r
  }

  /** Two values are approximately equal when they are strictly closer than `eps`. */
  function ApproxEq(a: real, b: real, eps: real): (r: bool)
    ensures r <==> b - eps < a < b + eps
  {
    Abs(a - b) < eps
  }

  /**
   * A refit is needed unless all six coordinates of `candidate` are within
   * `Eps` of the stored box, tested in the renderer's order. A box never
   * needs a refit against itself.
   */
  function NeedsRefit(stored: Aabb, candidate: Aabb): (r: bool)
    ensures stored == candidate ==> !r
  {
    !(ApproxEq(stored.min.x, candidate.min.x, Eps) &&
      ApproxEq(stored.max.x, candidate.max.x, Eps) &&
      ApproxEq(stored.min.y, candidate.min.y, Eps) &&
      ApproxEq(stored.max.y, candidate.max.y, Eps) &&
      ApproxEq(stored.min.z, candidate.min.z, Eps) &&
      ApproxEq(stored.max.z, candidate.max.z, Eps))
  }

  /** The six scalars of a box in buffer order: min x, y, z, then max x, y, z. */
  function Coords(a: Aabb): (c: seq<real>)
    ensures |c| == 6
    ensures c[0] == a.min.x && c[1] == a.min.y && c[2] == a.min.z
    ensures c[3] == a.max.x && c[4] == a.max.y && c[5] == a.max.z
  {
    [a.min.x, a.min.y, a.min.z, a.max.x, a.max.y, a.max.z]
  }

  /** Reference definition of a change: some coordinate moved by at least `Eps`. */
  ghost predicate SomeComponentMoved(s: Aabb, t: Aabb)
  {
    exists i :: 0 <= i < 6 && Abs(Coords(s)[i] - Coords(t)[i]) >= Eps
  }

  /** The six-term test is exactly "some coordinate moved by `Eps` or more". */
  lemma NeedsRefitIffSomeComponentMoved(s: Aabb, t: Aabb)
    ensures NeedsRefit(s, t) <==> SomeComponentMoved(s, t)
  {
    var c, d := Coords(s), Coords(t);
    if NeedsRefit(s, t) {
      if !ApproxEq(s.min.x, t.min.x, Eps) {
        assert Abs(c[0] - d[0]) >= Eps;
      } else if !ApproxEq(s.max.x, t.max.x, Eps) {
        assert Abs(c[3] - d[3]) >= Eps;
      } else if !ApproxEq(s.min.y, t.min.y, Eps) {
        assert Abs(c[1] - d[1]) >= Eps;
      } else if !ApproxEq(s.max.y, t.max.y, Eps) {
        assert Abs(c[4] - d[4]) >= Eps;
      } else if !ApproxEq(s.min.z, t.min.z, Eps) {
        assert Abs(c[2] - d[2]) >= Eps;
      } else {
        assert Abs(c[5] - d[5]) >= Eps;
      }
    } else {
      forall i | 0 <= i < 6
        ensures Abs(c[i] - d[i]) < Eps
      {
        assert i == 0 || i == 1 || i == 2 || i == 3 || i == 4 || i == 5;
      }
    }
  }

  /**
   * The boundary case: a coordinate that moved by exactly `Eps` is a change,
   * because the comparison is strict.
   */
  lemma ExactlyEpsIsAChange(s: Aabb, t: Aabb, i: nat)
    requires i < 6 && Abs(Coords(s)[i] - Coords(t)[i]) == Eps
    ensures NeedsRefit(s, t)
  {
    NeedsRefitIffSomeComponentMoved(s, t);
  }

  /** Every coordinate closer than `Eps`: no refit. */
  lemma WithinToleranceIsNoChange(s: Aabb, t: Aabb)
    requires forall i :: 0 <= i < 6 ==> Abs(Coords(s)[i] - Coords(t)[i]) < Eps
    ensures !NeedsRefit(s, t)
  {
    NeedsRefitIffSomeComponentMoved(s, t);
  }
}
