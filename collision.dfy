/**
 * The collision rule of `checkCollisions`: the bird's box leaves the playable
 * band (below the ground line or above the top edge) or strictly overlaps a pipe.
 */
module Collision {
  import opened Physics
  import opened Pipes

  /** The bird's bottom edge is inside the ground strip. */
  predicate HitsGround(birdY: real, c: Canvas) { birdY + BirdHeight > c.height - GroundHeight }

  /** The bird's top edge is above the top of the canvas. */
  predicate HitsCeiling(birdY: real) { birdY < 0.0 }

  /** The bird's box and the pipe's box overlap with positive area on both axes. */
  predicate Overlaps(birdY: real, p: Pipe) {
    && BirdX < p.x + p.width
    && BirdX + BirdWidth > p.x
    && birdY < p.y + p.height
    && birdY + BirdHeight > p.y
  }

  predicate Colliding(birdY: real, ps: seq<Pipe>, c: Canvas) {
    || HitsGround(birdY, c)
    || HitsCeiling(birdY)
    || exists i :: 0 <= i < |ps| && Overlaps(birdY, ps[i])
  }

  /**
   * Colliding with a list is colliding with either part of it: the order in
   * which the pipes are tested, and where the loop returns, do not matter.
   */
  lemma CollidingConcat(birdY: real, a: seq<Pipe>, b: seq<Pipe>, c: Canvas)
    ensures Colliding(birdY, a + b, c) <==> Colliding(birdY, a, c) || Colliding(birdY, b, c)
  {
    if exists i :: 0 <= i < |a + b| && Overlaps(birdY, (a + b)[i]) {
      var i :| 0 <= i < |a + b| && Overlaps(birdY, (a + b)[i]);
      if i >= |a| {
        assert Overlaps(birdY, b[i - |a|]);
      }
    }
    if exists i :: 0 <= i < |a| && Overlaps(birdY, a[i]) {
      var i :| 0 <= i < |a| && Overlaps(birdY, a[i]);
      assert (a + b)[i] == a[i];
    }
    if exists i :: 0 <= i < |b| && Overlaps(birdY, b[i]) {
      var i :| 0 <= i < |b| && Overlaps(birdY, b[i]);
      assert (a + b)[|a| + i] == b[i];
    }
  }

  /** Boxes that only touch along an edge do not collide. */
  lemma TouchingIsNotOverlap(birdY: real, p: Pipe)
    requires || p.x + p.width == BirdX || p.x == BirdX + BirdWidth
             || p.y + p.height == birdY || p.y == birdY + BirdHeight
    ensures !Overlaps(birdY, p)
  {
  }

  /** A bird whose box lies inside the gap of a pair hits neither pipe of the pair. */
  lemma GapIsClear(birdY: real, t: Pipe, b: Pipe, c: Canvas)
    requires IsPair(t, b, c)
    requires t.height <= birdY && birdY + BirdHeight <= b.y
    ensures !Overlaps(birdY, t) && !Overlaps(birdY, b)
    ensures BirdHeight < Gap
  {
  }

  /**
   * The edges of the playable band: half a unit above the top edge collides,
   * the top edge itself does not; one unit into the ground strip collides,
   * resting exactly on the ground line does not.
   */
  lemma BoundaryExamples(ps: seq<Pipe>, c: Canvas)
    ensures Colliding(-0.5, ps, c)
    ensures c.height >= GroundHeight + BirdHeight ==> !Colliding(0.0, [], c)
    ensures Colliding(c.height - GroundHeight - BirdHeight + 1.0, ps, c)
    ensures c.height >= GroundHeight + BirdHeight ==> !Colliding(c.height - GroundHeight - BirdHeight, [], c)
  {
  }
}
