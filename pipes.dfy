/**
 * Pipes of flappy.js: how `createPipe` builds a top/bottom pair and what one
 * pass of the backward update loop of `gameLoop` does to the pipe list
 * (shift left, drop off-screen pipes, mark passed top pipes as counted).
 */
module Pipes {
  import opened Physics

  const Gap: real := 140.0
  const PipeWidth: real := 70.0
  const PipeSpeed: real := 3.2
  /** A pair is spawned on every frame whose counter is a multiple of this. */
  const SpawnInterval: nat := 120
  /** The top height is `floor(random * TopHeightSpan) + TopHeightBase`. */
  const TopHeightBase: int := 60
  const TopHeightSpan: int := 280

  /**
   * One pipe rectangle. The source gives only the top pipe a `counted` flag;
   * the bottom pipe's missing flag reads as false, which is what it holds here.
   */
  datatype Pipe = Pipe(x: real, y: real, width: real, height: real, counted: bool)

  /** The random top height of a new pair, from a `Math.random()` value. */
  function TopHeight(random: real): (h: int)
    requires 0.0 <= random < 1.0
    ensures TopHeightBase <= h <= TopHeightBase + TopHeightSpan - 1
  {
    (random * TopHeightSpan as real).Floor + TopHeightBase
  }

  /**
   * `t` and `b` are the top and bottom pipe of one pair: same column and
   * width, the top hangs from y = 0 with a height in the random range, and the
   * bottom starts exactly `Gap` below it and reaches the bottom of the canvas.
   */
  predicate IsPair(t: Pipe, b: Pipe, c: Canvas) {
    && t.y == 0.0
    && t.width == PipeWidth && b.width == PipeWidth
    && t.x == b.x
    && TopHeightBase as real <= t.height <= (TopHeightBase + TopHeightSpan - 1) as real
    && b.y == t.height + Gap
    && b.height == c.height - t.height - Gap
    && !b.counted
  }

  /** The two pipes that `createPipe` appends, in order top then bottom. */
  function NewPair(random: real, c: Canvas): (pair: seq<Pipe>)
    requires 0.0 <= random < 1.0
    ensures |pair| == 2 && IsPair(pair[0], pair[1], c)
    ensures pair[0].x == c.width && pair[0].height == TopHeight(random) as real
    ensures !pair[0].counted
  {
    var topHeight := TopHeight(random) as real;
    [Pipe(c.width, 0.0, PipeWidth, topHeight, false),
     Pipe(c.width, topHeight + Gap, PipeWidth, c.height - topHeight - Gap, false)]
  }

  /** The pipe list is a sequence of whole pairs, each top directly followed by its bottom. */
  predicate Paired(ps: seq<Pipe>, c: Canvas)
    decreases |ps|
  {
    |ps| == 0 || (|ps| >= 2 && IsPair(ps[0], ps[1], c) && Paired(ps[2..], c))
  }

  function Shift(p: Pipe): Pipe { p.(x := p.x - PipeSpeed) }

  /** The right edge has passed the left border of the canvas. */
  predicate OffScreen(p: Pipe) { p.x + p.width < 0.0 }

  /** An uncounted top pipe whose right edge has passed the bird's left edge. */
  predicate Passes(p: Pipe) { p.y == 0.0 && !p.counted && p.x + p.width < BirdX }

  function Mark(p: Pipe): Pipe { if Passes(p) then p.(counted := true) else p }

  /** What the update loop leaves of one pipe: nothing, or the shifted and possibly marked pipe. */
  function Kept(p: Pipe): seq<Pipe> {
    var q := Shift(p);
    if OffScreen(q) then [] else [Mark(q)]
  }

  /** Pipe `p` earns a point in this frame. */
  predicate Scores(p: Pipe) { !OffScreen(Shift(p)) && Passes(Shift(p)) }

  /** The pipe list after one pass of the update loop. */
  function Advanced(ps: seq<Pipe>): (r: seq<Pipe>)
    ensures |r| <= |ps|
  {
    if ps == [] then [] else Kept(ps[0]) + Advanced(ps[1..])
  }

  /** After the update loop every pipe left has its right edge at or right of 0. */
  lemma {:induction false} AdvancedOnScreen(ps: seq<Pipe>)
    ensures forall k :: 0 <= k < |Advanced(ps)| ==> Advanced(ps)[k].x + Advanced(ps)[k].width >= 0.0
  {
    if ps != [] {
      AdvancedOnScreen(ps[1..]);
    }
  }

  /** The number of points one pass of the update loop awards. */
  function Gained(ps: seq<Pipe>): (n: nat)
    ensures n <= |ps|
  {
    if ps == [] then 0 else (if Scores(ps[0]) then 1 else 0) + Gained(ps[1..])
  }

  /** Unfolding `Advanced` and `Gained` at position `i` of a list. */
  lemma AdvancedAt(ps: seq<Pipe>, i: nat)
    requires i < |ps|
    ensures Advanced(ps[i..]) == Kept(ps[i]) + Advanced(ps[i + 1..])
    ensures Gained(ps[i..]) == (if Scores(ps[i]) then 1 else 0) + Gained(ps[i + 1..])
  {
    assert ps[i..][1..] == ps[i + 1..];
  }

  /**
   * One step of the backward update loop: when the list is done from `i + 1`
   * on, replacing pipe `i` by what the loop keeps of it leaves the list done from `i` on.
   */
  lemma LoopStep(ps: seq<Pipe>, i: nat, current: seq<Pipe>)
    requires i < |ps|
    requires current == ps[..i + 1] + Advanced(ps[i + 1..])
    ensures current[..i] == ps[..i] && current[i] == ps[i] && current[i + 1..] == Advanced(ps[i + 1..])
    ensures current[..i] + Kept(current[i]) + current[i + 1..] == ps[..i] + Advanced(ps[i..])
  {
    AdvancedAt(ps, i);
    assert ps[..i + 1] == ps[..i] + [ps[i]];
    assert current == ps[..i] + [ps[i]] + Advanced(ps[i + 1..]);
  }

  /** The pipes the update loop keeps, shifted but not yet marked. */
  function Moved(ps: seq<Pipe>): seq<Pipe> {
    if ps == [] then []
    else (if OffScreen(Shift(ps[0])) then [] else [Shift(ps[0])]) + Moved(ps[1..])
  }

  /** The number of top pipes that can still earn a point. */
  function UncountedTops(ps: seq<Pipe>): nat {
    if ps == [] then 0 else (if ps[0].y == 0.0 && !ps[0].counted then 1 else 0) + UncountedTops(ps[1..])
  }

  /** Every index raised by one. */
  function Incremented(s: seq<nat>): seq<nat> {
    seq(|s|, k requires 0 <= k < |s| => s[k] + 1)
  }

  /** The indices, in `ps`, of the pipes that survive the update loop, in increasing order. */
  function Survivors(ps: seq<Pipe>): seq<nat> {
    if ps == [] then [] else (if OffScreen(Shift(ps[0])) then [] else [0]) + Incremented(Survivors(ps[1..]))
  }

  lemma InIncremented(s: seq<nat>, j: int)
    ensures j in Incremented(s) <==> j >= 1 && j - 1 in s
  {
    var inc := Incremented(s);
    if j in inc {
      var k :| 0 <= k < |inc| && inc[k] == j;
      assert s[k] == j - 1;
    }
    if j >= 1 && j - 1 in s {
      var k :| 0 <= k < |s| && s[k] == j - 1;
      assert inc[k] == j;
    }
  }

  /** The survivor indices are in range, strictly increasing, and as many as the pipes left. */
  lemma {:induction false} SurvivorsOrdered(ps: seq<Pipe>)
    ensures |Advanced(ps)| == |Survivors(ps)|
    ensures forall k :: 0 <= k < |Survivors(ps)| ==> Survivors(ps)[k] < |ps|
    ensures forall a, b :: 0 <= a < b < |Survivors(ps)| ==> Survivors(ps)[a] < Survivors(ps)[b]
  {
    if ps != [] {
      var rest := ps[1..];
      SurvivorsOrdered(rest);
      var idx' := Survivors(rest);
      var inc := Incremented(idx');
      var head: seq<nat> := if OffScreen(Shift(ps[0])) then [] else [0];
      var idx := Survivors(ps);
      assert idx == head + inc;
      assert Advanced(ps) == Kept(ps[0]) + Advanced(rest);
      forall a, b | 0 <= a < b < |idx|
        ensures idx[a] < idx[b]
      {
        if a >= |head| {
          assert idx[a] == idx'[a - |head|] + 1;
        }
      }
    }
  }

  /** A pipe survives exactly when its shifted right edge is not left of 0. */
  lemma {:induction false} SurvivorsExactly(ps: seq<Pipe>)
    ensures forall j :: 0 <= j < |ps| ==> (j in Survivors(ps) <==> !OffScreen(Shift(ps[j])))
  {
    if ps != [] {
      var rest := ps[1..];
      SurvivorsExactly(rest);
      var idx' := Survivors(rest);
      var head: seq<nat> := if OffScreen(Shift(ps[0])) then [] else [0];
      assert Survivors(ps) == head + Incremented(idx');
      forall j | 0 <= j < |ps|
        ensures j in Survivors(ps) <==> !OffScreen(Shift(ps[j]))
      {
        InIncremented(idx', j);
        if j > 0 {
          assert ps[j] == rest[j - 1];
        }
      }
    }
  }

  /** The k-th pipe left is the k-th survivor moved left by `PipeSpeed`, counted if it passed the bird. */
  lemma {:induction false} SurvivorsMoved(ps: seq<Pipe>)
    ensures |Advanced(ps)| == |Survivors(ps)|
    ensures forall k :: 0 <= k < |Survivors(ps)| ==>
      var i := Survivors(ps)[k];
      i < |ps| &&
      Advanced(ps)[k] == ps[i].(x := ps[i].x - PipeSpeed, counted := ps[i].counted || Passes(Shift(ps[i])))
  {
    if ps != [] {
      var rest := ps[1..];
      SurvivorsMoved(rest);
      var r', idx' := Advanced(rest), Survivors(rest);
      var head: seq<nat> := if OffScreen(Shift(ps[0])) then [] else [0];
      var r, idx := Advanced(ps), Survivors(ps);
      assert idx == head + Incremented(idx');
      assert r == Kept(ps[0]) + r';
      forall k | 0 <= k < |idx|
        ensures idx[k] < |ps|
        ensures r[k] == ps[idx[k]].(x := ps[idx[k]].x - PipeSpeed,
                                    counted := ps[idx[k]].counted || Passes(Shift(ps[idx[k]])))
      {
        if k < |head| {
          assert idx[k] == 0 && r[k] == Mark(Shift(ps[0]));
        } else {
          var k' := k - |head|;
          assert idx[k] == idx'[k'] + 1;
          assert r[k] == r'[k'];
          assert ps[idx[k]] == rest[idx'[k']];
        }
      }
    }
  }

  /**
   * The update loop removes exactly the pipes whose shifted right edge is left
   * of 0, keeps the others in their original order, moves each of them left by
   * exactly `PipeSpeed`, and sets `counted` on exactly those that pass the bird.
   */
  lemma AdvancedExactly(ps: seq<Pipe>)
    ensures var r, idx := Advanced(ps), Survivors(ps);
      && |r| == |idx|
      && (forall k :: 0 <= k < |idx| ==> idx[k] < |ps|)
      && (forall a, b :: 0 <= a < b < |idx| ==> idx[a] < idx[b])
      && (forall j :: 0 <= j < |ps| ==> (j in idx <==> !OffScreen(Shift(ps[j]))))
      && (forall k :: 0 <= k < |idx| ==>
            r[k] == ps[idx[k]].(x := ps[idx[k]].x - PipeSpeed,
                                counted := ps[idx[k]].counted || Passes(Shift(ps[idx[k]]))))
  {
    SurvivorsOrdered(ps);
    SurvivorsExactly(ps);
    SurvivorsMoved(ps);
  }

  lemma {:induction false} AdvancedConcat(a: seq<Pipe>, b: seq<Pipe>)
    ensures Advanced(a + b) == Advanced(a) + Advanced(b)
    ensures Gained(a + b) == Gained(a) + Gained(b)
  {
    if a != [] {
      assert (a + b)[1..] == a[1..] + b;
      AdvancedConcat(a[1..], b);
    } else {
      assert a + b == b;
    }
  }

  lemma {:induction false} UncountedConcat(a: seq<Pipe>, b: seq<Pipe>)
    ensures UncountedTops(a + b) == UncountedTops(a) + UncountedTops(b)
  {
    if a != [] {
      assert (a + b)[1..] == a[1..] + b;
      UncountedConcat(a[1..], b);
    } else {
      assert a + b == b;
    }
  }

  /**
   * Every point awarded uses up one uncounted top pipe, and that pipe is
   * counted afterwards: no pipe ever scores twice.
   */
  lemma {:induction false} ScoreConsumesUncounted(ps: seq<Pipe>)
    ensures Gained(ps) + UncountedTops(Advanced(ps)) <= UncountedTops(ps)
  {
    if ps != [] {
      var p := ps[0];
      ScoreConsumesUncounted(ps[1..]);
      UncountedConcat(Kept(p), Advanced(ps[1..]));
      if !OffScreen(Shift(p)) {
        assert [Mark(Shift(p))][1..] == [];
      }
    }
  }

  /**
   * The points of one pass are exactly the surviving uncounted top pipes
   * that have become counted: those uncounted after the shift, less those
   * still uncounted after the loop.
   */
  lemma {:induction false} GainedIsNewlyCounted(ps: seq<Pipe>)
    ensures Gained(ps) + UncountedTops(Advanced(ps)) == UncountedTops(Moved(ps))
  {
    if ps != [] {
      var p := ps[0];
      GainedIsNewlyCounted(ps[1..]);
      UncountedConcat(Kept(p), Advanced(ps[1..]));
      var m: seq<Pipe> := if OffScreen(Shift(p)) then [] else [Shift(p)];
      UncountedConcat(m, Moved(ps[1..]));
      if !OffScreen(Shift(p)) {
        assert [Mark(Shift(p))][1..] == [];
        assert [Shift(p)][1..] == [];
      }
    }
  }

  lemma {:induction false} PairedConcat(a: seq<Pipe>, b: seq<Pipe>, c: Canvas)
    requires Paired(a, c) && Paired(b, c)
    ensures Paired(a + b, c)
    decreases |a|
  {
    if a != [] {
      assert (a + b)[2..] == a[2..] + b;
      PairedConcat(a[2..], b, c);
    } else {
      assert a + b == b;
    }
  }

  lemma NewPairPaired(random: real, c: Canvas)
    requires 0.0 <= random < 1.0
    ensures Paired(NewPair(random, c), c)
  {
    assert NewPair(random, c)[2..] == [];
  }

  /** A new pair brings exactly one top pipe that can still score. */
  lemma NewPairUncounted(random: real, c: Canvas)
    requires 0.0 <= random < 1.0
    ensures UncountedTops(NewPair(random, c)) == 1
  {
    var pair := NewPair(random, c);
    assert pair[1..][1..] == [];
    assert UncountedTops(pair[1..]) == 0;
  }

  /** Both pipes of a pair leave the canvas together; kept, they still form a pair. */
  lemma PairKept(t: Pipe, b: Pipe, c: Canvas)
    requires IsPair(t, b, c)
    ensures OffScreen(Shift(t)) ==> Kept(t) + Kept(b) == []
    ensures !OffScreen(Shift(t)) ==>
      Kept(t) + Kept(b) == [Mark(Shift(t)), Shift(b)] && IsPair(Mark(Shift(t)), Shift(b), c)
  {
  }

  lemma AdvancedTwo(ps: seq<Pipe>)
    requires |ps| >= 2
    ensures Advanced(ps) == Kept(ps[0]) + Kept(ps[1]) + Advanced(ps[2..])
  {
    assert ps[1..][1..] == ps[2..];
    assert Advanced(ps[1..]) == Kept(ps[1]) + Advanced(ps[2..]);
  }

  lemma PairedCons(t: Pipe, b: Pipe, rest: seq<Pipe>, c: Canvas)
    requires IsPair(t, b, c) && Paired(rest, c)
    ensures Paired([t, b] + rest, c)
  {
    assert ([t, b] + rest)[2..] == rest;
  }

  /** The update loop removes both pipes of a pair or neither, so the list stays made of pairs. */
  lemma {:induction false} PairedAdvanced(ps: seq<Pipe>, c: Canvas)
    requires Paired(ps, c)
    ensures Paired(Advanced(ps), c)
    decreases |ps|
  {
    if ps != [] {
      var t, b, rest := ps[0], ps[1], ps[2..];
      PairedAdvanced(rest, c);
      AdvancedTwo(ps);
      PairKept(t, b, c);
      if !OffScreen(Shift(t)) {
        PairedCons(Mark(Shift(t)), Shift(b), Advanced(rest), c);
      } else {
        assert Advanced(ps) == Advanced(rest);
      }
    }
  }

  /** A bottom pipe starts at least 200 below the top of the canvas and never scores. */
  lemma BottomNeverScores(t: Pipe, b: Pipe, c: Canvas)
    requires IsPair(t, b, c)
    ensures b.y >= TopHeightBase as real + Gap
    ensures !Scores(b) && Kept(b) <= [Shift(b)]
  {
  }

  /** A freshly created pair is still on screen after its first shift. */
  lemma NewPairSurvivesFirstShift(random: real, c: Canvas)
    requires 0.0 <= random < 1.0
    requires c.width > 0.0
    ensures |Advanced(NewPair(random, c))| == 2
  {
    var pair := NewPair(random, c);
    assert pair[1..][1..] == [];
  }

  /** The worked example: a top height of 100 on a 600-high canvas leaves a bottom pipe of 360 at y = 240. */
  lemma NewPairExample()
    ensures TopHeight(1.0 / 7.0) == 100
    ensures NewPair(1.0 / 7.0, Canvas(400.0, 600.0))[1] == Pipe(400.0, 240.0, 70.0, 360.0, false)
  {
    assert 1.0 / 7.0 * 280.0 == 40.0;
  }
}
