/** What the segments of an envelope are, geometrically. For strictly increasing times the upper
    envelope is the least concave majorant of the points it covers: a connected chain with
    falling slopes through some of those points, each edge extended for ever lying on or above
    all of them. The lower envelope is the same picture upside down. */
module ConvexHull {
  import opened Envelope
  import opened EnvelopeMotion

  function On(s: Seg, x: real): real {
    s.m * x + s.c
  }

  predicate Increasing(pts: seq<Pt>) {
    forall i, j :: 0 <= i < j < |pts| ==> pts[i].x < pts[j].x
  }

  /** A segment that runs forward in time and really is the line through its anchors. */
  predicate Proper(s: Seg) {
    && s.p1.x < s.p2.x
    && s.period == s.p2.x - s.p1.x
    && On(s, s.p1.x) == s.p1.y
    && On(s, s.p2.x) == s.p2.y
  }

  predicate Chain(segs: seq<Seg>) {
    && (forall i :: 0 <= i < |segs| ==> Proper(segs[i]))
    && (forall i, j :: 0 <= i && j == i + 1 < |segs| ==> segs[i].p2 == segs[j].p1)
  }

  predicate SlopesFall(segs: seq<Seg>) {
    forall i, j :: 0 <= i && j == i + 1 < |segs| ==> segs[i].m > segs[j].m
  }

  /** The line lies on or above every point from time `from` on. */
  predicate CoversFrom(s: Seg, pts: seq<Pt>, from: real) {
    forall k :: 0 <= k < |pts| && pts[k].x >= from ==> pts[k].y <= On(s, pts[k].x)
  }

  predicate Covers(s: Seg, pts: seq<Pt>) {
    forall k :: 0 <= k < |pts| ==> pts[k].y <= On(s, pts[k].x)
  }

  predicate VerticesIn(segs: seq<Seg>, pts: seq<Pt>) {
    forall i :: 0 <= i < |segs| ==> segs[i].p1 in pts && segs[i].p2 in pts
  }

  /** `segs` runs from the first of `pts` to the last, through points of `pts`. */
  predicate Spans(segs: seq<Seg>, pts: seq<Pt>) {
    && segs != [] && pts != []
    && Chain(segs) && VerticesIn(segs, pts)
    && segs[0].p1 == pts[0] && segs[|segs| - 1].p2 == pts[|pts| - 1]
  }

  /** The least concave majorant of `pts`, as a chain of segments. */
  predicate UpperHull(segs: seq<Seg>, pts: seq<Pt>) {
    && Spans(segs, pts)
    && SlopesFall(segs)
    && forall i :: 0 <= i < |segs| ==> Covers(segs[i], pts)
  }

  /** A state of the upper envelope that covers exactly `pts`. */
  predicate IsUpper(e: State, pts: seq<Pt>) {
    && e.dir == Above
    && Increasing(pts)
    && e.haveInit == (pts != [])
    && (pts != [] ==> e.initPt == pts[|pts| - 1])
    && (|pts| <= 1 ==> e.segs == [])
    && (|pts| > 1 ==> UpperHull(e.segs, pts))
  }

  // ------------------------------------------------------------- two segments

  lemma {:induction false} ProperSlope(s: Seg, x: real)
    requires Proper(s)
    ensures On(s, x) == s.p1.y + s.m * (x - s.p1.x)
    ensures On(s, x) == s.p2.y + s.m * (x - s.p2.x)
    ensures s.p2.y - s.p1.y == s.m * (s.p2.x - s.p1.x)
  {
  }

  lemma {:induction false} MakeSegProper(p1: Pt, p2: Pt)
    requires p1.x < p2.x
    ensures MakeSeg(p1, p2).Some?
    ensures var s := MakeSeg(p1, p2).value; Proper(s) && s.p1 == p1 && s.p2 == p2
  {
    var m := (p2.y - p1.y) / (p2.x - p1.x);
    assert m * (p2.x - p1.x) == p2.y - p1.y;
    assert m * (p2.x - p1.x) == m * p2.x - m * p1.x;
  }

  lemma {:induction false} ProductSign(a: real, b: real)
    ensures a >= 0.0 && b >= 0.0 ==> a * b >= 0.0
    ensures a >= 0.0 && b <= 0.0 ==> a * b <= 0.0
    ensures a < 0.0 && b > 0.0 ==> a * b < 0.0
  {
  }

  lemma {:induction false} ScaleUp(a: real, b: real, d: real)
    requires a <= b && d >= 0.0
    ensures a * d <= b * d
  {
    ProductSign(b - a, d);
    assert (b - a) * d == b * d - a * d;
  }

  lemma {:induction false} ScaleDown(a: real, b: real, d: real)
    requires a <= b && d <= 0.0
    ensures b * d <= a * d
  {
    ProductSign(b - a, d);
    assert (b - a) * d == b * d - a * d;
  }

  /** Two lines through a common point: the steeper one is above to the right, below to the left. */
  lemma {:induction false} Crossing(a: Seg, b: Seg, x: real)
    requires Proper(a) && Proper(b) && a.p2 == b.p1 && a.m >= b.m
    ensures x >= b.p1.x ==> On(a, x) >= On(b, x)
    ensures x <= b.p1.x ==> On(a, x) <= On(b, x)
  {
    hide On;
    ProperSlope(a, x);
    ProperSlope(b, x);
    var d := x - b.p1.x;
    if d >= 0.0 {
      ScaleUp(b.m, a.m, d);
    }
    if d <= 0.0 {
      ScaleDown(b.m, a.m, d);
    }
  }

  lemma {:induction false} WeightedMean(ma: real, mb: real, mean: real, da: real, db: real)
    requires da > 0.0 && db > 0.0 && ma <= mb
    requires mean * (da + db) == ma * da + mb * db
    ensures ma <= mean <= mb
  {
    ProductSign(mb - ma, db);
    ProductSign(mb - ma, da);
    assert (mean - ma) * (da + db) == (mb - ma) * db;
    assert (mb - mean) * (da + db) == (mb - ma) * da;
    ProductSign(mean - ma, da + db);
    ProductSign(mb - mean, da + db);
  }

  lemma {:induction false} MergedSlope(a: Seg, b: Seg, s: Seg)
    requires Proper(a) && Proper(b) && Proper(s)
    requires a.p2 == b.p1 && s.p1 == a.p1 && s.p2 == b.p2 && b.m >= a.m
    ensures a.m <= s.m <= b.m
  {
    ProperSlope(a, 0.0);
    ProperSlope(b, 0.0);
    ProperSlope(s, 0.0);
    WeightedMean(a.m, b.m, s.m, a.p2.x - a.p1.x, b.p2.x - b.p1.x);
  }

  lemma {:induction false} SteeperFromLeft(a: Seg, s: Seg, x: real)
    requires Proper(a) && Proper(s) && s.p1 == a.p1 && a.m <= s.m && a.p1.x <= x
    ensures On(a, x) <= On(s, x)
  {
    hide On;
    ProperSlope(s, x);
    ProperSlope(a, x);
    ScaleUp(a.m, s.m, x - a.p1.x);
  }

  lemma {:induction false} FlatterToRight(b: Seg, s: Seg, x: real)
    requires Proper(b) && Proper(s) && s.p2 == b.p2 && s.m <= b.m && x <= b.p2.x
    ensures On(b, x) <= On(s, x)
  {
    hide On;
    ProperSlope(s, x);
    ProperSlope(b, x);
    ScaleDown(s.m, b.m, x - b.p2.x);
  }

  /** Replacing two edges that turn the wrong way by their chord loses no point. */
  lemma {:induction false} ChordCovers(a: Seg, b: Seg, s: Seg, q: Pt)
    requires Proper(a) && Proper(b) && Proper(s)
    requires a.p2 == b.p1 && s.p1 == a.p1 && s.p2 == b.p2 && b.m >= a.m
    requires a.p1.x <= q.x <= b.p2.x
    requires q.y <= On(a, q.x)
    requires q.x >= b.p1.x ==> q.y <= On(b, q.x)
    ensures q.y <= On(s, q.x)
  {
    hide On;
    MergedSlope(a, b, s);
    if q.x <= a.p2.x {
      SteeperFromLeft(a, s, q.x);
    } else {
      FlatterToRight(b, s, q.x);
    }
  }

  // ----------------------------------------------------------- merging a chain

  /** The chain between two turns of the merging loop: everything but its last edge is already
      right for the points before the newest one, and the last edge for those it runs over. */
  predicate Merging(segs: seq<Seg>, old_: seq<Pt>, p: Pt) {
    && Increasing(old_ + [p]) && Spans(segs, old_ + [p]) && old_ != []
    && SlopesFall(segs[..|segs| - 1])
    && (forall i :: 0 <= i < |segs| - 1 ==> Covers(segs[i], old_))
    && CoversFrom(segs[|segs| - 1], old_, segs[|segs| - 1].p1.x)
  }

  lemma {:induction false} MergeStep(segs: seq<Seg>, old_: seq<Pt>, p: Pt, s: Seg)
    requires Merging(segs, old_, p) && |segs| >= 2
    requires segs[|segs| - 1].m >= segs[|segs| - 2].m
    requires Proper(s) && s.p1 == segs[|segs| - 2].p1 && s.p2 == segs[|segs| - 1].p2
    ensures Merging(segs[..|segs| - 2] + [s], old_, p)
  {
    var n := |segs|;
    var a, b := segs[n - 2], segs[n - 1];
    var after := segs[..n - 2] + [s];
    assert a.p2 == b.p1;
    assert Chain(after) by {
      forall i, j | 0 <= i && j == i + 1 < |after| ensures after[i].p2 == after[j].p1 {
        assert segs[i].p2 == segs[j].p1;
      }
    }
    assert after[..n - 2] == segs[..n - 2];
    assert SlopesFall(after[..n - 2]) by {
      assert segs[..n - 2] == segs[..n - 1][..n - 2];
    }
    assert segs[0].p1 in old_ + [p];
    forall k | 0 <= k < |old_| && old_[k].x >= s.p1.x ensures old_[k].y <= On(s, old_[k].x) {
      var all := old_ + [p];
      assert all[k].x < all[|old_|].x;
      ChordCovers(a, b, s, old_[k]);
    }
  }

  /** Along a chain with falling slopes an earlier edge is above a later one, to its right. */
  lemma {:induction false} EarlierAbove(segs: seq<Seg>, i: nat, j: nat, x: real)
    requires Chain(segs) && SlopesFall(segs) && i <= j < |segs|
    requires x >= segs[j].p1.x
    ensures On(segs[i], x) >= On(segs[j], x)
    decreases j - i
  {
    if i < j {
      assert segs[j - 1].p2 == segs[j].p1 && segs[j - 1].m > segs[j].m;
      assert Proper(segs[j - 1]);
      Crossing(segs[j - 1], segs[j], x);
      EarlierAbove(segs, i, j - 1, x);
    }
  }

  lemma {:induction false} LaterAbove(segs: seq<Seg>, i: nat, j: nat, x: real)
    requires Chain(segs) && SlopesFall(segs) && i <= j < |segs|
    requires x <= segs[i].p2.x
    ensures On(segs[j], x) >= On(segs[i], x)
    decreases j - i
  {
    if i < j {
      assert segs[i].p2 == segs[i + 1].p1 && segs[i].m > segs[i + 1].m;
      assert Proper(segs[i + 1]);
      Crossing(segs[i], segs[i + 1], x);
      LaterAbove(segs, i + 1, j, x);
    }
  }

  lemma {:induction false} MergeDone(segs: seq<Seg>, old_: seq<Pt>, p: Pt)
    requires Merging(segs, old_, p)
    requires |segs| >= 2 ==> segs[|segs| - 1].m < segs[|segs| - 2].m
    ensures UpperHull(segs, old_ + [p])
  {
    var n, all := |segs|, old_ + [p];
    var last := segs[n - 1];
    assert SlopesFall(segs) by {
      forall i, j | 0 <= i && j == i + 1 < n ensures segs[i].m > segs[j].m {
        if j < n - 1 {
          assert segs[..n - 1][i].m > segs[..n - 1][j].m;
        }
      }
    }
    forall i | 0 <= i < n ensures Covers(segs[i], all) {
      forall k | 0 <= k < |all| ensures all[k].y <= On(segs[i], all[k].x) {
        if k == |old_| {
          assert all[k] == last.p2;
          EarlierAbove(segs, i, n - 1, last.p2.x);
        } else if i < n - 1 {
          assert all[k] == old_[k];
        } else {
          assert all[k] == old_[k];
          LastCovers(segs, old_, p, k);
        }
      }
    }
  }

  lemma {:induction false} LastCovers(segs: seq<Seg>, old_: seq<Pt>, p: Pt, k: nat)
    requires Merging(segs, old_, p) && SlopesFall(segs) && k < |old_|
    ensures old_[k].y <= On(segs[|segs| - 1], old_[k].x)
  {
    var n := |segs|;
    var last := segs[n - 1];
    var all := old_ + [p];
    assert all[k] == old_[k] && (k > 0 ==> all[0].x < all[k].x);
    assert n == 1 ==> last.p1 == all[0];
    if n > 1 && old_[k].x < last.p1.x {
      assert segs[n - 2].p2 == last.p1;
      LaterAbove(segs, n - 2, n - 1, old_[k].x);
      assert Covers(segs[n - 2], old_);
    }
  }

  // ------------------------------------------------------------- adding a point

  lemma {:induction false} IncreasingPrefix(pts: seq<Pt>, p: Pt)
    requires Increasing(pts + [p])
    ensures Increasing(pts)
    ensures pts != [] ==> pts[|pts| - 1].x < p.x
  {
    var all := pts + [p];
    assert forall i :: 0 <= i < |pts| ==> all[i] == pts[i];
    if pts != [] {
      assert all[|pts| - 1].x < all[|pts|].x;
    }
  }

  lemma {:induction false} AppendStarts(segs: seq<Seg>, pts: seq<Pt>, p: Pt, s: Seg)
    requires Increasing(pts + [p]) && pts != []
    requires |pts| <= 1 ==> segs == []
    requires |pts| > 1 ==> UpperHull(segs, pts)
    requires Proper(s) && s.p1 == pts[|pts| - 1] && s.p2 == p
    ensures Merging(segs + [s], pts, p)
  {
    var all, after := pts + [p], segs + [s];
    assert Chain(after) by {
      forall i, j | 0 <= i && j == i + 1 < |after| ensures after[i].p2 == after[j].p1 {
        if j < |segs| {
          assert segs[i].p2 == segs[j].p1;
        }
      }
    }
    assert after[..|segs|] == segs;
    assert s.p1 in all && s.p2 in all by {
      assert all[|pts| - 1] == s.p1 && all[|pts|] == s.p2;
    }
    IncreasingPrefix(pts, p);
    forall k | 0 <= k < |pts| && pts[k].x >= s.p1.x ensures pts[k].y <= On(s, pts[k].x) {
      assert k == |pts| - 1;
    }
  }

  lemma {:induction false} LastTwo(segs: seq<Seg>, old_: seq<Pt>, p: Pt)
    requires Merging(segs, old_, p) && |segs| >= 2
    ensures var a, b := segs[|segs| - 2], segs[|segs| - 1];
            && a.p1.x < b.p2.x && a.p2 == b.p1
            && a.period + b.period == b.p2.x - a.p1.x
  {
    assert Proper(segs[|segs| - 2]) && Proper(segs[|segs| - 1]);
  }

  /** Merging an upper envelope, when the merged segment's length is its own. */
  lemma MergedLastAbove(e: State)
    requires e.dir == Above && |e.segs| > 1
    requires var a, b := e.segs[|e.segs| - 2], e.segs[|e.segs| - 1];
             MakeSeg(a.p1, b.p2).Some? && MakeSeg(a.p1, b.p2).value.period == a.period + b.period
    ensures var n := |e.segs|;
            var a, b := e.segs[n - 2], e.segs[n - 1];
            && MergedLast(e).1 == (b.m >= a.m) && MergedLast(e).0.dir == Above
            && (b.m >= a.m ==> MergedLast(e).0.segs == e.segs[..n - 2] + [MakeSeg(a.p1, b.p2).value])
            && (b.m < a.m ==> MergedLast(e).0 == e)
  {
    hide MakeSeg;
    var a, b := e.segs[|e.segs| - 2], e.segs[|e.segs| - 1];
    var s := MakeSeg(a.p1, b.p2).value;
    assert s.(period := a.period + b.period) == s;
  }

  lemma {:induction false} MergedLastHull(e: State, pts: seq<Pt>, p: Pt)
    requires e.dir == Above && Merging(e.segs, pts, p) && |e.segs| > 1
    ensures MergedLast(e).1 ==> Merging(MergedLast(e).0.segs, pts, p) && MergedLast(e).0.dir == Above
    ensures !MergedLast(e).1 ==> MergedLast(e).0 == e && UpperHull(e.segs, pts + [p])
  {
    hide Merging, UpperHull, MakeSeg, Proper, MergedLast;
    var n := |e.segs|;
    var a, b := e.segs[n - 2], e.segs[n - 1];
    LastTwo(e.segs, pts, p);
    MakeSegProper(a.p1, b.p2);
    MergedLastAbove(e);
    if b.m >= a.m {
      MergeStep(e.segs, pts, p, MakeSeg(a.p1, b.p2).value);
    } else {
      MergeDone(e.segs, pts, p);
    }
  }

  lemma {:induction false} MergedAllHull(e: State, pts: seq<Pt>, p: Pt)
    requires e.dir == Above && Merging(e.segs, pts, p)
    ensures UpperHull(MergedAll(e).segs, pts + [p])
    decreases |e.segs|
  {
    if |e.segs| > 1 {
      MergedLastHull(e, pts, p);
      MergeKeeps(e);
      hide Merging, MergedLast;
      if MergedLast(e).1 {
        MergedAllHull(MergedLast(e).0, pts, p);
      }
    } else {
      MergeDone(e.segs, pts, p);
    }
  }

  /** The upper envelope stays the least concave majorant when a later point comes in. */
  lemma {:induction false} AddKeepsUpper(e: State, pts: seq<Pt>, p: Pt)
    requires IsUpper(e, pts) && Increasing(pts + [p])
    ensures WithPoint(e, p.x, p.y).1 && IsUpper(WithPoint(e, p.x, p.y).0, pts + [p])
  {
    IncreasingPrefix(pts, p);
    if pts != [] {
      MakeSegProper(e.initPt, p);
      var s := MakeSeg(e.initPt, p).value;
      AppendStarts(e.segs, pts, p, s);
      var e1 := Appended(e, s);
      AppendKeeps(e, s);
      MergedAllHull(e1, pts, p);
      MergedAllKeeps(e1);
    }
  }
}
