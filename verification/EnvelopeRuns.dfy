/** What an envelope knows after any run of measurements: the hull is the least concave (or
    greatest convex) bound of the points it covers, every line it can report bounds all of them,
    and a straight-line clock model that fits the measurements runs between the two hulls. */
module EnvelopeRuns {
  import opened Envelope
  import opened EnvelopeMotion
  import opened ConvexHull

  // ------------------------------------------------------------ the hull as a function

  predicate InSpan(segs: seq<Seg>, x: real) {
    segs != [] && segs[0].p1.x <= x <= segs[|segs| - 1].p2.x
  }

  /** The height of the chain at a time inside its span. */
  function HullAt(segs: seq<Seg>, x: real): real
    requires segs != []
  {
    if |segs| == 1 || x <= segs[0].p2.x then On(segs[0], x) else HullAt(segs[1..], x)
  }

  lemma {:induction false} EdgeAt(segs: seq<Seg>, x: real) returns (i: nat)
    requires Chain(segs) && InSpan(segs, x)
    ensures i < |segs| && segs[i].p1.x <= x <= segs[i].p2.x && HullAt(segs, x) == On(segs[i], x)
  {
    if |segs| == 1 || x <= segs[0].p2.x {
      i := 0;
    } else {
      var rest := segs[1..];
      assert segs[0].p2 == segs[1].p1;
      ChainTail(segs);
      var j := EdgeAt(rest, x);
      i := j + 1;
    }
  }

  lemma {:induction false} ChainTail(segs: seq<Seg>)
    requires Chain(segs) && |segs| > 1
    ensures Chain(segs[1..])
  {
    var rest := segs[1..];
    forall i, j | 0 <= i && j == i + 1 < |rest| ensures rest[i].p2 == rest[j].p1 {
      assert segs[i + 1].p2 == segs[j + 1].p1;
    }
  }

  /** The hull is the lowest of its own edges extended for ever, so it is concave. */
  lemma {:induction false} HullIsMinOfLines(segs: seq<Seg>, x: real, j: nat)
    requires Chain(segs) && SlopesFall(segs) && InSpan(segs, x) && j < |segs|
    ensures HullAt(segs, x) <= On(segs[j], x)
  {
    var i := EdgeAt(segs, x);
    if j <= i {
      EarlierAbove(segs, j, i, x);
    } else {
      LaterAbove(segs, i, j, x);
    }
  }

  /** On or above its chords everywhere. */
  ghost predicate Concave(g: real -> real) {
    forall a, x, b :: a < x < b ==> g(x) * (b - a) >= g(a) * (b - x) + g(b) * (x - a)
  }

  ghost predicate Majorises(g: real -> real, pts: seq<Pt>) {
    forall k :: 0 <= k < |pts| ==> g(pts[k].x) >= pts[k].y
  }

  lemma {:induction false} ChordHeight(s: Seg, x: real)
    requires Proper(s)
    ensures On(s, x) * (s.p2.x - s.p1.x) == s.p1.y * (s.p2.x - x) + s.p2.y * (x - s.p1.x)
  {
    ProperSlope(s, x);
    var d, t := s.p2.x - s.p1.x, x - s.p1.x;
    assert (s.m * t) * d == (s.m * d) * t;
    assert On(s, x) * d == s.p1.y * d + (s.p2.y - s.p1.y) * t;
  }

  lemma {:induction false} Scale(a: real, b: real, d: real)
    requires d > 0.0 && a * d <= b * d
    ensures a <= b
  {
    if a > b {
      ProductSign(b - a, d);
    }
  }

  /** A weighted mean of larger values is not smaller. */
  lemma {:induction false} MeanGrows(h: real, k: real, ga: real, gb: real, ya: real, yb: real,
                                     d: real, u: real, v: real)
    requires d > 0.0 && u >= 0.0 && v >= 0.0 && ya <= ga && yb <= gb
    requires h * d == ya * u + yb * v && ga * u + gb * v <= k * d
    ensures h <= k
  {
    ScaleUp(ya, ga, u);
    ScaleUp(yb, gb, v);
    Scale(h, k, d);
  }

  lemma {:induction false} ConcaveAboveEdge(g: real -> real, s: Seg, x: real)
    requires Concave(g) && Proper(s) && s.p1.x <= x <= s.p2.x
    requires g(s.p1.x) >= s.p1.y && g(s.p2.x) >= s.p2.y
    ensures On(s, x) <= g(x)
  {
    var a, b := s.p1.x, s.p2.x;
    if a < x < b {
      ChordHeight(s, x);
      var h, k, ga, gb := On(s, x), g(x), g(a), g(b);
      MeanGrows(h, k, ga, gb, s.p1.y, s.p2.y, b - a, b - x, x - a);
    }
  }

  /** The hull lies on or above every covered point, and below every concave function that does:
      it is the least concave majorant, over the whole covered span. */
  lemma {:induction false} LeastConcaveMajorant(segs: seq<Seg>, pts: seq<Pt>)
    requires UpperHull(segs, pts) && Increasing(pts)
    ensures forall k :: 0 <= k < |pts| ==> InSpan(segs, pts[k].x) && pts[k].y <= HullAt(segs, pts[k].x)
    ensures forall g: real -> real, x :: Concave(g) && Majorises(g, pts) && InSpan(segs, x)
              ==> HullAt(segs, x) <= g(x)
  {
    forall k | 0 <= k < |pts|
      ensures InSpan(segs, pts[k].x) && pts[k].y <= HullAt(segs, pts[k].x)
    {
      assert pts[0].x <= pts[k].x <= pts[|pts| - 1].x;
      var i := EdgeAt(segs, pts[k].x);
      assert Covers(segs[i], pts);
    }
    forall g: real -> real, x | Concave(g) && Majorises(g, pts) && InSpan(segs, x)
      ensures HullAt(segs, x) <= g(x)
    {
      var i := EdgeAt(segs, x);
      assert segs[i].p1 in pts && segs[i].p2 in pts;
      ConcaveAboveEdge(g, segs[i], x);
    }
  }

  // -------------------------------------------------------- both envelopes at once

  const UPSIDE_DOWN := Motion(true, 0.0, 0.0)

  function Moved(t: Motion, pts: seq<Pt>): (moved: seq<Pt>)
    ensures |moved| == |pts|
    ensures forall k :: 0 <= k < |pts| ==> moved[k] == t.OnPt(pts[k])
  {
    seq(|pts|, k requires 0 <= k < |pts| => t.OnPt(pts[k]))
  }

  /** An envelope state that covers exactly `pts`, in its own direction. */
  predicate Covering(e: State, pts: seq<Pt>) {
    match e.dir
    case Above => IsUpper(e, pts)
    case Below => IsUpper(UPSIDE_DOWN.OnState(e), Moved(UPSIDE_DOWN, pts))
  }

  lemma {:induction false} AddKeepsCovering(e: State, pts: seq<Pt>, p: Pt)
    requires Covering(e, pts) && Increasing(pts + [p])
    ensures WithPoint(e, p.x, p.y).1 && Covering(WithPoint(e, p.x, p.y).0, pts + [p])
    ensures WithPoint(e, p.x, p.y).0.dir == e.dir
  {
    var t := UPSIDE_DOWN;
    WithPointMoves(t, e, p) by {
      if e.dir == Below {
        assert t.OnState(e).segs == [] ==> e.segs == [];
      }
    }
    if e.dir == Above {
      AddKeepsUpper(e, pts, p);
    } else {
      assert Moved(t, pts + [p]) == Moved(t, pts) + [t.OnPt(p)];
      assert Increasing(Moved(t, pts + [p])) by {
        assert forall i :: 0 <= i < |pts| + 1 ==> Moved(t, pts + [p])[i].x == (pts + [p])[i].x;
      }
      AddKeepsUpper(t.OnState(e), Moved(t, pts), t.OnPt(p));
    }
  }

  /** The state after the measurements `pts`, in order. */
  function Fed(e: State, pts: seq<Pt>): State {
    if pts == [] then e
    else WithPoint(Fed(e, pts[..|pts| - 1]), pts[|pts| - 1].x, pts[|pts| - 1].y).0
  }

  /** After any strictly increasing run of measurements, either envelope covers all of them. */
  lemma {:induction false} RunCovers(dir: Direction, pts: seq<Pt>)
    requires Increasing(pts)
    ensures Covering(Fed(Empty(dir), pts), pts) && Fed(Empty(dir), pts).dir == dir
  {
    if pts == [] {
      assert UPSIDE_DOWN.OnSegs([]) == [];
    } else {
      var front, p := pts[..|pts| - 1], pts[|pts| - 1];
      assert front + [p] == pts;
      RunCovers(dir, front);
      AddKeepsCovering(Fed(Empty(dir), front), front, p);
    }
  }

  // --------------------------------------------------------------- the lines it reports

  /** `bound` is on the right side of `y` for an envelope of this direction. */
  predicate Bounds(dir: Direction, bound: real, y: real) {
    match dir
    case Above => y <= bound
    case Below => bound <= y
  }

  lemma {:induction false} UpperEdgeBounds(e: State, pts: seq<Pt>, i: nat, k: nat)
    requires IsUpper(e, pts) && i < |e.segs| && k < |pts|
    ensures pts[k].y <= On(e.segs[i], pts[k].x)
  {
    assert Covers(e.segs[i], pts);
  }

  lemma {:induction false} EdgeMoves(s: Seg, x: real)
    ensures On(UPSIDE_DOWN.OnSeg(s), x) == -On(s, x)
  {
    LineValueMoves(UPSIDE_DOWN, Line(s.m, s.c), x);
  }

  /** Any edge, extended for ever in both directions, bounds every covered point. */
  lemma {:induction false} EveryEdgeBounds(e: State, pts: seq<Pt>, i: nat, k: nat)
    requires Covering(e, pts) && i < |e.segs| && k < |pts|
    ensures Bounds(e.dir, On(e.segs[i], pts[k].x), pts[k].y)
  {
    hide IsUpper, On;
    if e.dir == Above {
      UpperEdgeBounds(e, pts, i, k);
    } else {
      var t := UPSIDE_DOWN;
      var s := e.segs[i];
      UpperEdgeBounds(t.OnState(e), Moved(t, pts), i, k);
      EdgeMoves(s, pts[k].x);
    }
  }

  lemma {:induction false} OnePointOnly(e: State, pts: seq<Pt>)
    requires Covering(e, pts) && e.segs == [] && pts != []
    ensures |pts| == 1 && e.initPt == pts[0]
  {
    assert UPSIDE_DOWN.OnSegs(e.segs) == [];
  }

  /** The line handed to the filter bounds every covered point, whichever edge it comes from;
      with a single point it is the level line through that point. */
  lemma {:induction false} EstimateBounds(e: State, pts: seq<Pt>, k: nat)
    requires Covering(e, pts) && k < |pts|
    requires e.segs == [] || e.longest < |e.segs|
    ensures Bounds(e.dir, e.GetLineEstimate().At(pts[k].x), pts[k].y)
  {
    hide Covering;
    if e.segs != [] {
      EveryEdgeBounds(e, pts, e.longest, k);
    } else {
      OnePointOnly(e, pts);
    }
  }

  // ------------------------------------------------------------ a linear clock in between

  /** The straight line `l` is on the right side of every measurement. */
  predicate Fits(dir: Direction, l: Line, pts: seq<Pt>) {
    forall k :: 0 <= k < |pts| ==> Bounds(dir, l.At(pts[k].x), pts[k].y)
  }

  lemma {:induction false} LineAboveUpperHull(e: State, pts: seq<Pt>, l: Line, x: real)
    requires IsUpper(e, pts) && InSpan(e.segs, x)
    requires forall k :: 0 <= k < |pts| ==> pts[k].y <= l.At(pts[k].x)
    ensures HullAt(e.segs, x) <= l.At(x)
  {
    LineIsConcave(l);
    hide Concave, UpperHull;
    assert Majorises(l.At, pts);
    LeastConcaveMajorant(e.segs, pts);
  }

  lemma {:induction false} LineIsConcave(l: Line)
    ensures Concave(l.At)
  {
    hide Line.At;
    forall a, t, b | a < t < b
      ensures l.At(t) * (b - a) >= l.At(a) * (b - t) + l.At(b) * (t - a)
    {
      LineChord(l, a, b, t);
    }
  }

  lemma {:induction false} LineChord(l: Line, a: real, b: real, x: real)
    ensures l.At(x) * (b - a) == l.At(a) * (b - x) + l.At(b) * (x - a)
  {
    var m, c := l.m, l.c;
    assert l.At(x) * (b - a) == m * x * b - m * x * a + c * b - c * a;
    assert l.At(a) * (b - x) == m * a * b - m * a * x + c * b - c * x;
    assert l.At(b) * (x - a) == m * b * x - m * b * a + c * x - c * a;
  }

  lemma {:induction false} HullMoves(segs: seq<Seg>, x: real)
    requires segs != []
    ensures HullAt(UPSIDE_DOWN.OnSegs(segs), x) == -HullAt(segs, x)
  {
    var t := UPSIDE_DOWN;
    EdgeMoves(segs[0], x);
    if |segs| > 1 {
      assert t.OnSegs(segs)[1..] == t.OnSegs(segs[1..]);
      HullMoves(segs[1..], x);
    }
  }

  /** A straight line that fits an envelope's measurements stays outside its hull. */
  lemma {:induction false} LineOutsideHull(e: State, pts: seq<Pt>, l: Line, x: real)
    requires Covering(e, pts) && InSpan(e.segs, x) && Fits(e.dir, l, pts)
    ensures Bounds(e.dir, l.At(x), HullAt(e.segs, x))
  {
    if e.dir == Above {
      LineAboveUpperHull(e, pts, l, x);
    } else {
      var t := UPSIDE_DOWN;
      HullMoves(e.segs, x);
      forall k | 0 <= k < |pts| ensures Moved(t, pts)[k].y <= t.OnLine(l).At(Moved(t, pts)[k].x) {
        LineValueMoves(t, l, pts[k].x);
      }
      LineValueMoves(t, l, x);
      LineAboveUpperHull(t.OnState(e), Moved(t, pts), t.OnLine(l), x);
    }
  }

  lemma {:induction false} SpanIsWholeRun(e: State, pts: seq<Pt>, x: real)
    requires Covering(e, pts) && |pts| > 1
    ensures InSpan(e.segs, x) <==> pts[0].x <= x <= pts[|pts| - 1].x
  {
    var t := UPSIDE_DOWN;
    if e.dir == Below {
      assert t.OnState(e).segs[0].p1 == t.OnPt(e.segs[0].p1);
    }
  }

  /** Over the covered span, every linear skew consistent with all lower and all upper
      measurements runs between the two hulls. */
  lemma {:induction false} SkewBetweenHulls(lower: seq<Pt>, upper: seq<Pt>, skew: Line, x: real)
    requires Increasing(lower) && Increasing(upper) && |lower| > 1 && |upper| > 1
    requires Fits(Above, skew, lower) && Fits(Below, skew, upper)
    requires lower[0].x <= x <= lower[|lower| - 1].x && upper[0].x <= x <= upper[|upper| - 1].x
    ensures var lo, up := Fed(Empty(Above), lower).segs, Fed(Empty(Below), upper).segs;
            lo != [] && up != [] && HullAt(lo, x) <= skew.At(x) <= HullAt(up, x)
  {
    RunCovers(Above, lower);
    RunCovers(Below, upper);
    var lo, up := Fed(Empty(Above), lower), Fed(Empty(Below), upper);
    hide Covering;
    SpanIsWholeRun(lo, lower, x);
    SpanIsWholeRun(up, upper, x);
    LineOutsideHull(lo, lower, skew, x);
    LineOutsideHull(up, upper, skew, x);
  }
}
