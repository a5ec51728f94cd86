/** The cached longest segment, and cropping. The index the envelope keeps is meant to name a
    segment of maximal length. It does from the moment the cached length has been set; but the
    very first segment does not set it, and a later merge can then take the index away from a
    longer segment. This module says exactly when. */
module LongestSegment {
  import opened Envelope
  import opened EnvelopeMotion
  import opened ConvexHull
  import opened EnvelopeRuns

  // ------------------------------------------------------------------- durations

  /** Segments each of which starts where the one before ends, later in time, whatever their slopes. */
  predicate Timed(segs: seq<Seg>) {
    && (forall i :: 0 <= i < |segs| ==> segs[i].p1.x < segs[i].p2.x)
    && (forall i :: 0 <= i < |segs| ==> segs[i].period == segs[i].p2.x - segs[i].p1.x)
    && (forall i, j :: 0 <= i && j == i + 1 < |segs| ==> segs[i].p2 == segs[j].p1)
  }

  function TotalPeriod(segs: seq<Seg>): real {
    if segs == [] then 0.0 else segs[0].period + TotalPeriod(segs[1..])
  }

  /** The segment lengths sum to the covered span. */
  lemma {:induction false} PeriodsSumToSpan(segs: seq<Seg>)
    requires Timed(segs) && segs != []
    ensures TotalPeriod(segs) == segs[|segs| - 1].p2.x - segs[0].p1.x
  {
    var rest := segs[1..];
    if rest != [] {
      assert segs[0].p2.x == segs[1].p1.x;
      assert forall i, j :: 0 <= i && j == i + 1 < |rest| ==> rest[i] == segs[i + 1] && rest[j] == segs[j + 1];
      PeriodsSumToSpan(rest);
    }
  }

  /** The input side of a state whose points came in strictly increasing order of time. */
  predicate Timeline(e: State) {
    && Timed(e.segs)
    && (e.segs != [] ==> e.haveInit && e.segs[|e.segs| - 1].p2 == e.initPt)
  }

  // --------------------------------------------------------------------- the cache

  predicate Indexed(e: State) {
    if e.segs == [] then e.longest == 0 else e.longest < |e.segs|
  }

  /** The index names a segment no other is longer than. */
  predicate Exact(e: State) {
    && Indexed(e)
    && forall i :: 0 <= i < |e.segs| ==> e.segs[i].period <= e.segs[e.longest].period
  }

  predicate LenCurrent(e: State) {
    && Indexed(e)
    && e.segs != [] && e.longestLen == e.segs[e.longest].period
  }

  /** The cached length has never been set; the index is still the initial 0. */
  predicate LenUnset(e: State) {
    e.longestLen == 0.0 && e.longest == 0
  }

  predicate Cached(e: State) {
    LenCurrent(e) || LenUnset(e)
  }

  /** Appending always finds the index in range, so its `else` branch, the one that would set
      the length for a first segment, never runs. */
  lemma {:induction false} AppendElseIsDead(e: State, seg: Seg)
    requires Indexed(e)
    ensures e.(segs := e.segs + [seg]).GetLongestSeg().Some?
  {
  }

  lemma {:induction false} AppendedCache(e: State, seg: Seg)
    requires Timed(e.segs + [seg]) && Indexed(e) && Cached(e)
    ensures Timed(Appended(e, seg).segs) && Indexed(Appended(e, seg)) && Cached(Appended(e, seg))
    ensures Exact(e) ==> Exact(Appended(e, seg))
    ensures LenCurrent(Appended(e, seg)) <==>
              LenCurrent(e) || (e.segs != [] && e.segs[0].period < seg.period)
  {
    assert (e.segs + [seg])[|e.segs|] == seg;
  }

  /** `b` is `a` with some of its last segments merged into one. */
  predicate Folded(a: seq<Seg>, b: seq<Seg>) {
    && Timed(b) && |b| <= |a|
    && (a != [] ==> b != [] && b[|b| - 1].p2 == a[|a| - 1].p2)
    && (forall i :: 0 <= i < |b| - 1 ==> b[i] == a[i])
  }

  lemma {:induction false} MergedShape(e: State) returns (s: Seg)
    requires MergedLast(e).1
    ensures var n := |e.segs|;
            && n >= 2 && MergedLast(e).0.segs == e.segs[..n - 2] + [s]
            && s.p1 == e.segs[n - 2].p1 && s.p2 == e.segs[n - 1].p2
            && s.period == e.segs[n - 2].period + e.segs[n - 1].period
  {
    var n := |e.segs|;
    s := MakeSeg(e.segs[n - 2].p1, e.segs[n - 1].p2).value.(period := e.segs[n - 2].period + e.segs[n - 1].period);
  }

  lemma {:induction false} MergedTimed(e: State)
    requires Timed(e.segs) && MergedLast(e).1
    ensures var n, e' := |e.segs|, MergedLast(e).0;
            && n >= 2 && |e'.segs| == n - 1
            && e'.segs[n - 2].p1 == e.segs[n - 2].p1
            && e'.segs[n - 2].period == e.segs[n - 2].period + e.segs[n - 1].period
    ensures Folded(e.segs, MergedLast(e).0.segs)
  {
    var s := MergedShape(e);
    hide MergedLast;
    var n, segs := |e.segs|, e.segs[..|e.segs| - 2] + [s];
    assert e.segs[n - 2].p2.x == e.segs[n - 1].p1.x;
    forall i, j | 0 <= i && j == i + 1 < n - 1 ensures segs[i].p2 == segs[j].p1 {
      assert e.segs[i].p2 == e.segs[j].p1;
    }
  }

  /** On a timeline, merging only stops for the slopes. */
  lemma {:induction false} MergeRefused(e: State)
    requires Timed(e.segs) && !MergedLast(e).1
    ensures MergedLast(e).0 == e
  {
    var n := |e.segs|;
    if n >= 2 {
      assert e.segs[n - 2].p2.x == e.segs[n - 1].p1.x;
    }
  }

  /** With the length set, merging keeps the index exact; unset, it is taken by the merged pair. */
  lemma {:induction false} MergedCache(e: State)
    requires Timed(e.segs) && Indexed(e) && Cached(e) && MergedLast(e).1
    ensures var e' := MergedLast(e).0;
            && Indexed(e') && LenCurrent(e')
            && (LenCurrent(e) && Exact(e) ==> Exact(e'))
            && (LenUnset(e) || e.longest >= |e.segs| - 1 ==> e'.longest == |e'.segs| - 1)
  {
    MergedTimed(e);
  }

  lemma {:induction false} MergedAllTimed(e: State)
    requires Timed(e.segs)
    ensures var e' := MergedAll(e);
            Folded(e.segs, e'.segs) && (|e'.segs| == |e.segs| ==> e' == e)
    decreases |e.segs|
  {
    if |e.segs| > 1 {
      hide MergedLast, Timed;
      if MergedLast(e).1 {
        MergedTimed(e);
        assert Timed(MergedLast(e).0.segs);
        MergedAllTimed(MergedLast(e).0);
      } else {
        MergeRefused(e);
      }
    }
  }

  lemma {:induction false} MergedAllCache(e: State)
    requires Timed(e.segs) && Indexed(e) && Cached(e)
    ensures var e' := MergedAll(e);
            && Indexed(e') && Cached(e')
            && (LenCurrent(e) ==> LenCurrent(e'))
            && (LenCurrent(e) && Exact(e) ==> Exact(e'))
            && (LenCurrent(e) && e.longest >= |e.segs| - 1 ==> e'.longest == |e'.segs| - 1)
            && (LenUnset(e) && e' != e ==> LenCurrent(e') && e'.longest == |e'.segs| - 1)
    decreases |e.segs|
  {
    hide MergedLast;
    if |e.segs| > 1 {
      if MergedLast(e).1 {
        MergedTimed(e);
        MergedCache(e);
        MergedAllCache(MergedLast(e).0);
      } else {
        MergeRefused(e);
      }
    }
  }

  // ----------------------------------------------------------------- one more point

  predicate Later(e: State, x: real) {
    e.haveInit ==> e.initPt.x < x
  }

  lemma {:induction false} PointKeepsTimeline(e: State, x: real, y: real)
    requires Timeline(e) && Later(e, x)
    requires !e.haveInit ==> e.segs == []
    ensures WithPoint(e, x, y).1 && Timeline(WithPoint(e, x, y).0)
    ensures WithPoint(e, x, y).0.haveInit && WithPoint(e, x, y).0.initPt == Pt(x, y)
    ensures e.haveInit ==>
              var s := MakeSeg(e.initPt, Pt(x, y)).value;
              && MakeSeg(e.initPt, Pt(x, y)).Some? && Timed(e.segs + [s])
              && s.period == x - e.initPt.x && s.p2 == Pt(x, y)
  {
    hide MergedAll, Appended;
    if e.haveInit {
      var s := MakeSeg(e.initPt, Pt(x, y)).value;
      TimedSnoc(e.segs, s);
      AppendKeeps(e, s);
      MergedAllTimed(Appended(e, s));
      MergedAllKeeps(Appended(e, s));
    }
  }

  lemma TimedSnoc(segs: seq<Seg>, s: Seg)
    requires Timed(segs) && Timed([s]) && (segs != [] ==> segs[|segs| - 1].p2 == s.p1)
    ensures Timed(segs + [s])
  {
    var after := segs + [s];
    forall i, j | 0 <= i && j == i + 1 < |after| ensures after[i].p2 == after[j].p1 {
      if j < |segs| {
        assert segs[i].p2 == segs[j].p1;
      }
    }
  }

  /** How many segments stay in front of the edge that ends at a new point: going back from the
      last, those that the edge from their end to the point can be merged with go. */
  function Kept(dir: Direction, segs: seq<Seg>, p: Pt): (k: nat)
    ensures k <= |segs|
  {
    if segs == [] then 0
    else
      var last := segs[|segs| - 1];
      match MakeSeg(last.p2, p)
      case None => |segs|
      case Some(s) => if MayMerge(dir, last, s) then Kept(dir, segs[..|segs| - 1], p) else |segs|
  }

  /** A point that would make a merge take the index from the longer first segment: the length is
      still unset, the time since the last point is not longer than the first segment, something
      would be merged but not the first segment, and from the start of what would be merged to the
      point is shorter than it. */
  predicate Steals(e: State, x: real, y: real) {
    && e.segs != [] && LenUnset(e)
    && x - e.initPt.x <= e.segs[0].period
    && var k := Kept(e.dir, e.segs, Pt(x, y));
       1 <= k < |e.segs| && x - e.segs[k].p1.x < e.segs[0].period
  }

  lemma MergedEdge(e: State, front: seq<Seg>, s: Seg) returns (t: Seg)
    requires e.segs == front + [s] && MergedLast(e).1
    ensures front != [] && t.p1 == front[|front| - 1].p1 && t.p2 == s.p2
    ensures MergedLast(e).0.segs == front[..|front| - 1] + [t] && MergedLast(e).0.dir == e.dir
    ensures MakeSeg(t.p1, t.p2).Some? && MakeSeg(t.p1, t.p2).value.m == t.m
  {
    var n := |front| - 1;
    t := MakeSeg(front[n].p1, s.p2).value.(period := front[n].period + s.period);
    assert e.segs[..|e.segs| - 2] == front[..n];
  }

  lemma KeptStep(dir: Direction, front: seq<Seg>, s: Seg)
    requires front != [] && front[|front| - 1].p2 == s.p1
    requires MakeSeg(s.p1, s.p2).Some? && MakeSeg(s.p1, s.p2).value.m == s.m
    ensures Kept(dir, front, s.p2) ==
            if MayMerge(dir, front[|front| - 1], s) then Kept(dir, front[..|front| - 1], s.p2) else |front|
  {
    hide MakeSeg;
  }

  /** The newest two segments are merged exactly when they may be, and then merging goes on. */
  lemma MergesOn(e: State, front: seq<Seg>, s: Seg)
    requires e.segs == front + [s] && front != [] && Timed(e.segs)
    ensures front[|front| - 1].p2 == s.p1
    ensures MergedLast(e).1 <==> MayMerge(e.dir, front[|front| - 1], s)
    ensures MergedAll(e) == if MergedLast(e).1 then MergedAll(MergedLast(e).0) else e
  {
    hide MergedAll, MayMerge;
    var n := |front| - 1;
    assert e.segs[n] == front[n] && e.segs[n + 1] == s;
    if !MergedLast(e).1 {
      MergeRefused(e);
    }
    MergedAllUnfolds(e);
  }

  lemma MergedAllUnfolds(e: State)
    requires |e.segs| > 1
    ensures MergedAll(e) == if MergedLast(e).1 then MergedAll(MergedLast(e).0) else MergedLast(e).0
  {
    hide MergedLast;
  }

  /** What merging from the back leaves of the segments in front of the newest. */
  lemma {:induction false} MergedAllKept(e: State, front: seq<Seg>, s: Seg)
    requires e.segs == front + [s] && Timed(e.segs)
    requires MakeSeg(s.p1, s.p2).Some? && MakeSeg(s.p1, s.p2).value.m == s.m
    ensures var k, after := Kept(e.dir, front, s.p2), MergedAll(e).segs;
            |after| == k + 1 && after[k].p1 == (if k < |front| then front[k].p1 else s.p1)
    decreases |front|
  {
    if front == [] {
    } else {
      var n := |front| - 1;
      hide MakeSeg, Timed, Kept, MergedLast, MergedAll, MayMerge;
      MergesOn(e, front, s);
      KeptStep(e.dir, front, s);
      if MergedLast(e).1 {
        var t := MergedEdge(e, front, s);
        MergedTimed(e);
        MergedAllKept(MergedLast(e).0, front[..n], t);
      }
    }
  }

  lemma {:induction false} PointIsMerging(e: State, x: real, y: real) returns (s: Seg)
    requires Timeline(e) && Later(e, x) && e.haveInit
    ensures Timed(e.segs + [s]) && s.period == x - e.initPt.x && s.p2 == Pt(x, y)
    ensures MakeSeg(s.p1, s.p2) == Some(s)
    ensures var e', merged := WithPoint(e, x, y).0, MergedAll(Appended(e, s));
            e'.segs == merged.segs && e'.longest == merged.longest && e'.longestLen == merged.longestLen
  {
    PointKeepsTimeline(e, x, y);
    s := MakeSeg(e.initPt, Pt(x, y)).value;
  }

  /** From an exact cache, the next point leaves an exact cache if and only if it does not steal. */
  lemma {:induction false} ExactStep(e: State, x: real, y: real)
    requires Timeline(e) && Later(e, x) && Exact(e) && Cached(e)
    requires !e.haveInit ==> e.segs == []
    ensures var e' := WithPoint(e, x, y).0;
            && Indexed(e') && Cached(e') && (Exact(e') <==> !Steals(e, x, y))
            && (LenCurrent(e) ==> LenCurrent(e') && Exact(e'))
  {
    if e.haveInit {
      var s := PointIsMerging(e, x, y);
      AppendKeeps(e, s);
      AppendedCache(e, s);
      MergedAllCache(Appended(e, s));
      hide WithPoint, MergedAll, Appended, Timed, Steals, MakeSeg;
      ExactAfterMerging(e, s, x, y);
    }
  }

  lemma {:induction false} ExactAfterMerging(e: State, s: Seg, x: real, y: real)
    requires Timed(e.segs + [s]) && Exact(e) && Cached(e)
    requires s.period == x - e.initPt.x && s.p2 == Pt(x, y) && MakeSeg(s.p1, s.p2) == Some(s)
    ensures Exact(MergedAll(Appended(e, s))) <==> !Steals(e, x, y)
  {
    var e1 := Appended(e, s);
    AppendKeeps(e, s);
    AppendedCache(e, s);
    MergedAllTimed(e1);
    MergedAllCache(e1);
    MergedAllKept(e1, e.segs, s);
    LengthAfterAppend(e, s);
    hide MergedAll, Appended, Cached, LenCurrent, Exact, Kept, MakeSeg;
    if !LenCurrent(e1) && MergedAll(e1) != e1 {
      MergedIsLast(e, s, MergedAll(e1), x);
    }
  }

  lemma {:induction false} LengthAfterAppend(e: State, s: Seg)
    requires Timed(e.segs + [s]) && Exact(e) && Cached(e)
    ensures LenCurrent(Appended(e, s)) ==>
              e.segs == [] || !LenUnset(e) || e.segs[0].period < s.period
    ensures !LenCurrent(Appended(e, s)) ==> LenUnset(e) && LenUnset(Appended(e, s))
    ensures Appended(e, s).segs == e.segs + [s]
    ensures Exact(Appended(e, s))
  {
    AppendedCache(e, s);
    assert e.segs != [] ==> (e.segs + [s])[0] == e.segs[0];
  }

  /** After a merge with the length unset the index names the merged edge, right or wrong. */
  lemma {:induction false} MergedIsLast(e: State, s: Seg, e': State, x: real)
    requires Exact(e) && LenUnset(e) && s.p2.x == x
    requires Folded(e.segs + [s], e'.segs) && |e'.segs| <= |e.segs|
    requires Indexed(e') && e'.longest == |e'.segs| - 1
    ensures Exact(e') <==>
              !(1 < |e'.segs| && x - e'.segs[|e'.segs| - 1].p1.x < e.segs[0].period)
  {
    var n := |e'.segs|;
    assert forall i :: 0 <= i < n - 1 ==> e'.segs[i] == (e.segs + [s])[i] == e.segs[i];
  }

  // ------------------------------------------------------------------------ whole runs

  lemma {:induction false} RunTimeline(dir: Direction, pts: seq<Pt>)
    requires Increasing(pts)
    ensures var e := Fed(Empty(dir), pts);
            && Timeline(e) && e.haveInit == (pts != [])
            && (pts != [] ==> e.initPt == pts[|pts| - 1])
            && (!e.haveInit ==> e.segs == [])
    decreases |pts|
  {
    if pts != [] {
      var front, p := pts[..|pts| - 1], pts[|pts| - 1];
      RunTimeline(dir, front);
      PointKeepsTimeline(Fed(Empty(dir), front), p.x, p.y);
    }
  }

  /** The cache is exact after every measurement of the run. */
  predicate ExactThroughout(dir: Direction, pts: seq<Pt>) {
    && Exact(Fed(Empty(dir), pts))
    && (pts != [] ==> ExactThroughout(dir, pts[..|pts| - 1]))
  }

  predicate NothingSteals(dir: Direction, pts: seq<Pt>) {
    pts != [] ==>
      var front, p := pts[..|pts| - 1], pts[|pts| - 1];
      NothingSteals(dir, front) && !Steals(Fed(Empty(dir), front), p.x, p.y)
  }

  /** Over a strictly increasing run the cache names a longest segment at every moment if and
      only if no point steals the index. */
  lemma {:induction false} ExactRuns(dir: Direction, pts: seq<Pt>)
    requires Increasing(pts)
    ensures ExactThroughout(dir, pts) <==> NothingSteals(dir, pts)
    decreases |pts|
  {
    if pts != [] {
      var front, p := pts[..|pts| - 1], pts[|pts| - 1];
      var e := Fed(Empty(dir), front);
      ExactRuns(dir, front);
      RunTimeline(dir, front);
      RunCached(dir, front);
      hide Steals, WithPoint;
      if ExactThroughout(dir, front) {
        assert Exact(e);
        assert Later(e, p.x);
        ExactStep(e, p.x, p.y);
      }
    }
  }

  lemma {:induction false} CacheStep(e: State, x: real, y: real)
    requires Timeline(e) && Later(e, x) && Indexed(e) && Cached(e)
    requires !e.haveInit ==> e.segs == []
    ensures Indexed(WithPoint(e, x, y).0) && Cached(WithPoint(e, x, y).0)
  {
    if e.haveInit {
      var s := PointIsMerging(e, x, y);
      AppendKeeps(e, s);
      AppendedCache(e, s);
      MergedAllCache(Appended(e, s));
      hide WithPoint, MergedAll, Appended, Timed;
    }
  }

  lemma {:induction false} RunCached(dir: Direction, pts: seq<Pt>)
    requires Increasing(pts)
    ensures Indexed(Fed(Empty(dir), pts)) && Cached(Fed(Empty(dir), pts))
    decreases |pts|
  {
    if pts != [] {
      var front, p := pts[..|pts| - 1], pts[|pts| - 1];
      RunCached(dir, front);
      RunTimeline(dir, front);
      CacheStep(Fed(Empty(dir), front), p.x, p.y);
    }
  }

  /** Right or wrong about the longest, the line an envelope reports after a strictly increasing
      run bounds every measurement of that run. */
  lemma {:induction false} RunEstimateBounds(dir: Direction, pts: seq<Pt>, k: nat)
    requires Increasing(pts) && k < |pts|
    ensures Bounds(dir, Fed(Empty(dir), pts).GetLineEstimate().At(pts[k].x), pts[k].y)
  {
    RunCovers(dir, pts);
    RunCached(dir, pts);
    EstimateBounds(Fed(Empty(dir), pts), pts, k);
  }

  /** The lengths of the segments held after a run sum to the time it took. */
  lemma {:induction false} RunPeriodsSum(dir: Direction, pts: seq<Pt>)
    requires Increasing(pts) && |pts| > 1
    ensures TotalPeriod(Fed(Empty(dir), pts).segs) == pts[|pts| - 1].x - pts[0].x
  {
    var e := Fed(Empty(dir), pts);
    RunCovers(dir, pts);
    RunTimeline(dir, pts);
    SpanIsWholeRun(e, pts, pts[0].x);
    SpanIsWholeRun(e, pts, e.segs[0].p1.x);
    PeriodsSumToSpan(e.segs);
    SpanNotEmpty(e.segs);
    SpanIsWholeRun(e, pts, pts[|pts| - 1].x);
    SpanIsWholeRun(e, pts, e.segs[|e.segs| - 1].p2.x);
  }

  lemma {:induction false} SpanNotEmpty(segs: seq<Seg>)
    requires Timed(segs) && segs != []
    ensures segs[0].p1.x < segs[|segs| - 1].p2.x
  {
    if |segs| > 1 {
      var rest := segs[1..];
      assert forall i, j :: 0 <= i && j == i + 1 < |rest| ==> rest[i] == segs[i + 1] && rest[j] == segs[j + 1];
      SpanNotEmpty(rest);
      assert segs[0].p2.x == segs[1].p1.x;
    }
  }

  // ---------------------------------------------------------------- a run that goes wrong

  const STOLEN: seq<Pt> := [Pt(0.0, 0.0), Pt(10.0, 10.0), Pt(11.0, 8.0), Pt(12.0, 7.0)]

  const EDGE1 := Seg(10.0, 1.0, 0.0, Pt(0.0, 0.0), Pt(10.0, 10.0))
  const EDGE2 := Seg(1.0, -2.0, 30.0, Pt(10.0, 10.0), Pt(11.0, 8.0))
  const EDGE3 := Seg(1.0, -1.0, 19.0, Pt(11.0, 8.0), Pt(12.0, 7.0))
  const CHORD := Seg(2.0, -1.5, 25.0, Pt(10.0, 10.0), Pt(12.0, 7.0))

  lemma {:induction false} FedSnoc(e: State, pts: seq<Pt>, p: Pt)
    ensures Fed(e, pts + [p]) == WithPoint(Fed(e, pts), p.x, p.y).0
  {
    assert (pts + [p])[..|pts|] == pts;
  }

  lemma {:induction false} FirstPoints()
    ensures var e := WithPoint(Empty(Above), 0.0, 0.0).0;
            WithPoint(e, 10.0, 10.0).0 == State(Above, [EDGE1], true, Pt(10.0, 10.0), 0, 0.0, 1)
  {
    assert MakeSeg(Pt(0.0, 0.0), Pt(10.0, 10.0)) == Some(EDGE1);
    hide MergedLast, MakeSeg;
    var e := State(Above, [], true, Pt(0.0, 0.0), 0, 0.0, 0);
    assert WithPoint(Empty(Above), 0.0, 0.0).0 == e;
    var a := State(Above, [EDGE1], true, Pt(0.0, 0.0), 0, 0.0, 0);
    assert Appended(e, EDGE1) == a;
    assert MergedAll(a) == a;
  }

  lemma {:induction false} FirstEdge()
    ensures Fed(Empty(Above), [Pt(0.0, 0.0)] + [Pt(10.0, 10.0)]) ==
            State(Above, [EDGE1], true, Pt(10.0, 10.0), 0, 0.0, 1)
  {
    FirstPoints();
    hide WithPoint;
    FedSnoc(Empty(Above), [], Pt(0.0, 0.0));
    assert [] + [Pt(0.0, 0.0)] == [Pt(0.0, 0.0)];
    FedSnoc(Empty(Above), [Pt(0.0, 0.0)], Pt(10.0, 10.0));
  }

  lemma {:induction false} SecondEdge()
    ensures var e := State(Above, [EDGE1], true, Pt(10.0, 10.0), 0, 0.0, 1);
            WithPoint(e, 11.0, 8.0).0 == State(Above, [EDGE1, EDGE2], true, Pt(11.0, 8.0), 0, 0.0, 2)
  {
    assert MakeSeg(Pt(10.0, 10.0), Pt(11.0, 8.0)) == Some(EDGE2);
    var a := State(Above, [EDGE1, EDGE2], true, Pt(10.0, 10.0), 0, 0.0, 1);
    assert MergedLast(a) == (a, false);
  }

  lemma {:induction false} ThirdEdge()
    ensures var e := State(Above, [EDGE1, EDGE2], true, Pt(11.0, 8.0), 0, 0.0, 2);
            WithPoint(e, 12.0, 7.0).0 == State(Above, [EDGE1, CHORD], true, Pt(12.0, 7.0), 1, 2.0, 3)
  {
    assert MakeSeg(Pt(11.0, 8.0), Pt(12.0, 7.0)) == Some(EDGE3);
    var a := State(Above, [EDGE1, EDGE2, EDGE3], true, Pt(11.0, 8.0), 0, 0.0, 2);
    var m := State(Above, [EDGE1, CHORD], true, Pt(11.0, 8.0), 1, 2.0, 2);
    assert MergedLast(a) == (m, true) by {
      assert MakeSeg(EDGE2.p1, EDGE3.p2) == Some(CHORD);
      assert a.segs[..1] + [CHORD] == m.segs;
    }
    assert MergedLast(m) == (m, false);
    var e := State(Above, [EDGE1, EDGE2], true, Pt(11.0, 8.0), 0, 0.0, 2);
    assert Appended(e, EDGE3) == a;
    hide MergedLast, MakeSeg;
    assert MergedAll(m) == m;
    assert MergedAll(a) == m;
  }

  /** A strictly increasing run of four points after which the index names a segment of length 2
      while one of length 10 is still held. */
  lemma {:induction false} IndexCanBeStolen()
    ensures Increasing(STOLEN)
    ensures var e := Fed(Empty(Above), STOLEN);
            && |e.segs| == 2 && e.longest == 1
            && e.segs[0].period == 10.0 && e.segs[1].period == 2.0
    ensures !ExactThroughout(Above, STOLEN)
  {
    FirstEdge();
    var first := [Pt(0.0, 0.0)];
    hide WithPoint, Fed, MakeSeg;
    FedSnoc(Empty(Above), first + [Pt(10.0, 10.0)], Pt(11.0, 8.0));
    SecondEdge();
    FedSnoc(Empty(Above), first + [Pt(10.0, 10.0)] + [Pt(11.0, 8.0)], Pt(12.0, 7.0));
    ThirdEdge();
    assert STOLEN == first + [Pt(10.0, 10.0)] + [Pt(11.0, 8.0)] + [Pt(12.0, 7.0)];
    var e := Fed(Empty(Above), STOLEN);
    assert e.segs[0].period > e.segs[e.longest].period;
  }

  // -------------------------------------------------------------------------- cropping

  lemma {:induction false} UpperSuffix(e: State, pts: seq<Pt>, n: nat) returns (k: nat)
    requires IsUpper(e, pts) && n < |e.segs|
    ensures k < |pts| && pts[k] == e.segs[n].p1
    ensures IsUpper(e.(segs := e.segs[n..], longest := 0), pts[k..])
  {
    hide UpperHull, Increasing;
    k := VertexAt(e.segs, pts, n);
    HullSuffix(e.segs, pts, n, k);
    assert pts[k..][|pts[k..]| - 1] == pts[|pts| - 1];
  }

  lemma {:induction false} VertexAt(segs: seq<Seg>, pts: seq<Pt>, n: nat) returns (k: nat)
    requires UpperHull(segs, pts) && n < |segs|
    ensures k < |pts| && pts[k] == segs[n].p1
  {
    hide Chain, SlopesFall, Covers;
    assert segs[n].p1 in pts;
    k :| 0 <= k < |pts| && pts[k] == segs[n].p1;
  }

  lemma {:induction false} HullSuffix(segs: seq<Seg>, pts: seq<Pt>, n: nat, k: nat)
    requires UpperHull(segs, pts) && Increasing(pts)
    requires n < |segs| && k < |pts| && pts[k] == segs[n].p1
    ensures UpperHull(segs[n..], pts[k..]) && Increasing(pts[k..]) && |pts[k..]| > 1
  {
    hide Chain, SlopesFall, VerticesIn, Covers, Increasing;
    ChainSuffix(segs, n);
    LaterVertices(segs, pts, n, k);
    SpanOfSuffix(segs, pts, n, k);
    var segs', rest := segs[n..], pts[k..];
    assert segs'[0] == segs[n] && rest[0] == pts[k];
    assert segs'[|segs'| - 1] == segs[|segs| - 1] && rest[|rest| - 1] == pts[|pts| - 1];
  }

  lemma {:induction false} ChainSuffix(segs: seq<Seg>, n: nat)
    requires Chain(segs) && SlopesFall(segs) && n <= |segs|
    ensures Chain(segs[n..]) && SlopesFall(segs[n..])
  {
    var rest := segs[n..];
    forall i, j | 0 <= i && j == i + 1 < |rest| ensures rest[i].p2 == rest[j].p1 && rest[i].m > rest[j].m {
      assert segs[n + i].p2 == segs[n + j].p1 && segs[n + i].m > segs[n + j].m;
    }
  }

  lemma {:induction false} StartsIncrease(segs: seq<Seg>, n: nat, i: nat)
    requires Chain(segs) && n <= i < |segs|
    ensures segs[n].p1.x <= segs[i].p1.x < segs[i].p2.x
    decreases i - n
  {
    if n < i {
      assert segs[i - 1].p2 == segs[i].p1;
      StartsIncrease(segs, n, i - 1);
    }
  }

  lemma {:induction false} LaterVertices(segs: seq<Seg>, pts: seq<Pt>, n: nat, k: nat)
    requires Chain(segs) && VerticesIn(segs, pts) && Increasing(pts)
    requires n < |segs| && k < |pts| && pts[k] == segs[n].p1
    ensures VerticesIn(segs[n..], pts[k..])
  {
    forall i | 0 <= i < |segs[n..]| ensures segs[n..][i].p1 in pts[k..] && segs[n..][i].p2 in pts[k..] {
      var s := segs[n + i];
      StartsIncrease(segs, n, n + i);
      assert s.p1 in pts && s.p2 in pts;
      var a :| 0 <= a < |pts| && pts[a] == s.p1;
      var b :| 0 <= b < |pts| && pts[b] == s.p2;
      assert a >= k && b >= k;
      assert pts[k..][a - k] == s.p1 && pts[k..][b - k] == s.p2;
    }
  }

  lemma {:induction false} SpanOfSuffix(segs: seq<Seg>, pts: seq<Pt>, n: nat, k: nat)
    requires UpperHull(segs, pts) && Increasing(pts)
    requires n < |segs| && k < |pts| && pts[k] == segs[n].p1
    ensures |pts[k..]| > 1
    ensures forall i :: 0 <= i < |segs[n..]| ==> Covers(segs[n..][i], pts[k..])
    ensures Increasing(pts[k..])
  {
    StartsIncrease(segs, n, |segs| - 1);
    forall i | 0 <= i < |segs[n..]| ensures Covers(segs[n..][i], pts[k..]) {
      assert Covers(segs[n + i], pts);
    }
  }

  /** Cropping keeps a hull, over the points from the start of the longest segment on. */
  lemma {:induction false} CropKeepsCovering(e: State, pts: seq<Pt>) returns (k: nat)
    requires Covering(e, pts) && Indexed(e) && e.segs != []
    ensures k < |pts| && pts[k] == e.segs[e.longest].p1
    ensures Covering(Cropped(e), pts[k..]) && Cropped(e).dir == e.dir
  {
    hide IsUpper, Cropped;
    CroppedIsSuffix(e);
    if e.dir == Above {
      k := UpperSuffix(e, pts, e.longest);
    } else {
      var t := UPSIDE_DOWN;
      k := UpperSuffix(t.OnState(e), Moved(t, pts), e.longest);
      assert Moved(t, pts)[k..] == Moved(t, pts[k..]);
      assert Moved(t, pts)[k] == t.OnPt(pts[k]);
    }
  }

  lemma {:induction false} CroppedIsSuffix(e: State)
    requires e.longest < |e.segs|
    ensures Cropped(e) == e.(segs := e.segs[e.longest..], longest := 0)
    ensures var f := UPSIDE_DOWN.OnState(e);
            UPSIDE_DOWN.OnState(Cropped(e)) == f.(segs := f.segs[e.longest..], longest := 0)
  {
    var t := UPSIDE_DOWN;
    assert t.OnSegs(e.segs)[e.longest..] == t.OnSegs(e.segs[e.longest..]);
  }

  /** Cropping never costs the cache: what the index names afterwards is what it named before. */
  lemma {:induction false} CropKeepsCache(e: State)
    requires Indexed(e)
    ensures Indexed(Cropped(e)) && (Exact(e) ==> Exact(Cropped(e)))
    ensures e.segs != [] ==> Cropped(e).segs[Cropped(e).longest] == e.segs[e.longest]
    ensures Cached(e) ==> Cached(Cropped(e))
  {
    assert e.segs[0..] == e.segs;
  }

  lemma {:induction false} CropKeepsTimeline(e: State)
    requires Timeline(e) && Indexed(e)
    ensures Timeline(Cropped(e))
  {
    var n, segs := InFront(e), e.segs[InFront(e)..];
    forall i, j | 0 <= i && j == i + 1 < |segs| ensures segs[i].p2.x == segs[j].p1.x {
      assert e.segs[n + i].p2.x == e.segs[n + j].p1.x;
    }
  }
}
