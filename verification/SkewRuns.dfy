/** Whole runs of the skew filter: the two envelopes stay in lockstep, moving the clocks moves
    every answer along, the conditioned filter is off by twice its offset, and the envelopes
    go on bounding the measurements they cover. */
module SkewRuns {
  import opened Envelope
  import opened EnvelopeMotion
  import opened ConvexHull
  import opened EnvelopeRuns
  import opened LongestSegment
  import opened SkewFilter

  /** Request, server and reply time of one exchange with the server. */
  datatype Sample = Sample(rq: real, tx: real, rx: real)

  /** Every skew returned, in order, and the filter at the end unless a crop never came back. */
  datatype Run = Run(outs: seq<real>, final: Option<Filter>)

  function Ran(f: Filter, ss: seq<Sample>): Run
    decreases |ss|
  {
    if ss == [] then Run([], Some(f))
    else
      match Updated(f, ss[0].rq, ss[0].tx, ss[0].rx)
      case Hangs => Run([], None)
      case Returns(f', skew, _) =>
        var rest := Ran(f', ss[1..]);
        Run([skew] + rest.outs, rest.final)
  }

  lemma UpdateCounts(f: Filter, rq: real, tx: real, rx: real)
    requires Updated(f, rq, tx, rx).Returns?
    ensures Updated(f, rq, tx, rx).filter.measCount == f.measCount + 1
  {
    hide Measured, Estimate, SmoothingFilter, CropsForEver, MaybeCropped;
  }

  // ----------------------------------------------------------------------- lockstep

  predicate Sound(e: State) {
    !e.haveInit ==> e.segs == [] && e.measCount == 0
  }

  /** The two envelopes have seen the same times. */
  predicate InStep(f: Filter) {
    && f.lower.dir == Above && f.upper.dir == Below
    && f.lower.measCount == f.upper.measCount
    && f.lower.haveInit == f.upper.haveInit
    && f.lower.initPt.x == f.upper.initPt.x
    && Sound(f.lower) && Sound(f.upper)
  }

  /** What of an envelope a new point changes does not depend on the height of the point. */
  lemma {:induction false} MeasuredInput(e: State, x: real, y: real)
    requires Sound(e)
    ensures var e' := Measured(e, x, y);
            && Sound(e') && e'.dir == e.dir
            && (if e.haveInit && e.initPt.x == x then e' == Empty(e.dir)
                else e'.haveInit && e'.initPt == Pt(x, y) && e'.measCount == if e.haveInit then e.measCount + 1 else 0)
  {
    if e.haveInit && e.initPt.x != x {
      var s := MakeSeg(e.initPt, Pt(x, y)).value;
      AppendKeeps(e, s);
      MergedAllKeeps(Appended(e, s));
      hide MergedAll, Appended;
    }
  }

  lemma {:induction false} UpdateInStep(f: Filter, rq: real, tx: real, rx: real)
    requires InStep(f) && Updated(f, rq, tx, rx).Returns?
    ensures InStep(Updated(f, rq, tx, rx).filter)
    ensures InStep(f.(lower := Measured(f.lower, tx, tx - rx), upper := Measured(f.upper, tx, tx - rq)))
  {
    hide Measured, Estimate, CropsForEver, SmoothingFilter, State.GetLineEstimate, Line.At;
    MeasuredInput(f.lower, tx, tx - rx);
    MeasuredInput(f.upper, tx, tx - rq);
  }

  lemma InStepStable(f: Filter)
    requires InStep(f)
    ensures f.upper.IsStable() <==> f.lower.IsStable()
  {
  }

  /** In every run of the filter, whatever its inputs, both envelopes hold the same number of
      measurements, so "only the upper bound is stable" never happens. */
  lemma {:induction false} RunInStep(f: Filter, ss: seq<Sample>)
    requires InStep(f) && Ran(f, ss).final.Some?
    ensures InStep(Ran(f, ss).final.value)
    ensures Ran(f, ss).final.value.upper.IsStable() ==> Ran(f, ss).final.value.lower.IsStable()
    decreases |ss|
  {
    hide Updated, InStep;
    InStepStable(f);
    if ss != [] {
      UpdateInStep(f, ss[0].rq, ss[0].tx, ss[0].rx);
      RunInStep(Updated(f, ss[0].rq, ss[0].tx, ss[0].rx).filter, ss[1..]);
    }
  }

  /** The branch itself: at the point in `Update` where stability is asked for, the answer of
      the upper envelope is never yes when that of the lower is no. */
  lemma {:induction false} UpperOnlyIsDead(ss: seq<Sample>, next: Sample)
    requires Ran(FRESH, ss).final.Some?
    ensures var f := Ran(FRESH, ss).final.value;
            Measured(f.upper, next.tx, next.tx - next.rq).IsStable() <==>
            Measured(f.lower, next.tx, next.tx - next.rx).IsStable()
  {
    hide Measured, Ran;
    RunInStep(FRESH, ss);
    var f := Ran(FRESH, ss).final.value;
    MeasuredInput(f.lower, next.tx, next.tx - next.rx);
    MeasuredInput(f.upper, next.tx, next.tx - next.rq);
  }

  // ------------------------------------------------------------------ moving the clocks

  /** Server times later by `b`, measured offsets greater by `s`. */
  function MovedSample(b: real, s: real, x: Sample): Sample {
    Sample(x.rq + b - s, x.tx + b, x.rx + b - s)
  }

  function MovedSamples(b: real, s: real, ss: seq<Sample>): (moved: seq<Sample>)
    ensures |moved| == |ss|
    ensures forall i :: 0 <= i < |ss| ==> moved[i] == MovedSample(b, s, ss[i])
  {
    seq(|ss|, i requires 0 <= i < |ss| => MovedSample(b, s, ss[i]))
  }

  function MovedOuts(s: real, outs: seq<real>): (moved: seq<real>)
    ensures |moved| == |outs|
    ensures forall i :: 0 <= i < |outs| ==> moved[i] == outs[i] + s
  {
    seq(|outs|, i requires 0 <= i < |outs| => outs[i] + s)
  }

  lemma MovedOutsCons(s: real, x: real, rest: seq<real>)
    ensures MovedOuts(s, [x] + rest) == [x + s] + MovedOuts(s, rest)
  {
  }

  lemma MovedSamplesCons(b: real, s: real, ss: seq<Sample>)
    requires ss != []
    ensures var moved := MovedSamples(b, s, ss);
            moved != [] && moved[0] == MovedSample(b, s, ss[0]) && moved[1..] == MovedSamples(b, s, ss[1..])
  {
  }

  /** `g` is `f` in the moved frame. Before the first measurement the smoothing state is unused. */
  predicate IsMoved(b: real, s: real, f: Filter, g: Filter) {
    var t := Motion(false, b, s);
    && g.lower == t.OnState(f.lower) && g.upper == t.OnState(f.upper)
    && g.measCount == f.measCount
    && (f.measCount > 0 ==> g.lastVal == f.lastVal + s && g.lastTime == f.lastTime + b)
  }

  lemma {:induction false} MeasuredMoves(t: Motion, e: State, p: Pt)
    requires Sound(e)
    ensures var q := t.OnPt(p); Measured(t.OnState(e), q.x, q.y) == t.OnState(Measured(e, p.x, p.y))
  {
    WithPointMoves(t, e, p);
    assert t.OnSegs([]) == [];
  }

  lemma {:induction false} StableEstimateMoves(t: Motion, e: State, tx: real)
    requires e.haveInit && !t.flip
    ensures t.OnState(e).GetLineEstimate().m == e.GetLineEstimate().m
    ensures t.OnState(e).GetLineEstimate().At(tx + t.dx) == e.GetLineEstimate().At(tx) + t.dy
  {
    LineEstimateMoves(t, e);
    LineValueMoves(t, e.GetLineEstimate(), tx);
  }

  lemma {:induction false} EstimateMoves(t: Motion, lower: State, upper: State, n: nat, tx: real, lb: real, ub: real)
    requires Sound(lower) && Sound(upper) && !t.flip
    ensures var (skew, line) := Estimate(lower, upper, n, tx, lb, ub);
            var (skew', line') := Estimate(t.OnState(lower), t.OnState(upper), n, tx + t.dx, lb + t.dy, ub + t.dy);
            skew' == skew + t.dy && line'.m == line.m
  {
    if lower.IsStable() {
      StableEstimateMoves(t, lower, tx);
    }
    if upper.IsStable() {
      StableEstimateMoves(t, upper, tx);
    }
    hide t.OnState, State.GetLineEstimate, Line.At;
  }

  lemma {:induction false} SmoothingMoves(dt: real, old_: real, meas: real, m: real, s: real)
    ensures SmoothingFilter(dt, old_ + s, meas + s, m) == SmoothingFilter(dt, old_, meas, m) + s
  {
  }

  lemma {:induction false} LongCropMoves(t: Motion, e: State, xMin: real)
    ensures CropsForEver(t.OnState(e), xMin + t.dx) <==> CropsForEver(e, xMin)
    ensures MaybeCropped(t.OnState(e)) == t.OnState(MaybeCropped(e))
  {
    CropMoves(t, e, xMin);
    CropExitsExactly(e, xMin);
    CropExitsExactly(t.OnState(e), xMin + t.dx);
  }

  lemma {:induction false} UpdateMoves(b: real, s: real, f: Filter, g: Filter, x: Sample)
    requires InStep(f) && IsMoved(b, s, f, g)
    ensures var y := MovedSample(b, s, x);
            match Updated(f, x.rq, x.tx, x.rx)
            case Hangs => Updated(g, y.rq, y.tx, y.rx).Hangs?
            case Returns(f', skew, _) =>
              && Updated(g, y.rq, y.tx, y.rx).Returns?
              && Updated(g, y.rq, y.tx, y.rx).skew == skew + s
              && IsMoved(b, s, f', Updated(g, y.rq, y.tx, y.rx).filter)
  {
    hide Measured, Estimate, SmoothingFilter, CropsForEver, MaybeCropped, Motion.OnState,
         State.GetLineEstimate, Line.At;
    var t, y := Motion(false, b, s), MovedSample(b, s, x);
    var lb, ub := x.tx - x.rx, x.tx - x.rq;
    assert y.tx - y.rx == lb + s && y.tx - y.rq == ub + s;
    MeasuredInput(f.lower, x.tx, lb);
    MeasuredInput(f.upper, x.tx, ub);
    MeasuredMoves(t, f.lower, Pt(x.tx, lb));
    MeasuredMoves(t, f.upper, Pt(x.tx, ub));
    var lower, upper := Measured(f.lower, x.tx, lb), Measured(f.upper, x.tx, ub);
    EstimateMoves(t, lower, upper, f.measCount, x.tx, lb, ub);
    LongCropMoves(t, lower, x.tx - MAX_PERIOD);
    LongCropMoves(t, upper, x.tx - MAX_PERIOD);
    assert y.tx - MAX_PERIOD == x.tx - MAX_PERIOD + b;
    var (skew, line) := Estimate(lower, upper, f.measCount, x.tx, lb, ub);
    if f.measCount > 0 {
      SmoothingMoves(x.tx - f.lastTime, f.lastVal, skew, line.m, s);
      assert y.tx - g.lastTime == x.tx - f.lastTime;
    }
  }

  /** Translation equivariance of the whole filter: moving the clocks of a run moves every skew
      it returns by exactly the offset shift, through merges, resets, crops, changes of stability
      and smoothing; and a run that hangs goes on hanging at the same sample. */
  lemma {:induction false} RunMoves(b: real, s: real, f: Filter, g: Filter, ss: seq<Sample>)
    requires InStep(f) && IsMoved(b, s, f, g)
    ensures Ran(g, MovedSamples(b, s, ss)).outs == MovedOuts(s, Ran(f, ss).outs)
    ensures Ran(g, MovedSamples(b, s, ss)).final.Some? == Ran(f, ss).final.Some?
    decreases |ss|
  {
    hide Updated, IsMoved, InStep;
    if ss != [] {
      var x, moved := ss[0], MovedSamples(b, s, ss);
      UpdateMoves(b, s, f, g, x);
      assert moved[1..] == MovedSamples(b, s, ss[1..]);
      var o, o' := Updated(f, x.rq, x.tx, x.rx), Updated(g, moved[0].rq, moved[0].tx, moved[0].rx);
      if o.Returns? {
        UpdateInStep(f, x.rq, x.tx, x.rx);
        RunMoves(b, s, o.filter, o'.filter, ss[1..]);
        var rest := Ran(o.filter, ss[1..]).outs;
        assert MovedOuts(s, [o.skew] + rest) == [o.skew + s] + MovedOuts(s, rest);
      }
    }
  }

  lemma {:induction false} FreshRunMoves(b: real, s: real, ss: seq<Sample>)
    ensures Ran(FRESH, MovedSamples(b, s, ss)).outs == MovedOuts(s, Ran(FRESH, ss).outs)
    ensures Ran(FRESH, MovedSamples(b, s, ss)).final.Some? == Ran(FRESH, ss).final.Some?
  {
    assert Motion(false, b, s).OnSegs([]) == [];
    RunMoves(b, s, FRESH, FRESH, ss);
  }

  // ----------------------------------------------------------- what is settled on, smoothed

  /** The skew settled on is the value of the line it comes with. It is halfway between the two
      envelope lines when both are stable and in order, on the lower line when only that much
      holds, and otherwise between the two measured bounds. */
  lemma EstimateIsBetween(lower: State, upper: State, n: nat, tx: real, lb: real, ub: real)
    requires lower.measCount == upper.measCount
    ensures var (skew, line) := Estimate(lower, upper, n, tx, lb, ub);
            var envLB, envUB := lower.GetLineEstimate().At(tx), upper.GetLineEstimate().At(tx);
            && line.At(tx) == skew
            && (lower.IsStable() && envLB <= envUB ==> envLB <= skew <= envUB && skew - envLB == envUB - skew)
            && (lower.IsStable() && envLB > envUB ==> skew == envLB && line == lower.GetLineEstimate())
            && (!lower.IsStable() && lb <= ub ==> lb <= skew <= ub)
            && (!lower.IsStable() && n >= 10 ==> skew - lb == ub - skew)
  {
    hide State.GetLineEstimate;
    var l1, l2 := lower.GetLineEstimate(), upper.GetLineEstimate();
    assert MidLine(lower, upper).At(tx) == (l1.At(tx) + l2.At(tx)) / 2.0;
  }

  /** Smoothing predicts along the line and corrects by a thousandth: against any line of that
      slope, 0.999 of the old deviation stays and 0.001 of the new one comes in. */
  lemma SmoothingContracts(l: Line, t0: real, t: real, oldVal: real, newMeas: real)
    ensures SmoothingFilter(t - t0, oldVal, newMeas, l.m) - l.At(t) ==
            0.999 * (oldVal - l.At(t0)) + 0.001 * (newMeas - l.At(t))
  {
    assert l.m * (t - t0) == l.m * t - l.m * t0;
  }

  // --------------------------------------------------------------- the conditioned filter

  datatype ConditionedRun = ConditionedRun(outs: seq<real>, final: Option<Conditioned>)

  function ConditionedRan(c: Conditioned, ss: seq<Sample>): ConditionedRun
    decreases |ss|
  {
    if ss == [] then ConditionedRun([], Some(c))
    else
      match ConditionedUpdated(c, ss[0].rq, ss[0].tx, ss[0].rx)
      case CHangs => ConditionedRun([], None)
      case CReturns(c', skew, _) =>
        var rest := ConditionedRan(c', ss[1..]);
        ConditionedRun([skew] + rest.outs, rest.final)
  }

  /** The conditioned filter with its offsets, around this base. */
  function Based(c: Conditioned, base: Option<Filter>): Option<Conditioned> {
    match base
    case None => None
    case Some(f) => Some(c.(base := f))
  }

  /** Past its first call the conditioned filter is the plain one in a frame moved by its offsets,
      with the skew offset taken off each answer. */
  lemma {:induction false} ConditionedFollows(c: Conditioned, ss: seq<Sample>)
    requires c.base.measCount > 0 && c.rxOffset == c.skewOffset - c.beginTime
    ensures var r := Ran(c.base, MovedSamples(-c.beginTime, -c.skewOffset, ss));
            && ConditionedRan(c, ss).outs == MovedOuts(-c.skewOffset, r.outs)
            && ConditionedRan(c, ss).final == Based(c, r.final)
    decreases |ss|
  {
    hide Updated, MovedOuts, MovedSamples;
    if ss != [] {
      MovedSamplesCons(-c.beginTime, -c.skewOffset, ss);
      var x, y := ss[0], MovedSample(-c.beginTime, -c.skewOffset, ss[0]);
      assert y == Sample(x.rq + c.rxOffset, x.tx - c.beginTime, x.rx + c.rxOffset);
      var o := Updated(c.base, y.rq, y.tx, y.rx);
      if o.Returns? {
        UpdateCounts(c.base, y.rq, y.tx, y.rx);
        var c' := c.(base := o.filter);
        ConditionedFollows(c', ss[1..]);
        MovedOutsCons(-c.skewOffset, o.skew, Ran(c'.base, MovedSamples(-c.beginTime, -c.skewOffset, ss[1..])).outs);
      } else {
        NoOuts(-c.skewOffset);
      }
    } else {
      NoOuts(-c.skewOffset);
      MovedNone(-c.beginTime, -c.skewOffset, ss);
    }
  }

  lemma NoOuts(s: real)
    ensures MovedOuts(s, []) == []
  {
  }

  lemma MovedNone(b: real, s: real, ss: seq<Sample>)
    requires ss == []
    ensures MovedSamples(b, s, ss) == []
  {
  }

  lemma {:induction false} FirstCall(c0: Conditioned, x: Sample)
    requires c0.base.measCount == 0
    ensures var offset := x.tx - x.rx;
            var y := MovedSample(-x.rq, -offset, x);
            ConditionedUpdated(c0, x.rq, x.tx, x.rx) ==
            match Updated(c0.base, y.rq, y.tx, y.rx)
            case Hangs => CHangs
            case Returns(base, skew, info) =>
              CReturns(Conditioned(base, x.rq, offset, offset - x.rq), skew - offset, info)
  {
    hide Updated;
    var offset := x.tx - x.rx;
    var c := WithOffsets(c0, x.rq, x.tx, x.rx);
    assert MovedSample(-x.rq, -offset, x) == Sample(x.rq + c.rxOffset, x.tx - c.beginTime, x.rx + c.rxOffset);
  }

  lemma {:induction false} ConditionedFirst(c0: Conditioned, ss: seq<Sample>)
    requires ss != [] && c0.base.measCount == 0
    ensures var offset := ss[0].tx - ss[0].rx;
            var r := Ran(c0.base, MovedSamples(-ss[0].rq, -offset, ss));
            && ConditionedRan(c0, ss).outs == MovedOuts(-offset, r.outs)
            && ConditionedRan(c0, ss).final == Based(Conditioned(FRESH, ss[0].rq, offset, offset - ss[0].rq), r.final)
  {
    hide Updated, ConditionedUpdated, MovedSample, MovedOuts, MovedSamples;
    var x := ss[0];
    var offset := x.tx - x.rx;
    MovedSamplesCons(-x.rq, -offset, ss);
    var y := MovedSample(-x.rq, -offset, x);
    FirstCall(c0, x);
    NoOuts(-offset);
    var o := Updated(c0.base, y.rq, y.tx, y.rx);
    if o.Returns? {
      UpdateCounts(c0.base, y.rq, y.tx, y.rx);
      ConditionedFollows(Conditioned(o.filter, x.rq, offset, offset - x.rq), ss[1..]);
      MovedOutsCons(-offset, o.skew, Ran(o.filter, MovedSamples(-x.rq, -offset, ss[1..])).outs);
    }
  }

  /** The conditioned filter is meant to return the plain filter's skew. On every run it returns
      that skew less twice the offset of the first exchange: the offset is taken off on the way in
      and again on the way out. What it holds is the plain filter for server times counted from the
      first request and offsets counted from the first one. */
  lemma {:induction false} ConditionedIsOff(ss: seq<Sample>)
    requires ss != []
    ensures var offset := ss[0].tx - ss[0].rx;
            && ConditionedRan(FRESH_CONDITIONED, ss).outs == MovedOuts(-2.0 * offset, Ran(FRESH, ss).outs)
            && ConditionedRan(FRESH_CONDITIONED, ss).final.Some? == Ran(FRESH, ss).final.Some?
    ensures var offset := ss[0].tx - ss[0].rx;
            ConditionedRan(FRESH_CONDITIONED, ss).final ==
            Based(Conditioned(FRESH, ss[0].rq, offset, offset - ss[0].rq),
                  Ran(FRESH, MovedSamples(-ss[0].rq, -offset, ss)).final)
  {
    hide Ran, ConditionedRan;
    var offset := ss[0].tx - ss[0].rx;
    ConditionedFirst(FRESH_CONDITIONED, ss);
    FreshRunMoves(-ss[0].rq, -offset, ss);
    var plain := Ran(FRESH, ss).outs;
    assert MovedOuts(-offset, MovedOuts(-offset, plain)) == MovedOuts(-2.0 * offset, plain);
  }

  /** The first exchange of a run always gets its answer. */
  lemma FirstReturns(x: Sample)
    ensures Updated(FRESH, x.rq, x.tx, x.rx).Returns?
  {
    hide Estimate, SmoothingFilter, MaybeCropped, State.GetLineEstimate, Line.At;
    assert |Measured(FRESH.lower, x.tx, x.tx - x.rx).segs| == 0;
    assert |Measured(FRESH.upper, x.tx, x.tx - x.rq).segs| == 0;
  }

  lemma SomethingReturned(ss: seq<Sample>)
    requires ss != []
    ensures Ran(FRESH, ss).outs != []
  {
    hide Updated;
    FirstReturns(ss[0]);
  }

  /** So it agrees with the plain filter exactly when the first measured offset is zero. */
  lemma {:induction false} ConditionedAgreesIff(ss: seq<Sample>)
    requires ss != []
    ensures ConditionedRan(FRESH_CONDITIONED, ss).outs == Ran(FRESH, ss).outs <==> ss[0].tx == ss[0].rx
  {
    hide Ran, ConditionedRan;
    ConditionedIsOff(ss);
    SomethingReturned(ss);
    var offset, plain := ss[0].tx - ss[0].rx, Ran(FRESH, ss).outs;
    if offset == 0.0 {
      assert MovedOuts(-2.0 * offset, plain) == plain;
    } else {
      assert MovedOuts(-2.0 * offset, plain)[0] != plain[0];
    }
  }

  // ------------------------------------------------------------------ what stays covered

  function LowerPts(ss: seq<Sample>): (pts: seq<Pt>)
    ensures |pts| == |ss|
    ensures forall i :: 0 <= i < |ss| ==> pts[i] == Pt(ss[i].tx, ss[i].tx - ss[i].rx)
  {
    seq(|ss|, i requires 0 <= i < |ss| => Pt(ss[i].tx, ss[i].tx - ss[i].rx))
  }

  function UpperPts(ss: seq<Sample>): (pts: seq<Pt>)
    ensures |pts| == |ss|
    ensures forall i :: 0 <= i < |ss| ==> pts[i] == Pt(ss[i].tx, ss[i].tx - ss[i].rq)
  {
    seq(|ss|, i requires 0 <= i < |ss| => Pt(ss[i].tx, ss[i].tx - ss[i].rq))
  }

  predicate NeverBackwards(ss: seq<Sample>) {
    forall i, j :: 0 <= i < j < |ss| ==> ss[i].tx <= ss[j].tx
  }

  /** An envelope that covers exactly the measurements `pts[k..]`. */
  predicate Window(e: State, pts: seq<Pt>, k: nat) {
    && k <= |pts| && Covering(e, pts[k..])
    && Timeline(e) && Indexed(e) && Cached(e) && Sound(e)
    && e.haveInit == (pts[k..] != []) && (e.haveInit ==> e.initPt == pts[|pts| - 1])
  }

  lemma {:induction false} EmptyWindow(dir: Direction, pts: seq<Pt>)
    ensures Window(Empty(dir), pts, |pts|)
  {
    assert UPSIDE_DOWN.OnSegs([]) == [];
    assert Moved(UPSIDE_DOWN, []) == [];
  }

  lemma {:induction false} WindowIncreases(e: State, pts: seq<Pt>, k: nat, p: Pt)
    requires k <= |pts| && Covering(e, pts[k..]) && (pts[k..] != [] ==> pts[|pts| - 1].x < p.x)
    ensures Increasing(pts[k..] + [p])
  {
    var w := pts[k..];
    assert Increasing(w) by {
      if e.dir == Below {
        forall i, j | 0 <= i < j < |w| ensures w[i].x < w[j].x {
          assert Moved(UPSIDE_DOWN, w)[i].x < Moved(UPSIDE_DOWN, w)[j].x;
        }
      }
    }
    if w != [] {
      assert w[|w| - 1] == pts[|pts| - 1];
    }
  }

  lemma {:induction false} MeasuredWindow(e: State, pts: seq<Pt>, k: nat, p: Pt) returns (k': nat)
    requires Window(e, pts, k) && (pts != [] ==> pts[|pts| - 1].x <= p.x)
    ensures Window(Measured(e, p.x, p.y), pts + [p], k')
    ensures Measured(e, p.x, p.y).dir == e.dir
  {
    hide Covering, Measured, Timeline, Indexed, Cached, Increasing;
    MeasuredInput(e, p.x, p.y);
    if e.haveInit && e.initPt.x == p.x {
      k' := |pts| + 1;
      EmptyWindow(e.dir, pts + [p]);
    } else {
      k' := k;
      WindowIncreases(e, pts, k, p);
      AddKeepsCovering(e, pts[k..], p);
      assert (pts + [p])[k..] == pts[k..] + [p];
      AcceptedState(e, p);
    }
  }

  lemma {:induction false} AcceptedState(e: State, p: Pt)
    requires Timeline(e) && Indexed(e) && Cached(e) && Sound(e) && Later(e, p.x)
    ensures var e' := Measured(e, p.x, p.y);
            e' == WithPoint(e, p.x, p.y).0 && Timeline(e') && Indexed(e') && Cached(e')
  {
    hide Timeline, Indexed, Cached, WithPoint;
    PointKeepsTimeline(e, p.x, p.y);
    CacheStep(e, p.x, p.y);
  }

  lemma {:induction false} CroppedWindow(e: State, pts: seq<Pt>, k: nat) returns (k': nat)
    requires Window(e, pts, k)
    ensures Window(MaybeCropped(e), pts, k') && MaybeCropped(e).dir == e.dir
  {
    hide Covering, Timeline, Indexed, Cached, Increasing;
    k' := k;
    if |e.segs| > MAX_SEGS {
      var j := CropKeepsCovering(e, pts[k..]);
      k' := k + j;
      assert pts[k..][j..] == pts[k'..];
      CropKeepsCache(e);
      CropKeepsTimeline(e);
    }
  }

  predicate WindowsOf(f: Filter, ss: seq<Sample>, lo: nat, up: nat) {
    && f.lower.dir == Above && f.upper.dir == Below
    && Window(f.lower, LowerPts(ss), lo) && Window(f.upper, UpperPts(ss), up)
  }

  lemma {:induction false} UpdateWindows(f: Filter, ss: seq<Sample>, x: Sample, lo: nat, up: nat)
      returns (lo': nat, up': nat)
    requires WindowsOf(f, ss, lo, up) && (ss != [] ==> ss[|ss| - 1].tx <= x.tx)
    requires Updated(f, x.rq, x.tx, x.rx).Returns?
    ensures WindowsOf(Updated(f, x.rq, x.tx, x.rx).filter, ss + [x], lo', up')
  {
    hide Window, Measured, Estimate, SmoothingFilter, CropsForEver, MaybeCropped, State.GetLineEstimate, Line.At;
    var p, q := Pt(x.tx, x.tx - x.rx), Pt(x.tx, x.tx - x.rq);
    lo' := MeasuredWindow(f.lower, LowerPts(ss), lo, p);
    up' := MeasuredWindow(f.upper, UpperPts(ss), up, q);
    assert LowerPts(ss + [x]) == LowerPts(ss) + [p];
    assert UpperPts(ss + [x]) == UpperPts(ss) + [q];
    lo' := CroppedWindow(Measured(f.lower, p.x, p.y), LowerPts(ss + [x]), lo');
    up' := CroppedWindow(Measured(f.upper, q.x, q.y), UpperPts(ss + [x]), up');
  }

  lemma {:induction false} RunWindows(f: Filter, past: seq<Sample>, ss: seq<Sample>, lo: nat, up: nat)
      returns (lo': nat, up': nat)
    requires WindowsOf(f, past, lo, up) && NeverBackwards(past + ss)
    requires Ran(f, ss).final.Some?
    ensures WindowsOf(Ran(f, ss).final.value, past + ss, lo', up')
    decreases |ss|
  {
    hide WindowsOf, Updated;
    if ss == [] {
      lo', up' := lo, up;
      assert past + ss == past;
    } else {
      var x := ss[0];
      assert past != [] ==> (past + ss)[|past| - 1].tx <= (past + ss)[|past|].tx;
      lo', up' := UpdateWindows(f, past, x, lo, up);
      assert past + [x] + ss[1..] == past + ss;
      lo', up' := RunWindows(Updated(f, x.rq, x.tx, x.rx).filter, past + [x], ss[1..], lo', up');
    }
  }

  lemma {:induction false} WindowBounds(e: State, pts: seq<Pt>, k: nat, skew: Line, x: real)
    requires Window(e, pts, k)
    ensures k <= |pts|
    ensures Fits(e.dir, skew, pts[k..]) && InSpan(e.segs, x) ==> Bounds(e.dir, skew.At(x), HullAt(e.segs, x))
    ensures forall i :: k <= i < |pts| ==> Bounds(e.dir, e.GetLineEstimate().At(pts[i].x), pts[i].y)
  {
    hide Covering, Timeline, Cached, State.GetLineEstimate, Line.At, Fits;
    if Fits(e.dir, skew, pts[k..]) && InSpan(e.segs, x) {
      LineOutsideHull(e, pts[k..], skew, x);
    }
    forall i | k <= i < |pts| ensures Bounds(e.dir, e.GetLineEstimate().At(pts[i].x), pts[i].y) {
      EstimateBounds(e, pts[k..], i - k);
    }
  }

  /** After any run whose server clock never goes backwards, each envelope is the hull of all
      measurements from some moment on; any straight-line skew that fits those measurements stays
      outside that hull at every time it covers, so one that fits both runs between the hulls,
      whatever was measured before; and each reported line bounds all of the measurements its
      envelope covers. */
  lemma {:induction false} RunBoundsSkew(ss: seq<Sample>, skew: Line, x: real) returns (lo: nat, up: nat)
    requires NeverBackwards(ss) && Ran(FRESH, ss).final.Some?
    ensures WindowsOf(Ran(FRESH, ss).final.value, ss, lo, up) && lo <= |ss| && up <= |ss|
    ensures var f := Ran(FRESH, ss).final.value;
            && (Fits(Above, skew, LowerPts(ss)[lo..]) && InSpan(f.lower.segs, x) ==>
                  HullAt(f.lower.segs, x) <= skew.At(x))
            && (Fits(Below, skew, UpperPts(ss)[up..]) && InSpan(f.upper.segs, x) ==>
                  skew.At(x) <= HullAt(f.upper.segs, x))
    ensures var f := Ran(FRESH, ss).final.value;
            && (forall k :: lo <= k < |ss| ==>
                  LowerPts(ss)[k].y <= f.lower.GetLineEstimate().At(LowerPts(ss)[k].x))
            && (forall k :: up <= k < |ss| ==>
                  f.upper.GetLineEstimate().At(UpperPts(ss)[k].x) <= UpperPts(ss)[k].y)
  {
    hide Ran, Window, InSpan, State.GetLineEstimate, Line.At, Fits, HullAt;
    EmptyWindow(Above, LowerPts([]));
    EmptyWindow(Below, UpperPts([]));
    assert [] + ss == ss;
    lo, up := RunWindows(FRESH, [], ss, 0, 0);
    var f := Ran(FRESH, ss).final.value;
    WindowBounds(f.lower, LowerPts(ss), lo, skew, x);
    WindowBounds(f.upper, UpperPts(ss), up, skew, x);
  }
}
