/** What the skew filter answers, in numbers: from the samples so far, the last answer, and the lines of
    its two envelopes. */
module SkewAnswers {
  import opened Envelope
  import opened EnvelopeMotion
  import opened SkewFilter
  import opened SkewRuns

  // ---------------------------------------------------------------------------- one update

  /** The line the answer is drawn to, once the envelopes are stable: halfway between the two lines,
      or the lower one if they cross at the time asked for. */
  function Middle(l: Line, u: Line, tx: real, t: real): real {
    if u.m * tx + u.c >= l.m * tx + l.c then (l.m * t + l.c + u.m * t + u.c) / 2.0 else l.m * t + l.c
  }

  /** Until then: the lower bound for the first ten samples, and then halfway between the bounds. */
  function Raw(n: nat, x: Sample): real {
    if n < 10 then x.tx - x.rx else x.tx - (x.rx + x.rq) / 2.0
  }

  /** The first answer is the first lower bound. Later ones keep 0.999 of how far the last answer was
      from what is measured now: the raw measurement while the envelopes hold no more than fifty-one
      points each, and after that the line between them, followed from the last server time to
      this. */
  ghost predicate Answers(f: Filter, x: Sample, lower: State, upper: State, skew: real, info: SkewInfo) {
    var l, u := lower.GetLineEstimate(), upper.GetLineEstimate();
    && (lower.measCount <= 50 ==>
          && info.m == 0.0 && info.c == info.envEst == Raw(f.measCount, x)
          && skew - Raw(f.measCount, x) == if f.measCount == 0 then 0.0 else 0.999 * (f.lastVal - Raw(f.measCount, x)))
    && (lower.measCount > 50 ==>
          && (forall t :: info.m * t + info.c == Middle(l, u, x.tx, t)) && info.envEst == Middle(l, u, x.tx, x.tx)
          && skew - Middle(l, u, x.tx, x.tx) ==
               if f.measCount == 0 then 0.0 else 0.999 * (f.lastVal - Middle(l, u, x.tx, f.lastTime)))
  }

  /** A long envelope loses what is in front of its longest segment. */
  function Shortened(e: State): State {
    if |e.segs| > 500
    then
      var n := if e.longest <= |e.segs| then e.longest else |e.segs|;
      e.(segs := e.segs[n..], longest := e.longest - n)
    else e
  }

  /** A long envelope with a segment in front of the longest that ends within the last hour. */
  predicate Stuck(e: State, tx: real) {
    |e.segs| > 500 && exists i :: 0 <= i < |e.segs| && i < e.longest && tx - e.segs[i].p2.x <= 3600.0
  }

  lemma StuckIs(e: State, tx: real)
    ensures CropsForEver(e, tx - MAX_PERIOD) <==> Stuck(e, tx)
    ensures MaybeCropped(e) == Shortened(e)
  {
  }

  lemma EstimateIs(lower: State, upper: State, n: nat, x: Sample)
    requires lower.measCount == upper.measCount
    ensures var (skew, line) := Estimate(lower, upper, n, x.tx, x.tx - x.rx, x.tx - x.rq);
            if lower.measCount <= 50 then skew == Raw(n, x) && line == Line(0.0, skew)
            else
              var l, u := lower.GetLineEstimate(), upper.GetLineEstimate();
              skew == Middle(l, u, x.tx, x.tx) && forall t :: line.m * t + line.c == Middle(l, u, x.tx, t)
  {
    hide State.GetLineEstimate;
    var l, u := lower.GetLineEstimate(), upper.GetLineEstimate();
    forall t ensures Line((l.m + u.m) / 2.0, (l.c + u.c) / 2.0).At(t) == (l.At(t) + u.At(t)) / 2.0 {
    }
  }

  lemma Smoothed(l: Line, t0: real, t: real, oldVal: real, est: real)
    requires est == l.m * t + l.c
    ensures SmoothingFilter(t - t0, oldVal, est, l.m) - est == 0.999 * (oldVal - (l.m * t0 + l.c))
  {
    assert l.m * (t - t0) == l.m * t - l.m * t0;
  }

  /** Every update, in numbers: when it does not come back, what it answers and reports, and the
      filter it leaves. */
  lemma UpdateAnswers(f: Filter, x: Sample)
    requires InStep(f)
    ensures var lower, upper := Measured(f.lower, x.tx, x.tx - x.rx), Measured(f.upper, x.tx, x.tx - x.rq);
            match Updated(f, x.rq, x.tx, x.rx)
            case Hangs => Stuck(lower, x.tx) || Stuck(upper, x.tx)
            case Returns(f', skew, info) =>
              && !Stuck(lower, x.tx) && !Stuck(upper, x.tx)
              && Answers(f, x, lower, upper, skew, info)
              && info.lb == x.tx - x.rx && info.ub == x.tx - x.rq && info.filtEst == skew
              && info.envLB == lower.GetLineEstimate().m * x.tx + lower.GetLineEstimate().c
              && info.envUB == upper.GetLineEstimate().m * x.tx + upper.GetLineEstimate().c
              && f' == Filter(Shortened(lower), Shortened(upper), skew, x.tx, f.measCount + 1)
  {
    hide Measured, Estimate, SmoothingFilter, CropsForEver, MaybeCropped, State.GetLineEstimate, Stuck, Shortened,
         Middle, Raw;
    var lower, upper := Measured(f.lower, x.tx, x.tx - x.rx), Measured(f.upper, x.tx, x.tx - x.rq);
    MeasuredInput(f.lower, x.tx, x.tx - x.rx);
    MeasuredInput(f.upper, x.tx, x.tx - x.rq);
    EstimateIs(lower, upper, f.measCount, x);
    StuckIs(lower, x.tx);
    StuckIs(upper, x.tx);
    var (est, line) := Estimate(lower, upper, f.measCount, x.tx, x.tx - x.rx, x.tx - x.rq);
    Smoothed(line, f.lastTime, x.tx, f.lastVal, est);
  }

  // ------------------------------------------------------------------------------ every run

  /** How many samples the envelopes hold: those since a server time came twice running, which
      empties them. */
  function Since(ss: seq<Sample>): nat {
    if ss == [] then 0
    else
      var n := |ss| - 1;
      if Since(ss[..n]) > 0 && ss[n].tx == ss[n - 1].tx then 0 else Since(ss[..n]) + 1
  }

  predicate Holds(e: State, ss: seq<Sample>) {
    && e.haveInit == (Since(ss) > 0) && e.measCount == (if Since(ss) > 0 then Since(ss) - 1 else 0)
    && (ss != [] && Since(ss) > 0 ==> e.initPt.x == ss[|ss| - 1].tx)
  }

  predicate Reached(f: Filter, ss: seq<Sample>, outs: seq<real>) {
    && InStep(f) && Holds(f.lower, ss) && f.measCount == |ss| == |outs|
    && (ss != [] ==> f.lastVal == outs[|outs| - 1] && f.lastTime == ss[|ss| - 1].tx)
  }

  lemma {:induction false} RanSnoc(f: Filter, ss: seq<Sample>, x: Sample)
    ensures Ran(f, ss).final.None? ==> Ran(f, ss + [x]).final.None?
    ensures Ran(f, ss).final.Some? ==>
              Ran(f, ss + [x]) ==
              match Updated(Ran(f, ss).final.value, x.rq, x.tx, x.rx)
              case Hangs => Run(Ran(f, ss).outs, None)
              case Returns(f', skew, _) => Run(Ran(f, ss).outs + [skew], Some(f'))
    decreases |ss|
  {
    hide Updated;
    if ss == [] {
      assert ss + [x] == [x] && [x][1..] == [];
    } else {
      assert (ss + [x])[1..] == ss[1..] + [x];
      match Updated(f, ss[0].rq, ss[0].tx, ss[0].rx)
      case Hangs =>
      case Returns(f', skew, _) => RanSnoc(f', ss[1..], x);
    }
  }

  lemma SinceSnoc(ss: seq<Sample>, x: Sample)
    ensures Since(ss + [x]) ==
            if Since(ss) > 0 && ss != [] && ss[|ss| - 1].tx == x.tx then 0 else Since(ss) + 1
  {
    assert (ss + [x])[..|ss|] == ss;
  }

  lemma HeldOnceMore(e: State, ss: seq<Sample>, x: Sample, y: real)
    requires Holds(e, ss) && Sound(e)
    ensures Holds(Measured(e, x.tx, y), ss + [x])
  {
    hide Measured, Since;
    MeasuredInput(e, x.tx, y);
    SinceSnoc(ss, x);
    NoneSince();
  }

  lemma NoneSince()
    ensures Since([]) == 0
  {
  }

  lemma ShortenedHolds(e: State, ss: seq<Sample>)
    ensures Holds(Shortened(e), ss) == Holds(e, ss)
  {
  }

  lemma ReachedNext(f: Filter, ss: seq<Sample>, outs: seq<real>, x: Sample)
    requires Reached(f, ss, outs) && Updated(f, x.rq, x.tx, x.rx).Returns?
    ensures var o := Updated(f, x.rq, x.tx, x.rx);
            Reached(o.filter, ss + [x], outs + [o.skew])
  {
    hide Updated, Measured, Holds, Answers, Stuck, Shortened, State.GetLineEstimate;
    UpdateAnswers(f, x);
    UpdateInStep(f, x.rq, x.tx, x.rx);
    HeldOnceMore(f.lower, ss, x, x.tx - x.rx);
    ShortenedHolds(Measured(f.lower, x.tx, x.tx - x.rx), ss + [x]);
  }

  lemma {:induction false} RunReaches(ss: seq<Sample>)
    requires Ran(FRESH, ss).final.Some?
    ensures Reached(Ran(FRESH, ss).final.value, ss, Ran(FRESH, ss).outs)
  {
    hide Updated, Reached, Ran;
    if ss == [] {
      FreshReached();
    } else {
      var n := |ss| - 1;
      assert ss == ss[..n] + [ss[n]];
      RanSnoc(FRESH, ss[..n], ss[n]);
      RunReaches(ss[..n]);
      ReachedNext(Ran(FRESH, ss[..n]).final.value, ss[..n], Ran(FRESH, ss[..n]).outs, ss[n]);
    }
  }

  lemma FreshReached()
    ensures Reached(Ran(FRESH, []).final.value, [], Ran(FRESH, []).outs)
  {
  }

  /** Every answer of every run. The first is the first lower bound. While no more than fifty-one
      samples are held, an answer is a thousandth of the way from the last answer to the
      measurement: the lower bound for the first ten, and then the mean of the bounds. Once more
      are held, it keeps 0.999 of the last answer's distance from the line between the envelopes,
      as they stand with this sample. */
  lemma RunAnswers(ss: seq<Sample>, x: Sample)
    requires Ran(FRESH, ss + [x]).final.Some?
    ensures Ran(FRESH, ss).final.Some? && |Ran(FRESH, ss).outs| == |ss|
    ensures var before, after := Ran(FRESH, ss).outs, Ran(FRESH, ss + [x]).outs;
            |after| == |ss| + 1 && after[..|ss|] == before &&
            var skew := after[|ss|];
            && (ss == [] ==> skew == x.tx - x.rx)
            && (ss != [] && Since(ss + [x]) <= 51 ==>
                  var meas := if |ss| < 10 then x.tx - x.rx else x.tx - (x.rx + x.rq) / 2.0;
                  skew == before[|ss| - 1] + (meas - before[|ss| - 1]) / 1000.0)
            && (ss != [] && Since(ss + [x]) > 51 ==>
                  var f := Ran(FRESH, ss).final.value;
                  var l := Measured(f.lower, x.tx, x.tx - x.rx).GetLineEstimate();
                  var u := Measured(f.upper, x.tx, x.tx - x.rq).GetLineEstimate();
                  skew - Middle(l, u, x.tx, x.tx) ==
                    0.999 * (before[|ss| - 1] - Middle(l, u, x.tx, ss[|ss| - 1].tx)))
  {
    hide Ran, Updated, Measured, State.GetLineEstimate, Middle, Stuck, Shortened;
    RanSnoc(FRESH, ss, x);
    RunReaches(ss);
    var f := Ran(FRESH, ss).final.value;
    UpdateAnswers(f, x);
    HeldOnceMore(f.lower, ss, x, x.tx - x.rx);
    OneIsFew(ss, x);
    hide Since;
  }

  lemma OneIsFew(ss: seq<Sample>, x: Sample)
    ensures ss == [] ==> Since(ss + [x]) == 1
  {
    SinceSnoc(ss, x);
  }

  /** No more than fifty-one samples are ever held. */
  predicate FewHeld(ss: seq<Sample>) {
    Since(ss) <= 51 && (ss == [] || FewHeld(ss[..|ss| - 1]))
  }

  /** The server's clock is ahead by `b`: by it, the stamp was made between asking and receiving, and
      the round trip took at most `w`. */
  predicate Honest(x: Sample, b: real, w: real) {
    x.rq <= x.tx - b <= x.rx && x.rx - x.rq <= w
  }

  /** Until the envelopes are stable, honest samples keep every answer within a round trip of the truth. */
  lemma {:induction false} HonestAnswers(ss: seq<Sample>, b: real, w: real)
    requires Ran(FRESH, ss).final.Some? && FewHeld(ss) && forall i :: 0 <= i < |ss| ==> Honest(ss[i], b, w)
    ensures |Ran(FRESH, ss).outs| == |ss|
    ensures forall i :: 0 <= i < |ss| ==> b - w <= Ran(FRESH, ss).outs[i] <= b + w
  {
    hide Ran, Since, Middle, Measured, State.GetLineEstimate;
    if ss == [] {
      FreshReached();
      RunReaches(ss);
    } else {
      var n := |ss| - 1;
      assert ss == ss[..n] + [ss[n]];
      RunAnswers(ss[..n], ss[n]);
      HonestAnswers(ss[..n], b, w);
      var outs := Ran(FRESH, ss).outs;
      assert forall i :: 0 <= i < n ==> outs[i] == outs[..n][i];
    }
  }
}
