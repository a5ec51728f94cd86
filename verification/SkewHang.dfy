/** A run of the skew filter that never comes back. The client's clock gains on the server's ever
    faster, by a millionth of the square of the time, and its exchanges take no time at all. Server
    times go up in ones, so the lower offset falls along a parabola, no two of its segments merge and
    the first stays the longest; then a gap of two makes the last segment the longest while the front
    is less than an hour old. */
module SkewHang {
  import opened Envelope
  import opened SkewFilter
  import opened SkewRuns

  const GAIN: real := 0.000001

  function Height(x: real): real {
    -(GAIN * (x * x))
  }

  /** An exchange at server time `x`: asked and answered at one moment of the client's clock. */
  function At(x: real): Sample {
    Sample(x - Height(x), x, x - Height(x))
  }

  const STEPS: nat := 501

  /** The exchanges after time `n`: one for each time up to 501, then one at 503. */
  function After(n: nat): seq<Sample>
    requires n <= STEPS
    decreases STEPS - n
  {
    if n == STEPS then [At(503.0)] else [At((n + 1) as real)] + After(n + 1)
  }

  /** The exchanges from time `n` on. */
  function From(n: nat): seq<Sample>
    requires n <= STEPS
  {
    [At(n as real)] + After(n)
  }

  /** An upper envelope that holds the parabola up to time `n`, one segment for each step. */
  predicate Parabola(e: State, n: nat) {
    && e.dir == Above && e.haveInit && e.initPt == Pt(n as real, Height(n as real))
    && |e.segs| == n && e.longest == 0
    && (n > 0 ==> e.segs[n - 1].m == GAIN * (-(2.0 * n as real) + 1.0))
    && (n > 0 ==> e.segs[0].period == 1.0 && e.segs[0].p2.x == 1.0)
  }

  lemma Slope(n: nat, step: real)
    requires step > 0.0
    ensures var x, y := n as real, n as real + step;
            var s := MakeSeg(Pt(x, Height(x)), Pt(y, Height(y)));
            s.Some? && s.value.m == GAIN * (-(2.0 * x) - step) && s.value.period == step && s.value.p2.x == y
  {
    var x, y := n as real, n as real + step;
    assert y * y - x * x == (2.0 * x + step) * step;
    Quotient(Height(y) - Height(x), step, GAIN * (-(2.0 * x) - step));
  }

  lemma Quotient(a: real, d: real, q: real)
    requires d > 0.0 && a == q * d
    ensures a / d == q
  {
  }

  /** One more segment stands behind the `n` that did, and nothing has merged. */
  predicate Longer(e: State, e': State, n: nat, step: real) {
    && e'.dir == Above && |e'.segs| == n + 1 && |e.segs| == n
    && e'.haveInit && e'.initPt == Pt(n as real + step, Height(n as real + step))
    && e'.segs[n].m == GAIN * (-(2.0 * n as real) - step)
    && (if n > 0 then e'.segs[0] == e.segs[0] else e'.segs[0].period == step && e'.segs[0].p2.x == n as real + step)
    && e'.longest == (if n > 0 && step > 1.0 then n else 0)
  }

  lemma ParabolaStep(e: State, n: nat, step: real)
    requires Parabola(e, n) && step >= 1.0
    ensures var (e', accepted) := WithPoint(e, n as real + step, Height(n as real + step));
            accepted && Longer(e, e', n, step)
  {
    var y := n as real + step;
    Slope(n, step);
    hide MakeSeg, Height;
    var s := MakeSeg(e.initPt, Pt(y, Height(y))).value;
    var e1 := Appended(e, s);
    AppendKeeps(e, s);
    assert e1.segs[n] == s && (n > 0 ==> e1.segs[n - 1] == e.segs[n - 1] && e1.segs[0] == e.segs[0]);
    assert MergedAll(e1) == e1;
  }

  lemma NextOnParabola(e: State, n: nat)
    requires Parabola(e, n)
    ensures var y := (n + 1) as real;
            Parabola(Measured(e, y, Height(y)), n + 1)
  {
    hide WithPoint, Height;
    ParabolaStep(e, n, 1.0);
    assert (n + 1) as real == n as real + 1.0;
  }

  /** The gap makes the last segment the longest, and the crop turns for ever. */
  lemma GapHangs(e: State)
    requires Parabola(e, STEPS)
    ensures CropsForEver(Measured(e, 503.0, Height(503.0)), 503.0 - MAX_PERIOD)
  {
    hide WithPoint, Height;
    ParabolaStep(e, STEPS, 2.0);
    var e' := Measured(e, 503.0, Height(503.0));
    assert e'.segs[0].p2.x == 1.0 && InFront(e') == STEPS;
  }

  lemma LowerOffset(x: real)
    ensures At(x).tx == x && At(x).tx - At(x).rx == Height(x)
  {
  }

  /** From a filter that holds the parabola up to time `n`, the rest of the run never comes back. */
  lemma {:induction false} ParabolaHangs(f: Filter, n: nat)
    requires n <= STEPS && Parabola(f.lower, n)
    ensures Ran(f, After(n)).final.None?
    decreases STEPS - n
  {
    hide Measured, Estimate, SmoothingFilter, State.GetLineEstimate, Line.At, At, Height, MaybeCropped,
         CropsForEver, Parabola;
    if n == STEPS {
      LowerOffset(503.0);
      GapHangs(f.lower);
    } else {
      var y := (n + 1) as real;
      LowerOffset(y);
      NextOnParabola(f.lower, n);
      var x := At(y);
      var o := Updated(f, x.rq, x.tx, x.rx);
      assert After(n)[0] == x && After(n)[1..] == After(n + 1);
      if o.Returns? {
        NotCropped(Measured(f.lower, y, Height(y)), n + 1);
        ParabolaHangs(o.filter, n + 1);
      }
    }
  }

  lemma NotCropped(e: State, n: nat)
    requires Parabola(e, n)
    ensures MaybeCropped(e) == e
  {
    assert e.segs[0..] == e.segs;
  }

  lemma FirstOnParabola()
    ensures Parabola(Measured(FRESH.lower, 0.0, Height(0.0)), 0)
  {
  }

  /** 503 exchanges one after the other, as a client makes them that waits for each answer, in less
      than ten minutes and with a clock that is at no time more than a second off. */
  predicate Ordinary(ss: seq<Sample>) {
    && |ss| == 503
    && (forall i, j :: 0 <= i < j < |ss| ==> ss[i].rx < ss[j].rq && ss[i].tx < ss[j].tx)
    && (forall i :: 0 <= i < |ss| ==>
          0.0 <= ss[i].tx <= 503.0 && ss[i].tx <= ss[i].rq <= ss[i].rx < ss[i].tx + 1.0)
  }

  /** A fresh filter hangs on a run of ordinary exchanges. */
  lemma FilterCanHang() returns (ss: seq<Sample>)
    ensures Ordinary(ss) && NeverBackwards(ss) && Ran(FRESH, ss).final.None?
  {
    hide Measured, Estimate, SmoothingFilter, State.GetLineEstimate, Line.At, At, Height, MaybeCropped,
         CropsForEver, Parabola, After, NeverBackwards, Ordinary;
    RunIsOrdinary();
    FirstOnParabola();
    LowerOffset(0.0);
    ss := From(0);
    var x := At(0.0);
    var o := Updated(FRESH, x.rq, x.tx, x.rx);
    assert ss[0] == x && ss[1..] == After(0);
    if o.Returns? {
      NotCropped(Measured(FRESH.lower, 0.0, Height(0.0)), 0);
      ParabolaHangs(o.filter, 0);
    }
  }

  lemma {:induction false} Rising(n: nat)
    requires n <= STEPS
    ensures |From(n)| == STEPS - n + 2
    ensures forall i :: 0 <= i < |From(n)| ==> From(n)[i] == At(From(n)[i].tx) && n as real <= From(n)[i].tx <= 503.0
    ensures forall i, j :: 0 <= i < j < |From(n)| ==> From(n)[i].tx < From(n)[j].tx
    decreases STEPS - n
  {
    hide Height;
    var all, rest := From(n), After(n);
    if n < STEPS {
      Rising(n + 1);
      assert rest == From(n + 1);
    }
    forall i | 0 <= i < |all| ensures all[i] == At(all[i].tx) && n as real <= all[i].tx <= 503.0 {
      if i > 0 {
        assert all[i] == rest[i - 1];
      }
    }
    forall i, j | 0 <= i < j < |all| ensures all[i].tx < all[j].tx {
      assert all[j] == rest[j - 1];
      if i > 0 {
        assert all[i] == rest[i - 1];
      }
    }
  }

  /** The client's clock gains, and so never goes back. */
  lemma Gains(x: real, y: real)
    requires 0.0 <= x <= 503.0
    ensures x <= At(x).rx < x + 1.0 && At(x).rq == At(x).rx
    ensures x < y ==> At(x).rx < At(y).rq
  {
    Square(x);
    if x < y {
      SquareGrows(x, y);
    }
  }

  lemma Square(x: real)
    requires 0.0 <= x <= 503.0
    ensures 0.0 <= x * x <= 253009.0
  {
    assert x * x <= x * 503.0;
  }

  lemma SquareGrows(x: real, y: real)
    requires 0.0 <= x <= y
    ensures x * x <= y * y
  {
    assert x * x <= x * y <= y * y;
  }

  lemma RunIsOrdinary()
    ensures Ordinary(From(0)) && NeverBackwards(From(0))
  {
    hide At, After, From;
    Rising(0);
    var ss := From(0);
    forall i | 0 <= i < |ss| ensures ss[i].tx <= ss[i].rx < ss[i].tx + 1.0 && ss[i].rq == ss[i].rx {
      Gains(ss[i].tx, 503.0);
    }
    forall i, j | 0 <= i < j < |ss| ensures ss[i].rx < ss[j].rq && ss[i].tx < ss[j].tx {
      Gains(ss[i].tx, ss[j].tx);
    }
  }
}
