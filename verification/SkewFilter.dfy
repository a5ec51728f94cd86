/** `CMOOSSkewFilter` and `CMOOSConditionedSkewFilter`: two envelopes, one of lower and one of
    upper offset measurements, a choice between their lines, and a smoothing filter. Clocks and
    offsets are real numbers; a crop that never comes back is an outcome of its own. */
module SkewFilter {
  import opened Envelope

  datatype SkewInfo = SkewInfo(
    m: real, c: real, lb: real, ub: real, envLB: real, envUB: real, envEst: real, filtEst: real)

  datatype Filter = Filter(lower: State, upper: State, lastVal: real, lastTime: real, measCount: nat)

  datatype Outcome = Returns(filter: Filter, skew: real, info: SkewInfo) | Hangs

  const FRESH := Filter(Empty(Above), Empty(Below), 0.0, 0.0, 0)

  const ALPHA := 0.001
  const MAX_PERIOD := 3600.0
  const MAX_SEGS := 500

  function SmoothingFilter(dt: real, oldVal: real, newMeas: real, gradient: real): real {
    var pred := oldVal + gradient * dt;
    var innov := newMeas - pred;
    pred + ALPHA * innov
  }

  /** One half of `UpdateEnvelopes`: a refused point resets the envelope. */
  function Measured(e: State, x: real, y: real): State {
    var (e', accepted) := WithPoint(e, x, y);
    if accepted then e' else Empty(e.dir)
  }

  /** `GetMidLine`. */
  function MidLine(lower: State, upper: State): Line {
    var l1, l2 := lower.GetLineEstimate(), upper.GetLineEstimate();
    Line((l1.m + l2.m) / 2.0, (l1.c + l2.c) / 2.0)
  }

  /** The skew and line `Update` settles on before smoothing. */
  function Estimate(lower: State, upper: State, measCount: nat, tx: real, lb: real, ub: real): (real, Line) {
    var envLB, envUB := lower.GetLineEstimate().At(tx), upper.GetLineEstimate().At(tx);
    var raw := if measCount < 10 then lb else (lb + ub) / 2.0;
    if lower.IsStable() then
      if upper.IsStable() && envUB >= envLB then
        ((envLB + envUB) / 2.0, MidLine(lower, upper))
      else (envLB, lower.GetLineEstimate())
    else if upper.IsStable() then (envUB, upper.GetLineEstimate())
    else (raw, Line(0.0, raw))
  }

  predicate CropsForEver(e: State, xMin: real) {
    |e.segs| > MAX_SEGS && !FrontIsOld(e, xMin)
  }

  function MaybeCropped(e: State): State {
    if |e.segs| > MAX_SEGS then Cropped(e) else e
  }

  function Updated(f: Filter, rq: real, tx: real, rx: real): Outcome {
    var lb, ub := tx - rx, tx - rq;
    var lower, upper := Measured(f.lower, tx, lb), Measured(f.upper, tx, ub);
    var (skew, line) := Estimate(lower, upper, f.measCount, tx, lb, ub);
    var out := if f.measCount > 0 then SmoothingFilter(tx - f.lastTime, f.lastVal, skew, line.m) else skew;
    if CropsForEver(lower, tx - MAX_PERIOD) || CropsForEver(upper, tx - MAX_PERIOD) then Hangs
    else
      Returns(Filter(MaybeCropped(lower), MaybeCropped(upper), out, tx, f.measCount + 1), out,
              SkewInfo(line.m, line.c, lb, ub, lower.GetLineEstimate().At(tx),
                       upper.GetLineEstimate().At(tx), skew, out))
  }

  // ----------------------------------------------------------- the conditioned filter

  /** `CMOOSConditionedSkewFilter`: the plain filter behind an offset of its inputs. */
  datatype Conditioned = Conditioned(base: Filter, beginTime: real, skewOffset: real, rxOffset: real)

  /** The diagnostics are the base filter's, as they are. */
  datatype ConditionedOutcome = CReturns(filter: Conditioned, skew: real, info: SkewInfo) | CHangs

  const FRESH_CONDITIONED := Conditioned(FRESH, 0.0, 0.0, 0.0)

  function WithOffsets(c: Conditioned, rq: real, tx: real, rx: real): Conditioned {
    if c.base.measCount == 0 then
      c.(beginTime := rq, skewOffset := tx - rx, rxOffset := tx - rx - rq)
    else c
  }

  function ConditionedUpdated(c: Conditioned, rq: real, tx: real, rx: real): ConditionedOutcome {
    var c1 := WithOffsets(c, rq, tx, rx);
    match Updated(c1.base, rq + c1.rxOffset, tx - c1.beginTime, rx + c1.rxOffset)
    case Hangs => CHangs
    case Returns(base, skew, info) => CReturns(c1.(base := base), skew - c1.skewOffset, info)
  }

  // -------------------------------------------------------------------- the object

  class PlainSkewFilter {
    const lowerBound: ConvexEnvelope
    const upperBound: ConvexEnvelope
    var lastVal: real
    var lastTime: real
    var measCount: nat

    predicate Valid()
      reads this, lowerBound, upperBound
    {
      && lowerBound != upperBound
      && lowerBound.direction == Above && upperBound.direction == Below
    }

    function Value(): Filter
      reads this, lowerBound, upperBound
    {
      Filter(lowerBound.Value(), upperBound.Value(), lastVal, lastTime, measCount)
    }

    constructor ()
      ensures Valid() && Value() == FRESH
      ensures fresh(lowerBound) && fresh(upperBound)
    {
      lowerBound := new ConvexEnvelope(Above);
      upperBound := new ConvexEnvelope(Below);
      lastVal := 0.0;
      lastTime := 0.0;
      measCount := 0;
    }

    method Reset()
      requires Valid()
      modifies this, lowerBound, upperBound
      ensures Valid() && Value() == FRESH
    {
      lastVal := 0.0;
      lastTime := 0.0;
      measCount := 0;
      lowerBound.Reset();
      upperBound.Reset();
    }

    method UpdateEnvelopes(tx: real, lb: real, ub: real)
      requires Valid()
      modifies lowerBound, upperBound
      ensures Valid()
      ensures lowerBound.Value() == Measured(old(lowerBound.Value()), tx, lb)
      ensures upperBound.Value() == Measured(old(upperBound.Value()), tx, ub)
    {
      var ok := lowerBound.AddPoint(tx, lb);
      if !ok {
        lowerBound.Reset();
      }
      ok := upperBound.AddPoint(tx, ub);
      if !ok {
        upperBound.Reset();
      }
    }

    /** One envelope's turn at the end of `Update`. */
    static method CropIfLong(e: ConvexEnvelope, xMin: real) returns (exits: bool)
      modifies e
      ensures exits <==> !CropsForEver(old(e.Value()), xMin)
      ensures exits ==> e.Value() == MaybeCropped(old(e.Value()))
    {
      exits := true;
      if |e.segs| > MAX_SEGS {
        CropExitsExactly(e.Value(), xMin);
        exits := e.CropFrontBefore(xMin);
      }
    }

    method Update(rq: real, tx: real, rx: real) returns (exits: bool, skew: real, info: SkewInfo)
      requires Valid()
      modifies this, lowerBound, upperBound
      ensures Valid()
      ensures exits <==> Updated(old(Value()), rq, tx, rx).Returns?
      ensures exits ==> Updated(old(Value()), rq, tx, rx) == Returns(Value(), skew, info)
    {
      hide Measured, SmoothingFilter, MaybeCropped, CropsForEver;
      var lb := tx - rx;
      var ub := tx - rq;
      UpdateEnvelopes(tx, lb, ub);
      ghost var lower, upper := lowerBound.Value(), upperBound.Value();
      var lowerLine, upperLine := lowerBound.Value().GetLineEstimate(), upperBound.Value().GetLineEstimate();
      var envLB, envUB := lowerLine.At(tx), upperLine.At(tx);
      skew := (lb + ub) / 2.0;
      if measCount < 10 {
        skew := lb;
      }
      var line := Line(0.0, skew);
      if lowerBound.Value().IsStable() {
        skew := envLB;
        line := lowerLine;
        if upperBound.Value().IsStable() {
          if envUB >= envLB {
            skew := (envLB + envUB) / 2.0;
            line := MidLine(lowerBound.Value(), upperBound.Value());
          }
        }
      } else if upperBound.Value().IsStable() {
        skew := envUB;
        line := upperLine;
      }
      assert (skew, line) == Estimate(lower, upper, measCount, tx, lb, ub);
      hide Estimate;
      var out := skew;
      if measCount > 0 {
        out := SmoothingFilter(tx - lastTime, lastVal, skew, line.m);
      }
      info := SkewInfo(line.m, line.c, lb, ub, envLB, envUB, skew, out);
      skew := out;
      exits := CropIfLong(lowerBound, tx - MAX_PERIOD);
      if !exits {
        return;
      }
      exits := CropIfLong(upperBound, tx - MAX_PERIOD);
      if !exits {
        return;
      }
      lastVal := out;
      lastTime := tx;
      measCount := measCount + 1;
    }
  }

  /** `CMOOSConditionedSkewFilter`: the base it extends is the field `base`. */
  class ConditionedSkewFilter {
    const base: PlainSkewFilter
    var beginTime: real
    var skewOffset: real
    var rxOffset: real

    predicate Valid()
      reads this, base, base.lowerBound, base.upperBound
    {
      base.Valid()
    }

    function Value(): Conditioned
      reads this, base, base.lowerBound, base.upperBound
    {
      Conditioned(base.Value(), beginTime, skewOffset, rxOffset)
    }

    constructor ()
      ensures Valid() && Value() == FRESH_CONDITIONED
    {
      base := new PlainSkewFilter();
      beginTime, skewOffset, rxOffset := 0.0, 0.0, 0.0;
    }

    method Reset()
      requires Valid()
      modifies this, base, base.lowerBound, base.upperBound
      ensures Valid() && Value() == FRESH_CONDITIONED
    {
      beginTime, skewOffset, rxOffset := 0.0, 0.0, 0.0;
      base.Reset();
    }

    method Update(rq: real, tx: real, rx: real) returns (exits: bool, skew: real, info: SkewInfo)
      requires Valid()
      modifies this, base, base.lowerBound, base.upperBound
      ensures Valid()
      ensures exits <==> ConditionedUpdated(old(Value()), rq, tx, rx).CReturns?
      ensures exits ==> ConditionedUpdated(old(Value()), rq, tx, rx) == CReturns(Value(), skew, info)
    {
      hide Updated;
      if base.measCount == 0 {
        beginTime := rq;
        skewOffset := tx - rx;
        rxOffset := skewOffset - beginTime;
      }
      exits, skew, info := base.Update(rq + rxOffset, tx - beginTime, rx + rxOffset);
      skew := skew - skewOffset;
    }
  }
}
