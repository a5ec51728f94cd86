/** `CConvexEnvelope` of MOOSSkewFilter.cpp: one convex envelope over a stream of clock offset
    measurements, kept as a deque of line segments that are merged from the back. Clocks and
    offsets are real numbers. */
module Envelope {

  datatype Option<+T> = None | Some(value: T)

  datatype Pt = Pt(x: real, y: real)

  /** Slope and intercept, and the two anchor points the line passes through. */
  datatype Seg = Seg(period: real, m: real, c: real, p1: Pt, p2: Pt)

  datatype Direction = Above | Below

  /** Slope and intercept of a reported line. */
  datatype Line = Line(m: real, c: real) {
    function At(x: real): real {
      m * x + c
    }
  }

  function Fabs(r: real): (a: real)
    ensures a >= 0.0 && (a == r || a == -r)
  {
    if r < 0.0 then -r else r
  }

  function GetLineParams(p1: Pt, p2: Pt): Option<Line> {
    if p1.x == p2.x then None
    else
      var m := (p2.y - p1.y) / (p2.x - p1.x);
      Some(Line(m, p2.y - m * p2.x))
  }

  function MakeSeg(p1: Pt, p2: Pt): Option<Seg> {
    match GetLineParams(p1, p2)
    case None => None
    case Some(l) => Some(Seg(Fabs(p2.x - p1.x), l.m, l.c, p1, p2))
  }

  /** The value of one envelope object. */
  datatype State = State(
    dir: Direction,
    segs: seq<Seg>,
    haveInit: bool,
    initPt: Pt,
    longest: nat,
    longestLen: real,
    measCount: nat
  ) {
    function GetLongestSeg(): Option<Seg> {
      if longest < |segs| then Some(segs[longest]) else None
    }

    function GetLineEstimate(): Line {
      match GetLongestSeg()
      case Some(s) => Line(s.m, s.c)
      case None => Line(0.0, initPt.y)
    }

    predicate IsStable() {
      measCount > 50
    }
  }

  function Empty(dir: Direction): State {
    State(dir, [], false, Pt(0.0, 0.0), 0, 0.0, 0)
  }

  function Appended(e: State, seg: Seg): State {
    var e1 := e.(segs := e.segs + [seg]);
    match e1.GetLongestSeg()
    case Some(l) =>
      if l.period < seg.period then e1.(longest := |e1.segs| - 1, longestLen := seg.period)
      else e1
    case None => e1.(longest := 0, longestLen := seg.period)
  }

  predicate MayMerge(dir: Direction, seg1: Seg, seg2: Seg) {
    match dir
    case Above => seg2.m >= seg1.m
    case Below => seg2.m <= seg1.m
  }

  /** `MergeLastSeg`: the new state and whether two segments became one. */
  function MergedLast(e: State): (State, bool) {
    var n := |e.segs|;
    if n < 2 then (e, false)
    else
      var seg1, seg2 := e.segs[n - 2], e.segs[n - 1];
      if !MayMerge(e.dir, seg1, seg2) then (e, false)
      else
        var e1 := if e.longest >= n - 1 then e.(longestLen := 0.0) else e;
        match MakeSeg(seg1.p1, seg2.p2)
        case None => (e1, false)
        case Some(s) =>
          var merged := s.(period := seg1.period + seg2.period);
          var e2 := e1.(segs := e1.segs[..n - 2] + [merged]);
          (if merged.period > e1.longestLen
           then e2.(longest := n - 2, longestLen := merged.period)
           else e2, true)
  }

  /** Appending in the fields of any state: the new segment takes the index if the one named is shorter,
      or if the index names none. */
  lemma AppendMeans(e: State, seg: Seg)
    ensures var e', all := Appended(e, seg), e.segs + [seg];
            && e'.segs == all && e' == e.(segs := all, longest := e'.longest, longestLen := e'.longestLen)
            && (e.longest > |e.segs| ==> e'.longest == 0 && e'.longestLen == seg.period)
            && (e.longest <= |e.segs| && all[e.longest].period < seg.period ==>
                  e'.longest == |e.segs| && e'.longestLen == seg.period)
            && (e.longest <= |e.segs| && all[e.longest].period >= seg.period ==>
                  e'.longest == e.longest && e'.longestLen == e.longestLen)
  {
  }

  /** Merging in the fields of any state: the last two segments become one if the last does not turn the
      way the envelope bends and the two together take any time; the cached length is given up first if
      the index names the last of them, and the pair takes the index if it is longer than what is
      cached then. */
  lemma MergeMeans(e: State)
    ensures var n, (e', merged) := |e.segs|, MergedLast(e);
            if n < 2 then e' == e && !merged
            else
              var a, b := e.segs[n - 2], e.segs[n - 1];
              var straight := if e.dir == Above then b.m >= a.m else b.m <= a.m;
              var known := if straight && e.longest >= n - 1 then 0.0 else e.longestLen;
              && (merged <==> straight && b.p2.x != a.p1.x)
              && (!merged ==> e' == e.(longestLen := known))
              && (merged ==>
                    && |e'.segs| == n - 1 && e'.segs[..n - 2] == e.segs[..n - 2]
                    && e'.segs[n - 2].p1 == a.p1 && e'.segs[n - 2].p2 == b.p2
                    && e'.segs[n - 2].period == a.period + b.period
                    && (a.period + b.period > known ==> e'.longest == n - 2 && e'.longestLen == a.period + b.period)
                    && (a.period + b.period <= known ==> e'.longest == e.longest && e'.longestLen == known))
  {
  }

  /** Appending and merging only ever touch the segments and the cache. */
  predicate SameInput(a: State, b: State) {
    a.dir == b.dir && a.haveInit == b.haveInit && a.initPt == b.initPt && a.measCount == b.measCount
  }

  lemma AppendKeeps(e: State, seg: Seg)
    ensures SameInput(e, Appended(e, seg))
    ensures Appended(e, seg).segs == e.segs + [seg]
  {
  }

  lemma MergeKeeps(e: State)
    ensures SameInput(e, MergedLast(e).0)
    ensures |MergedLast(e).0.segs| == if MergedLast(e).1 then |e.segs| - 1 else |e.segs|
  {
  }

  /** The loop of `AddPoint` that merges for as long as merging is possible. */
  function MergedAll(e: State): State
    decreases |e.segs|
  {
    if |e.segs| > 1 then
      var (e', merged) := MergedLast(e);
      if merged then MergedAll(e') else e'
    else e
  }

  function WithPoint(e: State, x: real, y: real): (State, bool) {
    var pt := Pt(x, y);
    if |e.segs| == 0 && !e.haveInit then (e.(initPt := pt, haveInit := true), true)
    else if !e.haveInit then (e, false)
    else
      match MakeSeg(e.initPt, pt)
      case None => (e, false)
      case Some(seg) =>
        var e1 := MergedAll(Appended(e, seg));
        (e1.(initPt := pt, measCount := e1.measCount + 1), true)
  }

  // ------------------------------------------------------------------- crop

  predicate CropGuard(e: State) {
    |e.segs| > 0 && e.longest > 0
  }

  /** One turn of the loop in `CropFrontBefore`; a recent front segment makes it do nothing. */
  function CropTurn(e: State, xMin: real): State
    requires CropGuard(e)
  {
    if e.segs[0].p2.x < xMin then e.(segs := e.segs[1..], longest := e.longest - 1) else e
  }

  function CropTurns(e: State, xMin: real, n: nat): State
    decreases n
  {
    if n == 0 || !CropGuard(e) then e else CropTurns(CropTurn(e, xMin), xMin, n - 1)
  }

  /** The loop leaves off after some number of turns. */
  ghost predicate CropExits(e: State, xMin: real) {
    exists n: nat :: !CropGuard(CropTurns(e, xMin, n))
  }

  /** What stands in front of the longest segment. */
  function InFront(e: State): nat {
    if e.longest <= |e.segs| then e.longest else |e.segs|
  }

  /** Every segment in front of the longest one ends before the cutoff. */
  predicate FrontIsOld(e: State, xMin: real) {
    forall i :: 0 <= i < InFront(e) ==> e.segs[i].p2.x < xMin
  }

  function Cropped(e: State): State {
    e.(segs := e.segs[InFront(e)..], longest := e.longest - InFront(e))
  }

  lemma {:induction false} CropTurnsOldFront(e: State, xMin: real)
    requires FrontIsOld(e, xMin)
    ensures CropTurns(e, xMin, InFront(e)) == Cropped(e) && !CropGuard(Cropped(e))
    decreases e.longest
  {
    if CropGuard(e) {
      var e1 := CropTurn(e, xMin);
      assert forall i :: 0 <= i < InFront(e1) ==> e1.segs[i] == e.segs[i + 1];
      CropTurnsOldFront(e1, xMin);
      assert Cropped(e1).segs == Cropped(e).segs;
    } else {
      assert InFront(e) == 0 && e.segs[0..] == e.segs;
    }
  }

  lemma {:induction false} CropTurnsRecentFront(e: State, xMin: real, n: nat)
    requires !FrontIsOld(e, xMin)
    ensures CropGuard(CropTurns(e, xMin, n))
    decreases n
  {
    if n > 0 {
      var e1 := CropTurn(e, xMin);
      var i :| 0 <= i < InFront(e) && !(e.segs[i].p2.x < xMin);
      if e1 != e {
        assert e1.segs[i - 1] == e.segs[i];
      }
      CropTurnsRecentFront(e1, xMin, n - 1);
    }
  }

  /** `CropFrontBefore` comes back exactly when all segments before the longest are old, and
      then it has dropped those and nothing else. */
  lemma {:induction false} CropExitsExactly(e: State, xMin: real)
    ensures CropExits(e, xMin) <==> FrontIsOld(e, xMin)
    ensures FrontIsOld(e, xMin) ==> CropTurns(e, xMin, InFront(e)) == Cropped(e)
  {
    if FrontIsOld(e, xMin) {
      CropTurnsOldFront(e, xMin);
    } else {
      forall n: nat ensures CropGuard(CropTurns(e, xMin, n)) {
        CropTurnsRecentFront(e, xMin, n);
      }
    }
  }

  // -------------------------------------------------------------- the object

  class ConvexEnvelope {
    var segs: seq<Seg>
    var haveInitPt: bool
    var initPt: Pt
    var longestSegId: nat
    var longestSegLen: real
    const direction: Direction
    var measCount: nat

    function Value(): State
      reads this
    {
      State(direction, segs, haveInitPt, initPt, longestSegId, longestSegLen, measCount)
    }

    constructor (aboveOrBelow: Direction)
      ensures Value() == Empty(aboveOrBelow)
    {
      segs := [];
      haveInitPt := false;
      initPt := Pt(0.0, 0.0);
      longestSegId := 0;
      longestSegLen := 0.0;
      direction := aboveOrBelow;
      measCount := 0;
    }

    method Reset()
      modifies this
      ensures Value() == Empty(direction)
    {
      segs := [];
      haveInitPt := false;
      initPt := Pt(0.0, 0.0);
      longestSegId := 0;
      longestSegLen := 0.0;
      measCount := 0;
    }

    method AppendSeg(seg: Seg)
      modifies this
      ensures Value() == Appended(old(Value()), seg)
    {
      segs := segs + [seg];
      if longestSegId < |segs| {
        if segs[longestSegId].period < seg.period {
          longestSegId := |segs| - 1;
          longestSegLen := seg.period;
        }
      } else {
        longestSegId := 0;
        longestSegLen := seg.period;
      }
    }

    method MergeLastSeg() returns (merged: bool)
      modifies this
      ensures (Value(), merged) == MergedLast(old(Value()))
    {
      var n := |segs|;
      if n < 2 {
        return false;
      }
      var seg1, seg2 := segs[n - 2], segs[n - 1];
      if direction == Above {
        if seg2.m < seg1.m {
          return false;
        }
      } else {
        if seg2.m > seg1.m {
          return false;
        }
      }
      if longestSegId >= n - 1 {
        longestSegLen := 0.0;
      }
      var made := MakeSeg(seg1.p1, seg2.p2);
      if made.None? {
        return false;
      }
      var mergedSeg := made.value.(period := seg1.period + seg2.period);
      segs := segs[..n - 2];
      segs := segs + [mergedSeg];
      if mergedSeg.period > longestSegLen {
        longestSegId := |segs| - 1;
        longestSegLen := mergedSeg.period;
      }
      return true;
    }

    method AddPoint(x: real, y: real) returns (accepted: bool)
      modifies this
      ensures (Value(), accepted) == WithPoint(old(Value()), x, y)
    {
      hide Appended, MakeSeg, MergedLast;
      var pt := Pt(x, y);
      if |segs| == 0 && !haveInitPt {
        initPt := pt;
        haveInitPt := true;
        return true;
      }
      if !haveInitPt {
        return false;
      }
      var seg := MakeSeg(initPt, pt);
      if seg.None? {
        return false;
      }
      AppendKeeps(Value(), seg.value);
      AppendSeg(seg.value);
      var merged := true;
      ghost var appended := Value();
      while |segs| > 1 && merged
        invariant initPt == old(initPt) && haveInitPt
        invariant merged ==> MergedAll(Value()) == MergedAll(appended)
        invariant !merged ==> Value() == MergedAll(appended)
        decreases merged, |segs|
      {
        MergeKeeps(Value());
        merged := MergeLastSeg();
      }
      initPt := pt;
      measCount := measCount + 1;
      return true;
    }

    /** Where the source's loop would turn for ever this one stops and says so. */
    method CropFrontBefore(xMin: real) returns (exits: bool)
      modifies this
      ensures exits <==> CropExits(old(Value()), xMin)
      ensures exits ==> Value() == Cropped(old(Value()))
    {
      hide CropExits, CropTurns, Cropped, FrontIsOld;
      CropExitsExactly(Value(), xMin);
      ghost var start := Value();
      while |segs| > 0 && longestSegId > 0
        invariant FrontIsOld(start, xMin) <==> FrontIsOld(Value(), xMin)
        invariant Cropped(Value()) == Cropped(start)
        decreases longestSegId
      {
        if segs[0].p2.x < xMin {
          ghost var before := Value();
          segs := segs[1..];
          longestSegId := longestSegId - 1;
          CropOnce(before, xMin);
        } else {
          NoMoreTurns(Value(), xMin);
          return false;
        }
      }
      NothingToCrop(Value(), xMin);
      return true;
    }
  }

  lemma NothingToCrop(e: State, xMin: real)
    requires !CropGuard(e)
    ensures FrontIsOld(e, xMin) && Cropped(e) == e
  {
    assert e.segs[0..] == e.segs;
  }

  lemma NoMoreTurns(e: State, xMin: real)
    requires CropGuard(e) && !(e.segs[0].p2.x < xMin)
    ensures !FrontIsOld(e, xMin)
  {
  }

  lemma {:induction false} CropOnce(e: State, xMin: real)
    requires CropGuard(e) && e.segs[0].p2.x < xMin
    ensures FrontIsOld(e, xMin) <==> FrontIsOld(CropTurn(e, xMin), xMin)
    ensures Cropped(CropTurn(e, xMin)) == Cropped(e)
  {
    var e1 := CropTurn(e, xMin);
    assert Cropped(e1).segs == Cropped(e).segs;
    assert forall i :: 0 <= i < InFront(e1) ==> e1.segs[i] == e.segs[i + 1];
    if FrontIsOld(e1, xMin) {
      forall i | 0 <= i < InFront(e) ensures e.segs[i].p2.x < xMin {
        if i > 0 {
          assert e.segs[i] == e1.segs[i - 1];
        }
      }
    }
  }
}
