/** Moving the plane under an envelope: shifting all times by one amount and all offsets by
    another, or turning the offsets upside down, moves every state the envelope goes through in
    the same way. The shift is what the conditioned skew filter relies on; the flip turns every
    fact about the upper envelope into one about the lower. */
module EnvelopeMotion {
  import opened Envelope

  datatype Motion = Motion(flip: bool, dx: real, dy: real) {
    function Sign(r: real): real {
      if flip then -r else r
    }

    function OnPt(p: Pt): Pt {
      Pt(p.x + dx, Sign(p.y) + dy)
    }

    function OnLine(l: Line): Line {
      Line(Sign(l.m), Sign(l.c) + dy - Sign(l.m) * dx)
    }

    function OnSeg(s: Seg): Seg {
      var l := OnLine(Line(s.m, s.c));
      Seg(s.period, l.m, l.c, OnPt(s.p1), OnPt(s.p2))
    }

    function OnSegs(segs: seq<Seg>): seq<Seg> {
      seq(|segs|, i requires 0 <= i < |segs| => OnSeg(segs[i]))
    }

    function OnDirection(d: Direction): Direction {
      if flip then (if d == Above then Below else Above) else d
    }

    /** Before the first point there is nothing to move: the placeholder stays at the origin. */
    function OnState(e: State): State {
      State(OnDirection(e.dir), OnSegs(e.segs), e.haveInit,
            if e.haveInit then OnPt(e.initPt) else e.initPt, e.longest, e.longestLen, e.measCount)
    }
  }

  lemma {:induction false} QuotientOf(a: real, b: real, q: real)
    requires b != 0.0 && q * b == a
    ensures q == a / b
  {
  }

  lemma {:induction false} SlopeMoves(t: Motion, p1: Pt, p2: Pt)
    requires p1.x != p2.x
    ensures var q1, q2 := t.OnPt(p1), t.OnPt(p2);
            (q2.y - q1.y) / (q2.x - q1.x) == t.Sign((p2.y - p1.y) / (p2.x - p1.x))
  {
    var q1, q2 := t.OnPt(p1), t.OnPt(p2);
    var m := (p2.y - p1.y) / (p2.x - p1.x);
    assert m * (p2.x - p1.x) == p2.y - p1.y;
    assert q2.x - q1.x == p2.x - p1.x;
    assert (-m) * (q2.x - q1.x) == -(m * (p2.x - p1.x));
    QuotientOf(q2.y - q1.y, q2.x - q1.x, t.Sign(m));
  }

  lemma {:induction false} InterceptMoves(t: Motion, m: real, g: real, p: Pt)
    requires g == t.Sign(m)
    ensures t.OnLine(Line(m, p.y - m * p.x)) == Line(g, t.OnPt(p).y - g * t.OnPt(p).x)
  {
    assert g * (p.x + t.dx) == g * p.x + g * t.dx;
    assert (-m) * p.x == -(m * p.x);
  }

  lemma {:induction false} MakeSegMoves(t: Motion, p1: Pt, p2: Pt)
    ensures MakeSeg(t.OnPt(p1), t.OnPt(p2)) ==
            match MakeSeg(p1, p2) case None => None case Some(s) => Some(t.OnSeg(s))
  {
    if p1.x != p2.x {
      SlopeMoves(t, p1, p2);
      var m := (p2.y - p1.y) / (p2.x - p1.x);
      var q1, q2 := t.OnPt(p1), t.OnPt(p2);
      InterceptMoves(t, m, (q2.y - q1.y) / (q2.x - q1.x), p2);
      assert q2.x - q1.x == p2.x - p1.x;
      assert GetLineParams(q1, q2).value == t.OnLine(GetLineParams(p1, p2).value);
    }
  }

  lemma {:induction false} AppendedMoves(t: Motion, e: State, seg: Seg)
    ensures Appended(t.OnState(e), t.OnSeg(seg)) == t.OnState(Appended(e, seg))
  {
    assert t.OnSegs(e.segs + [seg]) == t.OnSegs(e.segs) + [t.OnSeg(seg)];
  }

  lemma {:induction false} MergedLastMoves(t: Motion, e: State)
    ensures MergedLast(t.OnState(e)) == (t.OnState(MergedLast(e).0), MergedLast(e).1)
  {
    var n := |e.segs|;
    if n >= 2 {
      var seg1, seg2 := e.segs[n - 2], e.segs[n - 1];
      MakeSegMoves(t, seg1.p1, seg2.p2);
      if MakeSeg(seg1.p1, seg2.p2).Some? {
        var s := MakeSeg(seg1.p1, seg2.p2).value.(period := seg1.period + seg2.period);
        assert t.OnSegs(e.segs[..n - 2] + [s]) == t.OnSegs(e.segs)[..n - 2] + [t.OnSeg(s)];
      }
    }
  }

  lemma {:induction false} MergedAllMoves(t: Motion, e: State)
    ensures MergedAll(t.OnState(e)) == t.OnState(MergedAll(e))
    decreases |e.segs|
  {
    hide t.OnSeg, MakeSeg;
    if |e.segs| > 1 {
      MergedLastMoves(t, e);
      MergeKeeps(e);
      MergeKeeps(t.OnState(e));
      if MergedLast(e).1 {
        MergedAllMoves(t, MergedLast(e).0);
      }
    }
  }

  lemma {:induction false} MergedAllKeeps(e: State)
    ensures SameInput(e, MergedAll(e))
    decreases |e.segs|
  {
    hide MergedLast;
    if |e.segs| > 1 {
      MergeKeeps(e);
      if MergedLast(e).1 {
        MergedAllKeeps(MergedLast(e).0);
      }
    }
  }

  /** Adding the moved point to the moved envelope gives the moved result, accepted or not. */
  lemma {:induction false} WithPointMoves(t: Motion, e: State, p: Pt)
    requires !e.haveInit ==> e.segs == []
    ensures var q := t.OnPt(p);
            WithPoint(t.OnState(e), q.x, q.y) ==
            (t.OnState(WithPoint(e, p.x, p.y).0), WithPoint(e, p.x, p.y).1)
    ensures var e' := WithPoint(e, p.x, p.y).0; e'.haveInit && e'.dir == e.dir
  {
    if e.haveInit {
      MakeSegMoves(t, e.initPt, p);
      var made := MakeSeg(e.initPt, p);
      if made.Some? {
        hide Appended, MakeSeg;
        AppendedMoves(t, e, made.value);
        AppendKeeps(e, made.value);
        var e1 := Appended(e, made.value);
        MergedAllMoves(t, e1);
        MergedAllKeeps(e1);
        MergedAllKeeps(t.OnState(e1));
      }
    } else {
      assert t.OnSegs([]) == [];
    }
  }

  lemma {:induction false} LineEstimateMoves(t: Motion, e: State)
    requires e.haveInit
    ensures t.OnState(e).GetLineEstimate() == t.OnLine(e.GetLineEstimate())
  {
    assert t.Sign(0.0) == 0.0;
  }

  lemma {:induction false} LineValueMoves(t: Motion, l: Line, x: real)
    ensures t.OnLine(l).At(x + t.dx) == t.Sign(l.At(x)) + t.dy
  {
    var g := t.Sign(l.m);
    assert g * (x + t.dx) == g * x + g * t.dx;
    assert (-l.m) * x == -(l.m * x);
  }

  lemma {:induction false} CropMoves(t: Motion, e: State, xMin: real)
    ensures CropExits(t.OnState(e), xMin + t.dx) <==> CropExits(e, xMin)
    ensures Cropped(t.OnState(e)) == t.OnState(Cropped(e))
  {
    CropExitsExactly(e, xMin);
    CropExitsExactly(t.OnState(e), xMin + t.dx);
    assert forall i :: 0 <= i < |e.segs| ==> t.OnState(e).segs[i].p2.x == e.segs[i].p2.x + t.dx;
    var n := InFront(e);
    assert t.OnSegs(e.segs)[n..] == t.OnSegs(e.segs[n..]);
  }
}
