/** The clock correction a client keeps: each exchange with the server measures the skew, and a
    tenth of the measurement is blended in. A skew of exactly zero counts as not yet known. */
module ClientSkew {

  /** One exchange: sent, stamped by the server, received. */
  datatype Exchange = Exchange(rq: real, tx: real, rx: real)

  function MeasuredSkew(x: Exchange): real {
    0.5 * ((x.tx - x.rx) + (x.tx - x.rq))
  }

  function NewSkew(old_: real, x: Exchange): real {
    if old_ != 0.0 then 0.9 * old_ + 0.1 * MeasuredSkew(x) else MeasuredSkew(x)
  }

  /** The skew after some exchanges. */
  function SkewAfter(start: real, xs: seq<Exchange>): real {
    if xs == [] then start else NewSkew(SkewAfter(start, xs[..|xs| - 1]), xs[|xs| - 1])
  }

  class Clock {
    var correction: real

    constructor (skew: real)
      ensures correction == skew
    {
      correction := skew;
    }

    method UpdateMOOSSkew(rq: real, tx: real, rx: real)
      modifies this
      ensures correction == NewSkew(old(correction), Exchange(rq, tx, rx))
    {
      var oldSkew := correction;
      var measuredA := tx - rx;
      var measuredB := tx - rq;
      var measured := 0.5 * (measuredA + measuredB);
      var newSkew;
      if oldSkew != 0.0 {
        newSkew := 0.9 * oldSkew + 0.1 * measured;
      } else {
        newSkew := measured;
      }
      correction := newSkew;
    }
  }

  function Abs(x: real): real {
    if x < 0.0 then -x else x
  }

  /** The share of the starting error left after `n` exchanges. */
  function Share(n: nat): real {
    if n == 0 then 1.0 else 0.9 * Share(n - 1)
  }

  /** The server's clock is ahead by `b`: by it, the stamp was made between sending and receiving,
      and the round trip took at most `w`. */
  predicate Honest(x: Exchange, b: real, w: real) {
    x.rq <= x.tx - b <= x.rx && x.rx - x.rq <= w
  }

  /** A measurement is off by at most half the round trip. */
  lemma MeasuredWithin(x: Exchange, b: real, w: real)
    requires Honest(x, b, w)
    ensures Abs(MeasuredSkew(x) - b) <= w / 2.0
  {
  }

  lemma BlendWithin(old_: real, x: Exchange, b: real, e: real, d: real)
    requires Abs(MeasuredSkew(x) - b) <= e && Abs(old_ - b) <= e + d && d >= 0.0
    ensures Abs(NewSkew(old_, x) - b) <= e + 0.9 * d
  {
    hide MeasuredSkew;
  }

  /** After `n` honest exchanges the skew is within half a round trip of the truth, but for a
      share 0.9^n of the error it started with. */
  lemma {:induction false} SkewConverges(start: real, xs: seq<Exchange>, b: real, w: real)
    requires w >= 0.0 && forall i :: 0 <= i < |xs| ==> Honest(xs[i], b, w)
    ensures Share(|xs|) >= 0.0
    ensures Abs(SkewAfter(start, xs) - b) <= w / 2.0 + Share(|xs|) * Abs(start - b)
  {
    hide Honest, NewSkew, MeasuredSkew;
    if xs == [] {
    } else {
      var n := |xs| - 1;
      SkewConverges(start, xs[..n], b, w);
      MeasuredWithin(xs[n], b, w);
      var d := Share(n) * Abs(start - b);
      NotNegative(Share(n), Abs(start - b));
      BlendWithin(SkewAfter(start, xs[..n]), xs[n], b, w / 2.0, d);
      assert Share(|xs|) * Abs(start - b) == 0.9 * d;
    }
  }

  lemma NotNegative(a: real, b: real)
    ensures a >= 0.0 && b >= 0.0 ==> a * b >= 0.0
  {
  }

  /** A correction of zero, the one a client starts with, is not blended but replaced by the skew
      measured, the server's stamp less the middle of the exchange; any other moves a tenth of the
      way there. */
  lemma LastExchange(start: real, xs: seq<Exchange>, x: Exchange)
    ensures var before, after, middle := SkewAfter(start, xs), SkewAfter(start, xs + [x]), x.tx - (x.rq + x.rx) / 2.0;
            if before == 0.0 then after == middle else after - middle == 0.9 * (before - middle)
  {
    assert (xs + [x])[..|xs|] == xs;
  }

  /** So a client that starts with no correction is within half a round trip of the truth after its
      first honest exchange, and stays so. */
  lemma {:induction false} FirstExchangeSuffices(xs: seq<Exchange>, b: real, w: real)
    requires xs != [] && forall i :: 0 <= i < |xs| ==> Honest(xs[i], b, w)
    ensures Abs(SkewAfter(0.0, xs) - b) <= w / 2.0
  {
    var n := |xs| - 1;
    assert xs == xs[..n] + [xs[n]];
    LastExchange(0.0, xs[..n], xs[n]);
    if n == 0 {
      assert SkewAfter(0.0, xs[..n]) == 0.0;
    } else {
      FirstExchangeSuffices(xs[..n], b, w);
    }
    hide SkewAfter;
  }

  /** With the same measurement each time, and as long as the skew does not happen to pass through
      zero, the error shrinks by exactly a tenth each time. */
  lemma {:induction false} ErrorDecays(start: real, xs: seq<Exchange>, m: real)
    requires forall i :: 0 <= i < |xs| ==> MeasuredSkew(xs[i]) == m && SkewAfter(start, xs[..i]) != 0.0
    ensures SkewAfter(start, xs) - m == Share(|xs|) * (start - m)
  {
    hide MeasuredSkew, NewSkew;
    if xs == [] {
      assert SkewAfter(start, xs) - m == Share(0) * (start - m);
    } else {
      var n := |xs| - 1;
      forall i | 0 <= i < n ensures SkewAfter(start, xs[..n][..i]) != 0.0 {
        assert xs[..n][..i] == xs[..i];
      }
      ErrorDecays(start, xs[..n], m);
      OneDecay(SkewAfter(start, xs[..n]), xs[n], m, Share(n), start - m, Share(|xs|));
    }
  }

  lemma OneDecay(skew: real, x: Exchange, m: real, share: real, d: real, next: real)
    requires MeasuredSkew(x) == m && skew != 0.0 && skew - m == share * d && next == 0.9 * share
    ensures NewSkew(skew, x) - m == next * d
  {
    hide MeasuredSkew;
    assert (0.9 * share) * d == 0.9 * (share * d);
  }
}
