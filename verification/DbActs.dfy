/** A run of the database taken apart into single acts, so that properties of runs can speak of the
    place of one message in a whole run. */
module DbActs {
  import opened DbState
  import opened DbInvariants

  /** A run taken apart: one message handled, one announcement made, mail handed out, or a client
      forgotten. */
  datatype Act =
    | Handle(a: Arrival)
    | Announce(a: Arrival)
    | HandOut(c: string)
    | HandOutIfAny(c: string)
    | Forget(c: string)

  function Done(s: State, act: Act): State {
    match act
    case Handle(a) => Processed(s, a)
    case Announce(a) => Notified(s, a.msg, a.now)
    case HandOut(c) => Drained(s, c)
    case HandOutIfAny(c) => Fetched(s, c)
    case Forget(c) => Forgotten(s, c)
  }

  function AllDone(s: State, acts: seq<Act>): State {
    if acts == [] then s else Done(AllDone(s, acts[..|acts| - 1]), acts[|acts| - 1])
  }

  function Handles(arrivals: seq<Arrival>): (acts: seq<Act>)
    ensures |acts| == |arrivals| && forall i :: 0 <= i < |acts| ==> acts[i] == Handle(arrivals[i])
  {
    seq(|arrivals|, i requires 0 <= i < |arrivals| => Handle(arrivals[i]))
  }

  function Acts(e: Event): seq<Act> {
    match e
    case Packet(c, arrivals, own) => Handles(arrivals) + Handles(own) + if arrivals == [] then [] else [HandOut(c)]
    case Fetch(c) => [HandOutIfAny(c)]
    case Connect(a) => [Announce(a)]
    case Disconnect(c, a) => [Forget(c), Announce(a)]
  }

  function ActsOf(es: seq<Event>): seq<Act> {
    if es == [] then [] else ActsOf(es[..|es| - 1]) + Acts(es[|es| - 1])
  }

  lemma {:induction false} DoneInTurn(s: State, first: seq<Act>, second: seq<Act>)
    ensures AllDone(s, first + second) == AllDone(AllDone(s, first), second)
    decreases |second|
  {
    hide Done;
    if second == [] {
      assert first + second == first;
    } else {
      var n := |second| - 1;
      DoneInTurn(s, first, second[..n]);
      assert (first + second)[..|first| + n] == first + second[..n];
    }
  }

  lemma {:induction false} HandlingIsProcessing(s: State, arrivals: seq<Arrival>)
    ensures AllDone(s, Handles(arrivals)) == ProcessedAll(s, arrivals)
  {
    hide Processed;
    if arrivals != [] {
      var n := |arrivals| - 1;
      HandlingIsProcessing(s, arrivals[..n]);
      assert Handles(arrivals)[..n] == Handles(arrivals[..n]);
    }
  }

  lemma OneAct(s: State, act: Act)
    ensures AllDone(s, [act]) == Done(s, act)
  {
    hide Done;
    assert [act][..0] == [];
    assert AllDone(s, []) == s;
  }

  lemma PacketIsActs(s: State, c: string, arrivals: seq<Arrival>, own: seq<Arrival>)
    ensures AllDone(s, Acts(Packet(c, arrivals, own))) == PacketReceived(s, c, arrivals, own).0
  {
    hide Handles, Drained, ProcessedAll, AllDone, Done;
    HandlingIsProcessing(s, arrivals);
    HandlingIsProcessing(ProcessedAll(s, arrivals), own);
    DoneInTurn(s, Handles(arrivals), Handles(own));
    var s2 := ProcessedAll(ProcessedAll(s, arrivals), own);
    if arrivals == [] {
      assert Handles(arrivals) + Handles(own) + [] == Handles(arrivals) + Handles(own);
    } else {
      DoneInTurn(s, Handles(arrivals) + Handles(own), [HandOut(c)]);
      HandOutIs(s2, c);
    }
  }

  lemma HandOutIs(s: State, c: string)
    ensures AllDone(s, [HandOut(c)]) == Drained(s, c)
  {
    OneAct(s, HandOut(c));
  }

  lemma StepIsActs(s: State, e: Event)
    ensures AllDone(s, Acts(e)) == Step(s, e)
  {
    hide PacketReceived, Notified, Forgotten, Fetched, Handles, AllDone;
    match e
    case Packet(c, arrivals, own) =>
      PacketIsActs(s, c, arrivals, own);
    case Fetch(c) =>
      OneAct(s, HandOutIfAny(c));
    case Connect(a) =>
      OneAct(s, Announce(a));
    case Disconnect(c, a) =>
      OneAct(s, Forget(c));
      OneAct(Forgotten(s, c), Announce(a));
      DoneInTurn(s, [Forget(c)], [Announce(a)]);
      assert Acts(e) == [Forget(c)] + [Announce(a)];
  }

  lemma {:induction false} RunIsActs(s: State, es: seq<Event>)
    ensures AllDone(s, ActsOf(es)) == Run(s, es)
  {
    hide Step, Acts;
    if es != [] {
      var n := |es| - 1;
      RunIsActs(s, es[..n]);
      DoneInTurn(s, ActsOf(es[..n]), Acts(es[n]));
      StepIsActs(Run(s, es[..n]), es[n]);
    }
  }

  lemma DoneInv(s: State, act: Act)
    requires Inv(s)
    ensures Inv(Done(s, act))
  {
    hide Inv, Processed, Notified, Drained, Forgotten;
    match act
    case Handle(a) => ProcessedInv(s, a);
    case Announce(a) => NotifiedInv(s, a.msg, a.now);
    case HandOut(c) => DrainedInv(s, c);
    case HandOutIfAny(c) => DrainedInv(s, c);
    case Forget(c) => ForgottenInv(s, c);
  }

  lemma {:induction false} ActsInv(s: State, acts: seq<Act>)
    requires Inv(s)
    ensures Inv(AllDone(s, acts))
  {
    hide Inv, Done;
    if acts != [] {
      ActsInv(s, acts[..|acts| - 1]);
      DoneInv(AllDone(s, acts[..|acts| - 1]), acts[|acts| - 1]);
    }
  }

  lemma AllDoneTo(s: State, acts: seq<Act>, n: nat)
    requires n < |acts|
    ensures AllDone(s, acts[..n + 1]) == Done(AllDone(s, acts[..n]), acts[n])
    ensures AllDone(s, acts) == AllDone(AllDone(s, acts[..n + 1]), acts[n + 1..])
  {
    hide Done;
    assert acts[..n + 1][..n] == acts[..n];
    assert acts == acts[..n + 1] + acts[n + 1..];
    DoneInTurn(s, acts[..n + 1], acts[n + 1..]);
  }
}
