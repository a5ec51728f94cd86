/** What an asynchronous client's writer does: it sends what is in the list, in order, and learns from the
    list that the reader has gone. */
module Goodbyes {
  import opened Messages
  import opened DbState
  import D = DbInvariants
  import opened CommServer
  import opened CommServerInvariants
  import opened CommServerTheorems

  function Marks(ps: seq<Downward>): nat {
    if ps == [] then 0 else Marks(ps[..|ps| - 1]) + if ps[|ps| - 1].CloseMark? then 1 else 0
  }

  lemma {:induction false} MarksAdd(a: seq<Downward>, b: seq<Downward>)
    ensures Marks(a + b) == Marks(a) + Marks(b)
    decreases |b|
  {
    if b == [] {
      assert a + b == a;
    } else {
      var n := |b| - 1;
      MarksAdd(a, b[..n]);
      assert (a + b)[..|a| + n] == a + b[..n];
    }
  }

  lemma OneMark(p: Downward)
    ensures Marks([p]) == if p.CloseMark? then 1 else 0
  {
    assert [p][..0] == [];
  }

  /** An asynchronous client's list has had the mark once if its reader hung up and never otherwise, and
      a writer that goes on has not met it. */
  predicate Marked(t: ClientThread) {
    t.async ==>
      && Marks(t.taken) + Marks(t.outgoing) == (if t.reader.Dead? then 1 else 0)
      && (t.writing ==> Marks(t.taken) == 0)
  }

  lemma NewMarked(t: ClientThread)
    requires t.reader.Idle? && t.outgoing == [] && t.taken == []
    ensures Marked(t)
  {
  }

  lemma HangUpMarked(t: ClientThread)
    requires Marked(t) && t.reader.Idle?
    ensures Marked(AfterHangUp(t))
  {
    hide Marks;
    MarksAdd(t.outgoing, [CloseMark]);
    OneMark(CloseMark);
  }

  lemma WriteMarked(t: ClientThread, sendOk: bool)
    requires Marked(t) && t.writing && t.outgoing != []
    ensures Marked(AfterWrite(t, sendOk))
  {
    hide Marks;
    var p := t.outgoing[0];
    MarksAdd(t.taken, [p]);
    MarksAdd([p], t.outgoing[1..]);
    assert t.outgoing == [p] + t.outgoing[1..];
    OneMark(p);
  }

  lemma PushMarked(t: ClientThread, p: Downward)
    requires Marked(t) && p.PktWrite?
    ensures Marked(PushedUnlessEmpty(t, p))
  {
    hide Marks;
    MarksAdd(t.outgoing, [p]);
    OneMark(p);
  }

  ghost predicate AllMarked(s: Server) {
    forall c :: c in s.threads ==> Marked(s.threads[c])
  }

  lemma ConnectMarked(s: Server, a: Action)
    requires Inv(s) && AllMarked(s) && a.Connect? && Enabled(s, a)
    ensures AllMarked(Step(s, a))
  {
    hide D.Inv, Queues, Round, Registry, Notified, UniqueName, Marked, Consolidation, Connected;
    if UniqueName(s, a.name) {
      RegistryConnect(s, a.fd, a.name, a.wantsAsync);
      ConnectedShape(s, a.fd, a.name, a.wantsAsync, a.announcement, a.inRound);
      NewMarked(Step(s, a).threads[a.name]);
    } else {
      TurnedAway(s, a);
    }
  }

  lemma TakingMarked(s: Server, c: string, sendOk: bool)
    requires AllMarked(s) && c in s.threads && !s.threads[c].async && s.threads[c].outgoing != []
    ensures AllMarked(ReplyTaken(s, c, sendOk))
  {
    hide Marks;
  }

  lemma StepMarked(s: Server, a: Action)
    requires Inv(s) && AllMarked(s)
    ensures AllMarked(Next(s, a))
  {
    hide D.Inv, Queues, Round, Registry, Notified, PacketReceived, MailFetched, Disconnected, HasNotify, WorkFor,
         UniqueName, Connected, Marks, AfterHangUp, AfterWrite, PushedUnlessEmpty, Head;
    if Enabled(s, a) {
      match a
      case Connect(_, _, _, _, _) => ConnectMarked(s, a);
      case Read(c, msgs) =>
      case HangUp(c) => HangUpMarked(s.threads[c]);
      case SelectFails(c) =>
      case TakeReply(c, sendOk) =>
        WaitingIsSynchronous(s, c);
        TakingMarked(s, c, sendOk);
      case Write(c, sendOk) => WriteMarked(s.threads[c], sendOk);
      case Pull =>
      case Serve(w) =>
        InHandIsKnown(s);
        var c, msgs := s.phase.item.who, s.phase.item.msgs;
        PushMarked(s.threads[c], PktWrite(Head(s.threads[c], msgs, w.clock),
                                          PacketReceived(s.db, c, w.arrivals, w.own).1, w.replies));
      case Offer(c) => PushMarked(s.threads[c], PktWrite([], MailFetched(s.db, c).1, []));
      case EndRound =>
      case Depart(_) =>
    }
  }

  lemma WaitingIsSynchronous(s: Server, c: string)
    requires Inv(s) && c in s.threads && s.threads[c].reader.Waiting?
    ensures !s.threads[c].async
  {
    hide D.Inv, Registry, Round, Of, Line, Lockstep, InReadOrder;
    ItsQueue(s, c);
  }

  /** In every reachable state: the reader of an asynchronous client has hung up if and only if the mark
      is in the client's list, or has been taken off it, once; and once it is taken the writer has
      stopped. */
  lemma {:induction false} GoodbyeReachesWriter(community: string, t: real, timing: Timing, actions: seq<Action>)
    ensures var s := Run(Start(Initial(community, t), timing), actions);
            Inv(s) && AllMarked(s)
  {
    hide Inv, Next, Initial;
    var start := Start(Initial(community, t), timing);
    if actions == [] {
      D.InitialInv(community, t);
      StartInv(Initial(community, t), timing);
    } else {
      var n := |actions| - 1;
      GoodbyeReachesWriter(community, t, timing, actions[..n]);
      StepInv(Run(start, actions[..n]), actions[n]);
      StepMarked(Run(start, actions[..n]), actions[n]);
    }
  }

  /** `k` turns of the writer of `c`, sending going well. */
  function Turns(c: string, k: nat): seq<Action> {
    if k == 0 then [] else Turns(c, k - 1) + [Write(c, true)]
  }

  /** Left to itself a writer takes what is in front of its list, packet by packet, until the list is
      empty or it meets the mark; it touches nothing else. */
  lemma {:induction false} WriterTakesInOrder(s: Server, c: string, k: nat)
    requires c in s.threads && s.threads[c].async && s.threads[c].writing && k <= |s.threads[c].outgoing|
    requires forall i :: 0 <= i < k ==> s.threads[c].outgoing[i].PktWrite?
    ensures var t := s.threads[c];
            Run(s, Turns(c, k)) ==
            s.(threads := s.threads[c := t.(outgoing := t.outgoing[k..], taken := t.taken + t.outgoing[..k])])
  {
    hide Turns;
    var t := s.threads[c];
    if k == 0 {
      NoTurns(c);
      assert t.outgoing[0..] == t.outgoing && t.taken + t.outgoing[..0] == t.taken;
      assert s.threads[c := t] == s.threads;
    } else {
      WriterTakesInOrder(s, c, k - 1);
      OneMoreTurn(s, c, k);
      assert t.outgoing[k - 1..][1..] == t.outgoing[k..];
      assert t.taken + t.outgoing[..k] == t.taken + t.outgoing[..k - 1] + [t.outgoing[k - 1]];
    }
  }

  lemma NoTurns(c: string)
    ensures Turns(c, 0) == []
  {
  }

  lemma OneMoreTurn(s: Server, c: string, k: nat)
    requires k > 0
    ensures Run(s, Turns(c, k)) == Next(Run(s, Turns(c, k - 1)), Write(c, true))
  {
    hide Next;
    assert (Turns(c, k - 1) + [Write(c, true)])[..|Turns(c, k - 1)|] == Turns(c, k - 1);
  }

  /** The mark, or a packet that cannot be sent, is the last thing a writer takes. */
  lemma WriterStops(s: Server, c: string, sendOk: bool)
    requires Enabled(s, Write(c, sendOk))
    ensures var t, t' := s.threads[c], Step(s, Write(c, sendOk)).threads[c];
            && t'.writing == (sendOk && t.outgoing[0] != CloseMark)
            && t'.taken == t.taken + [t.outgoing[0]] && t.outgoing == [t.outgoing[0]] + t'.outgoing
  {
  }
}
