/** What every interleaving of the server's threads keeps. */
module CommServerInvariants {
  import opened Messages
  import opened DbState
  import D = DbInvariants
  import opened CommServer

  // ------------------------------------------------------------------------ the invariants

  /** What the readers have handed over and the server thread has not finished with. */
  function Line(s: Server): seq<Upward> {
    (if s.phase.InHand? then [s.phase.item] else []) + s.shared
  }

  /** The part of the line that client `c` put there. */
  function Of(c: string, line: seq<Upward>): seq<Upward> {
    if line == [] then []
    else (if line[0].who == c then [line[0]] else []) + Of(c, line[1..])
  }

  /** The running threads and the names in the socket map are the same, one socket each. */
  predicate Registry(s: Server) {
    && (forall c :: c in s.threads ==>
          && s.threads[c].fd in s.socket2Client && s.socket2Client[s.threads[c].fd] == c
          && (c in s.asyncClients <==> s.threads[c].async))
    && (forall fd :: fd in s.socket2Client ==>
          s.socket2Client[fd] in s.threads && s.threads[s.socket2Client[fd]].fd == fd)
    && s.asyncClients <= s.threads.Keys
  }

  /** A client's items in the line are the last packets read from it, in the order they were
      read, and then its goodbye, once, if its reader is dead. */
  predicate InReadOrder(c: string, t: ClientThread, up: seq<Upward>) {
    var k := |up| - if t.reader.Dead? then 1 else 0;
    && 0 <= k <= |t.read|
    && (forall i :: 0 <= i < k ==> up[i] == PktRead(c, t.read[|t.read| - k + i]))
    && (t.reader.Dead? ==> up[k] == ConnectionClosed(c))
  }

  predicate IsReply(p: Downward) {
    p.PktWrite? && |p.head| == 1 && p.head[0].msgType == MOOS_NULL_MSG
  }

  predicate AllReplies(ps: seq<Downward>) {
    forall i :: 0 <= i < |ps| ==> IsReply(ps[i])
  }

  predicate NoneEmpty(requests: seq<seq<Msg>>) {
    forall i :: 0 <= i < |requests| ==> requests[i] != []
  }

  /** Requests and replies alternate: the `i`-th packet taken off the list answers the `i`-th packet read, and a
      waiting client has its request with the server, or its reply in its list, or has asked
      nothing. */
  predicate Lockstep(c: string, t: ClientThread, up: seq<Upward>) {
    && AllReplies(t.taken) && AllReplies(t.outgoing)
    && if t.reader.Waiting? then
         var n := |t.read| - 1;
         && n == |t.taken| && NoneEmpty(t.read[..n])
         && ((up == [PktRead(c, t.read[n])] && t.outgoing == [])
             || (up == [] && t.read[n] != [] && |t.outgoing| == 1)
             || (up == [] && t.read[n] == [] && t.outgoing == []))
       else
         && |t.read| == |t.taken| && NoneEmpty(t.read) && t.outgoing == []
         && up == if t.reader.Dead? then [ConnectionClosed(c)] else []
  }

  predicate InOrder(c: string, t: ClientThread, up: seq<Upward>) {
    InReadOrder(c, t, up) && (if t.async then !t.reader.Waiting? else Lockstep(c, t, up))
  }

  ghost predicate Queues(s: Server) {
    && (forall c :: c in s.threads ==> InOrder(c, s.threads[c], Of(c, Line(s))))
    && (forall c :: c !in s.threads ==> Of(c, Line(s)) == [])
  }

  /** In an undisturbed round, an asynchronous client that had its turn has nothing held for it. */
  predicate Round(s: Server) {
    s.phase.Sweeping? ==>
      && s.phase.todo <= s.threads.Keys
      && (s.phase.undisturbed ==>
            forall c :: c in s.threads && s.threads[c].async && c !in s.phase.todo ==> Box(s.db.held, c) == [])
  }

  ghost predicate Inv(s: Server) {
    Registry(s) && Queues(s) && Round(s) && s.faults == [] && D.Inv(s.db)
  }

  // ------------------------------------------------------------------------------ the line

  lemma OfHead(c: string, line: seq<Upward>)
    ensures Of(c, []) == []
    ensures line != [] ==> Of(c, line) == (if line[0].who == c then [line[0]] else []) + Of(c, line[1..])
  {
  }

  lemma {:induction false} OfConcat(c: string, a: seq<Upward>, b: seq<Upward>)
    ensures Of(c, a + b) == Of(c, a) + Of(c, b)
  {
    hide Of;
    OfHead(c, a);
    OfHead(c, a + b);
    if a == [] {
      assert a + b == b;
    } else {
      OfConcat(c, a[1..], b);
      assert (a + b)[1..] == a[1..] + b;
      var head := if a[0].who == c then [a[0]] else [];
      assert head + (Of(c, a[1..]) + Of(c, b)) == head + Of(c, a[1..]) + Of(c, b);
    }
  }

  lemma OfOne(c: string, x: Upward)
    ensures Of(c, [x]) == if x.who == c then [x] else []
  {
  }

  lemma OfSnoc(c: string, line: seq<Upward>, x: Upward)
    ensures Of(c, line + [x]) == if x.who == c then Of(c, line) + [x] else Of(c, line)
  {
    OfConcat(c, line, [x]);
    OfOne(c, x);
  }

  lemma OfCons(c: string, x: Upward, line: seq<Upward>)
    ensures Of(c, [x] + line) == if x.who == c then [x] + Of(c, line) else Of(c, line)
  {
    OfConcat(c, [x], line);
    OfOne(c, x);
  }

  // ------------------------------------------------------------- what one client's threads do

  lemma ReadInOrder(c: string, t: ClientThread, up: seq<Upward>, msgs: seq<Msg>)
    requires InOrder(c, t, up) && t.reader.Idle?
    ensures InOrder(c, AfterRead(t, msgs), up + [PktRead(c, msgs)])
  {
    if !t.async {
      assert AfterRead(t, msgs).read[..|t.read|] == t.read;
    }
  }

  lemma HangUpInOrder(c: string, t: ClientThread, up: seq<Upward>)
    requires InOrder(c, t, up) && t.reader.Idle?
    ensures InOrder(c, AfterHangUp(t), up + [ConnectionClosed(c)])
  {
  }

  /** What a waiting reader takes is the reply, and nothing is left behind it. */
  lemma TakeInOrder(c: string, t: ClientThread, up: seq<Upward>)
    requires InOrder(c, t, up) && t.reader.Waiting? && t.outgoing != []
    ensures InOrder(c, AfterTake(t), up) && up == [] && !t.async && IsReply(t.outgoing[0])
            && AfterTake(t).outgoing == []
  {
    var n := |t.read| - 1;
    assert t.read == t.read[..n] + [t.read[n]];
  }

  lemma WriteInOrder(c: string, t: ClientThread, up: seq<Upward>, sendOk: bool)
    requires InOrder(c, t, up) && t.async && t.outgoing != []
    ensures InOrder(c, AfterWrite(t, sendOk), up)
  {
  }

  /** Taking the front item off leaves what was read later in the order it was read. */
  lemma ServeReadOrder(c: string, t: ClientThread, up: seq<Upward>, x: Upward)
    requires InReadOrder(c, t, [x] + up) && x.PktRead?
    ensures InReadOrder(c, t, up)
  {
    var all := [x] + up;
    assert all[0] == x;
    forall i | 0 <= i < |up| ensures up[i] == all[i + 1] {
    }
  }

  /** A synchronous client that is served is waiting with nothing in its list. */
  lemma ServeWaiting(c: string, t: ClientThread, up: seq<Upward>, msgs: seq<Msg>)
    requires Lockstep(c, t, [PktRead(c, msgs)] + up)
    ensures t.reader.Waiting? && t.read != [] && msgs == t.read[|t.read| - 1] && t.outgoing == [] && up == []
  {
    hide AllReplies, NoneEmpty;
    var all := [PktRead(c, msgs)] + up;
    assert all[0] == PktRead(c, msgs) && |all| == 1 + |up|;
  }

  lemma ServeLockstep(c: string, t: ClientThread, msgs: seq<Msg>, p: Downward)
    requires Lockstep(c, t, [PktRead(c, msgs)]) && IsReply(p)
    requires t.reader.Waiting? && t.read != [] && msgs == t.read[|t.read| - 1] && t.outgoing == []
    ensures if msgs == [] then Lockstep(c, t, []) else Lockstep(c, AfterPush(t, p), [])
  {
    hide NoneEmpty, IsReply;
    assert AfterPush(t, p).outgoing == [p];
    assert AllReplies([p]);
  }

  /** Serving a request of a synchronous client puts exactly one reply in its list, unless the
      request was empty. */
  lemma ServeInOrder(c: string, t: ClientThread, up: seq<Upward>, msgs: seq<Msg>, p: Downward)
    requires InOrder(c, t, [PktRead(c, msgs)] + up) && (!t.async ==> IsReply(p))
    ensures msgs != [] ==> InOrder(c, AfterPush(t, p), up)
    ensures msgs == [] || t.async ==> InOrder(c, t, up)
    ensures !t.async ==> t.reader.Waiting? && t.outgoing == [] && msgs == t.read[|t.read| - 1]
  {
    hide InReadOrder, Lockstep, IsReply;
    ServeReadOrder(c, t, up, PktRead(c, msgs));
    SameReadOrder(c, t, AfterPush(t, p), up);
    if !t.async {
      ServeWaiting(c, t, up, msgs);
      assert [PktRead(c, msgs)] + up == [PktRead(c, msgs)];
      ServeLockstep(c, t, msgs, p);
    }
  }

  lemma SameReadOrder(c: string, t: ClientThread, t': ClientThread, up: seq<Upward>)
    requires t'.reader == t.reader && t'.read == t.read
    ensures InReadOrder(c, t', up) == InReadOrder(c, t, up)
  {
  }

  // --------------------------------------------------------------------- one thread changes

  predicate SameClient(t: ClientThread, t': ClientThread) {
    t'.fd == t.fd && t'.async == t.async
  }

  lemma RegistryOneThread(s: Server, c: string, t': ClientThread)
    requires Registry(s) && c in s.threads && SameClient(s.threads[c], t')
    ensures Registry(WithThread(s, c, t'))
  {
  }

  /** One client's thread changes and, perhaps, one item of that client joins the line. */
  lemma QueuesOneThread(s: Server, s': Server, c: string, x: Upward, joins: bool)
    requires Queues(s) && c in s.threads && c in s'.threads && s'.threads == s.threads[c := s'.threads[c]]
    requires x.who == c && Line(s') == if joins then Line(s) + [x] else Line(s)
    requires var up := Of(c, Line(s)); InOrder(c, s'.threads[c], if joins then up + [x] else up)
    ensures Queues(s')
  {
    hide InOrder, Line;
    forall d ensures Of(d, Line(s')) == if d == c && joins then Of(d, Line(s)) + [x] else Of(d, Line(s)) {
      if joins {
        OfSnoc(d, Line(s), x);
      }
    }
    forall d | d in s'.threads ensures InOrder(d, s'.threads[d], Of(d, Line(s'))) {
      if d != c {
        assert s'.threads[d] == s.threads[d];
      }
    }
  }

  /** The head of the line is finished with, and its client's thread changes. */
  lemma QueuesServed(s: Server, s': Server, c: string)
    requires Queues(s) && s.phase.InHand? && s.phase.item.who == c && !s'.phase.InHand? && s'.shared == s.shared
    requires c in s.threads && c in s'.threads && s'.threads == s.threads[c := s'.threads[c]]
    requires InOrder(c, s'.threads[c], Of(c, s.shared))
    ensures Queues(s')
  {
    hide InOrder, Of;
    assert Line(s') == s.shared && Line(s) == [s.phase.item] + s.shared;
    forall d ensures Of(d, Line(s)) == if d == c then [s.phase.item] + Of(d, s.shared) else Of(d, s.shared) {
      OfCons(d, s.phase.item, s.shared);
    }
    forall d | d in s'.threads ensures InOrder(d, s'.threads[d], Of(d, Line(s'))) {
      if d != c {
        assert s'.threads[d] == s.threads[d];
      }
    }
  }

  lemma RoundOneThread(s: Server, s': Server)
    requires Round(s) && s'.phase == s.phase && s'.db == s.db && s'.threads.Keys == s.threads.Keys
    requires forall c :: c in s.threads ==> s'.threads[c].async == s.threads[c].async
    ensures Round(s')
  {
  }

  // ---------------------------------------------------------------- steps of a client's threads

  lemma ReadInv(s: Server, c: string, msgs: seq<Msg>)
    requires Inv(s) && Enabled(s, Read(c, msgs))
    ensures Inv(Step(s, Read(c, msgs)))
  {
    hide InOrder, Registry, Queues, Round, D.Inv;
    var t, x := s.threads[c], PktRead(c, msgs);
    var s' := Step(s, Read(c, msgs));
    assert InOrder(c, t, Of(c, Line(s))) by { ItsQueue(s, c); }
    ReadInOrder(c, t, Of(c, Line(s)), msgs);
    LineGrows(s, s', x);
    RegistryOneThread(s, c, AfterRead(t, msgs));
    SameRegistry(WithThread(s, c, AfterRead(t, msgs)), s');
    QueuesOneThread(s, s', c, x, true);
    RoundOneThread(s, s');
  }

  lemma LineGrows(s: Server, s': Server, x: Upward)
    requires s'.phase == s.phase && s'.shared == s.shared + [x]
    ensures Line(s') == Line(s) + [x]
  {
  }

  lemma SameRegistry(s: Server, s': Server)
    requires Registry(s) && s'.threads == s.threads
    requires s'.socket2Client == s.socket2Client && s'.asyncClients == s.asyncClients
    ensures Registry(s')
  {
  }

  lemma ItsQueue(s: Server, c: string)
    requires Queues(s)
    ensures c in s.threads ==> InOrder(c, s.threads[c], Of(c, Line(s)))
    ensures c !in s.threads ==> Of(c, Line(s)) == []
  {
    hide InOrder;
  }

  lemma HungUpInv(s: Server, c: string)
    requires Inv(s) && c in s.threads && s.threads[c].reader.Idle?
    ensures Inv(HungUp(s, c))
  {
    hide InOrder, Registry, Queues, Round, D.Inv;
    var t, x := s.threads[c], ConnectionClosed(c);
    var s' := HungUp(s, c);
    ItsQueue(s, c);
    HangUpInOrder(c, t, Of(c, Line(s)));
    LineGrows(s, s', x);
    RegistryOneThread(s, c, AfterHangUp(t));
    SameRegistry(WithThread(s, c, AfterHangUp(t)), s');
    QueuesOneThread(s, s', c, x, true);
    RoundOneThread(s, s');
  }

  /** A thread changes and nothing else does. */
  lemma OnlyThreadInv(s: Server, c: string, t': ClientThread)
    requires Inv(s) && c in s.threads && SameClient(s.threads[c], t') && InOrder(c, t', Of(c, Line(s)))
    ensures Inv(WithThread(s, c, t'))
  {
    hide InOrder, Registry, Queues, Round, D.Inv, Of;
    var s' := WithThread(s, c, t');
    RegistryOneThread(s, c, t');
    QueuesOneThread(s, s', c, ConnectionClosed(c), false);
    RoundOneThread(s, s');
  }

  lemma VanishInOrder(c: string, t: ClientThread, up: seq<Upward>)
    requires InOrder(c, t, up) && t.reader.Idle?
    ensures InOrder(c, t.(reader := Vanished), up)
  {
  }

  lemma ClientStepsInv(s: Server, c: string, a: Action)
    requires Inv(s) && Enabled(s, a) && (a == SelectFails(c) || a == Write(c, true) || a == Write(c, false))
    ensures Inv(Step(s, a))
  {
    hide InOrder, Registry, Queues, Round, D.Inv, Of, AfterWrite;
    ItsQueue(s, c);
    var t, up := s.threads[c], Of(c, Line(s));
    if a == SelectFails(c) {
      VanishInOrder(c, t, up);
      OnlyThreadInv(s, c, t.(reader := Vanished));
    } else {
      WriteInOrder(c, t, up, a.sendOk);
      SameAfterWrite(t, a.sendOk);
      OnlyThreadInv(s, c, AfterWrite(t, a.sendOk));
    }
  }

  lemma SameAfterWrite(t: ClientThread, sendOk: bool)
    requires t.outgoing != []
    ensures SameClient(t, AfterWrite(t, sendOk))
  {
  }

  /** Neither branch of `HandleClientWrite` that reports a logical error is reached. */
  lemma TakeReplyInv(s: Server, c: string, sendOk: bool)
    requires Inv(s) && Enabled(s, TakeReply(c, sendOk))
    ensures Inv(Step(s, TakeReply(c, sendOk)))
  {
    hide InOrder, Registry, Queues, Round, D.Inv, Of;
    ItsQueue(s, c);
    var t, up := s.threads[c], Of(c, Line(s));
    TakeInOrder(c, t, up);
    OnlyThreadInv(s, c, AfterTake(t));
    if !sendOk {
      HungUpInv(WithThread(s, c, AfterTake(t)), c);
    }
  }

  // ------------------------------------------------------------------- steps of the server

  lemma PullInv(s: Server)
    requires Inv(s) && Enabled(s, Pull)
    ensures Inv(Step(s, Pull))
  {
    hide InOrder, Registry, Round, D.Inv, Of;
    var s' := Step(s, Pull);
    assert Line(s') == Line(s);
    SameRegistry(s, s');
    hide Line;
    NoRound(s');
  }

  lemma NoRound(s: Server)
    requires !s.phase.Sweeping?
    ensures Round(s)
  {
  }

  lemma HeadOfLine(s: Server)
    requires s.phase.InHand?
    ensures Of(s.phase.item.who, Line(s)) == [s.phase.item] + Of(s.phase.item.who, s.shared)
  {
    OfCons(s.phase.item.who, s.phase.item, s.shared);
  }

  /** The client whose packet is in hand has a thread. */
  lemma InHandIsKnown(s: Server)
    requires Queues(s) && s.phase.InHand?
    ensures s.phase.item.who in s.threads
  {
    hide InOrder;
    HeadOfLine(s);
  }

  lemma EmptyPacketInv(s: Server, w: Work)
    requires Inv(s) && Enabled(s, Serve(w)) && s.phase.item.msgs == []
    ensures Inv(Step(s, Serve(w)))
  {
    hide InOrder, Registry, Queues, Round, D.Inv, Of;
    var s', c := Step(s, Serve(w)), s.phase.item.who;
    InHandIsKnown(s);
    HeadOfLine(s);
    ItsQueue(s, c);
    ServeInOrder(c, s.threads[c], Of(c, s.shared), [], PktWrite([BLANK], [], []));
    QueuesServed(s, s', c);
    SameRegistry(s, s');
    NoRound(s');
  }

  lemma PacketInv(s: Server, w: Work)
    requires Inv(s) && Enabled(s, Serve(w)) && s.phase.item.msgs != []
    ensures Inv(Step(s, Serve(w)))
  {
    hide InOrder, Registry, Queues, Round, D.Inv, Of, HasNotify, WorkFor, PacketReceived, Head;
    var c, msgs := s.phase.item.who, s.phase.item.msgs;
    InHandIsKnown(s);
    var t, s' := s.threads[c], Step(s, Serve(w));
    var p := PktWrite(Head(t, msgs, w.clock), PacketReceived(s.db, c, w.arrivals, w.own).1, w.replies);
    HeadOfLine(s);
    ItsQueue(s, c);
    HeadIsReply(t, msgs, w.clock);
    ServeInOrder(c, t, Of(c, s.shared), msgs, p);
    QueuesServed(s, s', c);
    RegistryOneThread(s, c, s'.threads[c]);
    SameRegistry(WithThread(s, c, s'.threads[c]), s');
    D.StepInv(s.db, D.Packet(c, w.arrivals, w.own));
    FullRound(s');
  }

  lemma HeadIsReply(t: ClientThread, msgs: seq<Msg>, clock: real)
    ensures !t.async ==> |Head(t, msgs, clock)| == 1 && Head(t, msgs, clock)[0].msgType == MOOS_NULL_MSG
  {
  }

  lemma FullRound(s: Server)
    requires s.phase.Sweeping? ==> s.phase.todo == s.threads.Keys
    ensures Round(s)
  {
  }

  /** After its turn an asynchronous client has nothing held for it, and nobody else gets mail. */
  lemma OfferInv(s: Server, c: string)
    requires Inv(s) && Enabled(s, Offer(c))
    ensures Inv(Step(s, Offer(c)))
  {
    hide InOrder, Registry, Queues, Round, D.Inv, Of, MailFetched;
    var s', t := Step(s, Offer(c)), s.threads[c];
    var mail := MailFetched(s.db, c).1;
    ItsQueue(s, c);
    assert Line(s') == Line(s);
    if t.async {
      PushInOrder(c, t, Of(c, Line(s)), PktWrite([], mail, []));
    }
    assert s'.threads == s.threads[c := s'.threads[c]];
    assert SameClient(t, s'.threads[c]);
    QueuesOneThread(s, s', c, ConnectionClosed(c), false);
    RegistryOneThread(s, c, s'.threads[c]);
    SameRegistry(WithThread(s, c, s'.threads[c]), s');
    D.StepInv(s.db, D.Fetch(c));
    OfferRound(s, c);
  }

  lemma PushInOrder(c: string, t: ClientThread, up: seq<Upward>, p: Downward)
    requires InOrder(c, t, up) && t.async && p.PktWrite?
    ensures InOrder(c, PushedUnlessEmpty(t, p), up)
  {
  }

  lemma OfferRound(s: Server, c: string)
    requires Round(s) && Enabled(s, Offer(c))
    ensures Round(Step(s, Offer(c)))
  {
    var s' := Step(s, Offer(c));
    assert forall d :: Box(MailFetched(s.db, c).0.held, d) == if d == c then [] else Box(s.db.held, d);
    assert forall d :: d in s'.threads ==> s'.threads[d].async == s.threads[d].async;
  }

  lemma EndRoundInv(s: Server)
    requires Inv(s) && Enabled(s, EndRound)
    ensures Inv(Step(s, EndRound))
  {
    hide InOrder, Registry, Round, D.Inv, Of;
    var s' := Step(s, EndRound);
    assert Line(s') == Line(s);
    SameRegistry(s, s');
    hide Line;
    NoRound(s');
  }

  // ------------------------------------------------------------------- coming and going

  lemma UniqueIsUnregistered(s: Server, name: string)
    requires Registry(s)
    ensures UniqueName(s, name) <==> name !in s.threads
  {
  }

  /** A name that passes the handshake has no thread yet. */
  lemma RegistryConnect(s: Server, fd: nat, name: string, async: bool)
    requires Registry(s) && UniqueName(s, name) && fd !in s.socket2Client
    ensures var s' := ThreadStarted(HandShaken(s, fd, name, async), fd, name);
            && Registry(s') && s'.faults == s.faults && name !in s.threads
            && s'.threads == s.threads[name :=
                               ClientThread(fd, async, Consolidation(s.timing, name), Idle, async, [], [], [])]
  {
    UniqueIsUnregistered(s, name);
    assert name !in s.asyncClients;
  }

  lemma ConnectInv(s: Server, fd: nat, name: string, async: bool, ann: Arrival, inRound: bool)
    requires Inv(s) && Enabled(s, Connect(fd, name, async, ann, inRound)) && UniqueName(s, name)
    ensures Inv(Connected(s, fd, name, async, ann, inRound))
  {
    hide InOrder, Registry, Queues, D.Inv, Of, UniqueName, Notified;
    RegistryConnect(s, fd, name, async);
    var plain := ThreadStarted(HandShaken(s, fd, name, async), fd, name);
    var s' := Connected(s, fd, name, async, ann, inRound);
    ConnectedShape(s, fd, name, async, ann, inRound);
    SameRegistry(plain, s');
    QueuesNewThread(s, s', name);
    D.StepInv(s.db, D.Connect(ann));
  }

  lemma ConnectedShape(s: Server, fd: nat, name: string, async: bool, ann: Arrival, inRound: bool)
    requires Registry(s) && UniqueName(s, name) && fd !in s.socket2Client
    ensures var s' := Connected(s, fd, name, async, ann, inRound);
            var plain := ThreadStarted(HandShaken(s, fd, name, async), fd, name);
            && s'.threads == plain.threads && s'.socket2Client == plain.socket2Client
            && s'.asyncClients == plain.asyncClients && s'.faults == s.faults && s'.shared == s.shared
            && s'.db == Notified(s.db, ann.msg, ann.now)
            && (if s.phase.Sweeping?
                then s'.phase == Sweeping(if inRound then s.phase.todo + {name} else s.phase.todo, false)
                else s'.phase == s.phase)
  {
    hide Registry, UniqueName, Notified;
    RegistryConnect(s, fd, name, async);
  }

  lemma QueuesNewThread(s: Server, s': Server, c: string)
    requires Queues(s) && c !in s.threads && Line(s') == Line(s)
    requires c in s'.threads && s'.threads == s.threads[c := s'.threads[c]]
    requires var t := s'.threads[c]; t.reader.Idle? && t.outgoing == [] && t.read == [] && t.taken == []
    ensures Queues(s')
  {
    hide Line;
    assert InOrder(c, s'.threads[c], []);
    hide InOrder;
    forall d | d in s'.threads ensures InOrder(d, s'.threads[d], Of(d, Line(s'))) {
      if d != c {
        assert s'.threads[d] == s.threads[d];
      }
    }
  }

  /** Every queued goodbye finds its client, with its socket. */
  lemma RegistryDepart(s: Server, c: string, ann: Arrival)
    requires Registry(s) && c in s.threads
    ensures var s' := Departed(s, c, ann);
            && Registry(s') && s'.faults == s.faults && s'.threads == s.threads - {c}
            && s'.socket2Client == s.socket2Client - {s.threads[c].fd}
            && s'.shared == s.shared && s'.phase == Free && s'.db == Disconnected(s.db, c, ann.msg, ann.now)
  {
    hide Disconnected;
  }

  lemma DepartInv(s: Server, ann: Arrival)
    requires Inv(s) && Enabled(s, Depart(ann))
    ensures Inv(Step(s, Depart(ann)))
    ensures s.phase.item.who in s.threads
  {
    hide InOrder, Registry, Queues, Round, D.Inv, Of, Departed;
    var c, s' := s.phase.item.who, Step(s, Depart(ann));
    InHandIsKnown(s);
    RegistryDepart(s, c, ann);
    QueuesDepart(s, s', c);
    D.StepInv(s.db, D.Disconnect(c, ann));
    NoRound(s');
  }

  /** The goodbye is the last its client has in the line. */
  lemma LastWord(s: Server)
    requires Queues(s) && s.phase.InHand? && s.phase.item.ConnectionClosed?
    ensures Of(s.phase.item.who, s.shared) == []
  {
    InHandIsKnown(s);
    HeadOfLine(s);
    hide Lockstep, Line;
    var c := s.phase.item.who;
    var up := [s.phase.item] + Of(c, s.shared);
    ItsQueue(s, c);
    assert up[0].ConnectionClosed?;
  }

  lemma QueuesDepart(s: Server, s': Server, c: string)
    requires Queues(s) && s.phase.InHand? && s.phase.item == ConnectionClosed(c)
    requires s'.phase == Free && s'.shared == s.shared && s'.threads == s.threads - {c}
    ensures Queues(s')
  {
    hide InOrder, Of;
    LastWord(s);
    assert Line(s) == [s.phase.item] + s.shared && Line(s') == s.shared;
    forall d ensures Of(d, Line(s)) == if d == c then [s.phase.item] + Of(d, s.shared) else Of(d, s.shared) {
      OfCons(d, s.phase.item, s.shared);
    }
    forall d | d in s'.threads ensures InOrder(d, s'.threads[d], Of(d, Line(s'))) {
      assert s'.threads[d] == s.threads[d];
    }
  }

  // ---------------------------------------------------------------------------- every run

  lemma StepInv(s: Server, a: Action)
    requires Inv(s)
    ensures Inv(Next(s, a))
  {
    hide Inv;
    if Enabled(s, a) {
      match a
      case Connect(fd, name, async, ann, inRound) =>
        hide Connected;
        if UniqueName(s, name) {
          ConnectInv(s, fd, name, async, ann, inRound);
        } else {
          TurnedAway(s, a);
        }
      case Read(c, msgs) => ReadInv(s, c, msgs);
      case HangUp(c) => HungUpInv(s, c);
      case SelectFails(c) => ClientStepsInv(s, c, a);
      case TakeReply(c, sendOk) => TakeReplyInv(s, c, sendOk);
      case Write(c, sendOk) => ClientStepsInv(s, c, a);
      case Pull => PullInv(s);
      case Serve(w) =>
        if s.phase.item.msgs == [] {
          EmptyPacketInv(s, w);
        } else {
          PacketInv(s, w);
        }
      case Offer(c) => OfferInv(s, c);
      case EndRound => EndRoundInv(s);
      case Depart(ann) => DepartInv(s, ann);
    }
  }

  lemma TurnedAway(s: Server, a: Action)
    requires a.Connect? && !UniqueName(s, a.name)
    ensures Next(s, a) == s
  {
  }

  /** What no run ever comes to: each branch the program reports as an error is recorded as one. */
  lemma ErrorsAreRecorded(s: Server, c: string, fd: nat, msgs: seq<Msg>, w: Work, ann: Arrival)
    ensures c in s.threads ==> ThreadStarted(s, fd, c).faults == s.faults + [DuplicateThread]
    ensures c !in s.threads ==> Served(s, c, msgs, w) == s.(phase := Free, faults := s.faults + [UnknownClient])
    ensures c !in s.threads ==> Departed(s, c, ann) == s.(phase := Free, faults := s.faults + [NoThreadToClose])
    ensures c in s.threads && s.threads[c].fd !in s.socket2Client ==>
              Departed(s, c, ann).faults == s.faults + [SocketUnknown]
    ensures c in s.threads && s.threads[c].outgoing != [] && s.threads[c].outgoing[0].CloseMark? ==>
              ReplyTaken(s, c, true).faults == ReplyTaken(s, c, false).faults == s.faults + [NotAReply]
    ensures c in s.threads && |s.threads[c].outgoing| > 1 && s.threads[c].outgoing[0].PktWrite? ==>
              ReplyTaken(s, c, true).faults == s.faults + [ReplyLeftOver]
  {
    hide PacketReceived, Disconnected, HasNotify;
  }

  lemma StartInv(db: State, timing: Timing)
    requires D.Inv(db)
    ensures Inv(Start(db, timing))
  {
    hide D.Inv;
  }

  /** Whatever the interleaving, the registry is consistent, synchronous clients and the server
      alternate, and no branch reported as an error is ever taken. */
  lemma {:induction false} RunInv(s: Server, actions: seq<Action>)
    requires Inv(s)
    ensures Inv(Run(s, actions)) && Run(s, actions).faults == []
  {
    hide Next;
    if actions != [] {
      hide Registry, Queues, Round, D.Inv;
      var n := |actions| - 1;
      RunInv(s, actions[..n]);
      StepInv(Run(s, actions[..n]), actions[n]);
    }
  }
}
