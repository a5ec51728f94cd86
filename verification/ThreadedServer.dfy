/** The server object: the handlers of `ThreadedCommServer` with their loops, proved against the
    steps of CommServer. `phase` in a value is what the server thread is doing meanwhile. */
module ThreadedServer {
  import opened Messages
  import opened DbState
  import opened MoosDb
  import opened CommServer
  import Glob

  /** Mail offered to the clients in `order`, one after the other. */
  function OfferedAll(s: Server, order: seq<string>): Server
    requires s.phase.Sweeping? && forall c :: c in order ==> c in s.threads
    ensures OfferedAll(s, order).phase.Sweeping? && OfferedAll(s, order).threads.Keys == s.threads.Keys
    decreases |order|
  {
    if order == [] then s
    else
      var n := |order| - 1;
      assert forall c :: c in order[..n] ==> c in order;
      assert order[n] in order;
      var s1 := OfferedAll(s, order[..n]);
      assert Offered(s1, order[n]).threads.Keys == s1.threads.Keys;
      Offered(s1, order[n])
  }

  lemma OfferedSnoc(s: Server, order: seq<string>, c: string)
    requires s.phase.Sweeping? && (forall d :: d in order ==> d in s.threads) && c in s.threads
    ensures OfferedAll(s, order + [c]) == Offered(OfferedAll(s, order), c)
  {
    hide Offered;
    assert (order + [c])[..|order|] == order;
  }

  /** One packet with everything held, or nothing if nothing is. */
  function PacketOf(mail: seq<Msg>): seq<Downward> {
    if mail == [] then [] else [PktWrite([], mail, [])]
  }

  lemma OfferOne(s: Server, d: string, c: string)
    requires s.phase.Sweeping? && c in s.threads && d in s.threads
    ensures var s' := Offered(s, d);
            && c in s'.threads && s'.threads[c].async == s.threads[c].async
            && if d == c && s.threads[c].async
               then Box(s'.db.held, c) == []
                    && s'.threads[c].outgoing == s.threads[c].outgoing + PacketOf(Box(s.db.held, c))
               else Box(s'.db.held, c) == Box(s.db.held, c) && s'.threads[c] == s.threads[c]
  {
  }

  /** A round gives every asynchronous client exactly what was held for it, in one packet at the
      end of its list, and leaves synchronous clients alone. */
  lemma {:induction false} RoundGivesEachItsMail(s: Server, order: seq<string>, c: string)
    requires s.phase.Sweeping? && (forall d :: d in order ==> d in s.threads) && c in s.threads
    ensures var s' := OfferedAll(s, order);
            && s'.threads[c].async == s.threads[c].async
            && if c in order && s.threads[c].async
               then Box(s'.db.held, c) == []
                    && s'.threads[c].outgoing == s.threads[c].outgoing + PacketOf(Box(s.db.held, c))
               else Box(s'.db.held, c) == Box(s.db.held, c) && s'.threads[c] == s.threads[c]
    decreases |order|
  {
    hide Offered, PacketOf, Box;
    if order == [] {
    } else {
      var n := |order| - 1;
      assert order == order[..n] + [order[n]];
      assert order[n] in order;
      RoundGivesEachItsMail(s, order[..n], c);
      OfferOne(OfferedAll(s, order[..n]), order[n], c);
      NothingToPack(s.threads[c].outgoing, Box(s.db.held, c));
    }
  }

  lemma NothingToPack(outgoing: seq<Downward>, mail: seq<Msg>)
    ensures outgoing + PacketOf(mail) + PacketOf([]) == outgoing + PacketOf(mail)
  {
  }

  /** A client's first message; or its first packet holds none; or no packet comes in time. */
  datatype Hello = Hello(name: string, wantsAsync: bool, time: real) | Empty | Late

  datatype Answer = Welcome(skew: real) | Poison(reason: string) | Silence

  predicate MayJoin(s: Server, protocolOk: bool, hello: Hello) {
    protocolOk && hello.Hello? && UniqueName(s, hello.name)
  }

  class ThreadedCommServer {
    const database: Database
    var clientThreads: map<string, ClientThread>
    var socketToClient: map<nat, string>
    var asyncClients: set<string>
    var sharedList: seq<Upward>
    const timing: Timing
    ghost var faults: seq<Fault>

    ghost function Value(phase: Phase): Server
      reads this, database
    {
      Server(database.Value(), clientThreads, socketToClient, asyncClients,
             sharedList, phase, faults, timing)
    }

    constructor (db: Database, patterns: Timing)
      ensures database == db && Value(Free) == Start(db.Value(), patterns)
    {
      database := db;
      timing := patterns;
      clientThreads := map[];
      socketToClient := map[];
      asyncClients := {};
      sharedList := [];
      faults := [];
    }

    // ---------------------------------------------------------------- the listening thread

    method IsUniqueName(name: string) returns (unique: bool)
      ensures unique == UniqueName(Value(Free), name)
    {
      var todo := socketToClient.Keys;
      unique := true;
      while todo != {}
        invariant todo <= socketToClient.Keys && unique
        invariant forall fd :: fd in socketToClient && fd !in todo ==> socketToClient[fd] != name
        decreases |todo|
      {
        var fd :| fd in todo;
        if socketToClient[fd] == name {
          return false;
        }
        todo := todo - {fd};
      }
    }

    /** The protocol string, the client's first message, and the answer to it. Nothing is recorded
        unless the answer is a welcome, which says how far the server's clock is ahead. */
    method HandShake(fd: nat, protocolOk: bool, hello: Hello, now: real) returns (ok: bool, answer: Answer)
      modifies this
      ensures ok == answer.Welcome? == MayJoin(old(Value(Free)), protocolOk, hello)
      ensures ok ==> answer.skew == now - hello.time
      ensures answer.Silence? <==> !protocolOk || hello.Late?
      ensures forall p :: Value(p) ==
                if ok then HandShaken(old(Value(Free)), fd, hello.name, hello.wantsAsync).(phase := p)
                 else old(Value(Free)).(phase := p)
    {
      hide UniqueName;
      if !protocolOk {
        return false, Silence;
      }
      if hello.Late? {
        return false, Silence;
      }
      if hello.Empty? {
        return false, Poison("Failed to read receive client's name");
      }
      var unique := IsUniqueName(hello.name);
      if !unique {
        return false, Poison("A client of this name (\"" + hello.name + "\") already exists");
      }
      socketToClient := socketToClient[fd := hello.name];
      if hello.wantsAsync {
        asyncClients := asyncClients + {hello.name};
      }
      return true, Welcome(now - hello.time);
    }

    /** The first pattern that matches the name says how long the client is to consolidate. */
    method LookUpConsolidation(name: string) returns (seconds: real)
      ensures seconds == Consolidation(timing, name)
    {
      hide Glob.Wild, Consolidation;
      for i := 0 to |timing|
        invariant forall j :: 0 <= j < i ==> !Glob.Wild(timing[j].0, name)
      {
        var matched := Glob.WildCmp(timing[i].0, name);
        if matched {
          FirstPatternDecides(timing, name, i);
          return timing[i].1 / 1000.0;
        }
      }
      FirstPatternDecides(timing, name, |timing|);
      seconds := 0.0;
    }

    method AddAndStartClientThread(fd: nat, name: string) returns (ok: bool)
      modifies this
      ensures forall p :: Value(p) == ThreadStarted(old(Value(Free)), fd, name).(phase := p)
      ensures ok == (name !in old(clientThreads))
    {
      if name in clientThreads {
        faults := faults + [DuplicateThread];
        return false;
      }
      var async := name in asyncClients;
      var consolidation := LookUpConsolidation(name);
      clientThreads := clientThreads[name := ClientThread(fd, async, consolidation, Idle, async, [], [], [])];
      ok := true;
    }

    /** A connection accepted at any moment, also while mail is offered round: whoever may join does,
        and for the others nothing changes. `inRound` is whether the client still gets its turn. */
    method OnNewClient(fd: nat, protocolOk: bool, hello: Hello, event: Msg, now: real)
      returns (ok: bool, answer: Answer)
      modifies this, database
      ensures answer.Welcome? == MayJoin(old(Value(Free)), protocolOk, hello) && (ok ==> answer.Welcome?)
      ensures answer.Welcome? ==> forall p, inRound ::
                var s := Connected(old(Value(p)), fd, hello.name, hello.wantsAsync, Arrival(event, now, []), inRound);
                Value(s.phase) == s
      ensures !answer.Welcome? ==> forall p :: Value(p) == old(Value(p))
    {
      hide Notified, Consolidation;
      ok, answer := HandShake(fd, protocolOk, hello, now);
      if !ok {
        return;
      }
      database.OnNotify(event, now);
      ok := AddAndStartClientThread(fd, socketToClient[fd]);
    }

    // -------------------------------------------------------------- one client's threads

    /** `HandleClientWrite` up to where a synchronous client waits. */
    method PassUp(c: string, msgs: seq<Msg>)
      requires c in clientThreads && clientThreads[c].reader.Idle?
      modifies this
      ensures forall p :: Value(p) == Step(old(Value(p)), Read(c, msgs))
    {
      clientThreads := clientThreads[c := AfterRead(clientThreads[c], msgs)];
      sharedList := sharedList + [PktRead(c, msgs)];
    }

    /** `OnClientDisconnect` of a client's thread. */
    method TellServer(c: string)
      requires c in clientThreads
      modifies this
      ensures forall p :: Value(p) == HungUp(old(Value(p)), c)
    {
      var t := clientThreads[c];
      sharedList := sharedList + [ConnectionClosed(c)];
      if t.async {
        t := t.(outgoing := t.outgoing + [CloseMark]);
      }
      clientThreads := clientThreads[c := t.(reader := Dead)];
    }

    /** `HandleClientWrite` from where the reply has come. */
    method PassDown(c: string, sendOk: bool)
      requires c in clientThreads && clientThreads[c].reader.Waiting? && clientThreads[c].outgoing != []
      modifies this
      ensures forall p :: Value(p) == Step(old(Value(p)), TakeReply(c, sendOk))
    {
      var t := clientThreads[c];
      clientThreads := clientThreads[c := AfterTake(t)];
      if !t.outgoing[0].PktWrite? {
        faults := faults + [NotAReply];
        TellServer(c);
      } else if !sendOk {
        TellServer(c);
      } else if clientThreads[c].outgoing != [] {
        faults := faults + [ReplyLeftOver];
      }
    }

    // ----------------------------------------------------------------- the server thread

    method SendToClient(c: string, p: Downward)
      requires c in clientThreads && p.PktWrite?
      modifies this
      ensures forall ph :: Value(ph) == WithThread(old(Value(ph)), c, PushedUnlessEmpty(old(clientThreads)[c], p))
    {
      if p.head + p.mail + p.replies != [] {
        clientThreads := clientThreads[c := AfterPush(clientThreads[c], p)];
      }
    }

    /** Offering mail to one client after a notification. */
    method OfferMail(c: string, todo: set<string>)
      requires c in clientThreads
      modifies this, database
      ensures Value(Sweeping(todo - {c}, true)) == Offered(old(Value(Sweeping(todo, true))), c)
    {
      hide MailFetched;
      if clientThreads[c].async {
        var mail := database.OnFetchAllMail(c);
        SendToClient(c, PktWrite([], mail, []));
      }
    }

    method Any(msgs: seq<Msg>) returns (notify: bool)
      ensures notify == HasNotify(msgs)
    {
      notify := false;
      for i := 0 to |msgs|
        invariant !notify && forall j :: 0 <= j < i ==> msgs[j].msgType != MOOS_NOTIFY
      {
        if msgs[i].msgType == MOOS_NOTIFY {
          return true;
        }
      }
    }

    /** `ProcessClient` up to the reply. */
    method Serve(c: string, msgs: seq<Msg>, own: seq<Msg>, replies: seq<Msg>,
                 times: seq<real>, ownTimes: seq<real>, now: real) returns (ghost w: Work)
      requires |times| == |ForTheDatabase(msgs)| && |ownTimes| == |own|
      requires c in clientThreads && msgs != []
      requires replies != [] ==> exists m :: m in msgs && m.msgType == MOOS_SERVER_REQUEST
      modifies this, database
      ensures WorkFor(msgs, w)
      ensures Value(if HasNotify(msgs) then Sweeping(clientThreads.Keys, true) else Free) ==
              Served(old(Value(Free)), c, msgs, w)
    {
      hide PacketReceived, HasNotify;
      var t := clientThreads[c];
      var tx, arrivals, ownArrivals := database.OnRxPkt(c, ForTheDatabase(msgs), own, times, ownTimes);
      w := Work(arrivals, ownArrivals, replies, now);
      SendToClient(c, PktWrite(Head(t, msgs, now), tx, replies));
      assert Value(Free).threads.Keys == old(clientThreads.Keys);
    }

    /** `ProcessClient`, with nobody joining meanwhile: the reply, and after a notification a
        round in which every client is offered its mail. */
    method ProcessClient(c: string, msgs: seq<Msg>, own: seq<Msg>, replies: seq<Msg>,
                         times: seq<real>, ownTimes: seq<real>, now: real)
        returns (ghost w: Work, ghost order: seq<string>)
      requires |times| == |ForTheDatabase(msgs)| && |ownTimes| == |own|
      requires replies != [] ==> exists m :: m in msgs && m.msgType == MOOS_SERVER_REQUEST
      modifies this, database
      ensures c in old(clientThreads) && msgs != [] ==> WorkFor(msgs, w)
      ensures var s := Served(old(Value(InHand(PktRead(c, msgs)))), c, msgs, w);
              && (forall d :: d in order ==> d in s.threads)
              && if s.phase.Sweeping?
                 then (forall d :: d in s.threads ==> d in order) && Value(Sweeping({}, true)) == OfferedAll(s, order)
                 else Value(Free) == s
    {
      hide Offered, WorkFor, HasNotify, PacketReceived, Head;
      order := [];
      w := Work([], [], [], now);
      if c !in clientThreads {
        faults := faults + [UnknownClient];
        return;
      }
      if msgs == [] {
        return;
      }
      w := Serve(c, msgs, own, replies, times, ownTimes, now);
      var notify := Any(msgs);
      if notify {
        order := OfferRound();
      }
    }

    method OfferRound() returns (ghost order: seq<string>)
      modifies this, database
      ensures forall c :: c in order <==> c in old(clientThreads)
      ensures Value(Sweeping({}, true)) == OfferedAll(old(Value(Sweeping(clientThreads.Keys, true))), order)
    {
      hide Offered;
      ghost var s := Value(Sweeping(clientThreads.Keys, true));
      var todo := clientThreads.Keys;
      order := [];
      while todo != {}
        invariant todo <= s.threads.Keys && forall c :: c in order <==> c in s.threads && c !in todo
        invariant Value(Sweeping(todo, true)) == OfferedAll(s, order)
        decreases |todo|
      {
        var c :| c in todo;
        OfferedSnoc(s, order, c);
        assert clientThreads.Keys == s.threads.Keys;
        OfferMail(c, todo);
        order := order + [c];
        todo := todo - {c};
      }
    }

    /** A client's goodbye reaches the server thread, which then holds the socket list lock. */
    method OnClientDisconnect(c: string, event: Msg, now: real)
      modifies this, database
      ensures Value(Free) == Departed(old(Value(InHand(ConnectionClosed(c)))), c, Arrival(event, now, []))
    {
      hide Disconnected;
      if c !in clientThreads {
        faults := faults + [NoThreadToClose];
        return;
      }
      var fd := clientThreads[c].fd;
      clientThreads := clientThreads - {c};
      if fd in socketToClient {
        var who := socketToClient[fd];
        socketToClient := socketToClient - {fd};
        asyncClients := asyncClients - {who};
        database.OnDisconnect(who, event, now);
      } else {
        faults := faults + [SocketUnknown];
      }
    }
  }
}
