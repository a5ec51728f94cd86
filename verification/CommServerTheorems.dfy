/** What clients of the server can rely on in every interleaving: the registry, lockstep for
    synchronous clients, what a notification does for asynchronous ones, and mail that arrives in
    order, complete and up to date. */
module CommServerTheorems {
  import opened Messages
  import opened DbState
  import D = DbInvariants
  import T = DbTheorems
  import opened CommServer
  import opened CommServerInvariants

  // ---------------------------------------------------------------------------- the registry

  /** In every reachable state the names with a thread are exactly the names in the socket map,
      each there once, and the asynchronous ones are flagged as such; no error branch was taken. */
  lemma RegistryAgrees(community: string, t: real, timing: Timing, actions: seq<Action>)
    ensures var s := Run(Start(Initial(community, t), timing), actions);
            && s.socket2Client.Values == s.threads.Keys
            && (forall f, g :: f in s.socket2Client && g in s.socket2Client ==>
                  (s.socket2Client[f] == s.socket2Client[g] ==> f == g))
            && s.asyncClients == (set c | c in s.threads && s.threads[c].async)
            && s.faults == []
  {
    hide Queues, Round, Run, Initial, D.Inv;
    D.InitialInv(community, t);
    StartInv(Initial(community, t), timing);
    RunInv(Start(Initial(community, t), timing), actions);
    var s := Run(Start(Initial(community, t), timing), actions);
    forall c | c in s.threads ensures c in s.socket2Client.Values {
      assert s.socket2Client[s.threads[c].fd] == c;
    }
  }

  // -------------------------------------------------------------------- synchronous lockstep

  function Replied(t: ClientThread): seq<Downward> {
    t.taken + t.outgoing
  }

  /** At most one of: a request in the line or in the server's hand, a reply in the list. All
      requests but perhaps the last have had exactly one reply, which starts with a null message;
      the last has none yet, or was empty and never will have one. */
  predicate Alternates(th: ClientThread, up: seq<Upward>) {
    var requests := |up| - if th.reader.Dead? then 1 else 0;
    && 0 <= requests + |th.outgoing| <= 1
    && (requests + |th.outgoing| == 1 ==> th.reader.Waiting?)
    && AllReplies(Replied(th))
    && |th.read| - 1 <= |Replied(th)| <= |th.read|
    && NoneEmpty(th.read[..|Replied(th)|])
    && (|Replied(th)| < |th.read| <==> requests == 1 || (th.reader.Waiting? && EmptyLast(th)))
  }

  predicate EmptyLast(th: ClientThread) {
    th.read != [] && th.read[|th.read| - 1] == []
  }

  /** In every interleaving each synchronous client and the server alternate. */
  lemma SynchronousLockstep(community: string, t: real, timing: Timing, actions: seq<Action>, c: string)
    ensures var s := Run(Start(Initial(community, t), timing), actions);
            c in s.threads && !s.threads[c].async ==> Alternates(s.threads[c], Of(c, Line(s)))
  {
    hide Run, Initial, D.Inv, Line, Of, Registry, Round, Alternates;
    D.InitialInv(community, t);
    StartInv(Initial(community, t), timing);
    RunInv(Start(Initial(community, t), timing), actions);
    var s := Run(Start(Initial(community, t), timing), actions);
    ItsQueue(s, c);
    if c in s.threads && !s.threads[c].async {
      LockstepAlternates(c, s.threads[c], Of(c, Line(s)));
    }
  }

  lemma LockstepAlternates(c: string, th: ClientThread, up: seq<Upward>)
    requires Lockstep(c, th, up)
    ensures Alternates(th, up)
  {
    if th.reader.Waiting? {
      assert th.read == th.read[..|th.read| - 1] + [th.read[|th.read| - 1]];
    }
    assert th.read[..|th.read|] == th.read;
  }

  /** A request that is not empty gets its reply in the very step that serves it: a null message
      with the server's time, the client's mail, and its answers. An asynchronous client gets its
      timing message back in front, if it sent one, and no packet if there is nothing to say. */
  lemma ServeReplies(s: Server, w: Work)
    requires Inv(s) && Enabled(s, Serve(w)) && s.phase.item.msgs != []
    ensures var c, msgs, s' := s.phase.item.who, s.phase.item.msgs, Step(s, Serve(w));
            var mail := PacketReceived(s.db, c, w.arrivals, w.own).1;
            && c in s.threads && c in s'.threads
            && (s.threads[c].async || s'.threads[c].outgoing ==
                       [PktWrite([BLANK.(number := w.clock)], mail, w.replies)])
            && (s.threads[c].async && msgs[0].msgType == MOOS_TIMING ==>
                  var echo := msgs[0].(number := w.clock, number2 := s.threads[c].consolidation);
                  s'.threads[c].outgoing == s.threads[c].outgoing + [PktWrite([echo], mail, w.replies)])
            && (s.threads[c].async && msgs[0].msgType != MOOS_TIMING && mail + w.replies != [] ==>
                  s'.threads[c].outgoing == s.threads[c].outgoing + [PktWrite([], mail, w.replies)])
            && (s.threads[c].async && msgs[0].msgType != MOOS_TIMING && mail + w.replies == [] ==>
                  s'.threads[c].outgoing == s.threads[c].outgoing)
            && (forall d :: d in s.threads && d != c ==> s'.threads[d] == s.threads[d])
  {
    hide PacketReceived, HasNotify, D.Inv, Registry, Round, InOrder, WorkFor;
    InHandIsKnown(s);
    HeadOfLine(s);
    var c := s.phase.item.who;
    ItsQueue(s, c);
    ServeInOrder(c, s.threads[c], Of(c, s.shared), s.phase.item.msgs, PktWrite([BLANK], [], []));
    assert forall mail: seq<Msg> :: [] + mail == mail;
  }

  /** A writer stops at the mark its reader leaves, and in no step does a stopped one take anything. */
  lemma StoppedWriterIsSilent(s: Server, a: Action, c: string)
    requires Inv(s) && c in s.threads && s.threads[c].async && c in Next(s, a).threads
    ensures !s.threads[c].writing ==>
              !Next(s, a).threads[c].writing && Next(s, a).threads[c].taken == s.threads[c].taken
    ensures a.Write? && a.c == c && Enabled(s, a) && s.threads[c].outgoing[0] == CloseMark ==>
              !Next(s, a).threads[c].writing
  {
    hide D.Inv, Queues, Round, Registry, Notified, PacketReceived, MailFetched, Disconnected, HasNotify, WorkFor;
    hide Connected, UniqueName;
    if a.Connect? && Enabled(s, a) {
      StarvedConnect(s, a, c);
    } else if a.TakeReply? && Enabled(s, a) {
      ItsQueue(s, a.c);
    }
  }

  /** The database works on every message of the packet, in order, but for a timing message that leads
      it; and what it makes of them is the whole change to it. An empty packet changes nothing. */
  lemma ServedMessages(s: Server, w: Work)
    requires Inv(s) && Enabled(s, Serve(w))
    ensures var msgs, s' := s.phase.item.msgs, Step(s, Serve(w));
            var lead := if msgs != [] && msgs[0].msgType == 'T' then 1 else 0;
            && |w.arrivals| == |msgs| - lead && (forall i :: lead <= i < |msgs| ==> w.arrivals[i - lead].msg == msgs[i])
            && (msgs == [] ==> s'.db == s.db)
            && (msgs != [] ==> s'.db == D.Step(s.db, D.Packet(s.phase.item.who, w.arrivals, w.own)))
  {
    hide PacketReceived, HasNotify, D.Inv, Registry, Round, InOrder;
    InHandIsKnown(s);
    HeadOfLine(s);
  }

  /** The client stays registered throughout. */
  predicate StaysIn(s: Server, actions: seq<Action>, c: string) {
    c in Run(s, actions).threads && (actions == [] || StaysIn(s, actions[..|actions| - 1], c))
  }

  /** A writer that has stopped takes nothing more off its list for as long as its client stays. */
  lemma {:induction false} StoppedForGood(s: Server, actions: seq<Action>, c: string)
    requires Inv(s) && c in s.threads && s.threads[c].async && !s.threads[c].writing
    requires StaysIn(s, actions, c)
    ensures Inv(Run(s, actions))
    ensures var t := Run(s, actions).threads[c]; t.async && !t.writing && t.taken == s.threads[c].taken
  {
    hide Inv, Next;
    if actions != [] {
      var n := |actions| - 1;
      StoppedForGood(s, actions[..n], c);
      StepInv(Run(s, actions[..n]), actions[n]);
      StoppedWriterIsSilent(Run(s, actions[..n]), actions[n], c);
      StaysAsync(Run(s, actions[..n]), actions[n], c);
    }
  }

  /** A step does not change what kind of client a registered one is. */
  lemma StaysAsync(s: Server, a: Action, c: string)
    requires Inv(s) && c in s.threads && c in Next(s, a).threads
    ensures Next(s, a).threads[c].async == s.threads[c].async
  {
    hide D.Inv, Queues, Round, Registry, Notified, PacketReceived, MailFetched, Disconnected, HasNotify, WorkFor;
    hide Connected, UniqueName;
    if a.Connect? && Enabled(s, a) {
      StarvedConnect(s, a, c);
    }
  }

  /** An empty request is never answered: its sender waits, registered, through every run. */
  predicate Starved(s: Server, c: string) {
    c in s.threads && !s.threads[c].async && s.threads[c].reader.Waiting? && EmptyLast(s.threads[c])
  }

  /** An empty packet from an idle synchronous client is enough. */
  lemma EmptyReadStarves(s: Server, c: string)
    requires Enabled(s, Read(c, [])) && !s.threads[c].async
    ensures Starved(Step(s, Read(c, [])), c)
  {
  }

  lemma StarvedOutgoing(s: Server, c: string)
    requires Inv(s) && Starved(s, c)
    ensures s.threads[c].outgoing == []
    ensures s.phase.InHand? && s.phase.item.who == c ==> s.phase.item == PktRead(c, [])
  {
    hide D.Inv, Registry, Round, Line, Of;
    ItsQueue(s, c);
    if s.phase.InHand? && s.phase.item.who == c {
      HeadOfLine(s);
      assert Of(c, Line(s))[0] == s.phase.item;
    }
  }

  lemma StarvedStep(s: Server, a: Action, c: string)
    requires Inv(s) && Starved(s, c)
    ensures Starved(Next(s, a), c) && Next(s, a).threads[c] == s.threads[c]
  {
    hide D.Inv, Queues, Round, Registry, Notified, PacketReceived, MailFetched, Disconnected, HasNotify, WorkFor;
    hide Connected, UniqueName, EmptyLast;
    StarvedOutgoing(s, c);
    assert EmptyLast(s.threads[c]);
    if a.Connect? && Enabled(s, a) {
      StarvedConnect(s, a, c);
    }
  }

  lemma StarvedConnect(s: Server, a: Action, c: string)
    requires Registry(s) && c in s.threads && a.Connect? && Enabled(s, a)
    ensures c in Step(s, a).threads && Step(s, a).threads[c] == s.threads[c]
  {
    hide Registry, UniqueName, Connected;
    if UniqueName(s, a.name) {
      RegistryConnect(s, a.fd, a.name, a.wantsAsync);
      ConnectedShape(s, a.fd, a.name, a.wantsAsync, a.announcement, a.inRound);
    } else {
      TurnedAway(s, a);
    }
  }

  lemma {:induction false} EmptyRequestStarves(s: Server, actions: seq<Action>, c: string)
    requires Inv(s) && Starved(s, c)
    ensures Starved(Run(s, actions), c) && Run(s, actions).threads[c] == s.threads[c]
  {
    hide Inv, Starved, Next;
    if actions != [] {
      var n := |actions| - 1;
      EmptyRequestStarves(s, actions[..n], c);
      RunInv(s, actions[..n]);
      StarvedStep(Run(s, actions[..n]), actions[n], c);
    }
  }

  // ----------------------------------------------------------------- mail through the server

  function MailOf(p: Downward): seq<Msg> {
    if p.PktWrite? then p.mail else []
  }

  /** All mail in a list of packets, in order. */
  function Mails(ps: seq<Downward>): seq<Msg> {
    if ps == [] then [] else Mails(ps[..|ps| - 1]) + MailOf(ps[|ps| - 1])
  }

  predicate EndsWith(all: seq<Msg>, tail: seq<Msg>) {
    |tail| <= |all| && all[|all| - |tail|..] == tail
  }

  /** `whole` is for runs in which the database is never cleared. */
  predicate Account(all: seq<Msg>, drained: seq<Msg>, whole: bool) {
    EndsWith(all, drained) && (whole ==> all == drained)
  }

  /** The packets of a client end with all the database handed out for it since it last lost mail;
      nothing was handed out for anyone else. */
  ghost predicate Accounted(s: Server, whole: bool) {
    forall c :: if c in s.threads then Account(Mails(Replied(s.threads[c])), Box(s.db.drained, c), whole)
                else Box(s.db.drained, c) == []
  }

  predicate ClearsIn(a: Action) {
    a.Serve? && (T.SomeClears(a.work.arrivals) || T.SomeClears(a.work.own))
  }

  lemma MailsSnoc(ps: seq<Downward>, p: Downward)
    ensures Mails(ps + [p]) == Mails(ps) + MailOf(p)
  {
    assert (ps + [p])[..|ps|] == ps;
  }

  lemma AccountGrows(all: seq<Msg>, drained: seq<Msg>, more: seq<Msg>, whole: bool)
    requires Account(all, drained, whole)
    ensures Account(all + more, drained + more, whole)
  {
    var n := |all| - |drained|;
    assert (all + more)[n..] == all[n..] + more;
  }

  lemma AccountLost(all: seq<Msg>)
    ensures Account(all, [], false)
  {
  }

  /** Packets move from the list to the socket in order, and a push goes to the end. */
  lemma ThreadMail(t: ClientThread, msgs: seq<Msg>, sendOk: bool, p: Downward)
    ensures Replied(AfterRead(t, msgs)) == Replied(t)
    ensures Mails(Replied(AfterHangUp(t))) == Mails(Replied(t))
    ensures t.outgoing != [] ==> Replied(AfterWrite(t, sendOk)) == Replied(t)
    ensures t.outgoing != [] && t.outgoing[0].PktWrite? ==> Replied(AfterTake(t)) == Replied(t)
    ensures p.PktWrite? ==> Mails(Replied(PushedUnlessEmpty(t, p))) == Mails(Replied(t)) + p.mail
  {
    hide Mails;
    MailsSnoc(Replied(t), CloseMark);
    MailsSnoc(Replied(t), p);
    assert Replied(AfterPush(t, p)) == Replied(t) + [p];
    assert t.async ==> Replied(AfterHangUp(t)) == Replied(t) + [CloseMark];
  }

  /** A step that hands nothing out and changes at most one thread. */
  lemma AccountedOneThread(s: Server, s': Server, c: string, whole: bool)
    requires Accounted(s, whole) && s'.db.drained == s.db.drained
    requires c in s.threads && c in s'.threads && s'.threads == s.threads[c := s'.threads[c]]
    requires Mails(Replied(s'.threads[c])) == Mails(Replied(s.threads[c]))
    ensures Accounted(s', whole)
  {
    hide Account, Mails, Replied;
    forall d ensures if d in s'.threads then Account(Mails(Replied(s'.threads[d])), Box(s'.db.drained, d), whole)
                     else Box(s'.db.drained, d) == [] {
      if d in s'.threads && d != c {
        assert s'.threads[d] == s.threads[d];
      }
    }
  }

  /** A step that hands `mail` out for `c`, after clearing or not. */
  lemma AccountedHandOut(s: Server, s': Server, c: string, mail: seq<Msg>, cleared: bool, whole: bool)
    requires Accounted(s, whole) && (whole ==> !cleared)
    requires forall d :: Box(s'.db.drained, d) ==
               (if cleared then [] else Box(s.db.drained, d)) + if d == c then mail else []
    requires c in s.threads && c in s'.threads && s'.threads == s.threads[c := s'.threads[c]]
    requires Mails(Replied(s'.threads[c])) == Mails(Replied(s.threads[c])) + mail
    ensures Accounted(s', whole)
  {
    hide Account, Mails, Replied, Box;
    forall d ensures if d in s'.threads then Account(Mails(Replied(s'.threads[d])), Box(s'.db.drained, d), whole)
                     else Box(s'.db.drained, d) == [] {
      if d in s'.threads {
        var all := Mails(Replied(s.threads[d]));
        assert d != c ==> s'.threads[d] == s.threads[d];
        AccountLost(all);
        var before := if cleared then [] else Box(s.db.drained, d);
        assert Account(all, before, whole);
        AccountGrows(all, before, if d == c then mail else [], whole);
        assert d != c ==> all + [] == all && before + [] == before;
      }
    }
  }

  lemma {:induction false} ProcessedAllDrained(s: State, arrivals: seq<Arrival>)
    ensures var s' := ProcessedAll(s, arrivals);
            s'.drained == s.drained || (T.SomeClears(arrivals) && s'.drained == map[])
  {
    hide Processed, T.Clears;
    if arrivals != [] {
      var n := |arrivals| - 1;
      ProcessedAllDrained(s, arrivals[..n]);
      if T.SomeClears(arrivals[..n]) {
        var i :| 0 <= i < n && T.Clears(arrivals[..n][i]);
        assert T.Clears(arrivals[i]);
      }
      ProcessedDrained(ProcessedAll(s, arrivals[..n]), arrivals[n]);
    }
  }

  lemma ProcessedDrained(s: State, a: Arrival)
    ensures if T.Clears(a) then Processed(s, a).drained == map[] else Processed(s, a).drained == s.drained
  {
    if !T.Clears(a) {
      T.ProcessedMail(s, a, "");
    }
    hide Notified, Registered, WildcardRegistered, Unregistered, WildcardUnregistered, AsksToClear;
  }

  lemma ReceivedDrained(s: State, c: string, arrivals: seq<Arrival>, own: seq<Arrival>) returns (cleared: bool)
    ensures cleared ==> T.SomeClears(arrivals) || T.SomeClears(own)
    ensures var (s', mail) := PacketReceived(s, c, arrivals, own);
            forall d :: Box(s'.drained, d) == (if cleared then [] else Box(s.drained, d)) + if d == c then mail else []
  {
    hide ProcessedAll, T.SomeClears;
    var s1 := ProcessedAll(s, arrivals);
    ProcessedAllDrained(s, arrivals);
    ProcessedAllDrained(s1, own);
    cleared := ProcessedAll(s1, own).drained != s.drained;
  }

  lemma FetchedDrained(s: State, c: string)
    ensures var (s', mail) := MailFetched(s, c);
            forall d :: Box(s'.drained, d) == Box(s.drained, d) + if d == c then mail else []
  {
  }

  lemma ServeAccounted(s: Server, w: Work, whole: bool)
    requires Inv(s) && Accounted(s, whole) && Enabled(s, Serve(w)) && (whole ==> !ClearsIn(Serve(w)))
    ensures Accounted(Step(s, Serve(w)), whole)
  {
    hide Queues, Registry, Round, D.Inv, Accounted, PacketReceived, HasNotify, WorkFor, Mails,
         Replied, Head, T.SomeClears;
    InHandKnown(s);
    var c, msgs, s' := s.phase.item.who, s.phase.item.msgs, Step(s, Serve(w));
    if msgs == [] {
      AccountedOneThread(s, s', c, whole);
    } else {
      var t, mail := s.threads[c], PacketReceived(s.db, c, w.arrivals, w.own).1;
      var cleared := ReceivedDrained(s.db, c, w.arrivals, w.own);
      ThreadMail(t, msgs, true, PktWrite(Head(t, msgs, w.clock), mail, w.replies));
      AccountedHandOut(s, s', c, mail, cleared, whole);
    }
  }

  lemma InHandKnown(s: Server)
    requires Inv(s) && s.phase.InHand?
    ensures s.phase.item.who in s.threads
  {
    hide Queues, Registry, Round, D.Inv;
    InHandIsKnown(s);
  }

  lemma OfferAccounted(s: Server, c: string, whole: bool)
    requires Accounted(s, whole) && Enabled(s, Offer(c))
    ensures Accounted(Step(s, Offer(c)), whole)
  {
    hide Accounted, MailFetched, Mails, Replied;
    var s', t := Step(s, Offer(c)), s.threads[c];
    if t.async {
      var mail := MailFetched(s.db, c).1;
      FetchedDrained(s.db, c);
      ThreadMail(t, [], true, PktWrite([], mail, []));
      assert forall d :: (if false then [] else Box(s.db.drained, d)) == Box(s.db.drained, d);
      AccountedHandOut(s, s', c, mail, false, whole);
    } else {
      assert s'.threads == s.threads[c := t];
      AccountedOneThread(s, s', c, whole);
    }
  }

  lemma ConnectAccounted(s: Server, a: Action, whole: bool)
    requires Inv(s) && Accounted(s, whole) && a.Connect? && Enabled(s, a)
    ensures Accounted(Step(s, a), whole)
  {
    hide Queues, Round, D.Inv, Notified, Registry, UniqueName, Connected, Accounted;
    if UniqueName(s, a.name) {
      RegistryConnect(s, a.fd, a.name, a.wantsAsync);
      ConnectedShape(s, a.fd, a.name, a.wantsAsync, a.announcement, a.inRound);
      T.NotifiedMail(s.db, a.announcement.msg, a.announcement.now, "");
      AccountedNewThread(s, Step(s, a), a.name, whole);
    } else {
      TurnedAway(s, a);
    }
  }

  lemma AccountedNewThread(s: Server, s': Server, c: string, whole: bool)
    requires Accounted(s, whole) && c !in s.threads && s'.db.drained == s.db.drained
    requires c in s'.threads && s'.threads == s.threads[c := s'.threads[c]] && Replied(s'.threads[c]) == []
    ensures Accounted(s', whole)
  {
    hide Replied;
    assert Account(Mails([]), [], whole);
    hide Account, Mails;
    forall d | d in s'.threads && d != c ensures s'.threads[d] == s.threads[d] {
    }
  }

  lemma DepartAccounted(s: Server, ann: Arrival, whole: bool)
    requires Inv(s) && Accounted(s, whole) && Enabled(s, Depart(ann))
    ensures Accounted(Step(s, Depart(ann)), whole)
  {
    hide Queues, Round, D.Inv, Notified, Registry, Departed, Account, Mails, Replied;
    InHandKnown(s);
    var c := s.phase.item.who;
    RegistryDepart(s, c, ann);
    D.BoxWithout(s.db.drained, c);
    T.NotifiedMail(Forgotten(s.db, c), ann.msg, ann.now, "");
  }

  lemma StepAccounted(s: Server, a: Action, whole: bool)
    requires Inv(s) && Accounted(s, whole) && (whole ==> !ClearsIn(a))
    ensures Accounted(Next(s, a), whole)
  {
    hide Accounted, Mails, Replied, Queues, Round, D.Inv, ClearsIn;
    if Enabled(s, a) {
      match a
      case Connect(_, _, _, _, _) => ConnectAccounted(s, a, whole);
      case Read(c, msgs) =>
        ThreadMail(s.threads[c], msgs, true, CloseMark);
        AccountedOneThread(s, Step(s, a), c, whole);
      case HangUp(c) =>
        ThreadMail(s.threads[c], [], true, CloseMark);
        AccountedOneThread(s, Step(s, a), c, whole);
      case SelectFails(c) =>
        SameReplied(s.threads[c], s.threads[c].(reader := Vanished));
        AccountedOneThread(s, Step(s, a), c, whole);
      case TakeReply(c, sendOk) => TakeAccounted(s, c, sendOk, whole);
      case Write(c, sendOk) =>
        ThreadMail(s.threads[c], [], sendOk, CloseMark);
        AccountedOneThread(s, Step(s, a), c, whole);
      case Pull => SameAccounted(s, Step(s, a), whole);
      case Serve(w) => ServeAccounted(s, w, whole);
      case Offer(c) => OfferAccounted(s, c, whole);
      case EndRound => SameAccounted(s, Step(s, a), whole);
      case Depart(ann) => DepartAccounted(s, ann, whole);
    }
  }

  lemma SameReplied(t: ClientThread, t': ClientThread)
    requires t'.taken == t.taken && t'.outgoing == t.outgoing
    ensures Replied(t') == Replied(t)
  {
  }

  lemma SameAccounted(s: Server, s': Server, whole: bool)
    requires Accounted(s, whole) && s'.threads == s.threads && s'.db == s.db
    ensures Accounted(s', whole)
  {
    hide Account, Mails, Replied;
  }

  lemma TakeAccounted(s: Server, c: string, sendOk: bool, whole: bool)
    requires Inv(s) && Accounted(s, whole) && Enabled(s, TakeReply(c, sendOk))
    ensures Accounted(Step(s, TakeReply(c, sendOk)), whole)
  {
    hide Accounted, Mails, Replied, Registry, Round, D.Inv, InOrder, Line, Of;
    var t := s.threads[c];
    ItsQueue(s, c);
    TakeInOrder(c, t, Of(c, Line(s)));
    ThreadMail(t, [], true, CloseMark);
    ThreadMail(AfterTake(t), [], true, CloseMark);
    AccountedOneThread(s, Step(s, TakeReply(c, sendOk)), c, whole);
  }

  lemma StartAccounted(community: string, t: real, timing: Timing)
    ensures Accounted(Start(Initial(community, t), timing), true)
  {
  }

  lemma {:induction false} RunAccounted(community: string, t: real, timing: Timing, actions: seq<Action>, whole: bool)
    requires whole ==> forall i :: 0 <= i < |actions| ==> !ClearsIn(actions[i])
    ensures var s := Run(Start(Initial(community, t), timing), actions);
            Inv(s) && Accounted(s, whole)
  {
    hide Inv, Next, ClearsIn, Initial, Account;
    var s0 := Start(Initial(community, t), timing);
    if actions == [] {
      D.InitialInv(community, t);
      StartInv(Initial(community, t), timing);
      StartAccounted(community, t, timing);
      WholeIsMore(s0, whole);
    } else {
      hide Accounted;
      var n := |actions| - 1;
      RunAccounted(community, t, timing, actions[..n], whole);
      StepInv(Run(s0, actions[..n]), actions[n]);
      StepAccounted(Run(s0, actions[..n]), actions[n], whole);
    }
  }

  lemma WholeIsMore(s: Server, whole: bool)
    requires Accounted(s, true)
    ensures Accounted(s, whole)
  {
    hide Mails, Replied;
  }

  /** Whatever the interleaving, the mail in the packets taken off a connected client's list, followed by
      the mail in those waiting for it, followed by what the database still holds, ends with
      everything put in its box since the box last lost mail, in order and without gaps; and if
      the database was never cleared, it is exactly that. */
  lemma MailArrivesInOrder(community: string, t: real, timing: Timing, actions: seq<Action>, c: string, whole: bool)
    requires whole ==> forall i :: 0 <= i < |actions| ==> !ClearsIn(actions[i])
    ensures var s := Run(Start(Initial(community, t), timing), actions);
            c in s.threads ==>
              var th := s.threads[c];
              Account(Mails(th.taken + th.outgoing) + Box(s.db.held, c), Box(s.db.placed, c), whole)
  {
    hide Run, Start, Initial, Queues, Round, Registry, Mails, ClearsIn;
    RunAccounted(community, t, timing, actions, whole);
    var s := Run(Start(Initial(community, t), timing), actions);
    assert Box(s.db.placed, c) == Box(s.db.drained, c) + Box(s.db.held, c);
    if c in s.threads {
      AccountGrows(Mails(Replied(s.threads[c])), Box(s.db.drained, c), Box(s.db.held, c), whole);
    }
  }

  /** When mail has been offered round after a notification and nobody joined meanwhile, nothing
      is held for any asynchronous client: all its mail is in its packets. */
  lemma UndisturbedRoundDelivers(community: string, t: real, timing: Timing, actions: seq<Action>, c: string)
    ensures var s := Run(Start(Initial(community, t), timing), actions);
            s.phase == Sweeping({}, true) && c in s.threads && s.threads[c].async ==>
              var th := s.threads[c];
              Box(s.db.held, c) == [] && EndsWith(Mails(th.taken + th.outgoing), Box(s.db.placed, c))
  {
    MailArrivesInOrder(community, t, timing, actions, c, false);
    hide Run, Start, Initial, Queues, Registry, Mails, D.Inv;
    RunAccounted(community, t, timing, actions, false);
    var s := Run(Start(Initial(community, t), timing), actions);
    if s.phase == Sweeping({}, true) && c in s.threads && s.threads[c].async {
      var all := Mails(s.threads[c].taken + s.threads[c].outgoing);
      assert all + Box(s.db.held, c) == all;
    }
  }

  // --------------------------------------------------------------------- what starts a round

  /** Serving a packet that is not empty starts a round of offers to every client there is if and only
      if a message of the packet, wherever it stands in it, is a notification; otherwise the server
      is free again. */
  lemma ServingStartsRound(s: Server, w: Work)
    requires Inv(s) && Enabled(s, Serve(w)) && s.phase.item.msgs != []
    ensures var msgs, s' := s.phase.item.msgs, Step(s, Serve(w));
            && s'.threads.Keys == s.threads.Keys
            && (s'.phase == Sweeping(s.threads.Keys, true) <==>
                  exists i :: 0 <= i < |msgs| && msgs[i].msgType == MOOS_NOTIFY)
            && (s'.phase == Free <==> forall i :: 0 <= i < |msgs| ==> msgs[i].msgType != MOOS_NOTIFY)
  {
    hide PacketReceived, D.Inv, Registry, Round, InOrder, WorkFor;
    InHandIsKnown(s);
  }

  // ------------------------------------------------------- rounds that clients join meanwhile

  /** Every state of the run is part of one round of offers. */
  predicate StaysInRound(s: Server, actions: seq<Action>) {
    Run(s, actions).phase.Sweeping? && (actions == [] || StaysInRound(s, actions[..|actions| - 1]))
  }

  /** What was in `c`'s box when the round began is still accounted for, and is handed out once `c`
      has had its turn. */
  ghost predicate TurnKept(s: Server, c: string, placed: seq<Msg>) {
    && s.phase.Sweeping? && c in s.threads && s.threads[c].async
    && placed <= Box(s.db.placed, c)
    && (c !in s.phase.todo ==> placed <= Box(s.db.drained, c))
  }

  lemma TurnTaken(s: Server, c: string, placed: seq<Msg>)
    requires D.Inv(s.db) && TurnKept(s, c, placed) && Enabled(s, Offer(c))
    ensures TurnKept(Step(s, Offer(c)), c, placed)
  {
    T.FetchHandsOutInOrder(s.db, c);
    hide D.Inv, MailFetched;
  }

  lemma OtherTurnTaken(s: Server, d: string, c: string, placed: seq<Msg>)
    requires TurnKept(s, c, placed) && Enabled(s, Offer(d)) && d != c
    ensures TurnKept(Step(s, Offer(d)), c, placed)
  {
    var s' := Step(s, Offer(d));
    assert s'.db.placed == s.db.placed && Box(s'.db.drained, c) == Box(s.db.drained, c);
    hide MailFetched;
  }

  lemma JoinKeepsTurn(s: Server, a: Action, c: string, placed: seq<Msg>)
    requires Registry(s) && TurnKept(s, c, placed) && a.Connect? && Enabled(s, a)
    ensures TurnKept(Step(s, a), c, placed)
  {
    hide Registry, UniqueName, Notified;
    StarvedConnect(s, a, c);
    if UniqueName(s, a.name) {
      RegistryConnect(s, a.fd, a.name, a.wantsAsync);
      T.NotifiedMail(s.db, a.announcement.msg, a.announcement.now, c);
    }
  }

  /** What a client's own threads do touches neither the database nor the round. */
  lemma ThreadStepKeepsTurn(s: Server, a: Action, c: string, placed: seq<Msg>)
    requires Inv(s) && TurnKept(s, c, placed) && Enabled(s, a)
    requires a.Read? || a.HangUp? || a.SelectFails? || a.TakeReply? || a.Write?
    ensures TurnKept(Step(s, a), c, placed)
  {
    hide D.Inv, Registry, Queues, Round, AfterWrite, AfterTake;
    StaysAsync(s, a, c);
  }

  lemma TurnKeptStep(s: Server, a: Action, c: string, placed: seq<Msg>)
    requires Inv(s) && TurnKept(s, c, placed) && Next(s, a).phase.Sweeping?
    ensures TurnKept(Next(s, a), c, placed)
  {
    hide D.Inv, Registry, Queues, Round, TurnKept, Connected, Offered, HungUp, ReplyTaken, Served, Departed, WorkFor;
    if Enabled(s, a) {
      assert s.phase.Sweeping? by { InARound(s, c, placed); }
      if a.Connect? {
        JoinKeepsTurn(s, a, c, placed);
      } else if a.Offer? {
        if a.c == c {
          TurnTaken(s, c, placed);
        } else {
          OtherTurnTaken(s, a.c, c, placed);
        }
      } else {
        ThreadStepKeepsTurn(s, a, c, placed);
      }
    }
  }

  lemma InARound(s: Server, c: string, placed: seq<Msg>)
    requires TurnKept(s, c, placed)
    ensures s.phase.Sweeping?
  {
  }

  /** Whoever joins meanwhile: once an asynchronous client has had its turn in a round, all that was
      ever in its box when the round began, since the box last lost mail, has been handed out. */
  lemma {:induction false} EveryRoundDelivers(s: Server, actions: seq<Action>, c: string)
    requires Inv(s) && s.phase.Sweeping? && c in s.phase.todo && s.threads[c].async
    requires StaysInRound(s, actions)
    ensures Inv(Run(s, actions)) && TurnKept(Run(s, actions), c, Box(s.db.placed, c))
  {
    hide D.Inv, Registry, Queues, Next;
    if actions == [] {
    } else {
      hide Inv, TurnKept;
      var n := |actions| - 1;
      EveryRoundDelivers(s, actions[..n], c);
      StepInv(Run(s, actions[..n]), actions[n]);
      TurnKeptStep(Run(s, actions[..n]), actions[n], c, Box(s.db.placed, c));
    }
  }

  lemma {:induction false} RunsJoin(s: Server, before: seq<Action>, after: seq<Action>)
    ensures Run(s, before + after) == Run(Run(s, before), after)
  {
    hide Next;
    if after == [] {
      assert before + after == before;
    } else {
      var n := |after| - 1;
      RunsJoin(s, before, after[..n]);
      assert (before + after)[..|before| + n] == before + after[..n];
    }
  }

  /** From the start of the server: when a round is over, every asynchronous client that was due a
      turn in it has, in its packets, all that was in its box when the round began, and after that
      whatever was handed out later. */
  lemma RoundDelivers(community: string, t: real, timing: Timing, before: seq<Action>, round: seq<Action>, c: string)
    requires var s0 := Run(Start(Initial(community, t), timing), before);
             && s0.phase.Sweeping? && c in s0.phase.todo && c in s0.threads && s0.threads[c].async
             && StaysInRound(s0, round) && Run(s0, round).phase.todo == {}
    ensures var s0 := Run(Start(Initial(community, t), timing), before);
            var s := Run(s0, round);
            && c in s.threads && Box(s0.db.placed, c) <= Box(s.db.drained, c)
            && EndsWith(Mails(s.threads[c].taken + s.threads[c].outgoing), Box(s.db.drained, c))
  {
    hide Run, Start, Initial, Queues, Registry, Round, Mails, D.Inv;
    var start := Start(Initial(community, t), timing);
    RunAccounted(community, t, timing, before, false);
    EveryRoundDelivers(Run(start, before), round, c);
    RunsJoin(start, before, round);
    RunAccounted(community, t, timing, before + round, false);
    var s := Run(Run(start, before), round);
    assert Account(Mails(Replied(s.threads[c])), Box(s.db.drained, c), false);
  }

  /** From the packet to the packets: the server serves a packet with a notification in it; when the
      round this starts is over, every asynchronous client there was has, in its packets, all that
      was in its box once the packet had been worked on. */
  lemma NotificationDelivers(community: string, t: real, timing: Timing, before: seq<Action>, w: Work,
                             round: seq<Action>, c: string, i: nat)
    requires var s := Run(Start(Initial(community, t), timing), before);
             && Enabled(s, Serve(w)) && i < |s.phase.item.msgs| && s.phase.item.msgs[i].msgType == MOOS_NOTIFY
             && c in s.threads && s.threads[c].async
             && StaysInRound(Step(s, Serve(w)), round) && Run(Step(s, Serve(w)), round).phase.todo == {}
    ensures var s1 := Step(Run(Start(Initial(community, t), timing), before), Serve(w));
            var s2 := Run(s1, round);
            && c in s2.threads && Box(s1.db.placed, c) <= Box(s2.db.drained, c)
            && EndsWith(Mails(s2.threads[c].taken + s2.threads[c].outgoing), Box(s2.db.drained, c))
  {
    hide Run, Start, Initial, Inv, Step, Mails, D.Inv;
    var start := Start(Initial(community, t), timing);
    D.InitialInv(community, t);
    StartInv(Initial(community, t), timing);
    RunInv(start, before);
    var s := Run(start, before);
    ServingStartsRound(s, w);
    OneMoreAction(start, before, Serve(w));
    StaysAsync(s, Serve(w), c);
    RoundDelivers(community, t, timing, before + [Serve(w)], round, c);
  }

  lemma OneMoreAction(s: Server, actions: seq<Action>, a: Action)
    requires Enabled(Run(s, actions), a)
    ensures Run(s, actions + [a]) == Step(Run(s, actions), a)
  {
    hide Step;
    assert (actions + [a])[..|actions|] == actions;
  }

  // ---------------------------------------------------------------------------- consolidation

  ghost predicate AsTheyShould(s: Server) {
    forall c :: c in s.threads ==> s.threads[c].consolidation == Consolidation(s.timing, c)
  }

  lemma JoinConsolidates(s: Server, a: Action)
    requires Inv(s) && AsTheyShould(s) && a.Connect? && Enabled(s, a)
    ensures AsTheyShould(Step(s, a)) && Step(s, a).timing == s.timing
  {
    hide D.Inv, Queues, Round, Registry, Notified, UniqueName, Consolidation;
    if UniqueName(s, a.name) {
      RegistryConnect(s, a.fd, a.name, a.wantsAsync);
    }
  }

  lemma ConsolidationKept(s: Server, a: Action)
    requires Inv(s) && AsTheyShould(s)
    ensures AsTheyShould(Next(s, a)) && Next(s, a).timing == s.timing
  {
    hide D.Inv, Queues, Round, Registry, Notified, PacketReceived, MailFetched, Disconnected, HasNotify, WorkFor,
         UniqueName, Consolidation, Connected, Head;
    if Enabled(s, a) && a.Connect? {
      JoinConsolidates(s, a);
    }
  }

  /** In every reachable state each client is asked to consolidate for what the first pattern that
      matches its name says, from the moment it connects, whatever else happens. */
  lemma {:induction false} ConsolidationAsConfigured(community: string, t: real, timing: Timing, actions: seq<Action>)
    ensures var s := Run(Start(Initial(community, t), timing), actions);
            Inv(s) && AsTheyShould(s) && s.timing == timing
  {
    hide Inv, Next, Initial, Consolidation;
    var start := Start(Initial(community, t), timing);
    if actions == [] {
      D.InitialInv(community, t);
      StartInv(Initial(community, t), timing);
    } else {
      var n := |actions| - 1;
      ConsolidationAsConfigured(community, t, timing, actions[..n]);
      StepInv(Run(start, actions[..n]), actions[n]);
      ConsolidationKept(Run(start, actions[..n]), actions[n]);
    }
  }

  // ------------------------------------------------------------------- up-to-date clients

  lemma {:induction false} LastMailOfEnd(front: seq<Msg>, tail: seq<Msg>, k: string)
    requires D.HasMail(tail, k)
    ensures D.HasMail(front + tail, k) && D.LastMail(front + tail, k) == D.LastMail(tail, k)
  {
    var n := |tail| - 1;
    var all := front + tail;
    var i :| 0 <= i < |tail| && tail[i].key == k;
    assert all[|front| + i].key == k;
    if tail[n].key != k {
      assert D.HasMail(tail[..n], k) by { assert tail[..n][i] == tail[i]; }
      LastMailOfEnd(front, tail[..n], k);
      assert all[..|all| - 1] == front + tail[..n];
    }
  }

  /** From publisher to subscriber: in every reachable state of the server, a connected client
      that wants every change of a written variable has in its packets, taken or waiting, or held
      for it, a last message about that variable that carries its present value. */
  lemma EndToEndCoherence(community: string, t: real, timing: Timing, actions: seq<Action>, k: string, c: string)
    ensures var s := Run(Start(Initial(community, t), timing), actions);
            c in s.threads && k in s.db.vars && s.db.vars[k].writeCount > 0
            && c in s.db.vars[k].subscribers && s.db.vars[k].subscribers[c].period == 0.0 ==>
              var mail := Mails(s.threads[c].taken + s.threads[c].outgoing) + Box(s.db.held, c);
              D.HasMail(mail, k) && D.Carries(D.LastMail(mail, k), s.db.vars[k])
  {
    MailArrivesInOrder(community, t, timing, actions, c, false);
    hide Run, Start, Initial, Queues, Registry, Round, Mails, D.Inv, D.Carries, D.HasMail, D.LastMail, Box;
    RunAccounted(community, t, timing, actions, false);
    var s := Run(Start(Initial(community, t), timing), actions);
    if c in s.threads && k in s.db.vars && s.db.vars[k].writeCount > 0
       && c in s.db.vars[k].subscribers && s.db.vars[k].subscribers[c].period == 0.0 {
      var mail := Mails(s.threads[c].taken + s.threads[c].outgoing) + Box(s.db.held, c);
      SubscriberInformed(s.db, k, c);
      EndOf(mail, Box(s.db.placed, c));
      LastMailOfEnd(mail[..|mail| - |Box(s.db.placed, c)|], Box(s.db.placed, c), k);
    }
  }

  lemma SubscriberInformed(s: State, k: string, c: string)
    requires D.Inv(s) && k in s.vars && s.vars[k].writeCount > 0
    requires c in s.vars[k].subscribers && s.vars[k].subscribers[c].period == 0.0
    ensures D.HasMail(Box(s.placed, c), k) && D.Carries(D.LastMail(Box(s.placed, c), k), s.vars[k])
  {
    assert D.Informed(s.vars[k], Box(s.placed, c), k);
  }

  lemma EndOf(all: seq<Msg>, tail: seq<Msg>)
    requires EndsWith(all, tail)
    ensures all == all[..|all| - |tail|] + tail
  {
  }
}
