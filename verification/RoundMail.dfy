/** What is held for a client between its turn in a round of offers and the end of the round: exactly
    what the announcements of clients that join meanwhile put there. */
module RoundMail {
  import opened Messages
  import opened DbState
  import D = DbInvariants
  import opened CommServer
  import opened CommServerInvariants
  import opened CommServerTheorems

  /** A client joins, and announcing it makes mail for `c`. */
  predicate JoinReaches(s: Server, a: Action, c: string) {
    && a.Connect? && Enabled(s, a) && UniqueName(s, a.name)
    && var m := a.announcement.msg;
       Opened(s.db, m).dataType == m.dataType && c in Recipients(Opened(s.db, m), a.announcement.now)
  }

  /** `c` has had its turn in the round. */
  predicate HadTurn(s: Server, c: string) {
    s.phase.Sweeping? && c in s.threads && s.threads[c].async && c !in s.phase.todo
  }

  lemma AnnouncementHeld(s: State, m: Msg, now: real, c: string)
    ensures Box(Notified(s, m, now).held, c) == [] <==>
            Box(s.held, c) == [] && !(Opened(s, m).dataType == m.dataType && c in Recipients(Opened(s, m), now))
  {
    hide Opened, Recipients, Stamped, DbVar.Written, WithCommunity, PutAll;
    D.PutAllBox(s.held, Recipients(Opened(s, m), now), WithCommunity(s, m).(msgType := MOOS_NOTIFY), c);
  }

  lemma JoinHeld(s: Server, a: Action, c: string)
    requires Registry(s) && HadTurn(s, c) && a.Connect? && Enabled(s, a)
    ensures HadTurn(Step(s, a), c)
    ensures Box(Step(s, a).db.held, c) == [] <==> Box(s.db.held, c) == [] && !JoinReaches(s, a, c)
  {
    hide Registry, UniqueName, Notified, Opened, Recipients, Connected;
    StarvedConnect(s, a, c);
    if UniqueName(s, a.name) {
      RegistryConnect(s, a.fd, a.name, a.wantsAsync);
      ConnectedShape(s, a.fd, a.name, a.wantsAsync, a.announcement, a.inRound);
      AnnouncementHeld(s.db, a.announcement.msg, a.announcement.now, c);
    } else {
      TurnedAway(s, a);
    }
  }

  lemma OfferHeld(s: Server, d: string, c: string)
    requires HadTurn(s, c) && Enabled(s, Offer(d))
    ensures HadTurn(Step(s, Offer(d)), c) && Box(Step(s, Offer(d)).db.held, c) == Box(s.db.held, c)
  {
    assert d != c;
    hide PushedUnlessEmpty;
  }

  lemma ThreadStepHeld(s: Server, a: Action, c: string)
    requires Inv(s) && HadTurn(s, c) && Enabled(s, a)
    requires a.Read? || a.HangUp? || a.SelectFails? || a.TakeReply? || a.Write?
    ensures HadTurn(Step(s, a), c) && Step(s, a).db == s.db
  {
    hide D.Inv, Registry, Queues, Round, AfterWrite, AfterTake;
    StaysAsync(s, a, c);
  }

  lemma StepHeld(s: Server, a: Action, c: string)
    requires Inv(s) && HadTurn(s, c) && Next(s, a).phase.Sweeping?
    ensures HadTurn(Next(s, a), c)
    ensures Box(Next(s, a).db.held, c) == [] <==> Box(s.db.held, c) == [] && !JoinReaches(s, a, c)
  {
    hide D.Inv, Registry, Queues, Round, Connected, Offered, HungUp, ReplyTaken, Served, Departed, WorkFor, UniqueName,
         Opened, Recipients;
    if Enabled(s, a) {
      if a.Connect? {
        JoinHeld(s, a, c);
      } else if a.Offer? {
        OfferHeld(s, a.c, c);
      } else {
        ThreadStepHeld(s, a, c);
      }
    }
  }

  /** Some join of the run reached `c`. */
  predicate SomeJoinReaches(s: Server, actions: seq<Action>, c: string) {
    exists i :: 0 <= i < |actions| && JoinReaches(Run(s, actions[..i]), actions[i], c)
  }

  lemma OneMoreJoin(s: Server, actions: seq<Action>, c: string)
    requires actions != []
    ensures var n := |actions| - 1;
            SomeJoinReaches(s, actions, c) <==>
              SomeJoinReaches(s, actions[..n], c) || JoinReaches(Run(s, actions[..n]), actions[n], c)
  {
    hide JoinReaches, Run;
    var n := |actions| - 1;
    assert forall i :: 0 <= i < n ==> actions[..n][..i] == actions[..i] && actions[..n][i] == actions[i];
    if SomeJoinReaches(s, actions[..n], c) {
      var i :| 0 <= i < n && JoinReaches(Run(s, actions[..n][..i]), actions[..n][i], c);
      assert JoinReaches(Run(s, actions[..i]), actions[i], c);
    }
    if SomeJoinReaches(s, actions, c) {
      var i :| 0 <= i < |actions| && JoinReaches(Run(s, actions[..i]), actions[i], c);
      if i < n {
        assert JoinReaches(Run(s, actions[..n][..i]), actions[..n][i], c);
      }
    }
  }

  /** Between a client's turn and the end of the round, nothing is held for it if and only if nothing
      was and no client that joined reached it with its announcement. */
  lemma {:induction false} HeldIff(s: Server, actions: seq<Action>, c: string)
    requires Inv(s) && HadTurn(s, c) && StaysInRound(s, actions)
    ensures Inv(Run(s, actions)) && HadTurn(Run(s, actions), c)
    ensures Box(Run(s, actions).db.held, c) == [] <==>
            Box(s.db.held, c) == [] && !SomeJoinReaches(s, actions, c)
  {
    hide Inv, HadTurn, Next, JoinReaches, SomeJoinReaches;
    if actions == [] {
      NoJoins(s, c);
    } else {
      var n := |actions| - 1;
      HeldIff(s, actions[..n], c);
      StepInv(Run(s, actions[..n]), actions[n]);
      StepHeld(Run(s, actions[..n]), actions[n], c);
      OneMoreJoin(s, actions, c);
    }
  }

  lemma NoJoins(s: Server, c: string)
    ensures !SomeJoinReaches(s, [], c)
  {
  }

  lemma AfterItsTurn(s: Server, c: string)
    requires Inv(s) && Enabled(s, Offer(c)) && s.threads[c].async
    ensures Inv(Step(s, Offer(c))) && HadTurn(Step(s, Offer(c)), c) && Box(Step(s, Offer(c)).db.held, c) == []
  {
    StepInv(s, Offer(c));
    hide Inv, PushedUnlessEmpty;
  }

  /** From the start of the server: an asynchronous client has its turn, and the round goes on. At
      the end mail is held for the client if and only if somebody joined after its turn whose
      announcement reached it. */
  lemma MailLeftHeldIff(community: string, t: real, timing: Timing, before: seq<Action>, round: seq<Action>, c: string)
    requires var s0 := Run(Start(Initial(community, t), timing), before);
             && Enabled(s0, Offer(c)) && s0.threads[c].async && StaysInRound(Step(s0, Offer(c)), round)
    ensures var s1 := Step(Run(Start(Initial(community, t), timing), before), Offer(c));
            && c in Run(s1, round).threads
            && (Box(Run(s1, round).db.held, c) != [] <==> SomeJoinReaches(s1, round, c))
  {
    hide Run, Start, Initial, Inv, Step, SomeJoinReaches, D.Inv;
    D.InitialInv(community, t);
    StartInv(Initial(community, t), timing);
    RunInv(Start(Initial(community, t), timing), before);
    var s0 := Run(Start(Initial(community, t), timing), before);
    AfterItsTurn(s0, c);
    HeldIff(Step(s0, Offer(c)), round, c);
  }
}
