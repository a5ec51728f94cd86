/** A round of offers that a client joins: the joining is announced after another client has had its
    turn, and that client's mail stays in its box when the round is over. */
module JoinedRound {
  import opened Messages
  import opened DbState
  import D = DbInvariants
  import T = DbTheorems
  import H = DbHandlers
  import opened CommServer
  import opened CommServerInvariants
  import opened CommServerTheorems

  const TOPIC: string := "DB_EVENT"

  /** What the database announces when a client connects. */
  const EVENT: Msg := BLANK.(msgType := MOOS_NOTIFY, dataType := MOOS_STRING, key := TOPIC, src := "DB")

  function Ask(c: string): Msg {
    BLANK.(msgType := MOOS_REGISTER, key := TOPIC, src := c, number := 0.0)
  }

  function Now(m: Msg): Arrival {
    Arrival(m, 0.0, [])
  }

  function Joins(fd: nat, c: string): Action {
    Connect(fd, c, true, Now(EVENT), false)
  }

  function ServeOne(m: Msg): Action {
    Serve(Work([Now(m)], [], [], 0.0))
  }

  /** Only `c` is there, asynchronous, its reader idle and the line empty. */
  ghost predicate Alone(s: Server, c: string) {
    && Inv(s) && s.shared == [] && s.socket2Client.Keys == {0}
    && s.threads.Keys == {c} && s.threads[c].async && s.threads[c].reader.Idle?
  }

  predicate Written(db: State) {
    TOPIC in db.vars && db.vars[TOPIC].writeCount > 0 && db.vars[TOPIC].dataType == MOOS_STRING
  }

  predicate Listens(db: State, c: string) {
    && Written(db)
    && c in db.vars[TOPIC].subscribers && db.vars[TOPIC].subscribers[c].period == 0.0
  }

  // ---------------------------------------------------------------------- what the database does

  lemma FirstAnnouncement(community: string, t: real)
    ensures Written(Notified(Initial(community, t), EVENT, 0.0))
  {
    D.InitialInv(community, t);
    H.WriteIsRemembered(Initial(community, t), Now(EVENT));
    hide D.Inv, Notified;
  }

  lemma AskedFor(db: State, c: string)
    requires D.Inv(db) && Written(db) && c != ""
    ensures Listens(Processed(db, Now(Ask(c))), c)
  {
    H.RegisterAnswers(db, Now(Ask(c)));
    hide D.Inv, Processed;
  }

  /** A further event reaches whoever listens, who goes on listening. */
  lemma StillListens(db: State, c: string)
    requires Listens(db, c)
    ensures Listens(Notified(db, EVENT, 0.0), c)
    ensures |Box(Notified(db, EVENT, 0.0).placed, c)| > |Box(db.placed, c)|
    ensures Processed(db, Now(EVENT)) == Notified(db, EVENT, 0.0)
  {
    T.SendsAreStamped(db, EVENT, 0.0, c);
    KeepsType(db);
    hide Notified;
  }

  lemma KeepsType(db: State)
    requires Written(db)
    ensures Written(Notified(db, EVENT, 0.0))
  {
  }

  lemma OneProcessed(db: State, c: string, a: Arrival)
    ensures PacketReceived(db, c, [a], []).0.vars == Processed(db, a).vars
  {
    hide Processed;
    assert [a][..0] == [];
    assert ProcessedAll(db, [a]) == Processed(db, a);
  }

  lemma SameListening(db: State, db': State, c: string)
    requires Listens(db, c) && db'.vars == db.vars
    ensures Listens(db', c)
  {
  }

  lemma HeldGrows(db: State, db': State, c: string)
    requires D.Conserved(db) && D.Conserved(db') && db'.drained == db.drained
    requires |Box(db'.placed, c)| > |Box(db.placed, c)|
    ensures Box(db'.held, c) != []
  {
  }

  // ------------------------------------------------------------------------ what the server does

  lemma FirstJoins(community: string, t: real, timing: Timing, c: string)
    ensures var s := Next(Start(Initial(community, t), timing), Joins(0, c));
            Alone(s, c) && s.phase == Free && Written(s.db)
  {
    hide Inv, Initial, Notified, EVENT, TOPIC, Queues, Round, D.Inv, Written;
    var s0 := Start(Initial(community, t), timing);
    FirstAnnouncement(community, t);
    D.InitialInv(community, t);
    StartInv(s0.db, timing);
    StepInv(s0, Joins(0, c));
    RegistryConnect(s0, 0, c, true);
  }

  /** The message of `c` has come into the server's hand. */
  lemma OnePulled(s: Server, c: string, m: Msg)
    requires Alone(s, c) && s.phase == Free
    ensures var s' := Next(Next(s, Read(c, [m])), Pull);
            Alone(s', c) && s'.phase == InHand(PktRead(c, [m])) && s'.db == s.db
  {
    hide Inv, WorkFor, Served, Connected, Departed, Offered, HungUp, ReplyTaken, AfterWrite;
    var s1 := Next(s, Read(c, [m]));
    StepInv(s, Read(c, [m]));
    StepInv(s1, Pull);
  }

  lemma WorkOnOne(m: Msg)
    requires m.msgType != MOOS_TIMING
    ensures WorkFor([m], Work([Now(m)], [], [], 0.0))
    ensures HasNotify([m]) <==> m.msgType == MOOS_NOTIFY
  {
    assert [m][0] == m;
  }

  lemma OneFromHand(s: Server, c: string, m: Msg)
    requires Alone(s, c) && s.phase == InHand(PktRead(c, [m])) && m.msgType != MOOS_TIMING
    ensures var s' := Next(s, ServeOne(m));
            && Alone(s', c) && s'.db.vars == Processed(s.db, Now(m)).vars
            && s'.phase == if m.msgType == MOOS_NOTIFY then Sweeping({c}, true) else Free
  {
    hide Inv, Processed, Head, WorkFor, HasNotify, PacketReceived, Connected, Departed, Offered, HungUp, ReplyTaken;
    StepInv(s, ServeOne(m));
    WorkOnOne(m);
    OneProcessed(s.db, c, Now(m));
  }

  lemma TurnComes(s: Server, c: string)
    requires Alone(s, c) && s.phase == Sweeping({c}, true)
    ensures var s' := Next(s, Offer(c));
            Alone(s', c) && s'.phase == Sweeping({}, true) && s'.db.vars == s.db.vars
  {
    hide Inv, WorkFor, Connected, Departed, Served, HungUp, ReplyTaken, AfterWrite;
    StepInv(s, Offer(c));
    assert {c} - {c} == {};
  }

  lemma SecondJoins(s: Server, c: string, d: string)
    requires Alone(s, c) && s.phase == Sweeping({}, true) && Listens(s.db, c) && d != c
    ensures var s' := Next(s, Joins(1, d));
            && s'.phase == Sweeping({}, false) && c in s'.threads && s'.threads[c].async
            && Box(s'.db.held, c) != []
  {
    hide Queues, Round, Notified, Registry, Listens, EVENT, TOPIC;
    StepInv(s, Joins(1, d));
    StillListens(s.db, c);
    T.NotifiedMail(s.db, EVENT, 0.0, c);
    UniqueIsUnregistered(s, d);
    RegistryConnect(s, 1, d, true);
    HeldGrows(s.db, Next(s, Joins(1, d)).db, c);
  }

  // ------------------------------------------------------------------------------------ the run

  lemma OneMore(s: Server, actions: seq<Action>, a: Action)
    ensures Run(s, actions + [a]) == Next(Run(s, actions), a)
  {
    hide Next;
    assert (actions + [a])[..|actions|] == actions;
  }

  /** One message of `c` is read, pulled and served. */
  lemma OneServed(s0: Server, done: seq<Action>, s: Server, c: string, m: Msg)
    returns (actions: seq<Action>, s': Server)
    requires Run(s0, done) == s && Alone(s, c) && s.phase == Free && m.msgType != MOOS_TIMING
    ensures Run(s0, actions) == s' && Alone(s', c) && s'.db.vars == Processed(s.db, Now(m)).vars
    ensures s'.phase == if m.msgType == MOOS_NOTIFY then Sweeping({c}, true) else Free
  {
    hide Run, Next, Processed, Alone;
    var s1 := Next(s, Read(c, [m]));
    var s2 := Next(s1, Pull);
    OnePulled(s, c, m);
    OneFromHand(s2, c, m);
    s' := Next(s2, ServeOne(m));
    OneMore(s0, done, Read(c, [m]));
    OneMore(s0, done + [Read(c, [m])], Pull);
    OneMore(s0, done + [Read(c, [m])] + [Pull], ServeOne(m));
    actions := done + [Read(c, [m])] + [Pull] + [ServeOne(m)];
  }

  lemma AloneDb(s: Server, c: string)
    requires Alone(s, c)
    ensures D.Inv(s.db)
  {
    hide D.Inv;
  }

  /** A reachable state: the round is over and an asynchronous client has mail held, because
      somebody joined after its turn. */
  lemma JoinLeavesMailHeld(community: string, t: real, timing: Timing, c: string, d: string)
    returns (actions: seq<Action>)
    requires c != "" && d != c
    ensures var s := Run(Start(Initial(community, t), timing), actions);
            && s.phase == Sweeping({}, false) && c in s.threads && s.threads[c].async
            && Box(s.db.held, c) != []
  {
    hide Next, Processed, Notified, Listens, Written, D.Inv, Alone, Initial;
    var s0 := Start(Initial(community, t), timing);
    assert Run(s0, []) == s0;
    FirstJoins(community, t, timing, c);
    var s1 := Next(s0, Joins(0, c));
    OneMore(s0, [], Joins(0, c));
    var s2, s3;
    actions, s2 := OneServed(s0, [] + [Joins(0, c)], s1, c, Ask(c));
    AloneDb(s1, c);
    AskedFor(s1.db, c);
    SameListening(Processed(s1.db, Now(Ask(c))), s2.db, c);
    actions, s3 := OneServed(s0, actions, s2, c, EVENT);
    StillListens(s2.db, c);
    SameListening(Notified(s2.db, EVENT, 0.0), s3.db, c);
    TurnComes(s3, c);
    OneMore(s0, actions, Offer(c));
    actions := actions + [Offer(c)];
    var s4 := Next(s3, Offer(c));
    SameListening(s3.db, s4.db, c);
    SecondJoins(s4, c, d);
    OneMore(s0, actions, Joins(1, d));
    actions := actions + [Joins(1, d)];
  }
}
