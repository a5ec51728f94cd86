/** The threaded server as a state machine. A listening thread accepts clients; each client has a
    reader thread and, if it is asynchronous, a writer thread; one server thread works through a
    list shared by all readers. A step is one region under the socket list lock or one operation
    of one thread, so a run is any interleaving of the threads. Branches the code reports as
    errors record a fault. */
module CommServer {
  import opened Messages
  import opened DbState
  import Glob

  /** `Vanished` is a reader whose `select` failed: it ends without telling anybody. */
  datatype Reader = Idle | Waiting | Dead | Vanished

  /** What readers put in the shared list. */
  datatype Upward =
    | PktRead(who: string, msgs: seq<Msg>)
    | ConnectionClosed(who: string)

  /** What waits in the list of one client. A packet is a head the server adds, the client's mail,
      and answers to the client's own queries. */
  datatype Downward =
    | PktWrite(head: seq<Msg>, mail: seq<Msg>, replies: seq<Msg>)
    | CloseMark

  /** `read` records the packets that came off the socket, `taken` what was taken off the list to be
      sent, whether or not sending it then failed. */
  datatype ClientThread = ClientThread(
    fd: nat,
    async: bool,
    consolidation: real,
    reader: Reader,
    writing: bool,
    outgoing: seq<Downward>,
    read: seq<seq<Msg>>,
    taken: seq<Downward>
  )

  datatype Fault = DuplicateThread | UnknownClient | NoThreadToClose | SocketUnknown | NotAReply | ReplyLeftOver

  /** What the server thread is doing. While it offers mail to the clients in `todo`, a client may
      connect and so put mail in boxes already emptied: the round is then no longer undisturbed. */
  datatype Phase =
    | Free
    | InHand(item: Upward)
    | Sweeping(todo: set<string>, undisturbed: bool)

  datatype Server = Server(
    db: State,
    threads: map<string, ClientThread>,
    socket2Client: map<nat, string>,
    asyncClients: set<string>,
    shared: seq<Upward>,
    phase: Phase,
    faults: seq<Fault>,
    timing: Timing
  )

  function Start(db: State, timing: Timing): Server {
    Server(db, map[], map[], {}, [], Free, [], timing)
  }

  // ------------------------------------------------------------------------ consolidation

  /** Patterns of client names with the milliseconds those clients are asked to consolidate. */
  type Timing = seq<(string, real)>

  /** In seconds, as the first matching pattern says. */
  function Consolidation(timing: Timing, name: string): real {
    if timing == [] then 0.0
    else if Glob.Wild(timing[0].0, name) then timing[0].1 / 1000.0
    else Consolidation(timing[1..], name)
  }

  lemma {:induction false} FirstPatternDecides(timing: Timing, name: string, i: nat)
    requires i <= |timing| && forall j :: 0 <= j < i ==> !Glob.Wild(timing[j].0, name)
    ensures i == |timing| ==> Consolidation(timing, name) == 0.0
    ensures i < |timing| && Glob.Wild(timing[i].0, name) ==> Consolidation(timing, name) == timing[i].1 / 1000.0
  {
    hide Glob.Wild;
    if i > 0 {
      FirstPatternDecides(timing[1..], name, i - 1);
    }
  }

  // ------------------------------------------------------------------ the listening thread

  predicate UniqueName(s: Server, name: string) {
    forall fd :: fd in s.socket2Client ==> s.socket2Client[fd] != name
  }

  function HandShaken(s: Server, fd: nat, name: string, async: bool): Server {
    s.(socket2Client := s.socket2Client[fd := name],
       asyncClients := if async then s.asyncClients + {name} else s.asyncClients)
  }

  function ThreadStarted(s: Server, fd: nat, name: string): Server {
    if name in s.threads then s.(faults := s.faults + [DuplicateThread])
    else s.(threads := s.threads[name :=
              ClientThread(fd, name in s.asyncClients, Consolidation(s.timing, name), Idle,
                           name in s.asyncClients, [], [], [])])
  }

  /** A client shakes hands, under the socket list lock; a name in use is turned away. A client
      that joins while mail is offered round may or may not get its turn in that round. */
  function Connected(s: Server, fd: nat, name: string, async: bool, announcement: Arrival, inRound: bool): Server {
    if !UniqueName(s, name) then s
    else
      var s1 := HandShaken(s, fd, name, async);
      var s2 := s1.(db := Notified(s1.db, announcement.msg, announcement.now));
      var s3 := ThreadStarted(s2, fd, s2.socket2Client[fd]);
      if s3.phase.Sweeping?
      then s3.(phase := Sweeping(if inRound then s3.phase.todo + {name} else s3.phase.todo, false))
      else s3
  }

  // ---------------------------------------------------------------------- one client's threads

  function AfterRead(t: ClientThread, msgs: seq<Msg>): ClientThread {
    t.(reader := if t.async then Idle else Waiting, read := t.read + [msgs])
  }

  function AfterHangUp(t: ClientThread): ClientThread {
    t.(reader := Dead, outgoing := if t.async then t.outgoing + [CloseMark] else t.outgoing)
  }

  /** A waiting reader takes what is in its list and, if it is a packet, sends it. */
  function AfterTake(t: ClientThread): ClientThread
    requires t.outgoing != []
  {
    t.(reader := Idle, outgoing := t.outgoing[1..],
       taken := if t.outgoing[0].PktWrite? then t.taken + [t.outgoing[0]] else t.taken)
  }

  /** The writer stops at the mark, or when sending fails. */
  function AfterWrite(t: ClientThread, sendOk: bool): ClientThread
    requires t.outgoing != []
  {
    t.(outgoing := t.outgoing[1..], writing := t.outgoing[0].PktWrite? && sendOk, taken := t.taken + [t.outgoing[0]])
  }

  function AfterPush(t: ClientThread, p: Downward): ClientThread {
    t.(outgoing := t.outgoing + [p])
  }

  function WithThread(s: Server, c: string, t: ClientThread): Server {
    s.(threads := s.threads[c := t])
  }

  function HungUp(s: Server, c: string): Server
    requires c in s.threads
  {
    WithThread(s, c, AfterHangUp(s.threads[c])).(shared := s.shared + [ConnectionClosed(c)])
  }

  /** The second half of `HandleClientWrite` for a synchronous client. */
  function ReplyTaken(s: Server, c: string, sendOk: bool): Server
    requires c in s.threads && s.threads[c].outgoing != []
  {
    var t := s.threads[c];
    var s1 := WithThread(s, c, AfterTake(t));
    if !t.outgoing[0].PktWrite? then HungUp(s1.(faults := s1.faults + [NotAReply]), c)
    else if !sendOk then HungUp(s1, c)
    else if AfterTake(t).outgoing != [] then s1.(faults := s1.faults + [ReplyLeftOver])
    else s1
  }

  // ------------------------------------------------------------------------- the server thread

  /** How the database meets a packet: its messages, what it tells itself, its answers to queries
      and the clock. */
  datatype Work = Work(arrivals: seq<Arrival>, own: seq<Arrival>, replies: seq<Msg>, clock: real)

  predicate StartsWithTiming(msgs: seq<Msg>) {
    msgs != [] && msgs[0].msgType == MOOS_TIMING
  }

  function ForTheDatabase(msgs: seq<Msg>): seq<Msg> {
    if StartsWithTiming(msgs) then msgs[1..] else msgs
  }

  predicate HasNotify(msgs: seq<Msg>) {
    exists i :: 0 <= i < |msgs| && msgs[i].msgType == MOOS_NOTIFY
  }

  /** The database works on the messages of the packet, and only queries are answered. */
  predicate WorkFor(msgs: seq<Msg>, w: Work) {
    && |w.arrivals| == |ForTheDatabase(msgs)|
    && (forall i :: 0 <= i < |w.arrivals| ==> w.arrivals[i].msg == ForTheDatabase(msgs)[i])
    && (w.replies != [] ==> exists m :: m in msgs && m.msgType == MOOS_SERVER_REQUEST)
  }

  /** A timing message goes back with the server's time and what the client should consolidate. */
  function TimingEcho(m: Msg, t: ClientThread, clock: real): Msg {
    m.(number := clock, number2 := t.consolidation)
  }

  function Head(t: ClientThread, msgs: seq<Msg>, clock: real): seq<Msg> {
    if !t.async then [BLANK.(number := clock)]
    else if StartsWithTiming(msgs) then [TimingEcho(msgs[0], t, clock)]
    else []
  }

  function PushedUnlessEmpty(t: ClientThread, p: Downward): ClientThread
    requires p.PktWrite?
  {
    if p.head + p.mail + p.replies == [] then t else AfterPush(t, p)
  }

  /** `ProcessClient` up to the reply. */
  function Served(s: Server, c: string, msgs: seq<Msg>, w: Work): Server {
    if c !in s.threads then s.(phase := Free, faults := s.faults + [UnknownClient])
    else if msgs == [] then s.(phase := Free)
    else
      var t := s.threads[c];
      var (db, mail) := PacketReceived(s.db, c, w.arrivals, w.own);
      WithThread(s, c, PushedUnlessEmpty(t, PktWrite(Head(t, msgs, w.clock), mail, w.replies))).(
        db := db, phase := if HasNotify(msgs) then Sweeping(s.threads.Keys, true) else Free)
  }

  /** One client's turn when mail is offered round after a notification. */
  function Offered(s: Server, c: string): Server
    requires c in s.threads && s.phase.Sweeping?
  {
    var t := s.threads[c];
    var s1 := s.(phase := s.phase.(todo := s.phase.todo - {c}));
    if !t.async then s1
    else
      var (db, mail) := MailFetched(s.db, c);
      WithThread(s1, c, PushedUnlessEmpty(t, PktWrite([], mail, []))).(db := db)
  }

  /** `OnClientDisconnect`, under the socket list lock. */
  function Departed(s: Server, c: string, announcement: Arrival): Server {
    if c !in s.threads then s.(phase := Free, faults := s.faults + [NoThreadToClose])
    else
      var fd := s.threads[c].fd;
      var s1 := s.(threads := s.threads - {c}, phase := Free);
      if fd in s1.socket2Client then
        var who := s1.socket2Client[fd];
        s1.(socket2Client := s1.socket2Client - {fd}, asyncClients := s1.asyncClients - {who},
            db := Disconnected(s1.db, who, announcement.msg, announcement.now))
      else s1.(faults := s1.faults + [SocketUnknown])
  }

  // --------------------------------------------------------------------------------- all steps

  datatype Action =
    | Connect(fd: nat, name: string, wantsAsync: bool, announcement: Arrival, inRound: bool)
    | Read(c: string, msgs: seq<Msg>)
    | HangUp(c: string)
    | SelectFails(c: string)
    | TakeReply(c: string, sendOk: bool)
    | Write(c: string, sendOk: bool)
    | Pull
    | Serve(work: Work)
    | Offer(c: string)
    | EndRound
    | Depart(announcement: Arrival)

  /** The descriptor of an accepted socket is not that of another open one. */
  predicate Enabled(s: Server, a: Action) {
    match a
    case Connect(fd, _, _, _, _) => fd !in s.socket2Client
    case Read(c, _) => c in s.threads && s.threads[c].reader.Idle?
    case HangUp(c) => c in s.threads && s.threads[c].reader.Idle?
    case SelectFails(c) => c in s.threads && s.threads[c].reader.Idle?
    case TakeReply(c, _) => c in s.threads && s.threads[c].reader.Waiting? && s.threads[c].outgoing != []
    case Write(c, _) => c in s.threads && s.threads[c].async && s.threads[c].writing && s.threads[c].outgoing != []
    case Pull => s.phase.Free? && s.shared != []
    case Serve(w) => s.phase.InHand? && s.phase.item.PktRead? && WorkFor(s.phase.item.msgs, w)
    case Offer(c) => s.phase.Sweeping? && c in s.phase.todo && c in s.threads
    case EndRound => s.phase.Sweeping? && s.phase.todo == {}
    case Depart(_) => s.phase.InHand? && s.phase.item.ConnectionClosed?
  }

  function Step(s: Server, a: Action): Server
    requires Enabled(s, a)
  {
    match a
    case Connect(fd, name, async, announcement, inRound) => Connected(s, fd, name, async, announcement, inRound)
    case Read(c, msgs) => WithThread(s, c, AfterRead(s.threads[c], msgs)).(shared := s.shared + [PktRead(c, msgs)])
    case HangUp(c) => HungUp(s, c)
    case SelectFails(c) => WithThread(s, c, s.threads[c].(reader := Vanished))
    case TakeReply(c, sendOk) => ReplyTaken(s, c, sendOk)
    case Write(c, sendOk) => WithThread(s, c, AfterWrite(s.threads[c], sendOk))
    case Pull => s.(phase := InHand(s.shared[0]), shared := s.shared[1..])
    case Serve(w) => Served(s, s.phase.item.who, s.phase.item.msgs, w)
    case Offer(c) => Offered(s, c)
    case EndRound => s.(phase := Free)
    case Depart(announcement) => Departed(s, s.phase.item.who, announcement)
  }

  /** What is possible happens; what is not leaves the server as it is. */
  function Next(s: Server, a: Action): Server {
    if Enabled(s, a) then Step(s, a) else s
  }

  function Run(s: Server, actions: seq<Action>): Server {
    if actions == [] then s
    else Next(Run(s, actions[..|actions| - 1]), actions[|actions| - 1])
  }
}
