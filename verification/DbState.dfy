/** What the handlers of `CMOOSDB` do to its state. Every function here is the value of one
    handler; the object with the loops that compute them is in MoosDb. Two records are kept for
    the sake of the properties: what was put in each client's box since the box last lost mail,
    and what was handed out of it; and each subscription remembers when it was served. */
module DbState {
  import opened Messages
  import Glob

  // ----------------------------------------------------------------- subscriptions

  /** `CMOOSRegisterInfo`; `sentAt` records every `SetLastTimeSent`. */
  datatype RegisterInfo = RegisterInfo(period: real, lastTimeSent: real, sentAt: seq<real>) {
    predicate Expired(now: real) {
      period == 0.0 || now - lastTimeSent >= period
    }

    function SetLastTimeSent(t: real): RegisterInfo {
      this.(lastTimeSent := t, sentAt := sentAt + [t])
    }
  }

  /** `CMOOSDBVar`, without its frequency estimate. */
  datatype DbVar = DbVar(
    dataType: char,
    name: string,
    time: real,
    number: real,
    text: string,
    whoChangedMe: string,
    srcAux: string,
    community: string,
    writeCount: nat,
    subscribers: map<string, RegisterInfo>,
    writers: set<string>
  ) {
    /** `AddSubscriber` refuses a client without a name and otherwise starts afresh. */
    function AddSubscriber(client: string, newPeriod: real): DbVar {
      if client == "" then this
      else this.(subscribers := subscribers[client := RegisterInfo(newPeriod, 0.0, [])])
    }

    function RemoveSubscriber(client: string): DbVar {
      this.(subscribers := subscribers - {client})
    }

    /** `Reset` forgets the value but neither the type nor the subscribers. */
    function Reset(): DbVar {
      this.(time := -1.0, number := -1.0, text := "", whoChangedMe := "", writers := {}, writeCount := 0)
    }

    /** `Var2Msg` into a blank message. */
    function ToMsg(): Msg {
      var m := BLANK.(time := time, dataType := dataType, src := whoChangedMe, srcAux := srcAux,
                      key := name, community := community);
      if dataType == MOOS_DOUBLE then m.(number := number)
      else if dataType == MOOS_STRING || dataType == MOOS_BINARY_STRING then m.(text := text)
      else m
    }

    /** The assignments of `OnNotify` for a write of the right type. */
    function Written(m: Msg): DbVar {
      var v := this.(time := m.time, whoChangedMe := m.src, srcAux := m.srcAux, community := m.community,
                     writers := writers + {m.src}, writeCount := writeCount + 1);
      if dataType == MOOS_DOUBLE then v.(number := m.number)
      else if dataType == MOOS_STRING || dataType == MOOS_BINARY_STRING then v.(text := m.text)
      else v
    }
  }

  function NewVar(name: string, dataType: char): DbVar {
    DbVar(dataType, name, -1.0, -1.0, "", "", "", "", 0, map[], {})
  }

  // ------------------------------------------------------------------------ filters

  predicate FilterMatches(f: MsgFilter, m: Msg) {
    Glob.Wild(f.app, m.src) && Glob.Wild(f.var_, m.key)
  }

  predicate StringLess(a: string, b: string) {
    b != [] && (a == [] || a[0] < b[0] || (a[0] == b[0] && StringLess(a[1..], b[1..])))
  }

  /** `MsgFilter::operator<`: the pair of patterns, not the period. */
  predicate FilterLess(f: MsgFilter, g: MsgFilter) {
    StringLess(f.app, g.app) || (f.app == g.app && StringLess(f.var_, g.var_))
  }

  /** Insertion into a `std::set`, kept as its elements in order: an equivalent element wins. */
  function InsertFilter(fs: seq<MsgFilter>, f: MsgFilter): seq<MsgFilter> {
    if fs == [] || FilterLess(f, fs[0]) then [f] + fs
    else if FilterLess(fs[0], f) then [fs[0]] + InsertFilter(fs[1..], f)
    else fs
  }

  predicate SomeMatch(fs: seq<MsgFilter>, m: Msg) {
    exists i :: 0 <= i < |fs| && FilterMatches(fs[i], m)
  }

  /** The period the last matching filter asks for. */
  function LastPeriod(fs: seq<MsgFilter>, m: Msg): real
    requires SomeMatch(fs, m)
  {
    var n := |fs| - 1;
    if FilterMatches(fs[n], m) then fs[n].period
    else
      assert SomeMatch(fs[..n], m) by {
        var i :| 0 <= i < |fs| && FilterMatches(fs[i], m);
        assert fs[..n][i] == fs[i];
      }
      LastPeriod(fs[..n], m)
  }

  /** The inner loop over one client's filters on a first write. */
  function OwnerAdded(v: DbVar, owner: string, fs: seq<MsgFilter>, m: Msg): DbVar {
    if SomeMatch(fs, m) then v.AddSubscriber(owner, LastPeriod(fs, m)) else v
  }

  /** The clients whose filters make them subscribe to a variable first written by `m`. */
  function Owners(filters: map<string, seq<MsgFilter>>, m: Msg): set<string> {
    set c | c in filters && c != "" && SomeMatch(filters[c], m)
  }

  /** Both loops over the filters on a first write. */
  function FiltersApplied(v: DbVar, filters: map<string, seq<MsgFilter>>, m: Msg): DbVar {
    var owners := Owners(filters, m);
    v.(subscribers := map c | c in v.subscribers.Keys + owners ::
      if c in owners then RegisterInfo(LastPeriod(filters[c], m), 0.0, []) else v.subscribers[c])
  }

  // -------------------------------------------------------------------------- boxes

  type Boxes = map<string, seq<Msg>>

  function Box(b: Boxes, c: string): seq<Msg> {
    if c in b then b[c] else []
  }

  function Put(b: Boxes, c: string, m: Msg): Boxes {
    b[c := Box(b, c) + [m]]
  }

  function PutAll(b: Boxes, cs: set<string>, m: Msg): Boxes {
    map c | c in b.Keys + cs :: if c in cs then Box(b, c) + [m] else b[c]
  }

  // -------------------------------------------------------------------------- state

  datatype State = State(
    community: string,
    vars: map<string, DbVar>,
    held: Boxes,
    filters: map<string, seq<MsgFilter>>,
    placed: Boxes,
    drained: Boxes
  )

  const OWN_NUMBERS: set<string> := {"DB_TIME", "DB_UPTIME", "DB_CLIENTS"}
  const OWN_TEXTS: set<string> := {"DB_EVENT", "DB_VARSUMMARY", "DB_QOS", "DB_RWSUMMARY"}

  function OwnVar(k: string, t: real): DbVar {
    NewVar(k, if k in OWN_NUMBERS then MOOS_DOUBLE else MOOS_STRING).(
      number := if k == "DB_UPTIME" then 0.0 else t, whoChangedMe := "MOOSDB#1", community := "#1")
  }

  /** What the constructor leaves: the database's own variables, unwritten, with the time `t` for a value. */
  function Initial(community: string, t: real): State {
    State(community, map k | k in OWN_NUMBERS + OWN_TEXTS :: OwnVar(k, t), map[], map[], map[], map[])
  }

  function Mailed(s: State, c: string, m: Msg): State {
    s.(held := Put(s.held, c, m), placed := Put(s.placed, c, m))
  }

  function MailedAll(s: State, cs: set<string>, m: Msg): State {
    s.(held := PutAll(s.held, cs, m), placed := PutAll(s.placed, cs, m))
  }

  /** The type a variable is made with depends on the message that asks for it. */
  function MadeType(m: Msg): char {
    if m.msgType == MOOS_NOTIFY then m.dataType else MOOS_NOT_SET
  }

  function Made(s: State, m: Msg): State {
    if m.key in s.vars then s
    else s.(vars := s.vars[m.key := NewVar(m.key, MadeType(m))])
  }

  // ------------------------------------------------------------------------- notify

  function Recipients(v: DbVar, now: real): set<string> {
    set c | c in v.subscribers && v.subscribers[c].Expired(now)
  }

  function Stamped(v: DbVar, cs: set<string>, now: real): DbVar {
    v.(subscribers := map c | c in v.subscribers ::
      if c in cs then v.subscribers[c].SetLastTimeSent(now) else v.subscribers[c])
  }

  function WithCommunity(s: State, m: Msg): Msg {
    if m.community == "" then m.(community := s.community) else m
  }

  /** The variable just before the type check of `OnNotify`. */
  function Opened(s: State, m: Msg): DbVar {
    var v := Made(s, m).vars[m.key];
    if v.writeCount == 0 then FiltersApplied(v.(dataType := m.dataType), s.filters, m) else v
  }

  function Notified(s: State, m: Msg, now: real): State {
    var s1 := Made(s, m);
    var v := Opened(s, m);
    if v.dataType == m.dataType then
      var m1 := WithCommunity(s, m);
      var cs := Recipients(v, now);
      MailedAll(s1, cs, m1.(msgType := MOOS_NOTIFY)).(vars := s1.vars[m.key := Stamped(v.Written(m1), cs, now)])
    else s1.(vars := s1.vars[m.key := v])
  }

  // ----------------------------------------------------------------------- register

  function Registered(s: State, m: Msg, now: real): State {
    var s1 := Made(s, m);
    if m.src == "" then s1
    else
      var v := s1.vars[m.key].AddSubscriber(m.src, m.number);
      if m.key in s.vars && v.writeCount != 0 then
        var v' := v.(subscribers := v.subscribers[m.src := v.subscribers[m.src].SetLastTimeSent(now)]);
        Mailed(s1, m.src, v.ToMsg().(msgType := MOOS_NOTIFY)).(vars := s1.vars[m.key := v'])
      else s1.(vars := s1.vars[m.key := v])
  }

  function FilterStored(s: State, owner: string, f: MsgFilter): State {
    var fs := if owner in s.filters then s.filters[owner] else [];
    s.(filters := s.filters[owner := InsertFilter(fs, f)])
  }

  /** The request `OnRegister` makes of itself for a variable that matches a filter. */
  function OwnRequest(v: DbVar, m: Msg): Msg {
    v.ToMsg().(msgType := MOOS_REGISTER, dataType := MOOS_DOUBLE, number := m.filter.period, src := m.src)
  }

  /** The loop of a wildcard registration over the variables in `order`. */
  function MatchesRegistered(s: State, m: Msg, now: real, order: seq<string>): State
    decreases |order|
  {
    if order == [] then s
    else
      var k := order[0];
      var s1 := if k in s.vars && FilterMatches(m.filter, s.vars[k].ToMsg())
                then Registered(s, OwnRequest(s.vars[k], m), now) else s;
      MatchesRegistered(s1, m, now, order[1..])
  }

  function WildcardRegistered(s: State, m: Msg, now: real, order: seq<string>): State {
    MatchesRegistered(FilterStored(s, m.src, m.filter), m, now, order)
  }

  // --------------------------------------------------------------------- unregister

  function Unregistered(s: State, m: Msg): State {
    if m.key in s.vars then s.(vars := s.vars[m.key := s.vars[m.key].RemoveSubscriber(m.src)]) else s
  }

  function UnsubscribedIfMatched(v: DbVar, m: Msg): DbVar {
    if FilterMatches(m.filter, v.ToMsg()) then v.RemoveSubscriber(m.src) else v
  }

  /** Only present subscriptions go; the stored filter stays. */
  function WildcardUnregistered(s: State, m: Msg): State {
    s.(vars := map k | k in s.vars :: UnsubscribedIfMatched(s.vars[k], m))
  }

  // ------------------------------------------------------------- clear, mail, leaving

  predicate Contains(s: string, token: string) {
    exists i, j :: 0 <= i <= j <= |s| && s[i..j] == token
  }

  /** The server requests that only compose a reply come first. */
  predicate AsksToClear(key: string) {
    key != "ALL" && !Contains(key, "PROC_SUMMARY") && !Contains(key, "VAR_SUMMARY") && Contains(key, "DB_CLEAR")
  }

  function Cleared(s: State): State {
    s.(vars := map k | k in s.vars :: s.vars[k].Reset(),
       held := map c | c in s.held :: [],
       placed := map[], drained := map[])
  }

  /** Handing out everything held for a client. */
  function Drained(s: State, c: string): State {
    s.(held := s.held[c := []], drained := s.drained[c := Box(s.drained, c) + Box(s.held, c)])
  }

  function Fetched(s: State, c: string): State {
    if c in s.held then Drained(s, c) else s
  }

  /** A client leaves: its subscriptions, filters and held mail go. */
  function Forgotten(s: State, c: string): State {
    s.(vars := map k | k in s.vars :: s.vars[k].RemoveSubscriber(c),
       filters := if c in s.filters then s.filters[c := []] else s.filters,
       held := s.held - {c}, placed := s.placed - {c}, drained := s.drained - {c})
  }

  // ------------------------------------------------------------------- one message

  /** One message with the clock reading it meets and the order of the variable map. */
  datatype Arrival = Arrival(msg: Msg, now: real, order: seq<string>)

  function Processed(s: State, a: Arrival): State {
    var m := a.msg;
    if m.msgType == MOOS_NOTIFY then Notified(s, m, a.now)
    else if m.msgType == MOOS_REGISTER then Registered(s, m, a.now)
    else if m.msgType == MOOS_WILDCARD_REGISTER then WildcardRegistered(s, m, a.now, a.order)
    else if m.msgType == MOOS_UNREGISTER then Unregistered(s, m)
    else if m.msgType == MOOS_WILDCARD_UNREGISTER then WildcardUnregistered(s, m)
    else if m.msgType == MOOS_SERVER_REQUEST && AsksToClear(m.key) then Cleared(s)
    else s
  }

  function ProcessedAll(s: State, arrivals: seq<Arrival>): State {
    if arrivals == [] then s
    else Processed(ProcessedAll(s, arrivals[..|arrivals| - 1]), arrivals[|arrivals| - 1])
  }

  /** `OnRxPkt`: the client's messages, then whatever the database tells itself at that moment,
      then, unless the packet was empty, the client's mail. */
  function PacketReceived(s: State, c: string, arrivals: seq<Arrival>, own: seq<Arrival>): (State, seq<Msg>) {
    var s1 := ProcessedAll(ProcessedAll(s, arrivals), own);
    if arrivals == [] then (s1, []) else (Drained(s1, c), Box(s1.held, c))
  }

  function MailFetched(s: State, c: string): (State, seq<Msg>) {
    (Fetched(s, c), Box(s.held, c))
  }

  function Disconnected(s: State, c: string, event: Msg, now: real): State {
    Notified(Forgotten(s, c), event, now)
  }
}
