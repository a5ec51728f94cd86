/** What the requests of a client do, in the fields of the message and the variables. */
module Requests {
  import opened Messages
  import opened DbState
  import opened DbInvariants
  import opened DbTheorems
  import opened DbActs
  import opened DbHandlers
  import opened MailRate
  import opened Deliveries
  import Glob

  /** What the database has before anybody speaks to it: seven variables of its own, never written and
      never timed, in its own name, and nothing else. */
  lemma InitialMeans(community: string, t: real)
    ensures var s := Initial(community, t);
            && s.community == community
            && s.vars.Keys ==
               {"DB_TIME", "DB_UPTIME", "DB_CLIENTS", "DB_EVENT", "DB_VARSUMMARY", "DB_QOS", "DB_RWSUMMARY"}
            && (forall k :: k in s.vars ==>
                  s.vars[k] ==
                  DbVar(if k in {"DB_TIME", "DB_UPTIME", "DB_CLIENTS"} then 'D' else 'S', k, -1.0,
                        if k == "DB_UPTIME" then 0.0 else t, "", "MOOSDB#1", "", "#1", 0, map[], {}))
            && s.held == map[] && s.filters == map[]
  {
  }

  // ------------------------------------------------------------------------------- registering

  /** What a subscriber is told of a variable's present value. */
  function Value(v: DbVar): Msg {
    Msg(MOOS_NOTIFY, v.dataType, v.name, v.time,
        if v.dataType == 'D' then v.number else -1.0, -1.0,
        if v.dataType == 'S' || v.dataType == 'B' then v.text else "",
        v.whoChangedMe, v.srcAux, v.community, MsgFilter("", "", 0.0))
  }

  /** A variable `c` has subscribed to at clock `now`, having been told at once if there is a value. */
  function SubscribedTo(v: DbVar, c: string, period: real, now: real): DbVar {
    v.(subscribers := v.subscribers[c := if v.writeCount > 0 then RegisterInfo(period, now, [now])
                                         else RegisterInfo(period, 0.0, [])])
  }

  function Reply(v: DbVar): seq<Msg> {
    if v.writeCount > 0 then [Value(v)] else []
  }

  /** A variable nobody has written. */
  function Unwritten(k: string): DbVar {
    DbVar(MOOS_NOT_SET, k, -1.0, -1.0, "", "", "", "", 0, map[], {})
  }

  /** `news` goes to the box of `c` and nothing else happens to any box. */
  ghost predicate Told(s: State, s': State, c: string, news: seq<Msg>) {
    && s'.drained == s.drained
    && (forall d :: Box(s'.held, d) == Box(s.held, d) + if d == c then news else [])
    && (forall d :: Box(s'.placed, d) == Box(s.placed, d) + if d == c then news else [])
  }

  lemma PutTells(b: Boxes, c: string, m: Msg)
    ensures forall d :: Box(Put(b, c, m), d) == Box(b, d) + if d == c then [m] else []
  {
  }

  lemma ReplyIsValue(v: DbVar)
    ensures v.ToMsg().(msgType := MOOS_NOTIFY) == Value(v) && v.ToMsg().key == v.name && v.ToMsg().src == v.whoChangedMe
  {
  }

  /** A named client's registration for one variable, which is made if it is not there. */
  lemma RegisterMeans(s: State, m: Msg, now: real)
    requires m.src != "" && m.msgType == MOOS_REGISTER
    ensures var s', v := Registered(s, m, now), if m.key in s.vars then s.vars[m.key] else Unwritten(m.key);
            && s'.vars == s.vars[m.key := SubscribedTo(v, m.src, m.number, now)]
            && Told(s, s', m.src, Reply(v)) && s'.filters == s.filters && s'.community == s.community
  {
    hide DbVar.ToMsg, Put, Value, SubscribedTo, Box;
    if m.key in s.vars {
      var v := s.vars[m.key];
      ReplyIsValue(v.AddSubscriber(m.src, m.number));
      SameValue(v, m.src, m.number);
      PutTells(s.held, m.src, Value(v));
      PutTells(s.placed, m.src, Value(v));
      AddedIs(v, m.src, m.number, now);
    } else {
      AddedIs(Unwritten(m.key), m.src, m.number, now);
    }
  }

  lemma AddedIs(v: DbVar, c: string, period: real, now: real)
    requires c != ""
    ensures var w := v.AddSubscriber(c, period);
            && c in w.subscribers
            && SubscribedTo(v, c, period, now) ==
               (if w.writeCount != 0
                then w.(subscribers := w.subscribers[c := w.subscribers[c].SetLastTimeSent(now)]) else w)
  {
    var w := v.AddSubscriber(c, period);
    assert [] + [now] == [now];
    assert w.subscribers[c := w.subscribers[c].SetLastTimeSent(now)] ==
           v.subscribers[c := RegisterInfo(period, now, [now])];
  }

  lemma SameValue(v: DbVar, c: string, period: real)
    ensures Value(v.AddSubscriber(c, period)) == Value(v)
  {
  }

  // ------------------------------------------------------------------------ wildcard requests

  /** The last writer and the name of the variable are in the languages of the two patterns. */
  ghost predicate Picks(f: MsgFilter, v: DbVar) {
    && Glob.InLanguage(Glob.CString(f.app), Glob.CString(v.whoChangedMe))
    && Glob.InLanguage(Glob.CString(f.var_), Glob.CString(v.name))
  }

  lemma PicksIsMatch(f: MsgFilter, v: DbVar)
    ensures FilterMatches(f, v.ToMsg()) <==> Picks(f, v)
  {
    hide FilterMatches, Glob.InLanguage;
    FilterMeansLanguages(f, v.ToMsg());
    ReplyIsValue(v);
  }

  /** What the client is told of the variables it meets in `order` and has asked for. */
  ghost function Replies(s: State, f: MsgFilter, order: seq<string>): seq<Msg> {
    if order == [] then []
    else (if order[0] in s.vars && Picks(f, s.vars[order[0]]) then Reply(s.vars[order[0]]) else [])
         + Replies(s, f, order[1..])
  }

  /** Every variable met that the filter picks has the subscription it asks for; the others are as
      they were. */
  ghost predicate PickedSubscribed(s: State, s': State, c: string, f: MsgFilter, now: real, order: seq<string>) {
    && s'.vars.Keys == s.vars.Keys && s'.filters == s.filters
    && forall k :: k in s.vars ==>
         s'.vars[k] ==
           if k in order && Picks(f, s.vars[k]) then SubscribedTo(s.vars[k], c, f.period, now) else s.vars[k]
  }

  lemma OneMatchedMeans(s: State, m: Msg, now: real, k: string)
    requires Named(s) && m.src != ""
    ensures var s', f := OneMatched(s, m, now, k), m.filter;
            && PickedSubscribed(s, s', m.src, f, now, [k])
            && Told(s, s', m.src, if k in s.vars && Picks(f, s.vars[k]) then Reply(s.vars[k]) else [])
  {
    hide Registered, FilterMatches, Picks, Value, DbVar.ToMsg, SubscribedTo;
    if k in s.vars {
      PicksIsMatch(m.filter, s.vars[k]);
      OwnRequestMeans(s.vars[k], m);
      RegisterMeans(s, OwnRequest(s.vars[k], m), now);
    }
  }

  /** What the database asks of itself for a variable a wildcard picks. */
  lemma OwnRequestMeans(v: DbVar, m: Msg)
    ensures var r := OwnRequest(v, m);
            && r.msgType == MOOS_REGISTER && r.dataType == MOOS_DOUBLE
            && r.key == v.name && r.src == m.src && r.number == m.filter.period
  {
  }

  lemma TellsOn(s: State, s1: State, s2: State, c: string, a: seq<Msg>, b: seq<Msg>)
    requires Told(s, s1, c, a) && Told(s1, s2, c, b)
    ensures Told(s, s2, c, a + b)
  {
    hide Box;
    forall d ensures Box(s2.held, d) == Box(s.held, d) + if d == c then a + b else [] {
      assert Box(s1.held, d) == Box(s.held, d) + if d == c then a else [];
    }
    forall d ensures Box(s2.placed, d) == Box(s.placed, d) + if d == c then a + b else [] {
      assert Box(s1.placed, d) == Box(s.placed, d) + if d == c then a else [];
    }
  }

  lemma SubscribedTwice(v: DbVar, c: string, f: MsgFilter, now: real)
    ensures var w := SubscribedTo(v, c, f.period, now);
            && SubscribedTo(w, c, f.period, now) == w && Reply(w) == Reply(v)
            && (Picks(f, w) <==> Picks(f, v)) && w.name == v.name
  {
    hide Glob.InLanguage;
  }

  lemma {:induction false} RepliesUnchanged(s: State, s1: State, c: string, f: MsgFilter, now: real, k: string,
                                            order: seq<string>)
    requires PickedSubscribed(s, s1, c, f, now, [k])
    ensures Replies(s1, f, order) == Replies(s, f, order)
    decreases |order|
  {
    hide Picks, Reply, SubscribedTo;
    if order != [] {
      RepliesUnchanged(s, s1, c, f, now, k, order[1..]);
      if order[0] in s.vars {
        SubscribedTwice(s.vars[order[0]], c, f, now);
      }
    }
  }

  lemma PickedOn(s: State, s1: State, s2: State, c: string, f: MsgFilter, now: real, order: seq<string>)
    requires order != [] && PickedSubscribed(s, s1, c, f, now, [order[0]])
    requires PickedSubscribed(s1, s2, c, f, now, order[1..])
    ensures PickedSubscribed(s, s2, c, f, now, order)
  {
    hide Picks, Reply, SubscribedTo;
    forall k | k in s.vars
      ensures s2.vars[k] ==
              if k in order && Picks(f, s.vars[k]) then SubscribedTo(s.vars[k], c, f.period, now) else s.vars[k]
    {
      SubscribedTwice(s.vars[k], c, f, now);
      assert k in order <==> k == order[0] || k in order[1..];
    }
  }

  lemma {:induction false} MatchesMean(s: State, m: Msg, now: real, order: seq<string>)
    requires Named(s) && m.src != ""
    ensures var s' := MatchesRegistered(s, m, now, order);
            PickedSubscribed(s, s', m.src, m.filter, now, order) && Told(s, s', m.src, Replies(s, m.filter, order))
    decreases |order|
  {
    hide Registered, FilterMatches, OwnRequest, Picks, SubscribedTo, Told;
    if order == [] {
      NothingTold(s, m.src);
    } else {
      var k, s1 := order[0], OneMatched(s, m, now, order[0]);
      OneMatchedMeans(s, m, now, k);
      StillNamed(s, s1, m.src, m.filter, now, [k]);
      MatchesMean(s1, m, now, order[1..]);
      var s2 := MatchesRegistered(s1, m, now, order[1..]);
      RepliesUnchanged(s, s1, m.src, m.filter, now, k, order[1..]);
      PickedOn(s, s1, s2, m.src, m.filter, now, order);
      TellsOn(s, s1, s2, m.src, if k in s.vars && Picks(m.filter, s.vars[k]) then Reply(s.vars[k]) else [],
              Replies(s1, m.filter, order[1..]));
      hide PickedSubscribed, Reply;
    }
  }

  lemma NothingTold(s: State, c: string)
    ensures Told(s, s, c, [])
  {
  }

  lemma StillNamed(s: State, s1: State, c: string, f: MsgFilter, now: real, order: seq<string>)
    requires Named(s) && PickedSubscribed(s, s1, c, f, now, order)
    ensures Named(s1)
  {
    hide Picks;
  }

  /** A named client's wildcard registration, for some order that meets every variable: each variable
      the patterns pick gets the subscription with the period asked for, and the client is told
      its value if it has one; nothing else changes but that the filter is stored. */
  lemma WildcardRegisterMeans(s: State, a: Arrival)
    requires Named(s) && a.msg.msgType == MOOS_WILDCARD_REGISTER && a.msg.src != ""
    requires forall k :: k in s.vars ==> k in a.order
    ensures var s', c, f := Processed(s, a), a.msg.src, a.msg.filter;
            && s'.vars.Keys == s.vars.Keys
            && (forall k :: k in s.vars ==>
                  s'.vars[k] == if Picks(f, s.vars[k]) then SubscribedTo(s.vars[k], c, f.period, a.now) else s.vars[k])
            && Told(s, s', c, Replies(s, f, a.order))
            && s'.filters.Keys == s.filters.Keys + {c}
            && (forall d :: d in s.filters && d != c ==> s'.filters[d] == s.filters[d])
            && Stored(s'.filters[c], f)
  {
    hide MatchesRegistered, Picks, SubscribedTo, Told, InsertFilter, Stored;
    var m := a.msg;
    var s1 := FilterStored(s, m.src, m.filter);
    InsertStores(if m.src in s.filters then s.filters[m.src] else [], m.filter);
    MatchesMean(s1, m, a.now, a.order);
    SameReplies(s, s1, m.filter, a.order);
    SameTold(s, s1, Processed(s, a), m.src, Replies(s, m.filter, a.order));
  }

  lemma {:induction false} SameReplies(s: State, s1: State, f: MsgFilter, order: seq<string>)
    requires s1.vars == s.vars
    ensures Replies(s1, f, order) == Replies(s, f, order)
    decreases |order|
  {
    hide Picks, Reply;
    if order != [] {
      SameReplies(s, s1, f, order[1..]);
    }
  }

  lemma SameTold(s: State, s1: State, s': State, c: string, news: seq<Msg>)
    requires s1.held == s.held && s1.placed == s.placed && s1.drained == s.drained && Told(s1, s', c, news)
    ensures Told(s, s', c, news)
  {
    hide Box;
  }

  // ----------------------------------------------------------------------------- unregistering

  /** `v'` is `v`, but without the subscription of `c` if that is `gone`. */
  predicate LostIf(v: DbVar, v': DbVar, c: string, gone: bool) {
    && SameVariable(v', v)
    && v'.subscribers.Keys == (if gone then v.subscribers.Keys - {c} else v.subscribers.Keys)
    && (forall d :: d in v'.subscribers ==> v'.subscribers[d] == v.subscribers[d])
  }

  lemma RemovedIs(v: DbVar, c: string)
    ensures LostIf(v, v.RemoveSubscriber(c), c, true) && LostIf(v, v, c, false)
  {
  }

  /** A wildcard taken back: its sender loses its subscription to every variable the patterns pick, and
      nothing else changes, not even the stored filter. */
  lemma WildcardUnregisterMeans(s: State, a: Arrival)
    requires a.msg.msgType == MOOS_WILDCARD_UNREGISTER
    ensures var s', f := Processed(s, a), a.msg.filter;
            && s' == s.(vars := s'.vars) && s'.vars.Keys == s.vars.Keys
            && forall k :: k in s.vars ==>
                 LostIf(s.vars[k], s'.vars[k], a.msg.src, Picks(f, s.vars[k]))
  {
    hide FilterMatches, Picks, DbVar.ToMsg, DbVar.RemoveSubscriber, LostIf;
    forall k | k in s.vars
      ensures LostIf(s.vars[k], Processed(s, a).vars[k], a.msg.src, Picks(a.msg.filter, s.vars[k]))
    {
      PicksIsMatch(a.msg.filter, s.vars[k]);
      RemovedIs(s.vars[k], a.msg.src);
    }
  }

  /** A registration taken back: its sender loses its subscription to the one variable. */
  lemma UnregisterMeans(s: State, a: Arrival)
    requires a.msg.msgType == MOOS_UNREGISTER
    ensures var s' := Processed(s, a);
            && s' == s.(vars := s'.vars) && s'.vars.Keys == s.vars.Keys
            && forall k :: k in s.vars ==>
                 LostIf(s.vars[k], s'.vars[k], a.msg.src, k == a.msg.key)
  {
    hide Notified, Registered, WildcardRegistered, WildcardUnregistered, Cleared, AsksToClear, LostIf;
    forall k | k in s.vars ensures LostIf(s.vars[k], Unregistered(s, a.msg).vars[k], a.msg.src, k == a.msg.key) {
      RemovedIs(s.vars[k], a.msg.src);
    }
  }

  // --------------------------------------------------------------------------------- clearing

  predicate StandsAt(token: string, key: string, i: int) {
    0 <= i <= |key| - |token| && key[i..i + |token|] == token
  }

  predicate Within(token: string, key: string) {
    exists i :: 0 <= i <= |key| && StandsAt(token, key, i)
  }

  /** A variable that has been cleared. */
  predicate ValueLost(v: DbVar, old_: DbVar) {
    v == DbVar(old_.dataType, old_.name, -1.0, -1.0, "", "", old_.srcAux, old_.community, 0, old_.subscribers, {})
  }

  /** A request to the server empties every variable and every box if and only if it names DB_CLEAR, and
      neither asks for a summary nor for everything; otherwise it changes nothing. */
  lemma ServerRequestMeans(s: State, a: Arrival)
    requires a.msg.msgType == MOOS_SERVER_REQUEST
    ensures var key, s' := a.msg.key, Processed(s, a);
            if Within("DB_CLEAR", key) && !Within("VAR_SUMMARY", key) && !Within("PROC_SUMMARY", key) then
              && s'.vars.Keys == s.vars.Keys && (forall k :: k in s.vars ==> ValueLost(s'.vars[k], s.vars[k]))
              && (forall c :: Box(s'.held, c) == []) && s'.filters == s.filters
            else s' == s
  {
    var key := a.msg.key;
    WithinIs("DB_CLEAR", key);
    WithinIs("VAR_SUMMARY", key);
    WithinIs("PROC_SUMMARY", key);
    assert |"DB_CLEAR"| > |"ALL"|;
    hide Contains, Within;
    NotInAll(key);
  }

  lemma NotInAll(key: string)
    ensures key == "ALL" ==> !Within("DB_CLEAR", key)
  {
  }

  lemma WithinIs(token: string, key: string)
    ensures Contains(key, token) <==> Within(token, key)
  {
    if Contains(key, token) {
      var i, j :| 0 <= i <= j <= |key| && key[i..j] == token;
      assert StandsAt(token, key, i);
    }
  }

  /** `act` may make `c` a subscriber of `k`: `c` asks, or a first write finds a filter of `c`. */
  ghost predicate MaySubscribe(s: State, act: Act, k: string, c: string) {
    || (act.Handle? && act.a.msg.src == c
        && ((act.a.msg.msgType == MOOS_REGISTER && act.a.msg.key == k)
            || act.a.msg.msgType == MOOS_WILDCARD_REGISTER))
    || (Tells(act) && act.a.msg.key == k && FirstWrite(s, act.a.msg) && Asked(s, act.a.msg, c))
  }

  ghost predicate SomeMaySubscribe(s: State, acts: seq<Act>, k: string, c: string) {
    exists i :: 0 <= i < |acts| && MaySubscribe(AllDone(s, acts[..i]), acts[i], k, c)
  }

  /** No message about `k` came, though the box may have been emptied. */
  predicate NoNews(s: State, s': State, k: string, c: string) {
    && !Subscribed(s', k, c)
    && (About(Box(s'.placed, c), k) == About(Box(s.placed, c), k) || About(Box(s'.placed, c), k) == 0)
  }

  lemma {:induction false} AboutOthers(mail: seq<Msg>, news: seq<Msg>, k: string)
    requires forall i :: 0 <= i < |news| ==> news[i].key != k
    ensures About(mail + news, k) == About(mail, k)
  {
    if news == [] {
      assert mail + news == mail;
    } else {
      var n := |news| - 1;
      AboutOthers(mail, news[..n], k);
      assert (mail + news)[..|mail| + n] == mail + news[..n];
    }
  }

  lemma TellingQuiet(s: State, m: Msg, now: real, k: string, c: string)
    requires !Subscribed(s, k, c) && !(m.key == k && FirstWrite(s, m) && Asked(s, m, c))
    ensures NoNews(s, Notified(s, m, now), k, c)
  {
    hide Notified, FirstWrite, Asked, InForce, About, Box;
    NotifyTells(s, m, now, c);
    TellsVariable(s, m, now);
    hide IsTold, Told;
    if m.key == k {
      assert !Follows(s, m, c);
      NobodyTold(s, m, now, c);
      assert Box(s.placed, c) + [] == Box(s.placed, c);
    } else {
      AboutOthers(Box(s.placed, c), if IsTold(s, m, now, c) then [News(s, m)] else [], k);
    }
  }

  lemma NobodyTold(s: State, m: Msg, now: real, c: string)
    requires !Follows(s, m, c)
    ensures !IsTold(s, m, now, c)
  {
  }

  lemma ValueIsAbout(v: DbVar)
    ensures Value(v).key == v.name
  {
  }

  lemma RegisteringQuiet(s: State, m: Msg, now: real, k: string, c: string)
    requires Named(s) && !Subscribed(s, k, c) && (m.src == c ==> m.key != k) && m.msgType == MOOS_REGISTER
    ensures NoNews(s, Registered(s, m, now), k, c)
  {
    hide About, Box, Told, SubscribedTo, Value;
    if m.src != "" {
      hide Registered;
      RegisterMeans(s, m, now);
      var v := if m.key in s.vars then s.vars[m.key] else Unwritten(m.key);
      ItsSubscribers(v, m.src, m.number, now);
      ValueIsAbout(v);
      ToldBox(s, Registered(s, m, now), m.src, Reply(v), c);
      AboutOthers(Box(s.placed, c), if c == m.src then Reply(v) else [], k);
      assert Box(s.placed, c) + [] == Box(s.placed, c);
    } else {
      MadeElsewhere(s, m);
      MadeLeavesTheRest(s, m);
      MadeEmpty(s, m);
    }
  }

  lemma MadeEmpty(s: State, m: Msg)
    ensures m.key !in s.vars ==> Made(s, m).vars[m.key].subscribers == map[]
  {
  }

  lemma ItsSubscribers(v: DbVar, c: string, period: real, now: real)
    ensures SubscribedTo(v, c, period, now).subscribers.Keys == v.subscribers.Keys + {c}
  {
  }

  lemma ToldBox(s: State, s': State, c: string, news: seq<Msg>, d: string)
    requires Told(s, s', c, news)
    ensures Box(s'.placed, d) == Box(s.placed, d) + if d == c then news else []
  {
  }

  lemma {:induction false} NamelessMatch(s: State, m: Msg, now: real, order: seq<string>)
    requires Named(s) && m.src == ""
    ensures MatchesRegistered(s, m, now, order) == s
    decreases |order|
  {
    hide FilterMatches, DbVar.ToMsg;
    if order != [] {
      NamelessMatch(s, m, now, order[1..]);
      if order[0] in s.vars {
        OwnRequestMeans(s.vars[order[0]], m);
      }
    }
  }

  lemma MatchingQuiet(s: State, m: Msg, now: real, order: seq<string>, k: string, c: string)
    requires Named(s) && !Subscribed(s, k, c) && m.src != c
    ensures NoNews(s, MatchesRegistered(s, m, now, order), k, c)
  {
    hide MatchesRegistered, About, Box, Told, SubscribedTo, Picks;
    if m.src == "" {
      NamelessMatch(s, m, now, order);
    } else {
      var s' := MatchesRegistered(s, m, now, order);
      MatchesMean(s, m, now, order);
      ToldBox(s, s', m.src, Replies(s, m.filter, order), c);
      assert Box(s.placed, c) + [] == Box(s.placed, c);
      if k in s.vars {
        ItsSubscribers(s.vars[k], m.src, m.filter.period, now);
      }
    }
  }

  lemma HandlingQuiet(s: State, a: Arrival, k: string, c: string)
    requires Named(s) && !Subscribed(s, k, c) && !MaySubscribe(s, Handle(a), k, c)
    ensures NoNews(s, Processed(s, a), k, c)
  {
    hide Notified, Registered, MatchesRegistered, Unregistered, WildcardUnregistered, AsksToClear, About, Box,
         FirstWrite, Asked, LostIf, Picks, Within, ValueLost;
    var m := a.msg;
    if m.msgType == MOOS_NOTIFY {
      TellingQuiet(s, m, a.now, k, c);
    } else if m.msgType == MOOS_REGISTER {
      RegisteringQuiet(s, m, a.now, k, c);
    } else if m.msgType == MOOS_WILDCARD_REGISTER {
      var s1 := FilterStored(s, m.src, m.filter);
      MatchingQuiet(s1, m, a.now, a.order, k, c);
    } else if m.msgType == MOOS_UNREGISTER || m.msgType == MOOS_WILDCARD_UNREGISTER {
      TakingBackQuiet(s, a, k, c);
    } else {
      ClearingQuiet(s, a, k, c);
    }
  }

  lemma TakingBackQuiet(s: State, a: Arrival, k: string, c: string)
    requires !Subscribed(s, k, c) && (a.msg.msgType == MOOS_UNREGISTER || a.msg.msgType == MOOS_WILDCARD_UNREGISTER)
    ensures NoNews(s, Processed(s, a), k, c)
  {
    hide Processed, About, Picks;
    if a.msg.msgType == MOOS_UNREGISTER {
      UnregisterMeans(s, a);
    } else {
      WildcardUnregisterMeans(s, a);
    }
  }

  lemma ClearingQuiet(s: State, a: Arrival, k: string, c: string)
    requires !Subscribed(s, k, c)
    requires !AboutSubscriptions(a.msg) && a.msg.msgType != MOOS_NOTIFY
    ensures NoNews(s, Processed(s, a), k, c)
  {
    hide Notified, Registered, WildcardRegistered, Unregistered, WildcardUnregistered, AsksToClear;
  }

  lemma DoneQuiet(s: State, act: Act, k: string, c: string)
    requires Named(s) && !Subscribed(s, k, c) && !MaySubscribe(s, act, k, c)
    ensures NoNews(s, Done(s, act), k, c)
  {
    hide Processed, Notified, About, FirstWrite, Asked;
    match act
    case Handle(a) => HandlingQuiet(s, a, k, c);
    case Announce(a) => TellingQuiet(s, a.msg, a.now, k, c);
    case HandOut(d) =>
    case HandOutIfAny(d) =>
    case Forget(d) =>
      BoxWithout(s.placed, d);
      AboutNothing(k);
  }

  lemma AboutNothing(k: string)
    ensures About([], k) == 0
  {
  }

  lemma QuietOn(s: State, s1: State, s2: State, k: string, c: string)
    requires NoNews(s, s1, k, c) && NoNews(s1, s2, k, c)
    ensures NoNews(s, s2, k, c)
  {
    hide About, Box;
  }

  lemma FewerMaySubscribe(s: State, acts: seq<Act>, k: string, c: string)
    requires acts != [] && !SomeMaySubscribe(s, acts, k, c)
    ensures var n := |acts| - 1;
            !SomeMaySubscribe(s, acts[..n], k, c) && !MaySubscribe(AllDone(s, acts[..n]), acts[n], k, c)
  {
    hide MaySubscribe, AllDone;
    var n := |acts| - 1;
    forall i | 0 <= i < n ensures !MaySubscribe(AllDone(s, acts[..n][..i]), acts[..n][i], k, c) {
      assert acts[..n][..i] == acts[..i] && acts[..n][i] == acts[i];
      assert !MaySubscribe(AllDone(s, acts[..i]), acts[i], k, c);
    }
    assert !MaySubscribe(AllDone(s, acts[..n]), acts[n], k, c);
  }

  lemma {:induction false} QuietRun(s: State, acts: seq<Act>, k: string, c: string)
    requires Inv(s) && !Subscribed(s, k, c) && !SomeMaySubscribe(s, acts, k, c)
    ensures Inv(AllDone(s, acts)) && NoNews(s, AllDone(s, acts), k, c)
  {
    hide Done, Inv, NoNews, SomeMaySubscribe, MaySubscribe;
    if acts == [] {
      QuietStart(s, k, c);
    } else {
      var n := |acts| - 1;
      var s1 := AllDone(s, acts[..n]);
      FewerMaySubscribe(s, acts, k, c);
      QuietRun(s, acts[..n], k, c);
      QuietNow(s, s1, k, c);
      DoneInv(s1, acts[n]);
      DoneQuiet(s1, acts[n], k, c);
      QuietOn(s, s1, AllDone(s, acts), k, c);
    }
  }

  lemma QuietStart(s: State, k: string, c: string)
    requires !Subscribed(s, k, c)
    ensures NoNews(s, s, k, c)
  {
  }

  lemma QuietNow(s: State, s1: State, k: string, c: string)
    requires Inv(s1) && NoNews(s, s1, k, c)
    ensures Named(s1) && !Subscribed(s1, k, c)
  {
  }

  /** Over any run from the start: after a wildcard is taken back in the `n`-th act, no message about a
      variable its patterns picked is put in the client's box until something may subscribe the
      client again. */
  lemma TakenBackIsQuiet(community: string, t: real, es: seq<Event>, n: nat, k: string)
    requires n < |ActsOf(es)| && ActsOf(es)[n].Handle? && ActsOf(es)[n].a.msg.msgType == MOOS_WILDCARD_UNREGISTER
    requires var s, m := AllDone(Initial(community, t), ActsOf(es)[..n]), ActsOf(es)[n].a.msg;
             && k in s.vars && Picks(m.filter, s.vars[k])
             && !SomeMaySubscribe(AllDone(Initial(community, t), ActsOf(es)[..n + 1]), ActsOf(es)[n + 1..], k, m.src)
    ensures NoNews(AllDone(Initial(community, t), ActsOf(es)[..n + 1]), Run(Initial(community, t), es), k,
                   ActsOf(es)[n].a.msg.src)
  {
    hide Run, Initial, ActsOf, AllDone, SomeMaySubscribe, NoNews, Inv, Picks, Processed;
    var s0, acts := Initial(community, t), ActsOf(es);
    RunIsActs(s0, es);
    InitialInv(community, t);
    ActsInv(s0, acts[..n + 1]);
    AllDoneTo(s0, acts, n);
    var s, a := AllDone(s0, acts[..n]), acts[n].a;
    WildcardUnregisterMeans(s, a);
    assert !Subscribed(Processed(s, a), k, a.msg.src);
    QuietRun(AllDone(s0, acts[..n + 1]), acts[n + 1..], k, a.msg.src);
  }
}
