/** The database object: the handlers of `CMOOSDB` with the loops they run over filters,
    subscribers, variables and boxes. Each is proved to have the value DbState gives it, in
    whatever order the loops meet their elements. */
module MoosDb {
  import opened Messages
  import opened DbState

  class Database {
    const communityName: string
    var varMap: map<string, DbVar>
    var heldMail: map<string, seq<Msg>>
    var clientFilters: map<string, seq<MsgFilter>>
    ghost var placed: Boxes
    ghost var drained: Boxes

    ghost function Value(): State
      reads this
    {
      State(communityName, varMap, heldMail, clientFilters, placed, drained)
    }

    constructor (community: string, t: real)
      ensures Value() == Initial(community, t)
    {
      hide OwnVar, OWN_NUMBERS, OWN_TEXTS;
      communityName := community;
      varMap := map k | k in OWN_NUMBERS + OWN_TEXTS :: OwnVar(k, t);
      heldMail := map[];
      clientFilters := map[];
      placed := map[];
      drained := map[];
    }

    method AddMessageToClientBox(client: string, msg: Msg)
      modifies this
      ensures Value() == Mailed(old(Value()), client, msg)
    {
      if client !in heldMail {
        heldMail := heldMail[client := []];
      }
      heldMail := heldMail[client := heldMail[client] + [msg]];
      placed := Put(placed, client, msg);
    }

    method GetOrMakeVar(msg: Msg)
      modifies this
      ensures Value() == Made(old(Value()), msg)
      ensures msg.key in varMap
    {
      if msg.key !in varMap {
        var newVar := NewVar(msg.key, MOOS_NOT_SET);
        if msg.msgType == MOOS_NOTIFY {
          newVar := newVar.(dataType := msg.dataType);
        }
        varMap := varMap[msg.key := newVar];
      }
    }

    // ------------------------------------------------------------------------ notify

    /** The inner loop of a first write: one client's filters, in the order of the set. */
    method AddOwner(v0: DbVar, owner: string, fs: seq<MsgFilter>, msg: Msg) returns (v: DbVar)
      ensures v == OwnerAdded(v0, owner, fs, msg)
    {
      hide FilterMatches;
      v := v0;
      for i := 0 to |fs|
        invariant v == OwnerAdded(v0, owner, fs[..i], msg)
      {
        OneMoreFilter(v0, owner, fs[..i + 1], msg);
        assert fs[..i + 1][..i] == fs[..i];
        if FilterMatches(fs[i], msg) {
          v := v.AddSubscriber(owner, fs[i].period);
        }
      }
      assert fs[..|fs|] == fs;
    }

    /** Both loops of a first write. */
    method ApplyFilters(v0: DbVar, msg: Msg) returns (v: DbVar)
      ensures v == FiltersApplied(v0, clientFilters, msg)
    {
      hide FiltersApplied, OwnerAdded;
      v := v0;
      var todo := clientFilters.Keys;
      NoOwners(v0, clientFilters - todo, msg);
      while todo != {}
        invariant todo <= clientFilters.Keys
        invariant v == FiltersApplied(v0, clientFilters - todo, msg)
        decreases |todo|
      {
        var owner :| owner in todo;
        OneMoreOwner(v0, clientFilters, todo, owner, msg);
        v := AddOwner(v, owner, clientFilters[owner], msg);
        todo := todo - {owner};
      }
      assert clientFilters - {} == clientFilters;
    }

    /** The loop of `OnNotify` over the subscribers of a variable just written. */
    method TellSubscribers(w: DbVar, msg: Msg, now: real) returns (v: DbVar)
      modifies this
      ensures v == Stamped(w, Recipients(w, now), now)
      ensures Value() == MailedAll(old(Value()), Recipients(w, now), msg)
    {
      hide Stamped, PutAll;
      v := w;
      var todo := w.subscribers.Keys;
      ghost var cs := Recipients(w, now);
      assert cs - todo == {};
      NobodyTold(w, heldMail, placed, msg, now);
      while todo != {}
        invariant todo <= w.subscribers.Keys
        invariant v == Stamped(w, cs - todo, now)
        invariant Value() == MailedAll(old(Value()), cs - todo, msg)
        decreases |todo|
      {
        var client :| client in todo;
        StampedStep(w, cs - todo, client, now);
        if v.subscribers[client].Expired(now) {
          PutAllStep(old(heldMail), cs - todo, client, msg);
          PutAllStep(old(placed), cs - todo, client, msg);
          AddMessageToClientBox(client, msg);
          v := v.(subscribers := v.subscribers[client := v.subscribers[client].SetLastTimeSent(now)]);
          assert cs - (todo - {client}) == cs - todo + {client};
        } else {
          assert cs - (todo - {client}) == cs - todo;
        }
        todo := todo - {client};
      }
      assert cs - {} == cs;
    }

    method OnNotify(msg: Msg, now: real)
      modifies this
      ensures Value() == Notified(old(Value()), msg, now)
    {
      hide FiltersApplied, Stamped, PutAll, DbVar.Written;
      GetOrMakeVar(msg);
      var v := varMap[msg.key];
      if v.writeCount == 0 {
        v := ApplyFilters(v.(dataType := msg.dataType), msg);
        varMap := varMap[msg.key := v];
      }
      assert v == Opened(old(Value()), msg);
      if v.dataType == msg.dataType {
        var m1 := msg;
        if m1.community == "" {
          m1 := m1.(community := communityName);
        }
        SameRecipients(v, m1, now);
        v := TellSubscribers(v.Written(m1), m1.(msgType := MOOS_NOTIFY), now);
        varMap := varMap[msg.key := v];
      }
    }

    // ---------------------------------------------------------------------- register

    /** The part of `OnRegister` for one named variable. */
    method OnRegisterVar(msg: Msg, now: real)
      modifies this
      ensures Value() == Registered(old(Value()), msg, now)
    {
      hide DbVar.ToMsg, NewVar;
      var alreadyThere := msg.key in varMap;
      GetOrMakeVar(msg);
      if msg.src == "" {
        return;
      }
      var v := varMap[msg.key].AddSubscriber(msg.src, msg.number);
      varMap := varMap[msg.key := v];
      if alreadyThere && v.writeCount != 0 {
        AddMessageToClientBox(msg.src, v.ToMsg().(msgType := MOOS_NOTIFY));
        v := v.(subscribers := v.subscribers[msg.src := v.subscribers[msg.src].SetLastTimeSent(now)]);
        varMap := varMap[msg.key := v];
      }
    }

    /** The part for a wildcard; `order` is how the loop met the variables. */
    method OnRegisterWildcard(msg: Msg, now: real) returns (ghost order: seq<string>)
      modifies this
      ensures forall k :: k in old(varMap) ==> k in order
      ensures Value() == WildcardRegistered(old(Value()), msg, now, order)
    {
      hide Registered, FilterMatches, InsertFilter, DbVar.ToMsg;
      var fs := if msg.src in clientFilters then clientFilters[msg.src] else [];
      clientFilters := clientFilters[msg.src := InsertFilter(fs, msg.filter)];
      ghost var start := Value();
      var todo := varMap.Keys;
      order := [];
      while todo != {}
        invariant forall k :: k in old(varMap) ==> k in order || k in todo
        invariant Value() == MatchesRegistered(start, msg, now, order)
        decreases |todo|
      {
        var k :| k in todo;
        MatchesSnoc(start, msg, now, order, k);
        if k in varMap {
          var m := varMap[k].ToMsg();
          if FilterMatches(msg.filter, m) {
            m := m.(msgType := MOOS_REGISTER, dataType := MOOS_DOUBLE, number := msg.filter.period, src := msg.src);
            OnRegisterVar(m, now);
          }
        }
        order := order + [k];
        todo := todo - {k};
      }
    }

    // -------------------------------------------------------------------- unregister

    method OnUnRegisterVar(msg: Msg)
      modifies this
      ensures Value() == Unregistered(old(Value()), msg)
    {
      if msg.key in varMap {
        varMap := varMap[msg.key := varMap[msg.key].RemoveSubscriber(msg.src)];
      }
    }

    method OnUnRegisterWildcard(msg: Msg)
      modifies this
      ensures Value() == WildcardUnregistered(old(Value()), msg)
    {
      hide FilterMatches, DbVar.ToMsg;
      ghost var vars := varMap;
      var todo := varMap.Keys;
      while todo != {}
        invariant varMap.Keys == vars.Keys && todo <= vars.Keys
        invariant Value() == old(Value()).(vars := varMap)
        invariant forall k :: k in todo ==> varMap[k] == vars[k]
        invariant forall k :: k in vars && k !in todo ==> varMap[k] == UnsubscribedIfMatched(vars[k], msg)
        decreases |todo|
      {
        var k :| k in todo;
        if FilterMatches(msg.filter, varMap[k].ToMsg()) {
          varMap := varMap[k := varMap[k].RemoveSubscriber(msg.src)];
        }
        todo := todo - {k};
      }
      EachUnsubscribed(old(Value()), varMap, msg);
    }

    // ------------------------------------------------------------- clear, mail, leaving

    /** Each variable forgets its value. */
    method ResetVars()
      modifies this`varMap
      ensures varMap == Cleared(old(Value())).vars
    {
      ghost var vars := varMap;
      var todo := varMap.Keys;
      while todo != {}
        invariant varMap.Keys == vars.Keys && todo <= vars.Keys
        invariant forall k :: k in todo ==> varMap[k] == vars[k]
        invariant forall k :: k in vars && k !in todo ==> varMap[k] == vars[k].Reset()
        decreases |todo|
      {
        var k :| k in todo;
        varMap := varMap[k := varMap[k].Reset()];
        todo := todo - {k};
      }
    }

    /** Each client's box is emptied. */
    method ClearBoxes()
      modifies this`heldMail
      ensures heldMail == map c | c in old(heldMail) :: []
    {
      ghost var held := heldMail;
      var boxes := heldMail.Keys;
      while boxes != {}
        invariant heldMail.Keys == held.Keys && boxes <= held.Keys
        invariant forall c :: c in held && c !in boxes ==> heldMail[c] == []
        decreases |boxes|
      {
        var c :| c in boxes;
        heldMail := heldMail[c := []];
        boxes := boxes - {c};
      }
    }

    method OnClearRequested()
      modifies this
      ensures Value() == Cleared(old(Value()))
    {
      hide DbVar.Reset;
      ResetVars();
      ClearBoxes();
      placed, drained := map[], map[];
    }

    method OnFetchAllMail(who: string) returns (tx: seq<Msg>)
      modifies this
      ensures (Value(), tx) == MailFetched(old(Value()), who)
    {
      tx := [];
      if who in heldMail {
        tx := heldMail[who];
        heldMail := heldMail[who := []];
        drained := drained[who := Box(drained, who) + tx];
      }
    }

    /** Every variable loses its subscription by `client`. */
    method RemoveFromAll(client: string)
      modifies this`varMap
      ensures varMap == Forgotten(old(Value()), client).vars
    {
      ghost var vars := varMap;
      var todo := varMap.Keys;
      while todo != {}
        invariant varMap.Keys == vars.Keys && todo <= vars.Keys
        invariant forall k :: k in todo ==> varMap[k] == vars[k]
        invariant forall k :: k in vars && k !in todo ==> varMap[k] == vars[k].RemoveSubscriber(client)
        decreases |todo|
      {
        var k :| k in todo;
        varMap := varMap[k := varMap[k].RemoveSubscriber(client)];
        todo := todo - {k};
      }
    }

    method OnDisconnect(client: string, event: Msg, now: real)
      modifies this
      ensures Value() == Disconnected(old(Value()), client, event, now)
    {
      hide Notified, DbVar.RemoveSubscriber;
      RemoveFromAll(client);
      if client in clientFilters {
        clientFilters := clientFilters[client := []];
      }
      heldMail := heldMail - {client};
      placed, drained := placed - {client}, drained - {client};
      OnNotify(event, now);
    }

    // ----------------------------------------------------------------------- packets

    method ProcessMsg(msg: Msg, now: real) returns (ghost order: seq<string>)
      modifies this
      ensures forall k :: k in old(varMap) ==> k in order
      ensures Value() == Processed(old(Value()), Arrival(msg, now, order))
    {
      hide Notified, Registered, WildcardRegistered, Unregistered, WildcardUnregistered, Cleared, AsksToClear;
      order := ListingOf(varMap.Keys);
      if msg.msgType == MOOS_NOTIFY {
        OnNotify(msg, now);
      } else if msg.msgType == MOOS_REGISTER {
        OnRegisterVar(msg, now);
      } else if msg.msgType == MOOS_WILDCARD_REGISTER {
        order := OnRegisterWildcard(msg, now);
      } else if msg.msgType == MOOS_UNREGISTER {
        OnUnRegisterVar(msg);
      } else if msg.msgType == MOOS_WILDCARD_UNREGISTER {
        OnUnRegisterWildcard(msg);
      } else if msg.msgType == MOOS_SERVER_REQUEST {
        if AsksToClear(msg.key) {
          OnClearRequested();
        }
      }
    }

    /** `own` is what the database notifies itself of while handling this packet, if anything; each
        message comes with the clock reading it meets. */
    method OnRxPkt(client: string, rx: seq<Msg>, own: seq<Msg>, times: seq<real>, ownTimes: seq<real>)
        returns (tx: seq<Msg>, ghost arrivals: seq<Arrival>, ghost ownArrivals: seq<Arrival>)
      requires |times| == |rx| && |ownTimes| == |own|
      modifies this
      ensures Met(arrivals, rx, times) && Met(ownArrivals, own, ownTimes)
      ensures (Value(), tx) == PacketReceived(old(Value()), client, arrivals, ownArrivals)
    {
      hide Processed, ProcessedAll;
      arrivals := ProcessList(rx, times);
      ownArrivals := ProcessList(own, ownTimes);
      assert arrivals == [] <==> rx == [];
      ghost var s1 := Value();
      assert s1 == ProcessedAll(ProcessedAll(old(Value()), arrivals), ownArrivals);
      tx := [];
      if rx != [] {
        if client !in heldMail {
          heldMail := heldMail[client := []];
        }
        tx := heldMail[client];
        heldMail := heldMail[client := []];
        drained := drained[client := Box(drained, client) + tx];
        assert Value() == Drained(s1, client);
      }
    }

    method ProcessList(msgs: seq<Msg>, times: seq<real>) returns (ghost arrivals: seq<Arrival>)
      requires |times| == |msgs|
      modifies this
      ensures Met(arrivals, msgs, times)
      ensures Value() == ProcessedAll(old(Value()), arrivals)
    {
      hide Processed;
      arrivals := [];
      for i := 0 to |msgs|
        invariant |arrivals| == i
        invariant forall j :: 0 <= j < i ==> arrivals[j].msg == msgs[j] && arrivals[j].now == times[j]
        invariant Value() == ProcessedAll(old(Value()), arrivals)
      {
        ghost var order := ProcessMsg(msgs[i], times[i]);
        ghost var front := arrivals;
        arrivals := arrivals + [Arrival(msgs[i], times[i], order)];
        assert arrivals[..i] == front;
      }
    }
  }

  /** The messages, each with its clock reading. */
  predicate Met(arrivals: seq<Arrival>, msgs: seq<Msg>, times: seq<real>) {
    && |arrivals| == |msgs| == |times|
    && forall i :: 0 <= i < |msgs| ==> arrivals[i].msg == msgs[i] && arrivals[i].now == times[i]
  }

  // ------------------------------------------------------------- one turn of each loop

  lemma OneMoreFilter(v: DbVar, owner: string, fs: seq<MsgFilter>, m: Msg)
    requires fs != []
    ensures var n := |fs| - 1;
            OwnerAdded(v, owner, fs, m) ==
            if FilterMatches(fs[n], m) then OwnerAdded(v, owner, fs[..n], m).AddSubscriber(owner, fs[n].period)
            else OwnerAdded(v, owner, fs[..n], m)
  {
    hide FilterMatches;
    var n := |fs| - 1;
    assert forall i :: 0 <= i < n ==> fs[..n][i] == fs[i];
    if SomeMatch(fs[..n], m) {
      var i :| 0 <= i < n && FilterMatches(fs[..n][i], m);
      assert FilterMatches(fs[i], m);
    }
  }

  lemma NoOwners(v: DbVar, filters: map<string, seq<MsgFilter>>, m: Msg)
    requires filters == map[]
    ensures FiltersApplied(v, filters, m) == v
  {
  }

  lemma OneMoreOwner(v: DbVar, filters: map<string, seq<MsgFilter>>, todo: set<string>, owner: string, m: Msg)
    requires todo <= filters.Keys && owner in todo
    ensures FiltersApplied(v, filters - (todo - {owner}), m) ==
            OwnerAdded(FiltersApplied(v, filters - todo, m), owner, filters[owner], m)
  {
    hide SomeMatch, LastPeriod;
    var before, after := filters - todo, filters - (todo - {owner});
    assert Owners(after, m) == Owners(before, m) +
              (if owner != "" && SomeMatch(filters[owner], m) then {owner} else {});
    assert owner !in before;
  }

  lemma EachUnsubscribed(s: State, vars: map<string, DbVar>, m: Msg)
    requires vars.Keys == s.vars.Keys && forall k :: k in vars ==> vars[k] == UnsubscribedIfMatched(s.vars[k], m)
    ensures s.(vars := vars) == WildcardUnregistered(s, m)
  {
    hide UnsubscribedIfMatched;
  }

  lemma SameRecipients(v: DbVar, m: Msg, now: real)
    ensures Recipients(v.Written(m), now) == Recipients(v, now)
  {
  }

  lemma NobodyTold(w: DbVar, held: Boxes, placed: Boxes, m: Msg, now: real)
    ensures Stamped(w, {}, now) == w && PutAll(held, {}, m) == held && PutAll(placed, {}, m) == placed
  {
  }

  lemma StampedStep(w: DbVar, cs: set<string>, c: string, now: real)
    requires c in w.subscribers && c !in cs
    ensures var v := Stamped(w, cs, now);
            && c in v.subscribers && v.subscribers[c] == w.subscribers[c]
            && Stamped(w, cs + {c}, now) ==
               v.(subscribers := v.subscribers[c := v.subscribers[c].SetLastTimeSent(now)])
  {
  }

  lemma PutAllStep(b: Boxes, cs: set<string>, c: string, m: Msg)
    requires c !in cs
    ensures PutAll(b, cs + {c}, m) == Put(PutAll(b, cs, m), c, m)
  {
  }

  lemma {:induction false} MatchesSnoc(s: State, m: Msg, now: real, order: seq<string>, k: string)
    ensures var s1 := MatchesRegistered(s, m, now, order);
            MatchesRegistered(s, m, now, order + [k]) ==
            if k in s1.vars && FilterMatches(m.filter, s1.vars[k].ToMsg())
            then Registered(s1, OwnRequest(s1.vars[k], m), now) else s1
    decreases |order|
  {
    hide FilterMatches, Registered, OwnRequest, DbVar.ToMsg;
    if order == [] {
      assert [k][1..] == [] && order + [k] == [k];
    } else {
      var j := order[0];
      var s1 := if j in s.vars && FilterMatches(m.filter, s.vars[j].ToMsg())
                then Registered(s, OwnRequest(s.vars[j], m), now) else s;
      assert (order + [k])[1..] == order[1..] + [k];
      MatchesSnoc(s1, m, now, order[1..], k);
    }
  }

  ghost function ListingOf(keys: set<string>): (order: seq<string>)
    ensures forall k :: k in keys ==> k in order
  {
    if keys == {} then []
    else var k :| k in keys; [k] + ListingOf(keys - {k})
  }
}
