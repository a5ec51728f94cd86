/** What holds in every state the database can reach. */
module DbInvariants {
  import opened Messages
  import opened DbState

  // ----------------------------------------------------------------- the invariants

  /** Every variable is filed under its own name. */
  predicate Named(s: State) {
    forall k :: k in s.vars ==> s.vars[k].name == k
  }

  predicate HasMail(box: seq<Msg>, k: string) {
    exists i :: 0 <= i < |box| && box[i].key == k
  }

  /** The last message about variable `k`. */
  function LastMail(box: seq<Msg>, k: string): Msg
    requires HasMail(box, k)
  {
    var n := |box| - 1;
    if box[n].key == k then box[n]
    else
      assert HasMail(box[..n], k) by {
        var i :| 0 <= i < |box| && box[i].key == k;
        assert box[..n][i] == box[i];
      }
      LastMail(box[..n], k)
  }

  /** The message says what the variable holds: type, payload, time, source and community. */
  predicate Carries(m: Msg, v: DbVar) {
    && m.msgType == MOOS_NOTIFY && m.key == v.name && m.dataType == v.dataType
    && m.time == v.time && m.src == v.whoChangedMe && m.srcAux == v.srcAux && m.community == v.community
    && (v.dataType == MOOS_DOUBLE ==> m.number == v.number)
    && (v.dataType == MOOS_STRING || v.dataType == MOOS_BINARY_STRING ==> m.text == v.text)
  }

  predicate Informed(v: DbVar, box: seq<Msg>, k: string) {
    HasMail(box, k) && Carries(LastMail(box, k), v)
  }

  /** Last-write coherence: whoever wants every change of a written variable has been told its
      present value last. */
  predicate Coherent(s: State) {
    forall k, c :: k in s.vars && s.vars[k].writeCount > 0
      && c in s.vars[k].subscribers && s.vars[k].subscribers[c].period == 0.0
      ==> Informed(s.vars[k], Box(s.placed, c), k)
  }

  /** What went into a box came out of it or is still there, in order. */
  ghost predicate Conserved(s: State) {
    forall c :: Box(s.placed, c) == Box(s.drained, c) + Box(s.held, c)
  }

  predicate Spaced(sentAt: seq<real>, period: real) {
    forall i, j :: 0 <= i && j == i + 1 < |sentAt| ==> sentAt[j] - sentAt[i] >= period
  }

  predicate Paced(r: RegisterInfo) {
    && r.lastTimeSent == (if r.sentAt == [] then 0.0 else r.sentAt[|r.sentAt| - 1])
    && (r.period > 0.0 ==> Spaced(r.sentAt, r.period))
  }

  /** No subscription with a period has been served faster than that. */
  predicate AllPaced(s: State) {
    forall k, c :: k in s.vars && c in s.vars[k].subscribers ==> Paced(s.vars[k].subscribers[c])
  }

  predicate NoNameless(s: State) {
    forall k :: k in s.vars ==> "" !in s.vars[k].subscribers
  }

  ghost predicate Inv(s: State) {
    Named(s) && Coherent(s) && Conserved(s) && AllPaced(s) && NoNameless(s)
  }

  // ------------------------------------------------------------------------- boxes

  lemma LastOfSnoc(box: seq<Msg>, m: Msg, k: string)
    ensures m.key == k ==> HasMail(box + [m], k) && LastMail(box + [m], k) == m
    ensures m.key != k ==> HasMail(box + [m], k) == HasMail(box, k)
    ensures m.key != k && HasMail(box, k) ==> LastMail(box + [m], k) == LastMail(box, k)
  {
    var all := box + [m];
    assert all[|box|] == m && all[..|box|] == box;
    if HasMail(box, k) {
      var i :| 0 <= i < |box| && box[i].key == k;
      assert all[i].key == k;
    }
    if m.key != k && HasMail(all, k) {
      var i :| 0 <= i < |all| && all[i].key == k;
      assert box[i].key == k;
    }
  }

  lemma InformedSnoc(v: DbVar, box: seq<Msg>, m: Msg, k: string)
    ensures m.key != k ==> (Informed(v, box + [m], k) <==> Informed(v, box, k))
    ensures m.key == k ==> (Informed(v, box + [m], k) <==> Carries(m, v))
  {
    LastOfSnoc(box, m, k);
  }

  lemma PutAllBox(b: Boxes, cs: set<string>, m: Msg, c: string)
    ensures Box(PutAll(b, cs, m), c) == if c in cs then Box(b, c) + [m] else Box(b, c)
  {
  }

  // ------------------------------------------------------------------------- notify

  lemma WrittenCarries(v: DbVar, m: Msg)
    requires v.dataType == m.dataType && v.name == m.key
    ensures Carries(m.(msgType := MOOS_NOTIFY), v.Written(m))
  {
  }

  lemma PacedStep(r: RegisterInfo, t: real)
    requires Paced(r) && r.Expired(t)
    ensures Paced(r.SetLastTimeSent(t))
  {
    var after := r.sentAt + [t];
    if r.period > 0.0 {
      forall i, j | 0 <= i && j == i + 1 < |after| ensures after[j] - after[i] >= r.period {
        if j < |r.sentAt| {
          assert r.sentAt[j] - r.sentAt[i] >= r.period;
        }
      }
    }
  }

  lemma FiltersAppliedFacts(v: DbVar, filters: map<string, seq<MsgFilter>>, m: Msg)
    ensures var v' := FiltersApplied(v, filters, m);
            && v'.subscribers.Keys == v.subscribers.Keys + Owners(filters, m)
            && v' == v.(subscribers := v'.subscribers)
            && (forall c :: c in v'.subscribers &&
                       Paced(if c in v.subscribers then v.subscribers[c] else RegisterInfo(0.0, 0.0, []))
                  ==> Paced(v'.subscribers[c]))
  {
  }

  /** The variable as it stands just before the type check. */
  lemma OpenedFacts(s: State, m: Msg)
    requires Inv(s)
    ensures var v := Opened(s, m);
            && v.name == m.key && "" !in v.subscribers
            && (forall c :: c in v.subscribers ==> Paced(v.subscribers[c]))
            && (m.key in s.vars && s.vars[m.key].writeCount > 0 ==> v == s.vars[m.key])
            && (v.writeCount == 0 ==> v.dataType == m.dataType)
  {
    hide Coherent, Conserved, Glob.Wild;
    FiltersAppliedFacts(Made(s, m).vars[m.key].(dataType := m.dataType), s.filters, m);
  }

  lemma StampedPaced(v: DbVar, now: real)
    requires forall c :: c in v.subscribers ==> Paced(v.subscribers[c])
    ensures var v' := Stamped(v, Recipients(v, now), now);
            && v'.subscribers.Keys == v.subscribers.Keys
            && (forall c :: c in v'.subscribers ==> Paced(v'.subscribers[c]))
            && (forall c :: c in v'.subscribers ==> v'.subscribers[c].period == v.subscribers[c].period)
  {
    hide Paced;
    forall c | c in v.subscribers && c in Recipients(v, now) ensures Paced(v.subscribers[c].SetLastTimeSent(now)) {
      PacedStep(v.subscribers[c], now);
    }
  }

  /** Mail about one variable keeps everybody informed about the others, and about this one those
      who get the mail, if it says what the variable holds now. */
  lemma CoherentAfterMail(s: State, s': State, k: string, cs: set<string>, m: Msg)
    requires Coherent(s) && s'.placed == PutAll(s.placed, cs, m) && m.key == k && k in s'.vars
    requires forall j :: j in s'.vars && j != k ==> j in s.vars && s'.vars[j] == s.vars[j]
    requires var v := s'.vars[k];
             forall c :: v.writeCount > 0 && c in v.subscribers && v.subscribers[c].period == 0.0 ==>
               if c in cs then Carries(m, v) else Informed(v, Box(s.placed, c), k)
    ensures Coherent(s')
  {
    forall j, c | j in s'.vars && s'.vars[j].writeCount > 0
      && c in s'.vars[j].subscribers && s'.vars[j].subscribers[c].period == 0.0
      ensures Informed(s'.vars[j], Box(s'.placed, c), j)
    {
      hide Informed, Carries;
      PutAllBox(s.placed, cs, m, c);
      InformedSnoc(s'.vars[j], Box(s.placed, c), m, j);
    }
  }

  lemma ConservedAfterMail(s: State, s': State, cs: set<string>, m: Msg)
    requires Conserved(s) && s'.drained == s.drained
    requires s'.placed == PutAll(s.placed, cs, m) && s'.held == PutAll(s.held, cs, m)
    ensures Conserved(s')
  {
    hide PutAll;
    forall c ensures Box(s'.placed, c) == Box(s'.drained, c) + Box(s'.held, c) {
      PutAllBox(s.placed, cs, m, c);
      PutAllBox(s.held, cs, m, c);
    }
  }

  /** A state whose variables differ at most in `k`, where they are in order. */
  predicate OneVarChanged(s: State, s': State, k: string) {
    && k in s'.vars && s'.vars.Keys == s.vars.Keys + {k}
    && (forall j :: j in s.vars && j != k ==> s'.vars[j] == s.vars[j])
    && s'.vars[k].name == k && "" !in s'.vars[k].subscribers
    && (forall c :: c in s'.vars[k].subscribers ==> Paced(s'.vars[k].subscribers[c]))
  }

  lemma VarsInOrder(s: State, s': State, k: string)
    requires Named(s) && AllPaced(s) && NoNameless(s) && OneVarChanged(s, s', k)
    ensures Named(s') && AllPaced(s') && NoNameless(s')
  {
    hide Paced;
  }

  lemma NotifiedInv(s: State, m: Msg, now: real)
    requires Inv(s)
    ensures Inv(Notified(s, m, now))
  {
    var v := Opened(s, m);
    if v.dataType == m.dataType {
      NotifiedWrite(s, m, now);
    } else {
      OpenedFacts(s, m);
      hide Opened, Paced, Informed;
      assert v == s.vars[m.key];
      assert Notified(s, m, now).vars == s.vars;
    }
  }

  lemma WriteShape(s: State, m: Msg, now: real)
    requires Opened(s, m).dataType == m.dataType
    ensures var s', v, mc := Notified(s, m, now), Opened(s, m), WithCommunity(s, m);
            var m1, cs := mc.(msgType := MOOS_NOTIFY), Recipients(v, now);
            && s'.drained == s.drained && s'.placed == PutAll(s.placed, cs, m1) && s'.held == PutAll(s.held, cs, m1)
            && s'.vars == Made(s, m).vars[m.key := Stamped(v.Written(mc), cs, now)]
  {
    hide Opened, DbVar.Written, Stamped, Recipients, PutAll, WithCommunity, NewVar;
  }

  lemma NotifiedWrite(s: State, m: Msg, now: real)
    requires Inv(s) && Opened(s, m).dataType == m.dataType
    ensures Inv(Notified(s, m, now))
  {
    hide Opened, Paced, Informed, Carries, DbVar.Written, Stamped, Recipients, PutAll;
    hide Named, Coherent, Conserved, AllPaced, NoNameless, Notified, Made;
    var v, mc := Opened(s, m), WithCommunity(s, m);
    var m1, cs := mc.(msgType := MOOS_NOTIFY), Recipients(v, now);
    OpenedFacts(s, m);
    var s' := Notified(s, m, now);
    WriteShape(s, m, now);
    MadeElsewhere(s, m);
    WrittenVar(v, mc, now);
    VarsInOrder(s, s', m.key);
    ConservedAfterMail(s, s', cs, m1);
    CoherentAfterMail(s, s', m.key, cs, m1);
  }

  lemma WrittenVar(v: DbVar, mc: Msg, now: real)
    requires v.dataType == mc.dataType && v.name == mc.key
    requires forall c :: c in v.subscribers ==> Paced(v.subscribers[c])
    ensures var v' := Stamped(v.Written(mc), Recipients(v, now), now);
            && v'.name == v.name && v'.subscribers.Keys == v.subscribers.Keys
            && Carries(mc.(msgType := MOOS_NOTIFY), v')
            && (forall c :: c in v'.subscribers ==> Paced(v'.subscribers[c]))
            && (forall c :: c in v'.subscribers && v'.subscribers[c].period == 0.0 ==> c in Recipients(v, now))
  {
    var w := v.Written(mc);
    StampedPaced(w, now);
    assert Recipients(w, now) == Recipients(v, now);
    WrittenCarries(v, mc);
    hide Paced;
  }

  // ----------------------------------------------------------------------- register

  lemma PutIsPutAll(b: Boxes, c: string, m: Msg)
    ensures Put(b, c, m) == PutAll(b, {c}, m)
  {
  }

  lemma RegisteredInv(s: State, m: Msg, now: real)
    requires Inv(s)
    ensures Inv(Registered(s, m, now))
  {
    hide Paced, Informed, Carries, Coherent, Conserved, AllPaced;
    var s' := Registered(s, m, now);
    if m.src != "" && m.key in s.vars && s.vars[m.key].writeCount != 0 {
      RegisteredReply(s, m, now);
    } else {
      NewSubscriptionPaced(m.number, now);
      RegisteredSilently(s, m, now);
    }
  }

  lemma CoherentUnwritten(s: State, s': State, k: string)
    requires Coherent(s) && s'.placed == s.placed && k in s'.vars && s'.vars[k].writeCount == 0
    requires forall j :: j in s'.vars && j != k ==> j in s.vars && s'.vars[j] == s.vars[j]
    ensures Coherent(s')
  {
    hide Informed;
  }

  lemma RegisteredSilently(s: State, m: Msg, now: real)
    requires Inv(s) && (m.src == "" || m.key !in s.vars || s.vars[m.key].writeCount == 0)
    ensures Inv(Registered(s, m, now))
  {
    hide Paced, Informed, Coherent, Conserved, AllPaced, Named, NoNameless, OneVarChanged;
    var s' := Registered(s, m, now);
    if m.src == "" && m.key in s.vars {
      assert s' == s;
    } else {
      RegisteredOneVar(s, m, now);
      VarsInOrder(s, s', m.key);
      SilentShape(s, m, now);
      CoherentUnwritten(s, s', m.key);
      SameBoxesConserved(s, s');
    }
  }

  lemma SilentShape(s: State, m: Msg, now: real)
    requires m.src == "" || m.key !in s.vars || s.vars[m.key].writeCount == 0
    requires m.src != "" || m.key !in s.vars
    ensures var s' := Registered(s, m, now);
            && s'.placed == s.placed && s'.drained == s.drained && s'.held == s.held
            && m.key in s'.vars && s'.vars[m.key].writeCount == 0
            && (forall j :: j in s'.vars && j != m.key ==> j in s.vars && s'.vars[j] == s.vars[j])
  {
    hide DbVar.ToMsg;
  }

  lemma SameBoxesConserved(s: State, s': State)
    requires Conserved(s) && s'.placed == s.placed && s'.drained == s.drained && s'.held == s.held
    ensures Conserved(s')
  {
    hide Box;
  }

  lemma NewSubscriptionPaced(period: real, now: real)
    ensures Paced(RegisterInfo(period, 0.0, []))
    ensures Paced(RegisterInfo(period, 0.0, []).SetLastTimeSent(now))
  {
  }

  lemma MadeElsewhere(s: State, m: Msg)
    ensures var s' := Made(s, m);
            && m.key in s'.vars && s'.vars.Keys == s.vars.Keys + {m.key}
            && (forall j :: j in s.vars && j != m.key ==> s'.vars[j] == s.vars[j])
  {
    hide NewVar;
  }

  lemma RegisteredElsewhere(s: State, m: Msg, now: real)
    ensures var s' := Registered(s, m, now);
            && m.key in s'.vars && s'.vars.Keys == s.vars.Keys + {m.key}
            && (forall j :: j in s.vars && j != m.key ==> s'.vars[j] == s.vars[j])
  {
    hide DbVar.ToMsg, DbVar.AddSubscriber, Put, NewVar, Made;
    MadeElsewhere(s, m);
  }

  lemma RegisteredHere(s: State, m: Msg, now: real)
    requires m.src != "" || m.key !in s.vars
    requires m.key in s.vars ==> s.vars[m.key].name == m.key && "" !in s.vars[m.key].subscribers
    requires m.key in s.vars ==> forall c :: c in s.vars[m.key].subscribers ==> Paced(s.vars[m.key].subscribers[c])
    ensures m.key in Registered(s, m, now).vars
    ensures var v := Registered(s, m, now).vars[m.key];
            && v.name == m.key && "" !in v.subscribers
            && (forall c :: c in v.subscribers ==> Paced(v.subscribers[c]))
  {
    hide Paced, DbVar.ToMsg, Put;
    NewSubscriptionPaced(m.number, now);
  }

  lemma RegisteredOneVar(s: State, m: Msg, now: real)
    requires Named(s) && AllPaced(s) && NoNameless(s) && (m.src != "" || m.key !in s.vars)
    ensures OneVarChanged(s, Registered(s, m, now), m.key)
  {
    hide Paced, Registered;
    RegisteredElsewhere(s, m, now);
    RegisteredHere(s, m, now);
  }

  lemma RegisteredReply(s: State, m: Msg, now: real)
    requires Inv(s) && m.src != "" && m.key in s.vars && s.vars[m.key].writeCount != 0
    ensures Inv(Registered(s, m, now))
  {
    hide Paced, Informed, Carries, DbVar.ToMsg, Named, Coherent, Conserved, AllPaced, NoNameless,
         OneVarChanged, Put, PutAll;
    var s' := Registered(s, m, now);
    var v := s.vars[m.key].AddSubscriber(m.src, m.number);
    var v' := s'.vars[m.key];
    var reply := v.ToMsg().(msgType := MOOS_NOTIFY);
    RegisteredOneVar(s, m, now);
    VarsInOrder(s, s', m.key);
    ReplyCarries(v, v');
    PutIsPutAll(s.placed, m.src, reply);
    PutIsPutAll(s.held, m.src, reply);
    ConservedAfterMail(s, s', {m.src}, reply);
    forall c | c in v'.subscribers && v'.subscribers[c].period == 0.0 && c != m.src
      ensures Informed(v', Box(s.placed, c), m.key)
    {
      InformedIfSubscribed(s, m.key, c);
      SameValueInformed(s.vars[m.key], v', Box(s.placed, c), m.key);
    }
    NameOf(s, m.key);
    CoherentAfterMail(s, s', m.key, {m.src}, reply);
  }

  lemma NameOf(s: State, k: string)
    requires Named(s) && k in s.vars
    ensures s.vars[k].name == k
  {
  }

  lemma InformedIfSubscribed(s: State, k: string, c: string)
    requires Coherent(s) && k in s.vars && s.vars[k].writeCount > 0
    requires c in s.vars[k].subscribers && s.vars[k].subscribers[c].period == 0.0
    ensures Informed(s.vars[k], Box(s.placed, c), k)
  {
    hide Informed;
  }

  lemma ReplyCarries(v: DbVar, v': DbVar)
    requires v' == v.(subscribers := v'.subscribers)
    ensures Carries(v.ToMsg().(msgType := MOOS_NOTIFY), v')
    ensures v.ToMsg().key == v.name
  {
  }

  lemma SameValueInformed(v: DbVar, v': DbVar, box: seq<Msg>, k: string)
    requires v' == v.(subscribers := v'.subscribers)
    ensures Informed(v', box, k) <==> Informed(v, box, k)
  {
  }

  lemma FilterStoredInv(s: State, owner: string, f: MsgFilter)
    requires Inv(s)
    ensures Inv(FilterStored(s, owner, f))
  {
    hide Paced, Informed, InsertFilter;
  }

  lemma {:induction false} MatchesRegisteredInv(s: State, m: Msg, now: real, order: seq<string>)
    requires Inv(s)
    ensures Inv(MatchesRegistered(s, m, now, order))
    decreases |order|
  {
    hide Inv, FilterMatches, Registered;
    if order != [] {
      var k := order[0];
      if k in s.vars && FilterMatches(m.filter, s.vars[k].ToMsg()) {
        RegisteredInv(s, OwnRequest(s.vars[k], m), now);
        MatchesRegisteredInv(Registered(s, OwnRequest(s.vars[k], m), now), m, now, order[1..]);
      } else {
        MatchesRegisteredInv(s, m, now, order[1..]);
      }
    }
  }

  // ----------------------------------------------------- leaving, clearing, handing out

  /** Taking subscriptions away, from any variables, informs nobody less. */
  lemma FewerSubscribers(s: State, s': State, c: string)
    requires Inv(s) && s'.vars.Keys == s.vars.Keys
    requires s' == s.(vars := s'.vars)
    requires forall k :: k in s.vars ==> s'.vars[k] == s.vars[k] || s'.vars[k] == s.vars[k].RemoveSubscriber(c)
    ensures Inv(s')
  {
    forall k, d | k in s'.vars && s'.vars[k].writeCount > 0
      && d in s'.vars[k].subscribers && s'.vars[k].subscribers[d].period == 0.0
      ensures Informed(s'.vars[k], Box(s'.placed, d), k)
    {
      SameValueInformed(s.vars[k], s'.vars[k], Box(s.placed, d), k);
      hide Informed;
    }
    hide Paced, Informed;
  }

  lemma UnregisteredInv(s: State, m: Msg)
    requires Inv(s)
    ensures Inv(Unregistered(s, m))
  {
    hide Inv;
    FewerSubscribers(s, Unregistered(s, m), m.src);
  }

  lemma WildcardUnregisteredInv(s: State, m: Msg)
    requires Inv(s)
    ensures Inv(WildcardUnregistered(s, m))
  {
    hide Inv, FilterMatches;
    FewerSubscribers(s, WildcardUnregistered(s, m), m.src);
  }

  lemma ClearedInv(s: State)
    requires Inv(s)
    ensures Inv(Cleared(s))
  {
    hide Paced, Informed;
  }

  lemma DrainedInv(s: State, c: string)
    requires Inv(s)
    ensures Inv(Drained(s, c)) && Box(Drained(s, c).held, c) == []
  {
    hide Paced, Informed;
  }

  lemma ForgottenInv(s: State, c: string)
    requires Inv(s)
    ensures Inv(Forgotten(s, c))
  {
    var s1 := s.(vars := Forgotten(s, c).vars);
    FewerSubscribers(s, s1, c);
    ForgottenBoxes(s1, c);
  }

  lemma BoxWithout(b: Boxes, c: string)
    ensures forall d :: Box(b - {c}, d) == if d == c then [] else Box(b, d)
  {
  }

  lemma ForgottenBoxes(s: State, c: string)
    requires Inv(s) && forall k :: k in s.vars ==> c !in s.vars[k].subscribers
    ensures Inv(s.(filters := if c in s.filters then s.filters[c := []] else s.filters,
                   held := s.held - {c}, placed := s.placed - {c}, drained := s.drained - {c}))
  {
    hide Paced, Informed;
    BoxWithout(s.placed, c);
    BoxWithout(s.drained, c);
    BoxWithout(s.held, c);
  }

  // -------------------------------------------------------------------------- every run

  lemma ProcessedInv(s: State, a: Arrival)
    requires Inv(s)
    ensures Inv(Processed(s, a))
  {
    hide Inv, Notified, Registered, MatchesRegistered, Unregistered, WildcardUnregistered, Cleared, FilterStored;
    NotifiedInv(s, a.msg, a.now);
    RegisteredInv(s, a.msg, a.now);
    FilterStoredInv(s, a.msg.src, a.msg.filter);
    MatchesRegisteredInv(FilterStored(s, a.msg.src, a.msg.filter), a.msg, a.now, a.order);
    UnregisteredInv(s, a.msg);
    WildcardUnregisteredInv(s, a.msg);
    ClearedInv(s);
  }

  lemma {:induction false} ProcessedAllInv(s: State, arrivals: seq<Arrival>)
    requires Inv(s)
    ensures Inv(ProcessedAll(s, arrivals))
  {
    hide Inv, Processed;
    if arrivals != [] {
      var front := arrivals[..|arrivals| - 1];
      ProcessedAllInv(s, front);
      ProcessedInv(ProcessedAll(s, front), arrivals[|arrivals| - 1]);
    }
  }

  /** Everything the server can ask of the database. A packet comes with the notifications the
      database composes itself; connecting and leaving announce themselves with one. */
  datatype Event =
    | Packet(client: string, arrivals: seq<Arrival>, own: seq<Arrival>)
    | Fetch(client: string)
    | Connect(announcement: Arrival)
    | Disconnect(client: string, announcement: Arrival)

  function Step(s: State, e: Event): State {
    match e
    case Packet(c, arrivals, own) => PacketReceived(s, c, arrivals, own).0
    case Fetch(c) => MailFetched(s, c).0
    case Connect(a) => Notified(s, a.msg, a.now)
    case Disconnect(c, a) => Disconnected(s, c, a.msg, a.now)
  }

  function Run(s: State, es: seq<Event>): State {
    if es == [] then s else Step(Run(s, es[..|es| - 1]), es[|es| - 1])
  }

  lemma StepInv(s: State, e: Event)
    requires Inv(s)
    ensures Inv(Step(s, e))
  {
    hide Inv, Notified, Forgotten, ProcessedAll, Drained;
    match e
    case Packet(c, arrivals, own) =>
      ProcessedAllInv(s, arrivals);
      ProcessedAllInv(ProcessedAll(s, arrivals), own);
      DrainedInv(ProcessedAll(ProcessedAll(s, arrivals), own), c);
    case Fetch(c) =>
      DrainedInv(s, c);
    case Connect(a) =>
      NotifiedInv(s, a.msg, a.now);
    case Disconnect(c, a) =>
      ForgottenInv(s, c);
      NotifiedInv(Forgotten(s, c), a.msg, a.now);
  }

  lemma InitialInv(community: string, t: real)
    ensures Inv(Initial(community, t))
  {
    hide OWN_NUMBERS, OWN_TEXTS;
  }

  /** Every reachable state of the database is coherent, conserves mail and paces its sends. */
  lemma {:induction false} RunInv(community: string, t: real, es: seq<Event>)
    ensures Inv(Run(Initial(community, t), es))
  {
    hide Inv, Step, Initial;
    if es == [] {
      InitialInv(community, t);
    } else {
      var front := es[..|es| - 1];
      RunInv(community, t, front);
      StepInv(Run(Initial(community, t), front), es[|es| - 1]);
    }
  }
}
