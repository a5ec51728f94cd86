/** What each request means to the client that makes it, and to everybody else. */
module DbHandlers {
  import opened Messages
  import opened DbState
  import opened DbInvariants
  import opened DbTheorems
  import Glob

  /** What is stored about variable `k`, subscribers apart. */
  predicate SameVariable(v: DbVar, w: DbVar) {
    v.(subscribers := map[]) == w.(subscribers := map[])
  }

  // --------------------------------------------------------------------------- registering

  /** Registering answers at once with the present value if the variable has ever been written,
      starts the subscription afresh with the period asked for, and concerns nobody else. */
  lemma RegisterAnswers(s: State, a: Arrival)
    requires Named(s) && a.msg.msgType == MOOS_REGISTER && a.msg.src != "" && a.msg.key in s.vars
    ensures var m, s' := a.msg, Processed(s, a);
            m.key in s'.vars && m.src in s'.vars[m.key].subscribers &&
            var v, v', had := s.vars[m.key], s'.vars[m.key], |Box(s.held, m.src)|;
            && SameVariable(v', v) && v'.subscribers.Keys == v.subscribers.Keys + {m.src}
            && v'.subscribers[m.src].period == m.number
            && v'.subscribers[m.src].sentAt == (if v.writeCount > 0 then [a.now] else [])
            && |Box(s'.held, m.src)| == had + (if v.writeCount > 0 then 1 else 0)
            && (v.writeCount > 0 ==> Carries(Box(s'.held, m.src)[had], v'))
            && (forall c :: c != m.src ==> Box(s'.held, c) == Box(s.held, c))
            && (forall c :: c in v.subscribers && c != m.src ==> v'.subscribers[c] == v.subscribers[c])
            && (forall k :: k in s.vars && k != m.key ==> s'.vars[k] == s.vars[k])
  {
    hide Carries, DbVar.ToMsg, Notified, WildcardRegistered, Unregistered, WildcardUnregistered, Cleared, AsksToClear;
    RegisteredShape(s, a.msg, a.now);
    ReplyCarries(s.vars[a.msg.key].AddSubscriber(a.msg.src, a.msg.number), Registered(s, a.msg, a.now).vars[a.msg.key]);
  }

  /** Unregistering undoes registering, but for the mail that came meanwhile. */
  lemma UnregisterUndoes(s: State, a: Arrival, u: Arrival)
    requires a.msg.msgType == MOOS_REGISTER && u.msg.msgType == MOOS_UNREGISTER
    requires a.msg.src != "" && u.msg.src == a.msg.src && u.msg.key == a.msg.key
    requires a.msg.key in s.vars && a.msg.src !in s.vars[a.msg.key].subscribers
    ensures Processed(Processed(s, a), u).vars == s.vars
    ensures Processed(Processed(s, a), u).filters == s.filters
  {
    var m := a.msg;
    RegisteredShape(s, m, a.now);
    hide Put, DbVar.ToMsg, Notified, WildcardRegistered, WildcardUnregistered, Cleared, AsksToClear;
    var s1 := Registered(s, m, a.now);
    var v, v1 := s.vars[m.key], s1.vars[m.key];
    assert v1.subscribers - {m.src} == v.subscribers;
    assert Unregistered(s1, u.msg).vars[m.key] == v;
  }

  /** A filter matches a message when its source is in the language of the application pattern
      and its name in that of the variable pattern. */
  lemma FilterMeansLanguages(f: MsgFilter, m: Msg)
    ensures FilterMatches(f, m) <==>
              && Glob.InLanguage(Glob.CString(f.app), Glob.CString(m.src))
              && Glob.InLanguage(Glob.CString(f.var_), Glob.CString(m.key))
  {
    Glob.MatchesIsLanguage(Glob.CString(f.app), Glob.CString(m.src));
    Glob.MatchesIsLanguage(Glob.CString(f.var_), Glob.CString(m.key));
    hide Glob.InLanguage, Glob.Matches;
  }

  // ------------------------------------------------------------------------------- writing

  /** Once written, a variable keeps its type: a write of another type changes nothing at all. */
  lemma MistypedWriteIsIgnored(s: State, a: Arrival)
    requires var m := a.msg;
             && m.msgType == MOOS_NOTIFY && m.key in s.vars
             && s.vars[m.key].writeCount > 0 && s.vars[m.key].dataType != m.dataType
    ensures Processed(s, a) == s
  {
    assert s.vars[a.msg.key := s.vars[a.msg.key]] == s.vars;
  }

  /** A write of the right type is counted, remembers its writer, and is what a later subscriber
      is told. */
  lemma WriteIsRemembered(s: State, a: Arrival)
    requires var m := a.msg;
             Inv(s) && m.msgType == MOOS_NOTIFY
             && (m.key in s.vars && s.vars[m.key].writeCount > 0 ==> s.vars[m.key].dataType == m.dataType)
    ensures var m, s' := a.msg, Processed(s, a);
            && m.key in s'.vars
            && var v := s'.vars[m.key];
            && v.writeCount == (if m.key in s.vars then s.vars[m.key].writeCount else 0) + 1
            && m.src in v.writers
            && Carries(WithCommunity(s, m).(msgType := MOOS_NOTIFY), v)
            && (forall k :: k in s.vars && k != m.key ==> s'.vars[k] == s.vars[k])
  {
    var m, now := a.msg, a.now;
    OpenedFacts(s, m);
    OpenedCount(s, m);
    WrittenVar(Opened(s, m), WithCommunity(s, m), now);
    StampedKeeps(Opened(s, m).Written(WithCommunity(s, m)), Recipients(Opened(s, m), now), now);
    hide Inv, Opened, Stamped, Recipients, Carries, PutAll;
  }

  lemma OpenedCount(s: State, m: Msg)
    ensures Opened(s, m).writeCount == if m.key in s.vars then s.vars[m.key].writeCount else 0
  {
    FiltersAppliedFacts(Made(s, m).vars[m.key].(dataType := m.dataType), s.filters, m);
    hide FiltersApplied;
  }

  lemma StampedKeeps(v: DbVar, cs: set<string>, now: real)
    ensures SameVariable(Stamped(v, cs, now), v)
  {
  }

  // --------------------------------------------------------------------- clearing and leaving

  /** Clearing empties every box and makes every variable unwritten, so that the next write is a
      first write again; types and subscriptions stay. */
  lemma ClearForgetsValues(s: State, a: Arrival, k: string, c: string)
    requires k in s.vars && a.msg.msgType == MOOS_SERVER_REQUEST && AsksToClear(a.msg.key)
    ensures var s' := Processed(s, a);
            && s'.vars.Keys == s.vars.Keys && s'.filters == s.filters
            && Box(s'.held, c) == [] && s'.held.Keys == s.held.Keys
            && var v := s'.vars[k];
            && v.writeCount == 0 && v.writers == {} && v.time == -1.0
            && v.number == -1.0 && v.text == "" && v.whoChangedMe == ""
            && v.dataType == s.vars[k].dataType && v.name == s.vars[k].name && v.subscribers == s.vars[k].subscribers
  {
  }

  /** The plain request is understood as one to clear, wherever it stands in the name, unless an
      earlier request does too. */
  lemma PlainClearIsUnderstood(front: string, back: string)
    ensures Contains(front + "DB_CLEAR" + back, "DB_CLEAR")
    ensures AsksToClear("DB_CLEAR")
  {
    var s := front + "DB_CLEAR" + back;
    assert s[|front|..|front| + 8] == "DB_CLEAR";
    assert "DB_CLEAR"[0..8] == "DB_CLEAR";
  }

  /** A client that leaves is forgotten: no subscriptions, no filters, no mail; whoever comes
      later under its name starts with nothing. */
  lemma LeaverIsForgotten(s: State, c: string, event: Msg, now: real)
    ensures var s' := Disconnected(s, c, event, now);
            && (forall k :: k in s'.vars ==> c !in s'.vars[k].subscribers)
            && (c in s'.filters ==> s'.filters[c] == [])
            && Box(s'.held, c) == []
  {
    var s1 := Forgotten(s, c);
    FirstWriteSubscribers(s1, event, now);
    LeaverOwnsNothing(s, c, event);
    LeaverGetsNothing(s, c, event, now);
    hide Notified, Forgotten, Owners;
    forall k | k in Notified(s1, event, now).vars ensures c !in SubKeys(Notified(s1, event, now), k) {
      assert c !in SubKeys(s1, k);
    }
  }

  lemma LeaverOwnsNothing(s: State, c: string, event: Msg)
    ensures var s1 := Forgotten(s, c);
            && c !in Owners(s1.filters, event) && (c in s1.filters ==> s1.filters[c] == [])
            && (forall k :: c !in SubKeys(s1, k)) && Box(s1.held, c) == []
  {
  }

  lemma LeaverGetsNothing(s: State, c: string, event: Msg, now: real)
    ensures Box(Notified(Forgotten(s, c), event, now).held, c) == []
  {
    var s1 := Forgotten(s, c);
    LeaverOwnsNothing(s, c, event);
    assert c !in SubKeys(s1, event.key);
    OpenedSubscribers(s1, event);
    hide Forgotten, Opened, Owners, Stamped, WithCommunity, DbVar.Written;
    assert c !in Recipients(Opened(s1, event), now);
    PutAllBox(s1.held, Recipients(Opened(s1, event), now), WithCommunity(s1, event).(msgType := MOOS_NOTIFY), c);
  }

  /** The others lose nothing when a client leaves. */
  lemma OthersKeepTheirs(s: State, c: string, event: Msg, now: real, d: string, k: string)
    requires d != c && Subscribed(s, k, d)
    ensures Subscribed(Disconnected(s, c, event, now), k, d)
    ensures Box(s.held, d) <= Box(Disconnected(s, c, event, now).held, d)
  {
    var s1 := Forgotten(s, c);
    BoxWithout(s.held, c);
    assert Subscribed(s1, k, d) && Box(s1.held, d) == Box(s.held, d);
    WritesKeepSubscribers(s1, event, now, k, d);
    NotifiedHeld(s1, event, now, d);
    hide Notified, Forgotten;
  }

  lemma NotifiedHeld(s: State, m: Msg, now: real, d: string)
    ensures Box(s.held, d) <= Box(Notified(s, m, now).held, d)
  {
    hide Opened, WithCommunity, Recipients, Stamped, DbVar.Written;
  }
}
