/** What a variable's type does over runs: exactly what changes it, and that nothing written is
    forgotten before the database is cleared. */
module TypeRuns {
  import opened Messages
  import opened DbState
  import opened DbInvariants
  import opened DbTheorems
  import opened DbActs
  import opened DbHandlers

  /** What is known of a written variable `k` is not forgotten. */
  predicate Kept(s: State, s': State, k: string) {
    k in s.vars && s.vars[k].writeCount > 0 ==>
      && k in s'.vars && s'.vars[k].dataType == s.vars[k].dataType
      && s'.vars[k].writeCount >= s.vars[k].writeCount && s.vars[k].writers <= s'.vars[k].writers
  }

  lemma KeptOn(s: State, s1: State, s2: State, k: string)
    requires Kept(s, s1, k) && Kept(s1, s2, k)
    ensures Kept(s, s2, k)
  {
  }

  lemma KeptVars(s: State, s': State, k: string)
    requires k in s.vars ==> k in s'.vars && SameVariable(s'.vars[k], s.vars[k])
    ensures Kept(s, s', k)
  {
  }

  lemma WrittenKept(v: DbVar, m: Msg, cs: set<string>, now: real)
    ensures var v' := Stamped(v.Written(m), cs, now);
            v'.dataType == v.dataType && v'.writeCount == v.writeCount + 1 && v'.writers == v.writers + {m.src}
  {
  }

  lemma NotifiedKeeps(s: State, m: Msg, now: real, k: string)
    ensures Kept(s, Notified(s, m, now), k)
  {
    hide DbVar.Written, Stamped, Recipients, PutAll, FiltersApplied, WithCommunity, NewVar;
    if k in s.vars && s.vars[k].writeCount > 0 && k == m.key {
      WrittenKept(s.vars[k], WithCommunity(s, m), Recipients(s.vars[k], now), now);
    }
  }

  lemma RegisteredKeeps(s: State, m: Msg, now: real, k: string)
    ensures Kept(s, Registered(s, m, now), k)
  {
    hide Registered;
    RegisteredShape(s, m, now);
  }

  lemma {:induction false} MatchesKeep(s: State, m: Msg, now: real, order: seq<string>, k: string)
    ensures Kept(s, MatchesRegistered(s, m, now, order), k)
    decreases |order|
  {
    hide Registered, FilterMatches, OwnRequest, Kept;
    if order == [] {
      KeptVars(s, s, k);
    } else {
      var s1 := OneMatched(s, m, now, order[0]);
      OneMatchedKeeps(s, m, now, order[0], k);
      MatchesKeep(s1, m, now, order[1..], k);
      KeptOn(s, s1, MatchesRegistered(s1, m, now, order[1..]), k);
    }
  }

  lemma OneMatchedKeeps(s: State, m: Msg, now: real, j: string, k: string)
    ensures Kept(s, OneMatched(s, m, now, j), k)
  {
    hide Registered, FilterMatches, OwnRequest;
    if j in s.vars {
      RegisteredKeeps(s, OwnRequest(s.vars[j], m), now, k);
    }
  }

  lemma UnregisteredKeeps(s: State, m: Msg, k: string)
    ensures Kept(s, Unregistered(s, m), k) && Kept(s, WildcardUnregistered(s, m), k)
  {
    hide FilterMatches;
  }

  lemma ProcessedKeeps(s: State, a: Arrival, k: string)
    requires !Clears(a)
    ensures Kept(s, Processed(s, a), k)
  {
    hide Kept, Notified, Registered, MatchesRegistered, FilterStored, Unregistered, WildcardUnregistered, AsksToClear;
    var m := a.msg;
    NotifiedKeeps(s, m, a.now, k);
    RegisteredKeeps(s, m, a.now, k);
    UnregisteredKeeps(s, m, k);
    KeptVars(s, s, k);
    if m.msgType == MOOS_WILDCARD_REGISTER {
      var s1 := FilterStored(s, m.src, m.filter);
      StoringKeeps(s, m, k);
      MatchesKeep(s1, m, a.now, a.order, k);
      KeptOn(s, s1, MatchesRegistered(s1, m, a.now, a.order), k);
    }
  }

  lemma StoringKeeps(s: State, m: Msg, k: string)
    ensures Kept(s, FilterStored(s, m.src, m.filter), k)
  {
    hide InsertFilter;
  }

  lemma {:induction false} ProcessedAllKeeps(s: State, arrivals: seq<Arrival>, k: string)
    requires !SomeClears(arrivals)
    ensures Kept(s, ProcessedAll(s, arrivals), k)
  {
    hide Processed, Clears, Kept;
    if arrivals == [] {
      KeptVars(s, s, k);
    } else {
      var n := |arrivals| - 1;
      forall i | 0 <= i < n ensures !Clears(arrivals[..n][i]) {
        assert arrivals[..n][i] == arrivals[i];
      }
      ProcessedAllKeeps(s, arrivals[..n], k);
      ProcessedKeeps(ProcessedAll(s, arrivals[..n]), arrivals[n], k);
      KeptOn(s, ProcessedAll(s, arrivals[..n]), ProcessedAll(s, arrivals), k);
    }
  }

  predicate Clearing(e: Event) {
    e.Packet? && (SomeClears(e.arrivals) || SomeClears(e.own))
  }

  lemma StepKeeps(s: State, e: Event, k: string)
    requires !Clearing(e)
    ensures Kept(s, Step(s, e), k)
  {
    hide Notified, ProcessedAll, SomeClears;
    match e
    case Packet(c, arrivals, own) =>
      var s1 := ProcessedAll(s, arrivals);
      ProcessedAllKeeps(s, arrivals, k);
      ProcessedAllKeeps(s1, own, k);
      KeptOn(s, s1, ProcessedAll(s1, own), k);
    case Fetch(c) =>
    case Connect(a) =>
      NotifiedKeeps(s, a.msg, a.now, k);
    case Disconnect(c, a) =>
      NotifiedKeeps(Forgotten(s, c), a.msg, a.now, k);
  }

  /** Over any run in which the database is not cleared, a written variable keeps its type, the
      number of its writes never falls, and whoever wrote it stays known as a writer. */
  lemma {:induction false} TypesStick(s: State, es: seq<Event>, k: string)
    requires forall i :: 0 <= i < |es| ==> !Clearing(es[i])
    ensures Kept(s, Run(s, es), k)
  {
    hide Step, Clearing, Kept;
    if es == [] {
      KeptVars(s, s, k);
    } else {
      var n := |es| - 1;
      TypesStick(s, es[..n], k);
      StepKeeps(Run(s, es[..n]), es[n], k);
      KeptOn(s, Run(s, es[..n]), Run(s, es), k);
    }
  }

  // ------------------------------------------------------------------- exactly what retypes

  predicate SameType(s: State, s': State, k: string) {
    k in s.vars ==> k in s'.vars && s'.vars[k].dataType == s.vars[k].dataType
  }

  /** A write, by whomever, of an unwritten variable as another type. */
  predicate Retypes(s: State, act: Act, k: string) {
    && (act.Announce? || (act.Handle? && act.a.msg.msgType == MOOS_NOTIFY)) && act.a.msg.key == k
    && k in s.vars && s.vars[k].writeCount == 0 && s.vars[k].dataType != act.a.msg.dataType
  }

  lemma NotifiedType(s: State, m: Msg, now: real, k: string)
    requires k in s.vars
    ensures k in Notified(s, m, now).vars
    ensures Notified(s, m, now).vars[k].dataType ==
            if m.key == k && s.vars[k].writeCount == 0 then m.dataType else s.vars[k].dataType
  {
    hide DbVar.Written, Stamped, Recipients, PutAll, FiltersApplied, WithCommunity, NewVar;
    if k == m.key {
      FiltersAppliedFacts(s.vars[k].(dataType := m.dataType), s.filters, m);
      var v := Opened(s, m);
      WrittenKept(v, WithCommunity(s, m), Recipients(v, now), now);
    }
  }

  lemma RegisteredType(s: State, m: Msg, now: real, k: string)
    ensures SameType(s, Registered(s, m, now), k)
  {
    hide Registered;
    RegisteredShape(s, m, now);
  }

  lemma OneMatchedType(s: State, m: Msg, now: real, j: string, k: string)
    ensures SameType(s, OneMatched(s, m, now, j), k)
  {
    hide Registered, FilterMatches, OwnRequest;
    if j in s.vars {
      RegisteredType(s, OwnRequest(s.vars[j], m), now, k);
    }
  }

  lemma {:induction false} MatchesType(s: State, m: Msg, now: real, order: seq<string>, k: string)
    ensures SameType(s, MatchesRegistered(s, m, now, order), k)
    decreases |order|
  {
    hide Registered, FilterMatches, OwnRequest;
    if order != [] {
      OneMatchedType(s, m, now, order[0], k);
      MatchesType(OneMatched(s, m, now, order[0]), m, now, order[1..], k);
    }
  }

  lemma RequestsType(s: State, m: Msg, k: string)
    ensures SameType(s, Unregistered(s, m), k) && SameType(s, WildcardUnregistered(s, m), k)
    ensures SameType(s, Cleared(s), k)
  {
    hide FilterMatches;
  }

  lemma HandledType(s: State, a: Arrival, k: string)
    requires k in s.vars
    ensures k in Processed(s, a).vars
    ensures Processed(s, a).vars[k].dataType != s.vars[k].dataType <==> Retypes(s, Handle(a), k)
  {
    hide Notified, Registered, MatchesRegistered, Unregistered, WildcardUnregistered, Cleared, AsksToClear,
         InsertFilter;
    NotifiedType(s, a.msg, a.now, k);
    RegisteredType(s, a.msg, a.now, k);
    MatchesType(FilterStored(s, a.msg.src, a.msg.filter), a.msg, a.now, a.order, k);
    RequestsType(s, a.msg, k);
  }

  lemma DoneType(s: State, act: Act, k: string)
    requires k in s.vars
    ensures k in Done(s, act).vars
    ensures Done(s, act).vars[k].dataType != s.vars[k].dataType <==> Retypes(s, act, k)
  {
    hide Processed, Notified;
    match act
    case Handle(a) => HandledType(s, a, k);
    case Announce(a) => NotifiedType(s, a.msg, a.now, k);
    case HandOut(c) =>
    case HandOutIfAny(c) =>
    case Forget(c) =>
  }

  /** The variable is there with its first type after every act. */
  predicate TypeHeldThroughout(s: State, acts: seq<Act>, k: string) {
    && SameType(s, AllDone(s, acts), k)
    && (acts == [] || TypeHeldThroughout(s, acts[..|acts| - 1], k))
  }

  predicate SomeRetypes(s: State, acts: seq<Act>, k: string) {
    exists i :: 0 <= i < |acts| && Retypes(AllDone(s, acts[..i]), acts[i], k)
  }

  lemma OneMoreRetypes(s: State, acts: seq<Act>, k: string)
    requires acts != []
    ensures var n := |acts| - 1;
            SomeRetypes(s, acts, k) <==>
              SomeRetypes(s, acts[..n], k) || Retypes(AllDone(s, acts[..n]), acts[n], k)
  {
    hide Retypes, AllDone;
    var n := |acts| - 1;
    assert forall i :: 0 <= i < n ==> acts[..n][..i] == acts[..i] && acts[..n][i] == acts[i];
    if SomeRetypes(s, acts[..n], k) {
      var i :| 0 <= i < n && Retypes(AllDone(s, acts[..n][..i]), acts[..n][i], k);
      assert Retypes(AllDone(s, acts[..i]), acts[i], k);
    }
    if SomeRetypes(s, acts, k) {
      var i :| 0 <= i < |acts| && Retypes(AllDone(s, acts[..i]), acts[i], k);
      if i < n {
        assert Retypes(AllDone(s, acts[..n][..i]), acts[..n][i], k);
      }
    }
  }

  lemma {:induction false} HeldIffNotRetyped(s: State, acts: seq<Act>, k: string)
    requires k in s.vars
    ensures k in AllDone(s, acts).vars
    ensures TypeHeldThroughout(s, acts, k) <==> !SomeRetypes(s, acts, k)
  {
    hide Done, Retypes, SomeRetypes;
    if acts == [] {
      NoneRetypes(s, k);
    } else {
      var n := |acts| - 1;
      HeldIffNotRetyped(s, acts[..n], k);
      OneMoreRetypes(s, acts, k);
      DoneType(AllDone(s, acts[..n]), acts[n], k);
    }
  }

  lemma NoneRetypes(s: State, k: string)
    ensures !SomeRetypes(s, [], k)
  {
  }

  lemma HeldToTheEnd(s: State, acts: seq<Act>, k: string)
    ensures TypeHeldThroughout(s, acts, k) ==> SameType(s, AllDone(s, acts), k)
  {
  }

  /** Over any run, a variable has the same type after every single act if and only if no act is a
      write of the variable, unwritten at that moment, as another type. So a type lasts from the
      first write to the next clear, and past that for as long as it is not written as another. */
  lemma TypeChangesIff(s: State, es: seq<Event>, k: string)
    requires k in s.vars
    ensures k in Run(s, es).vars
    ensures TypeHeldThroughout(s, ActsOf(es), k) <==> !SomeRetypes(s, ActsOf(es), k)
    ensures !SomeRetypes(s, ActsOf(es), k) ==> Run(s, es).vars[k].dataType == s.vars[k].dataType
  {
    hide Run, ActsOf, AllDone, SomeRetypes, TypeHeldThroughout;
    RunIsActs(s, es);
    HeldIffNotRetyped(s, ActsOf(es), k);
    HeldToTheEnd(s, ActsOf(es), k);
  }

  // ----------------------------------------------------------------------------- clearing

  /** The plain request to clear. */
  const PLAIN_CLEAR := BLANK.(msgType := MOOS_SERVER_REQUEST, key := "DB_CLEAR")

  /** A write of another type than a written variable's is ignored as long as the variable is not
      cleared. After a clear the same write is taken: the variable changes its type, counts from
      one again with this client its only writer, and wildcard filters are consulted again. */
  lemma ClearingReopens(s: State, write: Arrival, now: real)
    requires Inv(s) && write.msg.msgType == MOOS_NOTIFY && write.msg.key in s.vars
    requires var v := s.vars[write.msg.key]; v.writeCount > 0 && v.dataType != write.msg.dataType
    ensures Processed(s, write) == s
    ensures var m, s' := write.msg, Processed(Processed(s, Arrival(PLAIN_CLEAR, now, [])), write);
            && m.key in s'.vars
            && var v' := s'.vars[m.key];
            && v'.dataType == m.dataType && v'.writeCount == 1 && v'.writers == {m.src}
            && v'.subscribers.Keys == s.vars[m.key].subscribers.Keys + Owners(s.filters, m)
  {
    MistypedWriteIsIgnored(s, write);
    var clear := Arrival(PLAIN_CLEAR, now, []);
    PlainClearIsUnderstood([], []);
    hide AsksToClear, Owners, Notified;
    var s1 := Processed(s, clear);
    ClearForgetsValues(s, clear, write.msg.key, "");
    FirstWriteSubscribers(s1, write.msg, write.now);
    FirstWriteIs(s1, write.msg, write.now);
  }

  lemma FirstWriteIs(s: State, m: Msg, now: real)
    requires m.key in s.vars && s.vars[m.key].writeCount == 0 && s.vars[m.key].writers == {}
    ensures m.key in Notified(s, m, now).vars
    ensures var v := Notified(s, m, now).vars[m.key];
            v.dataType == m.dataType && v.writeCount == 1 && v.writers == {m.src}
  {
    hide DbVar.Written, Stamped, Recipients, PutAll, WithCommunity, NewVar, FiltersApplied;
    var v := s.vars[m.key].(dataType := m.dataType);
    FiltersAppliedFacts(v, s.filters, m);
    var w := FiltersApplied(v, s.filters, m);
    WrittenKept(w, WithCommunity(s, m), Recipients(w, now), now);
    assert WithCommunity(s, m).src == m.src by { CommunityOnly(s, m); }
  }

  lemma CommunityOnly(s: State, m: Msg)
    ensures WithCommunity(s, m).src == m.src
  {
  }
}
