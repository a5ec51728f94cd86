/** What a wildcard subscription is worth over whole runs: stored filters stay in order and stay
    stored, and whoever stored one is subscribed by the first write it matches. */
module WildcardRuns {
  import opened Messages
  import opened DbState
  import opened DbInvariants
  import opened DbTheorems
  import opened DbActs

  /** The stored filters of a client, in the order of the set. */
  function Filters(s: State, c: string): seq<MsgFilter> {
    if c in s.filters then s.filters[c] else []
  }

  /** Every client's filters are in order, so no two have the same patterns. */
  ghost predicate InSetOrder(s: State) {
    forall c :: Ascending(Filters(s, c))
  }

  /** Nothing `c` has stored is lost or changed. */
  predicate KeepsFilters(s: State, s': State, c: string) {
    forall f :: f in Filters(s, c) ==> f in Filters(s', c)
  }

  // ---------------------------------------------------------------------------- one message

  lemma StoredOne(s: State, owner: string, f: MsgFilter, c: string)
    ensures InSetOrder(s) ==> InSetOrder(FilterStored(s, owner, f))
    ensures KeepsFilters(s, FilterStored(s, owner, f), c)
    ensures Stored(Filters(FilterStored(s, owner, f), owner), f)
  {
    hide Ascending, InsertFilter, Stored;
    var fs := Filters(s, owner);
    InsertStores(fs, f);
    if InSetOrder(s) {
      assert Ascending(Filters(s, owner));
      InsertKeepsOldPeriod(fs, f);
      forall d ensures Ascending(Filters(FilterStored(s, owner, f), d)) {
        assert Ascending(Filters(s, d));
      }
    }
    forall g | g in fs ensures g in InsertFilter(fs, f) {
      var i :| 0 <= i < |fs| && fs[i] == g;
    }
  }

  lemma SameFilters(s: State, s': State, c: string)
    requires s'.filters == s.filters
    ensures InSetOrder(s) ==> InSetOrder(s')
    ensures KeepsFilters(s, s', c)
  {
    hide Ascending;
    if InSetOrder(s) {
      forall d ensures Ascending(Filters(s', d)) {
        assert Ascending(Filters(s, d));
      }
    }
  }

  lemma OthersLeaveFilters(s: State, a: Arrival)
    requires a.msg.msgType != MOOS_WILDCARD_REGISTER
    ensures Processed(s, a).filters == s.filters
  {
    hide Notified, Registered, Unregistered, WildcardUnregistered, Cleared, AsksToClear;
    WritesLeaveFilters(s, a.msg, a.now);
    RequestsLeaveFilters(s, a.msg);
  }

  lemma WritesLeaveFilters(s: State, m: Msg, now: real)
    ensures Notified(s, m, now).filters == s.filters && Registered(s, m, now).filters == s.filters
  {
    hide Notified, Registered;
    NotifiedShape(s, m, now);
    RegisteredShape(s, m, now);
  }

  lemma RequestsLeaveFilters(s: State, m: Msg)
    ensures Unregistered(s, m).filters == WildcardUnregistered(s, m).filters == Cleared(s).filters == s.filters
  {
    hide UnsubscribedIfMatched;
  }

  /** Only a wildcard request touches the filters, and it only adds one. */
  lemma ProcessedFilters(s: State, a: Arrival, c: string)
    requires Named(s)
    ensures InSetOrder(s) ==> InSetOrder(Processed(s, a))
    ensures KeepsFilters(s, Processed(s, a), c)
    ensures a.msg.msgType == MOOS_WILDCARD_REGISTER ==> Stored(Filters(Processed(s, a), a.msg.src), a.msg.filter)
  {
    hide InSetOrder, KeepsFilters, Stored, MatchesRegistered, FilterStored, FilterMatches;
    var m := a.msg;
    if m.msgType == MOOS_WILDCARD_REGISTER {
      var s1 := FilterStored(s, m.src, m.filter);
      StoredOne(s, m.src, m.filter, c);
      NamedFilterStored(s, m.src, m.filter);
      MatchesSubscribers(s1, m, a.now, a.order);
      SameFilters(s1, Processed(s, a), c);
      assert Filters(Processed(s, a), m.src) == Filters(s1, m.src);
      KeptThrough(s, s1, Processed(s, a), c);
    } else {
      hide Processed;
      OthersLeaveFilters(s, a);
      SameFilters(s, Processed(s, a), c);
    }
  }

  lemma NamedFilterStored(s: State, owner: string, f: MsgFilter)
    requires Named(s)
    ensures Named(FilterStored(s, owner, f))
  {
    hide InsertFilter;
  }

  lemma KeptThrough(s: State, s1: State, s2: State, c: string)
    requires KeepsFilters(s, s1, c) && KeepsFilters(s1, s2, c)
    ensures KeepsFilters(s, s2, c)
  {
  }

  lemma {:induction false} ProcessedAllFilters(s: State, arrivals: seq<Arrival>, c: string)
    requires Inv(s)
    ensures InSetOrder(s) ==> InSetOrder(ProcessedAll(s, arrivals))
    ensures KeepsFilters(s, ProcessedAll(s, arrivals), c)
  {
    hide InSetOrder, KeepsFilters, Processed, Coherent, Conserved, AllPaced, NoNameless;
    if arrivals == [] {
      SameFilters(s, s, c);
    } else {
      var n := |arrivals| - 1;
      var s1 := ProcessedAll(s, arrivals[..n]);
      ProcessedAllFilters(s, arrivals[..n], c);
      ProcessedAllInv(s, arrivals[..n]);
      ProcessedFilters(s1, arrivals[n], c);
      KeptThrough(s, s1, Processed(s1, arrivals[n]), c);
    }
  }

  // ------------------------------------------------------------------------------- every run

  predicate Leaves(e: Event, c: string) {
    e.Disconnect? && e.client == c
  }

  lemma StepFilters(s: State, e: Event, c: string)
    requires Inv(s)
    ensures InSetOrder(s) ==> InSetOrder(Step(s, e))
    ensures !Leaves(e, c) ==> KeepsFilters(s, Step(s, e), c)
  {
    hide ProcessedAll, Notified, Inv, Ascending;
    match e
    case Packet(d, arrivals, own) =>
      PacketFilters(s, d, arrivals, own, c);
    case Fetch(d) =>
      SameFilters(s, Step(s, e), c);
    case Connect(a) =>
      NotifiedShape(s, a.msg, a.now);
      SameFilters(s, Step(s, e), c);
    case Disconnect(d, a) =>
      NotifiedShape(Forgotten(s, d), a.msg, a.now);
      ForgottenFilters(s, d, c);
      SameFilters(Forgotten(s, d), Step(s, e), c);
      hide InSetOrder;
      assert !Leaves(e, c) ==> Filters(Step(s, e), c) == Filters(s, c);
  }

  lemma ForgottenFilters(s: State, d: string, c: string)
    ensures InSetOrder(s) ==> InSetOrder(Forgotten(s, d))
    ensures c != d ==> Filters(Forgotten(s, d), c) == Filters(s, c)
  {
    NothingAscends();
    hide Ascending;
    if InSetOrder(s) {
      forall x ensures Ascending(Filters(Forgotten(s, d), x)) {
        assert Ascending(Filters(s, x));
      }
    }
  }

  lemma NothingAscends()
    ensures Ascending([])
  {
  }

  lemma PacketFilters(s: State, d: string, arrivals: seq<Arrival>, own: seq<Arrival>, c: string)
    requires Inv(s)
    ensures var s' := PacketReceived(s, d, arrivals, own).0;
            (InSetOrder(s) ==> InSetOrder(s')) && KeepsFilters(s, s', c)
  {
    hide InSetOrder, KeepsFilters, ProcessedAll, Inv;
    var s1 := ProcessedAll(s, arrivals);
    var s2 := ProcessedAll(s1, own);
    var s3 := PacketReceived(s, d, arrivals, own).0;
    ProcessedAllInv(s, arrivals);
    ProcessedAllFilters(s, arrivals, c);
    ProcessedAllFilters(s1, own, c);
    SameFilters(s2, s3, c);
    KeptThrough(s, s1, s2, c);
    KeptThrough(s, s2, s3, c);
  }

  lemma {:induction false} RunFilters(s: State, es: seq<Event>, c: string)
    requires Inv(s) && InSetOrder(s) && forall i :: 0 <= i < |es| ==> !Leaves(es[i], c)
    ensures Inv(Run(s, es)) && InSetOrder(Run(s, es)) && KeepsFilters(s, Run(s, es), c)
  {
    hide Inv, InSetOrder, KeepsFilters, Step, Leaves;
    if es == [] {
      SameFilters(s, s, c);
    } else {
      var n := |es| - 1;
      RunFilters(s, es[..n], c);
      StepInv(Run(s, es[..n]), es[n]);
      StepFilters(Run(s, es[..n]), es[n], c);
      KeptThrough(s, Run(s, es[..n]), Run(s, es), c);
    }
  }

  /** In every reachable state the stored filters of every client are in the order of the set. */
  lemma {:induction false} FiltersInOrder(community: string, t: real, es: seq<Event>)
    ensures Inv(Run(Initial(community, t), es)) && InSetOrder(Run(Initial(community, t), es))
  {
    hide Inv, InSetOrder, Step, Initial;
    if es == [] {
      InitialInv(community, t);
      NothingAscends();
      NoFiltersYet(community, t);
    } else {
      var n := |es| - 1;
      FiltersInOrder(community, t, es[..n]);
      StepInv(Run(Initial(community, t), es[..n]), es[n]);
      StepFilters(Run(Initial(community, t), es[..n]), es[n], "");
    }
  }

  lemma NoFiltersYet(community: string, t: real)
    ensures InSetOrder(Initial(community, t))
  {
    NothingAscends();
    hide Ascending, OwnVar, OWN_NUMBERS, OWN_TEXTS;
  }

  /** In every reachable state, asking again for patterns that are stored, with whatever period,
      leaves the stored filters as they are. */
  lemma AskingAgainChangesNothing(community: string, t: real, es: seq<Event>, c: string, f: MsgFilter)
    requires var s := Run(Initial(community, t), es);
             c in s.filters && Stored(s.filters[c], f)
    ensures var s := Run(Initial(community, t), es);
            FilterStored(s, c, f) == s
  {
    var s := Run(Initial(community, t), es);
    FiltersInOrder(community, t, es);
    assert Ascending(Filters(s, c));
    InsertKeepsOldPeriod(s.filters[c], f);
    hide Run, Initial, Inv, Ascending, Stored, InsertFilter;
    assert s.filters[c := s.filters[c]] == s.filters;
  }

  // ------------------------------------------------------------------------ store, then write

  lemma SameStored(s: State, s': State, c: string)
    requires Filters(s', c) == Filters(s, c)
    ensures KeepsFilters(s, s', c)
  {
  }

  lemma DoneFilters(s: State, act: Act, c: string)
    requires Inv(s) && act != Forget(c)
    ensures KeepsFilters(s, Done(s, act), c)
  {
    hide Inv, Processed, Notified, Registered, KeepsFilters, InSetOrder;
    match act
    case Handle(a) =>
      NamedOf(s);
      ProcessedFilters(s, a, c);
    case Announce(a) =>
      WritesLeaveFilters(s, a.msg, a.now);
      SameFilters(s, Done(s, act), c);
    case HandOut(d) => SameFilters(s, Done(s, act), c);
    case HandOutIfAny(d) => SameFilters(s, Done(s, act), c);
    case Forget(d) =>
      ForgottenFilters(s, d, c);
      SameStored(s, Done(s, act), c);
  }

  /** What `c` has stored stays stored until it is forgotten. */
  lemma {:induction false} StaysStored(s: State, acts: seq<Act>, c: string, f: MsgFilter)
    requires Inv(s) && Stored(Filters(s, c), f) && forall i :: 0 <= i < |acts| ==> acts[i] != Forget(c)
    ensures Inv(AllDone(s, acts)) && Stored(Filters(AllDone(s, acts), c), f)
  {
    hide Inv, Done, Filters, Stored, KeepsFilters;
    if acts != [] {
      var n := |acts| - 1;
      StaysStored(s, acts[..n], c, f);
      DoneInv(AllDone(s, acts[..n]), acts[n]);
      DoneFilters(AllDone(s, acts[..n]), acts[n], c);
      StillStored(AllDone(s, acts[..n]), AllDone(s, acts), c, f);
    }
  }

  lemma StillStored(s: State, s': State, c: string, f: MsgFilter)
    requires KeepsFilters(s, s', c) && Stored(Filters(s, c), f)
    ensures Stored(Filters(s', c), f)
  {
    var fs, fs' := Filters(s, c), Filters(s', c);
    var i :| 0 <= i < |fs| && SamePatterns(fs[i], f);
    assert fs[i] in fs;
    var j :| 0 <= j < |fs'| && fs'[j] == fs[i];
  }

  /** `act` may take subscriptions of `c` away. */
  predicate Parts(act: Act, c: string) {
    act == Forget(c) || (act.Handle? && Quits(act.a, c))
  }

  lemma DoneSubscribers(s: State, act: Act, k: string, c: string)
    requires Inv(s) && Subscribed(s, k, c) && !Parts(act, c)
    ensures Subscribed(Done(s, act), k, c)
  {
    hide Inv, Processed, Notified, Registered, Quits;
    match act
    case Handle(a) =>
      NamedOf(s);
      ProcessedSubscribers(s, a, c);
    case Announce(a) => WritesKeepSubscribers(s, a.msg, a.now, k, c);
    case HandOut(d) =>
    case HandOutIfAny(d) =>
    case Forget(d) =>
  }

  lemma {:induction false} StaysSubscribed(s: State, acts: seq<Act>, k: string, c: string)
    requires Inv(s) && Subscribed(s, k, c) && forall i :: 0 <= i < |acts| ==> !Parts(acts[i], c)
    ensures Inv(AllDone(s, acts)) && Subscribed(AllDone(s, acts), k, c)
  {
    hide Inv, Done, Subscribed, Parts;
    if acts != [] {
      var n := |acts| - 1;
      StaysSubscribed(s, acts[..n], k, c);
      DoneInv(AllDone(s, acts[..n]), acts[n]);
      DoneSubscribers(AllDone(s, acts[..n]), acts[n], k, c);
    }
  }

  lemma StoredMatches(fs: seq<MsgFilter>, f: MsgFilter, m: Msg)
    requires Stored(fs, f) && FilterMatches(f, m)
    ensures SomeMatch(fs, m)
  {
    var i :| 0 <= i < |fs| && SamePatterns(fs[i], f);
    assert FilterMatches(fs[i], m);
  }

  lemma NamedOf(s: State)
    requires Inv(s)
    ensures Named(s)
  {
    hide Named, Coherent, Conserved, AllPaced, NoNameless;
  }

  predicate Asks(act: Act, c: string, f: MsgFilter) {
    act.Handle? && act.a.msg.msgType == MOOS_WILDCARD_REGISTER && act.a.msg.src == c && act.a.msg.filter == f
  }

  /** Whoever writes: a client, or the database for itself or to announce a client. */
  predicate Writes(act: Act, m: Msg) {
    m.msgType == MOOS_NOTIFY && (act.Handle? || act.Announce?) && act.a.msg == m
  }

  lemma AskStores(s: State, act: Act, c: string, f: MsgFilter)
    requires Inv(s) && Asks(act, c, f)
    ensures Inv(Done(s, act)) && Stored(Filters(Done(s, act), c), f)
  {
    DoneInv(s, act);
    NamedOf(s);
    ProcessedFilters(s, act.a, c);
    hide Inv, Processed, Stored, Filters, KeepsFilters, InSetOrder;
  }

  lemma WriteSubscribes(s: State, act: Act, m: Msg, c: string, f: MsgFilter)
    requires Inv(s) && c != "" && Stored(Filters(s, c), f) && Writes(act, m) && FilterMatches(f, m)
    requires m.key in s.vars ==> s.vars[m.key].writeCount == 0
    ensures Inv(Done(s, act)) && Subscribed(Done(s, act), m.key, c)
  {
    hide Inv, Notified, FilterMatches, SomeMatch, Run;
    DoneInv(s, act);
    assert c in s.filters;
    StoredMatches(Filters(s, c), f, m);
    FirstWriteSubscribes(s, m, act.a.now, [], c);
  }

  /** Asked for, and not forgotten since. */
  lemma AskedStaysStored(s0: State, acts: seq<Act>, i: nat, c: string, f: MsgFilter)
    requires Inv(s0) && i < |acts| && Asks(acts[i], c, f)
    requires forall n :: i < n < |acts| ==> acts[n] != Forget(c)
    ensures Inv(AllDone(s0, acts)) && Stored(Filters(AllDone(s0, acts), c), f)
  {
    hide Inv, Done, Filters, Stored, Asks;
    ActsInv(s0, acts[..i]);
    AllDoneTo(s0, acts, i);
    AskStores(AllDone(s0, acts[..i]), acts[i], c, f);
    StaysStored(AllDone(s0, acts[..i + 1]), acts[i + 1..], c, f);
  }

  /** Over any run from the start, taken apart: a client asks for a wildcard in the `i`-th act; it is
      not forgotten before the `j`-th, which is the first write, by whomever, of a variable the
      wildcard matches by name and writer; and it neither unregisters nor leaves after that. At the
      end of the run the client is subscribed to the variable. */
  lemma WildcardAgreement(community: string, t: real, es: seq<Event>, i: nat, j: nat,
                          c: string, f: MsgFilter, m: Msg)
    requires i < j < |ActsOf(es)| && c != "" && Asks(ActsOf(es)[i], c, f) && Writes(ActsOf(es)[j], m)
    requires forall n :: i < n < j ==> ActsOf(es)[n] != Forget(c)
    requires forall n :: j < n < |ActsOf(es)| ==> !Parts(ActsOf(es)[n], c)
    requires FilterMatches(f, m)
    requires var s := AllDone(Initial(community, t), ActsOf(es)[..j]);
             m.key in s.vars ==> s.vars[m.key].writeCount == 0
    ensures Subscribed(Run(Initial(community, t), es), m.key, c)
  {
    hide Inv, Done, AllDone, Filters, Stored, Asks, Writes, FilterMatches, Parts, Run, ActsOf, Subscribed, Initial;
    var s0, acts := Initial(community, t), ActsOf(es);
    RunIsActs(s0, es);
    InitialInv(community, t);
    AskedStaysStored(s0, acts[..j], i, c, f);
    WriteSubscribes(AllDone(s0, acts[..j]), acts[j], m, c, f);
    AllDoneTo(s0, acts, j);
    StaysSubscribed(AllDone(s0, acts[..j + 1]), acts[j + 1..], m.key, c);
  }
}
