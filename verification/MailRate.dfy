/** The rate bound for mail: how many messages about a variable a subscriber with a period can be sent
    in a stretch of time, over whole runs. */
module MailRate {
  import opened Messages
  import opened DbState
  import opened DbInvariants
  import opened DbTheorems
  import opened DbActs

  /** How many messages are about variable `k`. */
  function About(mail: seq<Msg>, k: string): nat {
    if mail == [] then 0
    else About(mail[..|mail| - 1], k) + if mail[|mail| - 1].key == k then 1 else 0
  }

  lemma AboutSnoc(mail: seq<Msg>, m: Msg, k: string)
    ensures About(mail + [m], k) == About(mail, k) + if m.key == k then 1 else 0
  {
    assert (mail + [m])[..|mail|] == mail;
  }

  predicate Tells(act: Act) {
    act.Announce? || (act.Handle? && act.a.msg.msgType == MOOS_NOTIFY)
  }

  /** `act` ends the subscription of `c` to `k`, may make it anew, or loses mail: `c` leaves or makes a
      request about its subscriptions, the database is cleared, or a first write finds a filter. */
  predicate Renews(s: State, act: Act, k: string, c: string) {
    || act == Forget(c)
    || (act.Handle? && (Clears(act.a) || (act.a.msg.src == c && AboutSubscriptions(act.a.msg))))
    || (Tells(act) && act.a.msg.key == k && k in s.vars && s.vars[k].writeCount == 0
        && c in Owners(s.filters, act.a.msg))
  }

  predicate AboutSubscriptions(m: Msg) {
    || m.msgType == MOOS_REGISTER || m.msgType == MOOS_WILDCARD_REGISTER
    || m.msgType == MOOS_UNREGISTER || m.msgType == MOOS_WILDCARD_UNREGISTER
  }

  function Info(s: State, k: string, c: string): RegisterInfo
    requires Subscribed(s, k, c)
  {
    s.vars[k].subscribers[c]
  }

  /** Nothing came and nothing was stamped. */
  predicate Untouched(s: State, s': State, k: string, c: string) {
    Subscribed(s, k, c) && Subscribed(s', k, c) && Info(s', k, c) == Info(s, k, c)
    && About(Box(s'.placed, c), k) == About(Box(s.placed, c), k)
  }

  /** One message came and was stamped. */
  predicate Sent(s: State, s': State, k: string, c: string, now: real) {
    Subscribed(s, k, c) && Subscribed(s', k, c) && Info(s', k, c) == Info(s, k, c).SetLastTimeSent(now)
    && About(Box(s'.placed, c), k) == About(Box(s.placed, c), k) + 1
  }

  // ------------------------------------------------------------------------------ one act

  lemma OpenedUnrenewed(s: State, m: Msg, c: string)
    requires Subscribed(s, m.key, c) && !(s.vars[m.key].writeCount == 0 && c in Owners(s.filters, m))
    ensures c in Opened(s, m).subscribers && Opened(s, m).subscribers[c] == s.vars[m.key].subscribers[c]
  {
    hide Owners;
  }

  lemma TellingSends(s: State, m: Msg, now: real, c: string)
    requires Subscribed(s, m.key, c) && !(s.vars[m.key].writeCount == 0 && c in Owners(s.filters, m))
    ensures var s' := Notified(s, m, now);
            Untouched(s, s', m.key, c) || Sent(s, s', m.key, c, now)
  {
    hide Opened, Recipients, Stamped, DbVar.Written, PutAll, Owners, About;
    OpenedUnrenewed(s, m, c);
    var v := Opened(s, m);
    if v.dataType == m.dataType {
      var mc := WithCommunity(s, m);
      WriteShape(s, m, now);
      SameSubscribers(v, mc);
      StampedAs(v.Written(mc), now, c);
      PutAllBox(s.placed, Recipients(v, now), mc.(msgType := MOOS_NOTIFY), c);
      AboutSnoc(Box(s.placed, c), mc.(msgType := MOOS_NOTIFY), m.key);
    }
  }

  lemma TellingElsewhere(s: State, m: Msg, now: real, k: string, c: string)
    requires Subscribed(s, k, c) && m.key != k
    ensures Untouched(s, Notified(s, m, now), k, c)
  {
    hide Opened, Recipients, Stamped, DbVar.Written, PutAll, About, NewVar;
    if Opened(s, m).dataType == m.dataType {
      var m1 := WithCommunity(s, m).(msgType := MOOS_NOTIFY);
      WriteShape(s, m, now);
      PutAllBox(s.placed, Recipients(Opened(s, m), now), m1, c);
      AboutSnoc(Box(s.placed, c), m1, k);
    }
  }

  lemma OthersRegister(s: State, m: Msg, now: real, k: string, c: string)
    requires Subscribed(s, k, c) && m.src != c
    ensures Untouched(s, Registered(s, m, now), k, c)
  {
    hide About;
    MadeElsewhere(s, m);
    RegisteredElsewhere(s, m, now);
    if m.src != "" {
      RepliesAreStamped(s, m, now, c);
      hide Registered;
    } else {
      MadeLeavesTheRest(s, m);
    }
  }

  lemma Through(s: State, s1: State, s2: State, k: string, c: string)
    requires Untouched(s, s1, k, c) && Untouched(s1, s2, k, c)
    ensures Untouched(s, s2, k, c)
  {
    hide About, Box;
  }

  lemma OneOthersMatch(s: State, m: Msg, now: real, j: string, k: string, c: string)
    requires Subscribed(s, k, c) && m.src != c
    ensures Untouched(s, OneMatched(s, m, now, j), k, c)
  {
    hide Registered, FilterMatches, About;
    if j in s.vars {
      OthersRegister(s, OwnRequest(s.vars[j], m), now, k, c);
    }
  }

  lemma {:induction false} OthersMatch(s: State, m: Msg, now: real, order: seq<string>, k: string, c: string)
    requires Subscribed(s, k, c) && m.src != c
    ensures Untouched(s, MatchesRegistered(s, m, now, order), k, c)
    decreases |order|
  {
    hide Registered, FilterMatches, OwnRequest, About, Box;
    if order != [] {
      var s1 := OneMatched(s, m, now, order[0]);
      OneOthersMatch(s, m, now, order[0], k, c);
      OthersMatch(s1, m, now, order[1..], k, c);
      Through(s, s1, MatchesRegistered(s1, m, now, order[1..]), k, c);
    }
  }

  lemma OthersUnregister(s: State, m: Msg, k: string, c: string)
    requires Subscribed(s, k, c) && m.src != c
    ensures Untouched(s, Unregistered(s, m), k, c) && Untouched(s, WildcardUnregistered(s, m), k, c)
  {
    hide FilterMatches, About;
  }

  lemma OthersStore(s: State, m: Msg, k: string, c: string)
    requires Subscribed(s, k, c)
    ensures Untouched(s, FilterStored(s, m.src, m.filter), k, c)
  {
    hide InsertFilter, About;
  }

  lemma HandlingSends(s: State, a: Arrival, k: string, c: string)
    requires Subscribed(s, k, c) && !Renews(s, Handle(a), k, c)
    ensures var s' := Processed(s, a);
            Untouched(s, s', k, c) || (a.msg.msgType == MOOS_NOTIFY && Sent(s, s', k, c, a.now))
  {
    hide Notified, Registered, MatchesRegistered, Unregistered, WildcardUnregistered, FilterStored, AsksToClear,
         Owners, About, Box, Untouched, Sent;
    var m := a.msg;
    if m.msgType == MOOS_NOTIFY {
      if m.key == k {
        TellingSends(s, m, a.now, c);
      } else {
        TellingElsewhere(s, m, a.now, k, c);
      }
    } else if AboutSubscriptions(m) {
      OthersRegister(s, m, a.now, k, c);
      OthersUnregister(s, m, k, c);
      OthersStore(s, m, k, c);
      var s1 := FilterStored(s, m.src, m.filter);
      StillSubscribed(s, s1, k, c);
      OthersMatch(s1, m, a.now, a.order, k, c);
      Through(s, s1, MatchesRegistered(s1, m, a.now, a.order), k, c);
    } else {
      Nothing(s, k, c);
    }
  }

  lemma StillSubscribed(s: State, s': State, k: string, c: string)
    requires Untouched(s, s', k, c)
    ensures Subscribed(s', k, c)
  {
  }

  lemma Nothing(s: State, k: string, c: string)
    requires Subscribed(s, k, c)
    ensures Untouched(s, s, k, c)
  {
  }

  function Clock(act: Act): real {
    if act.Handle? || act.Announce? then act.a.now else 0.0
  }

  lemma DoneSends(s: State, act: Act, k: string, c: string)
    requires Subscribed(s, k, c) && !Renews(s, act, k, c)
    ensures Untouched(s, Done(s, act), k, c) || (Tells(act) && Sent(s, Done(s, act), k, c, Clock(act)))
  {
    hide Processed, Notified, Owners, About, AboutSubscriptions;
    match act
    case Handle(a) => HandlingSends(s, a, k, c);
    case Announce(a) =>
      if a.msg.key == k {
        TellingSends(s, a.msg, a.now, c);
      } else {
        TellingElsewhere(s, a.msg, a.now, k, c);
      }
    case HandOut(d) =>
    case HandOutIfAny(d) =>
    case Forget(d) =>
      BoxWithout(s.placed, d);
  }

  // ----------------------------------------------------------------------------- every run

  predicate SomeRenews(s: State, acts: seq<Act>, k: string, c: string) {
    exists i :: 0 <= i < |acts| && Renews(AllDone(s, acts[..i]), acts[i], k, c)
  }

  /** The clock readings met by what tells subscribers anything are between `start` and `end`. */
  predicate ToldWithin(acts: seq<Act>, start: real, end: real) {
    forall i :: 0 <= i < |acts| && Tells(acts[i]) ==> start <= Clock(acts[i]) <= end
  }

  /** As many messages about `k` came as stamps, and those are between `start` and `end`. */
  predicate InAccount(s: State, s': State, k: string, c: string, start: real, end: real) {
    && Subscribed(s, k, c) && Subscribed(s', k, c)
    && Info(s', k, c).period == Info(s, k, c).period
    && Info(s, k, c).sentAt <= Info(s', k, c).sentAt
    && About(Box(s'.placed, c), k) - About(Box(s.placed, c), k) == |Info(s', k, c).sentAt| - |Info(s, k, c).sentAt|
    && (forall i :: |Info(s, k, c).sentAt| <= i < |Info(s', k, c).sentAt| ==>
          start <= Info(s', k, c).sentAt[i] <= end)
  }

  lemma OneMoreInAccount(s: State, s1: State, s2: State, k: string, c: string, now: real, start: real, end: real)
    requires InAccount(s, s1, k, c, start, end)
    requires Untouched(s1, s2, k, c) || (start <= now <= end && Sent(s1, s2, k, c, now))
    ensures InAccount(s, s2, k, c, start, end)
  {
    hide About, Box;
  }

  lemma NothingInAccount(s: State, k: string, c: string, start: real, end: real)
    requires Subscribed(s, k, c)
    ensures InAccount(s, s, k, c, start, end)
  {
  }

  lemma FewerRenew(s: State, acts: seq<Act>, k: string, c: string)
    requires acts != [] && !SomeRenews(s, acts, k, c)
    ensures var n := |acts| - 1;
            !SomeRenews(s, acts[..n], k, c) && !Renews(AllDone(s, acts[..n]), acts[n], k, c)
  {
    hide Renews, AllDone;
    var n := |acts| - 1;
    forall i | 0 <= i < n ensures !Renews(AllDone(s, acts[..n][..i]), acts[..n][i], k, c) {
      assert acts[..n][..i] == acts[..i] && acts[..n][i] == acts[i];
      assert !Renews(AllDone(s, acts[..i]), acts[i], k, c);
    }
    assert !Renews(AllDone(s, acts[..n]), acts[n], k, c);
  }

  /** While a subscription is not renewed, each message about the variable that is put in the
      subscriber's box is one stamp of the subscription, and each stamp one message. */
  lemma {:induction false} StampsAreMail(s: State, acts: seq<Act>, k: string, c: string, start: real, end: real)
    requires Subscribed(s, k, c) && !SomeRenews(s, acts, k, c) && ToldWithin(acts, start, end)
    ensures InAccount(s, AllDone(s, acts), k, c, start, end)
  {
    hide Done, SomeRenews, Renews, InAccount, Tells, Clock, Untouched, Sent;
    if acts == [] {
      NothingInAccount(s, k, c, start, end);
    } else {
      var n := |acts| - 1;
      var s1 := AllDone(s, acts[..n]);
      FewerRenew(s, acts, k, c);
      StampsAreMail(s, acts[..n], k, c, start, end);
      StaysIn(s, s1, k, c, start, end);
      DoneSends(s1, acts[n], k, c);
      OneMoreInAccount(s, s1, AllDone(s, acts), k, c, Clock(acts[n]), start, end);
    }
  }

  lemma StaysIn(s: State, s': State, k: string, c: string, start: real, end: real)
    requires InAccount(s, s', k, c, start, end)
    ensures Subscribed(s', k, c)
  {
  }

  /** Over any run from the start: from the `n`-th act on, a subscription with a period is not renewed,
      and all that is told to anybody is told by clock readings that lie within `w` of each other,
      however the clock moves. Then at most floor(w / period) + 1 messages about the variable are
      put in the subscriber's box. */
  lemma MailRateBound(community: string, t: real, es: seq<Event>, n: nat, k: string, c: string, start: real, w: real)
    requires n <= |ActsOf(es)| && w >= 0.0
    requires var s := AllDone(Initial(community, t), ActsOf(es)[..n]);
             && Subscribed(s, k, c) && Info(s, k, c).period > 0.0
             && !SomeRenews(s, ActsOf(es)[n..], k, c)
    requires ToldWithin(ActsOf(es)[n..], start, start + w)
    ensures var s := AllDone(Initial(community, t), ActsOf(es)[..n]);
            About(Box(Run(Initial(community, t), es).placed, c), k)
              <= About(Box(s.placed, c), k) + (w / Info(s, k, c).period).Floor + 1
  {
    hide Run, Initial, ActsOf, AllDone, SomeRenews, ToldWithin, About, Box, Inv;
    var s0, acts := Initial(community, t), ActsOf(es);
    var s, s' := AllDone(s0, acts[..n]), Run(s0, es);
    RunIsActs(s0, es);
    assert acts == acts[..n] + acts[n..];
    DoneInTurn(s0, acts[..n], acts[n..]);
    StampsAreMail(s, acts[n..], k, c, start, start + w);
    RunInv(community, t, es);
    StampsBound(s, s', k, c, start, w);
  }

  lemma StampsBound(s: State, s': State, k: string, c: string, start: real, w: real)
    requires InAccount(s, s', k, c, start, start + w) && Inv(s') && Info(s, k, c).period > 0.0 && w >= 0.0
    ensures |Info(s', k, c).sentAt| - |Info(s, k, c).sentAt| <= (w / Info(s, k, c).period).Floor + 1
  {
    hide About, Box, Coherent, Conserved, Named, NoNameless;
    var old_, new_, p := Info(s, k, c).sentAt, Info(s', k, c).sentAt, Info(s, k, c).period;
    assert Paced(Info(s', k, c));
    var m := |new_| - |old_|;
    if m > 0 {
      SpacedApart(new_, p, |old_|, |new_| - 1);
      FloorBound(m - 1, p, w);
    } else {
      FloorBound(0, p, w);
    }
  }
}
