/** What a notification does, in the fields of the message: who is told, of what, and when a subscriber
    with a period is due. */
module Deliveries {
  import opened Messages
  import opened DbState
  import opened DbInvariants
  import opened DbTheorems

  // -------------------------------------------------------------------------- who follows

  predicate FirstWrite(s: State, m: Msg) {
    m.key in s.vars ==> s.vars[m.key].writeCount == 0
  }

  /** A first write may have any type; later ones have the variable's. */
  predicate Accepted(s: State, m: Msg) {
    FirstWrite(s, m) || s.vars[m.key].dataType == m.dataType
  }

  /** The number of the last of the filters that matches. */
  predicate LastMatch(fs: seq<MsgFilter>, m: Msg, i: nat) {
    i < |fs| && FilterMatches(fs[i], m) && forall j :: i < j < |fs| ==> !FilterMatches(fs[j], m)
  }

  /** `c` has a name and a stored filter that matches. */
  ghost predicate Asked(s: State, m: Msg, c: string) {
    c != "" && c in s.filters && exists i: nat :: LastMatch(s.filters[c], m, i)
  }

  ghost predicate Follows(s: State, m: Msg, c: string) {
    Subscribed(s, m.key, c) || (FirstWrite(s, m) && Asked(s, m, c))
  }

  /** The subscription a notification meets: on a first write the last matching filter of the client
      starts it afresh, never served, with that filter's period. */
  ghost function InForce(s: State, m: Msg, c: string): RegisterInfo
    requires Follows(s, m, c)
  {
    if FirstWrite(s, m) && Asked(s, m, c) then
      var i: nat :| LastMatch(s.filters[c], m, i);
      RegisterInfo(s.filters[c][i].period, 0.0, [])
    else s.vars[m.key].subscribers[c]
  }

  predicate Due(r: RegisterInfo, now: real) {
    r.period == 0.0 || r.period <= now - r.lastTimeSent
  }

  /** What subscribers are told. */
  function News(s: State, m: Msg): Msg {
    m.(msgType := MOOS_NOTIFY, community := if m.community == "" then s.community else m.community)
  }

  ghost predicate IsTold(s: State, m: Msg, now: real, c: string) {
    Accepted(s, m) && Follows(s, m, c) && Due(InForce(s, m, c), now)
  }

  // ------------------------------------------------------------------------------ the proof

  lemma {:induction false} LastMatchDecides(fs: seq<MsgFilter>, m: Msg, i: nat)
    requires LastMatch(fs, m, i)
    ensures SomeMatch(fs, m) && LastPeriod(fs, m) == fs[i].period
  {
    hide FilterMatches;
    var n := |fs| - 1;
    if i < n {
      assert LastMatch(fs[..n], m, i);
      LastMatchDecides(fs[..n], m, i);
    }
  }

  lemma {:induction false} SomeIsLast(fs: seq<MsgFilter>, m: Msg) returns (i: nat)
    requires SomeMatch(fs, m)
    ensures LastMatch(fs, m, i)
  {
    hide FilterMatches;
    var n := |fs| - 1;
    if FilterMatches(fs[n], m) {
      i := n;
    } else {
      var j :| 0 <= j < |fs| && FilterMatches(fs[j], m);
      assert FilterMatches(fs[..n][j], m);
      i := SomeIsLast(fs[..n], m);
    }
  }

  lemma AskedIsMatch(s: State, m: Msg, c: string)
    ensures Asked(s, m, c) <==> c in Owners(s.filters, m)
  {
    hide LastMatch, SomeMatch;
    if Asked(s, m, c) {
      var i: nat :| LastMatch(s.filters[c], m, i);
      LastMatchDecides(s.filters[c], m, i);
    } else if c in Owners(s.filters, m) {
      var i := SomeIsLast(s.filters[c], m);
    }
  }

  lemma AskedFor(s: State, m: Msg, c: string)
    requires FirstWrite(s, m) && Asked(s, m, c)
    ensures c in Owners(s.filters, m) && InForce(s, m, c) == RegisterInfo(LastPeriod(s.filters[c], m), 0.0, [])
  {
    hide SomeMatch, LastPeriod, FilterMatches;
    AskedIsMatch(s, m, c);
    var i: nat :| LastMatch(s.filters[c], m, i) && InForce(s, m, c) == RegisterInfo(s.filters[c][i].period, 0.0, []);
    LastMatchDecides(s.filters[c], m, i);
  }

  lemma OpenedIs(s: State, m: Msg, c: string)
    ensures c in Opened(s, m).subscribers <==> Follows(s, m, c)
    ensures Follows(s, m, c) ==> Opened(s, m).subscribers[c] == InForce(s, m, c)
    ensures Opened(s, m).dataType == m.dataType <==> Accepted(s, m)
  {
    hide Owners, LastPeriod, Asked;
    AskedIsMatch(s, m, c);
    if FirstWrite(s, m) && Asked(s, m, c) {
      AskedFor(s, m, c);
    }
  }

  /** What an accepted write leaves in the variable. */
  predicate Holds(v: DbVar, old_: DbVar, m: Msg, community: string) {
    && v.name == old_.name && v.dataType == m.dataType && v.time == m.time && v.whoChangedMe == m.src
    && v.srcAux == m.srcAux && v.community == (if m.community == "" then community else m.community)
    && v.writeCount == old_.writeCount + 1 && v.writers == old_.writers + {m.src}
    && v.number == (if m.dataType == 'D' then m.number else old_.number)
    && v.text == (if m.dataType == 'S' || m.dataType == 'B' then m.text else old_.text)
  }

  /** The variable as a write finds it; a new one has nothing in it. */
  function Found(s: State, m: Msg): DbVar {
    if m.key in s.vars then s.vars[m.key]
    else DbVar(MOOS_NOT_SET, m.key, -1.0, -1.0, "", "", "", "", 0, map[], {})
  }

  lemma OpenedHolds(s: State, m: Msg)
    ensures var v := Opened(s, m);
            v == Found(s, m).(dataType := v.dataType, subscribers := v.subscribers)
    ensures !Accepted(s, m) ==> Opened(s, m) == s.vars[m.key]
  {
    FiltersAppliedFacts(Made(s, m).vars[m.key].(dataType := m.dataType), s.filters, m);
    hide FiltersApplied;
  }

  lemma StampedHolds(v: DbVar, m: Msg, cs: set<string>, now: real, old_: DbVar, community: string)
    requires v == old_.(dataType := m.dataType, subscribers := v.subscribers)
    requires m.community == "" ==> community == ""
    ensures var w := Stamped(v.Written(m), cs, now);
            Holds(w, old_, m, community)
  {
  }

  lemma TellsVariable(s: State, m: Msg, now: real)
    ensures var s' := Notified(s, m, now);
            && m.key in s'.vars && s'.vars.Keys == s.vars.Keys + {m.key}
            && (forall k :: k in s.vars && k != m.key ==> s'.vars[k] == s.vars[k])
            && (Accepted(s, m) ==> Holds(s'.vars[m.key], Found(s, m), m, s.community))
            && (!Accepted(s, m) ==> s'.vars[m.key] == s.vars[m.key])
  {
    hide Opened, DbVar.Written, Stamped, Recipients, PutAll, Notified, Holds;
    FirstWriteSubscribers(s, m, now);
    OpenedHolds(s, m);
    OpenedIs(s, m, "");
    if Accepted(s, m) {
      WriteShape(s, m, now);
      StampedHolds(Opened(s, m), WithCommunity(s, m), Recipients(Opened(s, m), now), now, Found(s, m),
                   WithCommunity(s, m).community);
      SameHolds(s, m, now);
    } else {
      Refused(s, m, now);
    }
  }

  lemma SameHolds(s: State, m: Msg, now: real)
    ensures forall v, o ::
              Holds(v, o, WithCommunity(s, m), WithCommunity(s, m).community) ==> Holds(v, o, m, s.community)
  {
  }

  lemma Refused(s: State, m: Msg, now: real)
    requires m.key in s.vars && Opened(s, m) == s.vars[m.key] && s.vars[m.key].dataType != m.dataType
    ensures Notified(s, m, now) == s
  {
    hide Opened;
    assert s.vars[m.key := s.vars[m.key]] == s.vars;
  }

  /** Whoever follows the variable is told, exactly when due and the write is accepted: one message,
      with what was written; and is stamped then and only then. Nobody else hears of it. */
  lemma NotifyTells(s: State, m: Msg, now: real, c: string)
    ensures var s', news := Notified(s, m, now), if IsTold(s, m, now, c) then [News(s, m)] else [];
            && Box(s'.held, c) == Box(s.held, c) + news && Box(s'.placed, c) == Box(s.placed, c) + news
            && s'.drained == s.drained && s'.filters == s.filters && s'.community == s.community
            && (Subscribed(s', m.key, c) <==> Follows(s, m, c))
            && (Follows(s, m, c) ==>
                  var r := InForce(s, m, c);
                  s'.vars[m.key].subscribers[c] ==
                    if IsTold(s, m, now, c) then RegisterInfo(r.period, now, r.sentAt + [now]) else r)
  {
    hide Opened, DbVar.Written, Stamped, Recipients, PutAll, Follows, InForce, Accepted;
    OpenedIs(s, m, c);
    var v := Opened(s, m);
    if v.dataType == m.dataType {
      var mc := WithCommunity(s, m);
      WriteShape(s, m, now);
      SameSubscribers(v, mc);
      PutAllBox(s.placed, Recipients(v, now), mc.(msgType := MOOS_NOTIFY), c);
      PutAllBox(s.held, Recipients(v, now), mc.(msgType := MOOS_NOTIFY), c);
      WrittenKeys(v, mc, Recipients(v, now), now);
      RecipientIsDue(v, now, c);
      if c in v.subscribers {
        StampedAs(v.Written(mc), now, c);
      }
    }
  }

  lemma RecipientIsDue(v: DbVar, now: real, c: string)
    ensures c in Recipients(v, now) <==> c in v.subscribers && Due(v.subscribers[c], now)
    ensures c in v.subscribers ==> (v.subscribers[c].Expired(now) <==> Due(v.subscribers[c], now))
  {
  }

  // ------------------------------------------------------------------------------- every run

  /** In every reachable state: an accepted write at clock `now` leaves a follower with a period untold
      if and only if it was told less than a period before, or never while the clock itself is below
      the period; and a follower with period zero is always told. */
  lemma UntoldIffTooSoon(community: string, t: real, es: seq<Event>, m: Msg, now: real, c: string)
    requires var s := Run(Initial(community, t), es);
             Accepted(s, m) && Follows(s, m, c)
    ensures var s := Run(Initial(community, t), es);
            var r := InForce(s, m, c);
            var last := if r.sentAt == [] then 0.0 else r.sentAt[|r.sentAt| - 1];
            Box(Notified(s, m, now).held, c) == Box(s.held, c) <==> r.period != 0.0 && now - last < r.period
  {
    var s := Run(Initial(community, t), es);
    RunInv(community, t, es);
    NotifyTells(s, m, now, c);
    hide Run, Initial, Coherent, Conserved, Named, NoNameless, Notified;
    assert Paced(InForce(s, m, c));
  }

  // ------------------------------------------------------------------------------- leaving

  lemma OthersFollowAsBefore(s: State, c: string, m: Msg, d: string)
    requires d != c
    ensures var s1 := Forgotten(s, c);
            && (Follows(s1, m, d) <==> Follows(s, m, d)) && (Accepted(s1, m) <==> Accepted(s, m))
            && (Follows(s, m, d) ==> InForce(s1, m, d) == InForce(s, m, d))
  {
    hide LastMatch;
    var s1 := Forgotten(s, c);
    assert d in s.filters ==> s1.filters[d] == s.filters[d];
    assert Asked(s1, m, d) <==> Asked(s, m, d);
    if FirstWrite(s, m) && Asked(s, m, d) {
      AskedFor(s, m, d);
      AskedFor(s1, m, d);
    }
  }

  /** When a client leaves, the event is told to those of the others who follow it and are due, as any
      notification is, and the leaver keeps nothing. */
  lemma LeavingTells(s: State, c: string, event: Msg, now: real, d: string)
    ensures var s' := Disconnected(s, c, event, now);
            if d == c then Box(s'.held, d) == []
            else Box(s'.held, d) == Box(s.held, d) + if IsTold(s, event, now, d) then [News(s, event)] else []
  {
    hide Notified, FirstWrite, Asked, Follows, InForce, Accepted;
    var s1 := Forgotten(s, c);
    NotifyTells(s1, event, now, d);
    BoxWithout(s.held, c);
    if d == c {
      LeaverFollowsNothing(s, c, event);
    } else {
      OthersFollowAsBefore(s, c, event, d);
    }
  }

  lemma LeaverFollowsNothing(s: State, c: string, event: Msg)
    ensures !Follows(Forgotten(s, c), event, c)
  {
  }
}
