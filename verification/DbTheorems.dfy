/** What clients of the database can rely on over whole runs: coherence, order and conservation of
    mail, the rate bound, and what a wildcard subscription is worth. */
module DbTheorems {
  import opened Messages
  import opened DbState
  import opened DbInvariants

  // ---------------------------------------------------------------------- coherence

  /** In every reachable state, a client that wants every change of a written variable was told
      about it, and the last message about it, handed out or still held, carries its present
      type, payload, time, source and community. */
  lemma LastWriteCoherence(community: string, t: real, es: seq<Event>, k: string, c: string)
    ensures var s := Run(Initial(community, t), es);
            k in s.vars && s.vars[k].writeCount > 0
            && c in s.vars[k].subscribers && s.vars[k].subscribers[c].period == 0.0
            ==> var mail := Box(s.drained, c) + Box(s.held, c);
                HasMail(mail, k) && Carries(LastMail(mail, k), s.vars[k])
  {
    RunInv(community, t, es);
    hide Run, Initial, Carries;
  }

  // ------------------------------------------------------------ order and conservation

  /** Nothing put in or handed out of a client's box is forgotten. */
  predicate KeepsMail(s: State, s': State, c: string) {
    Box(s.placed, c) <= Box(s'.placed, c) && Box(s.drained, c) <= Box(s'.drained, c)
  }

  /** Handing out aside, only clearing loses mail. */
  predicate Clears(a: Arrival) {
    a.msg.msgType == MOOS_SERVER_REQUEST && AsksToClear(a.msg.key)
  }

  predicate SomeClears(arrivals: seq<Arrival>) {
    exists i :: 0 <= i < |arrivals| && Clears(arrivals[i])
  }

  lemma NotifiedMail(s: State, m: Msg, now: real, c: string)
    ensures var s' := Notified(s, m, now);
            KeepsMail(s, s', c) && s'.drained == s.drained
  {
    hide Opened, WithCommunity, Recipients, Stamped;
  }

  lemma RegisteredMail(s: State, m: Msg, now: real, c: string)
    ensures var s' := Registered(s, m, now);
            KeepsMail(s, s', c) && s'.drained == s.drained
  {
    hide DbVar.ToMsg, DbVar.AddSubscriber, NewVar, Made, RegisterInfo.SetLastTimeSent;
    MadeElsewhere(s, m);
    MadeLeavesTheRest(s, m);
  }

  lemma MadeLeavesTheRest(s: State, m: Msg)
    ensures Made(s, m) == s.(vars := Made(s, m).vars)
  {
    hide NewVar;
  }

  lemma {:induction false} MatchesMail(s: State, m: Msg, now: real, order: seq<string>, c: string)
    ensures var s' := MatchesRegistered(s, m, now, order);
            KeepsMail(s, s', c) && s'.drained == s.drained
    decreases |order|
  {
    hide Registered, FilterMatches;
    if order != [] {
      var k := order[0];
      if k in s.vars && FilterMatches(m.filter, s.vars[k].ToMsg()) {
        var m' := OwnRequest(s.vars[k], m);
        RegisteredMail(s, m', now, c);
        MatchesMail(Registered(s, m', now), m, now, order[1..], c);
      } else {
        MatchesMail(s, m, now, order[1..], c);
      }
    }
  }

  lemma ProcessedMail(s: State, a: Arrival, c: string)
    requires !Clears(a)
    ensures KeepsMail(s, Processed(s, a), c) && Processed(s, a).drained == s.drained
  {
    hide Notified, Registered, MatchesRegistered, AsksToClear;
    NotifiedMail(s, a.msg, a.now, c);
    RegisteredMail(s, a.msg, a.now, c);
    MatchesMail(FilterStored(s, a.msg.src, a.msg.filter), a.msg, a.now, a.order, c);
  }

  lemma {:induction false} ProcessedAllMail(s: State, arrivals: seq<Arrival>, c: string)
    requires !SomeClears(arrivals)
    ensures KeepsMail(s, ProcessedAll(s, arrivals), c)
    ensures ProcessedAll(s, arrivals).drained == s.drained
  {
    hide Processed, Clears;
    if arrivals != [] {
      var n := |arrivals| - 1;
      forall i | 0 <= i < n ensures !Clears(arrivals[..n][i]) {
        assert arrivals[..n][i] == arrivals[i];
      }
      ProcessedAllMail(s, arrivals[..n], c);
      ProcessedMail(ProcessedAll(s, arrivals[..n]), arrivals[n], c);
    }
  }

  /** A packet without a clear request hands its client everything put in the box and not handed
      out before, oldest first, and touches nobody else's account of what was handed out. */
  lemma PacketHandsOutInOrder(s: State, c: string, arrivals: seq<Arrival>, own: seq<Arrival>)
    requires Inv(s) && !SomeClears(arrivals) && !SomeClears(own)
    ensures var (s', tx) := PacketReceived(s, c, arrivals, own);
            && KeepsMail(s, s', c)
            && Box(s'.drained, c) == Box(s.drained, c) + tx && (arrivals == [] ==> tx == [])
            && (arrivals != [] ==> Box(s'.placed, c) == Box(s.drained, c) + tx && Box(s'.held, c) == [])
            && (forall d :: d != c ==> Box(s'.drained, d) == Box(s.drained, d))
  {
    hide ProcessedAll, Coherent, AllPaced, Named, NoNameless, SomeClears;
    var s1 := ProcessedAll(s, arrivals);
    var s2 := ProcessedAll(s1, own);
    ProcessedAllInv(s, arrivals);
    ProcessedAllInv(s1, own);
    ProcessedAllMail(s, arrivals, c);
    ProcessedAllMail(s1, own, c);
    DrainedHandsOut(s2, c);
    assert Box(s2.drained, c) == Box(s.drained, c);
  }

  lemma DrainedHandsOut(s: State, c: string)
    requires Conserved(s)
    ensures var s' := Drained(s, c);
            && s'.placed == s.placed && Box(s.placed, c) == Box(s'.drained, c) == Box(s.drained, c) + Box(s.held, c)
            && Box(s'.held, c) == [] && (forall d :: d != c ==> Box(s'.drained, d) == Box(s.drained, d))
  {
  }

  lemma FetchHandsOutInOrder(s: State, c: string)
    requires Inv(s)
    ensures var (s', tx) := MailFetched(s, c);
            && Box(s'.placed, c) == Box(s.placed, c) == Box(s.drained, c) + tx
            && Box(s'.drained, c) == Box(s.drained, c) + tx && Box(s'.held, c) == []
  {
    DrainedInv(s, c);
    hide Coherent, AllPaced;
  }

  /** Mail of `c` is lost only when the database is cleared or `c` leaves. */
  predicate MayLose(e: Event, c: string) {
    match e
    case Packet(_, arrivals, own) => SomeClears(arrivals) || SomeClears(own)
    case Fetch(_) => false
    case Connect(_) => false
    case Disconnect(d, _) => d == c
  }

  lemma StepMail(s: State, e: Event, c: string)
    requires !MayLose(e, c)
    ensures KeepsMail(s, Step(s, e), c)
  {
    hide ProcessedAll, Notified;
    match e
    case Packet(d, arrivals, own) =>
      ProcessedAllMail(s, arrivals, c);
      ProcessedAllMail(ProcessedAll(s, arrivals), own, c);
    case Fetch(d) =>
    case Connect(a) =>
      NotifiedMail(s, a.msg, a.now, c);
    case Disconnect(d, a) =>
      BoxWithout(s.placed, d);
      BoxWithout(s.drained, d);
      NotifiedMail(Forgotten(s, d), a.msg, a.now, c);
  }

  lemma KeepsMailOn(s: State, s1: State, s2: State, c: string)
    requires KeepsMail(s, s1, c) && KeepsMail(s1, s2, c)
    ensures KeepsMail(s, s2, c)
  {
    hide Box;
  }

  lemma {:induction false} RunKeepsMail(s: State, es: seq<Event>, c: string)
    requires Inv(s) && forall i :: 0 <= i < |es| ==> !MayLose(es[i], c)
    ensures Inv(Run(s, es)) && KeepsMail(s, Run(s, es), c)
  {
    hide Step, MayLose, Inv, KeepsMail;
    if es == [] {
      NothingLost(s, c);
    } else {
      var n := |es| - 1;
      RunKeepsMail(s, es[..n], c);
      StepInv(Run(s, es[..n]), es[n]);
      StepMail(Run(s, es[..n]), es[n], c);
      KeepsMailOn(s, Run(s, es[..n]), Run(s, es), c);
    }
  }

  lemma NothingLost(s: State, c: string)
    ensures KeepsMail(s, s, c)
  {
  }

  /** Over any run in which nothing is lost, all a client was ever handed, followed by what is
      still held for it, is exactly what was ever put in its box, in that order. */
  lemma {:induction false} RunMail(s: State, es: seq<Event>, c: string)
    requires Inv(s) && forall i :: 0 <= i < |es| ==> !MayLose(es[i], c)
    ensures var s' := Run(s, es);
            && Inv(s') && KeepsMail(s, s', c)
            && Box(s'.placed, c) == Box(s'.drained, c) + Box(s'.held, c)
  {
    hide Run, MayLose, KeepsMail, Coherent, AllPaced, Named, NoNameless;
    RunKeepsMail(s, es, c);
  }

  // --------------------------------------------------------------------- the rate bound

  lemma {:induction false} SpacedApart(sentAt: seq<real>, p: real, i: nat, j: nat)
    requires Spaced(sentAt, p) && i <= j < |sentAt|
    ensures sentAt[j] - sentAt[i] >= (j - i) as real * p
    decreases j - i
  {
    if i < j {
      SpacedApart(sentAt, p, i, j - 1);
      assert sentAt[j] - sentAt[j - 1] >= p;
      assert (j - i) as real * p == (j - 1 - i) as real * p + p;
    }
  }

  lemma Cancel(a: real, b: real, d: real)
    requires d > 0.0 && a * d <= b * d
    ensures a <= b
  {
    if a > b {
      BothPositive(a - b, d);
    }
  }

  lemma BothPositive(a: real, b: real)
    ensures a > 0.0 && b > 0.0 ==> a * b > 0.0
  {
  }

  lemma FloorBound(n: nat, p: real, w: real)
    requires p > 0.0 && n as real * p <= w
    ensures n <= (w / p).Floor
  {
    var q := w / p;
    assert q * p == w;
    Cancel(n as real, q, p);
  }

  /** Between one subscription and the next, whatever the clock does, sends `i` to `j` that fall
      in a window of length `w` number at most floor(w / period) + 1. */
  lemma RateBound(community: string, t: real, es: seq<Event>, k: string, c: string, i: nat, j: nat,
                  start: real, w: real)
    requires var s := Run(Initial(community, t), es);
             && k in s.vars && c in s.vars[k].subscribers && s.vars[k].subscribers[c].period > 0.0
             && i <= j < |s.vars[k].subscribers[c].sentAt|
             && start <= s.vars[k].subscribers[c].sentAt[i]
             && s.vars[k].subscribers[c].sentAt[j] <= start + w
    ensures j - i + 1 <= (w / Run(Initial(community, t), es).vars[k].subscribers[c].period).Floor + 1
  {
    var s := Run(Initial(community, t), es);
    RunInv(community, t, es);
    hide Run, Initial, Coherent, Conserved;
    var r := s.vars[k].subscribers[c];
    assert Paced(r);
    SpacedApart(r.sentAt, r.period, i, j);
    FloorBound(j - i, r.period, w);
  }

  /** The record is the truth: a notification, of a first write or a later one, reaches the box of a
      subscriber exactly when it is stamped on that subscription, and the period is not touched.
      `Opened` is the variable with those just subscribed by a filter. */
  lemma SendsAreStamped(s: State, m: Msg, now: real, c: string)
    requires c in Opened(s, m).subscribers
    ensures var s', v := Notified(s, m, now), Opened(s, m);
            && m.key in s'.vars && c in s'.vars[m.key].subscribers
            && var before, after := v.subscribers[c], s'.vars[m.key].subscribers[c];
            && after.period == before.period
            && (if v.dataType == m.dataType && before.Expired(now)
                then after.sentAt == before.sentAt + [now]
                  && |Box(s'.placed, c)| == |Box(s.placed, c)| + 1
                else after == before && Box(s'.placed, c) == Box(s.placed, c))
  {
    hide Opened, WithCommunity, DbVar.Written;
    var v := Opened(s, m);
    if v.dataType == m.dataType {
      SameSubscribers(v, WithCommunity(s, m));
      StampedAs(v.Written(WithCommunity(s, m)), now, c);
    }
  }

  lemma StampedAs(v: DbVar, now: real, c: string)
    requires c in v.subscribers
    ensures var r := Stamped(v, Recipients(v, now), now).subscribers;
            && c in r && (c in Recipients(v, now) <==> v.subscribers[c].Expired(now))
            && r[c] == if v.subscribers[c].Expired(now) then v.subscribers[c].SetLastTimeSent(now) else v.subscribers[c]
  {
  }

  lemma SameSubscribers(v: DbVar, m: Msg)
    ensures v.Written(m).subscribers == v.subscribers
    ensures forall now :: Recipients(v.Written(m), now) == Recipients(v, now)
  {
  }

  /** So it is of the answer to a registration: it reaches the box exactly when it is stamped on the
      new subscription, which starts with no other stamp; nobody else's box or stamps change. */
  lemma RepliesAreStamped(s: State, m: Msg, now: real, c: string)
    requires m.src != ""
    ensures var s' := Registered(s, m, now);
            && m.key in s'.vars && m.src in s'.vars[m.key].subscribers
            && var told := m.key in s.vars && s.vars[m.key].writeCount != 0;
            && s'.vars[m.key].subscribers[m.src] ==
               (if told then RegisterInfo(m.number, now, [now]) else RegisterInfo(m.number, 0.0, []))
            && |Box(s'.placed, m.src)| == |Box(s.placed, m.src)| + (if told then 1 else 0)
            && (c != m.src ==> Box(s'.placed, c) == Box(s.placed, c))
            && (c != m.src && m.key in s.vars && c in s.vars[m.key].subscribers ==>
                  c in s'.vars[m.key].subscribers && s'.vars[m.key].subscribers[c] == s.vars[m.key].subscribers[c])
  {
    hide DbVar.ToMsg, NewVar, Put;
    NewIsUnwritten(m);
    if m.key in s.vars && s.vars[m.key].writeCount != 0 {
      var reply := s.vars[m.key].AddSubscriber(m.src, m.number).ToMsg().(msgType := MOOS_NOTIFY);
      PutBox(s.placed, m.src, reply, m.src);
      PutBox(s.placed, m.src, reply, c);
    }
  }

  lemma PutBox(b: Boxes, c: string, m: Msg, d: string)
    ensures Box(Put(b, c, m), d) == if d == c then Box(b, c) + [m] else Box(b, d)
  {
  }

  lemma NewIsUnwritten(m: Msg)
    ensures NewVar(m.key, MadeType(m)).writeCount == 0
  {
  }

  // ------------------------------------------------------------------ stored filters

  lemma {:induction false} StringLessTotal(a: string, b: string)
    ensures !(StringLess(a, b) && StringLess(b, a))
    ensures a == b || StringLess(a, b) || StringLess(b, a)
    decreases |a| + |b|
  {
    if a != [] && b != [] && a[0] == b[0] {
      StringLessTotal(a[1..], b[1..]);
      if a[1..] == b[1..] {
        assert a == [a[0]] + a[1..] && b == [b[0]] + b[1..];
      }
    }
  }

  predicate SamePatterns(f: MsgFilter, g: MsgFilter) {
    f.app == g.app && f.var_ == g.var_
  }

  /** The order of words in a dictionary: a beginning comes first, and so does the smaller character at
      the first place of difference. */
  predicate Precedes(a: string, b: string) {
    || (|a| < |b| && a == b[..|a|])
    || (exists i :: 0 <= i < |a| && DiffersAt(a, b, i) && a[i] < b[i])
  }

  predicate DiffersAt(a: string, b: string, i: int) {
    0 <= i < |a| && i < |b| && a[..i] == b[..i] && a[i] != b[i]
  }

  lemma PrefixStep(a: string, b: string)
    requires a != [] && b != [] && a[0] == b[0]
    ensures |a| < |b| ==> (a == b[..|a|] <==> a[1..] == b[1..][..|a[1..]|])
  {
    if |a| < |b| {
      assert b[..|a|] == [b[0]] + b[1..][..|a| - 1];
      assert a == [a[0]] + a[1..];
    }
  }

  lemma DifferStep(a: string, b: string, i: int)
    requires a != [] && b != [] && a[0] == b[0]
    ensures DiffersAt(a, b, i + 1) <==> DiffersAt(a[1..], b[1..], i)
    ensures !DiffersAt(a, b, 0)
  {
    if 0 <= i < |a| - 1 && i < |b| - 1 {
      assert a[..i + 1] == [a[0]] + a[1..][..i] && b[..i + 1] == [b[0]] + b[1..][..i];
      assert a[1..][..i] == a[..i + 1][1..] && b[1..][..i] == b[..i + 1][1..];
    }
  }

  lemma PrecedesStep(a: string, b: string)
    requires a != [] && b != [] && a[0] == b[0]
    ensures Precedes(a, b) <==> Precedes(a[1..], b[1..])
  {
    PrefixStep(a, b);
    forall i ensures DiffersAt(a, b, i + 1) <==> DiffersAt(a[1..], b[1..], i) {
      DifferStep(a, b, i);
    }
    DifferStep(a, b, 0);
    hide DiffersAt;
    if exists i :: 0 <= i < |a| && DiffersAt(a, b, i) && a[i] < b[i] {
      var i :| 0 <= i < |a| && DiffersAt(a, b, i) && a[i] < b[i];
      assert DiffersAt(a[1..], b[1..], i - 1) by { DifferStep(a, b, i - 1); }
    }
    if exists i :: 0 <= i < |a[1..]| && DiffersAt(a[1..], b[1..], i) && a[1..][i] < b[1..][i] {
      var i :| 0 <= i < |a[1..]| && DiffersAt(a[1..], b[1..], i) && a[1..][i] < b[1..][i];
      assert DiffersAt(a, b, i + 1);
    }
  }

  lemma PrecedesHead(a: string, b: string)
    requires a != [] && b != [] && a[0] != b[0]
    ensures Precedes(a, b) <==> a[0] < b[0]
  {
    assert DiffersAt(a, b, 0);
    if |a| < |b| {
      assert b[..|a|][0] == b[0];
    }
    assert forall i :: DiffersAt(a, b, i) && i > 0 ==> a[..i][0] == b[..i][0];
  }

  lemma {:induction false} StringLessMeans(a: string, b: string)
    ensures StringLess(a, b) <==> Precedes(a, b)
  {
    if a == [] || b == [] {
    } else if a[0] == b[0] {
      StringLessMeans(a[1..], b[1..]);
      PrecedesStep(a, b);
      hide Precedes;
    } else {
      PrecedesHead(a, b);
      hide Precedes;
    }
  }

  /** Filters are in the dictionary order of their application patterns, and under one application
      pattern in that of their variable patterns; the periods do not matter. */
  lemma FilterLessMeans(f: MsgFilter, g: MsgFilter)
    ensures FilterLess(f, g) <==> Precedes(f.app, g.app) || (f.app == g.app && Precedes(f.var_, g.var_))
  {
    hide StringLess, Precedes;
    StringLessMeans(f.app, g.app);
    StringLessMeans(f.var_, g.var_);
  }

  lemma FilterLessTotal(f: MsgFilter, g: MsgFilter)
    ensures !FilterLess(f, g) && !FilterLess(g, f) <==> SamePatterns(f, g)
  {
    StringLessTotal(f.app, g.app);
    StringLessTotal(f.var_, g.var_);
  }

  predicate Stored(fs: seq<MsgFilter>, f: MsgFilter) {
    exists i :: 0 <= i < |fs| && SamePatterns(fs[i], f)
  }

  /** Inserting a filter keeps every stored one and makes its pair of patterns stored. */
  lemma {:induction false} InsertStores(fs: seq<MsgFilter>, f: MsgFilter)
    ensures Stored(InsertFilter(fs, f), f)
    ensures forall i :: 0 <= i < |fs| ==> fs[i] in InsertFilter(fs, f)
    ensures forall g :: g in InsertFilter(fs, f) ==> g == f || g in fs
  {
    if fs == [] || FilterLess(f, fs[0]) {
      assert InsertFilter(fs, f)[0] == f;
    } else if FilterLess(fs[0], f) {
      InsertStores(fs[1..], f);
      var rest := InsertFilter(fs[1..], f);
      var i :| 0 <= i < |rest| && SamePatterns(rest[i], f);
      assert InsertFilter(fs, f)[i + 1] == rest[i];
      assert forall j :: 1 <= j < |fs| ==> fs[j] == fs[1..][j - 1];
    } else {
      FilterLessTotal(f, fs[0]);
      assert SamePatterns(fs[0], f);
    }
  }

  predicate Ascending(fs: seq<MsgFilter>) {
    forall i, j :: 0 <= i < j < |fs| ==> FilterLess(fs[i], fs[j])
  }

  lemma {:induction false} StringLessTransitive(a: string, b: string, c: string)
    requires StringLess(a, b) && StringLess(b, c)
    ensures StringLess(a, c)
  {
    if a != [] && a[0] == b[0] && b[0] == c[0] {
      StringLessTransitive(a[1..], b[1..], c[1..]);
    }
  }

  lemma FilterLessTransitive(f: MsgFilter, g: MsgFilter, h: MsgFilter)
    requires FilterLess(f, g) && FilterLess(g, h)
    ensures FilterLess(f, h)
  {
    if StringLess(f.app, g.app) && StringLess(g.app, h.app) {
      StringLessTransitive(f.app, g.app, h.app);
    }
    if StringLess(f.var_, g.var_) && StringLess(g.var_, h.var_) {
      StringLessTransitive(f.var_, g.var_, h.var_);
    }
  }

  lemma AscendingInFront(fs: seq<MsgFilter>, f: MsgFilter)
    requires Ascending(fs) && (fs != [] ==> FilterLess(f, fs[0]))
    ensures Ascending([f] + fs) && !Stored(fs, f)
  {
    hide FilterLess;
    var after := [f] + fs;
    forall j | 0 < j < |after| ensures FilterLess(f, after[j]) {
      if j > 1 {
        FilterLessTransitive(f, fs[0], fs[j - 1]);
      }
    }
    forall i | 0 <= i < |fs| ensures !SamePatterns(fs[i], f) {
      assert FilterLess(f, after[i + 1]);
      FilterLessTotal(f, fs[i]);
    }
  }

  lemma StoredInRest(fs: seq<MsgFilter>, f: MsgFilter)
    requires fs != [] && FilterLess(fs[0], f)
    ensures Stored(fs, f) ==> Stored(fs[1..], f)
  {
    FilterLessTotal(fs[0], f);
    hide FilterLess, SamePatterns;
    if Stored(fs, f) {
      var i :| 0 <= i < |fs| && SamePatterns(fs[i], f);
      assert SamePatterns(fs[1..][i - 1], f);
    }
  }

  lemma AscendingWithRest(fs: seq<MsgFilter>, f: MsgFilter, tail: seq<MsgFilter>)
    requires Ascending(fs) && fs != [] && FilterLess(fs[0], f) && Ascending(tail)
    requires forall g :: g in tail ==> g == f || g in fs[1..]
    ensures Ascending([fs[0]] + tail)
  {
    hide FilterLess;
    forall j | 0 <= j < |tail| ensures FilterLess(fs[0], tail[j]) {
      assert tail[j] in tail;
      if tail[j] in fs[1..] {
        var i :| 0 <= i < |fs[1..]| && fs[1..][i] == tail[j];
        assert FilterLess(fs[0], fs[i + 1]);
      }
    }
  }

  /** The set stays in order without duplicates, and asking again for stored patterns changes
      nothing: the period first asked for is the one later variables will get. */
  lemma {:induction false} InsertKeepsOldPeriod(fs: seq<MsgFilter>, f: MsgFilter)
    requires Ascending(fs)
    ensures Ascending(InsertFilter(fs, f))
    ensures Stored(fs, f) ==> InsertFilter(fs, f) == fs
  {
    hide FilterLess, Stored;
    if fs == [] || FilterLess(f, fs[0]) {
      AscendingInFront(fs, f);
    } else if FilterLess(fs[0], f) {
      InsertKeepsOldPeriod(fs[1..], f);
      InsertStores(fs[1..], f);
      StoredInRest(fs, f);
      AscendingWithRest(fs, f, InsertFilter(fs[1..], f));
    }
  }

  // ------------------------------------------------------------ who ends up subscribed

  predicate Subscribed(s: State, k: string, c: string) {
    k in s.vars && c in s.vars[k].subscribers
  }

  /** `a` asks to take subscriptions of `c` away. */
  predicate Quits(a: Arrival, c: string) {
    (a.msg.msgType == MOOS_UNREGISTER || a.msg.msgType == MOOS_WILDCARD_UNREGISTER) && a.msg.src == c
  }

  predicate MayQuit(e: Event, c: string) {
    match e
    case Packet(_, arrivals, own) =>
      (exists i :: 0 <= i < |arrivals| && Quits(arrivals[i], c)) || (exists i :: 0 <= i < |own| && Quits(own[i], c))
    case Fetch(_) => false
    case Connect(_) => false
    case Disconnect(d, _) => d == c
  }

  function SubKeys(s: State, k: string): set<string> {
    if k in s.vars then s.vars[k].subscribers.Keys else {}
  }

  lemma OpenedSubscribers(s: State, m: Msg)
    ensures Opened(s, m).subscribers.Keys == SubKeys(s, m.key) +
            (if m.key in s.vars && s.vars[m.key].writeCount > 0 then {} else Owners(s.filters, m))
  {
    hide Owners;
    FiltersAppliedFacts(Made(s, m).vars[m.key].(dataType := m.dataType), s.filters, m);
  }

  lemma WrittenKeys(v: DbVar, m: Msg, cs: set<string>, now: real)
    ensures Stamped(v.Written(m), cs, now).subscribers.Keys == v.subscribers.Keys
  {
  }

  lemma MadeHas(s: State, m: Msg)
    ensures m.key in Made(s, m).vars && Made(s, m).filters == s.filters
  {
    hide NewVar;
  }

  lemma NotifiedShape(s: State, m: Msg, now: real)
    ensures var s' := Notified(s, m, now);
            && s'.filters == s.filters && m.key in s'.vars
            && s'.vars == Made(s, m).vars[m.key := s'.vars[m.key]]
            && s'.vars[m.key].subscribers.Keys == Opened(s, m).subscribers.Keys
  {
    hide Made, Opened, WithCommunity, Recipients, PutAll, Stamped, DbVar.Written;
    MadeHas(s, m);
    WrittenKeys(Opened(s, m), WithCommunity(s, m), Recipients(Opened(s, m), now), now);
  }

  lemma FirstWriteSubscribers(s: State, m: Msg, now: real)
    ensures var s' := Notified(s, m, now);
            && m.key in s'.vars && s'.vars.Keys == s.vars.Keys + {m.key}
            && (forall k :: k in s.vars && k != m.key ==> s'.vars[k] == s.vars[k])
            && SubKeys(s', m.key) == SubKeys(s, m.key) +
               (if m.key in s.vars && s.vars[m.key].writeCount > 0 then {} else Owners(s.filters, m))
            && s'.filters == s.filters
  {
    hide Owners, Opened, Notified;
    NotifiedShape(s, m, now);
    OpenedSubscribers(s, m);
  }

  lemma RegisteredShape(s: State, m: Msg, now: real)
    ensures var s' := Registered(s, m, now);
            && s'.filters == s.filters && m.key in s'.vars
            && s'.vars == Made(s, m).vars[m.key := s'.vars[m.key]]
            && s'.vars[m.key] == Made(s, m).vars[m.key].(subscribers := s'.vars[m.key].subscribers)
            && s'.vars[m.key].subscribers.Keys ==
               Made(s, m).vars[m.key].subscribers.Keys + (if m.src == "" then {} else {m.src})
  {
    hide Put, DbVar.ToMsg, NewVar, Made, RegisterInfo.SetLastTimeSent;
    MadeElsewhere(s, m);
    MadeLeavesTheRest(s, m);
  }

  lemma RegisteredSubscribers(s: State, m: Msg, now: real)
    ensures var s' := Registered(s, m, now);
            && s'.vars.Keys == s.vars.Keys + {m.key}
            && (forall k :: k in s.vars && k != m.key ==> s'.vars[k] == s.vars[k])
            && SubKeys(s', m.key) == SubKeys(s, m.key) + (if m.src == "" then {} else {m.src})
            && s'.filters == s.filters
    ensures m.key in s.vars ==> Registered(s, m, now).vars[m.key].ToMsg() == s.vars[m.key].ToMsg()
  {
    hide Registered;
    RegisteredShape(s, m, now);
  }

  /** The turn of one variable in a wildcard request. */
  function OneMatched(s: State, m: Msg, now: real, k: string): State {
    if k in s.vars && FilterMatches(m.filter, s.vars[k].ToMsg())
    then Registered(s, OwnRequest(s.vars[k], m), now)
    else s
  }

  ghost predicate KeepsSubscribers(s: State, s': State) {
    forall k, c :: Subscribed(s, k, c) ==> Subscribed(s', k, c)
  }

  lemma OneMatchedSubscribers(s: State, m: Msg, now: real, k: string)
    requires Named(s)
    ensures var s' := OneMatched(s, m, now, k);
            && Named(s') && s'.vars.Keys == s.vars.Keys && s'.filters == s.filters && KeepsSubscribers(s, s')
            && (forall j :: j in s.vars ==> s'.vars[j].ToMsg() == s.vars[j].ToMsg())
            && (m.src != "" && k in s.vars && FilterMatches(m.filter, s.vars[k].ToMsg()) ==> Subscribed(s', k, m.src))
  {
    hide FilterMatches, Registered, DbVar.ToMsg;
    if k in s.vars {
      var m' := OwnRequest(s.vars[k], m);
      OwnRequestIs(s, k, m);
      RegisteredSubscribers(s, m', now);
      NamedByRegister(s, m', now);
    }
  }

  lemma {:induction false} MatchesSubscribers(s: State, m: Msg, now: real, order: seq<string>)
    requires Named(s)
    ensures var s' := MatchesRegistered(s, m, now, order);
            && s'.vars.Keys == s.vars.Keys && s'.filters == s.filters && KeepsSubscribers(s, s')
            && (forall k :: m.src != "" && k in order && k in s.vars && FilterMatches(m.filter, s.vars[k].ToMsg())
                  ==> Subscribed(s', k, m.src))
    decreases |order|
  {
    hide FilterMatches, Registered, DbVar.ToMsg, Named, Subscribed, OwnRequest;
    if order != [] {
      var k := order[0];
      OneMatchedSubscribers(s, m, now, k);
      MatchesSubscribers(OneMatched(s, m, now, k), m, now, order[1..]);
      assert forall j :: j in order ==> j == k || j in order[1..];
    }
  }

  lemma OwnRequestIs(s: State, k: string, m: Msg)
    requires Named(s) && k in s.vars
    ensures OwnRequest(s.vars[k], m).key == k && OwnRequest(s.vars[k], m).src == m.src
  {
  }

  lemma NamedByRegister(s: State, m: Msg, now: real)
    requires Named(s)
    ensures Named(Registered(s, m, now))
  {
    hide Registered;
    RegisteredShape(s, m, now);
  }

  lemma WritesKeepSubscribers(s: State, m: Msg, now: real, k: string, c: string)
    requires Subscribed(s, k, c)
    ensures Subscribed(Notified(s, m, now), k, c) && Subscribed(Registered(s, m, now), k, c)
  {
    hide Notified, Registered, Owners, DbVar.ToMsg;
    FirstWriteSubscribers(s, m, now);
    RegisteredSubscribers(s, m, now);
    assert c in SubKeys(s, k);
  }

  lemma OnlyOwnQuits(s: State, m: Msg, k: string, c: string)
    requires Subscribed(s, k, c)
    ensures m.src != c ==> Subscribed(Unregistered(s, m), k, c) && Subscribed(WildcardUnregistered(s, m), k, c)
    ensures Subscribed(Cleared(s), k, c)
  {
    hide FilterMatches;
  }

  lemma ProcessedSubscribers(s: State, a: Arrival, c: string)
    requires Named(s) && !Quits(a, c)
    ensures forall k :: Subscribed(s, k, c) ==> Subscribed(Processed(s, a), k, c)
  {
    hide Notified, Registered, MatchesRegistered, Unregistered, WildcardUnregistered, Cleared, AsksToClear;
    MatchesSubscribers(FilterStored(s, a.msg.src, a.msg.filter), a.msg, a.now, a.order);
    forall k | Subscribed(s, k, c) ensures Subscribed(Processed(s, a), k, c) {
      WritesKeepSubscribers(s, a.msg, a.now, k, c);
      OnlyOwnQuits(s, a.msg, k, c);
    }
  }

  lemma {:induction false} ProcessedAllSubscribers(s: State, arrivals: seq<Arrival>, c: string)
    requires Inv(s) && forall i :: 0 <= i < |arrivals| ==> !Quits(arrivals[i], c)
    ensures forall k :: Subscribed(s, k, c) ==> Subscribed(ProcessedAll(s, arrivals), k, c)
  {
    hide Processed, Quits, Subscribed, Coherent, Conserved, AllPaced, NoNameless;
    if arrivals != [] {
      var n := |arrivals| - 1;
      ProcessedAllSubscribers(s, arrivals[..n], c);
      ProcessedAllInv(s, arrivals[..n]);
      ProcessedSubscribers(ProcessedAll(s, arrivals[..n]), arrivals[n], c);
    }
  }

  lemma StepSubscribers(s: State, e: Event, c: string)
    requires Inv(s) && !MayQuit(e, c)
    ensures forall k :: Subscribed(s, k, c) ==> Subscribed(Step(s, e), k, c)
  {
    hide ProcessedAll, Notified, Quits, Coherent, Conserved, AllPaced, NoNameless, Owners;
    match e
    case Packet(d, arrivals, own) =>
      ProcessedAllSubscribers(s, arrivals, c);
      ProcessedAllInv(s, arrivals);
      ProcessedAllSubscribers(ProcessedAll(s, arrivals), own, c);
    case Fetch(d) =>
    case Connect(a) =>
      FirstWriteSubscribers(s, a.msg, a.now);
    case Disconnect(d, a) =>
      FirstWriteSubscribers(Forgotten(s, d), a.msg, a.now);
  }

  /** Subscriptions of a client outlast every run in which it neither unregisters nor leaves. */
  lemma {:induction false} RunSubscribers(s: State, es: seq<Event>, c: string)
    requires Inv(s) && forall i :: 0 <= i < |es| ==> !MayQuit(es[i], c)
    ensures Inv(Run(s, es)) && forall k :: Subscribed(s, k, c) ==> Subscribed(Run(s, es), k, c)
  {
    hide Inv, Step, MayQuit, Subscribed;
    if es != [] {
      var n := |es| - 1;
      RunSubscribers(s, es[..n], c);
      StepInv(Run(s, es[..n]), es[n]);
      StepSubscribers(Run(s, es[..n]), es[n], c);
    }
  }

  /** A wildcard request subscribes its sender, for as long as it stays, to every variable that
      matches at that moment by name and last writer, and stores the filter. */
  lemma WildcardSubscribesPresent(s: State, a: Arrival, es: seq<Event>)
    requires Inv(s) && a.msg.msgType == MOOS_WILDCARD_REGISTER && a.msg.src != ""
    requires forall k :: k in s.vars ==> k in a.order
    requires forall i :: 0 <= i < |es| ==> !MayQuit(es[i], a.msg.src)
    ensures var c := a.msg.src;
            && c in Processed(s, a).filters && Stored(Processed(s, a).filters[c], a.msg.filter)
            && forall k :: k in s.vars && FilterMatches(a.msg.filter, s.vars[k].ToMsg())
                 ==> Subscribed(Run(Processed(s, a), es), k, c)
  {
    var m := a.msg;
    var s1 := FilterStored(s, m.src, m.filter);
    ProcessedInv(s, a);
    MatchesSubscribers(s1, m, a.now, a.order);
    InsertStores(if m.src in s.filters then s.filters[m.src] else [], m.filter);
    hide FilterMatches, MatchesRegistered, Run, Subscribed, InsertFilter, MayQuit, Coherent,
         Conserved, AllPaced, NoNameless;
    RunSubscribers(Processed(s, a), es, m.src);
  }

  /** The first write of a variable subscribes exactly the named owners of matching filters on top
      of those already there, and they stay subscribed for as long as they stay. */
  lemma FirstWriteSubscribes(s: State, m: Msg, now: real, es: seq<Event>, c: string)
    requires Inv(s) && (m.key in s.vars ==> s.vars[m.key].writeCount == 0)
    requires forall i :: 0 <= i < |es| ==> !MayQuit(es[i], c)
    ensures Subscribed(Notified(s, m, now), m.key, c) <==>
              Subscribed(s, m.key, c) || (c != "" && c in s.filters && SomeMatch(s.filters[c], m))
    ensures c != "" && c in s.filters && SomeMatch(s.filters[c], m) ==>
              Subscribed(Run(Notified(s, m, now), es), m.key, c)
  {
    FirstWriteSubscribers(s, m, now);
    NotifiedInv(s, m, now);
    hide Inv, Notified, MayQuit, Run, SomeMatch;
    RunSubscribers(Notified(s, m, now), es, c);
  }

  /** Unregistering a wildcard is not the inverse of registering it: the filter stays stored, and
      the next new variable it matches subscribes the client again. */
  lemma WildcardUnregisterDoesNotStick(s: State, a: Arrival, m: Msg, now: real)
    requires Inv(s) && a.msg.msgType == MOOS_WILDCARD_UNREGISTER
    requires var c := a.msg.src; c != "" && c in s.filters && SomeMatch(s.filters[c], m)
    requires m.key !in s.vars
    ensures Subscribed(Notified(Processed(s, a), m, now), m.key, a.msg.src)
  {
    ProcessedInv(s, a);
    assert Processed(s, a).filters == s.filters && m.key !in Processed(s, a).vars;
    hide Inv, Notified, SomeMatch, Processed;
    FirstWriteSubscribes(Processed(s, a), m, now, [], a.msg.src);
  }

  /** Only the first write looks at the filters: a later writer a filter would match subscribes
      nobody. */
  lemma LaterWritesSubscribeNobody(s: State, m: Msg, now: real, c: string)
    requires m.key in s.vars && s.vars[m.key].writeCount > 0
    ensures Subscribed(Notified(s, m, now), m.key, c) <==> Subscribed(s, m.key, c)
  {
    FirstWriteSubscribers(s, m, now);
    hide Notified;
  }
}
