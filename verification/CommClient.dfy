/** The client object's routing table and dispatch loop, as `CMOOSCommClient` has them, proved to
    do what Routing says they should. */
module CommClient {
  import opened Messages
  import opened Routing
  import Glob

  class Client {
    var routeMap: map<string, set<string>>
    var checkSet: set<string>
    var queuePatterns: map<string, string>
    var queueMap: map<string, seq<Msg>>
    var pending: seq<Msg>
    ghost var explicit: set<(string, string)>

    ghost function Value(): Router
      reads this
    {
      Router(routeMap, checkSet, queuePatterns, queueMap, explicit)
    }

    constructor ()
      ensures Value() == NO_ROUTES && pending == []
    {
      routeMap := map[];
      checkSet := {};
      queuePatterns := map[];
      queueMap := map[];
      pending := [];
      explicit := {};
    }

    method AddActiveQueue(n: string) returns (ok: bool)
      modifies this
      ensures Value() == QueueAdded(old(Value()), n) && pending == old(pending)
      ensures ok == (n !in old(queueMap))
    {
      ok := n !in queueMap;
      if ok {
        queueMap := queueMap[n := []];
      }
    }

    /** `Msg2ActiveQueueName_[k].insert(n)`. */
    method Insert(k: string, n: string)
      modifies this`routeMap
      ensures routeMap == old(routeMap)[k := RouteSet(old(Value()), k) + {n}]
    {
      if k !in routeMap {
        routeMap := routeMap[k := {}];
      }
      routeMap := routeMap[k := routeMap[k] + {n}];
    }

    method AddWildcardActiveQueue(n: string, pattern: string) returns (ok: bool)
      modifies this
      ensures Value() == WildcardAdded(old(Value()), n, pattern) && pending == old(pending)
      ensures ok == (n !in old(queueMap))
    {
      hide Glob.Wild, RoutesWith;
      ok := AddActiveQueue(n);
      if !ok {
        return;
      }
      queuePatterns := queuePatterns[n := pattern];
      ghost var s, s1, names := old(Value()), Value(), {};
      RoutesWithNone(s, n);
      var todo := checkSet;
      while todo != {}
        invariant todo <= s.checked && Value() == s1.(routes := routeMap) && pending == old(pending)
        invariant routeMap == RoutesWith(s, n, names)
        invariant forall k :: k in names <==> k in s.checked && k !in todo && Glob.Wild(pattern, k)
        decreases |todo|
      {
        var k :| k in todo;
        var matched := Glob.WildCmp(pattern, k);
        if matched {
          RoutesWithOneMore(s, n, names, k);
          Insert(k, n);
          names := names + {k};
        }
        todo := todo - {k};
      }
      assert names == set k | k in s.checked && Glob.Wild(pattern, k);
    }

    method AddMessageRouteToActiveQueue(n: string, k: string) returns (ok: bool)
      modifies this
      ensures Value() == RouteAdded(old(Value()), n, k) && pending == old(pending)
      ensures ok == (n in old(queueMap))
    {
      ok := n in queueMap;
      if ok {
        Insert(k, n);
        explicit := explicit + {(k, n)};
      }
    }

    /** No name is routed to `n` any more. */
    method EraseEverywhere(n: string)
      modifies this`routeMap
      ensures routeMap == map k | k in old(routeMap) :: old(routeMap)[k] - {n}
    {
      ghost var routes := routeMap;
      var todo := routeMap.Keys;
      while todo != {}
        invariant todo <= routes.Keys == routeMap.Keys
        invariant forall k :: k in todo ==> routeMap[k] == routes[k]
        invariant forall k :: k in routes && k !in todo ==> routeMap[k] == routes[k] - {n}
        decreases |todo|
      {
        var k :| k in todo;
        if n in routeMap[k] {
          routeMap := routeMap[k := routeMap[k] - {n}];
        }
        assert routeMap[k] == routes[k] - {n};
        todo := todo - {k};
      }
    }

    method RemoveActiveQueue(n: string) returns (ok: bool)
      modifies this
      ensures Value() == QueueRemoved(old(Value()), n) && pending == old(pending)
      ensures ok == (n in old(queueMap))
    {
      EraseEverywhere(n);
      ok := n in queueMap;
      if ok {
        queueMap := queueMap - {n};
        queuePatterns := queuePatterns - {n};
        explicit := set p | p in explicit && p.1 != n;
      }
    }

    // ------------------------------------------------------------------------------ dispatch

    /** Asking every pattern about a name. */
    method AskPatterns(k: string) returns (found: bool)
      modifies this`routeMap
      ensures found == (Matching(old(Value()), k) != {})
      ensures routeMap == if found then old(routeMap)[k := RouteOf(old(Value()), k)]
                                      else old(routeMap)
    {
      hide Glob.Wild, Asked;
      ghost var s, asked := Value(), {};
      AskedNone(s, k);
      var todo := queuePatterns.Keys;
      found := false;
      while todo != {}
        invariant todo <= s.patterns.Keys && found == (asked != {})
        invariant forall n :: n in asked <==> n in s.patterns && n !in todo && Glob.Wild(s.patterns[n], k)
        invariant routeMap == Asked(s, k, asked)
        decreases |todo|
      {
        var n :| n in todo;
        AskedOneMore(s, k, asked, n);
        var matched := Glob.WildCmp(queuePatterns[n], k);
        if matched {
          Insert(k, n);
          found := true;
          asked := asked + {n};
        }
        todo := todo - {n};
      }
      assert Matching(s, k) == asked;
      AskedAll(s, k);
    }

    /** One copy to each queue of the set; a queue that does not exist is the error. */
    method PushToAll(names: set<string>, m: Msg) returns (taken: bool, error: bool)
      modifies this`queueMap
      ensures error == !(names <= old(queueMap).Keys)
      ensures !error ==> taken == (names != {}) && queueMap == PushedTo(old(queueMap), names, m)
    {
      hide PushedTo;
      ghost var before, given := queueMap, {};
      var todo := names;
      taken, error := false, false;
      PushedToNone(before, m);
      while todo != {}
        invariant todo <= names && !error && taken == (given != {})
        invariant forall r :: r in given <==> r in names && r !in todo
        invariant given <= before.Keys && queueMap == PushedTo(before, given, m)
        decreases |todo|
      {
        var r :| r in todo;
        PushedToOneMore(before, given, r, m);
        if r !in queueMap {
          error := true;
          return;
        }
        queueMap := queueMap[r := queueMap[r] + [m]];
        taken := true;
        given := given + {r};
        todo := todo - {r};
      }
      assert given == names;
    }

    /** The part of a turn that consults the tables. */
    method LookUp(k: string, ghost s: Router, ghost inbox: seq<Msg>, ghost p: nat, ghost q: nat)
        returns (again: bool, stop: bool)
      requires p <= q <= p + 1 && q <= |inbox| && p < |inbox| && k == inbox[p].key
      requires Inv(s) && AllHaveEntries(s, inbox, q) && Value() == Partly(s, inbox, p, q)
      modifies this`routeMap, this`checkSet
      ensures again ==> q == p && !stop
      ensures stop ==> q == p && !HasEntry(s, k)
      ensures stop ==> Value() == Partly(s, inbox, p, p).(checked := Partly(s, inbox, p, p).checked + {k})
      ensures !stop ==> AllHaveEntries(s, inbox, p + 1) && Value() == Partly(s, inbox, p, p + 1)
      ensures !stop ==> k in routeMap && routeMap[k] == RouteOf(s, k)
    {
      hide Inv, Matching, KeysOf, RouteOf, Partly, HasEntry, AllHaveEntries;
      Looks(s, inbox, p, q);
      ghost var v := Value();
      again, stop := false, false;
      var hadRoute, hadChecked := k in routeMap, k in checkSet;
      if !hadRoute || !hadChecked {
        var found := AskPatterns(k);
        checkSet := checkSet + {k};
        again, stop := found, !found && !hadRoute;
      }
      assert !stop ==> routeMap == v.routes[k := RouteOf(s, k)] && checkSet == v.checked + {k};
    }

    /** The part of a turn that hands the message over and, if anyone took it, erases it. */
    method HandOver(t: nat, ghost s: Router, ghost inbox: seq<Msg>, ghost p: nat) returns (next: nat, error: bool)
      requires p < |inbox| && Inv(s) && Value() == Partly(s, inbox, p, p + 1)
      requires t == |Unwanted(s, inbox[..p])| && pending == Unwanted(s, inbox[..p]) + inbox[p..]
      requires inbox[p].key in routeMap && routeMap[inbox[p].key] == RouteOf(s, inbox[p].key)
      modifies this`queueMap, this`pending
      ensures !error && Value() == Partly(s, inbox, p + 1, p + 1)
      ensures next == |Unwanted(s, inbox[..p + 1])| && pending == Unwanted(s, inbox[..p + 1]) + inbox[p + 1..]
    {
      hide Inv, Unwanted, RouteOf, Partly, PushedTo;
      var m := pending[t];
      assert m == inbox[p];
      RoutesExist(s, m.key);
      PartlyPushed(s, inbox, p);
      var taken;
      taken, error := PushToAll(routeMap[m.key], m);
      InboxMoves(Unwanted(s, inbox[..p]), inbox, p);
      next := t;
      if taken {
        pending := pending[..t] + pending[t + 1..];
      } else {
        next := t + 1;
      }
    }

    /** The dispatch loop. It ends although a turn that finds a pattern for the name starts again
        at the same message; the error is never reached. */
    method DispatchInBoxToActiveThreads() returns (error: bool)
      requires Inv(Value())
      modifies this
      ensures !error
      ensures (Value(), pending) == Dispatched(old(Value()), old(pending))
    {
      hide Inv, Unwanted, RouteOf, Partly, HasEntry, Dispatched, AllHaveEntries;
      error := false;
      ghost var s, inbox := Value(), pending;
      ghost var p, q := 0, 0;
      var t := 0;
      PartlyStart(s, inbox);
      while t < |pending|
        invariant 0 <= p <= q <= p + 1 && q <= |inbox| && !error
        invariant AllHaveEntries(s, inbox, q) && Value() == Partly(s, inbox, p, q)
        invariant t == |Unwanted(s, inbox[..p])| && pending == Unwanted(s, inbox[..p]) + inbox[p..]
        decreases |pending| - t, p + 1 - q
      {
        assert pending[t] == inbox[p];
        var again, stop := LookUp(pending[t].key, s, inbox, p, q);
        if again {
          q := p + 1;
          continue;
        }
        if stop {
          StopsHere(s, inbox, p);
          return;
        }
        t, error := HandOver(t, s, inbox, p);
        p, q := p + 1, p + 1;
      }
      assert p == |inbox|;
      AllHandled(s, inbox);
    }
  }

  lemma InboxMoves(unwanted: seq<Msg>, inbox: seq<Msg>, p: nat)
    requires p < |inbox|
    ensures var now, t := unwanted + inbox[p..], |unwanted|;
            && now[..t] + now[t + 1..] == unwanted + [] + inbox[p + 1..]
            && now == unwanted + [inbox[p]] + inbox[p + 1..]
  {
  }

  // ----------------------------------------------------------------------- turns of the loops

  lemma RoutesWithNone(s: Router, n: string)
    ensures RoutesWith(s, n, {}) == s.routes
  {
    forall k | k in s.routes ensures RoutesWith(s, n, {})[k] == s.routes[k] {
    }
  }

  lemma RoutesWithOneMore(s: Router, n: string, names: set<string>, k: string)
    ensures var r := RoutesWith(s, n, names);
            r[k := (if k in r then r[k] else {}) + {n}] == RoutesWith(s, n, names + {k})
  {
    var r := RoutesWith(s, n, names);
    var r' := r[k := (if k in r then r[k] else {}) + {n}];
    forall j | j in r' ensures r'[j] == RoutesWith(s, n, names + {k})[j] {
    }
    assert r'.Keys == RoutesWith(s, n, names + {k}).Keys;
  }

  /** The routes when the queues in `asked` have matched the name. */
  function Asked(s: Router, k: string, asked: set<string>): map<string, set<string>> {
    if asked == {} then s.routes else s.routes[k := RouteSet(s, k) + asked]
  }

  lemma AskedNone(s: Router, k: string)
    ensures Asked(s, k, {}) == s.routes
  {
  }

  lemma AskedAll(s: Router, k: string)
    ensures Asked(s, k, Matching(s, k)) == if Matching(s, k) == {} then s.routes else s.routes[k := RouteOf(s, k)]
  {
    hide Matching;
  }

  lemma AskedOneMore(s: Router, k: string, asked: set<string>, n: string)
    ensures var r := Asked(s, k, asked);
            r[k := (if k in r then r[k] else {}) + {n}] == Asked(s, k, asked + {n})
  {
    assert RouteSet(s, k) + {} == RouteSet(s, k);
    assert RouteSet(s, k) + asked + {n} == RouteSet(s, k) + (asked + {n});
  }

  function PushedTo(pushed: map<string, seq<Msg>>, names: set<string>, m: Msg): map<string, seq<Msg>> {
    map q | q in pushed :: pushed[q] + if q in names then [m] else []
  }

  lemma PushedToNone(pushed: map<string, seq<Msg>>, m: Msg)
    ensures PushedTo(pushed, {}, m) == pushed
  {
    assert forall q :: q in pushed ==> pushed[q] + [] == pushed[q];
  }

  lemma PushedToOneMore(pushed: map<string, seq<Msg>>, names: set<string>, r: string, m: Msg)
    requires r !in names
    ensures PushedTo(pushed, names, m).Keys == pushed.Keys
    ensures r in pushed ==>
              var now := PushedTo(pushed, names, m);
              now[r := now[r] + [m]] == PushedTo(pushed, names + {r}, m)
  {
    assert forall q :: q in pushed ==> pushed[q] + [] == pushed[q];
  }

  // -------------------------------------------------------------------- the loop's progress

  /** `p` messages handled, the names of `q` of them met. */
  function Partly(s: Router, inbox: seq<Msg>, p: nat, q: nat): Router
    requires p <= |inbox| && q <= |inbox|
  {
    var met := KeysOf(inbox[..q]);
    s.(routes := map k | k in s.routes.Keys + met :: if k in met then RouteOf(s, k) else s.routes[k],
       checked := s.checked + met,
       pushed := map n | n in s.pushed :: s.pushed[n] + For(s, n, inbox[..p]))
  }

  predicate AllHaveEntries(s: Router, inbox: seq<Msg>, q: nat) {
    q <= |inbox| && forall i :: 0 <= i < q ==> HasEntry(s, inbox[i].key)
  }

  lemma PartlyStart(s: Router, inbox: seq<Msg>)
    ensures AllHaveEntries(s, inbox, 0)
    ensures Partly(s, inbox, 0, 0) == s && Unwanted(s, inbox[..0]) == [] && inbox[0..] == inbox
  {
    assert inbox[..0] == [];
    assert KeysOf([]) == {};
    assert forall n :: For(s, n, []) == [];
    assert forall n :: n in s.pushed ==> s.pushed[n] + [] == s.pushed[n];
  }

  lemma KeysSnoc(inbox: seq<Msg>, q: nat)
    requires q < |inbox|
    ensures KeysOf(inbox[..q + 1]) == KeysOf(inbox[..q]) + {inbox[q].key}
  {
    assert inbox[..q + 1] == inbox[..q] + [inbox[q]];
  }

  lemma MetHasEntry(s: Router, inbox: seq<Msg>, q: nat, k: string)
    requires AllHaveEntries(s, inbox, q) && k in KeysOf(inbox[..q])
    ensures HasEntry(s, k)
  {
    hide HasEntry;
    var m :| m in inbox[..q] && m.key == k;
    var i :| 0 <= i < q && inbox[..q][i] == m;
    assert HasEntry(s, inbox[i].key);
  }

  /** Meeting the next name. */
  lemma Meets(s: Router, inbox: seq<Msg>, p: nat, q: nat)
    requires p <= q <= p + 1 && q <= |inbox| && p < |inbox|
    ensures var v, k := Partly(s, inbox, p, q), inbox[p].key;
            && Partly(s, inbox, p, p + 1) == v.(routes := v.routes[k := RouteOf(s, k)], checked := v.checked + {k})
            && (k !in v.routes || k !in v.checked ==> q == p)
            && (k in v.routes <==> k in s.routes || k in KeysOf(inbox[..q]))
            && (k in v.checked <==> k in s.checked || k in KeysOf(inbox[..q]))
            && (k in v.routes ==> v.routes[k] == if k in KeysOf(inbox[..q]) then RouteOf(s, k) else s.routes[k])
  {
    hide For, KeysOf, RouteOf;
    KeysSnoc(inbox, p);
  }

  /** What the tables say about the next name, against what they said at the start. */
  lemma Looks(s: Router, inbox: seq<Msg>, p: nat, q: nat)
    requires Inv(s) && p <= q <= p + 1 && q <= |inbox| && p < |inbox| && AllHaveEntries(s, inbox, q)
    ensures var v, k := Partly(s, inbox, p, q), inbox[p].key;
            && Partly(s, inbox, p, p + 1) == v.(routes := v.routes[k := RouteOf(s, k)], checked := v.checked + {k})
            && Matching(v, k) == Matching(s, k) && RouteOf(v, k) == RouteOf(s, k)
            && (k in v.routes && (k in v.checked || Matching(s, k) == {}) ==> v.routes[k] == RouteOf(s, k))
            && (HasEntry(s, k) <==> k in v.routes || Matching(s, k) != {})
            && (k !in v.routes || k !in v.checked ==> q == p)
            && (HasEntry(s, k) ==> AllHaveEntries(s, inbox, p + 1))
  {
    hide Glob.Wild, For, KeysOf, Explicit;
    Meets(s, inbox, p, q);
    var v, k := Partly(s, inbox, p, q), inbox[p].key;
    assert v.patterns == s.patterns;
    hide Partly;
    assert Matching(v, k) == Matching(s, k);
    hide Matching;
    if k in KeysOf(inbox[..q]) {
      MetHasEntry(s, inbox, q, k);
    }
  }

  lemma StopsHere(s: Router, inbox: seq<Msg>, p: nat)
    requires p < |inbox| && AllHaveEntries(s, inbox, p) && !HasEntry(s, inbox[p].key)
    ensures var v := Partly(s, inbox, p, p);
            Dispatched(s, inbox) == (v.(checked := v.checked + {inbox[p].key}), Unwanted(s, inbox[..p]) + inbox[p..])
  {
    hide HasEntry, For, KeysOf, RouteOf, Unwanted;
    assert Reach(s, inbox) == p;
  }

  lemma AllHandled(s: Router, inbox: seq<Msg>)
    requires AllHaveEntries(s, inbox, |inbox|)
    ensures Dispatched(s, inbox) ==
              (Partly(s, inbox, |inbox|, |inbox|), Unwanted(s, inbox[..|inbox|]) + inbox[|inbox|..])
  {
    hide HasEntry, For, KeysOf, RouteOf, Unwanted;
    assert Reach(s, inbox) == |inbox|;
    assert s.checked + KeysOf(inbox) + {} == s.checked + KeysOf(inbox);
    assert inbox[..|inbox|] == inbox && inbox[|inbox|..] == [];
  }

  lemma PartlyPushed(s: Router, inbox: seq<Msg>, p: nat)
    requires p < |inbox|
    ensures var v, m := Partly(s, inbox, p, p + 1), inbox[p];
            && v.(pushed := PushedTo(v.pushed, RouteOf(s, m.key), m)) == Partly(s, inbox, p + 1, p + 1)
            && v.pushed.Keys == s.pushed.Keys
            && Unwanted(s, inbox[..p + 1]) == Unwanted(s, inbox[..p]) + if RouteOf(s, m.key) == {} then [m] else []
  {
    hide RouteOf, KeysOf;
    var m := inbox[p];
    assert inbox[..p + 1][..p] == inbox[..p];
    forall n | n in s.pushed
      ensures s.pushed[n] + For(s, n, inbox[..p + 1]) ==
              s.pushed[n] + For(s, n, inbox[..p]) + if n in RouteOf(s, m.key) then [m] else [] {
    }
    hide For, Unwanted;
  }
}
