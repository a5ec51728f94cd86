/** How a client routes mail to its active queues. Which queues want a message name is remembered:
    the memory is filled by explicit routes and, the first time a name is met, from the wildcard
    patterns. The question is whether the memory always says what asking the patterns would. */
module Routing {
  import opened Messages
  import Glob

  /** `pushed` is what each queue has been given; `explicit` records the routes asked for by name
      to queues that still exist. */
  datatype Router = Router(
    routes: map<string, set<string>>,
    checked: set<string>,
    patterns: map<string, string>,
    pushed: map<string, seq<Msg>>,
    explicit: set<(string, string)>
  )

  const NO_ROUTES := Router(map[], {}, map[], map[], {})

  function RouteSet(s: Router, k: string): set<string> {
    if k in s.routes then s.routes[k] else {}
  }

  /** The wildcard queues whose pattern matches the name. */
  function Matching(s: Router, k: string): set<string> {
    set n | n in s.patterns && Glob.Wild(s.patterns[n], k)
  }

  function Explicit(s: Router, k: string): set<string> {
    set n | n in s.pushed && (k, n) in s.explicit
  }

  /** The routing memory is exact. */
  ghost predicate Exact(s: Router) {
    forall k :: RouteSet(s, k) == Explicit(s, k) + if k in s.checked then Matching(s, k) else {}
  }

  ghost predicate Inv(s: Router) {
    Exact(s) && s.patterns.Keys <= s.pushed.Keys && forall p :: p in s.explicit ==> p.1 in s.pushed
  }

  // ------------------------------------------------------------------------- the operations

  function QueueAdded(s: Router, n: string): Router {
    if n in s.pushed then s else s.(pushed := s.pushed[n := []])
  }

  function WildcardAdded(s: Router, n: string, pattern: string): Router {
    if n in s.pushed then s
    else
      var keys := set k | k in s.checked && Glob.Wild(pattern, k);
      s.(pushed := s.pushed[n := []], patterns := s.patterns[n := pattern], routes := RoutesWith(s, n, keys))
  }

  /** The routes with queue `n` added for all the names. */
  function RoutesWith(s: Router, n: string, names: set<string>): map<string, set<string>> {
    map k | k in s.routes.Keys + names :: RouteSet(s, k) + if k in names then {n} else {}
  }

  function RouteAdded(s: Router, n: string, k: string): Router {
    if n in s.pushed
    then s.(routes := s.routes[k := RouteSet(s, k) + {n}], explicit := s.explicit + {(k, n)})
    else s
  }

  function QueueRemoved(s: Router, n: string): Router {
    var s1 := s.(routes := map k | k in s.routes :: s.routes[k] - {n});
    if n in s.pushed
    then s1.(pushed := s.pushed - {n}, patterns := s.patterns - {n},
             explicit := set p | p in s.explicit && p.1 != n)
    else s1
  }

  // ------------------------------------------------------------------------------- dispatch

  /** Everyone who should get a message of this name. */
  function RouteOf(s: Router, k: string): set<string> {
    RouteSet(s, k) + Matching(s, k)
  }

  /** Dispatch gets past a message only if its name has a route entry, perhaps by now empty, or a
      pattern matches it. */
  predicate HasEntry(s: Router, k: string) {
    k in s.routes || Matching(s, k) != {}
  }

  /** How many messages dispatch gets past. */
  function Reach(s: Router, inbox: seq<Msg>): (n: nat)
    ensures n <= |inbox|
    ensures n < |inbox| ==> !HasEntry(s, inbox[n].key)
    ensures forall i :: 0 <= i < n ==> HasEntry(s, inbox[i].key)
  {
    if inbox == [] || !HasEntry(s, inbox[0].key) then 0 else 1 + Reach(s, inbox[1..])
  }

  /** The messages queue `n` should get, in order. */
  function For(s: Router, n: string, msgs: seq<Msg>): seq<Msg> {
    if msgs == [] then []
    else For(s, n, msgs[..|msgs| - 1]) + if n in RouteOf(s, msgs[|msgs| - 1].key) then [msgs[|msgs| - 1]] else []
  }

  /** The messages no queue takes, in order. */
  function Unwanted(s: Router, msgs: seq<Msg>): seq<Msg> {
    if msgs == [] then []
    else Unwanted(s, msgs[..|msgs| - 1]) + if RouteOf(s, msgs[|msgs| - 1].key) == {} then [msgs[|msgs| - 1]] else []
  }

  function KeysOf(msgs: seq<Msg>): set<string> {
    set m | m in msgs :: m.key
  }

  /** Dispatch as it should be. The messages up to the first without an entry go to everyone who
      should get them and leave the inbox if that is anyone; names that were met are checked. */
  function Dispatched(s: Router, inbox: seq<Msg>): (Router, seq<Msg>) {
    var n := Reach(s, inbox);
    var met := KeysOf(inbox[..n]);
    (s.(routes := map k | k in s.routes.Keys + met :: if k in met then RouteOf(s, k) else s.routes[k],
        checked := s.checked + met + if n < |inbox| then {inbox[n].key} else {},
        pushed := map q | q in s.pushed :: s.pushed[q] + For(s, q, inbox[..n])),
     Unwanted(s, inbox[..n]) + inbox[n..])
  }

  // ------------------------------------------------------------------------ exactness kept

  lemma QueueAddedInv(s: Router, n: string)
    requires Inv(s)
    ensures Inv(QueueAdded(s, n))
  {
    hide Glob.Wild;
    var s' := QueueAdded(s, n);
    forall k ensures RouteSet(s', k) == Explicit(s', k) + if k in s'.checked then Matching(s', k) else {} {
      assert Explicit(s', k) == Explicit(s, k);
      assert Matching(s', k) == Matching(s, k);
    }
  }

  lemma RouteSetWith(s: Router, s': Router, n: string, names: set<string>, k: string)
    requires s'.routes == RoutesWith(s, n, names)
    ensures RouteSet(s', k) == RouteSet(s, k) + if k in names then {n} else {}
  {
  }

  lemma WildcardAddedInv(s: Router, n: string, pattern: string)
    requires Inv(s)
    ensures Inv(WildcardAdded(s, n, pattern))
  {
    hide Glob.Wild, RoutesWith;
    var s' := WildcardAdded(s, n, pattern);
    var keys := set k | k in s.checked && Glob.Wild(pattern, k);
    forall k ensures RouteSet(s', k) == Explicit(s', k) + if k in s'.checked then Matching(s', k) else {} {
      assert Explicit(s', k) == Explicit(s, k);
      if n !in s.pushed {
        RouteSetWith(s, s', n, keys, k);
        assert Matching(s', k) == Matching(s, k) + if Glob.Wild(pattern, k) then {n} else {};
        hide RouteSet, Explicit, Matching;
      }
    }
  }

  lemma RouteAddedInv(s: Router, n: string, k: string)
    requires Inv(s)
    ensures Inv(RouteAdded(s, n, k))
  {
    hide Glob.Wild;
    var s' := RouteAdded(s, n, k);
    forall j ensures RouteSet(s', j) == Explicit(s', j) + if j in s'.checked then Matching(s', j) else {} {
      assert Matching(s', j) == Matching(s, j);
      if n in s.pushed {
        ExplicitMore(s, n, k, j);
      }
      hide Explicit, Matching;
    }
  }

  lemma ExplicitMore(s: Router, n: string, k: string, j: string)
    requires n in s.pushed
    ensures Explicit(RouteAdded(s, n, k), j) == Explicit(s, j) + if j == k then {n} else {}
  {
  }

  lemma QueueRemovedInv(s: Router, n: string)
    requires Inv(s)
    ensures Inv(QueueRemoved(s, n))
  {
    hide Glob.Wild;
    var s' := QueueRemoved(s, n);
    forall k ensures RouteSet(s', k) == Explicit(s', k) + if k in s'.checked then Matching(s', k) else {} {
      assert RouteSet(s', k) == RouteSet(s, k) - {n};
      assert Explicit(s', k) == Explicit(s, k) - {n};
      assert Matching(s', k) == Matching(s, k) - {n};
    }
  }

  lemma DispatchedInv(s: Router, inbox: seq<Msg>)
    requires Inv(s)
    ensures Inv(Dispatched(s, inbox).0)
  {
    hide For, Unwanted, KeysOf, Glob.Wild;
    var s' := Dispatched(s, inbox).0;
    var n := Reach(s, inbox);
    forall k ensures RouteSet(s', k) == Explicit(s', k) + if k in s'.checked then Matching(s', k) else {} {
      assert Explicit(s', k) == Explicit(s, k);
      assert Matching(s', k) == Matching(s, k);
      if k in s'.checked && k !in s.checked && k !in KeysOf(inbox[..n]) {
        assert k == inbox[n].key && !HasEntry(s, k);
      }
    }
  }

  datatype Op =
    | AddQueue(n: string)
    | AddWildcard(n: string, pattern: string)
    | AddRoute(n: string, k: string)
    | RemoveQueue(n: string)
    | Dispatch(inbox: seq<Msg>)

  function Step(s: Router, op: Op): Router {
    match op
    case AddQueue(n) => QueueAdded(s, n)
    case AddWildcard(n, pattern) => WildcardAdded(s, n, pattern)
    case AddRoute(n, k) => RouteAdded(s, n, k)
    case RemoveQueue(n) => QueueRemoved(s, n)
    case Dispatch(inbox) => Dispatched(s, inbox).0
  }

  function Run(s: Router, ops: seq<Op>): Router {
    if ops == [] then s else Step(Run(s, ops[..|ops| - 1]), ops[|ops| - 1])
  }

  lemma StepInv(s: Router, op: Op)
    requires Inv(s)
    ensures Inv(Step(s, op))
  {
    hide Inv, QueueAdded, WildcardAdded, RouteAdded, QueueRemoved, Dispatched;
    match op
    case AddQueue(n) => QueueAddedInv(s, n);
    case AddWildcard(n, pattern) => WildcardAddedInv(s, n, pattern);
    case AddRoute(n, k) => RouteAddedInv(s, n, k);
    case RemoveQueue(n) => QueueRemovedInv(s, n);
    case Dispatch(inbox) => DispatchedInv(s, inbox);
  }

  lemma {:induction false} RunInv(ops: seq<Op>)
    ensures Inv(Run(NO_ROUTES, ops))
  {
    hide Step;
    if ops == [] {
    } else {
      hide Inv;
      RunInv(ops[..|ops| - 1]);
      StepInv(Run(NO_ROUTES, ops[..|ops| - 1]), ops[|ops| - 1]);
    }
  }

  /** Over any run, the routes of a name are its explicit routes and, once the name has been met,
      exactly the wildcard queues whose pattern matches it; every queue routed to exists; and
      before the name is met the patterns have not been asked. */
  lemma RoutesAreExact(ops: seq<Op>, k: string)
    ensures var s := Run(NO_ROUTES, ops);
            && (k in s.checked ==> RouteSet(s, k) == RouteOf(s, k) == Explicit(s, k) + Matching(s, k))
            && (k !in s.checked ==> RouteSet(s, k) == Explicit(s, k))
            && RouteOf(s, k) == Explicit(s, k) + Matching(s, k)
            && RouteOf(s, k) <= s.pushed.Keys
  {
    hide Run, Matching, Explicit, RouteSet;
    RunInv(ops);
    RoutesExist(Run(NO_ROUTES, ops), k);
  }

  /** So the branch that finds no queue of the name is never taken. */
  lemma RoutesExist(s: Router, k: string)
    requires Inv(s)
    ensures RouteOf(s, k) <= s.pushed.Keys
  {
  }

  // ------------------------------------------------------------ what dispatch does with mail

  lemma {:induction false} ForMember(s: Router, n: string, msgs: seq<Msg>, m: Msg)
    ensures m in For(s, n, msgs) <==> m in msgs && n in RouteOf(s, m.key)
    ensures m in Unwanted(s, msgs) <==> m in msgs && RouteOf(s, m.key) == {}
  {
    hide RouteOf;
    if msgs != [] {
      var k := |msgs| - 1;
      assert msgs == msgs[..k] + [msgs[k]];
      ForMember(s, n, msgs[..k], m);
    }
  }

  predicate Rising(places: seq<nat>) {
    forall i, j :: 0 <= i < j < |places| ==> places[i] < places[j]
  }

  predicate Within(places: seq<nat>, msgs: seq<Msg>) {
    forall i :: 0 <= i < |places| ==> places[i] < |msgs|
  }

  /** The places of the messages queue `q` should get. */
  function PlacesFor(s: Router, q: string, msgs: seq<Msg>): (places: seq<nat>)
    ensures Rising(places) && Within(places, msgs)
  {
    if msgs == [] then []
    else
      var n := |msgs| - 1;
      PlacesFor(s, q, msgs[..n]) + if q in RouteOf(s, msgs[n].key) then [n] else []
  }

  /** The places of the messages no queue takes. */
  function PlacesLeft(s: Router, msgs: seq<Msg>): (places: seq<nat>)
    ensures Rising(places) && Within(places, msgs)
  {
    if msgs == [] then []
    else
      var n := |msgs| - 1;
      PlacesLeft(s, msgs[..n]) + if RouteOf(s, msgs[n].key) == {} then [n] else []
  }

  /** The messages at the places, in order. */
  function Picked(msgs: seq<Msg>, places: seq<nat>): (r: seq<Msg>)
    requires Within(places, msgs)
    ensures |r| == |places| && forall i :: 0 <= i < |r| ==> r[i] == msgs[places[i]]
  {
    seq(|places|, i requires 0 <= i < |places| => msgs[places[i]])
  }

  lemma {:induction false} PlacesAre(s: Router, q: string, msgs: seq<Msg>, i: nat)
    requires i < |msgs|
    ensures i in PlacesFor(s, q, msgs) <==> q in RouteOf(s, msgs[i].key)
    ensures i in PlacesLeft(s, msgs) <==> RouteOf(s, msgs[i].key) == {}
  {
    hide RouteOf;
    var n := |msgs| - 1;
    if i < n {
      PlacesAre(s, q, msgs[..n], i);
    }
  }

  lemma {:induction false} ForIsPicked(s: Router, q: string, msgs: seq<Msg>)
    ensures For(s, q, msgs) == Picked(msgs, PlacesFor(s, q, msgs))
  {
    hide RouteOf;
    if msgs != [] {
      ForIsPicked(s, q, msgs[..|msgs| - 1]);
    }
  }

  lemma {:induction false} LeftIsPicked(s: Router, msgs: seq<Msg>)
    ensures Unwanted(s, msgs) == Picked(msgs, PlacesLeft(s, msgs))
  {
    hide RouteOf;
    if msgs != [] {
      LeftIsPicked(s, msgs[..|msgs| - 1]);
    }
  }

  /** Of the messages dispatch gets past, one is gone from the inbox if and only if some queue has
      it; each queue has those routed to it, and the inbox those nobody takes and all behind the
      first message without an entry, in the order of their places. Equal messages at different
      places are told apart. */
  lemma GoneIffTaken(s: Router, inbox: seq<Msg>)
    requires Inv(s)
    ensures var (s', left) := Dispatched(s, inbox);
            var past := inbox[..Reach(s, inbox)];
            && left == Picked(past, PlacesLeft(s, past)) + inbox[|past|..]
            && (forall q :: q in s.pushed ==>
                  s'.pushed[q] == s.pushed[q] + Picked(past, PlacesFor(s, q, past)))
            && (forall i: nat :: i < |past| ==>
                  (i in PlacesLeft(s, past) <==> !exists q :: q in s.pushed && i in PlacesFor(s, q, past)))
  {
    hide RouteOf, For, Unwanted, Reach, Picked, PlacesFor, PlacesLeft;
    var past := inbox[..Reach(s, inbox)];
    LeftIsPicked(s, past);
    forall q | q in s.pushed ensures For(s, q, past) == Picked(past, PlacesFor(s, q, past)) {
      ForIsPicked(s, q, past);
    }
    forall i: nat | i < |past|
      ensures i in PlacesLeft(s, past) <==> !exists q :: q in s.pushed && i in PlacesFor(s, q, past)
    {
      RoutesExist(s, past[i].key);
      forall q ensures i in PlacesFor(s, q, past) <==> q in RouteOf(s, past[i].key) {
        PlacesAre(s, q, past, i);
      }
      PlacesAre(s, "", past, i);
      if RouteOf(s, past[i].key) != {} {
        var q :| q in RouteOf(s, past[i].key);
        assert q in s.pushed && i in PlacesFor(s, q, past);
      }
    }
  }
}
