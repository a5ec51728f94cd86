/** Where mail goes, told by what was asked for: which queues there are, and which names go to them, from
    the history of the operations alone. */
module RoutingHistory {
  import opened Messages
  import opened Routing
  import Glob

  predicate Adds(op: Op, n: string) {
    op == AddQueue(n) || (op.AddWildcard? && op.n == n)
  }

  /** The queue was not removed after the `i`-th operation. */
  predicate KeptSince(ops: seq<Op>, n: string, i: int) {
    0 <= i < |ops| && forall j :: i < j < |ops| ==> ops[j] != RemoveQueue(n)
  }

  /** There is a queue `n`: it was added and not removed since. */
  ghost predicate Standing(ops: seq<Op>, n: string) {
    exists i :: KeptSince(ops, n, i) && Adds(ops[i], n)
  }

  /** Its pattern is `p`: it was added with it when there was none of the name, and not removed since. */
  ghost predicate HasPattern(ops: seq<Op>, n: string, p: string) {
    exists i :: KeptSince(ops, n, i) && ops[i] == AddWildcard(n, p) && !Standing(ops[..i], n)
  }

  /** A route for the name was asked for when the queue was there, and the queue not removed since. */
  ghost predicate HasRoute(ops: seq<Op>, n: string, k: string) {
    exists i :: KeptSince(ops, n, i) && ops[i] == AddRoute(n, k) && Standing(ops[..i], n)
  }

  // ---------------------------------------------------------------------- one operation more

  lemma KeptOn(ops: seq<Op>, n: string, i: int)
    requires ops != [] && 0 <= i < |ops| - 1
    ensures var m := |ops| - 1;
            && (KeptSince(ops, n, i) <==> KeptSince(ops[..m], n, i) && ops[m] != RemoveQueue(n))
            && ops[..m][i] == ops[i] && ops[..m][..i] == ops[..i]
  {
    var m := |ops| - 1;
    if KeptSince(ops[..m], n, i) && ops[m] != RemoveQueue(n) {
      forall j | i < j < |ops| ensures ops[j] != RemoveQueue(n) {
        if j < m {
          assert ops[..m][j] == ops[j];
        }
      }
    }
    if KeptSince(ops, n, i) {
      forall j | i < j < m ensures ops[..m][j] != RemoveQueue(n) {
        assert ops[..m][j] == ops[j];
      }
    }
  }

  lemma StandingOn(ops: seq<Op>, n: string)
    requires ops != []
    ensures var m := |ops| - 1;
            Standing(ops, n) <==> Adds(ops[m], n) || (Standing(ops[..m], n) && ops[m] != RemoveQueue(n))
  {
    var m := |ops| - 1;
    assert KeptSince(ops, n, m);
    forall i | 0 <= i < m ensures KeptSince(ops, n, i) <==> KeptSince(ops[..m], n, i) && ops[m] != RemoveQueue(n) {
      KeptOn(ops, n, i);
    }
    if Standing(ops, n) && !Adds(ops[m], n) {
      var i :| KeptSince(ops, n, i) && Adds(ops[i], n);
      KeptOn(ops, n, i);
      assert KeptSince(ops[..m], n, i) && Adds(ops[..m][i], n);
    }
    if Standing(ops[..m], n) && ops[m] != RemoveQueue(n) {
      var i :| KeptSince(ops[..m], n, i) && Adds(ops[..m][i], n);
      KeptOn(ops, n, i);
      assert KeptSince(ops, n, i) && Adds(ops[i], n);
    }
  }

  lemma PatternOn(ops: seq<Op>, n: string, p: string)
    requires ops != []
    ensures var m := |ops| - 1;
            HasPattern(ops, n, p) <==>
              (ops[m] == AddWildcard(n, p) && !Standing(ops[..m], n))
              || (HasPattern(ops[..m], n, p) && ops[m] != RemoveQueue(n))
  {
    hide Standing;
    var m := |ops| - 1;
    assert KeptSince(ops, n, m);
    if HasPattern(ops, n, p) {
      var i :| KeptSince(ops, n, i) && ops[i] == AddWildcard(n, p) && !Standing(ops[..i], n);
      if i < m {
        KeptOn(ops, n, i);
        assert KeptSince(ops[..m], n, i) && ops[..m][i] == AddWildcard(n, p) && !Standing(ops[..m][..i], n);
      }
    }
    if HasPattern(ops[..m], n, p) && ops[m] != RemoveQueue(n) {
      var i :| KeptSince(ops[..m], n, i) && ops[..m][i] == AddWildcard(n, p) && !Standing(ops[..m][..i], n);
      KeptOn(ops, n, i);
      assert KeptSince(ops, n, i) && ops[i] == AddWildcard(n, p) && !Standing(ops[..i], n);
    }
  }

  lemma RouteOn(ops: seq<Op>, n: string, k: string)
    requires ops != []
    ensures var m := |ops| - 1;
            HasRoute(ops, n, k) <==>
              (ops[m] == AddRoute(n, k) && Standing(ops[..m], n))
              || (HasRoute(ops[..m], n, k) && ops[m] != RemoveQueue(n))
  {
    hide Standing;
    var m := |ops| - 1;
    assert KeptSince(ops, n, m);
    if HasRoute(ops, n, k) {
      var i :| KeptSince(ops, n, i) && ops[i] == AddRoute(n, k) && Standing(ops[..i], n);
      if i < m {
        KeptOn(ops, n, i);
        assert KeptSince(ops[..m], n, i) && ops[..m][i] == AddRoute(n, k) && Standing(ops[..m][..i], n);
      }
    }
    if HasRoute(ops[..m], n, k) && ops[m] != RemoveQueue(n) {
      var i :| KeptSince(ops[..m], n, i) && ops[..m][i] == AddRoute(n, k) && Standing(ops[..m][..i], n);
      KeptOn(ops, n, i);
      assert KeptSince(ops, n, i) && ops[i] == AddRoute(n, k) && Standing(ops[..i], n);
    }
  }

  // ----------------------------------------------------------------------------- the tables

  predicate PatternIs(s: Router, n: string, p: string) {
    n in s.patterns && s.patterns[n] == p
  }

  predicate RouteIs(s: Router, n: string, k: string) {
    n in s.pushed && (k, n) in s.explicit
  }

  lemma StepTables(s: Router, op: Op, n: string, p: string, k: string)
    requires Inv(s)
    ensures n in Step(s, op).pushed <==> Adds(op, n) || (n in s.pushed && op != RemoveQueue(n))
    ensures PatternIs(Step(s, op), n, p) <==>
              (op == AddWildcard(n, p) && n !in s.pushed) || (PatternIs(s, n, p) && op != RemoveQueue(n))
    ensures RouteIs(Step(s, op), n, k) <==>
              (op == AddRoute(n, k) && n in s.pushed) || (RouteIs(s, n, k) && op != RemoveQueue(n))
  {
    hide RoutesWith, Exact, For, Reach, Unwanted, KeysOf, RouteOf, Glob.Wild;
  }

  lemma NothingYet(n: string, p: string, k: string)
    ensures n !in NO_ROUTES.pushed && !PatternIs(NO_ROUTES, n, p) && !RouteIs(NO_ROUTES, n, k)
    ensures !Standing([], n) && !HasPattern([], n, p) && !HasRoute([], n, k)
  {
  }

  /** The tables say what the history says. */
  lemma {:induction false} TablesByHistory(ops: seq<Op>, n: string, p: string, k: string)
    ensures var s := Run(NO_ROUTES, ops);
            && (n in s.pushed <==> Standing(ops, n))
            && (PatternIs(s, n, p) <==> HasPattern(ops, n, p))
            && (RouteIs(s, n, k) <==> HasRoute(ops, n, k))
  {
    hide Step, Inv, Standing, HasPattern, HasRoute, PatternIs, RouteIs;
    if ops == [] {
      NothingYet(n, p, k);
    } else {
      var m := |ops| - 1;
      TablesByHistory(ops[..m], n, p, k);
      RunInv(ops[..m]);
      StepTables(Run(NO_ROUTES, ops[..m]), ops[m], n, p, k);
      StandingOn(ops, n);
      PatternOn(ops, n, p);
      RouteOn(ops, n, k);
    }
  }

  /** After any run a message goes to a queue if and only if a route for its name to the queue was asked
      for while it was there, or the queue was added with a pattern whose language has the name in it,
      and the queue was not removed since. */
  lemma RoutesByHistory(ops: seq<Op>, n: string, k: string)
    ensures n in RouteOf(Run(NO_ROUTES, ops), k) <==>
              HasRoute(ops, n, k)
              || exists p :: HasPattern(ops, n, p) && Glob.InLanguage(Glob.CString(p), Glob.CString(k))
  {
    hide Run, RouteSet, HasRoute, HasPattern, Glob.InLanguage, Glob.Matches;
    var s := Run(NO_ROUTES, ops);
    RoutesAreExact(ops, k);
    forall p ensures PatternIs(s, n, p) <==> HasPattern(ops, n, p) {
      TablesByHistory(ops, n, p, k);
    }
    TablesByHistory(ops, n, "", k);
    forall p ensures Glob.Wild(p, k) <==> Glob.InLanguage(Glob.CString(p), Glob.CString(k)) {
      Glob.MatchesIsLanguage(Glob.CString(p), Glob.CString(k));
    }
    hide Glob.Wild;
    if n in s.patterns {
      assert PatternIs(s, n, s.patterns[n]);
    }
    assert RouteOf(s, k) == Explicit(s, k) + Matching(s, k);
  }

  /** A queue starts with nothing in it, and what is in one only grows, by dispatch. */
  lemma QueuesGrow(s: Router, op: Op, n: string)
    requires n in Step(s, op).pushed
    ensures n !in s.pushed ==> Step(s, op).pushed[n] == []
    ensures n in s.pushed && !op.Dispatch? ==> Step(s, op).pushed[n] == s.pushed[n]
    ensures n in s.pushed ==> s.pushed[n] <= Step(s, op).pushed[n]
  {
    hide RoutesWith, For, Reach, Unwanted, KeysOf, RouteOf, Glob.Wild;
  }
}
