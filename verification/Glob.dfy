/** The wildcard matcher behind subscriptions, routing and client timing:
    `MOOSWildCmp` of MOOSUtilityFunctions.cpp, its language, and the proof that
    a loop which only ever backtracks to the last `*` decides that language. */
module Glob {

  const NUL: char := '\0'

  /** What `std::string::c_str()` shows a pointer walk: the characters before the first NUL. */
  function CString(s: string): (c: string)
    ensures NUL !in c
    ensures c <= s
    ensures c == s || s[|c|] == NUL
  {
    if s == [] || s[0] == NUL then [] else [s[0]] + CString(s[1..])
  }

  // ---------------------------------------------------------------- language

  /** The strings one pattern character stands for. */
  predicate Fits(c: char, part: string) {
    if c == '*' then true
    else |part| == 1 && (c == '?' || part[0] == c)
  }

  function Flatten(parts: seq<string>): string {
    if parts == [] then [] else parts[0] + Flatten(parts[1..])
  }

  /** `parts` cuts `s` into one piece per pattern character, each piece allowed there. */
  ghost predicate Splits(p: string, s: string, parts: seq<string>) {
    && |parts| == |p|
    && Flatten(parts) == s
    && forall k :: 0 <= k < |p| ==> Fits(p[k], parts[k])
  }

  ghost predicate InLanguage(p: string, s: string) {
    exists parts :: Splits(p, s, parts)
  }

  /** Does the pattern from position `w` match the string from position `i`? */
  predicate MatchFrom(p: string, w: nat, s: string, i: nat)
    requires w <= |p| && i <= |s|
    decreases |p| - w, |s| - i
  {
    if w == |p| then i == |s|
    else if p[w] == '*' then MatchFrom(p, w + 1, s, i) || (i < |s| && MatchFrom(p, w, s, i + 1))
    else i < |s| && (p[w] == '?' || p[w] == s[i]) && MatchFrom(p, w + 1, s, i + 1)
  }

  predicate Matches(p: string, s: string) {
    MatchFrom(p, 0, s, 0)
  }

  /** The value `MOOSWildCmp(p, s)` has, as the rest of the library sees it. */
  predicate Wild(p: string, s: string) {
    Matches(CString(p), CString(s))
  }

  lemma {:induction false} MatchGivesSplit(p: string, w: nat, s: string, i: nat) returns (parts: seq<string>)
    requires w <= |p| && i <= |s|
    requires MatchFrom(p, w, s, i)
    ensures Splits(p[w..], s[i..], parts)
    decreases |p| - w, |s| - i
  {
    if w == |p| {
      parts := [];
    } else if p[w] == '*' {
      if MatchFrom(p, w + 1, s, i) {
        var rest := MatchGivesSplit(p, w + 1, s, i);
        parts := [[]] + rest;
        assert parts[1..] == rest;
        assert forall k :: 1 <= k < |parts| ==> Fits(p[w..][k], parts[k]) by {
          assert forall k :: 1 <= k < |parts| ==> p[w..][k] == p[w + 1..][k - 1] && parts[k] == rest[k - 1];
        }
      } else {
        var rest := MatchGivesSplit(p, w, s, i + 1);
        parts := [[s[i]] + rest[0]] + rest[1..];
        assert parts[1..] == rest[1..];
        assert s[i..] == [s[i]] + s[i + 1..];
        assert Flatten(parts) == [s[i]] + rest[0] + Flatten(rest[1..]) == [s[i]] + Flatten(rest);
      }
    } else {
      var rest := MatchGivesSplit(p, w + 1, s, i + 1);
      parts := [[s[i]]] + rest;
      assert parts[1..] == rest;
      assert forall k :: 1 <= k < |parts| ==> Fits(p[w..][k], parts[k]) by {
        assert forall k :: 1 <= k < |parts| ==> p[w..][k] == p[w + 1..][k - 1] && parts[k] == rest[k - 1];
      }
    }
  }

  lemma {:induction false} SplitGivesMatch(p: string, w: nat, s: string, i: nat, parts: seq<string>)
    requires w <= |p| && i <= |s|
    requires Splits(p[w..], s[i..], parts)
    ensures MatchFrom(p, w, s, i)
    decreases |p| - w, |s| - i
  {
    if w < |p| {
      var rest := parts[1..];
      var n := |parts[0]|;
      assert s[i..] == parts[0] + Flatten(rest);
      assert Fits(p[w], parts[0]);
      assert forall k :: 0 <= k < |rest| ==> Fits(p[w + 1..][k], rest[k]) by {
        assert forall k :: 0 <= k < |rest| ==> p[w + 1..][k] == p[w..][k + 1] && rest[k] == parts[k + 1];
      }
      assert i + n <= |s| && s[i + n..] == Flatten(rest) by {
        assert |s[i..]| == n + |Flatten(rest)|;
        assert s[i..][n..] == Flatten(rest);
      }
      SplitGivesMatch(p, w + 1, s, i + n, rest);
      if p[w] == '*' {
        StarReachesBack(p, w, s, i, i + n);
      } else {
        assert parts[0][0] == s[i..][0];
      }
    }
  }

  lemma {:induction false} MatchesIsLanguage(p: string, s: string)
    ensures Matches(p, s) <==> InLanguage(p, s)
  {
    assert p[0..] == p && s[0..] == s;
    if Matches(p, s) {
      var parts := MatchGivesSplit(p, 0, s, 0);
    }
    if InLanguage(p, s) {
      var parts :| Splits(p, s, parts);
      SplitGivesMatch(p, 0, s, 0, parts);
    }
  }

  // ------------------------------------------------- why greedy is enough

  /** What a star matches further on it also matches from further back. */
  lemma {:induction false} StarReachesBack(p: string, w: nat, s: string, i: nat, j: nat)
    requires w < |p| && p[w] == '*' && i <= j <= |s|
    requires MatchFrom(p, w, s, j) || MatchFrom(p, w + 1, s, j)
    ensures MatchFrom(p, w, s, i)
    decreases j - i
  {
    if i < j {
      StarReachesBack(p, w, s, i + 1, j);
    }
  }

  lemma {:induction false} StarWitness(p: string, w: nat, s: string, i: nat) returns (j: nat)
    requires w < |p| && p[w] == '*' && i <= |s|
    requires MatchFrom(p, w, s, i)
    ensures i <= j <= |s| && MatchFrom(p, w + 1, s, j)
    decreases |s| - i
  {
    if MatchFrom(p, w + 1, s, i) {
      j := i;
    } else {
      j := StarWitness(p, w, s, i + 1);
    }
  }

  /** Pattern `p[m..w]` is free of stars and fits the string at `j`, character by character. */
  predicate BlockFits(p: string, m: nat, w: nat, s: string, j: nat)
    requires m <= w <= |p|
  {
    && j + (w - m) <= |s|
    && forall k :: m <= k < w ==> p[k] == '?' || p[k] == s[j + (k - m)]
  }

  predicate StarFree(p: string, m: nat, w: nat)
    requires m <= w <= |p|
  {
    forall k :: m <= k < w ==> p[k] != '*'
  }

  lemma {:induction false} BlockStep(p: string, m: nat, w: nat, s: string, j: nat)
    requires m <= w <= |p| && j <= |s| && StarFree(p, m, w)
    ensures MatchFrom(p, m, s, j) <==>
            BlockFits(p, m, w, s, j) && MatchFrom(p, w, s, j + (w - m))
    decreases w - m
  {
    if m < w {
      if j < |s| {
        BlockStep(p, m + 1, w, s, j + 1);
      }
    }
  }

  /** Reaching the next star with the block before it placed as early as possible loses nothing:
      the match from the earlier star and the match from the later one are the same question. */
  lemma {:induction false} LastStarSuffices(p: string, m: nat, w: nat, s: string, r: nat)
    requires 0 < m <= w < |p| && p[m - 1] == '*' && p[w] == '*' && StarFree(p, m, w)
    requires r <= |s| && BlockFits(p, m, w, s, r)
    ensures MatchFrom(p, m - 1, s, r) <==> MatchFrom(p, w, s, r + (w - m))
  {
    var i := r + (w - m);
    BlockStep(p, m, w, s, r);
    if MatchFrom(p, m - 1, s, r) {
      var j := StarWitness(p, m - 1, s, r);
      BlockStep(p, m, w, s, j);
      StarReachesBack(p, w, s, i, j + (w - m));
    }
  }

  predicate AllStars(p: string, w: nat)
    requires w <= |p|
  {
    forall k :: w <= k < |p| ==> p[k] == '*'
  }

  lemma {:induction false} EmptyTail(p: string, w: nat, s: string)
    requires w <= |p|
    ensures MatchFrom(p, w, s, |s|) <==> AllStars(p, w)
    decreases |p| - w
  {
    if w < |p| && p[w] == '*' {
      EmptyTail(p, w + 1, s);
    }
  }

  /** At the end of the string the earliest placement of the last block is the only one left. */
  lemma {:induction false} EndOfString(p: string, m: nat, w: nat, s: string, r: nat)
    requires 0 < m <= w <= |p| && p[m - 1] == '*' && StarFree(p, m, w)
    requires BlockFits(p, m, w, s, r) && r + (w - m) == |s|
    ensures MatchFrom(p, m - 1, s, r) <==> AllStars(p, w)
  {
    EmptyTail(p, w, s);
    BlockStep(p, m, w, s, r);
    if MatchFrom(p, m - 1, s, r) {
      var j := StarWitness(p, m - 1, s, r);
      BlockStep(p, m, w, s, j);
    }
  }

  // ------------------------------------------------------------- the matcher

  /** The second loop between two turns, once a star has been seen. `mp` is one past the last
      star, `cp` is where the next restart goes: every earlier restart has been ruled out, the
      block since the star fits at the current one, and the whole question has become whether
      the pattern from that star on matches from there. */
  predicate Searching(p: string, s: string, wild: nat, str: nat, mp: int, cp: int) {
    && 0 < mp <= wild <= |p| && mp < |p| && p[mp - 1] == '*'
    && 0 < cp <= |s| + 1 && str <= |s| && wild - mp == str - (cp - 1)
    && StarFree(p, mp, wild) && BlockFits(p, mp, wild, s, cp - 1)
    && (Matches(p, s) <==> MatchFrom(p, mp - 1, s, cp - 1))
  }

  lemma {:induction false} NextStar(p: string, s: string, wild: nat, str: nat, mp: int, cp: int)
    requires Searching(p, s, wild, str, mp, cp) && wild < |p| && p[wild] == '*'
    ensures Matches(p, s) <==> MatchFrom(p, wild, s, str)
  {
    LastStarSuffices(p, mp, wild, s, cp - 1);
  }

  lemma {:induction false} Restart(p: string, s: string, wild: nat, str: nat, mp: int, cp: int)
    requires Searching(p, s, wild, str, mp, cp) && str < |s|
    requires wild == |p| || (p[wild] != '*' && p[wild] != s[str] && p[wild] != '?')
    ensures Searching(p, s, mp, cp, mp, cp + 1)
  {
    BlockStep(p, mp, wild, s, cp - 1);
    assert !MatchFrom(p, mp, s, cp - 1);
  }

  lemma {:induction false} FreshStar(p: string, s: string, wild: nat, str: nat)
    requires wild + 1 < |p| && str <= |s| && p[wild] == '*'
    requires Matches(p, s) <==> MatchFrom(p, wild, s, str)
    ensures Searching(p, s, wild + 1, str, wild + 1, str + 1)
  {
  }

  lemma {:induction false} LockStep(p: string, s: string, wild: nat, str: nat, mp: int, cp: int)
    requires Searching(p, s, wild, str, mp, cp) && wild < |p| && str < |s|
    requires p[wild] != '*' && (p[wild] == s[str] || p[wild] == '?')
    ensures Searching(p, s, wild + 1, str + 1, mp, cp)
  {
  }

  lemma {:induction false} TrailingStar(p: string, s: string, str: nat)
    requires 0 < |p| && p[|p| - 1] == '*' && str <= |s|
    ensures MatchFrom(p, |p| - 1, s, str)
  {
    EmptyTail(p, |p| - 1, s);
    StarReachesBack(p, |p| - 1, s, str, |s|);
  }

  lemma {:induction false} Exhausted(p: string, s: string, wild: nat, mp: int, cp: int)
    requires Searching(p, s, wild, |s|, mp, cp)
    ensures Matches(p, s) <==> AllStars(p, wild)
  {
    EndOfString(p, mp, wild, s, cp - 1);
  }

  lemma FromTheStart(p: string, s: string)
    ensures Matches(p, s) <==> MatchFrom(p, 0, s, 0)
  {
  }

  /** Before any star, pattern and text go on together or not at all. */
  lemma OneCharacter(p: string, wild: nat, s: string, str: nat)
    requires wild <= |p| && str < |s| && (wild == |p| || p[wild] != '*')
    ensures MatchFrom(p, wild, s, str) <==>
            wild < |p| && (p[wild] == s[str] || p[wild] == '?') && MatchFrom(p, wild + 1, s, str + 1)
  {
  }

  /** `MOOSWildCmp`. `mp` and `cp` are the two saved pointers, -1 standing for NULL. */
  method WildCmp(pattern: string, text: string) returns (matched: bool)
    ensures matched <==> InLanguage(CString(pattern), CString(text))
    ensures matched == Wild(pattern, text)
  {
    var p, s := CString(pattern), CString(text);
    hide Searching, InLanguage, MatchFrom, Matches;
    MatchesIsLanguage(p, s);
    FromTheStart(p, s);
    var wild: nat, str: nat := 0, 0;
    var mp: int, cp: int := -1, -1;

    while str < |s| && (wild == |p| || p[wild] != '*')
      invariant wild <= |p| && str <= |s|
      invariant Matches(p, s) <==> MatchFrom(p, wild, s, str)
      decreases |s| - str
    {
      OneCharacter(p, wild, s, str);
      if wild == |p| || (p[wild] != s[str] && p[wild] != '?') {
        return false;
      }
      wild, str := wild + 1, str + 1;
    }

    while str < |s|
      invariant wild <= |p| && str <= |s|
      invariant mp == -1 ==> (Matches(p, s) <==> MatchFrom(p, wild, s, str))
      invariant mp == -1 ==> str < |s| ==> wild < |p| && p[wild] == '*'
      invariant mp != -1 ==> 0 < mp <= wild && mp < |p| && 0 < cp <= str + 1
      invariant mp != -1 ==> Searching(p, s, wild, str, mp, cp)
      decreases |p| - mp, |s| - cp, |s| - str
    {
      if wild < |p| && p[wild] == '*' {
        if mp != -1 {
          NextStar(p, s, wild, str, mp, cp);
        }
        wild := wild + 1;
        if wild == |p| {
          TrailingStar(p, s, str);
          return true;
        }
        FreshStar(p, s, wild - 1, str);
        mp, cp := wild, str + 1;
      } else if wild < |p| && (p[wild] == s[str] || p[wild] == '?') {
        LockStep(p, s, wild, str, mp, cp);
        wild, str := wild + 1, str + 1;
      } else {
        Restart(p, s, wild, str, mp, cp);
        wild := mp;
        str := cp;
        cp := cp + 1;
      }
    }

    if mp != -1 {
      Exhausted(p, s, wild, mp, cp);
    } else {
      EmptyTail(p, wild, s);
      assert str == |s|;
    }
    matched := StarsOnly(p, wild);
  }

  /** The last loop: only stars may be left over. */
  method StarsOnly(p: string, from: nat) returns (only: bool)
    requires from <= |p|
    ensures only <==> AllStars(p, from)
  {
    var wild := from;
    while wild < |p| && p[wild] == '*'
      invariant from <= wild <= |p|
      invariant forall k :: from <= k < wild ==> p[k] == '*'
    {
      wild := wild + 1;
    }
    only := wild == |p|;
  }
}
