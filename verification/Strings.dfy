/** Finding a character in a string, which is what cutting telegrams off a serial stream and
    chomping fields off a summary both come down to. */
module Strings {

  /** The position of the first `term`, or the length. */
  function Cut(s: string, term: char): (i: nat)
    ensures i <= |s| && term !in s[..i] && (i < |s| ==> s[i] == term)
    ensures i == |s| <==> term !in s
  {
    if s == [] || s[0] == term then 0
    else
      var i := Cut(s[1..], term);
      assert s[..i + 1] == [s[0]] + s[1..][..i];
      assert s == [s[0]] + s[1..];
      i + 1
  }

  lemma {:induction false} CutIs(s: string, term: char, i: nat)
    requires i <= |s| && (forall j :: 0 <= j < i ==> s[j] != term) && (i < |s| ==> s[i] == term)
    ensures Cut(s, term) == i
  {
    var c := Cut(s, term);
    assert forall j :: 0 <= j < c ==> s[..c][j] == s[j];
  }

  lemma CutIsAt(head: string, term: char, tail: string)
    requires term !in head
    ensures Cut(head + [term] + tail, term) == |head| && term in head + [term] + tail
  {
    var s := head + [term] + tail;
    assert s[|head|] == term;
    assert forall j :: 0 <= j < |head| ==> s[j] == head[j];
    CutIs(s, term, |head|);
  }
}
