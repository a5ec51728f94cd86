/** The read-write summary: the database prints, for every client, the variables it reads and the
    variables it writes; clients parse the string back. The separators are `,` between clients,
    `=` after the name, `&` between the lists and `:` inside them, and nothing is escaped. */
module RwSummary {
  import opened Strings
  import opened DbState

  // ------------------------------------------------------------------------------ chomping

  datatype Position = At(i: nat) | Nowhere

  /** Chomping at a token of one character: what is before it, and what is left. */
  function Chomp(s: string, token: char): (string, string) {
    if token in s then (s[..Cut(s, token)], s[Cut(s, token) + 1..]) else (s, [])
  }

  /** `toupper` in the C locale. */
  function ToUpper(c: char): char {
    if 'a' <= c <= 'z' then 'A' + (c - 'a') else c
  }

  predicate SameLetter(c: char, d: char, insensitive: bool) {
    c == d || (insensitive && ToUpper(c) == ToUpper(d))
  }

  /** The `i`-th letter of the alphabet, small or capital. */
  predicate Letter(c: char, i: int) {
    0 <= i < 26 && (c as int == 97 + i || c as int == 65 + i)
  }

  /** Regardless of case, a character is the same as itself and, if it is one of the twenty-six letters,
      as its other form; with regard to case, only as itself. */
  lemma SameLetterMeans(c: char, d: char, insensitive: bool)
    ensures SameLetter(c, d, insensitive) <==>
              c == d || (insensitive && exists i :: 0 <= i < 26 && Letter(c, i) && Letter(d, i))
  {
    if insensitive && ToUpper(c) == ToUpper(d) && c != d {
      var i := ToUpper(c) as int - 65;
      assert Letter(c, i) && Letter(d, i);
    }
  }

  predicate TokenAt(s: string, token: string, insensitive: bool, i: nat) {
    i + |token| <= |s| && forall j :: 0 <= j < |token| ==> SameLetter(s[i + j], token[j], insensitive)
  }

  predicate FirstAt(s: string, token: string, insensitive: bool, i: nat) {
    token != [] && TokenAt(s, token, insensitive, i) && forall k: nat :: k < i ==> !TokenAt(s, token, insensitive, k)
  }

  predicate Absent(s: string, token: string, insensitive: bool) {
    token == [] || forall k: nat :: k <= |s| ==> !TokenAt(s, token, insensitive, k)
  }

  /** `MOOSStrFind`: where a token first stands, with or without regard to case; an empty token
      stands nowhere. */
  method MOOSStrFind(s: string, token: string, insensitive: bool := false) returns (at: Position)
    ensures at.At? ==> FirstAt(s, token, insensitive, at.i)
    ensures at.Nowhere? <==> Absent(s, token, insensitive)
  {
    if token == [] {
      return Nowhere;
    }
    var i := 0;
    while i + |token| <= |s|
      invariant forall k: nat :: k < i ==> !TokenAt(s, token, insensitive, k)
    {
      var j := 0;
      while j < |token| && SameLetter(s[i + j], token[j], insensitive)
        invariant j <= |token| && forall k :: 0 <= k < j ==> SameLetter(s[i + k], token[k], insensitive)
      {
        j := j + 1;
      }
      if j == |token| {
        assert FirstAt(s, token, insensitive, i);
        return At(i);
      }
      i := i + 1;
    }
    return Nowhere;
  }

  /** `MOOSChomp`: what is before the first token, and what is left behind it. */
  method MOOSChomp(s: string, token: string, insensitive: bool := false) returns (head: string, rest: string)
    ensures if Absent(s, token, insensitive) then head == s && rest == []
            else FirstAt(s, token, insensitive, |head|) && s == head + s[|head|..|head| + |token|] + rest
    ensures |token| == 1 && !insensitive ==> (head, rest) == Chomp(s, token[0])
    ensures s != [] ==> |rest| < |s|
  {
    hide FirstAt, Absent, Chomp;
    var at := MOOSStrFind(s, token, insensitive);
    match at
    case At(i) =>
      FirstFits(s, token, insensitive, i);
      head, rest := s[..i], s[i + |token|..];
      if |token| == 1 && !insensitive {
        FoundIsCut(s, token, i);
      }
    case Nowhere =>
      head, rest := s, [];
      if |token| == 1 && !insensitive {
        NowhereKeepsAll(s, token);
      }
  }

  lemma FirstFits(s: string, token: string, insensitive: bool, i: nat)
    requires FirstAt(s, token, insensitive, i)
    ensures token != [] && i + |token| <= |s| && !Absent(s, token, insensitive)
    ensures s == s[..i] + s[i..i + |token|] + s[i + |token|..]
  {
  }

  lemma FoundIsCut(s: string, token: string, i: nat)
    requires |token| == 1 && FirstAt(s, token, false, i)
    ensures i < |s| && Chomp(s, token[0]) == (s[..i], s[i + 1..])
  {
    forall j | 0 <= j < i ensures s[j] != token[0] {
      assert !TokenAt(s, token, false, j);
    }
    assert SameLetter(s[i + 0], token[0], false);
    CutIs(s, token[0], i);
  }

  lemma NowhereKeepsAll(s: string, token: string)
    requires |token| == 1 && Absent(s, token, false)
    ensures Chomp(s, token[0]) == (s, [])
  {
    forall i | 0 <= i < |s| ensures s[i] != token[0] {
      assert !TokenAt(s, token, false, i);
    }
  }

  lemma ChompAt(head: string, token: char, tail: string)
    requires token !in head
    ensures Chomp(head + [token] + tail, token) == (head, tail)
  {
    CutIsAt(head, token, tail);
    var s := head + [token] + tail;
    assert s[..|head|] == head && s[|head| + 1..] == tail;
  }

  /** Chomping never leaves the token in the head, and shortens what is not empty. */
  lemma ChompShortens(s: string, token: char)
    ensures token !in Chomp(s, token).0 && (s != [] ==> |Chomp(s, token).1| < |s|)
    ensures forall c :: c in Chomp(s, token).0 || c in Chomp(s, token).1 ==> c in s
  {
  }

  // --------------------------------------------------------------------------------- lists

  /** `PrintCollection` with a colon. */
  function PrintList(names: seq<string>): string {
    if names == [] then []
    else if |names| == 1 then names[0]
    else names[0] + [':'] + PrintList(names[1..])
  }

  function ParseList(s: string): seq<string>
    decreases |s|
  {
    if s == [] then []
    else
      ChompShortens(s, ':');
      [Chomp(s, ':').0] + ParseList(Chomp(s, ':').1)
  }

  predicate NoneHas(names: seq<string>, c: char) {
    forall i :: 0 <= i < |names| ==> c !in names[i]
  }

  predicate LastNotEmpty(names: seq<string>) {
    names == [] || names[|names| - 1] != []
  }

  lemma {:induction false} ParsedHaveNo(s: string, c: char)
    requires c == ':' || c !in s
    ensures NoneHas(ParseList(s), c)
    decreases |s|
  {
    hide Chomp;
    if s != [] {
      ChompShortens(s, ':');
      ParsedHaveNo(Chomp(s, ':').1, c);
    }
  }

  lemma {:induction false} ColonFreeRoundTrip(names: seq<string>)
    requires NoneHas(names, ':')
    ensures ParseList(PrintList(names)) == names <==> LastNotEmpty(names)
  {
    hide Chomp;
    if names == [] {
    } else if |names| == 1 {
      OneName(names[0]);
    } else {
      ColonFreeRoundTrip(names[1..]);
      assert names == [names[0]] + names[1..];
      ChompAt(names[0], ':', PrintList(names[1..]));
    }
  }

  lemma OneName(name: string)
    requires ':' !in name
    ensures ParseList(name) == if name == [] then [] else [name]
  {
  }

  /** A list reads back if and only if no name has a colon and the last name is not empty. */
  lemma ListRoundTrip(names: seq<string>)
    ensures ParseList(PrintList(names)) == names <==> NoneHas(names, ':') && LastNotEmpty(names)
  {
    hide ParseList, PrintList;
    if NoneHas(names, ':') {
      ColonFreeRoundTrip(names);
    } else {
      ParsedHaveNo(PrintList(names), ':');
    }
  }

  lemma {:induction false} PrintedFree(names: seq<string>, c: char)
    requires c != ':'
    ensures c in PrintList(names) <==> !NoneHas(names, c)
  {
    if names == [] {
    } else if |names| == 1 {
    } else {
      PrintedFree(names[1..], c);
      NoneHasCons(names, c);
      hide NoneHas;
    }
  }

  lemma NoneHasCons(names: seq<string>, c: char)
    requires names != []
    ensures NoneHas(names, c) <==> c !in names[0] && NoneHas(names[1..], c)
  {
    if c !in names[0] && NoneHas(names[1..], c) {
      assert forall i :: 1 <= i < |names| ==> names[i] == names[1..][i - 1];
    }
    if NoneHas(names, c) {
      assert forall i :: 0 <= i < |names| - 1 ==> names[1..][i] == names[i + 1];
    }
  }

  // ------------------------------------------------------------------------------- entries

  /** What is known of a client. */
  datatype Status = Status(subscribes: seq<string>, publishes: seq<string>)

  datatype Entry = Entry(client: string, status: Status)

  function PrintEntry(e: Entry): string {
    e.client + ['='] + (PrintList(e.status.subscribes) + ['&'] + PrintList(e.status.publishes))
  }

  function ParseEntry(s: string): Entry {
    var (client, t) := Chomp(s, '=');
    var (subs, u) := Chomp(t, '&');
    var pubs := Chomp(u, '&').0;
    Entry(client, Status(ParseList(subs), ParseList(pubs)))
  }

  /** The names a list can carry through an entry. */
  predicate Carriable(names: seq<string>) {
    NoneHas(names, ':') && NoneHas(names, '&') && LastNotEmpty(names)
  }

  /** An entry reads back if and only if the client has no equals sign in its name and its lists
      are carriable. */
  lemma EntryRoundTrip(e: Entry)
    ensures ParseEntry(PrintEntry(e)) == e <==>
              '=' !in e.client && Carriable(e.status.subscribes) && Carriable(e.status.publishes)
  {
    hide Chomp, ParseList, PrintList, NoneHas, LastNotEmpty;
    var subs, pubs := e.status.subscribes, e.status.publishes;
    if '=' !in e.client {
      ChompAt(e.client, '=', PrintList(subs) + ['&'] + PrintList(pubs));
      PrintedFree(subs, '&');
      PrintedFree(pubs, '&');
      ListRoundTrip(subs);
      ListRoundTrip(pubs);
      if NoneHas(subs, '&') {
        ChompAt(PrintList(subs), '&', PrintList(pubs));
        PublishedPart(pubs);
      } else {
        SubscribedHasNo(e);
      }
    } else {
      ChompShortens(PrintEntry(e), '=');
    }
  }

  lemma PublishedPart(pubs: seq<string>)
    ensures NoneHas(pubs, '&') ==> Chomp(PrintList(pubs), '&').0 == PrintList(pubs)
    ensures !NoneHas(pubs, '&') ==> ParseList(Chomp(PrintList(pubs), '&').0) != pubs
  {
    hide ParseList, PrintList, NoneHas;
    PrintedFree(pubs, '&');
    ChompShortens(PrintList(pubs), '&');
    ParsedHaveNo(Chomp(PrintList(pubs), '&').0, '&');
  }

  lemma SubscribedHasNo(e: Entry)
    ensures NoneHas(ParseEntry(PrintEntry(e)).status.subscribes, '&')
  {
    hide Chomp, ParseList, PrintList, NoneHas;
    var t := Chomp(PrintEntry(e), '=').1;
    ChompShortens(t, '&');
    ParsedHaveNo(Chomp(t, '&').0, '&');
  }

  // ------------------------------------------------------------------------------- summary

  function PrintSummary(es: seq<Entry>): string {
    if es == [] then []
    else if |es| == 1 then PrintEntry(es[0])
    else PrintEntry(es[0]) + [','] + PrintSummary(es[1..])
  }

  /** The parsing loop: it stops at an empty entry and fails at a client without a name. */
  function ParseSummary(s: string, statuses: map<string, Status>): (bool, map<string, Status>)
    decreases |s|
  {
    if s == [] then (true, statuses)
    else
      ChompShortens(s, ',');
      var (entry, rest) := Chomp(s, ',');
      if entry == [] then (true, statuses)
      else
        var e := ParseEntry(entry);
        if e.client == [] then (false, statuses)
        else ParseSummary(rest, statuses[e.client := e.status])
  }

  function Recorded(es: seq<Entry>, statuses: map<string, Status>): map<string, Status> {
    if es == [] then statuses else Recorded(es[1..], statuses[es[0].client := es[0].status])
  }

  /** The entries the parsing loop meets, and whether it comes to an end without failing. */
  function ParsedEntries(s: string): (bool, seq<Entry>)
    decreases |s|
  {
    if s == [] then (true, [])
    else
      ChompShortens(s, ',');
      var (entry, rest) := Chomp(s, ',');
      if entry == [] then (true, [])
      else
        var e := ParseEntry(entry);
        if e.client == [] then (false, [])
        else (ParsedEntries(rest).0, [e] + ParsedEntries(rest).1)
  }

  lemma {:induction false} ParsingRecords(s: string, statuses: map<string, Status>)
    ensures ParseSummary(s, statuses) == (ParsedEntries(s).0, Recorded(ParsedEntries(s).1, statuses))
    decreases |s|
  {
    hide Chomp, ParseEntry;
    if s != [] {
      ChompShortens(s, ',');
      var e, rest := ParseEntry(Chomp(s, ',').0), Chomp(s, ',').1;
      ParsingRecords(rest, statuses[e.client := e.status]);
      assert ([e] + ParsedEntries(rest).1)[1..] == ParsedEntries(rest).1;
    }
  }

  predicate Commaless(e: Entry) {
    ',' !in e.client && NoneHas(e.status.subscribes, ',') && NoneHas(e.status.publishes, ',')
  }

  predicate Sendable(e: Entry) {
    && e.client != [] && '=' !in e.client
    && Carriable(e.status.subscribes) && Carriable(e.status.publishes) && Commaless(e)
  }

  lemma ParsedCommaless(s: string)
    requires ',' !in s
    ensures Commaless(ParseEntry(s))
  {
    hide Chomp, ParseList, NoneHas;
    ChompShortens(s, '=');
    var t := Chomp(s, '=').1;
    ChompShortens(t, '&');
    var u := Chomp(t, '&').1;
    ChompShortens(u, '&');
    ParsedHaveNo(Chomp(t, '&').0, ',');
    ParsedHaveNo(Chomp(u, '&').0, ',');
  }

  lemma {:induction false} AllParsedCommaless(s: string)
    ensures forall e :: e in ParsedEntries(s).1 ==> Commaless(e)
    decreases |s|
  {
    hide Chomp, ParseEntry, Commaless;
    if s != [] {
      ChompShortens(s, ',');
      ParsedCommaless(Chomp(s, ',').0);
      AllParsedCommaless(Chomp(s, ',').1);
    }
  }

  /** How a summary is written. */
  lemma PrintedForm(a: string, b: string, v: string, w: string, x: string)
    ensures PrintSummary([Entry(a, Status([v, w], [x])), Entry(b, Status([], [v]))]) ==
            a + "=" + v + ":" + w + "&" + x + "," + b + "=&" + v
  {
    var es := [Entry(a, Status([v, w], [x])), Entry(b, Status([], [v]))];
    assert [v, w][1..] == [w] && es[1..] == [es[1]];
    assert PrintList([v, w]) == v + [':'] + w;
    assert PrintSummary(es) == PrintEntry(es[0]) + [','] + PrintEntry(es[1]);
  }

  lemma EntryHasNoComma(e: Entry)
    requires Commaless(e)
    ensures ',' !in PrintEntry(e) && PrintEntry(e) != []
  {
    hide PrintList, NoneHas, LastNotEmpty;
    PrintedFree(e.status.subscribes, ',');
    PrintedFree(e.status.publishes, ',');
  }

  lemma LastEntry(s: string)
    requires ',' !in s
    ensures Chomp(s, ',') == (s, [])
  {
  }

  /** The first entry is cut off in front of the others. */
  lemma FirstEntry(es: seq<Entry>)
    requires es != [] && Commaless(es[0])
    ensures PrintSummary(es) != [] && PrintEntry(es[0]) != []
    ensures Chomp(PrintSummary(es), ',') == (PrintEntry(es[0]), PrintSummary(es[1..]))
  {
    hide Chomp, PrintEntry, Commaless;
    EntryHasNoComma(es[0]);
    if |es| == 1 {
      LastEntry(PrintEntry(es[0]));
    } else {
      ChompAt(PrintEntry(es[0]), ',', PrintSummary(es[1..]));
    }
  }

  lemma OneSendable(e: Entry)
    requires Commaless(e)
    ensures ParseEntry(PrintEntry(e)) == e && e.client != [] <==> Sendable(e)
  {
    hide ParseEntry, PrintEntry, Carriable, Commaless;
    EntryRoundTrip(e);
  }

  lemma {:induction false} CommalessRoundTrip(es: seq<Entry>)
    requires forall e :: e in es ==> Commaless(e)
    ensures ParsedEntries(PrintSummary(es)) == (true, es) <==> forall e :: e in es ==> Sendable(e)
  {
    hide Chomp, ParseEntry, PrintEntry, Sendable, Commaless;
    if es != [] {
      FirstEntry(es);
      OneSendable(es[0]);
      CommalessRoundTrip(es[1..]);
      hide PrintSummary;
      assert es == [es[0]] + es[1..];
    }
  }

  /** A summary reads back as the entries it was printed from if and only if all of them are
      sendable. */
  lemma EntriesRoundTrip(es: seq<Entry>)
    ensures ParsedEntries(PrintSummary(es)) == (true, es) <==> forall e :: e in es ==> Sendable(e)
  {
    hide ParsedEntries, PrintSummary, Commaless;
    if ParsedEntries(PrintSummary(es)) == (true, es) {
      AllParsedCommaless(PrintSummary(es));
      CommalessRoundTrip(es);
    } else if forall e :: e in es ==> Sendable(e) {
      CommalessRoundTrip(es);
    }
  }

  /** A summary of sendable entries is recorded entry by entry, on top of what was known. */
  lemma SummaryRoundTrip(es: seq<Entry>, statuses: map<string, Status>)
    requires forall e :: e in es ==> Sendable(e)
    ensures ParseSummary(PrintSummary(es), statuses) == (true, Recorded(es, statuses))
  {
    hide ParsedEntries, PrintSummary, ParseSummary, Recorded;
    EntriesRoundTrip(es);
    ParsingRecords(PrintSummary(es), statuses);
  }

  lemma {:induction false} RecordedLast(es: seq<Entry>, statuses: map<string, Status>, i: nat)
    requires i < |es| && forall j :: i < j < |es| ==> es[j].client != es[i].client
    ensures es[i].client in Recorded(es, statuses) && Recorded(es, statuses)[es[i].client] == es[i].status
  {
    if i == 0 {
      OthersRecorded(es[1..], statuses[es[0].client := es[0].status], es[0].client);
    } else {
      RecordedLast(es[1..], statuses[es[0].client := es[0].status], i - 1);
    }
  }

  lemma {:induction false} OthersRecorded(es: seq<Entry>, statuses: map<string, Status>, c: string)
    requires forall j :: 0 <= j < |es| ==> es[j].client != c
    ensures c in Recorded(es, statuses) <==> c in statuses
    ensures c in statuses ==> Recorded(es, statuses)[c] == statuses[c]
  {
    if es != [] {
      OthersRecorded(es[1..], statuses[es[0].client := es[0].status], c);
    }
  }

  // ------------------------------------------------------------------- from the variables

  /** The variables, in the order of the map, of which `c` is a subscriber. */
  function SubscribedIn(vars: map<string, DbVar>, order: seq<string>, c: string): (r: seq<string>)
    requires forall k :: k in order ==> k in vars
    ensures forall k :: k in r <==> k in order && c in vars[k].subscribers
  {
    if order == [] then []
    else
      var n := |order| - 1;
      assert order == order[..n] + [order[n]];
      SubscribedIn(vars, order[..n], c) + if c in vars[order[n]].subscribers then [order[n]] else []
  }

  /** The variables, in the order of the map, that `c` has written. */
  function WrittenIn(vars: map<string, DbVar>, order: seq<string>, c: string): (r: seq<string>)
    requires forall k :: k in order ==> k in vars
    ensures forall k :: k in r <==> k in order && c in vars[k].writers
  {
    if order == [] then []
    else
      var n := |order| - 1;
      assert order == order[..n] + [order[n]];
      WrittenIn(vars, order[..n], c) + if c in vars[order[n]].writers then [order[n]] else []
  }

  lemma ListedLast(vars: map<string, DbVar>, order: seq<string>, k: string, c: string)
    requires k in vars && forall j :: j in order ==> j in vars
    ensures SubscribedIn(vars, order + [k], c) ==
            SubscribedIn(vars, order, c) + if c in vars[k].subscribers then [k] else []
    ensures WrittenIn(vars, order + [k], c) == WrittenIn(vars, order, c) + if c in vars[k].writers then [k] else []
  {
    assert (order + [k])[..|order|] == order;
  }

  lemma NothingListed(vars: map<string, DbVar>, c: string)
    ensures SubscribedIn(vars, [], c) == [] && WrittenIn(vars, [], c) == []
  {
  }

  /** The lists keep the order of the map, each variable where it stands in it. */
  lemma {:induction false} ListsFollowOrder(vars: map<string, DbVar>, a: seq<string>, b: seq<string>, c: string)
    requires forall k :: k in a || k in b ==> k in vars
    ensures SubscribedIn(vars, a + b, c) == SubscribedIn(vars, a, c) + SubscribedIn(vars, b, c)
    ensures WrittenIn(vars, a + b, c) == WrittenIn(vars, a, c) + WrittenIn(vars, b, c)
    decreases |b|
  {
    hide SubscribedIn, WrittenIn;
    NothingListed(vars, c);
    if b == [] {
      assert a + b == a;
    } else {
      var n := |b| - 1;
      assert b[n] in b;
      ListsFollowOrder(vars, a, b[..n], c);
      ListedLast(vars, a + b[..n], b[n], c);
      ListedLast(vars, b[..n], b[n], c);
      assert a + b == a + b[..n] + [b[n]] && b == b[..n] + [b[n]];
    }
  }

  function Entries(vars: map<string, DbVar>, order: seq<string>, clients: seq<string>): (es: seq<Entry>)
    requires forall k :: k in order ==> k in vars
    ensures |es| == |clients|
    ensures forall i :: 0 <= i < |clients| ==>
              es[i] == Entry(clients[i],
                    Status(SubscribedIn(vars, order, clients[i]), WrittenIn(vars, order, clients[i])))
  {
    seq(|clients|, i requires 0 <= i < |clients| =>
      Entry(clients[i], Status(SubscribedIn(vars, order, clients[i]), WrittenIn(vars, order, clients[i]))))
  }

  predicate GoodClient(c: string) {
    c != [] && '=' !in c && ',' !in c
  }

  predicate GoodVariable(k: string) {
    k != [] && ',' !in k && '&' !in k && ':' !in k
  }

  lemma GoodNamesCarry(names: seq<string>)
    requires forall k :: k in names ==> GoodVariable(k)
    ensures Carriable(names) && NoneHas(names, ',')
  {
    forall i | 0 <= i < |names| ensures GoodVariable(names[i]) {
      assert names[i] in names;
    }
  }

  /** From the database to the client: a client that parses the printed summary knows of each
      listed client exactly which variables it subscribes to and which it has written. */
  lemma SummaryTellsTheTruth(vars: map<string, DbVar>, order: seq<string>, clients: seq<string>,
                             statuses: map<string, Status>, c: string)
    requires forall k :: k in order <==> k in vars
    requires (forall k :: k in vars ==> GoodVariable(k)) && forall d :: d in clients ==> GoodClient(d)
    requires c in clients && forall i, j :: 0 <= i < j < |clients| ==> clients[i] != clients[j]
    ensures var (ok, after) := ParseSummary(PrintSummary(Entries(vars, order, clients)), statuses);
            && ok && c in after
            && after[c] == Status(SubscribedIn(vars, order, c), WrittenIn(vars, order, c))
            && (forall k :: k in after[c].subscribes <==> k in vars && c in vars[k].subscribers)
            && (forall k :: k in after[c].publishes <==> k in vars && c in vars[k].writers)
  {
    hide PrintSummary, ParseSummary, Recorded, SubscribedIn, WrittenIn, GoodVariable, Carriable, NoneHas;
    var es := Entries(vars, order, clients);
    forall i | 0 <= i < |es| ensures Sendable(es[i]) {
      assert clients[i] in clients;
      GoodNamesCarry(es[i].status.subscribes);
      GoodNamesCarry(es[i].status.publishes);
    }
    SummaryRoundTrip(es, statuses);
    var i :| 0 <= i < |clients| && clients[i] == c;
    RecordedLast(es, statuses, i);
  }

  // ------------------------------------------------------------------------- the two programs

  /** `PrintCollection` with a colon. */
  method PrintCollection(names: seq<string>) returns (out: string)
    ensures out == PrintList(names)
  {
    out := [];
    var q := 0;
    assert names[0..] == names;
    while q < |names|
      invariant 0 <= q <= |names| && out + PrintList(names[q..]) == PrintList(names)
    {
      assert names[q..][1..] == names[q + 1..];
      out := out + names[q];
      q := q + 1;
      if q < |names| {
        out := out + [':'];
      }
    }
  }

  function Listed(lists: map<string, seq<string>>, c: string): seq<string> {
    if c in lists then lists[c] else []
  }

  /** One variable's name goes on the list of each of the clients. */
  method PushName(lists0: map<string, seq<string>>, clients: set<string>, name: string)
      returns (lists: map<string, seq<string>>)
    ensures forall c :: Listed(lists, c) == Listed(lists0, c) + if c in clients then [name] else []
  {
    hide Listed;
    lists := lists0;
    var todo := clients;
    while todo != {}
      invariant todo <= clients
      invariant forall c :: Listed(lists, c) == Listed(lists0, c) + if c in clients && c !in todo then [name] else []
      decreases |todo|
    {
      var c :| c in todo;
      ListedAfter(lists, c, Listed(lists, c) + [name]);
      lists := lists[c := Listed(lists, c) + [name]];
      todo := todo - {c};
    }
  }

  lemma ListedAfter(lists: map<string, seq<string>>, c: string, names: seq<string>)
    ensures forall d :: Listed(lists[c := names], d) == if d == c then names else Listed(lists, d)
  {
    forall d ensures Listed(lists[c := names], d) == if d == c then names else Listed(lists, d) {
      if d != c {
        assert d in lists[c := names] <==> d in lists;
      }
    }
  }

  /** `UpdateReadWriteSummaryVar`: the string, for the variables met in `order` and the clients
      the server knows. */
  method Summarise(vars: map<string, DbVar>, order: seq<string>, clients: seq<string>) returns (s: string)
    requires forall k :: k in order ==> k in vars
    ensures s == PrintSummary(Entries(vars, order, clients))
  {
    hide PrintList, PrintSummary, SubscribedIn, WrittenIn;
    var pub: map<string, seq<string>>, sub: map<string, seq<string>> := map[], map[];
    NothingIn(vars, order);
    for i := 0 to |order|
      invariant forall c :: Listed(sub, c) == SubscribedIn(vars, order[..i], c)
      invariant forall c :: Listed(pub, c) == WrittenIn(vars, order[..i], c)
    {
      var v := vars[order[i]];
      OneMoreIn(vars, order, i);
      sub := PushName(sub, v.subscribers.Keys, order[i]);
      pub := PushName(pub, v.writers, order[i]);
    }
    assert order[..|order|] == order;
    s := PrintEntries(clients, sub, pub, Entries(vars, order, clients));
  }

  lemma NothingIn(vars: map<string, DbVar>, order: seq<string>)
    requires forall k :: k in order ==> k in vars
    ensures forall c :: SubscribedIn(vars, order[..0], c) == [] && WrittenIn(vars, order[..0], c) == []
  {
  }

  lemma OneMoreIn(vars: map<string, DbVar>, order: seq<string>, i: nat)
    requires i < |order| && forall k :: k in order ==> k in vars
    ensures forall c :: SubscribedIn(vars, order[..i + 1], c) ==
              SubscribedIn(vars, order[..i], c) + if c in vars[order[i]].subscribers then [order[i]] else []
    ensures forall c :: WrittenIn(vars, order[..i + 1], c) ==
              WrittenIn(vars, order[..i], c) + if c in vars[order[i]].writers then [order[i]] else []
  {
    assert order[..i + 1][..i] == order[..i];
  }

  method PrintEntries(clients: seq<string>, sub: map<string, seq<string>>, pub: map<string, seq<string>>,
                      ghost es: seq<Entry>) returns (s: string)
    requires |es| == |clients|
    requires forall i :: 0 <= i < |es| ==>
               es[i] == Entry(clients[i], Status(Listed(sub, clients[i]), Listed(pub, clients[i])))
    ensures s == PrintSummary(es)
  {
    hide PrintList, PrintEntry, PrintSummary;
    s := [];
    var q := 0;
    assert es[0..] == es;
    while q < |clients|
      invariant 0 <= q <= |clients| && s + PrintSummary(es[q..]) == PrintSummary(es)
    {
      var subs := PrintCollection(Listed(sub, clients[q]));
      var pubs := PrintCollection(Listed(pub, clients[q]));
      PrintedEntry(es[q]);
      SummaryStep(s, es, q);
      ghost var text := PrintEntry(es[q]);
      s := s + (clients[q] + ['='] + subs + ['&'] + pubs);
      q := q + 1;
      if q < |clients| {
        s := s + [','];
      }
    }
    assert es[q..] == [];
    NothingPrinted();
  }

  lemma NothingPrinted()
    ensures PrintSummary([]) == []
  {
  }

  /** What is printed, one more entry, and the rest. */
  lemma SummaryStep(s: string, es: seq<Entry>, q: nat)
    requires q < |es|
    ensures var next := s + PrintEntry(es[q]);
            (if q + 1 < |es| then next + [','] else next) + PrintSummary(es[q + 1..]) == s + PrintSummary(es[q..])
  {
    hide PrintEntry;
    assert es[q..][0] == es[q] && es[q..][1..] == es[q + 1..];
    if q + 1 < |es| {
      Assoc(s, PrintEntry(es[q]), [','], PrintSummary(es[q + 1..]));
    } else {
      assert s + PrintEntry(es[q]) + [] == s + PrintEntry(es[q]);
    }
  }

  lemma Assoc(a: string, b: string, c: string, d: string)
    ensures a + b + c + d == a + (b + c + d)
  {
  }

  lemma PrintedEntry(e: Entry)
    ensures PrintEntry(e) == e.client + ['='] + PrintList(e.status.subscribes) + ['&'] + PrintList(e.status.publishes)
  {
  }

  /** The part of the client object that keeps what the summaries say. */
  class StatusMonitor {
    var statuses: map<string, Status>

    constructor ()
      ensures statuses == map[]
    {
      statuses := map[];
    }

    method ParseNames(s: string) returns (names: seq<string>)
      ensures names == ParseList(s)
    {
      hide Chomp;
      names := [];
      var rest := s;
      while rest != []
        invariant names + ParseList(rest) == ParseList(s)
        decreases |rest|
      {
        ghost var before, had := rest, names;
        var name;
        name, rest := MOOSChomp(rest, ":");
        names := names + [name];
        assert had + ([name] + ParseList(rest)) == names + ParseList(rest);
      }
    }

    /** `ProcessClientCommsStatusSummary` for the read-write summary, on any string. */
    method ProcessReadWriteSummary(text: string) returns (ok: bool)
      modifies this
      ensures (ok, statuses) == ParseSummary(text, old(statuses))
    {
      hide Chomp, ParseList;
      var s := text;
      while s != []
        invariant ParseSummary(s, statuses) == ParseSummary(text, old(statuses))
        decreases |s|
      {
        var entry, client, subs, pubs;
        entry, s := MOOSChomp(s, ",");
        if entry == [] {
          return true;
        }
        client, entry := MOOSChomp(entry, "=");
        subs, entry := MOOSChomp(entry, "&");
        pubs, entry := MOOSChomp(entry, "&");
        if client == [] {
          return false;
        }
        var subscribes := ParseNames(subs);
        var publishes := ParseNames(pubs);
        statuses := statuses[client := Status(subscribes, publishes)];
      }
      ok := true;
    }
  }
}
