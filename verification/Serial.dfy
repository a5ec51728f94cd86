/** Putting telegrams together from a serial line. Bytes come in reads of any size; a telegram
    ends at a terminator. The accumulator is a fixed array shuffled in place. */
module Serial {
  import Glob
  import opened Strings

  const DEFAULT_COMMS_SPACE: nat := 1000
  const ACCUMULATOR_SPACE: nat := 2 * DEFAULT_COMMS_SPACE
  const INBOX_MAX_SIZE: nat := 1000

  // ------------------------------------------------------------------- what should come out

  /** The string without the characters of `tok`. */
  function Without(s: string, tok: string): (r: string)
    ensures forall c :: c in r <==> c in s && c !in tok
  {
    if s == [] then []
    else
      var rest := Without(s[..|s| - 1], tok);
      assert s == s[..|s| - 1] + [s[|s| - 1]];
      if s[|s| - 1] in tok then rest else rest + [s[|s| - 1]]
  }

  /** A telegram is read as a C string and loses its line ends. */
  function Telegram(raw: string): string {
    Without(Glob.CString(raw), "\r\n")
  }

  /** The telegrams of a stream: its pieces up to and with each terminator. */
  function Telegrams(s: string, term: char): seq<string> {
    if term !in s then []
    else [Telegram(s[..Cut(s, term) + 1])] + Telegrams(s[Cut(s, term) + 1..], term)
  }

  /** What follows the last terminator. */
  function Left(s: string, term: char): (r: string)
    ensures term !in r && |r| <= |s|
  {
    if term !in s then s else Left(s[Cut(s, term) + 1..], term)
  }

  /** One read: an overflow forgets what was stored and what was read. */
  function Stored(store: string, chunk: string, term: char): string {
    if |store| + |chunk| > ACCUMULATOR_SPACE then [] else Left(store + chunk, term)
  }

  function Extracted(store: string, chunk: string, term: char): seq<string> {
    if |store| + |chunk| > ACCUMULATOR_SPACE then [] else Telegrams(store + chunk, term)
  }

  /** The inbox with telegrams put in front, one by one. */
  function Fronted(inbox: seq<string>, ts: seq<string>): (r: seq<string>)
    ensures |r| == |inbox| + |ts|
    ensures forall i :: 0 <= i < |ts| ==> r[i] == ts[|ts| - 1 - i]
    ensures r[|ts|..] == inbox
  {
    if ts == [] then inbox
    else
      var n := |ts| - 1;
      var r := Fronted(inbox, ts[..n]);
      assert r == r[..n] + r[n..];
      [ts[n]] + r
  }

  function Newest(inbox: seq<string>): seq<string> {
    if |inbox| > INBOX_MAX_SIZE then inbox[..INBOX_MAX_SIZE] else inbox
  }

  /** The port between two reads; `telegrams` records all that were ever extracted. */
  datatype Port = Port(store: string, telegrams: seq<string>, inbox: seq<string>)

  function OneRead(p: Port, chunk: string, term: char): Port {
    Port(Stored(p.store, chunk, term), p.telegrams + Extracted(p.store, chunk, term),
         if |p.store| + |chunk| > ACCUMULATOR_SPACE then p.inbox
         else Newest(Fronted(p.inbox, Extracted(p.store, chunk, term))))
  }

  // ----------------------------------------------------------------------------- the loops

  /** `std::remove` of one character. */
  method Remove(s: string, c: char) returns (r: string)
    ensures r == Without(s, [c])
  {
    r := [];
    for i := 0 to |s|
      invariant r == Without(s[..i], [c])
    {
      assert s[..i + 1][..i] == s[..i];
      if s[i] != c {
        r := r + [s[i]];
      }
    }
    assert s[..|s|] == s;
  }

  method MOOSRemoveChars(s: string, tok: string) returns (r: string)
    ensures r == Without(s, tok)
  {
    hide Without;
    r := s;
    WithoutNothing(s);
    assert tok[..0] == [];
    for i := 0 to |tok|
      invariant r == Without(s, tok[..i])
    {
      WithoutMore(s, tok[..i], tok[i]);
      r := Remove(r, tok[i]);
      assert tok[..i + 1] == tok[..i] + [tok[i]];
    }
    assert tok[..|tok|] == tok;
  }

  lemma {:induction false} WithoutNothing(s: string)
    ensures Without(s, []) == s
  {
    if s != [] {
      WithoutNothing(s[..|s| - 1]);
      assert s == s[..|s| - 1] + [s[|s| - 1]];
    }
  }

  lemma {:induction false} WithoutMore(s: string, tok: string, c: char)
    ensures Without(Without(s, tok), [c]) == Without(s, tok + [c])
  {
    if s != [] {
      var n := |s| - 1;
      WithoutMore(s[..n], tok, c);
      var rest := Without(s[..n], tok);
      assert (rest + [s[n]])[..|rest|] == rest;
    }
  }

  class SerialPort {
    const terminator: char
    const accumulator: array<char>
    var inStore: nat
    var received: seq<string>

    ghost predicate Valid()
      reads this, accumulator
    {
      accumulator.Length == ACCUMULATOR_SPACE && inStore <= ACCUMULATOR_SPACE
    }

    ghost function Store(): string
      requires Valid()
      reads this, accumulator
    {
      accumulator[..inStore]
    }

    constructor (term: char)
      ensures Valid() && terminator == term && Store() == [] && received == [] && fresh(accumulator)
    {
      terminator := term;
      accumulator := new char[ACCUMULATOR_SPACE];
      inStore := 0;
      received := [];
    }

    /** `memchr` for the terminator among the stored bytes. */
    method FindTerminator() returns (at: nat)
      requires Valid()
      ensures at == Cut(Store(), terminator)
    {
      at := 0;
      while at < inStore && accumulator[at] != terminator
        invariant at <= inStore && forall j :: 0 <= j < at ==> accumulator[j] != terminator
      {
        at := at + 1;
      }
      CutIs(Store(), terminator, at);
    }

    /** Takes one telegram off the front of the accumulator and shuffles the rest up. */
    method TakeTelegram(n: nat)
      requires Valid() && 0 < n <= inStore
      modifies this, accumulator
      ensures Valid() && Store() == old(Store())[n..]
      ensures received == [Telegram(old(Store())[..n])] + old(received)
    {
      var telegram := Glob.CString(accumulator[..n]);
      assert accumulator[..n] == Store()[..n];
      telegram := MOOSRemoveChars(telegram, "\r\n");
      forall i | 0 <= i < accumulator.Length - n {
        accumulator[i] := accumulator[i + n];
      }
      inStore := inStore - n;
      received := [telegram] + received;
      assert Store() == old(Store())[n..];
    }

    /** Extracting every complete telegram. */
    method ExtractAll()
      requires Valid()
      modifies this, accumulator
      ensures Valid() && Store() == Left(old(Store()), terminator)
      ensures received == Fronted(old(received), Telegrams(old(Store()), terminator))
    {
      hide Telegrams, Left, Cut, Fronted, Telegram;
      ghost var all, inbox, ts := Store(), received, [];
      FrontedNone(inbox);
      assert [] + Telegrams(all, terminator) == Telegrams(all, terminator);
      var more := true;
      while more
        invariant Valid() && received == Fronted(inbox, ts)
        invariant ts + Telegrams(Store(), terminator) == Telegrams(all, terminator)
        invariant Left(Store(), terminator) == Left(all, terminator)
        invariant !more ==> terminator !in Store()
        decreases inStore, more
      {
        var telegramEnd := FindTerminator();
        more := telegramEnd < inStore;
        FirstTelegram(Store(), terminator);
        if more {
          ghost var t := Telegram(Store()[..telegramEnd + 1]);
          FrontedOneMore(inbox, ts, t);
          TakeTelegram(telegramEnd + 1);
          OneMoreTelegram(ts, t, Telegrams(Store(), terminator));
          ts := ts + [t];
        }
      }
      NoTelegram(Store(), terminator);
      assert ts + [] == ts;
    }

    /** One turn of `CommsLoop` with the bytes of one read. */
    method OnRead(bytes: string)
      requires Valid() && |bytes| <= DEFAULT_COMMS_SPACE
      modifies this, accumulator
      ensures Valid()
      ensures var p := OneRead(Port(old(Store()), [], old(received)), bytes, terminator);
              Store() == p.store && received == p.inbox
    {
      hide Telegrams, Left, Fronted;
      if inStore + |bytes| > ACCUMULATOR_SPACE {
        inStore := 0;
        return;
      }
      forall i | 0 <= i < |bytes| {
        accumulator[inStore + i] := bytes[i];
      }
      inStore := inStore + |bytes|;
      assert Store() == old(Store()) + bytes;
      ExtractAll();
      ghost var full := received;
      while |received| > INBOX_MAX_SIZE
        invariant |received| <= |full| && received == full[..|received|]
        invariant Valid() && Store() == Stored(old(Store()), bytes, terminator)
        invariant |received| < |full| ==> |received| >= INBOX_MAX_SIZE
      {
        received := received[..|received| - 1];
      }
    }
  }

  lemma OneMoreTelegram(ts: seq<string>, t: string, rest: seq<string>)
    ensures ts + ([t] + rest) == ts + [t] + rest
  {
  }

  /** The leftover is the end of the stream from behind the last terminator. */
  lemma {:induction false} LeftIsTail(s: string, term: char)
    ensures var r := Left(s, term);
            && term !in r && |r| <= |s| && r == s[|s| - |r|..]
            && (|r| < |s| ==> s[|s| - |r| - 1] == term)
            && (|r| == |s| <==> term !in s)
  {
    hide Left, Cut;
    if term in s {
      var n := Cut(s, term) + 1;
      var tail := s[n..];
      LeftIsTail(tail, term);
      LeftStep(s, term);
      DropDrop(s, n, |tail| - |Left(tail, term)|);
    } else {
      LeftWhole(s, term);
    }
  }

  lemma DropDrop(s: string, n: nat, k: nat)
    requires n + k <= |s|
    ensures s[n..][k..] == s[n + k..]
    ensures k > 0 ==> s[n..][k - 1] == s[n + k - 1]
  {
  }

  lemma LeftWhole(s: string, term: char)
    requires term !in s
    ensures Left(s, term) == s == s[0..]
  {
  }

  lemma LeftStep(s: string, term: char)
    requires term in s
    ensures Left(s, term) == Left(s[Cut(s, term) + 1..], term)
  {
    hide Cut;
  }

  lemma FirstTelegram(s: string, term: char)
    ensures Cut(s, term) <= |s| && (Cut(s, term) < |s| <==> term in s)
    ensures term in s ==>
              var n := Cut(s, term) + 1;
              Telegrams(s, term) == [Telegram(s[..n])] + Telegrams(s[n..], term) && Left(s, term) == Left(s[n..], term)
  {
    hide Cut, Telegram;
  }

  lemma NoTelegram(s: string, term: char)
    requires term !in s
    ensures Telegrams(s, term) == [] && Left(s, term) == s
  {
  }

  lemma FrontedNone(inbox: seq<string>)
    ensures Fronted(inbox, []) == inbox
  {
  }

  lemma FrontedOneMore(inbox: seq<string>, ts: seq<string>, t: string)
    ensures Fronted(inbox, ts + [t]) == [t] + Fronted(inbox, ts)
  {
    assert (ts + [t])[..|ts|] == ts;
  }

  // ------------------------------------------------------------- however the stream is cut

  /** Splitting a stream in two, the leftover of the first part goes in front of the second. */
  lemma {:induction false} SplitAnywhere(a: string, b: string, term: char)
    ensures Telegrams(a + b, term) == Telegrams(a, term) + Telegrams(Left(a, term) + b, term)
    ensures Left(a + b, term) == Left(Left(a, term) + b, term)
    decreases |a|
  {
    hide Cut, Telegram, Telegrams, Left;
    if term !in a {
      NoTelegram(a, term);
      assert [] + Telegrams(a + b, term) == Telegrams(a + b, term);
    } else {
      var n := Cut(a, term) + 1;
      assert (a + b)[..n] == a[..n] && (a + b)[n..] == a[n..] + b;
      SameCut(a, b, term);
      FirstTelegram(a, term);
      FirstTelegram(a + b, term);
      SplitAnywhere(a[n..], b, term);
      assert [Telegram(a[..n])] + (Telegrams(a[n..], term) + Telegrams(Left(a[n..], term) + b, term)) ==
             [Telegram(a[..n])] + Telegrams(a[n..], term) + Telegrams(Left(a[n..], term) + b, term);
    }
  }

  lemma SameCut(a: string, b: string, term: char)
    requires term in a
    ensures Cut(a + b, term) == Cut(a, term) < |a| && term in a + b
  {
    hide Cut;
    var i := Cut(a, term);
    assert forall j :: 0 <= j < i ==> a[..i][j] == a[j] && (a + b)[j] == a[j];
    CutIs(a + b, term, i);
  }

  function Concat(chunks: seq<string>): string {
    if chunks == [] then [] else Concat(chunks[..|chunks| - 1]) + chunks[|chunks| - 1]
  }

  /** The port after some reads. */
  function Fed(chunks: seq<string>, term: char): Port {
    if chunks == [] then Port([], [], [])
    else OneRead(Fed(chunks[..|chunks| - 1], term), chunks[|chunks| - 1], term)
  }

  /** After these reads the telegrams are those of the whole stream and the store is its tail. */
  predicate Agrees(chunks: seq<string>, term: char) {
    && Fed(chunks, term).store == Left(Concat(chunks), term)
    && Fed(chunks, term).telegrams == Telegrams(Concat(chunks), term)
  }

  /** The read fits behind the unterminated tail of what came before. */
  predicate ReadFits(before: string, chunk: string, term: char) {
    |Left(before, term)| + |chunk| <= ACCUMULATOR_SPACE
  }

  /** One more read agrees exactly when it fits. */
  lemma AgreesStep(chunks: seq<string>, chunk: string, term: char)
    requires Agrees(chunks, term)
    ensures Agrees(chunks + [chunk], term) <==> ReadFits(Concat(chunks), chunk, term)
  {
    hide Telegrams, Left, Newest;
    var all := Concat(chunks);
    var store := Left(all, term);
    assert (chunks + [chunk])[..|chunks|] == chunks;
    SplitAnywhere(all, chunk, term);
    assert Concat(chunks + [chunk]) == all + chunk;
    if |store| + |chunk| > ACCUMULATOR_SPACE {
      OverflowLoses(all, chunk, term);
      assert Fed(chunks + [chunk], term).store == []
             && Fed(chunks + [chunk], term).telegrams == Telegrams(all, term) + [];
    }
  }

  /** Forgetting the store and the read loses the tail or a telegram. */
  lemma OverflowLoses(all: string, chunk: string, term: char)
    requires Left(all, term) + chunk != []
    ensures Left(all + chunk, term) != [] || |Telegrams(all + chunk, term)| > |Telegrams(all, term)|
  {
    SplitAnywhere(all, chunk, term);
    var rest := Left(all, term) + chunk;
    if term !in rest {
      assert Left(rest, term) == rest;
    } else {
      assert |Telegrams(rest, term)| > 0;
    }
  }

  predicate AgreesThroughout(chunks: seq<string>, term: char) {
    Agrees(chunks, term) && (chunks == [] || AgreesThroughout(chunks[..|chunks| - 1], term))
  }

  predicate AllReadsFit(chunks: seq<string>, term: char) {
    chunks == [] ||
      (ReadFits(Concat(chunks[..|chunks| - 1]), chunks[|chunks| - 1], term)
       && AllReadsFit(chunks[..|chunks| - 1], term))
  }

  /** How a stream is cut into reads makes no difference, after every read, if and only if every
      read fits behind the unterminated tail so far. */
  lemma {:induction false} CutsMakeNoDifference(chunks: seq<string>, term: char)
    ensures AgreesThroughout(chunks, term) <==> AllReadsFit(chunks, term)
  {
    hide Agrees, ReadFits;
    if chunks == [] {
      NothingAgrees(term);
    } else {
      var n := |chunks| - 1;
      CutsMakeNoDifference(chunks[..n], term);
      if AgreesThroughout(chunks[..n], term) {
        AgreesStep(chunks[..n], chunks[n], term);
        assert chunks[..n] + [chunks[n]] == chunks;
      }
    }
  }

  lemma NothingAgrees(term: char)
    ensures Agrees([], term)
  {
  }

  /** After any reads, overflowing or not, the inbox holds the newest telegrams of all that were
      extracted, newest first and no more than its limit. */
  lemma {:induction false} InboxHoldsNewest(chunks: seq<string>, term: char)
    ensures Fed(chunks, term).inbox == Newest(Fronted([], Fed(chunks, term).telegrams))
    ensures |Fed(chunks, term).inbox| <= INBOX_MAX_SIZE
  {
    hide Stored, Extracted, Newest, Fronted;
    if chunks == [] {
      FrontedNone([]);
      NewestOfFew([]);
    } else {
      var n := |chunks| - 1;
      var p := Fed(chunks[..n], term);
      var more := Extracted(p.store, chunks[n], term);
      InboxHoldsNewest(chunks[..n], term);
      NewestOfAll(p.telegrams, more);
      if |p.store| + |chunks[n]| > ACCUMULATOR_SPACE {
        NothingExtracted(p.store, chunks[n], term);
        assert p.telegrams + [] == p.telegrams;
      }
    }
    NewestOfFew(Fronted([], Fed(chunks, term).telegrams));
  }

  lemma NothingExtracted(store: string, chunk: string, term: char)
    requires |store| + |chunk| > ACCUMULATOR_SPACE
    ensures Extracted(store, chunk, term) == []
  {
  }

  lemma NewestOfFew(inbox: seq<string>)
    ensures |Newest(inbox)| <= INBOX_MAX_SIZE && (|inbox| <= INBOX_MAX_SIZE ==> Newest(inbox) == inbox)
  {
  }

  /** When every read fits, the inbox after them holds the newest telegrams of the whole stream. */
  lemma InboxOfStream(chunks: seq<string>, term: char)
    requires AllReadsFit(chunks, term)
    ensures Fed(chunks, term).inbox == Newest(Fronted([], Telegrams(Concat(chunks), term)))
  {
    CutsMakeNoDifference(chunks, term);
    InboxHoldsNewest(chunks, term);
    hide Fed, Concat, Telegrams, Left, Newest, Fronted;
  }

  /** Two ways of cutting the same stream leave the same telegrams, the same tail and the same inbox. */
  lemma SameStreamSameTelegrams(chunks: seq<string>, chunks': seq<string>, term: char)
    requires AllReadsFit(chunks, term) && AllReadsFit(chunks', term) && Concat(chunks) == Concat(chunks')
    ensures Fed(chunks, term) == Fed(chunks', term)
  {
    CutsMakeNoDifference(chunks, term);
    CutsMakeNoDifference(chunks', term);
    InboxOfStream(chunks, term);
    InboxOfStream(chunks', term);
    hide Fed, Concat, Telegrams, Left, Newest, Fronted;
  }

  /** A telegram without zero characters is its text without line ends. */
  lemma {:induction false} TelegramText(raw: string)
    requires Glob.NUL !in raw
    ensures Telegram(raw) == Without(raw, "\r\n")
  {
    var c := Glob.CString(raw);
    assert forall i :: 0 <= i < |raw| ==> raw[i] != Glob.NUL;
    assert c == raw;
  }

  /** Cutting the inbox after each read keeps the newest telegrams of all, newest first. */
  lemma NewestOfAll(earlier: seq<string>, later: seq<string>)
    ensures Newest(Fronted(Newest(Fronted([], earlier)), later)) == Newest(Fronted([], earlier + later))
    ensures forall i :: 0 <= i < |earlier + later| && i < INBOX_MAX_SIZE ==>
              Newest(Fronted([], earlier + later))[i] == (earlier + later)[|earlier + later| - 1 - i]
  {
    hide Fronted;
    var old_, all := Fronted([], earlier), Fronted([], earlier + later);
    var a, b := Newest(Fronted(Newest(old_), later)), Newest(all);
    var f := Fronted(Newest(old_), later);
    assert |a| == |b|;
    forall i | 0 <= i < |a| ensures a[i] == b[i] {
      if i >= |later| {
        assert f[i] == f[|later|..][i - |later|];
      }
    }
  }

  // ----------------------------------------------------------------- what a telegram says

  lemma WithoutSnoc(s: string, c: char, tok: string)
    ensures Without(s + [c], tok) == if c in tok then Without(s, tok) else Without(s, tok) + [c]
  {
    assert (s + [c])[..|s|] == s;
  }

  lemma WithoutEmpty(tok: string)
    ensures Without([], tok) == []
  {
  }

  /** Characters are kept or go one by one. */
  lemma {:induction false} WithoutParts(a: string, b: string, tok: string)
    ensures Without(a + b, tok) == Without(a, tok) + Without(b, tok)
    decreases |b|
  {
    hide Without;
    WithoutEmpty(tok);
    if b == [] {
      assert a + b == a;
    } else {
      var n := |b| - 1;
      WithoutParts(a, b[..n], tok);
      assert a + b == a + b[..n] + [b[n]] && b == b[..n] + [b[n]];
      WithoutSnoc(a + b[..n], b[n], tok);
      WithoutSnoc(b[..n], b[n], tok);
    }
  }

  lemma {:induction false} WithoutNone(s: string, tok: string)
    requires forall c :: c in s ==> c !in tok
    ensures Without(s, tok) == s
  {
    if s != [] {
      WithoutNone(s[..|s| - 1], tok);
      assert s == s[..|s| - 1] + [s[|s| - 1]];
    }
  }

  lemma {:induction false} WithoutAll(s: string, tok: string)
    requires forall c :: c in s ==> c in tok
    ensures Without(s, tok) == []
  {
    if s != [] {
      WithoutAll(s[..|s| - 1], tok);
    }
  }

  /** A line of text with line ends behind it is the text, and a zero character hides what is behind it. */
  lemma TelegramSays(text: string, ends: string, hidden: string)
    requires forall c :: c in text ==> c != Glob.NUL && c != '\r' && c != '\n'
    requires forall c :: c in ends ==> c == '\r' || c == '\n'
    ensures Telegram(text + ends) == Telegram(text + ends + [Glob.NUL] + hidden) == text
  {
    hide Without;
    var raw := text + ends;
    assert forall c :: c in raw ==> c in text || c in ends;
    TelegramText(raw);
    UpToZero(raw, hidden);
    WithoutParts(text, ends, "\r\n");
    WithoutNone(text, "\r\n");
    WithoutAll(ends, "\r\n");
  }

  lemma UpToZero(raw: string, hidden: string)
    requires Glob.NUL !in raw
    ensures Telegram(raw + [Glob.NUL] + hidden) == Telegram(raw)
  {
    ZeroEnds(raw, []);
    ZeroEnds(raw, [Glob.NUL] + hidden);
    assert raw + [] == raw && raw + [Glob.NUL] + hidden == raw + ([Glob.NUL] + hidden);
  }

  lemma {:induction false} ZeroEnds(raw: string, rest: string)
    requires Glob.NUL !in raw && (rest != [] ==> rest[0] == Glob.NUL)
    ensures Glob.CString(raw + rest) == raw
  {
    if raw == [] {
      assert raw + rest == rest;
    } else {
      ZeroEnds(raw[1..], rest);
      assert (raw + rest)[1..] == raw[1..] + rest;
    }
  }

  /** Lines, each with its terminator behind it. */
  function Joined(lines: seq<string>, term: char): string {
    if lines == [] then [] else lines[0] + [term] + Joined(lines[1..], term)
  }

  function Spoken(lines: seq<string>, term: char): seq<string> {
    if lines == [] then [] else [Telegram(lines[0] + [term])] + Spoken(lines[1..], term)
  }

  /** A stream of terminated lines has a telegram for each, in order, and leaves what follows the last. */
  lemma {:induction false} LinesAreTelegrams(lines: seq<string>, tail: string, term: char)
    requires term !in tail && forall i :: 0 <= i < |lines| ==> term !in lines[i]
    ensures Telegrams(Joined(lines, term) + tail, term) == Spoken(lines, term)
    ensures Left(Joined(lines, term) + tail, term) == tail
    decreases |lines|
  {
    hide Cut, Telegram, Telegrams, Left;
    var all := Joined(lines, term) + tail;
    if lines == [] {
      assert all == tail;
      NoTelegram(tail, term);
    } else {
      var line, rest := lines[0], Joined(lines[1..], term) + tail;
      assert all == line + [term] + rest;
      CutIsAt(line, term, rest);
      FirstTelegram(all, term);
      assert all[..|line| + 1] == line + [term] && all[|line| + 1..] == rest;
      LinesAreTelegrams(lines[1..], tail, term);
    }
  }

  // ------------------------------------------------------------------------------- overflow

  /** A read that does not fit is lost with what was stored, and reading goes on as with a fresh port;
      what was extracted before stays. */
  lemma {:induction false} OverflowIsFreshStart(chunks: seq<string>, big: string, more: seq<string>, term: char)
    requires |Fed(chunks, term).store| + |big| > 2000
    ensures var p, q := Fed(chunks + [big] + more, term), Fed(more, term);
            p.store == q.store && p.telegrams == Fed(chunks, term).telegrams + q.telegrams
    decreases |more|
  {
    hide Telegrams, Left, Newest, Fronted, Fed;
    FedNothing(term);
    if more == [] {
      assert chunks + [big] + more == chunks + [big];
      FedSnoc(chunks, big, term);
    } else {
      var n := |more| - 1;
      OverflowIsFreshStart(chunks, big, more[..n], term);
      assert chunks + [big] + more == (chunks + [big] + more[..n]) + [more[n]] && more == more[..n] + [more[n]];
      FedSnoc(chunks + [big] + more[..n], more[n], term);
      FedSnoc(more[..n], more[n], term);
    }
  }

  lemma FedSnoc(chunks: seq<string>, chunk: string, term: char)
    ensures Fed(chunks + [chunk], term) == OneRead(Fed(chunks, term), chunk, term)
  {
    hide OneRead;
    assert (chunks + [chunk])[..|chunks|] == chunks;
  }

  lemma FedNothing(term: char)
    ensures Fed([], term) == Port([], [], [])
  {
  }
}
