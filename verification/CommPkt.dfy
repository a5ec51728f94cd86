/** Messages and packets over byte buffers: the stream operators of `CMOOSMsg` with their cursor,
    `CMOOSCommPkt` with its growing buffer, and the loop that fills a packet from a socket which
    returns as few bytes as it likes. */
module CommPkt {
  import opened Wire

  function Patched(s: Bytes, at: nat, bytes: Bytes): (r: Bytes)
    requires at + |bytes| <= |s|
    ensures |r| == |s|
  {
    s[..at] + bytes + s[at + |bytes|..]
  }

  lemma PatchedTwice(s: Bytes, at: nat, x: Bytes, y: Bytes)
    requires at + |x| + |y| <= |s|
    ensures Patched(Patched(s, at, x), at + |x|, y) == Patched(s, at, x + y)
    ensures Patched(Patched(s, at + |x|, y), at, x) == Patched(s, at, x + y)
  {
  }

  method MemCpy(a: array<byte>, at: nat, bytes: Bytes)
    requires at + |bytes| <= a.Length
    modifies a
    ensures a[..] == Patched(old(a[..]), at, bytes)
  {
    forall i | 0 <= i < |bytes| {
      a[at + i] := bytes[i];
    }
  }

  // -------------------------------------------------------------------------------- messages

  class Message {
    var m: WireMsg
    var cursor: nat
    var regionStart: nat
    var regionLen: int

    constructor (msg: WireMsg)
      ensures m == msg
    {
      m := msg;
      cursor, regionStart, regionLen := 0, 0, 0;
    }

    predicate CanSerialiseN(n: int)
      reads this
    {
      cursor - regionStart + n <= regionLen
    }

    /** The cursor is in the region, and the region is in the buffer. */
    predicate Within(a: array<byte>)
      reads this
    {
      regionStart <= cursor && regionStart + regionLen <= a.Length
    }

    /** `<<` for a plain value: as many bytes as it has, or none. */
    method PutRaw(a: array<byte>, bytes: Bytes) returns (ok: bool)
      requires Within(a)
      modifies a, this`cursor
      ensures Within(a) && ok == old(CanSerialiseN(|bytes|))
      ensures ok ==> cursor == old(cursor) + |bytes|
      ensures ok ==> a[..] == Patched(old(a[..]), old(cursor), bytes)
      ensures !ok ==> a[..] == old(a[..]) && cursor == old(cursor)
    {
      ok := CanSerialiseN(|bytes|);
      if ok {
        MemCpy(a, cursor, bytes);
        cursor := cursor + |bytes|;
      }
    }

    /** `<<` for a string, which may fail after its length is written. */
    method PutString(a: array<byte>, s: Bytes) returns (ok: bool)
      requires Within(a) && |s| < 0x8000_0000
      modifies a, this`cursor
      ensures Within(a) && ok == old(CanSerialiseN(4 + |s|))
      ensures ok ==> cursor == old(cursor) + 4 + |s|
      ensures ok ==> a[..] == Patched(old(a[..]), old(cursor), IntBytes(|s|) + s)
      ensures !ok ==> a[..] == old(a[..])
                      || (old(CanSerialiseN(4)) && a[..] == Patched(old(a[..]), old(cursor), IntBytes(|s|)))
    {
      hide IntBytes, Patched;
      ghost var before, at := a[..], cursor;
      ok := PutRaw(a, IntBytes(|s|));
      if ok {
        PatchedTwice2(before, at, IntBytes(|s|), s);
        ok := PutRaw(a, s);
      }
    }

    /** The operator `<<` for each kind of field. */
    method Put(a: array<byte>, f: Field) returns (ok: bool)
      requires Within(a) && Writable(f)
      modifies a, this`cursor
      ensures Within(a) && ok == old(CanSerialiseN(|FieldBytes(f)|))
      ensures ok ==> cursor == old(cursor) + |FieldBytes(f)|
      ensures ok ==> a[..] == Patched(old(a[..]), old(cursor), FieldBytes(f))
      ensures SameOutside(old(a[..]), a[..], regionStart, regionLen)
    {
      hide IntBytes, Patched, SameOutside;
      ghost var before, start, at, len := a[..], regionStart, cursor, regionLen;
      SameAsIs(before, start, len);
      match f
      case FInt(i) => ok := PutRaw(a, IntBytes(i)); PatchedInside2(before, start, at, IntBytes(i), len);
      case FChar(c) => ok := PutRaw(a, [c]); PatchedInside2(before, start, at, [c], len);
      case FDouble(d) => ok := PutRaw(a, d); PatchedInside2(before, start, at, d, len);
      case FString(s) =>
        ok := PutString(a, s);
        PatchedInside2(before, start, at, IntBytes(|s|), len);
        PatchedInside2(before, start, at, IntBytes(|s|) + s, len);
    }

    /** Writing to a stream: the fields in their order behind room for the length, then the
        length. It works exactly when there is room for the size the message announces. */
    method SerializeTo(a: array<byte>, at: nat, len: int) returns (n: int)
      requires Fits(m) && at + len <= a.Length
      modifies a, this`cursor, this`regionStart, this`regionLen
      ensures n == if Size(m) <= len then Size(m) else -1
      ensures n != -1 ==> |MsgBytes(m)| == n && a[..] == Patched(old(a[..]), at, MsgBytes(m))
      ensures SameOutside(old(a[..]), a[..], at, len)
    {
      hide FieldBytes, FieldsBytes, IntBytes, Patched, SameOutside;
      ghost var before := a[..];
      AllWritableFits(m);
      LengthOfFields(m);
      MsgRoundTrip(m, []);
      SameAsIs(before, at, len);
      cursor, regionStart, regionLen := at, at, len;
      cursor := cursor + 4;
      var fs := Fields(m);
      NothingWritten(before, at);
      for i := 0 to |fs|
        invariant Within(a) && regionStart == at && regionLen == len
        invariant |FieldsBytes(fs[..i])| <= Size(m) - 4
        invariant cursor == at + 4 + |FieldsBytes(fs[..i])|
        invariant i > 0 ==> cursor <= at + len
        invariant i > 0 ==> a[..] == Patched(before, at + 4, FieldsBytes(fs[..i]))
        invariant i == 0 ==> a[..] == before
        invariant SameOutside(before, a[..], at, len)
      {
        ghost var mid := a[..];
        FieldsPrefix(fs, i);
        var ok := Put(a, fs[i]);
        SameOutsideTwice(before, mid, a[..], at, len);
        if !ok {
          return -1;
        }
        OneMoreField(before, mid, at + 4, fs, i);
      }
      assert fs[..|fs|] == fs;
      n := cursor - regionStart;
      cursor := regionStart;
      ghost var mid := a[..];
      var ok := PutRaw(a, IntBytes(n));
      assert ok;
      PatchedTwice(before, at, IntBytes(n), FieldsBytes(fs));
      PatchedInside(mid, at, IntBytes(n), len);
      SameOutsideTwice(before, mid, a[..], at, len);
    }

    method GetIntAt(a: array<byte>) returns (r: Got<int32>)
      requires Within(a)
      modifies this`cursor
      ensures Within(a) && Stepped(a, old(cursor), r) && r == GetInt(Left(a, old(cursor)))
    {
      hide BytesInt;
      if !CanSerialiseN(4) {
        return OutOfSpace;
      }
      ghost var left := Left(a, cursor);
      var i := BytesInt(a[cursor..cursor + 4]);
      assert left[..4] == a[cursor..cursor + 4];
      cursor := cursor + 4;
      r := Got(i, a[cursor..regionStart + regionLen]);
      assert left[4..] == r.rest;
    }

    /** What the region still holds from `pos` on. */
    function Left(a: array<byte>, pos: int): Bytes
      requires regionStart + regionLen <= a.Length
      reads this`regionStart, this`regionLen, a
    {
      if 0 <= pos <= regionStart + regionLen
      then a[pos..regionStart + regionLen] else []
    }

    /** The cursor moves past what was got, and not at all otherwise before the length of a string. */
    predicate Stepped<T>(a: array<byte>, pos: int, r: Got<T>)
      requires regionStart + regionLen <= a.Length
      reads this, a
    {
      r.Got? ==> r.rest == Left(a, cursor) && pos <= cursor <= regionStart + regionLen
    }

    /** `>>` for a character or a double: `n` bytes as they are. */
    method GetRaw(a: array<byte>, n: nat) returns (r: Got<Bytes>)
      requires Within(a) && (n > 0 || CanSerialiseN(0))
      modifies this`cursor
      ensures Within(a) && Stepped(a, old(cursor), r)
      ensures r == Raw(n, Left(a, old(cursor)))
    {
      if !CanSerialiseN(n) {
        return OutOfSpace;
      }
      ghost var left := Left(a, cursor);
      var bytes := a[cursor..cursor + n];
      assert left[..n] == bytes;
      cursor := cursor + n;
      r := Got(bytes, a[cursor..regionStart + regionLen]);
      assert left[n..] == r.rest;
    }

    /** `>>` for a string: its length, then as many bytes. */
    method GetString(a: array<byte>) returns (r: Got<Field>)
      requires Within(a)
      modifies this`cursor
      ensures Within(a) && Stepped(a, old(cursor), r)
      ensures r == GetField(KString, Left(a, old(cursor)))
    {
      hide GetInt, Message.Left;
      var i := GetIntAt(a);
      if !i.Got? {
        return if i.OutOfSpace? then OutOfSpace else BadLength;
      }
      if i.value < 0 {
        return BadLength;
      }
      var s := GetRaw(a, i.value);
      r := if s.Got? then Got(FString(s.value), s.rest) else OutOfSpace;
    }

    /** The operator `>>` for each kind of field. */
    method Get(a: array<byte>, k: Kind) returns (r: Got<Field>)
      requires Within(a)
      modifies this`cursor
      ensures Within(a) && Stepped(a, old(cursor), r)
      ensures r == GetField(k, Left(a, old(cursor)))
    {
      hide GetInt;
      match k
      case KInt =>
        var i := GetIntAt(a);
        r := if i.Got? then Got(FInt(i.value), i.rest) else if i.OutOfSpace? then OutOfSpace else BadLength;
      case KChar =>
        var c := GetRaw(a, 1);
        r := if c.Got? then Got(FChar(c.value[0]), c.rest) else OutOfSpace;
      case KDouble =>
        var d := GetRaw(a, 8);
        r := if d.Got? then Got(FDouble(d.value), d.rest) else OutOfSpace;
      case KString =>
        r := GetString(a);
    }

    /** The operators `>>` one after the other, until one fails; `fs` is what was read. */
    method GetAll(a: array<byte>, ks: seq<Kind>) returns (r: Got<seq<Field>>, fs: seq<Field>)
      requires Within(a)
      modifies this`cursor
      ensures Within(a) && r == GetFields(ks, Left(a, old(cursor)))
      ensures fs == ReadSoFar(ks, Left(a, old(cursor)))
    {
      hide GetField, GetFields, ReadSoFar, Kinds, Message.Left, Onwards;
      ghost var left := Left(a, cursor);
      ghost var rest := left;
      fs := [];
      NothingGot(ks, left);
      for i := 0 to |ks|
        invariant Within(a) && rest == Left(a, cursor)
        invariant GetFields(ks, left) == Onwards(fs, GetFields(ks[i..], rest))
        invariant ReadSoFar(ks, left) == fs + ReadSoFar(ks[i..], rest)
      {
        OneMoreGot(fs, ks, i, left, rest);
        OneMoreRead(fs, ks, i, rest);
        var f := Get(a, ks[i]);
        if !f.Got? {
          r := if f.OutOfSpace? then OutOfSpace else BadLength;
          return;
        }
        fs := fs + [f.value];
        rest := f.rest;
      }
      AllGot(fs, ks, rest);
      r := Got(fs, Left(a, cursor));
    }

    /** Reading from a stream, on any bytes: exactly what `ParseMsg` says of the region. A failure
        leaves the fields read before it in the message. */
    method SerializeFrom(a: array<byte>, at: nat, len: int) returns (r: Got<int32>)
      requires at + len <= a.Length
      modifies this
      ensures var region := if 0 <= len then a[at..at + len] else [];
              var p := ParseMsg(region);
              && (r.Got? <==> p.Got?) && (r.Got? ==> p.value == (r.value, m)) && (r.BadLength? <==> p.BadLength?)
              && Beginning(ReadSoFar(SHAPE, region)) && m == WithFields(old(m), ReadSoFar(SHAPE, region))
    {
      hide GetFields, ReadSoFar, Kinds, FromFields, WithFields;
      cursor, regionStart, regionLen := at, at, len;
      var got, fs := GetAll(a, SHAPE);
      AllRead(SHAPE, Left(a, at));
      if got.Got? {
        AllFieldsReplace(m, fs);
      }
      m := WithFields(m, fs);
      r := match got
        case Got(all, _) => Got(FromFields(all).0, [])
        case OutOfSpace => OutOfSpace
        case BadLength => BadLength;
    }
  }

  function Onwards(fs: seq<Field>, r: Got<seq<Field>>): Got<seq<Field>> {
    match r
    case Got(more, rest) => Got(fs + more, rest)
    case OutOfSpace => OutOfSpace
    case BadLength => BadLength
  }

  lemma NothingGot(ks: seq<Kind>, b: Bytes)
    ensures ks[0..] == ks && Onwards([], GetFields(ks[0..], b)) == GetFields(ks, b)
    ensures [] + ReadSoFar(ks, b) == ReadSoFar(ks, b)
  {
    hide GetFields, ReadSoFar;
    var r := GetFields(ks, b);
    if r.Got? {
      assert [] + r.value == r.value;
    }
  }

  lemma OneMoreRead(fs: seq<Field>, ks: seq<Kind>, i: nat, rest: Bytes)
    requires i < |ks|
    ensures match GetField(ks[i], rest)
            case Got(f, rest') => fs + ReadSoFar(ks[i..], rest) == fs + [f] + ReadSoFar(ks[i + 1..], rest')
            case OutOfSpace => fs + ReadSoFar(ks[i..], rest) == fs
            case BadLength => fs + ReadSoFar(ks[i..], rest) == fs
  {
    hide GetField;
    assert ks[i..][0] == ks[i] && ks[i..][1..] == ks[i + 1..];
    var f := GetField(ks[i], rest);
    if f.Got? {
      assert fs + ([f.value] + ReadSoFar(ks[i + 1..], f.rest)) == fs + [f.value] + ReadSoFar(ks[i + 1..], f.rest);
    } else {
      assert fs + [] == fs;
    }
  }

  /** Getting the next field, or failing to. */
  lemma OneMoreGot(fs: seq<Field>, ks: seq<Kind>, i: nat, left: Bytes, rest: Bytes)
    requires i < |ks| && GetFields(ks, left) == Onwards(fs, GetFields(ks[i..], rest))
    ensures match GetField(ks[i], rest)
            case Got(f, rest') => GetFields(ks, left) == Onwards(fs + [f], GetFields(ks[i + 1..], rest'))
            case OutOfSpace => GetFields(ks, left) == OutOfSpace
            case BadLength => GetFields(ks, left) == BadLength
  {
    hide GetField;
    assert ks[i..][0] == ks[i] && ks[i..][1..] == ks[i + 1..];
    var f := GetField(ks[i], rest);
    if f.Got? {
      var more := GetFields(ks[i + 1..], f.rest);
      if more.Got? {
        assert fs + ([f.value] + more.value) == fs + [f.value] + more.value;
      }
    }
  }

  lemma AllGot(fs: seq<Field>, ks: seq<Kind>, rest: Bytes)
    ensures Onwards(fs, GetFields(ks[|ks|..], rest)) == Got(fs, rest)
    ensures fs + ReadSoFar(ks[|ks|..], rest) == fs
  {
    assert ks[|ks|..] == [] && fs + [] == fs;
  }

  predicate SameOutside(s: Bytes, s': Bytes, at: nat, len: int) {
    |s'| == |s| && forall j :: 0 <= j < |s| && !(at <= j < at + len) ==> s'[j] == s[j]
  }

  lemma SameAsIs(s: Bytes, at: nat, len: int)
    ensures SameOutside(s, s, at, len)
  {
  }

  lemma SameOutsideTwice(s: Bytes, t: Bytes, u: Bytes, at: nat, len: int)
    ensures SameOutside(s, t, at, len) && SameOutside(t, u, at, len) ==> SameOutside(s, u, at, len)
  {
  }

  lemma PatchedInside(s: Bytes, at: nat, x: Bytes, len: int)
    requires at + |x| <= |s| && |x| <= len
    ensures SameOutside(s, Patched(s, at, x), at, len)
  {
  }

  lemma PatchedTwice2(s: Bytes, at: nat, x: Bytes, y: Bytes)
    ensures at + |x| + |y| <= |s| ==> Patched(Patched(s, at, x), at + |x|, y) == Patched(s, at, x + y)
  {
    if at + |x| + |y| <= |s| {
      PatchedTwice(s, at, x, y);
    }
  }

  lemma PatchedInside2(s: Bytes, start: nat, at: nat, x: Bytes, len: int)
    requires start <= at
    ensures at + |x| <= start + len <= |s| ==> SameOutside(s, Patched(s, at, x), start, len)
  {
  }

  function Raw(n: nat, b: Bytes): Got<Bytes> {
    if |b| < n then OutOfSpace else Got(b[..n], b[n..])
  }

  lemma NothingWritten(s: Bytes, at: nat)
    ensures FieldsBytes([]) == [] && (at + 4 <= |s| ==> Patched(s, at + 4, []) == s)
  {
  }

  lemma {:induction false} FieldsPrefix(fs: seq<Field>, i: nat)
    requires AllWritable(fs) && i < |fs|
    ensures Writable(fs[i]) && AllWritable(fs[..i]) && AllWritable(fs[..i + 1])
    ensures FieldsBytes(fs[..i + 1]) == FieldsBytes(fs[..i]) + FieldBytes(fs[i])
    ensures |FieldsBytes(fs[..i + 1])| <= |FieldsBytes(fs)|
    decreases |fs| - i
  {
    hide FieldBytes;
    assert fs[..i + 1][..i] == fs[..i];
    if i + 1 < |fs| {
      FieldsPrefix(fs, i + 1);
    } else {
      assert fs[..i + 1] == fs;
    }
  }

  lemma OneMoreField(s: Bytes, mid: Bytes, at: nat, fs: seq<Field>, i: nat)
    requires AllWritable(fs) && i < |fs| && Writable(fs[i]) && AllWritable(fs[..i]) && AllWritable(fs[..i + 1])
    requires FieldsBytes(fs[..i + 1]) == FieldsBytes(fs[..i]) + FieldBytes(fs[i])
    requires at + |FieldsBytes(fs[..i + 1])| <= |s|
    requires if i > 0 then mid == Patched(s, at, FieldsBytes(fs[..i])) else mid == s
    ensures Patched(mid, at + |FieldsBytes(fs[..i])|, FieldBytes(fs[i])) == Patched(s, at, FieldsBytes(fs[..i + 1]))
  {
    hide FieldBytes;
    if i == 0 {
      assert fs[..0] == [];
    } else {
      hide FieldsBytes;
      PatchedTwice(s, at, FieldsBytes(fs[..i]), FieldBytes(fs[i]));
    }
  }

  // --------------------------------------------------------------------------------- packets

  class CommPacket {
    var byteCount: nat
    var msgLen: int
    var buffer: array<byte>
    var nextData: int

    ghost predicate Valid()
      reads this
    {
      byteCount <= buffer.Length && buffer.Length >= 4
    }

    /** A packet being filled: its cursor is behind what has come, and once the length has come
        there is room for all of it. */
    ghost predicate Filling()
      reads this, buffer
    {
      && Valid() && nextData == byteCount
      && (byteCount < 4 ==> msgLen == 0)
      && (byteCount >= 4 ==> msgLen == BytesInt(buffer[..4]) <= buffer.Length)
      && (byteCount > 4 ==> byteCount <= msgLen)
    }

    ghost function Contents(): Bytes
      requires Valid()
      reads this, buffer
    {
      buffer[..byteCount]
    }

    constructor ()
      ensures Filling() && byteCount == 0 && fresh(buffer)
    {
      buffer := new byte[4];
      nextData := 0;
      byteCount := 0;
      msgLen := 0;
    }

    /** More room if need be, keeping what has come. */
    method InflateTo(n: int)
      requires Valid()
      modifies this
      ensures Valid() && byteCount == old(byteCount) && msgLen == old(msgLen)
      ensures buffer.Length >= n && (buffer == old(buffer) || fresh(buffer))
      ensures buffer[..byteCount] == old(buffer[..byteCount])
      ensures buffer == old(buffer) ==> nextData == old(nextData)
      ensures buffer != old(buffer) ==> nextData == byteCount
    {
      if n <= buffer.Length {
        return;
      }
      var t := new byte[n];
      forall i | 0 <= i < byteCount {
        t[i] := buffer[i];
      }
      buffer := t;
      nextData := byteCount;
    }

    function GetBytesRequired(): int
      reads this
    {
      if byteCount < 4 then 4 - byteCount else msgLen - byteCount
    }

    /** The next `n` bytes have been put where the cursor was. */
    method OnBytesWritten(n: nat)
      requires Filling() && 0 < n <= GetBytesRequired()
      modifies this
      ensures Filling() && byteCount == old(byteCount) + n
      ensures buffer == old(buffer) || fresh(buffer)
      ensures Contents() == old(buffer[..byteCount + n])
    {
      hide BytesInt;
      byteCount := byteCount + n;
      nextData := nextData + n;
      if byteCount <= 4 {
        if byteCount == 4 {
          msgLen := BytesInt(buffer[..4]);
          InflateTo(msgLen);
          assert buffer[..4] == buffer[..byteCount];
        }
      }
    }

    /** Stuffing messages in: the buffer ends up holding exactly the packet of the list. */
    method Serialize(ms: seq<WireMsg>) returns (ok: bool)
      requires Valid() && FitsPacket(ms)
      modifies this, buffer
      ensures Valid() && (buffer == old(buffer) || fresh(buffer))
      ensures ok && Contents() == PacketBytes(ms) && msgLen == |PacketBytes(ms)|
    {
      hide IntBytes, MsgBytes, ListBytes, Size, BytesInt, ReadPacket, Kept, LeadTime;
      msgLen := 0;
      byteCount := 0;
      EachFits(ms);
      ListLength(ms);
      PacketRoundTrip(ms, false);
      var sizes := SumSizes(ms);
      var bufferSize := HEADER_SIZE + sizes;
      InflateTo(bufferSize);
      nextData := HEADER_SIZE;
      byteCount := HEADER_SIZE;
      StuffMessages(ms, bufferSize);
      ghost var stuffed := buffer[..];
      WriteHeader(byteCount, |ms|);
      msgLen := byteCount;
      SameBehindHeader(stuffed, buffer[..], byteCount);
      ok := true;
    }

    /** The number of bytes, the number of messages, and that nothing is compressed. */
    method WriteHeader(byteTotal: int32, messageCount: int32)
      requires buffer.Length >= HEADER_SIZE
      modifies this`nextData, buffer
      ensures buffer[..HEADER_SIZE] == IntBytes(byteTotal) + IntBytes(messageCount) + [0]
      ensures buffer[HEADER_SIZE..] == old(buffer[..])[HEADER_SIZE..]
    {
      hide IntBytes;
      nextData := 0;
      ghost var was := buffer[..];
      MemCpy(buffer, nextData, IntBytes(byteTotal));
      ghost var first := buffer[..];
      nextData := nextData + 4;
      MemCpy(buffer, nextData, IntBytes(messageCount));
      ghost var second := buffer[..];
      nextData := nextData + 4;
      buffer[nextData] := 0;
      nextData := nextData + 1;
      assert buffer[..] == second[8 := 0];
      HeaderPieces(was, first, second, IntBytes(byteTotal), IntBytes(messageCount));
      assert buffer[..HEADER_SIZE] == buffer[..][..HEADER_SIZE];
      assert buffer[HEADER_SIZE..] == buffer[..][HEADER_SIZE..];
    }

    /** The loop that serialises each message behind the one before. */
    method StuffMessages(ms: seq<WireMsg>, bufferSize: nat)
      requires Valid() && FitsPacket(ms) && bufferSize == HEADER_SIZE + ListSize(ms) <= buffer.Length
      requires byteCount == HEADER_SIZE && nextData == HEADER_SIZE
      modifies this`byteCount, this`nextData, buffer
      ensures Valid() && byteCount == bufferSize && buffer[HEADER_SIZE..bufferSize] == ListBytes(ms)
    {
      hide MsgBytes, ListBytes, Size;
      EachFits(ms);
      ListLength(ms);
      NoMessages();
      for i := 0 to |ms|
        invariant Valid() && nextData == byteCount
        invariant ListSize(ms[..i]) <= ListSize(ms) && byteCount == HEADER_SIZE + ListSize(ms[..i])
        invariant buffer[HEADER_SIZE..byteCount] == ListBytes(ms[..i])
      {
        ListPrefix(ms, i);
        var msg := new Message(ms[i]);
        ghost var before := buffer[..];
        var copied := msg.SerializeTo(buffer, nextData, bufferSize - byteCount);
        assert copied == Size(ms[i]);
        assert buffer[HEADER_SIZE..byteCount + copied] == before[HEADER_SIZE..byteCount] + MsgBytes(ms[i]);
        nextData := nextData + copied;
        byteCount := byteCount + copied;
      }
      assert ms[..|ms|] == ms;
    }

    /** Taking messages out of a packet, whatever its bytes. */
    method Deserialize(noNull: bool) returns (r: Reading)
      requires Valid()
      modifies this
      ensures buffer == old(buffer) && r == ReadPacket(old(Contents()), noNull)
    {
      hide BytesInt, ParseMsg, Taken;
      ghost var all := Contents();
      if byteCount < HEADER_SIZE {
        return NOTHING_READ.(strayed := true);
      }
      assert all[..4] == buffer[..4] && all[4..8] == buffer[4..8];
      msgLen := BytesInt(buffer[..4]);
      if msgLen > byteCount {
        return NOTHING_READ.(strayed := true);
      }
      nextData := HEADER_SIZE;
      assert all == buffer[..byteCount];
      r := ReadOn(BytesInt(buffer[4..8]), noNull, all);
    }

    /** The reading loop. */
    method ReadOn(messageCount: int, noNull: bool, ghost all: Bytes) returns (r: Reading)
      requires Valid() && nextData == HEADER_SIZE && msgLen <= byteCount && all == buffer[..byteCount]
      modifies this`nextData
      ensures r == ReadMsgs(UpTo(all, msgLen), HEADER_SIZE, 0, messageCount, noNull, NOTHING_READ)
    {
      hide ParseMsg, Taken, ReadSoFar, WithFields, Beginning;
      ghost var b := UpTo(all, msgLen);
      var spaceFree: int := msgLen - 4 - 4 - 1;
      r := NOTHING_READ;
      var i: nat := 0;
      ParseNothing();
      while i < messageCount
        invariant nextData + spaceFree == msgLen && (msgLen < 0 ==> nextData == HEADER_SIZE)
        invariant ReadMsgs(b, HEADER_SIZE, 0, messageCount, noNull, NOTHING_READ) ==
                  ReadMsgs(b, nextData, i, messageCount, noNull, r)
        decreases messageCount - i
      {
        if nextData < 0 {
          r := r.(strayed := true);
          return;
        }
        var msg := new Message(BLANK_WIRE);
        var used := msg.SerializeFrom(buffer, nextData, spaceFree);
        assert spaceFree >= 0 ==> buffer[nextData..nextData + spaceFree] == b[nextData..];
        if used.BadLength? {
          r := r.(strayed := true);
          return;
        }
        if !used.Got? || used.value == -1 {
          return;
        }
        r := Taken(r, msg.m, i, noNull);
        nextData := nextData + used.value;
        spaceFree := spaceFree - used.value;
        i := i + 1;
      }
    }
  }

  /** The space a list needs, as the first loop of `Serialize` finds it. */
  method SumSizes(ms: seq<WireMsg>) returns (n: nat)
    ensures n == ListSize(ms)
  {
    hide Size;
    n := 0;
    for i := 0 to |ms|
      invariant n + ListSize(ms[i..]) == ListSize(ms)
    {
      assert ms[i..][0] == ms[i] && ms[i..][1..] == ms[i + 1..];
      n := n + Size(ms[i]);
    }
  }

  /** Two integers and a zero put in front of a buffer, one after the other. */
  lemma HeaderPieces(was: Bytes, first: Bytes, second: Bytes, a: Bytes, b: Bytes)
    requires |was| >= HEADER_SIZE && |a| == 4 && |b| == 4
    requires first == Patched(was, 0, a) && second == Patched(first, 4, b)
    ensures |second| == |was|
    ensures second[8 := 0][..HEADER_SIZE] == a + b + [0] && second[8 := 0][HEADER_SIZE..] == was[HEADER_SIZE..]
  {
    assert second == a + b + was[8..];
    assert second[8 := 0] == a + b + [0] + was[9..];
  }

  lemma SameBehindHeader(s: Bytes, s': Bytes, n: nat)
    requires HEADER_SIZE <= n <= |s| == |s'| && s'[HEADER_SIZE..] == s[HEADER_SIZE..]
    ensures s'[..n] == s'[..HEADER_SIZE] + s[HEADER_SIZE..n]
  {
    assert s'[HEADER_SIZE..n] == s'[HEADER_SIZE..][..n - HEADER_SIZE];
    assert s[HEADER_SIZE..n] == s[HEADER_SIZE..][..n - HEADER_SIZE];
  }

  lemma ParseNothing()
    ensures ParseMsg([]).OutOfSpace?
  {
  }

  lemma NoMessages()
    ensures ListSize([]) == 0 && ListBytes([]) == []
  {
  }

  lemma {:induction false} ListPrefix(ms: seq<WireMsg>, i: nat)
    requires ListSize(ms) < 0x8000_0000 && i < |ms|
    ensures ListSize(ms[..i + 1]) == ListSize(ms[..i]) + Size(ms[i]) <= ListSize(ms) && Fits(ms[i])
    ensures ListBytes(ms[..i + 1]) == ListBytes(ms[..i]) + MsgBytes(ms[i])
    ensures |MsgBytes(ms[i])| == Size(ms[i])
    decreases |ms| - i
  {
    hide Size, MsgBytes, ListBytes;
    EachFits(ms);
    MsgRoundTrip(ms[i], []);
    assert ms[..i + 1] == ms[..i] + [ms[i]];
    if i + 1 < |ms| {
      ListPrefix(ms, i + 1);
    } else {
      assert ms[..i + 1] == ms;
    }
    ListSnoc(ms[..i], ms[i]);
  }
}
