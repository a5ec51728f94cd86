/** The wire form of a message: little-endian integers, length-prefixed strings, and doubles as
    eight bytes that are copied and never looked at. A message is a list of fields behind its own
    length; a packet is a list of messages behind its length, their number and a zero byte. */
module Wire {

  type byte = x: int | 0 <= x < 256
  type Bytes = seq<byte>
  type int32 = x: int | -0x8000_0000 <= x < 0x8000_0000
  type Double = b: Bytes | |b| == 8 witness [0, 0, 0, 0, 0, 0, 0, 0]

  const NULL_MSG: byte := '.' as int

  /** `CMOOSMsg`, with all the fields that travel. */
  datatype WireMsg = WireMsg(
    id: int32,
    msgType: byte,
    dataType: byte,
    src: Bytes,
    srcAux: Bytes,
    community: Bytes,
    key: Bytes,
    time: Double,
    number: Double,
    number2: Double,
    text: Bytes
  )

  /** A message without strings. */
  const BLANK_WIRE := WireMsg(-1, NULL_MSG, 'D' as int, [], [], [], [],
    [0, 0, 0, 0, 0, 0, 0, 0], [0, 0, 0, 0, 0, 0, 0, 0], [0, 0, 0, 0, 0, 0, 0, 0], [])

  datatype Field =
    | FInt(i: int32)
    | FChar(c: byte)
    | FDouble(d: Double)
    | FString(s: Bytes)

  datatype Kind = KInt | KChar | KDouble | KString

  function KindOf(f: Field): Kind {
    match f
    case FInt(_) => KInt
    case FChar(_) => KChar
    case FDouble(_) => KDouble
    case FString(_) => KString
  }

  // ------------------------------------------------------------------------------- writing

  function IntBytes(x: int32): (b: Bytes)
    ensures |b| == 4
  {
    var u := if x < 0 then x + 0x1_0000_0000 else x;
    var v, w, x := u / 256, u / 256 / 256, u / 256 / 256 / 256;
    [u % 256, v % 256, w % 256, x]
  }

  function BytesInt(b: Bytes): int32
    requires |b| == 4
  {
    var u: int := b[0] + 0x100 * (b[1] + 0x100 * (b[2] + 0x100 * (b[3] as int)));
    if u >= 0x8000_0000 then u - 0x1_0000_0000 else u
  }

  /** Lengths stay below 2^31. */
  predicate Writable(f: Field) {
    f.FString? ==> |f.s| < 0x8000_0000
  }

  predicate AllWritable(fs: seq<Field>) {
    forall i :: 0 <= i < |fs| ==> Writable(fs[i])
  }

  function FieldBytes(f: Field): Bytes
    requires Writable(f)
  {
    match f
    case FInt(i) => IntBytes(i)
    case FChar(c) => [c]
    case FDouble(d) => d
    case FString(s) => IntBytes(|s|) + s
  }

  function FieldsBytes(fs: seq<Field>): Bytes
    requires AllWritable(fs)
  {
    if fs == [] then [] else FieldsBytes(fs[..|fs| - 1]) + FieldBytes(fs[|fs| - 1])
  }

  function Fields(m: WireMsg): seq<Field> {
    [FInt(m.id), FChar(m.msgType), FChar(m.dataType), FString(m.src), FString(m.srcAux), FString(m.community),
     FString(m.key), FDouble(m.time), FDouble(m.number), FDouble(m.number2), FString(m.text)]
  }

  /** `GetSizeInBytesWhenSerialised`. */
  function Size(m: WireMsg): nat {
    var intBytes := 2 * 4;
    var charBytes := 2 * 1;
    var stringBytes := 4 + |m.src| + 4 + |m.srcAux| + 4 + |m.community| + 4 + |m.key| + 4 + |m.text|;
    var doubleBytes := 3 * 8;
    intBytes + charBytes + stringBytes + doubleBytes
  }

  predicate Fits(m: WireMsg) {
    Size(m) < 0x8000_0000
  }

  function MsgBytes(m: WireMsg): Bytes
    requires Fits(m)
  {
    IntBytes(Size(m)) + FieldsBytes(Fields(m))
  }

  // ------------------------------------------------------------------------------- reading

  /** Reading from the bytes left: a value and what is left after it, or no space for it, or a
      string length below zero. */
  datatype Got<T> = Got(value: T, rest: Bytes) | OutOfSpace | BadLength

  function GetInt(b: Bytes): Got<int32> {
    if |b| < 4 then OutOfSpace else Got(BytesInt(b[..4]), b[4..])
  }

  function GetField(k: Kind, b: Bytes): (r: Got<Field>)
    ensures r.Got? ==> KindOf(r.value) == k
  {
    match k
    case KInt => (match GetInt(b)
                  case Got(i, rest) => Got(FInt(i), rest)
                  case OutOfSpace => OutOfSpace
                  case BadLength => BadLength)
    case KChar => if |b| < 1 then OutOfSpace else Got(FChar(b[0]), b[1..])
    case KDouble => if |b| < 8 then OutOfSpace else Got(FDouble(b[..8]), b[8..])
    case KString => (match GetInt(b)
                     case Got(n, rest) =>
                       if n < 0 then BadLength
                       else if |rest| < n then OutOfSpace
                       else Got(FString(rest[..n]), rest[n..])
                     case OutOfSpace => OutOfSpace
                     case BadLength => BadLength)
  }

  function GetFields(ks: seq<Kind>, b: Bytes): (r: Got<seq<Field>>)
    ensures r.Got? ==> Kinds(r.value) == ks
  {
    hide GetField;
    if ks == [] then Got([], b)
    else match GetField(ks[0], b)
      case OutOfSpace => OutOfSpace
      case BadLength => BadLength
      case Got(f, rest) =>
        match GetFields(ks[1..], rest)
        case Got(fs, end) => KindsCons(f, fs); Got([f] + fs, end)
        case OutOfSpace => OutOfSpace
        case BadLength => BadLength
  }

  const SHAPE: seq<Kind> :=
    [KInt, KInt, KChar, KChar, KString, KString, KString, KString, KDouble, KDouble, KDouble, KString]

  function Kinds(fs: seq<Field>): (ks: seq<Kind>)
    ensures |ks| == |fs|
  {
    seq(|fs|, i requires 0 <= i < |fs| => KindOf(fs[i]))
  }

  lemma KindsCons(f: Field, fs: seq<Field>)
    ensures Kinds([f] + fs) == [KindOf(f)] + Kinds(fs)
  {
  }

  predicate Shaped(fs: seq<Field>) {
    Kinds(fs) == SHAPE
  }

  lemma ShapedAt(fs: seq<Field>, i: nat)
    requires Shaped(fs) && i < |fs|
    ensures KindOf(fs[i]) == SHAPE[i] && |fs| == 12
  {
    assert Kinds(fs)[i] == SHAPE[i];
  }

  /** What the fields say: the length first, then the message. */
  function FromFields(fs: seq<Field>): (int32, WireMsg)
    requires Shaped(fs)
  {
    assert forall i :: 0 <= i < 12 ==> KindOf(fs[i]) == SHAPE[i] by {
      forall i | 0 <= i < 12 ensures KindOf(fs[i]) == SHAPE[i] { ShapedAt(fs, i); }
    }
    assert fs[0].FInt? && fs[1].FInt? && fs[2].FChar? && fs[3].FChar? && fs[4].FString? && fs[5].FString?;
    (fs[0].i, WireMsg(fs[1].i, fs[2].c, fs[3].c, fs[4].s, fs[5].s,
                     fs[6].s, fs[7].s, fs[8].d, fs[9].d, fs[10].d, fs[11].s))
  }

  // --------------------------------------------------------------------- the message round trip

  lemma IntRoundTrip(x: int32)
    ensures BytesInt(IntBytes(x)) == x
  {
  }

  lemma FieldRoundTrip(f: Field, rest: Bytes)
    requires Writable(f)
    ensures GetField(KindOf(f), FieldBytes(f) + rest) == Got(f, rest)
  {
    var b := FieldBytes(f) + rest;
    match f
    case FInt(i) =>
      IntRoundTrip(i);
      assert b[..4] == IntBytes(i) && b[4..] == rest;
    case FChar(c) =>
      assert b[1..] == rest;
    case FDouble(d) =>
      assert b[..8] == d && b[8..] == rest;
    case FString(s) =>
      IntRoundTrip(|s|);
      assert b[..4] == IntBytes(|s|) && b[4..] == s + rest;
      assert (s + rest)[..|s|] == s && (s + rest)[|s|..] == rest;
  }

  lemma WritableParts(fs: seq<Field>, i: nat)
    requires AllWritable(fs) && i < |fs|
    ensures Writable(fs[i]) && AllWritable(fs[..i]) && AllWritable(fs[i + 1..])
  {
  }

  lemma FieldsBytesSnoc(fs: seq<Field>, f: Field)
    requires AllWritable(fs) && Writable(f)
    ensures AllWritable(fs + [f]) && FieldsBytes(fs + [f]) == FieldsBytes(fs) + FieldBytes(f)
  {
    hide FieldBytes;
    assert (fs + [f])[..|fs|] == fs;
  }

  lemma {:induction false} FieldsBytesCons(f: Field, fs: seq<Field>)
    requires AllWritable(fs) && Writable(f)
    ensures AllWritable([f] + fs) && FieldsBytes([f] + fs) == FieldBytes(f) + FieldsBytes(fs)
  {
    hide FieldBytes, FieldsBytes, Writable;
    if fs == [] {
      FieldsBytesSnoc([], f);
      NoFields();
      assert [f] + fs == [] + [f];
      assert FieldBytes(f) + [] == [] + FieldBytes(f);
    } else {
      var n := |fs| - 1;
      WritableParts(fs, n);
      FieldsBytesCons(f, fs[..n]);
      FieldsBytesSnoc(fs[..n], fs[n]);
      FieldsBytesSnoc([f] + fs[..n], fs[n]);
      assert fs == fs[..n] + [fs[n]];
      assert [f] + fs == [f] + fs[..n] + [fs[n]];
    }
  }

  lemma NoFields()
    ensures FieldsBytes([]) == []
  {
  }

  /** Any list of fields reads back from its bytes, whatever follows them. */
  lemma {:induction false} FieldsRoundTrip(fs: seq<Field>, rest: Bytes)
    requires AllWritable(fs)
    ensures GetFields(Kinds(fs), FieldsBytes(fs) + rest) == Got(fs, rest)
  {
    hide FieldBytes, GetField;
    if fs == [] {
      assert FieldsBytes(fs) + rest == rest;
    } else {
      var f, tail := fs[0], fs[1..];
      assert fs == [f] + tail;
      FieldsBytesCons(f, tail);
      assert FieldsBytes(fs) + rest == FieldBytes(f) + (FieldsBytes(tail) + rest);
      FieldRoundTrip(f, FieldsBytes(tail) + rest);
      FieldsRoundTrip(tail, rest);
      assert Kinds(fs)[0] == KindOf(f) && Kinds(fs)[1..] == Kinds(tail);
    }
  }

  lemma AllWritableFits(m: WireMsg)
    requires Fits(m)
    ensures AllWritable(Fields(m)) && AllWritable([FInt(Size(m))] + Fields(m))
  {
  }

  lemma LengthOfFields(m: WireMsg)
    requires Fits(m)
    ensures AllWritable(Fields(m)) && |FieldsBytes(Fields(m))| == Size(m) - 4
  {
    hide FieldsBytes, Sum;
    AllWritableFits(m);
    FieldsLength(Fields(m));
    SumOfEleven(Fields(m));
  }

  lemma SumOfEleven(fs: seq<Field>)
    requires |fs| == 11
    ensures Sum(fs) == FieldLength(fs[0]) + FieldLength(fs[1]) + FieldLength(fs[2]) + FieldLength(fs[3])
                       + FieldLength(fs[4]) + FieldLength(fs[5]) + FieldLength(fs[6]) + FieldLength(fs[7])
                       + FieldLength(fs[8]) + FieldLength(fs[9]) + FieldLength(fs[10])
  {
    hide Sum, FieldLength;
    SumFrom(fs, 0); SumFrom(fs, 1); SumFrom(fs, 2); SumFrom(fs, 3); SumFrom(fs, 4); SumFrom(fs, 5);
    SumFrom(fs, 6); SumFrom(fs, 7); SumFrom(fs, 8); SumFrom(fs, 9); SumFrom(fs, 10); SumFrom(fs, 11);
    assert fs[0..] == fs;
  }

  lemma SumFrom(fs: seq<Field>, i: nat)
    requires i <= |fs|
    ensures Sum(fs[i..]) == if i == |fs| then 0 else FieldLength(fs[i]) + Sum(fs[i + 1..])
  {
    if i < |fs| {
      assert fs[i..][1..] == fs[i + 1..];
    }
  }

  function FieldLength(f: Field): nat {
    match f
    case FInt(_) => 4
    case FChar(_) => 1
    case FDouble(_) => 8
    case FString(s) => 4 + |s|
  }

  function Sum(fs: seq<Field>): nat {
    if fs == [] then 0 else FieldLength(fs[0]) + Sum(fs[1..])
  }

  lemma {:induction false} FieldsLength(fs: seq<Field>)
    requires AllWritable(fs)
    ensures |FieldsBytes(fs)| == Sum(fs)
  {
    hide IntBytes;
    if fs != [] {
      assert fs == [fs[0]] + fs[1..];
      FieldsBytesCons(fs[0], fs[1..]);
      FieldsLength(fs[1..]);
    }
  }

  /** The fields read before reading stops, at the end or for want of space. */
  function ReadSoFar(ks: seq<Kind>, b: Bytes): (fs: seq<Field>)
    ensures |fs| <= |ks| && forall i :: 0 <= i < |fs| ==> KindOf(fs[i]) == ks[i]
  {
    hide GetField;
    if ks == [] then []
    else match GetField(ks[0], b)
      case OutOfSpace => []
      case BadLength => []
      case Got(f, rest) =>
        var more := ReadSoFar(ks[1..], rest);
        assert forall i :: 1 <= i < |more| + 1 ==> ([f] + more)[i] == more[i - 1] && ks[1..][i - 1] == ks[i];
        [f] + more
  }

  /** The first fields of a message, behind its length. */
  predicate Beginning(fs: seq<Field>) {
    |fs| <= 12 && forall i :: 0 <= i < |fs| ==> KindOf(fs[i]) == SHAPE[i]
  }

  /** The message with the fields that were read, and the rest as it was. */
  function WithFields(m: WireMsg, fs: seq<Field>): WireMsg
    requires Beginning(fs)
  {
    m.(id := if |fs| > 1 then fs[1].i else m.id,
       msgType := if |fs| > 2 then fs[2].c else m.msgType,
       dataType := if |fs| > 3 then fs[3].c else m.dataType,
       src := if |fs| > 4 then fs[4].s else m.src,
       srcAux := if |fs| > 5 then fs[5].s else m.srcAux,
       community := if |fs| > 6 then fs[6].s else m.community,
       key := if |fs| > 7 then fs[7].s else m.key,
       time := if |fs| > 8 then fs[8].d else m.time,
       number := if |fs| > 9 then fs[9].d else m.number,
       number2 := if |fs| > 10 then fs[10].d else m.number2,
       text := if |fs| > 11 then fs[11].s else m.text)
  }

  lemma {:induction false} AllRead(ks: seq<Kind>, b: Bytes)
    ensures GetFields(ks, b).Got? <==> |ReadSoFar(ks, b)| == |ks|
    ensures GetFields(ks, b).Got? ==> GetFields(ks, b).value == ReadSoFar(ks, b)
  {
    hide GetField;
    if ks != [] {
      var f := GetField(ks[0], b);
      if f.Got? {
        AllRead(ks[1..], f.rest);
      }
    }
  }

  /** Reading all the fields replaces the whole message, whatever it was. */
  lemma AllFieldsReplace(m: WireMsg, fs: seq<Field>)
    requires Shaped(fs)
    ensures Beginning(fs) && WithFields(m, fs) == FromFields(fs).1
  {
    assert |Kinds(fs)| == 12;
    forall i | 0 <= i < 12 ensures KindOf(fs[i]) == SHAPE[i] {
      ShapedAt(fs, i);
    }
    hide Kinds;
  }

  /** The length the message claims, and the message. */
  function ParseMsg(b: Bytes): Got<(int32, WireMsg)> {
    match GetFields(SHAPE, b)
    case Got(fs, rest) => Got(FromFields(fs), rest)
    case OutOfSpace => OutOfSpace
    case BadLength => BadLength
  }

  /** A message reads back from its bytes, whatever follows, and uses up exactly the number of
      bytes it said it would take. */
  lemma MsgRoundTrip(m: WireMsg, rest: Bytes)
    requires Fits(m)
    ensures |MsgBytes(m)| == Size(m)
    ensures ParseMsg(MsgBytes(m) + rest) == Got((Size(m), m), rest)
  {
    hide FieldsBytes, GetFields, Kinds;
    AllWritableFits(m);
    LengthOfFields(m);
    var fs := [FInt(Size(m))] + Fields(m);
    FieldsBytesCons(FInt(Size(m)), Fields(m));
    FieldsRoundTrip(fs, rest);
    MsgShaped(m);
    FromTheFields(m);
  }

  lemma MsgShaped(m: WireMsg)
    requires Fits(m)
    ensures Shaped([FInt(Size(m))] + Fields(m))
  {
    var fs := [FInt(Size(m))] + Fields(m);
    assert |Kinds(fs)| == 12;
    assert Kinds(fs) == SHAPE;
  }

  lemma FromTheFields(m: WireMsg)
    requires Fits(m) && Shaped([FInt(Size(m))] + Fields(m))
    ensures FromFields([FInt(Size(m))] + Fields(m)) == (Size(m), m)
  {
    hide Kinds;
  }

  // --------------------------------------------------------------------------------- packets

  function ListSize(ms: seq<WireMsg>): nat {
    if ms == [] then 0 else Size(ms[0]) + ListSize(ms[1..])
  }

  const HEADER_SIZE: nat := 2 * 4 + 1

  predicate FitsPacket(ms: seq<WireMsg>) {
    HEADER_SIZE + ListSize(ms) < 0x8000_0000
  }

  lemma {:induction false} EachFits(ms: seq<WireMsg>)
    requires ListSize(ms) < 0x8000_0000
    ensures |ms| <= ListSize(ms)
    ensures forall i :: 0 <= i < |ms| ==> Fits(ms[i])
  {
    if ms != [] {
      EachFits(ms[1..]);
      assert forall i :: 1 <= i < |ms| ==> ms[i] == ms[1..][i - 1];
    }
  }

  function ListBytes(ms: seq<WireMsg>): Bytes
    requires ListSize(ms) < 0x8000_0000
  {
    if ms == [] then []
    else
      EachFits(ms);
      MsgBytes(ms[0]) + ListBytes(ms[1..])
  }

  function PacketBytes(ms: seq<WireMsg>): Bytes
    requires FitsPacket(ms)
  {
    EachFits(ms);
    IntBytes(HEADER_SIZE + ListSize(ms)) + IntBytes(|ms|) + [0] + ListBytes(ms)
  }

  lemma {:induction false} ListLength(ms: seq<WireMsg>)
    requires ListSize(ms) < 0x8000_0000
    ensures |ListBytes(ms)| == ListSize(ms)
  {
    hide MsgBytes, Size;
    if ms != [] {
      EachFits(ms);
      ListLength(ms[1..]);
      MsgRoundTrip(ms[0], []);
    }
  }

  lemma {:induction false} ListSnoc(ms: seq<WireMsg>, m: WireMsg)
    requires ListSize(ms + [m]) < 0x8000_0000
    ensures ListSize(ms + [m]) == ListSize(ms) + Size(m)
    ensures Fits(m) && ListBytes(ms + [m]) == ListBytes(ms) + MsgBytes(m)
  {
    hide MsgBytes, Size;
    EachFits(ms + [m]);
    assert (ms + [m])[|ms|] == m;
    if ms == [] {
      assert [m][1..] == [];
    } else {
      assert (ms + [m])[1..] == ms[1..] + [m];
      ListSnoc(ms[1..], m);
    }
  }

  // ----------------------------------------------------------------------------- the layout

  /** Four bytes, the lowest first; negative numbers are counted back from 2^32. */
  lemma IntLayout(x: int32)
    ensures var b := IntBytes(x);
            (b[0] as int) + 256 * (b[1] as int) + 65536 * (b[2] as int) + 16777216 * (b[3] as int)
              == if x < 0 then 4294967296 + x else x
  {
    var u := if x < 0 then x + 0x1_0000_0000 else x;
    assert u / 256 / 256 / 256 < 256;
  }

  function StringBytes(s: Bytes): Bytes
    requires |s| < 0x8000_0000
  {
    IntBytes(|s|) + s
  }

  lemma {:induction false} FieldsConcat(a: seq<Field>, b: seq<Field>)
    requires AllWritable(a) && AllWritable(b)
    ensures AllWritable(a + b) && FieldsBytes(a + b) == FieldsBytes(a) + FieldsBytes(b)
    decreases |b|
  {
    hide FieldsBytes, FieldBytes, AllWritable, Writable;
    NoFields();
    if b == [] {
      assert a + b == a;
    } else {
      var n := |b| - 1;
      WritableParts(b, n);
      FieldsConcat(a, b[..n]);
      FieldsBytesSnoc(b[..n], b[n]);
      FieldsBytesSnoc(a + b[..n], b[n]);
      assert a + b == a + b[..n] + [b[n]] && b == b[..n] + [b[n]];
    }
  }

  lemma OneField(f: Field)
    requires Writable(f)
    ensures AllWritable([f]) && FieldsBytes([f]) == FieldBytes(f)
  {
    assert [f][..0] == [];
  }

  lemma ThreeFields(a: Field, b: Field, c: Field)
    requires Writable(a) && Writable(b) && Writable(c)
    ensures AllWritable([a, b, c])
    ensures FieldsBytes([a, b, c]) == FieldBytes(a) + FieldBytes(b) + FieldBytes(c)
  {
    hide FieldsBytes, FieldBytes, Writable, AllWritable;
    OneField(a);
    FieldsBytesSnoc([a], b);
    FieldsBytesSnoc([a] + [b], c);
    assert [a, b, c] == [a] + [b] + [c];
  }

  lemma FourFields(a: Field, b: Field, c: Field, d: Field)
    requires Writable(a) && Writable(b) && Writable(c) && Writable(d)
    ensures AllWritable([a, b, c, d])
    ensures FieldsBytes([a, b, c, d]) == FieldBytes(a) + FieldBytes(b) + FieldBytes(c) + FieldBytes(d)
  {
    hide FieldsBytes, FieldBytes, Writable, AllWritable;
    ThreeFields(a, b, c);
    FieldsBytesSnoc([a, b, c], d);
    assert [a, b, c, d] == [a, b, c] + [d];
  }

  /** Which field of a message travels where, behind the length of it all. */
  lemma MsgLayout(m: WireMsg)
    requires Fits(m)
    ensures MsgBytes(m) ==
            IntBytes(Size(m)) +
            ((IntBytes(m.id) + [m.msgType] + [m.dataType] + StringBytes(m.src))
             + (StringBytes(m.srcAux) + StringBytes(m.community) + StringBytes(m.key) + m.time)
             + (m.number + m.number2 + StringBytes(m.text)))
    ensures Size(m) == |MsgBytes(m)|
  {
    hide IntBytes, FieldsBytes, AllWritable;
    MsgRoundTrip(m, []);
    FourFields(FInt(m.id), FChar(m.msgType), FChar(m.dataType), FString(m.src));
    FourFields(FString(m.srcAux), FString(m.community), FString(m.key), FDouble(m.time));
    ThreeFields(FDouble(m.number), FDouble(m.number2), FString(m.text));
    var a := [FInt(m.id), FChar(m.msgType), FChar(m.dataType), FString(m.src)];
    var b := [FString(m.srcAux), FString(m.community), FString(m.key), FDouble(m.time)];
    var c := [FDouble(m.number), FDouble(m.number2), FString(m.text)];
    FieldsConcat(a, b);
    FieldsConcat(a + b, c);
    assert Fields(m) == a + b + c;
  }

  /** A packet: its length, how many messages, a zero, and the messages one behind the other. */
  lemma PacketLayout(a: WireMsg, ms: seq<WireMsg>)
    requires FitsPacket([a] + ms)
    ensures FitsPacket(ms) && Fits(a) && |PacketBytes([a] + ms)| < 0x8000_0000 && |ms| + 1 < 0x8000_0000
    ensures PacketBytes([a] + ms)[9..] == MsgBytes(a) + PacketBytes(ms)[9..]
    ensures PacketBytes([a] + ms)[..9] == IntBytes(|PacketBytes([a] + ms)|) + IntBytes(|ms| + 1) + [0]
  {
    hide IntBytes, MsgBytes, Size;
    assert ([a] + ms)[1..] == ms;
    EachFits([a] + ms);
    assert ([a] + ms)[0] == a;
    EachFits(ms);
    ListLength([a] + ms);
    ListLength(ms);
  }

  /** What a packet gave: the messages kept, the server's time if a null message led, and whether
      the cursor left the buffer, which only a malformed packet makes it do. */
  datatype Reading = Reading(list: seq<WireMsg>, times: seq<Double>, strayed: bool)

  const NOTHING_READ := Reading([], [], false)

  function Taken(r: Reading, m: WireMsg, i: nat, noNull: bool): Reading {
    r.(list := if noNull && m.msgType == NULL_MSG then r.list else r.list + [m],
       times := if m.msgType == NULL_MSG && i == 0 then [m.number] else r.times)
  }

  /** The reading loop of `CMOOSCommPkt::Serialize` from message `i` at `pos`, on any bytes. */
  function ReadMsgs(b: Bytes, pos: int, i: nat, n: int, noNull: bool, r: Reading): Reading
    decreases n - i
  {
    if i >= n then r
    else if pos < 0 then r.(strayed := true)
    else if pos > |b| then r
    else match ParseMsg(b[pos..])
      case OutOfSpace => r
      case BadLength => r.(strayed := true)
      case Got((used, m), _) =>
        if used == -1 then r
        else ReadMsgs(b, pos + used, i + 1, n, noNull, Taken(r, m, i, noNull))
  }

  /** Reading a packet. One that holds less than a header, or less than its length says, makes the
      program read what it does not hold. */
  function ReadPacket(b: Bytes, noNull: bool): Reading {
    if |b| < HEADER_SIZE then NOTHING_READ.(strayed := true)
    else
      var len := BytesInt(b[..4]);
      if len > |b| then NOTHING_READ.(strayed := true)
      else ReadMsgs(UpTo(b, len), HEADER_SIZE, 0, BytesInt(b[4..8]), noNull, NOTHING_READ)
  }

  function UpTo(b: Bytes, n: int): Bytes
    requires n <= |b|
  {
    if n < 0 then [] else b[..n]
  }

  function Kept(ms: seq<WireMsg>, noNull: bool): seq<WireMsg> {
    if ms == [] then []
    else (if noNull && ms[0].msgType == NULL_MSG then [] else [ms[0]]) + Kept(ms[1..], noNull)
  }

  function LeadTime(ms: seq<WireMsg>): seq<Double> {
    if ms != [] && ms[0].msgType == NULL_MSG then [ms[0].number] else []
  }

  lemma ReadsOne(front: Bytes, m: WireMsg, rest: Bytes, i: nat, n: int, noNull: bool, r: Reading)
    requires Fits(m) && i < n
    ensures var b := front + (MsgBytes(m) + rest);
            ReadMsgs(b, |front|, i, n, noNull, r) ==
            ReadMsgs(b, |front + MsgBytes(m)|, i + 1, n, noNull, Taken(r, m, i, noNull))
  {
    hide MsgBytes, ParseMsg, Taken;
    MsgRoundTrip(m, rest);
    assert (front + (MsgBytes(m) + rest))[|front|..] == MsgBytes(m) + rest;
  }

  lemma {:induction false} ListReadsBack(front: Bytes, ms: seq<WireMsg>, i: nat, noNull: bool, r: Reading)
    requires ListSize(ms) < 0x8000_0000
    ensures ReadMsgs(front + ListBytes(ms), |front|, i, i + |ms|, noNull, r) ==
            r.(list := r.list + Kept(ms, noNull),
            times := if i == 0 && LeadTime(ms) != [] then LeadTime(ms) else r.times)
    decreases |ms|
  {
    hide MsgBytes, ParseMsg, Size, ReadMsgs, Taken, Kept, LeadTime;
    TakenFirst(r, ms, i, noNull);
    if ms == [] {
      NothingLeft(front + ListBytes(ms), |front|, i, noNull, r);
    } else {
      EachFits(ms);
      ReadsOne(front, ms[0], ListBytes(ms[1..]), i, i + |ms|, noNull, r);
      ListReadsBack(front + MsgBytes(ms[0]), ms[1..], i + 1, noNull, Taken(r, ms[0], i, noNull));
      assert front + MsgBytes(ms[0]) + ListBytes(ms[1..]) == front + (MsgBytes(ms[0]) + ListBytes(ms[1..]));
    }
  }

  lemma TakenFirst(r: Reading, ms: seq<WireMsg>, i: nat, noNull: bool)
    ensures ms == [] ==> LeadTime(ms) == [] && r.list + Kept(ms, noNull) == r.list
    ensures ms != [] ==>
              var r1 := Taken(r, ms[0], i, noNull);
              && r1.list + Kept(ms[1..], noNull) == r.list + Kept(ms, noNull)
              && r1.times == (if i == 0 && LeadTime(ms) != [] then LeadTime(ms) else r.times)
              && r1.strayed == r.strayed
  {
    if ms == [] {
      assert r.list + [] == r.list;
    } else {
      var rest := Kept(ms[1..], noNull);
      hide Kept;
      assert r.list + [ms[0]] + rest == r.list + ([ms[0]] + rest);
      assert [] + rest == rest;
      KeptCons(ms, noNull);
    }
  }

  lemma KeptCons(ms: seq<WireMsg>, noNull: bool)
    requires ms != []
    ensures Kept(ms, noNull) == (if noNull && ms[0].msgType == NULL_MSG then [] else [ms[0]]) + Kept(ms[1..], noNull)
  {
  }

  lemma NothingLeft(b: Bytes, pos: int, i: nat, noNull: bool, r: Reading)
    ensures ReadMsgs(b, pos, i, i, noNull, r) == r
  {
  }

  lemma HeaderReadsBack(ms: seq<WireMsg>)
    requires FitsPacket(ms)
    ensures ListSize(ms) < 0x8000_0000 && |ms| < 0x8000_0000
    ensures var b, front := PacketBytes(ms), IntBytes(HEADER_SIZE + ListSize(ms)) + IntBytes(|ms|) + [0];
            && b == front + ListBytes(ms) && |front| == HEADER_SIZE && |b| == HEADER_SIZE + ListSize(ms)
            && BytesInt(b[..4]) == |b| && BytesInt(b[4..8]) == |ms|
  {
    hide IntBytes, BytesInt, ListBytes;
    EachFits(ms);
    ListLength(ms);
    IntRoundTrip(HEADER_SIZE + ListSize(ms));
    IntRoundTrip(|ms|);
    var b := PacketBytes(ms);
    assert b[..4] == IntBytes(HEADER_SIZE + ListSize(ms)) && b[4..8] == IntBytes(|ms|);
  }

  /** A list of messages reads back from its packet, leaving out null messages if asked to, and
      with the leading null message's value as the time. */
  lemma PacketRoundTrip(ms: seq<WireMsg>, noNull: bool)
    requires FitsPacket(ms)
    ensures |PacketBytes(ms)| == HEADER_SIZE + ListSize(ms) && BytesInt(PacketBytes(ms)[..4]) == |PacketBytes(ms)|
    ensures ReadPacket(PacketBytes(ms), noNull) == Reading(Kept(ms, noNull), LeadTime(ms), false)
    ensures ReadPacket(PacketBytes(ms), false).list == ms
  {
    hide IntBytes, BytesInt, ReadMsgs, ListBytes, PacketBytes;
    HeaderReadsBack(ms);
    var front := IntBytes(HEADER_SIZE + ListSize(ms)) + IntBytes(|ms|) + [0];
    var b := PacketBytes(ms);
    assert UpTo(b, |b|) == b;
    ListReadsBack(front, ms, 0, noNull, NOTHING_READ);
    ListReadsBack(front, ms, 0, false, NOTHING_READ);
    KeptAll(ms);
  }

  lemma {:induction false} KeptAll(ms: seq<WireMsg>)
    ensures Kept(ms, false) == ms
  {
    if ms != [] {
      KeptAll(ms[1..]);
    }
  }

  /** Different messages, and different lists, travel as different bytes. */
  lemma PacketsTellListsApart(ms: seq<WireMsg>, ns: seq<WireMsg>)
    requires FitsPacket(ms) && FitsPacket(ns) && PacketBytes(ms) == PacketBytes(ns)
    ensures ms == ns
  {
    PacketRoundTrip(ms, false);
    PacketRoundTrip(ns, false);
    hide PacketBytes, ReadPacket;
  }
}
