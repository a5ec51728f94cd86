/** What reading a message leaves behind when its bytes were cut short: the fields that came whole, and the
    rest as it was. */
module CutShort {
  import opened Wire

  lemma FieldTakes(f: Field)
    requires Writable(f)
    ensures |FieldBytes(f)| == FieldLength(f)
  {
  }

  /** Not all the bytes of a field are not enough to read it. */
  lemma TooShort(f: Field, n: nat)
    requires Writable(f) && n < FieldLength(f)
    ensures |FieldBytes(f)| == FieldLength(f) && GetField(KindOf(f), FieldBytes(f)[..n]).OutOfSpace?
  {
    hide IntBytes, BytesInt;
    match f
    case FString(s) =>
      if n >= 4 {
        assert FieldBytes(f)[..n][..4] == IntBytes(|s|);
        IntRoundTrip(|s|);
        assert |FieldBytes(f)[..n][4..]| < |s|;
      }
    case FInt(_) =>
    case FChar(_) =>
    case FDouble(_) =>
  }

  /** How many fields come whole in the first `n` bytes. */
  function Whole(fs: seq<Field>, n: nat): (k: nat)
    ensures k <= |fs|
  {
    if fs == [] || n < FieldLength(fs[0]) then 0 else 1 + Whole(fs[1..], n - FieldLength(fs[0]))
  }

  lemma {:induction false} ReadsWhole(fs: seq<Field>, n: nat)
    requires AllWritable(fs) && n <= |FieldsBytes(fs)|
    ensures ReadSoFar(Kinds(fs), FieldsBytes(fs)[..n]) == fs[..Whole(fs, n)]
    decreases |fs|
  {
    hide FieldsBytes, FieldBytes, GetField, Writable, FieldLength, Kinds;
    if fs == [] {
    } else {
      var f, rest := fs[0], fs[1..];
      assert fs == [f] + rest;
      WritableParts(fs, 0);
      FieldsBytesCons(f, rest);
      KindsCons(f, rest);
      assert Kinds(fs)[0] == KindOf(f) && Kinds(fs)[1..] == Kinds(rest);
      FieldTakes(f);
      var b, k := FieldsBytes(fs)[..n], FieldLength(f);
      if n < k {
        assert b == FieldBytes(f)[..n];
        TooShort(f, n);
      } else {
        assert b == FieldBytes(f) + FieldsBytes(rest)[..n - k];
        FieldRoundTrip(f, FieldsBytes(rest)[..n - k]);
        ReadsWhole(rest, n - k);
        assert [f] + rest[..Whole(rest, n - k)] == fs[..1 + Whole(rest, n - k)];
      }
    }
  }

  /** A field came whole if and only if all the bytes up to its end did. */
  lemma {:induction false} WholeIff(fs: seq<Field>, n: nat, i: nat)
    requires i < |fs|
    ensures Whole(fs, n) > i <==> Sum(fs[..i + 1]) <= n
    decreases i
  {
    hide FieldLength;
    assert fs[..i + 1][0] == fs[0] && fs[..i + 1][1..] == fs[1..][..i];
    if i > 0 {
      if n >= FieldLength(fs[0]) {
        WholeIff(fs[1..], n - FieldLength(fs[0]), i - 1);
      }
    } else {
      assert fs[..1][1..] == [];
    }
  }

  function AllFields(m: WireMsg): seq<Field>
    requires Fits(m)
  {
    [FInt(Size(m))] + Fields(m)
  }

  lemma SumSnoc(fs: seq<Field>, i: nat)
    requires i < |fs|
    ensures Sum(fs[..i + 1]) == Sum(fs[..i]) + FieldLength(fs[i])
    decreases i
  {
    hide FieldLength;
    assert fs[..i + 1][0] == fs[0] && fs[..i + 1][1..] == fs[1..][..i];
    if i > 0 {
      assert fs[..i][0] == fs[0] && fs[..i][1..] == fs[1..][..i - 1];
      SumSnoc(fs[1..], i - 1);
    } else {
      assert fs[..1][1..] == [];
    }
  }

  lemma NoSum(fs: seq<Field>)
    ensures Sum(fs[..0]) == 0
  {
  }

  lemma FirstEnds(m: WireMsg)
    requires Fits(m)
    ensures var fs, a := AllFields(m), 14 + |m.src|;
            && Sum(fs[..2]) == 8 && Sum(fs[..3]) == 9 && Sum(fs[..4]) == 10
            && Sum(fs[..5]) == a && Sum(fs[..6]) == a + 4 + |m.srcAux|
  {
    hide Sum, Size;
    var fs := AllFields(m);
    NoSum(fs);
    SumSnoc(fs, 0);
    SumSnoc(fs, 1);
    SumSnoc(fs, 2);
    SumSnoc(fs, 3);
    SumSnoc(fs, 4);
    SumSnoc(fs, 5);
  }

  lemma LastEnds(m: WireMsg, b: nat)
    requires Fits(m) && Sum(AllFields(m)[..6]) == b
    ensures var fs, c := AllFields(m), b + 4 + |m.community|;
            var d := c + 4 + |m.key|;
            && Sum(fs[..7]) == c && Sum(fs[..8]) == d && Sum(fs[..9]) == d + 8 && Sum(fs[..10]) == d + 16
            && Sum(fs[..11]) == d + 24 && Sum(fs[..12]) == d + 28 + |m.text|
  {
    hide Sum, Size;
    var fs := AllFields(m);
    SumSnoc(fs, 6);
    SumSnoc(fs, 7);
    SumSnoc(fs, 8);
    SumSnoc(fs, 9);
    SumSnoc(fs, 10);
    SumSnoc(fs, 11);
  }

  lemma BytesAre(m: WireMsg)
    requires Fits(m)
    ensures AllWritable(AllFields(m)) && FieldsBytes(AllFields(m)) == MsgBytes(m)
  {
    hide FieldsBytes;
    AllWritableFits(m);
    FieldsBytesCons(FInt(Size(m)), Fields(m));
  }

  /** `r` has the first fields of `m` up to the `k`-th, its length counted, and the rest from `was`. */
  predicate Mixed(was: WireMsg, m: WireMsg, k: nat, r: WireMsg) {
    && r.id == (if k > 1 then m.id else was.id)
    && r.msgType == (if k > 2 then m.msgType else was.msgType)
    && r.dataType == (if k > 3 then m.dataType else was.dataType)
    && r.src == (if k > 4 then m.src else was.src)
    && r.srcAux == (if k > 5 then m.srcAux else was.srcAux)
    && r.community == (if k > 6 then m.community else was.community)
    && r.key == (if k > 7 then m.key else was.key)
    && r.time == (if k > 8 then m.time else was.time)
    && r.number == (if k > 9 then m.number else was.number)
    && r.number2 == (if k > 10 then m.number2 else was.number2)
    && r.text == (if k > 11 then m.text else was.text)
  }

  lemma PrefixMixes(was: WireMsg, m: WireMsg, k: nat)
    requires Fits(m) && k <= 12
    ensures Beginning(AllFields(m)[..k]) && Mixed(was, m, k, WithFields(was, AllFields(m)[..k]))
  {
    hide Size, Fits;
    var fs := AllFields(m)[..k];
    assert forall i :: 0 <= i < k ==> fs[i] == AllFields(m)[i];
    BeginsSo(m, k);
    hide Beginning;
  }

  lemma BeginsSo(m: WireMsg, k: nat)
    requires Fits(m) && k <= 12
    ensures Beginning(AllFields(m)[..k])
  {
    hide Size;
  }

  /** Of a message whose first `n` bytes came, exactly the fields that end within them are read, and each
      other field is what it was before. */
  lemma CutShortMeans(was: WireMsg, m: WireMsg, n: nat)
    requires Fits(m) && n <= |MsgBytes(m)|
    ensures Beginning(ReadSoFar(SHAPE, MsgBytes(m)[..n]))
    ensures var r := WithFields(was, ReadSoFar(SHAPE, MsgBytes(m)[..n]));
            var a := 14 + |m.src|;
            var b := a + 4 + |m.srcAux|;
            var c := b + 4 + |m.community|;
            var d := c + 4 + |m.key|;
            && r.id == (if 8 <= n then m.id else was.id)
            && r.msgType == (if 9 <= n then m.msgType else was.msgType)
            && r.dataType == (if 10 <= n then m.dataType else was.dataType)
            && r.src == (if a <= n then m.src else was.src)
            && r.srcAux == (if b <= n then m.srcAux else was.srcAux)
            && r.community == (if c <= n then m.community else was.community)
            && r.key == (if d <= n then m.key else was.key)
            && r.time == (if d + 8 <= n then m.time else was.time)
            && r.number == (if d + 16 <= n then m.number else was.number)
            && r.number2 == (if d + 24 <= n then m.number2 else was.number2)
            && r.text == (if d + 28 + |m.text| <= n then m.text else was.text)
  {
    hide FieldsBytes, ReadSoFar, Kinds, Whole, Sum, Size, MsgBytes, AllWritable, WithFields, Beginning, AllFields;
    var fs := AllFields(m);
    BytesAre(m);
    Twelve(m);
    ReadsWhole(fs, n);
    PrefixMixes(was, m, Whole(fs, n));
    FirstEnds(m);
    LastEnds(m, Sum(fs[..6]));
    WholeIff(fs, n, 1);
    WholeIff(fs, n, 2);
    WholeIff(fs, n, 3);
    WholeIff(fs, n, 4);
    WholeIff(fs, n, 5);
    WholeIff(fs, n, 6);
    WholeIff(fs, n, 7);
    WholeIff(fs, n, 8);
    WholeIff(fs, n, 9);
    WholeIff(fs, n, 10);
    WholeIff(fs, n, 11);
  }

  lemma Twelve(m: WireMsg)
    requires Fits(m)
    ensures |AllFields(m)| == 12 && Kinds(AllFields(m)) == SHAPE
  {
    MsgShaped(m);
    hide Kinds;
  }
}
