/** Packets over a byte stream: however few bytes each receive returns, what is read is what was
    written, packet by packet. */
module CommObject {
  import opened Wire
  import opened CommPkt

  /** The receiving end: all the bytes the peer will ever send, and how many have been read. A
      receive on a healthy socket fails only at the end of the stream. */
  class Socket {
    const stream: Bytes
    const healthy: bool
    var at: nat

    constructor (s: Bytes, h: bool)
      ensures stream == s && healthy == h && at == 0
    {
      stream, healthy, at := s, h, 0;
    }

    ghost predicate Valid()
      reads this
    {
      at <= |stream|
    }

    ghost function Rest(): Bytes
      requires Valid()
      reads this
    {
      stream[at..]
    }

    /** Puts between one and `n` bytes in the buffer and says how many; 0 if the peer has closed,
        -1 for an error. How many is not up to the caller. */
    method Receive(a: array<byte>, pos: nat, n: nat, mood: int) returns (k: int)
      requires Valid() && 0 < n && pos + n <= a.Length
      modifies this, a
      ensures Valid() && -1 <= k <= n && at == old(at) + (if k > 0 then k else 0)
      ensures k > 0 ==> a[..] == Patched(old(a[..]), pos, stream[old(at)..at])
      ensures k <= 0 ==> a[..] == old(a[..])
      ensures k <= 0 && healthy ==> at == |stream|
      ensures at == old(at) ==> k <= 0
    {
      if !healthy && mood < 0 {
        return -1;
      }
      if at == |stream| {
        return 0;
      }
      var most := if n < |stream| - at then n else |stream| - at;
      k := if 0 < mood < most then mood else most;
      MemCpy(a, pos, stream[at..at + k]);
      at := at + k;
    }
  }

  const CHUNK_READ: nat := 8192

  /** The stream goes on with a whole packet, as long as its first four bytes say. */
  predicate HoldsPacket(rest: Bytes) {
    |rest| >= 4 && 4 <= BytesInt(rest[..4]) <= |rest|
  }

  /** The length that comes is shorter than itself, which no writer makes it. */
  predicate ShortLength(rest: Bytes) {
    |rest| >= 4 && BytesInt(rest[..4]) < 4
  }

  /** `Failed` stands for the exceptions; `Strays` for asking the socket for less than nothing. */
  datatype Outcome = PacketRead | Failed | Strays

  /** What has come into the packet is what has left the socket. */
  ghost predicate InStep(socket: Socket, pkt: CommPacket, rest: Bytes, start: nat)
    reads socket, pkt, pkt.buffer
  {
    && socket.Valid() && start <= |socket.stream| && rest == socket.stream[start..]
    && pkt.Filling() && socket.at == start + pkt.byteCount
    && pkt.byteCount <= |rest| && pkt.Contents() == rest[..pkt.byteCount]
  }

  /** One turn of `ReadPkt`: at most what is required, and at most a chunk, is asked for. */
  method ReadSome(socket: Socket, pkt: CommPacket, mood: int, ghost rest: Bytes, ghost start: nat) returns (ok: bool)
    requires InStep(socket, pkt, rest, start) && pkt.GetBytesRequired() > 0
    modifies socket, pkt, pkt.buffer
    ensures pkt.buffer == old(pkt.buffer) || fresh(pkt.buffer)
    ensures ok ==> InStep(socket, pkt, rest, start) && socket.at > old(socket.at)
    ensures !ok ==> InStep(socket, pkt, rest, start) && (socket.healthy ==> socket.at == |socket.stream|)
    ensures !ok ==> pkt.GetBytesRequired() == old(pkt.GetBytesRequired())
  {
    hide BytesInt, Patched;
    var required := pkt.GetBytesRequired();
    ghost var before, had := pkt.buffer[..], pkt.byteCount;
    var received;
    if required < CHUNK_READ {
      received := socket.Receive(pkt.buffer, pkt.nextData, required, mood);
    } else {
      received := socket.Receive(pkt.buffer, pkt.nextData, CHUNK_READ, mood);
    }
    if received <= 0 {
      return false;
    }
    Arrived(before, pkt.buffer[..], socket.stream, start, had, received);
    pkt.OnBytesWritten(received);
    ok := true;
  }

  /** `ReadPkt` reads one packet and not a byte more, under any sequence of short reads, if the
      stream holds one; it strays if and only if the length that comes is below four. */
  method ReadPkt(socket: Socket, pkt: CommPacket, moods: seq<int>) returns (r: Outcome)
    requires socket.Valid() && pkt.Filling() && pkt.byteCount == 0
    modifies socket, pkt, pkt.buffer
    ensures socket.Valid() && pkt.Valid() && (pkt.buffer == old(pkt.buffer) || fresh(pkt.buffer))
    ensures r == PacketRead ==>
              HoldsPacket(old(socket.Rest()))
              && var n := BytesInt(old(socket.Rest())[..4]);
                 socket.at == old(socket.at) + n && pkt.Contents() == old(socket.Rest())[..n]
    ensures r == Strays ==> ShortLength(old(socket.Rest())) && socket.at == old(socket.at) + 4
    ensures socket.healthy ==> (r == PacketRead <==> HoldsPacket(old(socket.Rest())))
    ensures socket.healthy ==> (r == Strays <==> ShortLength(old(socket.Rest())))
  {
    hide BytesInt;
    ghost var rest, start, buffer0 := socket.Rest(), socket.at, pkt.buffer;
    var turn := 0;
    while pkt.GetBytesRequired() != 0
      invariant InStep(socket, pkt, rest, start) && (pkt.buffer == buffer0 || fresh(pkt.buffer))
      decreases |socket.stream| - socket.at
    {
      LengthKnown(socket, pkt, rest, start);
      if pkt.GetBytesRequired() < 0 {
        return Strays;
      }
      var ok := ReadSome(socket, pkt, if turn < |moods| then moods[turn] else 0, rest, start);
      if !ok {
        StreamEnded(socket, pkt, rest, start);
        return Failed;
      }
      turn := turn + 1;
    }
    LengthKnown(socket, pkt, rest, start);
    r := PacketRead;
  }

  /** Once four bytes have come, the packet knows the length the stream gives it. */
  lemma LengthKnown(socket: Socket, pkt: CommPacket, rest: Bytes, start: nat)
    requires InStep(socket, pkt, rest, start)
    ensures pkt.byteCount >= 4 ==> |rest| >= 4 && pkt.msgLen == BytesInt(rest[..4])
  {
    hide BytesInt;
    if pkt.byteCount >= 4 {
      LengthIsThere(pkt.Contents(), rest, pkt.byteCount);
      assert pkt.buffer[..4] == pkt.Contents()[..4];
    }
  }

  /** Bytes are missing and the stream has no more. */
  lemma StreamEnded(socket: Socket, pkt: CommPacket, rest: Bytes, start: nat)
    requires InStep(socket, pkt, rest, start) && pkt.GetBytesRequired() > 0
    ensures socket.at == |socket.stream| ==> !HoldsPacket(rest) && !ShortLength(rest)
  {
    hide BytesInt;
    LengthKnown(socket, pkt, rest, start);
  }

  lemma LengthIsThere(s: Bytes, rest: Bytes, n: nat)
    requires n <= |s| && n <= |rest| && s[..n] == rest[..n]
    ensures n >= 4 ==> s[..4] == rest[..4]
  {
    if n >= 4 {
      assert s[..n][..4] == rest[..n][..4];
    }
  }

  /** What came from the stream continues what had come. */
  lemma Arrived(s: Bytes, s': Bytes, stream: Bytes, start: nat, n: nat, k: nat)
    requires start + n + k <= |stream| && n + k <= |s| && s[..n] == stream[start..][..n]
    requires s' == Patched(s, n, stream[start + n..start + n + k])
    ensures s'[..n + k] == stream[start..][..n + k]
    ensures n >= 4 ==> s'[..4] == s[..4]
  {
    var rest := stream[start..];
    assert stream[start + n..start + n + k] == rest[n..n + k];
    assert s'[..n + k] == s[..n] + rest[n..n + k];
    LengthIsThere(s', rest, n + k);
    LengthIsThere(s, rest, n);
  }

  // -------------------------------------------------------------------- a stream of packets

  predicate AllFit(lists: seq<seq<WireMsg>>) {
    forall i :: 0 <= i < |lists| ==> FitsPacket(lists[i])
  }

  function StreamOf(lists: seq<seq<WireMsg>>): Bytes
    requires AllFit(lists)
  {
    if lists == [] then [] else PacketBytes(lists[0]) + StreamOf(lists[1..])
  }

  /** `ReadMsg` on a healthy stream that begins with the packet of `list`. */
  method ReadList(socket: Socket, ghost list: seq<WireMsg>, ghost later: Bytes, moods: seq<int>)
      returns (back: seq<WireMsg>)
    requires socket.Valid() && socket.healthy && FitsPacket(list) && socket.Rest() == PacketBytes(list) + later
    modifies socket
    ensures back == list && socket.Valid() && socket.Rest() == later
    ensures socket.at == old(socket.at) + |PacketBytes(list)|
  {
    hide PacketBytes, ReadPacket, BytesInt, Kept, LeadTime, ListSize;
    PacketRoundTrip(list, false);
    ghost var p, rest := PacketBytes(list), socket.Rest();
    assert rest[..|p|] == p && rest[|p|..] == later && rest[..4] == p[..4];
    var pkt := new CommPacket();
    var outcome := ReadPkt(socket, pkt, moods);
    assert outcome == PacketRead;
    var got := pkt.Deserialize(false);
    back := got.list;
  }

  /** What was written comes back list by list, under any sequence of short reads, and the socket
      is left at the first byte behind the last packet. */
  method ReadAll(socket: Socket, ghost lists: seq<seq<WireMsg>>, n: nat, moods: seq<seq<int>>)
      returns (back: seq<seq<WireMsg>>)
    requires socket.Valid() && socket.healthy && |lists| == n && AllFit(lists)
    requires |StreamOf(lists)| <= |socket.Rest()| && socket.Rest()[..|StreamOf(lists)|] == StreamOf(lists)
    modifies socket
    ensures back == lists
    ensures socket.Valid() && socket.at == old(socket.at) + |StreamOf(lists)|
  {
    hide PacketBytes, ReadPacket, BytesInt, Kept, LeadTime, ListSize;
    ghost var tail := socket.Rest()[|StreamOf(lists)|..];
    back := [];
    assert socket.Rest() == StreamOf(lists) + tail;
    assert lists[0..] == lists;
    for i := 0 to n
      invariant socket.Valid() && back == lists[..i] && AllFit(lists[i..])
      invariant socket.Rest() == StreamOf(lists[i..]) + tail
    {
      NextPacket(lists, i, tail);
      var list := ReadList(socket, lists[i], StreamOf(lists[i + 1..]) + tail, if i < |moods| then moods[i] else []);
      back := back + [list];
      assert lists[..i + 1] == lists[..i] + [lists[i]];
    }
    assert lists[..n] == lists && lists[n..] == [];
    assert |socket.Rest()| == |tail|;
  }

  lemma NextPacket(lists: seq<seq<WireMsg>>, i: nat, tail: Bytes)
    requires i < |lists| && AllFit(lists[i..])
    ensures FitsPacket(lists[i]) && AllFit(lists[i + 1..])
    ensures var p, rest := PacketBytes(lists[i]), StreamOf(lists[i..]) + tail;
            rest == p + (StreamOf(lists[i + 1..]) + tail)
  {
    hide PacketBytes, ListSize;
    assert lists[i..][0] == lists[i] && lists[i..][1..] == lists[i + 1..];
    var here, later := lists[i..], lists[i + 1..];
    forall j | 0 <= j < |later| ensures FitsPacket(later[j]) {
      assert later[j] == here[j + 1];
    }
    assert PacketBytes(lists[i]) + StreamOf(later) + tail == PacketBytes(lists[i]) + (StreamOf(later) + tail);
  }
}
