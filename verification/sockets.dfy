/** The receiving side of a TCP socket and the reassembly loop so_read. */
module Sockets {
  import opened Bytes

  // What successive read() calls on the socket meet. The end of the list is end of stream.
  //   Data: bytes that arrived together; a read takes at most what it asked for
  //   Again: read() fails with EAGAIN;  Fail: read() fails with another errno
  datatype Arrival = Data(bs: bytes) | Again | Fail

  // read() never delivers an empty piece before the end of the stream.
  ghost predicate WellFormed(arrivals: seq<Arrival>) {
    forall a | a in arrivals :: a.Data? ==> a.bs != []
  }

  // A connection on which every read succeeds: some fragmentation of Flat(arrivals).
  ghost predicate Clean(arrivals: seq<Arrival>) {
    forall a | a in arrivals :: a.Data? && a.bs != []
  }

  // The bytes of an error-free connection, in order.
  ghost function Flat(arrivals: seq<Arrival>): bytes {
    if arrivals == [] then []
    else (if arrivals[0].Data? then arrivals[0].bs else []) + Flat(arrivals[1..])
  }

  ghost function Joined(pieces: seq<bytes>): bytes {
    if pieces == [] then [] else pieces[0] + Joined(pieces[1..])
  }

  // A stream cut into pieces in any way is an error-free connection that carries it.
  lemma {:induction false} AnyPieces(pieces: seq<bytes>) returns (arrivals: seq<Arrival>)
    requires forall k :: 0 <= k < |pieces| ==> pieces[k] != []
    ensures |arrivals| == |pieces| && forall k :: 0 <= k < |pieces| ==> arrivals[k] == Data(pieces[k])
    ensures Clean(arrivals) && WellFormed(arrivals) && Flat(arrivals) == Joined(pieces)
  {
    if pieces == [] {
      arrivals := [];
    } else {
      var rest := AnyPieces(pieces[1..]);
      arrivals := [Data(pieces[0])] + rest;
      assert arrivals[1..] == rest;
    }
  }

  // What a connection delivers to a reader that wants len bytes and gives up at the first
  // failed or empty read, and what is left for the next reader.
  ghost function Taken(arrivals: seq<Arrival>, len: nat): (out: bytes)
    ensures |out| <= len
    decreases |arrivals|
  {
    if len == 0 || arrivals == [] || !arrivals[0].Data? then []
    else if |arrivals[0].bs| <= len then
      arrivals[0].bs + Taken(arrivals[1..], len - |arrivals[0].bs|)
    else arrivals[0].bs[..len]
  }

  ghost function Rest(arrivals: seq<Arrival>, len: nat): seq<Arrival>
    decreases |arrivals|
  {
    if len == 0 || arrivals == [] then arrivals
    else if !arrivals[0].Data? then arrivals[1..]
    else if |arrivals[0].bs| <= len then Rest(arrivals[1..], len - |arrivals[0].bs|)
    else [Data(arrivals[0].bs[len..])] + arrivals[1..]
  }

  // so_read forgives one EAGAIN, and only on its first read(); any other error there is
  // reported as -1 instead of a short count.
  ghost predicate FailsAtOnce(arrivals: seq<Arrival>, len: nat) {
    len > 0 && arrivals != [] && arrivals[0].Fail?
  }

  ghost function AfterFirst(arrivals: seq<Arrival>, len: nat): seq<Arrival> {
    if len > 0 && arrivals != [] && arrivals[0].Again? then arrivals[1..] else arrivals
  }

  ghost function SoReadBytes(arrivals: seq<Arrival>, len: nat): (out: bytes) {
    Taken(AfterFirst(arrivals, len), len)
  }

  ghost function SoReadRest(arrivals: seq<Arrival>, len: nat): seq<Arrival> {
    Rest(AfterFirst(arrivals, len), len)
  }

  // A buffer whose bytes from at on have been overwritten by data.
  ghost function Splice(buffer: bytes, at: nat, data: bytes): (r: bytes)
    requires at + |data| <= |buffer|
    ensures |r| == |buffer|
  {
    buffer[..at] + data + buffer[at + |data|..]
  }

  // The connection after a read() took n bytes of its first piece.
  function AfterRead(arrivals: seq<Arrival>, n: nat): seq<Arrival>
    requires arrivals != [] && arrivals[0].Data? && n <= |arrivals[0].bs|
  {
    if n == |arrivals[0].bs| then arrivals[1..]
    else [Data(arrivals[0].bs[n..])] + arrivals[1..]
  }

  class Socket {
    var incoming: seq<Arrival>
    var sent: bytes

    constructor (incoming: seq<Arrival>)
      ensures this.incoming == incoming && sent == []
    {
      this.incoming := incoming;
      sent := [];
    }

    // write(): the peer's kernel takes everything.
    method Write(data: bytes)
      modifies this`sent
      ensures sent == old(sent) + data
    {
      sent := sent + data;
    }

    // read(sd, &buffer[at], len): the count, or -1 with errno telling EAGAIN from the rest.
    method Read(buffer: array<byte>, at: nat, len: nat) returns (n: int, again: bool)
      requires at + len <= buffer.Length
      requires WellFormed(incoming)
      modifies this`incoming, buffer
      ensures WellFormed(incoming)
      ensures n == -1 || 0 <= n <= len
      ensures n == -1 ==>
        && len > 0 && old(incoming) != [] && !old(incoming)[0].Data?
        && again == old(incoming)[0].Again? && incoming == old(incoming)[1..]
      ensures n == 0 ==> (len == 0 || old(incoming) == []) && incoming == old(incoming)
      ensures n > 0 ==>
        && old(incoming) != [] && old(incoming)[0].Data?
        && n == Min(len, |old(incoming)[0].bs|)
        && buffer[..] == Splice(old(buffer[..]), at, old(incoming)[0].bs[..n])
        && incoming == AfterRead(old(incoming), n)
      ensures n <= 0 ==> buffer[..] == old(buffer[..])
    {
      if len == 0 || incoming == [] {
        return 0, false;
      }
      match incoming[0]
      case Again =>
        incoming := incoming[1..];
        return -1, true;
      case Fail =>
        incoming := incoming[1..];
        return -1, false;
      case Data(bs) =>
        n, again := Min(len, |bs|), false;
        forall k | at <= k < at + n {
          buffer[k] := bs[k - at];
        }
        assert buffer[..] == Splice(old(buffer[..]), at, bs[..n]);
        incoming := AfterRead(incoming, n);
    }
  }

  // Midway through so_read: got has arrived, and the connection still holds the rest of what
  // the whole call will take.
  ghost predicate Midway(goal: bytes, rest: seq<Arrival>, got: bytes, arrivals: seq<Arrival>, res: nat) {
    && goal == got + Taken(arrivals, res)
    && rest == Rest(arrivals, res)
  }

  // One read() is one step of it.
  lemma MidwayStep(goal: bytes, rest: seq<Arrival>, got: bytes, arrivals: seq<Arrival>, res: nat, n: nat)
    requires res > 0 && arrivals != [] && arrivals[0].Data?
    requires n == Min(res, |arrivals[0].bs|)
    requires Midway(goal, rest, got, arrivals, res)
    ensures Midway(goal, rest, got + arrivals[0].bs[..n], AfterRead(arrivals, n), res - n)
  {
    var bs := arrivals[0].bs;
    assert bs[..|bs|] == bs;
    assert Taken(arrivals, res) == bs[..n] + Taken(AfterRead(arrivals, n), res - n);
  }

  // A failed read, the end of the stream, or nothing left to ask for is the end of it.
  lemma MidwayEnd(goal: bytes, rest: seq<Arrival>, got: bytes, arrivals: seq<Arrival>, res: nat)
    requires res == 0 || arrivals == [] || !arrivals[0].Data?
    requires Midway(goal, rest, got, arrivals, res)
    ensures goal == got
    ensures rest == if res == 0 || arrivals == [] then arrivals else arrivals[1..]
  {
  }

  lemma SpliceSplice(buffer: bytes, a: bytes, b: bytes)
    requires |a| + |b| <= |buffer|
    ensures Splice(Splice(buffer, 0, a), |a|, b) == Splice(buffer, 0, a + b)
  {
  }

  // so_read's first read(): EAGAIN is forgiven here, any other error is not.
  method ReadFirst(sd: Socket, buffer: array<byte>, len: nat) returns (n: int, ghost got: bytes)
    requires len <= buffer.Length && WellFormed(sd.incoming)
    modifies sd`incoming, buffer
    ensures WellFormed(sd.incoming) && -1 <= n <= len
    ensures n == -1 <==> FailsAtOnce(old(sd.incoming), len)
    ensures n == -1 ==> sd.incoming == old(sd.incoming)[1..] && buffer[..] == old(buffer[..])
    ensures n >= 0 ==>
      && |got| == n && buffer[..] == Splice(old(buffer[..]), 0, got)
      && Midway(SoReadBytes(old(sd.incoming), len), SoReadRest(old(sd.incoming), len), got, sd.incoming, len - n)
  {
    ghost var was := sd.incoming;
    var again;
    n, again := sd.Read(buffer, 0, len);
    got := [];
    if n > 0 {
      MidwayStep(SoReadBytes(was, len), SoReadRest(was, len), [], was, len, n);
      got := [] + was[0].bs[..n];
    }
    if n == -1 && again {
      n := 0;
    }
  }

  // One turn of so_read's loop: a read() that fails, EAGAIN included, counts as no bytes.
  method ReadMore(sd: Socket, buffer: array<byte>, ptr: nat, res: nat,
                  ghost goal: bytes, ghost rest: seq<Arrival>, ghost buf: bytes, ghost was: bytes)
    returns (n: int, ghost got: bytes)
    requires res > 0 && ptr == |was| && ptr + res <= buffer.Length && |buf| == buffer.Length
    requires WellFormed(sd.incoming) && Midway(goal, rest, was, sd.incoming, res)
    requires buffer[..] == Splice(buf, 0, was)
    modifies sd`incoming, buffer
    ensures WellFormed(sd.incoming) && n <= res
    ensures n <= 0 ==> got == was == goal && sd.incoming == rest
    ensures n > 0 ==> |got| == ptr + n && Midway(goal, rest, got, sd.incoming, res - n)
    ensures |got| <= |buf| && buffer[..] == Splice(buf, 0, got)
  {
    ghost var before := sd.incoming;
    var again;
    n, again := sd.Read(buffer, ptr, res);
    if again && n == -1 {
      n := 0;
    }
    got := was;
    if n <= 0 {
      MidwayEnd(goal, rest, was, before, res);
    } else {
      MidwayStep(goal, rest, was, before, res, n);
      SpliceSplice(buf, was, before[0].bs[..n]);
      got := was + before[0].bs[..n];
    }
  }

  // so_read: the count it returns, the buffer it leaves, and what it leaves on the socket.
  method SoRead(sd: Socket, buffer: array<byte>, len: nat) returns (ptr: int)
    requires len <= buffer.Length
    requires WellFormed(sd.incoming)
    modifies sd`incoming, buffer
    ensures WellFormed(sd.incoming)
    ensures FailsAtOnce(old(sd.incoming), len) ==>
      ptr == -1 && sd.incoming == old(sd.incoming)[1..] && buffer[..] == old(buffer[..])
    ensures !FailsAtOnce(old(sd.incoming), len) ==>
      && ptr == |SoReadBytes(old(sd.incoming), len)|
      && buffer[..] == Splice(old(buffer[..]), 0, SoReadBytes(old(sd.incoming), len))
      && sd.incoming == SoReadRest(old(sd.incoming), len)
  {
    ghost var was, buf := sd.incoming, buffer[..];
    ghost var goal, rest := SoReadBytes(was, len), SoReadRest(was, len);
    var bytesRead;
    ghost var got;
    bytesRead, got := ReadFirst(sd, buffer, len);
    if bytesRead == -1 {
      return -1;
    }
    var res := len - bytesRead;
    ptr := bytesRead;
    while res != 0
      invariant 0 <= res && ptr + res == len && ptr == |got|
      invariant WellFormed(sd.incoming)
      invariant Midway(goal, rest, got, sd.incoming, res)
      invariant buffer[..] == Splice(buf, 0, got)
    {
      bytesRead, got := ReadMore(sd, buffer, ptr, res, goal, rest, buf, got);
      if bytesRead <= 0 {
        return;
      }
      res := res - bytesRead;
      ptr := ptr + bytesRead;
    }
    MidwayEnd(goal, rest, got, sd.incoming, 0);
  }

  // ---- fragmentation does not matter ---------------------------------------

  // For every fragmentation of a byte stream without errors: the count is
  // min(len, remaining), the bytes are that prefix, and nothing more is consumed.
  lemma CleanRead(arrivals: seq<Arrival>, len: nat)
    requires Clean(arrivals)
    ensures !FailsAtOnce(arrivals, len) && AfterFirst(arrivals, len) == arrivals
    ensures SoReadBytes(arrivals, len) == Flat(arrivals)[..Min(len, |Flat(arrivals)|)]
    ensures Flat(SoReadRest(arrivals, len)) == Flat(arrivals)[Min(len, |Flat(arrivals)|)..]
    ensures Clean(SoReadRest(arrivals, len))
  {
    if arrivals != [] {
      assert arrivals[0] in arrivals;
    }
    TakenThenRest(arrivals, len);
  }

  lemma {:induction false} TakenThenRest(arrivals: seq<Arrival>, len: nat)
    requires Clean(arrivals)
    ensures Taken(arrivals, len) + Flat(Rest(arrivals, len)) == Flat(arrivals)
    ensures |Taken(arrivals, len)| == Min(len, |Flat(arrivals)|)
    ensures Clean(Rest(arrivals, len))
    decreases |arrivals|
  {
    if len > 0 && arrivals != [] {
      assert arrivals[0] in arrivals;
      var bs, tail := arrivals[0].bs, arrivals[1..];
      if |bs| <= len {
        TakenThenRest(tail, len - |bs|);
        Regroup(bs, Taken(tail, len - |bs|), Flat(Rest(tail, len - |bs|)));
      } else {
        SplitPiece(bs, tail, len);
      }
    }
  }

  lemma Regroup(a: bytes, b: bytes, c: bytes)
    ensures (a + b) + c == a + (b + c)
  {
  }

  // Taking part of the first piece.
  lemma SplitPiece(bs: bytes, tail: seq<Arrival>, len: nat)
    requires len < |bs|
    ensures bs[..len] + Flat([Data(bs[len..])] + tail) == bs + Flat(tail)
  {
    assert ([Data(bs[len..])] + tail)[1..] == tail;
    Regroup(bs[..len], bs[len..], Flat(tail));
    assert bs[..len] + bs[len..] == bs;
  }

  // so_read into memory holding `was`: the count, the memory and the connection afterwards.
  // What does not arrive leaves the old bytes in place.
  ghost function Count(arrivals: seq<Arrival>, len: nat): (n: int)
    ensures -1 <= n <= len
  {
    if FailsAtOnce(arrivals, len) then -1 else |SoReadBytes(arrivals, len)|
  }

  ghost function Memory(arrivals: seq<Arrival>, was: bytes): (now: bytes)
    ensures |now| == |was|
  {
    if FailsAtOnce(arrivals, |was|) then was else Splice(was, 0, SoReadBytes(arrivals, |was|))
  }

  ghost function Left(arrivals: seq<Arrival>, len: nat): seq<Arrival> {
    if FailsAtOnce(arrivals, len) then arrivals[1..] else SoReadRest(arrivals, len)
  }

  method ReadInto(sd: Socket, was: bytes) returns (now: bytes, n: int)
    requires WellFormed(sd.incoming)
    modifies sd`incoming
    ensures WellFormed(sd.incoming)
    ensures n == Count(old(sd.incoming), |was|) && now == Memory(old(sd.incoming), was)
    ensures sd.incoming == Left(old(sd.incoming), |was|)
    ensures |Flat(sd.incoming)| <= |Flat(old(sd.incoming))| - Max(n, 0)
  {
    BytesUsed(sd.incoming, |was|);
    var buffer := new byte[|was|](i requires 0 <= i < |was| => was[i]);
    assert buffer[..] == was;
    n := SoRead(sd, buffer, |was|);
    now := buffer[..];
  }

  // A fully delivered field is read exactly, and the reader stands behind it.
  lemma FieldArrives(arrivals: seq<Arrival>, field: bytes, tail: bytes, was: bytes)
    requires Clean(arrivals) && Flat(arrivals) == field + tail && |was| == |field|
    ensures Count(arrivals, |was|) == |field| && Memory(arrivals, was) == field
    ensures Clean(Left(arrivals, |was|)) && Flat(Left(arrivals, |was|)) == tail
  {
    CleanRead(arrivals, |was|);
  }

  // A connection that ends inside the field gives a short count, and nothing is left.
  lemma FieldCutShort(arrivals: seq<Arrival>, len: nat)
    requires Clean(arrivals) && |Flat(arrivals)| < len
    ensures Count(arrivals, len) == |Flat(arrivals)| < len
    ensures Clean(Left(arrivals, len)) && Flat(Left(arrivals, len)) == []
  {
    CleanRead(arrivals, len);
  }

  // A positive count uses up that many bytes of what is still to come.
  lemma BytesUsed(arrivals: seq<Arrival>, len: nat)
    ensures Count(arrivals, len) >= 0 ==> |Flat(Left(arrivals, len))| + Count(arrivals, len) == |Flat(arrivals)|
    ensures |Flat(Left(arrivals, len))| <= |Flat(arrivals)|
  {
    RestUsed(AfterFirst(arrivals, len), len);
  }

  lemma {:induction false} RestUsed(arrivals: seq<Arrival>, len: nat)
    ensures |Flat(Rest(arrivals, len))| + |Taken(arrivals, len)| == |Flat(arrivals)|
    decreases |arrivals|
  {
    if len > 0 && arrivals != [] && arrivals[0].Data? {
      if |arrivals[0].bs| <= len {
        RestUsed(arrivals[1..], len - |arrivals[0].bs|);
      } else {
        assert Rest(arrivals, len)[1..] == arrivals[1..];
      }
    }
  }

  // The same for a field whose bytes are known to be on their way, followed by tail.
  method ReadField(sd: Socket, was: bytes, ghost field: bytes, ghost tail: bytes) returns (now: bytes)
    requires WellFormed(sd.incoming) && |was| == |field|
    modifies sd`incoming
    ensures WellFormed(sd.incoming) && |now| == |was| && |Flat(sd.incoming)| <= |Flat(old(sd.incoming))|
    ensures Clean(old(sd.incoming)) && Flat(old(sd.incoming)) == field + tail ==>
      now == field && Clean(sd.incoming) && Flat(sd.incoming) == tail
  {
    ghost var arrivals := sd.incoming;
    var n;
    now, n := ReadInto(sd, was);
    if Clean(arrivals) && Flat(arrivals) == field + tail {
      FieldArrives(arrivals, field, tail, was);
    }
  }
}
