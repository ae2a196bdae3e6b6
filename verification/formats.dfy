/** The formats, field by field: what stands where in the metadata file and on the wire. The codecs
    and conversations are proved elsewhere as round trips; here are the bytes themselves. */
module Formats {
  import opened Bytes
  import opened ChunkTable
  import opened MetadataCodec
  import opened MetadataObject
  import opened NumberField
  import opened Sockets
  import opened Wire
  import opened Server

  // ---- integers ------------------------------------------------------------

  lemma {:induction false} LEDigit(v: nat, k: nat, i: nat)
    requires i < k
    ensures ToLE(v, k)[i] == (v / Pow256(i)) % 256
  {
    if i > 0 {
      LEDigit(v / 256, k - 1, i - 1);
      DivDiv(v, Pow256(i - 1));
    }
  }

  lemma DivDiv(v: nat, p: nat)
    requires p > 0
    ensures v / (256 * p) == (v / 256) / p
  {
    var q, t := (v / 256) / p, p * ((v / 256) / p);
    assert t <= v / 256 < t + p;
    assert (256 * p) * q == 256 * t;
    Quotient(v, 256 * p, q);
  }

  // An int64 is little-endian two's complement.
  lemma Int64Layout(x: int, i: nat)
    requires IsInt64(x) && i < 8
    ensures Int64Bytes(x)[i] == ((x + (if x < 0 then 0x1_0000_0000_0000_0000 else 0)) / Pow256(i)) % 256
  {
    LEDigit(if x < 0 then x + 0x1_0000_0000_0000_0000 else x, 8, i);
  }

  lemma Int16Layout(x: nat)
    requires IsInt16(x)
    ensures Int16Bytes(x) == [x % 256, x / 256]
  {
    LEDigit(x, 2, 0);
    LEDigit(x, 2, 1);
    assert Pow256(1) == 256 * Pow256(0);
  }

  lemma MinusOne()
    ensures Int64Bytes(-1) == [255, 255, 255, 255, 255, 255, 255, 255]
  {
    var v := 0xFFFF_FFFF_FFFF_FFFF;
    assert ToLE(v, 8) == [255] + ToLE(v / 256, 7) && ToLE(v / 256, 7) == [255] + ToLE(v / 0x1_0000, 6);
    assert ToLE(v / 0x1_0000, 6) == [255] + ToLE(v / 0x100_0000, 5);
    assert ToLE(v / 0x100_0000, 5) == [255] + ToLE(v / 0x1_0000_0000, 4);
    assert ToLE(v / 0x1_0000_0000, 4) == [255] + ToLE(0xFF_FFFF, 3) && ToLE(0xFF_FFFF, 3) == [255] + ToLE(0xFFFF, 2);
    assert ToLE(0xFFFF, 2) == [255] + ToLE(255, 1) && ToLE(255, 1) == [255] + ToLE(0, 0);
  }

  // ---- the metadata file ---------------------------------------------------

  lemma HeaderLayout(h: Header)
    requires ValidHeader(h)
    ensures var b := EncodeHeader(h);
      && |b| == 2103
      && b[..14] == [77, 72, 70, 84, 80, 95, 77, 69, 84, 65, 68, 65, 84, 65]  // MHFTP_METADATA
      && b[14..2062] == h.fileFull && b[2062..2070] == Int64Bytes(h.fileSize)
      && b[2070..2078] == Int64Bytes(h.chunkSize) && b[2078..2086] == Int64Bytes(h.chunks)
      && b[2086..2102] == h.digest && b[2102] == h.inUse
  {
  }

  // An entry: digest, size, status, padding; the words for the status as in the source's enum.
  lemma EntryLayout(info: ChunkInfo)
    requires IsInt64(info.size)
    ensures var b := EncodeInfo(info);
      && |b| == 32 && b[..16] == info.md5 && b[16..24] == Int64Bytes(info.size)
      && b[24] == (match info.status case Ok => 0 case Pending => 1 case Error => 2 case Download => 3 case Upload => 4)
      && b[25..] == [0, 0, 0, 0, 0, 0, 0]
  {
    var code := StatusCode(info.status);
    assert ToLE(code, 4) == [code] + ToLE(0, 3) && ToLE(0, 3) == [0] + ToLE(0, 2);
    assert ToLE(0, 2) == [0] + ToLE(0, 1) && ToLE(0, 1) == [0] + ToLE(0, 0);
    assert ToLE(code, 4) == [code, 0, 0, 0] && Zeros(4) == [0, 0, 0, 0];
    FourFields(info.md5, Int64Bytes(info.size), code);
  }

  lemma FourFields(md5: bytes, size: bytes, code: byte)
    requires |md5| == 16 && |size| == 8
    ensures var b := md5 + size + [code, 0, 0, 0] + [0, 0, 0, 0];
      b[..16] == md5 && b[16..24] == size && b[24] == code && b[25..] == [0, 0, 0, 0, 0, 0, 0]
  {
  }

  // Entry i stands at 2103 + 32 * i.
  lemma FileLayout(h: Header, t: Table, i: nat)
    requires ValidHeader(h) && i < |t|
    ensures |Encode(h, t)| == 2103 + 32 * |t|
    ensures Encode(h, t)[..2103] == EncodeHeader(h)
    ensures Encode(h, t)[2103 + 32 * i..2103 + 32 * i + 32] == EncodeInfo(t[i])
  {
    TableEntry(t, i);
    var e := EncodeTable(t);
    assert Encode(h, t)[2103 + 32 * i..2103 + 32 * i + 32] == e[32 * i..32 * i + 32];
  }

  // ---- the wire ------------------------------------------------------------

  lemma WireHeaderLayout(h: Header, tail: bytes)
    requires ValidHeader(h)
    ensures var b := WireHeaderThen(h, tail);
      && |b| == 2088 + |tail|
      && b[..16] == h.digest && b[16..24] == Int64Bytes(h.fileSize) && b[24..2072] == h.fileFull
      && b[2072..2080] == Int64Bytes(h.chunkSize) && b[2080..2088] == Int64Bytes(h.chunks) && b[2088..] == tail
  {
  }

  lemma ReplyLayout(digest: Digest, data: bytes, tail: bytes)
    ensures var b := ReplyThen(digest, data, tail);
      && b[..16] == digest && b[16..24] == Int64Bytes(|data|)
      && b[24..24 + |data|] == data && b[24 + |data|..] == tail
  {
  }

  lemma RecordLayout(r: Record, tail: bytes)
    ensures var b := RecordThen(r, tail);
      && b[..8] == Int64Bytes(r.chunk) && b[8..16] == Int64Bytes(|r.data|)
      && b[16..16 + |r.data|] == r.data && b[16 + |r.data|..] == tail
  {
  }

  lemma InitLayout(u: UploadHeader, tail: bytes)
    ensures var b, n := InitThen(u, tail), |u.path|;
      && b[..2] == Int16Bytes(n) && b[2..2 + n] == u.path
      && b[2 + n..10 + n] == Int64Bytes(u.chunkSize) && b[10 + n..18 + n] == Int64Bytes(u.fileSize)
      && b[18 + n..34 + n] == u.digest && b[34 + n..] == tail
  {
    var n := |u.path|;
    assert InitThen(u, tail)[2 + n..] ==
      Int64Bytes(u.chunkSize) + (Int64Bytes(u.fileSize) + (u.digest + tail));
  }

  lemma AskLayout(size: int, path: bytes, tail: bytes)
    ensures var b, n := AskThen(size, path, tail), |path|;
      && b[..8] == Int64Bytes(size) && b[8..10] == Int16Bytes(n) && b[10..10 + n] == path && b[10 + n..] == tail
  {
  }

  // The command bytes.
  lemma CommandByte(script: Script, tail: bytes)
    ensures ScriptThen(script, tail) != []
    ensures ScriptThen(script, tail)[0] ==
      match script case Requests(h, ns) => 1 case Ask(size, path) => 2 case Records(recs, bye) => 3 case Init(u) => 4
  {
  }

  // Requests are fields of seven bytes, one after the other.
  lemma {:induction false} RequestLayout(ns: seq<nat>, k: nat)
    requires k < |ns|
    ensures |RequestsOf(ns)| == 7 * |ns|
    ensures RequestsOf(ns)[7 * k..7 * k + 7] == PrintField(ns[k])
    decreases |ns|
  {
    if |ns| > 1 {
      RequestLayout(ns[1..], if k > 0 then k - 1 else 0);
      if k > 0 {
        assert RequestsOf(ns)[7 * k..7 * k + 7] == RequestsOf(ns[1..])[7 * (k - 1)..7 * (k - 1) + 7];
      }
    } else {
      assert RequestsOf(ns[1..]) == [];
    }
  }

  // A field: as many decimal digits as there are, at most six, then zeros.
  lemma FieldLayout(n: nat, k: nat)
    requires k < 7
    ensures PrintField(n)[k] ==
      if k < Min(6, |Digits(n)|) then 48 + (n / Pow10(|Digits(n)| - 1 - k)) % 10 else 0
  {
    if k < Min(6, |Digits(n)|) { DigitAt(n, k); }
  }

  lemma {:induction false} DigitAt(n: nat, k: nat)
    requires k < |Digits(n)|
    ensures Digits(n)[k] == 48 + (n / Pow10(|Digits(n)| - 1 - k)) % 10
    decreases n
  {
    if n >= 10 && k < |Digits(n)| - 1 {
      DigitAt(n / 10, k);
      DivByTen(n, Pow10(|Digits(n)| - 2 - k));
    } else if n >= 10 {
      assert Pow10(0) == 1;
    } else {
      assert Pow10(0) == 1;
    }
  }

  // What atoi makes of white space, a sign, and what follows the digits: "  -12x", "+7", "x1".
  lemma AtoiExamples()
    ensures Atoi([32, 9, 45, 49, 50, 120, 0]) == -12
    ensures Atoi([43, 55, 0, 0, 0, 0, 0]) == 7
    ensures Atoi([120, 49, 0, 0, 0, 0, 0]) == 0
  {
    var a := [32, 9, 45, 49, 50, 120, 0];
    assert a[1..] == [9, 45, 49, 50, 120, 0] && a[1..][1..] == [45, 49, 50, 120, 0];
    assert a[1..][1..][1..] == [49, 50, 120, 0];
    assert Leading([49, 50, 120, 0], 0) == Leading([50, 120, 0], 1) == Leading([120, 0], 12) == 12;
    var b := [43, 55, 0, 0, 0, 0, 0];
    assert b[1..] == [55, 0, 0, 0, 0, 0];
    assert Leading([55, 0, 0, 0, 0, 0], 0) == Leading([0, 0, 0, 0, 0], 7) == 7;
  }

  // ---- connections that fail -----------------------------------------------

  // A read that meets EAGAIN or an error before it has all it wants gives what came before and
  // consumes the failure; only as the very first thing does EAGAIN go unnoticed and an error
  // give -1.
  lemma {:induction false} FailureInside(arrivals: seq<Arrival>, failure: Arrival, rest: seq<Arrival>, len: nat)
    requires Clean(arrivals) && !failure.Data? && |Flat(arrivals)| < len
    ensures Taken(arrivals + [failure] + rest, len) == Flat(arrivals)
    ensures Rest(arrivals + [failure] + rest, len) == rest
    decreases |arrivals|
  {
    var all := arrivals + [failure] + rest;
    if arrivals == [] {
      assert all == [failure] + rest;
    } else {
      assert arrivals[0] in arrivals;
      FailureInside(arrivals[1..], failure, rest, len - |arrivals[0].bs|);
      assert all[1..] == arrivals[1..] + [failure] + rest;
    }
  }

  lemma ReadMeetsFailure(arrivals: seq<Arrival>, failure: Arrival, rest: seq<Arrival>, was: bytes)
    requires Clean(arrivals) && arrivals != [] && !failure.Data? && |Flat(arrivals)| < |was|
    ensures var all := arrivals + [failure] + rest;
      && Count(all, |was|) == |Flat(arrivals)| && Left(all, |was|) == rest
      && Memory(all, was) == Flat(arrivals) + was[|Flat(arrivals)|..]
  {
    var all := arrivals + [failure] + rest;
    assert arrivals[0] in arrivals && all[0] == arrivals[0];
    FailureInside(arrivals, failure, rest, |was|);
    assert AfterFirst(all, |was|) == all && !FailsAtOnce(all, |was|);
    SpliceFront(was, Flat(arrivals));
  }

  lemma SpliceFront(was: bytes, got: bytes)
    requires |got| <= |was|
    ensures Splice(was, 0, got) == got + was[|got|..]
  {
  }

  lemma ReadStartsWithFailure(rest: seq<Arrival>, was: bytes)
    requires Clean(rest) && 0 < |was| <= |Flat(rest)|
    ensures Count([Fail] + rest, |was|) == -1 && Left([Fail] + rest, |was|) == rest && Memory([Fail] + rest, was) == was
    ensures Count([Again] + rest, |was|) == |was| && Memory([Again] + rest, was) == Flat(rest)[..|was|]
  {
    assert ([Fail] + rest)[1..] == rest && ([Again] + rest)[1..] == rest;
    CleanRead(rest, |was|);
  }

  // What a short read leaves of the buffer.
  lemma ShortRead(arrivals: seq<Arrival>, was: bytes)
    requires Clean(arrivals) && |Flat(arrivals)| < |was|
    ensures Memory(arrivals, was) == Flat(arrivals) + was[|Flat(arrivals)|..]
  {
    CleanRead(arrivals, |was|);
    SpliceFront(was, Flat(arrivals));
  }

  // On any connection whatever, failures included: a fetch that succeeds has read a whole reply.
  lemma GotIsWhole(arrivals: seq<Arrival>, was: Digest)
    requires Fetched(arrivals, was).Got?
    ensures var f := Fetched(arrivals, was);
      exists size: bytes :: |size| == 8 && Int64Of(size) == |f.data| &&
        Flat(arrivals) == f.md5 + (size + (f.data + Flat(f.rest)))
  {
    var a1 := Left(arrivals, 16);
    var size := Memory(a1, Zeros(8));
    var a2 := Left(a1, 8);
    FullRead(arrivals, was);
    FullRead(a1, Zeros(8));
    FullRead(a2, Zeros(Int64Of(size)));
  }

  lemma FullRead(arrivals: seq<Arrival>, was: bytes)
    requires Count(arrivals, |was|) == |was|
    ensures Flat(arrivals) == Memory(arrivals, was) + Flat(Left(arrivals, |was|))
  {
    TakenRest(AfterFirst(arrivals, |was|), |was|);
  }

  lemma {:induction false} TakenRest(arrivals: seq<Arrival>, len: nat)
    requires |Taken(arrivals, len)| == len
    ensures Flat(arrivals) == Taken(arrivals, len) + Flat(Rest(arrivals, len))
    decreases |arrivals|
  {
    if len > 0 && arrivals != [] && arrivals[0].Data? {
      var bs, tail := arrivals[0].bs, arrivals[1..];
      if |bs| <= len {
        TakenRest(tail, len - |bs|);
        Regroup(bs, Taken(tail, len - |bs|), Flat(Rest(tail, len - |bs|)));
      } else {
        SplitPiece(bs, tail, len);
      }
    }
  }
}
