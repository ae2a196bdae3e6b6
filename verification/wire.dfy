/** The byte streams of both conversations, and why their two ends never lose step. */
module Wire {
  import opened Bytes
  import opened ChunkLayout
  import opened MetadataCodec
  import opened NumberField
  import opened Sockets
  import A = AtomicDownload

  const DOWNLOAD_CHUNK: byte := 1
  const DOWNLOAD_METADATA: byte := 2
  const UPLOAD_CHUNK: byte := 3
  const UPLOAD_INIT: byte := 4

  // ---- download ------------------------------------------------------------

  // What a client writes after the command and the header: one field for each request.
  function RequestsOf(ns: seq<nat>): bytes {
    if ns == [] then [] else PrintField(ns[0]) + RequestsOf(ns[1..])
  }

  function ReplyThen(digest: Digest, data: bytes, tail: bytes): bytes {
    digest + (Int64Bytes(|data|) + (data + tail))
  }

  predicate InFile(c: A.Config, ns: seq<nat>) {
    A.ValidConfig(c) && forall k :: 0 <= k < |ns| ==> ns[k] < A.ChunkCount(c)
  }

  // What the server must write in answer.
  function RepliesOf(c: A.Config, ns: seq<nat>): bytes
    requires InFile(c, ns)
  {
    if ns == [] then []
    else ReplyThen(c.md5(A.Reply(c, ns[0])), A.Reply(c, ns[0]), RepliesOf(c, ns[1..]))
  }

  // The header describes the served file.
  predicate Describes(h: Header, c: A.Config) {
    && ValidHeader(h) && A.ValidConfig(c)
    && h.fileSize == |c.src| && h.chunkSize == c.chunkSize && h.chunks == A.ChunkCount(c)
  }

  // What the three so_read calls of a download worker make of any connection whatever, with
  // `was` in rcv_md5sum. Overrun: the size field is negative or larger than the buffer.
  datatype Fetch = Got(md5: Digest, data: bytes, rest: seq<Arrival>)
                 | Broken(md5: Digest, rest: seq<Arrival>)
                 | Overrun(md5: Digest, rest: seq<Arrival>)

  ghost function Fetched(arrivals: seq<Arrival>, was: Digest): Fetch {
    var md5, a1 := Memory(arrivals, was), Left(arrivals, 16);
    if Count(arrivals, 16) != 16 then Broken(md5, a1)
    else
      var size, a2 := Int64Of(Memory(a1, Zeros(8))), Left(a1, 8);
      if Count(a1, 8) != 8 then Broken(md5, a2)
      else if !(0 <= size <= MAX_CHUNK_SIZE) then Overrun(md5, a2)
      else if Count(a2, size) != size then Broken(md5, Left(a2, size))
      else Got(md5, Memory(a2, Zeros(size)), Left(a2, size))
  }

  // A reply that is fully delivered, in whatever pieces, is received exactly.
  lemma ReplyArrives(arrivals: seq<Arrival>, was: Digest, digest: Digest, data: bytes, tail: bytes)
    requires Clean(arrivals) && Flat(arrivals) == ReplyThen(digest, data, tail) && |data| <= MAX_CHUNK_SIZE
    ensures var f := Fetched(arrivals, was);
      f.Got? && f.md5 == digest && f.data == data && Clean(f.rest) && Flat(f.rest) == tail
  {
    FieldArrives(arrivals, digest, Int64Bytes(|data|) + (data + tail), was);
    var a1 := Left(arrivals, 16);
    FieldArrives(a1, Int64Bytes(|data|), data + tail, Zeros(8));
    Int64RoundTrip(|data|);
    FieldArrives(Left(a1, 8), data, tail, Zeros(|data|));
  }

  // A reply that is cut off anywhere, in whatever pieces, is never taken for a chunk.
  lemma CutReplyFails(arrivals: seq<Arrival>, was: Digest, digest: Digest, data: bytes)
    requires Clean(arrivals) && Flat(arrivals) < ReplyThen(digest, data, []) && |data| <= MAX_CHUNK_SIZE
    ensures Fetched(arrivals, was).Broken?
  {
    var flat := Flat(arrivals);
    if |flat| < 16 {
      FieldCutShort(arrivals, 16);
    } else {
      CutHead(digest, Int64Bytes(|data|) + (data + []), flat);
      FieldArrives(arrivals, digest, flat[16..], was);
      CutSizeFails(Left(arrivals, 16), data);
    }
  }

  lemma CutSizeFails(a1: seq<Arrival>, data: bytes)
    requires Clean(a1) && Flat(a1) < Int64Bytes(|data|) + (data + []) && |data| <= MAX_CHUNK_SIZE
    ensures Count(a1, 8) == 8 ==>
      && Int64Of(Memory(a1, Zeros(8))) == |data|
      && Count(Left(a1, 8), |data|) < |data|
  {
    var flat := Flat(a1);
    if |flat| < 8 {
      FieldCutShort(a1, 8);
    } else {
      CutHead(Int64Bytes(|data|), data + [], flat);
      FieldArrives(a1, Int64Bytes(|data|), flat[8..], Zeros(8));
      Int64RoundTrip(|data|);
      FieldCutShort(Left(a1, 8), |data|);
    }
  }

  // A proper prefix that reaches past the head is the head and a proper prefix of the rest.
  lemma CutHead(head: bytes, tail: bytes, flat: bytes)
    requires flat < head + tail && |head| <= |flat|
    ensures flat == head + flat[|head|..] && flat[|head|..] < tail
  {
    var rest := flat[|head|..];
    assert flat[..|head|] == (head + tail)[..|head|] == head;
    assert rest == (head + tail)[|head|..|flat|] == tail[..|rest|];
  }

  // The client, asking for ns one after the other, gets for each exactly what the server
  // sends for it: digest, size and bytes.
  ghost predicate InStep(c: A.Config, ns: seq<nat>, arrivals: seq<Arrival>)
    requires InFile(c, ns)
  {
    ns != [] ==>
      forall was: Digest ::
        var f := Fetched(arrivals, was);
        && f.Got? && f.data == A.Reply(c, ns[0]) && f.md5 == c.md5(f.data)
        && InStep(c, ns[1..], f.rest)
  }

  // For every sequence of requests and every fragmentation of the server's bytes.
  lemma {:induction false} ConversationInStep(c: A.Config, ns: seq<nat>, arrivals: seq<Arrival>)
    requires InFile(c, ns) && Clean(arrivals) && Flat(arrivals) == RepliesOf(c, ns)
    ensures InStep(c, ns, arrivals)
  {
    if ns != [] {
      var data := A.Reply(c, ns[0]);
      A.ReplyLength(c, ns[0]);
      forall was: Digest
        ensures var f := Fetched(arrivals, was);
          && f.Got? && f.data == data && f.md5 == c.md5(data) && InStep(c, ns[1..], f.rest)
      {
        ReplyArrives(arrivals, was, c.md5(data), data, RepliesOf(c, ns[1..]));
        ConversationInStep(c, ns[1..], Fetched(arrivals, was).rest);
      }
    }
  }

  // ---- the description of a file -------------------------------------------

  const MH_OK: int := 0
  const MH_FILE_NOT_FOUND: int := 1

  // The fields of DOWNLOAD_METADATA after the command byte.
  function AskThen(size: int, path: bytes, tail: bytes): bytes {
    Int64Bytes(size) + (Int16Bytes(|path|) + (path + tail))
  }

  // A path that fits the buffers on both sides.
  predicate ValidPath(path: bytes) { |path| < FNAME_SIZE && 0 !in path }

  // A path as C sees it: what stands before the first zero byte.
  function CString(b: bytes): (s: bytes)
    ensures |s| <= |b|
  {
    if b == [] || b[0] == 0 then [] else [b[0]] + CString(b[1..])
  }

  // The name field of the header the server makes: the path, its terminator, and whatever the
  // memory of a new Metadata object held behind it.
  function NameField(path: bytes, junk: bytes): (name: bytes)
    requires |path| < |junk| == FNAME_SIZE
    ensures |name| == FNAME_SIZE
  {
    path + [0] + junk[|path| + 1..]
  }

  lemma {:induction false} CStringIs(path: bytes, rest: bytes)
    requires 0 !in path
    ensures CString(path + [0] + rest) == path
  {
    if path == [] {
      assert path + [0] + rest == [0] + rest;
    } else {
      assert (path + [0] + rest)[1..] == path[1..] + [0] + rest;
      CStringIs(path[1..], rest);
    }
  }

  function HeaderOf(src: bytes, size: nat, path: bytes, junk: bytes, md5: bytes -> Digest): (h: Header)
    requires size > 0 && |path| < |junk| == FNAME_SIZE
  {
    Header(NameField(path, junk), |src|, size, Chunks(|src|, size), md5(src), 0)
  }

  // ---- upload --------------------------------------------------------------

  datatype Record = Record(chunk: nat, data: bytes)

  predicate ValidRecord(r: Record) { IsInt64(r.chunk) && |r.data| <= MAX_CHUNK_SIZE }

  function RecordThen(r: Record, tail: bytes): bytes {
    Int64Bytes(r.chunk) + (Int64Bytes(|r.data|) + (r.data + tail))
  }

  function RecordsThen(recs: seq<Record>, tail: bytes): bytes {
    if recs == [] then tail else RecordThen(recs[0], RecordsThen(recs[1..], tail))
  }

  // The fields of UPLOAD_INIT after the command byte.
  datatype UploadHeader = UploadHeader(path: bytes, chunkSize: int, fileSize: int, digest: Digest)

  predicate ValidUploadHeader(u: UploadHeader) {
    IsInt16(|u.path|) && IsInt64(u.chunkSize) && IsInt64(u.fileSize)
  }

  function InitThen(u: UploadHeader, tail: bytes): bytes {
    Int16Bytes(|u.path|) + (u.path + (Int64Bytes(u.chunkSize) + (Int64Bytes(u.fileSize) + (u.digest + tail))))
  }

  // Where the server writes a record.
  function Place(chunk: nat, chunkSize: nat): nat {
    MulMono(chunk, 0, chunkSize);
    chunk * chunkSize
  }

  // The writes of a list of records into the target, in order.
  function Applied(target: bytes, chunkSize: nat, recs: seq<Record>): bytes
    decreases |recs|
  {
    if recs == [] then target
    else Applied(WriteAt(target, Place(recs[0].chunk, chunkSize), recs[0].data), chunkSize, recs[1..])
  }

  // How a stream of records ends: with -1, or (a killed client) with the connection.
  function ByeThen(bye: bool, tail: bytes): bytes {
    if bye then Int64Bytes(-1) + tail else []
  }

  predicate ValidRecords(recs: seq<Record>) {
    forall k :: 0 <= k < |recs| ==> ValidRecord(recs[k])
  }

  // ---- what a target holds after an upload ---------------------------------

  // The record carries its chunk's own bytes.
  predicate TrueRecord(src: bytes, chunkSize: nat, r: Record)
    requires chunkSize > 0
  {
    r.chunk < Chunks(|src|, chunkSize) && r.data == Slice(src, chunkSize, r.chunk)
  }

  ghost predicate Right(src: bytes, chunkSize: nat, target: bytes, i: nat)
    requires chunkSize > 0 && i < Chunks(|src|, chunkSize)
  {
    Piece(target, |src|, chunkSize, i) == Slice(src, chunkSize, i)
  }

  lemma {:induction false} AppliedKeeps(src: bytes, chunkSize: nat, target: bytes, recs: seq<Record>, i: nat)
    requires chunkSize > 0 && i < Chunks(|src|, chunkSize)
    requires forall r :: r in recs ==> TrueRecord(src, chunkSize, r)
    requires Right(src, chunkSize, target, i) || exists r :: r in recs && r.chunk == i
    ensures Right(src, chunkSize, Applied(target, chunkSize, recs), i)
    decreases |recs|
  {
    if recs != [] {
      var r := recs[0];
      var next := WriteAt(target, Place(r.chunk, chunkSize), r.data);
      OneRecord(src, chunkSize, target, r, i);
      assert r.chunk == i || Right(src, chunkSize, target, i) || exists q :: q in recs[1..] && q.chunk == i by {
        assert forall q :: q in recs ==> q == r || q in recs[1..];
      }
      AppliedKeeps(src, chunkSize, next, recs[1..], i);
    }
  }

  lemma OneRecord(src: bytes, chunkSize: nat, target: bytes, r: Record, i: nat)
    requires chunkSize > 0 && i < Chunks(|src|, chunkSize) && TrueRecord(src, chunkSize, r)
    ensures r.chunk == i || Right(src, chunkSize, target, i) ==>
      Right(src, chunkSize, WriteAt(target, Place(r.chunk, chunkSize), r.data), i)
  {
    if r.chunk == i {
      SameRecord(target, chunkSize, i, r.data);
    } else if Right(src, chunkSize, target, i) {
      OtherRecord(target, chunkSize, r.chunk, r.data, i, Slice(src, chunkSize, i));
    }
  }

  lemma SameRecord(target: bytes, chunkSize: nat, k: nat, data: bytes)
    ensures ReadAt(WriteAt(target, Place(k, chunkSize), data), chunkSize * k, |data|) == data
  {
    assert k * chunkSize == chunkSize * k;
    WriteThenRead(target, Place(k, chunkSize), data);
  }

  lemma OtherRecord(target: bytes, chunkSize: nat, k: nat, data: bytes, i: nat, there: bytes)
    requires k != i && 0 < |data| <= chunkSize && 0 < |there| <= chunkSize
    requires ReadAt(target, chunkSize * i, |there|) == there
    ensures ReadAt(WriteAt(target, Place(k, chunkSize), data), chunkSize * i, |there|) == there
  {
    if i < k { Apart(chunkSize, i, k); } else { Apart(chunkSize, k, i); }
    ReadFrame(target, Place(k, chunkSize), data, chunkSize * i, there);
  }

  // Records in any order, with any repeats: if every chunk is among them or already right in
  // the target, the target ends up with the source as its prefix.
  lemma AnyOrder(src: bytes, chunkSize: nat, target: bytes, recs: seq<Record>)
    requires chunkSize > 0
    requires forall r :: r in recs ==> TrueRecord(src, chunkSize, r)
    requires forall i: nat | i < Chunks(|src|, chunkSize) ::
      Right(src, chunkSize, target, i) || exists r :: r in recs && r.chunk == i
    ensures src <= Applied(target, chunkSize, recs)
  {
    var after := Applied(target, chunkSize, recs);
    forall i: nat | i < Chunks(|src|, chunkSize)
      ensures Piece(after, |src|, chunkSize, i) == Slice(src, chunkSize, i)
    {
      AppliedKeeps(src, chunkSize, target, recs, i);
      assert Right(src, chunkSize, after, i);
    }
    PiecesMakePrefix(src, chunkSize, after);
  }

  // ---- streams grow at the end ---------------------------------------------

  lemma {:induction false} RequestsSnoc(ns: seq<nat>, n: nat)
    ensures RequestsOf(ns + [n]) == RequestsOf(ns) + PrintField(n)
  {
    if ns == [] {
      assert ([] + [n])[1..] == [];
    } else {
      assert (ns + [n])[1..] == ns[1..] + [n];
      RequestsSnoc(ns[1..], n);
    }
  }

  lemma {:induction false} RecordsEnd(recs: seq<Record>, tail: bytes)
    ensures RecordsThen(recs, tail) == RecordsThen(recs, []) + tail
  {
    if recs != [] {
      RecordsEnd(recs[1..], tail);
      var r, rest := recs[0], RecordsThen(recs[1..], []);
      assert r.data + (rest + tail) == (r.data + rest) + tail;
      assert Int64Bytes(|r.data|) + ((r.data + rest) + tail) == (Int64Bytes(|r.data|) + (r.data + rest)) + tail;
    }
  }

  lemma {:induction false} RecordsSnoc(recs: seq<Record>, r: Record, tail: bytes)
    ensures RecordsThen(recs + [r], tail) == RecordsThen(recs, RecordThen(r, tail))
  {
    if recs == [] {
      assert ([] + [r])[1..] == [];
    } else {
      assert (recs + [r])[1..] == recs[1..] + [r];
      RecordsSnoc(recs[1..], r, tail);
    }
  }

  lemma {:induction false} AppliedSnoc(target: bytes, chunkSize: nat, recs: seq<Record>, r: Record)
    ensures Applied(target, chunkSize, recs + [r])
      == WriteAt(Applied(target, chunkSize, recs), Place(r.chunk, chunkSize), r.data)
    decreases |recs|
  {
    if recs == [] {
      assert ([] + [r])[1..] == [];
    } else {
      assert (recs + [r])[1..] == recs[1..] + [r];
      AppliedSnoc(WriteAt(target, Place(recs[0].chunk, chunkSize), recs[0].data), chunkSize, recs[1..], r);
    }
  }
}
