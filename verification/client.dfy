/** The client's side of one connection: what a worker writes and reads for one chunk. */
module Client {
  import opened Bytes
  import opened ChunkLayout
  import opened ChunkTable
  import opened MetadataCodec
  import opened MetadataObject
  import opened NumberField
  import opened Sockets
  import opened Wire
  import opened Server
  import A = AtomicDownload

  // ---- the description of a file -------------------------------------------

  // Asks for the file's header and makes a metadata file of it, with a fresh array and an
  // in-use mark that nothing has set. False when the server does not have the file, and when
  // the code would go on with a meaningless header.
  method DownloadMetadataFromServer(sd: Socket, path: bytes, chunkSize: int, control: Fd, use: byte, ghost h: Header)
    returns (found: bool)
    requires WellFormed(sd.incoming)
    requires ValidHeader(h) && h.chunkSize > 0 && h.fileSize >= 0 && h.chunks == Chunks(h.fileSize, h.chunkSize)
    modifies sd, control
    ensures sd.sent == old(sd.sent) + ScriptThen(Ask(chunkSize, path), [])
    ensures Clean(old(sd.incoming)) && Flat(old(sd.incoming)) == Int16Bytes(MH_OK) + WireHeaderThen(h, []) ==>
      found
      && Decode(control.contents) == Loaded(h.(inUse := use), FreshTable(h.fileSize, h.chunkSize, h.chunks))
    ensures Clean(old(sd.incoming)) && Flat(old(sd.incoming)) == Int16Bytes(MH_FILE_NOT_FOUND) ==>
      !found && control.contents == old(control.contents)
  {
    ghost var w, arrivals := sd.sent, sd.incoming;
    sd.Write([DOWNLOAD_METADATA]);
    sd.Write(Int64Bytes(chunkSize));
    sd.Write(Int16Bytes(|path|));
    sd.Write(path);
    FourParts(w, [DOWNLOAD_METADATA], Int64Bytes(chunkSize), Int16Bytes(|path|), path);
    Int16RoundTrip(MH_OK);
    Int16RoundTrip(MH_FILE_NOT_FOUND);
    var b, br := ReadInto(sd, Zeros(2));
    if Clean(arrivals) && Flat(arrivals) == Int16Bytes(MH_OK) + WireHeaderThen(h, []) {
      FieldArrives(arrivals, Int16Bytes(MH_OK), WireHeaderThen(h, []), Zeros(2));
    } else if Clean(arrivals) && Flat(arrivals) == Int16Bytes(MH_FILE_NOT_FOUND) {
      FieldArrives(arrivals, Int16Bytes(MH_FILE_NOT_FOUND), [], Zeros(2));
    }
    if Int16Of(b) == MH_FILE_NOT_FOUND {
      return false;
    }
    found := SaveDescription(sd, control, use, h);
  }

  method SaveDescription(sd: Socket, control: Fd, use: byte, ghost h: Header) returns (ok: bool)
    requires WellFormed(sd.incoming)
    requires ValidHeader(h) && h.chunkSize > 0 && h.fileSize >= 0 && h.chunks == Chunks(h.fileSize, h.chunkSize)
    modifies sd`incoming, control
    ensures Clean(old(sd.incoming)) && Flat(old(sd.incoming)) == WireHeaderThen(h, []) ==>
      ok && Decode(control.contents) == Loaded(h.(inUse := use), FreshTable(h.fileSize, h.chunkSize, h.chunks))
  {
    var metadata := new Metadata();
    metadata.inUse := use;
    metadata.ReadMetadataHeader(sd, h, []);
    if metadata.chunkSize <= 0 || metadata.fileSize < 0 || metadata.chunks >= MAX_TABLE
       || metadata.chunks != Chunks(metadata.fileSize, metadata.chunkSize) {
      return false;
    }
    metadata.StoreMetadata(control);  // initControlData and SaveMetadata
    ok := true;
  }

  lemma FourParts(w: bytes, a: bytes, b: bytes, c: bytes, d: bytes)
    ensures w + a + b + c + d == w + (a + (b + (c + (d + []))))
  {
    assert d + [] == d;
    Regroup(w, a, b + (c + d));
    Regroup(w + a, b, c + d);
    Regroup(w + a + b, c, d);
  }

  // ---- download ------------------------------------------------------------

  // One field is added to the stream, and the server decodes from it the chunk's number exactly
  // below a million, its leading six digits otherwise.
  method RequestChunk(sd: Socket, chunkNumber: nat)
    modifies sd`sent
    ensures sd.sent == old(sd.sent) + PrintField(chunkNumber)
    ensures |sd.sent| == |old(sd.sent)| + FIELD_SIZE
    ensures Atoi(sd.sent[|old(sd.sent)|..]) == chunkNumber <==> chunkNumber < FIELD_LIMIT
    ensures Atoi(sd.sent[|old(sd.sent)|..]) == LeadingPart(chunkNumber, 6)
  {
    var field := PrintField(chunkNumber);
    assert (sd.sent + field)[|sd.sent|..] == field;
    FieldFaithful(chunkNumber);
    RequestedIs(chunkNumber);
    sd.Write(field);
  }

  datatype Outcome = Arrived | SockError | Overran

  // From the request to the local write: on any connection whatever, the outcome is that of
  // Fetched, and the local file changes only when the whole reply has arrived.
  method FetchChunk(sd: Socket, chunkNumber: nat, chunkSize: nat, file: Fd, was: Digest)
    returns (r: Outcome, md5: Digest)
    requires WellFormed(sd.incoming)
    modifies sd, file
    ensures WellFormed(sd.incoming)
    ensures sd.sent == old(sd.sent) + PrintField(chunkNumber)
    ensures var f := Fetched(old(sd.incoming), was);
      && md5 == f.md5 && sd.incoming == f.rest
      && r == (if f.Got? then Arrived else if f.Broken? then SockError else Overran)
      && file.contents == if f.Got? then WriteAt(old(file.contents), Place(chunkNumber, chunkSize), f.data)
                          else old(file.contents)
  {
    RequestChunk(sd, chunkNumber);
    var br;
    md5, br := ReadInto(sd, was);
    if br != 16 {
      return SockError, md5;
    }
    var b;
    b, br := ReadInto(sd, Zeros(8));
    var dataSize := Int64Of(b);
    if br != 8 {
      return SockError, md5;
    }
    if dataSize < 0 || dataSize > MAX_CHUNK_SIZE {
      return Overran, md5;  // the code would run past its buffer here
    }
    var data;
    data, br := ReadInto(sd, Zeros(dataSize));
    if br != dataSize {
      return SockError, md5;
    }
    file.Seek(Place(chunkNumber, chunkSize));
    file.Write(data);
    r := Arrived;
  }

  // The records that a download's replies amount to.
  function ReplyRecords(c: A.Config, ns: seq<nat>): (recs: seq<Record>)
    requires InFile(c, ns)
    ensures |recs| == |ns|
  {
    seq(|ns|, k requires 0 <= k < |ns| => Record(ns[k], A.Reply(c, ns[k])))
  }

  // What is still to come is what the server sends for the picks left, possibly cut off.
  ghost predicate Along(c: A.Config, picks: seq<nat>, done: nat, arrivals: seq<Arrival>, whole: bool)
    requires InFile(c, picks) && done <= |picks|
  {
    && Clean(arrivals) && Flat(arrivals) <= RepliesOf(c, picks[done..])
    && (whole <==> Flat(arrivals) == RepliesOf(c, picks[done..]))
  }

  // The replies to the first picks are in the local file, each at its chunk's place.
  ghost predicate InPlace(c: A.Config, was: bytes, picks: seq<nat>, done: nat, file: bytes)
    requires InFile(c, picks) && done <= |picks|
  {
    file == Applied(was, c.chunkSize, ReplyRecords(c, picks[..done]))
  }

  lemma AlongStart(c: A.Config, picks: seq<nat>, arrivals: seq<Arrival>, was: bytes)
    requires InFile(c, picks) && Clean(arrivals) && Flat(arrivals) <= RepliesOf(c, picks)
    ensures Along(c, picks, 0, arrivals, Flat(arrivals) == RepliesOf(c, picks))
    ensures InPlace(c, was, picks, 0, was)
  {
    assert picks[0..] == picks && picks[..0] == [];
  }

  lemma AlongEnd(c: A.Config, picks: seq<nat>, arrivals: seq<Arrival>, whole: bool)
    requires InFile(c, picks) && Along(c, picks, |picks|, arrivals, whole)
    ensures whole
  {
  }

  lemma AlongStep(c: A.Config, picks: seq<nat>, done: nat, arrivals: seq<Arrival>, md5: Digest, whole: bool,
                  was: bytes, file: bytes)
    requires InFile(c, picks) && done < |picks| && Along(c, picks, done, arrivals, whole)
    requires InPlace(c, was, picks, done, file)
    ensures var f := Fetched(arrivals, md5);
      && (f.Got? ==>
            && f.data == A.Reply(c, picks[done]) && f.md5 == c.md5(f.data)
            && Along(c, picks, done + 1, f.rest, whole)
            && InPlace(c, was, picks, done + 1, WriteAt(file, Place(picks[done], c.chunkSize), f.data)))
      && (!f.Got? ==> f.Broken? && !whole)
  {
    WholeOrBroken(c, picks[done..], arrivals, md5);
    assert picks[done..][1..] == picks[done + 1..];
    InPlaceStep(c, picks, done, was, file);
  }

  lemma InPlaceStep(c: A.Config, picks: seq<nat>, done: nat, was: bytes, file: bytes)
    requires InFile(c, picks) && done < |picks| && InPlace(c, was, picks, done, file)
    ensures InPlace(c, was, picks, done + 1, WriteAt(file, Place(picks[done], c.chunkSize), A.Reply(c, picks[done])))
  {
    assert picks[..done + 1] == picks[..done] + [picks[done]];
    ReplySnoc(c, picks[..done], picks[done]);
    AppliedSnoc(was, c.chunkSize, ReplyRecords(c, picks[..done]), Record(picks[done], A.Reply(c, picks[done])));
  }

  lemma ReplySnoc(c: A.Config, ns: seq<nat>, n: nat)
    requires InFile(c, ns) && n < A.ChunkCount(c)
    ensures ReplyRecords(c, ns + [n]) == ReplyRecords(c, ns) + [Record(n, A.Reply(c, n))]
  {
  }

  // The next reply arrives whole, or it is cut off and fails.
  lemma WholeOrBroken(c: A.Config, todo: seq<nat>, arrivals: seq<Arrival>, was: Digest)
    requires InFile(c, todo) && todo != [] && Clean(arrivals) && Flat(arrivals) <= RepliesOf(c, todo)
    ensures var f := Fetched(arrivals, was);
      && (f.Got? ==>
            && f.data == A.Reply(c, todo[0]) && f.md5 == c.md5(f.data)
            && Clean(f.rest) && Flat(f.rest) <= RepliesOf(c, todo[1..])
            && (Flat(arrivals) == RepliesOf(c, todo) <==> Flat(f.rest) == RepliesOf(c, todo[1..])))
      && (!f.Got? ==> f.Broken? && Flat(arrivals) != RepliesOf(c, todo))
  {
    var data := A.Reply(c, todo[0]);
    var digest, rest, flat := c.md5(data), RepliesOf(c, todo[1..]), Flat(arrivals);
    var head := ReplyThen(digest, data, []);
    A.ReplyLength(c, todo[0]);
    HeadAndRest(digest, data, rest);
    if |flat| < |head| {
      assert flat == (head + rest)[..|flat|] == head[..|flat|];
      CutReplyFails(arrivals, was, digest, data);
    } else {
      var t := flat[|head|..];
      assert flat == head + t && t == rest[..|t|];
      HeadAndRest(digest, data, t);
      ReplyArrives(arrivals, was, digest, data, t);
    }
  }

  lemma HeadAndRest(digest: Digest, data: bytes, rest: bytes)
    ensures ReplyThen(digest, data, rest) == ReplyThen(digest, data, []) + rest
  {
    assert data + [] == data;
    assert Int64Bytes(|data|) + (data + rest) == (Int64Bytes(|data|) + data) + rest;
  }

  // ---- upload --------------------------------------------------------------

  method InitUploadOnServer(sd: Socket, u: UploadHeader)
    requires ValidUploadHeader(u)
    modifies sd`sent
    ensures sd.sent == old(sd.sent) + ScriptThen(Init(u), [])
  {
    ghost var w := sd.sent;
    sd.Write([UPLOAD_INIT]);
    sd.Write(Int16Bytes(|u.path|));
    sd.Write(u.path);
    sd.Write(Int64Bytes(u.chunkSize));
    sd.Write(Int64Bytes(u.fileSize));
    sd.Write(u.digest);
    assert u.digest + [] == u.digest;
    SixWrites(w, [UPLOAD_INIT], Int16Bytes(|u.path|), u.path, Int64Bytes(u.chunkSize), Int64Bytes(u.fileSize),
              u.digest);
  }

  lemma SixWrites(w: bytes, a: bytes, b: bytes, c: bytes, d: bytes, e: bytes, f: bytes)
    ensures w + a + b + c + d + e + f == w + (a + (b + (c + (d + (e + f)))))
  {
  }

  function SliceRecords(src: bytes, chunkSize: nat, ns: seq<nat>): (recs: seq<Record>)
    requires chunkSize > 0 && forall k :: 0 <= k < |ns| ==> ns[k] < Chunks(|src|, chunkSize)
    ensures |recs| == |ns|
    ensures forall k :: 0 <= k < |ns| ==> TrueRecord(src, chunkSize, recs[k])
  {
    seq(|ns|, k requires 0 <= k < |ns| => Record(ns[k], Slice(src, chunkSize, ns[k])))
  }

  // Read one chunk of the local file and write its record.
  method SendChunk(sd: Socket, source: Fd, chunkNumber: nat, chunkSize: nat, payLoad: seq<int>)
    requires chunkSize > 0 && chunkNumber < Chunks(|source.contents|, chunkSize) == |payLoad|
    requires payLoad[chunkNumber] == SizeOf(|source.contents|, chunkSize, chunkNumber)
    modifies sd`sent, source`pos
    ensures sd.sent == old(sd.sent)
      + RecordThen(Record(chunkNumber, Slice(source.contents, chunkSize, chunkNumber)), [])
  {
    ChunkBounds(|source.contents|, chunkSize, chunkNumber);
    source.Seek(chunkSize * chunkNumber);
    var data := source.Read(payLoad[chunkNumber]);
    sd.Write(Int64Bytes(chunkNumber));
    sd.Write(Int64Bytes(|data|));
    sd.Write(data);
    assert data + [] == data;
  }

  // The records of these chunks, in order, have been written.
  ghost predicate Told(hello: bytes, src: bytes, chunkSize: nat, picks: seq<nat>, sent: bytes) {
    && chunkSize > 0 && (forall j :: 0 <= j < |picks| ==> picks[j] < Chunks(|src|, chunkSize))
    && sent == hello + RecordsThen(SliceRecords(src, chunkSize, picks), [])
  }

  lemma ToldStep(hello: bytes, src: bytes, chunkSize: nat, picks: seq<nat>, chunk: nat, sent: bytes)
    requires Told(hello, src, chunkSize, picks, sent) && chunk < Chunks(|src|, chunkSize)
    ensures Told(hello, src, chunkSize, picks + [chunk],
                 sent + RecordThen(Record(chunk, Slice(src, chunkSize, chunk)), []))
  {
    var r, recs := Record(chunk, Slice(src, chunkSize, chunk)), SliceRecords(src, chunkSize, picks);
    SliceSnoc(src, chunkSize, picks, chunk);
    RecordsSnoc(recs, r, []);
    RecordsEnd(recs, RecordThen(r, []));
    Regroup(hello, RecordsThen(recs, []), RecordThen(r, []));
  }

  lemma SliceSnoc(src: bytes, chunkSize: nat, ns: seq<nat>, n: nat)
    requires chunkSize > 0 && n < Chunks(|src|, chunkSize)
    requires forall k :: 0 <= k < |ns| ==> ns[k] < Chunks(|src|, chunkSize)
    ensures SliceRecords(src, chunkSize, ns + [n])
      == SliceRecords(src, chunkSize, ns) + [Record(n, Slice(src, chunkSize, n))]
  {
  }

  // What one upload connection carries from its first byte to its last.
  function UploadStream(u: UploadHeader, recs: seq<Record>, bye: bool): bytes {
    ScriptThen(Init(u), ScriptThen(Records(recs, bye), []))
  }

  lemma WholeStream(u: UploadHeader, recs: seq<Record>, bye: bool)
    ensures UploadStream(u, recs, bye)
      == ScriptThen(Init(u), []) + [UPLOAD_CHUNK] + RecordsThen(recs, []) + (if bye then Int64Bytes(-1) else [])
    ensures UploadStream(u, recs, bye) == ScriptsThen([Init(u), Records(recs, bye)])
  {
    var end := ByeThen(bye, []);
    assert end == if bye then Int64Bytes(-1) else [];
    var init, body := InitThen(u, []), RecordsThen(recs, []);
    RecordsEnd(recs, end);
    InitEnd(u, [UPLOAD_CHUNK] + (body + end));
    FiveParts([UPLOAD_INIT], init, [UPLOAD_CHUNK], body, end);
    TwoScripts(Init(u), Records(recs, bye));
  }

  lemma FiveParts(a: bytes, b: bytes, c: bytes, d: bytes, e: bytes)
    ensures a + (b + (c + (d + e))) == a + b + c + d + e
  {
    Regroup(c, d, e);
    Regroup(b, c + d, e);
    Regroup(b, c, d);
    Regroup(a, b + c + d, e);
    Regroup(a, b + c, d);
    Regroup(a, b, c);
  }

  lemma TwoScripts(a: Script, b: Script)
    ensures ScriptsThen([a, b]) == ScriptThen(a, ScriptThen(b, []))
  {
    assert [a, b][1..] == [b] && [b][1..] == [];
    assert ScriptsThen([b]) == ScriptThen(b, []);
  }

  // What a download worker writes is the command that the server parses.
  lemma RequestStream(h: Header, ns: seq<nat>)
    ensures [DOWNLOAD_CHUNK] + WireHeaderThen(h, []) + RequestsOf(ns) == ScriptsThen([Requests(h, ns)])
  {
    HeaderEnd(h, RequestsOf(ns));
    assert [Requests(h, ns)][1..] == [];
    Regroup([DOWNLOAD_CHUNK], WireHeaderThen(h, []), RequestsOf(ns));
  }

  lemma HeaderEnd(h: Header, tail: bytes)
    ensures WireHeaderThen(h, tail) == WireHeaderThen(h, []) + tail
  {
    var c := Int64Bytes(h.chunks);
    assert c + [] == c;
    Regroup(Int64Bytes(h.chunkSize), c, tail);
    Regroup(h.fileFull, Int64Bytes(h.chunkSize) + c, tail);
    Regroup(Int64Bytes(h.fileSize), h.fileFull + (Int64Bytes(h.chunkSize) + c), tail);
    Regroup(h.digest, Int64Bytes(h.fileSize) + (h.fileFull + (Int64Bytes(h.chunkSize) + c)), tail);
  }

  lemma InitEnd(u: UploadHeader, tail: bytes)
    ensures InitThen(u, tail) == InitThen(u, []) + tail
  {
    var d := u.digest;
    assert d + [] == d;
    var f := Int64Bytes(u.fileSize);
    assert f + (d + tail) == (f + d) + tail;
    var z := Int64Bytes(u.chunkSize);
    assert z + ((f + d) + tail) == (z + (f + d)) + tail;
    assert u.path + ((z + (f + d)) + tail) == (u.path + (z + (f + d))) + tail;
  }
}
