/** The server's side of a connection: a parser of commands, requests and records. */
module Server {
  import opened Bytes
  import opened ChunkLayout
  import opened MetadataCodec
  import opened MetadataObject
  import opened NumberField
  import opened Sockets
  import opened Wire
  import A = AtomicDownload

  const MH_RETRY: nat := 10
  const CHUNK_SIZE: nat := 1048576

  // A command as a client writes it. Records end with -1, or (bye is false) with the stream;
  // requests for chunks go on to the end of the stream.
  datatype Script =
    | Init(u: UploadHeader)
    | Records(recs: seq<Record>, bye: bool)
    | Requests(h: Header, ns: seq<nat>)
    | Ask(size: int, path: bytes)

  predicate ValidScript(script: Script) {
    match script
    case Init(u) => ValidUploadHeader(u)
    case Records(recs, bye) => ValidRecords(recs)
    case Requests(h, ns) => ValidHeader(h)
    case Ask(size, path) => IsInt64(size) && size >= 0 && ValidPath(path)
  }

  function ScriptThen(script: Script, tail: bytes): bytes {
    match script
    case Init(u) => [UPLOAD_INIT] + InitThen(u, tail)
    case Records(recs, bye) => [UPLOAD_CHUNK] + RecordsThen(recs, ByeThen(bye, tail))
    case Requests(h, ns) => [DOWNLOAD_CHUNK] + WireHeaderThen(h, RequestsOf(ns))
    case Ask(size, path) => [DOWNLOAD_METADATA] + AskThen(size, path, tail)
  }

  // The script is what comes next on the connection, in whatever pieces.
  ghost predicate Arriving(script: Script, tail: bytes, arrivals: seq<Arrival>) {
    Clean(arrivals) && Flat(arrivals) == ScriptThen(script, tail) && (ToTheEnd(script) ==> tail == [])
  }

  predicate ToTheEnd(script: Script) { script.Requests? || (script.Records? && !script.bye) }

  ghost function ConfigOf(h: Header, src: bytes, md5: bytes -> Digest): A.Config {
    A.Config(src, if h.chunkSize > 0 then h.chunkSize else 0, md5)
  }

  // What is outside the connection: the files by path, that being written aside, the digest
  // function, and what the memory of a new Metadata object holds.
  datatype World = World(files: bytes -> Option<bytes>, md5: bytes -> Digest, junk: bytes)

  ghost predicate ValidWorld(world: World) {
    |world.junk| == FNAME_SIZE && forall path :: world.files(path).Some? ==> IsInt64(|world.files(path).value|)
  }

  // The server opens the file that the header names.
  function FileOf(h: Header, world: World): Option<bytes> { world.files(CString(h.fileFull)) }

  ghost function ServedBy(h: Header, world: World): A.Config {
    ConfigOf(h, if FileOf(h, world).Some? then FileOf(h, world).value else [], world.md5)
  }

  // The requests are for chunks of a file that the server has and the header describes.
  ghost predicate CanServe(h: Header, ns: seq<nat>, world: World) {
    FileOf(h, world).Some? && Describes(h, ServedBy(h, world)) && InFile(ServedBy(h, world), ns)
  }

  // A chunk size of zero asks for the default.
  function Effective(size: int): int { if size == 0 then CHUNK_SIZE else size }

  function Described(world: World, size: nat, path: bytes): Header
    requires |world.junk| == FNAME_SIZE && ValidPath(path) && world.files(path).Some?
  {
    HeaderOf(world.files(path).value, Effective(size), path, world.junk, world.md5)
  }

  // The answer to a request for a file's description in chunks of that size.
  function ReplyFor(world: World, chunkSize: nat, path: bytes): bytes
    requires |world.junk| == FNAME_SIZE && ValidPath(path) && chunkSize > 0
  {
    match world.files(path)
    case None => Int16Bytes(MH_FILE_NOT_FOUND)
    case Some(src) => Int16Bytes(MH_OK) + WireHeaderThen(HeaderOf(src, chunkSize, path, world.junk, world.md5), [])
  }

  function MetaReply(world: World, size: nat, path: bytes): bytes
    requires |world.junk| == FNAME_SIZE && ValidPath(path)
  {
    ReplyFor(world, Effective(size), path)
  }

  // What the answer says: 1 when there is no such file; otherwise 0 and a header that names the
  // file and describes it in chunks of the size asked for, a mebibyte if that is zero.
  ghost predicate Tells(world: World, size: nat, path: bytes, reply: bytes) {
    match world.files(path)
    case None => reply == Int16Bytes(1)
    case Some(src) =>
      exists h :: HeaderFor(world, src, if size == 0 then 1048576 else size, path, h) && reply ==
        Int16Bytes(0) + WireHeaderThen(h, [])
  }

  ghost predicate HeaderFor(world: World, src: bytes, chunkSize: nat, path: bytes, h: Header) {
    && chunkSize > 0 && h.fileSize == |src| && h.chunkSize == chunkSize && h.chunks == Chunks(|src|, chunkSize)
    && h.digest == world.md5(src) && CString(h.fileFull) == path
  }

  lemma MetaReplyTells(world: World, size: nat, path: bytes)
    requires |world.junk| == FNAME_SIZE && ValidPath(path)
    ensures Tells(world, size, path, MetaReply(world, size, path))
  {
    if world.files(path).Some? {
      CStringIs(path, world.junk[|path| + 1..]);
      var src, cs := world.files(path).value, if size == 0 then 1048576 else size;
      assert HeaderFor(world, src, cs, path, Described(world, size, path));
    }
  }

  class MhProtoServer {
    const sd: Socket
    const metadata: Metadata
    var chunkSize: int
    var path: bytes
    var uploadDigest: Digest

    constructor (sd: Socket)
      ensures this.sd == sd && fresh(this.metadata) && this.chunkSize == CHUNK_SIZE
      ensures |this.metadata.fileFull| == FNAME_SIZE
    {
      this.sd := sd;
      metadata := new Metadata();
      chunkSize, path := CHUNK_SIZE, [];
      uploadDigest := Zeros(16);
    }

    // ---- download ----------------------------------------------------------

    // read(fd, data, chunkSize) and the checksum; bytes the file lacks would be whatever the
    // allocation held, zeros here.
    static method LoadChunkFromFile(source: Fd, size: nat, md5: bytes -> Digest) returns (data: bytes, digest: Digest)
      modifies source`pos
      ensures |data| == size && digest == md5(data)
      ensures old(source.pos) + size <= |source.contents| ==> data == ReadAt(source.contents, old(source.pos), size)
    {
      var got := source.Read(size);
      data := got + Zeros(size - |got|);
      digest := md5(data);
      if |got| == size {
        assert data == got;
      }
    }

    // For a well-formed session whose stream ends after the requests ns, in any pieces: the
    // server writes exactly the reply to each, in order, from the file that the header names.
    method SendChunkToClient(world: World, ghost h: Header, ghost ns: seq<nat>)
      requires WellFormed(sd.incoming) && |metadata.fileFull| == FNAME_SIZE && ValidHeader(h)
      modifies metadata, sd
      ensures WellFormed(sd.incoming) && |metadata.fileFull| == FNAME_SIZE
      ensures |Flat(sd.incoming)| <= |Flat(old(sd.incoming))|
      ensures (CanServe(h, ns, world)
        && Clean(old(sd.incoming)) && Flat(old(sd.incoming)) == WireHeaderThen(h, RequestsOf(ns))) ==>
          && sd.sent == old(sd.sent) + RepliesOf(ServedBy(h, world), ns)
          && Clean(sd.incoming) && Flat(sd.incoming) == []
    {
      ghost var c := ServedBy(h, world);
      ghost var good := CanServe(h, ns, world)
        && Clean(sd.incoming) && Flat(sd.incoming) == WireHeaderThen(h, RequestsOf(ns));
      metadata.ReadMetadataHeader(sd, h, RequestsOf(ns));
      if metadata.chunks < 0 || metadata.chunkSize <= 0 {
        return;  // the code would go on with a meaningless table
      }
      var payLoad := GetPayLoadArray(metadata.fileSize, metadata.chunkSize, metadata.chunks);
      var name := CString(metadata.fileFull);
      if world.files(name).None? {
        return;  // exit(1)
      }
      var source := new Fd(world.files(name).value);
      ghost var short := ServeRequests(source, world.md5, metadata.chunkSize, payLoad, c, ns, good);
    }

    // The request loop of SendChunkToClient. On any connection it puts up with ten requests that
    // come short.
    method ServeRequests(source: Fd, md5: bytes -> Digest, size: nat, payLoad: array<int>,
                         ghost c: A.Config, ghost ns: seq<nat>, ghost good: bool)
      returns (ghost short: nat)
      requires WellFormed(sd.incoming)
      requires good ==>
        && c.src == source.contents && c.md5 == md5 && c.chunkSize == size && InFile(c, ns)
        && payLoad.Length == A.ChunkCount(c)
        && (forall k :: 0 <= k < payLoad.Length ==> payLoad[k] == SizeOf(|c.src|, size, k))
        && Clean(sd.incoming) && Flat(sd.incoming) == RequestsOf(ns)
      modifies sd, source`pos
      ensures WellFormed(sd.incoming) && |Flat(sd.incoming)| <= |Flat(old(sd.incoming))|
      ensures good ==>
        sd.sent == old(sd.sent) + RepliesOf(c, ns) && Clean(sd.incoming) && Flat(sd.incoming) == []
      ensures short <= MH_RETRY == 10
    {
      short := 0;
      ghost var goal := sd.sent + (if good then RepliesOf(c, ns) else []);
      ghost var todo := ns;
      var waitForClient := MH_RETRY;
      while waitForClient != 0
        invariant WellFormed(sd.incoming) && |Flat(sd.incoming)| <= |Flat(old(sd.incoming))|
        invariant 0 <= waitForClient == MH_RETRY - short
        invariant good ==> InFile(c, todo) && Clean(sd.incoming) && Flat(sd.incoming) == RequestsOf(todo)
        invariant good ==> sd.sent + RepliesOf(c, todo) == goal && waitForClient == MH_RETRY
        decreases |Flat(sd.incoming)|
      {
        if good { NextRequest(c, todo, sd.incoming); }
        var field, br := ReadInto(sd, Zeros(FIELD_SIZE));
        if br <= 0 {
          break;
        }
        if br != FIELD_SIZE {
          short := short + 1;
          waitForClient := waitForClient - 1;
        }
        var chunkNumber := Atoi(field);
        if chunkNumber == -1 {
          waitForClient := 0;
          break;
        }
        if chunkNumber < 0 || chunkNumber >= payLoad.Length || payLoad[chunkNumber] < 0 {
          return;  // the code reads beyond its table here
        }
        AnswerRequest(source, md5, chunkNumber * size, payLoad[chunkNumber], c, todo, good);
        if good {
          todo := todo[1..];
        }
      }
    }

    // One reply: digest, size, data. For a good request it is the reply that is due.
    method AnswerRequest(source: Fd, md5: bytes -> Digest, filePos: nat, size: nat,
                         ghost c: A.Config, ghost todo: seq<nat>, ghost good: bool)
      requires good ==> c.src == source.contents && c.md5 == md5 && InFile(c, todo) && todo != []
      requires good ==> filePos == A.Served(c, todo[0]) * c.chunkSize
      requires good ==> size == SizeOf(|c.src|, c.chunkSize, A.Served(c, todo[0]))
      modifies sd`sent, source`pos
      ensures good ==> sd.sent + RepliesOf(c, todo[1..]) == old(sd.sent) + RepliesOf(c, todo)
    {
      ghost var w := sd.sent;
      source.Seek(filePos);
      var data, digest := LoadChunkFromFile(source, size, md5);
      sd.Write(digest);
      sd.Write(Int64Bytes(|data|));
      sd.Write(data);
      if good {
        ServedData(c, todo, A.Served(c, todo[0]), data, size);
        RegroupReply(w, digest, Int64Bytes(|data|), data, RepliesOf(c, todo[1..]));
      }
    }

    static lemma RegroupReply(w: bytes, a: bytes, b: bytes, d: bytes, r: bytes)
      ensures (w + a + b + d) + r == w + (a + b + d + r)
    {
    }

    // With requests still to come the next field names the next chunk; with none, the count
    // is zero.
    static lemma NextRequest(c: A.Config, todo: seq<nat>, arrivals: seq<Arrival>)
      requires InFile(c, todo) && Clean(arrivals) && Flat(arrivals) == RequestsOf(todo)
      ensures todo == [] ==>
        Count(arrivals, FIELD_SIZE) == 0 && Clean(Left(arrivals, FIELD_SIZE)) && Flat(Left(arrivals, FIELD_SIZE)) == []
      ensures todo != [] ==>
        && Count(arrivals, FIELD_SIZE) == FIELD_SIZE
        && Atoi(Memory(arrivals, Zeros(FIELD_SIZE))) == A.Served(c, todo[0])
        && Clean(Left(arrivals, FIELD_SIZE)) && Flat(Left(arrivals, FIELD_SIZE)) == RequestsOf(todo[1..])
    {
      if todo == [] {
        FieldCutShort(arrivals, FIELD_SIZE);
      } else {
        FieldArrives(arrivals, PrintField(todo[0]), RequestsOf(todo[1..]), Zeros(FIELD_SIZE));
      }
    }

    // What is loaded for that request is what the client is waiting for.
    static lemma ServedData(c: A.Config, todo: seq<nat>, k: nat, data: bytes, size: nat)
      requires InFile(c, todo) && todo != [] && k == A.Served(c, todo[0])
      requires size == SizeOf(|c.src|, c.chunkSize, k)
      requires k * c.chunkSize + size <= |c.src| ==> data == ReadAt(c.src, k * c.chunkSize, size)
      ensures data == A.Reply(c, todo[0])
      ensures RepliesOf(c, todo) == c.md5(data) + Int64Bytes(|data|) + data + RepliesOf(c, todo[1..])
    {
      ChunkBounds(|c.src|, c.chunkSize, k);
    }

    // ---- description -------------------------------------------------------

    // Size and path, every so_read result ignored; then whether the file is there and, if so,
    // the header that describes it in chunks of that size.
    method SendMetadataToClient(world: World, ghost size: int, ghost asked: bytes, ghost tail: bytes)
      requires WellFormed(sd.incoming) && IsInt64(chunkSize) && ValidWorld(world)
      requires IsInt64(size) && size >= 0 && ValidPath(asked)
      modifies this, sd
      ensures WellFormed(sd.incoming) && IsInt64(chunkSize) && |Flat(sd.incoming)| <= |Flat(old(sd.incoming))|
      ensures Clean(old(sd.incoming)) && Flat(old(sd.incoming)) == AskThen(size, asked, tail) ==>
        && sd.sent == old(sd.sent) + MetaReply(world, size, asked)
        && chunkSize == Effective(size) == (if size == 0 then 1048576 else size)
        && Clean(sd.incoming) && Flat(sd.incoming) == tail
      ensures Tells(world, size, asked, MetaReply(world, size, asked))
    {
      MetaReplyTells(world, size, asked);
      var name, ok := ReadQuestion(size, asked, tail);
      if ok {
        Answer(world, name);
      }
    }

    // Not ok when the path does not fit the buffer that the code reads it into.
    method ReadQuestion(ghost size: int, ghost asked: bytes, ghost tail: bytes) returns (name: bytes, ok: bool)
      requires WellFormed(sd.incoming) && IsInt64(chunkSize)
      requires IsInt64(size) && size >= 0 && ValidPath(asked)
      modifies this, sd`incoming
      ensures WellFormed(sd.incoming) && IsInt64(chunkSize) && |Flat(sd.incoming)| <= |Flat(old(sd.incoming))|
      ensures ok ==> |name| < FNAME_SIZE
      ensures Clean(old(sd.incoming)) && Flat(old(sd.incoming)) == AskThen(size, asked, tail) ==>
        ok && name == asked && chunkSize == Effective(size) && Clean(sd.incoming) && Flat(sd.incoming) == tail
    {
      Int64RoundTrip(size);
      Int16RoundTrip(|asked|);
      var b := ReadField(sd, Zeros(8), Int64Bytes(size), Int16Bytes(|asked|) + (asked + tail));
      chunkSize := Effective(Int64Of(b));
      b := ReadField(sd, Zeros(2), Int16Bytes(|asked|), asked + tail);
      var len := Int16Of(b);
      if len < 0 || len >= FNAME_SIZE {
        return [], false;
      }
      name := ReadField(sd, Zeros(len), if len == |asked| then asked else Zeros(len), tail);
      ok := true;
    }

    method Answer(world: World, name: bytes)
      requires ValidWorld(world) && |name| < FNAME_SIZE && IsInt64(chunkSize)
      modifies sd`sent
      ensures chunkSize > 0 && 0 !in name ==> sd.sent == old(sd.sent) + ReplyFor(world, chunkSize, name)
    {
      match world.files(name)
      case None =>
        sd.Write(Int16Bytes(MH_FILE_NOT_FOUND));
      case Some(src) =>
        sd.Write(Int16Bytes(MH_OK));
        if chunkSize <= 0 {
          return;  // the code would divide the file into a negative number of chunks
        }
        var m := new Metadata();
        m.Create(src, NameField(name, world.junk), chunkSize, world.md5);
        m.WriteMetadataHeader(sd);
    }

    // ---- upload ------------------------------------------------------------

    // The fields of UPLOAD_INIT; every so_read result is ignored. Creating the target without
    // truncating it leaves its contents, and the base name that AbsoluteFile cuts out of the
    // path is not modelled.
    method InitUpload(ghost u: UploadHeader, ghost tail: bytes)
      requires WellFormed(sd.incoming) && ValidUploadHeader(u) && IsInt64(chunkSize)
      modifies this, sd`incoming
      ensures WellFormed(sd.incoming) && IsInt64(chunkSize) && |Flat(sd.incoming)| <= |Flat(old(sd.incoming))|
      ensures Clean(old(sd.incoming)) && Flat(old(sd.incoming)) == InitThen(u, tail) ==>
        && path == u.path && chunkSize == u.chunkSize && uploadDigest == u.digest
        && Clean(sd.incoming) && Flat(sd.incoming) == tail
    {
      ghost var t4 := u.digest + tail;
      ghost var t3 := Int64Bytes(u.fileSize) + t4;
      ghost var t2 := Int64Bytes(u.chunkSize) + t3;
      ghost var t1 := u.path + t2;
      Int16RoundTrip(|u.path|);
      Int64RoundTrip(u.chunkSize);
      var b := ReadField(sd, Zeros(2), Int16Bytes(|u.path|), t1);
      var size := Int16Of(b);
      if size < 0 {
        return;  // the code asks for a negative number of bytes
      }
      path := ReadField(sd, Zeros(size), if size == |u.path| then u.path else Zeros(size), t2);
      b := ReadField(sd, Int64Bytes(chunkSize), Int64Bytes(u.chunkSize), t3);
      chunkSize := Int64Of(b);
      b := ReadField(sd, Zeros(8), Int64Bytes(u.fileSize), t4);
      uploadDigest := ReadField(sd, uploadDigest, u.digest, tail);
    }

    // For a stream of whole records, ended by -1 or by the connection, in any pieces: the
    // target receives exactly those records, and with -1 the parser stands behind it.
    method ReceiveChunkFromClient(target: Fd, ghost recs: seq<Record>, ghost bye: bool, ghost tail: bytes)
      requires WellFormed(sd.incoming) && ValidRecords(recs)
      modifies sd`incoming, target
      ensures WellFormed(sd.incoming) && |Flat(sd.incoming)| <= |Flat(old(sd.incoming))|
      ensures (chunkSize >= 0 && Clean(old(sd.incoming))
        && Flat(old(sd.incoming)) == RecordsThen(recs, ByeThen(bye, tail))) ==>
          && target.contents == Applied(old(target.contents), chunkSize, recs)
          && Clean(sd.incoming) && Flat(sd.incoming) == if bye then tail else []
    {
      ghost var good := chunkSize >= 0 && Clean(sd.incoming)
        && Flat(sd.incoming) == RecordsThen(recs, ByeThen(bye, tail));
      ghost var goal := if good then Applied(target.contents, chunkSize, recs) else [];
      ghost var todo := recs;
      var chunkNumber := 0;
      while chunkNumber != -1
        invariant WellFormed(sd.incoming) && ValidRecords(todo) && IsInt64(chunkNumber)
        invariant |Flat(sd.incoming)| <= |Flat(old(sd.incoming))|
        invariant good && chunkNumber != -1 ==>
          && Clean(sd.incoming) && Flat(sd.incoming) == RecordsThen(todo, ByeThen(bye, tail))
          && Applied(target.contents, chunkSize, todo) == goal
        invariant good && chunkNumber == -1 ==>
          && Clean(sd.incoming) && Flat(sd.incoming) == (if bye then tail else [])
          && target.contents == goal
        decreases if chunkNumber == -1 then 0 else 1, |Flat(sd.incoming)|
      {
        if good { NextNumber(todo, bye, tail, sd.incoming, Int64Bytes(chunkNumber)); }
        var b, br := ReadInto(sd, Int64Bytes(chunkNumber));
        chunkNumber := Int64Of(b);
        if br <= 0 {
          chunkNumber := -1;
        }
        if chunkNumber == -1 {
          break;
        }
        ghost var data := if good then todo[0].data else [];
        ghost var rest := RecordsThen(if good then todo[1..] else [], ByeThen(bye, tail));
        var more := StoreRecord(target, chunkNumber, data, rest, good);
        if !more {
          return;
        }
        if good {
          todo := todo[1..];
        }
      }
    }

    // What the next eight bytes say.
    static lemma NextNumber(todo: seq<Record>, bye: bool, tail: bytes, arrivals: seq<Arrival>, was: bytes)
      requires ValidRecords(todo) && |was| == 8
      requires Clean(arrivals) && Flat(arrivals) == RecordsThen(todo, ByeThen(bye, tail))
      ensures Clean(Left(arrivals, 8))
      ensures todo == [] && !bye ==> Count(arrivals, 8) == 0 && Flat(Left(arrivals, 8)) == []
      ensures todo == [] && bye ==>
        && Count(arrivals, 8) == 8 && Int64Of(Memory(arrivals, was)) == -1 && Flat(Left(arrivals, 8)) == tail
      ensures todo != [] ==>
        && Count(arrivals, 8) == 8 && Int64Of(Memory(arrivals, was)) == todo[0].chunk
        && Flat(Left(arrivals, 8)) ==
           Int64Bytes(|todo[0].data|) + (todo[0].data + RecordsThen(todo[1..], ByeThen(bye, tail)))
    {
      if todo == [] && !bye {
        FieldCutShort(arrivals, 8);
      } else if todo == [] {
        FieldArrives(arrivals, Int64Bytes(-1), tail, was);
        Int64RoundTrip(-1);
      } else {
        var r := todo[0];
        var rest := RecordsThen(todo[1..], ByeThen(bye, tail));
        FieldArrives(arrivals, Int64Bytes(r.chunk), Int64Bytes(|r.data|) + (r.data + rest), was);
        Int64RoundTrip(r.chunk);
      }
    }

    // Size and data of one record, and the write. False when the size does not fit the buffer.
    method StoreRecord(target: Fd, chunkNumber: int, ghost data: bytes, ghost rest: bytes, ghost good: bool)
      returns (more: bool)
      requires WellFormed(sd.incoming) && |data| <= MAX_CHUNK_SIZE
      requires good ==>
        && chunkNumber >= 0 && chunkSize >= 0 && Clean(sd.incoming)
        && Flat(sd.incoming) == Int64Bytes(|data|) + (data + rest)
      modifies sd`incoming, target
      ensures WellFormed(sd.incoming) && |Flat(sd.incoming)| <= |Flat(old(sd.incoming))|
      ensures good ==>
        && more && Clean(sd.incoming) && Flat(sd.incoming) == rest
        && target.contents == WriteAt(old(target.contents), Place(chunkNumber, chunkSize), data)
    {
      Int64RoundTrip(|data|);
      var b := ReadField(sd, Zeros(8), Int64Bytes(|data|), data + rest);
      var size := Int64Of(b);
      if size < 0 || size > MAX_CHUNK_SIZE {
        return false;  // the code would run past its buffer here
      }
      var buffer := ReadField(sd, Zeros(size), if size == |data| then data else Zeros(size), rest);
      if chunkNumber * chunkSize >= 0 {
        target.Seek(chunkNumber * chunkSize);  // lseek refuses a negative position
      }
      target.Write(buffer);
      more := true;
    }

    // ---- commands ----------------------------------------------------------

    // One command. False at the end of the stream, where the process exits. The script says
    // which well-formed command, if any, is on its way.
    method RcvCmd(target: Fd, world: World, ghost script: Script, ghost tail: bytes)
      returns (alive: bool)
      requires WellFormed(sd.incoming) && |metadata.fileFull| == FNAME_SIZE && IsInt64(chunkSize)
      requires ValidScript(script) && ValidWorld(world)
      modifies this, metadata, sd, target
      ensures WellFormed(sd.incoming) && |metadata.fileFull| == FNAME_SIZE && IsInt64(chunkSize)
      ensures alive ==> |Flat(sd.incoming)| < |Flat(old(sd.incoming))|
      ensures Clean(old(sd.incoming)) && Flat(old(sd.incoming)) == [] ==>
        && !alive && Clean(sd.incoming) && Flat(sd.incoming) == [] && sd.sent == old(sd.sent)
        && target.contents == old(target.contents) && chunkSize == old(chunkSize)
      ensures script.Init? && Arriving(script, tail, old(sd.incoming)) ==>
        && alive && Clean(sd.incoming) && Flat(sd.incoming) == tail
        && path == script.u.path && chunkSize == script.u.chunkSize && uploadDigest == script.u.digest
        && target.contents == old(target.contents) && sd.sent == old(sd.sent)
      ensures script.Records? && old(chunkSize) >= 0 && Arriving(script, tail, old(sd.incoming)) ==>
        && alive && Clean(sd.incoming) && Flat(sd.incoming) == tail && chunkSize == old(chunkSize)
        && target.contents == Applied(old(target.contents), chunkSize, script.recs) && sd.sent == old(sd.sent)
      ensures script.Requests? && Arriving(script, tail, old(sd.incoming)) && CanServe(script.h, script.ns, world) ==>
        && alive && Clean(sd.incoming) && Flat(sd.incoming) == []
        && sd.sent == old(sd.sent) + RepliesOf(ServedBy(script.h, world), script.ns)
        && target.contents == old(target.contents)
      ensures script.Ask? && Arriving(script, tail, old(sd.incoming)) ==>
        && alive && Clean(sd.incoming) && Flat(sd.incoming) == tail && chunkSize == Effective(script.size)
        && sd.sent == old(sd.sent) + MetaReply(world, script.size, script.path)
        && target.contents == old(target.contents)
    {
      ghost var arrivals := sd.incoming;
      var b, br := ReadInto(sd, [0]);
      if Arriving(script, tail, arrivals) {
        FieldArrives(arrivals, ScriptThen(script, tail)[..1], ScriptThen(script, tail)[1..], [0]);
      } else if Clean(arrivals) && Flat(arrivals) == [] {
        FieldCutShort(arrivals, 1);
      }
      if br <= 0 {
        return false;
      }
      alive := true;
      var cmd := b[0];
      if cmd == DOWNLOAD_CHUNK {
        ghost var none := Header(Zeros(FNAME_SIZE), 0, 0, 0, Zeros(16), 0);
        SendChunkToClient(world, if script.Requests? then script.h else none,
                          if script.Requests? then script.ns else []);
      } else if cmd == UPLOAD_CHUNK {
        ReceiveChunkFromClient(target, if script.Records? then script.recs else [],
                               script.Records? && script.bye, tail);
      } else if cmd == DOWNLOAD_METADATA {
        SendMetadataToClient(world, if script.Ask? then script.size else 0,
                             if script.Ask? then script.path else [], tail);
      } else if cmd == UPLOAD_INIT {
        InitUpload(if script.Init? then script.u else UploadHeader([], 0, 0, Zeros(16)), tail);
      }
    }
  }

  // ---- a whole connection --------------------------------------------------

  // What a connection carries, one command after the other.
  function ScriptsThen(scripts: seq<Script>): bytes {
    if scripts == [] then [] else ScriptThen(scripts[0], ScriptsThen(scripts[1..]))
  }

  // The commands are well-formed, those that go on to the end of the stream come last, records
  // come where a chunk size has been announced, and requests are for chunks of the served file.
  ghost predicate Doable(scripts: seq<Script>, chunkSize: int, world: World) {
    scripts != [] ==>
      && ValidScript(scripts[0]) && (ToTheEnd(scripts[0]) ==> |scripts| == 1)
      && (match scripts[0]
          case Init(u) => Doable(scripts[1..], u.chunkSize, world)
          case Records(recs, bye) => chunkSize >= 0 && Doable(scripts[1..], chunkSize, world)
          case Ask(size, path) => Doable(scripts[1..], Effective(size), world)
          case Requests(h, ns) => CanServe(h, ns, world))
  }

  // What the commands make of the target, and what the server writes.
  ghost function TargetAfter(scripts: seq<Script>, chunkSize: int, target: bytes): bytes {
    if scripts == [] then target
    else match scripts[0]
      case Init(u) => TargetAfter(scripts[1..], u.chunkSize, target)
      case Records(recs, bye) =>
        TargetAfter(scripts[1..], chunkSize, if chunkSize >= 0 then Applied(target, chunkSize, recs) else target)
      case Ask(size, path) => TargetAfter(scripts[1..], Effective(size), target)
      case Requests(h, ns) => target
  }

  ghost function Written(scripts: seq<Script>, chunkSize: int, world: World): bytes
    requires |world.junk| == FNAME_SIZE && Doable(scripts, chunkSize, world)
  {
    if scripts == [] then []
    else match scripts[0]
      case Init(u) => Written(scripts[1..], u.chunkSize, world)
      case Records(recs, bye) => Written(scripts[1..], chunkSize, world)
      case Ask(size, path) =>
        MetaReply(world, size, path) + Written(scripts[1..], Effective(size), world)
      case Requests(h, ns) => RepliesOf(ServedBy(h, world), ns)
  }

  // With these commands still to come, target and output are on the way to the goal.
  ghost predicate OnScript(todo: seq<Script>, chunkSize: int, target: bytes, sent: bytes, arrivals: seq<Arrival>,
                           world: World, goal: bytes, said: bytes) {
    && |world.junk| == FNAME_SIZE && Doable(todo, chunkSize, world)
    && Clean(arrivals) && Flat(arrivals) == ScriptsThen(todo)
    && TargetAfter(todo, chunkSize, target) == goal && sent + Written(todo, chunkSize, world) == said
  }

  lemma NextScript(todo: seq<Script>, chunkSize: int, target: bytes, sent: bytes, arrivals: seq<Arrival>,
                   world: World, goal: bytes, said: bytes)
    requires OnScript(todo, chunkSize, target, sent, arrivals, world, goal, said) && todo != []
    ensures ValidScript(todo[0]) && Arriving(todo[0], ScriptsThen(todo[1..]), arrivals)
  {
  }

  // One command carried out leaves the rest.
  lemma ScriptDone(todo: seq<Script>, chunkSize: int, target: bytes, sent: bytes, arrivals: seq<Arrival>,
                   world: World, goal: bytes, said: bytes, arrivals': seq<Arrival>, after: int)
    requires OnScript(todo, chunkSize, target, sent, arrivals, world, goal, said) && todo != []
    requires Clean(arrivals') && Flat(arrivals') == ScriptsThen(todo[1..])
    ensures todo[0].Init? ==>
      OnScript(todo[1..], todo[0].u.chunkSize, target, sent, arrivals', world, goal, said)
    ensures todo[0].Records? ==>
      && chunkSize >= 0
      && OnScript(todo[1..], chunkSize, Applied(target, chunkSize, todo[0].recs), sent, arrivals',
                  world, goal, said)
    ensures todo[0].Ask? ==>
      OnScript(todo[1..], Effective(todo[0].size), target, sent + MetaReply(world, todo[0].size, todo[0].path),
               arrivals', world, goal, said)
    ensures todo[0].Requests? ==>
      var c := ServedBy(todo[0].h, world);
      && todo[1..] == [] && CanServe(todo[0].h, todo[0].ns, world)
      && OnScript([], after, target, sent + RepliesOf(c, todo[0].ns), arrivals', world, goal, said)
  {
    if todo[0].Ask? {
      var r := MetaReply(world, todo[0].size, todo[0].path);
      Regroup(sent, r, Written(todo[1..], Effective(todo[0].size), world));
    }
  }

  // One turn of the process's loop.
  method CarryOut(server: MhProtoServer, target: Fd, world: World,
                  ghost good: bool, ghost todo: seq<Script>, ghost goal: bytes, ghost said: bytes)
    returns (alive: bool, ghost rest: seq<Script>)
    requires WellFormed(server.sd.incoming) && |server.metadata.fileFull| == FNAME_SIZE && IsInt64(server.chunkSize)
    requires ValidWorld(world)
    requires good ==> OnScript(todo, server.chunkSize, target.contents, server.sd.sent, server.sd.incoming,
                               world, goal, said)
    modifies server, server.metadata, server.sd, target
    ensures WellFormed(server.sd.incoming) && |server.metadata.fileFull| == FNAME_SIZE && IsInt64(server.chunkSize)
    ensures alive ==> |Flat(server.sd.incoming)| < |Flat(old(server.sd.incoming))|
    ensures good ==> OnScript(rest, server.chunkSize, target.contents, server.sd.sent, server.sd.incoming,
                              world, goal, said)
    ensures good && !alive ==> rest == []
  {
    rest := todo;
    ghost var script, tail := Records([], true), [];
    if good && todo != [] {
      script, tail := todo[0], ScriptsThen(todo[1..]);
      NextScript(todo, server.chunkSize, target.contents, server.sd.sent, server.sd.incoming,
                 world, goal, said);
      rest := todo[1..];
    }
    ghost var size, aim, sent, arrivals := server.chunkSize, target.contents, server.sd.sent, server.sd.incoming;
    alive := server.RcvCmd(target, world, script, tail);
    if good && todo != [] {
      ScriptDone(todo, size, aim, sent, arrivals, world, goal, said,
                 server.sd.incoming, server.chunkSize);
    }
  }

  // The server process of one connection: commands until the stream ends. A connection that is
  // fully delivered, in any pieces, has its commands carried out one after the other, and
  // nothing else happens to the target or is written.
  method Core(sd: Socket, target: Fd, world: World, ghost scripts: seq<Script>)
    requires WellFormed(sd.incoming) && ValidWorld(world)
    modifies sd, target
    ensures (Clean(old(sd.incoming)) && Flat(old(sd.incoming)) == ScriptsThen(scripts)
      && Doable(scripts, CHUNK_SIZE, world)) ==>
        && target.contents == TargetAfter(scripts, CHUNK_SIZE, old(target.contents))
        && sd.sent == old(sd.sent) + Written(scripts, CHUNK_SIZE, world)
  {
    var server := new MhProtoServer(sd);
    var alive := true;
    ghost var good := Clean(sd.incoming) && Flat(sd.incoming) == ScriptsThen(scripts)
      && Doable(scripts, CHUNK_SIZE, world);
    ghost var goal := TargetAfter(scripts, CHUNK_SIZE, target.contents);
    ghost var said := if good then sd.sent + Written(scripts, CHUNK_SIZE, world) else [];
    ghost var todo := scripts;
    while alive
      invariant WellFormed(sd.incoming) && |server.metadata.fileFull| == FNAME_SIZE && IsInt64(server.chunkSize)
      invariant good ==> OnScript(todo, server.chunkSize, target.contents, sd.sent, sd.incoming,
                                  world, goal, said)
      invariant good && !alive ==> todo == []
      decreases if alive then 1 else 0, |Flat(sd.incoming)|
    {
      alive, todo := CarryOut(server, target, world, good, todo, goal, said);
    }
  }
}
