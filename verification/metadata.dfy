/** The Metadata object: header fields and chunk array in memory, moved to and from files
    and sockets. */
module MetadataObject {
  import opened Bytes
  import opened ChunkLayout
  import opened ChunkTable
  import opened MetadataCodec
  import opened Sockets

  // The header as WriteMetadataHeader puts it on the wire, followed by whatever comes next.
  function WireHeaderThen(h: Header, tail: bytes): bytes {
    h.digest + (Int64Bytes(h.fileSize) + (h.fileFull + (Int64Bytes(h.chunkSize)
    + (Int64Bytes(h.chunks) + tail))))
  }

  // ---- what the whole-file operations must leave behind -----------------------

  // The scan's result: every chunk judged at its own place in the file.
  ghost function CheckedTable(t: Table, data: bytes, md5: bytes -> Digest): (r: Table)
    requires SizesNonNegative(t)
    ensures |r| == |t|
  {
    seq(|t|, i requires 0 <= i < |t| =>
      if t[i].status == Ok && md5(ReadAt(data, StartOf(t, i), t[i].size)) != t[i].md5
      then t[i].(status := Error) else t[i])
  }

  // What a check must have made of a table: a finished chunk is in error exactly if what the
  // data file holds at the chunk's own place, as far as the file goes, has not the stored digest;
  // sizes and digests stay, and so does every other chunk.
  ghost predicate Judged(t: Table, r: Table, data: bytes, md5: bytes -> Digest)
    requires SizesNonNegative(t)
  {
    && |r| == |t|
    && forall i :: 0 <= i < |t| ==>
         && r[i].size == t[i].size && r[i].md5 == t[i].md5
         && (t[i].status != Ok ==> r[i].status == t[i].status)
         && (t[i].status == Ok ==>
               && (r[i].status == Error <==> md5(ReadAt(data, StartOf(t, i), t[i].size)) != t[i].md5)
               && (r[i].status == Ok <==> md5(ReadAt(data, StartOf(t, i), t[i].size)) == t[i].md5))
  }

  lemma CheckedIsJudged(t: Table, data: bytes, md5: bytes -> Digest)
    requires SizesNonNegative(t)
    ensures Judged(t, CheckedTable(t, data, md5), data, md5)
  {
  }

  // In a table with the sizes of a layout that place is the chunk's place in the layout.
  lemma JudgedAtPlace(t: Table, r: Table, data: bytes, md5: bytes -> Digest, fileSize: nat, chunkSize: nat, i: nat)
    requires SizesNonNegative(t) && Judged(t, r, data, md5)
    requires chunkSize > 0 && i < |t| == Chunks(fileSize, chunkSize)
    requires forall k :: 0 <= k < |t| ==> t[k].size == SizeOf(fileSize, chunkSize, k)
    ensures t[i].status == Ok ==>
      (r[i].status == Error <==> md5(Piece(data, fileSize, chunkSize, i)) != t[i].md5)
  {
    StartsAreMultiples(t, fileSize, chunkSize, i);
  }

  // Every chunk the table calls finished lies inside the file.
  ghost predicate OkInside(t: Table, upto: nat, data: bytes)
    requires upto <= |t| && SizesNonNegative(t)
  {
    forall k: nat :: k < upto ==> Inside(t, k, data)
  }

  ghost predicate Inside(t: Table, k: nat, data: bytes)
    requires k < |t| && SizesNonNegative(t)
  {
    t[k].status == Ok ==> StartOf(t, k) + t[k].size <= |data|
  }

  // The loop of resetDownloadingChunks.
  method RecoverChunks(info: array<ChunkInfo>)
    modifies info
    ensures info[..] == RecoverTable(old(info[..]))
  {
    ghost var t := info[..];
    var i := 0;
    while i < info.Length
      invariant 0 <= i <= info.Length
      invariant forall k :: 0 <= k < i ==> info[k] == Recovered(t[k])
      invariant forall k :: i <= k < info.Length ==> info[k] == t[k]
    {
      if info[i].status == Download || info[i].status == Error {
        info[i] := info[i].(status := Pending);
      }
      i := i + 1;
    }
  }

  // The loop of resetAllChunks.
  method ClearChunks(info: array<ChunkInfo>)
    modifies info
    ensures info[..] == ClearTable(old(info[..]))
  {
    ghost var t := info[..];
    var i := 0;
    while i < info.Length
      invariant 0 <= i <= info.Length
      invariant forall k :: 0 <= k < i ==> info[k] == t[k].(status := Pending)
      invariant forall k :: i <= k < info.Length ==> info[k] == t[k]
    {
      info[i] := info[i].(status := Pending);
      i := i + 1;
    }
  }

  // The scan's position is at chunk i, or it has fallen behind somewhere past the end of the
  // file, which takes a finished chunk that does not lie inside the file.
  ghost predicate InStep(t: Table, i: nat, data: bytes, pos: nat)
    requires i <= |t| && SizesNonNegative(t)
  {
    && (pos == StartOf(t, i) || (pos >= |data| && StartOf(t, i) >= |data|))
    && (OkInside(t, i, data) ==> pos == StartOf(t, i))
  }

  // One chunk further: a read gives what stands at the chunk's own place, and a read or a seek
  // keeps the position in step.
  lemma InStepNext(t: Table, i: nat, data: bytes, pos: nat)
    requires i < |t| && SizesNonNegative(t) && InStep(t, i, data, pos)
    ensures t[i].size >= 0
    ensures ReadAt(data, pos, t[i].size) == ReadAt(data, StartOf(t, i), t[i].size)
    ensures InStep(t, i + 1, data, if t[i].status == Ok then pos + |ReadAt(data, pos, t[i].size)| else pos + t[i].size)
  {
    assert OkInside(t, i + 1, data) <==> OkInside(t, i, data) && Inside(t, i, data);
  }

  // The loop of CheckDataChunks, reading the data file straight through and seeking over
  // chunks that are not finished. Each verdict is about the chunk's own place in the file,
  // even when a short read has left the position behind; and the position is exactly the
  // start of the next chunk as long as the finished chunks lie inside the file.
  method ScanChunks(info: array<ChunkInfo>, data: Fd, md5: bytes -> Digest)
    requires SizesNonNegative(info[..]) && data.pos == 0
    modifies info, data`pos
    ensures info[..] == CheckedTable(old(info[..]), data.contents, md5)
    ensures Judged(old(info[..]), info[..], data.contents, md5)
    ensures OkInside(old(info[..]), info.Length, data.contents) ==>
      data.pos == StartOf(old(info[..]), info.Length)
  {
    ghost var t := info[..];
    ghost var goal := CheckedTable(t, data.contents, md5);
    var i := 0;
    while i < info.Length
      invariant 0 <= i <= info.Length
      invariant forall k :: 0 <= k < i ==> info[k] == goal[k]
      invariant forall k :: i <= k < info.Length ==> info[k] == t[k]
      invariant InStep(t, i, data.contents, data.pos)
    {
      var cs := info[i].size;
      InStepNext(t, i, data.contents, data.pos);
      assert cs == t[i].size;
      if info[i].status == Ok {
        var buffer := data.Read(cs);
        if md5(buffer) != info[i].md5 {
          info[i] := info[i].(status := Error);
        }
      } else {
        data.Seek(data.pos + cs);
      }
      i := i + 1;
    }
    CheckedIsJudged(t, data.contents, md5);
  }

  class Metadata {
    var digest: Digest
    var fileSize: int
    var fileFull: bytes
    var chunkSize: int
    var chunks: int
    var inUse: byte
    var chunkInfo: array<ChunkInfo>

    ghost predicate Valid()
      reads this, chunkInfo
    {
      && |fileFull| == FNAME_SIZE
      && IsInt64(fileSize) && IsInt64(chunkSize)
      && chunkInfo.Length == chunks < MAX_TABLE
      && ValidTable(chunkInfo[..])
    }

    ghost function Head(): Header
      reads this
    {
      Header(fileFull, fileSize, chunkSize, chunks, digest, inUse)
    }

    // An object as its constructor leaves it: no field has a meaning yet.
    constructor ()
      ensures fresh(chunkInfo) && chunks == 0 && chunkInfo.Length == 0
      ensures |fileFull| == FNAME_SIZE && IsInt64(fileSize) && IsInt64(chunkSize)
    {
      digest := ZERO_DIGEST;
      fileSize, chunkSize, chunks, inUse := 0, 0, 0, 0;
      fileFull := Zeros(FNAME_SIZE);
      chunkInfo := new ChunkInfo[0];
    }

    // ---- the chunk array ---------------------------------------------------

    method InitControlData()
      requires 0 <= chunks
      modifies this`chunkInfo
      ensures fresh(chunkInfo)
      ensures chunkInfo[..] == FreshTable(fileSize, chunkSize, chunks)
    {
      var n := chunks;
      chunkInfo := new ChunkInfo[n](_ => ChunkInfo(ZERO_DIGEST, 0, Ok));
      var info := chunkInfo;
      var i := 0;
      while i < n
        modifies info
        invariant 0 <= i <= n == info.Length
        invariant forall k :: 0 <= k < i ==> info[k] == FreshTable(fileSize, chunkSize, n)[k]
        invariant forall k :: i <= k < n ==> info[k].md5 == ZERO_DIGEST
      {
        info[i] := info[i].(status := Pending);
        var remain := fileSize - chunkSize * i;
        if remain >= chunkSize {
          info[i] := info[i].(size := chunkSize);
        } else {
          info[i] := info[i].(size := remain);
        }
        i := i + 1;
      }
    }

    method GetNextPendingChunk() returns (chunk: int)
      requires Valid()
      ensures chunk == NextPending(chunkInfo[..])
    {
      var i := 0;
      while i < chunks
        invariant 0 <= i <= chunks
        invariant NextPending(chunkInfo[..]) == FirstClaimable(chunkInfo[..], i)
      {
        if chunkInfo[i].status != Ok && chunkInfo[i].status != Download && chunkInfo[i].status != Upload {
          return i;
        }
        i := i + 1;
      }
      return -1;
    }

    method SetChunkStatus(chunkNumber: nat, status: Status, newDigest: Option<Digest>)
      requires Valid() && chunkNumber < chunks
      modifies chunkInfo
      ensures Valid()
      ensures chunkInfo[..] == SetStatus(old(chunkInfo[..]), chunkNumber, status, newDigest)
    {
      chunkInfo[chunkNumber] := chunkInfo[chunkNumber].(status := status);
      if newDigest.Some? {
        chunkInfo[chunkNumber] := chunkInfo[chunkNumber].(md5 := newDigest.value);
      }
    }

    // ---- files -------------------------------------------------------------

    // One read() of several in a row: f is the file, at the position reached so far.
    static method Next(file: Fd, ghost f: bytes, ghost at: nat, len: nat) returns (data: bytes)
      requires len > 0 && file.contents == f && file.pos == at
      modifies file`pos
      ensures |data| < len <==> |f| < at + len
      ensures |data| >= len ==> data == f[at..at + len] && file.pos == at + len
    {
      data := file.Read(len);
    }

    static lemma HeaderParts(f: bytes, name: bytes, size: bytes, csize: bytes, count: bytes, md5: bytes, use: bytes)
      requires |f| >= HEADER_SIZE
      requires name == f[14..2062] && size == f[2062..2070] && csize == f[2070..2078]
      requires count == f[2078..2086] && md5 == f[2086..2102] && use == f[2102..2103]
      ensures DecodeHeader(f) == Header(name, Int64Of(size), Int64Of(csize), Int64Of(count), md5, use[0])
    {
    }

    // The part of LoadMetadata up to the chunk array.
    method LoadHeader(file: Fd) returns (ok: bool)
      modifies this, file`pos
      ensures ok <==> ReadAt(file.contents, 0, SIG_HDR_SIZE) == SIGNATURE && |file.contents| >= HEADER_SIZE
      ensures ok ==> Head() == DecodeHeader(file.contents) && file.pos == HEADER_SIZE
    {
      ghost var f := file.contents;
      file.Seek(0);
      chunkSize, chunks, fileFull := -1, -1, Zeros(FNAME_SIZE);
      var sig := file.Read(SIG_HDR_SIZE);
      if sig != SIGNATURE {
        return false;
      }
      // A short read here leaves the code with fields it never read; ok is false then.
      var name := Next(file, f, 14, FNAME_SIZE);
      if |name| < FNAME_SIZE { return false; }
      var size := Next(file, f, 2062, 8);
      if |size| < 8 { return false; }
      var csize := Next(file, f, 2070, 8);
      if |csize| < 8 { return false; }
      var count := Next(file, f, 2078, 8);
      if |count| < 8 { return false; }
      var md5 := Next(file, f, 2086, 16);
      if |md5| < 16 { return false; }
      var use := Next(file, f, 2102, 1);
      if |use| < 1 { return false; }
      fileFull, fileSize, chunkSize := name, Int64Of(size), Int64Of(csize);
      chunks, digest, inUse := Int64Of(count), md5, use[0];
      HeaderParts(f, name, size, csize, count, md5, use);
      ok := true;
    }

    // False when the code prints its message and exits, or goes on with a garbage header.
    method LoadMetadata(file: Fd) returns (ok: bool)
      modifies this, file`pos
      ensures ok <==> Decode(file.contents).Loaded?
      ensures ok ==> Valid() && fresh(chunkInfo)
      ensures ok ==> Decode(file.contents) == Loaded(Head(), chunkInfo[..])
    {
      ok := LoadHeader(file);
      if !ok || chunks < 0 || chunks >= MAX_TABLE {
        return false;
      }
      var n: nat := chunks;
      var got := file.Read(INFO_SIZE * n);
      var z := ZeroFilled(got, n);
      if !Readable(z, n) {
        return false;
      }
      var table := DecodeTable(z, n);
      chunkInfo := new ChunkInfo[n](i requires 0 <= i < n => table[i]);
      assert chunkInfo[..] == table;
    }

    // Opened without truncation: the file keeps whatever lies beyond the bytes written.
    method SaveMetadata(file: Fd)
      requires Valid()
      modifies file
      ensures file.contents == WriteAt(old(file.contents), 0, Encode(Head(), chunkInfo[..]))
      ensures Decode(file.contents) == Loaded(Head(), chunkInfo[..])
    {
      ghost var was := file.contents;
      LoadUndoesSave(Head(), chunkInfo[..], was);
      file.Seek(0);
      ghost var w := Put(file, was, [], SIGNATURE);
      assert w == SIGNATURE;
      w := Put(file, was, w, fileFull);
      w := Put(file, was, w, Int64Bytes(fileSize));
      w := Put(file, was, w, Int64Bytes(chunkSize));
      w := Put(file, was, w, Int64Bytes(chunks));
      w := Put(file, was, w, digest);
      w := Put(file, was, w, [inUse]);
      w := Put(file, was, w, EncodeTable(chunkInfo[..]));
    }

    // One write() of several in a row, from the start of the file.
    static method Put(file: Fd, ghost was: bytes, ghost w: bytes, data: bytes) returns (ghost w': bytes)
      requires file.contents == WriteAt(was, 0, w) && file.pos == |w|
      modifies file
      ensures file.contents == WriteAt(was, 0, w') && file.pos == |w'| && w' == w + data
    {
      file.Write(data);
      w' := w + data;
      WriteWrite(was, 0, w, data);
    }

    method UpdateControlData(file: Fd)
      requires Valid()
      modifies file
      ensures file.contents == WriteAt(old(file.contents), HEADER_SIZE, EncodeTable(chunkInfo[..]))
    {
      file.Seek(HEADER_SIZE);
      file.Write(EncodeTable(chunkInfo[..]));
    }

    // Metadata::create without its save: the numbers describe the given file.
    method Create(contents: bytes, name: bytes, size: int, md5: bytes -> Digest)
      requires size > 0 && IsInt64(size) && IsInt64(|contents|) && |name| == FNAME_SIZE
      modifies this
      ensures Head() == Header(name, |contents|, size, Chunks(|contents|, size), md5(contents), 0)
    {
      fileSize := |contents|;
      var n := fileSize / size;
      if fileSize % size != 0 {
        n := n + 1;
      }
      chunkSize, chunks, fileFull, digest, inUse := size, n, name, md5(contents), 0;
    }

    // StoreMetadata: header and a freshly initialised chunk array.
    method StoreMetadata(file: Fd)
      requires ValidHeader(Head()) && chunkSize > 0 && fileSize >= 0 && chunks == Chunks(fileSize, chunkSize)
      modifies this`chunkInfo, file
      ensures Valid() && fresh(chunkInfo)
      ensures Decode(file.contents) == Loaded(Head(), FreshTable(fileSize, chunkSize, chunks))
    {
      InitControlData();
      forall k | 0 <= k < chunks
        ensures IsInt64(chunkInfo[..][k].size)
      {
        ChunkBounds(fileSize, chunkSize, k);
      }
      SaveMetadata(file);
    }

    // False when the code refuses (the file is in use and the reset not forced) or cannot load.
    method ResetDownloadingChunks(file: Fd, force: bool) returns (done: bool)
      modifies this, file
      ensures !Decode(old(file.contents)).Loaded? ==> !done
      ensures !done ==> file.contents == old(file.contents)
      ensures Decode(old(file.contents)).Loaded? ==>
        var Loaded(h, t) := Decode(old(file.contents));
        && done == (h.inUse == 0 || force)
        && (done ==> Decode(file.contents) == Loaded(h.(inUse := 0), RecoverTable(t)))
    {
      var ok := LoadMetadata(file);
      if !ok || (inUse != 0 && !force) {
        return false;
      }
      inUse := 0;
      RecoverChunks(chunkInfo);
      SaveMetadata(file);
      done := true;
    }

    method ResetAllChunks(file: Fd, force: bool) returns (done: bool)
      modifies this, file
      ensures !Decode(old(file.contents)).Loaded? ==> !done
      ensures !done ==> file.contents == old(file.contents)
      ensures Decode(old(file.contents)).Loaded? ==>
        var Loaded(h, t) := Decode(old(file.contents));
        && done == (h.inUse == 0 || force)
        && (done ==> Decode(file.contents) == Loaded(h.(inUse := 0), ClearTable(t)))
    {
      var ok := LoadMetadata(file);
      if !ok || (!force && inUse != 0) {
        return false;
      }
      inUse := 0;
      ClearChunks(chunkInfo);
      SaveMetadata(file);
      done := true;
    }

    // The integrity scan; a table that is in use is judged but not written back.
    method CheckDataChunks(file: Fd, data: Fd, md5: bytes -> Digest) returns (ok: bool)
      requires file != data && data.pos == 0
      requires Decode(file.contents).Loaded? ==> SizesNonNegative(Decode(file.contents).table)
      modifies this, file, data`pos
      ensures ok == Decode(old(file.contents)).Loaded?
      ensures !ok ==> file.contents == old(file.contents)
      ensures ok ==>
        var Loaded(h, t) := Decode(old(file.contents));
        && Judged(t, chunkInfo[..], data.contents, md5)
        && chunkInfo[..] == CheckedTable(t, data.contents, md5)
        && (h.inUse == 0 ==> Decode(file.contents) == Loaded(h, chunkInfo[..]))
        && (h.inUse != 0 ==> file.contents == old(file.contents))
        && (OkInside(t, |t|, data.contents) ==> data.pos == StartOf(t, |t|))
    {
      ok := LoadMetadata(file);
      if !ok {
        return;
      }
      ghost var t := chunkInfo[..];
      ScanChunks(chunkInfo, data, md5);
      if inUse == 0 {
        CheckedSizes(t, data.contents, md5);
        SaveMetadata(file);
      }
    }

    static lemma CheckedSizes(t: Table, data: bytes, md5: bytes -> Digest)
      requires SizesNonNegative(t) && ValidTable(t)
      ensures ValidTable(CheckedTable(t, data, md5))
    {
    }

    // ---- sockets -----------------------------------------------------------

    method WriteMetadataHeader(sd: Socket)
      modifies sd`sent
      ensures sd.sent == old(sd.sent) + WireHeaderThen(Head(), [])
    {
      ghost var w := sd.sent;
      sd.Write(digest);
      sd.Write(Int64Bytes(fileSize));
      sd.Write(fileFull);
      sd.Write(Int64Bytes(chunkSize));
      sd.Write(Int64Bytes(chunks));
      assert Int64Bytes(chunks) + [] == Int64Bytes(chunks);
    }

    // Every so_read result is ignored; a fully delivered header arrives exactly.
    method ReadMetadataHeader(sd: Socket, ghost h: Header, ghost tail: bytes)
      requires WellFormed(sd.incoming) && |fileFull| == FNAME_SIZE && ValidHeader(h)
      modifies this`digest, this`fileSize, this`fileFull, this`chunkSize, this`chunks, sd`incoming
      ensures WellFormed(sd.incoming) && |Flat(sd.incoming)| <= |Flat(old(sd.incoming))|
      ensures |fileFull| == FNAME_SIZE && IsInt64(fileSize) && IsInt64(chunkSize) && IsInt64(chunks)
      ensures Clean(old(sd.incoming)) && Flat(old(sd.incoming)) == WireHeaderThen(h, tail) ==>
        && Head() == h.(inUse := inUse)
        && Clean(sd.incoming) && Flat(sd.incoming) == tail
    {
      ghost var t4 := Int64Bytes(h.chunks) + tail;
      ghost var t3 := Int64Bytes(h.chunkSize) + t4;
      ghost var t2 := h.fileFull + t3;
      ghost var t1 := Int64Bytes(h.fileSize) + t2;
      digest := ReadField(sd, digest, h.digest, t1);
      var b := ReadField(sd, Int64Bytes(fileSize), Int64Bytes(h.fileSize), t2);
      fileSize := Int64Of(b);
      fileFull := ReadField(sd, fileFull, h.fileFull, t3);
      b := ReadField(sd, Int64Bytes(chunkSize), Int64Bytes(h.chunkSize), t4);
      chunkSize := Int64Of(b);
      b := ReadField(sd, Int64Bytes(chunks), Int64Bytes(h.chunks), tail);
      chunks := Int64Of(b);
      Int64RoundTrip(h.fileSize);
      Int64RoundTrip(h.chunkSize);
      Int64RoundTrip(h.chunks);
    }
  }
}
