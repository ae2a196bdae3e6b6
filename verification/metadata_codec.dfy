/** The metadata file, byte for byte: a 2103-byte header and 32 bytes for each chunk. */
module MetadataCodec {
  import opened Bytes
  import opened ChunkTable

  const SIGNATURE: bytes := [77, 72, 70, 84, 80, 95, 77, 69, 84, 65, 68, 65, 84, 65]  // MHFTP_METADATA
  const SIG_HDR_SIZE: nat := 14
  const FNAME_SIZE: nat := 2048
  const HEADER_SIZE: nat := 2103
  const INFO_SIZE: nat := 32
  const MAX_TABLE: nat := 0x400_0000  // 32 times this no longer fits the loader's int

  datatype Header = Header(fileFull: bytes, fileSize: int, chunkSize: int, chunks: int,
                           digest: Digest, inUse: byte)

  predicate ValidHeader(h: Header) {
    && |h.fileFull| == FNAME_SIZE
    && IsInt64(h.fileSize) && IsInt64(h.chunkSize)
    && 0 <= h.chunks < MAX_TABLE
  }

  predicate ValidTable(t: Table) {
    forall k :: 0 <= k < |t| ==> IsInt64(t[k].size)
  }

  // ---- encoding ------------------------------------------------------------

  function EncodeHeader(h: Header): (b: bytes)
    ensures |h.fileFull| == FNAME_SIZE ==> |b| == HEADER_SIZE
  {
    SIGNATURE + h.fileFull + Int64Bytes(h.fileSize) + Int64Bytes(h.chunkSize) + Int64Bytes(h.chunks)
    + h.digest + [h.inUse]
  }

  function StatusCode(s: Status): (c: nat)
    ensures c < 5
  {
    match s case Ok => 0 case Pending => 1 case Error => 2 case Download => 3 case Upload => 4
  }

  // struct ChunkInfo: digest at 0, size at 16, status at 24, four bytes of padding.
  function EncodeInfo(info: ChunkInfo): (b: bytes)
    ensures |b| == INFO_SIZE
  {
    info.md5 + Int64Bytes(info.size) + ToLE(StatusCode(info.status), 4) + Zeros(4)
  }

  function EncodeTable(t: Table): (b: bytes)
    ensures |b| == INFO_SIZE * |t|
  {
    if t == [] then [] else EncodeTable(t[..|t| - 1]) + EncodeInfo(t[|t| - 1])
  }

  function Encode(h: Header, t: Table): bytes { EncodeHeader(h) + EncodeTable(t) }

  // ---- decoding ------------------------------------------------------------

  // Unreadable: the header is cut short, the chunk count is negative or too large for the
  // loader's int, or a status is none of the five.
  datatype LoadResult = Loaded(header: Header, table: Table) | BadSignature | Unreadable

  function StatusOf(code: nat): (s: Option<Status>) {
    if code == 0 then Some(Ok) else if code == 1 then Some(Pending) else if code == 2 then Some(Error)
    else if code == 3 then Some(Download) else if code == 4 then Some(Upload) else None
  }

  function DecodeHeader(b: bytes): (h: Header)
    requires |b| >= HEADER_SIZE
  {
    Header(b[14..2062], Int64Of(b[2062..2070]), Int64Of(b[2070..2078]), Int64Of(b[2078..2086]),
           b[2086..2102], b[2102])
  }

  // The zeroed array after read(fd, chunkInfo_, 32 * n): bytes the file lacks stay zero.
  function ZeroFilled(got: bytes, n: nat): (z: bytes)
    requires |got| <= INFO_SIZE * n
    ensures |z| == INFO_SIZE * n
  {
    got + Zeros(INFO_SIZE * n - |got|)
  }

  function Entry(z: bytes, i: nat): (b: bytes)
    requires INFO_SIZE * i + INFO_SIZE <= |z|
    ensures |b| == INFO_SIZE
  {
    z[INFO_SIZE * i..INFO_SIZE * i + INFO_SIZE]
  }

  function EntryStatus(b: bytes): Option<Status>
    requires |b| == INFO_SIZE
  {
    StatusOf(FromLE(b[24..28]))
  }

  predicate Readable(z: bytes, n: nat)
    requires |z| == INFO_SIZE * n
  {
    forall i :: 0 <= i < n ==> EntryStatus(Entry(z, i)).Some?
  }

  function DecodeInfo(b: bytes): ChunkInfo
    requires |b| == INFO_SIZE && EntryStatus(b).Some?
  {
    ChunkInfo(b[..16], Int64Of(b[16..24]), EntryStatus(b).value)
  }

  function DecodeTable(z: bytes, n: nat): (t: Table)
    requires |z| == INFO_SIZE * n && Readable(z, n)
    ensures |t| == n
  {
    seq(n, i requires 0 <= i < n => DecodeInfo(Entry(z, i)))
  }

  // What a load finds behind the header.
  function ArrayBytes(f: bytes, n: nat): (z: bytes)
    ensures |z| == INFO_SIZE * n
  {
    ZeroFilled(ReadAt(f, HEADER_SIZE, INFO_SIZE * n), n)
  }

  function Decode(f: bytes): LoadResult {
    if ReadAt(f, 0, SIG_HDR_SIZE) != SIGNATURE then BadSignature
    else if |f| < HEADER_SIZE then Unreadable
    else
      var h := DecodeHeader(f);
      if !(0 <= h.chunks < MAX_TABLE) || !Readable(ArrayBytes(f, h.chunks), h.chunks) then Unreadable
      else Loaded(h, DecodeTable(ArrayBytes(f, h.chunks), h.chunks))
  }

  // ---- proofs --------------------------------------------------------------

  lemma InfoRoundTrip(info: ChunkInfo)
    requires IsInt64(info.size)
    ensures EntryStatus(EncodeInfo(info)).Some?
    ensures DecodeInfo(EncodeInfo(info)) == info
  {
    var b := EncodeInfo(info);
    assert b[..16] == info.md5;
    assert b[16..24] == Int64Bytes(info.size);
    assert b[24..28] == ToLE(StatusCode(info.status), 4);
    Int64RoundTrip(info.size);
    Pow256Values();
    LERoundTrip(StatusCode(info.status), 4);
  }

  lemma HeaderRoundTrip(h: Header, tail: bytes)
    requires ValidHeader(h)
    ensures DecodeHeader(EncodeHeader(h) + tail) == h
    ensures ReadAt(EncodeHeader(h) + tail, 0, SIG_HDR_SIZE) == SIGNATURE
  {
    var f := EncodeHeader(h) + tail;
    Int64RoundTrip(h.fileSize);
    Int64RoundTrip(h.chunkSize);
    Int64RoundTrip(h.chunks);
    assert f[0..14] == SIGNATURE;
    assert f[14..2062] == h.fileFull;
    assert f[2062..2070] == Int64Bytes(h.fileSize);
    assert f[2070..2078] == Int64Bytes(h.chunkSize);
    assert f[2078..2086] == Int64Bytes(h.chunks);
    assert f[2086..2102] == h.digest;
  }

  lemma {:induction false} TableEntry(t: Table, i: nat)
    requires i < |t|
    ensures INFO_SIZE * i + INFO_SIZE <= |EncodeTable(t)|
    ensures EncodeTable(t)[INFO_SIZE * i..INFO_SIZE * i + INFO_SIZE] == EncodeInfo(t[i])
    decreases |t|
  {
    if i < |t| - 1 {
      TableEntry(t[..|t| - 1], i);
      assert t[..|t| - 1][i] == t[i];
    }
  }

  lemma TableRoundTrip(f: bytes, t: Table)
    requires ValidTable(t)
    requires |f| >= HEADER_SIZE + INFO_SIZE * |t|
    requires f[HEADER_SIZE..HEADER_SIZE + INFO_SIZE * |t|] == EncodeTable(t)
    ensures ArrayBytes(f, |t|) == EncodeTable(t)
    ensures Readable(EncodeTable(t), |t|) && DecodeTable(EncodeTable(t), |t|) == t
  {
    assert ReadAt(f, HEADER_SIZE, INFO_SIZE * |t|) == EncodeTable(t);
    var e := EncodeTable(t);
    forall i: nat | i < |t|
      ensures EntryStatus(Entry(e, i)).Some? && DecodeInfo(Entry(e, i)) == t[i]
    {
      TableEntry(t, i);
      InfoRoundTrip(t[i]);
    }
  }

  // Loading undoes saving: for every header and table, whatever the file held before, even
  // when the old file was longer (it is opened without truncation).
  lemma LoadUndoesSave(h: Header, t: Table, stale: bytes)
    requires ValidHeader(h) && ValidTable(t) && |t| == h.chunks
    ensures Decode(WriteAt(stale, 0, Encode(h, t))) == Loaded(h, t)
  {
    var f := WriteAt(stale, 0, Encode(h, t));
    TwoParts(stale, EncodeHeader(h), EncodeTable(t));
    HeaderRoundTrip(h, f[HEADER_SIZE..]);
    DecodeIs(f, h, t);
  }

  // Writing a and b from the start of a file leaves them there, whatever it held.
  lemma TwoParts(stale: bytes, a: bytes, b: bytes)
    ensures var f := WriteAt(stale, 0, a + b);
      && |f| >= |a| + |b| && f == a + f[|a|..] && f[|a|..|a| + |b|] == b
  {
  }

  lemma DecodeIs(f: bytes, h: Header, t: Table)
    requires |f| >= HEADER_SIZE + INFO_SIZE * |t| && ReadAt(f, 0, SIG_HDR_SIZE) == SIGNATURE
    requires DecodeHeader(f) == h && |t| == h.chunks < MAX_TABLE && ValidTable(t)
    requires f[HEADER_SIZE..HEADER_SIZE + INFO_SIZE * |t|] == EncodeTable(t)
    ensures Decode(f) == Loaded(h, t)
  {
    TableRoundTrip(f, t);
  }

  // UpdateControlData touches nothing before offset 2103: a later load finds the new table
  // under the same header, in-use mark included, and the file has not grown or shrunk.
  lemma LoadAfterUpdate(f: bytes, h: Header, t: Table, t': Table)
    requires Decode(f) == Loaded(h, t)
    requires |t'| == |t| && ValidTable(t')
    ensures var f' := WriteAt(f, HEADER_SIZE, EncodeTable(t'));
      && Decode(f') == Loaded(h, t')
      && f'[..HEADER_SIZE] == f[..HEADER_SIZE]
  {
    var e := EncodeTable(t');
    UpdateParts(f, e);
    DecodeIs(WriteAt(f, HEADER_SIZE, e), h, t');
  }

  lemma UpdateParts(f: bytes, e: bytes)
    requires |f| >= HEADER_SIZE
    ensures var f' := WriteAt(f, HEADER_SIZE, e);
      && |f'| >= HEADER_SIZE + |e|
      && f'[..HEADER_SIZE] == f[..HEADER_SIZE]
      && f'[HEADER_SIZE..HEADER_SIZE + |e|] == e
      && DecodeHeader(f') == DecodeHeader(f)
      && ReadAt(f', 0, SIG_HDR_SIZE) == ReadAt(f, 0, SIG_HDR_SIZE)
  {
    SameHeader(f, WriteAt(f, HEADER_SIZE, e));
  }

  lemma SameHeader(f: bytes, f': bytes)
    requires |f| >= HEADER_SIZE && |f'| >= HEADER_SIZE && f'[..HEADER_SIZE] == f[..HEADER_SIZE]
    ensures DecodeHeader(f') == DecodeHeader(f)
    ensures ReadAt(f', 0, SIG_HDR_SIZE) == ReadAt(f, 0, SIG_HDR_SIZE)
  {
    SamePart(f, f', 0, 14);
    SamePart(f, f', 14, 2062);
    SamePart(f, f', 2062, 2070);
    SamePart(f, f', 2070, 2078);
    SamePart(f, f', 2078, 2086);
    SamePart(f, f', 2086, 2102);
    assert f'[2102] == f'[..HEADER_SIZE][2102] == f[2102];
  }

  lemma SamePart(f: bytes, f': bytes, lo: nat, hi: nat)
    requires lo <= hi <= HEADER_SIZE
    requires |f| >= HEADER_SIZE && |f'| >= HEADER_SIZE && f'[..HEADER_SIZE] == f[..HEADER_SIZE]
    ensures f'[lo..hi] == f[lo..hi]
  {
    SliceOfPrefix(f', HEADER_SIZE, lo, hi);
    SliceOfPrefix(f, HEADER_SIZE, lo, hi);
  }

  lemma SliceOfPrefix(f: bytes, b: nat, lo: nat, hi: nat)
    requires lo <= hi <= b <= |f|
    ensures f[..b][lo..hi] == f[lo..hi]
  {
    forall k | 0 <= k < hi - lo
      ensures f[..b][lo..hi][k] == f[lo..hi][k]
    {
      assert f[..b][lo..hi][k] == f[..b][lo + k];
    }
  }

  // A metadata file cut off inside its table still loads, and every entry that was lost is
  // taken for a finished chunk of no bytes.
  lemma LostEntriesReadAsOk(f: bytes, h: Header, t: Table, i: nat)
    requires Decode(f) == Loaded(h, t)
    requires i < |t| && |f| <= HEADER_SIZE + INFO_SIZE * i
    ensures t[i] == ChunkInfo(ZERO_DIGEST, 0, Ok)
  {
    var z := Entry(ArrayBytes(f, |t|), i);
    assert z == Zeros(INFO_SIZE);
    assert z[..16] == ZERO_DIGEST;
    assert z[16..24] == ToLE(0, 8) by { ZeroLE(8); }
    assert z[24..28] == ToLE(0, 4) by { ZeroLE(4); }
    Pow256Values();
    LERoundTrip(0, 8);
    LERoundTrip(0, 4);
  }

  lemma {:induction false} ZeroLE(k: nat)
    ensures ToLE(0, k) == Zeros(k)
  {
    if k > 0 {
      ZeroLE(k - 1);
      assert [0] + Zeros(k - 1) == Zeros(k);
    }
  }
}
