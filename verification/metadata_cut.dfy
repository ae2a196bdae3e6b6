/** A metadata file that was cut off, and exactly what a load then makes of it. */
module MetadataCut {
  import opened Bytes
  import opened ChunkTable
  import opened MetadataCodec

  // The last byte of an entry that is not always zero is the first of its status.
  const STATUS_AT: nat := 24

  // Enough of the file is left for entry i to keep its status.
  predicate Survives(len: nat, i: nat) { len > HEADER_SIZE + INFO_SIZE * i + STATUS_AT }

  // What a load finds in an entry of which only the first m bytes are left.
  function CutEntry(e: bytes, m: nat): (b: bytes)
    requires m <= |e| == INFO_SIZE
    ensures |b| == INFO_SIZE
  {
    e[..m] + Zeros(INFO_SIZE - m)
  }

  function Left(len: nat, i: nat): (m: nat)
    ensures m <= INFO_SIZE
    ensures Survives(len, i) <==> m > STATUS_AT
  {
    var k := len - HEADER_SIZE - INFO_SIZE * i;
    if k < 0 then 0 else Min(k, INFO_SIZE)
  }

  // What becomes of entry i: right if it keeps the first byte of its status, otherwise taken for
  // a finished chunk, of the same digest and size if nothing but the status is lost.
  ghost predicate Fate(t: Table, len: nat, i: nat, loaded: ChunkInfo)
    requires i < |t|
  {
    && (Survives(len, i) ==> loaded == t[i])
    && (!Survives(len, i) ==> loaded.status == Ok)
    && (Left(len, i) == STATUS_AT ==> loaded == t[i].(status := Ok))
  }

  // A file cut anywhere, for every header and array: it loads if and only if its header is
  // whole, and the header is then right.
  lemma CutFile(h: Header, t: Table, len: nat)
    requires ValidHeader(h) && ValidTable(t) && |t| == h.chunks && len <= |Encode(h, t)|
    ensures var r := Decode(Encode(h, t)[..len]);
      && (r.Loaded? <==> len >= HEADER_SIZE)
      && (r.Loaded? ==> r.header == h && |r.table| == |t| && forall i: nat :: i < |t| ==> Fate(t, len, i, r.table[i]))
  {
    if len >= HEADER_SIZE {
      CutParts(h, t, len);
      HeaderRoundTrip(h, EncodeTable(t)[..len - HEADER_SIZE]);
      CutArray(Encode(h, t)[..len], EncodeTable(t), len - HEADER_SIZE, |t|);
      CutEntries(t, len);
    }
  }

  function Cut(t: Table, len: nat): (z: bytes)
    requires HEADER_SIZE <= len <= HEADER_SIZE + |EncodeTable(t)|
    ensures |z| == INFO_SIZE * |t|
  {
    EncodeTable(t)[..len - HEADER_SIZE] + Zeros(|EncodeTable(t)| - (len - HEADER_SIZE))
  }

  lemma CutEntries(t: Table, len: nat)
    requires ValidTable(t) && HEADER_SIZE <= len <= HEADER_SIZE + |EncodeTable(t)|
    ensures Readable(Cut(t, len), |t|)
    ensures forall i: nat :: i < |t| ==> Fate(t, len, i, DecodeTable(Cut(t, len), |t|)[i])
  {
    forall i: nat | i < |t|
      ensures EntryStatus(Entry(Cut(t, len), i)).Some? && Fate(t, len, i, DecodeInfo(Entry(Cut(t, len), i)))
    {
      EntryOfCut(t, len - HEADER_SIZE, i);
      CutInfo(t[i], Left(len, i));
    }
  }

  lemma CutParts(h: Header, t: Table, len: nat)
    requires ValidHeader(h) && HEADER_SIZE <= len <= |Encode(h, t)|
    ensures len - HEADER_SIZE <= |EncodeTable(t)|
    ensures Encode(h, t)[..len] == EncodeHeader(h) + EncodeTable(t)[..len - HEADER_SIZE]
  {
  }

  // The array as read: what is left of it, and zeros.
  lemma CutArray(f: bytes, e: bytes, k: nat, n: nat)
    requires k <= |e| == INFO_SIZE * n && |f| == HEADER_SIZE + k && f[HEADER_SIZE..] == e[..k]
    ensures ArrayBytes(f, n) == e[..k] + Zeros(|e| - k)
  {
    if k > 0 {
      assert ReadAt(f, HEADER_SIZE, INFO_SIZE * n) == f[HEADER_SIZE..];
    }
  }

  lemma EntryOfCut(t: Table, k: nat, i: nat)
    requires i < |t| && k <= |EncodeTable(t)|
    ensures Entry(Cut(t, HEADER_SIZE + k), i) == CutEntry(EncodeInfo(t[i]), Left(HEADER_SIZE + k, i))
  {
    var e := EncodeTable(t);
    var z := Cut(t, HEADER_SIZE + k);
    TableEntry(t, i);
    var m := Left(HEADER_SIZE + k, i);
    forall j | 0 <= j < INFO_SIZE
      ensures Entry(z, i)[j] == CutEntry(EncodeInfo(t[i]), m)[j]
    {
      assert Entry(z, i)[j] == z[INFO_SIZE * i + j];
      assert EncodeInfo(t[i])[j] == e[INFO_SIZE * i..INFO_SIZE * i + INFO_SIZE][j] == e[INFO_SIZE * i + j];
    }
  }

  lemma CutInfo(info: ChunkInfo, m: nat)
    requires IsInt64(info.size) && m <= INFO_SIZE
    ensures var b := CutEntry(EncodeInfo(info), m);
      && EntryStatus(b).Some?
      && (m > STATUS_AT ==> DecodeInfo(b) == info)
      && (m <= STATUS_AT ==> DecodeInfo(b).status == Ok)
      && (m == STATUS_AT ==> DecodeInfo(b) == info.(status := Ok))
  {
    var e := EncodeInfo(info);
    var b := CutEntry(e, m);
    InfoRoundTrip(info);
    if m > STATUS_AT {
      TailIsZero(info);
      assert b == e;
    } else {
      assert b[24..28] == Zeros(4);
      ZeroLE(4);
      Pow256Values();
      LERoundTrip(0, 4);
      if m == STATUS_AT {
        assert b[..16] == e[..16] == info.md5;
        assert b[16..24] == e[16..24] == Int64Bytes(info.size);
        Int64RoundTrip(info.size);
      }
    }
  }

  lemma TailIsZero(info: ChunkInfo)
    ensures forall j :: STATUS_AT < j < INFO_SIZE ==> EncodeInfo(info)[j] == 0
  {
    var code := StatusCode(info.status);
    assert ToLE(code, 4) == [code] + ToLE(0, 3);
    ZeroLE(3);
    assert EncodeInfo(info)[24..28] == ToLE(code, 4);
    assert EncodeInfo(info)[28..32] == Zeros(4);
    forall j | STATUS_AT < j < INFO_SIZE
      ensures EncodeInfo(info)[j] == 0
    {
      if j < 28 {
        assert EncodeInfo(info)[j] == EncodeInfo(info)[24..28][j - 24];
      } else {
        assert EncodeInfo(info)[j] == EncodeInfo(info)[28..32][j - 28];
      }
    }
  }

  // So a chunk keeps its status exactly if it was finished anyway or enough of its entry is
  // left, and no unfinished chunk turns into a finished one exactly if enough is left of the
  // entry of each unfinished chunk.
  lemma StatusKeptIff(h: Header, t: Table, len: nat, i: nat)
    requires ValidHeader(h) && ValidTable(t) && |t| == h.chunks && HEADER_SIZE <= len <= |Encode(h, t)| && i < |t|
    ensures var r := Decode(Encode(h, t)[..len]);
      && r.Loaded? && |r.table| == |t|
      && (r.table[i].status == t[i].status <==> t[i].status == Ok || Survives(len, i))
  {
    CutFile(h, t, len);
  }

  lemma NothingFinishedIff(h: Header, t: Table, len: nat)
    requires ValidHeader(h) && ValidTable(t) && |t| == h.chunks && HEADER_SIZE <= len <= |Encode(h, t)|
    ensures Decode(Encode(h, t)[..len]).Loaded?
    ensures NotOk(Decode(Encode(h, t)[..len]).table) == NotOk(t) <==> forall i :: i in NotOk(t) ==> Survives(len, i)
  {
    CutFile(h, t, len);
    var t' := Decode(Encode(h, t)[..len]).table;
    if forall i :: i in NotOk(t) ==> Survives(len, i) {
      assert NotOk(t') == NotOk(t);
    } else {
      var i :| i in NotOk(t) && !Survives(len, i);
      assert t'[i].status == Ok && i !in NotOk(t');
    }
  }

  // One chunk of five bytes, not begun; the last eight bytes of the file are lost; the chunk
  // loads as finished.
  lemma CutExample()
    ensures var h := Header(Zeros(FNAME_SIZE), 5, 5, 1, ZERO_DIGEST, 0);
      var t := [ChunkInfo(ZERO_DIGEST, 5, Pending)];
      var f := Encode(h, t);
      && |f| == 2135 && Decode(f) == Loaded(h, t)
      && Decode(f[..2127]) == Loaded(h, [ChunkInfo(ZERO_DIGEST, 5, Ok)])
  {
    var h := Header(Zeros(FNAME_SIZE), 5, 5, 1, ZERO_DIGEST, 0);
    var t := [ChunkInfo(ZERO_DIGEST, 5, Pending)];
    LoadUndoesSave(h, t, []);
    assert WriteAt([], 0, Encode(h, t)) == Encode(h, t);
    CutFile(h, t, 2127);
    assert Decode(Encode(h, t)[..2127]).table == [ChunkInfo(ZERO_DIGEST, 5, Ok)];
  }
}
