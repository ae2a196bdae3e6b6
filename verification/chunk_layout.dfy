/** How a file is cut into chunks: the count, the sizes, the positions. */
module ChunkLayout {
  import opened Bytes

  const MAX_CHUNK_SIZE: nat := 20971520

  // The ceil-division of Metadata::create.
  function Chunks(fileSize: nat, chunkSize: nat): (n: nat)
    requires chunkSize > 0
  {
    fileSize / chunkSize + (if fileSize % chunkSize != 0 then 1 else 0)
  }

  // The size rule shared by initControlData and getPayLoadArray.
  function SizeOf(fileSize: int, chunkSize: int, i: int): (size: int) {
    var remain := fileSize - chunkSize * i;
    if remain >= chunkSize then chunkSize else remain
  }

  // The total of the first k sizes: where a reader stands who has consumed k chunks.
  function SizeSum(fileSize: int, chunkSize: int, k: nat): int {
    if k == 0 then 0 else SizeSum(fileSize, chunkSize, k - 1) + SizeOf(fileSize, chunkSize, k - 1)
  }

  lemma CountBounds(fileSize: nat, chunkSize: nat)
    requires chunkSize > 0
    ensures var n := Chunks(fileSize, chunkSize);
      && fileSize <= chunkSize * n < fileSize + chunkSize
      && (n == 0 <==> fileSize == 0)
  {
    var q, r := fileSize / chunkSize, fileSize % chunkSize;
    assert fileSize == chunkSize * q + r;
    if r != 0 {
      assert chunkSize * (q + 1) == chunkSize * q + chunkSize;
    }
    if q > 0 {
      assert chunkSize * q >= chunkSize;
    }
  }

  // Every chunk is between one byte and a full chunk long, starts inside the file, ends no
  // later than the file, and every chunk but the last is full. No position overflows an
  // int64 whose range holds the file size.
  lemma ChunkBounds(fileSize: nat, chunkSize: nat, i: nat)
    requires chunkSize > 0 && i < Chunks(fileSize, chunkSize)
    ensures 1 <= SizeOf(fileSize, chunkSize, i) <= chunkSize
    ensures chunkSize * i + SizeOf(fileSize, chunkSize, i) <= fileSize
    ensures i + 1 < Chunks(fileSize, chunkSize) ==> SizeOf(fileSize, chunkSize, i) == chunkSize
    ensures i + 1 == Chunks(fileSize, chunkSize) ==>
      chunkSize * i + SizeOf(fileSize, chunkSize, i) == fileSize
    ensures IsInt64(fileSize) ==> IsInt64(chunkSize * i) && IsInt64(fileSize - chunkSize * i)
  {
    var n := Chunks(fileSize, chunkSize);
    CountBounds(fileSize, chunkSize);
    assert chunkSize * (n - 1) == chunkSize * n - chunkSize;
    MulMono(chunkSize, i, n - 1);
    if i + 1 < n {
      MulMono(chunkSize, i + 1, n - 1);
      assert chunkSize * (i + 1) == chunkSize * i + chunkSize;
    }
  }

  lemma MulMono(a: nat, x: nat, y: nat)
    requires x <= y
    ensures a * x <= a * y
  {
    assert a * (y - x) >= 0;
  }

  // Two different chunks' positions are at least a chunk apart.
  lemma Apart(chunkSize: nat, i: nat, j: nat)
    requires i < j
    ensures chunkSize * i + chunkSize <= chunkSize * j
  {
    MulMono(chunkSize, i + 1, j);
    assert chunkSize * (i + 1) == chunkSize * i + chunkSize;
  }

  // Sizes add up to positions, and to the whole file in the end.
  lemma {:induction false} SizesSum(fileSize: nat, chunkSize: nat, k: nat)
    requires chunkSize > 0 && k <= Chunks(fileSize, chunkSize)
    ensures k < Chunks(fileSize, chunkSize) ==> SizeSum(fileSize, chunkSize, k) == chunkSize * k
    ensures k == Chunks(fileSize, chunkSize) ==> SizeSum(fileSize, chunkSize, k) == fileSize
  {
    CountBounds(fileSize, chunkSize);
    if k > 0 {
      SizesSum(fileSize, chunkSize, k - 1);
      ChunkBounds(fileSize, chunkSize, k - 1);
      assert chunkSize * k == chunkSize * (k - 1) + chunkSize;
    }
  }

  ghost predicate InChunk(fileSize: nat, chunkSize: nat, i: nat, p: nat) {
    chunkSize * i <= p < chunkSize * i + SizeOf(fileSize, chunkSize, i)
  }

  // The chunks tile [0, fileSize): a position lies in chunk i exactly when it is inside the
  // file and i is its quotient, so no position is covered twice or left out.
  lemma Tiling(fileSize: nat, chunkSize: nat, i: nat, p: nat)
    requires chunkSize > 0
    ensures i < Chunks(fileSize, chunkSize) && InChunk(fileSize, chunkSize, i, p)
      <==> p < fileSize && i == p / chunkSize
  {
    if i < Chunks(fileSize, chunkSize) && InChunk(fileSize, chunkSize, i, p) {
      ChunkBounds(fileSize, chunkSize, i);
      QuotientIs(chunkSize, i, p);
    }
    if p < fileSize && i == p / chunkSize {
      Covered(fileSize, chunkSize, p);
    }
  }

  lemma QuotientIs(chunkSize: nat, i: nat, p: nat)
    requires chunkSize > 0 && chunkSize * i <= p < chunkSize * i + chunkSize
    ensures p / chunkSize == i
  {
    var q := p / chunkSize;
    assert chunkSize * q <= p < chunkSize * q + chunkSize;
    if i < q { Apart(chunkSize, i, q); } else if q < i { Apart(chunkSize, q, i); }
  }

  lemma Covered(fileSize: nat, chunkSize: nat, p: nat)
    requires chunkSize > 0 && p < fileSize
    ensures p / chunkSize < Chunks(fileSize, chunkSize) && InChunk(fileSize, chunkSize, p / chunkSize, p)
  {
    var n, q := Chunks(fileSize, chunkSize), p / chunkSize;
    CountBounds(fileSize, chunkSize);
    assert chunkSize * q <= p < chunkSize * q + chunkSize;
    if n <= q {
      MulMono(chunkSize, n, q);
    }
  }

  function ChunkLen(fileSize: nat, chunkSize: nat, i: nat): (len: nat)
    requires chunkSize > 0 && i < Chunks(fileSize, chunkSize)
    ensures len == SizeOf(fileSize, chunkSize, i)
    ensures 1 <= len <= chunkSize
  {
    ChunkBounds(fileSize, chunkSize, i);
    SizeOf(fileSize, chunkSize, i)
  }

  // What a file holds where chunk i of a fileSize-byte file belongs.
  function Piece(file: bytes, fileSize: nat, chunkSize: nat, i: nat): (b: bytes)
    requires chunkSize > 0 && i < Chunks(fileSize, chunkSize)
  {
    ReadAt(file, chunkSize * i, ChunkLen(fileSize, chunkSize, i))
  }

  // Chunk i of the source itself.
  function Slice(src: bytes, chunkSize: nat, i: nat): (b: bytes)
    requires chunkSize > 0 && i < Chunks(|src|, chunkSize)
    ensures |b| == ChunkLen(|src|, chunkSize, i)
  {
    ChunkBounds(|src|, chunkSize, i);
    Piece(src, |src|, chunkSize, i)
  }

  ghost predicate AllPiecesAgree(src: bytes, chunkSize: nat, file: bytes)
    requires chunkSize > 0
  {
    forall i: nat | i < Chunks(|src|, chunkSize) :: Piece(file, |src|, chunkSize, i) == Slice(src, chunkSize, i)
  }

  // A file agrees with the source on every chunk exactly when the source is its prefix.
  lemma PiecesMakePrefix(src: bytes, chunkSize: nat, file: bytes)
    requires chunkSize > 0
    ensures AllPiecesAgree(src, chunkSize, file) <==> src <= file
  {
    if AllPiecesAgree(src, chunkSize, file) {
      if src != [] {
        ByteAgrees(src, chunkSize, file, |src| - 1);
      }
      forall p: nat | p < |src|
        ensures file[p] == src[p]
      {
        ByteAgrees(src, chunkSize, file, p);
      }
    }
    if src <= file {
      forall i: nat | i < Chunks(|src|, chunkSize)
        ensures Piece(file, |src|, chunkSize, i) == Slice(src, chunkSize, i)
      {
        ChunkBounds(|src|, chunkSize, i);
        PrefixSlice(src, file, chunkSize * i, ChunkLen(|src|, chunkSize, i));
      }
    }
  }

  lemma ByteAgrees(src: bytes, chunkSize: nat, file: bytes, p: nat)
    requires chunkSize > 0 && AllPiecesAgree(src, chunkSize, file) && p < |src|
    ensures p < |file| && file[p] == src[p]
  {
    Covered(|src|, chunkSize, p);
    SliceByte(src, chunkSize, file, p / chunkSize, p);
  }

  lemma SliceByte(src: bytes, chunkSize: nat, file: bytes, i: nat, p: nat)
    requires chunkSize > 0 && i < Chunks(|src|, chunkSize) && InChunk(|src|, chunkSize, i, p)
    requires Piece(file, |src|, chunkSize, i) == Slice(src, chunkSize, i)
    ensures p < |src| && p < |file| && file[p] == src[p]
  {
    ChunkBounds(|src|, chunkSize, i);
    var at := chunkSize * i;
    var s := Slice(src, chunkSize, i);
    assert s[p - at] == src[p];
    assert Piece(file, |src|, chunkSize, i)[p - at] == file[p];
  }

  lemma PrefixSlice(src: bytes, file: bytes, at: nat, len: nat)
    requires src <= file && at + len <= |src|
    ensures ReadAt(file, at, len) == ReadAt(src, at, len)
  {
    if len > 0 {
      assert file[at..at + len] == src[at..at + len];
    }
  }

  // ---- what a write leaves of the other chunks -----------------------------

  // A file with zeros up to length n, as it reads once something is written beyond its end.
  function Padded(file: bytes, n: nat): (r: bytes)
    ensures |r| == Max(|file|, n)
  {
    if |file| >= n then file else file + Zeros(n - |file|)
  }

  lemma PaddedKeeps(file: bytes, n: nat, at: nat, there: bytes)
    requires |there| > 0 && ReadAt(file, at, |there|) == there
    ensures ReadAt(Padded(file, n), at, |there|) == there
  {
    assert Padded(file, n)[at..at + |there|] == file[at..at + |there|];
  }

  // A write elsewhere changes nothing of a range, once zeros beyond the end are counted in.
  lemma PaddedWrite(file: bytes, pos: nat, data: bytes, n: nat, at: nat, len: nat)
    requires at + len <= pos || pos + |data| <= at
    requires |WriteAt(file, pos, data)| <= n
    ensures ReadAt(Padded(WriteAt(file, pos, data), n), at, len) == ReadAt(Padded(file, n), at, len)
  {
    if data != [] {
      var a, b := Padded(WriteAt(file, pos, data), n), Padded(file, n);
      assert |a| == |b| == n;
      if at < n {
        var end := Min(at + len, n);
        assert forall k :: at <= k < end ==> a[k] == b[k];
        assert a[at..end] == b[at..end];
      }
    }
  }

  // A write at one chunk's place leaves every other chunk's.
  lemma ElsewhereKept(fileSize: nat, chunkSize: nat, file: bytes, k: nat, data: bytes, n: nat, i: nat)
    requires chunkSize > 0 && i < Chunks(fileSize, chunkSize) && k != i && |data| <= chunkSize
    requires |WriteAt(file, chunkSize * k, data)| <= n
    ensures Piece(Padded(WriteAt(file, chunkSize * k, data), n), fileSize, chunkSize, i)
      == Piece(Padded(file, n), fileSize, chunkSize, i)
  {
    if i < k { Apart(chunkSize, i, k); } else { Apart(chunkSize, k, i); }
    PaddedWrite(file, chunkSize * k, data, n, chunkSize * i, ChunkLen(fileSize, chunkSize, i));
  }

  // getPayLoadArray: the server's and the uploader's own table of sizes.
  method GetPayLoadArray(fileSize: int, chunkSize: int, nChunks: nat) returns (payLoad: array<int>)
    ensures fresh(payLoad) && payLoad.Length == nChunks
    ensures forall i :: 0 <= i < nChunks ==> payLoad[i] == SizeOf(fileSize, chunkSize, i)
  {
    payLoad := new int[nChunks];
    var i := 0;
    while i < nChunks
      invariant 0 <= i <= nChunks
      invariant forall k :: 0 <= k < i ==> payLoad[k] == SizeOf(fileSize, chunkSize, k)
    {
      var remain := fileSize - chunkSize * i;
      if remain >= chunkSize {
        payLoad[i] := chunkSize;
      } else {
        payLoad[i] := remain;
      }
      i := i + 1;
    }
  }
}
