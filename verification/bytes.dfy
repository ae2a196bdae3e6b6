/** Bytes, little-endian integers, and files written and read by position. */
module Bytes {

  type byte = x: int | 0 <= x < 256
  type bytes = seq<byte>

  // A 16-byte MD5 value; MD5 itself is always a parameter of type bytes -> Digest.
  type Digest = d: bytes | |d| == 16 witness seq(16, _ => 0)

  datatype Option<+T> = None | Some(value: T)

  function Min(a: int, b: int): int { if a <= b then a else b }

  function Max(a: int, b: int): int { if a <= b then b else a }

  function Zeros(n: nat): (z: bytes)
    ensures |z| == n
  {
    seq(n, _ => 0)
  }

  // ---- integers as the machine lays them out -------------------------------

  predicate IsInt64(x: int) { -0x8000_0000_0000_0000 <= x < 0x8000_0000_0000_0000 }

  predicate IsInt16(x: int) { -0x8000 <= x < 0x8000 }

  function Pow256(k: nat): (p: nat)
    ensures p > 0
  {
    if k == 0 then 1 else 256 * Pow256(k - 1)
  }

  function ToLE(v: nat, k: nat): (b: bytes)
    ensures |b| == k
  {
    if k == 0 then [] else [v % 256] + ToLE(v / 256, k - 1)
  }

  function FromLE(b: bytes): (v: nat)
    ensures v < Pow256(|b|)
  {
    if b == [] then 0 else b[0] + 256 * FromLE(b[1..])
  }

  lemma {:induction false} LERoundTrip(v: nat, k: nat)
    requires v < Pow256(k)
    ensures FromLE(ToLE(v, k)) == v
  {
    if k > 0 {
      LERoundTrip(v / 256, k - 1);
      assert ToLE(v, k)[1..] == ToLE(v / 256, k - 1);
    }
  }

  lemma Pow256Values()
    ensures Pow256(2) == 0x1_0000
    ensures Pow256(4) == 0x1_0000_0000
    ensures Pow256(8) == 0x1_0000_0000_0000_0000
  {
    assert Pow256(2) == 256 * Pow256(1);
    assert Pow256(4) == 256 * Pow256(3) && Pow256(3) == 256 * Pow256(2);
    assert Pow256(8) == 256 * Pow256(7) && Pow256(7) == 256 * Pow256(6);
    assert Pow256(6) == 256 * Pow256(5) && Pow256(5) == 256 * Pow256(4);
  }

  // Two's complement: what write(fd, &x, sizeof(x)) puts on the file or the wire.
  function Int64Bytes(x: int): (b: bytes)
    ensures |b| == 8
  {
    ToLE(if x < 0 then (x + 0x1_0000_0000_0000_0000) % 0x1_0000_0000_0000_0000 else x, 8)
  }

  function Int64Of(b: bytes): (x: int)
    requires |b| == 8
    ensures IsInt64(x)
  {
    Pow256Values();
    var v := FromLE(b);
    if v < 0x8000_0000_0000_0000 then v else v - 0x1_0000_0000_0000_0000
  }

  lemma Int64RoundTrip(x: int)
    requires IsInt64(x)
    ensures Int64Of(Int64Bytes(x)) == x
  {
    Pow256Values();
    LERoundTrip(if x < 0 then x + 0x1_0000_0000_0000_0000 else x, 8);
  }

  function Int16Bytes(x: int): (b: bytes)
    ensures |b| == 2
  {
    ToLE(if x < 0 then (x + 0x1_0000) % 0x1_0000 else x, 2)
  }

  function Int16Of(b: bytes): (x: int)
    requires |b| == 2
    ensures IsInt16(x)
  {
    Pow256Values();
    var v := FromLE(b);
    if v < 0x8000 then v else v - 0x1_0000
  }

  lemma Int16RoundTrip(x: int)
    requires IsInt16(x)
    ensures Int16Of(Int16Bytes(x)) == x
  {
    Pow256Values();
    LERoundTrip(if x < 0 then x + 0x1_0000 else x, 2);
  }

  // ---- files ---------------------------------------------------------------

  // lseek to pos, then write: bytes outside [pos, pos + |data|) stay, a hole before
  // pos reads as zeros, and an empty write changes nothing.
  function WriteAt(file: bytes, pos: nat, data: bytes): (r: bytes)
    ensures |data| > 0 ==> |r| == Max(|file|, pos + |data|)
    ensures |data| == 0 ==> r == file
  {
    if |data| == 0 then file
    else
      seq(Max(|file|, pos + |data|), k requires 0 <= k < Max(|file|, pos + |data|) =>
        if pos <= k < pos + |data| then data[k - pos]
        else if k < |file| then file[k]
        else 0)
  }

  // lseek to pos, then read up to len bytes.
  function ReadAt(file: bytes, pos: nat, len: nat): (r: bytes)
    ensures |r| <= len
  {
    if pos >= |file| then [] else file[pos..Min(pos + len, |file|)]
  }

  lemma WriteThenRead(file: bytes, pos: nat, data: bytes)
    ensures ReadAt(WriteAt(file, pos, data), pos, |data|) == data
  {
    if |data| > 0 {
      assert WriteAt(file, pos, data)[pos..pos + |data|] == data;
    }
  }

  // A write leaves every range it does not touch, and that already lies inside the file.
  lemma WriteFrame(file: bytes, pos: nat, data: bytes, at: nat, len: nat)
    requires at + len <= |file|
    requires at + len <= pos || pos + |data| <= at
    ensures ReadAt(WriteAt(file, pos, data), at, len) == ReadAt(file, at, len)
    ensures at + len <= |WriteAt(file, pos, data)|
  {
    if |data| > 0 && len > 0 {
      var r := WriteAt(file, pos, data);
      assert r[at..at + len] == file[at..at + len];
    }
  }

  // A full read from a range that a write does not touch is still a full read of it.
  lemma ReadFrame(file: bytes, pos: nat, data: bytes, at: nat, there: bytes)
    requires ReadAt(file, at, |there|) == there && |there| > 0
    requires at + |there| <= pos || pos + |data| <= at
    ensures ReadAt(WriteAt(file, pos, data), at, |there|) == there
  {
    WriteFrame(file, pos, data, at, |there|);
  }

  // Two consecutive writes are one write of the concatenation.
  lemma WriteWrite(file: bytes, pos: nat, a: bytes, b: bytes)
    ensures WriteAt(WriteAt(file, pos, a), pos + |a|, b) == WriteAt(file, pos, a + b)
  {
    if a == [] {
      assert a + b == b;
    } else if b == [] {
      assert a + b == a;
    }
  }

  // An open file: contents shared by all who open it would be passed separately; the
  // position belongs to the descriptor.
  class Fd {
    var contents: bytes
    var pos: nat

    constructor (contents: bytes)
      ensures this.contents == contents && pos == 0
    {
      this.contents := contents;
      pos := 0;
    }

    method Seek(to: nat)
      modifies this`pos
      ensures pos == to
    {
      pos := to;
    }

    method Write(data: bytes)
      modifies this
      ensures contents == WriteAt(old(contents), old(pos), data)
      ensures pos == old(pos) + |data|
    {
      contents := WriteAt(contents, pos, data);
      pos := pos + |data|;
    }

    method Read(len: nat) returns (data: bytes)
      modifies this`pos
      ensures data == ReadAt(contents, old(pos), len)
      ensures pos == old(pos) + |data|
    {
      data := ReadAt(contents, pos, len);
      pos := pos + |data|;
    }
  }
}
