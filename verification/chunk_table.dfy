/** The chunk array that all processes share, as a value, and what the code does to it. */
module ChunkTable {
  import opened Bytes
  import opened ChunkLayout

  datatype Status = Ok | Pending | Error | Download | Upload

  datatype ChunkInfo = ChunkInfo(md5: Digest, size: int, status: Status)

  type Table = seq<ChunkInfo>

  // Open to be claimed: neither finished nor in some worker's hands.
  predicate Claimable(info: ChunkInfo) {
    info.status != Ok && info.status != Download && info.status != Upload
  }

  function FirstClaimable(t: Table, from: nat): (r: int)
    requires from <= |t|
    ensures r == -1 || from <= r < |t|
    decreases |t| - from
  {
    if from == |t| then -1
    else if Claimable(t[from]) then from
    else FirstClaimable(t, from + 1)
  }

  // getNextPendingChunk.
  function NextPending(t: Table): (r: int) { FirstClaimable(t, 0) }

  lemma {:induction false} FirstClaimableIs(t: Table, from: nat)
    requires from <= |t|
    ensures var r := FirstClaimable(t, from);
      && (r == -1 ==> forall k :: from <= k < |t| ==> !Claimable(t[k]))
      && (r != -1 ==> Claimable(t[r]) && forall k :: from <= k < r ==> !Claimable(t[k]))
    decreases |t| - from
  {
    if from < |t| && !Claimable(t[from]) {
      FirstClaimableIs(t, from + 1);
    }
  }

  // The lowest claimable chunk, or -1 exactly when there is none.
  lemma NextPendingIs(t: Table)
    ensures var r := NextPending(t);
      && (r == -1 <==> forall k :: 0 <= k < |t| ==> !Claimable(t[k]))
      && (r != -1 ==> 0 <= r < |t| && Claimable(t[r]) && forall k :: 0 <= k < r ==> !Claimable(t[k]))
  {
    FirstClaimableIs(t, 0);
  }

  // setChunkStatus: a NULL digest leaves the stored one.
  function SetStatus(t: Table, chunk: nat, status: Status, digest: Option<Digest>): (r: Table)
    requires chunk < |t|
    ensures |r| == |t| && r[chunk].status == status && r[chunk].size == t[chunk].size
    ensures r[chunk].md5 == if digest.Some? then digest.value else t[chunk].md5
    ensures forall k :: 0 <= k < |t| && k != chunk ==> r[k] == t[k]
  {
    t[chunk := t[chunk].(status := status, md5 := if digest.Some? then digest.value else t[chunk].md5)]
  }

  // The chunks that still have to be transferred.
  ghost function NotOk(t: Table): set<nat> {
    set i: nat | i < |t| && t[i].status != Ok
  }

  // The chunks that are marked as in some worker's hands.
  ghost function InTransit(t: Table): set<nat> {
    set i: nat | i < |t| && (t[i].status == Download || t[i].status == Upload)
  }

  // What is finished in t is finished in t'.
  ghost predicate StillOk(t: Table, t': Table) {
    |t'| == |t| && forall i :: 0 <= i < |t| && t[i].status == Ok ==> t'[i].status == Ok
  }

  // resetDownloadingChunks: an upload in progress is left as it is.
  function Recovered(info: ChunkInfo): ChunkInfo {
    if info.status == Download || info.status == Error then info.(status := Pending) else info
  }

  function RecoverTable(t: Table): (r: Table)
    ensures |r| == |t| && forall k :: 0 <= k < |t| ==> r[k] == Recovered(t[k])
  {
    seq(|t|, k requires 0 <= k < |t| => Recovered(t[k]))
  }

  // resetAllChunks.
  function ClearTable(t: Table): (r: Table)
    ensures |r| == |t| && forall k :: 0 <= k < |t| ==> r[k] == t[k].(status := Pending)
  {
    seq(|t|, k requires 0 <= k < |t| => t[k].(status := Pending))
  }

  const ZERO_DIGEST: Digest := Zeros(16)

  // initControlData.
  function FreshTable(fileSize: int, chunkSize: int, n: nat): (r: Table)
    ensures |r| == n
    ensures forall k :: 0 <= k < n ==> r[k] == ChunkInfo(ZERO_DIGEST, SizeOf(fileSize, chunkSize, k), Pending)
  {
    seq(n, k requires 0 <= k < n => ChunkInfo(ZERO_DIGEST, SizeOf(fileSize, chunkSize, k), Pending))
  }

  // ---- the integrity scan --------------------------------------------------

  ghost predicate SizesNonNegative(t: Table) {
    forall k :: 0 <= k < |t| ==> t[k].size >= 0
  }

  // Where chunk i begins, going by the sizes in the table itself.
  ghost function StartOf(t: Table, i: nat): (p: nat)
    requires i <= |t| && SizesNonNegative(t)
  {
    if i == 0 then 0 else StartOf(t, i - 1) + t[i - 1].size
  }

  // With the sizes of a real layout the table's own starts are the multiples of chunkSize.
  lemma {:induction false} StartsAreMultiples(t: Table, fileSize: nat, chunkSize: nat, i: nat)
    requires chunkSize > 0 && |t| == Chunks(fileSize, chunkSize) && i < |t|
    requires SizesNonNegative(t)
    requires forall k :: 0 <= k < |t| ==> t[k].size == SizeOf(fileSize, chunkSize, k)
    ensures StartOf(t, i) == chunkSize * i
  {
    if i > 0 {
      StartsAreMultiples(t, fileSize, chunkSize, i - 1);
      ChunkBounds(fileSize, chunkSize, i - 1);
      assert chunkSize * i == chunkSize * (i - 1) + chunkSize;
    }
  }
}
