/** The two critical sections of a worker as the code runs them on the metadata file, whatever
    the other processes do to the file in between. */
module CriticalSections {
  import opened Bytes
  import opened ChunkTable
  import opened MetadataCodec
  import opened MetadataObject
  import opened SemaphoreLock

  // What the other processes make of the metadata file while this one waits for the lock: the
  // turn-th wait begins with these contents in the file, and chunk own (or -1) in this
  // process's hands.
  type Others = (nat, int, bytes) -> bytes

  function Seen(others: Others, turn: nat, own: int, f: bytes): bytes { others(turn, own, f) }

  // What a worker finds at the two waits of its k-th round.
  function AtClaim(others: Others, k: nat, f: bytes): bytes { Seen(others, 2 * k, -1, f) }

  function AtFinish(others: Others, k: nat, own: int, f: bytes): bytes { Seen(others, 2 * k + 1, own, f) }

  // A finished chunk stays as it is, and so does the chunk in this process's hands.
  ghost predicate Kept(t: Table, t': Table, own: int) {
    && |t'| == |t|
    && forall i :: 0 <= i < |t| && (t[i].status == Ok || (i == own && t[i].status == Download)) ==> t'[i] == t[i]
  }

  // The file stays a metadata file with the same header.
  ghost predicate Readers(others: Others, h: Header) {
    forall turn: nat, own: int, f: bytes :: Holds(h, f) ==> Holds(h, Seen(others, turn, own, f))
  }

  // The file loads with this header; TableIn is the array that a load finds in it. Both are kept
  // closed, so that proofs about the array need not look into the bytes: Open and Close are the
  // way in and out.
  ghost predicate Holds(h: Header, f: bytes) { exists t :: LoadsAs(h, f, t) }

  ghost function TableIn(h: Header, f: bytes): (t: Table)
    requires Holds(h, f)
    ensures |t| == h.chunks
  {
    var t :| LoadsAs(h, f, t);
    Open(h, f, t);
    t
  }

  ghost predicate LoadsAs(h: Header, f: bytes, t: Table) {
    forall g: bytes {:trigger Unlocked(g)} :: Unlocked(g) && g == f ==> Decode(g) == Loaded(h, t)
  }

  predicate Unlocked(f: bytes) { true }

  lemma Open(h: Header, f: bytes, t: Table)
    requires LoadsAs(h, f, t)
    ensures Decode(f) == Loaded(h, t) && |t| == h.chunks
  {
    assert Unlocked(f);
  }

  lemma Shown(h: Header, f: bytes)
    requires Holds(h, f)
    ensures Decode(f) == Loaded(h, TableIn(h, f))
  {
    assert LoadsAs(h, f, TableIn(h, f));
    Open(h, f, TableIn(h, f));
  }

  lemma Close(h: Header, f: bytes)
    requires Decode(f).Loaded? && Decode(f).header == h
    ensures Holds(h, f) && TableIn(h, f) == Decode(f).table
  {
    assert LoadsAs(h, f, Decode(f).table);
    Shown(h, f);
  }

  // What DownloadWorkers proves of the other workers of a download.
  ghost predicate Rely(others: Others, h: Header) {
    && Readers(others, h)
    && forall turn: nat, own: int, f: bytes :: Holds(h, f) ==>
         Kept(TableIn(h, f), TableIn(h, Seen(others, turn, own, f)), own)
  }

  // One wait: the chunk in hand, what the process left in the file, and what it finds.
  datatype Wait = Wait(own: int, before: bytes, after: bytes)

  // The others of which these are the waits.
  function Answers(waits: map<nat, Wait>): Others {
    (turn: nat, own: int, f: bytes) =>
      if turn in waits && waits[turn].own == own && waits[turn].before == f then waits[turn].after else f
  }

  lemma AnswersRely(waits: map<nat, Wait>, h: Header)
    requires forall turn :: turn in waits ==>
      && Holds(h, waits[turn].before) && Holds(h, waits[turn].after)
      && Kept(TableIn(h, waits[turn].before), TableIn(h, waits[turn].after), waits[turn].own)
    ensures Rely(Answers(waits), h)
  {
  }

  // At its k-th claim, and at its k-th completion with chunk own, the process finds just what the
  // answer says.
  lemma AnswersFound(waits: map<nat, Wait>, k: nat, own: int, f: bytes)
    ensures AtClaim(Answers(waits), k, f) ==
      if 2 * k in waits && waits[2 * k].own == -1 && waits[2 * k].before == f then waits[2 * k].after else f
    ensures AtFinish(Answers(waits), k, own, f) ==
      if 2 * k + 1 in waits && waits[2 * k + 1].own == own && waits[2 * k + 1].before == f then waits[2 * k + 1].after
      else f
  {
  }

  // ---- what a worker hands to the others -----------------------------------

  // One critical section: what the process left in the file when it began to wait for the lock,
  // what it has put there when it lets go, and its connection's output and its local file at
  // the time.
  datatype Section = Section(given: bytes, left: bytes, sent: bytes, file: bytes)

  // One turn of a worker's loop, which has had the chunks `done` before: it claims chunk,
  // transfers it, and completes it.
  datatype Round = Round(done: seq<nat>, chunk: nat, claim: Section, finish: Section, ok: bool, md5: Digest)

  // Round number k, seen from the file. The claim takes the first open chunk of the array found
  // and leaves exactly that array with this one status set to mark: that is what the others
  // have before them during the transfer. The completion leaves exactly the array it finds with
  // this one entry finished, or failed, under the digest.
  ghost predicate RoundIs(others: Others, h: Header, k: nat, r: Round, mark: Status) {
    var f1, f2 := AtClaim(others, k, r.claim.given), AtFinish(others, k, r.chunk, r.finish.given);
    && Holds(h, f1) && Holds(h, r.claim.left) && Holds(h, f2) && Holds(h, r.finish.left)
    && r.finish.given == r.claim.left
    && var t1, t2 := TableIn(h, f1), TableIn(h, f2);
    && r.chunk < |t1| && r.chunk < |t2| && r.chunk == NextPending(t1)
    && TableIn(h, r.claim.left) == t1[r.chunk := t1[r.chunk].(status := mark)]
    && TableIn(h, r.finish.left) ==
         t2[r.chunk := ChunkInfo(r.md5, t2[r.chunk].size, if r.ok then Ok else Error)]
  }

  // What is in the file when round k begins.
  ghost function LeftBefore(rounds: seq<Round>, f0: bytes, k: nat): bytes
    requires k <= |rounds|
  {
    if k == 0 then f0 else rounds[k - 1].finish.left
  }

  // Round after round passes the test, and nothing is put into the file between two of them.
  ghost predicate Chained(claimed: seq<nat>, rounds: seq<Round>, test: (nat, Round) -> bool, f0: bytes) {
    |rounds| == |claimed| && forall k: nat :: k < |rounds| ==> InChain(claimed, rounds, test, f0, k)
  }

  ghost predicate InChain(claimed: seq<nat>, rounds: seq<Round>, test: (nat, Round) -> bool, f0: bytes, k: nat)
    requires k < |rounds| == |claimed|
  {
    && rounds[k].done == claimed[..k] && rounds[k].chunk == claimed[k] && test(k, rounds[k])
    && rounds[k].claim.given == LeftBefore(rounds, f0, k)
  }

  lemma ChainedStep(claimed: seq<nat>, rounds: seq<Round>, test: (nat, Round) -> bool, f0: bytes, r: Round)
    requires Chained(claimed, rounds, test, f0) && test(|rounds|, r) && r.done == claimed
    requires r.claim.given == LeftBefore(rounds, f0, |rounds|)
    ensures Chained(claimed + [r.chunk], rounds + [r], test, f0)
    ensures LeftBefore(rounds + [r], f0, |rounds| + 1) == r.finish.left
  {
    var all, claims := rounds + [r], claimed + [r.chunk];
    forall k: nat | k < |all|
      ensures InChain(claims, all, test, f0, k)
    {
      if k < |rounds| {
        assert InChain(claimed, rounds, test, f0, k) && all[k] == rounds[k] && claims[..k] == claimed[..k];
      } else {
        assert claims[..k] == claimed;
      }
    }
  }

  // The first half of a round, in the terms of ClaimChunk.
  ghost predicate ClaimIs(others: Others, h: Header, k: nat, claim: Section, chunk: nat, mark: Status) {
    var f1 := AtClaim(others, k, claim.given);
    && Holds(h, f1) && Holds(h, claim.left) && chunk == NextPending(TableIn(h, f1)) < |TableIn(h, f1)|
    && TableIn(h, claim.left) == SetStatus(TableIn(h, f1), chunk, mark, None)
  }

  // The two critical sections are a round.
  lemma MakeRound(others: Others, h: Header, k: nat, r: Round, mark: Status)
    requires ClaimIs(others, h, k, r.claim, r.chunk, mark) && r.finish.given == r.claim.left
    requires var f2 := AtFinish(others, k, r.chunk, r.finish.given);
      && Holds(h, f2) && Holds(h, r.finish.left) && r.chunk < |TableIn(h, f2)|
      && TableIn(h, r.finish.left) == SetStatus(TableIn(h, f2), r.chunk, if r.ok then Ok else Error, Some(r.md5))
    ensures RoundIs(others, h, k, r, mark)
  {
  }

  // No chunk is OK in what a worker hands over at its waits unless it was so in what it found,
  // or is its own and completed; its own is marked, neither open nor finished, while it is in
  // transfer.
  lemma HandedOver(others: Others, h: Header, k: nat, r: Round, mark: Status, i: nat)
    requires RoundIs(others, h, k, r, mark) && mark != Ok
    ensures var f1 := AtClaim(others, k, r.claim.given);
      && |TableIn(h, r.claim.left)| == |TableIn(h, f1)| > r.chunk
      && TableIn(h, r.claim.left)[r.chunk].status == mark
      && (i < |TableIn(h, f1)| && TableIn(h, r.claim.left)[i].status == Ok ==> TableIn(h, f1)[i].status == Ok)
    ensures var f2 := AtFinish(others, k, r.chunk, r.finish.given);
      && |TableIn(h, r.finish.left)| == |TableIn(h, f2)|
      && (i < |TableIn(h, f2)| && TableIn(h, r.finish.left)[i].status == Ok ==>
            TableIn(h, f2)[i].status == Ok || (r.ok && i == r.chunk))
  {
  }

  // The flag, kill(k) after the k-th chunk counting from 0, ends the loop at once when set.
  ghost predicate Heeds(kill: nat -> int, flagged: bool, claimed: nat) {
    && (forall k: nat :: k + 1 < claimed ==> kill(k) == 0)
    && (flagged ==> claimed > 0 && kill(claimed - 1) != 0)
  }

  // The same within the loop, before turn number `turn` or after the last.
  ghost predicate Heeding(kill: nat -> int, again: bool, flagged: bool, claimed: nat, turn: nat) {
    if again then turn == claimed && forall k: nat :: k < turn ==> kill(k) == 0
    else Heeds(kill, flagged, claimed)
  }

  // semaphore_get_lock sleeps until the lock is free.
  method AwaitLock(sem: Semaphore, p: nat, control: Fd, others: Others, turn: nat, own: int)
    requires sem.Valid() && sem.holder == None
    modifies sem, control`contents
    ensures sem.Valid() && sem.holder == Some(p)
    ensures control.contents == Seen(others, turn, own, old(control.contents))
  {
    control.contents := Seen(others, turn, own, control.contents);
    var entered := sem.GetLock(p);
  }

  // In round k: lock, load, pick, mark, write the array back, unlock: the file afterwards differs from what
  // was found in one chunk's status, and that chunk was the first open one.
  method ClaimChunk(sem: Semaphore, p: nat, metadata: Metadata, control: Fd, others: Others, k: nat, mark: Status,
                    ghost h: Header)
    returns (chunk: int)
    requires sem.Valid() && sem.holder == None && Holds(h, AtClaim(others, k, control.contents))
    modifies sem, metadata, control
    ensures sem.Valid() && sem.holder == None
    ensures metadata.Head() == h && Holds(h, control.contents)
    ensures var found := TableIn(h, AtClaim(others, k, old(control.contents)));
      && -1 <= chunk < |found| == h.chunks && chunk == NextPending(found)
      && TableIn(h, control.contents) == (if chunk == -1 then found else SetStatus(found, chunk, mark, None))
    ensures chunk == -1 ==> control.contents == AtClaim(others, k, old(control.contents))
  {
    AwaitLock(sem, p, control, others, 2 * k, -1);
    Shown(h, control.contents);
    var ok := metadata.LoadMetadata(control);
    ghost var f, found := control.contents, metadata.chunkInfo[..];
    chunk := metadata.GetNextPendingChunk();
    NextPendingIs(found);
    if chunk == -1 {
      sem.ReleaseLock(p);
      return;
    }
    metadata.SetChunkStatus(chunk, mark, None);
    metadata.UpdateControlData(control);
    LoadAfterUpdate(f, h, found, metadata.chunkInfo[..]);
    Close(h, control.contents);
    sem.ReleaseLock(p);
  }

  // Lock, load, mark as finished or failed, write the array back, unlock; a failed worker
  // forgets its chunk.
  method CompleteChunk(sem: Semaphore, p: nat, metadata: Metadata, control: Fd, others: Others, k: nat,
                       chunk: nat, sockError: bool, md5: Digest, ghost h: Header)
    returns (left: int)
    requires sem.Valid() && sem.holder == None && Holds(h, AtFinish(others, k, chunk, control.contents))
    requires chunk < h.chunks
    modifies sem, metadata, control
    ensures sem.Valid() && sem.holder == None
    ensures metadata.Head() == h && Holds(h, control.contents)
    ensures left == if sockError then -1 else chunk
    ensures var found := TableIn(h, AtFinish(others, k, chunk, old(control.contents)));
      && |found| == h.chunks
      && TableIn(h, control.contents) == SetStatus(found, chunk, if sockError then Error else Ok, Some(md5))
  {
    AwaitLock(sem, p, control, others, 2 * k + 1, chunk);
    Shown(h, control.contents);
    var ok := metadata.LoadMetadata(control);
    ghost var f, found := control.contents, metadata.chunkInfo[..];
    left := chunk;
    if sockError {
      metadata.SetChunkStatus(chunk, Error, Some(md5));
      left := -1;
    } else {
      metadata.SetChunkStatus(chunk, Ok, Some(md5));
    }
    metadata.UpdateControlData(control);
    LoadAfterUpdate(f, h, found, metadata.chunkInfo[..]);
    Close(h, control.contents);
    sem.ReleaseLock(p);
  }

  // What the parent does before it forks and after the last worker has ended: load the file,
  // set the in-use mark, save all of it.
  method MarkInUse(metadata: Metadata, control: Fd, use: byte, ghost h: Header)
    requires Decode(control.contents).Loaded? && Decode(control.contents).header == h
    modifies metadata, control
    ensures Decode(control.contents) == Loaded(h.(inUse := use), Decode(old(control.contents)).table)
    ensures metadata.inUse == use
  {
    var ok := metadata.LoadMetadata(control);
    metadata.inUse := use;
    metadata.SaveMetadata(control);
  }
}
