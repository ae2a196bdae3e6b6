/** The loop of an upload worker, on its own connection and the shared metadata file, whatever
    the parent and the other workers do to that file between its critical sections. */
module UploadLoop {
  import opened Bytes
  import opened ChunkLayout
  import opened ChunkTable
  import opened Counting
  import opened MetadataCodec
  import opened MetadataObject
  import opened SemaphoreLock
  import opened Sockets
  import opened Wire
  import opened Server
  import opened Client
  import opened CriticalSections
  import A = AtomicDownload

  // Emptied: nothing was pending. Flagged: the kill flag was set.
  datatype Ending = Emptied | Flagged

  // The header describes the local file.
  ghost predicate Fits(h: Header, src: bytes) {
    && ValidHeader(h) && h.chunkSize > 0
    && h.fileSize == |src| && h.chunks == Chunks(|src|, h.chunkSize)
  }

  // The parent may write its old array over the file until it has forked the last worker: from
  // wait number `quiet` on, finished chunks stay finished, as NoSaveKeepsOk proves.
  ghost predicate UploadRely(others: Others, h: Header, quiet: nat) {
    && Readers(others, h)
    && forall turn: nat, own: int, f: bytes :: turn >= quiet && Holds(h, f) ==>
         StillOk(TableIn(h, f), TableIn(h, Seen(others, turn, own, f)))
  }

  // Nothing this worker has sent is open any more, and it has sent nothing twice.
  ghost predicate Lasting(claimed: seq<nat>, t: Table) {
    && A.NoRepeats(claimed)
    && forall k :: 0 <= k < |claimed| ==> claimed[k] < |t| && t[claimed[k]].status == Ok
  }

  // The array over one turn without overwrites: from `t` the others make `found`, the claim
  // `t1`, the others `found2`, the completion `t2`.
  lemma TurnLasts(claimed: seq<nat>, t: Table, found: Table, chunk: nat, found2: Table, md5: Digest)
    requires StillOk(t, found) && chunk == NextPending(found) < |found|
    requires StillOk(SetStatus(found, chunk, Upload, None), found2)
    ensures var t2 := SetStatus(found2, chunk, Ok, Some(md5));
      && |NotOk(t2)| < |NotOk(t)|
      && (Lasting(claimed, t) ==> Lasting(claimed + [chunk], t2))
  {
    var t2 := SetStatus(found2, chunk, Ok, Some(md5));
    NextPendingIs(found);
    assert chunk in NotOk(t) && chunk !in NotOk(t2);
    assert NotOk(t2) <= NotOk(t) - {chunk};
    SubsetSize(NotOk(t2), NotOk(t) - {chunk});
    if Lasting(claimed, t) {
      assert forall k :: 0 <= k < |claimed| ==> claimed[k] != chunk;
    }
  }

  // Send the chunk just claimed and mark it finished; sock_error is never set.
  method SendAndComplete(sd: Socket, sem: Semaphore, p: nat, metadata: Metadata, control: Fd, source: Fd,
                         payLoad: seq<int>, others: Others, turn: nat, chunk: nat, junk: Digest,
                         ghost h: Header, ghost hello: bytes, ghost claimed: seq<nat>, ghost claim: Section)
    returns (chunkNumber: int, ghost round: Round)
    requires sem.Valid() && sem.holder == None && control != source && chunk < h.chunks
    requires Fits(h, source.contents) && Sizes(payLoad, h) && metadata.Head() == h
    requires Readers(others, h) && Holds(h, control.contents)
    requires Told(hello, source.contents, h.chunkSize, claimed, sd.sent)
    requires claim.sent == sd.sent && claim.left == control.contents && ClaimIs(others, h, turn, claim, chunk, Upload)
    modifies sd`sent, sem, metadata, control, source`pos
    ensures sem.Valid() && sem.holder == None && chunkNumber == chunk && Holds(h, control.contents)
    ensures Told(hello, source.contents, h.chunkSize, claimed + [chunk], sd.sent)
    ensures UploadRound(others, h, hello, source.contents, turn, round) && round.md5 == junk
    ensures round.done == claimed && round.chunk == chunk
    ensures round.claim == claim && round.finish.left == control.contents
  {
    ToldStep(hello, source.contents, h.chunkSize, claimed, chunk, sd.sent);
    SendChunk(sd, source, chunk, metadata.chunkSize, payLoad);
    chunkNumber, round := FinishRound(sem, p, metadata, control, others, turn, chunk, junk, h, claimed, claim,
                                      sd.sent, source.contents);
  }

  // The second critical section of a round, with this already on the connection.
  method FinishRound(sem: Semaphore, p: nat, metadata: Metadata, control: Fd, others: Others, turn: nat, chunk: nat,
                     junk: Digest, ghost h: Header, ghost claimed: seq<nat>, ghost claim: Section,
                     ghost sent: bytes, ghost file: bytes)
    returns (chunkNumber: int, ghost round: Round)
    requires sem.Valid() && sem.holder == None && chunk < h.chunks
    requires Readers(others, h) && Holds(h, control.contents)
    requires claim.left == control.contents && ClaimIs(others, h, turn, claim, chunk, Upload)
    modifies sem, metadata, control
    ensures sem.Valid() && sem.holder == None && chunkNumber == chunk && Holds(h, control.contents)
    ensures RoundIs(others, h, turn, round, Upload) && round.ok && round.md5 == junk
    ensures round.done == claimed && round.chunk == chunk && round.claim == claim
    ensures round.finish == Section(old(control.contents), control.contents, sent, file)
  {
    ghost var given := control.contents;
    chunkNumber := CompleteChunk(sem, p, metadata, control, others, turn, chunk, false, junk, h);
    round := Round(claimed, chunk, claim, Section(given, control.contents, sent, file), true, junk);
    MakeRound(others, h, turn, round, Upload);
  }

  // In a round in which nobody overwrites the array, the worker makes progress.
  lemma CalmRound(others: Others, h: Header, hello: bytes, src: bytes, k: nat, r: Round, quiet: nat)
    requires UploadRely(others, h, quiet) && 2 * k >= quiet && Holds(h, r.claim.given)
    requires UploadRound(others, h, hello, src, k, r)
    ensures Holds(h, r.finish.left)
    ensures var t, t2 := TableIn(h, r.claim.given), TableIn(h, r.finish.left);
      |NotOk(t2)| < |NotOk(t)| && (Lasting(r.done, t) ==> Lasting(r.done + [r.chunk], t2))
  {
    var f1, f2 := AtClaim(others, k, r.claim.given), AtFinish(others, k, r.chunk, r.finish.given);
    var t, found, found2 := TableIn(h, r.claim.given), TableIn(h, f1), TableIn(h, f2);
    assert StillOk(t, found) && StillOk(TableIn(h, r.claim.left), found2);
    assert SetStatus(found, r.chunk, Upload, None) == TableIn(h, r.claim.left);
    TurnLasts(r.done, t, found, r.chunk, found2, r.md5);
  }

  // One round of an upload worker. When it claims a chunk it has written the records of those
  // before it; when it marks the chunk finished it has written that chunk's record too.
  ghost predicate UploadRound(others: Others, h: Header, hello: bytes, src: bytes, k: nat, r: Round) {
    && RoundIs(others, h, k, r, Upload) && r.ok && h.chunkSize >= 0
    && Told(hello, src, h.chunkSize, r.done, r.claim.sent)
    && Told(hello, src, h.chunkSize, r.done + [r.chunk], r.finish.sent)
  }

  ghost function RoundTest(others: Others, h: Header, hello: bytes, src: bytes): (nat, Round) -> bool {
    (k: nat, r: Round) => UploadRound(others, h, hello, src, k, r)
  }

  // All of what a worker's rounds do: to the shared file, for the others to find, and on its
  // connection.
  ghost predicate Handed(others: Others, h: Header, hello: bytes, src: bytes, claimed: seq<nat>, rounds: seq<Round>,
                         f0: bytes) {
    Chained(claimed, rounds, RoundTest(others, h, hello, src), f0)
  }

  lemma IsRound(others: Others, h: Header, hello: bytes, src: bytes, k: nat, r: Round)
    requires UploadRound(others, h, hello, src, k, r)
    ensures RoundTest(others, h, hello, src)(k, r)
  {
  }

  ghost predicate Sizes(payLoad: seq<int>, h: Header) {
    |payLoad| == h.chunks && forall k :: 0 <= k < |payLoad| ==> payLoad[k] == SizeOf(h.fileSize, h.chunkSize, k)
  }

  // The loop before its turn number |rounds|, or after its last.
  datatype Point = Point(again: bool, how: Ending, claimed: seq<nat>, rounds: seq<Round>, sent: bytes, control: bytes)

  // What it keeps, on its connection and for the others.
  ghost predicate Progress(others: Others, h: Header, hello: bytes, src: bytes, f0: bytes, x: Point) {
    && Handed(others, h, hello, src, x.claimed, x.rounds, f0) && Holds(h, x.control) && h.chunkSize >= 0
    && (if x.again then Told(hello, src, h.chunkSize, x.claimed, x.sent)
             && x.control == LeftBefore(x.rounds, f0, |x.rounds|)
        else Parted(hello, src, h, x.how, x.claimed, x.sent, TableIn(h, x.control))
             && x.control == LeftAtEnd(others, x.how, x.rounds, f0))
  }

  ghost function Points(others: Others, h: Header, hello: bytes, src: bytes, f0: bytes): iset<Point> {
    iset x: Point | Progress(others, h, hello, src, f0, x)
  }

  // Round number k is the one more that `rounds` has than `was`; before it the file held `given`
  // and after it `left`.
  ghost predicate NewRound(others: Others, h: Header, hello: bytes, src: bytes, k: nat, given: bytes, left: bytes,
                           r: Round) {
    UploadRound(others, h, hello, src, k, r) && r.claim.given == given && r.finish.left == left
  }

  ghost function NewRounds(others: Others, h: Header, hello: bytes, src: bytes, k: nat, given: bytes, left: bytes):
    iset<Round>
  {
    iset r: Round | NewRound(others, h, hello, src, k, given, left, r)
  }

  // The last of `rounds` is new, one of `these`, and its chunk the last of `after`.
  ghost predicate OneMore(claimed: seq<nat>, after: seq<nat>, was: seq<Round>, rounds: seq<Round>, these: iset<Round>) {
    && |rounds| == |was| + 1 && after == claimed + [rounds[|was|].chunk] && rounds[|was|].done == claimed
    && rounds[|was|] in these
  }

  lemma OneMoreRound(others: Others, h: Header, hello: bytes, src: bytes, f0: bytes, claimed: seq<nat>, was: seq<Round>,
                     sent: bytes, given: bytes, r: Round, sent': bytes)
    requires Point(true, Emptied, claimed, was, sent, given) in Points(others, h, hello, src, f0)
    requires UploadRound(others, h, hello, src, |was|, r) && r.done == claimed && r.claim.given == given
    requires Told(hello, src, h.chunkSize, claimed + [r.chunk], sent')
    ensures forall how ::
      Point(true, how, claimed + [r.chunk], was + [r], sent', r.finish.left) in Points(others, h, hello, src, f0)
    ensures Point(false, Flagged, claimed + [r.chunk], was + [r], sent', r.finish.left)
      in Points(others, h, hello, src, f0)
    ensures OneMore(claimed, claimed + [r.chunk], was, was + [r],
                    NewRounds(others, h, hello, src, |was|, given, r.finish.left))
  {
    IsRound(others, h, hello, src, |was|, r);
    ChainedStep(claimed, was, RoundTest(others, h, hello, src), f0, r);
    PartedFlagged(hello, src, h, claimed + [r.chunk], sent', TableIn(h, r.finish.left));
  }

  lemma NoMoreRounds(others: Others, h: Header, hello: bytes, src: bytes, f0: bytes, claimed: seq<nat>, was: seq<Round>,
                     sent: bytes, given: bytes, left: bytes)
    requires Point(true, Emptied, claimed, was, sent, given) in Points(others, h, hello, src, f0)
    requires left == AtClaim(others, |was|, given) && Holds(h, left) && NextPending(TableIn(h, left)) == -1
    ensures Point(false, Emptied, claimed, was, sent + Int64Bytes(-1), left) in Points(others, h, hello, src, f0)
  {
    PartedEmptied(hello, src, h, claimed, sent, TableIn(h, left));
  }

  // One turn of the loop and the test at its end.
  method UploadTurn(sd: Socket, sem: Semaphore, p: nat, metadata: Metadata, control: Fd, source: Fd,
                    payLoad: seq<int>, others: Others, turn: nat, kill: nat -> int, junk: Digest,
                    ghost h: Header, ghost hello: bytes, ghost f0: bytes, ghost claimed: seq<nat>,
                    ghost was: seq<Round>)
    returns (again: bool, how: Ending, ghost after: seq<nat>, ghost rounds: seq<Round>)
    requires sem.Valid() && sem.holder == None && control != source
    requires Fits(h, source.contents) && Sizes(payLoad, h) && Readers(others, h)
    requires Point(true, Emptied, claimed, was, sd.sent, control.contents)
      in Points(others, h, hello, source.contents, f0)
    requires Heeding(kill, true, false, |claimed|, turn) && |was| == turn
    modifies sd`sent, sem, metadata, control, source`pos
    ensures sem.Valid() && sem.holder == None
    ensures Point(again, how, after, rounds, sd.sent, control.contents) in Points(others, h, hello, source.contents, f0)
    ensures Heeding(kill, again, how.Flagged?, |after|, turn + 1) && (again ==> |rounds| == turn + 1)
    ensures if again || how.Flagged?
      then OneMore(claimed, after, was, rounds,
                   NewRounds(others, h, hello, source.contents, turn, old(control.contents), control.contents))
      else after == claimed && control.contents == AtClaim(others, turn, old(control.contents))
  {
    after, rounds := claimed, was;
    ghost var given, sent := control.contents, sd.sent;
    var chunk := ClaimChunk(sem, p, metadata, control, others, turn, Upload, h);
    if chunk == -1 {
      NoMoreRounds(others, h, hello, source.contents, f0, claimed, was, sd.sent, given, control.contents);
      sd.Write(Int64Bytes(-1));
      return false, Emptied, after, rounds;
    }
    ghost var claim := Section(given, control.contents, sd.sent, source.contents);
    var chunkNumber;
    ghost var r;
    chunkNumber, r := SendAndComplete(sd, sem, p, metadata, control, source, payLoad, others, turn, chunk, junk,
                                      h, hello, claimed, claim);
    after, rounds := claimed + [r.chunk], was + [r];
    OneMoreRound(others, h, hello, source.contents, f0, claimed, was, sent, given, r, sd.sent);
    again, how := chunkNumber != -1 && kill(turn) == 0, Flagged;
  }

  // What a worker that has left has written, and why it left: only with nothing pending does
  // it say goodbye.
  ghost predicate Parted(hello: bytes, src: bytes, h: Header, how: Ending, claimed: seq<nat>, sent: bytes, t: Table) {
    && h.chunkSize > 0 && (forall j :: 0 <= j < |claimed| ==> claimed[j] < Chunks(|src|, h.chunkSize))
    && sent == hello + RecordsThen(SliceRecords(src, h.chunkSize, claimed), [])
         + (if how.Emptied? then Int64Bytes(-1) else [])
    && (how.Emptied? ==> NextPending(t) == -1)
  }

  lemma PartedFlagged(hello: bytes, src: bytes, h: Header, claimed: seq<nat>, sent: bytes, t: Table)
    requires h.chunkSize > 0 && Told(hello, src, h.chunkSize, claimed, sent)
    ensures Parted(hello, src, h, Flagged, claimed, sent, t)
  {
  }

  lemma PartedEmptied(hello: bytes, src: bytes, h: Header, claimed: seq<nat>, sent: bytes, t: Table)
    requires h.chunkSize > 0 && Told(hello, src, h.chunkSize, claimed, sent) && NextPending(t) == -1
    ensures Parted(hello, src, h, Emptied, claimed, sent + Int64Bytes(-1), t)
  {
  }

  // UploadFileToServer, one worker, with kill(k) the flag after its k-th chunk, counting from 0,
  // and junk the digest the code never fills. Its rounds say all that it does to the shared file
  // and when. It ends however often the parent overwrites the array, as long as that stops some
  // time; and when that has stopped before it begins, the worker sends no chunk twice and what
  // it sent stays finished.
  method UploadFileToServer(sd: Socket, sem: Semaphore, p: nat, metadata: Metadata, control: Fd, source: Fd,
                            others: Others, kill: nat -> int, junk: Digest, ghost h: Header, ghost quiet: nat)
    returns (how: Ending, ghost claimed: seq<nat>, ghost rounds: seq<Round>)
    requires sem.Valid() && sem.holder == None && control != source
    requires Fits(h, source.contents) && UploadRely(others, h, quiet) && Holds(h, control.contents)
    modifies sd`sent, sem, metadata, control, source`pos
    ensures sem.Valid() && sem.holder == None && Holds(h, control.contents)
    ensures Handed(others, h, old(sd.sent) + [UPLOAD_CHUNK], source.contents, claimed, rounds, old(control.contents))
    ensures control.contents == LeftAtEnd(others, how, rounds, old(control.contents))
    ensures Parted(old(sd.sent) + [UPLOAD_CHUNK], source.contents, h, how, claimed, sd.sent,
                   TableIn(h, control.contents))
    ensures Heeds(kill, how.Flagged?, |claimed|)
    ensures quiet == 0 ==> Lasting(claimed, TableIn(h, control.contents))
  {
    ghost var hello, f0 := sd.sent + [UPLOAD_CHUNK], control.contents;
    var payLoad := Begin(sd, metadata, control, h);
    claimed, how, rounds := [], Emptied, [];
    var turn, again := 0, true;
    while again
      invariant sem.Valid() && sem.holder == None
      invariant source.contents == old(source.contents) && Sizes(payLoad, h)
      invariant Point(again, how, claimed, rounds, sd.sent, control.contents)
        in Points(others, h, hello, source.contents, f0)
      invariant Heeding(kill, again, how.Flagged?, |claimed|, turn) && (again ==> |rounds| == turn)
      invariant quiet == 0 ==> Lasting(claimed, TableIn(h, control.contents))
      decreases again, if 2 * turn < quiet then quiet - 2 * turn else 0, |NotOk(TableIn(h, control.contents))|
    {
      ghost var was, before := rounds, control.contents;
      again, how, claimed, rounds :=
        UploadTurn(sd, sem, p, metadata, control, source, payLoad, others, turn, kill, junk,
                   h, hello, f0, claimed, rounds);
      if 2 * turn >= quiet && (again || how.Flagged?) {
        CalmRound(others, h, hello, source.contents, turn, rounds[|was|], quiet);
      }
      turn := turn + 1;
    }
  }

  // What is in the file in the end: what the last round left, and what the others have made of
  // it if the worker looked once more and found nothing.
  ghost function LeftAtEnd(others: Others, how: Ending, rounds: seq<Round>, f0: bytes): bytes {
    var left := LeftBefore(rounds, f0, |rounds|);
    if how.Emptied? then AtClaim(others, |rounds|, left) else left
  }

  // The command, and the table of sizes.
  method Begin(sd: Socket, metadata: Metadata, control: Fd, ghost h: Header) returns (payLoad: seq<int>)
    requires ValidHeader(h) && Holds(h, control.contents)
    modifies sd`sent, metadata, control`pos
    ensures sd.sent == old(sd.sent) + [UPLOAD_CHUNK]
    ensures Sizes(payLoad, h)
  {
    sd.Write([UPLOAD_CHUNK]);
    Shown(h, control.contents);
    var ok := metadata.LoadMetadata(control);
    var sizes := GetPayLoadArray(metadata.fileSize, metadata.chunkSize, metadata.chunks);
    payLoad := sizes[..];  // it is not written again
  }

  // A whole upload connection: what the worker has written when it leaves is exactly a stream
  // that the server's Core parses, with a goodbye if it left because nothing was pending.
  method UploadConnection(sd: Socket, sem: Semaphore, p: nat, metadata: Metadata, control: Fd, source: Fd,
                          others: Others, kill: nat -> int, junk: Digest, u: UploadHeader,
                          ghost h: Header, ghost quiet: nat)
    returns (how: Ending, ghost claimed: seq<nat>, ghost rounds: seq<Round>)
    requires sem.Valid() && sem.holder == None && control != source && ValidUploadHeader(u)
    requires Fits(h, source.contents) && UploadRely(others, h, quiet) && Holds(h, control.contents)
    modifies sd`sent, sem, metadata, control, source`pos
    ensures forall j :: 0 <= j < |claimed| ==> claimed[j] < Chunks(|source.contents|, h.chunkSize)
    ensures sd.sent == old(sd.sent)
      + UploadStream(u, SliceRecords(source.contents, h.chunkSize, claimed), how.Emptied?)
    ensures Handed(others, h, old(sd.sent) + ScriptThen(Init(u), []) + [UPLOAD_CHUNK], source.contents, claimed, rounds,
                   old(control.contents))
    ensures Heeds(kill, how.Flagged?, |claimed|)
  {
    ghost var start := sd.sent;
    InitUploadOnServer(sd, u);
    how, claimed, rounds := UploadFileToServer(sd, sem, p, metadata, control, source, others, kill, junk, h, quiet);
    ghost var recs := SliceRecords(source.contents, h.chunkSize, claimed);
    WholeStream(u, recs, how.Emptied?);
    FourWrites(start, ScriptThen(Init(u), []), [UPLOAD_CHUNK], RecordsThen(recs, []),
               if how.Emptied? then Int64Bytes(-1) else []);
  }

  lemma FourWrites(w: bytes, a: bytes, b: bytes, c: bytes, d: bytes)
    ensures w + a + b + c + d == w + (a + b + c + d)
  {
  }
}
