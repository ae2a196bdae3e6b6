/** The loop of a download worker, on its own connection and the shared metadata file, whatever
    the other workers do to that file between its critical sections. */
module DownloadLoop {
  import opened Bytes
  import opened ChunkTable
  import opened Counting
  import opened MetadataCodec
  import opened MetadataObject
  import opened NumberField
  import opened SemaphoreLock
  import opened Sockets
  import opened Wire
  import opened Client
  import opened CriticalSections
  import A = AtomicDownload

  // What the loop starts from: the connection, the local file and the array it finds.
  datatype Session = Session(c: A.Config, h: Header, hello: bytes, arrivals: seq<Arrival>, file: bytes, table: Table)

  // Emptied: nothing was pending. Flagged: the kill flag was set. Failed: a so_read came up
  // short. Derailed: a size field would have made the code run past its buffer.
  datatype Ending = Emptied | Flagged | Failed | Derailed

  // The server's bytes are its replies to the requests ns, or those cut off anywhere.
  ghost predicate Serves(s: Session, ns: seq<nat>) {
    InFile(s.c, ns) && Clean(s.arrivals) && Flat(s.arrivals) <= RepliesOf(s.c, ns)
  }

  ghost predicate Whole(s: Session, ns: seq<nat>)
    requires InFile(s.c, ns)
  {
    Flat(s.arrivals) == RepliesOf(s.c, ns)
  }

  // The first n chunks of ns are finished, with the digests of their replies.
  ghost predicate Marked(c: A.Config, ns: seq<nat>, n: nat, t: Table)
    requires InFile(c, ns) && n <= |ns| && |t| == A.ChunkCount(c)
  {
    forall k :: 0 <= k < n ==> t[ns[k]].status == Ok && t[ns[k]].md5 == c.md5(A.Reply(c, ns[k]))
  }

  // If the requests turn out to be ns and are answered, the first n replies are where they
  // belong and what is still to come are the others.
  ghost predicate Received(s: Session, ns: seq<nat>, n: nat, file: bytes, t: Table)
    requires InFile(s.c, ns) && n <= |ns| && |t| == A.ChunkCount(s.c)
  {
    InPlace(s.c, s.file, ns, n, file) && Marked(s.c, ns, n, t)
  }

  ghost predicate OnTrack(s: Session, claimed: seq<nat>, arrivals: seq<Arrival>, file: bytes, t: Table)
    requires A.ValidConfig(s.c) && |t| == A.ChunkCount(s.c)
  {
    forall ns: seq<nat> :: claimed <= ns && Serves(s, ns) ==>
      Along(s.c, ns, |claimed|, arrivals, Whole(s, ns)) && Received(s, ns, |claimed|, file, t)
  }

  // What the claims so far have to do with the array: all were open at the start, none is
  // claimed twice, and nothing finished has been touched.
  ghost predicate Fair(s: Session, claimed: seq<nat>, t: Table) {
    && Describes(s.h, s.c) && |s.table| == A.ChunkCount(s.c) && InFile(s.c, claimed)
    && Kept(s.table, t, -1) && A.NoRepeats(claimed)
    && forall k :: 0 <= k < |claimed| ==> s.table[claimed[k]].status != Ok
  }

  ghost predicate AllOk(claimed: seq<nat>, n: nat, t: Table) {
    n <= |claimed| && forall k :: 0 <= k < n ==> claimed[k] < |t| && t[claimed[k]].status == Ok
  }

  // Between two turns of the loop.
  ghost predicate Going(s: Session, claimed: seq<nat>, sent: bytes, arrivals: seq<Arrival>, file: bytes, t: Table) {
    && Fair(s, claimed, t) && AllOk(claimed, |claimed|, t)
    && sent == s.hello + RequestsOf(claimed)
    && OnTrack(s, claimed, arrivals, file, t)
  }

  // After the turn in which the connection failed: all but the last claim are finished.
  ghost predicate Broke(s: Session, claimed: seq<nat>, sent: bytes, file: bytes, t: Table) {
    && Fair(s, claimed, t) && claimed != [] && AllOk(claimed, |claimed| - 1, t)
    && sent == s.hello + RequestsOf(claimed)
    && (Serves(s, claimed) ==> !Whole(s, claimed) && Received(s, claimed, |claimed| - 1, file, t))
  }

  // ---- one turn, on values -------------------------------------------------

  // A chunk found open is new: it was open all along.
  lemma ClaimIsNew(s: Session, claimed: seq<nat>, t: Table, found: Table, chunk: nat)
    requires Fair(s, claimed, t) && AllOk(claimed, |claimed|, t) && Kept(t, found, -1)
    requires chunk == NextPending(found)
    ensures chunk < |t| && t[chunk].status != Ok
    ensures Fair(s, claimed + [chunk], SetStatus(found, chunk, Download, None))
    ensures Kept(t, SetStatus(found, chunk, Download, None), -1)
  {
    NextPendingIs(found);
    var all := claimed + [chunk];
    forall k | 0 <= k < |claimed|
      ensures all[k] != chunk
    {
      assert t[claimed[k]].status == Ok;
    }
  }

  // What the other workers do meanwhile, and the completion.
  lemma CompletionKeeps(s: Session, claimed: seq<nat>, chunk: nat, t: Table, found: Table, t2: Table, ok: bool,
                        md5: Digest)
    requires Fair(s, claimed + [chunk], t) && AllOk(claimed, |claimed|, t) && chunk < |t|
    requires t[chunk].status == Download && Kept(t, found, chunk)
    requires t2 == SetStatus(found, chunk, if ok then Ok else Error, Some(md5))
    ensures Fair(s, claimed + [chunk], t2) && AllOk(claimed, |claimed|, t2) && Kept(t, t2, -1)
  {
    assert (claimed + [chunk])[|claimed|] == chunk;
  }

  lemma Fewer(t: Table, t2: Table, chunk: nat)
    requires Kept(t, t2, -1) && chunk < |t| && t[chunk].status != Ok && t2[chunk].status == Ok
    ensures |NotOk(t2)| < |NotOk(t)|
  {
    assert chunk in NotOk(t) && chunk !in NotOk(t2);
    assert NotOk(t2) <= NotOk(t) - {chunk};
    SubsetSize(NotOk(t2), NotOk(t) - {chunk});
  }

  // The reply to a chunk just asked for, whatever is asked for later.
  lemma TrackStep(s: Session, claimed: seq<nat>, chunk: nat, arrivals: seq<Arrival>, was: Digest, file: bytes,
                  t: Table, t2: Table)
    requires A.ValidConfig(s.c) && |t| == A.ChunkCount(s.c) && OnTrack(s, claimed, arrivals, file, t)
    requires Kept(t, t2, -1) && chunk < |t2| && AllOk(claimed, |claimed|, t)
    requires var f := Fetched(arrivals, was); f.Got? && t2[chunk].status == Ok && t2[chunk].md5 == f.md5
    ensures var f := Fetched(arrivals, was);
      OnTrack(s, claimed + [chunk], f.rest, WriteAt(file, Place(chunk, s.c.chunkSize), f.data), t2)
  {
    var all, f := claimed + [chunk], Fetched(arrivals, was);
    var file2 := WriteAt(file, Place(chunk, s.c.chunkSize), f.data);
    forall ns: seq<nat> | all <= ns && Serves(s, ns)
      ensures Along(s.c, ns, |all|, f.rest, Whole(s, ns)) && Received(s, ns, |all|, file2, t2)
    {
      TrackAny(s, claimed, chunk, ns, arrivals, was, file, t, t2);
    }
  }

  lemma TrackAny(s: Session, claimed: seq<nat>, chunk: nat, ns: seq<nat>, arrivals: seq<Arrival>, was: Digest,
                 file: bytes, t: Table, t2: Table)
    requires Serves(s, ns) && claimed + [chunk] <= ns
    requires |t| == A.ChunkCount(s.c) && OnTrack(s, claimed, arrivals, file, t) && Kept(t, t2, -1) && chunk < |t2|
    requires var f := Fetched(arrivals, was); f.Got? && t2[chunk].status == Ok && t2[chunk].md5 == f.md5
    ensures var f := Fetched(arrivals, was);
      && Along(s.c, ns, |claimed| + 1, f.rest, Whole(s, ns))
      && Received(s, ns, |claimed| + 1, WriteAt(file, Place(chunk, s.c.chunkSize), f.data), t2)
  {
    assert claimed <= ns && ns[|claimed|] == chunk;
    TrackOne(s, ns, |claimed|, arrivals, was, file, t, t2);
  }

  lemma TrackOne(s: Session, ns: seq<nat>, n: nat, arrivals: seq<Arrival>, was: Digest, file: bytes, t: Table,
                 t2: Table)
    requires Serves(s, ns) && n < |ns| && |t| == A.ChunkCount(s.c)
    requires Along(s.c, ns, n, arrivals, Whole(s, ns)) && Received(s, ns, n, file, t) && Kept(t, t2, -1)
    requires var f := Fetched(arrivals, was); f.Got? && t2[ns[n]].status == Ok && t2[ns[n]].md5 == f.md5
    ensures var f := Fetched(arrivals, was);
      && Along(s.c, ns, n + 1, f.rest, Whole(s, ns))
      && Received(s, ns, n + 1, WriteAt(file, Place(ns[n], s.c.chunkSize), f.data), t2)
  {
    AlongStep(s.c, ns, n, arrivals, was, Whole(s, ns), s.file, file);
  }

  lemma TrackEnd(s: Session, claimed: seq<nat>, chunk: nat, arrivals: seq<Arrival>, was: Digest, file: bytes,
                 t: Table, t2: Table)
    requires A.ValidConfig(s.c) && |t| == A.ChunkCount(s.c) && OnTrack(s, claimed, arrivals, file, t)
    requires Kept(t, t2, -1) && AllOk(claimed, |claimed|, t)
    requires !Fetched(arrivals, was).Got? && Serves(s, claimed + [chunk])
    ensures Fetched(arrivals, was).Broken? && !Whole(s, claimed + [chunk])
    ensures Received(s, claimed + [chunk], |claimed|, file, t2)
  {
    var all := claimed + [chunk];
    assert claimed <= all && all[|claimed|] == chunk;
    AlongStep(s.c, all, |claimed|, arrivals, was, Whole(s, all), s.file, file);
    assert Marked(s.c, all, |claimed|, t);
  }

  // The whole turn, with its two waits: from `t` the others make `found`, the claim makes `t1`
  // of it, the others `found2`, and the completion `t2`.
  lemma TurnArrived(s: Session, claimed: seq<nat>, sent: bytes, arrivals: seq<Arrival>, was: Digest, file: bytes,
                    t: Table, found: Table, chunk: nat, found2: Table)
    requires Going(s, claimed, sent, arrivals, file, t) && Kept(t, found, -1) && chunk == NextPending(found) < |found|
    requires Kept(SetStatus(found, chunk, Download, None), found2, chunk) && Fetched(arrivals, was).Got?
    ensures var f := Fetched(arrivals, was);
      var t2 := SetStatus(found2, chunk, Ok, Some(f.md5));
      && Going(s, claimed + [chunk], sent + PrintField(chunk), f.rest,
               WriteAt(file, Place(chunk, s.c.chunkSize), f.data), t2)
      && |NotOk(t2)| < |NotOk(t)|
  {
    var f := Fetched(arrivals, was);
    var t2 := SetStatus(found2, chunk, Ok, Some(f.md5));
    TwoWrites(s, claimed, t, found, chunk, found2, true, f.md5);
    Fewer(t, t2, chunk);
    TrackStep(s, claimed, chunk, arrivals, was, file, t, t2);
    OneMoreRequest(s.hello, claimed, chunk);
  }

  lemma TurnFailed(s: Session, claimed: seq<nat>, sent: bytes, arrivals: seq<Arrival>, was: Digest, file: bytes,
                   t: Table, found: Table, chunk: nat, found2: Table)
    requires Going(s, claimed, sent, arrivals, file, t) && Kept(t, found, -1) && chunk == NextPending(found) < |found|
    requires Kept(SetStatus(found, chunk, Download, None), found2, chunk) && !Fetched(arrivals, was).Got?
    ensures var f := Fetched(arrivals, was);
      && Broke(s, claimed + [chunk], sent + PrintField(chunk), file, SetStatus(found2, chunk, Error, Some(f.md5)))
      && Broke(s, claimed + [chunk], sent + PrintField(chunk), file, SetStatus(found, chunk, Download, None))
      && (Serves(s, claimed + [chunk]) ==> f.Broken?)
  {
    var f := Fetched(arrivals, was);
    var t1, t2 := SetStatus(found, chunk, Download, None), SetStatus(found2, chunk, Error, Some(f.md5));
    TwoWrites(s, claimed, t, found, chunk, found2, false, f.md5);
    OneMoreRequest(s.hello, claimed, chunk);
    if Serves(s, claimed + [chunk]) {
      TrackEnd(s, claimed, chunk, arrivals, was, file, t, t1);
      TrackEnd(s, claimed, chunk, arrivals, was, file, t, t2);
    }
  }

  lemma TwoWrites(s: Session, claimed: seq<nat>, t: Table, found: Table, chunk: nat, found2: Table, ok: bool,
                  md5: Digest)
    requires Fair(s, claimed, t) && AllOk(claimed, |claimed|, t) && Kept(t, found, -1)
    requires chunk == NextPending(found) < |found|
    requires Kept(SetStatus(found, chunk, Download, None), found2, chunk)
    ensures t[chunk].status != Ok
    ensures var t1 := SetStatus(found, chunk, Download, None);
      Fair(s, claimed + [chunk], t1) && AllOk(claimed, |claimed|, t1) && Kept(t, t1, -1)
    ensures var t2 := SetStatus(found2, chunk, if ok then Ok else Error, Some(md5));
      && Fair(s, claimed + [chunk], t2) && AllOk(claimed, |claimed|, t2) && Kept(t, t2, -1)
      && (ok ==> AllOk(claimed + [chunk], |claimed| + 1, t2))
  {
    ClaimIsNew(s, claimed, t, found, chunk);
    CompletionKeeps(s, claimed, chunk, SetStatus(found, chunk, Download, None), found2,
                    SetStatus(found2, chunk, if ok then Ok else Error, Some(md5)), ok, md5);
  }

  lemma OneMoreRequest(hello: bytes, claimed: seq<nat>, chunk: nat)
    ensures (hello + RequestsOf(claimed)) + PrintField(chunk) == hello + RequestsOf(claimed + [chunk])
  {
    RequestsSnoc(claimed, chunk);
    var a, b := RequestsOf(claimed), PrintField(chunk);
    assert (hello + a) + b == hello + (a + b);
  }

  // ---- the loop ------------------------------------------------------------

  lemma StillGoing(s: Session, claimed: seq<nat>, sent: bytes, arrivals: seq<Arrival>, file: bytes, t: Table,
                   found: Table)
    requires Going(s, claimed, sent, arrivals, file, t) && Kept(t, found, -1)
    ensures Going(s, claimed, sent, arrivals, file, found)
  {
    forall ns: seq<nat> | claimed <= ns && Serves(s, ns)
      ensures Along(s.c, ns, |claimed|, arrivals, Whole(s, ns)) && Received(s, ns, |claimed|, file, found)
    {
      assert Marked(s.c, ns, |claimed|, t);
    }
  }

  // How many of the claims were finished.
  function Done(how: Ending, claimed: seq<nat>): (n: nat)
    ensures n <= |claimed|
  {
    if how.Emptied? || how.Flagged? || claimed == [] then |claimed| else |claimed| - 1
  }

  // What the whole loop leaves, on every connection and whatever the other workers do:
  //  - it asked for chunks that were open at the start, none twice, and stopped asking only
  //    when nothing was pending, the flag was set or the connection failed;
  //  - the chunks it was answered for are marked finished, the one it was not is marked Error;
  //  - on a connection that carries the server's replies, in whatever pieces and cut off
  //    anywhere, the replies that came whole are in the local file, each at its chunk's place
  //    and with its digest in the array, and the worker fails exactly if one is missing.
  ghost predicate Ended(s: Session, how: Ending, claimed: seq<nat>, sent: bytes, file: bytes, t: Table) {
    && Fair(s, claimed, t) && sent == s.hello + RequestsOf(claimed)
    && (how.Emptied? ==> NextPending(t) == -1)
    && (how.Failed? ==> claimed != [] && t[claimed[|claimed| - 1]].status == Error)
    && AllOk(claimed, Done(how, claimed), t)
    && (Serves(s, claimed) ==>
          && !how.Derailed? && (how.Failed? <==> !Whole(s, claimed))
          && Received(s, claimed, Done(how, claimed), file, t))
  }

  lemma EndedWell(s: Session, how: Ending, claimed: seq<nat>, sent: bytes, arrivals: seq<Arrival>, file: bytes,
                  t: Table)
    requires Going(s, claimed, sent, arrivals, file, t)
    requires how.Flagged? || (how.Emptied? && NextPending(t) == -1)
    ensures Ended(s, how, claimed, sent, file, t)
  {
    if Serves(s, claimed) {
      assert Along(s.c, claimed, |claimed|, arrivals, Whole(s, claimed));
      AlongEnd(s.c, claimed, arrivals, Whole(s, claimed));
    }
  }

  lemma EndedBadly(s: Session, how: Ending, claimed: seq<nat>, sent: bytes, file: bytes, t: Table)
    requires Broke(s, claimed, sent, file, t)
    requires how.Failed? || how.Derailed?
    requires how.Failed? ==> t[claimed[|claimed| - 1]].status == Error
    requires how.Derailed? ==> !Serves(s, claimed)
    ensures Ended(s, how, claimed, sent, file, t)
  {
  }

  lemma TurnEnds(s: Session, claimed: seq<nat>, sent: bytes, arrivals: seq<Arrival>, was: Digest, file: bytes,
                 t: Table, found: Table, chunk: nat, found2: Table)
    requires Going(s, claimed, sent, arrivals, file, t) && Kept(t, found, -1) && chunk == NextPending(found) < |found|
    requires Kept(SetStatus(found, chunk, Download, None), found2, chunk) && !Fetched(arrivals, was).Got?
    ensures var f := Fetched(arrivals, was);
      && Ended(s, Failed, claimed + [chunk], sent + PrintField(chunk), file,
               SetStatus(found2, chunk, Error, Some(f.md5)))
      && (f.Overrun? ==> Ended(s, Derailed, claimed + [chunk], sent + PrintField(chunk), file,
                               SetStatus(found, chunk, Download, None)))
  {
    var f := Fetched(arrivals, was);
    var t1, t2 := SetStatus(found, chunk, Download, None), SetStatus(found2, chunk, Error, Some(f.md5));
    TurnFailed(s, claimed, sent, arrivals, was, file, t, found, chunk, found2);
    EndedBadly(s, Failed, claimed + [chunk], sent + PrintField(chunk), file, t2);
    if f.Overrun? {
      EndedBadly(s, Derailed, claimed + [chunk], sent + PrintField(chunk), file, t1);
    }
  }

  lemma GoingStart(s: Session)
    requires Describes(s.h, s.c) && |s.table| == A.ChunkCount(s.c)
    ensures Going(s, [], s.hello, s.arrivals, s.file, s.table)
  {
    forall ns: seq<nat> | Serves(s, ns)
      ensures Along(s.c, ns, 0, s.arrivals, Whole(s, ns)) && Received(s, ns, 0, s.file, s.table)
    {
      AlongStart(s.c, ns, s.arrivals, s.file);
    }
  }

  ghost function StartedBy(c: A.Config, h: Header, sent: bytes, arrivals: seq<Arrival>, file: bytes,
                           control: bytes): Session
    requires Holds(h, control)
  {
    Session(c, h, sent + [DOWNLOAD_CHUNK] + WireHeaderThen(h, []), arrivals, file, TableIn(h, control))
  }

  // ---- the rounds ----------------------------------------------------------

  // The replies to these claims are in the local file, if they are answered.
  ghost predicate FileReady(s: Session, claimed: seq<nat>, file: bytes) {
    forall ns: seq<nat> :: claimed <= ns && Serves(s, ns) ==> InPlace(s.c, s.file, ns, |claimed|, file)
  }

  ghost function ReadyFiles(s: Session, claimed: seq<nat>): iset<bytes> {
    iset file: bytes | FileReady(s, claimed, file)
  }

  // One round of a download worker. When it claims a chunk it has asked for those before it, and
  // when it completes the chunk it has asked for that too; when it marks it finished the reply is
  // in the local file; when it gives it up the local file has not changed.
  ghost predicate DownloadRound(others: Others, s: Session, k: nat, r: Round) {
    && RoundIs(others, s.h, k, r, Download)
    && r.claim.sent == s.hello + RequestsOf(r.done) && r.finish.sent == s.hello + RequestsOf(r.done + [r.chunk])
    && (if r.ok then r.finish.file in ReadyFiles(s, r.done + [r.chunk]) else r.finish.file == r.claim.file)
  }

  ghost function RoundTest(others: Others, s: Session): (nat, Round) -> bool {
    (k: nat, r: Round) => DownloadRound(others, s, k, r)
  }

  // All of what a worker's rounds do: to the shared file, for the others to find, on its
  // connection and to its local file. All are finished but the last of a worker that failed; a
  // derailed worker's last has no end.
  ghost predicate Handed(others: Others, s: Session, how: Ending, claimed: seq<nat>, rounds: seq<Round>, f0: bytes) {
    && Chained(if how.Derailed? then claimed[..Done(how, claimed)] else claimed, rounds, RoundTest(others, s), f0)
    && forall k :: 0 <= k < |rounds| ==> (rounds[k].ok <==> k < Done(how, claimed))
  }

  ghost predicate AllFinished(others: Others, s: Session, claimed: seq<nat>, rounds: seq<Round>, f0: bytes) {
    Chained(claimed, rounds, RoundTest(others, s), f0) && forall k :: 0 <= k < |rounds| ==> rounds[k].ok
  }

  // What is in the file in the end: what the last round left, and what the others have made of
  // it if the worker looked once more and found nothing.
  ghost predicate LeftAtEnd(others: Others, how: Ending, rounds: seq<Round>, f0: bytes, control: bytes) {
    var left := LeftBefore(rounds, f0, |rounds|);
    && (how.Emptied? ==> control == AtClaim(others, |rounds|, left))
    && (how.Flagged? || how.Failed? ==> control == left)
  }

  lemma HandedStep(others: Others, s: Session, claimed: seq<nat>, rounds: seq<Round>, f0: bytes, r: Round)
    requires AllFinished(others, s, claimed, rounds, f0)
    requires RoundTest(others, s)(|rounds|, r) && r.done == claimed
    requires r.claim.given == LeftBefore(rounds, f0, |rounds|)
    ensures r.ok ==>
      && AllFinished(others, s, claimed + [r.chunk], rounds + [r], f0)
      && Handed(others, s, Flagged, claimed + [r.chunk], rounds + [r], f0)
    ensures !r.ok ==> Handed(others, s, Failed, claimed + [r.chunk], rounds + [r], f0)
    ensures LeftBefore(rounds + [r], f0, |rounds| + 1) == r.finish.left
  {
    ChainedStep(claimed, rounds, RoundTest(others, s), f0, r);
  }

  lemma HandedEnd(others: Others, s: Session, claimed: seq<nat>, rounds: seq<Round>, f0: bytes, chunk: nat)
    requires AllFinished(others, s, claimed, rounds, f0)
    ensures Handed(others, s, Emptied, claimed, rounds, f0)
    ensures Handed(others, s, Derailed, claimed + [chunk], rounds, f0)
  {
    assert (claimed + [chunk])[..|claimed|] == claimed;
  }

  lemma ReadyWhenGoing(s: Session, claimed: seq<nat>, sent: bytes, arrivals: seq<Arrival>, file: bytes, t: Table)
    requires Going(s, claimed, sent, arrivals, file, t)
    ensures file in ReadyFiles(s, claimed) && sent == s.hello + RequestsOf(claimed)
  {
    forall ns: seq<nat> | claimed <= ns && Serves(s, ns)
      ensures InPlace(s.c, s.file, ns, |claimed|, file)
    {
      assert Received(s, ns, |claimed|, file, t);
    }
  }

  // What the two critical sections make of everything, whichever way the fetch goes.
  ghost predicate Outcomes(others: Others, s: Session, claimed: seq<nat>, sent: bytes, file: bytes, k: nat,
                           claim: Section, chunk: nat, t: Table, f: Fetch) {
    var found, out, all := AtFinish(others, k, chunk, claim.left), sent + PrintField(chunk), claimed + [chunk];
    && Holds(s.h, found) && Holds(s.h, claim.left) && chunk < |TableIn(s.h, found)|
    && sent == s.hello + RequestsOf(claimed) && out == s.hello + RequestsOf(all)
    && (f.Got? ==>
          var t2 := SetStatus(TableIn(s.h, found), chunk, Ok, Some(f.md5));
          var file2 := WriteAt(file, Place(chunk, s.c.chunkSize), f.data);
          && Going(s, all, out, f.rest, file2, t2) && |NotOk(t2)| < |NotOk(t)| && file2 in ReadyFiles(s, all))
    && (!f.Got? ==> Ended(s, Failed, all, out, file, SetStatus(TableIn(s.h, found), chunk, Error, Some(f.md5))))
    && (f.Overrun? ==> Ended(s, Derailed, all, out, file, TableIn(s.h, claim.left)))
  }

  lemma RoundValues(others: Others, s: Session, claimed: seq<nat>, sent: bytes, arrivals: seq<Arrival>, was: Digest,
                    file: bytes, k: nat, claim: Section, chunk: nat, t: Table)
    requires Rely(others, s.h) && Holds(s.h, claim.given) && t == TableIn(s.h, claim.given)
    requires Going(s, claimed, sent, arrivals, file, t) && ClaimIs(others, s.h, k, claim, chunk, Download)
    ensures Outcomes(others, s, claimed, sent, file, k, claim, chunk, t, Fetched(arrivals, was))
  {
    var found := TableIn(s.h, AtClaim(others, k, claim.given));
    var found2 := TableIn(s.h, AtFinish(others, k, chunk, claim.left));
    var f := Fetched(arrivals, was);
    OneMoreRequest(s.hello, claimed, chunk);
    if f.Got? {
      TurnArrived(s, claimed, sent, arrivals, was, file, t, found, chunk, found2);
      ReadyWhenGoing(s, claimed + [chunk], sent + PrintField(chunk), f.rest,
                     WriteAt(file, Place(chunk, s.c.chunkSize), f.data), SetStatus(found2, chunk, Ok, Some(f.md5)));
    } else {
      TurnEnds(s, claimed, sent, arrivals, was, file, t, found, chunk, found2);
    }
  }

  // The loop before its turn number |rounds|, or after its last.
  datatype Point = Point(again: bool, how: Ending, claimed: seq<nat>, rounds: seq<Round>, sent: bytes,
                         arrivals: seq<Arrival>, file: bytes, control: bytes)

  // What it keeps: on its connection, in its file, and for the others.
  ghost predicate Progress(others: Others, s: Session, f0: bytes, x: Point) {
    && Holds(s.h, x.control)
    && (if x.again then
          && Going(s, x.claimed, x.sent, x.arrivals, x.file, TableIn(s.h, x.control))
          && AllFinished(others, s, x.claimed, x.rounds, f0) && x.control == LeftBefore(x.rounds, f0, |x.rounds|)
        else
          && Ended(s, x.how, x.claimed, x.sent, x.file, TableIn(s.h, x.control))
          && Handed(others, s, x.how, x.claimed, x.rounds, f0) && LeftAtEnd(others, x.how, x.rounds, f0, x.control))
  }

  ghost function Points(others: Others, s: Session, f0: bytes): iset<Point> {
    iset x: Point | Progress(others, s, f0, x)
  }

  // A round done, whichever way it went.
  lemma RoundOk(others: Others, s: Session, f0: bytes, x: Point, r: Round, y: Point)
    requires x in Points(others, s, f0) && x.again && RoundTest(others, s)(|x.rounds|, r) && r.ok
    requires r.done == x.claimed && r.claim.given == x.control && y.control == r.finish.left && Holds(s.h, y.control)
    requires y.claimed == x.claimed + [r.chunk] && y.rounds == x.rounds + [r] && (y.again || y.how.Flagged?)
    requires y in GoingPoints(s)
    ensures y in Points(others, s, f0)
  {
    HandedStep(others, s, x.claimed, x.rounds, f0, r);
    EndedWell(s, Flagged, y.claimed, y.sent, y.arrivals, y.file, TableIn(s.h, y.control));
  }

  lemma RoundFailed(others: Others, s: Session, f0: bytes, x: Point, r: Round, y: Point)
    requires x in Points(others, s, f0) && x.again && RoundTest(others, s)(|x.rounds|, r) && !r.ok
    requires r.done == x.claimed && r.claim.given == x.control && y.control == r.finish.left && Holds(s.h, y.control)
    requires y.claimed == x.claimed + [r.chunk] && y.rounds == x.rounds + [r] && !y.again && y.how.Failed?
    requires y in EndedPoints(s)
    ensures y in Points(others, s, f0)
  {
    HandedStep(others, s, x.claimed, x.rounds, f0, r);
  }

  ghost function GoingPoints(s: Session): iset<Point> {
    iset y: Point | Holds(s.h, y.control) && Going(s, y.claimed, y.sent, y.arrivals, y.file, TableIn(s.h, y.control))
  }

  ghost function EndedPoints(s: Session): iset<Point> {
    iset y: Point | Holds(s.h, y.control) && Ended(s, y.how, y.claimed, y.sent, y.file, TableIn(s.h, y.control))
  }

  // The last look, which finds nothing.
  lemma NothingLeft(others: Others, s: Session, f0: bytes, x: Point, control: bytes)
    requires x in Points(others, s, f0) && x.again && Rely(others, s.h)
    requires control == AtClaim(others, |x.rounds|, x.control) && Holds(s.h, control)
    requires NextPending(TableIn(s.h, control)) == -1
    ensures x.(again := false, how := Emptied, control := control) in Points(others, s, f0)
  {
    StillGoing(s, x.claimed, x.sent, x.arrivals, x.file, TableIn(s.h, x.control), TableIn(s.h, control));
    EndedWell(s, Emptied, x.claimed, x.sent, x.arrivals, x.file, TableIn(s.h, control));
    HandedEnd(others, s, x.claimed, x.rounds, f0, 0);
  }

  // A turn as it happens, from x to y: the claim, with nothing found or chunk; the fetch, which
  // ends like f on a connection of which nothing is known; the completion.
  ghost predicate Turned(others: Others, s: Session, x: Point, chunk: int, claim: Section, f: Fetch, y: Point) {
    if chunk == -1 then
      && y == x.(again := false, how := Emptied, control := AtClaim(others, |x.rounds|, x.control))
      && Holds(s.h, y.control) && NextPending(TableIn(s.h, y.control)) == -1
    else
      && chunk >= 0 && claim == Section(x.control, claim.left, x.sent, x.file)
      && ClaimIs(others, s.h, |x.rounds|, claim, chunk, Download)
      && y.sent == x.sent + PrintField(chunk) && y.arrivals == f.rest && y.file == FileAfter(x, chunk, f, s)
      && y.claimed == x.claimed + [ChunkNo(chunk)]
      && (if f.Overrun? then
            y.rounds == x.rounds && y.control == claim.left && !y.again && y.how == Derailed
          else
            && y.rounds == x.rounds + [TheRound(x, claim, chunk, f, y.control, s)]
            && Completed(others, s, |x.rounds|, chunk, claim, f, y.control)
            && (y.again ==> f.Got?) && (!y.again ==> y.how == if f.Got? then Flagged else Failed))
  }

  ghost function Turns(others: Others, s: Session, x: Point, chunk: int, claim: Section, f: Fetch): iset<Point> {
    iset y: Point | Turned(others, s, x, chunk, claim, f, y)
  }

  ghost function ChunkNo(chunk: int): nat
    requires chunk >= 0
  {
    chunk
  }

  ghost function FileAfter(x: Point, chunk: nat, f: Fetch, s: Session): bytes {
    if f.Got? then WriteAt(x.file, Place(chunk, s.c.chunkSize), f.data) else x.file
  }

  ghost function TheRound(x: Point, claim: Section, chunk: nat, f: Fetch, left: bytes, s: Session): Round {
    Round(x.claimed, chunk, claim,
          Section(claim.left, left, x.sent + PrintField(chunk), FileAfter(x, chunk, f, s)), f.Got?, f.md5)
  }

  ghost predicate Completed(others: Others, s: Session, k: nat, chunk: nat, claim: Section, f: Fetch, left: bytes) {
    var found := AtFinish(others, k, chunk, claim.left);
    && Holds(s.h, found) && Holds(s.h, left) && chunk < |TableIn(s.h, found)|
    && TableIn(s.h, left) == SetStatus(TableIn(s.h, found), chunk, if f.Got? then Ok else Error, Some(f.md5))
  }

  ghost function After(x: Point, claim: Section, chunk: nat, f: Fetch, left: bytes, s: Session, again: bool): Point {
    Point(again, if f.Got? then Flagged else Failed, x.claimed + [chunk],
          x.rounds + [TheRound(x, claim, chunk, f, left, s)],
          x.sent + PrintField(chunk), f.rest, FileAfter(x, chunk, f, s), left)
  }

  lemma AfterIsTurn(others: Others, s: Session, x: Point, chunk: nat, claim: Section, f: Fetch, left: bytes,
                    again: bool)
    requires claim == Section(x.control, claim.left, x.sent, x.file)
    requires ClaimIs(others, s.h, |x.rounds|, claim, chunk, Download)
    requires Completed(others, s, |x.rounds|, chunk, claim, f, left)
    requires !f.Overrun? && (again ==> f.Got?)
    ensures After(x, claim, chunk, f, left, s, again) in Turns(others, s, x, chunk, claim, f)
  {
  }

  lemma DerailedIsTurn(others: Others, s: Session, x: Point, chunk: nat, claim: Section, f: Fetch)
    requires claim == Section(x.control, claim.left, x.sent, x.file)
    requires ClaimIs(others, s.h, |x.rounds|, claim, chunk, Download) && f.Overrun?
    ensures Point(false, Derailed, x.claimed + [chunk], x.rounds, x.sent + PrintField(chunk), f.rest, x.file,
                  claim.left)
      in Turns(others, s, x, chunk, claim, f)
  {
  }

  // Fetch the chunk just claimed, complete it, and test whether to go on.
  method Transfer(sd: Socket, sem: Semaphore, p: nat, metadata: Metadata, control: Fd, local: Fd,
                  others: Others, turn: nat, flag: int, chunk: nat, was: Digest,
                  ghost s: Session, ghost x: Point, ghost claim: Section)
    returns (again: bool, how: Ending, md5: Digest, ghost y: Point)
    requires WellFormed(sd.incoming) && sem.Valid() && sem.holder == None && control != local
    requires Readers(others, s.h) && Holds(s.h, control.contents) && metadata.chunkSize == s.c.chunkSize
    requires |x.rounds| == turn && x.sent == sd.sent && x.arrivals == sd.incoming && x.file == local.contents
    requires claim == Section(x.control, control.contents, x.sent, x.file) && chunk < s.h.chunks
    requires ClaimIs(others, s.h, turn, claim, chunk, Download)
    modifies sd, sem, metadata, control, local
    ensures WellFormed(sd.incoming) && sem.Valid() && sem.holder == None && Holds(s.h, control.contents)
    ensures y in Turns(others, s, x, chunk, claim, Fetched(x.arrivals, was)) && y.again == again && y.how == how
    ensures y.sent == sd.sent && y.arrivals == sd.incoming && y.file == local.contents && y.control == control.contents
    ensures again ==> flag == 0
    ensures !again && how.Flagged? ==> flag != 0
  {
    ghost var f := Fetched(x.arrivals, was);
    var r;
    r, md5 := FetchChunk(sd, chunk, metadata.chunkSize, local, was);
    if r == Overran {
      DerailedIsTurn(others, s, x, chunk, claim, f);
      y := Point(false, Derailed, x.claimed + [chunk], x.rounds, sd.sent, sd.incoming, local.contents,
                 control.contents);
      return false, Derailed, md5, y;
    }
    var chunkNumber := CompleteChunk(sem, p, metadata, control, others, turn, chunk, r == SockError, md5, s.h);
    again := chunkNumber != -1 && flag == 0;
    how := if r == Arrived then Flagged else Failed;
    AfterIsTurn(others, s, x, chunk, claim, f, control.contents, again);
    y := After(x, claim, chunk, f, control.contents, s, again);
  }

  // One turn of the loop and the test at its end: claim a chunk, fetch it, complete it.
  method DownloadTurn(sd: Socket, sem: Semaphore, p: nat, metadata: Metadata, control: Fd, local: Fd,
                      others: Others, turn: nat, kill: nat -> int, was: Digest, ghost s: Session, ghost x: Point)
    returns (again: bool, how: Ending, md5: Digest, ghost chunk: int, ghost claim: Section, ghost y: Point)
    requires WellFormed(sd.incoming) && sem.Valid() && sem.holder == None && control != local
    requires Readers(others, s.h) && Holds(s.h, control.contents) && s.h.chunkSize == s.c.chunkSize
    requires |x.rounds| == turn && x.sent == sd.sent && x.arrivals == sd.incoming
    requires x.file == local.contents && x.control == control.contents
    requires Heeding(kill, true, false, |x.claimed|, turn)
    modifies sd, sem, metadata, control, local
    ensures WellFormed(sd.incoming) && sem.Valid() && sem.holder == None && Holds(s.h, control.contents)
    ensures y in Turns(others, s, x, chunk, claim, Fetched(x.arrivals, was)) && y.again == again && y.how == how
    ensures y.sent == sd.sent && y.arrivals == sd.incoming && y.file == local.contents && y.control == control.contents
    ensures Heeding(kill, again, how.Flagged?, |y.claimed|, turn + 1)
    ensures again ==> chunk >= 0 && |y.rounds| == turn + 1
  {
    claim := Section([], [], [], []);
    var number := ClaimChunk(sem, p, metadata, control, others, turn, Download, s.h);
    chunk := number;
    if number == -1 {
      return false, Emptied, was, -1, claim, x.(again := false, how := Emptied, control := control.contents);
    }
    claim := Section(x.control, control.contents, x.sent, x.file);
    again, how, md5, y :=
      Transfer(sd, sem, p, metadata, control, local, others, turn, kill(turn), number, was, s, x, claim);
  }

  // What the loop keeps survives a turn, and a turn after which it goes on has finished a chunk.
  lemma TurnKeeps(others: Others, s: Session, f0: bytes, x: Point, chunk: int, claim: Section, was: Digest, y: Point)
    requires x in Points(others, s, f0) && x.again && Rely(others, s.h)
    requires y in Turns(others, s, x, chunk, claim, Fetched(x.arrivals, was))
    ensures y in Points(others, s, f0) && Holds(s.h, x.control) && Holds(s.h, y.control)
    ensures y.again ==> |NotOk(TableIn(s.h, y.control))| < |NotOk(TableIn(s.h, x.control))|
  {
    if chunk == -1 {
      NothingLeft(others, s, f0, x, y.control);
    } else {
      ClaimKeeps(others, s, f0, x, claim, chunk, was);
      RoundKeeps(others, s, f0, x, chunk, claim, Fetched(x.arrivals, was), y);
    }
  }

  // The values behind a turn, taken out of what the loop keeps.
  lemma ClaimKeeps(others: Others, s: Session, f0: bytes, x: Point, claim: Section, chunk: nat, was: Digest)
    requires x in Points(others, s, f0) && x.again && Rely(others, s.h)
    requires claim == Section(x.control, claim.left, x.sent, x.file)
    requires ClaimIs(others, s.h, |x.rounds|, claim, chunk, Download)
    ensures Holds(s.h, x.control)
    ensures Outcomes(others, s, x.claimed, x.sent, x.file, |x.rounds|, claim, chunk, TableIn(s.h, x.control),
                     Fetched(x.arrivals, was))
  {
    RoundValues(others, s, x.claimed, x.sent, x.arrivals, was, x.file, |x.rounds|, claim, chunk,
                TableIn(s.h, x.control));
  }

  lemma RoundKeeps(others: Others, s: Session, f0: bytes, x: Point, chunk: nat, claim: Section, f: Fetch, y: Point)
    requires x in Points(others, s, f0) && x.again && Holds(s.h, x.control)
    requires y in Turns(others, s, x, chunk, claim, f)
    requires Outcomes(others, s, x.claimed, x.sent, x.file, |x.rounds|, claim, chunk, TableIn(s.h, x.control), f)
    ensures y in Points(others, s, f0) && Holds(s.h, y.control)
    ensures y.again ==> |NotOk(TableIn(s.h, y.control))| < |NotOk(TableIn(s.h, x.control))|
  {
    if f.Overrun? {
      HandedEnd(others, s, x.claimed, x.rounds, f0, chunk);
    } else {
      TurnIsRound(others, s, x, chunk, claim, f, y);
      OutcomeAt(others, s, x, chunk, claim, f, y);
      if f.Got? {
        RoundOk(others, s, f0, x, TheRound(x, claim, chunk, f, y.control, s), y);
      } else {
        RoundFailed(others, s, f0, x, TheRound(x, claim, chunk, f, y.control, s), y);
      }
    }
  }

  lemma TurnIsRound(others: Others, s: Session, x: Point, chunk: nat, claim: Section, f: Fetch, y: Point)
    requires y in Turns(others, s, x, chunk, claim, f) && !f.Overrun? && Holds(s.h, x.control)
    requires Outcomes(others, s, x.claimed, x.sent, x.file, |x.rounds|, claim, chunk, TableIn(s.h, x.control), f)
    ensures RoundTest(others, s)(|x.rounds|, TheRound(x, claim, chunk, f, y.control, s))
  {
    assert Completed(others, s, |x.rounds|, chunk, claim, f, y.control);
    RoundMade(others, s, |x.rounds|, TheRound(x, claim, chunk, f, y.control, s));
  }

  lemma OutcomeAt(others: Others, s: Session, x: Point, chunk: nat, claim: Section, f: Fetch, y: Point)
    requires y in Turns(others, s, x, chunk, claim, f) && !f.Overrun? && Holds(s.h, x.control)
    requires Outcomes(others, s, x.claimed, x.sent, x.file, |x.rounds|, claim, chunk, TableIn(s.h, x.control), f)
    ensures Holds(s.h, y.control)
    ensures f.Got? ==> y in GoingPoints(s) && |NotOk(TableIn(s.h, y.control))| < |NotOk(TableIn(s.h, x.control))|
    ensures !f.Got? ==> y in EndedPoints(s)
  {
    assert Completed(others, s, |x.rounds|, chunk, claim, f, y.control);
  }

  lemma RoundMade(others: Others, s: Session, k: nat, r: Round)
    requires ClaimIs(others, s.h, k, r.claim, r.chunk, Download) && r.finish.given == r.claim.left
    requires var found := AtFinish(others, k, r.chunk, r.claim.left);
      && Holds(s.h, found) && Holds(s.h, r.finish.left) && r.chunk < |TableIn(s.h, found)|
      && TableIn(s.h, r.finish.left) ==
           SetStatus(TableIn(s.h, found), r.chunk, if r.ok then Ok else Error, Some(r.md5))
    requires r.claim.sent == s.hello + RequestsOf(r.done)
    requires r.finish.sent == s.hello + RequestsOf(r.done + [r.chunk])
    requires if r.ok then r.finish.file in ReadyFiles(s, r.done + [r.chunk]) else r.finish.file == r.claim.file
    ensures RoundTest(others, s)(k, r)
  {
    MakeRound(others, s.h, k, r, Download);
  }

  // DownloadFileFromServer, one worker. Its rounds say all that it does to the shared file and
  // when.
  method DownloadFileFromServer(sd: Socket, sem: Semaphore, p: nat, metadata: Metadata, control: Fd, local: Fd,
                                others: Others, kill: nat -> int, ghost c: A.Config, ghost h: Header)
    returns (how: Ending, ghost claimed: seq<nat>, ghost rounds: seq<Round>)
    requires WellFormed(sd.incoming) && sem.Valid() && sem.holder == None && control != local
    requires Describes(h, c) && Rely(others, h) && Holds(h, control.contents)
    modifies sd, sem, metadata, control, local
    ensures sem.Valid() && sem.holder == None && Holds(h, control.contents)
    ensures var s := StartedBy(c, h, old(sd.sent), old(sd.incoming), old(local.contents), old(control.contents));
      && Ended(s, how, claimed, sd.sent, local.contents, TableIn(h, control.contents))
      && Handed(others, s, how, claimed, rounds, old(control.contents))
    ensures LeftAtEnd(others, how, rounds, old(control.contents), control.contents)
    ensures Heeds(kill, how.Flagged?, |claimed|)
  {
    ghost var s := StartedBy(c, h, sd.sent, sd.incoming, local.contents, control.contents);
    ghost var f0 := control.contents;
    var md5 := Greet(sd, metadata, control, h);
    GoingStart(s);
    how := Emptied;
    ghost var x := Point(true, how, [], [], sd.sent, sd.incoming, local.contents, f0);
    var turn, again := 0, true;
    while again
      invariant WellFormed(sd.incoming) && sem.Valid() && sem.holder == None && Holds(h, control.contents)
      invariant x in Points(others, s, f0) && x.again == again && x.how == how && (again ==> |x.rounds| == turn)
      invariant x.sent == sd.sent && x.file == local.contents && x.control == control.contents
      invariant x.arrivals == sd.incoming
      invariant Heeding(kill, again, how.Flagged?, |x.claimed|, turn)
      decreases again, |NotOk(TableIn(h, control.contents))|
    {
      ghost var was, before, chunk, claim := md5, x, *, *;
      again, how, md5, chunk, claim, x :=
        DownloadTurn(sd, sem, p, metadata, control, local, others, turn, kill, md5, s, x);
      TurnKeeps(others, s, f0, before, chunk, claim, was, x);
      turn := turn + 1;
    }
    claimed, rounds := x.claimed, x.rounds;
  }

  // Command and header, and rcv_md5sum, which starts out with no meaning.
  method Greet(sd: Socket, metadata: Metadata, control: Fd, ghost h: Header) returns (md5: Digest)
    requires Holds(h, control.contents)
    modifies sd`sent, metadata, control`pos
    ensures sd.sent == old(sd.sent) + [DOWNLOAD_CHUNK] + WireHeaderThen(h, [])
  {
    sd.Write([DOWNLOAD_CHUNK]);
    Shown(h, control.contents);
    var ok := metadata.LoadMetadata(control);
    metadata.WriteMetadataHeader(sd);
    md5 := Zeros(16);
  }
}
