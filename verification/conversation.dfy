/** A worker and its server process together. Each end reads what the other wrote, in whatever
    pieces: that is a condition on the two arrival lists and the two streams, wherever the pieces
    and the turns of the two processes fall. */
module Conversation {
  import opened Bytes
  import opened ChunkLayout
  import opened ChunkTable
  import opened MetadataCodec
  import opened MetadataObject
  import opened SemaphoreLock
  import opened Sockets
  import opened Wire
  import opened Server
  import opened Client
  import opened CriticalSections
  import D = DownloadLoop
  import U = UploadLoop
  import A = AtomicDownload

  // The reader's arrivals carry this stream, or the beginning of it.
  ghost predicate Carries(arrivals: seq<Arrival>, stream: bytes) {
    Clean(arrivals) && Flat(arrivals) == stream
  }

  ghost predicate CarriesPart(arrivals: seq<Arrival>, stream: bytes) {
    Clean(arrivals) && Flat(arrivals) <= stream
  }

  // The first connection of a download. If both ends get all that the other writes, in whatever
  // pieces: when the server has the file, the client's metadata file describes it exactly, with
  // nothing done yet, so that the download can begin; when it has not, the client learns that
  // and writes nothing.
  method Describe(sd: Socket, far: Socket, path: bytes, size: nat, control: Fd, use: byte,
                  target: Fd, world: World)
    returns (found: bool)
    requires ValidWorld(world) && WellFormed(sd.incoming) && WellFormed(far.incoming)
    requires sd != far && sd.sent == far.sent == [] && control != target
    requires IsInt64(size) && ValidPath(path)
    requires world.files(path).Some? ==>
      Chunks(|world.files(path).value|, if size == 0 then 1048576 else size) < MAX_TABLE
    modifies sd, far, control, target
    ensures Carries(old(far.incoming), sd.sent) ==>
      far.sent == MetaReply(world, size, path) && target.contents == old(target.contents)
    ensures Carries(old(far.incoming), sd.sent) && Carries(old(sd.incoming), far.sent) ==>
      && found == world.files(path).Some?
      && (found ==>
            var src, cs := world.files(path).value, if size == 0 then 1048576 else size;
            && Decode(control.contents).Loaded?
            && var Loaded(h, t) := Decode(control.contents);
            && h.fileSize == |src| && h.chunkSize == cs && h.chunks == Chunks(|src|, cs)
            && h.digest == world.md5(src) && CString(h.fileFull) == path && h.inUse == use
            && t == FreshTable(|src|, cs, Chunks(|src|, cs))
            && (cs <= MAX_CHUNK_SIZE ==> CanServe(h, [], world) && ServedBy(h, world) == A.Config(src, cs, world.md5)))
      && (!found ==> control.contents == old(control.contents))
  {
    ghost var h := if world.files(path).Some?
      then Described(world, size, path)
      else Header(Zeros(FNAME_SIZE), 0, 1, 0, ZERO_DIGEST, 0);
    found := DownloadMetadataFromServer(sd, path, size, control, use, h);
    CStringIs(path, world.junk[|path| + 1..]);
    AskScript(world, size, path, target.contents);
    Core(far, target, world, [Ask(size, path)]);
  }

  lemma AskScript(world: World, size: nat, path: bytes, target: bytes)
    requires ValidWorld(world) && IsInt64(size) && ValidPath(path)
    ensures var scripts := [Ask(size, path)];
      && ScriptsThen(scripts) == ScriptThen(Ask(size, path), []) && Doable(scripts, CHUNK_SIZE, world)
      && Written(scripts, CHUNK_SIZE, world) == MetaReply(world, size, path)
      && TargetAfter(scripts, CHUNK_SIZE, target) == target
  {
    var r := MetaReply(world, size, path);
    assert [Ask(size, path)][1..] == [];
    assert Written([], Effective(size), world) == [] && r + [] == r;
  }

  // A download connection. If all that the worker writes reaches the server, the server writes
  // exactly the replies to the chunks the worker claimed. If of these all reaches the worker
  // too, it does not fail, and every chunk it claimed is finished, with the server's bytes in
  // the local file and their digest in the array; if part of them, then the same of the replies
  // that came whole, and it fails exactly if one is missing.
  method Download(sd: Socket, far: Socket, sem: Semaphore, p: nat, metadata: Metadata, control: Fd, local: Fd,
                  others: Others, kill: nat -> int, target: Fd, world: World, ghost h: Header)
    returns (how: D.Ending, ghost claimed: seq<nat>, ghost rounds: seq<Round>)
    requires ValidWorld(world) && WellFormed(sd.incoming) && WellFormed(far.incoming)
    requires sd != far && sd.sent == far.sent == []
    requires sem.Valid() && sem.holder == None
    requires control != local && target !in {control, local}
    requires CanServe(h, [], world) && Rely(others, h) && Holds(h, control.contents)
    modifies sd, far, sem, metadata, control, local, target
    ensures Holds(h, control.contents)
    ensures var s := D.StartedBy(ServedBy(h, world), h, [], old(sd.incoming), old(local.contents),
                                 old(control.contents));
      D.Handed(others, s, how, claimed, rounds, old(control.contents))
    ensures D.LeftAtEnd(others, how, rounds, old(control.contents), control.contents)
    ensures var c := ServedBy(h, world);
      && InFile(c, claimed)
      && (Carries(old(far.incoming), sd.sent) ==> far.sent == RepliesOf(c, claimed))
      && (Carries(old(far.incoming), sd.sent) && Carries(old(sd.incoming), far.sent) ==>
            && (how.Emptied? || how.Flagged?)
            && InPlace(c, old(local.contents), claimed, |claimed|, local.contents)
            && D.Marked(c, claimed, |claimed|, TableIn(h, control.contents)))
      && (Carries(old(far.incoming), sd.sent) && CarriesPart(old(sd.incoming), far.sent) ==>
            && (how.Failed? <==> Flat(old(sd.incoming)) != far.sent)
            && InPlace(c, old(local.contents), claimed, D.Done(how, claimed), local.contents)
            && D.Marked(c, claimed, D.Done(how, claimed), TableIn(h, control.contents)))
  {
    ghost var c := ServedBy(h, world);
    ghost var s := D.StartedBy(c, h, sd.sent, sd.incoming, local.contents, control.contents);
    how, claimed, rounds := D.DownloadFileFromServer(sd, sem, p, metadata, control, local, others, kill, c, h);
    RequestStream(h, claimed);
    OneScript(h, claimed, world);
    assert s.hello == [DOWNLOAD_CHUNK] + WireHeaderThen(h, []);
    WorkerEnd(s, how, claimed, sd.sent, local.contents, TableIn(h, control.contents));
    Core(far, target, world, [Requests(h, claimed)]);
  }

  // What the worker has, if these are the replies that it reads, whole or in part.
  lemma WorkerEnd(s: D.Session, how: D.Ending, claimed: seq<nat>, sent: bytes, file: bytes, t: Table)
    requires D.Ended(s, how, claimed, sent, file, t)
    ensures CarriesPart(s.arrivals, RepliesOf(s.c, claimed)) ==>
      && (how.Failed? <==> Flat(s.arrivals) != RepliesOf(s.c, claimed))
      && InPlace(s.c, s.file, claimed, D.Done(how, claimed), file)
      && D.Marked(s.c, claimed, D.Done(how, claimed), t)
    ensures Carries(s.arrivals, RepliesOf(s.c, claimed)) ==>
      (how.Emptied? || how.Flagged?) && D.Done(how, claimed) == |claimed|
  {
    assert CarriesPart(s.arrivals, RepliesOf(s.c, claimed)) ==> D.Serves(s, claimed);
  }

  lemma OneScript(h: Header, ns: seq<nat>, world: World)
    requires ValidWorld(world) && CanServe(h, ns, world)
    ensures Doable([Requests(h, ns)], CHUNK_SIZE, world)
    ensures Written([Requests(h, ns)], CHUNK_SIZE, world) == RepliesOf(ServedBy(h, world), ns)
  {
  }

  // An upload connection. If all that the worker writes reaches the server, with a goodbye or
  // without, the target receives exactly the claimed chunks' records, placed by the chunk size
  // that was announced, and the server writes nothing.
  method Upload(sd: Socket, far: Socket, sem: Semaphore, p: nat, metadata: Metadata, control: Fd, local: Fd,
                others: Others, kill: nat -> int, junk: Digest, u: UploadHeader, target: Fd,
                world: World, ghost h: Header, ghost quiet: nat)
    returns (how: U.Ending, ghost claimed: seq<nat>, ghost rounds: seq<Round>)
    requires ValidWorld(world) && WellFormed(far.incoming) && sd != far && sd.sent == far.sent == []
    requires sem.Valid() && sem.holder == None
    requires control != local && target !in {control, local}
    requires ValidUploadHeader(u) && 0 <= u.chunkSize && h.chunkSize <= MAX_CHUNK_SIZE && h.chunks < MAX_TABLE
    requires U.Fits(h, local.contents) && U.UploadRely(others, h, quiet) && Holds(h, control.contents)
    modifies sd`sent, far, sem, metadata, control, local`pos, target
    ensures local.contents == old(local.contents)
    ensures U.Handed(others, h, ScriptThen(Init(u), []) + [UPLOAD_CHUNK], local.contents, claimed, rounds,
                     old(control.contents))
    ensures forall j :: 0 <= j < |claimed| ==> claimed[j] < Chunks(|local.contents|, h.chunkSize)
    ensures Carries(old(far.incoming), sd.sent) ==>
      && target.contents ==
         Applied(old(target.contents), u.chunkSize, SliceRecords(local.contents, h.chunkSize, claimed))
      && far.sent == []
  {
    how, claimed, rounds := U.UploadConnection(sd, sem, p, metadata, control, local, others, kill, junk, u, h, quiet);
    ghost var recs := SliceRecords(local.contents, h.chunkSize, claimed);
    WholeStream(u, recs, how.Emptied?);
    assert [] + ScriptThen(Init(u), []) == ScriptThen(Init(u), []);
    SliceRecordsValid(local.contents, h.chunkSize, claimed);
    UploadScripts(u, recs, how.Emptied?, world, target.contents);
    Core(far, target, world, [Init(u), Records(recs, how.Emptied?)]);
  }

  lemma SliceRecordsValid(src: bytes, chunkSize: nat, ns: seq<nat>)
    requires 0 < chunkSize <= MAX_CHUNK_SIZE && Chunks(|src|, chunkSize) < MAX_TABLE
    requires forall k :: 0 <= k < |ns| ==> ns[k] < Chunks(|src|, chunkSize)
    ensures ValidRecords(SliceRecords(src, chunkSize, ns))
  {
  }

  lemma UploadScripts(u: UploadHeader, recs: seq<Record>, bye: bool, world: World, target: bytes)
    requires ValidWorld(world) && ValidUploadHeader(u) && ValidRecords(recs) && 0 <= u.chunkSize
    ensures var scripts := [Init(u), Records(recs, bye)];
      && Doable(scripts, CHUNK_SIZE, world) && Written(scripts, CHUNK_SIZE, world) == []
      && TargetAfter(scripts, CHUNK_SIZE, target) == Applied(target, u.chunkSize, recs)
  {
    var last := [Records(recs, bye)];
    assert [Init(u), Records(recs, bye)][1..] == last && last[1..] == [];
    assert Doable([], u.chunkSize, world) && Written([], u.chunkSize, world) == [];
    assert TargetAfter([], u.chunkSize, Applied(target, u.chunkSize, recs)) == Applied(target, u.chunkSize, recs);
    assert Doable(last, u.chunkSize, world) && Written(last, u.chunkSize, world) == [];
    assert TargetAfter(last, u.chunkSize, target) == Applied(target, u.chunkSize, recs);
  }
}
