/** Histories: download runs that finish, are interrupted or crash, and the repairs that
    mhstatus makes between them. */
module DownloadSessions {
  import opened Bytes
  import opened ChunkLayout
  import opened ChunkTable
  import opened DownloadWorkers
  import opened DownloadTheorems
  import opened DownloadResume
  import opened DownloadInterrupt
  import opened MetadataObject
  import opened NumberField
  import A = AtomicDownload

  const NPROC: nat := 10

  // The in-use byte and the chunk array of the metadata file, and the local data file.
  datatype Disk = Disk(inUse: byte, table: Table, file: bytes)

  // How a run of the client ends: the parent waits for its workers and clears the mark; the
  // parent gets control-C, waits (or kills them) and runs the forced reset; or the parent is
  // gone and the mark stays.
  datatype Ending = Finished | Interrupted | Crashed

  datatype Act =
    | Session(n: nat, es: seq<Event>, ending: Ending)  // mhclient download
    | Recover(force: bool)  // mhstatus --recover
    | Reset(force: bool)    // mhstatus --reset
    | Check                 // mhstatus --check

  ghost predicate Possible(c: Config, d: Disk, act: Act) {
    match act
    case Session(n, es, ending) =>
      n <= NPROC ==>
        && ValidRun(c, Start(d.table, d.file, n), es)
        && var s := RunOf(c, Start(d.table, d.file, n), es);
        && AllGone(s)
        && (ending == Finished ==> s.kill == 0)
        && (ending == Interrupted ==> s.kill > 0)
    case Check => SizesNonNegative(d.table)
    case _ => true
  }

  ghost function Apply(c: Config, d: Disk, act: Act): Disk
    requires Possible(c, d, act)
  {
    match act
    case Session(n, es, ending) =>
      if n > NPROC then d.(inUse := 1)  // marked, then exit(1)
      else
        var s := RunOf(c, Start(d.table, d.file, n), es);
        (match ending
         case Finished => Disk(0, s.disk, s.file)
         case Interrupted => Disk(0, RecoverTable(s.disk), s.file)
         case Crashed => Disk(1, s.disk, s.file))
    case Recover(force) =>
      if d.inUse != 0 && !force then d else d.(inUse := 0, table := RecoverTable(d.table))
    case Reset(force) =>
      if d.inUse != 0 && !force then d else d.(inUse := 0, table := ClearTable(d.table))
    case Check =>
      if d.inUse != 0 then d else d.(table := CheckedTable(d.table, d.file, c.md5))
  }

  ghost predicate ValidHistory(c: Config, d: Disk, acts: seq<Act>)
    decreases |acts|, 0
  {
    acts != [] ==>
      && ValidHistory(c, d, acts[..|acts| - 1])
      && Possible(c, After(c, d, acts[..|acts| - 1]), acts[|acts| - 1])
  }

  ghost function After(c: Config, d: Disk, acts: seq<Act>): Disk
    requires ValidHistory(c, d, acts)
    decreases |acts|, 1
  {
    if acts == [] then d else Apply(c, After(c, d, acts[..|acts| - 1]), acts[|acts| - 1])
  }

  // What DownloadMetadataFromServer leaves: nothing done, a mark that it never sets, and some
  // local file or none.
  function FirstDisk(c: Config, use: byte, file: bytes): Disk
    requires A.ValidConfig(c)
  {
    Disk(use, FreshTable(|c.src|, c.chunkSize, A.ChunkCount(c)), file)
  }

  // ---- the data invariant over every history -------------------------------

  // Ok chunks are good, sizes are those of the layout, and nothing is marked as an upload.
  ghost predicate Sound(c: Config, d: Disk)
    requires A.ValidConfig(c)
  {
    && A.GoodTable(c, d.table, d.file)
    && (forall i :: 0 <= i < |d.table| ==> d.table[i].size == SizeOf(|c.src|, c.chunkSize, i))
    && (forall i :: 0 <= i < |d.table| ==> d.table[i].status != Upload)
  }

  lemma DownloadKeepsSound(c: Config, d: Disk, n: nat, es: seq<Event>)
    requires A.ValidConfig(c) && Sound(c, d) && ValidRun(c, Start(d.table, d.file, n), es)
    ensures var s := RunOf(c, Start(d.table, d.file, n), es);
      Sound(c, Disk(d.inUse, s.disk, s.file))
  {
    Reachable(c, d.table, d.file, n, es);
    var s := RunOf(c, Start(d.table, d.file, n), es);
    assert A.Ownership(d.table, Abs(s));
    forall i | 0 <= i < |s.disk|
      ensures s.disk[i].size == SizeOf(|c.src|, c.chunkSize, i) && s.disk[i].status != Upload
    {
      assert Abs(s).table[i].size == d.table[i].size;
      assert !Claimable(d.table[i]) || Abs(s).table[i].status != Upload;
    }
  }

  lemma RecoverKeepsSound(c: Config, d: Disk, inUse: byte)
    requires A.ValidConfig(c) && Sound(c, d)
    ensures Sound(c, Disk(inUse, RecoverTable(d.table), d.file))
  {
  }

  lemma SoundStep(c: Config, d: Disk, act: Act)
    requires A.ValidConfig(c) && Sound(c, d) && Possible(c, d, act)
    ensures Sound(c, Apply(c, d, act))
  {
    match act
    case Session(n, es, ending) =>
      if n <= NPROC {
        DownloadKeepsSound(c, d, n, es);
        var s := RunOf(c, Start(d.table, d.file, n), es);
        RecoverKeepsSound(c, Disk(d.inUse, s.disk, s.file), 0);
      }
    case Recover(force) => RecoverKeepsSound(c, d, 0);
    case Reset(force) =>
    case Check =>
  }

  // Over every history of runs, failures, deaths, interrupts, crashes and repairs, in any
  // order: a chunk marked Ok holds, at its place in the local file, what the server sends for
  // it, under its true digest; with at most a million chunks that is the source's own chunk.
  lemma {:induction false} HistorySound(c: Config, use: byte, file: bytes, acts: seq<Act>)
    requires A.ValidConfig(c) && ValidHistory(c, FirstDisk(c, use, file), acts)
    ensures Sound(c, After(c, FirstDisk(c, use, file), acts))
    decreases |acts|
  {
    if acts == [] {
      assert FirstDisk(c, use, file).table == FreshTable(|c.src|, c.chunkSize, A.ChunkCount(c));
    } else {
      HistorySound(c, use, file, acts[..|acts| - 1]);
      SoundStep(c, After(c, FirstDisk(c, use, file), acts[..|acts| - 1]), acts[|acts| - 1]);
    }
  }

  lemma OkChunkIsSource(c: Config, use: byte, file: bytes, acts: seq<Act>, i: nat)
    requires A.ValidConfig(c) && ValidHistory(c, FirstDisk(c, use, file), acts)
    requires var d := After(c, FirstDisk(c, use, file), acts); i < |d.table| && d.table[i].status == Ok
    requires i < FIELD_LIMIT
    ensures i < A.ChunkCount(c)
    ensures var d := After(c, FirstDisk(c, use, file), acts);
      && Piece(d.file, |c.src|, c.chunkSize, i) == Slice(c.src, c.chunkSize, i)
      && d.table[i].md5 == c.md5(Slice(c.src, c.chunkSize, i))
  {
    HistorySound(c, use, file, acts);
    A.ReplyLength(c, i);
    assert A.Written(c, After(c, FirstDisk(c, use, file), acts).file, i);
  }

  // After any such history the integrity scan finds nothing to mark.
  lemma CheckFindsNothing(c: Config, use: byte, file: bytes, acts: seq<Act>)
    requires A.ValidConfig(c) && A.ChunkCount(c) <= FIELD_LIMIT
    requires ValidHistory(c, FirstDisk(c, use, file), acts)
    ensures var d := After(c, FirstDisk(c, use, file), acts);
      && SizesNonNegative(d.table)
      && CheckedTable(d.table, d.file, c.md5) == d.table
      && OkInside(d.table, |d.table|, d.file)
  {
    HistorySound(c, use, file, acts);
    var d := After(c, FirstDisk(c, use, file), acts);
    SoundSizes(c, d);
    forall i: nat | i < |d.table|
      ensures CheckedTable(d.table, d.file, c.md5)[i] == d.table[i]
      ensures Inside(d.table, i, d.file)
    {
      StartsAreMultiples(d.table, |c.src|, c.chunkSize, i);
      A.ReplyLength(c, i);
    }
  }

  lemma SoundSizes(c: Config, d: Disk)
    requires A.ValidConfig(c) && Sound(c, d)
    ensures SizesNonNegative(d.table)
  {
    forall k | 0 <= k < |d.table|
      ensures d.table[k].size >= 0
    {
      ChunkBounds(|c.src|, c.chunkSize, k);
    }
  }

  // From every sound disk, with any number of workers, a run can finish undisturbed, be
  // interrupted before it has done anything and come to its end, or crash with all its workers
  // dead at once.
  lemma SessionsHappen(c: Config, d: Disk, n: nat) returns (a: seq<Event>, b: seq<Event>, e: seq<Event>)
    requires A.ValidConfig(c) && Sound(c, d) && n <= NPROC
    ensures Undisturbed(a) && Possible(c, d, Session(n, a, Finished))
    ensures Healthy(b) && Possible(c, d, Session(n, b, Interrupted))
    ensures Possible(c, d, Session(n, e, Crashed)) && forall k :: 0 <= k < |e| ==> e[k].Die?
  {
    var s0 := Start(d.table, d.file, n);
    InvStart(c, d.table, d.file, n);
    A.InvStart(c, d.table, d.file, n);
    RunsToTheEnd(c, d.table, s0);
    a :| a in DownloadTheorems.Endings(c, s0);
    UndisturbedRun(c, s0, a);
    b := InterruptedAtOnce(c, d, n);
    e := AllDie(c, d.table, d.file, n, n);
  }

  lemma InterruptedAtOnce(c: Config, d: Disk, n: nat) returns (b: seq<Event>)
    requires A.ValidConfig(c) && Sound(c, d) && n <= NPROC
    ensures Healthy(b) && Possible(c, d, Session(n, b, Interrupted))
  {
    var s0 := Start(d.table, d.file, n);
    var rest := GracefulEnd(c, d.table, d.file, n, []);
    PrependRun(c, s0, Interrupt, rest);
    FlagRun(c, Step(c, s0, Interrupt), rest);
    b := [Interrupt] + rest;
  }

  lemma {:induction false} AllDie(c: Config, disk: Table, file: bytes, n: nat, k: nat) returns (e: seq<Event>)
    requires A.ValidConfig(c) && |disk| == A.ChunkCount(c) && k <= n
    ensures ValidRun(c, Start(disk, file, n), e) && forall j :: 0 <= j < |e| ==> e[j].Die?
    ensures var s := RunOf(c, Start(disk, file, n), e);
      && |s.workers| == n
      && (forall w :: 0 <= w < k ==> s.workers[w].pc.Killed?)
      && (forall w :: k <= w < n ==> s.workers[w] == Fresh())
  {
    if k == 0 {
      e := [];
    } else {
      var before := AllDie(c, disk, file, n, k - 1);
      e := before + [Die(k - 1, 0)];
      assert e[..|e| - 1] == before;
    }
  }

  // ---- finishing, interrupting, resuming -----------------------------------

  // A finishing run that nothing disturbs, from any sound disk, a crash's included: the mark is
  // cleared, the open chunks are requested once each and finished, those left in transfer stay
  // so, and the source is a prefix of the local file exactly if these were right already.
  lemma FinishedDownload(c: Config, d: Disk, n: nat, es: seq<Event>)
    requires A.ValidConfig(c) && Sound(c, d) && A.ChunkCount(c) <= FIELD_LIMIT
    requires 0 < n <= NPROC && Possible(c, d, Session(n, es, Finished)) && Undisturbed(es)
    ensures var d' := Apply(c, d, Session(n, es, Finished));
      && d'.inUse == 0 && NotOk(d'.table) == InTransit(d.table)
      && (NotOk(d'.table) == {} <==> NoneInHand(d.table))
      && (c.src <= d'.file <==> LeftRight(c, d.table, Padded(d.file, Reach(c, d.file, d.table, |d.table|))))
      && (NoneInHand(d.table) ==> c.src <= d'.file)
    ensures var s := RunOf(c, Start(d.table, d.file, n), es);
      A.NoRepeats(s.log) && forall i: nat :: i in s.log <==> i in NotOk(d.table) - InTransit(d.table)
  {
    Reachable(c, d.table, d.file, n, es);
    StuckMeansGone(c, RunOf(c, Start(d.table, d.file, n), es));
    Complete(c, d.table, d.file, n, es);
    CompleteExactly(c, d.table, d.file, n, es);
  }

  // With more clients than NPROC the parent marks the file and exits, so a run that is meant to
  // finish leaves the mark clear exactly when there are not too many.
  lemma MarkClearedIff(c: Config, d: Disk, n: nat, es: seq<Event>)
    requires Possible(c, d, Session(n, es, Finished))
    ensures Apply(c, d, Session(n, es, Finished)).inUse == 0 <==> n <= 10
    ensures n > 10 ==> Apply(c, d, Session(n, es, Finished)) == d.(inUse := 1)
  {
  }

  // And after that mark nothing but force repairs: recover and reset refuse, whatever the file.
  lemma TooManyClients(c: Config, d: Disk, n: nat, act: Act)
    requires n > NPROC && (act.Recover? || act.Reset?)
    ensures var d' := Apply(c, d, Session(n, [], Finished));
      Apply(c, d', act) == d' <==> !act.force
  {
    var d' := Apply(c, d, Session(n, [], Finished));
    assert d'.inUse == 1;
    assert act.force ==> Apply(c, d', act).inUse == 0;
  }

  // The forced reset after an interrupt, or after any end of a run followed by a forced
  // recover: every chunk is Ok or Pending, the mark is clear, and nothing that was finished
  // is lost or changed.
  lemma ResetKeepsFinished(c: Config, d: Disk, act: Act)
    requires A.ValidConfig(c) && Sound(c, d) && Possible(c, d, act)
    requires act == Recover(true) || (act.Session? && act.n <= NPROC && act.ending == Interrupted)
    ensures var d' := Apply(c, d, act);
      var before := if act.Recover? then d.table else RunOf(c, Start(d.table, d.file, act.n), act.es).disk;
      && d'.inUse == 0 && |d'.table| == |before| == |d.table|
      && NotOk(d'.table) == NotOk(before)
      && (forall i :: 0 <= i < |before| ==>
            && (d'.table[i].status == Ok || d'.table[i].status == Pending)
            && d'.table[i].size == before[i].size && d'.table[i].md5 == before[i].md5)
      && (forall i :: 0 <= i < |d.table| && d.table[i].status == Ok ==> d'.table[i] == d.table[i])
  {
    SoundStep(c, d, act);
    var d' := Apply(c, d, act);
    if act.Session? {
      var s := RunOf(c, Start(d.table, d.file, act.n), act.es);
      DownloadKeepsSound(c, d, act.n, act.es);
      Reachable(c, d.table, d.file, act.n, act.es);
      ResetStatuses(s.disk);
      forall i | 0 <= i < |d.table| && d.table[i].status == Ok
        ensures d'.table[i] == d.table[i]
      {
        assert Abs(s).table[i] == d.table[i];
      }
    } else {
      ResetStatuses(d.table);
    }
  }

  lemma ResetStatuses(t: Table)
    requires forall i :: 0 <= i < |t| ==> t[i].status != Upload
    ensures NotOk(RecoverTable(t)) == NotOk(t)
    ensures forall i :: 0 <= i < |t| ==>
      && (RecoverTable(t)[i].status == Ok || RecoverTable(t)[i].status == Pending)
      && RecoverTable(t)[i].size == t[i].size && RecoverTable(t)[i].md5 == t[i].md5
  {
  }

  // Interrupt and resume, after any history whatever: the resumed run, left undisturbed,
  // requests exactly the chunks that were not Ok when the first was interrupted, each once,
  // and completes the file.
  lemma InterruptThenResume(c: Config, use: byte, file: bytes, acts: seq<Act>, n: nat, es: seq<Event>, n': nat,
                            es': seq<Event>)
    requires A.ValidConfig(c) && A.ChunkCount(c) <= FIELD_LIMIT
    requires ValidHistory(c, FirstDisk(c, use, file), acts)
    requires n <= NPROC && 0 < n' <= NPROC && Undisturbed(es')
    requires Possible(c, After(c, FirstDisk(c, use, file), acts), Session(n, es, Interrupted))
    requires var d := Apply(c, After(c, FirstDisk(c, use, file), acts), Session(n, es, Interrupted));
      Possible(c, d, Session(n', es', Finished))
    ensures var d0 := After(c, FirstDisk(c, use, file), acts);
      var d1 := Apply(c, d0, Session(n, es, Interrupted));
      var d2 := Apply(c, d1, Session(n', es', Finished));
      var first := RunOf(c, Start(d0.table, d0.file, n), es);
      var second := RunOf(c, Start(d1.table, d1.file, n'), es');
      && d1.inUse == 0 && d2.inUse == 0 && NotOk(d2.table) == {} && c.src <= d2.file
      && A.NoRepeats(second.log) && forall i: nat :: i in second.log <==> i in NotOk(first.disk)
  {
    HistorySound(c, use, file, acts);
    var d0 := After(c, FirstDisk(c, use, file), acts);
    var act := Session(n, es, Interrupted);
    ResetKeepsFinished(c, d0, act);
    SoundStep(c, d0, act);
    NoneMeansEmpty(Apply(c, d0, act).table);
    FinishedDownload(c, Apply(c, d0, act), n', es');
  }

  // A crash and a run begun without a recover, after any history: the second run starts from
  // what the crashed workers left in both files. It finishes and requests all unfinished chunks
  // except those that were marked as in transfer, and so never the chunk of a dead worker.
  lemma CrashThenResume(c: Config, use: byte, file: bytes, acts: seq<Act>, n: nat, es: seq<Event>, n': nat,
                        es': seq<Event>)
    requires A.ValidConfig(c) && A.ChunkCount(c) <= FIELD_LIMIT
    requires ValidHistory(c, FirstDisk(c, use, file), acts)
    requires n <= NPROC && 0 < n' <= NPROC && Undisturbed(es')
    requires Possible(c, After(c, FirstDisk(c, use, file), acts), Session(n, es, Crashed))
    requires var d := Apply(c, After(c, FirstDisk(c, use, file), acts), Session(n, es, Crashed));
      Possible(c, d, Session(n', es', Finished))
    ensures var d0 := After(c, FirstDisk(c, use, file), acts);
      var d1 := Apply(c, d0, Session(n, es, Crashed));
      var d2 := Apply(c, d1, Session(n', es', Finished));
      var first := RunOf(c, Start(d0.table, d0.file, n), es);
      && d1.inUse == 1 && d2.inUse == 0
      && ValidRun(c, Start(first.disk, first.file, n'), es')
      && var second := RunOf(c, Start(first.disk, first.file, n'), es');
      && d2.table == second.disk && d2.file == second.file
      && NotOk(second.disk) == InTransit(first.disk)
      && (forall i: nat :: i in second.log <==> i in NotOk(first.disk) - InTransit(first.disk))
      && (forall w :: 0 <= w < |first.workers| && HasChunk(first.workers[w]) ==>
            && first.workers[w].own !in second.log && first.workers[w].own in NotOk(second.disk)
            && second.disk[first.workers[w].own].status == Download)
  {
    HistorySound(c, use, file, acts);
    var d0 := After(c, FirstDisk(c, use, file), acts);
    SoundStep(c, d0, Session(n, es, Crashed));
    var d1 := Apply(c, d0, Session(n, es, Crashed));
    FinishedDownload(c, d1, n', es');
    var first := RunOf(c, Start(d0.table, d0.file, n), es);
    forall w: nat | w < |first.workers| && HasChunk(first.workers[w])
      ensures first.workers[w].own in InTransit(first.disk)
      ensures first.disk[first.workers[w].own].status == Download
    {
      ExclusiveOwnership(c, d0.table, d0.file, n, es);
    }
    forall i | i in InTransit(first.disk)
      ensures i < |RunOf(c, Start(first.disk, first.file, n'), es').disk|
      ensures RunOf(c, Start(first.disk, first.file, n'), es').disk[i] == first.disk[i]
    {
      InTransitKept(c, first.disk, first.file, n', es', i);
    }
  }

  lemma InTransitKept(c: Config, disk: Table, file: bytes, n: nat, es: seq<Event>, i: nat)
    requires A.ValidConfig(c) && A.GoodTable(c, disk, file) && ValidRun(c, Start(disk, file, n), es)
    requires i in InTransit(disk)
    ensures i < |RunOf(c, Start(disk, file, n), es).disk| && RunOf(c, Start(disk, file, n), es).disk[i] == disk[i]
  {
    Reachable(c, disk, file, n, es);
    assert Abs(RunOf(c, Start(disk, file, n), es)).table[i] == disk[i];
  }

  // ---- repairs -------------------------------------------------------------

  // Recover and reset are refused exactly when the file is in use and they are not forced. If
  // not, the mark is cleared, sizes, digests and the data file stay, and recover reopens what was
  // in download or in error, reset everything.
  lemma RepairIs(c: Config, d: Disk, act: Act)
    requires act.Recover? || act.Reset?
    ensures var d' := Apply(c, d, act);
      && d'.file == d.file && |d'.table| == |d.table|
      && (d.inUse != 0 && !act.force ==> d' == d)
      && (d.inUse == 0 || act.force ==>
            && d'.inUse == 0
            && forall i :: 0 <= i < |d.table| ==>
                 && d'.table[i].size == d.table[i].size && d'.table[i].md5 == d.table[i].md5
                 && (act.Recover? && (d.table[i].status == Ok || d.table[i].status == Upload) ==>
                       d'.table[i].status == d.table[i].status)
                 && (act.Reset? ==> d'.table[i].status == Pending)
                 && (d.table[i].status == Download || d.table[i].status == Error ==> d'.table[i].status == Pending)
                 && (d.table[i].status == Pending ==> d'.table[i] == d.table[i]))
  {
  }

  // After a reset an undisturbed run requests every chunk, and completes the file.
  lemma ResetThenDownload(c: Config, d: Disk, force: bool, n: nat, es: seq<Event>)
    requires A.ValidConfig(c) && Sound(c, d) && A.ChunkCount(c) <= FIELD_LIMIT && (d.inUse == 0 || force)
    requires 0 < n <= NPROC && Possible(c, Apply(c, d, Reset(force)), Session(n, es, Finished)) && Undisturbed(es)
    ensures var d1 := Apply(c, d, Reset(force));
      var d2 := Apply(c, d1, Session(n, es, Finished));
      var run := RunOf(c, Start(d1.table, d1.file, n), es);
      && (forall i: nat :: i in NotOk(d1.table) <==> i < A.ChunkCount(c))
      && (forall i: nat :: i in run.log <==> i < A.ChunkCount(c)) && A.NoRepeats(run.log)
      && NotOk(d2.table) == {} && c.src <= d2.file
  {
    var d1 := Apply(c, d, Reset(force));
    SoundStep(c, d, Reset(force));
    NoneMeansEmpty(d1.table);
    FinishedDownload(c, d1, n, es);
  }

  // No other content has the digest of a chunk of the source.
  ghost predicate NoCollision(c: Config, file: bytes)
    requires A.ValidConfig(c)
  {
    forall i: nat | i < A.ChunkCount(c) ::
      c.md5(Piece(file, |c.src|, c.chunkSize, i)) == c.md5(Slice(c.src, c.chunkSize, i)) ==>
        Piece(file, |c.src|, c.chunkSize, i) == Slice(c.src, c.chunkSize, i)
  }

  // The point of the integrity scan. After any history let the data file be changed in any way
  // that the digests can tell: check, recover and an undisturbed run request exactly the chunks
  // that were unfinished or are no longer right, and make the file right again.
  lemma CorruptionRepaired(c: Config, d: Disk, file': bytes, n: nat, es: seq<Event>)
    requires A.ValidConfig(c) && Sound(c, d) && A.ChunkCount(c) <= FIELD_LIMIT
    requires d.inUse == 0 && NoCollision(c, file') && 0 < n <= NPROC && Undisturbed(es)
    requires Possible(c, d.(file := file'), Check)
    requires var d2 := Apply(c, Apply(c, d.(file := file'), Check), Recover(false));
      Possible(c, d2, Session(n, es, Finished))
    ensures var d2 := Apply(c, Apply(c, d.(file := file'), Check), Recover(false));
      var run := RunOf(c, Start(d2.table, file', n), es);
      && (forall i: nat :: i in run.log <==>
            && i < A.ChunkCount(c)
            && (d.table[i].status != Ok
                || Piece(file', |c.src|, c.chunkSize, i) != Slice(c.src, c.chunkSize, i)))
      && NotOk(run.disk) == {} && c.src <= run.file
  {
    var t := CheckedTable(d.table, file', c.md5);
    CheckedSound(c, d, file');
    RecoverKeepsSound(c, Disk(0, t, file'), 0);
    var d2 := Apply(c, Apply(c, d.(file := file'), Check), Recover(false));
    assert d2 == Disk(0, RecoverTable(t), file');
    OpenAgain(c, d, file', t);
    FinishedDownload(c, d2, n, es);
  }

  // What check and recover have reopened.
  lemma OpenAgain(c: Config, d: Disk, file': bytes, t: Table)
    requires A.ValidConfig(c) && |t| == |d.table| == A.ChunkCount(c)
    requires forall i: nat :: i < |t| ==>
      && t[i].status != Upload
      && (t[i].status == Ok <==>
            d.table[i].status == Ok && Piece(file', |c.src|, c.chunkSize, i) == Slice(c.src, c.chunkSize, i))
    ensures NoneInHand(RecoverTable(t)) && InTransit(RecoverTable(t)) == {}
    ensures forall i: nat :: i in NotOk(RecoverTable(t)) <==>
      && i < A.ChunkCount(c)
      && (d.table[i].status != Ok || Piece(file', |c.src|, c.chunkSize, i) != Slice(c.src, c.chunkSize, i))
  {
    NoneMeansEmpty(RecoverTable(t));
  }

  lemma CheckedSound(c: Config, d: Disk, file': bytes)
    requires A.ValidConfig(c) && Sound(c, d) && A.ChunkCount(c) <= FIELD_LIMIT
    requires NoCollision(c, file') && SizesNonNegative(d.table)
    ensures var t := CheckedTable(d.table, file', c.md5);
      && Sound(c, Disk(0, t, file'))
      && forall i: nat :: i < |t| ==>
           && (t[i].status == Ok <==>
                 && d.table[i].status == Ok
                 && Piece(file', |c.src|, c.chunkSize, i) == Slice(c.src, c.chunkSize, i))
           && (t[i].status != Ok ==> t[i].status == Error || t[i].status == d.table[i].status)
  {
    var t := CheckedTable(d.table, file', c.md5);
    CheckedIsJudged(d.table, file', c.md5);
    forall i: nat | i < |t|
      ensures t[i].status == Ok <==>
        d.table[i].status == Ok && Piece(file', |c.src|, c.chunkSize, i) == Slice(c.src, c.chunkSize, i)
      ensures t[i].status == Ok ==> A.Written(c, file', i) && t[i].md5 == c.md5(A.Reply(c, i))
    {
      JudgedAtPlace(d.table, t, file', c.md5, |c.src|, c.chunkSize, i);
      A.ReplyLength(c, i);
    }
  }

  // The whole way, from nothing: a first undisturbed download into a local file no longer
  // than the source makes it equal to the source.
  lemma FirstDownload(c: Config, use: byte, file: bytes, n: nat, es: seq<Event>)
    requires A.ValidConfig(c) && A.ChunkCount(c) <= FIELD_LIMIT && |file| <= |c.src|
    requires 0 < n <= NPROC && Undisturbed(es)
    requires Possible(c, FirstDisk(c, use, file), Session(n, es, Finished))
    ensures var d := Apply(c, FirstDisk(c, use, file), Session(n, es, Finished));
      && d.inUse == 0 && d.file == c.src
      && forall i :: 0 <= i < |d.table| ==> d.table[i].status == Ok
  {
    var d := FirstDisk(c, use, file);
    HistorySound(c, use, file, []);
    FinishedDownload(c, d, n, es);
    Reachable(c, d.table, d.file, n, es);
    StuckMeansGone(c, RunOf(c, Start(d.table, d.file, n), es));
    CompleteExactly(c, d.table, d.file, n, es);
    var d' := Apply(c, d, Session(n, es, Finished));
    forall i: nat | i < |d'.table|
      ensures d'.table[i].status == Ok
    {
      assert i !in NotOk(d'.table);
    }
  }
}
