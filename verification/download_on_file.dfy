/** The worker machine's array is the one in the metadata file, byte for byte. */
module DownloadOnFile {
  import opened Bytes
  import opened ChunkTable
  import opened MetadataCodec
  import opened DownloadWorkers
  import opened DownloadTheorems
  import opened CriticalSections
  import A = AtomicDownload

  // The file's bytes after one event: UpdateControlData writes the worker's whole copy at
  // offset 2103, nothing else touches the file.
  ghost function FileAfter(f: bytes, s: State, e: Event): bytes {
    if e.Run? && e.w < |s.workers| && (s.workers[e.w].pc.Store1? || s.workers[e.w].pc.Store2?)
    then WriteAt(f, HEADER_SIZE, EncodeTable(s.workers[e.w].mem))
    else f
  }

  ghost function FileRun(c: Config, s: State, es: seq<Event>, f: bytes): bytes
    requires ValidRun(c, s, es)
  {
    if es == [] then f
    else FileAfter(FileRun(c, s, es[..|es| - 1], f), RunOf(c, s, es[..|es| - 1]), es[|es| - 1])
  }

  // Over every run, what LoadMetadata finds in the file is the machine's array, under the
  // header with which the run began, in-use byte included.
  lemma {:induction false} FileIsTheArray(c: Config, disk: Table, file: bytes, n: nat, es: seq<Event>, h: Header,
                                          f: bytes)
    requires A.ValidConfig(c) && A.GoodTable(c, disk, file) && ValidTable(disk)
    requires ValidRun(c, Start(disk, file, n), es)
    requires Decode(f) == Loaded(h, disk)
    ensures var s := RunOf(c, Start(disk, file, n), es);
      && Decode(FileRun(c, Start(disk, file, n), es, f)) == Loaded(h, s.disk)
      && |FileRun(c, Start(disk, file, n), es, f)| >= HEADER_SIZE
      && FileRun(c, Start(disk, file, n), es, f)[..HEADER_SIZE] == f[..HEADER_SIZE]
    decreases |es|
  {
    if es != [] {
      var s0, before := Start(disk, file, n), es[..|es| - 1];
      FileIsTheArray(c, disk, file, n, before, h, f);
      Reachable(c, disk, file, n, before);
      OneEvent(c, disk, RunOf(c, s0, before), es[|es| - 1], h, FileRun(c, s0, before, f));
    }
  }

  lemma OneEvent(c: Config, disk: Table, s: State, e: Event, h: Header, f: bytes)
    requires A.ValidConfig(c) && Inv(c, s) && A.Ownership(disk, Abs(s)) && ValidTable(disk) && Enabled(c, s, e)
    requires Decode(f) == Loaded(h, s.disk)
    ensures Decode(FileAfter(f, s, e)) == Loaded(h, Step(c, s, e).disk)
    ensures |FileAfter(f, s, e)| >= HEADER_SIZE && FileAfter(f, s, e)[..HEADER_SIZE] == f[..HEADER_SIZE]
  {
    if e.Run? && (s.workers[e.w].pc.Store1? || s.workers[e.w].pc.Store2?) {
      OneStore(c, disk, s, e.w, h, f);
      StoreCopies(c, s, e.w);
    } else {
      DiskSame(c, s, e);
    }
  }

  lemma OneStore(c: Config, disk: Table, s: State, w: nat, h: Header, f: bytes)
    requires A.ValidConfig(c) && Inv(c, s) && A.Ownership(disk, Abs(s)) && ValidTable(disk) && CanRun(c, s, w)
    requires s.workers[w].pc.Store1? || s.workers[w].pc.Store2?
    requires Decode(f) == Loaded(h, s.disk)
    ensures var f' := FileAfter(f, s, Run(w));
      && Decode(f') == Loaded(h, s.workers[w].mem)
      && |f'| >= HEADER_SIZE && f'[..HEADER_SIZE] == f[..HEADER_SIZE]
  {
    var mem := s.workers[w].mem;
    CopySizes(c, disk, s, w);
    LoadAfterUpdate(f, h, s.disk, mem);
  }

  lemma StoreCopies(c: Config, s: State, w: nat)
    requires CanRun(c, s, w) && (s.workers[w].pc.Store1? || s.workers[w].pc.Store2?)
    ensures RunStep(c, s, w).disk == s.workers[w].mem
  {
  }

  lemma CopySizes(c: Config, disk: Table, s: State, w: nat)
    requires A.ValidConfig(c) && Inv(c, s) && A.Ownership(disk, Abs(s)) && ValidTable(disk)
    requires w < |s.workers| && (s.workers[w].pc.Store1? || s.workers[w].pc.Store2?)
    ensures |s.workers[w].mem| == |s.disk| && ValidTable(s.workers[w].mem)
  {
    assert Local(c, s, s.workers[w]);
    forall k | 0 <= k < |s.disk|
      ensures IsInt64(s.workers[w].mem[k].size)
    {
      assert Abs(s).table[k].size == disk[k].size;
    }
  }

  lemma DiskSame(c: Config, s: State, e: Event)
    requires Enabled(c, s, e)
    requires !(e.Run? && (s.workers[e.w].pc.Store1? || s.workers[e.w].pc.Store2?))
    ensures Step(c, s, e).disk == s.disk
  {
  }

  // ---- what a waiting worker finds -----------------------------------------

  // The other workers' events: any but those of worker w.
  ghost predicate NotBy(es: seq<Event>, w: nat) {
    forall k :: 0 <= k < |es| ==> es[k].Interrupt? || es[k].w != w
  }

  ghost function InHand(s: State, w: nat): int {
    if w < |s.workers| && HasChunk(s.workers[w]) then s.workers[w].own else -1
  }

  // Whatever the other workers do from a reachable state on, however they fail or die, the
  // worker finds a file with the same header, every finished chunk as it was, and its own chunk
  // as it left it: what a critical section relies on is what the protocol guarantees.
  lemma {:induction false} OthersKeep(c: Config, disk: Table, s: State, es: seq<Event>, w: nat, h: Header, f: bytes)
    requires A.ValidConfig(c) && Inv(c, s) && A.Inv(c, disk, Abs(s)) && ValidTable(disk)
    requires ValidRun(c, s, es) && NotBy(es, w) && Decode(f) == Loaded(h, s.disk)
    ensures Holds(h, FileRun(c, s, es, f)) && TableIn(h, FileRun(c, s, es, f)) == RunOf(c, s, es).disk
    ensures Kept(s.disk, RunOf(c, s, es).disk, InHand(s, w))
    ensures InHand(RunOf(c, s, es), w) == InHand(s, w)
    decreases |es|
  {
    Close(h, f);
    if es != [] {
      var before, e := es[..|es| - 1], es[|es| - 1];
      OthersKeep(c, disk, s, before, w, h, f);
      Shown(h, FileRun(c, s, before, f));
      Refines(c, s, before);
      A.InvRun(c, disk, Abs(s), AbsRun(c, s, before));
      var m := RunOf(c, s, before);
      OneEvent(c, disk, m, e, h, FileRun(c, s, before, f));
      StepKeeps(c, disk, m, e, w);
      Close(h, FileRun(c, s, es, f));
    }
  }

  lemma StepKeeps(c: Config, disk: Table, s: State, e: Event, w: nat)
    requires A.ValidConfig(c) && Inv(c, s) && A.Ownership(disk, Abs(s)) && Enabled(c, s, e)
    requires e.Interrupt? || e.w != w
    ensures Kept(s.disk, Step(c, s, e).disk, InHand(s, w))
    ensures InHand(Step(c, s, e), w) == InHand(s, w)
  {
    if e.Run? && (s.workers[e.w].pc.Store1? || s.workers[e.w].pc.Store2?) {
      StoreKeeps(c, disk, s, e.w, w);
    } else {
      DiskSame(c, s, e);
    }
  }

  lemma StoreKeeps(c: Config, disk: Table, s: State, v: nat, w: nat)
    requires A.ValidConfig(c) && Inv(c, s) && A.Ownership(disk, Abs(s)) && CanRun(c, s, v) && v != w
    requires s.workers[v].pc.Store1? || s.workers[v].pc.Store2?
    ensures Kept(s.disk, RunStep(c, s, v).disk, InHand(s, w))
    ensures InHand(RunStep(c, s, v), w) == InHand(s, w)
  {
    var x := s.workers[v];
    assert Local(c, s, x);
    if x.pc.Store1? {
      NextPendingIs(s.disk);
    } else {
      HoldsIffHasChunk(c, s);
      assert A.Holds(Abs(s).workers[v]);
    }
  }

  // A wait of worker w in some run: from a reachable state on, the others have done something.
  ghost predicate WaitOf(c: Config, disk: Table, w: nat, h: Header, wait: Wait)
    requires A.ValidConfig(c)
  {
    exists s: State, es: seq<Event> {:trigger FileRun(c, s, es, wait.before)} ::
      && Inv(c, s) && A.Inv(c, disk, Abs(s)) && ValidRun(c, s, es) && NotBy(es, w)
      && Decode(wait.before) == Loaded(h, s.disk) && wait.own == InHand(s, w)
      && wait.after == FileRun(c, s, es, wait.before)
  }

  // Whatever a worker meets at its waits, as long as it is what the others can do in the
  // protocol, is within what its loop relies on.
  lemma WaitsRely(c: Config, disk: Table, w: nat, h: Header, waits: map<nat, Wait>)
    requires A.ValidConfig(c) && ValidTable(disk)
    requires forall turn :: turn in waits ==> WaitOf(c, disk, w, h, waits[turn])
    ensures Rely(Answers(waits), h)
  {
    forall turn | turn in waits
      ensures Holds(h, waits[turn].before) && Holds(h, waits[turn].after)
      ensures Kept(TableIn(h, waits[turn].before), TableIn(h, waits[turn].after), waits[turn].own)
    {
      WaitKeeps(c, disk, w, h, waits[turn]);
    }
    AnswersRely(waits, h);
  }

  lemma WaitKeeps(c: Config, disk: Table, w: nat, h: Header, wait: Wait)
    requires A.ValidConfig(c) && ValidTable(disk) && WaitOf(c, disk, w, h, wait)
    ensures Holds(h, wait.before) && Holds(h, wait.after)
    ensures Kept(TableIn(h, wait.before), TableIn(h, wait.after), wait.own)
  {
    var s: State, es: seq<Event> :| Inv(c, s) && A.Inv(c, disk, Abs(s)) && ValidRun(c, s, es) && NotBy(es, w)
      && Decode(wait.before) == Loaded(h, s.disk) && wait.own == InHand(s, w)
      && wait.after == FileRun(c, s, es, wait.before);
    OthersKeep(c, disk, s, es, w, h, wait.before);
    Close(h, wait.before);
  }
}
