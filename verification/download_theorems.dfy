/** What a whole download run guarantees, for every number of workers and every interleaving. */
module DownloadTheorems {
  import opened Bytes
  import opened ChunkLayout
  import opened ChunkTable
  import opened Counting
  import opened NumberField
  import opened DownloadWorkers
  import A = AtomicDownload

  // A table with no transfer left over from an earlier run.
  ghost predicate NoneInHand(t: Table) {
    forall i :: 0 <= i < |t| ==> t[i].status != Download && t[i].status != Upload
  }

  // The worker has a chunk marked Download on its account, alive or dead.
  predicate HasChunk(x: Worker) { InTransfer(x.pc) || (x.pc.Killed? && InTransfer(x.pc.at)) }

  // The worker left because its connection failed, or died.
  predicate Failing(x: Worker) { x.pc.Killed? || (x.pc.ExitLoop? && x.sockError) }

  // ---- ownership -----------------------------------------------------------

  // In every state of every run: no two workers have the same chunk, and when the run began
  // with nothing in hand a chunk is marked Download exactly when some worker has it.
  lemma ExclusiveOwnership(c: Config, disk: Table, file: bytes, n: nat, es: seq<Event>)
    requires A.ValidConfig(c) && A.GoodTable(c, disk, file)
    requires ValidRun(c, Start(disk, file, n), es)
    ensures var s := RunOf(c, Start(disk, file, n), es);
      && |s.disk| == |disk|
      && (forall v, w :: 0 <= v < w < |s.workers| && HasChunk(s.workers[v]) && HasChunk(s.workers[w]) ==>
            s.workers[v].own != s.workers[w].own)
      && (forall w :: 0 <= w < |s.workers| && HasChunk(s.workers[w]) ==>
            s.workers[w].own < |s.disk| && s.disk[s.workers[w].own].status == Download)
      && (NoneInHand(disk) ==> forall i :: 0 <= i < |s.disk| && s.disk[i].status == Download ==>
            exists w :: 0 <= w < |s.workers| && HasChunk(s.workers[w]) && s.workers[w].own == i)
  {
    Reachable(c, disk, file, n, es);
    var s := RunOf(c, Start(disk, file, n), es);
    HoldsIffHasChunk(c, s);
    forall i: nat | NoneInHand(disk) && i < |s.disk| && s.disk[i].status == Download
      ensures exists w :: 0 <= w < |s.workers| && HasChunk(s.workers[w]) && s.workers[w].own == i
    {
      assert Abs(s).table[i] == disk[i] || Claimable(disk[i]);
      assert A.Owned(Abs(s), i);
      var w: nat :| w < |s.workers| && A.Holds(Abs(s).workers[w]) && Abs(s).workers[w].own == i;
      assert HasChunk(s.workers[w]) && s.workers[w].own == i;
    }
  }

  lemma HoldsIffHasChunk(c: Config, s: State)
    requires A.ValidConfig(c) && Inv(c, s)
    ensures forall w :: 0 <= w < |s.workers| ==>
      (A.Holds(Abs(s).workers[w]) <==> HasChunk(s.workers[w])) && Abs(s).workers[w].own == s.workers[w].own
  {
    forall w | 0 <= w < |s.workers|
      ensures A.Holds(Abs(s).workers[w]) <==> HasChunk(s.workers[w])
    {
      assert Local(c, s, s.workers[w]);
    }
  }

  // A chunk that is Ok at some point of a run keeps its entry to the end of the run.
  lemma OkNeverRevoked(c: Config, disk: Table, file: bytes, n: nat, es: seq<Event>, es': seq<Event>, i: nat)
    requires A.ValidConfig(c) && A.GoodTable(c, disk, file)
    requires ValidRun(c, Start(disk, file, n), es)
    requires ValidRun(c, RunOf(c, Start(disk, file, n), es), es')
    requires var m := RunOf(c, Start(disk, file, n), es); i < |m.disk| && m.disk[i].status == Ok
    ensures var m := RunOf(c, Start(disk, file, n), es);
      i < |RunOf(c, m, es').disk| && RunOf(c, m, es').disk[i] == m.disk[i]
  {
    Reachable(c, disk, file, n, es);
    var m := RunOf(c, Start(disk, file, n), es);
    Refines(c, m, es');
    A.OkForever(c, disk, Abs(m), AbsRun(c, m, es'), i);
  }

  // ---- accounting ----------------------------------------------------------

  // Claims so far are the chunks newly made Ok plus those of workers that still have a chunk
  // or gave one up; so there are never more than the chunks open at the start plus one for
  // each worker, and only chunks open at the start are ever claimed.
  lemma ClaimAccounting(c: Config, disk: Table, file: bytes, n: nat, es: seq<Event>)
    requires A.ValidConfig(c) && A.GoodTable(c, disk, file)
    requires ValidRun(c, Start(disk, file, n), es)
    ensures var s := RunOf(c, Start(disk, file, n), es);
      && |s.log| == (CountIf(s.disk, A.IsOk) - CountIf(disk, A.IsOk)) + CountIf(Abs(s).workers, A.Answers)
      && |s.log| <= CountIf(disk, Claimable) + n
      && (forall j :: 0 <= j < |s.log| ==> s.log[j] < |disk| && Claimable(disk[s.log[j]]))
  {
    Reachable(c, disk, file, n, es);
    var s := RunOf(c, Start(disk, file, n), es);
    NewOk(disk, s.disk);
  }

  // Chunks become Ok only if they were claimable.
  lemma {:induction false} NewOk(t0: Table, t: Table)
    requires |t0| == |t|
    requires forall i :: 0 <= i < |t0| && !Claimable(t0[i]) ==> t[i] == t0[i]
    ensures CountIf(t, A.IsOk) <= CountIf(t0, A.IsOk) + CountIf(t0, Claimable)
  {
    if t0 != [] {
      var k := |t0| - 1;
      forall i | 0 <= i < k && !Claimable(t0[..k][i]) ensures t[..k][i] == t0[..k][i] {
        assert t0[..k][i] == t0[i];
      }
      NewOk(t0[..k], t[..k]);
    }
  }

  // ---- failures ------------------------------------------------------------

  ghost function FailedWorkers(s: State): set<nat> {
    set w: nat | w < |s.workers| && Failing(s.workers[w])
  }

  // If some worker left because it found nothing pending then, once all have stopped, the
  // chunks that are not Ok are those that were marked as in transfer at the start, all of them,
  // and otherwise each the last chunk of a worker that failed or died: there are no more of the
  // latter than such workers.
  lemma FailureBound(c: Config, disk: Table, file: bytes, n: nat, es: seq<Event>)
    requires A.ValidConfig(c) && A.GoodTable(c, disk, file)
    requires ValidRun(c, Start(disk, file, n), es)
    requires var s := RunOf(c, Start(disk, file, n), es);
      AllGone(s) && exists w :: 0 <= w < |s.workers| && s.workers[w].pc.ExitEmpty?
    ensures var s := RunOf(c, Start(disk, file, n), es);
      && InTransit(disk) <= NotOk(s.disk)
      && (forall i :: i in NotOk(s.disk) - InTransit(disk) ==>
            exists w :: w in FailedWorkers(s) && s.workers[w].own == i)
      && |NotOk(s.disk)| <= |InTransit(disk)| + |FailedWorkers(s)|
  {
    Reachable(c, disk, file, n, es);
    var s := RunOf(c, Start(disk, file, n), es);
    var rest := NotOk(s.disk) - InTransit(disk);
    InTransitStays(c, disk, s);
    forall i: nat | i in rest
      ensures exists w :: w in FailedWorkers(s) && s.workers[w].own == i
    {
      LeftOver(c, disk, s, i);
    }
    LeftOverCount(s, rest);
    assert NotOk(s.disk) == rest + InTransit(disk);
  }

  // Nobody touches a chunk that was marked as in transfer before the run.
  lemma InTransitStays(c: Config, disk: Table, s: State)
    requires A.ValidConfig(c) && A.Ownership(disk, Abs(s))
    ensures InTransit(disk) <= NotOk(s.disk)
  {
    forall i | i in InTransit(disk)
      ensures i in NotOk(s.disk)
    {
      assert Abs(s).table[i] == disk[i];
    }
  }

  lemma LeftOver(c: Config, disk: Table, s: State, i: nat)
    requires A.ValidConfig(c) && Inv(c, s) && A.Inv(c, disk, Abs(s)) && AllGone(s)
    requires exists w :: 0 <= w < |s.workers| && s.workers[w].pc.ExitEmpty?
    requires i < |s.disk| && s.disk[i].status != Ok && i !in InTransit(disk)
    ensures exists w :: w in FailedWorkers(s) && s.workers[w].own == i
  {
    var d :| 0 <= d < |s.workers| && s.workers[d].pc.ExitEmpty?;
    EmptyIsDrained(s.workers[d]);
    assert Abs(s).workers[d].phase.Drained?;
    assert Abs(s).table[i] == disk[i] || Claimable(disk[i]);
    assert A.AnsweredFor(Abs(s), i);
    var w: nat :| w < |s.workers| && A.Answers(Abs(s).workers[w]) && Abs(s).workers[w].own == i;
    AnsweringGone(s.workers[w]);
    assert w in FailedWorkers(s) && s.workers[w].own == i;
  }

  lemma EmptyIsDrained(x: Worker)
    requires x.pc.ExitEmpty?
    ensures AbsWorker(x).phase.Drained?
  {
  }

  lemma AnsweringGone(x: Worker)
    requires A.Answers(AbsWorker(x)) && Gone(x.pc)
    ensures Failing(x)
  {
  }

  lemma LeftOverCount(s: State, rest: set<nat>)
    requires forall i :: i in rest ==> exists w :: w in FailedWorkers(s) && s.workers[w].own == i
    ensures |rest| <= |FailedWorkers(s)|
  {
    var own := seq(|s.workers|, w requires 0 <= w < |s.workers| => s.workers[w].own);
    forall i | i in rest
      ensures exists w :: w in FailedWorkers(s) && w < |own| && own[w] == i
    {
      var w :| w in FailedWorkers(s) && s.workers[w].own == i;
      assert own[w] == i;
    }
    OwnersBound(rest, FailedWorkers(s), own);
  }

  // ---- a run without failures ----------------------------------------------

  // No connection fails, nobody dies, nobody presses control-C.
  ghost predicate Undisturbed(es: seq<Event>) {
    forall k :: 0 <= k < |es| ==> es[k].Run?
  }

  lemma {:induction false} UndisturbedRun(c: Config, s: State, es: seq<Event>)
    requires ValidRun(c, s, es) && Undisturbed(es)
    requires s.kill == 0
    requires forall w :: 0 <= w < |s.workers| ==> !s.workers[w].sockError && !s.workers[w].pc.Killed?
    ensures var s' := RunOf(c, s, es);
      && s'.kill == 0
      && forall w :: 0 <= w < |s'.workers| ==> !s'.workers[w].sockError && !s'.workers[w].pc.Killed?
    decreases |es|
  {
    if es != [] {
      UndisturbedRun(c, s, es[..|es| - 1]);
    }
  }

  // What the file must be for the result to equal the source: the chunks that the field can
  // not name happen to begin like the chunks sent in their stead.
  ghost predicate Faithful(c: Config)
    requires A.ValidConfig(c)
  {
    forall i: nat | i < A.ChunkCount(c) :: i >= FIELD_LIMIT ==> Slice(c.src, c.chunkSize, i) <= A.Reply(c, i)
  }

  // A file with every reply in place has the source as its prefix exactly when the source
  // is faithful in that sense.
  lemma AllWritten(c: Config, file: bytes)
    requires A.ValidConfig(c)
    requires forall i: nat | i < A.ChunkCount(c) :: A.Written(c, file, i)
    ensures c.src <= file <==> Faithful(c)
  {
    PiecesMakePrefix(c.src, c.chunkSize, file);
    forall i: nat | i < A.ChunkCount(c)
      ensures Piece(file, |c.src|, c.chunkSize, i) == Slice(c.src, c.chunkSize, i)
        <==> Slice(c.src, c.chunkSize, i) <= A.Reply(c, i)
      ensures i < FIELD_LIMIT ==> Slice(c.src, c.chunkSize, i) <= A.Reply(c, i)
    {
      WrittenPiece(c, file, i);
    }
  }

  lemma WrittenPiece(c: Config, file: bytes, i: nat)
    requires A.ValidConfig(c) && i < A.ChunkCount(c) && A.Written(c, file, i)
    ensures Piece(file, |c.src|, c.chunkSize, i) == Slice(c.src, c.chunkSize, i)
      <==> Slice(c.src, c.chunkSize, i) <= A.Reply(c, i)
    ensures i < FIELD_LIMIT ==> Slice(c.src, c.chunkSize, i) <= A.Reply(c, i)
  {
    A.ReplyLength(c, i);
    ShorterRead(file, c.chunkSize * i, A.Reply(c, i), ChunkLen(|c.src|, c.chunkSize, i));
  }

  lemma ShorterRead(file: bytes, at: nat, there: bytes, len: nat)
    requires ReadAt(file, at, |there|) == there && 0 < len <= |there|
    ensures ReadAt(file, at, len) == there[..len]
  {
    assert there == file[at..at + |there|];
    forall k | 0 <= k < len
      ensures file[at..at + len][k] == there[..len][k]
    {
      assert file[at..at + len][k] == file[at + k] == there[k];
    }
  }

  // End to end, from any table whose Ok chunks are good: with at least one worker, every run
  // that nothing disturbs and that can go no further has requested exactly the chunks open at
  // the start, each once, and leaves not Ok exactly those that were marked as in transfer. So it
  // finishes everything if and only if there were none of these; and the source is then a
  // prefix of the local file if and only if it is Faithful, which every file of at most a
  // million chunks is.
  lemma Complete(c: Config, disk: Table, file: bytes, n: nat, es: seq<Event>)
    requires A.ValidConfig(c) && A.GoodTable(c, disk, file) && n > 0
    requires ValidRun(c, Start(disk, file, n), es) && Undisturbed(es)
    requires Stuck(c, RunOf(c, Start(disk, file, n), es))
    ensures var s := RunOf(c, Start(disk, file, n), es);
      && AllGone(s) && s.kill == 0
      && A.GoodTable(c, s.disk, s.file) && NotOk(s.disk) == InTransit(disk)
      && (NotOk(s.disk) == {} <==> NoneInHand(disk))
      && (NoneInHand(disk) ==> (c.src <= s.file <==> Faithful(c)))
      && A.NoRepeats(s.log) && (forall i: nat :: i in s.log <==> i < |disk| && Claimable(disk[i]))
  {
    var s := RunOf(c, Start(disk, file, n), es);
    Reachable(c, disk, file, n, es);
    StuckMeansGone(c, s);
    UndisturbedRun(c, Start(disk, file, n), es);
    SomeoneDrained(c, disk, s);
    FailureBound(c, disk, file, n, es);
    assert FailedWorkers(s) == {};
    assert NotOk(s.disk) - InTransit(disk) == {};
    NoneMeansEmpty(disk);
    if NoneInHand(disk) {
      forall i: nat | i < A.ChunkCount(c)
        ensures A.Written(c, s.file, i)
      {
        assert i !in NotOk(s.disk);
      }
      AllWritten(c, s.file);
    }
    LogIsOpenChunks(c, disk, s);
  }

  lemma NoneMeansEmpty(t: Table)
    ensures NoneInHand(t) <==> InTransit(t) == {}
  {
    if !NoneInHand(t) {
      var i: nat :| i < |t| && (t[i].status == Download || t[i].status == Upload);
      assert i in InTransit(t);
    } else {
      forall i: nat | i < |t|
        ensures i !in InTransit(t)
      {
      }
    }
  }

  lemma SomeoneDrained(c: Config, disk: Table, s: State)
    requires A.ValidConfig(c) && Inv(c, s) && A.Inv(c, disk, Abs(s)) && AllGone(s)
    requires |s.workers| > 0 && s.kill == 0
    requires forall w :: 0 <= w < |s.workers| ==> !s.workers[w].sockError && !s.workers[w].pc.Killed?
    ensures exists w :: 0 <= w < |s.workers| && s.workers[w].pc.ExitEmpty?
  {
    assert Gone(s.workers[0].pc);
    assert Abs(s).workers[0].phase.Stopped? || !s.workers[0].pc.ExitLoop?;
  }

  lemma LogIsOpenChunks(c: Config, disk: Table, s: State)
    requires A.ValidConfig(c) && A.Claims(disk, Abs(s)) && NotOk(s.disk) == InTransit(disk)
    requires forall w :: 0 <= w < |s.workers| ==> !s.workers[w].sockError && !s.workers[w].pc.Killed?
    ensures A.NoRepeats(s.log) && forall i: nat :: i in s.log <==> i < |disk| && Claimable(disk[i])
  {
    assert A.Clean(Abs(s));
    forall i: nat
      ensures i in s.log <==> i < |disk| && Claimable(disk[i])
    {
      assert i < |disk| && i !in s.log ==> Abs(s).table[i] == disk[i];
      assert i < |disk| && Claimable(disk[i]) ==> i !in NotOk(s.disk);
    }
  }

  // The undisturbed runs from a state after which every worker has left.
  ghost function Endings(c: Config, s: State): iset<seq<Event>> {
    iset es: seq<Event> | Undisturbed(es) && ValidRun(c, s, es) && AllGone(RunOf(c, s, es))
  }

  // Such runs exist: left alone, the workers of any reachable state run to the end.
  lemma {:induction false} RunsToTheEnd(c: Config, disk: Table, s: State)
    requires A.ValidConfig(c) && Inv(c, s) && A.Inv(c, disk, Abs(s))
    ensures exists es :: es in Endings(c, s)
    decreases Measure(s)
  {
    if AllGone(s) {
      assert [] in Endings(c, s);
    } else {
      StuckMeansGone(c, s);
      var w: nat :| CanRun(c, s, w);
      OneStep(c, disk, s, w);
      RunsToTheEnd(c, disk, RunStep(c, s, w));
      var es :| es in Endings(c, RunStep(c, s, w));
      Prepend(c, s, w, es);
    }
  }

  lemma OneStep(c: Config, disk: Table, s: State, w: nat)
    requires A.ValidConfig(c) && Inv(c, s) && A.Inv(c, disk, Abs(s)) && CanRun(c, s, w)
    ensures Inv(c, RunStep(c, s, w)) && A.Inv(c, disk, Abs(RunStep(c, s, w)))
    ensures Measure(RunStep(c, s, w)) < Measure(s)
  {
    InvStep(c, s, Run(w));
    Simulation(c, s, Run(w));
    var ae := AbsEvent(s, Run(w));
    if ae != [] {
      A.InvStep(c, disk, Abs(s), ae[0]);
    }
    MeasureStep(c, disk, s, Run(w));
  }

  lemma Prepend(c: Config, s: State, w: nat, es: seq<Event>)
    requires CanRun(c, s, w) && es in Endings(c, RunStep(c, s, w))
    ensures [Run(w)] + es in Endings(c, s)
  {
    PrependRun(c, s, Run(w), es);
  }

  lemma {:induction false} PrependRun(c: Config, s: State, e: Event, es: seq<Event>)
    requires Enabled(c, s, e) && ValidRun(c, Step(c, s, e), es)
    ensures ValidRun(c, s, [e] + es) && RunOf(c, s, [e] + es) == RunOf(c, Step(c, s, e), es)
    decreases |es|
  {
    var all := [e] + es;
    if es == [] {
      assert all[..|all| - 1] == [];
    } else {
      PrependRun(c, s, e, es[..|es| - 1]);
      assert all[..|all| - 1] == [e] + es[..|es| - 1];
    }
  }
}
