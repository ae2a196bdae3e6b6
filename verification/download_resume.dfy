/** Downloads begun from any array, also one that a crash left behind: what they do not touch,
    and exactly when the result is the source. */
module DownloadResume {
  import opened Bytes
  import opened ChunkLayout
  import opened ChunkTable
  import opened NumberField
  import opened DownloadWorkers
  import opened DownloadTheorems
  import A = AtomicDownload

  // ---- the atomic machine --------------------------------------------------

  // Chunk i of the local file is what it was at the start, with zeros beyond its old end.
  ghost predicate AsBefore(c: Config, file0: bytes, file: bytes, i: nat, n: nat)
    requires A.ValidConfig(c) && i < A.ChunkCount(c)
  {
    Piece(Padded(file, n), |c.src|, c.chunkSize, i) == Piece(Padded(file0, n), |c.src|, c.chunkSize, i)
  }

  // That holds of every chunk that was not open at the start, however long the file is made.
  ghost predicate Untouched(c: Config, t0: Table, file0: bytes, file: bytes)
    requires A.ValidConfig(c) && |t0| == A.ChunkCount(c)
  {
    forall i: nat, n: nat ::
      i < |t0| && !Claimable(t0[i]) && n >= |file| ==> AsBefore(c, file0, file, i, n)
  }

  lemma UntouchedStep(c: Config, t0: Table, file0: bytes, s: A.State, e: A.Event)
    requires A.ValidConfig(c) && |t0| == A.ChunkCount(c) && A.Enabled(c, s, e)
    requires A.Ownership(t0, s) && A.Contents(c, s) && Untouched(c, t0, file0, s.file)
    ensures Untouched(c, t0, file0, A.Step(c, s, e).file)
  {
    if e.Store? {
      assert A.Carries(c, s.file, s.workers[e.w]) && A.Holds(s.workers[e.w]);
      A.ReplyLength(c, s.workers[e.w].own);
      UntouchedWrite(c, t0, file0, s.file, s.workers[e.w].own, s.workers[e.w].phase.data);
    } else if e.Die? && s.workers[e.w].phase.Received? {
      var data := s.workers[e.w].phase.data;
      assert A.Carries(c, s.file, s.workers[e.w]) && A.Holds(s.workers[e.w]);
      A.ReplyLength(c, s.workers[e.w].own);
      UntouchedWrite(c, t0, file0, s.file, s.workers[e.w].own, data[..Min(e.part, |data|)]);
    }
  }

  lemma UntouchedWrite(c: Config, t0: Table, file0: bytes, file: bytes, k: nat, data: bytes)
    requires A.ValidConfig(c) && |t0| == A.ChunkCount(c) && Untouched(c, t0, file0, file)
    requires k < |t0| && Claimable(t0[k]) && |data| <= c.chunkSize
    ensures Untouched(c, t0, file0, WriteAt(file, c.chunkSize * k, data))
  {
    var file' := WriteAt(file, c.chunkSize * k, data);
    forall i: nat, n: nat | i < |t0| && !Claimable(t0[i]) && n >= |file'|
      ensures AsBefore(c, file0, file', i, n)
    {
      assert n >= |file| && AsBefore(c, file0, file, i, n);
      ElsewhereKept(|c.src|, c.chunkSize, file, k, data, n, i);
    }
  }

  lemma {:induction false} UntouchedRun(c: Config, t0: Table, s: A.State, es: seq<A.Event>)
    requires A.ValidConfig(c) && |t0| == A.ChunkCount(c) && A.Inv(c, t0, s) && A.ValidRun(c, s, es)
    ensures Untouched(c, t0, s.file, A.Run(c, s, es).file)
    decreases |es|
  {
    if es != [] {
      var before := es[..|es| - 1];
      UntouchedRun(c, t0, s, before);
      A.InvRun(c, t0, s, before);
      UntouchedStep(c, t0, s.file, A.Run(c, s, before), es[|es| - 1]);
    }
  }

  // ---- the length of the local file ----------------------------------------

  function EndOf(c: Config, i: nat): nat
    requires A.ValidConfig(c) && i < A.ChunkCount(c)
  {
    c.chunkSize * i + |A.Reply(c, i)|
  }

  // How long the file becomes when the open ones among the first k chunks are written.
  function Reach(c: Config, file: bytes, t: Table, k: nat): (n: nat)
    requires A.ValidConfig(c) && k <= |t| == A.ChunkCount(c)
  {
    if k == 0 then |file|
    else
      var before := Reach(c, file, t, k - 1);
      if Claimable(t[k - 1]) then Max(before, EndOf(c, k - 1)) else before
  }

  lemma {:induction false} ReachIs(c: Config, file: bytes, t: Table, k: nat)
    requires A.ValidConfig(c) && k <= |t| == A.ChunkCount(c)
    ensures var n := Reach(c, file, t, k);
      && |file| <= n && (forall i: nat :: i < k && Claimable(t[i]) ==> EndOf(c, i) <= n)
      && (n == |file| || exists i: nat :: i < k && Claimable(t[i]) && n == EndOf(c, i))
  {
    if k > 0 { ReachIs(c, file, t, k - 1); }
  }

  // No further than that, and no shorter than before, while nobody dies halfway through a write.
  ghost predicate Within(c: Config, t0: Table, file0: bytes, file: bytes)
    requires A.ValidConfig(c) && |t0| == A.ChunkCount(c)
  {
    |file0| <= |file| <= Reach(c, file0, t0, |t0|)
  }

  lemma WithinStep(c: Config, t0: Table, file0: bytes, s: A.State, e: A.Event)
    requires A.ValidConfig(c) && |t0| == A.ChunkCount(c) && A.Enabled(c, s, e) && !e.Die?
    requires A.Ownership(t0, s) && A.Contents(c, s) && Within(c, t0, file0, s.file)
    ensures Within(c, t0, file0, A.Step(c, s, e).file)
  {
    if e.Store? {
      assert A.Carries(c, s.file, s.workers[e.w]) && A.Holds(s.workers[e.w]);
      ReachIs(c, file0, t0, |t0|);
      assert EndOf(c, s.workers[e.w].own) <= Reach(c, file0, t0, |t0|);
    }
  }

  // ---- undisturbed runs ----------------------------------------------------

  lemma {:induction false} WithinRun(c: Config, disk: Table, file: bytes, n: nat, es: seq<Event>)
    requires A.ValidConfig(c) && A.GoodTable(c, disk, file)
    requires ValidRun(c, Start(disk, file, n), es) && Undisturbed(es)
    ensures Within(c, disk, file, RunOf(c, Start(disk, file, n), es).file)
    decreases |es|
  {
    ReachIs(c, file, disk, |disk|);
    if es != [] {
      var before, e := es[..|es| - 1], es[|es| - 1];
      WithinRun(c, disk, file, n, before);
      Reachable(c, disk, file, n, before);
      var m := RunOf(c, Start(disk, file, n), before);
      Simulation(c, m, e);
      if AbsEvent(m, e) != [] {
        WithinStep(c, disk, file, Abs(m), AbsEvent(m, e)[0]);
      }
    }
  }

  // What the local file must hold at the start at the places that the run will not write.
  ghost predicate LeftRight(c: Config, t: Table, file: bytes)
    requires A.ValidConfig(c) && |t| == A.ChunkCount(c)
  {
    forall i: nat | i < |t| && i in InTransit(t) ::
      Piece(file, |c.src|, c.chunkSize, i) == Slice(c.src, c.chunkSize, i)
  }

  // Faithful, for the chunks not marked as in transfer.
  ghost predicate FaithfulElsewhere(c: Config, t: Table)
    requires A.ValidConfig(c) && |t| == A.ChunkCount(c)
  {
    forall i: nat | i < |t| && i !in InTransit(t) :: Slice(c.src, c.chunkSize, i) <= A.Reply(c, i)
  }

  // End to end, from any table whose Ok chunks are good and any local file, a crash's included:
  // the length of the result, and exactly when the source is its prefix. The chunks marked as
  // in transfer must have been right in the file already, padded to that length, and the others
  // faithful to the number field.
  lemma Outcome(c: Config, disk: Table, file: bytes, n: nat, es: seq<Event>)
    requires A.ValidConfig(c) && A.GoodTable(c, disk, file) && n > 0
    requires ValidRun(c, Start(disk, file, n), es) && Undisturbed(es)
    requires Stuck(c, RunOf(c, Start(disk, file, n), es))
    ensures var after, reach := RunOf(c, Start(disk, file, n), es).file, Reach(c, file, disk, |disk|);
      && |after| == reach
      && (c.src <= after <==> LeftRight(c, disk, Padded(file, reach)) && FaithfulElsewhere(c, disk))
  {
    var s := RunOf(c, Start(disk, file, n), es);
    Complete(c, disk, file, n, es);
    LengthIs(c, disk, file, n, es);
    UntouchedAfter(c, disk, file, n, es);
    PiecesMakePrefix(c.src, c.chunkSize, s.file);
    forall i: nat | i < |disk|
      ensures i in InTransit(disk) ==>
        Piece(s.file, |c.src|, c.chunkSize, i) == Piece(Padded(file, |s.file|), |c.src|, c.chunkSize, i)
      ensures i !in InTransit(disk) ==>
        (Piece(s.file, |c.src|, c.chunkSize, i) == Slice(c.src, c.chunkSize, i)
         <==> Slice(c.src, c.chunkSize, i) <= A.Reply(c, i))
    {
      if i in InTransit(disk) {
        assert AsBefore(c, file, s.file, i, |s.file|);
      } else {
        assert i !in NotOk(s.disk);
        WrittenPiece(c, s.file, i);
      }
    }
  }

  lemma LengthIs(c: Config, disk: Table, file: bytes, n: nat, es: seq<Event>)
    requires A.ValidConfig(c) && A.GoodTable(c, disk, file) && n > 0
    requires ValidRun(c, Start(disk, file, n), es) && Undisturbed(es)
    requires Stuck(c, RunOf(c, Start(disk, file, n), es))
    ensures |RunOf(c, Start(disk, file, n), es).file| == Reach(c, file, disk, |disk|)
  {
    var s := RunOf(c, Start(disk, file, n), es);
    Complete(c, disk, file, n, es);
    WithinRun(c, disk, file, n, es);
    Reached(c, disk, file, s.disk, s.file);
  }

  // Once everything open is finished, the file reaches as far as it can.
  lemma Reached(c: Config, t0: Table, file0: bytes, t: Table, file: bytes)
    requires A.ValidConfig(c) && |t0| == A.ChunkCount(c) && Within(c, t0, file0, file)
    requires A.GoodTable(c, t, file) && NotOk(t) == InTransit(t0)
    ensures |file| == Reach(c, file0, t0, |t0|)
  {
    ReachIs(c, file0, t0, |t0|);
    var reach := Reach(c, file0, t0, |t0|);
    if reach != |file0| {
      var i: nat :| i < |t0| && Claimable(t0[i]) && reach == EndOf(c, i);
      assert i !in NotOk(t);
      WrittenReaches(c, file, i);
    }
  }

  lemma WrittenReaches(c: Config, file: bytes, i: nat)
    requires A.ValidConfig(c) && i < A.ChunkCount(c) && A.Written(c, file, i)
    ensures EndOf(c, i) <= |file|
  {
    A.ReplyLength(c, i);
    FullRead(file, c.chunkSize * i, A.Reply(c, i));
  }

  lemma FullRead(file: bytes, at: nat, there: bytes)
    requires there != [] && ReadAt(file, at, |there|) == there
    ensures at + |there| <= |file|
  {
  }

  lemma UntouchedAfter(c: Config, disk: Table, file: bytes, n: nat, es: seq<Event>)
    requires A.ValidConfig(c) && A.GoodTable(c, disk, file)
    requires ValidRun(c, Start(disk, file, n), es)
    ensures Untouched(c, disk, file, RunOf(c, Start(disk, file, n), es).file)
  {
    var s0 := Start(disk, file, n);
    InvStart(c, disk, file, n);
    Refines(c, s0, es);
    A.InvStart(c, disk, file, n);
    UntouchedRun(c, disk, Abs(s0), AbsRun(c, s0, es));
  }

  // With at most a million chunks and a local file no longer than the source, the result is the
  // source itself, so that the digest comparison at the end succeeds, exactly when every chunk
  // left in transfer was right to begin with; without such chunks, always.
  lemma CompleteExactly(c: Config, disk: Table, file: bytes, n: nat, es: seq<Event>)
    requires A.ValidConfig(c) && A.GoodTable(c, disk, file) && n > 0
    requires ValidRun(c, Start(disk, file, n), es) && Undisturbed(es)
    requires Stuck(c, RunOf(c, Start(disk, file, n), es))
    requires A.ChunkCount(c) <= FIELD_LIMIT
    ensures var after := RunOf(c, Start(disk, file, n), es).file;
      && (c.src <= after <==> LeftRight(c, disk, Padded(file, Reach(c, file, disk, |disk|))))
      && (|file| <= |c.src| ==> (after == c.src <==> LeftRight(c, disk, Padded(file, Reach(c, file, disk, |disk|)))))
      && (NoneInHand(disk) ==> LeftRight(c, disk, Padded(file, Reach(c, file, disk, |disk|))))
  {
    Outcome(c, disk, file, n, es);
    var s0 := Start(disk, file, n);
    InvStart(c, disk, file, n);
    Refines(c, s0, es);
    A.InvStart(c, disk, file, n);
    A.LengthRun(c, disk, Abs(s0), AbsRun(c, s0, es));
    NoneMeansEmpty(disk);
    forall i: nat | i < |disk|
      ensures Slice(c.src, c.chunkSize, i) <= A.Reply(c, i)
    {
      A.ReplyLength(c, i);
    }
  }

  // Running on after a crash without a recover: whatever the table, if a chunk is still marked
  // as in transfer then left alone the run comes to an end that has not finished it.
  lemma CrashNotRepaired(c: Config, disk: Table, file: bytes, n: nat) returns (es: seq<Event>)
    requires A.ValidConfig(c) && A.GoodTable(c, disk, file) && n > 0 && !NoneInHand(disk)
    ensures es in Endings(c, Start(disk, file, n))
    ensures NotOk(RunOf(c, Start(disk, file, n), es).disk) == InTransit(disk) != {}
  {
    var s0 := Start(disk, file, n);
    InvStart(c, disk, file, n);
    A.InvStart(c, disk, file, n);
    RunsToTheEnd(c, disk, s0);
    es :| es in Endings(c, s0);
    Reachable(c, disk, file, n, es);
    StuckMeansGone(c, RunOf(c, s0, es));
    Complete(c, disk, file, n, es);
  }

  // ---- a file with too many chunks -----------------------------------------

  // A million and one chunks of one byte, the last of which differs from chunk 100000: that is
  // the one the server sends when the last is asked for.
  function LargeConfig(md5: bytes -> Digest): (c: Config)
  {
    A.Config(seq(1_000_001, k => if k == 1_000_000 then 1 else 0), 1, md5)
  }

  lemma LastChunkServed()
    ensures Requested(1_000_000) == 100_000
  {
    TooLong(1_000_000);
    Pow10Six();
    assert Pow10(7) == 10 * Pow10(6);
    DigitCount(1_000_000, 7);
    assert Pow10(1) == 10 * Pow10(0);
  }

  lemma LargeNotFaithful(md5: bytes -> Digest)
    ensures A.ValidConfig(LargeConfig(md5)) && A.ChunkCount(LargeConfig(md5)) == 1_000_001
    ensures !Faithful(LargeConfig(md5))
  {
    var c := LargeConfig(md5);
    LastChunkServed();
    A.ReplyLength(c, 1_000_000);
    assert Slice(c.src, 1, 1_000_000)[0] == 1;
    assert A.Reply(c, 1_000_000)[0] == 0;
  }

  // Its download, begun from nothing, runs to an end with every chunk Ok and a wrong file.
  lemma LargeDownloadWrong(md5: bytes -> Digest, file: bytes, n: nat) returns (es: seq<Event>)
    requires n > 0
    ensures var c := LargeConfig(md5);
      var s0 := Start(FreshTable(|c.src|, c.chunkSize, 1_000_001), file, n);
      && A.ValidConfig(c) && es in Endings(c, s0)
      && NotOk(RunOf(c, s0, es).disk) == {} && !(c.src <= RunOf(c, s0, es).file)
  {
    var c := LargeConfig(md5);
    LargeNotFaithful(md5);
    var t := FreshTable(|c.src|, c.chunkSize, 1_000_001);
    InvStart(c, t, file, n);
    A.InvStart(c, t, file, n);
    RunsToTheEnd(c, t, Start(t, file, n));
    es :| es in Endings(c, Start(t, file, n));
    Reachable(c, t, file, n, es);
    StuckMeansGone(c, RunOf(c, Start(t, file, n), es));
    NoneMeansEmpty(t);
    Complete(c, t, file, n, es);
  }
}
