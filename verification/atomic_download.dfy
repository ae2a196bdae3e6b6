/** The download protocol as it is meant: every claim and every completion is one atomic
    change of one chunk's status. The worker machine refines this one. */
module AtomicDownload {
  import opened Bytes
  import opened ChunkLayout
  import opened ChunkTable
  import opened Counting
  import opened NumberField

  // The file on the server, the chunk size both sides use, and the digest function.
  datatype Config = Config(src: bytes, chunkSize: nat, md5: bytes -> Digest)

  predicate ValidConfig(c: Config) { 0 < c.chunkSize <= MAX_CHUNK_SIZE }

  function ChunkCount(c: Config): (n: nat)
    requires ValidConfig(c)
  {
    Chunks(|c.src|, c.chunkSize)
  }

  // The chunk the server sends when chunk i is asked for: the number goes through the field.
  function Served(c: Config, i: nat): (k: nat)
    requires ValidConfig(c) && i < ChunkCount(c)
    ensures k <= i && k < ChunkCount(c)
    ensures i < FIELD_LIMIT ==> k == i
    ensures i >= FIELD_LIMIT ==> k < FIELD_LIMIT && k < i
  {
    FieldFaithful(i);
    if i >= FIELD_LIMIT then TooLong(i); Requested(i) else Requested(i)
  }

  function Reply(c: Config, i: nat): (data: bytes)
    requires ValidConfig(c) && i < ChunkCount(c)
  {
    Slice(c.src, c.chunkSize, Served(c, i))
  }

  // A reply is never longer than a chunk and never shorter than the chunk asked for.
  lemma ReplyLength(c: Config, i: nat)
    requires ValidConfig(c) && i < ChunkCount(c)
    ensures 1 <= ChunkLen(|c.src|, c.chunkSize, i) <= |Reply(c, i)| <= c.chunkSize
    ensures i < FIELD_LIMIT ==> Reply(c, i) == Slice(c.src, c.chunkSize, i)
  {
    ChunkBounds(|c.src|, c.chunkSize, i);
    ChunkBounds(|c.src|, c.chunkSize, Served(c, i));
  }

  // ---- the machine ---------------------------------------------------------

  datatype Phase =
    | Ready                             // between chunks
    | Claimed                           // own is marked Download
    | Received(md5: Digest, data: bytes) // the reply is in the buffer
    | Stored(md5: Digest)               // the reply is in the local file
    | Broken(md5: Digest)               // the connection failed while own was in transfer
    | Finished                          // own is marked Ok
    | Drained                           // left: nothing was claimable
    | Stopped                           // left: the kill flag was set
    | Failed                            // left after marking own Error
    | Dead(holding: bool)               // killed, possibly with own still marked Download and
                                        // part of its reply written

  datatype Worker = Worker(phase: Phase, own: nat)

  datatype State = State(table: Table, file: bytes, kill: nat, workers: seq<Worker>, log: seq<nat>)

  datatype Event =
    | Claim(w: nat) | Drain(w: nat) | Receive(w: nat) | Break(w: nat, md5: Digest) | Store(w: nat)
    | Complete(w: nat) | Continue(w: nat) | Die(w: nat, part: nat) | Interrupt

  predicate Live(p: Phase) {
    p.Ready? || p.Claimed? || p.Received? || p.Stored? || p.Broken? || p.Finished?
  }

  // The worker's chunk is marked Download on its account.
  predicate Holds(x: Worker) {
    x.phase.Claimed? || x.phase.Received? || x.phase.Stored? || x.phase.Broken? || x.phase == Dead(true)
  }

  // The worker answers for its chunk: it holds it, or has given it up with an error.
  predicate Answers(x: Worker) { Holds(x) || x.phase.Failed? }

  predicate Enabled(c: Config, s: State, e: Event) {
    match e
    case Claim(w) => w < |s.workers| && s.workers[w].phase.Ready? && NextPending(s.table) >= 0
    case Drain(w) => w < |s.workers| && s.workers[w].phase.Ready? && NextPending(s.table) == -1
    case Receive(w) =>
      w < |s.workers| && s.workers[w].phase.Claimed? && ValidConfig(c) && s.workers[w].own < ChunkCount(c)
    case Break(w, m) => w < |s.workers| && s.workers[w].phase.Claimed?
    case Store(w) => w < |s.workers| && s.workers[w].phase.Received?
    case Complete(w) =>
      && w < |s.workers| && (s.workers[w].phase.Stored? || s.workers[w].phase.Broken?)
      && s.workers[w].own < |s.table|
    case Continue(w) => w < |s.workers| && s.workers[w].phase.Finished?
    case Die(w, part) => w < |s.workers| && Live(s.workers[w].phase)
    case Interrupt => true
  }

  function Move(s: State, w: nat, p: Phase): State
    requires w < |s.workers|
  {
    s.(workers := s.workers[w := s.workers[w].(phase := p)])
  }

  function Step(c: Config, s: State, e: Event): State
    requires Enabled(c, s, e)
  {
    match e
    case Claim(w) =>
      NextPendingIs(s.table);
      var k := NextPending(s.table);
      s.(table := SetStatus(s.table, k, Download, None), workers := s.workers[w := Worker(Claimed, k)],
         log := s.log + [k])
    case Drain(w) => Move(s, w, Drained)
    case Receive(w) =>
      var data := Reply(c, s.workers[w].own);
      Move(s, w, Received(c.md5(data), data))
    case Break(w, m) => Move(s, w, Broken(m))
    case Store(w) =>
      var x := s.workers[w];
      Move(s, w, Stored(x.phase.md5)).(file := WriteAt(s.file, c.chunkSize * x.own, x.phase.data))
    case Complete(w) =>
      var x := s.workers[w];
      if x.phase.Stored? then
        Move(s, w, Finished).(table := SetStatus(s.table, x.own, Ok, Some(x.phase.md5)))
      else
        Move(s, w, Failed).(table := SetStatus(s.table, x.own, Error, Some(x.phase.md5)))
    case Continue(w) => Move(s, w, if s.kill == 0 then Ready else Stopped)
    case Die(w, part) =>
      var x := s.workers[w];
      Move(s, w, Dead(Holds(x))).(file :=
        if x.phase.Received? then
          WriteAt(s.file, c.chunkSize * x.own, x.phase.data[..Min(part, |x.phase.data|)])
        else s.file)
    case Interrupt => s.(kill := s.kill + 1)
  }

  ghost predicate ValidRun(c: Config, s: State, es: seq<Event>)
    decreases |es|, 0
  {
    es != [] ==>
      ValidRun(c, s, es[..|es| - 1]) && Enabled(c, Run(c, s, es[..|es| - 1]), es[|es| - 1])
  }

  ghost function Run(c: Config, s: State, es: seq<Event>): State
    requires ValidRun(c, s, es)
    decreases |es|, 1
  {
    if es == [] then s else Step(c, Run(c, s, es[..|es| - 1]), es[|es| - 1])
  }

  function Start(t: Table, file: bytes, n: nat): State {
    State(t, file, 0, seq(n, _ => Worker(Ready, 0)), [])
  }

  // ---- ownership -----------------------------------------------------------

  ghost predicate Owned(s: State, i: nat) {
    exists w: nat :: w < |s.workers| && Holds(s.workers[w]) && s.workers[w].own == i
  }

  ghost predicate AnsweredFor(s: State, i: nat) {
    exists w: nat :: w < |s.workers| && Answers(s.workers[w]) && s.workers[w].own == i
  }

  // Relative to the table t0 the run began with:
  //  - sizes never change, and a chunk not claimable at the start is never touched;
  //  - a worker's chunk was claimable at the start, and is Download while the worker holds it;
  //  - no two workers, live or dead, hold the same chunk;
  //  - a chunk is Download only if it was so at the start or some worker holds it.
  ghost predicate Ownership(t0: Table, s: State) {
    && |s.table| == |t0|
    && (forall i :: 0 <= i < |t0| ==> s.table[i].size == t0[i].size)
    && (forall i :: 0 <= i < |t0| && !Claimable(t0[i]) ==> s.table[i] == t0[i])
    && (forall w :: 0 <= w < |s.workers| && Answers(s.workers[w]) ==>
          s.workers[w].own < |t0| && Claimable(t0[s.workers[w].own]))
    && (forall w :: 0 <= w < |s.workers| && Holds(s.workers[w]) ==>
          s.table[s.workers[w].own].status == Download)
    && (forall v, w :: 0 <= v < w < |s.workers| && Holds(s.workers[v]) && Holds(s.workers[w]) ==>
          s.workers[v].own != s.workers[w].own)
    && (forall i :: 0 <= i < |t0| && s.table[i].status == Download && Claimable(t0[i]) ==> Owned(s, i))
    && (forall i :: 0 <= i < |t0| && Claimable(t0[i]) ==> s.table[i].status != Upload)
  }

  // Moving one worker to a phase with the same hold keeps every owner.
  lemma SameOwners(s: State, s': State, w: nat)
    requires w < |s.workers| && |s'.workers| == |s.workers|
    requires forall v :: 0 <= v < |s.workers| && v != w ==> s'.workers[v] == s.workers[v]
    requires Holds(s.workers[w]) ==> Holds(s'.workers[w]) && s'.workers[w].own == s.workers[w].own
    ensures forall i: nat :: Owned(s, i) ==> Owned(s', i)
  {
    forall i: nat | Owned(s, i)
      ensures Owned(s', i)
    {
      var v: nat :| v < |s.workers| && Holds(s.workers[v]) && s.workers[v].own == i;
      assert Holds(s'.workers[v]) && s'.workers[v].own == i;
    }
  }

  lemma OwnershipStart(t0: Table, file: bytes, n: nat)
    requires forall i :: 0 <= i < |t0| && Claimable(t0[i]) ==> t0[i].status != Download && t0[i].status != Upload
    ensures Ownership(t0, Start(t0, file, n))
  {
  }

  lemma OwnershipStep(c: Config, t0: Table, s: State, e: Event)
    requires Ownership(t0, s) && Enabled(c, s, e)
    ensures Ownership(t0, Step(c, s, e))
  {
    match e
    case Claim(w) => OwnershipClaim(c, t0, s, w);
    case Complete(w) => OwnershipComplete(c, t0, s, w);
    case Interrupt => OwnershipSame(t0, s, Step(c, s, e));
    case _ => OwnershipMove(t0, s, Step(c, s, e), e.w);
  }

  lemma OwnershipSame(t0: Table, s: State, s': State)
    requires Ownership(t0, s) && s'.table == s.table && s'.workers == s.workers
    ensures Ownership(t0, s')
  {
    forall i: nat | Owned(s, i)
      ensures Owned(s', i)
    {
    }
  }

  // A worker changes phase; the table and its hold stay.
  lemma OwnershipMove(t0: Table, s: State, s': State, w: nat)
    requires Ownership(t0, s) && w < |s.workers|
    requires s'.table == s.table && |s'.workers| == |s.workers| && s'.workers == s.workers[w := s'.workers[w]]
    requires Holds(s'.workers[w]) == Holds(s.workers[w]) && s'.workers[w].own == s.workers[w].own
    requires !s'.workers[w].phase.Failed?
    ensures Ownership(t0, s')
  {
    SameOwners(s, s', w);
  }

  lemma OwnershipClaim(c: Config, t0: Table, s: State, w: nat)
    requires Ownership(t0, s) && Enabled(c, s, Claim(w))
    ensures Ownership(t0, Step(c, s, Claim(w)))
  {
    var s' := Step(c, s, Claim(w));
    var k: nat := NextPending(s.table);
    NextPendingIs(s.table);
    SameOwners(s, s', w);
    assert Holds(s'.workers[w]) && s'.workers[w].own == k;
    assert Owned(s', k);
    forall i: nat | i < |t0| && s'.table[i].status == Download && Claimable(t0[i])
      ensures Owned(s', i)
    {
      if i != k { assert Owned(s, i); }
    }
  }

  lemma OwnershipComplete(c: Config, t0: Table, s: State, w: nat)
    requires Ownership(t0, s) && Enabled(c, s, Complete(w))
    ensures Ownership(t0, Step(c, s, Complete(w)))
  {
    var s' := Step(c, s, Complete(w));
    forall i: nat | i < |t0| && s'.table[i].status == Download && Claimable(t0[i])
      ensures Owned(s', i)
    {
      var v: nat :| v < |s.workers| && Holds(s.workers[v]) && s.workers[v].own == i;
      assert v != w && s'.workers[v] == s.workers[v];
    }
  }

  // CH_OK is never revoked within a run, whatever happens to the workers.
  lemma OkStays(c: Config, t0: Table, s: State, e: Event, i: nat)
    requires Ownership(t0, s) && Enabled(c, s, e)
    requires i < |s.table| && s.table[i].status == Ok
    ensures Step(c, s, e).table[i] == s.table[i]
  {
    if e.Claim? { NextPendingIs(s.table); }
  }

  // ---- contents ------------------------------------------------------------

  // The local file holds, at chunk i's place, what the server sends for chunk i.
  ghost predicate Written(c: Config, file: bytes, i: nat)
    requires ValidConfig(c) && i < ChunkCount(c)
  {
    ReadAt(file, c.chunkSize * i, |Reply(c, i)|) == Reply(c, i)
  }

  ghost predicate GoodTable(c: Config, t: Table, file: bytes)
    requires ValidConfig(c)
  {
    && |t| == ChunkCount(c)
    && forall i :: 0 <= i < |t| && t[i].status == Ok ==>
         Written(c, file, i) && t[i].md5 == c.md5(Reply(c, i))
  }

  ghost predicate Carries(c: Config, file: bytes, x: Worker)
    requires ValidConfig(c)
  {
    match x.phase
    case Received(m, d) => x.own < ChunkCount(c) && d == Reply(c, x.own) && m == c.md5(d)
    case Stored(m) => x.own < ChunkCount(c) && Written(c, file, x.own) && m == c.md5(Reply(c, x.own))
    case _ => true
  }

  ghost predicate Contents(c: Config, s: State)
    requires ValidConfig(c)
  {
    && GoodTable(c, s.table, s.file)
    && forall w :: 0 <= w < |s.workers| ==> Carries(c, s.file, s.workers[w])
  }

  // Writing no more than a chunk's worth at chunk i's place leaves every other chunk.
  lemma WriteKeeps(c: Config, file: bytes, i: nat, data: bytes, j: nat)
    requires ValidConfig(c) && i < ChunkCount(c) && j < ChunkCount(c) && i != j
    requires |data| <= c.chunkSize
    ensures Written(c, file, j) ==> Written(c, WriteAt(file, c.chunkSize * i, data), j)
  {
    if Written(c, file, j) {
      ReplyLength(c, j);
      if i < j { Apart(c.chunkSize, i, j); } else { Apart(c.chunkSize, j, i); }
      ReadFrame(file, c.chunkSize * i, data, c.chunkSize * j, Reply(c, j));
    }
  }

  lemma ContentsStep(c: Config, t0: Table, s: State, e: Event)
    requires ValidConfig(c) && Ownership(t0, s) && Enabled(c, s, e)
    requires Contents(c, s)
    ensures Contents(c, Step(c, s, e))
  {
    match e
    case Claim(w) => ContentsClaim(c, s, w);
    case Complete(w) => ContentsComplete(c, s, w);
    case Store(w) => ContentsStore(c, t0, s, w);
    case Die(w, part) => ContentsDie(c, t0, s, w, part);
    case Interrupt =>
    case _ => ContentsMove(c, s, Step(c, s, e), e.w);
  }

  // A worker changes phase; table and file stay.
  lemma ContentsMove(c: Config, s: State, s': State, w: nat)
    requires ValidConfig(c) && Contents(c, s) && s'.table == s.table && s'.file == s.file
    requires w < |s.workers| == |s'.workers| && s'.workers == s.workers[w := s'.workers[w]]
    requires Carries(c, s.file, s'.workers[w])
    ensures Contents(c, s')
  {
    forall v | 0 <= v < |s.workers|
      ensures Carries(c, s'.file, s'.workers[v])
    {
      if v != w { assert Carries(c, s.file, s.workers[v]); }
    }
  }

  lemma ContentsClaim(c: Config, s: State, w: nat)
    requires ValidConfig(c) && Contents(c, s) && Enabled(c, s, Claim(w))
    ensures Contents(c, Step(c, s, Claim(w)))
  {
    NextPendingIs(s.table);
    var s' := Step(c, s, Claim(w));
    ContentsMove(c, s, s'.(table := s.table), w);
  }

  lemma ContentsComplete(c: Config, s: State, w: nat)
    requires ValidConfig(c) && Contents(c, s) && Enabled(c, s, Complete(w))
    ensures Contents(c, Step(c, s, Complete(w)))
  {
    assert Carries(c, s.file, s.workers[w]);
    var s' := Step(c, s, Complete(w));
    ContentsMove(c, s, s'.(table := s.table), w);
  }

  lemma ContentsStore(c: Config, t0: Table, s: State, w: nat)
    requires ValidConfig(c) && Ownership(t0, s) && Contents(c, s) && Enabled(c, s, Store(w))
    ensures Contents(c, Step(c, s, Store(w)))
  {
    assert Carries(c, s.file, s.workers[w]);
    ReplyLength(c, s.workers[w].own);
    ContentsWrite(c, t0, s, w, Step(c, s, Store(w)), s.workers[w].phase.data);
  }

  lemma ContentsDie(c: Config, t0: Table, s: State, w: nat, part: nat)
    requires ValidConfig(c) && Ownership(t0, s) && Contents(c, s) && Enabled(c, s, Die(w, part))
    ensures Contents(c, Step(c, s, Die(w, part)))
  {
    var s' := Step(c, s, Die(w, part));
    if s.workers[w].phase.Received? {
      var data := s.workers[w].phase.data;
      assert Carries(c, s.file, s.workers[w]);
      ReplyLength(c, s.workers[w].own);
      ContentsWrite(c, t0, s, w, s', data[..Min(part, |data|)]);
    } else {
      ContentsMove(c, s, s', w);
    }
  }

  // A worker writes at its own chunk: no chunk marked Ok, and no other worker's, is affected.
  lemma ContentsWrite(c: Config, t0: Table, s: State, w: nat, s': State, data: bytes)
    requires ValidConfig(c) && Ownership(t0, s) && Contents(c, s)
    requires w < |s.workers| && s.workers[w].phase.Received? && s.workers[w].own < ChunkCount(c)
    requires |data| <= c.chunkSize
    requires |s'.workers| == |s.workers| && s'.workers == s.workers[w := s'.workers[w]]
    requires s'.table == s.table && s'.file == WriteAt(s.file, c.chunkSize * s.workers[w].own, data)
    requires Carries(c, s'.file, s'.workers[w]) ||
      (s'.workers[w].phase.Stored? && s'.workers[w].own == s.workers[w].own && data == Reply(c, s.workers[w].own)
       && s'.workers[w].phase.md5 == c.md5(data))
    ensures Contents(c, s')
  {
    var k := s.workers[w].own;
    forall i | 0 <= i < |s.table| && s.table[i].status == Ok
      ensures Written(c, s'.file, i)
    {
      assert Holds(s.workers[w]) && i != k;
      WriteKeeps(c, s.file, k, data, i);
    }
    forall v | 0 <= v < |s.workers|
      ensures Carries(c, s'.file, s'.workers[v])
    {
      if v == w {
        WriteThenRead(s.file, c.chunkSize * k, data);
      } else {
        assert Carries(c, s.file, s.workers[v]);
        if s.workers[v].phase.Stored? {
          assert Holds(s.workers[v]) && Holds(s.workers[w]) && s.workers[v].own != k;
          WriteKeeps(c, s.file, k, data, s.workers[v].own);
        }
      }
    }
  }

  // ---- accounting ----------------------------------------------------------

  predicate IsOk(info: ChunkInfo) { info.status == Ok }

  // Every claim so far is a chunk newly made Ok, or is still answered for by a worker.
  ghost predicate Accounting(t0: Table, s: State) {
    |s.log| + CountIf(t0, IsOk) == CountIf(s.table, IsOk) + CountIf(s.workers, Answers)
  }

  lemma AccountingStep(c: Config, t0: Table, s: State, e: Event)
    requires Ownership(t0, s) && Enabled(c, s, e) && Accounting(t0, s)
    ensures Accounting(t0, Step(c, s, e))
  {
    match e
    case Claim(w) => AccountingClaim(c, t0, s, w);
    case Complete(w) => AccountingComplete(c, t0, s, w);
    case Interrupt =>
    case _ => AccountingMove(t0, s, Step(c, s, e), e.w);
  }

  lemma AccountingMove(t0: Table, s: State, s': State, w: nat)
    requires Accounting(t0, s) && s'.table == s.table && s'.log == s.log
    requires w < |s.workers| == |s'.workers| && s'.workers == s.workers[w := s'.workers[w]]
    requires Answers(s.workers[w]) == Answers(s'.workers[w])
    ensures Accounting(t0, s')
  {
    CountUpdate(s.workers, Answers, w, s'.workers[w]);
  }

  lemma AccountingClaim(c: Config, t0: Table, s: State, w: nat)
    requires Enabled(c, s, Claim(w)) && Accounting(t0, s)
    ensures Accounting(t0, Step(c, s, Claim(w)))
  {
    var s' := Step(c, s, Claim(w));
    NextPendingIs(s.table);
    var k := NextPending(s.table);
    CountUpdate(s.workers, Answers, w, s'.workers[w]);
    CountUpdate(s.table, IsOk, k, s'.table[k]);
  }

  lemma AccountingComplete(c: Config, t0: Table, s: State, w: nat)
    requires Ownership(t0, s) && Enabled(c, s, Complete(w)) && Accounting(t0, s)
    ensures Accounting(t0, Step(c, s, Complete(w)))
  {
    var s' := Step(c, s, Complete(w));
    var k := s.workers[w].own;
    assert Holds(s.workers[w]) && !IsOk(s.table[k]);
    CountUpdate(s.workers, Answers, w, s'.workers[w]);
    CountUpdate(s.table, IsOk, k, s'.table[k]);
  }

  // ---- nothing left behind -------------------------------------------------

  // Once some worker has found nothing to claim, every chunk that is not Ok is answered for.
  ghost predicate Exhausted(t0: Table, s: State)
    requires |s.table| == |t0|
  {
    (exists w :: 0 <= w < |s.workers| && s.workers[w].phase.Drained?) ==>
      forall i: nat :: i < |t0| && Claimable(t0[i]) && s.table[i].status != Ok ==> AnsweredFor(s, i)
  }

  lemma ExhaustedStep(c: Config, t0: Table, s: State, e: Event)
    requires Ownership(t0, s) && Enabled(c, s, e) && Exhausted(t0, s)
    ensures |Step(c, s, e).table| == |t0| && Exhausted(t0, Step(c, s, e))
  {
    var s' := Step(c, s, e);
    if exists w :: 0 <= w < |s'.workers| && s'.workers[w].phase.Drained? {
      if !e.Drain? {
        var w :| 0 <= w < |s'.workers| && s'.workers[w].phase.Drained?;
        assert s.workers[w].phase.Drained?;
      }
      forall i: nat | i < |t0| && Claimable(t0[i]) && s'.table[i].status != Ok
        ensures AnsweredFor(s', i)
      {
        if e.Drain? {
          AnswerFound(c, t0, s, e.w, i);
        } else {
          if s.table[i].status == Ok { OkStays(c, t0, s, e, i); }
          AnswerKept(c, s, e, i);
        }
      }
    }
  }

  // When nothing is claimable, what is not Ok is in some worker's hands.
  lemma AnswerFound(c: Config, t0: Table, s: State, w: nat, i: nat)
    requires Ownership(t0, s) && Enabled(c, s, Drain(w))
    requires i < |t0| && Claimable(t0[i]) && s.table[i].status != Ok
    ensures AnsweredFor(Step(c, s, Drain(w)), i)
  {
    var s' := Step(c, s, Drain(w));
    NextPendingIs(s.table);
    assert Owned(s, i);
    var v: nat :| v < |s.workers| && Holds(s.workers[v]) && s.workers[v].own == i;
    assert Answers(s'.workers[v]) && s'.workers[v].own == i;
  }

  // A worker answers for its chunk until it has made it Ok.
  lemma AnswerKept(c: Config, s: State, e: Event, i: nat)
    requires Enabled(c, s, e) && AnsweredFor(s, i)
    requires i < |Step(c, s, e).table| && Step(c, s, e).table[i].status != Ok
    ensures AnsweredFor(Step(c, s, e), i)
  {
    var s' := Step(c, s, e);
    var v: nat :| v < |s.workers| && Answers(s.workers[v]) && s.workers[v].own == i;
    assert Answers(s'.workers[v]) && s'.workers[v].own == i;
  }

  // ---- what was claimed ----------------------------------------------------

  ghost predicate Clean(s: State) {
    forall w :: 0 <= w < |s.workers| ==>
      !s.workers[w].phase.Broken? && !s.workers[w].phase.Failed? && !s.workers[w].phase.Dead?
  }

  ghost predicate NoRepeats(log: seq<nat>) {
    forall j, k :: 0 <= j < k < |log| ==> log[j] != log[k]
  }

  // Only chunks claimable at the start are ever claimed, only claimed chunks change, and as
  // long as nothing has failed no chunk is claimed twice.
  ghost predicate Claims(t0: Table, s: State) {
    && |s.table| == |t0|
    && (forall j :: 0 <= j < |s.log| ==> s.log[j] < |t0| && Claimable(t0[s.log[j]]))
    && (forall i: nat :: i < |t0| && i !in s.log ==> s.table[i] == t0[i])
    && (Clean(s) ==> NoRepeats(s.log) && forall j :: 0 <= j < |s.log| ==> !Claimable(s.table[s.log[j]]))
    && (forall w :: 0 <= w < |s.workers| && Holds(s.workers[w]) ==> s.workers[w].own in s.log)
  }

  // Only the kill flag makes a worker stop between chunks.
  ghost predicate Stops(s: State) {
    s.kill == 0 ==> forall w :: 0 <= w < |s.workers| ==> !s.workers[w].phase.Stopped?
  }

  lemma StopsStep(c: Config, s: State, e: Event)
    requires Enabled(c, s, e) && Stops(s)
    ensures Stops(Step(c, s, e))
  {
  }

  lemma ClaimsStep(c: Config, t0: Table, s: State, e: Event)
    requires Ownership(t0, s) && Enabled(c, s, e) && Claims(t0, s)
    ensures Claims(t0, Step(c, s, e))
  {
    if Clean(Step(c, s, e)) { CleanBefore(c, s, e); }
    match e
    case Claim(w) => ClaimsClaim(c, t0, s, w);
    case Complete(w) => ClaimsComplete(c, t0, s, w);
    case Interrupt =>
    case _ => ClaimsMove(t0, s, Step(c, s, e), e.w);
  }

  // A worker changes phase, without gaining a chunk; table and log stay.
  lemma ClaimsMove(t0: Table, s: State, s': State, w: nat)
    requires Claims(t0, s) && s'.table == s.table && s'.log == s.log
    requires w < |s.workers| == |s'.workers| && s'.workers == s.workers[w := s'.workers[w]]
    requires Holds(s'.workers[w]) ==> Holds(s.workers[w]) && s'.workers[w].own == s.workers[w].own
    requires Clean(s') ==> Clean(s)
    ensures Claims(t0, s')
  {
  }

  lemma ClaimsComplete(c: Config, t0: Table, s: State, w: nat)
    requires Ownership(t0, s) && Enabled(c, s, Complete(w)) && Claims(t0, s)
    requires Clean(Step(c, s, Complete(w))) ==> Clean(s)
    ensures Claims(t0, Step(c, s, Complete(w)))
  {
    assert Holds(s.workers[w]) && s.workers[w].own in s.log;
    var s' := Step(c, s, Complete(w));
    ClaimsMove(t0, s, s'.(table := s.table), w);
    if Clean(s') { assert s'.workers[w].phase.Finished?; }
  }

  lemma CleanBefore(c: Config, s: State, e: Event)
    requires Enabled(c, s, e) && Clean(Step(c, s, e))
    ensures Clean(s)
  {
    var s' := Step(c, s, e);
    forall w | 0 <= w < |s.workers|
      ensures !s.workers[w].phase.Broken? && !s.workers[w].phase.Failed? && !s.workers[w].phase.Dead?
    {
      assert !s'.workers[w].phase.Broken? && !s'.workers[w].phase.Failed? && !s'.workers[w].phase.Dead?;
    }
  }

  lemma ClaimsClaim(c: Config, t0: Table, s: State, w: nat)
    requires Ownership(t0, s) && Enabled(c, s, Claim(w)) && Claims(t0, s)
    requires Clean(Step(c, s, Claim(w))) ==> Clean(s)
    ensures Claims(t0, Step(c, s, Claim(w)))
  {
    var s' := Step(c, s, Claim(w));
    var k: nat := NextPending(s.table);
    NextPendingIs(s.table);
    assert Claimable(t0[k]);
    assert s'.log[|s.log|] == k;
  }

  // ---- all of it, over every run -------------------------------------------

  ghost predicate Inv(c: Config, t0: Table, s: State)
    requires ValidConfig(c)
  {
    Ownership(t0, s) && Contents(c, s) && Accounting(t0, s) && Exhausted(t0, s) && Claims(t0, s) && Stops(s)
  }

  lemma InvStart(c: Config, t0: Table, file: bytes, n: nat)
    requires ValidConfig(c) && GoodTable(c, t0, file)
    ensures Inv(c, t0, Start(t0, file, n))
  {
    OwnershipStart(t0, file, n);
    CountNone(Start(t0, file, n).workers, Answers);
  }

  lemma {:induction false} InvRun(c: Config, t0: Table, s: State, es: seq<Event>)
    requires ValidConfig(c) && Inv(c, t0, s) && ValidRun(c, s, es)
    ensures Inv(c, t0, Run(c, s, es))
    decreases |es|
  {
    if es != [] {
      var p, e := es[..|es| - 1], es[|es| - 1];
      InvRun(c, t0, s, p);
      InvStep(c, t0, Run(c, s, p), e);
    }
  }

  lemma InvStep(c: Config, t0: Table, s: State, e: Event)
    requires ValidConfig(c) && Inv(c, t0, s) && Enabled(c, s, e)
    ensures Inv(c, t0, Step(c, s, e))
  {
    OwnershipStep(c, t0, s, e);
    ContentsStep(c, t0, s, e);
    AccountingStep(c, t0, s, e);
    ExhaustedStep(c, t0, s, e);
    ClaimsStep(c, t0, s, e);
    StopsStep(c, s, e);
  }

  // While the field can name every chunk, no write reaches beyond the source's length.
  lemma {:induction false} LengthRun(c: Config, t0: Table, s: State, es: seq<Event>)
    requires ValidConfig(c) && Inv(c, t0, s) && ValidRun(c, s, es)
    requires ChunkCount(c) <= FIELD_LIMIT
    ensures |Run(c, s, es).file| <= Max(|s.file|, |c.src|)
    decreases |es|
  {
    if es != [] {
      var p, e := es[..|es| - 1], es[|es| - 1];
      LengthRun(c, t0, s, p);
      InvRun(c, t0, s, p);
      LengthStep(c, Run(c, s, p), e);
    }
  }

  lemma LengthStep(c: Config, s: State, e: Event)
    requires ValidConfig(c) && Contents(c, s) && Enabled(c, s, e) && ChunkCount(c) <= FIELD_LIMIT
    ensures |Step(c, s, e).file| <= Max(|s.file|, |c.src|)
  {
    if e.Store? || (e.Die? && s.workers[e.w].phase.Received?) {
      assert Carries(c, s.file, s.workers[e.w]);
      ReplyLength(c, s.workers[e.w].own);
      ChunkBounds(|c.src|, c.chunkSize, s.workers[e.w].own);
    }
  }

  lemma {:induction false} OkForever(c: Config, t0: Table, s: State, es: seq<Event>, i: nat)
    requires ValidConfig(c) && Inv(c, t0, s) && ValidRun(c, s, es)
    requires i < |s.table| && s.table[i].status == Ok
    ensures i < |Run(c, s, es).table| && Run(c, s, es).table[i] == s.table[i]
    decreases |es|
  {
    if es != [] {
      var p, e := es[..|es| - 1], es[|es| - 1];
      OkForever(c, t0, s, p, i);
      InvRun(c, t0, s, p);
      OkStays(c, t0, Run(c, s, p), e, i);
    }
  }
}
