/** The upload as the code runs it. The worker loop is that of the download, but between forks
    the parent writes its own old copy of the chunk array over the file, without the lock: a
    finished chunk can become pending again and two workers can send the same chunk. */
module UploadWorkers {
  import opened Bytes
  import opened ChunkTable

  // The array in the parent's memory, never reloaded while it forks, and the number of workers.
  datatype Plan = Plan(stale: Table, n: nat)

  datatype Pc =
    | Lock1         // semaphore_get_lock
    | Load1         // LoadMetadata
    | Pick          // getNextPendingChunk and setChunkStatus(CH_UPLOAD)
    | Store1        // UpdateControlData
    | Release1      // semaphore_release_lock
    | Send          // read the chunk and write number, size and data to the socket
    | Lock2         // semaphore_get_lock
    | Load2         // LoadMetadata
    | Mark          // setChunkStatus(CH_OK); sock_error is never set
    | Store2        // UpdateControlData
    | Release2      // semaphore_release_lock
    | Test          // the while condition
    | ReleaseEmpty  // semaphore_release_lock when nothing is pending
    | Bye           // write -1 to the socket, break
    | ExitEmpty     // left by break
    | ExitLoop      // left by the while condition
    | Killed(at: Pc)

  // junk is snd_md5sum, which the code never fills; own remembers the chunk last claimed.
  datatype Worker = Worker(pc: Pc, mem: Table, chunk: int, own: nat, junk: Digest)

  // saved: the parent has written its array for the next worker and not forked it yet.
  // sent lists, in order, the chunks whose records have been written to a socket in full.
  datatype State = State(disk: Table, saved: bool, holder: Option<nat>, kill: nat,
                         workers: seq<Worker>, sent: seq<nat>)

  // Save and Fork are the parent's SaveMetadata and fork; the rest is as in a download.
  datatype Event = Save | Fork(junk: Digest) | Run(w: nat) | Die(w: nat) | Interrupt

  predicate Gone(pc: Pc) { pc.ExitEmpty? || pc.ExitLoop? || pc.Killed? }

  predicate InCs(pc: Pc) {
    pc.Load1? || pc.Pick? || pc.Store1? || pc.Release1? || pc.ReleaseEmpty?
    || pc.Load2? || pc.Mark? || pc.Store2? || pc.Release2?
  }

  predicate Blocked(s: State, pc: Pc) { (pc.Lock1? || pc.Lock2?) && s.holder != None }

  predicate InRange(x: Worker) {
    && (x.pc.Store1? || x.pc.Send? ==> 0 <= x.chunk)
    && (x.pc.Mark? ==> 0 <= x.chunk < |x.mem|)
  }

  predicate CanRun(s: State, w: nat) {
    w < |s.workers| && !Gone(s.workers[w].pc) && !Blocked(s, s.workers[w].pc) && InRange(s.workers[w])
  }

  predicate Enabled(p: Plan, s: State, e: Event) {
    match e
    case Save => |s.workers| < p.n && !s.saved
    case Fork(j) => |s.workers| < p.n && s.saved
    case Run(w) => CanRun(s, w)
    case Die(w) => w < |s.workers| && !Gone(s.workers[w].pc)
    case Interrupt => true
  }

  function Put(s: State, w: nat, x: Worker): State
    requires w < |s.workers|
  {
    s.(workers := s.workers[w := x])
  }

  function RunStep(s: State, w: nat): State
    requires CanRun(s, w)
  {
    var x := s.workers[w];
    match x.pc
    case Lock1 => Put(s, w, x.(pc := Load1)).(holder := Some(w))
    case Load1 => Put(s, w, x.(pc := Pick, mem := s.disk))
    case Pick =>
      NextPendingIs(x.mem);
      var k := NextPending(x.mem);
      if k == -1 then Put(s, w, x.(pc := ReleaseEmpty, chunk := -1))
      else Put(s, w, x.(pc := Store1, chunk := k, mem := SetStatus(x.mem, k, Upload, None)))
    case Store1 => Put(s, w, x.(pc := Release1, own := x.chunk)).(disk := x.mem)
    case Release1 => Put(s, w, x.(pc := Send)).(holder := None)
    case Send => Put(s, w, x.(pc := Lock2)).(sent := s.sent + [x.chunk])
    case Lock2 => Put(s, w, x.(pc := Load2)).(holder := Some(w))
    case Load2 => Put(s, w, x.(pc := Mark, mem := s.disk))
    case Mark => Put(s, w, x.(pc := Store2, mem := SetStatus(x.mem, x.chunk, Ok, Some(x.junk))))
    case Store2 => Put(s, w, x.(pc := Release2)).(disk := x.mem)
    case Release2 => Put(s, w, x.(pc := Test)).(holder := None)
    case Test => Put(s, w, x.(pc := if x.chunk != -1 && s.kill == 0 then Lock1 else ExitLoop))
    case ReleaseEmpty => Put(s, w, x.(pc := Bye)).(holder := None)
    case Bye => Put(s, w, x.(pc := ExitEmpty))
  }

  function Step(p: Plan, s: State, e: Event): State
    requires Enabled(p, s, e)
  {
    match e
    case Save => s.(disk := p.stale, saved := true)
    case Fork(j) => s.(workers := s.workers + [Worker(Lock1, [], -1, 0, j)], saved := false)
    case Run(w) => RunStep(s, w)
    case Die(w) =>
      Put(s, w, s.workers[w].(pc := Killed(s.workers[w].pc))).(
        holder := if s.holder == Some(w) then None else s.holder)  // SEM_UNDO
    case Interrupt => s.(kill := s.kill + 1)
  }

  ghost predicate ValidRun(p: Plan, s: State, es: seq<Event>)
    decreases |es|, 0
  {
    es != [] ==>
      ValidRun(p, s, es[..|es| - 1]) && Enabled(p, RunOf(p, s, es[..|es| - 1]), es[|es| - 1])
  }

  ghost function RunOf(p: Plan, s: State, es: seq<Event>): State
    requires ValidRun(p, s, es)
    decreases |es|, 1
  {
    if es == [] then s else Step(p, RunOf(p, s, es[..|es| - 1]), es[|es| - 1])
  }

  // The file has been created or loaded; the parent holds the same array.
  function Start(p: Plan): State { State(p.stale, false, None, 0, [], []) }

  // ---- the invariant -------------------------------------------------------

  predicate InTransfer(pc: Pc) {
    pc.Release1? || pc.Send? || pc.Lock2? || pc.Load2? || pc.Mark? || pc.Store2?
  }

  predicate HasChunk(x: Worker) { InTransfer(x.pc) || (x.pc.Killed? && InTransfer(x.pc.at)) }

  // Some worker, alive or dead, has chunk i in transfer.
  ghost predicate Held(ws: seq<Worker>, i: nat) {
    exists w: nat :: w < |ws| && HasChunk(ws[w]) && ws[w].own == i
  }

  // What any copy of the array may say, in the file or in a worker's memory, with `but` the
  // one chunk its worker has just marked for itself: finished chunks were finished at the
  // start or have been sent, what was not open at the start is as it was, and a chunk that was
  // open is in transfer only by someone.
  ghost predicate Credible(p: Plan, t: Table, ws: seq<Worker>, sent: seq<nat>, but: int) {
    && |t| == |p.stale|
    && (forall i: nat :: i < |t| && t[i].status == Ok ==> p.stale[i].status == Ok || i in sent)
    && (forall i: nat :: i < |t| && !Claimable(p.stale[i]) ==> t[i] == p.stale[i])
    && (forall i: nat :: i < |t| && i != but && t[i].status == Upload && Claimable(p.stale[i]) ==> Held(ws, i))
    && (forall i: nat :: i < |t| && Claimable(p.stale[i]) ==> t[i].status != Download)
    && (forall i: nat :: i < |t| ==> t[i].size == p.stale[i].size)
  }

  // Nothing is claimable in a copy unless it is claimable in the file.
  ghost predicate NoneNew(t: Table, disk: Table, but: int) {
    |t| == |disk| && forall i :: 0 <= i < |t| && i != but && Claimable(t[i]) ==> Claimable(disk[i])
  }

  ghost predicate Local(p: Plan, s: State, x: Worker) {
    match x.pc
    case Pick => Credible(p, x.mem, s.workers, s.sent, -1) && NoneNew(x.mem, s.disk, -1)
    case Store1 =>
      && 0 <= x.chunk < |p.stale| && Claimable(p.stale[x.chunk])
      && Credible(p, x.mem, s.workers, s.sent, x.chunk) && NoneNew(x.mem, s.disk, -1)
      && x.mem[x.chunk].status == Upload && |s.disk| == |p.stale| && Claimable(s.disk[x.chunk])
    case Release1 => x.chunk == x.own < |p.stale| && Claimable(p.stale[x.own])
    case Send => x.chunk == x.own < |p.stale| && Claimable(p.stale[x.own])
    case Lock2 => x.chunk == x.own < |p.stale| && x.own in s.sent
      && Claimable(p.stale[x.own])
    case Load2 => x.chunk == x.own < |p.stale| && x.own in s.sent
      && Claimable(p.stale[x.own])
    case Mark => x.chunk == x.own < |p.stale| && x.own in s.sent
      && Claimable(p.stale[x.own])
      && Credible(p, x.mem, s.workers, s.sent, -1) && NoneNew(x.mem, s.disk, -1)
    case Store2 => x.chunk == x.own < |p.stale| && x.own in s.sent
      && Credible(p, x.mem, s.workers, s.sent, -1) && NoneNew(x.mem, s.disk, -1)
      && x.mem[x.own].status == Ok && x.mem[x.own].md5 == x.junk
    case Release2 => x.chunk == x.own
    case Test => x.chunk == x.own
    case Killed(at) => !at.Killed? && (InTransfer(at) ==> x.own < |p.stale|)
    case _ => true
  }

  ghost predicate Inv(p: Plan, s: State) {
    && |s.workers| <= p.n && (s.saved ==> |s.workers| < p.n)
    && (s.holder.Some? ==> s.holder.value < |s.workers|)
    && (forall w :: 0 <= w < |s.workers| ==> (InCs(s.workers[w].pc) <==> s.holder == Some(w)))
    && Credible(p, s.disk, s.workers, s.sent, -1)
    && (forall i :: 0 <= i < |s.sent| ==> s.sent[i] < |p.stale| && Claimable(p.stale[s.sent[i]]))
    && (forall w :: 0 <= w < |s.workers| ==> Local(p, s, s.workers[w]))
  }

  lemma InvStart(p: Plan)
    ensures Inv(p, Start(p))
  {
  }

  // A copy stays credible while every chunk it shows in transfer keeps its holder and the
  // list of sent chunks only grows.
  lemma CredibleStays(p: Plan, t: Table, ws: seq<Worker>, sent: seq<nat>, ws': seq<Worker>, sent': seq<nat>, but: int)
    requires Credible(p, t, ws, sent, but) && sent <= sent'
    requires forall i: nat :: i < |t| && t[i].status == Upload && Held(ws, i) ==> Held(ws', i)
    ensures Credible(p, t, ws', sent', but)
  {
    forall i: nat | i in sent
      ensures i in sent'
    {
      var k :| 0 <= k < |sent| && sent[k] == i;
      assert sent'[k] == i;
    }
  }

  lemma HeldMove(ws: seq<Worker>, w: nat, x: Worker, i: nat)
    requires w < |ws| && Held(ws, i)
    requires HasChunk(ws[w]) && ws[w].own == i ==> HasChunk(x) && x.own == i
    ensures Held(ws[w := x], i)
  {
    var v: nat :| v < |ws| && HasChunk(ws[v]) && ws[v].own == i;
    assert HasChunk(ws[w := x][v]) && ws[w := x][v].own == i;
  }

  lemma HeldAppend(ws: seq<Worker>, x: Worker, i: nat)
    requires Held(ws, i)
    ensures Held(ws + [x], i)
  {
    var v: nat :| v < |ws| && HasChunk(ws[v]) && ws[v].own == i;
    assert HasChunk((ws + [x])[v]) && (ws + [x])[v].own == i;
  }

  // The parent overwrites the file: every copy in a worker's hands stays as credible as it was.
  lemma InvSave(p: Plan, s: State)
    requires Inv(p, s) && Enabled(p, s, Save)
    ensures Inv(p, Step(p, s, Save))
  {
    var s' := Step(p, s, Save);
    forall w | 0 <= w < |s.workers|
      ensures Local(p, s', s'.workers[w])
    {
      assert Local(p, s, s.workers[w]);
    }
  }

  lemma InvFork(p: Plan, s: State, j: Digest)
    requires Inv(p, s) && Enabled(p, s, Fork(j))
    ensures Inv(p, Step(p, s, Fork(j)))
  {
    var s' := Step(p, s, Fork(j));
    var x := Worker(Lock1, [], -1, 0, j);
    forall i: nat | Held(s.workers, i)
      ensures Held(s'.workers, i)
    {
      HeldAppend(s.workers, x, i);
    }
    CredibleStays(p, s.disk, s.workers, s.sent, s'.workers, s'.sent, -1);
    forall w | 0 <= w < |s'.workers|
      ensures Local(p, s', s'.workers[w])
    {
      if w < |s.workers| {
        LocalStays(p, s, s', s.workers[w]);
      }
    }
  }

  // A worker that does not move keeps its part of the invariant as long as the file does not
  // change under a copy it holds and no chunk in such a copy loses its holder.
  lemma LocalStays(p: Plan, s: State, s': State, x: Worker)
    requires Local(p, s, x) && s.sent <= s'.sent
    requires InCs(x.pc) ==> s'.disk == s.disk
    requires InCs(x.pc) ==> forall i: nat :: Held(s.workers, i) ==> Held(s'.workers, i)
    ensures Local(p, s', x)
  {
    if x.pc.Pick? || x.pc.Mark? || x.pc.Store2? {
      CredibleStays(p, x.mem, s.workers, s.sent, s'.workers, s'.sent, -1);
    }
    if x.pc.Store1? {
      CredibleStays(p, x.mem, s.workers, s.sent, s'.workers, s'.sent, x.chunk);
    }
    forall i: nat | i in s.sent
      ensures i in s'.sent
    {
      var k :| 0 <= k < |s.sent| && s.sent[k] == i;
      assert s'.sent[k] == i;
    }
  }

  // One worker moves, the lock with it, and only a worker inside changes the disk or lets go
  // of a chunk.
  lemma InvMove(p: Plan, s: State, s': State, w: nat)
    requires Inv(p, s) && s'.saved == s.saved
    requires w < |s.workers| == |s'.workers| && s'.workers == s.workers[w := s'.workers[w]]
    requires s'.disk == s.disk || s.holder == Some(w)
    requires s.holder == Some(w)
      || (HasChunk(s.workers[w]) ==> HasChunk(s'.workers[w]) && s'.workers[w].own == s.workers[w].own)
    requires s'.holder == if InCs(s'.workers[w].pc) then Some(w) else if s.holder == Some(w) then None else s.holder
    requires InCs(s'.workers[w].pc) ==> s.holder == None || s.holder == Some(w)
    requires s.sent <= s'.sent
    requires forall i :: 0 <= i < |s'.sent| ==> s'.sent[i] < |p.stale| && Claimable(p.stale[s'.sent[i]])
    requires Credible(p, s'.disk, s'.workers, s'.sent, -1)
    requires Local(p, s', s'.workers[w])
    ensures Inv(p, s')
  {
    forall v | 0 <= v < |s'.workers|
      ensures Local(p, s', s'.workers[v]) && (InCs(s'.workers[v].pc) <==> s'.holder == Some(v))
    {
      if v != w {
        forall i: nat | InCs(s.workers[v].pc) && Held(s.workers, i)
          ensures Held(s'.workers, i)
        {
          HeldMove(s.workers, w, s'.workers[w], i);
        }
        LocalStays(p, s, s', s.workers[v]);
      }
    }
  }

  // What a statement leaves of its worker's own hold on a chunk.
  lemma HoldKept(s: State, w: nat)
    requires CanRun(s, w) && !s.workers[w].pc.Store2?
    requires !s.workers[w].pc.Killed?
    ensures HasChunk(s.workers[w]) ==>
      HasChunk(RunStep(s, w).workers[w]) && RunStep(s, w).workers[w].own == s.workers[w].own
    ensures RunStep(s, w).workers == s.workers[w := RunStep(s, w).workers[w]]
  {
  }

  lemma DiskKept(p: Plan, s: State, s': State, t: Table, w: nat, but: int)
    requires w < |s.workers| == |s'.workers| && s'.workers == s.workers[w := s'.workers[w]]
    requires HasChunk(s.workers[w]) ==> HasChunk(s'.workers[w]) && s'.workers[w].own == s.workers[w].own
    requires Credible(p, t, s.workers, s.sent, but) && s.sent <= s'.sent
    ensures Credible(p, t, s'.workers, s'.sent, but)
  {
    forall i: nat | Held(s.workers, i)
      ensures Held(s'.workers, i)
    {
      HeldMove(s.workers, w, s'.workers[w], i);
    }
    CredibleStays(p, t, s.workers, s.sent, s'.workers, s'.sent, but);
  }

  // The two writes of the array.
  lemma InvStore1(p: Plan, s: State, w: nat)
    requires Inv(p, s) && CanRun(s, w) && s.workers[w].pc.Store1?
    ensures Inv(p, RunStep(s, w))
  {
    var x, s' := s.workers[w], RunStep(s, w);
    assert Local(p, s, x);
    DiskKept(p, s, s', x.mem, w, x.chunk);
    assert HasChunk(s'.workers[w]) && s'.workers[w].own == x.chunk;
    assert Held(s'.workers, x.chunk);
    InvMove(p, s, s', w);
  }

  lemma InvStore2(p: Plan, s: State, w: nat)
    requires Inv(p, s) && CanRun(s, w) && s.workers[w].pc.Store2?
    ensures Inv(p, RunStep(s, w))
  {
    var x, s' := s.workers[w], RunStep(s, w);
    assert Local(p, s, x);
    forall i: nat | i < |x.mem| && x.mem[i].status == Upload && Held(s.workers, i)
      ensures Held(s'.workers, i)
    {
      HeldMove(s.workers, w, s'.workers[w], i);
    }
    CredibleStays(p, x.mem, s.workers, s.sent, s'.workers, s'.sent, -1);
    InvMove(p, s, s', w);
  }

  // Every other statement.
  lemma InvRun(p: Plan, s: State, w: nat)
    requires Inv(p, s) && CanRun(s, w) && !s.workers[w].pc.Store1? && !s.workers[w].pc.Store2?
    ensures Inv(p, RunStep(s, w))
  {
    assert Local(p, s, s.workers[w]);
    HoldKept(s, w);
    RunShared(p, s, w);
    DiskKept(p, s, RunStep(s, w), s.disk, w, -1);
    RunLocal(p, s, w);
    InvMove(p, s, RunStep(s, w), w);
  }

  lemma RunShared(p: Plan, s: State, w: nat)
    requires Inv(p, s) && CanRun(s, w) && !s.workers[w].pc.Store1? && !s.workers[w].pc.Store2?
    ensures var s' := RunStep(s, w);
      && s'.saved == s.saved && s'.disk == s.disk && s.sent <= s'.sent
      && s'.holder == (if InCs(s'.workers[w].pc) then Some(w) else if s.holder == Some(w) then None else s.holder)
      && (InCs(s'.workers[w].pc) ==> s.holder == None || s.holder == Some(w))
      && forall i :: 0 <= i < |s'.sent| ==> s'.sent[i] < |p.stale| && Claimable(p.stale[s'.sent[i]])
  {
    assert Local(p, s, s.workers[w]);
    assert InCs(s.workers[w].pc) <==> s.holder == Some(w);
  }

  lemma RunLocal(p: Plan, s: State, w: nat)
    requires Inv(p, s) && CanRun(s, w) && !s.workers[w].pc.Store1? && !s.workers[w].pc.Store2?
    requires Credible(p, s.disk, RunStep(s, w).workers, RunStep(s, w).sent, -1)
    ensures Local(p, RunStep(s, w), RunStep(s, w).workers[w])
  {
    var x, s' := s.workers[w], RunStep(s, w);
    assert Local(p, s, x);
    HoldKept(s, w);
    if x.pc.Pick? {
      DiskKept(p, s, s', x.mem, w, -1);
      PickLocal(p, s, s', w);
    } else if x.pc.Mark? {
      DiskKept(p, s, s', x.mem, w, -1);
      MarkLocal(p, s, s', w);
    } else if x.pc.Send? {
      assert s'.sent[|s.sent|] == x.own;
    }
  }

  lemma PickLocal(p: Plan, s: State, s': State, w: nat)
    requires Inv(p, s) && CanRun(s, w) && s.workers[w].pc.Pick? && s' == RunStep(s, w)
    requires Credible(p, s.workers[w].mem, s'.workers, s'.sent, -1)
    ensures Local(p, s', s'.workers[w])
  {
    assert Local(p, s, s.workers[w]);
    NextPendingIs(s.workers[w].mem);
  }

  lemma MarkLocal(p: Plan, s: State, s': State, w: nat)
    requires Inv(p, s) && CanRun(s, w) && s.workers[w].pc.Mark? && s' == RunStep(s, w)
    requires Credible(p, s.workers[w].mem, s'.workers, s'.sent, -1)
    ensures Local(p, s', s'.workers[w])
  {
    assert Local(p, s, s.workers[w]);
  }

  lemma InvDie(p: Plan, s: State, w: nat)
    requires Inv(p, s) && Enabled(p, s, Die(w))
    ensures Inv(p, Step(p, s, Die(w)))
  {
    var s' := Step(p, s, Die(w));
    assert Local(p, s, s.workers[w]);
    DiskKept(p, s, s', s.disk, w, -1);
    InvMove(p, s, s', w);
  }

  lemma InvStep(p: Plan, s: State, e: Event)
    requires Inv(p, s) && Enabled(p, s, e)
    ensures Inv(p, Step(p, s, e))
  {
    match e
    case Save => InvSave(p, s);
    case Fork(j) => InvFork(p, s, j);
    case Die(w) => InvDie(p, s, w);
    case Interrupt =>
      forall w | 0 <= w < |s.workers| ensures Local(p, Step(p, s, e), s.workers[w]) {
        assert Local(p, s, s.workers[w]);
        LocalStays(p, s, Step(p, s, e), s.workers[w]);
      }
    case Run(w) =>
      if s.workers[w].pc.Store1? {
        InvStore1(p, s, w);
      } else if s.workers[w].pc.Store2? {
        InvStore2(p, s, w);
      } else {
        InvRun(p, s, w);
      }
  }

  lemma {:induction false} InvAlways(p: Plan, es: seq<Event>)
    requires ValidRun(p, Start(p), es)
    ensures Inv(p, RunOf(p, Start(p), es))
    decreases |es|
  {
    InvStart(p);
    if es != [] {
      InvAlways(p, es[..|es| - 1]);
      InvStep(p, RunOf(p, Start(p), es[..|es| - 1]), es[|es| - 1]);
    }
  }
}
