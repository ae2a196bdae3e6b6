/** The download worker as the code runs it: lock, load the whole array, pick, set one cell,
    write the whole array back, unlock; any number of workers, any interleaving, death anywhere.
    The machine refines AtomicDownload. */
module DownloadWorkers {
  import opened Bytes
  import opened ChunkTable
  import opened Counting
  import A = AtomicDownload

  type Config = A.Config

  // Where a worker stands; the comments give the statement that runs next.
  datatype Pc =
    | Lock1         // semaphore_get_lock
    | Load1         // LoadMetadata
    | Pick          // getNextPendingChunk and setChunkStatus(CH_DOWNLOAD)
    | Store1        // UpdateControlData
    | Release1      // semaphore_release_lock
    | Fetch         // RequestChunk and the three so_read calls
    | Write         // lseek and write to the local file
    | Lock2         // semaphore_get_lock
    | Load2         // LoadMetadata
    | Mark          // setChunkStatus(CH_OK or CH_ERROR)
    | Store2        // UpdateControlData
    | Release2      // semaphore_release_lock
    | Test          // the while condition
    | ReleaseEmpty  // semaphore_release_lock before break
    | ExitEmpty     // left by break: nothing was pending
    | ExitLoop      // left by the while condition
    | Killed(at: Pc) // died at that point

  // mem, chunk, sockError, md5 and buf are the code's metadata_, chunkNumber, sock_error,
  // rcv_md5sum and rcv_buffer; own remembers the chunk last claimed, which the code forgets
  // when it sets chunkNumber to -1.
  datatype Worker = Worker(pc: Pc, mem: Table, chunk: int, sockError: bool, md5: Digest, buf: bytes, own: nat)

  // disk is the chunk array in the metadata file; log lists the claims in order.
  datatype State = State(disk: Table, holder: Option<nat>, kill: nat, file: bytes,
                         workers: seq<Worker>, log: seq<nat>)

  // Run: the worker's next statement. Break: a so_read came up short, leaving these bytes in
  // rcv_md5sum. Die: the process ends, having written `part` bytes if it was in write().
  datatype Event = Run(w: nat) | Break(w: nat, md5: Digest) | Die(w: nat, part: nat) | Interrupt

  predicate Gone(pc: Pc) { pc.ExitEmpty? || pc.ExitLoop? || pc.Killed? }

  predicate InCs(pc: Pc) {
    pc.Load1? || pc.Pick? || pc.Store1? || pc.Release1? || pc.ReleaseEmpty?
    || pc.Load2? || pc.Mark? || pc.Store2? || pc.Release2?
  }

  // semop blocks while another process holds the lock; nothing else blocks.
  predicate Blocked(s: State, pc: Pc) { (pc.Lock1? || pc.Lock2?) && s.holder != None }

  // The indices the statement uses are in range (Local below shows that they always are).
  predicate InRange(c: Config, x: Worker) {
    && (x.pc.Fetch? ==> A.ValidConfig(c) && 0 <= x.chunk < A.ChunkCount(c))
    && (x.pc.Write? ==> 0 <= x.chunk)
    && (x.pc.Store1? ==> 0 <= x.chunk)
    && (x.pc.Mark? ==> 0 <= x.chunk < |x.mem|)
  }

  predicate CanRun(c: Config, s: State, w: nat) {
    w < |s.workers| && !Gone(s.workers[w].pc) && !Blocked(s, s.workers[w].pc) && InRange(c, s.workers[w])
  }

  predicate Enabled(c: Config, s: State, e: Event) {
    match e
    case Run(w) => CanRun(c, s, w)
    case Break(w, m) => CanRun(c, s, w) && s.workers[w].pc.Fetch?
    case Die(w, part) => w < |s.workers| && !Gone(s.workers[w].pc)
      && (s.workers[w].pc.Write? ==> 0 <= s.workers[w].chunk)
    case Interrupt => true
  }

  function Put(s: State, w: nat, x: Worker): State
    requires w < |s.workers|
  {
    s.(workers := s.workers[w := x])
  }

  function RunStep(c: Config, s: State, w: nat): State
    requires CanRun(c, s, w)
  {
    var x := s.workers[w];
    match x.pc
    case Lock1 => Put(s, w, x.(pc := Load1)).(holder := Some(w))
    case Load1 => Put(s, w, x.(pc := Pick, mem := s.disk))
    case Pick =>
      NextPendingIs(x.mem);
      var k := NextPending(x.mem);
      if k == -1 then Put(s, w, x.(pc := ReleaseEmpty, chunk := -1))
      else Put(s, w, x.(pc := Store1, chunk := k, mem := SetStatus(x.mem, k, Download, None)))
    case Store1 =>
      Put(s, w, x.(pc := Release1, own := x.chunk)).(disk := x.mem, log := s.log + [x.chunk])
    case Release1 => Put(s, w, x.(pc := Fetch)).(holder := None)
    case Fetch =>
      var data := A.Reply(c, x.chunk);
      Put(s, w, x.(pc := Write, md5 := c.md5(data), buf := data))
    case Write => Put(s, w, x.(pc := Lock2)).(file := WriteAt(s.file, x.chunk * c.chunkSize, x.buf))
    case Lock2 => Put(s, w, x.(pc := Load2)).(holder := Some(w))
    case Load2 => Put(s, w, x.(pc := Mark, mem := s.disk))
    case Mark =>
      if x.sockError then
        Put(s, w, x.(pc := Store2, mem := SetStatus(x.mem, x.chunk, Error, Some(x.md5)), chunk := -1))
      else
        Put(s, w, x.(pc := Store2, mem := SetStatus(x.mem, x.chunk, Ok, Some(x.md5))))
    case Store2 => Put(s, w, x.(pc := Release2)).(disk := x.mem)
    case Release2 => Put(s, w, x.(pc := Test)).(holder := None)
    case Test => Put(s, w, x.(pc := if x.chunk != -1 && s.kill == 0 then Lock1 else ExitLoop))
    case ReleaseEmpty => Put(s, w, x.(pc := ExitEmpty)).(holder := None)
  }

  function Step(c: Config, s: State, e: Event): State
    requires Enabled(c, s, e)
  {
    match e
    case Run(w) => RunStep(c, s, w)
    case Break(w, m) => Put(s, w, s.workers[w].(pc := Lock2, sockError := true, md5 := m))
    case Die(w, part) =>
      var x := s.workers[w];
      Put(s, w, x.(pc := Killed(x.pc))).(
        holder := if s.holder == Some(w) then None else s.holder,  // SEM_UNDO
        file := if x.pc.Write? then WriteAt(s.file, x.chunk * c.chunkSize, x.buf[..Min(part, |x.buf|)]) else s.file)
    case Interrupt => s.(kill := s.kill + 1)
  }

  ghost predicate ValidRun(c: Config, s: State, es: seq<Event>)
    decreases |es|, 0
  {
    es != [] ==>
      ValidRun(c, s, es[..|es| - 1]) && Enabled(c, RunOf(c, s, es[..|es| - 1]), es[|es| - 1])
  }

  ghost function RunOf(c: Config, s: State, es: seq<Event>): State
    requires ValidRun(c, s, es)
    decreases |es|, 1
  {
    if es == [] then s else Step(c, RunOf(c, s, es[..|es| - 1]), es[|es| - 1])
  }

  function Fresh(): Worker { Worker(Lock1, [], -1, false, ZERO_DIGEST, [], 0) }

  // The parent has forked n workers and the kill flag is clear.
  function Start(disk: Table, file: bytes, n: nat): State {
    State(disk, None, 0, file, seq(n, _ => Fresh()), [])
  }

  // ---- the abstraction -----------------------------------------------------

  // The chunk is marked Download on disk on this worker's account.
  predicate InTransfer(pc: Pc) {
    pc.Release1? || pc.Fetch? || pc.Write? || pc.Lock2? || pc.Load2? || pc.Mark? || pc.Store2?
  }

  function PhaseOf(x: Worker): A.Phase {
    match x.pc
    case Lock1 => A.Ready
    case Load1 => A.Ready
    case Pick => A.Ready
    case Store1 => A.Ready
    case Release1 => A.Claimed
    case Fetch => A.Claimed
    case Write => A.Received(x.md5, x.buf)
    case Lock2 => if x.sockError then A.Broken(x.md5) else A.Stored(x.md5)
    case Load2 => if x.sockError then A.Broken(x.md5) else A.Stored(x.md5)
    case Mark => if x.sockError then A.Broken(x.md5) else A.Stored(x.md5)
    case Store2 => if x.sockError then A.Broken(x.md5) else A.Stored(x.md5)
    case Release2 => if x.sockError then A.Failed else A.Finished
    case Test => if x.sockError then A.Failed else A.Finished
    case ReleaseEmpty => A.Drained
    case ExitEmpty => A.Drained
    case ExitLoop => if x.sockError then A.Failed else A.Stopped
    case Killed(at) =>
      if InTransfer(at) then A.Dead(true)
      else if at.ReleaseEmpty? then A.Drained
      else if x.sockError then A.Failed
      else A.Dead(false)
  }

  function AbsWorker(x: Worker): A.Worker { A.Worker(PhaseOf(x), x.own) }

  function Abs(s: State): A.State {
    A.State(s.disk, s.file, s.kill, seq(|s.workers|, w requires 0 <= w < |s.workers| => AbsWorker(s.workers[w])), s.log)
  }

  // Which atomic step a statement is, if any: the claim happens when the array is written
  // back, and so does the completion; finding nothing happens at the look-up.
  function AbsEvent(s: State, e: Event): seq<A.Event> {
    match e
    case Interrupt => [A.Interrupt]
    case Break(w, m) => [A.Break(w, m)]
    case Die(w, part) =>
      if w < |s.workers| && A.Live(PhaseOf(s.workers[w])) then [A.Die(w, part)] else []
    case Run(w) =>
      if w >= |s.workers| then []
      else
        var x := s.workers[w];
        match x.pc
        case Pick => if NextPending(x.mem) == -1 then [A.Drain(w)] else []
        case Store1 => [A.Claim(w)]
        case Fetch => [A.Receive(w)]
        case Write => [A.Store(w)]
        case Store2 => [A.Complete(w)]
        case Test => if x.sockError then [] else [A.Continue(w)]
        case _ => []
  }

  // ---- the invariant of the fine machine -----------------------------------

  // What holds of one worker: in the critical section its copy is the disk, up to the one
  // cell it has set.
  ghost predicate Local(c: Config, s: State, x: Worker)
    requires A.ValidConfig(c)
  {
    match x.pc
    case Lock1 => !x.sockError
    case Load1 => !x.sockError
    case Pick => !x.sockError && x.mem == s.disk
    case Store1 =>
      && !x.sockError && NextPending(s.disk) == x.chunk && 0 <= x.chunk < |s.disk|
      && x.mem == SetStatus(s.disk, x.chunk, Download, None)
    case Release1 => !x.sockError && x.chunk == x.own < A.ChunkCount(c)
    case Fetch => !x.sockError && x.chunk == x.own < A.ChunkCount(c)
    case Write => !x.sockError && x.chunk == x.own < A.ChunkCount(c)
    case Lock2 => x.chunk == x.own < A.ChunkCount(c)
    case Load2 => x.chunk == x.own < A.ChunkCount(c)
    case Mark => x.chunk == x.own < A.ChunkCount(c) && x.mem == s.disk
    case Store2 =>
      && x.own < A.ChunkCount(c) && x.own < |s.disk|
      && x.mem == SetStatus(s.disk, x.own, if x.sockError then Error else Ok, Some(x.md5))
      && x.chunk == if x.sockError then -1 else x.own
    case Release2 => x.chunk == if x.sockError then -1 else x.own
    case Test => x.chunk == if x.sockError then -1 else x.own
    case ReleaseEmpty => !x.sockError
    case ExitEmpty => !x.sockError
    case ExitLoop => true
    case Killed(at) => !at.Killed? && (InTransfer(at) ==> x.own < A.ChunkCount(c))
  }

  ghost predicate Inv(c: Config, s: State)
    requires A.ValidConfig(c)
  {
    && |s.disk| == A.ChunkCount(c)
    && (s.holder.Some? ==> s.holder.value < |s.workers|)
    && (forall w :: 0 <= w < |s.workers| ==> (InCs(s.workers[w].pc) <==> s.holder == Some(w)))
    && (forall w :: 0 <= w < |s.workers| ==> Local(c, s, s.workers[w]))
  }

  lemma InvStart(c: Config, disk: Table, file: bytes, n: nat)
    requires A.ValidConfig(c) && |disk| == A.ChunkCount(c)
    ensures Inv(c, Start(disk, file, n))
    ensures Abs(Start(disk, file, n)) == A.Start(disk, file, n)
  {
  }

  // A worker outside the critical section does not depend on the disk.
  lemma LocalElsewhere(c: Config, s: State, s': State, x: Worker)
    requires A.ValidConfig(c) && Local(c, s, x) && (!InCs(x.pc) || s'.disk == s.disk)
    ensures Local(c, s', x)
  {
  }

  // One worker moves, the lock with it, and only a worker inside changes the disk.
  lemma InvMove(c: Config, s: State, s': State, w: nat)
    requires A.ValidConfig(c) && Inv(c, s)
    requires w < |s.workers| == |s'.workers| && s'.workers == s.workers[w := s'.workers[w]]
    requires |s'.disk| == |s.disk|
    requires s'.disk == s.disk || s.holder == Some(w)
    requires s'.holder == if InCs(s'.workers[w].pc) then Some(w) else if s.holder == Some(w) then None else s.holder
    requires InCs(s'.workers[w].pc) ==> s.holder == None || s.holder == Some(w)
    requires Local(c, s', s'.workers[w])
    ensures Inv(c, s')
  {
    forall v | 0 <= v < |s'.workers|
      ensures Local(c, s', s'.workers[v]) && (InCs(s'.workers[v].pc) <==> s'.holder == Some(v))
    {
      if v != w {
        assert Local(c, s, s.workers[v]);
        LocalElsewhere(c, s, s', s.workers[v]);
      }
    }
  }

  // What a statement does to its own worker and to the shared state, one half at a time.
  lemma RunLocal(c: Config, s: State, w: nat)
    requires A.ValidConfig(c) && Inv(c, s) && CanRun(c, s, w)
    ensures Local(c, RunStep(c, s, w), RunStep(c, s, w).workers[w])
  {
    assert Local(c, s, s.workers[w]);
    if s.workers[w].pc.Pick? {
      PickLocal(c, s, w);
    } else if s.workers[w].pc.Mark? {
      MarkLocal(c, s, w);
    }
  }

  lemma PickLocal(c: Config, s: State, w: nat)
    requires A.ValidConfig(c) && Inv(c, s) && CanRun(c, s, w) && s.workers[w].pc.Pick?
    ensures Local(c, RunStep(c, s, w), RunStep(c, s, w).workers[w])
  {
    assert Local(c, s, s.workers[w]);
    NextPendingIs(s.workers[w].mem);
  }

  lemma MarkLocal(c: Config, s: State, w: nat)
    requires A.ValidConfig(c) && Inv(c, s) && CanRun(c, s, w) && s.workers[w].pc.Mark?
    ensures Local(c, RunStep(c, s, w), RunStep(c, s, w).workers[w])
  {
    assert Local(c, s, s.workers[w]);
  }

  lemma RunShared(c: Config, s: State, w: nat)
    requires A.ValidConfig(c) && Inv(c, s) && CanRun(c, s, w)
    ensures var s' := RunStep(c, s, w);
      && |s'.workers| == |s.workers| && s'.workers == s.workers[w := s'.workers[w]]
      && |s'.disk| == |s.disk|
      && (s'.disk == s.disk || s.holder == Some(w))
      && s'.holder == (if InCs(s'.workers[w].pc) then Some(w) else if s.holder == Some(w) then None else s.holder)
      && (InCs(s'.workers[w].pc) ==> s.holder == None || s.holder == Some(w))
  {
    assert Local(c, s, s.workers[w]);
    assert InCs(s.workers[w].pc) <==> s.holder == Some(w);
  }

  lemma InvStep(c: Config, s: State, e: Event)
    requires A.ValidConfig(c) && Inv(c, s) && Enabled(c, s, e)
    ensures Inv(c, Step(c, s, e))
  {
    var s' := Step(c, s, e);
    match e
    case Interrupt =>
      forall v | 0 <= v < |s'.workers|
        ensures Local(c, s', s'.workers[v])
      {
        LocalElsewhere(c, s, s', s.workers[v]);
      }
    case Run(w) =>
      RunLocal(c, s, w);
      RunShared(c, s, w);
      InvMove(c, s, s', w);
    case _ =>
      assert Local(c, s, s.workers[e.w]);
      InvMove(c, s, s', e.w);
  }

  // ---- refinement ----------------------------------------------------------

  lemma AbsPut(s: State, s': State, w: nat)
    requires w < |s.workers| == |s'.workers| && s'.workers == s.workers[w := s'.workers[w]]
    ensures Abs(s').workers == Abs(s).workers[w := AbsWorker(s'.workers[w])]
  {
  }

  // Every statement is one atomic step of the abstract machine or none at all: in particular
  // writing back a whole array changes exactly the one chunk its worker has set.
  lemma Simulation(c: Config, s: State, e: Event)
    requires A.ValidConfig(c) && Inv(c, s) && Enabled(c, s, e)
    ensures AtMostOne(c, Abs(s), AbsEvent(s, e), Abs(Step(c, s, e)))
  {
    match e
    case Run(w) => SimulationRun(c, s, w);
    case Die(w, part) => SimulationDie(c, s, w, part);
    case Break(w, m) =>
      assert Local(c, s, s.workers[w]);
      AbsPut(s, Step(c, s, e), w);
    case Interrupt =>
  }

  // The atomic machine goes from a to b by these events, which are one or none.
  ghost predicate AtMostOne(c: Config, a: A.State, aes: seq<A.Event>, b: A.State) {
    if aes == [] then a == b
    else |aes| == 1 && A.Enabled(c, a, aes[0]) && A.Step(c, a, aes[0]) == b
  }

  lemma SimulationDie(c: Config, s: State, w: nat, part: nat)
    requires A.ValidConfig(c) && Inv(c, s) && Enabled(c, s, Die(w, part))
    ensures AtMostOne(c, Abs(s), AbsEvent(s, Die(w, part)), Abs(Step(c, s, Die(w, part))))
  {
    AbsPut(s, Step(c, s, Die(w, part)), w);
    if A.Live(PhaseOf(s.workers[w])) {
      DieLive(c, s, w, part);
    } else {
      DieGone(c, s, w, part);
    }
  }

  lemma DieLive(c: Config, s: State, w: nat, part: nat)
    requires A.ValidConfig(c) && Inv(c, s) && Enabled(c, s, Die(w, part)) && A.Live(PhaseOf(s.workers[w]))
    ensures AtMostOne(c, Abs(s), [A.Die(w, part)], Abs(Step(c, s, Die(w, part))))
  {
    var x, s' := s.workers[w], Step(c, s, Die(w, part));
    assert Local(c, s, x);
    AbsPut(s, s', w);
    assert AbsWorker(x) == Abs(s).workers[w];
    assert x.pc.Write? ==> AbsWorker(x).phase == A.Received(x.md5, x.buf) && x.own == x.chunk;
    assert A.Step(c, Abs(s), A.Die(w, part)).file == s'.file;
  }

  lemma DieGone(c: Config, s: State, w: nat, part: nat)
    requires A.ValidConfig(c) && Inv(c, s) && Enabled(c, s, Die(w, part)) && !A.Live(PhaseOf(s.workers[w]))
    ensures Abs(Step(c, s, Die(w, part))) == Abs(s)
  {
    assert Local(c, s, s.workers[w]);
    AbsPut(s, Step(c, s, Die(w, part)), w);
    assert Abs(s).workers[w := AbsWorker(s.workers[w])] == Abs(s).workers;
  }

  lemma SimulationRun(c: Config, s: State, w: nat)
    requires A.ValidConfig(c) && Inv(c, s) && CanRun(c, s, w)
    ensures AtMostOne(c, Abs(s), AbsEvent(s, Run(w)), Abs(RunStep(c, s, w)))
  {
    var x := s.workers[w];
    if x.pc.Store1? {
      SimulationClaim(c, s, w);
    } else if x.pc.Store2? {
      SimulationComplete(c, s, w);
    } else if AbsEvent(s, Run(w)) == [] {
      SimulationSilent(c, s, w);
    } else {
      SimulationOther(c, s, w);
    }
  }

  lemma SimulationClaim(c: Config, s: State, w: nat)
    requires A.ValidConfig(c) && Inv(c, s) && CanRun(c, s, w) && s.workers[w].pc.Store1?
    ensures AtMostOne(c, Abs(s), [A.Claim(w)], Abs(RunStep(c, s, w)))
  {
    assert Local(c, s, s.workers[w]);
    AbsPut(s, RunStep(c, s, w), w);
  }

  lemma SimulationComplete(c: Config, s: State, w: nat)
    requires A.ValidConfig(c) && Inv(c, s) && CanRun(c, s, w) && s.workers[w].pc.Store2?
    ensures AtMostOne(c, Abs(s), [A.Complete(w)], Abs(RunStep(c, s, w)))
  {
    assert Local(c, s, s.workers[w]);
    AbsPut(s, RunStep(c, s, w), w);
  }

  lemma SimulationSilent(c: Config, s: State, w: nat)
    requires A.ValidConfig(c) && Inv(c, s) && CanRun(c, s, w) && AbsEvent(s, Run(w)) == []
    ensures Abs(RunStep(c, s, w)) == Abs(s)
  {
    var x, s' := s.workers[w], RunStep(c, s, w);
    assert Local(c, s, x);
    AbsPut(s, s', w);
    NextPendingIs(x.mem);
    assert AbsWorker(s'.workers[w]) == AbsWorker(x);
    assert Abs(s).workers[w := AbsWorker(x)] == Abs(s).workers;
  }

  lemma SimulationOther(c: Config, s: State, w: nat)
    requires A.ValidConfig(c) && Inv(c, s) && CanRun(c, s, w) && AbsEvent(s, Run(w)) != []
    requires !s.workers[w].pc.Store1? && !s.workers[w].pc.Store2?
    ensures AtMostOne(c, Abs(s), AbsEvent(s, Run(w)), Abs(RunStep(c, s, w)))
  {
    assert Local(c, s, s.workers[w]);
    AbsPut(s, RunStep(c, s, w), w);
  }

  ghost function AbsRun(c: Config, s: State, es: seq<Event>): seq<A.Event>
    requires ValidRun(c, s, es)
  {
    if es == [] then []
    else AbsRun(c, s, es[..|es| - 1]) + AbsEvent(RunOf(c, s, es[..|es| - 1]), es[|es| - 1])
  }

  // For every number of workers and every interleaving, failures and deaths included, the
  // machine of statements does what the atomic machine does on the projected run.
  lemma {:induction false} Refines(c: Config, s: State, es: seq<Event>)
    requires A.ValidConfig(c) && Inv(c, s) && ValidRun(c, s, es)
    ensures Inv(c, RunOf(c, s, es))
    ensures A.ValidRun(c, Abs(s), AbsRun(c, s, es))
    ensures A.Run(c, Abs(s), AbsRun(c, s, es)) == Abs(RunOf(c, s, es))
    decreases |es|
  {
    if es != [] {
      var p, e := es[..|es| - 1], es[|es| - 1];
      Refines(c, s, p);
      var m := RunOf(c, s, p);
      InvStep(c, m, e);
      Simulation(c, m, e);
      var ap, ae := AbsRun(c, s, p), AbsEvent(m, e);
      if ae == [] {
        assert ap + ae == ap;
      } else {
        assert (ap + ae)[..|ap + ae| - 1] == ap;
      }
    }
  }

  // The invariants of the atomic machine therefore hold of the disk, the file and the workers
  // in every state that any run can reach.
  lemma Reachable(c: Config, disk: Table, file: bytes, n: nat, es: seq<Event>)
    requires A.ValidConfig(c) && A.GoodTable(c, disk, file)
    requires ValidRun(c, Start(disk, file, n), es)
    ensures var s := RunOf(c, Start(disk, file, n), es);
      && Inv(c, s) && A.Inv(c, disk, Abs(s)) && |s.workers| == n
  {
    var s0 := Start(disk, file, n);
    InvStart(c, disk, file, n);
    Refines(c, s0, es);
    A.InvStart(c, disk, file, n);
    A.InvRun(c, disk, Abs(s0), AbsRun(c, s0, es));
    SameWorkers(c, s0, es);
  }

  // In every state of every run at most one process is between lock and unlock, and the
  // semaphore is taken exactly while one is.
  lemma MutualExclusion(c: Config, disk: Table, file: bytes, n: nat, es: seq<Event>)
    requires A.ValidConfig(c) && A.GoodTable(c, disk, file)
    requires ValidRun(c, Start(disk, file, n), es)
    ensures var s := RunOf(c, Start(disk, file, n), es);
      && (forall v, w :: 0 <= v < w < |s.workers| ==> !(InCs(s.workers[v].pc) && InCs(s.workers[w].pc)))
      && (s.holder != None <==> exists w :: 0 <= w < |s.workers| && InCs(s.workers[w].pc))
  {
    Reachable(c, disk, file, n, es);
    var s := RunOf(c, Start(disk, file, n), es);
    if s.holder != None {
      assert InCs(s.workers[s.holder.value].pc);
    }
  }

  lemma {:induction false} SameWorkers(c: Config, s: State, es: seq<Event>)
    requires ValidRun(c, s, es)
    ensures |RunOf(c, s, es).workers| == |s.workers|
    decreases |es|
  {
    if es != [] { SameWorkers(c, s, es[..|es| - 1]); }
  }

  // What can happen at any time: a worker can always take its next step unless it has left or
  // waits for a lock that is held; any worker can die at any point, inside the lock too, with any
  // part of its write done; any transfer can break; control-C can always come.
  lemma Possibilities(c: Config, s: State, w: nat)
    requires A.ValidConfig(c) && Inv(c, s) && w < |s.workers|
    ensures Enabled(c, s, Interrupt)
    ensures Enabled(c, s, Run(w)) <==>
      !(s.workers[w].pc.ExitEmpty? || s.workers[w].pc.ExitLoop? || s.workers[w].pc.Killed?)
      && !((s.workers[w].pc.Lock1? || s.workers[w].pc.Lock2?) && s.holder != None)
    ensures forall part: nat :: Enabled(c, s, Die(w, part)) <==>
      !(s.workers[w].pc.ExitEmpty? || s.workers[w].pc.ExitLoop? || s.workers[w].pc.Killed?)
    ensures forall m: Digest :: Enabled(c, s, Break(w, m)) <==> s.workers[w].pc.Fetch?
  {
    assert Local(c, s, s.workers[w]);
  }

  // A death takes effect at once and no further: the worker never moves again, the lock it held
  // is free, nothing is written but a part of what it was writing, at its chunk's place.
  lemma DeathIs(c: Config, s: State, w: nat, part: nat)
    requires A.ValidConfig(c) && Inv(c, s) && Enabled(c, s, Die(w, part))
    ensures var x, s' := s.workers[w], Step(c, s, Die(w, part));
      && s'.disk == s.disk && s'.kill == s.kill && s'.log == s.log && s'.workers[w].own == x.own
      && s'.workers[w].pc == Killed(x.pc) && s'.holder != Some(w)
      && (s.holder != Some(w) ==> s'.holder == s.holder)
      && (!x.pc.Write? ==> s'.file == s.file)
      && (x.pc.Write? && part <= |x.buf| ==>
            ReadAt(s'.file, x.chunk * c.chunkSize, part) == x.buf[..part]
            && |s'.file| == if part == 0 then |s.file| else Max(|s.file|, x.chunk * c.chunkSize + part))
  {
    var x := s.workers[w];
    if x.pc.Write? && part <= |x.buf| {
      WriteThenRead(s.file, x.chunk * c.chunkSize, x.buf[..part]);
    }
  }

  // ---- progress ------------------------------------------------------------

  ghost predicate AllGone(s: State) {
    forall w :: 0 <= w < |s.workers| ==> Gone(s.workers[w].pc)
  }

  // No worker can take a step: where every maximal run ends.
  ghost predicate Stuck(c: Config, s: State) {
    forall w: nat :: !CanRun(c, s, w)
  }

  // Whoever holds the lock is inside and can move.
  lemma HolderCanRun(c: Config, s: State)
    requires A.ValidConfig(c) && Inv(c, s) && s.holder.Some?
    ensures CanRun(c, s, s.holder.value)
  {
    var h := s.holder.value;
    assert Local(c, s, s.workers[h]);
    assert InCs(s.workers[h].pc);
  }

  // No deadlock: a state in which no worker can move is one in which all have left.
  lemma StuckMeansGone(c: Config, s: State)
    requires A.ValidConfig(c) && Inv(c, s)
    ensures Stuck(c, s) <==> AllGone(s)
  {
    if Stuck(c, s) {
      if s.holder.Some? { HolderCanRun(c, s); }
      forall w | 0 <= w < |s.workers|
        ensures Gone(s.workers[w].pc)
      {
        assert Local(c, s, s.workers[w]);
        assert !CanRun(c, s, w);
      }
    }
  }

  function Rank(x: Worker): nat {
    match x.pc
    case Lock1 => 14
    case Load1 => 13
    case Pick => 12
    case Store1 => 11
    case Release1 => 10
    case Fetch => 9
    case Write => 8
    case Lock2 => 7
    case Load2 => 6
    case Mark => 5
    case Store2 => 4
    case Release2 => if x.sockError then 3 else 16
    case Test => if x.sockError then 2 else 15
    case ReleaseEmpty => 1
    case _ => 0
  }

  // Chunks still to be finished weigh more than a whole round of a worker.
  ghost function Measure(s: State): (m: nat) {
    13 * (|s.disk| - CountIf(s.disk, A.IsOk)) + SumBy(s.workers, Rank)
  }

  // Every step of a worker, failure or death decreases the measure; an interrupt leaves it.
  lemma MeasureStep(c: Config, t0: Table, s: State, e: Event)
    requires A.ValidConfig(c) && Inv(c, s) && A.Ownership(t0, Abs(s)) && Enabled(c, s, e)
    ensures e.Interrupt? ==> Measure(Step(c, s, e)) == Measure(s)
    ensures !e.Interrupt? ==> Measure(Step(c, s, e)) < Measure(s)
  {
    match e
    case Interrupt =>
    case Run(w) => MeasureRun(c, t0, s, w);
    case _ =>
      assert Local(c, s, s.workers[e.w]);
      MeasureDrops(s, Step(c, s, e), e.w);
  }

  lemma MeasureRun(c: Config, t0: Table, s: State, w: nat)
    requires A.ValidConfig(c) && Inv(c, s) && A.Ownership(t0, Abs(s)) && CanRun(c, s, w)
    ensures Measure(RunStep(c, s, w)) < Measure(s)
  {
    if s.workers[w].pc.Store1? {
      MeasureClaim(c, s, w);
    } else if s.workers[w].pc.Store2? {
      MeasureComplete(c, t0, s, w);
    } else {
      RankDrops(c, s, w);
    }
  }

  lemma MeasureDrops(s: State, s': State, w: nat)
    requires w < |s.workers| == |s'.workers| && s'.workers == s.workers[w := s'.workers[w]]
    requires |s'.disk| == |s.disk|
    requires Rank(s'.workers[w]) + 13 * CountIf(s.disk, A.IsOk) < Rank(s.workers[w]) + 13 * CountIf(s'.disk, A.IsOk)
    ensures Measure(s') < Measure(s)
  {
    SumUpdate(s.workers, Rank, w, s'.workers[w]);
  }

  lemma RankDrops(c: Config, s: State, w: nat)
    requires A.ValidConfig(c) && Inv(c, s) && CanRun(c, s, w)
    requires !s.workers[w].pc.Store1? && !s.workers[w].pc.Store2?
    ensures Measure(RunStep(c, s, w)) < Measure(s)
  {
    assert Local(c, s, s.workers[w]);
    MeasureDrops(s, RunStep(c, s, w), w);
  }

  lemma MeasureClaim(c: Config, s: State, w: nat)
    requires A.ValidConfig(c) && Inv(c, s) && CanRun(c, s, w) && s.workers[w].pc.Store1?
    ensures Measure(RunStep(c, s, w)) < Measure(s)
  {
    var x := s.workers[w];
    assert Local(c, s, x);
    NextPendingIs(s.disk);
    CountUpdate(s.disk, A.IsOk, x.chunk, x.mem[x.chunk]);
    MeasureDrops(s, RunStep(c, s, w), w);
  }

  lemma MeasureComplete(c: Config, t0: Table, s: State, w: nat)
    requires A.ValidConfig(c) && Inv(c, s) && A.Ownership(t0, Abs(s))
    requires CanRun(c, s, w) && s.workers[w].pc.Store2?
    ensures Measure(RunStep(c, s, w)) < Measure(s)
  {
    CompleteCounts(c, t0, s, w);
    MeasureDrops(s, RunStep(c, s, w), w);
  }

  lemma CompleteCounts(c: Config, t0: Table, s: State, w: nat)
    requires A.ValidConfig(c) && Inv(c, s) && A.Ownership(t0, Abs(s))
    requires CanRun(c, s, w) && s.workers[w].pc.Store2?
    ensures |s.workers[w].mem| == |s.disk|
    ensures CountIf(s.workers[w].mem, A.IsOk) == CountIf(s.disk, A.IsOk) + if s.workers[w].sockError then 0 else 1
  {
    var x := s.workers[w];
    assert Local(c, s, x);
    assert A.Holds(Abs(s).workers[w]) && !A.IsOk(s.disk[x.own]);
    CountUpdate(s.disk, A.IsOk, x.own, x.mem[x.own]);
  }

  ghost function WorkerSteps(es: seq<Event>): nat {
    if es == [] then 0
    else WorkerSteps(es[..|es| - 1]) + (if es[|es| - 1].Interrupt? then 0 else 1)
  }

  // Termination: no run takes more worker steps than the measure it starts from, which is
  // at most 13 for each chunk not finished plus 14 for each worker.
  lemma {:induction false} Terminates(c: Config, t0: Table, s: State, es: seq<Event>)
    requires A.ValidConfig(c) && Inv(c, s) && A.Inv(c, t0, Abs(s)) && ValidRun(c, s, es)
    ensures WorkerSteps(es) + Measure(RunOf(c, s, es)) <= Measure(s)
    decreases |es|
  {
    if es != [] {
      var p, e := es[..|es| - 1], es[|es| - 1];
      Terminates(c, t0, s, p);
      Refines(c, s, p);
      A.InvRun(c, t0, Abs(s), AbsRun(c, s, p));
      MeasureStep(c, t0, RunOf(c, s, p), e);
    }
  }

  lemma StepBound(c: Config, disk: Table, file: bytes, n: nat, es: seq<Event>)
    requires A.ValidConfig(c) && A.GoodTable(c, disk, file)
    requires ValidRun(c, Start(disk, file, n), es)
    ensures WorkerSteps(es) <= 13 * (|disk| - CountIf(disk, A.IsOk)) + 14 * n
  {
    var s0 := Start(disk, file, n);
    InvStart(c, disk, file, n);
    A.InvStart(c, disk, file, n);
    Terminates(c, disk, s0, es);
    SumConstant(s0.workers, Rank, 14);
  }
}
