/** What survives the parent's overwrites: every finished chunk was sent, everything ends
    finished, and every upload ends; and what does not: exclusive claiming. */
module UploadTheorems {
  import opened Bytes
  import opened ChunkTable
  import opened Counting
  import opened UploadWorkers

  // ---- safety --------------------------------------------------------------

  // In every state of every run, deaths and interrupts included: a chunk marked Ok in the file
  // was Ok at the start or has been sent in full, a chunk that was not open at the start (Ok,
  // or marked as in transfer by an earlier upload) is left as it was and never sent, and at
  // most one process is between lock and unlock.
  lemma OkWasSent(p: Plan, es: seq<Event>)
    requires ValidRun(p, Start(p), es)
    ensures var s := RunOf(p, Start(p), es);
      && |s.disk| == |p.stale|
      && (forall i: nat :: i < |s.disk| && s.disk[i].status == Ok ==> p.stale[i].status == Ok || i in s.sent)
      && (forall i: nat :: i < |s.disk| && !Claimable(p.stale[i]) ==> s.disk[i] == p.stale[i] && i !in s.sent)
      && (forall v, w :: 0 <= v < w < |s.workers| ==> !(InCs(s.workers[v].pc) && InCs(s.workers[w].pc)))
  {
    InvAlways(p, es);
  }

  // What can happen at any time: the parent saves and forks in turn until all are forked; a
  // worker can take its next step unless it has left or waits for a lock that is held, and can
  // die at any point; control-C can always come.
  lemma Possibilities(p: Plan, s: State, w: nat)
    requires Inv(p, s)
    ensures Enabled(p, s, Interrupt)
    ensures Enabled(p, s, Save) <==> |s.workers| < p.n && !s.saved
    ensures forall j: Digest :: Enabled(p, s, Fork(j)) <==> |s.workers| < p.n && s.saved
    ensures w < |s.workers| ==>
      var pc := s.workers[w].pc;
      && (Enabled(p, s, Die(w)) <==> !(pc.ExitEmpty? || pc.ExitLoop? || pc.Killed?))
      && (Enabled(p, s, Run(w)) <==>
            !(pc.ExitEmpty? || pc.ExitLoop? || pc.Killed?) && !((pc.Lock1? || pc.Lock2?) && s.holder != None))
  {
    if w < |s.workers| { assert Local(p, s, s.workers[w]); }
  }

  // The two writes of the array, over all that a worker does between loading and storing it: the
  // claim leaves the file's own chunk marked as in transfer, the completion finished and under
  // the digest field that the code never fills.
  lemma StoresAre(p: Plan, s: State, w: nat)
    requires Inv(p, s) && CanRun(s, w)
    ensures s.workers[w].pc.Store1? ==>
      var s' := RunStep(s, w);
      && s'.workers[w].own < |s'.disk| && s'.disk[s'.workers[w].own].status == Upload
      && Claimable(s.disk[s'.workers[w].own])
    ensures s.workers[w].pc.Store2? ==>
      var x, s' := s.workers[w], RunStep(s, w);
      x.own < |s'.disk| && s'.disk[x.own] == ChunkInfo(x.junk, p.stale[x.own].size, Ok)
  {
    assert Local(p, s, s.workers[w]);
  }

  // ---- nothing left behind -------------------------------------------------

  ghost predicate NoneClaimable(t: Table) {
    forall i :: 0 <= i < |t| ==> !Claimable(t[i])
  }

  predicate FoundNothing(pc: Pc) { pc.ReleaseEmpty? || pc.Bye? || pc.ExitEmpty? }

  // The worker forked last has found nothing to claim (and may have died since).
  predicate LastDrained(p: Plan, s: State) {
    && 0 < p.n == |s.workers|
    && var pc := s.workers[p.n - 1].pc;
       FoundNothing(pc) || (pc.Killed? && FoundNothing(pc.at))
  }

  predicate HasCopy(pc: Pc) { pc.Pick? || pc.Store1? || pc.Mark? || pc.Store2? }

  // After the last fork the parent is quiet: what the last worker loads is what the file
  // says, and once that worker has found nothing, no copy anywhere shows a claimable chunk.
  ghost predicate Quiet(p: Plan, s: State) {
    && (0 < p.n == |s.workers| && s.workers[p.n - 1].pc.Pick? ==> s.workers[p.n - 1].mem == s.disk)
    && (LastDrained(p, s) ==>
          && NoneClaimable(s.disk)
          && forall w :: 0 <= w < |s.workers| && HasCopy(s.workers[w].pc) ==> NoneClaimable(s.workers[w].mem))
  }

  lemma QuietStep(p: Plan, s: State, e: Event)
    requires Inv(p, s) && Quiet(p, s) && Enabled(p, s, e)
    ensures Quiet(p, Step(p, s, e))
  {
    var s' := Step(p, s, e);
    match e
    case Save =>
    case Fork(j) =>
    case Interrupt =>
    case Die(w) =>
      assert LastDrained(p, s') ==> LastDrained(p, s);
    case Run(w) => QuietRun(p, s, w);
  }

  lemma QuietRun(p: Plan, s: State, w: nat)
    requires Inv(p, s) && Quiet(p, s) && CanRun(s, w)
    ensures Quiet(p, RunStep(s, w))
  {
    if 0 < p.n == |s.workers| && RunStep(s, w).workers[p.n - 1].pc.Pick? {
      LastLoad(p, s, w);
    }
    if LastDrained(p, RunStep(s, w)) {
      if LastDrained(p, s) {
        DrainedRun(p, s, w);
      } else {
        DrainedNow(p, s, w);
      }
    }
  }

  lemma LastLoad(p: Plan, s: State, w: nat)
    requires Inv(p, s) && Quiet(p, s) && CanRun(s, w) && 0 < p.n == |s.workers|
    requires RunStep(s, w).workers[p.n - 1].pc.Pick?
    ensures RunStep(s, w).workers[p.n - 1].mem == RunStep(s, w).disk
  {
    assert InCs(s.workers[w].pc) <==> s.holder == Some(w);
    assert InCs(s.workers[p.n - 1].pc) <==> s.holder == Some(p.n - 1);
  }

  lemma DrainedNow(p: Plan, s: State, w: nat)
    requires Inv(p, s) && Quiet(p, s) && CanRun(s, w) && !LastDrained(p, s) && LastDrained(p, RunStep(s, w))
    ensures NoneClaimable(RunStep(s, w).disk)
    ensures forall v :: 0 <= v < |s.workers| ==> !HasCopy(RunStep(s, w).workers[v].pc)
  {
    var x := s.workers[w];
    assert w == p.n - 1 && x.pc.Pick?;
    NextPendingIs(x.mem);
    assert s.holder == Some(w);
  }

  lemma DrainedRun(p: Plan, s: State, w: nat)
    requires Inv(p, s) && Quiet(p, s) && LastDrained(p, s) && CanRun(s, w)
    ensures NoneClaimable(RunStep(s, w).disk)
    ensures forall v :: 0 <= v < |s.workers| && HasCopy(RunStep(s, w).workers[v].pc) ==>
      NoneClaimable(RunStep(s, w).workers[v].mem)
  {
    var x := s.workers[w];
    assert Local(p, s, x);
    NextPendingIs(x.mem);
  }

  lemma {:induction false} QuietAlways(p: Plan, es: seq<Event>)
    requires ValidRun(p, Start(p), es)
    ensures Quiet(p, RunOf(p, Start(p), es))
    decreases |es|
  {
    if es != [] {
      InvAlways(p, es[..|es| - 1]);
      QuietAlways(p, es[..|es| - 1]);
      QuietStep(p, RunOf(p, Start(p), es[..|es| - 1]), es[|es| - 1]);
    }
  }

  // ---- between overwrites --------------------------------------------------

  // A copy in a worker's hands misses no finished chunk of the file.
  ghost predicate CopiesOk(s: State) {
    forall w :: 0 <= w < |s.workers| && HasCopy(s.workers[w].pc) ==> StillOk(s.disk, s.workers[w].mem)
  }

  lemma CopiesStep(p: Plan, s: State, e: Event)
    requires Inv(p, s) && CopiesOk(s) && Enabled(p, s, e)
    ensures CopiesOk(Step(p, s, e))
    ensures e != Save ==> StillOk(s.disk, Step(p, s, e).disk)
  {
    match e
    case Save =>
      forall w | 0 <= w < |s.workers| && HasCopy(s.workers[w].pc)
        ensures StillOk(p.stale, s.workers[w].mem)
      {
        assert Local(p, s, s.workers[w]);
      }
    case Run(w) => CopiesRun(p, s, w);
    case _ =>
  }

  lemma CopiesRun(p: Plan, s: State, w: nat)
    requires Inv(p, s) && CopiesOk(s) && CanRun(s, w)
    ensures CopiesOk(RunStep(s, w)) && StillOk(s.disk, RunStep(s, w).disk)
  {
    var s' := RunStep(s, w);
    MoverCopy(p, s, w);
    forall v | 0 <= v < |s'.workers| && HasCopy(s'.workers[v].pc)
      ensures StillOk(s'.disk, s'.workers[v].mem)
    {
      if v != w { OtherCopy(p, s, w, v); }
    }
  }

  lemma MoverCopy(p: Plan, s: State, w: nat)
    requires Inv(p, s) && CopiesOk(s) && CanRun(s, w)
    ensures StillOk(s.disk, RunStep(s, w).disk)
    ensures HasCopy(RunStep(s, w).workers[w].pc) ==> StillOk(RunStep(s, w).disk, RunStep(s, w).workers[w].mem)
  {
    NextPendingIs(s.workers[w].mem);
  }

  // A worker inside the critical section is the only one that changes the file.
  lemma OtherCopy(p: Plan, s: State, w: nat, v: nat)
    requires Inv(p, s) && CanRun(s, w) && v < |s.workers| && v != w && HasCopy(s.workers[v].pc)
    ensures RunStep(s, w).disk == s.disk
  {
    assert InCs(s.workers[v].pc) <==> s.holder == Some(v);
    assert InCs(s.workers[w].pc) <==> s.holder == Some(w);
  }

  lemma {:induction false} CopiesAlways(p: Plan, es: seq<Event>)
    requires ValidRun(p, Start(p), es)
    ensures CopiesOk(RunOf(p, Start(p), es))
    decreases |es|
  {
    if es != [] {
      InvAlways(p, es[..|es| - 1]);
      CopiesAlways(p, es[..|es| - 1]);
      CopiesStep(p, RunOf(p, Start(p), es[..|es| - 1]), es[|es| - 1]);
    }
  }

  // From any reachable state on, as long as the parent does not overwrite the array, what is
  // finished stays finished, whatever the workers do and however they die.
  lemma {:induction false} NoSaveKeepsOk(p: Plan, s: State, es: seq<Event>)
    requires Inv(p, s) && CopiesOk(s) && ValidRun(p, s, es)
    requires forall k :: 0 <= k < |es| ==> es[k] != Save
    ensures Inv(p, RunOf(p, s, es)) && CopiesOk(RunOf(p, s, es))
    ensures StillOk(s.disk, RunOf(p, s, es).disk)
    decreases |es|
  {
    if es != [] {
      var before, e := es[..|es| - 1], es[|es| - 1];
      NoSaveKeepsOk(p, s, before);
      InvStep(p, RunOf(p, s, before), e);
      CopiesStep(p, RunOf(p, s, before), e);
    }
  }

  ghost function DeadWorkers(s: State): set<nat> {
    set w: nat | w < |s.workers| && s.workers[w].pc.Killed?
  }

  ghost predicate AllGone(s: State) {
    forall w :: 0 <= w < |s.workers| ==> Gone(s.workers[w].pc)
  }

  // Once all workers have stopped, the last of them because nothing was pending, every chunk
  // that is not Ok was marked as in transfer at the start or was in the hands of a worker that
  // died.
  lemma LeftOver(p: Plan, es: seq<Event>)
    requires ValidRun(p, Start(p), es)
    requires var s := RunOf(p, Start(p), es); LastDrained(p, s) && AllGone(s)
    ensures var s := RunOf(p, Start(p), es);
      && InTransit(p.stale) <= NotOk(s.disk)
      && (forall i :: i in NotOk(s.disk) - InTransit(p.stale) ==>
            exists w :: w in DeadWorkers(s) && s.workers[w].own == i)
      && |NotOk(s.disk)| <= |InTransit(p.stale)| + |DeadWorkers(s)|
  {
    InvAlways(p, es);
    QuietAlways(p, es);
    var s := RunOf(p, Start(p), es);
    var rest := NotOk(s.disk) - InTransit(p.stale);
    InTransitStays(p, s);
    forall i: nat | i in rest
      ensures exists w :: w in DeadWorkers(s) && s.workers[w].own == i
    {
      LeftByDead(p, s, i);
    }
    LeftOverCount(s, rest);
    assert NotOk(s.disk) == rest + InTransit(p.stale);
  }

  lemma InTransitStays(p: Plan, s: State)
    requires Credible(p, s.disk, s.workers, s.sent, -1)
    ensures InTransit(p.stale) <= NotOk(s.disk)
  {
  }

  lemma LeftByDead(p: Plan, s: State, i: nat)
    requires Credible(p, s.disk, s.workers, s.sent, -1) && NoneClaimable(s.disk) && AllGone(s)
    requires i in NotOk(s.disk) && i !in InTransit(p.stale)
    ensures exists w :: w in DeadWorkers(s) && s.workers[w].own == i
  {
    assert Held(s.workers, i);
    var w: nat :| w < |s.workers| && HasChunk(s.workers[w]) && s.workers[w].own == i;
    assert w in DeadWorkers(s) && s.workers[w].own == i;
  }

  lemma LeftOverCount(s: State, rest: set<nat>)
    requires forall i :: i in rest ==> exists w :: w in DeadWorkers(s) && s.workers[w].own == i
    ensures |rest| <= |DeadWorkers(s)|
  {
    var own := seq(|s.workers|, w requires 0 <= w < |s.workers| => s.workers[w].own);
    forall i | i in rest
      ensures exists w :: w in DeadWorkers(s) && w < |own| && own[w] == i
    {
      var w :| w in DeadWorkers(s) && s.workers[w].own == i;
      assert own[w] == i;
    }
    OwnersBound(rest, DeadWorkers(s), own);
  }

  // ---- completion ----------------------------------------------------------

  // Neither the parent nor a worker can go on.
  ghost predicate Stuck(p: Plan, s: State) {
    && !Enabled(p, s, Save) && (forall j: Digest :: !Enabled(p, s, Fork(j)))
    && forall w: nat :: !CanRun(s, w)
  }

  // Whoever holds the lock is inside and can move.
  lemma HolderCanRun(p: Plan, s: State)
    requires Inv(p, s) && s.holder.Some?
    ensures CanRun(s, s.holder.value)
  {
    var h := s.holder.value;
    assert Local(p, s, s.workers[h]);
    assert InCs(s.workers[h].pc);
  }

  // No deadlock: then all workers have been forked and all have left.
  lemma StuckMeansGone(p: Plan, s: State)
    requires Inv(p, s) && Stuck(p, s)
    ensures |s.workers| == p.n && AllGone(s)
  {
    assert !Enabled(p, s, Fork(ZERO_DIGEST));
    if s.holder.Some? { HolderCanRun(p, s); }
    forall w | 0 <= w < |s.workers|
      ensures Gone(s.workers[w].pc)
    {
      assert Local(p, s, s.workers[w]);
      assert !CanRun(s, w);
    }
  }

  // Nobody dies and nobody presses control-C.
  ghost predicate Undisturbed(es: seq<Event>) {
    forall k :: 0 <= k < |es| ==> !es[k].Die? && !es[k].Interrupt?
  }

  ghost predicate Calm(s: State) {
    s.kill == 0 && forall w :: 0 <= w < |s.workers| ==>
      !s.workers[w].pc.Killed? && !s.workers[w].pc.ExitLoop?
  }

  lemma {:induction false} CalmAlways(p: Plan, es: seq<Event>)
    requires ValidRun(p, Start(p), es) && Undisturbed(es)
    ensures Calm(RunOf(p, Start(p), es))
    decreases |es|
  {
    if es != [] {
      var before, e := es[..|es| - 1], es[|es| - 1];
      CalmAlways(p, before);
      InvAlways(p, before);
      var m := RunOf(p, Start(p), before);
      if e.Run? { assert Local(p, m, m.workers[e.w]); }
    }
  }

  // End to end, from any array: with at least one worker, every undisturbed upload that can go
  // no further has sent exactly the chunks that were open at the start and leaves not Ok exactly
  // those that were marked as in transfer; so it finishes everything if and only if there were
  // none of these.
  lemma Complete(p: Plan, es: seq<Event>)
    requires p.n > 0 && ValidRun(p, Start(p), es) && Undisturbed(es)
    requires Stuck(p, RunOf(p, Start(p), es))
    ensures var s := RunOf(p, Start(p), es);
      && |s.disk| == |p.stale| && NotOk(s.disk) == InTransit(p.stale)
      && (NotOk(s.disk) == {} <==> InTransit(p.stale) == {})
      && forall i: nat :: i in s.sent <==> i < |p.stale| && Claimable(p.stale[i])
  {
    var s := RunOf(p, Start(p), es);
    InvAlways(p, es);
    StuckMeansGone(p, s);
    CalmAlways(p, es);
    assert Gone(s.workers[p.n - 1].pc);
    LeftOver(p, es);
    assert DeadWorkers(s) == {};
    assert NotOk(s.disk) - InTransit(p.stale) == {};
    forall i: nat
      ensures i in s.sent <==> i < |p.stale| && Claimable(p.stale[i])
    {
      assert i < |p.stale| && Claimable(p.stale[i]) ==> i !in NotOk(s.disk);
    }
  }

  // ---- termination ---------------------------------------------------------

  function Rank(x: Worker): nat {
    match x.pc
    case Lock1 => 5
    case Load1 => 4
    case Pick => 3
    case Store1 => 2
    case Release1 => 15
    case Send => 14
    case Lock2 => 13
    case Load2 => 12
    case Mark => 11
    case Store2 => 10
    case Release2 => 9
    case Test => 8
    case ReleaseEmpty => 2
    case Bye => 1
    case _ => 0
  }

  // The parent's own steps still to come.
  function ParentSteps(p: Plan, s: State): int {
    2 * (p.n - |s.workers|) - (if s.saved then 1 else 0)
  }

  // One overwrite can reopen every chunk, so a parent step outweighs them all.
  function ParentWeight(p: Plan): nat { 14 * |p.stale| + 6 }

  ghost function Measure(p: Plan, s: State): int {
    ParentWeight(p) * ParentSteps(p, s) + 14 * CountIf(s.disk, Claimable) + SumBy(s.workers, Rank)
  }

  // Every step of the parent or a worker decreases the measure, which is never negative: the
  // overwrites delay the end of an upload but can not prevent it.
  lemma MeasureStep(p: Plan, s: State, e: Event)
    requires Inv(p, s) && Enabled(p, s, e)
    ensures 0 <= Measure(p, s)
    ensures e.Interrupt? ==> Measure(p, Step(p, s, e)) == Measure(p, s)
    ensures !e.Interrupt? ==> Measure(p, Step(p, s, e)) < Measure(p, s)
  {
    assert ParentSteps(p, s) >= 0;
    assert ParentWeight(p) * ParentSteps(p, s) >= 0;
    match e
    case Interrupt =>
    case Save => MeasureParent(p, s, e);
    case Fork(j) => MeasureParent(p, s, e);
    case _ => MeasureWorker(p, s, e);
  }

  lemma MeasureParent(p: Plan, s: State, e: Event)
    requires Inv(p, s) && Enabled(p, s, e) && (e.Save? || e.Fork?)
    ensures Measure(p, Step(p, s, e)) < Measure(p, s)
  {
    var s' := Step(p, s, e);
    var k := ParentSteps(p, s);
    assert ParentSteps(p, s') == k - 1;
    assert ParentWeight(p) * (k - 1) == ParentWeight(p) * k - ParentWeight(p);
    if e.Fork? {
      assert s'.workers[..|s'.workers| - 1] == s.workers;
    }
  }

  lemma MeasureWorker(p: Plan, s: State, e: Event)
    requires Inv(p, s) && Enabled(p, s, e) && (e.Run? || e.Die?)
    ensures Measure(p, Step(p, s, e)) < Measure(p, s)
  {
    if e.Run? && s.workers[e.w].pc.Store1? {
      StoreDrops(p, s, e.w);
    } else if e.Run? && s.workers[e.w].pc.Store2? {
      StoreDrops(p, s, e.w);
    } else {
      RankDrops(p, s, e);
      MeasureDrops(p, s, Step(p, s, e), e.w);
    }
  }

  lemma StoreDrops(p: Plan, s: State, w: nat)
    requires Inv(p, s) && CanRun(s, w) && (s.workers[w].pc.Store1? || s.workers[w].pc.Store2?)
    ensures Measure(p, RunStep(s, w)) < Measure(p, s)
  {
    StoreCounts(p, s, w);
    MeasureDrops(p, s, RunStep(s, w), w);
  }

  lemma StoreCounts(p: Plan, s: State, w: nat)
    requires Inv(p, s) && CanRun(s, w) && (s.workers[w].pc.Store1? || s.workers[w].pc.Store2?)
    ensures CountIf(s.workers[w].mem, Claimable) + (if s.workers[w].pc.Store1? then 1 else 0)
      <= CountIf(s.disk, Claimable)
  {
    var x := s.workers[w];
    assert Local(p, s, x);
    if x.pc.Store1? {
      Store1Drops(x.mem, s.disk, x.chunk);
    } else {
      CountImplies(x.mem, s.disk, Claimable, Claimable);
    }
  }

  lemma MeasureDrops(p: Plan, s: State, s': State, w: nat)
    requires w < |s.workers| == |s'.workers| && s'.workers == s.workers[w := s'.workers[w]]
    requires s'.saved == s.saved
    requires Rank(s'.workers[w]) + 14 * CountIf(s'.disk, Claimable)
      < Rank(s.workers[w]) + 14 * CountIf(s.disk, Claimable)
    ensures Measure(p, s') < Measure(p, s)
  {
    SumUpdate(s.workers, Rank, w, s'.workers[w]);
  }

  lemma RankDrops(p: Plan, s: State, e: Event)
    requires Inv(p, s) && Enabled(p, s, e) && (e.Run? || e.Die?)
    requires !(e.Run? && (s.workers[e.w].pc.Store1? || s.workers[e.w].pc.Store2?))
    ensures Step(p, s, e).disk == s.disk && Rank(Step(p, s, e).workers[e.w]) < Rank(s.workers[e.w])
  {
    assert Local(p, s, s.workers[e.w]);
  }

  lemma Store1Drops(mem: Table, disk: Table, k: nat)
    requires k < |mem| == |disk| && !Claimable(mem[k]) && Claimable(disk[k])
    requires NoneNew(mem, disk, -1)
    ensures CountIf(mem, Claimable) + 1 <= CountIf(disk, Claimable)
  {
    CountUpdate(disk, Claimable, k, mem[k]);
    CountImplies(mem, disk[k := mem[k]], Claimable, Claimable);
  }

  ghost function Steps(es: seq<Event>): nat {
    if es == [] then 0
    else Steps(es[..|es| - 1]) + (if es[|es| - 1].Interrupt? then 0 else 1)
  }

  lemma {:induction false} Terminates(p: Plan, es: seq<Event>)
    requires ValidRun(p, Start(p), es)
    ensures Steps(es) + Measure(p, RunOf(p, Start(p), es)) <= 2 * (ParentWeight(p) * p.n) + 14 * |p.stale|
    decreases |es|
  {
    if es == [] {
      assert ParentWeight(p) * (2 * p.n) == 2 * (ParentWeight(p) * p.n);
    } else {
      var before := es[..|es| - 1];
      Terminates(p, before);
      InvAlways(p, before);
      MeasureStep(p, RunOf(p, Start(p), before), es[|es| - 1]);
    }
  }

  // ---- such runs exist -----------------------------------------------------

  // The undisturbed runs after which neither the parent nor a worker can go on.
  ghost function Endings(p: Plan): iset<seq<Event>> {
    iset es: seq<Event> | ValidRun(p, Start(p), es) && Undisturbed(es) && Stuck(p, RunOf(p, Start(p), es))
  }

  // Left alone, every upload that has begun in whatever way comes to such an end.
  lemma {:induction false} RunsToTheEnd(p: Plan, es: seq<Event>)
    requires ValidRun(p, Start(p), es) && Undisturbed(es)
    ensures exists all :: all in Endings(p) && es <= all
    decreases Measure(p, RunOf(p, Start(p), es))
  {
    var s := RunOf(p, Start(p), es);
    InvAlways(p, es);
    if Stuck(p, s) {
      assert es in Endings(p);
    } else {
      var e := NextEvent(p, s);
      Extend(p, es, e);
      MeasureStep(p, s, e);
      NonNegative(p, es + [e]);
      RunsToTheEnd(p, es + [e]);
      var all :| all in Endings(p) && es + [e] <= all;
      assert es <= all;
    }
  }

  ghost function NextEvent(p: Plan, s: State): (e: Event)
    requires !Stuck(p, s)
    ensures Enabled(p, s, e) && !e.Die? && !e.Interrupt?
  {
    if Enabled(p, s, Save) then Save
    else if exists j: Digest :: Enabled(p, s, Fork(j)) then
      var j: Digest :| Enabled(p, s, Fork(j));
      Fork(j)
    else
      var w: nat :| CanRun(s, w);
      Run(w)
  }

  lemma Extend(p: Plan, es: seq<Event>, e: Event)
    requires ValidRun(p, Start(p), es) && Undisturbed(es)
    requires Enabled(p, RunOf(p, Start(p), es), e) && !e.Die? && !e.Interrupt?
    ensures ValidRun(p, Start(p), es + [e]) && Undisturbed(es + [e])
    ensures RunOf(p, Start(p), es + [e]) == Step(p, RunOf(p, Start(p), es), e)
  {
    assert (es + [e])[..|es + [e]| - 1] == es;
  }

  lemma NonNegative(p: Plan, es: seq<Event>)
    requires ValidRun(p, Start(p), es)
    ensures 0 <= Measure(p, RunOf(p, Start(p), es))
  {
    InvAlways(p, es);
    var s := RunOf(p, Start(p), es);
    MeasureStep(p, s, Interrupt);
  }

  // A concrete array: one chunk finished, one marked as in transfer by an earlier upload, one
  // open. Left alone, an upload resumed from it sends the third and never the second.
  lemma ResumedUpload(n: nat) returns (p: Plan, es: seq<Event>)
    requires n > 0
    ensures p == Plan([ChunkInfo(ZERO_DIGEST, 5, Ok), ChunkInfo(ZERO_DIGEST, 5, Upload),
                       ChunkInfo(ZERO_DIGEST, 5, Pending)], n)
    ensures es in Endings(p)
    ensures var s := RunOf(p, Start(p), es);
      NotOk(s.disk) == {1} && forall i: nat :: i in s.sent <==> i == 2
  {
    p := Plan([ChunkInfo(ZERO_DIGEST, 5, Ok), ChunkInfo(ZERO_DIGEST, 5, Upload),
               ChunkInfo(ZERO_DIGEST, 5, Pending)], n);
    RunsToTheEnd(p, []);
    es :| es in Endings(p);
    Complete(p, es);
    assert InTransit(p.stale) == {1};
  }
}
