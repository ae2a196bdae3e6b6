/** What control-C does to a running download: the flag lets every worker finish the chunk it has
    and stops it before the next. */
module DownloadInterrupt {
  import opened Bytes
  import opened ChunkTable
  import opened Counting
  import opened DownloadWorkers
  import opened DownloadTheorems
  import A = AtomicDownload

  // Every press counts, and nothing else sets the flag or clears it.
  ghost function Presses(es: seq<Event>): nat {
    if es == [] then 0 else Presses(es[..|es| - 1]) + (if es[|es| - 1].Interrupt? then 1 else 0)
  }

  lemma {:induction false} KillCounts(c: Config, s: State, es: seq<Event>)
    requires ValidRun(c, s, es)
    ensures RunOf(c, s, es).kill == s.kill + Presses(es)
    decreases |es|
  {
    if es != [] { KillCounts(c, s, es[..|es| - 1]); }
  }

  // The worker is on its way to a claim.
  predicate MayClaim(x: Worker) { x.pc.Lock1? || x.pc.Load1? || x.pc.Pick? || x.pc.Store1? }

  // How often worker w claims in a run.
  ghost function ClaimsBy(c: Config, s: State, es: seq<Event>, w: nat): nat
    requires ValidRun(c, s, es)
  {
    if es == [] then 0
    else
      var m := RunOf(c, s, es[..|es| - 1]);
      ClaimsBy(c, s, es[..|es| - 1], w) + (if es[|es| - 1] == Run(w) && m.workers[w].pc.Store1? then 1 else 0)
  }

  function Chance(x: Worker): nat { if MayClaim(x) then 1 else 0 }

  lemma FlagStep(c: Config, s: State, e: Event)
    requires Enabled(c, s, e) && s.kill > 0
    ensures var s' := Step(c, s, e);
      && s'.kill > 0 && |s'.workers| == |s.workers|
      && |s'.log| + CountIf(s'.workers, MayClaim) <= |s.log| + CountIf(s.workers, MayClaim)
  {
    if !e.Interrupt? {
      CountUpdate(s.workers, MayClaim, e.w, Step(c, s, e).workers[e.w]);
    }
  }

  // Once the flag is set, over every run, failures and deaths included: no more chunks are
  // claimed than there are workers on their way to a claim.
  lemma {:induction false} FlagRun(c: Config, s: State, es: seq<Event>)
    requires ValidRun(c, s, es) && s.kill > 0
    ensures var s' := RunOf(c, s, es);
      && s'.kill > 0 && |s'.workers| == |s.workers|
      && |s'.log| + CountIf(s'.workers, MayClaim) <= |s.log| + CountIf(s.workers, MayClaim)
    decreases |es|
  {
    if es != [] {
      FlagRun(c, s, es[..|es| - 1]);
      FlagStep(c, RunOf(c, s, es[..|es| - 1]), es[|es| - 1]);
    }
  }

  // And each of these workers claims at most once, while one that is past its claim never claims
  // again: it keeps its chunk, and it leaves by the test of the flag or dies.
  lemma {:induction false} FlagEach(c: Config, s: State, es: seq<Event>, w: nat)
    requires ValidRun(c, s, es) && s.kill > 0 && w < |s.workers|
    ensures var s' := RunOf(c, s, es);
      && s'.kill > 0 && |s'.workers| == |s.workers|
      && ClaimsBy(c, s, es, w) + Chance(s'.workers[w]) <= Chance(s.workers[w])
      && (!MayClaim(s.workers[w]) && !Leaving(s.workers[w]) ==>
            && s'.workers[w].own == s.workers[w].own && !Leaving(s'.workers[w])
            && (Gone(s'.workers[w].pc) ==> s'.workers[w].pc.ExitLoop? || s'.workers[w].pc.Killed?))
    decreases |es|
  {
    if es != [] {
      FlagEach(c, s, es[..|es| - 1], w);
      FlagOne(c, RunOf(c, s, es[..|es| - 1]), es[|es| - 1], w);
    }
  }

  lemma FlagOne(c: Config, s: State, e: Event, w: nat)
    requires Enabled(c, s, e) && s.kill > 0 && w < |s.workers|
    ensures var s' := Step(c, s, e);
      && s'.kill > 0 && |s'.workers| == |s.workers|
      && (if e == Run(w) && s.workers[w].pc.Store1? then 1 else 0) + Chance(s'.workers[w]) <= Chance(s.workers[w])
      && (!MayClaim(s.workers[w]) && !Leaving(s.workers[w]) ==>
            && s'.workers[w].own == s.workers[w].own && !Leaving(s'.workers[w])
            && (Gone(s'.workers[w].pc) ==>
                  s'.workers[w].pc.ExitLoop? || s'.workers[w].pc.Killed? || s'.workers[w] == s.workers[w]))
  {
    if e == Run(w) {
      FlagOwn(c, s, w);
    } else {
      assert e.Interrupt? || e.w != w ==> Step(c, s, e).workers[w] == s.workers[w];
    }
  }

  lemma FlagOwn(c: Config, s: State, w: nat)
    requires CanRun(c, s, w) && s.kill > 0
    ensures var s' := RunStep(c, s, w);
      && s'.kill > 0 && |s'.workers| == |s.workers|
      && (if s.workers[w].pc.Store1? then 1 else 0) + Chance(s'.workers[w]) <= Chance(s.workers[w])
      && (!MayClaim(s.workers[w]) && !Leaving(s.workers[w]) ==>
            && s'.workers[w].own == s.workers[w].own && !Leaving(s'.workers[w])
            && (Gone(s'.workers[w].pc) ==> s'.workers[w].pc.ExitLoop?))
  {
  }

  // The worker has found nothing to claim.
  predicate Leaving(x: Worker) { x.pc.ReleaseEmpty? || x.pc.ExitEmpty? }

  // No connection fails and nobody dies; the flag may be set.
  ghost predicate Healthy(es: seq<Event>) {
    forall k :: 0 <= k < |es| ==> es[k].Run? || es[k].Interrupt?
  }

  // The worker has chunk i in transfer on a sound connection, or has finished it.
  ghost predicate Secure(s: State, w: nat, i: nat) {
    && w < |s.workers| && i < |s.disk|
    && ((InTransfer(s.workers[w].pc) && !s.workers[w].sockError && s.workers[w].own == i) || s.disk[i].status == Ok)
  }

  lemma SecureStep(c: Config, disk: Table, s: State, e: Event, w: nat, i: nat)
    requires A.ValidConfig(c) && Inv(c, s) && A.Ownership(disk, Abs(s)) && Enabled(c, s, e)
    requires Secure(s, w, i) && (e.Run? || e.Interrupt?)
    ensures Secure(Step(c, s, e), w, i)
  {
    if s.disk[i].status == Ok {
      Simulation(c, s, e);
      if AbsEvent(s, e) != [] { A.OkStays(c, disk, Abs(s), AbsEvent(s, e)[0], i); }
      assert Abs(Step(c, s, e)).table == Step(c, s, e).disk;
    } else {
      SecureMoves(c, s, e, w, i);
    }
  }

  lemma SecureMoves(c: Config, s: State, e: Event, w: nat, i: nat)
    requires A.ValidConfig(c) && Inv(c, s) && Enabled(c, s, e) && (e.Run? || e.Interrupt?)
    requires Secure(s, w, i) && s.disk[i].status != Ok
    ensures Secure(Step(c, s, e), w, i)
  {
    assert Local(c, s, s.workers[w]);
    if e.Run? {
      assert Local(c, s, s.workers[e.w]);
      RunShared(c, s, e.w);
    }
  }

  // Nothing is lost by it: with sound connections every chunk in transfer when the flag is set
  // is finished when all workers have left.
  lemma {:induction false} InTransferFinishes(c: Config, disk: Table, s: State, es: seq<Event>, w: nat, i: nat)
    requires A.ValidConfig(c) && Inv(c, s) && A.Inv(c, disk, Abs(s)) && ValidRun(c, s, es) && Healthy(es)
    requires Secure(s, w, i)
    ensures Secure(RunOf(c, s, es), w, i)
    decreases |es|
  {
    if es != [] {
      var before := es[..|es| - 1];
      InTransferFinishes(c, disk, s, before, w, i);
      Refines(c, s, before);
      A.InvRun(c, disk, Abs(s), AbsRun(c, s, before));
      SecureStep(c, disk, RunOf(c, s, before), es[|es| - 1], w, i);
    }
  }

  lemma SecureAtEnd(s: State, w: nat, i: nat)
    requires Secure(s, w, i) && AllGone(s)
    ensures s.disk[i].status == Ok
  {
    assert Gone(s.workers[w].pc);
  }

  // The flag changes nothing else.
  lemma PressKeeps(c: Config, disk: Table, m: State)
    requires A.ValidConfig(c) && Inv(c, m) && A.Inv(c, disk, Abs(m))
    ensures var k := Step(c, m, Interrupt);
      && Inv(c, k) && A.Inv(c, disk, Abs(k)) && k.kill > 0
      && k.workers == m.workers && k.disk == m.disk && k.log == m.log
  {
    InvStep(c, m, Interrupt);
    Simulation(c, m, Interrupt);
    A.InvStep(c, disk, Abs(m), A.Interrupt);
  }

  lemma FinishedAfter(c: Config, disk: Table, k: State, es: seq<Event>, w: nat)
    requires A.ValidConfig(c) && Inv(c, k) && A.Inv(c, disk, Abs(k)) && ValidRun(c, k, es) && Healthy(es)
    requires w < |k.workers| && InTransfer(k.workers[w].pc) && !k.workers[w].sockError
    requires AllGone(RunOf(c, k, es))
    ensures k.workers[w].own < |RunOf(c, k, es).disk| && RunOf(c, k, es).disk[k.workers[w].own].status == Ok
  {
    assert Local(c, k, k.workers[w]);
    InTransferFinishes(c, disk, k, es, w, k.workers[w].own);
    SecureAtEnd(RunOf(c, k, es), w, k.workers[w].own);
  }

  // The whole of a graceful interrupt, from any reachable state: at most one more chunk for each
  // worker that was not past its claim, and every chunk in transfer at the time is finished.
  lemma GracefulInterrupt(c: Config, disk: Table, file: bytes, n: nat, es: seq<Event>, es': seq<Event>)
    requires A.ValidConfig(c) && A.GoodTable(c, disk, file) && ValidRun(c, Start(disk, file, n), es)
    requires var m := RunOf(c, Start(disk, file, n), es);
      && ValidRun(c, Step(c, m, Interrupt), es') && Healthy(es') && AllGone(RunOf(c, Step(c, m, Interrupt), es'))
    ensures var m := RunOf(c, Start(disk, file, n), es);
      var s := RunOf(c, Step(c, m, Interrupt), es');
      && |s.log| <= |m.log| + CountIf(m.workers, MayClaim)
      && s.kill > 0
      && forall w :: 0 <= w < |m.workers| && InTransfer(m.workers[w].pc) && !m.workers[w].sockError ==>
           m.workers[w].own < |s.disk| && s.disk[m.workers[w].own].status == Ok
  {
    Reachable(c, disk, file, n, es);
    var m := RunOf(c, Start(disk, file, n), es);
    var k := Step(c, m, Interrupt);
    PressKeeps(c, disk, m);
    FlagRun(c, k, es');
    forall w: nat | w < |m.workers| && InTransfer(m.workers[w].pc) && !m.workers[w].sockError
      ensures m.workers[w].own < |RunOf(c, k, es').disk| && RunOf(c, k, es').disk[m.workers[w].own].status == Ok
    {
      FinishedAfter(c, disk, k, es', w);
    }
  }

  // And the run can come to such an end after the interrupt, whenever it comes.
  lemma GracefulEnd(c: Config, disk: Table, file: bytes, n: nat, es: seq<Event>) returns (es': seq<Event>)
    requires A.ValidConfig(c) && A.GoodTable(c, disk, file) && ValidRun(c, Start(disk, file, n), es)
    ensures var k := Step(c, RunOf(c, Start(disk, file, n), es), Interrupt);
      ValidRun(c, k, es') && Healthy(es') && AllGone(RunOf(c, k, es'))
  {
    Reachable(c, disk, file, n, es);
    var m := RunOf(c, Start(disk, file, n), es);
    PressKeeps(c, disk, m);
    RunsToTheEnd(c, disk, Step(c, m, Interrupt));
    es' :| es' in DownloadTheorems.Endings(c, Step(c, m, Interrupt));
  }

  // ---- what a status says at any time --------------------------------------

  // Nothing returns a chunk to pending, and only a failed transfer leaves an error: a chunk that
  // is pending has not been touched, and one in error either was so and has not been touched or
  // was the last chunk of a worker whose connection failed, under the digest field it left.
  ghost predicate Explained(t0: Table, s: State, i: nat)
    requires i < |s.disk| && i < |t0|
  {
    && (s.disk[i].status == Pending ==> s.disk[i] == t0[i])
    && (s.disk[i].status == Error ==> s.disk[i] == t0[i] || exists w :: FailedOn(s, w, i))
    && (Claimable(t0[i]) || s.disk[i] == t0[i])
  }

  ghost predicate FailedOn(s: State, w: nat, i: nat) {
    && w < |s.workers| && s.workers[w].own == i && s.workers[w].sockError && i < |s.disk|
    && !InTransfer(s.workers[w].pc) && s.disk[i].md5 == s.workers[w].md5
  }

  // A worker that has failed does nothing more.
  lemma FailedStays(c: Config, s: State, e: Event, w: nat, i: nat)
    requires A.ValidConfig(c) && Inv(c, s) && Enabled(c, s, e) && FailedOn(s, w, i)
    requires i < |Step(c, s, e).disk| && Step(c, s, e).disk[i] == s.disk[i]
    ensures FailedOn(Step(c, s, e), w, i)
  {
    assert Local(c, s, s.workers[w]);
  }

  lemma ExplainedStep(c: Config, t0: Table, s: State, e: Event, i: nat)
    requires A.ValidConfig(c) && Inv(c, s) && A.Ownership(t0, Abs(s)) && Enabled(c, s, e)
    requires i < |s.disk| == |t0| && Explained(t0, s, i)
    ensures i < |Step(c, s, e).disk| && Explained(t0, Step(c, s, e), i)
  {
    var s' := Step(c, s, e);
    if e.Run? && (s.workers[e.w].pc.Store1? || s.workers[e.w].pc.Store2?) {
      ExplainedStore(c, t0, s, e.w, i);
    } else {
      assert s'.disk == s.disk;
      if w :| FailedOn(s, w, i) { FailedStays(c, s, e, w, i); }
    }
  }

  lemma ExplainedStore(c: Config, t0: Table, s: State, v: nat, i: nat)
    requires A.ValidConfig(c) && Inv(c, s) && A.Ownership(t0, Abs(s)) && CanRun(c, s, v)
    requires s.workers[v].pc.Store1? || s.workers[v].pc.Store2?
    requires i < |s.disk| == |t0| && Explained(t0, s, i)
    ensures i < |RunStep(c, s, v).disk| && Explained(t0, RunStep(c, s, v), i)
  {
    var x, s' := s.workers[v], RunStep(c, s, v);
    assert Local(c, s, x);
    NextPendingIs(s.disk);
    var mine := if x.pc.Store1? then x.chunk else x.own;
    if i == mine {
      if x.pc.Store2? {
        assert A.Holds(Abs(s).workers[v]);
        if x.sockError { assert FailedOn(s', v, i); }
      }
    } else {
      assert s'.disk[i] == s.disk[i];
      if w :| FailedOn(s, w, i) { FailedStays(c, s, Run(v), w, i); }
    }
  }

  lemma {:induction false} StatusExplained(c: Config, disk: Table, file: bytes, n: nat, es: seq<Event>, i: nat)
    requires A.ValidConfig(c) && A.GoodTable(c, disk, file) && ValidRun(c, Start(disk, file, n), es) && i < |disk|
    ensures var s := RunOf(c, Start(disk, file, n), es);
      i < |s.disk| == |disk| && Explained(disk, s, i)
    decreases |es|
  {
    Reachable(c, disk, file, n, es);
    if es != [] {
      var before := es[..|es| - 1];
      Reachable(c, disk, file, n, before);
      StatusExplained(c, disk, file, n, before, i);
      ExplainedStep(c, disk, RunOf(c, Start(disk, file, n), before), es[|es| - 1], i);
    }
  }
}
