/** Exactly when uploads claim exclusively: with one worker, or with nothing to claim. */
module UploadExclusion {
  import opened Bytes
  import opened ChunkTable
  import opened UploadWorkers

  // No two live workers have the same chunk in transfer.
  ghost predicate OneHolder(s: State) {
    forall v, w :: 0 <= v < w < |s.workers| && InTransfer(s.workers[v].pc) && InTransfer(s.workers[w].pc) ==>
      s.workers[v].own != s.workers[w].own
  }

  // Every run claims exclusively.
  ghost predicate Exclusive(p: Plan) {
    forall es: seq<Event> | ValidRun(p, Start(p), es) :: OneHolder(RunOf(p, Start(p), es))
  }

  // The download's guarantee does not carry over: because the parent puts its old array back
  // between forks, two workers can be sending the same chunk whenever there are two workers
  // and a chunk to send, and only then.
  lemma ExclusiveIff(p: Plan)
    ensures Exclusive(p) <==> p.n <= 1 || NextPending(p.stale) == -1
  {
    if p.n <= 1 || NextPending(p.stale) == -1 {
      forall es: seq<Event> | ValidRun(p, Start(p), es)
        ensures OneHolder(RunOf(p, Start(p), es))
      {
        InvAlways(p, es);
        if NextPending(p.stale) == -1 { NobodyHolds(p, RunOf(p, Start(p), es)); }
      }
    } else {
      var es := TwoClaims(p);
    }
  }

  lemma NobodyHolds(p: Plan, s: State)
    requires Inv(p, s) && NextPending(p.stale) == -1
    ensures forall w :: 0 <= w < |s.workers| ==> !InTransfer(s.workers[w].pc)
  {
    NextPendingIs(p.stale);
    forall w | 0 <= w < |s.workers|
      ensures !InTransfer(s.workers[w].pc)
    {
      assert Local(p, s, s.workers[w]);
    }
  }

  lemma Grow(p: Plan, es: seq<Event>, e: Event)
    requires ValidRun(p, Start(p), es) && Enabled(p, RunOf(p, Start(p), es), e)
    ensures ValidRun(p, Start(p), es + [e])
    ensures RunOf(p, Start(p), es + [e]) == Step(p, RunOf(p, Start(p), es), e)
  {
    assert (es + [e])[..|es + [e]| - 1] == es;
  }

  // A worker at its lock, alone, goes through a claim up to the point of sending.
  lemma ClaimNext(p: Plan, es: seq<Event>, w: nat) returns (es': seq<Event>)
    requires ValidRun(p, Start(p), es)
    requires var s := RunOf(p, Start(p), es);
      w < |s.workers| && s.workers[w].pc.Lock1? && s.holder == None && NextPending(s.disk) >= 0
    ensures ValidRun(p, Start(p), es')
    ensures var s, s' := RunOf(p, Start(p), es), RunOf(p, Start(p), es');
      && |s'.workers| == |s.workers| && s'.workers == s.workers[w := s'.workers[w]]
      && s'.workers[w].pc.Send? && s'.workers[w].own == NextPending(s.disk)
      && s'.holder == None && s'.saved == s.saved
      && s'.disk == SetStatus(s.disk, s'.workers[w].own, Upload, None)
  {
    NextPendingIs(RunOf(p, Start(p), es).disk);
    es' := es;
    for k := 0 to 5
      invariant ValidRun(p, Start(p), es')
      invariant RunOf(p, Start(p), es') == Claiming(RunOf(p, Start(p), es), w, k)
    {
      ClaimingStep(RunOf(p, Start(p), es), w, k);
      Grow(p, es', Run(w));
      es' := es' + [Run(w)];
    }
  }

  lemma ClaimingStep(s: State, w: nat, k: nat)
    requires w < |s.workers| && k < 5 && NextPending(s.disk) >= 0
    requires s.workers[w].pc.Lock1? && s.holder == None
    ensures CanRun(Claiming(s, w, k), w)
    ensures RunStep(Claiming(s, w, k), w) == Claiming(s, w, k + 1)
  {
    NextPendingIs(s.disk);
  }

  // The state after the first k statements of that claim.
  ghost function Claiming(s: State, w: nat, k: nat): State
    requires w < |s.workers| && k <= 5 && NextPending(s.disk) >= 0
  {
    NextPendingIs(s.disk);
    var x, c := s.workers[w], NextPending(s.disk);
    var marked := SetStatus(s.disk, c, Upload, None);
    if k == 0 then s
    else if k == 1 then Put(s, w, x.(pc := Load1)).(holder := Some(w))
    else if k == 2 then Put(s, w, x.(pc := Pick, mem := s.disk)).(holder := Some(w))
    else if k == 3 then Put(s, w, x.(pc := Store1, mem := marked, chunk := c)).(holder := Some(w))
    else if k == 4 then
      Put(s, w, x.(pc := Release1, mem := marked, chunk := c, own := c)).(holder := Some(w), disk := marked)
    else Put(s, w, x.(pc := Send, mem := marked, chunk := c, own := c)).(holder := None, disk := marked)
  }

  // The first worker claims a chunk, the parent puts the old array back and forks the second
  // worker, which claims the same chunk.
  lemma TwoClaims(p: Plan) returns (es: seq<Event>)
    requires p.n >= 2 && NextPending(p.stale) >= 0
    ensures ValidRun(p, Start(p), es) && !OneHolder(RunOf(p, Start(p), es))
  {
    var fork := Fork(ZERO_DIGEST);
    es := [];
    Grow(p, es, Save);
    es := es + [Save];
    Grow(p, es, fork);
    es := ClaimNext(p, es + [fork], 0);
    Grow(p, es, Save);
    es := es + [Save];
    Grow(p, es, fork);
    es := ClaimNext(p, es + [fork], 1);
    var s := RunOf(p, Start(p), es);
    assert InTransfer(s.workers[0].pc) && InTransfer(s.workers[1].pc);
  }
}
