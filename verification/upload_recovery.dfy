/** An upload that lost a worker, the recover that is meant to repair it, and the next upload. */
module UploadRecovery {
  import opened ChunkTable
  import opened UploadWorkers
  import opened UploadTheorems
  import opened UploadExclusion

  // What the documentation says of recover: every chunk that is not Ok becomes pending.
  function Promised(t: Table): (r: Table)
    ensures |r| == |t|
    ensures forall k :: 0 <= k < |t| ==> r[k] == if t[k].status == Ok then t[k] else t[k].(status := Pending)
  {
    seq(|t|, k requires 0 <= k < |t| => if t[k].status == Ok then t[k] else t[k].(status := Pending))
  }

  ghost function Uploading(t: Table): set<nat> {
    set i: nat | i < |t| && t[i].status == Upload
  }

  // Recover does what is said of it, and leaves nothing but finished and pending chunks, exactly
  // on the tables in which no chunk is marked as being uploaded.
  lemma RecoverAsPromised(t: Table)
    ensures RecoverTable(t) == Promised(t) <==> Uploading(t) == {}
    ensures (forall i :: 0 <= i < |t| ==> RecoverTable(t)[i].status == Ok || RecoverTable(t)[i].status == Pending)
      <==> Uploading(t) == {}
    ensures InTransit(RecoverTable(t)) == Uploading(t)
  {
    var r := RecoverTable(t);
    if Uploading(t) == {} {
      forall i: nat | i < |t|
        ensures r[i] == Promised(t)[i] && (r[i].status == Ok || r[i].status == Pending)
      {
        assert i !in Uploading(t);
      }
      assert r == Promised(t);
    } else {
      var i: nat :| i in Uploading(t);
      assert r[i].status == Upload && Promised(t)[i].status == Pending;
    }
  }

  // A table on which it fails.
  lemma RecoverFails()
    ensures var t := [ChunkInfo(ZERO_DIGEST, 1, Upload)];
      RecoverTable(t) != Promised(t) && RecoverTable(t)[0].status == Upload
  {
    var t := [ChunkInfo(ZERO_DIGEST, 1, Upload)];
    assert Promised(t)[0].status == Pending;
  }

  // The next upload after a forced recover of any table: left undisturbed it sends exactly the
  // chunks that were neither Ok nor marked as being uploaded, and never finishes the latter.
  lemma UploadAfterRecover(t: Table, p: Plan, es: seq<Event>)
    requires p.stale == RecoverTable(t) && p.n > 0 && es in Endings(p)
    ensures var s := RunOf(p, Start(p), es);
      && NotOk(s.disk) == Uploading(t)
      && forall i: nat :: i in s.sent <==> i in NotOk(t) - Uploading(t)
  {
    Complete(p, es);
    RecoverAsPromised(t);
  }

  // So after an upload, begun with nothing in transit, in which workers died: what the next one
  // leaves unsent are the chunks the file still shows in transfer, each the last chunk of a
  // dead worker.
  lemma LeftByTheDead(q: Plan, before: seq<Event>, p: Plan, es: seq<Event>)
    requires ValidRun(q, Start(q), before) && InTransit(q.stale) == {}
    requires var m := RunOf(q, Start(q), before); AllGone(m) && p.stale == RecoverTable(m.disk)
    requires p.n > 0 && es in Endings(p)
    ensures var m, s := RunOf(q, Start(q), before), RunOf(p, Start(p), es);
      && NotOk(s.disk) == Uploading(m.disk)
      && forall i :: i in Uploading(m.disk) ==>
           i !in s.sent && exists w :: w in DeadWorkers(m) && m.workers[w].own == i
  {
    InvAlways(q, before);
    var m := RunOf(q, Start(q), before);
    UploadAfterRecover(m.disk, p, es);
    forall i | i in Uploading(m.disk)
      ensures exists w :: w in DeadWorkers(m) && m.workers[w].own == i
    {
      assert i !in InTransit(q.stale);
      assert Held(m.workers, i);
      var w: nat :| w < |m.workers| && HasChunk(m.workers[w]) && m.workers[w].own == i;
      assert w in DeadWorkers(m) && m.workers[w].own == i;
    }
  }

  // And it happens: whatever is to be uploaded, a worker that dies while sending the first open
  // chunk leaves a chunk that recover does not reopen and no later upload sends.
  lemma ChunkLost(q: Plan, n: nat) returns (before: seq<Event>, p: Plan, es: seq<Event>)
    requires NextPending(q.stale) >= 0 && q.n > 0 && n > 0
    ensures ValidRun(q, Start(q), before) && AllGone(RunOf(q, Start(q), before))
    ensures p == Plan(RecoverTable(RunOf(q, Start(q), before).disk), n) && es in Endings(p)
    ensures var k, s := NextPending(q.stale), RunOf(p, Start(p), es);
      k in NotOk(s.disk) && k !in s.sent
  {
    NextPendingIs(q.stale);
    before := OneDeath(q);
    var m := RunOf(q, Start(q), before);
    p := Plan(RecoverTable(m.disk), n);
    RunsToTheEnd(p, []);
    es :| es in Endings(p);
    UploadAfterRecover(m.disk, p, es);
  }

  lemma OneDeath(q: Plan) returns (es: seq<Event>)
    requires NextPending(q.stale) >= 0 && q.n > 0
    ensures ValidRun(q, Start(q), es)
    ensures var m := RunOf(q, Start(q), es);
      AllGone(m) && NextPending(q.stale) < |m.disk| && m.disk[NextPending(q.stale)].status == Upload
  {
    NextPendingIs(q.stale);
    Grow(q, [], Save);
    Grow(q, [Save], Fork(ZERO_DIGEST));
    es := ClaimNext(q, [Save] + [Fork(ZERO_DIGEST)], 0);
    Grow(q, es, Die(0));
    es := es + [Die(0)];
  }
}
