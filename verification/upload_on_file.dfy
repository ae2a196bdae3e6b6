/** The upload machine's array is the one in the metadata file, byte for byte, under the header
    the parent saves; and what a waiting upload worker finds there. */
module UploadOnFile {
  import opened Bytes
  import opened ChunkTable
  import opened MetadataCodec
  import opened UploadWorkers
  import opened UploadTheorems
  import opened CriticalSections
  import U = UploadLoop

  // The file's bytes after one event: the parent saves header and old array from the start of
  // the file, a worker writes its copy at offset 2103.
  ghost function FileAfter(p: Plan, h: Header, f: bytes, s: State, e: Event): bytes {
    if e.Save? then WriteAt(f, 0, Encode(h, p.stale))
    else if e.Run? && e.w < |s.workers| && (s.workers[e.w].pc.Store1? || s.workers[e.w].pc.Store2?)
    then WriteAt(f, HEADER_SIZE, EncodeTable(s.workers[e.w].mem))
    else f
  }

  ghost function FileRun(p: Plan, h: Header, s: State, es: seq<Event>, f: bytes): bytes
    requires ValidRun(p, s, es)
  {
    if es == [] then f
    else FileAfter(p, h, FileRun(p, h, s, es[..|es| - 1], f), RunOf(p, s, es[..|es| - 1]), es[|es| - 1])
  }

  // The parent has saved at least once: there are no workers before that.
  predicate Begun(s: State) { s.saved || s.workers != [] }

  ghost predicate Fits(p: Plan, h: Header) {
    ValidHeader(h) && ValidTable(p.stale) && |p.stale| == h.chunks
  }

  // Over every run, whatever was in the file before: once the parent has begun, a load finds
  // the machine's array under the parent's header.
  lemma {:induction false} FileIsTheArray(p: Plan, h: Header, es: seq<Event>, f: bytes)
    requires Fits(p, h) && ValidRun(p, Start(p), es)
    ensures var s := RunOf(p, Start(p), es);
      Begun(s) ==> Decode(FileRun(p, h, Start(p), es, f)) == Loaded(h, s.disk)
    decreases |es|
  {
    if es != [] {
      var before, e := es[..|es| - 1], es[|es| - 1];
      FileIsTheArray(p, h, before, f);
      InvAlways(p, before);
      OneEvent(p, h, RunOf(p, Start(p), before), e, FileRun(p, h, Start(p), before, f));
    }
  }

  lemma OneEvent(p: Plan, h: Header, s: State, e: Event, f: bytes)
    requires Fits(p, h) && Inv(p, s) && Enabled(p, s, e)
    requires Begun(s) ==> Decode(f) == Loaded(h, s.disk)
    ensures Begun(Step(p, s, e)) ==> Decode(FileAfter(p, h, f, s, e)) == Loaded(h, Step(p, s, e).disk)
    ensures Begun(s) ==> Begun(Step(p, s, e))
  {
    if e.Save? {
      LoadUndoesSave(h, p.stale, f);
    } else if e.Run? && (s.workers[e.w].pc.Store1? || s.workers[e.w].pc.Store2?) {
      CopySizes(p, s, e.w);
      LoadAfterUpdate(f, h, s.disk, s.workers[e.w].mem);
      StoreCopies(s, e.w);
    } else {
      DiskSame(p, s, e);
    }
  }

  lemma CopySizes(p: Plan, s: State, w: nat)
    requires Inv(p, s) && ValidTable(p.stale)
    requires w < |s.workers| && (s.workers[w].pc.Store1? || s.workers[w].pc.Store2?)
    ensures |s.workers[w].mem| == |s.disk| && ValidTable(s.workers[w].mem)
  {
    assert Local(p, s, s.workers[w]);
  }

  lemma StoreCopies(s: State, w: nat)
    requires CanRun(s, w) && (s.workers[w].pc.Store1? || s.workers[w].pc.Store2?)
    ensures RunStep(s, w).disk == s.workers[w].mem && Begun(RunStep(s, w))
  {
  }

  lemma DiskSame(p: Plan, s: State, e: Event)
    requires Enabled(p, s, e) && !e.Save?
    requires !(e.Run? && (s.workers[e.w].pc.Store1? || s.workers[e.w].pc.Store2?))
    ensures Step(p, s, e).disk == s.disk && (Begun(s) <==> Begun(Step(p, s, e)))
  {
  }

  // Whatever parent and workers do from a reachable state on, a load finds the machine's array
  // under the same header; unless the parent saves, NoSaveKeepsOk says the rest.
  lemma {:induction false} OthersKeep(p: Plan, h: Header, s: State, es: seq<Event>, f: bytes)
    requires Fits(p, h) && Inv(p, s) && Begun(s)
    requires ValidRun(p, s, es) && Decode(f) == Loaded(h, s.disk)
    ensures Inv(p, RunOf(p, s, es)) && Begun(RunOf(p, s, es))
    ensures Decode(FileRun(p, h, s, es, f)) == Loaded(h, RunOf(p, s, es).disk)
    decreases |es|
  {
    if es != [] {
      var before, e := es[..|es| - 1], es[|es| - 1];
      OthersKeep(p, h, s, before, f);
      InvStep(p, RunOf(p, s, before), e);
      OneEvent(p, h, RunOf(p, s, before), e, FileRun(p, h, s, before, f));
    }
  }

  // A wait in some run, with or without the parent saving in the meantime.
  ghost predicate WaitOf(p: Plan, h: Header, wait: Wait, quiet: bool) {
    exists s: State, es: seq<Event> {:trigger FileRun(p, h, s, es, wait.before)} ::
      && Inv(p, s) && CopiesOk(s) && Begun(s) && ValidRun(p, s, es)
      && (quiet ==> forall k :: 0 <= k < |es| ==> es[k] != Save)
      && Decode(wait.before) == Loaded(h, s.disk) && wait.after == FileRun(p, h, s, es, wait.before)
  }

  // Whatever an upload worker meets at its waits, as long as it is what parent and workers can
  // do and the parent saves no more from wait number `quiet` on, is within what its loop relies
  // on.
  lemma WaitsRely(p: Plan, h: Header, waits: map<nat, Wait>, quiet: nat)
    requires Fits(p, h)
    requires forall turn :: turn in waits ==> WaitOf(p, h, waits[turn], turn >= quiet)
    ensures U.UploadRely(Answers(waits), h, quiet)
  {
    forall turn | turn in waits
      ensures Holds(h, waits[turn].before) && Holds(h, waits[turn].after)
      ensures turn >= quiet ==> StillOk(TableIn(h, waits[turn].before), TableIn(h, waits[turn].after))
    {
      WaitKeeps(p, h, waits[turn], turn >= quiet);
    }
    AnswersKeep(waits, h, quiet);
  }

  lemma AnswersKeep(waits: map<nat, Wait>, h: Header, quiet: nat)
    requires forall turn :: turn in waits ==> Holds(h, waits[turn].before) && Holds(h, waits[turn].after)
    requires forall turn :: turn in waits && turn >= quiet ==>
      StillOk(TableIn(h, waits[turn].before), TableIn(h, waits[turn].after))
    ensures U.UploadRely(Answers(waits), h, quiet)
  {
  }

  lemma WaitKeeps(p: Plan, h: Header, wait: Wait, quiet: bool)
    requires Fits(p, h) && WaitOf(p, h, wait, quiet)
    ensures Holds(h, wait.before) && Holds(h, wait.after)
    ensures quiet ==> StillOk(TableIn(h, wait.before), TableIn(h, wait.after))
  {
    var s: State, es: seq<Event> :| Inv(p, s) && CopiesOk(s) && Begun(s) && ValidRun(p, s, es)
      && (quiet ==> forall k :: 0 <= k < |es| ==> es[k] != Save)
      && Decode(wait.before) == Loaded(h, s.disk) && wait.after == FileRun(p, h, s, es, wait.before);
    OthersKeep(p, h, s, es, wait.before);
    Close(h, wait.before);
    Close(h, wait.after);
    if quiet { NoSaveKeepsOk(p, s, es); }
  }
}
