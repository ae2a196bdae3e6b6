/** What control-C does to the workers of a running upload. */
module UploadInterrupt {
  import opened Bytes
  import opened ChunkTable
  import opened UploadWorkers

  ghost function Presses(es: seq<Event>): nat {
    if es == [] then 0 else Presses(es[..|es| - 1]) + (if es[|es| - 1].Interrupt? then 1 else 0)
  }

  lemma {:induction false} KillCounts(p: Plan, s: State, es: seq<Event>)
    requires ValidRun(p, s, es)
    ensures RunOf(p, s, es).kill == s.kill + Presses(es)
    decreases |es|
  {
    if es != [] { KillCounts(p, s, es[..|es| - 1]); }
  }

  // The worker is on its way to a claim; one that is yet to be forked will be.
  predicate MayClaim(s: State, w: nat) {
    w < |s.workers| ==>
      var pc := s.workers[w].pc;
      pc.Lock1? || pc.Load1? || pc.Pick? || pc.Store1?
  }

  predicate Leaving(pc: Pc) { pc.ReleaseEmpty? || pc.Bye? || pc.ExitEmpty? }

  // How often worker w claims, and sends, in a run.
  ghost function ClaimsBy(p: Plan, s: State, es: seq<Event>, w: nat): nat
    requires ValidRun(p, s, es)
  {
    if es == [] then 0
    else
      var m := RunOf(p, s, es[..|es| - 1]);
      ClaimsBy(p, s, es[..|es| - 1], w) + (if es[|es| - 1] == Run(w) && m.workers[w].pc.Store1? then 1 else 0)
  }

  function Chance(s: State, w: nat): nat { if MayClaim(s, w) then 1 else 0 }

  // Once the flag is set each worker, also one forked later, claims at most once more, and one
  // that is past its claim never again: it leaves by the test of the flag or dies.
  lemma {:induction false} FlagEach(p: Plan, s: State, es: seq<Event>, w: nat)
    requires ValidRun(p, s, es) && s.kill > 0
    ensures var s' := RunOf(p, s, es);
      && s'.kill > 0 && |s'.workers| >= |s.workers|
      && ClaimsBy(p, s, es, w) + Chance(s', w) <= Chance(s, w)
      && (!MayClaim(s, w) && !Leaving(s.workers[w].pc) ==>
            && s'.workers[w].own == s.workers[w].own && !Leaving(s'.workers[w].pc)
            && (Gone(s'.workers[w].pc) ==> s'.workers[w].pc.ExitLoop? || s'.workers[w].pc.Killed?))
    decreases |es|
  {
    if es != [] {
      FlagEach(p, s, es[..|es| - 1], w);
      FlagOne(p, RunOf(p, s, es[..|es| - 1]), es[|es| - 1], w);
    }
  }

  lemma FlagOne(p: Plan, s: State, e: Event, w: nat)
    requires Enabled(p, s, e) && s.kill > 0
    ensures var s' := Step(p, s, e);
      && s'.kill > 0 && |s'.workers| >= |s.workers|
      && (if e == Run(w) && s.workers[w].pc.Store1? then 1 else 0) + Chance(s', w) <= Chance(s, w)
      && (!MayClaim(s, w) && !Leaving(s.workers[w].pc) ==>
            && s'.workers[w].own == s.workers[w].own && !Leaving(s'.workers[w].pc)
            && (Gone(s'.workers[w].pc) ==>
                  s'.workers[w].pc.ExitLoop? || s'.workers[w].pc.Killed? || s'.workers[w] == s.workers[w]))
  {
    if e == Run(w) {
      FlagOwn(s, w);
    } else {
      assert w < |s.workers| && e != Die(w) ==> Step(p, s, e).workers[w] == s.workers[w];
    }
  }

  lemma FlagOwn(s: State, w: nat)
    requires CanRun(s, w) && s.kill > 0
    ensures var s' := RunStep(s, w);
      && s'.kill > 0 && |s'.workers| == |s.workers|
      && (if s.workers[w].pc.Store1? then 1 else 0) + Chance(s', w) <= Chance(s, w)
      && (!MayClaim(s, w) && !Leaving(s.workers[w].pc) ==>
            && s'.workers[w].own == s.workers[w].own && !Leaving(s'.workers[w].pc)
            && (Gone(s'.workers[w].pc) ==> s'.workers[w].pc.ExitLoop?))
  {
  }
}
