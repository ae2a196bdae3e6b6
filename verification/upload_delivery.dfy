/** The upload from the shared array to the bytes of the target file. */
module UploadDelivery {
  import opened Bytes
  import opened ChunkLayout
  import opened ChunkTable
  import opened UploadWorkers
  import opened UploadTheorems
  import opened Wire

  // The records that reached the target, in the order in which the server processes wrote
  // them: those of the chunks sent, each with its chunk's bytes, none missing and none added.
  // Any interleaving of the connections and any repetition qualifies.
  ghost predicate Delivered(src: bytes, chunkSize: nat, sent: seq<nat>, order: seq<Record>)
    requires chunkSize > 0
  {
    && (forall r :: r in order ==> TrueRecord(src, chunkSize, r) && r.chunk in sent)
    && (forall i: nat :: i in sent ==> exists r :: r in order && r.chunk == i)
  }

  function EndOf(src: bytes, chunkSize: nat, i: nat): nat
    requires chunkSize > 0 && i < Chunks(|src|, chunkSize)
  {
    chunkSize * i + ChunkLen(|src|, chunkSize, i)
  }

  // How long the target becomes when the open ones among the first k chunks are written.
  function Reach(src: bytes, chunkSize: nat, target: bytes, t: Table, k: nat): nat
    requires chunkSize > 0 && k <= |t| == Chunks(|src|, chunkSize)
  {
    if k == 0 then |target|
    else
      var before := Reach(src, chunkSize, target, t, k - 1);
      if Claimable(t[k - 1]) then Max(before, EndOf(src, chunkSize, k - 1)) else before
  }

  // Every chunk that was not open when the upload began is already right in the target.
  ghost predicate ClosedRight(src: bytes, chunkSize: nat, t: Table, target: bytes)
    requires chunkSize > 0 && |t| == Chunks(|src|, chunkSize)
  {
    forall i: nat | i < |t| && !Claimable(t[i]) :: Right(src, chunkSize, target, i)
  }

  // End to end, from any array and any target: an undisturbed upload that is fully delivered
  // leaves the source as a prefix of the target, despite the parent's overwrites, if and only
  // if the chunks it did not have to send were right in the target already, padded to the
  // length that the chunks it sent give it.
  lemma WholeUpload(src: bytes, chunkSize: nat, p: Plan, es: seq<Event>, target: bytes, order: seq<Record>)
    requires chunkSize > 0 && |p.stale| == Chunks(|src|, chunkSize)
    requires p.n > 0 && ValidRun(p, Start(p), es) && Undisturbed(es)
    requires Stuck(p, RunOf(p, Start(p), es))
    requires Delivered(src, chunkSize, RunOf(p, Start(p), es).sent, order)
    ensures var after, reach := Applied(target, chunkSize, order), Reach(src, chunkSize, target, p.stale, |p.stale|);
      && |after| == reach
      && (src <= after <==> ClosedRight(src, chunkSize, p.stale, Padded(target, reach)))
  {
    Complete(p, es);
    var after, reach := Applied(target, chunkSize, order), Reach(src, chunkSize, target, p.stale, |p.stale|);
    OpenOnes(src, chunkSize, p.stale, RunOf(p, Start(p), es).sent, order);
    FinalLength(src, chunkSize, target, p.stale, order);
    PiecesMakePrefix(src, chunkSize, after);
    forall i: nat | i < |p.stale|
      ensures Right(src, chunkSize, after, i) <==>
        Claimable(p.stale[i]) || Right(src, chunkSize, Padded(target, reach), i)
    {
      if Claimable(p.stale[i]) {
        AppliedKeeps(src, chunkSize, target, order, i);
      } else {
        Untouched(src, chunkSize, target, order, i);
      }
    }
    if src <= after {
      forall i: nat | i < |p.stale| && !Claimable(p.stale[i])
        ensures Right(src, chunkSize, Padded(target, reach), i)
      {
        assert Piece(after, |src|, chunkSize, i) == Slice(src, chunkSize, i);
        assert Right(src, chunkSize, after, i);
      }
    } else {
      var i: nat :| i < Chunks(|src|, chunkSize) && Piece(after, |src|, chunkSize, i) != Slice(src, chunkSize, i);
      assert !Right(src, chunkSize, after, i);
    }
  }

  // The usual case: what is not open is finished and right, so the upload completes the target,
  // and makes it equal to the source if it was no longer.
  lemma FinishedUpload(src: bytes, chunkSize: nat, p: Plan, es: seq<Event>, target: bytes, order: seq<Record>)
    requires chunkSize > 0 && |p.stale| == Chunks(|src|, chunkSize)
    requires p.n > 0 && ValidRun(p, Start(p), es) && Undisturbed(es)
    requires Stuck(p, RunOf(p, Start(p), es))
    requires Delivered(src, chunkSize, RunOf(p, Start(p), es).sent, order)
    requires ClosedRight(src, chunkSize, p.stale, target)
    ensures src <= Applied(target, chunkSize, order)
    ensures |target| <= |src| ==> Applied(target, chunkSize, order) == src
  {
    var reach := Reach(src, chunkSize, target, p.stale, |p.stale|);
    forall i: nat | i < |p.stale| && !Claimable(p.stale[i])
      ensures Right(src, chunkSize, Padded(target, reach), i)
    {
      assert Right(src, chunkSize, target, i);
      PaddedKeeps(target, reach, chunkSize * i, Slice(src, chunkSize, i));
    }
    WholeUpload(src, chunkSize, p, es, target, order);
    ReachBound(src, chunkSize, target, p.stale, |p.stale|);
  }

  // The records are those of exactly the open chunks.
  ghost predicate OpenRecords(src: bytes, chunkSize: nat, t: Table, order: seq<Record>)
    requires chunkSize > 0
  {
    && |t| == Chunks(|src|, chunkSize)
    && (forall r :: r in order ==> TrueRecord(src, chunkSize, r) && Claimable(t[r.chunk]))
    && (forall i: nat :: i < |t| && Claimable(t[i]) ==> exists r :: r in order && r.chunk == i)
  }

  lemma OpenOnes(src: bytes, chunkSize: nat, t: Table, sent: seq<nat>, order: seq<Record>)
    requires chunkSize > 0 && |t| == Chunks(|src|, chunkSize) && Delivered(src, chunkSize, sent, order)
    requires forall i: nat :: i in sent <==> i < |t| && Claimable(t[i])
    ensures OpenRecords(src, chunkSize, t, order)
  {
  }

  // A chunk of which there is no record.
  lemma {:induction false} Untouched(src: bytes, chunkSize: nat, target: bytes, order: seq<Record>, i: nat)
    requires chunkSize > 0 && i < Chunks(|src|, chunkSize)
    requires forall r :: r in order ==> TrueRecord(src, chunkSize, r) && r.chunk != i
    ensures var after := Applied(target, chunkSize, order);
      Piece(after, |src|, chunkSize, i) == Piece(Padded(target, |after|), |src|, chunkSize, i)
    decreases |order|
  {
    if order != [] {
      var r := order[0];
      var pos := Place(r.chunk, chunkSize);
      assert TrueRecord(src, chunkSize, r) && r.chunk != i;
      Untouched(src, chunkSize, WriteAt(target, pos, r.data), order[1..], i);
      AppliedSpans(src, chunkSize, WriteAt(target, pos, r.data), order[1..]);
      assert pos == chunkSize * r.chunk;
      ElsewhereKept(|src|, chunkSize, target, r.chunk, r.data, |Applied(target, chunkSize, order)|, i);
    }
  }

  // ---- lengths -------------------------------------------------------------

  // A length no less than the target's and every record's end, and equal to one of them.
  ghost predicate Spans(src: bytes, chunkSize: nat, target: bytes, order: seq<Record>, n: nat)
    requires chunkSize > 0
  {
    && |target| <= n
    && (forall r :: r in order ==> TrueRecord(src, chunkSize, r) && EndOf(src, chunkSize, r.chunk) <= n)
    && (n == |target| || exists r :: r in order && n == EndOf(src, chunkSize, r.chunk))
  }

  lemma {:induction false} AppliedSpans(src: bytes, chunkSize: nat, target: bytes, order: seq<Record>)
    requires chunkSize > 0 && forall r :: r in order ==> TrueRecord(src, chunkSize, r)
    ensures Spans(src, chunkSize, target, order, |Applied(target, chunkSize, order)|)
    decreases |order|
  {
    if order != [] {
      var r := order[0];
      assert TrueRecord(src, chunkSize, r);
      var next := WriteAt(target, Place(r.chunk, chunkSize), r.data);
      assert |next| == Max(|target|, EndOf(src, chunkSize, r.chunk));
      AppliedSpans(src, chunkSize, next, order[1..]);
      assert forall q :: q in order ==> q == r || q in order[1..];
    }
  }

  lemma {:induction false} ReachSpans(src: bytes, chunkSize: nat, target: bytes, t: Table, k: nat)
    requires chunkSize > 0 && k <= |t| == Chunks(|src|, chunkSize)
    ensures var n := Reach(src, chunkSize, target, t, k);
      && |target| <= n && (forall i: nat :: i < k && Claimable(t[i]) ==> EndOf(src, chunkSize, i) <= n)
      && (n == |target| || exists i: nat :: i < k && Claimable(t[i]) && n == EndOf(src, chunkSize, i))
  {
    if k > 0 { ReachSpans(src, chunkSize, target, t, k - 1); }
  }

  lemma FinalLength(src: bytes, chunkSize: nat, target: bytes, t: Table, order: seq<Record>)
    requires chunkSize > 0 && OpenRecords(src, chunkSize, t, order)
    ensures |Applied(target, chunkSize, order)| == Reach(src, chunkSize, target, t, |t|)
  {
    var n, m := |Applied(target, chunkSize, order)|, Reach(src, chunkSize, target, t, |t|);
    AppliedSpans(src, chunkSize, target, order);
    ReachSpans(src, chunkSize, target, t, |t|);
    if n != |target| {
      var r :| r in order && n == EndOf(src, chunkSize, r.chunk);
      assert n <= m;
    }
    if m != |target| {
      var i: nat :| i < |t| && Claimable(t[i]) && m == EndOf(src, chunkSize, i);
      var r :| r in order && r.chunk == i;
      assert m <= n;
    }
  }

  lemma {:induction false} ReachBound(src: bytes, chunkSize: nat, target: bytes, t: Table, k: nat)
    requires chunkSize > 0 && k <= |t| == Chunks(|src|, chunkSize)
    ensures Reach(src, chunkSize, target, t, k) <= Max(|target|, |src|)
  {
    if k > 0 {
      ReachBound(src, chunkSize, target, t, k - 1);
      ChunkBounds(|src|, chunkSize, k - 1);
    }
  }

  // ---- the announced chunk size --------------------------------------------

  // The server places chunks by the size that the client announces, from its command line, and
  // not by that in a metadata file it resumes from. All chunks sent are placed right exactly if
  // the two are equal or only the first chunk is sent.
  lemma PlacedRightIff(chunkSize: nat, announced: nat, sent: seq<nat>)
    ensures (forall i: nat :: i in sent ==> Place(i, announced) == chunkSize * i)
      <==> announced == chunkSize || forall i: nat :: i in sent ==> i == 0
  {
    if announced != chunkSize {
      forall i: nat | i in sent
        ensures Place(i, announced) == chunkSize * i <==> i == 0
      {
        if i > 0 { Different(chunkSize, announced, i); }
      }
    }
  }

  lemma Different(a: nat, b: nat, i: nat)
    requires a != b && i > 0
    ensures a * i != i * b
  {
    if a < b { Apart(i, a, b); } else { Apart(i, b, a); }
  }

  // Two chunks of one byte, announced as chunks of two: a fully delivered upload gone wrong.
  lemma AnnouncedWrong()
    ensures var src, order := [1, 2], [Record(0, [1]), Record(1, [2])];
      && Delivered(src, 1, [0, 1], order)
      && Applied([], 1, order) == src && Applied([], 2, order) == [1, 0, 2]
  {
    var src: bytes, order := [1, 2], [Record(0, [1]), Record(1, [2])];
    assert Slice(src, 1, 0) == [1] && Slice(src, 1, 1) == [2];
    assert order[0] in order && order[1] in order;
    assert order[1..] == [Record(1, [2])] && order[1..][1..] == [];
    forall k: nat | k == 1 || k == 2
      ensures Applied([], k, order) == WriteAt([1], k, [2])
    {
      assert WriteAt([], Place(0, k), [1]) == [1];
      assert Place(1, k) == k;
      assert Applied([1], k, order[1..]) == Applied(WriteAt([1], Place(1, k), [2]), k, []);
    }
    assert WriteAt([1], 1, [2]) == [1, 2] && WriteAt([1], 2, [2]) == [1, 0, 2];
  }
}
