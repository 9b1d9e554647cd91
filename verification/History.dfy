/**
 * The tracker against one that never forgets a finished record
 * (internal/sink/offsets.go).
 *
 * MarkCommitted deletes finished records below the committed watermark.  The
 * reference tracker keeps them all.  Pending never tells the two apart, and
 * in runs of the code, where every mark ends a commit that began with
 * Commitable, neither does Commitable.  A mark that lowers a watermark can
 * make Commitable differ; when it does is stated exactly.
 */
module History {
  import opened Extremes
  import opened OffsetTracker
  import opened Options

  datatype Op =
    | Tracked(rec: Record)
    | Finished(rec: Record)
    | Marked(committed: map<PartitionKey, EpochOffset>)
    | Forgotten(key: PartitionKey)

  function Apply(t: Tracker, op: Op): Tracker
  {
    match op
    case Tracked(rec) => TrackRecord(t, rec)
    case Finished(rec) => DoneRecord(t, rec)
    case Marked(committed) => MarkAll(t, committed)
    case Forgotten(k) => ForgetPartition(t, k)
  }

  /** The reference: a mark moves the watermark and deletes nothing. */
  function ApplyKeeping(t: Tracker, op: Op): Tracker
  {
    match op
    case Marked(committed) =>
      map k | k in t :: if k in committed && !t[k].forgotten then t[k].(committed := committed[k].offset) else t[k]
    case _ => Apply(t, op)
  }

  function Replay(ops: seq<Op>): Tracker
  {
    if ops == [] then map[] else Apply(Replay(ops[..|ops| - 1]), ops[|ops| - 1])
  }

  function ReplayKeeping(ops: seq<Op>): Tracker
  {
    if ops == [] then map[] else ApplyKeeping(ReplayKeeping(ops[..|ops| - 1]), ops[|ops| - 1])
  }

  /** The operation does not move any live partition's watermark down. */
  predicate Forward(t: Tracker, op: Op)
  {
    op.Marked? ==>
      forall k :: k in op.committed && k in t && !t[k].forgotten ==> t[k].committed <= op.committed[k].offset
  }

  predicate AlwaysForward(ops: seq<Op>)
  {
    forall i :: 0 <= i < |ops| ==> Forward(Replay(ops[..i]), ops[i])
  }

  /** Same records in progress, and the same finished ones from the watermark on. */
  ghost predicate Agree(st: PartitionState, full: PartitionState)
  {
    && full == st.(done := full.done)
    && (forall o :: o in st.done ==> o in full.done && full.done[o] == st.done[o])
    && (forall o :: o in full.done && o >= st.committed ==> o in st.done)
  }

  ghost predicate AgreeAll(t: Tracker, full: Tracker)
  {
    t.Keys == full.Keys && forall k :: k in t ==> Agree(t[k], full[k])
  }

  lemma {:induction false} AgreeStep(t: Tracker, full: Tracker, op: Op)
    requires AgreeAll(t, full) && Forward(t, op)
    ensures AgreeAll(Apply(t, op), ApplyKeeping(full, op))
  {
    var t', full' := Apply(t, op), ApplyKeeping(full, op);
    forall k | k in t' ensures k in full' && Agree(t'[k], full'[k]) {
      if k in t { assert Agree(t[k], full[k]); }
    }
    assert t'.Keys == full'.Keys;
  }

  lemma {:induction false} ReplaysAgree(ops: seq<Op>)
    requires AlwaysForward(ops)
    ensures AgreeAll(Replay(ops), ReplayKeeping(ops))
  {
    if ops != [] {
      var front, last := ops[..|ops| - 1], ops[|ops| - 1];
      forall i | 0 <= i < |front| ensures Forward(Replay(front[..i]), front[i]) {
        assert front[..i] == ops[..i];
      }
      ReplaysAgree(front);
      AgreeStep(Replay(front), ReplayKeeping(front), last);
    }
  }

  lemma {:induction false} AgreeingCommitable(st: PartitionState, full: PartitionState)
    requires Agree(st, full)
    ensures CommitableState(st) == CommitableState(full)
  {
  }

  /** The same partitions at the same offsets; an epoch is the same or the -1 sentinel. */
  ghost predicate SamePlaces(pruned: map<PartitionKey, EpochOffset>, kept: map<PartitionKey, EpochOffset>)
  {
    && pruned.Keys == kept.Keys
    && forall k :: k in pruned ==>
         pruned[k].offset == kept[k].offset && (pruned[k].epoch == kept[k].epoch || pruned[k].epoch == -1)
  }

  /******* Every sequence of operations *******/

  /**
   * All that is left when a mark may move anything anywhere: the pruned
   * partition has forgotten some finished records.
   */
  ghost predicate Within(st: PartitionState, full: PartitionState)
  {
    && full == st.(done := full.done)
    && forall o :: o in st.done ==> o in full.done && full.done[o] == st.done[o]
  }

  lemma {:induction false} WithinStep(st: Tracker, full: Tracker, op: Op)
    requires st.Keys == full.Keys && forall k :: k in st ==> Within(st[k], full[k])
    ensures Apply(st, op).Keys == ApplyKeeping(full, op).Keys
    ensures forall k :: k in Apply(st, op) ==> Within(Apply(st, op)[k], ApplyKeeping(full, op)[k])
  {
    var st', full' := Apply(st, op), ApplyKeeping(full, op);
    forall k | k in st' ensures k in full' && Within(st'[k], full'[k]) {
      if k in st { assert Within(st[k], full[k]); }
    }
  }

  lemma {:induction false} ReplaysWithin(ops: seq<Op>)
    ensures Replay(ops).Keys == ReplayKeeping(ops).Keys
    ensures forall k :: k in Replay(ops) ==> Within(Replay(ops)[k], ReplayKeeping(ops)[k])
  {
    if ops != [] {
      var front := ops[..|ops| - 1];
      ReplaysWithin(front);
      hide Within, Apply, ApplyKeeping;
      WithinStep(Replay(front), ReplayKeeping(front), ops[|ops| - 1]);
    }
  }

  lemma {:induction false} WithinPending(st: PartitionState, full: PartitionState)
    requires Within(st, full)
    ensures PendingState(st).Some? == PendingState(full).Some?
    ensures PendingState(st).Some? ==>
              var pruned, kept := PendingState(st).value, PendingState(full).value;
              pruned.offset == kept.offset && (pruned.epoch == kept.epoch || pruned.epoch == -1)
  {
  }

  /**
   * Pending: the same partitions at the same offsets after every sequence of
   * operations, marks of any kind included.
   */
  lemma {:induction false} PendingIsUnmoved(ops: seq<Op>)
    ensures SamePlaces(PendingMap(Replay(ops)), PendingMap(ReplayKeeping(ops)))
  {
    var t, full := Replay(ops), ReplayKeeping(ops);
    ReplaysWithin(ops);
    hide Within, PendingState, Replay, ReplayKeeping;
    forall k | k in t
      ensures PendingState(t[k]).Some? == PendingState(full[k]).Some?
      ensures PendingState(t[k]).Some? ==>
                var pruned, kept := PendingState(t[k]).value, PendingState(full[k]).value;
                pruned.offset == kept.offset && (pruned.epoch == kept.epoch || pruned.epoch == -1)
    {
      WithinPending(t[k], full[k]);
    }
  }

  /**
   * The finished record just before the watermark, the one whose epoch a
   * commit carries, has been deleted although the watermark is not committed.
   * With work in progress the watermark is the first unfinished offset; on a
   * drained partition it is one past the last finished one.
   */
  ghost predicate LostPredecessor(st: PartitionState, full: PartitionState)
  {
    if st.pending.Keys == {} && full.done.Keys == {} then false
    else
      var watermark := if st.pending.Keys != {} then Least(st.pending.Keys) else Greatest(full.done.Keys) + 1;
      watermark > st.committed && watermark - 1 in full.done && watermark - 1 !in st.done
  }

  lemma {:induction false} WithinCommitable(st: PartitionState, full: PartitionState)
    requires Within(st, full)
    ensures CommitableState(st) == CommitableState(full) <==> !LostPredecessor(st, full)
  {
    if st.pending.Keys == {} && st.done.Keys != {} {
      var g := Greatest(st.done.Keys);
      assert g in full.done.Keys;
      var last := Greatest(full.done.Keys);
      assert g <= last;
      if last in st.done { assert last in st.done.Keys && last <= g; }
    }
  }

  /**
   * Exactly when pruning shows: after every sequence of operations, marks of
   * any kind included, the two trackers answer Commitable alike for a
   * partition if and only if no uncommitted watermark has lost its predecessor.
   */
  lemma {:induction false} PruningShowsExactly(ops: seq<Op>, k: PartitionKey)
    ensures k in Replay(ops) <==> k in ReplayKeeping(ops)
    ensures k in Replay(ops) ==>
              (CommitableState(Replay(ops)[k]) == CommitableState(ReplayKeeping(ops)[k]) <==>
               !LostPredecessor(Replay(ops)[k], ReplayKeeping(ops)[k]))
  {
    ReplaysWithin(ops);
    hide Within, CommitableState, LostPredecessor, Replay, ReplayKeeping;
    if k in Replay(ops) { WithinCommitable(Replay(ops)[k], ReplayKeeping(ops)[k]); }
  }

  /**
   * What one mark does to two agreeing partitions: with work in progress they
   * still answer alike unless the mark lies below the first unfinished offset
   * and the finished record just before that was deleted; on a drained
   * partition, unless it lies below the end and the last record was deleted.
   */
  lemma {:induction false} MarkKeepsAgreement(st: PartitionState, full: PartitionState, w: int)
    requires Agree(st, full) && !st.forgotten
    ensures CommitableState(MarkState(st, w)) == CommitableState(full.(committed := w)) <==>
            if st.pending.Keys != {} then
              var first := Least(st.pending.Keys);
              first <= w || first - 1 in st.done || first - 1 !in full.done
            else full.done.Keys == {} || (var last := Greatest(full.done.Keys); last + 1 <= w || last in st.done)
  {
    var marked, kept := MarkState(st, w), full.(committed := w);
    assert Within(marked, kept);
    WithinCommitable(marked, kept);
    hide CommitableState;
  }

  /******* A mark that lowers the watermark does show *******/

  const KEY := PartitionKey("transfers", 0)

  function Rec(offset: nat): Record { Record(KEY, offset, 7) }

  function Mark(offset: int): Op { Marked(map[KEY := EpochOffset(7, offset)]) }

  /** Record 0 finished and committed, record 1 in progress; then a mark at 0. */
  const LOWERED_IN_PROGRESS := [Tracked(Rec(0)), Tracked(Rec(1)), Finished(Rec(0)), Mark(1), Mark(0)]

  /** The only record finished and committed; then a mark at 0. */
  const LOWERED_DRAINED := [Tracked(Rec(0)), Finished(Rec(0)), Mark(1), Mark(0)]

  function Held(pending: map<int, int>, done: map<int, int>, committed: int, highest: int): Tracker
  {
    map[KEY := PartitionState(pending, done, committed, 0, highest, false)]
  }

  lemma {:induction false} ReplayNext(ops: seq<Op>, op: Op)
    ensures Replay(ops + [op]) == Apply(Replay(ops), op)
    ensures ReplayKeeping(ops + [op]) == ApplyKeeping(ReplayKeeping(ops), op)
  {
    assert (ops + [op])[..|ops|] == ops;
  }

  lemma {:induction false} TrackedFirst()
    ensures Replay([Tracked(Rec(0))]) == ReplayKeeping([Tracked(Rec(0))]) == Held(map[0 := 7], map[], -1, 0)
  {
    var none: seq<Op> := [];
    ReplayNext(none, Tracked(Rec(0)));
    assert none + [Tracked(Rec(0))] == [Tracked(Rec(0))];
  }

  lemma {:induction false} FinishedFirst()
    ensures var ops := [Tracked(Rec(0)), Tracked(Rec(1)), Finished(Rec(0))];
            Replay(ops) == ReplayKeeping(ops) == Held(map[1 := 7], map[0 := 7], -1, 1)
  {
    var b := [Tracked(Rec(0))];
    var c := b + [Tracked(Rec(1))];
    TrackedFirst();
    hide Replay, ReplayKeeping;
    ReplayNext(b, Tracked(Rec(1)));
    assert Replay(c) == ReplayKeeping(c) == Held(map[0 := 7, 1 := 7], map[], -1, 1);
    ReplayNext(c, Finished(Rec(0)));
    assert map[0 := 7, 1 := 7] - {0} == map[1 := 7];
    assert c + [Finished(Rec(0))] == [Tracked(Rec(0)), Tracked(Rec(1)), Finished(Rec(0))];
  }

  lemma {:induction false} MarkHeld(pending: map<int, int>, done: map<int, int>, committed: int, highest: int, w: int)
    ensures Apply(Held(pending, done, committed, highest), Mark(w)) == Held(pending, Prune(done, w), w, highest)
    ensures ApplyKeeping(Held(pending, done, committed, highest), Mark(w)) == Held(pending, done, w, highest)
  {
  }

  /** A mark at 1 deletes record 0, and a mark at 0 does not bring it back. */
  lemma {:induction false} MarkedTwice(ops: seq<Op>, pending: map<int, int>, highest: int)
    requires Replay(ops) == ReplayKeeping(ops) == Held(pending, map[0 := 7], -1, highest)
    ensures Replay(ops + [Mark(1)] + [Mark(0)]) == Held(pending, map[], 0, highest)
    ensures ReplayKeeping(ops + [Mark(1)] + [Mark(0)]) == Held(pending, map[0 := 7], 0, highest)
  {
    hide Replay, ReplayKeeping, Apply, ApplyKeeping;
    ReplayNext(ops, Mark(1));
    ReplayNext(ops + [Mark(1)], Mark(0));
    MarkHeld(pending, map[0 := 7], -1, highest, 1);
    MarkHeld(pending, map[0 := 7], 1, highest, 0);
    MarkHeld(pending, map[], 1, highest, 0);
    assert Prune(map[0 := 7], 1) == map[] && Prune(map[], 0) == map[];
  }

  lemma {:induction false} InProgressRun()
    ensures Replay(LOWERED_IN_PROGRESS) == Held(map[1 := 7], map[], 0, 1)
    ensures ReplayKeeping(LOWERED_IN_PROGRESS) == Held(map[1 := 7], map[0 := 7], 0, 1)
  {
    var ops := [Tracked(Rec(0)), Tracked(Rec(1)), Finished(Rec(0))];
    FinishedFirst();
    hide Replay, ReplayKeeping;
    MarkedTwice(ops, map[1 := 7], 1);
    assert LOWERED_IN_PROGRESS == ops + [Mark(1)] + [Mark(0)];
  }

  lemma {:induction false} DrainedRun()
    ensures Replay(LOWERED_DRAINED) == Held(map[], map[], 0, 0)
    ensures ReplayKeeping(LOWERED_DRAINED) == Held(map[], map[0 := 7], 0, 0)
  {
    var first := [Tracked(Rec(0))];
    TrackedFirst();
    hide Replay, ReplayKeeping;
    ReplayNext(first, Finished(Rec(0)));
    MarkedTwice(first + [Finished(Rec(0))], map[], 0);
    assert LOWERED_DRAINED == first + [Finished(Rec(0))] + [Mark(1)] + [Mark(0)];
  }

  lemma {:induction false} InProgressAnswers()
    ensures CommitableState(PartitionState(map[1 := 7], map[], 0, 0, 1, false)) == None
    ensures CommitableState(PartitionState(map[1 := 7], map[0 := 7], 0, 0, 1, false)) == Some(EpochOffset(7, 1))
  {
    var keys := map[1 := 7].Keys;
    assert 1 in keys;
    assert Least(keys) == 1;
  }

  lemma {:induction false} DrainedAnswers()
    ensures CommitableState(PartitionState(map[], map[], 0, 0, 0, false)) == None
    ensures CommitableState(PartitionState(map[], map[0 := 7], 0, 0, 0, false)) == Some(EpochOffset(7, 1))
  {
    var keys := map[0 := 7].Keys;
    assert 0 in keys;
    assert Greatest(keys) == 0;
  }

  /** After either run the tracker that prunes nothing offers offset 1 again, and the pruning one nothing. */
  lemma {:induction false} LoweringUncoversDeletedRecord()
    ensures CommitableMap(Replay(LOWERED_IN_PROGRESS)) == CommitableMap(Replay(LOWERED_DRAINED)) == map[]
    ensures CommitableMap(ReplayKeeping(LOWERED_IN_PROGRESS)) == map[KEY := EpochOffset(7, 1)]
    ensures CommitableMap(ReplayKeeping(LOWERED_DRAINED)) == map[KEY := EpochOffset(7, 1)]
  {
    InProgressRun();
    DrainedRun();
    InProgressAnswers();
    DrainedAnswers();
    hide Replay, ReplayKeeping, CommitableState;
  }

  /******* Runs of the code *******/

  ghost predicate WellFormed(t: Tracker)
  {
    forall k :: k in t ==>
      && t[k].committed >= -1
      && (forall o :: o in t[k].pending || o in t[k].done ==> o >= 0)
  }

  function ApplyAll(t: Tracker, ops: seq<Op>): Tracker
  {
    if ops == [] then t else Apply(ApplyAll(t, ops[..|ops| - 1]), ops[|ops| - 1])
  }

  lemma {:induction false} ReplayFrom(ops: seq<Op>, j: nat)
    requires j <= |ops|
    ensures ApplyAll(Replay(ops[..j]), ops[j..]) == Replay(ops)
    decreases |ops| - j
  {
    if j == |ops| {
      assert ops[..j] == ops;
    } else {
      var front := ops[..|ops| - 1];
      ReplayFrom(front, j);
      assert front[..j] == ops[..j] && front[j..] == ops[j..][..|ops[j..]| - 1];
    }
  }

  /** A partition's watermark is a fresh one or the one it had. */
  ghost predicate WatermarksStay(t: Tracker, t': Tracker)
  {
    forall k :: k in t' && !t'[k].forgotten ==>
      t'[k].committed == -1 || (k in t && t'[k].committed == t[k].committed)
  }

  lemma {:induction false} OnlyMarksMoveWatermarks(t: Tracker, t': Tracker, op: Op)
    requires WatermarksStay(t, t') && !op.Marked?
    ensures WatermarksStay(t, Apply(t', op))
  {
  }

  lemma {:induction false} WatermarksStayUnmarked(t: Tracker, ops: seq<Op>)
    requires forall i :: 0 <= i < |ops| ==> !ops[i].Marked?
    ensures WatermarksStay(t, ApplyAll(t, ops))
  {
    if ops != [] {
      var front := ops[..|ops| - 1];
      WatermarksStayUnmarked(t, front);
      hide WatermarksStay, Apply;
      OnlyMarksMoveWatermarks(t, ApplyAll(t, front), ops[|ops| - 1]);
    }
  }

  lemma {:induction false} CommitableIsNew(t: Tracker, k: PartitionKey)
    requires WellFormed(t) && k in CommitableMap(t)
    ensures k in t && CommitableMap(t)[k].offset > t[k].committed >= -1
  {
  }

  /**
   * Between Commitable and the matching MarkCommitted other goroutines may
   * track, finish and forget, but not mark: commits are serialised.  The mark
   * is then forward, revived partitions included.
   */
  lemma {:induction false} CommitMarksForward(t: Tracker, ops: seq<Op>)
    requires WellFormed(t) && forall i :: 0 <= i < |ops| ==> !ops[i].Marked?
    ensures Forward(ApplyAll(t, ops), Marked(CommitableMap(t)))
  {
    WatermarksStayUnmarked(t, ops);
    var t', committed := ApplyAll(t, ops), CommitableMap(t);
    hide WellFormed, ApplyAll, CommitableMap;
    forall k | k in committed && k in t' && !t'[k].forgotten ensures t'[k].committed <= committed[k].offset {
      CommitableIsNew(t, k);
    }
  }

  /** The i-th operation marks what Commitable answered j operations into the run, and nothing was marked since. */
  ghost predicate MarksWhatWasCommitable(ops: seq<Op>, j: nat, i: nat)
    requires j <= i < |ops|
  {
    && ops[i] == Marked(CommitableMap(Replay(ops[..j])))
    && forall x :: j <= x < i ==> !ops[x].Marked?
  }

  /** A run of the code: every mark is the end of a commit that began with Commitable. */
  ghost predicate IsCodeRun(ops: seq<Op>)
  {
    forall i :: 0 <= i < |ops| && ops[i].Marked? ==> exists j: nat :: j <= i && MarksWhatWasCommitable(ops, j, i)
  }

  lemma {:induction false} CodeRunPrefix(ops: seq<Op>, n: nat)
    requires IsCodeRun(ops) && n <= |ops|
    ensures IsCodeRun(ops[..n])
  {
    var front := ops[..n];
    forall i | 0 <= i < n && front[i].Marked? ensures exists j: nat :: j <= i && MarksWhatWasCommitable(front, j, i) {
      var j: nat :| j <= i && MarksWhatWasCommitable(ops, j, i);
      assert front[..j] == ops[..j];
      assert MarksWhatWasCommitable(front, j, i);
    }
  }

  lemma {:induction false} StepWellFormed(t: Tracker, op: Op)
    requires WellFormed(t)
    requires op.Marked? ==> forall k :: k in op.committed ==> op.committed[k].offset >= 0
    ensures WellFormed(Apply(t, op))
  {
  }

  /** Every tracker the code can have is well-formed. */
  lemma {:induction false} CodeRunWellFormed(ops: seq<Op>)
    requires IsCodeRun(ops)
    ensures WellFormed(Replay(ops))
    decreases |ops|
  {
    if ops != [] {
      var n := |ops| - 1;
      CodeRunPrefix(ops, n);
      CodeRunWellFormed(ops[..n]);
      if ops[n].Marked? {
        var j: nat :| j <= n && MarksWhatWasCommitable(ops, j, n);
        CodeRunPrefix(ops, j);
        CodeRunWellFormed(ops[..j]);
        forall k | k in ops[n].committed ensures ops[n].committed[k].offset >= 0 {
          CommitableIsNew(Replay(ops[..j]), k);
        }
      }
      hide WellFormed, Apply;
      StepWellFormed(Replay(ops[..n]), ops[n]);
    }
  }

  lemma {:induction false} CodeMarkIsForward(ops: seq<Op>, i: nat)
    requires IsCodeRun(ops) && i < |ops|
    ensures Forward(Replay(ops[..i]), ops[i])
  {
    if ops[i].Marked? {
      var j: nat :| j <= i && MarksWhatWasCommitable(ops, j, i);
      CodeRunPrefix(ops, j);
      CodeRunWellFormed(ops[..j]);
      var between := ops[j..i];
      ReplayFrom(ops[..i], j);
      assert ops[..i][..j] == ops[..j] && ops[..i][j..] == between;
      hide Forward, WellFormed;
      CommitMarksForward(Replay(ops[..j]), between);
    }
  }

  /**
   * Pruning is invisible: in every run of the code, whatever is tracked,
   * finished, forgotten and committed, and whatever happens while a commit is
   * under way, Commitable is the same map, Pending names the same offsets, and
   * an epoch it reports is the same or the -1 sentinel.
   */
  lemma {:induction false} PruningIsInvisible(ops: seq<Op>)
    requires IsCodeRun(ops)
    ensures CommitableMap(Replay(ops)) == CommitableMap(ReplayKeeping(ops))
    ensures SamePlaces(PendingMap(Replay(ops)), PendingMap(ReplayKeeping(ops)))
  {
    forall i | 0 <= i < |ops| ensures Forward(Replay(ops[..i]), ops[i]) { CodeMarkIsForward(ops, i); }
    ForwardMarksAgree(ops);
    PendingIsUnmoved(ops);
  }

  /** The same of every sequence, however its marks came about, in which none moves a watermark down. */
  lemma {:induction false} ForwardMarksAgree(ops: seq<Op>)
    requires AlwaysForward(ops)
    ensures CommitableMap(Replay(ops)) == CommitableMap(ReplayKeeping(ops))
  {
    ReplaysAgree(ops);
    var t, full := Replay(ops), ReplayKeeping(ops);
    hide Replay, ReplayKeeping, Agree, CommitableState;
    forall k | k in t ensures CommitableState(t[k]) == CommitableState(full[k]) {
      AgreeingCommitable(t[k], full[k]);
    }
  }

  /******* What Commitable means *******/

  /** Safety, whatever gaps the offsets have: every record below the watermark is finished. */
  lemma {:induction false} NothingUnfinishedBelow(st: PartitionState, o: int)
    requires CommitableState(st).Some? && o < CommitableState(st).value.offset
    requires o in st.pending || o in st.done
    ensures o in st.done && o !in st.pending
    ensures CommitableState(st).value.offset > st.committed
  {
  }

  /** Offsets from lo to hi have all been tracked, and no others. */
  ghost predicate Contiguous(st: PartitionState, lo: int, hi: int)
  {
    lo <= hi && forall o :: lo <= o <= hi <==> o in st.pending || o in st.done
  }

  /** The length of the longest finished prefix, counted from o. */
  ghost function FirstUnfinished(st: PartitionState, o: int, hi: int): (w: int)
    requires o <= hi + 1
    ensures o <= w <= hi + 1
    ensures forall x :: o <= x < w ==> x !in st.pending
    ensures w == hi + 1 || w in st.pending
    decreases hi + 1 - o
  {
    if o == hi + 1 || o in st.pending then o else FirstUnfinished(st, o + 1, hi)
  }

  /** On contiguous offsets Commitable is exactly the longest finished prefix not yet committed. */
  lemma {:induction false} CommitableIsLongestPrefix(st: PartitionState, lo: int, hi: int)
    requires Contiguous(st, lo, hi)
    ensures var w := FirstUnfinished(st, lo, hi);
            && (lo < w ==> w - 1 in st.done)
            && CommitableState(st) ==
               if lo < w && st.committed < w then Some(EpochOffset(st.done[w - 1], w)) else None
  {
  }
}
