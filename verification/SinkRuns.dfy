/**
 * The sink's code on the group's machine (internal/sink/sink.go: pass,
 * runPartition, processBatch, abandonBatch, commit).
 *
 * Each method here runs the code of module Sink and carries, as a ghost, the
 * run of module ConsumerGroup that the code has performed so far: whatever the
 * environment does, the code marks records, rewinds and commits only as the
 * machine does, so what is proved of every run holds of the code.
 */
module SinkRuns {
  import opened Extremes
  import opened OffsetTracker
  import opened Options
  import opened Sink
  import opened ConsumerGroup

  /** The state a run from s0 ends in, if each of its steps is enabled. */
  ghost function Follow(c: Config, s0: State, steps: seq<Step>): Option<State>
  {
    if steps == [] then Some(s0)
    else
      match Follow(c, s0, steps[..|steps| - 1])
      case None => None
      case Some(s) =>
        var step := steps[|steps| - 1];
        if Enabled(c, s, step) then Some(Apply(c, s, step)) else None
  }

  lemma {:induction false} FollowStep(c: Config, s0: State, steps: seq<Step>, s: State, step: Step)
    requires Follow(c, s0, steps) == Some(s) && Enabled(c, s, step)
    ensures Follow(c, s0, steps + [step]) == Some(Apply(c, s, step))
  {
    assert (steps + [step])[..|steps|] == steps;
  }

  /** A run that starts with the invariant ends with it. */
  lemma {:induction false} FollowKeepsInv(c: Config, s0: State, steps: seq<Step>)
    requires ValidConfig(c) && Inv(c, s0) && Follow(c, s0, steps).Some?
    ensures Inv(c, Follow(c, s0, steps).value)
  {
    if steps != [] {
      var front := steps[..|steps| - 1];
      FollowKeepsInv(c, s0, front);
      InvKeeps(c, Follow(c, s0, front).value, steps[|steps| - 1]);
    }
  }

  /******* One pass *******/

  /** The two states differ at most in one partition's part, in what is published and in what is acknowledged. */
  ghost predicate OnlyPart(s: State, s': State, m: MemberId, k: PartitionKey)
  {
    && (m, k) in s.parts && (m, k) in s'.parts
    && s' == s.(parts := s.parts[(m, k) := s'.parts[(m, k)]], published := s'.published, acked := s'.acked,
                entries := s'.entries)
  }

  lemma {:induction false} OnlyPartTwice(s: State, s1: State, s2: State, m: MemberId, k: PartitionKey)
    requires OnlyPart(s, s1, m, k) && OnlyPart(s1, s2, m, k)
    ensures OnlyPart(s, s2, m, k)
  {
  }

  lemma {:induction false} InBoth(s: State, s': State, m: MemberId, k: PartitionKey)
    requires OnlyPart(s, s', m, k)
    ensures (m, k) in s.parts && (m, k) in s'.parts
  {
  }

  /** What the turn hands off for record i, at its place in the log. */
  function EntryOf(t: Turn, recs: seq<Record>, base: nat, i: nat): Entry
    requires i < |recs|
  {
    Entry(recs[i], base + |Handed(t, recs, i)|, t.prepared(i), Answer(t, i), t.panics(i))
  }

  function EntriesOf(t: Turn, recs: seq<Record>, base: nat, n: nat): seq<Entry>
    requires n <= |recs|
  {
    seq(n, i requires 0 <= i < n => EntryOf(t, recs, base, i))
  }

  lemma {:induction false} EntriesNext(t: Turn, recs: seq<Record>, base: nat, n: nat)
    requires n < |recs|
    ensures EntriesOf(t, recs, base, n + 1) == EntriesOf(t, recs, base, n) + [EntryOf(t, recs, base, n)]
  {
  }

  lemma {:induction false} HandedNext(t: Turn, recs: seq<Record>, base: nat, n: nat)
    requires n < |recs|
    ensures Handed(t, recs, n + 1) == Handed(t, recs, n) + PubsOf(EntryOf(t, recs, base, n))
  {
  }

  /** What handing the first n records off leaves. */
  ghost predicate HandedOff(s: State, s': State, m: MemberId, k: PartitionKey, t: Turn, recs: seq<Record>, n: nat)
    requires n <= |recs|
  {
    && OnlyPart(s, s', m, k)
    && s'.parts[(m, k)] == s.parts[(m, k)].(issued := EntriesOf(t, recs, |s.published|, n))
    && s'.published == s.published + Handed(t, recs, n) && s'.acked == s.acked
  }

  lemma {:induction false} NothingHandedOff(s: State, m: MemberId, k: PartitionKey, t: Turn, recs: seq<Record>)
    requires (m, k) in s.parts && s.parts[(m, k)].issued == []
    ensures HandedOff(s, s, m, k, t, recs, 0)
  {
    assert s.parts[(m, k) := s.parts[(m, k)]] == s.parts;
    assert EntriesOf(t, recs, |s.published|, 0) == [];
  }

  lemma {:induction false} HandOffEnabled(c: Config, s: State, s1: State, m: MemberId, k: PartitionKey, t: Turn,
      recs: seq<Record>, i: nat)
    requires i < |recs| && Publishes(t, recs, i) && HandedOff(s, s1, m, k, t, recs, i)
    requires recs <= s.parts[(m, k)].left
    ensures Enabled(c, s1, HandOff(m, k, t.prepared(i), Answer(t, i), t.panics(i)))
  {
    assert s1.parts[(m, k)].left[i] == recs[i];
    hide Handed;
  }

  lemma {:induction false} HandOffNext(c: Config, s: State, s1: State, m: MemberId, k: PartitionKey, t: Turn,
      recs: seq<Record>, i: nat)
    requires i < |recs| && Publishes(t, recs, i) && HandedOff(s, s1, m, k, t, recs, i)
    requires recs <= s.parts[(m, k)].left
    requires Enabled(c, s1, HandOff(m, k, t.prepared(i), Answer(t, i), t.panics(i)))
    ensures HandedOff(s, Apply(c, s1, HandOff(m, k, t.prepared(i), Answer(t, i), t.panics(i))), m, k, t, recs, i + 1)
  {
    var base := |s.published|;
    assert s1.parts[(m, k)].left[i] == recs[i];
    EntriesNext(t, recs, base, i);
    HandedNext(t, recs, base, i);
    SeqAssoc(s.published, Handed(t, recs, i), PubsOf(EntryOf(t, recs, base, i)));
    hide FinishRecord, Handed, Publishes, PubsOf, EntriesOf;
  }

  /** The second phase: publications of the first n records. */
  lemma {:induction false} HandOffs(c: Config, s0: State, before: seq<Step>, s: State, m: MemberId, k: PartitionKey,
      t: Turn, recs: seq<Record>, n: nat)
    returns (steps: seq<Step>, s': State)
    requires Follow(c, s0, before) == Some(s) && (m, k) in s.parts && s.parts[(m, k)].issued == []
    requires n <= |recs| && recs <= s.parts[(m, k)].left && forall i :: 0 <= i < n ==> Publishes(t, recs, i)
    ensures Follow(c, s0, steps) == Some(s') && HandedOff(s, s', m, k, t, recs, n)
  {
    hide Publishes, HandedOff, Follow, Enabled, Apply;
    NothingHandedOff(s, m, k, t, recs);
    if n == 0 {
      steps, s' := before, s;
    } else {
      var steps1, s1 := HandOffs(c, s0, before, s, m, k, t, recs, n - 1);
      var step := HandOff(m, k, t.prepared(n - 1), Answer(t, n - 1), t.panics(n - 1));
      HandOffEnabled(c, s, s1, m, k, t, recs, n - 1);
      HandOffNext(c, s, s1, m, k, t, recs, n - 1);
      FollowStep(c, s0, steps1, s1, step);
      steps, s' := steps1 + [step], Apply(c, s1, step);
    }
  }

  lemma {:induction false} SeqAssoc(a: seq<Publication>, b: seq<Publication>, d: seq<Publication>)
    ensures a + b + d == a + (b + d)
  {
  }

  /** The acknowledgements the broker gave for the n publications of record i, which start at `first` in the log. */
  function AckedOf(t: Turn, i: nat, first: nat, n: nat): set<nat>
  {
    if n == 0 then {} else AckedOf(t, i, first, n - 1) + if t.ack(i, n - 1).Acked? then {first + n - 1} else {}
  }

  lemma {:induction false} AckedOfExactly(t: Turn, i: nat, first: nat, n: nat)
    ensures forall id :: id in AckedOf(t, i, first, n) <==> first <= id < first + n && t.ack(i, id - first).Acked?
  {
    if n > 0 { AckedOfExactly(t, i, first, n - 1); }
  }

  /** The acknowledgements the broker gave for what a turn hands off for its first n records. */
  function AckedBy(t: Turn, recs: seq<Record>, base: nat, n: nat): set<nat>
    requires n <= |recs|
  {
    if n == 0 then {}
    else
      var e := EntryOf(t, recs, base, n - 1);
      AckedBy(t, recs, base, n - 1) + AckedOf(t, n - 1, e.first, |PubsOf(e)|)
  }

  lemma {:induction false} AckedByNext(t: Turn, recs: seq<Record>, base: nat, n: nat)
    requires n < |recs|
    ensures var e := EntryOf(t, recs, base, n);
            AckedBy(t, recs, base, n + 1) == AckedBy(t, recs, base, n) + AckedOf(t, n, e.first, |PubsOf(e)|)
  {
    hide AckedOf, EntryOf;
  }

  /** `id` is publication j of record i in the log, and the broker acknowledged it. */
  ghost predicate AckNamed(t: Turn, recs: seq<Record>, base: nat, n: nat, id: nat, i: nat, j: nat)
    requires n <= |recs|
  {
    i < n && j < |PubsOf(EntryOf(t, recs, base, i))| && id == EntryOf(t, recs, base, i).first + j && t.ack(i, j).Acked?
  }

  ghost predicate AckGiven(t: Turn, recs: seq<Record>, base: nat, n: nat, id: nat)
    requires n <= |recs|
  {
    exists i: nat, j: nat :: AckNamed(t, recs, base, n, id, i, j)
  }

  /** The acknowledgements of a turn are those the broker gave, each for the publication it gave it for. */
  lemma {:induction false} AckedByExactly(t: Turn, recs: seq<Record>, base: nat, n: nat, id: nat)
    requires n <= |recs|
    ensures id in AckedBy(t, recs, base, n) <==> AckGiven(t, recs, base, n, id)
  {
    NoneAcked(t, recs, base);
    hide AckedBy, AckedOf, PubsOf, EntryOf;
    if n > 0 {
      var e := EntryOf(t, recs, base, n - 1);
      AckedByExactly(t, recs, base, n - 1, id);
      AckedByNext(t, recs, base, n - 1);
      AckedOfExactly(t, n - 1, e.first, |PubsOf(e)|);
      if AckGiven(t, recs, base, n - 1, id) {
        var i: nat, j: nat :| AckNamed(t, recs, base, n - 1, id, i, j);
        assert AckNamed(t, recs, base, n, id, i, j);
      }
      if id in AckedOf(t, n - 1, e.first, |PubsOf(e)|) {
        assert AckNamed(t, recs, base, n, id, n - 1, id - e.first);
      }
      if AckGiven(t, recs, base, n, id) {
        var i: nat, j: nat :| AckNamed(t, recs, base, n, id, i, j);
        if i < n - 1 { assert AckNamed(t, recs, base, n - 1, id, i, j); }
      }
    }
  }

  lemma {:induction false} AckedByInLog(t: Turn, recs: seq<Record>, base: nat, n: nat)
    requires n <= |recs|
    ensures forall id :: id in AckedBy(t, recs, base, n) ==> base <= id < base + |Handed(t, recs, n)|
  {
    NoneAcked(t, recs, base);
    hide Handed, PubsOf, AckedOf, AckedBy;
    if n > 0 {
      var e := EntryOf(t, recs, base, n - 1);
      AckedByInLog(t, recs, base, n - 1);
      AckedByNext(t, recs, base, n - 1);
      AckedOfExactly(t, n - 1, e.first, |PubsOf(e)|);
      HandedNext(t, recs, base, n - 1);
    }
  }

  lemma {:induction false} NoneAcked(t: Turn, recs: seq<Record>, base: nat)
    ensures AckedBy(t, recs, base, 0) == {}
  {
  }

  lemma {:induction false} AckedByGrows(t: Turn, recs: seq<Record>, base: nat, i: nat, n: nat)
    requires i <= n <= |recs|
    ensures AckedBy(t, recs, base, i) <= AckedBy(t, recs, base, n)
    decreases n
  {
    hide AckedBy, AckedOf, PubsOf, EntryOf;
    if i < n {
      AckedByGrows(t, recs, base, i, n - 1);
      AckedByNext(t, recs, base, n - 1);
    }
  }

  /** The broker's acknowledgements of some publications in the log. */
  lemma {:induction false} Acknowledgements(c: Config, s0: State, before: seq<Step>, s: State, ids: set<nat>)
    returns (steps: seq<Step>, s': State)
    requires Follow(c, s0, before) == Some(s) && forall id :: id in ids ==> id < |s.published|
    ensures Follow(c, s0, steps) == Some(s') && s' == s.(acked := s.acked + ids)
  {
    hide Follow;
    if ids == {} {
      steps, s' := before, s;
      assert s.acked + {} == s.acked;
    } else {
      var id := Element(ids);
      var steps1, s1 := Acknowledgements(c, s0, before, s, ids - {id});
      FollowStep(c, s0, steps1, s1, Acknowledge(id));
      steps, s' := steps1 + [Acknowledge(id)], Apply(c, s1, Acknowledge(id));
      assert s.acked + (ids - {id}) + {id} == s.acked + ids;
    }
  }

  /** Marking records finished, on one partition's state. */
  ghost function FinishAll(st: PartitionState, recs: seq<Record>): PartitionState
  {
    if recs == [] then st else Finishing(FinishAll(st, recs[..|recs| - 1]), recs[|recs| - 1])
  }

  /** What confirming the first n records of a part leaves. */
  ghost function Confirmed(p: Part, n: nat): Part
    requires n <= |p.issued| <= |p.left|
  {
    p.(st := FinishAll(p.st, p.left[..n]), left := p.left[n..], issued := p.issued[n..])
  }

  lemma {:induction false} ConfirmNext(p: Part, n: nat)
    requires n < |p.issued| <= |p.left|
    ensures var q := Confirmed(p, n);
            && q.issued != [] && q.left != [] && q.issued[0] == p.issued[n]
            && Confirmed(p, n + 1) == q.(st := Finishing(q.st, q.left[0]), left := q.left[1..], issued := q.issued[1..])
  {
    assert p.left[n..][1..] == p.left[n + 1..] && p.issued[n..][1..] == p.issued[n + 1..];
    assert p.left[..n + 1][..n] == p.left[..n];
  }

  lemma {:induction false} NothingConfirmed(s: State, m: MemberId, k: PartitionKey)
    requires (m, k) in s.parts && |s.parts[(m, k)].issued| <= |s.parts[(m, k)].left|
    ensures OnlyPart(s, s, m, k) && Confirmed(s.parts[(m, k)], 0) == s.parts[(m, k)]
  {
    var p := s.parts[(m, k)];
    assert s.parts[(m, k) := p] == s.parts;
    assert p.left[0..] == p.left && p.issued[0..] == p.issued;
  }

  ghost predicate ConfirmedOnly(s: State, s': State, m: MemberId, k: PartitionKey)
  {
    OnlyPart(s, s', m, k) && s'.published == s.published && s'.acked == s.acked && s'.entries == s.entries
  }

  lemma {:induction false} ConfirmStep(c: Config, s: State, s1: State, m: MemberId, k: PartitionKey, n: nat)
    requires ConfirmedOnly(s, s1, m, k) && n < |s.parts[(m, k)].issued| <= |s.parts[(m, k)].left|
    requires s1.parts[(m, k)] == Confirmed(s.parts[(m, k)], n) && AckedEntry(s, s.parts[(m, k)].issued[n])
    ensures Enabled(c, s1, ConfirmFirst(m, k))
    ensures var s' := Apply(c, s1, ConfirmFirst(m, k));
            ConfirmedOnly(s, s', m, k) && s'.parts[(m, k)] == Confirmed(s.parts[(m, k)], n + 1)
  {
    ConfirmNext(s.parts[(m, k)], n);
    hide Confirmed, Finishing, PubsOf;
  }

  /** The third phase: the first n records, all of whose publications are acknowledged, are marked finished. */
  lemma {:induction false} Confirmations(c: Config, s0: State, before: seq<Step>, s: State, m: MemberId,
      k: PartitionKey, n: nat)
    returns (steps: seq<Step>, s': State)
    requires Follow(c, s0, before) == Some(s) && (m, k) in s.parts
    requires n <= |s.parts[(m, k)].issued| <= |s.parts[(m, k)].left|
    requires forall i :: 0 <= i < n ==> AckedEntry(s, s.parts[(m, k)].issued[i])
    ensures Follow(c, s0, steps) == Some(s') && ConfirmedOnly(s, s', m, k)
    ensures s'.parts[(m, k)] == Confirmed(s.parts[(m, k)], n)
  {
    NothingConfirmed(s, m, k);
    hide Follow, Confirmed, AckedEntry, Enabled, Apply;
    if n == 0 {
      steps, s' := before, s;
    } else {
      var steps1, s1 := Confirmations(c, s0, before, s, m, k, n - 1);
      ConfirmStep(c, s, s1, m, k, n - 1);
      FollowStep(c, s0, steps1, s1, ConfirmFirst(m, k));
      steps, s' := steps1 + [ConfirmFirst(m, k)], Apply(c, s1, ConfirmFirst(m, k));
    }
  }

  lemma {:induction false} HandedGrows(t: Turn, recs: seq<Record>, i: nat, n: nat)
    requires i <= n <= |recs|
    ensures Handed(t, recs, i) <= Handed(t, recs, n)
    decreases n
  {
    if i < n { HandedGrows(t, recs, i, n - 1); }
  }

  /** A confirmed record's entry is acknowledged by the acknowledgements the broker gave. */
  lemma {:induction false} EntryAcked(s: State, t: Turn, recs: seq<Record>, base: nat, i: nat, n: nat)
    requires i < n <= |recs| && Confirms(t, recs, i) && AckedBy(t, recs, base, n) <= s.acked
    ensures AckedEntry(s, EntryOf(t, recs, base, i))
  {
    hide Handed, AckedOf, AckedBy, Publishes;
    var e := EntryOf(t, recs, base, i);
    AckedByGrows(t, recs, base, i + 1, n);
    AckedByNext(t, recs, base, i);
    AckedOfExactly(t, i, e.first, |PubsOf(e)|);
    ConfirmedPubs(t, recs, base, i);
  }

  lemma {:induction false} ConfirmedPubs(t: Turn, recs: seq<Record>, base: nat, i: nat)
    requires i < |recs| && Confirms(t, recs, i)
    ensures forall j :: 0 <= j < |PubsOf(EntryOf(t, recs, base, i))| ==> t.ack(i, j).Acked?
  {
  }

  /** A pass on one partition's part: its first records finished, the rest left, nothing in flight. */
  ghost function Passed(p: Part, applied: nat): Part
    requires applied <= |p.left|
  {
    p.(st := FinishAll(p.st, p.left[..applied]), left := p.left[applied..], issued := [])
  }

  /**
   * A pass: the publications of the first n records, the acknowledgements the
   * broker gives for them, and a confirmation for each of the records all of
   * whose publications it acknowledges.
   */
  lemma {:induction false} PassRuns(c: Config, s0: State, before: seq<Step>, s: State, m: MemberId, k: PartitionKey,
      t: Turn, recs: seq<Record>, n: nat, applied: nat)
    returns (steps: seq<Step>, s': State)
    requires Follow(c, s0, before) == Some(s) && (m, k) in s.parts && s.parts[(m, k)].issued == []
    requires recs <= s.parts[(m, k)].left && applied <= n
    requires PublishedPrefix(t, recs, n) && ConfirmedPrefix(t, recs, applied)
    ensures Follow(c, s0, steps) == Some(s') && OnlyPart(s, s', m, k)
    ensures s'.parts[(m, k)] == Passed(s.parts[(m, k)], applied)
    ensures s'.published == s.published + Handed(t, recs, n)
    ensures s'.acked == s.acked + AckedBy(t, recs, |s.published|, n)
  {
    var base := |s.published|;
    hide Follow, Publishes, Confirms, Handed, EntriesOf, FinishAll, AckedEntry, AckedBy;
    var steps1, s1 := HandOffs(c, s0, before, s, m, k, t, recs, n);
    AckedByInLog(t, recs, base, n);
    EntriesLength(t, recs, base, n);
    var steps2, s2 := Acknowledgements(c, s0, steps1, s1, AckedBy(t, recs, base, n));
    forall i | 0 <= i < applied ensures AckedEntry(s2, s2.parts[(m, k)].issued[i]) {
      EntryAcked(s2, t, recs, base, i, n);
      EntryAt(t, recs, base, n, i);
    }
    var steps3, s3 := Confirmations(c, s0, steps2, s2, m, k, applied);
    FollowStep(c, s0, steps3, s3, EndPass(m, k));
    steps, s' := steps3 + [EndPass(m, k)], Apply(c, s3, EndPass(m, k));
  }

  lemma {:induction false} EntryAt(t: Turn, recs: seq<Record>, base: nat, n: nat, i: nat)
    requires i < n <= |recs|
    ensures |EntriesOf(t, recs, base, n)| == n && EntriesOf(t, recs, base, n)[i] == EntryOf(t, recs, base, i)
  {
  }

  lemma {:induction false} EntriesLength(t: Turn, recs: seq<Record>, base: nat, n: nat)
    requires n <= |recs|
    ensures |EntriesOf(t, recs, base, n)| == n
  {
  }

  /******* The tracker *******/

  lemma {:induction false} DoneAllIsFinishAll(t: Tracker, k: PartitionKey, recs: seq<Record>)
    requires k in t && forall r :: r in recs ==> r.key == k
    ensures DoneAll(t, recs) == t[k := FinishAll(t[k], recs)]
  {
    if recs == [] {
      assert t[k := t[k]] == t;
    } else {
      DoneAllIsFinishAll(t, k, recs[..|recs| - 1]);
    }
  }

  lemma {:induction false} FinishAllConcat(st: PartitionState, a: seq<Record>, b: seq<Record>)
    ensures FinishAll(st, a + b) == FinishAll(FinishAll(st, a), b)
  {
    if b == [] {
      assert a + b == a;
    } else {
      FinishAllConcat(st, a, b[..|b| - 1]);
      assert (a + b)[..|a + b| - 1] == a + b[..|b| - 1];
    }
  }

  /** The member's tracker after some of a partition's records have been finished. */
  lemma {:induction false} TrackerAfter(s: State, s': State, m: MemberId, k: PartitionKey, recs: seq<Record>)
    requires OnlyPart(s, s', m, k) && s'.parts[(m, k)].st == FinishAll(s.parts[(m, k)].st, recs)
    requires forall r :: r in recs ==> r.key == k
    ensures TrackerOf(s', m) == DoneAll(TrackerOf(s, m), recs)
  {
    assert k in TrackerOf(s, m);
    OneUpdate(s, s', (m, k), s'.parts[(m, k)], m);
    DoneAllIsFinishAll(TrackerOf(s, m), k, recs);
  }

  /******* The code *******/

  /** The member's tracker is the sink's, and the records left of a partition are those at hand. */
  ghost predicate InStep(s: State, sink: Sink, m: MemberId, k: PartitionKey, rest: seq<Record>)
    reads sink.offsets
  {
    && (m, k) in s.parts && s.parts[(m, k)].left == rest && s.parts[(m, k)].issued == []
    && TrackerOf(s, m) == sink.offsets.p
    && forall r :: r in rest ==> r.key == k
  }

  /**
   * pass is a run: it publishes exactly what the code hands to the broker, the
   * broker acknowledges exactly what the turn says, and each record the code
   * marks finished is confirmed on those acknowledgements.
   */
  method PassOnGroup(sink: Sink, rest: seq<Record>, t: Turn,
      ghost c: Config, ghost s0: State, ghost before: seq<Step>, ghost s: State, ghost m: MemberId,
      ghost k: PartitionKey)
    returns (applied: nat, err: Option<int>, published: nat, ghost steps: seq<Step>, ghost s': State)
    requires Follow(c, s0, before) == Some(s) && InStep(s, sink, m, k, rest)
    modifies sink`handed, sink.offsets
    ensures Follow(c, s0, steps) == Some(s') && OnlyPart(s, s', m, k)
    ensures applied <= |rest| && InStep(s', sink, m, k, rest[applied..])
    ensures old(sink.handed) <= sink.handed
    ensures s'.published == s.published + sink.handed[|old(sink.handed)|..]
    ensures PublishedPrefix(t, sink.Window(rest), published)
    ensures s'.acked == s.acked + AckedBy(t, sink.Window(rest), |s.published|, published)
  {
    hide Follow, Publishes, ConfirmedPrefix, Handed, FailureAt, AckedBy;
    var prep;
    applied, err, prep, published := sink.Pass(rest, t);
    steps, s' := PassRuns(c, s0, before, s, m, k, t, sink.Window(rest), published, applied);
    TrackerAfter(s, s', m, k, rest[..applied]);
  }

  /** The acknowledgements the broker gave for what one pass of a run hands off. */
  function AckedIn(a: Attempt, t: Turn, recs: seq<Record>, limit: nat, base: nat): set<nat>
  {
    if a.start <= |recs| && a.issued <= |Clip(recs[a.start..], limit)|
    then AckedBy(t, Clip(recs[a.start..], limit), base, a.issued) else {}
  }

  /** The acknowledgements the broker gave for what a run's passes hand off, from `base` in the log on. */
  function AckedByAll(attempts: seq<Attempt>, w: World, recs: seq<Record>, limit: nat, base: nat): set<nat>
  {
    if attempts == [] then {}
    else
      var n := |attempts| - 1;
      AckedByAll(attempts[..n], w, recs, limit, base) +
      AckedIn(attempts[n], w.turn(n), recs, limit, base + |HandedByAll(attempts[..n], w, recs, limit)|)
  }

  /** A run that has finished some of a part's records, and one more pass. */
  lemma {:induction false} NextAttempt(c: Config, s0: State, before: seq<Step>, s: State, s1: State, m: MemberId,
      k: PartitionKey, t: Turn, limit: nat, a: Attempt)
    returns (steps: seq<Step>, s': State)
    requires Follow(c, s0, before) == Some(s1) && OnlyPart(s, s1, m, k)
    requires a.start + a.applied <= |s.parts[(m, k)].left| && s1.parts[(m, k)] == Passed(s.parts[(m, k)], a.start)
    requires ValidAttempt(a, t, s.parts[(m, k)].left, limit)
    ensures Follow(c, s0, steps) == Some(s') && OnlyPart(s, s', m, k)
    ensures s'.parts[(m, k)] == Passed(s.parts[(m, k)], a.start + a.applied)
    ensures s'.published == s1.published + HandedBy(a, t, s.parts[(m, k)].left, limit)
    ensures s'.acked == s1.acked + AckedIn(a, t, s.parts[(m, k)].left, limit, |s1.published|)
  {
    hide Follow, ValidAttempt, OnlyPart, ConfirmedPrefix, PublishedPrefix, Passed, Handed, HandedBy, Clip, AckedBy;
    hide AckedIn;
    InBoth(s, s1, m, k);
    var p := s.parts[(m, k)];
    var recs := AttemptFacts(a, t, p.left, limit, |s1.published|);
    PassedFacts(p, a.start, limit);
    PassedTwice(p, a.start, a.applied);
    steps, s' := PassRuns(c, s0, before, s1, m, k, t, recs, a.issued, a.applied);
    OnlyPartTwice(s, s1, s', m, k);
    InBoth(s, s', m, k);
  }

  lemma {:induction false} AttemptFacts(a: Attempt, t: Turn, all: seq<Record>, limit: nat, base: nat)
    returns (recs: seq<Record>)
    requires ValidAttempt(a, t, all, limit)
    ensures a.start <= |all| && recs == Clip(all[a.start..], limit) && a.applied <= a.issued <= |recs|
    ensures PublishedPrefix(t, recs, a.issued) && ConfirmedPrefix(t, recs, a.applied)
    ensures HandedBy(a, t, all, limit) == Handed(t, recs, a.issued)
    ensures AckedIn(a, t, all, limit, base) == AckedBy(t, recs, base, a.issued)
  {
    hide PublishedPrefix, ConfirmedPrefix, Handed, AckedBy;
    recs := Clip(all[a.start..], limit);
  }

  /** A chain of passes, as runPartition makes them. */
  lemma {:induction false} AttemptsRun(c: Config, s0: State, before: seq<Step>, s: State, m: MemberId, k: PartitionKey,
      w: World, limit: nat, attempts: seq<Attempt>, done: nat)
    returns (steps: seq<Step>, s': State)
    requires Follow(c, s0, before) == Some(s) && (m, k) in s.parts && s.parts[(m, k)].issued == []
    requires Chained(attempts, w, s.parts[(m, k)].left, limit, done) && done <= |s.parts[(m, k)].left|
    ensures Follow(c, s0, steps) == Some(s') && OnlyPart(s, s', m, k)
    ensures s'.parts[(m, k)] == Passed(s.parts[(m, k)], done)
    ensures s'.published == s.published + HandedByAll(attempts, w, s.parts[(m, k)].left, limit)
    ensures s'.acked == s.acked + AckedByAll(attempts, w, s.parts[(m, k)].left, limit, |s.published|)
    decreases |attempts|
  {
    hide Follow, Chained, ValidAttempt, Passed, OnlyPart, HandedByAll, AckedByAll, HandedBy, AckedIn;
    var recs := s.parts[(m, k)].left;
    NothingPassed(s, m, k);
    if attempts == [] {
      NoAttempts(s, w, recs, limit, done);
      steps, s' := before, s;
    } else {
      var n := |attempts| - 1;
      ChainFront(attempts, w, recs, limit, done);
      var steps1, s1 := AttemptsRun(c, s0, before, s, m, k, w, limit, attempts[..n], attempts[n].start);
      steps, s' := NextAttempt(c, s0, steps1, s, s1, m, k, w.turn(n), limit, attempts[n]);
      InBoth(s, s', m, k);
      OneMoreAttempt(attempts, w, recs, limit, s.published, s.acked);
    }
  }

  lemma {:induction false} OneMoreAttempt(attempts: seq<Attempt>, w: World, recs: seq<Record>, limit: nat,
      published: seq<Publication>, acked: set<nat>)
    requires attempts != []
    ensures var n := |attempts| - 1;
            var sofar := published + HandedByAll(attempts[..n], w, recs, limit);
            && published + HandedByAll(attempts, w, recs, limit) ==
               sofar + HandedBy(attempts[n], w.turn(n), recs, limit)
            && acked + AckedByAll(attempts, w, recs, limit, |published|) ==
               acked + AckedByAll(attempts[..n], w, recs, limit, |published|) +
               AckedIn(attempts[n], w.turn(n), recs, limit, |sofar|)
  {
    hide HandedBy, AckedIn;
  }

  lemma {:induction false} NoAttempts(s: State, w: World, recs: seq<Record>, limit: nat, done: nat)
    requires Chained([], w, recs, limit, done)
    ensures done == 0
    ensures s.published == s.published + HandedByAll([], w, recs, limit)
    ensures s.acked == s.acked + AckedByAll([], w, recs, limit, |s.published|)
  {
  }

  lemma {:induction false} NothingPassed(s: State, m: MemberId, k: PartitionKey)
    requires (m, k) in s.parts && s.parts[(m, k)].issued == []
    ensures OnlyPart(s, s, m, k) && Passed(s.parts[(m, k)], 0) == s.parts[(m, k)]
  {
    assert s.parts[(m, k) := s.parts[(m, k)]] == s.parts;
    assert s.parts[(m, k)].left[0..] == s.parts[(m, k)].left;
  }

  lemma {:induction false} PassedFacts(p: Part, a: nat, limit: nat)
    requires a <= |p.left|
    ensures Passed(p, a).issued == [] && Passed(p, a).left == p.left[a..]
    ensures Clip(p.left[a..], limit) <= p.left[a..]
  {
  }

  lemma {:induction false} PassedTwice(p: Part, a: nat, b: nat)
    requires a + b <= |p.left|
    ensures Passed(Passed(p, a), b) == Passed(p, a + b)
  {
    FinishAllConcat(p.st, p.left[..a], p.left[a..][..b]);
    Slices(p.left, a, b);
  }

  lemma {:induction false} ChainFront(attempts: seq<Attempt>, w: World, recs: seq<Record>, limit: nat, done: nat)
    requires Chained(attempts, w, recs, limit, done) && attempts != []
    ensures var last := attempts[|attempts| - 1];
            && Chained(attempts[..|attempts| - 1], w, recs, limit, last.start)
            && done == last.start + last.applied && last.start <= |recs|
            && ValidAttempt(last, w.turn(|attempts| - 1), recs, limit)
  {
    var n := |attempts| - 1;
    assert ValidAttempt(attempts[n], w.turn(n), recs, limit);
    forall i | 0 <= i < n ensures ValidAttempt(attempts[..n][i], w.turn(i), recs, limit) {
      assert ValidAttempt(attempts[i], w.turn(i), recs, limit);
    }
    hide ValidAttempt;
  }

  /**
   * runPartition is a run, however often it retries: it publishes exactly what
   * the code hands to the broker, and the broker acknowledges exactly what the
   * world says of it.
   */
  method RunPartitionOnGroup(sink: Sink, recs: seq<Record>, w: World, b: Budget,
      ghost c: Config, ghost s0: State, ghost before: seq<Step>, ghost s: State, ghost m: MemberId,
      ghost k: PartitionKey)
    returns (finished: bool, done: nat, attempts: seq<Attempt>, ghost steps: seq<Step>, ghost s': State)
    requires b.retryPeriod > 0 && Follow(c, s0, before) == Some(s) && InStep(s, sink, m, k, recs)
    modifies sink`handed, sink.offsets
    ensures Follow(c, s0, steps) == Some(s') && OnlyPart(s, s', m, k)
    ensures done <= |recs| && InStep(s', sink, m, k, recs[done..]) && (finished <==> done == |recs|)
    ensures Chained(attempts, w, recs, sink.maxInFlight, done)
    ensures EndedDuly(attempts, w, recs, sink.maxInFlight, b, done)
    ensures old(sink.handed) <= sink.handed
    ensures s'.published == s.published + sink.handed[|old(sink.handed)|..]
    ensures s'.acked == s.acked + AckedByAll(attempts, w, recs, sink.maxInFlight, |s.published|)
  {
    hide Follow, Chained, EndedDuly, HandedByAll, AckedByAll;
    finished, done, attempts := sink.RunPartition(recs, w, b);
    steps, s' := AttemptsRun(c, s0, before, s, m, k, w, sink.maxInFlight, attempts, done);
    TrackerAfter(s, s', m, k, recs[..done]);
  }

  /** abandonBatch is one step, and the group resumes each rewound partition where it says. */
  method AbandonBatchOnGroup(sink: Sink, ghost c: Config, ghost s0: State, ghost before: seq<Step>, ghost s: State,
      ghost m: MemberId)
    returns (rewound: map<PartitionKey, EpochOffset>, ghost s': State)
    requires Follow(c, s0, before) == Some(s) && TrackerOf(s, m) == sink.offsets.p
    modifies sink.offsets
    ensures Follow(c, s0, before + [Abandon(m)]) == Some(s') && TrackerOf(s', m) == sink.offsets.p
    ensures forall k :: k in rewound ==> (m, k) in s'.parts && s'.parts[(m, k)].position == rewound[k].offset
    ensures forall k :: (m, k) in s.parts && k !in rewound ==>
              (m, k) in s'.parts && s'.parts[(m, k)].position == s.parts[(m, k)].position
    ensures forall k :: (m, k) in s'.parts ==> s'.parts[(m, k)].left == []
  {
    rewound := sink.AbandonBatch();
    FollowStep(c, s0, before, s, Abandon(m));
    s' := Apply(c, s, Abandon(m));
    AbandonsAlike(c, s, m);
    AbandonedParts(c, s, m);
    hide Follow, Apply, Abandoned;
  }

  lemma {:induction false} AbandonedParts(c: Config, s: State, m: MemberId)
    ensures var s', rewound := Apply(c, s, Abandon(m)), PendingMap(TrackerOf(s, m));
            && (forall k :: k in rewound ==> (m, k) in s'.parts && s'.parts[(m, k)].position == rewound[k].offset)
            && (forall k :: (m, k) in s.parts && k !in rewound ==>
                  (m, k) in s'.parts && s'.parts[(m, k)].position == s.parts[(m, k)].position)
            && (forall k :: (m, k) in s'.parts ==> s'.parts[(m, k)].left == [])
  {
    hide PendingState;
    var t := TrackerOf(s, m);
    assert forall k :: k in t <==> (m, k) in s.parts;
    assert forall k :: k in t ==> t[k] == s.parts[(m, k)].st;
  }

  /******* A whole batch *******/

  /** What a poll leaves of one partition's part. */
  ghost function PolledPart(p: Part, recs: seq<Record>, newPosition: nat): Part
  {
    p.(st := TrackAll(p.st, recs), position := newPosition, left := recs, issued := [])
  }

  /** The partition of a batch's run. */
  function KeyAt(runs: seq<GroupRun>, g: nat): PartitionKey
    requires g < |runs|
  {
    if runs[g].recs == [] then PartitionKey("", 0) else runs[g].recs[0].key
  }

  /** The runs are of different partitions, each one's records its own. */
  ghost predicate Apart(runs: seq<GroupRun>)
  {
    && (forall g: nat, h: nat :: g < h < |runs| ==> KeyAt(runs, g) != KeyAt(runs, h))
    && (forall g: nat :: g < |runs| ==> OneKey(runs[g].recs, KeyAt(runs, g)))
  }

  ghost predicate OneKey(recs: seq<Record>, k: PartitionKey)
  {
    forall rec :: rec in recs ==> rec.key == k
  }

  lemma {:induction false} RunsApart(runs: seq<GroupRun>, records: seq<Record>)
    requires RunsOf(runs, records)
    ensures Apart(runs)
  {
    forall g: nat, rec | g < |runs| && rec in runs[g].recs ensures rec.key == KeyAt(runs, g) {
      InRun(runs, records, g, rec);
    }
    forall g: nat, h: nat | g < h < |runs| ensures KeyAt(runs, g) != KeyAt(runs, h) {
      assert IsGroup(runs[g].recs, records) && IsGroup(runs[h].recs, records);
      assert KeyOf(runs[g].recs) != KeyOf(runs[h].recs);
    }
  }

  /** One of the first n runs' parts. */
  ghost predicate Among(runs: seq<GroupRun>, n: nat, m: MemberId, mk: (MemberId, PartitionKey))
    requires n <= |runs|
  {
    exists g: nat :: g < n && mk == (m, KeyAt(runs, g))
  }

  lemma {:induction false} AmongNext(runs: seq<GroupRun>, n: nat, m: MemberId, mk: (MemberId, PartitionKey))
    requires n < |runs|
    ensures Among(runs, n + 1, m, mk) <==> Among(runs, n, m, mk) || mk == (m, KeyAt(runs, n))
  {
    if g: nat :| g < n + 1 && mk == (m, KeyAt(runs, g)) {
      if g < n { assert Among(runs, n, m, mk); }
    }
    if mk == (m, KeyAt(runs, n)) { assert Among(runs, n + 1, m, mk); }
  }

  lemma {:induction false} NotAmong(runs: seq<GroupRun>, n: nat, m: MemberId)
    requires n < |runs| && Apart(runs)
    ensures !Among(runs, n, m, (m, KeyAt(runs, n)))
  {
  }

  /** The first n of a batch's parts have changed as said, and no other part. */
  ghost predicate FirstParts(s: State, s': State, m: MemberId, runs: seq<GroupRun>, n: nat, parts: seq<Part>)
    requires n <= |runs| == |parts|
  {
    && s'.parts.Keys == s.parts.Keys
    && (forall mk :: mk in s.parts && !Among(runs, n, m, mk) ==> s'.parts[mk] == s.parts[mk])
    && (forall g: nat :: g < n ==> PartIs(s', m, KeyAt(runs, g), parts[g]))
  }

  ghost predicate PartIs(s: State, m: MemberId, k: PartitionKey, p: Part) { (m, k) in s.parts && s.parts[(m, k)] == p }

  function PartOf(s: State, m: MemberId, k: PartitionKey): Part
  {
    if (m, k) in s.parts then s.parts[(m, k)] else UNKNOWN
  }

  lemma {:induction false} NoParts(s: State, m: MemberId, runs: seq<GroupRun>, parts: seq<Part>)
    requires |runs| == |parts|
    ensures FirstParts(s, s, m, runs, 0, parts)
  {
  }

  lemma {:induction false} OtherPart(s: State, s': State, m: MemberId, runs: seq<GroupRun>, n: nat,
      parts: seq<Part>)
    requires n < |runs| == |parts| && Apart(runs) && FirstParts(s, s', m, runs, n, parts)
    requires (m, KeyAt(runs, n)) in s.parts
    ensures (m, KeyAt(runs, n)) in s'.parts && s'.parts[(m, KeyAt(runs, n))] == s.parts[(m, KeyAt(runs, n))]
  {
    NotAmong(runs, n, m);
  }

  lemma {:induction false} OnePartMore(s: State, s1: State, s2: State, m: MemberId, runs: seq<GroupRun>, n: nat,
      parts: seq<Part>)
    requires n < |runs| == |parts| && Apart(runs) && FirstParts(s, s1, m, runs, n, parts)
    requires (m, KeyAt(runs, n)) in s.parts && s2.parts == s1.parts[(m, KeyAt(runs, n)) := parts[n]]
    ensures FirstParts(s, s2, m, runs, n + 1, parts)
  {
    hide Among, KeyAt, Apart, PartIs;
    var k := KeyAt(runs, n);
    forall mk | mk in s.parts && !Among(runs, n + 1, m, mk) ensures s2.parts[mk] == s.parts[mk] {
      AmongNext(runs, n, m, mk);
    }
    forall g: nat | g < n + 1 ensures PartIs(s2, m, KeyAt(runs, g), parts[g]) {
      PartStays(s1, s2, m, runs, n, g, parts);
    }
  }

  lemma {:induction false} PartStays(s1: State, s2: State, m: MemberId, runs: seq<GroupRun>, n: nat, g: nat,
      parts: seq<Part>)
    requires g <= n < |runs| == |parts| && Apart(runs) && s2.parts == s1.parts[(m, KeyAt(runs, n)) := parts[n]]
    requires g < n ==> PartIs(s1, m, KeyAt(runs, g), parts[g])
    ensures PartIs(s2, m, KeyAt(runs, g), parts[g])
  {
    hide KeyAt;
    if g < n { assert KeyAt(runs, g) != KeyAt(runs, n); }
  }

  /** The parts of a batch after the poll. */
  ghost function PolledParts(s: State, m: MemberId, runs: seq<GroupRun>, newPosition: PartitionKey -> nat): seq<Part>
  {
    seq(|runs|, g requires 0 <= g < |runs| =>
      PolledPart(PartOf(s, m, KeyAt(runs, g)), runs[g].recs, newPosition(KeyAt(runs, g))))
  }

  /** The poll returned, of every partition it holds something of, what the log holds up to its new position. */
  ghost predicate CanPoll(c: Config, s: State, m: MemberId, records: seq<Record>, newPosition: PartitionKey -> nat)
  {
    forall k :: OfPartition(records, k) != [] ==> Enabled(c, s, Poll(m, k, OfPartition(records, k), newPosition(k)))
  }

  lemma {:induction false} CanPollRun(c: Config, s: State, m: MemberId, records: seq<Record>,
      newPosition: PartitionKey -> nat, runs: seq<GroupRun>, g: nat)
    requires CanPoll(c, s, m, records, newPosition) && RunsOf(runs, records) && g < |runs|
    ensures var k := KeyAt(runs, g);
            && runs[g].recs == OfPartition(records, k) && runs[g].recs != []
            && Enabled(c, s, Poll(m, k, runs[g].recs, newPosition(k)))
            && (m, k) in s.parts
  {
    hide OfPartition;
    assert IsGroup(runs[g].recs, records);
  }

  /** A poll is enabled, and does, what the partition's own part says. */
  lemma {:induction false} PollAlike(c: Config, s: State, s1: State, step: Step)
    requires step.Poll? && Enabled(c, s, step)
    requires (step.m, step.k) in s1.parts && s1.parts[(step.m, step.k)] == s.parts[(step.m, step.k)]
    ensures Enabled(c, s1, step)
    ensures var mk := (step.m, step.k);
            Apply(c, s1, step) == s1.(parts := s1.parts[mk := PolledPart(s.parts[mk], step.recs, step.newPosition)])
  {
  }

  lemma {:induction false} PollsRun(c: Config, s0: State, before: seq<Step>, s: State, m: MemberId,
      records: seq<Record>, newPosition: PartitionKey -> nat, runs: seq<GroupRun>, n: nat)
    returns (steps: seq<Step>, s': State)
    requires Follow(c, s0, before) == Some(s) && CanPoll(c, s, m, records, newPosition)
    requires RunsOf(runs, records) && Apart(runs) && n <= |runs|
    ensures Follow(c, s0, steps) == Some(s') && s' == s.(parts := s'.parts)
    ensures FirstParts(s, s', m, runs, n, PolledParts(s, m, runs, newPosition))
  {
    hide Follow, CanPoll, RunsOf, Apart, KeyAt, FirstParts, Enabled, Apply, OfPartition, PolledPart;
    var parts := PolledParts(s, m, runs, newPosition);
    NoParts(s, m, runs, parts);
    if n == 0 {
      steps, s' := before, s;
    } else {
      var steps1, s1 := PollsRun(c, s0, before, s, m, records, newPosition, runs, n - 1);
      var k := KeyAt(runs, n - 1);
      CanPollRun(c, s, m, records, newPosition, runs, n - 1);
      OtherPart(s, s1, m, runs, n - 1, parts);
      var step := Poll(m, k, runs[n - 1].recs, newPosition(k));
      PollAlike(c, s, s1, step);
      FollowStep(c, s0, steps1, s1, step);
      steps, s' := steps1 + [step], Apply(c, s1, step);
      OnePartMore(s, s1, s', m, runs, n - 1, parts);
    }
  }

  /** Tracking a poll in arrival order tracks each partition's records in theirs. */
  lemma {:induction false} TrackRecordsApart(t: Tracker, records: seq<Record>)
    requires forall i :: 0 <= i < |records| ==> records[i].key in t
    ensures TrackRecords(t, records) == map k | k in t :: TrackAll(t[k], OfPartition(records, k))
  {
    hide TrackAll, OfPartition;
    KeysTracked(t, records);
    if records == [] {
      NothingTracked(t);
    } else {
      var front, last := records[..|records| - 1], records[|records| - 1];
      TrackRecordsApart(t, front);
      forall k | k in t ensures TrackRecords(t, records)[k] == TrackAll(t[k], OfPartition(records, k)) {
        OneApart(t, records, k);
      }
    }
  }

  lemma {:induction false} OneApart(t: Tracker, records: seq<Record>, k: PartitionKey)
    requires records != [] && records[|records| - 1].key in t && k in t
    requires var front := records[..|records| - 1];
             TrackRecords(t, front) == map q | q in t :: TrackAll(t[q], OfPartition(front, q))
    ensures k in TrackRecords(t, records) && TrackRecords(t, records)[k] == TrackAll(t[k], OfPartition(records, k))
  {
    var front, last := records[..|records| - 1], records[|records| - 1];
    TrackAllNext(t[k], OfPartition(front, k), last);
    assert TrackRecords(t, records) == TrackRecord(TrackRecords(t, front), last);
    assert OfPartition(records, k) == OfPartition(front, k) + (if last.key == k then [last] else []);
    hide TrackAll, OfPartition, TrackRecords;
  }

  lemma {:induction false} KeysTracked(t: Tracker, records: seq<Record>)
    requires forall i :: 0 <= i < |records| ==> records[i].key in t
    ensures TrackRecords(t, records).Keys == t.Keys
  {
    if records != [] { KeysTracked(t, records[..|records| - 1]); }
  }

  lemma {:induction false} NothingTracked(t: Tracker)
    ensures TrackRecords(t, []) == map k | k in t :: TrackAll(t[k], OfPartition([], k))
  {
  }

  lemma {:induction false} TrackAllNext(st: PartitionState, recs: seq<Record>, last: Record)
    ensures TrackAll(st, recs + [last]) == TrackState(Revived(TrackAll(st, recs)), last.offset, last.epoch)
    ensures recs + [] == recs
  {
  }

  /** The member's tracker after the polls is its tracker with the batch tracked. */
  lemma {:induction false} PolledTracker(c: Config, s: State, s': State, m: MemberId, records: seq<Record>,
      newPosition: PartitionKey -> nat, runs: seq<GroupRun>)
    requires CanPoll(c, s, m, records, newPosition) && RunsOf(runs, records)
    requires FirstParts(s, s', m, runs, |runs|, PolledParts(s, m, runs, newPosition))
    ensures TrackerOf(s', m) == TrackRecords(TrackerOf(s, m), records)
  {
    hide FirstParts, TrackRecords, RunsOf, CanPoll;
    var t := TrackerOf(s, m);
    forall i | 0 <= i < |records| ensures records[i].key in t {
      PolledIsKnown(c, s, m, records, newPosition, i);
    }
    TrackRecordsApart(t, records);
    PolledKeys(s, s', m, runs, PolledParts(s, m, runs, newPosition));
    forall k | k in t ensures TrackerOf(s', m)[k] == TrackAll(t[k], OfPartition(records, k)) {
      PolledState(s, s', m, records, newPosition, runs, k);
    }
  }

  lemma {:induction false} RunIsGroup(runs: seq<GroupRun>, records: seq<Record>, g: nat)
    requires RunsOf(runs, records) && g < |runs|
    ensures runs[g].recs != [] && runs[g].recs == OfPartition(records, KeyAt(runs, g))
  {
    assert IsGroup(runs[g].recs, records);
  }

  lemma {:induction false} PolledKeys(s: State, s': State, m: MemberId, runs: seq<GroupRun>, parts: seq<Part>)
    requires |runs| == |parts| && FirstParts(s, s', m, runs, |runs|, parts)
    ensures TrackerOf(s', m).Keys == TrackerOf(s, m).Keys
  {
    hide PartIs;
    forall k ensures k in TrackerOf(s', m) <==> k in TrackerOf(s, m) {
      KnownKeys(s, m, k);
      KnownKeys(s', m, k);
    }
  }

  lemma {:induction false} PolledIsKnown(c: Config, s: State, m: MemberId, records: seq<Record>,
      newPosition: PartitionKey -> nat, i: nat)
    requires CanPoll(c, s, m, records, newPosition) && i < |records|
    ensures records[i].key in TrackerOf(s, m)
  {
    KeepsRecord(records, i);
    hide OfPartition;
    assert OfPartition(records, records[i].key) != [];
    KnownKeys(s, m, records[i].key);
  }

  lemma {:induction false} PolledState(s: State, s': State, m: MemberId, records: seq<Record>,
      newPosition: PartitionKey -> nat, runs: seq<GroupRun>, k: PartitionKey)
    requires RunsOf(runs, records) && (m, k) in s.parts
    requires FirstParts(s, s', m, runs, |runs|, PolledParts(s, m, runs, newPosition))
    ensures (m, k) in s'.parts && s'.parts[(m, k)].st == TrackAll(s.parts[(m, k)].st, OfPartition(records, k))
  {
    hide RunsOf, OfPartition;
    if Among(runs, |runs|, m, (m, k)) {
      var g: nat :| g < |runs| && (m, k) == (m, KeyAt(runs, g));
      assert PartIs(s', m, KeyAt(runs, g), PolledParts(s, m, runs, newPosition)[g]);
      RunIsGroup(runs, records, g);
    } else {
      SomeOfIt(runs, records, m, k);
    }
  }

  lemma {:induction false} SomeOfIt(runs: seq<GroupRun>, records: seq<Record>, m: MemberId, k: PartitionKey)
    requires RunsOf(runs, records)
    ensures OfPartition(records, k) != [] ==> Among(runs, |runs|, m, (m, k))
  {
    if OfPartition(records, k) != [] {
      var rec := OfPartition(records, k)[0];
      OfPartitionExactly(records, k, rec);
      hide OfPartition;
      var i :| 0 <= i < |records| && records[i] == rec;
      assert InSomeRun(runs, records[i]);
      var g: nat :| g < |runs| && rec in runs[g].recs;
      InRun(runs, records, g, rec);
      assert (m, k) == (m, KeyAt(runs, g));
    }
  }

  /** The acknowledgements the broker gave in a batch, from `base` in the log on. */
  function AckedInBatch(runs: seq<GroupRun>, worlds: nat -> World, limit: nat, base: nat): set<nat>
  {
    if runs == [] then {}
    else
      var n := |runs| - 1;
      AckedInBatch(runs[..n], worlds, limit, base) +
      AckedByAll(runs[n].attempts, worlds(n), runs[n].recs, limit, base + |HandedIn(runs[..n], worlds, limit)|)
  }

  lemma {:induction false} OneMoreGroup(runs: seq<GroupRun>, n: nat, worlds: nat -> World, limit: nat,
      published: seq<Publication>, acked: set<nat>, t: Tracker)
    requires n < |runs|
    ensures var run, sofar := runs[n], published + HandedIn(runs[..n], worlds, limit);
            && published + HandedIn(runs[..n + 1], worlds, limit) ==
               sofar + HandedByAll(run.attempts, worlds(n), run.recs, limit)
            && acked + AckedInBatch(runs[..n + 1], worlds, limit, |published|) ==
               acked + AckedInBatch(runs[..n], worlds, limit, |published|) +
               AckedByAll(run.attempts, worlds(n), run.recs, limit, |sofar|)
            && DoneAll(t, FinishedIn(runs[..n + 1])) ==
               DoneAll(DoneAll(t, FinishedIn(runs[..n])), Clip(run.recs, run.done))
  {
    hide HandedByAll, AckedByAll, Clip, DoneAll;
    assert runs[..n + 1][..n] == runs[..n];
    DoneAllConcat(t, FinishedIn(runs[..n]), Clip(runs[n].recs, runs[n].done));
  }

  lemma {:induction false} NoGroups(s: State, m: MemberId, worlds: nat -> World, limit: nat)
    ensures s.published == s.published + HandedIn([], worlds, limit)
    ensures s.acked == s.acked + AckedInBatch([], worlds, limit, |s.published|)
    ensures TrackerOf(s, m) == DoneAll(TrackerOf(s, m), FinishedIn([]))
  {
    hide TrackerOf;
  }

  /** Each run's partition has the run's records at hand. */
  ghost predicate Ready(s: State, m: MemberId, runs: seq<GroupRun>)
  {
    forall g: nat :: g < |runs| ==> ReadyAt(s, m, KeyAt(runs, g), runs[g].recs)
  }

  ghost predicate ReadyAt(s: State, m: MemberId, k: PartitionKey, recs: seq<Record>)
  {
    (m, k) in s.parts && s.parts[(m, k)].left == recs && s.parts[(m, k)].issued == []
  }

  lemma {:induction false} PolledReady(s: State, s': State, m: MemberId, runs: seq<GroupRun>,
      newPosition: PartitionKey -> nat)
    requires FirstParts(s, s', m, runs, |runs|, PolledParts(s, m, runs, newPosition))
    ensures Ready(s', m, runs)
  {
    forall g: nat | g < |runs| ensures ReadyAt(s', m, KeyAt(runs, g), runs[g].recs) {
      assert PartIs(s', m, KeyAt(runs, g), PolledParts(s, m, runs, newPosition)[g]);
    }
  }

  /** The parts of a batch after its runs. */
  ghost function RanParts(s: State, m: MemberId, runs: seq<GroupRun>): seq<Part>
  {
    seq(|runs|, g requires 0 <= g < |runs| => PassedUpTo(PartOf(s, m, KeyAt(runs, g)), runs[g].done))
  }

  ghost function PassedUpTo(p: Part, n: nat): Part { if n <= |p.left| then Passed(p, n) else p }

  lemma {:induction false} OnePartOnly(s: State, s1: State, s2: State, m: MemberId, runs: seq<GroupRun>, n: nat)
    requires n < |runs| && Apart(runs) && FirstParts(s, s1, m, runs, n, RanParts(s, m, runs))
    requires ReadyAt(s, m, KeyAt(runs, n), runs[n].recs) && runs[n].done <= |runs[n].recs|
    requires OnlyPart(s1, s2, m, KeyAt(runs, n))
    requires s2.parts[(m, KeyAt(runs, n))] == Passed(s.parts[(m, KeyAt(runs, n))], runs[n].done)
    ensures FirstParts(s, s2, m, runs, n + 1, RanParts(s, m, runs))
  {
    hide FirstParts, Passed, Apart, KeyAt;
    OnePartMore(s, s1, s2, m, runs, n, RanParts(s, m, runs));
  }

  /** The same but for parts, publications and acknowledgements. */
  ghost predicate OnlyWorked(s: State, s': State)
  {
    s' == s.(parts := s'.parts, published := s'.published, acked := s'.acked, entries := s'.entries)
  }

  lemma {:induction false} WorkedOn(s: State, s1: State, s2: State, m: MemberId, k: PartitionKey)
    requires OnlyWorked(s, s1) && OnlyPart(s1, s2, m, k)
    ensures OnlyWorked(s, s2)
  {
  }

  lemma {:induction false} GroupsRun(c: Config, s0: State, before: seq<Step>, s: State, m: MemberId,
      runs: seq<GroupRun>, worlds: nat -> World, limit: nat, n: nat)
    returns (steps: seq<Step>, s': State)
    requires Follow(c, s0, before) == Some(s) && Ready(s, m, runs) && Apart(runs) && AllRan(runs, worlds, limit)
    requires n <= |runs|
    ensures Follow(c, s0, steps) == Some(s') && OnlyWorked(s, s')
    ensures FirstParts(s, s', m, runs, n, RanParts(s, m, runs))
    ensures TrackerOf(s', m) == DoneAll(TrackerOf(s, m), FinishedIn(runs[..n]))
    ensures s'.published == s.published + HandedIn(runs[..n], worlds, limit)
    ensures s'.acked == s.acked + AckedInBatch(runs[..n], worlds, limit, |s.published|)
  {
    hide Follow, Apart, KeyAt, FirstParts, RanParts, TrackerOf, DoneAll, FinishedIn, HandedIn, AckedInBatch;
    hide Chained, HandedByAll, AckedByAll, Passed, OnlyPart, Clip, FinishAll, OnlyWorked;
    StartsWorking(s, m, runs);
    if n == 0 {
      NoGroups(s, m, worlds, limit);
      assert runs[..0] == [];
      steps, s' := before, s;
    } else {
      var steps1, s1 := GroupsRun(c, s0, before, s, m, runs, worlds, limit, n - 1);
      var k, run := KeyAt(runs, n - 1), runs[n - 1];
      assert ReadyAt(s, m, k, run.recs);
      assert GroupRan(run, worlds(n - 1), limit);
      OtherPart(s, s1, m, runs, n - 1, RanParts(s, m, runs));
      steps, s' := AttemptsRun(c, s0, steps1, s1, m, k, worlds(n - 1), limit, run.attempts, run.done);
      InBoth(s1, s', m, k);
      OnePartOnly(s, s1, s', m, runs, n - 1);
      WorkedOn(s, s1, s', m, k);
      GroupTracker(s1, s', m, k, runs, n - 1);
      OneMoreGroup(runs, n - 1, worlds, limit, s.published, s.acked, TrackerOf(s, m));
    }
  }

  lemma {:induction false} StartsWorking(s: State, m: MemberId, runs: seq<GroupRun>)
    ensures OnlyWorked(s, s) && |RanParts(s, m, runs)| == |runs| && FirstParts(s, s, m, runs, 0, RanParts(s, m, runs))
  {
    NoParts(s, m, runs, RanParts(s, m, runs));
    hide FirstParts, KeyAt;
  }

  lemma {:induction false} GroupTracker(s: State, s': State, m: MemberId, k: PartitionKey, runs: seq<GroupRun>, n: nat)
    requires n < |runs| && Apart(runs) && k == KeyAt(runs, n) && OnlyPart(s, s', m, k)
    requires s.parts[(m, k)].left == runs[n].recs && runs[n].done <= |runs[n].recs|
    requires s'.parts[(m, k)] == Passed(s.parts[(m, k)], runs[n].done)
    ensures TrackerOf(s', m) == DoneAll(TrackerOf(s, m), Clip(runs[n].recs, runs[n].done))
  {
    assert OneKey(runs[n].recs, k);
    hide Apart, KeyAt, TrackerOf, DoneAll, FinishAll, OnlyPart;
    var recs := runs[n].recs[..runs[n].done];
    assert Clip(runs[n].recs, runs[n].done) == recs;
    TrackerAfter(s, s', m, k, recs);
  }

  /** What a batch leaves of the polled partitions: the records no run finished, and nothing in flight. */
  ghost predicate LeftOver(s: State, m: MemberId, runs: seq<GroupRun>)
  {
    forall g: nat :: g < |runs| ==> LeftAt(s, m, KeyAt(runs, g), runs[g])
  }

  ghost predicate LeftAt(s: State, m: MemberId, k: PartitionKey, run: GroupRun)
  {
    (m, k) in s.parts && s.parts[(m, k)].issued == [] && run.done <= |run.recs| &&
    s.parts[(m, k)].left == run.recs[run.done..]
  }

  lemma {:induction false} RanLeavesOver(s: State, s': State, m: MemberId, runs: seq<GroupRun>, worlds: nat -> World,
      limit: nat)
    requires Ready(s, m, runs) && AllRan(runs, worlds, limit)
    requires FirstParts(s, s', m, runs, |runs|, RanParts(s, m, runs))
    ensures LeftOver(s', m, runs)
  {
    forall g: nat | g < |runs| ensures LeftAt(s', m, KeyAt(runs, g), runs[g]) {
      assert PartIs(s', m, KeyAt(runs, g), RanParts(s, m, runs)[g]);
      assert ReadyAt(s, m, KeyAt(runs, g), runs[g].recs);
      RunInRange(runs[g], worlds(g), limit);
      hide Chained;
    }
  }

  /** A batch up to its end: the polls of its partitions, and then each one's passes. */
  lemma {:induction false} BatchRuns(c: Config, s0: State, before: seq<Step>, s: State, m: MemberId,
      records: seq<Record>, newPosition: PartitionKey -> nat, runs: seq<GroupRun>, worlds: nat -> World, limit: nat)
    returns (steps: seq<Step>, s': State)
    requires Follow(c, s0, before) == Some(s) && CanPoll(c, s, m, records, newPosition)
    requires RunsOf(runs, records) && AllRan(runs, worlds, limit)
    ensures Follow(c, s0, steps) == Some(s') && OnlyWorked(s, s') && LeftOver(s', m, runs)
    ensures TrackerOf(s', m) == DoneAll(TrackRecords(TrackerOf(s, m), records), FinishedIn(runs))
    ensures s'.published == s.published + HandedIn(runs, worlds, limit)
    ensures s'.acked == s.acked + AckedInBatch(runs, worlds, limit, |s.published|)
  {
    hide Follow, CanPoll, RunsOf, AllRan, Apart, FirstParts, Ready, LeftOver, RanParts, PolledParts, OnlyWorked;
    hide TrackerOf, DoneAll, TrackRecords, FinishedIn, HandedIn, AckedInBatch;
    RunsApart(runs, records);
    PartCounts(s, m, runs, newPosition);
    var steps1, s1 := PollsRun(c, s0, before, s, m, records, newPosition, runs, |runs|);
    PolledTracker(c, s, s1, m, records, newPosition, runs);
    PolledReady(s, s1, m, runs, newPosition);
    PartCounts(s1, m, runs, newPosition);
    steps, s' := GroupsRun(c, s0, steps1, s1, m, runs, worlds, limit, |runs|);
    RanLeavesOver(s1, s', m, runs, worlds, limit);
    assert runs[..|runs|] == runs;
    WorkedSince(s, s1, s');
  }

  lemma {:induction false} PartCounts(s: State, m: MemberId, runs: seq<GroupRun>, newPosition: PartitionKey -> nat)
    ensures |PolledParts(s, m, runs, newPosition)| == |runs| && |RanParts(s, m, runs)| == |runs|
  {
  }

  lemma {:induction false} WorkedSince(s: State, s1: State, s2: State)
    requires s1 == s.(parts := s1.parts) && OnlyWorked(s1, s2)
    ensures OnlyWorked(s, s2)
  {
  }

  /** Nothing is in flight and nothing is left of any partition the batch polled. */
  ghost predicate NothingInHand(s: State, m: MemberId, runs: seq<GroupRun>)
  {
    forall g: nat :: g < |runs| ==> (m, KeyAt(runs, g)) in s.parts && s.parts[(m, KeyAt(runs, g))].left == []
  }

  lemma {:induction false} FinishedLeavesNothing(s: State, m: MemberId, runs: seq<GroupRun>)
    requires LeftOver(s, m, runs) && AllFinished(runs)
    ensures NothingInHand(s, m, runs)
  {
    forall g: nat | g < |runs|
      ensures (m, KeyAt(runs, g)) in s.parts && s.parts[(m, KeyAt(runs, g))].left == []
    {
      assert LeftAt(s, m, KeyAt(runs, g), runs[g]);
    }
  }

  lemma {:induction false} AbandonedLeavesNothing(c: Config, s: State, m: MemberId, runs: seq<GroupRun>)
    requires LeftOver(s, m, runs)
    ensures NothingInHand(Apply(c, s, Abandon(m)), m, runs)
    ensures Apply(c, s, Abandon(m)).published == s.published && Apply(c, s, Abandon(m)).acked == s.acked
    ensures OnlyWorked(s, Apply(c, s, Abandon(m)))
  {
    forall g: nat | g < |runs|
      ensures var s' := Apply(c, s, Abandon(m));
              (m, KeyAt(runs, g)) in s'.parts && s'.parts[(m, KeyAt(runs, g))].left == []
    {
      assert LeftAt(s, m, KeyAt(runs, g), runs[g]);
    }
  }

  /**
   * processBatch is a run: the polls, each partition's passes, and the
   * abandonment if there is one.  It publishes exactly what the code hands to
   * the broker, which acknowledges exactly what the worlds say of it; every
   * rewound partition is positioned where the code said; and unless the
   * context is cancelled the next poll finds nothing in hand.
   */
  method ProcessBatchOnGroup(sink: Sink, records: seq<Record>, worlds: nat -> World, starts: nat -> int,
      deadline: int, retryPeriod: int, cancelled: bool, ghost newPosition: PartitionKey -> nat,
      ghost c: Config, ghost s0: State, ghost before: seq<Step>, ghost s: State, ghost m: MemberId)
    returns (runs: seq<GroupRun>, rewound: map<PartitionKey, EpochOffset>, ghost steps: seq<Step>, ghost s': State)
    requires retryPeriod > 0 && Follow(c, s0, before) == Some(s) && TrackerOf(s, m) == sink.offsets.p
    requires CanPoll(c, s, m, records, newPosition)
    modifies sink`handed, sink.offsets
    ensures Follow(c, s0, steps) == Some(s') && OnlyWorked(s, s') && TrackerOf(s', m) == sink.offsets.p
    ensures RunsOf(runs, records) && AllRan(runs, worlds, sink.maxInFlight)
    ensures AllEnded(runs, worlds, starts, deadline, retryPeriod, sink.maxInFlight)
    ensures old(sink.handed) <= sink.handed
    ensures s'.published == s.published + sink.handed[|old(sink.handed)|..]
    ensures s'.acked == s.acked + AckedInBatch(runs, worlds, sink.maxInFlight, |s.published|)
    ensures cancelled || AllFinished(runs) ==> LeftOver(s', m, runs)
    ensures !cancelled ==> NothingInHand(s', m, runs)
    ensures forall k :: k in rewound ==> (m, k) in s'.parts && s'.parts[(m, k)].position == rewound[k].offset
  {
    hide Follow, CanPoll, RunsOf, AllRan, AllEnded, LeftOver, NothingInHand, OnlyWorked, AllFinished;
    hide TrackerOf, DoneAll, TrackRecords, FinishedIn, HandedIn, AckedInBatch, PendingMap, Abandoned, Apply;
    runs, rewound := sink.ProcessBatch(records, worlds, starts, deadline, retryPeriod, cancelled);
    steps, s' := BatchRuns(c, s0, before, s, m, records, newPosition, runs, worlds, sink.maxInFlight);
    if !AllFinished(runs) && !cancelled {
      ghost var s1 := s';
      AbandonEnabled(c, s1, m);
      FollowStep(c, s0, steps, s1, Abandon(m));
      steps, s' := steps + [Abandon(m)], Apply(c, s1, Abandon(m));
      AbandonsAlike(c, s1, m);
      AbandonedParts(c, s1, m);
      AbandonedLeavesNothing(c, s1, m, runs);
      WorkedTwice(s, s1, s');
    } else if AllFinished(runs) {
      FinishedLeavesNothing(s', m, runs);
    }
  }

  lemma {:induction false} AbandonEnabled(c: Config, s: State, m: MemberId)
    ensures Enabled(c, s, Abandon(m))
  {
  }

  lemma {:induction false} WorkedTwice(s: State, s1: State, s2: State)
    requires OnlyWorked(s, s1) && OnlyWorked(s1, s2)
    ensures OnlyWorked(s, s2)
  {
  }

  function OffsetsOf(snap: map<PartitionKey, EpochOffset>, landed: set<PartitionKey>): map<PartitionKey, int>
  {
    map k | k in landed && k in snap :: snap[k].offset
  }

  /** What the broker accepting some partitions of a commit leaves. */
  ghost predicate Landed(s: State, s': State, m: MemberId, landed: set<PartitionKey>)
    requires m in s.flights && landed <= s.flights[m].snap.Keys
  {
    && s' == s.(committed := s'.committed,
                flights := s.flights[m := s.flights[m].(landed := s.flights[m].landed + landed)])
    && s'.committed == s.committed + OffsetsOf(s.flights[m].snap, landed)
  }

  lemma {:induction false} NothingLanded(s: State, m: MemberId)
    requires m in s.flights
    ensures Landed(s, s, m, {})
  {
    var f := s.flights[m];
    assert f.landed + {} == f.landed;
    assert s.flights[m := f] == s.flights;
    assert s.committed + OffsetsOf(f.snap, {}) == s.committed;
  }

  lemma {:induction false} OneMoreLanded(c: Config, s: State, s1: State, m: MemberId, landed: set<PartitionKey>,
      k: PartitionKey)
    requires m in s.flights && landed <= s.flights[m].snap.Keys && Landed(s, s1, m, landed)
    requires k in s.flights[m].snap && k in s.flights[m].open
    ensures Enabled(c, s1, LandCommit(m, k))
    ensures Landed(s, Apply(c, s1, LandCommit(m, k)), m, landed + {k})
  {
    var f := s.flights[m];
    AlsoLanded(s, m, f, landed, k);
    MoreOffsets(s.committed, f.snap, landed, k);
    hide OffsetsOf;
  }

  lemma {:induction false} AlsoLanded(s: State, m: MemberId, f: Flight, landed: set<PartitionKey>, k: PartitionKey)
    ensures f.landed + landed + {k} == f.landed + (landed + {k})
    ensures s.flights[m := f.(landed := f.landed + landed)][m := f.(landed := f.landed + (landed + {k}))] ==
            s.flights[m := f.(landed := f.landed + (landed + {k}))]
  {
  }

  lemma {:induction false} MoreOffsets(committed: map<PartitionKey, int>, snap: map<PartitionKey, EpochOffset>,
      landed: set<PartitionKey>, k: PartitionKey)
    requires k in snap
    ensures (committed + OffsetsOf(snap, landed))[k := snap[k].offset] == committed + OffsetsOf(snap, landed + {k})
  {
  }

  lemma {:induction false} Landings(c: Config, s0: State, before: seq<Step>, s: State, m: MemberId,
      landed: set<PartitionKey>)
    returns (steps: seq<Step>, s': State)
    requires Follow(c, s0, before) == Some(s) && m in s.flights
    requires landed <= s.flights[m].snap.Keys && landed <= s.flights[m].open
    ensures Follow(c, s0, steps) == Some(s') && Landed(s, s', m, landed)
  {
    hide Follow, Landed, Enabled, Apply;
    NothingLanded(s, m);
    if landed == {} {
      steps, s' := before, s;
    } else {
      var k := Element(landed);
      var steps1, s1 := Landings(c, s0, before, s, m, landed - {k});
      assert landed - {k} + {k} == landed;
      OneMoreLanded(c, s, s1, m, landed - {k}, k);
      FollowStep(c, s0, steps1, s1, LandCommit(m, k));
      steps, s' := steps1 + [LandCommit(m, k)], Apply(c, s1, LandCommit(m, k));
    }
  }

  /** The three parts of a commit, when the broker accepts the partitions named. */
  lemma {:induction false} CommitRuns(c: Config, s0: State, before: seq<Step>, s: State, m: MemberId,
      landed: set<PartitionKey>, reported: bool)
    returns (steps: seq<Step>, s': State)
    requires Follow(c, s0, before) == Some(s) && m !in s.flights
    requires landed <= Sending(s, m).Keys && forall k :: k in landed ==> k in s.owner && s.owner[k] == m
    requires reported ==> landed == Sending(s, m).Keys
    ensures Follow(c, s0, steps) == Some(s') && m !in s'.flights
    ensures s'.committed == s.committed + OffsetsOf(Sending(s, m), landed)
    ensures TrackerOf(s', m) == if reported then MarkAll(TrackerOf(s, m), Sending(s, m)) else TrackerOf(s, m)
  {
    hide Follow, Sending, TrackerOf, MarkAll;
    FollowStep(c, s0, before, s, BeginCommit(m));
    var s1 := Apply(c, s, BeginCommit(m));
    BeginsAlike(c, s, BeginCommit(m), m);
    var steps2, s2 := Landings(c, s0, before + [BeginCommit(m)], s1, m, landed);
    SameParts(s1, s2, m);
    EndsAlike(c, s2, EndCommit(m, reported));
    FollowStep(c, s0, steps2, s2, EndCommit(m, reported));
    steps, s' := steps2 + [EndCommit(m, reported)], Apply(c, s2, EndCommit(m, reported));
  }

  /** commit is a run: Commitable, what the broker accepts of it, and the mark if it accepted everything. */
  method CommitOnGroup(sink: Sink, flushed: bool, failed: bool, landed: set<PartitionKey>,
      ghost c: Config, ghost s0: State, ghost before: seq<Step>, ghost s: State, ghost m: MemberId)
    returns (sent: map<PartitionKey, EpochOffset>, ghost steps: seq<Step>, ghost s': State)
    requires Follow(c, s0, before) == Some(s) && TrackerOf(s, m) == sink.offsets.p && m !in s.flights
    requires landed <= Sending(s, m).Keys && forall k :: k in landed ==> k in s.owner && s.owner[k] == m
    requires (!flushed ==> landed == {}) && (flushed && !failed ==> landed == Sending(s, m).Keys)
    modifies sink.offsets
    ensures Follow(c, s0, steps) == Some(s') && TrackerOf(s', m) == sink.offsets.p && m !in s'.flights
    ensures landed <= sent.Keys && s'.committed == s.committed + OffsetsOf(sent, landed)
  {
    hide Follow, Sending, TrackerOf, MarkAll, CommitableMap;
    SendingIsCommitable(s, m);
    sent := sink.Commit(flushed, failed);
    steps, s' := CommitRuns(c, s0, before, s, m, landed, flushed && !failed);
    assert landed != {} ==> sent == Sending(s, m);
  }
}
