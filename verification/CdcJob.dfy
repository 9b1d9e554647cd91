/**
 * The code of the change-data-capture job (internal/cdc/job.go: Run, publish,
 * ascending; internal/cdc/cursor.go: Resume).
 *
 * Each method carries, as a ghost, the run of module Cdc it has performed so
 * far: whatever the environment does to a call, the code's effect on the topic
 * is one of the machine's, so what is proved of every run holds of the code.
 */
module CdcJob {
  import opened Extremes
  import opened Cdc
  import opened Options

  /******* Runs of the machine, step by step *******/

  /** The state a run from s0 ends in, if each of its steps is enabled. */
  ghost function Follow(limit: nat, s0: State, steps: seq<Step>): Option<State>
  {
    if steps == [] then Some(s0)
    else
      match Follow(limit, s0, steps[..|steps| - 1])
      case None => None
      case Some(s) =>
        var step := steps[|steps| - 1];
        if Enabled(limit, s, step) then Some(Apply(limit, s, step)) else None
  }

  lemma {:induction false} FollowStep(limit: nat, s0: State, steps: seq<Step>, s: State, step: Step)
    requires Follow(limit, s0, steps) == Some(s) && Enabled(limit, s, step)
    ensures Follow(limit, s0, steps + [step]) == Some(Apply(limit, s, step))
  {
  }

  /** A run that starts safe ends safe. */
  lemma {:induction false} FollowIsSafe(limit: nat, s0: State, steps: seq<Step>)
    requires Safe(s0) && Follow(limit, s0, steps).Some?
    ensures Safe(Follow(limit, s0, steps).value)
  {
    if steps != [] {
      var front := steps[..|steps| - 1];
      FollowIsSafe(limit, s0, front);
      SafeKeeps(limit, Follow(limit, s0, front).value, steps[|steps| - 1]);
    }
  }

  /******* Producing *******/

  /** What becomes of a produce call: which records land, where, in which order, and whether all acks arrive. */
  datatype Delivery = Delivery(landings: seq<(nat, nat)>, acked: bool)

  /** Every one of n records lands and every acknowledgement arrives. */
  predicate Delivers(d: Delivery, n: nat)
  {
    d.acked && forall i: nat :: i < n ==> Lands(d.landings, i)
  }

  predicate Lands(landings: seq<(nat, nat)>, i: nat)
  {
    exists j :: 0 <= j < |landings| && landings[j].0 == i
  }

  /** The records that have not landed. */
  ghost function Remaining(msgs: seq<Message>, landed: set<nat>): multiset<Message>
  {
    if msgs == [] then multiset{}
    else
      var n := |msgs| - 1;
      Remaining(msgs[..n], landed) + (if n in landed then multiset{} else multiset{msgs[n]})
  }

  lemma {:induction false} TakeOut(a: multiset<Message>, b: multiset<Message>, m: Message)
    requires m in a
    ensures (a - multiset{m}) + b == (a + b) - multiset{m}
  {
  }

  lemma {:induction false} RemainingSame(msgs: seq<Message>, landed: set<nat>, i: nat)
    requires i >= |msgs|
    ensures Remaining(msgs, landed + {i}) == Remaining(msgs, landed)
  {
    if msgs != [] { RemainingSame(msgs[..|msgs| - 1], landed, i); }
  }

  lemma {:induction false} RemainingLess(msgs: seq<Message>, landed: set<nat>, i: nat)
    requires i !in landed && i < |msgs|
    ensures msgs[i] in Remaining(msgs, landed)
    ensures Remaining(msgs, landed + {i}) == Remaining(msgs, landed) - multiset{msgs[i]}
  {
    var n := |msgs| - 1;
    var front := msgs[..n];
    if i == n {
      RemainingSame(front, landed, n);
      PutBack(Remaining(front, landed), msgs[n]);
    } else {
      RemainingLess(front, landed, i);
      assert front[i] == msgs[i];
      TakeOut(Remaining(front, landed), if n in landed then multiset{} else multiset{msgs[n]}, msgs[i]);
    }
  }

  lemma {:induction false} PutBack(a: multiset<Message>, m: Message)
    ensures a + multiset{m} - multiset{m} == a + multiset{}
  {
  }

  lemma {:induction false} RemainingAll(msgs: seq<Message>)
    ensures Remaining(msgs, {}) == multiset(msgs)
  {
    if msgs != [] {
      RemainingAll(msgs[..|msgs| - 1]);
      assert msgs == msgs[..|msgs| - 1] + [msgs[|msgs| - 1]];
    }
  }

  lemma {:induction false} RemainingNone(msgs: seq<Message>, landed: set<nat>)
    requires forall i: nat :: i < |msgs| ==> i in landed
    ensures Remaining(msgs, landed) == multiset{}
  {
    if msgs != [] { RemainingNone(msgs[..|msgs| - 1], landed); }
  }

  lemma {:induction false} NothingLands(landings: seq<(nat, nat)>)
    ensures landings[..|landings|] == landings && forall i: nat :: !Lands(landings[..0], i)
  {
  }

  lemma {:induction false} LandsNext(landings: seq<(nat, nat)>, j: nat)
    requires j < |landings|
    ensures forall i: nat :: Lands(landings[..j + 1], i) <==> Lands(landings[..j], i) || landings[j].0 == i
  {
  }

  function Indices(n: nat): (s: set<nat>)
    ensures |s| == n && forall i: nat :: i in s <==> i < n
  {
    if n == 0 then {} else Indices(n - 1) + {n - 1}
  }

  lemma {:induction false} IndicesSize(n: nat, s: set<nat>)
    requires forall i :: i in s ==> i < n
    ensures |s| <= n
    ensures |s| == n <==> forall i: nat :: i < n ==> i in s
  {
    var all := Indices(n);
    assert all == s + (all - s);
    assert |all| == |s| + |all - s|;
    if forall i: nat :: i < n ==> i in s { assert s == all; }
  }

  /** The same state but for what landing records changes. */
  ghost predicate LandingOnly(s: State, s': State)
  {
    && s' == s.(topic := s'.topic, published := s'.published, call := s'.call)
    && s.published <= s'.published
  }

  class Output {
    var topic: Topic

    /** ProduceSync: succeeds only if every record has landed and been acknowledged. */
    method Produce(msgs: seq<Message>, d: Delivery, ghost limit: nat, ghost s0: State, ghost before: seq<Step>,
        ghost s: State)
      returns (ok: bool, ghost steps: seq<Step>, ghost s': State)
      requires Follow(limit, s0, before) == Some(s) && s.topic == topic && s.call == multiset(msgs)
      modifies this
      ensures Follow(limit, s0, steps) == Some(s') && LandingOnly(s, s') && s'.topic == topic
      ensures ok <==> Delivers(d, |msgs|)
      ensures ok ==> s'.call == multiset{}
    {
      hide Lands, Follow, Remaining;
      var landed: set<nat> := {};
      steps, s' := before, s;
      NothingLands(d.landings);
      RemainingAll(msgs);
      for j := 0 to |d.landings|
        invariant forall i: nat :: i in landed <==> i < |msgs| && Lands(d.landings[..j], i)
        invariant Follow(limit, s0, steps) == Some(s') && LandingOnly(s, s') && s'.topic == topic
        invariant s'.call == Remaining(msgs, landed)
      {
        var (i, p) := d.landings[j];
        LandsNext(d.landings, j);
        if i < |msgs| && i !in landed {
          topic := Append(topic, p, msgs[i]);
          RemainingLess(msgs, landed, i);
          FollowStep(limit, s0, steps, s', Land(msgs[i], p));
          steps, s' := steps + [Land(msgs[i], p)], Apply(limit, s', Land(msgs[i], p));
          landed := landed + {i};
        }
      }
      IndicesSize(|msgs|, landed);
      ok := d.acked && |landed| == |msgs|;
      if ok { RemainingNone(msgs, landed); }
    }
  }

  /******* The source *******/

  /** The timestamp of an event that comes `gap` later than it could. */
  function NextEvent(log: seq<nat>, gap: nat): nat { (if log == [] then 0 else log[|log| - 1]) + 1 + gap }

  /** The source once new events have come, one after the other. */
  function Grown(log: seq<nat>, gaps: seq<nat>): seq<nat>
  {
    if gaps == [] then log
    else
      var front := Grown(log, gaps[..|gaps| - 1]);
      front + [NextEvent(front, gaps[|gaps| - 1])]
  }

  /** TigerBeetle's events in timestamp order. */
  class Source {
    var log: seq<nat>

    ghost predicate Valid()
      reads this
    {
      StrictlyAscending(log) && forall e :: e in log ==> e > 0
    }

    /** New events come after every event there is. */
    method Append(gap: nat)
      requires Valid()
      modifies this
      ensures Valid() && log == old(log) + [NextEvent(old(log), gap)]
      ensures forall e :: e in old(log) ==> e < log[|log| - 1]
    {
      var last := if log == [] then 0 else log[|log| - 1];
      log := log + [last + 1 + gap];
    }

    /** At most n of the events from min on, in order. */
    method GetChangeEvents(min: nat, n: nat) returns (events: seq<nat>)
      requires Valid()
      ensures |events| <= n
      ensures events != [] && min > 0 ==> IsWindow(AsSet(log), min - 1, events)
      ensures |events| < n ==> forall e :: e in log && e >= min ==> e in events
    {
      var from := 0;
      while from < |log| && log[from] < min
        invariant from <= |log|
        invariant forall i :: 0 <= i < from ==> log[i] < min
      {
        from := from + 1;
      }
      var to := if from + n < |log| then from + n else |log|;
      events := log[from..to];
      if events != [] && min > 0 { SliceIsWindow(log, min, from, to); }
      if |events| < n {
        assert to == |log|;
        forall e | e in log && e >= min ensures e in events {
          var i :| 0 <= i < |log| && log[i] == e;
          assert events[i - from] == e;
        }
      }
    }
  }

  lemma {:induction false} SliceIsWindow(log: seq<nat>, min: nat, from: nat, to: nat)
    requires StrictlyAscending(log) && min > 0 && from < to <= |log|
    requires (forall i :: 0 <= i < from ==> log[i] < min) && log[from] >= min
    ensures IsWindow(AsSet(log), min - 1, log[from..to])
  {
  }

  /** A window is determined by the source, the cursor and its length. */
  lemma {:induction false} WindowUnique(source: set<nat>, c: nat, a: seq<nat>, b: seq<nat>)
    requires IsWindow(source, c, a) && IsWindow(source, c, b) && |a| == |b|
    ensures a == b
  {
    if Last(a) <= Last(b) { WindowInside(source, c, a, b); } else { WindowInside(source, c, b, a); }
  }

  lemma {:induction false} WindowInside(source: set<nat>, c: nat, a: seq<nat>, b: seq<nat>)
    requires IsWindow(source, c, a) && IsWindow(source, c, b) && |a| == |b| && Last(a) <= Last(b)
    ensures a == b
  {
    forall i | 0 <= i < |a| ensures a[i] in b { assert a[i] <= Last(a); }
    EmbeddedAscending(a, b);
  }

  /** Two strictly ascending sequences of one length, one inside the other, are the same. */
  lemma {:induction false} EmbeddedAscending(a: seq<nat>, b: seq<nat>)
    requires StrictlyAscending(a) && StrictlyAscending(b) && |a| == |b|
    requires forall i :: 0 <= i < |a| ==> a[i] in b
    ensures a == b
  {
    hide StrictlyAscending;
    if a != [] {
      var n := |a| - 1;
      AscendingFront(a);
      AscendingFront(b);
      FrontInside(a, b, n);
      EmbeddedAscending(a[..n], b[..n]);
      LastSame(a, b, n);
    }
  }

  lemma {:induction false} AscendingFront(a: seq<nat>)
    requires StrictlyAscending(a) && a != []
    ensures StrictlyAscending(a[..|a| - 1])
  {
  }

  lemma {:induction false} FrontInside(a: seq<nat>, b: seq<nat>, n: nat)
    requires StrictlyAscending(a) && StrictlyAscending(b) && |a| == |b| == n + 1
    requires forall i :: 0 <= i < |a| ==> a[i] in b
    ensures forall i :: 0 <= i < n ==> a[..n][i] in b[..n]
  {
    forall i | 0 <= i < n ensures a[..n][i] in b[..n] {
      assert a[n] in b && a[i] in b;
      var k :| 0 <= k < |b| && b[k] == a[n];
      var j :| 0 <= j < |b| && b[j] == a[i];
      assert b[..n][j] == a[i];
    }
  }

  lemma {:induction false} LastSame(a: seq<nat>, b: seq<nat>, n: nat)
    requires StrictlyAscending(a) && |a| == |b| == n + 1 && a[..n] == b[..n] && a[n] in b
    ensures a == b
  {
    var k :| 0 <= k < |b| && b[k] == a[n];
    forall i | 0 <= i < n ensures a[i] == b[i] { assert a[..n][i] == b[..n][i]; }
    assert a == a[..n] + [a[n]] && b == b[..n] + [b[n]];
  }

  /** ascending: the first place where the order breaks, if there is one. */
  method Ascending(events: seq<nat>) returns (violation: Option<nat>)
    ensures violation.None? <==> StrictlyAscending(events)
    ensures violation.Some? ==>
              && 0 < violation.value < |events| && events[violation.value] <= events[violation.value - 1]
              && StrictlyAscending(events[..violation.value])
  {
    if events == [] { return None; }
    for i := 1 to |events|
      invariant StrictlyAscending(events[..i])
    {
      if events[i] <= events[i - 1] { return Some(i); }
      assert events[..i + 1] == events[..i] + [events[i]];
      assert events[..i][i - 1] == events[i - 1];
    }
    assert events[..|events|] == events;
    return None;
  }

  /******* The job *******/

  /** The environment of one publication: both produce calls, and records that cannot be encoded. */
  datatype Weather = Weather(first: Delivery, closing: Delivery, encodes: nat -> bool, lateLandings: bool)

  /** Both steps of a window go through. */
  ghost predicate Succeeds(w: Weather, events: seq<nat>)
    requires events != []
  {
    && (forall i :: 0 <= i < |events| - 1 ==> w.encodes(events[i]))
    && (|events| > 1 ==> Delivers(w.first, |events| - 1))
    && ClosingSucceeds(w, Last(events))
  }

  ghost predicate ClosingSucceeds(w: Weather, last: nat)
  {
    w.encodes(last) && Delivers(w.closing, 1)
  }

  lemma {:induction false} NoFirstRecords(events: seq<nat>, checkpoint: nat)
    ensures FirstRecords(events[..0], checkpoint) == multiset{}
  {
  }

  lemma {:induction false} OneMoreRecord(events: seq<nat>, i: nat, checkpoint: nat)
    requires i < |events|
    ensures FirstRecords(events[..i + 1], checkpoint) ==
            FirstRecords(events[..i], checkpoint) + multiset{Claim(events[i], checkpoint)}
  {
    assert events[..i + 1][..i] == events[..i];
  }

  /** The records of the first step; none if one of them cannot be encoded. */
  method EncodeRest(events: seq<nat>, checkpoint: nat, w: Weather) returns (rest: Option<seq<Message>>)
    requires events != []
    ensures rest.Some? <==> forall i :: 0 <= i < |events| - 1 ==> w.encodes(events[i])
    ensures rest.Some? ==>
              multiset(rest.value) == FirstRecords(Front(events), checkpoint) && |rest.value| == |events| - 1
  {
    hide FirstRecords;
    var closing := |events| - 1;
    var records: seq<Message> := [];
    NoFirstRecords(events, checkpoint);
    for i := 0 to closing
      invariant multiset(records) == FirstRecords(events[..i], checkpoint) && |records| == i
      invariant forall j :: 0 <= j < i ==> w.encodes(events[j])
    {
      if !w.encodes(events[i]) { return None; }
      records := records + [Claim(events[i], checkpoint)];
      OneMoreRecord(events, i, checkpoint);
    }
    assert events[..closing] == Front(events);
    return Some(records);
  }

  /** publish: both steps of a window; on success the closing record's claim is the new cursor. */
  method Publish(out: Output, events: seq<nat>, checkpoint: nat, w: Weather,
      ghost limit: nat, ghost s0: State, ghost before: seq<Step>, ghost s: State)
    returns (published: Option<nat>, ghost steps: seq<Step>, ghost s': State)
    requires events != []
    requires Follow(limit, s0, before) == Some(s) && s.topic == out.topic
    requires s.job == First(checkpoint, events) && s.call == FirstRecords(Front(events), checkpoint)
    modifies out
    ensures Follow(limit, s0, steps) == Some(s') && s'.topic == out.topic && s'.call == multiset{}
    ensures s'.source == s.source && s'.returned == s.returned
    ensures published == if Succeeds(w, events) then Some(Last(events)) else None
    ensures s'.job == Idle(if published.Some? then Last(events) else checkpoint)
  {
    hide Delivers, ClosingSucceeds, FirstRecords;
    steps, s' := before, s;
    var rest := EncodeRest(events, checkpoint, w);
    if rest.None? {
      steps, s' := GiveUp(limit, s0, steps, s', w.lateLandings);
      return None, steps, s';
    }
    if |rest.value| > 0 {
      var ok;
      ok, steps, s' := out.Produce(rest.value, w.first, limit, s0, steps, s');
      if !ok {
        steps, s' := GiveUp(limit, s0, steps, s', w.lateLandings);
        return None, steps, s';
      }
    }
    assert s'.call == multiset{};
    published, steps, s' := PublishClosing(out, events, checkpoint, w, limit, s0, steps, s');
  }

  /** The second step: the closing record, once everything else is acknowledged. */
  method PublishClosing(out: Output, events: seq<nat>, checkpoint: nat, w: Weather,
      ghost limit: nat, ghost s0: State, ghost before: seq<Step>, ghost s: State)
    returns (published: Option<nat>, ghost steps: seq<Step>, ghost s': State)
    requires events != []
    requires Follow(limit, s0, before) == Some(s) && s.topic == out.topic
    requires s.job == First(checkpoint, events) && s.call == multiset{}
    modifies out
    ensures Follow(limit, s0, steps) == Some(s') && s'.topic == out.topic && s'.call == multiset{}
    ensures s'.source == s.source && s'.returned == s.returned
    ensures published == if ClosingSucceeds(w, Last(events)) then Some(Last(events)) else None
    ensures s'.job == Idle(if published.Some? then Last(events) else checkpoint)
  {
    hide Delivers;
    FollowStep(limit, s0, before, s, FirstAcked);
    steps, s' := before + [FirstAcked], Apply(limit, s, FirstAcked);
    var last := events[|events| - 1];
    if !w.encodes(last) {
      steps, s' := GiveUp(limit, s0, steps, s', w.lateLandings);
      return None, steps, s';
    }
    var done;
    done, steps, s' := out.Produce([Claim(last, last)], w.closing, limit, s0, steps, s');
    if !done {
      steps, s' := GiveUp(limit, s0, steps, s', w.lateLandings);
      return None, steps, s';
    }
    FollowStep(limit, s0, steps, s', ClosingAcked);
    steps, s' := steps + [ClosingAcked], Apply(limit, s', ClosingAcked);
    return Some(last), steps, s';
  }

  /** A failed publication: the window is abandoned and the cursor stays. */
  lemma {:induction false} GiveUp(limit: nat, s0: State, before: seq<Step>, s: State, keep: bool)
      returns (steps: seq<Step>, s': State)
    requires Follow(limit, s0, before) == Some(s) && (s.job.First? || s.job.Closing?)
    ensures Follow(limit, s0, steps) == Some(s')
    ensures s'.topic == s.topic && s'.call == multiset{} && s'.source == s.source && s'.returned == s.returned
    ensures s'.job == Idle(s.job.cursor)
  {
    FollowStep(limit, s0, before, s, Fail(keep));
    steps, s' := before + [Fail(keep)], Apply(limit, s, Fail(keep));
  }

  /**
   * One turn of the loop: the source may have grown, the query may fail, be
   * answered with fewer events than asked for, or out of order.
   */
  datatype Turn = Turn(
    cancelled: bool, gaps: seq<nat>, queryFails: bool, answered: nat, disorder: Option<seq<nat>>, weather: Weather)

  ghost predicate InStep(s: State, src: Source, out: Output, checkpoint: nat)
    reads src, out
  {
    && src.Valid() && s.source == AsSet(src.log) && s.topic == out.topic && s.call == multiset{}
    && s.job == Idle(checkpoint) && (s.returned == 0 || s.returned in s.source)
  }

  method GrowSource(src: Source, out: Output, checkpoint: nat, gaps: seq<nat>,
      ghost limit: nat, ghost s0: State, ghost before: seq<Step>, ghost s: State)
    returns (ghost steps: seq<Step>, ghost s': State)
    requires Follow(limit, s0, before) == Some(s) && InStep(s, src, out, checkpoint)
    modifies src
    ensures Follow(limit, s0, steps) == Some(s') && InStep(s', src, out, checkpoint)
    ensures src.log == Grown(old(src.log), gaps)
  {
    hide Follow, StrictlyAscending;
    steps, s' := before, s;
    for i := 0 to |gaps|
      invariant Follow(limit, s0, steps) == Some(s') && InStep(s', src, out, checkpoint)
      invariant src.log == Grown(old(src.log), gaps[..i])
    {
      ghost var was := src.log;
      src.Append(gaps[i]);
      ghost var ts := NextEvent(was, gaps[i]);
      assert src.log[|src.log| - 1] == ts && ts in src.log;
      assert gaps[..i + 1][..i] == gaps[..i];
      SourceGrows(limit, s', was, ts);
      FollowStep(limit, s0, steps, s', Grow(ts));
      steps, s' := steps + [Grow(ts)], Apply(limit, s', Grow(ts));
    }
    assert gaps[..|gaps|] == gaps;
  }

  /** A new event above every other is one the machine's source may grow by. */
  lemma {:induction false} SourceGrows(limit: nat, s: State, was: seq<nat>, ts: nat)
    requires s.source == AsSet(was) && (s.returned == 0 || s.returned in s.source)
    requires ts > 0 && forall e :: e in was ==> e < ts
    ensures Enabled(limit, s, Grow(ts))
    ensures Apply(limit, s, Grow(ts)) == s.(source := AsSet(was + [ts]))
  {
    assert AsSet(was + [ts]) == AsSet(was) + {ts};
  }

  /** The answer the source owes: as many of the events after the cursor as were asked for, in order. */
  ghost predicate IsAnswer(log: seq<nat>, checkpoint: nat, n: nat, events: seq<nat>)
  {
    && |events| <= n
    && (events != [] ==> IsWindow(AsSet(log), checkpoint, events))
    && (|events| < n ==> forall e :: e in log && e > checkpoint ==> e in events)
  }

  /** The turn gets as far as an answer with events in it, and they are out of order. */
  predicate OutOfOrder(t: Turn, events: seq<nat>)
  {
    !t.queryFails && events != [] && t.disorder.Some? && !StrictlyAscending(t.disorder.value)
  }

  /** One turn as it went: the source then, the cursor before and after, and the answer. */
  datatype Taken = Taken(log: seq<nat>, from: nat, events: seq<nat>, next: nat)

  function Asked(t: Turn, batchSize: nat): nat { if t.answered < batchSize then t.answered else batchSize }

  /** What a turn is owed, and where it leaves the cursor. */
  ghost predicate TookTurn(t: Turn, batchSize: nat, k: Taken)
  {
    && IsAnswer(k.log, k.from, Asked(t, batchSize), k.events)
    && k.next == if !t.queryFails && k.events != [] && !OutOfOrder(t, k.events) && Succeeds(t.weather, k.events)
                 then Last(k.events) else k.from
  }

  function CursorAfter(start: nat, trail: seq<Taken>): nat
  {
    if trail == [] then start else trail[|trail| - 1].next
  }

  function LogAfter(log: seq<nat>, trail: seq<Taken>): seq<nat>
  {
    if trail == [] then log else trail[|trail| - 1].log
  }

  /** Turn i was reached, began where the one before it ended, and went as its environment had it. */
  ghost predicate TurnTaken(log: seq<nat>, start: nat, turns: seq<Turn>, batchSize: nat, trail: seq<Taken>, i: nat)
    requires i < |trail| <= |turns|
  {
    && !turns[i].cancelled && TookTurn(turns[i], batchSize, trail[i])
    && trail[i].from == CursorAfter(start, trail[..i])
    && trail[i].log == Grown(LogAfter(log, trail[..i]), turns[i].gaps)
  }

  /** The turns of a run, one after the other. */
  ghost predicate IsTrail(log: seq<nat>, start: nat, turns: seq<Turn>, batchSize: nat, trail: seq<Taken>)
  {
    |trail| <= |turns| && forall i: nat :: i < |trail| ==> TurnTaken(log, start, turns, batchSize, trail, i)
  }

  /** No turn of the trail was answered out of order. */
  ghost predicate InOrder(turns: seq<Turn>, trail: seq<Taken>)
    requires |trail| <= |turns|
  {
    forall i :: 0 <= i < |trail| ==> !OutOfOrder(turns[i], trail[i].events)
  }

  lemma {:induction false} TrailGrows(log: seq<nat>, start: nat, turns: seq<Turn>, batchSize: nat, trail: seq<Taken>,
      k: Taken)
    requires IsTrail(log, start, turns, batchSize, trail) && |trail| < |turns|
    requires !turns[|trail|].cancelled && TookTurn(turns[|trail|], batchSize, k)
    requires k.from == CursorAfter(start, trail) && k.log == Grown(LogAfter(log, trail), turns[|trail|].gaps)
    ensures IsTrail(log, start, turns, batchSize, trail + [k])
    ensures CursorAfter(start, trail + [k]) == k.next && LogAfter(log, trail + [k]) == k.log
  {
    hide TookTurn, Grown;
    var longer := trail + [k];
    forall i: nat | i < |longer| ensures TurnTaken(log, start, turns, batchSize, longer, i) {
      assert i < |trail| ==> longer[..i] == trail[..i] && TurnTaken(log, start, turns, batchSize, trail, i);
      assert i == |trail| ==> longer[..i] == trail;
    }
  }

  lemma {:induction false} OrderGrows(turns: seq<Turn>, trail: seq<Taken>, k: Taken)
    requires |trail| < |turns| && InOrder(turns, trail)
    ensures InOrder(turns, trail + [k]) <==> !OutOfOrder(turns[|trail|], k.events)
  {
    hide OutOfOrder;
    assert (trail + [k])[|trail|] == k;
  }

  /**
   * However many turns were idle or failed before it: a turn that asks, is
   * answered in order and delivers moves the cursor past the first event after
   * it, and past every event if it asks for all of them.
   */
  lemma {:induction false} GoodTurnAdvances(t: Turn, batchSize: nat, k: Taken, e: nat)
    requires TookTurn(t, batchSize, k) && e in k.log && e > k.from && Asked(t, batchSize) > 0
    requires !t.queryFails && !OutOfOrder(t, k.events) && (k.events != [] ==> Succeeds(t.weather, k.events))
    ensures k.next > k.from && k.next in k.log && k.next == Last(k.events)
    ensures |k.events| < Asked(t, batchSize) ==> e <= k.next
  {
    hide Succeeds, OutOfOrder;
    assert k.events != [];
    if |k.events| < Asked(t, batchSize) { assert e in k.events; }
  }

  /**
   * One turn of the loop.  The cursor moves to the answer's last event exactly
   * when the query answers, in order, and both steps of the window go through;
   * nothing else moves it.
   */
  method RunTurn(src: Source, out: Output, checkpoint: nat, batchSize: nat, t: Turn,
      ghost s0: State, ghost before: seq<Step>, ghost s: State)
    returns (next: nat, refused: bool, ghost events: seq<nat>, ghost steps: seq<Step>, ghost s': State)
    requires batchSize > 0 && Follow(batchSize, s0, before) == Some(s) && InStep(s, src, out, checkpoint)
    modifies src, out
    ensures Follow(batchSize, s0, steps) == Some(s') && InStep(s', src, out, next)
    ensures src.log == Grown(old(src.log), t.gaps)
    ensures TookTurn(t, batchSize, Taken(src.log, checkpoint, events, next))
    ensures refused <==> OutOfOrder(t, events)
  {
    hide Succeeds, Follow, FirstRecords, Grown;
    next, refused := checkpoint, false;
    steps, s' := GrowSource(src, out, checkpoint, t.gaps, batchSize, s0, before, s);
    var answer := src.GetChangeEvents(checkpoint + 1, Asked(t, batchSize));
    events := answer;
    if t.queryFails || answer == [] { return; }
    if t.disorder.Some? {
      // an answer out of order stops the job before anything is published
      var broken := Ascending(t.disorder.value);
      if broken.Some? { refused := true; return; }
    }
    var violation := Ascending(answer);
    assert violation.None?;
    assert IsPrefixOfLength(s'.source, checkpoint, answer, |answer|);
    FollowStep(batchSize, s0, steps, s', Query(|answer|));
    ghost var q := Apply(batchSize, s', Query(|answer|));
    WindowUnique(s'.source, checkpoint, answer, q.job.events);
    var published;
    published, steps, s' := Publish(out, answer, checkpoint, t.weather, batchSize, s0, steps + [Query(|answer|)], q);
    if published.Some? { next := published.value; }
  }

  /**
   * Run: from wherever it starts, whatever the environment does, what the loop
   * does is a run of the machine, its cursor never moves back, and every event
   * up to the cursor has been published.  Only a cancellation or an answer out
   * of order ends it: every other turn, idle, failed or delivered, is followed
   * by the next one from where it left the cursor.
   */
  method Run(src: Source, out: Output, start: nat, batchSize: nat, turns: seq<Turn>, ghost s0: State)
    returns (checkpoint: nat, refused: bool, ghost trail: seq<Taken>, ghost steps: seq<Step>, ghost s': State)
    requires batchSize > 0 && InStep(s0, src, out, start)
    modifies src, out
    ensures Follow(batchSize, s0, steps) == Some(s') && InStep(s', src, out, checkpoint)
    ensures Safe(s0) ==> CompleteTo(s', checkpoint)
    ensures start <= checkpoint
    ensures IsTrail(old(src.log), start, turns, batchSize, trail)
    ensures checkpoint == CursorAfter(start, trail) && src.log == LogAfter(old(src.log), trail)
    ensures trail != [] ==> InOrder(turns, trail[..|trail| - 1])
    ensures refused <==> !InOrder(turns, trail)
    ensures refused || |trail| == |turns| || turns[|trail|].cancelled
  {
    hide TookTurn, IsTrail, Follow, InOrder, OutOfOrder;
    checkpoint, refused := start, false;
    steps, s', trail := [], s0, [];
    NoTurns(s0, old(src.log), start, turns, batchSize);
    for i := 0 to |turns|
      invariant Follow(batchSize, s0, steps) == Some(s') && InStep(s', src, out, checkpoint)
      invariant start <= checkpoint && !refused && |trail| == i
      invariant IsTrail(old(src.log), start, turns, batchSize, trail) && InOrder(turns, trail)
      invariant checkpoint == CursorAfter(start, trail) && src.log == LogAfter(old(src.log), trail)
    {
      if turns[i].cancelled { break; }
      ghost var events, from := [], checkpoint;
      checkpoint, refused, events, steps, s' := RunTurn(src, out, checkpoint, batchSize, turns[i], s0, steps, s');
      ghost var k := Taken(src.log, from, events, checkpoint);
      NeverBack(turns[i], batchSize, k);
      TrailGrows(old(src.log), start, turns, batchSize, trail, k);
      OrderGrows(turns, trail, k);
      assert (trail + [k])[..i] == trail;
      trail := trail + [k];
      if refused { break; }
    }
    if trail != [] { OrderShrinks(turns, trail); }
    if Safe(s0) { FollowIsSafe(batchSize, s0, steps); }
  }

  lemma {:induction false} NoTurns(s0: State, log: seq<nat>, start: nat, turns: seq<Turn>, batchSize: nat)
    ensures Follow(batchSize, s0, []) == Some(s0) && IsTrail(log, start, turns, batchSize, []) && InOrder(turns, [])
  {
  }

  lemma {:induction false} NeverBack(t: Turn, batchSize: nat, k: Taken)
    requires TookTurn(t, batchSize, k)
    ensures k.from <= k.next
  {
    hide Succeeds, OutOfOrder;
  }

  lemma {:induction false} OrderShrinks(turns: seq<Turn>, trail: seq<Taken>)
    requires trail != [] && |trail| <= |turns|
    ensures InOrder(turns, trail) ==> InOrder(turns, trail[..|trail| - 1])
  {
    hide OutOfOrder;
  }

  /******* Recovering the cursor *******/

  /** The first record of partition p in a stream of fetched records. */
  function FirstOf(stream: seq<(nat, Message)>, p: nat): Option<Message>
  {
    if stream == [] then None
    else if stream[0].0 == p then Some(stream[0].1)
    else FirstOf(stream[1..], p)
  }

  /** The fetch starts at each partition's last record. */
  ghost predicate StartsAtTails(t: Topic, stream: seq<(nat, Message)>)
  {
    forall p :: p in t && t[p] != [] && FirstOf(stream, p).Some? ==> FirstOf(stream, p).value == t[p][|t[p]| - 1]
  }

  lemma {:induction false} FirstOfTail(stream: seq<(nat, Message)>, i: nat, p: nat)
    requires i <= |stream| && forall j :: 0 <= j < i ==> stream[j].0 != p
    ensures FirstOf(stream, p) == FirstOf(stream[i..], p)
  {
    if i > 0 {
      FirstOfTail(stream[1..], i - 1, p);
      assert stream[1..][i - 1..] == stream[i..];
    } else {
      assert stream[0..] == stream;
    }
  }

  /**
   * The scan of Resume: the highest checkpoint among the partitions' last
   * records, whatever order the fetches deliver them in; later records of a
   * partition already accounted for are ignored, unreadable ones skipped.
   * No answer when the fetches end before every partition was heard from.
   */
  method ScanTails(topic: Topic, stream: seq<(nat, Message)>) returns (cursor: Option<nat>)
    requires StartsAtTails(topic, stream)
    ensures cursor.Some? ==> cursor.value == Resume(topic)
    ensures cursor.None? <==> exists p :: p in topic && topic[p] != [] && FirstOf(stream, p).None?
  {
    var tails := set p | p in topic && topic[p] != [];
    var checkpoint: nat := 0;
    var i := 0;
    while tails != {} && i < |stream|
      invariant i <= |stream| && tails <= set p | p in topic && topic[p] != []
      invariant forall p :: p in tails ==> forall j :: 0 <= j < i ==> stream[j].0 != p
      invariant forall p :: p in topic && topic[p] != [] && p !in tails ==> FirstOf(stream, p).Some?
      invariant forall p :: p in topic && topic[p] != [] && p !in tails && topic[p][|topic[p]| - 1].Claim? ==>
                  topic[p][|topic[p]| - 1].checkpoint <= checkpoint
      invariant checkpoint as int in TailClaims(topic)
    {
      var (p, m) := stream[i];
      if p in tails {
        FirstOfTail(stream, i, p);
        assert m == topic[p][|topic[p]| - 1];
        tails := tails - {p};
        if m.Claim? && m.checkpoint > checkpoint { checkpoint := m.checkpoint; }
      }
      i := i + 1;
    }
    if tails != {} {
      var p := Element(tails);
      forall p | p in tails ensures FirstOf(stream, p).None? {
        FirstOfTail(stream, |stream|, p);
        assert stream[|stream|..] == [];
      }
      return None;
    }
    assert IsGreatest(checkpoint, TailClaims(topic));
    return Some(checkpoint);
  }
}
