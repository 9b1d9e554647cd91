/**
 * Accounting for failed publications (internal/emit/emitter.go).
 *
 * A publication that fails must reach somebody: the Wait that asks for its
 * outcome, or else the Flush before the next commit.  `Emitter` is the guarded
 * tracking state and its critical sections; the step system interleaves those
 * with producer callbacks, waiters and flushes in every possible order.
 */
module Emit {
  import opened Options

  type PubId = nat
  type Error = int

  /** What Flush reports: how many publications are unclaimed, and the earliest one's error. */
  datatype Report = Report(count: nat, first: Error)

  /** Failures nobody has claimed, and the order in which failures appeared. */
  datatype Tracking = Tracking(untaken: map<PubId, Error>, order: seq<PubId>)

  const NOTHING: Tracking := Tracking(map[], [])

  /** The position in the order of the earliest failure that is still unclaimed. */
  ghost predicate IsEarliest(t: Tracking, i: nat)
  {
    i < |t.order| && t.order[i] in t.untaken && forall j :: 0 <= j < i ==> t.order[j] !in t.untaken
  }

  function Added(t: Tracking, p: PubId, err: Error): Tracking
  {
    Tracking(t.untaken[p := err], t.order + [p])
  }

  function Removed(t: Tracking, p: PubId): Tracking { t.(untaken := t.untaken - {p}) }

  class Emitter {
    var untaken: map<PubId, Error>
    var order: seq<PubId>

    function Now(): Tracking
      reads this
    {
      Tracking(untaken, order)
    }

    method AddFailure(p: PubId, err: Error)
      modifies this
      ensures Now() == Added(old(Now()), p, err)
    {
      untaken := untaken[p := err];
      order := order + [p];
    }

    method TakeFailure(p: PubId)
      modifies this
      ensures Now() == Removed(old(Now()), p)
    {
      untaken := untaken - {p};
    }

    /**
     * The critical section of Flush: nothing to report leaves everything as it
     * is; otherwise the earliest unclaimed failure is named and tracking is
     * reset.
     */
    method Flush() returns (err: Option<Report>)
      requires forall p :: p in untaken ==> p in order
      modifies this
      ensures old(untaken) == map[] ==> err.None? && Now() == old(Now())
      ensures old(untaken) != map[] ==>
                && err.Some? && err.value.count == |old(untaken)| && Now() == NOTHING
                && exists i: nat :: IsEarliest(old(Now()), i) && err.value.first == old(untaken)[old(order)[i]]
    {
      if |untaken| == 0 { return None; }
      ghost var p :| p in untaken;
      ghost var k :| 0 <= k < |order| && order[k] == p;
      var first: Option<Error> := None;
      for i := 0 to |order|
        invariant first.None? && untaken == old(untaken) && order == old(order)
        invariant forall j :: 0 <= j < i ==> order[j] !in untaken
      {
        if order[i] in untaken {
          first := Some(untaken[order[i]]);
          assert IsEarliest(Now(), i);
          break;
        }
      }
      assert order[k] in untaken;
      err := Some(Report(|untaken|, first.value));
      untaken, order := map[], [];
    }
  }

  /******* Interleavings *******/

  /**
   * `failed` holds the outcome written by the callback, `closed` the
   * publications whose channel is closed, `taken` those whose flag is set, and
   * `taking` those between setting the flag and removing the failure.  Ghosts:
   * every failure in order of appearance, those a Wait has returned, and those
   * a Flush has reported.
   */
  datatype State = State(
    tracking: Tracking, failed: map<PubId, Error>, closed: set<PubId>,
    taken: set<PubId>, taking: set<PubId>,
    arrivals: seq<PubId>, claimed: set<PubId>, reported: set<PubId>)

  datatype Step =
    | Failure(p: PubId, err: Error)
    | Close(p: PubId)
    | SetTaken(p: PubId)
    | RemoveTaken(p: PubId)
    | WaitAgain(p: PubId)
    | FlushCheck

  const INIT: State := State(NOTHING, map[], {}, {}, {}, [], {}, {})

  predicate Enabled(s: State, step: Step)
  {
    match step
    case Failure(p, _) => p !in s.failed && p !in s.closed
    case Close(p) => p !in s.closed
    case SetTaken(p) => p in s.closed && p in s.failed && p !in s.taken
    case RemoveTaken(p) => p in s.taking
    case WaitAgain(p) => p in s.closed && p in s.failed && p in s.taken
    case FlushCheck => true
  }

  function Apply(s: State, step: Step): State
    requires Enabled(s, step)
  {
    match step
    case Failure(p, err) =>
      s.(failed := s.failed[p := err], arrivals := s.arrivals + [p],
         tracking := Added(s.tracking, p, err))
    case Close(p) => s.(closed := s.closed + {p})
    case SetTaken(p) => s.(taken := s.taken + {p}, taking := s.taking + {p})
    case RemoveTaken(p) =>
      s.(tracking := Removed(s.tracking, p), taking := s.taking - {p}, claimed := s.claimed + {p})
    case WaitAgain(p) => s.(claimed := s.claimed + {p})
    case FlushCheck =>
      if s.tracking.untaken == map[] then s
      else s.(tracking := NOTHING, reported := s.reported + s.tracking.untaken.Keys)
  }

  ghost predicate Tail(order: seq<PubId>, all: seq<PubId>)
  {
    |order| <= |all| && order == all[|all| - |order|..]
  }

  ghost predicate Distinct(all: seq<PubId>)
  {
    forall i, j :: 0 <= i < j < |all| ==> all[i] != all[j]
  }

  ghost predicate Inv(s: State)
  {
    var t := s.tracking;
    // no failure is lost
    && (forall p :: p in s.failed ==> p in t.untaken || p in s.claimed || p in s.reported)
    && (forall p :: p in t.untaken ==> p in s.failed && t.untaken[p] == s.failed[p] && p in t.order)
    // the order is the tail of all arrivals since the last report, each of them once
    && Tail(t.order, s.arrivals) && Distinct(s.arrivals)
    && (forall p :: p in s.arrivals <==> p in s.failed)
    && s.taking <= s.taken
    // what is tracked nobody has claimed for good, and no Flush has reported
    && (forall p :: p in s.taken || p in s.reported ==> p in s.failed)
    && (forall p :: p in t.untaken ==> p !in s.reported && (p in s.taken ==> p in s.taking))
  }

  lemma {:induction false} InvKeeps(s: State, step: Step)
    requires Inv(s) && Enabled(s, step)
    ensures Inv(Apply(s, step))
  {
    if step.Failure? {
      FailureKeeps(s, step);
    } else {
      hide IsEarliest;
    }
  }

  lemma {:induction false} FailureKeeps(s: State, step: Step)
    requires Inv(s) && Enabled(s, step) && step.Failure?
    ensures Inv(Apply(s, step))
  {
  }

  ghost predicate Behavior(states: seq<State>, steps: seq<Step>)
  {
    && |states| == |steps| + 1 && states[0] == INIT
    && forall i :: 0 <= i < |steps| ==> Enabled(states[i], steps[i]) && states[i + 1] == Apply(states[i], steps[i])
  }

  lemma {:induction false} RunsKeepInv(states: seq<State>, steps: seq<Step>, n: nat)
    requires Behavior(states, steps) && n < |states|
    ensures Inv(states[n])
  {
    if n > 0 {
      RunsKeepInv(states, steps, n - 1);
      hide Inv, Enabled, Apply;
      InvKeeps(states[n - 1], steps[n - 1]);
    }
  }

  /**
   * Every failure reaches somebody: when a Flush finds nothing to report,
   * every publication that has failed was returned by a Wait or reported by an
   * earlier Flush.
   */
  lemma {:induction false} NoFailureUnreported(states: seq<State>, steps: seq<Step>, n: nat, p: PubId)
    requires Behavior(states, steps) && n < |states| && p in states[n].failed
    ensures p in states[n].tracking.untaken || p in states[n].claimed || p in states[n].reported
    ensures states[n].tracking.untaken == map[] ==> p in states[n].claimed || p in states[n].reported
  {
    RunsKeepInv(states, steps, n);
  }

  /**
   * And to nobody twice over: what a Flush reports, no earlier Flush has
   * reported and no Wait has finished claiming.
   */
  lemma {:induction false} ReportedOnce(states: seq<State>, steps: seq<Step>, n: nat, p: PubId)
    requires Behavior(states, steps) && n < |states| && p in states[n].tracking.untaken
    ensures p !in states[n].reported && !(p in states[n].taken && p !in states[n].taking)
  {
    RunsKeepInv(states, steps, n);
  }

  /**
   * The failure a Flush names is, among all failures not yet claimed or
   * reported, the first that ever appeared.
   */
  lemma {:induction false} FlushNamesEarliest(states: seq<State>, steps: seq<Step>, n: nat, i: nat, q: PubId)
    requires Behavior(states, steps) && n < |states|
    requires IsEarliest(states[n].tracking, i) && q in states[n].tracking.untaken
    ensures var t, a := states[n].tracking, states[n].arrivals;
            exists x, y :: 0 <= x <= y < |a| && a[x] == t.order[i] && a[y] == q
    ensures var first := states[n].tracking.order[i];
            first in states[n].failed && states[n].tracking.untaken[first] == states[n].failed[first]
  {
    RunsKeepInv(states, steps, n);
    var t, a := states[n].tracking, states[n].arrivals;
    var skip := |a| - |t.order|;
    var j :| 0 <= j < |t.order| && t.order[j] == q;
    assert i <= j;
    assert a[skip + i] == t.order[i] && a[skip + j] == q;
  }

  /** Whenever Flush runs, what it reads is there: its scan of the order cannot come back empty-handed. */
  lemma {:induction false} FlushFindsAName(states: seq<State>, steps: seq<Step>, n: nat)
    requires Behavior(states, steps) && n < |states|
    ensures states[n].tracking.untaken != map[] <==> exists i :: IsEarliest(states[n].tracking, i)
  {
    RunsKeepInv(states, steps, n);
    var t := states[n].tracking;
    if t.untaken != map[] {
      var p :| p in t.untaken;
      var j :| 0 <= j < |t.order| && t.order[j] == p;
      FirstUnclaimed(t, j);
    }
  }

  lemma {:induction false} FirstUnclaimed(t: Tracking, j: nat)
    requires j < |t.order| && t.order[j] in t.untaken
    ensures exists i :: IsEarliest(t, i)
  {
    if k :| 0 <= k < j && t.order[k] in t.untaken { FirstUnclaimed(t, k); } else { assert IsEarliest(t, j); }
  }

  /** A Wait, however late, clears at most its own publication's failure. */
  lemma {:induction false} WaitsClearOnlyTheirOwn(s: State, step: Step, q: PubId)
    requires Enabled(s, step) && !step.FlushCheck? && q in s.tracking.untaken
    ensures q in Apply(s, step).tracking.untaken || step == RemoveTaken(q)
    ensures step == RemoveTaken(q) ==> q in Apply(s, step).claimed
  {
  }
}
