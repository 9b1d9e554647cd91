/**
 * The change-data-capture job (internal/cdc/job.go, internal/cdc/cursor.go):
 * windows of events published in two steps to a topic of many partitions, with
 * no progress kept anywhere but in the records themselves.
 *
 * The environment lands the records of a produce call in any order, on any
 * partition, before or after the call has failed; loses acknowledgements;
 * crashes the job at any moment; appends records nobody can read; deletes the
 * heads of partitions.
 */
module Cdc {
  import opened Extremes

  /** A record of the output topic: an event and the checkpoint it claims, or something unreadable. */
  datatype Message = Claim(ts: nat, checkpoint: nat) | Foreign

  type Topic = map<nat, seq<Message>>

  /**
   * What the job is doing.  First: every record but the closing one is out.
   * Closing: only the closing record is out.
   */
  datatype Job =
    | Down
    | Idle(cursor: nat)
    | First(cursor: nat, events: seq<nat>)
    | Closing(cursor: nat, events: seq<nat>)

  /**
   * `source` holds the events' timestamps and `returned` the highest one ever
   * answered.  `call` is what the current produce call has not landed yet,
   * `stale` what abandoned calls may still land.  `published` remembers every
   * event that was ever in the topic, `reached` the job's latest cursor.
   */
  datatype State = State(
    source: set<nat>, returned: nat,
    topic: Topic, published: set<nat>,
    call: multiset<Message>, stale: multiset<Message>,
    job: Job, reached: nat)

  datatype Step =
    | Grow(ts: nat)
    | Start
    | StartAt(cursor: nat)
    | Query(n: nat)
    | Land(m: Message, partition: nat)
    | LandStale(m: Message, partition: nat)
    | FirstAcked
    | ClosingAcked
    | Fail(keep: bool)
    | Crash(keep: bool)
    | AppendForeign(partition: nat)
    | Truncate(partition: nat, n: nat)

  const INIT: State := State({}, 0, map[], {}, multiset{}, multiset{}, Down, 0)

  /******* Windows *******/

  predicate StrictlyAscending(events: seq<nat>)
  {
    forall i, j :: 0 <= i < j < |events| ==> events[i] < events[j]
  }

  /**
   * What the job requires of an answer: a strictly ascending prefix of what
   * follows the cursor.
   */
  ghost predicate IsWindow(source: set<nat>, cursor: nat, events: seq<nat>)
  {
    && events != [] && StrictlyAscending(events)
    && (forall i :: 0 <= i < |events| ==> events[i] in source && events[i] > cursor)
    && (forall e :: e in source && cursor < e <= events[|events| - 1] ==> e in events)
  }

  ghost predicate IsPrefixOfLength(source: set<nat>, cursor: nat, events: seq<nat>, n: nat)
  {
    IsWindow(source, cursor, events) && |events| == n
  }

  function AsSet(events: seq<nat>): set<nat> { set e | e in events }

  function Last(events: seq<nat>): nat
    requires events != []
  {
    events[|events| - 1]
  }

  function Front(events: seq<nat>): seq<nat>
    requires events != []
  {
    events[..|events| - 1]
  }

  /** The records of the first step: everything but the last event, claiming the window's start. */
  function FirstRecords(events: seq<nat>, cursor: nat): multiset<Message>
  {
    if events == [] then multiset{}
    else FirstRecords(events[..|events| - 1], cursor) + multiset{Claim(events[|events| - 1], cursor)}
  }

  /******* Recovery *******/

  /** The checkpoints claimed by the last records of the partitions, and zero. */
  function TailClaims(t: Topic): set<int>
  {
    {0} + set p | p in t && t[p] != [] && t[p][|t[p]| - 1].Claim? :: t[p][|t[p]| - 1].checkpoint as int
  }

  /** Resume: the highest checkpoint any partition's tail claims. */
  ghost function Resume(t: Topic): nat
  {
    Greatest(TailClaims(t))
  }

  function Partition(t: Topic, p: nat): seq<Message> { if p in t then t[p] else [] }

  function Append(t: Topic, p: nat, m: Message): Topic { t[p := Partition(t, p) + [m]] }

  /******* Steps *******/

  ghost predicate Enabled(limit: nat, s: State, step: Step)
  {
    match step
    case Grow(ts) => ts > 0 && ts > s.returned && ts !in s.source
    case Start => s.job.Down?
    case StartAt(cursor) => s.job.Down? && cursor <= s.returned && CompleteTo(s, cursor)
    case Query(n) => s.job.Idle? && n <= limit && exists events :: IsPrefixOfLength(s.source, s.job.cursor, events, n)
    case Land(m, _) => m in s.call
    case LandStale(m, _) => m in s.stale
    case FirstAcked => s.job.First? && s.job.events != [] && s.call == multiset{}
    case ClosingAcked => s.job.Closing? && s.job.events != [] && s.call == multiset{}
    case Fail(_) => s.job.First? || s.job.Closing?
    case Crash(_) => true
    case AppendForeign(_) => true
    case Truncate(p, n) => p in s.topic && n <= |s.topic[p]|
  }

  function Seen(m: Message): set<nat> { if m.Claim? then {m.ts} else {} }

  ghost function Apply(limit: nat, s: State, step: Step): State
    requires Enabled(limit, s, step)
  {
    match step
    case Grow(ts) => s.(source := s.source + {ts})
    case Start => s.(job := Idle(Resume(s.topic)), reached := Resume(s.topic))
    case StartAt(cursor) => s.(job := Idle(cursor), reached := cursor)
    case Query(n) =>
      var events :| IsPrefixOfLength(s.source, s.job.cursor, events, n);
      s.(job := First(s.job.cursor, events), call := FirstRecords(Front(events), s.job.cursor),
         returned := if Last(events) > s.returned then Last(events) else s.returned)
    case Land(m, p) =>
      s.(topic := Append(s.topic, p, m), published := s.published + Seen(m), call := s.call - multiset{m})
    case LandStale(m, p) =>
      s.(topic := Append(s.topic, p, m), published := s.published + Seen(m), stale := s.stale - multiset{m})
    case FirstAcked =>
      s.(job := Closing(s.job.cursor, s.job.events), call := multiset{Claim(Last(s.job.events), Last(s.job.events))})
    case ClosingAcked => s.(job := Idle(Last(s.job.events)), reached := Last(s.job.events))
    case Fail(keep) =>
      s.(job := Idle(s.job.cursor), call := multiset{}, stale := if keep then s.stale + s.call else s.stale)
    case Crash(keep) =>
      s.(job := Down, call := multiset{}, stale := if keep then s.stale + s.call else s.stale)
    case AppendForeign(p) => s.(topic := Append(s.topic, p, Foreign))
    case Truncate(p, n) => s.(topic := s.topic[p := s.topic[p][n..]])
  }

  /******* Safety *******/

  /** Every event up to c has been published. */
  ghost predicate CompleteTo(s: State, c: nat)
  {
    forall e :: e in s.source && e <= c ==> e in s.published
  }

  /** A claim that is true, and stays true whatever the source adds. */
  ghost predicate TrueClaim(s: State, c: nat)
  {
    c <= s.returned && CompleteTo(s, c)
  }

  /** A record whose claim is true once the record itself has landed. */
  ghost predicate TrueOnLanding(s: State, m: Message)
  {
    m.Claim? ==> m.checkpoint <= s.returned &&
                 forall e :: e in s.source && e <= m.checkpoint ==> e in s.published || e == m.ts
  }

  ghost predicate TopicTrue(s: State)
  {
    forall p, i :: p in s.topic && 0 <= i < |s.topic[p]| && s.topic[p][i].Claim? ==>
      TrueClaim(s, s.topic[p][i].checkpoint)
  }

  ghost predicate FlightTrue(s: State)
  {
    && (forall m :: m in s.call ==> TrueOnLanding(s, m))
    && (forall m :: m in s.stale ==> TrueOnLanding(s, m))
  }

  ghost predicate JobTrue(s: State)
  {
    match s.job
    case Down => true
    case Idle(c) => TrueClaim(s, c)
    case First(c, events) =>
      && TrueClaim(s, c) && IsWindow(s.source, c, events) && Last(events) <= s.returned
      && forall e :: e in Front(events) ==> e in s.published || Claim(e, c) in s.call
    case Closing(c, events) =>
      && TrueClaim(s, c) && IsWindow(s.source, c, events) && Last(events) <= s.returned
      && (forall e :: e in Front(events) ==> e in s.published)
      && (Last(events) in s.published || Claim(Last(events), Last(events)) in s.call)
  }

  ghost predicate Safe(s: State)
  {
    (forall e :: e in s.source ==> e > 0) && TopicTrue(s) && FlightTrue(s) && JobTrue(s)
  }

  lemma {:induction false} ResumeIsTrue(s: State)
    requires TopicTrue(s) && forall e :: e in s.source ==> e > 0
    ensures TrueClaim(s, Resume(s.topic))
  {
  }

  /** Nothing that is true becomes false: events are only added above what was answered. */
  ghost predicate Later(s: State, s': State)
  {
    && s.published <= s'.published && s.returned <= s'.returned
    && forall e :: e in s'.source && e !in s.source ==> e > s.returned
  }

  lemma {:induction false} ClaimStays(s: State, s': State, c: nat)
    requires Later(s, s') && TrueClaim(s, c)
    ensures TrueClaim(s', c)
  {
  }

  lemma {:induction false} FirstRecordsClaim(events: seq<nat>, cursor: nat)
    ensures forall m :: m in FirstRecords(events, cursor) <==> m.Claim? && m.checkpoint == cursor && m.ts in events
  {
    if events != [] { FirstRecordsClaim(events[..|events| - 1], cursor); }
  }

  lemma {:induction false} StepIsLater(limit: nat, s: State, step: Step)
    requires Enabled(limit, s, step)
    ensures Later(s, Apply(limit, s, step))
  {
  }

  /** When the closing record is out and lands, the whole window is published. */
  lemma {:induction false} WindowComplete(s: State, c: nat, events: seq<nat>)
    requires TrueClaim(s, c) && IsWindow(s.source, c, events)
    requires forall e :: e in Front(events) ==> e in s.published
    ensures forall e :: e in s.source && e <= Last(events) ==> e in s.published || e == Last(events)
  {
  }

  lemma {:induction false} SafeAppend(s: State, s': State, p: nat, m: Message)
    requires TopicTrue(s) && Later(s, s') && s'.topic == Append(s.topic, p, m)
    requires m.Claim? ==> TrueClaim(s', m.checkpoint)
    ensures TopicTrue(s')
  {
  }

  lemma {:induction false} SameTopic(s: State, s': State)
    requires TopicTrue(s) && Later(s, s') && s'.topic == s.topic
    ensures TopicTrue(s')
  {
  }

  lemma {:induction false} TopicKeeps(limit: nat, s: State, step: Step)
    requires Safe(s) && Enabled(limit, s, step)
    ensures TopicTrue(Apply(limit, s, step))
  {
    var s' := Apply(limit, s, step);
    StepIsLater(limit, s, step);
    match step {
      case Land(m, p) =>
        assert TrueOnLanding(s, m);
        SafeAppend(s, s', p, m);
      case LandStale(m, p) =>
        assert TrueOnLanding(s, m);
        SafeAppend(s, s', p, m);
      case AppendForeign(p) => SafeAppend(s, s', p, Foreign);
      case Truncate(p, n) =>
        forall q, i | q in s'.topic && 0 <= i < |s'.topic[q]| && s'.topic[q][i].Claim?
          ensures TrueClaim(s', s'.topic[q][i].checkpoint)
        {
          var j := if q == p then i + n else i;
          assert s'.topic[q][i] == s.topic[q][j];
        }
      case _ => SameTopic(s, s');
    }
  }

  lemma {:induction false} MessageStays(s: State, s': State, m: Message)
    requires Later(s, s') && TrueOnLanding(s, m)
    ensures TrueOnLanding(s', m)
  {
  }

  /** Nothing gets in flight but what a query or the end of a first step puts there. */
  lemma {:induction false} InFlight(limit: nat, s: State, step: Step, m: Message)
    requires Enabled(limit, s, step) && (m in Apply(limit, s, step).call || m in Apply(limit, s, step).stale)
    ensures m in s.call || m in s.stale || ((step.Query? || step.FirstAcked?) && m in Apply(limit, s, step).call)
  {
    hide FirstRecords, IsPrefixOfLength;
  }

  lemma {:induction false} NewCall(limit: nat, s: State, step: Step, m: Message)
    requires Safe(s) && Enabled(limit, s, step) && (step.Query? || step.FirstAcked?)
    requires m in Apply(limit, s, step).call
    ensures TrueOnLanding(Apply(limit, s, step), m)
  {
    hide TopicTrue, FlightTrue;
    if step.Query? {
      FirstRecordsClaim(Front(Apply(limit, s, step).job.events), s.job.cursor);
      hide FirstRecords;
    } else {
      WindowComplete(s, s.job.cursor, s.job.events);
    }
  }

  lemma {:induction false} FlightKeeps(limit: nat, s: State, step: Step)
    requires Safe(s) && Enabled(limit, s, step)
    ensures FlightTrue(Apply(limit, s, step))
  {
    hide TrueOnLanding, TopicTrue, JobTrue, Enabled, Apply;
    var s' := Apply(limit, s, step);
    StepIsLater(limit, s, step);
    forall m | m in s'.call || m in s'.stale ensures TrueOnLanding(s', m) {
      InFlight(limit, s, step, m);
      if m in s.call || m in s.stale { MessageStays(s, s', m); } else { NewCall(limit, s, step, m); }
    }
  }

  /** A phase outlives steps that do not end it: what was out is still out, or has landed. */
  lemma {:induction false} PhaseStays(s: State, s': State)
    requires Later(s, s') && s.source <= s'.source && JobTrue(s) && s'.job == s.job
    requires forall m :: m in s.call && m.Claim? ==> m in s'.call || m.ts in s'.published
    ensures JobTrue(s')
  {
  }

  lemma {:induction false} WindowOpens(limit: nat, s: State, step: Step)
    requires Safe(s) && Enabled(limit, s, step) && step.Query?
    ensures JobTrue(Apply(limit, s, step))
  {
    var s' := Apply(limit, s, step);
    FirstRecordsClaim(Front(s'.job.events), s.job.cursor);
    ClaimStays(s, s', s.job.cursor);
  }

  lemma {:induction false} WindowCloses(limit: nat, s: State, step: Step)
    requires Safe(s) && Enabled(limit, s, step)
    requires step.FirstAcked? || step.ClosingAcked? || step.Fail? || step.Crash?
    ensures JobTrue(Apply(limit, s, step))
  {
    hide TopicTrue, FlightTrue;
    if step.ClosingAcked? { WindowComplete(s, s.job.cursor, s.job.events); }
  }

  lemma {:induction false} JobKeeps(limit: nat, s: State, step: Step)
    requires Safe(s) && Enabled(limit, s, step)
    ensures JobTrue(Apply(limit, s, step))
  {
    var s' := Apply(limit, s, step);
    StepIsLater(limit, s, step);
    match step {
      case Start => ResumeIsTrue(s);
      case StartAt(cursor) =>
      case Query(n) => WindowOpens(limit, s, step);
      case FirstAcked => WindowCloses(limit, s, step);
      case ClosingAcked => WindowCloses(limit, s, step);
      case Fail(_) => WindowCloses(limit, s, step);
      case Crash(_) => WindowCloses(limit, s, step);
      case _ =>
        assert s.source <= s'.source && s'.job == s.job;
        hide JobTrue, TopicTrue, FlightTrue;
        PhaseStays(s, s');
    }
  }

  lemma {:induction false} SafeKeeps(limit: nat, s: State, step: Step)
    requires Safe(s) && Enabled(limit, s, step)
    ensures Safe(Apply(limit, s, step))
  {
    TopicKeeps(limit, s, step);
    FlightKeeps(limit, s, step);
    JobKeeps(limit, s, step);
  }

  ghost predicate Behavior(limit: nat, states: seq<State>, steps: seq<Step>)
  {
    && |states| == |steps| + 1 && states[0] == INIT
    && forall i :: 0 <= i < |steps| ==>
         Enabled(limit, states[i], steps[i]) && states[i + 1] == Apply(limit, states[i], steps[i])
  }

  lemma {:induction false} RunsAreSafe(limit: nat, states: seq<State>, steps: seq<Step>, n: nat)
    requires Behavior(limit, states, steps) && n < |states|
    ensures Safe(states[n])
  {
    if n > 0 {
      RunsAreSafe(limit, states, steps, n - 1);
      hide Safe, Enabled, Apply;
      SafeKeeps(limit, states[n - 1], steps[n - 1]);
    }
  }

  /**
   * No restart skips an event: in every run, every checkpoint in the topic is
   * true, a cursor recovered from the tails is true, and the running job's
   * cursor is true.
   */
  lemma {:induction false} NoEventSkipped(limit: nat, states: seq<State>, steps: seq<Step>, n: nat)
    requires Behavior(limit, states, steps) && n < |states|
    ensures forall p, i :: p in states[n].topic && 0 <= i < |states[n].topic[p]| && states[n].topic[p][i].Claim? ==>
              CompleteTo(states[n], states[n].topic[p][i].checkpoint)
    ensures CompleteTo(states[n], Resume(states[n].topic))
    ensures !states[n].job.Down? ==> CompleteTo(states[n], states[n].job.cursor)
  {
    RunsAreSafe(limit, states, steps, n);
    ResumeIsTrue(states[n]);
  }
}
