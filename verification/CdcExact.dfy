/**
 * Recovery is exact (internal/cdc/job.go, internal/cdc/cursor.go): right after
 * a window completes, the cursor read back from the partition tails is the
 * job's own cursor -- although earlier attempts of that window may have left
 * records, closing records included, anywhere in the topic.
 *
 * Failed calls may land records late, others may write to the topic, and
 * retention may delete whole partitions, as long as no such step takes away
 * the last tail that claims what the job has reached; a step that does so is
 * exactly one after which a restart falls behind.  Every start recovers from
 * the topic, and answers are as long as the limit allows.
 */
module CdcExact {
  import opened Cdc

  /** The events after the cursor, up to m. */
  ghost function Above(source: set<nat>, c: nat, m: nat): set<nat>
  {
    set e | e in source && c < e <= m
  }

  ghost function AllAbove(source: set<nat>, c: nat): set<nat>
  {
    set e | e in source && c < e
  }

  /** What the topic's tails have to claim: the job's cursor, and a window's end once its closing record has landed. */
  ghost function Target(s: State): nat
  {
    if s.job.Closing? && s.call == multiset{} && s.job.events != [] then Last(s.job.events) else s.reached
  }

  /** Some partition other than p ends in a claim of m or more. */
  ghost predicate ClaimedElsewhere(t: Topic, p: nat, m: nat)
  {
    exists q :: q != p && q in t && TailAtLeast(t[q], m)
  }

  predicate TailAtLeast(messages: seq<Message>, m: nat)
  {
    messages != [] && messages[|messages| - 1].Claim? && messages[|messages| - 1].checkpoint >= m
  }

  /** A step that is not the job's own, and puts a record on a tail or takes a tail away. */
  predicate Intrudes(step: Step)
  {
    step.LandStale? || step.AppendForeign? || step.Truncate?
  }

  /** The partition it touches keeps a tail that claims the target, or gets one, or another partition has one. */
  ghost predicate Harmless(s: State, step: Step)
    requires Intrudes(step)
  {
    || Target(s) == 0
    || ClaimedElsewhere(s.topic, step.partition, Target(s))
    || match step
       case LandStale(m, p) => m.Claim? && m.checkpoint >= Target(s)
       case Truncate(p, n) => p in s.topic && n < |s.topic[p]| && TailAtLeast(s.topic[p], Target(s))
       case _ => false
  }

  ghost predicate Faithful(limit: nat, s: State, step: Step)
  {
    match step
    case StartAt(_) => false
    case Query(n) => s.job.Idle? ==> n == limit || n == |AllAbove(s.source, s.job.cursor)|
    case _ => Intrudes(step) ==> Harmless(s, step)
  }

  /** A checkpoint at most one window ahead of c. */
  ghost predicate WithinWindow(limit: nat, source: set<nat>, returned: nat, c: nat, m: nat)
  {
    m <= c || (m in source && m <= returned && |Above(source, c, m)| <= limit)
  }

  ghost predicate ClaimedIn(t: Topic, m: nat)
  {
    exists p, i :: p in t && 0 <= i < |t[p]| && t[p][i].Claim? && t[p][i].checkpoint == m
  }

  ghost predicate TailClaimsAtLeast(t: Topic, m: nat)
  {
    exists p :: p in t && TailAtLeast(t[p], m)
  }

  /** A restart resumes at m or later. */
  ghost predicate HasTails(t: Topic, m: nat) { m == 0 || TailClaimsAtLeast(t, m) }

  ghost predicate TopicNear(limit: nat, source: set<nat>, returned: nat, c: nat, t: Topic)
  {
    forall m: nat :: ClaimedIn(t, m) ==> WithinWindow(limit, source, returned, c, m)
  }

  ghost predicate RecordsNear(limit: nat, source: set<nat>, returned: nat, c: nat, records: multiset<Message>)
  {
    forall r :: r in records ==> r.Claim? && WithinWindow(limit, source, returned, c, r.checkpoint)
  }

  predicate RecordsFrom(records: multiset<Message>, m: nat)
  {
    forall r :: r in records ==> r.Claim? && m <= r.checkpoint
  }

  predicate RecordsUpTo(records: multiset<Message>, m: nat)
  {
    forall r :: r in records ==> r.Claim? && r.checkpoint <= m
  }

  ghost predicate TopicUpTo(t: Topic, m: nat)
  {
    forall k: nat :: ClaimedIn(t, k) ==> k <= m
  }

  /** What is claimed or may still be claimed is at most one window ahead of what was reached. */
  ghost predicate Near(limit: nat, s: State)
  {
    && TopicNear(limit, s.source, s.returned, s.reached, s.topic)
    && RecordsNear(limit, s.source, s.returned, s.reached, s.call)
    && RecordsNear(limit, s.source, s.returned, s.reached, s.stale)
    && RecordsFrom(s.call, s.reached)
  }

  /** While a window is open no claim lies beyond its end. */
  ghost predicate Window(limit: nat, s: State)
  {
    (s.job.First? || s.job.Closing?) ==>
      && s.job.events != [] && s.reached <= Last(s.job.events)
      && WithinWindow(limit, s.source, s.returned, s.reached, Last(s.job.events))
      && TopicUpTo(s.topic, Last(s.job.events))
      && RecordsUpTo(s.call, Last(s.job.events)) && RecordsUpTo(s.stale, Last(s.job.events))
      && (s.job.Closing? ==> RecordsFrom(s.call, Last(s.job.events)))
  }

  ghost predicate Exact(limit: nat, s: State)
  {
    && Safe(s)
    && (!s.job.Down? ==> s.reached == s.job.cursor)
    && (s.job.Down? || s.job.Idle? ==> s.call == multiset{})
    && HasTails(s.topic, s.reached) && HasTails(s.topic, Target(s))
    && Near(limit, s) && Window(limit, s)
  }

  /******* Counting *******/

  lemma {:induction false} AscendingSize(events: seq<nat>)
    requires StrictlyAscending(events)
    ensures |AsSet(events)| == |events|
  {
    if events != [] {
      var front, last := events[..|events| - 1], events[|events| - 1];
      AscendingSize(front);
      assert AsSet(events) == AsSet(front) + {last};
      assert last !in front;
    }
  }

  lemma {:induction false} SubsetSize(a: set<nat>, b: set<nat>)
    requires a <= b
    ensures |a| <= |b|
    ensures |a| == |b| ==> a == b
  {
    assert b == a + (b - a);
    assert |b| == |a| + |b - a|;
  }

  /** A full answer reaches at least as far as any checkpoint within a window of the cursor. */
  lemma {:induction false} FullAnswerReaches(limit: nat, s: State, c: nat, events: seq<nat>, n: nat, m: nat)
    requires IsPrefixOfLength(s.source, c, events, n) && n <= limit
    requires n == limit || n == |AllAbove(s.source, c)|
    requires WithinWindow(limit, s.source, s.returned, c, m)
    ensures m <= Last(events)
  {
    AscendingSize(events);
    if m > c {
      if n == |AllAbove(s.source, c)| {
        SubsetSize(AsSet(events), AllAbove(s.source, c));
        assert m in AsSet(events);
      } else if m > Last(events) {
        assert m !in AsSet(events);
        SubsetSize(AsSet(events) + {m}, Above(s.source, c, m));
        assert false;
      }
    }
  }

  lemma {:induction false} WindowFits(limit: nat, s: State, c: nat, events: seq<nat>)
    requires IsWindow(s.source, c, events) && |events| <= limit && Last(events) <= s.returned
    ensures c < Last(events) && WithinWindow(limit, s.source, s.returned, c, Last(events))
  {
    AscendingSize(events);
    SubsetSize(Above(s.source, c, Last(events)), AsSet(events));
  }

  lemma {:induction false} WithinStays(limit: nat, s: State, s': State, c: nat, m: nat)
    requires Later(s, s') && s.source <= s'.source && WithinWindow(limit, s.source, s.returned, c, m)
    ensures WithinWindow(limit, s'.source, s'.returned, c, m)
  {
    if m > c { assert Above(s'.source, c, m) == Above(s.source, c, m); }
  }

  lemma {:induction false} WithinFurther(limit: nat, s: State, c: nat, d: nat, m: nat)
    requires c <= d && WithinWindow(limit, s.source, s.returned, c, m)
    ensures WithinWindow(limit, s.source, s.returned, d, m)
  {
    if m > d { SubsetSize(Above(s.source, d, m), Above(s.source, c, m)); }
  }

  /** A later state, and a cursor further on, keep everything near. */
  lemma {:induction false} NearStays(limit: nat, s: State, s': State, d: nat)
    requires Later(s, s') && s.source <= s'.source && s.reached <= d && Near(limit, s)
    ensures TopicNear(limit, s'.source, s'.returned, d, s.topic)
    ensures RecordsNear(limit, s'.source, s'.returned, d, s.call)
    ensures RecordsNear(limit, s'.source, s'.returned, d, s.stale)
  {
    hide ClaimedIn, WithinWindow, Later;
    forall m: nat | WithinWindow(limit, s.source, s.returned, s.reached, m)
      ensures WithinWindow(limit, s'.source, s'.returned, d, m)
    {
      WithinStays(limit, s, s', s.reached, m);
      WithinFurther(limit, s', s.reached, d, m);
    }
  }

  /** What a full answer reaches past is all that is claimed. */
  lemma {:induction false} NearIsReached(limit: nat, s: State, events: seq<nat>, n: nat)
    requires IsPrefixOfLength(s.source, s.reached, events, n) && n <= limit
    requires n == limit || n == |AllAbove(s.source, s.reached)|
    requires Near(limit, s)
    ensures TopicUpTo(s.topic, Last(events)) && RecordsUpTo(s.stale, Last(events))
  {
    assert events != [];
    hide ClaimedIn, WithinWindow, IsPrefixOfLength, RecordsFrom;
    forall m: nat | WithinWindow(limit, s.source, s.returned, s.reached, m) ensures m <= Last(events) {
      FullAnswerReaches(limit, s, s.reached, events, n, m);
    }
  }

  lemma {:induction false} UpToIsNear(limit: nat, s: State, m: nat)
    ensures TopicUpTo(s.topic, m) ==> TopicNear(limit, s.source, s.returned, m, s.topic)
    ensures RecordsUpTo(s.stale, m) ==> RecordsNear(limit, s.source, s.returned, m, s.stale)
  {
    hide ClaimedIn;
  }

  /******* Recovery from tails *******/

  lemma {:induction false} ResumeAtLeast(t: Topic, m: nat)
    requires TailClaimsAtLeast(t, m)
    ensures Resume(t) >= m
  {
    var p :| p in t && TailAtLeast(t[p], m);
    assert t[p][|t[p]| - 1].checkpoint as int in TailClaims(t);
  }

  lemma {:induction false} ResumeIsClaimed(t: Topic)
    ensures Resume(t) == 0 || (ClaimedIn(t, Resume(t)) && TailClaimsAtLeast(t, Resume(t)))
  {
  }

  /** A restart resumes at m or later exactly if some tail claims as much. */
  lemma {:induction false} ResumesFrom(t: Topic, m: nat)
    ensures m <= Resume(t) <==> HasTails(t, m)
  {
    hide Resume, TailClaimsAtLeast;
    ResumeIsClaimed(t);
    if m > 0 && TailClaimsAtLeast(t, m) { ResumeAtLeast(t, m); }
    if 0 < m <= Resume(t) { LowerTarget(t, Resume(t), m); }
  }

  lemma {:induction false} LowerTarget(t: Topic, m: nat, n: nat)
    requires TailClaimsAtLeast(t, m) && n <= m
    ensures TailClaimsAtLeast(t, n)
  {
    var p :| p in t && TailAtLeast(t[p], m);
    assert TailAtLeast(t[p], n);
  }

  lemma {:induction false} AppendClaims(t: Topic, p: nat, r: Message, m: nat)
    ensures ClaimedIn(Append(t, p, r), m) ==> ClaimedIn(t, m) || (r.Claim? && r.checkpoint == m)
    ensures r.Claim? ==> TailClaimsAtLeast(Append(t, p, r), r.checkpoint)
  {
    var t' := Append(t, p, r);
    assert p in t' && t'[p][|t'[p]| - 1] == r;
    if ClaimedIn(t', m) {
      var q, i :| q in t' && 0 <= i < |t'[q]| && t'[q][i].Claim? && t'[q][i].checkpoint == m;
      if q in t && i < |t[q]| { assert t[q][i] == t'[q][i]; }
    }
  }

  lemma {:induction false} AppendTail(t: Topic, p: nat, r: Message, m: nat)
    requires TailClaimsAtLeast(t, m) && r.Claim? && m <= r.checkpoint
    ensures TailClaimsAtLeast(Append(t, p, r), m)
  {
    var t' := Append(t, p, r);
    assert p in t' && t'[p][|t'[p]| - 1] == r;
  }

  /******* The invariant *******/

  lemma {:induction false} NoRecords(limit: nat, source: set<nat>, returned: nat, c: nat)
    ensures RecordsNear(limit, source, returned, c, multiset{}) && RecordsFrom(multiset{}, c)
    ensures RecordsUpTo(multiset{}, c)
  {
  }

  lemma {:induction false} StartKeeps(limit: nat, s: State)
    requires Exact(limit, s) && Enabled(limit, s, Start)
    ensures Exact(limit, Apply(limit, s, Start))
  {
    hide Safe, TailClaimsAtLeast, TopicNear, RecordsNear, RecordsFrom, RecordsUpTo, TopicUpTo, ClaimedIn, Resume;
    var s' := Apply(limit, s, Start);
    SafeKeeps(limit, s, Start);
    StepIsLater(limit, s, Start);
    ResumeIsClaimed(s.topic);
    if s.reached > 0 { ResumeAtLeast(s.topic, s.reached); }
    NearStays(limit, s, s', s'.reached);
    NoRecords(limit, s.source, s.returned, s'.reached);
  }

  lemma {:induction false} GrowKeeps(limit: nat, s: State, ts: nat)
    requires Exact(limit, s) && Enabled(limit, s, Grow(ts))
    ensures Exact(limit, Apply(limit, s, Grow(ts)))
  {
    hide Safe, TailClaimsAtLeast, TopicNear, RecordsNear, RecordsFrom, RecordsUpTo, TopicUpTo, WithinWindow;
    var s' := Apply(limit, s, Grow(ts));
    SafeKeeps(limit, s, Grow(ts));
    StepIsLater(limit, s, Grow(ts));
    NearStays(limit, s, s', s.reached);
    if s.job.First? || s.job.Closing? { WithinStays(limit, s, s', s.reached, Last(s.job.events)); }
    hide Later;
  }

  /** The records of a first step all claim the cursor. */
  lemma {:induction false} FirstRecordsNear(limit: nat, source: set<nat>, returned: nat, c: nat, events: seq<nat>,
      m: nat)
    requires c <= m
    ensures RecordsNear(limit, source, returned, c, FirstRecords(events, c))
    ensures RecordsFrom(FirstRecords(events, c), c) && RecordsUpTo(FirstRecords(events, c), m)
  {
    FirstRecordsClaim(events, c);
    hide FirstRecords;
  }

  lemma {:induction false} QueryOpens(limit: nat, s: State, n: nat)
    requires Enabled(limit, s, Query(n))
    ensures var s' := Apply(limit, s, Query(n));
            && s'.job.First? && s'.job.cursor == s.job.cursor && s'.job.events != []
            && s' == s.(job := s'.job, returned := s'.returned,
                        call := FirstRecords(Front(s'.job.events), s.job.cursor))
            && IsPrefixOfLength(s.source, s.job.cursor, s'.job.events, n) && Last(s'.job.events) <= s'.returned
  {
    hide FirstRecords;
  }

  lemma {:induction false} QueryKeeps(limit: nat, s: State, n: nat)
    requires Exact(limit, s) && Enabled(limit, s, Query(n)) && Faithful(limit, s, Query(n))
    ensures Exact(limit, Apply(limit, s, Query(n)))
  {
    hide Safe, TailClaimsAtLeast, TopicNear, RecordsNear, RecordsFrom, RecordsUpTo, TopicUpTo, WithinWindow;
    var s' := Apply(limit, s, Query(n));
    SafeKeeps(limit, s, Query(n));
    StepIsLater(limit, s, Query(n));
    QueryOpens(limit, s, n);
    hide Apply, FirstRecords;
    var events := s'.job.events;
    NearStays(limit, s, s', s.reached);
    NearIsReached(limit, s, events, n);
    WindowFits(limit, s', s.reached, events);
    FirstRecordsNear(limit, s'.source, s'.returned, s.reached, Front(events), Last(events));
    hide IsPrefixOfLength, Later;
  }

  /** One of a call's records lands. */
  lemma {:induction false} LandingNear(limit: nat, s: State, r: Message, p: nat)
    requires Near(limit, s) && r in s.call
    ensures TopicNear(limit, s.source, s.returned, s.reached, Append(s.topic, p, r))
    ensures RecordsNear(limit, s.source, s.returned, s.reached, s.call - multiset{r})
    ensures RecordsFrom(s.call - multiset{r}, s.reached) && r.Claim? && s.reached <= r.checkpoint
  {
    hide ClaimedIn, WithinWindow, Append;
    forall m: nat | ClaimedIn(Append(s.topic, p, r), m)
      ensures WithinWindow(limit, s.source, s.returned, s.reached, m)
    {
      AppendClaims(s.topic, p, r, m);
    }
  }

  lemma {:induction false} LandingUpTo(t: Topic, call: multiset<Message>, r: Message, p: nat, last: nat)
    requires r in call && TopicUpTo(t, last) && RecordsUpTo(call, last)
    ensures TopicUpTo(Append(t, p, r), last) && RecordsUpTo(call - multiset{r}, last)
    ensures RecordsFrom(call, last) ==> RecordsFrom(call - multiset{r}, last) && r.checkpoint == last
  {
    hide ClaimedIn, Append;
    forall m: nat | ClaimedIn(Append(t, p, r), m) ensures m <= last { AppendClaims(t, p, r, m); }
  }

  lemma {:induction false} LandKeeps(limit: nat, s: State, r: Message, p: nat)
    requires Exact(limit, s) && Enabled(limit, s, Land(r, p))
    ensures Exact(limit, Apply(limit, s, Land(r, p)))
  {
    hide Safe, TailClaimsAtLeast, TopicNear, RecordsNear, RecordsFrom, RecordsUpTo, TopicUpTo, WithinWindow, Append;
    var s' := Apply(limit, s, Land(r, p));
    SafeKeeps(limit, s, Land(r, p));
    LandingNear(limit, s, r, p);
    LandingUpTo(s.topic, s.call, r, p, Last(s.job.events));
    AppendClaims(s.topic, p, r, 0);
    if s.reached > 0 { AppendTail(s.topic, p, r, s.reached); }
  }

  lemma {:induction false} FirstAckedKeeps(limit: nat, s: State)
    requires Exact(limit, s) && Enabled(limit, s, FirstAcked)
    ensures Exact(limit, Apply(limit, s, FirstAcked))
  {
    hide Safe, TailClaimsAtLeast, TopicNear, TopicUpTo, WithinWindow;
    SafeKeeps(limit, s, FirstAcked);
  }

  lemma {:induction false} ClosingAckedKeeps(limit: nat, s: State)
    requires Exact(limit, s) && Enabled(limit, s, ClosingAcked)
    ensures Exact(limit, Apply(limit, s, ClosingAcked))
  {
    hide Safe, TailClaimsAtLeast, TopicNear, RecordsNear, RecordsFrom, RecordsUpTo, TopicUpTo, WithinWindow;
    var last := Last(s.job.events);
    SafeKeeps(limit, s, ClosingAcked);
    UpToIsNear(limit, s, last);
    NoRecords(limit, s.source, s.returned, last);
  }

  lemma {:induction false} StillNear(limit: nat, source: set<nat>, returned: nat, c: nat, a: multiset<Message>,
      b: multiset<Message>)
    requires RecordsNear(limit, source, returned, c, a) && RecordsNear(limit, source, returned, c, b)
    ensures RecordsNear(limit, source, returned, c, a + b)
  {
    hide WithinWindow;
  }

  lemma {:induction false} AttemptEnds(limit: nat, s: State, step: Step)
    requires Exact(limit, s) && Enabled(limit, s, step) && (step.Fail? || step.Crash?)
    ensures Exact(limit, Apply(limit, s, step))
  {
    hide Safe, TailClaimsAtLeast, TopicNear, RecordsNear, RecordsFrom, RecordsUpTo, TopicUpTo, WithinWindow;
    SafeKeeps(limit, s, step);
    StillNear(limit, s.source, s.returned, s.reached, s.stale, s.call);
    NoRecords(limit, s.source, s.returned, s.reached);
  }

  /******* Steps that are not the job's own *******/

  /** The topic after such a step. */
  ghost function Touched(s: State, step: Step): Topic
    requires Intrudes(step)
    requires step.Truncate? ==> step.partition in s.topic && step.n <= |s.topic[step.partition]|
  {
    match step
    case LandStale(m, p) => Append(s.topic, p, m)
    case AppendForeign(p) => Append(s.topic, p, Foreign)
    case Truncate(p, n) => s.topic[p := s.topic[p][n..]]
  }

  /** Only the touched partition changes, and there is no claim but the old ones and the landed record's. */
  lemma {:induction false} TouchedFacts(s: State, step: Step)
    requires Intrudes(step)
    requires step.Truncate? ==> step.partition in s.topic && step.n <= |s.topic[step.partition]|
    ensures var t, t', p := s.topic, Touched(s, step), step.partition;
            && p in t' && t'.Keys == t.Keys + {p} && (forall q :: q in t && q != p ==> t'[q] == t[q])
            && t'[p] == match step
                        case LandStale(m, _) => Partition(t, p) + [m]
                        case AppendForeign(_) => Partition(t, p) + [Foreign]
                        case Truncate(_, n) => t[p][n..]
  {
  }

  lemma {:induction false} TouchedClaims(s: State, step: Step, m: nat)
    requires Intrudes(step)
    requires step.Truncate? ==> step.partition in s.topic && step.n <= |s.topic[step.partition]|
    requires ClaimedIn(Touched(s, step), m)
    ensures ClaimedIn(s.topic, m) || (step.LandStale? && step.m.Claim? && step.m.checkpoint == m)
  {
    TouchedFacts(s, step);
    var t: Topic, t': Topic, p := s.topic, Touched(s, step), step.partition;
    hide Touched;
    var q: nat, i: int :| q in t' && 0 <= i < |t'[q]| && t'[q][i].Claim? && t'[q][i].checkpoint == m;
    if q != p {
      assert t[q][i] == t'[q][i];
    } else if step.Truncate? {
      assert t[q][step.n + i] == t'[q][i];
    } else if i < |Partition(t, p)| {
      assert t[q][i] == t'[q][i];
    }
  }

  /** The tails still claim the target exactly if the step is harmless. */
  lemma {:induction false} HarmlessKeepsTarget(s: State, step: Step)
    requires Intrudes(step) && Target(s) > 0
    requires step.Truncate? ==> step.partition in s.topic && step.n <= |s.topic[step.partition]|
    ensures TailClaimsAtLeast(Touched(s, step), Target(s)) <==> Harmless(s, step)
  {
    TouchedFacts(s, step);
    var t, t', p, m := s.topic, Touched(s, step), step.partition, Target(s);
    hide Touched, Target;
    if q :| q in t' && TailAtLeast(t'[q], m) {
      if q != p { assert q in t && TailAtLeast(t[q], m); }
    }
    if q :| q != p && q in t && TailAtLeast(t[q], m) { assert q in t' && TailAtLeast(t'[q], m); }
    if step.Truncate? && step.n < |t[p]| { assert TailAtLeast(t'[p], m) == TailAtLeast(t[p], m); }
    if step.LandStale? { assert TailAtLeast(t'[p], m) == (step.m.Claim? && step.m.checkpoint >= m); }
  }

  /** Nothing but the topic and what may still land late has changed. */
  lemma {:induction false} TouchedState(limit: nat, s: State, step: Step)
    requires Intrudes(step) && Enabled(limit, s, step)
    ensures var s' := Apply(limit, s, step);
            && s' == s.(topic := Touched(s, step), published := s'.published, stale := s'.stale)
            && s'.stale <= s.stale && (step.LandStale? ==> step.m in s.stale)
  {
  }

  /** No claim appears but that of a record that lands late. */
  lemma {:induction false} TouchedNear(limit: nat, s: State, step: Step, stale: multiset<Message>)
    requires Intrudes(step) && Near(limit, s) && stale <= s.stale && (step.LandStale? ==> step.m in s.stale)
    requires step.Truncate? ==> step.partition in s.topic && step.n <= |s.topic[step.partition]|
    ensures TopicNear(limit, s.source, s.returned, s.reached, Touched(s, step))
    ensures RecordsNear(limit, s.source, s.returned, s.reached, stale)
  {
    hide ClaimedIn, WithinWindow, Touched, RecordsFrom;
    forall m: nat | ClaimedIn(Touched(s, step), m) ensures WithinWindow(limit, s.source, s.returned, s.reached, m) {
      TouchedClaims(s, step, m);
    }
  }

  lemma {:induction false} TouchedUpTo(s: State, step: Step, stale: multiset<Message>, last: nat)
    requires Intrudes(step) && stale <= s.stale && (step.LandStale? ==> step.m in s.stale)
    requires step.Truncate? ==> step.partition in s.topic && step.n <= |s.topic[step.partition]|
    requires TopicUpTo(s.topic, last) && RecordsUpTo(s.stale, last)
    ensures TopicUpTo(Touched(s, step), last) && RecordsUpTo(stale, last)
  {
    hide ClaimedIn, Touched;
    forall m: nat | ClaimedIn(Touched(s, step), m) ensures m <= last { TouchedClaims(s, step, m); }
  }

  lemma {:induction false} TouchedTails(limit: nat, s: State, step: Step)
    requires Exact(limit, s) && Intrudes(step) && Harmless(s, step)
    requires step.Truncate? ==> step.partition in s.topic && step.n <= |s.topic[step.partition]|
    ensures HasTails(Touched(s, step), s.reached) && HasTails(Touched(s, step), Target(s))
  {
    hide Safe, Near, Touched, Harmless, TailClaimsAtLeast, WithinWindow, TopicUpTo, RecordsUpTo;
    assert s.reached <= Target(s);
    if Target(s) > 0 {
      HarmlessKeepsTarget(s, step);
      LowerTarget(Touched(s, step), Target(s), s.reached);
    }
  }

  lemma {:induction false} IntrusionKeeps(limit: nat, s: State, step: Step)
    requires Exact(limit, s) && Enabled(limit, s, step) && Intrudes(step) && Harmless(s, step)
    ensures Exact(limit, Apply(limit, s, step))
  {
    hide Safe, HasTails, TopicNear, RecordsNear, RecordsFrom, RecordsUpTo, TopicUpTo, WithinWindow, Touched, Harmless;
    var s' := Apply(limit, s, step);
    SafeKeeps(limit, s, step);
    TouchedState(limit, s, step);
    hide Apply;
    TouchedTails(limit, s, step);
    TouchedNear(limit, s, step, s'.stale);
    if s.job.First? || s.job.Closing? { TouchedUpTo(s, step, s'.stale, Last(s.job.events)); }
  }

  /** Deleting the head of a partition and keeping its tail is always harmless. */
  lemma {:induction false} HeadsAreHarmless(limit: nat, s: State, p: nat, n: nat)
    requires Exact(limit, s) && Enabled(limit, s, Truncate(p, n)) && (n == 0 || n < |s.topic[p]|)
    ensures Harmless(s, Truncate(p, n))
  {
    hide Safe, Near, Window, Target;
    var m := Target(s);
    if m > 0 {
      var q :| q in s.topic && TailAtLeast(s.topic[q], m);
      if q != p { assert ClaimedElsewhere(s.topic, p, m); }
    }
  }

  /**
   * The exact condition, in every state: after a step that is not the job's
   * own, a restart resumes no earlier than the job had reached if and only if
   * the step is harmless.
   */
  lemma {:induction false} FallsBehindExactly(limit: nat, s: State, step: Step)
    requires Enabled(limit, s, step) && Intrudes(step)
    ensures Target(s) <= Resume(Apply(limit, s, step).topic) <==> Harmless(s, step)
  {
    TouchedState(limit, s, step);
    hide Apply, Touched, Resume, TailClaimsAtLeast, Harmless, Target;
    ResumesFrom(Touched(s, step), Target(s));
    if Target(s) > 0 { HarmlessKeepsTarget(s, step); } else { NothingToKeep(s, step); }
  }

  lemma {:induction false} NothingToKeep(s: State, step: Step)
    requires Intrudes(step) && Target(s) == 0
    ensures Harmless(s, step)
  {
  }

  lemma {:induction false} ExactKeeps(limit: nat, s: State, step: Step)
    requires Exact(limit, s) && Enabled(limit, s, step) && Faithful(limit, s, step)
    ensures Exact(limit, Apply(limit, s, step))
  {
    hide Exact, Enabled, Apply;
    match step {
      case Grow(ts) => GrowKeeps(limit, s, ts);
      case Start => StartKeeps(limit, s);
      case Query(n) => QueryKeeps(limit, s, n);
      case Land(r, p) => LandKeeps(limit, s, r, p);
      case LandStale(_, _) => IntrusionKeeps(limit, s, step);
      case AppendForeign(_) => IntrusionKeeps(limit, s, step);
      case Truncate(_, _) => IntrusionKeeps(limit, s, step);
      case FirstAcked => FirstAckedKeeps(limit, s);
      case ClosingAcked => ClosingAckedKeeps(limit, s);
      case Fail(_) => AttemptEnds(limit, s, step);
      case Crash(_) => AttemptEnds(limit, s, step);
      case _ => assert false;
    }
  }

  ghost predicate FaithfulRun(limit: nat, states: seq<State>, steps: seq<Step>)
  {
    Behavior(limit, states, steps) && forall i :: 0 <= i < |steps| ==> Faithful(limit, states[i], steps[i])
  }

  lemma {:induction false} RunsAreExact(limit: nat, states: seq<State>, steps: seq<Step>, n: nat)
    requires FaithfulRun(limit, states, steps) && n < |states|
    ensures Exact(limit, states[n])
  {
    if n > 0 {
      RunsAreExact(limit, states, steps, n - 1);
      hide Exact, Enabled, Apply, Faithful;
      ExactKeeps(limit, states[n - 1], steps[n - 1]);
    }
  }

  /** The tails claim the end of a window that has just closed, and nothing in the topic claims more. */
  lemma {:induction false} ClosedWindow(limit: nat, s: State, s': State)
    requires Exact(limit, s) && Enabled(limit, s, ClosingAcked) && s' == Apply(limit, s, ClosingAcked)
    ensures var last := Last(s.job.events);
            s'.job == Idle(last) && TailClaimsAtLeast(s'.topic, last) && TopicUpTo(s'.topic, last)
  {
    hide TailClaimsAtLeast, Near, TopicUpTo, WithinWindow, TopicTrue, FlightTrue;
    assert Target(s) > 0;
  }

  /**
   * Right after a window completes, a fresh Resume returns exactly the job's
   * cursor, whatever the window's earlier attempts left behind or land late.
   */
  lemma {:induction false} RecoveryIsExact(limit: nat, states: seq<State>, steps: seq<Step>, n: nat)
    requires FaithfulRun(limit, states, steps) && n < |steps| && steps[n].ClosingAcked?
    ensures states[n + 1].job == Idle(Resume(states[n + 1].topic))
  {
    RunsAreExact(limit, states, steps, n);
    RunsAreExact(limit, states, steps, n + 1);
    var s, s' := states[n], states[n + 1];
    ClosedWindow(limit, s, s');
    ResumeAtLeast(s'.topic, Last(s.job.events));
    ResumeIsClaimed(s'.topic);
  }

  /**
   * At every moment of such a run, and while the job is down, recovery falls
   * behind neither what the job had reached nor a window whose closing record
   * has landed: no completed window is replayed.
   */
  lemma {:induction false} CompletedWindowsAreNotReplayed(limit: nat, states: seq<State>, steps: seq<Step>, n: nat)
    requires FaithfulRun(limit, states, steps) && n < |states|
    ensures Target(states[n]) <= Resume(states[n].topic) && states[n].reached <= Resume(states[n].topic)
    ensures !states[n].job.Down? ==> states[n].job.cursor <= Resume(states[n].topic)
  {
    RunsAreExact(limit, states, steps, n);
    ResumesFrom(states[n].topic, Target(states[n]));
    ResumesFrom(states[n].topic, states[n].reached);
    hide Safe, Near, Window, HasTails, Resume, Target, FaithfulRun;
  }
}
