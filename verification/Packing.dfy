/**
 * The batcher's single worker (internal/tbx/batcher.go: loop, drain): commands
 * are taken off the queue one at a time and packed into batches of one
 * operation.
 *
 * The outside world is `world`, which says how the n-th call to TigerBeetle
 * ends, and the list of inputs, which says what the loop's select picks: a
 * queued command, the linger timer, or the stop signal. A call gives up only
 * once stop is closed, so a call that gives up also shows that it is.
 */
module Packing {
  import opened Send

  datatype Cause = OpChanged | NoRoom | Full | Linger | Stopping

  datatype Sending = Sending(jobs: seq<Job>, events: seq<Event>, call: CallResult, answers: seq<SubmitResult>,
                             cause: Cause)

  /** One write to a command's result channel. */
  datatype Done = Done(job: Job, result: SubmitResult)

  datatype Input = Receive(job: Job) | Tick | SignalStop

  /******* What has been sent *******/

  function SentJobs(sends: seq<Sending>): seq<Job>
  {
    if sends == [] then [] else SentJobs(sends[..|sends| - 1]) + sends[|sends| - 1].jobs
  }

  /** The commands TigerBeetle is known to have answered. */
  function Applied(sends: seq<Sending>): seq<Job>
  {
    if sends == [] then []
    else
      Applied(sends[..|sends| - 1]) +
      if sends[|sends| - 1].call.Answered? then sends[|sends| - 1].jobs else []
  }

  function Pairs(jobs: seq<Job>, answers: seq<SubmitResult>): (written: seq<Done>)
    requires |jobs| == |answers|
    ensures JobsOf(written) == jobs
  {
    var written := seq(|jobs|, i requires 0 <= i < |jobs| => Done(jobs[i], answers[i]));
    assert JobsOf(written) == jobs;
    written
  }

  function JobsOf(written: seq<Done>): seq<Job>
  {
    seq(|written|, i requires 0 <= i < |written| => written[i].job)
  }

  predicate Paired(sends: seq<Sending>)
  {
    forall i :: 0 <= i < |sends| ==> |sends[i].jobs| == |sends[i].answers|
  }

  /** One answer per command of every batch, in the order of the queue. */
  function Written(sends: seq<Sending>): seq<Done>
    requires Paired(sends)
  {
    if sends == [] then []
    else Written(sends[..|sends| - 1]) + Pairs(sends[|sends| - 1].jobs, sends[|sends| - 1].answers)
  }

  /** Each command of each batch is told, in its turn, what its batch's answers have at its place. */
  ghost predicate ToldInTurn(done: seq<Done>, sends: seq<Sending>, k: nat, i: nat)
    requires k < |sends| && i < |sends[k].jobs|
  {
    var at := |SentJobs(sends[..k])| + i;
    at < |done| && i < |sends[k].answers| && done[at] == Done(sends[k].jobs[i], sends[k].answers[i])
  }

  lemma {:induction false} WrittenInTurn(sends: seq<Sending>, more: seq<Done>, k: nat, i: nat)
    requires Paired(sends) && k < |sends| && i < |sends[k].jobs|
    ensures |Written(sends)| == |SentJobs(sends)| && ToldInTurn(Written(sends) + more, sends, k, i)
  {
    var n := |sends| - 1;
    var front, own := sends[..n], Pairs(sends[n].jobs, sends[n].answers);
    WrittenLength(front);
    WrittenLength(sends);
    if k < n {
      WrittenInTurn(front, own + more, k, i);
      assert front[..k] == sends[..k] && Written(front) + (own + more) == Written(sends) + more;
    } else {
      assert own[i] == Done(sends[n].jobs[i], sends[n].answers[i]);
    }
  }

  lemma {:induction false} WrittenLength(sends: seq<Sending>)
    requires Paired(sends)
    ensures |Written(sends)| == |SentJobs(sends)|
  {
    if sends != [] { WrittenLength(sends[..|sends| - 1]); }
  }

  function Refusals(jobs: seq<Job>): (written: seq<Done>)
    ensures JobsOf(written) == jobs
  {
    var written := seq(|jobs|, i requires 0 <= i < |jobs| => Done(jobs[i], Closed));
    assert JobsOf(written) == jobs;
    written
  }

  /******* What every sent batch is *******/

  predicate OneOp(jobs: seq<Job>)
  {
    forall i :: 0 <= i < |jobs| ==> jobs[i].cmd.op == jobs[0].cmd.op
  }

  /** One request: whole commands of one operation, within the limit, each answered. */
  ghost predicate OneRequest(s: Sending, maxBatchSize: nat)
  {
    && s.jobs != [] && HasEvents(s.jobs) && OneOp(s.jobs)
    && TotalEvents(s.jobs) <= maxBatchSize
    && s.events == Flatten(s.jobs)
    && AnswersOf(s.jobs, s.call, s.answers)
  }

  /** A batch cut short of a timer or a stop could not have taken the command that came next. */
  ghost predicate Justified(sends: seq<Sending>, i: nat, received: seq<Job>, maxBatchSize: nat)
    requires i < |sends| && sends[i].jobs != []
  {
    var next := |SentJobs(sends[..i + 1])|;
    match sends[i].cause
    case Full => TotalEvents(sends[i].jobs) == maxBatchSize
    case OpChanged => next < |received| && received[next].cmd.op != sends[i].jobs[0].cmd.op
    case NoRoom =>
      && next < |received| && received[next].cmd.op == sends[i].jobs[0].cmd.op
      && TotalEvents(sends[i].jobs) + |received[next].cmd.events| > maxBatchSize
    case _ => true
  }

  ghost predicate AllSound(sends: seq<Sending>, received: seq<Job>, maxBatchSize: nat, stopped: bool)
  {
    forall i {:trigger sends[i]} :: 0 <= i < |sends| ==>
      && OneRequest(sends[i], maxBatchSize)
      && Justified(sends, i, received, maxBatchSize)
      && (sends[i].call.GaveUp? ==> stopped)
  }

  lemma {:induction false} SoundGrows(sends: seq<Sending>, s: Sending, received: seq<Job>, maxBatchSize: nat,
      stopped: bool)
    requires AllSound(sends, received, maxBatchSize, stopped)
    requires OneRequest(s, maxBatchSize) && Justified(sends + [s], |sends|, received, maxBatchSize)
    ensures AllSound(sends + [s], received, maxBatchSize, stopped || s.call.GaveUp?)
  {
    hide AnswersOf;
    forall i | 0 <= i < |sends| ensures Justified(sends + [s], i, received, maxBatchSize) {
      assert (sends + [s])[i] == sends[i] && (sends + [s])[..i + 1] == sends[..i + 1];
    }
  }

  lemma {:induction false} SoundStays(sends: seq<Sending>, received: seq<Job>, job: Job, maxBatchSize: nat,
      stopped: bool)
    requires AllSound(sends, received, maxBatchSize, stopped)
    ensures AllSound(sends, received + [job], maxBatchSize, stopped)
  {
    hide AnswersOf;
    forall i | 0 <= i < |sends|
      ensures OneRequest(sends[i], maxBatchSize) && Justified(sends, i, received + [job], maxBatchSize)
    {
      assert Justified(sends, i, received, maxBatchSize);
    }
  }

  lemma {:induction false} SoundStopping(sends: seq<Sending>, received: seq<Job>, maxBatchSize: nat, stopped: bool)
    requires AllSound(sends, received, maxBatchSize, stopped)
    ensures AllSound(sends, received, maxBatchSize, true)
  {
    hide AnswersOf;
    forall i | 0 <= i < |sends|
      ensures OneRequest(sends[i], maxBatchSize) && Justified(sends, i, received, maxBatchSize)
    {
    }
  }

  lemma {:induction false} SoundRequests(sends: seq<Sending>, received: seq<Job>, maxBatchSize: nat, stopped: bool)
    requires AllSound(sends, received, maxBatchSize, stopped)
    ensures forall i :: 0 <= i < |sends| ==>
              OneRequest(sends[i], maxBatchSize) && Justified(sends, i, received, maxBatchSize)
  {
  }

  lemma {:induction false} WrittenGrows(sends: seq<Sending>, s: Sending)
    requires Paired(sends) && |s.jobs| == |s.answers|
    ensures Paired(sends + [s])
    ensures Written(sends + [s]) == Written(sends) + Pairs(s.jobs, s.answers)
    ensures SentJobs(sends + [s]) == SentJobs(sends) + s.jobs
  {
  }

  lemma {:induction false} TotalGrows(jobs: seq<Job>, job: Job)
    ensures TotalEvents(jobs + [job]) == TotalEvents(jobs) + |job.cmd.events|
  {
  }

  /******* Where every received command is *******/

  /**
   * In queue order: sent, then in the batch, then refused or in the loop's
   * hands; and the result channels of exactly the sent and the refused ones
   * have been written, once each.
   */
  ghost predicate Accounted(received: seq<Job>, sent: seq<Sending>, batch: seq<Job>, rest: seq<Job>,
                            drained: seq<Job>, done: seq<Done>)
  {
    && received == SentJobs(sent) + batch + rest
    && Paired(sent)
    && done == Written(sent) + Refusals(drained)
  }

  lemma {:induction false} AccountedSend(received: seq<Job>, sent: seq<Sending>, s: Sending, rest: seq<Job>,
      done: seq<Done>)
    requires Accounted(received, sent, s.jobs, rest, [], done) && |s.jobs| == |s.answers|
    ensures Accounted(received, sent + [s], [], rest, [], done + Pairs(s.jobs, s.answers))
    ensures |SentJobs(sent + [s])| + |rest| == |received|
  {
  }

  lemma {:induction false} AccountedTake(received: seq<Job>, sent: seq<Sending>, batch: seq<Job>, job: Job,
      done: seq<Done>)
    requires Accounted(received, sent, batch, [], [], done)
    ensures Accounted(received + [job], sent, batch, [job], [], done)
  {
  }

  lemma {:induction false} AccountedPack(received: seq<Job>, sent: seq<Sending>, batch: seq<Job>, job: Job,
      done: seq<Done>)
    requires Accounted(received, sent, batch, [job], [], done)
    ensures Accounted(received, sent, batch + [job], [], [], done)
  {
  }

  lemma {:induction false} AccountedRefuse(received: seq<Job>, sent: seq<Sending>, job: Job, drained: seq<Job>,
      done: seq<Done>)
    requires Accounted(received, sent, [], drained, drained, done)
    ensures Accounted(received + [job], sent, [], drained + [job], drained + [job], done + [Done(job, Closed)])
  {
  }

  /** The commands answered or refused, in the order their channels were written. */
  lemma {:induction false} WrittenInOrder(sends: seq<Sending>)
    requires Paired(sends)
    ensures JobsOf(Written(sends)) == SentJobs(sends)
  {
    if sends != [] {
      WrittenInOrder(sends[..|sends| - 1]);
      var last := sends[|sends| - 1];
      JobsConcat(Written(sends[..|sends| - 1]), Pairs(last.jobs, last.answers));
    }
  }

  lemma {:induction false} JobsConcat(a: seq<Done>, b: seq<Done>)
    ensures JobsOf(a + b) == JobsOf(a) + JobsOf(b)
  {
  }

  /** What the loop holds between two flushes: one operation's commands, within the limit. */
  ghost predicate Batchable(batch: seq<Job>, op: Op, size: nat, maxBatchSize: nat)
  {
    && HasEvents(batch) && (forall i :: 0 <= i < |batch| ==> batch[i].cmd.op == op)
    && size == TotalEvents(batch) <= maxBatchSize
  }

  lemma {:induction false} BatchableGrows(batch: seq<Job>, op: Op, size: nat, maxBatchSize: nat, job: Job)
    requires Batchable(batch, op, size, maxBatchSize) && (batch == [] || job.cmd.op == op)
    requires size + |job.cmd.events| <= maxBatchSize && Submittable(job.cmd, maxBatchSize)
    ensures Batchable(batch + [job], job.cmd.op, size + |job.cmd.events|, maxBatchSize)
    ensures TotalEvents(batch + [job]) == size + |job.cmd.events|
  {
    TotalGrows(batch, job);
    hide TotalEvents;
  }

  lemma {:induction false} BatchableFacts(batch: seq<Job>, op: Op, size: nat, maxBatchSize: nat)
    requires Batchable(batch, op, size, maxBatchSize)
    ensures HasEvents(batch) && Batchable([], op, 0, maxBatchSize) && (batch == [] ==> size == 0)
  {
  }

  function NonEmpty(jobs: seq<Job>): seq<seq<Job>>
  {
    if jobs == [] then [] else [jobs]
  }

  /** The batches sent, as lists of commands. */
  function JobLists(sends: seq<Sending>): seq<seq<Job>>
  {
    seq(|sends|, i requires 0 <= i < |sends| => sends[i].jobs)
  }

  /** One of the batches sent since was given up, which shows that stop is closed. */
  predicate GaveUpSince(sends: seq<Sending>, n: nat)
  {
    exists i :: n <= i < |sends| && sends[i].call.GaveUp?
  }

  lemma {:induction false} GaveUpLater(a: seq<Sending>, b: seq<Sending>, c: seq<Sending>)
    requires a <= b <= c
    ensures GaveUpSince(b, |a|) || GaveUpSince(c, |b|) ==> GaveUpSince(c, |a|)
  {
    if GaveUpSince(b, |a|) {
      var i :| |a| <= i < |b| && b[i].call.GaveUp?;
      assert c[i] == b[i];
    }
  }

  lemma {:induction false} JobListsGrow(sends: seq<Sending>, s: Sending)
    ensures JobLists(sends + [s]) == JobLists(sends) + [s.jobs]
  {
  }

  lemma {:induction false} AnswersLength(jobs: seq<Job>, call: CallResult, answers: seq<SubmitResult>)
    requires AnswersOf(jobs, call, answers)
    ensures |answers| == |jobs|
  {
  }

  /** Why the loop flushes: `next` is the command it has just taken off the queue. */
  ghost predicate Calls(cause: Cause, batch: seq<Job>, op: Op, size: nat, next: seq<Job>, maxBatchSize: nat)
  {
    match cause
    case Full => size == maxBatchSize
    case OpChanged => batch == [] || (next != [] && next[0].cmd.op != op)
    case NoRoom =>
      batch == [] || (next != [] && next[0].cmd.op == op && size + |next[0].cmd.events| > maxBatchSize)
    case _ => true
  }

  /** Sending the batch moves it, whole, from the loop's hands to what was sent and answered. */
  lemma {:induction false} SendKeeps(received: seq<Job>, sent: seq<Sending>, s: Sending, next: seq<Job>,
      done: seq<Done>,
                  op: Op, size: nat, maxBatchSize: nat, stopped: bool)
    requires Batchable(s.jobs, op, size, maxBatchSize) && s.jobs != []
    requires Accounted(received, sent, s.jobs, next, [], done)
    requires AllSound(sent, received, maxBatchSize, stopped)
    requires s.events == Flatten(s.jobs) && AnswersOf(s.jobs, s.call, s.answers)
    requires Calls(s.cause, s.jobs, op, size, next, maxBatchSize)
    ensures Accounted(received, sent + [s], [], next, [], done + Pairs(s.jobs, s.answers))
    ensures AllSound(sent + [s], received, maxBatchSize, stopped || s.call.GaveUp?)
  {
    AccountedSend(received, sent, s, next, done);
    assert OneRequest(s, maxBatchSize);
    hide AnswersOf, AllSound, OneRequest, TotalEvents, Flatten;
    WrittenGrows(sent, s);
    assert received == SentJobs(sent + [s]) + next;
    assert (sent + [s])[..|sent| + 1] == sent + [s];
    SoundGrows(sent, s, received, maxBatchSize, stopped);
  }

  /** Each batch met the end the outside world had for its call. */
  ghost predicate AsCalled(sends: seq<Sending>, world: nat -> CallResult)
  {
    forall i :: 0 <= i < |sends| ==> sends[i].call == world(i)
  }

  lemma {:induction false} AsCalledGrows(sends: seq<Sending>, s: Sending, world: nat -> CallResult)
    requires AsCalled(sends, world) && s.call == world(|sends|)
    ensures AsCalled(sends + [s], world)
  {
  }

  /******* Where a sequence of inputs cuts the commands *******/

  /** The batches complete so far, and the commands of the one that is not. */
  datatype Cut = Cut(lists: seq<seq<Job>>, open: seq<Job>)

  /** The command can join the open batch: same operation, and room for it. */
  predicate Joins(open: seq<Job>, job: Job, maxBatchSize: nat)
  {
    open == [] || (job.cmd.op == open[0].cmd.op && TotalEvents(open) + |job.cmd.events| <= maxBatchSize)
  }

  /** A command joins the open batch or starts the next one, and a full batch is complete; so is one at a tick. */
  function Feed(c: Cut, input: Input, maxBatchSize: nat): Cut
  {
    match input
    case Receive(job) =>
      var before := if Joins(c.open, job, maxBatchSize) then c.lists else c.lists + [c.open];
      var grown := (if Joins(c.open, job, maxBatchSize) then c.open else []) + [job];
      if TotalEvents(grown) >= maxBatchSize then Cut(before + [grown], []) else Cut(before, grown)
    case Tick => Cut(c.lists + NonEmpty(c.open), [])
    case SignalStop => c
  }

  function CutOf(inputs: seq<Input>, maxBatchSize: nat): Cut
  {
    if inputs == [] then Cut([], [])
    else Feed(CutOf(inputs[..|inputs| - 1], maxBatchSize), inputs[|inputs| - 1], maxBatchSize)
  }

  function Concat(lists: seq<seq<Job>>): seq<Job>
  {
    if lists == [] then [] else Concat(lists[..|lists| - 1]) + lists[|lists| - 1]
  }

  lemma {:induction false} ConcatPlus(lists: seq<seq<Job>>, list: seq<Job>)
    ensures Concat(lists + [list]) == Concat(lists) + list
    ensures Concat(lists + NonEmpty(list)) == Concat(lists) + list
  {
    assert (lists + [list])[..|lists|] == lists;
    if list == [] { assert lists + NonEmpty(list) == lists; }
  }

  lemma {:induction false} SentIsConcat(sends: seq<Sending>)
    ensures Concat(JobLists(sends)) == SentJobs(sends)
  {
    if sends != [] {
      var front := sends[..|sends| - 1];
      SentIsConcat(front);
      JobListsGrow(front, sends[|sends| - 1]);
      assert sends == front + [sends[|sends| - 1]];
      ConcatPlus(JobLists(front), sends[|sends| - 1].jobs);
    }
  }

  /** A cut neither loses, repeats nor reorders a command. */
  lemma {:induction false} CutKeepsAll(inputs: seq<Input>, maxBatchSize: nat)
    ensures Concat(CutOf(inputs, maxBatchSize).lists) + CutOf(inputs, maxBatchSize).open == Received(inputs)
  {
    if inputs != [] {
      var front := inputs[..|inputs| - 1];
      CutKeepsAll(front, maxBatchSize);
      FeedKeepsAll(CutOf(front, maxBatchSize), inputs[|inputs| - 1], maxBatchSize);
      hide Feed;
    }
  }

  lemma {:induction false} FeedKeepsAll(c: Cut, input: Input, maxBatchSize: nat)
    ensures var c' := Feed(c, input, maxBatchSize);
            Concat(c'.lists) + c'.open ==
            Concat(c.lists) + c.open + (match input case Receive(job) => [job] case _ => [])
  {
    hide TotalEvents, Concat;
    ConcatPlus(c.lists, c.open);
    if input.Receive? {
      ConcatPlus(c.lists, c.open + [input.job]);
      ConcatPlus(c.lists + [c.open], [] + [input.job]);
    }
  }

  lemma {:induction false} CutGrows(inputs: seq<Input>, i: nat, maxBatchSize: nat)
    requires i <= |inputs|
    ensures CutOf(inputs[..i], maxBatchSize).lists <= CutOf(inputs, maxBatchSize).lists
    decreases |inputs|
  {
    if i < |inputs| {
      var front := inputs[..|inputs| - 1];
      CutGrows(front, i, maxBatchSize);
      assert front[..i] == inputs[..i];
      hide TotalEvents;
    } else {
      assert inputs[..i] == inputs;
    }
  }

  lemma {:induction false} ConcatGrows(a: seq<seq<Job>>, b: seq<seq<Job>>)
    requires a <= b
    ensures Concat(a) <= Concat(b)
  {
    if |a| < |b| { ConcatGrows(a, b[..|b| - 1]); } else { assert a == b; }
  }

  /** After a tick nothing received before it is still waiting. */
  lemma {:induction false} TickCuts(inputs: seq<Input>, i: nat, maxBatchSize: nat)
    requires i < |inputs| && inputs[i] == Tick
    ensures Received(inputs[..i]) <= Concat(CutOf(inputs, maxBatchSize).lists)
  {
    var c := CutOf(inputs[..i], maxBatchSize);
    CutKeepsAll(inputs[..i], maxBatchSize);
    assert inputs[..i + 1][..i] == inputs[..i];
    assert CutOf(inputs[..i + 1], maxBatchSize) == Feed(c, Tick, maxBatchSize);
    ConcatPlus(c.lists, c.open);
    CutGrows(inputs, i + 1, maxBatchSize);
    ConcatGrows(CutOf(inputs[..i + 1], maxBatchSize).lists, CutOf(inputs, maxBatchSize).lists);
  }

  /** What cuts the commands after the first n: a full batch, a command that cannot join it, or a tick. */
  ghost predicate CutHere(inputs: seq<Input>, list: seq<Job>, n: nat, maxBatchSize: nat)
  {
    || TotalEvents(list) >= maxBatchSize
    || (n < |Received(inputs)| && list != [] &&
        (Received(inputs)[n].cmd.op != list[0].cmd.op ||
         TotalEvents(list) + |Received(inputs)[n].cmd.events| > maxBatchSize))
    || exists i :: 0 <= i < |inputs| && inputs[i] == Tick && |Received(inputs[..i])| == n
  }

  lemma {:induction false} ReceivedStep(inputs: seq<Input>, input: Input)
    ensures Received(inputs + [input]) == Received(inputs) + (match input case Receive(job) => [job] case _ => [])
  {
    assert (inputs + [input])[..|inputs|] == inputs;
  }

  lemma {:induction false} CutHereStays(inputs: seq<Input>, input: Input, list: seq<Job>, n: nat, maxBatchSize: nat)
    requires CutHere(inputs, list, n, maxBatchSize)
    ensures CutHere(inputs + [input], list, n, maxBatchSize)
  {
    ReceivedStep(inputs, input);
    hide TotalEvents, Received;
    if i :| 0 <= i < |inputs| && inputs[i] == Tick && |Received(inputs[..i])| == n {
      assert (inputs + [input])[..i] == inputs[..i] && (inputs + [input])[i] == Tick;
    }
  }

  /** The places where the commands are cut, in order. */
  ghost predicate AllCutsHere(inputs: seq<Input>, lists: seq<seq<Job>>, maxBatchSize: nat)
  {
    forall k :: 0 <= k < |lists| ==> CutHere(inputs, lists[k], |Concat(lists[..k + 1])|, maxBatchSize)
  }

  lemma {:induction false} OneMoreCut(inputs: seq<Input>, lists: seq<seq<Job>>, list: seq<Job>, maxBatchSize: nat)
    requires AllCutsHere(inputs, lists, maxBatchSize)
    requires CutHere(inputs, list, |Concat(lists)| + |list|, maxBatchSize)
    ensures AllCutsHere(inputs, lists + [list], maxBatchSize)
  {
    hide CutHere, Concat;
    forall k | 0 <= k < |lists + [list]|
      ensures CutHere(inputs, (lists + [list])[k], |Concat((lists + [list])[..k + 1])|, maxBatchSize)
    {
      UpToCut(lists, list, k);
    }
  }

  lemma {:induction false} UpToCut(lists: seq<seq<Job>>, list: seq<Job>, k: nat)
    requires k <= |lists|
    ensures if k < |lists| then (lists + [list])[k] == lists[k] && (lists + [list])[..k + 1] == lists[..k + 1]
            else (lists + [list])[k] == list && |Concat((lists + [list])[..k + 1])| == |Concat(lists)| + |list|
  {
    hide Concat;
    ConcatPlus(lists, list);
    if k == |lists| { assert (lists + [list])[..k + 1] == lists + [list]; }
  }

  lemma {:induction false} CutsStay(inputs: seq<Input>, input: Input, lists: seq<seq<Job>>, maxBatchSize: nat)
    requires AllCutsHere(inputs, lists, maxBatchSize)
    ensures AllCutsHere(inputs + [input], lists, maxBatchSize)
  {
    hide CutHere, Concat;
    forall k | 0 <= k < |lists| ensures CutHere(inputs + [input], lists[k], |Concat(lists[..k + 1])|, maxBatchSize) {
      CutHereStays(inputs, input, lists[k], |Concat(lists[..k + 1])|, maxBatchSize);
    }
  }

  /** Nothing else cuts them: every complete batch ends where it is full, or its successor cannot join, or at a tick. */
  lemma {:induction false} CutsOnlyHere(inputs: seq<Input>, maxBatchSize: nat)
    ensures AllCutsHere(inputs, CutOf(inputs, maxBatchSize).lists, maxBatchSize)
  {
    if inputs != [] {
      var front, last := inputs[..|inputs| - 1], inputs[|inputs| - 1];
      CutsOnlyHere(front, maxBatchSize);
      CutKeepsAll(front, maxBatchSize);
      assert inputs == front + [last];
      hide CutOf, AllCutsHere;
      CutsStay(front, last, CutOf(front, maxBatchSize).lists, maxBatchSize);
      FeedCuts(front, last, CutOf(front, maxBatchSize), maxBatchSize);
      CutNext(front, last, maxBatchSize);
    }
  }

  lemma {:induction false} CutNext(front: seq<Input>, last: Input, maxBatchSize: nat)
    ensures CutOf(front + [last], maxBatchSize) == Feed(CutOf(front, maxBatchSize), last, maxBatchSize)
  {
    assert (front + [last])[..|front|] == front;
    hide Feed;
  }

  lemma {:induction false} FeedCuts(inputs: seq<Input>, input: Input, c: Cut, maxBatchSize: nat)
    requires AllCutsHere(inputs + [input], c.lists, maxBatchSize) && Concat(c.lists) + c.open == Received(inputs)
    ensures AllCutsHere(inputs + [input], Feed(c, input, maxBatchSize).lists, maxBatchSize)
  {
    hide TotalEvents, Concat, AllCutsHere, Received;
    ReceivedStep(inputs, input);
    match input {
      case SignalStop =>
      case Tick =>
        assert (inputs + [input])[..|inputs|] == inputs && (inputs + [input])[|inputs|] == Tick;
        if c.open == [] {
          assert c.lists + NonEmpty(c.open) == c.lists;
        } else {
          OneMoreCut(inputs + [input], c.lists, c.open, maxBatchSize);
        }
      case Receive(job) =>
        assert Received(inputs + [input])[|Received(inputs)|] == job;
        ConcatPlus(c.lists, c.open);
        if Joins(c.open, job, maxBatchSize) {
          if TotalEvents(c.open + [job]) >= maxBatchSize {
            OneMoreCut(inputs + [input], c.lists, c.open + [job], maxBatchSize);
          }
        } else {
          OneMoreCut(inputs + [input], c.lists, c.open, maxBatchSize);
          if TotalEvents([] + [job]) >= maxBatchSize {
            OneMoreCut(inputs + [input], c.lists + [c.open], [] + [job], maxBatchSize);
          }
        }
    }
  }

  class Worker {
    const maxBatchSize: nat
    const world: nat -> CallResult

    // The loop's own variables; the linger timer is armed or not.
    var batch: seq<Job>
    var size: nat
    var op: Op
    var armed: bool

    // What the outside sees.
    var stopped: bool
    var exited: bool
    var received: seq<Job>
    var sent: seq<Sending>
    var drained: seq<Job>
    var done: seq<Done>

    /** `next` has been taken off the queue but is not in the batch yet. */
    ghost predicate Holding(next: seq<Job>)
      reads this
    {
      && 0 < maxBatchSize
      && (exited ==> stopped && batch == [])
      && Batchable(batch, op, size, maxBatchSize)
      && Accounted(received, sent, batch, drained + next, drained, done)
      && AllSound(sent, received, maxBatchSize, stopped)
      && AsCalled(sent, world)
    }

    /** Between iterations of the loop. */
    ghost predicate Valid()
      reads this
    {
      && Holding([])
      && (!exited ==> drained == [])
      && size < maxBatchSize
      && (armed <==> batch != [])
    }

    constructor (maxBatchSize: nat, world: nat -> CallResult)
      requires 0 < maxBatchSize
      ensures Valid() && !stopped && !exited
      ensures this.maxBatchSize == maxBatchSize && this.world == world
      ensures received == [] && sent == [] && done == [] && batch == []
    {
      this.maxBatchSize, this.world := maxBatchSize, world;
      batch, size, op, armed := [], 0, CreateTransfers, false;
      stopped, exited := false, false;
      received, sent, drained, done := [], [], [], [];
    }

    /** Send the batch, if there is one, as the next call ends. */
    method Flush(cause: Cause, ghost next: seq<Job>)
      requires Holding(next) && !exited && drained == []
      requires Calls(cause, batch, op, size, next, maxBatchSize)
      modifies this`batch, this`size, this`armed, this`stopped, this`sent, this`done
      ensures Holding(next) && batch == [] && size == 0
      ensures armed == (old(armed) && old(batch) == [])
      ensures old(sent) <= sent
      ensures JobLists(sent) == JobLists(old(sent)) + NonEmpty(old(batch))
      ensures sent == old(sent) ==> stopped == old(stopped)
      ensures sent != old(sent) ==>
                && sent[|old(sent)|].cause == cause && sent[|old(sent)|].call == world(|old(sent)|)
                && stopped == (old(stopped) || world(|old(sent)|).GaveUp?)
      ensures stopped ==> old(stopped) || GaveUpSince(sent, |old(sent)|)
    {
      hide AsCalled, AllSound, AnswersOf, Accounted, Calls, Batchable, TotalEvents, Flatten, HasEvents, Pairs, Paired;
      hide JobLists;
      BatchableFacts(batch, op, size, maxBatchSize);
      if batch == [] { return; }
      armed := false;
      var call := world(|sent|);
      var events, answers := SendBatch(batch, call);
      AnswersLength(batch, call, answers);
      var s := Sending(batch, events, call, answers, cause);
      assert [] + next == next;
      SendKeeps(received, sent, s, next, done, op, size, maxBatchSize, stopped);
      JobListsGrow(sent, s);
      AsCalledGrows(sent, s, world);
      done := done + Pairs(batch, answers);
      sent := sent + [s];
      stopped := stopped || call.GaveUp?;
      batch, size := [], 0;
    }

    /** The batch in the loop's hands must be sent before it can take this command. */
    ghost predicate MustFlush(job: Job)
      reads this
    {
      batch != [] && (job.cmd.op != op || size + |job.cmd.events| > maxBatchSize)
    }

    /** The two flushes that make room for a command just taken off the queue. */
    method MakeRoom(job: Job)
      requires Holding([job]) && !exited && drained == [] && Submittable(job.cmd, maxBatchSize)
      requires armed <==> batch != []
      modifies this`batch, this`size, this`armed, this`stopped, this`sent, this`done
      ensures Holding([job]) && size + |job.cmd.events| <= maxBatchSize && (batch == [] || job.cmd.op == op)
      ensures armed <==> batch != []
      ensures batch == (if old(MustFlush(job)) then [] else old(batch))
      ensures JobLists(sent) == JobLists(old(sent)) + (if old(MustFlush(job)) then [old(batch)] else [])
      ensures old(sent) <= sent && (old(stopped) ==> stopped)
      ensures stopped ==> old(stopped) || GaveUpSince(sent, |old(sent)|)
    {
      hide AsCalled, AllSound, Accounted, Batchable, JobLists;
      BatchableFacts(batch, op, size, maxBatchSize);
      if batch != [] && job.cmd.op != op {
        Flush(OpChanged, [job]);
      }
      if size + |job.cmd.events| > maxBatchSize {
        Flush(NoRoom, [job]);
      }
    }

    /** The command joins the batch, which has room for it. */
    method Pack(job: Job)
      requires Holding([job]) && !exited && drained == [] && Submittable(job.cmd, maxBatchSize)
      requires size + |job.cmd.events| <= maxBatchSize && (batch == [] || job.cmd.op == op)
      modifies this`batch, this`size, this`op
      ensures Holding([]) && batch == old(batch) + [job] && size == TotalEvents(batch) <= maxBatchSize
    {
      hide AsCalled, AllSound, Accounted, Batchable, TotalEvents, Submittable;
      assert drained + [job] == [job] && drained + [] == [];
      BatchableGrows(batch, op, size, maxBatchSize, job);
      AccountedPack(received, sent, batch, job, done);
      op := job.cmd.op;
      batch := batch + [job];
      size := size + |job.cmd.events|;
    }

    /** case j := <-b.queue */
    method OnJob(job: Job)
      requires Valid() && !exited && Submittable(job.cmd, maxBatchSize)
      modifies this
      ensures Valid() && !exited && received == old(received) + [job]
      ensures var base := if old(MustFlush(job)) then [] else old(batch);
              var early := if old(MustFlush(job)) then [old(batch)] else [];
              if TotalEvents(base + [job]) == maxBatchSize
              then batch == [] && JobLists(sent) == JobLists(old(sent)) + early + [base + [job]]
              else batch == base + [job] && JobLists(sent) == JobLists(old(sent)) + early
      ensures old(sent) <= sent && (old(stopped) ==> stopped)
      ensures stopped ==> old(stopped) || GaveUpSince(sent, |old(sent)|)
    {
      hide AsCalled, AllSound, Accounted, Batchable, JobLists, TotalEvents, GaveUpSince, Submittable;
      SoundStays(sent, received, job, maxBatchSize, stopped);
      assert drained + [job] == [job] && drained + [] == [];
      AccountedTake(received, sent, batch, job, done);
      received := received + [job];
      MakeRoom(job);
      ghost var roomy := sent;
      Pack(job);
      if size >= maxBatchSize {
        Flush(Full, []);
        GaveUpLater(old(sent), roomy, sent);
        return;
      }
      if !armed {
        armed := true;
      }
    }

    /** case <-tick: it fires only while the timer is armed. */
    method OnTick()
      requires Valid() && !exited && armed
      modifies this
      ensures Valid() && !exited && received == old(received) && batch == []
      ensures JobLists(sent) == JobLists(old(sent)) + [old(batch)]
      ensures old(sent) <= sent && (old(stopped) ==> stopped)
      ensures stopped ==> old(stopped) || GaveUpSince(sent, |old(sent)|)
    {
      hide AsCalled, AllSound, Accounted, Batchable, JobLists;
      Flush(Linger, []);
    }

    /** One command taken off the queue by drain, and refused. */
    method Refuse(job: Job)
      requires Holding([]) && batch == [] && stopped
      modifies this`received, this`drained, this`done
      ensures Holding([]) && received == old(received) + [job] && drained == old(drained) + [job]
    {
      hide AsCalled, AllSound, Batchable, Accounted;
      assert drained + [] == drained && drained + [job] + [] == drained + [job];
      SoundStays(sent, received, job, maxBatchSize, stopped);
      AccountedRefuse(received, sent, job, drained, done);
      received := received + [job];
      drained := drained + [job];
      done := done + [Done(job, Closed)];
    }

    /** case <-b.stop: send what has accumulated, refuse what is still queued, and leave. */
    method OnStop(queue: seq<Job>)
      requires Valid() && !exited && stopped
      modifies this
      ensures Valid() && exited && received == old(received) + queue && drained == queue && batch == []
      ensures JobLists(sent) == JobLists(old(sent)) + NonEmpty(old(batch))
      ensures old(sent) <= sent
    {
      hide AsCalled, AllSound, Accounted, Batchable, JobLists;
      Flush(Stopping, []);
      for i := 0 to |queue|
        invariant Holding([]) && batch == [] && size == 0 && !armed && stopped && !exited
        invariant drained == queue[..i] && received == old(received) + drained
        invariant JobLists(sent) == JobLists(old(sent)) + NonEmpty(old(batch)) && old(sent) <= sent
      {
        Refuse(queue[i]);
      }
      exited := true;
    }

    /** The signal may arrive at any time, from Close or from a cancelled context. */
    method OnSignal()
      requires Valid() && !exited
      modifies this`stopped
      ensures Valid() && !exited && stopped
    {
      hide AsCalled, AllSound, Accounted, Batchable;
      SoundStopping(sent, received, maxBatchSize, stopped);
      stopped := true;
    }

    /** One turn of the loop, whatever the select picks but the stop branch. */
    method Take(input: Input)
      requires Valid() && !exited && (input.Receive? ==> Submittable(input.job.cmd, maxBatchSize))
      modifies this
      ensures Valid() && !exited
      ensures received == old(received) + (match input case Receive(job) => [job] case _ => [])
      ensures Cut(JobLists(sent), batch) == Feed(Cut(JobLists(old(sent)), old(batch)), input, maxBatchSize)
      ensures (old(stopped) ==> stopped) && (input == SignalStop ==> stopped)
    {
      hide AsCalled, AllSound, Accounted, Batchable, JobLists, TotalEvents, Submittable, Joins;
      match input {
        case Receive(job) =>
          MustFlushMeans(this, job);
          JoinsNothing(job, maxBatchSize);
          OnJob(job);
          BatchIsOpen(this);
        case Tick =>
          if armed {
            OnTick();
          } else {
            assert JobLists(sent) + [] == JobLists(sent);
          }
        case SignalStop => OnSignal();
      }
    }

    /** A whole life of the loop, ending in the stop branch if stop has been signalled by then. */
    method Run(inputs: seq<Input>, queue: seq<Job>)
      requires Valid() && !exited && received == []
      requires forall i :: 0 <= i < |inputs| && inputs[i].Receive? ==> Submittable(inputs[i].job.cmd, maxBatchSize)
      modifies this
      ensures Valid()
      ensures exited == stopped && drained == (if exited then queue else [])
      ensures received == Received(inputs) + drained
      ensures SignalStop in inputs ==> exited
      ensures armed <==> batch != []
      ensures forall i :: 0 <= i < |sent| ==>
                OneRequest(sent[i], maxBatchSize) && Justified(sent, i, received, maxBatchSize)
      ensures forall i :: 0 <= i < |sent| ==> sent[i].call == world(i)
      ensures JobLists(sent) ==
              CutOf(inputs, maxBatchSize).lists +
              (if exited then NonEmpty(CutOf(inputs, maxBatchSize).open) else [])
      ensures batch == if exited then [] else CutOf(inputs, maxBatchSize).open
      ensures forall i :: 0 <= i < |inputs| && inputs[i] == Tick ==> Received(inputs[..i]) <= SentJobs(sent)
      ensures JobsOf(done) + batch == received
      ensures forall k, i :: 0 <= k < |sent| && 0 <= i < |sent[k].jobs| ==> ToldInTurn(done, sent, k, i)
      ensures forall i :: |SentJobs(sent)| <= i < |done| ==> done[i].result == Closed
      ensures Subsequence(Applied(sent), received)
      ensures !exited ==> Applied(sent) + batch == Received(inputs)
    {
      hide AsCalled, AllSound, Accounted, Batchable, JobLists, OneRequest, Justified, Subsequence, Applied;
      hide CutOf, Feed, Received, ToldInTurn, SentJobs;
      NothingYet(this);
      for i := 0 to |inputs|
        invariant Valid() && !exited && received == Received(inputs[..i])
        invariant SignalStop in inputs[..i] ==> stopped
        invariant Cut(JobLists(sent), batch) == CutOf(inputs[..i], maxBatchSize)
      {
        assert inputs[..i + 1] == inputs[..i] + [inputs[i]];
        ReceivedStep(inputs[..i], inputs[i]);
        CutNext(inputs[..i], inputs[i], maxBatchSize);
        Take(inputs[i]);
      }
      assert inputs[..|inputs|] == inputs;
      ghost var before := sent;
      if stopped { OnStop(queue); }
      TicksSend(inputs, before, sent, maxBatchSize);
      SoundRequests(sent, received, maxBatchSize, stopped);
      MetTheirEnds(sent, world);
      AllTold(this);
      QueueOrder(this);
    }
  }

  /** Everybody in a batch is told that batch's answer, and everybody after the batches that the batcher is closed. */
  lemma {:induction false} AllTold(w: Worker)
    requires w.Valid()
    ensures forall k, i :: 0 <= k < |w.sent| && 0 <= i < |w.sent[k].jobs| ==> ToldInTurn(w.done, w.sent, k, i)
    ensures forall i :: |SentJobs(w.sent)| <= i < |w.done| ==> w.done[i].result == Closed
  {
    hide AllSound, Batchable, AsCalled, ToldInTurn, Written, SentJobs;
    WrittenLength(w.sent);
    forall k, i | 0 <= k < |w.sent| && 0 <= i < |w.sent[k].jobs| ensures ToldInTurn(w.done, w.sent, k, i) {
      WrittenInTurn(w.sent, Refusals(w.drained), k, i);
    }
    assert w.done == Written(w.sent) + Refusals(w.drained);
  }

  /** A worker that has received nothing has sent nothing. */
  lemma {:induction false} NothingYet(w: Worker)
    requires w.Valid() && w.received == []
    ensures w.batch == [] && w.sent == [] && Cut(JobLists(w.sent), w.batch) == CutOf([], w.maxBatchSize)
    ensures Received([]) == []
  {
    SentSomething(w.sent, w.maxBatchSize);
    hide SentJobs, OneRequest;
  }

  lemma {:induction false} SentSomething(sends: seq<Sending>, maxBatchSize: nat)
    requires forall i :: 0 <= i < |sends| ==> OneRequest(sends[i], maxBatchSize)
    ensures sends != [] ==> SentJobs(sends) != []
  {
    if sends != [] { assert sends[|sends| - 1].jobs != []; }
  }

  lemma {:induction false} TicksSend(inputs: seq<Input>, before: seq<Sending>, after: seq<Sending>, maxBatchSize: nat)
    requires before <= after && JobLists(before) == CutOf(inputs, maxBatchSize).lists
    ensures forall i :: 0 <= i < |inputs| && inputs[i] == Tick ==> Received(inputs[..i]) <= SentJobs(after)
  {
    hide JobLists, CutOf, Concat, SentJobs, Received;
    SentIsConcat(after);
    JobListsPrefix(before, after);
    ConcatGrows(JobLists(before), JobLists(after));
    forall i | 0 <= i < |inputs| && inputs[i] == Tick ensures Received(inputs[..i]) <= SentJobs(after) {
      TickCuts(inputs, i, maxBatchSize);
    }
  }

  lemma {:induction false} JobListsPrefix(a: seq<Sending>, b: seq<Sending>)
    requires a <= b
    ensures JobLists(a) <= JobLists(b)
  {
  }

  /** What the two flushes decide on is whether the command can join. */
  lemma {:induction false} MustFlushMeans(w: Worker, job: Job)
    requires w.Valid()
    ensures w.MustFlush(job) <==> w.batch != [] && !Joins(w.batch, job, w.maxBatchSize)
  {
    hide TotalEvents, AllSound, Accounted;
  }

  lemma {:induction false} JoinsNothing(job: Job, maxBatchSize: nat)
    ensures Joins([], job, maxBatchSize)
  {
  }

  lemma {:induction false} BatchIsOpen(w: Worker)
    requires w.Valid()
    ensures TotalEvents(w.batch) < w.maxBatchSize
  {
    hide TotalEvents, AllSound, Accounted;
  }

  lemma {:induction false} MetTheirEnds(sends: seq<Sending>, world: nat -> CallResult)
    requires AsCalled(sends, world)
    ensures forall i :: 0 <= i < |sends| ==> sends[i].call == world(i)
  {
  }

  function Received(inputs: seq<Input>): seq<Job>
  {
    if inputs == [] then []
    else
      Received(inputs[..|inputs| - 1]) +
      match inputs[|inputs| - 1] case Receive(job) => [job] case _ => []
  }

  /******* What the outside sees, at any point between iterations *******/

  /** `a` is `b` with commands left out: nothing added, repeated or reordered. */
  predicate Subsequence(a: seq<Job>, b: seq<Job>)
  {
    a == [] ||
    (b != [] &&
     (Subsequence(a, b[..|b| - 1]) ||
      (a[|a| - 1] == b[|b| - 1] && Subsequence(a[..|a| - 1], b[..|b| - 1]))))
  }

  lemma {:induction false} SubsequenceSkip(a: seq<Job>, b: seq<Job>, c: seq<Job>)
    requires Subsequence(a, b)
    ensures Subsequence(a, b + c)
  {
    if c == [] {
      assert b + c == b;
    } else {
      SubsequenceSkip(a, b, c[..|c| - 1]);
      assert (b + c)[..|b + c| - 1] == b + c[..|c| - 1];
    }
  }

  lemma {:induction false} SubsequenceKeep(a: seq<Job>, b: seq<Job>, c: seq<Job>)
    requires Subsequence(a, b)
    ensures Subsequence(a + c, b + c)
  {
    if c == [] {
      assert a + c == a && b + c == b;
    } else {
      SubsequenceKeep(a, b, c[..|c| - 1]);
      assert (a + c)[..|a + c| - 1] == a + c[..|c| - 1];
      assert (b + c)[..|b + c| - 1] == b + c[..|c| - 1];
    }
  }

  lemma {:induction false} SubsequenceCounts(a: seq<Job>, b: seq<Job>)
    requires Subsequence(a, b)
    ensures multiset(a) <= multiset(b)
  {
    if a != [] {
      var front := b[..|b| - 1];
      assert b == front + [b[|b| - 1]];
      if Subsequence(a, front) {
        SubsequenceCounts(a, front);
      } else {
        SubsequenceCounts(a[..|a| - 1], front);
        assert a == a[..|a| - 1] + [a[|a| - 1]];
      }
    }
  }

  lemma {:induction false} AppliedIsSubsequence(sends: seq<Sending>)
    ensures Subsequence(Applied(sends), SentJobs(sends))
  {
    if sends != [] {
      var front, last := sends[..|sends| - 1], sends[|sends| - 1];
      AppliedIsSubsequence(front);
      if last.call.Answered? {
        SubsequenceKeep(Applied(front), SentJobs(front), last.jobs);
      } else {
        SubsequenceSkip(Applied(front), SentJobs(front), last.jobs);
        assert Applied(sends) == Applied(front);
      }
    }
  }

  lemma {:induction false} AllAnswered(sends: seq<Sending>)
    requires forall i :: 0 <= i < |sends| ==> sends[i].call.Answered?
    ensures Applied(sends) == SentJobs(sends)
  {
    if sends != [] { AllAnswered(sends[..|sends| - 1]); }
  }

  lemma {:induction false} OrderOf(received: seq<Job>, sent: seq<Sending>, batch: seq<Job>, drained: seq<Job>,
      done: seq<Done>)
    requires Accounted(received, sent, batch, drained, drained, done) && (batch == [] || drained == [])
    ensures Subsequence(Applied(sent), received)
    ensures SentJobs(sent) + batch + drained == received
    ensures JobsOf(done) + batch == received
  {
    AppliedIsSubsequence(sent);
    SubsequenceSkip(Applied(sent), SentJobs(sent), batch + drained);
    assert received == SentJobs(sent) + (batch + drained);
    WrittenInOrder(sent);
    JobsConcat(Written(sent), Refusals(drained));
  }

  /**
   * Whatever is picked and whenever stop closes: what TigerBeetle has applied
   * is taken from the queue in its order and no command more often than it was
   * queued; while stop is open nothing has been passed over; and every command
   * taken off the queue is in the batch or has been answered, once.
   */
  lemma {:induction false} QueueOrder(w: Worker)
    requires w.Valid()
    ensures Subsequence(Applied(w.sent), w.received)
    ensures multiset(Applied(w.sent)) <= multiset(w.received)
    ensures !w.stopped ==> Applied(w.sent) + w.batch == w.received
    ensures JobsOf(w.done) + w.batch == w.received
  {
    hide OneRequest, Justified, Batchable, Accounted, Subsequence, SentJobs, Applied;
    assert w.drained + [] == w.drained;
    OrderOf(w.received, w.sent, w.batch, w.drained, w.done);
    SubsequenceCounts(Applied(w.sent), w.received);
    if !w.stopped { AllAnswered(w.sent); }
  }

  predicate EveryAnswered(sends: seq<Sending>)
  {
    forall i :: 0 <= i < |sends| ==> sends[i].call.Answered?
  }

  lemma {:induction false} SendsNext(sends: seq<Sending>)
    requires sends != []
    ensures var front, last := sends[..|sends| - 1], sends[|sends| - 1];
            && SentJobs(sends) == SentJobs(front) + last.jobs
            && Applied(sends) == (if last.call.Answered? then Applied(front) + last.jobs else Applied(front))
            && EveryAnswered(sends) == (EveryAnswered(front) && last.call.Answered?)
  {
    hide SentJobs, Applied;
    var front := sends[..|sends| - 1];
    SentNext(sends);
    assert forall i :: 0 <= i < |front| ==> front[i] == sends[i];
  }

  lemma {:induction false} SentNext(sends: seq<Sending>)
    requires sends != []
    ensures var front, last := sends[..|sends| - 1], sends[|sends| - 1];
            && SentJobs(sends) == SentJobs(front) + last.jobs
            && Applied(sends) == Applied(front) + (if last.call.Answered? then last.jobs else [])
  {
  }

  lemma {:induction false} AppliedLength(sends: seq<Sending>)
    requires forall i :: 0 <= i < |sends| ==> sends[i].jobs != []
    ensures |Applied(sends)| <= |SentJobs(sends)|
    ensures Applied(sends) == SentJobs(sends) <==> EveryAnswered(sends)
    ensures |Applied(sends)| == |SentJobs(sends)| ==> EveryAnswered(sends)
  {
    NothingSent();
    hide SentJobs, Applied, EveryAnswered;
    if sends != [] {
      AppliedLength(sends[..|sends| - 1]);
      SendsNext(sends);
    }
  }

  lemma {:induction false} NothingSent()
    ensures SentJobs([]) == [] && Applied([]) == [] && EveryAnswered([]) && NoneAnsweredAfterGivingUp([])
  {
  }

  predicate Distinct(jobs: seq<Job>)
  {
    forall i, j :: 0 <= i < j < |jobs| ==> jobs[i] != jobs[j]
  }

  predicate NoneAnsweredAfterGivingUp(sends: seq<Sending>)
  {
    forall i, j :: 0 <= i < j < |sends| && sends[i].call.GaveUp? ==> sends[j].call.GaveUp?
  }

  /**
   * Once a call has given up, the applied commands need not be a prefix of
   * those sent: they are one exactly if no later batch is answered.
   */
  lemma {:induction false} PrefixExactly(sends: seq<Sending>)
    requires forall i :: 0 <= i < |sends| ==> sends[i].jobs != []
    requires Distinct(SentJobs(sends))
    ensures Applied(sends) <= SentJobs(sends) <==> NoneAnsweredAfterGivingUp(sends)
  {
    NothingSent();
    hide SentJobs, Applied, EveryAnswered, NoneAnsweredAfterGivingUp, Distinct;
    if sends != [] {
      var front, last := sends[..|sends| - 1], sends[|sends| - 1];
      SendsNext(sends);
      GivingUpNext(sends);
      DistinctFront(SentJobs(front), last.jobs);
      PrefixExactly(front);
      AppliedLength(front);
      if last.call.Answered? {
        AppendIsPrefix(Applied(front), SentJobs(front), last.jobs);
      } else {
        ShorterPrefix(Applied(front), SentJobs(front), last.jobs);
      }
    }
  }

  lemma {:induction false} GivingUpNext(sends: seq<Sending>)
    requires sends != []
    ensures var front, last := sends[..|sends| - 1], sends[|sends| - 1];
            && NoneAnsweredAfterGivingUp(sends) ==
               (NoneAnsweredAfterGivingUp(front) && (last.call.Answered? ==> EveryAnswered(front)))
            && (EveryAnswered(front) ==> NoneAnsweredAfterGivingUp(front))
  {
    var front := sends[..|sends| - 1];
    if NoneAnsweredAfterGivingUp(sends) && sends[|sends| - 1].call.Answered? {
      forall i | 0 <= i < |front| ensures front[i].call.Answered? { assert front[i] == sends[i]; }
    }
  }

  lemma {:induction false} DistinctFront(a: seq<Job>, b: seq<Job>)
    requires Distinct(a + b)
    ensures Distinct(a)
  {
    forall i, j | 0 <= i < j < |a| ensures a[i] != a[j] {
      assert (a + b)[i] == a[i] && (a + b)[j] == a[j];
    }
  }

  lemma {:induction false} ShorterPrefix(a: seq<Job>, b: seq<Job>, c: seq<Job>)
    requires |a| <= |b|
    ensures a <= b + c <==> a <= b
  {
  }

  lemma {:induction false} AppendIsPrefix(a: seq<Job>, b: seq<Job>, c: seq<Job>)
    requires |a| <= |b| && c != [] && Distinct(b + c)
    ensures a + c <= b + c <==> a == b
  {
    if |a| < |b| {
      var p, q := a + c, b + c;
      assert p[|a|] == c[0] == q[|b|] && q[|a|] != q[|b|];
    }
    if a + c <= b + c && |a| == |b| {
      assert a == (a + c)[..|a|] == (b + c)[..|a|] == b;
    }
  }

  lemma {:induction false} OneCommand(job: Job)
    ensures TotalEvents([] + [job]) == |job.cmd.events|
  {
    assert ([] + [job])[..0] == [];
  }

  lemma {:induction false} TwoBatches(sends: seq<Sending>, a: Job, b: Job)
    requires JobLists(sends) == [[a], [b]] && sends[0].call.GaveUp? && sends[1].call.Answered?
    ensures SentJobs(sends) == [a, b] && Applied(sends) == [b]
  {
    OneBatch(sends[0]);
    assert sends[0].jobs == JobLists(sends)[0] && sends[1].jobs == JobLists(sends)[1];
    assert sends[..|sends| - 1] == [sends[0]];
  }

  lemma {:induction false} OneBatch(s: Sending)
    ensures SentJobs([s]) == s.jobs && (s.call.GaveUp? ==> Applied([s]) == [])
  {
    assert [s][..0] == [];
  }

  lemma {:induction false} GivingUpStops(w: Worker)
    requires w.Valid() && |JobLists(w.sent)| > 0 && w.world(0).GaveUp?
    ensures w.stopped
  {
    assert w.sent[0].call == w.world(0);
  }

  /**
   * A command overtaken by a later one: the call for `a`, made because `b` is
   * of another operation, gives up as stop closes; the stop branch then sends
   * `b`, and that call is answered.  What is applied is not a prefix of what
   * was sent.
   */
  method Overtaken(maxBatchSize: nat, a: Job, b: Job, replies: seq<Reply>) returns (w: Worker)
    requires Submittable(a.cmd, maxBatchSize) && |a.cmd.events| < maxBatchSize
    requires Submittable(b.cmd, maxBatchSize) && |b.cmd.events| < maxBatchSize
    requires a.cmd.op != b.cmd.op
    ensures fresh(w) && w.Valid() && w.exited && w.received == [a, b]
    ensures SentJobs(w.sent) == [a, b] && Applied(w.sent) == [b]
    ensures !(Applied(w.sent) <= SentJobs(w.sent))
  {
    hide AllSound, Batchable, Accounted, AsCalled, TotalEvents, SentJobs, Applied;
    w := new Worker(maxBatchSize, n => if n == 0 then GaveUp else Answered(replies));
    OneCommand(a);
    OneCommand(b);
    w.OnJob(a);
    assert w.batch == [a] && JobLists(w.sent) == [];
    assert w.op == a.cmd.op by { OpOf(w); }
    w.OnJob(b);
    assert JobLists(w.sent) == [[a]] && w.batch == [b];
    GivingUpStops(w);
    w.OnStop([]);
    assert JobLists(w.sent) == [[a], [b]];
    TwoCalls(w);
    TwoBatches(w.sent, a, b);
    assert [b][0] != [a, b][0];
  }

  lemma {:induction false} OpOf(w: Worker)
    requires w.Valid() && w.batch != []
    ensures w.op == w.batch[0].cmd.op
  {
  }

  lemma {:induction false} TwoCalls(w: Worker)
    requires w.Valid() && |JobLists(w.sent)| == 2
    ensures |w.sent| == 2 && w.sent[0].call == w.world(0) && w.sent[1].call == w.world(1)
  {
  }
}
