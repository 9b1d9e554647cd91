/**
 * The worker of module Packing on the machine of module Shutdown
 * (internal/tbx/batcher.go: loop).
 *
 * Each method here takes one turn of the worker and carries, as a ghost, the
 * run of the shutdown machine that the turn performs: the worker takes
 * commands, sends batches, answers and drains only by moves of the machine's
 * loop, so what is proved of every run of the machine holds of it.
 */
module BatcherRuns {
  import opened Options
  import opened Send
  import opened Packing
  import S = Shutdown

  /** The state a run from s0 ends in, if each of its steps is enabled. */
  ghost function Follow(maxQueue: nat, s0: S.State, steps: seq<S.Step>): Option<S.State>
  {
    if steps == [] then Some(s0)
    else
      match Follow(maxQueue, s0, steps[..|steps| - 1])
      case None => None
      case Some(s) =>
        var step := steps[|steps| - 1];
        if S.Enabled(s, step, maxQueue) then Some(S.Apply(s, step, maxQueue)) else None
  }

  ghost predicate Inv(s: S.State)
  {
    S.Ordered(s) && forall j :: S.Fine(s, j)
  }

  lemma {:induction false} FollowStep(maxQueue: nat, s0: S.State, steps: seq<S.Step>, s: S.State, step: S.Step)
    requires Follow(maxQueue, s0, steps) == Some(s) && S.Enabled(s, step, maxQueue) && Inv(s)
    ensures Follow(maxQueue, s0, steps + [step]) == Some(S.Apply(s, step, maxQueue))
    ensures Inv(S.Apply(s, step, maxQueue))
  {
    assert (steps + [step])[..|steps|] == steps;
    hide S.Ordered, S.Fine, S.Enabled, S.Apply;
    S.FineKeeps(s, step, 0, maxQueue);
    forall j ensures S.Fine(S.Apply(s, step, maxQueue), j) { S.FineKeeps(s, step, j, maxQueue); }
  }

  /******* Answering a batch *******/

  /** Only the channels of these commands have been written, each with this result. */
  ghost predicate Answered(s: S.State, s': S.State, ids: seq<S.JobId>, r: S.Result)
  {
    && s'.clients.Keys == s.clients.Keys
    && (forall j :: j in s.clients && j !in ids ==> s'.clients[j] == s.clients[j])
    && (forall j :: j in ids ==> j in s.clients && s'.clients[j] == s.clients[j].(written := [r]))
  }

  /** A command in the loop's hands has not been answered, and its channel has room. */
  lemma {:induction false} InHand(s: S.State, j: S.JobId)
    requires Inv(s) && S.Places(s, j) > 0
    ensures j in s.clients && s.clients[j].written == [] && S.Room(s, j)
  {
    assert S.Fine(s, j);
  }

  lemma {:induction false} FirstInHand(s: S.State)
    requires Inv(s)
    ensures s.loop.batch != [] ==> s.loop.batch[0] in s.clients && S.Room(s, s.loop.batch[0]) &&
                                   s.clients[s.loop.batch[0]].written == [] && s.loop.batch[0] !in s.loop.batch[1..]
    ensures s.loop.held != [] ==> s.loop.held[0] in s.clients && S.Room(s, s.loop.held[0]) &&
                                  s.clients[s.loop.held[0]].written == []
  {
    S.HeldHasAPlace(s);
    if s.loop.batch != [] {
      var j := s.loop.batch[0];
      assert S.Fine(s, j);
      S.QueueCounts(s.loop.batch, j, j);
      S.QueueCounts(s.loop.batch[1..], j, j);
      hide S.Count;
      InHand(s, j);
    }
    if s.loop.held != [] { InHand(s, s.loop.held[0]); }
  }

  lemma {:induction false} Deliveries(maxQueue: nat, s0: S.State, before: seq<S.Step>, s: S.State)
    returns (steps: seq<S.Step>, s': S.State)
    requires Follow(maxQueue, s0, before) == Some(s) && Inv(s) && s.loop.phase.Delivering?
    ensures Follow(maxQueue, s0, steps) == Some(s') && Inv(s')
    ensures s' == s.(clients := s'.clients, loop := s.loop.(batch := []))
    ensures Answered(s, s', s.loop.batch, s.loop.phase.result)
    decreases |s.loop.batch|
  {
    hide Follow, Inv, Answered, S.Room, S.Ordered, S.Fine;
    NobodyAnswered(s, s.loop.phase.result);
    if s.loop.batch == [] {
      steps, s' := before, s;
    } else {
      var step := S.ByLoop(S.Deliver);
      FirstInHand(s);
      FollowStep(maxQueue, s0, before, s, step);
      var s1 := S.Apply(s, step, maxQueue);
      FirstAnswered(s, s1, maxQueue);
      steps, s' := Deliveries(maxQueue, s0, before + [step], s1);
      AnsweredRest(s, s1, s', s.loop.batch, s.loop.phase.result);
    }
  }

  lemma {:induction false} NobodyAnswered(s: S.State, r: S.Result)
    ensures Answered(s, s, [], r)
  {
  }

  lemma {:induction false} FirstAnswered(s: S.State, s1: S.State, maxQueue: nat)
    requires Inv(s) && s.loop.phase.Delivering? && s.loop.batch != []
    requires S.Enabled(s, S.ByLoop(S.Deliver), maxQueue) && s1 == S.Apply(s, S.ByLoop(S.Deliver), maxQueue)
    ensures Answered(s, s1, [s.loop.batch[0]], s.loop.phase.result)
    ensures s1 == s.(clients := s1.clients, loop := s.loop.(batch := s.loop.batch[1..]))
    ensures s.loop.batch[0] !in s.loop.batch[1..]
  {
    FirstInHand(s);
    hide Inv, S.Room;
  }

  lemma {:induction false} AnsweredRest(s: S.State, s1: S.State, s2: S.State, ids: seq<S.JobId>, r: S.Result)
    requires ids != [] && ids[0] !in ids[1..]
    requires Answered(s, s1, [ids[0]], r) && Answered(s1, s2, ids[1..], r)
    ensures Answered(s, s2, ids, r)
  {
    assert ids == [ids[0]] + ids[1..];
  }

  /******* Sending a batch *******/

  function Ids(jobs: seq<Job>): seq<S.JobId>
  {
    seq(|jobs|, i requires 0 <= i < |jobs| => jobs[i].id)
  }

  /** What the caller of a command sees of its result. */
  function Seen(r: SubmitResult): S.Result
  {
    if r == Closed then S.Refused else S.Outcome
  }

  /** Every result the worker has written has been written on the machine. */
  ghost predicate Told(s: S.State, done: seq<Done>)
  {
    forall i :: 0 <= i < |done| ==>
      done[i].job.id in s.clients && s.clients[done[i].job.id].written == [Seen(done[i].result)]
  }

  function ResultOf(call: CallResult): S.Result
  {
    if call.GaveUp? then S.Refused else S.Outcome
  }

  /** The loop's own part of the state, and the queue. */
  ghost predicate At(s: S.State, phase: S.Phase, batch: seq<S.JobId>, held: seq<S.JobId>, stopping: bool,
      queue: seq<S.JobId>, stop: bool)
  {
    s.loop == S.Loop(phase, batch, held, stopping) && s.queue == queue && s.stop == stop
  }

  /** From the start of the call to the end of the flush. */
  lemma {:induction false} CallRuns(maxQueue: nat, s0: S.State, before: seq<S.Step>, s: S.State, call: CallResult)
    returns (steps: seq<S.Step>, s': S.State)
    requires Follow(maxQueue, s0, before) == Some(s) && Inv(s) && s.loop.phase == S.Calling
    ensures Follow(maxQueue, s0, steps) == Some(s') && Inv(s')
    ensures At(s', if s.loop.stopping then S.Draining else S.Selecting, [], s.loop.held, s.loop.stopping, s.queue,
               s.stop || call.GaveUp?)
    ensures Answered(s, s', s.loop.batch, ResultOf(call))
  {
    hide Follow, Inv, Answered;
    var steps1, s1 := before, s;
    if call.GaveUp? {
      FollowStep(maxQueue, s0, before, s, S.SignalStop);
      steps1, s1 := before + [S.SignalStop], S.Apply(s, S.SignalStop, maxQueue);
    }
    var step := S.ByLoop(if call.GaveUp? then S.CallGivesUp else S.CallAnswered);
    FollowStep(maxQueue, s0, steps1, s1, step);
    var s2 := S.Apply(s1, step, maxQueue);
    var steps3, s3 := Deliveries(maxQueue, s0, steps1 + [step], s2);
    FollowStep(maxQueue, s0, steps3, s3, S.ByLoop(S.FlushDone));
    steps, s' := steps3 + [S.ByLoop(S.FlushDone)], S.Apply(s3, S.ByLoop(S.FlushDone), maxQueue);
    SameClients(s, s2, s3, s', s.loop.batch, ResultOf(call));
  }

  lemma {:induction false} SameClients(s: S.State, s2: S.State, s3: S.State, s4: S.State, ids: seq<S.JobId>,
      r: S.Result)
    requires s2.clients == s.clients && s4.clients == s3.clients && Answered(s2, s3, ids, r)
    ensures Answered(s, s4, ids, r)
  {
  }

  /** What TigerBeetle's answer, or the lack of one, makes of a batch's results. */
  lemma {:induction false} SeenOf(x: Sending)
    requires AnswersOf(x.jobs, x.call, x.answers)
    ensures |x.answers| == |x.jobs| && forall i :: 0 <= i < |x.answers| ==> Seen(x.answers[i]) == ResultOf(x.call)
  {
    forall i | 0 <= i < |x.answers| ensures Seen(x.answers[i]) == ResultOf(x.call) {
      assert IsAnswer(x.jobs, x.call, i, x.answers[i]);
    }
  }

  lemma {:induction false} ToldMore(s: S.State, s': S.State, done: seq<Done>, x: Sending)
    requires Told(s, done) && AnswersOf(x.jobs, x.call, x.answers) && |x.jobs| == |x.answers|
    requires Answered(s, s', Ids(x.jobs), ResultOf(x.call))
    requires forall j :: j in Ids(x.jobs) ==> j in s.clients && s.clients[j].written == []
    ensures Told(s', done + Pairs(x.jobs, x.answers))
  {
    SeenOf(x);
    hide AnswersOf;
    var all := done + Pairs(x.jobs, x.answers);
    forall i | 0 <= i < |all|
      ensures all[i].job.id in s'.clients && s'.clients[all[i].job.id].written == [Seen(all[i].result)]
    {
      if i < |done| {
        assert all[i] == done[i];
        assert done[i].job.id !in Ids(x.jobs);
      } else {
        var at := i - |done|;
        assert all[i] == Done(x.jobs[at], x.answers[at]);
        assert Ids(x.jobs)[at] == x.jobs[at].id;
      }
    }
  }

  lemma {:induction false} BatchInHand(s: S.State)
    requires Inv(s)
    ensures forall j :: j in s.loop.batch ==> j in s.clients && s.clients[j].written == []
  {
    forall j | j in s.loop.batch ensures j in s.clients && s.clients[j].written == [] {
      S.QueueCounts(s.loop.batch, j, j);
      hide S.Count, Inv;
      InHand(s, j);
    }
  }

  /** The machine's turn for one batch the worker sends; `sees` when it is the stop branch that sends it. */
  lemma {:induction false} SendRuns(maxQueue: nat, s0: S.State, before: seq<S.Step>, s: S.State, x: Sending,
      done: seq<Done>, sees: bool)
    returns (steps: seq<S.Step>, s': S.State)
    requires Follow(maxQueue, s0, before) == Some(s) && Inv(s) && Told(s, done)
    requires s.loop == S.Loop(S.Selecting, Ids(x.jobs), s.loop.held, false) && x.jobs != []
    requires AnswersOf(x.jobs, x.call, x.answers) && |x.jobs| == |x.answers|
    requires sees ==> s.stop && s.loop.held == []
    ensures Follow(maxQueue, s0, steps) == Some(s') && Inv(s') && Told(s', done + Pairs(x.jobs, x.answers))
    ensures At(s', if sees then S.Draining else S.Selecting, [], s.loop.held, sees, s.queue, s.stop || x.call.GaveUp?)
  {
    hide Follow, Inv, Answered, Told, AnswersOf;
    BatchInHand(s);
    assert |Ids(x.jobs)| > 0;
    var step := S.ByLoop(if sees then S.SeeStop else S.Flush);
    FollowStep(maxQueue, s0, before, s, step);
    var s1 := S.Apply(s, step, maxQueue);
    steps, s' := CallRuns(maxQueue, s0, before + [step], s1, x.call);
    SameClients(s, s1, s', s', Ids(x.jobs), ResultOf(x.call));
    ToldMore(s, s', done, x);
  }

  /******* The worker's turns *******/

  /** The worker between two turns, and the machine: same batch, same queue, same stop signal, same results. */
  ghost predicate Models(w: Worker, s: S.State, queue: seq<Job>)
    reads w
  {
    && w.Valid() && !w.exited && Inv(s) && Told(s, w.done)
    && At(s, S.Selecting, Ids(w.batch), [], false, Ids(queue), w.stopped)
  }

  /** While the loop runs its results are those of the batches it has sent. */
  lemma {:induction false} DoneIsWritten(w: Worker)
    requires w.Valid() && !w.exited
    ensures Paired(w.sent) && w.done == Written(w.sent)
  {
    hide AllSound, Batchable, Paired;
    assert w.drained + [] == w.drained == [];
    assert Accounted(w.received, w.sent, w.batch, [], [], w.done);
    assert Written(w.sent) + Refusals([]) == Written(w.sent);
  }

  lemma {:induction false} OneMoreSent(sent: seq<Sending>, longer: seq<Sending>)
    requires Paired(longer) && sent <= longer && |longer| == |sent| + 1
    ensures Paired(sent)
    ensures Written(longer) == Written(sent) + Pairs(longer[|sent|].jobs, longer[|sent|].answers)
  {
    assert longer == sent + [longer[|sent|]];
    WrittenGrows(sent, longer[|sent|]);
  }

  lemma {:induction false} Requests(w: Worker)
    requires w.Valid()
    ensures forall i :: 0 <= i < |w.sent| ==>
              w.sent[i].jobs != [] && |w.sent[i].jobs| == |w.sent[i].answers| &&
              AnswersOf(w.sent[i].jobs, w.sent[i].call, w.sent[i].answers) &&
              (w.sent[i].call.GaveUp? ==> w.stopped)
  {
    hide Accounted, Batchable, Justified;
    assert AllSound(w.sent, w.received, w.maxBatchSize, w.stopped);
  }

  /** The worker's answer to a batch, told on the machine, when the batch is the n-th it sends. */
  lemma {:induction false} SendsNext(maxQueue: nat, s0: S.State, before: seq<S.Step>, s: S.State, w: Worker,
      n: nat, sees: bool)
    returns (steps: seq<S.Step>, s': S.State)
    requires Follow(maxQueue, s0, before) == Some(s) && Inv(s) && w.Valid() && n < |w.sent|
    requires Paired(w.sent[..n]) && Told(s, Written(w.sent[..n]))
    requires s.loop == S.Loop(S.Selecting, Ids(w.sent[n].jobs), s.loop.held, false)
    requires sees ==> s.stop && s.loop.held == []
    ensures Follow(maxQueue, s0, steps) == Some(s') && Inv(s')
    ensures Paired(w.sent[..n + 1]) && Told(s', Written(w.sent[..n + 1]))
    ensures At(s', if sees then S.Draining else S.Selecting, [], s.loop.held, sees, s.queue,
               s.stop || w.sent[n].call.GaveUp?)
  {
    Requests(w);
    PairedPrefix(w, n + 1);
    OneMoreSent(w.sent[..n], w.sent[..n + 1]);
    hide Follow, Inv, Told, Written, AnswersOf, Paired;
    assert w.sent[..n + 1][n] == w.sent[n];
    steps, s' := SendRuns(maxQueue, s0, before, s, w.sent[n], Written(w.sent[..n]), sees);
  }

  lemma {:induction false} PairedPrefix(w: Worker, n: nat)
    requires w.Valid() && n <= |w.sent|
    ensures Paired(w.sent[..n])
  {
    Requests(w);
    hide Accounted, Batchable, AllSound, AnswersOf;
  }

  lemma {:induction false} JobListsAt(sent: seq<Sending>, longer: seq<Sending>, lists: seq<seq<Job>>)
    requires sent <= longer && JobLists(longer) == JobLists(sent) + lists
    ensures |longer| == |sent| + |lists| && longer[..|sent|] == sent
    ensures forall i :: 0 <= i < |lists| ==> longer[|sent| + i].jobs == lists[i]
  {
    assert |JobLists(longer)| == |longer| && |JobLists(sent)| == |sent|;
    forall i | 0 <= i < |lists| ensures longer[|sent| + i].jobs == lists[i] {
      assert JobLists(longer)[|sent| + i] == longer[|sent| + i].jobs;
    }
  }

  /** The machine has stopped exactly when the worker knows it has. */
  lemma {:induction false} StopsTogether(w: Worker, n: nat, stopped: bool)
    requires w.Valid() && n <= |w.sent| && (stopped ==> w.stopped)
    requires w.stopped ==> stopped || GaveUpSince(w.sent, n)
    ensures w.stopped <==> stopped || GaveUpSince(w.sent, n)
  {
    Requests(w);
  }

  lemma {:induction false} IdsNext(jobs: seq<Job>, job: Job)
    ensures Ids(jobs + [job]) == Ids(jobs) + [job.id] && Ids([job] + jobs) == [job.id] + Ids(jobs)
    ensures ([job.id] + Ids(jobs))[1..] == Ids(jobs)
  {
  }

  lemma {:induction false} GaveUpNext(sends: seq<Sending>, n: nat, i: nat)
    requires n <= i < |sends|
    ensures GaveUpSince(sends[..i + 1], n) <==> GaveUpSince(sends[..i], n) || sends[i].call.GaveUp?
    ensures !GaveUpSince(sends[..n], n)
  {
    var longer, shorter := sends[..i + 1], sends[..i];
    assert longer[i] == sends[i];
    if x :| n <= x < |shorter| && shorter[x].call.GaveUp? { assert longer[x].call.GaveUp?; }
    if x :| n <= x < |longer| && longer[x].call.GaveUp? { assert x < i ==> shorter[x].call.GaveUp?; }
  }

  /**
   * The machine while the worker is in a turn: it has told the results of the
   * first i batches the worker ends up having sent, and knows stop as the
   * worker does by then.
   */
  ghost predicate Midway(w: Worker, s: S.State, i: nat, n: nat, stopped: bool, batch: seq<Job>, held: seq<S.JobId>,
      queue: seq<S.JobId>)
    reads w
  {
    && Inv(s) && n <= i <= |w.sent| && Paired(w.sent[..i]) && Told(s, Written(w.sent[..i]))
    && At(s, S.Selecting, Ids(batch), held, false, queue, stopped || GaveUpSince(w.sent[..i], n))
  }

  lemma {:induction false} TakeRuns(maxQueue: nat, s0: S.State, before: seq<S.Step>, s: S.State, w: Worker,
      i: nat, stopped: bool, batch: seq<Job>, job: Job, rest: seq<Job>)
    returns (steps: seq<S.Step>, s': S.State)
    requires Follow(maxQueue, s0, before) == Some(s) && Midway(w, s, i, i, stopped, batch, [], Ids([job] + rest))
    ensures Follow(maxQueue, s0, steps) == Some(s') && Midway(w, s', i, i, stopped, batch, [job.id], Ids(rest))
  {
    hide Follow, Inv, Written, Paired, GaveUpSince, Ids;
    IdsNext(rest, job);
    FollowStep(maxQueue, s0, before, s, S.ByLoop(S.Take));
    steps, s' := before + [S.ByLoop(S.Take)], S.Apply(s, S.ByLoop(S.Take), maxQueue);
  }

  lemma {:induction false} PackRuns(maxQueue: nat, s0: S.State, before: seq<S.Step>, s: S.State, w: Worker,
      i: nat, n: nat, stopped: bool, batch: seq<Job>, job: Job, queue: seq<S.JobId>)
    returns (steps: seq<S.Step>, s': S.State)
    requires Follow(maxQueue, s0, before) == Some(s) && Midway(w, s, i, n, stopped, batch, [job.id], queue)
    ensures Follow(maxQueue, s0, steps) == Some(s') && Midway(w, s', i, n, stopped, batch + [job], [], queue)
  {
    hide Follow, Inv, Written, Paired, GaveUpSince, Ids;
    IdsNext(batch, job);
    FollowStep(maxQueue, s0, before, s, S.ByLoop(S.Pack));
    steps, s' := before + [S.ByLoop(S.Pack)], S.Apply(s, S.ByLoop(S.Pack), maxQueue);
  }

  lemma {:induction false} FlushRuns(maxQueue: nat, s0: S.State, before: seq<S.Step>, s: S.State, w: Worker,
      i: nat, n: nat, stopped: bool, held: seq<S.JobId>, queue: seq<S.JobId>)
    returns (steps: seq<S.Step>, s': S.State)
    requires Follow(maxQueue, s0, before) == Some(s) && w.Valid() && i < |w.sent|
    requires Midway(w, s, i, n, stopped, w.sent[i].jobs, held, queue)
    ensures Follow(maxQueue, s0, steps) == Some(s') && Midway(w, s', i + 1, n, stopped, [], held, queue)
  {
    hide Follow, Inv, Written, Paired, GaveUpSince, AllSound, Accounted, Batchable;
    GaveUpNext(w.sent, n, i);
    steps, s' := SendsNext(maxQueue, s0, before, s, w, i, false);
    assert Ids([]) == [];
  }

  lemma {:induction false} JobRuns(maxQueue: nat, s0: S.State, before: seq<S.Step>, s: S.State, w: Worker,
      n: nat, stopped: bool, batch: seq<Job>, job: Job, rest: seq<Job>, must: bool, full: bool)
    returns (steps: seq<S.Step>, s': S.State)
    requires Follow(maxQueue, s0, before) == Some(s) && w.Valid() &&
      Midway(w, s, n, n, stopped, batch, [], Ids([job] + rest))
    requires |w.sent| == n + (if must then 1 else 0) + (if full then 1 else 0)
    requires must ==> w.sent[n].jobs == batch
    requires full ==> w.sent[|w.sent| - 1].jobs == (if must then [] else batch) + [job]
    ensures Follow(maxQueue, s0, steps) == Some(s')
    ensures Midway(w, s', |w.sent|, n, stopped,
                   if full then [] else (if must then [] else batch) + [job], [], Ids(rest))
  {
    hide Follow, Midway, AllSound, Accounted, Batchable;
    var base := if must then [] else batch;
    var steps1, s1 := TakeRuns(maxQueue, s0, before, s, w, n, stopped, batch, job, rest);
    if must { steps1, s1 := FlushRuns(maxQueue, s0, steps1, s1, w, n, n, stopped, [job.id], Ids(rest)); }
    var i := if must then n + 1 else n;
    var steps2, s2 := PackRuns(maxQueue, s0, steps1, s1, w, i, n, stopped, base, job, Ids(rest));
    if full { steps2, s2 := FlushRuns(maxQueue, s0, steps2, s2, w, i, n, stopped, [], Ids(rest)); }
    steps, s' := steps2, s2;
  }

  lemma {:induction false} EndsTurn(w: Worker, s: S.State, n: nat, stopped: bool, queue: seq<Job>)
    requires w.Valid() && !w.exited && Midway(w, s, |w.sent|, n, stopped, w.batch, [], Ids(queue))
    requires (stopped ==> w.stopped) && (w.stopped ==> stopped || GaveUpSince(w.sent, n))
    ensures Models(w, s, queue)
  {
    hide Inv, Told, Written, Paired, AllSound, Accounted, Batchable, Ids;
    DoneIsWritten(w);
    assert w.sent[..|w.sent|] == w.sent;
    StopsTogether(w, n, stopped);
  }

  /** Before the turn. */
  lemma {:induction false} BeforeTurn(w: Worker, s: S.State, queue: seq<Job>)
    requires Models(w, s, queue)
    ensures Inv(s) && Paired(w.sent) && Told(s, Written(w.sent))
    ensures At(s, S.Selecting, Ids(w.batch), [], false, Ids(queue), w.stopped)
  {
    hide Inv, Told, Written, Paired, AllSound, Accounted, Batchable, Ids;
    DoneIsWritten(w);
  }

  /** The worker has taken its turn; the machine has yet to follow. */
  lemma {:induction false} Follows(w: Worker, s: S.State, sent: seq<Sending>, batch: seq<Job>, stopped: bool,
      queue: seq<Job>)
    requires Inv(s) && Paired(sent) && Told(s, Written(sent)) && sent <= w.sent
    requires At(s, S.Selecting, Ids(batch), [], false, Ids(queue), stopped)
    ensures Midway(w, s, |sent|, |sent|, stopped, batch, [], Ids(queue))
  {
    hide Inv, Told, Written, Paired, Ids;
    assert w.sent[..|sent|] == sent;
    assert !GaveUpSince(sent, |sent|);
  }

  /** The linger timer: one flush. */
  method TickOnMachine(w: Worker, ghost maxQueue: nat, ghost s0: S.State, ghost before: seq<S.Step>, ghost s: S.State,
      ghost queue: seq<Job>)
    returns (ghost steps: seq<S.Step>, ghost s': S.State)
    requires Follow(maxQueue, s0, before) == Some(s) && Models(w, s, queue) && w.armed
    modifies w
    ensures Follow(maxQueue, s0, steps) == Some(s') && Models(w, s', queue)
  {
    hide Follow, Inv, Told, JobLists, Written, Paired, AllSound, Accounted, Batchable, GaveUpSince, Midway, At, Ids;
    ghost var sent, batch, stopped := w.sent, w.batch, w.stopped;
    BeforeTurn(w, s, queue);
    w.OnTick();
    Follows(w, s, sent, batch, stopped, queue);
    JobListsAt(sent, w.sent, [batch]);
    assert w.sent[|sent| + 0].jobs == [batch][0];
    steps, s' := FlushRuns(maxQueue, s0, before, s, w, |sent|, |sent|, stopped, [], Ids(queue));
    EndsTurn(w, s', |sent|, stopped, queue);
  }

  /** The lists of commands a turn sends. */
  lemma {:induction false} TurnSends(sent: seq<Sending>, longer: seq<Sending>, early: seq<seq<Job>>,
      last: seq<seq<Job>>)
    requires sent <= longer && JobLists(longer) == JobLists(sent) + early + last && |early| <= 1 && |last| <= 1
    ensures |longer| == |sent| + |early| + |last|
    ensures early != [] ==> longer[|sent|].jobs == early[0]
    ensures last != [] ==> longer[|longer| - 1].jobs == last[0]
  {
    assert JobLists(sent) + early + last == JobLists(sent) + (early + last);
    JobListsAt(sent, longer, early + last);
    if early != [] { assert longer[|sent| + 0].jobs == (early + last)[0]; }
    if last != [] { assert longer[|sent| + |early|].jobs == (early + last)[|early|]; }
  }

  /** A command off the queue: taken, the flushes that make room, packed, and sent if that fills the batch. */
  method JobOnMachine(w: Worker, job: Job, ghost maxQueue: nat, ghost s0: S.State, ghost before: seq<S.Step>,
      ghost s: S.State, ghost rest: seq<Job>)
    returns (ghost steps: seq<S.Step>, ghost s': S.State)
    requires Follow(maxQueue, s0, before) == Some(s) && Models(w, s, [job] + rest)
    requires Submittable(job.cmd, w.maxBatchSize)
    modifies w
    ensures Follow(maxQueue, s0, steps) == Some(s') && Models(w, s', rest)
  {
    hide Follow, Inv, Told, JobLists, Written, Paired, AllSound, Accounted, Batchable, GaveUpSince, Midway, At, Ids;
    ghost var sent, batch, stopped, must := w.sent, w.batch, w.stopped, w.MustFlush(job);
    BeforeTurn(w, s, [job] + rest);
    w.OnJob(job);
    Follows(w, s, sent, batch, stopped, [job] + rest);
    ghost var base, early := if must then [] else batch, if must then [batch] else [];
    ghost var full := TotalEvents(base + [job]) == w.maxBatchSize;
    ghost var last := if full then [base + [job]] else [];
    assert JobLists(sent) + early + [] == JobLists(sent) + early;
    TurnSends(sent, w.sent, early, last);
    steps, s' := JobRuns(maxQueue, s0, before, s, w, |sent|, stopped, batch, job, rest, must, full);
    EndsTurn(w, s', |sent|, stopped, rest);
  }

  /******* The stop branch *******/

  /** The machine while the worker drains: everything sent is told, and so is every refusal so far. */
  ghost predicate DrainingWith(s: S.State, written: seq<Done>, queue: seq<Job>)
  {
    Inv(s) && Told(s, written) && At(s, S.Draining, [], [], true, Ids(queue), true)
  }

  lemma {:induction false} RefuseRuns(maxQueue: nat, s0: S.State, before: seq<S.Step>, s: S.State, written: seq<Done>,
      job: Job, rest: seq<Job>)
    returns (steps: seq<S.Step>, s': S.State)
    requires Follow(maxQueue, s0, before) == Some(s) && DrainingWith(s, written, [job] + rest)
    ensures Follow(maxQueue, s0, steps) == Some(s') && DrainingWith(s', written + [Done(job, Closed)], rest)
  {
    hide Follow, Inv, Told, Ids;
    IdsNext(rest, job);
    FollowStep(maxQueue, s0, before, s, S.ByLoop(S.DrainTake));
    var s1 := S.Apply(s, S.ByLoop(S.DrainTake), maxQueue);
    FirstInHand(s1);
    FollowStep(maxQueue, s0, before + [S.ByLoop(S.DrainTake)], s1, S.ByLoop(S.DrainRefuse));
    s' := S.Apply(s1, S.ByLoop(S.DrainRefuse), maxQueue);
    steps := before + [S.ByLoop(S.DrainTake)] + [S.ByLoop(S.DrainRefuse)];
    ToldSame(s, s1, written);
    RefusedTold(s1, s', written, job);
  }

  lemma {:induction false} RefusedTold(s: S.State, s': S.State, written: seq<Done>, job: Job)
    requires Told(s, written) && job.id in s.clients && s.clients[job.id].written == []
    requires s'.clients == s.clients[job.id := s.clients[job.id].(written := s.clients[job.id].written + [S.Refused])]
    ensures Told(s', written + [Done(job, Closed)])
  {
  }

  lemma {:induction false} DrainRuns(maxQueue: nat, s0: S.State, before: seq<S.Step>, s: S.State, written: seq<Done>,
      queue: seq<Job>)
    returns (steps: seq<S.Step>, s': S.State)
    requires Follow(maxQueue, s0, before) == Some(s) && DrainingWith(s, written, queue)
    ensures Follow(maxQueue, s0, steps) == Some(s') && DrainingWith(s', written + Refusals(queue), [])
    decreases |queue|
  {
    hide Follow, DrainingWith;
    if queue == [] {
      steps, s' := before, s;
      assert written + Refusals([]) == written;
    } else {
      assert queue == [queue[0]] + queue[1..];
      var steps1, s1 := RefuseRuns(maxQueue, s0, before, s, written, queue[0], queue[1..]);
      steps, s' := DrainRuns(maxQueue, s0, steps1, s1, written + [Done(queue[0], Closed)], queue[1..]);
      assert written + [Done(queue[0], Closed)] + Refusals(queue[1..]) == written + Refusals(queue);
    }
  }

  lemma {:induction false} ToldSame(s: S.State, s': S.State, written: seq<Done>)
    requires Told(s, written) && s'.clients == s.clients
    ensures Told(s', written)
  {
  }

  /** The stop branch's flush, if there is anything to send; either way the loop goes on to drain. */
  lemma {:induction false} StopFlushRuns(maxQueue: nat, s0: S.State, before: seq<S.Step>, s: S.State, w: Worker,
      n: nat, batch: seq<Job>, queue: seq<Job>)
    returns (steps: seq<S.Step>, s': S.State)
    requires Follow(maxQueue, s0, before) == Some(s) && w.Valid() && Midway(w, s, n, n, true, batch, [], Ids(queue))
    requires |w.sent| == n + (if batch == [] then 0 else 1) && (batch != [] ==> w.sent[n].jobs == batch)
    ensures Follow(maxQueue, s0, steps) == Some(s')
    ensures Paired(w.sent) && DrainingWith(s', Written(w.sent), queue)
  {
    hide Follow, Inv, Told, Written, Paired, AllSound, Accounted, Batchable, Ids, GaveUpSince;
    assert w.sent[..|w.sent|] == w.sent;
    NoIds(batch);
    if batch == [] {
      FollowStep(maxQueue, s0, before, s, S.ByLoop(S.SeeStop));
      steps, s' := before + [S.ByLoop(S.SeeStop)], S.Apply(s, S.ByLoop(S.SeeStop), maxQueue);
      ToldSame(s, s', Written(w.sent));
    } else {
      assert w.sent[..n + 1] == w.sent;
      steps, s' := SendsNext(maxQueue, s0, before, s, w, n, true);
    }
  }

  lemma {:induction false} NoIds(jobs: seq<Job>)
    ensures Ids(jobs) == [] <==> jobs == []
  {
  }

  lemma {:induction false} DoneAtExit(w: Worker)
    requires w.Valid()
    ensures Paired(w.sent) && w.done == Written(w.sent) + Refusals(w.drained)
  {
    hide AllSound, Batchable, Paired, Refusals;
  }

  lemma {:induction false} ExitRuns(maxQueue: nat, s0: S.State, before: seq<S.Step>, s: S.State, written: seq<Done>)
    returns (steps: seq<S.Step>, s': S.State)
    requires Follow(maxQueue, s0, before) == Some(s) && DrainingWith(s, written, [])
    ensures Follow(maxQueue, s0, steps) == Some(s') && Inv(s') && Told(s', written)
    ensures s'.loop.phase == S.Exited && s'.queue == []
  {
    hide Follow, Inv, Told;
    FollowStep(maxQueue, s0, before, s, S.ByLoop(S.DrainEnd));
    steps, s' := before + [S.ByLoop(S.DrainEnd)], S.Apply(s, S.ByLoop(S.DrainEnd), maxQueue);
    ToldSame(s, s', written);
  }

  /** The stop branch: the last flush, every queued command refused, and the end of the loop. */
  method StopOnMachine(w: Worker, queue: seq<Job>, ghost maxQueue: nat, ghost s0: S.State, ghost before: seq<S.Step>,
      ghost s: S.State)
    returns (ghost steps: seq<S.Step>, ghost s': S.State)
    requires Follow(maxQueue, s0, before) == Some(s) && Models(w, s, queue) && w.stopped
    modifies w
    ensures Follow(maxQueue, s0, steps) == Some(s') && Inv(s') && Told(s', w.done)
    ensures w.exited && s'.loop.phase == S.Exited && s'.queue == []
  {
    hide Follow, Inv, Told, JobLists, Written, Paired, AllSound, Accounted, Batchable, GaveUpSince, Midway, At, Ids;
    hide DrainingWith;
    ghost var sent, batch := w.sent, w.batch;
    BeforeTurn(w, s, queue);
    w.OnStop(queue);
    Follows(w, s, sent, batch, true, queue);
    JobListsAt(sent, w.sent, NonEmpty(batch));
    assert batch != [] ==> w.sent[|sent| + 0].jobs == NonEmpty(batch)[0];
    ghost var steps1, s1 := StopFlushRuns(maxQueue, s0, before, s, w, |sent|, batch, queue);
    ghost var steps2, s2 := DrainRuns(maxQueue, s0, steps1, s1, Written(w.sent), queue);
    DoneAtExit(w);
    steps, s' := ExitRuns(maxQueue, s0, steps2, s2, w.done);
  }
}
