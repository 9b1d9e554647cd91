/**
 * Sending one batch (internal/tbx/batcher.go: sendTransfers, sendAccounts;
 * internal/tbx/outcome.go; internal/codec/jsonc/decoder.go: the trailing
 * linked flag).
 *
 * Transfers and accounts are sent by two copies of the same code; an event
 * here is either, with a body that is only carried along.
 */
module Send {
  datatype Op = CreateTransfers | CreateAccounts

  /** `flags` is the event's 16-bit flag word; its low bit links the event to the next. */
  datatype Event = Event(body: int, flags: nat)

  datatype Command = Command(op: Op, events: seq<Event>, ids: seq<string>)

  datatype Job = Job(id: nat, cmd: Command)

  datatype Status = Created | Exists | Rejection(name: string)
  datatype Reply = Reply(status: Status, timestamp: nat)

  datatype Outcome = Outcome(index: nat, id: string, ok: bool, error: string, timestamp: nat)

  datatype SubmitResult = Outcomes(outcomes: seq<Outcome>) | CountMismatch | Closed

  /** How a call to TigerBeetle ends: an answer, or giving up because the batcher stops. */
  datatype CallResult = Answered(replies: seq<Reply>) | GaveUp

  /******* Commands *******/

  predicate Linked(e: Event) { e.flags % 2 == 1 }

  /** flags &^= linkedBit */
  function Unlink(e: Event): (u: Event)
    ensures !Linked(u) && u.body == e.body && u.flags / 2 == e.flags / 2
  {
    e.(flags := e.flags - e.flags % 2)
  }

  function CloseChain(events: seq<Event>): (closed: seq<Event>)
    ensures |closed| == |events|
  {
    if events == [] then [] else events[|events| - 1 := Unlink(events[|events| - 1])]
  }

  /** What SubmitAsync lets onto the queue, with an id for every event. */
  predicate Submittable(cmd: Command, maxBatchSize: nat)
  {
    0 < |cmd.events| <= maxBatchSize && |cmd.ids| == |cmd.events|
  }

  predicate HasEvents(jobs: seq<Job>)
  {
    forall i :: 0 <= i < |jobs| ==> jobs[i].cmd.events != [] && |jobs[i].cmd.ids| == |jobs[i].cmd.events|
  }

  /** The events of a batch: every command whole, its chain closed at its end. */
  function Flatten(jobs: seq<Job>): seq<Event>
  {
    if jobs == [] then [] else Flatten(jobs[..|jobs| - 1]) + CloseChain(jobs[|jobs| - 1].cmd.events)
  }

  function TotalEvents(jobs: seq<Job>): nat
  {
    if jobs == [] then 0 else TotalEvents(jobs[..|jobs| - 1]) + |jobs[|jobs| - 1].cmd.events|
  }

  lemma {:induction false} FlattenLength(jobs: seq<Job>)
    ensures |Flatten(jobs)| == TotalEvents(jobs)
  {
    if jobs != [] { FlattenLength(jobs[..|jobs| - 1]); }
  }

  /******* Chains *******/

  /** The length of the chain that starts the sequence: up to its first unlinked event. */
  function ChainLength(events: seq<Event>): (n: nat)
    requires events != []
    ensures 0 < n <= |events|
    ensures forall i :: 0 <= i < n - 1 ==> Linked(events[i])
    ensures n < |events| ==> !Linked(events[n - 1])
  {
    if !Linked(events[0]) || |events| == 1 then 1 else 1 + ChainLength(events[1..])
  }

  /** How TigerBeetle decomposes a sequence of events: maximal chains, each applied atomically. */
  function Chains(events: seq<Event>): seq<seq<Event>>
  {
    if events == [] then [] else [events[..ChainLength(events)]] + Chains(events[ChainLength(events)..])
  }

  function Lengths(chains: seq<seq<Event>>): seq<nat>
  {
    seq(|chains|, i requires 0 <= i < |chains| => |chains[i]|)
  }

  function AllChains(jobs: seq<Job>): seq<seq<Event>>
  {
    if jobs == [] then [] else AllChains(jobs[..|jobs| - 1]) + Chains(CloseChain(jobs[|jobs| - 1].cmd.events))
  }

  lemma {:induction false} ChainLengthConcat(a: seq<Event>, b: seq<Event>)
    requires a != [] && !Linked(a[|a| - 1])
    ensures ChainLength(a + b) == ChainLength(a)
  {
    if Linked(a[0]) && |a| > 1 {
      assert (a + b)[1..] == a[1..] + b;
      ChainLengthConcat(a[1..], b);
    }
  }

  /** No chain crosses a point where the event before it is unlinked. */
  lemma {:induction false} ChainsConcat(a: seq<Event>, b: seq<Event>)
    requires a == [] || !Linked(a[|a| - 1])
    ensures Chains(a + b) == Chains(a) + Chains(b)
    decreases |a|
  {
    hide Chains, Linked;
    if a == [] {
      NoChains(a, b);
    } else {
      var n := ChainLength(a);
      ChainLengthConcat(a, b);
      hide ChainLength;
      ChainsNext(a);
      ChainsNext(a + b);
      SplitConcat(a, b, n);
      ChainsConcat(a[n..], b);
    }
  }

  lemma {:induction false} NoChains(a: seq<Event>, b: seq<Event>)
    requires a == []
    ensures a + b == b && Chains(a + b) == Chains(a) + Chains(b)
  {
    assert Chains(a) == [] && a + b == b;
    hide Chains;
  }

  lemma {:induction false} ChainsNext(events: seq<Event>)
    requires events != []
    ensures var n := ChainLength(events); Chains(events) == [events[..n]] + Chains(events[n..])
  {
    hide ChainLength;
  }

  lemma {:induction false} SplitConcat(a: seq<Event>, b: seq<Event>, n: nat)
    requires n <= |a|
    ensures (a + b)[..n] == a[..n] && (a + b)[n..] == a[n..] + b
    ensures a[n..] != [] ==> a[n..][|a[n..]| - 1] == a[|a| - 1]
  {
  }

  lemma {:induction false} FlattenEndsUnlinked(jobs: seq<Job>)
    requires HasEvents(jobs) && jobs != []
    ensures Flatten(jobs) != [] && !Linked(Flatten(jobs)[|Flatten(jobs)| - 1])
  {
  }

  /**
   * A sent batch falls into exactly the chains of its commands: no chain
   * crosses a seam, and the batch does not end in an open chain.
   */
  lemma {:induction false} BatchChains(jobs: seq<Job>)
    requires HasEvents(jobs)
    ensures Chains(Flatten(jobs)) == AllChains(jobs)
    ensures jobs != [] ==> !Linked(Flatten(jobs)[|Flatten(jobs)| - 1])
  {
    if jobs != [] {
      var front := jobs[..|jobs| - 1];
      BatchChains(front);
      ChainsConcat(Flatten(front), CloseChain(jobs[|jobs| - 1].cmd.events));
      FlattenEndsUnlinked(jobs);
    }
  }

  lemma {:induction false} CloseChainLength(events: seq<Event>)
    requires events != []
    ensures ChainLength(CloseChain(events)) == ChainLength(events)
  {
    if Linked(events[0]) && |events| > 1 {
      assert CloseChain(events)[1..] == CloseChain(events[1..]);
      CloseChainLength(events[1..]);
    }
  }

  lemma {:induction false} LengthsNext(events: seq<Event>)
    requires events != []
    ensures var n := ChainLength(events); Lengths(Chains(events)) == [n] + Lengths(Chains(events[n..]))
  {
    hide ChainLength;
  }

  lemma {:induction false} CloseChainTail(events: seq<Event>, n: nat)
    requires n <= |events|
    ensures |CloseChain(events)| == |events| && CloseChain(events)[n..] == CloseChain(events[n..])
  {
  }

  lemma {:induction false} NothingToClose(events: seq<Event>)
    requires events == []
    ensures CloseChain(events) == events
  {
  }

  /** Closing a command's last chain moves no chain boundary inside the command. */
  lemma {:induction false} ClosingKeepsBoundaries(events: seq<Event>)
    ensures Lengths(Chains(CloseChain(events))) == Lengths(Chains(events))
    decreases |events|
  {
    hide Chains, Lengths, CloseChain;
    if events == [] {
      NothingToClose(events);
    } else {
      var n := ChainLength(events);
      hide ChainLength;
      CloseChainLength(events);
      CloseChainTail(events, n);
      LengthsNext(events);
      LengthsNext(CloseChain(events));
      ClosingKeepsBoundaries(events[n..]);
    }
  }

  /******* Outcomes *******/

  /**
   * What TigerBeetle says of one event reaches its submitter: at its place,
   * under its own id, when it happened, and whether it was applied; an event
   * that is there already counts as applied, and a rejection gives its name.
   */
  predicate Reports(o: Outcome, cmd: Command, i: nat, r: Reply)
    requires i < |cmd.ids|
  {
    && o.index == i && o.id == cmd.ids[i] && o.timestamp == r.timestamp
    && (o.ok <==> r.status.Created? || r.status.Exists?)
    && o.error == if r.status.Rejection? then r.status.name else ""
  }

  /** MapTransferResults and MapAccountResults: one command's window of the batch's dense reply. */
  method MapResults(cmd: Command, replies: seq<Reply>, offset: int, batchSize: nat) returns (r: SubmitResult)
    requires |cmd.ids| == |cmd.events|
    ensures r.CountMismatch? <==> |replies| != batchSize || offset < 0 || offset + |cmd.events| > batchSize
    ensures !r.Closed?
    ensures r.Outcomes? ==>
              && |r.outcomes| == |cmd.events|
              && forall i :: 0 <= i < |r.outcomes| ==> Reports(r.outcomes[i], cmd, i, replies[offset + i])
  {
    var n := |cmd.events|;
    var out := new Outcome[n](i requires 0 <= i < n => Outcome(i, cmd.ids[i], true, "", 0));
    if |replies| != batchSize { return CountMismatch; }
    if offset < 0 || offset + n > batchSize { return CountMismatch; }
    for i := 0 to n
      invariant forall j :: 0 <= j < i ==> Reports(out[j], cmd, j, replies[offset + j])
      invariant forall j :: i <= j < n ==> out[j] == Outcome(j, cmd.ids[j], true, "", 0)
    {
      var reply := replies[offset + i];
      out[i] := out[i].(timestamp := reply.timestamp);
      if reply.status == Created || reply.status == Exists { continue; }
      out[i] := out[i].(ok := false, error := reply.status.name);
    }
    return Outcomes(out[..]);
  }

  /******* Sending *******/

  /** Append a command and clear the linked flag of its last event: the chain must not stay open. */
  method AppendCommand(buffer: seq<Event>, cmd: seq<Event>) returns (events: seq<Event>)
    requires cmd != []
    ensures events == buffer + CloseChain(cmd)
  {
    events := buffer + cmd;
    events := events[|events| - 1 := Unlink(events[|events| - 1])];
  }

  /** The worker's buffers: events of the batch, and where each command begins. */
  method Assemble(jobs: seq<Job>) returns (events: seq<Event>, offsets: seq<nat>)
    requires HasEvents(jobs)
    ensures events == Flatten(jobs)
    ensures |offsets| == |jobs| && forall i :: 0 <= i < |jobs| ==> offsets[i] == TotalEvents(jobs[..i])
  {
    events, offsets := [], [];
    for i := 0 to |jobs|
      invariant events == Flatten(jobs[..i])
      invariant |offsets| == i && forall j :: 0 <= j < i ==> offsets[j] == TotalEvents(jobs[..j])
    {
      FlattenLength(jobs[..i]);
      offsets := offsets + [|events|];
      events := AppendCommand(events, jobs[i].cmd.events);
      assert jobs[..i + 1][..i] == jobs[..i];
    }
    assert jobs[..|jobs|] == jobs;
  }

  /** A batch's answers, as the reply dictates. */
  ghost predicate AnswersOf(jobs: seq<Job>, call: CallResult, answers: seq<SubmitResult>)
  {
    && |answers| == |jobs|
    && forall i :: 0 <= i < |jobs| ==> IsAnswer(jobs, call, i, answers[i])
  }

  ghost predicate IsAnswer(jobs: seq<Job>, call: CallResult, i: nat, a: SubmitResult)
    requires i < |jobs|
  {
    match call
    case GaveUp => a == Closed
    case Answered(replies) =>
      if |replies| != TotalEvents(jobs) then a == CountMismatch
      else
        && a.Outcomes? && |jobs[i].cmd.ids| == |jobs[i].cmd.events| == |a.outcomes|
        && TotalEvents(jobs[..i]) + |a.outcomes| <= |replies|
        && forall x :: 0 <= x < |a.outcomes| ==>
             Reports(a.outcomes[x], jobs[i].cmd, x, replies[TotalEvents(jobs[..i]) + x])
  }

  /** Which command an event of the batch belongs to, and where in it. */
  function Locate(jobs: seq<Job>, k: nat): (at: (nat, nat))
    requires k < TotalEvents(jobs)
    ensures at.0 < |jobs| && at.1 < |jobs[at.0].cmd.events|
    ensures TotalEvents(jobs[..at.0]) + at.1 == k
  {
    var front := jobs[..|jobs| - 1];
    if k >= TotalEvents(front) then (|front|, k - TotalEvents(front))
    else
      var at := Locate(front, k);
      assert front[..at.0] == jobs[..at.0];
      at
  }

  /** The submitter of the k-th event of the batch is told what the k-th reply says of it. */
  ghost predicate ToldAt(jobs: seq<Job>, replies: seq<Reply>, answers: seq<SubmitResult>, k: nat)
    requires HasEvents(jobs) && k < TotalEvents(jobs) == |replies| && |answers| == |jobs|
  {
    var (i, x) := Locate(jobs, k);
    && answers[i].Outcomes? && |answers[i].outcomes| == |jobs[i].cmd.events|
    && var o, r := answers[i].outcomes[x], replies[k];
       && o.index == x && o.id == jobs[i].cmd.ids[x] && o.timestamp == r.timestamp
       && (o.ok <==> r.status == Created || r.status == Exists)
       && o.error == (if o.ok then "" else r.status.name)
  }

  lemma {:induction false} EverySubmitterTold(jobs: seq<Job>, replies: seq<Reply>, answers: seq<SubmitResult>, k: nat)
    requires HasEvents(jobs) && AnswersOf(jobs, Answered(replies), answers) && k < TotalEvents(jobs) == |replies|
    ensures ToldAt(jobs, replies, answers, k)
  {
    var (i, x) := Locate(jobs, k);
    assert IsAnswer(jobs, Answered(replies), i, answers[i]);
    hide TotalEvents, AnswersOf;
  }

  /** sendTransfers and sendAccounts, and failAll when the call gave up. */
  method SendBatch(jobs: seq<Job>, call: CallResult) returns (events: seq<Event>, answers: seq<SubmitResult>)
    requires HasEvents(jobs)
    ensures events == Flatten(jobs)
    ensures AnswersOf(jobs, call, answers)
    ensures call.Answered? && |call.replies| == TotalEvents(jobs) ==>
              forall k: nat :: k < TotalEvents(jobs) ==> ToldAt(jobs, call.replies, answers, k)
  {
    events, answers := SendAll(jobs, call);
    hide ToldAt, AnswersOf, TotalEvents;
    if call.Answered? && |call.replies| == TotalEvents(jobs) {
      forall k: nat | k < TotalEvents(jobs) ensures ToldAt(jobs, call.replies, answers, k) {
        EverySubmitterTold(jobs, call.replies, answers, k);
      }
    }
  }

  method SendAll(jobs: seq<Job>, call: CallResult) returns (events: seq<Event>, answers: seq<SubmitResult>)
    requires HasEvents(jobs)
    ensures events == Flatten(jobs)
    ensures AnswersOf(jobs, call, answers)
  {
    hide Reports;
    var offsets;
    events, offsets := Assemble(jobs);
    FlattenLength(jobs);
    answers := [];
    if call.GaveUp? {
      for i := 0 to |jobs|
        invariant |answers| == i && forall j :: 0 <= j < i ==> answers[j] == Closed
      {
        answers := answers + [Closed];
      }
      return;
    }
    for i := 0 to |jobs|
      invariant |answers| == i && forall j :: 0 <= j < i ==> IsAnswer(jobs, call, j, answers[j])
    {
      var a := AnswerOne(jobs, i, offsets[i], call.replies, |events|);
      answers := answers + [a];
    }
  }

  /** One command's answer, at the offset the assembly computed for it. */
  method AnswerOne(jobs: seq<Job>, i: nat, offset: nat, replies: seq<Reply>, batchSize: nat) returns (a: SubmitResult)
    requires HasEvents(jobs) && i < |jobs| && offset == TotalEvents(jobs[..i]) && batchSize == TotalEvents(jobs)
    ensures IsAnswer(jobs, Answered(replies), i, a)
  {
    WindowFits(jobs, i);
    a := MapResults(jobs[i].cmd, replies, offset, batchSize);
  }

  /** A command's window always lies inside the batch. */
  lemma {:induction false} WindowFits(jobs: seq<Job>, i: nat)
    requires i < |jobs|
    ensures TotalEvents(jobs[..i]) + |jobs[i].cmd.events| == TotalEvents(jobs[..i + 1]) <= TotalEvents(jobs)
  {
    assert jobs[..i + 1][..i] == jobs[..i];
    TotalMonotone(jobs, i + 1);
  }

  lemma {:induction false} TotalMonotone(jobs: seq<Job>, i: nat)
    requires i <= |jobs|
    ensures TotalEvents(jobs[..i]) <= TotalEvents(jobs)
    decreases |jobs| - i
  {
    if i < |jobs| {
      assert jobs[..i + 1][..i] == jobs[..i];
      TotalMonotone(jobs, i + 1);
    } else {
      assert jobs[..i] == jobs;
    }
  }

  lemma {:induction false} FlattenPrefix(jobs: seq<Job>, i: nat)
    requires i <= |jobs|
    ensures Flatten(jobs[..i]) <= Flatten(jobs)
    decreases |jobs| - i
  {
    if i < |jobs| {
      assert jobs[..i + 1][..i] == jobs[..i];
      FlattenPrefix(jobs, i + 1);
    } else {
      assert jobs[..i] == jobs;
    }
  }

  /** Whatever batch a command is sent in, and wherever in it, the events sent for it are its own. */
  lemma {:induction false} EventsDependOnCommandOnly(jobs: seq<Job>, i: nat)
    requires i < |jobs|
    ensures TotalEvents(jobs[..i]) + |jobs[i].cmd.events| <= |Flatten(jobs)|
    ensures Flatten(jobs)[TotalEvents(jobs[..i])..TotalEvents(jobs[..i]) + |jobs[i].cmd.events|] ==
            CloseChain(jobs[i].cmd.events)
  {
    WindowFits(jobs, i);
    FlattenPrefix(jobs, i + 1);
    FlattenLength(jobs);
    FlattenLength(jobs[..i]);
    var before, own := Flatten(jobs[..i]), CloseChain(jobs[i].cmd.events);
    assert jobs[..i + 1][..i] == jobs[..i];
    assert Flatten(jobs[..i + 1]) == before + own;
    SliceOfPrefix(before, own, Flatten(jobs));
  }

  lemma {:induction false} SliceOfPrefix(a: seq<Event>, b: seq<Event>, all: seq<Event>)
    requires a + b <= all
    ensures all[|a|..|a| + |b|] == b
  {
  }

  /******* The windows tile the reply *******/

  function ConcatOutcomes(answers: seq<SubmitResult>): seq<Outcome>
  {
    if answers == [] then []
    else
      ConcatOutcomes(answers[..|answers| - 1]) +
      (match answers[|answers| - 1] case Outcomes(outs) => outs case _ => [])
  }

  /** The outcomes are the reply, position by position, under the ids of the events sent. */
  ghost predicate Tiles(jobs: seq<Job>, replies: seq<Reply>, outs: seq<Outcome>)
  {
    && HasEvents(jobs) && |outs| == TotalEvents(jobs) <= |replies|
    && forall k :: 0 <= k < |outs| ==> ReportsAt(jobs, replies, outs[k], k)
  }

  /** The outcome reports the k-th reply, to the command and the place the k-th event of the batch came from. */
  ghost predicate ReportsAt(jobs: seq<Job>, replies: seq<Reply>, o: Outcome, k: nat)
    requires HasEvents(jobs) && k < TotalEvents(jobs) <= |replies|
  {
    var at := Locate(jobs, k);
    Reports(o, jobs[at.0].cmd, at.1, replies[k])
  }

  lemma {:induction false} TilesExtend(jobs: seq<Job>, job: Job, replies: seq<Reply>, outs: seq<Outcome>,
      more: seq<Outcome>)
    requires Tiles(jobs, replies, outs) && HasEvents([job])
    requires |more| == |job.cmd.events| == |job.cmd.ids| && |outs| + |more| <= |replies|
    requires forall x :: 0 <= x < |more| ==> Reports(more[x], job.cmd, x, replies[|outs| + x])
    ensures Tiles(jobs + [job], replies, outs + more)
  {
    hide Reports;
  }

  /**
   * On a reply of the right length the commands' answers, put end to end, are
   * the positional mapping of the whole reply.
   */
  lemma {:induction false} WindowsTileReply(jobs: seq<Job>, replies: seq<Reply>, answers: seq<SubmitResult>)
    requires HasEvents(jobs) && AnswersOf(jobs, Answered(replies), answers) && |replies| == TotalEvents(jobs)
    ensures Tiles(jobs, replies, ConcatOutcomes(answers))
  {
    TilesUpTo(jobs, replies, answers, |jobs|);
    assert jobs[..|jobs|] == jobs && answers[..|jobs|] == answers;
  }

  lemma {:induction false} TilesStep(jobs: seq<Job>, replies: seq<Reply>, m: nat, answer: SubmitResult,
      outs: seq<Outcome>)
    requires HasEvents(jobs) && |replies| == TotalEvents(jobs) && m < |jobs|
    requires IsAnswer(jobs, Answered(replies), m, answer) && Tiles(jobs[..m], replies, outs)
    ensures answer.Outcomes? && Tiles(jobs[..m + 1], replies, outs + answer.outcomes)
  {
    assert jobs[..m + 1] == jobs[..m] + [jobs[m]];
    var more := answer.outcomes;
    assert |outs| == TotalEvents(jobs[..m]);
    assert forall x :: 0 <= x < |more| ==> Reports(more[x], jobs[m].cmd, x, replies[|outs| + x]);
    hide IsAnswer, Reports, TotalEvents, ReportsAt;
    TilesExtend(jobs[..m], jobs[m], replies, outs, more);
  }

  lemma {:induction false} TilesUpTo(jobs: seq<Job>, replies: seq<Reply>, answers: seq<SubmitResult>, n: nat)
    requires HasEvents(jobs) && AnswersOf(jobs, Answered(replies), answers) && |replies| == TotalEvents(jobs)
    requires n <= |jobs|
    ensures Tiles(jobs[..n], replies, ConcatOutcomes(answers[..n]))
  {
    if n > 0 {
      var m := n - 1;
      TilesUpTo(jobs, replies, answers, m);
      assert IsAnswer(jobs, Answered(replies), m, answers[m]);
      hide Tiles, TotalEvents, AnswersOf, IsAnswer;
      TilesStep(jobs, replies, m, answers[m], ConcatOutcomes(answers[..m]));
      assert answers[..n][..m] == answers[..m];
    }
  }

  /** A reply of the wrong length gives every command an error and none any outcome. */
  lemma {:induction false} WrongLengthAnswersNobody(jobs: seq<Job>, replies: seq<Reply>, answers: seq<SubmitResult>)
    requires AnswersOf(jobs, Answered(replies), answers)
    ensures |replies| != TotalEvents(jobs) ==> forall i :: 0 <= i < |answers| ==> answers[i] == CountMismatch
    ensures |replies| == TotalEvents(jobs) ==> forall i :: 0 <= i < |answers| ==> answers[i].Outcomes?
  {
  }
}
