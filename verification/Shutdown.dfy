/**
 * The batcher's lock-free shutdown (internal/tbx/batcher.go: SubmitAsync,
 * watchLate, Close, settle, loop, drain, call), as interleaved steps of the
 * submitters, the loop, the two settlers and the watchers of late commands.
 *
 * Each step is one channel operation or one decision of a goroutine; which
 * goroutine moves, and which ready branch a select takes, is arbitrary. How
 * commands are packed is left open here: the loop may send any non-empty
 * batch it has. What it actually packs is in Packing.
 */
module Shutdown {
  type JobId = nat

  /** Outcome: whatever the call's reply maps to. Refused: ErrClosed. */
  datatype Result = Outcome | Refused

  /** Where a submission is: in SubmitAsync, with its channel handed out, or with its late watcher. */
  datatype Pc = Entering | Ready | Enqueued | Rejected | Direct | Watching | Rechecking | Told

  /**
   * One command: everything ever written to its `done` channel, whether that
   * has been received, and everything written to the watcher's `out`.
   */
  datatype Client = Client(pc: Pc, written: seq<Result>, taken: bool, out: seq<Result>)

  datatype Phase = NotStarted | Selecting | Calling | Delivering(result: Result) | Draining | Exited

  /** `held`: at most one command, taken off the queue and not yet placed. */
  datatype Loop = Loop(phase: Phase, batch: seq<JobId>, held: seq<JobId>, stopping: bool)

  /** Settling drains, sees the queue empty, and then closes finished. */
  datatype Settler = Waiting | Settling(held: seq<JobId>) | Emptied | Over

  /** The goroutine Start leaves behind, and Close. */
  datatype Who = Watcher | Closer

  datatype State = State(
    clients: map<JobId, Client>,
    queue: seq<JobId>,
    stop: bool,
    finished: bool,
    closing: bool,
    loop: Loop,
    watcher: Settler,
    closer: Settler,
    // commands of the batches TigerBeetle has answered
    applied: set<JobId>)

  datatype ClientMove =
    | Submit | FastFail | FastPass | SelectStop | SelectCancel | Enqueue | HandOut | GoLate
    | Read | Forward | SeeFinished | Recheck

  datatype LoopMove =
    | Take | Pack | Flush | SeeStop | CallAnswered | CallGivesUp | Deliver | FlushDone
    | DrainTake | DrainRefuse | DrainEnd

  datatype SettlerMove = SettleBegin | SettleTake | SettleRefuse | SettleEmpty | SettleFinish

  datatype Step =
    | Start | SignalStop | Close
    | ByClient(j: JobId, client: ClientMove)
    | ByLoop(loop: LoopMove)
    | BySettler(who: Who, settler: SettlerMove)

  const INIT := State(map[], [], false, false, false, Loop(NotStarted, [], [], false), Waiting, Waiting, {})

  predicate Is(s: State, j: JobId, pc: Pc)
  {
    j in s.clients && s.clients[j].pc == pc
  }

  /** A value is in the `done` channel. */
  predicate Buffered(c: Client)
  {
    c.written != [] && !c.taken
  }

  /** `done` has room for one value: a second write before a read would block. */
  predicate Room(s: State, j: JobId)
  {
    j in s.clients && !Buffered(s.clients[j])
  }

  function SettlerOf(s: State, who: Who): Settler
  {
    if who == Watcher then s.watcher else s.closer
  }

  function WithSettler(s: State, who: Who, t: Settler): State
  {
    if who == Watcher then s.(watcher := t) else s.(closer := t)
  }

  predicate Started(s: State)
  {
    s.loop.phase != NotStarted
  }

  predicate ClientEnabled(s: State, j: JobId, move: ClientMove, maxQueue: nat)
  {
    match move
    case Submit => j !in s.clients
    case FastFail => Is(s, j, Entering) && s.stop
    case FastPass => Is(s, j, Entering) && !s.stop
    case SelectStop => Is(s, j, Ready) && s.stop
    case SelectCancel => Is(s, j, Ready)
    case Enqueue => Is(s, j, Ready) && |s.queue| < maxQueue
    case HandOut => Is(s, j, Enqueued) && !s.stop
    case GoLate => Is(s, j, Enqueued) && s.stop
    case Read => Is(s, j, Direct) && Buffered(s.clients[j])
    case Forward => Is(s, j, Watching) && Buffered(s.clients[j])
    case SeeFinished => Is(s, j, Watching) && s.finished
    case Recheck => Is(s, j, Rechecking)
  }

  predicate LoopEnabled(s: State, move: LoopMove)
  {
    match move
    case Take => s.loop.phase == Selecting && s.loop.held == [] && s.queue != []
    case Pack => s.loop.phase == Selecting && s.loop.held != []
    case Flush => s.loop.phase == Selecting && s.loop.batch != []
    case SeeStop => s.loop.phase == Selecting && s.loop.held == [] && s.stop
    case CallAnswered => s.loop.phase == Calling
    case CallGivesUp => s.loop.phase == Calling && s.stop
    case Deliver => s.loop.phase.Delivering? && s.loop.batch != [] && Room(s, s.loop.batch[0])
    case FlushDone => s.loop.phase.Delivering? && s.loop.batch == []
    case DrainTake => s.loop.phase == Draining && s.loop.held == [] && s.queue != []
    case DrainRefuse => s.loop.phase == Draining && s.loop.held != [] && Room(s, s.loop.held[0])
    case DrainEnd => s.loop.phase == Draining && s.loop.held == [] && s.queue == []
  }

  predicate SettlerEnabled(s: State, who: Who, move: SettlerMove)
  {
    var t := SettlerOf(s, who);
    match move
    case SettleBegin =>
      && t == Waiting
      && (who == Watcher ==> s.loop.phase == Exited)
      && (who == Closer ==> s.closing && (Started(s) ==> s.loop.phase == Exited))
    case SettleTake => t == Settling([]) && s.queue != []
    case SettleRefuse => t.Settling? && t.held != [] && Room(s, t.held[0])
    case SettleEmpty => t == Settling([]) && s.queue == []
    case SettleFinish => t == Emptied
  }

  predicate Enabled(s: State, step: Step, maxQueue: nat)
  {
    match step
    case Start => !Started(s) && !s.closing
    case SignalStop => true
    case Close => true
    case ByClient(j, move) => ClientEnabled(s, j, move, maxQueue)
    case ByLoop(move) => LoopEnabled(s, move)
    case BySettler(who, move) => SettlerEnabled(s, who, move)
  }

  function WithPc(s: State, j: JobId, pc: Pc): State
    requires j in s.clients
  {
    s.(clients := s.clients[j := s.clients[j].(pc := pc)])
  }

  /** j.done <- r */
  function Write(s: State, j: JobId, r: Result): State
    requires j in s.clients
  {
    s.(clients := s.clients[j := s.clients[j].(written := s.clients[j].written + [r])])
  }

  /** The watcher receives from `done` and passes the result on. */
  function ForwardTo(s: State, j: JobId): State
    requires j in s.clients && s.clients[j].written != []
  {
    var c := s.clients[j];
    s.(clients := s.clients[j := c.(pc := Told, taken := true, out := c.out + [c.written[|c.written| - 1]])])
  }

  function ClientApply(s: State, j: JobId, move: ClientMove): State
    requires ClientEnabled(s, j, move, |s.queue| + 1)
  {
    match move
    case Submit => s.(clients := s.clients[j := Client(Entering, [], false, [])])
    case FastFail => WithPc(s, j, Rejected)
    case FastPass => WithPc(s, j, Ready)
    case SelectStop => WithPc(s, j, Rejected)
    case SelectCancel => WithPc(s, j, Rejected)
    case Enqueue => WithPc(s, j, Enqueued).(queue := s.queue + [j])
    case HandOut => WithPc(s, j, Direct)
    case GoLate => WithPc(s, j, Watching)
    case Read => s.(clients := s.clients[j := s.clients[j].(taken := true)])
    case Forward => ForwardTo(s, j)
    case SeeFinished => WithPc(s, j, Rechecking)
    case Recheck =>
      var c := s.clients[j];
      if Buffered(c) then ForwardTo(s, j)
      else s.(clients := s.clients[j := c.(pc := Told, out := c.out + [Refused])])
  }

  function LoopApply(s: State, move: LoopMove): State
    requires LoopEnabled(s, move)
  {
    var l := s.loop;
    match move
    case Take => s.(queue := s.queue[1..], loop := l.(held := [s.queue[0]]))
    case Pack => s.(loop := l.(batch := l.batch + l.held, held := []))
    case Flush => s.(loop := l.(phase := Calling))
    case SeeStop => s.(loop := l.(phase := if l.batch == [] then Draining else Calling, stopping := true))
    case CallAnswered => s.(loop := l.(phase := Delivering(Outcome)), applied := s.applied + set j | j in l.batch)
    case CallGivesUp => s.(loop := l.(phase := Delivering(Refused)))
    case Deliver => Write(s, l.batch[0], l.phase.result).(loop := l.(batch := l.batch[1..]))
    case FlushDone => s.(loop := l.(phase := if l.stopping then Draining else Selecting))
    case DrainTake => s.(queue := s.queue[1..], loop := l.(held := [s.queue[0]]))
    case DrainRefuse => Write(s, l.held[0], Refused).(loop := l.(held := []))
    case DrainEnd => s.(loop := l.(phase := Exited))
  }

  function SettlerApply(s: State, who: Who, move: SettlerMove): State
    requires SettlerEnabled(s, who, move)
  {
    match move
    case SettleBegin => WithSettler(s, who, Settling([]))
    case SettleTake => WithSettler(s.(queue := s.queue[1..]), who, Settling([s.queue[0]]))
    case SettleRefuse => WithSettler(Write(s, SettlerOf(s, who).held[0], Refused), who, Settling([]))
    case SettleEmpty => WithSettler(s, who, Emptied)
    case SettleFinish => WithSettler(s, who, Over).(finished := true)
  }

  function Apply(s: State, step: Step, maxQueue: nat): State
    requires Enabled(s, step, maxQueue)
  {
    match step
    case Start => s.(loop := s.loop.(phase := Selecting))
    case SignalStop => s.(stop := true)
    case Close => s.(stop := true, closing := true)
    case ByClient(j, move) => ClientApply(s, j, move)
    case ByLoop(move) => LoopApply(s, move)
    case BySettler(who, move) => SettlerApply(s, who, move)
  }

  /******* Where a command is *******/

  function Count(q: seq<JobId>, j: JobId): nat { multiset(q)[j] }

  function HeldBy(t: Settler): seq<JobId>
  {
    if t.Settling? then t.held else []
  }

  /** How many goroutines or buffers have this command to answer. */
  function Places(s: State, j: JobId): nat
  {
    Count(s.queue, j) + Count(s.loop.batch, j) + Count(s.loop.held, j) +
    Count(HeldBy(s.watcher), j) + Count(HeldBy(s.closer), j)
  }

  predicate HasEntered(pc: Pc)
  {
    pc != Entering && pc != Ready && pc != Rejected
  }

  /** A command that got onto the queue is in one place until its channel is written, once. */
  predicate Conserved(s: State, j: JobId)
  {
    if j !in s.clients then Places(s, j) == 0
    else Places(s, j) + |s.clients[j].written| == if HasEntered(s.clients[j].pc) then 1 else 0
  }

  predicate Clear(s: State, who: Who)
  {
    SettlerOf(s, who).Emptied? || SettlerOf(s, who).Over?
  }

  /** The order of shutdown: stop, then the loop's end, then settling, then finished. */
  predicate Ordered(s: State)
  {
    && (s.closing || s.finished || s.loop.stopping || s.loop.phase in {Draining, Exited} ==> s.stop)
    && (s.closer != Waiting ==> s.closing && (s.loop.phase in {NotStarted, Exited}))
    && (s.watcher != Waiting ==> s.loop.phase == Exited)
    && (s.loop.phase in {NotStarted, Exited, Draining} ==> s.loop.batch == [])
    && (s.loop.phase in {NotStarted, Exited} ==> s.loop.held == [])
    && (s.loop.phase in {NotStarted, Selecting} ==> !s.loop.stopping)
    && (s.loop.phase in {Draining, Exited} ==> s.loop.stopping)
    && (s.loop.phase.Delivering? && s.loop.phase.result == Refused ==> s.stop)
    && (s.loop.stopping && s.loop.phase != Draining ==> s.loop.held == [])
    && |s.loop.held| <= 1 && |HeldBy(s.watcher)| <= 1 && |HeldBy(s.closer)| <= 1
    && (s.finished <==> s.watcher == Over || s.closer == Over)
  }

  /** What SubmitAsync, the readers and the watchers have done with a command. */
  predicate Consistent(s: State, j: JobId)
  {
    j in s.clients ==>
      var c := s.clients[j];
      && (c.taken ==> c.written != [] && c.pc in {Direct, Told})
      && (c.pc in {Watching, Rechecking, Told} ==> s.stop)
      && (c.pc == Rechecking ==> s.finished)
      && |c.out| == (if c.pc == Told then 1 else 0)
      && (Refused in c.out ==> s.finished || Refused in c.written)
  }

  /** Behind the last drain no command that was handed its channel directly is left. */
  predicate Behind(s: State, j: JobId)
  {
    Is(s, j, Direct) ==>
      && (s.loop.phase == Exited || Clear(s, Watcher) || Clear(s, Closer) ==> Count(s.queue, j) == 0)
      && (s.loop.phase == Exited ==> Count(HeldBy(s.watcher), j) == 0 && Count(HeldBy(s.closer), j) == 0)
  }

  /** A command TigerBeetle has applied is never told otherwise. */
  predicate Truthful(s: State, j: JobId)
  {
    j in s.applied ==>
      && j in s.clients && HasEntered(s.clients[j].pc)
      && Refused !in s.clients[j].written && Refused !in s.clients[j].out
      && (s.clients[j].written == [] ==> s.loop.phase == Delivering(Outcome) && Count(s.loop.batch, j) > 0)
  }

  predicate Fine(s: State, j: JobId)
  {
    Conserved(s, j) && Consistent(s, j) && Behind(s, j) && Truthful(s, j)
  }

  /******* Every step keeps it *******/

  /** The facts about counting that the steps need: taking a head, appending one. */
  lemma {:induction false} QueueCounts(q: seq<JobId>, i: JobId, j: JobId)
    ensures Count(q + [i], j) == Count(q, j) + Count([i], j)
    ensures Count([i], j) == (if i == j then 1 else 0) && Count([], j) == 0
    ensures q != [] ==> Count(q, j) == Count(q[1..], j) + if q[0] == j then 1 else 0
    ensures q != [] ==> Count([q[0]], j) == if q[0] == j then 1 else 0
    ensures |q| == 1 ==> q[1..] == [] && q == [q[0]]
    ensures j in q <==> Count(q, j) > 0
  {
    if q != [] { assert q == [q[0]] + q[1..]; }
  }

  lemma {:induction false} ClientOrdered(s: State, j: JobId, move: ClientMove)
    requires Ordered(s) && ClientEnabled(s, j, move, |s.queue| + 1)
    ensures Ordered(ClientApply(s, j, move))
  {
    hide Room, Count;
  }

  lemma {:induction false} LoopOrdered(s: State, move: LoopMove)
    requires Ordered(s) && LoopEnabled(s, move)
    ensures Ordered(LoopApply(s, move))
  {
    hide Room, Count;
  }

  lemma {:induction false} SettlerOrdered(s: State, who: Who, move: SettlerMove)
    requires Ordered(s) && SettlerEnabled(s, who, move)
    ensures Ordered(SettlerApply(s, who, move))
  {
    hide Room, Count;
  }

  /** Nothing about j differs between the two states. */
  predicate SameFor(s: State, t: State, j: JobId)
  {
    && (j in s.clients <==> j in t.clients)
    && (j in s.clients ==> s.clients[j] == t.clients[j])
    && t == s.(clients := t.clients, queue := t.queue)
    && Count(t.queue, j) == Count(s.queue, j)
  }

  lemma {:induction false} OthersMove(s: State, i: JobId, move: ClientMove, j: JobId)
    requires ClientEnabled(s, i, move, |s.queue| + 1) && i != j
    ensures SameFor(s, ClientApply(s, i, move), j)
  {
    hide Count;
    QueueCounts(s.queue, i, j);
  }

  lemma {:induction false} SameStaysFine(s: State, t: State, j: JobId)
    requires SameFor(s, t, j) && Fine(s, j)
    ensures Fine(t, j)
  {
    hide Count;
  }

  lemma {:induction false} OwnPlaces(s: State, j: JobId, move: ClientMove)
    requires ClientEnabled(s, j, move, |s.queue| + 1)
    ensures Places(ClientApply(s, j, move), j) == Places(s, j) + if move == Enqueue then 1 else 0
  {
    hide Count;
    QueueCounts(s.queue, j, j);
  }

  lemma {:induction false} OwnConserved(s: State, j: JobId, move: ClientMove)
    requires Conserved(s, j) && ClientEnabled(s, j, move, |s.queue| + 1)
    ensures Conserved(ClientApply(s, j, move), j)
  {
    hide Places, Count;
    OwnPlaces(s, j, move);
  }

  lemma {:induction false} OwnConsistent(s: State, j: JobId, move: ClientMove)
    requires Consistent(s, j) && ClientEnabled(s, j, move, |s.queue| + 1)
    ensures Consistent(ClientApply(s, j, move), j)
  {
    hide Places, Count;
  }

  lemma {:induction false} OwnBehind(s: State, j: JobId, move: ClientMove)
    requires Ordered(s) && Behind(s, j) && ClientEnabled(s, j, move, |s.queue| + 1)
    ensures Behind(ClientApply(s, j, move), j)
  {
    hide Places, Count;
    if move == HandOut { NotStopped(s); } else { hide Ordered; }
  }

  /** While stop is open nobody has ended, nobody settles, and nothing is finished. */
  lemma {:induction false} NotStopped(s: State)
    requires Ordered(s) && !s.stop
    ensures s.loop.phase != Exited && s.watcher == Waiting && s.closer == Waiting && !s.finished
  {
  }

  lemma {:induction false} OwnTruthful(s: State, j: JobId, move: ClientMove)
    requires Ordered(s) && Fine(s, j) && ClientEnabled(s, j, move, |s.queue| + 1)
    ensures Truthful(ClientApply(s, j, move), j)
  {
    hide Places, Count, Conserved;
    if move == Recheck {
      assert s.finished;
    } else {
      hide Ordered;
    }
  }

  /** The command whose channel a move of the loop writes, if any. */
  function LoopWrites(s: State, move: LoopMove): seq<JobId>
    requires LoopEnabled(s, move)
  {
    match move
    case Deliver => [s.loop.batch[0]]
    case DrainRefuse => [s.loop.held[0]]
    case _ => []
  }

  lemma {:induction false} LoopPlaces(s: State, move: LoopMove, j: JobId)
    requires Ordered(s) && LoopEnabled(s, move)
    ensures Places(LoopApply(s, move), j) + Count(LoopWrites(s, move), j) == Places(s, j)
  {
    hide Count;
    QueueCounts(s.loop.held, j, j);
    match move {
      case Take => TakePlaces(s, move, j);
      case DrainTake => TakePlaces(s, move, j);
      case Pack => PackPlaces(s, j);
      case Deliver => DeliverPlaces(s, j);
      case DrainRefuse => hide Room;
      case _ => hide Room, Ordered;
    }
  }

  lemma {:induction false} TakePlaces(s: State, move: LoopMove, j: JobId)
    requires LoopEnabled(s, move) && (move == Take || move == DrainTake)
    ensures Places(LoopApply(s, move), j) + Count(LoopWrites(s, move), j) == Places(s, j)
  {
    hide Count;
    QueueCounts(s.queue, j, j);
  }

  lemma {:induction false} PackPlaces(s: State, j: JobId)
    requires LoopEnabled(s, Pack) && |s.loop.held| <= 1
    ensures Places(LoopApply(s, Pack), j) + Count(LoopWrites(s, Pack), j) == Places(s, j)
  {
    hide Count, Room;
    QueueCounts(s.loop.batch, s.loop.held[0], j);
    QueueCounts(s.loop.held, j, j);
  }

  lemma {:induction false} DeliverPlaces(s: State, j: JobId)
    requires LoopEnabled(s, Deliver)
    ensures Places(LoopApply(s, Deliver), j) + Count(LoopWrites(s, Deliver), j) == Places(s, j)
  {
    hide Count;
    QueueCounts(s.loop.batch, j, j);
  }

  lemma {:induction false} LoopConserved(s: State, move: LoopMove, j: JobId)
    requires Ordered(s) && Conserved(s, j) && LoopEnabled(s, move)
    ensures Conserved(LoopApply(s, move), j)
  {
    hide Places, Count, Ordered;
    LoopPlaces(s, move, j);
    QueueCounts([], if LoopWrites(s, move) == [] then j else LoopWrites(s, move)[0], j);
  }

  lemma {:induction false} LoopConsistent(s: State, move: LoopMove, j: JobId)
    requires Consistent(s, j) && LoopEnabled(s, move)
    ensures Consistent(LoopApply(s, move), j)
  {
    hide Places, Count;
  }

  lemma {:induction false} LoopBehind(s: State, move: LoopMove, j: JobId)
    requires Ordered(s) && Behind(s, j) && LoopEnabled(s, move)
    ensures Behind(LoopApply(s, move), j)
  {
    match move {
      case DrainEnd => DrainEndBehind(s, j);
      case Deliver => WriteBehind(s, move, j);
      case DrainRefuse => WriteBehind(s, move, j);
      case Take => TakeBehind(s, move, j);
      case DrainTake => TakeBehind(s, move, j);
      case _ => hide Count, Room, Ordered;
    }
  }

  lemma {:induction false} TakeBehind(s: State, move: LoopMove, j: JobId)
    requires Behind(s, j) && LoopEnabled(s, move) && (move == Take || move == DrainTake)
    ensures Behind(LoopApply(s, move), j)
  {
    hide Count;
    QueueCounts(s.queue, j, j);
  }

  lemma {:induction false} WriteBehind(s: State, move: LoopMove, j: JobId)
    requires Behind(s, j) && LoopEnabled(s, move) && (move == Deliver || move == DrainRefuse)
    ensures Behind(LoopApply(s, move), j)
  {
    hide Count;
  }

  lemma {:induction false} DrainEndBehind(s: State, j: JobId)
    requires Ordered(s) && Behind(s, j) && LoopEnabled(s, DrainEnd)
    ensures Behind(LoopApply(s, DrainEnd), j)
  {
    hide Places;
  }

  lemma {:induction false} LoopTruthful(s: State, move: LoopMove, j: JobId)
    requires Ordered(s) && Fine(s, j) && LoopEnabled(s, move)
    ensures Truthful(LoopApply(s, move), j)
  {
    match move {
      case CallAnswered => CallAnsweredTruthful(s, j);
      case Deliver => DeliverTruthful(s, j);
      case DrainRefuse => DrainRefuseTruthful(s, j);
      case FlushDone => hide Places, Room, Ordered, Consistent, Behind;
      case _ => hide Places, Count, Room, Ordered, Conserved, Consistent, Behind;
    }
  }

  lemma {:induction false} CallAnsweredTruthful(s: State, j: JobId)
    requires Ordered(s) && Fine(s, j) && LoopEnabled(s, CallAnswered)
    ensures Truthful(LoopApply(s, CallAnswered), j)
  {
    hide Count, Behind;
    QueueCounts(s.loop.batch, j, j);
  }

  lemma {:induction false} DeliverTruthful(s: State, j: JobId)
    requires Ordered(s) && Fine(s, j) && LoopEnabled(s, Deliver)
    ensures Truthful(LoopApply(s, Deliver), j)
  {
    hide Count, Behind, Consistent, Ordered;
    QueueCounts(s.loop.batch, j, j);
  }

  lemma {:induction false} DrainRefuseTruthful(s: State, j: JobId)
    requires Ordered(s) && Fine(s, j) && LoopEnabled(s, DrainRefuse)
    ensures Truthful(LoopApply(s, DrainRefuse), j)
  {
    hide Count, Behind, Consistent;
    QueueCounts(s.loop.held, j, j);
  }

  lemma {:induction false} SettlerConserved(s: State, who: Who, move: SettlerMove, j: JobId)
    requires Ordered(s) && Conserved(s, j) && SettlerEnabled(s, who, move)
    ensures Conserved(SettlerApply(s, who, move), j)
  {
    hide Count;
    QueueCounts(s.queue, j, j);
    QueueCounts(HeldBy(SettlerOf(s, who)), j, j);
  }

  lemma {:induction false} SettlerConsistent(s: State, who: Who, move: SettlerMove, j: JobId)
    requires Consistent(s, j) && SettlerEnabled(s, who, move)
    ensures Consistent(SettlerApply(s, who, move), j)
  {
    hide Places, Count;
  }

  lemma {:induction false} SettlerBehind(s: State, who: Who, move: SettlerMove, j: JobId)
    requires Ordered(s) && Behind(s, j) && SettlerEnabled(s, who, move)
    ensures Behind(SettlerApply(s, who, move), j)
  {
    hide Places, Count;
    QueueCounts(s.queue, j, j);
    QueueCounts(HeldBy(SettlerOf(s, who)), j, j);
  }

  lemma {:induction false} SettlerTruthful(s: State, who: Who, move: SettlerMove, j: JobId)
    requires Ordered(s) && Fine(s, j) && SettlerEnabled(s, who, move)
    ensures Truthful(SettlerApply(s, who, move), j)
  {
    hide Count;
    QueueCounts(s.queue, j, j);
    QueueCounts(HeldBy(SettlerOf(s, who)), j, j);
  }

  lemma {:induction false} SignalKeeps(s: State, step: Step, j: JobId, maxQueue: nat)
    requires Ordered(s) && Fine(s, j) && Enabled(s, step, maxQueue)
    requires step.Start? || step.SignalStop? || step.Close?
    ensures Ordered(Apply(s, step, maxQueue)) && Fine(Apply(s, step, maxQueue), j)
  {
    hide Count, ClientEnabled, LoopEnabled, SettlerEnabled, ClientApply, LoopApply, SettlerApply;
  }

  lemma {:induction false} FineKeeps(s: State, step: Step, j: JobId, maxQueue: nat)
    requires Ordered(s) && Fine(s, j) && Enabled(s, step, maxQueue)
    ensures Ordered(Apply(s, step, maxQueue)) && Fine(Apply(s, step, maxQueue), j)
  {
    hide Ordered, Conserved, Consistent, Behind, Truthful, LoopEnabled, SettlerEnabled;
    hide ClientApply, LoopApply, SettlerApply;
    match step {
      case ByClient(i, move) =>
        ClientMoves(s, i, move, j, maxQueue);
      case ByLoop(move) =>
        LoopOrdered(s, move);
        LoopConserved(s, move, j);
        LoopConsistent(s, move, j);
        LoopBehind(s, move, j);
        LoopTruthful(s, move, j);
      case BySettler(who, move) =>
        SettlerOrdered(s, who, move);
        SettlerConserved(s, who, move, j);
        SettlerConsistent(s, who, move, j);
        SettlerBehind(s, who, move, j);
        SettlerTruthful(s, who, move, j);
      case _ => SignalKeeps(s, step, j, maxQueue);
    }
  }

  lemma {:induction false} ClientMoves(s: State, i: JobId, move: ClientMove, j: JobId, maxQueue: nat)
    requires Ordered(s) && Fine(s, j) && ClientEnabled(s, i, move, maxQueue)
    ensures ClientEnabled(s, i, move, |s.queue| + 1)
    ensures Ordered(ClientApply(s, i, move)) && Fine(ClientApply(s, i, move), j)
  {
    hide Ordered, Conserved, Consistent, Behind, Truthful, SameFor, ClientApply;
    ClientOrdered(s, i, move);
    if i != j {
      OthersMove(s, i, move, j);
      SameStaysFine(s, ClientApply(s, i, move), j);
    } else {
      OwnConserved(s, j, move);
      OwnConsistent(s, j, move);
      OwnBehind(s, j, move);
      OwnTruthful(s, j, move);
    }
  }

  ghost predicate Behavior(states: seq<State>, steps: seq<Step>, maxQueue: nat)
  {
    && |states| == |steps| + 1 && states[0] == INIT
    && forall i :: 0 <= i < |steps| ==>
         Enabled(states[i], steps[i], maxQueue) && states[i + 1] == Apply(states[i], steps[i], maxQueue)
  }

  lemma {:induction false} RunsKeepInv(states: seq<State>, steps: seq<Step>, maxQueue: nat, n: nat, j: JobId)
    requires Behavior(states, steps, maxQueue) && n < |states|
    ensures Ordered(states[n]) && Fine(states[n], j)
  {
    if n > 0 {
      RunsKeepInv(states, steps, maxQueue, n - 1, j);
      hide Ordered, Fine, Enabled, Apply;
      FineKeeps(states[n - 1], steps[n - 1], j, maxQueue);
    }
  }

  /******* What every run guarantees *******/

  /** Neither a command's channel nor its watcher's channel is ever written twice. */
  lemma {:induction false} AnsweredAtMostOnce(states: seq<State>, steps: seq<Step>, maxQueue: nat, n: nat, j: JobId)
    requires Behavior(states, steps, maxQueue) && n < |states| && j in states[n].clients
    ensures |states[n].clients[j].written| <= 1 && |states[n].clients[j].out| <= 1
    ensures !HasEntered(states[n].clients[j].pc) ==> states[n].clients[j].written == []
  {
    RunsKeepInv(states, steps, maxQueue, n, j);
  }

  /**
   * A command whose caller holds `done` itself has its answer once the loop
   * has ended and, when there never was a loop, once Close has settled.
   */
  lemma {:induction false} DirectIsAnswered(states: seq<State>, steps: seq<Step>, maxQueue: nat, n: nat, j: JobId)
    requires Behavior(states, steps, maxQueue) && n < |states| && Is(states[n], j, Direct)
    requires states[n].loop.phase == Exited || states[n].finished
    ensures |states[n].clients[j].written| == 1
  {
    RunsKeepInv(states, steps, maxQueue, n, j);
    hide Count;
    QueueCounts([], j, j);
  }

  /** A late command's channel has its one result exactly when its watcher is done with it. */
  lemma {:induction false} LateIsToldOnce(states: seq<State>, steps: seq<Step>, maxQueue: nat, n: nat, j: JobId)
    requires Behavior(states, steps, maxQueue) && n < |states| && j in states[n].clients
    ensures |states[n].clients[j].out| == if states[n].clients[j].pc == Told then 1 else 0
  {
    RunsKeepInv(states, steps, maxQueue, n, j);
  }

  /**
   * Once finished is closed nothing can keep a late command's watcher from
   * telling its result, and an answer that is already there wins over ErrClosed.
   */
  lemma {:induction false} LateIsTold(states: seq<State>, steps: seq<Step>, maxQueue: nat, n: nat, j: JobId)
    requires Behavior(states, steps, maxQueue) && n < |states|
    requires states[n].finished && Is(states[n], j, Watching)
    ensures var s, seen, again := states[n], ByClient(j, SeeFinished), ByClient(j, Recheck);
            && Enabled(s, seen, maxQueue) && Enabled(Apply(s, seen, maxQueue), again, maxQueue)
            && var told := Apply(Apply(s, seen, maxQueue), again, maxQueue).clients[j];
               told.pc == Told && told.out == if s.clients[j].written == [] then [Refused] else s.clients[j].written
  {
    RunsKeepInv(states, steps, maxQueue, n, j);
    hide Behavior;
    WatcherTells(states[n], j, maxQueue);
  }

  lemma {:induction false} WatcherTells(s: State, j: JobId, maxQueue: nat)
    requires Ordered(s) && Fine(s, j) && s.finished && Is(s, j, Watching)
    ensures var seen, again := ByClient(j, SeeFinished), ByClient(j, Recheck);
            && Enabled(s, seen, maxQueue) && Enabled(Apply(s, seen, maxQueue), again, maxQueue)
            && var told := Apply(Apply(s, seen, maxQueue), again, maxQueue).clients[j];
               told.pc == Told && told.out == if s.clients[j].written == [] then [Refused] else s.clients[j].written
  {
    hide LoopEnabled, SettlerEnabled, LoopApply, SettlerApply, Behind, Truthful;
  }

  /**
   * A command of a batch TigerBeetle has answered is never told ErrClosed: not
   * by its channel, not by its watcher, and not by SubmitAsync; what it is
   * told is the outcome.
   */
  lemma {:induction false} AppliedIsNeverRefused(states: seq<State>, steps: seq<Step>, maxQueue: nat, n: nat, j: JobId)
    requires Behavior(states, steps, maxQueue) && n < |states| && j in states[n].applied
    ensures j in states[n].clients && states[n].clients[j].pc != Rejected
    ensures forall r :: r in states[n].clients[j].written || r in states[n].clients[j].out ==> r == Outcome
    ensures states[n].loop.phase == Exited ==> states[n].clients[j].written == [Outcome]
  {
    RunsKeepInv(states, steps, maxQueue, n, j);
    var written := states[n].clients[j].written;
    if states[n].loop.phase == Exited { assert |written| == 1 && written[0] in written; }
  }

  /** Whoever has a command to answer can: `done` always has room for the one write. */
  lemma {:induction false} WritesNeverBlock(states: seq<State>, steps: seq<Step>, maxQueue: nat, n: nat, j: JobId)
    requires Behavior(states, steps, maxQueue) && n < |states| && Places(states[n], j) > 0
    ensures Room(states[n], j)
  {
    RunsKeepInv(states, steps, maxQueue, n, j);
  }

  lemma {:induction false} HeldHasAPlace(s: State)
    ensures s.loop.batch != [] ==> Places(s, s.loop.batch[0]) > 0
    ensures s.loop.held != [] ==> Places(s, s.loop.held[0]) > 0
    ensures forall who: Who :: HeldBy(SettlerOf(s, who)) != [] ==> Places(s, HeldBy(SettlerOf(s, who))[0]) > 0
  {
  }

  /**
   * Shutdown does not deadlock: once stop is closed the loop, until it has
   * ended, and then a settler, until it is through, can always move, whatever
   * the submitters do.
   */
  lemma {:induction false} ShutdownCanMove(states: seq<State>, steps: seq<Step>, maxQueue: nat, n: nat)
    requires Behavior(states, steps, maxQueue) && n < |states| && states[n].stop
    ensures Started(states[n]) && states[n].loop.phase != Exited ==> exists move :: LoopEnabled(states[n], move)
    ensures states[n].loop.phase == Exited && states[n].watcher != Over ==>
              exists move :: SettlerEnabled(states[n], Watcher, move)
    ensures states[n].closing && (Started(states[n]) ==> states[n].loop.phase == Exited) && states[n].closer != Over ==>
              exists move :: SettlerEnabled(states[n], Closer, move)
  {
    var s := states[n];
    RunsKeepInv(states, steps, maxQueue, n, 0);
    HeldHasAPlace(s);
    if s.loop.batch != [] { WritesNeverBlock(states, steps, maxQueue, n, s.loop.batch[0]); }
    if s.loop.held != [] { WritesNeverBlock(states, steps, maxQueue, n, s.loop.held[0]); }
    var w, c := HeldBy(s.watcher), HeldBy(s.closer);
    if w != [] { assert w == HeldBy(SettlerOf(s, Watcher)); WritesNeverBlock(states, steps, maxQueue, n, w[0]); }
    if c != [] { assert c == HeldBy(SettlerOf(s, Closer)); WritesNeverBlock(states, steps, maxQueue, n, c[0]); }
    hide Behavior, Fine, Places, Count, Room;
    if Started(s) && s.loop.phase != Exited { LoopCanMove(s); }
    SettlerCanMove(s, Watcher);
    SettlerCanMove(s, Closer);
  }

  lemma {:induction false} LoopCanMove(s: State)
    requires Ordered(s) && Started(s) && s.stop && s.loop.phase != Exited
    requires s.loop.batch != [] ==> Room(s, s.loop.batch[0])
    requires s.loop.held != [] ==> Room(s, s.loop.held[0])
    ensures exists move :: LoopEnabled(s, move)
  {
    var move :=
      match s.loop.phase
      case Calling => CallGivesUp
      case Delivering(_) => if s.loop.batch == [] then FlushDone else Deliver
      case Draining => if s.loop.held != [] then DrainRefuse else if s.queue != [] then DrainTake else DrainEnd
      case _ => if s.loop.held != [] then Pack else SeeStop;
    assert LoopEnabled(s, move);
  }

  lemma {:induction false} SettlerCanMove(s: State, who: Who)
    requires Ordered(s) && s.stop
    requires HeldBy(SettlerOf(s, who)) != [] ==> Room(s, HeldBy(SettlerOf(s, who))[0])
    ensures SettlerOf(s, who) != Over && (Started(s) ==> s.loop.phase == Exited) &&
            (if who == Closer then s.closing else Started(s))
            ==> exists move :: SettlerEnabled(s, who, move)
  {
    var t := SettlerOf(s, who);
    var move :=
      match t
      case Waiting => SettleBegin
      case Settling(held) => if held != [] then SettleRefuse else if s.queue != [] then SettleTake else SettleEmpty
      case _ => SettleFinish;
    if t != Over && (Started(s) ==> s.loop.phase == Exited) && (if who == Closer then s.closing else Started(s)) {
      assert SettlerEnabled(s, who, move);
    }
  }

  /******* Shutdown ends *******/

  /** Submissions that may still put their command on the queue. */
  function ReadyJobs(s: State): set<JobId>
  {
    set j | j in s.clients && s.clients[j].pc == Ready
  }

  function PhaseRank(phase: Phase): nat
  {
    match phase
    case NotStarted => 10
    case Selecting => 4
    case Calling => 7
    case Delivering(_) => 6
    case Draining => 3
    case Exited => 0
  }

  function SettlerRank(t: Settler): nat
  {
    match t
    case Waiting => 5
    case Settling(held) => 3 + 12 * |held|
    case Emptied => 2
    case Over => 0
  }

  /**
   * What is left to do. A command weighs less at every place it comes to on
   * its way; one in a batch that is being sent weighs so much less than one in
   * a batch that is not that another turn of the loop is paid for.
   */
  function Measure(s: State): nat
  {
    14 * |ReadyJobs(s)| + 13 * |s.queue| + 12 * |s.loop.held| +
    (if s.loop.phase in {NotStarted, Selecting} then 10 * |s.loop.batch| else 5 * |s.loop.batch|) +
    PhaseRank(s.loop.phase) + SettlerRank(s.watcher) + SettlerRank(s.closer)
  }

  lemma {:induction false} ReadyAfter(s: State, t: State, j: JobId)
    requires forall i :: i != j ==> (i in t.clients <==> i in s.clients)
    requires forall i :: i != j && i in s.clients ==> t.clients[i].pc == s.clients[i].pc
    ensures Is(s, j, Ready) == Is(t, j, Ready) ==> ReadyJobs(t) == ReadyJobs(s)
    ensures Is(s, j, Ready) && !Is(t, j, Ready) ==> |ReadyJobs(t)| == |ReadyJobs(s)| - 1
  {
    if Is(s, j, Ready) && !Is(t, j, Ready) { assert ReadyJobs(t) == ReadyJobs(s) - {j}; }
  }

  lemma {:induction false} ClientsOnlyShrink(s: State, j: JobId, move: ClientMove)
    requires s.stop && ClientEnabled(s, j, move, |s.queue| + 1)
    ensures ClientApply(s, j, move).stop && Measure(ClientApply(s, j, move)) <= Measure(s)
  {
    ReadyAfter(s, ClientApply(s, j, move), j);
    hide ReadyJobs, Buffered;
  }

  lemma {:induction false} LoopShrinks(s: State, move: LoopMove)
    requires LoopEnabled(s, move)
    ensures LoopApply(s, move).stop == s.stop && Measure(LoopApply(s, move)) < Measure(s)
  {
    var j := if LoopWrites(s, move) == [] then 0 else LoopWrites(s, move)[0];
    ReadyAfter(s, LoopApply(s, move), j);
    hide ReadyJobs, Buffered;
  }

  lemma {:induction false} SettlerShrinks(s: State, who: Who, move: SettlerMove)
    requires SettlerEnabled(s, who, move)
    ensures SettlerApply(s, who, move).stop == s.stop && Measure(SettlerApply(s, who, move)) < Measure(s)
  {
    var j := if move == SettleRefuse then SettlerOf(s, who).held[0] else 0;
    ReadyAfter(s, SettlerApply(s, who, move), j);
    hide ReadyJobs, Buffered;
  }

  /** A move of the loop or of a settler. */
  predicate IsMove(step: Step) { step.ByLoop? || step.BySettler? }

  function Moves(steps: seq<Step>): nat
  {
    if steps == [] then 0 else Moves(steps[..|steps| - 1]) + if IsMove(steps[|steps| - 1]) then 1 else 0
  }

  lemma {:induction false} SignalShrinks(s: State, step: Step, maxQueue: nat)
    requires s.stop && Enabled(s, step, maxQueue) && (step.Start? || step.SignalStop? || step.Close?)
    ensures Apply(s, step, maxQueue).stop && Measure(Apply(s, step, maxQueue)) <= Measure(s)
  {
    assert ReadyJobs(Apply(s, step, maxQueue)) == ReadyJobs(s);
    hide ReadyJobs, ClientEnabled, LoopEnabled, SettlerEnabled, ClientApply, LoopApply, SettlerApply;
  }

  lemma {:induction false} AnyQueueLimit(s: State, j: JobId, move: ClientMove, maxQueue: nat)
    requires ClientEnabled(s, j, move, maxQueue)
    ensures ClientEnabled(s, j, move, |s.queue| + 1)
  {
  }

  /** After stop, every move of the loop or a settler uses up some of what is left, and nothing adds to it. */
  lemma {:induction false} StepShrinks(s: State, step: Step, maxQueue: nat)
    requires s.stop && Enabled(s, step, maxQueue)
    ensures Apply(s, step, maxQueue).stop
    ensures Measure(Apply(s, step, maxQueue)) + (if IsMove(step) then 1 else 0) <= Measure(s)
  {
    hide Measure, ClientEnabled, LoopEnabled, SettlerEnabled, ClientApply, LoopApply, SettlerApply;
    match step {
      case ByClient(j, move) =>
        AnyQueueLimit(s, j, move, maxQueue);
        ClientsOnlyShrink(s, j, move);
      case ByLoop(move) => LoopShrinks(s, move);
      case BySettler(who, move) => SettlerShrinks(s, who, move);
      case _ => SignalShrinks(s, step, maxQueue);
    }
  }

  /**
   * Shutdown ends: from the moment stop is closed, whatever the submitters do
   * and however they are interleaved, the loop and the settlers make no more
   * moves than there was left to do at that moment.
   */
  lemma {:induction false} ShutdownIsBounded(states: seq<State>, steps: seq<Step>, maxQueue: nat, n: nat, m: nat)
    requires Behavior(states, steps, maxQueue) && n <= m < |states| && states[n].stop
    ensures states[m].stop && Moves(steps[n..m]) + Measure(states[m]) <= Measure(states[n])
    decreases m
  {
    hide Measure, Enabled, Apply;
    if n < m {
      ShutdownIsBounded(states, steps, maxQueue, n, m - 1);
      StepShrinks(states[m - 1], steps[m - 1], maxQueue);
      assert steps[n..m] == steps[n..m - 1] + [steps[m - 1]];
      assert steps[n..m][..m - n - 1] == steps[n..m - 1];
    }
  }

  /** And when they have none left to make, finished is closed: no late command waits for ever. */
  lemma {:induction false} NothingLeftMeansFinished(states: seq<State>, steps: seq<Step>, maxQueue: nat, n: nat)
    requires Behavior(states, steps, maxQueue) && n < |states|
    requires states[n].stop && (Started(states[n]) || states[n].closing)
    requires forall move :: !LoopEnabled(states[n], move)
    requires forall who, move :: !SettlerEnabled(states[n], who, move)
    ensures states[n].finished
  {
    RunsKeepInv(states, steps, maxQueue, n, 0);
    ShutdownCanMove(states, steps, maxQueue, n);
    hide LoopEnabled, SettlerEnabled, Behavior, Fine;
  }
}
