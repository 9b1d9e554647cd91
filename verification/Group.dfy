/**
 * The consumer group as a whole (internal/sink/sink.go, internal/sink/offsets.go):
 * members polling, publishing, confirming, abandoning, committing, losing and
 * regaining partitions, and crashing, against brokers that acknowledge what
 * they please when they please.
 *
 * The theorem is the sink's promise: whenever the group has committed offset W
 * of a partition, every record below W was handed off with a final outcome,
 * and the broker has acknowledged every DLQ and results publication that
 * outcome calls for.
 */
module ConsumerGroup {
  import opened OffsetTracker
  import opened Options
  import opened Sink

  type MemberId = nat

  /**
   * What never changes during a run: every record each partition will ever
   * hold, and where the group starts reading.  A poll only returns what lies
   * below the position it moves to, so records appended during the run are
   * those a poll has not reached yet.
   */
  datatype Config = Config(log: iset<Record>, start: PartitionKey -> nat)

  ghost predicate ValidConfig(c: Config)
  {
    forall r, q :: r in c.log && q in c.log && r.key == q.key && r.offset == q.offset ==> r == q
  }

  /**
   * One hand-off of a record: where its publications begin in the group's
   * publication log, and the decision they come from.
   */
  datatype Entry = Entry(rec: Record, first: nat, p: Prepared, res: SubmitResult, panic: Option<nat>)

  /**
   * A commit under way: the offsets it took from the tracker, the partitions
   * the broker still accepts from it, and those it has accepted.
   */
  datatype Flight = Flight(snap: map<PartitionKey, EpochOffset>, open: set<PartitionKey>, landed: set<PartitionKey>)

  /**
   * One member's view of one partition.  `sent` is the last offset it took for
   * a commit since the partition was assigned to it, `left` the records of the
   * current batch that are not finished, and `issued` the publications in
   * flight for a prefix of those.
   */
  datatype Part = Part(
    mine: bool, st: PartitionState, position: int, sent: int, left: seq<Record>, issued: seq<Entry>)

  datatype State = State(
    parts: map<(MemberId, PartitionKey), Part>,
    owner: map<PartitionKey, MemberId>,
    committed: map<PartitionKey, int>,
    published: seq<Publication>,
    acked: set<nat>,
    entries: set<Entry>,
    flights: map<MemberId, Flight>)

  datatype Step =
    | Assign(m: MemberId, k: PartitionKey)
    | Poll(m: MemberId, k: PartitionKey, recs: seq<Record>, newPosition: nat)
    | HandOff(m: MemberId, k: PartitionKey, p: Prepared, res: SubmitResult, panic: Option<nat>)
    | Acknowledge(id: nat)
    | ConfirmFirst(m: MemberId, k: PartitionKey)
    | EndPass(m: MemberId, k: PartitionKey)
    | Abandon(m: MemberId)
    | BeginCommit(m: MemberId)
    | LandCommit(m: MemberId, k: PartitionKey)
    | EndCommit(m: MemberId, reported: bool)
    | Revoke(m: MemberId, k: PartitionKey)
    | Lose(k: PartitionKey)
    | Crash(m: MemberId)

  const UNKNOWN: Part := Part(false, TOMBSTONE, 0, 0, [], [])
  const INIT: State := State(map[], map[], map[], [], {}, {}, map[])

  /** The offset the broker holds for the group. */
  function Held(c: Config, s: State, k: PartitionKey): int
  {
    if k in s.committed then s.committed[k] else c.start(k)
  }

  function TrackAll(st: PartitionState, recs: seq<Record>): PartitionState
  {
    if recs == [] then st
    else
      var rec := recs[|recs| - 1];
      TrackState(Revived(TrackAll(st, recs[..|recs| - 1])), rec.offset, rec.epoch)
  }

  /** Track clears a tombstone and starts from clean state. */
  function Revived(st: PartitionState): PartitionState { if st.forgotten then FRESH else st }

  ghost function Finishing(st: PartitionState, rec: Record): PartitionState
  {
    if st.forgotten then st else DoneState(st, rec.offset, rec.epoch)
  }

  /** The partitions a member knows of. */
  function KeysOf(s: State, m: MemberId): (keys: set<PartitionKey>)
    ensures forall k :: k in keys <==> (m, k) in s.parts
  {
    var keys := set mk | mk in s.parts && mk.0 == m :: mk.1;
    assert forall k :: (m, k) in s.parts ==> (m, k).1 in keys;
    keys
  }

  /** What handing a record off publishes. */
  function PubsOf(e: Entry): seq<Publication>
  {
    match FinishRecord(e.rec, e.p, e.res, e.panic)
    case Issued(pubs) => pubs
    case Blocked(_) => []
  }

  /** The partition has a new owner or none: a commit begun before is not accepted for it any more. */
  function Fence(flights: map<MemberId, Flight>, k: PartitionKey): map<MemberId, Flight>
  {
    map m | m in flights :: flights[m].(open := flights[m].open - {k})
  }

  /** The offsets a member's commit takes. */
  ghost function Sending(s: State, m: MemberId): map<PartitionKey, EpochOffset>
  {
    map k | k in KeysOf(s, m) && CommitableState(s.parts[(m, k)].st).Some? :: CommitableState(s.parts[(m, k)].st).value
  }

  ghost predicate Enabled(c: Config, s: State, step: Step)
  {
    match step
    case Assign(m, k) => k !in s.owner && ((m, k) in s.parts ==> !s.parts[(m, k)].mine)
    case Poll(m, k, recs, newPosition) =>
      && (m, k) in s.parts && s.parts[(m, k)].mine && s.parts[(m, k)].left == []
      && s.parts[(m, k)].position <= newPosition
      && Ascending(recs)
      && (forall r :: r in recs <==> r in c.log && r.key == k && s.parts[(m, k)].position <= r.offset < newPosition)
    case HandOff(m, k, p, res, panic) =>
      && (m, k) in s.parts && |s.parts[(m, k)].issued| < |s.parts[(m, k)].left|
      && HasOutcome(p, res)
    case Acknowledge(id) => id < |s.published|
    case ConfirmFirst(m, k) =>
      && (m, k) in s.parts && s.parts[(m, k)].issued != [] && s.parts[(m, k)].left != []
      && AckedEntry(s, s.parts[(m, k)].issued[0])
    case EndPass(m, k) => (m, k) in s.parts
    case Abandon(m) => true
    case BeginCommit(m) => m !in s.flights
    case LandCommit(m, k) => m in s.flights && k in s.flights[m].open && k in s.flights[m].snap
    case EndCommit(m, reported) => m in s.flights && (reported ==> s.flights[m].landed == s.flights[m].snap.Keys)
    case Revoke(m, k) => (m, k) in s.parts
    case Lose(k) => true
    case Crash(m) => true
  }

  function AbandonPart(p: Part, at: Option<EpochOffset>): Part
  {
    match at
    case Some(eo) => p.(st := TOMBSTONE, position := eo.offset, left := [], issued := [])
    case None => p.(left := [], issued := [])
  }

  ghost function BeginPart(p: Part): Part
  {
    match CommitableState(p.st)
    case None => p
    case Some(eo) => p.(sent := eo.offset)
  }

  function MarkPart(p: Part, w: int): Part { p.(st := MarkState(p.st, w)) }

  ghost function Apply(c: Config, s: State, step: Step): State
    requires Enabled(c, s, step)
  {
    match step
    case Assign(m, k) =>
      var at := Held(c, s, k);
      var p := if (m, k) in s.parts then s.parts[(m, k)] else UNKNOWN;
      s.(parts := s.parts[(m, k) := Part(true, p.st, at, at, p.left, p.issued)], owner := s.owner[k := m])
    case Poll(m, k, recs, newPosition) =>
      var p := s.parts[(m, k)];
      s.(parts := s.parts[(m, k) := p.(st := TrackAll(p.st, recs), position := newPosition, left := recs,
        issued := [])])
    case HandOff(m, k, p, res, panic) =>
      var part := s.parts[(m, k)];
      var rec := part.left[|part.issued|];
      var e := Entry(rec, |s.published|, p, res, panic);
      s.(parts := s.parts[(m, k) := part.(issued := part.issued + [e])],
         published := s.published + PubsOf(e), entries := s.entries + {e})
    case Acknowledge(id) => s.(acked := s.acked + {id})
    case ConfirmFirst(m, k) =>
      var p := s.parts[(m, k)];
      s.(parts := s.parts[(m, k) := p.(st := Finishing(p.st, p.left[0]), left := p.left[1..], issued := p.issued[1..])])
    case EndPass(m, k) => s.(parts := s.parts[(m, k) := s.parts[(m, k)].(issued := [])])
    case Abandon(m) =>
      s.(parts := map mk | mk in s.parts ::
           if mk.0 == m then AbandonPart(s.parts[mk], PendingState(s.parts[mk].st)) else s.parts[mk])
    case BeginCommit(m) =>
      var snap := Sending(s, m);
      s.(parts := map mk | mk in s.parts :: if mk.0 == m then BeginPart(s.parts[mk]) else s.parts[mk],
         flights := s.flights[m := Flight(snap, set k | k in snap && k in s.owner && s.owner[k] == m, {})])
    case LandCommit(m, k) =>
      var f := s.flights[m];
      s.(committed := s.committed[k := f.snap[k].offset], flights := s.flights[m := f.(landed := f.landed + {k})])
    case EndCommit(m, reported) =>
      var f := s.flights[m];
      s.(parts := map mk | mk in s.parts ::
           if reported && mk.0 == m && mk.1 in f.snap then MarkPart(s.parts[mk], f.snap[mk.1].offset) else s.parts[mk],
         flights := s.flights - {m})
    case Revoke(m, k) =>
      var lost := k in s.owner && s.owner[k] == m;
      s.(parts := s.parts[(m, k) := s.parts[(m, k)].(mine := false, st := TOMBSTONE)],
         owner := if lost then s.owner - {k} else s.owner,
         flights := if lost then Fence(s.flights, k) else s.flights)
    case Lose(k) => s.(owner := s.owner - {k}, flights := Fence(s.flights, k))
    case Crash(m) =>
      s.(parts := map mk | mk in s.parts && mk.0 != m :: s.parts[mk],
         owner := map k | k in s.owner && s.owner[k] != m :: s.owner[k],
         flights := s.flights - {m})
  }

  /******* What has to hold *******/

  /** Every publication of this hand-off has been acknowledged. */
  ghost predicate AckedEntry(s: State, e: Entry)
  {
    forall i :: e.first <= i < e.first + |PubsOf(e)| ==> i in s.acked
  }

  /** The hand-off happened, and everything its decision calls for is in the log. */
  ghost predicate Complete(s: State, e: Entry)
  {
    && e in s.entries && HasOutcome(e.p, e.res)
    && e.first + |PubsOf(e)| <= |s.published|
    && s.published[e.first..e.first + |PubsOf(e)|] == PubsOf(e)
  }

  /** The record was handed off with a final outcome, and every publication of that hand-off is acknowledged. */
  ghost predicate Final(s: State, rec: Record)
  {
    exists e: Entry :: e.rec == rec && Complete(s, e) && AckedEntry(s, e)
  }

  /** Everything below W is safe to skip for good. */
  ghost predicate SafeBelow(c: Config, s: State, k: PartitionKey, w: int)
  {
    forall rec :: rec in c.log && rec.key == k && c.start(k) <= rec.offset < w ==> Final(s, rec)
  }

  ghost predicate PartInv(c: Config, s: State, k: PartitionKey, p: Part)
  {
    Working(c, s, k, p.left, p.issued) && Tracking(p.mine, p.st, p.position, p.sent) &&
    (p.mine ==> Covered(c, s, k, p.st, p.position))
  }

  /** What is being processed. */
  ghost predicate Working(c: Config, s: State, k: PartitionKey, left: seq<Record>, issued: seq<Entry>)
  {
    && |issued| <= |left|
    && (forall i :: 0 <= i < |left| ==> left[i] in c.log && left[i].key == k)
    && (forall i :: 0 <= i < |issued| ==> issued[i].rec == left[i] && Complete(s, issued[i]))
  }

  /** What the tracker knows. */
  ghost predicate Tracking(mine: bool, st: PartitionState, position: int, sent: int)
  {
    && 0 <= sent && (mine ==> sent <= position)
    && (!mine ==> st.forgotten) && (st.forgotten ==> st.pending.Keys == {} && st.done.Keys == {})
    && (forall o :: o in st.pending ==> sent <= o < position)
    && (forall o :: o in st.done ==> o < position)
    // why the next commit is not below the last one
    && (sent <= st.committed || sent - 1 in st.done || forall o :: o in st.done ==> sent <= o)
  }

  /** Every record the member has moved past is final, or still in progress. */
  ghost predicate Covered(c: Config, s: State, k: PartitionKey, st: PartitionState, position: int)
  {
    forall rec :: rec in c.log && rec.key == k && c.start(k) <= rec.offset < position ==>
      Final(s, rec) || rec.offset in st.pending
  }

  /** The broker's owner of a partition agrees, and the broker is not ahead of it. */
  ghost predicate Owned(c: Config, s: State, k: PartitionKey, m: MemberId)
  {
    (m, k) in s.parts && s.parts[(m, k)].mine && Held(c, s, k) <= s.parts[(m, k)].sent
  }

  /** A commit under way carries only safe offsets, and does not take a partition back. */
  ghost predicate FlightInv(c: Config, s: State, m: MemberId, f: Flight)
  {
    && f.open <= f.snap.Keys && f.landed <= f.snap.Keys
    && forall k :: k in f.snap ==> TakenInv(c, s, m, k, f.snap[k].offset, k in f.open, k in f.landed)
  }

  ghost predicate TakenInv(c: Config, s: State, m: MemberId, k: PartitionKey, w: int, open: bool, landed: bool)
  {
    && (m, k) in s.parts && 0 <= w && SafeBelow(c, s, k, w)
    && (s.parts[(m, k)].st.forgotten || s.parts[(m, k)].st.committed < w)
    && (landed ==> w <= Held(c, s, k) && w <= s.parts[(m, k)].sent)
    && (open ==> k in s.owner && s.owner[k] == m && s.parts[(m, k)].sent == w)
  }

  ghost predicate FlightsInv(c: Config, s: State)
  {
    forall m :: m in s.flights ==> FlightInv(c, s, m, s.flights[m])
  }

  ghost predicate Inv(c: Config, s: State)
  {
    && (forall mk :: mk in s.parts ==> PartInv(c, s, mk.1, s.parts[mk]))
    && (forall k :: k in s.committed ==> SafeBelow(c, s, k, s.committed[k]) && s.committed[k] >= 0)
    && (forall k :: k in s.owner ==> Owned(c, s, k, s.owner[k]))
    && FlightsInv(c, s)
  }

  /******* What a step preserves *******/

  /** Publications and acknowledgements only accumulate. */
  ghost predicate Grows(s: State, s': State)
  {
    s.published <= s'.published && s.acked <= s'.acked && s.entries <= s'.entries
  }

  lemma {:induction false} CompleteGrows(s: State, s': State, e: Entry)
    requires Grows(s, s') && Complete(s, e)
    ensures Complete(s', e)
    ensures AckedEntry(s, e) ==> AckedEntry(s', e)
  {
  }

  lemma {:induction false} FinalGrows(s: State, s': State, rec: Record)
    requires Grows(s, s') && Final(s, rec)
    ensures Final(s', rec)
  {
  }

  lemma {:induction false} SafeGrows(c: Config, s: State, s': State, k: PartitionKey, w: int)
    requires Grows(s, s') && SafeBelow(c, s, k, w)
    ensures SafeBelow(c, s', k, w)
  {
  }

  lemma {:induction false} PartGrows(c: Config, s: State, s': State, k: PartitionKey, p: Part)
    requires Grows(s, s') && PartInv(c, s, k, p)
    ensures PartInv(c, s', k, p)
  {
    hide Tracking, Final, Complete;
    forall i | 0 <= i < |p.issued| ensures Complete(s', p.issued[i]) { CompleteGrows(s, s', p.issued[i]); }
    if p.mine {
      forall rec | rec in c.log && rec.key == k && c.start(k) <= rec.offset < p.position
        ensures Final(s', rec) || rec.offset in p.st.pending
      {
        if Final(s, rec) { FinalGrows(s, s', rec); }
      }
    }
  }

  lemma {:induction false} StepGrows(c: Config, s: State, step: Step)
    requires Enabled(c, s, step)
    ensures Grows(s, Apply(c, s, step))
  {
  }

  /******* One partition under each step *******/

  lemma {:induction false} TrackAllTracks(st: PartitionState, recs: seq<Record>)
    requires st.forgotten ==> st.pending.Keys == {} && st.done.Keys == {}
    ensures var st' := TrackAll(st, recs);
            && st'.done.Keys == st.done.Keys
            && (forall o :: o in st'.pending <==> o in st.pending || exists i :: 0 <= i < |recs| && recs[i].offset == o)
            && (recs != [] ==> !st'.forgotten) && (recs == [] ==> st' == st)
            && (st'.committed == st.committed || st.done.Keys == {})
  {
    if recs != [] {
      var front := recs[..|recs| - 1];
      TrackAllTracks(st, front);
      var mid, st' := TrackAll(st, front), TrackAll(st, recs);
      assert forall o :: o in st'.pending <==> o in mid.pending || o == recs[|recs| - 1].offset;
      forall o ensures o in st'.pending <==> o in st.pending || exists i :: 0 <= i < |recs| && recs[i].offset == o {
        if i :| 0 <= i < |recs| && recs[i].offset == o {
          if i < |front| { assert front[i].offset == o; }
        }
        if i :| 0 <= i < |front| && front[i].offset == o { assert recs[i].offset == o; }
        if o == recs[|recs| - 1].offset { assert recs[|recs| - 1].offset == o; }
      }
    }
  }

  lemma {:induction false} AssignKeeps(c: Config, s: State, k: PartitionKey, p: Part)
    requires Inv(c, s) && PartInv(c, s, k, p) && !p.mine
    ensures PartInv(c, s, k, Part(true, p.st, Held(c, s, k), Held(c, s, k), p.left, p.issued))
  {
    hide Working, Final;
  }

  lemma {:induction false} PollKeeps(c: Config, s: State, k: PartitionKey, p: Part, recs: seq<Record>, newPosition: nat)
    requires PartInv(c, s, k, p) && p.mine && p.position <= newPosition
    requires forall r :: r in recs <==> r in c.log && r.key == k && p.position <= r.offset < newPosition
    ensures PartInv(c, s, k, p.(st := TrackAll(p.st, recs), position := newPosition, left := recs, issued := []))
  {
    hide TrackAll, Final;
    PollTracks(c, k, p, recs, newPosition);
    PollCovers(c, s, k, p, recs, newPosition);
    hide Tracking, Covered;
    forall i | 0 <= i < |recs| ensures recs[i] in c.log && recs[i].key == k { assert recs[i] in recs; }
  }

  lemma {:induction false} PollTracks(c: Config, k: PartitionKey, p: Part, recs: seq<Record>, newPosition: nat)
    requires Tracking(p.mine, p.st, p.position, p.sent) && p.mine && p.position <= newPosition
    requires forall r :: r in recs ==> p.position <= r.offset < newPosition
    ensures Tracking(p.mine, TrackAll(p.st, recs), newPosition, p.sent)
  {
    TrackAllTracks(p.st, recs);
    hide TrackAll;
    forall o | o in TrackAll(p.st, recs).pending ensures p.sent <= o < newPosition {
      if i :| 0 <= i < |recs| && recs[i].offset == o { assert recs[i] in recs; }
    }
  }

  lemma {:induction false} PollCovers(c: Config, s: State, k: PartitionKey, p: Part, recs: seq<Record>,
      newPosition: nat)
    requires Covered(c, s, k, p.st, p.position) && (p.st.forgotten ==> p.st.pending.Keys == {} && p.st.done.Keys == {})
    requires forall r :: r in recs <==> r in c.log && r.key == k && p.position <= r.offset < newPosition
    ensures Covered(c, s, k, TrackAll(p.st, recs), newPosition)
  {
    TrackAllTracks(p.st, recs);
    hide TrackAll, Final;
    forall rec | rec in c.log && rec.key == k && c.start(k) <= rec.offset < newPosition
      ensures Final(s, rec) || rec.offset in TrackAll(p.st, recs).pending
    {
      if rec.offset >= p.position {
        assert rec in recs;
        var i :| 0 <= i < |recs| && recs[i] == rec;
        assert recs[i].offset == rec.offset;
      }
    }
  }

  lemma {:induction false} ConfirmKeeps(c: Config, s: State, k: PartitionKey, p: Part)
    requires ValidConfig(c) && PartInv(c, s, k, p)
    requires p.issued != [] && p.left != [] && AckedEntry(s, p.issued[0])
    ensures PartInv(c, s, k, p.(st := Finishing(p.st, p.left[0]), left := p.left[1..], issued := p.issued[1..]))
  {
    hide ValidConfig, Complete, AckedEntry, Finishing, Final, Covered, Tracking;
    FirstIsFinal(c, s, k, p.left, p.issued);
    FinishingTracks(p, p.left[0]);
    if p.mine { FinishingCovers(c, s, k, p, p.left[0]); }
  }

  lemma {:induction false} FirstIsFinal(c: Config, s: State, k: PartitionKey, left: seq<Record>, issued: seq<Entry>)
    requires Working(c, s, k, left, issued) && left != [] && issued != [] && AckedEntry(s, issued[0])
    ensures left[0] in c.log && left[0].key == k && Final(s, left[0])
  {
    hide Complete, AckedEntry;
    assert issued[0].rec == left[0];
  }

  lemma {:induction false} FinishingTracks(p: Part, rec: Record)
    requires Tracking(p.mine, p.st, p.position, p.sent)
    ensures Tracking(p.mine, Finishing(p.st, rec), p.position, p.sent)
  {
  }

  lemma {:induction false} FinishingCovers(c: Config, s: State, k: PartitionKey, p: Part, rec: Record)
    requires ValidConfig(c) && Covered(c, s, k, p.st, p.position)
    requires rec in c.log && rec.key == k && Final(s, rec)
    ensures Covered(c, s, k, Finishing(p.st, rec), p.position)
  {
    hide Final;
  }

  lemma {:induction false} AbandonKeeps(c: Config, s: State, k: PartitionKey, p: Part)
    requires PartInv(c, s, k, p)
    ensures PartInv(c, s, k, AbandonPart(p, PendingState(p.st)))
  {
    hide Final;
  }

  /** What is sent for commit is safe, and not below what was sent before. */
  lemma {:induction false} SendingIsSafe(c: Config, s: State, k: PartitionKey, p: Part)
    requires PartInv(c, s, k, p) && CommitableState(p.st).Some?
    ensures SafeBelow(c, s, k, CommitableState(p.st).value.offset)
    ensures p.sent <= CommitableState(p.st).value.offset
    ensures p.mine && CommitableState(p.st).value.offset <= p.position
  {
    hide Working, Final;
  }

  lemma {:induction false} BeginKeeps(c: Config, s: State, k: PartitionKey, p: Part)
    requires PartInv(c, s, k, p)
    ensures PartInv(c, s, k, BeginPart(p))
    ensures p.sent <= BeginPart(p).sent
  {
    hide Working, Covered;
  }

  /** A mark at an offset that was taken since the partition's state was created, and not above the last one. */
  lemma {:induction false} MarkKeeps(c: Config, s: State, k: PartitionKey, p: Part, w: int)
    requires PartInv(c, s, k, p) && (p.st.forgotten || p.st.committed < w) && w <= p.sent
    ensures PartInv(c, s, k, MarkPart(p, w))
  {
    hide Working, Final;
  }

  /******* The invariant *******/

  ghost predicate PartsInv(c: Config, s: State)
  {
    forall mk :: mk in s.parts ==> PartInv(c, s, mk.1, s.parts[mk])
  }

  ghost predicate CommittedSafe(c: Config, s: State)
  {
    forall k :: k in s.committed ==> SafeBelow(c, s, k, s.committed[k]) && s.committed[k] >= 0
  }

  lemma {:induction false} OnePartChanges(c: Config, s: State, s': State, mk: (MemberId, PartitionKey), p: Part)
    requires PartsInv(c, s) && Grows(s, s') && s'.parts == s.parts[mk := p] && PartInv(c, s', mk.1, p)
    ensures PartsInv(c, s')
  {
    hide PartInv;
    forall other | other in s'.parts ensures PartInv(c, s', other.1, s'.parts[other]) {
      if other != mk { PartGrows(c, s, s', other.1, s.parts[other]); }
    }
  }

  lemma {:induction false} UnknownPart(c: Config, s: State, k: PartitionKey)
    ensures PartInv(c, s, k, UNKNOWN)
  {
  }

  lemma {:induction false} HandOffKeeps(c: Config, s: State, s': State, k: PartitionKey, part: Part, e: Entry)
    requires PartInv(c, s, k, part) && |part.issued| < |part.left|
    requires e.rec == part.left[|part.issued|] && e.first == |s.published|
    requires HasOutcome(e.p, e.res)
    requires s'.published == s.published + PubsOf(e) && s'.acked == s.acked && s'.entries == s.entries + {e}
    ensures PartInv(c, s', k, part.(issued := part.issued + [e]))
  {
    hide PartInv, PubsOf, FinishRecord;
    PartGrows(c, s, s', k, part);
    NewEntry(s, s', e);
    IssueOne(c, s', k, part, e);
  }

  lemma {:induction false} NewEntry(s: State, s': State, e: Entry)
    requires HasOutcome(e.p, e.res) && e.first == |s.published|
    requires s'.published == s.published + PubsOf(e) && s'.entries == s.entries + {e}
    ensures Complete(s', e)
  {
    hide PubsOf, FinishRecord;
  }

  lemma {:induction false} IssueOne(c: Config, s: State, k: PartitionKey, part: Part, e: Entry)
    requires PartInv(c, s, k, part) && |part.issued| < |part.left|
    requires e.rec == part.left[|part.issued|] && Complete(s, e)
    ensures PartInv(c, s, k, part.(issued := part.issued + [e]))
  {
    hide Tracking, Complete, Covered;
  }

  /** The parts of every member keep their invariant under every step. */
  lemma {:induction false} PartsKeep(c: Config, s: State, step: Step)
    requires ValidConfig(c) && Inv(c, s) && Enabled(c, s, step)
    ensures PartsInv(c, Apply(c, s, step))
  {
    var s' := Apply(c, s, step);
    StepGrows(c, s, step);
    assert PartsInv(c, s);
    match step {
      case Assign(m, k) =>
        UnknownPart(c, s, k);
        var p := if (m, k) in s.parts then s.parts[(m, k)] else UNKNOWN;
        AssignKeeps(c, s, k, p);
        PartGrows(c, s, s', k, s'.parts[(m, k)]);
        OnePartChanges(c, s, s', (m, k), s'.parts[(m, k)]);
      case Poll(m, k, recs, newPosition) =>
        PollKeeps(c, s, k, s.parts[(m, k)], recs, newPosition);
        PartGrows(c, s, s', k, s'.parts[(m, k)]);
        OnePartChanges(c, s, s', (m, k), s'.parts[(m, k)]);
      case HandOff(m, k, p, res, panic) =>
        var part := s.parts[(m, k)];
        HandOffKeeps(c, s, s', k, part, Entry(part.left[|part.issued|], |s.published|, p, res, panic));
        OnePartChanges(c, s, s', (m, k), s'.parts[(m, k)]);
      case ConfirmFirst(m, k) =>
        ConfirmKeeps(c, s, k, s.parts[(m, k)]);
        PartGrows(c, s, s', k, s'.parts[(m, k)]);
        OnePartChanges(c, s, s', (m, k), s'.parts[(m, k)]);
      case EndPass(m, k) =>
        EndPassKeeps(c, s, k, s.parts[(m, k)]);
        PartGrows(c, s, s', k, s'.parts[(m, k)]);
        OnePartChanges(c, s, s', (m, k), s'.parts[(m, k)]);
      case Revoke(m, k) =>
        RevokeKeeps(c, s, k, s.parts[(m, k)]);
        PartGrows(c, s, s', k, s'.parts[(m, k)]);
        OnePartChanges(c, s, s', (m, k), s'.parts[(m, k)]);
      case _ => ManyPartsKeep(c, s, step);
    }
  }

  lemma {:induction false} EndPassKeeps(c: Config, s: State, k: PartitionKey, p: Part)
    requires PartInv(c, s, k, p)
    ensures PartInv(c, s, k, p.(issued := []))
  {
    hide Tracking, Complete, Covered;
  }

  lemma {:induction false} RevokeKeeps(c: Config, s: State, k: PartitionKey, p: Part)
    requires PartInv(c, s, k, p)
    ensures PartInv(c, s, k, p.(mine := false, st := TOMBSTONE))
  {
    hide Working, Covered;
  }

  lemma {:induction false} ManyPartsKeep(c: Config, s: State, step: Step)
    requires Inv(c, s) && Enabled(c, s, step)
    requires step.Acknowledge? || step.Abandon? || step.BeginCommit? || step.LandCommit? || step.EndCommit? ||
             step.Lose? || step.Crash?
    ensures PartsInv(c, Apply(c, s, step))
  {
    var s' := Apply(c, s, step);
    StepGrows(c, s, step);
    forall mk | mk in s'.parts ensures PartInv(c, s', mk.1, s'.parts[mk]) {
      var p := s.parts[mk];
      AbandonKeeps(c, s, mk.1, p);
      BeginKeeps(c, s, mk.1, p);
      if step.EndCommit? && step.reported && mk.0 == step.m && mk.1 in s.flights[step.m].snap {
        MarkOneKeeps(c, s, step, mk);
      }
      hide PartInv;
      PartGrows(c, s, s', mk.1, s'.parts[mk]);
    }
  }

  lemma {:induction false} MarkOneKeeps(c: Config, s: State, step: Step, mk: (MemberId, PartitionKey))
    requires Inv(c, s) && Enabled(c, s, step) && step.EndCommit? && step.reported
    requires mk in s.parts && mk.0 == step.m && mk.1 in s.flights[step.m].snap
    ensures PartInv(c, s, mk.1, MarkPart(s.parts[mk], s.flights[step.m].snap[mk.1].offset))
  {
    var f := s.flights[step.m];
    assert FlightInv(c, s, step.m, f);
    assert TakenInv(c, s, step.m, mk.1, f.snap[mk.1].offset, mk.1 in f.open, mk.1 in f.landed);
    assert (step.m, mk.1) == mk;
    hide PartInv;
    MarkKeeps(c, s, mk.1, s.parts[mk], f.snap[mk.1].offset);
  }

  /** Whatever a step makes the broker hold is safe, and no lower than before. */
  lemma {:induction false} CommittedKeep(c: Config, s: State, step: Step)
    requires Inv(c, s) && Enabled(c, s, step)
    ensures CommittedSafe(c, Apply(c, s, step))
    ensures forall k :: Held(c, s, k) <= Held(c, Apply(c, s, step), k)
  {
    var s' := Apply(c, s, step);
    StepGrows(c, s, step);
    forall k ensures Held(c, s, k) <= Held(c, s', k)
      ensures k in s'.committed ==> SafeBelow(c, s', k, s'.committed[k]) && s'.committed[k] >= 0
    {
      if step.LandCommit? && k == step.k {
        assert Owned(c, s, k, step.m);
        SafeGrows(c, s, s', k, s'.committed[k]);
      } else if k in s.committed {
        SafeGrows(c, s, s', k, s.committed[k]);
      }
    }
  }

  lemma {:induction false} PartKeepsOwned(p: Part)
    ensures AbandonPart(p, PendingState(p.st)).mine == p.mine && AbandonPart(p, PendingState(p.st)).sent == p.sent
    ensures BeginPart(p).mine == p.mine
    ensures BeginPart(p).sent == if CommitableState(p.st).Some? then CommitableState(p.st).value.offset else p.sent
  {
  }

  lemma {:induction false} MineAfter(c: Config, s: State, step: Step, m: MemberId, k: PartitionKey)
    requires Enabled(c, s, step) && k in s.owner && (m, k) in s.parts && s.parts[(m, k)].mine
    requires k in Apply(c, s, step).owner && Apply(c, s, step).owner[k] == m
    ensures s.owner[k] == m && (m, k) in Apply(c, s, step).parts && Apply(c, s, step).parts[(m, k)].mine
    ensures step != Assign(m, k)
  {
    if step.BeginCommit? || step.Abandon? { PartKeepsOwned(s.parts[(m, k)]); }
    hide BeginPart, AbandonPart, TrackAll, PendingState;
  }

  lemma {:induction false} HeldAfter(c: Config, s: State, step: Step, k: PartitionKey)
    requires Enabled(c, s, step)
    ensures if step.LandCommit? && step.k == k then Held(c, Apply(c, s, step), k) == s.flights[step.m].snap[k].offset
            else Held(c, Apply(c, s, step), k) == Held(c, s, k)
  {
    hide PubsOf;
  }

  lemma {:induction false} NewOwner(c: Config, s: State, step: Step, k: PartitionKey)
    requires Inv(c, s) && Enabled(c, s, step) && k in Apply(c, s, step).owner && k !in s.owner
    ensures Owned(c, Apply(c, s, step), k, Apply(c, s, step).owner[k])
  {
    hide Inv;
  }

  lemma {:induction false} OwnerKeeps(c: Config, s: State, step: Step, k: PartitionKey)
    requires Inv(c, s) && Enabled(c, s, step) && k in Apply(c, s, step).owner
    ensures Owned(c, Apply(c, s, step), k, Apply(c, s, step).owner[k])
  {
    var s' := Apply(c, s, step);
    hide PartInv, Enabled, Apply, BeginPart, SafeBelow, Held;
    if k in s.owner {
      var m := s'.owner[k];
      SameOwner(c, s, step, k);
      assert Owned(c, s, k, m);
      MineAfter(c, s, step, m, k);
      SentAfter(c, s, step, (m, k));
      BeginKeeps(c, s, k, s.parts[(m, k)]);
      HeldAfter(c, s, step, k);
      if step.LandCommit? && step.k == k {
        LandedIsSent(c, s, step, k);
      }
    } else {
      NewOwner(c, s, step, k);
    }
  }

  lemma {:induction false} SameOwner(c: Config, s: State, step: Step, k: PartitionKey)
    requires Enabled(c, s, step) && k in Apply(c, s, step).owner && k in s.owner
    ensures Apply(c, s, step).owner[k] == s.owner[k]
  {
    hide PubsOf;
  }

  lemma {:induction false} LandedIsSent(c: Config, s: State, step: Step, k: PartitionKey)
    requires FlightsInv(c, s) && Enabled(c, s, step) && step.LandCommit? && step.k == k
    ensures k in s.owner && s.owner[k] == step.m && (step.m, k) in s.parts
    ensures s.parts[(step.m, k)].sent == s.flights[step.m].snap[k].offset
    ensures (step.m, k) in Apply(c, s, step).parts
    ensures Apply(c, s, step).parts[(step.m, k)].sent == s.parts[(step.m, k)].sent
  {
    InvTaken(c, s, step.m, k);
    hide FlightsInv;
  }

  lemma {:induction false} OwnersKeep(c: Config, s: State, step: Step)
    requires Inv(c, s) && Enabled(c, s, step)
    ensures forall k :: k in Apply(c, s, step).owner ==> Owned(c, Apply(c, s, step), k, Apply(c, s, step).owner[k])
  {
    hide Inv, Enabled, Apply, Owned;
    forall k | k in Apply(c, s, step).owner ensures Owned(c, Apply(c, s, step), k, Apply(c, s, step).owner[k]) {
      OwnerKeeps(c, s, step, k);
    }
  }

  /** Short of the end of its own commit a member's watermark is unchanged, fresh or gone, and so is what it sent. */
  ghost predicate CarriesOver(c: Config, s: State, p: Part, p': Part, k: PartitionKey, anew: bool)
  {
    && (p'.st.forgotten || p'.st.committed == -1 || (!p.st.forgotten && p'.st.committed == p.st.committed))
    && p'.sent == if anew then Held(c, s, k) else p.sent
  }

  lemma {:induction false} TrackAllCarries(st: PartitionState, recs: seq<Record>)
    ensures var st' := TrackAll(st, recs);
            st'.forgotten || st'.committed == -1 || (!st.forgotten && st'.committed == st.committed)
  {
    if recs != [] { TrackAllCarries(st, recs[..|recs| - 1]); }
  }

  lemma {:induction false} PartCarriesOver(c: Config, s: State, step: Step, m: MemberId, k: PartitionKey)
    requires Enabled(c, s, step) && (m, k) in s.parts
    requires step != BeginCommit(m) && step != Crash(m) && !(step.EndCommit? && step.m == m)
    ensures var s' := Apply(c, s, step);
            (m, k) in s'.parts && CarriesOver(c, s, s.parts[(m, k)], s'.parts[(m, k)], k, step == Assign(m, k))
  {
    if step.Poll? { TrackAllCarries(s.parts[(step.m, step.k)].st, step.recs); }
    if step.BeginCommit? { BeginsWithSameState(s.parts[(m, k)]); }
    hide TrackAll, CommitableState, PendingState;
  }

  lemma {:induction false} TakenKeeps(c: Config, s: State, step: Step, m: MemberId, k: PartitionKey)
    requires Inv(c, s) && Enabled(c, s, step) && m in s.flights && k in s.flights[m].snap
    requires forall q :: Held(c, s, q) <= Held(c, Apply(c, s, step), q)
    requires m in Apply(c, s, step).flights && step != BeginCommit(m)
    ensures var f := Apply(c, s, step).flights[m];
            TakenInv(c, Apply(c, s, step), m, k, s.flights[m].snap[k].offset, k in f.open, k in f.landed)
  {
    InvTaken(c, s, m, k);
    PartCarriesOver(c, s, step, m, k);
    StepGrows(c, s, step);
    var s' := Apply(c, s, step);
    if k in s'.flights[m].open { StaysOpen(c, s, step, m, k); }
    if k in s'.flights[m].landed { NewlyLanded(c, s, step, m, k); }
    hide Inv, Enabled, Apply, CarriesOver, Grows, Held;
    TakenCarries(c, s, s', m, k, s.flights[m].snap[k].offset, step == Assign(m, k));
  }

  lemma {:induction false} InvTaken(c: Config, s: State, m: MemberId, k: PartitionKey)
    requires FlightsInv(c, s) && m in s.flights && k in s.flights[m].snap
    ensures var f := s.flights[m]; TakenInv(c, s, m, k, f.snap[k].offset, k in f.open, k in f.landed)
  {
    assert FlightInv(c, s, m, s.flights[m]);
  }

  lemma {:induction false} TakenCarries(c: Config, s: State, s': State, m: MemberId, k: PartitionKey, w: int,
      anew: bool)
    requires m in s.flights && m in s'.flights && Grows(s, s') && Held(c, s, k) <= Held(c, s', k)
    requires TakenInv(c, s, m, k, w, k in s.flights[m].open, k in s.flights[m].landed)
    requires (m, k) in s.parts && (m, k) in s'.parts && CarriesOver(c, s, s.parts[(m, k)], s'.parts[(m, k)], k, anew)
    requires k in s'.flights[m].open ==> k in s.flights[m].open && !anew && k in s'.owner && s'.owner[k] == m
    requires k in s'.flights[m].landed ==>
               k in s.flights[m].landed || (k in s.flights[m].open && !anew && Held(c, s', k) == w)
    ensures TakenInv(c, s', m, k, w, k in s'.flights[m].open, k in s'.flights[m].landed)
  {
    SafeGrows(c, s, s', k, w);
    hide SafeBelow, Grows, Held;
  }

  lemma {:induction false} StaysOpen(c: Config, s: State, step: Step, m: MemberId, k: PartitionKey)
    requires Enabled(c, s, step) && m in s.flights && m in Apply(c, s, step).flights && step != BeginCommit(m)
    requires k in Apply(c, s, step).flights[m].open && (k in s.flights[m].open ==> k in s.owner && s.owner[k] == m)
    ensures k in s.flights[m].open && step != Assign(m, k)
    ensures k in Apply(c, s, step).owner && Apply(c, s, step).owner[k] == m
  {
  }

  lemma {:induction false} NewlyLanded(c: Config, s: State, step: Step, m: MemberId, k: PartitionKey)
    requires Enabled(c, s, step) && m in s.flights && m in Apply(c, s, step).flights && step != BeginCommit(m)
    requires k in Apply(c, s, step).flights[m].landed && k in s.flights[m].snap
    ensures k in s.flights[m].landed ||
            (k in s.flights[m].open && step != Assign(m, k) &&
             Held(c, Apply(c, s, step), k) == s.flights[m].snap[k].offset)
  {
  }

  /** What a commit takes from the tracker is safe, and new. */
  lemma {:induction false} BeginTakes(c: Config, s: State, m: MemberId, k: PartitionKey)
    requires Inv(c, s) && Enabled(c, s, BeginCommit(m)) && k in Sending(s, m)
    ensures var s' := Apply(c, s, BeginCommit(m));
            TakenInv(c, s', m, k, Sending(s, m)[k].offset, k in s'.flights[m].open, false)
  {
    var s', p := Apply(c, s, BeginCommit(m)), s.parts[(m, k)];
    assert PartInv(c, s, k, p);
    SendingIsSafe(c, s, k, p);
    StepGrows(c, s, BeginCommit(m));
    SafeGrows(c, s, s', k, Sending(s, m)[k].offset);
    hide SafeBelow;
  }

  lemma {:induction false} FlightsKeep(c: Config, s: State, step: Step)
    requires Inv(c, s) && Enabled(c, s, step)
    requires forall q :: Held(c, s, q) <= Held(c, Apply(c, s, step), q)
    ensures FlightsInv(c, Apply(c, s, step))
  {
    var s' := Apply(c, s, step);
    forall m | m in s'.flights ensures FlightInv(c, s', m, s'.flights[m]) {
      SameFlight(c, s, step, m);
      forall k | k in s'.flights[m].snap
        ensures TakenInv(c, s', m, k, s'.flights[m].snap[k].offset, k in s'.flights[m].open, k in s'.flights[m].landed)
      {
        if step == BeginCommit(m) { BeginTakes(c, s, m, k); } else { TakenKeeps(c, s, step, m, k); }
      }
      hide TakenInv, Inv, Enabled, Apply;
    }
  }

  lemma {:induction false} SameFlight(c: Config, s: State, step: Step, m: MemberId)
    requires FlightsInv(c, s) && Enabled(c, s, step) && m in Apply(c, s, step).flights
    ensures var f := Apply(c, s, step).flights[m];
            && f.open <= f.snap.Keys && f.landed <= f.snap.Keys
            && if step == BeginCommit(m) then f.snap == Sending(s, m) && f.landed == {}
               else m in s.flights && f.snap == s.flights[m].snap
  {
    if m in s.flights { assert FlightInv(c, s, m, s.flights[m]); }
  }

  lemma {:induction false} InvKeeps(c: Config, s: State, step: Step)
    requires ValidConfig(c) && Inv(c, s) && Enabled(c, s, step)
    ensures Inv(c, Apply(c, s, step))
  {
    PartsKeep(c, s, step);
    CommittedKeep(c, s, step);
    OwnersKeep(c, s, step);
    FlightsKeep(c, s, step);
  }

  /******* Every run *******/

  /** Every state of a run, and the step that leaves each one but the last. */
  ghost predicate Behavior(c: Config, states: seq<State>, steps: seq<Step>)
  {
    && |states| == |steps| + 1 && states[0] == INIT
    && forall i :: 0 <= i < |steps| ==>
         Enabled(c, states[i], steps[i]) && states[i + 1] == Apply(c, states[i], steps[i])
  }

  lemma {:induction false} RunsKeepInv(c: Config, states: seq<State>, steps: seq<Step>, n: nat)
    requires ValidConfig(c) && Behavior(c, states, steps) && n < |states|
    ensures Inv(c, states[n])
  {
    if n > 0 {
      RunsKeepInv(c, states, steps, n - 1);
      hide Inv, Enabled, Apply;
      InvKeeps(c, states[n - 1], steps[n - 1]);
    }
  }

  /**
   * No record is lost: in every run, at every moment, for every partition, all
   * records from the start up to the offset the broker holds are final -- and
   * so are all records below any offset a member is about to send.
   */
  lemma {:induction false} NoRecordLost(c: Config, states: seq<State>, steps: seq<Step>, n: nat, k: PartitionKey)
    requires ValidConfig(c) && Behavior(c, states, steps) && n < |states|
    ensures SafeBelow(c, states[n], k, Held(c, states[n], k))
    ensures forall m :: k in Sending(states[n], m) ==> SafeBelow(c, states[n], k, Sending(states[n], m)[k].offset)
  {
    var s := states[n];
    RunsKeepInv(c, states, steps, n);
    forall m | k in Sending(s, m) ensures SafeBelow(c, s, k, Sending(s, m)[k].offset) {
      SendingIsSafe(c, s, k, s.parts[(m, k)]);
    }
  }

  /** The publication is in the log, and acknowledged. */
  ghost predicate Delivered(s: State, pub: Publication)
  {
    exists id: nat :: id < |s.published| && id in s.acked && s.published[id] == pub
  }

  /**
   * What a final record comes to: it is poison and its DLQ entry delivered, or
   * it was applied and its results and the DLQ entry of every rejected event
   * delivered; or its handling panicked, and everything handed off before the
   * panic was delivered, and a DLQ entry for the record itself.
   */
  lemma {:induction false} FinalIsDelivered(s: State, rec: Record)
    requires Final(s, rec)
    ensures exists e :: e in s.entries && e.rec == rec &&
                        (forall pub :: pub in PubsOf(e) ==> Delivered(s, pub)) &&
                        Calls(s, e)
  {
    var e: Entry :| e.rec == rec && Complete(s, e) && AckedEntry(s, e);
    EntryDelivered(s, e);
    CallsFor(s, e);
    hide AckedEntry, PubsOf, HasOutcome, Delivered, Calls;
  }

  lemma {:induction false} EntryDelivered(s: State, e: Entry)
    requires Complete(s, e) && AckedEntry(s, e)
    ensures forall pub :: pub in PubsOf(e) ==> Delivered(s, pub)
  {
    hide PubsOf, HasOutcome;
    forall pub | pub in PubsOf(e) ensures Delivered(s, pub) {
      var i :| 0 <= i < |PubsOf(e)| && PubsOf(e)[i] == pub;
      assert s.published[e.first..e.first + |PubsOf(e)|][i] == s.published[e.first + i];
    }
  }

  ghost predicate Calls(s: State, e: Entry)
  {
    && HasOutcome(e.p, e.res)
    && (IsPoison(e.p, e.res) || e.panic.Some? ==> Delivered(s, PoisonDLQ(e.rec)))
    && (IsApplied(e.p, e.res) ==>
          && (e.panic.None? || e.panic.value > 0 ==> Delivered(s, Results(e.rec)))
          && forall x: nat :: x < |e.res.rejected| && e.res.rejected[x] && HandedBeforePanic(e, x) ==>
               Delivered(s, RejectDLQ(e.rec, x)))
  }

  /** The entry of the rejected event x is among the publications before the panic, or there is none. */
  predicate HandedBeforePanic(e: Entry, x: nat)
    requires IsApplied(e.p, e.res) && x < |e.res.rejected|
  {
    e.panic.None? || 1 + RejectedBefore(e.res.rejected, x) < e.panic.value
  }

  lemma {:induction false} EntryTells(e: Entry)
    requires HasOutcome(e.p, e.res)
    ensures |PubsOf(e)| == HowMany(e.p, e.res, e.panic) && Tells(PubsOf(e), e.rec, e.p, e.res, e.panic)
  {
    hide FinishRecord, HasOutcome, Tells;
    FinishTells(e.rec, e.p, e.res, e.panic);
    TellsLength(PubsOf(e), e.rec, e.p, e.res, e.panic);
  }

  lemma {:induction false} CallsFor(s: State, e: Entry)
    requires HasOutcome(e.p, e.res)
    requires forall pub :: pub in PubsOf(e) ==> Delivered(s, pub)
    ensures Calls(s, e)
  {
    EntryTells(e);
    hide Delivered, PubsOf, RejectedBefore;
    var pubs, kept := PubsOf(e), Kept(e.p, e.res, e.panic);
    if IsApplied(e.p, e.res) {
      forall x: nat | x < |e.res.rejected| && e.res.rejected[x] && HandedBeforePanic(e, x)
        ensures Delivered(s, RejectDLQ(e.rec, x))
      {
        RejectedGrows(e.res.rejected, x, |e.res.rejected|);
        assert pubs[1 + RejectedBefore(e.res.rejected, x)] in pubs;
      }
      if kept > 0 { assert pubs[0] in pubs; }
    }
    if e.panic.Some? { assert pubs[kept] in pubs; } else if IsPoison(e.p, e.res) { assert pubs[0] in pubs; }
  }

  /******* What is in the log *******/

  ghost predicate InEntry(s: State, id: nat)
  {
    exists e :: e in s.entries && e.first <= id < e.first + |PubsOf(e)|
  }

  /** Every hand-off is in the log, whole, and everything in the log is part of a hand-off. */
  ghost predicate LogTold(s: State)
  {
    && (forall e :: e in s.entries ==> Complete(s, e))
    && (forall id: nat :: id < |s.published| ==> InEntry(s, id))
  }

  lemma {:induction false} InEntryStays(s: State, s': State, id: nat)
    requires s.entries <= s'.entries && InEntry(s, id)
    ensures InEntry(s', id)
  {
  }

  lemma {:induction false} LogAfter(c: Config, s: State, step: Step)
    requires Enabled(c, s, step) && !step.HandOff?
    ensures Apply(c, s, step).entries == s.entries && Apply(c, s, step).published == s.published
  {
    hide TrackAll, PubsOf, PendingState, CommitableState;
  }

  lemma {:induction false} HandOffAfter(c: Config, s: State, step: Step) returns (e: Entry)
    requires Enabled(c, s, step) && step.HandOff?
    ensures HasOutcome(e.p, e.res) && e.first == |s.published|
    ensures Apply(c, s, step).entries == s.entries + {e}
    ensures Apply(c, s, step).published == s.published + PubsOf(e)
  {
    hide PubsOf;
    var part := s.parts[(step.m, step.k)];
    e := Entry(part.left[|part.issued|], |s.published|, step.p, step.res, step.panic);
  }

  lemma {:induction false} LogKeeps(c: Config, s: State, step: Step)
    requires LogTold(s) && Enabled(c, s, step)
    ensures LogTold(Apply(c, s, step))
  {
    var s' := Apply(c, s, step);
    StepGrows(c, s, step);
    if step.HandOff? {
      var e := HandOffAfter(c, s, step);
      hide Apply, Enabled, PubsOf, HasOutcome, Complete, InEntry;
      NewEntry(s, s', e);
      forall other | other in s'.entries ensures Complete(s', other) {
        if other != e { CompleteGrows(s, s', other); }
      }
      forall id: nat | id < |s'.published| ensures InEntry(s', id) {
        if id < |s.published| { InEntryStays(s, s', id); } else { InNewEntry(s', e, id); }
      }
    } else {
      LogAfter(c, s, step);
      hide Apply, Enabled, PubsOf, InEntry, Complete;
      forall e | e in s'.entries ensures Complete(s', e) { CompleteGrows(s, s', e); }
      forall id: nat | id < |s'.published| ensures InEntry(s', id) { InEntryStays(s, s', id); }
    }
  }

  lemma {:induction false} InNewEntry(s: State, e: Entry, id: nat)
    requires e in s.entries && e.first <= id < e.first + |PubsOf(e)|
    ensures InEntry(s, id)
  {
  }

  lemma {:induction false} RunsKeepLog(c: Config, states: seq<State>, steps: seq<Step>, n: nat)
    requires Behavior(c, states, steps) && n < |states|
    ensures LogTold(states[n])
  {
    if n > 0 {
      RunsKeepLog(c, states, steps, n - 1);
      hide LogTold, Enabled, Apply;
      LogKeeps(c, states[n - 1], steps[n - 1]);
    }
  }

  /**
   * In every run, whatever is handed off was handed off for a record with a
   * final outcome, and tells exactly that outcome.
   */
  lemma {:induction false} HandOffsTell(c: Config, states: seq<State>, steps: seq<Step>, n: nat, e: Entry)
    requires Behavior(c, states, steps) && n < |states| && e in states[n].entries
    ensures HasOutcome(e.p, e.res) && e.first + HowMany(e.p, e.res, e.panic) <= |states[n].published|
    ensures Tells(states[n].published[e.first..e.first + HowMany(e.p, e.res, e.panic)], e.rec, e.p, e.res, e.panic)
  {
    hide Tells, Complete, PubsOf, HasOutcome, HowMany, Behavior;
    RunsKeepLog(c, states, steps, n);
    CompleteFacts(states[n], e);
    EntryTells(e);
  }

  lemma {:induction false} CompleteFacts(s: State, e: Entry)
    requires Complete(s, e)
    ensures HasOutcome(e.p, e.res) && e.first + |PubsOf(e)| <= |s.published|
    ensures s.published[e.first..e.first + |PubsOf(e)|] == PubsOf(e)
  {
    hide PubsOf, HasOutcome;
  }

  lemma {:induction false} InLog(s: State, e: Entry, id: nat)
    requires Complete(s, e) && e.first <= id < e.first + |PubsOf(e)|
    ensures id < |s.published| && s.published[id] == PubsOf(e)[id - e.first]
  {
    hide PubsOf, HasOutcome;
    assert s.published[e.first..e.first + |PubsOf(e)|][id - e.first] == s.published[id];
  }

  /**
   * In every run, a record's own DLQ entry is in the log only if the record
   * was handed off as poison or its handling panicked.
   */
  lemma {:induction false} PoisonHasCause(c: Config, states: seq<State>, steps: seq<Step>, n: nat, id: nat)
    requires Behavior(c, states, steps) && n < |states|
    requires id < |states[n].published| && states[n].published[id].PoisonDLQ?
    ensures exists e :: e in states[n].entries && e.rec == states[n].published[id].rec &&
                        (IsPoison(e.p, e.res) || e.panic.Some?)
  {
    RunsKeepLog(c, states, steps, n);
    assert InEntry(states[n], id);
    hide Complete, Behavior, HasOutcome, PubsOf, IsPoison;
    var e :| e in states[n].entries && e.first <= id < e.first + |PubsOf(e)|;
    PoisonInEntry(states[n], e, id);
  }

  lemma {:induction false} PoisonInEntry(s: State, e: Entry, id: nat)
    requires Complete(s, e) && e.first <= id < e.first + |PubsOf(e)| && s.published[id].PoisonDLQ?
    ensures e.rec == s.published[id].rec && (IsPoison(e.p, e.res) || e.panic.Some?)
  {
    hide Tells, PubsOf, HasOutcome, IsPoison, Complete, HowMany;
    CompleteFacts(s, e);
    InLog(s, e, id);
    EntryTells(e);
    AboutItsRecord(e);
    PoisonCause(PubsOf(e), id - e.first, e);
  }

  lemma {:induction false} AboutItsRecord(e: Entry)
    requires HasOutcome(e.p, e.res)
    ensures forall i :: 0 <= i < |PubsOf(e)| ==> PubsOf(e)[i].rec == e.rec
  {
    hide FinishRecord, Tells, HasOutcome;
    FinishTells(e.rec, e.p, e.res, e.panic);
    PublicationsAboutRecord(e.rec, e.p, e.res, e.panic);
  }

  lemma {:induction false} PoisonCause(pubs: seq<Publication>, j: nat, e: Entry)
    requires Tells(pubs, e.rec, e.p, e.res, e.panic) && j < |pubs| && pubs[j] == PoisonDLQ(e.rec)
    ensures IsPoison(e.p, e.res) || e.panic.Some?
  {
    assert pubs[j] in pubs;
  }

  /** The offset the broker holds for a partition never goes backwards, whoever commits. */
  lemma {:induction false} HeldNeverGoesBack(c: Config, states: seq<State>, steps: seq<Step>, i: nat, j: nat,
      k: PartitionKey)
    requires ValidConfig(c) && Behavior(c, states, steps) && i <= j < |states|
    ensures Held(c, states[i], k) <= Held(c, states[j], k)
  {
    hide Inv, Enabled, Apply, Held;
    if i < j {
      HeldNeverGoesBack(c, states, steps, i, j - 1, k);
      RunsKeepInv(c, states, steps, j - 1);
      CommittedKeep(c, states[j - 1], steps[j - 1]);
    }
  }

  /**
   * What a member sends for a partition never goes backwards either, across
   * abandonments, rewinds and revivals, until the partition is assigned anew.
   */
  lemma {:induction false} SentNeverGoesBack(c: Config, states: seq<State>, steps: seq<Step>, n: nat, mk: (MemberId,
      PartitionKey))
    requires ValidConfig(c) && Behavior(c, states, steps) && n < |steps|
    requires mk in states[n].parts && mk in states[n + 1].parts && steps[n] != Assign(mk.0, mk.1)
    ensures states[n].parts[mk].sent <= states[n + 1].parts[mk].sent
    ensures mk.1 in Sending(states[n], mk.0) ==> states[n].parts[mk].sent <= Sending(states[n], mk.0)[mk.1].offset
  {
    RunsKeepInv(c, states, steps, n);
    SentAfter(c, states[n], steps[n], mk);
    hide Behavior, Enabled, Apply, PartInv, BeginPart, FlightsInv;
    var p := states[n].parts[mk];
    BeginKeeps(c, states[n], mk.1, p);
    if mk.1 in Sending(states[n], mk.0) { SendingIsSafe(c, states[n], mk.1, p); }
  }

  lemma {:induction false} SentAfter(c: Config, s: State, step: Step, mk: (MemberId, PartitionKey))
    requires Enabled(c, s, step) && mk in s.parts && mk in Apply(c, s, step).parts && step != Assign(mk.0, mk.1)
    ensures var p, p' := s.parts[mk], Apply(c, s, step).parts[mk];
            p'.sent == p.sent || p' == BeginPart(p)
  {
    hide BeginPart, TrackAll, PendingState;
  }

  /******* What is pending is what is left *******/

  /** What the tracker has pending of a partition it knows is exactly what the batch has left of it. */
  ghost predicate Tidy(k: PartitionKey, p: Part)
  {
    && Ascending(p.left) && (forall rec :: rec in p.left ==> rec.key == k)
    && p.st.pending.Keys == if p.st.forgotten then {} else OffsetsIn(p.left, k)
  }

  ghost predicate AllTidy(s: State)
  {
    forall mk :: mk in s.parts ==> Tidy(mk.1, s.parts[mk])
  }

  lemma {:induction false} PollTidies(k: PartitionKey, p: Part, recs: seq<Record>, newPosition: int)
    requires Tidy(k, p) && Tracking(p.mine, p.st, p.position, p.sent) && p.left == []
    requires Ascending(recs) && forall rec :: rec in recs ==> rec.key == k
    ensures Tidy(k, p.(st := TrackAll(p.st, recs), position := newPosition, left := recs, issued := []))
  {
    TrackAllTracks(p.st, recs);
    hide TrackAll, Ascending;
    assert p.st.pending.Keys == {};
    forall o | o in OffsetsIn(recs, k) ensures o in TrackAll(p.st, recs).pending {
      var rec :| rec in recs && rec.key == k && rec.offset as int == o;
      var i :| 0 <= i < |recs| && recs[i] == rec;
      assert recs[i].offset == o;
    }
    forall o | o in TrackAll(p.st, recs).pending ensures o in OffsetsIn(recs, k) {
      var i :| 0 <= i < |recs| && recs[i].offset == o;
      assert recs[i] in recs;
    }
  }

  lemma {:induction false} OffsetsTail(recs: seq<Record>, k: PartitionKey)
    requires recs != [] && Ascending(recs) && forall rec :: rec in recs ==> rec.key == k
    ensures OffsetsIn(recs[1..], k) == OffsetsIn(recs, k) - {recs[0].offset as int} && Ascending(recs[1..])
    ensures recs[0].offset as int in OffsetsIn(recs, k) && forall rec :: rec in recs[1..] ==> rec.key == k
  {
    var rest := recs[1..];
    assert recs == [recs[0]] + rest;
    forall rec | rec in rest ensures recs[0].offset < rec.offset {
      var i :| 0 <= i < |rest| && rest[i] == rec;
      assert recs[i + 1] == rec;
    }
  }

  lemma {:induction false} ConfirmTidies(k: PartitionKey, p: Part)
    requires Tidy(k, p) && p.left != []
    ensures Tidy(k, p.(st := Finishing(p.st, p.left[0]), left := p.left[1..],
              issued := if p.issued == [] then [] else p.issued[1..]))
  {
    OffsetsTail(p.left, k);
    hide OffsetsIn, Ascending;
  }

  lemma {:induction false} OthersTidy(k: PartitionKey, p: Part, w: int)
    requires Tidy(k, p)
    ensures Tidy(k, AbandonPart(p, PendingState(p.st))) && Tidy(k, BeginPart(p)) && Tidy(k, MarkPart(p, w))
    ensures Tidy(k, p.(mine := false, st := TOMBSTONE))
  {
    hide CommitableState, OffsetsIn;
    assert OffsetsIn([], k) == {} by { NoOffsets(k); }
  }

  lemma {:induction false} NoOffsets(k: PartitionKey)
    ensures OffsetsIn([], k) == {}
  {
  }

  /** Only what the tracker holds and what is left counts. */
  lemma {:induction false} SameTidy(k: PartitionKey, p: Part, p': Part)
    requires Tidy(k, p) && p'.st == p.st && p'.left == p.left
    ensures Tidy(k, p')
  {
    hide OffsetsIn, Ascending;
  }

  lemma {:induction false} UnknownTidy(k: PartitionKey)
    ensures Tidy(k, UNKNOWN)
  {
  }

  predicate OnOnePart(step: Step)
  {
    step.Assign? || step.Poll? || step.HandOff? || step.ConfirmFirst? || step.EndPass? || step.Revoke?
  }

  lemma {:induction false} OneTidies(c: Config, s: State, step: Step)
    requires Inv(c, s) && AllTidy(s) && Enabled(c, s, step)
    requires OnOnePart(step)
    ensures var mk := (step.m, step.k); mk in Apply(c, s, step).parts && Tidy(mk.1, Apply(c, s, step).parts[mk])
  {
    hide Tidy, PartInv, TrackAll, Finishing, PubsOf, FinishRecord, Ascending, Tracking;
    var mk := (step.m, step.k);
    if mk in s.parts {
      assert Tidy(step.k, s.parts[mk]);
      assert PartInv(c, s, step.k, s.parts[mk]);
      OthersTidy(step.k, s.parts[mk], 0);
    }
    if step.Assign? {
      UnknownTidy(step.k);
      SameTidy(step.k, if mk in s.parts then s.parts[mk] else UNKNOWN, Apply(c, s, step).parts[mk]);
    } else if step.Poll? {
      PartTracks(c, s, step.k, s.parts[mk]);
      PollTidies(step.k, s.parts[mk], step.recs, step.newPosition);
    } else if step.ConfirmFirst? {
      ConfirmTidies(step.k, s.parts[mk]);
    } else if step.HandOff? || step.EndPass? {
      SameTidy(step.k, s.parts[mk], Apply(c, s, step).parts[mk]);
    }
  }

  lemma {:induction false} PartTracks(c: Config, s: State, k: PartitionKey, p: Part)
    requires PartInv(c, s, k, p)
    ensures Tracking(p.mine, p.st, p.position, p.sent)
  {
  }

  lemma {:induction false} OthersAfter(c: Config, s: State, step: Step, mk: (MemberId, PartitionKey))
    returns (w: int)
    requires Enabled(c, s, step) && mk in Apply(c, s, step).parts
    requires OnOnePart(step) ==> mk != (step.m, step.k)
    ensures mk in s.parts
    ensures var p, p' := s.parts[mk], Apply(c, s, step).parts[mk];
            p' == p || p' == AbandonPart(p, PendingState(p.st)) || p' == BeginPart(p) || p' == MarkPart(p, w)
  {
    hide TrackAll, Finishing, PubsOf, FinishRecord, AbandonPart, BeginPart, MarkPart, PendingState;
    w := 0;
    if step.EndCommit? && mk.1 in s.flights[step.m].snap { w := s.flights[step.m].snap[mk.1].offset; }
  }

  lemma {:induction false} TidyKeeps(c: Config, s: State, step: Step)
    requires Inv(c, s) && AllTidy(s) && Enabled(c, s, step)
    ensures AllTidy(Apply(c, s, step))
  {
    hide Inv, Tidy, Enabled, Apply, AbandonPart, BeginPart, MarkPart, PendingState, OnOnePart;
    var s' := Apply(c, s, step);
    forall mk | mk in s'.parts ensures Tidy(mk.1, s'.parts[mk]) {
      if OnThisPart(step, mk) {
        OneTidies(c, s, step);
      } else {
        var w := OthersAfter(c, s, step, mk);
        OthersTidy(mk.1, s.parts[mk], w);
      }
    }
  }

  predicate OnThisPart(step: Step, mk: (MemberId, PartitionKey)) { OnOnePart(step) && mk == (step.m, step.k) }

  lemma {:induction false} StartsTidy()
    ensures AllTidy(INIT)
  {
  }

  /** In every run, what is pending of a partition is what is left of its batch. */
  lemma {:induction false} PendingIsLeft(c: Config, states: seq<State>, steps: seq<Step>, n: nat)
    requires ValidConfig(c) && Behavior(c, states, steps) && n < |states|
    ensures AllTidy(states[n])
  {
    hide Inv, AllTidy, Enabled, Apply;
    StartsTidy();
    if n > 0 {
      PendingIsLeft(c, states, steps, n - 1);
      RunsKeepInv(c, states, steps, n - 1);
      TidyKeeps(c, states[n - 1], steps[n - 1]);
    }
  }

  /******* The group's members run the tracker *******/

  /** The tracker a member holds. */
  function TrackerOf(s: State, m: MemberId): Tracker
  {
    map k | k in KeysOf(s, m) :: s.parts[(m, k)].st
  }

  lemma {:induction false} TrackRecordsIsTrackAll(t: Tracker, k: PartitionKey, recs: seq<Record>)
    requires k in t && forall r :: r in recs ==> r.key == k
    ensures TrackRecords(t, recs) == t[k := TrackAll(t[k], recs)]
  {
    if recs == [] {
      assert t[k := t[k]] == t;
    } else {
      TrackRecordsIsTrackAll(t, k, recs[..|recs| - 1]);
    }
  }

  lemma {:induction false} OneUpdate(s: State, s': State, mk: (MemberId, PartitionKey), p: Part, m: MemberId)
    requires s'.parts == s.parts[mk := p]
    ensures TrackerOf(s', m) == if m == mk.0 then TrackerOf(s, m)[mk.1 := p.st] else TrackerOf(s, m)
  {
  }

  lemma {:induction false} SendingIsCommitable(s: State, m: MemberId)
    ensures Sending(s, m) == CommitableMap(TrackerOf(s, m))
  {
  }

  /** What a step does to the tracker of the member that takes it. */
  ghost function Moved(s: State, step: Step, t: Tracker): Tracker
    requires step.ConfirmFirst? ==> (step.m, step.k) in s.parts && s.parts[(step.m, step.k)].left != []
    requires step.EndCommit? ==> step.m in s.flights
  {
    match step
    case Assign(_, k) => if k in t then t else ForgetPartition(t, k)
    case Poll(_, _, recs, _) => TrackRecords(t, recs)
    case ConfirmFirst(m, k) => DoneRecord(t, s.parts[(m, k)].left[0])
    case Abandon(_) => Abandoned(t)
    case EndCommit(m, reported) => if reported then MarkAll(t, s.flights[m].snap) else t
    case Revoke(_, k) => ForgetPartition(t, k)
    case Crash(_) => map[]
    case _ => t
  }

  function Mover(step: Step): Option<MemberId>
  {
    match step
    case Assign(m, _) => Some(m)
    case Poll(m, _, _, _) => Some(m)
    case HandOff(m, _, _, _, _) => Some(m)
    case ConfirmFirst(m, _) => Some(m)
    case EndPass(m, _) => Some(m)
    case Abandon(m) => Some(m)
    case BeginCommit(m) => Some(m)
    case LandCommit(m, _) => Some(m)
    case EndCommit(m, _) => Some(m)
    case Revoke(m, _) => Some(m)
    case Crash(m) => Some(m)
    case Acknowledge(_) => None
    case Lose(_) => None
  }

  ghost predicate RunsTracker(c: Config, s: State, step: Step, m: MemberId)
    requires Enabled(c, s, step)
  {
    TrackerOf(Apply(c, s, step), m) ==
      if Mover(step) == Some(m) then Moved(s, step, TrackerOf(s, m)) else TrackerOf(s, m)
  }

  /**
   * Every step does to its member's tracker exactly what the tracker's own
   * operations do, and leaves every other member's alone.
   */
  lemma {:induction false} StepsRunTheTracker(c: Config, s: State, step: Step, m: MemberId)
    requires ValidConfig(c) && Inv(c, s) && Enabled(c, s, step)
    ensures RunsTracker(c, s, step, m)
  {
    hide RunsTracker, Enabled, Inv;
    match step {
      case Assign(_, _) => AssignmentMoves(c, s, step, m);
      case Revoke(_, _) => AssignmentMoves(c, s, step, m);
      case Poll(_, _, _, _) => PollMoves(c, s, step, m);
      case HandOff(_, _, _, _, _) => IssuedMoves(c, s, step, m);
      case EndPass(_, _) => IssuedMoves(c, s, step, m);
      case ConfirmFirst(_, _) => ConfirmMoves(c, s, step, m);
      case Abandon(_) => AbandonMoves(c, s, step, m);
      case BeginCommit(_) => BeginMoves(c, s, step, m);
      case EndCommit(_, _) => EndMoves(c, s, step, m);
      case Crash(_) => CrashMoves(c, s, step, m);
      case _ => QuietMoves(c, s, step, m);
    }
  }

  lemma {:induction false} AssignmentMoves(c: Config, s: State, step: Step, m: MemberId)
    requires Enabled(c, s, step) && (step.Assign? || step.Revoke?)
    ensures RunsTracker(c, s, step, m)
  {
    var s' := Apply(c, s, step);
    OneUpdate(s, s', (step.m, step.k), s'.parts[(step.m, step.k)], m);
    if (step.m, step.k) in s.parts { SameState(s, (step.m, step.k), m); }
    KnownKeys(s, m, step.k);
    hide TrackerOf;
  }

  lemma {:induction false} KnownKeys(s: State, m: MemberId, k: PartitionKey)
    ensures k in TrackerOf(s, m) <==> (m, k) in s.parts
  {
  }

  lemma {:induction false} PollMoves(c: Config, s: State, step: Step, m: MemberId)
    requires Enabled(c, s, step) && step.Poll?
    ensures RunsTracker(c, s, step, m)
  {
    var s' := Apply(c, s, step);
    OneUpdate(s, s', (step.m, step.k), s'.parts[(step.m, step.k)], m);
    if m == step.m { TrackRecordsIsTrackAll(TrackerOf(s, m), step.k, step.recs); }
  }

  lemma {:induction false} IssuedMoves(c: Config, s: State, step: Step, m: MemberId)
    requires Enabled(c, s, step) && (step.HandOff? || step.EndPass?)
    ensures RunsTracker(c, s, step, m)
  {
    var s' := Apply(c, s, step);
    OneUpdate(s, s', (step.m, step.k), s'.parts[(step.m, step.k)], m);
    SameState(s, (step.m, step.k), m);
    hide TrackerOf;
  }

  lemma {:induction false} ConfirmMoves(c: Config, s: State, step: Step, m: MemberId)
    requires Inv(c, s) && Enabled(c, s, step) && step.ConfirmFirst?
    ensures RunsTracker(c, s, step, m)
  {
    PartRecords(c, s, step.k, s.parts[(step.m, step.k)]);
    hide Inv;
    var s' := Apply(c, s, step);
    OneUpdate(s, s', (step.m, step.k), s'.parts[(step.m, step.k)], m);
    SameState(s, (step.m, step.k), m);
  }

  lemma {:induction false} PartRecords(c: Config, s: State, k: PartitionKey, p: Part)
    requires PartInv(c, s, k, p)
    ensures forall i :: 0 <= i < |p.left| ==> p.left[i].key == k
  {
  }

  lemma {:induction false} AbandonMoves(c: Config, s: State, step: Step, m: MemberId)
    requires Enabled(c, s, step) && step.Abandon?
    ensures RunsTracker(c, s, step, m)
  {
    hide TrackerOf, Abandoned;
    if m == step.m { AbandonsAlike(c, s, m); } else { OthersKeep(c, s, step, m); }
  }

  lemma {:induction false} BeginMoves(c: Config, s: State, step: Step, m: MemberId)
    requires Enabled(c, s, step) && step.BeginCommit?
    ensures RunsTracker(c, s, step, m)
  {
    hide TrackerOf;
    BeginsAlike(c, s, step, m);
  }

  lemma {:induction false} EndMoves(c: Config, s: State, step: Step, m: MemberId)
    requires Enabled(c, s, step) && step.EndCommit?
    ensures RunsTracker(c, s, step, m)
  {
    hide TrackerOf, MarkAll;
    if m == step.m { EndsAlike(c, s, step); } else { OthersKeep(c, s, step, m); }
  }

  lemma {:induction false} CrashMoves(c: Config, s: State, step: Step, m: MemberId)
    requires Enabled(c, s, step) && step.Crash?
    ensures RunsTracker(c, s, step, m)
  {
    hide TrackerOf;
    OthersKeep(c, s, step, m);
  }

  lemma {:induction false} QuietMoves(c: Config, s: State, step: Step, m: MemberId)
    requires Enabled(c, s, step) && (step.Acknowledge? || step.LandCommit? || step.Lose?)
    ensures RunsTracker(c, s, step, m)
  {
    hide TrackerOf;
    SameParts(s, Apply(c, s, step), m);
  }

  lemma {:induction false} SameParts(s: State, s': State, m: MemberId)
    requires s'.parts == s.parts
    ensures TrackerOf(s', m) == TrackerOf(s, m)
  {
  }

  lemma {:induction false} SameState(s: State, mk: (MemberId, PartitionKey), m: MemberId)
    requires mk in s.parts
    ensures m == mk.0 ==> TrackerOf(s, m)[mk.1 := s.parts[mk].st] == TrackerOf(s, m)
  {
  }

  lemma {:induction false} OthersKeep(c: Config, s: State, step: Step, m: MemberId)
    requires Enabled(c, s, step) && (step.Abandon? || step.EndCommit? || step.Crash?)
    ensures m != step.m ==> TrackerOf(Apply(c, s, step), m) == TrackerOf(s, m)
    ensures step.Crash? && m == step.m ==> TrackerOf(Apply(c, s, step), m) == map[]
  {
    var s' := Apply(c, s, step);
    if m != step.m {
      assert KeysOf(s', m) == KeysOf(s, m);
    }
  }

  lemma {:induction false} BeginsAlike(c: Config, s: State, step: Step, m: MemberId)
    requires Enabled(c, s, step) && step.BeginCommit?
    ensures TrackerOf(Apply(c, s, step), m) == TrackerOf(s, m)
  {
    var s' := Apply(c, s, step);
    assert KeysOf(s', m) == KeysOf(s, m);
    forall k | k in KeysOf(s, m) ensures s'.parts[(m, k)].st == s.parts[(m, k)].st {
      BeginsWithSameState(s.parts[(m, k)]);
    }
  }

  lemma {:induction false} BeginsWithSameState(p: Part)
    ensures BeginPart(p).st == p.st
  {
  }

  lemma {:induction false} EndsAlike(c: Config, s: State, step: Step)
    requires Enabled(c, s, step) && step.EndCommit?
    ensures var t := TrackerOf(s, step.m);
            TrackerOf(Apply(c, s, step), step.m) == if step.reported then MarkAll(t, s.flights[step.m].snap) else t
  {
    var m, s' := step.m, Apply(c, s, step);
    assert KeysOf(s', m) == KeysOf(s, m);
  }

  lemma {:induction false} AbandonsAlike(c: Config, s: State, m: MemberId)
    ensures TrackerOf(Apply(c, s, Abandon(m)), m) == Abandoned(TrackerOf(s, m))
  {
    hide PendingState;
    var s' := Apply(c, s, Abandon(m));
    assert KeysOf(s', m) == KeysOf(s, m);
    forall k | k in KeysOf(s, m) ensures TrackerOf(s', m)[k] == Abandoned(TrackerOf(s, m))[k] {
      AbandonedState(s.parts[(m, k)]);
    }
  }

  lemma {:induction false} AbandonedState(p: Part)
    ensures AbandonPart(p, PendingState(p.st)).st == if PendingState(p.st).Some? then TOMBSTONE else p.st
  {
  }
}
