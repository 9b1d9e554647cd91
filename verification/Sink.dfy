/**
 * Driving a poll's records to a final outcome, partition by partition
 * (internal/sink/sink.go: processBatch, groupByPartition, runPartition, pass,
 * confirm, finish, abandonBatch, commit).
 *
 * Everything outside this process -- the batcher's answers, the broker's
 * acknowledgements, deadlines, cancellation, panics -- is the environment: a
 * `Turn` says what it does during one pass, a `World` during all of them.  The
 * contracts hold for every environment.
 */
module Sink {
  import opened Extremes
  import opened Options
  import opened OffsetTracker

  /** What the submission phase made of a record: submitted, decided as poison, or refused. */
  datatype Prepared = Submitted | Poisoned | Refused(error: int)

  /** The batcher's answer to a command: one flag per event saying whether it was rejected, or an error. */
  datatype SubmitResult = Answered(rejected: seq<bool>) | TooLarge | EmptyCommand | Failed(error: int)

  /** One publication handed to the broker for a record. */
  datatype Publication =
    | Results(rec: Record)
    | RejectDLQ(rec: Record, event: nat)
    | PoisonDLQ(rec: Record)

  /** How waiting for one publication ended. */
  datatype Ack = Acked | Nacked(error: int) | GaveUp

  datatype Finish = Issued(pubs: seq<Publication>) | Blocked(error: int)

  datatype Turn = Turn(
    stopped: nat -> bool,                // cancelled or out of budget before record i is submitted
    prepared: nat -> Prepared,
    cut: nat -> bool,                    // a refusal that is our own deadline
    awaited: nat -> Option<SubmitResult>,  // None: waiting was abandoned
    panics: nat -> Option<nat>,          // a panic after so many publications were handed off
    ack: (nat, nat) -> Ack)              // the j-th publication of record i

  /******* What a pass does, record by record *******/

  function Rejects(rec: Record, rejected: seq<bool>): seq<Publication>
  {
    if rejected == [] then []
    else
      var n := |rejected| - 1;
      Rejects(rec, rejected[..n]) + (if rejected[n] then [RejectDLQ(rec, n)] else [])
  }

  /** The publications of a record whose processing does not panic. */
  function Decide(rec: Record, p: Prepared, res: SubmitResult): Finish
  {
    match p
    case Poisoned => Issued([PoisonDLQ(rec)])
    case Refused(e) => Blocked(e)
    case Submitted =>
      match res
      case TooLarge => Issued([PoisonDLQ(rec)])
      case EmptyCommand => Issued([PoisonDLQ(rec)])
      case Failed(e) => Blocked(e)
      case Answered(rejected) => Issued([Results(rec)] + Rejects(rec, rejected))
  }

  /** finish: a panic adds a poison record to what was already handed off, and erases nothing. */
  function FinishRecord(rec: Record, p: Prepared, res: SubmitResult, panic: Option<nat>): Finish
  {
    match Decide(rec, p, res)
    case Blocked(e) => Blocked(e)
    case Issued(pubs) =>
      match panic
      case None => Issued(pubs)
      case Some(n) => Issued((if n < |pubs| then pubs[..n] else pubs) + [PoisonDLQ(rec)])
  }

  /******* What a record comes to, said without the code *******/

  /** The record has a final outcome; otherwise something around it failed, and it has to be tried again. */
  predicate HasOutcome(p: Prepared, res: SubmitResult) { !p.Refused? && !(p.Submitted? && res.Failed?) }

  function FailureOf(p: Prepared, res: SubmitResult): int
    requires !HasOutcome(p, res)
  {
    if p.Refused? then p.error else res.error
  }

  /** The record's command can never be applied. */
  predicate IsPoison(p: Prepared, res: SubmitResult)
  {
    p.Poisoned? || (p.Submitted? && (res.TooLarge? || res.EmptyCommand?))
  }

  predicate IsApplied(p: Prepared, res: SubmitResult) { p.Submitted? && res.Answered? }

  /** How many of the first x events were rejected. */
  function RejectedBefore(rejected: seq<bool>, x: nat): nat
    requires x <= |rejected|
  {
    if x == 0 then 0 else RejectedBefore(rejected, x - 1) + if rejected[x - 1] then 1 else 0
  }

  /** How many publications the outcome calls for, and how many are made of them when a panic comes after some. */
  function Planned(p: Prepared, res: SubmitResult): nat
  {
    if IsApplied(p, res) then 1 + RejectedBefore(res.rejected, |res.rejected|) else 1
  }

  function Kept(p: Prepared, res: SubmitResult, panic: Option<nat>): nat
  {
    if panic.Some? && panic.value < Planned(p, res) then panic.value else Planned(p, res)
  }

  function HowMany(p: Prepared, res: SubmitResult, panic: Option<nat>): nat
  {
    Kept(p, res, panic) + if panic.Some? then 1 else 0
  }

  /** The entry of a rejected event that has `j` others before it. */
  ghost predicate EntryAtPlace(rec: Record, rejected: seq<bool>, pub: Publication, j: int)
  {
    && pub.RejectDLQ? && pub.rec == rec && pub.event < |rejected| && rejected[pub.event]
    && RejectedBefore(rejected, pub.event) == j
  }

  /**
   * The publications are those the outcome calls for, in order: results first
   * and then an entry for each rejected event, or a poison entry alone.  A
   * panic keeps what was handed off before it and adds a poison entry, and
   * there is no other way to a poison entry.
   */
  ghost predicate Tells(pubs: seq<Publication>, rec: Record, p: Prepared, res: SubmitResult, panic: Option<nat>)
  {
    var kept := Kept(p, res, panic);
    && |pubs| == HowMany(p, res, panic)
    && (panic.Some? ==> pubs[kept] == PoisonDLQ(rec))
    && (IsApplied(p, res) ==>
          && (kept > 0 ==> pubs[0] == Results(rec))
          && (forall x: nat :: x < |res.rejected| && res.rejected[x] && 1 + RejectedBefore(res.rejected, x) < kept ==>
                pubs[1 + RejectedBefore(res.rejected, x)] == RejectDLQ(rec, x))
          && (forall j :: 0 < j < kept ==> EntryAtPlace(rec, res.rejected, pubs[j], j - 1)))
    && (!IsApplied(p, res) ==> kept > 0 ==> pubs[0] == PoisonDLQ(rec))
    && (PoisonDLQ(rec) in pubs ==> IsPoison(p, res) || panic.Some?)
  }

  lemma {:induction false} TellsLength(pubs: seq<Publication>, rec: Record, p: Prepared, res: SubmitResult,
      panic: Option<nat>)
    requires Tells(pubs, rec, p, res, panic)
    ensures |pubs| == HowMany(p, res, panic)
  {
  }

  lemma {:induction false} RejectedGrows(rejected: seq<bool>, x: nat, y: nat)
    requires x <= y <= |rejected|
    ensures RejectedBefore(rejected, x) <= RejectedBefore(rejected, y)
    ensures x < y && rejected[x] ==> RejectedBefore(rejected, x) < RejectedBefore(rejected, y)
    decreases y
  {
    if x < y { RejectedGrows(rejected, x, y - 1); }
  }

  lemma {:induction false} RejectedPrefix(rejected: seq<bool>, n: nat, x: nat)
    requires x <= n <= |rejected|
    ensures RejectedBefore(rejected[..n], x) == RejectedBefore(rejected, x)
    decreases x
  {
    if x > 0 { RejectedPrefix(rejected, n, x - 1); }
  }

  /** The entry of the x-th event, if it was rejected, comes after those of the rejected events before it. */
  lemma {:induction false} RejectsAt(rec: Record, rejected: seq<bool>)
    ensures |Rejects(rec, rejected)| == RejectedBefore(rejected, |rejected|)
    ensures forall x: nat :: x < |rejected| && rejected[x] ==>
              RejectedBefore(rejected, x) < |Rejects(rec, rejected)| &&
              Rejects(rec, rejected)[RejectedBefore(rejected, x)] == RejectDLQ(rec, x)
    ensures forall j :: 0 <= j < |Rejects(rec, rejected)| ==> EntryAtPlace(rec, rejected, Rejects(rec, rejected)[j], j)
  {
    if rejected != [] {
      var n := |rejected| - 1;
      RejectsAt(rec, rejected[..n]);
      RejectedPrefix(rejected, n, n);
      forall x: nat | x < n ensures RejectedBefore(rejected[..n], x) == RejectedBefore(rejected, x) {
        RejectedPrefix(rejected, n, x);
      }
      forall j | 0 <= j < |Rejects(rec, rejected)|
        ensures EntryAtPlace(rec, rejected, Rejects(rec, rejected)[j], j)
      {
        if j < |Rejects(rec, rejected[..n])| {
          assert EntryAtPlace(rec, rejected[..n], Rejects(rec, rejected[..n])[j], j);
        }
      }
    }
  }

  /** What the code hands off for a record tells its outcome, and it hands something off exactly if there is one. */
  lemma {:induction false} FinishTells(rec: Record, p: Prepared, res: SubmitResult, panic: Option<nat>)
    ensures FinishRecord(rec, p, res, panic).Issued? <==> HasOutcome(p, res)
    ensures HasOutcome(p, res) ==> Tells(FinishRecord(rec, p, res, panic).pubs, rec, p, res, panic)
    ensures !HasOutcome(p, res) ==> FinishRecord(rec, p, res, panic) == Blocked(FailureOf(p, res))
  {
    hide Rejects, RejectedBefore, EntryAtPlace, Tells;
    if HasOutcome(p, res) {
      if IsApplied(p, res) { PlanOfApplied(rec, res.rejected); }
      PlanTells(Decide(rec, p, res).pubs, rec, p, res, panic);
      FinishKeeps(rec, p, res, panic);
    }
  }

  lemma {:induction false} FinishKeeps(rec: Record, p: Prepared, res: SubmitResult, panic: Option<nat>)
    requires Decide(rec, p, res).Issued? && |Decide(rec, p, res).pubs| == Planned(p, res)
    ensures var kept := Decide(rec, p, res).pubs[..Kept(p, res, panic)];
            FinishRecord(rec, p, res, panic) == Issued(if panic.Some? then kept + [PoisonDLQ(rec)] else kept)
  {
    hide Decide, Planned;
  }

  lemma {:induction false} PlanOfApplied(rec: Record, rejected: seq<bool>)
    ensures var planned := [Results(rec)] + Rejects(rec, rejected);
            && |planned| == 1 + RejectedBefore(rejected, |rejected|) && planned[0] == Results(rec)
            && (forall j :: 0 < j < |planned| ==> EntryAtPlace(rec, rejected, planned[j], j - 1))
            && (forall x: nat :: x < |rejected| && rejected[x] ==>
                  1 + RejectedBefore(rejected, x) < |planned| &&
                  planned[1 + RejectedBefore(rejected, x)] == RejectDLQ(rec, x))
  {
    RejectsAt(rec, rejected);
    hide Rejects, RejectedBefore, EntryAtPlace;
    var planned := [Results(rec)] + Rejects(rec, rejected);
    forall j | 0 < j < |planned| ensures EntryAtPlace(rec, rejected, planned[j], j - 1) {
      assert planned[j] == Rejects(rec, rejected)[j - 1];
    }
    forall x: nat | x < |rejected| && rejected[x]
      ensures 1 + RejectedBefore(rejected, x) < |planned|
      ensures planned[1 + RejectedBefore(rejected, x)] == RejectDLQ(rec, x)
    {
      assert planned[1 + RejectedBefore(rejected, x)] == Rejects(rec, rejected)[RejectedBefore(rejected, x)];
    }
  }

  lemma {:induction false} PlanTells(planned: seq<Publication>, rec: Record, p: Prepared, res: SubmitResult,
      panic: Option<nat>)
    requires HasOutcome(p, res) && |planned| == Planned(p, res)
    requires !IsApplied(p, res) ==> planned == [PoisonDLQ(rec)]
    requires IsApplied(p, res) ==>
               && planned[0] == Results(rec)
               && (forall j :: 0 < j < |planned| ==> EntryAtPlace(rec, res.rejected, planned[j], j - 1))
               && (forall x: nat :: x < |res.rejected| && res.rejected[x] ==>
                     1 + RejectedBefore(res.rejected, x) < |planned| &&
                     planned[1 + RejectedBefore(res.rejected, x)] == RejectDLQ(rec, x))
    ensures var kept := planned[..Kept(p, res, panic)];
            Tells(if panic.Some? then kept + [PoisonDLQ(rec)] else kept, rec, p, res, panic)
  {
    hide RejectedBefore;
  }

  function Answer(t: Turn, i: nat): SubmitResult
  {
    if t.prepared(i).Submitted? && t.awaited(i).Some? then t.awaited(i).value else Answered([])
  }

  function FinishOf(t: Turn, recs: seq<Record>, i: nat): Finish
    requires i < |recs|
  {
    FinishRecord(recs[i], t.prepared(i), Answer(t, i), t.panics(i))
  }

  /** Submission of record i is attempted, and a refusal of it is the record's own. */
  predicate Goes(t: Turn, i: nat)
  {
    !t.stopped(i) && !(t.prepared(i).Refused? && t.cut(i))
  }

  /** Record i has an outcome to publish. */
  predicate Publishes(t: Turn, recs: seq<Record>, i: nat)
    requires i < |recs|
  {
    Goes(t, i) && (t.prepared(i).Submitted? ==> t.awaited(i).Some?) && HasOutcome(t.prepared(i), Answer(t, i))
  }

  /** Record i is driven to a final outcome and the broker acknowledges all of its publications. */
  predicate Confirms(t: Turn, recs: seq<Record>, i: nat)
    requires i < |recs|
  {
    && Publishes(t, recs, i)
    && forall j :: 0 <= j < |FinishOf(t, recs, i).pubs| ==> t.ack(i, j).Acked?
  }

  /** k is the length of the longest prefix of records that have publications to hand off. */
  ghost predicate PublishedPrefix(t: Turn, recs: seq<Record>, k: nat)
  {
    && k <= |recs| && (forall i :: 0 <= i < k ==> Publishes(t, recs, i))
    && (k < |recs| ==> !Publishes(t, recs, k))
  }

  /** k is the length of the longest prefix of acknowledged records. */
  ghost predicate ConfirmedPrefix(t: Turn, recs: seq<Record>, k: nat)
  {
    && k <= |recs| && (forall i :: 0 <= i < k ==> Confirms(t, recs, i))
    && (k < |recs| ==> !Confirms(t, recs, k))
  }

  /** The acknowledgement that ended the wait for record i, if one did. */
  function FirstBad(t: Turn, i: nat, j: nat, n: nat): Ack
    requires j <= n
    decreases n - j
  {
    if j == n then Acked else if !t.ack(i, j).Acked? then t.ack(i, j) else FirstBad(t, i, j + 1, n)
  }

  /** The infrastructure failure that stops the pass at record i, if there is one. */
  function FailureAt(t: Turn, recs: seq<Record>, i: nat): Option<int>
    requires i < |recs|
  {
    if Publishes(t, recs, i) then
      match FirstBad(t, i, 0, |FinishOf(t, recs, i).pubs|)
      case Nacked(e) => Some(e)
      case _ => None
    else if Goes(t, i) && (t.prepared(i).Submitted? ==> t.awaited(i).Some?)
    then Some(FailureOf(t.prepared(i), Answer(t, i)))
    else None
  }

  /** When everything submitted has been published, what was not submitted neither publishes nor fails. */
  lemma {:induction false} SubmissionEnds(t: Turn, recs: seq<Record>, n: nat)
    requires n < |recs| && (n > 0 ==> Publishes(t, recs, n - 1))
    requires !Goes(t, n) || (n > 0 && t.prepared(n - 1).Refused?)
    ensures !Publishes(t, recs, n) && FailureAt(t, recs, n).None?
  {
  }

  /** Marking records finished, in order. */
  function DoneAll(t: Tracker, recs: seq<Record>): Tracker
  {
    if recs == [] then t else DoneRecord(DoneAll(t, recs[..|recs| - 1]), recs[|recs| - 1])
  }

  /** The publications of the first n records, in offset order. */
  function Handed(t: Turn, recs: seq<Record>, n: nat): seq<Publication>
    requires n <= |recs|
  {
    if n == 0 then []
    else Handed(t, recs, n - 1) + (match FinishOf(t, recs, n - 1) case Issued(pubs) => pubs case Blocked(_) => [])
  }

  /** Where record i's publications begin among those of a pass. */
  function PlaceOf(t: Turn, i: nat): nat
  {
    if i == 0 then 0 else PlaceOf(t, i - 1) + HowMany(t.prepared(i - 1), Answer(t, i - 1), t.panics(i - 1))
  }

  /** The publications are those of the first n records, record by record, each telling its record's outcome. */
  ghost predicate TellsEach(pubs: seq<Publication>, t: Turn, recs: seq<Record>, n: nat)
    requires n <= |recs|
  {
    |pubs| == PlaceOf(t, n) && forall i: nat :: i < n ==> TellsAt(pubs, t, recs[i], i)
  }

  ghost predicate TellsAt(pubs: seq<Publication>, t: Turn, rec: Record, i: nat)
  {
    && PlaceOf(t, i) <= PlaceOf(t, i + 1) <= |pubs|
    && Tells(pubs[PlaceOf(t, i)..PlaceOf(t, i + 1)], rec, t.prepared(i), Answer(t, i), t.panics(i))
  }

  lemma {:induction false} TellsAtLonger(front: seq<Publication>, last: seq<Publication>, t: Turn, rec: Record, i: nat)
    requires TellsAt(front, t, rec, i)
    ensures TellsAt(front + last, t, rec, i)
  {
    var a, b := PlaceOf(t, i), PlaceOf(t, i + 1);
    assert (front + last)[a..b] == front[a..b];
    hide Tells, PlaceOf;
  }

  lemma {:induction false} TellsAtEnd(front: seq<Publication>, last: seq<Publication>, t: Turn, rec: Record, i: nat)
    requires |front| == PlaceOf(t, i) && Tells(last, rec, t.prepared(i), Answer(t, i), t.panics(i))
    ensures TellsAt(front + last, t, rec, i) && |front + last| == PlaceOf(t, i + 1)
  {
    assert (front + last)[|front|..] == last && (front + last)[|front|..|front + last|] == last;
    hide HowMany, Answer;
  }

  /** A pass hands off, for each record with an outcome, what tells it. */
  lemma {:induction false} HandedTells(t: Turn, recs: seq<Record>, n: nat)
    requires n <= |recs| && forall i :: 0 <= i < n ==> Publishes(t, recs, i)
    ensures TellsEach(Handed(t, recs, n), t, recs, n)
  {
    NothingHandedTells(t, recs);
    hide Publishes, Handed, PlaceOf, TellsAt, Tells, FinishRecord, HasOutcome;
    if n > 0 {
      HandedTells(t, recs, n - 1);
      var front := Handed(t, recs, n - 1);
      var last := OutcomeTold(t, recs, n - 1);
      forall i: nat | i < n - 1 ensures TellsAt(front + last, t, recs[i], i) {
        TellsAtLonger(front, last, t, recs[i], i);
      }
      TellsAtEnd(front, last, t, recs[n - 1], n - 1);
    }
  }

  lemma {:induction false} NothingHandedTells(t: Turn, recs: seq<Record>)
    ensures Handed(t, recs, 0) == [] && PlaceOf(t, 0) == 0
  {
  }

  lemma {:induction false} OutcomeTold(t: Turn, recs: seq<Record>, i: nat) returns (pubs: seq<Publication>)
    requires i < |recs| && Publishes(t, recs, i)
    ensures FinishOf(t, recs, i) == Issued(pubs) && Handed(t, recs, i + 1) == Handed(t, recs, i) + pubs
    ensures Tells(pubs, recs[i], t.prepared(i), Answer(t, i), t.panics(i))
  {
    FinishTells(recs[i], t.prepared(i), Answer(t, i), t.panics(i));
    hide FinishRecord, Tells;
    pubs := FinishOf(t, recs, i).pubs;
  }

  /** One DLQ entry for each rejected event, in event order, and none for the others. */
  lemma {:induction false} RejectsExactly(rec: Record, rejected: seq<bool>)
    ensures forall p :: p in Rejects(rec, rejected) <==>
              p.RejectDLQ? && p.rec == rec && p.event < |rejected| && rejected[p.event]
    ensures forall a, b :: 0 <= a < b < |Rejects(rec, rejected)| ==>
              EventOf(Rejects(rec, rejected)[a]) < EventOf(Rejects(rec, rejected)[b])
  {
    if rejected != [] {
      var n := |rejected| - 1;
      var front, all := Rejects(rec, rejected[..n]), Rejects(rec, rejected);
      RejectsExactly(rec, rejected[..n]);
      forall a, b | 0 <= a < b < |all| ensures EventOf(all[a]) < EventOf(all[b]) {
        assert all[a] == front[a] && front[a] in front;
        if b < |front| { assert all[b] == front[b]; } else { assert all[b] == RejectDLQ(rec, n); }
      }
    }
  }

  function EventOf(p: Publication): int { if p.RejectDLQ? then p.event else -1 }

  /** A record that reaches publication always has something to publish, and only about itself. */
  lemma {:induction false} PublicationsAboutRecord(rec: Record, p: Prepared, res: SubmitResult, panic: Option<nat>)
    requires FinishRecord(rec, p, res, panic).Issued?
    ensures var pubs := FinishRecord(rec, p, res, panic).pubs;
            pubs != [] && forall i :: 0 <= i < |pubs| ==> pubs[i].rec == rec
  {
    match res {
      case Answered(rejected) =>
        RejectsExactly(rec, rejected);
        assert forall q :: q in Rejects(rec, rejected) ==> q.rec == rec;
      case _ =>
    }
  }

  ghost predicate Ascending(recs: seq<Record>)
  {
    forall i, j :: 0 <= i < j < |recs| ==> recs[i].offset < recs[j].offset
  }

  lemma {:induction false} HandedStep(t: Turn, recs: seq<Record>, n: nat) returns (last: seq<Publication>)
    requires 0 < n <= |recs| && Publishes(t, recs, n - 1)
    ensures Handed(t, recs, n) == Handed(t, recs, n - 1) + last
    ensures last != [] && forall p :: p in last ==> p.rec == recs[n - 1]
  {
    last := FinishOf(t, recs, n - 1).pubs;
    PublicationsAboutRecord(recs[n - 1], t.prepared(n - 1), Answer(t, n - 1), t.panics(n - 1));
  }

  lemma {:induction false} NothingHanded(t: Turn, recs: seq<Record>)
    ensures Handed(t, recs, 0) == [] && InOffsetOrder([])
  {
  }

  ghost predicate About(pubs: seq<Publication>, rec: Record)
  {
    exists p :: p in pubs && p.rec == rec
  }

  /** Each of the first n records has something handed off, and nothing else is. */
  lemma {:induction false} HandedCovers(t: Turn, recs: seq<Record>, n: nat)
    requires n <= |recs| && forall i :: 0 <= i < n ==> Publishes(t, recs, i)
    ensures forall p :: p in Handed(t, recs, n) ==> p.rec in recs[..n]
    ensures forall rec :: rec in recs[..n] ==> About(Handed(t, recs, n), rec)
  {
    NothingHanded(t, recs);
    hide Publishes, Handed, About;
    if n > 0 {
      HandedCovers(t, recs, n - 1);
      var last := HandedStep(t, recs, n);
      CoverStep(Handed(t, recs, n - 1), last, recs, n);
    }
  }

  lemma {:induction false} CoverStep(front: seq<Publication>, last: seq<Publication>, recs: seq<Record>, n: nat)
    requires 0 < n <= |recs| && last != [] && forall p :: p in last ==> p.rec == recs[n - 1]
    requires forall p :: p in front ==> p.rec in recs[..n - 1]
    requires forall rec :: rec in recs[..n - 1] ==> About(front, rec)
    ensures forall p :: p in front + last ==> p.rec in recs[..n]
    ensures forall rec :: rec in recs[..n] ==> About(front + last, rec)
  {
    assert recs[..n] == recs[..n - 1] + [recs[n - 1]];
    assert last[0] in front + last && last[0].rec == recs[n - 1];
    forall rec | rec in recs[..n] ensures About(front + last, rec) {
      if rec in recs[..n - 1] {
        assert About(front, rec);
        var p :| p in front && p.rec == rec;
        assert p in front + last;
      }
    }
  }

  ghost predicate InOffsetOrder(pubs: seq<Publication>)
  {
    forall a, b :: 0 <= a < b < |pubs| ==> pubs[a].rec.offset <= pubs[b].rec.offset
  }

  /** Publications are handed off in offset order, poison records in their place. */
  lemma {:induction false} HandedInOffsetOrder(t: Turn, recs: seq<Record>, n: nat)
    requires n <= |recs| && Ascending(recs)
    requires forall i :: 0 <= i < n ==> Publishes(t, recs, i)
    ensures InOffsetOrder(Handed(t, recs, n))
  {
    NothingHanded(t, recs);
    hide Publishes, Handed, InOffsetOrder, About, Ascending;
    if n > 0 {
      HandedInOffsetOrder(t, recs, n - 1);
      HandedCovers(t, recs, n - 1);
      var last := HandedStep(t, recs, n);
      OrderStep(Handed(t, recs, n - 1), last, recs, n);
    }
  }

  lemma {:induction false} OrderStep(front: seq<Publication>, last: seq<Publication>, recs: seq<Record>, n: nat)
    requires 0 < n <= |recs| && Ascending(recs) && InOffsetOrder(front)
    requires forall p :: p in last ==> p.rec == recs[n - 1]
    requires forall p :: p in front ==> p.rec in recs[..n - 1]
    ensures InOffsetOrder(front + last)
  {
    var all := front + last;
    forall a, b | 0 <= a < b < |all| ensures all[a].rec.offset <= all[b].rec.offset {
      if b >= |front| {
        assert all[b] in last;
        if a < |front| { assert all[a] == front[a] && front[a] in front; } else { assert all[a] in last; }
      } else {
        assert all[a] == front[a] && all[b] == front[b];
      }
    }
  }

  lemma {:induction false} FirstBadAcked(t: Turn, i: nat, j: nat, n: nat)
    requires j <= n
    ensures FirstBad(t, i, j, n).Acked? <==> forall x :: j <= x < n ==> t.ack(i, x).Acked?
    decreases n - j
  {
    if j < n && t.ack(i, j).Acked? { FirstBadAcked(t, i, j + 1, n); }
  }

  lemma {:induction false} DoneAllConcat(t: Tracker, a: seq<Record>, b: seq<Record>)
    ensures DoneAll(t, a + b) == DoneAll(DoneAll(t, a), b)
  {
    if b == [] {
      assert a + b == a;
    } else {
      DoneAllConcat(t, a, b[..|b| - 1]);
      assert (a + b)[..|a + b| - 1] == a + b[..|b| - 1];
    }
  }

  /******* Retrying *******/

  /**
   * The environment of a partition's whole run: what it does in each pass, how
   * long each wait takes beyond its due, and when it cancels.  Places 0, 1 and
   * 2 of an iteration are its start, its pass and its backoff.
   */
  datatype World = World(turn: nat -> Turn, delay: (nat, nat) -> nat, cancels: (nat, nat) -> bool)

  /**
   * One pass of a run: where it began, what was submitted, and for how many
   * records it handed publications off and then saw them all acknowledged.
   */
  datatype Attempt = Attempt(start: nat, prep: seq<Prepared>, issued: nat, applied: nat)

  /** Where the passes of a run leave off, each one starting where the one before it stopped finishing records. */
  ghost predicate EndToEnd(attempts: seq<Attempt>, done: nat)
  {
    if attempts == [] then done == 0
    else
      && attempts[0].start == 0
      && attempts[|attempts| - 1].start + attempts[|attempts| - 1].applied == done
      && forall i :: 0 < i < |attempts| ==> attempts[i].start == attempts[i - 1].start + attempts[i - 1].applied
  }

  ghost predicate AllValid(attempts: seq<Attempt>, w: World, recs: seq<Record>, limit: nat)
  {
    forall i :: 0 <= i < |attempts| ==> ValidAttempt(attempts[i], w.turn(i), recs, limit)
  }

  /** Passes over the records, each one starting where the one before it stopped finishing records. */
  ghost predicate Chained(attempts: seq<Attempt>, w: World, recs: seq<Record>, limit: nat, done: nat)
  {
    EndToEnd(attempts, done) && AllValid(attempts, w, recs, limit)
  }

  ghost predicate ValidAttempt(a: Attempt, t: Turn, recs: seq<Record>, limit: nat)
  {
    && a.start <= |recs|
    && PublishedPrefix(t, Clip(recs[a.start..], limit), a.issued)
    && ConfirmedPrefix(t, Clip(recs[a.start..], limit), a.applied)
    && a.applied <= a.issued <= |a.prep| <= |Clip(recs[a.start..], limit)|
    && (forall i :: 0 <= i < |a.prep| ==> a.prep[i] == t.prepared(i))
    && (forall i :: 0 <= i < |a.prep| - 1 ==> !a.prep[i].Refused?)
  }

  function Clip(recs: seq<Record>, limit: nat): seq<Record>
  {
    if |recs| > limit then recs[..limit] else recs
  }

  /** What one pass of a run hands to the broker. */
  function HandedBy(a: Attempt, t: Turn, recs: seq<Record>, limit: nat): seq<Publication>
  {
    if a.start <= |recs| && a.issued <= |Clip(recs[a.start..], limit)|
    then Handed(t, Clip(recs[a.start..], limit), a.issued) else []
  }

  /** What a run's passes hand to the broker, one after the other. */
  function HandedByAll(attempts: seq<Attempt>, w: World, recs: seq<Record>, limit: nat): seq<Publication>
  {
    if attempts == [] then []
    else
      HandedByAll(attempts[..|attempts| - 1], w, recs, limit) +
      HandedBy(attempts[|attempts| - 1], w.turn(|attempts| - 1), recs, limit)
  }

  lemma {:induction false} HandedExtends(attempts: seq<Attempt>, w: World, recs: seq<Record>, limit: nat, a: Attempt,
      before: seq<Publication>)
    ensures before + HandedByAll(attempts + [a], w, recs, limit) ==
            before + HandedByAll(attempts, w, recs, limit) + HandedBy(a, w.turn(|attempts|), recs, limit)
  {
    assert (attempts + [a])[..|attempts|] == attempts;
  }

  /** The failure a pass ended on. */
  function PassError(a: Attempt, t: Turn, recs: seq<Record>, limit: nat): Option<int>
  {
    if a.start <= |recs| && a.applied < |Clip(recs[a.start..], limit)|
    then FailureAt(t, Clip(recs[a.start..], limit), a.applied) else None
  }

  /** Of a partition's run: when it starts, when it has to be over, and the pause after a failure. */
  datatype Budget = Budget(start: int, deadline: int, retryPeriod: int)

  /** The time when the iteration after these passes begins: every wait so far, and a pause for each failure. */
  function Clock(attempts: seq<Attempt>, w: World, recs: seq<Record>, limit: nat, b: Budget): int
    decreases |attempts|, 1
  {
    if attempts == [] then b.start
    else
      var n := |attempts| - 1;
      AfterPass(attempts, w, recs, limit, b) +
      (if PassError(attempts[n], w.turn(n), recs, limit).Some? then b.retryPeriod + w.delay(n, 2) else 0)
  }

  /** The time when the last of these passes was over. */
  function AfterPass(attempts: seq<Attempt>, w: World, recs: seq<Record>, limit: nat, b: Budget): int
    requires attempts != []
    decreases |attempts|, 0
  {
    var n := |attempts| - 1;
    Clock(attempts[..n], w, recs, limit, b) + w.delay(n, 0) + w.delay(n, 1)
  }

  /** After the last of these passes the partition is given up. */
  predicate GivesUp(attempts: seq<Attempt>, w: World, recs: seq<Record>, limit: nat, b: Budget)
    requires attempts != []
  {
    var n := |attempts| - 1;
    || w.cancels(n, 1)
    || match PassError(attempts[n], w.turn(n), recs, limit)
       case None => attempts[n].applied == 0
       case Some(_) => AfterPass(attempts, w, recs, limit, b) + b.retryPeriod >= b.deadline || w.cancels(n, 2)
  }

  /**
   * What ends a run with records left: a cancellation; the deadline, reached
   * or due before another try; or a pass that neither moved nor failed.
   */
  predicate Stops(attempts: seq<Attempt>, w: World, recs: seq<Record>, limit: nat, b: Budget)
  {
    || (attempts != [] && GivesUp(attempts, w, recs, limit, b))
    || w.cancels(|attempts|, 0)
    || Clock(attempts, w, recs, limit, b) + w.delay(|attempts|, 0) >= b.deadline
  }

  /** No pass was made that should not have been. */
  ghost predicate KeptGoing(attempts: seq<Attempt>, w: World, recs: seq<Record>, limit: nat, b: Budget)
  {
    forall k :: 0 <= k < |attempts| ==> !Stops(attempts[..k], w, recs, limit, b)
  }

  /** The run ended where it had to: everything finished, or a reason to stop and none before. */
  ghost predicate EndedDuly(attempts: seq<Attempt>, w: World, recs: seq<Record>, limit: nat, b: Budget, done: nat)
  {
    KeptGoing(attempts, w, recs, limit, b) && (done < |recs| ==> Stops(attempts, w, recs, limit, b))
  }

  lemma {:induction false} GoesOn(attempts: seq<Attempt>, w: World, recs: seq<Record>, limit: nat, b: Budget,
      a: Attempt)
    requires KeptGoing(attempts, w, recs, limit, b) && !Stops(attempts, w, recs, limit, b)
    ensures KeptGoing(attempts + [a], w, recs, limit, b)
  {
    hide Stops;
    forall k | 0 <= k < |attempts + [a]| ensures !Stops((attempts + [a])[..k], w, recs, limit, b) {
      assert (attempts + [a])[..k] == attempts[..k];
      if k == |attempts| { assert attempts[..k] == attempts; }
    }
  }

  lemma {:induction false} ClockTicks(attempts: seq<Attempt>, w: World, recs: seq<Record>, limit: nat, b: Budget,
      a: Attempt)
    ensures var n, longer := |attempts|, attempts + [a];
            && AfterPass(longer, w, recs, limit, b) ==
               Clock(attempts, w, recs, limit, b) + w.delay(n, 0) + w.delay(n, 1)
            && Clock(longer, w, recs, limit, b) == AfterPass(longer, w, recs, limit, b) +
               (if PassError(a, w.turn(n), recs, limit).Some? then b.retryPeriod + w.delay(n, 2) else 0)
            && (GivesUp(longer, w, recs, limit, b) <==>
                || w.cancels(n, 1)
                || (PassError(a, w.turn(n), recs, limit).None? && a.applied == 0)
                || (PassError(a, w.turn(n), recs, limit).Some? &&
                    (AfterPass(longer, w, recs, limit, b) + b.retryPeriod >= b.deadline || w.cancels(n, 2))))
  {
    hide PassError;
    assert (attempts + [a])[..|attempts|] == attempts;
  }

  lemma {:induction false} NothingTriedYet(w: World, recs: seq<Record>, limit: nat, b: Budget)
    ensures KeptGoing([], w, recs, limit, b) && Clock([], w, recs, limit, b) == b.start
    ensures Stops([], w, recs, limit, b) <==> w.cancels(0, 0) || b.start + w.delay(0, 0) >= b.deadline
  {
  }

  ghost predicate NeverCancelled(w: World) { forall k, place :: !w.cancels(k, place) }

  ghost predicate AllFailed(attempts: seq<Attempt>, w: World, recs: seq<Record>, limit: nat)
  {
    forall e :: 0 <= e < |attempts| ==> PassError(attempts[e], w.turn(e), recs, limit).Some?
  }

  /** A run that nobody cancels and whose passes fail keeps trying until the clock runs out. */
  lemma {:induction false} TriesUntilDeadline(attempts: seq<Attempt>, w: World, recs: seq<Record>, limit: nat,
      b: Budget, done: nat)
    requires EndedDuly(attempts, w, recs, limit, b, done) && done < |recs|
    requires NeverCancelled(w) && AllFailed(attempts, w, recs, limit)
    ensures || Clock(attempts, w, recs, limit, b) + w.delay(|attempts|, 0) >= b.deadline
            || (attempts != [] && AfterPass(attempts, w, recs, limit, b) + b.retryPeriod >= b.deadline)
  {
    hide PassError, Clock, AfterPass;
    assert Stops(attempts, w, recs, limit, b);
  }

  ghost predicate NoWaits(w: World) { forall k, place :: w.delay(k, place) == 0 }

  lemma {:induction false} ClockOfFailures(attempts: seq<Attempt>, w: World, recs: seq<Record>, limit: nat, b: Budget)
    requires NoWaits(w) && AllFailed(attempts, w, recs, limit)
    ensures Clock(attempts, w, recs, limit, b) == b.start + |attempts| * b.retryPeriod
    ensures attempts != [] ==>
              AfterPass(attempts, w, recs, limit, b) + b.retryPeriod == Clock(attempts, w, recs, limit, b)
  {
    hide PassError;
    if attempts != [] {
      var n := |attempts| - 1;
      ClockOfFailures(attempts[..n], w, recs, limit, b);
      assert PassError(attempts[n], w.turn(n), recs, limit).Some?;
      OneMore(n, b.retryPeriod);
    }
  }

  lemma {:induction false} OneMore(n: nat, p: int)
    ensures n * p + p == (n + 1) * p
  {
  }

  /**
   * How often a record that keeps failing is tried: as often as the pauses fit
   * before the deadline, and not once less.
   */
  lemma {:induction false} TriesExactly(attempts: seq<Attempt>, w: World, recs: seq<Record>, limit: nat,
      b: Budget, done: nat)
    requires EndedDuly(attempts, w, recs, limit, b, done) && done < |recs|
    requires NeverCancelled(w) && NoWaits(w) && AllFailed(attempts, w, recs, limit)
    ensures b.start + |attempts| * b.retryPeriod >= b.deadline
    ensures forall k :: 0 <= k < |attempts| ==> b.start + k * b.retryPeriod < b.deadline
  {
    hide PassError, AfterPass, Clock;
    TriesUntilDeadline(attempts, w, recs, limit, b, done);
    ClockOfFailures(attempts, w, recs, limit, b);
    forall k | 0 <= k < |attempts| ensures b.start + k * b.retryPeriod < b.deadline {
      ClockOfFailures(attempts[..k], w, recs, limit, b);
      assert !Stops(attempts[..k], w, recs, limit, b);
    }
  }

  lemma {:induction false} EndExtends(attempts: seq<Attempt>, done: nat, a: Attempt)
    requires EndToEnd(attempts, done) && a.start == done
    ensures EndToEnd(attempts + [a], done + a.applied)
  {
  }

  lemma {:induction false} AllValidExtends(attempts: seq<Attempt>, w: World, recs: seq<Record>, limit: nat, a: Attempt)
    requires AllValid(attempts, w, recs, limit) && ValidAttempt(a, w.turn(|attempts|), recs, limit)
    ensures AllValid(attempts + [a], w, recs, limit)
  {
    hide ValidAttempt;
  }

  /** What a run has done so far: its passes chain, and the tracker has exactly their records marked. */
  ghost predicate RanSoFar(
    before: Tracker, now: Tracker, attempts: seq<Attempt>, w: World, recs: seq<Record>, limit: nat, done: nat)
  {
    done <= |recs| && Chained(attempts, w, recs, limit, done) && now == DoneAll(before, recs[..done])
  }

  lemma {:induction false} RunExtends(before: Tracker, attempts: seq<Attempt>, w: World, recs: seq<Record>,
      limit: nat, done: nat, a: Attempt)
    requires done <= |recs| && Chained(attempts, w, recs, limit, done)
    requires a.start == done && a.applied <= |recs| - done && ValidAttempt(a, w.turn(|attempts|), recs, limit)
    ensures RanSoFar(before, DoneAll(DoneAll(before, recs[..done]), recs[done..][..a.applied]),
              attempts + [a], w, recs, limit, done + a.applied)
    ensures recs[done..][a.applied..] == recs[done + a.applied..]
  {
    hide EndToEnd, AllValid, ValidAttempt, DoneAll;
    EndExtends(attempts, done, a);
    AllValidExtends(attempts, w, recs, limit, a);
    Slices(recs, done, a.applied);
    DoneAllConcat(before, recs[..done], recs[done..][..a.applied]);
  }

  lemma {:induction false} Slices(recs: seq<Record>, done: nat, n: nat)
    requires done + n <= |recs|
    ensures recs[..done] + recs[done..][..n] == recs[..done + n] && recs[done..][n..] == recs[done + n..]
  {
  }

  lemma {:induction false} NothingTried(w: World, recs: seq<Record>, limit: nat, handed: seq<Publication>)
    ensures handed + HandedByAll([], w, recs, limit) == handed
  {
  }

  lemma {:induction false} RunStarts(before: Tracker, w: World, recs: seq<Record>, limit: nat)
    ensures RanSoFar(before, before, [], w, recs, limit, 0)
  {
  }

  /** Record y was finished by the pass: final outcome, every publication acknowledged. */
  ghost predicate FinishedBy(a: Attempt, t: Turn, recs: seq<Record>, limit: nat, y: nat)
  {
    && a.start <= y < a.start + a.applied && a.start <= |recs|
    && a.applied <= |Clip(recs[a.start..], limit)|
    && Confirms(t, Clip(recs[a.start..], limit), y - a.start)
  }

  /** Every record a chain of passes has moved past was finished by one of them. */
  lemma {:induction false} FinishedBefore(attempts: seq<Attempt>, w: World, recs: seq<Record>, limit: nat,
      done: nat, i: nat, y: nat)
    requires Chained(attempts, w, recs, limit, done)
    requires i <= |attempts| && y < (if i < |attempts| then attempts[i].start else done)
    ensures exists e :: 0 <= e < i && FinishedBy(attempts[e], w.turn(e), recs, limit, y)
  {
    assert i > 0;
    assert ValidAttempt(attempts[i - 1], w.turn(i - 1), recs, limit);
    if y >= attempts[i - 1].start {
      assert FinishedBy(attempts[i - 1], w.turn(i - 1), recs, limit, y);
    } else {
      FinishedBefore(attempts, w, recs, limit, done, i - 1, y);
    }
  }

  /**
   * No record overtakes: when a record is submitted, every earlier record of
   * its partition has been finished by an earlier pass, or was submitted or
   * decided as poison before it in the same pass.
   */
  lemma {:induction false} NoOvertaking(attempts: seq<Attempt>, w: World, recs: seq<Record>, limit: nat, done: nat,
      i: nat, x: nat, y: nat)
    requires Chained(attempts, w, recs, limit, done)
    requires i < |attempts| && x < |attempts[i].prep| && attempts[i].prep[x].Submitted?
    requires y < attempts[i].start + x
    ensures || (exists e :: 0 <= e < i && FinishedBy(attempts[e], w.turn(e), recs, limit, y))
            || (attempts[i].start <= y && !attempts[i].prep[y - attempts[i].start].Refused?)
  {
    assert ValidAttempt(attempts[i], w.turn(i), recs, limit);
    if y < attempts[i].start { FinishedBefore(attempts, w, recs, limit, done, i, y); }
  }

  /** The tracker after an abandonment: tombstones where something was unfinished. */
  ghost function Abandoned(t: Tracker): Tracker
  {
    map k | k in t :: if PendingState(t[k]).Some? then TOMBSTONE else t[k]
  }

  /******* Grouping a poll by partition *******/

  function OfPartition(records: seq<Record>, k: PartitionKey): seq<Record>
  {
    if records == [] then []
    else
      OfPartition(records[..|records| - 1], k) +
      (if records[|records| - 1].key == k then [records[|records| - 1]] else [])
  }

  /** Groups of a prefix of the poll, with the position of each partition's group. */
  ghost predicate Grouped(groups: seq<seq<Record>>, index: map<PartitionKey, nat>, records: seq<Record>)
  {
    && (forall k :: k in index ==> index[k] < |groups| && KeyOf(groups[index[k]]) == Some(k))
    && (forall g :: 0 <= g < |groups| ==> IsGroup(groups[g], records) && KeyOf(groups[g]).value in index &&
                                          index[KeyOf(groups[g]).value] == g)
    && (forall k :: k !in index ==> OfPartition(records, k) == [])
  }

  function KeyOf(group: seq<Record>): Option<PartitionKey>
  {
    if group == [] then None else Some(group[0].key)
  }

  /** A group is not empty and holds exactly its partition's records, in arrival order. */
  predicate IsGroup(group: seq<Record>, records: seq<Record>)
  {
    group != [] && group == OfPartition(records, group[0].key)
  }

  ghost predicate InSomeGroup(groups: seq<seq<Record>>, rec: Record)
  {
    exists g :: 0 <= g < |groups| && rec in groups[g]
  }

  lemma {:induction false} OfPartitionStep(records: seq<Record>, rec: Record, k: PartitionKey)
    ensures OfPartition(records + [rec], k) == OfPartition(records, k) + (if rec.key == k then [rec] else [])
  {
  }

  lemma {:induction false} GroupGrows(groups: seq<seq<Record>>, index: map<PartitionKey, nat>, records: seq<Record>,
      rec: Record)
    requires Grouped(groups, index, records) && rec.key in index
    ensures Grouped(groups[index[rec.key] := groups[index[rec.key]] + [rec]], index, records + [rec])
  {
    forall k { OfPartitionStep(records, rec, k); }
    hide OfPartition;
    var at := index[rec.key];
    var groups' := groups[at := groups[at] + [rec]];
    forall g | 0 <= g < |groups'|
      ensures IsGroup(groups'[g], records + [rec]) && KeyOf(groups'[g]) == KeyOf(groups[g])
    {
      assert IsGroup(groups[g], records);
    }
    hide IsGroup;
  }

  lemma {:induction false} GroupOpens(groups: seq<seq<Record>>, index: map<PartitionKey, nat>, records: seq<Record>,
      rec: Record)
    requires Grouped(groups, index, records) && rec.key !in index
    ensures Grouped(groups + [[rec]], index[rec.key := |groups|], records + [rec])
  {
    forall k { OfPartitionStep(records, rec, k); }
    hide OfPartition;
    var groups' := groups + [[rec]];
    assert OfPartition(records, rec.key) == [];
    forall g | 0 <= g < |groups'|
      ensures IsGroup(groups'[g], records + [rec]) && (g < |groups| ==> KeyOf(groups'[g]) == KeyOf(groups[g]))
    {
      if g < |groups| { assert IsGroup(groups[g], records) && groups'[g] == groups[g]; }
    }
    hide IsGroup;
  }

  /** groupByPartition: every record is in its partition's only group. */
  method GroupByPartition(records: seq<Record>) returns (groups: seq<seq<Record>>)
    ensures forall g :: 0 <= g < |groups| ==> IsGroup(groups[g], records)
    ensures forall g, h :: 0 <= g < h < |groups| ==> KeyOf(groups[g]) != KeyOf(groups[h])
    ensures forall i :: 0 <= i < |records| ==> InSomeGroup(groups, records[i])
  {
    groups := [];
    var index: map<PartitionKey, nat> := map[];
    for i := 0 to |records|
      invariant Grouped(groups, index, records[..i])
    {
      var rec := records[i];
      assert records[..i + 1] == records[..i] + [rec];
      hide Grouped;
      if rec.key in index {
        GroupGrows(groups, index, records[..i], rec);
      } else {
        GroupOpens(groups, index, records[..i], rec);
        index := index[rec.key := |groups|];
        groups := groups + [[]];
        assert (groups[|groups| - 1 := [] + [rec]]) == groups[..|groups| - 1] + [[rec]];
      }
      groups := groups[index[rec.key] := groups[index[rec.key]] + [rec]];
    }
    assert records[..|records|] == records;
    GroupsCover(groups, index, records);
  }

  /** The groups are distinct partitions' and hold every record. */
  lemma {:induction false} GroupsCover(groups: seq<seq<Record>>, index: map<PartitionKey, nat>, records: seq<Record>)
    requires Grouped(groups, index, records)
    ensures forall g :: 0 <= g < |groups| ==> IsGroup(groups[g], records)
    ensures forall g, h :: 0 <= g < h < |groups| ==> KeyOf(groups[g]) != KeyOf(groups[h])
    ensures forall i :: 0 <= i < |records| ==> InSomeGroup(groups, records[i])
  {
    hide InSomeGroup;
    forall i | 0 <= i < |records| ensures InSomeGroup(groups, records[i]) {
      GroupHolds(groups, index, records, i);
    }
  }

  lemma {:induction false} GroupHolds(groups: seq<seq<Record>>, index: map<PartitionKey, nat>,
      records: seq<Record>, i: nat)
    requires Grouped(groups, index, records) && i < |records|
    ensures InSomeGroup(groups, records[i])
  {
    var k := records[i].key;
    KeepsRecord(records, i);
    hide OfPartition;
    assert OfPartition(records, k) != [];
    assert k in index;
    var g := index[k];
    assert KeyOf(groups[g]) == Some(k) && IsGroup(groups[g], records);
    assert groups[g] == OfPartition(records, k);
  }

  lemma {:induction false} KeepsRecord(records: seq<Record>, i: nat)
    requires i < |records|
    ensures records[i] in OfPartition(records, records[i].key)
  {
    if i < |records| - 1 { KeepsRecord(records[..|records| - 1], i); }
  }

  /******* A whole batch *******/

  /** Tracking a poll's records, in arrival order. */
  function TrackRecords(t: Tracker, recs: seq<Record>): Tracker
  {
    if recs == [] then t else TrackRecord(TrackRecords(t, recs[..|recs| - 1]), recs[|recs| - 1])
  }

  /** One partition's part of a batch: its records, how many were finished, and the passes it took. */
  datatype GroupRun = GroupRun(recs: seq<Record>, done: nat, attempts: seq<Attempt>)

  ghost predicate GroupRan(run: GroupRun, w: World, limit: nat)
  {
    run.done <= |run.recs| && Chained(run.attempts, w, run.recs, limit, run.done)
  }

  ghost predicate AllRan(runs: seq<GroupRun>, worlds: nat -> World, limit: nat)
  {
    forall g :: 0 <= g < |runs| ==> GroupRan(runs[g], worlds(g), limit)
  }

  /** Each partition's run ended where it had to. */
  ghost predicate AllEnded(runs: seq<GroupRun>, worlds: nat -> World, starts: nat -> int, deadline: int,
      retryPeriod: int, limit: nat)
  {
    forall g :: 0 <= g < |runs| ==>
      EndedDuly(runs[g].attempts, worlds(g), runs[g].recs, limit, Budget(starts(g), deadline, retryPeriod),
        runs[g].done)
  }

  predicate AllFinished(runs: seq<GroupRun>)
  {
    forall g :: 0 <= g < |runs| ==> runs[g].done == |runs[g].recs|
  }

  /** The records a batch marks finished. */
  function FinishedIn(runs: seq<GroupRun>): seq<Record>
  {
    if runs == [] then [] else FinishedIn(runs[..|runs| - 1]) + Clip(runs[|runs| - 1].recs, runs[|runs| - 1].done)
  }

  /** What a batch hands to the broker, partition by partition. */
  function HandedIn(runs: seq<GroupRun>, worlds: nat -> World, limit: nat): seq<Publication>
  {
    if runs == [] then []
    else
      var n := |runs| - 1;
      HandedIn(runs[..n], worlds, limit) + HandedByAll(runs[n].attempts, worlds(n), runs[n].recs, limit)
  }

  /** The runs are those of the poll's groups: one for each partition, and every record in one of them. */
  ghost predicate RunsOf(runs: seq<GroupRun>, records: seq<Record>)
  {
    && (forall g :: 0 <= g < |runs| ==> IsGroup(runs[g].recs, records))
    && (forall g, h :: 0 <= g < h < |runs| ==> KeyOf(runs[g].recs) != KeyOf(runs[h].recs))
    && (forall i :: 0 <= i < |records| ==> InSomeRun(runs, records[i]))
  }

  ghost predicate InSomeRun(runs: seq<GroupRun>, rec: Record)
  {
    exists g :: 0 <= g < |runs| && rec in runs[g].recs
  }

  /** The offsets of a partition's unfinished records. */
  function PendingOffsets(t: Tracker, k: PartitionKey): set<int>
  {
    if k in t && !t[k].forgotten then t[k].pending.Keys else {}
  }

  function OffsetsIn(recs: seq<Record>, k: PartitionKey): set<int>
  {
    set r | r in recs && r.key == k :: r.offset as int
  }

  lemma {:induction false} PendingMeans(t: Tracker, k: PartitionKey)
    ensures k in PendingMap(t) <==> PendingOffsets(t, k) != {}
    ensures k in PendingMap(t) ==> PendingMap(t)[k].offset == Least(PendingOffsets(t, k))
  {
  }

  lemma {:induction false} OffsetsStep(recs: seq<Record>, k: PartitionKey)
    requires recs != []
    ensures var last := recs[|recs| - 1];
            OffsetsIn(recs, k) ==
            OffsetsIn(recs[..|recs| - 1], k) + (if last.key == k then {last.offset as int} else {})
  {
    assert recs == recs[..|recs| - 1] + [recs[|recs| - 1]];
  }

  lemma {:induction false} TrackingPends(t: Tracker, recs: seq<Record>, k: PartitionKey)
    ensures PendingOffsets(TrackRecords(t, recs), k) == PendingOffsets(t, k) + OffsetsIn(recs, k)
  {
    if recs != [] {
      TrackingPends(t, recs[..|recs| - 1], k);
      OffsetsStep(recs, k);
      hide OffsetsIn;
    }
  }

  /** The span kept for a partition runs from the least offset tracked to the greatest. */
  lemma {:induction false} TrackedSpan(recs: seq<Record>, k: PartitionKey)
    requires recs != [] && forall rec :: rec in recs ==> rec.key == k
    ensures var t := TrackRecords(map[], recs);
            && k in t && !t[k].forgotten
            && IsLeast(t[k].lowest, OffsetsIn(recs, k)) && IsGreatest(t[k].highest, OffsetsIn(recs, k))
  {
    var front, last := recs[..|recs| - 1], recs[|recs| - 1];
    OffsetsStep(recs, k);
    if front == [] {
      assert OffsetsIn(front, k) == {} && TrackRecords(map[], front) == map[];
    } else {
      TrackedSpan(front, k);
    }
    hide OffsetsIn;
  }

  lemma {:induction false} DoneUnpends(t: Tracker, recs: seq<Record>, k: PartitionKey)
    ensures PendingOffsets(DoneAll(t, recs), k) == PendingOffsets(t, k) - OffsetsIn(recs, k)
  {
    if recs != [] {
      DoneUnpends(t, recs[..|recs| - 1], k);
      OffsetsStep(recs, k);
      hide OffsetsIn;
    }
  }

  /** What a batch leaves unfinished, when nothing was pending before it. */
  lemma {:induction false} BatchPends(t: Tracker, records: seq<Record>, runs: seq<GroupRun>, k: PartitionKey)
    requires PendingMap(t) == map[]
    ensures PendingOffsets(DoneAll(TrackRecords(t, records), FinishedIn(runs)), k) ==
            OffsetsIn(records, k) - OffsetsIn(FinishedIn(runs), k)
  {
    PendingMeans(t, k);
    TrackingPends(t, records, k);
    DoneUnpends(TrackRecords(t, records), FinishedIn(runs), k);
  }

  ghost predicate FinishedByRun(runs: seq<GroupRun>, rec: Record)
  {
    exists g :: 0 <= g < |runs| && rec in Clip(runs[g].recs, runs[g].done)
  }

  lemma {:induction false} FinishedByNext(runs: seq<GroupRun>, rec: Record)
    requires runs != []
    ensures var last := runs[|runs| - 1];
            FinishedByRun(runs, rec) <==> FinishedByRun(runs[..|runs| - 1], rec) || rec in Clip(last.recs, last.done)
  {
    hide Clip;
    var front := runs[..|runs| - 1];
    if FinishedByRun(front, rec) {
      var g :| 0 <= g < |front| && rec in Clip(front[g].recs, front[g].done);
      assert rec in Clip(runs[g].recs, runs[g].done);
    }
    if FinishedByRun(runs, rec) {
      var g :| 0 <= g < |runs| && rec in Clip(runs[g].recs, runs[g].done);
      if g < |front| { assert rec in Clip(front[g].recs, front[g].done); }
    }
  }

  lemma {:induction false} FinishedInAll(runs: seq<GroupRun>, rec: Record)
    ensures rec in FinishedIn(runs) <==> FinishedByRun(runs, rec)
  {
    hide Clip, FinishedByRun;
    if runs == [] {
      assert !FinishedByRun(runs, rec) by { NoRuns(rec); }
    } else {
      FinishedInAll(runs[..|runs| - 1], rec);
      FinishedByNext(runs, rec);
    }
  }

  lemma {:induction false} NoRuns(rec: Record)
    ensures !FinishedByRun([], rec)
  {
  }

  lemma {:induction false} NothingLeft(t: Tracker, records: seq<Record>, runs: seq<GroupRun>)
    requires PendingMap(t) == map[] && RunsOf(runs, records) && AllFinished(runs)
    ensures PendingMap(DoneAll(TrackRecords(t, records), FinishedIn(runs))) == map[]
  {
    forall k ensures k !in PendingMap(DoneAll(TrackRecords(t, records), FinishedIn(runs))) {
      PendingMeans(DoneAll(TrackRecords(t, records), FinishedIn(runs)), k);
      BatchPends(t, records, runs, k);
      hide RunsOf, AllFinished, FinishedIn, DoneAll, TrackRecords, PendingMap, PendingOffsets;
      forall rec | rec in records ensures rec in FinishedIn(runs) { AllInFinished(records, runs, rec); }
    }
  }

  lemma {:induction false} AllInFinished(records: seq<Record>, runs: seq<GroupRun>, rec: Record)
    requires RunsOf(runs, records) && AllFinished(runs) && rec in records
    ensures rec in FinishedIn(runs)
  {
    hide IsGroup, KeyOf, FinishedIn;
    var i :| 0 <= i < |records| && records[i] == rec;
    assert InSomeRun(runs, records[i]);
    var g :| 0 <= g < |runs| && rec in runs[g].recs;
    assert Clip(runs[g].recs, runs[g].done) == runs[g].recs;
    assert FinishedByRun(runs, rec);
    FinishedInAll(runs, rec);
  }

  lemma {:induction false} OfPartitionExactly(records: seq<Record>, k: PartitionKey, rec: Record)
    ensures rec in OfPartition(records, k) <==> rec in records && rec.key == k
  {
    if records != [] {
      OfPartitionExactly(records[..|records| - 1], k, rec);
      assert records == records[..|records| - 1] + [records[|records| - 1]];
    }
  }

  /** A partition's records keep the order they arrived in, and none is missing. */
  lemma {:induction false} ArrivalOrder(records: seq<Record>, k: PartitionKey) returns (places: seq<nat>)
    ensures |places| == |OfPartition(records, k)|
    ensures forall i :: 0 <= i < |places| ==> places[i] < |records| && records[places[i]] == OfPartition(records, k)[i]
    ensures forall i, j :: 0 <= i < j < |places| ==> places[i] < places[j]
    ensures forall x :: 0 <= x < |records| && records[x].key == k ==> x in places
  {
    places := [];
    if records != [] {
      var n := |records| - 1;
      var front := ArrivalOrder(records[..n], k);
      places := front + (if records[n].key == k then [n] else []);
      forall x | 0 <= x < |records| && records[x].key == k ensures x in places {
        if x < n { assert records[..n][x] == records[x] && x in front; }
      }
    }
  }

  lemma {:induction false} InRun(runs: seq<GroupRun>, records: seq<Record>, g: nat, rec: Record)
    requires RunsOf(runs, records) && g < |runs|
    ensures runs[g].recs != [] && (rec in runs[g].recs <==> rec in records && rec.key == runs[g].recs[0].key)
  {
    assert IsGroup(runs[g].recs, records);
    OfPartitionExactly(records, runs[g].recs[0].key, rec);
    hide OfPartition;
  }

  /** Of one partition's records, the batch finishes what its run finishes. */
  lemma {:induction false} FinishedOfRun(runs: seq<GroupRun>, records: seq<Record>, g: nat, rec: Record)
    requires RunsOf(runs, records) && g < |runs| && runs[g].recs != [] && rec.key == runs[g].recs[0].key
    ensures rec in FinishedIn(runs) <==> rec in Clip(runs[g].recs, runs[g].done)
  {
    FinishedInAll(runs, rec);
    hide FinishedIn;
    if FinishedByRun(runs, rec) {
      var h :| 0 <= h < |runs| && rec in Clip(runs[h].recs, runs[h].done);
      InClip(runs[h].recs, runs[h].done, rec);
      InRun(runs, records, h, rec);
      assert KeyOf(runs[h].recs) == KeyOf(runs[g].recs);
      hide IsGroup, InSomeRun, KeyOf;
      assert h == g;
    }
  }

  lemma {:induction false} InClip(recs: seq<Record>, n: nat, rec: Record)
    ensures rec in Clip(recs, n) ==> rec in recs
  {
  }

  /** What a partition's run leaves unfinished is what stays pending of it. */
  lemma {:induction false} RunPends(t: Tracker, records: seq<Record>, runs: seq<GroupRun>, g: nat)
    requires PendingMap(t) == map[] && RunsOf(runs, records) && g < |runs| && runs[g].recs != []
    requires runs[g].done <= |runs[g].recs| && Ascending(runs[g].recs)
    ensures var k := runs[g].recs[0].key;
            PendingOffsets(DoneAll(TrackRecords(t, records), FinishedIn(runs)), k) ==
            OffsetsIn(runs[g].recs[runs[g].done..], k)
  {
    hide RunsOf, FinishedIn, DoneAll, TrackRecords, PendingMap, PendingOffsets, OffsetsIn, Ascending, Clip;
    var recs, n := runs[g].recs, runs[g].done;
    BatchPends(t, records, runs, recs[0].key);
    forall rec ensures rec in recs <==> rec in records && rec.key == recs[0].key { InRun(runs, records, g, rec); }
    forall rec: Record | rec.key == recs[0].key ensures rec in FinishedIn(runs) <==> rec in recs[..n] {
      FinishedOfRun(runs, records, g, rec);
      ClipIsFront(recs, n);
    }
    OffsetsApart(records, FinishedIn(runs), recs, n);
  }

  lemma {:induction false} ClipIsFront(recs: seq<Record>, n: nat)
    requires n <= |recs|
    ensures Clip(recs, n) == recs[..n]
  {
  }

  lemma {:induction false} OffsetsApart(records: seq<Record>, finished: seq<Record>, recs: seq<Record>, n: nat)
    requires recs != [] && n <= |recs| && Ascending(recs)
    requires forall rec :: rec in recs <==> rec in records && rec.key == recs[0].key
    requires forall rec: Record :: rec.key == recs[0].key ==> (rec in finished <==> rec in recs[..n])
    ensures OffsetsIn(records, recs[0].key) - OffsetsIn(finished, recs[0].key) == OffsetsIn(recs[n..], recs[0].key)
  {
    var k := recs[0].key;
    SameOffsets(records, recs, k);
    SameOffsets(finished, recs[..n], k);
    OffsetsCut(recs, n, k);
    hide OffsetsIn, Ascending;
  }

  lemma {:induction false} SameOffsets(a: seq<Record>, b: seq<Record>, k: PartitionKey)
    requires forall rec: Record :: rec.key == k ==> (rec in a <==> rec in b)
    ensures OffsetsIn(a, k) == OffsetsIn(b, k)
  {
  }

  lemma {:induction false} OffsetsCut(recs: seq<Record>, n: nat, k: PartitionKey)
    requires n <= |recs| && Ascending(recs)
    ensures OffsetsIn(recs, k) - OffsetsIn(recs[..n], k) == OffsetsIn(recs[n..], k)
  {
    assert recs == recs[..n] + recs[n..];
    forall a, b | a in recs[..n] && b in recs[n..] ensures a.offset < b.offset {
      var i :| 0 <= i < n && recs[..n][i] == a;
      var j :| 0 <= j < |recs| - n && recs[n..][j] == b;
      assert recs[i].offset < recs[n + j].offset;
    }
  }

  lemma {:induction false} FirstIsLeast(recs: seq<Record>, n: nat)
    requires n <= |recs| && Ascending(recs) && forall rec :: rec in recs ==> rec.key == recs[0].key
    ensures n < |recs| ==> IsLeast(recs[n].offset, OffsetsIn(recs[n..], recs[0].key))
    ensures n == |recs| && recs != [] ==> OffsetsIn(recs[n..], recs[0].key) == {}
  {
    if n < |recs| {
      assert recs[n..][0] == recs[n] && recs[n] in recs;
      forall rec | rec in recs[n..] ensures recs[n].offset <= rec.offset {
        var j :| 0 <= j < |recs| - n && recs[n..][j] == rec;
        assert recs[n + j] == rec;
      }
    }
  }

  /**
   * What an abandonment after a batch rewinds: exactly the partitions whose
   * records are not all finished, each to the first record its run did not
   * finish.
   */
  lemma {:induction false} RewindsToFirstUnfinished(t: Tracker, records: seq<Record>, runs: seq<GroupRun>, g: nat)
    requires PendingMap(t) == map[] && RunsOf(runs, records) && g < |runs|
    requires runs[g].done <= |runs[g].recs| && Ascending(runs[g].recs)
    ensures runs[g].recs != []
    ensures var k, rewound := runs[g].recs[0].key, PendingMap(DoneAll(TrackRecords(t, records), FinishedIn(runs)));
            && (k in rewound <==> runs[g].done < |runs[g].recs|)
            && (k in rewound ==> rewound[k].offset == runs[g].recs[runs[g].done].offset)
  {
    var recs, n := runs[g].recs, runs[g].done;
    forall rec ensures recs != [] && (rec in recs ==> rec.key == recs[0].key) { InRun(runs, records, g, rec); }
    RunPends(t, records, runs, g);
    PendingMeans(DoneAll(TrackRecords(t, records), FinishedIn(runs)), recs[0].key);
    FirstIsLeast(recs, n);
    hide RunsOf, FinishedIn, DoneAll, TrackRecords, PendingMap, PendingOffsets, Ascending, OffsetsIn;
  }

  /** A partition the poll holds nothing of is not rewound. */
  lemma {:induction false} RewindsNothingElse(t: Tracker, records: seq<Record>, runs: seq<GroupRun>, k: PartitionKey)
    requires PendingMap(t) == map[] && forall rec :: rec in records ==> rec.key != k
    ensures k !in PendingMap(DoneAll(TrackRecords(t, records), FinishedIn(runs)))
  {
    BatchPends(t, records, runs, k);
    PendingMeans(DoneAll(TrackRecords(t, records), FinishedIn(runs)), k);
    hide PendingMap, PendingOffsets, DoneAll, TrackRecords, FinishedIn;
  }

  /******* The code *******/

  class Sink {
    const maxInFlight: nat
    const offsets: Offsets
    /** Every publication handed to the broker, in hand-off order. */
    var handed: seq<Publication>

    constructor (maxInFlight: nat, offsets: Offsets)
      requires maxInFlight > 0
      ensures this.maxInFlight == maxInFlight && this.offsets == offsets && handed == []
    {
      this.maxInFlight := maxInFlight;
      this.offsets := offsets;
      handed := [];
    }

    /** The first phase: submit in offset order, and stop at the first refusal. */
    method Prepare(n: nat, t: Turn) returns (prep: seq<Prepared>)
      ensures |prep| <= n
      ensures forall i :: 0 <= i < |prep| ==> prep[i] == t.prepared(i) && Goes(t, i)
      ensures forall i :: 0 <= i < |prep| - 1 ==> !prep[i].Refused?
      ensures |prep| < n ==> !Goes(t, |prep|) || (|prep| > 0 && prep[|prep| - 1].Refused?)
    {
      prep := [];
      for i := 0 to n
        invariant |prep| == i
        invariant forall j :: 0 <= j < i ==> prep[j] == t.prepared(j) && !prep[j].Refused? && Goes(t, j)
      {
        if t.stopped(i) { break; }
        var p := t.prepared(i);
        if p.Refused? && t.cut(i) { break; }
        prep := prep + [p];
        if p.Refused? { break; }
      }
    }

    /** The second phase: collect outcomes in the same order, handing off publications. */
    method Publish(recs: seq<Record>, prep: seq<Prepared>, t: Turn)
      returns (issued: seq<seq<Publication>>, failErr: Option<int>)
      requires |prep| <= |recs|
      requires forall i :: 0 <= i < |prep| ==> prep[i] == t.prepared(i) && Goes(t, i)
      requires |prep| < |recs| ==> !Goes(t, |prep|) || (|prep| > 0 && prep[|prep| - 1].Refused?)
      modifies this`handed
      ensures |issued| <= |prep| && PublishedPrefix(t, recs, |issued|)
      ensures forall i :: 0 <= i < |issued| ==> FinishOf(t, recs, i) == Issued(issued[i])
      ensures handed == old(handed) + Handed(t, recs, |issued|)
      ensures failErr == if |issued| < |recs| then FailureAt(t, recs, |issued|) else None
    {
      hide Publishes, FailureAt, FinishRecord, Answer;
      issued := [];
      failErr := None;
      for i := 0 to |prep|
        invariant |issued| == i && failErr.None?
        invariant forall j :: 0 <= j < i ==> FinishOf(t, recs, j) == Issued(issued[j])
        invariant forall j :: 0 <= j < i ==> Publishes(t, recs, j)
        invariant handed == old(handed) + Handed(t, recs, i)
      {
        var f := Collect(recs, i, prep[i], t);
        if f.None? { break; }
        if f.value.Blocked? {
          failErr := Some(f.value.error);
          break;
        }
        issued := issued + [f.value.pubs];
        handed := handed + f.value.pubs;
      }
      if |issued| == |prep| && |prep| < |recs| { SubmissionEnds(t, recs, |prep|); }
    }

    /** Await record i's outcome and turn it into publications; None when the wait was abandoned. */
    method Collect(recs: seq<Record>, i: nat, p: Prepared, t: Turn) returns (f: Option<Finish>)
      requires i < |recs| && p == t.prepared(i) && Goes(t, i)
      ensures f.Some? && f.value.Issued? <==> Publishes(t, recs, i)
      ensures f.Some? ==> f.value == FinishOf(t, recs, i)
      ensures f.None? <==> p.Submitted? && t.awaited(i).None?
      ensures f.Some? && f.value.Issued? ==> Tells(f.value.pubs, recs[i], p, Answer(t, i), t.panics(i))
      ensures !(f.Some? && f.value.Issued?) ==>
                FailureAt(t, recs, i) == if f.Some? then Some(f.value.error) else None
    {
      hide Tells, FinishRecord;
      var res := Answered([]);
      if p.Submitted? {
        if t.awaited(i).None? { return None; }
        res := t.awaited(i).value;
      }
      var decided := Finish(recs[i], p, res, t.panics(i));
      f := Some(decided);
    }

    /**
     * finish: publications are handed off one after the other, and a panic on
     * the way keeps those that have been.
     */
    method Finish(rec: Record, p: Prepared, res: SubmitResult, panic: Option<nat>) returns (f: Finish)
      ensures f == FinishRecord(rec, p, res, panic)
      ensures f.Issued? <==> HasOutcome(p, res)
      ensures f.Issued? ==> Tells(f.pubs, rec, p, res, panic)
      ensures f.Blocked? ==> f.error == FailureOf(p, res)
    {
      FinishTells(rec, p, res, panic);
      hide Tells;
      var pubs := [PoisonDLQ(rec)];
      match p {
        case Poisoned =>
        case Refused(e) => return Blocked(e);
        case Submitted =>
          match res {
            case TooLarge =>
            case EmptyCommand =>
            case Failed(e) => return Blocked(e);
            case Answered(rejected) =>
              pubs := [Results(rec)];
              for x := 0 to |rejected|
                invariant pubs == [Results(rec)] + Rejects(rec, rejected[..x])
              {
                assert rejected[..x + 1][..x] == rejected[..x];
                if rejected[x] { pubs := pubs + [RejectDLQ(rec, x)]; }
              }
              assert rejected[..|rejected|] == rejected;
          }
      }
      if panic.None? { return Issued(pubs); }
      if panic.value < |pubs| { pubs := pubs[..panic.value]; }
      return Issued(pubs + [PoisonDLQ(rec)]);
    }

    /** The third phase: await acknowledgements in order and mark exactly the acknowledged prefix. */
    method Confirm(recs: seq<Record>, issued: seq<seq<Publication>>, t: Turn) returns (applied: nat, err: Option<int>)
      requires |issued| <= |recs| && PublishedPrefix(t, recs, |issued|)
      requires forall i :: 0 <= i < |issued| ==> FinishOf(t, recs, i) == Issued(issued[i])
      modifies offsets
      ensures applied <= |issued| && ConfirmedPrefix(t, recs, applied)
      ensures offsets.p == DoneAll(old(offsets.p), recs[..applied])
      ensures applied < |issued| ==> err == FailureAt(t, recs, applied)
      ensures applied == |issued| ==> err.None?
    {
      for i := 0 to |issued|
        invariant forall j :: 0 <= j < i ==> Confirms(t, recs, j)
        invariant offsets.p == DoneAll(old(offsets.p), recs[..i])
      {
        var ack := AwaitAll(|issued[i]|, t, i);
        match ack {
          case Acked =>
          case GaveUp => return i, None;
          case Nacked(e) => return i, Some(e);
        }
        offsets.Done(recs[i]);
        assert recs[..i + 1][..i] == recs[..i];
      }
      return |issued|, None;
    }

    /** The inner loop of confirm: the first publication of record i that is not acknowledged decides. */
    method AwaitAll(n: nat, t: Turn, i: nat) returns (ack: Ack)
      ensures ack == FirstBad(t, i, 0, n)
      ensures ack.Acked? <==> forall j :: 0 <= j < n ==> t.ack(i, j).Acked?
    {
      FirstBadAcked(t, i, 0, n);
      for j := 0 to n
        invariant FirstBad(t, i, 0, n) == FirstBad(t, i, j, n)
      {
        if !t.ack(i, j).Acked? { return t.ack(i, j); }
      }
      return Acked;
    }

    /**
     * pass: marks exactly the leading records whose publications were all
     * acknowledged; an error belongs to the first record it did not mark.
     */
    method Pass(all: seq<Record>, t: Turn)
      returns (applied: nat, err: Option<int>, prep: seq<Prepared>, published: nat)
      modifies this`handed, offsets
      ensures ConfirmedPrefix(t, Window(all), applied)
      ensures offsets.p == DoneAll(old(offsets.p), all[..applied])
      ensures err == if applied < |Window(all)| then FailureAt(t, Window(all), applied) else None
      ensures PublishedPrefix(t, Window(all), published) && handed == old(handed) + Handed(t, Window(all), published)
      ensures old(handed) <= handed && TellsEach(handed[|old(handed)|..], t, Window(all), published)
      ensures applied <= published <= |prep| <= |Window(all)|
      ensures forall i :: 0 <= i < |prep| ==> prep[i] == t.prepared(i)
      ensures forall i :: 0 <= i < |prep| - 1 ==> !prep[i].Refused?
    {
      hide TellsEach, Publishes, Confirms, Handed, FailureAt, FinishRecord, Answer, DoneAll;
      var recs := Window(all);
      prep := Prepare(|recs|, t);
      var issued, failErr := Publish(recs, prep, t);
      published := |issued|;
      HandedTells(t, recs, published);
      applied, err := Confirm(recs, issued, t);
      assert recs[..applied] == all[..applied];
      if err.Some? || applied < |issued| { return; }
      err := failErr;
    }

    /** The records one pass may touch. */
    function Window(all: seq<Record>): (recs: seq<Record>)
      ensures recs <= all
    {
      Clip(all, maxInFlight)
    }

    /** One pass over the records that are left, and what it adds to the run. */
    method RunPass(ghost before: Tracker, recs: seq<Record>, done: nat, w: World, attempts: seq<Attempt>)
      returns (applied: nat, err: Option<int>, longer: seq<Attempt>)
      requires RanSoFar(before, offsets.p, attempts, w, recs, maxInFlight, done)
      modifies this`handed, offsets
      ensures applied <= |recs| - done && (err.Some? ==> applied < |recs| - done)
      ensures |longer| == |attempts| + 1 && longer[..|attempts|] == attempts
      ensures RanSoFar(before, offsets.p, longer, w, recs, maxInFlight, done + applied)
      ensures handed == old(handed) + HandedBy(longer[|attempts|], w.turn(|attempts|), recs, maxInFlight)
      ensures longer[|attempts|].applied == applied
      ensures err == PassError(longer[|attempts|], w.turn(|attempts|), recs, maxInFlight)
    {
      hide TellsEach, Chained, Publishes, Handed, FailureAt, DoneAll;
      var prep, published;
      applied, err, prep, published := Pass(recs[done..], w.turn(|attempts|));
      var a := Attempt(done, prep, published, applied);
      longer := attempts + [a];
      RunExtends(before, attempts, w, recs, maxInFlight, done, a);
    }

    /**
     * runPartition: retries from the record it broke on until everything is
     * finished, the budget is spent or the context is cancelled.  It always
     * returns, whatever the environment does.
     */
    method RunPartition(recs: seq<Record>, w: World, b: Budget)
      returns (finished: bool, done: nat, attempts: seq<Attempt>)
      requires b.retryPeriod > 0
      modifies this`handed, offsets
      ensures RanSoFar(old(offsets.p), offsets.p, attempts, w, recs, maxInFlight, done)
      ensures done <= |recs| && (finished <==> done == |recs|)
      ensures EndedDuly(attempts, w, recs, maxInFlight, b, done)
      ensures handed == old(handed) + HandedByAll(attempts, w, recs, maxInFlight)
    {
      hide RanSoFar, HandedBy, HandedByAll, KeptGoing, GivesUp, Clock, AfterPass, PassError;
      NothingTried(w, recs, maxInFlight, handed);
      NothingTriedYet(w, recs, maxInFlight, b);
      RunStarts(offsets.p, w, recs, maxInFlight);
      var rest := recs;
      var now, cancelled, turn := b.start, false, 0;
      done, attempts := 0, [];
      while |rest| > 0
        invariant RanSoFar(old(offsets.p), offsets.p, attempts, w, recs, maxInFlight, done)
        invariant handed == old(handed) + HandedByAll(attempts, w, recs, maxInFlight)
        invariant done <= |recs| && |attempts| == turn && rest == recs[done..]
        invariant KeptGoing(attempts, w, recs, maxInFlight, b) && now == Clock(attempts, w, recs, maxInFlight, b)
        invariant cancelled ==> attempts != []
        invariant rest != [] && attempts != [] ==> cancelled == GivesUp(attempts, w, recs, maxInFlight, b)
        decreases |rest|, if now < b.deadline then b.deadline - now else 0, !cancelled
      {
        cancelled := cancelled || w.cancels(turn, 0);
        if cancelled { return false, done, attempts; }
        now := now + w.delay(turn, 0);
        if !(now < b.deadline) { return false, done, attempts; }
        var applied, err, longer := RunPass(old(offsets.p), recs, done, w, attempts);
        now := now + w.delay(turn, 1);
        cancelled := w.cancels(turn, 1);
        rest := rest[applied..];
        done := done + applied;
        HandedExtends(attempts, w, recs, maxInFlight, longer[turn], old(handed));
        GoesOn(attempts, w, recs, maxInFlight, b, longer[turn]);
        ClockTicks(attempts, w, recs, maxInFlight, b, longer[turn]);
        assert longer == attempts + [longer[turn]];
        attempts := longer;
        assert err.Some? ==> rest != [];
        if err.None? {
          turn := turn + 1;
          if applied > 0 { continue; }
          if !cancelled { return false, done, attempts; }
          continue;
        }
        if cancelled { return false, done, attempts; }
        if !(now + b.retryPeriod < b.deadline) { return false, done, attempts; }
        cancelled := w.cancels(turn, 2);
        if cancelled { return false, done, attempts; }
        now := now + b.retryPeriod + w.delay(turn, 2);
        turn := turn + 1;
      }
      return true, done, attempts;
    }

    /**
     * abandonBatch: rewinds exactly the partitions with an unfinished record,
     * each to its first one, and leaves nothing pending.
     */
    method AbandonBatch() returns (rewound: map<PartitionKey, EpochOffset>)
      modifies offsets
      ensures rewound == PendingMap(old(offsets.p))
      ensures offsets.p == Abandoned(old(offsets.p))
      ensures PendingMap(offsets.p) == map[]
    {
      rewound := offsets.Pending();
      var keys := rewound.Keys;
      while keys != {}
        invariant keys <= rewound.Keys
        invariant offsets.p == map k | k in old(offsets.p) ::
                    if k in rewound && k !in keys then TOMBSTONE else old(offsets.p)[k]
      {
        var k := Next(keys);
        keys := keys - {k};
        offsets.Forget(k);
      }
    }

    /**
     * commit: sends what Commitable hands out, and moves the watermarks only
     * when the flush and every partition of the commit succeeded.
     */
    method Commit(flushed: bool, failed: bool) returns (sent: map<PartitionKey, EpochOffset>)
      modifies offsets
      ensures sent == if flushed then CommitableMap(old(offsets.p)) else map[]
      ensures offsets.p == if flushed && !failed then MarkAll(old(offsets.p), sent) else old(offsets.p)
    {
      sent := map[];
      var commitable := offsets.Commitable();
      if commitable == map[] { return; }
      if !flushed { return; }
      sent := commitable;
      if failed { return; }
      offsets.MarkCommitted(sent);
    }

    /**
     * processBatch: tracks the poll, drives each partition's group on its own,
     * and rewinds what is left unless the context is cancelled.  The next
     * batch then starts with nothing pending, if this one did.
     */
    method ProcessBatch(records: seq<Record>, worlds: nat -> World, starts: nat -> int, deadline: int,
        retryPeriod: int, cancelled: bool)
      returns (runs: seq<GroupRun>, rewound: map<PartitionKey, EpochOffset>)
      requires retryPeriod > 0
      modifies this`handed, offsets
      ensures RunsOf(runs, records) && AllRan(runs, worlds, maxInFlight)
      ensures AllEnded(runs, worlds, starts, deadline, retryPeriod, maxInFlight)
      ensures handed == old(handed) + HandedIn(runs, worlds, maxInFlight)
      ensures var after := DoneAll(TrackRecords(old(offsets.p), records), FinishedIn(runs));
              if !AllFinished(runs) && !cancelled then offsets.p == Abandoned(after) && rewound == PendingMap(after)
              else offsets.p == after && rewound == map[]
      ensures !cancelled && PendingMap(old(offsets.p)) == map[] ==> PendingMap(offsets.p) == map[]
    {
      hide RunsOf, RanSoFar, GroupRan, HandedByAll, PendingMap, Abandoned, IsGroup, KeyOf, InSomeGroup;
      hide AllRan, AllEnded, EndedDuly, AllFinished, FinishedIn, HandedIn, DoneAll, TrackRecords;
      TrackBatch(records);
      ghost var tracked := offsets.p;
      BatchStarts(tracked, handed, worlds, maxInFlight);
      NoneEnded(worlds, starts, deadline, retryPeriod, maxInFlight);
      var groups := GroupByPartition(records);
      var abandoned := false;
      runs := [];
      rewound := map[];
      for g := 0 to |groups|
        invariant |runs| == g && forall i :: 0 <= i < g ==> runs[i].recs == groups[i]
        invariant AllRan(runs, worlds, maxInFlight) && abandoned == !AllFinished(runs)
        invariant AllEnded(runs, worlds, starts, deadline, retryPeriod, maxInFlight)
        invariant handed == old(handed) + HandedIn(runs, worlds, maxInFlight)
        invariant offsets.p == DoneAll(tracked, FinishedIn(runs))
      {
        ghost var before := offsets.p;
        var b := Budget(starts(g), deadline, retryPeriod);
        var finished, done, attempts := RunPartition(groups[g], worlds(g), b);
        RanGroup(before, offsets.p, groups[g], worlds(g), maxInFlight, done, attempts);
        OneMoreEnded(runs, GroupRun(groups[g], done, attempts), worlds, starts, deadline, retryPeriod, maxInFlight);
        OneMoreRun(tracked, old(handed), runs, GroupRun(groups[g], done, attempts), worlds, maxInFlight);
        runs := runs + [GroupRun(groups[g], done, attempts)];
        abandoned := abandoned || !finished;
      }
      GroupsRan(groups, runs, records);
      if abandoned && !cancelled {
        rewound := AbandonBatch();
      } else if !abandoned && PendingMap(old(offsets.p)) == map[] {
        NothingLeft(old(offsets.p), records, runs);
      }
    }

    /** The first loop of processBatch. */
    method TrackBatch(records: seq<Record>)
      modifies offsets
      ensures offsets.p == TrackRecords(old(offsets.p), records)
    {
      for i := 0 to |records|
        invariant offsets.p == TrackRecords(old(offsets.p), records[..i])
      {
        offsets.Track(records[i]);
        assert records[..i + 1][..i] == records[..i];
      }
      assert records[..|records|] == records;
    }
  }

  lemma {:induction false} BatchStarts(t: Tracker, handed: seq<Publication>, worlds: nat -> World, limit: nat)
    ensures AllRan([], worlds, limit) && AllFinished([])
    ensures handed == handed + HandedIn([], worlds, limit) && t == DoneAll(t, FinishedIn([]))
  {
  }

  lemma {:induction false} NoneEnded(worlds: nat -> World, starts: nat -> int, deadline: int, retryPeriod: int,
      limit: nat)
    ensures AllEnded([], worlds, starts, deadline, retryPeriod, limit)
  {
  }

  lemma {:induction false} OneMoreEnded(runs: seq<GroupRun>, run: GroupRun, worlds: nat -> World, starts: nat -> int,
      deadline: int, retryPeriod: int, limit: nat)
    requires AllEnded(runs, worlds, starts, deadline, retryPeriod, limit)
    requires var g := |runs|;
             EndedDuly(run.attempts, worlds(g), run.recs, limit, Budget(starts(g), deadline, retryPeriod), run.done)
    ensures AllEnded(runs + [run], worlds, starts, deadline, retryPeriod, limit)
  {
    hide EndedDuly;
  }

  lemma {:induction false} OneMoreRun(t: Tracker, handed: seq<Publication>, runs: seq<GroupRun>, run: GroupRun,
      worlds: nat -> World, limit: nat)
    requires AllRan(runs, worlds, limit) && GroupRan(run, worlds(|runs|), limit)
    ensures AllRan(runs + [run], worlds, limit)
    ensures AllFinished(runs + [run]) == (AllFinished(runs) && run.done == |run.recs|)
    ensures DoneAll(t, FinishedIn(runs + [run])) == DoneAll(DoneAll(t, FinishedIn(runs)), run.recs[..run.done])
    ensures handed + HandedIn(runs + [run], worlds, limit) ==
            handed + HandedIn(runs, worlds, limit) + HandedByAll(run.attempts, worlds(|runs|), run.recs, limit)
  {
    hide DoneAll, HandedByAll, GroupRan;
    assert (runs + [run])[..|runs|] == runs;
    assert run.done <= |run.recs| by { RunInRange(run, worlds(|runs|), limit); }
    assert Clip(run.recs, run.done) == run.recs[..run.done];
    DoneAllConcat(t, FinishedIn(runs), run.recs[..run.done]);
  }

  lemma {:induction false} RanGroup(before: Tracker, now: Tracker, recs: seq<Record>, w: World, limit: nat, done: nat,
      attempts: seq<Attempt>)
    requires RanSoFar(before, now, attempts, w, recs, limit, done)
    ensures GroupRan(GroupRun(recs, done, attempts), w, limit) && now == DoneAll(before, recs[..done])
  {
  }

  lemma {:induction false} RunInRange(run: GroupRun, w: World, limit: nat)
    requires GroupRan(run, w, limit)
    ensures run.done <= |run.recs|
  {
  }

  lemma {:induction false} GroupsRan(groups: seq<seq<Record>>, runs: seq<GroupRun>, records: seq<Record>)
    requires |runs| == |groups| && forall g :: 0 <= g < |groups| ==> runs[g].recs == groups[g]
    requires forall g :: 0 <= g < |groups| ==> IsGroup(groups[g], records)
    requires forall g, h :: 0 <= g < h < |groups| ==> KeyOf(groups[g]) != KeyOf(groups[h])
    requires forall i :: 0 <= i < |records| ==> InSomeGroup(groups, records[i])
    ensures RunsOf(runs, records)
  {
    hide IsGroup, KeyOf;
    forall i | 0 <= i < |records| ensures InSomeRun(runs, records[i]) {
      assert InSomeGroup(groups, records[i]);
      var g :| 0 <= g < |groups| && records[i] in groups[g];
      assert records[i] in runs[g].recs;
    }
  }
}
