/**
 * The offset tracker (internal/sink/offsets.go): which records of a partition
 * are in progress, which are finished, and how far the partition may be
 * committed.
 *
 * The tracker's meaning is given by functions on `Tracker` values; class
 * `Offsets` is the mutable object whose methods are proved against them.  The
 * two-level maps keyed by topic and then partition are one map here, keyed by
 * the pair.
 */
module OffsetTracker {
  import opened Extremes
  import opened Options

  datatype PartitionKey = PartitionKey(topic: string, partition: int)
  datatype Record = Record(key: PartitionKey, offset: nat, epoch: int)
  datatype EpochOffset = EpochOffset(epoch: int, offset: int)
  /** `pending` and `done` map an offset to the leader epoch of its record. */
  datatype PartitionState = PartitionState(
    pending: map<int, int>, done: map<int, int>,
    committed: int, lowest: int, highest: int, forgotten: bool)

  type Tracker = map<PartitionKey, PartitionState>

  const FRESH: PartitionState := PartitionState(map[], map[], -1, -1, 0, false)
  const TOMBSTONE: PartitionState := PartitionState(map[], map[], 0, 0, 0, true)

  /******* Least and greatest offset *******/

  method MinOffset(m: map<int, int>) returns (min: int)
    ensures m == map[] ==> min == 0
    ensures m != map[] ==> min == Least(m.Keys)
  {
    var keys := m.Keys;
    var first := true;
    min := 0;
    while keys != {}
      invariant keys <= m.Keys
      invariant first ==> keys == m.Keys && min == 0
      invariant !first ==> IsLeast(min, m.Keys - keys)
    {
      var off := Next(keys);
      ghost var seen := m.Keys - keys;
      if first || off < min { min, first := off, false; }
      keys := keys - {off};
      assert m.Keys - keys == seen + {off};
    }
    assert m.Keys - {} == m.Keys;
    assert m == map[] <==> m.Keys == {};
  }

  method MaxOffset(m: map<int, int>) returns (max: int)
    ensures m == map[] ==> max == 0
    ensures m != map[] ==> max == Greatest(m.Keys)
  {
    var keys := m.Keys;
    var first := true;
    max := 0;
    while keys != {}
      invariant keys <= m.Keys
      invariant first ==> keys == m.Keys && max == 0
      invariant !first ==> IsGreatest(max, m.Keys - keys)
    {
      var off := Next(keys);
      ghost var seen := m.Keys - keys;
      if first || off > max { max, first := off, false; }
      keys := keys - {off};
      assert m.Keys - keys == seen + {off};
    }
    assert m.Keys - {} == m.Keys;
    assert m == map[] <==> m.Keys == {};
  }

  /******* The operations, on values *******/

  function Live(t: Tracker, k: PartitionKey): PartitionState
  {
    if k in t && !t[k].forgotten then t[k] else FRESH
  }

  function TrackState(st: PartitionState, offset: nat, epoch: int): PartitionState
  {
    st.(pending := st.pending[offset := epoch],
        highest := if offset > st.highest then offset else st.highest,
        lowest := if st.lowest < 0 || offset < st.lowest then offset else st.lowest)
  }

  function TrackRecord(t: Tracker, rec: Record): Tracker
  {
    t[rec.key := TrackState(Live(t, rec.key), rec.offset, rec.epoch)]
  }

  function DoneState(st: PartitionState, offset: int, epoch: int): PartitionState
  {
    if offset !in st.pending then st
    else st.(pending := st.pending - {offset}, done := st.done[offset := epoch])
  }

  function DoneRecord(t: Tracker, rec: Record): Tracker
  {
    if rec.key !in t || t[rec.key].forgotten then t
    else t[rec.key := DoneState(t[rec.key], rec.offset, rec.epoch)]
  }

  /** How far a partition may be committed: nothing below is unfinished. */
  ghost function CommitableState(st: PartitionState): Option<EpochOffset>
  {
    if st.pending.Keys == {} && st.done.Keys == {} then None
    else
      var watermark := if st.pending.Keys != {} then Least(st.pending.Keys) else Greatest(st.done.Keys) + 1;
      if watermark <= st.committed || watermark - 1 !in st.done then None
      else Some(EpochOffset(st.done[watermark - 1], watermark))
  }

  ghost function CommitableMap(t: Tracker): map<PartitionKey, EpochOffset>
  {
    map k | k in t && CommitableState(t[k]).Some? :: CommitableState(t[k]).value
  }

  /** Where a partition with unfinished records has to be read again from. */
  ghost function PendingState(st: PartitionState): Option<EpochOffset>
  {
    if st.forgotten || st.pending.Keys == {} then None
    else
      var offset := Least(st.pending.Keys);
      Some(EpochOffset(if offset - 1 in st.done then st.done[offset - 1] else -1, offset))
  }

  ghost function PendingMap(t: Tracker): map<PartitionKey, EpochOffset>
  {
    map k | k in t && PendingState(t[k]).Some? :: PendingState(t[k]).value
  }

  function Prune(done: map<int, int>, watermark: int): map<int, int>
  {
    map o | o in done && o >= watermark :: done[o]
  }

  function MarkState(st: PartitionState, offset: int): PartitionState
  {
    if st.forgotten then st else st.(committed := offset, done := Prune(st.done, offset))
  }

  function MarkAll(t: Tracker, committed: map<PartitionKey, EpochOffset>): Tracker
  {
    map k | k in t :: if k in committed then MarkState(t[k], committed[k].offset) else t[k]
  }

  function ForgetPartition(t: Tracker, k: PartitionKey): Tracker { t[k := TOMBSTONE] }

  /** The epoch of an offset is that of the record before it, as long as that record is still known to be finished. */
  predicate EpochBefore(eo: EpochOffset, st: PartitionState)
  {
    eo.epoch == if eo.offset - 1 in st.done then st.done[eo.offset - 1] else -1
  }

  /** w is where the partition's finished prefix ends: at its first unfinished record, or behind its last one. */
  ghost predicate PrefixEnds(st: PartitionState, w: int)
  {
    if st.pending.Keys != {} then IsLeast(w, st.pending.Keys)
    else st.done.Keys != {} && IsGreatest(w - 1, st.done.Keys)
  }

  ghost predicate IsDue(st: PartitionState, w: int)
  {
    PrefixEnds(st, w) && st.committed < w && w - 1 in st.done
  }

  /** What Pending says: where each live partition with unfinished records has to be read again from. */
  ghost predicate SaysPending(out: map<PartitionKey, EpochOffset>, t: Tracker)
  {
    && (forall k :: k in out <==> k in t && !t[k].forgotten && t[k].pending.Keys != {})
    && (forall k :: k in out ==> IsLeast(out[k].offset, t[k].pending.Keys) && EpochBefore(out[k], t[k]))
  }

  /** What Commitable says: the end of each finished prefix that is new and whose last record is known. */
  ghost predicate SaysCommitable(out: map<PartitionKey, EpochOffset>, t: Tracker)
  {
    && (forall k :: k in out ==> k in t && IsDue(t[k], out[k].offset) && EpochBefore(out[k], t[k]))
    && (forall k, w :: k in t && IsDue(t[k], w) ==> k in out)
  }

  lemma {:induction false} PendingSays(t: Tracker)
    ensures SaysPending(PendingMap(t), t)
  {
  }

  lemma {:induction false} CommitableSays(t: Tracker)
    ensures SaysCommitable(CommitableMap(t), t)
  {
    forall k, w | k in t && IsDue(t[k], w) ensures k in CommitableMap(t) {
      assert CommitableState(t[k]).Some?;
    }
  }

  /** A tombstone and a missing entry behave alike under every operation, and answer alike. */
  lemma {:induction false} TombstoneIsMissing(t: Tracker, k: PartitionKey, rec: Record,
      committed: map<PartitionKey, EpochOffset>)
    requires k !in t
    ensures var f := ForgetPartition(t, k);
            && TrackRecord(f, rec) ==
               (if rec.key == k then TrackRecord(t, rec) else ForgetPartition(TrackRecord(t, rec), k))
            && DoneRecord(f, rec) == ForgetPartition(DoneRecord(t, rec), k)
            && MarkAll(f, committed) == ForgetPartition(MarkAll(t, committed), k)
            && CommitableMap(f) == CommitableMap(t) && PendingMap(f) == PendingMap(t)
  {
    hide MarkAll, CommitableMap, PendingMap;
    TombstoneSaysNothing(t, k);
    TombstoneStays(t, k, committed);
    assert t[k := TOMBSTONE][rec.key := TrackState(Live(t, rec.key), rec.offset, rec.epoch)] ==
           (if rec.key == k then TrackRecord(t, rec) else ForgetPartition(TrackRecord(t, rec), k));
  }

  lemma {:induction false} TombstoneStays(t: Tracker, k: PartitionKey, committed: map<PartitionKey, EpochOffset>)
    requires k !in t
    ensures MarkAll(ForgetPartition(t, k), committed) == ForgetPartition(MarkAll(t, committed), k)
  {
    hide Prune;
  }

  lemma {:induction false} TombstoneSaysNothing(t: Tracker, k: PartitionKey)
    requires k !in t
    ensures CommitableMap(ForgetPartition(t, k)) == CommitableMap(t)
    ensures PendingMap(ForgetPartition(t, k)) == PendingMap(t)
  {
    assert CommitableState(TOMBSTONE).None? && PendingState(TOMBSTONE).None?;
    hide CommitableState, PendingState;
  }

  /******* The object *******/

  class Offsets {
    var p: Tracker

    constructor ()
      ensures p == map[]
    {
      p := map[];
    }

    method Track(rec: Record)
      modifies this
      ensures p == TrackRecord(old(p), rec)
    {
      var k := rec.key;
      var st := if k !in p || p[k].forgotten then FRESH else p[k];
      st := st.(pending := st.pending[rec.offset := rec.epoch]);
      if rec.offset > st.highest { st := st.(highest := rec.offset); }
      if st.lowest < 0 || rec.offset < st.lowest { st := st.(lowest := rec.offset); }
      p := p[k := st];
    }

    method Done(rec: Record)
      modifies this
      ensures p == DoneRecord(old(p), rec)
    {
      if rec.key !in p || p[rec.key].forgotten { return; }
      var st := p[rec.key];
      if rec.offset !in st.pending {
        assert p[rec.key := st] == p;
        return;
      }
      st := st.(pending := st.pending - {rec.offset as int});
      st := st.(done := st.done[rec.offset := rec.epoch]);
      p := p[rec.key := st];
    }

    method Commitable() returns (out: map<PartitionKey, EpochOffset>)
      ensures out == CommitableMap(p)
      ensures SaysCommitable(out, p)
    {
      hide SaysCommitable, CommitableState;
      CommitableSays(p);
      out := map[];
      var keys := p.Keys;
      while keys != {}
        invariant keys <= p.Keys
        invariant out == map k | k in p && k !in keys && CommitableState(p[k]).Some? :: CommitableState(p[k]).value
      {
        var k := Next(keys);
        keys := keys - {k};
        var eo := CommitableOf(p[k]);
        if eo.Some? { out := out[k := eo.value]; }
      }
    }

    /** One partition's turn of Commitable. */
    method CommitableOf(st: PartitionState) returns (eo: Option<EpochOffset>)
      ensures eo == CommitableState(st)
    {
      var watermark;
      if st.pending != map[] {
        assert st.pending.Keys != {};
        watermark := MinOffset(st.pending);
      } else if st.done != map[] {
        assert st.done.Keys != {};
        watermark := MaxOffset(st.done);
        watermark := watermark + 1;
      } else {
        return None;
      }
      if watermark <= st.committed { return None; }
      if watermark - 1 !in st.done { return None; }
      return Some(EpochOffset(st.done[watermark - 1], watermark));
    }

    method Pending() returns (out: map<PartitionKey, EpochOffset>)
      ensures out == PendingMap(p)
      ensures SaysPending(out, p)
    {
      hide SaysPending, EpochBefore;
      PendingSays(p);
      out := map[];
      var keys := p.Keys;
      while keys != {}
        invariant keys <= p.Keys
        invariant out == map k | k in p && k !in keys && PendingState(p[k]).Some? :: PendingState(p[k]).value
      {
        var k := Next(keys);
        keys := keys - {k};
        var st := p[k];
        if st.forgotten || |st.pending| == 0 { continue; }
        assert st.pending.Keys != {};
        var offset := MinOffset(st.pending);
        var epoch := if offset - 1 in st.done then st.done[offset - 1] else -1;
        out := out[k := EpochOffset(epoch, offset)];
      }
    }

    method MarkCommitted(committed: map<PartitionKey, EpochOffset>)
      modifies this
      ensures p == MarkAll(old(p), committed)
    {
      var keys := committed.Keys;
      while keys != {}
        invariant keys <= committed.Keys
        invariant p == MarkAll(old(p), map k | k in committed && k !in keys :: committed[k])
      {
        var k := Next(keys);
        keys := keys - {k};
        if k !in p || p[k].forgotten { continue; }
        var st := p[k].(committed := committed[k].offset);
        st := st.(done := map o | o in st.done && !(o < st.committed) :: st.done[o]);
        assert st.done == Prune(p[k].done, committed[k].offset);
        p := p[k := st];
      }
      assert committed == map k | k in committed && k !in {} :: committed[k];
    }

    method Forget(k: PartitionKey)
      modifies this
      ensures p == ForgetPartition(old(p), k)
    {
      p := p[k := TOMBSTONE];
    }
  }
}
