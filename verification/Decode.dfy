/**
 * From a parsed message to a command (internal/codec/jsonc/decoder.go: Decode,
 * decodeTransfers, decodeAccounts, clearLinked).
 *
 * Converting one event -- identifiers, ledgers, codes, amounts, flags -- is
 * given: an event either comes out converted or is refused. What is modelled
 * is what becomes of the message.
 */
module Decode {
  import opened Send

  datatype Item = Item(id: string, converted: Converted)
  datatype Converted = Fine(e: Event) | Bad

  datatype Operation = Known(op: Op) | Unknown

  datatype Message = Message(operation: Operation, transfers: seq<Item>, accounts: seq<Item>)

  datatype Reason = UnknownOperation | Mixed | Empty | TooMany | BadEvent(index: nat)

  datatype Decoded = Decoded(cmd: Command) | Poison(reason: Reason)

  predicate AllFine(items: seq<Item>)
  {
    forall i :: 0 <= i < |items| ==> items[i].converted.Fine?
  }

  /**
   * The command carries the items: each one's id and event at its own place,
   * and nothing changed but that the last event is not linked.
   */
  predicate Carries(cmd: Command, op: Op, items: seq<Item>)
  {
    && cmd.op == op && |cmd.ids| == |cmd.events| == |items|
    && (forall i :: 0 <= i < |items| ==> cmd.ids[i] == items[i].id && items[i].converted.Fine?)
    && (forall i :: 0 <= i < |items| - 1 ==> cmd.events[i] == items[i].converted.e)
    && (items != [] ==> IsClosed(cmd.events[|items| - 1], items[|items| - 1].converted.e))
  }

  predicate IsClosed(closed: Event, e: Event)
  {
    closed.body == e.body && !Linked(closed) && closed.flags / 2 == e.flags / 2
  }

  /** clearLinked: through a pointer, the last event's flag only. */
  method ClearLinked(events: array<Event>, i: nat)
    requires i < events.Length
    modifies events
    ensures events[..] == old(events[..])[i := Unlink(old(events[i]))]
  {
    events[i] := Unlink(events[i]);
  }

  /** decodeTransfers and decodeAccounts. */
  method DecodeEvents(op: Op, items: seq<Item>, maxEvents: nat) returns (r: Decoded)
    ensures r.Decoded? <==> 0 < |items| <= maxEvents && AllFine(items)
    ensures r.Decoded? ==> Carries(r.cmd, op, items)
    ensures r == Poison(Empty) <==> items == []
    ensures r == Poison(TooMany) <==> |items| > maxEvents && items != []
    ensures r.Poison? && r.reason.BadEvent? ==>
              r.reason.index < |items| && items[r.reason.index].converted.Bad? && AllFine(items[..r.reason.index])
    ensures r.Poison? ==> r.reason != UnknownOperation && r.reason != Mixed
  {
    hide AllFine, Carries, Filled, Unlink;
    if |items| == 0 { return Poison(Empty); }
    if |items| > maxEvents { return Poison(TooMany); }
    var events := new Event[|items|](_ => Event(0, 0));
    var ids := new string[|items|](_ => "");
    var bad := Convert(items, events, ids);
    if bad < |items| {
      OneBad(items, bad);
      return Poison(BadEvent(bad));
    }
    assert items[..bad] == items;
    ghost var converted := events[..];
    ClearLinked(events, |items| - 1);
    ClearedCarries(op, items, converted, events[..], ids[..]);
    return Decoded(Command(op, events[..], ids[..]));
  }

  lemma {:induction false} OneBad(items: seq<Item>, i: nat)
    requires i < |items| && items[i].converted.Bad?
    ensures !AllFine(items)
  {
  }

  lemma {:induction false} ClearedCarries(op: Op, items: seq<Item>, converted: seq<Event>, events: seq<Event>,
      ids: seq<string>)
    requires |converted| == |ids| == |items| > 0 && Filled(items, converted, ids)
    requires events == converted[|items| - 1 := Unlink(converted[|items| - 1])]
    ensures Carries(Command(op, events, ids), op, items)
  {
    hide Unlink;
  }

  /** The items' events and ids, each at its own place. */
  predicate Filled(items: seq<Item>, events: seq<Event>, ids: seq<string>)
  {
    && |items| <= |events| && |items| <= |ids|
    && forall i :: 0 <= i < |items| ==>
         ids[i] == items[i].id && items[i].converted.Fine? && events[i] == items[i].converted.e
  }

  /** The conversion loop: fills both slices in place, up to the first event that is refused. */
  method Convert(items: seq<Item>, events: array<Event>, ids: array<string>) returns (bad: nat)
    requires events.Length == ids.Length == |items|
    modifies events, ids
    ensures bad <= |items| && AllFine(items[..bad]) && (bad < |items| ==> items[bad].converted.Bad?)
    ensures bad == |items| ==> AllFine(items)
    ensures Filled(items[..bad], events[..], ids[..])
  {
    for i := 0 to |items|
      invariant AllFine(items[..i])
      invariant forall j :: 0 <= j < i ==> items[j].converted.Fine? && events[j] == items[j].converted.e
      invariant forall j :: 0 <= j < i ==> ids[j] == items[j].id
    {
      if items[i].converted.Bad? { return i; }
      events[i] := items[i].converted.e;
      ids[i] := items[i].id;
    }
    assert items[..|items|] == items;
    return |items|;
  }

  lemma {:induction false} CarriedIsClosed(cmd: Command, op: Op, items: seq<Item>)
    requires Carries(cmd, op, items) && items != []
    ensures CloseChain(cmd.events) == cmd.events
  {
    var last := cmd.events[|items| - 1];
    assert Unlink(last) == last;
  }

  /** Decode, once the text has been parsed: one operation, and only its own events. */
  method DecodeMessage(m: Message, maxEvents: nat) returns (r: Decoded)
    ensures r.Decoded? <==>
              m.operation.Known? && 0 < |Own(m)| <= maxEvents && AllFine(Own(m)) && Other(m) == []
    ensures r.Decoded? ==> Carries(r.cmd, m.operation.op, Own(m))
    ensures r == Poison(UnknownOperation) <==> m.operation.Unknown?
    ensures r == Poison(Mixed) <==> m.operation.Known? && Other(m) != []
    ensures r == Poison(Empty) <==> m.operation.Known? && Other(m) == [] && Own(m) == []
    ensures r == Poison(TooMany) <==> m.operation.Known? && Other(m) == [] && Own(m) != [] && |Own(m)| > maxEvents
    ensures r.Poison? && r.reason.BadEvent? ==>
              r.reason.index < |Own(m)| && Own(m)[r.reason.index].converted.Bad? && AllFine(Own(m)[..r.reason.index])
  {
    match m.operation {
      case Unknown => return Poison(UnknownOperation);
      case Known(CreateTransfers) =>
        if |m.accounts| > 0 { return Poison(Mixed); }
        r := DecodeEvents(CreateTransfers, m.transfers, maxEvents);
      case Known(CreateAccounts) =>
        if |m.transfers| > 0 { return Poison(Mixed); }
        r := DecodeEvents(CreateAccounts, m.accounts, maxEvents);
    }
  }

  /** The events of the operation named, and those of the other one. */
  function Own(m: Message): seq<Item>
  {
    if m.operation == Known(CreateAccounts) then m.accounts else m.transfers
  }

  function Other(m: Message): seq<Item>
  {
    if m.operation == Known(CreateAccounts) then m.transfers else m.accounts
  }

  /**
   * What is decoded is sent as it is: under limits that configuration admits
   * the batcher refuses no decoded command for its size, and sending a decoded
   * command, in whatever batch, changes none of its events and cuts none of
   * its chains.
   */
  method DecodeForBatcher(m: Message, maxEvents: nat, maxBatchSize: nat) returns (r: Decoded)
    requires maxEvents <= maxBatchSize
    ensures r.Decoded? ==> Submittable(r.cmd, maxBatchSize)
    ensures r.Decoded? ==>
              forall jobs: seq<Job>, i :: 0 <= i < |jobs| && jobs[i].cmd == r.cmd ==>
                var at := TotalEvents(jobs[..i]);
                at + |r.cmd.events| <= |Flatten(jobs)| && Flatten(jobs)[at..at + |r.cmd.events|] == r.cmd.events
  {
    hide Flatten, TotalEvents;
    r := DecodeMessage(m, maxEvents);
    if r.Decoded? {
      CarriedIsClosed(r.cmd, m.operation.op, Own(m));
      hide CloseChain, Carries, AllFine;
      forall jobs: seq<Job>, i | 0 <= i < |jobs| && jobs[i].cmd == r.cmd
        ensures TotalEvents(jobs[..i]) + |r.cmd.events| <= |Flatten(jobs)|
        ensures Flatten(jobs)[TotalEvents(jobs[..i])..TotalEvents(jobs[..i]) + |r.cmd.events|] == r.cmd.events
      {
        EventsDependOnCommandOnly(jobs, i);
      }
    }
  }
}
