/**
 The gossip backlog: which records ride on the next message
 (membership/state.py, _enqueue_backlog, _gc_backlog, _select_outgoing_deltas).
 */
module Backlog {
  import opened Common
  import opened Records

  /** `priority` counts how often the entry was gossiped; `number` is the insertion counter. */
  datatype Entry = Entry(record: MemberRecord, priority: nat, enqueuedAt: real, number: nat)

  predicate Before(a: Entry, b: Entry) {
    a.priority < b.priority || (a.priority == b.priority && a.number <= b.number)
  }

  function Insert(e: Entry, sorted: seq<Entry>): seq<Entry> {
    if sorted == [] || Before(e, sorted[0]) then [e] + sorted
    else [sorted[0]] + Insert(e, sorted[1..])
  }

  /** The list sorted by (priority, insertion number). */
  function Sorted(b: seq<Entry>): seq<Entry> {
    if b == [] then [] else Insert(b[0], Sorted(b[1..]))
  }

  function Without(b: seq<Entry>, id: ShardId): seq<Entry> {
    if b == [] then []
    else if b[0].record.shardId == id then Without(b[1..], id)
    else [b[0]] + Without(b[1..], id)
  }

  function Fresh(b: seq<Entry>, now: real, cutoff: real): seq<Entry> {
    if b == [] then []
    else if now - b[0].enqueuedAt <= cutoff then [b[0]] + Fresh(b[1..], now, cutoff)
    else Fresh(b[1..], now, cutoff)
  }

  function Bump(b: seq<Entry>, k: nat): (r: seq<Entry>)
    ensures |r| == |b|
    ensures forall i :: 0 <= i < |b| ==> r[i] == if i < k then b[i].(priority := b[i].priority + 1) else b[i]
  {
    seq(|b|, i requires 0 <= i < |b| => if i < k then b[i].(priority := b[i].priority + 1) else b[i])
  }

  /** The entries one message picks, and the backlog it leaves behind. */
  function Picked(b: seq<Entry>, k: nat): seq<Entry> {
    Sorted(b)[..Min(k, |Sorted(b)|)]
  }

  function AfterPick(b: seq<Entry>, k: nat): seq<Entry> {
    Bump(Sorted(b), k)
  }

  function RecordsOf(b: seq<Entry>): (r: seq<MemberRecord>)
    ensures |r| == |b|
    ensures forall i :: 0 <= i < |b| ==> r[i] == b[i].record
  {
    seq(|b|, i requires 0 <= i < |b| => b[i].record)
  }
}
