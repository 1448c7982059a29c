/**
 What a call keeps of the two queues of a node. A tick drops exactly the
 help requests that timed out and the gossip entries past the cutoff; any call
 queues every record it changed and loses no other entry before its time.
 */
module SwimHousekeeping {
  import opened Common
  import opened Records
  import opened Backlog
  import opened BacklogLemmas
  import opened Swim
  import opened SwimInvariants

  // ------------------------------------------------------------------ helps

  predicate StillWaiting(h: Help, n: Node, now: real) { now < h.sentAt + n.cfg.Timeout() }

  ghost predicate HelpsDue(c: Conf, n: Node, now: real) {
    c.node.cfg == n.cfg && forall h :: h in c.node.helps <==> h in n.helps && StillWaiting(h, n, now)
  }

  lemma {:induction false} FlushDropsDue(c: Conf, i: nat, ev: Event)
    requires ev.Tick? && i <= |c.node.helps|
    requires forall j :: 0 <= j < i ==> StillWaiting(c.node.helps[j], c.node, ev.now)
    ensures HelpsDue(FlushHelps(c, i, false, ev), c.node, ev.now)
    decreases |c.node.helps| - i
  {
    if i < |c.node.helps| {
      var hs := c.node.helps;
      if Sendable(c.node, ReplyHelp(i, false), ev) {
        FlushDropsDue(DoSend(c, ReplyHelp(i, false), ev), i, ev);
        assert hs == hs[..i] + [hs[i]] + hs[i + 1..];
      } else {
        FlushDropsDue(c, i + 1, ev);
      }
    }
  }

  lemma HelpsDueStable(n: Node, ev: Event)
    requires ev.Tick?
    ensures Closed((c: Conf) => HelpsDue(c, n, ev.now), ev)
  {
    var P := (c: Conf) => HelpsDue(c, n, ev.now);
    forall c, m | P(c) && Can(c, m, ev) ensures P(Do(c, m, ev)) {
      assert forall i :: 0 <= i < |c.node.helps| ==> StillWaiting(c.node.helps[i], n, ev.now);
    }
  }

  /** After a tick a help request is pending exactly when it was before and has not timed out. */
  lemma TickHelps(n: Node, ev: Event)
    requires ev.Tick?
    ensures forall h :: h in Step(n, ev).node.helps <==> h in n.helps && ev.now < h.sentAt + n.cfg.Timeout()
  {
    var P := (c: Conf) => HelpsDue(c, n, ev.now);
    HelpsDueStable(n, ev);
    var c1 := Do(Conf(n, []), Book(Collect), ev);
    FlushDropsDue(c1, 0, ev);
    var c2 := FlushHelps(c1, 0, false, ev);
    PromoteDeadInduction(P, c2, c2.node.order, ev);
    var c3 := PromoteDead(c2, c2.node.order, ev);
    if ev.now >= c3.node.nextPeriodAt { StartPeriodInduction(P, c3, ev); }
    EscalateInduction(P, if ev.now >= c3.node.nextPeriodAt then StartPeriod(c3, ev) else c3, ev);
    assert P(Step(n, ev));
    forall h ensures h in Step(n, ev).node.helps <==> h in n.helps && ev.now < h.sentAt + n.cfg.Timeout() {
      assert h in Step(n, ev).node.helps <==> h in n.helps && StillWaiting(h, n, ev.now);
    }
  }

  // ---------------------------------------------------------------- backlog

  predicate Recent(e: Entry, n: Node, now: real) { now - e.enqueuedAt <= n.cfg.GcCutoff() }

  /** The record waits in the backlog, within the cutoff. */
  ghost predicate Queued(b: seq<Entry>, rec: MemberRecord, n: Node, now: real) {
    exists e :: e in b && e.record == rec && Recent(e, n, now)
  }

  ghost predicate HasRecent(n: Node, id: ShardId, now: real) {
    exists e :: e in n.backlog && e.record.shardId == id && Recent(e, n, now)
  }

  predicate Changed(n: Node, n': Node, id: ShardId) {
    id in n'.members && (id !in n.members || n'.members[id] != n.members[id])
  }

  /** What is to be told: a changed record, and one that was already waiting within the cutoff. */
  ghost predicate Pressing(n: Node, n': Node, id: ShardId, now: real) {
    id in n'.members && (Changed(n, n', id) || HasRecent(n, id, now))
  }

  ghost predicate QueuedAt(c: Conf, n: Node, id: ShardId, now: real) {
    Pressing(n, c.node, id, now) ==> Queued(c.node.backlog, c.node.members[id], n, now)
  }

  ghost predicate AllQueued(c: Conf, n: Node, now: real, start: map<ShardId, MemberRecord>) {
    Inv(c.node, start) && c.node.cfg == n.cfg && forall id :: QueuedAt(c, n, id, now)
  }

  lemma PickKeepsQueued(b: seq<Entry>, k: nat, rec: MemberRecord, n: Node, now: real)
    requires Queued(b, rec, n, now)
    ensures Queued(AfterPick(b, k), rec, n, now)
  {
    var e :| e in b && e.record == rec && Recent(e, n, now);
    SortedMembership(b, e);
    var i :| 0 <= i < |Sorted(b)| && Sorted(b)[i] == e;
    assert AfterPick(b, k)[i] in AfterPick(b, k) && Recent(AfterPick(b, k)[i], n, now);
  }

  lemma CollectKeepsQueued(b: seq<Entry>, rec: MemberRecord, n: Node, now: real)
    requires Queued(b, rec, n, now)
    ensures Queued(Fresh(b, now, n.cfg.GcCutoff()), rec, n, now)
  {
    var e :| e in b && e.record == rec && Recent(e, n, now);
    FreshSpec(b, now, n.cfg.GcCutoff(), e);
  }

  lemma InstallQueues(m: Node, id: ShardId, rec: MemberRecord, n: Node, now: real)
    ensures Queued(Install(m, id, rec, now).backlog, rec, n, now)
  {
    var e := Entry(rec, 0, now, m.backlogCounter);
    assert e in Install(m, id, rec, now).backlog && Recent(e, n, now);
  }

  lemma InstallKeepsQueued(m: Node, id: ShardId, rec: MemberRecord, other: MemberRecord, n: Node, now: real)
    requires Queued(m.backlog, other, n, now) && other.shardId != id
    ensures Queued(Install(m, id, rec, now).backlog, other, n, now)
  {
    var e :| e in m.backlog && e.record == other && Recent(e, n, now);
    WithoutSpec(m.backlog, id, e);
    assert e in Install(m, id, rec, now).backlog;
  }

  lemma WriteQueues(c: Conf, ch: Change, ev: Event, n: Node, id: ShardId, start: map<ShardId, MemberRecord>)
    requires AllQueued(c, n, ev.now, start) && Enabled(c.node, ch, ev)
    ensures QueuedAt(c.(node := DoWrite(c.node, ch, ev)), n, id, ev.now)
  {
    var rec := Written(c.node, ch, ev);
    if id == Subject(ch) {
      InstallQueues(c.node, id, rec, n, ev.now);
    } else if Pressing(n, c.node, id, ev.now) {
      assert QueuedAt(c, n, id, ev.now);
      InstallKeepsQueued(c.node, Subject(ch), rec, c.node.members[id], n, ev.now);
    }
  }

  lemma SendQueues(c: Conf, e: Emission, ev: Event, n: Node, id: ShardId)
    requires QueuedAt(c, n, id, ev.now) && Sendable(c.node, e, ev)
    ensures QueuedAt(DoSend(c, e, ev), n, id, ev.now)
  {
    var r := DoSend(c, e, ev);
    assert r.node.members == c.node.members;
    if Pressing(n, c.node, id, ev.now) {
      PickKeepsQueued(c.node.backlog, c.node.cfg.kGossip, c.node.members[id], n, ev.now);
    }
  }

  lemma BookQueues(c: Conf, b: Booking, ev: Event, n: Node, id: ShardId)
    requires QueuedAt(c, n, id, ev.now) && Bookable(c.node, b, ev) && c.node.cfg == n.cfg
    ensures QueuedAt(c.(node := DoBook(c.node, b, ev)), n, id, ev.now)
  {
    var r := DoBook(c.node, b, ev);
    assert r.members == c.node.members;
    if Pressing(n, c.node, id, ev.now) { CollectKeepsQueued(c.node.backlog, c.node.members[id], n, ev.now); }
  }

  lemma MicroQueues(c: Conf, m: Micro, ev: Event, n: Node, start: map<ShardId, MemberRecord>)
    requires AllQueued(c, n, ev.now, start) && Can(c, m, ev)
    ensures AllQueued(Do(c, m, ev), n, ev.now, start)
  {
    MicroKeeps(c, m, ev, start);
    forall id ensures QueuedAt(Do(c, m, ev), n, id, ev.now) {
      assert QueuedAt(c, n, id, ev.now);
      match m
      case Write(ch) => WriteQueues(c, ch, ev, n, id, start);
      case Send(e) => SendQueues(c, e, ev, n, id);
      case Book(b) => BookQueues(c, b, ev, n, id);
    }
  }

  /** After any call, every member whose record changed, and every member that was waiting within the cutoff, has its
      current record in the backlog. */
  lemma ChangesAreQueued(n: Node, ev: Event, start: map<ShardId, MemberRecord>, id: ShardId)
    requires Inv(n, start) && Pressing(n, Step(n, ev).node, id, ev.now)
    ensures Queued(Step(n, ev).node.backlog, Step(n, ev).node.members[id], n, ev.now)
  {
    var P := (c: Conf) => AllQueued(c, n, ev.now, start);
    forall c, m | P(c) && Can(c, m, ev) ensures P(Do(c, m, ev)) { MicroQueues(c, m, ev, n, start); }
    BeforeTheCall(n, ev.now, start);
    StepInduction(P, n, ev);
    assert QueuedAt(Step(n, ev), n, id, ev.now);
  }

  lemma BeforeTheCall(n: Node, now: real, start: map<ShardId, MemberRecord>)
    requires Inv(n, start)
    ensures AllQueued(Conf(n, []), n, now, start)
  {
    forall id ensures QueuedAt(Conf(n, []), n, id, now) {
      if Pressing(n, n, id, now) {
        var e :| e in n.backlog && e.record.shardId == id && Recent(e, n, now);
        assert e.record == n.members[id];
      }
    }
  }

  ghost predicate OnlyRecent(c: Conf, n: Node, now: real) {
    c.node.cfg == n.cfg && forall e :: e in c.node.backlog ==> Recent(e, n, now)
  }

  lemma PickOnlyRecent(b: seq<Entry>, k: nat, n: Node, now: real)
    requires forall e :: e in b ==> Recent(e, n, now)
    ensures forall e :: e in AfterPick(b, k) ==> Recent(e, n, now)
  {
    forall e | e in AfterPick(b, k) ensures Recent(e, n, now) {
      var i :| 0 <= i < |Sorted(b)| && AfterPick(b, k)[i] == e;
      SortedMembership(b, Sorted(b)[i]);
      assert Recent(Sorted(b)[i], n, now);
    }
  }

  lemma MicroOnlyRecent(c: Conf, m: Micro, ev: Event, n: Node)
    requires OnlyRecent(c, n, ev.now) && Can(c, m, ev)
    ensures OnlyRecent(Do(c, m, ev), n, ev.now)
  {
    var b := c.node.backlog;
    match m
    case Write(ch) =>
      forall e | e in Without(b, Subject(ch)) ensures Recent(e, n, ev.now) { WithoutSpec(b, Subject(ch), e); }
    case Send(s) => PickOnlyRecent(b, c.node.cfg.kGossip, n, ev.now);
    case Book(k) =>
      forall e | e in Fresh(b, ev.now, n.cfg.GcCutoff()) ensures Recent(e, n, ev.now) {
        FreshSpec(b, ev.now, n.cfg.GcCutoff(), e);
      }
  }

  /** After a tick nothing past the cutoff waits. */
  lemma TickCollects(n: Node, ev: Event)
    requires ev.Tick?
    ensures forall e :: e in Step(n, ev).node.backlog ==> ev.now - e.enqueuedAt <= n.cfg.GcCutoff()
  {
    var P := (c: Conf) => OnlyRecent(c, n, ev.now);
    forall c, m | P(c) && Can(c, m, ev) ensures P(Do(c, m, ev)) { MicroOnlyRecent(c, m, ev, n); }
    var c1 := Do(Conf(n, []), Book(Collect), ev);
    forall e | e in c1.node.backlog ensures Recent(e, n, ev.now) { FreshSpec(n.backlog, ev.now, n.cfg.GcCutoff(), e); }
    FlushInduction(P, c1, 0, false, ev);
    var c2 := FlushHelps(c1, 0, false, ev);
    PromoteDeadInduction(P, c2, c2.node.order, ev);
    var c3 := PromoteDead(c2, c2.node.order, ev);
    if ev.now >= c3.node.nextPeriodAt { StartPeriodInduction(P, c3, ev); }
    EscalateInduction(P, if ev.now >= c3.node.nextPeriodAt then StartPeriod(c3, ev) else c3, ev);
    assert P(Step(n, ev));
    forall e | e in Step(n, ev).node.backlog ensures ev.now - e.enqueuedAt <= n.cfg.GcCutoff() {
      assert Recent(e, n, ev.now);
    }
  }
}
