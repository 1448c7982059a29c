/**
 Failure detection against the clock, over whole runs of one node: a tick
 suspects a peer only when a ping to it is overdue and unacknowledged, and
 suspicion turns into DEAD exactly when its deadline has passed.
 */
module SwimTiming {
  import opened Common
  import opened Records
  import opened Swim
  import opened SwimInvariants

  // ------------------------------------------------------------- deadlines

  ghost predicate Expired(n: Node, id: ShardId, now: real) {
    id in n.members && n.members[id].state == Suspect
    && n.members[id].deadline.Some? && now >= n.members[id].deadline.value
  }

  /** Any deadline that has already passed was set by this very tick (possible only with a zero window). */
  ghost predicate Punctual(c: Conf, now: real) {
    forall id :: Expired(c.node, id, now) ==> c.node.members[id].deadline.value == now + c.node.cfg.SuspectWindow()
  }

  lemma {:induction false} PromoteDeadClears(c: Conf, ids: seq<ShardId>, ev: Event)
    requires forall id :: Expired(c.node, id, ev.now) ==> id in ids
    ensures forall id :: !Expired(PromoteDead(c, ids, ev).node, id, ev.now)
    decreases |ids|
  {
    if ids != [] {
      var c1 := Try(c, Write(Dying(ids[0])), ev);
      forall id | Expired(c1.node, id, ev.now) ensures id in ids[1..] {
        assert id != ids[0] && Expired(c.node, id, ev.now);
        assert ids == [ids[0]] + ids[1..];
      }
      PromoteDeadClears(c1, ids[1..], ev);
    }
  }

  lemma MicroPunctual(c: Conf, m: Micro, ev: Event)
    requires ev.Tick? && Punctual(c, ev.now) && Can(c, m, ev)
    ensures Punctual(Do(c, m, ev), ev.now)
  {
    if m.Write? {
      var id := Subject(m.change);
      forall x | Expired(Do(c, m, ev).node, x, ev.now) && x != id ensures Expired(c.node, x, ev.now) {}
    }
  }

  lemma PunctualClosed(ev: Event)
    requires ev.Tick?
    ensures Closed((c: Conf) => Punctual(c, ev.now), ev)
  {
    var P := (c: Conf) => Punctual(c, ev.now);
    forall c, m | P(c) && Can(c, m, ev) ensures P(Do(c, m, ev)) { MicroPunctual(c, m, ev); }
  }

  lemma SameConfig(n: Node, ev: Event)
    ensures Step(n, ev).node.cfg == n.cfg
  {
    var P := (c: Conf) => c.node.cfg == n.cfg;
    assert Closed(P, ev);
    StepInduction(P, n, ev);
  }

  lemma PunctualAfterTick(c: Conf, ev: Event)
    requires ev.Tick?
    requires forall id :: id in FlushHelps(Do(c, Book(Collect), ev), 0, false, ev).node.members
                     ==> id in FlushHelps(Do(c, Book(Collect), ev), 0, false, ev).node.order
    ensures Punctual(TickStep(c, ev), ev.now)
  {
    var P := (c: Conf) => Punctual(c, ev.now);
    PunctualClosed(ev);
    var c2 := FlushHelps(Do(c, Book(Collect), ev), 0, false, ev);
    PromoteDeadClears(c2, c2.node.order, ev);
    var c3 := PromoteDead(c2, c2.node.order, ev);
    assert P(c3);
    if ev.now >= c3.node.nextPeriodAt { StartPeriodInduction(P, c3, ev); }
    EscalateInduction(P, if ev.now >= c3.node.nextPeriodAt then StartPeriod(c3, ev) else c3, ev);
  }

  /** After a tick no SUSPECT member is past its deadline. */
  lemma TickLeavesNoneExpired(n: Node, ev: Event, start: map<ShardId, MemberRecord>)
    requires ev.Tick? && Inv(n, start)
    ensures Punctual(Step(n, ev), ev.now)
    ensures n.cfg.suspectMs > 0 ==> forall id :: !Expired(Step(n, ev).node, id, ev.now)
  {
    FlushKeeps(n, ev, start);
    PunctualAfterTick(Conf(n, []), ev);
    SameConfig(n, ev);
  }

  lemma FlushKeeps(n: Node, ev: Event, start: map<ShardId, MemberRecord>)
    requires ev.Tick? && Inv(n, start)
    ensures Inv(FlushHelps(Do(Conf(n, []), Book(Collect), ev), 0, false, ev).node, start)
  {
    var P := (c: Conf) => Inv(c.node, start);
    forall c, m | P(c) && Can(c, m, ev) ensures P(Do(c, m, ev)) { MicroKeeps(c, m, ev, start); }
    var c0 := Conf(n, []);
    assert P(c0) && Can(c0, Book(Collect), ev);
    FlushInduction(P, Do(c0, Book(Collect), ev), 0, false, ev);
  }

  /** The logged transition k turned a member DEAD because its recorded deadline had passed. */
  ghost predicate DueDeath(log: seq<Transition>, k: nat, now: real, start: map<ShardId, MemberRecord>)
    requires k < |log|
  {
    var view := Replay(log[..k], start);
    && log[k].shardId in view && view[log[k].shardId].state == Suspect
    && view[log[k].shardId].deadline.Some? && now >= view[log[k].shardId].deadline.value
  }

  ghost predicate DeathsDue(c: Conf, base: Node, now: real, start: map<ShardId, MemberRecord>) {
    && Inv(c.node, start) && base.log <= c.node.log
    && forall k :: |base.log| <= k < |c.node.log| && c.node.log[k].newRecord.state == Dead
         ==> DueDeath(c.node.log, k, now, start)
  }

  lemma MicroDeathsDue(c: Conf, m: Micro, ev: Event, base: Node, start: map<ShardId, MemberRecord>)
    requires ev.Tick? && DeathsDue(c, base, ev.now, start) && Can(c, m, ev)
    ensures DeathsDue(Do(c, m, ev), base, ev.now, start)
  {
    MicroKeeps(c, m, ev, start);
    var log, log' := c.node.log, Do(c, m, ev).node.log;
    if m.Write? {
      WriteDeathDue(c.node, m.change, ev, base, start);
    } else {
      assert log' == log;
    }
  }

  lemma WriteDeathDue(n: Node, ch: Change, ev: Event, base: Node, start: map<ShardId, MemberRecord>)
    requires ev.Tick? && DeathsDue(Conf(n, []), base, ev.now, start) && Enabled(n, ch, ev)
    ensures var log' := DoWrite(n, ch, ev).log;
            && base.log <= log'
            && forall k :: |base.log| <= k < |log'| && log'[k].newRecord.state == Dead ==>
                  DueDeath(log', k, ev.now, start)
  {
    var log, log' := n.log, DoWrite(n, ch, ev).log;
    assert log' == log + [log'[|log|]];
    forall k | |base.log| <= k < |log'| && log'[k].newRecord.state == Dead ensures DueDeath(log', k, ev.now, start) {
      if k < |log| {
        assert DueDeath(log, k, ev.now, start);
        assert log'[..k] == log[..k];
      } else {
        assert log'[..k] == log;
      }
    }
  }

  /** A tick declares nobody DEAD before the deadline of its suspicion. */
  lemma TickDeathsAreDue(n: Node, ev: Event, start: map<ShardId, MemberRecord>)
    requires ev.Tick? && Inv(n, start)
    ensures DeathsDue(Step(n, ev), n, ev.now, start)
  {
    var P := (c: Conf) => DeathsDue(c, n, ev.now, start);
    forall c, m | P(c) && Can(c, m, ev) ensures P(Do(c, m, ev)) { MicroDeathsDue(c, m, ev, n, start); }
    StepInduction(P, n, ev);
  }

  // ---------------------------------------------------------------- probes

  ghost predicate AckFrom(ev: Event, id: ShardId) { ev.Recv? && ev.msg.Ack? && ev.msg.sender == id }

  ghost predicate Pings(out: seq<Outgoing>, id: ShardId) {
    exists i :: 0 <= i < |out| && out[i].target == id && out[i].payload.Ping?
  }

  /** The pending probe was sent no later than `now`, and escalated only after the timeout. */
  ghost predicate ProbeTimed(n: Node, now: real) {
    n.probe.Some? ==>
      && n.probe.value.sentAt <= now
      && (n.probe.value.indirectSentAt.Some? ==>
            n.probe.value.sentAt + n.cfg.Timeout() <= n.probe.value.indirectSentAt.value <= now)
  }

  /** The pending probe either was pending before the call or was sent by it. */
  ghost predicate ProbeSource(c: Conf, n: Node, ev: Event) {
    c.node.probe.Some? ==>
      var p := c.node.probe.value;
      || (n.probe.Some? && n.probe.value.target == p.target && n.probe.value.sentAt == p.sentAt)
      || (ev.Tick? && p.sentAt == ev.now && Pings(c.out, p.target))
  }

  ghost predicate Overdue(c: Conf, n: Node, ev: Event, id: ShardId) {
    || (n.probe.Some? && n.probe.value.target == id && ev.now >= n.probe.value.sentAt + n.cfg.Timeout())
    || (Pings(c.out, id) && ev.now >= ev.now + n.cfg.Timeout())
  }

  ghost predicate Story(c: Conf, n: Node, ev: Event) {
    && c.node.cfg == n.cfg && ProbeTimed(c.node, ev.now) && ProbeSource(c, n, ev)
    && (ev.Tick? ==> forall id :: id in n.members && n.members[id].state == Alive
                       ==> id in c.node.members && (c.node.members[id].state == Alive || Overdue(c, n, ev, id)))
  }

  lemma SendStory(c: Conf, e: Emission, ev: Event, n: Node)
    requires Story(c, n, ev) && Sendable(c.node, e, ev)
    ensures Story(DoSend(c, e, ev), n, ev)
  {
    var c' := DoSend(c, e, ev);
    assert c'.out[|c.out|] == Sent(c.node, e, ev);
    forall id | Pings(c.out, id) ensures Pings(c'.out, id) {
      var i :| 0 <= i < |c.out| && c.out[i].target == id && c.out[i].payload.Ping?;
      assert c'.out[i] == c.out[i];
    }
    assert c'.node.members == c.node.members;
  }

  lemma WriteStory(c: Conf, ch: Change, ev: Event, n: Node)
    requires Story(c, n, ev) && Enabled(c.node, ch, ev)
    ensures Story(c.(node := DoWrite(c.node, ch, ev)), n, ev)
  {}

  lemma BookStory(c: Conf, b: Booking, ev: Event, n: Node)
    requires Story(c, n, ev) && Bookable(c.node, b, ev)
    ensures Story(c.(node := DoBook(c.node, b, ev)), n, ev)
  {}

  lemma MicroStory(c: Conf, m: Micro, ev: Event, n: Node)
    requires Story(c, n, ev) && Can(c, m, ev)
    ensures Story(Do(c, m, ev), n, ev)
  {
    match m
    case Write(ch) => WriteStory(c, ch, ev, n);
    case Send(e) => SendStory(c, e, ev, n);
    case Book(b) => BookStory(c, b, ev, n);
  }

  /** A tick moves a peer out of ALIVE only when the ping to it is at least the timeout old. */
  lemma StepStory(n: Node, ev: Event)
    requires ProbeTimed(n, ev.now)
    ensures Story(Step(n, ev), n, ev)
  {
    var P := (c: Conf) => Story(c, n, ev);
    forall c, m | P(c) && Can(c, m, ev) ensures P(Do(c, m, ev)) { MicroStory(c, m, ev, n); }
    StepInduction(P, n, ev);
  }

  /** An Ack from the probed peer clears the probe. */
  lemma AckClearsProbe(n: Node, ev: Event)
    requires n.probe.Some? && AckFrom(ev, n.probe.value.target)
    ensures Step(n, ev).node.probe.None?
  {
    var P := (c: Conf) => c.node.probe.None?;
    assert Closed(P, ev);
    var c1 := Do(Conf(n, []), Book(ClearProbe), ev);
    var c2 := Try(c1, Write(Promoting(ev.msg.sender, ev.msg.senderIncarnation)), ev);
    ApplyAllInduction(P, c2, ev.msg.deltas, ev);
    FlushInduction(P, ApplyAll(c2, ev.msg.deltas, ev), 0, true, ev);
  }

  // ------------------------------------------------------------ whole runs

  /** A run: nodes[i] is the state before event i, outs[i] what that event emitted. */
  datatype Trace = Trace(nodes: seq<Node>, evs: seq<Event>, outs: seq<seq<Outgoing>>)

  ghost predicate StepAt(t: Trace, i: nat)
    requires |t.nodes| == |t.evs| + 1 && |t.outs| == |t.evs|
  {
    i < |t.evs| ==> Step(t.nodes[i], t.evs[i]) == Conf(t.nodes[i + 1], t.outs[i])
  }

  /** A run of the machine under a clock that never goes back, starting with no probe pending. */
  ghost predicate IsRun(t: Trace) {
    && |t.nodes| == |t.evs| + 1 && |t.outs| == |t.evs| && t.nodes[0].probe.None?
    && (forall i: nat :: StepAt(t, i))
    && (forall i, j :: 0 <= i <= j < |t.evs| ==> t.evs[i].now <= t.evs[j].now)
  }

  /** Event k was a tick that pinged `id`, and no event after it, before `end`, was an Ack from `id`. */
  ghost predicate Unanswered(t: Trace, k: nat, end: nat, id: ShardId) {
    && k < end <= |t.evs| && k < |t.outs|
    && t.evs[k].Tick? && Pings(t.outs[k], id)
    && forall j :: k < j < end ==> !AckFrom(t.evs[j], id)
  }

  /** What one event does to the probe, with the step itself out of sight. */
  lemma ProbeStep(n: Node, ev: Event, n': Node, out: seq<Outgoing>)
    requires Step(n, ev) == Conf(n', out) && ProbeTimed(n, ev.now)
    ensures n'.cfg == n.cfg && ProbeTimed(n', ev.now)
    ensures n'.probe.Some? ==>
              var p := n'.probe.value;
              || (n.probe.Some? && n.probe.value.target == p.target && n.probe.value.sentAt == p.sentAt
                  && !AckFrom(ev, p.target))
              || (ev.Tick? && p.sentAt == ev.now && Pings(out, p.target))
  {
    StepStory(n, ev);
    if n.probe.Some? && AckFrom(ev, n.probe.value.target) { AckClearsProbe(n, ev); }
  }

  lemma ProbeAt(t: Trace, i: nat)
    requires IsRun(t) && i < |t.evs| && ProbeTimed(t.nodes[i], t.evs[i].now)
    ensures t.nodes[i + 1].cfg == t.nodes[i].cfg && ProbeTimed(t.nodes[i + 1], t.evs[i].now)
    ensures t.nodes[i + 1].probe.Some? ==>
              var n, p := t.nodes[i], t.nodes[i + 1].probe.value;
              || (n.probe.Some? && n.probe.value.target == p.target && n.probe.value.sentAt == p.sentAt
                  && !AckFrom(t.evs[i], p.target))
              || (t.evs[i].Tick? && p.sentAt == t.evs[i].now && Pings(t.outs[i], p.target))
  {
    assert StepAt(t, i);
    ProbeStep(t.nodes[i], t.evs[i], t.nodes[i + 1], t.outs[i]);
  }

  lemma StillUnanswered(t: Trace, k: nat, end: nat, id: ShardId)
    requires Unanswered(t, k, end, id) && end < |t.evs| && !AckFrom(t.evs[end], id)
    ensures Unanswered(t, k, end + 1, id)
  {}

  lemma {:induction false} ProbeHistory(t: Trace, i: nat)
    requires IsRun(t) && i <= |t.evs|
    ensures t.nodes[i].cfg == t.nodes[0].cfg
    ensures i < |t.evs| ==> ProbeTimed(t.nodes[i], t.evs[i].now)
    ensures t.nodes[i].probe.Some? ==>
              var p := t.nodes[i].probe.value;
              exists k: nat :: k < i && t.evs[k].now == p.sentAt && Unanswered(t, k, i, p.target)
    decreases i
  {
    if i > 0 {
      ProbeHistory(t, i - 1);
      var n, ev, n' := t.nodes[i - 1], t.evs[i - 1], t.nodes[i];
      ProbeAt(t, i - 1);
      if n'.probe.Some? {
        var p := n'.probe.value;
        if n.probe.Some? && n.probe.value.target == p.target && n.probe.value.sentAt == p.sentAt
           && !AckFrom(ev, p.target) {
          var k: nat :| k < i - 1 && t.evs[k].now == p.sentAt && Unanswered(t, k, i - 1, p.target);
          StillUnanswered(t, k, i - 1, p.target);
        } else {
          assert Unanswered(t, i - 1, i, p.target);
        }
      }
    }
  }

  lemma SuspicionStep(n: Node, ev: Event, n': Node, out: seq<Outgoing>, id: ShardId)
    requires ev.Tick? && Step(n, ev) == Conf(n', out) && ProbeTimed(n, ev.now)
    requires id in n.members && n.members[id].state == Alive
    requires id in n'.members && n'.members[id].state != Alive
    ensures || (n.probe.Some? && n.probe.value.target == id && ev.now >= n.probe.value.sentAt + n.cfg.Timeout())
            || (Pings(out, id) && ev.now >= ev.now + n.cfg.Timeout())
  {
    StepStory(n, ev);
  }

  /** Over every run with a monotone clock: when tick i moves a peer from ALIVE to SUSPECT, some tick at least
      the timeout earlier pinged that peer and no Ack from it arrived in between. */
  lemma SuspicionJustified(t: Trace, i: nat, id: ShardId)
    requires IsRun(t) && i < |t.evs| && t.evs[i].Tick?
    requires id in t.nodes[i].members && t.nodes[i].members[id].state == Alive
    requires id in t.nodes[i + 1].members && t.nodes[i + 1].members[id].state == Suspect
    ensures exists k: nat :: k <= i && Unanswered(t, k, i + 1, id)
                             && t.evs[k].now + t.nodes[0].cfg.Timeout() <= t.evs[i].now
  {
    ProbeHistory(t, i);
    var n, ev := t.nodes[i], t.evs[i];
    assert StepAt(t, i);
    SuspicionStep(n, ev, t.nodes[i + 1], t.outs[i], id);
    if n.probe.Some? && n.probe.value.target == id && ev.now >= n.probe.value.sentAt + n.cfg.Timeout() {
      var k: nat :| k < i && t.evs[k].now == n.probe.value.sentAt && Unanswered(t, k, i, id);
      assert Unanswered(t, k, i + 1, id);
    } else {
      assert Unanswered(t, i, i + 1, id);
    }
  }
}
