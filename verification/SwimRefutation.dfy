/**
 Refutation across the cluster: one accusation costs b exactly one bump, the
 new incarnation beats every accusation anywhere, and b's own record then
 installs b as ALIVE wherever it is delivered, unless a newer accusation is
 already there.
 */
module SwimRefutation {
  import opened Common
  import opened Records
  import opened Swim
  import opened SwimInvariants
  import opened SwimMessages
  import opened SwimView
  import opened SwimCluster

  /** Every record of b in another view and every accusation of b in flight is below `inc`. */
  ghost predicate AllBelow(c: Cluster, b: ShardId, inc: int) {
    && (forall a :: a in c.nodes && a != b && b in c.nodes[a].members ==> c.nodes[a].members[b].incarnation < inc)
    && (forall p, d :: p in c.net && !p.msg.Join? && d in p.msg.deltas && d.shardId == b && d.state != Alive ==>
           d.incarnation < inc)
  }

  lemma OthersBelow(c: Cluster, b: ShardId, starts: map<ShardId, map<ShardId, MemberRecord>>)
    requires Safe(c, starts) && b in c.nodes
    ensures AllBelow(c, b, c.nodes[b].selfIncarnation + 1)
  {
    assert Own(c)[b] == c.nodes[b].selfIncarnation;
    forall a | a in c.nodes && b in c.nodes[a].members ensures c.nodes[a].members[b].incarnation <= Own(c)[b] {
      assert SafeAt(c, starts, a);
    }
    forall p, d | p in c.net && !p.msg.Join? && d in p.msg.deltas && d.shardId == b ensures d.incarnation <= Own(c)[b] {
      assert MessageBounded(p.msg, Own(c));
    }
  }

  // -------------------------------------------------------- one bump at most

  ghost predicate NothingBad(ds: seq<MemberRecord>, b: ShardId) {
    forall d :: d in ds && d.shardId == b ==> d.state == Alive
  }

  /** A node never gossips a bad word about itself. */
  ghost predicate SpeaksWell(c: Conf, start: map<ShardId, MemberRecord>) {
    && Inv(c.node, start)
    && forall i :: 0 <= i < |c.out| && !c.out[i].payload.Join? ==> NothingBad(c.out[i].payload.deltas, c.node.selfId)
  }

  lemma SendSpeaksWell(c: Conf, e: Emission, ev: Event, start: map<ShardId, MemberRecord>)
    requires SpeaksWell(c, start) && Sendable(c.node, e, ev)
    ensures SpeaksWell(DoSend(c, e, ev), start)
  {
    SendKeeps(c, e, ev, start);
    PiggyBackHolds(c.node, start);
    ValuesHold(c.node, c.node.order, start);
    var sent := Sent(c.node, e, ev).payload;
    forall d | d in sent.deltas && d.shardId == c.node.selfId ensures d.state == Alive {
      assert d == c.node.members[c.node.selfId];
    }
  }

  lemma StepSpeaksWell(n: Node, ev: Event, start: map<ShardId, MemberRecord>)
    requires Inv(n, start)
    ensures SpeaksWell(Step(n, ev), start)
  {
    var P := (c: Conf) => SpeaksWell(c, start);
    forall c, m | P(c) && Can(c, m, ev) ensures P(Do(c, m, ev)) {
      if m.Send? { SendSpeaksWell(c, m.emission, ev, start); } else { MicroKeeps(c, m, ev, start); }
    }
    StepInduction(P, n, ev);
  }

  /** From one state to the next, b's own incarnation rose by at most one and b is ALIVE in its own view at it. If it
      rose, the new value exceeds every record of b in another view and every accusation of b in flight, in both. */
  ghost predicate Bumps(before: Cluster, after: Cluster, b: ShardId)
    requires b in before.nodes
  {
    && b in after.nodes && b in after.nodes[b].members
    && before.nodes[b].selfIncarnation <= after.nodes[b].selfIncarnation <= before.nodes[b].selfIncarnation + 1
    && after.nodes[b].members[b].state == Alive
    && after.nodes[b].members[b].incarnation == after.nodes[b].selfIncarnation
    && (after.nodes[b].selfIncarnation > before.nodes[b].selfIncarnation ==>
          AllBelow(before, b, after.nodes[b].selfIncarnation) && AllBelow(after, b, after.nodes[b].selfIncarnation))
  }

  /** Every delivery in every reachable state. */
  lemma RefutationBumpsByOne(c: Cluster, acts: seq<Action>, p: Packet, at: real)
    requires Booted(c) && p in Acts(c, acts).net && p.dest in Acts(c, acts).nodes
    ensures Bumps(Acts(c, acts), Act(Acts(c, acts), Deliver(p, at)), p.dest)
  {
    ReachableSafe(c, acts);
    BumpStep(Acts(c, acts), p, at, Born(c, acts));
  }

  /** A delivery moves one node, with the step itself out of sight. */
  lemma Delivered(c: Cluster, p: Packet, at: real) returns (r: Conf)
    requires p in c.net && p.dest in c.nodes
    ensures r == Step(c.nodes[p.dest], Recv(p.msg, at)) && Act(c, Deliver(p, at)) == Moved(c, p.dest, r)
  {
    r := Step(c.nodes[p.dest], Recv(p.msg, at));
  }

  lemma DeliveredWell(c: Cluster, p: Packet, at: real,
      starts: map<ShardId, map<ShardId, MemberRecord>>) returns (r: Conf)
    requires Safe(c, starts) && p in c.net && p.dest in c.nodes
    ensures Act(c, Deliver(p, at)) == Moved(c, p.dest, r)
    ensures Contained(r, c.nodes[p.dest], Own(c), starts[p.dest]) && SpeaksWell(r, starts[p.dest])
  {
    r := Delivered(c, p, at);
    assert SafeAt(c, starts, p.dest);
    StepContained(c.nodes[p.dest], Recv(p.msg, at), Own(c), starts[p.dest]);
    StepSpeaksWell(c.nodes[p.dest], Recv(p.msg, at), starts[p.dest]);
  }

  lemma BumpStep(c: Cluster, p: Packet, at: real, starts: map<ShardId, map<ShardId, MemberRecord>>)
    requires Safe(c, starts) && p in c.net && p.dest in c.nodes
    ensures Bumps(c, Act(c, Deliver(p, at)), p.dest)
  {
    var r := DeliveredWell(c, p, at, starts);
    OthersBelow(c, p.dest, starts);
    assert SafeAt(c, starts, p.dest);
    BumpFacts(c, p.dest, r, starts);
  }

  /** What a node just sent says nothing bad about it. */
  lemma FreshWord(c: Cluster, b: ShardId, r: Conf, start: map<ShardId, MemberRecord>)
    requires SpeaksWell(r, start) && r.node.selfId == b
    ensures forall p, d :: p in Packets(r.out) && !p.msg.Join? && d in p.msg.deltas && d.shardId == b ==>
              d.state == Alive
  {
    forall p, d | p in Packets(r.out) && !p.msg.Join? && d in p.msg.deltas && d.shardId == b ensures d.state == Alive {
      var i :| 0 <= i < |r.out| && p == Packet(r.out[i].target, WireMessage(r.out[i].payload));
      var ds := r.out[i].payload.deltas;
      var j :| 0 <= j < |ds| && OnWire(ds[j]) == d;
      assert ds[j] in ds;
    }
  }

  lemma StillBelow(c: Cluster, b: ShardId, r: Conf, inc: int)
    requires AllBelow(c, b, inc)
    requires forall p, d :: p in Packets(r.out) && !p.msg.Join? && d in p.msg.deltas && d.shardId == b ==>
               d.state == Alive
    ensures AllBelow(Moved(c, b, r), b, inc)
  {}

  lemma BumpFacts(c: Cluster, b: ShardId, r: Conf, starts: map<ShardId, map<ShardId, MemberRecord>>)
    requires b in c.nodes && b in starts && c.nodes[b].selfId == b && Contained(r, c.nodes[b], Own(c), starts[b])
    requires SpeaksWell(r, starts[b]) && AllBelow(c, b, c.nodes[b].selfIncarnation + 1)
    ensures Bumps(c, Moved(c, b, r), b)
  {
    FreshWord(c, b, r, starts[b]);
    StillBelow(c, b, r, c.nodes[b].selfIncarnation + 1);
  }

  // ------------------------------------------------------ the record spreads

  /** The message also brings an admitted accusation of b at this incarnation. */
  ghost predicate AccusedBy(n: Node, m: Message, b: ShardId, inc: int)
    requires !m.Join?
  {
    exists d :: d in m.deltas && Relevant(n, d, b) && d.incarnation == inc && d.state != Alive
  }

  /** The receiver ends up with b at exactly this incarnation, and as ALIVE unless it already held, and not from b
      itself, or the same message brought, an accusation at that very incarnation. */
  ghost predicate Settles(n: Node, after: Node, m: Message, b: ShardId, inc: int)
    requires m.Ping? || m.Ack?
  {
    && b in n.members && b in after.members && after.members[b].incarnation == inc
    && (after.members[b].state != Alive <==>
          || (n.members[b].incarnation == inc && n.members[b].state != Alive && m.sender != b)
          || AccusedBy(n, m, b, inc))
  }

  lemma {:induction false} FlushKeepsMembers(c: Conf, i: nat, ok: bool, ev: Event)
    ensures FlushHelps(c, i, ok, ev).node.members == c.node.members
    decreases |c.node.helps| - i
  {
    if i < |c.node.helps| {
      if Sendable(c.node, ReplyHelp(i, ok), ev) {
        FlushKeepsMembers(DoSend(c, ReplyHelp(i, ok), ev), i, ok, ev);
      } else {
        FlushKeepsMembers(c, i + 1, ok, ev);
      }
    }
  }

  /** Applying deltas bounded by b's incarnation, with b's own record among them. */
  lemma TopIsOwn(c: Conf, ds: seq<MemberRecord>, ev: Event, b: ShardId, own: MemberRecord)
    requires b in c.node.members && b != c.node.selfId && c.node.members[b].incarnation <= own.incarnation
    requires forall d :: d in ds ==> Carries(ev, d)
    requires forall d :: d in ds && d.shardId == b ==> d.incarnation <= own.incarnation
    requires own in ds && own.state == Alive && Relevant(c.node, own, b)
    ensures var r := ApplyAll(c, ds, ev).node;
            && b in r.members && r.members[b].incarnation == own.incarnation
            && (r.members[b].state != Alive <==>
                  || (c.node.members[b].incarnation == own.incarnation && c.node.members[b].state != Alive)
                  || exists d :: d in ds && Relevant(c.node, d, b)
                                 && d.incarnation == own.incarnation && d.state != Alive)
  {
    ApplyAllReachesTop(c, ds, ev, b);
    var base := Rank(c.node.members[b]);
    TopRankIsMaximum(c.node, ds, b, base);
    var r := ApplyAll(c, ds, ev).node;
    assert Rank(own) == 3 * own.incarnation;
    assert forall m: MemberRecord :: Rank(m) == 3 * m.incarnation + m.state.Severity() && m.state.Severity() <= 2
             && (m.state == Alive <==> m.state.Severity() == 0);
  }

  /** A message about b within bounds, b's own record among its deltas. */
  ghost predicate Bears(n: Node, ev: Event, b: ShardId, own: MemberRecord) {
    && ev.Recv? && (ev.msg.Ping? || ev.msg.Ack?) && ev.msg.sender in n.members
    && b in n.members && b != n.selfId && n.members[b].incarnation <= own.incarnation
    && (ev.msg.sender == b ==> ev.msg.senderIncarnation <= own.incarnation)
    && (forall d :: d in ev.msg.deltas && d.shardId == b ==> d.incarnation <= own.incarnation)
    && own in ev.msg.deltas && own.state == Alive && Relevant(n, own, b)
  }

  /** The sender is promoted, then the deltas are applied. */
  lemma AppliedSettles(n: Node, c: Conf, ev: Event, b: ShardId, own: MemberRecord)
    requires Bears(n, ev, b, own)
    requires c.node.members == n.members && c.node.selfId == n.selfId && c.node.modelId == n.modelId
    ensures var c2 := Try(c, Write(Promoting(ev.msg.sender, ev.msg.senderIncarnation)), ev);
            Settles(n, ApplyAll(c2, ev.msg.deltas, ev).node, ev.msg, b, own.incarnation)
  {
    var c2 := Try(c, Write(Promoting(ev.msg.sender, ev.msg.senderIncarnation)), ev);
    assert c2.node.modelId == n.modelId && c2.node.selfId == n.selfId;
    assert forall d :: Relevant(n, d, b) <==> Relevant(c2.node, d, b);
    TopIsOwn(c2, ev.msg.deltas, ev, b, own);
  }

  /** One Ping or Ack that carries b's own record, at a node that admits it. */
  lemma OwnRecordArrives(n: Node, ev: Event, b: ShardId, own: MemberRecord)
    requires Bears(n, ev, b, own)
    ensures Settles(n, Step(n, ev).node, ev.msg, b, own.incarnation)
  {
    if ev.msg.Ack? { OwnRecordAcked(n, ev, b, own); } else { OwnRecordPinged(n, ev, b, own); }
  }

  lemma OwnRecordPinged(n: Node, ev: Event, b: ShardId, own: MemberRecord)
    requires Bears(n, ev, b, own) && ev.msg.Ping?
    ensures Settles(n, Step(n, ev).node, ev.msg, b, own.incarnation)
  {
    AppliedSettles(n, Conf(n, []), ev, b, own);
    var c2 := Try(Conf(n, []), Write(Promoting(ev.msg.sender, ev.msg.senderIncarnation)), ev);
    var c3 := ApplyAll(c2, ev.msg.deltas, ev);
    assert Step(n, ev) == Try(c3, Send(ReplyAck), ev);
  }

  lemma OwnRecordAcked(n: Node, ev: Event, b: ShardId, own: MemberRecord)
    requires Bears(n, ev, b, own) && ev.msg.Ack?
    ensures Settles(n, Step(n, ev).node, ev.msg, b, own.incarnation)
  {
    var c := Conf(n, []);
    var c1 := if n.probe.Some? && n.probe.value.target == ev.msg.sender then Do(c, Book(ClearProbe), ev) else c;
    AppliedSettles(n, c1, ev, b, own);
    var c2 := Try(c1, Write(Promoting(ev.msg.sender, ev.msg.senderIncarnation)), ev);
    var c3 := ApplyAll(c2, ev.msg.deltas, ev);
    FlushKeepsMembers(c3, 0, true, ev);
    assert Step(n, ev) == FlushHelps(c3, 0, true, ev);
  }

  /** A Ping or Ack under way that carries b's own current record to another node that admits it. */
  ghost predicate BringsOwn(c: Cluster, p: Packet, b: ShardId) {
    && p in c.net && p.dest in c.nodes && b in c.nodes && p.dest != b && (p.msg.Ping? || p.msg.Ack?)
    && b in c.nodes[b].members && OnWire(c.nodes[b].members[b]) in p.msg.deltas
    && Admits(c.nodes[p.dest], c.nodes[b].members[b])
  }

  /** Every such delivery in every reachable state. */
  lemma RefutationWins(c: Cluster, acts: seq<Action>, p: Packet, at: real, b: ShardId)
    requires Booted(c) && BringsOwn(Acts(c, acts), p, b)
    ensures var before := Acts(c, acts);
            Settles(before.nodes[p.dest], Act(before, Deliver(p, at)).nodes[p.dest], p.msg, b,
                before.nodes[b].selfIncarnation)
  {
    ReachableSafe(c, acts);
    WinStep(Acts(c, acts), p, at, b, Born(c, acts));
  }

  lemma WinStep(c: Cluster, p: Packet, at: real, b: ShardId, starts: map<ShardId, map<ShardId, MemberRecord>>)
    requires Safe(c, starts) && BringsOwn(c, p, b)
    ensures Settles(c.nodes[p.dest], Act(c, Deliver(p, at)).nodes[p.dest], p.msg, b, c.nodes[b].selfIncarnation)
  {
    var r := Delivered(c, p, at);
    OwnBounds(c, p, at, b, starts);
    OwnRecordArrives(c.nodes[p.dest], Recv(p.msg, at), b, OnWire(c.nodes[b].members[b]));
  }

  /** What safety says about such a message. */
  lemma OwnBounds(c: Cluster, p: Packet, at: real, b: ShardId, starts: map<ShardId, map<ShardId, MemberRecord>>)
    requires Safe(c, starts) && BringsOwn(c, p, b)
    ensures var own := OnWire(c.nodes[b].members[b]);
            own.incarnation == c.nodes[b].selfIncarnation && Bears(c.nodes[p.dest], Recv(p.msg, at), b, own)
  {
    assert SafeAt(c, starts, b);
    assert SafeAt(c, starts, p.dest);
    assert MessageBounded(p.msg, Own(c));
  }

  /** The two halves together: right after a delivery that made b refute, any message with b's new record, delivered to
      any other node that admits it, leaves b ALIVE there at the new incarnation. */
  lemma RefutationSpreads(c: Cluster, acts: seq<Action>, p: Packet, at: real, q: Packet, later: real)
    requires Booted(c) && p in Acts(c, acts).net && p.dest in Acts(c, acts).nodes
    requires var after := Act(Acts(c, acts), Deliver(p, at));
             && p.dest in after.nodes
             && after.nodes[p.dest].selfIncarnation > Acts(c, acts).nodes[p.dest].selfIncarnation
             && BringsOwn(after, q, p.dest)
    ensures var after := Act(Acts(c, acts), Deliver(p, at));
            var n := Act(after, Deliver(q, later)).nodes[q.dest];
            p.dest in n.members && n.members[p.dest].state == Alive
            && n.members[p.dest].incarnation == after.nodes[p.dest].selfIncarnation
  {
    var all := acts + [Deliver(p, at)];
    assert all[..|acts|] == acts && Acts(c, all) == Act(Acts(c, acts), Deliver(p, at));
    RefutationBumpsByOne(c, acts, p, at);
    RefutationWins(c, all, q, later, p.dest);
  }
}
