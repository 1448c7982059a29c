/**
 A cluster of SWIM nodes over a network that may lose, duplicate and reorder
 messages. Nobody ever records an incarnation of b above b's own, so one
 accusation costs b exactly one bump and the refutation beats every accusation
 in every view and in flight.
 */
module SwimCluster {
  import opened Common
  import opened Records
  import opened Swim
  import opened SwimInvariants
  import opened SwimMessages

  datatype Packet = Packet(dest: ShardId, msg: Message)

  /** `net` holds every packet sent and not lost; delivering keeps it, so it can be delivered again. */
  datatype Cluster = Cluster(nodes: map<ShardId, Node>, net: set<Packet>)

  datatype Action =
    | TickAt(id: ShardId, now: real, pick: nat, shuffled: seq<ShardId>)
    | Deliver(p: Packet, at: real)
    | Lose(p: Packet)
    | Restart(self: PeerSpec, peers: seq<PeerSpec>, cfg: SwimConfig, model: string, incarnation: int)

  function WireAll(ds: seq<MemberRecord>): (r: seq<MemberRecord>)
    ensures |r| == |ds| && forall i :: 0 <= i < |ds| ==> r[i] == OnWire(ds[i])
  {
    seq(|ds|, i requires 0 <= i < |ds| => OnWire(ds[i]))
  }

  function WireMessage(m: Message): Message {
    if m.Join? then Join(OnWire(m.newcomer)) else m.(deltas := WireAll(m.deltas))
  }

  function Packets(out: seq<Outgoing>): set<Packet> {
    set i | 0 <= i < |out| :: Packet(out[i].target, WireMessage(out[i].payload))
  }

  function StepAtNode(c: Cluster, id: ShardId, ev: Event): Cluster
    requires id in c.nodes
  {
    var r := Step(c.nodes[id], ev);
    Cluster(c.nodes[id := r.node], c.net + Packets(r.out))
  }

  function Act(c: Cluster, a: Action): Cluster {
    match a
    case TickAt(id, now, pick, shuffled) =>
      if id in c.nodes then StepAtNode(c, id, Tick(now, pick, shuffled)) else c
    case Deliver(p, at) =>
      if p in c.net && p.dest in c.nodes then StepAtNode(c, p.dest, Recv(p.msg, at)) else c
    case Lose(p) => c.(net := c.net - {p})
    case Restart(self, _, _, _, _) =>
      if CanRestart(c, a) then c.(nodes := c.nodes[self.shardId := Reborn(a)]) else c
  }

  function Reborn(a: Action): Node
    requires a.Restart?
  {
    Boot(a.self, a.peers, a.cfg, a.model, a.incarnation)
  }

  /** A node comes back with everything forgotten, except that its clock gives it an incarnation above its last one. */
  predicate CanRestart(c: Cluster, a: Action)
    requires a.Restart?
  {
    && a.self.shardId in c.nodes && a.incarnation > c.nodes[a.self.shardId].selfIncarnation
    && Reborn(a).members.Keys == c.nodes.Keys
  }

  function Acts(c: Cluster, acts: seq<Action>): Cluster {
    if acts == [] then c else Act(Acts(c, acts[..|acts| - 1]), acts[|acts| - 1])
  }

  /** Every node was constructed from the same set of shards, with a clock-derived incarnation. */
  ghost predicate Booted(c: Cluster) {
    && c.net == {}
    && forall id :: id in c.nodes ==> BootedNode(c, id)
  }

  ghost predicate BootedNode(c: Cluster, id: ShardId)
    requires id in c.nodes
  {
    exists self: PeerSpec, peers, cfg, model, inc :: inc >= 0 && self.shardId == id
      && c.nodes[id] == Boot(self, peers, cfg, model, inc) && c.nodes[id].members.Keys == c.nodes.Keys
  }

  // ------------------------------------------------------- one node, bounded

  ghost predicate DeltasBounded(ds: seq<MemberRecord>, bound: map<ShardId, int>) {
    forall d :: d in ds ==> d.shardId in bound && d.incarnation <= bound[d.shardId]
  }

  ghost predicate MessageBounded(m: Message, bound: map<ShardId, int>) {
    && !m.Join? && !m.MembershipDelta?
    && DeltasBounded(m.deltas, bound)
    && (m.Ping? || m.Ack? ==> m.sender in bound && m.senderIncarnation <= bound[m.sender])
  }

  /** The view respects the bound, and this node's own bound is its own incarnation. */
  ghost predicate NodeBounded(n: Node, bound: map<ShardId, int>) {
    && n.selfId in n.members && n.members[n.selfId].incarnation == n.selfIncarnation
    && n.members.Keys == bound.Keys && bound[n.selfId] == n.selfIncarnation
    && forall id :: id in n.members ==> n.members[id].incarnation <= bound[id]
  }

  ghost predicate OutBounded(out: seq<Outgoing>, bound: map<ShardId, int>) {
    forall i :: 0 <= i < |out| ==> MessageBounded(out[i].payload, bound)
  }

  ghost predicate EventBounded(ev: Event, bound: map<ShardId, int>) {
    ev.Recv? ==> MessageBounded(ev.msg, bound)
  }

  /** Within one call from n: own incarnation rose by at most one, everything else is within bounds. */
  ghost predicate Bounded(c: Conf, n: Node, bound: map<ShardId, int>) {
    && c.node.selfId == n.selfId && n.selfId in bound && bound[n.selfId] == n.selfIncarnation
    && n.selfIncarnation <= c.node.selfIncarnation <= n.selfIncarnation + 1
    && NodeBounded(c.node, bound[n.selfId := c.node.selfIncarnation])
    && OutBounded(c.out, bound[n.selfId := c.node.selfIncarnation])
  }

  ghost predicate Contained(c: Conf, n: Node, bound: map<ShardId, int>, start: map<ShardId, MemberRecord>) {
    Inv(c.node, start) && Bounded(c, n, bound)
  }

  lemma RefuteBounds(n: Node, ch: Change, ev: Event, bound: map<ShardId, int>)
    requires ch.Refuting? && n.selfId in bound && EventBounded(ev, bound)
    requires bound[n.selfId] <= n.selfIncarnation && NodeBounded(n, bound[n.selfId := n.selfIncarnation])
    requires Enabled(n, ch, ev)
    ensures DoWrite(n, ch, ev).selfIncarnation == bound[n.selfId] + 1 == n.selfIncarnation + 1
    ensures NodeBounded(DoWrite(n, ch, ev), bound[n.selfId := DoWrite(n, ch, ev).selfIncarnation])
  {
    assert ch.d in ev.msg.deltas;
    var n' := DoWrite(n, ch, ev);
    assert n'.members.Keys == n.members.Keys;
  }

  lemma PeerBounds(n: Node, ch: Change, ev: Event, bound: map<ShardId, int>)
    requires !ch.Refuting? && n.selfId in bound && EventBounded(ev, bound)
    requires bound[n.selfId] <= n.selfIncarnation && NodeBounded(n, bound[n.selfId := n.selfIncarnation])
    requires Enabled(n, ch, ev) && (ch.Suspecting? ==> ch.id != n.selfId) && (ch.Dying? ==> ch.id != n.selfId)
    ensures DoWrite(n, ch, ev).selfIncarnation == n.selfIncarnation
    ensures NodeBounded(DoWrite(n, ch, ev), bound[n.selfId := n.selfIncarnation])
  {
    var n', id := DoWrite(n, ch, ev), Subject(ch);
    assert id in n.members && id != n.selfId;
    assert n'.members == n.members[id := Written(n, ch, ev)];
    assert Written(n, ch, ev).incarnation <= bound[id];
    assert n'.members.Keys == n.members.Keys;
  }

  lemma OutGrows(out: seq<Outgoing>, b: map<ShardId, int>, b': map<ShardId, int>)
    requires OutBounded(out, b) && b.Keys == b'.Keys && forall id :: id in b ==> b[id] <= b'[id]
    ensures OutBounded(out, b')
  {
    forall i | 0 <= i < |out| ensures MessageBounded(out[i].payload, b') { MessageGrows(out[i].payload, b, b'); }
  }

  lemma MessageGrows(m: Message, b: map<ShardId, int>, b': map<ShardId, int>)
    requires MessageBounded(m, b) && b.Keys == b'.Keys && forall id :: id in b ==> b[id] <= b'[id]
    ensures MessageBounded(m, b')
  {
  }

  lemma WriteContained(c: Conf, ch: Change, ev: Event, n: Node, bound: map<ShardId, int>)
    requires ViewOk(c.node) && ProbeOk(c.node) && EventBounded(ev, bound) && Bounded(c, n, bound)
    requires Enabled(c.node, ch, ev)
    ensures Bounded(c.(node := DoWrite(c.node, ch, ev)), n, bound)
  {
    if ch.Refuting? { RefuteBounds(c.node, ch, ev, bound); } else { PeerBounds(c.node, ch, ev, bound); }
    OutGrows(c.out, bound[n.selfId := c.node.selfIncarnation],
             bound[n.selfId := DoWrite(c.node, ch, ev).selfIncarnation]);
  }

  lemma SendContained(c: Conf, e: Emission, ev: Event, n: Node, bound: map<ShardId, int>,
      start: map<ShardId, MemberRecord>)
    requires EventBounded(ev, bound) && Contained(c, n, bound, start) && Sendable(c.node, e, ev)
    ensures Contained(DoSend(c, e, ev), n, bound, start)
  {
    SendKeeps(c, e, ev, start);
    PiggyBackHolds(c.node, start);
    var b := bound[n.selfId := c.node.selfIncarnation];
    assert DeltasBounded(PiggyBack(c.node), b);
    assert MessageBounded(Sent(c.node, e, ev).payload, b);
  }

  lemma MicroContained(c: Conf, m: Micro, ev: Event, n: Node, bound: map<ShardId, int>,
      start: map<ShardId, MemberRecord>)
    requires EventBounded(ev, bound) && Contained(c, n, bound, start) && Can(c, m, ev)
    ensures Contained(Do(c, m, ev), n, bound, start)
  {
    match m
    case Write(ch) =>
      WriteKeeps(c.node, ch, ev, start);
      WriteContained(c, ch, ev, n, bound);
    case Send(e) => SendContained(c, e, ev, n, bound, start);
    case Book(b) => BookKeeps(c.node, b, ev, start);
  }

  lemma StepContained(n: Node, ev: Event, bound: map<ShardId, int>, start: map<ShardId, MemberRecord>)
    requires Inv(n, start) && NodeBounded(n, bound) && EventBounded(ev, bound)
    ensures Contained(Step(n, ev), n, bound, start)
  {
    var P := (c: Conf) => Contained(c, n, bound, start);
    assert bound[n.selfId := n.selfIncarnation] == bound;
    forall c, m | P(c) && Can(c, m, ev) ensures P(Do(c, m, ev)) { MicroContained(c, m, ev, n, bound, start); }
    StepInduction(P, n, ev);
  }

  // ------------------------------------------------------------ the cluster

  /** Each node's own incarnation. */
  function Own(c: Cluster): map<ShardId, int> { map id | id in c.nodes :: c.nodes[id].selfIncarnation }

  ghost predicate NodeSafe(n: Node, id: ShardId, bound: map<ShardId, int>, start: map<ShardId, MemberRecord>) {
    n.selfId == id && Inv(n, start) && NodeBounded(n, bound)
  }

  ghost predicate SafeAt(c: Cluster, starts: map<ShardId, map<ShardId, MemberRecord>>, id: ShardId)
    requires id in c.nodes && id in starts
  {
    NodeSafe(c.nodes[id], id, Own(c), starts[id]) && c.nodes[id].selfIncarnation >= 0
  }

  ghost predicate Safe(c: Cluster, starts: map<ShardId, map<ShardId, MemberRecord>>) {
    && starts.Keys == c.nodes.Keys
    && (forall id {:trigger SafeAt(c, starts, id)} :: id in c.nodes ==> SafeAt(c, starts, id))
    && (forall p :: p in c.net ==> MessageBounded(p.msg, Own(c)))
  }

  lemma BoundGrows(n: Node, b: map<ShardId, int>, b': map<ShardId, int>)
    requires NodeBounded(n, b) && b.Keys == b'.Keys && b'[n.selfId] == b[n.selfId]
    requires forall id :: id in b ==> b[id] <= b'[id]
    ensures NodeBounded(n, b')
  {
  }

  lemma WireBounded(m: Message, b: map<ShardId, int>)
    requires MessageBounded(m, b)
    ensures MessageBounded(WireMessage(m), b)
  {
    forall d | d in WireAll(m.deltas) ensures d.shardId in b && d.incarnation <= b[d.shardId] {
      var i :| 0 <= i < |m.deltas| && WireAll(m.deltas)[i] == d;
      assert m.deltas[i] in m.deltas;
    }
  }

  /** The cluster after one node moved to r, with the step itself out of sight. */
  function Moved(c: Cluster, id: ShardId, r: Conf): Cluster {
    Cluster(c.nodes[id := r.node], c.net + Packets(r.out))
  }

  lemma MovedOwn(c: Cluster, id: ShardId, r: Conf)
    requires id in c.nodes && Bounded(r, c.nodes[id], Own(c)) && c.nodes[id].selfId == id
    ensures Moved(c, id, r).nodes.Keys == c.nodes.Keys
    ensures Own(Moved(c, id, r)) == Own(c)[id := r.node.selfIncarnation]
    ensures forall x :: x in c.nodes ==> Own(c)[x] <= Own(Moved(c, id, r))[x]
  {
  }

  lemma MovedNodes(c: Cluster, id: ShardId, r: Conf, x: ShardId, start: map<ShardId, MemberRecord>)
    requires id in c.nodes && Bounded(r, c.nodes[id], Own(c)) && c.nodes[id].selfId == id
    requires x in c.nodes && NodeSafe(c.nodes[x], x, Own(c), start) && (x == id ==> Inv(r.node, start))
    ensures x in Moved(c, id, r).nodes && NodeSafe(Moved(c, id, r).nodes[x], x, Own(Moved(c, id, r)), start)
  {
    MovedOwn(c, id, r);
    if x != id { BoundGrows(c.nodes[x], Own(c), Own(Moved(c, id, r))); }
  }

  lemma MovedNet(c: Cluster, id: ShardId, r: Conf, p: Packet)
    requires id in c.nodes && Bounded(r, c.nodes[id], Own(c)) && c.nodes[id].selfId == id
    requires p in Moved(c, id, r).net && (p in c.net ==> MessageBounded(p.msg, Own(c)))
    ensures MessageBounded(p.msg, Own(Moved(c, id, r)))
  {
    MovedOwn(c, id, r);
    if p in c.net {
      MessageGrows(p.msg, Own(c), Own(Moved(c, id, r)));
    } else {
      var i :| 0 <= i < |r.out| && p == Packet(r.out[i].target, WireMessage(r.out[i].payload));
      WireBounded(r.out[i].payload, Own(Moved(c, id, r)));
    }
  }

  lemma MovedAllNodes(c: Cluster, id: ShardId, r: Conf, starts: map<ShardId, map<ShardId, MemberRecord>>)
    requires Safe(c, starts) && id in c.nodes && Contained(r, c.nodes[id], Own(c), starts[id])
    requires Moved(c, id, r).nodes.Keys == starts.Keys
    ensures var c' := Moved(c, id, r);
            forall x {:trigger SafeAt(c', starts, x)} :: x in c'.nodes ==> SafeAt(c', starts, x)
  {
    var c' := Moved(c, id, r);
    assert SafeAt(c, starts, id);
    forall x | x in c'.nodes ensures SafeAt(c', starts, x) {
      assert SafeAt(c, starts, x);
      MovedNodes(c, id, r, x, starts[x]);
    }
  }

  lemma MovedAllNet(c: Cluster, id: ShardId, r: Conf, starts: map<ShardId, map<ShardId, MemberRecord>>)
    requires Safe(c, starts) && id in c.nodes && Bounded(r, c.nodes[id], Own(c)) && c.nodes[id].selfId == id
    ensures forall p :: p in Moved(c, id, r).net ==> MessageBounded(p.msg, Own(Moved(c, id, r)))
  {
    forall p | p in Moved(c, id, r).net ensures MessageBounded(p.msg, Own(Moved(c, id, r))) { MovedNet(c, id, r, p); }
  }

  lemma NodeStepSafe(c: Cluster, id: ShardId, r: Conf, starts: map<ShardId, map<ShardId, MemberRecord>>)
    requires Safe(c, starts) && id in c.nodes && Contained(r, c.nodes[id], Own(c), starts[id])
    ensures Safe(Moved(c, id, r), starts)
  {
    assert SafeAt(c, starts, id);
    MovedOwn(c, id, r);
    MovedAllNodes(c, id, r, starts);
    MovedAllNet(c, id, r, starts);
    Assemble(Moved(c, id, r), starts);
  }

  lemma Assemble(c: Cluster, starts: map<ShardId, map<ShardId, MemberRecord>>)
    requires starts.Keys == c.nodes.Keys
    requires forall x {:trigger SafeAt(c, starts, x)} :: x in c.nodes ==> SafeAt(c, starts, x)
    requires forall p :: p in c.net ==> MessageBounded(p.msg, Own(c))
    ensures Safe(c, starts)
  {
  }

  /** A step moves one node, with the step itself out of sight. */
  lemma Stepped(c: Cluster, id: ShardId, ev: Event) returns (r: Conf)
    requires id in c.nodes
    ensures r == Step(c.nodes[id], ev) && StepAtNode(c, id, ev) == Moved(c, id, r)
  {
    r := Step(c.nodes[id], ev);
  }

  lemma StepSafe(c: Cluster, id: ShardId, ev: Event, starts: map<ShardId, map<ShardId, MemberRecord>>)
    requires Safe(c, starts) && id in c.nodes && EventBounded(ev, Own(c))
    ensures Safe(StepAtNode(c, id, ev), starts)
  {
    var r := Stepped(c, id, ev);
    assert SafeAt(c, starts, id);
    StepContained(c.nodes[id], ev, Own(c), starts[id]);
    NodeStepSafe(c, id, r, starts);
  }

  /** The views each node last booted with. */
  ghost function StartsAfter(c: Cluster, a: Action, starts: map<ShardId, map<ShardId, MemberRecord>>)
    : map<ShardId, map<ShardId, MemberRecord>>
  {
    if a.Restart? && CanRestart(c, a) then starts[a.self.shardId := Reborn(a).members] else starts
  }

  /** A restarted node knows its own incarnation and 0 for everyone else, so its view is within bounds. */
  lemma RebornSafe(c: Cluster, a: Action, bound: map<ShardId, int>)
    requires a.Restart? && CanRestart(c, a) && bound == Own(c)[a.self.shardId := a.incarnation]
    requires forall x :: x in c.nodes ==> c.nodes[x].selfIncarnation >= 0
    ensures NodeSafe(Reborn(a), a.self.shardId, bound, Reborn(a).members)
  {
    BootKeeps(a.self, a.peers, a.cfg, a.model, a.incarnation);
  }

  /** c' is c with one node replaced by one of higher incarnation. */
  ghost predicate Replaces(c: Cluster, c': Cluster, id: ShardId) {
    && id in c.nodes && id in c'.nodes && c' == c.(nodes := c.nodes[id := c'.nodes[id]])
    && c'.nodes[id].selfIncarnation > c.nodes[id].selfIncarnation
  }

  lemma ReplacedOwn(c: Cluster, c': Cluster, id: ShardId)
    requires Replaces(c, c', id)
    ensures c'.nodes.Keys == c.nodes.Keys == Own(c).Keys == Own(c').Keys
    ensures forall x :: x in c.nodes ==> Own(c)[x] <= Own(c')[x] && (x != id ==> c'.nodes[x] == c.nodes[x])
  {}

  lemma ReplacedNode(c: Cluster, c': Cluster, id: ShardId, starts: map<ShardId, map<ShardId, MemberRecord>>,
                     starts': map<ShardId, map<ShardId, MemberRecord>>, x: ShardId)
    requires Replaces(c, c', id) && x in c.nodes && x != id && x in c'.nodes
    requires x in starts && x in starts' && starts'[x] == starts[x] && SafeAt(c, starts, x)
    ensures SafeAt(c', starts', x)
  {
    ReplacedOwn(c, c', id);
    BoundGrows(c.nodes[x], Own(c), Own(c'));
  }

  lemma ReplacedAllNet(c: Cluster, c': Cluster, id: ShardId)
    requires Replaces(c, c', id) && forall p :: p in c.net ==> MessageBounded(p.msg, Own(c))
    ensures forall p :: p in c'.net ==> MessageBounded(p.msg, Own(c'))
  {
    ReplacedOwn(c, c', id);
    forall p | p in c'.net ensures MessageBounded(p.msg, Own(c')) { MessageGrows(p.msg, Own(c), Own(c')); }
  }

  lemma ReplacedSafe(c: Cluster, c': Cluster, id: ShardId, starts: map<ShardId, map<ShardId, MemberRecord>>,
                     starts': map<ShardId, map<ShardId, MemberRecord>>)
    requires Safe(c, starts) && Replaces(c, c', id) && starts'.Keys == c'.nodes.Keys
    requires forall x :: x in starts && x != id ==> x in starts' && starts'[x] == starts[x]
    requires SafeAt(c', starts', id)
    ensures Safe(c', starts')
  {
    ReplacedOwn(c, c', id);
    forall x | x in c'.nodes ensures SafeAt(c', starts', x) {
      if x != id {
        assert SafeAt(c, starts, x);
        ReplacedNode(c, c', id, starts, starts', x);
      }
    }
    ReplacedAllNet(c, c', id);
    Assemble(c', starts');
  }

  lemma LoseSafe(c: Cluster, p: Packet, starts: map<ShardId, map<ShardId, MemberRecord>>)
    requires Safe(c, starts)
    ensures Safe(c.(net := c.net - {p}), starts)
  {
    var c' := c.(net := c.net - {p});
    assert Own(c') == Own(c);
    forall x | x in c'.nodes ensures SafeAt(c', starts, x) { assert SafeAt(c, starts, x); }
  }

  lemma RestartReplaces(c: Cluster, a: Action, starts: map<ShardId, map<ShardId, MemberRecord>>)
    requires Safe(c, starts) && a.Restart? && CanRestart(c, a)
    ensures var id, n := a.self.shardId, Reborn(a);
            var c', starts' := c.(nodes := c.nodes[id := n]), starts[id := n.members];
            Replaces(c, c', id) && c'.nodes.Keys == starts'.Keys && SafeAt(c', starts', id)
  {
    var id, n := a.self.shardId, Reborn(a);
    forall x | x in c.nodes ensures c.nodes[x].selfIncarnation >= 0 { assert SafeAt(c, starts, x); }
    RebornSafe(c, a, Own(c)[id := a.incarnation]);
    OwnReplaced(c, id, n);
  }

  lemma OwnReplaced(c: Cluster, id: ShardId, n: Node)
    requires id in c.nodes
    ensures Own(c.(nodes := c.nodes[id := n])) == Own(c)[id := n.selfIncarnation]
  {}

  lemma RestartSafe(c: Cluster, a: Action, starts: map<ShardId, map<ShardId, MemberRecord>>)
    requires Safe(c, starts) && a.Restart? && CanRestart(c, a)
    ensures Safe(c.(nodes := c.nodes[a.self.shardId := Reborn(a)]), starts[a.self.shardId := Reborn(a).members])
  {
    var id, n := a.self.shardId, Reborn(a);
    RestartReplaces(c, a, starts);
    ReplacedSafe(c, c.(nodes := c.nodes[id := n]), id, starts, starts[id := n.members]);
  }

  lemma ActSafe(c: Cluster, a: Action, starts: map<ShardId, map<ShardId, MemberRecord>>)
    requires Safe(c, starts)
    ensures Safe(Act(c, a), StartsAfter(c, a, starts))
  {
    match a
    case TickAt(id, now, pick, shuffled) => if id in c.nodes { StepSafe(c, id, Tick(now, pick, shuffled), starts); }
    case Deliver(p, at) => if p in c.net && p.dest in c.nodes { StepSafe(c, p.dest, Recv(p.msg, at), starts); }
    case Lose(p) => LoseSafe(c, p, starts);
    case Restart(_, _, _, _, _) => if CanRestart(c, a) { RestartSafe(c, a, starts); }
  }

  ghost function Starts(c: Cluster): map<ShardId, map<ShardId, MemberRecord>> {
    map id | id in c.nodes :: c.nodes[id].members
  }

  lemma BootedNodeFacts(c: Cluster, id: ShardId)
    requires id in c.nodes && BootedNode(c, id)
    ensures var n := c.nodes[id];
            && n.selfId == id && Inv(n, n.members) && n.selfIncarnation >= 0 && n.members.Keys == c.nodes.Keys
            && AsBooted(n.members, id, n.modelId, n.selfIncarnation)
  {
    var self: PeerSpec, peers, cfg, model, inc :| inc >= 0 && self.shardId == id
      && c.nodes[id] == Boot(self, peers, cfg, model, inc) && c.nodes[id].members.Keys == c.nodes.Keys;
    BootKeeps(self, peers, cfg, model, inc);
  }

  lemma BootedSafe(c: Cluster)
    requires Booted(c)
    ensures Safe(c, Starts(c))
  {
    forall id | id in c.nodes ensures SafeAt(c, Starts(c), id) { BootedNodeSafe(c, id); }
  }

  lemma BootedNodeSafe(c: Cluster, id: ShardId)
    requires Booted(c) && id in c.nodes
    ensures NodeSafe(c.nodes[id], id, Own(c), c.nodes[id].members)
  {
    BootedOwn(c);
    BootedNodeFacts(c, id);
    assert Own(c).Keys == c.nodes.Keys;
    BootedBound(c.nodes[id], Own(c));
  }

  lemma BootedOwn(c: Cluster)
    requires Booted(c)
    ensures forall x :: x in c.nodes ==> Own(c)[x] >= 0
  {
    forall x | x in c.nodes ensures Own(c)[x] >= 0 { BootedNodeFacts(c, x); }
  }

  lemma BootedBound(n: Node, bound: map<ShardId, int>)
    requires n.members.Keys == bound.Keys && n.selfId in bound && bound[n.selfId] == n.selfIncarnation
    requires AsBooted(n.members, n.selfId, n.modelId, n.selfIncarnation)
    requires forall x :: x in bound ==> bound[x] >= 0
    ensures NodeBounded(n, bound)
  {
  }

  /** The views the nodes of a run last booted with. */
  ghost function Born(c: Cluster, acts: seq<Action>): map<ShardId, map<ShardId, MemberRecord>> {
    if acts == [] then Starts(c)
    else
      var init := acts[..|acts| - 1];
      StartsAfter(Acts(c, init), acts[|acts| - 1], Born(c, init))
  }

  /** In every reachable state every view record and every in-flight record about b is at most b's own incarnation. */
  lemma {:induction false} ReachableSafe(c: Cluster, acts: seq<Action>)
    requires Booted(c)
    ensures Safe(Acts(c, acts), Born(c, acts))
    decreases |acts|
  {
    if acts == [] {
      BootedSafe(c);
    } else {
      ReachableSafe(c, acts[..|acts| - 1]);
      ActSafe(Acts(c, acts[..|acts| - 1]), acts[|acts| - 1], Born(c, acts[..|acts| - 1]));
    }
  }
}
