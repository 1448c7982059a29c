/**
 What every tick and every received message keeps, on one node: the view stays
 well formed with this node ALIVE in it, the view is the replay of the
 transition log, and the gossip backlog only holds current records.
 */
module SwimInvariants {
  import opened Common
  import opened Records
  import opened Backlog
  import opened BacklogLemmas
  import opened Swim

  ghost predicate ViewOk(n: Node) {
    && n.selfId in n.members
    && n.members[n.selfId].state == Alive
    && (forall id :: id in n.members ==> n.members[id].shardId == id)
    && (forall id :: id in n.order <==> id in n.members)
    && (forall i, j :: 0 <= i < j < |n.order| ==> n.order[i] != n.order[j])
  }

  /** A pending probe has no positive answer yet and still waits for some helper. */
  ghost predicate ProbeOk(n: Node) {
    n.probe.Some? ==>
      var p := n.probe.value;
      && p.target in n.members && p.target != n.selfId
      && !p.successSeen
      && (p.indirectSentAt.None? ==> p.nacks == 0 && p.helpers == [])
      && (p.indirectSentAt.Some? ==> p.nacks < |p.helpers|)
  }

  /** The view obtained by replaying a log over a starting view. */
  function Replay(log: seq<Transition>, start: map<ShardId, MemberRecord>): map<ShardId, MemberRecord> {
    if log == [] then start
    else
      var last := log[|log| - 1];
      Replay(log[..|log| - 1], start)[last.shardId := last.newRecord]
  }

  function StateIn(view: map<ShardId, MemberRecord>, id: ShardId): Option<MemberState> {
    if id in view then Some(view[id].state) else None
  }

  /** Each log entry names the state its member really had just before it. */
  ghost predicate LogOk(log: seq<Transition>, start: map<ShardId, MemberRecord>) {
    log == [] ||
      var init, last := log[..|log| - 1], log[|log| - 1];
      LogOk(init, start) && last.oldState == StateIn(Replay(init, start), last.shardId)
  }

  ghost predicate Inv(n: Node, start: map<ShardId, MemberRecord>) {
    && ViewOk(n)
    && ProbeOk(n)
    && Healthy(n.backlog, n.members, n.backlogCounter)
    && n.members == Replay(n.log, start)
    && LogOk(n.log, start)
  }

  lemma LogGrows(log: seq<Transition>, t: Transition, start: map<ShardId, MemberRecord>)
    requires LogOk(log, start) && t.oldState == StateIn(Replay(log, start), t.shardId)
    ensures Replay(log + [t], start) == Replay(log, start)[t.shardId := t.newRecord]
    ensures LogOk(log + [t], start)
  {
    assert (log + [t])[..|log|] == log;
  }

  lemma InstallKeeps(n: Node, rec: MemberRecord, now: real, start: map<ShardId, MemberRecord>)
    requires Inv(n, start)
    requires rec.shardId == n.selfId ==> rec.state == Alive
    ensures Inv(Install(n, rec.shardId, rec, now), start)
  {
    var id := rec.shardId;
    var was := if id in n.members then Some(n.members[id].state) else None;
    LogGrows(n.log, Transition(id, was, rec), start);
    EnqueueHealthy(n.backlog, rec, now, n.members, n.backlogCounter);
  }

  lemma WriteKeeps(n: Node, ch: Change, ev: Event, start: map<ShardId, MemberRecord>)
    requires Inv(n, start) && Enabled(n, ch, ev)
    ensures Inv(DoWrite(n, ch, ev), start)
  {
    var rec := Written(n, ch, ev);
    assert rec.shardId == Subject(ch);
    InstallKeeps(n, rec, ev.now, start);
  }

  lemma SendKeeps(c: Conf, e: Emission, ev: Event, start: map<ShardId, MemberRecord>)
    requires Inv(c.node, start) && Sendable(c.node, e, ev)
    ensures Inv(DoSend(c, e, ev).node, start)
  {
    PickHealthy(c.node.backlog, c.node.cfg.kGossip, c.node.members, c.node.backlogCounter);
  }

  lemma BookKeeps(n: Node, b: Booking, ev: Event, start: map<ShardId, MemberRecord>)
    requires Inv(n, start) && Bookable(n, b, ev)
    ensures Inv(DoBook(n, b, ev), start)
  {
    FreshHealthy(n.backlog, ev.now, n.cfg.GcCutoff(), n.members, n.backlogCounter);
  }

  lemma MicroKeeps(c: Conf, m: Micro, ev: Event, start: map<ShardId, MemberRecord>)
    requires Inv(c.node, start) && Can(c, m, ev)
    ensures Inv(Do(c, m, ev).node, start)
  {
    match m
    case Write(ch) => WriteKeeps(c.node, ch, ev, start);
    case Send(e) => SendKeeps(c, e, ev, start);
    case Book(b) => BookKeeps(c.node, b, ev, start);
  }

  /** Every call keeps the invariant, whatever message arrives, Join included. */
  lemma StepKeeps(n: Node, ev: Event, start: map<ShardId, MemberRecord>)
    requires Inv(n, start)
    ensures Inv(Step(n, ev).node, start)
  {
    var P := (c: Conf) => Inv(c.node, start);
    forall c, m | P(c) && Can(c, m, ev) ensures P(Do(c, m, ev)) { MicroKeeps(c, m, ev, start); }
    StepInduction(P, n, ev);
  }

  ghost predicate AsBooted(m: map<ShardId, MemberRecord>, selfId: ShardId, model: string, inc: int) {
    forall id :: id in m ==>
      && m[id].shardId == id && m[id].state == Alive && m[id].modelId == model
      && m[id].incarnation == (if id == selfId then inc else 0)
  }

  lemma {:induction false} BootView(ps: seq<PeerSpec>, selfId: ShardId, model: string, inc: int)
    ensures AsBooted(BootMembers(ps, selfId, model, inc), selfId, model, inc)
    ensures forall i :: 0 <= i < |ps| ==> ps[i].shardId in BootMembers(ps, selfId, model, inc)
  {
    if ps != [] {
      var init, last := ps[..|ps| - 1], ps[|ps| - 1];
      BootView(init, selfId, model, inc);
      var m0, m := BootMembers(init, selfId, model, inc), BootMembers(ps, selfId, model, inc);
      assert m == m0[last.shardId := BootRecord(last, selfId, model, inc)];
      forall i | 0 <= i < |ps| ensures ps[i].shardId in m {
        if i < |init| { assert init[i] == ps[i]; }
      }
    }
  }

  lemma {:induction false} BootOrdered(ps: seq<PeerSpec>, selfId: ShardId, model: string, inc: int)
    ensures forall id :: id in BootMembers(ps, selfId, model, inc) <==> id in BootOrder(ps)
    ensures forall i, j :: 0 <= i < j < |BootOrder(ps)| ==> BootOrder(ps)[i] != BootOrder(ps)[j]
  {
    if ps != [] { BootOrdered(ps[..|ps| - 1], selfId, model, inc); }
  }

  /** A freshly constructed node satisfies the invariant; it knows its own incarnation and 0 for everyone else. */
  lemma BootKeeps(self: PeerSpec, peers: seq<PeerSpec>, cfg: SwimConfig, model: string, inc: int)
    ensures var n := Boot(self, peers, cfg, model, inc);
            Inv(n, n.members) && AsBooted(n.members, self.shardId, model, inc)
  {
    var ps := [self] + peers;
    BootView(ps, self.shardId, model, inc);
    BootOrdered(ps, self.shardId, model, inc);
    assert ps[0] == self;
  }

  /** It knows itself and the given peers and nobody else, waits one ping period, and has its own record to tell exactly
      when its incarnation is positive. */
  lemma BootAsGiven(self: PeerSpec, peers: seq<PeerSpec>, cfg: SwimConfig, model: string, inc: int)
    ensures var n := Boot(self, peers, cfg, model, inc);
            && n.selfId == self.shardId && n.selfIncarnation == inc && n.nextPeriodAt == cfg.PingPeriod()
            && (forall id :: id in n.members <==>
                  id == self.shardId || exists i :: 0 <= i < |peers| && peers[i].shardId == id)
            && n.probe.None? && n.helps == [] && n.log == []
            && RecordsOf(n.backlog) == if inc > 0 then [n.members[self.shardId]] else []
  {
    var ps := [self] + peers;
    BootKeeps(self, peers, cfg, model, inc);
    forall id ensures id in BootMembers(ps, self.shardId, model, inc) <==>
        id == self.shardId || exists i :: 0 <= i < |peers| && peers[i].shardId == id
    {
      BootKeys(ps, self.shardId, model, inc, id);
      assert ps[0] == self;
      assert forall i :: 0 <= i < |peers| ==> ps[i + 1] == peers[i];
      if j :| 0 <= j < |ps| && ps[j].shardId == id && j > 0 { assert peers[j - 1] == ps[j]; }
    }
  }

  lemma {:induction false} BootKeys(ps: seq<PeerSpec>, selfId: ShardId, model: string, inc: int, id: ShardId)
    ensures id in BootMembers(ps, selfId, model, inc) <==> exists i :: 0 <= i < |ps| && ps[i].shardId == id
  {
    if ps != [] {
      var n := |ps| - 1;
      var init := ps[..n];
      BootKeys(init, selfId, model, inc, id);
      assert forall i :: 0 <= i < n ==> init[i] == ps[i];
    }
  }
}
