/**
 The state machine as the program runs it: one object whose fields are updated
 in place. Every method is proved to move the object exactly as `Swim.Step`
 moves the value `Abs()`, so all run and cluster results hold of the object.
 */
module MembershipMachine {
  import opened Common
  import opened Records
  import opened Backlog
  import opened BacklogLemmas
  import opened Swim
  import opened SwimInvariants

  function WriteIf(n: Node, ch: Change, ev: Event): Node {
    if Enabled(n, ch, ev) then DoWrite(n, ch, ev) else n
  }

  lemma {:induction false} AliveExceptSpec(n: Node, ids: seq<ShardId>, skip: ShardId)
    ensures forall h :: h in AliveExcept(n, ids, skip) ==>
              h in n.members && h != n.selfId && h != skip && n.members[h].state == Alive
  {
    if ids != [] { AliveExceptSpec(n, ids[1..], skip); }
  }

  lemma ShuffleMembership(candidates: seq<ShardId>, draw: seq<ShardId>, h: ShardId)
    requires h in Shuffle(candidates, draw)
    ensures h in candidates
  {
    assert h in multiset(Shuffle(candidates, draw));
  }

  /** One round of the help loop, with the helps already kept in front of those still to look at. */
  lemma FlushHead(n: Node, out: seq<Outgoing>, kept: seq<Help>, todo: seq<Help>, ok: bool, ev: Event)
    requires todo != []
    ensures var here, h := n.(helps := kept + todo), todo[0];
            FlushHelps(Conf(here, out), |kept|, ok, ev)
            == if Sendable(here, ReplyHelp(|kept|, ok), ev) then
                 FlushHelps(Conf(Gossiped(n).(helps := kept + todo[1..]),
                                 out + [Outgoing(h.requester,
                                     PingReqAck(n.selfId, h.target, h.probeId, ok, PiggyBack(n)))]),
                            |kept|, ok, ev)
               else FlushHelps(Conf(n.(helps := (kept + [h]) + todo[1..]), out), |kept + [h]|, ok, ev)
  {
    var here := n.(helps := kept + todo);
    assert here.helps[|kept|] == todo[0];
    assert here.helps[..|kept|] + here.helps[|kept| + 1..] == kept + todo[1..];
    assert kept + todo == (kept + [todo[0]]) + todo[1..];
  }

  predicate Due(cfg: SwimConfig, h: Help, ok: bool, ev: Event) {
    if ok then ev.Recv? && ev.msg.Ack? && h.target == ev.msg.sender
    else ev.Tick? && ev.now >= h.sentAt + cfg.Timeout()
  }

  /** The help loop as the program writes it: answer or keep each help in turn. */
  function AnswerDue(n: Node, out: seq<Outgoing>, kept: seq<Help>, todo: seq<Help>, ok: bool, ev: Event): Conf
    decreases |todo|
  {
    if todo == [] then Conf(n.(helps := kept), out)
    else
      var h := todo[0];
      if Due(n.cfg, h, ok, ev) then
        AnswerDue(Gossiped(n),
                  out + [Outgoing(h.requester, PingReqAck(n.selfId, h.target, h.probeId, ok, PiggyBack(n)))],
                  kept, todo[1..], ok, ev)
      else AnswerDue(n, out, kept + [h], todo[1..], ok, ev)
  }

  lemma {:induction false} AnswerDueIsFlush(n: Node, out: seq<Outgoing>, kept: seq<Help>, todo: seq<Help>, ok: bool,
      ev: Event)
    ensures AnswerDue(n, out, kept, todo, ok, ev) == FlushHelps(Conf(n.(helps := kept + todo), out), |kept|, ok, ev)
    decreases |todo|
  {
    if todo == [] {
      assert kept + todo == kept;
    } else {
      var h := todo[0];
      FlushHead(n, out, kept, todo, ok, ev);
      assert (kept + todo)[|kept|] == h;
      if Due(n.cfg, h, ok, ev) {
        AnswerDueIsFlush(Gossiped(n),
                         out + [Outgoing(h.requester, PingReqAck(n.selfId, h.target, h.probeId, ok, PiggyBack(n)))],
                         kept, todo[1..], ok, ev);
      } else {
        AnswerDueIsFlush(n, out, kept + [h], todo[1..], ok, ev);
      }
    }
  }

  class MembershipState {
    const selfId: ShardId
    const cfg: SwimConfig
    const localModelId: string
    ghost const firstView: map<ShardId, MemberRecord>
    var selfIncarnation: int
    var members: map<ShardId, MemberRecord>
    var order: seq<ShardId>
    var transitions: seq<Transition>
    var nextPeriodAt: real
    var pendingProbe: Option<Probe>
    var probeCounter: nat
    var pendingHelps: seq<Help>
    var backlog: seq<Entry>
    var backlogCounter: nat

    function Abs(): Node
      reads this
    {
      Node(selfId, selfIncarnation, cfg, localModelId, members, order, transitions, nextPeriodAt,
           pendingProbe, probeCounter, pendingHelps, backlog, backlogCounter)
    }

    ghost predicate Valid()
      reads this
    {
      Inv(Abs(), firstView)
    }

    constructor (self: PeerSpec, peers: seq<PeerSpec>, config: SwimConfig, model: string, incarnation: int)
      ensures Abs() == Boot(self, peers, config, model, incarnation)
      ensures Valid() && firstView == members
    {
      var specs := [self] + peers;
      var view: map<ShardId, MemberRecord>, keys: seq<ShardId> := map[], [];
      for i := 0 to |specs|
        invariant view == BootMembers(specs[..i], self.shardId, model, incarnation)
        invariant keys == BootOrder(specs[..i])
      {
        var p := specs[i];
        assert specs[..i + 1][..i] == specs[..i];
        view := view[p.shardId := BootRecord(p, self.shardId, model, incarnation)];
        if p.shardId !in keys { keys := keys + [p.shardId]; }
      }
      assert specs[..|specs|] == specs;
      BootKeeps(self, peers, config, model, incarnation);
      selfId, cfg, localModelId, firstView := self.shardId, config, model, view;
      selfIncarnation, members, order, transitions := incarnation, view, keys, [];
      nextPeriodAt, pendingProbe, probeCounter, pendingHelps := config.PingPeriod(), None, 0, [];
      backlog, backlogCounter := [], 0;
      if incarnation > 0 {
        backlog, backlogCounter := [Entry(view[self.shardId], 0, 0.0, 0)], 1;
      }
    }

    /** Write a record into the view, log the transition, queue the record for gossip. */
    method Record(id: ShardId, rec: MemberRecord, now: real)
      modifies this
      ensures Abs() == Install(old(Abs()), id, rec, now)
    {
      var was := if id in members then Some(members[id].state) else None;
      if id !in members { order := order + [id]; }
      members := members[id := rec];
      transitions := transitions + [Transition(id, was, rec)];
      backlog := Without(backlog, id);
      backlog := backlog + [Entry(rec, 0, now, backlogCounter)];
      backlogCounter := backlogCounter + 1;
    }

    method SelectOutgoingDeltas() returns (deltas: seq<MemberRecord>)
      requires selfId in members
      modifies this
      ensures deltas == PiggyBack(old(Abs())) && Abs() == Gossiped(old(Abs()))
    {
      ghost var sorted := Sorted(backlog);
      deltas := [members[selfId]];
      backlog := Sorted(backlog);
      var k := Min(cfg.kGossip, |backlog|);
      for i := 0 to k
        modifies this`backlog
        invariant |backlog| == |sorted|
        invariant backlog == Bump(sorted, i)
        invariant deltas == [members[selfId]] + RecordsOf(sorted[..i])
      {
        assert RecordsOf(sorted[..i + 1]) == RecordsOf(sorted[..i]) + [sorted[i].record];
        deltas := deltas + [backlog[i].record];
        backlog := backlog[i := backlog[i].(priority := backlog[i].priority + 1)];
      }
      assert Bump(sorted, k) == Bump(sorted, cfg.kGossip);
    }

    // ------------------------------------------------------------ view rules

    predicate Admit(rec: MemberRecord)
      reads this
      ensures Admit(rec) == Admits(Abs(), rec)
    {
      localModelId == "" || rec.modelId == localModelId
    }

    method MarkSuspect(id: ShardId, ev: Event)
      requires id in members && (members[id].state == Alive ==> Enabled(Abs(), Suspecting(id), ev))
      modifies this
      ensures Abs() == WriteIf(old(Abs()), Suspecting(id), ev)
    {
      var prev := members[id];
      if prev.state == Suspect || prev.state == Dead { return; }
      Record(id, prev.(state := Suspect, lastChange := ev.now, deadline := Some(ev.now + cfg.SuspectWindow())), ev.now);
    }

    method MaybePromoteSenderAlive(id: ShardId, incarnation: int, ev: Event)
      requires FromPeer(ev, id, incarnation)
      modifies this
      ensures Abs() == WriteIf(old(Abs()), Promoting(id, incarnation), ev)
    {
      if id == selfId { return; }
      if id !in members { return; }
      var prev := members[id];
      if prev.state == Alive { return; }
      Record(id, prev.(state := Alive, incarnation := Max(prev.incarnation, incarnation),
                       lastChange := ev.now, deadline := None), ev.now);
    }

    method MaybeRefute(d: MemberRecord, ev: Event)
      requires selfId in members && d.shardId == selfId && Carries(ev, d)
      modifies this
      ensures Abs() == WriteIf(old(Abs()), Refuting(d), ev)
    {
      if d.state == Alive { return; }
      if d.incarnation < selfIncarnation { return; }
      selfIncarnation := d.incarnation + 1;
      var prev := members[selfId];
      Record(selfId, prev.(state := Alive, incarnation := selfIncarnation, lastChange := ev.now, deadline := None),
             ev.now);
    }

    method MaybeApplyPeerDelta(d: MemberRecord, ev: Event)
      requires d.shardId in members && d.shardId != selfId && Carries(ev, d)
      modifies this
      ensures Abs() == WriteIf(old(Abs()), Applying(d), ev)
    {
      if !Admit(d) { return; }
      var prev := members[d.shardId];
      if d.incarnation < prev.incarnation { return; }
      if d.incarnation == prev.incarnation && d.state.Severity() <= prev.state.Severity() { return; }
      var deadline := if d.state == Suspect then Some(ev.now + cfg.SuspectWindow()) else None;
      Record(d.shardId, prev.(state := d.state, incarnation := d.incarnation, modelId := d.modelId,
                              lastChange := ev.now, deadline := deadline), ev.now);
    }

    /** Gossiped records: refute those about this node, drop unknown members, apply the rest. */
    method ApplyDeltas(ev: Event)
      requires ev.Recv? && (ev.msg.Ping? || ev.msg.Ack?) && selfId in members
      modifies this
      ensures forall out :: Conf(Abs(), out) == ApplyAll(Conf(old(Abs()), out), ev.msg.deltas, ev)
    {
      var ds := ev.msg.deltas;
      for i := 0 to |ds|
        invariant selfId in members
        invariant forall out :: ApplyAll(Conf(Abs(), out), ds[i..], ev) == ApplyAll(Conf(old(Abs()), out), ds, ev)
      {
        assert ds[i..][0] == ds[i] && ds[i..][1..] == ds[i + 1..];
        ApplyDelta(ds[i], ev);
      }
    }

    method ApplyDelta(d: MemberRecord, ev: Event)
      requires ev.Recv? && (ev.msg.Ping? || ev.msg.Ack?) && selfId in members && d in ev.msg.deltas
      modifies this
      ensures selfId in members
      ensures forall out :: Conf(Abs(), out) == ApplyOne(Conf(old(Abs()), out), d, ev)
    {
      if d.shardId == selfId {
        MaybeRefute(d, ev);
      } else if d.shardId in members {
        MaybeApplyPeerDelta(d, ev);
      }
    }

    /** Bulk records answering a Join: unknown members that pass admission are installed as they are. */
    method HandleDelta(ev: Event)
      requires ev.Recv? && ev.msg.MembershipDelta? && selfId in members
      modifies this
      ensures Conf(Abs(), []) == ApplyAll(Conf(old(Abs()), []), ev.msg.deltas, ev)
    {
      var ds := ev.msg.deltas;
      for i := 0 to |ds|
        invariant selfId in members
        invariant ApplyAll(Conf(Abs(), []), ds[i..], ev) == ApplyAll(Conf(old(Abs()), []), ds, ev)
      {
        var d := ds[i];
        assert ds[i..][0] == d && ds[i..][1..] == ds[i + 1..];
        if d.shardId == selfId {
          MaybeRefute(d, ev);
        } else if d.shardId !in members {
          if Admit(d) { Record(d.shardId, d, ev.now); }
        } else {
          MaybeApplyPeerDelta(d, ev);
        }
      }
    }

    // ------------------------------------------------------------------ tick

    method MaybeTimeoutHelps(ev: Event) returns (out: seq<Outgoing>)
      requires ev.Tick? && selfId in members
      modifies this
      ensures Conf(Abs(), out) == FlushHelps(Conf(old(Abs()), []), 0, false, ev)
    {
      var helps, remaining: seq<Help> := pendingHelps, [];
      out := [];
      assert [] + helps == helps;
      AnswerDueIsFlush(Abs(), [], [], helps, false, ev);
      for i := 0 to |helps|
        invariant selfId in members && pendingHelps == helps
        invariant AnswerDue(Abs(), out, remaining, helps[i..], false, ev)
               == AnswerDue(old(Abs()), [], [], helps, false, ev)
      {
        var h := helps[i];
        assert helps[i..][0] == h && helps[i..][1..] == helps[i + 1..];
        if ev.now >= h.sentAt + cfg.Timeout() {
          var deltas := SelectOutgoingDeltas();
          out := out + [Outgoing(h.requester, PingReqAck(selfId, h.target, h.probeId, false, deltas))];
        } else {
          remaining := remaining + [h];
        }
      }
      pendingHelps := remaining;
    }

    method MaybePromoteDead(ev: Event, out: seq<Outgoing>)
      requires forall i :: 0 <= i < |order| ==> order[i] in members
      requires forall i, j :: 0 <= i < j < |order| ==> order[i] != order[j]
      modifies this
      ensures Conf(Abs(), out) == PromoteDead(Conf(old(Abs()), out), old(order), ev)
    {
      var ids, view := order, members;
      for i := 0 to |ids|
        invariant forall j :: i <= j < |ids| ==> ids[j] in members && members[ids[j]] == view[ids[j]]
        invariant PromoteDead(Conf(Abs(), out), ids[i..], ev) == PromoteDead(Conf(old(Abs()), out), ids, ev)
      {
        var rec := view[ids[i]];
        ghost var here := Abs();
        assert ids[i..][0] == ids[i] && ids[i..][1..] == ids[i + 1..];
        assert PromoteDead(Conf(here, out), ids[i..], ev)
            == PromoteDead(Conf(WriteIf(here, Dying(ids[i]), ev), out), ids[i + 1..], ev);
        if rec.state == Suspect && rec.deadline.Some? && ev.now >= rec.deadline.value {
          Record(ids[i], rec.(state := Dead, lastChange := ev.now, deadline := None), ev.now);
        }
      }
    }

    method BeginProbe(target: ShardId, ev: Event, out0: seq<Outgoing>) returns (out: seq<Outgoing>)
      requires selfId in members && Sendable(Abs(), StartProbe(target), ev)
      modifies this
      ensures Conf(Abs(), out) == DoSend(Conf(old(Abs()), out0), StartProbe(target), ev)
    {
      probeCounter := probeCounter + 1;
      pendingProbe := Some(Probe(ProbeId(selfId, probeCounter), target, ev.now, None, [], 0, false));
      nextPeriodAt := ev.now + cfg.PingPeriod();
      var deltas := SelectOutgoingDeltas();
      out := out0 + [Outgoing(target, Ping(selfId, selfIncarnation, deltas))];
    }

    /** The period ended: an escalated probe without success makes its target suspect. */
    method CloseProbe(ev: Event)
      requires ev.Tick? && ProbeOk(Abs())
      modifies this
      ensures Abs() == (if old(pendingProbe).Some? && old(pendingProbe).value.indirectSentAt.Some?
                           && !old(pendingProbe).value.successSeen
                        then WriteIf(old(Abs()), Suspecting(old(pendingProbe).value.target), ev)
                        else old(Abs())).(probe := None)
    {
      if pendingProbe.Some? && pendingProbe.value.indirectSentAt.Some? && !pendingProbe.value.successSeen {
        MarkSuspect(pendingProbe.value.target, ev);
      }
      pendingProbe := None;
    }

    method StartProtocolPeriod(ev: Event, out0: seq<Outgoing>) returns (out: seq<Outgoing>)
      requires ev.Tick? && selfId in members && ProbeOk(Abs())
      modifies this
      ensures Conf(Abs(), out) == StartPeriod(Conf(old(Abs()), out0), ev)
    {
      CloseProbe(ev);
      var candidates := AliveExcept(Abs(), order, selfId);
      if candidates == [] {
        nextPeriodAt := ev.now + cfg.PingPeriod();
        return out0;
      }
      AliveExceptSpec(Abs(), order, selfId);
      out := BeginProbe(candidates[ev.pick % |candidates|], ev, out0);
    }

    /** One PingReq per chosen helper. */
    method AskHelpers(probe: Probe, chosen: seq<ShardId>, ev: Event, out0: seq<Outgoing>) returns (out: seq<Outgoing>)
      requires ev.Tick? && selfId in members && pendingProbe == Some(probe)
      requires forall h :: h in chosen ==> h in members && h != selfId && members[h].state == Alive
      modifies this
      ensures Conf(Abs(), out) == AskAll(Conf(old(Abs()), out0), chosen, ev)
      ensures Abs() == old(Abs()).(backlog := backlog)
    {
      out := out0;
      ghost var n0 := Abs();
      for i := 0 to |chosen|
        invariant Abs() == n0.(backlog := backlog)
        invariant AskAll(Conf(Abs(), out), chosen[i..], ev) == AskAll(Conf(n0, out0), chosen, ev)
      {
        var helper := chosen[i];
        assert chosen[i..][0] == helper && chosen[i..][1..] == chosen[i + 1..] && helper in chosen;
        var deltas := SelectOutgoingDeltas();
        out := out + [Outgoing(helper, PingReq(selfId, probe.target, probe.probeId, deltas))];
      }
    }

    method MaybeEscalateProbe(ev: Event, out0: seq<Outgoing>) returns (out: seq<Outgoing>)
      requires ev.Tick? && selfId in members && ProbeOk(Abs())
      modifies this
      ensures Conf(Abs(), out) == EscalateProbe(Conf(old(Abs()), out0), ev)
    {
      out := out0;
      if pendingProbe.None? || pendingProbe.value.indirectSentAt.Some? { return; }
      var probe := pendingProbe.value;
      if ev.now < probe.sentAt + cfg.Timeout() { return; }
      var shuffled := Shuffle(AliveExcept(Abs(), order, probe.target), ev.shuffled);
      var chosen := shuffled[..Min(cfg.kIndirect, |shuffled|)];
      out := Escalate(probe, chosen, ev, out);
    }

    /** A due probe with its helpers drawn: ask them, or suspect the target when there are none. */
    method Escalate(probe: Probe, chosen: seq<ShardId>, ev: Event, out0: seq<Outgoing>) returns (out: seq<Outgoing>)
      requires ev.Tick? && selfId in members && ProbeOk(Abs()) && pendingProbe == Some(probe)
      requires probe.indirectSentAt.None? && ev.now >= probe.sentAt + cfg.Timeout() && chosen == Helpers(Abs(), ev)
      modifies this
      ensures Conf(Abs(), out) == EscalateProbe(Conf(old(Abs()), out0), ev)
    {
      out := out0;
      if chosen == [] {
        MarkSuspect(probe.target, ev);
        pendingProbe := None;
      } else {
        HelpersAlive(Abs(), ev);
        out := AskHelpers(probe, chosen, ev, out);
        pendingProbe := Some(probe.(indirectSentAt := Some(ev.now), helpers := chosen));
      }
    }

    method Tick(now: real, pick: nat, shuffled: seq<ShardId>) returns (out: seq<Outgoing>)
      requires Valid()
      modifies this
      ensures Valid()
      ensures Conf(Abs(), out) == Step(old(Abs()), Event.Tick(now, pick, shuffled))
    {
      var ev := Event.Tick(now, pick, shuffled);
      ghost var n0 := Abs();
      StepKeeps(n0, ev, firstView);
      CollectStage(n0, ev, firstView);
      backlog := Fresh(backlog, now, cfg.GcCutoff());
      FlushStage(Conf(Abs(), []), ev, firstView);
      out := MaybeTimeoutHelps(ev);
      DeadStage(Conf(Abs(), out), ev, firstView);
      MaybePromoteDead(ev, out);
      if now >= nextPeriodAt {
        PeriodStage(Conf(Abs(), out), ev, firstView);
        out := StartProtocolPeriod(ev, out);
      }
      out := MaybeEscalateProbe(ev, out);
    }

    // ------------------------------------------------------------------ recv

    method HandlePing(ev: Event) returns (out: seq<Outgoing>)
      requires ev.Recv? && ev.msg.Ping? && selfId in members
      modifies this
      ensures Conf(Abs(), out) == Swim.HandlePing(Conf(old(Abs()), []), ev)
    {
      out := [];
      if ev.msg.sender !in members { return; }
      MaybePromoteSenderAlive(ev.msg.sender, ev.msg.senderIncarnation, ev);
      ghost var n1 := Abs();
      ApplyDeltas(ev);
      MembersStay(n1, ev.msg.deltas, ev);
      var deltas := SelectOutgoingDeltas();
      out := [Outgoing(ev.msg.sender, Ack(selfId, selfIncarnation, deltas))];
    }

    method HandleAck(ev: Event) returns (out: seq<Outgoing>)
      requires ev.Recv? && ev.msg.Ack? && selfId in members
      modifies this
      ensures Conf(Abs(), out) == Swim.HandleAck(Conf(old(Abs()), []), ev)
    {
      if pendingProbe.Some? && pendingProbe.value.target == ev.msg.sender { pendingProbe := None; }
      MaybePromoteSenderAlive(ev.msg.sender, ev.msg.senderIncarnation, ev);
      ghost var n1 := Abs();
      ApplyDeltas(ev);
      MembersStay(n1, ev.msg.deltas, ev);
      out := AnswerHelps(ev);
    }

    /** Positive answers for every pending help whose target this Ack came from. */
    method AnswerHelps(ev: Event) returns (out: seq<Outgoing>)
      requires ev.Recv? && ev.msg.Ack? && selfId in members
      modifies this
      ensures Conf(Abs(), out) == FlushHelps(Conf(old(Abs()), []), 0, true, ev)
    {
      var helps, remaining: seq<Help> := pendingHelps, [];
      out := [];
      assert [] + helps == helps;
      AnswerDueIsFlush(Abs(), [], [], helps, true, ev);
      for i := 0 to |helps|
        invariant selfId in members && pendingHelps == helps
        invariant AnswerDue(Abs(), out, remaining, helps[i..], true, ev)
               == AnswerDue(old(Abs()), [], [], helps, true, ev)
      {
        var h := helps[i];
        assert helps[i..][0] == h && helps[i..][1..] == helps[i + 1..];
        if h.target == ev.msg.sender {
          var deltas := SelectOutgoingDeltas();
          out := out + [Outgoing(h.requester, PingReqAck(selfId, h.target, h.probeId, true, deltas))];
        } else {
          remaining := remaining + [h];
        }
      }
      pendingHelps := remaining;
    }

    method HandlePingReq(ev: Event) returns (out: seq<Outgoing>)
      requires ev.Recv? && ev.msg.PingReq? && selfId in members
      modifies this
      ensures Conf(Abs(), out) == Try(Conf(old(Abs()), []), Send(AcceptHelp), ev)
    {
      out := [];
      if ev.msg.target !in members { return; }
      pendingHelps := pendingHelps + [Help(ev.msg.probeId, ev.msg.target, ev.msg.sender, ev.now)];
      var deltas := SelectOutgoingDeltas();
      out := [Outgoing(ev.msg.target, Ping(selfId, selfIncarnation, deltas))];
    }

    method HandlePingReqAck(ev: Event)
      requires ev.Recv? && ev.msg.PingReqAck? && ProbeOk(Abs())
      modifies this
      ensures Conf(Abs(), []) == Swim.HandlePingReqAck(Conf(old(Abs()), []), ev)
    {
      if pendingProbe.None? || pendingProbe.value.probeId != ev.msg.probeId { return; }
      var probe := pendingProbe.value;
      if ev.msg.success {
        pendingProbe := None;
        return;
      }
      if probe.nacks + 1 >= |probe.helpers| && !probe.successSeen {
        MarkSuspect(probe.target, ev);
        pendingProbe := None;
      } else {
        pendingProbe := Some(probe.(nacks := probe.nacks + 1));
      }
    }

    method HandleJoin(ev: Event) returns (out: seq<Outgoing>)
      requires ev.Recv? && ev.msg.Join?
      modifies this
      ensures Conf(Abs(), out) == Swim.HandleJoin(Conf(old(Abs()), []), ev)
    {
      var rec := ev.msg.newcomer;
      out := [];
      if !Admit(rec) { return; }
      if rec.shardId in members && members[rec.shardId].state == Dead
         && members[rec.shardId].incarnation > rec.incarnation {
        out := [Outgoing(rec.shardId, MembershipDelta(Values(Abs(), order)))];
      } else {
        Record(rec.shardId, rec.(state := Alive, lastChange := ev.now, deadline := None), ev.now);
        out := [Outgoing(rec.shardId, MembershipDelta(Values(Abs(), order)))];
      }
    }

    method Recv(msg: Message, now: real) returns (out: seq<Outgoing>)
      requires Valid()
      modifies this
      ensures Valid()
      ensures Conf(Abs(), out) == Step(old(Abs()), Event.Recv(msg, now))
    {
      var ev := Event.Recv(msg, now);
      StepKeeps(Abs(), ev, firstView);
      match msg {
        case Ping(_, _, _) => out := HandlePing(ev);
        case Ack(_, _, _) => out := HandleAck(ev);
        case PingReq(_, _, _, _) => out := HandlePingReq(ev);
        case PingReqAck(_, _, _, _, _) => HandlePingReqAck(ev); out := [];
        case Join(_) => out := HandleJoin(ev);
        case MembershipDelta(_) => HandleDelta(ev); out := [];
      }
    }

    // -------------------------------------------------------- read-only API

    method View() returns (view: map<ShardId, MemberRecord>)
      requires Valid()
      ensures view == Replay(transitions, firstView)
    {
      view := members;
    }

    method ChangesSince(watermark: nat) returns (changes: seq<Transition>)
      ensures changes == if watermark <= |transitions| then transitions[watermark..] else []
    {
      changes := if watermark <= |transitions| then transitions[watermark..] else [];
    }
  }

  /** Applying deltas never forgets a member and never renames the node. */
  lemma MembersStay(n: Node, ds: seq<MemberRecord>, ev: Event)
    ensures var r := ApplyAll(Conf(n, []), ds, ev).node;
            n.members.Keys <= r.members.Keys && r.selfId == n.selfId
  {
    var P := (c: Conf) => n.members.Keys <= c.node.members.Keys && c.node.selfId == n.selfId;
    assert Closed(P, ev);
    ApplyAllInduction(P, Conf(n, []), ds, ev);
  }

  /** Chosen helpers are other members, ALIVE. */
  lemma HelpersAlive(n: Node, ev: Event)
    requires ev.Tick? && n.probe.Some?
    ensures forall h :: h in Helpers(n, ev) ==> h in n.members && h != n.selfId && n.members[h].state == Alive
  {
    var candidates := AliveExcept(n, n.order, n.probe.value.target);
    AliveExceptSpec(n, n.order, n.probe.value.target);
    forall h | h in Helpers(n, ev) ensures h in candidates {
      assert h in Shuffle(candidates, ev.shuffled);
      ShuffleMembership(candidates, ev.shuffled, h);
    }
  }

  // ------------------------------------- the invariant between tick's stages

  lemma InvClosed(ev: Event, start: map<ShardId, MemberRecord>)
    ensures Closed((c: Conf) => Inv(c.node, start), ev)
  {
    var P := (c: Conf) => Inv(c.node, start);
    forall c, m | P(c) && Can(c, m, ev) ensures P(Do(c, m, ev)) { MicroKeeps(c, m, ev, start); }
  }

  lemma CollectStage(n: Node, ev: Event, start: map<ShardId, MemberRecord>)
    requires Inv(n, start)
    ensures Inv(DoBook(n, Collect, ev), start)
  {
    BookKeeps(n, Collect, ev, start);
  }

  lemma FlushStage(c: Conf, ev: Event, start: map<ShardId, MemberRecord>)
    requires Inv(c.node, start)
    ensures Inv(FlushHelps(c, 0, false, ev).node, start)
  {
    InvClosed(ev, start);
    FlushInduction((c: Conf) => Inv(c.node, start), c, 0, false, ev);
  }

  lemma DeadStage(c: Conf, ev: Event, start: map<ShardId, MemberRecord>)
    requires Inv(c.node, start)
    ensures Inv(PromoteDead(c, c.node.order, ev).node, start)
  {
    InvClosed(ev, start);
    PromoteDeadInduction((c: Conf) => Inv(c.node, start), c, c.node.order, ev);
  }

  lemma PeriodStage(c: Conf, ev: Event, start: map<ShardId, MemberRecord>)
    requires ev.Tick? && Inv(c.node, start)
    ensures Inv(StartPeriod(c, ev).node, start)
  {
    InvClosed(ev, start);
    StartPeriodInduction((c: Conf) => Inv(c.node, start), c, ev);
  }
}
