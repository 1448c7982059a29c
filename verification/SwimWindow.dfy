/**
 The suspicion window must be positive: exactly then no tick leaves a SUSPECT
 member whose deadline has passed. The failing case is shown on a node that
 knows one peer, first directly, then two ticks after boot.
 */
module SwimWindow {
  import opened Common
  import opened Records
  import opened Swim
  import opened SwimInvariants
  import opened SwimTiming

  /** A node that knows one peer and has nothing to answer. */
  ghost predicate Alone(n: Node, a: ShardId, b: ShardId) {
    && a != b && n.selfId == a && n.order == [a, b] && n.members.Keys == {a, b} && n.helps == []
    && n.members[a].state == Alive && n.members[b].state == Alive
  }

  lemma NoHelpers(n: Node, a: ShardId, b: ShardId)
    requires Alone(n, a, b)
    ensures AliveExcept(n, n.order, b) == [] && AliveExcept(n, n.order, a) == [b]
  {
    assert n.order[1..] == [b] && n.order[1..][1..] == [];
    assert AliveExcept(n, [], b) == [] && AliveExcept(n, [], a) == [];
    assert AliveExcept(n, [b], b) == [] && AliveExcept(n, [b], a) == [b];
  }

  /** Before probing, such a node's tick only collects its backlog. */
  lemma AloneCollects(n: Node, ev: Event, a: ShardId, b: ShardId)
    requires ev.Tick? && Alone(n, a, b)
    ensures var c1 := Do(Conf(n, []), Book(Collect), ev);
            && FlushHelps(c1, 0, false, ev) == c1 && PromoteDead(c1, c1.node.order, ev) == c1
            && c1.node == n.(backlog := c1.node.backlog) && c1.out == []
  {
    var c1 := Do(Conf(n, []), Book(Collect), ev);
    assert c1.node.order[1..] == [b] && c1.node.order[1..][1..] == [];
    assert PromoteDead(c1, [], ev) == c1;
    assert PromoteDead(c1, [b], ev) == c1;
  }

  /** A due probe of the only peer makes it SUSPECT, with a deadline one window away. */
  lemma AloneSuspects(n: Node, ev: Event, a: ShardId, b: ShardId)
    requires ev.Tick? && Alone(n, a, b) && n.probe.Some? && n.probe.value.target == b
    requires n.probe.value.indirectSentAt.None?
    requires n.probe.value.sentAt + n.cfg.Timeout() <= ev.now < n.nextPeriodAt
    ensures var r := Step(n, ev).node;
            b in r.members && r.members[b].state == Suspect
                && r.members[b].deadline == Some(ev.now + n.cfg.SuspectWindow())
  {
    AloneCollects(n, ev, a, b);
    var c1 := Do(Conf(n, []), Book(Collect), ev);
    NoHelpers(c1.node, a, b);
    assert Helpers(c1.node, ev) == [];
    assert Enabled(c1.node, Suspecting(b), ev);
    assert Step(n, ev) == EscalateProbe(c1, ev);
  }

  /** A node booted with one peer, before anything happened. */
  ghost function Pair(cfg: SwimConfig): Node {
    Boot(PeerSpec("a", "", 0), [PeerSpec("b", "", 0)], cfg, "", 0)
  }

  lemma PairIsAlone(cfg: SwimConfig)
    ensures Alone(Pair(cfg), "a", "b") && Inv(Pair(cfg), Pair(cfg).members) && Pair(cfg).cfg == cfg
  {
    var a, b := PeerSpec("a", "", 0), PeerSpec("b", "", 0);
    BootKeeps(a, [b], cfg, "", 0);
    var ps := [a] + [b];
    assert ps == [a, b] && ps[..1] == [a] && [a][..0] == [];
    assert BootOrder([]) == [] && BootOrder([a]) == ["a"] && BootOrder(ps) == ["a", "b"];
    assert BootMembers([], "a", "", 0) == map[];
    assert BootMembers([a], "a", "", 0) == map["a" := BootRecord(a, "a", "", 0)];
    assert BootMembers(ps, "a", "", 0) == map["a" := BootRecord(a, "a", "", 0)]["b" := BootRecord(b, "a", "", 0)];
  }

  ghost predicate NeverLate(cfg: SwimConfig) {
    forall n: Node, ev: Event, start, id :: n.cfg == cfg && ev.Tick? && Inv(n, start) ==>
       !Expired(Step(n, ev).node, id, ev.now)
  }

  /** Exactly: with a positive window no tick leaves an expired suspicion, with a zero window some tick does. */
  lemma NoneExpiredIffPositiveWindow(cfg: SwimConfig)
    ensures NeverLate(cfg) <==> cfg.suspectMs > 0
  {
    if cfg.suspectMs > 0 {
      forall n: Node, ev: Event, start, id | n.cfg == cfg && ev.Tick? && Inv(n, start)
        ensures !Expired(Step(n, ev).node, id, ev.now)
      {
        TickLeavesNoneExpired(n, ev, start);
      }
    } else {
      PairIsAlone(cfg);
      var n := Pair(cfg).(probe := Some(Probe(ProbeId("a", 1), "b", 0.0, None, [], 0, false)),
          nextPeriodAt := cfg.Timeout() + 1.0);
      var ev := Tick(cfg.Timeout(), 0, []);
      assert Inv(n, Pair(cfg).members);
      AloneSuspects(n, ev, "a", "b");
      assert Expired(Step(n, ev).node, "b", ev.now);
    }
  }

  /** And it happens in a run: two ticks after booting with one peer, whenever the timeout is shorter than the period.
      */
  lemma ZeroWindowLate(cfg: SwimConfig)
    requires cfg.suspectMs == 0 && 0 < cfg.timeoutMs < cfg.pingMs
    ensures var t := cfg.PingPeriod();
            var n1 := Step(Pair(cfg), Tick(t, 0, [])).node;
            Expired(Step(n1, Tick(t + cfg.Timeout(), 0, [])).node, "b", t + cfg.Timeout())
  {
    PairIsAlone(cfg);
    var n, ev := Pair(cfg), Tick(cfg.PingPeriod(), 0, []);
    AlonePings(n, ev, "a", "b");
    AloneSuspects(Step(n, ev).node, Tick(cfg.PingPeriod() + cfg.Timeout(), 0, []), "a", "b");
  }

  lemma AlonePings(n: Node, ev: Event, a: ShardId, b: ShardId)
    requires ev.Tick? && Alone(n, a, b) && n.probe.None? && ev.now >= n.nextPeriodAt && n.cfg.Timeout() > 0.0
    ensures var r := Step(n, ev).node;
            && Alone(r, a, b) && r.cfg == n.cfg && r.nextPeriodAt == ev.now + n.cfg.PingPeriod() && r.probe.Some?
            && r.probe.value.target == b && r.probe.value.indirectSentAt.None? && r.probe.value.sentAt == ev.now
  {
    AloneCollects(n, ev, a, b);
    var c1 := Do(Conf(n, []), Book(Collect), ev);
    var c2 := Do(c1, Book(ClearProbe), ev);
    NoHelpers(c2.node, a, b);
    assert Sendable(c2.node, StartProbe(b), ev);
    var c3 := DoSend(c2, StartProbe(b), ev);
    assert StartPeriod(c1, ev) == c3;
    assert Step(n, ev) == EscalateProbe(c3, ev) == c3;
  }
}
