/**
 A run in which b's own record does not win. Node c hears b at incarnation 1
 and tells a; a probes b, gets no answer and suspects it; the same message of
 c's arrives a second time, and a still holds b as not ALIVE.
 */
module SwimAccusation {
  import opened Common
  import opened Records
  import opened Backlog
  import opened Swim
  import opened SwimInvariants
  import opened SwimView
  import opened SwimCluster
  import opened SwimRefutation

  // ------------------------------------------------------------ quiet nodes

  /** Everyone is ALIVE and nothing is owed. */
  ghost predicate Serene(n: Node) {
    n.selfId in n.members && n.helps == [] && forall id :: id in n.members ==> n.members[id].state == Alive
  }

  lemma {:induction false} NoDeaths(c: Conf, ids: seq<ShardId>, ev: Event)
    requires forall id :: id in c.node.members ==> c.node.members[id].state == Alive
    ensures PromoteDead(c, ids, ev) == c
    decreases |ids|
  {
    if ids != [] { NoDeaths(c, ids[1..], ev); }
  }

  lemma TickStarts(n: Node, ev: Event)
    requires ev.Tick? && Serene(n)
    ensures var c := Conf(n.(backlog := Fresh(n.backlog, ev.now, n.cfg.GcCutoff())), []);
            Step(n, ev) == EscalateProbe(if ev.now >= n.nextPeriodAt then StartPeriod(c, ev) else c, ev)
  {
    var c := Do(Conf(n, []), Book(Collect), ev);
    NoDeaths(c, c.node.order, ev);
    assert FlushHelps(c, 0, false, ev) == c;
  }

  /** What a tick that begins a period sends and leaves. */
  ghost predicate Pinged(n: Node, n': Node, out: seq<Outgoing>, now: real, t: ShardId) {
    && out == [Outgoing(t, Ping(n.selfId, n.selfIncarnation,
                                PiggyBack(n.(backlog := Fresh(n.backlog, now, n.cfg.GcCutoff())))))]
    && n'.members == n.members && n'.order == n.order && n'.selfId == n.selfId && n'.cfg == n.cfg && n'.helps == n.helps
    && n'.selfIncarnation == n.selfIncarnation && n'.modelId == n.modelId && n'.nextPeriodAt == now + n.cfg.PingPeriod()
    && n'.probe.Some? && n'.probe.value.target == t && n'.probe.value.sentAt == now
    && n'.probe.value.indirectSentAt.None?
  }

  lemma PeriodPings(n: Node, ev: Event, t: ShardId)
    requires ev.Tick? && Serene(n) && n.probe.None? && ev.now >= n.nextPeriodAt && n.cfg.Timeout() > 0.0
    requires t in n.members && t != n.selfId && ev.pick == 0
    requires AliveExcept(n, n.order, n.selfId) != [] && AliveExcept(n, n.order, n.selfId)[0] == t
    ensures Pinged(n, Step(n, ev).node, Step(n, ev).out, ev.now, t)
  {
    TickStarts(n, ev);
    var c := Conf(n.(backlog := Fresh(n.backlog, ev.now, n.cfg.GcCutoff())), []);
    var c1 := Do(c, Book(ClearProbe), ev);
    SameCandidates(n, c1.node, n.order, n.selfId);
    assert c1.node.probe.None? && Sendable(c1.node, StartProbe(t), ev);
    assert StartPeriod(c, ev) == DoSend(c1, StartProbe(t), ev);
  }

  lemma {:induction false} SameCandidates(n: Node, n': Node, ids: seq<ShardId>, skip: ShardId)
    requires n'.members == n.members && n'.selfId == n.selfId
    ensures AliveExcept(n', ids, skip) == AliveExcept(n, ids, skip)
  {
    if ids != [] { SameCandidates(n, n', ids[1..], skip); }
  }

  /** Without indirect probing, a due probe makes its target SUSPECT at the incarnation recorded. */
  lemma DueSuspects(n: Node, ev: Event, t: ShardId)
    requires ev.Tick? && Serene(n) && n.cfg.kIndirect == 0 && t in n.members && t != n.selfId
    requires n.probe.Some? && n.probe.value.target == t && n.probe.value.indirectSentAt.None?
    requires n.probe.value.sentAt + n.cfg.Timeout() <= ev.now < n.nextPeriodAt
    ensures var r := Step(n, ev).node;
            && r.selfId == n.selfId && r.modelId == n.modelId && r.members.Keys == n.members.Keys
            && r.members[t].state == Suspect && r.members[t].incarnation == n.members[t].incarnation
  {
    TickStarts(n, ev);
    var c := Conf(n.(backlog := Fresh(n.backlog, ev.now, n.cfg.GcCutoff())), []);
    assert Helpers(c.node, ev) == [];
    assert Enabled(c.node, Suspecting(t), ev);
  }

  /** A Ping with nothing but good news leaves a quiet node quiet. */
  lemma GoodNews(n: Node, ev: Event)
    requires Serene(n) && n.probe.None? && ev.Recv? && ev.msg.Ping?
    requires forall d :: d in ev.msg.deltas ==> d.state == Alive
    ensures var r := Step(n, ev).node;
            && Serene(r) && r.probe.None? && r.nextPeriodAt == n.nextPeriodAt && r.cfg == n.cfg && r.order == n.order
            && r.selfId == n.selfId && r.members.Keys == n.members.Keys && r.modelId == n.modelId
            && r.selfIncarnation == n.selfIncarnation
  {
    var P := (c: Conf) =>
      && Serene(c.node) && c.node.probe.None? && c.node.nextPeriodAt == n.nextPeriodAt && c.node.cfg == n.cfg
      && c.node.order == n.order && c.node.selfId == n.selfId && c.node.members.Keys == n.members.Keys
      && c.node.modelId == n.modelId && c.node.selfIncarnation == n.selfIncarnation;
    assert Closed(P, ev);
    StepInduction(P, n, ev);
  }

  // --------------------------------------------------------- hearing one record

  lemma {:induction false} StaleIgnored(c: Conf, ds: seq<MemberRecord>, ev: Event, d: MemberRecord)
    requires d.shardId in c.node.members && d.shardId != c.node.selfId && !Outranks(d, c.node.members[d.shardId])
    requires forall i :: 0 <= i < |ds| ==> ds[i] == d
    ensures ApplyAll(c, ds, ev) == c
    decreases |ds|
  {
    if ds != [] { StaleIgnored(c, ds[1..], ev, d); }
  }

  /** A Ping that says one new thing about b: the receiver records it and has it, and nothing else, to gossip. */
  lemma HearsOne(n: Node, ev: Event, d: MemberRecord)
    requires Serene(n) && n.backlog == [] && ev.Recv? && ev.msg.Ping? && ev.msg.deltas != []
    requires forall i :: 0 <= i < |ev.msg.deltas| ==> ev.msg.deltas[i] == d
    requires ev.msg.sender in n.members && d.state == Alive && d.shardId in n.members && d.shardId != n.selfId
    requires Admits(n, d) && Outranks(d, n.members[d.shardId])
    ensures var r := Step(n, ev).node;
            && d.shardId in r.members && |r.backlog| == 1 && r.backlog[0].enqueuedAt == ev.now
            && r.backlog[0].record == r.members[d.shardId]
            && r.members[d.shardId] == n.members[d.shardId].(state := Alive, incarnation := d.incarnation,
                 modelId := d.modelId, lastChange := ev.now, deadline := None)
  {
    var c, ds := Conf(n, []), ev.msg.deltas;
    assert ds[0] in ds;
    assert Enabled(n, Applying(d), ev);
    var c1 := ApplyOne(c, d, ev);
    StaleIgnored(c1, ds[1..], ev, d);
    assert ApplyAll(c, ds, ev) == c1;
    var e := Entry(c1.node.members[d.shardId], 0, ev.now, n.backlogCounter);
    assert c1.node.backlog == [e];
    assert Sorted([e]) == [e] by { assert [e][1..] == []; }
    assert Step(n, ev) == DoSend(c1, ReplyAck, ev);
  }

  // ----------------------------------------------------------------- the run

  const Cfg: SwimConfig := SwimConfig(1000, 500, 1000, 0, 1)

  function Spec(id: ShardId): PeerSpec { PeerSpec(id, "", 0) }

  ghost function Booting(x: ShardId, y: ShardId, z: ShardId, inc: int): Node {
    Boot(Spec(x), [Spec(y), Spec(z)], Cfg, "", inc)
  }

  lemma BootsSerene(x: ShardId, y: ShardId, z: ShardId, inc: int)
    requires x != y && y != z && x != z
    ensures var n := Booting(x, y, z, inc);
            && Serene(n) && n.members.Keys == {x, y, z} && n.order == [x, y, z] && n.selfId == x && n.modelId == ""
            && n.selfIncarnation == inc && n.probe.None? && n.nextPeriodAt == 1.0 && n.cfg == Cfg
            && n.members[x] == BootRecord(Spec(x), x, "", inc)
            && n.members[y] == BootRecord(Spec(y), x, "", inc) && n.members[z] == BootRecord(Spec(z), x, "", inc)
            && n.backlog == if inc > 0 then [Entry(n.members[x], 0, 0.0, 0)] else []
  {
    var a, b, c := Spec(x), Spec(y), Spec(z);
    var ps := [a] + [b, c];
    assert ps == [a, b, c] && ps[..2] == [a, b] && [a, b][..1] == [a] && [a][..0] == [];
    assert BootOrder([]) == [] && BootOrder([a]) == [x] && BootOrder([a, b]) == [x, y] && BootOrder(ps) == [x, y, z];
    assert BootMembers([], x, "", inc) == map[];
    assert BootMembers([a], x, "", inc) == map[x := BootRecord(a, x, "", inc)];
    assert BootMembers([a, b], x, "", inc) == map[x := BootRecord(a, x, "", inc)][y := BootRecord(b, x, "", inc)];
    assert BootMembers(ps, x, "", inc)
        == map[x := BootRecord(a, x, "", inc)][y := BootRecord(b, x, "", inc)][z := BootRecord(c, x, "", inc)];
  }

  /** The first candidate of a node that lists itself first is the next in its order. */
  lemma FirstCandidate(n: Node, x: ShardId, y: ShardId, z: ShardId)
    requires Serene(n) && n.order == [x, y, z] && n.selfId == x && y in n.members && y != x
    ensures AliveExcept(n, n.order, x) != [] && AliveExcept(n, n.order, x)[0] == y
  {
    assert n.order[1..] == [y, z] && [y, z][0] == y;
    assert AliveExcept(n, n.order, x) == AliveExcept(n, [y, z], x);
  }

  const Own: MemberRecord := MemberRecord("b", "", 0, Alive, 1, "", 0.0, None)
  const OwnOfC: MemberRecord := MemberRecord("c", "", 0, Alive, 0, "", 0.0, None)

  /** b tells c about itself; c tells a about itself and b. */
  const FromB: Packet := Packet("c", Ping("b", 1, [Own, Own]))
  const FromC: Packet := Packet("a", Ping("c", 0, [OwnOfC, Own]))

  ghost function Start(): Cluster {
    Cluster(map["a" := Booting("a", "b", "c", 0), "b" := Booting("b", "c", "a", 1),
                "c" := Booting("c", "a", "b", 0)], {})
  }

  lemma BootedBy(c: Cluster, x: ShardId, y: ShardId, z: ShardId, inc: int)
    requires inc >= 0 && x != y && y != z && x != z && c.nodes.Keys == {x, y, z} && c.nodes[x] == Booting(x, y, z, inc)
    ensures BootedNode(c, x)
  {
    BootsSerene(x, y, z, inc);
    var self, peers := Spec(x), [Spec(y), Spec(z)];
    assert self.shardId == x && c.nodes[x] == Boot(self, peers, Cfg, "", inc);
  }

  lemma StartIsBooted()
    ensures Booted(Start())
  {
    BootedBy(Start(), "a", "b", "c", 0);
    BootedBy(Start(), "b", "c", "a", 1);
    BootedBy(Start(), "c", "a", "b", 0);
  }

  /** b has not changed its mind about itself. */
  ghost predicate Steadfast(c: Cluster) {
    && c.nodes.Keys == {"a", "b", "c"} && "b" in c.nodes["b"].members && c.nodes["b"].members["b"] == Own
    && c.nodes["b"].selfIncarnation == 1
  }

  lemma BTicks(n: Node)
    requires n == Booting("b", "c", "a", 1)
    ensures Pinged(n, Step(n, Tick(1.0, 0, [])).node, Step(n, Tick(1.0, 0, [])).out, 1.0, "c")
    ensures "b" in n.members && n.members["b"] == Own && n.selfIncarnation == 1 && n.selfId == "b"
    ensures PiggyBack(n.(backlog := Fresh(n.backlog, 1.0, n.cfg.GcCutoff()))) == [Own, Own]
  {
    BootsSerene("b", "c", "a", 1);
    FirstCandidate(n, "b", "c", "a");
    PeriodPings(n, Tick(1.0, 0, []), "c");
    var e := Entry(Own, 0, 0.0, 0);
    assert n.backlog == [e] && Fresh([e], 1.0, 3.0) == [e] by { assert [e][1..] == []; }
    GossipsOne(n.(backlog := [e]), e);
  }

  lemma BSpeaks(c: Cluster, r: Conf)
    requires c == Start() && Pinged(c.nodes["b"], r.node, r.out, 1.0, "c")
    requires r.out == [Outgoing("c", Ping("b", 1, [Own, Own]))] && r.node.members["b"] == Own
    requires r.node.selfIncarnation == 1
    ensures Steadfast(Moved(c, "b", r)) && FromB in Moved(c, "b", r).net
    ensures Moved(c, "b", r).nodes["a"] == c.nodes["a"] && Moved(c, "b", r).nodes["c"] == c.nodes["c"]
  {
    assert WireAll([Own, Own]) == [Own, Own];
    SentAlone(c, "b", r, "c", "b", 1, [Own, Own], [Own, Own]);
  }

  /** The one message of a step is under way, as the wire carries it. */
  lemma SentAlone(c: Cluster, id: ShardId, r: Conf, t: ShardId, from: ShardId, inc: int, said: seq<MemberRecord>,
                  ds: seq<MemberRecord>)
    requires r.out == [Outgoing(t, Ping(from, inc, said))] && WireAll(said) == ds
    ensures Packet(t, Ping(from, inc, ds)) in Moved(c, id, r).net
  {
    assert Packet(r.out[0].target, WireMessage(r.out[0].payload)) in Packets(r.out);
  }

  /** With one entry queued, a message carries the own record and that entry. */
  lemma GossipsOne(n: Node, e: Entry)
    requires n.selfId in n.members && n.backlog == [e] && n.cfg.kGossip == 1
    ensures PiggyBack(n) == [n.members[n.selfId], e.record]
  {
    assert Sorted([e]) == [e] by { assert [e][1..] == []; }
    assert RecordsOf([e]) == [e.record];
  }

  /** After c has heard b. */
  ghost predicate CKnows(n: Node) {
    && Serene(n) && n.probe.None? && n.nextPeriodAt == 1.0 && n.cfg == Cfg && n.order == ["c", "a", "b"]
    && n.selfId == "c"
    && n.members.Keys == {"a", "b", "c"} && n.selfIncarnation == 0 && n.members["c"] == OwnOfC
    && |n.backlog| == 1 && n.backlog[0].enqueuedAt == 1.0 && OnWire(n.backlog[0].record) == Own
  }

  lemma CHears(n: Node)
    requires n == Booting("c", "a", "b", 0)
    ensures CKnows(Step(n, Recv(FromB.msg, 1.0)).node)
  {
    BootsSerene("c", "a", "b", 0);
    var ev := Recv(FromB.msg, 1.0);
    GoodNews(n, ev);
    HearsOne(n, ev, Own);
    CKeepsItself(n, ev);
  }

  /** News about another leaves a node's own record as it was. */
  lemma CKeepsItself(n: Node, ev: Event)
    requires Serene(n) && n.probe.None? && ev.Recv? && ev.msg.Ping?
    requires forall d :: d in ev.msg.deltas ==> d.state == Alive
    ensures n.selfId in Step(n, ev).node.members && Step(n, ev).node.members[n.selfId] == n.members[n.selfId]
  {
    var P := (c: Conf) =>
      && Serene(c.node) && c.node.probe.None? && c.node.selfId == n.selfId
      && c.node.members[n.selfId] == n.members[n.selfId];
    assert Closed(P, ev);
    StepInduction(P, n, ev);
  }

  lemma CHearsB(c: Cluster)
    requires Steadfast(c) && FromB in c.net && c.nodes["c"] == Booting("c", "a", "b", 0)
    ensures var c' := Act(c, Deliver(FromB, 1.0));
            Steadfast(c') && CKnows(c'.nodes["c"]) && c'.nodes["a"] == c.nodes["a"]
  {
    CHears(c.nodes["c"]);
    var r := Delivered(c, FromB, 1.0);
  }

  lemma CTicks(n: Node)
    requires CKnows(n)
    ensures Pinged(n, Step(n, Tick(1.0, 0, [])).node, Step(n, Tick(1.0, 0, [])).out, 1.0, "a")
    ensures WireAll(PiggyBack(n.(backlog := Fresh(n.backlog, 1.0, n.cfg.GcCutoff())))) == [OwnOfC, Own]
  {
    FirstCandidate(n, "c", "a", "b");
    PeriodPings(n, Tick(1.0, 0, []), "a");
    var e := n.backlog[0];
    assert n.backlog == [e] && Fresh([e], 1.0, 3.0) == [e] by { assert [e][1..] == []; }
    GossipsOne(n.(backlog := [e]), e);
  }

  lemma CSpeaks(c: Cluster)
    requires Steadfast(c) && CKnows(c.nodes["c"])
    ensures var c' := Act(c, TickAt("c", 1.0, 0, []));
            Steadfast(c') && FromC in c'.net && c'.nodes["a"] == c.nodes["a"]
  {
    var n := c.nodes["c"];
    CTicks(n);
    var r := Stepped(c, "c", Tick(1.0, 0, []));
    SentAlone(c, "c", r, "a", "c", 0, r.out[0].payload.deltas, [OwnOfC, Own]);
  }

  /** After a has heard c. */
  ghost predicate AKnows(n: Node) {
    && Serene(n) && n.probe.None? && n.nextPeriodAt == 1.0 && n.cfg == Cfg && n.order == ["a", "b", "c"]
    && n.selfId == "a"
    && n.members.Keys == {"a", "b", "c"} && n.modelId == "" && n.members["b"].incarnation == 1
  }

  lemma AHears(n: Node)
    requires n == Booting("a", "b", "c", 0)
    ensures AKnows(Step(n, Recv(FromC.msg, 1.0)).node)
  {
    BootsSerene("a", "b", "c", 0);
    var ev := Recv(FromC.msg, 1.0);
    GoodNews(n, ev);
    assert ev.msg.deltas[1] == Own;
    OwnRecordArrives(n, ev, "b", Own);
  }

  lemma AHearsC(c: Cluster)
    requires Steadfast(c) && FromC in c.net && c.nodes["a"] == Booting("a", "b", "c", 0)
    ensures var c' := Act(c, Deliver(FromC, 1.0)); Steadfast(c') && AKnows(c'.nodes["a"]) && FromC in c'.net
  {
    AHears(c.nodes["a"]);
    var r := Delivered(c, FromC, 1.0);
  }

  /** a has pinged b and waits. */
  ghost predicate AWaits(n: Node) {
    && Serene(n) && n.cfg == Cfg && n.selfId == "a" && n.members.Keys == {"a", "b", "c"} && n.modelId == ""
    && n.members["b"].incarnation == 1 && n.nextPeriodAt == 2.0 && n.probe.Some? && n.probe.value.target == "b"
    && n.probe.value.indirectSentAt.None? && n.probe.value.sentAt == 1.0
  }

  lemma AProbesB(c: Cluster)
    requires Steadfast(c) && FromC in c.net && AKnows(c.nodes["a"])
    ensures var c' := Act(c, TickAt("a", 1.0, 0, [])); Steadfast(c') && AWaits(c'.nodes["a"]) && FromC in c'.net
  {
    var n, ev := c.nodes["a"], Tick(1.0, 0, []);
    FirstCandidate(n, "a", "b", "c");
    PeriodPings(n, ev, "b");
    var r := Stepped(c, "a", ev);
  }

  lemma ASuspectsB(c: Cluster)
    requires Steadfast(c) && FromC in c.net && AWaits(c.nodes["a"])
    ensures var c' := Act(c, TickAt("a", 1.5, 0, []));
            && Steadfast(c') && BringsOwn(c', FromC, "b") && "b" in c'.nodes["a"].members
            && c'.nodes["a"].members["b"].state == Suspect && c'.nodes["a"].members["b"].incarnation == 1
  {
    var ev := Tick(1.5, 0, []);
    DueSuspects(c.nodes["a"], ev, "b");
    var r := Stepped(c, "a", ev);
    assert FromC.msg.deltas[1] == Own;
  }

  ghost function Script(): seq<Action> {
    [TickAt("b", 1.0, 0, []), Deliver(FromB, 1.0), TickAt("c", 1.0, 0, []), Deliver(FromC, 1.0),
     TickAt("a", 1.0, 0, []), TickAt("a", 1.5, 0, [])]
  }

  lemma ActsOne(c: Cluster, acts: seq<Action>, i: nat)
    requires i < |acts|
    ensures Acts(c, acts[..i + 1]) == Act(Acts(c, acts[..i]), acts[i])
  {
    assert acts[..i + 1][..i] == acts[..i];
  }

  /** The cluster after the first i actions. */
  ghost function At(i: nat): Cluster
    requires i <= 6
  {
    Acts(Start(), Script()[..i])
  }

  lemma AtNext(i: nat)
    requires i < 6
    ensures At(i + 1) == Act(At(i), Script()[i])
  {
    ActsOne(Start(), Script(), i);
  }

  lemma At1()
    ensures Steadfast(At(1)) && FromB in At(1).net
    ensures At(1).nodes["a"] == Booting("a", "b", "c", 0) && At(1).nodes["c"] == Booting("c", "a", "b", 0)
  {
    AtNext(0);
    BTicks(Start().nodes["b"]);
    var r := Stepped(Start(), "b", Tick(1.0, 0, []));
    BSpeaks(Start(), r);
  }

  lemma At2()
    ensures Steadfast(At(2)) && CKnows(At(2).nodes["c"]) && At(2).nodes["a"] == Booting("a", "b", "c", 0)
  {
    At1();
    AtNext(1);
    CHearsB(At(1));
  }

  lemma At3()
    ensures Steadfast(At(3)) && FromC in At(3).net && At(3).nodes["a"] == Booting("a", "b", "c", 0)
  {
    At2();
    AtNext(2);
    CSpeaks(At(2));
  }

  lemma At4()
    ensures Steadfast(At(4)) && AKnows(At(4).nodes["a"]) && FromC in At(4).net
  {
    At3();
    AtNext(3);
    AHearsC(At(3));
  }

  lemma At5()
    ensures Steadfast(At(5)) && AWaits(At(5).nodes["a"]) && FromC in At(5).net
  {
    At4();
    AtNext(4);
    AProbesB(At(4));
  }

  lemma At6()
    ensures BringsOwn(At(6), FromC, "b") && Steadfast(At(6)) && "b" in At(6).nodes["a"].members
    ensures At(6).nodes["a"].members["b"].state == Suspect && At(6).nodes["a"].members["b"].incarnation == 1
  {
    At5();
    AtNext(5);
    ASuspectsB(At(5));
  }

  /** From boot, in a cluster where a then suspects b at b's own incarnation, b's record arrives and does not win. */
  lemma OwnRecordLoses()
    ensures Booted(Start()) && BringsOwn(Acts(Start(), Script()), FromC, "b")
    ensures var n := Act(Acts(Start(), Script()), Deliver(FromC, 2.0)).nodes["a"];
            "b" in n.members && n.members["b"].incarnation == 1 && n.members["b"].state != Alive
  {
    StartIsBooted();
    At6();
    assert Script()[..6] == Script();
    RefutationWins(Start(), Script(), FromC, 2.0, "b");
  }
}
