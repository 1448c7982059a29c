/**
 How the view of one node moves: incarnations only fall when a Join lowers
 them, foreign model ids never get in, and applied deltas settle at the
 lexicographic maximum of (incarnation, state) whatever the delivery order.
 */
module SwimView {
  import opened Common
  import opened Records
  import opened Swim
  import opened SwimInvariants

  function Incarnation(n: Node, id: ShardId): int {
    if id in n.members then n.members[id].incarnation else 0
  }

  /** The one event that can lower what a node records about a peer. */
  ghost predicate LoweringJoin(n: Node, ev: Event, id: ShardId) {
    && ev.Recv? && ev.msg.Join? && ev.msg.newcomer.shardId == id
    && Admits(n, ev.msg.newcomer)
    && id in n.members && n.members[id].state != Dead
    && ev.msg.newcomer.incarnation < n.members[id].incarnation
  }

  ghost predicate AtLeast(n: Node, id: ShardId, floor: int) {
    id != n.selfId && id in n.members && n.members[id].incarnation >= floor
  }

  lemma MicroRaises(c: Conf, m: Micro, ev: Event, id: ShardId, floor: int)
    requires AtLeast(c.node, id, floor) && Can(c, m, ev)
    requires !(ev.Recv? && ev.msg.Join?)
    ensures AtLeast(Do(c, m, ev).node, id, floor)
  {
  }

  /** A recorded peer incarnation falls exactly on an admitted Join below it that meets no DEAD floor. */
  lemma IncarnationFallsIffLoweringJoin(n: Node, ev: Event, id: ShardId)
    requires id in n.members && id != n.selfId
    ensures id in Step(n, ev).node.members
    ensures Incarnation(Step(n, ev).node, id) < Incarnation(n, id) <==> LoweringJoin(n, ev, id)
  {
    if ev.Recv? && ev.msg.Join? {
      var c := Conf(n, []);
      var c1 := Try(c, Write(Joining(ev.msg.newcomer)), ev);
      assert Try(c1, Send(EchoView), ev).node.members == c1.node.members;
    } else {
      var floor := n.members[id].incarnation;
      var P := (c: Conf) => AtLeast(c.node, id, floor);
      forall c, m | P(c) && Can(c, m, ev) ensures P(Do(c, m, ev)) { MicroRaises(c, m, ev, id, floor); }
      StepInduction(P, n, ev);
    }
  }

  /** It happens: a booted node hears a peer at 5, then the peer joins at 0. */
  lemma JoinLowers(self: PeerSpec, peer: PeerSpec, cfg: SwimConfig, model: string, now: real)
    requires self.shardId != peer.shardId
    ensures var rec := BootRecord(peer, self.shardId, model, 0);
            var n1 := Step(Boot(self, [peer], cfg, model, 0),
                Recv(MembershipDelta([rec.(incarnation := 5)]), now)).node;
            Incarnation(n1, peer.shardId) == 5 && Incarnation(Step(n1, Recv(Join(rec), now)).node, peer.shardId) == 0
  {
    var n, rec := Boot(self, [peer], cfg, model, 0), BootRecord(peer, self.shardId, model, 0);
    BootKeeps(self, [peer], cfg, model, 0);
    BootView([self] + [peer], self.shardId, model, 0);
    assert ([self] + [peer])[1] == peer;
    var d := rec.(incarnation := 5);
    var ev := Recv(MembershipDelta([d]), now);
    assert Enabled(n, Applying(d), ev);
    assert ApplyAll(Conf(n, []), [d], ev) == ApplyOne(Conf(n, []), d, ev);
  }

  // ------------------------------------------------------------- admission

  ghost predicate OneModel(n: Node, model: string) {
    n.modelId == model && forall id :: id in n.members ==> n.members[id].modelId == model
  }

  /** With a local model id set, no record of another model ever enters the view. */
  lemma ForeignModelsStayOut(n: Node, ev: Event, model: string)
    requires model != "" && OneModel(n, model)
    ensures OneModel(Step(n, ev).node, model)
  {
    var P := (c: Conf) => OneModel(c.node, model);
    forall c, m | P(c) && Can(c, m, ev) ensures P(Do(c, m, ev)) {
      if m.Write? {
        assert Written(c.node, m.change, ev).modelId == model;
      }
    }
    StepInduction(P, n, ev);
  }

  // ---------------------------------------------------------- convergence

  /** (incarnation, severity) as one number; severity is below three. */
  function Rank(r: MemberRecord): int { 3 * r.incarnation + r.state.Severity() }

  lemma RankIsLexicographic(d: MemberRecord, prev: MemberRecord)
    ensures Outranks(d, prev) <==> Rank(d) > Rank(prev)
    ensures Rank(d) == Rank(prev) <==> d.incarnation == prev.incarnation && d.state == prev.state
  {
    assert d.state.Severity() <= 2 && prev.state.Severity() <= 2;
  }

  predicate Relevant(n: Node, d: MemberRecord, id: ShardId) { d.shardId == id && Admits(n, d) }

  /** The largest rank among a starting rank and the admitted deltas about `id`. */
  function TopRank(n: Node, ds: seq<MemberRecord>, id: ShardId, base: int): int
    decreases |ds|
  {
    if ds == [] then base
    else TopRank(n, ds[1..], id, if Relevant(n, ds[0], id) then Max(base, Rank(ds[0])) else base)
  }

  lemma {:induction false} TopRankIsMaximum(n: Node, ds: seq<MemberRecord>, id: ShardId, base: int)
    ensures TopRank(n, ds, id, base) >= base
    ensures forall d :: d in ds && Relevant(n, d, id) ==> TopRank(n, ds, id, base) >= Rank(d)
    ensures TopRank(n, ds, id, base) == base
            || exists d :: d in ds && Relevant(n, d, id) && TopRank(n, ds, id, base) == Rank(d)
    decreases |ds|
  {
    if ds != [] {
      TopRankIsMaximum(n, ds[1..], id, if Relevant(n, ds[0], id) then Max(base, Rank(ds[0])) else base);
    }
  }

  lemma {:induction false} TopRankAppend(n: Node, ds: seq<MemberRecord>, es: seq<MemberRecord>, id: ShardId, base: int)
    ensures TopRank(n, ds + es, id, base) == TopRank(n, es, id, TopRank(n, ds, id, base))
    decreases |ds|
  {
    if ds == [] {
      assert ds + es == es;
    } else {
      assert (ds + es)[1..] == ds[1..] + es;
      TopRankAppend(n, ds[1..], es, id, if Relevant(n, ds[0], id) then Max(base, Rank(ds[0])) else base);
    }
  }

  lemma {:induction false} ApplyAllReachesTop(c: Conf, ds: seq<MemberRecord>, ev: Event, id: ShardId)
    requires id in c.node.members && id != c.node.selfId
    requires forall d :: d in ds ==> Carries(ev, d)
    ensures var r := ApplyAll(c, ds, ev);
            && r.node.selfId == c.node.selfId && r.node.modelId == c.node.modelId && id in r.node.members
            && Rank(r.node.members[id]) == TopRank(c.node, ds, id, Rank(c.node.members[id]))
    decreases |ds|
  {
    if ds != [] {
      var c1 := ApplyOne(c, ds[0], ev);
      if ds[0].shardId == id { RankIsLexicographic(ds[0], c.node.members[id]); }
      assert Rank(c1.node.members[id])
          == (if Relevant(c.node, ds[0], id) then Max(Rank(c.node.members[id]), Rank(ds[0]))
              else Rank(c.node.members[id]));
      ApplyAllReachesTop(c1, ds[1..], ev, id);
      TopRankSameModel(c.node, c1.node, ds[1..], id, Rank(c1.node.members[id]));
    }
  }

  lemma {:induction false} TopRankSameModel(n: Node, n': Node, ds: seq<MemberRecord>, id: ShardId, base: int)
    requires n.modelId == n'.modelId
    ensures TopRank(n, ds, id, base) == TopRank(n', ds, id, base)
    decreases |ds|
  {
    if ds != [] {
      TopRankSameModel(n, n', ds[1..], id, if Relevant(n, ds[0], id) then Max(base, Rank(ds[0])) else base);
    }
  }

  function Run(n: Node, evs: seq<Event>): Node
    decreases |evs|
  {
    if evs == [] then n else Run(Step(n, evs[0]).node, evs[1..])
  }

  ghost predicate OnlyDeltas(evs: seq<Event>) {
    forall i :: 0 <= i < |evs| ==> evs[i].Recv? && evs[i].msg.MembershipDelta?
  }

  function AllDeltas(evs: seq<Event>): seq<MemberRecord>
    requires OnlyDeltas(evs)
    decreases |evs|
  {
    if evs == [] then [] else evs[0].msg.deltas + AllDeltas(evs[1..])
  }

  lemma {:induction false} RunReachesTop(n: Node, evs: seq<Event>, id: ShardId)
    requires id in n.members && id != n.selfId && OnlyDeltas(evs)
    ensures id in Run(n, evs).members
    ensures Rank(Run(n, evs).members[id]) == TopRank(n, AllDeltas(evs), id, Rank(n.members[id]))
    decreases |evs|
  {
    if evs != [] {
      var ds := evs[0].msg.deltas;
      ApplyAllReachesTop(Conf(n, []), ds, evs[0], id);
      var n1 := Step(n, evs[0]).node;
      RunReachesTop(n1, evs[1..], id);
      TopRankSameModel(n, n1, AllDeltas(evs[1..]), id, Rank(n1.members[id]));
      TopRankAppend(n, ds, AllDeltas(evs[1..]), id, Rank(n.members[id]));
    }
  }

  /** Two deliveries of the same set of records, in any order, batching, multiplicity and timing,
      leave the same incarnation and state for every known peer. */
  lemma DeliveryOrderIrrelevant(n: Node, evs: seq<Event>, evs': seq<Event>, id: ShardId)
    requires id in n.members && id != n.selfId && OnlyDeltas(evs) && OnlyDeltas(evs')
    requires forall d :: d in AllDeltas(evs) <==> d in AllDeltas(evs')
    ensures id in Run(n, evs).members && id in Run(n, evs').members
    ensures Run(n, evs).members[id].incarnation == Run(n, evs').members[id].incarnation
    ensures Run(n, evs).members[id].state == Run(n, evs').members[id].state
  {
    RunReachesTop(n, evs, id);
    RunReachesTop(n, evs', id);
    TopRankIsMaximum(n, AllDeltas(evs), id, Rank(n.members[id]));
    TopRankIsMaximum(n, AllDeltas(evs'), id, Rank(n.members[id]));
    RankIsLexicographic(Run(n, evs).members[id], Run(n, evs').members[id]);
  }
}
