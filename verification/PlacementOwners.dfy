/**
 What a node says about its own experts over whole runs: its ownership view
 and its gossip follow the experts it really holds, and a pull that can be
 served ends with the expert in place.
 */
module PlacementOwners {
  import opened Common
  import opened Transport
  import opened Ownership
  import opened ExpertStack
  import opened Placement

  predicate Live<T>(s: Site<T>, layer: int, e: int) { layer in s.live && e in s.live[layer] }

  // ------------------------------------------------------------ the clock

  /** The timestamps an action puts on what it says about its own node. */
  function Stamps(a: Action): set<int> {
    match a
    case Finish(_, ts, announced, again) => {ts, announced, again}
    case Evict(_, _, _, ts, announced) => {ts, announced}
    case _ => {}
  }

  /** Everything node id has stamped so far. */
  ghost function Stamped(acts: seq<Action>, id: ShardId): set<int> {
    set i, t | 0 <= i < |acts| && acts[i].node == id && t in Stamps(acts[i]) :: t
  }

  /** Each node's clock moves between two of its own announcements. */
  ghost predicate Clocked(acts: seq<Action>) {
    forall i, j, s, t ::
      0 <= i < j < |acts| && acts[i].node == acts[j].node && s in Stamps(acts[i]) && t in Stamps(acts[j]) ==> s < t
  }

  lemma ClockedInit(acts: seq<Action>)
    requires acts != [] && Clocked(acts)
    ensures var init, a := acts[..|acts| - 1], acts[|acts| - 1];
            && Clocked(init)
            && (forall s, t :: s in Stamped(init, a.node) && t in Stamps(a) ==> s < t)
            && Stamped(acts, a.node) == Stamped(init, a.node) + Stamps(a)
            && forall id :: id != a.node ==> Stamped(acts, id) == Stamped(init, id)
  {
    var n := |acts| - 1;
    var init, a := acts[..n], acts[n];
    assert forall i :: 0 <= i < n ==> init[i] == acts[i];
    forall s, t | s in Stamped(init, a.node) && t in Stamps(a) ensures s < t {
      var i :| 0 <= i < n && init[i].node == a.node && s in Stamps(init[i]);
      assert acts[i] == init[i];
    }
    forall id ensures Stamped(acts, id) == Stamped(init, id) + if id == a.node then Stamps(a) else {} {
      StampedMore(init, a, id);
      assert acts == init + [a];
    }
  }

  lemma StampedMore(init: seq<Action>, a: Action, id: ShardId)
    ensures Stamped(init + [a], id) == Stamped(init, id) + if id == a.node then Stamps(a) else {}
  {
    var all := init + [a];
    assert all[|init|] == a;
    assert forall i :: 0 <= i < |init| ==> all[i] == init[i];
    forall t | t in Stamped(init, id) ensures t in Stamped(all, id) {
      var i :| 0 <= i < |init| && init[i].node == id && t in Stamps(init[i]);
      assert all[i].node == id && t in Stamps(all[i]);
    }
    forall t | id == a.node && t in Stamps(a) ensures t in Stamped(all, id) {
      assert all[|init|].node == id && t in Stamps(all[|init|]);
    }
  }

  // -------------------------------------------------------- a node's own row

  /** The row says ADD exactly for a held expert; whatever the node gossiped later than its row says the same; and all
      of it was stamped by the node. */
  ghost predicate RowOk<T>(s: Site<T>, g: set<Delta>, id: ShardId, layer: int, e: int, boot: Boot, stamps: set<int>) {
    var k := Key(id, layer, e);
    && (Live(s, layer, e) <==> k in s.view && s.view[k].action == 0)
    && (k in s.view && !Bootstrapped(boot, id, layer, e) ==> s.view[k].ts in stamps)
    && forall d :: d in g && d.key == k ==>
         k in s.view && d.ts in stamps && (d.ts > s.view[k].ts ==> d.action == s.view[k].action)
  }

  lemma RowSame<T>(s: Site<T>, s': Site<T>, g: set<Delta>, g': set<Delta>, id: ShardId, layer: int, e: int, boot: Boot,
                   stamps: set<int>, stamps': set<int>)
    requires RowOk(s, g, id, layer, e, boot, stamps) && stamps <= stamps'
    requires Live(s', layer, e) <==> Live(s, layer, e)
    requires Key(id, layer, e) in s'.view <==> Key(id, layer, e) in s.view
    requires Key(id, layer, e) in s.view ==> s'.view[Key(id, layer, e)] == s.view[Key(id, layer, e)]
    requires forall d :: d in g' && d.key == Key(id, layer, e) ==> d in g
    ensures RowOk(s', g', id, layer, e, boot, stamps')
  {}

  /** An own announcement with a newer stamp. */
  lemma RowMoves<T>(s: Site<T>, s': Site<T>, g: set<Delta>, g': set<Delta>, id: ShardId, layer: int, e: int, boot: Boot,
                    stamps: set<int>, stamps': set<int>, action: int, ts: int)
    requires RowOk(s, g, id, layer, e, boot, stamps) && stamps <= stamps' && ts in stamps'
    requires (forall t :: t in stamps ==> t < ts) && !Bootstrapped(boot, id, layer, e)
    requires s'.view == Put(s.view, Delta(Key(id, layer, e), action, ts))
    requires Live(s', layer, e) <==> action == 0
    requires forall d :: d in g' && d.key == Key(id, layer, e) && d !in g ==> d.action == action && d.ts in stamps'
    ensures RowOk(s', g', id, layer, e, boot, stamps')
  {}

  lemma RowHears<T>(s: Site<T>, g: set<Delta>, id: ShardId, layer: int, e: int, boot: Boot, stamps: set<int>, d: Delta)
    requires RowOk(s, g, id, layer, e, boot, stamps) && d in g
    ensures RowOk(s.(view := Put(s.view, d)), g, id, layer, e, boot, stamps)
  {}

  ghost predicate OwnRows<T>(s: Site<T>, g: set<Delta>, id: ShardId, boot: Boot, stamps: set<int>) {
    forall layer, e :: RowOk(s, g, id, layer, e, boot, stamps)
  }

  // ------------------------------------------------- what an action changes

  /** Expert e of the layer was put in place (action 0) or dropped (action 1) at node id, and its own row and the gossip
      were told so. */
  ghost predicate Took<T>(c: Cluster<T>, c': Cluster<T>, id: ShardId, layer: int, e: int, action: int, ts: int,
                          told: set<int>) {
    && id in c.sites && id in c'.sites && layer in c.sites[id].live
    && Live(c.sites[id], layer, e) == (action == 1) && c'.sites[id].pull.None?
    && var held := c.sites[id].live[layer];
    && c'.sites[id].live == c.sites[id].live[layer := if action == 0 then held + {e} else held - {e}]
    && c'.sites[id].view == Put(c.sites[id].view, Delta(Key(id, layer, e), action, ts))
    && c'.gossip == c.gossip + set t | t in told :: Delta(Key(id, layer, e), action, t)
  }

  ghost predicate Quiet<T>(c: Cluster<T>, c': Cluster<T>, id: ShardId) {
    id in c.sites && id in c'.sites && c'.sites[id].live == c.sites[id].live && c'.gossip == c.gossip
  }

  /** A pull that was answered is finished: the expert is in place and announced. */
  lemma FinishTakes<T(!new)>(codec: Codec<T>, c: Cluster<T>, a: Action, boot: Boot, full: map<int, seq<seq<T>>>)
    requires a.Finish? && a.node in c.sites && SiteOk(codec, c.sites[a.node], a.node, boot, full)
    ensures var s := c.sites[a.node];
            if s.pull.Some? && s.pull.value.reply.Some?
            then Took(c, Act(codec, c, a), a.node, s.pull.value.layer, s.pull.value.expert, 0, a.ts,
                      {a.announced, a.again})
            else Act(codec, c, a) == c
  {
    var id, s := a.node, c.sites[a.node];
    var c' := Act(codec, c, a);
    if s.pull.Some? && s.pull.value.reply.Some? {
      FinishOk(codec, s, id, a.ts, boot, full);
      var k := Key(id, s.pull.value.layer, s.pull.value.expert);
      var told := set t | t in {a.announced, a.again} :: Delta(k, 0, t);
      assert told == {Delta(k, 0, a.announced), Delta(k, 0, a.again)};
    } else {
      assert c.sites[id := s] == c.sites;
    }
  }

  /** An expert that may be evicted is dropped and the drop is announced; any other eviction changes nothing. */
  lemma EvictTakes<T(!new)>(codec: Codec<T>, c: Cluster<T>, a: Action, boot: Boot, full: map<int, seq<seq<T>>>)
    requires a.Evict? && a.node in c.sites && SiteOk(codec, c.sites[a.node], a.node, boot, full)
    ensures if Evictable(c.sites[a.node], a.layer, a.victim)
            then Took(c, Act(codec, c, a), a.node, a.layer, a.victim, 1, a.ts, {a.announced})
            else Act(codec, c, a) == c
  {
    var id, s := a.node, c.sites[a.node];
    if Evictable(s, a.layer, a.victim) {
      EvictOk(codec, s, id, a.layer, a.victim, a.ts, boot, full);
      OtherOwnerKnown(codec, s, id, a.layer, a.victim, boot, full);
      var k := Key(id, a.layer, a.victim);
      assert (set t | t in {a.announced} :: Delta(k, 1, t)) == {Delta(k, 1, a.announced)};
    } else {
      assert c.sites[id := s] == c.sites;
    }
  }

  lemma HearPuts<T>(codec: Codec<T>, c: Cluster<T>, a: Action)
    requires a.Hear? && a.node in c.sites
    ensures var c' := Act(codec, c, a);
            && Quiet(c, c', a.node)
            && c'.sites[a.node].view
               == if a.delta in c.gossip then Put(c.sites[a.node].view, a.delta) else c.sites[a.node].view
  {}

  lemma PullOnly<T>(codec: Codec<T>, c: Cluster<T>, a: Action)
    requires (a.Select? || a.Serve? || a.Abort?) && a.node in c.sites
    ensures Quiet(c, Act(codec, c, a), a.node) && Act(codec, c, a).sites[a.node].view == c.sites[a.node].view
  {}

  lemma OthersStay<T>(codec: Codec<T>, c: Cluster<T>, a: Action, id: ShardId)
    requires id in c.sites && id != a.node
    ensures id in Act(codec, c, a).sites && Act(codec, c, a).sites[id] == c.sites[id]
    ensures forall d :: d in Act(codec, c, a).gossip && d.key.shard == id ==> d in c.gossip
  {}

  // ------------------------------------------------------------ preservation

  lemma TookRows<T>(c: Cluster<T>, c': Cluster<T>, id: ShardId, layer: int, e: int, action: int, ts: int,
                    told: set<int>, boot: Boot, stamps: set<int>, more: set<int>)
    requires Took(c, c', id, layer, e, action, ts, told) && (action == 0 || action == 1)
    requires OwnRows(c.sites[id], c.gossip, id, boot, stamps) && !Bootstrapped(boot, id, layer, e)
    requires ts in more && told <= more && forall t, u :: t in stamps && u in more ==> t < u
    ensures OwnRows(c'.sites[id], c'.gossip, id, boot, stamps + more)
  {
    var s, s' := c.sites[id], c'.sites[id];
    forall l, x ensures RowOk(s', c'.gossip, id, l, x, boot, stamps + more) {
      assert RowOk(s, c.gossip, id, l, x, boot, stamps);
      if l == layer && x == e {
        RowMoves(s, s', c.gossip, c'.gossip, id, l, x, boot, stamps, stamps + more, action, ts);
      } else {
        RowSame(s, s', c.gossip, c'.gossip, id, l, x, boot, stamps, stamps + more);
      }
    }
  }

  lemma ActorRows<T(!new)>(codec: Codec<T>, c: Cluster<T>, a: Action, boot: Boot, full: map<int, seq<seq<T>>>,
                           stamps: set<int>)
    requires a.node in c.sites && SiteOk(codec, c.sites[a.node], a.node, boot, full)
    requires OwnRows(c.sites[a.node], c.gossip, a.node, boot, stamps)
    requires forall t, u :: t in stamps && u in Stamps(a) ==> t < u
    ensures var c' := Act(codec, c, a); OwnRows(c'.sites[a.node], c'.gossip, a.node, boot, stamps + Stamps(a))
  {
    var id, s, c' := a.node, c.sites[a.node], Act(codec, c, a);
    if a.Finish? && s.pull.Some? && s.pull.value.reply.Some? {
      FinishTakes(codec, c, a, boot, full);
      var p := s.pull.value;
      NotBootstrapped(codec, s, id, p.layer, p.expert, boot, full);
      TookRows(c, c', id, p.layer, p.expert, 0, a.ts, {a.announced, a.again}, boot, stamps, Stamps(a));
    } else if a.Evict? && Evictable(s, a.layer, a.victim) {
      EvictTakes(codec, c, a, boot, full);
      TookRows(c, c', id, a.layer, a.victim, 1, a.ts, {a.announced}, boot, stamps, Stamps(a));
    } else {
      StillRows(codec, c, a, boot, full, stamps);
    }
  }

  lemma NotBootstrapped<T>(codec: Codec<T>, s: Site<T>, id: ShardId, layer: int, e: int, boot: Boot,
                           full: map<int, seq<seq<T>>>)
    requires SiteOk(codec, s, id, boot, full) && !Live(s, layer, e)
    ensures !Bootstrapped(boot, id, layer, e)
  {
    assert layer in s.bootstrap ==> LayerOk(s, layer, boot, full);
  }

  lemma StillRows<T(!new)>(codec: Codec<T>, c: Cluster<T>, a: Action, boot: Boot, full: map<int, seq<seq<T>>>,
                           stamps: set<int>)
    requires a.node in c.sites && SiteOk(codec, c.sites[a.node], a.node, boot, full)
    requires OwnRows(c.sites[a.node], c.gossip, a.node, boot, stamps)
    requires a.Finish? ==> c.sites[a.node].pull.None? || c.sites[a.node].pull.value.reply.None?
    requires a.Evict? ==> !Evictable(c.sites[a.node], a.layer, a.victim)
    ensures var c' := Act(codec, c, a); OwnRows(c'.sites[a.node], c'.gossip, a.node, boot, stamps + Stamps(a))
  {
    var id, s, c' := a.node, c.sites[a.node], Act(codec, c, a);
    if a.Finish? { FinishTakes(codec, c, a, boot, full); }
    if a.Evict? { EvictTakes(codec, c, a, boot, full); }
    if a.Hear? { HearPuts(codec, c, a); }
    if a.Select? || a.Serve? || a.Abort? { PullOnly(codec, c, a); }
    forall l, x ensures RowOk(c'.sites[id], c'.gossip, id, l, x, boot, stamps + Stamps(a)) {
      assert RowOk(s, c.gossip, id, l, x, boot, stamps);
      if a.Hear? && a.delta in c.gossip {
        RowHears(s, c.gossip, id, l, x, boot, stamps, a.delta);
        RowSame(s.(view := Put(s.view, a.delta)), c'.sites[id], c.gossip, c'.gossip, id, l, x, boot, stamps,
                stamps + Stamps(a));
      } else {
        RowSame(s, c'.sites[id], c.gossip, c'.gossip, id, l, x, boot, stamps, stamps + Stamps(a));
      }
    }
  }

  ghost predicate AllRows<T>(c: Cluster<T>, boot: Boot, acts: seq<Action>) {
    forall id :: id in c.sites ==> OwnRows(c.sites[id], c.gossip, id, boot, Stamped(acts, id))
  }

  /** At the start a node's own rows are those of its bootstrap experts. */
  ghost predicate StaticRows<T>(c: Cluster<T>, boot: Boot) {
    forall id, k :: id in c.sites && k in c.sites[id].view && k.shard == id ==>
      Bootstrapped(boot, id, k.layer, k.expert)
  }

  lemma InitialRows<T>(codec: Codec<T>, c: Cluster<T>, boot: Boot, full: map<int, seq<seq<T>>>)
    requires Initial(codec, c, boot, full) && StaticRows(c, boot)
    ensures AllRows(c, boot, [])
  {
    forall id | id in c.sites ensures OwnRows(c.sites[id], c.gossip, id, boot, Stamped([], id)) {
      var s := c.sites[id];
      assert InitialSite(s, id, boot, full);
      forall l, e ensures RowOk(s, c.gossip, id, l, e, boot, Stamped([], id)) {
        assert l in s.live || l in s.bootstrap ==> InitialLayer(s, l, full);
        assert Live(s, l, e) <==> Bootstrapped(boot, id, l, e);
      }
    }
  }

  lemma ActRows<T(!new)>(codec: Codec<T>, c: Cluster<T>, a: Action, boot: Boot, full: map<int, seq<seq<T>>>,
                         acts: seq<Action>)
    requires acts != [] && acts[|acts| - 1] == a && Clocked(acts)
    requires Placed(codec, c, boot, full) && AllRows(c, boot, acts[..|acts| - 1])
    ensures AllRows(Act(codec, c, a), boot, acts)
  {
    ClockedInit(acts);
    var init, c' := acts[..|acts| - 1], Act(codec, c, a);
    forall id | id in c'.sites ensures OwnRows(c'.sites[id], c'.gossip, id, boot, Stamped(acts, id)) {
      if id == a.node && a.node in c.sites {
        ActorRows(codec, c, a, boot, full, Stamped(init, id));
      } else {
        OthersStay(codec, c, a, id);
        forall l, e ensures RowOk(c'.sites[id], c'.gossip, id, l, e, boot, Stamped(acts, id)) {
          assert RowOk(c.sites[id], c.gossip, id, l, e, boot, Stamped(init, id));
          RowSame(c.sites[id], c'.sites[id], c.gossip, c'.gossip, id, l, e, boot, Stamped(init, id), Stamped(acts, id));
        }
      }
    }
  }

  lemma {:induction false} ReachableRows<T(!new)>(codec: Codec<T>, c: Cluster<T>, acts: seq<Action>, boot: Boot,
                                                  full: map<int, seq<seq<T>>>)
    requires Lossless(codec) && Initial(codec, c, boot, full) && StaticRows(c, boot) && Clocked(acts)
    ensures AllRows(Acts(codec, c, acts), boot, acts)
    decreases |acts|
  {
    if acts == [] {
      InitialRows(codec, c, boot, full);
    } else {
      var init := acts[..|acts| - 1];
      ClockedInit(acts);
      ReachableRows(codec, c, init, boot, full);
      ReachablePlaced(codec, c, init, boot, full);
      ActRows(codec, Acts(codec, c, init), acts[|acts| - 1], boot, full, acts);
    }
  }

  // --------------------------------------------------------------- theorems

  /** Over every run in which each node's clock moves between its own announcements, whatever gossip it hears, its own
      included: a node lists itself as an owner of exactly the experts it holds. */
  lemma ListsItselfIffHolds<T(!new)>(codec: Codec<T>, c: Cluster<T>, acts: seq<Action>, boot: Boot,
                                     full: map<int, seq<seq<T>>>, id: ShardId, layer: int, e: int)
    requires Lossless(codec) && Initial(codec, c, boot, full) && StaticRows(c, boot) && Clocked(acts)
    requires id in Acts(codec, c, acts).sites
    ensures var s := Acts(codec, c, acts).sites[id];
            id in Owners(s.view, layer, e) <==> layer in s.live && e in s.live[layer]
  {
    ReachableRows(codec, c, acts, boot, full);
    var r := Acts(codec, c, acts);
    assert RowOk(r.sites[id], r.gossip, id, layer, e, boot, Stamped(acts, id));
  }

  /** Expert e of node id starts to be held only by a finished pull, which gossips ADDs of it, and stops being held only
      by an eviction, which gossips a REMOVE; nothing else is gossiped about it. */
  ghost predicate Told<T>(r: Cluster<T>, r': Cluster<T>, a: Action, id: ShardId, layer: int, e: int)
    requires id in r.sites && id in r'.sites
  {
    var k, before, after := Key(id, layer, e), Live(r.sites[id], layer, e), Live(r'.sites[id], layer, e);
    && (!before && after ==>
          a.Finish? && a.node == id && Delta(k, 0, a.announced) in r'.gossip && Delta(k, 0, a.again) in r'.gossip)
    && (before && !after ==>
          && a.Evict? && a.node == id && a.layer == layer && a.victim == e
          && Delta(k, 1, a.announced) in r'.gossip)
    && forall d :: d in r'.gossip && d !in r.gossip && d.key == k ==>
         if d.action == 0 then !before && after else before && !after
  }

  /** In every reachable cluster every change of what a node holds is announced, and nothing else is. */
  lemma ChangesAreAnnounced<T(!new)>(codec: Codec<T>, c: Cluster<T>, acts: seq<Action>, a: Action, boot: Boot,
                                     full: map<int, seq<seq<T>>>, id: ShardId, layer: int, e: int)
    requires Lossless(codec) && Initial(codec, c, boot, full) && id in Acts(codec, c, acts).sites
    ensures id in Acts(codec, c, acts + [a]).sites
    ensures Told(Acts(codec, c, acts), Acts(codec, c, acts + [a]), a, id, layer, e)
  {
    var r := Acts(codec, c, acts);
    ReachablePlaced(codec, c, acts, boot, full);
    assert (acts + [a])[..|acts|] == acts;
    StepAnnounced(codec, r, a, boot, full, id, layer, e);
  }

  lemma StepAnnounced<T(!new)>(codec: Codec<T>, r: Cluster<T>, a: Action, boot: Boot, full: map<int, seq<seq<T>>>,
                               id: ShardId, layer: int, e: int)
    requires Placed(codec, r, boot, full) && id in r.sites
    ensures id in Act(codec, r, a).sites && Told(r, Act(codec, r, a), a, id, layer, e)
  {
    var s := r.sites[id];
    if a.node != id {
      OthersStay(codec, r, a, id);
      UntouchedTold(r, Act(codec, r, a), a, id, layer, e);
    } else if a.Finish? && s.pull.Some? && s.pull.value.reply.Some? {
      FinishTakes(codec, r, a, boot, full);
      PutInTold(r, Act(codec, r, a), a, id, s.pull.value.layer, s.pull.value.expert, layer, e);
    } else if a.Evict? && Evictable(s, a.layer, a.victim) {
      EvictTakes(codec, r, a, boot, full);
      DroppedTold(r, Act(codec, r, a), a, id, layer, e);
    } else {
      NothingMoves(codec, r, a, boot, full);
      UntouchedTold(r, Act(codec, r, a), a, id, layer, e);
    }
  }

  lemma UntouchedTold<T>(r: Cluster<T>, r': Cluster<T>, a: Action, id: ShardId, layer: int, e: int)
    requires id in r.sites && id in r'.sites && r'.sites[id].live == r.sites[id].live
    requires forall d :: d in r'.gossip && d.key.shard == id ==> d in r.gossip
    ensures Told(r, r', a, id, layer, e)
  {}

  lemma PutInTold<T>(r: Cluster<T>, r': Cluster<T>, a: Action, id: ShardId, l: int, x: int, layer: int, e: int)
    requires a.Finish? && a.node == id && Took(r, r', id, l, x, 0, a.ts, {a.announced, a.again})
    ensures Told(r, r', a, id, layer, e)
  {
    assert Delta(Key(id, l, x), 0, a.announced) in r'.gossip && Delta(Key(id, l, x), 0, a.again) in r'.gossip;
  }

  lemma DroppedTold<T>(r: Cluster<T>, r': Cluster<T>, a: Action, id: ShardId, layer: int, e: int)
    requires a.Evict? && a.node == id && Took(r, r', id, a.layer, a.victim, 1, a.ts, {a.announced})
    ensures Told(r, r', a, id, layer, e)
  {
    assert Delta(Key(id, a.layer, a.victim), 1, a.announced) in r'.gossip;
  }

  /** An action that neither finishes an answered pull nor evicts. */
  lemma NothingMoves<T(!new)>(codec: Codec<T>, c: Cluster<T>, a: Action, boot: Boot, full: map<int, seq<seq<T>>>)
    requires a.node in c.sites && SiteOk(codec, c.sites[a.node], a.node, boot, full)
    requires a.Finish? ==> c.sites[a.node].pull.None? || c.sites[a.node].pull.value.reply.None?
    requires a.Evict? ==> !Evictable(c.sites[a.node], a.layer, a.victim)
    ensures Quiet(c, Act(codec, c, a), a.node)
  {
    if a.Finish? { FinishTakes(codec, c, a, boot, full); }
    if a.Evict? { EvictTakes(codec, c, a, boot, full); }
    if a.Hear? { HearPuts(codec, c, a); }
    if a.Select? || a.Serve? || a.Abort? { PullOnly(codec, c, a); }
  }

  /** A newer delta that is heard is what the hearer then believes. */
  lemma HeardIsBelieved<T>(codec: Codec<T>, c: Cluster<T>, id: ShardId, d: Delta)
    requires id in c.sites && d in c.gossip
    requires d.key in c.sites[id].view ==> c.sites[id].view[d.key].ts < d.ts
    ensures var s := Act(codec, c, Hear(id, d)).sites[id];
            d.key.shard in Owners(s.view, d.key.layer, d.key.expert) <==> d.action == 0
  {}

  // ---------------------------------------------------------------- progress

  /** The source answers a pull for an expert it holds when the header and the nine tensors fit a frame. */
  lemma HeldIsServed<T(!new)>(codec: Codec<T>, header: seq<Byte>, source: Site<T>, p: Pull, boot: Boot,
                              full: map<int, seq<seq<T>>>, ts: seq<T>)
    requires p.layer in source.stacks && LayerOk(source, p.layer, boot, full) && Live(source, p.layer, p.expert)
    requires TensorsOf(full[p.layer], p.expert, ts)
    requires |header| < U32 && |Concat(EncodeAll(codec, ts))| < U32
    ensures Served(codec, header, source, p).Some?
  {
    var stack := source.stacks[p.layer];
    SliceRight(stack, full[p.layer], p.expert);
    var mine := SliceExpert(stack, p.expert).value;
    forall i | 0 <= i < TENSORS ensures mine[i] == ts[i] {
      assert TensorOf(full[p.layer], p.expert, mine, i) && TensorOf(full[p.layer], p.expert, ts, i);
    }
    assert mine == ts;
  }

  ghost predicate CanBeServed<T>(codec: Codec<T>, c: Cluster<T>, layer: int, e: int, source: ShardId, header: seq<Byte>,
                                 full: map<int, seq<seq<T>>>, ts: seq<T>) {
    && source in c.sites && Live(c.sites[source], layer, e) && layer in full && TensorsOf(full[layer], e, ts)
    && |header| < U32 && |Concat(EncodeAll(codec, ts))| < U32
  }

  lemma ServeAnswers<T(!new)>(codec: Codec<T>, c: Cluster<T>, boot: Boot, full: map<int, seq<seq<T>>>, id: ShardId,
                              p: Pull, header: seq<Byte>, ts: seq<T>)
    requires Placed(codec, c, boot, full)
    requires id in c.sites && c.sites[id].pull == Some(p) && p.reply.None?
    requires CanBeServed(codec, c, p.layer, p.expert, p.source, header, full, ts)
    ensures var r := Act(codec, c, Serve(id, header));
            && id in r.sites && r.sites[id].pull.Some?
            && var q := r.sites[id].pull.value; q.layer == p.layer && q.expert == p.expert && q.reply.Some?
  {
    var source := c.sites[p.source];
    assert SiteOk(codec, source, p.source, boot, full) && LayerOk(source, p.layer, boot, full);
    HeldIsServed(codec, header, source, p, boot, full, ts);
    ServedReplies(codec, c, id, p, header);
  }

  lemma ServedReplies<T>(codec: Codec<T>, c: Cluster<T>, id: ShardId, p: Pull, header: seq<Byte>)
    requires id in c.sites && c.sites[id].pull == Some(p) && p.reply.None? && p.source in c.sites
    requires Served(codec, header, c.sites[p.source], p).Some?
    ensures var r := Act(codec, c, Serve(id, header));
            && id in r.sites && r.sites[id].pull.Some?
            && var q := r.sites[id].pull.value; q.layer == p.layer && q.expert == p.expert && q.reply.Some?
  {
    var s, reply := c.sites[id], Served(codec, header, c.sites[p.source], p);
    assert Answered(codec, s, c.sites[p.source], header) == s.(pull := Some(p.(reply := reply)));
  }

  lemma ServeThenFinish<T(!new)>(codec: Codec<T>, c: Cluster<T>, boot: Boot, full: map<int, seq<seq<T>>>, id: ShardId,
                                 p: Pull, header: seq<Byte>, finish: Action, ts: seq<T>)
    requires Lossless(codec) && Placed(codec, c, boot, full)
    requires id in c.sites && c.sites[id].pull == Some(p) && p.reply.None? && finish.Finish? && finish.node == id
    requires CanBeServed(codec, c, p.layer, p.expert, p.source, header, full, ts)
    ensures InPlace(Act(codec, Act(codec, c, Serve(id, header)), finish), id, p.layer, p.expert)
  {
    ServeAnswers(codec, c, boot, full, id, p, header, ts);
    ActPlaced(codec, c, Serve(id, header), boot, full);
    FinishPuts(codec, Act(codec, c, Serve(id, header)), finish, boot, full, p.layer, p.expert);
  }

  ghost predicate InPlace<T>(c: Cluster<T>, id: ShardId, layer: int, e: int) {
    id in c.sites && Live(c.sites[id], layer, e) && c.sites[id].pull.None?
  }

  lemma FinishPuts<T(!new)>(codec: Codec<T>, c: Cluster<T>, a: Action, boot: Boot, full: map<int, seq<seq<T>>>,
                            layer: int, e: int)
    requires a.Finish? && a.node in c.sites && Placed(codec, c, boot, full)
    requires var pull := c.sites[a.node].pull;
             pull.Some? && pull.value.reply.Some? && pull.value.layer == layer && pull.value.expert == e
    ensures InPlace(Act(codec, c, a), a.node, layer, e)
  {
    FinishTakes(codec, c, a, boot, full);
  }

  /** In every reachable cluster: a pending pull whose source holds the expert, served and then finished, leaves the
      expert in place at the puller, with the original model's row in each of the nine tensors. */
  lemma PullCompletes<T(!new)>(codec: Codec<T>, c: Cluster<T>, acts: seq<Action>, boot: Boot,
                               full: map<int, seq<seq<T>>>, id: ShardId, p: Pull, header: seq<Byte>, finish: Action,
                               ts: seq<T>, i: nat)
    requires Lossless(codec) && Initial(codec, c, boot, full) && i < TENSORS
    requires id in Acts(codec, c, acts).sites && Acts(codec, c, acts).sites[id].pull == Some(p)
    requires CanBeServed(codec, Acts(codec, c, acts), p.layer, p.expert, p.source, header, full, ts)
    requires p.reply.None? && finish.Finish? && finish.node == id
    ensures var r := Acts(codec, c, acts + [Serve(id, header)] + [finish]);
            InPlace(r, id, p.layer, p.expert) && HasRow(r.sites[id], p.layer, p.expert, i, ts[i])
  {
    ReachablePlaced(codec, c, acts, boot, full);
    var r := Acts(codec, c, acts);
    ServeThenFinish(codec, r, boot, full, id, p, header, finish, ts);
    ActsTwice(codec, c, acts, Serve(id, header), finish);
    ActPlaced(codec, r, Serve(id, header), boot, full);
    ActPlaced(codec, Act(codec, r, Serve(id, header)), finish, boot, full);
    RightRow(codec, Act(codec, Act(codec, r, Serve(id, header)), finish), boot, full, id, p.layer, p.expert, i, ts);
  }

  lemma ActsTwice<T>(codec: Codec<T>, c: Cluster<T>, acts: seq<Action>, a: Action, b: Action)
    ensures Acts(codec, c, acts + [a] + [b]) == Act(codec, Act(codec, Acts(codec, c, acts), a), b)
  {
    var more := acts + [a];
    assert more[..|acts|] == acts;
    assert (more + [b])[..|more|] == more;
  }

  predicate HasRow<T(==)>(s: Site<T>, layer: int, e: int, i: nat, t: T)
    requires i < TENSORS
  {
    layer in s.stacks && |s.stacks[layer].rows| == TENSORS && RowFor(s.stacks[layer], i, e) == Some(t)
  }

  lemma RightRow<T>(codec: Codec<T>, r: Cluster<T>, boot: Boot, full: map<int, seq<seq<T>>>, id: ShardId, layer: int,
                    e: int, i: nat, ts: seq<T>)
    requires Placed(codec, r, boot, full) && id in r.sites && Live(r.sites[id], layer, e) && i < TENSORS
    requires layer in full && TensorsOf(full[layer], e, ts)
    ensures HasRow(r.sites[id], layer, e, i, ts[i])
  {
    assert SiteOk(codec, r.sites[id], id, boot, full) && LayerOk(r.sites[id], layer, boot, full);
    RowForRight(r.sites[id].stacks[layer], full[layer], i, e);
    assert TensorOf(full[layer], e, ts, i);
  }

  /** The whole migration: a node with room selects a known owner, is served, and finishes. */
  lemma MigrationCompletes<T(!new)>(codec: Codec<T>, c: Cluster<T>, acts: seq<Action>, boot: Boot,
                                    full: map<int, seq<seq<T>>>, id: ShardId, layer: int, e: int, source: ShardId,
                                    header: seq<Byte>, finish: Action, ts: seq<T>)
    requires Lossless(codec) && Initial(codec, c, boot, full) && finish.Finish? && finish.node == id
    requires var r := Acts(codec, c, acts);
             && id in r.sites && source != id && CanBeServed(codec, r, layer, e, source, header, full, ts)
             && var s := r.sites[id];
             && s.pull.None? && layer in s.live && e !in s.live[layer] && |s.live[layer]| < s.capacity
             && source in Owners(s.view, layer, e)
    ensures var r := Acts(codec, c, acts + [Select(id, layer, e, source)] + [Serve(id, header)] + [finish]);
            InPlace(r, id, layer, e)
  {
    var r, select := Acts(codec, c, acts), Select(id, layer, e, source);
    ReachablePlaced(codec, c, acts, boot, full);
    assert SiteOk(codec, r.sites[id], id, boot, full) && LayerOk(r.sites[id], layer, boot, full);
    var first := acts + [select];
    assert first[..|acts|] == acts;
    var r1 := Acts(codec, c, first);
    assert r1 == Act(codec, r, select);
    assert r1.sites[id].pull == Some(Pull(layer, e, source, None));
    PullCompletes(codec, c, first, boot, full, id, Pull(layer, e, source, None), header, finish, ts, 0);
  }
}
