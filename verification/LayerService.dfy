/**
 What the split layer's contract means in plain terms: who may serve an
 expert, when a layer must succeed, and which value it returns.
 */
module LayerService {
  import opened Common
  import opened Moe
  import opened Orchestrator

  // ------------------------------------------------------------- who serves

  /** The static map or the gossip at that moment names s as an owner of e. */
  ghost predicate MayServe<V>(env: Env<V>, k: nat, owners: seq<Owner>, e: int, s: ShardId) {
    s in env.live(k, e) || exists i :: 0 <= i < |owners| && owners[i].shard == s && e in owners[i].experts
  }

  lemma {:induction false} WithoutIs(owners: seq<Owner>, gone: set<ShardId>, o: Owner)
    ensures o in Without(owners, gone) <==> o in owners && o.shard !in gone
  {
    if owners != [] { WithoutIs(owners[1..], gone, o); }
  }

  lemma StaticIff(owners: seq<Owner>, gone: set<ShardId>, e: int, s: ShardId)
    ensures s in StaticOwners(Without(owners, gone), e) <==>
              s !in gone && exists i :: 0 <= i < |owners| && owners[i].shard == s && e in owners[i].experts
  {
    var left := Without(owners, gone);
    StaticOwnersMembers(left, e, s);
    if i :| 0 <= i < |left| && left[i].shard == s && e in left[i].experts {
      WithoutIs(owners, gone, left[i]);
      var j :| 0 <= j < |owners| && owners[j] == left[i];
    }
    if i :| 0 <= i < |owners| && owners[i].shard == s && e in owners[i].experts && s !in gone {
      WithoutIs(owners, gone, owners[i]);
      var j :| 0 <= j < |left| && left[j] == owners[i];
    }
  }

  /** The candidates for an expert are exactly its static and live owners that are not excluded. */
  lemma CandidatesAreOwners<V>(env: Env<V>, k: nat, owners: seq<Owner>, gone: set<ShardId>, e: int, s: ShardId)
    ensures s in Remaining(env, k, owners, gone, e) <==> s !in gone && MayServe(env, k, owners, e, s)
  {
    var left, live := StaticOwners(Without(owners, gone), e), Minus(env.live(k, e), gone);
    DedupMembers(left + live, s);
    MinusMembers(env.live(k, e), gone);
    StaticIff(owners, gone, e, s);
  }

  /** An expert can be placed exactly when some owner is not excluded and this shard, if it is one, holds it. */
  lemma ServableIff<V>(env: Env<V>, k: nat, owners: seq<Owner>, held: seq<int>, self: ShardId, gone: set<ShardId>,
                       e: int)
    ensures Servable(env, k, owners, held, self, gone, e) <==>
              && (exists s :: s !in gone && MayServe(env, k, owners, e, s))
              && (self !in gone && MayServe(env, k, owners, e, self) ==> held == [] || e in held)
  {
    var cs := Remaining(env, k, owners, gone, e);
    CandidatesAreOwners(env, k, owners, gone, e, self);
    if cs != [] {
      CandidatesAreOwners(env, k, owners, gone, e, cs[0]);
      assert cs[0] !in gone && MayServe(env, k, owners, e, cs[0]);
    }
    if s :| s !in gone && MayServe(env, k, owners, e, s) { CandidatesAreOwners(env, k, owners, gone, e, s); }
  }

  // -------------------------------------------------------- it must succeed

  /** An environment with given live owners in which the bad peers always fail, and the others answer and are seen done
      by the first poll. */
  ghost function Split<V(!new), W>(layer: Layer<V, W>, live: int -> seq<ShardId>, peers: set<ShardId>,
                                   bad: set<ShardId>): Env<V> {
    Env((k: nat, p: ShardId, ids: seq<int>, x: Tensor<V>) =>
          if p in bad then Raised else Returned(map e | e in ids :: layer.expert(e, x)),
        (k: nat) => [Poll({}, peers, false)], (k: nat) => {}, (k: nat, e: int) => live(e), (k: nat) => map[],
        (k: nat, i: nat) => (0, 0))
  }

  lemma SplitIsSteady<V(!new), W>(layer: Layer<V, W>, live: int -> seq<ShardId>, peers: set<ShardId>, bad: set<ShardId>,
                                  k: nat, x: Tensor<V>)
    ensures HonestPeers(Split(layer, live, peers, bad), layer)
    ensures Steady(Split(layer, live, peers, bad), k, x, peers - bad)
  {
    assert Split(layer, live, peers, bad).polls(k)[0].done == peers;
  }

  /** Which peers may be asked depends on the owners only. */
  lemma SplitPeers<V(!new), W>(layer: Layer<V, W>, live: int -> seq<ShardId>, peers: set<ShardId>, bad: set<ShardId>,
                               k: nat, owners: seq<Owner>, self: ShardId, ids: set<int>)
    ensures PeersOf(Split(layer, live, peers, bad), k, owners, self, ids)
         == PeersOf(Split(layer, live, {}, bad), 0, owners, self, ids)
  {
    var a, b := Split(layer, live, peers, bad), Split(layer, live, {}, bad);
    assert forall e :: Candidates(owners, a.live(k, e), e) == Candidates(owners, b.live(0, e), e);
  }

  /** The conditions under which a layer must succeed can be met with any bad peers fewer than the attempts, as long as
      every routed expert has an owner that is not bad, be it static or live, and this shard holds what it owns. In
      particular the static owners of an expert may all be bad when a live replica is not. */
  lemma SomeLayerIsServiceable<V(!new), W>(o: ExpertOrchestrator, layer: Layer<V, W>, h: Tensor<V>,
                                           live: int -> seq<ShardId>, bad: set<ShardId>)
    returns (env: Env<V>)
    requires Filled(layer.route(h)) && |bad| < Max(1, o.maxAttempts)
    requires forall e :: Routes(layer.route(h), e) ==>
               && (exists s :: s in live(e) + StaticOwners(o.owners, e) && s !in bad)
               && (o.self in live(e) + StaticOwners(o.owners, e) ==> o.held == [] || e in o.held)
    ensures HonestPeers(env, layer) && o.Serviceable(layer, h, env, bad)
    ensures forall k, e :: env.live(k, e) == live(e)
    ensures forall k, p, ids, x :: p in bad ==> env.call(k, p, ids, x).Raised?
  {
    var r := layer.route(h);
    var ids := RoutedIds(r);
    var peers := PeersOf(Split(layer, live, {}, bad), 0, o.owners, o.self, ids);
    env := Split(layer, live, peers, bad);
    forall k: nat ensures o.SteadyBut(env, k, r.postAttn, ids, bad) {
      SplitIsSteady(layer, live, peers, bad, k, r.postAttn);
      SplitPeers(layer, live, peers, bad, k, o.owners, o.self, ids);
    }
    SplitIsSteady(layer, live, peers, bad, 0, r.postAttn);
    forall k: nat, gone: set<ShardId>, e | gone <= bad && e in ids
      ensures Servable(env, k, o.owners, o.held, o.self, gone, e)
    {
      var s :| s in live(e) + StaticOwners(o.owners, e) && s !in bad;
      StaticOwnersMembers(o.owners, e, s);
      StaticOwnersMembers(o.owners, e, o.self);
      assert MayServe(env, k, o.owners, e, s);
      ServableIff(env, k, o.owners, o.held, o.self, gone, e);
    }
  }

  // --------------------------------------------------------- what it returns

  /** Running sums of the weighted expert outputs at one position, in slot order. */
  ghost predicate RunningSums<V, W>(layer: Layer<V, W>, r: Routed<V, W>, b: nat, l: nat, sums: seq<V>)
    requires Shaped(layer, r) && b < |r.ids| && l < |r.ids[b]|
  {
    var ids, ws := r.ids[b][l], r.weights[b][l];
    && |sums| == |ids| > 0 && (forall j :: 0 <= j < |ids| ==> SameShape(r.ids, layer.expert(ids[j], r.postAttn)))
    && sums[0] == layer.scale(ws[0], layer.expert(ids[0], r.postAttn)[b][l])
    && forall j :: 0 < j < |ids| ==>
         sums[j] == layer.add(sums[j - 1], layer.scale(ws[j], layer.expert(ids[j], r.postAttn)[b][l]))
  }

  lemma {:induction false} SumsOf<V, W>(layer: Layer<V, W>, xs: seq<V>, ws: seq<W>) returns (sums: seq<V>)
    requires |xs| == |ws| > 0
    ensures |sums| == |xs| && sums[0] == layer.scale(ws[0], xs[0])
    ensures forall j :: 0 < j < |xs| ==> sums[j] == layer.add(sums[j - 1], layer.scale(ws[j], xs[j]))
    ensures sums[|xs| - 1] == WeightedSum(layer, xs, ws)
    decreases |xs|
  {
    var n := |xs| - 1;
    if n == 0 {
      sums := [layer.scale(ws[0], xs[0])];
    } else {
      var less := SumsOf(layer, xs[..n], ws[..n]);
      sums := less + [layer.add(less[n - 1], layer.scale(ws[n], xs[n]))];
    }
  }

  /** The one-node layer, position by position: the shared expert's output plus the norm of the last running sum, all
      passed through the outer operations together with the post-attention state. */
  lemma OneNodeValue<V(!new), W>(layer: Layer<V, W>, h: Tensor<V>) returns (block: Tensor<V>)
    requires Shaped(layer, layer.route(h)) && Filled(layer.route(h))
    ensures OneNodeLayer(layer, h) == layer.outer(block, layer.route(h).postAttn)
    ensures |block| == |layer.route(h).ids|
    ensures forall b :: 0 <= b < |block| ==> |block[b]| == |layer.route(h).ids[b]|
    ensures forall b, l :: 0 <= b < |block| && 0 <= l < |block[b]| ==> IsValue(layer, layer.route(h), b, l, block[b][l])
  {
    var r := layer.route(h);
    block := OneNodeBlock(layer, r);
    forall b, l | 0 <= b < |block| && 0 <= l < |block[b]| ensures IsValue(layer, r, b, l, block[b][l]) {
      assert FilledRow(r, b) && block[b] == OneNodeRow(layer, r, b);
      ValueUnique(layer, r, b, l, block[b][l]);
    }
  }

  /** The value at one position: shared plus norm of the weighted sum. */
  ghost predicate IsValue<V(!new), W>(layer: Layer<V, W>, r: Routed<V, W>, b: nat, l: nat, v: V)
    requires Shaped(layer, r) && b < |r.ids| && l < |r.ids[b]|
  {
    exists sums :: RunningSums(layer, r, b, l, sums)
                   && v == layer.add(layer.shared(r.postAttn)[b][l], layer.norm(sums[|sums| - 1]))
  }

  lemma {:induction false} SumsAgree<V, W>(layer: Layer<V, W>, r: Routed<V, W>, b: nat, l: nat, s: seq<V>,
                                           t: seq<V>, j: nat)
    requires Shaped(layer, r) && b < |r.ids| && l < |r.ids[b]|
    requires RunningSums(layer, r, b, l, s) && RunningSums(layer, r, b, l, t) && j < |s|
    ensures s[j] == t[j]
    decreases j
  {
    if j > 0 { SumsAgree(layer, r, b, l, s, t, j - 1); }
  }

  lemma ValueUnique<V(!new), W>(layer: Layer<V, W>, r: Routed<V, W>, b: nat, l: nat, v: V)
    requires Shaped(layer, r) && b < |r.ids| && l < |r.ids[b]| && r.ids[b][l] != []
    ensures IsValue(layer, r, b, l, v) <==> v == PositionValue(layer, r, b, l)
  {
    var xs := Cells(layer, r, b, l);
    var sums := SumsOf(layer, xs, r.weights[b][l]);
    forall j | 0 <= j < |xs| ensures xs[j] == Cell(layer, r, r.ids[b][l][j], b, l) {}
    assert RunningSums(layer, r, b, l, sums);
    if IsValue(layer, r, b, l, v) {
      var t :| RunningSums(layer, r, b, l, t)
               && v == layer.add(layer.shared(r.postAttn)[b][l], layer.norm(t[|t| - 1]));
      SumsAgree(layer, r, b, l, t, sums, |t| - 1);
    }
  }
}
