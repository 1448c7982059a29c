/**
 The mixture-of-experts helpers: power-of-two-choices grouping and per-position
 aggregation (moe.py, backends/mlx_backend.py). Vectors and weights are
 abstract; addition is not assumed associative, so slot order matters.
 */
module Moe {
  import opened Common

  datatype Result<+T> = Ok(value: T) | Err(error: Failure)

  datatype Failure =
    | NoOwner(expert: int)
    | NotHeld(expert: int)
    | MissingOutput(expert: int)
    | EmptyTopK
    | EmptyBatch
    | PeerFailed(peer: ShardId)

  // -------------------------------------------------------------- grouping

  datatype Owner = Owner(shard: ShardId, experts: set<int>)

  /** Which ids go to which shard, in insertion order. */
  datatype Groups = Groups(order: seq<ShardId>, ids: map<ShardId, seq<int>>)

  function StaticOwners(owners: seq<Owner>, e: int): seq<ShardId> {
    if owners == [] then []
    else (if e in owners[0].experts then [owners[0].shard] else []) + StaticOwners(owners[1..], e)
  }

  /** Later duplicates dropped, order kept. */
  function Dedup(xs: seq<ShardId>): seq<ShardId> {
    if xs == [] then []
    else
      var init, last := Dedup(xs[..|xs| - 1]), xs[|xs| - 1];
      if last in init then init else init + [last]
  }

  function Candidates(owners: seq<Owner>, live: seq<ShardId>, e: int): seq<ShardId> {
    Dedup(StaticOwners(owners, e) + live)
  }

  lemma {:induction false} DedupMembers(xs: seq<ShardId>, x: ShardId)
    ensures x in Dedup(xs) <==> x in xs
  {
    if xs != [] {
      DedupMembers(xs[..|xs| - 1], x);
      assert xs == xs[..|xs| - 1] + [xs[|xs| - 1]];
    }
  }

  lemma {:induction false} DedupDistinct(xs: seq<ShardId>)
    ensures Distinct(Dedup(xs))
  {
    if xs != [] { DedupDistinct(xs[..|xs| - 1]); }
  }

  lemma CandidatesDistinct(owners: seq<Owner>, live: seq<ShardId>, e: int)
    ensures Distinct(Candidates(owners, live, e))
  {
    DedupDistinct(StaticOwners(owners, e) + live);
  }

  lemma {:induction false} StaticOwnersMembers(owners: seq<Owner>, e: int, s: ShardId)
    ensures s in StaticOwners(owners, e) <==>
              exists i :: 0 <= i < |owners| && owners[i].shard == s && e in owners[i].experts
  {
    if owners != [] {
      StaticOwnersMembers(owners[1..], e, s);
      forall i | 0 < i < |owners| ensures owners[i] == owners[1..][i - 1] {}
      forall i | 0 <= i < |owners| - 1 ensures owners[1..][i] == owners[i + 1] {}
    }
  }

  /** This shard knows its own load; the others count as last reported. */
  function LoadOf(s: ShardId, self: ShardId, selfLoad: int, loads: map<ShardId, int>): int {
    if s == self then selfLoad else KnownLoad(loads, s)
  }

  /** Two distinct positions below n, in any order, from an arbitrary draw. */
  function Pair(n: nat, draw: (nat, nat)): (r: (nat, nat))
    requires n >= 2
    ensures r.0 < n && r.1 < n && r.0 != r.1
  {
    var a := draw.0 % n;
    var b := draw.1 % (n - 1);
    (a, if b < a then b else b + 1)
  }

  /** With a choice, w is no more loaded than some other candidate; with two candidates it is the lighter one. */
  ghost predicate Lighter(w: ShardId, cs: seq<ShardId>, self: ShardId, selfLoad: int, loads: map<ShardId, int>) {
    |cs| > 1 ==> exists c :: c in cs && c != w && LoadOf(w, self, selfLoad, loads) <= LoadOf(c, self, selfLoad, loads)
  }

  /** The less loaded of two sampled candidates; the first of the pair wins ties. */
  function Winner(cs: seq<ShardId>, draw: (nat, nat), self: ShardId, selfLoad: int,
      loads: map<ShardId, int>): (w: ShardId)
    requires cs != [] && Distinct(cs)
    ensures w in cs && Lighter(w, cs, self, selfLoad, loads)
  {
    if |cs| == 1 then cs[0]
    else
      var p := if |cs| == 2 then (0, 1) else Pair(|cs|, draw);
      var a, b := cs[p.0], cs[p.1];
      assert a in cs && b in cs && a != b;
      if LoadOf(a, self, selfLoad, loads) <= LoadOf(b, self, selfLoad, loads) then a else b
  }

  /** Every ordered pair of positions is drawn by some draw. */
  lemma AnyPairCanBeDrawn(n: nat, i: nat, j: nat) returns (draw: (nat, nat))
    requires n >= 2 && i < n && j < n && i != j
    ensures Pair(n, draw) == (i, j)
  {
    var b := if j < i then j else j - 1;
    draw := (i, b);
    SmallRemainder(i, n);
    SmallRemainder(b, n - 1);
  }

  lemma SmallRemainder(a: nat, b: nat)
    requires a < b
    ensures a % b == a
  {}

  /** Any two of three or more candidates may be the ones compared: for some draw the lighter of them wins, and the
      first of them on a tie. */
  lemma AnyTwoCanBeCompared(cs: seq<ShardId>, i: nat, j: nat, self: ShardId, selfLoad: int, loads: map<ShardId, int>)
    returns (draw: (nat, nat))
    requires Distinct(cs) && |cs| > 2 && i < |cs| && j < |cs| && i != j
    ensures Winner(cs, draw, self, selfLoad, loads)
         == if LoadOf(cs[i], self, selfLoad, loads) <= LoadOf(cs[j], self, selfLoad, loads) then cs[i] else cs[j]
  {
    draw := AnyPairCanBeDrawn(|cs|, i, j);
  }

  /** Shard p is asked for expert e. */
  predicate Asks(g: Groups, p: ShardId, e: int) { p in g.ids && e in g.ids[p] }

  /** The groups hold the given ids and nothing else; every group is listed once and is not empty. */
  ghost predicate Collects(g: Groups, ids: seq<int>) {
    && Distinct(g.order) && (forall p :: p in g.order <==> p in g.ids)
    && (forall p :: p in g.ids ==> g.ids[p] != [])
    && (forall p, e :: Asks(g, p, e) ==> e in ids)
    && (forall e :: e in ids ==> exists p :: Asks(g, p, e))
  }

  /** No id is in two groups. */
  ghost predicate Apart(g: Groups) {
    forall p, q, e :: Asks(g, p, e) && Asks(g, q, e) ==> p == q
  }

  /** Each of the given ids is in exactly one group, and nothing else is. */
  ghost predicate Splits(g: Groups, ids: seq<int>) { Collects(g, ids) && Apart(g) }

  /** `g` collects exactly the given ids at shards that may serve them. */
  ghost predicate Assigned(g: Groups, ids: seq<int>, owners: seq<Owner>, live: int -> seq<ShardId>) {
    && Collects(g, ids)
    && (forall p, e :: Asks(g, p, e) ==> p in Candidates(owners, live(e), e))
  }

  /** All ids of the listed groups, with multiplicity. */
  ghost function Contents(g: Groups, ps: seq<ShardId>): multiset<int> {
    if ps == [] then multiset{}
    else
      var n := |ps| - 1;
      Contents(g, ps[..n]) + if ps[n] in g.ids then multiset(g.ids[ps[n]]) else multiset{}
  }

  lemma {:induction false} ContentsElsewhere(g: Groups, g': Groups, ps: seq<ShardId>, p: ShardId)
    requires p !in ps && g'.ids.Keys == g.ids.Keys + {p} && forall q :: q in g.ids && q != p ==> g'.ids[q] == g.ids[q]
    ensures Contents(g', ps) == Contents(g, ps)
  {
    if ps != [] { ContentsElsewhere(g, g', ps[..|ps| - 1], p); }
  }

  lemma {:induction false} ContentsGrow(g: Groups, g': Groups, ps: seq<ShardId>, p: ShardId, e: int)
    requires Distinct(ps) && p in ps && p in g.ids && g'.ids == g.ids[p := g.ids[p] + [e]]
    ensures Contents(g', ps) == Contents(g, ps) + multiset{e}
  {
    var n := |ps| - 1;
    if ps[n] == p {
      ContentsElsewhere(g, g', ps[..n], p);
    } else {
      ContentsGrow(g, g', ps[..n], p, e);
    }
  }

  /** Every id went to a shard that won its comparison. */
  ghost predicate LoadAware(g: Groups, owners: seq<Owner>, live: int -> seq<ShardId>, self: ShardId, selfLoad: int,
      loads: map<ShardId, int>) {
    forall p, e :: Asks(g, p, e) ==> Lighter(p, Candidates(owners, live(e), e), self, selfLoad, loads)
  }

  function Append(g: Groups, p: ShardId, e: int): Groups {
    if p in g.ids then g.(ids := g.ids[p := g.ids[p] + [e]])
    else Groups(g.order + [p], g.ids[p := [e]])
  }

  lemma AppendAsks(g: Groups, p: ShardId, e: int)
    ensures forall q, x :: Asks(Append(g, p, e), q, x) <==> Asks(g, q, x) || (q == p && x == e)
  {}

  lemma AppendAssigns(g: Groups, ids: seq<int>, owners: seq<Owner>, live: int -> seq<ShardId>, p: ShardId, e: int)
    requires Assigned(g, ids, owners, live) && p in Candidates(owners, live(e), e)
    ensures Assigned(Append(g, p, e), ids + [e], owners, live)
  {
    var g' := Append(g, p, e);
    AppendAsks(g, p, e);
    assert Asks(g', p, e);
    forall x | x in ids + [e] ensures exists q :: Asks(g', q, x) {
      if x in ids {
        var q :| Asks(g, q, x);
        assert Asks(g', q, x);
      }
    }
  }

  lemma AppendKeepsApart(g: Groups, ids: seq<int>, p: ShardId, e: int)
    requires Collects(g, ids) && Apart(g) && e !in ids
    ensures Apart(Append(g, p, e))
  {
    AppendAsks(g, p, e);
  }

  lemma AppendCounts(g: Groups, p: ShardId, e: int)
    requires Distinct(g.order) && forall q :: q in g.order <==> q in g.ids
    ensures Contents(Append(g, p, e), Append(g, p, e).order) == Contents(g, g.order) + multiset{e}
  {
    var g' := Append(g, p, e);
    if p in g.ids {
      ContentsGrow(g, g', g.order, p, e);
    } else {
      assert g'.order[..|g.order|] == g.order;
      ContentsElsewhere(g, g', g.order, p);
    }
  }

  lemma AppendKeepsLoadAware(g: Groups, owners: seq<Owner>, live: int -> seq<ShardId>, self: ShardId, selfLoad: int,
                             loads: map<ShardId, int>, p: ShardId, e: int)
    requires LoadAware(g, owners, live, self, selfLoad, loads)
    requires Lighter(p, Candidates(owners, live(e), e), self, selfLoad, loads)
    ensures LoadAware(Append(g, p, e), owners, live, self, selfLoad, loads)
  {
    AppendAsks(g, p, e);
  }

  /** A load-aware grouping of a list: only candidates asked, and no id in two groups unless the list repeats it. */
  ghost predicate Grouped(g: Groups, ids: seq<int>, owners: seq<Owner>, live: int -> seq<ShardId>, self: ShardId,
                          selfLoad: int, loads: map<ShardId, int>) {
    && Assigned(g, ids, owners, live) && LoadAware(g, owners, live, self, selfLoad, loads)
    && (Distinct(ids) ==> Apart(g))
  }

  predicate AllOwned(ids: seq<int>, owners: seq<Owner>, live: int -> seq<ShardId>) {
    forall i :: 0 <= i < |ids| ==> Candidates(owners, live(ids[i]), ids[i]) != []
  }

  /** The shard one id goes to. */
  function Chosen(e: int, owners: seq<Owner>, loads: map<ShardId, int>, self: ShardId, selfLoad: int, draw: (nat, nat),
                  live: int -> seq<ShardId>): (w: ShardId)
    requires Candidates(owners, live(e), e) != []
    ensures w in Candidates(owners, live(e), e) && Lighter(w, Candidates(owners, live(e), e), self, selfLoad, loads)
  {
    CandidatesDistinct(owners, live(e), e);
    Winner(Candidates(owners, live(e), e), draw, self, selfLoad, loads)
  }

  /** Each id in turn goes to its winner; draw i decides the sample for id i. */
  function GroupsOf(ids: seq<int>, owners: seq<Owner>, loads: map<ShardId, int>, self: ShardId, selfLoad: int,
                    draws: nat -> (nat, nat), live: int -> seq<ShardId>): Groups
    requires AllOwned(ids, owners, live)
  {
    if ids == [] then Groups([], map[])
    else
      var n := |ids| - 1;
      Append(GroupsOf(ids[..n], owners, loads, self, selfLoad, draws, live),
             Chosen(ids[n], owners, loads, self, selfLoad, draws(n), live), ids[n])
  }

  lemma DistinctInit(ids: seq<int>)
    requires Distinct(ids) && ids != []
    ensures Distinct(ids[..|ids| - 1]) && ids[|ids| - 1] !in ids[..|ids| - 1]
  {}

  lemma {:induction false} GroupsOfIsGrouped(
    ids: seq<int>, owners: seq<Owner>, loads: map<ShardId, int>, self: ShardId, selfLoad: int,
    draws: nat -> (nat, nat), live: int -> seq<ShardId>)
    requires AllOwned(ids, owners, live)
    ensures Grouped(GroupsOf(ids, owners, loads, self, selfLoad, draws, live), ids, owners, live, self, selfLoad, loads)
  {
    if ids != [] {
      var n := |ids| - 1;
      var done, e := ids[..n], ids[n];
      GroupsOfIsGrouped(done, owners, loads, self, selfLoad, draws, live);
      var g := GroupsOf(done, owners, loads, self, selfLoad, draws, live);
      var winner := Chosen(e, owners, loads, self, selfLoad, draws(n), live);
      AppendAssigns(g, done, owners, live, winner, e);
      AppendKeepsLoadAware(g, owners, live, self, selfLoad, loads, winner, e);
      assert ids == done + [e];
      if Distinct(ids) {
        DistinctInit(ids);
        AppendKeepsApart(g, done, winner, e);
      }
    }
  }

  ghost predicate Tallies(g: Groups, ids: seq<int>) {
    Distinct(g.order) && (forall p :: p in g.order <==> p in g.ids) && Contents(g, g.order) == multiset(ids)
  }

  lemma AppendTallies(g: Groups, ids: seq<int>, p: ShardId, e: int)
    requires Tallies(g, ids)
    ensures Tallies(Append(g, p, e), ids + [e])
  {
    AppendCounts(g, p, e);
  }

  /** Whatever each placement keeps, the grouping has. */
  lemma {:induction false} GroupsKeep(
    ids: seq<int>, owners: seq<Owner>, loads: map<ShardId, int>, self: ShardId, selfLoad: int,
    draws: nat -> (nat, nat), live: int -> seq<ShardId>, keeps: (Groups, seq<int>) -> bool)
    requires AllOwned(ids, owners, live) && keeps(Groups([], map[]), [])
    requires forall g, done, p, e :: keeps(g, done) ==> keeps(Append(g, p, e), done + [e])
    ensures keeps(GroupsOf(ids, owners, loads, self, selfLoad, draws, live), ids)
  {
    if ids != [] {
      var n := |ids| - 1;
      GroupsKeep(ids[..n], owners, loads, self, selfLoad, draws, live, keeps);
      assert ids == ids[..n] + [ids[n]];
    }
  }

  /** Nothing is lost or duplicated: the groups together hold exactly the list, with multiplicity. */
  lemma GroupsConserveIds(
    ids: seq<int>, owners: seq<Owner>, loads: map<ShardId, int>, self: ShardId, selfLoad: int,
    draws: nat -> (nat, nat), live: int -> seq<ShardId>)
    requires AllOwned(ids, owners, live)
    ensures Tallies(GroupsOf(ids, owners, loads, self, selfLoad, draws, live), ids)
  {
    var keeps := (g: Groups, done: seq<int>) => Tallies(g, done);
    forall g, done, p, e | keeps(g, done) ensures keeps(Append(g, p, e), done + [e]) { AppendTallies(g, done, p, e); }
    GroupsKeep(ids, owners, loads, self, selfLoad, draws, live, keeps);
  }

  lemma GroupsOfStep(ids: seq<int>, i: nat, owners: seq<Owner>, loads: map<ShardId, int>, self: ShardId, selfLoad: int,
                     draws: nat -> (nat, nat), live: int -> seq<ShardId>)
    requires i < |ids| && AllOwned(ids[..i], owners, live) && Candidates(owners, live(ids[i]), ids[i]) != []
    ensures AllOwned(ids[..i + 1], owners, live)
    ensures GroupsOf(ids[..i + 1], owners, loads, self, selfLoad, draws, live)
         == Append(GroupsOf(ids[..i], owners, loads, self, selfLoad, draws, live),
                   Chosen(ids[i], owners, loads, self, selfLoad, draws(i), live), ids[i])
  {
    assert ids[..i + 1][..i] == ids[..i];
    var less, more := ids[..i], ids[..i + 1];
    forall j | 0 <= j < |more| ensures Candidates(owners, live(more[j]), more[j]) != [] {
      if j < i { assert less[j] == more[j]; }
    }
  }

  /** Power-of-two-choices over the union of static and live owners. */
  method GroupByOwnerLoaded(ids: seq<int>, owners: seq<Owner>, loads: map<ShardId, int>, self: ShardId, selfLoad: int,
                            draws: nat -> (nat, nat), live: int -> seq<ShardId>)
    returns (r: Result<Groups>)
    ensures r.Ok? <==> AllOwned(ids, owners, live)
    ensures r.Ok? ==> r.value == GroupsOf(ids, owners, loads, self, selfLoad, draws, live)
    ensures r.Err? ==> r.error.NoOwner?
  {
    var g := Groups([], map[]);
    for i := 0 to |ids|
      invariant AllOwned(ids[..i], owners, live)
      invariant g == GroupsOf(ids[..i], owners, loads, self, selfLoad, draws, live)
    {
      var e := ids[i];
      if Candidates(owners, live(e), e) == [] { return Err(NoOwner(e)); }
      GroupsOfStep(ids, i, owners, loads, self, selfLoad, draws, live);
      g := Append(g, Chosen(e, owners, loads, self, selfLoad, draws(i), live), e);
    }
    assert ids[..|ids|] == ids;
    r := Ok(g);
  }

  // ----------------------------------------------------------- aggregation

  /** [batch][position] of vectors. */
  type Tensor<V> = seq<seq<V>>

  datatype Routed<V, W> = Routed(postAttn: Tensor<V>, ids: seq<seq<seq<int>>>, weights: seq<seq<seq<W>>>)

  /** One decoder layer of the model; every part is an arbitrary function. */
  datatype Layer<!V, !W> = Layer(
    route: Tensor<V> -> Routed<V, W>,
    shared: Tensor<V> -> Tensor<V>,
    expert: (int, Tensor<V>) -> Tensor<V>,
    add: (V, V) -> V,
    scale: (W, V) -> V,
    norm: V -> V,
    outer: (Tensor<V>, Tensor<V>) -> Tensor<V>)

  ghost predicate SameShape<A, B>(a: seq<seq<A>>, b: seq<seq<B>>) {
    |a| == |b| && forall i :: 0 <= i < |a| ==> |a[i]| == |b[i]|
  }

  /** The parts agree on batch, position and top-k sizes, as tensors of one model do. */
  ghost predicate Shaped<V, W>(layer: Layer<V, W>, r: Routed<V, W>) {
    && SameShape(r.ids, r.weights) && SameShape(r.ids, layer.shared(r.postAttn))
    && (forall e: int :: SameShape(r.ids, layer.expert(e, r.postAttn)))
    && forall b, l :: 0 <= b < |r.ids| && 0 <= l < |r.ids[b]| ==> |r.ids[b][l]| == |r.weights[b][l]|
  }

  /** w0*x0 + w1*x1 + ... in slot order. */
  function WeightedSum<V, W>(layer: Layer<V, W>, xs: seq<V>, ws: seq<W>): V
    requires |xs| == |ws| > 0
  {
    var n := |xs|;
    if n == 1 then layer.scale(ws[0], xs[0])
    else layer.add(WeightedSum(layer, xs[..n - 1], ws[..n - 1]), layer.scale(ws[n - 1], xs[n - 1]))
  }

  /** Expert e's output vector at one position. */
  ghost function Cell<V, W>(layer: Layer<V, W>, r: Routed<V, W>, e: int, b: nat, l: nat): V
    requires Shaped(layer, r) && b < |r.ids| && l < |r.ids[b]|
  {
    assert SameShape(r.ids, layer.expert(e, r.postAttn));
    layer.expert(e, r.postAttn)[b][l]
  }

  ghost function Cells<V, W>(layer: Layer<V, W>, r: Routed<V, W>, b: nat, l: nat): (xs: seq<V>)
    requires Shaped(layer, r) && b < |r.ids| && l < |r.ids[b]|
    ensures |xs| == |r.ids[b][l]| && forall j :: 0 <= j < |xs| ==> xs[j] == Cell(layer, r, r.ids[b][l][j], b, l)
  {
    seq(|r.ids[b][l]|, j requires 0 <= j < |r.ids[b][l]| => Cell(layer, r, r.ids[b][l][j], b, l))
  }

  /** What one node computes at one position. */
  ghost function PositionValue<V, W>(layer: Layer<V, W>, r: Routed<V, W>, b: nat, l: nat): V
    requires Shaped(layer, r) && b < |r.ids| && l < |r.ids[b]| && r.ids[b][l] != []
  {
    layer.add(layer.shared(r.postAttn)[b][l],
              layer.norm(WeightedSum(layer, Cells(layer, r, b, l), r.weights[b][l])))
  }

  ghost predicate IsRow<V, W>(layer: Layer<V, W>, r: Routed<V, W>, b: nat, row: seq<V>)
    requires Shaped(layer, r) && b < |r.ids|
  {
    && |row| == |r.ids[b]|
    && forall l :: 0 <= l < |row| ==> r.ids[b][l] != [] && row[l] == PositionValue(layer, r, b, l)
  }

  /** The aggregated block equals the one-node value at every position. */
  ghost predicate IsBlock<V, W>(layer: Layer<V, W>, r: Routed<V, W>, block: Tensor<V>)
    requires Shaped(layer, r)
  {
    |block| == |r.ids| && forall b :: 0 <= b < |r.ids| ==> IsRow(layer, r, b, block[b])
  }

  /** Every output is the expert's own function of the post-attention state. */
  ghost predicate Right<V, W>(layer: Layer<V, W>, x: Tensor<V>, outs: map<int, Tensor<V>>) {
    forall e :: e in outs ==> outs[e] == layer.expert(e, x)
  }

  function Picked<V>(perPos: map<int, V>, ids: seq<int>): (xs: seq<V>)
    requires forall j :: 0 <= j < |ids| ==> ids[j] in perPos
    ensures |xs| == |ids| && forall j :: 0 <= j < |ids| ==> xs[j] == perPos[ids[j]]
  {
    seq(|ids|, j requires 0 <= j < |ids| => perPos[ids[j]])
  }

  /** The two-branch sum at one position: shared + norm(weighted sum of the chosen experts). */
  method AggregateOne<V, W>(layer: Layer<V, W>, perPos: map<int, V>, ids: seq<int>, ws: seq<W>, shared: V)
    returns (v: Result<V>)
    requires |ids| == |ws|
    ensures v.Ok? <==> ids != [] && forall j :: 0 <= j < |ids| ==> ids[j] in perPos
    ensures v.Ok? ==> v.value == layer.add(shared, layer.norm(WeightedSum(layer, Picked(perPos, ids), ws)))
  {
    if ids == [] { return Err(EmptyTopK); }
    if ids[0] !in perPos { return Err(MissingOutput(ids[0])); }
    var acc := layer.scale(ws[0], perPos[ids[0]]);
    for j := 1 to |ids|
      invariant forall i :: 0 <= i < j ==> ids[i] in perPos
      invariant acc == WeightedSum(layer, Picked(perPos, ids[..j]), ws[..j])
    {
      if ids[j] !in perPos { return Err(MissingOutput(ids[j])); }
      assert Picked(perPos, ids[..j + 1])[..j] == Picked(perPos, ids[..j]) && ws[..j + 1][..j] == ws[..j];
      acc := layer.add(acc, layer.scale(ws[j], perPos[ids[j]]));
    }
    assert ids[..|ids|] == ids && ws[..|ids|] == ws;
    v := Ok(layer.add(shared, layer.norm(acc)));
  }

  method AggregatePosition<V, W>(layer: Layer<V, W>, r: Routed<V, W>, outs: map<int, Tensor<V>>, b: nat, l: nat)
    returns (v: Result<V>)
    requires Shaped(layer, r) && Right(layer, r.postAttn, outs) && b < |r.ids| && l < |r.ids[b]|
    ensures v.Ok? <==> r.ids[b][l] != [] && forall e :: e in r.ids[b][l] ==> e in outs
    ensures v.Ok? ==> v.value == PositionValue(layer, r, b, l)
  {
    var ids := r.ids[b][l];
    var perPos: map<int, V> := map[];
    for j := 0 to |ids|
      invariant forall i :: 0 <= i < j ==> ids[i] in outs && ids[i] in perPos
      invariant forall e :: e in perPos ==> perPos[e] == Cell(layer, r, e, b, l)
    {
      if ids[j] !in outs { return Err(MissingOutput(ids[j])); }
      assert outs[ids[j]][b][l] == Cell(layer, r, ids[j], b, l);
      perPos := perPos[ids[j] := outs[ids[j]][b][l]];
    }
    assert Picked(perPos, ids) == Cells(layer, r, b, l);
    v := AggregateOne(layer, perPos, ids, r.weights[b][l], layer.shared(r.postAttn)[b][l]);
  }

  /** All top-k ids of the routing. */
  ghost predicate Routes<V, W>(r: Routed<V, W>, e: int) {
    exists b, l :: 0 <= b < |r.ids| && 0 <= l < |r.ids[b]| && e in r.ids[b][l]
  }

  ghost predicate FilledRow<V, W>(r: Routed<V, W>, b: nat)
    requires b < |r.ids|
  {
    r.ids[b] != [] && forall l :: 0 <= l < |r.ids[b]| ==> r.ids[b][l] != []
  }

  /** The outputs cover one row. */
  ghost predicate CoversRow<V, W>(r: Routed<V, W>, outs: map<int, Tensor<V>>, b: nat)
    requires b < |r.ids|
  {
    forall l, e :: 0 <= l < |r.ids[b]| && e in r.ids[b][l] ==> e in outs
  }

  /** Every row and position non-empty; mlx tensors of rank three with positive sizes. */
  ghost predicate Filled<V, W>(r: Routed<V, W>) {
    r.ids != [] && forall b :: 0 <= b < |r.ids| ==> FilledRow(r, b)
  }

  /** One row: it succeeds exactly when the row is filled and covered, and gives the one-node values. */
  method AggregateRow<V, W>(layer: Layer<V, W>, r: Routed<V, W>, outs: map<int, Tensor<V>>, b: nat)
    returns (row: Result<seq<V>>)
    requires Shaped(layer, r) && Right(layer, r.postAttn, outs) && b < |r.ids|
    ensures row.Ok? <==> FilledRow(r, b) && CoversRow(r, outs, b)
    ensures row.Ok? ==> IsRow(layer, r, b, row.value)
  {
    var cells: seq<V> := [];
    for l := 0 to |r.ids[b]|
      invariant |cells| == l
      invariant forall i :: 0 <= i < l ==> r.ids[b][i] != [] && cells[i] == PositionValue(layer, r, b, i)
      invariant forall i, e :: 0 <= i < l && e in r.ids[b][i] ==> e in outs
    {
      var v := AggregatePosition(layer, r, outs, b, l);
      if v.Err? { return Err(v.error); }
      cells := cells + [v.value];
    }
    if cells == [] { return Err(EmptyBatch); }
    row := Ok(cells);
  }

  /** The nested per-position loop: it returns the one-node block, and fails only for a missing output. */
  method AggregateExperts<V, W>(layer: Layer<V, W>, r: Routed<V, W>, outs: map<int, Tensor<V>>)
    returns (block: Result<Tensor<V>>)
    requires Shaped(layer, r) && Right(layer, r.postAttn, outs)
    ensures block.Ok? ==> IsBlock(layer, r, block.value)
    ensures block.Ok? <==> Filled(r) && forall e :: Routes(r, e) ==> e in outs
  {
    var rows: Tensor<V> := [];
    for b := 0 to |r.ids|
      invariant |rows| == b
      invariant forall i :: 0 <= i < b ==> FilledRow(r, i) && CoversRow(r, outs, i) && IsRow(layer, r, i, rows[i])
    {
      var row := AggregateRow(layer, r, outs, b);
      if row.Err? {
        assert !FilledRow(r, b) || !CoversRow(r, outs, b);
        return Err(row.error);
      }
      rows := rows + [row.value];
    }
    if rows == [] { return Err(EmptyBatch); }
    forall e | Routes(r, e) ensures e in outs {
      var b, l :| 0 <= b < |r.ids| && 0 <= l < |r.ids[b]| && e in r.ids[b][l];
      assert CoversRow(r, outs, b);
    }
    block := Ok(rows);
  }
}
