/**
 How honest shards build the provenance chain of one forward pass
 (mlx_engine.py, expert_orchestrator.py, node.py), and the proof that every
 hop accepts it. Hidden states are abstract; a kernel says what each layer
 computes, in what order the routed experts ran, and how a state is serialized.
 */
module ProvenanceBuild {
  import opened Common
  import opened Transport
  import opened Provenance

  datatype Compute<!H> = Compute(
    atomic: (int, H) -> H,
    attend: (int, H) -> H,
    routed: (int, H) -> seq<int>,
    shared: (int, H) -> H,
    expert: (int, int, H) -> H,
    merge: (int, H) -> H,
    finalize: H -> H,
    bytes: H -> seq<Byte>)

  /** A hidden state with the chain that accounts for it. */
  datatype Traced<H> = Traced(h: H, chain: seq<Entry>)

  function Built(r: Rules, node: ShardId, op: Op, bytes: seq<Byte>, parents: seq<Hash>): Entry {
    Entry(node, r.digest(parents, node, op, bytes), parents, Some(op))
  }

  /** The previous entry's hash, unless there is none or it is empty. */
  function Previous(chain: seq<Entry>): seq<Hash> {
    if chain == [] || chain[|chain| - 1].hash == [] then [] else [chain[|chain| - 1].hash]
  }

  function AtomicEntry<H>(k: Compute<H>, r: Rules, node: ShardId, l: int, p: Traced<H>): Entry {
    Built(r, node, Op(LayerAtomic, l, 0), k.bytes(k.atomic(l, p.h)), Previous(p.chain))
  }

  function RouteEntry<H>(k: Compute<H>, r: Rules, node: ShardId, l: int, p: Traced<H>): Entry {
    Built(r, node, Op(AttentionRoute, l, 0), k.bytes(k.attend(l, p.h)), Previous(p.chain))
  }

  function SharedEntry<H>(k: Compute<H>, r: Rules, node: ShardId, l: int, a: H, route: Hash): Entry {
    Built(r, node, Op(SharedExpert, l, 0), k.bytes(k.shared(l, a)), [route])
  }

  function ExpertEntries<H>(k: Compute<H>, r: Rules, node: ShardId, l: int, a: H, route: Hash,
      ids: seq<int>): (es: seq<Entry>)
    ensures |es| == |ids|
    ensures forall i :: 0 <= i < |es| ==> es[i].node == node && es[i].op == Some(Op(Expert, l, ids[i]))
  {
    if ids == [] then []
    else
      var n := |ids| - 1;
      ExpertEntries(k, r, node, l, a, route, ids[..n])
        + [Built(r, node, Op(Expert, l, ids[n]), k.bytes(k.expert(l, ids[n], a)), [route])]
  }

  predicate Contributes(e: Entry, l: int) { Is(e, SharedExpert, l) || Is(e, Expert, l) }

  /** Hashes of every shared-expert and expert entry of a layer. */
  function ChildHashes(chain: seq<Entry>, l: int): seq<Hash> {
    if chain == [] then []
    else
      var n := |chain| - 1;
      ChildHashes(chain[..n], l) + if Contributes(chain[n], l) then [chain[n].hash] else []
  }

  /** The chain up to, not including, the aggregate of a split layer. */
  function OpenChain<H>(k: Compute<H>, r: Rules, node: ShardId, l: int, p: Traced<H>): seq<Entry> {
    var a := k.attend(l, p.h);
    var route := RouteEntry(k, r, node, l, p);
    p.chain + [route, SharedEntry(k, r, node, l, a, route.hash)]
      + ExpertEntries(k, r, node, l, a, route.hash, k.routed(l, a))
  }

  function LayerStep<H>(k: Compute<H>, r: Rules, node: ShardId, l: int, p: Traced<H>): Traced<H> {
    if l in r.split(node) then
      var open, h := OpenChain(k, r, node, l, p), k.merge(l, k.attend(l, p.h));
      Traced(h, open + [Built(r, node, Op(Aggregate, l, 0), k.bytes(h), ChildHashes(open, l))])
    else Traced(k.atomic(l, p.h), p.chain + [AtomicEntry(k, r, node, l, p)])
  }

  /** A step repeated for start .. end-1. */
  function Repeated<P>(step: (int, P) -> P, start: int, end: int, p: P): P
    decreases end - start
  {
    if end <= start then p else step(end - 1, Repeated(step, start, end - 1, p))
  }

  /** Whatever each step keeps, repeating it keeps. */
  lemma {:induction false} RepeatedKeeps<P(!new)>(step: (int, P) -> P, start: int, end: int, p: P,
      keeps: (P, int) -> bool)
    requires start <= end && keeps(p, start)
    requires forall m, q :: start <= m < end && keeps(q, m) ==> keeps(step(m, q), m + 1)
    ensures keeps(Repeated(step, start, end, p), end)
    decreases end - start
  {
    if start < end { RepeatedKeeps(step, start, end - 1, p, keeps); }
  }

  function Steps<H>(k: Compute<H>, r: Rules, node: ShardId): (int, Traced<H>) -> Traced<H> {
    (l: int, p: Traced<H>) => LayerStep(k, r, node, l, p)
  }

  /** Layers start .. end-1, all run by one node. */
  function TracedLayers<H>(k: Compute<H>, r: Rules, node: ShardId, start: int, end: int, p: Traced<H>): Traced<H> {
    Repeated(Steps(k, r, node), start, end, p)
  }

  function Embedded<H>(k: Compute<H>, r: Rules, head: ShardId, h: H): Traced<H> {
    Traced(h, [Built(r, head, Op(Embed, 0, 0), k.bytes(h), [])])
  }

  function Finished<H>(k: Compute<H>, r: Rules, node: ShardId, p: Traced<H>): Traced<H> {
    var logits := k.finalize(p.h);
    Traced(logits, p.chain + [Built(r, node, Op(Finalize, 0, 0), k.bytes(logits),
                                  if p.chain == [] then [] else [p.chain[|p.chain| - 1].hash])])
  }

  // --------------------------------------------------------------- methods

  method CollectChildren(chain: seq<Entry>, l: int) returns (hashes: seq<Hash>)
    ensures hashes == ChildHashes(chain, l)
  {
    hashes := [];
    for i := 0 to |chain|
      invariant hashes == ChildHashes(chain[..i], l)
    {
      assert chain[..i + 1][..i] == chain[..i];
      if Contributes(chain[i], l) { hashes := hashes + [chain[i].hash]; }
    }
    assert chain[..|chain|] == chain;
  }

  method RunSplitLayer<H>(k: Compute<H>, r: Rules, node: ShardId, l: int, p: Traced<H>) returns (q: Traced<H>)
    requires l in r.split(node)
    ensures q == LayerStep(k, r, node, l, p)
  {
    var a := k.attend(l, p.h);
    var ids := k.routed(l, a);
    var route := Built(r, node, Op(AttentionRoute, l, 0), k.bytes(a), Previous(p.chain));
    var chain := p.chain + [route];
    chain := chain + [Built(r, node, Op(SharedExpert, l, 0), k.bytes(k.shared(l, a)), [route.hash])];
    ghost var before := chain;
    for i := 0 to |ids|
      invariant chain == before + ExpertEntries(k, r, node, l, a, route.hash, ids[..i])
    {
      assert ids[..i + 1][..i] == ids[..i];
      chain := chain + [Built(r, node, Op(Expert, l, ids[i]), k.bytes(k.expert(l, ids[i], a)), [route.hash])];
    }
    assert ids[..|ids|] == ids;
    assert chain == OpenChain(k, r, node, l, p);
    var children := CollectChildren(chain, l);
    var h := k.merge(l, a);
    q := Traced(h, chain + [Built(r, node, Op(Aggregate, l, 0), k.bytes(h), children)]);
  }

  method RunLayer<H>(k: Compute<H>, r: Rules, node: ShardId, l: int, p: Traced<H>) returns (q: Traced<H>)
    ensures q == LayerStep(k, r, node, l, p)
  {
    if l in r.split(node) {
      q := RunSplitLayer(k, r, node, l, p);
    } else {
      var h := k.atomic(l, p.h);
      q := Traced(h, p.chain + [Built(r, node, Op(LayerAtomic, l, 0), k.bytes(h), Previous(p.chain))]);
    }
  }

  /** The loop over layers, for a step function that agrees with what each layer does. */
  method RunRange<H(!new)>(k: Compute<H>, r: Rules, node: ShardId, start: int, end: int, p: Traced<H>,
                           ghost step: (int, Traced<H>) -> Traced<H>)
    returns (q: Traced<H>)
    requires forall l, t {:trigger LayerStep(k, r, node, l, t)} :: step(l, t) == LayerStep(k, r, node, l, t)
    ensures q == Repeated(step, start, end, p)
  {
    q := p;
    var i := start;
    while i < end
      invariant start <= i <= Max(start, end)
      invariant q == Repeated(step, start, i, p)
    {
      q := RunLayer(k, r, node, i, q);
      i := i + 1;
    }
  }

  method RunTracedLayers<H(!new)>(k: Compute<H>, r: Rules, node: ShardId, start: int, end: int, p: Traced<H>)
    returns (q: Traced<H>)
    ensures q == TracedLayers(k, r, node, start, end, p)
  {
    q := RunRange(k, r, node, start, end, p, Steps(k, r, node));
  }

  // ---------------------------------------------------------- completeness

  /** At a split layer the node routes to distinct experts it owns. */
  ghost predicate RoutesHome<H(!new)>(k: Compute<H>, r: Rules, node: ShardId, l: int) {
    forall a :: k.routed(l, a) != [] && Distinct(k.routed(l, a)) && OwnsAll(r, node, l, k.routed(l, a))
  }

  predicate OwnsAll(r: Rules, node: ShardId, l: int, ids: seq<int>) {
    forall i :: 0 <= i < |ids| ==> node in r.owners(l, ids[i])
  }

  /** The node hosts the layer and runs it as the shard map says. */
  ghost predicate Honest<H(!new)>(k: Compute<H>, r: Rules, node: ShardId, l: int) {
    Hosts(r, node, l) && (l in r.split(node) ==> RoutesHome(k, r, node, l))
  }

  /** A pass that has run exactly the layers below m. */
  ghost predicate Sound<H>(k: Compute<H>, r: Rules, p: Traced<H>, m: int) {
    && p.chain != [] && IsKind(p.chain[0], Embed)
    && (forall i :: 0 <= i < |p.chain| ==> Settled(p.chain[i], r, m))
    && (forall l :: Covered(p.chain, l) <==> 0 <= l < m)
    && Shaped(p.chain)
    && TailMatches(p.chain, r, Some(k.bytes(p.h)))
  }

  /** An authorized entry of an open chain, about a layer already run. */
  predicate Settled(e: Entry, r: Rules, m: int) {
    && e.op.Some? && e.op.value.kind != Finalize && Authorized(e, r)
    && (e.op.value.kind == Embed || e.op.value.layer < m)
  }

  lemma {:induction false} SelectAppend(a: seq<Entry>, b: seq<Entry>, k: Kind, l: int)
    ensures Select(a + b, k, l) == Select(a, k, l) + Select(b, k, l)
  {
    if b == [] {
      assert a + b == a;
    } else {
      var n := |b| - 1;
      assert (a + b)[..|a + b| - 1] == a + b[..n];
      SelectAppend(a, b[..n], k, l);
    }
  }

  lemma {:induction false} SelectAll(es: seq<Entry>, k: Kind, l: int)
    requires forall i :: 0 <= i < |es| ==> Is(es[i], k, l)
    ensures Select(es, k, l) == es
  {
    if es != [] { SelectAll(es[..|es| - 1], k, l); }
  }

  lemma {:induction false} ChildIn(chain: seq<Entry>, l: int, i: int)
    requires 0 <= i < |chain| && Contributes(chain[i], l)
    ensures chain[i].hash in ChildHashes(chain, l)
  {
    var n := |chain| - 1;
    if i < n { ChildIn(chain[..n], l, i); }
  }

  lemma CoveredAppend(a: seq<Entry>, b: seq<Entry>, l: int)
    ensures Covered(a + b, l) <==> Covered(a, l) || Covered(b, l)
  {
    var c := a + b;
    if Covered(a, l) {
      var i :| 0 <= i < |a| && (Is(a[i], LayerAtomic, l) || Is(a[i], Aggregate, l));
      assert c[i] == a[i];
    }
    if Covered(b, l) {
      var i :| 0 <= i < |b| && (Is(b[i], LayerAtomic, l) || Is(b[i], Aggregate, l));
      assert c[|a| + i] == b[i];
    }
  }

  /** New entries all about layer m leave the shape of every other layer alone. */
  lemma ShapedAppend(a: seq<Entry>, b: seq<Entry>, m: int)
    requires Shaped(a) && forall i :: 0 <= i < |b| ==> b[i].op.Some? && b[i].op.value.layer == m
    requires HasSplit(a + b, m) ==> ShapeAt(a + b, m)
    ensures Shaped(a + b)
  {
    var c := a + b;
    forall l | HasSplit(c, l) && l != m ensures ShapeAt(c, l) {
      var i :| 0 <= i < |c| && c[i].op.Some? && SplitKind(c[i].op.value.kind) && c[i].op.value.layer == l;
      assert c[i] == a[i];
      assert HasSplit(a, l);
      SelectAppend(a, b, AttentionRoute, l);
      SelectAppend(a, b, SharedExpert, l);
      SelectAppend(a, b, Expert, l);
      SelectAppend(a, b, Aggregate, l);
      NotHere(b, l, m);
    }
  }

  lemma NotHere(b: seq<Entry>, l: int, m: int)
    requires l != m && forall i :: 0 <= i < |b| ==> b[i].op.Some? && b[i].op.value.layer == m
    ensures BucketAt(b, l) == Bucket([], [], [], [])
  {
    NoSplitEmpty(b, l);
  }

  lemma AtomicKeepsSound<H(!new)>(k: Compute<H>, r: Rules, node: ShardId, m: int, p: Traced<H>)
    requires Sound(k, r, p, m) && Honest(k, r, node, m) && 0 <= m && m !in r.split(node)
    ensures Sound(k, r, LayerStep(k, r, node, m, p), m + 1)
  {
    var q := LayerStep(k, r, node, m, p);
    var e := AtomicEntry(k, r, node, m, p);
    assert q.chain == p.chain + [e] && q.chain[0] == p.chain[0];
    assert Authorized(e, r);
    forall i | 0 <= i < |q.chain| ensures Settled(q.chain[i], r, m + 1) {
      if i < |p.chain| { assert Settled(p.chain[i], r, m); }
    }
    assert Is([e][0], LayerAtomic, m);
    assert Covered([e], m);
    forall l ensures Covered(q.chain, l) <==> 0 <= l < m + 1 {
      CoveredAppend(p.chain, [e], l);
    }
    assert !HasSplit(q.chain, m) by {
      forall i | 0 <= i < |p.chain| ensures Settled(p.chain[i], r, m) {}
    }
    ShapedAppend(p.chain, [e], m);
  }

  /** What a split layer adds: a route, a shared expert, one entry per expert, an aggregate over their hashes. */
  ghost predicate BlockOf(b: seq<Entry>, node: ShardId, m: int, ids: seq<int>) {
    && |b| == |ids| + 3
    && (forall i :: 0 <= i < |b| ==> b[i].node == node && b[i].op.Some? && b[i].op.value.layer == m)
    && b[0].op.value.kind == AttentionRoute && b[1].op.value.kind == SharedExpert
    && (forall i :: 2 <= i < |b| - 1 ==> b[i].op == Some(Op(Expert, m, ids[i - 2])))
    && b[|b| - 1].op.value.kind == Aggregate
    && (forall i :: 1 <= i < |b| - 1 ==> b[i].hash in b[|b| - 1].parents)
  }

  lemma SplitBlock<H>(k: Compute<H>, r: Rules, node: ShardId, m: int, p: Traced<H>) returns (b: seq<Entry>)
    requires m in r.split(node)
    ensures LayerStep(k, r, node, m, p).chain == p.chain + b
    ensures BlockOf(b, node, m, k.routed(m, k.attend(m, p.h)))
  {
    var a := k.attend(m, p.h);
    var ids := k.routed(m, a);
    var route := RouteEntry(k, r, node, m, p);
    var es := ExpertEntries(k, r, node, m, a, route.hash, ids);
    var open := OpenChain(k, r, node, m, p);
    var q := LayerStep(k, r, node, m, p);
    b := [route, SharedEntry(k, r, node, m, a, route.hash)] + es + [q.chain[|open|]];
    assert q.chain == p.chain + b;
    forall i | 2 <= i < |b| - 1 ensures b[i].op == Some(Op(Expert, m, ids[i - 2])) && b[i].node == node {
      assert b[i] == es[i - 2];
    }
    forall i | 1 <= i < |b| - 1 ensures b[i].hash in b[|b| - 1].parents {
      assert open[|p.chain| + i] == b[i];
      if i >= 2 { assert b[i] == es[i - 2]; }
      ChildIn(open, m, |p.chain| + i);
    }
    forall i | 0 <= i < |b| ensures b[i].node == node && b[i].op.Some? && b[i].op.value.layer == m {
      if 2 <= i < |b| - 1 { assert b[i] == es[i - 2]; }
    }
  }

  lemma BlockSelects(x: Entry, y: Entry, mid: seq<Entry>, z: Entry, m: int)
    requires Is(x, AttentionRoute, m) && Is(y, SharedExpert, m) && Is(z, Aggregate, m)
    requires forall i :: 0 <= i < |mid| ==> Is(mid[i], Expert, m)
    ensures BucketAt([x] + ([y] + (mid + [z])), m) == Bucket([x], [y], mid, [z])
  {
    SelectAll(mid, Expert, m);
    SelectNone(mid, AttentionRoute, m);
    SelectNone(mid, SharedExpert, m);
    SelectNone(mid, Aggregate, m);
    SelectBlock(x, y, mid, z, AttentionRoute, m);
    SelectBlock(x, y, mid, z, SharedExpert, m);
    SelectBlock(x, y, mid, z, Expert, m);
    SelectBlock(x, y, mid, z, Aggregate, m);
  }

  lemma BlockShape(b: seq<Entry>, node: ShardId, m: int, ids: seq<int>)
    requires BlockOf(b, node, m, ids) && ids != [] && Distinct(ids)
    ensures ShapeAt(b, m)
  {
    var mid := b[2..|b| - 1];
    var last := b[|b| - 1];
    assert b == [b[0]] + ([b[1]] + (mid + [last]));
    assert forall i :: 0 <= i < |mid| ==> mid[i] == b[i + 2];
    BlockSelects(b[0], b[1], mid, last, m);
    assert BucketAt(b, m) == Bucket([b[0]], [b[1]], mid, [last]);
  }

  function One(e: Entry, k: Kind, l: int): seq<Entry> { if Is(e, k, l) then [e] else [] }

  lemma SelectBlock(x: Entry, y: Entry, mid: seq<Entry>, z: Entry, k: Kind, l: int)
    ensures Select([x] + ([y] + (mid + [z])), k, l)
         == One(x, k, l) + (One(y, k, l) + (Select(mid, k, l) + One(z, k, l)))
  {
    SelectAppend([x], [y] + (mid + [z]), k, l);
    SelectAppend([y], mid + [z], k, l);
    SelectAppend(mid, [z], k, l);
    SelectOne(x, k, l);
    SelectOne(y, k, l);
    SelectOne(z, k, l);
  }

  lemma SelectOne(e: Entry, k: Kind, l: int)
    ensures Select([e], k, l) == One(e, k, l)
  {
    assert [e][..0] == [];
  }

  /** Nothing at a layer before, a good shape added: the whole has that shape. */
  lemma ShapeAfter(a: seq<Entry>, b: seq<Entry>, m: int)
    requires !HasSplit(a, m) && ShapeAt(b, m)
    ensures ShapeAt(a + b, m)
  {
    NoSplitEmpty(a, m);
    SelectAppend(a, b, AttentionRoute, m);
    SelectAppend(a, b, SharedExpert, m);
    SelectAppend(a, b, Expert, m);
    SelectAppend(a, b, Aggregate, m);
  }

  lemma BlockSettled(b: seq<Entry>, r: Rules, node: ShardId, m: int, ids: seq<int>)
    requires BlockOf(b, node, m, ids) && m in r.split(node) && Hosts(r, node, m)
    requires OwnsAll(r, node, m, ids)
    ensures forall i :: 0 <= i < |b| ==> Settled(b[i], r, m + 1)
    ensures forall l :: Covered(b, l) <==> l == m
  {
    forall i | 0 <= i < |b| ensures Settled(b[i], r, m + 1) {
      if 2 <= i < |b| - 1 { assert node in r.owners(m, ids[i - 2]); }
    }
    assert Is(b[|b| - 1], Aggregate, m);
  }

  lemma SplitKeepsSound<H(!new)>(k: Compute<H>, r: Rules, node: ShardId, m: int, p: Traced<H>)
    requires Sound(k, r, p, m) && Honest(k, r, node, m) && 0 <= m && m in r.split(node)
    ensures Sound(k, r, LayerStep(k, r, node, m, p), m + 1)
  {
    var q := LayerStep(k, r, node, m, p);
    var ids := k.routed(m, k.attend(m, p.h));
    var b := SplitBlock(k, r, node, m, p);
    BlockSettled(b, r, node, m, ids);
    BlockShape(b, node, m, ids);
    forall i | 0 <= i < |q.chain| ensures Settled(q.chain[i], r, m + 1) {
      if i < |p.chain| { assert Settled(p.chain[i], r, m); } else { assert q.chain[i] == b[i - |p.chain|]; }
    }
    forall l ensures Covered(q.chain, l) <==> 0 <= l < m + 1 {
      CoveredAppend(p.chain, b, l);
    }
    assert !HasSplit(p.chain, m) by {
      forall i | 0 <= i < |p.chain| ensures Settled(p.chain[i], r, m) {}
    }
    ShapeAfter(p.chain, b, m);
    ShapedAppend(p.chain, b, m);
    assert q.chain[0] == p.chain[0];
  }

  lemma StepKeepsSound<H(!new)>(k: Compute<H>, r: Rules, node: ShardId, m: int, p: Traced<H>)
    requires Sound(k, r, p, m) && Honest(k, r, node, m) && 0 <= m
    ensures Sound(k, r, LayerStep(k, r, node, m, p), m + 1)
  {
    if m in r.split(node) { SplitKeepsSound(k, r, node, m, p); } else { AtomicKeepsSound(k, r, node, m, p); }
  }

  lemma LayersKeepSound<H(!new)>(k: Compute<H>, r: Rules, node: ShardId, start: int, end: int, p: Traced<H>)
    requires Sound(k, r, p, start) && 0 <= start <= end
    requires forall l :: start <= l < end ==> Honest(k, r, node, l)
    ensures Sound(k, r, TracedLayers(k, r, node, start, end, p), end)
  {
    var step, keeps := Steps(k, r, node), (q: Traced<H>, m: int) => Sound(k, r, q, m);
    forall m, q | start <= m < end && keeps(q, m) ensures keeps(step(m, q), m + 1) {
      StepKeepsSound(k, r, node, m, q);
    }
    RepeatedKeeps(step, start, end, p, keeps);
  }

  lemma EmbeddedSound<H>(k: Compute<H>, r: Rules, head: ShardId, h: H)
    requires r.range(head).start == 0
    ensures Sound(k, r, Embedded(k, r, head, h), 0)
  {
    var chain := Embedded(k, r, head, h).chain;
    assert Settled(chain[0], r, 0);
  }

  lemma SoundIsValid<H>(k: Compute<H>, r: Rules, p: Traced<H>, m: int)
    requires Sound(k, r, p, m)
    ensures ValidChain(p.chain, r, Some(k.bytes(p.h)))
  {
    forall i | 0 <= i < |p.chain| ensures Authorized(p.chain[i], r) && !IsKind(p.chain[i], Finalize) {
      assert Settled(p.chain[i], r, m);
    }
  }

  /** The finished chain, with the tail's finalize entry, is valid for the logits. */
  lemma FinishedIsValid<H>(k: Compute<H>, r: Rules, node: ShardId, p: Traced<H>)
    requires Sound(k, r, p, r.total) && r.range(node).end == r.total
    ensures Completed(k, r, Finished(k, r, node, p))
  {
    var q := Finished(k, r, node, p);
    var e := q.chain[|p.chain|];
    assert q.chain == p.chain + [e];
    forall i | 0 <= i < |p.chain| ensures Settled(q.chain[i], r, r.total) { assert Settled(p.chain[i], r, r.total); }
    forall l | 0 <= l < r.total ensures Covered(q.chain, l) { CoveredAppend(p.chain, [e], l); }
    SelectFinalize(p.chain, e);
    assert HasFinalize(q.chain);
    assert q.chain[0] == p.chain[0];
  }

  lemma SelectFinalize(a: seq<Entry>, e: Entry)
    requires Shaped(a) && IsKind(e, Finalize)
    ensures Shaped(a + [e])
  {
    var c := a + [e];
    forall l | HasSplit(c, l) ensures ShapeAt(c, l) {
      var i :| 0 <= i < |c| && c[i].op.Some? && SplitKind(c[i].op.value.kind) && c[i].op.value.layer == l;
      assert c[i] == a[i];
      assert HasSplit(a, l);
      assert c[..|a|] == a;
    }
  }

  // ------------------------------------------------------- hidden states

  /** What layer l makes of a hidden state at a node that runs it whole or split. */
  ghost predicate LayerMakes<H>(k: Compute<H>, r: Rules, node: ShardId, l: int, x: H, y: H) {
    y == if l in r.split(node) then k.merge(l, k.attend(l, x)) else k.atomic(l, x)
  }

  ghost predicate Advances<H>(k: Compute<H>, r: Rules, node: ShardId, start: int, end: int, hs: seq<H>) {
    && start <= end && |hs| == end - start + 1
    && forall i :: 0 <= i < end - start ==> AdvancesAt(k, r, node, start, hs, i)
  }

  ghost predicate AdvancesAt<H>(k: Compute<H>, r: Rules, node: ShardId, start: int, hs: seq<H>, i: nat)
    requires i + 1 < |hs|
  {
    LayerMakes(k, r, node, start + i, hs[i], hs[i + 1])
  }

  lemma {:induction false} LayersAdvance<H>(k: Compute<H>, r: Rules, node: ShardId, start: int, end: int, p: Traced<H>)
    returns (hs: seq<H>)
    requires start <= end
    ensures Advances(k, r, node, start, end, hs)
    ensures hs[0] == p.h && hs[end - start] == TracedLayers(k, r, node, start, end, p).h
    decreases end - start
  {
    if start == end {
      hs := [p.h];
    } else {
      var less := LayersAdvance(k, r, node, start, end - 1, p);
      var q := TracedLayers(k, r, node, start, end, p);
      hs := less + [q.h];
      forall i | 0 <= i < end - start ensures AdvancesAt(k, r, node, start, hs, i) {
        assert i < end - 1 - start ==> AdvancesAt(k, r, node, start, less, i);
      }
    }
  }

  /** The states of a pass over layers 0 .. n-1, each layer computed by a shard that hosts it. */
  ghost predicate Computed<H>(k: Compute<H>, r: Rules, shards: seq<ShardId>, h: H, hs: seq<H>, n: int) {
    && 0 <= n && |hs| == n + 1 && hs[0] == h
    && forall l :: 0 <= l < n ==> ComputedAt(k, r, shards, hs, l)
  }

  ghost predicate ComputedAt<H>(k: Compute<H>, r: Rules, shards: seq<ShardId>, hs: seq<H>, l: int)
    requires 0 <= l < |hs| - 1
  {
    exists i :: 0 <= i < |shards| && Hosts(r, shards[i], l) && LayerMakes(k, r, shards[i], l, hs[l], hs[l + 1])
  }

  lemma ComputedMore<H>(k: Compute<H>, r: Rules, shards: seq<ShardId>, h: H, hs: seq<H>, n: int, i: nat, part: seq<H>)
    requires Computed(k, r, shards, h, hs, n) && i < |shards| && r.range(shards[i]).start == n
    requires Advances(k, r, shards[i], n, r.range(shards[i]).end, part) && part[0] == hs[n]
    ensures Computed(k, r, shards, h, hs[..n] + part, r.range(shards[i]).end)
  {
    var m, all := r.range(shards[i]).end, hs[..n] + part;
    assert all[n] == hs[n];
    forall l | 0 <= l < m ensures ComputedAt(k, r, shards, all, l) {
      if l < n {
        assert ComputedAt(k, r, shards, hs, l);
        assert all[l] == hs[l] && all[l + 1] == hs[l + 1];
      } else {
        assert AdvancesAt(k, r, shards[i], n, part, l - n);
        assert all[l] == part[l - n] && all[l + 1] == part[l - n + 1];
        assert Hosts(r, shards[i], l);
      }
    }
  }

  // ------------------------------------------------------------------ ring

  /** Consecutive shards tile the layers 0 .. total. */
  ghost predicate Tiles(r: Rules, shards: seq<ShardId>) {
    && shards != [] && r.range(shards[0]).start == 0 && r.range(shards[|shards| - 1]).end == r.total
    && (forall i :: 0 <= i < |shards| ==> r.range(shards[i]).start <= r.range(shards[i]).end)
    && forall i, j :: 0 <= i && j == i + 1 && j < |shards| ==> r.range(shards[i]).end == r.range(shards[j]).start
  }

  ghost predicate HonestShard<H(!new)>(k: Compute<H>, r: Rules, node: ShardId) {
    forall l :: Hosts(r, node, l) ==> Honest(k, r, node, l)
  }

  /** A shard receives an activation: it validates the chain against the tensor bytes, then runs its own layers. */
  method Hop<H(!new)>(k: Compute<H>, r: Rules, node: ShardId, p: Traced<H>)
    returns (accepted: bool, q: Traced<H>, ghost part: seq<H>)
    requires Sound(k, r, p, r.range(node).start) && 0 <= r.range(node).start <= r.range(node).end
    requires HonestShard(k, r, node)
    ensures accepted && Sound(k, r, q, r.range(node).end)
    ensures Advances(k, r, node, r.range(node).start, r.range(node).end, part)
    ensures part[0] == p.h && part[|part| - 1] == q.h
  {
    SoundIsValid(k, r, p, r.range(node).start);
    part := LayersAdvance(k, r, node, r.range(node).start, r.range(node).end, p);
    accepted := ValidateChain(p.chain, r, Some(k.bytes(p.h)));
    if !accepted { return false, p, part; }
    LayersKeepSound(k, r, node, r.range(node).start, r.range(node).end, p);
    q := RunTracedLayers(k, r, node, r.range(node).start, r.range(node).end, p);
  }

  ghost predicate Completed<H>(k: Compute<H>, r: Rules, q: Traced<H>) {
    && ValidChain(q.chain, r, Some(k.bytes(q.h))) && IsKind(q.chain[|q.chain| - 1], Finalize)
    && forall l :: 0 <= l < r.total ==> Covered(q.chain, l)
  }

  /** The pass has run the layers below m: its chain is sound and its state is what they make of the embedding. */
  ghost predicate OnTheWay<H>(k: Compute<H>, r: Rules, shards: seq<ShardId>, h: H, hs: seq<H>, q: Traced<H>, m: int) {
    Sound(k, r, q, m) && Computed(k, r, shards, h, hs, m) && q.h == hs[m]
  }

  /** The head embeds and runs its own layers. */
  method SetOut<H(!new)>(k: Compute<H>, r: Rules, shards: seq<ShardId>, h: H) returns (q: Traced<H>, ghost hs: seq<H>)
    requires Tiles(r, shards) && HonestShard(k, r, shards[0])
    ensures OnTheWay(k, r, shards, h, hs, q, r.range(shards[0]).end)
  {
    q := Embedded(k, r, shards[0], h);
    EmbeddedSound(k, r, shards[0], h);
    LayersKeepSound(k, r, shards[0], 0, r.range(shards[0]).end, q);
    hs := LayersAdvance(k, r, shards[0], 0, r.range(shards[0]).end, q);
    ComputedMore(k, r, shards, h, [h], 0, 0, hs);
    assert [h][..0] + hs == hs;
    q := RunTracedLayers(k, r, shards[0], 0, r.range(shards[0]).end, q);
  }

  /** The next shard takes the pass on. */
  method GoOn<H(!new)>(k: Compute<H>, r: Rules, shards: seq<ShardId>, i: nat, p: Traced<H>, ghost h: H,
                       ghost hs: seq<H>)
    returns (accepted: bool, q: Traced<H>, ghost hs': seq<H>)
    requires i < |shards| && 0 <= r.range(shards[i]).start <= r.range(shards[i]).end && HonestShard(k, r, shards[i])
    requires OnTheWay(k, r, shards, h, hs, p, r.range(shards[i]).start)
    ensures accepted && OnTheWay(k, r, shards, h, hs', q, r.range(shards[i]).end)
  {
    ghost var part;
    accepted, q, part := Hop(k, r, shards[i], p);
    ghost var n := r.range(shards[i]).start;
    ComputedMore(k, r, shards, h, hs, n, i, part);
    hs' := hs[..n] + part;
    assert hs'[r.range(shards[i]).end] == part[|part| - 1];
  }

  /** One pass around the ring: the head embeds and runs its layers, every later shard validates the chain that
      arrives with the tensor bytes before running its own, and the tail finalizes. No hop ever rejects, and the result
      is what the layers make of the embedding, one after the other. */
  method RunRing<H(!new)>(k: Compute<H>, r: Rules, shards: seq<ShardId>, h: H)
    returns (rejected: Option<int>, q: Traced<H>, ghost hs: seq<H>)
    requires Tiles(r, shards) && forall i :: 0 <= i < |shards| ==> HonestShard(k, r, shards[i])
    ensures rejected == None && Completed(k, r, q)
    ensures Computed(k, r, shards, h, hs, r.total) && q.h == k.finalize(hs[r.total])
  {
    rejected := None;
    q, hs := SetOut(k, r, shards, h);
    for i := 1 to |shards|
      invariant rejected == None && 0 <= r.range(shards[i - 1]).end
      invariant OnTheWay(k, r, shards, h, hs, q, r.range(shards[i - 1]).end)
    {
      var accepted;
      accepted, q, hs := GoOn(k, r, shards, i, q, h, hs);
      if !accepted { rejected := Some(i); return; }
    }
    FinishedIsValid(k, r, shards[|shards| - 1], q);
    q := Finished(k, r, shards[|shards| - 1], q);
  }
}
