/**
 The provenance chain and its validator (provenance.py, request.py). The digest
 is an arbitrary function of parents, node, operation and output bytes.
 */
module Provenance {
  import opened Common
  import opened Transport

  type Hash = seq<Byte>

  datatype Kind = Unspecified | Embed | LayerAtomic | AttentionRoute | Expert | Aggregate | Finalize | SharedExpert

  datatype Op = Op(kind: Kind, layer: int, expert: int)

  datatype Entry = Entry(node: ShardId, hash: Hash, parents: seq<Hash>, op: Option<Op>)

  datatype Range = Range(start: int, end: int)

  /** What the validator is told about the cluster. */
  datatype Rules = Rules(
    range: ShardId -> Range,
    total: int,
    split: ShardId -> set<int>,
    owners: (int, int) -> set<ShardId>,
    digest: (seq<Hash>, ShardId, Op, seq<Byte>) -> Hash)

  predicate Is(e: Entry, k: Kind, layer: int) {
    e.op.Some? && e.op.value.kind == k && e.op.value.layer == layer
  }

  predicate IsKind(e: Entry, k: Kind) { e.op.Some? && e.op.value.kind == k }

  predicate SplitKind(k: Kind) { k == AttentionRoute || k == SharedExpert || k == Expert || k == Aggregate }

  /** The entries of one kind at one layer, in chain order. */
  function Select(chain: seq<Entry>, k: Kind, layer: int): seq<Entry> {
    if chain == [] then []
    else
      var n := |chain| - 1;
      Select(chain[..n], k, layer) + if Is(chain[n], k, layer) then [chain[n]] else []
  }

  lemma {:induction false} SelectMembers(chain: seq<Entry>, k: Kind, layer: int, e: Entry)
    ensures e in Select(chain, k, layer) <==> e in chain && Is(e, k, layer)
  {
    if chain != [] {
      SelectMembers(chain[..|chain| - 1], k, layer, e);
      assert chain == chain[..|chain| - 1] + [chain[|chain| - 1]];
    }
  }

  ghost predicate Covered(chain: seq<Entry>, layer: int) {
    exists i :: 0 <= i < |chain| && (Is(chain[i], LayerAtomic, layer) || Is(chain[i], Aggregate, layer))
  }

  ghost predicate HasFinalize(chain: seq<Entry>) { exists i :: 0 <= i < |chain| && IsKind(chain[i], Finalize) }

  ghost predicate HasSplit(chain: seq<Entry>, layer: int) {
    exists i :: 0 <= i < |chain| && chain[i].op.Some? && SplitKind(chain[i].op.value.kind)
        && chain[i].op.value.layer == layer
  }

  // ----------------------------------------------------------------- rules

  /** Rule 1: the chain starts with an embedding and finalize comes only last. */
  ghost predicate Starts(chain: seq<Entry>) {
    chain != [] && IsKind(chain[0], Embed) && forall i :: 0 <= i < |chain| - 1 ==> !IsKind(chain[i], Finalize)
  }

  /** Rule 2: a finished chain covers every layer, an open one every layer below its highest. */
  ghost predicate Complete(chain: seq<Entry>, total: int) {
    if HasFinalize(chain) then forall l :: 0 <= l < total ==> Covered(chain, l)
    else forall h, l :: Covered(chain, h) && 0 <= l <= h ==> Covered(chain, l)
  }

  ghost predicate DistinctExperts(es: seq<Entry>) {
    forall i, j :: 0 <= i < j < |es| && es[i].op.Some? && es[j].op.Some? ==>
       es[i].op.value.expert != es[j].op.value.expert
  }

  /** Rule 3, one layer: one route, one shared expert, distinct experts, one aggregate over all of them. */
  ghost predicate Shape(ar: seq<Entry>, shared: seq<Entry>, experts: seq<Entry>, agg: seq<Entry>) {
    && |ar| == 1 && |shared| == 1 && experts != [] && |agg| == 1
    && DistinctExperts(experts)
    && shared[0].hash in agg[0].parents
    && forall i :: 0 <= i < |experts| ==> experts[i].hash in agg[0].parents
  }

  ghost predicate ShapeAt(chain: seq<Entry>, layer: int) {
    Shape(Select(chain, AttentionRoute, layer), Select(chain, SharedExpert, layer),
          Select(chain, Expert, layer), Select(chain, Aggregate, layer))
  }

  ghost predicate Shaped(chain: seq<Entry>) { forall l :: HasSplit(chain, l) ==> ShapeAt(chain, l) }

  /** Rule 5: who may do what. */
  predicate Authorized(e: Entry, r: Rules) {
    e.op.None? ||
      var op, range := e.op.value, r.range(e.node);
      match op.kind
      case Embed => range.start == 0
      case Finalize => range.end == r.total
      case LayerAtomic => range.start <= op.layer < range.end && op.layer !in r.split(e.node)
      case AttentionRoute => range.start <= op.layer < range.end && op.layer in r.split(e.node)
      case SharedExpert => range.start <= op.layer < range.end && op.layer in r.split(e.node)
      case Aggregate => range.start <= op.layer < range.end && op.layer in r.split(e.node)
      case Expert => e.node in r.owners(op.layer, op.expert)
      case Unspecified => true
  }

  /** Rule 4: the last hash is the digest of the tensor that came with the chain. */
  predicate TailMatches(chain: seq<Entry>, r: Rules, tail: Option<seq<Byte>>)
    requires chain != []
  {
    tail.None? ||
      var e := chain[|chain| - 1];
      e.op.Some? && r.digest(e.parents, e.node, e.op.value, tail.value) == e.hash
  }

  ghost predicate ValidChain(chain: seq<Entry>, r: Rules, tail: Option<seq<Byte>>) {
    && Starts(chain) && Complete(chain, r.total) && Shaped(chain)
    && (forall i :: 0 <= i < |chain| ==> Authorized(chain[i], r))
    && TailMatches(chain, r, tail)
  }

  // ------------------------------------------------------------- validator

  method CheckStart(chain: seq<Entry>) returns (ok: bool)
    ensures ok == Starts(chain)
  {
    if chain == [] { return false; }
    if !IsKind(chain[0], Embed) { return false; }
    for i := 0 to |chain|
      invariant forall j :: 0 <= j < i && j < |chain| - 1 ==> !IsKind(chain[j], Finalize)
    {
      if IsKind(chain[i], Finalize) && i != |chain| - 1 { return false; }
    }
    ok := true;
  }

  method CollectCovered(chain: seq<Entry>) returns (covered: set<int>, highest: Option<int>, finalized: bool)
    ensures forall l :: l in covered <==> Covered(chain, l)
    ensures highest.None? <==> covered == {}
    ensures highest.Some? ==> highest.value in covered && forall l :: l in covered ==> l <= highest.value
    ensures finalized == HasFinalize(chain)
  {
    covered, highest, finalized := {}, None, false;
    for i := 0 to |chain|
      invariant forall l :: l in covered <==>
                  exists j :: 0 <= j < i && (Is(chain[j], LayerAtomic, l) || Is(chain[j], Aggregate, l))
      invariant highest.None? <==> covered == {}
      invariant highest.Some? ==> highest.value in covered && forall l :: l in covered ==> l <= highest.value
      invariant finalized <==> exists j :: 0 <= j < i && IsKind(chain[j], Finalize)
    {
      if IsKind(chain[i], Finalize) { finalized := true; }
      if IsKind(chain[i], LayerAtomic) || IsKind(chain[i], Aggregate) {
        var l := chain[i].op.value.layer;
        assert Is(chain[i], LayerAtomic, l) || Is(chain[i], Aggregate, l);
        covered := covered + {l};
        highest := Some(if highest.None? then l else Max(highest.value, l));
      }
    }
  }

  method CheckComplete(chain: seq<Entry>, total: int) returns (ok: bool)
    ensures ok == Complete(chain, total)
  {
    var covered, highest, finalized := CollectCovered(chain);
    var upTo := if finalized then total else if highest.Some? then highest.value + 1 else 0;
    var l := 0;
    while l < upTo
      invariant 0 <= l && forall m :: 0 <= m < l ==> m in covered
    {
      if l !in covered {
        if !finalized { assert Covered(chain, highest.value) && !Covered(chain, l); }
        return false;
      }
      l := l + 1;
    }
    ok := true;
  }

  datatype Bucket = Bucket(ar: seq<Entry>, shared: seq<Entry>, experts: seq<Entry>, agg: seq<Entry>)

  ghost function BucketAt(chain: seq<Entry>, l: int): Bucket {
    Bucket(Select(chain, AttentionRoute, l), Select(chain, SharedExpert, l), Select(chain, Expert, l),
        Select(chain, Aggregate, l))
  }

  function Filed(b: Bucket, e: Entry, k: Kind): Bucket {
    match k
    case AttentionRoute => b.(ar := b.ar + [e])
    case SharedExpert => b.(shared := b.shared + [e])
    case Expert => b.(experts := b.experts + [e])
    case Aggregate => b.(agg := b.agg + [e])
    case _ => b
  }

  lemma FileStep(chain: seq<Entry>, i: nat, l: int)
    requires i < |chain|
    ensures BucketAt(chain[..i + 1], l)
         == if chain[i].op.Some? && chain[i].op.value.layer == l
            then Filed(BucketAt(chain[..i], l), chain[i], chain[i].op.value.kind)
            else BucketAt(chain[..i], l)
  {
    assert chain[..i + 1][..i] == chain[..i];
  }

  lemma {:induction false} SelectNone(chain: seq<Entry>, k: Kind, l: int)
    requires forall i :: 0 <= i < |chain| ==> !Is(chain[i], k, l)
    ensures Select(chain, k, l) == []
  {
    if chain != [] { SelectNone(chain[..|chain| - 1], k, l); }
  }

  lemma NoSplitEmpty(chain: seq<Entry>, l: int)
    requires !HasSplit(chain, l)
    ensures BucketAt(chain, l) == Bucket([], [], [], [])
  {
    SelectNone(chain, AttentionRoute, l);
    SelectNone(chain, SharedExpert, l);
    SelectNone(chain, Expert, l);
    SelectNone(chain, Aggregate, l);
  }

  /** Split entries bucketed by layer and kind. */
  method FileBuckets(chain: seq<Entry>) returns (buckets: map<int, Bucket>, layers: seq<int>)
    ensures forall l :: l in buckets <==> HasSplit(chain, l)
    ensures forall l :: l in layers <==> l in buckets
    ensures forall l :: l in buckets ==> buckets[l] == BucketAt(chain, l)
  {
    buckets, layers := map[], [];
    for i := 0 to |chain|
      invariant forall l :: l in buckets <==> HasSplit(chain[..i], l)
      invariant forall l :: l in layers <==> l in buckets
      invariant forall l :: l in buckets ==> buckets[l] == BucketAt(chain[..i], l)
    {
      var e := chain[i];
      forall l ensures BucketAt(chain[..i + 1], l)
        == if e.op.Some? && e.op.value.layer == l then Filed(BucketAt(chain[..i], l), e, e.op.value.kind)
           else BucketAt(chain[..i], l)
      {
        FileStep(chain, i, l);
      }
      SplitStep(chain, i);
      if e.op.Some? && SplitKind(e.op.value.kind) {
        var l := e.op.value.layer;
        if l !in buckets {
          NoSplitEmpty(chain[..i], l);
          layers := layers + [l];
        }
        buckets := buckets[l := Filed(if l in buckets then buckets[l] else Bucket([], [], [], []), e, e.op.value.kind)];
      }
    }
    assert chain[..|chain|] == chain;
  }

  lemma SplitStep(chain: seq<Entry>, i: nat)
    requires i < |chain|
    ensures forall l :: HasSplit(chain[..i + 1], l) <==>
              HasSplit(chain[..i], l)
              || (chain[i].op.Some? && SplitKind(chain[i].op.value.kind) && chain[i].op.value.layer == l)
  {
    var a, b := chain[..i], chain[..i + 1];
    forall l | HasSplit(a, l) ensures HasSplit(b, l) {
      var j :| 0 <= j < |a| && a[j].op.Some? && SplitKind(a[j].op.value.kind) && a[j].op.value.layer == l;
      assert b[j] == a[j];
    }
    assert b[i] == chain[i] && forall j :: 0 <= j < i ==> b[j] == a[j];
    forall l | HasSplit(b, l) && !HasSplit(a, l)
      ensures chain[i].op.Some? && SplitKind(chain[i].op.value.kind) && chain[i].op.value.layer == l
    {
      var j :| 0 <= j < |b| && b[j].op.Some? && SplitKind(b[j].op.value.kind) && b[j].op.value.layer == l;
    }
  }

  method CheckBucket(b: Bucket) returns (ok: bool)
    requires forall i :: 0 <= i < |b.experts| ==> b.experts[i].op.Some?
    ensures ok == Shape(b.ar, b.shared, b.experts, b.agg)
  {
    if |b.ar| != 1 || |b.shared| != 1 || |b.experts| == 0 || |b.agg| != 1 { return false; }
    var seen: set<int> := {};
    for i := 0 to |b.experts|
      invariant forall x :: x in seen <==> exists j :: 0 <= j < i && b.experts[j].op.value.expert == x
      invariant forall j, k :: 0 <= j < k < i ==> b.experts[j].op.value.expert != b.experts[k].op.value.expert
    {
      var x := b.experts[i].op.value.expert;
      if x in seen { return false; }
      seen := seen + {x};
    }
    if b.shared[0].hash !in b.agg[0].parents { return false; }
    for i := 0 to |b.experts|
      invariant forall j :: 0 <= j < i ==> b.experts[j].hash in b.agg[0].parents
    {
      if b.experts[i].hash !in b.agg[0].parents { return false; }
    }
    ok := true;
  }

  method CheckShapes(chain: seq<Entry>) returns (ok: bool)
    ensures ok == Shaped(chain)
  {
    var buckets, layers := FileBuckets(chain);
    for i := 0 to |layers|
      invariant forall j :: 0 <= j < i ==> ShapeAt(chain, layers[j])
    {
      var l := layers[i];
      assert l in layers;
      var b := buckets[l];
      forall j | 0 <= j < |b.experts| ensures b.experts[j].op.Some? { SelectMembers(chain, Expert, l, b.experts[j]); }
      var good := CheckBucket(b);
      if !good { return false; }
    }
    ok := true;
  }

  /** The five rules in the order the program checks them; it accepts exactly the valid chains. */
  method ValidateChain(chain: seq<Entry>, r: Rules, tail: Option<seq<Byte>>) returns (ok: bool)
    ensures ok == ValidChain(chain, r, tail)
  {
    var started := CheckStart(chain);
    if !started { return false; }
    var complete := CheckComplete(chain, r.total);
    if !complete { return false; }
    var shaped := CheckShapes(chain);
    if !shaped { return false; }
    for i := 0 to |chain|
      invariant forall j :: 0 <= j < i ==> Authorized(chain[j], r)
    {
      if !Authorized(chain[i], r) { return false; }
    }
    ok := TailMatches(chain, r, tail);
  }

  // ------------------------------------------------------------- soundness

  ghost predicate Hosts(r: Rules, s: ShardId, l: int) { r.range(s).start <= l < r.range(s).end }

  /** No layer belongs to two shards. */
  ghost predicate DisjointRanges(r: Rules) {
    forall s, t, l :: Hosts(r, s, l) && Hosts(r, t, l) ==> s == t
  }

  /** Entries that run part of a layer on the shard that hosts it. */
  predicate OnHost(k: Kind) { k == LayerAtomic || k == AttentionRoute || k == SharedExpert || k == Aggregate }

  ghost predicate AllBy(chain: seq<Entry>, l: int, s: ShardId) {
    forall i :: 0 <= i < |chain| && chain[i].op.Some? && OnHost(chain[i].op.value.kind) && chain[i].op.value.layer == l
      ==> chain[i].node == s
  }

  ghost predicate NoAtomic(chain: seq<Entry>, l: int) { forall i :: 0 <= i < |chain| ==> !Is(chain[i], LayerAtomic, l) }

  lemma HostedBy(chain: seq<Entry>, r: Rules, l: int, s: ShardId)
    requires DisjointRanges(r) && Hosts(r, s, l) && forall i :: 0 <= i < |chain| ==> Authorized(chain[i], r)
    ensures AllBy(chain, l, s)
  {
    forall i | 0 <= i < |chain| && chain[i].op.Some? && OnHost(chain[i].op.value.kind) && chain[i].op.value.layer == l
      ensures chain[i].node == s
    {
      assert Authorized(chain[i], r);
      assert Hosts(r, chain[i].node, l);
    }
  }

  /** In an accepted chain that ends in finalize, every layer is covered, all of its on-host entries come from the
      one shard that hosts it, and it is either purely atomic or one well-shaped split with no atomic entry. */
  lemma AcceptedChainSound(chain: seq<Entry>, r: Rules, tail: Option<seq<Byte>>, l: int) returns (s: ShardId)
    requires ValidChain(chain, r, tail) && DisjointRanges(r)
    requires IsKind(chain[|chain| - 1], Finalize) && 0 <= l < r.total
    ensures Covered(chain, l) && Hosts(r, s, l) && AllBy(chain, l, s)
    ensures if HasSplit(chain, l) then ShapeAt(chain, l) && NoAtomic(chain, l) && l in r.split(s)
            else Select(chain, LayerAtomic, l) != [] && l !in r.split(s)
  {
    assert HasFinalize(chain);
    assert Covered(chain, l);
    var i :| 0 <= i < |chain| && (Is(chain[i], LayerAtomic, l) || Is(chain[i], Aggregate, l));
    assert Authorized(chain[i], r);
    s := chain[i].node;
    assert Hosts(r, s, l);
    HostedBy(chain, r, l, s);
    if HasSplit(chain, l) {
      var agg := Select(chain, Aggregate, l)[0];
      SelectMembers(chain, Aggregate, l, agg);
      var k :| 0 <= k < |chain| && chain[k] == agg;
      assert Authorized(chain[k], r) && chain[k].node == s;
      forall j | 0 <= j < |chain| ensures !Is(chain[j], LayerAtomic, l) {
        assert Authorized(chain[j], r);
      }
    } else {
      assert Is(chain[i], LayerAtomic, l);
      SelectMembers(chain, LayerAtomic, l, chain[i]);
      assert chain[i] in chain;
    }
  }

  /** Same shard map, same chain: nobody but the head embeds and nobody but the tail finalizes. */
  lemma EndsAuthorized(chain: seq<Entry>, r: Rules, tail: Option<seq<Byte>>)
    requires ValidChain(chain, r, tail)
    ensures r.range(chain[0].node).start == 0
    ensures IsKind(chain[|chain| - 1], Finalize) ==> r.range(chain[|chain| - 1].node).end == r.total
    ensures forall i :: 0 <= i < |chain| && IsKind(chain[i], Finalize) ==> i == |chain| - 1
  {
    assert Authorized(chain[0], r) && Authorized(chain[|chain| - 1], r);
  }
}
